/**
 The endpoint slots of the QNX engine. A pulse names a slot and the 16-bit count
 of its reuses at the time of the registration, so that a pulse still under way
 when the slot is reused is recognised as obsolete.
 */
module QnxSlots {
  import opened Basics

  const UINT16 := 0x1_0000
  const UINT32 := 0x1_0000_0000
  const UINT48 := 0x1_0000_0000_0000
  const UINT64 := 0x1_0000_0000_0000_0000

  datatype Signal = NewData | Ping

  const SIGNAL_NEW_DATA := 0
  const SIGNAL_PING := 1

  datatype PulseValue = PulseValue(index: nat, signal: nat, nonce: nat)

  predicate Representable(v: PulseValue) {
    v.index < UINT32 && v.signal < UINT16 && v.nonce < UINT16
  }

  function Pack(v: PulseValue): nat {
    v.nonce * UINT48 + v.signal * UINT32 + v.index
  }

  function Unpack(pulse: nat): PulseValue {
    PulseValue(pulse % UINT32, pulse / UINT32 % UINT16, pulse / UINT48 % UINT16)
  }

  lemma PackThenUnpack(v: PulseValue)
    requires Representable(v)
    ensures Pack(v) < UINT64 && Unpack(Pack(v)) == v
  {
    var upper := v.nonce * UINT16 + v.signal;
    assert Pack(v) == upper * UINT32 + v.index;
    assert Pack(v) / UINT32 == upper && Pack(v) % UINT32 == v.index;
    assert upper % UINT16 == v.signal;
    assert Pack(v) / UINT48 == v.nonce by {
      assert 0 <= v.signal * UINT32 + v.index < UINT48;
    }
  }

  lemma UnpackThenPack(pulse: nat)
    requires pulse < UINT64
    ensures Representable(Unpack(pulse)) && Pack(Unpack(pulse)) == pulse
  {
  }

  // ----- the slots

  /** `endpoint` is the registration in the slot, by its number. */
  datatype Poll = Poll(endpoint: Option<nat>, nonce: nat)

  /** Where a registration was placed: the slot, and how often that slot had been reused by then. */
  datatype Place = Place(index: nat, generation: nat)

  /** The slots, and the history of the registrations. */
  datatype Table = Table(polls: seq<Poll>, generations: seq<nat>, places: map<nat, Place>, next: nat)

  datatype Op = Register | Unregister(serial: nat)

  function InitialTable(): Table {
    Table([], [], map[], 0)
  }

  function FirstFree(polls: seq<Poll>): (i: nat)
    ensures i <= |polls| && (i < |polls| ==> polls[i].endpoint.None?)
    ensures forall k :: 0 <= k < i ==> polls[k].endpoint.Some?
  {
    if |polls| == 0 || polls[0].endpoint.None? then 0 else 1 + FirstFree(polls[1..])
  }

  function SlotOf(polls: seq<Poll>, serial: nat): (i: nat)
    ensures i <= |polls| && (i < |polls| ==> polls[i].endpoint == Some(serial))
    ensures forall k :: 0 <= k < i ==> polls[k].endpoint != Some(serial)
  {
    if |polls| == 0 || polls[0].endpoint == Some(serial) then 0 else 1 + SlotOf(polls[1..], serial)
  }

  function Apply(t: Table, op: Op): (t': Table)
    requires |t.generations| == |t.polls|
    ensures |t'.generations| == |t'.polls|
  {
    match op
    case Register =>
      var i := FirstFree(t.polls);
      if i < |t.polls| then
        Table(t.polls[i := Poll(Some(t.next), (t.polls[i].nonce + 1) % UINT16)],
              t.generations[i := t.generations[i] + 1],
              t.places[t.next := Place(i, t.generations[i] + 1)], t.next + 1)
      else if i == UINT32 - 1 then
        t.(next := t.next + 1)
      else
        Table(t.polls + [Poll(Some(t.next), 0)], t.generations + [0], t.places[t.next := Place(i, 0)], t.next + 1)
    case Unregister(serial) =>
      var i := SlotOf(t.polls, serial);
      if i < |t.polls| then t.(polls := t.polls[i := t.polls[i].(endpoint := None)]) else t
  }

  ghost predicate Next(t: Table, op: Op, t': Table) {
    |t.generations| == |t.polls| && t' == Apply(t, op)
  }

  ghost predicate IsRun(tables: seq<Table>, ops: seq<Op>) {
    && |tables| == |ops| + 1
    && tables[0] == InitialTable()
    && forall i :: 0 <= i < |ops| ==> Next(tables[i], ops[i], tables[i + 1])
  }

  function Code(signal: Signal): nat {
    match signal
    case NewData => SIGNAL_NEW_DATA
    case Ping => SIGNAL_PING
  }

  /** The pulse that is registered with the server for a registration. */
  function PulseFor(place: Place, signal: Signal): nat {
    Pack(PulseValue(place.index, Code(signal), place.generation % UINT16))
  }

  datatype Delivery = Obsolete | Delivered(serial: nat, signal: Signal)

  function SelectPulse(t: Table, pulse: nat): Delivery {
    var v := Unpack(pulse);
    if v.index >= |t.polls| || t.polls[v.index].nonce != v.nonce || t.polls[v.index].endpoint.None? then Obsolete
    else Delivered(t.polls[v.index].endpoint.value, if v.signal == SIGNAL_PING then Ping else NewData)
  }

  /** The nonce is the count of reuses modulo 65536. */
  predicate NonceInv(polls: seq<Poll>, generations: seq<nat>) {
    && |generations| == |polls| < UINT32
    && forall i :: 0 <= i < |polls| ==> polls[i].nonce == generations[i] % UINT16
  }

  ghost predicate PlaceInv(generations: seq<nat>, places: map<nat, Place>, next: nat) {
    && (forall s :: s in places ==>
          s < next && places[s].index < |generations| && places[s].generation <= generations[places[s].index])
    && (forall s, r :: s in places && r in places && places[s] == places[r] ==> s == r)
  }

  predicate Holds(poll: Poll, place: Place, places: map<nat, Place>) {
    poll.endpoint.Some? ==> poll.endpoint.value in places && places[poll.endpoint.value] == place
  }

  /** A registration in a slot was placed there, at the slot's latest reuse. */
  ghost predicate HolderInv(polls: seq<Poll>, generations: seq<nat>, places: map<nat, Place>) {
    && |generations| == |polls|
    && forall i :: 0 <= i < |polls| ==> Holds(polls[i], Place(i, generations[i]), places)
  }

  ghost predicate Inv(t: Table) {
    && NonceInv(t.polls, t.generations)
    && PlaceInv(t.generations, t.places, t.next)
    && HolderInv(t.polls, t.generations, t.places)
  }

  lemma PlacingKeepsHolders(t: Table, t': Table)
    requires Inv(t) && t' == Apply(t, Register)
    ensures HolderInv(t'.polls, t'.generations, t'.places)
  {
    var i := FirstFree(t.polls);
    forall k | 0 <= k < |t'.polls|
      ensures Holds(t'.polls[k], Place(k, t'.generations[k]), t'.places)
    {
      if k != i {
        assert Holds(t.polls[k], Place(k, t.generations[k]), t.places);
      }
    }
  }

  lemma PlacingKeepsPlaces(t: Table, t': Table)
    requires Inv(t) && t' == Apply(t, Register)
    ensures PlaceInv(t'.generations, t'.places, t'.next)
  {
    assert t.next !in t.places;
    forall s, r | s in t'.places && r in t'.places && t'.places[s] == t'.places[r]
      ensures s == r
    {
      if s in t.places && r in t.places {
        assert t.places[s] == t.places[r];
      }
    }
  }

  lemma NextResidue(n: nat)
    ensures (n % UINT16 + 1) % UINT16 == (n + 1) % UINT16
  {
  }

  lemma PlacingKeepsNonces(t: Table, t': Table)
    requires Inv(t) && t' == Apply(t, Register)
    ensures NonceInv(t'.polls, t'.generations)
  {
    var i := FirstFree(t.polls);
    if i < |t.polls| {
      NextResidue(t.generations[i]);
    }
  }

  lemma PlacesGrow(t: Table, op: Op, s: nat)
    requires Inv(t) && s in t.places
    ensures s in Apply(t, op).places && Apply(t, op).places[s] == t.places[s]
  {
  }

  lemma OpKeepsInv(t: Table, op: Op)
    requires Inv(t)
    ensures Inv(Apply(t, op))
  {
    var t' := Apply(t, op);
    match op
    case Register =>
      PlacingKeepsNonces(t, t');
      PlacingKeepsHolders(t, t');
      PlacingKeepsPlaces(t, t');
    case Unregister(serial) =>
      forall k | 0 <= k < |t.polls|
        ensures Holds(t'.polls[k], Place(k, t.generations[k]), t.places)
      {
        assert Holds(t.polls[k], Place(k, t.generations[k]), t.places);
      }
  }

  lemma {:induction false} RunInv(tables: seq<Table>, ops: seq<Op>, n: nat)
    requires IsRun(tables, ops) && n <= |ops|
    ensures Inv(tables[n])
  {
    if n > 0 {
      RunInv(tables, ops, n - 1);
      assert Next(tables[n - 1], ops[n - 1], tables[n - 1 + 1]);
      OpKeepsInv(tables[n - 1], ops[n - 1]);
    }
  }

  /** A registration keeps its place in the history, whatever follows. */
  lemma {:induction false} PlaceStays(tables: seq<Table>, ops: seq<Op>, n: nat, m: nat, serial: nat)
    requires IsRun(tables, ops) && n <= m <= |ops| && serial in tables[n].places
    ensures serial in tables[m].places && tables[m].places[serial] == tables[n].places[serial]
    decreases m
  {
    if n < m {
      PlaceStays(tables, ops, n, m - 1, serial);
      RunInv(tables, ops, m - 1);
      assert Next(tables[m - 1], ops[m - 1], tables[m - 1 + 1]);
      PlacesGrow(tables[m - 1], ops[m - 1], serial);
    }
  }

  lemma UnpackedPulse(place: Place, signal: Signal)
    requires place.index < UINT32
    ensures Unpack(PulseFor(place, signal)) == PulseValue(place.index, Code(signal), place.generation % UINT16)
  {
    PackThenUnpack(PulseValue(place.index, Code(signal), place.generation % UINT16));
  }

  lemma DeliveryAt(t: Table, serial: nat, signal: Signal)
    requires Inv(t) && serial in t.places
    ensures var place := t.places[serial];
            && place.index < |t.polls| && place.generation <= t.generations[place.index]
            && var poll, reuses := t.polls[place.index], t.generations[place.index] - place.generation;
               var delivery := SelectPulse(t, PulseFor(place, signal));
               && delivery == (if poll.endpoint.Some? && reuses % UINT16 == 0
                               then Delivered(poll.endpoint.value, signal) else Obsolete)
               && (poll.endpoint == Some(serial) <==> poll.endpoint.Some? && reuses == 0)
  {
    var place := t.places[serial];
    UnpackedPulse(place, signal);
    SameResidueIff(t.generations[place.index], place.generation);
    assert Holds(t.polls[place.index], Place(place.index, t.generations[place.index]), t.places);
  }

  /**
   A pulse packed for a registration that had taken place after n operations, arriving after m of them: it is
   delivered exactly when the slot is occupied and was reused a multiple of 65536 times in between, and it reaches
   its own registration exactly when the slot is occupied and was not reused at all.
   */
  lemma PulseReaches(tables: seq<Table>, ops: seq<Op>, n: nat, m: nat, serial: nat, signal: Signal)
    requires IsRun(tables, ops) && n <= m <= |ops| && serial in tables[n].places
    ensures var place, t := tables[n].places[serial], tables[m];
            && place.index < |t.polls| && |t.polls| == |t.generations|
            && place.generation <= t.generations[place.index]
            && var poll, reuses := t.polls[place.index], t.generations[place.index] - place.generation;
               var delivery := SelectPulse(t, PulseFor(place, signal));
               && delivery == (if poll.endpoint.Some? && reuses % UINT16 == 0
                               then Delivered(poll.endpoint.value, signal) else Obsolete)
               && (poll.endpoint == Some(serial) <==> poll.endpoint.Some? && reuses == 0)
  {
    PlaceStays(tables, ops, n, m, serial);
    RunInv(tables, ops, m);
    DeliveryAt(tables[m], serial, signal);
  }

  lemma SameResidueIff(a: nat, b: nat)
    requires b <= a
    ensures a % UINT16 == b % UINT16 <==> (a - b) % UINT16 == 0
  {
  }

  // ----- a slot reused 65536 times

  ghost predicate OneSlot(t: Table, endpoint: Option<nat>, n: nat) {
    && t.polls == [Poll(endpoint, n % UINT16)] && t.generations == [n] && t.next == n + 1
    && 0 in t.places && t.places[0] == Place(0, 0)
  }

  lemma FreeOneSlot(t: Table, n: nat)
    requires OneSlot(t, Some(n), n)
    ensures OneSlot(Apply(t, Unregister(n)), None, n)
  {
  }

  lemma ReuseOneSlot(t: Table, n: nat)
    requires OneSlot(t, None, n)
    ensures OneSlot(Apply(t, Register), Some(n + 1), n + 1)
  {
    NextResidue(n);
  }

  ghost predicate RunTo(tables: seq<Table>, ops: seq<Op>, t: Table) {
    IsRun(tables, ops) && tables[|ops|] == t
  }

  lemma Extend(tables: seq<Table>, ops: seq<Op>, t: Table, op: Op, t': Table)
    returns (tables': seq<Table>, ops': seq<Op>)
    requires RunTo(tables, ops, t) && Next(t, op, t')
    ensures RunTo(tables', ops', t')
  {
    tables', ops' := tables + [t'], ops + [op];
    forall i | 0 <= i < |ops'|
      ensures Next(tables'[i], ops'[i], tables'[i + 1])
    {
      if i < |ops| {
        assert Next(tables[i], ops[i], tables[i + 1]);
      }
    }
  }

  lemma {:induction false} ReachReused(n: nat) returns (tables: seq<Table>, ops: seq<Op>, t: Table)
    ensures RunTo(tables, ops, t) && OneSlot(t, Some(n), n)
  {
    if n == 0 {
      t := Apply(InitialTable(), Register);
      tables, ops := Extend([InitialTable()], [], InitialTable(), Register, t);
    } else {
      tables, ops, t := ReachReused(n - 1);
      var free := Apply(t, Unregister(n - 1));
      FreeOneSlot(t, n - 1);
      ReuseOneSlot(free, n - 1);
      tables, ops := Extend(tables, ops, t, Unregister(n - 1), free);
      t := Apply(free, Register);
      tables, ops := Extend(tables, ops, free, Register, t);
    }
  }

  /** So far apart, the pulse of the first registration reaches the last one. */
  lemma StalePulseDelivered(signal: Signal) returns (tables: seq<Table>, ops: seq<Op>, t: Table)
    ensures RunTo(tables, ops, t) && 0 in t.places
    ensures SelectPulse(t, PulseFor(t.places[0], signal)) == Delivered(UINT16, signal)
  {
    tables, ops, t := ReachReused(UINT16);
    UnpackedPulse(Place(0, 0), signal);
  }

  // ----- the engine

  /** A new registration was placed with the nonce its slot has now. */
  lemma NewPlaceIsCurrent(t: Table)
    requires Inv(t)
    ensures var t' := Apply(t, Register);
            t.next in t'.places ==>
              && t'.places[t.next].index < |t'.polls|
              && t'.polls[t'.places[t.next].index].nonce == t'.places[t.next].generation % UINT16
  {
    PlacingKeepsNonces(t, Apply(t, Register));
  }

  /** The registration has a slot. */
  predicate Selected(polls: seq<Poll>, serial: nat) {
    exists k :: 0 <= k < |polls| && polls[k].endpoint == Some(serial)
  }

  /** One slot at most, as each slot holds the registration of its own place. */
  lemma SelectedOnce(t: Table, serial: nat, i: nat, k: nat)
    requires Inv(t) && i < |t.polls| && k < |t.polls|
    requires t.polls[i].endpoint == Some(serial) && t.polls[k].endpoint == Some(serial)
    ensures i == k
  {
    assert Holds(t.polls[i], Place(i, t.generations[i]), t.places);
    assert Holds(t.polls[k], Place(k, t.generations[k]), t.places);
  }

  class QnxDispatchEngine {
    var pollEndpoints: seq<Poll>
    ghost var generations: seq<nat>
    ghost var places: map<nat, Place>
    var next: nat
    var disconnects: seq<nat>  // whose disconnect handlers were called

    ghost function View(): Table
      reads this
    {
      Table(pollEndpoints, generations, places, next)
    }

    constructor ()
      ensures View() == InitialTable() && Inv(View()) && disconnects == []
    {
      pollEndpoints, generations, places, next, disconnects := [], [], map[], 0, [];
    }

    method FindFree() returns (index: nat)
      ensures index == FirstFree(pollEndpoints)
    {
      index := 0;
      while index < |pollEndpoints| && pollEndpoints[index].endpoint.Some?
        invariant index <= |pollEndpoints|
        invariant forall k :: 0 <= k < index ==> pollEndpoints[k].endpoint.Some?
      {
        index := index + 1;
      }
    }

    /** The slot of the new registration, none if the slot numbers are used up. */
    method Occupy() returns (index: Option<nat>)
      requires Inv(View())
      modifies this
      ensures View() == Apply(old(View()), Register) && disconnects == old(disconnects)
      ensures index.Some? <==> old(next) in places
      ensures index.Some? ==> index.value < |pollEndpoints| && index.value == places[old(next)].index
    {
      assert next !in places;
      var i := FindFree();
      if i < |pollEndpoints| {
        pollEndpoints := pollEndpoints[i := Poll(Some(next), (pollEndpoints[i].nonce + 1) % UINT16)];
        generations := generations[i := generations[i] + 1];
      } else if i == UINT32 - 1 {
        next := next + 1;
        return None;
      } else {
        pollEndpoints := pollEndpoints + [Poll(Some(next), 0)];
        generations := generations + [0];
      }
      places := places[next := Place(i, generations[i])];
      next := next + 1;
      return Some(i);
    }

    /** Returns the pulses that are registered with the server. */
    method RegisterPosixEndpoint() returns (pulses: seq<nat>)
      requires Inv(View())
      modifies this
      ensures Inv(View()) && View() == Apply(old(View()), Register) && disconnects == old(disconnects)
      ensures old(next) in places ==>
                pulses == [PulseFor(places[old(next)], NewData), PulseFor(places[old(next)], Ping)]
      ensures old(next) !in places ==> pulses == []
    {
      OpKeepsInv(View(), Register);
      NewPlaceIsCurrent(View());
      var index := Occupy();
      if index.None? {
        return [];
      }
      var nonce := pollEndpoints[index.value].nonce;
      return [Pack(PulseValue(index.value, SIGNAL_NEW_DATA, nonce)), Pack(PulseValue(index.value, SIGNAL_PING, nonce))];
    }

    /**
     Returns the pulses whose registration with the server is taken back: those of the endpoint, if it has a slot.
     The disconnect handler, if there is one, is called in either case.
     */
    method UnselectEndpoint(serial: nat, handler: bool) returns (pulses: seq<nat>)
      requires Inv(View())
      modifies this
      ensures Inv(View()) && View() == Apply(old(View()), Unregister(serial))
      ensures !Selected(pollEndpoints, serial)
      ensures Selected(old(pollEndpoints), serial) ==>
                serial in places && pulses == [PulseFor(places[serial], NewData), PulseFor(places[serial], Ping)]
      ensures !Selected(old(pollEndpoints), serial) ==> pulses == []
      ensures disconnects == old(disconnects) + if handler then [serial] else []
    {
      OpKeepsInv(View(), Unregister(serial));
      var index := 0;
      while index < |pollEndpoints| && pollEndpoints[index].endpoint != Some(serial)
        invariant index <= |pollEndpoints|
        invariant forall k :: 0 <= k < index ==> pollEndpoints[k].endpoint != Some(serial)
      {
        index := index + 1;
      }
      assert index == SlotOf(pollEndpoints, serial);
      pulses := [];
      if index < |pollEndpoints| {
        var nonce := pollEndpoints[index].nonce;
        forall k | 0 <= k < |pollEndpoints| && pollEndpoints[k].endpoint == Some(serial)
          ensures k == index
        {
          SelectedOnce(View(), serial, index, k);
        }
        assert Holds(pollEndpoints[index], Place(index, generations[index]), places);
        pollEndpoints := pollEndpoints[index := pollEndpoints[index].(endpoint := None)];
        pulses := [Pack(PulseValue(index, SIGNAL_NEW_DATA, nonce)), Pack(PulseValue(index, SIGNAL_PING, nonce))];
      }
      if handler {
        disconnects := disconnects + [serial];
      }
    }
  }
}
