/**
 The endpoint table of the Unix domain engine: two parallel arrays with a slot
 per endpoint, reused once freed, and the pass that dispatches poll results to
 endpoints whose handlers change the table meanwhile.
 */
module UnixSlots {
  import opened Basics
  import TimedQueue

  /**
   One registration. A registered descriptor is not negative, `serial` numbers the registrations, and `handler` says
   whether there is a disconnect handler.
   */
  datatype Endpoint = Endpoint(serial: nat, fd: nat, owner: nat, handler: bool)

  datatype Poll = Poll(fd: int, revents: int)

  datatype Table = Table(fds: seq<Poll>, endpoints: seq<Option<Endpoint>>, list: seq<Endpoint>, next: nat)

  const FREE := Poll(-1, 0)

  predicate Occupied(t: Table, i: nat) {
    i < |t.endpoints| && t.endpoints[i].Some?
  }

  predicate SlotsAgree(fds: seq<Poll>, endpoints: seq<Option<Endpoint>>) {
    && |fds| == |endpoints|
    && forall i :: 0 <= i < |fds| ==>
         match endpoints[i]
         case None => fds[i] == FREE
         case Some(e) => fds[i].fd == e.fd
  }

  /** No registration is in two slots, and all were numbered before `next`. */
  predicate SlotsDistinct(endpoints: seq<Option<Endpoint>>, next: nat) {
    && (forall i :: 0 <= i < |endpoints| && endpoints[i].Some? ==> endpoints[i].value.serial < next)
    && (forall i, j :: 0 <= i < j < |endpoints| && endpoints[i].Some? && endpoints[j].Some? ==>
          endpoints[i].value.serial != endpoints[j].value.serial)
  }

  /** The list holds each registered endpoint once and nothing else. */
  ghost predicate Listed(endpoints: seq<Option<Endpoint>>, list: seq<Endpoint>) {
    && (forall e :: e in list <==> Some(e) in endpoints)
    && NoDuplicates(list)
  }

  predicate NoDuplicates(list: seq<Endpoint>) {
    forall i, j :: 0 <= i < j < |list| ==> list[i] != list[j]
  }

  ghost predicate Consistent(t: Table) {
    SlotsAgree(t.fds, t.endpoints) && SlotsDistinct(t.endpoints, t.next) && Listed(t.endpoints, t.list)
  }

  // ----- the changes of the table

  function FirstFree(fds: seq<Poll>): (i: nat)
    ensures i <= |fds| && (i < |fds| ==> fds[i].fd < 0)
    ensures forall k :: 0 <= k < i ==> fds[k].fd >= 0
  {
    if |fds| == 0 || fds[0].fd < 0 then 0 else 1 + FirstFree(fds[1..])
  }

  function Register(t: Table, fd: nat, owner: nat, handler: bool): Table
    requires |t.fds| == |t.endpoints|
  {
    var e := Endpoint(t.next, fd, owner, handler);
    var i := FirstFree(t.fds);
    if i < |t.fds| then
      Table(t.fds[i := Poll(fd, 0)], t.endpoints[i := Some(e)], t.list + [e], t.next + 1)
    else
      Table(t.fds + [Poll(fd, 0)], t.endpoints + [Some(e)], t.list + [e], t.next + 1)
  }

  function Erase(list: seq<Endpoint>, e: Endpoint): seq<Endpoint> {
    if |list| == 0 then []
    else if list[0] == e then list[1..]
    else [list[0]] + Erase(list[1..], e)
  }

  function Unpoll(t: Table, i: nat): Table
    requires |t.fds| == |t.endpoints| && Occupied(t, i)
  {
    t.(fds := t.fds[i := FREE], endpoints := t.endpoints[i := None], list := Erase(t.list, t.endpoints[i].value))
  }

  lemma {:induction false} EraseOnce(list: seq<Endpoint>, e: Endpoint)
    requires NoDuplicates(list)
    ensures forall f :: f in Erase(list, e) <==> f in list && f != e
    ensures NoDuplicates(Erase(list, e))
  {
    if |list| > 0 {
      assert list == [list[0]] + list[1..];
      forall k | 0 <= k < |list[1..]|
        ensures list[1..][k] != list[0]
      {
        assert list[k + 1] != list[0];
      }
      EraseOnce(list[1..], e);
      var rest := Erase(list[1..], e);
      forall k | 0 <= k < |rest|
        ensures rest[k] != list[0]
      {
        assert rest[k] in list[1..];
      }
    }
  }

  lemma RegisterKeepsTable(t: Table, fd: nat, owner: nat, handler: bool)
    requires Consistent(t)
    ensures Consistent(Register(t, fd, owner, handler))
    ensures forall f :: Some(f) in Register(t, fd, owner, handler).endpoints <==>
              Some(f) in t.endpoints || f == Endpoint(t.next, fd, owner, handler)
  {
    var t' := Register(t, fd, owner, handler);
    var i := FirstFree(t.fds);
    var e := Endpoint(t.next, fd, owner, handler);
    assert t'.endpoints[i] == Some(e);
    assert forall k :: 0 <= k < |t.endpoints| && k != i ==> t'.endpoints[k] == t.endpoints[k];
    assert i < |t.fds| ==> t.endpoints[i].None?;
    forall f
      ensures f in t'.list <==> Some(f) in t'.endpoints
    {
      if Some(f) in t.endpoints {
        var k :| 0 <= k < |t.endpoints| && t.endpoints[k] == Some(f);
        assert t'.endpoints[k] == Some(f);
      }
    }
    assert e !in t.list;
  }

  lemma UnpollKeepsTable(t: Table, i: nat)
    requires Consistent(t) && Occupied(t, i)
    ensures Consistent(Unpoll(t, i))
    ensures forall f :: Some(f) in Unpoll(t, i).endpoints <==> Some(f) in t.endpoints && f != t.endpoints[i].value
  {
    var t' := Unpoll(t, i);
    var e := t.endpoints[i].value;
    EraseOnce(t.list, e);
    assert forall k :: 0 <= k < |t.endpoints| && k != i ==> t'.endpoints[k] == t.endpoints[k];
    forall f
      ensures f in t'.list <==> Some(f) in t'.endpoints
    {
      if Some(f) in t.endpoints && f != e {
        var k :| 0 <= k < |t.endpoints| && t.endpoints[k] == Some(f);
        assert t'.endpoints[k] == Some(f);
      }
      if Some(f) in t'.endpoints {
        var k :| 0 <= k < |t'.endpoints| && t'.endpoints[k] == Some(f);
        assert k != i && t.endpoints[k] == Some(f);
        assert f.serial != e.serial;
      }
    }
  }

  // ----- what handlers do

  datatype Change = Add(fd: nat, owner: nat, handler: bool) | Remove(serial: nat)

  /** What a disconnect handler, and everything called from it, does to the table and to the timer queue. */
  datatype Reaction = Reaction(changes: seq<Change>, actions: seq<TimedQueue.Action>)

  /** The slot of a registration, or the number of slots. */
  function SlotOf(endpoints: seq<Option<Endpoint>>, serial: nat): (i: nat)
    ensures i <= |endpoints|
    ensures i < |endpoints| ==> endpoints[i].Some? && endpoints[i].value.serial == serial
    ensures forall k :: 0 <= k < i && endpoints[k].Some? ==> endpoints[k].value.serial != serial
  {
    if |endpoints| == 0 || (endpoints[0].Some? && endpoints[0].value.serial == serial) then 0
    else 1 + SlotOf(endpoints[1..], serial)
  }

  function Changed(t: Table, change: Change): (t': Table)
    requires |t.fds| == |t.endpoints|
    ensures |t'.fds| == |t'.endpoints|
  {
    match change
    case Add(fd, owner, handler) => Register(t, fd, owner, handler)
    case Remove(serial) =>
      var i := SlotOf(t.endpoints, serial);
      if i < |t.endpoints| then Unpoll(t, i) else t
  }

  function ChangedAll(t: Table, changes: seq<Change>): Table
    requires |t.fds| == |t.endpoints|
    decreases |changes|
  {
    if |changes| == 0 then t else ChangedAll(Changed(t, changes[0]), changes[1..])
  }

  lemma ChangeKeepsTable(t: Table, change: Change)
    requires Consistent(t)
    ensures Consistent(Changed(t, change))
  {
    match change
    case Add(fd, owner, handler) => RegisterKeepsTable(t, fd, owner, handler);
    case Remove(serial) =>
      var i := SlotOf(t.endpoints, serial);
      if i < |t.endpoints| {
        UnpollKeepsTable(t, i);
      }
  }

  /** A slot keeps its registration, loses it, or receives a new one, with no event reported for it. */
  predicate SlotMoves(before: Table, after: Table, k: nat)
    requires |before.fds| == |before.endpoints| && |after.fds| == |after.endpoints|
  {
    k < |after.endpoints| ==>
      || (k < |before.endpoints| && after.endpoints[k] == before.endpoints[k] && after.fds[k] == before.fds[k])
      || (after.endpoints[k].None? && after.fds[k].revents == 0)
      || (after.endpoints[k].Some? && after.endpoints[k].value.serial >= before.next && after.fds[k].revents == 0)
  }

  lemma ChangeMovesSlots(t: Table, change: Change, k: nat)
    requires Consistent(t)
    ensures var t' := Changed(t, change);
            && |t.endpoints| <= |t'.endpoints| && t.next <= t'.next
            && SlotMoves(t, t', k)
            && (k < |t.endpoints| && t.endpoints[k].Some? && change != Remove(t.endpoints[k].value.serial) ==>
                  t'.endpoints[k] == t.endpoints[k] && t'.fds[k] == t.fds[k])
  {
  }

  lemma {:induction false} ChangesMoveSlots(t: Table, changes: seq<Change>, k: nat)
    requires Consistent(t)
    ensures var t' := ChangedAll(t, changes);
            && Consistent(t') && |t.endpoints| <= |t'.endpoints| && t.next <= t'.next
            && SlotMoves(t, t', k)
            && (k < |t.endpoints| && t.endpoints[k].Some? && Remove(t.endpoints[k].value.serial) !in changes ==>
                  t'.endpoints[k] == t.endpoints[k])
    decreases |changes|
  {
    if |changes| > 0 {
      ChangeKeepsTable(t, changes[0]);
      ChangeMovesSlots(t, changes[0], k);
      ChangesMoveSlots(Changed(t, changes[0]), changes[1..], k);
    }
  }

  function At(script: seq<Reaction>, k: nat): Reaction {
    if k < |script| then script[k] else Reaction([], [])
  }

  /** Neither owned by the one to be cleaned up nor removed by a handler. */
  predicate Spared(slot: Option<Endpoint>, owner: nat, script: seq<Reaction>) {
    && slot.Some? && slot.value.owner != owner
    && forall k :: 0 <= k < |script| ==> Remove(slot.value.serial) !in script[k].changes
  }

  /** The slots before i hold nothing of the owner's that was registered before number n. */
  predicate CleanBefore(endpoints: seq<Option<Endpoint>>, i: nat, owner: nat, n: nat) {
    forall k :: 0 <= k < i && k < |endpoints| && endpoints[k].Some? && endpoints[k].value.serial < n ==>
      endpoints[k].value.owner != owner
  }

  /** Nothing registered before number n has appeared. */
  predicate NothingOldAdded(before: seq<Option<Endpoint>>, after: seq<Option<Endpoint>>, n: nat) {
    forall k :: 0 <= k < |after| && after[k].Some? && after[k].value.serial < n ==>
      k < |before| && after[k] == before[k]
  }

  predicate SparedKept(before: seq<Option<Endpoint>>, after: seq<Option<Endpoint>>, owner: nat,
                       script: seq<Reaction>) {
    |before| <= |after| && forall k :: 0 <= k < |before| && Spared(before[k], owner, script) ==> after[k] == before[k]
  }

  /** At the end of a clean-up. */
  lemma CleanResult(before: seq<Option<Endpoint>>, after: seq<Option<Endpoint>>, owner: nat, n: nat,
                    script: seq<Reaction>)
    requires CleanBefore(after, |after|, owner, n) && NothingOldAdded(before, after, n)
    requires SparedKept(before, after, owner, script)
    ensures forall e :: Some(e) in after && e.serial < n ==> e.owner != owner && Some(e) in before
    ensures forall e :: Some(e) in before && Spared(Some(e), owner, script) ==> Some(e) in after
  {
    forall e | Some(e) in after && e.serial < n
      ensures e.owner != owner && Some(e) in before
    {
      var k :| 0 <= k < |after| && after[k] == Some(e);
    }
    forall e | Some(e) in before && Spared(Some(e), owner, script)
      ensures Some(e) in after
    {
      var k :| 0 <= k < |before| && before[k] == Some(e);
      assert after[k] == Some(e);
    }
  }

  // ----- the disconnect handlers

  /** The endpoint whose handler a change calls, if any. */
  function Notified(t: Table, change: Change): seq<Endpoint> {
    match change
    case Add(_, _, _) => []
    case Remove(serial) =>
      var i := SlotOf(t.endpoints, serial);
      if i < |t.endpoints| && t.endpoints[i].value.handler then [t.endpoints[i].value] else []
  }

  function NotifiedAll(t: Table, changes: seq<Change>): seq<Endpoint>
    requires |t.fds| == |t.endpoints|
    decreases |changes|
  {
    if |changes| == 0 then []
    else Notified(t, changes[0]) + NotifiedAll(Changed(t, changes[0]), changes[1..])
  }

  /** No handler was called twice, nor that of an endpoint that is still registered. */
  ghost predicate Told(t: Table, log: seq<Endpoint>) {
    && NoDuplicates(log)
    && forall e :: e in log ==> e.serial < t.next && Some(e) !in t.endpoints
  }

  /** Of the endpoints there before that have a handler, those gone by now have had it called. */
  ghost predicate Accounted(before: seq<Option<Endpoint>>, after: seq<Option<Endpoint>>, log: seq<Endpoint>) {
    forall e :: Some(e) in before && e.handler ==> Some(e) in after || e in log
  }

  lemma RegisterTold(t: Table, fd: nat, owner: nat, handler: bool, log: seq<Endpoint>)
    requires Consistent(t) && Told(t, log)
    ensures Told(Register(t, fd, owner, handler), log)
  {
    RegisterKeepsTable(t, fd, owner, handler);
  }

  lemma UnpollTold(t: Table, i: nat, log: seq<Endpoint>)
    requires Consistent(t) && Occupied(t, i) && Told(t, log)
    ensures Told(Unpoll(t, i), log + if t.endpoints[i].value.handler then [t.endpoints[i].value] else [])
  {
    UnpollKeepsTable(t, i);
    assert Some(t.endpoints[i].value) in t.endpoints;
  }

  lemma ChangeAccounts(t: Table, change: Change)
    requires Consistent(t)
    ensures Accounted(t.endpoints, Changed(t, change).endpoints, Notified(t, change))
  {
    match change
    case Add(fd, owner, handler) => RegisterKeepsTable(t, fd, owner, handler);
    case Remove(serial) =>
      var i := SlotOf(t.endpoints, serial);
      if i < |t.endpoints| {
        UnpollKeepsTable(t, i);
      }
  }

  lemma {:induction false} ChangesAccount(t: Table, changes: seq<Change>)
    requires Consistent(t)
    ensures Accounted(t.endpoints, ChangedAll(t, changes).endpoints, NotifiedAll(t, changes))
    decreases |changes|
  {
    if |changes| > 0 {
      ChangeKeepsTable(t, changes[0]);
      ChangeAccounts(t, changes[0]);
      ChangesAccount(Changed(t, changes[0]), changes[1..]);
    }
  }

  lemma Regroup(log: seq<Endpoint>, first: seq<Endpoint>, rest: seq<Endpoint>)
    ensures (log + first) + rest == log + (first + rest)
  {
  }

  // ----- a clean-up

  /** Slot i was freed, its handler was called if there is one, and made the changes. */
  ghost predicate Cleaned(t: Table, log: seq<Endpoint>, i: nat, changes: seq<Change>, t': Table, log': seq<Endpoint>)
    requires |t.fds| == |t.endpoints| && Occupied(t, i)
  {
    var e, t1 := t.endpoints[i].value, Unpoll(t, i);
    if e.handler then t' == ChangedAll(t1, changes) && log' == log + [e] + NotifiedAll(t1, changes)
    else t' == t1 && log' == log
  }

  /** What holds of a clean-up that has come to slot i. */
  ghost predicate Cleaning(before: Table, t: Table, log: seq<Endpoint>, i: nat, owner: nat, script: seq<Reaction>) {
    && before.next <= t.next
    && CleanBefore(t.endpoints, i, owner, before.next)
    && NothingOldAdded(before.endpoints, t.endpoints, before.next)
    && SparedKept(before.endpoints, t.endpoints, owner, script)
    && Accounted(before.endpoints, t.endpoints, log)
  }

  /** The changes remove nothing that is spared. */
  predicate Harmless(changes: seq<Change>, endpoints: seq<Option<Endpoint>>, owner: nat, script: seq<Reaction>) {
    forall k :: 0 <= k < |endpoints| && Spared(endpoints[k], owner, script) ==>
      Remove(endpoints[k].value.serial) !in changes
  }

  lemma CleanSlot(t: Table, log: seq<Endpoint>, i: nat, changes: seq<Change>, t': Table, log': seq<Endpoint>, k: nat)
    requires Consistent(t) && Occupied(t, i) && Cleaned(t, log, i, changes, t', log')
    ensures Consistent(t') && t.next <= t'.next && |t.endpoints| <= |t'.endpoints|
    ensures k < |t'.endpoints| && t'.endpoints[k].Some? && t'.endpoints[k].value.serial < t.next ==>
              k < |t.endpoints| && k != i && t'.endpoints[k] == t.endpoints[k]
    ensures k < |t.endpoints| && k != i && t.endpoints[k].Some? && Remove(t.endpoints[k].value.serial) !in changes ==>
              t'.endpoints[k] == t.endpoints[k]
  {
    UnpollKeepsTable(t, i);
    ChangesMoveSlots(Unpoll(t, i), changes, k);
  }

  lemma CleanAccounts(before: seq<Option<Endpoint>>, t: Table, log: seq<Endpoint>, i: nat, changes: seq<Change>,
                      t': Table, log': seq<Endpoint>)
    requires Consistent(t) && Occupied(t, i) && Cleaned(t, log, i, changes, t', log')
    requires Accounted(before, t.endpoints, log)
    ensures Accounted(before, t'.endpoints, log')
  {
    UnpollKeepsTable(t, i);
    ChangesAccount(Unpoll(t, i), changes);
  }

  lemma CleanSlots(before: Table, t: Table, log: seq<Endpoint>, i: nat, owner: nat, script: seq<Reaction>,
                   changes: seq<Change>, t': Table, log': seq<Endpoint>)
    requires Consistent(t) && Occupied(t, i) && t.endpoints[i].value.owner == owner
    requires Cleaning(before, t, log, i, owner, script) && Cleaned(t, log, i, changes, t', log')
    requires Harmless(changes, t.endpoints, owner, script)
    ensures |t.endpoints| <= |t'.endpoints| && before.next <= t'.next
    ensures CleanBefore(t'.endpoints, i + 1, owner, before.next)
    ensures NothingOldAdded(before.endpoints, t'.endpoints, before.next)
    ensures SparedKept(before.endpoints, t'.endpoints, owner, script)
  {
    CleanSlot(t, log, i, changes, t', log', 0);
    forall k | 0 <= k < |t'.endpoints|
      ensures t'.endpoints[k].Some? && t'.endpoints[k].value.serial < t.next ==>
                k < |t.endpoints| && k != i && t'.endpoints[k] == t.endpoints[k]
      ensures k < |t.endpoints| && Spared(t.endpoints[k], owner, script) ==> t'.endpoints[k] == t.endpoints[k]
    {
      CleanSlot(t, log, i, changes, t', log', k);
    }
  }

  lemma CleaningStarts(t: Table, log: seq<Endpoint>, owner: nat, script: seq<Reaction>)
    ensures Cleaning(t, t, log, 0, owner, script)
  {
  }

  /** A slot that is free or another owner's is passed over. */
  lemma CleanNothing(before: Table, t: Table, log: seq<Endpoint>, i: nat, owner: nat, script: seq<Reaction>)
    requires i < |t.endpoints| && (t.endpoints[i].Some? ==> t.endpoints[i].value.owner != owner)
    requires Cleaning(before, t, log, i, owner, script)
    ensures Cleaning(before, t, log, i + 1, owner, script)
  {
  }

  lemma CleanOne(before: Table, t: Table, log: seq<Endpoint>, i: nat, owner: nat, script: seq<Reaction>,
                 k: nat, t': Table, log': seq<Endpoint>)
    requires Consistent(t) && Occupied(t, i) && t.endpoints[i].value.owner == owner
    requires Cleaning(before, t, log, i, owner, script) && Cleaned(t, log, i, At(script, k).changes, t', log')
    ensures Cleaning(before, t', log', i + 1, owner, script) && |t.endpoints| <= |t'.endpoints|
  {
    CleanSlots(before, t, log, i, owner, script, At(script, k).changes, t', log');
    CleanAccounts(before.endpoints, t, log, i, At(script, k).changes, t', log');
  }

  /** The queue's contents after the first n reactions. */
  function AfterReactions(p: TimedQueue.Pending, script: seq<Reaction>, n: nat): TimedQueue.Pending {
    if n == 0 then p else TimedQueue.ActAll(AfterReactions(p, script, n - 1), At(script, n - 1).actions)
  }

  class UnixDomainEngine {
    var pollFds: seq<Poll>
    var pollEndpoints: seq<Option<Endpoint>>
    var endpointList: seq<Endpoint>
    var next: nat
    var disconnects: seq<Endpoint>  // whose disconnect handlers were called
    const timerQueue: TimedQueue.TimedCommandQueue

    ghost function View(): Table
      reads this
    {
      Table(pollFds, pollEndpoints, endpointList, next)
    }

    ghost predicate Valid()
      reads this
    {
      Consistent(View()) && Told(View(), disconnects)
    }

    constructor ()
      ensures Valid() && View() == Table([], [], [], 0) && disconnects == []
      ensures fresh(timerQueue) && timerQueue.Valid() && timerQueue.Contents() == TimedQueue.Pending({}, 0)
    {
      pollFds, pollEndpoints, endpointList, next, disconnects := [], [], [], 0, [];
      timerQueue := new TimedQueue.TimedCommandQueue();
    }

    method RegisterPosixEndpoint(fd: nat, owner: nat, handler: bool)
      requires Valid()
      modifies this
      ensures Valid() && View() == Register(old(View()), fd, owner, handler) && disconnects == old(disconnects)
    {
      RegisterKeepsTable(View(), fd, owner, handler);
      RegisterTold(View(), fd, owner, handler, disconnects);
      var endpoint := Endpoint(next, fd, owner, handler);
      var i := 0;
      while i < |pollFds| && pollFds[i].fd >= 0
        invariant i <= |pollFds|
        invariant forall k :: 0 <= k < i ==> pollFds[k].fd >= 0
      {
        i := i + 1;
      }
      assert i == FirstFree(pollFds);
      if i < |pollFds| {
        pollFds := pollFds[i := Poll(fd, 0)];
        pollEndpoints := pollEndpoints[i := Some(endpoint)];
      } else {
        pollFds := pollFds + [Poll(fd, 0)];
        pollEndpoints := pollEndpoints + [Some(endpoint)];
      }
      endpointList := endpointList + [endpoint];
      next := next + 1;
    }

    /** Ends with the call of the disconnect handler. */
    method UnpollEndpoint(index: nat)
      requires Valid() && Occupied(View(), index)
      modifies this
      ensures Valid() && View() == Unpoll(old(View()), index)
      ensures var e := old(pollEndpoints)[index].value;
              disconnects == old(disconnects) + if e.handler then [e] else []
    {
      UnpollKeepsTable(View(), index);
      UnpollTold(View(), index, disconnects);
      var endpoint := pollEndpoints[index].value;
      endpointList := Erase(endpointList, endpoint);
      pollEndpoints := pollEndpoints[index := None];
      pollFds := pollFds[index := Poll(-1, 0)];
      if endpoint.handler {
        disconnects := disconnects + [endpoint];
      }
    }

    method UnregisterPosixEndpoint(serial: nat)
      requires Valid()
      modifies this
      ensures Valid() && View() == Changed(old(View()), Remove(serial))
      ensures disconnects == old(disconnects) + Notified(old(View()), Remove(serial))
    {
      var i := 0;
      while i < |pollEndpoints| && !(pollEndpoints[i].Some? && pollEndpoints[i].value.serial == serial)
        invariant i <= |pollEndpoints|
        invariant forall k :: 0 <= k < i && pollEndpoints[k].Some? ==> pollEndpoints[k].value.serial != serial
      {
        i := i + 1;
      }
      assert i == SlotOf(pollEndpoints, serial);
      if i < |pollEndpoints| {
        UnpollEndpoint(i);
      }
    }

    method PerformOne(change: Change)
      requires Valid()
      modifies this
      ensures Valid() && View() == Changed(old(View()), change)
      ensures disconnects == old(disconnects) + Notified(old(View()), change)
    {
      match change {
        case Add(fd, owner, handler) => RegisterPosixEndpoint(fd, owner, handler);
        case Remove(serial) => UnregisterPosixEndpoint(serial);
      }
    }

    method Perform(changes: seq<Change>)
      requires Valid()
      modifies this
      ensures Valid() && View() == ChangedAll(old(View()), changes)
      ensures disconnects == old(disconnects) + NotifiedAll(old(View()), changes)
    {
      var i := 0;
      while i < |changes|
        invariant i <= |changes| && Valid()
        invariant ChangedAll(View(), changes[i..]) == ChangedAll(old(View()), changes)
        invariant disconnects + NotifiedAll(View(), changes[i..])
               == old(disconnects) + NotifiedAll(old(View()), changes)
      {
        ghost var t, log := View(), disconnects;
        assert changes[i..][0] == changes[i] && changes[i..][1..] == changes[i + 1..];
        PerformOne(changes[i]);
        Regroup(log, Notified(t, changes[i]), NotifiedAll(View(), changes[i + 1..]));
        i := i + 1;
      }
    }

    /** A slot of the owner's is freed and the handler, if there is one, reacts. */
    method Disconnect(index: nat, reaction: Reaction)
      requires Valid() && timerQueue.Valid() && Occupied(View(), index)
      modifies this, timerQueue
      ensures Valid() && timerQueue.Valid()
      ensures Cleaned(old(View()), old(disconnects), index, reaction.changes, View(), disconnects)
      ensures reaction.changes == [] || !old(pollEndpoints)[index].value.handler ==> |pollFds| == old(|pollFds|)
      ensures timerQueue.Contents() == (if old(pollEndpoints)[index].value.handler
                                        then TimedQueue.ActAll(old(timerQueue.Contents()), reaction.actions)
                                        else old(timerQueue.Contents()))
    {
      var handler := pollEndpoints[index].value.handler;
      UnpollEndpoint(index);
      if handler {
        Perform(reaction.changes);
        timerQueue.Perform(reaction.actions);
      }
    }

    /** One round of the loop of ProcessCleanup. */
    method CleanSlotAt(i: nat, owner: nat, script: seq<Reaction>, calls: nat, ghost before: Table) returns (calls': nat)
      requires Valid() && timerQueue.Valid() && i < |pollFds|
      requires Cleaning(before, View(), disconnects, i, owner, script)
      modifies this, timerQueue
      ensures Valid() && timerQueue.Valid() && i < |pollFds|
      ensures Cleaning(before, View(), disconnects, i + 1, owner, script)
      ensures calls' == calls ==> timerQueue.Contents() == old(timerQueue.Contents())
      ensures calls' != calls ==> && calls' == calls + 1
                                  && timerQueue.Contents()
                                  == TimedQueue.ActAll(old(timerQueue.Contents()), At(script, calls).actions)
      ensures calls' == calls || calls >= |script| ==> |pollFds| == old(|pollFds|)
    {
      calls' := calls;
      if pollFds[i].fd != -1 && pollEndpoints[i].value.owner == owner {
        ghost var t, log := View(), disconnects;
        if pollEndpoints[i].value.handler {
          calls' := calls + 1;
        }
        Disconnect(i, At(script, calls));
        CleanOne(before, t, log, i, owner, script, calls, View(), disconnects);
      } else {
        CleanNothing(before, View(), disconnects, i, owner, script);
      }
    }

    /** The k-th disconnect handler that is called reacts as script[k] says. */
    method UnpollOwned(owner: nat, script: seq<Reaction>) returns (calls: nat)
      requires Valid() && timerQueue.Valid()
      modifies this, timerQueue
      ensures Valid() && timerQueue.Valid()
      ensures Cleaning(old(View()), View(), disconnects, |pollFds|, owner, script)
      ensures timerQueue.Contents() == AfterReactions(old(timerQueue.Contents()), script, calls)
    {
      CleaningStarts(View(), disconnects, owner, script);
      calls := 0;
      var i := 0;
      while i < |pollFds|
        invariant Valid() && timerQueue.Valid() && i <= |pollFds|
        invariant Cleaning(old(View()), View(), disconnects, i, owner, script)
        invariant timerQueue.Contents() == AfterReactions(old(timerQueue.Contents()), script, calls)
        decreases if calls < |script| then |script| - calls else 0, |pollFds| - i
      {
        calls := CleanSlotAt(i, owner, script, calls, old(View()));
        i := i + 1;
      }
    }

    method ProcessCleanup(owner: nat, script: seq<Reaction>) returns (ghost calls: nat)
      requires Valid() && timerQueue.Valid()
      modifies this, timerQueue
      ensures Valid() && timerQueue.Valid()
      ensures forall e :: Some(e) in pollEndpoints && e.serial < old(next) ==>
                e.owner != owner && Some(e) in old(pollEndpoints)
      ensures forall e :: Some(e) in old(pollEndpoints) && Spared(Some(e), owner, script) ==> Some(e) in pollEndpoints
      ensures forall e :: Some(e) in old(pollEndpoints) && e.handler ==>
                (Some(e) in pollEndpoints <==> e !in disconnects)
      ensures timerQueue.Contents() == TimedQueue.Act(AfterReactions(old(timerQueue.Contents()), script, calls),
                                                      TimedQueue.CleanUp(Some(owner)))
    {
      calls := UnpollOwned(owner, script);
      CleanResult(old(pollEndpoints), pollEndpoints, owner, old(next), script);
      timerQueue.CleanUpOwner(Some(owner));
    }
  }

  // ----- a dispatch pass

  /**
   `polled` and `reported` are the slots and the events of the last poll, `gone` the registrations removed since,
   `served` the slots whose input handlers were called since, and `inputs` what was called.
   */
  datatype Pass = Pass(t: Table, i: nat, running: bool, on: bool, polled: seq<Option<Endpoint>>, reported: seq<int>,
                       gone: set<nat>, served: seq<nat>, inputs: seq<Option<Endpoint>>)

  datatype Step =
    | PollReturns(revents: seq<int>)
    | Skip
    | CallInput
    | InputReturns
    | PassEnds
    | Handle(change: Change)  // by the running handler, or by a command between two passes

  function InitialPass(): Pass {
    Pass(Table([], [], [], 0), 0, false, false, [], [], {}, [], [])
  }

  predicate Enabled(p: Pass, step: Step) {
    && |p.t.fds| == |p.t.endpoints|
    && match step
       case PollReturns(revents) => !p.on && |revents| == |p.t.fds|
       case Skip => p.on && !p.running && p.i < |p.t.fds| && p.t.fds[p.i].revents == 0
       case CallInput => p.on && !p.running && p.i < |p.t.fds| && p.t.fds[p.i].revents != 0
       case InputReturns => p.running
       case PassEnds => p.on && !p.running && p.i >= |p.t.fds|
       case Handle(change) => p.running || !p.on
  }

  /** poll() stores the events, and none for a negative descriptor. */
  function Reported(fds: seq<Poll>, revents: seq<int>): seq<int>
    requires |revents| == |fds|
  {
    seq(|fds|, k requires 0 <= k < |fds| => if fds[k].fd < 0 then 0 else revents[k])
  }

  function Polled(fds: seq<Poll>, reported: seq<int>): seq<Poll>
    requires |reported| == |fds|
  {
    seq(|fds|, k requires 0 <= k < |fds| => Poll(fds[k].fd, reported[k]))
  }

  function Apply(p: Pass, step: Step): Pass
    requires Enabled(p, step)
  {
    match step
    case PollReturns(revents) =>
      var reported := Reported(p.t.fds, revents);
      Pass(p.t.(fds := Polled(p.t.fds, reported)), 0, false, true, p.t.endpoints, reported, {}, [], [])
    case Skip => p.(i := p.i + 1)
    case CallInput => p.(running := true, served := p.served + [p.i], inputs := p.inputs + [p.t.endpoints[p.i]])
    case InputReturns => p.(running := false, i := p.i + 1)
    case PassEnds => p.(on := false)
    case Handle(change) =>
      p.(t := Changed(p.t, change), gone := if change.Remove? then p.gone + {change.serial} else p.gone)
  }

  ghost predicate IsRun(states: seq<Pass>, steps: seq<Step>) {
    && |states| == |steps| + 1
    && states[0] == InitialPass()
    && forall k :: 0 <= k < |steps| ==> Enabled(states[k], steps[k]) && states[k + 1] == Apply(states[k], steps[k])
  }

  /** An event still noted in a slot was reported for the registration that is in it. */
  ghost predicate EventsCurrent(t: Table, polled: seq<Option<Endpoint>>, reported: seq<int>, gone: set<nat>) {
    |t.fds| == |t.endpoints| && |polled| == |reported| <= |t.fds| &&
    forall k :: 0 <= k < |t.fds| && t.fds[k].revents != 0 ==>
      && k < |polled| && polled[k].Some? && t.endpoints[k] == polled[k] && reported[k] != 0
      && polled[k].value.serial !in gone
  }

  /** A reported event is still noted, unless its registration was removed. */
  ghost predicate EventsKept(t: Table, polled: seq<Option<Endpoint>>, reported: seq<int>, gone: set<nat>) {
    |polled| == |reported| <= |t.fds| &&
    forall k :: 0 <= k < |reported| && reported[k] != 0 ==>
      && polled[k].Some? && polled[k].value.serial < t.next
      && (polled[k].value.serial in gone || t.fds[k].revents != 0)
  }

  /** The inputs were called slot by slot, for what was polled there. */
  ghost predicate ServedInOrder(i: nat, running: bool, polled: seq<Option<Endpoint>>, reported: seq<int>,
                                served: seq<nat>, inputs: seq<Option<Endpoint>>) {
    && |served| == |inputs| && |polled| == |reported|
    && (forall j :: 0 <= j < |served| ==>
          && served[j] < |polled| && reported[served[j]] != 0
          && inputs[j] == polled[served[j]] && polled[served[j]].Some?
          && served[j] <= i && (served[j] == i ==> running))
    && (forall j, k :: 0 <= j < k < |served| ==> served[j] < served[k])
  }

  ghost predicate AllServed(i: nat, running: bool, polled: seq<Option<Endpoint>>, reported: seq<int>, gone: set<nat>,
                            served: seq<nat>) {
    |polled| == |reported| &&
    forall k :: 0 <= k < |reported| && (k < i || (k == i && running)) && reported[k] != 0 ==>
      k in served || (polled[k].Some? && polled[k].value.serial in gone)
  }

  ghost predicate Inv(p: Pass) {
    && Consistent(p.t)
    && (p.running ==> p.on)
    && (p.on ==>
          && EventsCurrent(p.t, p.polled, p.reported, p.gone)
          && EventsKept(p.t, p.polled, p.reported, p.gone)
          && ServedInOrder(p.i, p.running, p.polled, p.reported, p.served, p.inputs)
          && AllServed(p.i, p.running, p.polled, p.reported, p.gone, p.served))
  }

  lemma PollKeepsInv(p: Pass, revents: seq<int>)
    requires Inv(p) && Enabled(p, PollReturns(revents))
    ensures Inv(Apply(p, PollReturns(revents)))
  {
    var p' := Apply(p, PollReturns(revents));
    assert Consistent(p'.t);
  }

  lemma CallKeepsInv(p: Pass)
    requires Inv(p) && Enabled(p, CallInput)
    ensures Inv(Apply(p, CallInput))
  {
    var p' := Apply(p, CallInput);
    assert p'.served[|p.served|] == p.i;
    forall k | 0 <= k < |p.reported| && k <= p.i && p.reported[k] != 0
      ensures k in p'.served || (p.polled[k].Some? && p.polled[k].value.serial in p.gone)
    {
      if k in p.served {
        assert k in p'.served;
      }
    }
  }

  lemma HandleKeepsInv(p: Pass, change: Change)
    requires Inv(p) && Enabled(p, Handle(change))
    ensures Inv(Apply(p, Handle(change)))
  {
    var p' := Apply(p, Handle(change));
    ChangeKeepsTable(p.t, change);
    forall k: nat
      ensures SlotMoves(p.t, p'.t, k)
      ensures k < |p.t.endpoints| && p.t.endpoints[k].Some? && change != Remove(p.t.endpoints[k].value.serial) ==>
                p'.t.endpoints[k] == p.t.endpoints[k] && p'.t.fds[k] == p.t.fds[k]
    {
      ChangeMovesSlots(p.t, change, k);
    }
  }

  lemma StepKeepsInv(p: Pass, step: Step)
    requires Inv(p) && Enabled(p, step)
    ensures Inv(Apply(p, step))
  {
    match step
    case PollReturns(revents) => PollKeepsInv(p, revents);
    case CallInput => CallKeepsInv(p);
    case Handle(change) => HandleKeepsInv(p, change);
    case _ =>
  }

  lemma {:induction false} RunsKeepInv(states: seq<Pass>, steps: seq<Step>)
    requires IsRun(states, steps)
    ensures Inv(states[|steps|])
    decreases |steps|
  {
    if |steps| > 0 {
      var n := |steps| - 1;
      RunsKeepInv(states[..|steps|], steps[..n]);
      StepKeepsInv(states[n], steps[n]);
    }
  }

  /**
   Whatever handlers do, the table stays consistent, and an input handler that is about to be called belongs to the
   registration that was polled in its slot, had an event reported, and has not been unregistered since.
   */
  lemma InputsAreCurrent(states: seq<Pass>, steps: seq<Step>)
    requires IsRun(states, steps)
    ensures var p := states[|steps|];
            && Consistent(p.t)
            && (Enabled(p, CallInput) ==>
                  && p.t.endpoints[p.i].Some? && p.i < |p.polled| && p.t.endpoints[p.i] == p.polled[p.i]
                  && p.i < |p.reported| && p.reported[p.i] != 0 && p.polled[p.i].value.serial !in p.gone)
  {
    RunsKeepInv(states, steps);
  }

  /** By the end of a pass every reported registration was served exactly once, unless it was unregistered. */
  lemma PassServesAll(states: seq<Pass>, steps: seq<Step>, k: nat)
    requires IsRun(states, steps)
    requires Enabled(states[|steps|], PassEnds)
    requires k < |states[|steps|].reported| && states[|steps|].reported[k] != 0
    ensures var p := states[|steps|];
            && k < |p.polled| && p.polled[k].Some?
            && (p.polled[k].value.serial in p.gone || multiset(p.served)[k] == 1)
            && multiset(p.served)[k] <= 1
  {
    RunsKeepInv(states, steps);
    IncreasingOccursOnce(states[|steps|].served, k);
  }

  lemma {:induction false} IncreasingOccursOnce(s: seq<nat>, k: nat)
    requires forall i, j :: 0 <= i < j < |s| ==> s[i] < s[j]
    ensures multiset(s)[k] == if k in s then 1 else 0
  {
    if |s| > 0 {
      var n := |s| - 1;
      assert s == s[..n] + [s[n]];
      IncreasingOccursOnce(s[..n], k);
      assert s[n] !in s[..n];
    }
  }
}
