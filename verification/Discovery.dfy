/**
 Searches for services: the maps from a search's handle to its handler and to
 the instance identifiers searched for, the calls made on the bindings, and what
 is undone when a search fails part of the way.
 */
module Discovery {
  import opened Basics

  /** An instance identifier is deployed on one binding. */
  datatype Identifier = Identifier(name: nat, binding: nat)

  /** An entry of the multimap from handles to instance identifiers. */
  datatype Instance = Instance(handle: nat, identifier: Identifier)

  /** A call on a binding. Stopping a search tells the binding the handle only. */
  datatype Call = Started(handle: nat, identifier: Identifier) | Stopped(handle: nat, binding: nat)

  datatype State = State(nextUid: nat, callbacks: map<nat, nat>, instances: seq<Instance>, calls: seq<Call>)

  /** Handles in use were given out before. */
  ghost predicate Valid(s: State) {
    && (forall h :: h in s.callbacks ==> h < s.nextUid)
    && (forall i :: 0 <= i < |s.instances| ==> s.instances[i].handle < s.nextUid)
    && (forall i :: 0 <= i < |s.calls| ==> s.calls[i].handle < s.nextUid)
  }

  // ----- the multimap

  function Of(instances: seq<Instance>, h: nat): seq<Identifier> {
    if |instances| == 0 then []
    else (if instances[0].handle == h then [instances[0].identifier] else []) + Of(instances[1..], h)
  }

  function WithoutHandle(instances: seq<Instance>, h: nat): seq<Instance> {
    if |instances| == 0 then []
    else (if instances[0].handle == h then [] else [instances[0]]) + WithoutHandle(instances[1..], h)
  }

  function Erased(instances: seq<Instance>, e: Instance): seq<Instance> {
    if |instances| == 0 then []
    else (if instances[0] == e then [] else [instances[0]]) + Erased(instances[1..], e)
  }

  function ErasedAll(instances: seq<Instance>, h: nat, unused: seq<Identifier>): seq<Instance>
    decreases |unused|
  {
    if |unused| == 0 then instances
    else ErasedAll(Erased(instances, Instance(h, unused[0])), h, unused[1..])
  }

  function Instances(h: nat, identifiers: seq<Identifier>): seq<Instance> {
    seq(|identifiers|, i requires 0 <= i < |identifiers| => Instance(h, identifiers[i]))
  }

  function Starts(h: nat, identifiers: seq<Identifier>): seq<Call> {
    seq(|identifiers|, i requires 0 <= i < |identifiers| => Started(h, identifiers[i]))
  }

  function Stops(h: nat, identifiers: seq<Identifier>): seq<Call> {
    seq(|identifiers|, i requires 0 <= i < |identifiers| => Stopped(h, identifiers[i].binding))
  }

  function Bindings(identifiers: seq<Identifier>): seq<nat> {
    seq(|identifiers|, i requires 0 <= i < |identifiers| => identifiers[i].binding)
  }

  /** The identifiers that are not among the unused ones. */
  function Kept(identifiers: seq<Identifier>, unused: seq<Identifier>): seq<Identifier> {
    if |identifiers| == 0 then []
    else (if identifiers[0] in unused then [] else [identifiers[0]]) + Kept(identifiers[1..], unused)
  }

  predicate Unmentioned(instances: seq<Instance>, h: nat) {
    forall i :: 0 <= i < |instances| ==> instances[i].handle != h
  }

  lemma {:induction false} OfAppend(a: seq<Instance>, b: seq<Instance>, h: nat)
    ensures Of(a + b, h) == Of(a, h) + Of(b, h)
  {
    if |a| == 0 {
      assert a + b == b;
    } else {
      assert (a + b)[1..] == a[1..] + b;
      OfAppend(a[1..], b, h);
      var first := if a[0].handle == h then [a[0].identifier] else [];
      assert first + (Of(a[1..], h) + Of(b, h)) == (first + Of(a[1..], h)) + Of(b, h);
    }
  }

  lemma {:induction false} WithoutAppend(a: seq<Instance>, b: seq<Instance>, h: nat)
    ensures WithoutHandle(a + b, h) == WithoutHandle(a, h) + WithoutHandle(b, h)
  {
    if |a| == 0 {
      assert a + b == b;
    } else {
      assert (a + b)[1..] == a[1..] + b;
      WithoutAppend(a[1..], b, h);
      var first := if a[0].handle == h then [] else [a[0]];
      assert first + (WithoutHandle(a[1..], h) + WithoutHandle(b, h))
          == (first + WithoutHandle(a[1..], h)) + WithoutHandle(b, h);
    }
  }

  lemma {:induction false} OfUnmentioned(instances: seq<Instance>, h: nat)
    requires Unmentioned(instances, h)
    ensures Of(instances, h) == [] && WithoutHandle(instances, h) == instances
  {
    if |instances| > 0 {
      OfUnmentioned(instances[1..], h);
    }
  }

  lemma {:induction false} OfInstances(h: nat, identifiers: seq<Identifier>)
    ensures Of(Instances(h, identifiers), h) == identifiers && WithoutHandle(Instances(h, identifiers), h) == []
  {
    if |identifiers| > 0 {
      assert Instances(h, identifiers)[1..] == Instances(h, identifiers[1..]);
      OfInstances(h, identifiers[1..]);
    }
  }

  lemma NewInstances(instances: seq<Instance>, h: nat, identifiers: seq<Identifier>)
    requires Unmentioned(instances, h)
    ensures Of(instances + Instances(h, identifiers), h) == identifiers
    ensures WithoutHandle(instances + Instances(h, identifiers), h) == instances
  {
    OfAppend(instances, Instances(h, identifiers), h);
    WithoutAppend(instances, Instances(h, identifiers), h);
    OfUnmentioned(instances, h);
    OfInstances(h, identifiers);
  }

  /** Erasing entries of a handle touches nothing of the other handles. */
  lemma {:induction false} ErasedMoves(instances: seq<Instance>, h: nat, x: Identifier)
    ensures Of(Erased(instances, Instance(h, x)), h) == Kept(Of(instances, h), [x])
    ensures WithoutHandle(Erased(instances, Instance(h, x)), h) == WithoutHandle(instances, h)
  {
    if |instances| > 0 {
      ErasedMoves(instances[1..], h, x);
      var rest := Erased(instances[1..], Instance(h, x));
      var first := if instances[0] == Instance(h, x) then [] else [instances[0]];
      OfAppend(first, rest, h);
      WithoutAppend(first, rest, h);
      KeptAppend(if instances[0].handle == h then [instances[0].identifier] else [], Of(instances[1..], h), [x]);
    }
  }

  lemma {:induction false} KeptAppend(a: seq<Identifier>, b: seq<Identifier>, unused: seq<Identifier>)
    ensures Kept(a + b, unused) == Kept(a, unused) + Kept(b, unused)
  {
    if |a| == 0 {
      assert a + b == b;
    } else {
      assert (a + b)[1..] == a[1..] + b;
      KeptAppend(a[1..], b, unused);
    }
  }

  lemma {:induction false} KeptTwice(identifiers: seq<Identifier>, unused: seq<Identifier>)
    requires |unused| > 0
    ensures Kept(Kept(identifiers, [unused[0]]), unused[1..]) == Kept(identifiers, unused)
  {
    assert unused == [unused[0]] + unused[1..];
    if |identifiers| > 0 {
      KeptTwice(identifiers[1..], unused);
      KeptAppend(if identifiers[0] == unused[0] then [] else [identifiers[0]], Kept(identifiers[1..], [unused[0]]),
                 unused[1..]);
    }
  }

  lemma {:induction false} ErasedAllMoves(instances: seq<Instance>, h: nat, unused: seq<Identifier>)
    ensures Of(ErasedAll(instances, h, unused), h) == Kept(Of(instances, h), unused)
    ensures WithoutHandle(ErasedAll(instances, h, unused), h) == WithoutHandle(instances, h)
    decreases |unused|
  {
    if |unused| == 0 {
      KeptAll(Of(instances, h));
    } else {
      ErasedMoves(instances, h, unused[0]);
      ErasedAllMoves(Erased(instances, Instance(h, unused[0])), h, unused[1..]);
      KeptTwice(Of(instances, h), unused);
    }
  }

  lemma {:induction false} KeptAll(identifiers: seq<Identifier>)
    ensures Kept(identifiers, []) == identifiers
  {
    if |identifiers| > 0 {
      KeptAll(identifiers[1..]);
    }
  }

  // ----- the calls on the bindings

  function StartedOf(calls: seq<Call>, h: nat): seq<Identifier> {
    if |calls| == 0 then []
    else (if calls[0].Started? && calls[0].handle == h then [calls[0].identifier] else []) + StartedOf(calls[1..], h)
  }

  /** The bindings that were told. */
  function StoppedOf(calls: seq<Call>, h: nat): seq<nat> {
    if |calls| == 0 then []
    else (if calls[0].Stopped? && calls[0].handle == h then [calls[0].binding] else []) + StoppedOf(calls[1..], h)
  }

  lemma {:induction false} StartedAppend(a: seq<Call>, b: seq<Call>, h: nat)
    ensures StartedOf(a + b, h) == StartedOf(a, h) + StartedOf(b, h)
  {
    if |a| == 0 {
      assert a + b == b;
    } else {
      assert (a + b)[1..] == a[1..] + b;
      StartedAppend(a[1..], b, h);
    }
  }

  lemma {:induction false} StoppedAppend(a: seq<Call>, b: seq<Call>, h: nat)
    ensures StoppedOf(a + b, h) == StoppedOf(a, h) + StoppedOf(b, h)
  {
    if |a| == 0 {
      assert a + b == b;
    } else {
      assert (a + b)[1..] == a[1..] + b;
      StoppedAppend(a[1..], b, h);
    }
  }

  lemma {:induction false} CallsOfStarts(h: nat, identifiers: seq<Identifier>, g: nat)
    ensures StartedOf(Starts(h, identifiers), g) == (if g == h then identifiers else [])
    ensures StoppedOf(Starts(h, identifiers), g) == []
  {
    if |identifiers| > 0 {
      assert Starts(h, identifiers)[1..] == Starts(h, identifiers[1..]);
      CallsOfStarts(h, identifiers[1..], g);
    }
  }

  lemma {:induction false} CallsOfStops(h: nat, identifiers: seq<Identifier>, g: nat)
    ensures StoppedOf(Stops(h, identifiers), g) == (if g == h then Bindings(identifiers) else [])
    ensures StartedOf(Stops(h, identifiers), g) == []
  {
    if |identifiers| > 0 {
      assert Stops(h, identifiers)[1..] == Stops(h, identifiers[1..]);
      assert Bindings(identifiers)[1..] == Bindings(identifiers[1..]);
      CallsOfStops(h, identifiers[1..], g);
    }
  }

  lemma {:induction false} NoCallsOf(calls: seq<Call>, h: nat)
    requires forall i :: 0 <= i < |calls| ==> calls[i].handle != h
    ensures StartedOf(calls, h) == [] && StoppedOf(calls, h) == []
  {
    if |calls| > 0 {
      NoCallsOf(calls[1..], h);
    }
  }

  lemma CallsAfter(calls: seq<Call>, h: nat, used: seq<Identifier>, kept: seq<Identifier>)
    requires forall i :: 0 <= i < |calls| ==> calls[i].handle != h
    ensures StartedOf(calls + Starts(h, used) + Stops(h, kept), h) == used
    ensures StoppedOf(calls + Starts(h, used) + Stops(h, kept), h) == Bindings(kept)
  {
    NoCallsOf(calls, h);
    CallsOfStarts(h, used, h);
    CallsOfStops(h, kept, h);
    StartedAppend(calls, Starts(h, used), h);
    StartedAppend(calls + Starts(h, used), Stops(h, kept), h);
    StoppedAppend(calls, Starts(h, used), h);
    StoppedAppend(calls + Starts(h, used), Stops(h, kept), h);
  }

  // ----- starting and stopping a search

  function StopSearch(s: State, h: nat): State {
    s.(callbacks := s.callbacks - {h}, instances := WithoutHandle(s.instances, h),
       calls := s.calls + Stops(h, Of(s.instances, h)))
  }

  /** How many of the n binding calls succeed before the first failure. */
  function Successes(accepted: seq<bool>, n: nat): (i: nat)
    requires n <= |accepted|
    ensures i <= n && (i < n ==> !accepted[i])
    ensures forall k :: 0 <= k < i ==> accepted[k]
  {
    if n == 0 || !accepted[0] then 0 else 1 + Successes(accepted[1..], n - 1)
  }

  /** The state after StartFindService: all searches running, or what the undoing leaves. */
  function StartSearch(s: State, handler: nat, identifiers: seq<Identifier>, accepted: seq<bool>): State
    requires |identifiers| <= |accepted|
  {
    var h, i := s.nextUid, Successes(accepted, |identifiers|);
    if i == |identifiers| then
      State(h + 1, s.callbacks[h := handler], s.instances + Instances(h, identifiers),
            s.calls + Starts(h, identifiers))
    else
      s.(nextUid := h + 1,
         calls := s.calls + Starts(h, identifiers[..i + 1]) + Stops(h, Kept(identifiers, identifiers[i + 1..])))
  }

  predicate Disjoint(a: seq<Identifier>, b: seq<Identifier>) {
    forall x :: x in a ==> x !in b
  }

  lemma {:induction false} KeptMembers(identifiers: seq<Identifier>, unused: seq<Identifier>)
    ensures forall x :: x in Kept(identifiers, unused) <==> x in identifiers && x !in unused
    ensures |Kept(identifiers, unused)| <= |identifiers|
    ensures Disjoint(identifiers, unused) <==> |Kept(identifiers, unused)| == |identifiers|
    ensures Disjoint(identifiers, unused) ==> Kept(identifiers, unused) == identifiers
  {
    if |identifiers| > 0 {
      assert identifiers == [identifiers[0]] + identifiers[1..];
      KeptMembers(identifiers[1..], unused);
    }
  }

  lemma {:induction false} KeptNone(identifiers: seq<Identifier>, unused: seq<Identifier>)
    requires forall i :: 0 <= i < |identifiers| ==> identifiers[i] in unused
    ensures Kept(identifiers, unused) == []
  {
    if |identifiers| > 0 {
      KeptNone(identifiers[1..], unused);
    }
  }

  /** The bindings of what is kept are those of what was used, one for one, exactly when nothing used is unused too. */
  lemma KeptIsUsedIff(used: seq<Identifier>, unused: seq<Identifier>)
    ensures Kept(used + unused, unused) == Kept(used, unused)
    ensures multiset(Bindings(Kept(used, unused))) == multiset(Bindings(used)) <==> Disjoint(used, unused)
  {
    KeptAppend(used, unused, unused);
    KeptMembers(used, unused);
    KeptNone(unused, unused);
    assert |multiset(Bindings(used))| == |used|;
    assert |multiset(Bindings(Kept(used, unused)))| == |Kept(used, unused)|;
  }

  /** One of the identifiers used on the binding is not unused too. */
  predicate KeptOn(used: seq<Identifier>, unused: seq<Identifier>, binding: nat) {
    exists y :: y in used && y !in unused && y.binding == binding
  }

  predicate EveryBindingKept(used: seq<Identifier>, unused: seq<Identifier>) {
    forall x :: x in used ==> KeptOn(used, unused, x.binding)
  }

  lemma BindingKeptIff(used: seq<Identifier>, unused: seq<Identifier>, binding: nat)
    ensures binding in Bindings(Kept(used, unused)) <==> KeptOn(used, unused, binding)
  {
    var kept := Kept(used, unused);
    KeptMembers(used, unused);
    if binding in Bindings(kept) {
      var i :| 0 <= i < |kept| && Bindings(kept)[i] == binding;
      assert kept[i] in kept;
    }
    if y :| y in used && y !in unused && y.binding == binding {
      var i :| 0 <= i < |kept| && kept[i] == y;
      assert Bindings(kept)[i] == binding;
    }
  }

  lemma EveryBindingKeptIff(used: seq<Identifier>, unused: seq<Identifier>)
    ensures (forall b :: b in Bindings(used) ==> b in Bindings(Kept(used, unused))) <==> EveryBindingKept(used, unused)
  {
    forall b
      ensures b in Bindings(Kept(used, unused)) <==> KeptOn(used, unused, b)
    {
      BindingKeptIff(used, unused, b);
    }
    forall x | x in used
      ensures x.binding in Bindings(used)
    {
      var i :| 0 <= i < |used| && used[i] == x;
      assert Bindings(used)[i] == x.binding;
    }
    forall b | b in Bindings(used)
      ensures exists x :: x in used && x.binding == b
    {
      var i :| 0 <= i < |used| && Bindings(used)[i] == b;
      assert used[i] in used;
    }
  }

  /**
   When a binding refuses, neither map mentions the handle and the other searches are as before. The calls that were
   made are stopped one for one if and only if no identifier that was not reached equals one that was; and every
   binding called is told to stop if and only if each has an identifier that was reached and is not met again.
   */
  lemma FailedSearchIsUndone(s: State, handler: nat, identifiers: seq<Identifier>, accepted: seq<bool>)
    requires Valid(s) && |identifiers| <= |accepted| && Successes(accepted, |identifiers|) < |identifiers|
    ensures var h, i := s.nextUid, Successes(accepted, |identifiers|);
            var s' := StartSearch(s, handler, identifiers, accepted);
            var started := Bindings(StartedOf(s'.calls, h));
            && h !in s'.callbacks && Unmentioned(s'.instances, h)
            && s'.callbacks == s.callbacks && s'.instances == s.instances
            && StartedOf(s'.calls, h) == identifiers[..i + 1]
            && (multiset(StoppedOf(s'.calls, h)) == multiset(started) <==>
                  Disjoint(identifiers[..i + 1], identifiers[i + 1..]))
            && ((forall b :: b in started ==> b in StoppedOf(s'.calls, h)) <==>
                  EveryBindingKept(identifiers[..i + 1], identifiers[i + 1..]))
  {
    var h, i := s.nextUid, Successes(accepted, |identifiers|);
    var used, unused := identifiers[..i + 1], identifiers[i + 1..];
    assert identifiers == used + unused;
    KeptIsUsedIff(used, unused);
    EveryBindingKeptIff(used, unused);
    CallsAfter(s.calls, h, used, Kept(used, unused));
  }

  predicate Distinct(identifiers: seq<Identifier>) {
    forall i, j :: 0 <= i < j < |identifiers| ==> identifiers[i] != identifiers[j]
  }

  lemma DistinctParts(identifiers: seq<Identifier>, n: nat)
    requires Distinct(identifiers) && n <= |identifiers|
    ensures Disjoint(identifiers[..n], identifiers[n..])
  {
    forall x | x in identifiers[..n]
      ensures x !in identifiers[n..]
    {
      var i :| 0 <= i < n && identifiers[i] == x;
      assert forall j :: n <= j < |identifiers| ==> identifiers[j] != x;
    }
  }

  lemma DistinctIsEnough(s: State, handler: nat, identifiers: seq<Identifier>, accepted: seq<bool>)
    requires Valid(s) && |identifiers| <= |accepted| && Successes(accepted, |identifiers|) < |identifiers|
    requires Distinct(identifiers)
    ensures var s' := StartSearch(s, handler, identifiers, accepted);
            multiset(StoppedOf(s'.calls, s.nextUid)) == multiset(Bindings(StartedOf(s'.calls, s.nextUid)))
  {
    DistinctParts(identifiers, Successes(accepted, |identifiers|) + 1);
    FailedSearchIsUndone(s, handler, identifiers, accepted);
  }

  /**
   Two equal identifiers around one that is refused, on bindings 3 and 4: binding 3 is never told to stop, and its
   search for the first goes on unnoticed.
   */
  lemma DuplicateIsNotStopped(x: Identifier, y: Identifier)
    requires x.binding == 3 && y.binding == 4
    ensures var s' := StartSearch(State(0, map[], [], []), 7, [x, y, x], [true, false, true]);
            StartedOf(s'.calls, 0) == [x, y] && StoppedOf(s'.calls, 0) == [4]
  {
    var accepted := [true, false, true];
    assert Successes(accepted[1..], 2) == 0;
    assert Kept([x, y, x], [x]) == [y] by {
      assert [x, y, x] == ([x] + [y]) + [x];
      KeptIsUsedIff([x] + [y], [x]);
      KeptAppend([x], [y], [x]);
      KeptNone([x], [x]);
      KeptMembers([y], [x]);
    }
    assert [x, y, x][2..] == [x] && [x, y, x][..2] == [x, y];
    assert Bindings([y]) == [4];
    CallsAfter([], 0, [x, y], [y]);
  }

  /** A search stopped later stops what was started, one for one. */
  lemma StoppedSearchIsUndone(s: State, handler: nat, identifiers: seq<Identifier>, accepted: seq<bool>)
    requires Valid(s) && |identifiers| <= |accepted| && Successes(accepted, |identifiers|) == |identifiers|
    ensures var h := s.nextUid;
            var s' := StopSearch(StartSearch(s, handler, identifiers, accepted), h);
            && s'.callbacks == s.callbacks && s'.instances == s.instances
            && StartedOf(s'.calls, h) == identifiers && StoppedOf(s'.calls, h) == Bindings(identifiers)
  {
    var h := s.nextUid;
    NewInstances(s.instances, h, identifiers);
    CallsAfter(s.calls, h, identifiers, identifiers);
    assert s.callbacks[h := handler] - {h} == s.callbacks;
  }

  /** The error of the last binding call that failed. */
  function LastError(errors: nat -> Option<nat>, n: nat): Option<nat> {
    if n == 0 then None else if errors(n - 1).Some? then errors(n - 1) else LastError(errors, n - 1)
  }

  lemma {:induction false} WithoutMembers(instances: seq<Instance>, h: nat)
    ensures forall e :: e in WithoutHandle(instances, h) <==> e in instances && e.handle != h
  {
    if |instances| > 0 {
      assert instances == [instances[0]] + instances[1..];
      WithoutMembers(instances[1..], h);
    }
  }

  lemma {:induction false} OfWithout(instances: seq<Instance>, h: nat, g: nat)
    ensures Of(WithoutHandle(instances, h), g) == if g == h then [] else Of(instances, g)
  {
    if |instances| > 0 {
      OfWithout(instances[1..], h, g);
      OfAppend(if instances[0].handle == h then [] else [instances[0]], WithoutHandle(instances[1..], h), g);
    }
  }

  lemma StopKeepsValid(s: State, h: nat)
    requires Valid(s)
    ensures Valid(StopSearch(s, h))
  {
    WithoutMembers(s.instances, h);
    var s' := StopSearch(s, h);
    forall i | 0 <= i < |s'.instances|
      ensures s'.instances[i].handle < s'.nextUid
    {
      assert s'.instances[i] in s'.instances;
    }
    if h >= s.nextUid {
      OfUnmentioned(s.instances, h);
    }
  }

  lemma StartKeepsValid(s: State, handler: nat, identifiers: seq<Identifier>, accepted: seq<bool>)
    requires Valid(s) && |identifiers| <= |accepted|
    ensures Valid(StartSearch(s, handler, identifiers, accepted))
  {
  }

  /** The entries of the handles seen so far are gone, and only those. */
  ghost predicate Swept(before: seq<Instance>, k: nat, after: seq<Instance>, calls: seq<Call>)
    requires k <= |before|
  {
    && (forall e :: e in after ==> e in before && forall j :: 0 <= j < k ==> before[j].handle != e.handle)
    && (forall h :: StoppedOf(calls, h) + Bindings(Of(after, h)) == Bindings(Of(before, h)))
    && (forall h :: StoppedOf(calls, h) == [] || Of(after, h) == [])
  }

  lemma SweepOne(before: seq<Instance>, k: nat, after: seq<Instance>, calls: seq<Call>)
    requires k < |before| && Swept(before, k, after, calls)
    ensures var h := before[k].handle;
            Swept(before, k + 1, WithoutHandle(after, h), calls + Stops(h, Of(after, h)))
  {
    var h := before[k].handle;
    WithoutMembers(after, h);
    forall g: nat
      ensures StoppedOf(calls + Stops(h, Of(after, h)), g) + Bindings(Of(WithoutHandle(after, h), g))
           == Bindings(Of(before, g))
      ensures StoppedOf(calls + Stops(h, Of(after, h)), g) == [] || Of(WithoutHandle(after, h), g) == []
    {
      StoppedAppend(calls, Stops(h, Of(after, h)), g);
      CallsOfStops(h, Of(after, h), g);
      OfWithout(after, h, g);
      assert StoppedOf(calls, g) + Bindings(Of(after, g)) == Bindings(Of(before, g));
    }
  }

  lemma Regroup(before: seq<Call>, made: seq<Call>, stops: seq<Call>)
    ensures (before + made) + stops == before + (made + stops)
  {
  }

  lemma SweptNone(before: seq<Instance>)
    ensures Swept(before, 0, before, [])
  {
  }

  lemma SweptAll(before: seq<Instance>, after: seq<Instance>, calls: seq<Call>)
    requires Swept(before, |before|, after, calls)
    ensures after == [] && forall h :: StoppedOf(calls, h) == Bindings(Of(before, h))
  {
    forall e | e in before
      ensures e !in after
    {
      var j :| 0 <= j < |before| && before[j] == e;
    }
    assert forall e :: e in multiset(after) ==> e in after;
    assert multiset(after) == multiset{};
    forall h: nat
      ensures StoppedOf(calls, h) == Bindings(Of(before, h))
    {
      assert StoppedOf(calls, h) + Bindings(Of(after, h)) == Bindings(Of(before, h));
    }
  }

  class ServiceDiscovery {
    var nextFreeUid: nat
    var userCallbacks: map<nat, nat>
    var handleToInstances: seq<Instance>
    var calls: seq<Call>

    ghost function View(): State
      reads this
    {
      State(nextFreeUid, userCallbacks, handleToInstances, calls)
    }

    constructor ()
      ensures Valid(View()) && View() == State(0, map[], [], [])
    {
      nextFreeUid, userCallbacks, handleToInstances, calls := 0, map[], [], [];
    }

    /** The inner loop of RemoveUnusedInstanceIdentifiers. */
    method EraseEqual(e: Instance)
      modifies this`handleToInstances
      ensures handleToInstances == Erased(old(handleToInstances), e)
    {
      var i := 0;
      while i < |handleToInstances|
        invariant i <= |handleToInstances|
        invariant handleToInstances[..i] + Erased(handleToInstances[i..], e) == Erased(old(handleToInstances), e)
        decreases |handleToInstances| - i
      {
        ghost var done, rest := handleToInstances[..i], handleToInstances[i..];
        if handleToInstances[i] == e {
          handleToInstances := handleToInstances[..i] + handleToInstances[i + 1..];
          assert handleToInstances[..i] == done && handleToInstances[i..] == rest[1..];
        } else {
          assert handleToInstances[..i + 1] == done + [rest[0]] && handleToInstances[i + 1..] == rest[1..];
          i := i + 1;
        }
      }
      assert handleToInstances[..i] == handleToInstances && handleToInstances[i..] == [];
    }

    method RemoveUnusedInstanceIdentifiers(h: nat, identifiers: seq<Identifier>, lastUsed: nat)
      requires lastUsed < |identifiers|
      modifies this`handleToInstances
      ensures handleToInstances == ErasedAll(old(handleToInstances), h, identifiers[lastUsed + 1..])
    {
      ghost var unused := identifiers[lastUsed + 1..];
      var k := lastUsed + 1;
      while k < |identifiers|
        invariant lastUsed < k <= |identifiers|
        invariant ErasedAll(handleToInstances, h, identifiers[k..]) == ErasedAll(old(handleToInstances), h, unused)
      {
        assert identifiers[k..][1..] == identifiers[k + 1..];
        EraseEqual(Instance(h, identifiers[k]));
        k := k + 1;
      }
    }

    /** The loop of StopFindService. */
    method StopOnBindings(h: nat, identifiers: seq<Identifier>, errors: nat -> Option<nat>)
      returns (error: Option<nat>)
      modifies this`calls
      ensures calls == old(calls) + Stops(h, identifiers) && error == LastError(errors, |identifiers|)
    {
      error := None;
      var k := 0;
      while k < |identifiers|
        invariant k <= |identifiers| && error == LastError(errors, k)
        invariant calls == old(calls) + Stops(h, identifiers[..k])
      {
        calls := calls + [Stopped(h, identifiers[k].binding)];
        assert Stops(h, identifiers[..k + 1]) == Stops(h, identifiers[..k]) + [Stopped(h, identifiers[k].binding)];
        if errors(k).Some? {
          error := errors(k);
        }
        k := k + 1;
      }
      assert identifiers[..k] == identifiers;
    }

    method StopFindService(h: nat, errors: nat -> Option<nat>) returns (error: Option<nat>)
      modifies this
      ensures View() == StopSearch(old(View()), h)
      ensures error == LastError(errors, |Of(old(handleToInstances), h)|)
    {
      var identifiers := Of(handleToInstances, h);
      userCallbacks := userCallbacks - {h};
      handleToInstances := WithoutHandle(handleToInstances, h);
      error := StopOnBindings(h, identifiers, errors);
    }

    method StoreInstanceIdentifiers(h: nat, identifiers: seq<Identifier>)
      modifies this`handleToInstances
      ensures handleToInstances == old(handleToInstances) + Instances(h, identifiers)
    {
      var k := 0;
      while k < |identifiers|
        invariant k <= |identifiers|
        invariant handleToInstances == old(handleToInstances) + Instances(h, identifiers[..k])
      {
        assert Instances(h, identifiers[..k + 1]) == Instances(h, identifiers[..k]) + [Instance(h, identifiers[k])];
        handleToInstances := handleToInstances + [Instance(h, identifiers[k])];
        k := k + 1;
      }
      assert identifiers[..k] == identifiers;
    }

    /** What StartFindService does when the binding of identifiers[i] refuses. */
    method UndoSearch(h: nat, identifiers: seq<Identifier>, i: nat, errors: nat -> Option<nat>)
      requires i < |identifiers|
      modifies this
      ensures View() == State(old(nextFreeUid), old(userCallbacks) - {h}, WithoutHandle(old(handleToInstances), h),
                              old(calls) + Stops(h, Kept(Of(old(handleToInstances), h), identifiers[i + 1..])))
    {
      ErasedAllMoves(handleToInstances, h, identifiers[i + 1..]);
      RemoveUnusedInstanceIdentifiers(h, identifiers, i);
      var error := StopFindService(h, errors);
    }

    /** The loop of StartFindService, up to the first refusal. */
    method StartOnBindings(h: nat, identifiers: seq<Identifier>, accepted: seq<bool>) returns (i: nat)
      requires |identifiers| <= |accepted|
      modifies this`calls
      ensures i == Successes(accepted, |identifiers|)
      ensures calls == old(calls) + Starts(h, if i < |identifiers| then identifiers[..i + 1] else identifiers)
    {
      i := 0;
      while i < |identifiers|
        invariant i <= |identifiers| && forall k :: 0 <= k < i ==> accepted[k]
        invariant calls == old(calls) + Starts(h, identifiers[..i])
      {
        calls := calls + [Started(h, identifiers[i])];
        assert Starts(h, identifiers[..i + 1]) == Starts(h, identifiers[..i]) + [Started(h, identifiers[i])];
        if !accepted[i] {
          return;
        }
        i := i + 1;
      }
      assert identifiers[..i] == identifiers;
    }

    /** The binding accepts the k-th of the searches if accepted[k]. */
    method StartFindService(handler: nat, identifiers: seq<Identifier>, accepted: seq<bool>, errors: nat -> Option<nat>)
      returns (handle: Option<nat>)
      requires Valid(View()) && |identifiers| <= |accepted|
      modifies this
      ensures View() == StartSearch(old(View()), handler, identifiers, accepted) && Valid(View())
      ensures handle == if Successes(accepted, |identifiers|) == |identifiers| then Some(old(nextFreeUid)) else None
    {
      StartKeepsValid(View(), handler, identifiers, accepted);
      var h := nextFreeUid;
      nextFreeUid := nextFreeUid + 1;
      userCallbacks := userCallbacks[h := handler];
      StoreInstanceIdentifiers(h, identifiers);
      NewInstances(old(handleToInstances), h, identifiers);
      var i := StartOnBindings(h, identifiers, accepted);
      if i < |identifiers| {
        UndoSearch(h, identifiers, i, errors);
        assert userCallbacks == old(userCallbacks);
        return None;
      }
      return Some(h);
    }

    /** The destructor: every search is stopped on every binding it was started on, once. */
    method Destroy(errors: nat -> Option<nat>)
      requires Valid(View())
      modifies this
      ensures handleToInstances == [] && old(calls) <= calls
      ensures forall h :: StoppedOf(calls[|old(calls)|..], h) == Bindings(Of(old(handleToInstances), h))
    {
      var copy := handleToInstances;
      ghost var made: seq<Call> := [];
      SweptNone(copy);
      var k := 0;
      while k < |copy|
        invariant k <= |copy|
        invariant calls == old(calls) + made
        invariant Swept(copy, k, handleToInstances, made)
      {
        SweepOne(copy, k, handleToInstances, made);
        ghost var h := copy[k].handle;
        ghost var stops := Stops(h, Of(handleToInstances, h));
        Regroup(old(calls), made, stops);
        made := made + stops;
        var error := StopFindService(copy[k].handle, errors);
        k := k + 1;
      }
      assert calls[|old(calls)|..] == made;
      SweptAll(copy, handleToInstances, made);
    }
  }

  // ----- the handler of a search

  /** A handler is owned by the map entry and by the calls to it that are running. */
  datatype Handler = Handler(stored: bool, running: nat)

  datatype HandlerStep = Notify | CallReturns | Erase

  predicate HandlerEnabled(h: Handler, step: HandlerStep) {
    step.CallReturns? ==> h.running > 0
  }

  /** A binding's notification locks the weak pointer and calls the handler if it still exists. */
  predicate Begins(h: Handler) {
    h.stored || h.running > 0
  }

  function HandlerAfter(h: Handler, step: HandlerStep): Handler
    requires HandlerEnabled(h, step)
  {
    match step
    case Notify => if Begins(h) then h.(running := h.running + 1) else h
    case CallReturns => h.(running := h.running - 1)
    case Erase => h.(stored := false)
  }

  ghost predicate HandlerRun(states: seq<Handler>, steps: seq<HandlerStep>) {
    && |states| == |steps| + 1
    && states[0] == Handler(true, 0)
    && forall i :: 0 <= i < |steps| ==>
         HandlerEnabled(states[i], steps[i]) && states[i + 1] == HandlerAfter(states[i], steps[i])
  }

  /**
   Once erased, a handler is called again if and only if a call to it has been running without interruption since:
   from the first moment at which none is, no notification begins one.
   */
  lemma {:induction false} ErasedHandlerIsCalledIff(states: seq<Handler>, steps: seq<HandlerStep>, k: nat, n: nat)
    requires HandlerRun(states, steps) && k < n <= |steps| && steps[k].Erase?
    ensures Begins(states[n]) <==> forall j :: k < j <= n ==> states[j].running > 0
    ensures !states[n].stored
  {
    if n > k + 1 {
      ErasedHandlerIsCalledIff(states, steps, k, n - 1);
      assert states[n] == HandlerAfter(states[n - 1], steps[n - 1]);
    } else {
      assert states[n] == HandlerAfter(states[k], steps[k]);
    }
  }

  /** So a notification during another call still gets through after StopFindService. */
  lemma CalledAfterErasure() returns (states: seq<Handler>, steps: seq<HandlerStep>)
    ensures HandlerRun(states, steps) && steps == [Notify, Erase, Notify]
    ensures states[3].running == states[2].running + 1
  {
    states := [Handler(true, 0), Handler(true, 1), Handler(false, 1), Handler(false, 2)];
    steps := [Notify, Erase, Notify];
  }
}
