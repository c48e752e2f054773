/**
 The lock-free count of samples a proxy event may still hand out. Any number of
 threads allocate with a compare-and-exchange loop; factories and guards carry
 the allocated samples, move them, and give them back when destroyed.
 */
module SampleTracker {
  import opened Basics

  /**
   One call of Allocate: what it still asks for, what it holds already, and the available count it saw last.
   `readAt` and `wonAt` are the steps of that read and of its latest successful exchange.
   */
  datatype Allocation = Allocation(requested: nat, remaining: nat, held: nat, observed: nat, readAt: nat,
                                   wonAt: Option<nat>, running: bool)

  /** A factory is the number of guards left in it. A guard is 1, or 0 once moved from or destroyed. */
  datatype Tracker = Tracker(max: nat, available: nat, allocations: seq<Allocation>, factories: seq<nat>,
                             guards: seq<nat>, time: nat)

  datatype Step =
    | Load(numSamples: nat)                  // Allocate is called
    | Exchange(a: nat)                       // its compare-and-exchange succeeds
    | ExchangeFails(a: nat)                  // the count has changed, or a spurious failure
    | Return(a: nat)
    | TakeGuard(f: nat)
    | MoveFactory(f: nat)
    | DestroyFactory(f: nat)
    | MoveGuard(g: nat)
    | AssignGuard(g: nat, other: nat)
    | DestroyGuard(g: nat)

  function InitialTracker(max: nat): Tracker {
    Tracker(max, max, [], [], [], 0)
  }

  predicate Looping(a: Allocation) {
    a.running && a.remaining > 0 && a.observed > 0
  }

  predicate Enabled(t: Tracker, step: Step) {
    match step
    case Load(_) => true
    case Exchange(a) =>
      a < |t.allocations| && Looping(t.allocations[a]) && t.available == t.allocations[a].observed
    case ExchangeFails(a) => a < |t.allocations| && Looping(t.allocations[a])
    case Return(a) => a < |t.allocations| && t.allocations[a].running && !Looping(t.allocations[a])
    case TakeGuard(f) => f < |t.factories| && t.factories[f] > 0
    case MoveFactory(f) => f < |t.factories|
    case DestroyFactory(f) => f < |t.factories|
    case MoveGuard(g) => g < |t.guards|
    case AssignGuard(g, other) => g < |t.guards| && other < |t.guards|
    case DestroyGuard(g) => g < |t.guards|
  }

  function Min(a: nat, b: nat): nat {
    if a < b then a else b
  }

  function Won(a: Allocation, time: nat): Allocation {
    var n := Min(a.observed, a.remaining);
    a.(remaining := a.remaining - n, held := a.held + n, wonAt := Some(time))
  }

  function Deallocate(t: Tracker, n: nat): Tracker {
    t.(available := t.available + n)
  }

  function Effect(t: Tracker, step: Step): Tracker
    requires Enabled(t, step)
  {
    match step
    case Load(n) =>
      t.(allocations := t.allocations + [Allocation(n, n, 0, t.available, t.time, None, true)])
    case Exchange(a) =>
      var allocation := t.allocations[a];
      t.(available := t.available - Min(allocation.observed, allocation.remaining),
         allocations := t.allocations[a := Won(allocation, t.time)])
    case ExchangeFails(a) =>
      t.(allocations := t.allocations[a := t.allocations[a].(observed := t.available, readAt := t.time)])
    case Return(a) =>
      t.(allocations := t.allocations[a := t.allocations[a].(running := false, held := 0)],
         factories := t.factories + [t.allocations[a].held])
    case TakeGuard(f) => t.(factories := t.factories[f := t.factories[f] - 1], guards := t.guards + [1])
    case MoveFactory(f) => t.(factories := t.factories[f := 0] + [t.factories[f]])
    case DestroyFactory(f) => Deallocate(t, t.factories[f]).(factories := t.factories[f := 0])
    case MoveGuard(g) => t.(guards := t.guards[g := 0] + [t.guards[g]])
    case AssignGuard(g, other) =>
      if g == other then t
      else Deallocate(t, t.guards[g]).(guards := t.guards[g := t.guards[other]][other := 0])
    case DestroyGuard(g) => Deallocate(t, t.guards[g]).(guards := t.guards[g := 0])
  }

  function Apply(t: Tracker, step: Step): Tracker
    requires Enabled(t, step)
  {
    Effect(t, step).(time := t.time + 1)
  }

  ghost predicate Next(t: Tracker, step: Step, t': Tracker) {
    Enabled(t, step) && t' == Apply(t, step)
  }

  ghost predicate IsRun(max: nat, states: seq<Tracker>, steps: seq<Step>) {
    && |states| == |steps| + 1
    && states[0] == InitialTracker(max)
    && forall i :: 0 <= i < |steps| ==> Next(states[i], steps[i], states[i + 1])
  }

  // ----- conservation

  function Sum(s: seq<nat>): nat {
    if |s| == 0 then 0 else Sum(s[..|s| - 1]) + s[|s| - 1]
  }

  function Held(allocations: seq<Allocation>): nat {
    if |allocations| == 0 then 0 else Held(allocations[..|allocations| - 1]) + allocations[|allocations| - 1].held
  }

  lemma SumAppend(s: seq<nat>, x: nat)
    ensures Sum(s + [x]) == Sum(s) + x
  {
    assert (s + [x])[..|s|] == s;
  }

  lemma {:induction false} SumUpdate(s: seq<nat>, i: nat, x: nat)
    requires i < |s|
    ensures Sum(s[i := x]) == Sum(s) - s[i] + x && s[i] <= Sum(s)
  {
    var n := |s| - 1;
    if i == n {
      assert s[i := x][..n] == s[..n];
    } else {
      assert s[i := x][..n] == s[..n][i := x];
      SumUpdate(s[..n], i, x);
    }
  }

  lemma HeldAppend(s: seq<Allocation>, a: Allocation)
    ensures Held(s + [a]) == Held(s) + a.held
  {
    assert (s + [a])[..|s|] == s;
  }

  lemma {:induction false} HeldUpdate(s: seq<Allocation>, i: nat, a: Allocation)
    requires i < |s|
    ensures Held(s[i := a]) == Held(s) - s[i].held + a.held && s[i].held <= Held(s)
  {
    var n := |s| - 1;
    if i == n {
      assert s[i := a][..n] == s[..n];
    } else {
      assert s[i := a][..n] == s[..n][i := a];
      HeldUpdate(s[..n], i, a);
    }
  }

  ghost predicate Conserved(t: Tracker) {
    t.available + Sum(t.factories) + Sum(t.guards) + Held(t.allocations) == t.max
  }

  lemma EffectConserves(t: Tracker, step: Step)
    requires Enabled(t, step)
    ensures Conserved(t) ==> Conserved(Effect(t, step))
  {
    match step
    case Load(n) => HeldAppend(t.allocations, Allocation(n, n, 0, t.available, t.time, None, true));
    case Exchange(a) => HeldUpdate(t.allocations, a, Won(t.allocations[a], t.time));
    case ExchangeFails(a) =>
      HeldUpdate(t.allocations, a, t.allocations[a].(observed := t.available, readAt := t.time));
    case Return(a) =>
      HeldUpdate(t.allocations, a, t.allocations[a].(running := false, held := 0));
      SumAppend(t.factories, t.allocations[a].held);
    case TakeGuard(f) =>
      SumUpdate(t.factories, f, t.factories[f] - 1);
      SumAppend(t.guards, 1);
    case MoveFactory(f) =>
      SumUpdate(t.factories, f, 0);
      SumAppend(t.factories[f := 0], t.factories[f]);
    case DestroyFactory(f) => SumUpdate(t.factories, f, 0);
    case MoveGuard(g) =>
      SumUpdate(t.guards, g, 0);
      SumAppend(t.guards[g := 0], t.guards[g]);
    case AssignGuard(g, other) =>
      if g != other {
        SumUpdate(t.guards, g, t.guards[other]);
        SumUpdate(t.guards[g := t.guards[other]], other, 0);
      }
    case DestroyGuard(g) => SumUpdate(t.guards, g, 0);
  }

  lemma {:induction false} RunConserves(max: nat, states: seq<Tracker>, steps: seq<Step>, n: nat)
    requires IsRun(max, states, steps) && n <= |steps|
    ensures Conserved(states[n]) && states[n].max == max && states[n].time == n
  {
    if n > 0 {
      RunConserves(max, states, steps, n - 1);
      assert Next(states[n - 1], steps[n - 1], states[n - 1 + 1]);
      EffectConserves(states[n - 1], steps[n - 1]);
    }
  }

  /**
   Whatever the threads do, every sample is available, or held by a running Allocate, or in a factory, or in a guard;
   so the count never exceeds its maximum, as Deallocate asserts after giving samples back.
   */
  lemma SamplesAreConserved(max: nat, states: seq<Tracker>, steps: seq<Step>, n: nat)
    requires IsRun(max, states, steps) && n <= |steps|
    ensures var t := states[n];
            && t.available + Sum(t.factories) + Sum(t.guards) + Held(t.allocations) == max
            && t.available <= max
  {
    RunConserves(max, states, steps, n);
  }

  // ----- what Allocate returns

  /** The count an allocation goes by was the true one when it was read, and a zero was read after its last success. */
  ghost predicate Informed(a: Allocation, states: seq<Tracker>, n: nat)
    requires n < |states|
  {
    a.running ==>
      && a.requested == a.remaining + a.held
      && a.readAt < n && states[a.readAt].available == a.observed
      && (a.wonAt.Some? ==> a.wonAt.value < n)
      && (a.observed == 0 && a.wonAt.Some? ==> a.wonAt.value < a.readAt)
  }

  ghost predicate AllInformed(allocations: seq<Allocation>, states: seq<Tracker>, n: nat)
    requires n < |states|
  {
    forall k :: 0 <= k < |allocations| ==> Informed(allocations[k], states, n)
  }

  lemma {:induction false} RunInforms(max: nat, states: seq<Tracker>, steps: seq<Step>, n: nat)
    requires IsRun(max, states, steps) && n <= |steps|
    ensures AllInformed(states[n].allocations, states, n)
  {
    if n > 0 {
      var t := states[n - 1];
      RunInforms(max, states, steps, n - 1);
      RunConserves(max, states, steps, n - 1);
      assert Next(t, steps[n - 1], states[n - 1 + 1]);
      forall k | 0 <= k < |states[n].allocations|
        ensures Informed(states[n].allocations[k], states, n)
      {
        if k < |t.allocations| {
          assert Informed(t.allocations[k], states, n - 1);
        }
      }
    }
  }

  /** Allocate returns all it was asked for, or none were available at some moment after its last success. */
  lemma ReturnsAllOrSawNone(max: nat, states: seq<Tracker>, steps: seq<Step>, n: nat, a: nat)
    requires IsRun(max, states, steps) && n <= |steps| && Enabled(states[n], Return(a))
    ensures var allocation := states[n].allocations[a];
            && allocation.held <= allocation.requested
            && (allocation.held < allocation.requested ==>
                  exists k :: 0 <= k < n && states[k].available == 0 &&
                    (allocation.wonAt.Some? ==> allocation.wonAt.value < k))
  {
    RunInforms(max, states, steps, n);
    assert Informed(states[n].allocations[a], states, n);
  }

  /** After a success the loop goes round again exactly when more was asked for than was available. */
  lemma SuccessLoopsAgainIff(a: Allocation, time: nat)
    requires Looping(a)
    ensures Looping(Won(a, time)) <==> a.remaining > a.observed
  {
  }

  // ----- the objects

  datatype Interference = Interference(available: nat, spurious: bool)

  class SampleReferenceTracker {
    var available: nat
    var max: nat

    constructor (maxNumSamples: nat)
      ensures available == max == maxNumSamples
    {
      available, max := maxNumSamples, maxNumSamples;
    }

    method Reset(maxNumSamples: nat)
      modifies this
      ensures available == max == maxNumSamples
    {
      available, max := maxNumSamples, maxNumSamples;
    }

    /** The assertion after the addition is the last requirement. */
    method Give(n: nat)
      requires available + n <= max
      modifies this`available
      ensures available == old(available) + n
    {
      available := available + n;
      assert available <= max;
    }

    /**
     Before the k-th exchange other threads leave script[k] samples available, and the exchange may fail spuriously;
     after that there is no interference. `seen` are the counts read, `others` is what the other threads gave back
     less what they took.
     */
    method Allocate(numSamples: nat, script: seq<Interference>)
      returns (taken: nat, ghost seen: seq<nat>, ghost others: int)
      modifies this`available
      ensures available + taken == old(available) + others && (script == [] ==> others == 0)
      ensures taken <= numSamples
      ensures taken < numSamples ==> |seen| > 0 && seen[|seen| - 1] == 0
      ensures script == [] ==> taken == Min(numSamples, old(available)) && available == old(available) - taken
    {
      taken, seen, others := 0, [available], 0;
      var remaining, observed, k := numSamples, available, 0;
      while remaining > 0 && observed > 0
        invariant taken + remaining == numSamples
        invariant available + taken == old(available) + others && (script == [] ==> others == 0)
        invariant |seen| > 0 && seen[|seen| - 1] == observed
        invariant script == [] && remaining > 0 && available != observed ==> available == 0
        decreases |script| - k, remaining, if available == observed then 0 else 1
      {
        var wanted := Min(observed, remaining);
        var spurious := false;
        if k < |script| {
          others := others + script[k].available - available;
          available, spurious := script[k].available, script[k].spurious;
          k := k + 1;
        }
        if available == observed && !spurious {
          available := available - wanted;
          taken := taken + wanted;
          remaining := remaining - wanted;
        } else {
          observed := available;
          seen := seen + [observed];
        }
      }
    }
  }

  class SampleReferenceGuard {
    var tracker: SampleReferenceTracker?

    constructor (tracker: SampleReferenceTracker)
      ensures this.tracker == tracker
    {
      this.tracker := tracker;
    }

    constructor Move(other: SampleReferenceGuard)
      modifies other
      ensures tracker == old(other.tracker) && other.tracker == null
    {
      tracker := other.tracker;
      new;
      other.tracker := null;
    }

    /** Gives its own sample back first, and does nothing when assigned to itself. */
    method Assign(other: SampleReferenceGuard)
      requires tracker != null ==> tracker.available < tracker.max
      modifies this, other, tracker
      ensures this == other ==> unchanged(this) && (tracker != null ==> unchanged(tracker))
      ensures this != other ==>
                && tracker == old(other.tracker) && other.tracker == null
                && (old(tracker) != null ==> old(tracker).available == old(tracker.available) + 1)
    {
      if this != other {
        if tracker != null {
          Deallocate();
        }
        tracker := other.tracker;
        other.tracker := null;
      }
    }

    /** Also what the destructor does. */
    method Deallocate()
      requires tracker != null ==> tracker.available < tracker.max
      modifies this, tracker
      ensures tracker == null
      ensures old(tracker) != null ==> old(tracker).available == old(tracker.available) + 1
    {
      if tracker != null {
        tracker.Give(1);
        tracker := null;
      }
    }
  }

  class TrackerGuardFactory {
    const tracker: SampleReferenceTracker
    var numAvailableGuards: nat

    constructor (tracker: SampleReferenceTracker, numAvailableGuards: nat)
      ensures this.tracker == tracker && this.numAvailableGuards == numAvailableGuards
    {
      this.tracker, this.numAvailableGuards := tracker, numAvailableGuards;
    }

    constructor Move(other: TrackerGuardFactory)
      modifies other
      ensures tracker == other.tracker
      ensures numAvailableGuards == old(other.numAvailableGuards) && other.numAvailableGuards == 0
    {
      tracker, numAvailableGuards := other.tracker, other.numAvailableGuards;
      new;
      other.numAvailableGuards := 0;
    }

    method TakeGuard() returns (guard: Option<SampleReferenceGuard>)
      modifies this
      ensures guard.Some? <==> old(numAvailableGuards) > 0
      ensures guard.Some? ==> guard.value.tracker == tracker && fresh(guard.value)
      ensures numAvailableGuards + (if guard.Some? then 1 else 0) == old(numAvailableGuards)
    {
      if numAvailableGuards > 0 {
        numAvailableGuards := numAvailableGuards - 1;
        var g := new SampleReferenceGuard(tracker);
        return Some(g);
      }
      return None;
    }

    method Destroy()
      requires tracker.available + numAvailableGuards <= tracker.max
      modifies tracker
      ensures tracker.available == old(tracker.available) + numAvailableGuards && tracker.max == old(tracker.max)
    {
      if numAvailableGuards > 0 {
        tracker.Give(numAvailableGuards);
      }
    }
  }
}
