/**
 The queue of immediate and delayed commands that an engine works through. The
 list kept in order is proved against a bag of commands from which the earliest
 one is taken, ties in the order of registration.
 */
module TimedQueue {
  import opened Basics

  /** Time points count from the epoch of the clock; TimePoint{} is 0. `stamp` numbers the registrations. */
  datatype Entry = Entry(command: nat, until: int, owner: Option<nat>, stamp: nat)

  /** What a command's callback, or another thread meanwhile, does to the queue. */
  datatype Action =
    | Register(command: nat, until: int, owner: Option<nat>)
    | CleanUp(owner: Option<nat>)

  predicate Before(a: Entry, b: Entry) {
    a.until < b.until || (a.until == b.until && a.stamp < b.stamp)
  }

  // ----- the specification: a bag of commands

  datatype Pending = Pending(bag: set<Entry>, next: nat)

  ghost predicate Stamped(p: Pending) {
    && (forall e :: e in p.bag ==> e.stamp < p.next)
    && (forall e, f :: e in p.bag && f in p.bag && e.stamp == f.stamp ==> e == f)
  }

  function Act(p: Pending, action: Action): Pending {
    match action
    case Register(command, until, owner) =>
      Pending(p.bag + {Entry(command, until, owner, p.next)}, p.next + 1)
    case CleanUp(owner) => p.(bag := set e | e in p.bag && e.owner != owner)
  }

  lemma RegisterKeepsStamped(p: Pending, command: nat, until: int, owner: Option<nat>)
    requires Stamped(p)
    ensures Stamped(Act(p, Register(command, until, owner)))
  {
  }

  function ActAll(p: Pending, actions: seq<Action>): Pending
    decreases |actions|
  {
    if |actions| == 0 then p else ActAll(Act(p, actions[0]), actions[1..])
  }

  ghost predicate Earliest(e: Entry, bag: set<Entry>) {
    e in bag && forall f :: f in bag && f != e ==> Before(e, f)
  }

  function At(script: seq<seq<Action>>, k: nat): seq<Action> {
    if k < |script| then script[k] else []
  }

  /** What is pending once the commands in `ran` have been taken and executed, the k-th along with script[k]. */
  function AfterRun(p: Pending, script: seq<seq<Action>>, ran: seq<Entry>): Pending
    decreases |ran|
  {
    if |ran| == 0 then p
    else
      var n := |ran| - 1;
      var q := AfterRun(p, script, ran[..n]);
      ActAll(q.(bag := q.bag - {ran[n]}), At(script, n))
  }

  /** The k-th command taken was due, and the earliest of those pending at that point. */
  ghost predicate TakesAt(p: Pending, now: int, script: seq<seq<Action>>, ran: seq<Entry>, k: nat)
    requires k < |ran|
  {
    Earliest(ran[k], AfterRun(p, script, ran[..k]).bag) && ran[k].until <= now
  }

  ghost predicate Takes(p: Pending, now: int, script: seq<seq<Action>>, ran: seq<Entry>) {
    forall k :: 0 <= k < |ran| ==> TakesAt(p, now, script, ran, k)
  }

  /** Processing up to `now`: the earliest command is taken and executed as long as one is due. */
  ghost predicate Executes(p: Pending, now: int, script: seq<seq<Action>>, ran: seq<Entry>, p': Pending) {
    && Takes(p, now, script, ran)
    && p' == AfterRun(p, script, ran)
    && forall e :: e in p'.bag ==> e.until > now
  }

  /** When to come back: the time of the earliest command left, or TimePoint{}. */
  ghost predicate WakesUp(p: Pending, wakeUp: int) {
    if p.bag == {} then wakeUp == 0 else exists e :: Earliest(e, p.bag) && wakeUp == e.until
  }

  // ----- the ordered list

  predicate Ordered(entries: seq<Entry>) {
    forall i, j :: 0 <= i < j < |entries| ==> Before(entries[i], entries[j])
  }

  function Bag(entries: seq<Entry>): set<Entry> {
    set e | e in entries
  }

  predicate Later(entries: seq<Entry>, next: nat) {
    forall e :: e in entries ==> e.stamp < next
  }

  /** Insertion before the first later entry. */
  lemma InsertKeepsOrder(entries: seq<Entry>, i: nat, e: Entry)
    requires Ordered(entries) && i <= |entries| && Later(entries, e.stamp)
    requires forall k :: 0 <= k < i ==> entries[k].until <= e.until
    requires i < |entries| ==> e.until < entries[i].until
    ensures var entries' := entries[..i] + [e] + entries[i..];
            Ordered(entries') && Bag(entries') == Bag(entries) + {e} && Later(entries', e.stamp + 1)
  {
    var entries' := entries[..i] + [e] + entries[i..];
    forall j | i <= j < |entries|
      ensures Before(e, entries[j])
    {
      assert i == j || Before(entries[i], entries[j]);
    }
    assert entries == entries[..i] + entries[i..];
  }

  function Without(entries: seq<Entry>, owner: Option<nat>): seq<Entry> {
    if |entries| == 0 then []
    else if entries[0].owner == owner then Without(entries[1..], owner)
    else [entries[0]] + Without(entries[1..], owner)
  }

  lemma {:induction false} WithoutMembers(entries: seq<Entry>, owner: Option<nat>)
    ensures forall e :: e in Without(entries, owner) <==> e in entries && e.owner != owner
  {
    if |entries| > 0 {
      WithoutMembers(entries[1..], owner);
      assert entries == [entries[0]] + entries[1..];
    }
  }

  lemma {:induction false} WithoutKeepsOrder(entries: seq<Entry>, owner: Option<nat>)
    requires Ordered(entries)
    ensures Ordered(Without(entries, owner))
  {
    if |entries| > 0 {
      WithoutKeepsOrder(entries[1..], owner);
      WithoutMembers(entries[1..], owner);
      forall e | e in entries[1..]
        ensures Before(entries[0], e)
      {
        var i :| 0 <= i < |entries[1..]| && entries[1..][i] == e;
        assert entries[i + 1] == e;
      }
    }
  }

  /** The first entry of an ordered list is the earliest of its bag. */
  lemma FirstIsEarliest(entries: seq<Entry>)
    requires Ordered(entries) && |entries| > 0
    ensures Earliest(entries[0], Bag(entries)) && entries[0] !in entries[1..]
    ensures Bag(entries[1..]) == Bag(entries) - {entries[0]}
  {
    assert entries == [entries[0]] + entries[1..];
    forall f | f in entries[1..]
      ensures Before(entries[0], f)
    {
      var i :| 0 <= i < |entries[1..]| && entries[1..][i] == f;
      assert entries[i + 1] == f;
    }
  }

  lemma AfterOneMore(p: Pending, script: seq<seq<Action>>, ran: seq<Entry>, e: Entry)
    ensures var q := AfterRun(p, script, ran);
            AfterRun(p, script, ran + [e]) == ActAll(q.(bag := q.bag - {e}), At(script, |ran|))
  {
    assert (ran + [e])[..|ran|] == ran;
  }

  lemma TakesOne(p: Pending, now: int, script: seq<seq<Action>>, ran: seq<Entry>, e: Entry)
    requires Takes(p, now, script, ran)
    requires Earliest(e, AfterRun(p, script, ran).bag) && e.until <= now
    ensures Takes(p, now, script, ran + [e])
  {
    var ran' := ran + [e];
    assert ran'[..|ran|] == ran;
    forall k | 0 <= k < |ran'|
      ensures TakesAt(p, now, script, ran', k)
    {
      if k < |ran| {
        assert ran'[..k] == ran[..k];
        assert TakesAt(p, now, script, ran, k);
      }
    }
  }

  // ----- what an execution is

  lemma EarliestIsUnique(a: Entry, b: Entry, bag: set<Entry>)
    requires Earliest(a, bag) && Earliest(b, bag)
    ensures a == b
  {
  }

  lemma NextIsUnique(p: Pending, now: int, script: seq<seq<Action>>, a: seq<Entry>, b: seq<Entry>, k: nat)
    requires Takes(p, now, script, a) && Takes(p, now, script, b)
    requires k < |a| && k < |b| && a[..k] == b[..k]
    ensures a[k] == b[k]
  {
    assert TakesAt(p, now, script, a, k) && TakesAt(p, now, script, b, k);
    EarliestIsUnique(a[k], b[k], AfterRun(p, script, a[..k]).bag);
  }

  /** Which commands run, in which order, and what is left depends on nothing but the bag and the script. */
  lemma {:induction false} SameStart(p: Pending, now: int, script: seq<seq<Action>>, a: seq<Entry>, b: seq<Entry>,
                                     k: nat)
    requires Takes(p, now, script, a) && Takes(p, now, script, b) && k <= |a| && k <= |b|
    ensures a[..k] == b[..k]
  {
    if k > 0 {
      SameStart(p, now, script, a, b, k - 1);
      NextIsUnique(p, now, script, a, b, k - 1);
      assert a[..k] == a[..k - 1] + [a[k - 1]] && b[..k] == b[..k - 1] + [b[k - 1]];
    }
  }

  /** A finished execution cannot be a proper beginning of another. */
  lemma NotShorter(p: Pending, now: int, script: seq<seq<Action>>, a: seq<Entry>, p1: Pending, b: seq<Entry>)
    requires Executes(p, now, script, a, p1) && Takes(p, now, script, b)
    ensures |b| <= |a|
  {
    if |a| < |b| {
      var k := |a|;
      assert a[..k] == a;
      assert TakesAt(p, now, script, b, k);
      SameStart(p, now, script, a, b, k);
    }
  }

  lemma ExecutionIsDetermined(p: Pending, now: int, script: seq<seq<Action>>,
                              a: seq<Entry>, p1: Pending, b: seq<Entry>, p2: Pending)
    requires Executes(p, now, script, a, p1) && Executes(p, now, script, b, p2)
    ensures a == b && p1 == p2
  {
    NotShorter(p, now, script, a, p1, b);
    NotShorter(p, now, script, b, p2, a);
    SameStart(p, now, script, a, b, |a|);
    assert a[..|a|] == a && b[..|a|] == b;
  }

  lemma {:induction false} ActAllKeepsStamps(p: Pending, actions: seq<Action>, e: Entry)
    requires Stamped(p)
    ensures Stamped(ActAll(p, actions)) && p.next <= ActAll(p, actions).next
    ensures e in ActAll(p, actions).bag && e.stamp < p.next ==> e in p.bag
    ensures e in p.bag && CleanUp(e.owner) !in actions ==> e in ActAll(p, actions).bag
    decreases |actions|
  {
    if |actions| > 0 {
      ActAllKeepsStamps(Act(p, actions[0]), actions[1..], e);
      assert actions == [actions[0]] + actions[1..];
    }
  }

  lemma {:induction false} RunIsStamped(p: Pending, script: seq<seq<Action>>, ran: seq<Entry>)
    requires Stamped(p)
    ensures Stamped(AfterRun(p, script, ran))
    decreases |ran|
  {
    if |ran| > 0 {
      var n := |ran| - 1;
      RunIsStamped(p, script, ran[..n]);
      var q := AfterRun(p, script, ran[..n]);
      ActAllKeepsStamps(q.(bag := q.bag - {ran[n]}), At(script, n), ran[n]);
    }
  }

  /** What is gone from the queue, or has been executed, does not come back. */
  lemma {:induction false} RunKeepsStamps(p: Pending, script: seq<seq<Action>>, ran: seq<Entry>, k: nat, e: Entry)
    requires Stamped(p) && k <= |ran|
    ensures var q, q' := AfterRun(p, script, ran[..k]), AfterRun(p, script, ran);
            q.next <= q'.next && (e in q'.bag && e.stamp < q.next ==> e in q.bag && e !in ran[k..])
    decreases |ran|
  {
    if k == |ran| {
      assert ran[..k] == ran;
    } else {
      var n := |ran| - 1;
      RunKeepsStamps(p, script, ran[..n], k, e);
      RunIsStamped(p, script, ran[..n]);
      assert ran[..n][..k] == ran[..k];
      var q := AfterRun(p, script, ran[..n]);
      ActAllKeepsStamps(q.(bag := q.bag - {ran[n]}), At(script, n), e);
      assert ran[k..] == ran[..n][k..] + [ran[n]];
    }
  }

  /** What is executed was registered, and is pending no more from there on. */
  lemma GoneOnceExecuted(p: Pending, now: int, script: seq<seq<Action>>, ran: seq<Entry>, i: nat)
    requires Stamped(p) && Takes(p, now, script, ran) && i < |ran|
    ensures ran[i] !in AfterRun(p, script, ran).bag
  {
    var e := ran[i];
    RunIsStamped(p, script, ran[..i]);
    assert TakesAt(p, now, script, ran, i);
    assert ran[i..][0] == e;
    RunKeepsStamps(p, script, ran, i, e);
  }

  lemma TakesPrefix(p: Pending, now: int, script: seq<seq<Action>>, ran: seq<Entry>, n: nat)
    requires Takes(p, now, script, ran) && n <= |ran|
    ensures Takes(p, now, script, ran[..n])
  {
    forall k | 0 <= k < n
      ensures TakesAt(p, now, script, ran[..n], k)
    {
      assert ran[..n][..k] == ran[..k];
      assert TakesAt(p, now, script, ran, k);
    }
  }

  /** No registration is executed twice, and none that was executed is still pending. */
  lemma ExecutedOnce(p: Pending, now: int, script: seq<seq<Action>>, ran: seq<Entry>, p': Pending, i: nat, j: nat)
    requires Stamped(p) && Executes(p, now, script, ran, p') && i < j <= |ran|
    ensures ran[i] !in p'.bag
    ensures j < |ran| ==> ran[i] != ran[j]
  {
    GoneOnceExecuted(p, now, script, ran, i);
    TakesPrefix(p, now, script, ran, j);
    GoneOnceExecuted(p, now, script, ran[..j], i);
    if j < |ran| {
      assert TakesAt(p, now, script, ran, j);
    }
  }

  /** What is pending at some point is executed from there on, or cleaned up for its owner, or still pending. */
  lemma {:induction false} NothingIsLost(p: Pending, script: seq<seq<Action>>, ran: seq<Entry>, k: nat, e: Entry)
    requires Stamped(p) && k <= |ran| && e in AfterRun(p, script, ran[..k]).bag
    ensures || e in ran[k..] || e in AfterRun(p, script, ran).bag
            || exists j :: k <= j < |ran| && CleanUp(e.owner) in At(script, j)
    decreases |ran|
  {
    if k == |ran| {
      assert ran[..k] == ran;
    } else {
      var n := |ran| - 1;
      assert ran[..n][..k] == ran[..k] && ran[k..] == ran[..n][k..] + [ran[n]];
      NothingIsLost(p, script, ran[..n], k, e);
      var q := AfterRun(p, script, ran[..n]);
      RunIsStamped(p, script, ran[..n]);
      ActAllKeepsStamps(q.(bag := q.bag - {ran[n]}), At(script, n), e);
    }
  }

  // ----- an execution that registers nothing

  lemma {:induction false} UndisturbedLeaves(p: Pending, ran: seq<Entry>)
    ensures AfterRun(p, [], ran) == p.(bag := p.bag - Bag(ran))
    decreases |ran|
  {
    if |ran| > 0 {
      var n := |ran| - 1;
      UndisturbedLeaves(p, ran[..n]);
      assert ran == ran[..n] + [ran[n]];
      assert Bag(ran) == Bag(ran[..n]) + {ran[n]};
    } else {
      assert p.bag - Bag(ran) == p.bag;
    }
  }

  lemma UndisturbedOrder(p: Pending, now: int, ran: seq<Entry>, i: nat, j: nat)
    requires Takes(p, now, [], ran) && i < j < |ran|
    ensures Before(ran[i], ran[j])
  {
    UndisturbedLeaves(p, ran[..i]);
    UndisturbedLeaves(p, ran[..j]);
    assert ran[..j][i] == ran[i] && ran[..i] == ran[..j][..i];
    assert TakesAt(p, now, [], ran, i) && TakesAt(p, now, [], ran, j);
    assert Earliest(ran[i], p.bag - Bag(ran[..i]));
    assert Earliest(ran[j], p.bag - Bag(ran[..j]));
  }

  /** Left alone, processing executes exactly what is due, in order, and leaves the rest. */
  lemma DueInOrder(p: Pending, now: int, ran: seq<Entry>, p': Pending)
    requires Executes(p, now, [], ran, p')
    ensures Ordered(ran) && Bag(ran) == (set e | e in p.bag && e.until <= now)
    ensures p' == p.(bag := set e | e in p.bag && e.until > now)
  {
    UndisturbedLeaves(p, ran);
    forall i, j | 0 <= i < j < |ran|
      ensures Before(ran[i], ran[j])
    {
      UndisturbedOrder(p, now, ran, i, j);
    }
    forall e | e in ran
      ensures e in p.bag && e.until <= now
    {
      var k :| 0 <= k < |ran| && ran[k] == e;
      assert TakesAt(p, now, [], ran, k);
      UndisturbedLeaves(p, ran[..k]);
    }
    assert Bag(ran) == set e | e in p.bag && e.until <= now;
  }

  // ----- where the code and its documentation part

  /** A null owner removes the entries registered without one; the documentation says it removes nothing. */
  lemma NullOwnerRemovesNothingIff(entries: seq<Entry>)
    ensures Without(entries, None) == entries <==> forall e :: e in entries ==> e.owner.Some?
  {
    WithoutMembers(entries, None);
    if forall e :: e in entries ==> e.owner.Some? {
      NothingToRemove(entries, None);
    }
  }

  /** That ProcessQueue up to `now` returns TimePoint{} exactly when it leaves the queue empty. */
  ghost predicate TellsEmpty(now: int) {
    forall p: Pending, script, ran, p', wakeUp | Executes(p, now, script, ran, p') && WakesUp(p', wakeUp) ::
      p'.bag == {} <==> wakeUp == 0
  }

  lemma TellsEmptyIff(now: int)
    ensures TellsEmpty(now) <==> now >= 0
  {
    if now < 0 {
      var p := Pending({Entry(0, 0, None, 0)}, 1);
      assert Earliest(Entry(0, 0, None, 0), p.bag);
      assert Executes(p, now, [], [], p) && WakesUp(p, 0);
    }
  }

  lemma {:induction false} NothingToRemove(entries: seq<Entry>, owner: Option<nat>)
    requires forall e :: e in entries ==> e.owner != owner
    ensures Without(entries, owner) == entries
  {
    if |entries| > 0 {
      assert entries == [entries[0]] + entries[1..];
      NothingToRemove(entries[1..], owner);
    }
  }

  class TimedCommandQueue {
    var queue: seq<Entry>
    var next: nat

    ghost predicate Valid()
      reads this
    {
      Ordered(queue) && Later(queue, next) && Stamped(Contents())
    }

    ghost function Contents(): Pending
      reads this
    {
      Pending(Bag(queue), next)
    }

    constructor ()
      ensures Valid() && Contents() == Pending({}, 0)
    {
      queue, next := [], 0;
    }

    method RegisterTimedEntry(command: nat, until: int, owner: Option<nat>)
      requires Valid()
      modifies this
      ensures Valid() && Contents() == Act(old(Contents()), Register(command, until, owner))
    {
      var i := 0;
      while i < |queue| && queue[i].until <= until
        invariant i <= |queue|
        invariant forall k :: 0 <= k < i ==> queue[k].until <= until
      {
        i := i + 1;
      }
      var e := Entry(command, until, owner, next);
      InsertKeepsOrder(queue, i, e);
      RegisterKeepsStamped(Contents(), command, until, owner);
      queue := queue[..i] + [e] + queue[i..];
      next := next + 1;
    }

    method RegisterImmediateEntry(command: nat, owner: Option<nat>)
      requires Valid()
      modifies this
      ensures Valid() && Contents() == Act(old(Contents()), Register(command, 0, owner))
    {
      RegisterTimedEntry(command, 0, owner);
    }

    method RemoveOwned(owner: Option<nat>)
      modifies this`queue
      ensures queue == Without(old(queue), owner)
    {
      var i := 0;
      while i < |queue|
        invariant i <= |queue|
        invariant queue[..i] + Without(queue[i..], owner) == Without(old(queue), owner)
        decreases |queue| - i
      {
        ghost var done, rest := queue[..i], queue[i..];
        if queue[i].owner == owner {
          queue := queue[..i] + queue[i + 1..];
          assert queue[..i] == done && queue[i..] == rest[1..];
        } else {
          assert queue[..i + 1] == done + [rest[0]] && queue[i + 1..] == rest[1..];
          i := i + 1;
        }
      }
      assert queue[..i] == queue && queue[i..] == [];
    }

    /** What is left keeps its order; nothing is executed. */
    method CleanUpOwner(owner: Option<nat>)
      requires Valid()
      modifies this`queue
      ensures Valid() && Contents() == Act(old(Contents()), CleanUp(owner))
      ensures queue == Without(old(queue), owner)
    {
      WithoutMembers(queue, owner);
      WithoutKeepsOrder(queue, owner);
      RemoveOwned(owner);
      assert Contents() == Act(old(Contents()), CleanUp(owner));
    }

    method Perform(actions: seq<Action>)
      requires Valid()
      modifies this
      ensures Valid() && Contents() == ActAll(old(Contents()), actions)
      ensures |actions| == 0 ==> queue == old(queue)
    {
      var i := 0;
      while i < |actions|
        invariant i <= |actions| && Valid()
        invariant ActAll(Contents(), actions[i..]) == ActAll(old(Contents()), actions)
        invariant i == 0 ==> queue == old(queue)
      {
        assert actions[i..][1..] == actions[i + 1..];
        match actions[i] {
          case Register(command, until, owner) => RegisterTimedEntry(command, until, owner);
          case CleanUp(owner) => CleanUpOwner(owner);
        }
        i := i + 1;
      }
    }

    /** The k-th executed callback, and whatever else happens while the mutex is released for it, is script[k]. */
    method ProcessQueue(now: int, script: seq<seq<Action>>) returns (wakeUp: int, ghost ran: seq<Entry>)
      requires Valid()
      modifies this
      ensures Valid() && Executes(old(Contents()), now, script, ran, Contents())
      ensures WakesUp(Contents(), wakeUp) && (queue != [] ==> wakeUp > now)
    {
      ran := [];
      var k := 0;
      while |queue| > 0
        invariant Valid() && k == |ran|
        invariant Takes(old(Contents()), now, script, ran)
        invariant Contents() == AfterRun(old(Contents()), script, ran)
        decreases if k < |script| then |script| - k else 0, |queue|
      {
        var entry := queue[0];
        FirstIsEarliest(queue);
        if entry.until > now {
          return entry.until, ran;
        }
        TakesOne(old(Contents()), now, script, ran, entry);
        AfterOneMore(old(Contents()), script, ran, entry);
        queue := queue[1..];
        ran := ran + [entry];
        Perform(At(script, k));
        k := k + 1;
      }
      return 0, ran;
    }
  }
}
