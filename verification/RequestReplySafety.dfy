/**
 What is to hold of a connection in every state, and the condition on single
 steps under which it does: a step that does not meet it breaks it at once.
 */
module RequestReplySafety {
  import opened Basics
  import opened ClientSections
  import opened RequestReply
  import opened RequestReplyInvariant
  import opened RequestReplyCalls
  import opened RequestReplyEngine
  import Srv = ServerSections

  // ----- what is to hold

  /** The slot holds the callback of the request that is under way, and the queue waits for its reply. */
  ghost predicate Answers(t: nat, slot: Option<Callback>, silent: set<nat>, wire: seq<ToServer>, handler: seq<nat>,
                          sendQueue: seq<Srv.Item>, engine: Frame)
  {
    && AllAre(Requests(wire), t) && AllAre(handler, t) && AllAre(Srv.Replies(sendQueue), t)
    && (engine.GotReply? ==> engine.ticket == t)
    && slot == Some(if t in silent then NoCallback else OnReply(t))
    && !TransmitsFromQueue(engine)
  }

  ghost predicate OneOutstanding(slot: Option<Callback>, silent: set<nat>, wire: seq<ToServer>, handler: seq<nat>,
                                 sendQueue: seq<Srv.Item>, engine: Frame)
  {
    var n := Outstanding(wire, handler, sendQueue, engine);
    n == 0 || (n == 1 && exists t :: Answers(t, slot, silent, wire, handler, sendQueue, engine))
  }

  /** A call in its sections that will empty the slot or leave it to the server. */
  ghost predicate SenderHolds(slot: Option<Callback>, threads: map<nat, Pc>) {
    exists tid :: tid in threads && IsSender(threads[tid]) && slot == Some(OnReply(TicketOf(threads[tid]).value))
  }

  /** Queued messages wait for an occupied slot, and an occupied slot for somebody who will empty it. */
  ghost predicate Awake(queue: seq<Entry>, slot: Option<Callback>, armed: bool, threads: map<nat, Pc>, engine: Frame,
                        outstanding: nat)
  {
    && (queue != [] ==> slot.Some?)
    && (slot.Some? ==> armed || SenderHolds(slot, threads) || EngineOwns(engine) || outstanding == 1)
  }

  /** A transmission from the queue keeps the slot occupied, so that later messages are queued behind it. */
  predicate GuardsQueue(engine: Frame, slot: Option<Callback>) {
    TransmitsFromQueue(engine) ==> slot == Some(EngineSlot(engine))
  }

  /** A callback that refers to its caller's frame is held nowhere after that call has returned. */
  ghost predicate NoneDangles(waits: set<nat>, slot: Option<Callback>, queue: seq<Entry>, engine: Frame,
                              stop: StopPhase, threads: map<nat, Pc>)
  {
    forall t :: t in waits && StillHeld(slot, queue, engine, stop, t) > 0 ==> HasCaller(threads, t)
  }

  ghost predicate ResolvedOnce(resolved: seq<Resolution>) {
    forall i, j :: 0 <= i < j < |resolved| ==> resolved[i].ticket != resolved[j].ticket
  }

  ghost predicate Safe(s: System) {
    && OneOutstanding(s.client.slot, s.h.silent, s.wire, s.handler, s.server.sendQueue, s.engine)
    && !s.client.armedTwice
    && GuardsQueue(s.engine, s.client.slot)
    && (s.stop.NotStopping? ==>
          Awake(s.client.queue, s.client.slot, s.client.armed, s.threads, s.engine,
                Outstanding(s.wire, s.handler, s.server.sendQueue, s.engine)))
    && LedgerInv(s.h.issued, s.h.invoked, s.client.slot, s.client.queue, s.engine, s.stop)
    && NoneDangles(s.h.waits, s.client.slot, s.client.queue, s.engine, s.stop, s.threads)
    && ResolvedOnce(s.h.resolved) && WireOrdered(s.h.resolved)
  }

  // ----- when it does

  /** The slot is occupied by the armed command and not by a request with an empty callback. */
  predicate SlotIsArmed(s: System) {
    s.client.slot == Some(NoCallback) && Outstanding(s.wire, s.handler, s.server.sendQueue, s.engine) == 0
  }

  /**
   - A section that links the async command finds it unlinked.
   - A call that lost the slot to a stop does not succeed in transmitting on the next connection.
   - A failed call empties no slot that others rely on, links the command only if it is unlinked, and does not leave
     while a stop is running its callback.
   - The async command finds messages exactly when the slot was occupied for it.
   - The return of an error callback does not empty the slot of a call or of a request under way.
   */
  ghost predicate Orderly(s: System, step: Step)
    requires Enabled(s, step)
  {
    match step
    case Enter(tid, _) => s.threads[tid].call.kind.WaitSend? || MayArm(s)
    case Transmit(tid, ok) => ok ==> OwnsSlot(s, s.threads[tid].m.ticket)
    case Return(tid) => s.threads[tid].ok || MayWithdraw(s, s.threads[tid].ticket)
    case RunAsync => s.client.queue != [] <==> SlotIsArmed(s)
    case CallbackDone => s.engine.DrainError? ==> MayReset(s)
    case _ => true
  }

  // ----- the invariant is enough

  lemma OutstandingIsOne(s: System)
    requires ControlInv(s) && LinkInv(s)
    ensures OneOutstanding(s.client.slot, s.h.silent, s.wire, s.handler, s.server.sendQueue, s.engine)
  {
    if s.h.owner.Server? {
      assert Answers(s.h.owner.ticket, s.client.slot, s.h.silent, s.wire, s.handler, s.server.sendQueue, s.engine);
    }
  }

  lemma StaysAwake(s: System)
    requires ControlInv(s) && LinkInv(s) && s.stop.NotStopping?
    ensures Awake(s.client.queue, s.client.slot, s.client.armed, s.threads, s.engine,
                  Outstanding(s.wire, s.handler, s.server.sendQueue, s.engine))
  {
  }

  lemma AccountedOnce(accepted: seq<nat>, resolved: seq<Resolution>, hand: multiset<nat>, queue: seq<Entry>)
    requires Accounted(accepted, resolved, hand, queue) && Increasing(accepted)
    ensures ResolvedOnce(resolved)
  {
    forall i, j | 0 <= i < j < |resolved|
      ensures resolved[i].ticket != resolved[j].ticket
    {
      var t := ResolvedTickets(resolved);
      var x := t[i];
      MultiplicityAtMostOne(accepted, x);
      assert multiset(t)[x] <= 1;
      TwiceIsTwo(t, i, j);
    }
  }

  lemma {:induction false} MultiplicityAtMostOne(s: seq<nat>, x: nat)
    requires Increasing(s)
    ensures multiset(s)[x] <= 1
  {
    if |s| > 0 {
      var n := |s| - 1;
      assert s == s[..n] + [s[n]];
      MultiplicityAtMostOne(s[..n], x);
      assert s[n] !in s[..n];
    }
  }

  lemma TwiceIsTwo(s: seq<nat>, i: nat, j: nat)
    requires i < j < |s|
    ensures s[i] == s[j] ==> multiset(s)[s[i]] >= 2
  {
    assert s == s[..i] + [s[i]] + s[i + 1..j] + [s[j]] + s[j + 1..];
  }

  lemma CallersOutlastCallbacks(s: System)
    requires CallbackInv(s) && CallerInv(s)
    ensures NoneDangles(s.h.waits, s.client.slot, s.client.queue, s.engine, s.stop, s.threads)
  {
    forall t | t in s.h.waits && StillHeld(s.client.slot, s.client.queue, s.engine, s.stop, t) > 0
      ensures HasCaller(s.threads, t)
    {
      assert t in s.h.issued && s.h.invoked[t] == 0;
    }
  }

  lemma InvIsSafe(s: System)
    requires Inv(s)
    ensures Safe(s)
  {
    OutstandingIsOne(s);
    if s.stop.NotStopping? {
      StaysAwake(s);
    }
    CallersOutlastCallbacks(s);
    AccountedOnce(s.h.accepted, s.h.resolved, InHand(s.threads, s.engine), s.client.queue);
  }

  /** A call overtaken by a stop that fails and finds slot and queue empty just goes. */
  lemma OvertakenReturn(s: System, tid: nat)
    requires Inv(s) && HasFailed(s, tid) && s.client.slot.None? && s.client.queue == []
    requires s.stop != Calling(OnReply(s.threads[tid].ticket))
    ensures Orderly(s, Return(tid)) && DoReturn(s, tid) == s.(threads := s.threads - {tid})
    ensures Inv(DoReturn(s, tid)) && s.h.invoked[s.threads[tid].ticket] == 1
  {
    var t := s.threads[tid].ticket;
    ReturnKeepsInv(s, tid);
    assert TicketOf(s.threads[tid]) == Some(t);
    assert (if t in s.h.issued then 1 else 0)
        == s.h.invoked[t] + StillHeld(s.client.slot, s.client.queue, s.engine, s.stop, t);
  }

  // ----- and the condition is needed

  lemma PlainLinksTwiceIff(s: System, tid: nat, m: Message, ok: bool)
    requires !s.client.armedTwice
    ensures EnterPlain(s, tid, m, ok).client.armedTwice <==> !MayArm(s)
  {
    EnterPlainOutcome(s, tid, m, ok);
  }

  lemma CallbackLinksTwiceIff(s: System, tid: nat, m: Message, callback: Callback, ok: bool)
    requires !s.client.armedTwice
    ensures EnterCallback(s, tid, m, callback, ok).client.armedTwice <==> !MayArm(s)
  {
    EnterCallbackOutcome(s, tid, m, callback, ok);
  }

  lemma WaitLinksNothing(s: System, tid: nat, m: Message)
    ensures EnterWait(s, tid, m).client.armedTwice == s.client.armedTwice
  {
    EnterWaitOutcome(s, tid, m);
  }

  /** The exact condition under which a section links the command a second time. */
  lemma EnterLinksTwiceIff(s: System, tid: nat, ok: bool)
    requires !s.client.armedTwice && tid in s.threads && s.threads[tid].Checked?
    ensures DoEnter(s, tid, ok).client.armedTwice <==> !s.threads[tid].call.kind.WaitSend? && !MayArm(s)
  {
    var call := s.threads[tid].call;
    var m := Message(s.h.next, call.payload);
    match call.kind {
      case PlainSend => PlainLinksTwiceIff(s, tid, m, ok);
      case CallbackSend =>
        CallbackLinksTwiceIff(s, tid, m, if call.withCallback then OnReply(m.ticket) else NoCallback, ok);
      case WaitSend => WaitLinksNothing(s, tid, m);
    }
  }

  lemma ReturnLinksTwiceIff(s: System, tid: nat)
    requires !s.client.armedTwice && tid in s.threads && s.threads[tid].Sent?
    ensures DoReturn(s, tid).client.armedTwice <==> !s.threads[tid].ok && s.client.queue != [] && s.client.armed
  {
  }

  lemma ArmingTwiceIsUnsafe(s: System, tid: nat, ok: bool)
    requires Inv(s) && Enabled(s, Enter(tid, ok)) && !Orderly(s, Enter(tid, ok))
    ensures DoEnter(s, tid, ok).client.armedTwice
  {
    EnterLinksTwiceIff(s, tid, ok);
  }

  /** A callback that was in the slot and is nowhere afterwards. */
  lemma LostFromSlot(s: System, s': System, t: nat)
    requires LedgerInv(s.h.issued, s.h.invoked, s.client.slot, s.client.queue, s.engine, s.stop)
    requires s.client.slot == Some(OnReply(t)) && t in s'.h.issued && s'.h.invoked[t] == s.h.invoked[t]
    requires SlotHolds(s'.client.slot, t) == 0 && QueueHolds(s'.client.queue, t) <= QueueHolds(s.client.queue, t)
    requires FrameHolds(s'.engine, t) <= FrameHolds(s.engine, t) && s'.stop == s.stop
    ensures !LedgerInv(s'.h.issued, s'.h.invoked, s'.client.slot, s'.client.queue, s'.engine, s'.stop)
  {
    assert StillHeld(s.client.slot, s.client.queue, s.engine, s.stop, t) <= 1;
    assert s'.h.invoked[t] + StillHeld(s'.client.slot, s'.client.queue, s'.engine, s'.stop, t) == 0;
  }

  /** A second request, or one whose callback is not in the slot. */
  lemma LateTransmitIsUnsafe(s: System, tid: nat, ok: bool)
    requires Inv(s) && Enabled(s, Transmit(tid, ok)) && !Orderly(s, Transmit(tid, ok))
    ensures var s' := DoTransmit(s, tid, ok);
            !OneOutstanding(s'.client.slot, s'.h.silent, s'.wire, s'.handler, s'.server.sendQueue, s'.engine)
  {
    var s', m := DoTransmit(s, tid, ok), s.threads[tid].m;
    RequestsAppend(s.wire, Request(m.ticket));
    assert Requests(s'.wire)[|Requests(s.wire)|] == m.ticket;
    assert TicketOf(s.threads[tid]) == Some(m.ticket);
  }

  /** A caller that leaves while the stop runs its callback. */
  lemma EarlyReturnDangles(s: System, tid: nat)
    requires Inv(s) && HasFailed(s, tid) && s.stop == Calling(OnReply(s.threads[tid].ticket))
    ensures var s' := DoReturn(s, tid);
            !NoneDangles(s'.h.waits, s'.client.slot, s'.client.queue, s'.engine, s'.stop, s'.threads)
  {
    var s', t := DoReturn(s, tid), s.threads[tid].ticket;
    assert TicketOf(s.threads[tid]) == Some(t);
    assert StillHeld(s'.client.slot, s'.client.queue, s'.engine, s'.stop, t) >= 1;
    assert !HasCaller(s'.threads, t);
  }

  /** One that empties a slot it does not own, or fills it with an empty callback. */
  lemma ForeignReturnIsUnsafe(s: System, tid: nat)
    requires Inv(s) && HasFailed(s, tid) && s.client.slot.Some? && s.client.slot.value.OnReply?
    requires !OwnsSlot(s, s.threads[tid].ticket)
    ensures !Safe(DoReturn(s, tid))
  {
    var t := s.client.slot.value.ticket;
    SlotHoldsAlone(s.h.issued, s.h.invoked, t, s.client.queue, s.engine, s.stop);
    LostFromSlot(s, DoReturn(s, tid), t);
  }

  lemma LateReturnIsUnsafe(s: System, tid: nat)
    requires Inv(s) && Enabled(s, Return(tid)) && !Orderly(s, Return(tid))
    ensures !Safe(DoReturn(s, tid))
  {
    if s.stop == Calling(OnReply(s.threads[tid].ticket)) {
      EarlyReturnDangles(s, tid);
    } else if s.client.queue != [] && s.client.armed {
      ReturnLinksTwiceIff(s, tid);
    } else if s.client.slot.value.OnReply? {
      ForeignReturnIsUnsafe(s, tid);
    } else {
      assert DoReturn(s, tid).client.slot.None?;
    }
  }

  lemma EmptyAsyncIsUnsafe(s: System)
    requires Inv(s) && Enabled(s, RunAsync) && s.client.queue == [] && SlotIsArmed(s)
    ensures !Safe(DoRunAsync(s))
  {
  }

  lemma OvertakingAsyncIsUnsafe(s: System)
    requires Inv(s) && Enabled(s, RunAsync) && s.client.queue != [] && !SlotIsArmed(s)
    ensures !Safe(DoRunAsync(s))
  {
    var s' := DoRunAsync(s);
    ArmedIff(s);
    assert TransmitsFromQueue(s'.engine);
    if !s.h.owner.Server? {
      var t := s.client.slot.value.ticket;
      SlotHoldsAlone(s.h.issued, s.h.invoked, t, s.client.queue, s.engine, s.stop);
      LostFromSlot(s, s', t);
    }
  }

  lemma RequestLosesSlot(s: System)
    requires Inv(s) && Enabled(s, CallbackDone) && s.engine.DrainError?
    requires Outstanding(s.wire, s.handler, s.server.sendQueue, s.engine) != 0
    ensures var s' := DoCallbackDone(s);
            !OneOutstanding(s'.client.slot, s'.h.silent, s'.wire, s'.handler, s'.server.sendQueue, s'.engine)
  {
  }

  lemma CallLosesSlot(s: System)
    requires Inv(s) && Enabled(s, CallbackDone) && s.engine.DrainError?
    requires s.client.slot.Some? && s.client.slot.value.OnReply?
    ensures var s' := DoCallbackDone(s);
            !LedgerInv(s'.h.issued, s'.h.invoked, s'.client.slot, s'.client.queue, s'.engine, s'.stop)
  {
    var t := s.client.slot.value.ticket;
    SlotHoldsAlone(s.h.issued, s.h.invoked, t, s.client.queue, s.engine, s.stop);
    assert StillHeld(s.client.slot, s.client.queue, s.engine, s.stop, t) == 1;
    LostFromSlot(s, DoCallbackDone(s), t);
  }

  lemma LateResetIsUnsafe(s: System)
    requires Inv(s) && Enabled(s, CallbackDone) && s.engine.DrainError? && !MayReset(s)
    ensures !Safe(DoCallbackDone(s))
  {
    if s.client.slot.value.OnReply? {
      CallLosesSlot(s);
    } else {
      RequestLosesSlot(s);
    }
  }
}
