/** What holds in every state of every orderly run, and that these are exactly the runs in which it does. */
module RequestReplyTheorems {
  import opened Basics
  import opened ClientSections
  import opened RequestReply
  import opened RequestReplyInvariant
  import opened RequestReplyCalls
  import opened RequestReplyEngine
  import opened RequestReplySafety
  import Srv = ServerSections

  // ----- every step

  lemma CallStepKeepsInv(s: System, step: Step)
    requires ByCaller(step)
    requires Inv(s) && Enabled(s, step) && Orderly(s, step)
    ensures Inv(Apply(s, step))
  {
    match step {
      case Begin(tid, call) => BeginKeepsInv(s, tid, call);
      case Enter(tid, ok) => EnterKeepsInv(s, tid, ok);
      case Transmit(tid, ok) => TransmitKeepsInv(s, tid, ok);
      case Return(tid) => ReturnKeepsInv(s, tid);
      case Wake(tid) => WakeKeepsInv(s, tid);
    }
  }

  lemma EngineStepKeepsInv(s: System, step: Step)
    requires ByEngine(step)
    requires Inv(s) && Enabled(s, step) && Orderly(s, step)
    ensures Inv(Apply(s, step))
  {
    match step {
      case RunAsync => RunAsyncKeepsInv(s);
      case Receive => ReceiveKeepsInv(s);
      case TakeReply => TakeReplyKeepsInv(s);
      case DrainTransmit(ok) => DrainTransmitKeepsInv(s, ok);
      case DrainRelock => DrainRelockKeepsInv(s);
      case CallbackDone => CallbackDoneKeepsInv(s);
    }
  }

  lemma StopStepKeepsInv(s: System, step: Step)
    requires ByStop(step)
    requires Inv(s) && Enabled(s, step)
    ensures Inv(Apply(s, step))
  {
    match step {
      case StopClean => StopCleanKeepsInv(s);
      case StopClose => StopCloseKeepsInv(s);
      case StopTake => StopTakeKeepsInv(s);
      case StopCallDone => StopCallDoneKeepsInv(s);
      case StopDrop => StopDropKeepsInv(s);
    }
  }

  lemma LifecycleStepKeepsInv(s: System, step: Step)
    requires ByLifecycle(step)
    requires Inv(s) && Enabled(s, step)
    ensures Inv(Apply(s, step))
  {
    match step {
      case Connect => ConnectKeepsInv(s);
      case StopWin => LifecycleKeepsInv(s);
      case MarkStopping => LifecycleKeepsInv(s);
      case Restart => LifecycleKeepsInv(s);
    }
  }

  lemma ServerStepKeepsInv(s: System, step: Step)
    requires ByServer(step)
    requires Inv(s) && Enabled(s, step)
    ensures Inv(Apply(s, step))
  {
    match step {
      case Serve => ServeKeepsInv(s);
      case HandlerReply(i, payload) => HandlerReplyKeepsInv(s, i, payload);
      case HandlerNotify(payload) => HandlerNotifyKeepsInv(s, payload);
    }
  }

  lemma StepKeepsInv(s: System, step: Step, s': System)
    requires Inv(s) && Next(s, step, s') && Orderly(s, step)
    ensures Inv(s')
  {
    if ByCaller(step) {
      CallStepKeepsInv(s, step);
    } else if ByEngine(step) {
      EngineStepKeepsInv(s, step);
    } else if ByStop(step) {
      StopStepKeepsInv(s, step);
    } else if ByServer(step) {
      ServerStepKeepsInv(s, step);
    } else {
      LifecycleStepKeepsInv(s, step);
    }
  }

  lemma DisorderIsUnsafe(s: System, step: Step)
    requires Inv(s) && Enabled(s, step) && !Orderly(s, step)
    ensures !Safe(Apply(s, step))
  {
    match step {
      case Enter(tid, ok) => ArmingTwiceIsUnsafe(s, tid, ok);
      case Transmit(tid, ok) => LateTransmitIsUnsafe(s, tid, ok);
      case Return(tid) => LateReturnIsUnsafe(s, tid);
      case RunAsync =>
        if s.client.queue == [] {
          EmptyAsyncIsUnsafe(s);
        } else {
          OvertakingAsyncIsUnsafe(s);
        }
      case CallbackDone => LateResetIsUnsafe(s);
    }
  }

  /** From a state that satisfies the invariant, a step leads to a safe state if and only if it is orderly. */
  lemma StepSafeIff(s: System, step: Step, s': System)
    requires Inv(s) && Next(s, step, s')
    ensures Safe(s') <==> Orderly(s, step)
    ensures Safe(s') ==> Inv(s')
  {
    if Orderly(s, step) {
      StepKeepsInv(s, step, s');
      InvIsSafe(s');
    } else {
      DisorderIsUnsafe(s, step);
    }
  }

  // ----- every run

  ghost predicate OrderlyAt(states: seq<System>, steps: seq<Step>, i: nat)
    requires i < |steps| && i < |states|
  {
    Enabled(states[i], steps[i]) && Orderly(states[i], steps[i])
  }

  ghost predicate SafeAt(states: seq<System>, i: nat)
    requires i < |states|
  {
    Safe(states[i])
  }

  ghost predicate IsOrderlyRun(cfg: Config, n: nat, states: seq<System>, steps: seq<Step>) {
    && IsRun(cfg, n, states, steps)
    && forall i :: 0 <= i < |steps| ==> OrderlyAt(states, steps, i)
  }

  /** As long as every step was orderly, the invariant holds. */
  lemma {:induction false} OrderlyRunsKeepInv(cfg: Config, n: nat, states: seq<System>, steps: seq<Step>, i: nat)
    requires IsRun(cfg, n, states, steps) && i < |states|
    requires forall k :: 0 <= k < i ==> OrderlyAt(states, steps, k)
    ensures Inv(states[i])
  {
    if i == 0 {
      InitialInv(cfg, n);
    } else {
      OrderlyRunsKeepInv(cfg, n, states, steps, i - 1);
      assert NextAt(states, steps, i - 1) && OrderlyAt(states, steps, i - 1);
      StepKeepsInv(states[i - 1], steps[i - 1], states[i]);
    }
  }

  lemma StepInRun(cfg: Config, n: nat, states: seq<System>, steps: seq<Step>, i: nat)
    requires IsRun(cfg, n, states, steps) && i < |steps| && Inv(states[i])
    ensures SafeAt(states, i + 1) <==> OrderlyAt(states, steps, i)
    ensures SafeAt(states, i + 1) ==> Inv(states[i + 1])
  {
    assert NextAt(states, steps, i);
    StepSafeIff(states[i], steps[i], states[i + 1]);
  }

  lemma SafeStepIsOrderly(cfg: Config, n: nat, states: seq<System>, steps: seq<Step>, i: nat)
    requires IsRun(cfg, n, states, steps) && i < |steps| && SafeAt(states, i + 1)
    requires forall k :: 0 <= k < i ==> OrderlyAt(states, steps, k)
    ensures OrderlyAt(states, steps, i)
  {
    OrderlyRunsKeepInv(cfg, n, states, steps, i);
    StepInRun(cfg, n, states, steps, i);
  }

  lemma {:induction false} SafeStatesAreOrderly(cfg: Config, n: nat, states: seq<System>, steps: seq<Step>, i: nat)
    requires IsRun(cfg, n, states, steps) && i < |states|
    requires forall k :: 0 <= k <= i ==> SafeAt(states, k)
    ensures forall k :: 0 <= k < i ==> OrderlyAt(states, steps, k)
  {
    if i > 0 {
      SafeStatesAreOrderly(cfg, n, states, steps, i - 1);
      SafeStepIsOrderly(cfg, n, states, steps, i - 1);
    }
  }

  /** A run is safe in all its states if and only if all its steps are orderly. */
  lemma SafeIffOrderly(cfg: Config, n: nat, states: seq<System>, steps: seq<Step>)
    requires IsRun(cfg, n, states, steps)
    ensures (forall i :: 0 <= i < |states| ==> SafeAt(states, i)) <==> IsOrderlyRun(cfg, n, states, steps)
  {
    if forall i :: 0 <= i < |states| ==> SafeAt(states, i) {
      SafeStatesAreOrderly(cfg, n, states, steps, |steps|);
    }
    if IsOrderlyRun(cfg, n, states, steps) {
      forall i | 0 <= i < |states|
        ensures SafeAt(states, i)
      {
        OrderlyRunsKeepInv(cfg, n, states, steps, i);
        InvIsSafe(states[i]);
      }
    }
  }

  // ----- the results

  /**
   At most one request is on its way, and then the slot holds the callback it came with and nothing is transmitted
   from the queue.
   */
  lemma AtMostOneRequestOutstanding(cfg: Config, n: nat, states: seq<System>, steps: seq<Step>, i: nat)
    requires IsOrderlyRun(cfg, n, states, steps) && i < |states|
    ensures var s := states[i];
            && Outstanding(s.wire, s.handler, s.server.sendQueue, s.engine) <= 1
            && (Outstanding(s.wire, s.handler, s.server.sendQueue, s.engine) == 1 ==>
                  exists t :: AllAre(Requests(s.wire) + s.handler + Srv.Replies(s.server.sendQueue), t)
                              && (s.engine.GotReply? ==> s.engine.ticket == t)
                              && s.client.slot == Some(if t in s.h.silent then NoCallback else OnReply(t))
                              && !TransmitsFromQueue(s.engine))
  {
    OrderlyRunsKeepInv(cfg, n, states, steps, i);
    var s := states[i];
    if Outstanding(s.wire, s.handler, s.server.sendQueue, s.engine) == 1 {
      assert AllAre(Requests(s.wire) + s.handler + Srv.Replies(s.server.sendQueue), s.h.owner.ticket);
    }
  }

  /**
   Every reply went to the callback of the request it answers, carrying a
   payload the handler gave for that request.
   */
  lemma RepliesReachTheirRequests(cfg: Config, n: nat, states: seq<System>, steps: seq<Step>, i: nat, k: nat)
    requires IsOrderlyRun(cfg, n, states, steps) && i < |states| && k < |states[i].h.answered|
    ensures var h := states[i].h; var d := h.answered[k];
            && (d.ticket, d.payload) in h.replied
            && (d.callback == OnReply(d.ticket) || (d.callback == NoCallback && d.ticket in h.silent))
  {
    OrderlyRunsKeepInv(cfg, n, states, steps, i);
  }

  /** The handler never replies while the reply buffer is still linked, so one buffer is enough. */
  lemma OneReplyBufferIsEnough(cfg: Config, n: nat, states: seq<System>, steps: seq<Step>, i: nat)
    requires IsOrderlyRun(cfg, n, states, steps) && i < |states|
    ensures !states[i].server.replyLinkedTwice
    ensures i < |steps| && steps[i].HandlerReply? ==> Srv.Replies(states[i].server.sendQueue) == []
  {
    OrderlyRunsKeepInv(cfg, n, states, steps, i);
    if i < |steps| && steps[i].HandlerReply? {
      assert NextAt(states, steps, i);
    }
  }

  /**
   No lost wake-up: a queued message implies an occupied slot, and an occupied
   slot implies somebody who will empty it. The async command is never linked twice,
   and a transmission from the queue keeps the slot occupied.
   */
  lemma NoLostWakeUp(cfg: Config, n: nat, states: seq<System>, steps: seq<Step>, i: nat)
    requires IsOrderlyRun(cfg, n, states, steps) && i < |states|
    ensures !states[i].client.armedTwice
    ensures TransmitsFromQueue(states[i].engine) ==> states[i].client.slot == Some(EngineSlot(states[i].engine))
    ensures var s := states[i];
            s.stop.NotStopping? ==>
              && (s.client.queue != [] ==> s.client.slot.Some?)
              && (s.client.slot.Some? ==>
                    || s.client.armed
                    || SenderHolds(s.client.slot, s.threads)
                    || EngineOwns(s.engine)
                    || Outstanding(s.wire, s.handler, s.server.sendQueue, s.engine) == 1)
  {
    OrderlyRunsKeepInv(cfg, n, states, steps, i);
    InvIsSafe(states[i]);
  }

  /**
   Every callback accepted and not handed back has run once or is held once;
   every other callback, refused ones included, has never run and is held nowhere.
   */
  lemma CallbacksRunExactlyOnce(cfg: Config, n: nat, states: seq<System>, steps: seq<Step>, i: nat, t: nat)
    requires IsOrderlyRun(cfg, n, states, steps) && i < |states|
    ensures var s := states[i];
            s.h.invoked[t] + StillHeld(s.client.slot, s.client.queue, s.engine, s.stop, t)
            == if t in s.h.issued then 1 else 0
    ensures t in states[i].h.refused ==> states[i].h.invoked[t] == 0
    ensures forall tid :: tid in states[i].threads && states[i].threads[tid].Waiting? ==>
                            states[i].threads[tid].ticket in states[i].h.issued
  {
    OrderlyRunsKeepInv(cfg, n, states, steps, i);
    var s := states[i];
    assert s.h.invoked[t] + StillHeld(s.client.slot, s.client.queue, s.engine, s.stop, t)
        == if t in s.h.issued then 1 else 0;
    forall tid | tid in s.threads && s.threads[tid].Waiting?
      ensures s.threads[tid].ticket in s.h.issued
    {
      assert TicketOf(s.threads[tid]).value in s.h.issued;
    }
  }

  /**
   SendWaitReply does not leave its scope before its callback, which refers to it, has run or been handed back. A
   callback is handed back only by a call that takes it out of the slot itself.
   */
  lemma CallersOutlastTheirCallbacks(cfg: Config, n: nat, states: seq<System>, steps: seq<Step>, i: nat, t: nat)
    requires IsOrderlyRun(cfg, n, states, steps) && i < |states| && t in states[i].h.waits
    ensures var s := states[i];
            StillHeld(s.client.slot, s.client.queue, s.engine, s.stop, t) > 0 ==>
              exists tid :: tid in s.threads && TicketOf(s.threads[tid]) == Some(t)
  {
    OrderlyRunsKeepInv(cfg, n, states, steps, i);
    InvIsSafe(states[i]);
    var s := states[i];
    if StillHeld(s.client.slot, s.client.queue, s.engine, s.stop, t) > 0 {
      assert HasCaller(s.threads, t);
    }
  }

  /** What is next to be transmitted by a call that has the slot, by the engine, or from the queue. */
  ghost predicate InTurn(s: System, t: nat) {
    || (exists tid :: tid in s.threads && s.threads[tid].Sending? && s.threads[tid].m.ticket == t && OwnsSlot(s, t))
    || (s.engine.DrainSend? && s.engine.entry.ticket == t)
    || t in Tickets(s.client.queue)
  }

  lemma TurnIsLater(s: System, t: nat)
    requires Inv(s) && InTurn(s, t)
    ensures AfterWire(s.h.resolved, t)
  {
    if tid :| tid in s.threads && s.threads[tid].Sending? && s.threads[tid].m.ticket == t && OwnsSlot(s, t) {
      SenderHoldsIff(s, tid);
      assert Pending(s.h.owner, s.threads, s.engine)[0] == t;
    } else if s.engine.DrainSend? && s.engine.entry.ticket == t {
      assert Pending(s.h.owner, s.threads, s.engine)[0] == t;
    } else {
      var k :| 0 <= k < |Tickets(s.client.queue)| && Tickets(s.client.queue)[k] == t;
    }
  }

  /**
   Attempts on the open connection happen at most once per message and in the order in which the mutex accepted the
   messages; a call that lost the slot to a stop may fail later, out of turn, but not succeed. Every accepted message
   is attempted or dropped once, in the hand of a call or of the engine, or queued, and what is still to come in turn
   was accepted after everything attempted so far.
   */
  lemma WireOrderIsAcceptanceOrder(cfg: Config, n: nat, states: seq<System>, steps: seq<Step>, i: nat)
    requires IsOrderlyRun(cfg, n, states, steps) && i < |states|
    ensures var s := states[i];
            && Increasing(s.h.accepted)
            && WireOrdered(s.h.resolved) && ResolvedOnce(s.h.resolved)
            && multiset(s.h.accepted) ==
                 multiset(ResolvedTickets(s.h.resolved)) + InHand(s.threads, s.engine) +
                 multiset(Tickets(s.client.queue))
            && forall t :: InTurn(s, t) ==> AfterWire(s.h.resolved, t)
  {
    OrderlyRunsKeepInv(cfg, n, states, steps, i);
    InvIsSafe(states[i]);
    forall t | InTurn(states[i], t)
      ensures AfterWire(states[i].h.resolved, t)
    {
      TurnIsLater(states[i], t);
    }
  }
}
