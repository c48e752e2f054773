/** The buffers of both ends are conserved in every run, orderly or not. */
module RequestReplyLedgers {
  import opened Basics
  import opened ClientSections
  import opened RequestReply
  import opened RequestReplyInvariant
  import Calls = RequestReplyCalls
  import Srv = ServerSections

  ghost predicate ClientLedger(s: System) {
    BufferInv(s.cfg.capacity, s.client.pool, s.client.queue, s.h.lost)
  }

  /** Neither pool nor queue changes. */
  predicate SameBuffers(s: System, s': System) {
    s'.cfg == s.cfg && s'.client.pool == s.client.pool && s'.client.queue == s.client.queue && s'.h.lost == s.h.lost
  }

  lemma QueueKeepsLedger(s: System, tid: nat, m: Message, callback: Callback, wait: bool)
    requires ClientLedger(s) && s.client.pool != []
    ensures ClientLedger(CallQueued(s, tid, m, callback, wait, Calls.QueuedClient(s, m, callback)))
  {
    BufferQueued(s.cfg.capacity, s.client.pool, s.client.queue, s.h.lost,
                 Entry(s.client.pool[0], m.ticket, callback));
  }

  lemma EnterPlainKeepsLedger(s: System, tid: nat, m: Message, ok: bool)
    requires ClientLedger(s)
    ensures ClientLedger(EnterPlain(s, tid, m, ok))
  {
    Calls.EnterPlainOutcome(s, tid, m, ok);
    if s.client.pool != [] {
      QueueKeepsLedger(s, tid, m, NoCallback, false);
    }
  }

  lemma EnterCallbackKeepsLedger(s: System, tid: nat, m: Message, callback: Callback, ok: bool)
    requires ClientLedger(s)
    ensures ClientLedger(EnterCallback(s, tid, m, callback, ok))
  {
    Calls.EnterCallbackOutcome(s, tid, m, callback, ok);
    if s.client.pool != [] {
      QueueKeepsLedger(s, tid, m, callback, false);
    }
  }

  lemma EnterWaitKeepsLedger(s: System, tid: nat, m: Message)
    requires ClientLedger(s)
    ensures ClientLedger(EnterWait(s, tid, m))
  {
    Calls.EnterWaitOutcome(s, tid, m);
    if s.client.pool != [] {
      QueueKeepsLedger(s, tid, m, OnReply(m.ticket), true);
    }
  }

  lemma EnterKeepsLedger(s: System, tid: nat, ok: bool)
    requires ClientLedger(s) && tid in s.threads && s.threads[tid].Checked?
    ensures ClientLedger(DoEnter(s, tid, ok))
  {
    var call := s.threads[tid].call;
    var m := Message(s.h.next, call.payload);
    EnterPlainKeepsLedger(s, tid, m, ok);
    EnterCallbackKeepsLedger(s, tid, m, if call.withCallback then OnReply(m.ticket) else NoCallback, ok);
    EnterWaitKeepsLedger(s, tid, m);
  }

  lemma LoopKeepsLedger(s: System)
    requires ClientLedger(s) && (s.engine.Idle? || s.engine.Deliver?)
    ensures ClientLedger(DrainLoop(s))
  {
    if s.client.queue != [] {
      BufferPopped(s.cfg.capacity, s.client.pool, s.client.queue, s.h.lost);
    }
  }

  lemma TakeReplyKeepsLedger(s: System)
    requires ClientLedger(s) && s.engine.GotReply?
    ensures ClientLedger(DoTakeReply(s))
  {
    if s.client.slot.Some? {
      LoopKeepsLedger(ReplyTaken(s));
    }
  }

  lemma RelockKeepsLedger(s: System)
    requires ClientLedger(s) && s.engine.DrainSent?
    ensures ClientLedger(DoDrainRelock(s))
  {
    if s.engine.entry.callback.NoCallback? {
      LoopKeepsLedger(PlainDrained(s));
    }
  }

  lemma CallbackDoneKeepsLedger(s: System)
    requires ClientLedger(s) && (s.engine.DrainError? || s.engine.Deliver? || s.engine.Notified?)
    ensures ClientLedger(DoCallbackDone(s))
  {
    if s.engine.DrainError? {
      LoopKeepsLedger(ErrorReported(s));
    }
  }

  /** The steps of the engine that go through the drain loop. */
  lemma DrainKeepsLedger(s: System, step: Step)
    requires ClientLedger(s) && Enabled(s, step)
    requires step.RunAsync? || step.TakeReply? || step.DrainRelock? || step.CallbackDone?
    ensures ClientLedger(Apply(s, step))
  {
    match step {
      case RunAsync => LoopKeepsLedger(s.(client := s.client.(armed := false), h := s.h.(owner := Nobody)));
      case TakeReply => TakeReplyKeepsLedger(s);
      case DrainRelock => RelockKeepsLedger(s);
      case CallbackDone => CallbackDoneKeepsLedger(s);
    }
  }

  lemma DropKeepsLedger(s: System)
    requires ClientLedger(s)
    ensures ClientLedger(DoStopDrop(s))
  {
    if s.client.queue != [] {
      BufferPopped(s.cfg.capacity, s.client.pool, s.client.queue, s.h.lost);
    }
  }

  lemma OtherKeepsBuffers(s: System, step: Step)
    requires Enabled(s, step)
    requires !step.Enter? && !step.RunAsync? && !step.TakeReply? && !step.DrainRelock? && !step.CallbackDone? &&
             !step.StopDrop?
    ensures SameBuffers(s, Apply(s, step))
  {
  }

  lemma StepKeepsClientLedger(s: System, step: Step)
    requires ClientLedger(s) && Enabled(s, step)
    ensures ClientLedger(Apply(s, step))
  {
    if step.Enter? {
      EnterKeepsLedger(s, step.tid, step.ok);
    } else if step.RunAsync? || step.TakeReply? || step.DrainRelock? || step.CallbackDone? {
      DrainKeepsLedger(s, step);
    } else if step.StopDrop? {
      DropKeepsLedger(s);
    } else {
      OtherKeepsBuffers(s, step);
    }
  }

  // ----- the server

  ghost predicate ServerLedger(s: System) {
    Srv.BuffersAccounted(s.notifyCapacity, s.server)
  }

  lemma FreshServerLedger(capacity: nat)
    ensures Srv.BuffersAccounted(capacity, Srv.InitialServer(capacity))
  {
  }

  lemma ServerStepKeepsLedger(s: System, step: Step)
    requires ServerLedger(s) && Enabled(s, step) && (step.Receive? || step.HandlerReply? || step.HandlerNotify?)
    ensures ServerLedger(Apply(s, step))
  {
    match step {
      case Receive => Srv.ReadKeepsBuffers(s.notifyCapacity, s.server);
      case HandlerReply(i, payload) => Srv.NotifyBuffersAppend(s.server.sendQueue, Srv.ReplyItem(s.handler[i]));
      case HandlerNotify(payload) => Srv.NotifyAppends(s.notifyCapacity, s.server, payload);
    }
  }

  /** The server is as it was, or new. */
  ghost predicate SameServer(s: System, s': System) {
    s'.notifyCapacity == s.notifyCapacity &&
    (s'.server == s.server || s'.server == Srv.InitialServer(s.notifyCapacity))
  }

  lemma CallKeepsServer(s: System, step: Step)
    requires Enabled(s, step) && ByCaller(step)
    ensures SameServer(s, Apply(s, step))
  {
  }

  lemma OtherKeepsServer(s: System, step: Step)
    requires Enabled(s, step) && !step.Receive? && !step.HandlerReply? && !step.HandlerNotify?
    requires !ByCaller(step)
    ensures SameServer(s, Apply(s, step))
  {
  }

  lemma StepKeepsServerLedger(s: System, step: Step)
    requires ServerLedger(s) && Enabled(s, step)
    ensures ServerLedger(Apply(s, step))
  {
    if step.Receive? || step.HandlerReply? || step.HandlerNotify? {
      ServerStepKeepsLedger(s, step);
    } else {
      FreshServerLedger(s.notifyCapacity);
      if ByCaller(step) {
        CallKeepsServer(s, step);
      } else {
        OtherKeepsServer(s, step);
      }
    }
  }

  // ----- the results

  lemma {:induction false} LedgersHold(cfg: Config, n: nat, states: seq<System>, steps: seq<Step>, i: nat)
    requires IsRun(cfg, n, states, steps) && i < |states|
    ensures ClientLedger(states[i]) && ServerLedger(states[i])
  {
    if i == 0 {
      assert Buffers([]) == [];
    } else {
      LedgersHold(cfg, n, states, steps, i - 1);
      assert NextAt(states, steps, i - 1);
      StepKeepsClientLedger(states[i - 1], steps[i - 1]);
      StepKeepsServerLedger(states[i - 1], steps[i - 1]);
    }
  }

  /**
   The send buffers are conserved: each is in the pool, in the queue, or was
   queued when some stop drained the queue. A full queue is one that, with the
   buffers lost so far, uses them all.
   */
  lemma SendBuffersAreConserved(cfg: Config, n: nat, states: seq<System>, steps: seq<Step>, i: nat)
    requires IsRun(cfg, n, states, steps) && i < |states|
    ensures var s := states[i];
            && multiset(s.client.pool) + multiset(Buffers(s.client.queue)) + multiset(s.h.lost)
               == multiset(Indices(s.cfg.capacity))
            && (s.client.pool == [] <==> |s.client.queue| + |s.h.lost| == s.cfg.capacity)
  {
    LedgersHold(cfg, n, states, steps, i);
    var s := states[i];
    assert |multiset(s.client.pool) + multiset(Buffers(s.client.queue)) + multiset(s.h.lost)|
        == |multiset(Indices(s.cfg.capacity))|;
  }

  /** Every notification buffer is in exactly one of pool and queue, and none is refused unless all are queued. */
  lemma NotifyBuffersAreConserved(cfg: Config, n: nat, states: seq<System>, steps: seq<Step>, i: nat)
    requires IsRun(cfg, n, states, steps) && i < |states|
    ensures var server := states[i].server;
            && multiset(server.notifyPool) + multiset(Srv.NotifyBuffers(server.sendQueue))
               == multiset(Indices(states[i].notifyCapacity))
            && (server.notifyPool == [] <==> |Srv.NotifyBuffers(server.sendQueue)| == states[i].notifyCapacity)
  {
    LedgersHold(cfg, n, states, steps, i);
    Srv.PoolEmptyIffAllQueued(states[i].notifyCapacity, states[i].server);
  }
}
