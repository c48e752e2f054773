/**
 What callers can do to keep every run of a connection orderly, and what else
 holds when they do.
 */
module RequestReplyCallers {
  import opened Basics
  import opened ClientSections
  import opened RequestReply
  import opened RequestReplyInvariant
  import opened RequestReplyCalls
  import opened RequestReplyEngine
  import opened RequestReplySafety
  import opened RequestReplyTheorems

  /** A call past its checks that may still occupy an empty slot. */
  predicate Disturbs(cfg: Config, pc: Pc) {
    pc.Checked? && (cfg.trulyAsync || pc.call.kind.WaitSend?)
  }

  ghost predicate NoneDisturbs(cfg: Config, threads: map<nat, Pc>) {
    forall tid :: tid in threads ==> !Disturbs(cfg, threads[tid])
  }

  /** A call that is transmitting by itself, or has failed to, and whose slot a stop has taken. */
  predicate Overtaken(s: System, tid: nat) {
    tid in s.threads && IsSender(s.threads[tid]) && !OwnsSlot(s, TicketOf(s.threads[tid]).value)
  }

  /**
   While SwitchToStopState runs, no call is past its checks that may occupy the slot; calls that transmit by themselves
   and all others may be in progress. Overtaken ones have returned when the connection is up again.
   */
  ghost predicate Undisturbed(s: System) {
    && (!s.stop.NotStopping? ==> NoneDisturbs(s.cfg, s.threads))
    && (s.open ==> forall tid :: tid in s.threads ==> !Overtaken(s, tid))
  }

  /** A call that fails during SwitchToStopState finds nothing queued and its callback not running. */
  ghost predicate Considerate(s: System, step: Step) {
    step.Return? && HasFailed(s, step.tid) && !s.stop.NotStopping? ==>
      s.client.queue == [] && s.stop != Calling(OnReply(s.threads[step.tid].ticket))
  }

  ghost predicate UndisturbedAt(states: seq<System>, i: nat)
    requires i < |states|
  {
    Undisturbed(states[i])
  }

  ghost predicate ConsiderateAt(states: seq<System>, steps: seq<Step>, i: nat)
    requires i < |steps| && i < |states|
  {
    Considerate(states[i], steps[i])
  }

  ghost predicate IsUndisturbedRun(cfg: Config, n: nat, states: seq<System>, steps: seq<Step>) {
    && IsRun(cfg, n, states, steps)
    && (forall i :: 0 <= i < |states| ==> UndisturbedAt(states, i))
    && (forall i :: 0 <= i < |steps| ==> ConsiderateAt(states, steps, i))
  }

  // ----- what holds besides the invariant

  /** A call without the slot finds it empty and the connection closed. */
  ghost predicate OrphansRest(threads: map<nat, Pc>, owner: Owner, open: bool) {
    forall tid :: tid in threads && IsSender(threads[tid]) && owner != User(tid) ==> !open && owner.Nobody?
  }

  ghost predicate CommandOwns(armed: bool, owner: Owner, queue: seq<Entry>, stop: StopPhase) {
    && (armed <==> owner.Armed?)
    && (owner.Armed? ==> queue != [] && stop.NotStopping?)
    && (Draining(stop) ==> owner.Nobody?)
  }

  /** Until the connection is up again nothing can be sent. */
  ghost predicate ClosedRest(cfg: Config, threads: map<nat, Pc>, stop: StopPhase, open: bool, state: State) {
    stop.NotStopping? && !open ==> NoneDisturbs(cfg, threads) && !state.Ready?
  }

  /** A callback that was stopped from within finds the slot empty. */
  ghost predicate HaltedFrame(owner: Owner, engine: Frame, open: bool) {
    engine.DrainError? && !owner.Engine? ==> owner.Nobody? && !open
  }

  ghost predicate Settled(s: System) {
    && OrphansRest(s.threads, s.h.owner, s.open)
    && CommandOwns(s.client.armed, s.h.owner, s.client.queue, s.stop)
    && ClosedRest(s.cfg, s.threads, s.stop, s.open, s.state)
    && HaltedFrame(s.h.owner, s.engine, s.open)
  }

  lemma ReturnIsOrderly(s: System, tid: nat)
    requires Inv(s) && Settled(s) && HasFailed(s, tid) && Considerate(s, Return(tid))
    ensures MayWithdraw(s, s.threads[tid].ticket)
  {
    SenderHoldsIff(s, tid);
  }

  lemma TransmitIsOrderly(s: System, tid: nat)
    requires Inv(s) && Settled(s) && tid in s.threads && s.threads[tid].Sending? && s.open
    ensures OwnsSlot(s, s.threads[tid].m.ticket)
  {
    SenderHoldsIff(s, tid);
  }

  lemma SettledIsOrderly(s: System, step: Step)
    requires Inv(s) && Settled(s) && Enabled(s, step) && Considerate(s, step)
    ensures Orderly(s, step)
  {
    if step.Return? && !s.threads[step.tid].ok {
      ReturnIsOrderly(s, step.tid);
    } else if step.Transmit? && step.ok {
      TransmitIsOrderly(s, step.tid);
    }
  }

  // ----- calls

  lemma BeginKeepsSettled(s: System, tid: nat, call: Call)
    requires Settled(s) && tid !in s.threads
    ensures Settled(DoBegin(s, tid, call))
  {
  }

  lemma TransmitKeepsSettled(s: System, tid: nat, ok: bool)
    requires ControlInv(s) && Settled(s) && tid in s.threads && s.threads[tid].Sending? && (ok ==> s.open)
    ensures Settled(DoTransmit(s, tid, ok))
  {
  }

  lemma ReturnKeepsSettled(s: System, tid: nat)
    requires ControlInv(s) && Settled(s) && Undisturbed(s) && tid in s.threads && s.threads[tid].Sent?
    requires Considerate(s, Return(tid))
    ensures Settled(DoReturn(s, tid))
  {
  }

  lemma EnterPlainKeepsSettled(s: System, tid: nat, m: Message, ok: bool)
    requires ControlInv(s) && Settled(s) && Undisturbed(s) && tid in s.threads && s.threads[tid].Checked?
    requires s.threads[tid].call.kind.PlainSend?
    ensures Settled(EnterPlain(s, tid, m, ok))
  {
    EnterPlainOutcome(s, tid, m, ok);
  }

  lemma EnterCallbackKeepsSettled(s: System, tid: nat, m: Message, callback: Callback, ok: bool)
    requires ControlInv(s) && Settled(s) && Undisturbed(s) && tid in s.threads && s.threads[tid].Checked?
    requires s.threads[tid].call.kind.CallbackSend?
    ensures Settled(EnterCallback(s, tid, m, callback, ok))
  {
    EnterCallbackOutcome(s, tid, m, callback, ok);
  }

  lemma EnterWaitKeepsSettled(s: System, tid: nat, m: Message)
    requires ControlInv(s) && Settled(s) && Undisturbed(s) && tid in s.threads && s.threads[tid].Checked?
    requires s.threads[tid].call.kind.WaitSend?
    ensures Settled(EnterWait(s, tid, m))
  {
    EnterWaitOutcome(s, tid, m);
  }

  lemma EnterKeepsSettled(s: System, tid: nat, ok: bool)
    requires ControlInv(s) && Settled(s) && Undisturbed(s) && tid in s.threads && s.threads[tid].Checked?
    ensures Settled(DoEnter(s, tid, ok))
  {
    var call := s.threads[tid].call;
    var m := Message(s.h.next, call.payload);
    match call.kind {
      case PlainSend => EnterPlainKeepsSettled(s, tid, m, ok);
      case CallbackSend =>
        EnterCallbackKeepsSettled(s, tid, m, if call.withCallback then OnReply(m.ticket) else NoCallback, ok);
      case WaitSend => EnterWaitKeepsSettled(s, tid, m);
    }
  }

  lemma CallKeepsSettled(s: System, step: Step)
    requires ByCaller(step) && Considerate(s, step)
    requires Inv(s) && Settled(s) && Undisturbed(s) && Enabled(s, step)
    ensures Settled(Apply(s, step))
  {
    match step {
      case Begin(tid, call) => BeginKeepsSettled(s, tid, call);
      case Enter(tid, ok) => EnterKeepsSettled(s, tid, ok);
      case Transmit(tid, ok) => TransmitKeepsSettled(s, tid, ok);
      case Return(tid) => ReturnKeepsSettled(s, tid);
      case Wake(tid) =>
    }
  }

  // ----- the engine

  ghost predicate NoSenders(threads: map<nat, Pc>) {
    forall tid :: tid in threads ==> !IsSender(threads[tid])
  }

  lemma LoopKeepsSettled(s: System)
    requires (s.engine.Idle? || s.engine.Deliver?) && s.h.owner.Nobody? && Settled(s)
    requires s.client.queue != [] ==> NoSenders(s.threads) && s.stop.NotStopping?
    ensures Settled(DrainLoop(s))
  {
  }

  lemma RunAsyncKeepsSettled(s: System)
    requires ControlInv(s) && Settled(s) && s.stop.NotStopping? && s.engine.Idle? && s.client.armed
    ensures Settled(DoRunAsync(s))
  {
    LoopKeepsSettled(s.(client := s.client.(armed := false), h := s.h.(owner := Nobody)));
  }

  lemma TakeReplyKeepsSettled(s: System)
    requires ControlInv(s) && LinkInv(s) && Settled(s) && s.stop.NotStopping? && s.engine.GotReply?
    ensures Settled(DoTakeReply(s))
  {
    ReplyFindsItsRequest(s);
    LoopKeepsSettled(ReplyTaken(s));
  }

  lemma RelockKeepsSettled(s: System)
    requires ControlInv(s) && Settled(s) && s.stop.NotStopping? && s.engine.DrainSent?
    ensures Settled(DoDrainRelock(s))
  {
    if s.engine.entry.callback.NoCallback? {
      LoopKeepsSettled(PlainDrained(s));
    }
  }

  lemma CallbackDoneKeepsSettled(s: System)
    requires ControlInv(s) && Settled(s) && s.stop.NotStopping?
    requires s.engine.DrainError? || s.engine.Deliver? || s.engine.Notified?
    ensures Settled(DoCallbackDone(s))
  {
    if s.engine.DrainError? {
      LoopKeepsSettled(ErrorReported(s));
    }
  }

  lemma EngineKeepsSettled(s: System, step: Step)
    requires ByEngine(step)
    requires Inv(s) && Settled(s) && Enabled(s, step)
    ensures Settled(Apply(s, step))
  {
    match step {
      case RunAsync => RunAsyncKeepsSettled(s);
      case Receive =>
      case TakeReply => TakeReplyKeepsSettled(s);
      case DrainTransmit(ok) =>
      case DrainRelock => RelockKeepsSettled(s);
      case CallbackDone => CallbackDoneKeepsSettled(s);
    }
  }

  lemma StopKeepsSettled(s: System, step: Step)
    requires ByStop(step)
    requires Inv(s) && Settled(s) && Undisturbed(s) && Enabled(s, step) && Undisturbed(Apply(s, step))
    ensures Settled(Apply(s, step))
  {
  }

  lemma LifecycleKeepsSettled(s: System, step: Step)
    requires ByLifecycle(step)
    requires Inv(s) && Settled(s) && Undisturbed(s) && Enabled(s, step) && Undisturbed(Apply(s, step))
    ensures Settled(Apply(s, step))
  {
  }

  lemma ServerKeepsSettled(s: System, step: Step)
    requires ByServer(step) && Settled(s) && Enabled(s, step)
    ensures Settled(Apply(s, step))
  {
  }

  // ----- runs

  lemma StepKeepsSettled(s: System, step: Step, s': System)
    requires Inv(s) && Settled(s) && Undisturbed(s) && Considerate(s, step) && Next(s, step, s') && Undisturbed(s')
    ensures Settled(s')
  {
    if ByCaller(step) {
      CallKeepsSettled(s, step);
    } else if ByEngine(step) {
      EngineKeepsSettled(s, step);
    } else if ByStop(step) {
      StopKeepsSettled(s, step);
    } else if ByLifecycle(step) {
      LifecycleKeepsSettled(s, step);
    } else {
      ServerKeepsSettled(s, step);
    }
  }

  ghost predicate SettledAt(states: seq<System>, i: nat)
    requires i < |states|
  {
    Settled(states[i])
  }

  ghost predicate OrderlyBefore(states: seq<System>, steps: seq<Step>, i: nat)
    requires i <= |steps| < |states|
  {
    forall k :: 0 <= k < i ==> OrderlyAt(states, steps, k)
  }

  lemma SettledStep(cfg: Config, n: nat, states: seq<System>, steps: seq<Step>, i: nat)
    requires IsRun(cfg, n, states, steps) && i < |steps|
    requires UndisturbedAt(states, i) && UndisturbedAt(states, i + 1) && ConsiderateAt(states, steps, i)
    requires OrderlyBefore(states, steps, i) && SettledAt(states, i)
    ensures OrderlyAt(states, steps, i) && SettledAt(states, i + 1)
  {
    assert NextAt(states, steps, i);
    OrderlyRunsKeepInv(cfg, n, states, steps, i);
    SettledIsOrderly(states[i], steps[i]);
    StepKeepsSettled(states[i], steps[i], states[i + 1]);
  }

  lemma SettledAtFirst(cfg: Config, n: nat)
    ensures Settled(InitialSystem(cfg, n))
  {
  }

  lemma {:induction false} UndisturbedRunsSettle(cfg: Config, n: nat, states: seq<System>, steps: seq<Step>, i: nat)
    requires IsUndisturbedRun(cfg, n, states, steps) && i < |states|
    ensures OrderlyBefore(states, steps, i) && SettledAt(states, i)
  {
    if i == 0 {
      SettledAtFirst(cfg, n);
    } else {
      UndisturbedRunsSettle(cfg, n, states, steps, i - 1);
      SettledStep(cfg, n, states, steps, i - 1);
    }
  }

  /** Runs in which stops meet no disturbing call are orderly. */
  lemma UndisturbedRunsAreOrderly(cfg: Config, n: nat, states: seq<System>, steps: seq<Step>)
    requires IsUndisturbedRun(cfg, n, states, steps)
    ensures IsOrderlyRun(cfg, n, states, steps)
  {
    UndisturbedRunsSettle(cfg, n, states, steps, |steps|);
  }

  // ----- runs in which no call is transmitting by itself while a stop runs

  ghost predicate SendersOwn(threads: map<nat, Pc>, owner: Owner) {
    forall tid :: tid in threads && IsSender(threads[tid]) ==> owner == User(tid)
  }

  ghost predicate Apart(s: System) {
    !s.stop.NotStopping? ==> NoneDisturbs(s.cfg, s.threads) && NoSenders(s.threads)
  }

  ghost predicate ApartAt(states: seq<System>, i: nat)
    requires i < |states|
  {
    Apart(states[i])
  }

  ghost predicate IsApartRun(cfg: Config, n: nat, states: seq<System>, steps: seq<Step>) {
    IsRun(cfg, n, states, steps) && forall i :: 0 <= i < |states| ==> ApartAt(states, i)
  }

  lemma EnterPlainKeepsOwning(s: System, tid: nat, m: Message, ok: bool)
    requires ControlInv(s) && SendersOwn(s.threads, s.h.owner) && tid in s.threads && s.threads[tid].Checked?
    ensures SendersOwn(EnterPlain(s, tid, m, ok).threads, EnterPlain(s, tid, m, ok).h.owner)
  {
    EnterPlainOutcome(s, tid, m, ok);
  }

  lemma EnterCallbackKeepsOwning(s: System, tid: nat, m: Message, callback: Callback, ok: bool)
    requires ControlInv(s) && SendersOwn(s.threads, s.h.owner) && tid in s.threads && s.threads[tid].Checked?
    ensures var s' := EnterCallback(s, tid, m, callback, ok);
            SendersOwn(s'.threads, s'.h.owner)
  {
    EnterCallbackOutcome(s, tid, m, callback, ok);
  }

  lemma EnterWaitKeepsOwning(s: System, tid: nat, m: Message)
    requires ControlInv(s) && SendersOwn(s.threads, s.h.owner) && tid in s.threads && s.threads[tid].Checked?
    ensures SendersOwn(EnterWait(s, tid, m).threads, EnterWait(s, tid, m).h.owner)
  {
    EnterWaitOutcome(s, tid, m);
  }

  lemma EnterKeepsOwning(s: System, tid: nat, ok: bool)
    requires ControlInv(s) && SendersOwn(s.threads, s.h.owner) && tid in s.threads && s.threads[tid].Checked?
    ensures SendersOwn(DoEnter(s, tid, ok).threads, DoEnter(s, tid, ok).h.owner)
  {
    var call := s.threads[tid].call;
    var m := Message(s.h.next, call.payload);
    match call.kind {
      case PlainSend => EnterPlainKeepsOwning(s, tid, m, ok);
      case CallbackSend =>
        EnterCallbackKeepsOwning(s, tid, m, if call.withCallback then OnReply(m.ticket) else NoCallback, ok);
      case WaitSend => EnterWaitKeepsOwning(s, tid, m);
    }
  }

  lemma CallKeepsOwning(s: System, step: Step)
    requires ByCaller(step) && ControlInv(s) && SendersOwn(s.threads, s.h.owner) && Enabled(s, step)
    ensures SendersOwn(Apply(s, step).threads, Apply(s, step).h.owner)
  {
    if step.Enter? {
      EnterKeepsOwning(s, step.tid, step.ok);
    }
  }

  /** With the slot in no caller's hands, there is no caller in its sections. */
  lemma OwnerChanges(threads: map<nat, Pc>, owner: Owner, owner': Owner)
    requires SendersOwn(threads, owner) && (owner.User? ==> owner' == owner)
    ensures SendersOwn(threads, owner')
  {
  }

  /** While a call has the slot, the engine only receives and returns from callbacks. */
  lemma EngineLeavesSlot(s: System, step: Step)
    requires ByEngine(step) && ControlInv(s) && LinkInv(s) && Settled(s) && Enabled(s, step) && s.h.owner.User?
    ensures step.Receive? || (step.CallbackDone? && !s.engine.DrainError?)
  {
    if step.TakeReply? {
      ReplyFindsItsRequest(s);
    }
  }

  lemma EngineOwnership(s: System, step: Step)
    requires ByEngine(step) && Inv(s) && Settled(s) && Enabled(s, step) && s.h.owner.User?
    ensures Apply(s, step).h.owner == s.h.owner
  {
    EngineLeavesSlot(s, step);
    if step.Receive? {
      ReceiveOutcome(s);
    }
  }

  lemma EngineKeepsOwning(s: System, step: Step)
    requires ByEngine(step) && Inv(s) && Settled(s) && SendersOwn(s.threads, s.h.owner) && Enabled(s, step)
    ensures SendersOwn(Apply(s, step).threads, Apply(s, step).h.owner)
  {
    EngineKeepsThreads(s, step);
    if s.h.owner.User? {
      EngineOwnership(s, step);
    }
    OwnerChanges(s.threads, s.h.owner, Apply(s, step).h.owner);
  }

  lemma StopKeepsOwning(s: System, step: Step)
    requires ByStop(step) && SendersOwn(s.threads, s.h.owner) && Enabled(s, step) && Apart(s)
    ensures SendersOwn(Apply(s, step).threads, Apply(s, step).h.owner)
  {
  }

  lemma OtherKeepsOwning(s: System, step: Step)
    requires (ByLifecycle(step) || ByServer(step)) && SendersOwn(s.threads, s.h.owner) && Enabled(s, step)
    ensures SendersOwn(Apply(s, step).threads, Apply(s, step).h.owner)
  {
  }

  lemma StepKeepsOwning(s: System, step: Step, s': System)
    requires Inv(s) && Settled(s) && Apart(s) && SendersOwn(s.threads, s.h.owner) && Next(s, step, s')
    ensures SendersOwn(s'.threads, s'.h.owner)
  {
    if ByCaller(step) {
      CallKeepsOwning(s, step);
    } else if ByEngine(step) {
      EngineKeepsOwning(s, step);
    } else if ByStop(step) {
      StopKeepsOwning(s, step);
    } else {
      OtherKeepsOwning(s, step);
    }
  }

  // ----- acceptance and resolution in one sequence

  /** Accepted messages are resolved strictly in order: nothing is dropped ahead of an older message. */
  ghost predicate InSequence(s: System) {
    s.h.accepted ==
    ResolvedTickets(s.h.resolved) + Pending(s.h.owner, s.threads, s.engine) + Tickets(s.client.queue)
  }

  lemma QueueKeepsSequence(s: System, tid: nat, m: Message, callback: Callback, wait: bool)
    requires ControlInv(s) && InSequence(s) && tid in s.threads && s.threads[tid].Checked? && s.client.pool != []
    ensures InSequence(CallQueued(s, tid, m, callback, wait, QueuedClient(s, m, callback)))
  {
    var s' := CallQueued(s, tid, m, callback, wait, QueuedClient(s, m, callback));
    assert Pending(s'.h.owner, s'.threads, s'.engine) == Pending(s.h.owner, s.threads, s.engine);
    AppendViews(s.client.queue, Entry(s.client.pool[0], m.ticket, callback));
  }

  lemma DirectKeepsSequence(s: System, tid: nat, m: Message, s': System)
    requires ControlInv(s) && InSequence(s) && tid in s.threads && s.threads[tid].Checked?
    requires s.client.slot.None? && s.open
    requires s'.h.accepted == s.h.accepted + [m.ticket]
    requires s'.h.resolved == s.h.resolved + [OnWire(m.ticket, m.payload)]
    requires s'.client.queue == s.client.queue && s'.threads == s.threads - {tid} && s'.engine == s.engine
    requires !s'.h.owner.User?
    ensures InSequence(s')
  {
    EmptySlotIsFree(s);
    ResolvedAppend(s.h.resolved, OnWire(m.ticket, m.payload));
    assert Tickets([]) == [];
  }

  lemma RefusedKeepsSequence(s: System, tid: nat, s': System)
    requires ControlInv(s) && InSequence(s) && tid in s.threads && s.threads[tid].Checked?
    requires s'.h.accepted == s.h.accepted && s'.h.resolved == s.h.resolved && s'.h.owner == s.h.owner
    requires s'.client.queue == s.client.queue && s'.threads == s.threads - {tid} && s'.engine == s.engine
    ensures InSequence(s')
  {
    assert Pending(s'.h.owner, s'.threads, s'.engine) == Pending(s.h.owner, s.threads, s.engine);
  }

  lemma EnterPlainKeepsSequence(s: System, tid: nat, m: Message, ok: bool)
    requires ControlInv(s) && InSequence(s) && tid in s.threads && s.threads[tid].Checked?
    ensures InSequence(EnterPlain(s, tid, m, ok))
  {
    var s' := EnterPlain(s, tid, m, ok);
    EnterPlainOutcome(s, tid, m, ok);
    if !s.cfg.fullyOrdered && !s.cfg.trulyAsync {
      RefusedKeepsSequence(s, tid, s');
    } else if s.client.slot.None? && !s.cfg.trulyAsync && s.open {
      DirectKeepsSequence(s, tid, m, s');
    } else if s.client.pool == [] || (s.client.slot.None? && !s.cfg.trulyAsync) {
      RefusedKeepsSequence(s, tid, s');
    } else {
      QueueKeepsSequence(s, tid, m, NoCallback, false);
    }
  }

  lemma EnterCallbackKeepsSequence(s: System, tid: nat, m: Message, callback: Callback, ok: bool)
    requires ControlInv(s) && InSequence(s) && tid in s.threads && s.threads[tid].Checked?
    ensures InSequence(EnterCallback(s, tid, m, callback, ok))
  {
    var s' := EnterCallback(s, tid, m, callback, ok);
    EnterCallbackOutcome(s, tid, m, callback, ok);
    if s.client.slot.None? && !s.cfg.trulyAsync && s.open {
      EmptySlotIsFree(s);
      DirectKeepsSequence(s, tid, m, s');
    } else if s.client.pool == [] || (s.client.slot.None? && !s.cfg.trulyAsync) {
      RefusedKeepsSequence(s, tid, s');
    } else {
      QueueKeepsSequence(s, tid, m, callback, false);
    }
  }

  lemma EnterWaitKeepsSequence(s: System, tid: nat, m: Message)
    requires ControlInv(s) && InSequence(s) && s.stop.NotStopping? && tid in s.threads && s.threads[tid].Checked?
    ensures InSequence(EnterWait(s, tid, m))
  {
    var s' := EnterWait(s, tid, m);
    EnterWaitOutcome(s, tid, m);
    if s.client.slot.None? {
      EmptySlotIsFree(s);
      assert Tickets([]) == [];
    } else if s.client.pool == [] {
      RefusedKeepsSequence(s, tid, s');
    } else {
      QueueKeepsSequence(s, tid, m, OnReply(m.ticket), true);
    }
  }

  lemma EnterKeepsSequence(s: System, tid: nat, ok: bool)
    requires ControlInv(s) && InSequence(s) && Apart(s) && tid in s.threads && s.threads[tid].Checked?
    ensures InSequence(DoEnter(s, tid, ok))
  {
    var call := s.threads[tid].call;
    var m := Message(s.h.next, call.payload);
    match call.kind {
      case PlainSend => EnterPlainKeepsSequence(s, tid, m, ok);
      case CallbackSend =>
        EnterCallbackKeepsSequence(s, tid, m, if call.withCallback then OnReply(m.ticket) else NoCallback, ok);
      case WaitSend => EnterWaitKeepsSequence(s, tid, m);
    }
  }

  lemma TransmitKeepsSequence(s: System, tid: nat, ok: bool)
    requires ControlInv(s) && InSequence(s) && tid in s.threads && s.threads[tid].Sending? && s.h.owner == User(tid)
    ensures InSequence(DoTransmit(s, tid, ok))
  {
    var m := s.threads[tid].m;
    ResolvedAppend(s.h.resolved, if s.open then OnWire(m.ticket, m.payload) else Dropped(m.ticket));
  }

  lemma ReturnKeepsSequence(s: System, tid: nat)
    requires ControlInv(s) && InSequence(s) && tid in s.threads && s.threads[tid].Sent?
    requires !s.threads[tid].ok ==> s.h.owner == User(tid)
    ensures InSequence(DoReturn(s, tid))
  {
    var s' := DoReturn(s, tid);
    assert Pending(s'.h.owner, s'.threads, s'.engine) == Pending(s.h.owner, s.threads, s.engine);
  }

  lemma LoopKeepsSequence(s: System)
    requires (s.engine.Idle? || s.engine.Deliver?) && s.h.owner.Nobody? && InSequence(s)
    ensures InSequence(DrainLoop(s))
  {
    if s.client.queue != [] {
      PopViews(s.client.queue);
      var s' := DrainLoop(s);
      assert Pending(s'.h.owner, s'.threads, s'.engine) == [s.client.queue[0].ticket];
    }
  }

  lemma RunAsyncKeepsSequence(s: System)
    requires ControlInv(s) && Settled(s) && InSequence(s) && s.engine.Idle? && s.client.armed
    ensures InSequence(DoRunAsync(s))
  {
    LoopKeepsSequence(s.(client := s.client.(armed := false), h := s.h.(owner := Nobody)));
  }

  lemma TakeReplyKeepsSequence(s: System)
    requires ControlInv(s) && LinkInv(s) && InSequence(s) && s.engine.GotReply?
    ensures InSequence(DoTakeReply(s))
  {
    ReplyFindsItsRequest(s);
    LoopKeepsSequence(ReplyTaken(s));
  }

  lemma DrainTransmitKeepsSequence(s: System, ok: bool)
    requires ControlInv(s) && InSequence(s) && s.engine.DrainSend?
    ensures InSequence(DoDrainTransmit(s, ok))
  {
    var e := s.engine.entry;
    ResolvedAppend(s.h.resolved, if s.open then OnWire(e.ticket, Stored(s.client, e.buffer)) else Dropped(e.ticket));
    assert Pending(s.h.owner, s.threads, s.engine) == [e.ticket];
  }

  lemma RelockKeepsSequence(s: System)
    requires ControlInv(s) && InSequence(s) && s.engine.DrainSent?
    ensures InSequence(DoDrainRelock(s))
  {
    if s.engine.entry.callback.NoCallback? {
      LoopKeepsSequence(PlainDrained(s));
    }
  }

  lemma CallbackDoneKeepsSequence(s: System)
    requires ControlInv(s) && Settled(s) && InSequence(s)
    requires s.engine.DrainError? || s.engine.Deliver? || s.engine.Notified?
    ensures InSequence(DoCallbackDone(s))
  {
    if s.engine.DrainError? {
      LoopKeepsSequence(ErrorReported(s));
    }
  }

  lemma EngineKeepsSequence(s: System, step: Step)
    requires ByEngine(step)
    requires Inv(s) && Settled(s) && InSequence(s) && Enabled(s, step)
    ensures InSequence(Apply(s, step))
  {
    match step {
      case RunAsync => RunAsyncKeepsSequence(s);
      case Receive => ReceiveOutcome(s);
      case TakeReply => TakeReplyKeepsSequence(s);
      case DrainTransmit(ok) => DrainTransmitKeepsSequence(s, ok);
      case DrainRelock => RelockKeepsSequence(s);
      case CallbackDone => CallbackDoneKeepsSequence(s);
    }
  }

  lemma BeginKeepsSequence(s: System, tid: nat, call: Call)
    requires ControlInv(s) && InSequence(s) && tid !in s.threads
    ensures InSequence(DoBegin(s, tid, call))
  {
    var s' := DoBegin(s, tid, call);
    assert Pending(s'.h.owner, s'.threads, s'.engine) == Pending(s.h.owner, s.threads, s.engine);
  }

  lemma WakeKeepsSequence(s: System, tid: nat)
    requires ControlInv(s) && InSequence(s) && tid in s.threads && s.threads[tid].Waiting?
    ensures InSequence(s.(threads := s.threads - {tid}))
  {
    var s' := s.(threads := s.threads - {tid});
    assert Pending(s'.h.owner, s'.threads, s'.engine) == Pending(s.h.owner, s.threads, s.engine);
  }

  lemma CallKeepsSequence(s: System, step: Step)
    requires ByCaller(step)
    requires Inv(s) && SendersOwn(s.threads, s.h.owner) && Apart(s) && InSequence(s) && Enabled(s, step)
    ensures InSequence(Apply(s, step))
  {
    match step {
      case Begin(tid, call) => BeginKeepsSequence(s, tid, call);
      case Enter(tid, ok) => EnterKeepsSequence(s, tid, ok);
      case Transmit(tid, ok) => TransmitKeepsSequence(s, tid, ok);
      case Return(tid) => ReturnKeepsSequence(s, tid);
      case Wake(tid) => WakeKeepsSequence(s, tid);
    }
  }

  lemma DropKeepsSequence(s: System)
    requires ControlInv(s) && Settled(s) && InSequence(s) && s.stop.Dropping?
    ensures InSequence(DoStopDrop(s))
  {
    if s.client.queue != [] {
      PopViews(s.client.queue);
      ResolvedAppend(s.h.resolved, Dropped(s.client.queue[0].ticket));
      assert Pending(s.h.owner, s.threads, s.engine) == [];
    }
  }

  lemma OtherKeepsSequence(s: System, step: Step)
    requires !ByCaller(step) && !ByEngine(step)
    requires Inv(s) && Settled(s) && SendersOwn(s.threads, s.h.owner) && Apart(s) && InSequence(s) && Enabled(s, step)
    ensures InSequence(Apply(s, step))
  {
    if step.StopDrop? {
      DropKeepsSequence(s);
    }
  }

  ghost predicate Sequential(s: System) {
    SendersOwn(s.threads, s.h.owner) && InSequence(s)
  }

  ghost predicate SequentialAt(states: seq<System>, i: nat)
    requires i < |states|
  {
    Sequential(states[i])
  }

  lemma StepKeepsSequence(s: System, step: Step, s': System)
    requires Inv(s) && Settled(s) && Apart(s) && Sequential(s) && Next(s, step, s')
    ensures Sequential(s')
  {
    StepKeepsOwning(s, step, s');
    if ByCaller(step) {
      CallKeepsSequence(s, step);
    } else if ByEngine(step) {
      EngineKeepsSequence(s, step);
    } else {
      OtherKeepsSequence(s, step);
    }
  }

  lemma OwningIsUndisturbed(s: System)
    requires ControlInv(s) && Apart(s) && SendersOwn(s.threads, s.h.owner)
    ensures Undisturbed(s)
  {
  }

  lemma ApartIsConsiderate(s: System, step: Step)
    requires Apart(s)
    ensures Considerate(s, step)
  {
  }

  lemma SequentialStep(cfg: Config, n: nat, states: seq<System>, steps: seq<Step>, i: nat)
    requires IsApartRun(cfg, n, states, steps) && i < |steps|
    requires OrderlyBefore(states, steps, i) && SettledAt(states, i) && SequentialAt(states, i)
    ensures OrderlyAt(states, steps, i) && SequentialAt(states, i + 1) && ConsiderateAt(states, steps, i)
  {
    assert NextAt(states, steps, i) && ApartAt(states, i);
    OrderlyRunsKeepInv(cfg, n, states, steps, i);
    ApartIsConsiderate(states[i], steps[i]);
    SettledIsOrderly(states[i], steps[i]);
    StepKeepsSequence(states[i], steps[i], states[i + 1]);
  }

  lemma SequentialIsUndisturbed(cfg: Config, n: nat, states: seq<System>, steps: seq<Step>, i: nat)
    requires IsApartRun(cfg, n, states, steps) && i < |states|
    requires OrderlyBefore(states, steps, i) && SequentialAt(states, i)
    ensures UndisturbedAt(states, i)
  {
    assert ApartAt(states, i);
    OrderlyRunsKeepInv(cfg, n, states, steps, i);
    OwningIsUndisturbed(states[i]);
  }

  lemma SequentialAtFirst(cfg: Config, n: nat)
    ensures Sequential(InitialSystem(cfg, n))
  {
    assert Tickets([]) == [] && ResolvedTickets([]) == [];
  }

  lemma {:induction false} ApartRunsAreSequential(cfg: Config, n: nat, states: seq<System>, steps: seq<Step>, i: nat)
    requires IsApartRun(cfg, n, states, steps) && i < |states|
    ensures OrderlyBefore(states, steps, i) && SettledAt(states, i) && SequentialAt(states, i)
  {
    if i == 0 {
      SettledAtFirst(cfg, n);
      SequentialAtFirst(cfg, n);
    } else {
      ApartRunsAreSequential(cfg, n, states, steps, i - 1);
      SequentialStep(cfg, n, states, steps, i - 1);
      SequentialIsUndisturbed(cfg, n, states, steps, i - 1);
      SequentialIsUndisturbed(cfg, n, states, steps, i);
      SettledStep(cfg, n, states, steps, i - 1);
    }
  }

  /** If moreover no call transmits by itself while a stop runs, drops too follow the order of acceptance. */
  lemma ResolvedInSequence(cfg: Config, n: nat, states: seq<System>, steps: seq<Step>, i: nat)
    requires IsApartRun(cfg, n, states, steps) && i < |states|
    ensures ResolvedTickets(states[i].h.resolved) <= states[i].h.accepted
  {
    ApartRunsAreSequential(cfg, n, states, steps, i);
  }

  /** No thread is in SendWaitReply. */
  ghost predicate NoWaits(threads: map<nat, Pc>) {
    forall tid :: tid in threads ==> threads[tid].Checked? && !threads[tid].call.kind.WaitSend?
  }

  lemma EnterKeepsNoWaits(s: System, tid: nat, ok: bool)
    requires NoWaits(s.threads) && tid in s.threads
    ensures NoWaits(DoEnter(s, tid, ok).threads) && DoEnter(s, tid, ok).cfg == s.cfg
  {
    var call := s.threads[tid].call;
    var m := Message(s.h.next, call.payload);
    if call.kind.PlainSend? {
      EnterPlainOutcome(s, tid, m, ok);
    } else {
      EnterCallbackOutcome(s, tid, m, if call.withCallback then OnReply(m.ticket) else NoCallback, ok);
    }
  }

  ghost predicate KeepsThreads(s: System, s': System) {
    s'.threads == s.threads && s'.cfg == s.cfg
  }

  lemma LoopKeepsThreads(s: System)
    requires s.engine.Idle? || s.engine.Deliver?
    ensures KeepsThreads(s, DrainLoop(s))
  {
  }

  lemma EngineKeepsThreads(s: System, step: Step)
    requires Enabled(s, step) && ByEngine(step)
    ensures KeepsThreads(s, Apply(s, step))
  {
    match step {
      case RunAsync =>
        LoopKeepsThreads(s.(client := s.client.(armed := false), h := s.h.(owner := AfterAsync(s.h.owner))));
      case TakeReply =>
        if s.client.slot.Some? {
          LoopKeepsThreads(ReplyTaken(s));
        }
      case DrainRelock => LoopKeepsThreads(PlainDrained(s));
      case CallbackDone =>
        if s.engine.DrainError? {
          LoopKeepsThreads(ErrorReported(s));
        }
      case _ =>
    }
  }

  lemma StopKeepsThreads(s: System, step: Step)
    requires Enabled(s, step)
    requires ByStop(step)
    ensures KeepsThreads(s, Apply(s, step))
  {
  }

  lemma OtherKeepsThreads(s: System, step: Step)
    requires Enabled(s, step)
    requires ByLifecycle(step) || ByServer(step)
    ensures KeepsThreads(s, Apply(s, step))
  {
  }

  lemma StepKeepsNoWaits(s: System, step: Step, s': System)
    requires NoWaits(s.threads) && Next(s, step, s') && (step.Begin? ==> !step.call.kind.WaitSend?)
    ensures NoWaits(s'.threads) && s'.cfg == s.cfg
  {
    if step.Enter? {
      EnterKeepsNoWaits(s, step.tid, step.ok);
    } else if ByEngine(step) {
      EngineKeepsThreads(s, step);
    } else if ByStop(step) {
      StopKeepsThreads(s, step);
    } else if !step.Begin? && !step.Transmit? && !step.Return? && !step.Wake? {
      OtherKeepsThreads(s, step);
    }
  }

  lemma {:induction false} NoWaitsThroughout(cfg: Config, n: nat, states: seq<System>, steps: seq<Step>, i: nat)
    requires IsRun(cfg, n, states, steps) && i < |states|
    requires forall k :: 0 <= k < |steps| ==> steps[k].Begin? ==> !steps[k].call.kind.WaitSend?
    ensures NoWaits(states[i].threads) && states[i].cfg == cfg
  {
    if i > 0 {
      NoWaitsThroughout(cfg, n, states, steps, i - 1);
      assert NextAt(states, steps, i - 1);
      StepKeepsNoWaits(states[i - 1], steps[i - 1], states[i]);
    }
  }

  /** A connection without truly_async on which SendWaitReply is not used is orderly in every run, whenever it stops. */
  lemma WithoutAsyncAndWaits(cfg: Config, n: nat, states: seq<System>, steps: seq<Step>)
    requires IsRun(cfg, n, states, steps) && !cfg.trulyAsync
    requires forall k :: 0 <= k < |steps| ==> steps[k].Begin? ==> !steps[k].call.kind.WaitSend?
    ensures IsOrderlyRun(cfg, n, states, steps)
  {
    forall i | 0 <= i < |states|
      ensures ApartAt(states, i)
    {
      NoWaitsThroughout(cfg, n, states, steps, i);
    }
    ApartRunsAreSequential(cfg, n, states, steps, |steps|);
  }
}
