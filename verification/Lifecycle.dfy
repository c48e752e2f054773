/**
 Starting, stopping and restarting a client connection: who wins the stop
 reason, how often SwitchToStopState runs, and what happens to the descriptor.

 Threads may interleave between any two accesses to the shared atomics. The
 first connection attempt is made by the engine thread.
 */
module Lifecycle {
  import opened Basics

  const RETRY_START := 50
  const RETRY_DIVISOR := 3
  const RETRY_MAX := 5000

  datatype State = Starting | Ready | Stopping | Stopped

  datatype Reason = NoReason | Init | UserRequested | Permission | ClosedByPeer | IoError

  /** DoRestart: the stop reason is reset, then the state is set, then the connect command is enqueued. */
  datatype RestartPc = NotRestarting | ReasonReset | StateSet

  datatype EnginePc =
    | Idle
    | Connecting              // in TryConnect, the descriptor not yet requested
    | Opened                  // the descriptor is stored
    | InCallback              // user code runs on the engine thread
    | Failing(reason: Reason) // about to compete for the stop reason
    | EngineWon               // won it, the state not yet set
    | SwitchStart             // SwitchToStopState: about to clean up the engine commands
    | SwitchCleaned           // about to close the descriptor
    | SwitchClosed            // about to set kStopped

  datatype Life = Life(
    state: State,
    reason: Reason,
    fd: Option<int>,
    connectCmds: nat,                // times connection_timer_ is linked
    disconnectCmds: nat,             // times disconnection_command_ is linked
    retryMs: int,
    restart: RestartPc,
    wonThreads: nat,                 // user threads in Stop() that won, the state not yet set
    markedThreads: nat,              // the state set, the disconnect command not yet enqueued
    engine: EnginePc,
    opens: nat,
    closes: nat,
    wins: nat,                       // won stop attempts since the last reset of the reason
    switches: nat)                   // SwitchToStopState runs since then

  datatype Step =
    | RestartReset | RestartMark | RestartEnqueue
    | UserStop | UserMark | UserEnqueue
    | RunConnect | OpenOk(fd: int) | OpenRetry | OpenFail(reason: Reason) | BecomeReady
    | InputError(reason: Reason) | CallbackBegin | CallbackStop | CallbackEnd
    | EngineStop | EngineMark | RunDisconnect | SwitchClean | SwitchClose | SwitchEnd

  /** A connection is created stopped, as if one stop had won and ended. */
  predicate Initial(l: Life) {
    && l.state.Stopped? && l.reason.Init? && l.fd.None? && l.restart.NotRestarting? && l.engine.Idle?
    && l.connectCmds == 0 && l.disconnectCmds == 0 && l.wonThreads == 0 && l.markedThreads == 0
    && l.retryMs == RETRY_START && l.opens == 0 && l.closes == 0 && l.wins == 1 && l.switches == 1
  }

  /** The delay after one more refused attempt: a third more, as long as that stays within the maximum. */
  function NextRetry(ms: int): int {
    var increase := (ms + RETRY_DIVISOR - 1) / RETRY_DIVISOR;
    if increase <= RETRY_MAX && ms <= RETRY_MAX - increase then ms + increase else ms
  }

  predicate Enabled(l: Life, step: Step) {
    match step
    case RestartReset => l.state.Stopped? && l.restart.NotRestarting?
    case RestartMark => l.restart.ReasonReset?
    case RestartEnqueue => l.restart.StateSet?
    case UserStop => true
    case UserMark => l.wonThreads > 0
    case UserEnqueue => l.markedThreads > 0
    case RunConnect => l.engine.Idle? && l.connectCmds > 0
    case OpenOk(fd) => l.engine.Connecting? && fd >= 0
    case OpenRetry => l.engine.Connecting?
    case OpenFail(reason) => l.engine.Connecting? && (reason.Permission? || reason.IoError?)
    case BecomeReady => l.engine.Opened?
    case InputError(reason) => l.engine.Idle? && l.fd.Some? && (reason.ClosedByPeer? || reason.IoError?)
    case CallbackBegin => l.engine.Idle? && l.fd.Some?
    case CallbackStop => l.engine.InCallback?
    case CallbackEnd => l.engine.InCallback?
    case EngineStop => l.engine.Failing?
    case EngineMark => l.engine.EngineWon?
    case RunDisconnect => l.engine.Idle? && l.disconnectCmds > 0
    case SwitchClean => l.engine.SwitchStart?
    case SwitchClose => l.engine.SwitchCleaned?
    case SwitchEnd => l.engine.SwitchClosed?
  }

  /** The compare-and-exchange of TrySetStopReason. */
  function TrySet(l: Life, reason: Reason): (Life, bool) {
    if l.reason.NoReason? then (l.(reason := reason, wins := l.wins + 1), true) else (l, false)
  }

  /** A winner has set kStopping and its SwitchToStopState has not begun. */
  predicate StopMarked(l: Life) {
    l.markedThreads > 0 || l.disconnectCmds > 0 || l.engine.SwitchStart?
  }

  function Apply(l: Life, step: Step): Life
    requires Enabled(l, step)
  {
    match step
    case RestartReset => l.(reason := NoReason, restart := ReasonReset, wins := 0, switches := 0)
    case RestartMark => l.(state := Starting, restart := StateSet)
    case RestartEnqueue => l.(connectCmds := l.connectCmds + 1, retryMs := RETRY_START, restart := NotRestarting)
    case UserStop =>
      var (l', won) := TrySet(l, UserRequested);
      if won then l'.(wonThreads := l.wonThreads + 1) else l
    case UserMark => l.(state := Stopping, wonThreads := l.wonThreads - 1, markedThreads := l.markedThreads + 1)
    case UserEnqueue => l.(disconnectCmds := l.disconnectCmds + 1, markedThreads := l.markedThreads - 1)
    case RunConnect => l.(connectCmds := l.connectCmds - 1, engine := Connecting)
    case OpenOk(fd) => l.(fd := Some(fd), opens := l.opens + 1, engine := Opened)
    case OpenRetry => l.(connectCmds := l.connectCmds + 1, retryMs := NextRetry(l.retryMs), engine := Idle)
    case OpenFail(reason) => l.(engine := Failing(reason))
    case BecomeReady => l.(state := Ready, engine := InCallback)
    case InputError(reason) => l.(engine := Failing(reason))
    case CallbackBegin => l.(engine := InCallback)
    case CallbackStop =>
      var (l', won) := TrySet(l, UserRequested);
      if won then l'.(engine := EngineWon) else l
    case CallbackEnd => l.(engine := Idle)
    case EngineStop =>
      var (l', won) := TrySet(l, l.engine.reason);
      if won then l'.(engine := EngineWon) else l.(engine := Idle)
    case EngineMark => l.(state := Stopping, engine := SwitchStart)
    case RunDisconnect => l.(disconnectCmds := l.disconnectCmds - 1, engine := SwitchStart)
    case SwitchClean => l.(connectCmds := 0, disconnectCmds := 0, switches := l.switches + 1, engine := SwitchCleaned)
    case SwitchClose =>
      if l.fd.Some? then l.(fd := None, closes := l.closes + 1, engine := SwitchClosed) else l.(engine := SwitchClosed)
    case SwitchEnd => l.(state := Stopped, engine := InCallback)
  }

  ghost predicate Next(l: Life, step: Step, l': Life) {
    Enabled(l, step) && l' == Apply(l, step)
  }

  ghost predicate IsRun(states: seq<Life>, steps: seq<Step>) {
    && |states| == |steps| + 1
    && Initial(states[0])
    && forall i :: 0 <= i < |steps| ==> Next(states[i], steps[i], states[i + 1])
  }

  /** No SwitchToStopState begins while a restart has not yet enqueued its connect command. */
  ghost predicate Calm(l: Life) {
    !l.restart.NotRestarting? ==> l.switches == 0
  }

  // ----- the invariant

  /** The engine thread is on its way from a won attempt to the clean-up. */
  predicate EngineStops(pc: EnginePc) {
    pc.EngineWon? || pc.SwitchStart?
  }

  predicate Switching(pc: EnginePc) {
    pc.SwitchCleaned? || pc.SwitchClosed?
  }

  function One(b: bool): nat {
    if b then 1 else 0
  }

  /** What may still end in an open descriptor, or is one. */
  function ConnectTokens(l: Life): nat {
    One(!l.restart.NotRestarting?) + l.connectCmds + One(l.engine.Connecting?) + One(l.fd.Some?)
  }

  /** Each won attempt is carried by one user thread, one command, or the engine, until it cleans up. */
  function StopTokens(l: Life): nat {
    l.wonThreads + l.markedThreads + l.disconnectCmds + One(EngineStops(l.engine))
  }

  ghost predicate StopSound(l: Life) {
    && l.wins <= 1
    && (l.reason.NoReason? <==> l.wins == 0)
    && StopTokens(l) + l.switches == l.wins
    && (Switching(l.engine) ==> l.switches == 1)
    && (l.engine.Failing? ==> !l.engine.reason.NoReason?)
  }

  ghost predicate DescriptorSound(l: Life) {
    && l.opens == l.closes + One(l.fd.Some?)
    && ConnectTokens(l) <= 1
    && (l.engine.Opened? ==> l.fd.Some? && l.switches == 0)
    && (l.switches == 1 ==> l.connectCmds == 0 && !l.engine.Connecting? && l.restart.NotRestarting?)
    && (l.switches == 1 && !l.engine.SwitchCleaned? ==> l.fd.None?)
  }

  ghost predicate StateSound(l: Life) {
    && (l.switches == 1 && !Switching(l.engine) ==> l.state.Stopped?)
    && (l.state.Stopped? && l.restart.NotRestarting? ==> l.switches == 1)
    && (l.state.Stopped? ==> !Switching(l.engine) && !StopMarked(l))
    && (l.restart.StateSet? ==> !l.state.Stopped?)
  }

  ghost predicate Sound(l: Life) {
    && StopSound(l)
    && DescriptorSound(l)
    && StateSound(l)
    && RETRY_START <= l.retryMs <= RETRY_MAX
  }

  lemma InitiallySound(l: Life)
    requires Initial(l)
    ensures Sound(l)
  {
    InitiallyStopSound(l);
    InitiallyDescriptorSound(l);
    InitiallyStateSound(l);
  }

  lemma InitiallyStopSound(l: Life)
    requires l.wins == 1 && l.switches == 1 && l.reason.Init? && l.engine.Idle?
    requires l.wonThreads == 0 && l.markedThreads == 0 && l.disconnectCmds == 0
    ensures StopSound(l)
  {
  }

  lemma InitiallyDescriptorSound(l: Life)
    requires Initial(l)
    ensures DescriptorSound(l)
  {
  }

  lemma InitiallyStateSound(l: Life)
    requires Initial(l)
    ensures StateSound(l)
  {
  }

  lemma RestartKeepsSound(l: Life, step: Step)
    requires step.RestartReset? || step.RestartMark? || step.RestartEnqueue?
    requires Sound(l) && Calm(l) && Enabled(l, step)
    ensures Sound(Apply(l, step))
  {
  }

  lemma UserKeepsSound(l: Life, step: Step)
    requires step.UserStop? || step.UserMark? || step.UserEnqueue?
    requires Sound(l) && Enabled(l, step)
    ensures Sound(Apply(l, step))
  {
  }

  lemma ConnectKeepsSound(l: Life, step: Step)
    requires step.RunConnect? || step.OpenOk? || step.OpenRetry? || step.OpenFail? || step.BecomeReady?
    requires Sound(l) && Enabled(l, step)
    ensures Sound(Apply(l, step))
  {
    if step.OpenRetry? {
      RetryDelays(l.retryMs);
    }
  }

  lemma CallbackKeepsSound(l: Life, step: Step)
    requires step.InputError? || step.CallbackBegin? || step.CallbackStop? || step.CallbackEnd? || step.EngineStop?
             || step.EngineMark?
    requires Sound(l) && Enabled(l, step)
    ensures Sound(Apply(l, step))
  {
  }

  lemma SwitchKeepsSound(l: Life, step: Step)
    requires step.RunDisconnect? || step.SwitchClean? || step.SwitchClose? || step.SwitchEnd?
    requires Sound(l) && Calm(l) && Enabled(l, step) && Calm(Apply(l, step))
    ensures Sound(Apply(l, step))
  {
  }

  lemma StepKeepsSound(l: Life, step: Step)
    requires Sound(l) && Calm(l) && Enabled(l, step) && Calm(Apply(l, step))
    ensures Sound(Apply(l, step))
  {
    if step.RestartReset? || step.RestartMark? || step.RestartEnqueue? {
      RestartKeepsSound(l, step);
    } else if step.UserStop? || step.UserMark? || step.UserEnqueue? {
      UserKeepsSound(l, step);
    } else if step.RunConnect? || step.OpenOk? || step.OpenRetry? || step.OpenFail? || step.BecomeReady? {
      ConnectKeepsSound(l, step);
    } else if step.RunDisconnect? || step.SwitchClean? || step.SwitchClose? || step.SwitchEnd? {
      SwitchKeepsSound(l, step);
    } else {
      CallbackKeepsSound(l, step);
    }
  }

  ghost predicate IsCalmRun(states: seq<Life>, steps: seq<Step>) {
    IsRun(states, steps) && forall i :: 0 <= i < |states| ==> Calm(states[i])
  }

  lemma {:induction false} CalmRunsAreSound(states: seq<Life>, steps: seq<Step>)
    requires IsCalmRun(states, steps)
    ensures Sound(states[|steps|])
    decreases |steps|
  {
    if |steps| == 0 {
      InitiallySound(states[0]);
    } else {
      var n := |steps| - 1;
      CalmRunsAreSound(states[..|steps|], steps[..n]);
      assert Next(states[n], steps[n], states[n + 1]);
      assert Calm(states[n]) && Calm(states[n + 1]);
      StepKeepsSound(states[n], steps[n]);
    }
  }

  /** Between two restarts one stop attempt wins, and SwitchToStopState begins once, for that winner. */
  lemma StopsOncePerSession(states: seq<Life>, steps: seq<Step>)
    requires IsCalmRun(states, steps)
    ensures var l := states[|steps|];
            && l.switches <= l.wins <= 1
            && (l.wins == 1 && l.switches == 0 <==> StopTokens(l) == 1)
            && (l.state.Stopped? && l.restart.NotRestarting? ==> l.switches == 1 && StopTokens(l) == 0)
  {
    CalmRunsAreSound(states, steps);
  }

  /**
   Every descriptor that was opened is closed once, except the current one; a new one is only stored
   where there is none; and a stopped connection has none, nor anything left that could open one.
   */
  lemma DescriptorsAreClosed(states: seq<Life>, steps: seq<Step>)
    requires IsCalmRun(states, steps)
    ensures var l := states[|steps|];
            && l.opens == l.closes + One(l.fd.Some?)
            && (l.engine.Connecting? ==> l.fd.None?)
            && (l.state.Stopped? ==> l.opens == l.closes && l.connectCmds == 0 && !l.engine.Connecting?)
  {
    CalmRunsAreSound(states, steps);
  }

  // ----- the state in which SwitchToStopState begins

  /** A winner sets kStopping. */
  predicate IsMark(step: Step) {
    step.UserMark? || step.EngineMark?
  }

  /** Another state is set. */
  predicate SetsOther(step: Step) {
    step.BecomeReady? || step.RestartMark?
  }

  /** Step k set kStopping for the stop under way at n. */
  ghost predicate MarkedBy(steps: seq<Step>, k: nat, n: nat) {
    k < n <= |steps| && IsMark(steps[k]) && forall i :: k < i < n ==> !IsMark(steps[i]) && !steps[i].RestartReset?
  }

  ghost predicate NoOtherSince(steps: seq<Step>, k: nat, n: nat)
    requires k < n <= |steps|
  {
    forall i :: k < i < n ==> !SetsOther(steps[i])
  }

  lemma MarkedStep(l: Life, step: Step)
    requires Sound(l) && Enabled(l, step) && StopMarked(Apply(l, step))
    ensures !StopMarked(l) ==> IsMark(step) && Apply(l, step).state.Stopping?
    ensures StopMarked(l) ==>
              && !IsMark(step) && !step.RestartReset?
              && (Apply(l, step).state.Stopping? <==> l.state.Stopping? && !SetsOther(step))
  {
  }

  lemma {:induction false} MarkOf(states: seq<Life>, steps: seq<Step>, n: nat) returns (k: nat)
    requires IsCalmRun(states, steps) && n <= |steps| && StopMarked(states[n])
    ensures MarkedBy(steps, k, n) && (states[n].state.Stopping? <==> NoOtherSince(steps, k, n))
  {
    if n == 0 {
      assert false;
    } else {
      SoundAt(states, steps, n - 1);
      assert Next(states[n - 1], steps[n - 1], states[n - 1 + 1]);
      MarkedStep(states[n - 1], steps[n - 1]);
      if StopMarked(states[n - 1]) {
        k := MarkOf(states, steps, n - 1);
      } else {
        k := n - 1;
      }
    }
  }

  lemma SoundAt(states: seq<Life>, steps: seq<Step>, n: nat)
    requires IsCalmRun(states, steps) && n <= |steps|
    ensures Sound(states[n])
  {
    CalmRunsAreSound(states[..n + 1], steps[..n]);
  }

  /**
   SwitchToStopState asserts kStopping. That holds if and only if neither kReady nor kStarting was set after the winner
   of the stop set kStopping.
   */
  lemma StoppingWhenSwitching(states: seq<Life>, steps: seq<Step>, n: nat) returns (k: nat)
    requires IsCalmRun(states, steps) && n <= |steps| && states[n].engine.SwitchStart?
    ensures MarkedBy(steps, k, n) && (states[n].state.Stopping? <==> NoOtherSince(steps, k, n))
    ensures !states[n].reason.NoReason?
  {
    SoundAt(states, steps, n);
    k := MarkOf(states, steps, n);
  }

  /** Nothing is under way that could end in kReady or kStarting. */
  predicate NoConnectPending(l: Life) {
    l.restart.NotRestarting? && l.connectCmds == 0 && !l.engine.Connecting? && !l.engine.Opened?
  }

  lemma NoConnectStays(l: Life, step: Step)
    requires Sound(l) && Enabled(l, step) && NoConnectPending(l) && l.state.Stopping? && !step.SwitchEnd?
    ensures NoConnectPending(Apply(l, step)) && Apply(l, step).state.Stopping?
  {
  }

  /**
   So a stop whose winner sets kStopping while no restart or connect is under way finds kStopping in
   SwitchToStopState, and until that ends.
   */
  lemma {:induction false} StopWithoutConnect(states: seq<Life>, steps: seq<Step>, k: nat, n: nat)
    requires IsCalmRun(states, steps) && k < n <= |steps| && IsMark(steps[k]) && NoConnectPending(states[k])
    requires forall i :: k < i < n ==> !steps[i].SwitchEnd?
    ensures states[n].state.Stopping? && NoConnectPending(states[n])
    decreases n
  {
    SoundAt(states, steps, n - 1);
    assert Next(states[n - 1], steps[n - 1], states[n - 1 + 1]);
    if k < n - 1 {
      StopWithoutConnect(states, steps, k, n - 1);
      NoConnectStays(states[n - 1], steps[n - 1]);
    }
  }

  /** The clean-up keeps the connection sound exactly when it does not overtake a restart. */
  lemma SwitchSoundIffNotRestarting(l: Life)
    requires Sound(l) && l.engine.SwitchStart?
    ensures Sound(Apply(l, SwitchClean)) <==> l.restart.NotRestarting?
  {
  }

  lemma RetryDelays(ms: int)
    requires RETRY_START <= ms <= RETRY_MAX
    ensures ms <= NextRetry(ms) <= RETRY_MAX
    ensures NextRetry(ms) == ms <==> ms > 3750
    ensures ms <= 3750 ==> 3 * ms + ms <= 3 * NextRetry(ms) <= 3 * ms + ms + 2
  {
  }

  // ----- runs outside the condition

  ghost predicate RunTo(states: seq<Life>, steps: seq<Step>, l: Life) {
    IsRun(states, steps) && states[|steps|] == l
  }

  lemma Extend(states: seq<Life>, steps: seq<Step>, l: Life, step: Step, l': Life)
    returns (states': seq<Life>, steps': seq<Step>)
    requires RunTo(states, steps, l) && Next(l, step, l')
    ensures RunTo(states', steps', l')
    ensures IsCalmRun(states, steps) && Calm(l') ==> IsCalmRun(states', steps')
  {
    states', steps' := states + [l'], steps + [step];
    forall i | 0 <= i < |steps'|
      ensures Next(states'[i], steps'[i], states'[i + 1])
    {
      if i < |steps| {
        assert Next(states[i], steps[i], states[i + 1]);
      }
    }
  }

  lemma ExtendTwice(states: seq<Life>, steps: seq<Step>, l: Life, a: Step, l1: Life, b: Step, l2: Life)
    returns (states': seq<Life>, steps': seq<Step>)
    requires RunTo(states, steps, l) && Next(l, a, l1) && Next(l1, b, l2)
    ensures RunTo(states', steps', l2)
    ensures IsCalmRun(states, steps) && Calm(l1) && Calm(l2) ==> IsCalmRun(states', steps')
  {
    states', steps' := Extend(states, steps, l, a, l1);
    states', steps' := Extend(states', steps', l1, b, l2);
  }

  /** In the kStarting state callback: the restart has not enqueued its connect command yet. */
  function InStartingCallback(): Life {
    Life(Starting, NoReason, None, 0, 0, RETRY_START, StateSet, 0, 0, Idle, 0, 0, 0, 0)
  }

  lemma ReachStartingCallback() returns (states: seq<Life>, steps: seq<Step>)
    ensures RunTo(states, steps, InStartingCallback()) && IsCalmRun(states, steps)
  {
    var l := InStartingCallback().(state := Stopped, reason := Init, restart := NotRestarting, wins := 1,
                                   switches := 1);
    states, steps := [l], [];
    var l1 := l.(reason := NoReason, restart := ReasonReset, wins := 0, switches := 0);
    states, steps := ExtendTwice(states, steps, l, RestartReset, l1, RestartMark, InStartingCallback());
  }

  /** The stop has completed, and the restart has still not enqueued its connect command. */
  function StoppedInCallback(): Life {
    InStartingCallback().(state := Stopped, reason := UserRequested, wins := 1, switches := 1)
  }

  /** Stop() called where the kStarting callback runs: from there through to kStopped. */
  lemma ReachStoppedInCallback() returns (states: seq<Life>, steps: seq<Step>)
    ensures RunTo(states, steps, StoppedInCallback())
  {
    var l := InStartingCallback();
    states, steps := ReachStartingCallback();
    var l1 := l.(reason := UserRequested, wins := 1, wonThreads := 1);
    var l2 := l.(reason := UserRequested, wins := 1, state := Stopping);
    states, steps := ExtendTwice(states, steps, l, UserStop, l1, UserMark, l2.(markedThreads := 1));
    states, steps := ExtendTwice(states, steps, l2.(markedThreads := 1),
                                 UserEnqueue, l2.(disconnectCmds := 1), RunDisconnect, l2.(engine := SwitchStart));
    var l3 := l2.(switches := 1);
    states, steps := ExtendTwice(states, steps, l2.(engine := SwitchStart),
                                 SwitchClean, l3.(engine := SwitchCleaned), SwitchClose, l3.(engine := SwitchClosed));
    var l4 := l3.(state := Stopped);
    states, steps := ExtendTwice(states, steps, l3.(engine := SwitchClosed),
                                 SwitchEnd, l4.(engine := InCallback), CallbackEnd, l4);
  }

  /** Ready, with an open descriptor, and its stop reason already spent. */
  predicate Unstoppable(l: Life) {
    && l.state.Ready? && l.fd.Some? && !l.reason.NoReason?
    && StopTokens(l) == 0 && !Switching(l.engine)
    && l.restart.NotRestarting? && l.connectCmds == 0 && !l.engine.Connecting? && !l.engine.Opened?
  }

  lemma ReadyIsUnstoppable(l: Life)
    requires l.state.Ready? && l.fd.Some? && l.reason.UserRequested? && l.engine.InCallback?
    requires l.wonThreads == 0 && l.markedThreads == 0 && l.disconnectCmds == 0
    requires l.restart.NotRestarting? && l.connectCmds == 0
    ensures Unstoppable(l)
  {
  }

  /** After that stop has completed, the connect still follows, and its connection cannot be stopped. */
  lemma StopWhileStarting(states: seq<Life>, steps: seq<Step>)
    returns (states': seq<Life>, steps': seq<Step>, l': Life)
    requires RunTo(states, steps, StoppedInCallback())
    ensures RunTo(states', steps', l') && Unstoppable(l')
  {
    var l := StoppedInCallback();
    var l1 := l.(restart := NotRestarting);
    states', steps' := ExtendTwice(states, steps, l, RestartEnqueue, l1.(connectCmds := 1),
                                   RunConnect, l1.(engine := Connecting));
    var l2 := l1.(fd := Some(5), opens := 1);
    l' := l2.(state := Ready, engine := InCallback);
    states', steps' := ExtendTwice(states', steps', l1.(engine := Connecting),
                                   OpenOk(5), l2.(engine := Opened), BecomeReady, l');
    ReadyIsUnstoppable(l');
  }

  /** From there on no call and no event closes the connection, whatever the run does. */
  lemma {:induction false} UnstoppableForever(states: seq<Life>, steps: seq<Step>, k: nat, n: nat)
    requires IsRun(states, steps) && k <= n <= |steps| && Unstoppable(states[k])
    ensures Unstoppable(states[n]) && states[n].fd == states[k].fd
    decreases n
  {
    if k < n {
      UnstoppableForever(states, steps, k, n - 1);
      assert Next(states[n - 1], steps[n - 1], states[n - 1 + 1]);
    }
  }

  /** A calm run, stopped by the user while the connect command is pending: SwitchToStopState begins in kReady. */
  lemma ReadyReplacesStopping() returns (states: seq<Life>, steps: seq<Step>)
    ensures IsCalmRun(states, steps)
    ensures states[|steps|].engine.SwitchStart? && states[|steps|].state.Ready?
  {
    var l := InStartingCallback();
    states, steps := ReachStartingCallback();
    var l1 := l.(restart := NotRestarting, connectCmds := 1);
    var l2 := l1.(reason := UserRequested, wins := 1);
    states, steps := ExtendTwice(states, steps, l, RestartEnqueue, l1, UserStop, l2.(wonThreads := 1));
    var l3 := l2.(state := Stopping);
    states, steps := ExtendTwice(states, steps, l2.(wonThreads := 1),
                                 UserMark, l3.(markedThreads := 1), UserEnqueue, l3.(disconnectCmds := 1));
    var l4 := l3.(connectCmds := 0, disconnectCmds := 1);
    var l5 := l4.(fd := Some(5), opens := 1);
    states, steps := ExtendTwice(states, steps, l3.(disconnectCmds := 1),
                                 RunConnect, l4.(engine := Connecting), OpenOk(5), l5.(engine := Opened));
    var l6 := l5.(state := Ready);
    states, steps := ExtendTwice(states, steps, l5.(engine := Opened),
                                 BecomeReady, l6.(engine := InCallback), CallbackEnd, l6);
    states, steps := Extend(states, steps, l6, RunDisconnect, l6.(disconnectCmds := 0, engine := SwitchStart));
  }
}
