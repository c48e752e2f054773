/**
 Concrete runs that are not orderly, or in which a buffer is borrowed again
 before its transmission, and what the stuck state means for the connection.
 */
module RequestReplyRaces {
  import opened Basics
  import opened ClientSections
  import opened RequestReply
  import opened RequestReplyInvariant
  import opened RequestReplyCalls
  import opened RequestReplySafety
  import Srv = ServerSections

  /** A run of the given configuration, without notification buffers, that ends in the given state. */
  ghost predicate RunTo(cfg: Config, states: seq<System>, steps: seq<Step>, s: System) {
    IsRun(cfg, 0, states, steps) && states[|steps|] == s
  }

  lemma Extend(cfg: Config, states: seq<System>, steps: seq<Step>, step: Step, s: System, s': System)
    returns (states': seq<System>, steps': seq<Step>)
    requires RunTo(cfg, states, steps, s) && Next(s, step, s')
    ensures RunTo(cfg, states', steps', s') && states' == states + [s'] && steps' == steps + [step]
  {
    states', steps' := states + [s'], steps + [step];
    forall i | 0 <= i < |steps'|
      ensures NextAt(states', steps', i)
    {
      if i < |steps| {
        assert NextAt(states, steps, i);
      }
    }
  }

  /** Two or three further steps. */
  lemma ExtendTwice(cfg: Config, states: seq<System>, steps: seq<Step>, s: System,
                    a: Step, s1: System, b: Step, s2: System)
    returns (states': seq<System>, steps': seq<Step>)
    requires RunTo(cfg, states, steps, s) && Next(s, a, s1) && Next(s1, b, s2)
    ensures RunTo(cfg, states', steps', s2) && states' == states + [s1, s2] && steps' == steps + [a, b]
  {
    states', steps' := Extend(cfg, states, steps, a, s, s1);
    states', steps' := Extend(cfg, states', steps', b, s1, s2);
  }

  function Fire(payload: Bytes): Call { Call(PlainSend, payload, false) }

  function Ask(payload: Bytes): Call { Call(CallbackSend, payload, true) }

  function AskAndWait(payload: Bytes): Call { Call(WaitSend, payload, true) }

  /** Connected for the first time, with nothing sent yet. */
  function Fresh(cfg: Config): System {
    InitialSystem(cfg, 0).(state := Ready, stopWon := false, open := true)
  }

  lemma ReachFresh(cfg: Config) returns (states: seq<System>, steps: seq<Step>)
    ensures RunTo(cfg, states, steps, Fresh(cfg)) && steps == [Restart, Connect]
  {
    var s := InitialSystem(cfg, 0);
    states, steps := [s], [];
    states, steps := ExtendTwice(cfg, states, steps, s, Restart, s.(state := Starting, stopWon := false),
                                 Connect, Fresh(cfg));
  }

  // ----- a buffer borrowed again before its transmission

  const OneBuffer := Config(1, 10, false, true)

  /** The first message has been popped for transmission and its buffer is back in the pool. */
  function FirstPopped(): System {
    var s := Fresh(OneBuffer);
    s.(client := Client([0], [], map[0 := [1]], Some(NoCallback), false, false),
    engine := DrainSend(Entry(0, 0, NoCallback), None),
    h := s.h.(next := 1, accepted := [0], content := map[0 := [1]], silent := {0}, owner := Engine))
  }

  lemma ReachFirstPopped() returns (states: seq<System>, steps: seq<Step>)
    ensures RunTo(OneBuffer, states, steps, FirstPopped())
    ensures steps == [Restart, Connect, Begin(1, Fire([1])), Enter(1, false), RunAsync]
  {
    var s := Fresh(OneBuffer);
    states, steps := ReachFresh(OneBuffer);
    var s1 := s.(threads := map[1 := Checked(Fire([1]))]);
    var s2 := s.(client := Client([], [Entry(0, 0, NoCallback)], map[0 := [1]], Some(NoCallback), true, false),
                 h := FirstPopped().h.(owner := Armed));
    assert Indices(1) == [0];
    states, steps := ExtendTwice(OneBuffer, states, steps, s, Begin(1, Fire([1])), s1, Enter(1, false), s2);
    states, steps := Extend(OneBuffer, states, steps, RunAsync, s2, FirstPopped());
  }

  /** The second message has borrowed the same buffer. */
  function SecondQueued(): System {
    var s := FirstPopped();
    s.(client := Client([], [Entry(0, 1, NoCallback)], map[0 := [2]], Some(NoCallback), false, false),
    h := s.h.(next := 2, accepted := [0, 1], content := map[0 := [1], 1 := [2]], silent := {0, 1}))
  }

  /**
   With one buffer, the second message is transmitted twice and the first one
   never. No stop is involved.
   */
  lemma PayloadOverwritten() returns (states: seq<System>, steps: seq<Step>, s: System)
    ensures RunTo(OneBuffer, states, steps, s)
    ensures steps == [Restart, Connect, Begin(1, Fire([1])), Enter(1, false), RunAsync, Begin(2, Fire([2])),
                      Enter(2, false), DrainTransmit(false), DrainRelock, DrainTransmit(false)]
    ensures s.h.content == map[0 := [1], 1 := [2]]
    ensures s.h.resolved == [OnWire(0, [2]), OnWire(1, [2])]
  {
    states, steps := ReachFirstPopped();
    var s0 := FirstPopped();
    var s1 := s0.(threads := map[2 := Checked(Fire([2]))]);
    var s2 := SecondQueued();
    assert s1.threads - {2} == map[];
    states, steps := ExtendTwice(OneBuffer, states, steps, s0, Begin(2, Fire([2])), s1, Enter(2, false), s2);
    states, steps, s := TransmitBoth(states, steps);
  }

  lemma TransmitBoth(states: seq<System>, steps: seq<Step>)
    returns (states': seq<System>, steps': seq<Step>, s: System)
    requires RunTo(OneBuffer, states, steps, SecondQueued())
    ensures RunTo(OneBuffer, states', steps', s)
    ensures steps' == steps + [DrainTransmit(false), DrainRelock, DrainTransmit(false)]
    ensures s.h.content == map[0 := [1], 1 := [2]]
    ensures s.h.resolved == [OnWire(0, [2]), OnWire(1, [2])]
  {
    var s0 := SecondQueued();
    var s1 := Apply(s0, DrainTransmit(false));
    var s2 := Apply(s1, DrainRelock);
    states', steps' := ExtendTwice(OneBuffer, states, steps, s0, DrainTransmit(false), s1, DrainRelock, s2);
    s := Apply(s2, DrainTransmit(false));
    states', steps' := Extend(OneBuffer, states', steps', DrainTransmit(false), s2, s);
  }

  // ----- a caller that is transmitting while the slot is taken from it

  const Ordered := Config(1, 10, true, false)

  /** SendWaitReply has taken the slot and is about to transmit. */
  function WaiterSending(): System {
    var s := Fresh(Ordered);
    s.(client := s.client.(slot := Some(OnReply(0))),
    threads := map[1 := Sending(Message(0, [7]))],
    h := s.h.(next := 1, accepted := [0], content := map[0 := [7]], issued := {0}, waits := {0}, owner := User(1)))
  }

  lemma ReachWaiterSending() returns (states: seq<System>, steps: seq<Step>)
    ensures RunTo(Ordered, states, steps, WaiterSending())
  {
    var s := Fresh(Ordered);
    states, steps := ReachFresh(Ordered);
    states, steps := ExtendTwice(Ordered, states, steps, s,
                                 Begin(1, AskAndWait([7])), s.(threads := map[1 := Checked(AskAndWait([7]))]),
                                 Enter(1, false), WaiterSending());
  }

  /** The stop has taken the slot and run its callback, and the connection is up again. */
  function WaiterOverrun(): System {
    var s := WaiterSending();
    s.(client := s.client.(slot := None),
    h := s.h.(invoked := multiset{0}, owner := Nobody))
  }

  /** SwitchToStopState is about to run the callback it has taken. */
  function StopCalls(): System {
    WaiterOverrun().(stop := Calling(OnReply(0)), open := false, stopWon := true,
    h := WaiterSending().h.(owner := Nobody))
  }

  lemma ReachStopCalls() returns (states: seq<System>, steps: seq<Step>)
    ensures RunTo(Ordered, states, steps, StopCalls())
  {
    states, steps := ReachWaiterSending();
    var s0 := WaiterSending();
    var s1 := s0.(stopWon := true);
    var s2 := Apply(s1, StopClean);
    states, steps := ExtendTwice(Ordered, states, steps, s0, StopWin, s1, StopClean, s2);
    var s3 := Apply(s2, StopClose);
    states, steps := ExtendTwice(Ordered, states, steps, s2, StopClose, s3, StopTake, StopCalls());
  }

  function StopDone(): System {
    WaiterOverrun().(open := false, state := Stopped, stopWon := true)
  }

  lemma ReachStopDone() returns (states: seq<System>, steps: seq<Step>)
    ensures RunTo(Ordered, states, steps, StopDone())
  {
    states, steps := ReachStopCalls();
    var s := Apply(StopCalls(), StopCallDone);
    states, steps := ExtendTwice(Ordered, states, steps, StopCalls(), StopCallDone, s, StopDrop, StopDone());
  }

  lemma ReachWaiterOverrun() returns (states: seq<System>, steps: seq<Step>)
    ensures RunTo(Ordered, states, steps, WaiterOverrun())
  {
    states, steps := ReachStopDone();
    var s := WaiterOverrun().(open := false, state := Starting);
    states, steps := ExtendTwice(Ordered, states, steps, StopDone(), Restart, s, Connect, WaiterOverrun());
  }

  /** Another call's request is outstanding in the new session. */
  function OtherRequested(): System {
    var s := WaiterOverrun();
    s.(client := s.client.(slot := Some(OnReply(1))),
    wire := [Request(1)],
    h := s.h.(next := 2, accepted := [0, 1], content := map[0 := [7], 1 := [8]],
    resolved := [OnWire(1, [8])], issued := {0, 1}, owner := Server(1)))
  }

  lemma ReachOtherRequested() returns (states: seq<System>, steps: seq<Step>)
    ensures RunTo(Ordered, states, steps, OtherRequested())
  {
    states, steps := ReachWaiterOverrun();
    var s := WaiterOverrun();
    var s1 := s.(threads := s.threads[2 := Checked(Ask([8]))]);
    assert s1.threads - {2} == s.threads;
    states, steps := ExtendTwice(Ordered, states, steps, s, Begin(2, Ask([8])), s1, Enter(2, true), OtherRequested());
  }

  /** The overtaken call that fails as long as nobody has taken the slot does no harm. */
  lemma ReturnsHarmlessly() returns (states: seq<System>, steps: seq<Step>, sent: System, s: System)
    ensures RunTo(Ordered, states, steps, s)
    ensures sent == Apply(StopDone(), Transmit(1, false)) && Next(sent, Return(1), s)
    ensures Orderly(StopDone(), Transmit(1, false)) && Orderly(sent, Return(1))
    ensures s.client == StopDone().client && s.threads == map[] && s.h.invoked[0] == 1 && s.h.resolved == [Dropped(0)]
  {
    states, steps := ReachStopDone();
    sent := Apply(StopDone(), Transmit(1, false));
    s := Apply(sent, Return(1));
    states, steps := ExtendTwice(Ordered, states, steps, StopDone(), Transmit(1, false), sent, Return(1), s);
  }

  /** If it fails sooner, it leaves while the stop is about to run its callback, which refers to its frame. */
  lemma CallbackOutlivesCall() returns (states: seq<System>, steps: seq<Step>, s: System)
    ensures RunTo(Ordered, states, steps, s)
    ensures 0 in s.h.waits && s.stop == Calling(OnReply(0)) && s.h.invoked[0] == 0 && s.threads == map[]
  {
    states, steps := ReachStopCalls();
    var s1 := Apply(StopCalls(), Transmit(1, false));
    s := Apply(s1, Return(1));
    states, steps := ExtendTwice(Ordered, states, steps, StopCalls(), Transmit(1, false), s1, Return(1), s);
  }

  /** If it succeeds, its request is a second one, and follows one that was accepted later. */
  lemma LateRequest() returns (states: seq<System>, steps: seq<Step>, s: System)
    ensures RunTo(Ordered, states, steps, s)
    ensures s.h.accepted == [0, 1] && s.h.resolved == [OnWire(1, [8]), OnWire(0, [7])] && !WireOrdered(s.h.resolved)
    ensures Outstanding(s.wire, s.handler, s.server.sendQueue, s.engine) == 2
  {
    states, steps := ReachOtherRequested();
    s := Apply(OtherRequested(), Transmit(1, true));
    states, steps := Extend(Ordered, states, steps, Transmit(1, true), OtherRequested(), s);
    assert s.h.resolved[1].ticket < s.h.resolved[0].ticket;
    assert Requests([Request(1)]) == [1];
    RequestsAppend([Request(1)], Request(0));
  }

  /**
   If it fails then, it empties the slot of the other call: that accepted callback has not run and is held nowhere, and
   a third call puts a second request on the connection.
   */
  lemma CallbackLost() returns (states: seq<System>, steps: seq<Step>, lost: System, twice: System)
    ensures RunTo(Ordered, states, steps, twice) && lost in states
    ensures lost.h.accepted == [0, 1] && lost.h.resolved == [OnWire(1, [8]), Late(0, [7])]
    ensures 1 in lost.h.issued && lost.h.invoked[1] == 0
    ensures StillHeld(lost.client.slot, lost.client.queue, lost.engine, lost.stop, 1) == 0
    ensures Outstanding(twice.wire, twice.handler, twice.server.sendQueue, twice.engine) == 2
  {
    states, steps := ReachOtherRequested();
    var s := OtherRequested();
    var s1 := Apply(s, Transmit(1, false));
    lost := Apply(s1, Return(1));
    states, steps := ExtendTwice(Ordered, states, steps, s, Transmit(1, false), s1, Return(1), lost);
    assert lost == states[|states| - 1];
    states, steps, twice := SecondRequest(states, steps, lost);
  }

  lemma SecondRequest(states: seq<System>, steps: seq<Step>, lost: System)
    returns (states': seq<System>, steps': seq<Step>, twice: System)
    requires RunTo(Ordered, states, steps, lost)
    requires lost.cfg == Ordered && lost.state.Ready? && lost.open && lost.threads == map[]
    requires lost.client.slot.None? && lost.wire == [Request(1)] && lost.handler == []
    requires lost.server.sendQueue == [] && lost.engine.Idle?
    ensures RunTo(Ordered, states', steps', twice) && states <= states'
    ensures Outstanding(twice.wire, twice.handler, twice.server.sendQueue, twice.engine) == 2
  {
    var s1 := lost.(threads := map[3 := Checked(Ask([9]))]);
    twice := Apply(s1, Enter(3, true));
    states', steps' := ExtendTwice(Ordered, states, steps, lost, Begin(3, Ask([9])), s1, Enter(3, true), twice);
    assert Requests([Request(1)]) == [1];
    RequestsAppend([Request(1)], Request(lost.h.next));
  }

  // ----- a caller that arms the engine while the stop drain runs

  const Async := Config(2, 10, false, true)

  /** One message is queued and armed, another caller has passed its checks. */
  function OneArmed(): System {
    var s := Fresh(Async);
    s.(client := Client([1], [Entry(0, 0, NoCallback)], map[0 := [1]], Some(NoCallback), true, false),
    threads := map[2 := Checked(Fire([2]))],
    h := s.h.(next := 1, accepted := [0], content := map[0 := [1]], silent := {0}, owner := Armed))
  }

  lemma ReachOneArmed() returns (states: seq<System>, steps: seq<Step>)
    ensures RunTo(Async, states, steps, OneArmed())
  {
    var s := Fresh(Async);
    states, steps := ReachFresh(Async);
    assert Indices(2) == [0, 1];
    var s1 := s.(threads := map[2 := Checked(Fire([2]))]);
    var s2 := s1.(threads := s1.threads[1 := Checked(Fire([1]))]);
    assert s2.threads - {1} == s1.threads;
    states, steps := ExtendTwice(Async, states, steps, s, Begin(2, Fire([2])), s1, Begin(1, Fire([1])), s2);
    states, steps := Extend(Async, states, steps, Enter(1, false), s2, OneArmed());
  }

  /** The stop has emptied the slot and released the mutex; the caller has armed the engine again. */
  function ArmedDuringStop(): System {
    var s := OneArmed();
    s.(stopWon := true, open := false, stop := Calling(NoCallback), threads := map[],
    client := Client([], [Entry(0, 0, NoCallback), Entry(1, 1, NoCallback)], map[0 := [1], 1 := [2]],
                     Some(NoCallback), true, false),
    h := s.h.(next := 2, accepted := [0, 1], content := map[0 := [1], 1 := [2]], silent := {0, 1}, owner := Armed))
  }

  lemma ReachArmedDuringStop() returns (states: seq<System>, steps: seq<Step>)
    ensures RunTo(Async, states, steps, ArmedDuringStop())
  {
    states, steps := ReachOneArmed();
    var s0 := OneArmed();
    var s1 := s0.(stopWon := true);
    var s2 := s1.(client := s0.client.(armed := false), stop := Closing, h := s0.h.(owner := Abandoned));
    states, steps := ExtendTwice(Async, states, steps, s0, StopWin, s1, StopClean, s2);
    states, steps := CloseAndTake(states, steps, s2);
  }

  lemma CloseAndTake(states: seq<System>, steps: seq<Step>, s2: System)
    returns (states': seq<System>, steps': seq<Step>)
    requires RunTo(Async, states, steps, s2)
    requires s2 == OneArmed().(stopWon := true, client := OneArmed().client.(armed := false), stop := Closing,
                   h := OneArmed().h.(owner := Abandoned))
    ensures RunTo(Async, states', steps', ArmedDuringStop())
  {
    var s3 := s2.(open := false, stop := Taking);
    var s4 := s3.(client := s3.client.(slot := None), stop := Calling(NoCallback), h := s3.h.(owner := Nobody));
    states', steps' := ExtendTwice(Async, states, steps, s2, StopClose, s3, StopTake, s4);
    states', steps' := ArmInWindow(states', steps', s4);
  }

  lemma ArmInWindow(states: seq<System>, steps: seq<Step>, s4: System)
    returns (states': seq<System>, steps': seq<Step>)
    requires RunTo(Async, states, steps, s4)
    requires s4 == OneArmed().(stopWon := true, open := false, stop := Calling(NoCallback),
                   client := Client([1], [Entry(0, 0, NoCallback)], map[0 := [1]], None, false, false),
                   h := OneArmed().h.(owner := Nobody))
    ensures RunTo(Async, states', steps', ArmedDuringStop())
  {
    assert s4.threads - {2} == map[];
    states', steps' := Extend(Async, states, steps, Enter(2, false), s4, ArmedDuringStop());
  }

  /** The queue has been dropped, but the slot is occupied and nobody is left to empty it. */
  function SlotStuck(): System {
    var s := ArmedDuringStop();
    s.(stopWon := false, open := true, state := Ready, stop := NotStopping,
    client := Client([], [], map[0 := [1], 1 := [2]], Some(NoCallback), false, false),
    h := s.h.(resolved := [Dropped(0), Dropped(1)], lost := [0, 1], owner := Nobody))
  }

  lemma DropBoth(states: seq<System>, steps: seq<Step>) returns (states': seq<System>, steps': seq<Step>, s: System)
    requires RunTo(Async, states, steps, ArmedDuringStop())
    ensures RunTo(Async, states', steps', s)
    ensures s == SlotStuck().(stopWon := true, open := false, state := Stopped,
                 client := SlotStuck().client.(armed := true), h := SlotStuck().h.(owner := Armed))
  {
    var s0 := ArmedDuringStop();
    var s1 := s0.(stop := Dropping);
    var s2 := Apply(s1, StopDrop);
    states', steps' := ExtendTwice(Async, states, steps, s0, StopCallDone, s1, StopDrop, s2);
    var s3 := Apply(s2, StopDrop);
    s := Apply(s3, StopDrop);
    states', steps' := ExtendTwice(Async, states', steps', s2, StopDrop, s3, StopDrop, s);
  }

  /** The stuck state is reached and is the state of a connection that is up again. */
  lemma ReachSlotStuck() returns (states: seq<System>, steps: seq<Step>)
    ensures RunTo(Async, states, steps, SlotStuck()) && Stuck(SlotStuck())
  {
    states, steps := ReachArmedDuringStop();
    var s: System;
    states, steps, s := DropBoth(states, steps);
    states, steps := RestartStuck(states, steps, s);
  }

  lemma RestartStuck(states: seq<System>, steps: seq<Step>, s: System)
    returns (states': seq<System>, steps': seq<Step>)
    requires RunTo(Async, states, steps, s)
    requires s == SlotStuck().(stopWon := true, open := false, state := Stopped,
                  client := SlotStuck().client.(armed := true), h := SlotStuck().h.(owner := Armed))
    ensures RunTo(Async, states', steps', SlotStuck()) && Stuck(SlotStuck())
  {
    var s1 := s.(client := SlotStuck().client, h := SlotStuck().h);
    var s2 := s1.(state := Starting, stopWon := false);
    states', steps' := ExtendTwice(Async, states, steps, s, RunAsync, s1, Restart, s2);
    states', steps' := Extend(Async, states', steps', Connect, s2, SlotStuck());
  }

  // ----- a caller that arms the engine between the clean-up and the taking of the slot

  /** Two callers have passed their checks, and the stop has unlinked the command. */
  function TwoChecked(): System {
    Fresh(Async).(stopWon := true, stop := Closing,
    threads := map[2 := Checked(Fire([2])), 3 := Checked(Fire([3]))])
  }

  lemma ReachTwoChecked() returns (states: seq<System>, steps: seq<Step>)
    ensures RunTo(Async, states, steps, TwoChecked())
  {
    var s := Fresh(Async);
    states, steps := ReachFresh(Async);
    var s1 := s.(threads := map[2 := Checked(Fire([2]))]);
    var s2 := TwoChecked().(stopWon := false, stop := NotStopping);
    states, steps := ExtendTwice(Async, states, steps, s, Begin(2, Fire([2])), s1, Begin(3, Fire([3])), s2);
    states, steps := ExtendTwice(Async, states, steps, s2, StopWin, s2.(stopWon := true), StopClean, TwoChecked());
  }

  /** The first caller has linked the command again, and the stop has closed the descriptor. */
  function LinkedAgain(): System {
    var s := TwoChecked();
    s.(open := false, stop := Taking, threads := map[3 := Checked(Fire([3]))],
    client := Client([1], [Entry(0, 0, NoCallback)], map[0 := [2]], Some(NoCallback), true, false),
    h := s.h.(next := 1, accepted := [0], content := map[0 := [2]], silent := {0}, owner := Armed))
  }

  lemma ReachLinkedAgain() returns (states: seq<System>, steps: seq<Step>)
    ensures RunTo(Async, states, steps, LinkedAgain())
  {
    states, steps := ReachTwoChecked();
    var s := TwoChecked();
    var s1 := LinkedAgain().(open := true, stop := Closing);
    assert Indices(2) == [0, 1];
    assert s.threads - {2} == s1.threads;
    states, steps := ExtendTwice(Async, states, steps, s, Enter(2, false), s1, StopClose, LinkedAgain());
  }

  /** The stop is over and has emptied slot and queue, with the command still linked. */
  function LeftOver(): System {
    var s := LinkedAgain();
    s.(stop := NotStopping, state := Stopped, client := Client([1], [], map[0 := [2]], None, true, false),
    h := s.h.(resolved := [Dropped(0)], lost := [0], owner := Nobody))
  }

  lemma ReachLeftOver() returns (states: seq<System>, steps: seq<Step>)
    ensures RunTo(Async, states, steps, LeftOver())
  {
    states, steps := ReachLinkedAgain();
    var s := LinkedAgain();
    var s1 := s.(stop := Calling(NoCallback), client := s.client.(slot := None), h := s.h.(owner := Nobody));
    var s2 := s1.(stop := Dropping);
    states, steps := ExtendTwice(Async, states, steps, s, StopTake, s1, StopCallDone, s2);
    var s3 := LeftOver().(stop := Dropping, state := Ready);
    states, steps := ExtendTwice(Async, states, steps, s2, StopDrop, s3, StopDrop, LeftOver());
  }

  /** The other caller then links the command that is linked already. */
  lemma LinkedTwice() returns (states: seq<System>, steps: seq<Step>, s: System)
    ensures RunTo(Async, states, steps, s) && s.client.armedTwice
  {
    states, steps := ReachLeftOver();
    s := Apply(LeftOver(), Enter(3, false));
    states, steps := Extend(Async, states, steps, Enter(3, false), LeftOver(), s);
  }

  // ----- a command left over from a stop

  /** In the next session SendWaitReply has taken the slot, and the other caller has queued behind it. */
  function QueuedBehind(): System {
    var s := LeftOver();
    s.(state := Ready, stopWon := false, open := true, threads := map[4 := Sending(Message(1, [4]))],
    client := Client([], [Entry(1, 2, NoCallback)], map[0 := [2], 1 := [3]], Some(OnReply(1)), true, false),
    h := s.h.(next := 3, accepted := [0, 1, 2], content := map[0 := [2], 1 := [4], 2 := [3]], issued := {1},
    silent := {0, 2}, waits := {1}, owner := User(4)))
  }

  lemma ReachQueuedBehind() returns (states: seq<System>, steps: seq<Step>)
    ensures RunTo(Async, states, steps, QueuedBehind())
  {
    states, steps := ReachLeftOver();
    var s := LeftOver();
    var s1 := s.(state := Starting, stopWon := false);
    var s2 := s.(state := Ready, stopWon := false, open := true);
    states, steps := ExtendTwice(Async, states, steps, s, Restart, s1, Connect, s2);
    states, steps := WaitAndQueue(states, steps, s2);
  }

  lemma WaitAndQueue(states: seq<System>, steps: seq<Step>, s: System)
    returns (states': seq<System>, steps': seq<Step>)
    requires RunTo(Async, states, steps, s) && s == LeftOver().(state := Ready, stopWon := false, open := true)
    ensures RunTo(Async, states', steps', QueuedBehind())
  {
    var s1 := s.(threads := s.threads[4 := Checked(AskAndWait([4]))]);
    var s2 := s.(threads := s.threads[4 := Sending(Message(1, [4]))], client := s.client.(slot := Some(OnReply(1))),
                 h := s.h.(next := 2, accepted := [0, 1], content := map[0 := [2], 1 := [4]], issued := {1},
                 waits := {1}, owner := User(4)));
    states', steps' := ExtendTwice(Async, states, steps, s, Begin(4, AskAndWait([4])), s1, Enter(4, false), s2);
    assert s2.threads - {3} == map[4 := Sending(Message(1, [4]))];
    states', steps' := Extend(Async, states', steps', Enter(3, false), s2, QueuedBehind());
  }

  /** The command then transmits the queued message and takes the slot from the call that waits for it. */
  lemma CommandOvertakes() returns (states: seq<System>, steps: seq<Step>, s: System)
    ensures RunTo(Async, states, steps, s) && s.engine.DrainSend?
    ensures 1 in s.h.issued && s.h.invoked[1] == 0
    ensures StillHeld(s.client.slot, s.client.queue, s.engine, s.stop, 1) == 0
  {
    states, steps := ReachQueuedBehind();
    s := Apply(QueuedBehind(), RunAsync);
    states, steps := Extend(Async, states, steps, RunAsync, QueuedBehind(), s);
  }

  // ----- a stop from within an error callback

  /** A queued request could not be transmitted, and its callback runs. */
  function ErrorCallback(): System {
    var s := Fresh(Async);
    s.(client := Client([0, 1], [], map[0 := [1]], Some(NoCallback), false, false),
    threads := map[5 := Checked(AskAndWait([5]))], engine := DrainError(0, None),
    h := s.h.(next := 1, accepted := [0], content := map[0 := [1]], resolved := [OnWire(0, [1])], issued := {0},
    owner := Engine))
  }

  lemma ReachErrorCallback() returns (states: seq<System>, steps: seq<Step>)
    ensures RunTo(Async, states, steps, ErrorCallback())
  {
    var s := Fresh(Async);
    states, steps := ReachFresh(Async);
    assert Indices(2) == [0, 1];
    var s1 := s.(threads := map[1 := Checked(Ask([1]))]);
    var s2 := s.(client := Client([1], [Entry(0, 0, OnReply(0))], map[0 := [1]], Some(NoCallback), true, false),
                 h := ErrorCallback().h.(resolved := [], owner := Armed));
    states, steps := ExtendTwice(Async, states, steps, s, Begin(1, Ask([1])), s1, Enter(1, false), s2);
    states, steps := FailToTransmit(states, steps, s2);
  }

  lemma FailToTransmit(states: seq<System>, steps: seq<Step>, s: System)
    returns (states': seq<System>, steps': seq<Step>)
    requires RunTo(Async, states, steps, s)
    requires s == Fresh(Async).(client := Client([1], [Entry(0, 0, OnReply(0))], map[0 := [1]], Some(NoCallback), true,
                                                 false),
                                h := ErrorCallback().h.(resolved := [], owner := Armed))
    ensures RunTo(Async, states', steps', ErrorCallback())
  {
    var s1 := s.(threads := ErrorCallback().threads);
    var s2 := Apply(s1, RunAsync);
    states', steps' := ExtendTwice(Async, states, steps, s, Begin(5, AskAndWait([5])), s1, RunAsync, s2);
    var s3 := Apply(s2, DrainTransmit(false));
    states', steps' := ExtendTwice(Async, states', steps', s2, DrainTransmit(false), s3, DrainRelock, ErrorCallback());
  }

  /** The callback has stopped the connection, and a caller has taken the empty slot before it returns. */
  function TakenBeforeReturn(): System {
    var s := ErrorCallback();
    s.(stopWon := true, open := false, state := Stopped, client := s.client.(slot := Some(OnReply(1))),
    threads := map[5 := Sending(Message(1, [5]))],
    h := s.h.(next := 2, accepted := [0, 1], content := map[0 := [1], 1 := [5]], issued := {0, 1}, waits := {1},
    owner := User(5)))
  }

  lemma ReachTakenBeforeReturn() returns (states: seq<System>, steps: seq<Step>)
    ensures RunTo(Async, states, steps, TakenBeforeReturn())
  {
    states, steps := ReachErrorCallback();
    var s := ErrorCallback();
    var s1 := s.(stopWon := true);
    var s2 := s1.(stop := Closing);
    states, steps := ExtendTwice(Async, states, steps, s, StopWin, s1, StopClean, s2);
    var s3 := s2.(open := false, stop := Taking);
    var s4 := s3.(client := s.client.(slot := None), stop := Calling(NoCallback), h := s.h.(owner := Nobody));
    states, steps := ExtendTwice(Async, states, steps, s2, StopClose, s3, StopTake, s4);
    states, steps := StopAndTake(states, steps, s4);
  }

  lemma StopAndTake(states: seq<System>, steps: seq<Step>, s: System)
    returns (states': seq<System>, steps': seq<Step>)
    requires RunTo(Async, states, steps, s)
    requires s == ErrorCallback().(stopWon := true, open := false, stop := Calling(NoCallback),
                                   client := ErrorCallback().client.(slot := None),
                                   h := ErrorCallback().h.(owner := Nobody))
    ensures RunTo(Async, states', steps', TakenBeforeReturn())
  {
    var s1 := s.(stop := Dropping);
    var s2 := s.(stop := NotStopping, state := Stopped);
    states', steps' := ExtendTwice(Async, states, steps, s, StopCallDone, s1, StopDrop, s2);
    states', steps' := Extend(Async, states', steps', Enter(5, false), s2, TakenBeforeReturn());
  }

  /** The return of the callback then empties the slot of that caller. */
  lemma ReturnEmptiesSlot() returns (states: seq<System>, steps: seq<Step>, s: System)
    ensures RunTo(Async, states, steps, s) && s.client.slot.None?
    ensures 1 in s.h.issued && s.h.invoked[1] == 0
    ensures StillHeld(s.client.slot, s.client.queue, s.engine, s.stop, 1) == 0
  {
    states, steps := ReachTakenBeforeReturn();
    s := Apply(TakenBeforeReturn(), CallbackDone);
    states, steps := Extend(Async, states, steps, CallbackDone, TakenBeforeReturn(), s);
  }

  // ----- the stuck slot

  /** An occupied slot with no armed command, no sender, no drain and no request outstanding. */
  ghost predicate Stuck(s: System) {
    && s.client.slot == Some(NoCallback) && !s.client.armed
    && s.stop.NotStopping? && (s.engine.Idle? || s.engine.Notified?)
    && (forall tid :: tid in s.threads ==> s.threads[tid].Checked? || s.threads[tid].Waiting?)
    && Outstanding(s.wire, s.handler, s.server.sendQueue, s.engine) == 0
  }

  lemma StuckQueued(s: System, tid: nat, m: Message, callback: Callback, wait: bool)
    requires Stuck(s) && s.client.pool != []
    ensures Stuck(CallQueued(s, tid, m, callback, wait, QueuedClient(s, m, callback)))
  {
  }

  lemma StuckPlain(s: System, tid: nat, m: Message, ok: bool)
    requires Stuck(s)
    ensures Stuck(EnterPlain(s, tid, m, ok)) && EnterPlain(s, tid, m, ok).h.resolved == s.h.resolved
  {
    EnterPlainOutcome(s, tid, m, ok);
    RequestsAppend(s.wire, Plain(m.ticket));
    if s.client.pool != [] {
      StuckQueued(s, tid, m, NoCallback, false);
    }
  }

  lemma StuckCallback(s: System, tid: nat, m: Message, callback: Callback, ok: bool)
    requires Stuck(s)
    ensures Stuck(EnterCallback(s, tid, m, callback, ok))
    ensures EnterCallback(s, tid, m, callback, ok).h.resolved == s.h.resolved
  {
    EnterCallbackOutcome(s, tid, m, callback, ok);
    if s.client.pool != [] {
      StuckQueued(s, tid, m, callback, false);
    }
  }

  lemma StuckWait(s: System, tid: nat, m: Message)
    requires Stuck(s)
    ensures Stuck(EnterWait(s, tid, m)) && EnterWait(s, tid, m).h.resolved == s.h.resolved
  {
    EnterWaitOutcome(s, tid, m);
    if s.client.pool != [] {
      StuckQueued(s, tid, m, OnReply(m.ticket), true);
    }
  }

  lemma StuckEnter(s: System, tid: nat, ok: bool)
    requires Stuck(s) && tid in s.threads && s.threads[tid].Checked?
    ensures Stuck(DoEnter(s, tid, ok)) && DoEnter(s, tid, ok).h.resolved == s.h.resolved
  {
    var call := s.threads[tid].call;
    var m := Message(s.h.next, call.payload);
    match call.kind {
      case PlainSend => StuckPlain(s, tid, m, ok);
      case CallbackSend =>
        StuckCallback(s, tid, m, if call.withCallback then OnReply(m.ticket) else NoCallback, ok);
      case WaitSend => StuckWait(s, tid, m);
    }
  }

  lemma StuckBegin(s: System, tid: nat, call: Call)
    requires Stuck(s)
    ensures Stuck(DoBegin(s, tid, call)) && DoBegin(s, tid, call).h.resolved == s.h.resolved
  {
  }

  lemma StuckLink(s: System, step: Step)
    requires step.Serve? || step.HandlerReply? || step.HandlerNotify? || step.Receive? || step.Connect?
    requires Stuck(s) && Enabled(s, step)
    ensures Stuck(Apply(s, step)) && Apply(s, step).h.resolved == s.h.resolved
  {
    if step.HandlerNotify? {
      Srv.RepliesAppend(s.server.sendQueue, Srv.NotifyItem(s.server.notifyPool[0]));
    }
  }

  /**
   From a stuck state no step other than a new stop empties the slot, and no
   message accepted under the mutex is ever transmitted.
   */
  lemma StuckStays(s: System, step: Step, s': System)
    requires Stuck(s) && Next(s, step, s')
    ensures s'.stop.NotStopping? ==> Stuck(s') && s'.h.resolved == s.h.resolved
  {
    match step {
      case Enter(tid, ok) => StuckEnter(s, tid, ok);
      case Begin(tid, call) => StuckBegin(s, tid, call);
      case Serve => StuckLink(s, step);
      case HandlerReply(_, _) => StuckLink(s, step);
      case HandlerNotify(_) => StuckLink(s, step);
      case Receive => StuckLink(s, step);
      case Connect => StuckLink(s, step);
      case _ =>
    }
  }
}
