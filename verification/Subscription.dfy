/**
 Subscribing to an event, and the samples handed out while subscribed. The
 tracker is reset by a Subscribe that opens a subscription, and Unsubscribe ends
 the process when samples are still in use.
 */
module Subscription {
  import opened Basics
  import opened SampleTracker

  datatype BindingState = NotSubscribed | Pending | Subscribed

  /** The tracker's two counts, and what the binding says of itself. */
  datatype Core = Core(binding: BindingState, bindingMax: Option<nat>, max: nat, available: nat)

  datatype Result = Ok | BindingFailure | MaxSampleCountNotRealizable

  /** `accepts` is what the binding's Subscribe answers: the state it goes to, or a refusal. */
  function SubscribeTo(c: Core, n: nat, accepts: Option<BindingState>): (Core, Result) {
    if c.binding.NotSubscribed? then
      var reset := c.(max := n, available := n);
      if accepts.Some? then (reset.(binding := accepts.value, bindingMax := Some(n)), Ok)
      else (reset, BindingFailure)
    else if c.bindingMax == Some(n) then (c, Ok)
    else (c, MaxSampleCountNotRealizable)
  }

  /** The second result: whether the process is terminated. */
  function UnsubscribeFrom(c: Core): (Core, bool) {
    if c.binding.NotSubscribed? then (c, false)
    else (c.(binding := NotSubscribed, bindingMax := None), c.available < c.max)
  }

  datatype Phase = Allocating | InBinding | InReceiver

  /** A call of GetNewSamples: what its Allocate still asks for, and the guards it holds and has not used. */
  datatype Frame = Frame(wanted: nat, guards: nat, phase: Phase)

  /** The innermost call is last. `openedWith` is the count given to the Subscribe that opened the subscription. */
  datatype Event = Event(core: Core, frames: seq<Frame>, live: nat, openedWith: nat, terminated: bool)

  datatype Step =
    | Subscribe(n: nat, accepts: Option<BindingState>)
    | Unsubscribe
    | BindingMoves(to: BindingState)   // between pending and subscribed
    | GetNewSamples(n: nat)
    | Exchange                         // a compare-and-exchange of its Allocate succeeds
    | Allocated                        // Allocate returns: it has all it wants, or has read that none is available
    | Deliver                          // the binding turns a guard into a sample and calls the receiver
    | ReceiverReturns
    | Finish                           // GetNewSamples returns and gives the unused guards back
    | DropSample

  function InitialEvent(): Event {
    Event(Core(NotSubscribed, None, 0, 0), [], 0, 0, false)
  }

  /** User code runs outside every call of GetNewSamples or in the innermost receiver. */
  predicate UserRuns(frames: seq<Frame>) {
    |frames| == 0 || frames[|frames| - 1].phase.InReceiver?
  }

  predicate TopIs(frames: seq<Frame>, phase: Phase) {
    |frames| > 0 && frames[|frames| - 1].phase == phase
  }

  predicate Enabled(e: Event, step: Step) {
    && !e.terminated
    && match step
       case Subscribe(_, accepts) => UserRuns(e.frames) && accepts != Some(NotSubscribed)
       case Unsubscribe => UserRuns(e.frames)
       case BindingMoves(to) => !e.core.binding.NotSubscribed? && !to.NotSubscribed?
       case GetNewSamples(_) => UserRuns(e.frames)
       case Exchange => TopIs(e.frames, Allocating)
       case Allocated => TopIs(e.frames, Allocating)
       case Deliver =>
         TopIs(e.frames, InBinding) && !e.core.binding.NotSubscribed? && e.frames[|e.frames| - 1].guards > 0
       case ReceiverReturns => TopIs(e.frames, InReceiver)
       case Finish => TopIs(e.frames, InBinding)
       case DropSample => e.live > 0
  }

  function Top(frames: seq<Frame>, frame: Frame): seq<Frame>
    requires |frames| > 0
  {
    frames[|frames| - 1 := frame]
  }

  function Apply(e: Event, step: Step): Event
    requires Enabled(e, step)
  {
    match step
    case Subscribe(n, accepts) =>
      var opens := e.core.binding.NotSubscribed? && accepts.Some?;
      e.(core := SubscribeTo(e.core, n, accepts).0, openedWith := if opens then n else e.openedWith)
    case Unsubscribe =>
      var (core, terminates) := UnsubscribeFrom(e.core);
      e.(core := core, terminated := terminates)
    case BindingMoves(to) => e.(core := e.core.(binding := to))
    case GetNewSamples(n) => e.(frames := e.frames + [Frame(n, 0, Allocating)])
    case Exchange =>
      var frame := e.frames[|e.frames| - 1];
      var taken := Min(e.core.available, frame.wanted);
      e.(core := e.core.(available := e.core.available - taken),
         frames := Top(e.frames, Frame(frame.wanted - taken, frame.guards + taken, Allocating)))
    case Allocated => e.(frames := Top(e.frames, e.frames[|e.frames| - 1].(phase := InBinding)))
    case Deliver =>
      var frame := e.frames[|e.frames| - 1];
      e.(frames := Top(e.frames, frame.(guards := frame.guards - 1, phase := InReceiver)), live := e.live + 1)
    case ReceiverReturns => e.(frames := Top(e.frames, e.frames[|e.frames| - 1].(phase := InBinding)))
    case Finish =>
      var frame := e.frames[|e.frames| - 1];
      e.(core := e.core.(available := e.core.available + frame.guards), frames := e.frames[..|e.frames| - 1])
    case DropSample => e.(core := e.core.(available := e.core.available + 1), live := e.live - 1)
  }

  ghost predicate Next(e: Event, step: Step, e': Event) {
    Enabled(e, step) && e' == Apply(e, step)
  }

  ghost predicate IsRun(states: seq<Event>, steps: seq<Step>) {
    && |states| == |steps| + 1
    && states[0] == InitialEvent()
    && forall i :: 0 <= i < |steps| ==> Next(states[i], steps[i], states[i + 1])
  }

  function Reserved(frames: seq<Frame>): nat {
    if |frames| == 0 then 0 else Reserved(frames[..|frames| - 1]) + frames[|frames| - 1].guards
  }

  /** What a user who is running could have seen reserved: without the call the binding is still working on. */
  function ReservedByUser(frames: seq<Frame>): nat {
    if UserRuns(frames) then Reserved(frames) else Reserved(frames[..|frames| - 1])
  }

  ghost predicate Inv(e: Event) {
    && e.core.available + e.live + Reserved(e.frames) == e.core.max
    && (forall i :: 0 <= i < |e.frames| - 1 ==> e.frames[i].phase.InReceiver?)
    && (!e.core.binding.NotSubscribed? ==> e.core.bindingMax == Some(e.core.max) && e.openedWith == e.core.max)
    && (e.core.binding.NotSubscribed? && !e.terminated ==> e.live == 0 && ReservedByUser(e.frames) == 0)
  }

  lemma ReservedTop(frames: seq<Frame>, frame: Frame)
    requires |frames| > 0
    ensures Reserved(Top(frames, frame)) == Reserved(frames[..|frames| - 1]) + frame.guards
    ensures Top(frames, frame)[..|frames| - 1] == frames[..|frames| - 1]
  {
    assert Top(frames, frame)[..|frames| - 1] == frames[..|frames| - 1];
  }

  lemma ReservedPush(frames: seq<Frame>, frame: Frame)
    ensures Reserved(frames + [frame]) == Reserved(frames) + frame.guards
    ensures (frames + [frame])[..|frames|] == frames
  {
    assert (frames + [frame])[..|frames|] == frames;
  }

  lemma GetKeepsInv(e: Event, n: nat)
    requires Inv(e) && Enabled(e, GetNewSamples(n))
    ensures Inv(Apply(e, GetNewSamples(n)))
  {
    ReservedPush(e.frames, Frame(n, 0, Allocating));
  }

  /** A step of the innermost call, in Allocate, in the binding or out of the receiver. */
  lemma InnermostKeepsInv(e: Event, step: Step)
    requires step.Exchange? || step.Allocated? || step.Deliver? || step.ReceiverReturns?
    requires Inv(e) && Enabled(e, step)
    ensures Inv(Apply(e, step))
  {
    var frames := Apply(e, step).frames;
    ReservedTop(e.frames, frames[|frames| - 1]);
  }

  lemma StepKeepsInv(e: Event, step: Step)
    requires Inv(e) && Enabled(e, step)
    ensures Inv(Apply(e, step))
  {
    match step
    case GetNewSamples(n) => GetKeepsInv(e, n);
    case Exchange | Allocated | Deliver | ReceiverReturns => InnermostKeepsInv(e, step);
    case _ =>
  }

  lemma {:induction false} RunsKeepInv(states: seq<Event>, steps: seq<Step>, n: nat)
    requires IsRun(states, steps) && n <= |steps|
    ensures Inv(states[n])
  {
    if n > 0 {
      RunsKeepInv(states, steps, n - 1);
      assert Next(states[n - 1], steps[n - 1], states[n - 1 + 1]);
      StepKeepsInv(states[n - 1], steps[n - 1]);
    }
  }

  /** While subscribed, samples in use never exceed the count the subscription was opened with. */
  lemma LiveSamplesAreBounded(states: seq<Event>, steps: seq<Step>, n: nat)
    requires IsRun(states, steps) && n <= |steps|
    ensures var e := states[n];
            && (!e.core.binding.NotSubscribed? ==>
                  && e.live + Reserved(e.frames) <= e.openedWith && e.core.bindingMax == Some(e.openedWith))
            && (e.core.binding.NotSubscribed? && !e.terminated ==> e.live == 0)
  {
    RunsKeepInv(states, steps, n);
  }

  /** The tracker is reset only when nothing is in use. */
  lemma ResetOnlyWhenUnused(states: seq<Event>, steps: seq<Step>, n: nat)
    requires IsRun(states, steps) && n < |steps| && steps[n].Subscribe?
    ensures var e := states[n];
            && (e.core.binding.NotSubscribed? ==>
                  e.live == 0 && Reserved(e.frames) == 0 && e.core.available == e.core.max)
            && (!e.core.binding.NotSubscribed? ==> states[n + 1] == e && e.core.bindingMax.Some?)
  {
    RunsKeepInv(states, steps, n);
    assert Next(states[n], steps[n], states[n + 1]);
  }

  /** Unsubscribe ends the process exactly when a sample, or a guard of a GetNewSamples around it, is in use. */
  lemma UnsubscribeTerminatesIff(states: seq<Event>, steps: seq<Step>, n: nat)
    requires IsRun(states, steps) && n < |steps| && steps[n].Unsubscribe?
    ensures states[n + 1].terminated <==>
              !states[n].core.binding.NotSubscribed? && (states[n].live > 0 || Reserved(states[n].frames) > 0)
  {
    RunsKeepInv(states, steps, n);
    assert Next(states[n], steps[n], states[n + 1]);
  }

  // ----- the calls

  class ProxyEventBase {
    const tracker: SampleReferenceTracker
    var binding: BindingState
    var bindingMax: Option<nat>

    ghost function View(): Core
      reads this, tracker
    {
      Core(binding, bindingMax, tracker.max, tracker.available)
    }

    constructor ()
      ensures View() == InitialEvent().core && fresh(tracker)
    {
      binding, bindingMax := NotSubscribed, None;
      tracker := new SampleReferenceTracker(0);
    }

    method Subscribe(n: nat, accepts: Option<BindingState>) returns (result: Result)
      modifies this, tracker
      ensures (View(), result) == SubscribeTo(old(View()), n, accepts)
    {
      if binding.NotSubscribed? {
        tracker.Reset(n);
        if accepts.None? {
          return BindingFailure;
        }
        binding, bindingMax := accepts.value, Some(n);
      } else if bindingMax != Some(n) {
        return MaxSampleCountNotRealizable;
      }
      return Ok;
    }

    method Unsubscribe() returns (terminates: bool)
      modifies this
      ensures (View(), terminates) == UnsubscribeFrom(old(View()))
    {
      terminates := false;
      if !binding.NotSubscribed? {
        binding, bindingMax := NotSubscribed, None;
        terminates := tracker.available < tracker.max;
      }
    }
  }
}
