/**
 The request/reply protocol as one transition system: a client connection
 with any number of calling threads and one engine thread, the transport, and
 the server connection.

 A step is the code between two points where the client's send mutex is
 taken or released, or one transport operation made without it. Callbacks
 that issue further sends from the engine thread behave like calling threads
 that happen to run while the engine frame of the callback is open.
 */
module RequestReply {
  import opened Basics
  import opened ClientSections
  import Srv = ServerSections

  datatype Kind = PlainSend | CallbackSend | WaitSend

  datatype Call = Call(kind: Kind, payload: Bytes, withCallback: bool)

  /** Where a calling thread is; a thread outside any send call is absent. */
  datatype Pc =
    | Checked(call: Call)             // size and state checks passed, mutex not yet taken
    | Sending(m: Message)             // SendWaitReply owns the slot and is about to transmit
    | Sent(ticket: nat, ok: bool)     // transmitted, mutex not yet retaken
    | Waiting(ticket: nat)            // blocked until the callback marks the future ready

  /** A reply on its way to the callback that was found in the slot. */
  datatype Delivery = Delivery(ticket: nat, payload: Bytes, callback: Callback)

  /** Where the engine thread is. */
  datatype Frame =
    | Idle
    | GotReply(ticket: nat, payload: Bytes)                                // REPLY received, mutex not yet taken
    | DrainSend(entry: Entry, after: Option<Delivery>)                     // popped, about to transmit
    | DrainSent(entry: Entry, ok: bool, after: Option<Delivery>)           // transmitted, mutex not yet retaken
    | DrainError(ticket: nat, after: Option<Delivery>)                     // running the callback with the error
    | Deliver(delivery: Delivery)                                          // running the reply callback
    | Notified                                                             // running the notify callback

  /** Progress of SwitchToStopState, possibly nested inside a callback frame. */
  datatype StopPhase = NotStopping | Closing | Taking | Calling(callback: Callback) | Dropping

  datatype State = Starting | Ready | Stopping | Stopped

  datatype ToServer = Request(ticket: nat) | Plain(ticket: nat)

  /** What happened to an accepted message. */
  datatype Resolution =
    | OnWire(ticket: nat, payload: Bytes)  // an attempt to transmit it on the open connection
    | Late(ticket: nat, payload: Bytes)    // an attempt there that failed, of a call that had lost the slot to a stop
    | Dropped(ticket: nat)                 // dropped by a stop, or an attempt that met the closed descriptor

  /** Who is responsible for emptying the slot; an abandoned one is left to the stop in progress. */
  datatype Owner = Nobody | Armed | User(tid: nat) | Engine | Server(ticket: nat) | Abandoned

  /** History variables: no step is enabled or disabled by them, except that a waiter wakes once invoked. */
  datatype History = History(
    next: nat,                         // the next ticket
    accepted: seq<nat>,                // tickets in the order the mutex accepted them
    content: map<nat, Bytes>,          // payload given at acceptance
    resolved: seq<Resolution>,         // transmission attempts and drops, in order
    issued: set<nat>,                  // non-empty callbacks accepted and not handed back with an error
    silent: set<nat>,                  // messages accepted with an empty callback
    waits: set<nat>,                   // messages of SendWaitReply, whose callbacks refer to their caller's frame
    refused: set<nat>,                 // calls that returned an error and kept or took back their callback
    invoked: multiset<nat>,            // callbacks that have run
    answered: seq<Delivery>,           // replies handed to callbacks
    replied: set<(nat, Bytes)>,        // request and payload of every Reply call
    lost: seq<nat>,                    // buffers taken out of circulation by stop drains
    owner: Owner)

  datatype System = System(
    cfg: Config,
    notifyCapacity: nat,
    client: Client,
    state: State,
    stopWon: bool,                     // stop_reason_ differs from kNone
    open: bool,                        // client_fd_ refers to a live connection
    threads: map<nat, Pc>,
    engine: Frame,
    stop: StopPhase,
    wire: seq<ToServer>,
    handler: seq<nat>,                 // requests the server handler has not replied to yet
    server: Srv.Server,
    h: History)

  datatype Step =
    | Begin(tid: nat, call: Call)
    | Enter(tid: nat, ok: bool)
    | Transmit(tid: nat, ok: bool)
    | Return(tid: nat)
    | Wake(tid: nat)
    | RunAsync
    | Receive
    | TakeReply
    | DrainTransmit(ok: bool)
    | DrainRelock
    | CallbackDone
    | Connect
    | StopWin
    | MarkStopping
    | StopClean
    | StopClose
    | StopTake
    | StopCallDone
    | StopDrop
    | Restart
    | Serve
    | HandlerReply(index: nat, payload: Bytes)
    | HandlerNotify(payload: Bytes)

  predicate ByCaller(step: Step) {
    step.Begin? || step.Enter? || step.Transmit? || step.Return? || step.Wake?
  }

  predicate ByEngine(step: Step) {
    || step.RunAsync? || step.Receive? || step.TakeReply? || step.DrainTransmit? || step.DrainRelock?
    || step.CallbackDone?
  }

  /** In SwitchToStopState. */
  predicate ByStop(step: Step) {
    step.StopClean? || step.StopClose? || step.StopTake? || step.StopCallDone? || step.StopDrop?
  }

  predicate ByLifecycle(step: Step) {
    step.Connect? || step.StopWin? || step.MarkStopping? || step.Restart?
  }

  predicate ByServer(step: Step) {
    step.Serve? || step.HandlerReply? || step.HandlerNotify?
  }

  function InitialHistory(): History {
    History(0, [], map[], [], {}, {}, {}, {}, multiset{}, [], {}, [], Nobody)
  }

  function InitialSystem(cfg: Config, notifyCapacity: nat): System {
    System(cfg, notifyCapacity, InitialClient(cfg), Stopped, true, false, map[], Idle, NotStopping,
           [], [], Srv.InitialServer(notifyCapacity), InitialHistory())
  }

  function Requests(wire: seq<ToServer>): seq<nat> {
    if wire == [] then []
    else if wire[0].Request? then [wire[0].ticket] + Requests(wire[1..])
    else Requests(wire[1..])
  }

  // ----- calling threads

  /** Records that the mutex accepted a message, with the callback it came with. */
  function Accept(h: History, m: Message, callback: Callback): History {
    var h := h.(next := m.ticket + 1, accepted := h.accepted + [m.ticket], content := h.content[m.ticket := m.payload]);
    if callback.OnReply? then h.(issued := h.issued + {m.ticket}) else h.(silent := h.silent + {m.ticket})
  }

  function Refuse(h: History, ticket: nat): History {
    h.(next := ticket + 1, refused := h.refused + {ticket})
  }

  /** A message handed to the open transport inside the section, whether or not that succeeded. */
  function AcceptAttempt(h: History, m: Message): History {
    h.(next := m.ticket + 1,
    accepted := h.accepted + [m.ticket],
    content := h.content[m.ticket := m.payload],
    resolved := h.resolved + [OnWire(m.ticket, m.payload)])
  }

  function CallRefused(s: System, tid: nat, ticket: nat): System {
    s.(threads := s.threads - {tid}, h := Refuse(s.h, ticket))
  }

  function CallQueued(s: System, tid: nat, m: Message, callback: Callback, wait: bool, client: Client): System
    requires s.client.pool != []
  {
    var h := Accept(s.h, m, callback).(waits := if wait then s.h.waits + {m.ticket} else s.h.waits);
    s.(client := client,
    threads := if wait then s.threads[tid := Waiting(m.ticket)] else s.threads - {tid},
    h := if s.client.slot.None? then h.(owner := Armed) else h)
  }

  /** A plain message handed to the transport by the caller. */
  function PlainSent(s: System, tid: nat, m: Message, ok: bool, h: History): System {
    s.(threads := s.threads - {tid},
    wire := if ok then s.wire + [Plain(m.ticket)] else s.wire,
    h := h)
  }

  /** A request handed to the transport under the mutex; only a success takes the slot and the callback. */
  function RequestSent(s: System, tid: nat, m: Message, callback: Callback, ok: bool, client: Client): System {
    var h := AcceptAttempt(s.h, m);
    s.(client := client,
    threads := s.threads - {tid},
    wire := if ok then s.wire + [Request(m.ticket)] else s.wire,
    h := if !ok then h.(refused := h.refused + {m.ticket})
    else if callback.OnReply? then h.(issued := h.issued + {m.ticket}, owner := Server(m.ticket))
    else h.(silent := h.silent + {m.ticket}, owner := Server(m.ticket)))
  }

  function SlotTaken(s: System, tid: nat, m: Message, client: Client): System {
    s.(client := client,
    threads := s.threads[tid := Sending(m)],
    h := Accept(s.h, m, OnReply(m.ticket)).(waits := s.h.waits + {m.ticket}, owner := User(tid)))
  }

  /** A section that meets the closed descriptor takes nothing; its caller gets the error. */
  function EnterPlain(s: System, tid: nat, m: Message, ok: bool): System {
    if !s.cfg.fullyOrdered && !s.cfg.trulyAsync then
      PlainSent(s, tid, m, ok, s.h.(next := m.ticket + 1))
    else
      match SendSection(s.cfg, s.client, m, ok)
      case (client, Queued) => CallQueued(s, tid, m, NoCallback, false, client)
      case (_, Attempted(_)) =>
        if s.open then PlainSent(s, tid, m, ok, AcceptAttempt(s.h, m)) else CallRefused(s, tid, m.ticket)
      case _ => CallRefused(s, tid, m.ticket)
  }

  function EnterCallback(s: System, tid: nat, m: Message, callback: Callback, ok: bool): System {
    match CallbackSection(s.cfg, s.client, m, callback, ok)
    case (client, Queued) => CallQueued(s, tid, m, callback, false, client)
    case (client, Attempted(_)) =>
      if s.open then RequestSent(s, tid, m, callback, ok, client) else CallRefused(s, tid, m.ticket)
    case _ => CallRefused(s, tid, m.ticket)
  }

  function EnterWait(s: System, tid: nat, m: Message): System {
    match WaitSection(s.client, m)
    case (client, Queued) => CallQueued(s, tid, m, OnReply(m.ticket), true, client)
    case (client, MustSend) => SlotTaken(s, tid, m, client)
    case _ => CallRefused(s, tid, m.ticket)
  }

  function DoBegin(s: System, tid: nat, call: Call): System {
    if |call.payload| > s.cfg.maxSendSize || s.state != Ready
    then s.(h := Refuse(s.h, s.h.next))
    else s.(threads := s.threads[tid := Checked(call)])
  }

  function DoEnter(s: System, tid: nat, ok: bool): System
    requires tid in s.threads && s.threads[tid].Checked?
  {
    var call := s.threads[tid].call;
    var m := Message(s.h.next, call.payload);
    match call.kind
    case PlainSend => EnterPlain(s, tid, m, ok)
    case CallbackSend => EnterCallback(s, tid, m, if call.withCallback then OnReply(m.ticket) else NoCallback, ok)
    case WaitSend => EnterWait(s, tid, m)
  }

  /** The slot holds the callback of this message's call. */
  predicate OwnsSlot(s: System, ticket: nat) {
    s.client.slot == Some(OnReply(ticket))
  }

  /** How the attempt of SendWaitReply is recorded. */
  function Attempt(s: System, m: Message, ok: bool): Resolution {
    if !s.open then Dropped(m.ticket)
    else if ok || OwnsSlot(s, m.ticket) then OnWire(m.ticket, m.payload)
    else Late(m.ticket, m.payload)
  }

  function DoTransmit(s: System, tid: nat, ok: bool): System
    requires tid in s.threads && s.threads[tid].Sending?
  {
    var m := s.threads[tid].m;
    s.(threads := s.threads[tid := Sent(m.ticket, ok)],
    wire := if ok then s.wire + [Request(m.ticket)] else s.wire,
    h := s.h.(resolved := s.h.resolved + [Attempt(s, m, ok)], owner := if ok then Server(m.ticket) else s.h.owner))
  }

  /** Who answers for the slot after a failed call has emptied it or armed the queue. */
  function OwnerAfterFailure(s: System): Owner {
    if s.client.queue == [] then Nobody
    else if s.h.owner.Engine? || s.h.owner.Server? then s.h.owner
    else Armed
  }

  /** The caller goes with the error. Its callback is handed back, unless a stop has taken it before. */
  function WithdrawCall(s: System, tid: nat, ticket: nat): System {
    var h := s.h.(owner := OwnerAfterFailure(s));
    s.(client := WaitFailed(s.client),
    threads := s.threads - {tid},
    h := if OwnsSlot(s, ticket) then h.(issued := s.h.issued - {ticket}, refused := s.h.refused + {ticket}) else h)
  }

  function DoReturn(s: System, tid: nat): System
    requires tid in s.threads && s.threads[tid].Sent?
  {
    var ticket := s.threads[tid].ticket;
    if s.threads[tid].ok then s.(threads := s.threads[tid := Waiting(ticket)]) else WithdrawCall(s, tid, ticket)
  }

  // ----- engine thread

  /** The frame that follows the drain loop. */
  function Continue(after: Option<Delivery>): Frame {
    if after.Some? then Deliver(after.value) else Idle
  }

  /** The drain loop up to its next unlock, from a state whose engine frame is the one that follows the loop. */
  function DrainLoop(s: System): System
    requires s.engine.Idle? || s.engine.Deliver?
  {
    if s.client.queue == [] then s
    else
      var e := s.client.queue[0];
      s.(client := PopToSend(s.client),
      engine := DrainSend(e, if s.engine.Deliver? then Some(s.engine.delivery) else None),
      h := s.h.(owner := Engine))
  }

  function DoRunAsync(s: System): System
    requires s.engine.Idle?
  {
    DrainLoop(s.(client := s.client.(armed := false), h := s.h.(owner := AfterAsync(s.h.owner))))
  }

  /** Nobody answers for an armed slot any more; a command left over from before a stop changes nothing. */
  function AfterAsync(owner: Owner): Owner {
    if owner.Armed? then Nobody else owner
  }

  function DoReceive(s: System): System
    requires s.server.sendQueue != []
  {
    var (server, packet) := Srv.ReadSection(s.server);
    match packet
    case ReplyPacket(ticket, payload) => s.(server := server, engine := GotReply(ticket, payload))
    case NotifyPacket(_) => s.(server := server, engine := Notified)
  }

  function ReplyTaken(s: System): System
    requires s.engine.GotReply? && s.client.slot.Some?
  {
    s.(client := s.client.(slot := None),
    engine := Deliver(Delivery(s.engine.ticket, s.engine.payload, s.client.slot.value)),
    h := s.h.(owner := Nobody))
  }

  function DoTakeReply(s: System): System
    requires s.engine.GotReply?
  {
    if s.client.slot.Some? then DrainLoop(ReplyTaken(s)) else s.(engine := Idle, stopWon := true)
  }

  function DoDrainTransmit(s: System, ok: bool): System
    requires s.engine.DrainSend?
  {
    var e := s.engine.entry;
    var r := if s.open then OnWire(e.ticket, Stored(s.client, e.buffer)) else Dropped(e.ticket);
    s.(engine := DrainSent(e, ok, s.engine.after),
    wire := if !ok then s.wire
    else if e.callback.OnReply? then s.wire + [Request(e.ticket)] else s.wire + [Plain(e.ticket)],
    h := s.h.(resolved := s.h.resolved + [r],
    owner := if ok && e.callback.OnReply? then Server(e.ticket) else s.h.owner))
  }

  function PlainDrained(s: System): System
    requires s.engine.DrainSent?
  {
    s.(client := s.client.(slot := None), engine := Continue(s.engine.after), h := s.h.(owner := Nobody))
  }

  function DoDrainRelock(s: System): System
    requires s.engine.DrainSent?
  {
    var e := s.engine.entry;
    if e.callback.NoCallback? then DrainLoop(PlainDrained(s))
    else if s.engine.ok then s.(engine := Continue(s.engine.after))
    else
      s.(client := s.client.(slot := Some(NoCallback)),
      engine := DrainError(e.callback.ticket, s.engine.after))
  }

  function ErrorReported(s: System): System
    requires s.engine.DrainError?
  {
    s.(client := s.client.(slot := None),
    engine := Continue(s.engine.after),
    h := s.h.(invoked := s.h.invoked + multiset{s.engine.ticket}, owner := Nobody))
  }

  function DoCallbackDone(s: System): System
    requires s.engine.DrainError? || s.engine.Deliver? || s.engine.Notified?
  {
    match s.engine
    case DrainError(_, _) => DrainLoop(ErrorReported(s))
    case Deliver(d) =>
      s.(engine := Idle, h := s.h.(answered := s.h.answered + [d], invoked := s.h.invoked + Held(d.callback)))
    case Notified => s.(engine := Idle)
  }

  // ----- connecting and stopping

  function DoConnect(s: System): System {
    s.(open := true, state := Ready, wire := [], handler := [], server := Srv.InitialServer(s.notifyCapacity))
  }

  /** The command is unlinked, so that an armed slot is left to the stop. */
  function DoStopClean(s: System): System {
    s.(client := s.client.(armed := false), stop := Closing,
    h := s.h.(owner := if s.h.owner.Armed? then Abandoned else s.h.owner))
  }

  /** So is the slot of a request that was outstanding on the descriptor that is closed. */
  function DoStopClose(s: System): System {
    s.(open := false, stop := Taking, wire := [], handler := [], server := Srv.InitialServer(s.notifyCapacity),
    h := s.h.(owner := if s.h.owner.Server? then Abandoned else s.h.owner))
  }

  function DoStopTake(s: System): System {
    if s.client.slot.Some? then
      s.(client := s.client.(slot := None), stop := Calling(s.client.slot.value), h := s.h.(owner := Nobody))
    else
      s.(stop := Dropping)
  }

  predicate IsTransmitting(threads: map<nat, Pc>, owner: Owner) {
    owner.User? && owner.tid in threads && threads[owner.tid].Sending?
  }

  function DoStopCallDone(s: System): System
    requires s.stop.Calling?
  {
    s.(stop := Dropping, h := s.h.(invoked := s.h.invoked + Held(s.stop.callback)))
  }

  /**
   One turn of the stop drain. The code keeps the mutex across turns that meet
   an empty callback; releasing it between any two turns only adds behaviours.
   */
  function DoStopDrop(s: System): System {
    if s.client.queue == [] then
      s.(stop := NotStopping, state := Stopped)
    else
      var e := s.client.queue[0];
      s.(client := PopToDrop(s.client),
      stop := if e.callback.OnReply? then Calling(e.callback) else Dropping,
      h := s.h.(resolved := s.h.resolved + [Dropped(e.ticket)], lost := s.h.lost + [e.buffer]))
  }

  /** The tickets a callback value stands for: none or one. */
  function Held(callback: Callback): multiset<nat> {
    if callback.OnReply? then multiset{callback.ticket} else multiset{}
  }

  // ----- server

  function DoServe(s: System): System
    requires s.wire != []
  {
    s.(wire := s.wire[1..],
    handler := if s.wire[0].Request? then s.handler + [s.wire[0].ticket] else s.handler)
  }

  function DoHandlerReply(s: System, i: nat, payload: Bytes): System
    requires i < |s.handler|
  {
    s.(handler := s.handler[..i] + s.handler[i + 1..],
    server := Srv.ReplySection(s.server, s.handler[i], payload),
    h := s.h.(replied := s.h.replied + {(s.handler[i], payload)}))
  }

  function DoHandlerNotify(s: System, payload: Bytes): System
    requires s.server.notifyPool != []
  {
    s.(server := Srv.NotifySection(s.server, payload))
  }

  // ----- steps

  /** User code runs in the current engine frame, so it may call Stop(). */
  predicate InUserCode(engine: Frame) {
    engine.Idle? || engine.DrainError? || engine.Deliver? || engine.Notified?
  }

  predicate Enabled(s: System, step: Step) {
    match step
    case Begin(tid, call) => tid !in s.threads && (call.kind.WaitSend? ==> call.withCallback)
    case Enter(tid, ok) => tid in s.threads && s.threads[tid].Checked? && (ok ==> s.open)
    case Transmit(tid, ok) => tid in s.threads && s.threads[tid].Sending? && (ok ==> s.open)
    case Return(tid) => tid in s.threads && s.threads[tid].Sent?
    case Wake(tid) => tid in s.threads && s.threads[tid].Waiting? && s.threads[tid].ticket in s.h.invoked
    case RunAsync => s.stop.NotStopping? && s.engine.Idle? && s.client.armed
    case Receive => s.stop.NotStopping? && s.engine.Idle? && s.open && s.server.sendQueue != []
    case TakeReply => s.stop.NotStopping? && s.engine.GotReply?
    case DrainTransmit(ok) => s.stop.NotStopping? && s.engine.DrainSend? && (ok ==> s.open)
    case DrainRelock => s.stop.NotStopping? && s.engine.DrainSent?
    case CallbackDone =>
      s.stop.NotStopping? && (s.engine.DrainError? || s.engine.Deliver? || s.engine.Notified?)
    case Connect =>
      s.stop.NotStopping? && s.engine.Idle? && !s.open && (s.state.Starting? || s.state.Stopping?)
    case StopWin => !s.stopWon && !s.state.Stopped?
    case MarkStopping => s.stopWon && (s.state.Starting? || s.state.Ready?)
    case StopClean => s.stop.NotStopping? && InUserCode(s.engine) && s.stopWon && !s.state.Stopped?
    case StopClose => s.stop.Closing?
    case StopTake => s.stop.Taking?
    case StopCallDone => s.stop.Calling?
    case StopDrop => s.stop.Dropping?
    case Restart => s.state.Stopped? && s.stopWon && s.stop.NotStopping?
    case Serve => s.wire != []
    case HandlerReply(i, _) => i < |s.handler|
    case HandlerNotify(_) => s.open && s.server.notifyPool != []
  }

  function Apply(s: System, step: Step): System
    requires Enabled(s, step)
  {
    match step
    case Begin(tid, call) => DoBegin(s, tid, call)
    case Enter(tid, ok) => DoEnter(s, tid, ok)
    case Transmit(tid, ok) => DoTransmit(s, tid, ok)
    case Return(tid) => DoReturn(s, tid)
    case Wake(tid) => s.(threads := s.threads - {tid})
    case RunAsync => DoRunAsync(s)
    case Receive => DoReceive(s)
    case TakeReply => DoTakeReply(s)
    case DrainTransmit(ok) => DoDrainTransmit(s, ok)
    case DrainRelock => DoDrainRelock(s)
    case CallbackDone => DoCallbackDone(s)
    case Connect => DoConnect(s)
    case StopWin => s.(stopWon := true)
    case MarkStopping => s.(state := Stopping)
    case StopClean => DoStopClean(s)
    case StopClose => DoStopClose(s)
    case StopTake => DoStopTake(s)
    case StopCallDone => DoStopCallDone(s)
    case StopDrop => DoStopDrop(s)
    case Restart => s.(state := Starting, stopWon := false)
    case Serve => DoServe(s)
    case HandlerReply(i, payload) => DoHandlerReply(s, i, payload)
    case HandlerNotify(payload) => DoHandlerNotify(s, payload)
  }

  ghost predicate Next(s: System, step: Step, s': System) {
    Enabled(s, step) && s' == Apply(s, step)
  }

  /** Step i leads from state i to the next. */
  ghost predicate NextAt(states: seq<System>, steps: seq<Step>, i: nat)
    requires i < |steps| && i + 1 < |states|
  {
    Next(states[i], steps[i], states[i + 1])
  }

  /** The states of a run, the first one included, and the steps between them. */
  ghost predicate IsRun(cfg: Config, notifyCapacity: nat, states: seq<System>, steps: seq<Step>) {
    && |states| == |steps| + 1
    && states[0] == InitialSystem(cfg, notifyCapacity)
    && forall i :: 0 <= i < |steps| ==> NextAt(states, steps, i)
  }
}
