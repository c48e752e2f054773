/** The steps of the engine thread, of stopping and of the server keep the invariant. */
module RequestReplyEngine {
  import opened Basics
  import opened ClientSections
  import opened RequestReply
  import opened RequestReplyInvariant
  import opened RequestReplyCalls
  import Srv = ServerSections

  // ----- engine thread

  /** The state at the head of the drain loop: nobody owns the slot and no request is outstanding. */
  ghost predicate AtLoopHead(s: System) {
    && (s.engine.Idle? || s.engine.Deliver?)
    && s.stop.NotStopping? && s.h.owner.Nobody?
    && (s.client.slot.None? || (s.client.slot == Some(NoCallback) && s.client.queue != []))
    && !s.client.armedTwice
    && (s.state.Stopped? ==> !s.open)
    && LinkInv(s) && CallbackInv(s) && CallerInv(s) && MessageInv(s) && ReplyInv(s)
  }

  lemma LoopKeepsControl(s: System)
    requires AtLoopHead(s)
    ensures ControlInv(DrainLoop(s))
  {
  }

  lemma LoopKeepsLedger(s: System)
    requires s.engine.Idle? || s.engine.Deliver?
    requires LedgerInv(s.h.issued, s.h.invoked, s.client.slot, s.client.queue, s.engine, s.stop)
    requires s.client.slot.None? || s.client.slot == Some(NoCallback)
    ensures var s' := DrainLoop(s);
            LedgerInv(s'.h.issued, s'.h.invoked, s'.client.slot, s'.client.queue, s'.engine, s'.stop)
  {
  }

  lemma LoopKeepsCallbacks(s: System)
    requires (s.engine.Idle? || s.engine.Deliver?) && CallbackInv(s) && s.h.owner.Nobody?
    requires s.client.slot.None? || s.client.slot == Some(NoCallback)
    ensures CallbackInv(DrainLoop(s))
  {
    LoopKeepsLedger(s);
  }

  lemma LoopKeepsMessages(s: System)
    requires (s.engine.Idle? || s.engine.Deliver?) && s.h.owner.Nobody? && s.stop.NotStopping? && MessageInv(s)
    ensures MessageInv(DrainLoop(s))
  {
    if s.client.queue != [] {
      assert InHand(s.threads, DrainLoop(s).engine) == InHand(s.threads, s.engine) + multiset{s.client.queue[0].ticket};
      OrderPopped(s.h.accepted, s.h.next, s.h.resolved, InHand(s.threads, s.engine), s.client.queue);
    }
  }

  lemma LoopKeepsLink(s: System)
    requires (s.engine.Idle? || s.engine.Deliver?) && s.h.owner.Nobody? && LinkInv(s)
    ensures LinkInv(DrainLoop(s))
  {
  }

  lemma LoopKeepsReplies(s: System)
    requires (s.engine.Idle? || s.engine.Deliver?) && ReplyInv(s)
    ensures ReplyInv(DrainLoop(s))
  {
  }

  lemma LoopKeepsInv(s: System)
    requires AtLoopHead(s)
    ensures Inv(DrainLoop(s))
  {
    LoopKeepsControl(s);
    LoopKeepsCallbacks(s);
    LoopKeepsMessages(s);
    LoopKeepsLink(s);
    LoopKeepsReplies(s);
  }

  /** The slot was occupied for the command: nothing else can be in it with an idle engine and an empty wire. */
  lemma ArmedIff(s: System)
    requires ControlInv(s) && LinkInv(s) && s.stop.NotStopping? && s.engine.Idle?
    ensures s.h.owner.Armed? <==> s.client.slot == Some(NoCallback) && !s.h.owner.Server?
    ensures s.h.owner.Server? <==> Outstanding(s.wire, s.handler, s.server.sendQueue, s.engine) == 1
  {
  }

  /** A command that a stop left behind finds nothing to do. */
  lemma LeftoverKeepsInv(s: System)
    requires Inv(s) && !s.h.owner.Armed? && s.client.queue == []
    ensures Inv(s.(client := s.client.(armed := false)))
  {
  }

  lemma RunAsyncKeepsInv(s: System)
    requires Inv(s) && s.stop.NotStopping? && s.engine.Idle? && s.client.armed
    requires s.client.queue != [] <==>
               s.client.slot == Some(NoCallback) &&
               Outstanding(s.wire, s.handler, s.server.sendQueue, s.engine) == 0
    ensures Inv(DoRunAsync(s))
  {
    ArmedIff(s);
    if s.h.owner.Armed? {
      LoopKeepsInv(s.(client := s.client.(armed := false), h := s.h.(owner := Nobody)));
    } else {
      LeftoverKeepsInv(s);
    }
  }

  /** A reply in hand means the slot still belongs to the request it answers. */
  lemma ReplyFindsItsRequest(s: System)
    requires ControlInv(s) && LinkInv(s) && s.engine.GotReply?
    ensures s.h.owner == Server(s.engine.ticket)
    ensures s.client.slot == Some(if s.engine.ticket in s.h.silent then NoCallback else OnReply(s.engine.ticket))
  {
  }

  lemma ReplyTakenAtLoopHead(s: System)
    requires Inv(s) && s.stop.NotStopping? && s.engine.GotReply? && s.client.slot.Some?
    ensures AtLoopHead(ReplyTaken(s))
  {
    ReplyFindsItsRequest(s);
  }

  lemma TakeReplyKeepsInv(s: System)
    requires Inv(s) && s.stop.NotStopping? && s.engine.GotReply?
    ensures Inv(DoTakeReply(s))
  {
    ReplyFindsItsRequest(s);
    ReplyTakenAtLoopHead(s);
    LoopKeepsInv(ReplyTaken(s));
  }

  ghost predicate MayReceive(s: System) {
    s.stop.NotStopping? && s.engine.Idle? && s.open && s.server.sendQueue != []
  }

  /** The engine takes a packet in hand, and the server's queue gives it. */
  function Receiving(s: System, server: Srv.Server, engine: Frame): System {
    s.(server := server, engine := engine)
  }

  lemma ReceivingKeepsControl(s: System, server: Srv.Server, engine: Frame)
    requires ControlInv(s) && MayReceive(s) && (engine.GotReply? || engine.Notified?)
    ensures ControlInv(Receiving(s, server, engine))
  {
  }

  lemma ReceivingKeepsCallbacks(s: System, server: Srv.Server, engine: Frame)
    requires CallbackInv(s) && s.engine.Idle? && (engine.GotReply? || engine.Notified?)
    ensures CallbackInv(Receiving(s, server, engine))
  {
  }

  lemma ReceivingKeepsMessages(s: System, server: Srv.Server, engine: Frame)
    requires MessageInv(s) && s.engine.Idle? && (engine.GotReply? || engine.Notified?)
    ensures MessageInv(Receiving(s, server, engine))
  {
  }

  /** How the frame the engine goes to relates to the queue. */
  ghost predicate Read(before: seq<Srv.Item>, after: seq<Srv.Item>, engine: Frame) {
    || (engine.Notified? && Srv.Replies(before) == Srv.Replies(after))
    || (engine.GotReply? && Srv.Replies(before) == [engine.ticket] + Srv.Replies(after))
  }

  lemma ReceivingKeepsOutstanding(owner: Owner, wire: seq<ToServer>, handler: seq<nat>, before: seq<Srv.Item>,
                                  after: seq<Srv.Item>, engine: Frame)
    requires OutstandingInv(owner, wire, handler, before, Idle) && Read(before, after, engine)
    ensures OutstandingInv(owner, wire, handler, after, engine)
  {
    if owner.Server? && engine.GotReply? {
      assert Srv.Replies(before)[0] == engine.ticket;
    }
  }

  lemma ReceivingKeepsReplies(before: seq<Srv.Item>, after: seq<Srv.Item>, buffer: Bytes, engine: Frame,
                              replied: set<(nat, Bytes)>, silent: set<nat>)
    requires QueuedReplyInv(before, buffer, replied) && Read(before, after, engine)
    requires engine.GotReply? ==> engine.payload == buffer
    ensures QueuedReplyInv(after, buffer, replied) && EngineReplyInv(engine, replied, silent)
  {
    if engine.GotReply? {
      assert Srv.Replies(before)[0] == engine.ticket;
      assert forall i :: 0 <= i < |Srv.Replies(after)| ==> Srv.Replies(after)[i] == Srv.Replies(before)[i + 1];
    }
  }

  lemma ReceiveOutcome(s: System)
    requires ServerInv(s.notifyCapacity, s.server) && MayReceive(s)
    ensures var s' := DoReceive(s);
            && s' == Receiving(s, s'.server, s'.engine)
            && ServerInv(s.notifyCapacity, s'.server)
            && s'.server.replyBuffer == s.server.replyBuffer
            && Read(s.server.sendQueue, s'.server.sendQueue, s'.engine)
            && (s'.engine.GotReply? ==> s'.engine.payload == s.server.replyBuffer)
  {
    Srv.ReadKeepsBuffers(s.notifyCapacity, s.server);
    Srv.ReadTakesReply(s.server);
  }

  lemma ReceiveKeepsInv(s: System)
    requires Inv(s) && MayReceive(s)
    ensures Inv(DoReceive(s))
  {
    var s' := DoReceive(s);
    ReceiveOutcome(s);
    ReceivingKeepsControl(s, s'.server, s'.engine);
    ReceivingKeepsCallbacks(s, s'.server, s'.engine);
    ReceivingKeepsMessages(s, s'.server, s'.engine);
    ReceivingKeepsOutstanding(s.h.owner, s.wire, s.handler, s.server.sendQueue, s'.server.sendQueue, s'.engine);
    ReceivingKeepsReplies(s.server.sendQueue, s'.server.sendQueue, s.server.replyBuffer, s'.engine, s.h.replied,
                          s.h.silent);
  }

  lemma DrainTransmitKeepsControl(s: System, ok: bool)
    requires ControlInv(s) && CallbackInv(s)
    requires s.stop.NotStopping? && s.engine.DrainSend? && (ok ==> s.open)
    ensures ControlInv(DoDrainTransmit(s, ok)) && CallbackInv(DoDrainTransmit(s, ok))
  {
  }

  lemma DrainTransmitKeepsMessages(s: System, ok: bool)
    requires ControlInv(s) && MessageInv(s) && s.stop.NotStopping? && s.engine.DrainSend?
    ensures MessageInv(DoDrainTransmit(s, ok))
  {
    var e := s.engine.entry;
    var r := if s.open then OnWire(e.ticket, Stored(s.client, e.buffer)) else Dropped(e.ticket);
    assert InHand(s.threads, DoDrainTransmit(s, ok).engine) == InHand(s.threads, s.engine) - multiset{e.ticket};
    assert Pending(s.h.owner, s.threads, s.engine) == [e.ticket];
    OrderSent(s.h.accepted, s.h.next, s.h.resolved, InHand(s.threads, s.engine), s.client.queue, false, r);
  }

  lemma DrainTransmitKeepsLink(s: System, ok: bool)
    requires ControlInv(s) && LinkInv(s) && s.stop.NotStopping? && s.engine.DrainSend? && (ok ==> s.open)
    ensures LinkInv(DoDrainTransmit(s, ok))
  {
    RequestsAppend(s.wire, Request(s.engine.entry.ticket));
    RequestsAppend(s.wire, Plain(s.engine.entry.ticket));
  }

  lemma DrainTransmitKeepsInv(s: System, ok: bool)
    requires Inv(s) && s.stop.NotStopping? && s.engine.DrainSend? && (ok ==> s.open)
    ensures Inv(DoDrainTransmit(s, ok))
  {
    DrainTransmitKeepsControl(s, ok);
    DrainTransmitKeepsMessages(s, ok);
    DrainTransmitKeepsLink(s, ok);
  }

  lemma PlainDrainedAtLoopHead(s: System)
    requires Inv(s) && s.stop.NotStopping? && s.engine.DrainSent? && s.engine.entry.callback.NoCallback?
    ensures AtLoopHead(PlainDrained(s))
  {
  }

  /** A drained request that was transmitted leaves the loop; the slot now belongs to the server. */
  lemma RequestDrainedKeepsInv(s: System)
    requires Inv(s) && s.stop.NotStopping? && s.engine.DrainSent? && !EngineOwns(s.engine)
    ensures Inv(s.(engine := Continue(s.engine.after)))
  {
  }

  lemma RequestFailedKeepsInv(s: System)
    requires Inv(s) && s.stop.NotStopping? && s.engine.DrainSent? && !s.engine.ok && s.engine.entry.callback.OnReply?
    ensures Inv(s.(client := s.client.(slot := Some(NoCallback)),
                engine := DrainError(s.engine.entry.callback.ticket, s.engine.after)))
  {
  }

  lemma DrainRelockKeepsInv(s: System)
    requires Inv(s) && s.stop.NotStopping? && s.engine.DrainSent?
    ensures Inv(DoDrainRelock(s))
  {
    if s.engine.entry.callback.NoCallback? {
      PlainDrainedAtLoopHead(s);
      LoopKeepsInv(PlainDrained(s));
    } else if s.engine.ok {
      RequestDrainedKeepsInv(s);
    } else {
      RequestFailedKeepsInv(s);
    }
  }

  /** What an error callback finds in the slot on its return, unless a call has taken it in the meantime. */
  ghost predicate MayReset(s: System) {
    || s.client.slot.None?
    || (s.client.slot == Some(NoCallback) && Outstanding(s.wire, s.handler, s.server.sendQueue, s.engine) == 0)
  }

  lemma ErrorReportedKeepsCallbacks(s: System)
    requires ControlInv(s) && CallbackInv(s) && s.stop.NotStopping? && s.engine.DrainError? && MayReset(s)
    ensures CallbackInv(ErrorReported(s))
  {
  }

  lemma ErrorReportedKeepsLink(s: System)
    requires ControlInv(s) && LinkInv(s) && s.engine.DrainError? && MayReset(s)
    ensures LinkInv(ErrorReported(s))
  {
  }

  lemma ErrorReportedKeepsMessages(s: System)
    requires ControlInv(s) && MessageInv(s) && ReplyInv(s) && s.engine.DrainError? && MayReset(s)
    ensures MessageInv(ErrorReported(s)) && ReplyInv(ErrorReported(s))
  {
    assert Pending(s.h.owner, s.threads, s.engine) == [];
  }

  lemma ErrorReportedAtLoopHead(s: System)
    requires Inv(s) && s.stop.NotStopping? && s.engine.DrainError? && MayReset(s)
    ensures AtLoopHead(ErrorReported(s))
  {
    ErrorReportedKeepsCallbacks(s);
    ErrorReportedKeepsLink(s);
    ErrorReportedKeepsMessages(s);
  }

  lemma DeliveredKeepsControl(s: System)
    requires ControlInv(s) && LinkInv(s) && s.stop.NotStopping? && (s.engine.Deliver? || s.engine.Notified?)
    ensures ControlInv(DoCallbackDone(s)) && LinkInv(DoCallbackDone(s))
  {
  }

  lemma DeliveredKeepsCallbacks(s: System)
    requires CallbackInv(s) && ReplyInv(s) && (s.engine.Deliver? || s.engine.Notified?)
    ensures CallbackInv(DoCallbackDone(s)) && ReplyInv(DoCallbackDone(s))
  {
  }

  lemma DeliveredKeepsInv(s: System)
    requires Inv(s) && s.stop.NotStopping? && (s.engine.Deliver? || s.engine.Notified?)
    ensures Inv(DoCallbackDone(s))
  {
    DeliveredKeepsControl(s);
    DeliveredKeepsCallbacks(s);
  }

  lemma CallbackDoneKeepsInv(s: System)
    requires Inv(s) && s.stop.NotStopping? && (s.engine.DrainError? || s.engine.Deliver? || s.engine.Notified?)
    requires s.engine.DrainError? ==> MayReset(s)
    ensures Inv(DoCallbackDone(s))
  {
    if !s.engine.DrainError? {
      DeliveredKeepsInv(s);
    } else {
      ErrorReportedAtLoopHead(s);
      LoopKeepsInv(ErrorReported(s));
    }
  }

  // ----- connecting and stopping

  lemma ConnectKeepsInv(s: System)
    requires Inv(s) && s.stop.NotStopping? && s.engine.Idle? && !s.open
    ensures Inv(DoConnect(s))
  {
  }

  lemma LifecycleKeepsInv(s: System)
    requires Inv(s)
    ensures Inv(s.(stopWon := true)) && Inv(s.(state := Stopping)) && Inv(s.(state := Starting, stopWon := false))
  {
  }

  lemma StopCleanKeepsInv(s: System)
    requires Inv(s) && s.stop.NotStopping? && InUserCode(s.engine) && !s.state.Stopped?
    ensures Inv(DoStopClean(s))
  {
  }

  lemma StopCloseKeepsInv(s: System)
    requires Inv(s) && s.stop.Closing?
    ensures Inv(DoStopClose(s))
  {
  }

  lemma StopTakeKeepsControl(s: System)
    requires ControlInv(s) && s.stop.Taking?
    ensures ControlInv(DoStopTake(s))
  {
  }

  lemma StopTakeKeepsLedger(s: System)
    requires CallbackInv(s) && s.stop.Taking?
    ensures var s' := DoStopTake(s);
            LedgerInv(s'.h.issued, s'.h.invoked, s'.client.slot, s'.client.queue, s'.engine, s'.stop)
  {
  }

  lemma StopTakeKeepsOrphans(s: System)
    requires ControlInv(s) && CallbackInv(s) && s.stop.Taking?
    ensures var s' := DoStopTake(s);
            OrphanInv(s'.threads, s'.h.owner, s'.stop, s'.h.invoked)
  {
  }

  lemma StopTakeKeepsCallbacks(s: System)
    requires ControlInv(s) && CallbackInv(s) && s.stop.Taking?
    ensures CallbackInv(DoStopTake(s))
  {
    StopTakeKeepsLedger(s);
    StopTakeKeepsOrphans(s);
  }

  /** A message whose caller loses the slot stays in its hand, but its turn is over. */
  lemma OrderDrains(accepted: seq<nat>, next: nat, resolved: seq<Resolution>, pending: seq<nat>, hand: multiset<nat>,
                    queue: seq<Entry>)
    requires OrderInv(accepted, next, resolved, pending, hand, queue, false)
    ensures OrderInv(accepted, next, resolved, pending, hand, queue, true)
    ensures OrderInv(accepted, next, resolved, [], hand, queue, true)
  {
  }

  lemma StopTakeKeepsMessages(s: System)
    requires ControlInv(s) && MessageInv(s) && s.stop.Taking?
    ensures MessageInv(DoStopTake(s))
  {
    var s' := DoStopTake(s);
    OrderDrains(s.h.accepted, s.h.next, s.h.resolved, Pending(s.h.owner, s.threads, s.engine),
                InHand(s.threads, s.engine), s.client.queue);
    if IsTransmitting(s.threads, s.h.owner) {
      assert Pending(s'.h.owner, s'.threads, s'.engine) == [];
    } else {
      assert Pending(s'.h.owner, s'.threads, s'.engine) == Pending(s.h.owner, s.threads, s.engine);
    }
  }

  lemma StopTakeKeepsInv(s: System)
    requires Inv(s) && s.stop.Taking?
    ensures Inv(DoStopTake(s))
  {
    StopTakeKeepsControl(s);
    StopTakeKeepsCallbacks(s);
    StopTakeKeepsMessages(s);
  }

  lemma StopCallDoneKeepsInv(s: System)
    requires Inv(s) && s.stop.Calling?
    ensures Inv(DoStopCallDone(s))
  {
  }

  lemma DropKeepsLedger(s: System)
    requires CallbackInv(s) && s.stop.Dropping?
    ensures var s' := DoStopDrop(s);
            LedgerInv(s'.h.issued, s'.h.invoked, s'.client.slot, s'.client.queue, s'.engine, s'.stop)
  {
  }

  lemma DropKeepsCallbacks(s: System)
    requires CallbackInv(s) && s.stop.Dropping?
    ensures CallbackInv(DoStopDrop(s))
  {
    DropKeepsLedger(s);
  }

  lemma DropKeepsMessages(s: System)
    requires ControlInv(s) && MessageInv(s) && s.stop.Dropping?
    ensures MessageInv(DoStopDrop(s))
  {
    if s.client.queue != [] {
      OrderDropped(s.h.accepted, s.h.next, s.h.resolved, Pending(s.h.owner, s.threads, s.engine),
                   InHand(s.threads, s.engine), s.client.queue);
    }
  }

  lemma DropKeepsControl(s: System)
    requires ControlInv(s) && LinkInv(s) && s.stop.Dropping?
    ensures ControlInv(DoStopDrop(s)) && LinkInv(DoStopDrop(s))
  {
  }

  lemma StopDropKeepsInv(s: System)
    requires Inv(s) && s.stop.Dropping?
    ensures Inv(DoStopDrop(s))
  {
    DropKeepsControl(s);
    DropKeepsCallbacks(s);
    DropKeepsMessages(s);
  }

  // ----- server

  lemma ServeKeepsInv(s: System)
    requires Inv(s) && s.wire != []
    ensures Inv(DoServe(s))
  {
    ServeKeepsLink(s);
  }

  lemma ServeKeepsLink(s: System)
    requires LinkInv(s) && s.wire != []
    ensures LinkInv(DoServe(s))
  {
    var head := if s.wire[0].Request? then [s.wire[0].ticket] else [];
    assert Requests(s.wire) == head + Requests(s.wire[1..]);
    if s.h.owner.Server? {
      assert s.wire[0].Request? ==> Requests(s.wire)[0] == s.wire[0].ticket;
      assert forall i :: 0 <= i < |Requests(s.wire[1..])| ==>
          Requests(s.wire[1..])[i] == Requests(s.wire)[i + |head|];
    }
  }

  lemma HandlerReplyKeepsLink(s: System, i: nat, payload: Bytes)
    requires LinkInv(s) && i < |s.handler|
    ensures LinkInv(DoHandlerReply(s, i, payload))
  {
    Srv.RepliesAppend(s.server.sendQueue, Srv.ReplyItem(s.handler[i]));
    Srv.NotifyBuffersAppend(s.server.sendQueue, Srv.ReplyItem(s.handler[i]));
  }

  lemma HandlerReplyKeepsReplies(s: System, i: nat, payload: Bytes)
    requires LinkInv(s) && ReplyInv(s) && i < |s.handler|
    ensures ReplyInv(DoHandlerReply(s, i, payload))
  {
    Srv.RepliesAppend(s.server.sendQueue, Srv.ReplyItem(s.handler[i]));
  }

  lemma HandlerReplyKeepsInv(s: System, i: nat, payload: Bytes)
    requires Inv(s) && i < |s.handler|
    ensures Inv(DoHandlerReply(s, i, payload))
  {
    HandlerReplyKeepsLink(s, i, payload);
    HandlerReplyKeepsReplies(s, i, payload);
  }

  lemma HandlerNotifyKeepsInv(s: System, payload: Bytes)
    requires Inv(s) && s.open && s.server.notifyPool != []
    ensures Inv(DoHandlerNotify(s, payload))
  {
    Srv.NotifyAppends(s.notifyCapacity, s.server, payload);
    Srv.RepliesAppend(s.server.sendQueue, Srv.NotifyItem(s.server.notifyPool[0]));
  }
}
