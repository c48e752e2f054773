/**
 The invariant of the request/reply protocol, one predicate per concern, and
 what single operations on queues and logs do to it.
 */
module RequestReplyInvariant {
  import opened Basics
  import opened ClientSections
  import opened RequestReply
  import Srv = ServerSections

  // ----- views of the state

  predicate IsSender(pc: Pc) {
    pc.Sending? || (pc.Sent? && !pc.ok)
  }

  function TicketOf(pc: Pc): Option<nat> {
    match pc
    case Checked(_) => None
    case Sending(m) => Some(m.ticket)
    case Sent(ticket, _) => Some(ticket)
    case Waiting(ticket) => Some(ticket)
  }

  /** The engine frame is responsible for the slot. */
  predicate EngineOwns(f: Frame) {
    f.DrainSend? || (f.DrainSent? && !(f.ok && f.entry.callback.OnReply?)) || f.DrainError?
  }

  function EngineSlot(f: Frame): Callback
    requires EngineOwns(f)
  {
    match f
    case DrainSend(e, _) => e.callback
    case DrainSent(e, _, _) => e.callback
    case DrainError(_, _) => NoCallback
  }

  /** How many requests have reached the transport without their reply having been taken by the client. */
  function Outstanding(wire: seq<ToServer>, handler: seq<nat>, sendQueue: seq<Srv.Item>, engine: Frame): nat {
    |Requests(wire)| + |handler| + |Srv.Replies(sendQueue)| + if engine.GotReply? then 1 else 0
  }

  predicate AllAre(s: seq<nat>, ticket: nat) {
    forall i :: 0 <= i < |s| ==> s[i] == ticket
  }

  function Buffers(q: seq<Entry>): seq<nat> {
    seq(|q|, i requires 0 <= i < |q| => q[i].buffer)
  }

  function Tickets(q: seq<Entry>): seq<nat> {
    seq(|q|, i requires 0 <= i < |q| => q[i].ticket)
  }

  function ResolvedTickets(r: seq<Resolution>): seq<nat> {
    seq(|r|, i requires 0 <= i < |r| => r[i].ticket)
  }

  function Holds(callback: Callback, ticket: nat): nat {
    if callback == OnReply(ticket) then 1 else 0
  }

  function SlotHolds(slot: Option<Callback>, ticket: nat): nat {
    if slot.Some? then Holds(slot.value, ticket) else 0
  }

  function QueueHolds(q: seq<Entry>, ticket: nat): nat {
    if q == [] then 0 else Holds(q[0].callback, ticket) + QueueHolds(q[1..], ticket)
  }

  function AfterHolds(after: Option<Delivery>, ticket: nat): nat {
    if after.Some? then Holds(after.value.callback, ticket) else 0
  }

  function FrameHolds(f: Frame, ticket: nat): nat {
    match f
    case DrainSend(_, after) => AfterHolds(after, ticket)
    case DrainSent(_, _, after) => AfterHolds(after, ticket)
    case DrainError(t, after) => (if t == ticket then 1 else 0) + AfterHolds(after, ticket)
    case Deliver(d) => Holds(d.callback, ticket)
    case _ => 0
  }

  function StopHolds(p: StopPhase, ticket: nat): nat {
    if p.Calling? then Holds(p.callback, ticket) else 0
  }

  /** How often the callback is held by the slot, the queue, or a frame that will run it. */
  function StillHeld(slot: Option<Callback>, queue: seq<Entry>, engine: Frame, stop: StopPhase, ticket: nat): nat {
    SlotHolds(slot, ticket) + QueueHolds(queue, ticket) + FrameHolds(engine, ticket) + StopHolds(stop, ticket)
  }

  /** The messages that calls are about to transmit. */
  function SendingTickets(threads: map<nat, Pc>): set<nat> {
    set tid | tid in threads && threads[tid].Sending? :: threads[tid].m.ticket
  }

  /** The accepted messages that have left the queue, or were never in it, and are about to be transmitted. */
  function InHand(threads: map<nat, Pc>, engine: Frame): multiset<nat> {
    multiset(SendingTickets(threads)) + if engine.DrainSend? then multiset{engine.entry.ticket} else multiset{}
  }

  /** The one of them that is next to be transmitted: its callback is in the slot. */
  function Pending(owner: Owner, threads: map<nat, Pc>, engine: Frame): seq<nat> {
    if IsTransmitting(threads, owner) then [threads[owner.tid].m.ticket]
    else if engine.DrainSend? then [engine.entry.ticket]
    else []
  }

  predicate Increasing(s: seq<nat>) {
    forall i, j :: 0 <= i < j < |s| ==> s[i] < s[j]
  }

  function AfterOf(f: Frame): Option<Delivery> {
    match f
    case DrainSend(_, after) => after
    case DrainSent(_, _, after) => after
    case DrainError(_, after) => after
    case Deliver(d) => Some(d)
    case _ => None
  }

  /** The stop drain is under way: it has taken the slot and releases the mutex around callbacks. */
  predicate Draining(stop: StopPhase) {
    stop.Calling? || stop.Dropping?
  }

  // ----- the invariant, one predicate per concern, over just the fields it speaks of

  /** What the slot holds, depending on who has to empty it. */
  ghost predicate SlotInv(owner: Owner, slot: Option<Callback>, armed: bool, threads: map<nat, Pc>, engine: Frame,
                          stop: StopPhase, open: bool, silent: set<nat>)
  {
    match owner
    case Nobody => slot.None?
    case Armed => slot == Some(NoCallback) && armed
    case User(tid) =>
      tid in threads && IsSender(threads[tid]) && slot == Some(OnReply(TicketOf(threads[tid]).value))
    case Engine => EngineOwns(engine) && slot == Some(EngineSlot(engine))
    case Server(ticket) => open && slot == Some(if ticket in silent then NoCallback else OnReply(ticket))
    case Abandoned => slot.Some? && (stop.Closing? || stop.Taking?)
  }

  ghost predicate QueueSlotInv(queue: seq<Entry>, slot: Option<Callback>, stop: StopPhase) {
    queue != [] ==> slot.Some? || Draining(stop)
  }

  ghost predicate StopInv(owner: Owner, engine: Frame, stop: StopPhase, open: bool, state: State) {
    && (!stop.NotStopping? ==> InUserCode(engine))
    && (stop.Taking? || Draining(stop) ==> !open)
    && (Draining(stop) ==> !owner.Engine?)
    && (state.Stopped? ==> !open && stop.NotStopping?)
  }

  /** A frame that runs an error callback may have lost the slot meanwhile. */
  ghost predicate EngineInv(engine: Frame, owner: Owner) {
    && (EngineOwns(engine) && !engine.DrainError? ==> owner.Engine?)
    && (engine.DrainSent? && !EngineOwns(engine) ==> owner == Server(engine.entry.ticket))
  }

  ghost predicate ServerInv(capacity: nat, server: Srv.Server) {
    Srv.BuffersAccounted(capacity, server) && !server.replyLinkedTwice
  }

  ghost predicate ClosedInv(open: bool, wire: seq<ToServer>, handler: seq<nat>, sendQueue: seq<Srv.Item>,
                            engine: Frame)
  {
    !open ==> wire == [] && handler == [] && sendQueue == [] && !engine.GotReply?
  }

  ghost predicate OutstandingInv(owner: Owner, wire: seq<ToServer>, handler: seq<nat>, sendQueue: seq<Srv.Item>,
                                 engine: Frame)
  {
    && Outstanding(wire, handler, sendQueue, engine) == (if owner.Server? then 1 else 0)
    && (owner.Server? ==>
          && AllAre(Requests(wire), owner.ticket) && AllAre(handler, owner.ticket)
          && AllAre(Srv.Replies(sendQueue), owner.ticket) && (engine.GotReply? ==> engine.ticket == owner.ticket))
  }

  /** Every preallocated send buffer is in exactly one place: the pool, the queue, or lost to a stop drain. */
  ghost predicate BufferInv(capacity: nat, pool: seq<nat>, queue: seq<Entry>, lost: seq<nat>) {
    multiset(pool) + multiset(Buffers(queue)) + multiset(lost) == multiset(Indices(capacity))
  }

  ghost predicate TicketInv(next: nat, issued: set<nat>, silent: set<nat>, refused: set<nat>, owner: Owner) {
    && issued !! refused && issued !! silent
    && (forall t :: t in issued || t in refused || t in silent ==> t < next)
    && (owner.Server? ==> owner.ticket < next)
  }

  ghost predicate EntryOk(e: Entry, issued: set<nat>, silent: set<nat>) {
    if e.callback.OnReply? then e.callback.ticket == e.ticket && e.ticket in issued else e.ticket in silent
  }

  ghost predicate QueueInv(queue: seq<Entry>, issued: set<nat>, silent: set<nat>) {
    forall i :: 0 <= i < |queue| ==> EntryOk(queue[i], issued, silent)
  }

  ghost predicate EngineEntryInv(engine: Frame, issued: set<nat>, silent: set<nat>) {
    engine.DrainSend? || engine.DrainSent? ==> EntryOk(engine.entry, issued, silent)
  }

  ghost predicate ThreadsInv(threads: map<nat, Pc>, issued: set<nat>) {
    && (forall tid :: tid in threads && TicketOf(threads[tid]).Some? ==> TicketOf(threads[tid]).value in issued)
    && (forall a, b :: a in threads && b in threads && a != b && TicketOf(threads[a]).Some? ==>
          TicketOf(threads[a]) != TicketOf(threads[b]))
  }

  /** Every issued callback has run once or is held once. */
  ghost predicate LedgerInv(issued: set<nat>, invoked: multiset<nat>, slot: Option<Callback>, queue: seq<Entry>,
                            engine: Frame, stop: StopPhase)
  {
    forall t: nat :: (if t in issued then 1 else 0) == invoked[t] + StillHeld(slot, queue, engine, stop, t)
  }

  /** A call that lost the slot to a stop has had its callback taken. */
  ghost predicate OrphanInv(threads: map<nat, Pc>, owner: Owner, stop: StopPhase, invoked: multiset<nat>) {
    forall tid :: tid in threads && IsSender(threads[tid]) && owner != User(tid) ==>
      invoked[TicketOf(threads[tid]).value] + StopHolds(stop, TicketOf(threads[tid]).value) >= 1
  }

  /** The call that handed this callback over has not returned. */
  ghost predicate HasCaller(threads: map<nat, Pc>, ticket: nat) {
    exists tid :: tid in threads && TicketOf(threads[tid]) == Some(ticket)
  }

  /** As long as a callback of SendWaitReply can still run, its caller is there. */
  ghost predicate CallersStay(waits: set<nat>, issued: set<nat>, invoked: multiset<nat>, threads: map<nat, Pc>) {
    forall t :: t in waits && t in issued && invoked[t] == 0 ==> HasCaller(threads, t)
  }

  ghost predicate WaitInv(next: nat, waits: set<nat>, issued: set<nat>, invoked: multiset<nat>, threads: map<nat, Pc>) {
    && (forall t :: t in waits ==> t < next)
    && (forall tid :: tid in threads && TicketOf(threads[tid]).Some? ==> TicketOf(threads[tid]).value in waits)
    && CallersStay(waits, issued, invoked, threads)
  }

  /** Every accepted message is in one place: attempted or dropped, about to be transmitted, or queued. */
  ghost predicate Accounted(accepted: seq<nat>, resolved: seq<Resolution>, hand: multiset<nat>, queue: seq<Entry>) {
    multiset(accepted) == multiset(ResolvedTickets(resolved)) + hand + multiset(Tickets(queue))
  }

  /** Transmissions follow the order of acceptance. */
  ghost predicate WireOrdered(resolved: seq<Resolution>) {
    forall i, j :: 0 <= i < j < |resolved| && resolved[i].OnWire? && resolved[j].OnWire? ==>
      resolved[i].ticket < resolved[j].ticket
  }

  /** What was transmitted was accepted before this one. */
  ghost predicate AfterWire(resolved: seq<Resolution>, ticket: nat) {
    forall i :: 0 <= i < |resolved| && resolved[i].OnWire? ==> resolved[i].ticket < ticket
  }

  ghost predicate LaterThanWire(resolved: seq<Resolution>, tickets: seq<nat>) {
    forall k :: 0 <= k < |tickets| ==> AfterWire(resolved, tickets[k])
  }

  ghost predicate AllBelow(tickets: seq<nat>, bound: nat) {
    forall i :: 0 <= i < |tickets| ==> tickets[i] < bound
  }

  /** While a stop drains the queue, a call may find the slot empty before the queue is. */
  ghost predicate OrderInv(accepted: seq<nat>, next: nat, resolved: seq<Resolution>, pending: seq<nat>,
                           hand: multiset<nat>, queue: seq<Entry>, draining: bool)
  {
    && Accounted(accepted, resolved, hand, queue)
    && Increasing(accepted) && AllBelow(accepted, next)
    && WireOrdered(resolved) && AllBelow(ResolvedTickets(resolved), next)
    && LaterThanWire(resolved, pending) && LaterThanWire(resolved, Tickets(queue))
    && AllBelow(pending, next) && AllBelow(Tickets(queue), next) && Increasing(Tickets(queue))
    && |pending| <= 1
    && (!draining && pending != [] && queue != [] ==> pending[0] < queue[0].ticket)
  }

  /** The reply went to the callback of the request it answers, with the payload the handler gave. */
  ghost predicate DeliveryOk(d: Delivery, replied: set<(nat, Bytes)>, silent: set<nat>) {
    && (d.ticket, d.payload) in replied
    && (d.callback == OnReply(d.ticket) || (d.callback.NoCallback? && d.ticket in silent))
  }

  ghost predicate QueuedReplyInv(sendQueue: seq<Srv.Item>, replyBuffer: Bytes, replied: set<(nat, Bytes)>) {
    forall i :: 0 <= i < |Srv.Replies(sendQueue)| ==> (Srv.Replies(sendQueue)[i], replyBuffer) in replied
  }

  ghost predicate EngineReplyInv(engine: Frame, replied: set<(nat, Bytes)>, silent: set<nat>) {
    && (engine.GotReply? ==> (engine.ticket, engine.payload) in replied)
    && (AfterOf(engine).Some? ==> DeliveryOk(AfterOf(engine).value, replied, silent))
  }

  ghost predicate AnsweredInv(answered: seq<Delivery>, replied: set<(nat, Bytes)>, silent: set<nat>) {
    forall i :: 0 <= i < |answered| ==> DeliveryOk(answered[i], replied, silent)
  }

  ghost predicate ControlInv(s: System) {
    && SlotInv(s.h.owner, s.client.slot, s.client.armed, s.threads, s.engine, s.stop, s.open, s.h.silent)
    && QueueSlotInv(s.client.queue, s.client.slot, s.stop)
    && StopInv(s.h.owner, s.engine, s.stop, s.open, s.state)
    && EngineInv(s.engine, s.h.owner)
    && !s.client.armedTwice
  }

  ghost predicate LinkInv(s: System) {
    && ServerInv(s.notifyCapacity, s.server)
    && ClosedInv(s.open, s.wire, s.handler, s.server.sendQueue, s.engine)
    && OutstandingInv(s.h.owner, s.wire, s.handler, s.server.sendQueue, s.engine)
  }

  ghost predicate CallbackInv(s: System) {
    && TicketInv(s.h.next, s.h.issued, s.h.silent, s.h.refused, s.h.owner)
    && QueueInv(s.client.queue, s.h.issued, s.h.silent)
    && EngineEntryInv(s.engine, s.h.issued, s.h.silent)
    && ThreadsInv(s.threads, s.h.issued)
    && LedgerInv(s.h.issued, s.h.invoked, s.client.slot, s.client.queue, s.engine, s.stop)
    && OrphanInv(s.threads, s.h.owner, s.stop, s.h.invoked)
  }

  ghost predicate CallerInv(s: System) {
    WaitInv(s.h.next, s.h.waits, s.h.issued, s.h.invoked, s.threads)
  }

  ghost predicate MessageInv(s: System) {
    OrderInv(s.h.accepted, s.h.next, s.h.resolved, Pending(s.h.owner, s.threads, s.engine),
             InHand(s.threads, s.engine), s.client.queue, Draining(s.stop))
  }

  ghost predicate ReplyInv(s: System) {
    && QueuedReplyInv(s.server.sendQueue, s.server.replyBuffer, s.h.replied)
    && EngineReplyInv(s.engine, s.h.replied, s.h.silent)
    && AnsweredInv(s.h.answered, s.h.replied, s.h.silent)
  }

  ghost predicate Inv(s: System) {
    ControlInv(s) && LinkInv(s) && CallbackInv(s) && CallerInv(s) && MessageInv(s) && ReplyInv(s)
  }

  lemma InitialInv(cfg: Config, notifyCapacity: nat)
    ensures Inv(InitialSystem(cfg, notifyCapacity))
  {
    var s := InitialSystem(cfg, notifyCapacity);
    assert SendingTickets(s.threads) == {};
    assert Tickets([]) == [] && ResolvedTickets([]) == [];
  }

  // ----- sequences and multisets

  lemma RequestsAppend(wire: seq<ToServer>, item: ToServer)
    ensures Requests(wire + [item]) == Requests(wire) + (if item.Request? then [item.ticket] else [])
  {
    if wire == [] {
      assert (wire + [item])[1..] == [];
    } else {
      assert (wire + [item])[1..] == wire[1..] + [item];
      RequestsAppend(wire[1..], item);
    }
  }

  lemma QueueHoldsAppend(q: seq<Entry>, e: Entry, ticket: nat)
    ensures QueueHolds(q + [e], ticket) == QueueHolds(q, ticket) + Holds(e.callback, ticket)
  {
    if q == [] {
      assert (q + [e])[1..] == [];
    } else {
      assert (q + [e])[1..] == q[1..] + [e];
      QueueHoldsAppend(q[1..], e, ticket);
    }
  }

  lemma AppendViews(q: seq<Entry>, e: Entry)
    ensures Buffers(q + [e]) == Buffers(q) + [e.buffer]
    ensures Tickets(q + [e]) == Tickets(q) + [e.ticket]
  {
  }

  lemma PopViews(q: seq<Entry>)
    requires q != []
    ensures Buffers(q) == [q[0].buffer] + Buffers(q[1..])
    ensures Tickets(q) == [q[0].ticket] + Tickets(q[1..])
  {
  }

  lemma ResolvedAppend(r: seq<Resolution>, x: Resolution)
    ensures ResolvedTickets(r + [x]) == ResolvedTickets(r) + [x.ticket]
  {
  }

  /** A buffer about to be borrowed is not queued, nor anywhere else in the pool. */
  lemma BorrowedIsFree(capacity: nat, pool: seq<nat>, queue: seq<Entry>, lost: seq<nat>)
    requires BufferInv(capacity, pool, queue, lost) && pool != []
    ensures forall i :: 0 <= i < |queue| ==> queue[i].buffer != pool[0]
  {
    IndicesOccurOnce(capacity, pool[0]);
    assert multiset(pool)[pool[0]] >= 1;
    assert pool[0] !in multiset(Buffers(queue));
    forall i | 0 <= i < |queue|
      ensures queue[i].buffer != pool[0]
    {
      assert Buffers(queue)[i] in multiset(Buffers(queue));
    }
  }

  // ----- single concerns

  lemma HeldByQueue(q: seq<Entry>, i: nat)
    requires i < |q| && q[i].callback.OnReply?
    ensures QueueHolds(q, q[i].callback.ticket) >= 1
  {
    if i > 0 {
      HeldByQueue(q[1..], i - 1);
    }
  }

  /** A callback that sits in the slot sits nowhere else and has not run. */
  lemma SlotHoldsAlone(issued: set<nat>, invoked: multiset<nat>, ticket: nat, queue: seq<Entry>, engine: Frame,
                       stop: StopPhase)
    requires LedgerInv(issued, invoked, Some(OnReply(ticket)), queue, engine, stop)
    ensures ticket in issued && invoked[ticket] == 0
    ensures forall i :: 0 <= i < |queue| ==> queue[i].callback != OnReply(ticket)
  {
    assert SlotHolds(Some(OnReply(ticket)), ticket) == 1;
    assert StillHeld(Some(OnReply(ticket)), queue, engine, stop, ticket) >= 1;
    forall i | 0 <= i < |queue|
      ensures queue[i].callback != OnReply(ticket)
    {
      if queue[i].callback == OnReply(ticket) {
        HeldByQueue(queue, i);
      }
    }
  }

  lemma OrderQueued(accepted: seq<nat>, next: nat, resolved: seq<Resolution>, pending: seq<nat>, hand: multiset<nat>,
                    queue: seq<Entry>, draining: bool, e: Entry)
    requires OrderInv(accepted, next, resolved, pending, hand, queue, draining) && e.ticket == next
    ensures OrderInv(accepted + [next], next + 1, resolved, pending, hand, queue + [e], draining)
  {
    AppendViews(queue, e);
    BelowIsAfter(resolved, next);
  }

  lemma BelowIsAfter(resolved: seq<Resolution>, next: nat)
    requires AllBelow(ResolvedTickets(resolved), next)
    ensures AfterWire(resolved, next)
  {
    forall i | 0 <= i < |resolved| && resolved[i].OnWire?
      ensures resolved[i].ticket < next
    {
      assert ResolvedTickets(resolved)[i] == resolved[i].ticket;
    }
  }

  lemma OrderTaken(accepted: seq<nat>, next: nat, resolved: seq<Resolution>, hand: multiset<nat>, queue: seq<Entry>,
                   draining: bool)
    requires OrderInv(accepted, next, resolved, [], hand, queue, draining) && (queue == [] || draining)
    ensures OrderInv(accepted + [next], next + 1, resolved, [next], hand + multiset{next}, queue, draining)
  {
    BelowIsAfter(resolved, next);
  }

  /** The pending message is transmitted, or meets the closed descriptor. */
  lemma OrderSent(accepted: seq<nat>, next: nat, resolved: seq<Resolution>, hand: multiset<nat>, queue: seq<Entry>,
                  draining: bool, r: Resolution)
    requires OrderInv(accepted, next, resolved, [r.ticket], hand, queue, draining) && (r.OnWire? ==> !draining)
    requires r.ticket in hand
    ensures OrderInv(accepted, next, resolved + [r], [], hand - multiset{r.ticket}, queue, draining)
  {
    ResolvedAppend(resolved, r);
    assert [r.ticket][0] == r.ticket && AfterWire(resolved, r.ticket);
    forall k | 0 <= k < |Tickets(queue)|
      ensures AfterWire(resolved + [r], Tickets(queue)[k])
    {
      assert AfterWire(resolved, Tickets(queue)[k]);
      assert k == 0 || Tickets(queue)[0] < Tickets(queue)[k];
    }
  }

  lemma TailKeepsOrder(resolved: seq<Resolution>, queue: seq<Entry>, next: nat)
    requires queue != [] && LaterThanWire(resolved, Tickets(queue)) && AllBelow(Tickets(queue), next)
    requires Increasing(Tickets(queue))
    ensures LaterThanWire(resolved, Tickets(queue[1..])) && AllBelow(Tickets(queue[1..]), next)
    ensures Increasing(Tickets(queue[1..])) && AfterWire(resolved, queue[0].ticket) && queue[0].ticket < next
    ensures queue[1..] != [] ==> queue[0].ticket < queue[1].ticket
  {
    assert forall k :: 0 <= k < |queue[1..]| ==> Tickets(queue[1..])[k] == Tickets(queue)[k + 1];
    assert Tickets(queue)[0] == queue[0].ticket;
    assert |queue| > 1 ==> Tickets(queue)[0] < Tickets(queue)[1];
  }

  lemma OrderPopped(accepted: seq<nat>, next: nat, resolved: seq<Resolution>, hand: multiset<nat>, queue: seq<Entry>)
    requires OrderInv(accepted, next, resolved, [], hand, queue, false) && queue != []
    ensures OrderInv(accepted, next, resolved, [queue[0].ticket], hand + multiset{queue[0].ticket}, queue[1..], false)
  {
    PopViews(queue);
    TailKeepsOrder(resolved, queue, next);
  }

  lemma OffWireKeepsOrder(resolved: seq<Resolution>, r: Resolution, tickets: seq<nat>)
    requires LaterThanWire(resolved, tickets) && !r.OnWire?
    ensures LaterThanWire(resolved + [r], tickets)
  {
    forall k | 0 <= k < |tickets|
      ensures AfterWire(resolved + [r], tickets[k])
    {
      assert AfterWire(resolved, tickets[k]);
    }
  }

  /** A call that lost the slot comes to its attempt. */
  lemma OrderLate(accepted: seq<nat>, next: nat, resolved: seq<Resolution>, pending: seq<nat>, hand: multiset<nat>,
                  queue: seq<Entry>, draining: bool, r: Resolution)
    requires OrderInv(accepted, next, resolved, pending, hand, queue, draining) && !r.OnWire? && r.ticket in hand
    ensures OrderInv(accepted, next, resolved + [r], pending, hand - multiset{r.ticket}, queue, draining)
  {
    ResolvedAppend(resolved, r);
    OffWireKeepsOrder(resolved, r, pending);
    OffWireKeepsOrder(resolved, r, Tickets(queue));
    assert r.ticket in multiset(accepted);
    HandIsBelow(accepted, next, r.ticket);
  }

  lemma HandIsBelow(accepted: seq<nat>, next: nat, ticket: nat)
    requires AllBelow(accepted, next) && ticket in multiset(accepted)
    ensures ticket < next
  {
    assert ticket in accepted;
  }

  lemma OrderDropped(accepted: seq<nat>, next: nat, resolved: seq<Resolution>, pending: seq<nat>, hand: multiset<nat>,
                     queue: seq<Entry>)
    requires OrderInv(accepted, next, resolved, pending, hand, queue, true) && queue != []
    ensures OrderInv(accepted, next, resolved + [Dropped(queue[0].ticket)], pending, hand, queue[1..], true)
  {
    PopViews(queue);
    TailKeepsOrder(resolved, queue, next);
    OffWireKeepsOrder(resolved, Dropped(queue[0].ticket), pending);
    OffWireKeepsOrder(resolved, Dropped(queue[0].ticket), Tickets(queue[1..]));
    ResolvedAppend(resolved, Dropped(queue[0].ticket));
  }

  /** A message transmitted inside the section that accepted it. */
  lemma OrderDirect(accepted: seq<nat>, next: nat, resolved: seq<Resolution>, hand: multiset<nat>, payload: Bytes)
    requires OrderInv(accepted, next, resolved, [], hand, [], false)
    ensures OrderInv(accepted + [next], next + 1, resolved + [OnWire(next, payload)], [], hand, [], false)
  {
    BelowIsAfter(resolved, next);
    ResolvedAppend(resolved, OnWire(next, payload));
    assert Tickets([]) == [];
  }

  lemma BufferQueued(capacity: nat, pool: seq<nat>, queue: seq<Entry>, lost: seq<nat>, e: Entry)
    requires BufferInv(capacity, pool, queue, lost) && pool != [] && e.buffer == pool[0]
    ensures BufferInv(capacity, pool[1..], queue + [e], lost)
  {
    AppendViews(queue, e);
    assert pool == [pool[0]] + pool[1..];
  }

  lemma BufferPopped(capacity: nat, pool: seq<nat>, queue: seq<Entry>, lost: seq<nat>)
    requires BufferInv(capacity, pool, queue, lost) && queue != []
    ensures BufferInv(capacity, [queue[0].buffer] + pool, queue[1..], lost)
    ensures BufferInv(capacity, pool, queue[1..], lost + [queue[0].buffer])
  {
    PopViews(queue);
  }
}
