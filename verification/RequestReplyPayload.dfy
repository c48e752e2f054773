/**
 Which payload a transmission carries, in every run. A buffer popped for
 transmission is back at the head of the pool, so that the first message queued
 before the transmission borrows it.
 */
module RequestReplyPayload {
  import opened Basics
  import opened ClientSections
  import opened RequestReply
  import opened RequestReplyInvariant
  import opened RequestReplyCalls
  import opened RequestReplyLedgers

  // ----- accepted payloads

  ghost predicate HasContent(storage: map<nat, Bytes>, content: map<nat, Bytes>, buffer: nat, ticket: nat) {
    ticket in content && buffer in storage && storage[buffer] == content[ticket]
  }

  ghost predicate QueueContent(queue: seq<Entry>, storage: map<nat, Bytes>, content: map<nat, Bytes>) {
    forall i :: 0 <= i < |queue| ==> HasContent(storage, content, queue[i].buffer, queue[i].ticket)
  }

  ghost predicate SendingContent(threads: map<nat, Pc>, content: map<nat, Bytes>) {
    forall tid :: tid in threads && threads[tid].Sending? ==>
      threads[tid].m.ticket in content && content[threads[tid].m.ticket] == threads[tid].m.payload
  }

  ghost predicate OldTickets(content: map<nat, Bytes>, next: nat) {
    forall t :: t in content ==> t < next
  }

  ghost predicate ContentLedger(s: System) {
    && QueueContent(s.client.queue, s.client.storage, s.h.content)
    && SendingContent(s.threads, s.h.content)
    && OldTickets(s.h.content, s.h.next)
  }

  /** Recorded payloads stay. */
  ghost predicate KeepsContent(s: System, s': System) {
    forall t :: t in s.h.content ==> t in s'.h.content && s'.h.content[t] == s.h.content[t]
  }

  /** Borrowing the free buffer leaves every queued payload in place. */
  lemma ContentQueued(queue: seq<Entry>, storage: map<nat, Bytes>, content: map<nat, Bytes>, e: Entry, payload: Bytes)
    requires QueueContent(queue, storage, content)
    requires e.ticket !in content && forall i :: 0 <= i < |queue| ==> queue[i].buffer != e.buffer
    ensures QueueContent(queue + [e], storage[e.buffer := payload], content[e.ticket := payload])
  {
    var storage', content' := storage[e.buffer := payload], content[e.ticket := payload];
    forall i | 0 <= i < |queue|
      ensures HasContent(storage', content', queue[i].buffer, queue[i].ticket)
    {
      assert HasContent(storage, content, queue[i].buffer, queue[i].ticket);
    }
  }

  lemma ContentAdded(queue: seq<Entry>, storage: map<nat, Bytes>, content: map<nat, Bytes>, t: nat, payload: Bytes)
    requires QueueContent(queue, storage, content) && t !in content
    ensures QueueContent(queue, storage, content[t := payload])
  {
    forall i | 0 <= i < |queue|
      ensures HasContent(storage, content[t := payload], queue[i].buffer, queue[i].ticket)
    {
      assert HasContent(storage, content, queue[i].buffer, queue[i].ticket);
    }
  }

  lemma QueuedKeepsContent(s: System, tid: nat, m: Message, callback: Callback, wait: bool)
    requires ClientLedger(s) && ContentLedger(s) && s.client.pool != [] && m.ticket == s.h.next
    ensures var s' := CallQueued(s, tid, m, callback, wait, QueuedClient(s, m, callback));
            ContentLedger(s') && KeepsContent(s, s')
  {
    BorrowedIsFree(s.cfg.capacity, s.client.pool, s.client.queue, s.h.lost);
    ContentQueued(s.client.queue, s.client.storage, s.h.content, Entry(s.client.pool[0], m.ticket, callback),
                  m.payload);
  }

  lemma EnterPlainKeepsContent(s: System, tid: nat, m: Message, ok: bool)
    requires ClientLedger(s) && ContentLedger(s) && m.ticket == s.h.next
    ensures ContentLedger(EnterPlain(s, tid, m, ok)) && KeepsContent(s, EnterPlain(s, tid, m, ok))
  {
    EnterPlainOutcome(s, tid, m, ok);
    ContentAdded(s.client.queue, s.client.storage, s.h.content, m.ticket, m.payload);
    if s.client.pool != [] {
      QueuedKeepsContent(s, tid, m, NoCallback, false);
    }
  }

  lemma EnterCallbackKeepsContent(s: System, tid: nat, m: Message, callback: Callback, ok: bool)
    requires ClientLedger(s) && ContentLedger(s) && m.ticket == s.h.next
    ensures ContentLedger(EnterCallback(s, tid, m, callback, ok))
    ensures KeepsContent(s, EnterCallback(s, tid, m, callback, ok))
  {
    EnterCallbackOutcome(s, tid, m, callback, ok);
    ContentAdded(s.client.queue, s.client.storage, s.h.content, m.ticket, m.payload);
    if s.client.pool != [] {
      QueuedKeepsContent(s, tid, m, callback, false);
    }
  }

  lemma EnterWaitKeepsContent(s: System, tid: nat, m: Message)
    requires ClientLedger(s) && ContentLedger(s) && m.ticket == s.h.next
    ensures ContentLedger(EnterWait(s, tid, m)) && KeepsContent(s, EnterWait(s, tid, m))
  {
    EnterWaitOutcome(s, tid, m);
    ContentAdded(s.client.queue, s.client.storage, s.h.content, m.ticket, m.payload);
    if s.client.pool != [] {
      QueuedKeepsContent(s, tid, m, OnReply(m.ticket), true);
    }
  }

  lemma EnterKeepsContent(s: System, tid: nat, ok: bool)
    requires ClientLedger(s) && ContentLedger(s) && tid in s.threads && s.threads[tid].Checked?
    ensures ContentLedger(DoEnter(s, tid, ok)) && KeepsContent(s, DoEnter(s, tid, ok))
  {
    var call := s.threads[tid].call;
    var m := Message(s.h.next, call.payload);
    match call.kind {
      case PlainSend => EnterPlainKeepsContent(s, tid, m, ok);
      case CallbackSend =>
        EnterCallbackKeepsContent(s, tid, m, if call.withCallback then OnReply(m.ticket) else NoCallback, ok);
      case WaitSend => EnterWaitKeepsContent(s, tid, m);
    }
  }

  /** Every other step records nothing and at most pops from the queue. */
  ghost predicate RecordsNothing(s: System, s': System) {
    && s'.h.content == s.h.content && s'.h.next >= s.h.next && s'.client.storage == s.client.storage
    && (s'.client.queue == s.client.queue || (s.client.queue != [] && s'.client.queue == s.client.queue[1..]))
    && forall tid :: tid in s'.threads && s'.threads[tid].Sending? ==>
         tid in s.threads && s'.threads[tid] == s.threads[tid]
  }

  lemma CallRecordsNothing(s: System, step: Step)
    requires Enabled(s, step) && (step.Transmit? || step.Return?)
    ensures RecordsNothing(s, Apply(s, step))
  {
  }

  lemma OutsideRecordsNothing(s: System, step: Step)
    requires Enabled(s, step) && (step.Begin? || step.Wake?)
    ensures RecordsNothing(s, Apply(s, step))
  {
  }

  lemma LoopRecordsNothing(s: System, head: System)
    requires head.engine.Idle? || head.engine.Deliver?
    requires head.h.content == s.h.content && head.h.next == s.h.next && head.threads == s.threads
    requires head.client.storage == s.client.storage && head.client.queue == s.client.queue
    ensures RecordsNothing(s, DrainLoop(head))
  {
  }

  lemma TransportRecordsNothing(s: System, step: Step)
    requires Enabled(s, step) && (step.Receive? || step.DrainTransmit?)
    ensures RecordsNothing(s, Apply(s, step))
  {
  }

  lemma TakeReplyRecordsNothing(s: System)
    requires s.engine.GotReply?
    ensures RecordsNothing(s, DoTakeReply(s))
  {
    if s.client.slot.Some? {
      LoopRecordsNothing(s, ReplyTaken(s));
    }
  }

  lemma CallbackDoneRecordsNothing(s: System)
    requires s.engine.DrainError? || s.engine.Deliver? || s.engine.Notified?
    ensures RecordsNothing(s, DoCallbackDone(s))
  {
    if s.engine.DrainError? {
      LoopRecordsNothing(s, ErrorReported(s));
    }
  }

  lemma EngineRecordsNothing(s: System, step: Step)
    requires Enabled(s, step) && ByEngine(step)
    ensures RecordsNothing(s, Apply(s, step))
  {
    match step {
      case RunAsync =>
        LoopRecordsNothing(s, s.(client := s.client.(armed := false), h := s.h.(owner := AfterAsync(s.h.owner))));
      case TakeReply => TakeReplyRecordsNothing(s);
      case DrainRelock => LoopRecordsNothing(s, PlainDrained(s));
      case CallbackDone => CallbackDoneRecordsNothing(s);
      case _ => TransportRecordsNothing(s, step);
    }
  }

  lemma DropRecordsNothing(s: System)
    requires s.stop.Dropping?
    ensures RecordsNothing(s, DoStopDrop(s))
  {
  }

  lemma StopRecordsNothing(s: System, step: Step)
    requires Enabled(s, step) && ByStop(step)
    ensures RecordsNothing(s, Apply(s, step))
  {
    if step.StopDrop? {
      DropRecordsNothing(s);
    }
  }

  lemma LifecycleRecordsNothing(s: System, step: Step)
    requires Enabled(s, step) && ByLifecycle(step)
    ensures RecordsNothing(s, Apply(s, step))
  {
  }

  lemma ServerRecordsNothing(s: System, step: Step)
    requires Enabled(s, step) && ByServer(step)
    ensures RecordsNothing(s, Apply(s, step))
  {
  }

  lemma StepKeepsContent(s: System, step: Step, s': System)
    requires ClientLedger(s) && ContentLedger(s) && Next(s, step, s')
    ensures ContentLedger(s') && KeepsContent(s, s')
  {
    if step.Enter? {
      EnterKeepsContent(s, step.tid, step.ok);
    } else if step.Transmit? || step.Return? {
      CallRecordsNothing(s, step);
    } else if step.Begin? || step.Wake? {
      OutsideRecordsNothing(s, step);
    } else if ByEngine(step) {
      EngineRecordsNothing(s, step);
    } else if ByStop(step) {
      StopRecordsNothing(s, step);
    } else if ByLifecycle(step) {
      LifecycleRecordsNothing(s, step);
    } else {
      ServerRecordsNothing(s, step);
    }
  }

  lemma {:induction false} ContentHolds(cfg: Config, n: nat, states: seq<System>, steps: seq<Step>, i: nat)
    requires IsRun(cfg, n, states, steps) && i < |states|
    ensures ContentLedger(states[i])
  {
    if i > 0 {
      ContentHolds(cfg, n, states, steps, i - 1);
      LedgersHold(cfg, n, states, steps, i - 1);
      assert NextAt(states, steps, i - 1);
      StepKeepsContent(states[i - 1], steps[i - 1], states[i]);
    }
  }

  // ----- the buffer of a popped entry

  /** The call section of this step put a message into the queue. */
  predicate Queues(s: System, step: Step, s': System) {
    step.Enter? && |s'.client.queue| > |s.client.queue|
  }

  function PayloadOf(s: System, step: Step): Bytes {
    if step.Enter? && step.tid in s.threads && s.threads[step.tid].Checked? then s.threads[step.tid].call.payload
    else []
  }

  /** What the steps so far have made of the buffer, and what one more step makes of it. */
  function AfterStep(borrowed: Option<Bytes>, s: System, step: Step, s': System): Option<Bytes> {
    if borrowed.Some? then borrowed else if Queues(s, step, s') then Some(PayloadOf(s, step)) else None
  }

  /** The payload of the first message queued by the steps from `from` on and before `to`. */
  function FirstQueued(states: seq<System>, steps: seq<Step>, from: nat, to: nat): Option<Bytes>
    requires from <= to <= |steps| < |states|
  {
    if from == to then None
    else
      var earlier := FirstQueued(states, steps, from, to - 1);
      AfterStep(earlier, states[to - 1], steps[to - 1], states[to])
  }

  /** Still at the head of the pool with the accepted payload, or borrowed with the given one. */
  ghost predicate BufferState(s: System, e: Entry, borrowed: Option<Bytes>) {
    match borrowed
    case None =>
      s.client.pool != [] && s.client.pool[0] == e.buffer &&
      HasContent(s.client.storage, s.h.content, e.buffer, e.ticket)
    case Some(payload) =>
      e.buffer !in s.client.pool && e.buffer in s.client.storage && s.client.storage[e.buffer] == payload
  }

  lemma LoopLeavesBuffer(s: System, head: System)
    requires ContentLedger(s) && (head.engine.Idle? || head.engine.Deliver?)
    requires head.h.content == s.h.content
    requires head.client.storage == s.client.storage && head.client.queue == s.client.queue
    ensures var s' := DrainLoop(head);
            s'.engine.DrainSend? ==> BufferState(s', s'.engine.entry, None)
  {
    if s.client.queue != [] {
      assert HasContent(s.client.storage, s.h.content, s.client.queue[0].buffer, s.client.queue[0].ticket);
    }
  }

  lemma LoopStepLeavesBuffer(s: System, step: Step)
    requires ContentLedger(s) && Enabled(s, step)
    requires step.RunAsync? || step.TakeReply? || step.DrainRelock? || step.CallbackDone?
    ensures var s' := Apply(s, step);
            s'.engine.DrainSend? ==> BufferState(s', s'.engine.entry, None)
  {
    match step {
      case RunAsync =>
        LoopLeavesBuffer(s, s.(client := s.client.(armed := false), h := s.h.(owner := AfterAsync(s.h.owner))));
      case TakeReply =>
        if s.client.slot.Some? {
          LoopLeavesBuffer(s, ReplyTaken(s));
        }
      case DrainRelock => LoopLeavesBuffer(s, PlainDrained(s));
      case CallbackDone =>
        if s.engine.DrainError? {
          LoopLeavesBuffer(s, ErrorReported(s));
        }
    }
  }

  lemma OtherPopsNothing(s: System, step: Step)
    requires Enabled(s, step) && !step.Enter?
    requires !step.RunAsync? && !step.TakeReply? && !step.DrainRelock? && !step.CallbackDone?
    ensures Apply(s, step).engine.DrainSend? ==> s.engine.DrainSend?
  {
  }

  lemma EnterPopsNothing(s: System, tid: nat, ok: bool)
    requires tid in s.threads && s.threads[tid].Checked?
    ensures DoEnter(s, tid, ok).engine == s.engine
  {
  }

  lemma PopLeavesBuffer(s: System, step: Step, s': System)
    requires ContentLedger(s) && Next(s, step, s') && !s.engine.DrainSend? && s'.engine.DrainSend?
    ensures BufferState(s', s'.engine.entry, None)
  {
    if step.RunAsync? || step.TakeReply? || step.DrainRelock? || step.CallbackDone? {
      LoopStepLeavesBuffer(s, step);
    } else if step.Enter? {
      EnterPopsNothing(s, step.tid, step.ok);
    } else {
      OtherPopsNothing(s, step);
    }
  }

  /** The pool's head occurs once in it. */
  lemma HeadIsUnique(s: System)
    requires ClientLedger(s) && s.client.pool != []
    ensures s.client.pool[0] !in s.client.pool[1..]
  {
    var b := s.client.pool[0];
    IndicesOccurOnce(s.cfg.capacity, b);
    assert s.client.pool == [b] + s.client.pool[1..];
    assert multiset(s.client.pool)[b] == 1 + multiset(s.client.pool[1..])[b];
  }

  lemma QueueKeepsBuffer(s: System, tid: nat, m: Message, callback: Callback, wait: bool, e: Entry,
                         borrowed: Option<Bytes>)
    requires ClientLedger(s) && BufferState(s, e, borrowed) && s.client.pool != []
    ensures BufferState(CallQueued(s, tid, m, callback, wait, QueuedClient(s, m, callback)), e,
                        if borrowed.Some? then borrowed else Some(m.payload))
  {
    HeadIsUnique(s);
  }

  /** A call section that does not queue leaves pool and storage alone. */
  ghost predicate EnterOutcome(s: System, tid: nat, s': System, e: Entry, borrowed: Option<Bytes>)
    requires tid in s.threads && s.threads[tid].Checked?
  {
    BufferState(s', e, if borrowed.Some? then borrowed
                       else if |s'.client.queue| > |s.client.queue| then Some(s.threads[tid].call.payload) else None)
  }

  lemma EnterPlainKeepsBuffer(s: System, tid: nat, ok: bool, e: Entry, borrowed: Option<Bytes>)
    requires ClientLedger(s) && ContentLedger(s) && BufferState(s, e, borrowed)
    requires tid in s.threads && s.threads[tid].Checked?
    ensures EnterOutcome(s, tid, EnterPlain(s, tid, Message(s.h.next, s.threads[tid].call.payload), ok), e, borrowed)
  {
    var m := Message(s.h.next, s.threads[tid].call.payload);
    EnterPlainOutcome(s, tid, m, ok);
    if s.client.pool != [] {
      QueueKeepsBuffer(s, tid, m, NoCallback, false, e, borrowed);
    }
  }

  lemma EnterCallbackKeepsBuffer(s: System, tid: nat, callback: Callback, ok: bool, e: Entry, borrowed: Option<Bytes>)
    requires ClientLedger(s) && ContentLedger(s) && BufferState(s, e, borrowed)
    requires tid in s.threads && s.threads[tid].Checked?
    ensures EnterOutcome(s, tid, EnterCallback(s, tid, Message(s.h.next, s.threads[tid].call.payload), callback, ok), e,
                         borrowed)
  {
    var m := Message(s.h.next, s.threads[tid].call.payload);
    EnterCallbackOutcome(s, tid, m, callback, ok);
    if s.client.pool != [] {
      QueueKeepsBuffer(s, tid, m, callback, false, e, borrowed);
    }
  }

  lemma EnterWaitKeepsBuffer(s: System, tid: nat, e: Entry, borrowed: Option<Bytes>)
    requires ClientLedger(s) && ContentLedger(s) && BufferState(s, e, borrowed)
    requires tid in s.threads && s.threads[tid].Checked?
    ensures EnterOutcome(s, tid, EnterWait(s, tid, Message(s.h.next, s.threads[tid].call.payload)), e, borrowed)
  {
    var m := Message(s.h.next, s.threads[tid].call.payload);
    EnterWaitOutcome(s, tid, m);
    if s.client.pool != [] {
      QueueKeepsBuffer(s, tid, m, OnReply(m.ticket), true, e, borrowed);
    }
  }

  lemma EnterKeepsBuffer(s: System, tid: nat, ok: bool, e: Entry, borrowed: Option<Bytes>)
    requires ClientLedger(s) && ContentLedger(s) && BufferState(s, e, borrowed)
    requires tid in s.threads && s.threads[tid].Checked?
    ensures EnterOutcome(s, tid, DoEnter(s, tid, ok), e, borrowed)
  {
    var call := s.threads[tid].call;
    match call.kind {
      case PlainSend => EnterPlainKeepsBuffer(s, tid, ok, e, borrowed);
      case CallbackSend =>
        EnterCallbackKeepsBuffer(s, tid, if call.withCallback then OnReply(s.h.next) else NoCallback, ok, e, borrowed);
      case WaitSend => EnterWaitKeepsBuffer(s, tid, e, borrowed);
    }
  }

  ghost predicate LeavesBuffers(s: System, s': System) {
    && s'.engine == s.engine && s'.client.pool == s.client.pool && s'.client.storage == s.client.storage
    && s'.h.content == s.h.content
  }

  lemma CallLeavesBuffers(s: System, step: Step)
    requires Enabled(s, step) && (step.Begin? || step.Transmit? || step.Return? || step.Wake?)
    ensures LeavesBuffers(s, Apply(s, step))
  {
  }

  lemma ServerLeavesBuffers(s: System, step: Step)
    requires Enabled(s, step) && ByServer(step)
    ensures LeavesBuffers(s, Apply(s, step))
  {
  }

  lemma StopLeavesBuffers(s: System, step: Step)
    requires Enabled(s, step)
    requires ByStop(step)
    ensures LeavesBuffers(s, Apply(s, step))
  {
  }

  lemma LifecycleLeavesBuffers(s: System, step: Step)
    requires Enabled(s, step) && ByLifecycle(step)
    ensures LeavesBuffers(s, Apply(s, step))
  {
  }

  lemma StepKeepsBuffer(s: System, step: Step, s': System, borrowed: Option<Bytes>)
    requires ClientLedger(s) && ContentLedger(s) && Next(s, step, s') && s.engine.DrainSend? && !step.DrainTransmit?
    requires BufferState(s, s.engine.entry, borrowed)
    ensures s'.engine == s.engine
    ensures BufferState(s', s.engine.entry, AfterStep(borrowed, s, step, s'))
  {
    if step.Enter? {
      EnterPopsNothing(s, step.tid, step.ok);
      EnterKeepsBuffer(s, step.tid, step.ok, s.engine.entry, borrowed);
    } else if step.Begin? || step.Transmit? || step.Return? || step.Wake? {
      CallLeavesBuffers(s, step);
    } else if ByServer(step) {
      ServerLeavesBuffers(s, step);
    } else if ByLifecycle(step) {
      LifecycleLeavesBuffers(s, step);
    } else {
      StopLeavesBuffers(s, step);
    }
  }

  /** The steps from j to k: the entry is popped by step j and not transmitted before step k. */
  ghost predicate PoppedAt(cfg: Config, n: nat, states: seq<System>, steps: seq<Step>, j: nat, k: nat) {
    && IsRun(cfg, n, states, steps) && j < k <= |steps|
    && !states[j].engine.DrainSend? && states[j + 1].engine.DrainSend?
    && forall i :: j < i < k ==> !steps[i].DrainTransmit?
  }

  lemma PopInRun(cfg: Config, n: nat, states: seq<System>, steps: seq<Step>, j: nat)
    requires IsRun(cfg, n, states, steps) && j < |steps|
    requires !states[j].engine.DrainSend? && states[j + 1].engine.DrainSend?
    ensures BufferState(states[j + 1], states[j + 1].engine.entry, None)
  {
    ContentHolds(cfg, n, states, steps, j);
    assert NextAt(states, steps, j);
    PopLeavesBuffer(states[j], steps[j], states[j + 1]);
  }

  lemma StepInRun(cfg: Config, n: nat, states: seq<System>, steps: seq<Step>, i: nat, borrowed: Option<Bytes>)
    requires IsRun(cfg, n, states, steps) && i < |steps| && states[i].engine.DrainSend? && !steps[i].DrainTransmit?
    requires BufferState(states[i], states[i].engine.entry, borrowed)
    ensures states[i + 1].engine == states[i].engine
    ensures BufferState(states[i + 1], states[i].engine.entry, AfterStep(borrowed, states[i], steps[i], states[i + 1]))
  {
    ContentHolds(cfg, n, states, steps, i);
    LedgersHold(cfg, n, states, steps, i);
    assert NextAt(states, steps, i);
    StepKeepsBuffer(states[i], steps[i], states[i + 1], borrowed);
  }

  lemma TransmitInRun(cfg: Config, n: nat, states: seq<System>, steps: seq<Step>, k: nat)
    requires IsRun(cfg, n, states, steps) && k < |steps| && steps[k].DrainTransmit? && states[k].open
    ensures states[k].engine.DrainSend?
    ensures var e := states[k].engine.entry;
            states[k + 1].h.resolved ==
            states[k].h.resolved + [OnWire(e.ticket, Stored(states[k].client, e.buffer))]
  {
    assert NextAt(states, steps, k);
  }

  lemma ContentInRun(cfg: Config, n: nat, states: seq<System>, steps: seq<Step>, i: nat)
    requires IsRun(cfg, n, states, steps) && i < |steps|
    ensures KeepsContent(states[i], states[i + 1])
  {
    ContentHolds(cfg, n, states, steps, i);
    LedgersHold(cfg, n, states, steps, i);
    assert NextAt(states, steps, i);
    StepKeepsContent(states[i], steps[i], states[i + 1]);
  }

  lemma {:induction false} BufferUntil(cfg: Config, n: nat, states: seq<System>, steps: seq<Step>, j: nat, k: nat)
    requires PoppedAt(cfg, n, states, steps, j, k)
    ensures states[k].engine == states[j + 1].engine
    ensures BufferState(states[k], states[j + 1].engine.entry, FirstQueued(states, steps, j + 1, k))
    decreases k
  {
    if k == j + 1 {
      PopInRun(cfg, n, states, steps, j);
    } else {
      BufferUntil(cfg, n, states, steps, j, k - 1);
      StepInRun(cfg, n, states, steps, k - 1, FirstQueued(states, steps, j + 1, k - 1));
    }
  }

  /**
   An entry popped by step j and transmitted by step k carries the payload that was accepted for it if and only if no
   message was queued in between, or the first one that was has an equal payload.
   */
  lemma WirePayload(cfg: Config, n: nat, states: seq<System>, steps: seq<Step>, j: nat, k: nat)
    requires PoppedAt(cfg, n, states, steps, j, k) && k < |steps| && steps[k].DrainTransmit? && states[k].open
    ensures var t, h := states[j + 1].engine.entry.ticket, states[k].h;
            var first := FirstQueued(states, steps, j + 1, k);
            && t in states[j + 1].h.content && t in h.content && h.content[t] == states[j + 1].h.content[t]
            && exists payload ::
                 && states[k + 1].h.resolved == h.resolved + [OnWire(t, payload)]
                 && (payload == h.content[t] <==> first.None? || first.value == h.content[t])
                 && (first.Some? ==> payload == first.value)
  {
    BufferUntil(cfg, n, states, steps, j, k);
    PopInRun(cfg, n, states, steps, j);
    ContentKept(cfg, n, states, steps, j + 1, k, states[j + 1].engine.entry.ticket);
    TransmitInRun(cfg, n, states, steps, k);
  }

  lemma {:induction false} ContentKept(cfg: Config, n: nat, states: seq<System>, steps: seq<Step>, i: nat, k: nat,
                                       t: nat)
    requires IsRun(cfg, n, states, steps) && i <= k < |states| && t in states[i].h.content
    ensures t in states[k].h.content && states[k].h.content[t] == states[i].h.content[t]
    decreases k
  {
    if i < k {
      ContentKept(cfg, n, states, steps, i, k - 1, t);
      ContentInRun(cfg, n, states, steps, k - 1);
    }
  }

  /** What is recorded at acceptance is what the caller gave. */
  ghost predicate RecordsPayload(s: System, m: Message, s': System) {
    s'.h.accepted != s.h.accepted ==>
      s'.h.accepted == s.h.accepted + [m.ticket] && s'.h.content == s.h.content[m.ticket := m.payload]
  }

  lemma PlainRecords(s: System, tid: nat, m: Message, ok: bool)
    ensures RecordsPayload(s, m, EnterPlain(s, tid, m, ok))
  {
    EnterPlainOutcome(s, tid, m, ok);
  }

  lemma CallbackRecords(s: System, tid: nat, m: Message, callback: Callback, ok: bool)
    ensures RecordsPayload(s, m, EnterCallback(s, tid, m, callback, ok))
  {
    EnterCallbackOutcome(s, tid, m, callback, ok);
  }

  lemma WaitRecords(s: System, tid: nat, m: Message)
    ensures RecordsPayload(s, m, EnterWait(s, tid, m))
  {
    EnterWaitOutcome(s, tid, m);
  }

  lemma AcceptedPayload(s: System, tid: nat, ok: bool)
    requires tid in s.threads && s.threads[tid].Checked?
    ensures RecordsPayload(s, Message(s.h.next, s.threads[tid].call.payload), DoEnter(s, tid, ok))
  {
    var call := s.threads[tid].call;
    var m := Message(s.h.next, call.payload);
    match call.kind {
      case PlainSend => PlainRecords(s, tid, m, ok);
      case CallbackSend => CallbackRecords(s, tid, m, if call.withCallback then OnReply(m.ticket) else NoCallback, ok);
      case WaitSend => WaitRecords(s, tid, m);
    }
  }

  /** A call that transmits by itself transmits what it was given. */
  lemma DirectPayload(cfg: Config, n: nat, states: seq<System>, steps: seq<Step>, k: nat)
    requires IsRun(cfg, n, states, steps) && k < |steps| && steps[k].Transmit? && states[k].open
    ensures var s := states[k];
            && steps[k].tid in s.threads && s.threads[steps[k].tid].Sending?
            && var t := s.threads[steps[k].tid].m.ticket;
               && t in s.h.content
               && states[k + 1].h.resolved == s.h.resolved + [if steps[k].ok || OwnsSlot(s, t)
                                                               then OnWire(t, s.h.content[t])
                                                               else Late(t, s.h.content[t])]
  {
    ContentHolds(cfg, n, states, steps, k);
    assert NextAt(states, steps, k);
  }
}
