/** The steps of calling threads keep the invariant. */
module RequestReplyCalls {
  import opened Basics
  import opened ClientSections
  import opened RequestReply
  import opened RequestReplyInvariant

  // ----- threads that come, go on and leave

  /** A thread that neither was nor is about to transmit. */
  lemma MovingKeepsHands(threads: map<nat, Pc>, tid: nat, pc: Pc)
    requires tid in threads ==> !threads[tid].Sending?
    requires !pc.Sending?
    ensures SendingTickets(threads[tid := pc]) == SendingTickets(threads)
  {
    var threads' := threads[tid := pc];
    assert forall x :: x in threads' && threads'[x].Sending? <==> x in threads && threads[x].Sending?;
    assert forall x :: x in threads' && threads'[x].Sending? ==> threads'[x] == threads[x];
  }

  lemma LeavingKeepsHands(threads: map<nat, Pc>, tid: nat)
    requires tid in threads ==> !threads[tid].Sending?
    ensures SendingTickets(threads - {tid}) == SendingTickets(threads)
  {
    var threads' := threads - {tid};
    assert forall x :: x in threads' && threads'[x].Sending? <==> x in threads && threads[x].Sending?;
  }

  lemma TakingAddsHand(threads: map<nat, Pc>, tid: nat, m: Message)
    requires tid in threads ==> !threads[tid].Sending?
    ensures SendingTickets(threads[tid := Sending(m)]) == SendingTickets(threads) + {m.ticket}
  {
    var threads' := threads[tid := Sending(m)];
    assert forall x :: x in threads' && threads'[x].Sending? <==> x == tid || (x in threads && threads[x].Sending?);
    assert threads'[tid].m.ticket == m.ticket;
    assert forall x :: x != tid && x in threads' && threads'[x].Sending? ==> threads'[x] == threads[x];
    assert forall x :: x in threads && threads[x].Sending? ==> x in threads' && threads'[x] == threads[x];
  }

  lemma TransmittingTakesHand(threads: map<nat, Pc>, issued: set<nat>, tid: nat, pc: Pc)
    requires ThreadsInv(threads, issued) && tid in threads && threads[tid].Sending? && !pc.Sending?
    ensures threads[tid].m.ticket in SendingTickets(threads)
    ensures SendingTickets(threads[tid := pc]) == SendingTickets(threads) - {threads[tid].m.ticket}
  {
    var threads', t := threads[tid := pc], threads[tid].m.ticket;
    assert TicketOf(threads[tid]) == Some(t);
    forall x | x in threads' && threads'[x].Sending?
      ensures threads'[x].m.ticket in SendingTickets(threads) - {t}
    {
      assert TicketOf(threads[x]) == Some(threads[x].m.ticket);
      assert threads'[x] == threads[x] && threads[x].m.ticket != t;
    }
    forall u | u in SendingTickets(threads) - {t}
      ensures u in SendingTickets(threads')
    {
      var x :| x in threads && threads[x].Sending? && threads[x].m.ticket == u;
      assert x in threads' && threads'[x] == threads[x];
    }
  }

  /** A thread without a message comes or goes on. */
  lemma MovingKeepsCallers(waits: set<nat>, issued: set<nat>, invoked: multiset<nat>, threads: map<nat, Pc>, tid: nat,
                           pc: Pc)
    requires CallersStay(waits, issued, invoked, threads)
    requires tid in threads && TicketOf(threads[tid]).Some? ==> TicketOf(pc) == TicketOf(threads[tid])
    ensures CallersStay(waits, issued, invoked, threads[tid := pc])
  {
    var threads' := threads[tid := pc];
    forall t | t in waits && t in issued && invoked[t] == 0
      ensures HasCaller(threads', t)
    {
      assert HasCaller(threads, t);
      var x :| x in threads && TicketOf(threads[x]) == Some(t);
      assert x in threads' && TicketOf(threads'[x]) == Some(t);
    }
  }

  /** A thread leaves without a message, or with one whose callback has run or was handed back. */
  lemma LeavingKeepsCallers(waits: set<nat>, issued: set<nat>, issued': set<nat>, invoked: multiset<nat>,
                            threads: map<nat, Pc>, tid: nat)
    requires CallersStay(waits, issued, invoked, threads) && issued' <= issued
    requires tid in threads && TicketOf(threads[tid]).Some? ==>
               TicketOf(threads[tid]).value !in issued' || invoked[TicketOf(threads[tid]).value] > 0
    ensures CallersStay(waits, issued', invoked, threads - {tid})
  {
    var threads' := threads - {tid};
    forall t | t in waits && t in issued' && invoked[t] == 0
      ensures HasCaller(threads', t)
    {
      assert HasCaller(threads, t);
      var x :| x in threads && TicketOf(threads[x]) == Some(t);
      assert x in threads' && TicketOf(threads'[x]) == Some(t);
    }
  }

  /** A callback of another call is accepted. */
  lemma OtherCallbackKeepsCallers(next: nat, waits: set<nat>, issued: set<nat>, issued': set<nat>,
                                  invoked: multiset<nat>, threads: map<nat, Pc>)
    requires WaitInv(next, waits, issued, invoked, threads) && issued' <= issued + {next}
    ensures WaitInv(next + 1, waits, issued', invoked, threads)
  {
    forall t | t in waits && t in issued' && invoked[t] == 0
      ensures HasCaller(threads, t)
    {
      assert t in issued;
    }
  }

  /** A call of SendWaitReply has its message accepted. */
  lemma WaitKeepsCallers(next: nat, waits: set<nat>, issued: set<nat>, invoked: multiset<nat>, threads: map<nat, Pc>,
                         tid: nat, pc: Pc)
    requires WaitInv(next, waits, issued, invoked, threads)
    requires tid in threads && threads[tid].Checked? && TicketOf(pc) == Some(next)
    ensures WaitInv(next + 1, waits + {next}, issued + {next}, invoked, threads[tid := pc])
  {
    var threads' := threads[tid := pc];
    forall t | t in waits + {next} && t in issued + {next} && invoked[t] == 0
      ensures HasCaller(threads', t)
    {
      if t == next {
        assert tid in threads' && TicketOf(threads'[tid]) == Some(next);
      } else {
        assert HasCaller(threads, t);
        var x :| x in threads && TicketOf(threads[x]) == Some(t);
        assert x in threads' && TicketOf(threads'[x]) == Some(t);
      }
    }
  }

  /** A thread in its checks leaves. */
  lemma CheckedLeavesCallers(next: nat, waits: set<nat>, issued: set<nat>, invoked: multiset<nat>,
                             threads: map<nat, Pc>, tid: nat)
    requires WaitInv(next, waits, issued, invoked, threads) && tid in threads && threads[tid].Checked?
    ensures WaitInv(next, waits, issued, invoked, threads - {tid})
  {
    LeavingKeepsCallers(waits, issued, issued, invoked, threads, tid);
  }

  lemma RefusedBeginKeepsInv(s: System)
    requires Inv(s)
    ensures Inv(s.(h := Refuse(s.h, s.h.next)))
  {
    OtherCallbackKeepsCallers(s.h.next, s.h.waits, s.h.issued, s.h.issued, s.h.invoked, s.threads);
  }

  lemma CheckedKeepsControl(s: System, tid: nat, call: Call)
    requires ControlInv(s) && tid !in s.threads
    ensures ControlInv(s.(threads := s.threads[tid := Checked(call)]))
  {
  }

  lemma CheckedKeepsCalls(s: System, tid: nat, call: Call)
    requires ControlInv(s) && CallbackInv(s) && MessageInv(s) && tid !in s.threads
    ensures CallbackInv(s.(threads := s.threads[tid := Checked(call)]))
    ensures MessageInv(s.(threads := s.threads[tid := Checked(call)]))
  {
    MovingKeepsHands(s.threads, tid, Checked(call));
  }

  lemma BeginKeepsInv(s: System, tid: nat, call: Call)
    requires Inv(s) && Enabled(s, Begin(tid, call))
    ensures Inv(DoBegin(s, tid, call))
  {
    if |call.payload| > s.cfg.maxSendSize || s.state != Ready {
      RefusedBeginKeepsInv(s);
    } else {
      CheckedKeepsControl(s, tid, call);
      CheckedKeepsCalls(s, tid, call);
      MovingKeepsCallers(s.h.waits, s.h.issued, s.h.invoked, s.threads, tid, Checked(call));
    }
  }

  lemma WakeKeepsInv(s: System, tid: nat)
    requires Inv(s) && tid in s.threads && s.threads[tid].Waiting? && s.threads[tid].ticket in s.h.invoked
    ensures Inv(s.(threads := s.threads - {tid}))
  {
    LeavingKeepsHands(s.threads, tid);
    LeavingKeepsCallers(s.h.waits, s.h.issued, s.h.issued, s.h.invoked, s.threads, tid);
  }

  /** A call still in its sections answers for the slot exactly when its callback is in it. */
  lemma SenderHoldsIff(s: System, tid: nat)
    requires ControlInv(s) && CallbackInv(s) && tid in s.threads && IsSender(s.threads[tid])
    ensures s.h.owner == User(tid) <==> s.client.slot == Some(OnReply(TicketOf(s.threads[tid]).value))
  {
    var ticket := TicketOf(s.threads[tid]).value;
    if s.client.slot == Some(OnReply(ticket)) {
      SlotHoldsAlone(s.h.issued, s.h.invoked, ticket, s.client.queue, s.engine, s.stop);
      assert StillHeld(s.client.slot, s.client.queue, s.engine, s.stop, ticket) == 1;
    }
  }

  // ----- a call that transmits

  lemma TransmitKeepsControl(s: System, tid: nat, ok: bool)
    requires ControlInv(s) && CallbackInv(s) && s.h.owner == User(tid)
    requires tid in s.threads && s.threads[tid].Sending? && (ok ==> s.open)
    ensures ControlInv(DoTransmit(s, tid, ok))
  {
  }

  lemma TransmitKeepsCallbacks(s: System, tid: nat, ok: bool)
    requires ControlInv(s) && CallbackInv(s) && s.h.owner == User(tid)
    requires tid in s.threads && s.threads[tid].Sending?
    ensures CallbackInv(DoTransmit(s, tid, ok))
  {
  }

  lemma TransmitKeepsCallers(s: System, tid: nat, ok: bool)
    requires CallerInv(s) && tid in s.threads && s.threads[tid].Sending?
    ensures CallerInv(DoTransmit(s, tid, ok))
  {
    MovingKeepsCallers(s.h.waits, s.h.issued, s.h.invoked, s.threads, tid, Sent(s.threads[tid].m.ticket, ok));
  }

  /** The message leaves its caller's hand. */
  lemma TransmitTakesHand(s: System, tid: nat, ok: bool)
    requires ThreadsInv(s.threads, s.h.issued) && tid in s.threads && s.threads[tid].Sending?
    ensures var t, threads' := s.threads[tid].m.ticket, DoTransmit(s, tid, ok).threads;
            && t in InHand(s.threads, s.engine)
            && InHand(threads', s.engine) == InHand(s.threads, s.engine) - multiset{t}
  {
    TransmittingTakesHand(s.threads, s.h.issued, tid, Sent(s.threads[tid].m.ticket, ok));
  }

  lemma TransmitKeepsMessages(s: System, tid: nat, ok: bool)
    requires ControlInv(s) && CallbackInv(s) && MessageInv(s) && s.h.owner == User(tid)
    requires tid in s.threads && s.threads[tid].Sending?
    ensures MessageInv(DoTransmit(s, tid, ok))
  {
    TransmitTakesHand(s, tid, ok);
    OrderSent(s.h.accepted, s.h.next, s.h.resolved, InHand(s.threads, s.engine), s.client.queue, Draining(s.stop),
              Attempt(s, s.threads[tid].m, ok));
  }

  lemma TransmitKeepsLink(s: System, tid: nat, ok: bool)
    requires ControlInv(s) && LinkInv(s) && s.h.owner == User(tid)
    requires tid in s.threads && s.threads[tid].Sending? && (ok ==> s.open)
    ensures LinkInv(DoTransmit(s, tid, ok))
  {
    RequestsAppend(s.wire, Request(s.threads[tid].m.ticket));
  }

  lemma OrphanTransmitKeepsMessages(s: System, tid: nat)
    requires ControlInv(s) && CallbackInv(s) && MessageInv(s)
    requires tid in s.threads && s.threads[tid].Sending? && !OwnsSlot(s, s.threads[tid].m.ticket)
    requires s.h.owner != User(tid)
    ensures MessageInv(DoTransmit(s, tid, false))
  {
    var s' := DoTransmit(s, tid, false);
    TransmitTakesHand(s, tid, false);
    OrderLate(s.h.accepted, s.h.next, s.h.resolved, Pending(s.h.owner, s.threads, s.engine),
              InHand(s.threads, s.engine), s.client.queue, Draining(s.stop), Attempt(s, s.threads[tid].m, false));
    assert Pending(s'.h.owner, s'.threads, s'.engine) == Pending(s.h.owner, s.threads, s.engine);
  }

  /** A call that lost the slot may still fail. */
  lemma OrphanTransmitKeepsInv(s: System, tid: nat)
    requires Inv(s) && s.h.owner != User(tid) && tid in s.threads && s.threads[tid].Sending?
    requires !OwnsSlot(s, s.threads[tid].m.ticket)
    ensures Inv(DoTransmit(s, tid, false))
  {
    OrphanTransmitKeepsMessages(s, tid);
    TransmitKeepsCallers(s, tid, false);
  }

  lemma TransmitKeepsInv(s: System, tid: nat, ok: bool)
    requires Inv(s) && tid in s.threads && s.threads[tid].Sending? && (ok ==> s.open)
    requires ok ==> OwnsSlot(s, s.threads[tid].m.ticket)
    ensures Inv(DoTransmit(s, tid, ok))
  {
    SenderHoldsIff(s, tid);
    if s.h.owner == User(tid) {
      TransmitKeepsControl(s, tid, ok);
      TransmitKeepsCallbacks(s, tid, ok);
      TransmitKeepsCallers(s, tid, ok);
      TransmitKeepsMessages(s, tid, ok);
      TransmitKeepsLink(s, tid, ok);
    } else {
      OrphanTransmitKeepsInv(s, tid);
    }
  }

  lemma ResumeKeepsControl(s: System, tid: nat)
    requires ControlInv(s) && tid in s.threads && s.threads[tid].Sent? && s.threads[tid].ok
    ensures ControlInv(s.(threads := s.threads[tid := Waiting(s.threads[tid].ticket)]))
  {
  }

  lemma ResumeKeepsCalls(s: System, tid: nat)
    requires ControlInv(s) && CallbackInv(s) && MessageInv(s)
    requires tid in s.threads && s.threads[tid].Sent? && s.threads[tid].ok
    ensures CallbackInv(s.(threads := s.threads[tid := Waiting(s.threads[tid].ticket)]))
    ensures MessageInv(s.(threads := s.threads[tid := Waiting(s.threads[tid].ticket)]))
  {
    MovingKeepsHands(s.threads, tid, Waiting(s.threads[tid].ticket));
  }

  // ----- a call that failed

  predicate TransmitsFromQueue(engine: Frame) {
    EngineOwns(engine) && !engine.DrainError?
  }

  /**
   What a failed call may find when it comes back: its own callback in the slot, or nothing, or an empty callback. That
   it may remove if nobody waits behind it, it may arm the queue if the command is not linked, and it must not leave
   while a stop is running its callback.
   */
  ghost predicate MayWithdraw(s: System, ticket: nat) {
    && s.stop != Calling(OnReply(ticket))
    && (s.client.queue != [] ==> !s.client.armed)
    && (|| OwnsSlot(s, ticket)
        || s.client.slot.None?
        || (&& s.client.slot == Some(NoCallback)
            && (s.client.queue == [] ==>
                  && Outstanding(s.wire, s.handler, s.server.sendQueue, s.engine) == 0
                  && !TransmitsFromQueue(s.engine))))
  }

  /** A call that has transmitted without success. */
  ghost predicate HasFailed(s: System, tid: nat) {
    tid in s.threads && s.threads[tid].Sent? && !s.threads[tid].ok
  }

  lemma WithdrawKeepsControl(s: System, tid: nat)
    requires ControlInv(s) && LinkInv(s) && CallbackInv(s) && HasFailed(s, tid) && MayWithdraw(s, s.threads[tid].ticket)
    ensures ControlInv(WithdrawCall(s, tid, s.threads[tid].ticket))
    ensures LinkInv(WithdrawCall(s, tid, s.threads[tid].ticket))
  {
    SenderHoldsIff(s, tid);
  }

  lemma WithdrawKeepsLedger(s: System, tid: nat)
    requires CallbackInv(s) && HasFailed(s, tid) && MayWithdraw(s, s.threads[tid].ticket)
    ensures var s' := WithdrawCall(s, tid, s.threads[tid].ticket);
            LedgerInv(s'.h.issued, s'.h.invoked, s'.client.slot, s'.client.queue, s'.engine, s'.stop)
  {
    if OwnsSlot(s, s.threads[tid].ticket) {
      SlotHoldsAlone(s.h.issued, s.h.invoked, s.threads[tid].ticket, s.client.queue, s.engine, s.stop);
    }
  }

  lemma WithdrawKeepsCallbacks(s: System, tid: nat)
    requires ControlInv(s) && CallbackInv(s) && HasFailed(s, tid) && MayWithdraw(s, s.threads[tid].ticket)
    ensures CallbackInv(WithdrawCall(s, tid, s.threads[tid].ticket))
  {
    WithdrawKeepsLedger(s, tid);
    SenderHoldsIff(s, tid);
    if OwnsSlot(s, s.threads[tid].ticket) {
      SlotHoldsAlone(s.h.issued, s.h.invoked, s.threads[tid].ticket, s.client.queue, s.engine, s.stop);
    }
  }

  /** The callback of a call that lost the slot has run, unless the stop is just running it. */
  lemma WithdrawKeepsCallers(s: System, tid: nat)
    requires ControlInv(s) && CallbackInv(s) && CallerInv(s)
    requires HasFailed(s, tid) && MayWithdraw(s, s.threads[tid].ticket)
    ensures CallerInv(WithdrawCall(s, tid, s.threads[tid].ticket))
  {
    var ticket := s.threads[tid].ticket;
    SenderHoldsIff(s, tid);
    LeavingKeepsCallers(s.h.waits, s.h.issued, WithdrawCall(s, tid, ticket).h.issued, s.h.invoked, s.threads, tid);
  }

  lemma WithdrawKeepsMessages(s: System, tid: nat)
    requires ControlInv(s) && CallbackInv(s) && MessageInv(s)
    requires HasFailed(s, tid) && MayWithdraw(s, s.threads[tid].ticket)
    ensures MessageInv(WithdrawCall(s, tid, s.threads[tid].ticket))
  {
    var s' := WithdrawCall(s, tid, s.threads[tid].ticket);
    SenderHoldsIff(s, tid);
    LeavingKeepsHands(s.threads, tid);
    assert Pending(s'.h.owner, s'.threads, s'.engine) == Pending(s.h.owner, s.threads, s.engine);
  }

  lemma ReturnKeepsInv(s: System, tid: nat)
    requires Inv(s) && tid in s.threads && s.threads[tid].Sent?
    requires !s.threads[tid].ok ==> MayWithdraw(s, s.threads[tid].ticket)
    ensures Inv(DoReturn(s, tid))
  {
    if s.threads[tid].ok {
      ResumeKeepsControl(s, tid);
      ResumeKeepsCalls(s, tid);
      MovingKeepsCallers(s.h.waits, s.h.issued, s.h.invoked, s.threads, tid, Waiting(s.threads[tid].ticket));
    } else {
      WithdrawKeepsControl(s, tid);
      WithdrawKeepsCallbacks(s, tid);
      WithdrawKeepsCallers(s, tid);
      WithdrawKeepsMessages(s, tid);
    }
  }

  // ----- the sections' outcomes

  lemma RefusedKeepsInv(s: System, tid: nat)
    requires Inv(s) && tid in s.threads && s.threads[tid].Checked?
    ensures Inv(CallRefused(s, tid, s.h.next))
  {
    LeavingKeepsHands(s.threads, tid);
    OtherCallbackKeepsCallers(s.h.next, s.h.waits, s.h.issued, s.h.issued, s.h.invoked, s.threads);
    CheckedLeavesCallers(s.h.next + 1, s.h.waits, s.h.issued, s.h.invoked, s.threads, tid);
  }

  lemma PlainSentKeepsLink(s: System, tid: nat, m: Message, ok: bool, h: History)
    requires LinkInv(s) && (ok ==> s.open) && h.owner == s.h.owner
    ensures LinkInv(PlainSent(s, tid, m, ok, h))
  {
    RequestsAppend(s.wire, Plain(m.ticket));
  }

  lemma PlainSentKeepsControl(s: System, tid: nat, m: Message, ok: bool, h: History)
    requires ControlInv(s) && tid in s.threads && s.threads[tid].Checked?
    requires h.owner == s.h.owner && h.silent == s.h.silent
    ensures ControlInv(PlainSent(s, tid, m, ok, h))
  {
  }

  lemma PlainSentKeepsCallbacks(s: System, tid: nat, m: Message, ok: bool, logged: bool)
    requires CallbackInv(s) && m.ticket == s.h.next && tid in s.threads && s.threads[tid].Checked?
    ensures CallbackInv(PlainSent(s, tid, m, ok, if logged then AcceptAttempt(s.h, m) else s.h.(next := m.ticket + 1)))
  {
  }

  lemma PlainSentKeepsCallers(s: System, tid: nat, m: Message, ok: bool, h: History)
    requires CallerInv(s) && m.ticket == s.h.next && tid in s.threads && s.threads[tid].Checked?
    requires h.next == m.ticket + 1 && h.waits == s.h.waits && h.issued == s.h.issued && h.invoked == s.h.invoked
    ensures CallerInv(PlainSent(s, tid, m, ok, h))
  {
    OtherCallbackKeepsCallers(s.h.next, s.h.waits, s.h.issued, s.h.issued, s.h.invoked, s.threads);
    CheckedLeavesCallers(s.h.next + 1, s.h.waits, s.h.issued, s.h.invoked, s.threads, tid);
  }

  lemma PlainSentKeepsMessages(s: System, tid: nat, m: Message, ok: bool)
    requires ControlInv(s) && MessageInv(s) && tid in s.threads && s.threads[tid].Checked?
    requires m.ticket == s.h.next
    ensures MessageInv(PlainSent(s, tid, m, ok, s.h.(next := m.ticket + 1)))
  {
    LeavingKeepsHands(s.threads, tid);
  }

  /** A call that finds the slot empty and the connection open finds the queue empty and nothing outstanding. */
  lemma EmptySlotIsFree(s: System)
    requires ControlInv(s) && s.client.slot.None?
    ensures s.h.owner.Nobody? && (s.open ==> s.client.queue == [] && !Draining(s.stop))
    ensures Pending(s.h.owner, s.threads, s.engine) == []
  {
  }

  lemma DirectKeepsMessages(s: System, tid: nat, m: Message, s': System)
    requires ControlInv(s) && MessageInv(s) && tid in s.threads && s.threads[tid].Checked?
    requires s.client.slot.None? && s.open && m.ticket == s.h.next
    requires s'.h.accepted == s.h.accepted + [m.ticket] && s'.h.next == m.ticket + 1
    requires s'.h.resolved == s.h.resolved + [OnWire(m.ticket, m.payload)]
    requires s'.client == s.client.(slot := s'.client.slot) && s'.threads == s.threads - {tid}
    requires s'.engine == s.engine && s'.stop == s.stop && !s'.h.owner.User?
    ensures MessageInv(s')
  {
    EmptySlotIsFree(s);
    LeavingKeepsHands(s.threads, tid);
    OrderDirect(s.h.accepted, s.h.next, s.h.resolved, InHand(s.threads, s.engine), m.payload);
  }

  lemma PlainSentKeepsInv(s: System, tid: nat, m: Message, ok: bool, logged: bool)
    requires Inv(s) && tid in s.threads && s.threads[tid].Checked? && (ok ==> s.open)
    requires m.ticket == s.h.next && (logged ==> s.client.slot.None? && s.open)
    ensures Inv(PlainSent(s, tid, m, ok, if logged then AcceptAttempt(s.h, m) else s.h.(next := m.ticket + 1)))
  {
    var h := if logged then AcceptAttempt(s.h, m) else s.h.(next := m.ticket + 1);
    PlainSentKeepsLink(s, tid, m, ok, h);
    PlainSentKeepsControl(s, tid, m, ok, h);
    PlainSentKeepsCallbacks(s, tid, m, ok, logged);
    PlainSentKeepsCallers(s, tid, m, ok, h);
    if logged {
      EmptySlotIsFree(s);
      DirectKeepsMessages(s, tid, m, PlainSent(s, tid, m, ok, h));
    } else {
      PlainSentKeepsMessages(s, tid, m, ok);
    }
  }

  /** The preconditions under which a section hands a request to the transport. */
  ghost predicate MayRequest(s: System, tid: nat, m: Message, callback: Callback, ok: bool) {
    && tid in s.threads && s.threads[tid].Checked? && s.open
    && s.client.slot.None? && m.ticket == s.h.next
    && (callback == NoCallback || callback == OnReply(m.ticket))
  }

  function RequestedClient(s: System, callback: Callback, ok: bool): Client {
    if ok then s.client.(slot := Some(callback)) else s.client
  }

  lemma RequestKeepsControl(s: System, tid: nat, m: Message, callback: Callback, ok: bool)
    requires ControlInv(s) && CallbackInv(s) && MayRequest(s, tid, m, callback, ok)
    ensures ControlInv(RequestSent(s, tid, m, callback, ok, RequestedClient(s, callback, ok)))
  {
  }

  lemma RequestKeepsLink(s: System, tid: nat, m: Message, callback: Callback, ok: bool)
    requires ControlInv(s) && LinkInv(s) && MayRequest(s, tid, m, callback, ok)
    ensures LinkInv(RequestSent(s, tid, m, callback, ok, RequestedClient(s, callback, ok)))
  {
    RequestsAppend(s.wire, Request(m.ticket));
  }

  lemma RequestKeepsCallbacks(s: System, tid: nat, m: Message, callback: Callback, ok: bool)
    requires ControlInv(s) && CallbackInv(s) && MayRequest(s, tid, m, callback, ok)
    ensures CallbackInv(RequestSent(s, tid, m, callback, ok, RequestedClient(s, callback, ok)))
  {
    EmptySlotIsFree(s);
  }

  lemma RequestKeepsCallers(s: System, tid: nat, m: Message, callback: Callback, ok: bool)
    requires CallerInv(s) && MayRequest(s, tid, m, callback, ok)
    ensures CallerInv(RequestSent(s, tid, m, callback, ok, RequestedClient(s, callback, ok)))
  {
    var issued := RequestSent(s, tid, m, callback, ok, RequestedClient(s, callback, ok)).h.issued;
    OtherCallbackKeepsCallers(s.h.next, s.h.waits, s.h.issued, issued, s.h.invoked, s.threads);
    CheckedLeavesCallers(s.h.next + 1, s.h.waits, issued, s.h.invoked, s.threads, tid);
  }

  lemma RequestSentKeepsInv(s: System, tid: nat, m: Message, callback: Callback, ok: bool)
    requires Inv(s) && MayRequest(s, tid, m, callback, ok)
    ensures Inv(RequestSent(s, tid, m, callback, ok, RequestedClient(s, callback, ok)))
  {
    EmptySlotIsFree(s);
    RequestKeepsControl(s, tid, m, callback, ok);
    RequestKeepsLink(s, tid, m, callback, ok);
    RequestKeepsCallbacks(s, tid, m, callback, ok);
    RequestKeepsCallers(s, tid, m, callback, ok);
    DirectKeepsMessages(s, tid, m, RequestSent(s, tid, m, callback, ok, RequestedClient(s, callback, ok)));
  }

  function SlotOwner(s: System, m: Message): Client {
    s.client.(slot := Some(OnReply(m.ticket)))
  }

  lemma SlotTakenKeepsControl(s: System, tid: nat, m: Message)
    requires ControlInv(s) && tid in s.threads && s.threads[tid].Checked? && s.client.slot.None?
    ensures ControlInv(SlotTaken(s, tid, m, SlotOwner(s, m)))
  {
  }

  lemma SlotTakenKeepsCallbacks(s: System, tid: nat, m: Message)
    requires ControlInv(s) && CallbackInv(s) && tid in s.threads && s.threads[tid].Checked?
    requires s.client.slot.None? && m.ticket == s.h.next
    ensures CallbackInv(SlotTaken(s, tid, m, SlotOwner(s, m)))
  {
  }

  /** A new message is in nobody's hand yet. */
  lemma TakenHand(s: System, tid: nat, m: Message)
    requires CallbackInv(s) && tid in s.threads && s.threads[tid].Checked? && m.ticket == s.h.next
    ensures InHand(s.threads[tid := Sending(m)], s.engine) == InHand(s.threads, s.engine) + multiset{m.ticket}
  {
    TakingAddsHand(s.threads, tid, m);
    forall x | x in s.threads && s.threads[x].Sending?
      ensures s.threads[x].m.ticket != m.ticket
    {
      assert TicketOf(s.threads[x]) == Some(s.threads[x].m.ticket);
    }
    assert m.ticket !in SendingTickets(s.threads);
  }

  lemma SlotTakenKeepsMessages(s: System, tid: nat, m: Message)
    requires ControlInv(s) && CallbackInv(s) && MessageInv(s) && tid in s.threads && s.threads[tid].Checked?
    requires s.client.slot.None? && m.ticket == s.h.next
    ensures MessageInv(SlotTaken(s, tid, m, SlotOwner(s, m)))
  {
    EmptySlotIsFree(s);
    TakenHand(s, tid, m);
    OrderTaken(s.h.accepted, s.h.next, s.h.resolved, InHand(s.threads, s.engine), s.client.queue, Draining(s.stop));
  }

  lemma SlotTakenKeepsInv(s: System, tid: nat, m: Message)
    requires Inv(s) && tid in s.threads && s.threads[tid].Checked?
    requires s.client.slot.None? && m.ticket == s.h.next
    ensures Inv(SlotTaken(s, tid, m, SlotOwner(s, m)))
  {
    EmptySlotIsFree(s);
    SlotTakenKeepsControl(s, tid, m);
    SlotTakenKeepsCallbacks(s, tid, m);
    WaitKeepsCallers(s.h.next, s.h.waits, s.h.issued, s.h.invoked, s.threads, tid, Sending(m));
    SlotTakenKeepsMessages(s, tid, m);
  }

  /** The preconditions under which a section queues a message. */
  ghost predicate MayQueue(s: System, tid: nat, m: Message, callback: Callback, wait: bool) {
    && tid in s.threads && s.threads[tid].Checked? && s.client.pool != [] && m.ticket == s.h.next
    && (s.client.slot.None? ==> !s.client.armed)
    && (callback == OnReply(m.ticket) || (callback == NoCallback && !wait))
  }

  /** Queueing into an empty slot arms the engine. */
  function QueuedClient(s: System, m: Message, callback: Callback): Client
    requires s.client.pool != []
  {
    if s.client.slot.None? then Arm(Enqueue(s.client, m, callback)) else Enqueue(s.client, m, callback)
  }

  lemma QueuedKeepsControl(s: System, tid: nat, m: Message, callback: Callback, wait: bool)
    requires ControlInv(s) && CallbackInv(s) && MayQueue(s, tid, m, callback, wait)
    ensures ControlInv(CallQueued(s, tid, m, callback, wait, QueuedClient(s, m, callback)))
  {
  }

  lemma QueuedKeepsLink(s: System, tid: nat, m: Message, callback: Callback, wait: bool)
    requires ControlInv(s) && LinkInv(s) && MayQueue(s, tid, m, callback, wait)
    ensures LinkInv(CallQueued(s, tid, m, callback, wait, QueuedClient(s, m, callback)))
  {
  }

  lemma QueuedKeepsLedger(s: System, tid: nat, m: Message, callback: Callback, wait: bool)
    requires TicketInv(s.h.next, s.h.issued, s.h.silent, s.h.refused, s.h.owner)
    requires LedgerInv(s.h.issued, s.h.invoked, s.client.slot, s.client.queue, s.engine, s.stop)
    requires MayQueue(s, tid, m, callback, wait)
    ensures var s' := CallQueued(s, tid, m, callback, wait, QueuedClient(s, m, callback));
            LedgerInv(s'.h.issued, s'.h.invoked, s'.client.slot, s'.client.queue, s'.engine, s'.stop)
  {
    var e := Entry(s.client.pool[0], m.ticket, callback);
    forall t: nat
      ensures QueueHolds(s.client.queue + [e], t) == QueueHolds(s.client.queue, t) + Holds(callback, t)
    {
      QueueHoldsAppend(s.client.queue, e, t);
    }
  }

  lemma QueuedKeepsTickets(s: System, tid: nat, m: Message, callback: Callback, wait: bool)
    requires ControlInv(s) && CallbackInv(s) && MayQueue(s, tid, m, callback, wait)
    ensures var s' := CallQueued(s, tid, m, callback, wait, QueuedClient(s, m, callback));
            && TicketInv(s'.h.next, s'.h.issued, s'.h.silent, s'.h.refused, s'.h.owner)
            && QueueInv(s'.client.queue, s'.h.issued, s'.h.silent)
            && EngineEntryInv(s'.engine, s'.h.issued, s'.h.silent)
  {
  }

  lemma QueuedKeepsThreads(s: System, tid: nat, m: Message, callback: Callback, wait: bool)
    requires ControlInv(s) && CallbackInv(s) && MayQueue(s, tid, m, callback, wait)
    ensures var s' := CallQueued(s, tid, m, callback, wait, QueuedClient(s, m, callback));
            && ThreadsInv(s'.threads, s'.h.issued)
            && OrphanInv(s'.threads, s'.h.owner, s'.stop, s'.h.invoked)
  {
  }

  /** A call that only queues is transmitting neither before nor after. */
  lemma QueuedKeepsPending(s: System, tid: nat, m: Message, callback: Callback, wait: bool)
    requires ControlInv(s) && MayQueue(s, tid, m, callback, wait)
    ensures var s' := CallQueued(s, tid, m, callback, wait, QueuedClient(s, m, callback));
            Pending(s'.h.owner, s'.threads, s'.engine) == Pending(s.h.owner, s.threads, s.engine)
  {
  }

  lemma QueuedKeepsHands(s: System, tid: nat, m: Message, callback: Callback, wait: bool)
    requires MayQueue(s, tid, m, callback, wait)
    ensures var s' := CallQueued(s, tid, m, callback, wait, QueuedClient(s, m, callback));
            InHand(s'.threads, s'.engine) == InHand(s.threads, s.engine)
  {
    MovingKeepsHands(s.threads, tid, Waiting(m.ticket));
    LeavingKeepsHands(s.threads, tid);
  }

  lemma QueuedKeepsCallers(s: System, tid: nat, m: Message, callback: Callback, wait: bool)
    requires CallerInv(s) && MayQueue(s, tid, m, callback, wait)
    ensures CallerInv(CallQueued(s, tid, m, callback, wait, QueuedClient(s, m, callback)))
  {
    if wait {
      WaitKeepsCallers(s.h.next, s.h.waits, s.h.issued, s.h.invoked, s.threads, tid, Waiting(m.ticket));
    } else {
      var issued := CallQueued(s, tid, m, callback, wait, QueuedClient(s, m, callback)).h.issued;
      OtherCallbackKeepsCallers(s.h.next, s.h.waits, s.h.issued, issued, s.h.invoked, s.threads);
      CheckedLeavesCallers(s.h.next + 1, s.h.waits, issued, s.h.invoked, s.threads, tid);
    }
  }

  lemma QueuedKeepsOrder(s: System, tid: nat, m: Message, callback: Callback, wait: bool)
    requires ControlInv(s) && MessageInv(s) && MayQueue(s, tid, m, callback, wait)
    ensures MessageInv(CallQueued(s, tid, m, callback, wait, QueuedClient(s, m, callback)))
  {
    QueuedKeepsPending(s, tid, m, callback, wait);
    QueuedKeepsHands(s, tid, m, callback, wait);
    OrderQueued(s.h.accepted, s.h.next, s.h.resolved, Pending(s.h.owner, s.threads, s.engine),
                InHand(s.threads, s.engine), s.client.queue, Draining(s.stop),
                Entry(s.client.pool[0], m.ticket, callback));
  }

  lemma QueuedKeepsReplies(s: System, tid: nat, m: Message, callback: Callback, wait: bool)
    requires ReplyInv(s) && MayQueue(s, tid, m, callback, wait)
    ensures ReplyInv(CallQueued(s, tid, m, callback, wait, QueuedClient(s, m, callback)))
  {
  }

  lemma QueuedKeepsInv(s: System, tid: nat, m: Message, callback: Callback, wait: bool)
    requires Inv(s) && MayQueue(s, tid, m, callback, wait)
    ensures Inv(CallQueued(s, tid, m, callback, wait, QueuedClient(s, m, callback)))
  {
    QueuedKeepsControl(s, tid, m, callback, wait);
    QueuedKeepsLink(s, tid, m, callback, wait);
    QueuedKeepsLedger(s, tid, m, callback, wait);
    QueuedKeepsTickets(s, tid, m, callback, wait);
    QueuedKeepsThreads(s, tid, m, callback, wait);
    QueuedKeepsCallers(s, tid, m, callback, wait);
    QueuedKeepsOrder(s, tid, m, callback, wait);
    QueuedKeepsReplies(s, tid, m, callback, wait);
  }

  // ----- the sections

  lemma EnterPlainOutcome(s: System, tid: nat, m: Message, ok: bool)
    ensures EnterPlain(s, tid, m, ok) ==
            if !s.cfg.fullyOrdered && !s.cfg.trulyAsync then PlainSent(s, tid, m, ok, s.h.(next := m.ticket + 1))
            else if s.client.slot.None? && !s.cfg.trulyAsync && s.open
            then PlainSent(s, tid, m, ok, AcceptAttempt(s.h, m))
            else if s.client.pool == [] || (s.client.slot.None? && !s.cfg.trulyAsync) then CallRefused(s, tid, m.ticket)
            else CallQueued(s, tid, m, NoCallback, false, QueuedClient(s, m, NoCallback))
  {
  }

  /** The section finds the command unlinked if it links it. */
  ghost predicate MayArm(s: System) {
    s.cfg.trulyAsync && s.client.slot.None? && s.client.pool != [] ==> !s.client.armed
  }

  lemma EnterPlainKeepsInv(s: System, tid: nat, m: Message, ok: bool)
    requires Inv(s) && tid in s.threads && s.threads[tid].Checked? && (ok ==> s.open) && m.ticket == s.h.next
    requires MayArm(s)
    ensures Inv(EnterPlain(s, tid, m, ok))
  {
    EnterPlainOutcome(s, tid, m, ok);
    if !s.cfg.fullyOrdered && !s.cfg.trulyAsync {
      PlainSentKeepsInv(s, tid, m, ok, false);
    } else if s.client.slot.None? && !s.cfg.trulyAsync && s.open {
      PlainSentKeepsInv(s, tid, m, ok, true);
    } else if s.client.pool == [] || (s.client.slot.None? && !s.cfg.trulyAsync) {
      RefusedKeepsInv(s, tid);
    } else {
      QueuedKeepsInv(s, tid, m, NoCallback, false);
    }
  }

  lemma EnterCallbackOutcome(s: System, tid: nat, m: Message, callback: Callback, ok: bool)
    ensures EnterCallback(s, tid, m, callback, ok) ==
            if s.client.slot.None? && !s.cfg.trulyAsync && s.open
            then RequestSent(s, tid, m, callback, ok, RequestedClient(s, callback, ok))
            else if s.client.pool == [] || (s.client.slot.None? && !s.cfg.trulyAsync) then CallRefused(s, tid, m.ticket)
            else CallQueued(s, tid, m, callback, false, QueuedClient(s, m, callback))
  {
  }

  lemma EnterCallbackKeepsInv(s: System, tid: nat, m: Message, callback: Callback, ok: bool)
    requires Inv(s) && tid in s.threads && s.threads[tid].Checked? && (ok ==> s.open) && m.ticket == s.h.next
    requires MayArm(s) && (callback == NoCallback || callback == OnReply(m.ticket))
    ensures Inv(EnterCallback(s, tid, m, callback, ok))
  {
    EnterCallbackOutcome(s, tid, m, callback, ok);
    if s.client.slot.None? && !s.cfg.trulyAsync && s.open {
      RequestSentKeepsInv(s, tid, m, callback, ok);
    } else if s.client.pool == [] || (s.client.slot.None? && !s.cfg.trulyAsync) {
      RefusedKeepsInv(s, tid);
    } else {
      QueuedKeepsInv(s, tid, m, callback, false);
    }
  }

  lemma EnterWaitOutcome(s: System, tid: nat, m: Message)
    ensures EnterWait(s, tid, m) ==
            if s.client.slot.None? then SlotTaken(s, tid, m, SlotOwner(s, m))
            else if s.client.pool == [] then CallRefused(s, tid, m.ticket)
            else CallQueued(s, tid, m, OnReply(m.ticket), true, QueuedClient(s, m, OnReply(m.ticket)))
  {
  }

  lemma EnterWaitKeepsInv(s: System, tid: nat, m: Message)
    requires Inv(s) && tid in s.threads && s.threads[tid].Checked? && m.ticket == s.h.next
    ensures Inv(EnterWait(s, tid, m))
  {
    EnterWaitOutcome(s, tid, m);
    if s.client.slot.None? {
      SlotTakenKeepsInv(s, tid, m);
    } else if s.client.pool != [] {
      QueuedKeepsInv(s, tid, m, OnReply(m.ticket), true);
    } else {
      RefusedKeepsInv(s, tid);
    }
  }

  lemma EnterKeepsInv(s: System, tid: nat, ok: bool)
    requires Inv(s) && tid in s.threads && s.threads[tid].Checked? && (ok ==> s.open)
    requires s.threads[tid].call.kind.WaitSend? || MayArm(s)
    ensures Inv(DoEnter(s, tid, ok))
  {
    var call := s.threads[tid].call;
    var m := Message(s.h.next, call.payload);
    match call.kind {
      case PlainSend => EnterPlainKeepsInv(s, tid, m, ok);
      case CallbackSend =>
        EnterCallbackKeepsInv(s, tid, m, if call.withCallback then OnReply(m.ticket) else NoCallback, ok);
      case WaitSend => EnterWaitKeepsInv(s, tid, m);
    }
  }
}
