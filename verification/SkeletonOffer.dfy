/**
 Offering a service: the events and fields of a skeleton are prepared one after
 the other, the first value of each field is sent along, and only then is
 service discovery told.

 The log records what reaches the bindings and service discovery, and the
 updates that users make, in order.
 */
module SkeletonOffer {
  import opened Basics

  datatype Id = OfEvent(index: nat) | OfField(index: nat)

  datatype Entry =
    | Prepared(id: Id, ok: bool)                              // PrepareOffer of an event binding
    | Unprepared(id: Id)                                      // PrepareStopOffer of an event binding
    | Sent(id: Id, value: nat, ok: bool, deferred: bool)      // Send of an event binding
    | Updated(field: nat, value: nat)                         // Update with a copied value
    | Told(ok: bool)                                          // OfferService of service discovery
    | Untold                                                  // StopOfferService of service discovery

  /** `sentFirst` is was_prepare_offer_called_: set when the first value has been sent. */
  datatype Field = Field(offered: bool, sentFirst: bool, initial: Option<nat>, handlerSet: bool)

  /** An event is just its offered flag. */
  datatype Skeleton = Skeleton(offered: bool, events: seq<bool>, fields: seq<Field>, log: seq<Entry>)

  datatype Error = NotOffered | BindingFailure | FieldValueIsNotValid

  // ----- what the log says

  /** The element's PrepareOffer succeeded since its last PrepareStopOffer. */
  predicate Ready(log: seq<Entry>, id: Id) {
    |log| > 0 &&
    var last := log[|log| - 1];
    if last == Prepared(id, true) then true
    else if last == Unprepared(id) then false
    else Ready(log[..|log| - 1], id)
  }

  function LastUpdate(log: seq<Entry>, field: nat): Option<nat> {
    if |log| == 0 then None
    else
      var last := log[|log| - 1];
      if last.Updated? && last.field == field then Some(last.value) else LastUpdate(log[..|log| - 1], field)
  }

  predicate HasSent(log: seq<Entry>, id: Id) {
    |log| > 0 &&
    var last := log[|log| - 1];
    (last.Sent? && last.id == id && last.ok) || HasSent(log[..|log| - 1], id)
  }

  /** A deferred value is the last copied one; discovery is told when everything is ready and every field has sent. */
  ghost predicate EntryOk(before: seq<Entry>, entry: Entry, events: nat, fields: nat) {
    match entry
    case Sent(id, value, _, deferred) =>
      Ready(before, id) && (deferred ==> id.OfField? && LastUpdate(before, id.index) == Some(value))
    case Told(_) =>
      && (forall i :: 0 <= i < events ==> Ready(before, OfEvent(i)))
      && (forall f :: 0 <= f < fields ==> Ready(before, OfField(f)) && HasSent(before, OfField(f)))
    case _ => true
  }

  ghost predicate LogOk(log: seq<Entry>, events: nat, fields: nat) {
    forall p :: 0 <= p < |log| ==> EntryOk(log[..p], log[p], events, fields)
  }

  lemma AppendEntry(log: seq<Entry>, entry: Entry)
    ensures (log + [entry])[..|log|] == log && (log + [entry])[|log|] == entry
    ensures forall id :: Ready(log + [entry], id) <==>
              entry == Prepared(id, true) || (entry != Unprepared(id) && Ready(log, id))
    ensures forall id :: HasSent(log + [entry], id) <==>
              (entry.Sent? && entry.id == id && entry.ok) || HasSent(log, id)
    ensures forall f :: LastUpdate(log + [entry], f) ==
              if entry.Updated? && entry.field == f then Some(entry.value) else LastUpdate(log, f)
  {
    assert (log + [entry])[..|log|] == log;
  }

  lemma AppendOk(log: seq<Entry>, entry: Entry, events: nat, fields: nat)
    requires LogOk(log, events, fields) && EntryOk(log, entry, events, fields)
    ensures LogOk(log + [entry], events, fields)
  {
    var log' := log + [entry];
    forall p | 0 <= p < |log'|
      ensures EntryOk(log'[..p], log'[p], events, fields)
    {
      if p < |log| {
        assert log'[..p] == log[..p];
      } else {
        assert log'[..p] == log;
      }
    }
  }

  // ----- the invariant

  ghost predicate EventsTracked(events: seq<bool>, log: seq<Entry>) {
    forall i :: 0 <= i < |events| ==> (events[i] <==> Ready(log, OfEvent(i)))
  }

  ghost predicate FieldTracked(f: Field, log: seq<Entry>, i: nat) {
    && (f.offered <==> Ready(log, OfField(i)))
    && (f.sentFirst ==> HasSent(log, OfField(i)))
    && (!f.sentFirst ==> f.initial == LastUpdate(log, i))
  }

  ghost predicate FieldsTracked(fields: seq<Field>, log: seq<Entry>) {
    forall i :: 0 <= i < |fields| ==> FieldTracked(fields[i], log, i)
  }

  ghost predicate Inv(s: Skeleton) {
    EventsTracked(s.events, s.log) && FieldsTracked(s.fields, s.log) && LogOk(s.log, |s.events|, |s.fields|)
  }

  // ----- single calls

  function Logged(s: Skeleton, entry: Entry): Skeleton {
    s.(log := s.log + [entry])
  }

  function PrepareEvent(s: Skeleton, i: nat, ok: bool): Skeleton
    requires i < |s.events|
  {
    Logged(s, Prepared(OfEvent(i), ok)).(events := if ok then s.events[i := true] else s.events)
  }

  function PrepareFieldEvent(s: Skeleton, i: nat, ok: bool): Skeleton
    requires i < |s.fields|
  {
    Logged(s, Prepared(OfField(i), ok)).(
    fields := if ok then s.fields[i := s.fields[i].(offered := true)] else s.fields)
  }

  lemma PrepareEventTracked(events: seq<bool>, log: seq<Entry>, i: nat, ok: bool)
    requires EventsTracked(events, log) && i < |events|
    ensures EventsTracked(if ok then events[i := true] else events, log + [Prepared(OfEvent(i), ok)])
  {
    AppendEntry(log, Prepared(OfEvent(i), ok));
  }

  /** A call on an event's binding leaves the fields as they were. */
  lemma PrepareEventKeepsFields(fields: seq<Field>, log: seq<Entry>, i: nat, ok: bool)
    requires FieldsTracked(fields, log)
    ensures FieldsTracked(fields, log + [Prepared(OfEvent(i), ok)])
  {
    var entry := Prepared(OfEvent(i), ok);
    AppendEntry(log, entry);
    forall k | 0 <= k < |fields|
      ensures FieldTracked(fields[k], log + [entry], k)
    {
      assert FieldTracked(fields[k], log, k);
    }
  }

  lemma PrepareEventKeepsInv(s: Skeleton, i: nat, ok: bool)
    requires Inv(s) && i < |s.events|
    ensures Inv(PrepareEvent(s, i, ok))
  {
    PrepareEventTracked(s.events, s.log, i, ok);
    PrepareEventKeepsFields(s.fields, s.log, i, ok);
    AppendOk(s.log, Prepared(OfEvent(i), ok), |s.events|, |s.fields|);
  }

  lemma PrepareFieldEventKeepsInv(s: Skeleton, i: nat, ok: bool)
    requires Inv(s) && i < |s.fields|
    ensures Inv(PrepareFieldEvent(s, i, ok))
  {
    var s' := PrepareFieldEvent(s, i, ok);
    var entry := Prepared(OfField(i), ok);
    AppendEntry(s.log, entry);
    AppendOk(s.log, entry, |s.events|, |s.fields|);
    forall k | 0 <= k < |s.fields|
      ensures FieldTracked(s'.fields[k], s'.log, k)
    {
      assert FieldTracked(s.fields[k], s.log, k);
    }
  }

  /** SkeletonEvent::Send of a field's event with the value that was put aside. */
  function SendFirst(s: Skeleton, i: nat, ok: bool): (Skeleton, bool)
    requires i < |s.fields| && s.fields[i].initial.Some?
  {
    var f := s.fields[i];
    if !f.offered then (s, false)
    else (Logged(s, Sent(OfField(i), f.initial.value, ok, true)).(
          fields := if ok then s.fields[i := f.(sentFirst := true, initial := None)] else s.fields), ok)
  }

  /** SkeletonEvent::Send, only while the element is offered. */
  function Send(s: Skeleton, id: Id, value: nat, ok: bool): (Skeleton, Option<Error>)
    requires InRange(s, id)
  {
    if !Offered(s, id) then (s, Some(NotOffered))
    else (Logged(s, Sent(id, value, ok, false)), if ok then None else Some(BindingFailure))
  }

  predicate InRange(s: Skeleton, id: Id) {
    match id
    case OfEvent(i) => i < |s.events|
    case OfField(i) => i < |s.fields|
  }

  predicate Offered(s: Skeleton, id: Id)
    requires InRange(s, id)
  {
    match id
    case OfEvent(i) => s.events[i]
    case OfField(i) => s.fields[i].offered
  }

  /** PrepareStopOffer of an event, or of a field's event. */
  function Unprepare(s: Skeleton, id: Id): Skeleton
    requires InRange(s, id)
  {
    if !Offered(s, id) then s
    else
      match id
      case OfEvent(i) => Logged(s, Unprepared(id)).(events := s.events[i := false])
      case OfField(i) => Logged(s, Unprepared(id)).(fields := s.fields[i := s.fields[i].(offered := false)])
  }

  /** Update with a copied value: put aside until the first value has been sent. */
  function Update(s: Skeleton, i: nat, value: nat, ok: bool): (Skeleton, Option<Error>)
    requires i < |s.fields|
  {
    var s1 := Logged(s, Updated(i, value));
    if !s.fields[i].sentFirst then (s1.(fields := s.fields[i := s.fields[i].(initial := Some(value))]), None)
    else Send(s1, OfField(i), value, ok)
  }

  lemma SendFirstKeepsInv(s: Skeleton, i: nat, ok: bool)
    requires Inv(s) && i < |s.fields| && s.fields[i].initial.Some? && !s.fields[i].sentFirst
    ensures Inv(SendFirst(s, i, ok).0)
  {
    var f := s.fields[i];
    assert FieldTracked(f, s.log, i);
    if f.offered {
      var s' := SendFirst(s, i, ok).0;
      var entry := Sent(OfField(i), f.initial.value, ok, true);
      AppendEntry(s.log, entry);
      AppendOk(s.log, entry, |s.events|, |s.fields|);
      forall k | 0 <= k < |s.fields|
        ensures FieldTracked(s'.fields[k], s'.log, k)
      {
        assert FieldTracked(s.fields[k], s.log, k);
      }
    }
  }

  lemma SendKeepsInv(s: Skeleton, id: Id, value: nat, ok: bool)
    requires Inv(s) && InRange(s, id)
    ensures Inv(Send(s, id, value, ok).0)
  {
    if Offered(s, id) {
      var entry := Sent(id, value, ok, false);
      AppendEntry(s.log, entry);
      assert Ready(s.log, id) by {
        if id.OfField? {
          assert FieldTracked(s.fields[id.index], s.log, id.index);
        }
      }
      AppendOk(s.log, entry, |s.events|, |s.fields|);
      forall k | 0 <= k < |s.fields|
        ensures FieldTracked(s.fields[k], s.log + [entry], k)
      {
        assert FieldTracked(s.fields[k], s.log, k);
      }
    }
  }

  lemma UnprepareKeepsInv(s: Skeleton, id: Id)
    requires Inv(s) && InRange(s, id)
    ensures Inv(Unprepare(s, id))
  {
    if Offered(s, id) {
      var s' := Unprepare(s, id);
      AppendEntry(s.log, Unprepared(id));
      AppendOk(s.log, Unprepared(id), |s.events|, |s.fields|);
      forall k | 0 <= k < |s.fields|
        ensures FieldTracked(s'.fields[k], s'.log, k)
      {
        assert FieldTracked(s.fields[k], s.log, k);
      }
    }
  }

  lemma UpdateKeepsInv(s: Skeleton, i: nat, value: nat, ok: bool)
    requires Inv(s) && i < |s.fields|
    ensures Inv(Update(s, i, value, ok).0)
  {
    var entry := Updated(i, value);
    var s1 := Logged(s, entry);
    var s' := if s.fields[i].sentFirst then s1 else s1.(fields := s.fields[i := s.fields[i].(initial := Some(value))]);
    AppendEntry(s.log, entry);
    AppendOk(s.log, entry, |s.events|, |s.fields|);
    forall k | 0 <= k < |s.fields|
      ensures FieldTracked(s'.fields[k], s'.log, k)
    {
      assert FieldTracked(s.fields[k], s.log, k);
    }
    assert Inv(s');
    if s.fields[i].sentFirst {
      SendKeepsInv(s1, OfField(i), value, ok);
    }
  }

  /** An entry that concerns neither readiness nor values. */
  lemma TellKeepsInv(s: Skeleton, entry: Entry)
    requires Inv(s) && (entry.Told? || entry.Untold?) && EntryOk(s.log, entry, |s.events|, |s.fields|)
    ensures Inv(Logged(s, entry))
  {
    AppendEntry(s.log, entry);
    AppendOk(s.log, entry, |s.events|, |s.fields|);
    forall k | 0 <= k < |s.fields|
      ensures FieldTracked(s.fields[k], s.log + [entry], k)
    {
      assert FieldTracked(s.fields[k], s.log, k);
    }
  }

  // ----- OfferService

  /** What the bindings answer to one OfferService. */
  datatype FieldAnswer = FieldAnswer(prepares: bool, sends: bool)

  datatype Answers = Answers(methodsRegistered: bool, prepares: bool, events: seq<bool>, fields: seq<FieldAnswer>,
                             told: bool)

  /** OfferServiceEvents, from the i-th event on. */
  function PrepareEvents(s: Skeleton, answers: seq<bool>, i: nat): (r: (Skeleton, Option<Error>))
    requires i <= |s.events| == |answers|
    ensures r.0.fields == s.fields && |r.0.events| == |s.events| && r.0.offered == s.offered
    decreases |s.events| - i
  {
    if i == |s.events| then (s, None)
    else
      var s1 := PrepareEvent(s, i, answers[i]);
      if answers[i] then PrepareEvents(s1, answers, i + 1) else (s1, Some(BindingFailure))
  }

  /** SkeletonFieldBase::PrepareOffer; a missing set handler is reported as a failure of the binding. */
  function PrepareField(s: Skeleton, i: nat, answer: FieldAnswer): (r: (Skeleton, Option<Error>))
    requires i < |s.fields|
    ensures r.0.events == s.events && |r.0.fields| == |s.fields| && r.0.offered == s.offered
  {
    var f := s.fields[i];
    if !f.sentFirst && !f.handlerSet then (s, Some(BindingFailure))
    else if !f.sentFirst && f.initial.None? then (s, Some(FieldValueIsNotValid))
    else
      var s1 := PrepareFieldEvent(s, i, answer.prepares);
      if !answer.prepares then (s1, Some(BindingFailure))
      else if f.sentFirst then (s1, None)
      else
        var (s2, ok) := SendFirst(s1, i, answer.sends);
        (s2, if ok then None else Some(BindingFailure))
  }

  function PrepareFields(s: Skeleton, answers: seq<FieldAnswer>, i: nat): (r: (Skeleton, Option<Error>))
    requires i <= |s.fields| == |answers|
    ensures r.0.events == s.events && |r.0.fields| == |s.fields| && r.0.offered == s.offered
    decreases |s.fields| - i
  {
    if i == |s.fields| then (s, None)
    else
      var (s1, error) := PrepareField(s, i, answers[i]);
      if error.None? then PrepareFields(s1, answers, i + 1) else (s1, error)
  }

  predicate Fit(s: Skeleton, a: Answers) {
    |a.events| == |s.events| && |a.fields| == |s.fields|
  }

  function OfferService(s: Skeleton, a: Answers): (Skeleton, Option<Error>)
    requires Fit(s, a)
  {
    if !a.methodsRegistered || !a.prepares then (s, Some(BindingFailure))
    else
      var (s1, error1) := PrepareEvents(s, a.events, 0);
      if error1.Some? then (s1, error1)
      else
        var (s2, error2) := PrepareFields(s1, a.fields, 0);
        if error2.Some? then (s2, error2)
        else (Logged(s2, Told(a.told)).(offered := true), if a.told then None else Some(BindingFailure))
  }

  /** More of a log, without telling discovery anything. */
  ghost predicate Extends(log: seq<Entry>, log': seq<Entry>) {
    log <= log' && forall p :: |log| <= p < |log'| ==> !log'[p].Told?
  }

  lemma {:induction false} PrepareEventsKeepsInv(s: Skeleton, answers: seq<bool>, i: nat)
    requires Inv(s) && i <= |s.events| == |answers|
    ensures var s' := PrepareEvents(s, answers, i).0;
            Inv(s') && Extends(s.log, s'.log)
    decreases |s.events| - i
  {
    if i < |s.events| {
      PrepareEventKeepsInv(s, i, answers[i]);
      if answers[i] {
        PrepareEventsKeepsInv(PrepareEvent(s, i, true), answers, i + 1);
      }
    }
  }

  lemma {:induction false} PrepareEventsOutcome(s: Skeleton, answers: seq<bool>, i: nat)
    requires i <= |s.events| == |answers| && forall k :: 0 <= k < i ==> s.events[k]
    ensures var (s', error) := PrepareEvents(s, answers, i);
            && (error.None? <==> forall k :: i <= k < |answers| ==> answers[k])
            && (error.None? ==> forall k :: 0 <= k < |s'.events| ==> s'.events[k])
    decreases |s.events| - i
  {
    if i < |s.events| && answers[i] {
      PrepareEventsOutcome(PrepareEvent(s, i, true), answers, i + 1);
    }
  }

  /** What a field needs to be offered. */
  predicate Passes(f: Field, answer: FieldAnswer) {
    answer.prepares && (!f.sentFirst ==> f.handlerSet && f.initial.Some? && answer.sends)
  }

  lemma PrepareFieldKeepsInv(s: Skeleton, i: nat, answer: FieldAnswer)
    requires Inv(s) && i < |s.fields|
    ensures var s' := PrepareField(s, i, answer).0;
            Inv(s') && Extends(s.log, s'.log)
  {
    var f := s.fields[i];
    PrepareFieldEventKeepsInv(s, i, answer.prepares);
    if !f.sentFirst && f.handlerSet && f.initial.Some? && answer.prepares {
      SendFirstKeepsInv(PrepareFieldEvent(s, i, true), i, answer.sends);
    }
  }

  lemma PrepareFieldOutcome(s: Skeleton, i: nat, answer: FieldAnswer)
    requires i < |s.fields|
    ensures var (s', error) := PrepareField(s, i, answer);
            && (error.None? <==> Passes(s.fields[i], answer))
            && (error.None? ==> s'.fields[i].offered && s'.fields[i].sentFirst)
            && (forall k :: 0 <= k < |s.fields| && k != i ==> s'.fields[k] == s.fields[k])
  {
  }

  lemma {:induction false} PrepareFieldsKeepsInv(s: Skeleton, answers: seq<FieldAnswer>, i: nat)
    requires Inv(s) && i <= |s.fields| == |answers|
    ensures var s' := PrepareFields(s, answers, i).0;
            Inv(s') && Extends(s.log, s'.log)
    decreases |s.fields| - i
  {
    if i < |s.fields| {
      PrepareFieldKeepsInv(s, i, answers[i]);
      var (s1, error) := PrepareField(s, i, answers[i]);
      if error.None? {
        PrepareFieldsKeepsInv(s1, answers, i + 1);
      }
    }
  }

  lemma {:induction false} PrepareFieldsOutcome(s: Skeleton, answers: seq<FieldAnswer>, i: nat)
    requires i <= |s.fields| == |answers|
    requires forall k :: 0 <= k < i ==> s.fields[k].offered && s.fields[k].sentFirst
    ensures var (s', error) := PrepareFields(s, answers, i);
            && (error.None? <==> forall k :: i <= k < |answers| ==> Passes(s.fields[k], answers[k]))
            && (error.None? ==> forall k :: 0 <= k < |s'.fields| ==> s'.fields[k].offered && s'.fields[k].sentFirst)
    decreases |s.fields| - i
  {
    if i < |s.fields| {
      PrepareFieldOutcome(s, i, answers[i]);
      var (s1, error) := PrepareField(s, i, answers[i]);
      if error.None? {
        PrepareFieldsOutcome(s1, answers, i + 1);
      }
    }
  }

  ghost predicate AllPrepare(answers: seq<bool>) {
    forall k :: 0 <= k < |answers| ==> answers[k]
  }

  ghost predicate AllPass(fields: seq<Field>, answers: seq<FieldAnswer>) {
    |fields| == |answers| && forall k :: 0 <= k < |answers| ==> Passes(fields[k], answers[k])
  }

  /** Every check passes and every binding call succeeds. */
  ghost predicate CanOffer(s: Skeleton, a: Answers) {
    a.methodsRegistered && a.prepares && AllPrepare(a.events) && AllPass(s.fields, a.fields)
  }

  lemma OfferKeepsInv(s: Skeleton, a: Answers)
    requires Inv(s) && Fit(s, a)
    ensures Inv(OfferService(s, a).0)
  {
    if a.methodsRegistered && a.prepares {
      PrepareEventsKeepsInv(s, a.events, 0);
      PrepareEventsOutcome(s, a.events, 0);
      var (s1, error1) := PrepareEvents(s, a.events, 0);
      if error1.None? {
        PrepareFieldsKeepsInv(s1, a.fields, 0);
        PrepareFieldsOutcome(s1, a.fields, 0);
        var (s2, error2) := PrepareFields(s1, a.fields, 0);
        if error2.None? {
          forall f | 0 <= f < |s2.fields|
            ensures Ready(s2.log, OfField(f)) && HasSent(s2.log, OfField(f))
          {
            assert FieldTracked(s2.fields[f], s2.log, f);
          }
          TellKeepsInv(s2, Told(a.told));
        }
      }
    }
  }

  lemma OfferStagesExtend(s: Skeleton, a: Answers, s1: Skeleton)
    requires Inv(s) && Fit(s, a) && s1 == PrepareEvents(s, a.events, 0).0
    ensures Extends(s.log, s1.log) && Extends(s.log, PrepareFields(s1, a.fields, 0).0.log)
  {
    PrepareEventsKeepsInv(s, a.events, 0);
    PrepareFieldsKeepsInv(s1, a.fields, 0);
  }

  lemma EventsStageOutcome(s: Skeleton, answers: seq<bool>)
    requires |s.events| == |answers|
    ensures PrepareEvents(s, answers, 0).1.None? <==> AllPrepare(answers)
  {
    PrepareEventsOutcome(s, answers, 0);
  }

  lemma FieldsStageOutcome(s: Skeleton, answers: seq<FieldAnswer>)
    requires |s.fields| == |answers|
    ensures PrepareFields(s, answers, 0).1.None? <==> AllPass(s.fields, answers)
  {
    PrepareFieldsOutcome(s, answers, 0);
  }

  /** One call succeeds exactly when every check passes and every binding and discovery agree. */
  lemma OfferSucceedsIff(s: Skeleton, a: Answers)
    requires Fit(s, a)
    ensures OfferService(s, a).1.None? <==> CanOffer(s, a) && a.told
  {
    if a.methodsRegistered && a.prepares {
      EventsStageOutcome(s, a.events);
      FieldsStageOutcome(PrepareEvents(s, a.events, 0).0, a.fields);
    }
  }

  /** One call tells discovery exactly when everything before went well, and as its last act. */
  lemma OfferTellsIff(s: Skeleton, a: Answers)
    requires Inv(s) && Fit(s, a)
    ensures var s' := OfferService(s, a).0;
            if CanOffer(s, a) then
              exists log :: Extends(s.log, log) && s'.log == log + [Told(a.told)] && s'.offered
            else
              Extends(s.log, s'.log) && s'.offered == s.offered
  {
    if a.methodsRegistered && a.prepares {
      var s1 := PrepareEvents(s, a.events, 0).0;
      EventsStageOutcome(s, a.events);
      FieldsStageOutcome(s1, a.fields);
      OfferStagesExtend(s, a, s1);
    }
  }

  // ----- StopOfferService

  function UnprepareEvents(s: Skeleton, i: nat): (s': Skeleton)
    requires i <= |s.events|
    ensures |s'.events| == |s.events| && s'.fields == s.fields && s'.offered == s.offered
    decreases |s.events| - i
  {
    if i == |s.events| then s else UnprepareEvents(Unprepare(s, OfEvent(i)), i + 1)
  }

  function UnprepareFields(s: Skeleton, i: nat): (s': Skeleton)
    requires i <= |s.fields|
    ensures s'.events == s.events && |s'.fields| == |s.fields| && s'.offered == s.offered
    decreases |s.fields| - i
  {
    if i == |s.fields| then s else UnprepareFields(Unprepare(s, OfField(i)), i + 1)
  }

  function StopOfferService(s: Skeleton): Skeleton {
    if !s.offered then s
    else UnprepareFields(UnprepareEvents(Logged(s, Untold), 0), 0).(offered := false)
  }

  lemma {:induction false} UnprepareEventsEffect(s: Skeleton, i: nat)
    requires Inv(s) && i <= |s.events| && forall k :: 0 <= k < i ==> !s.events[k]
    ensures var s' := UnprepareEvents(s, i);
            Inv(s') && Extends(s.log, s'.log) && forall k :: 0 <= k < |s'.events| ==> !s'.events[k]
    decreases |s.events| - i
  {
    if i < |s.events| {
      UnprepareKeepsInv(s, OfEvent(i));
      UnprepareEventsEffect(Unprepare(s, OfEvent(i)), i + 1);
    }
  }

  lemma {:induction false} UnprepareFieldsEffect(s: Skeleton, i: nat)
    requires Inv(s) && i <= |s.fields| && forall k :: 0 <= k < i ==> !s.fields[k].offered
    ensures var s' := UnprepareFields(s, i);
            Inv(s') && Extends(s.log, s'.log) && forall k :: 0 <= k < |s'.fields| ==> !s'.fields[k].offered
    decreases |s.fields| - i
  {
    if i < |s.fields| {
      UnprepareKeepsInv(s, OfField(i));
      UnprepareFieldsEffect(Unprepare(s, OfField(i)), i + 1);
    }
  }

  predicate NothingOffered(s: Skeleton) {
    && (forall k :: 0 <= k < |s.events| ==> !s.events[k])
    && (forall k :: 0 <= k < |s.fields| ==> !s.fields[k].offered)
  }

  /**
   A stop first tells discovery and then withdraws every element, but only after an offer that got as far as
   discovery.
   */
  lemma StopWithdrawsIff(s: Skeleton)
    requires Inv(s)
    ensures Inv(StopOfferService(s)) && !StopOfferService(s).offered
    ensures s.offered ==> Extends(s.log + [Untold], StopOfferService(s).log)
    ensures NothingOffered(StopOfferService(s)) <==> s.offered || NothingOffered(s)
  {
    if s.offered {
      TellKeepsInv(s, Untold);
      UnprepareEventsEffect(Logged(s, Untold), 0);
      UnprepareFieldsEffect(UnprepareEvents(Logged(s, Untold), 0), 0);
    }
  }

  /** An offer that a second event refuses: the first stays prepared, and stopping does not withdraw it. */
  lemma FailedOfferIsNotUndone()
    ensures var s := Skeleton(false, [false, false], [], []);
            var (s', error) := OfferService(s, Answers(true, true, [true, false], [], true));
            && error == Some(BindingFailure) && s'.events == [true, false]
            && StopOfferService(s') == s'
            && Send(s', OfEvent(0), 1, true).1 == None
  {
    var s := Skeleton(false, [false, false], [], []);
    var s1 := PrepareEvent(s, 0, true);
    assert s1.events == [true, false];
    var s2 := PrepareEvent(s1, 1, false);
    assert PrepareEvents(s1, [true, false], 1) == (s2, Some(BindingFailure));
    assert PrepareEvents(s, [true, false], 0) == (s2, Some(BindingFailure));
  }

  // ----- histories

  datatype Op =
    | Offer(answers: Answers)
    | StopOffer
    | UpdateField(i: nat, value: nat, ok: bool)
    | UpdateFieldZeroCopy(i: nat, value: nat, ok: bool)
    | SendEvent(i: nat, value: nat, ok: bool)
    | RegisterSetHandler(i: nat)

  predicate Applicable(op: Op, events: nat, fields: nat) {
    match op
    case Offer(a) => |a.events| == events && |a.fields| == fields
    case StopOffer => true
    case UpdateField(i, _, _) => i < fields
    case UpdateFieldZeroCopy(i, _, _) => i < fields
    case SendEvent(i, _, _) => i < events
    case RegisterSetHandler(i) => i < fields
  }

  function Apply(s: Skeleton, op: Op): (s': Skeleton)
    requires Applicable(op, |s.events|, |s.fields|)
    ensures |s'.events| == |s.events| && |s'.fields| == |s.fields|
  {
    match op
    case Offer(a) => OfferService(s, a).0
    case StopOffer => StopOfferService(s)
    case UpdateField(i, value, ok) => Update(s, i, value, ok).0
    case UpdateFieldZeroCopy(i, value, ok) => Send(s, OfField(i), value, ok).0
    case SendEvent(i, value, ok) => Send(s, OfEvent(i), value, ok).0
    case RegisterSetHandler(i) => s.(fields := s.fields[i := s.fields[i].(handlerSet := true)])
  }

  ghost predicate Next(s: Skeleton, op: Op, s': Skeleton) {
    Applicable(op, |s.events|, |s.fields|) && s' == Apply(s, op)
  }

  /** handlers[i] says whether field i needs no set handler, or has one already. */
  function InitialSkeleton(events: nat, handlers: seq<bool>): Skeleton {
    Skeleton(false, seq(events, i requires 0 <= i < events => false),
             seq(|handlers|, i requires 0 <= i < |handlers| => Field(false, false, None, handlers[i])), [])
  }

  ghost predicate IsHistory(events: nat, handlers: seq<bool>, states: seq<Skeleton>, ops: seq<Op>) {
    && |states| == |ops| + 1
    && states[0] == InitialSkeleton(events, handlers)
    && forall i :: 0 <= i < |ops| ==> Next(states[i], ops[i], states[i + 1])
  }

  lemma OpKeepsInv(s: Skeleton, op: Op)
    requires Inv(s) && Applicable(op, |s.events|, |s.fields|)
    ensures Inv(Apply(s, op))
  {
    match op
    case Offer(a) => OfferKeepsInv(s, a);
    case StopOffer => StopWithdrawsIff(s);
    case UpdateField(i, value, ok) => UpdateKeepsInv(s, i, value, ok);
    case UpdateFieldZeroCopy(i, value, ok) => SendKeepsInv(s, OfField(i), value, ok);
    case SendEvent(i, value, ok) => SendKeepsInv(s, OfEvent(i), value, ok);
    case RegisterSetHandler(i) =>
      forall k | 0 <= k < |s.fields|
        ensures FieldTracked(Apply(s, op).fields[k], s.log, k)
      {
        assert FieldTracked(s.fields[k], s.log, k);
      }
  }

  lemma {:induction false} HistoryInv(events: nat, handlers: seq<bool>, states: seq<Skeleton>, ops: seq<Op>, n: nat)
    requires IsHistory(events, handlers, states, ops) && n <= |ops|
    ensures Inv(states[n]) && |states[n].events| == events && |states[n].fields| == |handlers|
  {
    if n > 0 {
      HistoryInv(events, handlers, states, ops, n - 1);
      assert Next(states[n - 1], ops[n - 1], states[n - 1 + 1]);
      OpKeepsInv(states[n - 1], ops[n - 1]);
    }
  }

  /** Whenever discovery is told, every event and field is ready and every field has sent a value. */
  lemma ToldWhenReady(events: nat, handlers: seq<bool>, states: seq<Skeleton>, ops: seq<Op>, n: nat, p: nat)
    requires IsHistory(events, handlers, states, ops) && n <= |ops|
    requires p < |states[n].log| && states[n].log[p].Told?
    ensures var before := states[n].log[..p];
            && (forall i :: 0 <= i < events ==> Ready(before, OfEvent(i)))
            && (forall f :: 0 <= f < |handlers| ==> Ready(before, OfField(f)) && HasSent(before, OfField(f)))
  {
    HistoryInv(events, handlers, states, ops, n);
    assert EntryOk(states[n].log[..p], states[n].log[p], events, |handlers|);
  }

  /** An element's binding sees Send only while ready, and a deferred value is the last one copied by an Update. */
  lemma SentWhenReady(events: nat, handlers: seq<bool>, states: seq<Skeleton>, ops: seq<Op>, n: nat, p: nat)
    requires IsHistory(events, handlers, states, ops) && n <= |ops|
    requires p < |states[n].log| && states[n].log[p].Sent?
    ensures var entry, before := states[n].log[p], states[n].log[..p];
            && Ready(before, entry.id)
            && (entry.deferred ==> entry.id.OfField? && LastUpdate(before, entry.id.index) == Some(entry.value))
  {
    HistoryInv(events, handlers, states, ops, n);
    assert EntryOk(states[n].log[..p], states[n].log[p], events, |handlers|);
  }

  // ----- the skeleton

  class SkeletonBase {
    var offered: bool
    var events: seq<bool>
    var fields: seq<Field>
    var log: seq<Entry>

    ghost function View(): Skeleton
      reads this
    {
      Skeleton(offered, events, fields, log)
    }

    constructor (numEvents: nat, handlers: seq<bool>)
      ensures View() == InitialSkeleton(numEvents, handlers)
    {
      offered, log := false, [];
      events := seq(numEvents, i requires 0 <= i < numEvents => false);
      fields := seq(|handlers|, i requires 0 <= i < |handlers| => Field(false, false, None, handlers[i]));
    }

    method OfferServiceEvents(answers: seq<bool>) returns (error: Option<Error>)
      requires |answers| == |events|
      modifies this
      ensures (View(), error) == PrepareEvents(old(View()), answers, 0)
    {
      var i := 0;
      while i < |events|
        invariant i <= |events| == |answers|
        invariant PrepareEvents(View(), answers, i) == PrepareEvents(old(View()), answers, 0)
      {
        log := log + [Prepared(OfEvent(i), answers[i])];
        if !answers[i] {
          return Some(BindingFailure);
        }
        events := events[i := true];
        i := i + 1;
      }
      return None;
    }

    method PrepareFieldOffer(i: nat, answer: FieldAnswer) returns (error: Option<Error>)
      requires i < |fields|
      modifies this
      ensures (View(), error) == PrepareField(old(View()), i, answer)
    {
      if !fields[i].sentFirst {
        if !fields[i].handlerSet {
          return Some(BindingFailure);
        }
        if fields[i].initial.None? {
          return Some(FieldValueIsNotValid);
        }
      }
      log := log + [Prepared(OfField(i), answer.prepares)];
      if !answer.prepares {
        return Some(BindingFailure);
      }
      fields := fields[i := fields[i].(offered := true)];
      if !fields[i].sentFirst {
        log := log + [Sent(OfField(i), fields[i].initial.value, answer.sends, true)];
        if !answer.sends {
          return Some(BindingFailure);
        }
        fields := fields[i := fields[i].(sentFirst := true, initial := None)];
      }
      return None;
    }

    method OfferServiceFields(answers: seq<FieldAnswer>) returns (error: Option<Error>)
      requires |answers| == |fields|
      modifies this
      ensures (View(), error) == PrepareFields(old(View()), answers, 0)
    {
      var i := 0;
      while i < |fields|
        invariant i <= |fields| == |answers|
        invariant PrepareFields(View(), answers, i) == PrepareFields(old(View()), answers, 0)
      {
        error := PrepareFieldOffer(i, answers[i]);
        if error.Some? {
          return;
        }
        i := i + 1;
      }
      return None;
    }

    method Offer(a: Answers) returns (error: Option<Error>)
      requires Fit(View(), a)
      modifies this
      ensures (View(), error) == OfferService(old(View()), a)
    {
      if !a.methodsRegistered || !a.prepares {
        return Some(BindingFailure);
      }
      error := OfferServiceEvents(a.events);
      if error.Some? {
        return;
      }
      error := OfferServiceFields(a.fields);
      if error.Some? {
        return;
      }
      offered := true;
      log := log + [Told(a.told)];
      return if a.told then None else Some(BindingFailure);
    }

    method StopOffer()
      modifies this
      ensures View() == StopOfferService(old(View()))
    {
      if offered {
        log := log + [Untold];
        ghost var told := View();
        var i := 0;
        while i < |events|
          invariant i <= |events| && UnprepareEvents(View(), i) == UnprepareEvents(told, 0)
        {
          if events[i] {
            log := log + [Unprepared(OfEvent(i))];
            events := events[i := false];
          }
          i := i + 1;
        }
        ghost var stopped := View();
        i := 0;
        while i < |fields|
          invariant i <= |fields| && UnprepareFields(View(), i) == UnprepareFields(stopped, 0)
        {
          if fields[i].offered {
            log := log + [Unprepared(OfField(i))];
            fields := fields[i := fields[i].(offered := false)];
          }
          i := i + 1;
        }
        offered := false;
      }
    }
  }
}
