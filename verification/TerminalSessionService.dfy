/**
 The terminal session service on live objects. Each method changes records, store and processor field by field and
 is proved to do exactly what the protocol step on values does, so every property of runs applies to it.
 */
module TerminalSessionService {
  import opened Common
  import opened TerminalStateMachine
  import opened TerminalSessions
  import opened SessionStore
  import opened TerminalSafety
  import P = MockProcessor

  class TerminalSessionService {
    const store: SessionStore
    const processor: P.MockPaymentProcessor

    constructor ()
      ensures Valid() && Model() == EMPTY && fresh(store) && fresh(processor)
    {
      store := new SessionStore();
      processor := new P.MockPaymentProcessor();
    }

    ghost predicate Valid()
      reads store
    {
      store.Valid()
    }

    /** The value that the three stores amount to. */
    ghost function Model(): System
      reads store, store.byId.Values, processor
    {
      System(store.Table(), store.byIdempotency, processor.entries, processor.calls)
    }

    method Create(merchant: Option<Uuid>, id: Uuid, amountMinor: int, currency: string, selection: Selection,
                  idempotencyKey: Option<string>, now: int)
      returns (response: Response)
      requires Valid() && id !in store.byId
      modifies store
      ensures Valid() && fresh(store.byId.Values - old(store.byId.Values))
      ensures Outcome(Model(), response)
           == Step(old(Model()), Request.Create(merchant, id, amountMinor, currency, selection, idempotencyKey, now))
    {
      ghost var y, q := Model(), Request.Create(merchant, id, amountMinor, currency, selection, idempotencyKey, now);
      if merchant.None? {
        return Rejected(MerchantRequired);
      }
      if selection.BadProtocol? {
        return Rejected(Unprocessable);
      }
      var record := NewRecord(merchant.value, id, amountMinor, currency, selection, idempotencyKey, now);
      assert Model() == y;
      var filed := store.Create(record);
      response := Done(filed.Snapshot());
      CreateLands(y, q, Model(), filed.Snapshot());
    }

    method NewRecord(merchant: Uuid, id: Uuid, amountMinor: int, currency: string, selection: Selection,
                     idempotencyKey: Option<string>, now: int)
      returns (record: SessionRecord)
      requires !selection.BadProtocol?
      ensures fresh(record)
      ensures record.Snapshot()
           == NewSession(merchant,
                         Request.Create(Some(merchant), id, amountMinor, currency, selection, idempotencyKey, now))
    {
      var protocol: Option<Protocol> := None;
      var outcome := P.SandboxOutcome.Capture;
      if selection.Chosen? {
        protocol := Some(selection.protocol);
        outcome := selection.protocol.outcome;
      }
      record := new SessionRecord(id, merchant, amountMinor, Upper(currency), protocol, outcome, idempotencyKey, now);
      record.events := record.events + [Event(None, Created, "Session created")];
      record.Advance(AmountEntered, "Amount entered");
      if protocol.Some? {
        record.Advance(ProtocolSelected, "Protocol selected: " + protocol.value.displayLabel);
      }
    }

    /** The caller's own record, or the refusal that a caller without one gets. */
    method Resolve(merchant: Option<Uuid>, id: Uuid, ghost q: Request)
      returns (record: SessionRecord?, refusal: Response)
      requires Valid() && !q.Create? && q.merchant == merchant && q.id == id
      ensures record == null ==> Outcome(Model(), refusal) == Step(Model(), q)
      ensures record != null ==> Filed(record) && record.id == id && Targets(Model(), q)
    {
      record, refusal := null, Rejected(MerchantRequired);
      if merchant.Some? {
        refusal := Rejected(NotFound);
        record := store.Get(id);
        if record != null && record.merchantId != merchant.value {
          record := null;
        }
      }
    }

    /** The record is filed in the store, which is how every call gets hold of one. */
    ghost predicate Filed(record: SessionRecord)
      reads store
    {
      Valid() && record.id in store.byId && store.byId[record.id] == record
    }

    /** What the stores hold once a call has had effect `e` on a record. */
    ghost predicate Landed(s: Session, id: Uuid, calls: seq<P.Call>, e: Effect, failure: Option<Failure>)
      reads processor
    {
      && s == e.session
      && processor.entries == e.entries
      && processor.calls == calls + Tagged(e.calls, id)
      && failure == e.failure
    }

    method SelectProtocol(merchant: Option<Uuid>, id: Uuid, lookup: Option<Protocol>, now: int)
      returns (response: Response)
      requires Valid()
      modifies store, store.byId.Values
      ensures Valid() && store.byId == old(store.byId)
      ensures Outcome(Model(), response) == Step(old(Model()), Request.SelectProtocol(merchant, id, lookup, now))
    {
      ghost var y, q := Model(), Request.SelectProtocol(merchant, id, lookup, now);
      var record, refusal := Resolve(merchant, id, q);
      if record == null {
        return refusal;
      }
      var failure := SelectProtocolRecord(record, lookup, now);
      store.TableAfter(record);
      response := if failure.None? then Done(record.Snapshot()) else Rejected(failure.value);
      StepLands(y, q, Model(), record.Snapshot(), response, failure);
    }

    method SelectProtocolRecord(record: SessionRecord, lookup: Option<Protocol>, now: int)
      returns (failure: Option<Failure>)
      requires Filed(record)
      modifies store, record
      ensures Filed(record) && store.byId == old(store.byId) && store.byIdempotency == old(store.byIdempotency)
      ensures Landed(record.Snapshot(), record.id, old(processor.calls),
                     SelectEffect(old(record.Snapshot()), processor.entries, lookup, now), failure)
    {
      if lookup.None? {
        return Some(UnknownProtocol);
      }
      if record.state != AmountEntered {
        return Some(Conflict);
      }
      var p := lookup.value;
      record.protocol := Some(p);
      record.outcome := Some(p.outcome);
      record.Advance(ProtocolSelected, "Protocol selected: " + p.displayLabel);
      store.Save(record, now);
      failure := None;
    }

    method Authorize(merchant: Option<Uuid>, id: Uuid, token: string, scenario: Option<string>, executionAllowed: bool,
                     hex: string, code: string, now: int) returns (response: Response)
      requires Valid()
      modifies store, store.byId.Values, processor
      ensures Valid() && store.byId == old(store.byId)
      ensures Outcome(Model(), response)
           == Step(old(Model()), Request.Authorize(merchant, id, token, scenario, executionAllowed, hex, code, now))
    {
      ghost var y, q := Model(), Request.Authorize(merchant, id, token, scenario, executionAllowed, hex, code, now);
      var record, refusal := Resolve(merchant, id, q);
      if record == null {
        return refusal;
      }
      var failure := AuthorizeRecord(record, token, scenario, executionAllowed, hex, code, now);
      store.TableAfter(record);
      response := if failure.None? then Done(record.Snapshot()) else Rejected(failure.value);
      StepLands(y, q, Model(), record.Snapshot(), response, failure);
    }

    method AuthorizeRecord(record: SessionRecord, token: string, scenario: Option<string>, executionAllowed: bool,
                           hex: string, code: string, now: int) returns (failure: Option<Failure>)
      requires Filed(record)
      modifies store, record, processor
      ensures Filed(record) && store.byId == old(store.byId) && store.byIdempotency == old(store.byIdempotency)
      ensures Landed(record.Snapshot(), record.id, old(processor.calls),
                     AuthorizeEffect(old(record.Snapshot()), old(processor.entries),
                                     token, scenario, executionAllowed, hex, code, now), failure)
    {
      if record.state != ProtocolSelected {
        if record.state == AmountEntered && record.protocol.Some? {
          record.Advance(ProtocolSelected, "Protocol selected before authorize");
        } else {
          return Some(Conflict);
        }
      }
      if !StartsWith(token, "pm_") {
        return Some(Unprocessable);
      }
      if !executionAllowed {
        return Some(Unavailable);
      }
      failure := PresentCard(record, token, scenario, hex, code, now);
    }

    method PresentCard(record: SessionRecord, token: string, scenario: Option<string>, hex: string, code: string,
                       now: int)
      returns (failure: Option<Failure>)
      requires Filed(record) && record.state == ProtocolSelected && StartsWith(token, "pm_")
      modifies store, record, processor
      ensures Filed(record) && store.byId == old(store.byId) && store.byIdempotency == old(store.byIdempotency)
      ensures Landed(record.Snapshot(), record.id, old(processor.calls),
                     PresentedEffect(old(record.Snapshot()), old(processor.entries),
                                     token, scenario, hex, code, now), failure)
    {
      var result := AskProcessor(record, token, scenario, hex, code);
      ghost var e := AnsweredEffect(record.Snapshot(), processor.entries, result, code, now);
      TaggedFirst(old(processor.calls), P.AuthorizeCall, e.calls, record.id);
      failure := FinishAuthorization(record, result, code, now);
    }

    method AskProcessor(record: SessionRecord, token: string, scenario: Option<string>, hex: string, code: string)
      returns (result: P.ProcessorResult)
      requires Filed(record) && record.state == ProtocolSelected && StartsWith(token, "pm_")
      modifies record, processor
      ensures var s := old(record.Snapshot());
              var waiting := Advanced(Advanced(s, CardPresented, "Card presented (tokenized)"), Authorizing,
                                      "Authorizing");
              var reply := P.AuthorizeReply(s.id, s.amountMinor, s.currency, OutcomeOf(s), token, scenario, hex, code);
              && result == reply.result
              && record.Snapshot() == Answered(waiting, token, result)
              && processor.entries == P.Filed(old(processor.entries), reply)
              && processor.calls == old(processor.calls) + [P.Call(P.AuthorizeCall, s.id)]
    {
      record.Advance(CardPresented, "Card presented (tokenized)");
      record.Advance(Authorizing, "Authorizing");
      var outcome := if record.outcome.Some? then record.outcome.value else P.SandboxOutcome.Capture;
      var reply := processor.Authorize(record.id, record.amountMinor, record.currency, outcome, token, scenario, hex,
                                       code);
      result := reply.result;
      record.Answer(token, result);
    }

    method FinishAuthorization(record: SessionRecord, result: P.ProcessorResult, code: string, now: int)
      returns (failure: Option<Failure>)
      requires Filed(record)
      requires record.state == Authorizing
      modifies store, record, processor
      ensures Filed(record) && store.byId == old(store.byId) && store.byIdempotency == old(store.byIdempotency)
      ensures Landed(record.Snapshot(), record.id, old(processor.calls),
                     AnsweredEffect(old(record.Snapshot()), old(processor.entries), result, code, now), failure)
    {
      match result.status {
        case Declined => record.Advance(State.Declined, result.message);
        case Cancelled => record.Advance(State.Cancelled, result.message);
        case TimedOut => record.Advance(State.Failed, result.message);
        case Errored => record.Advance(State.Failed, result.message);
        case Approved =>
          failure := FinishApproved(record, result, code, now);
          return;
      }
      store.Save(record, now);
      failure := None;
    }

    method FinishApproved(record: SessionRecord, result: P.ProcessorResult, code: string, now: int)
      returns (failure: Option<Failure>)
      requires Filed(record)
      requires record.state == Authorizing && result.status == P.Approved
      modifies store, record, processor
      ensures Filed(record) && store.byId == old(store.byId) && store.byIdempotency == old(store.byIdempotency)
      ensures Landed(record.Snapshot(), record.id, old(processor.calls),
                     AnsweredEffect(old(record.Snapshot()), old(processor.entries), result, code, now), failure)
    {
      record.Advance(State.Approved, result.message);
      var outcome := if record.outcome.Some? then record.outcome.value else P.SandboxOutcome.Capture;
      if outcome in {P.PreAuth, P.OfflineAuth, P.Signature} {
        store.Save(record, now);
        failure := None;
      } else if outcome == P.Completion {
        failure := CompleteAtProcessor(record, result.reference, code, now);
      } else {
        failure := CaptureAtProcessor(record, result.reference, code, now);
      }
    }

    method CompleteAtProcessor(record: SessionRecord, reference: string, code: string, now: int)
      returns (failure: Option<Failure>)
      requires Filed(record)
      requires record.state == State.Approved
      modifies store, record, processor
      ensures Filed(record) && store.byId == old(store.byId) && store.byIdempotency == old(store.byIdempotency)
      ensures Landed(record.Snapshot(), record.id, old(processor.calls),
                     CompletedEffect(old(record.Snapshot()), old(processor.entries), reference, code, now), failure)
    {
      var reply := processor.CompleteAuthorization(record.id, reference, record.amountMinor, record.currency, code);
      if reply.Threw? {
        return Some(ProcessorRaised);
      }
      record.Advance(State.Completed, "Completion");
      store.Save(record, now);
      failure := None;
    }

    method CaptureAtProcessor(record: SessionRecord, reference: string, code: string, now: int)
      returns (failure: Option<Failure>)
      requires Filed(record)
      requires record.state == State.Approved
      modifies store, record, processor
      ensures Filed(record) && store.byId == old(store.byId) && store.byIdempotency == old(store.byIdempotency)
      ensures Landed(record.Snapshot(), record.id, old(processor.calls),
                     CapturedEffect(old(record.Snapshot()), old(processor.entries), reference, code, now), failure)
    {
      var reply := processor.Capture(record.id, reference, record.amountMinor, record.currency, code);
      if reply.Threw? {
        return Some(ProcessorRaised);
      }
      record.Advance(State.Captured, "Captured");
      record.Advance(State.Completed, "Completed");
      store.Save(record, now);
      failure := None;
    }

    method Capture(merchant: Option<Uuid>, id: Uuid, code: string, now: int) returns (response: Response)
      requires Valid()
      modifies store, store.byId.Values, processor
      ensures Valid() && store.byId == old(store.byId)
      ensures Outcome(Model(), response) == Step(old(Model()), Request.Capture(merchant, id, code, now))
    {
      ghost var y, q := Model(), Request.Capture(merchant, id, code, now);
      var record, refusal := Resolve(merchant, id, q);
      if record == null {
        return refusal;
      }
      var failure := CaptureRecord(record, code, now);
      store.TableAfter(record);
      response := if failure.None? then Done(record.Snapshot()) else Rejected(failure.value);
      StepLands(y, q, Model(), record.Snapshot(), response, failure);
    }

    method CaptureRecord(record: SessionRecord, code: string, now: int) returns (failure: Option<Failure>)
      requires Filed(record)
      modifies store, record, processor
      ensures Filed(record) && store.byId == old(store.byId) && store.byIdempotency == old(store.byIdempotency)
      ensures Landed(record.Snapshot(), record.id, old(processor.calls),
                     CaptureEffect(old(record.Snapshot()), old(processor.entries), code, now), failure)
    {
      if record.state != State.Approved || !Truthy(record.processorReference) {
        return Some(Conflict);
      }
      failure := CaptureAtProcessor(record, record.processorReference.value, code, now);
    }

    method Void(merchant: Option<Uuid>, id: Uuid, now: int) returns (response: Response)
      requires Valid()
      modifies store, store.byId.Values, processor
      ensures Valid() && store.byId == old(store.byId)
      ensures Outcome(Model(), response) == Step(old(Model()), Request.Void(merchant, id, now))
    {
      ghost var y, q := Model(), Request.Void(merchant, id, now);
      var record, refusal := Resolve(merchant, id, q);
      if record == null {
        return refusal;
      }
      var failure := VoidRecord(record, now);
      store.TableAfter(record);
      response := if failure.None? then Done(record.Snapshot()) else Rejected(failure.value);
      StepLands(y, q, Model(), record.Snapshot(), response, failure);
    }

    method VoidRecord(record: SessionRecord, now: int) returns (failure: Option<Failure>)
      requires Filed(record)
      modifies store, record, processor
      ensures Filed(record) && store.byId == old(store.byId) && store.byIdempotency == old(store.byIdempotency)
      ensures Landed(record.Snapshot(), record.id, old(processor.calls),
                     VoidEffect(old(record.Snapshot()), old(processor.entries), now), failure)
    {
      if !CanTransition(record.state, Voided) {
        return Some(Conflict);
      }
      if Truthy(record.processorReference) {
        var reply := processor.VoidTransaction(record.id, record.processorReference.value);
        if reply.Threw? {
          return Some(Conflict);
        }
      }
      record.Advance(Voided, "Voided");
      store.Save(record, now);
      failure := None;
    }

    method Refund(merchant: Option<Uuid>, id: Uuid, amount: Option<int>, reason: Option<string>, hex: string,
                  code: string, now: int) returns (response: Response)
      requires Valid()
      modifies store, store.byId.Values, processor
      ensures Valid() && store.byId == old(store.byId)
      ensures Outcome(Model(), response)
           == Step(old(Model()), Request.Refund(merchant, id, amount, reason, hex, code, now))
    {
      ghost var y, q := Model(), Request.Refund(merchant, id, amount, reason, hex, code, now);
      var record, refusal := Resolve(merchant, id, q);
      if record == null {
        return refusal;
      }
      var failure := RefundRecord(record, amount, reason, hex, code, now);
      store.TableAfter(record);
      response := if failure.None? then Done(record.Snapshot()) else Rejected(failure.value);
      StepLands(y, q, Model(), record.Snapshot(), response, failure);
    }

    method RefundRecord(record: SessionRecord, amount: Option<int>, reason: Option<string>, hex: string, code: string,
                        now: int) returns (failure: Option<Failure>)
      requires Filed(record)
      modifies store, record, processor
      ensures Filed(record) && store.byId == old(store.byId) && store.byIdempotency == old(store.byIdempotency)
      ensures Landed(record.Snapshot(), record.id, old(processor.calls),
                     RefundEffect(old(record.Snapshot()), old(processor.entries),
                                  amount, reason, hex, code, now), failure)
    {
      if !CanTransition(record.state, Refunded) || !Truthy(record.processorReference) {
        return Some(Conflict);
      }
      var refund := RefundAmount(record.Snapshot(), amount);
      var reply := processor.Refund(record.id, record.processorReference.value, refund, record.currency, hex, code);
      if reply.Threw? {
        return Some(ProcessorRaised);
      }
      record.Advance(Refunded, reply.result.message);
      record.processorReference := Some(reply.result.reference);
      record.authorizationCode := reply.result.authorizationCode;
      record.processorMessage := Some(reply.result.message);
      store.Save(record, now);
      failure := None;
    }

    method Cancel(merchant: Option<Uuid>, id: Uuid, now: int) returns (response: Response)
      requires Valid()
      modifies store, store.byId.Values
      ensures Valid() && store.byId == old(store.byId)
      ensures Outcome(Model(), response) == Step(old(Model()), Request.Cancel(merchant, id, now))
    {
      ghost var y, q := Model(), Request.Cancel(merchant, id, now);
      var record, refusal := Resolve(merchant, id, q);
      if record == null {
        return refusal;
      }
      var failure := CancelRecord(record, now);
      store.TableAfter(record);
      response := if failure.None? then Done(record.Snapshot()) else Rejected(failure.value);
      StepLands(y, q, Model(), record.Snapshot(), response, failure);
    }

    method CancelRecord(record: SessionRecord, now: int) returns (failure: Option<Failure>)
      requires Filed(record)
      modifies store, record
      ensures Filed(record) && store.byId == old(store.byId) && store.byIdempotency == old(store.byIdempotency)
      ensures Landed(record.Snapshot(), record.id, old(processor.calls),
                     CancelEffect(old(record.Snapshot()), processor.entries, now), failure)
    {
      if !CanTransition(record.state, State.Cancelled) {
        return Some(Conflict);
      }
      record.Advance(State.Cancelled, "Cancelled by operator");
      store.Save(record, now);
      failure := None;
    }
  }

  lemma TaggedFirst(calls: seq<P.Call>, kind: P.CallKind, kinds: seq<P.CallKind>, id: Uuid)
    ensures calls + [P.Call(kind, id)] + Tagged(kinds, id) == calls + Tagged([kind] + kinds, id)
  {
  }

  /** Filing a new session and touching nothing else is the protocol's create. */
  lemma CreateLands(y: System, q: Request, y': System, s: Session)
    requires q.Create? && q.merchant.Some? && !q.selection.BadProtocol?
    requires Filing(y'.sessions, y'.index, s) == File(y.sessions, y.index, NewSession(q.merchant.value, q))
    requires y'.entries == y.entries && y'.calls == y.calls
    ensures Outcome(y', Done(s)) == Step(y, q)
  {
  }

  /** What a call left in the stores is the protocol's step. */
  lemma StepLands(y: System, q: Request, y': System, s: Session, response: Response, failure: Option<Failure>)
    requires Targets(y, q)
    requires
      var e := EffectOf(y.sessions[q.id], y.entries, q);
      && s == e.session && failure == e.failure
      && y'.entries == e.entries && y'.calls == y.calls + Tagged(e.calls, q.id)
    requires y'.sessions == y.sessions[q.id := s] && y'.index == y.index
    requires response == if failure.None? then Done(s) else Rejected(failure.value)
    ensures Outcome(y', response) == Step(y, q)
  {
  }
}
