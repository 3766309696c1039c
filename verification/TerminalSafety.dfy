/**
 What every reachable state of the terminal session protocol satisfies, over all interleavings of calls on all
 sessions: the three stores agree, the processor never raises, money moves at most once, and logs walk the table.
 */
module TerminalSafety {
  import opened Common
  import opened TerminalStateMachine
  import opened TerminalSessions
  import P = MockProcessor

  // ---------- the invariant ----------

  /** The processor calls made for one session, in order. */
  ghost function Journal(calls: seq<P.Call>, id: Uuid): (kinds: seq<P.CallKind>) {
    if calls == [] then []
    else
      var n := |calls| - 1;
      Journal(calls[..n], id) + (if calls[n].session == id then [calls[n].kind] else [])
  }

  /** The only call histories a session can have, by the state it rests in; no other state is ever at rest. */
  ghost predicate JournalFits(state: State, j: seq<P.CallKind>) {
    match state
    case AmountEntered => j == []
    case ProtocolSelected => j == []
    case Declined => j == [P.AuthorizeCall]
    case Failed => j == [P.AuthorizeCall]
    case Approved => j == [P.AuthorizeCall]
    case Cancelled => j == [] || j == [P.AuthorizeCall]
    case Completed => j == [P.AuthorizeCall, P.CaptureCall] || j == [P.AuthorizeCall, P.CompleteCall]
    case Voided => j == [P.AuthorizeCall, P.VoidCall]
    case Refunded =>
      j == [P.AuthorizeCall, P.CaptureCall, P.RefundCall] || j == [P.AuthorizeCall, P.CompleteCall, P.RefundCall]
    case _ => false
  }

  /** The log is a walk of the table from Created to the current state, never through CardDataRead. */
  ghost predicate LogFits(log: seq<Event>, state: State) {
    && log != []
    && state != CardDataRead
    && var last := log[|log| - 1];
    && last.to == state
    && match last.from
       case None => |log| == 1 && state == Created
       case Some(prev) => CanTransition(prev, state) && LogFits(log[..|log| - 1], prev)
  }

  /** The operator cancelled the session while the processor was holding an approval. */
  ghost predicate CancelledFromApproved(s: Session) {
    && s.state == State.Cancelled
    && |s.events| >= 2
    && s.events[|s.events| - 2].to == State.Approved
  }

  /** The processor's entry for a session says what the session's state says. */
  ghost predicate HoldFits(s: Session, entries: P.Entries) {
    match s.processorReference
    case None => s.state in {AmountEntered, ProtocolSelected, State.Cancelled} && !CancelledFromApproved(s)
    case Some(reference) =>
      && reference != ""
      && reference in entries
      && var entry := entries[reference];
      && entry.transactionId == s.id
      && (s.state in {State.Approved, State.Completed} ==>
            entry.status == P.Approved && entry.amountMinor == s.amountMinor && entry.currency == s.currency)
      && (s.state == Voided ==> entry.status == P.Cancelled)
      && (s.state == State.Cancelled ==>
            if CancelledFromApproved(s) then entry.status == P.Approved && entry.amountMinor == s.amountMinor
            else entry.status == P.Cancelled)
  }

  ghost predicate SessionFits(s: Session, entries: P.Entries, j: seq<P.CallKind>) {
    && LogFits(s.events, s.state)
    && JournalFits(s.state, j)
    && HoldFits(s, entries)
    && (s.state == AmountEntered ==> s.protocol.None?)
    && (s.state in {AmountEntered, ProtocolSelected} ==> s.processorReference.None?)
  }

  /** The idempotency index is exactly the inverse of the keyed part of the session table. */
  ghost predicate IndexFits(y: System) {
    && (forall k :: k in y.index ==>
          y.index[k] in y.sessions &&
          var s := y.sessions[y.index[k]];
          Truthy(s.idempotencyKey) && k == IndexKey(s.merchantId, s.idempotencyKey.value))
    && (forall id :: id in y.sessions && Truthy(y.sessions[id].idempotencyKey) ==>
          var k := IndexKey(y.sessions[id].merchantId, y.sessions[id].idempotencyKey.value);
          k in y.index && y.index[k] == id)
  }

  ghost predicate Inv(y: System) {
    && IndexFits(y)
    && (forall id :: id in y.sessions ==>
          y.sessions[id].id == id && SessionFits(y.sessions[id], y.entries, Journal(y.calls, id)))
    && (forall i :: 0 <= i < |y.calls| ==> y.calls[i].session in y.sessions)
  }

  // ---------- one session, one call ----------

  /** Who the session belongs to and what it charges never change. */
  ghost predicate SameDeal(s: Session, t: Session) {
    && s.id == t.id && s.merchantId == t.merchantId && s.amountMinor == t.amountMinor && s.currency == t.currency
    && s.idempotencyKey == t.idempotencyKey && s.createdAt == t.createdAt
  }

  /** A log only grows, by whole lines, and fits the table after each of them. */
  ghost predicate Evolved(s: Session, t: Session) {
    && SameDeal(s, t)
    && LogFits(t.events, t.state)
    && |s.events| < |t.events| && t.events[..|s.events|] == s.events
  }

  /** Processor entries of other sessions are untouched. */
  ghost predicate OthersKept(entries: P.Entries, after: P.Entries, id: Uuid) {
    forall r :: r in entries && entries[r].transactionId != id ==> r in after && after[r] == entries[r]
  }

  ghost predicate EffectFits(s: Session, entries: P.Entries, j: seq<P.CallKind>, e: Effect) {
    && SessionFits(e.session, e.entries, j + e.calls)
    && (e.session == s || Evolved(s, e.session))
    && OthersKept(entries, e.entries, s.id)
    && (e.failure.Some? ==> e.session == s && e.entries == entries && e.calls == [])
    && e.failure != Some(ProcessorRaised) && e.failure != Some(AuditFailed)
  }

  // The log half of each call.

  lemma AdvanceLog(s: Session, to: State, note: string)
    requires LogFits(s.events, s.state) && CanTransition(s.state, to) && to != CardDataRead
    ensures Evolved(s, Advanced(s, to, note))
  {
    var log := Advanced(s, to, note).events;
    assert log[..|log| - 1] == s.events;
  }

  lemma AdvanceTwiceLog(s: Session, to: State, note: string, to': State, note': string)
    requires LogFits(s.events, s.state) && CanTransition(s.state, to) && CanTransition(to, to')
    requires to != CardDataRead && to' != CardDataRead
    ensures Evolved(s, Advanced(Advanced(s, to, note), to', note'))
  {
    AdvanceLog(s, to, note);
    AdvanceLog(Advanced(s, to, note), to', note');
  }

  lemma CapturedLog(s: Session, entries: P.Entries, reference: string, code: string, now: int)
    requires LogFits(s.events, s.state) && s.state == State.Approved
    requires CapturedEffect(s, entries, reference, code, now).failure.None?
    ensures Evolved(s, CapturedEffect(s, entries, reference, code, now).session)
  {
    AdvanceTwiceLog(s, State.Captured, "Captured", State.Completed, "Completed");
  }

  lemma RefusedLog(s: Session, entries: P.Entries, result: P.ProcessorResult, code: string, now: int)
    requires LogFits(s.events, s.state) && s.state == Authorizing && result.status != P.Approved
    ensures Evolved(s, AnsweredEffect(s, entries, result, code, now).session)
  {
    match result.status
    case Declined => AdvanceLog(s, State.Declined, result.message);
    case Cancelled => AdvanceLog(s, State.Cancelled, result.message);
    case _ => AdvanceLog(s, State.Failed, result.message);
  }

  lemma CompletedLog(s: Session, entries: P.Entries, reference: string, code: string, now: int)
    requires LogFits(s.events, s.state) && s.state == State.Approved
    requires CompletedEffect(s, entries, reference, code, now).failure.None?
    ensures Evolved(s, CompletedEffect(s, entries, reference, code, now).session)
  {
    AdvanceLog(s, State.Completed, "Completion");
  }

  lemma EvolvedTwice(s: Session, t: Session, u: Session)
    requires Evolved(s, t) && Evolved(t, u)
    ensures Evolved(s, u)
  {
    assert u.events[..|s.events|] == u.events[..|t.events|][..|s.events|];
  }

  lemma ApprovedLog(s: Session, entries: P.Entries, result: P.ProcessorResult, code: string, now: int)
    requires LogFits(s.events, s.state) && s.state == Authorizing && result.status == P.Approved
    requires AnsweredEffect(s, entries, result, code, now).failure.None?
    ensures Evolved(s, AnsweredEffect(s, entries, result, code, now).session)
  {
    var approved := Advanced(s, State.Approved, result.message);
    AdvanceLog(s, State.Approved, result.message);
    if OutcomeOf(s).Completion? {
      CompletedLog(approved, entries, result.reference, code, now);
      EvolvedTwice(s, approved, CompletedEffect(approved, entries, result.reference, code, now).session);
    } else if OutcomeOf(s).Capture? || OutcomeOf(s).ForcePost? {
      CapturedLog(approved, entries, result.reference, code, now);
      EvolvedTwice(s, approved, CapturedEffect(approved, entries, result.reference, code, now).session);
    }
  }

  // The processor half of each call.

  /** What a call on an authorized session must establish about the processor. */
  ghost predicate Settled(s: Session, entries: P.Entries, e: Effect) {
    && HoldFits(e.session, e.entries)
    && JournalFits(e.session.state, [P.AuthorizeCall] + e.calls)
    && OthersKept(entries, e.entries, s.id)
    && e.failure.None?
    && e.session.state !in {AmountEntered, ProtocolSelected}
  }

  ghost predicate Holds(s: Session, entries: P.Entries) {
    && s.processorReference.Some?
    && var reference := s.processorReference.value;
    && reference != "" && reference in entries
    && var entry := entries[reference];
    && entry.transactionId == s.id && entry.amountMinor == s.amountMinor && entry.currency == s.currency
    && entry.status == P.Approved
  }

  lemma CapturedHold(s: Session, entries: P.Entries, code: string, now: int)
    requires s.state == State.Approved && Holds(s, entries)
    ensures Settled(s, entries, CapturedEffect(s, entries, s.processorReference.value, code, now))
  {
  }

  lemma CompletedHold(s: Session, entries: P.Entries, code: string, now: int)
    requires s.state == State.Approved && Holds(s, entries)
    ensures Settled(s, entries, CompletedEffect(s, entries, s.processorReference.value, code, now))
  {
  }

  lemma HeldHold(s: Session, entries: P.Entries, now: int)
    requires s.state == State.Approved && Holds(s, entries)
    ensures Settled(s, entries, Effect(s.(updatedAt := now), entries, [], None))
  {
    assert [P.AuthorizeCall] + [] == [P.AuthorizeCall];
  }

  lemma ApprovedHold(s: Session, entries: P.Entries, result: P.ProcessorResult, code: string, now: int)
    requires s.state == Authorizing && result.status == P.Approved && s.processorReference == Some(result.reference)
    requires Holds(s, entries)
    ensures Settled(s, entries, AnsweredEffect(s, entries, result, code, now))
  {
    var approved := Advanced(s, State.Approved, result.message);
    CapturedHold(approved, entries, code, now);
    CompletedHold(approved, entries, code, now);
    HeldHold(approved, entries, now);
  }

  lemma RefusedHold(s: Session, entries: P.Entries, result: P.ProcessorResult, code: string, now: int)
    requires s.state == Authorizing && s.events != [] && s.events[|s.events| - 1].to != State.Approved
    requires result.reference != "" && s.processorReference == Some(result.reference)
    requires result.reference in entries && entries[result.reference] == result
    requires result.transactionId == s.id && result.status != P.Approved
    ensures Settled(s, entries, AnsweredEffect(s, entries, result, code, now))
  {
    assert [P.AuthorizeCall] + [] == [P.AuthorizeCall];
  }

  lemma AuthorizeFits(s: Session, entries: P.Entries, j: seq<P.CallKind>, q: Request)
    requires SessionFits(s, entries, j) && q.Authorize? && NewReference(entries, q)
    ensures EffectFits(s, entries, j, EffectOf(s, entries, q))
  {
    if s.state == ProtocolSelected && StartsWith(q.token, "pm_") && q.executionAllowed {
      var reply := P.AuthorizeReply(s.id, s.amountMinor, s.currency, OutcomeOf(s), q.token, q.scenario, q.hex, q.code);
      var waiting := Advanced(Advanced(s, CardPresented, "Card presented (tokenized)"), Authorizing, "Authorizing");
      AdvanceTwiceLog(s, CardPresented, "Card presented (tokenized)", Authorizing, "Authorizing");
      AnsweredFits(s, entries, Answered(waiting, q.token, reply.result), P.Filed(entries, reply), reply.result,
                   q.code, q.now);
    } else {
      assert j + [] == j;
    }
  }

  lemma AnsweredFits(s: Session, entries: P.Entries, waiting: Session, filed: P.Entries, result: P.ProcessorResult,
                     code: string, now: int)
    requires waiting.state == Authorizing && LogFits(waiting.events, Authorizing) && Evolved(s, waiting)
    requires waiting.processorReference == Some(result.reference)
    requires result.reference != "" && result.reference !in entries && filed == entries[result.reference := result]
    requires result.transactionId == s.id && result.amountMinor == s.amountMinor && result.currency == s.currency
    ensures var e := AnsweredEffect(waiting, filed, result, code, now);
            EffectFits(s, entries, [], e.(calls := [P.AuthorizeCall] + e.calls))
  {
    if result.status == P.Approved {
      ApprovedHold(waiting, filed, result, code, now);
      ApprovedLog(waiting, filed, result, code, now);
    } else {
      RefusedHold(waiting, filed, result, code, now);
      RefusedLog(waiting, filed, result, code, now);
    }
    Combine(s, entries, waiting, filed, AnsweredEffect(waiting, filed, result, code, now));
  }

  lemma Combine(s: Session, entries: P.Entries, waiting: Session, filed: P.Entries, e: Effect)
    requires Evolved(s, waiting) && Evolved(waiting, e.session) && Settled(waiting, filed, e)
    requires OthersKept(entries, filed, s.id)
    ensures EffectFits(s, entries, [], e.(calls := [P.AuthorizeCall] + e.calls))
  {
    assert [] + ([P.AuthorizeCall] + e.calls) == [P.AuthorizeCall] + e.calls;
    var n := |s.events|;
    assert e.session.events[..|waiting.events|][..n] == e.session.events[..n];
  }

  lemma CaptureFits(s: Session, entries: P.Entries, j: seq<P.CallKind>, q: Request)
    requires SessionFits(s, entries, j) && q.Capture?
    ensures EffectFits(s, entries, j, EffectOf(s, entries, q))
  {
    assert j + [] == j;
    if s.state == State.Approved {
      CapturedHold(s, entries, q.code, q.now);
      CapturedLog(s, entries, s.processorReference.value, q.code, q.now);
    }
  }

  lemma VoidHold(s: Session, entries: P.Entries, now: int)
    requires s.state == State.Approved && Holds(s, entries)
    ensures var e := VoidEffect(s, entries, now);
            && HoldFits(e.session, e.entries) && OthersKept(entries, e.entries, s.id)
            && e.calls == [P.VoidCall] && e.failure.None?
            && e.session == Advanced(s, Voided, "Voided").(updatedAt := now)
  {
  }

  lemma VoidFits(s: Session, entries: P.Entries, j: seq<P.CallKind>, q: Request)
    requires SessionFits(s, entries, j) && q.Void?
    ensures EffectFits(s, entries, j, EffectOf(s, entries, q))
  {
    if s.state == State.Approved {
      VoidHold(s, entries, q.now);
      AdvanceLog(s, Voided, "Voided");
    } else {
      assert j + [] == j;
    }
  }

  lemma RefundHold(s: Session, entries: P.Entries, q: Request)
    requires q.Refund? && NewReference(entries, q) && s.state == State.Completed && Holds(s, entries)
    ensures var e := RefundEffect(s, entries, q.amount, q.reason, q.hex, q.code, q.now);
            && HoldFits(e.session, e.entries) && OthersKept(entries, e.entries, s.id)
            && e.calls == [P.RefundCall] && e.failure.None?
            && SameDeal(s, e.session)
            && e.session.state == Refunded && e.session.events == Advanced(s, Refunded, "Refunded (SANDBOX)").events
  {
    assert ("sbx_rf_" + q.hex)[0] == 's';
  }

  lemma RefundFits(s: Session, entries: P.Entries, j: seq<P.CallKind>, q: Request)
    requires SessionFits(s, entries, j) && q.Refund? && NewReference(entries, q)
    ensures EffectFits(s, entries, j, EffectOf(s, entries, q))
  {
    if s.state == State.Completed {
      RefundHold(s, entries, q);
      AdvanceLog(s, Refunded, "Refunded (SANDBOX)");
      var n := |s.events|;
      assert Advanced(s, Refunded, "Refunded (SANDBOX)").events[n - 1] == s.events[n - 1];
    } else {
      assert j + [] == j;
    }
  }

  lemma CancelFits(s: Session, entries: P.Entries, j: seq<P.CallKind>, q: Request)
    requires SessionFits(s, entries, j) && q.Cancel?
    ensures EffectFits(s, entries, j, EffectOf(s, entries, q))
  {
    assert j + [] == j;
    if CanTransition(s.state, State.Cancelled) {
      AdvanceLog(s, State.Cancelled, "Cancelled by operator");
      var n := |s.events|;
      assert Advanced(s, State.Cancelled, "Cancelled by operator").events[n - 1] == s.events[n - 1];
    }
  }

  lemma SelectFits(s: Session, entries: P.Entries, j: seq<P.CallKind>, q: Request)
    requires SessionFits(s, entries, j) && q.SelectProtocol?
    ensures EffectFits(s, entries, j, EffectOf(s, entries, q))
  {
    assert j + [] == j;
    if s.state == AmountEntered && q.lookup.Some? {
      AdvanceLog(s, ProtocolSelected, "Protocol selected: " + q.lookup.value.displayLabel);
    }
  }

  lemma CallFits(s: Session, entries: P.Entries, j: seq<P.CallKind>, q: Request)
    requires SessionFits(s, entries, j) && !q.Create? && NewReference(entries, q)
    ensures EffectFits(s, entries, j, EffectOf(s, entries, q))
  {
    match q
    case SelectProtocol(_, _, _, _) => SelectFits(s, entries, j, q);
    case Authorize(_, _, _, _, _, _, _, _) => AuthorizeFits(s, entries, j, q);
    case Capture(_, _, _, _) => CaptureFits(s, entries, j, q);
    case Void(_, _, _) => VoidFits(s, entries, j, q);
    case Refund(_, _, _, _, _, _, _) => RefundFits(s, entries, j, q);
    case Cancel(_, _, _) => CancelFits(s, entries, j, q);
  }

  // ---------- many sessions, one call ----------

  lemma JournalOfOneMore(calls: seq<P.Call>, call: P.Call, other: Uuid)
    ensures Journal(calls + [call], other)
            == Journal(calls, other) + (if call.session == other then [call.kind] else [])
  {
    assert (calls + [call])[..|calls|] == calls;
  }

  lemma TaggedGrows(calls: seq<P.Call>, kinds: seq<P.CallKind>, kind: P.CallKind, id: Uuid)
    ensures calls + Tagged(kinds + [kind], id) == calls + Tagged(kinds, id) + [P.Call(kind, id)]
  {
  }

  lemma {:induction false} JournalAppends(calls: seq<P.Call>, kinds: seq<P.CallKind>, id: Uuid, other: Uuid)
    ensures Journal(calls + Tagged(kinds, id), other) == Journal(calls, other) + (if other == id then kinds else [])
    decreases |kinds|
  {
    if kinds == [] {
      assert calls + Tagged(kinds, id) == calls;
    } else {
      var n := |kinds| - 1;
      JournalAppends(calls, kinds[..n], id, other);
      JournalOfOneMore(calls + Tagged(kinds[..n], id), P.Call(kinds[n], id), other);
      TaggedGrows(calls, kinds[..n], kinds[n], id);
      assert kinds[..n] + [kinds[n]] == kinds;
    }
  }

  lemma {:induction false} JournalOfStranger(calls: seq<P.Call>, id: Uuid)
    requires forall i :: 0 <= i < |calls| ==> calls[i].session != id
    ensures Journal(calls, id) == []
  {
    if calls != [] {
      JournalOfStranger(calls[..|calls| - 1], id);
    }
  }

  /** Distinct sessions never share a processor reference. */
  lemma ReferencesAreDistinct(y: System, a: Uuid, b: Uuid)
    requires Inv(y) && a in y.sessions && b in y.sessions && a != b
    ensures y.sessions[a].processorReference.None?
         || y.sessions[a].processorReference != y.sessions[b].processorReference
  {
  }

  /** A session stays in order when the entries of other sessions are the only ones to change. */
  lemma BystanderFits(s: Session, entries: P.Entries, after: P.Entries, id: Uuid, j: seq<P.CallKind>)
    requires SessionFits(s, entries, j) && s.id != id && OthersKept(entries, after, id)
    ensures SessionFits(s, after, j)
  {
  }

  /** The text key is injective because a merchant id has a fixed length. */
  lemma IndexKeyIsInjective(m: Uuid, k: string, m': Uuid, k': string)
    requires IndexKey(m, k) == IndexKey(m', k')
    ensures m == m' && k == k'
  {
    assert m == IndexKey(m, k)[..36] == m';
    assert k == IndexKey(m, k)[37..] == k';
  }

  lemma InsertKeepsInv(y: System, s: Session, index: map<string, Uuid>)
    requires Inv(y) && s.id !in y.sessions && SessionFits(s, y.entries, Journal(y.calls, s.id))
    requires if Truthy(s.idempotencyKey)
             then var k := IndexKey(s.merchantId, s.idempotencyKey.value); k !in y.index && index == y.index[k := s.id]
             else index == y.index
    ensures Inv(y.(sessions := y.sessions[s.id := s], index := index))
  {
  }

  lemma CreateKeepsInv(y: System, q: Request)
    requires Inv(y) && q.Create? && Fresh(y, q)
    ensures Inv(Step(y, q).system)
  {
    if q.merchant.Some? && !q.selection.BadProtocol? {
      var s := NewSession(q.merchant.value, q);
      NewSessionFits(y, q);
      if !Truthy(q.idempotencyKey) {
        InsertKeepsInv(y, s, y.index);
      } else {
        var k := IndexKey(q.merchant.value, q.idempotencyKey.value);
        if k !in y.index {
          InsertKeepsInv(y, s, y.index[k := s.id]);
        }
      }
    }
  }

  lemma NewSessionFits(y: System, q: Request)
    requires Inv(y) && q.Create? && q.merchant.Some? && Fresh(y, q)
    ensures var s := NewSession(q.merchant.value, q);
            && SessionFits(s, y.entries, Journal(y.calls, q.id))
            && s.id == q.id && s.merchantId == q.merchant.value && s.idempotencyKey == q.idempotencyKey
  {
    JournalOfStranger(y.calls, q.id);
    var created := [Event(None, Created, "Session created")];
    assert LogFits(created, Created);
    var entered := created + [Event(Some(Created), AmountEntered, "Amount entered")];
    assert entered[..1] == created;
    var s := NewSession(q.merchant.value, q);
    if q.selection.Chosen? {
      assert s.events[..2] == entered;
    }
  }

  /** A call on one session leaves every other session, its processor entries and its call history alone. */
  ghost predicate Isolated(y: System, y': System, id: Uuid) {
    && y'.sessions.Keys == y.sessions.Keys
    && y'.index == y.index
    && OthersKept(y.entries, y'.entries, id)
    && (forall other :: other in y.sessions && other != id ==>
          y'.sessions[other] == y.sessions[other] && Journal(y'.calls, other) == Journal(y.calls, other))
  }

  ghost predicate Targets(y: System, q: Request) {
    !q.Create? && q.merchant.Some? && q.id in y.sessions && y.sessions[q.id].merchantId == q.merchant.value
  }

  lemma TargetFits(y: System, q: Request)
    requires Inv(y) && Targets(y, q) && Fresh(y, q)
    ensures EffectFits(y.sessions[q.id], y.entries, Journal(y.calls, q.id), EffectOf(y.sessions[q.id], y.entries, q))
  {
    CallFits(y.sessions[q.id], y.entries, Journal(y.calls, q.id), q);
  }

  lemma AppliedIsIsolated(y: System, id: Uuid, e: Effect)
    requires id in y.sessions && OthersKept(y.entries, e.entries, id)
    ensures Isolated(y, Applied(y, id, e), id)
  {
    forall other | other in y.sessions && other != id
      ensures Journal(Applied(y, id, e).calls, other) == Journal(y.calls, other)
    {
      JournalAppends(y.calls, e.calls, id, other);
    }
  }

  lemma AppliedKeepsInv(y: System, id: Uuid, e: Effect)
    requires Inv(y) && id in y.sessions && EffectFits(y.sessions[id], y.entries, Journal(y.calls, id), e)
    ensures Inv(Applied(y, id, e))
  {
    AppliedIsIsolated(y, id, e);
    JournalAppends(y.calls, e.calls, id, id);
    UpdateKeepsInv(y, Applied(y, id, e), id);
  }

  lemma CallTouchesItsTarget(y: System, q: Request)
    requires !q.Create?
    ensures Step(y, q).system == if Targets(y, q) then Applied(y, q.id, EffectOf(y.sessions[q.id], y.entries, q)) else y
  {
  }

  lemma CallIsIsolated(y: System, q: Request)
    requires Inv(y) && !q.Create? && Fresh(y, q)
    ensures Isolated(y, Step(y, q).system, q.id)
  {
    CallTouchesItsTarget(y, q);
    if Targets(y, q) {
      TargetFits(y, q);
      AppliedIsIsolated(y, q.id, EffectOf(y.sessions[q.id], y.entries, q));
    }
  }

  lemma UpdateKeepsIndex(y: System, y': System, id: Uuid)
    requires IndexFits(y) && id in y.sessions && Isolated(y, y', id)
    requires y'.sessions[id] == y.sessions[id] || SameDeal(y.sessions[id], y'.sessions[id])
    ensures IndexFits(y')
  {
  }

  lemma UpdateKeepsInv(y: System, y': System, id: Uuid)
    requires Inv(y) && id in y.sessions && Isolated(y, y', id)
    requires y'.sessions[id] == y.sessions[id] || Evolved(y.sessions[id], y'.sessions[id])
    requires SessionFits(y'.sessions[id], y'.entries, Journal(y'.calls, id))
    requires forall i :: 0 <= i < |y'.calls| ==> y'.calls[i].session in y.sessions
    ensures Inv(y')
  {
    forall other | other in y'.sessions
      ensures y'.sessions[other].id == other && SessionFits(y'.sessions[other], y'.entries, Journal(y'.calls, other))
    {
      if other != id {
        BystanderFits(y.sessions[other], y.entries, y'.entries, id, Journal(y.calls, other));
      }
    }
    UpdateKeepsIndex(y, y', id);
  }

  /** The invariant survives every call, on any session, in any order. */
  lemma StepKeepsInv(y: System, q: Request)
    requires Inv(y) && Fresh(y, q)
    ensures Inv(Step(y, q).system)
  {
    if q.Create? {
      CreateKeepsInv(y, q);
    } else if Targets(y, q) {
      TargetFits(y, q);
      AppliedKeepsInv(y, q.id, EffectOf(y.sessions[q.id], y.entries, q));
    }
  }

  /** A rejected call has no effect at all, and the processor is never the reason. */
  lemma RejectionIsHarmless(y: System, q: Request)
    requires Inv(y) && Fresh(y, q)
    ensures Step(y, q).response.Rejected? ==> Step(y, q).system == y
    ensures Step(y, q).response != Rejected(ProcessorRaised) && Step(y, q).response != Rejected(AuditFailed)
  {
    if Targets(y, q) {
      TargetFits(y, q);
      assert y.calls + Tagged([], q.id) == y.calls;
    }
  }

  lemma AuthorizeConflict(s: Session, entries: P.Entries, j: seq<P.CallKind>, q: Request)
    requires SessionFits(s, entries, j) && q.Authorize? && NewReference(entries, q)
    ensures EffectOf(s, entries, q).failure == Some(Conflict) <==> s.state != ProtocolSelected
  {
    if s.state == ProtocolSelected && StartsWith(q.token, "pm_") && q.executionAllowed {
      var reply := P.AuthorizeReply(s.id, s.amountMinor, s.currency, OutcomeOf(s), q.token, q.scenario, q.hex, q.code);
      var waiting := Advanced(Advanced(s, CardPresented, "Card presented (tokenized)"), Authorizing, "Authorizing");
      AnswerIsNoConflict(Answered(waiting, q.token, reply.result), P.Filed(entries, reply), reply.result, q.code,
                         q.now);
    }
  }

  lemma AnswerIsNoConflict(s: Session, entries: P.Entries, result: P.ProcessorResult, code: string, now: int)
    requires s.state == Authorizing
    ensures AnsweredEffect(s, entries, result, code, now).failure != Some(Conflict)
  {
  }

  /** Whether a call on one's own session conflicts depends on its state alone. */
  ghost predicate Refuses(s: Session, q: Request) {
    match q
    case Create(_, _, _, _, _, _, _) => false
    case SelectProtocol(_, _, lookup, _) => lookup.Some? && s.state != AmountEntered
    case Authorize(_, _, _, _, _, _, _, _) => s.state != ProtocolSelected
    case Capture(_, _, _, _) => s.state != State.Approved
    case Void(_, _, _) => s.state != State.Approved
    case Refund(_, _, _, _, _, _, _) => s.state != State.Completed
    case Cancel(_, _, _) => s.state !in {AmountEntered, ProtocolSelected, State.Approved}
  }

  lemma ConflictIsAboutState(s: Session, entries: P.Entries, j: seq<P.CallKind>, q: Request)
    requires SessionFits(s, entries, j) && !q.Create? && NewReference(entries, q)
    ensures EffectOf(s, entries, q).failure == Some(Conflict) <==> Refuses(s, q)
  {
    if q.Authorize? {
      AuthorizeConflict(s, entries, j, q);
    }
  }
}
