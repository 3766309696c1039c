/** Whole runs of terminal session calls: safety over time, and where the protocol gives less than it might. */
module TerminalRuns {
  import opened Common
  import opened TerminalStateMachine
  import opened TerminalSessions
  import opened TerminalSafety
  import P = MockProcessor

  /** States a run passes through: it starts empty and each call takes one state to the next. */
  ghost predicate IsRun(ys: seq<System>, qs: seq<Request>) {
    && |ys| == |qs| + 1
    && ys[0] == EMPTY
    && (forall i :: 0 <= i < |qs| ==> Fresh(ys[i], qs[i]) && ys[i + 1] == Step(ys[i], qs[i]).system)
  }

  lemma {:induction false} EveryStateIsSafe(ys: seq<System>, qs: seq<Request>, k: nat)
    requires IsRun(ys, qs) && k < |ys|
    ensures Inv(ys[k])
  {
    if k > 0 {
      EveryStateIsSafe(ys, qs, k - 1);
      StepKeepsInv(ys[k - 1], qs[k - 1]);
    }
  }

  /**
   The three stores agree in every state of every run: sessions rest only in the nine resting states, a session
   awaiting a protocol has none attached, an approved or completed session names its own approved processor entry for
   its own amount, no two sessions share a reference, and the index is the inverse of the keyed sessions.
   */
  lemma StoresAgree(ys: seq<System>, qs: seq<Request>, k: nat, id: Uuid)
    requires IsRun(ys, qs) && k < |ys| && id in ys[k].sessions
    ensures var s := ys[k].sessions[id];
            && s.id == id
            && s.state !in {Created, CardPresented, CardDataRead, Authorizing, State.Captured}
            && (s.state == AmountEntered ==> s.protocol.None?)
            && (s.state in {State.Approved, State.Completed} ==>
                  && s.processorReference.Some?
                  && var r := s.processorReference.value;
                  && r in ys[k].entries
                  && var entry := ys[k].entries[r];
                  && entry.status == P.Approved && entry.transactionId == id
                  && entry.amountMinor == s.amountMinor && entry.currency == s.currency)
            && (s.processorReference.Some? ==>
                  forall other :: other in ys[k].sessions && other != id ==>
                    ys[k].sessions[other].processorReference != s.processorReference)
    ensures forall m: Uuid, key: string :: key != "" ==>
              (IndexKey(m, key) in ys[k].index && ys[k].index[IndexKey(m, key)] == id
               <==> ys[k].sessions[id].merchantId == m && ys[k].sessions[id].idempotencyKey == Some(key))
  {
    EveryStateIsSafe(ys, qs, k);
    var s := ys[k].sessions[id];
    forall m: Uuid, key: string | key != "" && IndexKey(m, key) in ys[k].index && ys[k].index[IndexKey(m, key)] == id
      ensures s.merchantId == m && s.idempotencyKey == Some(key)
    {
      IndexKeyIsInjective(m, key, s.merchantId, s.idempotencyKey.value);
    }
    forall other | other in ys[k].sessions && other != id && s.processorReference.Some?
      ensures ys[k].sessions[other].processorReference != s.processorReference
    {
      ReferencesAreDistinct(ys[k], id, other);
    }
  }

  /** The processor does not raise into this call, which has its whole effect or, unless only its audit failed, none. */
  ghost predicate WholeOrNothing(y: System, o: Outcome, after: System) {
    && o.system == after
    && o.response != Rejected(ProcessorRaised)
    && (o.response.Rejected? && o.response != Rejected(AuditFailed) ==> after == y)
  }

  lemma StepIsWholeOrNothing(y: System, q: Request, auditFails: bool)
    requires Inv(y) && Fresh(y, q)
    ensures WholeOrNothing(y, Audited(y, q, auditFails), Step(y, q).system)
    ensures Audited(y, q, auditFails).response == Rejected(AuditFailed)
            <==> auditFails && !q.SelectProtocol? && Step(y, q).response.Done?
  {
    RejectionIsHarmless(y, q);
  }

  /**
   The processor never raises into the service. A call that raises leaves all three stores as they were unless it is the
   audit line that failed: then the call has had its whole effect all the same.
   */
  lemma NoCallFailsHalfway(ys: seq<System>, qs: seq<Request>, i: nat, auditFails: bool)
    requires IsRun(ys, qs) && i < |qs|
    ensures WholeOrNothing(ys[i], Audited(ys[i], qs[i], auditFails), ys[i + 1])
    ensures Audited(ys[i], qs[i], auditFails).response == Rejected(AuditFailed)
            <==> auditFails && !qs[i].SelectProtocol? && Step(ys[i], qs[i]).response.Done?
  {
    EveryStateIsSafe(ys, qs, i);
    StepIsWholeOrNothing(ys[i], qs[i], auditFails);
  }

  lemma CreateKeepsOthers(y: System, q: Request, other: Uuid)
    requires q.Create? && Fresh(y, q) && other in y.sessions
    ensures var y' := Step(y, q).system;
            other in y'.sessions && y'.sessions[other] == y.sessions[other] && y'.entries == y.entries
  {
  }

  /** A call acts on its own session only. */
  lemma SessionsAreIsolated(ys: seq<System>, qs: seq<Request>, i: nat, other: Uuid)
    requires IsRun(ys, qs) && i < |qs| && other in ys[i].sessions
    requires qs[i].Create? || qs[i].id != other
    ensures other in ys[i + 1].sessions && ys[i + 1].sessions[other] == ys[i].sessions[other]
    ensures var ref := ys[i].sessions[other].processorReference;
            ref.Some? ==>
              && ref.value in ys[i].entries && ref.value in ys[i + 1].entries
              && ys[i + 1].entries[ref.value] == ys[i].entries[ref.value]
  {
    EveryStateIsSafe(ys, qs, i);
    assert SessionFits(ys[i].sessions[other], ys[i].entries, Journal(ys[i].calls, other));
    if qs[i].Create? {
      CreateKeepsOthers(ys[i], qs[i], other);
    } else {
      CallIsIsolated(ys[i], qs[i]);
    }
  }

  // ---------- money moves at most once ----------

  lemma {:induction false} JournalPrefix(calls: seq<P.Call>, id: Uuid, i: nat, j: nat)
    requires i <= j <= |calls|
    ensures Journal(calls[..i], id) <= Journal(calls[..j], id)
    decreases j
  {
    if i < j {
      JournalPrefix(calls, id, i, j - 1);
      assert calls[..j][..j - 1] == calls[..j - 1];
    }
  }

  /** Where a call of the raw journal sits in its session's journal. */
  lemma JournalPosition(calls: seq<P.Call>, id: Uuid, i: nat) returns (p: nat)
    requires i < |calls| && calls[i].session == id
    ensures p == |Journal(calls[..i], id)| < |Journal(calls, id)| && Journal(calls, id)[p] == calls[i].kind
  {
    p := |Journal(calls[..i], id)|;
    assert calls[..i + 1][..i] == calls[..i];
    JournalPrefix(calls, id, i + 1, |calls|);
    assert calls[..|calls|] == calls;
  }

  lemma JournalOrder(calls: seq<P.Call>, id: Uuid, i: nat, j: nat) returns (p: nat, q: nat)
    requires i < j < |calls| && calls[i].session == id && calls[j].session == id
    ensures p < q < |Journal(calls, id)|
    ensures Journal(calls, id)[p] == calls[i].kind && Journal(calls, id)[q] == calls[j].kind
  {
    p := JournalPosition(calls, id, i);
    q := JournalPosition(calls, id, j);
    assert calls[..i + 1][..i] == calls[..i];
    JournalPrefix(calls, id, i + 1, j);
  }

  lemma CallsComeOnce(state: State, j: seq<P.CallKind>, p: nat, q: nat)
    requires JournalFits(state, j) && p < q < |j|
    ensures j[p] != j[q] && j[p] != P.RefundCall && j[q] != P.AuthorizeCall
    ensures !(j[p] in {P.CaptureCall, P.CompleteCall, P.VoidCall}
              && j[q] in {P.CaptureCall, P.CompleteCall, P.VoidCall})
    ensures !(j[p] == P.VoidCall && j[q] == P.RefundCall)
  {
  }

  /**
   Of any two processor calls for one session: they are of different kinds, at most one of them captures, completes
   or voids, and a refund is never followed by anything.
   */
  lemma MoneyMovesOnce(ys: seq<System>, qs: seq<Request>, k: nat, i: nat, j: nat)
    requires IsRun(ys, qs) && k < |ys|
    requires i < j < |ys[k].calls| && ys[k].calls[i].session == ys[k].calls[j].session
    ensures var a, b := ys[k].calls[i].kind, ys[k].calls[j].kind;
            && a != b
            && !(a in {P.CaptureCall, P.CompleteCall, P.VoidCall} && b in {P.CaptureCall, P.CompleteCall, P.VoidCall})
            && a != P.RefundCall
            && !(a == P.VoidCall && b == P.RefundCall)
            && b != P.AuthorizeCall
  {
    EveryStateIsSafe(ys, qs, k);
    var id := ys[k].calls[i].session;
    var p, q := JournalOrder(ys[k].calls, id, i, j);
    CallsComeOnce(ys[k].sessions[id].state, Journal(ys[k].calls, id), p, q);
  }

  lemma {:induction false} JournalWitness(calls: seq<P.Call>, id: Uuid, p: nat) returns (i: nat)
    requires p < |Journal(calls, id)|
    ensures i < |calls| && calls[i] == P.Call(Journal(calls, id)[p], id) && |Journal(calls[..i], id)| == p
  {
    var n := |calls| - 1;
    if p < |Journal(calls[..n], id)| {
      i := JournalWitness(calls[..n], id, p);
      assert calls[..n][..i] == calls[..i];
    } else {
      i := n;
    }
  }

  lemma RefundComesThird(state: State, j: seq<P.CallKind>, p: nat)
    requires JournalFits(state, j) && p < |j| && j[p] == P.RefundCall
    ensures p == 2 && j[1] in {P.CaptureCall, P.CompleteCall}
  {
  }

  /** A refund is paid only on a session that was captured or completed before. */
  lemma RefundFollowsCapture(ys: seq<System>, qs: seq<Request>, k: nat, j: nat) returns (i: nat)
    requires IsRun(ys, qs) && k < |ys| && j < |ys[k].calls| && ys[k].calls[j].kind == P.RefundCall
    ensures i < j && ys[k].calls[i].session == ys[k].calls[j].session
    ensures ys[k].calls[i].kind in {P.CaptureCall, P.CompleteCall}
  {
    EveryStateIsSafe(ys, qs, k);
    var calls := ys[k].calls;
    var id := calls[j].session;
    var p := JournalPosition(calls, id, j);
    RefundComesThird(ys[k].sessions[id].state, Journal(calls, id), p);
    i := JournalWitness(calls, id, 1);
    if j <= i {
      JournalPrefix(calls, id, j, i);
    }
  }

  // ---------- logs over time ----------

  lemma {:induction false} FittingLogIsPath(log: seq<Event>, state: State)
    requires LogFits(log, state)
    ensures IsPath(log) && log[|log| - 1].to == state
    ensures forall i :: 0 <= i < |log| ==> log[i].to != CardDataRead
    decreases |log|
  {
    var n := |log| - 1;
    if n > 0 {
      FittingLogIsPath(log[..n], log[n].from.value);
      assert log[..n][n - 1] == log[n - 1];
    }
  }

  /** In every state of every run a session's log is a path of the table of at most nine lines, ending where it is. */
  lemma LogsArePaths(ys: seq<System>, qs: seq<Request>, k: nat, id: Uuid)
    requires IsRun(ys, qs) && k < |ys| && id in ys[k].sessions
    ensures var s := ys[k].sessions[id];
            IsPath(s.events) && s.events[|s.events| - 1].to == s.state && |s.events| <= 9
  {
    EveryStateIsSafe(ys, qs, k);
    var s := ys[k].sessions[id];
    FittingLogIsPath(s.events, s.state);
    LogWithoutCardReadIsBounded(s.events, |s.events|);
  }

  lemma TargetEvolves(y: System, q: Request)
    requires Inv(y) && Targets(y, q) && Fresh(y, q)
    ensures var y' := Step(y, q).system;
            && q.id in y'.sessions
            && (y'.sessions[q.id] == y.sessions[q.id] || Evolved(y.sessions[q.id], y'.sessions[q.id]))
  {
    TargetFits(y, q);
  }

  lemma OneStepEvolves(y: System, q: Request, id: Uuid)
    requires Inv(y) && Fresh(y, q) && id in y.sessions
    ensures var y' := Step(y, q).system;
            id in y'.sessions && (y'.sessions[id] == y.sessions[id] || Evolved(y.sessions[id], y'.sessions[id]))
  {
    if q.Create? {
      CreateKeepsOthers(y, q, id);
    } else {
      CallIsIsolated(y, q);
      if Targets(y, q) {
        TargetEvolves(y, q);
      }
    }
  }

  /** The session is the same, or its log has grown. */
  ghost predicate Stays(s: Session, t: Session) {
    t == s || Evolved(s, t)
  }

  lemma StaysTwice(s: Session, m: Session, t: Session)
    requires Stays(s, m) && Stays(m, t)
    ensures Stays(s, t)
  {
    if Evolved(s, m) && Evolved(m, t) {
      EvolvedTwice(s, m, t);
    }
  }

  lemma StaysAtFirst(s: Session)
    ensures Stays(s, s)
  {
  }

  lemma StayStepOfRun(ys: seq<System>, qs: seq<Request>, a: nat, b: nat, id: Uuid)
    requires IsRun(ys, qs) && a < b < |ys| && id in ys[a].sessions && id in ys[b - 1].sessions
    requires Stays(ys[a].sessions[id], ys[b - 1].sessions[id])
    ensures id in ys[b].sessions && Stays(ys[a].sessions[id], ys[b].sessions[id])
  {
    EveryStateIsSafe(ys, qs, b - 1);
    OneStepEvolves(ys[b - 1], qs[b - 1], id);
    StaysTwice(ys[a].sessions[id], ys[b - 1].sessions[id], ys[b].sessions[id]);
  }

  /** Sessions are never lost or rewritten: later states only append to their logs. */
  lemma {:induction false} SessionsEvolve(ys: seq<System>, qs: seq<Request>, a: nat, b: nat, id: Uuid)
    requires IsRun(ys, qs) && a <= b < |ys| && id in ys[a].sessions
    ensures id in ys[b].sessions && Stays(ys[a].sessions[id], ys[b].sessions[id])
    decreases b
  {
    if a == b {
      StaysAtFirst(ys[a].sessions[id]);
    } else {
      SessionsEvolve(ys, qs, a, b - 1, id);
      StayStepOfRun(ys, qs, a, b, id);
    }
  }

  /** Only a state with a way on lets its log grow. */
  lemma GrowthNeedsAWayOn(s: Session, t: Session)
    requires LogFits(s.events, s.state) && Evolved(s, t)
    ensures Successors(s.state) != {}
  {
    FittingLogIsPath(t.events, t.state);
    FittingLogIsPath(s.events, s.state);
    var n := |s.events|;
    assert t.events[..n][n - 1] == t.events[n - 1];
    assert t.events[n].to in Successors(s.state);
  }

  /** A session that has ended stays exactly as it ended. */
  lemma EndedIsFinal(ys: seq<System>, qs: seq<Request>, a: nat, b: nat, id: Uuid)
    requires IsRun(ys, qs) && a <= b < |ys| && id in ys[a].sessions
    requires ys[a].sessions[id].state in {State.Declined, State.Failed, State.Cancelled, Voided, Refunded}
    ensures id in ys[b].sessions && ys[b].sessions[id] == ys[a].sessions[id]
  {
    SessionsEvolve(ys, qs, a, b, id);
    EveryStateIsSafe(ys, qs, a);
    if ys[b].sessions[id] != ys[a].sessions[id] {
      GrowthNeedsAWayOn(ys[a].sessions[id], ys[b].sessions[id]);
    }
  }

  // ---------- idempotent creation ----------

  lemma CreateFilesItsKey(y: System, q: Request)
    requires Inv(y) && q.Create? && Fresh(y, q) && Truthy(q.idempotencyKey) && Step(y, q).response.Done?
    ensures var s := Step(y, q).response.session;
            && s.id in Step(y, q).system.sessions && Step(y, q).system.sessions[s.id] == s
            && Some(s.merchantId) == q.merchant && s.idempotencyKey == q.idempotencyKey
  {
    var k := IndexKey(q.merchant.value, q.idempotencyKey.value);
    if k in y.index {
      var s := y.sessions[y.index[k]];
      IndexKeyIsInjective(q.merchant.value, q.idempotencyKey.value, s.merchantId, s.idempotencyKey.value);
    }
  }

  lemma CreateFindsItsKey(y: System, q: Request, id: Uuid)
    requires Inv(y) && q.Create? && !q.selection.BadProtocol? && id in y.sessions
    requires Some(y.sessions[id].merchantId) == q.merchant && y.sessions[id].idempotencyKey == q.idempotencyKey
    requires Truthy(q.idempotencyKey)
    ensures Step(y, q) == Outcome(y, Done(y.sessions[id]))
  {
    assert IndexFits(y);
  }

  /**
   Once a create with a key has been answered, every later create by that merchant with that key gets that session.
   */
  lemma CreateIsIdempotent(ys: seq<System>, qs: seq<Request>, a: nat, b: nat)
    requires IsRun(ys, qs) && a < b < |qs| && qs[a].Create? && qs[b].Create?
    requires Step(ys[a], qs[a]).response.Done? && !qs[b].selection.BadProtocol?
    requires qs[a].merchant == qs[b].merchant && qs[a].idempotencyKey == qs[b].idempotencyKey
    requires Truthy(qs[a].idempotencyKey)
    ensures var first := Step(ys[a], qs[a]).response.session;
            && Some(first.merchantId) == qs[a].merchant && first.idempotencyKey == qs[a].idempotencyKey
            && first.id in ys[b].sessions
            && Step(ys[b], qs[b]) == Outcome(ys[b], Done(ys[b].sessions[first.id]))
  {
    EveryStateIsSafe(ys, qs, a);
    EveryStateIsSafe(ys, qs, b);
    CreateFilesItsKey(ys[a], qs[a]);
    var first := Step(ys[a], qs[a]).response.session;
    SessionsEvolve(ys, qs, a + 1, b, first.id);
    CreateFindsItsKey(ys[b], qs[b], first.id);
  }

  // ---------- what the protocol does not promise ----------

  /** A refund is always granted to a completed session, and it exceeds what was captured exactly when asked to. */
  lemma RefundIsNotCapped(ys: seq<System>, qs: seq<Request>, i: nat)
    requires IsRun(ys, qs) && i < |qs| && qs[i].Refund? && Targets(ys[i], qs[i])
    requires ys[i].sessions[qs[i].id].state == State.Completed
    ensures Step(ys[i], qs[i]).response.Done?
    ensures var s := Step(ys[i], qs[i]).response.session;
            && s.processorReference.Some? && s.processorReference.value in ys[i + 1].entries
            && var refunded := ys[i + 1].entries[s.processorReference.value].amountMinor;
            && var asked := qs[i].amount;
            && (refunded > s.amountMinor <==> asked.Some? && asked.value != 0 && asked.value > s.amountMinor)
  {
    EveryStateIsSafe(ys, qs, i);
    TargetFits(ys[i], qs[i]);
  }

  /** The processor holds an approval under the session's reference. */
  predicate HoldsApproval(y: System, id: Uuid) {
    && id in y.sessions && y.sessions[id].processorReference.Some?
    && y.sessions[id].processorReference.value in y.entries
    && y.entries[y.sessions[id].processorReference.value].status == P.Approved
  }

  /** A granted cancel leaves an approval at the processor exactly when it found the session approved. */
  lemma CancelKeepsApprovalIff(ys: seq<System>, qs: seq<Request>, i: nat)
    requires IsRun(ys, qs) && i < |qs| && qs[i].Cancel? && Step(ys[i], qs[i]).response.Done?
    ensures qs[i].id in ys[i].sessions && qs[i].id in ys[i + 1].sessions
            && ys[i + 1].sessions[qs[i].id].state == State.Cancelled
    ensures HoldsApproval(ys[i + 1], qs[i].id) <==> ys[i].sessions[qs[i].id].state == State.Approved
  {
    EveryStateIsSafe(ys, qs, i);
    assert SessionFits(ys[i].sessions[qs[i].id], ys[i].entries, Journal(ys[i].calls, qs[i].id));
  }

  /**
   A cancelled session still holds an approval at the processor exactly when the operator cancelled it after
   approval; by `EndedIsFinal` it then does so for good.
   */
  lemma CancelKeepsApproval(ys: seq<System>, qs: seq<Request>, k: nat, id: Uuid)
    requires IsRun(ys, qs) && k < |ys| && id in ys[k].sessions && ys[k].sessions[id].state == State.Cancelled
    ensures var s := ys[k].sessions[id];
            HoldsApproval(ys[k], id) <==> |s.events| >= 2 && s.events[|s.events| - 2].to == State.Approved
  {
    EveryStateIsSafe(ys, qs, k);
    assert SessionFits(ys[k].sessions[id], ys[k].entries, Journal(ys[k].calls, id));
  }
}
