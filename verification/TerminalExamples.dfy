/** Short runs of terminal sessions from the empty state, one for each promise that the protocol does not keep. */
module TerminalExamples {
  import opened Common
  import opened TerminalStateMachine
  import opened TerminalSessions
  import opened TerminalRuns
  import P = MockProcessor

  function Sale(merchant: Uuid, id: Uuid, outcome: P.SandboxOutcome): Request {
    Create(Some(merchant), id, 1000, "CAD", Chosen(ProtocolDefinition("101.1", "101.1", "Sale", outcome)), None, 0)
  }

  function Card(merchant: Uuid, id: Uuid): Request {
    Authorize(Some(merchant), id, "pm_card", Some("success"), true, "1", "A", 1)
  }

  lemma Sold(merchant: Uuid, id: Uuid, outcome: P.SandboxOutcome)
    ensures var y := Step(EMPTY, Sale(merchant, id, outcome)).system;
            var s := NewSession(merchant, Sale(merchant, id, outcome));
            && y == EMPTY.(sessions := map[id := s])
            && s.id == id && s.merchantId == merchant && s.amountMinor == 1000
            && s.state == ProtocolSelected && s.outcome == Some(outcome)
  {
  }

  /** A card is approved: held for a pre-authorization, captured for a sale. */
  lemma Carded(y: System, merchant: Uuid, id: Uuid)
    requires id in y.sessions && y.entries == map[]
    requires var s := y.sessions[id];
             s.merchantId == merchant && s.id == id && s.state == ProtocolSelected
               && s.outcome in {Some(P.PreAuth), Some(P.Capture)}
    ensures var y' := Step(y, Card(merchant, id)).system;
            && id in y'.sessions && y'.entries.Keys == {"sbx_1"} && y'.entries["sbx_1"].status == P.Approved
            && var s, s' := y.sessions[id], y'.sessions[id];
            && s'.merchantId == merchant && s'.id == id && s'.amountMinor == s.amountMinor
            && s'.processorReference == Some("sbx_1")
            && s'.state == if s.outcome == Some(P.PreAuth) then State.Approved else State.Completed
  {
    assert "sbx_" + "1" == "sbx_1" && StartsWith("pm_card", "pm_");
  }

  /** An authorization without capture is cancelled by the operator, and the processor still holds it. */
  lemma ApprovedThenCancelled(merchant: Uuid, id: Uuid) returns (ys: seq<System>, qs: seq<Request>)
    ensures |qs| == 3 && IsRun(ys, qs) && id in ys[3].sessions
    ensures ys[3].sessions[id].state == State.Cancelled && HoldsApproval(ys[3], id)
  {
    qs := [Sale(merchant, id, P.PreAuth), Card(merchant, id), Cancel(Some(merchant), id, 2)];
    Sold(merchant, id, P.PreAuth);
    var y1 := Step(EMPTY, qs[0]).system;
    Carded(y1, merchant, id);
    var y2 := Step(y1, qs[1]).system;
    ys := [EMPTY, y1, y2, Step(y2, qs[2]).system];
  }

  lemma Repaid(y: System, merchant: Uuid, id: Uuid)
    requires id in y.sessions && y.entries.Keys == {"sbx_1"}
    requires var s := y.sessions[id];
             s.merchantId == merchant && s.state == State.Completed && s.processorReference == Some("sbx_1")
    ensures var q := Refund(Some(merchant), id, Some(5000), None, "2", "B", 2);
            && Fresh(y, q)
            && var y' := Step(y, q).system;
            && id in y'.sessions && y'.sessions[id].amountMinor == y.sessions[id].amountMinor
            && y'.sessions[id].processorReference == Some("sbx_rf_2")
            && "sbx_rf_2" in y'.entries && y'.entries["sbx_rf_2"].amountMinor == 5000
  {
    assert "sbx_rf_" + "2" == "sbx_rf_2" && "sbx_rf_2" != "sbx_1";
  }

  /** Ten dollars are captured and fifty are refunded. */
  lemma RefundedTooMuch(merchant: Uuid, id: Uuid) returns (ys: seq<System>, qs: seq<Request>)
    ensures |qs| == 3 && IsRun(ys, qs) && id in ys[3].sessions && ys[3].sessions[id].amountMinor == 1000
    ensures var reference := ys[3].sessions[id].processorReference;
            reference == Some("sbx_rf_2") && "sbx_rf_2" in ys[3].entries
              && ys[3].entries["sbx_rf_2"].amountMinor == 5000
  {
    qs := [Sale(merchant, id, P.Capture), Card(merchant, id),
           Refund(Some(merchant), id, Some(5000), None, "2", "B", 2)];
    Sold(merchant, id, P.Capture);
    var y1 := Step(EMPTY, qs[0]).system;
    Carded(y1, merchant, id);
    var y2 := Step(y1, qs[1]).system;
    Repaid(y2, merchant, id);
    ys := [EMPTY, y1, y2, Step(y2, qs[2]).system];
  }

  /** A create whose audit line cannot be written fails, and its session is stored. */
  lemma CreatedAllTheSame(merchant: Uuid, id: Uuid) returns (ys: seq<System>, qs: seq<Request>)
    ensures |qs| == 1 && IsRun(ys, qs) && qs[0].Create?
    ensures Audited(ys[0], qs[0], true) == Outcome(ys[1], Rejected(AuditFailed))
    ensures id !in ys[0].sessions && id in ys[1].sessions && ys[1].sessions[id].state == ProtocolSelected
  {
    qs := [Sale(merchant, id, P.Capture)];
    Sold(merchant, id, P.Capture);
    ys := [EMPTY, Step(EMPTY, qs[0]).system];
  }
}
