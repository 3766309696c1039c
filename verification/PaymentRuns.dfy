/** Whole runs of the payment ledger, and the exact conditions under which it keeps the stronger promises. */
module PaymentRuns {
  import opened Common
  import opened Fees
  import opened Money
  import opened Payments
  import opened PaymentSafety

  ghost predicate IsRun(ls: seq<Ledger>, qs: seq<Request>) {
    && |ls| == |qs| + 1
    && ls[0] == NO_PAYMENTS
    && (forall i :: 0 <= i < |qs| ==> Fresh(ls[i], qs[i]) && ls[i + 1] == Step(ls[i], qs[i]).ledger)
  }

  lemma {:induction false} EveryLedgerIsSafe(ls: seq<Ledger>, qs: seq<Request>, k: nat)
    requires IsRun(ls, qs) && k < |ls|
    ensures Inv(ls[k])
  {
    if k > 0 {
      EveryLedgerIsSafe(ls, qs, k - 1);
      StepKeepsInv(ls[k - 1], qs[k - 1]);
    }
  }

  /**
   In every state of every run: a transaction has had a successful wallet transfer exactly when its settlement is done,
   never two; it has had a granted refund exactly when it is refunded, never two; a settlement exists only while the
   payment is parked, completed or refunded, and pays out the net to the last place.
   */
  lemma MoneyIsConserved(ls: seq<Ledger>, qs: seq<Request>, k: nat, id: Uuid)
    requires IsRun(ls, qs) && k < |ls| && id in ls[k].rows
    ensures var l, t := ls[k], ls[k].rows[id];
            && t.id == id
            && t.status in {Failed, Authorized, Captured, SettlementPending, Completed, Cancelled, Refunded}
            && (IsPaidOut(t) <==> exists i :: 0 <= i < |l.sends| && l.sends[i].txn == id)
            && (forall i, j :: 0 <= i < j < |l.sends| ==> l.sends[i].txn != l.sends[j].txn)
            && (t.status == Refunded <==> exists i :: 0 <= i < |l.refunds| && l.refunds[i].txn == id)
            && (forall i, j :: 0 <= i < j < |l.refunds| ==> l.refunds[i].txn != l.refunds[j].txn)
            && (t.status == Completed ==> t.settlement.Some? && t.settlement.value.status == SettlementDone)
            && (t.settlement.Some? ==>
                  var s := t.settlement.value;
                  && t.status in {SettlementPending, Completed, Refunded}
                  && (s.status == SettlementDone ==> t.status != SettlementPending)
                  && t.amount == t.fees + t.net && s.fiatAmount == t.net
                  && SandboxRate(t.currency) == Some(s.rate)
                  && s.usdtAmount == UsdtUnits(t.net, s.rate) && 0 < s.usdtAmount < USDT_LIMIT)
            && (forall i :: 0 <= i < |l.sends| && l.sends[i].txn == id ==>
                  t.settlement.Some? && l.sends[i].usdtAmount == t.settlement.value.usdtAmount)
  {
    EveryLedgerIsSafe(ls, qs, k);
  }

  // ---------- over time ----------

  /** What one step may do to a stored row. */
  ghost predicate RowEvolves(t: Txn, u: Txn) {
    && SameDeal(t, u)
    && t.logs <= u.logs && t.trail <= u.trail
    && (t.status == Failed && u.trail != t.trail ==> u.trail == t.trail + [Captured])
    && (u.trail == t.trail ==> u.status == t.status)
    && (t.status in {Cancelled, Refunded} ==> u == t)
    && (t.status == Failed ==> u.status in {Failed, Captured})
    && (IsPaidOut(t) ==> u.settlement == t.settlement)
  }

  lemma SettlementEvolves(t: Txn, c: Conditions)
    requires TxnFits(t)
    ensures Settleable(t.status) ==> RowEvolves(t, PrepareAndSettle(t, c).txn)
    ensures t.status == Captured ==> RowEvolves(t, TrySettle(t, c).txn)
  {
    var p := Priced(t, c.feePercent);
    assert t.logs <= p.logs;
    var r := PrepareAndSettle(t, c);
    assert t.logs <= r.txn.logs;
  }

  lemma SignEvolves(l: Ledger, q: Request)
    requires Inv(l) && q.Sign? && q.id in l.rows
    ensures q.id in SignStep(l, q).ledger.rows && RowEvolves(l.rows[q.id], SignStep(l, q).ledger.rows[q.id])
  {
    var t := l.rows[q.id];
    if Owned(l, q.merchant, q.id) && t.status == Authorized && q.acknowledged {
      var receipt := if Truthy(t.receiptNumber) then t.receiptNumber else Some(q.receipt);
      var captured := Moved(t, Captured).(receiptNumber := receipt);
      SettlementEvolves(captured, q.conditions);
      assert t.logs <= captured.logs;
    }
  }

  lemma TaskEvolves(l: Ledger, q: Request)
    requires Inv(l) && q.SettleTask? && q.id in l.rows
    ensures q.id in TaskStep(l, q).ledger.rows && RowEvolves(l.rows[q.id], TaskStep(l, q).ledger.rows[q.id])
  {
    SettlementEvolves(l.rows[q.id], q.conditions);
  }

  lemma VerdictEvolves(t: Txn, q: Request)
    requires TxnFits(t) && (q.NowPaymentsWebhook? || q.MoyasarWebhook?)
    ensures RowEvolves(t, if q.MoyasarWebhook? then MoyasarVerdict(t, q.success)
                          else NowPaymentsVerdict(t, q.success, q.receipt))
  {
  }

  lemma WebhookEvolves(l: Ledger, target: Found, q: Request, id: Uuid)
    requires Inv(l) && (q.NowPaymentsWebhook? || q.MoyasarWebhook?) && id in l.rows
    requires target.OneRow? ==> target.id in l.rows
    ensures id in WebhookStep(l, target, q).ledger.rows
            && RowEvolves(l.rows[id], WebhookStep(l, target, q).ledger.rows[id])
  {
    if target == OneRow(id) {
      VerdictEvolves(l.rows[id], q);
    }
  }

  lemma SettledStepTouches(l: Ledger, t: Txn, c: Conditions, id: Uuid)
    requires id in l.rows && id != t.id
    ensures id in SettledStep(l, t, c).ledger.rows && SettledStep(l, t, c).ledger.rows[id] == l.rows[id]
  {
    EngineKeepsId(t, c);
  }

  lemma SignTouches(l: Ledger, q: Request, id: Uuid)
    requires Inv(l) && id in l.rows && q.Sign? && q.id != id
    ensures id in SignStep(l, q).ledger.rows && SignStep(l, q).ledger.rows[id] == l.rows[id]
  {
    if Owned(l, q.merchant, q.id) {
      var t := l.rows[q.id];
      var receipt := if Truthy(t.receiptNumber) then t.receiptNumber else Some(q.receipt);
      SettledStepTouches(l, Moved(t, Captured).(receiptNumber := receipt), q.conditions, id);
    }
  }

  lemma TaskTouches(l: Ledger, q: Request, id: Uuid)
    requires Inv(l) && id in l.rows && q.SettleTask? && q.id != id
    ensures id in TaskStep(l, q).ledger.rows && TaskStep(l, q).ledger.rows[id] == l.rows[id]
  {
    if q.id in l.rows {
      SettlementKeeps(l.rows[q.id], q.conditions);
    }
  }

  /** Requests on one transaction leave the others alone. */
  lemma OtherRowsStay(l: Ledger, q: Request, id: Uuid)
    requires Inv(l) && id in l.rows && (q.Sign? || q.Cancel? || q.Refund? || q.SettleTask?) && q.id != id
    ensures id in Step(l, q).ledger.rows && Step(l, q).ledger.rows[id] == l.rows[id]
  {
    match q
    case Sign(_, _, _, _, _) => SignTouches(l, q, id);
    case SettleTask(_, _) => TaskTouches(l, q, id);
    case _ =>
  }

  lemma OneStepEvolves(l: Ledger, q: Request, id: Uuid)
    requires Inv(l) && Fresh(l, q) && id in l.rows
    ensures id in Step(l, q).ledger.rows && RowEvolves(l.rows[id], Step(l, q).ledger.rows[id])
  {
    if q.Create? {
      CreateKeepsRows(l, q, id);
    } else if q.NowPaymentsWebhook? {
      WebhookEvolves(l, NowPaymentsTarget(l.rows, q), q, id);
    } else if q.MoyasarWebhook? {
      WebhookEvolves(l, MoyasarTarget(l.rows, q), q, id);
    } else if q.id != id {
      OtherRowsStay(l, q, id);
    } else if q.Sign? {
      SignEvolves(l, q);
    } else if q.SettleTask? {
      TaskEvolves(l, q);
    } else if q.Cancel? {
      CancelEvolves(l, q);
    } else {
      RefundEvolves(l, q);
    }
  }

  lemma MovedEvolves(t: Txn, to: Status)
    requires t.status !in {Cancelled, Refunded, Failed}
    ensures RowEvolves(t, Moved(t, to))
  {
  }

  lemma CancelEvolves(l: Ledger, q: Request)
    requires q.Cancel? && q.id in l.rows
    ensures var t, u := l.rows[q.id], CancelStep(l, q).ledger.rows;
            q.id in u && RowEvolves(t, u[q.id]) && (u[q.id].status == t.status || MayMove(t.status, u[q.id].status))
  {
    if Owned(l, q.merchant, q.id) && MayMove(l.rows[q.id].status, Cancelled) {
      MovedEvolves(l.rows[q.id], Cancelled);
    }
  }

  lemma RefundEvolves(l: Ledger, q: Request)
    requires q.Refund? && q.id in l.rows
    ensures var t, u := l.rows[q.id], RefundStep(l, q).ledger.rows;
            q.id in u && RowEvolves(t, u[q.id]) && (u[q.id].status == t.status || MayMove(t.status, u[q.id].status))
  {
    if Owned(l, q.merchant, q.id) && Refundable(l.rows[q.id].status) {
      MovedEvolves(l.rows[q.id], Refunded);
    }
  }

  /**
   The status that a request finds and the one it leaves: a webhook only ever moves FAILED to CAPTURED, which the table
   forbids, and any other request moves along the table, a signature in two moves. What a request passes through on the
   way is the subject of the trails.
   */
  lemma StatusesBetweenRequests(l: Ledger, q: Request, id: Uuid)
    requires Inv(l) && Fresh(l, q) && id in l.rows
    requires id in Step(l, q).ledger.rows && Step(l, q).ledger.rows[id].status != l.rows[id].status
    ensures var from, to := l.rows[id].status, Step(l, q).ledger.rows[id].status;
            if q.NowPaymentsWebhook? || q.MoyasarWebhook? then from == Failed && to == Captured && !MayMove(from, to)
            else MayMove(from, to) || (q.Sign? && MayMove(from, Captured) && MayMove(Captured, to))
  {
    if q.Create? {
      CreateKeepsRows(l, q, id);
    } else if q.NowPaymentsWebhook? {
      WebhookMoves(l, NowPaymentsTarget(l.rows, q), q, id);
    } else if q.MoyasarWebhook? {
      WebhookMoves(l, MoyasarTarget(l.rows, q), q, id);
    } else if q.id != id {
      OtherRowsStay(l, q, id);
    } else if q.Sign? {
      SignMoves(l, q);
    } else if q.SettleTask? {
      TaskMoves(l, q);
    } else if q.Cancel? {
      CancelEvolves(l, q);
    } else {
      RefundEvolves(l, q);
    }
  }

  lemma WebhookMoves(l: Ledger, target: Found, q: Request, id: Uuid)
    requires Inv(l) && (q.NowPaymentsWebhook? || q.MoyasarWebhook?) && id in l.rows
    requires target.OneRow? ==> target.id in l.rows
    ensures id in WebhookStep(l, target, q).ledger.rows
    ensures var from, to := l.rows[id].status, WebhookStep(l, target, q).ledger.rows[id].status;
            to == from || (from == Failed && to == Captured)
  {
  }

  lemma TaskMoves(l: Ledger, q: Request)
    requires Inv(l) && q.SettleTask? && q.id in l.rows
    ensures q.id in TaskStep(l, q).ledger.rows
    ensures var from, to := l.rows[q.id].status, TaskStep(l, q).ledger.rows[q.id].status;
            to == from || MayMove(from, to)
  {
    SettlementKeeps(l.rows[q.id], q.conditions);
  }

  lemma SignMoves(l: Ledger, q: Request)
    requires Inv(l) && q.Sign? && q.id in l.rows
    ensures var t, u := l.rows[q.id], Step(l, q).ledger.rows[q.id];
            u.status == t.status || (t.status == Authorized && u.status in {Completed, SettlementPending})
  {
    var t := l.rows[q.id];
    if t.status == Authorized {
      var receipt := if Truthy(t.receiptNumber) then t.receiptNumber else Some(q.receipt);
      TrySettleKeeps(Moved(t, Captured).(receiptNumber := receipt), q.conditions);
    }
  }

  lemma CreateKeepsRows(l: Ledger, q: Request, id: Uuid)
    requires q.Create? && Fresh(l, q) && id in l.rows
    ensures id in CreateStep(l, q).ledger.rows && CreateStep(l, q).ledger.rows[id] == l.rows[id]
  {
    if q.currencyEnabled && q.merchant.Some? && q.accepted && q.reply.ChargeTaken? {
      var t := Moved(Opened(q.merchant.value, q).(gatewayReference := Some(q.reply.gatewayReference)), Captured);
      EngineKeepsId(t.(receiptNumber := Some(q.receipt)), q.conditions);
    }
  }

  lemma EngineKeepsId(t: Txn, c: Conditions)
    ensures TrySettle(t, c).txn.id == t.id
  {
  }

  /**
   Stored transactions are never lost, their deal never changes and their logs only grow; cancelled and refunded ones
   are final, a declined one can only come back as captured, and a done settlement is never rewritten.
   */
  lemma {:induction false} RowsEvolve(ls: seq<Ledger>, qs: seq<Request>, a: nat, b: nat, id: Uuid)
    requires IsRun(ls, qs) && a <= b < |ls| && id in ls[a].rows
    ensures id in ls[b].rows
    ensures var t, u := ls[a].rows[id], ls[b].rows[id];
            && SameDeal(t, u) && t.logs <= u.logs && t.trail <= u.trail
            && (u.trail == t.trail ==> u.status == t.status)
            && (t.status == Failed && u.trail != t.trail ==> u.trail[|t.trail|] == Captured)
            && (t.status in {Cancelled, Refunded} ==> u == t)
            && (IsPaidOut(t) ==> u.settlement == t.settlement)
    decreases b
  {
    if a < b {
      RowsEvolve(ls, qs, a, b - 1, id);
      EveryLedgerIsSafe(ls, qs, b - 1);
      OneStepEvolves(ls[b - 1], qs[b - 1], id);
    }
  }

  // ---------- refunds ----------

  /** A step grants no refund, or it grants one of the asked amount, or of the whole charge if none was asked. */
  lemma RefundsGrow(l: Ledger, q: Request)
    ensures var after := Step(l, q).ledger.refunds;
            || after == l.refunds
            || (q.Refund? && q.id in l.rows && Refundable(l.rows[q.id].status)
                && after == l.refunds + [Repayment(q.id, RefundAmount(l.rows[q.id], q.asked))])
  {
  }

  /**
   A granted refund: it exceeds the charge exactly if the asked amount does, whatever it is the transaction is refunded
   for good, and money has gone both ways exactly if the payment was completed before.
   */
  lemma GrantedRefund(l: Ledger, q: Request, again: Request)
    requires Inv(l) && q.Refund? && Step(l, q).response.Done?
    requires again.Refund? && again.id == q.id && again.merchant == q.merchant
    ensures var t, l' := l.rows[q.id], Step(l, q).ledger;
            && |l'.refunds| == |l.refunds| + 1 && l'.refunds[|l.refunds|].txn == q.id
            && (l'.refunds[|l.refunds|].amount > t.amount <==> q.asked.Some? && q.asked.value > t.amount)
            && (l'.refunds[|l.refunds|].amount < t.amount <==> q.asked.Some? && q.asked.value < t.amount)
            && l'.rows[q.id].status == Refunded && Step(l', again) == Outcome(l', Rejected(Conflict))
            && ((exists i :: 0 <= i < |l'.sends| && l'.sends[i].txn == q.id) <==> t.status == Completed)
  {
    assert IsPaidOut(l.rows[q.id]) <==> l.rows[q.id].status == Completed;
  }

  /**
   The refund answers the request, which found `before`: it exceeds the charge exactly if the request asked for more,
   and money has gone both ways exactly if the request found the payment completed.
   */
  ghost predicate Answers(repaid: Repayment, before: Ledger, q: Request, after: Ledger) {
    && q.Refund? && q.id == repaid.txn && q.id in before.rows && q.id in after.rows
    && var charge := after.rows[q.id].amount;
    && (repaid.amount > charge <==> q.asked.Some? && q.asked.value > charge)
    && (IsPaidOut(after.rows[q.id]) <==> before.rows[q.id].status == Completed)
  }

  lemma NewRefundAnswers(l: Ledger, q: Request)
    requires Inv(l) && |Step(l, q).ledger.refunds| > |l.refunds|
    ensures |Step(l, q).ledger.refunds| == |l.refunds| + 1
    ensures Answers(Step(l, q).ledger.refunds[|l.refunds|], l, q, Step(l, q).ledger)
  {
    RefundsGrow(l, q);
    assert IsPaidOut(l.rows[q.id]) <==> l.rows[q.id].status == Completed;
  }

  lemma OldRefundStays(l: Ledger, q: Request, i: nat)
    requires Inv(l) && Fresh(l, q) && i < |l.refunds|
    ensures var l', id := Step(l, q).ledger, l.refunds[i].txn;
            && i < |l'.refunds| && l'.refunds[i] == l.refunds[i]
            && id in l.rows && id in l'.rows && l'.rows[id] == l.rows[id]
  {
    RefundsGrow(l, q);
    OneStepEvolves(l, q, l.refunds[i].txn);
  }

  /** A refund after a step: it was there before, or it answers the request. */
  ghost predicate RefundStands(l: Ledger, q: Request, l': Ledger, i: nat)
    requires i < |l'.refunds|
  {
    var repaid := l'.refunds[i];
    if i < |l.refunds| then
      l.refunds[i] == repaid && repaid.txn in l.rows && repaid.txn in l'.rows
        && l'.rows[repaid.txn] == l.rows[repaid.txn]
    else Answers(repaid, l, q, l')
  }

  lemma StepRefundStands(l: Ledger, q: Request, i: nat)
    requires Inv(l) && Fresh(l, q) && i < |Step(l, q).ledger.refunds|
    ensures RefundStands(l, q, Step(l, q).ledger, i)
  {
    if i < |l.refunds| {
      OldRefundStays(l, q, i);
    } else {
      NewRefundAnswers(l, q);
    }
  }

  lemma RefundStepOfRun(ls: seq<Ledger>, qs: seq<Request>, k: nat, i: nat)
    requires IsRun(ls, qs) && 0 < k < |ls| && i < |ls[k].refunds|
    ensures RefundStands(ls[k - 1], qs[k - 1], ls[k], i)
  {
    EveryLedgerIsSafe(ls, qs, k - 1);
    StepRefundStands(ls[k - 1], qs[k - 1], i);
  }

  /** Over any run each refund answers a request on its transaction. */
  lemma {:induction false} RefundsAreAsked(ls: seq<Ledger>, qs: seq<Request>, k: nat, i: nat) returns (j: nat)
    requires IsRun(ls, qs) && k < |ls| && i < |ls[k].refunds|
    ensures j < k && Answers(ls[k].refunds[i], ls[j], qs[j], ls[k])
  {
    RefundStepOfRun(ls, qs, k, i);
    j := k - 1;
    if i < |ls[k - 1].refunds| {
      j := RefundsAreAsked(ls, qs, k - 1, i);
    }
  }

  // ---------- currencies without a rate ----------

  /** Of the enabled currencies exactly CAD and GBP have no sandbox rate. */
  lemma CadAndGbpHaveNoRate(currency: string)
    requires CurrencyExponent(currency).Some?
    ensures SandboxRate(currency).None? <==> Upper(currency) in {"CAD", "GBP"}
  {
  }

  /**
   A captured payment without a rate is parked by its request, whatever wallet and transfer there are, unless its fee is
   too much to store; up to a hundred percent no fee is.
   */
  lemma NoRateIsParkedIff(t: Txn, c: Conditions)
    requires t.status == Captured && !IsPaidOut(t) && SandboxRate(t.currency).None?
    ensures var r := TrySettle(t, c);
            && r.sends == [] && r.txn.settlement == t.settlement
            && (r.verdict == SettleRaised && r.txn.status == SettlementPending <==>
                  c.wallet.None? || FeeCents(t.amount, c.feePercent) < CENTS_LIMIT)
            && (c.feePercent <= WHOLE ==> r.verdict == SettleRaised)
  {
    if c.feePercent <= WHOLE {
      FeeIsStored(t.amount, c.feePercent);
    }
  }

  /** In every state of every run a payment without a rate has no settlement and no transfer, and is never completed. */
  lemma NoRateIsNeverPaidOut(ls: seq<Ledger>, qs: seq<Request>, k: nat, id: Uuid)
    requires IsRun(ls, qs) && k < |ls| && id in ls[k].rows && SandboxRate(ls[k].rows[id].currency).None?
    ensures ls[k].rows[id].settlement.None? && ls[k].rows[id].status != Completed
    ensures forall i :: 0 <= i < |ls[k].sends| ==> ls[k].sends[i].txn != id
  {
    MoneyIsConserved(ls, qs, k, id);
  }

  // ---------- one charge per reference ----------

  /** Every answered charge belongs to a stored transaction under its reference, and no two charges share one. */
  ghost predicate ChargesFit(l: Ledger) {
    && Distinct(l.charges)
    && (forall i :: 0 <= i < |l.charges| ==>
          OwnReference(l.rows, l.charges[i].merchant, l.charges[i].reference) != {})
  }

  /** The database will not refuse what the settlement of this create writes: there is none, or it can be stored. */
  predicate RowIsKept(q: Request) {
    q.Create? ==>
      || !q.reply.ChargeTaken? || q.conditions.wallet.None?
      || Storable(q.amount, Upper(q.currency), q.conditions.feePercent)
  }

  lemma UpperTwice(s: string)
    ensures Upper(Upper(s)) == Upper(s)
  {
  }

  /** Below fifty percent a create is not kept exactly if it is one of euros that settle above ten to the sixteenth. */
  lemma LowFeeKeepsRowIff(q: Request)
    requires q.Create? && 2 * q.conditions.feePercent < WHOLE
    ensures RowIsKept(q) <==>
              !(q.reply.ChargeTaken? && q.conditions.wallet.Some? && Upper(q.currency) == "EUR"
                && q.amount - FeeCents(q.amount, q.conditions.feePercent) > EUR_LIMIT)
  {
    LowFeeIsStorableIff(q.amount, Upper(q.currency), q.conditions.feePercent);
    UpperTwice(q.currency);
  }

  /** A create that gets as far as the gateway, and is answered. */
  ghost predicate Reaches(l: Ledger, q: Request) {
    && q.Create? && q.currencyEnabled && q.merchant.Some? && q.accepted && !q.reply.ChargeRaised?
    && Repeated(l.rows, q.merchant.value, q).NoRow?
  }

  lemma ReferencesStay(rows: map<Uuid, Txn>, rows': map<Uuid, Txn>, merchant: Uuid, reference: string)
    requires forall id :: id in rows ==> id in rows' && SameDeal(rows[id], rows'[id])
    ensures OwnReference(rows, merchant, reference) <= OwnReference(rows', merchant, reference)
  {
  }

  /** What an answered charge leaves: its row, unless its settlement could not be stored. */
  lemma ChargedCreate(l: Ledger, q: Request)
    requires Reaches(l, q)
    ensures var o := Step(l, q);
            var m, reference := q.merchant.value, EffectiveReference(q);
            && o.ledger.charges == l.charges + [Charge(m, reference)]
            && (if o.response == Rejected(RolledBack) then o.ledger.rows == l.rows
                else q.id in o.ledger.rows && o.ledger.rows[q.id].merchant == m
                     && o.ledger.rows[q.id].reference == reference)
            && (o.response == Rejected(RolledBack) <==> !RowIsKept(q))
  {
    var t := Opened(q.merchant.value, q).(gatewayReference := Some(q.reply.gatewayReference));
    if q.reply.ChargeTaken? {
      var captured := Moved(t, Captured).(receiptNumber := Some(q.receipt));
      RowRejectedIff(captured, q.conditions);
      SettlementKeeps(captured, q.conditions);
    }
  }

  lemma OtherStepsDoNotCharge(l: Ledger, q: Request)
    requires !Reaches(l, q)
    ensures Step(l, q).ledger.charges == l.charges
  {
  }

  lemma StepKeepsCharges(l: Ledger, q: Request)
    requires Inv(l) && ChargesFit(l) && Fresh(l, q) && RowIsKept(q)
    ensures ChargesFit(Step(l, q).ledger)
  {
    var l' := Step(l, q).ledger;
    forall merchant, reference
      ensures OwnReference(l.rows, merchant, reference) <= OwnReference(l'.rows, merchant, reference)
    {
      forall id | id in l.rows
        ensures id in l'.rows && SameDeal(l.rows[id], l'.rows[id])
      {
        OneStepEvolves(l, q, id);
      }
      ReferencesStay(l.rows, l'.rows, merchant, reference);
    }
    if Reaches(l, q) {
      ChargedCreate(l, q);
      var charge := Charge(q.merchant.value, EffectiveReference(q));
      assert OwnReference(l.rows, charge.merchant, charge.reference) == {};
      assert q.id in OwnReference(l'.rows, charge.merchant, charge.reference);
      NewCharge(l, charge);
    } else {
      OtherStepsDoNotCharge(l, q);
    }
  }

  lemma NewCharge(l: Ledger, charge: Charge)
    requires ChargesFit(l) && OwnReference(l.rows, charge.merchant, charge.reference) == {}
    ensures Distinct(l.charges + [charge])
  {
    forall i | 0 <= i < |l.charges|
      ensures l.charges[i] != charge
    {
      assert OwnReference(l.rows, l.charges[i].merchant, l.charges[i].reference) != {};
    }
  }

  /**
   While no settlement is refused by the database, the gateway answers at most one charge per merchant and reference,
   over any run.
   */
  lemma {:induction false} ChargedOnce(ls: seq<Ledger>, qs: seq<Request>, k: nat)
    requires IsRun(ls, qs) && k < |ls|
    requires forall i :: 0 <= i < |qs| ==> RowIsKept(qs[i])
    ensures ChargesFit(ls[k])
  {
    if k > 0 {
      ChargedOnce(ls, qs, k - 1);
      EveryLedgerIsSafe(ls, qs, k - 1);
      StepKeepsCharges(ls[k - 1], qs[k - 1]);
    }
  }

  /** Once a transaction is stored under a reference, every later valid request with it returns that transaction. */
  lemma RepeatReturnsStored(l: Ledger, q: Request, id: Uuid)
    requires Inv(l) && q.Create? && q.currencyEnabled && id in l.rows
    requires q.merchant == Some(l.rows[id].merchant) && EffectiveReference(q) == l.rows[id].reference
    ensures Step(l, q) == Outcome(l, Done(l.rows[id]))
  {
    var own := OwnReference(l.rows, l.rows[id].merchant, EffectiveReference(q));
    assert id in own;
    assert own == {id};
  }

  /** The same create sent again: with a transaction id of its own, and answered by the gateway if it gets there. */
  predicate Resends(q: Request, again: Request) {
    && q.Create? && again.Create? && !again.reply.ChargeRaised?
    && again == q.(id := again.id, reply := again.reply, receipt := again.receipt, conditions := again.conditions)
  }

  /** Sending an answered create again charges the card again exactly when its settlement could not be stored. */
  lemma ChargedAgainIff(l: Ledger, q: Request, again: Request)
    requires Inv(l) && Fresh(l, q) && Reaches(l, q) && Resends(q, again)
    ensures var once := Step(l, q).ledger;
            var c := Charge(q.merchant.value, EffectiveReference(q));
            && once.charges == l.charges + [c]
            && Step(once, again).ledger.charges == if RowIsKept(q) then l.charges + [c] else l.charges + [c] + [c]
  {
    ChargedCreate(l, q);
    var once := Step(l, q).ledger;
    if RowIsKept(q) {
      StepKeepsInv(l, q);
      RepeatReturnsStored(once, again, q.id);
    } else {
      ChargedCreate(once, again);
    }
  }

  /** From fifty percent on a single cent in dollars is not kept. */
  lemma FiftyPercentLosesRow(q: Request)
    requires q.Create? && q.reply.ChargeTaken? && q.conditions.wallet.Some?
    requires q.amount == 1 && q.currency == "USD" && 2 * q.conditions.feePercent >= WHOLE
    ensures !RowIsKept(q)
  {
    assert Upper("USD") == "USD";
  }

  /** A create never finds two transactions to repeat. */
  lemma CreateIsNeverAmbiguous(l: Ledger, q: Request)
    requires Inv(l) && q.Create?
    ensures Step(l, q).response != Rejected(Ambiguous)
  {
    if q.merchant.Some? {
      OwnIsSingle(l, q.merchant.value, EffectiveReference(q));
      OwnIsSingle(l, q.merchant.value, q.reference);
    }
  }

  lemma OwnIsSingle(l: Ledger, merchant: Uuid, reference: string)
    requires RowsFit(l)
    ensures !Lookup(OwnReference(l.rows, merchant, reference)).ManyRows?
  {
    var own := OwnReference(l.rows, merchant, reference);
    if own != {} {
      var id :| id in own;
      assert forall other :: other in own ==> SameReference(l.rows[id], l.rows[other]);
      assert own == {id};
    }
  }

  // ---------- exact conditions ----------

  ghost predicate SharedOrder(l: Ledger, orderId: string) {
    exists a, b :: a in l.rows && b in l.rows && l.rows[a].merchant != l.rows[b].merchant
                   && l.rows[a].reference == orderId == l.rows[b].reference
  }

  ghost predicate SharedGatewayReference(l: Ledger, reference: string) {
    exists a, b :: a in l.rows && b in l.rows && a != b
                   && l.rows[a].gatewayReference == Some(reference) == l.rows[b].gatewayReference
  }

  lemma OrderIsManyIff(l: Ledger, orderId: string)
    requires RowsFit(l)
    ensures Lookup(AnyReference(l.rows, orderId)).ManyRows? <==> SharedOrder(l, orderId)
  {
    var ids := AnyReference(l.rows, orderId);
    if SharedOrder(l, orderId) {
      var a, b :| a in l.rows && b in l.rows && l.rows[a].merchant != l.rows[b].merchant
                  && l.rows[a].reference == orderId == l.rows[b].reference;
      assert a in ids && b in ids && a != b;
    } else if ids != {} {
      var a :| a in ids;
      forall b | b in ids
        ensures b == a
      {
        assert SameReference(l.rows[a], l.rows[b]);
      }
      assert ids == {a};
    }
  }

  lemma GatewayReferenceIsManyIff(l: Ledger, reference: string)
    ensures Lookup(GatewayReference(l.rows, reference)).ManyRows? <==> SharedGatewayReference(l, reference)
  {
    var ids := GatewayReference(l.rows, reference);
    if SharedGatewayReference(l, reference) {
      var a, b :| a in l.rows && b in l.rows && a != b
                  && l.rows[a].gatewayReference == Some(reference) == l.rows[b].gatewayReference;
      assert a in ids && b in ids;
    } else if ids != {} {
      var a :| a in ids;
      assert ids == {a};
    }
  }

  lemma AmbiguousIff(l: Ledger, q: Request)
    requires q.NowPaymentsWebhook?
    ensures Step(l, q).response == Rejected(Ambiguous) <==> NowPaymentsTarget(l.rows, q).ManyRows?
  {
  }

  /**
   An order webhook fails exactly when transactions of two merchants carry its order id or, if none carries it, two
   transactions carry its gateway reference.
   */
  lemma OrderWebhookIsAmbiguous(l: Ledger, q: Request)
    requires Inv(l) && q.NowPaymentsWebhook?
    ensures Step(l, q).response == Rejected(Ambiguous) <==>
              || (q.orderId != "" && SharedOrder(l, q.orderId))
              || (q.gatewayReference != "" && SharedGatewayReference(l, q.gatewayReference)
                  && (q.orderId == "" || AnyReference(l.rows, q.orderId) == {}))
  {
    AmbiguousIff(l, q);
    OrderIsManyIff(l, q.orderId);
    GatewayReferenceIsManyIff(l, q.gatewayReference);
    if SharedOrder(l, q.orderId) {
      var a :| a in l.rows && l.rows[a].reference == q.orderId;
      assert a in AnyReference(l.rows, q.orderId);
    }
  }

  /**
   A transfer goes to the address on its settlement unless a retry found a different wallet than the first attempt.
   */
  lemma RecordedAddressIsPaid(t: Txn, c: Conditions)
    requires PrepareAndSettle(t, c).verdict == Settled
    ensures var r := PrepareAndSettle(t, c);
            && |r.sends| == 1 && r.txn.settlement.Some? && c.wallet == Some(r.sends[0].address)
            && (r.sends[0].address == r.txn.settlement.value.walletAddress <==>
                  t.settlement.None? || Some(t.settlement.value.walletAddress) == c.wallet)
  {
  }
}
