/**
 What every run of payment requests, webhooks and worker tasks keeps: at most one transfer and one refund for each
 transaction, and a settlement that pays out the net to the last place.
 */
module PaymentSafety {
  import opened Common
  import opened Fees
  import opened Money
  import opened Payments

  // ---------- one transaction ----------

  predicate IsPaidOut(t: Txn) {
    t.settlement.Some? && t.settlement.value.status == SettlementDone
  }

  /** Between requests a transaction has one of seven statuses, and only three of them can carry a settlement. */
  predicate AtRest(t: Txn) {
    && t.status in {Failed, Authorized, Captured, SettlementPending, Completed, Cancelled, Refunded}
    && (t.settlement.Some? ==> t.status in {SettlementPending, Completed, Refunded})
    && (IsPaidOut(t) ==> t.status in {Completed, Refunded})
    && (t.status == Completed ==> IsPaidOut(t))
  }

  /**
   Amount = fees + net, the settlement pays out the net, and the USDT amount is the net at the rate, to the last
   place.
   */
  predicate Conserves(t: Txn) {
    t.settlement.Some? ==>
      var s := t.settlement.value;
      && t.fees + t.net == t.amount
      && s.fiatAmount == t.net
      && SandboxRate(t.currency) == Some(s.rate)
      && s.usdtAmount == UsdtUnits(t.net, s.rate) && 0 < s.usdtAmount < USDT_LIMIT
  }

  predicate TxnFits(t: Txn) {
    AtRest(t) && Conserves(t)
  }

  predicate SameDeal(t: Txn, u: Txn) {
    t.id == u.id && t.merchant == u.merchant && t.reference == u.reference && t.amount == u.amount
      && t.currency == u.currency
  }

  /** A settlement that went through has exactly one transfer, of the settlement's own amount. */
  predicate Pays(r: EngineResult) {
    && IsPaidOut(r.txn)
    && |r.sends| == 1
    && r.sends[0].txn == r.txn.id && r.sends[0].usdtAmount == r.txn.settlement.value.usdtAmount
  }

  /** What one settlement attempt does to a captured or parked transaction. */
  lemma SettlementKeeps(t: Txn, c: Conditions)
    requires TxnFits(t)
    ensures var r := PrepareAndSettle(t, c);
            && SameDeal(t, r.txn)
            && (r.verdict == Settled ==> TxnFits(r.txn) && !IsPaidOut(t) && r.txn.status == Completed && Pays(r))
            && r.verdict != AlreadySettled
            && (r.verdict == SettleRaised ==> Conserves(r.txn) && IsPaidOut(r.txn) == IsPaidOut(t) && r.sends == [])
  {
  }

  /** On the request path the transaction ends up completed with its one transfer, or parked without one. */
  lemma TrySettleKeeps(t: Txn, c: Conditions)
    requires TxnFits(t) && t.status == Captured
    ensures var r := TrySettle(t, c);
            && SameDeal(t, r.txn)
            && r.verdict != AlreadySettled
            && (r.verdict == Settled ==> TxnFits(r.txn) && r.txn.status == Completed && Pays(r))
            && (r.verdict == SettleRaised ==>
                  TxnFits(r.txn) && !IsPaidOut(r.txn) && r.txn.status == SettlementPending && r.sends == [])
  {
    SettlementKeeps(t, c);
  }

  /** After the fee something is left, and its USDT amount fits the column. */
  predicate PaysOut(amount: Cents, currency: string, feePercent: Percent) {
    var net := amount - FeeCents(amount, feePercent);
    net > 0 && !TooMuch(net, currency)
  }

  /** What the engine writes can be stored: the fee and, where there is a rate, the settlement row. */
  predicate Storable(amount: Cents, currency: string, feePercent: Percent) {
    && FeeCents(amount, feePercent) < CENTS_LIMIT
    && (SandboxRate(currency).Some? ==> PaysOut(amount, currency, feePercent))
  }

  /** The database refuses an attempt exactly when there is a wallet and it cannot store what the engine writes. */
  lemma RowRejectedIff(t: Txn, c: Conditions)
    requires Settleable(t.status) && !IsPaidOut(t)
    ensures PrepareAndSettle(t, c).verdict == RowRejected <==>
              c.wallet.Some? && !Storable(t.amount, t.currency, c.feePercent)
  {
    if SandboxRate(t.currency).Some? {
      UsdtIsStoredIff(t.amount - FeeCents(t.amount, c.feePercent), t.currency);
    }
  }

  /** Up to a hundred percent every fee can be stored. */
  lemma FeeIsStored(amount: Cents, feePercent: Percent)
    requires feePercent <= WHOLE
    ensures FeeCents(amount, feePercent) < CENTS_LIMIT
  {
    FeeIsWithinGross(amount, feePercent);
  }

  /** Below fifty percent only euros can be refused, and exactly when the net buys more USDT than the column holds. */
  lemma LowFeeIsStorableIff(amount: Cents, currency: string, feePercent: Percent)
    requires 2 * feePercent < WHOLE
    ensures Storable(amount, currency, feePercent) <==> !TooMuch(amount - FeeCents(amount, feePercent), currency)
  {
    FiftyPercentIsTight(feePercent);
    assert FeeCents(amount, feePercent) < amount;
  }

  // ---------- the ledger ----------

  ghost predicate Distinct<T>(xs: seq<T>) {
    forall i, j :: 0 <= i < j < |xs| ==> xs[i] != xs[j]
  }

  ghost predicate SendsFit(l: Ledger) {
    && (forall i, j :: 0 <= i < j < |l.sends| ==> l.sends[i].txn != l.sends[j].txn)
    && (forall i :: 0 <= i < |l.sends| ==>
          var send := l.sends[i];
          && send.txn in l.rows && IsPaidOut(l.rows[send.txn])
          && l.rows[send.txn].settlement.value.usdtAmount == send.usdtAmount)
    && (forall id :: id in l.rows && IsPaidOut(l.rows[id]) ==>
          exists i :: 0 <= i < |l.sends| && l.sends[i].txn == id)
  }

  ghost predicate RefundsFit(l: Ledger) {
    && (forall i, j :: 0 <= i < j < |l.refunds| ==> l.refunds[i].txn != l.refunds[j].txn)
    && (forall i :: 0 <= i < |l.refunds| ==> l.refunds[i].txn in l.rows && l.rows[l.refunds[i].txn].status == Refunded)
    && (forall id :: id in l.rows && l.rows[id].status == Refunded ==>
          exists i :: 0 <= i < |l.refunds| && l.refunds[i].txn == id)
  }

  predicate SameReference(t: Txn, u: Txn) {
    t.merchant == u.merchant && t.reference == u.reference
  }

  ghost predicate RowsFit(l: Ledger) {
    && (forall id :: id in l.rows ==> l.rows[id].id == id && TxnFits(l.rows[id]))
    && (forall a, b :: a in l.rows && b in l.rows && SameReference(l.rows[a], l.rows[b]) ==> a == b)
  }

  ghost predicate Inv(l: Ledger) {
    RowsFit(l) && SendsFit(l) && RefundsFit(l)
  }

  /** New transactions get new ids. */
  predicate Fresh(l: Ledger, q: Request) {
    q.Create? ==> q.id !in l.rows
  }

  function Rewritten(l: Ledger, t: Txn): Ledger {
    l.(rows := l.rows[t.id := t])
  }

  lemma RewriteKeepsRows(l: Ledger, t: Txn)
    requires RowsFit(l) && t.id in l.rows && TxnFits(t) && SameDeal(l.rows[t.id], t)
    ensures RowsFit(Rewritten(l, t))
  {
  }

  lemma RewriteKeepsSends(l: Ledger, t: Txn)
    requires SendsFit(l) && t.id in l.rows
    requires t.settlement == l.rows[t.id].settlement || (!IsPaidOut(t) && !IsPaidOut(l.rows[t.id]))
    ensures SendsFit(Rewritten(l, t))
  {
  }

  /** Rewriting one row keeps the ledger in order when the row does not move money. */
  lemma RewriteKeepsInv(l: Ledger, t: Txn)
    requires Inv(l) && t.id in l.rows && TxnFits(t) && SameDeal(l.rows[t.id], t)
    requires t.settlement == l.rows[t.id].settlement || (!IsPaidOut(t) && !IsPaidOut(l.rows[t.id]))
    requires l.rows[t.id].status != Refunded && t.status != Refunded
    ensures Inv(Rewritten(l, t))
  {
    RewriteKeepsRows(l, t);
    RewriteKeepsSends(l, t);
    assert RefundsFit(Rewritten(l, t));
  }

  lemma RefundIsJournaled(l: Ledger, t: Txn, amount: Cents)
    requires RefundsFit(l) && t.id in l.rows && l.rows[t.id].status != Refunded && t.status == Refunded
    ensures RefundsFit(Rewritten(l, t).(refunds := l.refunds + [Repayment(t.id, amount)]))
  {
    var l' := Rewritten(l, t).(refunds := l.refunds + [Repayment(t.id, amount)]);
    assert l'.refunds[|l.refunds|].txn == t.id;
    forall id | id in l'.rows && l'.rows[id].status == Refunded
      ensures exists i :: 0 <= i < |l'.refunds| && l'.refunds[i].txn == id
    {
      if id != t.id {
        var i :| 0 <= i < |l.refunds| && l.refunds[i].txn == id;
        assert l'.refunds[i] == l.refunds[i];
      }
    }
  }

  /** A granted refund is journaled with its row. */
  lemma RefundKeepsInv(l: Ledger, t: Txn, amount: Cents)
    requires Inv(l) && t.id in l.rows && TxnFits(t) && SameDeal(l.rows[t.id], t)
             && t.settlement == l.rows[t.id].settlement
    requires l.rows[t.id].status != Refunded && t.status == Refunded
    ensures Inv(Rewritten(l, t).(refunds := l.refunds + [Repayment(t.id, amount)]))
  {
    RewriteKeepsRows(l, t);
    RewriteKeepsSends(l, t);
    RefundIsJournaled(l, t, amount);
    var l' := Rewritten(l, t).(refunds := l.refunds + [Repayment(t.id, amount)]);
    assert RowsFit(l') && SendsFit(l');
  }

  lemma NewSendIsFirst(l: Ledger, id: Uuid)
    requires SendsFit(l) && (id in l.rows ==> !IsPaidOut(l.rows[id]))
    ensures forall i :: 0 <= i < |l.sends| ==> l.sends[i].txn != id
  {
  }

  lemma SendIsFound(l: Ledger, r: EngineResult)
    requires SendsFit(l) && |r.sends| == 1 && r.sends[0].txn == r.txn.id
    ensures forall id :: id in Kept(l, r).rows && IsPaidOut(Kept(l, r).rows[id]) ==>
              exists i :: 0 <= i < |l.sends + r.sends| && (l.sends + r.sends)[i].txn == id
  {
    var sends := l.sends + r.sends;
    assert sends[|l.sends|] == r.sends[0];
    forall id | id in Kept(l, r).rows && IsPaidOut(Kept(l, r).rows[id])
      ensures exists i :: 0 <= i < |sends| && sends[i].txn == id
    {
      if id != r.txn.id {
        var i :| 0 <= i < |l.sends| && l.sends[i].txn == id;
        assert sends[i] == l.sends[i];
      }
    }
  }

  lemma SendIsJournaled(l: Ledger, r: EngineResult)
    requires SendsFit(l) && Pays(r) && (r.txn.id in l.rows ==> !IsPaidOut(l.rows[r.txn.id]))
    ensures SendsFit(Kept(l, r))
  {
    NewSendIsFirst(l, r.txn.id);
    SendIsFound(l, r);
    var l' := Kept(l, r);
    assert forall i, j :: 0 <= i < j < |l'.sends| ==> l'.sends[i].txn != l'.sends[j].txn;
    forall i | 0 <= i < |l'.sends|
      ensures l'.sends[i].txn in l'.rows && IsPaidOut(l'.rows[l'.sends[i].txn])
      ensures l'.rows[l'.sends[i].txn].settlement.value.usdtAmount == l'.sends[i].usdtAmount
    {
      if i < |l.sends| {
        assert l'.sends[i] == l.sends[i];
        assert l.sends[i].txn in l.rows && IsPaidOut(l.rows[l.sends[i].txn]);
      }
    }
  }

  /** A sent transfer is journaled with its row, whether the row is new or rewritten. */
  lemma SendKeepsInv(l: Ledger, r: EngineResult)
    requires Inv(l) && TxnFits(r.txn) && Pays(r) && r.txn.status == Completed
    requires r.txn.id in l.rows ==>
               SameDeal(l.rows[r.txn.id], r.txn) && !IsPaidOut(l.rows[r.txn.id]) && l.rows[r.txn.id].status != Refunded
    requires r.txn.id !in l.rows ==> OwnReference(l.rows, r.txn.merchant, r.txn.reference) == {}
    ensures Inv(Kept(l, r))
  {
    SendIsJournaled(l, r);
    if r.txn.id in l.rows {
      RewriteKeepsRows(l, r.txn);
    } else {
      InsertKeepsRows(l, r.txn);
    }
    assert RowsFit(Kept(l, r));
    assert RefundsFit(Kept(l, r));
  }

  lemma NoOwnReference(rows: map<Uuid, Txn>, merchant: Uuid, reference: string)
    ensures OwnReference(rows, merchant, reference) == {} ==>
              forall id :: id in rows ==> !(rows[id].merchant == merchant && rows[id].reference == reference)
  {
    forall id | id in rows && rows[id].merchant == merchant && rows[id].reference == reference
      ensures id in OwnReference(rows, merchant, reference)
    {
    }
  }

  lemma InsertKeepsRows(l: Ledger, t: Txn)
    requires RowsFit(l) && t.id !in l.rows && TxnFits(t) && OwnReference(l.rows, t.merchant, t.reference) == {}
    ensures RowsFit(Rewritten(l, t))
  {
    NoOwnReference(l.rows, t.merchant, t.reference);
  }

  lemma InsertKeepsInv(l: Ledger, t: Txn)
    requires Inv(l) && t.id !in l.rows && TxnFits(t) && !IsPaidOut(t) && t.status != Refunded
    requires OwnReference(l.rows, t.merchant, t.reference) == {}
    ensures Inv(Rewritten(l, t))
  {
    InsertKeepsRows(l, t);
    assert SendsFit(Rewritten(l, t));
    assert RefundsFit(Rewritten(l, t));
  }

  // ---------- each request keeps the ledger in order ----------

  lemma TaskKeepsInv(l: Ledger, q: Request)
    requires Inv(l) && q.SettleTask?
    ensures Inv(TaskStep(l, q).ledger)
  {
    if q.id in l.rows {
      var t := l.rows[q.id];
      var r := PrepareAndSettle(t, q.conditions);
      SettlementKeeps(t, q.conditions);
      if r.verdict == Settled {
        SendKeepsInv(l, r);
      }
    }
  }

  /** Settling or parking a captured payment, whether it is new or already stored. */
  lemma SettledStepKeepsInv(l: Ledger, t: Txn, c: Conditions)
    requires Inv(l) && t.status == Captured && t.settlement.None?
    requires t.id in l.rows ==> SameDeal(l.rows[t.id], t) && !IsPaidOut(l.rows[t.id]) && l.rows[t.id].status != Refunded
    requires t.id !in l.rows ==> OwnReference(l.rows, t.merchant, t.reference) == {}
    ensures Inv(SettledStep(l, t, c).ledger)
  {
    var r := TrySettle(t, c);
    TrySettleKeeps(t, c);
    if r.verdict == Settled {
      SendKeepsInv(l, r);
    } else if r.verdict == SettleRaised {
      assert Kept(l, r) == Rewritten(l, r.txn) by {
        assert l.sends + [] == l.sends;
      }
      if t.id in l.rows {
        RewriteKeepsInv(l, r.txn);
      } else {
        InsertKeepsInv(l, r.txn);
      }
    }
  }

  lemma SignKeepsInv(l: Ledger, q: Request)
    requires Inv(l) && q.Sign?
    ensures Inv(SignStep(l, q).ledger)
  {
    if Owned(l, q.merchant, q.id) && l.rows[q.id].status == Authorized && q.acknowledged {
      var t := l.rows[q.id];
      var receipt := if Truthy(t.receiptNumber) then t.receiptNumber else Some(q.receipt);
      SettledStepKeepsInv(l, Moved(t, Captured).(receiptNumber := receipt), q.conditions);
    }
  }

  lemma CancelKeepsInv(l: Ledger, q: Request)
    requires Inv(l) && q.Cancel?
    ensures Inv(CancelStep(l, q).ledger)
  {
    if Owned(l, q.merchant, q.id) && MayMove(l.rows[q.id].status, Cancelled) {
      RewriteKeepsInv(l, Moved(l.rows[q.id], Cancelled));
    }
  }

  lemma RefundStepKeepsInv(l: Ledger, q: Request)
    requires Inv(l) && q.Refund?
    ensures Inv(RefundStep(l, q).ledger)
  {
    if Owned(l, q.merchant, q.id) && Refundable(l.rows[q.id].status) {
      RefundKeepsInv(l, Moved(l.rows[q.id], Refunded), RefundAmount(l.rows[q.id], q.asked));
    }
  }

  lemma WebhookKeepsInv(l: Ledger, target: Found, q: Request)
    requires Inv(l) && (q.NowPaymentsWebhook? || q.MoyasarWebhook?)
    requires target.OneRow? ==> target.id in l.rows
    ensures Inv(WebhookStep(l, target, q).ledger)
  {
    if target.OneRow? {
      var t := l.rows[target.id];
      var t' := if q.MoyasarWebhook? then MoyasarVerdict(t, q.success) else NowPaymentsVerdict(t, q.success, q.receipt);
      if t' == t {
        assert l.rows[target.id := t] == l.rows;
      } else {
        RewriteKeepsInv(l, t');
      }
    }
  }

  lemma CreateKeepsInv(l: Ledger, q: Request)
    requires Inv(l) && q.Create? && Fresh(l, q)
    ensures Inv(CreateStep(l, q).ledger)
  {
    if q.currencyEnabled && q.merchant.Some? && q.accepted && !q.reply.ChargeRaised? {
      var m := q.merchant.value;
      if Repeated(l.rows, m, q).NoRow? {
        assert OwnReference(l.rows, m, EffectiveReference(q)) == {};
        var charged := l.(charges := l.charges + [Charge(m, EffectiveReference(q))]);
        var t := Opened(m, q).(gatewayReference := Some(q.reply.gatewayReference));
        ChargeKeepsInv(l, charged.charges);
        match q.reply
        case ChargeDeclined(_) => InsertKeepsInv(charged, Moved(t, Failed));
        case ChargeHeld(_) => InsertKeepsInv(charged, Moved(t, Authorized));
        case ChargeTaken(_) =>
          SettledStepKeepsInv(charged, Moved(t, Captured).(receiptNumber := Some(q.receipt)), q.conditions);
      }
    }
  }

  lemma ChargeKeepsInv(l: Ledger, charges: seq<Charge>)
    requires Inv(l)
    ensures Inv(l.(charges := charges))
  {
  }

  /** Every request, webhook and task keeps the ledger in order. */
  lemma StepKeepsInv(l: Ledger, q: Request)
    requires Inv(l) && Fresh(l, q)
    ensures Inv(Step(l, q).ledger)
  {
    match q
    case Create(_, _, _, _, _, _, _, _, _, _, _) => CreateKeepsInv(l, q);
    case Sign(_, _, _, _, _) => SignKeepsInv(l, q);
    case Cancel(_, _) => CancelKeepsInv(l, q);
    case Refund(_, _, _, _) => RefundStepKeepsInv(l, q);
    case NowPaymentsWebhook(_, _, _, _) => WebhookKeepsInv(l, NowPaymentsTarget(l.rows, q), q);
    case MoyasarWebhook(_, _) => WebhookKeepsInv(l, MoyasarTarget(l.rows, q), q);
    case SettleTask(_, _) => TaskKeepsInv(l, q);
  }
}
