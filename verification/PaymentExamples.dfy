/** Short runs of the payment ledger from its empty state, one for each promise that it does not keep. */
module PaymentExamples {
  import opened Common
  import opened Fees
  import opened Payments
  import opened PaymentRuns
  import opened PaymentTrails

  /** An accepted create without an idempotency key. */
  function Order(merchant: Uuid, id: Uuid, amount: Cents, currency: string, reply: ChargeReply, c: Conditions): Request
  {
    Create(Some(merchant), id, amount, currency, true, "order-1", None, true, reply, "R-1", c)
  }

  const NO_WALLET := Conditions(15_000, None, TransferRaised)

  function Wallet(address: string, transfer: Transfer): Conditions {
    Conditions(15_000, Some(address), transfer)
  }

  /** A reference that its merchant has not used reaches the gateway. */
  lemma NewOrder(l: Ledger, q: Request, merchant: Uuid)
    requires q.Create? && q.merchant == Some(merchant) && q.currencyEnabled && q.accepted && q.idempotencyKey == None
    requires OwnReference(l.rows, merchant, q.reference) == {} && !q.reply.ChargeRaised?
    ensures Reaches(l, q)
    ensures var charged := l.(charges := l.charges + [Charge(merchant, q.reference)]);
            Step(l, q) == ChargedStep(charged, Opened(merchant, q), q)
  {
  }

  lemma OffTheTable(t: Txn, i: nat)
    requires i + 1 < |t.trail| && !MayMove(t.trail[i], t.trail[i + 1])
    ensures !OnTable(t.trail)
  {
  }

  lemma Unchained(t: Txn, i: nat)
    requires i + 1 < |t.logs| && t.logs[i + 1].from != Some(t.logs[i].to)
    ensures !Honest(t)
  {
  }

  /** A taken first charge is settled or parked in one step. */
  lemma Taken(q: Request, merchant: Uuid)
    requires q.Create? && q.merchant == Some(merchant) && q.currencyEnabled && q.accepted && q.idempotencyKey == None
    requires q.reply.ChargeTaken?
    ensures var blank := Opened(merchant, q).(gatewayReference := Some(q.reply.gatewayReference));
            var charged := NO_PAYMENTS.(charges := [Charge(merchant, q.reference)]);
            var captured := Moved(blank, Captured).(receiptNumber := Some(q.receipt));
            Step(NO_PAYMENTS, q) == SettledStep(charged, captured, q.conditions)
  {
    NewOrder(NO_PAYMENTS, q, merchant);
    assert [] + [Charge(merchant, q.reference)] == [Charge(merchant, q.reference)];
  }

  lemma Rescued(l: Ledger, t: Txn, reference: string)
    requires l.rows == map[t.id := t] && t.status == Failed && t.gatewayReference == Some(reference) && reference != ""
    ensures Step(l, MoyasarWebhook(reference, true)).ledger == l.(rows := map[t.id := Assigned(t, Captured)])
  {
    assert GatewayReference(l.rows, reference) == {t.id};
    assert l.rows[t.id := Assigned(t, Captured)] == map[t.id := Assigned(t, Captured)];
  }

  /** Declined, rescued by a webhook, cancelled: no settlement was attempted, and the log is broken for good. */
  lemma RescuedThenCancelled(merchant: Uuid, id: Uuid) returns (ls: seq<Ledger>, qs: seq<Request>)
    ensures |qs| == 3 && IsRun(ls, qs) && id in ls[3].rows
    ensures ls[3].rows[id].logs
            == [Log(None, Processing), Log(Some(Processing), Failed), Log(Some(Captured), Cancelled)]
    ensures ls[3].rows[id].trail == [Processing, Failed, Captured, Cancelled]
    ensures !Honest(ls[3].rows[id]) && !OnTable(ls[3].rows[id].trail)
  {
    var declined := Order(merchant, id, 100, "USD", ChargeDeclined("gw-1"), NO_WALLET);
    var rescue, cancel := MoyasarWebhook("gw-1", true), Cancel(Some(merchant), id);
    NewOrder(NO_PAYMENTS, declined, merchant);
    var l1 := Step(NO_PAYMENTS, declined).ledger;
    Rescued(l1, l1.rows[id], "gw-1");
    var l2 := Step(l1, rescue).ledger;
    var l3 := Step(l2, cancel).ledger;
    ls, qs := [NO_PAYMENTS, l1, l2, l3], [declined, rescue, cancel];
    OffTheTable(l3.rows[id], 1);
    Unchained(l3.rows[id], 1);
  }

  /**
   A Canadian payment is captured, priced, and parked without a rate: the status passes a move that the table
   forbids.
   */
  lemma ParkedWithoutRate(merchant: Uuid, id: Uuid) returns (ls: seq<Ledger>, qs: seq<Request>)
    ensures |qs| == 1 && IsRun(ls, qs) && id in ls[1].rows
    ensures var t := ls[1].rows[id];
            && t.trail == [Processing, Captured, SettlementProcessing, SettlementPending] && !OnTable(t.trail)
            && t.logs[2..] == [Log(Some(Captured), SettlementProcessing), Log(Some(Captured), SettlementPending)]
            && !Honest(t)
            && t.settlement.None? && ls[1].sends == [] && Step(ls[0], qs[0]).response == Done(t)
  {
    var q := Order(merchant, id, 100, "CAD", ChargeTaken("gw-1"), Wallet("A", Sent("hash")));
    Taken(q, merchant);
    assert Upper("CAD") == "CAD";
    CadAndGbpHaveNoRate("CAD");
    ls, qs := [NO_PAYMENTS, Step(NO_PAYMENTS, q).ledger], [q];
    OffTheTable(ls[1].rows[id], 2);
    Unchained(ls[1].rows[id], 2);
  }

  lemma RefusedParks(t: Txn, c: Conditions)
    requires t.status == Captured && t.settlement.None? && t.amount == 100 && t.currency == "USD"
    requires c == Wallet("A", TransferRefused("no funds"))
    ensures var r := TrySettle(t, c);
            && r.verdict == SettleRaised && r.txn.id == t.id
            && r.txn.trail == t.trail + [SettlementProcessing, ManualReview, SettlementPending]
            && r.txn.logs == t.logs + [Log(Some(Captured), SettlementProcessing),
                                       Log(Some(SettlementProcessing), ManualReview),
                                       Log(Some(Captured), SettlementPending)]
  {
    assert Upper("USD") == "USD";
  }

  lemma RefusedFirst(q: Request, merchant: Uuid) returns (ls: seq<Ledger>, qs: seq<Request>)
    requires q.Create? && q.merchant == Some(merchant) && q.currencyEnabled && q.accepted && q.idempotencyKey == None
    requires q.reply.ChargeTaken? && q.amount == 100 && q.currency == "USD"
    requires q.conditions == Wallet("A", TransferRefused("no funds"))
    ensures |qs| == 1 && IsRun(ls, qs) && q.id in ls[1].rows
    ensures ls[1].rows[q.id].trail == [Processing, Captured, SettlementProcessing, ManualReview, SettlementPending]
    ensures !OnTable(ls[1].rows[q.id].trail) && !Honest(ls[1].rows[q.id])
  {
    Taken(q, merchant);
    assert Upper("USD") == "USD";
    var blank := Opened(merchant, q).(gatewayReference := Some(q.reply.gatewayReference));
    RefusedParks(Moved(blank, Captured).(receiptNumber := Some(q.receipt)), q.conditions);
    ls, qs := [NO_PAYMENTS, Step(NO_PAYMENTS, q).ledger], [q];
    OffTheTable(ls[1].rows[q.id], 3);
    Unchained(ls[1].rows[q.id], 3);
  }

  /** The same after a refused transfer, from MANUAL_REVIEW. */
  lemma ParkedAfterRefusal(merchant: Uuid, id: Uuid) returns (ls: seq<Ledger>, qs: seq<Request>)
    ensures |qs| == 1 && IsRun(ls, qs) && id in ls[1].rows
    ensures ls[1].rows[id].trail == [Processing, Captured, SettlementProcessing, ManualReview, SettlementPending]
    ensures !OnTable(ls[1].rows[id].trail) && !Honest(ls[1].rows[id])
  {
    ls, qs := RefusedFirst(Order(merchant, id, 100, "USD", ChargeTaken("gw-1"),
                                 Wallet("A", TransferRefused("no funds"))), merchant);
  }

  /** A first create that cannot be stored, and the same create sent again. */
  lemma LostAndResent(q: Request, again: Request, merchant: Uuid) returns (ls: seq<Ledger>, qs: seq<Request>)
    requires q.Create? && q.merchant == Some(merchant) && q.currencyEnabled && q.accepted && q.idempotencyKey == None
    requires !q.reply.ChargeRaised? && Resends(q, again) && !RowIsKept(q) && !RowIsKept(again)
    ensures |qs| == 2 && IsRun(ls, qs) && qs == [q, again]
    ensures ls[2].rows == map[] && ls[2].charges == [Charge(merchant, q.reference), Charge(merchant, q.reference)]
  {
    NewOrder(NO_PAYMENTS, q, merchant);
    ChargedCreate(NO_PAYMENTS, q);
    var l1 := Step(NO_PAYMENTS, q).ledger;
    NewOrder(l1, again, merchant);
    ChargedCreate(l1, again);
    ls, qs := [NO_PAYMENTS, l1, Step(l1, again).ledger], [q, again];
  }

  /** One cent at fifty percent: the card is charged twice and nothing is stored. */
  lemma ChargedTwice(merchant: Uuid, id: Uuid, id': Uuid) returns (ls: seq<Ledger>, qs: seq<Request>)
    requires id != id'
    ensures |qs| == 2 && IsRun(ls, qs) && Resends(qs[0], qs[1]) && qs[0].id != qs[1].id
    ensures ls[2].rows == map[] && ls[2].charges == [Charge(merchant, "order-1"), Charge(merchant, "order-1")]
  {
    var c := Conditions(500_000, Some("A"), Sent("hash"));
    var q, again := Order(merchant, id, 1, "USD", ChargeTaken("gw-1"), c),
                    Order(merchant, id', 1, "USD", ChargeTaken("gw-2"), c);
    FiftyPercentLosesRow(q);
    FiftyPercentLosesRow(again);
    ls, qs := LostAndResent(q, again, merchant);
  }

  /** So are the most euros that an amount can be, at one and a half percent. */
  lemma EurosChargedTwice(merchant: Uuid, id: Uuid, id': Uuid) returns (ls: seq<Ledger>, qs: seq<Request>)
    requires id != id'
    ensures |qs| == 2 && IsRun(ls, qs) && Resends(qs[0], qs[1]) && qs[0].id != qs[1].id
    ensures qs[0].Create? && qs[0].currency == "EUR" && qs[0].amount == CENTS_LIMIT - 1
    ensures qs[0].conditions.feePercent == 15_000
    ensures ls[2].rows == map[] && ls[2].charges == [Charge(merchant, "order-1"), Charge(merchant, "order-1")]
  {
    var c := Wallet("A", Sent("hash"));
    var q, again := Order(merchant, id, CENTS_LIMIT - 1, "EUR", ChargeTaken("gw-1"), c),
                    Order(merchant, id', CENTS_LIMIT - 1, "EUR", ChargeTaken("gw-2"), c);
    assert Upper("EUR") == "EUR";
    assert FeeCents(CENTS_LIMIT - 1, 15_000) == 15_000_000_000_000_000;
    LowFeeKeepsRowIff(q);
    LowFeeKeepsRowIff(again);
    ls, qs := LostAndResent(q, again, merchant);
  }

  /** Two merchants use one order id, and the order's webhook fails. */
  lemma SharedOrderId(m: Uuid, m': Uuid, id: Uuid, id': Uuid) returns (ls: seq<Ledger>, qs: seq<Request>)
    requires m != m' && id != id'
    ensures |qs| == 3 && IsRun(ls, qs) && Step(ls[2], qs[2]).response == Rejected(Ambiguous)
  {
    var q, q' := Order(m, id, 100, "USD", ChargeDeclined("gw-1"), NO_WALLET),
                 Order(m', id', 100, "USD", ChargeDeclined("gw-2"), NO_WALLET);
    var webhook := NowPaymentsWebhook("order-1", "", true, "R-2");
    NewOrder(NO_PAYMENTS, q, m);
    var l1 := Step(NO_PAYMENTS, q).ledger;
    NewOrder(l1, q', m');
    var l2 := Step(l1, q').ledger;
    ls, qs := [NO_PAYMENTS, l1, l2, Step(l2, webhook).ledger], [q, q', webhook];
    assert IsRun(ls, qs);
    EveryLedgerIsSafe(ls, qs, 2);
    assert l2.rows[id].reference == l2.rows[id'].reference == "order-1";
    OrderWebhookIsAmbiguous(l2, webhook);
  }

  /** The wallet changes between two attempts: the second pays the new address and records the old one. */
  lemma WalletChanged(merchant: Uuid, id: Uuid) returns (ls: seq<Ledger>, qs: seq<Request>)
    ensures |qs| == 2 && IsRun(ls, qs) && id in ls[2].rows
    ensures |ls[2].sends| == 1 && ls[2].sends[0].address == "B"
    ensures ls[2].rows[id].settlement.Some? && ls[2].rows[id].settlement.value.walletAddress == "A"
  {
    var q := Order(merchant, id, 100, "USD", ChargeTaken("gw-1"), Wallet("A", TransferRaised));
    var retry := SettleTask(id, Wallet("B", Sent("hash")));
    assert Upper("USD") == "USD";
    Taken(q, merchant);
    var l1 := Step(NO_PAYMENTS, q).ledger;
    ls, qs := [NO_PAYMENTS, l1, Step(l1, retry).ledger], [q, retry];
  }

  /** One dollar is charged and paid out, and then five dollars are refunded. */
  lemma RefundedTooMuch(merchant: Uuid, id: Uuid) returns (ls: seq<Ledger>, qs: seq<Request>)
    ensures |qs| == 2 && IsRun(ls, qs) && id in ls[2].rows && ls[2].rows[id].amount == 100
    ensures ls[2].refunds == [Repayment(id, 500)] && |ls[2].sends| == 1 && ls[2].sends[0].txn == id
  {
    var q := Order(merchant, id, 100, "USD", ChargeTaken("gw-1"), Wallet("A", Sent("hash")));
    var refund := Refund(Some(merchant), id, Some(500), RefundGranted);
    assert Upper("USD") == "USD";
    Taken(q, merchant);
    var l1 := Step(NO_PAYMENTS, q).ledger;
    ls, qs := [NO_PAYMENTS, l1, Step(l1, refund).ledger], [q, refund];
  }

  lemma HeldFirst(q: Request, merchant: Uuid)
    requires q.Create? && q.merchant == Some(merchant) && q.currencyEnabled && q.accepted && q.idempotencyKey == None
    requires q.reply.ChargeHeld?
    ensures var row := Moved(Opened(merchant, q).(gatewayReference := Some(q.reply.gatewayReference)), Authorized);
            Step(NO_PAYMENTS, q)
              == Outcome(NO_PAYMENTS.(rows := map[q.id := row], charges := [Charge(merchant, q.reference)]), Done(row))
  {
    NewOrder(NO_PAYMENTS, q, merchant);
    assert [] + [Charge(merchant, q.reference)] == [Charge(merchant, q.reference)];
  }

  lemma Signed(l: Ledger, t: Txn, receipt: string, c: Conditions)
    requires l.rows == map[t.id := t] && t.status == Authorized && t.receiptNumber.None?
    ensures Step(l, Sign(Some(t.merchant), t.id, true, receipt, c))
         == SettledStep(l, Moved(t, Captured).(receiptNumber := Some(receipt)), c)
  {
  }

  lemma DollarSettled(t: Txn, c: Conditions)
    requires t.status == Captured && t.settlement.None? && t.amount == 100 && t.currency == "USD"
    requires c == Wallet("A", Sent("hash")) && t.trail == [Processing, Authorized, Captured]
    ensures var r := TrySettle(t, c);
            && r.verdict == Settled && r.sends == [Send(t.id, 98_000_000, "A")] && r.txn.id == t.id
            && r.txn.trail == [Processing, Authorized, Captured, SettlementProcessing, Completed]
            && r.txn.fees == 2 && r.txn.net == 98 && r.txn.receiptNumber == t.receiptNumber
  {
    assert Upper("USD") == "USD";
  }

  lemma DollarSigned(l: Ledger, t: Txn)
    requires l.rows == map[t.id := t] && t.status == Authorized && t.receiptNumber.None? && t.settlement.None?
    requires t.trail == [Processing, Authorized] && t.amount == 100 && t.currency == "USD" && l.sends == []
    ensures var o := Step(l, Sign(Some(t.merchant), t.id, true, "R-2", Wallet("A", Sent("hash"))));
            && t.id in o.ledger.rows && o.response == Done(o.ledger.rows[t.id])
            && var row := o.ledger.rows[t.id];
            && row.trail == [Processing, Authorized, Captured, SettlementProcessing, Completed]
            && row.fees == 2 && row.net == 98 && row.receiptNumber == Some("R-2")
            && o.ledger.sends == [Send(t.id, 98_000_000, "A")]
  {
    var c := Wallet("A", Sent("hash"));
    Signed(l, t, "R-2", c);
    DollarSettled(Moved(t, Captured).(receiptNumber := Some("R-2")), c);
  }

  /** A dollar held for a signature is signed, and all but two cents of it are paid out. */
  lemma SignedAndPaid(merchant: Uuid, id: Uuid) returns (ls: seq<Ledger>, qs: seq<Request>)
    ensures |qs| == 2 && IsRun(ls, qs) && qs[1].Sign? && id in ls[1].rows && id in ls[2].rows
    ensures ls[1].rows[id].status == Authorized && Step(ls[0], qs[0]).response == Done(ls[1].rows[id])
    ensures ls[2].rows[id].trail == [Processing, Authorized, Captured, SettlementProcessing, Completed]
    ensures ls[2].rows[id].fees == 2 && ls[2].rows[id].net == 98 && ls[2].rows[id].receiptNumber == Some("R-2")
    ensures ls[2].sends == [Send(id, 98_000_000, "A")] && Step(ls[1], qs[1]).response == Done(ls[2].rows[id])
  {
    var q := Order(merchant, id, 100, "USD", ChargeHeld("gw-1"), NO_WALLET);
    var sign := Sign(Some(merchant), id, true, "R-2", Wallet("A", Sent("hash")));
    assert Upper("USD") == "USD";
    HeldFirst(q, merchant);
    var l1 := Step(NO_PAYMENTS, q).ledger;
    DollarSigned(l1, l1.rows[id]);
    ls, qs := [NO_PAYMENTS, l1, Step(l1, sign).ledger], [q, sign];
  }
}
