/**
 What each payment request answers and leaves, told from its inputs and the stored rows: who may ask for what in which
 status, the row that a charge, a signature or a settlement attempt leaves, and the transaction that a webhook means.
 */
module PaymentAnswers {
  import opened Common
  import opened Fees
  import opened Money
  import opened Payments
  import opened PaymentSafety
  import opened PaymentRuns
  import opened PaymentTrails

  // ---------- who is answered how ----------

  /** The merchant has a transaction stored under the reference. */
  ghost predicate Stored(l: Ledger, merchant: Uuid, reference: string) {
    exists id :: id in l.rows && l.rows[id].merchant == merchant && l.rows[id].reference == reference
  }

  lemma StoredIff(l: Ledger, merchant: Uuid, reference: string)
    ensures Stored(l, merchant, reference) <==> OwnReference(l.rows, merchant, reference) != {}
  {
    if Stored(l, merchant, reference) {
      var id :| id in l.rows && l.rows[id].merchant == merchant && l.rows[id].reference == reference;
      assert id in OwnReference(l.rows, merchant, reference);
    } else {
      assert OwnReference(l.rows, merchant, reference) == {};
    }
  }

  /** The create repeats a stored transaction: under its idempotency key, if it has one, or under its reference. */
  ghost predicate Repeats(l: Ledger, merchant: Uuid, q: Request)
    requires q.Create?
  {
    || Stored(l, merchant, q.reference)
    || (q.idempotencyKey.Some? && q.idempotencyKey.value != "" && Stored(l, merchant, q.idempotencyKey.value))
  }

  lemma RepeatsIff(l: Ledger, merchant: Uuid, q: Request)
    requires q.Create?
    ensures Repeats(l, merchant, q) <==> !Repeated(l.rows, merchant, q).NoRow?
  {
    StoredIff(l, merchant, q.reference);
    StoredIff(l, merchant, EffectiveReference(q));
  }

  predicate Blank(text: Option<string>) {
    text.None? || text.value == ""
  }

  /** Why a request of a merchant fails, by caller, status at rest and inputs; if for no reason, it is granted. */
  ghost function WhyRejected(l: Ledger, q: Request): Option<Failure>
    requires q.Create? || q.Sign? || q.Cancel? || q.Refund?
  {
    if q.Create? && !q.currencyEnabled then Some(CurrencyDisabled)
    else if q.merchant.None? then Some(NoMerchant)
    else if q.Create? then
      if Repeats(l, q.merchant.value, q) then None
      else if !q.accepted then Some(NotAccepted)
      else
        match q.reply
        case ChargeRaised => Some(GatewayRaised)
        case ChargeDeclined(_) => Some(PaymentDeclined)
        case ChargeHeld(_) => None
        case ChargeTaken(_) => RollsBack(q.amount, Upper(q.currency), q.conditions)
    else if q.id !in l.rows || l.rows[q.id].merchant != q.merchant.value then Some(NotFound)
    else
      var t := l.rows[q.id];
      match q
      case Sign(_, _, acknowledged, _, c) =>
        if t.status != Authorized then Some(Conflict)
        else if !acknowledged then Some(NotAcknowledged)
        else RollsBack(t.amount, t.currency, c)
      case Cancel(_, _) => if t.status in {Authorized, Captured} then None else Some(Conflict)
      case Refund(_, _, _, refund) =>
        if t.status !in {Captured, SettlementPending, Completed} || Blank(t.gatewayReference)
        then Some(Conflict)
        else if refund.RefundGranted? then None else Some(RefundFailed)
  }

  function RollsBack(amount: Cents, currency: string, c: Conditions): Option<Failure> {
    if c.wallet.Some? && !Storable(amount, currency, c.feePercent) then Some(RolledBack) else None
  }

  /** Keeping or rolling back a captured payment. */
  lemma SettledStepAnswers(l: Ledger, t: Txn, c: Conditions)
    requires t.status == Captured && t.settlement.None?
    ensures match RollsBack(t.amount, t.currency, c)
            case None => SettledStep(l, t, c).response.Done?
            case Some(failure) => SettledStep(l, t, c) == Outcome(l, Rejected(failure))
  {
    RowRejectedIff(t, c);
  }

  lemma CreateIsAnswered(l: Ledger, q: Request)
    requires Inv(l) && Fresh(l, q) && q.Create?
    ensures match WhyRejected(l, q)
            case None => Step(l, q).response.Done?
            case Some(failure) => Step(l, q).response == Rejected(failure)
                                  && Step(l, q).ledger.sends == l.sends && Step(l, q).ledger.refunds == l.refunds
                                  && (failure != PaymentDeclined ==> Step(l, q).ledger.rows == l.rows)
  {
    if q.currencyEnabled && q.merchant.Some? {
      CreateIsNeverAmbiguous(l, q);
      RepeatsIff(l, q.merchant.value, q);
      if !Repeats(l, q.merchant.value, q) && q.accepted && q.reply.ChargeTaken? {
        TakenIsAnswered(l, q);
      }
    }
  }

  lemma TakenIsAnswered(l: Ledger, q: Request)
    requires Reaches(l, q) && q.reply.ChargeTaken?
    ensures match RollsBack(q.amount, Upper(q.currency), q.conditions)
            case None => Step(l, q).response.Done?
            case Some(failure) => Step(l, q).response == Rejected(failure) && Step(l, q).ledger.rows == l.rows
                                  && Step(l, q).ledger.sends == l.sends && Step(l, q).ledger.refunds == l.refunds
  {
    var m := q.merchant.value;
    var charged := l.(charges := l.charges + [Charge(m, EffectiveReference(q))]);
    SettledStepAnswers(charged, CapturedRow(m, q), q.conditions);
  }

  function CapturedRow(merchant: Uuid, q: Request): Txn
    requires q.Create? && !q.reply.ChargeRaised?
  {
    Moved(Opened(merchant, q).(gatewayReference := Some(q.reply.gatewayReference)), Captured).(
      receiptNumber := Some(q.receipt))
  }

  lemma SignIsAnswered(l: Ledger, q: Request)
    requires Inv(l) && q.Sign?
    ensures match WhyRejected(l, q)
            case None => Step(l, q).response.Done?
            case Some(failure) => Step(l, q) == Outcome(l, Rejected(failure))
  {
    if Owned(l, q.merchant, q.id) && l.rows[q.id].status == Authorized && q.acknowledged {
      var t := l.rows[q.id];
      var receipt := if Truthy(t.receiptNumber) then t.receiptNumber else Some(q.receipt);
      SettledStepAnswers(l, Moved(t, Captured).(receiptNumber := receipt), q.conditions);
    }
  }

  lemma CancelIsAnswered(l: Ledger, q: Request)
    requires Inv(l) && q.Cancel?
    ensures match WhyRejected(l, q)
            case None => Step(l, q).response.Done?
            case Some(failure) => Step(l, q) == Outcome(l, Rejected(failure))
  {
    if q.id in l.rows {
      CancellableAtRest(l.rows[q.id]);
    }
  }

  lemma CancellableAtRest(t: Txn)
    requires AtRest(t)
    ensures MayMove(t.status, Cancelled) <==> t.status in {Authorized, Captured}
  {
  }

  lemma RefundIsAnswered(l: Ledger, q: Request)
    requires Inv(l) && q.Refund?
    ensures match WhyRejected(l, q)
            case None => Step(l, q).response.Done?
            case Some(failure) => Step(l, q) == Outcome(l, Rejected(failure))
  {
    if q.id in l.rows {
      RefundableAtRest(l.rows[q.id]);
    }
  }

  lemma RefundableAtRest(t: Txn)
    requires AtRest(t)
    ensures Refundable(t.status) <==> t.status in {Captured, SettlementPending, Completed}
    ensures Truthy(t.gatewayReference) <==> !Blank(t.gatewayReference)
  {
  }

  /**
   In every reachable ledger each request of a merchant is granted, or fails for exactly that reason; only a decline
   leaves anything then.
   */
  lemma RequestsAreAnswered(l: Ledger, q: Request)
    requires Inv(l) && Fresh(l, q) && (q.Create? || q.Sign? || q.Cancel? || q.Refund?)
    ensures match WhyRejected(l, q)
            case None => Step(l, q).response.Done?
            case Some(failure) => Step(l, q).response == Rejected(failure)
                                  && Step(l, q).ledger.sends == l.sends && Step(l, q).ledger.refunds == l.refunds
                                  && (failure != PaymentDeclined ==> Step(l, q).ledger.rows == l.rows)
  {
    if q.Create? {
      CreateIsAnswered(l, q);
    } else if q.Sign? {
      SignIsAnswered(l, q);
    } else if q.Cancel? {
      CancelIsAnswered(l, q);
    } else {
      RefundIsAnswered(l, q);
    }
  }

  // ---------- what an attempt to settle leaves ----------

  /** The transaction after these moves, the last to its new status, each with its log line. */
  function Walked(t: Txn, lines: seq<Log>, trail: seq<Status>): Txn
    requires trail != []
  {
    t.(status := trail[|trail| - 1], logs := t.logs + lines, trail := t.trail + trail)
  }

  function PricedRow(t: Txn, c: Conditions): Txn {
    t.(fees := FeeCents(t.amount, c.feePercent), net := t.amount - FeeCents(t.amount, c.feePercent))
  }

  /** The settlement row of a first attempt: the net, at the rate, for the present wallet. */
  function FirstQuote(t: Txn, c: Conditions): Settlement
    requires c.wallet.Some? && SandboxRate(t.currency).Some?
  {
    var net, rate := t.amount - FeeCents(t.amount, c.feePercent), SandboxRate(t.currency).value;
    Settlement(net, UsdtUnits(net, rate), rate, c.wallet.value, SettlementRunning, 0, None, None)
  }

  const START := Log(Some(Captured), SettlementProcessing)
  const PARK := Log(Some(Captured), SettlementPending)

  /** What a request leaves of a captured payment that it tries to settle for the first time. */
  function AfterAttempt(t: Txn, c: Conditions): Txn {
    if c.wallet.None? then Walked(t, [PARK], [SettlementPending])
    else if SandboxRate(t.currency).None? then
      Walked(PricedRow(t, c), [START, PARK], [SettlementProcessing, SettlementPending])
    else
      var quote := FirstQuote(t, c);
      match c.transfer
      case TransferRaised =>
        Walked(PricedRow(t, c).(settlement := Some(quote)), [START, PARK], [SettlementProcessing, SettlementPending])
      case TransferRefused(message) =>
        Walked(PricedRow(t, c).(settlement := Some(quote.(status := SettlementFailed, retryCount := 1,
                                                          failureReason := Some(message)))),
               [START, Log(Some(SettlementProcessing), ManualReview), PARK],
               [SettlementProcessing, ManualReview, SettlementPending])
      case Sent(hash) =>
        Walked(PricedRow(t, c).(settlement := Some(quote.(status := SettlementDone, txHash := Some(hash)))),
               [START, Log(Some(SettlementProcessing), Completed)], [SettlementProcessing, Completed])
  }

  /** The transfer it sends, if any: the settlement's amount, to the present wallet. */
  function AttemptSends(t: Txn, c: Conditions): seq<Send> {
    if c.wallet.Some? && SandboxRate(t.currency).Some? && c.transfer.Sent?
    then [Send(t.id, FirstQuote(t, c).usdtAmount, c.wallet.value)] else []
  }

  lemma AttemptLeaves(t: Txn, c: Conditions)
    requires t.status == Captured && t.settlement.None? && RollsBack(t.amount, t.currency, c).None?
    ensures TrySettle(t, c).txn == AfterAttempt(t, c) && TrySettle(t, c).sends == AttemptSends(t, c)
    ensures TrySettle(t, c).verdict != RowRejected
  {
    RowRejectedIff(t, c);
    Append(t.logs, START, PARK, PARK);
    Append(t.trail, SettlementProcessing, SettlementPending, SettlementPending);
    Append(t.logs, START, Log(Some(SettlementProcessing), ManualReview), PARK);
    Append(t.trail, SettlementProcessing, ManualReview, SettlementPending);
    Append(t.logs, START, Log(Some(SettlementProcessing), Completed), PARK);
    Append(t.trail, SettlementProcessing, Completed, SettlementPending);
  }

  lemma Append<T>(xs: seq<T>, a: T, b: T, c: T)
    ensures xs + [a] + [b] == xs + [a, b]
    ensures xs + [a] + [b] + [c] == xs + [a, b, c]
  {
  }

  /** What the background task leaves of a captured or parked payment; a row it finds keeps its first wallet address. */
  function AfterTask(t: Txn, c: Conditions): Txn
    requires c.wallet.Some? && SandboxRate(t.currency).Some? && c.transfer.Sent?
  {
    var quote := FirstQuote(t, c);
    var settlement := if t.settlement.None? then quote
                      else quote.(walletAddress := t.settlement.value.walletAddress,
                                  retryCount := t.settlement.value.retryCount);
    Walked(PricedRow(t, c).(settlement := Some(settlement.(status := SettlementDone, txHash := Some(c.transfer.hash)))),
           [Log(Some(t.status), SettlementProcessing), Log(Some(SettlementProcessing), Completed)],
           [SettlementProcessing, Completed])
  }

  /** The task completes a payment with one transfer to the present wallet, or leaves everything as it was. */
  lemma TaskLeaves(l: Ledger, q: Request)
    requires Inv(l) && q.SettleTask?
    ensures if && q.id in l.rows && l.rows[q.id].status in {Captured, SettlementPending}
               && q.conditions.wallet.Some? && SandboxRate(l.rows[q.id].currency).Some?
               && PaysOut(l.rows[q.id].amount, l.rows[q.id].currency, q.conditions.feePercent)
               && q.conditions.transfer.Sent?
            then
              var t := l.rows[q.id];
              Step(l, q) == Outcome(l.(rows := l.rows[q.id := AfterTask(t, q.conditions)],
                                       sends := l.sends + AttemptSends(t, q.conditions)),
                                    Done(AfterTask(t, q.conditions)))
            else Step(l, q) == Outcome(l, Rejected(TaskFailed))
  {
    TaskSucceedsIff(l, q.id, q.conditions);
    if q.id in l.rows && Settleable(l.rows[q.id].status) {
      SettledIff(l.rows[q.id], q.conditions);
      var t := l.rows[q.id];
      Append(t.logs, Log(Some(t.status), SettlementProcessing), Log(Some(SettlementProcessing), Completed), PARK);
      Append(t.trail, SettlementProcessing, Completed, SettlementPending);
    }
  }

  // ---------- what each request leaves ----------

  /** The request answers with this row, and leaves it under its id; and it sends and refunds this much more. */
  ghost predicate LeavesRow(l: Ledger, q: Request, response: Response, row: Txn, sends: seq<Send>,
                            refunds: seq<Repayment>)
  {
    var o := Step(l, q);
    && o.response == response && o.ledger.rows == l.rows[row.id := row]
    && o.ledger.sends == l.sends + sends && o.ledger.refunds == l.refunds + refunds
  }

  /** A create that the gateway answers opens a row under its idempotency key, or else its reference. */
  function NewRow(q: Request, trail: seq<Status>, receipt: Option<string>): Txn
    requires q.Create? && q.merchant.Some? && !q.reply.ChargeRaised? && |trail| == 2
  {
    Txn(q.id, q.merchant.value,
        if q.idempotencyKey.Some? && q.idempotencyKey.value != "" then q.idempotencyKey.value else q.reference,
        q.amount, Upper(q.currency), trail[1], 0, 0, Some(q.reply.gatewayReference), receipt, None,
        [Log(None, trail[0]), Log(Some(trail[0]), trail[1])], trail)
  }

  lemma NewRowIs(q: Request, to: Status)
    requires q.Create? && q.merchant.Some? && !q.reply.ChargeRaised?
    ensures Moved(Opened(q.merchant.value, q).(gatewayReference := Some(q.reply.gatewayReference)), to)
         == NewRow(q, [Processing, to], None)
  {
    assert [Log(None, Processing)] + [Log(Some(Processing), to)] == [Log(None, Processing), Log(Some(Processing), to)];
    assert [Processing] + [to] == [Processing, to];
  }

  /** A declined charge leaves a failed row, and the request fails. */
  lemma DeclinedLeaves(l: Ledger, q: Request)
    requires Reaches(l, q) && q.reply.ChargeDeclined?
    ensures LeavesRow(l, q, Rejected(PaymentDeclined), NewRow(q, [Processing, Failed], None), [], [])
  {
    NewRowIs(q, Failed);
    assert l.sends + [] == l.sends && l.refunds + [] == l.refunds;
  }

  /** A charge that is held for a signature leaves an authorized row without receipt, settlement or transfer. */
  lemma HeldLeaves(l: Ledger, q: Request)
    requires Reaches(l, q) && q.reply.ChargeHeld?
    ensures var row := NewRow(q, [Processing, Authorized], None);
            LeavesRow(l, q, Done(row), row, [], [])
  {
    NewRowIs(q, Authorized);
    assert l.sends + [] == l.sends && l.refunds + [] == l.refunds;
  }

  lemma KeptLeaves(l: Ledger, t: Txn, c: Conditions)
    requires t.status == Captured && t.settlement.None? && RollsBack(t.amount, t.currency, c).None?
    ensures SettledStep(l, t, c)
         == Outcome(l.(rows := l.rows[t.id := AfterAttempt(t, c)], sends := l.sends + AttemptSends(t, c)),
                    Done(AfterAttempt(t, c)))
  {
    AttemptLeaves(t, c);
    EngineKeepsId(t, c);
  }

  /** A charge that is taken leaves a captured row with a receipt, after one attempt to settle it. */
  lemma TakenLeaves(l: Ledger, q: Request)
    requires Reaches(l, q) && q.reply.ChargeTaken? && RollsBack(q.amount, Upper(q.currency), q.conditions).None?
    ensures var captured := NewRow(q, [Processing, Captured], Some(q.receipt));
            var row := AfterAttempt(captured, q.conditions);
            LeavesRow(l, q, Done(row), row, AttemptSends(captured, q.conditions), [])
  {
    NewRowIs(q, Captured);
    var charged := l.(charges := l.charges + [Charge(q.merchant.value, EffectiveReference(q))]);
    KeptLeaves(charged, NewRow(q, [Processing, Captured], Some(q.receipt)), q.conditions);
    assert l.refunds + [] == l.refunds;
  }

  /** A granted signature captures the payment, gives it a receipt unless it has one, and tries once to settle it. */
  lemma SignatureLeaves(l: Ledger, q: Request)
    requires Inv(l) && q.Sign? && WhyRejected(l, q).None?
    ensures var t := l.rows[q.id];
            var receipt := if Blank(t.receiptNumber) then Some(q.receipt) else t.receiptNumber;
            var captured := Walked(t, [Log(Some(Authorized), Captured)], [Captured]).(receiptNumber := receipt);
            var row := AfterAttempt(captured, q.conditions);
            LeavesRow(l, q, Done(row), row, AttemptSends(captured, q.conditions), [])
  {
    var t := l.rows[q.id];
    var receipt := if Truthy(t.receiptNumber) then t.receiptNumber else Some(q.receipt);
    KeptLeaves(l, Moved(t, Captured).(receiptNumber := receipt), q.conditions);
    assert l.refunds + [] == l.refunds;
  }

  /** A granted cancel moves the row and does nothing else. */
  lemma CancelLeaves(l: Ledger, q: Request)
    requires Inv(l) && q.Cancel? && WhyRejected(l, q).None?
    ensures var t := l.rows[q.id];
            var row := Walked(t, [Log(Some(t.status), Cancelled)], [Cancelled]);
            LeavesRow(l, q, Done(row), row, [], [])
  {
    assert l.sends + [] == l.sends && l.refunds + [] == l.refunds;
  }

  /** A granted refund repays exactly the amount asked for, or the whole charge if none was. */
  lemma RefundLeaves(l: Ledger, q: Request)
    requires Inv(l) && q.Refund? && WhyRejected(l, q).None?
    ensures var t := l.rows[q.id];
            var row := Walked(t, [Log(Some(t.status), Refunded)], [Refunded]);
            LeavesRow(l, q, Done(row), row, [], [Repayment(q.id, if q.asked.None? then t.amount else q.asked.value)])
  {
    assert l.sends + [] == l.sends;
  }

  /**
   A valid create that repeats a stored transaction returns it and changes nothing: the one under its idempotency key,
   if it has a key that is stored, and otherwise the one under its reference.
   */
  lemma RepeatLeaves(l: Ledger, q: Request, id: Uuid)
    requires Inv(l) && q.Create? && q.currencyEnabled && id in l.rows && q.merchant == Some(l.rows[id].merchant)
    requires if !Blank(q.idempotencyKey) && Stored(l, l.rows[id].merchant, q.idempotencyKey.value)
             then l.rows[id].reference == q.idempotencyKey.value
             else l.rows[id].reference == q.reference
    ensures Step(l, q) == Outcome(l, Done(l.rows[id]))
  {
    var m := l.rows[id].merchant;
    StoredIff(l, m, EffectiveReference(q));
    OwnIs(l, id);
  }

  lemma OwnIs(l: Ledger, id: Uuid)
    requires Inv(l) && id in l.rows
    ensures OwnReference(l.rows, l.rows[id].merchant, l.rows[id].reference) == {id}
  {
    var own := OwnReference(l.rows, l.rows[id].merchant, l.rows[id].reference);
    forall other | other in own
      ensures other == id
    {
      assert SameReference(l.rows[other], l.rows[id]);
    }
  }

  // ---------- webhooks ----------

  /** The row carries the order id of a webhook. */
  predicate CarriesOrder(l: Ledger, id: Uuid, orderId: string) {
    orderId != "" && id in l.rows && l.rows[id].reference == orderId
  }

  predicate CarriesReference(l: Ledger, id: Uuid, reference: string) {
    reference != "" && id in l.rows && l.rows[id].gatewayReference == Some(reference)
  }

  /** The only row that carries the gateway reference. */
  ghost predicate OnlyByReference(l: Ledger, id: Uuid, reference: string) {
    CarriesReference(l, id, reference) && forall other :: CarriesReference(l, other, reference) ==> other == id
  }

  /** The webhook means this row: the only one with its order id or, if none has that, with its gateway reference. */
  ghost predicate Means(l: Ledger, q: Request, id: Uuid)
    requires q.NowPaymentsWebhook? || q.MoyasarWebhook?
  {
    match q
    case NowPaymentsWebhook(orderId, reference, _, _) =>
      if exists other :: CarriesOrder(l, other, orderId) then
        CarriesOrder(l, id, orderId) && forall other :: CarriesOrder(l, other, orderId) ==> other == id
      else OnlyByReference(l, id, reference)
    case MoyasarWebhook(reference, _) => OnlyByReference(l, id, reference)
  }

  ghost function Target(l: Ledger, q: Request): Found
    requires q.NowPaymentsWebhook? || q.MoyasarWebhook?
  {
    if q.MoyasarWebhook? then MoyasarTarget(l.rows, q) else NowPaymentsTarget(l.rows, q)
  }

  lemma OnlyInSet(ids: set<Uuid>, id: Uuid)
    ensures Lookup(ids) == OneRow(id) <==> id in ids && forall other :: other in ids ==> other == id
  {
    if id in ids && forall other :: other in ids ==> other == id {
      assert ids == {id};
    }
  }

  lemma ReferenceMeans(l: Ledger, id: Uuid, reference: string)
    requires reference != ""
    ensures Lookup(GatewayReference(l.rows, reference)) == OneRow(id) <==> OnlyByReference(l, id, reference)
  {
    OnlyInSet(GatewayReference(l.rows, reference), id);
    assert forall other :: CarriesReference(l, other, reference) <==> other in GatewayReference(l.rows, reference);
  }

  lemma OrderMeans(l: Ledger, id: Uuid, orderId: string)
    requires orderId != ""
    ensures Lookup(AnyReference(l.rows, orderId)) == OneRow(id)
            <==> CarriesOrder(l, id, orderId) && forall other :: CarriesOrder(l, other, orderId) ==> other == id
    ensures Lookup(AnyReference(l.rows, orderId)).NoRow? <==> !exists other :: CarriesOrder(l, other, orderId)
  {
    OnlyInSet(AnyReference(l.rows, orderId), id);
    assert forall other :: CarriesOrder(l, other, orderId) <==> other in AnyReference(l.rows, orderId);
  }

  lemma TargetIs(l: Ledger, q: Request, id: Uuid)
    requires q.NowPaymentsWebhook? || q.MoyasarWebhook?
    ensures Target(l, q) == OneRow(id) <==> Means(l, q, id)
  {
    if q.gatewayReference != "" {
      ReferenceMeans(l, id, q.gatewayReference);
    }
    if q.NowPaymentsWebhook? && q.orderId != "" {
      OrderMeans(l, id, q.orderId);
    }
  }

  /** A rescued row is captured, without a log line; an order webhook gives it a receipt unless it has one. */
  function RescuedRow(t: Txn, q: Request): Txn
    requires q.NowPaymentsWebhook? || q.MoyasarWebhook?
  {
    t.(status := Captured, trail := t.trail + [Captured],
       receiptNumber := if q.NowPaymentsWebhook? && Blank(t.receiptNumber) then Some(q.receipt) else t.receiptNumber)
  }

  lemma VerdictIs(t: Txn, q: Request)
    requires AtRest(t) && (q.NowPaymentsWebhook? || q.MoyasarWebhook?)
    ensures (if q.MoyasarWebhook? then MoyasarVerdict(t, q.success) else NowPaymentsVerdict(t, q.success, q.receipt))
         == if q.success && t.status == Failed then RescuedRow(t, q) else t
  {
  }

  lemma TargetLeaves(l: Ledger, q: Request, target: Found, id: Uuid)
    requires (q.NowPaymentsWebhook? || q.MoyasarWebhook?) && id in l.rows && AtRest(l.rows[id])
    requires target.OneRow? ==> target.id in l.rows
    ensures var t, o := l.rows[id], WebhookStep(l, target, q);
            && o.ledger == l.(rows := o.ledger.rows) && o.ledger.rows.Keys == l.rows.Keys
            && o.ledger.rows[id]
               == (if q.success && target == OneRow(id) && t.status == Failed then RescuedRow(t, q) else t)
            && (target == OneRow(id) ==> o.response == Done(o.ledger.rows[id]))
  {
    VerdictIs(l.rows[id], q);
  }

  /**
   In every reachable ledger a webhook touches a row exactly if it reports a success, means that row and finds it
   failed: then it rescues the row. Nothing else changes.
   */
  lemma WebhookLeaves(l: Ledger, q: Request, id: Uuid)
    requires Inv(l) && (q.NowPaymentsWebhook? || q.MoyasarWebhook?) && id in l.rows
    ensures var t, o := l.rows[id], Step(l, q);
            && o.ledger == l.(rows := o.ledger.rows) && o.ledger.rows.Keys == l.rows.Keys
            && o.ledger.rows[id]
               == (if q.success && Means(l, q, id) && t.status == Failed then RescuedRow(t, q) else t)
            && (Means(l, q, id) ==> o.response == Done(o.ledger.rows[id]))
  {
    StepOfWebhook(l, q);
    TargetIs(l, q, id);
    TargetLeaves(l, q, Target(l, q), id);
  }

  lemma StepOfWebhook(l: Ledger, q: Request)
    requires q.NowPaymentsWebhook? || q.MoyasarWebhook?
    ensures Target(l, q).OneRow? ==> Target(l, q).id in l.rows
    ensures Step(l, q) == WebhookStep(l, Target(l, q), q)
  {
  }

  /** A webhook that means no row is answered as unmatched, or fails because it could mean several. */
  lemma WebhookMeansNothing(l: Ledger, q: Request)
    requires Inv(l) && (q.NowPaymentsWebhook? || q.MoyasarWebhook?)
    ensures Step(l, q).response.Done? <==> exists id :: Means(l, q, id)
    ensures Step(l, q).response == Unmatched
            <==> forall id :: !CarriesReference(l, id, q.gatewayReference)
                              && (q.NowPaymentsWebhook? ==> !CarriesOrder(l, id, q.orderId))
  {
    match Target(l, q)
    case OneRow(id) =>
      TargetIs(l, q, id);
      assert Means(l, q, id);
    case _ =>
      forall id
        ensures !Means(l, q, id)
      {
        TargetIs(l, q, id);
      }
    UnmatchedIff(l, q);
  }

  lemma UnmatchedIff(l: Ledger, q: Request)
    requires q.NowPaymentsWebhook? || q.MoyasarWebhook?
    ensures Target(l, q).NoRow? <==> forall id :: !CarriesReference(l, id, q.gatewayReference)
                                                  && (q.NowPaymentsWebhook? ==> !CarriesOrder(l, id, q.orderId))
  {
    if q.gatewayReference != "" {
      assert forall id :: CarriesReference(l, id, q.gatewayReference)
                          <==> id in GatewayReference(l.rows, q.gatewayReference);
    }
    if q.NowPaymentsWebhook? && q.orderId != "" {
      assert forall id :: CarriesOrder(l, id, q.orderId) <==> id in AnyReference(l.rows, q.orderId);
    }
  }
}
