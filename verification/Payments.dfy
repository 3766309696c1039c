/**
 The payment ledger on values: what each request, webhook and worker task does to the stored transactions, and which
 outside effects (card charges, wallet transfers, card refunds) it causes. Requests run one after the other; an
 exception that escapes a request or task rolls it back.
 */
module Payments {
  import opened Common
  import opened Fees
  import opened Money

  datatype Status =
    | Pending | Processing | Authorized | Captured | Success | Failed | Cancelled | Refunded | Expired
    | SettlementPending | SettlementProcessing | SettlementComplete | Completed | ManualReview

  function AllowedTransitions(s: Status): set<Status> {
    match s
    case Pending => {Processing, Cancelled}
    case Processing => {Authorized, Captured, Failed, Cancelled}
    case Authorized => {Captured, Failed, Cancelled}
    case Captured => {Success, SettlementPending, SettlementProcessing, Completed, Refunded, Cancelled}
    case Success => {SettlementPending, SettlementProcessing, Completed, Refunded}
    case SettlementPending => {SettlementProcessing, SettlementComplete, Completed, ManualReview, Refunded}
    case SettlementProcessing => {SettlementComplete, Completed, ManualReview, Failed}
    case SettlementComplete => {Completed, Refunded}
    case Completed => {Refunded}
    case Failed => {}
    case Cancelled => {}
    case Refunded => {}
    case Expired => {}
    case ManualReview => {SettlementProcessing, Completed, Refunded}
  }

  predicate MayMove(from: Status, to: Status) {
    to in AllowedTransitions(from)
  }

  /** An amount in cents that a Numeric(18, 2) column holds and the schema accepts. */
  type Cents = c: int | 0 < c < CENTS_LIMIT witness 1

  datatype SettlementStatus = SettlementRunning | SettlementDone | SettlementFailed

  datatype Settlement = Settlement(
    fiatAmount: int,
    usdtAmount: int,
    rate: nat,
    walletAddress: string,
    status: SettlementStatus,
    retryCount: nat,
    failureReason: Option<string>,
    txHash: Option<string>)

  datatype Log = Log(from: Option<Status>, to: Status)

  /** A transaction; `trail` is bookkeeping of the model: every status ever assigned to it, in order. */
  datatype Txn = Txn(
    id: Uuid,
    merchant: Uuid,
    reference: string,
    amount: Cents,
    currency: string,
    status: Status,
    fees: int,
    net: int,
    gatewayReference: Option<string>,
    receiptNumber: Option<string>,
    settlement: Option<Settlement>,
    logs: seq<Log>,
    trail: seq<Status>)

  function Assigned(t: Txn, to: Status): Txn {
    t.(status := to, trail := t.trail + [to])
  }

  /** A status change with its log line. */
  function Moved(t: Txn, to: Status): Txn {
    Assigned(t, to).(logs := t.logs + [Log(Some(t.status), to)])
  }

  // ---------- the settlement engine ----------

  /** How a wallet transfer ends: only `Sent` moves money. */
  datatype Transfer = Sent(hash: string) | TransferRefused(message: string) | TransferRaised

  /** What the engine reads from outside: the configured fee, the merchant's wallet, the wallet network. */
  datatype Conditions = Conditions(feePercent: Percent, wallet: Option<string>, transfer: Transfer)

  /** A transfer that moved money: for which transaction, how much, and to which address. */
  datatype Send = Send(txn: Uuid, usdtAmount: int, address: string)

  /** `RowRejected`: the database refused a write of the engine, after which nothing in the request can be kept. */
  datatype Verdict = Settled | AlreadySettled | SettleRaised | RowRejected

  datatype EngineResult = EngineResult(txn: Txn, verdict: Verdict, sends: seq<Send>)

  predicate Settleable(s: Status) {
    s in {Captured, Success, SettlementPending, SettlementProcessing}
  }

  function Priced(t: Txn, feePercent: Percent): Txn {
    var fee := FeeCents(t.amount, feePercent);
    Moved(t.(fees := fee, net := t.amount - fee), SettlementProcessing)
  }

  /** The settlement row for a priced transaction; a retried row keeps its first wallet address. */
  function Quoted(t: Txn, rate: nat, wallet: string): Settlement {
    var usdt := UsdtUnits(t.net, rate);
    match t.settlement
    case None => Settlement(t.net, usdt, rate, wallet, SettlementRunning, 0, None, None)
    case Some(s) =>
      s.(fiatAmount := t.net, usdtAmount := usdt, rate := rate, status := SettlementRunning, failureReason := None)
  }

  function PrepareAndSettle(t: Txn, c: Conditions): EngineResult {
    if !Settleable(t.status) then EngineResult(t, SettleRaised, [])
    else if t.settlement.Some? && t.settlement.value.status == SettlementDone then EngineResult(t, AlreadySettled, [])
    else if c.wallet.None? then EngineResult(t, SettleRaised, [])
    else
      var priced := Priced(t, c.feePercent);
      if priced.fees >= CENTS_LIMIT then EngineResult(priced, RowRejected, [])
      else if SandboxRate(t.currency).None? then EngineResult(priced, SettleRaised, [])
      else
        var row := Quoted(priced, SandboxRate(t.currency).value, c.wallet.value);
        if !(0 < row.usdtAmount < USDT_LIMIT) then EngineResult(priced, RowRejected, [])
        else Transferred(priced.(settlement := Some(row)), c.wallet.value, c.transfer)
  }

  /** The transfer goes to the merchant's present wallet, whatever address the row carries. */
  function Transferred(t: Txn, wallet: string, transfer: Transfer): EngineResult
    requires t.settlement.Some?
  {
    var row := t.settlement.value;
    match transfer
    case TransferRaised => EngineResult(t, SettleRaised, [])
    case TransferRefused(message) =>
      var failed := row.(status := SettlementFailed, failureReason := Some(message), retryCount := row.retryCount + 1);
      EngineResult(Moved(t.(settlement := Some(failed)), ManualReview), SettleRaised, [])
    case Sent(hash) =>
      var done := row.(status := SettlementDone, txHash := Some(hash));
      EngineResult(Moved(t.(settlement := Some(done)), Completed), Settled, [Send(t.id, row.usdtAmount, wallet)])
  }

  /** Parking logs a move from CAPTURED whatever the status is by then. */
  function Parked(t: Txn): Txn {
    Assigned(t, SettlementPending).(logs := t.logs + [Log(Some(Captured), SettlementPending)])
  }

  /** The request path around the engine: any ordinary failure parks the payment for retry. */
  function TrySettle(t: Txn, c: Conditions): EngineResult {
    var r := PrepareAndSettle(t, c);
    if r.verdict == SettleRaised then r.(txn := Parked(r.txn)) else r
  }

  // ---------- the ledger ----------

  datatype Charge = Charge(merchant: Uuid, reference: string)

  /** A refund the gateway granted: for which transaction and how much. */
  datatype Repayment = Repayment(txn: Uuid, amount: Cents)

  /** Stored transactions, and the journals of outside effects: answered charges, sent transfers, granted refunds. */
  datatype Ledger = Ledger(rows: map<Uuid, Txn>, charges: seq<Charge>, sends: seq<Send>, refunds: seq<Repayment>)

  const NO_PAYMENTS := Ledger(map[], [], [], [])

  /** How the card gateway answers a charge. */
  datatype ChargeReply =
    | ChargeRaised | ChargeDeclined(gatewayReference: string) | ChargeHeld(gatewayReference: string)
    | ChargeTaken(gatewayReference: string)

  datatype RefundReply = RefundRaised | RefundDenied | RefundGranted

  datatype Request =
    | Create(merchant: Option<Uuid>, id: Uuid, amount: Cents, currency: string, currencyEnabled: bool,
             reference: string, idempotencyKey: Option<string>, accepted: bool, reply: ChargeReply, receipt: string,
             conditions: Conditions)
    | Sign(merchant: Option<Uuid>, id: Uuid, acknowledged: bool, receipt: string, conditions: Conditions)
    | Cancel(merchant: Option<Uuid>, id: Uuid)
    | Refund(merchant: Option<Uuid>, id: Uuid, asked: Option<Cents>, refund: RefundReply)
    | NowPaymentsWebhook(orderId: string, gatewayReference: string, success: bool, receipt: string)
    | MoyasarWebhook(gatewayReference: string, success: bool)
    | SettleTask(id: Uuid, conditions: Conditions)

  datatype Failure =
    | CurrencyDisabled | NoMerchant | NotAccepted | GatewayRaised | PaymentDeclined | NotFound | Conflict
    | NotAcknowledged | RefundFailed | Ambiguous | TaskFailed | RolledBack

  datatype Response = Done(txn: Txn) | Unmatched | Rejected(failure: Failure)

  datatype Outcome = Outcome(ledger: Ledger, response: Response)

  /** The reference a create is charged and stored under: the idempotency key when there is one. */
  function EffectiveReference(q: Request): string
    requires q.Create?
  {
    if Truthy(q.idempotencyKey) then q.idempotencyKey.value else q.reference
  }

  // A lookup that must find at most one row, and raises when there are more.

  datatype Found = NoRow | OneRow(id: Uuid) | ManyRows

  ghost function Lookup(ids: set<Uuid>): (f: Found)
    ensures f.OneRow? <==> exists id :: ids == {id}
    ensures f.OneRow? ==> ids == {f.id}
    ensures f.NoRow? <==> ids == {}
  {
    if ids == {} then NoRow
    else
      var id :| id in ids;
      if ids == {id} then OneRow(id) else ManyRows
  }

  function OwnReference(rows: map<Uuid, Txn>, merchant: Uuid, reference: string): set<Uuid> {
    set id | id in rows && rows[id].merchant == merchant && rows[id].reference == reference
  }

  function AnyReference(rows: map<Uuid, Txn>, reference: string): set<Uuid> {
    set id | id in rows && rows[id].reference == reference
  }

  function GatewayReference(rows: map<Uuid, Txn>, reference: string): set<Uuid> {
    set id | id in rows && rows[id].gatewayReference == Some(reference)
  }

  /** Finds the transaction a create repeats: under its effective reference first, then under its plain one. */
  ghost function Repeated(rows: map<Uuid, Txn>, merchant: Uuid, q: Request): Found
    requires q.Create?
  {
    var first := Lookup(OwnReference(rows, merchant, EffectiveReference(q)));
    if first.NoRow? && Truthy(q.idempotencyKey) && q.idempotencyKey.value != q.reference
    then Lookup(OwnReference(rows, merchant, q.reference))
    else first
  }

  function Opened(merchant: Uuid, q: Request): Txn
    requires q.Create?
  {
    Txn(q.id, merchant, EffectiveReference(q), q.amount, Upper(q.currency), Processing, 0, 0, None, None, None,
        [Log(None, Processing)], [Processing])
  }

  /** Stores what a settlement attempt left of its transaction, and journals the transfer if one was sent. */
  function Kept(l: Ledger, r: EngineResult): Ledger {
    l.(rows := l.rows[r.txn.id := r.txn], sends := l.sends + r.sends)
  }

  ghost function CreateStep(l: Ledger, q: Request): Outcome
    requires q.Create?
  {
    if !q.currencyEnabled then Outcome(l, Rejected(CurrencyDisabled))
    else if q.merchant.None? then Outcome(l, Rejected(NoMerchant))
    else
      var m := q.merchant.value;
      match Repeated(l.rows, m, q)
      case ManyRows => Outcome(l, Rejected(Ambiguous))
      case OneRow(id) => Outcome(l, Done(l.rows[id]))
      case NoRow =>
        if !q.accepted then Outcome(l, Rejected(NotAccepted))
        else if q.reply.ChargeRaised? then Outcome(l, Rejected(GatewayRaised))
        else ChargedStep(l.(charges := l.charges + [Charge(m, EffectiveReference(q))]), Opened(m, q), q)
  }

  /** After the gateway has answered; the journal of charges keeps the answer even when the request rolls back. */
  function ChargedStep(l: Ledger, blank: Txn, q: Request): Outcome
    requires q.Create? && !q.reply.ChargeRaised?
  {
    var t := blank.(gatewayReference := Some(q.reply.gatewayReference));
    match q.reply
    case ChargeDeclined(_) =>
      Outcome(l.(rows := l.rows[t.id := Moved(t, Failed)]), Rejected(PaymentDeclined))
    case ChargeHeld(_) =>
      Outcome(l.(rows := l.rows[t.id := Moved(t, Authorized)]), Done(Moved(t, Authorized)))
    case ChargeTaken(_) =>
      SettledStep(l, Moved(t, Captured).(receiptNumber := Some(q.receipt)), q.conditions)
  }

  /** A captured payment is settled or parked and kept, unless the database refuses what the engine writes. */
  function SettledStep(l: Ledger, t: Txn, c: Conditions): Outcome {
    var r := TrySettle(t, c);
    if r.verdict == RowRejected then Outcome(l, Rejected(RolledBack)) else Outcome(Kept(l, r), Done(r.txn))
  }

  predicate Owned(l: Ledger, merchant: Option<Uuid>, id: Uuid) {
    merchant.Some? && id in l.rows && l.rows[id].merchant == merchant.value
  }

  function Refusal(merchant: Option<Uuid>): Response {
    Rejected(if merchant.None? then NoMerchant else NotFound)
  }

  function SignStep(l: Ledger, q: Request): Outcome
    requires q.Sign?
  {
    if !Owned(l, q.merchant, q.id) then Outcome(l, Refusal(q.merchant))
    else
      var t := l.rows[q.id];
      if t.status != Authorized then Outcome(l, Rejected(Conflict))
      else if !q.acknowledged then Outcome(l, Rejected(NotAcknowledged))
      else
        var receipt := if Truthy(t.receiptNumber) then t.receiptNumber else Some(q.receipt);
        SettledStep(l, Moved(t, Captured).(receiptNumber := receipt), q.conditions)
  }

  function CancelStep(l: Ledger, q: Request): Outcome
    requires q.Cancel?
  {
    if !Owned(l, q.merchant, q.id) then Outcome(l, Refusal(q.merchant))
    else
      var t := l.rows[q.id];
      if !MayMove(t.status, Cancelled) then Outcome(l, Rejected(Conflict))
      else Outcome(l.(rows := l.rows[q.id := Moved(t, Cancelled)]), Done(Moved(t, Cancelled)))
  }

  predicate Refundable(s: Status) {
    s in {Captured, Success, SettlementComplete, SettlementPending, Completed}
  }

  /** The amount asked for, or the whole amount when none is; nothing compares the two. */
  function RefundAmount(t: Txn, asked: Option<Cents>): Cents {
    if asked.Some? then asked.value else t.amount
  }

  function RefundStep(l: Ledger, q: Request): Outcome
    requires q.Refund?
  {
    if !Owned(l, q.merchant, q.id) then Outcome(l, Refusal(q.merchant))
    else
      var t := l.rows[q.id];
      if !Refundable(t.status) || !Truthy(t.gatewayReference) then Outcome(l, Rejected(Conflict))
      else if !q.refund.RefundGranted? then Outcome(l, Rejected(RefundFailed))
      else
        var repaid := Repayment(q.id, RefundAmount(t, q.asked));
        Outcome(l.(rows := l.rows[q.id := Moved(t, Refunded)], refunds := l.refunds + [repaid]),
                Done(Moved(t, Refunded)))
  }

  /** A webhook's verdict on a transaction: it sets the status without consulting the table or writing a log. */
  function NowPaymentsVerdict(t: Txn, success: bool, receipt: string): Txn {
    if success && t.status in {Failed, Processing, Pending} then
      Assigned(t, Captured).(receiptNumber := if Truthy(t.receiptNumber) then t.receiptNumber else Some(receipt))
    else if !success && t.status in {Processing, Pending} then Assigned(t, Failed)
    else t
  }

  function MoyasarVerdict(t: Txn, success: bool): Txn {
    if success && t.status == Failed then Assigned(t, Captured)
    else if !success && t.status in {Processing, Pending} then Assigned(t, Failed)
    else t
  }

  ghost function NowPaymentsTarget(rows: map<Uuid, Txn>, q: Request): Found
    requires q.NowPaymentsWebhook?
  {
    var byOrder := if q.orderId != "" then Lookup(AnyReference(rows, q.orderId)) else NoRow;
    if byOrder.NoRow? && q.gatewayReference != "" then Lookup(GatewayReference(rows, q.gatewayReference)) else byOrder
  }

  ghost function MoyasarTarget(rows: map<Uuid, Txn>, q: Request): Found
    requires q.MoyasarWebhook?
  {
    if q.gatewayReference == "" then NoRow else Lookup(GatewayReference(rows, q.gatewayReference))
  }

  ghost function WebhookStep(l: Ledger, target: Found, q: Request): Outcome
    requires q.NowPaymentsWebhook? || q.MoyasarWebhook?
    requires target.OneRow? ==> target.id in l.rows
  {
    match target
    case NoRow => Outcome(l, Unmatched)
    case ManyRows => Outcome(l, Rejected(Ambiguous))
    case OneRow(id) =>
      var t := l.rows[id];
      var t' := if q.MoyasarWebhook? then MoyasarVerdict(t, q.success) else NowPaymentsVerdict(t, q.success, q.receipt);
      Outcome(l.(rows := l.rows[id := t']), Done(t'))
  }

  /** The background task: commits a settlement, rolls back anything else. */
  function TaskStep(l: Ledger, q: Request): Outcome
    requires q.SettleTask?
  {
    if q.id !in l.rows then Outcome(l, Rejected(TaskFailed))
    else
      var r := PrepareAndSettle(l.rows[q.id], q.conditions);
      if r.verdict in {Settled, AlreadySettled} then Outcome(Kept(l, r), Done(r.txn))
      else Outcome(l, Rejected(TaskFailed))
  }

  const MAX_RETRIES: nat := 5

  /**
   The task with its retries: it is run again, on what is stored by then, until it succeeds or the retries are used
   up.
   */
  function Retried(l: Ledger, id: Uuid, attempts: seq<Conditions>): Outcome
    requires attempts != []
  {
    var o := TaskStep(l, SettleTask(id, attempts[0]));
    if o.response.Done? || |attempts| == 1 then o else Retried(o.ledger, id, attempts[1..])
  }

  ghost function Step(l: Ledger, q: Request): Outcome {
    match q
    case Create(_, _, _, _, _, _, _, _, _, _, _) => CreateStep(l, q)
    case Sign(_, _, _, _, _) => SignStep(l, q)
    case Cancel(_, _) => CancelStep(l, q)
    case Refund(_, _, _, _) => RefundStep(l, q)
    case NowPaymentsWebhook(_, _, _, _) => WebhookStep(l, NowPaymentsTarget(l.rows, q), q)
    case MoyasarWebhook(_, _) => WebhookStep(l, MoyasarTarget(l.rows, q), q)
    case SettleTask(_, _) => TaskStep(l, q)
  }
}
