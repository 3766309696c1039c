/**
 The payment service, the settlement engine and the settlement task on mutable entities. Each request has a database
 session, which holds one entity for each row it has loaded: the service and the engine get at a row separately and
 share its entity. A commit writes all of them, and a rollback lets them go. Each method is proved to do what the ledger
 step on values does.
 */
module PaymentService {
  import opened Common
  import opened Fees
  import opened Money
  import opened Payments

  /** A transaction as loaded into one database session. */
  class TransactionEntity {
    const id: Uuid
    const merchant: Uuid
    const reference: string
    const amount: Cents
    const currency: string
    var status: Status
    var fees: int
    var net: int
    var gatewayReference: Option<string>
    var receiptNumber: Option<string>
    var settlement: Option<Settlement>
    var logs: seq<Log>
    var trail: seq<Status>

    constructor (row: Txn)
      ensures Snapshot() == row
    {
      id, merchant, reference, amount, currency := row.id, row.merchant, row.reference, row.amount, row.currency;
      status, fees, net, logs, trail := row.status, row.fees, row.net, row.logs, row.trail;
      gatewayReference, receiptNumber, settlement := row.gatewayReference, row.receiptNumber, row.settlement;
    }

    function Snapshot(): Txn
      reads this
    {
      Txn(id, merchant, reference, amount, currency, status, fees, net, gatewayReference, receiptNumber, settlement,
          logs, trail)
    }

    /** Sets the status, without a log line. */
    method Assign(to: Status)
      modifies this
      ensures Snapshot() == Assigned(old(Snapshot()), to)
    {
      status := to;
      trail := trail + [to];
    }

    method ApplyNowPayments(success: bool, receipt: string)
      modifies this
      ensures Snapshot() == NowPaymentsVerdict(old(Snapshot()), success, receipt)
    {
      if success && status in {Failed, Processing, Pending} {
        Assign(Captured);
        if !Truthy(receiptNumber) {
          receiptNumber := Some(receipt);
        }
      } else if !success && status in {Processing, Pending} {
        Assign(Failed);
      }
    }

    method ApplyMoyasar(success: bool)
      modifies this
      ensures Snapshot() == MoyasarVerdict(old(Snapshot()), success)
    {
      if success && status == Failed {
        Assign(Captured);
      } else if !success && status in {Processing, Pending} {
        Assign(Failed);
      }
    }

    /** Sets the status and logs the move. */
    method Move(to: Status)
      modifies this
      ensures Snapshot() == Moved(old(Snapshot()), to)
    {
      var previous := status;
      Assign(to);
      logs := logs + [Log(Some(previous), to)];
    }
  }

  /** A unit of work: the rows it found, and the entities loaded or added so far, by primary key. */
  class Session {
    const rows: map<Uuid, Txn>
    var loaded: map<Uuid, TransactionEntity>

    constructor (rows: map<Uuid, Txn>)
      requires forall id :: id in rows ==> rows[id].id == id
      ensures Valid() && this.rows == rows && loaded == map[]
    {
      this.rows, loaded := rows, map[];
    }

    ghost predicate Valid()
      reads this
    {
      && (forall id :: id in rows ==> rows[id].id == id)
      && (forall id :: id in loaded ==> loaded[id].id == id)
    }

    /** Whoever asks for a row gets the same entity, however it has been changed since it was loaded. */
    method Get(id: Uuid) returns (t: TransactionEntity?)
      requires Valid()
      modifies this
      ensures Valid()
      ensures t == null <==> id !in old(loaded) && id !in rows
      ensures t != null ==> t.id == id && loaded == old(loaded)[id := t]
      ensures t == null || id in old(loaded) ==> loaded == old(loaded)
      ensures t != null && id !in old(loaded) ==> fresh(t) && t.Snapshot() == rows[id]
    {
      t := null;
      if id in loaded {
        t := loaded[id];
      } else if id in rows {
        t := new TransactionEntity(rows[id]);
        loaded := loaded[id := t];
      }
    }

    method Add(t: TransactionEntity)
      requires Valid()
      modifies this
      ensures Valid() && loaded == old(loaded)[t.id := t]
    {
      loaded := loaded[t.id := t];
    }
  }

  class SettlementEngine {
    const session: Session

    constructor (session: Session)
      ensures this.session == session
    {
      this.session := session;
    }

    /** Loads the transaction by its id, and so works on the entity that the service may hold already. */
    method PrepareAndSettle(id: Uuid, c: Conditions) returns (verdict: Verdict, sends: seq<Send>)
      requires session.Valid()
      modifies session, session.loaded.Values
      ensures session.Valid()
      ensures id in old(session.loaded) ==>
                && session.loaded == old(session.loaded)
                && EngineResult(session.loaded[id].Snapshot(), verdict, sends)
                   == Payments.PrepareAndSettle(old(session.loaded[id].Snapshot()), c)
      ensures id !in old(session.loaded) && id in session.rows ==>
                && session.loaded.Keys == old(session.loaded).Keys + {id} && fresh(session.loaded[id])
                && EngineResult(session.loaded[id].Snapshot(), verdict, sends)
                   == Payments.PrepareAndSettle(session.rows[id], c)
      ensures id !in old(session.loaded) && id !in session.rows ==> verdict == SettleRaised && sends == []
    {
      var t := session.Get(id);
      if t == null {
        return SettleRaised, [];
      }
      verdict, sends := Settle(t, c);
    }

    /** Price, quote, store the settlement, transfer, complete. */
    method Settle(t: TransactionEntity, c: Conditions) returns (verdict: Verdict, sends: seq<Send>)
      modifies t
      ensures EngineResult(t.Snapshot(), verdict, sends) == Payments.PrepareAndSettle(old(t.Snapshot()), c)
    {
      sends := [];
      if t.status !in {Captured, Success, SettlementPending, SettlementProcessing} {
        return SettleRaised, [];
      }
      if t.settlement.Some? && t.settlement.value.status == SettlementDone {
        return AlreadySettled, [];
      }
      if c.wallet.None? {
        return SettleRaised, [];
      }
      t.fees := FeeCents(t.amount, c.feePercent);
      t.net := t.amount - t.fees;
      t.Move(SettlementProcessing);
      if t.fees >= CENTS_LIMIT {
        return RowRejected, [];
      }
      var quote := SandboxRate(t.currency);
      if quote.None? {
        return SettleRaised, [];
      }
      var usdt := UsdtUnits(t.net, quote.value);
      if usdt <= 0 || usdt >= USDT_LIMIT {
        return RowRejected, [];
      }
      verdict, sends := Transfer(t, quote.value, usdt, c);
    }

    method Transfer(t: TransactionEntity, rate: nat, usdt: int, c: Conditions)
      returns (verdict: Verdict, sends: seq<Send>)
      requires c.wallet.Some? && usdt == UsdtUnits(t.net, rate)
      modifies t
      ensures
        var was := old(t.Snapshot());
        var quoted := was.(settlement := Some(Quoted(was, rate, c.wallet.value)));
        EngineResult(t.Snapshot(), verdict, sends) == Transferred(quoted, c.wallet.value, c.transfer)
    {
      sends := [];
      if t.settlement.None? {
        t.settlement := Some(Settlement(t.net, usdt, rate, c.wallet.value, SettlementRunning, 0, None, None));
      } else {
        t.settlement := Some(t.settlement.value.(fiatAmount := t.net, usdtAmount := usdt, rate := rate,
                                                 status := SettlementRunning, failureReason := None));
      }
      match c.transfer {
        case TransferRaised =>
          verdict := SettleRaised;
        case TransferRefused(message) =>
          t.settlement := Some(t.settlement.value.(status := SettlementFailed, failureReason := Some(message),
                                                   retryCount := t.settlement.value.retryCount + 1));
          t.Move(ManualReview);
          verdict := SettleRaised;
        case Sent(hash) =>
          sends := [Send(t.id, usdt, c.wallet.value)];
          t.settlement := Some(t.settlement.value.(status := SettlementDone, txHash := Some(hash)));
          t.Move(Completed);
          verdict := Settled;
      }
    }
  }

  /** A lookup that must find at most one row. */
  method FindOne(ids: set<Uuid>) returns (f: Found)
    ensures f == Lookup(ids)
  {
    if ids == {} {
      return NoRow;
    }
    var id :| id in ids;
    if ids == {id} {
      f := OneRow(id);
    } else {
      f := ManyRows;
    }
  }

  class PaymentService {
    var rows: map<Uuid, Txn>
    ghost var charges: seq<Charge>
    ghost var sends: seq<Send>
    ghost var refunds: seq<Repayment>

    constructor ()
      ensures Valid() && Model() == NO_PAYMENTS
    {
      rows, charges, sends, refunds := map[], [], [], [];
    }

    /** Rows are stored under their primary key. */
    ghost predicate Valid()
      reads this
    {
      forall id :: id in rows ==> rows[id].id == id
    }

    ghost function Model(): Ledger
      reads this
    {
      Ledger(rows, charges, sends, refunds)
    }

    /** Writes every entity of the session, which is the only one, `t`. */
    method Commit(session: Session, ghost t: TransactionEntity)
      requires Valid() && session.Valid() && session.loaded == map[t.id := t]
      modifies `rows
      ensures Valid() && rows == old(rows)[t.id := t.Snapshot()]
    {
      rows := rows + (map id | id in session.loaded :: session.loaded[id].Snapshot());
    }

    /** A session that has loaded one row. */
    method Open(id: Uuid) returns (session: Session, t: TransactionEntity)
      requires Valid() && id in rows
      ensures fresh(session) && session.Valid() && session.loaded == map[id := t]
      ensures fresh(t) && t.Snapshot() == rows[id]
    {
      session := new Session(rows);
      t := session.Get(id);
    }

    /** A session to which one new row was added. */
    method Begin(blank: Txn) returns (session: Session, t: TransactionEntity)
      requires Valid()
      ensures fresh(session) && session.Valid() && session.loaded == map[t.id := t]
      ensures fresh(t) && t.Snapshot() == blank
    {
      session := new Session(rows);
      t := new TransactionEntity(blank);
      session.Add(t);
    }

    /** The request path: an ordinary failure of the engine parks the service's own entity for the background task. */
    method TrySettle(session: Session, t: TransactionEntity, c: Conditions)
      returns (verdict: Verdict, sent: seq<Send>)
      requires session.Valid() && session.loaded == map[t.id := t]
      modifies session, t
      ensures session.Valid() && session.loaded == map[t.id := t]
      ensures EngineResult(t.Snapshot(), verdict, sent) == Payments.TrySettle(old(t.Snapshot()), c)
    {
      var engine := new SettlementEngine(session);
      verdict, sent := engine.PrepareAndSettle(t.id, c);
      if verdict == SettleRaised {
        t.Assign(SettlementPending);
        t.logs := t.logs + [Log(Some(Captured), SettlementPending)];
      }
    }

    /** Settles or parks a captured payment and commits it, unless the database refused what it writes. */
    method SettleAndCommit(session: Session, t: TransactionEntity, c: Conditions) returns (response: Response)
      requires Valid() && session.Valid() && session.loaded == map[t.id := t]
      modifies session, t, `rows, `sends
      ensures Valid()
      ensures Outcome(Model(), response) == SettledStep(old(Model()), old(t.Snapshot()), c)
    {
      var verdict, sent := TrySettle(session, t, c);
      if verdict == RowRejected {
        return Rejected(RolledBack);
      }
      Commit(session, t);
      sends := sends + sent;
      response := Done(t.Snapshot());
    }

    method FindRepeated(merchant: Uuid, reference: string, idempotencyKey: Option<string>, ghost q: Request)
      returns (f: Found)
      requires q.Create? && q.reference == reference && q.idempotencyKey == idempotencyKey
      ensures f == Repeated(rows, merchant, q)
    {
      var effective := if Truthy(idempotencyKey) then idempotencyKey.value else reference;
      f := FindOne(OwnReference(rows, merchant, effective));
      if f.NoRow? && Truthy(idempotencyKey) && idempotencyKey.value != reference {
        f := FindOne(OwnReference(rows, merchant, reference));
      }
    }

    method CreatePayment(q: Request) returns (response: Response)
      requires q.Create? && Valid()
      modifies this
      ensures Valid() && Outcome(Model(), response) == Step(old(Model()), q)
    {
      if !q.currencyEnabled {
        return Rejected(CurrencyDisabled);
      }
      if q.merchant.None? {
        return Rejected(NoMerchant);
      }
      var existing := FindRepeated(q.merchant.value, q.reference, q.idempotencyKey, q);
      match existing {
        case ManyRows => return Rejected(Ambiguous);
        case OneRow(id) => return Done(rows[id]);
        case NoRow =>
      }
      if !q.accepted {
        return Rejected(NotAccepted);
      }
      if q.reply.ChargeRaised? {
        return Rejected(GatewayRaised);
      }
      response := Charged(q.merchant.value, q);
    }

    /** The part of a create after the gateway has answered. */
    method Charged(merchant: Uuid, q: Request) returns (response: Response)
      requires q.Create? && !q.reply.ChargeRaised? && Valid()
      modifies this
      ensures Valid()
      ensures
        var answered := old(Model()).(charges := old(charges) + [Charge(merchant, EffectiveReference(q))]);
        Outcome(Model(), response) == ChargedStep(answered, Opened(merchant, q), q)
    {
      charges := charges + [Charge(merchant, EffectiveReference(q))];
      var session, t := Begin(Opened(merchant, q));
      t.gatewayReference := Some(q.reply.gatewayReference);
      match q.reply {
        case ChargeDeclined(_) =>
          t.Move(Failed);
          Commit(session, t);
          response := Rejected(PaymentDeclined);
        case ChargeHeld(_) =>
          t.Move(Authorized);
          Commit(session, t);
          response := Done(t.Snapshot());
        case ChargeTaken(_) =>
          t.Move(Captured);
          t.receiptNumber := Some(q.receipt);
          response := SettleAndCommit(session, t, q.conditions);
      }
    }

    /** The caller's own stored transaction, loaded for change into a session of its own. */
    method Load(merchant: Option<Uuid>, id: Uuid) returns (session: Session, t: TransactionEntity?)
      requires Valid()
      ensures fresh(session) && session.Valid()
      ensures t != null <==> Owned(Model(), merchant, id)
      ensures t != null ==> fresh(t) && t.Snapshot() == rows[id] && session.loaded == map[id := t]
    {
      session := new Session(rows);
      t := null;
      if merchant.Some? {
        t := session.Get(id);
        if t != null && t.merchant != merchant.value {
          t := null;
        }
      }
    }

    method CompleteSignature(q: Request) returns (response: Response)
      requires q.Sign? && Valid()
      modifies this
      ensures Valid() && Outcome(Model(), response) == Step(old(Model()), q)
    {
      var session, t := Load(q.merchant, q.id);
      if t == null {
        return Refusal(q.merchant);
      }
      if t.status != Authorized {
        return Rejected(Conflict);
      }
      if !q.acknowledged {
        return Rejected(NotAcknowledged);
      }
      t.Move(Captured);
      t.receiptNumber := if Truthy(t.receiptNumber) then t.receiptNumber else Some(q.receipt);
      response := SettleAndCommit(session, t, q.conditions);
    }

    method CancelPayment(q: Request) returns (response: Response)
      requires q.Cancel? && Valid()
      modifies this
      ensures Valid() && Outcome(Model(), response) == Step(old(Model()), q)
    {
      var session, t := Load(q.merchant, q.id);
      if t == null {
        return Refusal(q.merchant);
      }
      if !MayMove(t.status, Cancelled) {
        return Rejected(Conflict);
      }
      t.Move(Cancelled);
      Commit(session, t);
      response := Done(t.Snapshot());
    }

    method RefundPayment(q: Request) returns (response: Response)
      requires q.Refund? && Valid()
      modifies this
      ensures Valid() && Outcome(Model(), response) == Step(old(Model()), q)
    {
      var session, t := Load(q.merchant, q.id);
      if t == null {
        return Refusal(q.merchant);
      }
      if t.status !in {Captured, Success, SettlementComplete, SettlementPending, Completed}
         || !Truthy(t.gatewayReference) {
        return Rejected(Conflict);
      }
      if !q.refund.RefundGranted? {
        return Rejected(RefundFailed);
      }
      refunds := refunds + [Repayment(q.id, if q.asked.Some? then q.asked.value else t.amount)];
      t.Move(Refunded);
      Commit(session, t);
      response := Done(t.Snapshot());
    }

    method HandleNowPaymentsWebhook(q: Request) returns (response: Response)
      requires q.NowPaymentsWebhook? && Valid()
      modifies this
      ensures Valid() && Outcome(Model(), response) == Step(old(Model()), q)
    {
      var target := NoRow;
      if q.orderId != "" {
        target := FindOne(AnyReference(rows, q.orderId));
      }
      if target.NoRow? && q.gatewayReference != "" {
        target := FindOne(GatewayReference(rows, q.gatewayReference));
      }
      match target {
        case NoRow => return Unmatched;
        case ManyRows => return Rejected(Ambiguous);
        case OneRow(id) =>
          var session, t := Open(id);
          t.ApplyNowPayments(q.success, q.receipt);
          Commit(session, t);
          response := Done(t.Snapshot());
      }
    }

    method HandleMoyasarWebhook(q: Request) returns (response: Response)
      requires q.MoyasarWebhook? && Valid()
      modifies this
      ensures Valid() && Outcome(Model(), response) == Step(old(Model()), q)
    {
      if q.gatewayReference == "" {
        return Unmatched;
      }
      var target := FindOne(GatewayReference(rows, q.gatewayReference));
      match target {
        case NoRow => return Unmatched;
        case ManyRows => return Rejected(Ambiguous);
        case OneRow(id) =>
          var session, t := Open(id);
          t.ApplyMoyasar(q.success);
          Commit(session, t);
          response := Done(t.Snapshot());
      }
    }

    /** The background task: commits a settlement that went through and rolls back anything else. */
    method SettleTransaction(q: Request) returns (response: Response)
      requires q.SettleTask? && Valid()
      modifies this
      ensures Valid() && Outcome(Model(), response) == Step(old(Model()), q)
    {
      var session := new Session(rows);
      var engine := new SettlementEngine(session);
      var verdict, sent := engine.PrepareAndSettle(q.id, q.conditions);
      if verdict !in {Settled, AlreadySettled} {
        return Rejected(TaskFailed);
      }
      var t := session.loaded[q.id];
      Commit(session, t);
      sends := sends + sent;
      response := Done(t.Snapshot());
    }

    /** The task as the queue runs it: at most five retries, each on a freshly loaded entity. */
    method SettleWithRetries(id: Uuid, attempts: seq<Conditions>) returns (response: Response)
      requires Valid() && |attempts| == MAX_RETRIES + 1
      modifies this
      ensures Valid() && Outcome(Model(), response) == Retried(old(Model()), id, attempts)
    {
      var n := 0;
      response := SettleTransaction(SettleTask(id, attempts[0]));
      assert attempts[0..] == attempts;
      while response.Rejected? && n < MAX_RETRIES
        invariant n <= MAX_RETRIES && Valid()
        invariant Outcome(Model(), response) == TaskStep(Model(), SettleTask(id, attempts[n])) || response.Done?
        invariant if response.Done? then Outcome(Model(), response) == Retried(old(Model()), id, attempts)
                  else Model() == old(Model())
                       && Retried(Model(), id, attempts[n..]) == Retried(old(Model()), id, attempts)
      {
        n := n + 1;
        assert attempts[n - 1..][1..] == attempts[n..];
        response := SettleTransaction(SettleTask(id, attempts[n]));
      }
    }
  }
}
