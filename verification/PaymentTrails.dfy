/**
 Where the ledger leaves its transition table. The trail of a transaction lists every status ever assigned to it, also
 the ones that a request passes through; its log is what the code writes down. Both are right until, and only until, a
 webhook rescues a declined payment or a settlement attempt of a request begins and does not complete.
 */
module PaymentTrails {
  import opened Common
  import opened Money
  import opened Payments
  import opened PaymentSafety
  import opened PaymentRuns

  // ---------- one settlement attempt ----------

  /** A wallet is there, so the attempt moves the status, which can be stored; then it raises: no rate, no transfer. */
  predicate BeginsAndFails(amount: Cents, currency: string, c: Conditions) {
    && c.wallet.Some? && Storable(amount, currency, c.feePercent)
    && (SandboxRate(currency).None? || !c.transfer.Sent?)
  }

  /** An attempt completes exactly with a wallet, a rate, a net that pays out, and a transfer that is sent. */
  lemma SettledIff(t: Txn, c: Conditions)
    requires Settleable(t.status) && !IsPaidOut(t)
    ensures PrepareAndSettle(t, c).verdict == Settled <==>
              && c.wallet.Some? && SandboxRate(t.currency).Some? && PaysOut(t.amount, t.currency, c.feePercent)
              && c.transfer.Sent?
  {
    RowRejectedIff(t, c);
  }

  /** On the request path a captured payment is parked exactly when nothing is refused and nothing completes. */
  lemma ParkedIff(t: Txn, c: Conditions)
    requires t.status == Captured && !IsPaidOut(t)
    ensures TrySettle(t, c).txn.status == SettlementPending
            <==> c.wallet.None? || BeginsAndFails(t.amount, t.currency, c)
  {
    SettledIff(t, c);
    RowRejectedIff(t, c);
  }

  /** The background task succeeds exactly on a waiting payment whose attempt completes. */
  lemma TaskSucceedsIff(l: Ledger, id: Uuid, c: Conditions)
    requires Inv(l)
    ensures TaskStep(l, SettleTask(id, c)).response.Done? <==>
              && id in l.rows && l.rows[id].status in {Captured, SettlementPending}
              && c.wallet.Some? && SandboxRate(l.rows[id].currency).Some?
              && PaysOut(l.rows[id].amount, l.rows[id].currency, c.feePercent) && c.transfer.Sent?
  {
    if id in l.rows {
      SettlementKeeps(l.rows[id], c);
      if Settleable(l.rows[id].status) {
        SettledIff(l.rows[id], c);
      }
    }
  }

  lemma OneAttempt(l: Ledger, id: Uuid, c: Conditions)
    requires Inv(l)
    ensures var o := TaskStep(l, SettleTask(id, c));
            if o.response.Done? then |o.ledger.sends| == |l.sends| + 1 else o.ledger == l
  {
    if id in l.rows {
      SettlementKeeps(l.rows[id], c);
    }
  }

  /**
   However often the task is retried, it does what its first successful attempt does, with one transfer, or nothing at
   all if none succeeds.
   */
  lemma {:induction false} RetriesPayOnce(l: Ledger, id: Uuid, attempts: seq<Conditions>) returns (i: nat)
    requires Inv(l) && attempts != []
    ensures i < |attempts| && Retried(l, id, attempts) == TaskStep(l, SettleTask(id, attempts[i]))
    ensures forall j :: 0 <= j < i ==> !TaskStep(l, SettleTask(id, attempts[j])).response.Done?
    ensures var o := Retried(l, id, attempts);
            if o.response.Done? then |o.ledger.sends| == |l.sends| + 1 else i == |attempts| - 1 && o.ledger == l
  {
    OneAttempt(l, id, attempts[0]);
    i := 0;
    if !TaskStep(l, SettleTask(id, attempts[0])).response.Done? && |attempts| > 1 {
      var rest := RetriesPayOnce(l, id, attempts[1..]);
      assert forall j :: 1 <= j <= rest ==> attempts[j] == attempts[1..][j - 1];
      i := rest + 1;
    }
  }

  // ---------- trails and logs ----------

  /** Each status may follow the one before it. */
  ghost predicate OnTable(trail: seq<Status>) {
    forall i :: 0 <= i < |trail| - 1 ==> MayMove(trail[i], trail[i + 1])
  }

  /** Each log line starts where the one before it ended. */
  ghost predicate Chained(logs: seq<Log>) {
    forall i :: 0 <= i < |logs| - 1 ==> logs[i + 1].from == Some(logs[i].to)
  }

  function Last(logs: seq<Log>): Status
    requires logs != []
  {
    logs[|logs| - 1].to
  }

  /** The log is one path, and it ends where the transaction is. */
  ghost predicate Honest(t: Txn) {
    t.logs != [] && Chained(t.logs) && Last(t.logs) == t.status
  }

  /** The moves that the table forbids and the code makes. */
  predicate KnownException(from: Status, to: Status) {
    || (from == Failed && to == Captured)
    || (from in {SettlementProcessing, ManualReview} && to == SettlementPending)
  }

  ghost predicate EdgesKnown(trail: seq<Status>) {
    forall i :: 0 <= i < |trail| - 1 ==> MayMove(trail[i], trail[i + 1]) || KnownException(trail[i], trail[i + 1])
  }

  /** Every line of the log, taken by itself, is an edge of the table. */
  ghost predicate LinesOnTable(logs: seq<Log>) {
    forall i :: 0 <= i < |logs| ==> if i == 0 then logs[i] == Log(None, Processing)
                                    else logs[i].from.Some? && MayMove(logs[i].from.value, logs[i].to)
  }

  ghost predicate TrailFits(t: Txn) {
    && t.trail != [] && t.trail[|t.trail| - 1] == t.status && EdgesKnown(t.trail)
    && t.logs != [] && LinesOnTable(t.logs)
    && (Last(t.logs) == t.status || (t.status == Captured && Last(t.logs) == Failed))
  }

  /** Two states of one transaction are both right or both wrong. */
  ghost predicate AsRight(t: Txn, u: Txn) {
    (OnTable(u.trail) <==> OnTable(t.trail)) && (Honest(u) <==> Honest(t))
  }

  lemma OneMore(trail: seq<Status>, to: Status)
    requires trail != []
    ensures OnTable(trail + [to]) <==> OnTable(trail) && MayMove(trail[|trail| - 1], to)
    ensures EdgesKnown(trail) && (MayMove(trail[|trail| - 1], to) || KnownException(trail[|trail| - 1], to)) ==>
              EdgesKnown(trail + [to])
  {
    var n, longer := |trail| - 1, trail + [to];
    assert longer[n] == trail[n] && longer[n + 1] == to;
    assert longer[..n + 1] == trail;
  }

  lemma OneMoreLine(logs: seq<Log>, line: Log)
    requires logs != []
    ensures Chained(logs + [line]) <==> Chained(logs) && line.from == Some(Last(logs))
    ensures LinesOnTable(logs) && line.from.Some? && MayMove(line.from.value, line.to) ==> LinesOnTable(logs + [line])
  {
    var n, longer := |logs| - 1, logs + [line];
    assert longer[n] == logs[n] && longer[n + 1] == line;
    assert longer[..n + 1] == logs;
  }

  /** A logged move along the table repairs nothing and breaks nothing. */
  lemma MoveIsAsRight(t: Txn, u: Txn)
    requires TrailFits(t) && MayMove(t.status, u.status)
    requires u.trail == t.trail + [u.status] && u.logs == t.logs + [Log(Some(t.status), u.status)]
    ensures TrailFits(u) && AsRight(t, u)
  {
    OneMore(t.trail, u.status);
    OneMoreLine(t.logs, Log(Some(t.status), u.status));
  }

  /** A rescue is not on the table and leaves a log that ends elsewhere. */
  lemma RescueIsWrong(t: Txn, u: Txn)
    requires TrailFits(t) && t.status == Failed && u.status == Captured
    requires u.trail == t.trail + [Captured] && u.logs == t.logs
    ensures TrailFits(u) && !OnTable(u.trail) && !Honest(u)
  {
    OneMore(t.trail, Captured);
  }

  /** Parking after the engine has moved the status is not on the table, and its log line starts elsewhere. */
  lemma LateParkIsWrong(t: Txn)
    requires TrailFits(t) && t.status in {SettlementProcessing, ManualReview}
    ensures TrailFits(Parked(t)) && !OnTable(Parked(t).trail) && !Honest(Parked(t))
  {
    OneMore(t.trail, SettlementPending);
    OneMoreLine(t.logs, Log(Some(Captured), SettlementPending));
  }

  /** The engine by itself moves along the table. */
  lemma EngineIsAsRight(t: Txn, c: Conditions)
    requires TrailFits(t) && t.status in {Captured, SettlementPending} && !IsPaidOut(t)
    ensures TrailFits(PrepareAndSettle(t, c).txn) && AsRight(t, PrepareAndSettle(t, c).txn)
  {
    var priced, r := Priced(t, c.feePercent), PrepareAndSettle(t, c);
    MoveIsAsRight(t, priced);
    if r.txn.status in {ManualReview, Completed} {
      MoveIsAsRight(priced, r.txn);
    }
  }

  /**
   A settlement attempt of a request leaves trail and log right exactly if they were and the attempt does not begin and
   fail.
   */
  lemma AttemptIsRightIff(t: Txn, c: Conditions)
    requires TrailFits(t) && t.status == Captured && t.settlement.None?
    ensures var u := TrySettle(t, c).txn;
            && TrailFits(u)
            && (OnTable(u.trail) <==> OnTable(t.trail) && !BeginsAndFails(t.amount, t.currency, c))
            && (Honest(u) <==> Honest(t) && !BeginsAndFails(t.amount, t.currency, c))
  {
    EngineIsAsRight(t, c);
    SettledIff(t, c);
    RowRejectedIff(t, c);
    var r := PrepareAndSettle(t, c);
    if BeginsAndFails(t.amount, t.currency, c) {
      LateParkIsWrong(r.txn);
    } else if r.verdict == SettleRaised {
      MoveIsAsRight(t, Parked(t));
    }
  }

  // ---------- one request ----------

  /** A success webhook whose one transaction is a declined one. */
  ghost predicate Rescues(l: Ledger, q: Request, id: Uuid) {
    && id in l.rows && l.rows[id].status == Failed
    && ((q.NowPaymentsWebhook? && q.success && NowPaymentsTarget(l.rows, q) == OneRow(id))
        || (q.MoyasarWebhook? && q.success && MoyasarTarget(l.rows, q) == OneRow(id)))
  }

  /** A taken charge or an acknowledged signature whose settlement attempt begins and fails. */
  ghost predicate ParksLate(l: Ledger, q: Request, id: Uuid) {
    || (Reaches(l, q) && q.id == id && q.reply.ChargeTaken?
        && BeginsAndFails(q.amount, Upper(q.currency), q.conditions))
    || (q.Sign? && q.id == id && Owned(l, q.merchant, id) && l.rows[id].status == Authorized && q.acknowledged
        && BeginsAndFails(l.rows[id].amount, l.rows[id].currency, q.conditions))
  }

  ghost predicate GoesWrong(l: Ledger, q: Request, id: Uuid) {
    Rescues(l, q, id) || ParksLate(l, q, id)
  }

  ghost predicate TrailsFit(l: Ledger) {
    forall id :: id in l.rows ==> TrailFits(l.rows[id])
  }

  /** The row `u` that a step leaves under `id` is right exactly if the row was and the step does not go wrong on it. */
  ghost predicate RightIff(l: Ledger, q: Request, id: Uuid, u: Txn) {
    && TrailFits(u)
    && (OnTable(u.trail) <==> (id in l.rows ==> OnTable(l.rows[id].trail)) && !GoesWrong(l, q, id))
    && (Honest(u) <==> (id in l.rows ==> Honest(l.rows[id])) && !GoesWrong(l, q, id))
  }

  lemma OpenedIsRight(merchant: Uuid, q: Request)
    requires q.Create?
    ensures var t := Opened(merchant, q);
            TrailFits(t) && OnTable(t.trail) && Honest(t)
  {
  }

  lemma CreateIsRightIff(l: Ledger, q: Request)
    requires Inv(l) && Fresh(l, q) && Reaches(l, q) && q.id in Step(l, q).ledger.rows
    ensures RightIff(l, q, q.id, Step(l, q).ledger.rows[q.id])
  {
    var m := q.merchant.value;
    OpenedIsRight(m, q);
    var t := Opened(m, q).(gatewayReference := Some(q.reply.gatewayReference));
    assert TrailFits(t) && OnTable(t.trail) && Honest(t);
    match q.reply
    case ChargeDeclined(_) => MoveIsAsRight(t, Moved(t, Failed));
    case ChargeHeld(_) => MoveIsAsRight(t, Moved(t, Authorized));
    case ChargeTaken(_) =>
      var captured := Moved(t, Captured).(receiptNumber := Some(q.receipt));
      MoveIsAsRight(t, captured);
      AttemptIsRightIff(captured, q.conditions);
      EngineKeepsId(captured, q.conditions);
  }

  /** Keeping a settlement attempt: its row is stored, unless the database refuses what it writes. */
  lemma SettledRow(l: Ledger, t: Txn, c: Conditions)
    requires t.status == Captured && t.settlement.None?
    ensures SettledStep(l, t, c).ledger.rows
         == if TrySettle(t, c).verdict == RowRejected then l.rows else l.rows[t.id := TrySettle(t, c).txn]
    ensures BeginsAndFails(t.amount, t.currency, c) ==> TrySettle(t, c).verdict != RowRejected
  {
    RowRejectedIff(t, c);
    EngineKeepsId(t, c);
  }

  lemma SignGoesWrongIff(l: Ledger, q: Request)
    requires q.Sign? && q.id in l.rows
    ensures GoesWrong(l, q, q.id) <==>
              && Owned(l, q.merchant, q.id) && l.rows[q.id].status == Authorized && q.acknowledged
              && BeginsAndFails(l.rows[q.id].amount, l.rows[q.id].currency, q.conditions)
  {
  }

  lemma SignIsRightIff(l: Ledger, q: Request)
    requires Inv(l) && TrailsFit(l) && q.Sign? && q.id in l.rows
    ensures q.id in SignStep(l, q).ledger.rows && RightIff(l, q, q.id, SignStep(l, q).ledger.rows[q.id])
  {
    var t := l.rows[q.id];
    if Owned(l, q.merchant, q.id) && t.status == Authorized && q.acknowledged {
      var receipt := if Truthy(t.receiptNumber) then t.receiptNumber else Some(q.receipt);
      var captured := Moved(t, Captured).(receiptNumber := receipt);
      MoveIsAsRight(t, captured);
      AttemptIsRightIff(captured, q.conditions);
      SettledRow(l, captured, q.conditions);
    }
    SignGoesWrongIff(l, q);
  }

  /** A step that only moves a row along the table, or leaves it, never goes wrong on it. */
  lemma MovedIsRightIff(l: Ledger, q: Request, id: Uuid, u: Txn)
    requires TrailsFit(l) && id in l.rows && !GoesWrong(l, q, id)
    requires u == l.rows[id] || (MayMove(l.rows[id].status, u.status) && u == Moved(l.rows[id], u.status))
    ensures RightIff(l, q, id, u)
  {
    if u != l.rows[id] {
      MoveIsAsRight(l.rows[id], u);
    }
  }

  lemma CancelIsRightIff(l: Ledger, q: Request)
    requires TrailsFit(l) && q.Cancel? && q.id in l.rows
    ensures q.id in CancelStep(l, q).ledger.rows && RightIff(l, q, q.id, CancelStep(l, q).ledger.rows[q.id])
  {
    assert !GoesWrong(l, q, q.id);
    MovedIsRightIff(l, q, q.id, CancelStep(l, q).ledger.rows[q.id]);
  }

  lemma RefundIsRightIff(l: Ledger, q: Request)
    requires TrailsFit(l) && q.Refund? && q.id in l.rows
    ensures q.id in RefundStep(l, q).ledger.rows && RightIff(l, q, q.id, RefundStep(l, q).ledger.rows[q.id])
  {
    assert !GoesWrong(l, q, q.id);
    MovedIsRightIff(l, q, q.id, RefundStep(l, q).ledger.rows[q.id]);
  }

  lemma TaskIsRightIff(l: Ledger, q: Request)
    requires Inv(l) && TrailsFit(l) && q.SettleTask? && q.id in l.rows
    ensures q.id in TaskStep(l, q).ledger.rows && RightIff(l, q, q.id, TaskStep(l, q).ledger.rows[q.id])
  {
    var t := l.rows[q.id];
    SettlementKeeps(t, q.conditions);
    if PrepareAndSettle(t, q.conditions).verdict == Settled {
      EngineIsAsRight(t, q.conditions);
    }
  }

  /** At rest a webhook changes a row only by rescuing it. */
  lemma WebhookRescuesOrKeeps(l: Ledger, target: Found, q: Request, id: Uuid)
    requires Inv(l) && id in l.rows && (q.NowPaymentsWebhook? || q.MoyasarWebhook?)
    requires target.OneRow? ==> target.id in l.rows
    ensures var u := WebhookStep(l, target, q).ledger.rows;
            && id in u
            && if q.success && target == OneRow(id) && l.rows[id].status == Failed
               then u[id].status == Captured && u[id].trail == l.rows[id].trail + [Captured]
                 && u[id].logs == l.rows[id].logs
               else u[id] == l.rows[id]
  {
  }

  lemma WebhookIsRightIff(l: Ledger, target: Found, q: Request, id: Uuid)
    requires Inv(l) && TrailsFit(l) && id in l.rows
    requires || (q.NowPaymentsWebhook? && target == NowPaymentsTarget(l.rows, q))
             || (q.MoyasarWebhook? && target == MoyasarTarget(l.rows, q))
    requires target.OneRow? ==> target.id in l.rows
    ensures id in WebhookStep(l, target, q).ledger.rows && RightIff(l, q, id, WebhookStep(l, target, q).ledger.rows[id])
  {
    WebhookRescuesOrKeeps(l, target, q, id);
    if Rescues(l, q, id) {
      RescueIsWrong(l.rows[id], WebhookStep(l, target, q).ledger.rows[id]);
    } else {
      MovedIsRightIff(l, q, id, l.rows[id]);
    }
  }

  /**
   A step leaves a row's trail on the table, and its log one path to its status, exactly if they were so before and the
   step neither rescues the row nor begins a settlement of it that fails. So a broken log is never repaired.
   */
  lemma StepIsRightIff(l: Ledger, q: Request, id: Uuid)
    requires Inv(l) && TrailsFit(l) && Fresh(l, q) && id in Step(l, q).ledger.rows
    ensures RightIff(l, q, id, Step(l, q).ledger.rows[id])
  {
    if q.NowPaymentsWebhook? {
      WebhookIsRightIff(l, NowPaymentsTarget(l.rows, q), q, id);
    } else if q.MoyasarWebhook? {
      WebhookIsRightIff(l, MoyasarTarget(l.rows, q), q, id);
    } else if q.Create? {
      StepOfCreate(l, q, id);
    } else if q.id != id {
      OtherStepIsRightIff(l, q, id);
    } else {
      OwnStepIsRightIff(l, q);
    }
  }

  lemma OtherStepIsRightIff(l: Ledger, q: Request, id: Uuid)
    requires Inv(l) && TrailsFit(l) && (q.Sign? || q.Cancel? || q.Refund? || q.SettleTask?) && q.id != id
    requires id in Step(l, q).ledger.rows
    ensures RightIff(l, q, id, Step(l, q).ledger.rows[id])
  {
    assert id in l.rows by {
      NoNewRows(l, q, id);
    }
    OtherRowsStay(l, q, id);
    GoesWrongOnItsOwn(l, q, id);
    MovedIsRightIff(l, q, id, l.rows[id]);
  }

  lemma GoesWrongOnItsOwn(l: Ledger, q: Request, id: Uuid)
    requires (q.Sign? || q.Cancel? || q.Refund? || q.SettleTask?) && q.id != id
    ensures !GoesWrong(l, q, id)
  {
  }

  lemma NoNewRows(l: Ledger, q: Request, id: Uuid)
    requires Inv(l) && (q.Sign? || q.Cancel? || q.Refund? || q.SettleTask?)
    ensures id in Step(l, q).ledger.rows ==> id in l.rows
  {
    if q.Sign? && Owned(l, q.merchant, q.id) {
      var t := l.rows[q.id];
      var receipt := if Truthy(t.receiptNumber) then t.receiptNumber else Some(q.receipt);
      EngineKeepsId(Moved(t, Captured).(receiptNumber := receipt), q.conditions);
    } else if q.SettleTask? && q.id in l.rows {
      SettlementKeeps(l.rows[q.id], q.conditions);
    }
  }

  lemma OwnStepIsRightIff(l: Ledger, q: Request)
    requires Inv(l) && TrailsFit(l) && (q.Sign? || q.Cancel? || q.Refund? || q.SettleTask?)
    requires q.id in Step(l, q).ledger.rows
    ensures RightIff(l, q, q.id, Step(l, q).ledger.rows[q.id])
  {
    NoNewRows(l, q, q.id);
    match q
    case Sign(_, _, _, _, _) => SignIsRightIff(l, q);
    case Cancel(_, _) => CancelIsRightIff(l, q);
    case Refund(_, _, _, _) => RefundIsRightIff(l, q);
    case SettleTask(_, _) => TaskIsRightIff(l, q);
  }

  lemma StepOfCreate(l: Ledger, q: Request, id: Uuid)
    requires Inv(l) && TrailsFit(l) && Fresh(l, q) && q.Create? && id in Step(l, q).ledger.rows
    ensures RightIff(l, q, id, Step(l, q).ledger.rows[id])
  {
    if id in l.rows {
      CreateKeepsRows(l, q, id);
    } else {
      OnlyItsRowIsNew(l, q, id);
      CreateIsRightIff(l, q);
    }
  }

  lemma OnlyItsRowIsNew(l: Ledger, q: Request, id: Uuid)
    requires q.Create? && id in Step(l, q).ledger.rows && id !in l.rows
    ensures id == q.id && Reaches(l, q)
  {
    if Reaches(l, q) && q.reply.ChargeTaken? {
      var t := Moved(Opened(q.merchant.value, q).(gatewayReference := Some(q.reply.gatewayReference)), Captured);
      EngineKeepsId(t.(receiptNumber := Some(q.receipt)), q.conditions);
    }
  }

  // ---------- whole runs ----------

  lemma {:induction false} TrailsAlwaysFit(ls: seq<Ledger>, qs: seq<Request>, k: nat)
    requires IsRun(ls, qs) && k < |ls|
    ensures TrailsFit(ls[k])
  {
    if k > 0 {
      TrailsAlwaysFit(ls, qs, k - 1);
      EveryLedgerIsSafe(ls, qs, k - 1);
      forall id | id in ls[k].rows
        ensures TrailFits(ls[k].rows[id])
      {
        StepIsRightIff(ls[k - 1], qs[k - 1], id);
      }
    }
  }

  /**
   In every run: each line of a log is an edge of the table, and each status ever assigned, also within a request,
   follows the one before it along the table, except for a rescue from FAILED and for parking from
   SETTLEMENT_PROCESSING or MANUAL_REVIEW.
   */
  lemma EveryLineIsOnTable(ls: seq<Ledger>, qs: seq<Request>, k: nat, id: Uuid)
    requires IsRun(ls, qs) && k < |ls| && id in ls[k].rows
    ensures var t := ls[k].rows[id];
            && (forall i :: 0 <= i < |t.logs| ==> t.logs[i].from.Some? ==> MayMove(t.logs[i].from.value, t.logs[i].to))
            && (forall i :: 0 <= i < |t.trail| - 1 ==>
                  MayMove(t.trail[i], t.trail[i + 1]) || KnownException(t.trail[i], t.trail[i + 1]))
            && (forall from, to :: KnownException(from, to) ==> !MayMove(from, to))
  {
    TrailsAlwaysFit(ls, qs, k);
  }

  /** What goes wrong goes wrong on a stored row. */
  lemma WrongIsStored(l: Ledger, q: Request, id: Uuid)
    requires Inv(l) && Fresh(l, q) && GoesWrong(l, q, id)
    ensures id in Step(l, q).ledger.rows
  {
    if q.Create? {
      assert RowIsKept(q);
      ChargedCreate(l, q);
    } else {
      OneStepEvolves(l, q, id);
    }
  }

  /** None of the first `k` steps of the run goes wrong on the row. */
  ghost predicate NothingWrong(ls: seq<Ledger>, qs: seq<Request>, id: Uuid, k: nat)
    requires k <= |ls| && k <= |qs|
  {
    k == 0 || (NothingWrong(ls, qs, id, k - 1) && !GoesWrong(ls[k - 1], qs[k - 1], id))
  }

  lemma {:induction false} NothingWrongBefore(ls: seq<Ledger>, qs: seq<Request>, k: nat, j: nat, id: Uuid)
    requires IsRun(ls, qs) && j <= k < |ls| && id !in ls[k].rows
    ensures NothingWrong(ls, qs, id, j)
  {
    if j > 0 {
      NothingWrongBefore(ls, qs, k, j - 1, id);
      EveryLedgerIsSafe(ls, qs, j - 1);
      if GoesWrong(ls[j - 1], qs[j - 1], id) {
        WrongIsStored(ls[j - 1], qs[j - 1], id);
        RowsEvolve(ls, qs, j, k, id);
      }
    }
  }

  lemma OneMoreStep(ls: seq<Ledger>, qs: seq<Request>, id: Uuid, k: nat)
    requires 0 < k <= |ls| && k <= |qs|
    ensures NothingWrong(ls, qs, id, k)
            <==> NothingWrong(ls, qs, id, k - 1) && !GoesWrong(ls[k - 1], qs[k - 1], id)
  {
  }

  lemma StepOfRun(ls: seq<Ledger>, qs: seq<Request>, k: nat, id: Uuid) returns (wrong: bool)
    requires IsRun(ls, qs) && 0 < k < |ls| && id in ls[k].rows
    ensures NothingWrong(ls, qs, id, k) <==> NothingWrong(ls, qs, id, k - 1) && !wrong
    ensures var u, before := ls[k].rows[id], ls[k - 1].rows;
            && (OnTable(u.trail) <==> (id in before ==> OnTable(before[id].trail)) && !wrong)
            && (Honest(u) <==> (id in before ==> Honest(before[id])) && !wrong)
  {
    TrailsAlwaysFit(ls, qs, k - 1);
    EveryLedgerIsSafe(ls, qs, k - 1);
    StepIsRightIff(ls[k - 1], qs[k - 1], id);
    wrong := GoesWrong(ls[k - 1], qs[k - 1], id);
    OneMoreStep(ls, qs, id, k);
  }

  /**
   Over a whole run a transaction has stayed on the table, and its log is one path to its status, exactly if no step so
   far rescued it or began a settlement of it that failed.
   */
  lemma {:induction false} RightIffNothingWentWrong(ls: seq<Ledger>, qs: seq<Request>, k: nat, id: Uuid)
    requires IsRun(ls, qs) && k < |ls| && id in ls[k].rows
    ensures k > 0
    ensures OnTable(ls[k].rows[id].trail) <==> NothingWrong(ls, qs, id, k)
    ensures Honest(ls[k].rows[id]) <==> NothingWrong(ls, qs, id, k)
  {
    var wrong := StepOfRun(ls, qs, k, id);
    if id in ls[k - 1].rows {
      RightIffNothingWentWrong(ls, qs, k - 1, id);
    } else {
      NothingWrongBefore(ls, qs, k - 1, k - 1, id);
    }
  }

  // ---------- cancelled payments ----------

  /** Before anything has tried to settle it, a payment has one of few trails. */
  ghost predicate EarlyTrail(t: Txn) {
    && |t.trail| >= 2
    && match t.status
    case Failed => t.trail == [Processing, Failed]
    case Authorized => t.trail == [Processing, Authorized]
    case Captured => t.trail == [Processing, Failed, Captured]
    case Cancelled => t.trail in {[Processing, Authorized, Cancelled], [Processing, Failed, Captured, Cancelled]}
    case _ => true
  }

  ghost predicate EarlyTrails(l: Ledger) {
    forall id :: id in l.rows ==> EarlyTrail(l.rows[id])
  }

  /** The payment is cancelled and its charge was captured: nothing on the way tells the gateway. */
  ghost predicate KeepsCharge(t: Txn) {
    t.status == Cancelled && Captured in t.trail
  }

  lemma AttemptIsEarly(t: Txn, c: Conditions)
    requires TxnFits(t) && t.status == Captured && t.settlement.None? && |t.trail| >= 2
    ensures var r := TrySettle(t, c);
            t.trail <= r.txn.trail && (r.verdict != RowRejected ==> EarlyTrail(r.txn))
  {
    SettlementEvolves(t, c);
    TrySettleKeeps(t, c);
  }

  lemma CreatedIsEarly(l: Ledger, q: Request)
    requires Fresh(l, q) && Reaches(l, q) && q.id in Step(l, q).ledger.rows
    ensures var t := Step(l, q).ledger.rows[q.id];
            EarlyTrail(t) && (t.trail[1] == Failed ==> |t.trail| == 2)
  {
    var t := Opened(q.merchant.value, q).(gatewayReference := Some(q.reply.gatewayReference));
    if q.reply.ChargeTaken? {
      var captured := Moved(t, Captured).(receiptNumber := Some(q.receipt));
      SettledRow(l, captured, q.conditions);
      AttemptIsEarly(captured, q.conditions);
      EngineKeepsId(captured, q.conditions);
    }
  }

  lemma SignedIsEarly(l: Ledger, q: Request)
    requires Inv(l) && EarlyTrails(l) && q.Sign? && q.id in l.rows
    ensures q.id in SignStep(l, q).ledger.rows && EarlyTrail(SignStep(l, q).ledger.rows[q.id])
  {
    var t := l.rows[q.id];
    if Owned(l, q.merchant, q.id) && t.status == Authorized && q.acknowledged {
      var receipt := if Truthy(t.receiptNumber) then t.receiptNumber else Some(q.receipt);
      var captured := Moved(t, Captured).(receiptNumber := receipt);
      SettledRow(l, captured, q.conditions);
      AttemptIsEarly(captured, q.conditions);
      EngineKeepsId(captured, q.conditions);
    }
  }

  lemma CancelIsEarly(t: Txn)
    requires EarlyTrail(t) && AtRest(t) && MayMove(t.status, Cancelled)
    ensures EarlyTrail(Moved(t, Cancelled)) && (KeepsCharge(Moved(t, Cancelled)) <==> t.status == Captured)
  {
    var trail := Moved(t, Cancelled).trail;
    if t.status == Captured {
      assert trail == [Processing, Failed, Captured, Cancelled] && trail[2] == Captured;
    } else {
      assert trail == [Processing, Authorized, Cancelled];
    }
  }

  lemma CancelledIsEarly(l: Ledger, q: Request)
    requires Inv(l) && EarlyTrails(l) && q.Cancel? && q.id in l.rows
    ensures q.id in CancelStep(l, q).ledger.rows && EarlyTrail(CancelStep(l, q).ledger.rows[q.id])
    ensures CancelStep(l, q).response.Done? ==>
              && CancelStep(l, q).ledger.rows[q.id].status == Cancelled
              && (KeepsCharge(CancelStep(l, q).ledger.rows[q.id]) <==> l.rows[q.id].status == Captured)
  {
    if MayMove(l.rows[q.id].status, Cancelled) {
      CancelIsEarly(l.rows[q.id]);
    }
  }

  lemma WebhookIsEarly(l: Ledger, target: Found, q: Request, id: Uuid)
    requires Inv(l) && EarlyTrails(l) && id in l.rows && (q.NowPaymentsWebhook? || q.MoyasarWebhook?)
    requires target.OneRow? ==> target.id in l.rows
    ensures id in WebhookStep(l, target, q).ledger.rows && EarlyTrail(WebhookStep(l, target, q).ledger.rows[id])
  {
    WebhookRescuesOrKeeps(l, target, q, id);
  }

  lemma StepIsEarly(l: Ledger, q: Request, id: Uuid)
    requires Inv(l) && EarlyTrails(l) && Fresh(l, q) && id in Step(l, q).ledger.rows
    ensures EarlyTrail(Step(l, q).ledger.rows[id])
  {
    if q.NowPaymentsWebhook? {
      WebhookIsEarly(l, NowPaymentsTarget(l.rows, q), q, id);
    } else if q.MoyasarWebhook? {
      WebhookIsEarly(l, MoyasarTarget(l.rows, q), q, id);
    } else if q.Create? {
      if id in l.rows {
        CreateKeepsRows(l, q, id);
      } else {
        OnlyItsRowIsNew(l, q, id);
        CreatedIsEarly(l, q);
      }
    } else {
      NoNewRows(l, q, id);
      if q.id != id {
        OtherRowsStay(l, q, id);
      } else {
        OwnStepIsEarly(l, q);
      }
    }
  }

  lemma OwnStepIsEarly(l: Ledger, q: Request)
    requires Inv(l) && EarlyTrails(l) && (q.Sign? || q.Cancel? || q.Refund? || q.SettleTask?) && Fresh(l, q)
    requires q.id in l.rows && q.id in Step(l, q).ledger.rows
    ensures EarlyTrail(Step(l, q).ledger.rows[q.id])
  {
    if q.Sign? {
      SignedIsEarly(l, q);
    } else if q.SettleTask? {
      OneStepEvolves(l, q, q.id);
      SettlementKeeps(l.rows[q.id], q.conditions);
    } else if q.Cancel? {
      CancelledIsEarly(l, q);
    }
  }

  lemma {:induction false} TrailsAreEarly(ls: seq<Ledger>, qs: seq<Request>, k: nat)
    requires IsRun(ls, qs) && k < |ls|
    ensures EarlyTrails(ls[k])
  {
    if k > 0 {
      TrailsAreEarly(ls, qs, k - 1);
      EveryLedgerIsSafe(ls, qs, k - 1);
      forall id | id in ls[k].rows
        ensures EarlyTrail(ls[k].rows[id])
      {
        StepIsEarly(ls[k - 1], qs[k - 1], id);
      }
    }
  }

  /** A granted cancel keeps the customer's captured charge exactly when it found the payment captured. */
  lemma CancelKeepsChargeIff(ls: seq<Ledger>, qs: seq<Request>, i: nat)
    requires IsRun(ls, qs) && i < |qs| && qs[i].Cancel? && Step(ls[i], qs[i]).response.Done?
    ensures qs[i].id in ls[i].rows && qs[i].id in ls[i + 1].rows && ls[i + 1].rows[qs[i].id].status == Cancelled
    ensures KeepsCharge(ls[i + 1].rows[qs[i].id]) <==> ls[i].rows[qs[i].id].status == Captured
  {
    TrailsAreEarly(ls, qs, i);
    EveryLedgerIsSafe(ls, qs, i);
    CancelledIsEarly(ls[i], qs[i]);
  }

  lemma OnlyRescuesRevive(l: Ledger, q: Request, id: Uuid)
    requires Inv(l) && Fresh(l, q) && id in l.rows && l.rows[id].status == Failed
    requires id in Step(l, q).ledger.rows && Step(l, q).ledger.rows[id].trail != l.rows[id].trail
    ensures Rescues(l, q, id)
  {
    if q.NowPaymentsWebhook? {
      WebhookRescuesOrKeeps(l, NowPaymentsTarget(l.rows, q), q, id);
    } else if q.MoyasarWebhook? {
      WebhookRescuesOrKeeps(l, MoyasarTarget(l.rows, q), q, id);
    } else if q.Create? {
      CreateKeepsRows(l, q, id);
    } else if q.id != id {
      OtherRowsStay(l, q, id);
    } else if q.SettleTask? {
      SettlementKeeps(l.rows[id], q.conditions);
    }
  }

  predicate StartsRescued(trail: seq<Status>) {
    |trail| >= 3 && trail[0] == Processing && trail[1] == Failed && trail[2] == Captured
  }

  lemma NewRowIsNotRescued(l: Ledger, q: Request, id: Uuid)
    requires Inv(l) && Fresh(l, q) && id !in l.rows && id in Step(l, q).ledger.rows
    ensures var trail := Step(l, q).ledger.rows[id].trail;
            |trail| >= 2 && (trail[1] == Failed ==> |trail| == 2)
  {
    if q.Create? {
      OnlyItsRowIsNew(l, q, id);
      CreatedIsEarly(l, q);
    } else if q.Sign? || q.Cancel? || q.Refund? || q.SettleTask? {
      NoNewRows(l, q, id);
    }
  }

  /** Such a trail was there before the step, or the step is the rescue. */
  lemma RescuedBefore(l: Ledger, q: Request, id: Uuid)
    requires Inv(l) && EarlyTrails(l) && TrailsFit(l) && Fresh(l, q) && id in Step(l, q).ledger.rows
    requires StartsRescued(Step(l, q).ledger.rows[id].trail)
    ensures id in l.rows && (StartsRescued(l.rows[id].trail) || Rescues(l, q, id))
  {
    if id in l.rows {
      OneStepEvolves(l, q, id);
      if |l.rows[id].trail| == 2 {
        OnlyRescuesRevive(l, q, id);
      }
    } else {
      NewRowIsNotRescued(l, q, id);
    }
  }

  lemma {:induction false} WasRescued(ls: seq<Ledger>, qs: seq<Request>, k: nat, id: Uuid) returns (j: nat)
    requires IsRun(ls, qs) && k < |ls| && id in ls[k].rows && StartsRescued(ls[k].rows[id].trail)
    ensures j < k && Rescues(ls[j], qs[j], id)
  {
    TrailsAreEarly(ls, qs, k - 1);
    TrailsAlwaysFit(ls, qs, k - 1);
    EveryLedgerIsSafe(ls, qs, k - 1);
    RescuedBefore(ls[k - 1], qs[k - 1], id);
    j := k - 1;
    if !Rescues(ls[k - 1], qs[k - 1], id) {
      j := WasRescued(ls, qs, k - 1, id);
    }
  }

  /** A cancelled payment kept a captured charge exactly if a webhook rescued it, at step `j`, after it was declined. */
  lemma CancelledKeepsChargeIff(ls: seq<Ledger>, qs: seq<Request>, k: nat, id: Uuid) returns (j: nat)
    requires IsRun(ls, qs) && k < |ls| && id in ls[k].rows && ls[k].rows[id].status == Cancelled
    ensures var t := ls[k].rows[id];
            if KeepsCharge(t) then
              t.trail == [Processing, Failed, Captured, Cancelled] && j < k && Rescues(ls[j], qs[j], id)
            else t.trail == [Processing, Authorized, Cancelled]
  {
    TrailsAreEarly(ls, qs, k);
    j := 0;
    if KeepsCharge(ls[k].rows[id]) {
      j := WasRescued(ls, qs, k, id);
    }
  }

  /** No later state refunds a cancelled payment, and every later refund of it is refused. */
  lemma CancelledIsNeverRefunded(ls: seq<Ledger>, qs: seq<Request>, k: nat, j: nat, id: Uuid, q: Request)
    requires IsRun(ls, qs) && k <= j < |ls| && id in ls[k].rows && ls[k].rows[id].status == Cancelled
    requires q.Refund? && q.id == id
    ensures id in ls[j].rows && ls[j].rows[id] == ls[k].rows[id]
    ensures forall i :: 0 <= i < |ls[j].refunds| ==> ls[j].refunds[i].txn != id
    ensures Step(ls[j], q).ledger == ls[j] && Step(ls[j], q).response.Rejected?
  {
    RowsEvolve(ls, qs, k, j, id);
    EveryLedgerIsSafe(ls, qs, j);
  }
}
