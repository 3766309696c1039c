/**
 The administrator's dashboard: terminal sessions and payments are sorted into five buckets and into a series of days.
 Instants are in UTC and amounts are integers, so sums are exact.
 */
module Dashboard {
  import opened Common
  import SM = TerminalStateMachine
  import opened SessionListing
  import opened SessionStore
  import TerminalSessions
  import TerminalSafety

  datatype Bucket = Approved | Declined | Refunded | Voided | Pending

  /** A point in time: the calendar day it falls on, counted from some fixed one, and the time of day. */
  datatype Instant = Instant(day: int, time: int) {
    predicate Before(other: Instant) {
      day < other.day || (day == other.day && time < other.time)
    }

    function PlusDays(days: int): Instant {
      Instant(day + days, time)
    }
  }

  /** The instant of a clock that counts seconds. */
  function At(seconds: int): Instant {
    Instant(seconds / 86400, seconds % 86400)
  }

  lemma AtKeepsOrder(a: int, b: int)
    ensures At(a).Before(At(b)) <==> a < b
  {
  }

  /** A session or a payment as the dashboard reads it; a payment may carry no date. */
  datatype Record = Record(status: string, at: Option<Instant>, amount: int)

  /** A stored row: when it was created, by which the dashboard cuts, and what it reads from it. */
  datatype Row = Row(createdAt: Instant, record: Record)

  const SESSION_LIMIT: nat := 1000
  const PAYMENT_LIMIT: nat := 2000

  function RecordsOf(rows: seq<Row>): (rs: seq<Record>)
    ensures |rs| == |rows| && forall i :: 0 <= i < |rs| ==> rs[i] == rows[i].record
  {
    if rows == [] then [] else RecordsOf(rows[..|rows| - 1]) + [rows[|rows| - 1].record]
  }

  function SessionRow(s: TerminalSessions.Session): Row {
    Row(At(s.createdAt), Record(StateName(s.state), Some(At(s.createdAt)), s.amountMinor))
  }

  function SessionRows(sessions: seq<TerminalSessions.Session>): (rows: seq<Row>)
    ensures |rows| == |sessions| && forall i :: 0 <= i < |rows| ==> rows[i] == SessionRow(sessions[i])
  {
    if sessions == [] then [] else SessionRows(sessions[..|sessions| - 1]) + [SessionRow(sessions[|sessions| - 1])]
  }

  /** What a sum over records adds up: how many they are, or their amounts. */
  datatype Measure = Number | Volume

  datatype Point = Point(day: int, count: int, volume: int)

  datatype Report = Report(
    terminal: nat,
    legacy: nat,
    buckets: map<Bucket, int>,
    todayCount: int,
    todayVolume: int,
    totalVolume: int,
    series: seq<Point>)

  // ---------- buckets ----------

  const APPROVED: set<string> := {"APPROVED", "CAPTURED", "COMPLETED", "success", "paid", "captured",
                                  "settlement_complete", "authorized"}
  const DECLINED: set<string> := {"DECLINED", "declined", "failed"}
  const REFUNDED: set<string> := {"REFUNDED", "refunded", "partially_refunded"}
  const VOIDED: set<string> := {"VOIDED", "voided", "cancelled", "CANCELLED"}
  const PENDING: set<string> := {"PENDING", "pending", "processing", "CREATED", "AMOUNT_ENTERED", "PROTOCOL_SELECTED",
                                 "CARD_PRESENTED", "AUTHORIZING"}
  const FAILURES: set<string> := {"FAILED", "TIMEOUT", "ERROR"}

  predicate Among(name: string, names: set<string>) {
    name in names || Upper(name) in names
  }

  function BucketOf(status: string): Option<Bucket> {
    var name := Trim(status);
    if Among(name, APPROVED) then Some(Approved)
    else if Among(name, DECLINED) then Some(Declined)
    else if Among(name, REFUNDED) then Some(Refunded)
    else if Among(name, VOIDED) then Some(Voided)
    else if Among(name, PENDING) then Some(Pending)
    else if Upper(name) in FAILURES then Some(Declined)
    else None
  }

  lemma Listed(name: string)
    requires !Leads(name) && !Trails(name)
    requires name in APPROVED || name in DECLINED || name in REFUNDED || name in VOIDED
             || name in PENDING || Upper(name) in FAILURES
    ensures BucketOf(name).Some?
  {
  }

  lemma CardDataReadIsUnlisted(name: string)
    requires name == "CARD_DATA_READ"
    ensures BucketOf(name) == None
  {
    assert Upper(name) == name && Trim(name) == name;
    assert |name| == 14 && name[5] == 'D';
    assert name !in APPROVED && name !in DECLINED && name !in REFUNDED;
    assert name !in VOIDED && name !in PENDING && name !in FAILURES;
  }

  /** Exactly one state of a terminal session has no bucket. */
  lemma OneStateHasNoBucket(s: SM.State)
    ensures BucketOf(StateName(s)).None? <==> s == SM.CardDataRead
  {
    if s == SM.CardDataRead {
      CardDataReadIsUnlisted(StateName(s));
    } else {
      assert s == SM.Failed ==> Upper("FAILED") == "FAILED";
      Listed(StateName(s));
    }
  }

  predicate InNone(name: string, names: set<string>) {
    name !in names && Upper(name) !in names
  }

  lemma Place(name: string)
    requires !Leads(name) && !Trails(name)
    ensures Among(name, APPROVED) ==> BucketOf(name) == Some(Approved)
    ensures InNone(name, APPROVED) && Among(name, DECLINED) ==> BucketOf(name) == Some(Declined)
    ensures InNone(name, APPROVED + DECLINED) && Among(name, REFUNDED) ==> BucketOf(name) == Some(Refunded)
    ensures InNone(name, APPROVED + DECLINED + REFUNDED) && Among(name, VOIDED) ==> BucketOf(name) == Some(Voided)
    ensures InNone(name, APPROVED + DECLINED + REFUNDED + VOIDED) && Among(name, PENDING) ==>
              BucketOf(name) == Some(Pending)
    ensures InNone(name, APPROVED + DECLINED + REFUNDED + VOIDED + PENDING) ==>
              BucketOf(name) == if Upper(name) in FAILURES then Some(Declined) else None
  {
  }

  lemma InApproved(name: string)
    requires name in {"APPROVED", "CAPTURED", "COMPLETED"}
    ensures BucketOf(name) == Some(Approved)
  {
    Place(name);
  }

  lemma InDeclined(name: string)
    requires name == "DECLINED"
    ensures BucketOf(name) == Some(Declined)
  {
    assert Upper(name) == name && |name| == 8 && name[0] == 'D';
    assert name !in APPROVED;
    Place(name);
  }

  lemma InRefunded(name: string)
    requires name == "REFUNDED"
    ensures BucketOf(name) == Some(Refunded)
  {
    assert Upper(name) == name && |name| == 8 && name[0] == 'R';
    assert name !in APPROVED && name !in DECLINED;
    Place(name);
  }

  lemma InVoided(name: string)
    requires name in {"VOIDED", "CANCELLED"}
    ensures BucketOf(name) == Some(Voided)
  {
    assert Upper(name) == name;
    assert (|name| == 6 && name[0] == 'V') || (|name| == 9 && name[1] == 'A');
    assert name !in APPROVED && name !in DECLINED && name !in REFUNDED;
    Place(name);
  }

  lemma FailedIsDeclined(name: string)
    requires name == "FAILED"
    ensures BucketOf(name) == Some(Declined)
  {
    assert Upper(name) == name && |name| == 6 && name[0] == 'F';
    assert name !in APPROVED && name !in DECLINED && name !in REFUNDED && name !in VOIDED && name !in PENDING;
    Place(name);
  }

  lemma InPending(name: string)
    requires name in {"CREATED", "AMOUNT_ENTERED", "PROTOCOL_SELECTED", "CARD_PRESENTED", "AUTHORIZING"}
    ensures BucketOf(name) == Some(Pending)
  {
    assert Upper(name) == name;
    assert (|name| == 7 && name[0] == 'C') || |name| == 14 || |name| == 17 || |name| == 11;
    assert name !in APPROVED && name !in DECLINED && name !in REFUNDED && name !in VOIDED;
    Place(name);
  }

  /** The bucket of each state of a terminal session. */
  lemma SessionBucket(s: SM.State)
    ensures BucketOf(StateName(s))
         == match s
            case Created => Some(Pending)
            case AmountEntered => Some(Pending)
            case ProtocolSelected => Some(Pending)
            case CardPresented => Some(Pending)
            case CardDataRead => None
            case Authorizing => Some(Pending)
            case Approved => Some(Approved)
            case Declined => Some(Declined)
            case Captured => Some(Approved)
            case Completed => Some(Approved)
            case Voided => Some(Voided)
            case Refunded => Some(Refunded)
            case Cancelled => Some(Voided)
            case Failed => Some(Declined)
  {
    match s
    case Approved => InApproved(StateName(s));
    case Captured => InApproved(StateName(s));
    case Completed => InApproved(StateName(s));
    case Declined => InDeclined(StateName(s));
    case Refunded => InRefunded(StateName(s));
    case Voided => InVoided(StateName(s));
    case Cancelled => InVoided(StateName(s));
    case Failed => FailedIsDeclined(StateName(s));
    case CardDataRead => CardDataReadIsUnlisted(StateName(s));
    case _ => InPending(StateName(s));
  }

  // ---------- what the counters should say ----------

  function InBucket(rs: seq<Record>, b: Option<Bucket>): nat {
    if rs == [] then 0
    else
      var n := |rs| - 1;
      InBucket(rs[..n], b) + if BucketOf(rs[n].status) == b then 1 else 0
  }

  function Weight(m: Measure, r: Record): int {
    if m == Number then 1 else r.amount
  }

  /** Which records a sum is over. */
  datatype Span =
    | OfDay(day: int)
    | OfDaySince(day: int, start: Instant)
    | OfDayBefore(day: int, end: Instant)
    | SinceThrough(start: Instant, day: int)
    | Since(start: Instant)
  {
    predicate Has(r: Record) {
      && r.at.Some?
      && var at := r.at.value;
      match this
      case OfDay(day) => at.day == day
      case OfDaySince(day, start) => at.day == day && !at.Before(start)
      case OfDayBefore(day, end) => at.day == day && at.Before(end)
      case SinceThrough(start, day) => at.day <= day && !at.Before(start)
      case Since(start) => !at.Before(start)
    }
  }

  function Sum(m: Measure, rs: seq<Record>, span: Span): int {
    if rs == [] then 0
    else
      var n := |rs| - 1;
      Sum(m, rs[..n], span) + if span.Has(rs[n]) then Weight(m, rs[n]) else 0
  }

  function Amounts(rs: seq<Record>): int {
    if rs == [] then 0 else Amounts(rs[..|rs| - 1]) + rs[|rs| - 1].amount
  }

  function Max(a: int, b: int): int {
    if a < b then b else a
  }

  function Start(now: Instant, days: int): Instant {
    now.PlusDays(-Max(days - 1, 0))
  }

  // ---------- building the report ----------

  function Count(buckets: map<Bucket, int>, b: Bucket): int {
    if b in buckets then buckets[b] else 0
  }

  function Noted(perDay: map<int, int>, day: int): int {
    if day in perDay then perDay[day] else 0
  }

  datatype Totals = Totals(buckets: map<Bucket, int>, counts: map<int, int>, volumes: map<int, int>,
                           todayCount: int, todayVolume: int, total: int)

  function Placed(buckets: map<Bucket, int>, b: Option<Bucket>): map<Bucket, int> {
    if b.Some? then buckets[b.value := Count(buckets, b.value) + 1] else buckets
  }

  function Added(perDay: map<int, int>, start: Instant, at: Option<Instant>, weight: int): map<int, int> {
    if at.Some? && !at.value.Before(start) then perDay[at.value.day := Noted(perDay, at.value.day) + weight] else perDay
  }

  /** The counters after one more record. */
  function Note(t: Totals, r: Record, start: Instant, today: int): Totals {
    var bucket, isToday := BucketOf(r.status), r.at.Some? && r.at.value.day == today;
    Totals(Placed(t.buckets, bucket),
           Added(t.counts, start, r.at, 1), Added(t.volumes, start, r.at, r.amount),
           t.todayCount + (if isToday then 1 else 0), t.todayVolume + (if isToday then r.amount else 0),
           t.total + r.amount)
  }

  function After(rs: seq<Record>, start: Instant, today: int): Totals {
    if rs == [] then Totals(map[], map[], map[], 0, 0, 0)
    else Note(After(rs[..|rs| - 1], start, today), rs[|rs| - 1], start, today)
  }

  lemma AfterOne(rs: seq<Record>, r: Record, start: Instant, today: int)
    ensures After(rs + [r], start, today) == Note(After(rs, start, today), r, start, today)
  {
    assert (rs + [r])[..|rs|] == rs;
  }

  lemma AfterNext(before: seq<Record>, rs: seq<Record>, i: nat, start: Instant, today: int)
    requires i < |rs|
    ensures After(before + rs[..i + 1], start, today)
            == Note(After(before + rs[..i], start, today), rs[i], start, today)
  {
    AfterOne(before + rs[..i], rs[i], start, today);
    assert before + rs[..i + 1] == before + rs[..i] + [rs[i]];
  }

  // ---------- what the counters say ----------

  lemma {:induction false} BucketsCount(rs: seq<Record>, start: Instant, today: int, b: Bucket)
    ensures Count(After(rs, start, today).buckets, b) == InBucket(rs, Some(b))
  {
    if rs != [] {
      BucketsCount(rs[..|rs| - 1], start, today, b);
    }
  }

  lemma {:induction false} DaysCount(rs: seq<Record>, start: Instant, today: int, day: int)
    ensures Noted(After(rs, start, today).counts, day) == Sum(Number, rs, OfDaySince(day, start))
    ensures Noted(After(rs, start, today).volumes, day) == Sum(Volume, rs, OfDaySince(day, start))
  {
    if rs != [] {
      DaysCount(rs[..|rs| - 1], start, today, day);
    }
  }

  lemma {:induction false} TotalsCount(rs: seq<Record>, start: Instant, today: int)
    ensures var t := After(rs, start, today);
            && t.todayCount == Sum(Number, rs, OfDay(today))
            && t.todayVolume == Sum(Volume, rs, OfDay(today))
            && t.total == Amounts(rs)
  {
    if rs != [] {
      TotalsCount(rs[..|rs| - 1], start, today);
    }
  }

  /** One point for each of `days` days from the day of the start on, with what that day has since the start. */
  ghost predicate IsSeries(rs: seq<Record>, start: Instant, days: int, series: seq<Point>) {
    && |series| == Max(days, 0)
    && (forall i :: 0 <= i < days ==>
          && series[i].day == start.day + i
          && series[i].count == Sum(Number, rs, OfDaySince(series[i].day, start))
          && series[i].volume == Sum(Volume, rs, OfDaySince(series[i].day, start)))
  }

  method FillSeries(ghost rs: seq<Record>, start: Instant, ghost today: int, days: int, counts: map<int, int>,
                    volumes: map<int, int>)
    returns (series: seq<Point>)
    requires counts == After(rs, start, today).counts && volumes == After(rs, start, today).volumes
    ensures IsSeries(rs, start, days, series)
  {
    series := [];
    for i := 0 to Max(days, 0)
      invariant IsSeries(rs, start, i, series)
    {
      var day := start.PlusDays(i).day;
      series := series + [Point(day, Noted(counts, day), Noted(volumes, day))];
      DaysCount(rs, start, today, day);
    }
  }

  /** The body of both counting loops; a record without a date passes over the part about days. */
  method NoteRecord(t: Totals, r: Record, start: Instant, today: int) returns (after: Totals)
    ensures after == Note(t, r, start, today)
  {
    var Totals(buckets, counts, volumes, todayCount, todayVolume, total) := t;
    var bucket := BucketOf(r.status);
    if bucket.Some? {
      buckets := buckets[bucket.value := Count(buckets, bucket.value) + 1];
    }
    total := total + r.amount;
    if r.at.Some? {
      var day := r.at.value.day;
      if !r.at.value.Before(start) {
        counts := counts[day := Noted(counts, day) + 1];
        volumes := volumes[day := Noted(volumes, day) + r.amount];
      }
      if day == today {
        todayCount, todayVolume := todayCount + 1, todayVolume + r.amount;
      }
    }
    after := Totals(buckets, counts, volumes, todayCount, todayVolume, total);
  }

  /** One counting loop, going on from what was counted `before` it. */
  method TallyAll(ghost before: seq<Record>, rs: seq<Record>, start: Instant, today: int, soFar: Totals)
    returns (t: Totals)
    requires soFar == After(before, start, today)
    ensures t == After(before + rs, start, today)
  {
    t := soFar;
    assert before + rs[..0] == before;
    for i := 0 to |rs|
      invariant t == After(before + rs[..i], start, today)
    {
      AfterNext(before, rs, i, start, today);
      t := NoteRecord(t, rs[i], start, today);
    }
    assert rs[..|rs|] == rs;
  }

  /** The report over the records the dashboard has fetched. */
  method Aggregate(sessions: seq<Record>, payments: seq<Record>, now: Instant, days: int) returns (report: Report)
    requires forall r :: r in sessions ==> r.at.Some?
    ensures Reports(report, sessions, payments, now, days)
  {
    var today, start := now.day, now.PlusDays(-Max(days - 1, 0));
    var t := TallyAll([], sessions, start, today, Totals(map[], map[], map[], 0, 0, 0));
    assert [] + sessions == sessions;
    t := TallyAll(sessions, payments, start, today, t);
    var series := FillSeries(sessions + payments, start, today, days, t.counts, t.volumes);
    report := Report(|sessions|, |payments|, t.buckets, t.todayCount, t.todayVolume, t.total, series);
    TotalsCount(sessions + payments, start, today);
    forall b
      ensures Count(t.buckets, b) == InBucket(sessions + payments, Some(b))
    {
      BucketsCount(sessions + payments, start, today, b);
    }
  }

  /** Every figure of the report is the sum over the records that it stands for. */
  ghost predicate Reports(report: Report, sessions: seq<Record>, payments: seq<Record>, now: Instant, days: int) {
    && report.terminal == |sessions| && report.legacy == |payments|
    && (forall b :: Count(report.buckets, b) == InBucket(sessions + payments, Some(b)))
    && report.todayCount == Sum(Number, sessions + payments, OfDay(now.day))
    && report.todayVolume == Sum(Volume, sessions + payments, OfDay(now.day))
    && report.totalVolume == Amounts(sessions + payments)
    && IsSeries(sessions + payments, Start(now, days), days, report.series)
  }

  /** The dashboard: the newest thousand sessions of the store, and the payments that the query returned. */
  method Build(store: SessionStore, payments: seq<Row>, now: Instant, days: int) returns (report: Report)
    requires store.Valid()
    ensures Reports(report, RecordsOf(SessionRows(Cut(NewestFirst(store.Rows()), SESSION_LIMIT))),
                    RecordsOf(payments), now, days)
  {
    var listed := store.ListAll(SESSION_LIMIT);
    report := Aggregate(RecordsOf(SessionRows(listed)), RecordsOf(payments), now, days);
  }

  // ---------- what the report promises ----------

  /** Every record is in one of the five buckets or in none of them. */
  lemma {:induction false} BucketsAddUp(rs: seq<Record>)
    ensures InBucket(rs, Some(Approved)) + InBucket(rs, Some(Declined)) + InBucket(rs, Some(Refunded))
            + InBucket(rs, Some(Voided)) + InBucket(rs, Some(Pending)) + InBucket(rs, None) == |rs|
  {
    if rs != [] {
      BucketsAddUp(rs[..|rs| - 1]);
      OneBucket(rs[|rs| - 1].status);
    }
  }

  lemma OneBucket(status: string)
    ensures BucketOf(status) in {None, Some(Approved), Some(Declined), Some(Refunded), Some(Voided), Some(Pending)}
  {
    match BucketOf(status)
    case None =>
    case Some(b) => assert b in {Approved, Declined, Refunded, Voided, Pending};
  }

  function Shown(m: Measure, p: Point): int {
    if m == Number then p.count else p.volume
  }

  function Total(m: Measure, series: seq<Point>): int {
    if series == [] then 0 else Total(m, series[..|series| - 1]) + Shown(m, series[|series| - 1])
  }

  lemma {:induction false} SinceThroughSplits(m: Measure, rs: seq<Record>, start: Instant, day: int)
    ensures Sum(m, rs, SinceThrough(start, day))
            == Sum(m, rs, SinceThrough(start, day - 1)) + Sum(m, rs, OfDaySince(day, start))
    ensures Sum(m, rs, SinceThrough(start, start.day - 1)) == 0
  {
    if rs != [] {
      SinceThroughSplits(m, rs[..|rs| - 1], start, day);
    }
  }

  lemma {:induction false} OfDaySplits(m: Measure, rs: seq<Record>, day: int, at: Instant)
    ensures Sum(m, rs, OfDay(day)) == Sum(m, rs, OfDayBefore(day, at)) + Sum(m, rs, OfDaySince(day, at))
    ensures at.day < day ==> Sum(m, rs, OfDayBefore(day, at)) == 0
  {
    if rs != [] {
      OfDaySplits(m, rs[..|rs| - 1], day, at);
    }
  }

  lemma {:induction false} SeriesTelescopes(m: Measure, rs: seq<Record>, start: Instant, series: seq<Point>)
    requires IsSeries(rs, start, |series|, series)
    ensures Total(m, series) == Sum(m, rs, SinceThrough(start, start.day + |series| - 1))
  {
    var n := |series| - 1;
    SinceThroughSplits(m, rs, start, start.day + n);
    if n >= 0 {
      SeriesTelescopes(m, rs, start, series[..n]);
    }
  }

  /**
   The series adds up to exactly the records, or their amounts, from the start until the end of today. So it misses
   something dated since the start only if that is dated after today.
   */
  lemma SeriesAddsUp(m: Measure, rs: seq<Record>, now: Instant, days: int, series: seq<Point>)
    requires days >= 1 && IsSeries(rs, Start(now, days), days, series)
    ensures Total(m, series) == Sum(m, rs, SinceThrough(Start(now, days), now.day))
  {
    SeriesTelescopes(m, rs, Start(now, days), series);
  }

  /**
   The last point is today's. With two or more days it says what the counter of today says; with one day the series
   starts now, and agrees with that counter exactly if what came earlier today adds up to nothing.
   */
  lemma LastPointIsToday(m: Measure, rs: seq<Record>, now: Instant, days: int, series: seq<Point>)
    requires days >= 1 && IsSeries(rs, Start(now, days), days, series)
    ensures series[days - 1].day == now.day
    ensures days >= 2 ==> Shown(m, series[days - 1]) == Sum(m, rs, OfDay(now.day))
    ensures days == 1 ==>
            (Shown(m, series[0]) == Sum(m, rs, OfDay(now.day)) <==> Sum(m, rs, OfDayBefore(now.day, now)) == 0)
  {
    OfDaySplits(m, rs, now.day, Start(now, days));
  }

  /** Today's payment of the morning is counted for today, and missing from a series of one day that starts at noon. */
  lemma MorningIsMissed(series: seq<Point>)
    requires IsSeries([Record("captured", Some(Instant(7, 100)), 5)], Start(Instant(7, 200), 1), 1, series)
    ensures series[0].count == 0
    ensures Sum(Number, [Record("captured", Some(Instant(7, 100)), 5)], OfDay(7)) == 1
  {
    var rs := [Record("captured", Some(Instant(7, 100)), 5)];
    assert rs[..0] == [];
  }

  // ---------- what the cuts leave out ----------

  /** The newest rows by creation, as many as the limit allows, and the rest; equally old ones fall as they may. */
  ghost predicate IsNewest(all: seq<Row>, listed: seq<Row>, rest: seq<Row>, limit: nat) {
    && multiset(listed) + multiset(rest) == multiset(all)
    && |listed| == (if |all| <= limit then |all| else limit)
    && (forall i, j :: 0 <= i < |listed| && 0 <= j < |rest| ==> !listed[i].createdAt.Before(rest[j].createdAt))
  }

  lemma {:induction false} SumAppends(m: Measure, xs: seq<Record>, ys: seq<Record>, span: Span)
    ensures Sum(m, xs + ys, span) == Sum(m, xs, span) + Sum(m, ys, span)
  {
    if ys == [] {
      assert xs + ys == xs;
    } else {
      var n := |ys| - 1;
      SumAppends(m, xs, ys[..n], span);
      assert (xs + ys)[..|xs| + n] == xs + ys[..n];
    }
  }

  lemma RecordsAppend(xs: seq<Row>, ys: seq<Row>)
    ensures RecordsOf(xs + ys) == RecordsOf(xs) + RecordsOf(ys)
  {
  }

  lemma Cancel<T>(a: multiset<T>, b: multiset<T>, x: T)
    requires a + multiset{x} == b + multiset{x}
    ensures a == b
  {
    assert a == (a + multiset{x}) - multiset{x};
    assert b == (b + multiset{x}) - multiset{x};
  }

  /** Where the last of `xs` stands in `ys`. */
  lemma PickLast<T>(xs: seq<T>, ys: seq<T>) returns (front: seq<T>, back: seq<T>)
    requires xs != [] && multiset(xs) == multiset(ys)
    ensures ys == front + [xs[|xs| - 1]] + back && multiset(xs[..|xs| - 1]) == multiset(front + back)
  {
    var n := |xs| - 1;
    assert xs == xs[..n] + [xs[n]];
    assert xs[n] in multiset(ys);
    var k :| 0 <= k < |ys| && ys[k] == xs[n];
    front, back := ys[..k], ys[k + 1..];
    assert ys == front + [xs[n]] + back;
    assert multiset(ys) == multiset(front + back) + multiset{xs[n]};
    Cancel(multiset(xs[..n]), multiset(front + back), xs[n]);
  }

  /** A sum does not depend on the order of the rows. */
  lemma {:induction false} SumPermutes(m: Measure, xs: seq<Row>, ys: seq<Row>, span: Span)
    requires multiset(xs) == multiset(ys)
    ensures Sum(m, RecordsOf(xs), span) == Sum(m, RecordsOf(ys), span)
    decreases |xs|
  {
    if xs == [] {
      assert |multiset(ys)| == 0;
    } else {
      var n := |xs| - 1;
      var x := xs[n];
      var front, back := PickLast(xs, ys);
      SumPermutes(m, xs[..n], front + back, span);
      SumOfParts(m, front, x, back, span);
      SumOfLast(m, xs, span);
    }
  }

  lemma SumOfLast(m: Measure, xs: seq<Row>, span: Span)
    requires xs != []
    ensures var n := |xs| - 1;
            Sum(m, RecordsOf(xs), span) == Sum(m, RecordsOf(xs[..n]), span) + Sum(m, [xs[n].record], span)
  {
    SumAppends(m, RecordsOf(xs[..|xs| - 1]), [xs[|xs| - 1].record], span);
  }

  lemma SumOfParts(m: Measure, front: seq<Row>, x: Row, back: seq<Row>, span: Span)
    ensures Sum(m, RecordsOf(front + [x] + back), span)
         == Sum(m, RecordsOf(front + back), span) + Sum(m, [x.record], span)
  {
    RecordsAppend(front + [x], back);
    RecordsAppend(front, [x]);
    RecordsAppend(front, back);
    assert RecordsOf([x]) == [x.record];
    SumAppends(m, RecordsOf(front) + [x.record], RecordsOf(back), span);
    SumAppends(m, RecordsOf(front), [x.record], span);
    SumAppends(m, RecordsOf(front), RecordsOf(back), span);
  }

  lemma {:induction false} NumberIsZeroIff(rs: seq<Record>, span: Span)
    ensures Sum(Number, rs, span) >= 0
    ensures Sum(Number, rs, span) == 0 <==> forall i :: 0 <= i < |rs| ==> !span.Has(rs[i])
  {
    if rs != [] {
      NumberIsZeroIff(rs[..|rs| - 1], span);
    }
  }

  /** A count over the rows that were fetched is the count over all rows exactly if none of the others belongs to it. */
  lemma CoveredIff(all: seq<Row>, listed: seq<Row>, rest: seq<Row>, limit: nat, span: Span)
    requires IsNewest(all, listed, rest, limit)
    ensures Sum(Number, RecordsOf(all), span)
            == Sum(Number, RecordsOf(listed), span) + Sum(Number, RecordsOf(rest), span)
    ensures Sum(Number, RecordsOf(listed), span) == Sum(Number, RecordsOf(all), span)
            <==> forall j :: 0 <= j < |rest| ==> !span.Has(rest[j].record)
  {
    assert multiset(listed + rest) == multiset(all);
    SumPermutes(Number, all, listed + rest, span);
    RecordsAppend(listed, rest);
    SumAppends(Number, RecordsOf(listed), RecordsOf(rest), span);
    NumberIsZeroIff(RecordsOf(rest), span);
  }

  /**
   Rows that are dated by their creation, as sessions are: the fetched ones include everything since `start`, and so
   give every day of a series, exactly if no more than the limit were created since then.
   */
  lemma DatedByCreationCoveredIff(all: seq<Row>, listed: seq<Row>, rest: seq<Row>, limit: nat, start: Instant)
    requires IsNewest(all, listed, rest, limit)
    requires forall row :: row in multiset(all) ==> row.record.at == Some(row.createdAt)
    ensures Sum(Number, RecordsOf(listed), Since(start)) == Sum(Number, RecordsOf(all), Since(start))
            <==> Sum(Number, RecordsOf(all), Since(start)) <= limit
  {
    if j :| 0 <= j < |rest| && Since(start).Has(rest[j].record) {
      AllListedAreSince(all, listed, rest, limit, start, j);
      FullSince(all, listed, rest, limit, start, j);
    } else {
      NoneOmitted(all, listed, rest, limit, start);
    }
  }

  lemma NoneOmitted(all: seq<Row>, listed: seq<Row>, rest: seq<Row>, limit: nat, start: Instant)
    requires IsNewest(all, listed, rest, limit)
    requires forall j :: 0 <= j < |rest| ==> !Since(start).Has(rest[j].record)
    ensures Sum(Number, RecordsOf(listed), Since(start)) == Sum(Number, RecordsOf(all), Since(start)) <= limit
  {
    CoveredIff(all, listed, rest, limit, Since(start));
    NumberIsAtMost(RecordsOf(listed), Since(start));
  }

  lemma FullSince(all: seq<Row>, listed: seq<Row>, rest: seq<Row>, limit: nat, start: Instant, j: nat)
    requires IsNewest(all, listed, rest, limit) && j < |rest| && Since(start).Has(rest[j].record)
    requires forall i :: 0 <= i < |listed| ==> Since(start).Has(listed[i].record)
    ensures Sum(Number, RecordsOf(listed), Since(start)) == limit < Sum(Number, RecordsOf(all), Since(start))
  {
    CoveredIff(all, listed, rest, limit, Since(start));
    RestMeansFull(all, listed, rest, limit);
    NumberIsAll(RecordsOf(listed), Since(start));
    assert RecordsOf(rest)[j] == rest[j].record;
    NumberIsZeroIff(RecordsOf(rest), Since(start));
  }

  lemma RestMeansFull(all: seq<Row>, listed: seq<Row>, rest: seq<Row>, limit: nat)
    requires IsNewest(all, listed, rest, limit) && rest != []
    ensures |listed| == limit
  {
    assert |multiset(listed) + multiset(rest)| == |multiset(all)|;
  }

  lemma AllListedAreSince(all: seq<Row>, listed: seq<Row>, rest: seq<Row>, limit: nat, start: Instant, j: nat)
    requires IsNewest(all, listed, rest, limit) && j < |rest| && Since(start).Has(rest[j].record)
    requires forall row :: row in multiset(all) ==> row.record.at == Some(row.createdAt)
    ensures forall i :: 0 <= i < |listed| ==> Since(start).Has(listed[i].record)
  {
    assert rest[j] in multiset(rest) && rest[j] in multiset(all);
    forall i | 0 <= i < |listed|
      ensures Since(start).Has(listed[i].record)
    {
      assert listed[i] in multiset(listed) && listed[i] in multiset(all);
      assert !listed[i].createdAt.Before(rest[j].createdAt);
    }
  }

  lemma {:induction false} NumberIsAtMost(rs: seq<Record>, span: Span)
    ensures Sum(Number, rs, span) <= |rs|
  {
    if rs != [] {
      NumberIsAtMost(rs[..|rs| - 1], span);
    }
  }

  lemma {:induction false} NumberIsAll(rs: seq<Record>, span: Span)
    requires forall i :: 0 <= i < |rs| ==> span.Has(rs[i])
    ensures Sum(Number, rs, span) == |rs|
  {
    if rs != [] {
      NumberIsAll(rs[..|rs| - 1], span);
    }
  }

  lemma SessionRowsAppend(xs: seq<TerminalSessions.Session>, ys: seq<TerminalSessions.Session>)
    ensures SessionRows(xs + ys) == SessionRows(xs) + SessionRows(ys)
  {
  }

  lemma SessionRowsOfParts(front: seq<TerminalSessions.Session>, s: TerminalSessions.Session,
                           back: seq<TerminalSessions.Session>)
    ensures multiset(SessionRows(front + [s] + back)) == multiset(SessionRows(front + back)) + multiset{SessionRow(s)}
  {
    SessionRowsAppend(front + [s], back);
    SessionRowsAppend(front, [s]);
    SessionRowsAppend(front, back);
    assert SessionRows([s]) == [SessionRow(s)];
  }

  lemma {:induction false} SessionRowsPermute(xs: seq<TerminalSessions.Session>, ys: seq<TerminalSessions.Session>)
    requires multiset(xs) == multiset(ys)
    ensures multiset(SessionRows(xs)) == multiset(SessionRows(ys))
    decreases |xs|
  {
    if xs == [] {
      assert |multiset(ys)| == 0;
    } else {
      var n := |xs| - 1;
      var s := xs[n];
      var front, back := PickLast(xs, ys);
      SessionRowsPermute(xs[..n], front + back);
      SessionRowsOfParts(front, s, back);
      assert multiset(SessionRows(xs)) == multiset(SessionRows(xs[..n])) + multiset{SessionRow(s)};
    }
  }

  lemma RowsKeepOrder(listed: seq<TerminalSessions.Session>, omitted: seq<TerminalSessions.Session>)
    requires forall i, j :: 0 <= i < |listed| && 0 <= j < |omitted| ==> listed[i].createdAt >= omitted[j].createdAt
    ensures forall i, j :: 0 <= i < |listed| && 0 <= j < |omitted| ==>
              !SessionRows(listed)[i].createdAt.Before(SessionRows(omitted)[j].createdAt)
  {
    forall i, j | 0 <= i < |listed| && 0 <= j < |omitted|
      ensures !SessionRows(listed)[i].createdAt.Before(SessionRows(omitted)[j].createdAt)
    {
      AtKeepsOrder(listed[i].createdAt, omitted[j].createdAt);
    }
  }

  /** The sessions that the store lists for the dashboard are the newest ones. */
  lemma ListedAreNewest(sessions: seq<TerminalSessions.Session>, limit: nat) returns (rest: seq<Row>)
    ensures IsNewest(SessionRows(sessions), SessionRows(Cut(NewestFirst(sessions), limit)), rest, limit)
  {
    var sorted := NewestFirst(sessions);
    SortIsOrdered(sessions);
    SessionRowsPermute(sessions, sorted);
    assert |multiset(sorted)| == |multiset(sessions)|;
    var omitted := CutSplits(sorted, limit);
    var listed := Cut(sorted, limit);
    rest := SessionRows(omitted);
    SessionRowsAppend(listed, omitted);
    assert multiset(SessionRows(listed) + rest) == multiset(SessionRows(sessions));
    RowsKeepOrder(listed, omitted);
  }

  /** The dashboard shows every session since the start of its series exactly if there are no more than a thousand. */
  lemma SessionsCoveredIff(sessions: seq<TerminalSessions.Session>, start: Instant)
    ensures var all := RecordsOf(SessionRows(sessions));
            var listed := RecordsOf(SessionRows(Cut(NewestFirst(sessions), SESSION_LIMIT)));
            var count := Sum(Number, all, Since(start));
            Sum(Number, listed, Since(start)) == count <==> count <= SESSION_LIMIT
  {
    var rest := ListedAreNewest(sessions, SESSION_LIMIT);
    var listed := SessionRows(Cut(NewestFirst(sessions), SESSION_LIMIT));
    DatedByCreationCoveredIff(SessionRows(sessions), listed, rest, SESSION_LIMIT, start);
  }

  // ---------- payments ----------

  /** A payment is dated by the request that creates it, after its creation. */
  predicate DatedByItsRequest(row: Row) {
    row.record.at.Some? && !row.record.at.value.Before(row.createdAt)
  }

  /** The request of `row` was over before that of `other` began. */
  predicate Precedes(row: Row, other: Row) {
    row.record.at.Some? && row.record.at.value.Before(other.createdAt)
  }

  /** Payments of requests that came one after the other. */
  ghost predicate OneByOne(rows: seq<Row>) {
    && (forall i :: 0 <= i < |rows| ==> DatedByItsRequest(rows[i]))
    && (forall i, j :: 0 <= i < |rows| && 0 <= j < |rows| && i != j ==>
          Precedes(rows[i], rows[j]) || Precedes(rows[j], rows[i]))
  }

  /** Of two such payments the one created later is dated later. */
  lemma LaterIsDatedLater(listed: seq<Row>, rest: seq<Row>, i: nat, j: nat, start: Instant)
    requires OneByOne(listed + rest) && i < |listed| && j < |rest|
    requires !listed[i].createdAt.Before(rest[j].createdAt) && Since(start).Has(rest[j].record)
    ensures Since(start).Has(listed[i].record)
  {
    var rows := listed + rest;
    assert rows[i] == listed[i] && rows[|listed| + j] == rest[j];
    assert DatedByItsRequest(rows[i]) && DatedByItsRequest(rows[|listed| + j]);
    assert Precedes(rows[i], rows[|listed| + j]) || Precedes(rows[|listed| + j], rows[i]);
  }

  /**
   So although payments are cut by creation and shown by payment date, the fetched ones include everything since
   `start`, in particular all of today, exactly if no more than the limit are dated since then.
   */
  lemma PaymentsCoveredIff(all: seq<Row>, listed: seq<Row>, rest: seq<Row>, start: Instant)
    requires IsNewest(all, listed, rest, PAYMENT_LIMIT) && OneByOne(listed + rest)
    ensures Sum(Number, RecordsOf(listed), Since(start)) == Sum(Number, RecordsOf(all), Since(start))
            <==> Sum(Number, RecordsOf(all), Since(start)) <= PAYMENT_LIMIT
  {
    if j :| 0 <= j < |rest| && Since(start).Has(rest[j].record) {
      forall i | 0 <= i < |listed|
        ensures Since(start).Has(listed[i].record)
      {
        LaterIsDatedLater(listed, rest, i, j, start);
      }
      FullSince(all, listed, rest, PAYMENT_LIMIT, start, j);
    } else {
      NoneOmitted(all, listed, rest, PAYMENT_LIMIT, start);
    }
  }

  // A day with one payment more than the limit.

  function BusyRow(day: int, i: int): Row {
    Row(Instant(day, 2 * i), Record("captured", Some(Instant(day, 2 * i + 1)), 1))
  }

  function BusyRows(day: int, from: nat, n: nat): seq<Row> {
    seq(n, i => BusyRow(day, from + i))
  }

  lemma BusyRowsAreOneByOne(day: int, n: nat)
    ensures OneByOne(BusyRows(day, 1, n) + [BusyRow(day, 0)])
  {
    var rows := BusyRows(day, 1, n) + [BusyRow(day, 0)];
    forall i | 0 <= i < |rows|
      ensures rows[i] == BusyRow(day, if i < n then i + 1 else 0)
    {
    }
  }

  lemma NumberOfBusyRows(day: int, from: nat, n: nat)
    ensures Sum(Number, RecordsOf(BusyRows(day, from, n)), OfDay(day)) == n
  {
    var rs := RecordsOf(BusyRows(day, from, n));
    forall i | 0 <= i < |rs|
      ensures OfDay(day).Has(rs[i])
    {
      assert rs[i] == BusyRow(day, from + i).record;
    }
    NumberIsAll(rs, OfDay(day));
  }

  lemma BusyRowsSplit(day: int, n: nat)
    ensures BusyRows(day, 0, n + 1) == [BusyRow(day, 0)] + BusyRows(day, 1, n)
  {
  }

  lemma BusyRowsAreNewest(day: int, limit: nat)
    ensures IsNewest([BusyRow(day, 0)] + BusyRows(day, 1, limit), BusyRows(day, 1, limit), [BusyRow(day, 0)], limit)
  {
    var listed, rest := BusyRows(day, 1, limit), [BusyRow(day, 0)];
    assert multiset(rest + listed) == multiset(rest) + multiset(listed);
    forall i, j | 0 <= i < |listed| && 0 <= j < |rest|
      ensures !listed[i].createdAt.Before(rest[j].createdAt)
    {
      assert listed[i] == BusyRow(day, 1 + i);
    }
    assert |rest + listed| == limit + 1;
  }

  /** Of one payment more than the limit, all created and dated today, the dashboard misses one. */
  lemma BusyDayIsCut(day: int, limit: nat) returns (all: seq<Row>, listed: seq<Row>, rest: seq<Row>)
    ensures IsNewest(all, listed, rest, limit) && OneByOne(listed + rest)
    ensures Sum(Number, RecordsOf(all), OfDay(day)) == limit + 1 && Sum(Number, RecordsOf(listed), OfDay(day)) == limit
  {
    BusyRowsAreNewest(day, limit);
    BusyRowsAreOneByOne(day, limit);
    BusyRowsSplit(day, limit);
    NumberOfBusyRows(day, 1, limit);
    NumberOfBusyRows(day, 0, limit + 1);
    all, listed, rest := BusyRows(day, 0, limit + 1), BusyRows(day, 1, limit), [BusyRow(day, 0)];
  }

  /** A terminal session is never missing from the buckets: it does not rest in the one state without a bucket. */
  lemma SessionsAreBucketed(y: TerminalSessions.System, id: Uuid)
    requires TerminalSafety.Inv(y) && id in y.sessions
    ensures BucketOf(StateName(y.sessions[id].state)).Some?
  {
    OneStateHasNoBucket(y.sessions[id].state);
  }
}
