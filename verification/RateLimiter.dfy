/**
 The sliding-window rate limiter. It keeps only pruned lists per client; this module proves that it decides exactly as
 a limiter that remembers every request, and what that decision guarantees over whole runs.
 */
module RateLimiter {
  import opened Common

  const WINDOW: real := 60.0

  datatype Route = Health | SignIn | Other

  /** Which budget a path falls under; the health check is exempt. */
  function Classify(path: string): Route {
    if EndsWith(path, "/health") then Health
    else if EndsWith(path, "/auth/login") || EndsWith(path, "/auth/register") || EndsWith(path, "/auth/refresh") then
      SignIn
    else Other
  }

  datatype Request = Request(route: Route, client: Option<string>, now: real)

  datatype Verdict = Exempt | Forwarded | GlobalLimited | AuthLimited

  datatype Limits = Limits(perMinute: int, authPerMinute: int)

  type Stamps = map<string, seq<real>>

  datatype Windows = Windows(hits: Stamps, authHits: Stamps)

  function ClientOf(q: Request): string {
    if q.client.Some? then q.client.value else "unknown"
  }

  /** The stamps less than a window old at `now`, in order. */
  function Recent(stamps: seq<real>, now: real): seq<real> {
    if stamps == [] then []
    else
      var n := |stamps| - 1;
      Recent(stamps[..n], now) + (if now - stamps[n] < WINDOW then [stamps[n]] else [])
  }

  function Of(m: Stamps, client: string): seq<real> {
    if client in m then m[client] else []
  }

  datatype Decision = Decision(windows: Windows, verdict: Verdict)

  function Dispatch(w: Windows, q: Request, limits: Limits): Decision {
    if q.route.Health? then Decision(w, Exempt)
    else
      var c := ClientOf(q);
      var kept := Recent(Of(w.hits, c), q.now);
      if |kept| >= limits.perMinute then Decision(w.(hits := w.hits[c := kept]), GlobalLimited)
      else
        var hits := w.hits[c := kept + [q.now]];
        if !q.route.SignIn? then Decision(w.(hits := hits), Forwarded)
        else
          var authKept := Recent(Of(w.authHits, c), q.now);
          if |authKept| >= limits.authPerMinute then
            Decision(Windows(hits, w.authHits[c := authKept]), AuthLimited)
          else
            Decision(Windows(hits, w.authHits[c := authKept + [q.now]]), Forwarded)
  }

  class RateLimitMiddleware {
    var hits: Stamps
    var authHits: Stamps

    constructor ()
      ensures hits == map[] && authHits == map[]
    {
      hits, authHits := map[], map[];
    }

    /** Decides one request; no other request can run in between. */
    method DispatchRequest(path: string, client: Option<string>, now: real, limits: Limits) returns (verdict: Verdict)
      modifies this
      ensures Decision(Windows(hits, authHits), verdict)
           == Dispatch(Windows(old(hits), old(authHits)), Request(Classify(path), client, now), limits)
    {
      var route := Classify(path);
      if route == Health {
        return Exempt;
      }
      var host := if client.Some? then client.value else "unknown";
      var admitted := AdmitGlobal(host, now, limits.perMinute);
      if !admitted {
        return GlobalLimited;
      }
      if route == SignIn {
        admitted := AdmitSignIn(host, now, limits.authPerMinute);
        if !admitted {
          return AuthLimited;
        }
      }
      verdict := Forwarded;
    }

    method AdmitGlobal(host: string, now: real, limit: int) returns (admitted: bool)
      modifies `hits
      ensures var kept := Recent(Of(old(hits), host), now);
              admitted == (|kept| < limit) && hits == old(hits)[host := if admitted then kept + [now] else kept]
    {
      var window := if host in hits then hits[host] else [];
      hits := hits[host := Recent(window, now)];
      admitted := |hits[host]| < limit;
      if admitted {
        hits := hits[host := hits[host] + [now]];
      }
    }

    method AdmitSignIn(host: string, now: real, limit: int) returns (admitted: bool)
      modifies `authHits
      ensures var kept := Recent(Of(old(authHits), host), now);
              admitted == (|kept| < limit) && authHits == old(authHits)[host := if admitted then kept + [now] else kept]
    {
      var window := if host in authHits then authHits[host] else [];
      authHits := authHits[host := Recent(window, now)];
      admitted := |authHits[host]| < limit;
      if admitted {
        authHits := authHits[host := authHits[host] + [now]];
      }
    }
  }

  // ---------- runs, and the limiter that forgets nothing ----------

  datatype Trace = Trace(windows: Windows, verdicts: seq<Verdict>)

  function Run(qs: seq<Request>, limits: Limits): (t: Trace)
    ensures |t.verdicts| == |qs|
  {
    if qs == [] then Trace(Windows(map[], map[]), [])
    else
      var n := |qs| - 1;
      var before := Run(qs[..n], limits);
      var d := Dispatch(before.windows, qs[n], limits);
      Trace(d.windows, before.verdicts + [d.verdict])
  }

  /** Every stamp ever recorded for a client against the global budget. */
  function Recorded(qs: seq<Request>, verdicts: seq<Verdict>, client: string): seq<real>
    requires |qs| == |verdicts|
  {
    if qs == [] then []
    else
      var n := |qs| - 1;
      Recorded(qs[..n], verdicts[..n], client)
      + (if ClientOf(qs[n]) == client && verdicts[n] in {Forwarded, AuthLimited} then [qs[n].now] else [])
  }

  /** Every stamp ever recorded for a client against the sign-in budget. */
  function AuthRecorded(qs: seq<Request>, verdicts: seq<Verdict>, client: string): seq<real>
    requires |qs| == |verdicts|
  {
    if qs == [] then []
    else
      var n := |qs| - 1;
      AuthRecorded(qs[..n], verdicts[..n], client)
      + (if ClientOf(qs[n]) == client && qs[n].route.SignIn? && verdicts[n] == Forwarded then [qs[n].now] else [])
  }

  /** The verdict of a limiter that looks back over the whole history. */
  function IdealVerdict(qs: seq<Request>, verdicts: seq<Verdict>, q: Request, limits: Limits): Verdict
    requires |qs| == |verdicts|
  {
    var c := ClientOf(q);
    if q.route.Health? then Exempt
    else if |Recent(Recorded(qs, verdicts, c), q.now)| >= limits.perMinute then GlobalLimited
    else if q.route.SignIn? && |Recent(AuthRecorded(qs, verdicts, c), q.now)| >= limits.authPerMinute then AuthLimited
    else Forwarded
  }

  function IdealVerdicts(qs: seq<Request>, limits: Limits): (verdicts: seq<Verdict>)
    ensures |verdicts| == |qs|
  {
    if qs == [] then []
    else
      var n := |qs| - 1;
      var before := IdealVerdicts(qs[..n], limits);
      before + [IdealVerdict(qs[..n], before, qs[n], limits)]
  }

  /** The clock does not run backwards. */
  ghost predicate Monotone(qs: seq<Request>) {
    forall i, j :: 0 <= i < j < |qs| ==> qs[i].now <= qs[j].now
  }

  // ---------- pruning loses nothing ----------

  lemma {:induction false} RecentAppends(stamps: seq<real>, t: real, now: real)
    ensures Recent(stamps + [t], now) == Recent(stamps, now) + (if now - t < WINDOW then [t] else [])
  {
    assert (stamps + [t])[..|stamps|] == stamps;
  }

  /** Pruning now and again later is pruning later. */
  lemma {:induction false} RecentAgain(stamps: seq<real>, now: real, later: real)
    requires now <= later
    ensures Recent(Recent(stamps, now), later) == Recent(stamps, later)
  {
    if stamps != [] {
      var n := |stamps| - 1;
      RecentAgain(stamps[..n], now, later);
      if now - stamps[n] < WINDOW {
        RecentAppends(Recent(stamps[..n], now), stamps[n], later);
      } else {
        assert Recent(stamps[..n], now) + [] == Recent(stamps[..n], now);
      }
    }
  }

  /** At any time from `clock` on, a pruned list and a full one show the same recent stamps. */
  ghost predicate Agree(pruned: seq<real>, full: seq<real>, clock: real) {
    forall later: real :: clock <= later ==> Recent(pruned, later) == Recent(full, later)
  }

  lemma AgreeAfterPrune(pruned: seq<real>, full: seq<real>, clock: real, now: real)
    requires Agree(pruned, full, clock) && clock <= now
    ensures Recent(pruned, now) == Recent(full, now)
    ensures Agree(Recent(pruned, now), full, now)
    ensures Agree(Recent(pruned, now) + [now], full + [now], now)
  {
    forall later: real | now <= later
      ensures Recent(Recent(pruned, now), later) == Recent(full, later)
      ensures Recent(Recent(pruned, now) + [now], later) == Recent(full + [now], later)
    {
      RecentAgain(pruned, now, later);
      RecentAppends(Recent(pruned, now), now, later);
      RecentAppends(full, now, later);
    }
  }

  /** Keeping, pruning, or pruning and recording a list keeps it in agreement with its history. */
  lemma AgreeAfterBudget(pruned: seq<real>, full: seq<real>, clock: real, now: real, pruned': seq<real>,
                         full': seq<real>)
    requires Agree(pruned, full, clock) && clock <= now
    requires
      || (pruned' == pruned && full' == full)
      || (pruned' == Recent(pruned, now) && full' == full)
      || (pruned' == Recent(pruned, now) + [now] && full' == full + [now])
    ensures Agree(pruned', full', now)
  {
    AgreeAfterPrune(pruned, full, clock, now);
  }

  /** The windows represent the whole history for every client, and the verdicts so far are the ideal ones. */
  ghost predicate Represents(t: Trace, qs: seq<Request>, limits: Limits, clock: real)
    requires |t.verdicts| == |qs|
  {
    && t.verdicts == IdealVerdicts(qs, limits)
    && (forall c :: Agree(Of(t.windows.hits, c), Recorded(qs, t.verdicts, c), clock))
    && (forall c :: Agree(Of(t.windows.authHits, c), AuthRecorded(qs, t.verdicts, c), clock))
  }

  function ClockOf(qs: seq<Request>): real
    requires qs != []
  {
    qs[|qs| - 1].now
  }

  /** A dispatch touches only its own client's lists. */
  lemma DispatchIsLocal(w: Windows, q: Request, limits: Limits, c: string)
    requires c != ClientOf(q)
    ensures var d := Dispatch(w, q, limits);
            Of(d.windows.hits, c) == Of(w.hits, c) && Of(d.windows.authHits, c) == Of(w.authHits, c)
  {
  }

  /** What a dispatch decides and leaves for its own client depends on that client's lists alone. */
  lemma DispatchSeesOwnLists(w: Windows, w': Windows, q: Request, limits: Limits)
    requires Of(w.hits, ClientOf(q)) == Of(w'.hits, ClientOf(q))
             && Of(w.authHits, ClientOf(q)) == Of(w'.authHits, ClientOf(q))
    ensures var c, d, d' := ClientOf(q), Dispatch(w, q, limits), Dispatch(w', q, limits);
            && d.verdict == d'.verdict
            && Of(d.windows.hits, c) == Of(d'.windows.hits, c)
            && Of(d.windows.authHits, c) == Of(d'.windows.authHits, c)
  {
  }

  /** One dispatch keeps a client's pruned lists in agreement with its history. */
  lemma DispatchAgrees(before: Trace, qs: seq<Request>, q: Request, limits: Limits, clock: real, c: string)
    requires |before.verdicts| == |qs| && Represents(before, qs, limits, clock) && clock <= q.now
    ensures var d := Dispatch(before.windows, q, limits);
            && Agree(Of(d.windows.hits, c), Recorded(qs + [q], before.verdicts + [d.verdict], c), q.now)
            && Agree(Of(d.windows.authHits, c), AuthRecorded(qs + [q], before.verdicts + [d.verdict], c), q.now)
  {
    var w, d := before.windows, Dispatch(before.windows, q, limits);
    var full, authFull := Recorded(qs, before.verdicts, c), AuthRecorded(qs, before.verdicts, c);
    assert Agree(Of(w.hits, c), full, clock) && Agree(Of(w.authHits, c), authFull, clock);
    RecordedAfter(qs, before.verdicts, q, d.verdict, c);
    DispatchKeepsOrAppends(w, q, limits, c);
    AgreeAfterBudget(Of(w.hits, c), full, clock, q.now,
                     Of(d.windows.hits, c), Recorded(qs + [q], before.verdicts + [d.verdict], c));
    AgreeAfterBudget(Of(w.authHits, c), authFull, clock, q.now,
                     Of(d.windows.authHits, c), AuthRecorded(qs + [q], before.verdicts + [d.verdict], c));
  }

  /** A client's list is left alone, pruned, or pruned and extended; it is extended exactly when the request counts. */
  lemma DispatchKeepsOrAppends(w: Windows, q: Request, limits: Limits, c: string)
    ensures var d, kept := Dispatch(w, q, limits), Recent(Of(w.hits, c), q.now);
            if ClientOf(q) == c && d.verdict in {Forwarded, AuthLimited} then Of(d.windows.hits, c) == kept + [q.now]
            else Of(d.windows.hits, c) in {Of(w.hits, c), kept}
    ensures var d, kept := Dispatch(w, q, limits), Recent(Of(w.authHits, c), q.now);
            if ClientOf(q) == c && q.route.SignIn? && d.verdict == Forwarded then
              Of(d.windows.authHits, c) == kept + [q.now]
            else Of(d.windows.authHits, c) in {Of(w.authHits, c), kept}
  {
  }

  lemma RecordedAfter(qs: seq<Request>, verdicts: seq<Verdict>, q: Request, verdict: Verdict, c: string)
    requires |qs| == |verdicts|
    ensures Recorded(qs + [q], verdicts + [verdict], c)
         == if ClientOf(q) == c && verdict in {Forwarded, AuthLimited} then Recorded(qs, verdicts, c) + [q.now]
            else Recorded(qs, verdicts, c)
    ensures AuthRecorded(qs + [q], verdicts + [verdict], c)
         == if ClientOf(q) == c && q.route.SignIn? && verdict == Forwarded then AuthRecorded(qs, verdicts, c) + [q.now]
            else AuthRecorded(qs, verdicts, c)
  {
    assert (qs + [q])[..|qs|] == qs && (verdicts + [verdict])[..|qs|] == verdicts;
    assert Recorded(qs, verdicts, c) + [] == Recorded(qs, verdicts, c);
    assert AuthRecorded(qs, verdicts, c) + [] == AuthRecorded(qs, verdicts, c);
  }

  lemma DispatchIsIdeal(before: Trace, qs: seq<Request>, q: Request, limits: Limits, clock: real)
    requires |before.verdicts| == |qs| && Represents(before, qs, limits, clock) && clock <= q.now
    ensures Dispatch(before.windows, q, limits).verdict == IdealVerdict(qs, before.verdicts, q, limits)
  {
    var c := ClientOf(q);
    assert Recent(Of(before.windows.hits, c), q.now) == Recent(Recorded(qs, before.verdicts, c), q.now);
    assert Recent(Of(before.windows.authHits, c), q.now) == Recent(AuthRecorded(qs, before.verdicts, c), q.now);
  }

  lemma {:induction false} RunRepresents(qs: seq<Request>, limits: Limits, clock: real)
    requires Monotone(qs) && (qs != [] ==> ClockOf(qs) <= clock)
    ensures Represents(Run(qs, limits), qs, limits, clock)
  {
    if qs != [] {
      var n := |qs| - 1;
      RunRepresents(qs[..n], limits, ClockOf(qs));
      var before := Run(qs[..n], limits);
      DispatchIsIdeal(before, qs[..n], qs[n], limits, ClockOf(qs));
      assert qs[..n] + [qs[n]] == qs;
      forall c
        ensures Agree(Of(Run(qs, limits).windows.hits, c), Recorded(qs, Run(qs, limits).verdicts, c), ClockOf(qs))
        ensures Agree(Of(Run(qs, limits).windows.authHits, c), AuthRecorded(qs, Run(qs, limits).verdicts, c),
                      ClockOf(qs))
      {
        DispatchAgrees(before, qs[..n], qs[n], limits, ClockOf(qs), c);
      }
      assert Run(qs, limits).verdicts[..n] == Run(qs[..n], limits).verdicts;
    }
  }

  /** The limiter with pruned lists gives every request of every run the verdict of the limiter that forgets nothing. */
  lemma PrunedLimiterIsIdeal(qs: seq<Request>, limits: Limits)
    requires Monotone(qs)
    ensures Run(qs, limits).verdicts == IdealVerdicts(qs, limits)
  {
    RunRepresents(qs, limits, if qs == [] then 0.0 else ClockOf(qs));
  }

  /** A dispatch prunes its own client's list, and extends it exactly when the request counts. */
  lemma DispatchPrunes(w: Windows, q: Request, limits: Limits)
    requires !q.route.Health?
    ensures var d, kept := Dispatch(w, q, limits), Recent(Of(w.hits, ClientOf(q)), q.now);
            Of(d.windows.hits, ClientOf(q)) == kept + if d.verdict in {Forwarded, AuthLimited} then [q.now] else []
  {
    var kept := Recent(Of(w.hits, ClientOf(q)), q.now);
    assert kept + [] == kept;
  }

  lemma PrunedNow(before: Trace, qs: seq<Request>, limits: Limits, clock: real, c: string, now: real)
    requires |before.verdicts| == |qs| && Represents(before, qs, limits, clock) && clock <= now
    ensures Recent(Of(before.windows.hits, c), now) == Recent(Recorded(qs, before.verdicts, c), now)
  {
    assert Agree(Of(before.windows.hits, c), Recorded(qs, before.verdicts, c), clock);
  }

  lemma DispatchLeavesRecent(before: Trace, qs: seq<Request>, q: Request, limits: Limits, clock: real)
    requires |before.verdicts| == |qs| && Represents(before, qs, limits, clock) && clock <= q.now && !q.route.Health?
    ensures var d := Dispatch(before.windows, q, limits);
            Of(d.windows.hits, ClientOf(q))
              == Recent(Recorded(qs + [q], before.verdicts + [d.verdict], ClientOf(q)), q.now)
  {
    var c, verdict := ClientOf(q), Dispatch(before.windows, q, limits).verdict;
    DispatchPrunes(before.windows, q, limits);
    PrunedNow(before, qs, limits, clock, c, q.now);
    RecordedAfter(qs, before.verdicts, q, verdict, c);
    RecentAppends(Recorded(qs, before.verdicts, c), q.now, q.now);
  }

  /** Right after deciding a request the client's list is exactly its recorded history of the last window. */
  lemma PrunedListIsRecentHistory(qs: seq<Request>, limits: Limits)
    requires Monotone(qs) && qs != [] && !qs[|qs| - 1].route.Health?
    ensures var t := Run(qs, limits);
            var last := qs[|qs| - 1];
            Of(t.windows.hits, ClientOf(last)) == Recent(Recorded(qs, t.verdicts, ClientOf(last)), last.now)
  {
    var n := |qs| - 1;
    RunRepresents(qs[..n], limits, ClockOf(qs));
    DispatchLeavesRecent(Run(qs[..n], limits), qs[..n], qs[n], limits, ClockOf(qs));
    assert qs[..n] + [qs[n]] == qs;
  }

  // ---------- budgets over whole runs ----------

  /** How many stamps fall into the window that opens at `from`. */
  function CountIn(stamps: seq<real>, from: real): nat {
    if stamps == [] then 0
    else
      var n := |stamps| - 1;
      CountIn(stamps[..n], from) + (if from <= stamps[n] < from + WINDOW then 1 else 0)
  }

  /** Stamps in order, and every stamp a full window after the one `limit` places before it. */
  ghost predicate Spaced(stamps: seq<real>, limit: int) {
    && (forall i, j :: 0 <= i < j < |stamps| ==> stamps[i] <= stamps[j])
    && (limit <= 0 ==> stamps == [])
    && (limit > 0 ==> forall i, j :: 0 <= i < j < |stamps| && j == i + limit ==> stamps[j] - stamps[i] >= WINDOW)
  }

  /** In an ordered list the recent stamps are a suffix. */
  lemma {:induction false} RecentIsSuffix(stamps: seq<real>, now: real, k: nat)
    requires forall i, j :: 0 <= i < j < |stamps| ==> stamps[i] <= stamps[j]
    requires k < |stamps| && now - stamps[k] < WINDOW
    ensures |Recent(stamps, now)| >= |stamps| - k
  {
    var n := |stamps| - 1;
    if k < n {
      RecentIsSuffix(stamps[..n], now, k);
    }
  }

  lemma AppendKeepsSpacing(stamps: seq<real>, now: real, limit: int)
    requires Spaced(stamps, limit) && |Recent(stamps, now)| < limit
    requires forall i :: 0 <= i < |stamps| ==> stamps[i] <= now
    ensures Spaced(stamps + [now], limit)
  {
    if limit <= |stamps| && now - stamps[|stamps| - limit] < WINDOW {
      RecentIsSuffix(stamps, now, |stamps| - limit);
    }
  }

  lemma {:induction false} CountSkips(stamps: seq<real>, from: real, k: nat)
    requires k <= |stamps| && forall i :: 0 <= i < k ==> stamps[i] < from
    ensures CountIn(stamps, from) <= |stamps| - k
  {
    if k < |stamps| {
      CountSkips(stamps[..|stamps| - 1], from, k);
    } else if stamps != [] {
      CountSkips(stamps[..|stamps| - 1], from, k - 1);
    }
  }

  /** Spacing is what keeps every window within its budget, wherever it opens. */
  lemma {:induction false} SpacedWindowsAreBounded(stamps: seq<real>, limit: int, from: real)
    requires Spaced(stamps, limit)
    ensures CountIn(stamps, from) <= if limit > 0 then limit else 0
  {
    if stamps != [] {
      var n := |stamps| - 1;
      SpacedWindowsAreBounded(stamps[..n], limit, from);
      if from <= stamps[n] < from + WINDOW {
        if 0 < limit <= n {
          assert stamps[n] - stamps[n - limit] >= WINDOW;
          CountSkips(stamps, from, n - limit + 1);
        } else {
          CountSkips(stamps, from, 0);
        }
      }
    }
  }

  lemma {:induction false} RecordedAreEarlier(qs: seq<Request>, verdicts: seq<Verdict>, client: string, now: real)
    requires |qs| == |verdicts| && forall i :: 0 <= i < |qs| ==> qs[i].now <= now
    ensures forall i :: 0 <= i < |Recorded(qs, verdicts, client)| ==> Recorded(qs, verdicts, client)[i] <= now
    ensures forall i :: 0 <= i < |AuthRecorded(qs, verdicts, client)| ==> AuthRecorded(qs, verdicts, client)[i] <= now
  {
    if qs != [] {
      var n := |qs| - 1;
      RecordedAreEarlier(qs[..n], verdicts[..n], client, now);
    }
  }

  ghost predicate BothSpaced(qs: seq<Request>, verdicts: seq<Verdict>, limits: Limits, client: string)
    requires |qs| == |verdicts|
  {
    && Spaced(Recorded(qs, verdicts, client), limits.perMinute)
    && Spaced(AuthRecorded(qs, verdicts, client), limits.authPerMinute)
  }

  /** One ideal verdict keeps both of a client's histories spaced. */
  lemma VerdictKeepsSpacing(qs: seq<Request>, verdicts: seq<Verdict>, q: Request, limits: Limits, client: string)
    requires |qs| == |verdicts| && forall i :: 0 <= i < |qs| ==> qs[i].now <= q.now
    requires BothSpaced(qs, verdicts, limits, client)
    ensures BothSpaced(qs + [q], verdicts + [IdealVerdict(qs, verdicts, q, limits)], limits, client)
  {
    var verdict := IdealVerdict(qs, verdicts, q, limits);
    RecordedAfter(qs, verdicts, q, verdict, client);
    RecordedAreEarlier(qs, verdicts, client, q.now);
    if ClientOf(q) == client && verdict in {Forwarded, AuthLimited} {
      AppendKeepsSpacing(Recorded(qs, verdicts, client), q.now, limits.perMinute);
    }
    if ClientOf(q) == client && q.route.SignIn? && verdict == Forwarded {
      AppendKeepsSpacing(AuthRecorded(qs, verdicts, client), q.now, limits.authPerMinute);
    }
  }

  lemma IdealGrows(qs: seq<Request>, q: Request, limits: Limits)
    ensures var before := IdealVerdicts(qs, limits);
            IdealVerdicts(qs + [q], limits) == before + [IdealVerdict(qs, before, q, limits)]
  {
    assert (qs + [q])[..|qs|] == qs;
  }

  lemma IdealStepKeepsSpacing(qs: seq<Request>, q: Request, limits: Limits, client: string)
    requires forall i :: 0 <= i < |qs| ==> qs[i].now <= q.now
    requires BothSpaced(qs, IdealVerdicts(qs, limits), limits, client)
    ensures BothSpaced(qs + [q], IdealVerdicts(qs + [q], limits), limits, client)
  {
    VerdictKeepsSpacing(qs, IdealVerdicts(qs, limits), q, limits, client);
    IdealGrows(qs, q, limits);
  }

  lemma LastComesLast(qs: seq<Request>) returns (front: seq<Request>, q: Request)
    requires Monotone(qs) && qs != []
    ensures qs == front + [q] && Monotone(front) && forall i :: 0 <= i < |front| ==> front[i].now <= q.now
  {
    front, q := qs[..|qs| - 1], qs[|qs| - 1];
  }

  lemma {:induction false} IdealKeepsSpacing(qs: seq<Request>, limits: Limits, client: string)
    requires Monotone(qs)
    ensures BothSpaced(qs, IdealVerdicts(qs, limits), limits, client)
    decreases |qs|
  {
    if qs != [] {
      var front, q := LastComesLast(qs);
      IdealKeepsSpacing(front, limits, client);
      IdealStepKeepsSpacing(front, q, limits, client);
    }
  }

  /**
   Over any run, in any window of sixty seconds wherever it opens, a client gets at most `perMinute` requests past the
   global budget and at most `authPerMinute` sign-in requests forwarded.
   */
  lemma EveryWindowIsWithinBudget(qs: seq<Request>, limits: Limits, client: string, from: real)
    requires Monotone(qs)
    ensures var verdicts := Run(qs, limits).verdicts;
            && CountIn(Recorded(qs, verdicts, client), from) <= (if limits.perMinute > 0 then limits.perMinute else 0)
            && CountIn(AuthRecorded(qs, verdicts, client), from)
               <= (if limits.authPerMinute > 0 then limits.authPerMinute else 0)
  {
    PrunedLimiterIsIdeal(qs, limits);
    IdealKeepsSpacing(qs, limits, client);
    var verdicts := IdealVerdicts(qs, limits);
    SpacedWindowsAreBounded(Recorded(qs, verdicts, client), limits.perMinute, from);
    SpacedWindowsAreBounded(AuthRecorded(qs, verdicts, client), limits.authPerMinute, from);
  }

  // ---------- clients do not affect each other ----------

  function Only(qs: seq<Request>, client: string): seq<Request> {
    if qs == [] then []
    else
      var n := |qs| - 1;
      Only(qs[..n], client) + (if ClientOf(qs[n]) == client then [qs[n]] else [])
  }

  /** The verdicts that one client's requests got. */
  function VerdictsOf(qs: seq<Request>, verdicts: seq<Verdict>, client: string): seq<Verdict>
    requires |qs| == |verdicts|
  {
    if qs == [] then []
    else
      var n := |qs| - 1;
      VerdictsOf(qs[..n], verdicts[..n], client) + (if ClientOf(qs[n]) == client then [verdicts[n]] else [])
  }

  /** A client's requests get the verdicts they would get if no other client existed, whatever the clock does. */
  lemma {:induction false} ClientsAreIndependent(qs: seq<Request>, limits: Limits, client: string)
    ensures var all, alone := Run(qs, limits), Run(Only(qs, client), limits);
            && VerdictsOf(qs, all.verdicts, client) == alone.verdicts
            && Of(all.windows.hits, client) == Of(alone.windows.hits, client)
            && Of(all.windows.authHits, client) == Of(alone.windows.authHits, client)
  {
    if qs != [] {
      var n := |qs| - 1;
      ClientsAreIndependent(qs[..n], limits, client);
      var before := Run(qs[..n], limits);
      assert Run(qs, limits).verdicts[..n] == before.verdicts;
      var alone := Only(qs[..n], client);
      if ClientOf(qs[n]) == client {
        assert (alone + [qs[n]])[..|alone|] == alone;
        DispatchSeesOwnLists(before.windows, Run(alone, limits).windows, qs[n], limits);
      } else {
        DispatchIsLocal(before.windows, qs[n], limits, client);
        assert alone + [] == alone;
        assert VerdictsOf(qs[..n], before.verdicts, client) + [] == VerdictsOf(qs[..n], before.verdicts, client);
      }
    }
  }
}
