/** Which budget a path draws on, and how each request of a run is answered, told from the requests before it. */
module LimiterAnswers {
  import opened Common
  import opened RateLimiter

  lemma EndsWithIff(s: string, suffix: string)
    ensures EndsWith(s, suffix) <==> exists prefix: string :: s == prefix + suffix
  {
    if EndsWith(s, suffix) {
      assert s == s[..|s| - |suffix|] + suffix;
    }
  }

  /** Health checks are exempt, the three sign-in paths draw on both budgets, and any other path on the global one. */
  lemma PathsAreClassified(path: string)
    ensures Classify(path) == Health <==> exists prefix: string :: path == prefix + "/health"
    ensures Classify(path) == SignIn <==> exists prefix: string ::
                path == prefix + "/auth/login" || path == prefix + "/auth/register" || path == prefix + "/auth/refresh"
  {
    EndsWithIff(path, "/health");
    EndsWithIff(path, "/auth/login");
    EndsWithIff(path, "/auth/register");
    EndsWithIff(path, "/auth/refresh");
    if EndsWith(path, "/health") {
      assert path[|path| - 1] == 'h' && path[|path| - 2] == 't';
      assert !EndsWith(path, "/auth/login") by {
        assert "/auth/login"[10] == 'n';
      }
      assert !EndsWith(path, "/auth/register") by {
        assert "/auth/register"[13] == 'r';
      }
      assert !EndsWith(path, "/auth/refresh") by {
        assert "/auth/refresh"[12] == 'h' && "/auth/refresh"[11] == 's';
      }
    }
  }

  // ---------- every answer of a run ----------

  /** How many of the client's requests in the last sixty seconds got past the global budget. */
  function Spent(qs: seq<Request>, verdicts: seq<Verdict>, client: Option<string>, now: real): nat
    requires |qs| == |verdicts|
  {
    if qs == [] then 0
    else
      var n := |qs| - 1;
      Spent(qs[..n], verdicts[..n], client, now)
      + if SameHost(qs[n].client, client) && verdicts[n] in {Forwarded, AuthLimited} && now - qs[n].now < 60.0
        then 1 else 0
  }

  /** And how many of its sign-ins were forwarded. */
  function SignedIn(qs: seq<Request>, verdicts: seq<Verdict>, client: Option<string>, now: real): nat
    requires |qs| == |verdicts|
  {
    if qs == [] then 0
    else
      var n := |qs| - 1;
      SignedIn(qs[..n], verdicts[..n], client, now)
      + if SameHost(qs[n].client, client) && qs[n].route.SignIn? && verdicts[n].Forwarded? && now - qs[n].now < 60.0
        then 1 else 0
  }

  /** A client without an address counts as one that is called unknown. */
  predicate SameHost(a: Option<string>, b: Option<string>) {
    (if a.Some? then a.value else "unknown") == (if b.Some? then b.value else "unknown")
  }

  lemma {:induction false} SpentIs(qs: seq<Request>, verdicts: seq<Verdict>, q: Request)
    requires |qs| == |verdicts|
    ensures |Recent(Recorded(qs, verdicts, ClientOf(q)), q.now)| == Spent(qs, verdicts, q.client, q.now)
  {
    if qs != [] {
      var n := |qs| - 1;
      var before := Recorded(qs[..n], verdicts[..n], ClientOf(q));
      SpentIs(qs[..n], verdicts[..n], q);
      if ClientOf(qs[n]) == ClientOf(q) && verdicts[n] in {Forwarded, AuthLimited} {
        RecentAppends(before, qs[n].now, q.now);
      } else {
        assert before + [] == before;
      }
    }
  }

  lemma {:induction false} SignedInIs(qs: seq<Request>, verdicts: seq<Verdict>, q: Request)
    requires |qs| == |verdicts|
    ensures |Recent(AuthRecorded(qs, verdicts, ClientOf(q)), q.now)| == SignedIn(qs, verdicts, q.client, q.now)
  {
    if qs != [] {
      var n := |qs| - 1;
      var before := AuthRecorded(qs[..n], verdicts[..n], ClientOf(q));
      SignedInIs(qs[..n], verdicts[..n], q);
      if ClientOf(qs[n]) == ClientOf(q) && qs[n].route.SignIn? && verdicts[n] == Forwarded {
        RecentAppends(before, qs[n].now, q.now);
      } else {
        assert before + [] == before;
      }
    }
  }

  lemma {:induction false} IdealPrefix(qs: seq<Request>, limits: Limits, k: nat)
    requires k < |qs|
    ensures IdealVerdicts(qs, limits)[..k] == IdealVerdicts(qs[..k], limits)
    ensures IdealVerdicts(qs, limits)[k] == IdealVerdict(qs[..k], IdealVerdicts(qs[..k], limits), qs[k], limits)
  {
    var n := |qs| - 1;
    if k < n {
      IdealPrefix(qs[..n], limits, k);
      assert qs[..n][..k] == qs[..k];
    }
  }

  /**
   Over any run a request is refused exactly if its client has used up the global budget in the last sixty seconds or,
   for a sign-in, that of sign-ins. So nobody is refused who stays within both.
   */
  lemma RequestsAreAnswered(qs: seq<Request>, limits: Limits, k: nat)
    requires Monotone(qs) && k < |qs|
    ensures var verdicts, q := Run(qs, limits).verdicts, qs[k];
            && |verdicts| == |qs|
            && verdicts[k]
               == if q.route.Health? then Exempt
                  else if Spent(qs[..k], verdicts[..k], q.client, q.now) >= limits.perMinute then GlobalLimited
                  else if q.route.SignIn? && SignedIn(qs[..k], verdicts[..k], q.client, q.now) >= limits.authPerMinute
                  then AuthLimited
                  else Forwarded
  {
    PrunedLimiterIsIdeal(qs, limits);
    IdealPrefix(qs, limits, k);
    SpentIs(qs[..k], IdealVerdicts(qs[..k], limits), qs[k]);
    SignedInIs(qs[..k], IdealVerdicts(qs[..k], limits), qs[k]);
  }
}
