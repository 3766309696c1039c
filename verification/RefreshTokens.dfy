/**
 Refresh-token rotation on values: every login starts a lineage of single-use tokens. The lineage of a token is
 bookkeeping of the model; the stored row does not carry it.
 */
module RefreshTokens {
  import opened Common

  /** What a token's text says; `rest` is whatever else makes one text differ from another. */
  datatype Token = Token(sub: Uuid, isRefresh: bool, jti: Option<string>, rest: string)

  /** A stored token: whose it is, the text it was stored for, and until when. */
  datatype Row = Row(user: Uuid, text: Token, expiresAt: int, revokedAt: Option<int>)

  datatype Tokens = Tokens(rows: map<string, Row>, lineage: map<string, nat>, logins: nat)

  const NO_TOKENS := Tokens(map[], map[], 0)

  /** What decoding a presented token yields. */
  datatype Presented = Undecodable | Decoded(text: Token)

  datatype User = User(id: Uuid, active: bool)

  /** A refresh reads from outside whether the token's subject names an active account. */
  datatype Request =
    | Login(user: Option<User>, jti: string, rest: string, now: int)
    | Refresh(token: Presented, subjectIsActive: bool, jti: string, rest: string, now: int)
    | Logout(token: Presented, now: int)
    | RevokeAll(owner: Uuid, now: int)

  datatype Response = Issued(jti: string) | Unauthorized | Finished

  datatype Outcome = Outcome(tokens: Tokens, response: Response)

  predicate Live(row: Row, now: int) {
    row.revokedAt.None? && row.expiresAt > now
  }

  predicate IsActive(rows: map<string, Row>, jti: string, now: int) {
    jti in rows && Live(rows[jti], now)
  }

  function Revoked(rows: map<string, Row>, jti: string, now: int): map<string, Row>
    requires jti in rows
  {
    rows[jti := rows[jti].(revokedAt := Some(now))]
  }

  function Issue(t: Tokens, user: Uuid, jti: string, rest: string, lineage: nat, now: int, lifetime: nat): Outcome {
    var row := Row(user, Token(user, true, Some(jti), rest), now + lifetime, None);
    Outcome(t.(rows := t.rows[jti := row], lineage := t.lineage[jti := lineage]), Issued(jti))
  }

  /** The presented token is a refresh token whose stored row is active and was stored for this text. */
  predicate Accepted(rows: map<string, Row>, token: Presented, now: int) {
    && token.Decoded? && token.text.isRefresh && Truthy(token.text.jti)
    && IsActive(rows, token.text.jti.value, now)
    && rows[token.text.jti.value].text == token.text
  }

  function RevokeAllRows(rows: map<string, Row>, user: Uuid, now: int): map<string, Row> {
    map jti | jti in rows ::
      if rows[jti].user == user && rows[jti].revokedAt.None? then rows[jti].(revokedAt := Some(now)) else rows[jti]
  }

  function Step(t: Tokens, q: Request, lifetime: nat): Outcome {
    match q
    case Login(user, jti, rest, now) =>
      if user.None? || !user.value.active then Outcome(t, Unauthorized)
      else Issue(t.(logins := t.logins + 1), user.value.id, jti, rest, t.logins, now, lifetime)
    case Refresh(token, subjectIsActive, jti, rest, now) =>
      if !Accepted(t.rows, token, now) || !subjectIsActive then Outcome(t, Unauthorized)
      else
        var spent := token.text.jti.value;
        Issue(t.(rows := Revoked(t.rows, spent, now)), token.text.sub, jti, rest,
              if spent in t.lineage then t.lineage[spent] else 0, now, lifetime)
    case Logout(token, now) =>
      if token.Decoded? && Truthy(token.text.jti) && IsActive(t.rows, token.text.jti.value, now)
      then Outcome(t.(rows := Revoked(t.rows, token.text.jti.value, now)), Finished)
      else Outcome(t, Finished)
    case RevokeAll(owner, now) => Outcome(t.(rows := RevokeAllRows(t.rows, owner, now)), Finished)
  }

  /** Token ids are never drawn twice. */
  predicate Fresh(t: Tokens, q: Request) {
    (q.Login? || q.Refresh?) ==> q.jti !in t.rows && q.jti != ""
  }

  /** The request presents a token with this id. */
  predicate Presents(q: Request, jti: string) {
    (q.Refresh? || q.Logout?) && q.token.Decoded? && q.token.text.jti == Some(jti)
  }

  // ---------- the invariant ----------

  /**
   Every token is stored for a refresh token of its own id and user, belongs to the lineage of some login, and shares
   its user with the whole lineage; a lineage has at most one unrevoked token.
   */
  ghost predicate Inv(t: Tokens) {
    && t.rows.Keys == t.lineage.Keys
    && (forall jti :: jti in t.rows ==> IsOwn(t.rows[jti], jti))
    && (forall jti :: jti in t.lineage ==> t.lineage[jti] < t.logins)
    && OneUser(t)
    && OneLive(t)
  }

  ghost predicate OneUser(t: Tokens)
    requires t.rows.Keys == t.lineage.Keys
  {
    forall a, b :: a in t.rows && b in t.rows && t.lineage[a] == t.lineage[b] ==> t.rows[a].user == t.rows[b].user
  }

  ghost predicate OneLive(t: Tokens) {
    forall a, b :: Usable(t, a) && Usable(t, b) && t.lineage[a] == t.lineage[b] ==> a == b
  }

  predicate IsOwn(row: Row, jti: string) {
    jti != "" && row.text.sub == row.user && row.text.isRefresh && row.text.jti == Some(jti)
  }

  predicate SameLineage(t: Tokens, a: string, b: string) {
    a in t.rows && b in t.rows && a in t.lineage && b in t.lineage && t.lineage[a] == t.lineage[b]
  }

  predicate Usable(t: Tokens, jti: string) {
    jti in t.rows && jti in t.lineage && t.rows[jti].revokedAt.None?
  }

  lemma IssueKeepsInv(t: Tokens, user: Uuid, jti: string, rest: string, lineage: nat, now: int, lifetime: nat)
    requires Inv(t) && jti !in t.rows && jti != "" && lineage < t.logins
    requires forall a :: a in t.rows && t.lineage[a] == lineage ==> t.rows[a].user == user && t.rows[a].revokedAt.Some?
    ensures Inv(Issue(t, user, jti, rest, lineage, now, lifetime).tokens)
  {
  }

  lemma RevokeKeepsInv(t: Tokens, jti: string, now: int)
    requires Inv(t) && jti in t.rows
    ensures Inv(t.(rows := Revoked(t.rows, jti, now)))
  {
  }

  /** Spending a live token and issuing the next one of its lineage. */
  lemma RotationKeepsInv(t: Tokens, spent: string, jti: string, rest: string, now: int, lifetime: nat)
    requires Inv(t) && Usable(t, spent) && jti !in t.rows && jti != ""
    ensures var revoked := t.(rows := Revoked(t.rows, spent, now));
            Inv(Issue(revoked, t.rows[spent].user, jti, rest, t.lineage[spent], now, lifetime).tokens)
  {
    RevokeKeepsInv(t, spent, now);
    var revoked := t.(rows := Revoked(t.rows, spent, now));
    IssueKeepsInv(revoked, t.rows[spent].user, jti, rest, t.lineage[spent], now, lifetime);
  }

  lemma RevokeAllKeepsInv(t: Tokens, owner: Uuid, now: int)
    requires Inv(t)
    ensures Inv(t.(rows := RevokeAllRows(t.rows, owner, now)))
  {
  }

  lemma StepKeepsInv(t: Tokens, q: Request, lifetime: nat)
    requires Inv(t) && Fresh(t, q)
    ensures Inv(Step(t, q, lifetime).tokens)
  {
    match q
    case Login(user, jti, rest, now) =>
      if user.Some? && user.value.active {
        IssueKeepsInv(t.(logins := t.logins + 1), user.value.id, jti, rest, t.logins, now, lifetime);
      }
    case Refresh(token, subjectIsActive, jti, rest, now) =>
      if Accepted(t.rows, token, now) && subjectIsActive {
        RotationKeepsInv(t, token.text.jti.value, jti, rest, now, lifetime);
      }
    case Logout(token, now) =>
      if token.Decoded? && Truthy(token.text.jti) && IsActive(t.rows, token.text.jti.value, now) {
        RevokeKeepsInv(t, token.text.jti.value, now);
      }
    case RevokeAll(owner, now) => RevokeAllKeepsInv(t, owner, now);
  }

  ghost predicate IsRun(ts: seq<Tokens>, qs: seq<Request>, lifetime: nat) {
    && |ts| == |qs| + 1
    && ts[0] == NO_TOKENS
    && (forall i :: 0 <= i < |qs| ==> Fresh(ts[i], qs[i]) && ts[i + 1] == Step(ts[i], qs[i], lifetime).tokens)
    && (forall i, j :: 0 <= i < j < |qs| ==> qs[i].now <= qs[j].now)
  }

  /** In every state of every run each login's lineage has at most one token that can still be used. */
  lemma {:induction false} OneLiveTokenPerLogin(ts: seq<Tokens>, qs: seq<Request>, lifetime: nat, k: nat)
    requires IsRun(ts, qs, lifetime) && k < |ts|
    ensures Inv(ts[k])
  {
    if k > 0 {
      OneLiveTokenPerLogin(ts, qs, lifetime, k - 1);
      StepKeepsInv(ts[k - 1], qs[k - 1], lifetime);
    }
  }

  // ---------- over time ----------

  /** Rows are never lost, never change hands, and once revoked stay as they are; lineages are fixed. */
  ghost predicate Later(t: Tokens, u: Tokens) {
    && t.logins <= u.logins
    && (forall jti :: jti in t.rows ==>
          && jti in u.rows
          && u.rows[jti].user == t.rows[jti].user && u.rows[jti].text == t.rows[jti].text
          && u.rows[jti].expiresAt == t.rows[jti].expiresAt
          && (t.rows[jti].revokedAt.Some? ==> u.rows[jti] == t.rows[jti]))
    && (forall jti :: jti in t.lineage ==> jti in u.lineage && u.lineage[jti] == t.lineage[jti])
  }

  lemma LaterTrans(t: Tokens, u: Tokens, v: Tokens)
    requires Later(t, u) && Later(u, v)
    ensures Later(t, v)
  {
  }

  lemma IssueIsLater(t: Tokens, user: Uuid, jti: string, rest: string, lineage: nat, now: int, lifetime: nat)
    requires t.rows.Keys == t.lineage.Keys && jti !in t.rows
    ensures Later(t, Issue(t, user, jti, rest, lineage, now, lifetime).tokens)
  {
  }

  lemma RevokeIsLater(t: Tokens, jti: string, now: int)
    requires jti in t.rows && t.rows[jti].revokedAt.None?
    ensures Later(t, t.(rows := Revoked(t.rows, jti, now)))
  {
  }

  lemma RevokeAllIsLater(t: Tokens, owner: Uuid, now: int)
    ensures Later(t, t.(rows := RevokeAllRows(t.rows, owner, now)))
  {
  }

  lemma RotationIsLater(t: Tokens, spent: string, jti: string, rest: string, now: int, lifetime: nat)
    requires Inv(t) && Usable(t, spent) && jti !in t.rows
    ensures var revoked := t.(rows := Revoked(t.rows, spent, now));
            Later(t, Issue(revoked, t.rows[spent].user, jti, rest, t.lineage[spent], now, lifetime).tokens)
  {
    RevokeIsLater(t, spent, now);
    var revoked := t.(rows := Revoked(t.rows, spent, now));
    IssueIsLater(revoked, t.rows[spent].user, jti, rest, t.lineage[spent], now, lifetime);
    LaterTrans(t, revoked, Issue(revoked, t.rows[spent].user, jti, rest, t.lineage[spent], now, lifetime).tokens);
  }

  lemma StepIsLater(t: Tokens, q: Request, lifetime: nat)
    requires Inv(t) && Fresh(t, q)
    ensures Later(t, Step(t, q, lifetime).tokens)
  {
    match q
    case Login(user, jti, rest, now) =>
      if user.Some? && user.value.active {
        var begun := t.(logins := t.logins + 1);
        IssueIsLater(begun, user.value.id, jti, rest, t.logins, now, lifetime);
      }
    case Refresh(token, subjectIsActive, jti, rest, now) =>
      if Accepted(t.rows, token, now) && subjectIsActive {
        RotationIsLater(t, token.text.jti.value, jti, rest, now, lifetime);
      }
    case Logout(token, now) =>
      if token.Decoded? && Truthy(token.text.jti) && IsActive(t.rows, token.text.jti.value, now) {
        RevokeIsLater(t, token.text.jti.value, now);
      }
    case RevokeAll(owner, now) => RevokeAllIsLater(t, owner, now);
  }

  /** Later states of a run only add rows and revoke what was not revoked. */
  lemma {:induction false} RowsStay(ts: seq<Tokens>, qs: seq<Request>, lifetime: nat, a: nat, b: nat)
    requires IsRun(ts, qs, lifetime) && a <= b < |ts|
    ensures Later(ts[a], ts[b])
    decreases b
  {
    if a < b {
      RowsStay(ts, qs, lifetime, a, b - 1);
      OneLiveTokenPerLogin(ts, qs, lifetime, b - 1);
      StepIsLater(ts[b - 1], qs[b - 1], lifetime);
      LaterTrans(ts[a], ts[b - 1], ts[b]);
    }
  }

  /** A token that was refreshed or logged out never buys anything again, and presenting it again changes nothing. */
  lemma SpentTokensStaySpent(ts: seq<Tokens>, qs: seq<Request>, lifetime: nat, a: nat, b: nat, jti: string)
    requires IsRun(ts, qs, lifetime) && a < b < |qs| && Presents(qs[a], jti) && Presents(qs[b], jti)
    requires if qs[a].Refresh? then Step(ts[a], qs[a], lifetime).response.Issued?
             else jti != "" && IsActive(ts[a].rows, jti, qs[a].now)
    ensures Step(ts[b], qs[b], lifetime).tokens == ts[b]
    ensures qs[b].Refresh? ==> Step(ts[b], qs[b], lifetime).response == Unauthorized
  {
    RowsStay(ts, qs, lifetime, a + 1, b);
  }

  /** In every state of every run all tokens that descend from one login are that login's user's. */
  lemma LineageHasOneUser(ts: seq<Tokens>, qs: seq<Request>, lifetime: nat, a: nat, b: nat, first: string,
                          later: string)
    requires IsRun(ts, qs, lifetime) && a <= b < |ts|
    requires first in ts[a].lineage && later in ts[b].lineage && ts[a].lineage[first] == ts[b].lineage[later]
    ensures first in ts[a].rows && later in ts[b].rows && ts[a].rows[first].user == ts[b].rows[later].user
  {
    OneLiveTokenPerLogin(ts, qs, lifetime, a);
    OneLiveTokenPerLogin(ts, qs, lifetime, b);
    RowsStay(ts, qs, lifetime, a, b);
  }

  /** No token of the lineage can be used at `now` or later. */
  ghost predicate Ended(t: Tokens, lineage: nat, now: int) {
    forall jti :: jti in t.rows && jti in t.lineage && t.lineage[jti] == lineage ==> !Live(t.rows[jti], now)
  }

  ghost predicate NoNewToken(t: Tokens, u: Tokens, lineage: nat) {
    forall jti :: jti in u.lineage && u.lineage[jti] == lineage ==> jti in t.lineage && t.lineage[jti] == lineage
  }

  lemma EndedStays(t: Tokens, q: Request, lifetime: nat, lineage: nat, now: int)
    requires Inv(t) && Fresh(t, q) && lineage < t.logins && Ended(t, lineage, now) && now <= q.now
    ensures var u := Step(t, q, lifetime).tokens;
            Ended(u, lineage, q.now) && NoNewToken(t, u, lineage) && lineage < u.logins
  {
  }

  /** When the last request before state `b` was made. */
  function Clock(qs: seq<Request>, a: nat, b: nat, now: int): int
    requires a <= b <= |qs|
  {
    if a == b then now else qs[b - 1].now
  }

  /** The lineage has ended in `u`, and got no token since `t`. */
  ghost predicate OverSince(t: Tokens, u: Tokens, lineage: nat, now: int) {
    lineage < u.logins && Ended(u, lineage, now) && NoNewToken(t, u, lineage)
  }

  lemma StepIsOver(s: Tokens, t: Tokens, q: Request, lifetime: nat, lineage: nat, now: int)
    requires Inv(t) && Fresh(t, q) && OverSince(s, t, lineage, now) && now <= q.now
    ensures OverSince(s, Step(t, q, lifetime).tokens, lineage, q.now)
  {
    EndedStays(t, q, lifetime, lineage, now);
  }

  lemma ClockGoesOn(ts: seq<Tokens>, qs: seq<Request>, lifetime: nat, a: nat, b: nat, now: int)
    requires IsRun(ts, qs, lifetime) && a < b <= |qs| && now <= qs[a].now
    ensures Clock(qs, a, b - 1, now) <= Clock(qs, a, b, now) == qs[b - 1].now
  {
  }

  lemma OverStepOfRun(ts: seq<Tokens>, qs: seq<Request>, lifetime: nat, a: nat, b: nat, lineage: nat, now: int)
    requires IsRun(ts, qs, lifetime) && a < b <= |qs| && now <= qs[a].now
    requires OverSince(ts[a], ts[b - 1], lineage, Clock(qs, a, b - 1, now))
    ensures OverSince(ts[a], ts[b], lineage, Clock(qs, a, b, now))
  {
    ClockGoesOn(ts, qs, lifetime, a, b, now);
    OneLiveTokenPerLogin(ts, qs, lifetime, b - 1);
    StepIsOver(ts[a], ts[b - 1], qs[b - 1], lifetime, lineage, Clock(qs, a, b - 1, now));
  }

  /** A lineage without a live token is over for good: no later request gives it one. */
  lemma {:induction false} EndedForGood(ts: seq<Tokens>, qs: seq<Request>, lifetime: nat, a: nat, b: nat,
                                        lineage: nat, now: int)
    requires IsRun(ts, qs, lifetime) && a <= b <= |qs| && lineage < ts[a].logins && Ended(ts[a], lineage, now)
    requires a < |qs| ==> now <= qs[a].now
    ensures OverSince(ts[a], ts[b], lineage, Clock(qs, a, b, now))
    decreases b
  {
    if a < b {
      EndedForGood(ts, qs, lifetime, a, b - 1, lineage, now);
      OverStepOfRun(ts, qs, lifetime, a, b, lineage, now);
    }
  }

  /** Once a lineage has ended, every later refresh with one of its tokens is refused and changes nothing. */
  lemma EndedLineageNeverIssues(ts: seq<Tokens>, qs: seq<Request>, lifetime: nat, a: nat, b: nat, lineage: nat,
                                now: int)
    requires IsRun(ts, qs, lifetime) && a <= b < |qs| && lineage < ts[a].logins && Ended(ts[a], lineage, now)
             && now <= qs[a].now
    requires qs[b].Refresh? && qs[b].token.Decoded? && Truthy(qs[b].token.text.jti)
    requires var jti := qs[b].token.text.jti.value;
             jti in ts[b].lineage && ts[b].lineage[jti] == lineage
    ensures Step(ts[b], qs[b], lifetime) == Outcome(ts[b], Unauthorized)
  {
    EndedForGood(ts, qs, lifetime, a, b, lineage, now);
    assert Clock(qs, a, b, now) <= qs[b].now;
  }

  /** Logging out the live token of a lineage ends the lineage. */
  lemma LogoutEndsLineage(t: Tokens, q: Request, lifetime: nat)
    requires Inv(t) && q.Logout? && q.token.Decoded? && Truthy(q.token.text.jti)
             && IsActive(t.rows, q.token.text.jti.value, q.now)
    ensures Ended(Step(t, q, lifetime).tokens, t.lineage[q.token.text.jti.value], q.now)
  {
  }

  /**
   A refresh moves its lineage's one live token on: the old one is spent and the new one is live, for the same login.
   */
  lemma RefreshRotates(t: Tokens, q: Request, lifetime: nat)
    requires Inv(t) && Fresh(t, q) && q.Refresh? && Step(t, q, lifetime).response.Issued? && lifetime > 0
    ensures var u := Step(t, q, lifetime).tokens;
            && u.lineage[q.jti] == t.lineage[q.token.text.jti.value]
            && Live(u.rows[q.jti], q.now) && u.rows[q.token.text.jti.value].revokedAt == Some(q.now)
            && (forall other :: other in u.rows && u.lineage[other] == u.lineage[q.jti] && other != q.jti ==>
                  u.rows[other].revokedAt.Some?)
  {
  }

  // ---------- reuse ----------

  /** A live token stays as it is until it is presented itself or its user's tokens are all revoked. */
  lemma {:induction false} LiveUntilPresented(ts: seq<Tokens>, qs: seq<Request>, lifetime: nat, a: nat, b: nat,
                                              live: string)
    requires IsRun(ts, qs, lifetime) && a <= b <= |qs| && Usable(ts[a], live)
    requires forall i :: a <= i < b ==>
             !Presents(qs[i], live) && !(qs[i].RevokeAll? && qs[i].owner == ts[a].rows[live].user)
    ensures live in ts[b].rows && ts[b].rows[live] == ts[a].rows[live]
    decreases b
  {
    if a < b {
      LiveUntilPresented(ts, qs, lifetime, a, b - 1, live);
      OneLiveTokenPerLogin(ts, qs, lifetime, b - 1);
      UnpresentedStays(ts[b - 1], qs[b - 1], lifetime, live);
    }
  }

  lemma UnpresentedStays(t: Tokens, q: Request, lifetime: nat, live: string)
    requires Inv(t) && Fresh(t, q) && Usable(t, live)
    requires !Presents(q, live) && !(q.RevokeAll? && q.owner == t.rows[live].user)
    ensures var rows := Step(t, q, lifetime).tokens.rows;
            live in rows && rows[live] == t.rows[live]
  {
  }

  /**
   Presenting a spent token again is refused and does not end its lineage: as long as nothing presents the live token of
   that lineage or revokes all tokens of its user, the live token can later be refreshed exactly if it has not expired
   and its user is active, and the lineage goes on.
   */
  lemma ReuseLeavesLineageAlive(ts: seq<Tokens>, qs: seq<Request>, lifetime: nat, a: nat, b: nat, spent: string,
                                live: string)
    requires IsRun(ts, qs, lifetime) && a < b < |qs|
    requires qs[a].Refresh? && Presents(qs[a], spent) && SameLineage(ts[a], spent, live)
    requires ts[a].rows[spent].revokedAt.Some? && Usable(ts[a], live)
    requires forall i :: a < i < b ==>
             !Presents(qs[i], live) && !(qs[i].RevokeAll? && qs[i].owner == ts[a].rows[live].user)
    requires qs[b].Refresh? && qs[b].token == Decoded(ts[a].rows[live].text)
    ensures Step(ts[a], qs[a], lifetime) == Outcome(ts[a], Unauthorized)
    ensures var o := Step(ts[b], qs[b], lifetime);
            && (o.response.Issued? <==> qs[b].subjectIsActive && ts[a].rows[live].expiresAt > qs[b].now)
            && (o.response.Issued? ==>
                qs[b].jti in o.tokens.lineage && o.tokens.lineage[qs[b].jti] == ts[a].lineage[spent])
  {
    OneLiveTokenPerLogin(ts, qs, lifetime, a);
    assert ts[a + 1] == ts[a];
    LiveUntilPresented(ts, qs, lifetime, a + 1, b, live);
    RowsStay(ts, qs, lifetime, a, b);
  }

  /** Log in, refresh, present the old token again, and refresh with the new one. */
  lemma ReusedAndRefreshed(user: Uuid) returns (ts: seq<Tokens>, qs: seq<Request>)
    ensures |qs| == 4 && IsRun(ts, qs, 10) && Presents(qs[1], "a") && Presents(qs[2], "a")
    ensures Step(ts[2], qs[2], 10) == Outcome(ts[2], Unauthorized)
    ensures Step(ts[3], qs[3], 10).response == Issued("c")
    ensures ts[4].lineage == map["a" := 0, "b" := 0, "c" := 0]
  {
    var a, b := Decoded(Token(user, true, Some("a"), "")), Decoded(Token(user, true, Some("b"), ""));
    qs := [Login(Some(User(user, true)), "a", "", 0), Refresh(a, true, "b", "", 1), Refresh(a, true, "x", "", 2),
           Refresh(b, true, "c", "", 3)];
    var t1 := Step(NO_TOKENS, qs[0], 10).tokens;
    var t2 := Step(t1, qs[1], 10).tokens;
    var t3 := Step(t2, qs[2], 10).tokens;
    ts := [NO_TOKENS, t1, t2, t3, Step(t3, qs[3], 10).tokens];
  }
}
