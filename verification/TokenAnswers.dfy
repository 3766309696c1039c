/** What each request for a token answers and leaves, and how long what it issues can be used. */
module TokenAnswers {
  import opened Common
  import opened RefreshTokens

  /** The row that a login or a refresh stores for a token of its user: it lasts one lifetime. */
  function NewRow(user: Uuid, jti: string, rest: string, now: int, lifetime: nat): Row {
    Row(user, Token(user, true, Some(jti), rest), now + lifetime, None)
  }

  /** The presented text is exactly that of a stored token. */
  predicate IsStored(t: Tokens, token: Presented, jti: string) {
    token.Decoded? && jti in t.rows && t.rows[jti].text == token.text
  }

  /** A login is granted exactly to an active account, and starts a new lineage. */
  lemma LoginLeaves(t: Tokens, q: Request, lifetime: nat)
    requires q.Login?
    ensures if q.user.Some? && q.user.value.active then
              Step(t, q, lifetime)
                == Outcome(Tokens(t.rows[q.jti := NewRow(q.user.value.id, q.jti, q.rest, q.now, lifetime)],
                                  t.lineage[q.jti := t.logins], t.logins + 1),
                           Issued(q.jti))
            else Step(t, q, lifetime) == Outcome(t, Unauthorized)
  {
  }

  /**
   A refresh is granted exactly to an active subject that presents a stored token which is neither revoked nor expired;
   it revokes that token and stores one for the same user and lineage. Anything else is refused and changes nothing.
   */
  lemma RefreshLeaves(t: Tokens, q: Request, lifetime: nat, jti: string)
    requires Inv(t) && q.Refresh?
    ensures if IsStored(t, q.token, jti) && t.rows[jti].revokedAt.None? && q.now < t.rows[jti].expiresAt
               && q.subjectIsActive
            then
              var spent := t.rows[jti].(revokedAt := Some(q.now));
              Step(t, q, lifetime)
                == Outcome(t.(rows := t.rows[jti := spent]
                                            [q.jti := NewRow(spent.user, q.jti, q.rest, q.now, lifetime)],
                              lineage := t.lineage[q.jti := t.lineage[jti]]),
                           Issued(q.jti))
            else IsStored(t, q.token, jti) ==> Step(t, q, lifetime) == Outcome(t, Unauthorized)
    ensures (forall other :: !IsStored(t, q.token, other)) ==> Step(t, q, lifetime) == Outcome(t, Unauthorized)
  {
    if IsStored(t, q.token, jti) {
      assert IsOwn(t.rows[jti], jti);
    }
    if q.token.Decoded? && Truthy(q.token.text.jti) {
      assert Accepted(t.rows, q.token, q.now) ==> IsStored(t, q.token, q.token.text.jti.value);
    }
  }

  /** A logout revokes the token of the presented id exactly if that is neither revoked nor expired. */
  lemma LogoutLeaves(t: Tokens, q: Request, lifetime: nat, jti: string)
    requires Inv(t) && q.Logout? && jti in t.rows
    ensures var o := Step(t, q, lifetime);
            && o.response == Finished && o.tokens == t.(rows := o.tokens.rows) && o.tokens.rows.Keys == t.rows.Keys
            && o.tokens.rows[jti]
               == if q.token.Decoded? && q.token.text.jti == Some(jti) && t.rows[jti].revokedAt.None?
                     && q.now < t.rows[jti].expiresAt
                  then t.rows[jti].(revokedAt := Some(q.now)) else t.rows[jti]
  {
    assert IsOwn(t.rows[jti], jti);
  }

  /** Revoking all tokens of a user revokes exactly those of his that are not revoked yet. */
  lemma RevokeAllLeaves(t: Tokens, q: Request, lifetime: nat, jti: string)
    requires q.RevokeAll? && jti in t.rows
    ensures var o := Step(t, q, lifetime);
            && o.response == Finished && o.tokens == t.(rows := o.tokens.rows) && o.tokens.rows.Keys == t.rows.Keys
            && o.tokens.rows[jti] == if t.rows[jti].user == q.owner && t.rows[jti].revokedAt.None?
                                     then t.rows[jti].(revokedAt := Some(q.now)) else t.rows[jti]
  {
  }

  // ---------- how long a token lasts ----------

  /** The request issued the row under this id. */
  predicate IssuedBy(row: Row, jti: string, q: Request, lifetime: nat) {
    && (q.Login? || q.Refresh?) && q.jti == jti && row.expiresAt == q.now + lifetime
    && (q.Login? ==> q.user.Some? && q.user.value.active && row.user == q.user.value.id)
    && (q.Refresh? ==> q.token.Decoded? && q.subjectIsActive && row.user == q.token.text.sub)
  }

  lemma NewRowIsIssued(t: Tokens, q: Request, lifetime: nat, jti: string)
    requires Inv(t) && Fresh(t, q) && jti in Step(t, q, lifetime).tokens.rows && jti !in t.rows
    ensures IssuedBy(Step(t, q, lifetime).tokens.rows[jti], jti, q, lifetime)
  {
  }

  lemma IssuedNow(ts: seq<Tokens>, qs: seq<Request>, lifetime: nat, k: nat, jti: string)
    requires IsRun(ts, qs, lifetime) && 0 < k < |ts| && jti in ts[k].rows && jti !in ts[k - 1].rows
    ensures IssuedBy(ts[k].rows[jti], jti, qs[k - 1], lifetime)
  {
    OneLiveTokenPerLogin(ts, qs, lifetime, k - 1);
    NewRowIsIssued(ts[k - 1], qs[k - 1], lifetime, jti);
  }

  lemma RowStays(ts: seq<Tokens>, qs: seq<Request>, lifetime: nat, a: nat, b: nat, jti: string)
    requires IsRun(ts, qs, lifetime) && a <= b < |ts| && jti in ts[a].rows
    ensures jti in ts[b].rows && ts[b].rows[jti].user == ts[a].rows[jti].user
            && ts[b].rows[jti].expiresAt == ts[a].rows[jti].expiresAt
  {
    RowsStay(ts, qs, lifetime, a, b);
  }

  /** In every state of every run each token was issued by one request, and expires one lifetime after it. */
  lemma {:induction false} EveryTokenWasIssued(ts: seq<Tokens>, qs: seq<Request>, lifetime: nat, k: nat, jti: string)
    returns (j: nat)
    requires IsRun(ts, qs, lifetime) && k < |ts| && jti in ts[k].rows
    ensures j < k && IssuedBy(ts[k].rows[jti], jti, qs[j], lifetime)
  {
    if jti in ts[k - 1].rows {
      j := EveryTokenWasIssued(ts, qs, lifetime, k - 1, jti);
      RowStays(ts, qs, lifetime, k - 1, k, jti);
    } else {
      j := k - 1;
      IssuedNow(ts, qs, lifetime, k, jti);
    }
  }

  /**
   Over any run a stored token can be refreshed exactly while it is unrevoked and less than one lifetime has passed
   since the request that issued it, by an active subject; otherwise presenting it changes nothing.
   */
  lemma TokenLastsOneLifetime(ts: seq<Tokens>, qs: seq<Request>, lifetime: nat, b: nat, jti: string)
    returns (j: nat)
    requires IsRun(ts, qs, lifetime) && b < |qs| && qs[b].Refresh? && IsStored(ts[b], qs[b].token, jti)
    ensures j < b && (qs[j].Login? || qs[j].Refresh?) && qs[j].jti == jti
    ensures if ts[b].rows[jti].revokedAt.None? && qs[b].now < qs[j].now + lifetime && qs[b].subjectIsActive
            then Step(ts[b], qs[b], lifetime).response == Issued(qs[b].jti)
            else Step(ts[b], qs[b], lifetime) == Outcome(ts[b], Unauthorized)
  {
    OneLiveTokenPerLogin(ts, qs, lifetime, b);
    j := EveryTokenWasIssued(ts, qs, lifetime, b, jti);
    RefreshLeaves(ts[b], qs[b], lifetime, jti);
  }
}
