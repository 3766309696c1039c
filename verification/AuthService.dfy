/**
 Sign-in, refresh and sign-out over live token rows. Every method is tied to the value-level step of RefreshTokens; the
 lineage of a token is ghost state.
 */
module AuthService {
  import opened Common
  import opened RefreshTokens

  /** A stored token; only its revocation time ever changes. */
  class RefreshToken {
    const jti: string
    const user: Uuid
    const text: Token
    const expiresAt: int
    var revokedAt: Option<int>

    constructor (jti: string, user: Uuid, text: Token, expiresAt: int)
      ensures this.jti == jti && Snapshot() == Row(user, text, expiresAt, None)
    {
      this.jti, this.user, this.text, this.expiresAt := jti, user, text, expiresAt;
      this.revokedAt := None;
    }

    function Snapshot(): Row
      reads this
    {
      Row(user, text, expiresAt, revokedAt)
    }
  }

  class RefreshTokenRepository {
    var table: map<string, RefreshToken>

    constructor ()
      ensures table == map[] && Valid()
    {
      table := map[];
    }

    ghost predicate Valid()
      reads this
    {
      forall jti :: jti in table ==> table[jti].jti == jti
    }

    ghost function Rows(): map<string, Row>
      reads this, table.Values
    {
      map jti | jti in table :: table[jti].Snapshot()
    }

    method GetActiveByJti(jti: string, now: int) returns (token: RefreshToken?)
      requires Valid()
      ensures token != null <==> IsActive(Rows(), jti, now)
      ensures token != null ==> jti in table && token == table[jti]
    {
      token := null;
      if jti in table && table[jti].revokedAt.None? && table[jti].expiresAt > now {
        token := table[jti];
      }
    }

    method Revoke(token: RefreshToken, now: int)
      requires Valid() && token in table.Values
      modifies token
      ensures Rows() == Revoked(old(Rows()), token.jti, now)
    {
      token.revokedAt := Some(now);
    }

    method Add(token: RefreshToken)
      requires Valid() && token.jti !in table
      modifies this
      ensures Valid() && table == old(table)[token.jti := token]
      ensures Rows() == old(Rows())[token.jti := token.Snapshot()]
    {
      table := table[token.jti := token];
    }

    /** The user's tokens that are not yet revoked, each once, in some order. */
    method UnrevokedOf(user: Uuid) returns (found: seq<RefreshToken>)
      requires Valid()
      ensures forall jti :: jti in table ==>
              (table[jti] in found <==> table[jti].user == user && table[jti].revokedAt.None?)
      ensures forall i :: 0 <= i < |found| ==> found[i].jti in table && table[found[i].jti] == found[i]
      ensures forall i, j :: 0 <= i < j < |found| ==> found[i] != found[j]
    {
      found := [];
      var left := table.Keys;
      while left != {}
        invariant left <= table.Keys
        invariant forall i :: 0 <= i < |found| ==>
                    found[i].jti in table && found[i].jti !in left && table[found[i].jti] == found[i]
        invariant forall jti :: jti in table && jti !in left ==>
                    (table[jti] in found <==> table[jti].user == user && table[jti].revokedAt.None?)
        invariant forall i, j :: 0 <= i < j < |found| ==> found[i] != found[j]
        decreases left
      {
        var jti :| jti in left;
        left := left - {jti};
        if table[jti].user == user && table[jti].revokedAt.None? {
          found := found + [table[jti]];
        }
      }
    }

    /** The names of the user's tokens that are not yet revoked. */
    ghost function Open(user: Uuid): set<string>
      reads this, table.Values
    {
      set jti | jti in table && table[jti].user == user && table[jti].revokedAt.None?
    }

    method RevokeAllForUser(user: Uuid, now: int) returns (count: nat)
      requires Valid()
      modifies table.Values
      ensures Valid() && Rows() == RevokeAllRows(old(Rows()), user, now)
      ensures count == |old(Open(user))|
    {
      var tokens := UnrevokedOf(user);
      CountTokens(tokens, Open(user));
      count := |tokens|;
      for i := 0 to |tokens|
        invariant forall jti :: jti in table ==>
                    table[jti].revokedAt == if table[jti] in tokens[..i] then Some(now) else old(table[jti].revokedAt)
      {
        assert tokens[..i + 1] == tokens[..i] + [tokens[i]];
        tokens[i].revokedAt := Some(now);
      }
      assert tokens[..|tokens|] == tokens;
    }
  }

  /** Distinctly named tokens are as many as their names. */
  lemma {:induction false} CountTokens(tokens: seq<RefreshToken>, names: set<string>)
    requires forall i, j :: 0 <= i < j < |tokens| ==> tokens[i].jti != tokens[j].jti
    requires forall i :: 0 <= i < |tokens| ==> tokens[i].jti in names
    requires forall name :: name in names ==> exists i :: 0 <= i < |tokens| && tokens[i].jti == name
    ensures |names| == |tokens|
  {
    if tokens == [] {
      assert names == {};
    } else {
      var rest := names - {tokens[0].jti};
      forall name | name in rest
        ensures exists i :: 0 <= i < |tokens[1..]| && tokens[1..][i].jti == name
      {
        var i :| 0 <= i < |tokens| && tokens[i].jti == name;
        assert tokens[1..][i - 1].jti == name;
      }
      CountTokens(tokens[1..], rest);
    }
  }

  class AuthService {
    const tokens: RefreshTokenRepository
    const lifetime: nat
    ghost var lineage: map<string, nat>
    ghost var logins: nat

    constructor (lifetime: nat)
      ensures Valid() && Model() == NO_TOKENS && this.lifetime == lifetime
      ensures fresh(tokens)
    {
      this.lifetime := lifetime;
      tokens := new RefreshTokenRepository();
      lineage, logins := map[], 0;
    }

    ghost predicate Valid()
      reads this, tokens
    {
      tokens.Valid()
    }

    ghost function Model(): Tokens
      reads this, tokens, tokens.table.Values
    {
      Tokens(tokens.Rows(), lineage, logins)
    }

    /** `user` is the account the e-mail address and password belong to, if any. */
    method Login(user: Option<User>, jti: string, rest: string, now: int) returns (response: Response)
      requires Valid() && Fresh(Model(), Request.Login(user, jti, rest, now))
      modifies this, tokens
      ensures Valid()
      ensures Outcome(Model(), response) == Step(old(Model()), Request.Login(user, jti, rest, now), lifetime)
    {
      if user.None? {
        return Unauthorized;
      }
      if !user.value.active {
        return Unauthorized;
      }
      ghost var started := logins;
      logins := logins + 1;
      response := IssueTokens(user.value.id, jti, rest, started, now);
    }

    method Refresh(token: Presented, subjectIsActive: bool, jti: string, rest: string, now: int)
      returns (response: Response)
      requires Valid() && Fresh(Model(), Request.Refresh(token, subjectIsActive, jti, rest, now))
      modifies this, tokens, tokens.table.Values
      ensures Valid()
      ensures Outcome(Model(), response)
           == Step(old(Model()), Request.Refresh(token, subjectIsActive, jti, rest, now), lifetime)
    {
      if token.Undecodable? || !token.text.isRefresh || !Truthy(token.text.jti) {
        return Unauthorized;
      }
      var stored := tokens.GetActiveByJti(token.text.jti.value, now);
      if stored == null || stored.text != token.text {
        return Unauthorized;
      }
      if !subjectIsActive {
        return Unauthorized;
      }
      tokens.Revoke(stored, now);
      ghost var origin := if stored.jti in lineage then lineage[stored.jti] else 0;
      response := IssueTokens(token.text.sub, jti, rest, origin, now);
    }

    method Logout(token: Presented, now: int)
      requires Valid()
      modifies tokens.table.Values
      ensures Valid() && Model() == Step(old(Model()), Request.Logout(token, now), lifetime).tokens
    {
      if token.Undecodable? || !Truthy(token.text.jti) {
        return;
      }
      var stored := tokens.GetActiveByJti(token.text.jti.value, now);
      if stored != null {
        tokens.Revoke(stored, now);
      }
    }

    method IssueTokens(user: Uuid, jti: string, rest: string, ghost origin: nat, now: int) returns (response: Response)
      requires Valid() && jti !in tokens.table
      modifies this, tokens
      ensures Valid() && Outcome(Model(), response) == Issue(old(Model()), user, jti, rest, origin, now, lifetime)
    {
      var entity := new RefreshToken(jti, user, Token(user, true, Some(jti), rest), now + lifetime);
      tokens.Add(entity);
      lineage := lineage[jti := origin];
      response := Issued(jti);
    }
  }
}
