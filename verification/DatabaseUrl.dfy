/**
 Rewriting of database URLs: the SSL query parameter each driver wants, and the driver named in the scheme. The two
 drivers differ only in constants, so each pair of rewriters is one function of the driver.
 */
module DatabaseUrl {
  import opened Common

  datatype Driver = Asyncpg | Psycopg

  // ---------- strings ----------

  /** Where `c` first occurs, or the length. */
  function Find(s: string, c: char): (i: nat)
    ensures i <= |s| && (i < |s| ==> s[i] == c) && c !in s[..i]
  {
    if s == "" || s[0] == c then 0 else
      var i := 1 + Find(s[1..], c);
      assert s[..i] == [s[0]] + s[1..][..i - 1];
      i
  }

  lemma FindIs(a: string, c: char, b: string)
    requires c !in a
    ensures Find(a, c) == |a|
    ensures Find(a + [c] + b, c) == |a| && (a + [c] + b)[..|a|] == a && (a + [c] + b)[|a| + 1..] == b
  {
    var s := a + [c] + b;
    assert s[|a|] == c && s[..|a|] == a;
    assert forall i :: 0 <= i < |a| ==> s[i] == a[i];
  }

  function Split(s: string): (parts: seq<string>)
    ensures parts != [] && forall part :: part in parts ==> '&' !in part
    decreases |s|
  {
    var i := Find(s, '&');
    if i == |s| then (assert s[..i] == s; [s]) else [s[..i]] + Split(s[i + 1..])
  }

  function Join(parts: seq<string>): string {
    if parts == [] then ""
    else if |parts| == 1 then parts[0]
    else parts[0] + "&" + Join(parts[1..])
  }

  /** Splitting undoes joining on parts that are free of the separator. */
  lemma {:induction false} SplitUndoesJoin(parts: seq<string>)
    requires parts != [] && forall part :: part in parts ==> '&' !in part
    ensures Split(Join(parts)) == parts
  {
    FindIs(parts[0], '&', Join(parts[1..]));
    if |parts| > 1 {
      SplitUndoesJoin(parts[1..]);
    }
  }

  lemma SplitAt(a: string, b: string)
    requires '&' !in a
    ensures Split(a + "&" + b) == [a] + Split(b)
  {
    FindIs(a, '&', b);
  }

  lemma SplitWhole(part: string)
    requires '&' !in part
    ensures Split(part) == [part]
  {
    FindIs(part, '&', "");
  }

  lemma JoinCons(part: string, parts: seq<string>)
    requires parts != []
    ensures Join([part] + parts) == part + "&" + Join(parts)
  {
    assert ([part] + parts)[1..] == parts;
  }

  lemma CutAt(s: string, i: nat)
    requires i < |s| && s[i] == '&'
    ensures s == s[..i] + "&" + s[i + 1..]
  {
  }

  /** Joining undoes splitting on every string. */
  lemma {:induction false} JoinUndoesSplit(s: string)
    ensures Join(Split(s)) == s
    decreases |s|
  {
    var i := Find(s, '&');
    if i == |s| {
      SplitWhole(s);
    } else {
      var rest := s[i + 1..];
      JoinUndoesSplit(rest);
      CutAt(s, i);
      SplitAt(s[..i], rest);
      JoinCons(s[..i], Split(rest));
    }
  }

  lemma Regroup(a: string, b: string, c: string, d: string)
    ensures a + b + c + d == a + (b + c + d)
  {
  }

  lemma RegroupParts(first: string, middle: seq<string>, last: string)
    ensures [first] + (middle + [last]) == [first] + middle + [last]
  {
  }

  lemma SplitAppendAt(a: string, rest: string, part: string)
    requires '&' !in a && '&' !in part && Split(rest + "&" + part) == Split(rest) + [part]
    ensures Split(a + "&" + rest + "&" + part) == Split(a + "&" + rest) + [part]
  {
    SplitAt(a, rest);
    SplitAt(a, rest + "&" + part);
    Regroup(a + "&", rest, "&", part);
    RegroupParts(a, Split(rest), part);
  }

  lemma {:induction false} SplitAppend(s: string, part: string)
    requires '&' !in part
    ensures Split(s + "&" + part) == Split(s) + [part]
    decreases |s|
  {
    var i := Find(s, '&');
    SplitWhole(part);
    if i == |s| {
      SplitWhole(s);
      SplitAt(s, part);
    } else {
      var rest := s[i + 1..];
      CutAt(s, i);
      SplitAppend(rest, part);
      SplitAppendAt(s[..i], rest, part);
    }
  }

  // ---------- removing the SSL parameters ----------

  /** The part of a query string survives: it is not empty and not an SSL setting. */
  predicate Keeps(part: string) {
    part != "" && !StartsWith(Lower(part), "ssl=") && !StartsWith(Lower(part), "sslmode=")
  }

  function Kept(parts: seq<string>): (kept: seq<string>)
    ensures forall part :: part in kept ==> part in parts && Keeps(part)
  {
    if parts == [] then []
    else (if Keeps(parts[0]) then [parts[0]] else []) + Kept(parts[1..])
  }

  lemma {:induction false} KeptAll(parts: seq<string>)
    requires forall part :: part in parts ==> Keeps(part)
    ensures Kept(parts) == parts
  {
    if parts != [] {
      KeptAll(parts[1..]);
    }
  }

  lemma {:induction false} KeptDropsLast(parts: seq<string>, part: string)
    requires !Keeps(part)
    ensures Kept(parts + [part]) == Kept(parts)
  {
    if parts != [] {
      assert (parts + [part])[1..] == parts[1..] + [part];
      KeptDropsLast(parts[1..], part);
    }
  }

  lemma {:induction false} KeptIsShorter(parts: seq<string>)
    requires parts != []
    ensures |Join(Kept(parts))| <= |Join(parts)|
  {
    if |parts| == 1 {
      assert Kept(parts[1..]) == [];
    } else {
      KeptIsShorter(parts[1..]);
      assert Keeps(parts[0]) ==> Kept(parts)[1..] == Kept(parts[1..]);
      assert !Keeps(parts[0]) ==> Kept(parts) == Kept(parts[1..]);
    }
  }

  function Assemble(base: string, kept: seq<string>): string {
    if kept == [] then base else base + "?" + Join(kept)
  }

  function StripSsl(url: string): string {
    var i := Find(url, '?');
    if i == |url| then url else Assemble(url[..i], Kept(Split(url[i + 1..])))
  }

  lemma StripSslOf(base: string, query: string)
    requires '?' !in base
    ensures StripSsl(base) == base
    ensures StripSsl(base + "?" + query) == Assemble(base, Kept(Split(query)))
  {
    FindIs(base, '?', query);
    assert base + "?" + query == base + ['?'] + query;
  }

  lemma StripSslIsAssembled(url: string) returns (base: string, kept: seq<string>)
    ensures '?' !in base && base <= url && StripSsl(url) == Assemble(base, kept)
    ensures forall part :: part in kept ==> Keeps(part) && '&' !in part
  {
    var i := Find(url, '?');
    base := url[..i];
    kept := if i == |url| then [] else Kept(Split(url[i + 1..]));
  }

  lemma AssembledIsStripped(base: string, kept: seq<string>)
    requires '?' !in base && forall part :: part in kept ==> Keeps(part) && '&' !in part
    ensures StripSsl(Assemble(base, kept)) == Assemble(base, kept)
  {
    StripSslOf(base, Join(kept));
    if kept != [] {
      SplitUndoesJoin(kept);
      KeptAll(kept);
    }
  }

  /** Removing the SSL parameters twice is removing them once, for every string. */
  lemma StripSslTwice(url: string)
    ensures StripSsl(StripSsl(url)) == StripSsl(url)
  {
    var base, kept := StripSslIsAssembled(url);
    AssembledIsStripped(base, kept);
  }

  /** Nothing is left that an SSL setting starts, and every other parameter survives in its place. */
  lemma StripSslKeepsTheRest(base: string, query: string)
    requires '?' !in base
    ensures var kept := Kept(Split(query));
            StripSsl(base + "?" + query) == Assemble(base, kept)
            && (kept != [] ==> Split(Join(kept)) == kept)
            && (forall part :: part in kept <==>
                  && part in Split(query) && part != ""
                  && !StartsWith(Lower(part), "ssl=") && !StartsWith(Lower(part), "sslmode="))
  {
    StripSslOf(base, query);
    var parts := Split(query);
    KeptHasAll(parts);
    if Kept(parts) != [] {
      SplitUndoesJoin(Kept(parts));
    }
  }

  lemma {:induction false} KeptHasAll(parts: seq<string>)
    ensures forall part :: part in parts && Keeps(part) ==> part in Kept(parts)
  {
    if parts != [] {
      KeptHasAll(parts[1..]);
    }
  }

  lemma StripSslIsShorter(url: string)
    ensures |StripSsl(url)| <= |url|
    ensures !Leads(url) ==> !Leads(StripSsl(url))
  {
    var i := Find(url, '?');
    if i < |url| {
      JoinUndoesSplit(url[i + 1..]);
      KeptIsShorter(Split(url[i + 1..]));
    }
  }

  // ---------- the parameter each driver wants ----------

  function SslKey(d: Driver): string {
    match d
    case Asyncpg => "ssl="
    case Psycopg => "sslmode="
  }

  predicate IsLocal(url: string) {
    Contains(Lower(url), "localhost") || Contains(Lower(url), "127.0.0.1")
  }

  /** The rewriter for `d` leaves such a URL without a parameter of its own. */
  predicate Exempt(d: Driver, value: string) {
    StartsWith(value, "sqlite") || IsLocal(value) || Contains(Lower(value), SslKey(d))
  }

  /** One more parameter at the end of the URL. */
  function Appended(value: string, part: string): string {
    value + (if '?' in value then "&" else "?") + part
  }

  function Demand(d: Driver, value: string): string {
    Appended(value, SslKey(d) + "require")
  }

  function AddSsl(exempt: bool, d: Driver, value: string): string {
    if exempt then value else Demand(d, value)
  }

  function WithSsl(d: Driver, url: string): string {
    var value := StripSsl(Trim(url));
    AddSsl(Exempt(d, value), d, value)
  }

  lemma DemandIsNotKept(d: Driver)
    ensures var part := SslKey(d) + "require";
            Split(part) == [part] && !Keeps(part) && Kept([part]) == []
  {
    var part := SslKey(d) + "require";
    assert part == match d case Asyncpg => "ssl=require" case Psycopg => "sslmode=require";
    FindIs(part, '&', "");
    assert Lower(part) == part;
    assert StartsWith(Lower(part), SslKey(d));
  }

  lemma StripSslUndoesFirst(base: string, part: string)
    requires '?' !in base && Split(part) == [part] && Kept([part]) == []
    ensures StripSsl(base + "?" + part) == base
  {
    StripSslOf(base, part);
  }

  lemma StripSslUndoesNext(base: string, query: string, part: string)
    requires '?' !in base && '&' !in part && !Keeps(part)
    ensures StripSsl(base + "?" + (query + "&" + part)) == StripSsl(base + "?" + query)
  {
    StripSslOf(base, query);
    StripSslOf(base, query + "&" + part);
    SplitAppend(query, part);
    KeptDropsLast(Split(query), part);
  }

  lemma StripSslUndoesAppend(value: string, part: string)
    requires StripSsl(value) == value && Split(part) == [part] && !Keeps(part) && Kept([part]) == []
    ensures StripSsl(Appended(value, part)) == value
  {
    var i := Find(value, '?');
    var base := value[..i];
    if i == |value| {
      assert base == value;
      StripSslUndoesFirst(value, part);
    } else {
      var query := value[i + 1..];
      assert value == base + "?" + query;
      assert '?' in value;
      StripSslUndoesNext(base, query, part);
      Regroup(base + "?", query, "&", part);
    }
  }

  /** The parameter that was added is exactly what the next rewriting removes. */
  lemma StripSslUndoesDemand(d: Driver, value: string)
    requires StripSsl(value) == value
    ensures StripSsl(Demand(d, value)) == value
  {
    var part := SslKey(d) + "require";
    DemandIsNotKept(d);
    StripSslUndoesAppend(value, part);
  }

  function Setting(d: Driver): string {
    match d
    case Asyncpg => "ssl=require"
    case Psycopg => "sslmode=require"
  }

  lemma DemandEndsWith(d: Driver, value: string)
    ensures EndsWith(Demand(d, value), Setting(d)) && Demand(d, value) != value
  {
    var head := value + if '?' in value then "&" else "?";
    assert SslKey(d) + "require" == Setting(d);
    assert Demand(d, value) == head + Setting(d);
    assert |Demand(d, value)| > |value|;
  }

  /**
   A URL that is neither SQLite nor local and does not mention the driver's key elsewhere ends in the driver's own
   setting, which is the only SSL setting it has; from any other URL the settings are removed and nothing is added.
   */
  lemma WithSslDemandsOnce(d: Driver, url: string)
    ensures var value, r := StripSsl(Trim(url)), WithSsl(d, url);
            && StripSsl(r) == value
            && (r == value <==> Exempt(d, value))
            && (r != value ==> EndsWith(r, Setting(d)))
  {
    var value := StripSsl(Trim(url));
    StripSslTwice(Trim(url));
    StripSslUndoesDemand(d, value);
    DemandEndsWith(d, value);
  }

  lemma DemandIsTrimmed(d: Driver, value: string)
    requires !Leads(value)
    ensures Trim(Demand(d, value)) == Demand(d, value) && !Trails(Demand(d, value))
    ensures |Demand(d, value)| == |value| + 8 + |SslKey(d)|
  {
    var r := Demand(d, value);
    assert r[|r| - 1] == "require"[6];
  }

  lemma ShorterStaysShorter(d: Driver, value: string, again: string, a: bool, b: bool)
    requires |again| < |value| && Trails(value) && !Leads(value) && !Leads(again)
    ensures AddSsl(a, d, value) != AddSsl(b, d, again)
  {
    DemandIsTrimmed(d, value);
    DemandIsTrimmed(d, again);
  }

  /** The rewriter left the URL bare and it ends in white space. */
  predicate Dangles(d: Driver, url: string) {
    var value := StripSsl(Trim(url));
    Exempt(d, value) && Trails(value)
  }

  /**
   Each SSL rewriter absorbs the other and itself, `d` after `e`, unless the first one leaves a URL that ends in white
   space, and then it never does.
   */
  lemma WithSslAbsorbs(d: Driver, e: Driver, url: string)
    ensures WithSsl(d, WithSsl(e, url)) == WithSsl(d, url) <==> !Dangles(e, url)
  {
    var value := StripSsl(Trim(url));
    StripSslTwice(Trim(url));
    StripSslIsShorter(Trim(url));
    if !Exempt(e, value) {
      StripSslUndoesDemand(e, value);
      DemandIsTrimmed(e, value);
    } else if Trails(value) {
      var again := StripSsl(Trim(value));
      StripSslIsShorter(Trim(value));
      ShorterStaysShorter(d, value, again, Exempt(d, value), Exempt(d, again));
    }
  }

  predicate SpaceFree(s: string) {
    forall c :: c in s ==> !IsSpace(c)
  }

  lemma {:induction false} SplitIsSpaceFree(s: string)
    requires SpaceFree(s)
    ensures forall part :: part in Split(s) ==> SpaceFree(part)
    decreases |s|
  {
    var i := Find(s, '&');
    if i < |s| {
      SplitIsSpaceFree(s[i + 1..]);
    }
  }

  lemma {:induction false} JoinIsSpaceFree(parts: seq<string>)
    requires forall part :: part in parts ==> SpaceFree(part)
    ensures SpaceFree(Join(parts))
  {
    if |parts| > 1 {
      JoinIsSpaceFree(parts[1..]);
      assert parts[0] in parts;
    }
  }

  lemma AssembleIsSpaceFree(base: string, query: string)
    requires SpaceFree(base) && SpaceFree(query)
    ensures SpaceFree(Assemble(base, Kept(Split(query))))
  {
    SplitIsSpaceFree(query);
    JoinIsSpaceFree(Kept(Split(query)));
  }

  lemma StripSslIsSpaceFree(url: string)
    requires SpaceFree(url)
    ensures SpaceFree(StripSsl(url))
  {
    var i := Find(url, '?');
    if i < |url| {
      AssembleIsSpaceFree(url[..i], url[i + 1..]);
    }
  }

  /** Every URL without white space is rewritten as if only the last rewriter had seen it. */
  lemma SpaceFreeUrlsAbsorb(d: Driver, e: Driver, url: string)
    requires SpaceFree(url)
    ensures WithSsl(d, WithSsl(e, url)) == WithSsl(d, url)
  {
    assert Trim(url) == url;
    StripSslIsSpaceFree(url);
    WithSslAbsorbs(d, e, url);
  }

  lemma AlreadyTrimmed(base: string, part: string)
    requires base != "" && !Leads(base) && part != "" && !Trails(part)
    ensures Trim(base + "?" + part) == base + "?" + part
  {
    var url := base + "?" + part;
    assert url[0] == base[0] && url[|url| - 1] == part[|part| - 1];
  }

  lemma BlankDangles(base: string, part: string, e: Driver)
    requires '?' !in base && !Leads(base) && Trails(base) && IsLocal(base)
    requires Split(part) == [part] && Kept([part]) == [] && part != "" && !Trails(part)
    ensures Dangles(e, base + "?" + part)
  {
    AlreadyTrimmed(base, part);
    StripSslUndoesFirst(base, part);
  }

  /** A local URL pasted with a blank before the SSL setting of some driver `f` needs more than one pass to settle. */
  lemma LocalUrlDangles(base: string, d: Driver, e: Driver, f: Driver)
    requires '?' !in base && !Leads(base) && Trails(base) && IsLocal(base)
    ensures var url := base + "?" + (SslKey(f) + "require");
            Dangles(e, url) && WithSsl(d, WithSsl(e, url)) != WithSsl(d, url)
  {
    var part := SslKey(f) + "require";
    DemandIsNotKept(f);
    assert part[|part| - 1] == "require"[6];
    BlankDangles(base, part, e);
    WithSslAbsorbs(d, e, base + "?" + part);
  }

  lemma DanglingUrl(d: Driver, e: Driver, f: Driver)
    ensures var url := "localhost " + "?" + (SslKey(f) + "require");
            WithSsl(d, WithSsl(e, url)) != WithSsl(d, url)
  {
    assert OccursAt(Lower("localhost "), "localhost", 0);
    LocalUrlDangles("localhost ", d, e, f);
  }

  // ---------- the driver in the scheme ----------

  function RemovePrefix(s: string, prefix: string): string {
    if StartsWith(s, prefix) then s[|prefix|..] else s
  }

  /** The first of the prefixes that the URL has is replaced by the plain scheme. */
  function DropDriver(value: string, prefixes: seq<string>): string {
    if prefixes == [] then value
    else if StartsWith(value, prefixes[0]) then "postgresql://" + value[|prefixes[0]|..]
    else DropDriver(value, prefixes[1..])
  }

  const DRIVERS: seq<string> := ["postgresql+asyncpg://", "postgresql+psycopg://", "postgresql+psycopg2://"]

  function StripDriver(url: string): string {
    var value := Trim(url);
    DropDriver(if StartsWith(value, "postgres://") then "postgresql://" + value[11..] else value, DRIVERS)
  }

  function Scheme(d: Driver): string {
    match d
    case Asyncpg => "postgresql+asyncpg://"
    case Psycopg => "postgresql+psycopg://"
  }

  function SqliteScheme(d: Driver): string {
    match d
    case Asyncpg => "sqlite+aiosqlite:///"
    case Psycopg => "sqlite:///"
  }

  /** SQLite URLs for files take the driver's scheme; other ones stay. */
  function AsSqlite(d: Driver, value: string): string {
    var other := SqliteScheme(if d == Asyncpg then Psycopg else Asyncpg);
    if StartsWith(value, other) then SqliteScheme(d) + RemovePrefix(value, other) else value
  }

  function AsPostgres(d: Driver, url: string): string {
    var value := Trim(url);
    if StartsWith(value, "sqlite") then AsSqlite(d, value)
    else Scheme(d) + RemovePrefix(StripDriver(value), "postgresql://")
  }

  // ---------- a URL as a scheme and the rest ----------

  datatype Kind = SqliteFile | OtherSqlite | Postgres

  function KindOf(value: string): Kind {
    if !StartsWith(value, "sqlite") then Postgres
    else if StartsWith(value, "sqlite+aiosqlite:///") || StartsWith(value, "sqlite:///") then SqliteFile
    else OtherSqlite
  }

  function SchemeLength(value: string): (n: nat)
    ensures n <= |value|
  {
    if StartsWith(value, "sqlite") then
      if StartsWith(value, "sqlite+aiosqlite:///") then 20 else if StartsWith(value, "sqlite:///") then 10 else 0
    else if StartsWith(value, "postgres://") then 11
    else if StartsWith(value, "postgresql://") then 13
    else if StartsWith(value, "postgresql+asyncpg://") || StartsWith(value, "postgresql+psycopg://") then 21
    else if StartsWith(value, "postgresql+psycopg2://") then 22
    else 0
  }

  function NewScheme(d: Driver, kind: Kind): string {
    match kind
    case SqliteFile => SqliteScheme(d)
    case OtherSqlite => ""
    case Postgres => Scheme(d)
  }

  function Retag(d: Driver, value: string): string {
    NewScheme(d, KindOf(value)) + value[SchemeLength(value)..]
  }

  lemma StartsAt(s: string, prefix: string, i: nat)
    requires i < |prefix| && (i < |s| ==> s[i] != prefix[i])
    ensures !StartsWith(s, prefix)
  {
  }

  lemma StartsSame(s: string, prefix: string, i: nat)
    requires StartsWith(s, prefix) && i < |prefix|
    ensures s[i] == prefix[i]
  {
    assert s[..|prefix|][i] == s[i];
  }

  lemma DropDriverIs(value: string)
    ensures DropDriver(value, DRIVERS) ==
            if StartsWith(value, "postgresql+asyncpg://") then "postgresql://" + value[21..]
            else if StartsWith(value, "postgresql+psycopg://") then "postgresql://" + value[21..]
            else if StartsWith(value, "postgresql+psycopg2://") then "postgresql://" + value[22..]
            else value
  {
    var second, third := DRIVERS[1..], DRIVERS[1..][1..];
    assert second[0] == "postgresql+psycopg://" && third[0] == "postgresql+psycopg2://" && third[1..] == [];
    assert DropDriver(value, third) == if StartsWith(value, third[0]) then "postgresql://" + value[22..] else value;
    assert DropDriver(value, second)
        == if StartsWith(value, second[0]) then "postgresql://" + value[21..] else DropDriver(value, third);
  }

  lemma PlainUrlKeepsItsRest(rest: string)
    ensures DropDriver("postgresql://" + rest, DRIVERS) == "postgresql://" + rest
    ensures RemovePrefix("postgresql://" + rest, "postgresql://") == rest
  {
    var value := "postgresql://" + rest;
    assert value[10] == ':';
    StartsAt(value, "postgresql+asyncpg://", 10);
    StartsAt(value, "postgresql+psycopg://", 10);
    StartsAt(value, "postgresql+psycopg2://", 10);
    DropDriverIs(value);
  }

  lemma PostgresRetags(d: Driver, value: string)
    requires !StartsWith(value, "sqlite") && !Leads(value) && !Trails(value)
    ensures Scheme(d) + RemovePrefix(StripDriver(value), "postgresql://") == Retag(d, value)
  {
    PlainUrlKeepsItsRest(value[SchemeLength(value)..]);
    if StartsWith(value, "postgres://") {
    } else if StartsWith(value, "postgresql://") {
      assert value == "postgresql://" + value[13..];
    } else {
      DropDriverIs(value);
      if StartsWith(value, "postgresql+psycopg2://") {
        StartsSame(value, "postgresql+psycopg2://", 18);
        StartsAt(value, "postgresql+psycopg://", 18);
      }
    }
  }

  lemma SqliteRest(value: string)
    requires StartsWith(value, "sqlite:///")
    ensures !StartsWith(value, "sqlite+aiosqlite:///")
  {
    StartsSame(value, "sqlite:///", 6);
    StartsAt(value, "sqlite+aiosqlite:///", 6);
  }

  lemma SqliteRetags(d: Driver, value: string)
    requires StartsWith(value, "sqlite")
    ensures AsSqlite(d, value) == Retag(d, value)
  {
    if StartsWith(value, "sqlite:///") {
      SqliteRest(value);
    } else if StartsWith(value, "sqlite+aiosqlite:///") {
    }
  }

  /** The driver rewriter exchanges the scheme and nothing else. */
  lemma AsPostgresRetags(d: Driver, url: string)
    ensures AsPostgres(d, url) == Retag(d, Trim(url))
  {
    var value := Trim(url);
    if StartsWith(value, "sqlite") {
      SqliteRetags(d, value);
    } else {
      PostgresRetags(d, value);
    }
  }

  lemma RetagKeepsTheRest(d: Driver, value: string)
    ensures var tagged := Retag(d, value);
            && KindOf(tagged) == KindOf(value)
            && SchemeLength(tagged) == |NewScheme(d, KindOf(value))|
            && tagged[SchemeLength(tagged)..] == value[SchemeLength(value)..]
  {
    var tagged := Retag(d, value);
    if KindOf(value) == SqliteFile {
      assert tagged[..|SqliteScheme(d)|] == SqliteScheme(d);
      assert SqliteScheme(d)[..6] == "sqlite";
      assert tagged[..6] == "sqlite";
      if d == Psycopg {
        SqliteRest(tagged);
      }
    } else if KindOf(value) == Postgres {
      assert tagged[..21] == Scheme(d);
      assert tagged[0] == 'p' && tagged[8] == 'q' && tagged[10] == '+';
      assert tagged[11] == if d == Asyncpg then 'a' else 'p';
      StartsAt(tagged, "sqlite", 0);
      StartsAt(tagged, "postgres://", 8);
      StartsAt(tagged, "postgresql://", 10);
    } else {
      assert tagged == value;
    }
  }

  lemma RetagTwice(d: Driver, e: Driver, value: string)
    ensures Retag(d, Retag(e, value)) == Retag(d, value)
  {
    RetagKeepsTheRest(e, value);
  }

  lemma RetagIsTrimmed(d: Driver, value: string)
    requires !Leads(value) && !Trails(value)
    ensures !Leads(Retag(d, value)) && !Trails(Retag(d, value))
  {
    var scheme, rest := NewScheme(d, KindOf(value)), value[SchemeLength(value)..];
    assert rest != "" ==> (scheme + rest)[|scheme + rest| - 1] == value[|value| - 1];
    assert rest == "" && scheme != "" ==> scheme[|scheme| - 1] == '/';
  }

  /** For every string: naming a driver forgets which driver was named before. */
  lemma AsPostgresAbsorbs(d: Driver, e: Driver, url: string)
    ensures AsPostgres(d, AsPostgres(e, url)) == AsPostgres(d, url)
  {
    AsPostgresRetags(e, url);
    AsPostgresRetags(d, url);
    AsPostgresRetags(d, AsPostgres(e, url));
    RetagIsTrimmed(e, Trim(url));
    RetagTwice(d, e, Trim(url));
  }

  /** Every URL that is not SQLite's comes out in the driver's scheme, keeping what followed its own. */
  lemma AsPostgresNamesDriver(url: string)
    requires !StartsWith(Trim(url), "sqlite")
    ensures var rest := Trim(url)[SchemeLength(Trim(url))..];
            && AsPostgres(Asyncpg, url) == "postgresql+asyncpg://" + rest
            && AsPostgres(Psycopg, url) == "postgresql+psycopg://" + rest
  {
    AsPostgresRetags(Asyncpg, url);
    AsPostgresRetags(Psycopg, url);
  }

  // ---------- the two rewritings together ----------

  lemma StartsInBase(base: string, tail: string, prefix: string)
    requires '?' !in prefix && (tail == "" || tail[0] == '?')
    ensures StartsWith(base + tail, prefix) <==> StartsWith(base, prefix)
  {
    var s := base + tail;
    if |prefix| <= |base| {
      assert s[..|prefix|] == base[..|prefix|];
    } else if tail != "" {
      assert s[|base|] == tail[0];
      assert prefix[|base|] in prefix;
      StartsAt(s, prefix, |base|);
    }
  }

  lemma SqliteInBase(base: string, tail: string)
    requires tail == "" || tail[0] == '?'
    ensures KindOf(base + tail) == KindOf(base)
    ensures StartsWith(base, "sqlite") ==> SchemeLength(base + tail) == SchemeLength(base)
  {
    StartsInBase(base, tail, "sqlite");
    StartsInBase(base, tail, "sqlite+aiosqlite:///");
    StartsInBase(base, tail, "sqlite:///");
  }

  lemma SchemeInBase(base: string, tail: string)
    requires tail == "" || tail[0] == '?'
    ensures KindOf(base + tail) == KindOf(base) && SchemeLength(base + tail) == SchemeLength(base)
  {
    SqliteInBase(base, tail);
    StartsInBase(base, tail, "sqlite");
    StartsInBase(base, tail, "postgres://");
    StartsInBase(base, tail, "postgresql://");
    StartsInBase(base, tail, "postgresql+asyncpg://");
    StartsInBase(base, tail, "postgresql+psycopg://");
    StartsInBase(base, tail, "postgresql+psycopg2://");
  }

  lemma RetagBase(d: Driver, base: string, tail: string)
    requires tail == "" || tail[0] == '?'
    ensures Retag(d, base + tail) == Retag(d, base) + tail
  {
    SchemeInBase(base, tail);
    RegroupTail(NewScheme(d, KindOf(base)), base, tail, SchemeLength(base));
  }

  lemma RegroupTail(scheme: string, base: string, tail: string, n: nat)
    requires n <= |base|
    ensures scheme + (base + tail)[n..] == (scheme + base[n..]) + tail
  {
    assert (base + tail)[n..] == base[n..] + tail;
  }

  predicate IsSchemeChar(c: char) {
    c == '+' || c == '/' || c == ':' || c == '2' || 'a' <= c < 'h' || 'h' < c <= 'z'
  }

  /** Text that no host name or SSL setting can reach into. */
  predicate SchemeText(p: string) {
    (p == "" || p[|p| - 1] == '/') && forall i :: 0 <= i < |p| ==> IsSchemeChar(p[i])
  }

  lemma SqliteSchemes()
    ensures SchemeText("") && SchemeText("sqlite:///") && SchemeText("sqlite+aiosqlite:///")
  {
  }

  lemma PlainSchemes()
    ensures SchemeText("postgres://") && SchemeText("postgresql://")
  {
  }

  lemma DriverSchemes(d: Driver)
    ensures SchemeText(Scheme(d)) && SchemeText("postgresql+psycopg2://")
  {
  }

  lemma OldSchemeIsSchemeText(value: string)
    ensures SchemeText(value[..SchemeLength(value)])
  {
    SqliteSchemes();
    PlainSchemes();
    DriverSchemes(Asyncpg);
    DriverSchemes(Psycopg);
  }

  lemma OccursShifted(p: string, rest: string, key: string, i: nat)
    ensures OccursAt(p + rest, key, |p| + i) <==> OccursAt(rest, key, i)
  {
    if i + |key| <= |rest| {
      assert (p + rest)[|p| + i..|p| + i + |key|] == rest[i..i + |key|];
    }
  }

  lemma OccursPast(p: string, rest: string, key: string, k: nat, i: nat)
    requires p == "" || p[|p| - 1] == '/'
    requires '/' !in key && k < |key| && key[k] !in p && OccursAt(p + rest, key, i)
    ensures i >= |p|
  {
    var found := (p + rest)[i..i + |key|];
    var j := if i < |p| <= i + k then |p| - 1 - i else k;
    assert found[j] == key[j] && key[j] in key;
    assert found[j] == (p + rest)[i + j];
  }

  /** A key that cannot touch `p` occurs in `p + rest` exactly when it occurs in `rest`. */
  lemma ContainsInRest(p: string, rest: string, key: string, k: nat)
    requires (p == "" || p[|p| - 1] == '/') && '/' !in key && k < |key| && key[k] !in p
    ensures Contains(p + rest, key) <==> Contains(rest, key)
  {
    if Contains(p + rest, key) {
      var i :| 0 <= i <= |p + rest| && OccursAt(p + rest, key, i);
      OccursPast(p, rest, key, k, i);
      OccursShifted(p, rest, key, i - |p|);
    }
    if Contains(rest, key) {
      var i :| 0 <= i <= |rest| && OccursAt(rest, key, i);
      OccursShifted(p, rest, key, i);
    }
  }

  lemma LowerAppends(s: string, t: string)
    ensures Lower(s + t) == Lower(s) + Lower(t)
  {
  }

  lemma LowerScheme(p: string)
    requires SchemeText(p)
    ensures Lower(p) == p && '?' !in p
  {
  }

  /** Where in the driver's key a character stands that no scheme has. */
  lemma ExemptInRest(d: Driver, scheme: string, rest: string)
    requires SchemeText(scheme)
    ensures IsLocal(scheme + rest) <==> IsLocal(rest)
    ensures Contains(Lower(scheme + rest), SslKey(d)) <==> Contains(Lower(rest), SslKey(d))
  {
    LowerAppends(scheme, rest);
    LowerScheme(scheme);
    ContainsInRest(scheme, Lower(rest), "localhost", 5);
    ContainsInRest(scheme, Lower(rest), "127.0.0.1", 3);
    ContainsInRest(scheme, Lower(rest), SslKey(d), |SslKey(d)| - 1);
  }

  lemma ExemptRetag(d: Driver, e: Driver, value: string)
    ensures Exempt(d, Retag(e, value)) <==> Exempt(d, value)
    ensures '?' in Retag(e, value) <==> '?' in value
  {
    var n := SchemeLength(value);
    var old_, new_, rest := value[..n], NewScheme(e, KindOf(value)), value[n..];
    assert value == old_ + rest;
    OldSchemeIsSchemeText(value);
    SqliteSchemes();
    DriverSchemes(e);
    RetagKeepsTheRest(e, value);
    ExemptInRest(d, old_, rest);
    ExemptInRest(d, new_, rest);
    LowerScheme(old_);
    LowerScheme(new_);
  }

  lemma StripSslOfTail(base: string, tail: string)
    requires '?' !in base && (tail == "" || tail[0] == '?')
    ensures StripSsl(base + tail) == Assemble(base, if tail == "" then [] else Kept(Split(tail[1..])))
  {
    if tail == "" {
      assert base + tail == base;
      StripSslOf(base, "");
    } else {
      assert base + tail == base + "?" + tail[1..];
      StripSslOf(base, tail[1..]);
    }
  }

  lemma StripSslRetag(d: Driver, url: string)
    ensures StripSsl(Retag(d, url)) == Retag(d, StripSsl(url))
  {
    var i := Find(url, '?');
    var base, tail := url[..i], url[i..];
    assert url == base + tail;
    RetagBase(d, base, tail);
    ExemptRetag(d, d, base);
    StripSslOfTail(base, tail);
    StripSslOfTail(Retag(d, base), tail);
    RetagAssembled(d, base, if tail == "" then [] else Kept(Split(tail[1..])));
  }

  lemma Reassociate(a: string, b: string, c: string)
    ensures a + (b + c) == a + b + c
  {
  }

  lemma RetagAssembled(d: Driver, base: string, kept: seq<string>)
    ensures Retag(d, Assemble(base, kept)) == Assemble(Retag(d, base), kept)
  {
    if kept != [] {
      var query := Join(kept);
      RetagBase(d, base, "?" + query);
      Reassociate(base, "?", query);
      Reassociate(Retag(d, base), "?", query);
    }
  }

  lemma RetagTail(e: Driver, base: string, tail: string, mark: string, part: string)
    requires tail == "" || tail[0] == '?'
    requires tail == "" ==> mark == "?"
    ensures Retag(e, base + tail + mark + part) == Retag(e, base + tail) + mark + part
  {
    var longer := tail + mark + part;
    assert longer[0] == '?';
    RetagBase(e, base, tail);
    RetagBase(e, base, longer);
    Regroup(base, tail, mark, part);
    Regroup(Retag(e, base), tail, mark, part);
  }

  lemma AppendedIs(value: string, part: string)
    ensures Appended(value, part) == value + (if '?' in value then "&" else "?") + part
  {
  }

  lemma RetagMarked(e: Driver, value: string, mark: string, part: string)
    requires mark == if '?' in value then "&" else "?"
    ensures Retag(e, value + mark + part) == Retag(e, value) + mark + part
  {
    var i := Find(value, '?');
    var base, tail := value[..i], value[i..];
    RetagTail(e, base, tail, mark, part);
    assert value == base + tail;
  }

  lemma RetagAppended(e: Driver, value: string, part: string)
    requires '?' in Retag(e, value) <==> '?' in value
    ensures Retag(e, Appended(value, part)) == Appended(Retag(e, value), part)
  {
    AppendedIs(value, part);
    AppendedIs(Retag(e, value), part);
    RetagMarked(e, value, if '?' in value then "&" else "?", part);
  }

  lemma RetagDemand(d: Driver, e: Driver, value: string)
    ensures Retag(e, Demand(d, value)) == Demand(d, Retag(e, value))
  {
    ExemptRetag(d, e, value);
    RetagAppended(e, value, SslKey(d) + "require");
  }

  /** The SSL rewriter sees nothing of the driver in the scheme. */
  lemma WithSslRetag(d: Driver, e: Driver, url: string)
    requires !Leads(url) && !Trails(url)
    ensures WithSsl(d, Retag(e, url)) == Retag(e, WithSsl(d, url))
  {
    var value := StripSsl(url);
    RetagIsTrimmed(e, url);
    StripSslRetag(e, url);
    ExemptRetag(d, e, value);
    RetagDemand(d, e, value);
  }

  // ---------- white space at the end ----------

  lemma {:induction false} TrimRightIs(s: string)
    ensures TrimRight(s) <= s && forall i :: |TrimRight(s)| <= i < |s| ==> IsSpace(s[i])
  {
    if Trails(s) {
      TrimRightIs(s[..|s| - 1]);
    }
  }

  lemma {:induction false} TrimRightAppends(p: string, rest: string)
    requires !Trails(p)
    ensures TrimRight(p + rest) == p + TrimRight(rest)
  {
    if rest == "" {
      assert p + rest == p;
    } else if Trails(rest) {
      assert (p + rest)[..|p + rest| - 1] == p + rest[..|rest| - 1];
      TrimRightAppends(p, rest[..|rest| - 1]);
    } else {
      assert !Trails(p + rest);
    }
  }

  lemma TrimIsRight(s: string)
    requires !Leads(s)
    ensures Trim(s) == TrimRight(s)
  {
  }

  predicate SameScheme(s: string, t: string) {
    KindOf(s) == KindOf(t) && SchemeLength(s) == SchemeLength(t)
  }

  lemma StartsTrimmed(s: string, prefix: string)
    requires prefix != "" && !IsSpace(prefix[|prefix| - 1])
    ensures StartsWith(TrimRight(s), prefix) <==> StartsWith(s, prefix)
  {
    TrimRightIs(s);
    if StartsWith(s, prefix) {
      StartsSame(s, prefix, |prefix| - 1);
      assert TrimRight(s)[..|prefix|] == s[..|prefix|];
    }
    if StartsWith(TrimRight(s), prefix) {
      assert TrimRight(s)[..|prefix|] == s[..|prefix|];
    }
  }

  lemma SqliteTrimmed(s: string)
    ensures KindOf(TrimRight(s)) == KindOf(s)
    ensures StartsWith(s, "sqlite") ==> SchemeLength(TrimRight(s)) == SchemeLength(s)
  {
    StartsTrimmed(s, "sqlite");
    StartsTrimmed(s, "sqlite+aiosqlite:///");
    StartsTrimmed(s, "sqlite:///");
  }

  lemma SchemeTrimmed(s: string)
    ensures SameScheme(TrimRight(s), s)
  {
    SqliteTrimmed(s);
    StartsTrimmed(s, "sqlite");
    StartsTrimmed(s, "postgres://");
    StartsTrimmed(s, "postgresql://");
    StartsTrimmed(s, "postgresql+asyncpg://");
    StartsTrimmed(s, "postgresql+psycopg://");
    StartsTrimmed(s, "postgresql+psycopg2://");
  }

  /** Trimming and naming a driver do not disturb each other. */
  lemma TrimRetag(d: Driver, value: string)
    requires !Leads(value)
    ensures Trim(Retag(d, value)) == Retag(d, Trim(value))
  {
    var n := SchemeLength(value);
    SchemeTrimmed(value);
    TrimIsRight(value);
    OldSchemeIsSchemeText(value);
    SqliteSchemes();
    DriverSchemes(d);
    assert value == value[..n] + value[n..];
    TrimRightAppends(value[..n], value[n..]);
    TrimRightAppends(NewScheme(d, KindOf(value)), value[n..]);
    RetagLeads(d, value);
    TrimIsRight(Retag(d, value));
  }

  lemma RetagLeads(d: Driver, value: string)
    requires !Leads(value)
    ensures !Leads(Retag(d, value))
  {
  }

  lemma KeepsPrefix(part: string, shorter: string)
    requires Keeps(part) && shorter <= part && shorter != ""
    ensures Keeps(shorter)
  {
    assert Lower(shorter) == Lower(part)[..|shorter|];
    forall key | key in {"ssl=", "sslmode="} && StartsWith(Lower(shorter), key)
      ensures StartsWith(Lower(part), key)
    {
      assert Lower(part)[..|key|] == Lower(shorter)[..|key|];
    }
  }

  lemma JoinSnoc(front: seq<string>, last: string)
    ensures Join(front + [last]) == if front == [] then last else Join(front) + "&" + last
  {
    if |front| > 0 {
      assert (front + [last])[1..] == front[1..] + [last];
      JoinSnoc(front[1..], last);
    }
  }

  /** A stripped URL up to and including the mark before its last parameter. */
  function UpToLast(base: string, front: seq<string>): string {
    if front == [] then base + "?" else base + "?" + Join(front) + "&"
  }

  lemma Assoc(a: string, b: string, c: string)
    ensures a + (b + c) == (a + b) + c
  {
  }

  lemma AssembleSnoc(base: string, front: seq<string>, last: string)
    ensures Assemble(base, front + [last]) == UpToLast(base, front) + last
  {
    JoinSnoc(front, last);
    if front != [] {
      var head, joined := base + "?", Join(front);
      Assoc(head, joined + "&", last);
      Assoc(head, joined, "&");
    }
  }

  /** Stripping removes a mark that no parameter follows. */
  lemma StripSslDropsMark(base: string, front: seq<string>)
    requires '?' !in base && forall part :: part in front ==> Keeps(part) && '&' !in part
    ensures StripSsl(UpToLast(base, front)) == Assemble(base, front)
    ensures |Assemble(base, front)| == |UpToLast(base, front)| - 1
    ensures Assemble(base, front) == UpToLast(base, front)[..|UpToLast(base, front)| - 1]
  {
    FindIs("", '&', "");
    assert Kept([""]) == [];
    if front == [] {
      StripSslUndoesFirst(base, "");
      assert base + "?" + "" == base + "?";
    } else {
      StripSslUndoesNext(base, Join(front), "");
      assert base + "?" + (Join(front) + "&" + "") == UpToLast(base, front);
      AssembledIsStripped(base, front);
    }
  }

  predicate EndsInMark(w: string) {
    w != "" && (w[|w| - 1] == '?' || w[|w| - 1] == '&')
  }

  predicate Clean(part: string) {
    Keeps(part) && '&' !in part
  }

  lemma LastKept(base: string, front: seq<string>, last: string)
    requires '?' !in base && Clean(last) && forall part :: part in front ==> Clean(part)
    ensures StripSsl(UpToLast(base, front) + last) == UpToLast(base, front) + last
  {
    AssembleSnoc(base, front, last);
    AssembledIsStripped(base, front + [last]);
  }

  lemma LastDropped(base: string, front: seq<string>)
    requires '?' !in base && forall part :: part in front ==> Clean(part)
    ensures var w := UpToLast(base, front);
            EndsInMark(w) && StripSsl(w) == w[..|w| - 1]
  {
    StripSslDropsMark(base, front);
  }

  lemma BlankLast(base: string, front: seq<string>, last: string)
    requires '?' !in base && Clean(last) && forall part :: part in front ==> Clean(part)
    ensures var w := TrimRight(UpToLast(base, front) + last);
            StripSsl(w) == w || (EndsInMark(w) && StripSsl(w) == w[..|w| - 1])
  {
    var head, left := UpToLast(base, front), TrimRight(last);
    TrimRightAppends(head, last);
    if left == "" {
      assert head + left == head;
      LastDropped(base, front);
    } else {
      TrimRightIs(last);
      KeepsPrefix(last, left);
      LastKept(base, front, left);
    }
  }

  /**
   A stripped URL that ends in white space is still stripped once that is trimmed, unless the last parameter was nothing
   but white space; then a mark is left, which stripping takes away.
   */
  lemma BlankEnd(value: string)
    requires StripSsl(value) == value && !Leads(value)
    ensures var w := Trim(value);
            StripSsl(w) == w || (EndsInMark(w) && StripSsl(w) == w[..|w| - 1])
  {
    TrimIsRight(value);
    var base, kept := StripSslIsAssembled(value);
    if kept == [] {
      TrimRightIs(value);
      StripSslOf(TrimRight(value), "");
    } else {
      var n := |kept| - 1;
      assert kept == kept[..n] + [kept[n]];
      AssembleSnoc(base, kept[..n], kept[n]);
      BlankLast(base, kept[..n], kept[n]);
    }
  }

  lemma ContainsTrimmed(s: string, key: string)
    requires key != "" && !IsSpace(key[|key| - 1]) && Contains(Lower(s), key)
    ensures Contains(Lower(TrimRight(s)), key)
  {
    TrimRightIs(s);
    var low, short := Lower(s), Lower(TrimRight(s));
    var i :| 0 <= i <= |low| && OccursAt(low, key, i);
    var last := i + |key| - 1;
    assert low[i..i + |key|][|key| - 1] == low[last] == LowerChar(s[last]);
    assert last < |TrimRight(s)|;
    assert short[i..i + |key|] == low[i..i + |key|];
    assert OccursAt(short, key, i);
  }

  lemma ExemptTrimmed(d: Driver, value: string)
    requires Exempt(d, value)
    ensures Exempt(d, TrimRight(value))
  {
    if StartsWith(value, "sqlite") {
      StartsTrimmed(value, "sqlite");
    } else if Contains(Lower(value), "localhost") {
      ContainsTrimmed(value, "localhost");
    } else if Contains(Lower(value), "127.0.0.1") {
      ContainsTrimmed(value, "127.0.0.1");
    } else {
      ContainsTrimmed(value, SslKey(d));
    }
  }

  lemma SchemeStripped(url: string)
    ensures SameScheme(StripSsl(url), url)
  {
    var i := Find(url, '?');
    var base, tail := url[..i], url[i..];
    assert url == base + tail;
    SchemeInBase(base, tail);
    if tail != "" {
      var kept := Kept(Split(url[i + 1..]));
      if kept != [] {
        SchemeInBase(base, "?" + Join(kept));
        assert base + ("?" + Join(kept)) == Assemble(base, kept);
      }
    }
  }

  lemma SchemeAppended(url: string, part: string)
    ensures SameScheme(Appended(url, part), url)
  {
    var i := Find(url, '?');
    var base, tail := url[..i], url[i..];
    assert url == base + tail && (i == |url| ==> base == url);
    var longer := tail + (if '?' in url then "&" else "?") + part;
    assert longer[0] == '?';
    SchemeInBase(base, tail);
    SchemeInBase(base, longer);
    Regroup(base, tail, if '?' in url then "&" else "?", part);
  }

  /** Among URLs of one scheme, naming a driver keeps different lengths apart. */
  lemma RetagKeepsApart(d: Driver, s: string, t: string)
    requires SameScheme(s, t) && |s| != |t|
    ensures Retag(d, s) != Retag(d, t)
  {
    assert |Retag(d, s)| == |NewScheme(d, KindOf(s))| + |s| - SchemeLength(s);
    assert |Retag(d, t)| == |NewScheme(d, KindOf(t))| + |t| - SchemeLength(t);
  }

  lemma RetagKeepsMark(d: Driver, w: string)
    requires EndsInMark(w)
    ensures Retag(d, w) != "" && Retag(d, w)[|Retag(d, w)| - 1] == w[|w| - 1]
  {
    OldSchemeIsSchemeText(w);
    var n := SchemeLength(w);
    var scheme := w[..n];
    assert scheme != "" ==> scheme[n - 1] == w[n - 1] == '/';
  }

  // ---------- normalising twice ----------

  /** Both rewritings, as the settings apply them to a sanitized source. */
  function Rewritten(d: Driver, url: string): string {
    AsPostgres(d, WithSsl(d, url))
  }

  lemma RewrittenIs(d: Driver, url: string)
    ensures Rewritten(d, url) == Retag(d, Trim(WithSsl(d, url)))
  {
    AsPostgresRetags(d, WithSsl(d, url));
  }

  lemma WithSslLeads(d: Driver, url: string)
    ensures !Leads(WithSsl(d, url))
  {
    StripSslIsShorter(Trim(url));
    DemandIsTrimmed(d, StripSsl(Trim(url)));
  }

  /** The second pass sees what the first left, as if no driver had been named. */
  lemma RewrittenTwice(d: Driver, e: Driver, url: string)
    ensures Rewritten(d, Rewritten(e, url)) == Retag(d, Trim(WithSsl(d, Trim(WithSsl(e, url)))))
  {
    var x := Trim(WithSsl(e, url));
    RewrittenIs(e, url);
    RewrittenIs(d, Retag(e, x));
    WithSslRetag(d, e, x);
    WithSslLeads(d, x);
    TrimRetag(e, WithSsl(d, x));
    RetagTwice(d, e, Trim(WithSsl(d, x)));
  }

  /** Trimming the stripped URL leaves nothing more to strip, and nothing for this driver to add. */
  predicate Settles(d: Driver, url: string) {
    var value := StripSsl(Trim(url));
    Exempt(d, value) && StripSsl(Trim(value)) == Trim(value)
  }

  lemma SettledAgain(d: Driver, e: Driver, url: string)
    requires Dangles(e, url) && Settles(d, url)
    ensures Trim(WithSsl(d, Trim(WithSsl(e, url)))) == Trim(WithSsl(d, url))
  {
    var value := StripSsl(Trim(url));
    StripSslIsShorter(Trim(url));
    TrimIsRight(value);
    ExemptTrimmed(d, value);
  }

  /** A second pass over a URL that does not settle cuts a mark off, or starts from a shorter URL. */
  lemma UnsettledAgain(d: Driver, e: Driver, url: string)
    requires Dangles(e, url) && !Settles(d, url)
    ensures Retag(d, Trim(WithSsl(d, Trim(WithSsl(e, url))))) != Retag(d, Trim(WithSsl(d, url)))
  {
    var value := StripSsl(Trim(url));
    StripSslTwice(Trim(url));
    StripSslIsShorter(Trim(url));
    var w := Trim(value);
    TrimIsRight(value);
    SchemeTrimmed(value);
    var again := StripSsl(w);
    StripSslIsShorter(w);
    SchemeStripped(w);
    TrimIsRight(again);
    SchemeTrimmed(again);
    DemandIsTrimmed(d, value);
    DemandIsTrimmed(d, again);
    SchemeAppended(value, SslKey(d) + "require");
    SchemeAppended(again, SslKey(d) + "require");
    if !Exempt(d, value) {
      RetagKeepsApart(d, if Exempt(d, again) then Trim(again) else Demand(d, again), Demand(d, value));
    } else {
      BlankEnd(value);
      if Exempt(d, again) {
        RetagKeepsApart(d, Trim(again), w);
      } else {
        MarkIsNoDemand(d, again, w);
      }
    }
  }

  lemma MarkIsNoDemand(d: Driver, value: string, w: string)
    requires EndsInMark(w)
    ensures Retag(d, Demand(d, value)) != Retag(d, w)
  {
    RetagKeepsMark(d, w);
    RetagDemand(d, d, value);
    var tagged := Demand(d, Retag(d, value));
    assert tagged[|tagged| - 1] == "require"[6];
  }

  /**
   Normalising what was already normalised, for the same driver or the other, gives what normalising the original gives,
   unless the first pass leaves a bare URL that ends in white space and the second does not settle it; then
   it never does.
   */
  lemma RewrittenAbsorbs(d: Driver, e: Driver, url: string)
    ensures Rewritten(d, Rewritten(e, url)) == Rewritten(d, url) <==> !Dangles(e, url) || Settles(d, url)
  {
    RewrittenTwice(d, e, url);
    RewrittenIs(d, url);
    if !Dangles(e, url) {
      BareIsTrimmed(e, url);
      WithSslAbsorbs(d, e, url);
    } else if Settles(d, url) {
      SettledAgain(d, e, url);
    } else {
      UnsettledAgain(d, e, url);
    }
  }

  lemma BareIsTrimmed(e: Driver, url: string)
    requires !Dangles(e, url)
    ensures Trim(WithSsl(e, url)) == WithSsl(e, url)
  {
    StripSslIsShorter(Trim(url));
    DemandIsTrimmed(e, StripSsl(Trim(url)));
  }

  lemma BlankIsKept()
    ensures Split(" ") == [" "] && Kept([" "]) == [" "]
    ensures Split("") == [""] && Kept([""]) == []
  {
    FindIs(" ", '&', "");
    FindIs("", '&', "");
    assert Lower(" ") == " ";
  }

  lemma BlankParameter(base: string, blank: string, part: string)
    requires '?' !in base && '&' !in part && !Keeps(part)
    requires Split(blank) == [blank] && Kept([blank]) == [blank] && Split("") == [""] && Kept([""]) == []
    ensures StripSsl(base + "?" + (blank + "&" + part)) == base + "?" + blank
    ensures StripSsl(base + "?") == base
  {
    StripSslUndoesNext(base, blank, part);
    StripSslOf(base, blank);
    StripSslUndoesFirst(base, "");
    assert base + "?" + "" == base + "?";
  }

  /** A local URL with a blank parameter before its SSL setting is not normalised by the first pass. */
  lemma BlankParameterDoesNotSettle(base: string, d: Driver, e: Driver, f: Driver)
    requires '?' !in base && base != "" && !Leads(base) && IsLocal(base + "?" + " ")
    ensures var url := base + "?" + (" " + "&" + (SslKey(f) + "require"));
            Rewritten(d, Rewritten(e, url)) != Rewritten(d, url)
  {
    var query := " " + "&" + (SslKey(f) + "require");
    var url, value := base + "?" + query, base + "?" + " ";
    assert query[|query| - 1] == "require"[6];
    AlreadyTrimmed(base, query);
    BlankIsKept();
    DemandIsNotKept(f);
    BlankParameter(base, " ", SslKey(f) + "require");
    assert Trails(value) && !Leads(value);
    TrimIsRight(value);
    TrimRightAppends(base + "?", " ");
    assert TrimRight(" ") == "" && base + "?" + "" == base + "?";
    assert |StripSsl(Trim(value))| < |Trim(value)|;
    RewrittenAbsorbs(d, e, url);
  }

  // ---------- the sanitizing step before ----------

  const MARKERS: seq<string> := ["postgresql+asyncpg://", "postgresql+psycopg://", "postgres://", "postgresql://"]

  /** What stands before the first occurrence of the marker. */
  function Before(value: string, marker: string): (head: string)
    ensures head <= value
  {
    if value == "" || StartsWith(value, marker) then "" else [value[0]] + Before(value[1..], marker)
  }

  function TrimSlashes(s: string): string {
    if s != "" && s[|s| - 1] == '/' then TrimSlashes(s[..|s| - 1]) else s
  }

  /**
   The first marker that stands inside a Postgres URL begins a second URL that was pasted behind it, and is cut off.
   */
  function CutSecondUrl(value: string, markers: seq<string>): string {
    if markers == [] then value
    else
      var head := Before(value, markers[0]);
      if Contains(value, markers[0]) && !StartsWith(value, markers[0])
         && (StartsWith(head, "postgres://") || StartsWith(head, "postgresql://"))
      then TrimSlashes(head)
      else CutSecondUrl(value, markers[1..])
  }

  function Sanitized(url: string): string {
    CutSecondUrl(Trim(url), MARKERS)
  }

  function Normalised(d: Driver, url: string): string {
    Rewritten(d, Sanitized(url))
  }

  lemma PrefixStarts(value: string, head: string, prefix: string)
    requires head <= value
    ensures StartsWith(head, prefix) ==> StartsWith(value, prefix)
  {
    if StartsWith(head, prefix) {
      assert value[..|prefix|] == head[..|prefix|];
    }
  }

  lemma {:induction false} NothingToCut(value: string, markers: seq<string>)
    requires !StartsWith(value, "postgres://") && !StartsWith(value, "postgresql://")
    ensures CutSecondUrl(value, markers) == value
  {
    if markers != [] {
      var head := Before(value, markers[0]);
      PrefixStarts(value, head, "postgres://");
      PrefixStarts(value, head, "postgresql://");
      NothingToCut(value, markers[1..]);
    }
  }

  lemma RetagIsNotPlain(d: Driver, value: string)
    ensures !StartsWith(Retag(d, value), "postgres://") && !StartsWith(Retag(d, value), "postgresql://")
  {
    var tagged := Retag(d, value);
    if KindOf(value) == Postgres {
      assert tagged[8] == 'q' && tagged[10] == '+';
      StartsAt(tagged, "postgres://", 8);
      StartsAt(tagged, "postgresql://", 10);
    } else {
      RetagKeepsTheRest(d, value);
      StartsSame(tagged, "sqlite", 0);
      StartsAt(tagged, "postgres://", 0);
      StartsAt(tagged, "postgresql://", 0);
    }
  }

  /** A normalised URL has nothing left to sanitize. */
  lemma RewrittenIsSanitized(d: Driver, url: string)
    ensures Sanitized(Rewritten(d, url)) == Rewritten(d, url)
  {
    var x := Trim(WithSsl(d, url));
    RewrittenIs(d, url);
    RetagIsTrimmed(d, x);
    RetagIsNotPlain(d, x);
    NothingToCut(Retag(d, x), MARKERS);
  }

  /**
   The settings can be loaded from their own output, for either driver, under the same exact condition on the source.
   */
  lemma NormalisedAbsorbs(d: Driver, e: Driver, url: string)
    ensures Normalised(d, Normalised(e, url)) == Normalised(d, url)
            <==> !Dangles(e, Sanitized(url)) || Settles(d, Sanitized(url))
  {
    RewrittenIsSanitized(e, Sanitized(url));
    RewrittenAbsorbs(d, e, Sanitized(url));
  }

  /** A blank parameter before the SSL setting of a local source is such a case. */
  lemma UnsettledUrl(d: Driver, e: Driver, f: Driver)
    ensures var url := "localhost" + "?" + (" " + "&" + (SslKey(f) + "require"));
            Normalised(d, Normalised(e, url)) != Normalised(d, url)
  {
    var base, query := "localhost", " " + "&" + (SslKey(f) + "require");
    var url := base + "?" + query;
    assert OccursAt(Lower(base + "?" + " "), "localhost", 0);
    assert query[|query| - 1] == "require"[6];
    BlankParameterDoesNotSettle(base, d, e, f);
    AlreadyTrimmed(base, query);
    StartsAt(url, "postgres://", 0);
    StartsAt(url, "postgresql://", 0);
    NothingToCut(url, MARKERS);
    RewrittenIsSanitized(e, url);
  }

  /** The SSL setting that each driver's rewriter leaves off, or adds: local and SQLite URLs get none. */
  lemma SettingIsAddedIff(d: Driver, url: string)
    ensures var value, local := StripSsl(Trim(url)), Lower(StripSsl(Trim(url)));
            var exempt := StartsWith(value, "sqlite") || Contains(local, "localhost") || Contains(local, "127.0.0.1")
                          || Contains(local, if d == Asyncpg then "ssl=" else "sslmode=");
            WithSsl(d, url)
            == if exempt then value
               else value + (if '?' in value then "&" else "?")
                    + if d == Asyncpg then "ssl=require" else "sslmode=require"
  {
    assert "ssl=" + "require" == "ssl=require" && "sslmode=" + "require" == "sslmode=require";
  }

  /** Whichever Postgres scheme a URL has, the driver's replaces it, and so for the two schemes of SQLite files. */
  lemma SchemesAreExchanged(d: Driver, rest: string)
    requires rest != "" && !Trails(rest)
    ensures var named := (if d == Asyncpg then "postgresql+asyncpg://" else "postgresql+psycopg://") + rest;
            && AsPostgres(d, "postgres://" + rest) == named
            && AsPostgres(d, "postgresql://" + rest) == named
            && AsPostgres(d, "postgresql+asyncpg://" + rest) == named
            && AsPostgres(d, "postgresql+psycopg://" + rest) == named
            && AsPostgres(d, "postgresql+psycopg2://" + rest) == named
    ensures var file := (if d == Asyncpg then "sqlite+aiosqlite:///" else "sqlite:///") + rest;
            AsPostgres(d, "sqlite:///" + rest) == AsPostgres(d, "sqlite+aiosqlite:///" + rest) == file
  {
    PostgresIsExchanged(d, "postgres://", rest);
    PostgresIsExchanged(d, "postgresql://", rest);
    PostgresIsExchanged(d, "postgresql+asyncpg://", rest);
    PostgresIsExchanged(d, "postgresql+psycopg://", rest);
    PostgresIsExchanged(d, "postgresql+psycopg2://", rest);
    SqliteIsExchanged(d, "sqlite:///", rest);
    SqliteIsExchanged(d, "sqlite+aiosqlite:///", rest);
  }

  lemma SchemeIsTrimmed(scheme: string, rest: string)
    requires scheme != "" && !Leads(scheme) && rest != "" && !Trails(rest)
    ensures Trim(scheme + rest) == scheme + rest
  {
    assert (scheme + rest)[|scheme + rest| - 1] == rest[|rest| - 1];
  }

  lemma PostgresIsExchanged(d: Driver, scheme: string, rest: string)
    requires scheme in {"postgres://", "postgresql://", "postgresql+asyncpg://", "postgresql+psycopg://",
                        "postgresql+psycopg2://"}
    requires rest != "" && !Trails(rest)
    ensures AsPostgres(d, scheme + rest) == Scheme(d) + rest
  {
    var value := scheme + rest;
    SchemeIsTrimmed(scheme, rest);
    AsPostgresRetags(d, value);
    assert value[..|scheme|] == scheme && value[|scheme|..] == rest;
    SchemeLengthIs(value, scheme);
  }

  lemma SchemeLengthIs(value: string, scheme: string)
    requires StartsWith(value, scheme)
    requires scheme in {"postgres://", "postgresql://", "postgresql+asyncpg://", "postgresql+psycopg://",
                        "postgresql+psycopg2://"}
    ensures KindOf(value) == Postgres && SchemeLength(value) == |scheme|
  {
    assert forall i :: 0 <= i < |scheme| ==> value[i] == value[..|scheme|][i];
    assert value[0] == 'p' && "sqlite"[0] == 's';
    StartsAt(value, "sqlite", 0);
    if scheme != "postgres://" {
      StartsAt(value, "postgres://", 8);
      if scheme != "postgresql://" {
        StartsAt(value, "postgresql://", 10);
        if scheme == "postgresql+psycopg2://" {
          StartsAt(value, "postgresql+asyncpg://", 11);
          StartsAt(value, "postgresql+psycopg://", 18);
        }
      }
    }
  }

  lemma SqliteIsExchanged(d: Driver, scheme: string, rest: string)
    requires scheme in {"sqlite:///", "sqlite+aiosqlite:///"} && rest != "" && !Trails(rest)
    ensures AsPostgres(d, scheme + rest) == SqliteScheme(d) + rest
  {
    var value := scheme + rest;
    SchemeIsTrimmed(scheme, rest);
    AsPostgresRetags(d, value);
    assert value[..|scheme|] == scheme && value[|scheme|..] == rest;
    assert forall i :: 0 <= i < |scheme| ==> value[i] == value[..|scheme|][i];
    assert value[..6] == "sqlite";
    if scheme == "sqlite:///" {
      StartsAt(value, "sqlite+aiosqlite:///", 6);
    }
  }

  lemma {:induction false} BeforeIs(head: string, marker: string, tail: string)
    requires forall i :: 0 <= i < |head| ==> !OccursAt(head + marker + tail, marker, i)
    ensures Before(head + marker + tail, marker) == head
    decreases |head|
  {
    var value := head + marker + tail;
    if head == "" {
      assert value[..|marker|] == marker;
    } else {
      var rest := head[1..] + marker + tail;
      assert value == [head[0]] + rest;
      assert value[1..] == rest;
      forall i | 0 <= i < |head| - 1
        ensures !OccursAt(rest, marker, i)
      {
        assert !OccursAt(value, marker, i + 1);
        if i + |marker| <= |rest| {
          assert rest[i..i + |marker|] == value[i + 1..i + 1 + |marker|];
        }
      }
      assert !OccursAt(value, marker, 0);
      BeforeIs(head[1..], marker, tail);
    }
  }

  /** All that is dropped is slashes at the end. */
  lemma {:induction false} OnlySlashesGo(s: string)
    ensures TrimSlashes(s) <= s && (TrimSlashes(s) != "" ==> TrimSlashes(s)[|TrimSlashes(s)| - 1] != '/')
    ensures forall i :: |TrimSlashes(s)| <= i < |s| ==> s[i] == '/'
  {
    if s != "" && s[|s| - 1] == '/' {
      OnlySlashesGo(s[..|s| - 1]);
    }
  }

  lemma {:induction false} CutAtMarker(head: string, marker: string, tail: string, markers: seq<string>)
    requires marker in markers && |head| > 0
    requires StartsWith(head, "postgres://") || StartsWith(head, "postgresql://")
    requires forall i :: 0 <= i < |head| ==> !OccursAt(head + marker + tail, marker, i)
    requires forall other :: other in markers && other != marker ==>
                               !Contains(head + marker + tail, other) || StartsWith(head + marker + tail, other)
    ensures CutSecondUrl(head + marker + tail, markers) == TrimSlashes(head)
    decreases |markers|
  {
    var value := head + marker + tail;
    if markers[0] == marker {
      BeforeIs(head, marker, tail);
      assert OccursAt(value, marker, |head|);
      assert !OccursAt(value, marker, 0);
    } else {
      assert markers[0] in markers;
      CutAtMarker(head, marker, tail, markers[1..]);
    }
  }

  /**
   A second URL that was pasted behind a Postgres one is cut off from its first scheme on, with the slashes before it.
   */
  lemma SecondUrlIsCut(head: string, marker: string, tail: string)
    requires var value := head + marker + tail;
             Trim(value) == value && marker in {"postgresql+asyncpg://", "postgresql+psycopg://", "postgres://",
                                                "postgresql://"}
    requires StartsWith(head, "postgres://") || StartsWith(head, "postgresql://")
    requires forall i :: 0 <= i < |head| ==> !OccursAt(head + marker + tail, marker, i)
    requires forall other :: other in MARKERS && other != marker ==>
                               !Contains(head + marker + tail, other) || StartsWith(head + marker + tail, other)
    ensures var cut := Sanitized(head + marker + tail);
            && cut <= head && (forall i :: |cut| <= i < |head| ==> head[i] == '/')
            && (cut != "" ==> cut[|cut| - 1] != '/')
  {
    assert marker in MARKERS;
    CutAtMarker(head, marker, tail, MARKERS);
    OnlySlashesGo(head);
  }
}
