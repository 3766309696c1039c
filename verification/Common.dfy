/** Vocabulary shared by every model: optional values and the few string operations the backend relies on. */
module Common {
  datatype Option<+T> = None | Some(value: T)

  /** A UUID in its canonical text form, which always has 36 characters. */
  type Uuid = s: string | |s| == 36 witness "00000000-0000-0000-0000-000000000000"

  /** What a Numeric(18, 2) column does not hold any more, in cents. */
  const CENTS_LIMIT: nat := 1_000_000_000_000_000_000

  predicate StartsWith(s: string, prefix: string) {
    |prefix| <= |s| && s[..|prefix|] == prefix
  }

  predicate EndsWith(s: string, suffix: string) {
    |suffix| <= |s| && s[|s| - |suffix|..] == suffix
  }

  predicate OccursAt(s: string, sub: string, i: nat) {
    i + |sub| <= |s| && s[i..i + |sub|] == sub
  }

  /** `sub in s` for strings. */
  predicate Contains(s: string, sub: string) {
    exists i :: 0 <= i <= |s| && OccursAt(s, sub, i)
  }

  /** Python truthiness of an optional string: present and not empty. */
  predicate Truthy(s: Option<string>) {
    s.Some? && s.value != ""
  }

  function UpperChar(c: char): char {
    if 'a' <= c <= 'z' then c - 'a' + 'A' else c
  }

  function LowerChar(c: char): char {
    if 'A' <= c <= 'Z' then c - 'A' + 'a' else c
  }

  /** ASCII `str.upper()`. */
  function Upper(s: string): string {
    seq(|s|, i requires 0 <= i < |s| => UpperChar(s[i]))
  }

  /** ASCII `str.lower()`. */
  function Lower(s: string): string {
    seq(|s|, i requires 0 <= i < |s| => LowerChar(s[i]))
  }

  /** The ASCII characters `str.strip()` removes. */
  predicate IsSpace(c: char) {
    c == ' ' || '\t' <= c <= '\r' || '\U{1c}' <= c <= '\U{1f}'
  }

  predicate Leads(s: string) {
    s != "" && IsSpace(s[0])
  }

  predicate Trails(s: string) {
    s != "" && IsSpace(s[|s| - 1])
  }

  function TrimLeft(s: string): (r: string)
    ensures !Leads(r) && |r| <= |s| && (|r| == |s| ==> r == s)
  {
    if Leads(s) then TrimLeft(s[1..]) else s
  }

  function TrimRight(s: string): (r: string)
    ensures !Trails(r) && |r| <= |s| && (|r| == |s| ==> r == s)
    ensures !Leads(s) ==> !Leads(r)
  {
    if Trails(s) then TrimRight(s[..|s| - 1]) else s
  }

  /** `str.strip()` */
  function Trim(s: string): (r: string)
    ensures !Leads(r) && !Trails(r) && |r| <= |s|
    ensures !Leads(s) && !Trails(s) ==> r == s
    ensures Trails(s) ==> |r| < |s|
  {
    TrimRight(TrimLeft(s))
  }
}
