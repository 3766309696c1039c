/** Listing a merchant's sessions: filter passes, newest first, cut to a limit. */
module SessionListing {
  import opened Common
  import opened TerminalStateMachine
  import opened TerminalSessions

  function Filter(xs: seq<Session>, keep: Session -> bool): (r: seq<Session>) {
    if xs == [] then []
    else
      var n := |xs| - 1;
      Filter(xs[..n], keep) + (if keep(xs[n]) then [xs[n]] else [])
  }

  /** Puts `x` after everything at least as new as it. */
  function Insert(xs: seq<Session>, x: Session): seq<Session> {
    if xs == [] || xs[|xs| - 1].createdAt >= x.createdAt then xs + [x]
    else Insert(xs[..|xs| - 1], x) + [xs[|xs| - 1]]
  }

  /** The stable sort by creation time, newest first. */
  function NewestFirst(xs: seq<Session>): seq<Session> {
    if xs == [] then [] else Insert(NewestFirst(xs[..|xs| - 1]), xs[|xs| - 1])
  }

  function StateName(s: State): string {
    match s
    case Created => "CREATED"
    case AmountEntered => "AMOUNT_ENTERED"
    case ProtocolSelected => "PROTOCOL_SELECTED"
    case CardPresented => "CARD_PRESENTED"
    case CardDataRead => "CARD_DATA_READ"
    case Authorizing => "AUTHORIZING"
    case Approved => "APPROVED"
    case Declined => "DECLINED"
    case Captured => "CAPTURED"
    case Completed => "COMPLETED"
    case Voided => "VOIDED"
    case Refunded => "REFUNDED"
    case Cancelled => "CANCELLED"
    case Failed => "FAILED"
  }

  function OwnedBy(merchant: Uuid): Session -> bool {
    (s: Session) => s.merchantId == merchant
  }

  function HasStatus(status: Option<string>): Session -> bool {
    (s: Session) => !Truthy(status) || StateName(s.state) == Upper(status.value)
  }

  function MentionsProtocol(protocol: Option<string>): Session -> bool {
    (s: Session) =>
      !Truthy(protocol)
      || (var p := Lower(protocol.value);
          if s.protocol.None? then Contains("", p)
          else Contains(Lower(s.protocol.value.code), p) || Contains(Lower(s.protocol.value.selectionId), p)
               || Contains(Lower(s.protocol.value.displayLabel), p))
  }

  function HasCurrency(currency: Option<string>): Session -> bool {
    (s: Session) => !Truthy(currency) || Upper(s.currency) == Upper(currency.value)
  }

  /** The four filter passes in the order the store runs them. */
  function Passes(table: seq<Session>, merchant: Uuid, status: Option<string>, protocol: Option<string>,
                  currency: Option<string>): seq<Session>
  {
    Filter(Filter(Filter(Filter(table, OwnedBy(merchant)), HasStatus(status)), MentionsProtocol(protocol)),
           HasCurrency(currency))
  }

  function Cut(xs: seq<Session>, limit: nat): seq<Session> {
    if |xs| <= limit then xs else xs[..limit]
  }

  function Both(p: Session -> bool, q: Session -> bool): Session -> bool {
    (s: Session) => p(s) && q(s)
  }

  // ---------- what the listing is ----------

  /** Two passes are one pass with the conjunction, so their order does not matter. */
  lemma {:induction false} PassesCommute(xs: seq<Session>, p: Session -> bool, q: Session -> bool)
    ensures Filter(Filter(xs, p), q) == Filter(xs, Both(p, q)) == Filter(Filter(xs, q), p)
  {
    if xs != [] {
      var n := |xs| - 1;
      PassesCommute(xs[..n], p, q);
      var inner := Filter(xs[..n], p);
      assert inner + [] == inner;
      if p(xs[n]) {
        assert (inner + [xs[n]])[..|inner|] == inner;
      }
      var inner' := Filter(xs[..n], q);
      assert inner' + [] == inner';
      if q(xs[n]) {
        assert (inner' + [xs[n]])[..|inner'|] == inner';
      }
    }
  }

  ghost predicate Descending(xs: seq<Session>) {
    forall i, j :: 0 <= i < j < |xs| ==> xs[i].createdAt >= xs[j].createdAt
  }

  lemma {:induction false} InsertAdds(xs: seq<Session>, x: Session)
    ensures multiset(Insert(xs, x)) == multiset(xs) + multiset{x}
    ensures forall i :: 0 <= i <= |xs| ==> i < |Insert(xs, x)| && (Insert(xs, x)[i] == x || Insert(xs, x)[i] in xs)
  {
    if xs != [] && xs[|xs| - 1].createdAt < x.createdAt {
      var n := |xs| - 1;
      InsertAdds(xs[..n], x);
      assert xs == xs[..n] + [xs[n]];
    }
  }

  lemma {:induction false} InsertKeepsOrder(xs: seq<Session>, x: Session)
    requires Descending(xs)
    ensures Descending(Insert(xs, x)) && |Insert(xs, x)| == |xs| + 1
  {
    if xs != [] && xs[|xs| - 1].createdAt < x.createdAt {
      var n := |xs| - 1;
      InsertKeepsOrder(xs[..n], x);
      InsertAdds(xs[..n], x);
      assert forall y :: y in xs[..n] ==> y.createdAt >= xs[n].createdAt;
    }
  }

  lemma {:induction false} SortIsOrdered(xs: seq<Session>)
    ensures Descending(NewestFirst(xs)) && multiset(NewestFirst(xs)) == multiset(xs)
  {
    if xs != [] {
      var n := |xs| - 1;
      SortIsOrdered(xs[..n]);
      InsertKeepsOrder(NewestFirst(xs[..n]), xs[n]);
      InsertAdds(NewestFirst(xs[..n]), xs[n]);
      assert xs == xs[..n] + [xs[n]];
    }
  }

  function CreatedAt(t: int): Session -> bool {
    (s: Session) => s.createdAt == t
  }

  lemma FilterOneMore(xs: seq<Session>, x: Session, keep: Session -> bool)
    ensures Filter(xs + [x], keep) == Filter(xs, keep) + (if keep(x) then [x] else [])
  {
    assert (xs + [x])[..|xs|] == xs;
  }

  lemma {:induction false} InsertIsStable(xs: seq<Session>, x: Session, t: int)
    requires Descending(xs)
    ensures Filter(Insert(xs, x), CreatedAt(t)) == Filter(xs, CreatedAt(t)) + (if x.createdAt == t then [x] else [])
  {
    if xs == [] || xs[|xs| - 1].createdAt >= x.createdAt {
      FilterOneMore(xs, x, CreatedAt(t));
    } else {
      var n := |xs| - 1;
      InsertIsStable(xs[..n], x, t);
      FilterOneMore(Insert(xs[..n], x), xs[n], CreatedAt(t));
      var front := Filter(xs[..n], CreatedAt(t));
      assert Filter(xs, CreatedAt(t)) == front + if xs[n].createdAt == t then [xs[n]] else [];
      assert front + [] == front;
    }
  }

  /** Sessions created at the same instant keep the order in which they were stored. */
  lemma {:induction false} SortIsStable(xs: seq<Session>, t: int)
    ensures Filter(NewestFirst(xs), CreatedAt(t)) == Filter(xs, CreatedAt(t))
  {
    if xs != [] {
      var n := |xs| - 1;
      SortIsStable(xs[..n], t);
      SortIsOrdered(xs[..n]);
      InsertIsStable(NewestFirst(xs[..n]), xs[n], t);
    }
  }

  lemma {:induction false} FilterIsExact(xs: seq<Session>, keep: Session -> bool, s: Session)
    ensures multiset(Filter(xs, keep))[s] == if keep(s) then multiset(xs)[s] else 0
  {
    if xs != [] {
      var n := |xs| - 1;
      FilterIsExact(xs[..n], keep, s);
      assert xs == xs[..n] + [xs[n]];
    }
  }

  lemma PassesAreExact(table: seq<Session>, merchant: Uuid, status: Option<string>, protocol: Option<string>,
                       currency: Option<string>, s: Session)
    ensures multiset(Passes(table, merchant, status, protocol, currency))[s] ==
            if OwnedBy(merchant)(s) && HasStatus(status)(s) && MentionsProtocol(protocol)(s) && HasCurrency(currency)(s)
            then multiset(table)[s] else 0
  {
    var a := Filter(table, OwnedBy(merchant));
    var b := Filter(a, HasStatus(status));
    var c := Filter(b, MentionsProtocol(protocol));
    FilterIsExact(table, OwnedBy(merchant), s);
    FilterIsExact(a, HasStatus(status), s);
    FilterIsExact(b, MentionsProtocol(protocol), s);
    FilterIsExact(c, HasCurrency(currency), s);
  }

  lemma CutSplits(sorted: seq<Session>, limit: nat) returns (rest: seq<Session>)
    requires Descending(sorted)
    ensures Cut(sorted, limit) + rest == sorted && Descending(Cut(sorted, limit))
    ensures |Cut(sorted, limit)| == if |sorted| <= limit then |sorted| else limit
    ensures forall i, j :: 0 <= i < |Cut(sorted, limit)| && 0 <= j < |rest| ==>
            Cut(sorted, limit)[i].createdAt >= rest[j].createdAt
  {
    rest := if |sorted| <= limit then [] else sorted[limit..];
  }

  /**
   The listing and the matches left out of it are together exactly the matching sessions; the listing is as long as
   the limit allows, newest first, and nothing left out is newer than anything listed.
   */
  lemma ListingIsNewestPrefix(table: seq<Session>, merchant: Uuid, status: Option<string>, protocol: Option<string>,
                              currency: Option<string>, limit: nat)
    returns (rest: seq<Session>)
    ensures var matches := Passes(table, merchant, status, protocol, currency);
            var listed := Cut(NewestFirst(matches), limit);
            && multiset(listed) + multiset(rest) == multiset(matches)
            && |listed| == (if |matches| <= limit then |matches| else limit)
            && Descending(listed)
            && (forall i, j :: 0 <= i < |listed| && 0 <= j < |rest| ==> listed[i].createdAt >= rest[j].createdAt)
  {
    var matches := Passes(table, merchant, status, protocol, currency);
    var sorted := NewestFirst(matches);
    SortIsOrdered(matches);
    assert |sorted| == |multiset(sorted)| == |matches|;
    rest := CutSplits(sorted, limit);
    assert multiset(Cut(sorted, limit) + rest) == multiset(sorted);
  }
}
