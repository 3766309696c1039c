/**
 Which sessions a listing keeps, told from the text of each filter: the names of the states, and equality and occurrence
 that ignore case.
 */
module ListingAnswers {
  import opened Common
  import opened TerminalStateMachine
  import opened TerminalSessions
  import opened SessionListing

  predicate SameIgnoringCase(a: string, b: string) {
    |a| == |b| && forall i :: 0 <= i < |a| ==> LowerChar(a[i]) == LowerChar(b[i])
  }

  predicate StandsAt(part: string, text: string, i: nat) {
    i + |part| <= |text| && SameIgnoringCase(text[i..i + |part|], part)
  }

  predicate OccursIgnoringCase(part: string, text: string) {
    exists i :: 0 <= i <= |text| && StandsAt(part, text, i)
  }

  /** The text is the state's name, in any case. */
  predicate Names(text: string, state: State) {
    match state
    case Created => SameIgnoringCase(text, "CREATED")
    case AmountEntered => SameIgnoringCase(text, "AMOUNT_ENTERED")
    case ProtocolSelected => SameIgnoringCase(text, "PROTOCOL_SELECTED")
    case CardPresented => SameIgnoringCase(text, "CARD_PRESENTED")
    case CardDataRead => SameIgnoringCase(text, "CARD_DATA_READ")
    case Authorizing => SameIgnoringCase(text, "AUTHORIZING")
    case Approved => SameIgnoringCase(text, "APPROVED")
    case Declined => SameIgnoringCase(text, "DECLINED")
    case Captured => SameIgnoringCase(text, "CAPTURED")
    case Completed => SameIgnoringCase(text, "COMPLETED")
    case Voided => SameIgnoringCase(text, "VOIDED")
    case Refunded => SameIgnoringCase(text, "REFUNDED")
    case Cancelled => SameIgnoringCase(text, "CANCELLED")
    case Failed => SameIgnoringCase(text, "FAILED")
  }

  lemma CharCases(a: char, b: char)
    ensures UpperChar(a) == UpperChar(b) <==> LowerChar(a) == LowerChar(b)
  {
  }

  lemma UpperSame(a: string, b: string)
    ensures Upper(a) == Upper(b) <==> SameIgnoringCase(a, b)
  {
    if |a| == |b| {
      forall i | 0 <= i < |a|
        ensures Upper(a)[i] == Upper(b)[i] <==> LowerChar(a[i]) == LowerChar(b[i])
      {
        CharCases(a[i], b[i]);
      }
    } else {
      assert |Upper(a)| != |Upper(b)|;
    }
  }

  lemma LowerSame(a: string, b: string)
    ensures Lower(a) == Lower(b) <==> SameIgnoringCase(a, b)
  {
    if |a| == |b| {
      forall i | 0 <= i < |a|
        ensures Lower(a)[i] == Lower(b)[i] <==> LowerChar(a[i]) == LowerChar(b[i])
      {
      }
    } else {
      assert |Lower(a)| != |Lower(b)|;
    }
  }

  lemma LowerContains(text: string, part: string)
    ensures Contains(Lower(text), Lower(part)) <==> OccursIgnoringCase(part, text)
  {
    forall i | 0 <= i <= |text|
      ensures OccursAt(Lower(text), Lower(part), i) <==> StandsAt(part, text, i)
    {
      if i + |part| <= |text| {
        LowerSame(text[i..i + |part|], part);
        assert Lower(text)[i..i + |part|] == Lower(text[i..i + |part|]);
      }
    }
    assert |Lower(text)| == |text| && |Lower(part)| == |part|;
  }

  lemma NamesIff(text: string, state: State)
    ensures StateName(state) == Upper(text) <==> Names(text, state)
  {
    var name := StateName(state);
    assert Upper(name) == name;
    UpperSame(text, name);
  }

  /** The filter was not given, or is empty. */
  predicate Absent(text: Option<string>) {
    text.None? || text.value == ""
  }

  /** How often the session is among the matches. */
  ghost function Matches(table: seq<Session>, merchant: Uuid, status: Option<string>, protocol: Option<string>,
                         currency: Option<string>, s: Session): nat
  {
    multiset(Passes(table, merchant, status, protocol, currency))[s]
  }

  /** Without filters the matches are the merchant's own sessions. */
  lemma OwnSessionsMatch(table: seq<Session>, merchant: Uuid, s: Session)
    ensures Matches(table, merchant, None, None, None, s) == if s.merchantId == merchant then multiset(table)[s] else 0
  {
    PassesAreExact(table, merchant, None, None, None, s);
  }

  /** The status filter keeps exactly the sessions in the state that it names; a text that names no state keeps none. */
  lemma StatusKeeps(table: seq<Session>, merchant: Uuid, status: Option<string>, protocol: Option<string>,
                    currency: Option<string>, s: Session)
    ensures Matches(table, merchant, status, protocol, currency, s)
         == if Absent(status) || Names(status.value, s.state) then Matches(table, merchant, None, protocol, currency, s)
            else 0
  {
    PassesAreExact(table, merchant, status, protocol, currency, s);
    PassesAreExact(table, merchant, None, protocol, currency, s);
    if status.Some? {
      NamesIff(status.value, s.state);
    }
  }

  /** The currency filter keeps exactly the sessions in that currency, in any case. */
  lemma CurrencyKeeps(table: seq<Session>, merchant: Uuid, status: Option<string>, protocol: Option<string>,
                      currency: Option<string>, s: Session)
    ensures Matches(table, merchant, status, protocol, currency, s)
         == if Absent(currency) || SameIgnoringCase(s.currency, currency.value)
            then Matches(table, merchant, status, protocol, None, s) else 0
  {
    PassesAreExact(table, merchant, status, protocol, currency, s);
    PassesAreExact(table, merchant, status, protocol, None, s);
    if currency.Some? {
      UpperSame(s.currency, currency.value);
    }
  }

  /** The text occurs in the code, the id or the label of the session's protocol. */
  predicate Mentions(s: Session, text: string) {
    && s.protocol.Some?
    && (|| OccursIgnoringCase(text, s.protocol.value.code)
        || OccursIgnoringCase(text, s.protocol.value.selectionId)
        || OccursIgnoringCase(text, s.protocol.value.displayLabel))
  }

  /** The protocol filter keeps exactly the sessions whose protocol mentions the text, in any case. */
  lemma ProtocolKeeps(table: seq<Session>, merchant: Uuid, status: Option<string>, protocol: Option<string>,
                      currency: Option<string>, s: Session)
    ensures Matches(table, merchant, status, protocol, currency, s)
         == if Absent(protocol) || Mentions(s, protocol.value) then Matches(table, merchant, status, None, currency, s)
            else 0
  {
    PassesAreExact(table, merchant, status, protocol, currency, s);
    PassesAreExact(table, merchant, status, None, currency, s);
    if !Absent(protocol) {
      assert |Lower(protocol.value)| > 0;
      if s.protocol.Some? {
        LowerContains(s.protocol.value.code, protocol.value);
        LowerContains(s.protocol.value.selectionId, protocol.value);
        LowerContains(s.protocol.value.displayLabel, protocol.value);
      }
    }
  }
}
