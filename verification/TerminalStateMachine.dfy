/** The POS session state table and the shape of the event logs it admits. */
module TerminalStateMachine {
  import opened Common

  datatype State =
    | Created | AmountEntered | ProtocolSelected | CardPresented | CardDataRead | Authorizing
    | Approved | Declined | Captured | Completed | Voided | Refunded | Cancelled | Failed

  function Successors(s: State): set<State> {
    match s
    case Created => {AmountEntered, Cancelled}
    case AmountEntered => {ProtocolSelected, Cancelled}
    case ProtocolSelected => {CardPresented, Cancelled}
    case CardPresented => {CardDataRead, Authorizing, Cancelled, Failed}
    case CardDataRead => {Authorizing, Cancelled, Failed}
    case Authorizing => {Approved, Declined, Failed, Cancelled}
    case Approved => {Captured, Completed, Voided, Cancelled}
    case Captured => {Completed, Refunded, Voided}
    case Completed => {Refunded}
    case Declined => {}
    case Failed => {}
    case Cancelled => {}
    case Voided => {}
    case Refunded => {}
  }

  predicate CanTransition(from: State, to: State) {
    to in Successors(from)
  }

  /** One line of a session's event log; only the first line has no `from`. */
  datatype Event = Event(from: Option<State>, to: State, note: string)

  /** The log walks the table edge by edge, starting from nothing into Created. */
  ghost predicate IsPath(log: seq<Event>) {
    && log != []
    && log[0].from == None
    && log[0].to == Created
    && (forall i :: 1 <= i < |log| ==> log[i].from == Some(log[i - 1].to) && CanTransition(log[i - 1].to, log[i].to))
  }

  /** Height of a state in the table once CardDataRead is set aside. */
  function Rank(s: State): nat {
    match s
    case Created => 0
    case AmountEntered => 1
    case ProtocolSelected => 2
    case CardPresented => 3
    case CardDataRead => 4
    case Authorizing => 5
    case Approved => 6
    case Captured => 7
    case Completed => 8
    case _ => 9
  }

  /** The table is acyclic, so a log never visits a state twice. */
  lemma {:induction false} LaterIsHigher(log: seq<Event>, i: nat, j: nat)
    requires IsPath(log)
    requires i < j < |log|
    ensures Rank(log[i].to) + (j - i) <= Rank(log[j].to)
    decreases j
  {
    assert CanTransition(log[j - 1].to, log[j].to);
    if i < j - 1 {
      LaterIsHigher(log, i, j - 1);
    }
  }

  /** No log can be longer than the ten levels of the table. */
  lemma LogIsBounded(log: seq<Event>)
    requires IsPath(log)
    ensures |log| <= 10
    ensures forall i, j :: 0 <= i < j < |log| ==> log[i].to != log[j].to
  {
    if |log| > 1 {
      LaterIsHigher(log, 0, |log| - 1);
    }
    forall i, j | 0 <= i < j < |log|
      ensures log[i].to != log[j].to
    {
      LaterIsHigher(log, i, j);
    }
  }

  /** A log that never reads card data has at most nine lines. */
  lemma {:induction false} LogWithoutCardReadIsBounded(log: seq<Event>, n: nat)
    requires IsPath(log) && 1 <= n <= |log|
    requires forall i :: 0 <= i < |log| ==> log[i].to != CardDataRead
    ensures n <= (if Rank(log[n - 1].to) >= 5 then Rank(log[n - 1].to) else Rank(log[n - 1].to) + 1) <= 9
    decreases n
  {
    if n > 1 {
      assert CanTransition(log[n - 2].to, log[n - 1].to);
      LogWithoutCardReadIsBounded(log, n - 1);
    }
  }
}
