/**
 What each call on a terminal session answers and leaves, told from its inputs and the session it finds: who may call in
 which state, what the processor says to which card, and every figure that a granted call writes.
 */
module TerminalAnswers {
  import opened Common
  import opened TerminalStateMachine
  import opened TerminalSessions
  import opened TerminalSafety
  import P = MockProcessor

  // ---------- who is answered how ----------

  /** Why a call fails, by caller, state at rest and inputs; if for no reason, it is granted. */
  ghost function WhyRejected(y: System, q: Request): Option<Failure> {
    if q.merchant.None? then Some(MerchantRequired)
    else if q.Create? then if q.selection.BadProtocol? then Some(Unprocessable) else None
    else if q.id !in y.sessions || y.sessions[q.id].merchantId != q.merchant.value then Some(NotFound)
    else
      var state := y.sessions[q.id].state;
      match q
      case SelectProtocol(_, _, lookup, _) =>
        if lookup.None? then Some(UnknownProtocol) else if state == AmountEntered then None else Some(Conflict)
      case Authorize(_, _, token, _, executionAllowed, _, _, _) =>
        if state != ProtocolSelected then Some(Conflict)
        else if !StartsWith(token, "pm_") then Some(Unprocessable)
        else if executionAllowed then None else Some(Unavailable)
      case Capture(_, _, _, _) => if state == State.Approved then None else Some(Conflict)
      case Void(_, _, _) => if state == State.Approved then None else Some(Conflict)
      case Refund(_, _, _, _, _, _, _) => if state == State.Completed then None else Some(Conflict)
      case Cancel(_, _, _) =>
        if state in {AmountEntered, ProtocolSelected, State.Approved} then None else Some(Conflict)
  }

  lemma EffectFailsIff(s: Session, entries: P.Entries, j: seq<P.CallKind>, q: Request, y: System)
    requires SessionFits(s, entries, j) && !q.Create? && NewReference(entries, q)
    requires q.merchant == Some(s.merchantId) && q.id in y.sessions && y.sessions[q.id] == s
    ensures EffectOf(s, entries, q).failure == WhyRejected(y, q)
  {
    CallFits(s, entries, j, q);
    ConflictIsAboutState(s, entries, j, q);
    if q.Authorize? && s.state == ProtocolSelected {
      AuthorizeFailsIff(s, entries, j, q);
    }
  }

  lemma AuthorizeFailsIff(s: Session, entries: P.Entries, j: seq<P.CallKind>, q: Request)
    requires SessionFits(s, entries, j) && q.Authorize? && NewReference(entries, q) && s.state == ProtocolSelected
    ensures EffectOf(s, entries, q).failure
         == if !StartsWith(q.token, "pm_") then Some(Unprocessable)
            else if !q.executionAllowed then Some(Unavailable) else None
  {
    if StartsWith(q.token, "pm_") && q.executionAllowed {
      CallFits(s, entries, j, q);
      AnswerNeverFails(s, entries, q);
    }
  }

  lemma AnswerNeverFails(s: Session, entries: P.Entries, q: Request)
    requires q.Authorize? && s.state == ProtocolSelected && StartsWith(q.token, "pm_") && q.executionAllowed
    ensures EffectOf(s, entries, q).failure in {None, Some(ProcessorRaised)}
  {
  }

  /** In every reachable state every call is granted, or fails for exactly that reason and changes nothing. */
  lemma CallsAreAnswered(y: System, q: Request)
    requires Inv(y) && Fresh(y, q)
    ensures match WhyRejected(y, q)
            case None => Step(y, q).response.Done?
            case Some(failure) => Step(y, q) == Outcome(y, Rejected(failure))
  {
    RejectionIsHarmless(y, q);
    if Targets(y, q) {
      EffectFailsIff(y.sessions[q.id], y.entries, Journal(y.calls, q.id), q, y);
    }
  }

  // ---------- which card gets which answer ----------

  /** A tokenized card presented for a ready session of the caller's. */
  ghost predicate Presents(y: System, q: Request) {
    && q.Authorize? && Targets(y, q) && Inv(y) && y.sessions[q.id].state == ProtocolSelected
    && StartsWith(q.token, "pm_") && q.executionAllowed
  }

  function Reference(q: Request): string
    requires q.Authorize?
  {
    "sbx_" + q.hex
  }

  /** The session with the answer written on it and `lines` on its log. */
  function Written(s: Session, q: Request, state: State, verdict: P.Verdict, code: Option<string>, signature: bool,
                   message: string, lines: seq<Event>): Session
    requires q.Authorize?
  {
    s.(state := state, processorStatus := Some(verdict), processorMessage := Some(message), authorizationCode := code,
       signatureRequired := signature, paymentMethodToken := Some(q.token), processorReference := Some(Reference(q)),
       events := s.events + ([Event(Some(ProtocolSelected), CardPresented, "Card presented (tokenized)"),
                              Event(Some(CardPresented), Authorizing, "Authorizing")] + lines),
       updatedAt := q.now)
  }

  /** An answered authorization writes the processor's answer on its session, and touches no other. */
  ghost predicate Writes(y: System, q: Request, state: State, verdict: P.Verdict, code: Option<string>, signature: bool,
                         message: string, lines: seq<Event>)
    requires Presents(y, q)
  {
    var s, o := y.sessions[q.id], Step(y, q);
    && o.response == Done(Written(s, q, state, verdict, code, signature, message, lines))
    && o.system.sessions == y.sessions[q.id := Written(s, q, state, verdict, code, signature, message, lines)]
    && o.system.index == y.index
  }

  /** What it leaves at the processor: one entry under a reference of its own, and these calls. */
  ghost predicate Leaves(y: System, q: Request, verdict: P.Verdict, code: Option<string>, signature: bool,
                         message: string, calls: seq<P.Call>)
    requires Presents(y, q)
  {
    var s, after := y.sessions[q.id], Step(y, q).system;
    && after.entries == y.entries[Reference(q) := P.ProcessorResult(q.id, s.amountMinor, s.currency, verdict, code,
                                                                    Reference(q), signature, message)]
    && after.calls == y.calls + calls
  }

  /** The card is refused with this verdict and message, and its session ends in this state. */
  ghost predicate Refused(y: System, q: Request, verdict: P.Verdict, state: State, message: string)
    requires Presents(y, q)
  {
    && Writes(y, q, state, verdict, None, false, message, [Event(Some(Authorizing), state, message)])
    && Leaves(y, q, verdict, None, false, message, [P.Call(P.AuthorizeCall, q.id)])
  }

  function ReplyTo(s: Session, q: Request): P.Reply
    requires q.Authorize?
  {
    P.AuthorizeReply(s.id, s.amountMinor, s.currency, OutcomeOf(s), q.token, q.scenario, q.hex, q.code)
  }

  function Refusal(s: Session, q: Request, verdict: P.Verdict, message: string): P.Reply
    requires q.Authorize?
  {
    P.Returned(P.ProcessorResult(s.id, s.amountMinor, s.currency, verdict, None, Reference(q), false, message))
  }

  lemma OneLine(log: seq<Event>, a: Event, b: Event, c: Event)
    ensures log + [a] + [b] + [c] == log + ([a, b] + [c])
  {
  }

  lemma TwoLines(log: seq<Event>, a: Event, b: Event, c: Event, d: Event)
    ensures log + [a] + [b] + [c] + [d] == log + ([a, b] + ([c] + [d]))
  {
  }

  lemma ThreeLines(log: seq<Event>, a: Event, b: Event, c: Event, d: Event, e: Event)
    ensures log + [a] + [b] + [c] + [d] + [e] == log + ([a, b] + ([c] + [d, e]))
  {
  }

  lemma CallsAreTagged(id: Uuid, kind: P.CallKind, kind': P.CallKind)
    ensures Tagged([kind], id) == [P.Call(kind, id)]
    ensures Tagged([kind, kind'], id) == [P.Call(kind, id), P.Call(kind', id)]
    ensures [kind] + [] == [kind] && [kind] + [kind'] == [kind, kind']
  {
  }

  function EffectOn(s: Session, entries: P.Entries, q: Request): Effect
    requires q.Authorize? && s.state == ProtocolSelected && StartsWith(q.token, "pm_")
  {
    PresentedEffect(s, entries, q.token, q.scenario, q.hex, q.code, q.now)
  }

  /** A granted authorization lands as its effect. */
  lemma EffectLands(y: System, q: Request, after: Session, entries: P.Entries, kinds: seq<P.CallKind>)
    requires Presents(y, q) && EffectOn(y.sessions[q.id], y.entries, q) == Effect(after, entries, kinds, None)
    ensures Step(y, q) == Outcome(System(y.sessions[q.id := after], y.index, entries, y.calls + Tagged(kinds, q.id)),
                                  Done(after))
  {
  }

  lemma RefusalEffect(s: Session, entries: P.Entries, q: Request, verdict: P.Verdict, state: State, message: string)
    requires q.Authorize? && s.state == ProtocolSelected && StartsWith(q.token, "pm_")
    requires ReplyTo(s, q) == Refusal(s, q, verdict, message) && Ends(verdict, state)
    ensures EffectOn(s, entries, q)
         == Effect(Written(s, q, state, verdict, None, false, message, [Event(Some(Authorizing), state, message)]),
                   entries[Reference(q) := Refusal(s, q, verdict, message).result], [P.AuthorizeCall], None)
  {
    OneLine(s.events, Event(Some(ProtocolSelected), CardPresented, "Card presented (tokenized)"),
            Event(Some(CardPresented), Authorizing, "Authorizing"), Event(Some(Authorizing), state, message));
    assert [P.AuthorizeCall] + [] == [P.AuthorizeCall];
  }

  predicate Ends(verdict: P.Verdict, state: State) {
    match verdict
    case Declined => state == State.Declined
    case Cancelled => state == State.Cancelled
    case TimedOut => state == Failed
    case Errored => state == Failed
    case Approved => false
  }

  lemma RefusalLands(y: System, q: Request, verdict: P.Verdict, state: State, message: string)
    requires Presents(y, q) && ReplyTo(y.sessions[q.id], q) == Refusal(y.sessions[q.id], q, verdict, message)
    requires Ends(verdict, state)
    ensures Refused(y, q, verdict, state, message)
  {
    var s := y.sessions[q.id];
    RefusalEffect(s, y.entries, q, verdict, state, message);
    EffectLands(y, q,
                Written(s, q, state, verdict, None, false, message, [Event(Some(Authorizing), state, message)]),
                y.entries[Reference(q) := Refusal(s, q, verdict, message).result], [P.AuthorizeCall]);
    CallsAreTagged(q.id, P.AuthorizeCall, P.AuthorizeCall);
  }

  predicate Plain(token: string) {
    !Contains(token, "declined") && !Contains(token, "timeout") && !Contains(token, "error")
  }

  /** With no scenario named and none in the token, an amount ending in 13, 99 or 77 is refused, each in its own way. */
  lemma AmountsRefuse(y: System, q: Request)
    requires Presents(y, q) && !Truthy(q.scenario) && Plain(q.token)
    ensures y.sessions[q.id].amountMinor % 100 == 13 ==>
              Refused(y, q, P.Declined, State.Declined, "Sandbox declined")
    ensures y.sessions[q.id].amountMinor % 100 == 99 ==> Refused(y, q, P.TimedOut, State.Failed, "Sandbox timeout")
    ensures y.sessions[q.id].amountMinor % 100 == 77 ==>
              Refused(y, q, P.Errored, State.Failed, "Sandbox processor error")
  {
    var s := y.sessions[q.id];
    if s.amountMinor % 100 == 13 {
      RefusalLands(y, q, P.Declined, State.Declined, "Sandbox declined");
    } else if s.amountMinor % 100 == 99 {
      RefusalLands(y, q, P.TimedOut, State.Failed, "Sandbox timeout");
    } else if s.amountMinor % 100 == 77 {
      RefusalLands(y, q, P.Errored, State.Failed, "Sandbox processor error");
    }
  }

  /** With no scenario named the first of three words in the token decides, whatever the amount. */
  lemma TokensRefuse(y: System, q: Request)
    requires Presents(y, q) && !Truthy(q.scenario)
    ensures Contains(q.token, "declined") ==> Refused(y, q, P.Declined, State.Declined, "Sandbox declined")
    ensures !Contains(q.token, "declined") && Contains(q.token, "timeout") ==>
              Refused(y, q, P.TimedOut, State.Failed, "Sandbox timeout")
    ensures !Contains(q.token, "declined") && !Contains(q.token, "timeout") && Contains(q.token, "error") ==>
              Refused(y, q, P.Errored, State.Failed, "Sandbox processor error")
  {
    if Contains(q.token, "declined") {
      RefusalLands(y, q, P.Declined, State.Declined, "Sandbox declined");
    } else if Contains(q.token, "timeout") {
      RefusalLands(y, q, P.TimedOut, State.Failed, "Sandbox timeout");
    } else if Contains(q.token, "error") {
      RefusalLands(y, q, P.Errored, State.Failed, "Sandbox processor error");
    }
  }

  /** Four scenarios can be named to refuse a card, whatever its token and amount. */
  lemma ScenariosRefuse(y: System, q: Request)
    requires Presents(y, q)
    ensures q.scenario == Some("declined") ==> Refused(y, q, P.Declined, State.Declined, "Sandbox declined")
    ensures q.scenario == Some("timeout") ==> Refused(y, q, P.TimedOut, State.Failed, "Sandbox timeout")
    ensures q.scenario == Some("error") ==> Refused(y, q, P.Errored, State.Failed, "Sandbox processor error")
    ensures q.scenario == Some("cancelled") ==> Refused(y, q, P.Cancelled, State.Cancelled, "Sandbox cancelled")
  {
    if q.scenario == Some("declined") {
      RefusalLands(y, q, P.Declined, State.Declined, "Sandbox declined");
    } else if q.scenario == Some("timeout") {
      RefusalLands(y, q, P.TimedOut, State.Failed, "Sandbox timeout");
    } else if q.scenario == Some("error") {
      RefusalLands(y, q, P.Errored, State.Failed, "Sandbox processor error");
    } else if q.scenario == Some("cancelled") {
      RefusalLands(y, q, P.Cancelled, State.Cancelled, "Sandbox cancelled");
    }
  }

  /** Nothing refuses the card. */
  ghost predicate Passes(s: Session, q: Request)
    requires q.Authorize?
  {
    if Truthy(q.scenario) then q.scenario.value !in {"declined", "timeout", "error", "cancelled"}
    else Plain(q.token) && s.amountMinor % 100 !in {13, 99, 77}
  }

  function WantsSignature(s: Session, q: Request): bool
    requires q.Authorize?
  {
    q.scenario == Some("signature") || OutcomeOf(s) == P.Signature
  }

  function ApprovalMessage(signature: bool): string {
    if signature then "Approved \U{2014} signature required (SANDBOX)" else "Approved (SANDBOX)"
  }

  /** The processor's entry for an approval, as authorized or as rewritten after it. */
  function ApprovalEntry(s: Session, q: Request, signature: bool, message: string): P.ProcessorResult
    requires q.Authorize?
  {
    P.ProcessorResult(s.id, s.amountMinor, s.currency, P.Approved, Some("TEST-" + q.code), Reference(q), signature,
                      message)
  }

  lemma ApprovalReply(s: Session, q: Request)
    requires q.Authorize? && StartsWith(q.token, "pm_") && Passes(s, q)
    ensures var signature := WantsSignature(s, q);
            ReplyTo(s, q) == P.Returned(ApprovalEntry(s, q, signature, ApprovalMessage(signature)))
  {
  }

  function ApprovedSession(s: Session, q: Request, state: State, more: seq<Event>): Session
    requires q.Authorize?
  {
    var asked := WantsSignature(s, q);
    Written(s, q, state, P.Approved, Some("TEST-" + q.code), asked, ApprovalMessage(asked),
            [Event(Some(Authorizing), State.Approved, ApprovalMessage(asked))] + more)
  }

  lemma HeldEffect(s: Session, entries: P.Entries, q: Request)
    requires q.Authorize? && s.state == ProtocolSelected && StartsWith(q.token, "pm_") && Passes(s, q)
    requires OutcomeOf(s) in {P.PreAuth, P.OfflineAuth, P.Signature}
    ensures var asked := WantsSignature(s, q);
            EffectOn(s, entries, q)
              == Effect(ApprovedSession(s, q, State.Approved, []),
                        entries[Reference(q) := ApprovalEntry(s, q, asked, ApprovalMessage(asked))],
                        [P.AuthorizeCall], None)
  {
    ApprovalReply(s, q);
    var line := Event(Some(Authorizing), State.Approved, ApprovalMessage(WantsSignature(s, q)));
    assert [line] + [] == [line];
    OneLine(s.events, Event(Some(ProtocolSelected), CardPresented, "Card presented (tokenized)"),
            Event(Some(CardPresented), Authorizing, "Authorizing"), line);
    assert [P.AuthorizeCall] + [] == [P.AuthorizeCall];
  }

  lemma CompletedEffectOn(s: Session, entries: P.Entries, q: Request)
    requires q.Authorize? && s.state == ProtocolSelected && StartsWith(q.token, "pm_") && Passes(s, q)
    requires OutcomeOf(s) == P.Completion
    ensures EffectOn(s, entries, q)
         == Effect(ApprovedSession(s, q, State.Completed,
                                   [Event(Some(State.Approved), State.Completed, "Completion")]),
                   entries[Reference(q) := ApprovalEntry(s, q, false, "Authorization completed (SANDBOX)")],
                   [P.AuthorizeCall, P.CompleteCall], None)
  {
    ApprovalReply(s, q);
    TwoLines(s.events, Event(Some(ProtocolSelected), CardPresented, "Card presented (tokenized)"),
             Event(Some(CardPresented), Authorizing, "Authorizing"),
             Event(Some(Authorizing), State.Approved, ApprovalMessage(WantsSignature(s, q))),
             Event(Some(State.Approved), State.Completed, "Completion"));
    assert [P.AuthorizeCall] + [P.CompleteCall] == [P.AuthorizeCall, P.CompleteCall];
  }

  lemma CapturedEffectOn(s: Session, entries: P.Entries, q: Request)
    requires q.Authorize? && s.state == ProtocolSelected && StartsWith(q.token, "pm_") && Passes(s, q)
    requires OutcomeOf(s) in {P.SandboxOutcome.Capture, P.ForcePost}
    ensures EffectOn(s, entries, q)
         == Effect(ApprovedSession(s, q, State.Completed, CaptureLines()),
                   entries[Reference(q) := ApprovalEntry(s, q, false, "Captured (SANDBOX)")],
                   [P.AuthorizeCall, P.CaptureCall], None)
  {
    ApprovalReply(s, q);
    ThreeLines(s.events, Event(Some(ProtocolSelected), CardPresented, "Card presented (tokenized)"),
               Event(Some(CardPresented), Authorizing, "Authorizing"),
               Event(Some(Authorizing), State.Approved, ApprovalMessage(WantsSignature(s, q))),
               CaptureLines()[0], CaptureLines()[1]);
    assert [P.AuthorizeCall] + [P.CaptureCall] == [P.AuthorizeCall, P.CaptureCall];
  }

  function CaptureLines(): seq<Event> {
    [Event(Some(State.Approved), State.Captured, "Captured"), Event(Some(State.Captured), State.Completed, "Completed")]
  }

  ghost predicate Approved(y: System, q: Request, state: State, more: seq<Event>, signature: bool, message: string,
                           calls: seq<P.Call>)
    requires Presents(y, q)
  {
    var asked, code := WantsSignature(y.sessions[q.id], q), Some("TEST-" + q.code);
    && Writes(y, q, state, P.Approved, code, asked, ApprovalMessage(asked),
              [Event(Some(Authorizing), State.Approved, ApprovalMessage(asked))] + more)
    && Leaves(y, q, P.Approved, code, signature, message, calls)
  }

  ghost predicate Held(y: System, q: Request)
    requires Presents(y, q)
  {
    var asked := WantsSignature(y.sessions[q.id], q);
    Approved(y, q, State.Approved, [], asked, ApprovalMessage(asked), [P.Call(P.AuthorizeCall, q.id)])
  }

  ghost predicate Completes(y: System, q: Request)
    requires Presents(y, q)
  {
    Approved(y, q, State.Completed, [Event(Some(State.Approved), State.Completed, "Completion")], false,
             "Authorization completed (SANDBOX)", [P.Call(P.AuthorizeCall, q.id), P.Call(P.CompleteCall, q.id)])
  }

  ghost predicate Captures(y: System, q: Request)
    requires Presents(y, q)
  {
    Approved(y, q, State.Completed, CaptureLines(), false, "Captured (SANDBOX)",
             [P.Call(P.AuthorizeCall, q.id), P.Call(P.CaptureCall, q.id)])
  }

  lemma CardIsHeld(y: System, q: Request)
    requires Presents(y, q) && Passes(y.sessions[q.id], q)
    requires OutcomeOf(y.sessions[q.id]) in {P.PreAuth, P.OfflineAuth, P.Signature}
    ensures Held(y, q)
  {
    var s, asked := y.sessions[q.id], WantsSignature(y.sessions[q.id], q);
    HeldEffect(s, y.entries, q);
    EffectLands(y, q, ApprovedSession(s, q, State.Approved, []),
                y.entries[Reference(q) := ApprovalEntry(s, q, asked, ApprovalMessage(asked))], [P.AuthorizeCall]);
    CallsAreTagged(q.id, P.AuthorizeCall, P.AuthorizeCall);
  }

  lemma CardIsCompleted(y: System, q: Request)
    requires Presents(y, q) && Passes(y.sessions[q.id], q) && OutcomeOf(y.sessions[q.id]) == P.Completion
    ensures Completes(y, q)
  {
    var s := y.sessions[q.id];
    CompletedEffectOn(s, y.entries, q);
    EffectLands(y, q, ApprovedSession(s, q, State.Completed,
                                      [Event(Some(State.Approved), State.Completed, "Completion")]),
                y.entries[Reference(q) := ApprovalEntry(s, q, false, "Authorization completed (SANDBOX)")],
                [P.AuthorizeCall, P.CompleteCall]);
    CallsAreTagged(q.id, P.AuthorizeCall, P.CompleteCall);
  }

  lemma CardIsCaptured(y: System, q: Request)
    requires Presents(y, q) && Passes(y.sessions[q.id], q)
    requires OutcomeOf(y.sessions[q.id]) in {P.SandboxOutcome.Capture, P.ForcePost}
    ensures Captures(y, q)
  {
    var s := y.sessions[q.id];
    CapturedEffectOn(s, y.entries, q);
    EffectLands(y, q, ApprovedSession(s, q, State.Completed, CaptureLines()),
                y.entries[Reference(q) := ApprovalEntry(s, q, false, "Captured (SANDBOX)")],
                [P.AuthorizeCall, P.CaptureCall]);
    CallsAreTagged(q.id, P.AuthorizeCall, P.CaptureCall);
  }

  /**
   Any other card is approved: held for a pre-authorization, an offline authorization or a signature, completed at once
   for a completion, and captured and completed for the rest.
   */
  lemma CardIsApproved(y: System, q: Request)
    requires Presents(y, q) && Passes(y.sessions[q.id], q)
    ensures match OutcomeOf(y.sessions[q.id])
            case PreAuth => Held(y, q)
            case OfflineAuth => Held(y, q)
            case Signature => Held(y, q)
            case Completion => Completes(y, q)
            case Capture => Captures(y, q)
            case ForcePost => Captures(y, q)
  {
    match OutcomeOf(y.sessions[q.id])
    case PreAuth => CardIsHeld(y, q);
    case OfflineAuth => CardIsHeld(y, q);
    case Signature => CardIsHeld(y, q);
    case Completion => CardIsCompleted(y, q);
    case Capture => CardIsCaptured(y, q);
    case ForcePost => CardIsCaptured(y, q);
  }

  // ---------- what the other calls leave ----------

  /** A call that is granted in a reachable state. */
  ghost predicate Granted(y: System, q: Request) {
    Inv(y) && Fresh(y, q) && WhyRejected(y, q).None?
  }

  /** A granted call of an own session leaves this session, these entries and this one more call, or none. */
  ghost predicate LeavesSession(y: System, q: Request, after: Session, entries: P.Entries, calls: seq<P.Call>) {
    Step(y, q) == Outcome(System(y.sessions[q.id := after], y.index, entries, y.calls + calls), Done(after))
  }

  lemma CaptureLeaves(y: System, q: Request)
    requires Granted(y, q) && q.Capture?
    ensures var s := y.sessions[q.id];
            && s.processorReference.Some? && s.processorReference.value in y.entries
            && var reference := s.processorReference.value;
            && var held := y.entries[reference].authorizationCode;
            && LeavesSession(y, q,
                             s.(state := State.Completed, events := s.events + CaptureLines(), updatedAt := q.now),
                             y.entries[reference := P.ProcessorResult(
                               q.id, s.amountMinor, s.currency, P.Approved,
                               if Truthy(held) then held else Some("TEST-" + q.code), reference, false,
                               "Captured (SANDBOX)")],
                             [P.Call(P.CaptureCall, q.id)])
  {
    var s := y.sessions[q.id];
    assert SessionFits(s, y.entries, Journal(y.calls, q.id));
    assert s.events + [CaptureLines()[0]] + [CaptureLines()[1]] == s.events + CaptureLines();
    CallsAreTagged(q.id, P.CaptureCall, P.CaptureCall);
  }

  lemma VoidLeaves(y: System, q: Request)
    requires Granted(y, q) && q.Void?
    ensures var s := y.sessions[q.id];
            && s.processorReference.Some? && s.processorReference.value in y.entries
            && var reference := s.processorReference.value;
            && LeavesSession(y, q,
                             s.(state := Voided, events := s.events + [Event(Some(State.Approved), Voided, "Voided")],
                                updatedAt := q.now),
                             y.entries[reference := P.ProcessorResult(
                               q.id, s.amountMinor, s.currency, P.Cancelled, y.entries[reference].authorizationCode,
                               reference, false, "Voided (SANDBOX)")],
                             [P.Call(P.VoidCall, q.id)])
  {
    assert SessionFits(y.sessions[q.id], y.entries, Journal(y.calls, q.id));
    CallsAreTagged(q.id, P.VoidCall, P.VoidCall);
  }

  /** A refund is of exactly the amount asked for, or of the whole sale if none or zero was. */
  lemma RefundLeaves(y: System, q: Request)
    requires Granted(y, q) && q.Refund?
    ensures var s, reference, code := y.sessions[q.id], "sbx_rf_" + q.hex, Some("TEST-" + q.code);
            var amount := if q.amount.None? || q.amount.value == 0 then s.amountMinor else q.amount.value;
            && reference !in y.entries
            && LeavesSession(y, q,
                             s.(state := Refunded, processorReference := Some(reference), authorizationCode := code,
                                processorMessage := Some("Refunded (SANDBOX)"),
                                events := s.events + [Event(Some(State.Completed), Refunded, "Refunded (SANDBOX)")],
                                updatedAt := q.now),
                             y.entries[reference := P.ProcessorResult(q.id, amount, s.currency, P.Approved, code,
                                                                      reference, false, "Refunded (SANDBOX)")],
                             [P.Call(P.RefundCall, q.id)])
  {
    assert SessionFits(y.sessions[q.id], y.entries, Journal(y.calls, q.id));
    CallsAreTagged(q.id, P.RefundCall, P.RefundCall);
  }

  lemma CancelLeaves(y: System, q: Request)
    requires Granted(y, q) && q.Cancel?
    ensures var s := y.sessions[q.id];
            LeavesSession(y, q,
                          s.(state := State.Cancelled, updatedAt := q.now,
                             events := s.events + [Event(Some(s.state), State.Cancelled, "Cancelled by operator")]),
                          y.entries, [])
  {
    assert Tagged([], q.id) == [];
  }

  lemma SelectLeaves(y: System, q: Request)
    requires Granted(y, q) && q.SelectProtocol?
    ensures var s, chosen := y.sessions[q.id], q.lookup.value;
            LeavesSession(y, q,
                          s.(state := ProtocolSelected, protocol := Some(chosen), outcome := Some(chosen.outcome),
                             updatedAt := q.now,
                             events := s.events + [Event(Some(AmountEntered), ProtocolSelected,
                                                         "Protocol selected: " + chosen.displayLabel)]),
                          y.entries, [])
  {
    assert Tagged([], q.id) == [];
  }

  /** No session of the merchant carries the request's key, or it has none. */
  ghost predicate FirstOfItsKey(y: System, q: Request)
    requires q.Create?
  {
    Truthy(q.idempotencyKey) ==>
      forall id :: id in y.sessions ==>
        !(Some(y.sessions[id].merchantId) == q.merchant && y.sessions[id].idempotencyKey == q.idempotencyKey)
  }

  /** The first create of a key, or one without, adds one session: ready for a card, or still without a protocol. */
  lemma CreateLeaves(y: System, q: Request)
    requires Granted(y, q) && q.Create? && FirstOfItsKey(y, q)
    ensures var o := Step(y, q);
            && o.response.Done? && o.system.sessions == y.sessions[q.id := o.response.session]
            && o.system.entries == y.entries && o.system.calls == y.calls
            && var s := o.response.session;
            && s.id == q.id && Some(s.merchantId) == q.merchant && s.amountMinor == q.amountMinor
            && s.currency == Upper(q.currency) && s.idempotencyKey == q.idempotencyKey
            && s.createdAt == s.updatedAt == q.now
            && s.processorReference.None? && s.authorizationCode.None? && s.paymentMethodToken.None?
            && s.events[..2] == [Event(None, Created, "Session created"),
                                 Event(Some(Created), AmountEntered, "Amount entered")]
            && if q.selection.Chosen? then
                 && s.state == ProtocolSelected && s.protocol == Some(q.selection.protocol)
                 && s.outcome == Some(q.selection.protocol.outcome)
                 && s.events[2..] == [Event(Some(AmountEntered), ProtocolSelected,
                                            "Protocol selected: " + q.selection.protocol.displayLabel)]
               else
                 s.state == AmountEntered && s.protocol.None? && s.outcome == Some(P.SandboxOutcome.Capture)
                   && |s.events| == 2
  {
    if Truthy(q.idempotencyKey) {
      KeyIsFree(y, q);
    }
  }

  lemma KeyIsFree(y: System, q: Request)
    requires Inv(y) && q.Create? && q.merchant.Some? && Truthy(q.idempotencyKey) && FirstOfItsKey(y, q)
    ensures IndexKey(q.merchant.value, q.idempotencyKey.value) !in y.index
  {
    var k := IndexKey(q.merchant.value, q.idempotencyKey.value);
    if k in y.index {
      var s := y.sessions[y.index[k]];
      IndexKeyIsInjective(s.merchantId, s.idempotencyKey.value, q.merchant.value, q.idempotencyKey.value);
      assert false;
    }
  }
}
