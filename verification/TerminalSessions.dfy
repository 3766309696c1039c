/**
 The terminal session protocol on values: what each service call does to the session table, the idempotency
 index and the processor, and what holds in every state that a run of calls can reach.
 */
module TerminalSessions {
  import opened Common
  import opened TerminalStateMachine
  import P = MockProcessor

  // ---------- state ----------

  /** A catalog entry; its selection id is never empty. */
  datatype ProtocolDefinition = ProtocolDefinition(selectionId: string, code: string, displayLabel: string,
                                                   outcome: P.SandboxOutcome)
  type Protocol = d: ProtocolDefinition | d.selectionId != ""
    witness ProtocolDefinition("101.1", "101.1", "", P.Capture)

  datatype Session = Session(
    id: Uuid,
    merchantId: Uuid,
    state: State,
    amountMinor: int,
    currency: string,
    protocol: Option<Protocol>,
    outcome: Option<P.SandboxOutcome>,
    idempotencyKey: Option<string>,
    paymentMethodToken: Option<string>,
    authorizationCode: Option<string>,
    processorReference: Option<string>,
    processorStatus: Option<P.Verdict>,
    processorMessage: Option<string>,
    signatureRequired: bool,
    events: seq<Event>,
    createdAt: int,
    updatedAt: int)

  /** The three mutable stores and the journal of processor calls. */
  datatype System = System(sessions: map<Uuid, Session>, index: map<string, Uuid>, entries: P.Entries,
                           calls: seq<P.Call>)

  const EMPTY := System(map[], map[], map[], [])

  datatype Failure =
    | MerchantRequired | NotFound | Conflict | Unprocessable | Unavailable | UnknownProtocol | ProcessorRaised
    | AuditFailed

  datatype Response = Done(session: Session) | Rejected(failure: Failure)

  /** How the request's protocol code resolved against the catalog. */
  datatype Selection = NoProtocol | BadProtocol | Chosen(protocol: Protocol)

  /** One service call with everything it reads from outside: caller, clock, random draws, catalog lookups. */
  datatype Request =
    | Create(merchant: Option<Uuid>, id: Uuid, amountMinor: int, currency: string, selection: Selection,
             idempotencyKey: Option<string>, now: int)
    | SelectProtocol(merchant: Option<Uuid>, id: Uuid, lookup: Option<Protocol>, now: int)
    | Authorize(merchant: Option<Uuid>, id: Uuid, token: string, scenario: Option<string>, executionAllowed: bool,
                hex: string, code: string, now: int)
    | Capture(merchant: Option<Uuid>, id: Uuid, code: string, now: int)
    | Void(merchant: Option<Uuid>, id: Uuid, now: int)
    | Refund(merchant: Option<Uuid>, id: Uuid, amount: Option<int>, reason: Option<string>, hex: string, code: string,
             now: int)
    | Cancel(merchant: Option<Uuid>, id: Uuid, now: int)

  datatype Outcome = Outcome(system: System, response: Response)

  // ---------- steps on one session ----------

  function Advanced(s: Session, to: State, note: string): Session
    requires CanTransition(s.state, to)
  {
    s.(state := to, events := s.events + [Event(Some(s.state), to, note)])
  }

  /** What a call does to its session and to the processor, up to where it returns or raises. */
  datatype Effect = Effect(session: Session, entries: P.Entries, calls: seq<P.CallKind>, failure: Option<Failure>)

  function OutcomeOf(s: Session): P.SandboxOutcome {
    if s.outcome.Some? then s.outcome.value else P.Capture
  }

  function SelectEffect(s: Session, entries: P.Entries, lookup: Option<Protocol>, now: int): Effect {
    if lookup.None? then Effect(s, entries, [], Some(UnknownProtocol))
    else if s.state != AmountEntered then Effect(s, entries, [], Some(Conflict))
    else
      var p := lookup.value;
      var chosen := s.(protocol := Some(p), outcome := Some(p.outcome), updatedAt := now);
      Effect(Advanced(chosen, ProtocolSelected, "Protocol selected: " + p.displayLabel), entries, [], None)
  }

  function AuthorizeEffect(s: Session, entries: P.Entries, token: string, scenario: Option<string>,
                           executionAllowed: bool, hex: string, code: string, now: int): Effect
  {
    if s.state != ProtocolSelected && !(s.state == AmountEntered && s.protocol.Some?) then
      Effect(s, entries, [], Some(Conflict))
    else
      var ready := if s.state == ProtocolSelected then s
                   else Advanced(s, ProtocolSelected, "Protocol selected before authorize");
      if !StartsWith(token, "pm_") then Effect(ready, entries, [], Some(Unprocessable))
      else if !executionAllowed then Effect(ready, entries, [], Some(Unavailable))
      else
        PresentedEffect(ready, entries, token, scenario, hex, code, now)
  }

  /** Presents the card and asks the processor, which only rejects tokens that were already rejected before. */
  function PresentedEffect(s: Session, entries: P.Entries, token: string, scenario: Option<string>,
                           hex: string, code: string, now: int): Effect
    requires s.state == ProtocolSelected && StartsWith(token, "pm_")
  {
    var waiting := Advanced(Advanced(s, CardPresented, "Card presented (tokenized)"), Authorizing, "Authorizing");
    var reply := P.AuthorizeReply(s.id, s.amountMinor, s.currency, OutcomeOf(s), token, scenario, hex, code);
    var e := AnsweredEffect(Answered(waiting, token, reply.result), P.Filed(entries, reply), reply.result, code, now);
    e.(calls := [P.AuthorizeCall] + e.calls)
  }

  /** The session with the processor's answer written into it. */
  function Answered(s: Session, token: string, result: P.ProcessorResult): Session {
    s.(paymentMethodToken := Some(token),
       processorReference := Some(result.reference),
       processorStatus := Some(result.status),
       processorMessage := Some(result.message),
       authorizationCode := result.authorizationCode,
       signatureRequired := result.signatureRequired)
  }

  /** What follows the processor's answer: hold, complete, capture, or end the session. */
  function AnsweredEffect(s: Session, entries: P.Entries, result: P.ProcessorResult, code: string, now: int): Effect
    requires s.state == Authorizing
  {
    match result.status
    case Declined => Effect(Advanced(s, State.Declined, result.message).(updatedAt := now), entries, [], None)
    case Cancelled => Effect(Advanced(s, State.Cancelled, result.message).(updatedAt := now), entries, [], None)
    case TimedOut => Effect(Advanced(s, State.Failed, result.message).(updatedAt := now), entries, [], None)
    case Errored => Effect(Advanced(s, State.Failed, result.message).(updatedAt := now), entries, [], None)
    case Approved =>
      var approved := Advanced(s, State.Approved, result.message);
      match OutcomeOf(s)
      case PreAuth => Effect(approved.(updatedAt := now), entries, [], None)
      case OfflineAuth => Effect(approved.(updatedAt := now), entries, [], None)
      case Signature => Effect(approved.(updatedAt := now), entries, [], None)
      case Completion => CompletedEffect(approved, entries, result.reference, code, now)
      case Capture => CapturedEffect(approved, entries, result.reference, code, now)
      case ForcePost => CapturedEffect(approved, entries, result.reference, code, now)
  }

  function CompletedEffect(s: Session, entries: P.Entries, reference: string, code: string, now: int): Effect
    requires s.state == State.Approved
  {
    var reply := P.CompleteReply(entries, s.id, reference, s.amountMinor, s.currency, code);
    if reply.Threw? then Effect(s, entries, [P.CompleteCall], Some(ProcessorRaised))
    else
      var completed := Advanced(s, State.Completed, "Completion");
      Effect(completed.(updatedAt := now), P.Filed(entries, reply), [P.CompleteCall], None)
  }

  function CapturedEffect(s: Session, entries: P.Entries, reference: string, code: string, now: int): Effect
    requires s.state == State.Approved
  {
    var reply := P.CaptureReply(entries, s.id, reference, s.amountMinor, s.currency, code);
    if reply.Threw? then Effect(s, entries, [P.CaptureCall], Some(ProcessorRaised))
    else
      var captured := Advanced(Advanced(s, State.Captured, "Captured"), State.Completed, "Completed");
      Effect(captured.(updatedAt := now), P.Filed(entries, reply), [P.CaptureCall], None)
  }

  function CaptureEffect(s: Session, entries: P.Entries, code: string, now: int): Effect {
    if s.state != State.Approved || !Truthy(s.processorReference) then Effect(s, entries, [], Some(Conflict))
    else CapturedEffect(s, entries, s.processorReference.value, code, now)
  }

  function VoidEffect(s: Session, entries: P.Entries, now: int): Effect {
    if !CanTransition(s.state, Voided) then Effect(s, entries, [], Some(Conflict))
    else
      var voided := Advanced(s, Voided, "Voided").(updatedAt := now);
      if !Truthy(s.processorReference) then Effect(voided, entries, [], None)
      else
        var reply := P.VoidReply(entries, s.id, s.processorReference.value);
        if reply.Threw? then Effect(s, entries, [P.VoidCall], Some(Conflict))
        else Effect(voided, P.Filed(entries, reply), [P.VoidCall], None)
  }

  function RefundEffect(s: Session, entries: P.Entries, amount: Option<int>, reason: Option<string>, hex: string,
                        code: string, now: int): Effect
  {
    if !CanTransition(s.state, Refunded) || !Truthy(s.processorReference) then Effect(s, entries, [], Some(Conflict))
    else
      var reply := P.RefundReply(entries, s.id, s.processorReference.value, RefundAmount(s, amount), s.currency, hex,
                                 code);
      if reply.Threw? then Effect(s, entries, [P.RefundCall], Some(ProcessorRaised))
      else
        var refunded := Advanced(s, Refunded, reply.result.message).(
          processorReference := Some(reply.result.reference),
          authorizationCode := reply.result.authorizationCode,
          processorMessage := Some(reply.result.message),
          updatedAt := now);
        Effect(refunded, P.Filed(entries, reply), [P.RefundCall], None)
  }

  /** The requested amount, or the session's own when none (or zero) is asked for. */
  function RefundAmount(s: Session, amount: Option<int>): int {
    if amount.Some? && amount.value != 0 then amount.value else s.amountMinor
  }

  function CancelEffect(s: Session, entries: P.Entries, now: int): Effect {
    if !CanTransition(s.state, State.Cancelled) then Effect(s, entries, [], Some(Conflict))
    else Effect(Advanced(s, State.Cancelled, "Cancelled by operator").(updatedAt := now), entries, [], None)
  }

  function EffectOf(s: Session, entries: P.Entries, q: Request): Effect
    requires !q.Create?
  {
    match q
    case SelectProtocol(_, _, lookup, now) => SelectEffect(s, entries, lookup, now)
    case Authorize(_, _, token, scenario, allowed, hex, code, now) =>
      AuthorizeEffect(s, entries, token, scenario, allowed, hex, code, now)
    case Capture(_, _, code, now) => CaptureEffect(s, entries, code, now)
    case Void(_, _, now) => VoidEffect(s, entries, now)
    case Refund(_, _, amount, reason, hex, code, now) => RefundEffect(s, entries, amount, reason, hex, code, now)
    case Cancel(_, _, now) => CancelEffect(s, entries, now)
  }

  // ---------- steps on the system ----------

  /** The composite key of the idempotency index. */
  function IndexKey(merchant: Uuid, key: string): string {
    merchant + ":" + key
  }

  function NewSession(merchant: Uuid, q: Request): Session
    requires q.Create?
  {
    var chosen := if q.selection.Chosen? then Some(q.selection.protocol) else None;
    var outcome := if chosen.Some? then chosen.value.outcome else P.Capture;
    var blank := Session(q.id, merchant, Created, q.amountMinor, Upper(q.currency), chosen, Some(outcome),
                         q.idempotencyKey, None, None, None, None, None, false,
                         [Event(None, Created, "Session created")], q.now, q.now);
    var entered := Advanced(blank, AmountEntered, "Amount entered");
    if chosen.Some? then Advanced(entered, ProtocolSelected, "Protocol selected: " + chosen.value.displayLabel)
    else entered
  }

  datatype Filing = Filing(sessions: map<Uuid, Session>, index: map<string, Uuid>, session: Session)

  /** Files a new session, unless one is already filed under its merchant and key. */
  function File(sessions: map<Uuid, Session>, index: map<string, Uuid>, s: Session): Filing {
    if Truthy(s.idempotencyKey) then
      var k := IndexKey(s.merchantId, s.idempotencyKey.value);
      if k in index && index[k] in sessions then Filing(sessions, index, sessions[index[k]])
      else Filing(sessions[s.id := s], index[k := s.id], s)
    else
      Filing(sessions[s.id := s], index, s)
  }

  function CreateStep(y: System, q: Request): Outcome
    requires q.Create?
  {
    if q.merchant.None? then Outcome(y, Rejected(MerchantRequired))
    else if q.selection.BadProtocol? then Outcome(y, Rejected(Unprocessable))
    else
      var f := File(y.sessions, y.index, NewSession(q.merchant.value, q));
      Outcome(y.(sessions := f.sessions, index := f.index), Done(f.session))
  }

  function Tagged(kinds: seq<P.CallKind>, id: Uuid): seq<P.Call> {
    seq(|kinds|, i requires 0 <= i < |kinds| => P.Call(kinds[i], id))
  }

  function Applied(y: System, id: Uuid, e: Effect): System {
    System(y.sessions[id := e.session], y.index, e.entries, y.calls + Tagged(e.calls, id))
  }

  function Step(y: System, q: Request): Outcome {
    if q.Create? then CreateStep(y, q)
    else if q.merchant.None? then Outcome(y, Rejected(MerchantRequired))
    else if q.id !in y.sessions || y.sessions[q.id].merchantId != q.merchant.value then Outcome(y, Rejected(NotFound))
    else
      var e := EffectOf(y.sessions[q.id], y.entries, q);
      Outcome(Applied(y, q.id, e), if e.failure.None? then Done(e.session) else Rejected(e.failure.value))
  }

  /**
   Every call but a selection writes its audit line last, when the stores have changed; if that fails the call
   raises.
   */
  function Audited(y: System, q: Request, auditFails: bool): Outcome {
    var o := Step(y, q);
    if o.response.Done? && auditFails && !q.SelectProtocol? then o.(response := Rejected(AuditFailed)) else o
  }

  /** A call that makes up a processor reference makes up a new one. */
  predicate NewReference(entries: P.Entries, q: Request) {
    match q
    case Authorize(_, _, _, _, _, hex, _, _) => ("sbx_" + hex) !in entries
    case Refund(_, _, _, _, hex, _, _) => ("sbx_rf_" + hex) !in entries
    case _ => true
  }

  /** Random identifiers are new: session ids and processor references never collide with earlier ones. */
  predicate Fresh(y: System, q: Request) {
    (q.Create? ==> q.id !in y.sessions) && NewReference(y.entries, q)
  }
}
