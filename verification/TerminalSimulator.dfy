/** The stand-alone authorization simulator, and its agreement with the session service. */
module TerminalSimulator {
  import opened Common
  import opened TerminalStateMachine
  import opened TerminalSessions
  import opened TerminalSafety
  import P = MockProcessor

  const SIMULATOR_TOKEN := "pm_test_visa_success"

  /** Where the simulated flow ends, by the processor's verdict. */
  function SimulatedState(status: P.Verdict, outcome: P.SandboxOutcome): State {
    match status
    case Approved =>
      if outcome in {P.SandboxOutcome.Capture, P.ForcePost, P.Completion} then State.Completed else State.Approved
    case Declined => State.Declined
    case TimedOut => State.Failed
    case Errored => State.Failed
    case Cancelled => State.Cancelled
  }

  method SimulateAuthorizeFlow(session: Uuid, amountMinor: int, currency: string, outcome: P.SandboxOutcome,
                               scenario: Option<string>, hex: string, code: string)
    returns (state: State, result: P.ProcessorResult)
    ensures var reply := P.AuthorizeReply(session, amountMinor, currency, outcome, SIMULATOR_TOKEN, scenario, hex,
                                          code);
            reply.Returned? && result == reply.result && state == SimulatedState(result.status, outcome)
  {
    var processor := new P.MockPaymentProcessor();
    state := Created;
    state := Transition(state, AmountEntered);
    state := Transition(state, ProtocolSelected);
    state := Transition(state, CardPresented);
    state := Transition(state, Authorizing);
    var reply := processor.Authorize(session, amountMinor, currency, outcome, SIMULATOR_TOKEN, scenario, hex, code);
    result := reply.result;
    if result.status == P.Approved {
      state := Transition(state, State.Approved);
      if outcome in {P.SandboxOutcome.Capture, P.ForcePost} {
        state := Transition(state, State.Captured);
        state := Transition(state, State.Completed);
      } else if outcome == P.Completion {
        state := Transition(state, State.Completed);
      }
    } else if result.status == P.Declined {
      state := Transition(state, State.Declined);
    } else if result.status in {P.TimedOut, P.Errored} {
      state := Transition(state, State.Failed);
    } else if result.status == P.Cancelled {
      state := Transition(state, State.Cancelled);
    }
  }

  function Transition(from: State, to: State): State
    requires CanTransition(from, to)
  {
    to
  }

  lemma AnsweredState(s: Session, entries: P.Entries, result: P.ProcessorResult, code: string, now: int)
    requires s.state == Authorizing && s.outcome.Some?
    ensures var e := AnsweredEffect(s, entries, result, code, now);
            e.failure.None? ==> e.session.state == SimulatedState(result.status, s.outcome.value)
  {
  }

  /** The simulator and the service take any ready session to the same state, whatever the amount and scenario. */
  lemma SimulatorAgreesWithService(s: Session, entries: P.Entries, j: seq<P.CallKind>, q: Request)
    requires SessionFits(s, entries, j) && s.state == ProtocolSelected && s.outcome.Some?
    requires q.Authorize? && q.token == SIMULATOR_TOKEN && q.executionAllowed && NewReference(entries, q)
    ensures var reply := P.AuthorizeReply(s.id, s.amountMinor, s.currency, s.outcome.value, q.token, q.scenario,
                                          q.hex, q.code);
            EffectOf(s, entries, q).session.state == SimulatedState(reply.result.status, s.outcome.value)
  {
    AuthorizeFits(s, entries, j, q);
    var waiting := Advanced(Advanced(s, CardPresented, "Card presented (tokenized)"), Authorizing, "Authorizing");
    var reply := P.AuthorizeReply(s.id, s.amountMinor, s.currency, s.outcome.value, q.token, q.scenario, q.hex, q.code);
    AnsweredState(Answered(waiting, q.token, reply.result), P.Filed(entries, reply), reply.result, q.code, q.now);
  }
}
