/** The sandbox card processor: a table of results by reference, plus a ghost journal of the calls it received. */
module MockProcessor {
  import opened Common

  datatype SandboxOutcome = Capture | PreAuth | ForcePost | OfflineAuth | Completion | Signature

  datatype Verdict = Approved | Declined | TimedOut | Errored | Cancelled

  datatype ProcessorResult = ProcessorResult(
    transactionId: Uuid,
    amountMinor: int,
    currency: string,
    status: Verdict,
    authorizationCode: Option<string>,
    reference: string,
    signatureRequired: bool,
    message: string)

  /** The exceptions a call can raise. */
  datatype Raised = KeyError(text: string) | ValueError(text: string)

  datatype Reply = Returned(result: ProcessorResult) | Threw(exception: Raised)

  datatype CallKind = AuthorizeCall | CaptureCall | CompleteCall | VoidCall | RefundCall

  datatype Call = Call(kind: CallKind, session: Uuid)

  type Entries = map<string, ProcessorResult>

  /** Which test scenario an authorization plays when the request names none. */
  function ResolveScenario(amountMinor: int, token: string, outcome: SandboxOutcome): string {
    if Contains(token, "declined") then "declined"
    else if Contains(token, "timeout") then "timeout"
    else if Contains(token, "error") then "error"
    else if amountMinor % 100 == 13 then "declined"
    else if amountMinor % 100 == 99 then "timeout"
    else if amountMinor % 100 == 77 then "error"
    else if outcome == Signature then "signature"
    else "success"
  }

  /** The result of playing a scenario; a name it does not know approves. */
  function Played(scenario: string, outcome: SandboxOutcome, session: Uuid, amountMinor: int, currency: string,
                  reference: string, code: string): ProcessorResult
  {
    if scenario == "declined" then
      ProcessorResult(session, amountMinor, currency, Declined, None, reference, false, "Sandbox declined")
    else if scenario == "timeout" then
      ProcessorResult(session, amountMinor, currency, TimedOut, None, reference, false, "Sandbox timeout")
    else if scenario == "error" then
      ProcessorResult(session, amountMinor, currency, Errored, None, reference, false, "Sandbox processor error")
    else if scenario == "cancelled" then
      ProcessorResult(session, amountMinor, currency, Cancelled, None, reference, false, "Sandbox cancelled")
    else if scenario == "signature" || outcome == Signature then
      ProcessorResult(session, amountMinor, currency, Approved, Some("TEST-" + code), reference, true,
                      "Approved \U{2014} signature required (SANDBOX)")
    else
      ProcessorResult(session, amountMinor, currency, Approved, Some("TEST-" + code), reference, false,
                      "Approved (SANDBOX)")
  }

  /** The processor's answer to an authorization; `hex` and `code` are its random draws. */
  function AuthorizeReply(session: Uuid, amountMinor: int, currency: string, outcome: SandboxOutcome,
                          token: string, scenario: Option<string>, hex: string, code: string): Reply
  {
    if !StartsWith(token, "pm_") then
      Threw(ValueError("token required"))
    else
      var played := if Truthy(scenario) then scenario.value else ResolveScenario(amountMinor, token, outcome);
      Returned(Played(played, outcome, session, amountMinor, currency, "sbx_" + hex, code))
  }

  /**
   A tokenized card is approved unless the named scenario is one of the four refusals or, when none is named, the token
   says so or the amount ends in 13, 99 or 77; any other scenario name approves.
   */
  lemma ApprovedIff(session: Uuid, amountMinor: int, currency: string, outcome: SandboxOutcome, token: string,
                    scenario: Option<string>, hex: string, code: string)
    ensures var reply := AuthorizeReply(session, amountMinor, currency, outcome, token, scenario, hex, code);
            && (reply.Returned? <==> StartsWith(token, "pm_"))
            && (reply.Returned? ==> reply.result.status != Approved ==> reply.result.authorizationCode == None)
            && (reply.Returned? && reply.result.status == Approved <==>
                  && StartsWith(token, "pm_")
                  && if Truthy(scenario) then scenario.value !in {"declined", "timeout", "error", "cancelled"}
                     else !Contains(token, "declined") && !Contains(token, "timeout") && !Contains(token, "error")
                          && amountMinor % 100 !in {13, 99, 77})
            && (reply.Returned? && reply.result.signatureRequired <==>
                  && reply.Returned? && reply.result.status == Approved
                  && (scenario == Some("signature") || outcome == Signature))
  {
    var played := ResolveScenario(amountMinor, token, outcome);
    assert played in {"declined", "timeout", "error", "signature", "success"};
  }

  /** Every later call raises on an unknown reference, and a capture also on an entry that is not approved. */
  lemma RaisesIff(entries: Entries, session: Uuid, reference: string, amountMinor: int, currency: string, hex: string,
                  code: string)
    ensures CaptureReply(entries, session, reference, amountMinor, currency, code).Threw?
            <==> reference !in entries || entries[reference].status in {Declined, TimedOut, Errored, Cancelled}
    ensures CompleteReply(entries, session, reference, amountMinor, currency, code).Threw? <==> reference !in entries
    ensures VoidReply(entries, session, reference).Threw? <==> reference !in entries
    ensures RefundReply(entries, session, reference, amountMinor, currency, hex, code).Threw?
            <==> reference !in entries
  {
  }

  function CodeOr(prior: ProcessorResult, code: string): Option<string> {
    if Truthy(prior.authorizationCode) then prior.authorizationCode else Some("TEST-" + code)
  }

  function CaptureReply(entries: Entries, session: Uuid, reference: string, amountMinor: int, currency: string,
                        code: string): Reply
  {
    if reference !in entries then
      Threw(KeyError("Unknown processor reference"))
    else if entries[reference].status != Approved then
      Threw(ValueError("Cannot capture"))
    else
      Returned(ProcessorResult(session, amountMinor, currency, Approved, CodeOr(entries[reference], code), reference,
                               false, "Captured (SANDBOX)"))
  }

  function CompleteReply(entries: Entries, session: Uuid, reference: string, amountMinor: int, currency: string,
                         code: string): Reply
  {
    if reference !in entries then
      Threw(KeyError("Unknown processor reference"))
    else
      Returned(ProcessorResult(session, amountMinor, currency, Approved, CodeOr(entries[reference], code), reference,
                               false, "Authorization completed (SANDBOX)"))
  }

  function VoidReply(entries: Entries, session: Uuid, reference: string): Reply {
    if reference !in entries then
      Threw(KeyError("Unknown processor reference"))
    else
      var prior := entries[reference];
      Returned(ProcessorResult(session, prior.amountMinor, prior.currency, Cancelled, prior.authorizationCode,
                               reference, false, "Voided (SANDBOX)"))
  }

  function RefundReply(entries: Entries, session: Uuid, reference: string, amountMinor: int, currency: string,
                       hex: string, code: string): Reply
  {
    if reference !in entries then
      Threw(KeyError("Unknown processor reference"))
    else
      Returned(ProcessorResult(session, amountMinor, currency, Approved, Some("TEST-" + code), "sbx_rf_" + hex,
                               false, "Refunded (SANDBOX)"))
  }

  /** A reply is filed under its own reference; an exception files nothing. */
  function Filed(entries: Entries, reply: Reply): Entries {
    if reply.Returned? then entries[reply.result.reference := reply.result] else entries
  }

  class MockPaymentProcessor {
    var entries: Entries
    ghost var calls: seq<Call>

    constructor ()
      ensures entries == map[] && calls == []
    {
      entries := map[];
      calls := [];
    }

    method Authorize(session: Uuid, amountMinor: int, currency: string, outcome: SandboxOutcome, token: string,
                     scenario: Option<string>, hex: string, code: string)
      returns (reply: Reply)
      modifies this
      ensures reply == AuthorizeReply(session, amountMinor, currency, outcome, token, scenario, hex, code)
      ensures entries == Filed(old(entries), reply)
      ensures calls == old(calls) + [Call(AuthorizeCall, session)]
    {
      calls := calls + [Call(AuthorizeCall, session)];
      if !StartsWith(token, "pm_") {
        return Threw(ValueError("token required"));
      }
      var played := if Truthy(scenario) then scenario.value else ResolveScenario(amountMinor, token, outcome);
      var result := Played(played, outcome, session, amountMinor, currency, "sbx_" + hex, code);
      entries := entries[result.reference := result];
      reply := Returned(result);
    }

    method Capture(session: Uuid, reference: string, amountMinor: int, currency: string, code: string)
      returns (reply: Reply)
      modifies this
      ensures reply == CaptureReply(old(entries), session, reference, amountMinor, currency, code)
      ensures entries == Filed(old(entries), reply)
      ensures calls == old(calls) + [Call(CaptureCall, session)]
    {
      calls := calls + [Call(CaptureCall, session)];
      if reference !in entries {
        return Threw(KeyError("Unknown processor reference"));
      }
      var prior := entries[reference];
      if prior.status != Approved {
        return Threw(ValueError("Cannot capture"));
      }
      var captured := ProcessorResult(session, amountMinor, currency, Approved, CodeOr(prior, code), reference, false,
                                      "Captured (SANDBOX)");
      entries := entries[reference := captured];
      reply := Returned(captured);
    }

    method CompleteAuthorization(session: Uuid, reference: string, amountMinor: int, currency: string, code: string)
      returns (reply: Reply)
      modifies this
      ensures reply == CompleteReply(old(entries), session, reference, amountMinor, currency, code)
      ensures entries == Filed(old(entries), reply)
      ensures calls == old(calls) + [Call(CompleteCall, session)]
    {
      calls := calls + [Call(CompleteCall, session)];
      if reference !in entries {
        return Threw(KeyError("Unknown processor reference"));
      }
      var completed := ProcessorResult(session, amountMinor, currency, Approved, CodeOr(entries[reference], code),
                                       reference, false, "Authorization completed (SANDBOX)");
      entries := entries[reference := completed];
      reply := Returned(completed);
    }

    method VoidTransaction(session: Uuid, reference: string) returns (reply: Reply)
      modifies this
      ensures reply == VoidReply(old(entries), session, reference)
      ensures entries == Filed(old(entries), reply)
      ensures calls == old(calls) + [Call(VoidCall, session)]
    {
      calls := calls + [Call(VoidCall, session)];
      if reference !in entries {
        return Threw(KeyError("Unknown processor reference"));
      }
      var prior := entries[reference];
      var voided := ProcessorResult(session, prior.amountMinor, prior.currency, Cancelled, prior.authorizationCode,
                                    reference, false, "Voided (SANDBOX)");
      entries := entries[reference := voided];
      reply := Returned(voided);
    }

    method Refund(session: Uuid, reference: string, amountMinor: int, currency: string, hex: string, code: string)
      returns (reply: Reply)
      modifies this
      ensures reply == RefundReply(old(entries), session, reference, amountMinor, currency, hex, code)
      ensures entries == Filed(old(entries), reply)
      ensures calls == old(calls) + [Call(RefundCall, session)]
    {
      calls := calls + [Call(RefundCall, session)];
      if reference !in entries {
        return Threw(KeyError("Unknown processor reference"));
      }
      var refunded := ProcessorResult(session, amountMinor, currency, Approved, Some("TEST-" + code), "sbx_rf_" + hex,
                                      false, "Refunded (SANDBOX)");
      entries := entries[refunded.reference := refunded];
      reply := Returned(refunded);
    }
  }
}
