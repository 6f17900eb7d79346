// The test runtime's modes and the question it puts to governance before every realization.
module RuntimeBridge {
  import opened Json
  import opened Options

  /** The environment as the process started with it; the URL has no trailing slash. */
  datatype Settings = Settings(url: string, token: string)

  datatype Mode = LocalOnly | Governed | Misconfigured

  /** `resolve_mode`. */
  function ResolveMode(settings: Settings): Mode {
    if settings.url != "" && settings.token != "" then Governed
    else if settings.url != "" then Misconfigured
    else LocalOnly
  }

  /** What the call to governance brought: an HTTP response, or an exception. */
  datatype Answer =
    | Raised
    | NotJson(code: int)
    | Http(code: int, body: Json)

  /** `_extract_governance_receipt`; "governed" is always true in it. */
  datatype Evidence = Evidence(
    eventSpine: bool, verdict: string, driftState: string, contextId: string, eventId: string, proofId: string,
    receiptId: string)

  datatype Reason =
    | NotConfigured
    | TokenMissing
    | Approval
    | Rejection(message: Json)
    | AuthFailure(code: int)
    | HttpFailure(code: int)
    | CallFailure

  datatype Verdict = Verdict(ok: bool, verdict: string, reason: Reason, evidence: Option<Evidence>)

  /** The places where the id of the Event Spine event may stand, best first. */
  function EventPlaces(data: Json): seq<Json> {
    var result := Sub(data, "result");
    [Get(result, "mcp_event_id"), Get(result, "event_id"), Get(result, "event_pointer"),
     Get(Sub(result, "receipt"), "mcp_event_id"),
     Get(Sub(result, "evidence"), "event_id"), Get(Sub(result, "evidence"), "event_pointer")]
  }

  function ExtractEvidence(data: Json): Evidence {
    var result := Sub(data, "result");
    var receipt, evidence := Sub(result, "receipt"), Sub(result, "evidence");
    Evidence(
      FirstString(EventPlaces(data)) != "",
      FirstString([Get(result, "governance_verdict"), Get(result, "verdict"), Get(receipt, "governance_verdict"),
                   Get(receipt, "verdict"), Str("APPROVED")]),
      FirstString([Get(result, "drift_state"), Get(receipt, "drift_state"), Str("not_reported")]),
      FirstString([Get(result, "governance_context_id"), Get(receipt, "governance_context_id")]),
      FirstString(EventPlaces(data)),
      FirstString([Get(result, "proof_id"), Get(receipt, "proof_id"), Get(evidence, "proof_id")]),
      FirstString([Get(result, "receipt_id"), Get(receipt, "receipt_id"), Get(data, "run_id")]))
  }

  function Reject(reason: Reason): Verdict {
    Verdict(false, "REJECT", reason, None)
  }

  /** `governance_check`, given what the call brought. */
  function GovernanceCheck(settings: Settings, answer: Answer): Verdict {
    match ResolveMode(settings)
    case LocalOnly => Verdict(true, "LOCAL_ONLY", NotConfigured, None)
    case Misconfigured => Reject(TokenMissing)
    case Governed =>
      if answer.Raised? then Reject(CallFailure)
      else if answer.code == 200 then
        if answer.NotJson? || !answer.body.Obj? then Reject(CallFailure)
        else if Truthy(Get(answer.body, "ok")) then
          Verdict(true, "APPROVED", Approval, Some(ExtractEvidence(answer.body)))
        else RejectWith(answer.body)
      else if answer.code == 401 || answer.code == 403 then Reject(AuthFailure(answer.code))
      else Reject(HttpFailure(answer.code))
  }

  /** A 200 response that does not approve; an "error" that is no object ends in the handler for exceptions. */
  function RejectWith(body: Json): Verdict
    requires body.Obj?
  {
    if HasField(body, "error") && !Get(body, "error").Obj? then Reject(CallFailure)
    else
      var error := Sub(body, "error");
      var message := if HasField(error, "message") then Get(error, "message")
                     else Str("Governance rejected the candidate.");
      Reject(Rejection(message))
  }

  predicate HasField(value: Json, key: string)
    requires value.Obj?
  {
    exists i :: 0 <= i < |value.fields| && value.fields[i].0 == key
  }

  /** Governance answered this candidate with a 200 response that says ok. */
  predicate IsApproval(answer: Answer) {
    && answer.Http? && answer.code == 200 && answer.body.Obj?
    && Get(answer.body, "ok") !in [Null, Bool(false), Num(0), Str(""), Arr([]), Obj([])]
  }

  /** Who passes: everyone without a URL, no one with a URL and no token, and otherwise only what governance
      approved. */
  lemma CheckIsFailClosed(settings: Settings, answer: Answer)
    ensures var v, asks := GovernanceCheck(settings, answer), settings.url != "" && settings.token != "";
      && (v.ok <==> settings.url == "" || (asks && IsApproval(answer)))
      && (v.evidence.Some? <==> asks && IsApproval(answer))
      && v.verdict == (if !v.ok then "REJECT" else if asks then "APPROVED" else "LOCAL_ONLY")
      && (v.evidence.Some? ==> v.evidence.value == ExtractEvidence(answer.body))
  {
    hide ExtractEvidence, Get, HasField;
    if answer.Http? {
      TruthyUnlessEmpty(Get(answer.body, "ok"));
    }
  }

  /** Why: the settings, or what the call brought. */
  lemma ReasonsAreTold(settings: Settings, answer: Answer)
    ensures var reason, asks := GovernanceCheck(settings, answer).reason, settings.url != "" && settings.token != "";
      && (settings.url == "" ==> reason == NotConfigured)
      && (settings.url != "" && settings.token == "" ==> reason == TokenMissing)
      && (asks && IsApproval(answer) ==> reason == Approval)
      && (asks && answer.Raised? ==> reason == CallFailure)
      && (asks && !answer.Raised? && answer.code != 200 ==>
            reason == if answer.code in [401, 403] then AuthFailure(answer.code) else HttpFailure(answer.code))
      && (asks && !answer.Raised? && answer.code == 200 && !(answer.Http? && answer.body.Obj?) ==>
            reason == CallFailure)
      && (asks && answer.Http? && answer.code == 200 && answer.body.Obj? && !IsApproval(answer) ==>
            var error := Get(answer.body, "error");
            && (error.Obj? && HasField(error, "message") ==> reason == Rejection(Get(error, "message")))
            && ((error.Obj? && !HasField(error, "message")) || !HasField(answer.body, "error") ==>
                  reason == Rejection(Str("Governance rejected the candidate.")))
            && (HasField(answer.body, "error") && !error.Obj? ==> reason == CallFailure))
  {
    hide ExtractEvidence;
    if answer.Http? && answer.body.Obj? {
      TruthyUnlessEmpty(Get(answer.body, "ok"));
      if !HasField(answer.body, "error") {
        MissingIsNull(answer.body, "error");
      }
    }
  }

  lemma MissingIsNull(value: Json, key: string)
    requires value.Obj? && !HasField(value, key)
    ensures Get(value, key) == Null
  {
    MissingReads(value.fields, key);
  }

  // ---- Where the evidence stands ----

  const VERDICT := [
    ["result", "governance_verdict"], ["result", "verdict"], ["result", "receipt", "governance_verdict"],
    ["result", "receipt", "verdict"]]
  const DRIFT := [["result", "drift_state"], ["result", "receipt", "drift_state"]]
  const CONTEXT := [["result", "governance_context_id"], ["result", "receipt", "governance_context_id"]]
  const EVENT := [
    ["result", "mcp_event_id"], ["result", "event_id"], ["result", "event_pointer"],
    ["result", "receipt", "mcp_event_id"], ["result", "evidence", "event_id"], ["result", "evidence", "event_pointer"]]
  const PROOF := [["result", "proof_id"], ["result", "receipt", "proof_id"], ["result", "evidence", "proof_id"]]
  const RECEIPT := [["result", "receipt_id"], ["result", "receipt", "receipt_id"], ["run_id"]]

  lemma VerdictStandsAt(data: Json)
    ensures var result := Sub(data, "result");
      var receipt := Sub(result, "receipt");
      StandAt(data, VERDICT, [Get(result, "governance_verdict"), Get(result, "verdict"),
                              Get(receipt, "governance_verdict"), Get(receipt, "verdict")])
  {
    hide Get, Sub, At;
    AtTwo(data, "result", "governance_verdict"); AtTwo(data, "result", "verdict");
    AtThree(data, "result", "receipt", "governance_verdict"); AtThree(data, "result", "receipt", "verdict");
  }

  lemma EventStandsAt(data: Json)
    ensures StandAt(data, EVENT, EventPlaces(data))
  {
    hide Get, Sub, At;
    AtTwo(data, "result", "mcp_event_id"); AtTwo(data, "result", "event_id"); AtTwo(data, "result", "event_pointer");
    AtThree(data, "result", "receipt", "mcp_event_id"); AtThree(data, "result", "evidence", "event_id");
    AtThree(data, "result", "evidence", "event_pointer");
  }

  lemma WordsStandAt(data: Json)
    ensures var e := ExtractEvidence(data);
      IsFirstTextOr(data, VERDICT, "APPROVED", e.verdict) && IsFirstTextOr(data, DRIFT, "not_reported", e.driftState)
  {
    hide Get, Sub, At, IsFirstTextOr, FirstString;
    var result := Sub(data, "result");
    var receipt := Sub(result, "receipt");
    var verdicts := [Get(result, "governance_verdict"), Get(result, "verdict"), Get(receipt, "governance_verdict"),
                     Get(receipt, "verdict")];
    VerdictStandsAt(data);
    TextOrDefault(data, VERDICT, verdicts, "APPROVED");
    assert verdicts + [Str("APPROVED")]
           == [Get(result, "governance_verdict"), Get(result, "verdict"), Get(receipt, "governance_verdict"),
               Get(receipt, "verdict"), Str("APPROVED")];
    var drifts := [Get(result, "drift_state"), Get(receipt, "drift_state")];
    AtTwo(data, "result", "drift_state"); AtThree(data, "result", "receipt", "drift_state");
    TextOrDefault(data, DRIFT, drifts, "not_reported");
    assert drifts + [Str("not_reported")]
           == [Get(result, "drift_state"), Get(receipt, "drift_state"), Str("not_reported")];
  }

  lemma HandlesStandAt(data: Json)
    ensures var e := ExtractEvidence(data);
      && IsFirstText(data, CONTEXT, e.contextId) && IsFirstText(data, EVENT, e.eventId)
      && IsFirstText(data, PROOF, e.proofId) && IsFirstText(data, RECEIPT, e.receiptId)
  {
    hide Get, Sub, At, IsFirstText, FirstString, EventPlaces;
    var result := Sub(data, "result");
    var receipt, evidence := Sub(result, "receipt"), Sub(result, "evidence");
    AtTwo(data, "result", "governance_context_id"); AtThree(data, "result", "receipt", "governance_context_id");
    TextIsFirst(data, CONTEXT, [Get(result, "governance_context_id"), Get(receipt, "governance_context_id")]);
    AtTwo(data, "result", "proof_id"); AtThree(data, "result", "receipt", "proof_id");
    AtThree(data, "result", "evidence", "proof_id");
    TextIsFirst(data, PROOF, [Get(result, "proof_id"), Get(receipt, "proof_id"), Get(evidence, "proof_id")]);
    AtTwo(data, "result", "receipt_id"); AtThree(data, "result", "receipt", "receipt_id"); AtOne(data, "run_id");
    TextIsFirst(data, RECEIPT, [Get(result, "receipt_id"), Get(receipt, "receipt_id"), Get(data, "run_id")]);
    EventStandsAt(data);
    TextIsFirst(data, EVENT, EventPlaces(data));
  }

  lemma SpineIsEvent(data: Json)
    ensures ExtractEvidence(data).eventSpine <==> ExtractEvidence(data).eventId != ""
  {
  }

  /** Each text of the evidence is the first non-empty one on its list of paths; the verdict and the drift state have a
      default. */
  lemma EvidenceIsFirstFound(data: Json)
    ensures var e := ExtractEvidence(data);
      && IsFirstTextOr(data, VERDICT, "APPROVED", e.verdict) && IsFirstTextOr(data, DRIFT, "not_reported", e.driftState)
      && IsFirstText(data, CONTEXT, e.contextId) && IsFirstText(data, EVENT, e.eventId)
      && IsFirstText(data, PROOF, e.proofId) && IsFirstText(data, RECEIPT, e.receiptId)
  {
    hide ExtractEvidence, IsFirstText, IsFirstTextOr;
    WordsStandAt(data);
    HandlesStandAt(data);
  }

  /** The evidence has a verdict and a drift state; it claims the Event Spine exactly when one of the six places names
      an event. */
  lemma EvidenceNamesItsEvent(data: Json)
    ensures var e := ExtractEvidence(data);
      && e.verdict != "" && e.driftState != ""
      && (e.eventSpine <==> e.eventId != "")
      && (e.eventSpine <==> exists i :: 0 <= i < 6 && AsText(At(data, EVENT[i])) != "")
  {
    hide ExtractEvidence, At;
    EvidenceIsFirstFound(data);
    SpineIsEvent(data);
  }
}
