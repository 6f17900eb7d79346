// Where the client looks for ids in the replies of the server.
module ReplyFields {
  import opened Json
  import opened Text

  /** The status of a run, from the payload if it is there, otherwise from the envelope. */
  function RunStatus(data: Json): string {
    Lower(FirstString([Get(Sub(data, "data"), "status"), Get(data, "status")]))
  }

  predicate IsActive(status: string) {
    status in ["accepted", "queued", "pending", "running", "started"]
  }

  predicate IsFailed(status: string) {
    status in ["failed", "canceled", "cancelled", "timed_out"]
  }

  predicate IsFinished(data: Json) {
    || RunStatus(data) in ["completed", "succeeded", "success"]
    || IsFailed(RunStatus(data))
    || Get(Sub(data, "data"), "is_terminal") == Bool(true)
  }

  function RunIdOf(data: Json): string {
    FirstString([Get(Sub(data, "data"), "run_id"), Get(data, "run_id")])
  }

  function PollUrlOf(data: Json): string {
    FirstString([Get(Sub(data, "data"), "poll_url"), Get(data, "poll_url")])
  }

  function FailureCode(data: Json): string {
    var inner := Sub(data, "data");
    FirstString([Get(Sub(inner, "error"), "code"), Get(inner, "terminal_reason")])
  }

  function ClaimIdOf(data: Json): string {
    FirstString(ClaimIdPlaces(data))
  }

  function ClaimIdPlaces(data: Json): seq<Json> {
    var inner := Sub(data, "data");
    [Get(data, "claim_id"), Get(Sub(data, "result"), "claim_id"), Get(inner, "claim_id"),
     Get(Sub(inner, "result"), "claim_id"), Get(Sub(inner, "run"), "claim_id")]
  }

  function ClaimRefOf(data: Json): string {
    FirstString(ClaimRefPlaces(data))
  }

  function ClaimRefPlaces(data: Json): seq<Json> {
    var result := Sub(data, "result");
    var inner := Sub(data, "data");
    var nested := Sub(inner, "result");
    [Get(data, "claim_ref"), Get(data, "claim_token"), Get(result, "claim_ref"), Get(result, "claim_token"),
     Get(inner, "claim_ref"), Get(inner, "claim_token"), Get(nested, "claim_ref"), Get(nested, "claim_token"),
     Get(Sub(inner, "run"), "claim_ref")]
  }

  /** The registration id as the request that is still waiting for its answer reads it. */
  function RegistrationIdOf(data: Json): string {
    FirstString(RegistrationPlaces(data))
  }

  function RegistrationPlaces(data: Json): seq<Json> {
    var result := Sub(data, "result");
    var inner := Sub(data, "data");
    [Get(data, "registration_id"), Get(data, "repo_id"), Get(data, "declaration_id"),
     Get(data, "governance_context_id"), Get(data, "ctxpack_digest"), Get(data, "id"),
     Get(result, "registration_id"), Get(result, "repo_id"), Get(result, "declaration_id"),
     Get(result, "governance_context_id"), Get(inner, "registration_id"), Get(Sub(inner, "result"), "registration_id")]
  }

  /** A payload that is there but is no object: the waiting request trips over it. */
  predicate TripsReader(data: Json) {
    Truthy(Get(data, "data")) && !Get(data, "data").Obj?
  }

  /** The registration id as the recovery of a saved run reads it: fewer places, none under "data". */
  function RecoveredRegistrationIdOf(data: Json): string {
    FirstString(RecoveredPlaces(data))
  }

  function RecoveredPlaces(data: Json): seq<Json> {
    [Get(data, "registration_id"), Get(data, "repo_id"), Get(data, "declaration_id"),
     Get(Sub(data, "result"), "registration_id")]
  }

  function ContextIdOf(data: Json): string {
    FirstString(ContextPlaces(data))
  }

  function ContextPlaces(data: Json): seq<Json> {
    var result := Sub(data, "result");
    var inner := Sub(data, "data");
    var nested := Sub(inner, "result");
    var run := Sub(Sub(inner, "run"), "result");
    var determinism := Sub(Sub(run, "context_card"), "determinism");
    [Get(data, "governance_context_id"), Get(data, "ctxpack_digest"), Get(data, "digest"),
     Get(data, "ctx_ref_sha256"), Get(result, "governance_context_id"), Get(result, "ctxpack_digest"),
     Get(inner, "governance_context_id"), Get(inner, "ctxpack_digest"),
     Get(nested, "governance_context_id"), Get(nested, "ctxpack_digest"),
     Get(run, "governance_context_id"), Get(run, "ctxpack_digest"), Get(run, "ctx_ref_sha256"),
     Get(determinism, "digest"), Get(Sub(data, "keyhole"), "ctx_ref_sha256")]
  }

  /** The canonical digest in a gaps.status reply, without its "sha256:" prefix. */
  function CanonicalDigestOf(data: Json): string {
    var inner := Get(data, "data");
    var result := Get(data, "result");
    var raw := Trim(FirstString(
                      DigestsIn(data) + DigestsIn(inner) + DigestsIn(Get(inner, "result"))
                      + DigestsIn(result) + DigestsIn(Get(result, "result"))));
    if StartsWith(raw, "sha256:") then raw[7..] else raw
  }

  function DigestsIn(section: Json): seq<Json> {
    [Get(Sub(section, "canonical"), "current_canonical_digest"), Get(section, "current_canonical_digest")]
  }

  // ---- Inline and recovered registrations ----

  /** The places that only the waiting request consults. */
  function InlineOnlyPlaces(data: Json): seq<Json> {
    [Get(data, "governance_context_id"), Get(data, "ctxpack_digest"), Get(data, "id"),
     Get(Sub(data, "result"), "repo_id"), Get(Sub(data, "result"), "declaration_id"),
     Get(Sub(data, "result"), "governance_context_id"), Get(Sub(data, "data"), "registration_id"),
     Get(Sub(Sub(data, "data"), "result"), "registration_id")]
  }

  /** A recovered id is never invented, and the recovery loses an id exactly when it sits in one of the places
      that only the waiting request consults and in no other. */
  lemma RecoveryLosesRegistration(data: Json)
    ensures RecoveredRegistrationIdOf(data) != "" ==> RegistrationIdOf(data) != ""
    ensures (RegistrationIdOf(data) != "" && RecoveredRegistrationIdOf(data) == "") <==>
            && RecoveredRegistrationIdOf(data) == ""
            && exists place :: place in InlineOnlyPlaces(data) && AsText(place) != ""
  {
    var recovered, inline := RecoveredPlaces(data), RegistrationPlaces(data);
    FirstStringMisses(recovered);
    FirstStringMisses(inline);
    hide FirstString, Get, Sub, AsText;
    assert forall place :: place in inline <==> place in recovered || place in InlineOnlyPlaces(data);
  }

  /** The server's usual envelope around the id of a finished registration. */
  function Enveloped(id: string): Json {
    Obj([("data", Obj([("status", Str("succeeded"))] + ([("registration_id", Str(id))] + [])))] + [])
  }

  lemma EnvelopedReads(id: string)
    ensures var data := Enveloped(id);
      && Get(Sub(data, "data"), "status") == Str("succeeded") && Get(Sub(data, "data"), "registration_id") == Str(id)
      && Get(data, "registration_id") == Get(data, "repo_id") == Get(data, "declaration_id") == Null
      && Sub(data, "result") == EMPTY
  {
    var inner := [("status", Str("succeeded"))] + ([("registration_id", Str(id))] + []);
    LookupFirst("data", Obj(inner), []);
    LookupFirst("status", Str("succeeded"), [("registration_id", Str(id))] + []);
    LookupFirst("registration_id", Str(id), []);
  }

  /** Such a registration is accepted inline and lost by the recovery. */
  lemma EnvelopedRegistrationIsLost(id: string)
    requires id != ""
    ensures RunStatus(Enveloped(id)) == "succeeded"
    ensures RegistrationIdOf(Enveloped(id)) != "" && RecoveredRegistrationIdOf(Enveloped(id)) == ""
  {
    hide Enveloped, Get, Sub, RegistrationIdOf;
    var data := Enveloped(id);
    EnvelopedReads(id);
    assert Lower("succeeded") == "succeeded";
    assert Get(EMPTY, "registration_id") == Null by { NothingIsIn("registration_id"); }
    FirstStringMisses(RecoveredPlaces(data));
    RecoveryLosesRegistration(data);
    assert Get(Sub(data, "data"), "registration_id") in InlineOnlyPlaces(data);
  }

  lemma NothingIsIn(key: string)
    ensures Get(EMPTY, key) == Null
  {
  }
}
