// The record as it stands in a file: written out as JSON, sanitised, and read back.
module RecordFiles {
  import opened FlowState
  import opened Json
  import opened Redaction

  const NAMES := [
    "run_record_id", "created_at", "updated_at", "status", "error_code", "step", "terminal", "run_id", "poll_url",
    "resolved_gap_id", "gap_id_source", "claim_id", "claim_ref", "claim_ctxpack_digest", "registration_id",
    "governance_context_id", "candidate_digest", "live_confirmed", "digest", "message", "realized_at", "governed",
    "event_spine_evidence", "governance_verdict", "drift_state", "mcp_event_id", "proof_id", "receipt_id",
    "passport_digest", "trust_digest"]

  function StepName(step: Phase): string {
    match step
    case Unstarted => ""
    case GapDiscovery => "gap_discovery"
    case GapResolution => "gap_resolution"
    case GapResolved => "gap_resolved"
    case PreclaimContext => "preclaim_context"
    case PreclaimContextReady => "preclaim_context_ready"
    case GapClaim => "gap_claim"
    case ClaimSucceeded => "claim_succeeded"
    case ContextCreate => "context_create"
    case ContextCreated => "context_created"
    case ContextCompile => "context_compile"
    case ContextCompiled => "context_compiled"
    case GovernedRealize => "governed_realize"
    case ReceiptReady => "receipt_ready"
  }

  function StepNamed(name: string): Phase {
    if name == "gap_discovery" then GapDiscovery
    else if name == "gap_resolution" then GapResolution
    else if name == "gap_resolved" then GapResolved
    else if name == "preclaim_context" then PreclaimContext
    else if name == "preclaim_context_ready" then PreclaimContextReady
    else if name == "gap_claim" then GapClaim
    else if name == "claim_succeeded" then ClaimSucceeded
    else if name == "context_create" then ContextCreate
    else if name == "context_created" then ContextCreated
    else if name == "context_compile" then ContextCompile
    else if name == "context_compiled" then ContextCompiled
    else if name == "governed_realize" then GovernedRealize
    else if name == "receipt_ready" then ReceiptReady
    else Unstarted
  }

  /** The values in the order of the names; a moment in time is a number. */
  function Values(r: Record): (values: seq<Json>)
    ensures |values| == |NAMES|
  {
    [Num(r.runRecordId), Num(r.createdAt), Num(r.updatedAt), Str(r.status), Str(r.errorCode), Str(StepName(r.step)),
     Bool(r.terminal), Str(r.runId), Str(r.pollUrl), Str(r.gapId), Str(r.gapSource), Str(r.claimId), Str(r.claimRef),
     Str(r.claimDigest), Str(r.registrationId), Str(r.contextId), Str(r.candidate), Bool(r.liveConfirmed),
     Str(r.digest), Str(r.message), Str(r.realizedAt), Bool(r.governed), Bool(r.eventSpineEvidence), Str(r.verdict),
     Str(r.driftState), Str(r.mcpEventId), Str(r.proofId), Str(r.receiptId), Str(r.passportDigest),
     Str(r.trustDigest)]
  }

  function Fields(r: Record): (fields: seq<(string, Json)>)
    ensures |fields| == |NAMES|
    ensures forall i :: 0 <= i < |NAMES| ==> fields[i] == (NAMES[i], Values(r)[i])
  {
    seq(|NAMES|, i requires 0 <= i < |NAMES| => (NAMES[i], Values(r)[i]))
  }

  /** The record before it is sanitised. */
  function ToJson(r: Record): (data: Json)
    ensures data.Obj?
  {
    Obj(Fields(r))
  }

  function NumberAt(data: Json, k: nat): nat
    requires k < |NAMES|
  {
    var value := Get(data, NAMES[k]);
    if value.Num? && value.n >= 0 then value.n else 0
  }

  function TextAt(data: Json, k: nat): string
    requires k < |NAMES|
  {
    AsText(Get(data, NAMES[k]))
  }

  predicate FlagAt(data: Json, k: nat)
    requires k < |NAMES|
  {
    Get(data, NAMES[k]) == Bool(true)
  }

  /** The record that a file holds, as the client looks its fields up. */
  function FromJson(data: Json): Record {
    Record(NumberAt(data, 0), NumberAt(data, 1), NumberAt(data, 2), TextAt(data, 3), TextAt(data, 4),
           StepNamed(TextAt(data, 5)), FlagAt(data, 6), TextAt(data, 7), TextAt(data, 8), TextAt(data, 9),
           TextAt(data, 10), TextAt(data, 11), TextAt(data, 12), TextAt(data, 13), TextAt(data, 14), TextAt(data, 15),
           TextAt(data, 16), FlagAt(data, 17), TextAt(data, 18), TextAt(data, 19), TextAt(data, 20), FlagAt(data, 21),
           FlagAt(data, 22), TextAt(data, 23), TextAt(data, 24), TextAt(data, 25), TextAt(data, 26), TextAt(data, 27),
           TextAt(data, 28), TextAt(data, 29))
  }

  // ---- Sanitising leaves it alone ----

  lemma FirstNamesAreLower(k: nat)
    requires k < 15
    ensures forall c :: c in NAMES[k] ==> !('A' <= c <= 'Z')
  {
  }

  lemma LastNamesAreLower(k: nat)
    requires 15 <= k < |NAMES|
    ensures forall c :: c in NAMES[k] ==> !('A' <= c <= 'Z')
  {
  }

  /** "token" needs an o and a k, "authorization" an o and a z. */
  predicate LacksLetters(name: string) {
    'o' !in name || ('k' !in name && 'z' !in name)
  }

  lemma FirstNamesLackLetters(k: nat)
    requires k < 10
    ensures LacksLetters(NAMES[k])
  {
  }

  lemma MiddleNamesLackLetters(k: nat)
    requires 10 <= k < 15
    ensures LacksLetters(NAMES[k])
  {
  }

  lemma LaterNamesLackLetters(k: nat)
    requires 15 <= k < 20
    ensures LacksLetters(NAMES[k])
  {
  }

  lemma LastNamesLackLetters(k: nat)
    requires 20 <= k < |NAMES|
    ensures LacksLetters(NAMES[k])
  {
  }

  /** None of the names mentions a credential. */
  lemma NameIsPlain(k: nat)
    requires k < |NAMES|
    ensures !IsSensitive(NAMES[k])
  {
    hide IsSensitive;
    if k < 15 {
      FirstNamesAreLower(k);
    } else {
      LastNamesAreLower(k);
    }
    if k < 10 {
      FirstNamesLackLetters(k);
    } else if k < 15 {
      MiddleNamesLackLetters(k);
    } else if k < 20 {
      LaterNamesLackLetters(k);
    } else {
      LastNamesLackLetters(k);
    }
    PlainKey(NAMES[k]);
  }

  predicate IsScalar(value: Json) {
    value.Null? || value.Bool? || value.Num? || value.Str?
  }

  /** Whatever else a state holds, every field that the flow relies on passes unchanged: the progress, the step, the
      saved run, the flags and the receipt. */
  lemma FieldsAreKept(state: Json, k: nat)
    requires state.Obj? && k < |NAMES| && IsScalar(Get(state, NAMES[k]))
    ensures Get(Sanitize(state), NAMES[k]) == Get(state, NAMES[k])
  {
    hide IsSensitive, Get, Sanitize;
    NameIsPlain(k);
    SanitizeKeepsValues(state, NAMES[k]);
  }

  lemma NamesDiffer(i: nat, k: nat)
    requires i < k < |NAMES|
    ensures NAMES[i] != NAMES[k]
  {
  }

  predicate IsEarly(step: Phase) {
    || step.Unstarted? || step.GapDiscovery? || step.GapResolution? || step.GapResolved? || step.PreclaimContext?
    || step.PreclaimContextReady? || step.GapClaim?
  }

  lemma EarlyStepsReadBack(step: Phase)
    requires IsEarly(step)
    ensures StepNamed(StepName(step)) == step
  {
  }

  lemma LateStepsReadBack(step: Phase)
    requires !IsEarly(step)
    ensures StepNamed(StepName(step)) == step
  {
  }

  lemma StepsReadBack(step: Phase)
    ensures StepNamed(StepName(step)) == step
  {
    hide StepNamed, StepName;
    if IsEarly(step) {
      EarlyStepsReadBack(step);
    } else {
      LateStepsReadBack(step);
    }
  }

  lemma ValueIsScalar(r: Record, k: nat)
    requires k < |NAMES|
    ensures IsScalar(Values(r)[k])
  {
    hide StepName;
  }

  lemma ValueInFile(r: Record, k: nat)
    requires k < |NAMES|
    ensures Get(Sanitize(ToJson(r)), NAMES[k]) == Values(r)[k]
  {
    hide Sanitize, Values, IsScalar;
    ValueIsScalar(r, k);
    var fields := Fields(r);
    forall i | 0 <= i < k
      ensures fields[i].0 != fields[k].0
    {
      NamesDiffer(i, k);
    }
    LookupAt(fields, k);
    FieldsAreKept(ToJson(r), k);
  }

  /** What a file holds is the record that was written to it. */
  lemma FileReadsBack(r: Record)
    ensures FromJson(Sanitize(ToJson(r))) == r
  {
    hide Sanitize, ToJson, Get, StepName, StepNamed;
    StepsReadBack(r.step);
    forall k | 0 <= k < |NAMES|
      ensures Get(Sanitize(ToJson(r)), NAMES[k]) == Values(r)[k]
    {
      ValueInFile(r, k);
    }
  }

  // ---- The names in the file ----

  lemma BooksNames()
    ensures NAMES[0] == "run_record_id"
    ensures NAMES[1] == "created_at"
    ensures NAMES[2] == "updated_at"
    ensures NAMES[3] == "status"
    ensures NAMES[4] == "error_code"
    ensures NAMES[5] == "step"
  {
  }

  lemma BooksUnderNames(r: Record)
    ensures var file := Sanitize(ToJson(r));
      && Get(file, NAMES[0]) == Num(r.runRecordId)
      && Get(file, NAMES[1]) == Num(r.createdAt)
      && Get(file, NAMES[2]) == Num(r.updatedAt)
      && Get(file, NAMES[3]) == Str(r.status)
      && Get(file, NAMES[4]) == Str(r.errorCode)
      && Get(file, NAMES[5]) == Str(StepName(r.step))
  {
    hide Sanitize, ToJson, Get, StepName;
    ValueInFile(r, 0);
    ValueInFile(r, 1);
    ValueInFile(r, 2);
    ValueInFile(r, 3);
    ValueInFile(r, 4);
    ValueInFile(r, 5);
  }

  lemma ProgressNames()
    ensures NAMES[6] == "terminal"
    ensures NAMES[7] == "run_id"
    ensures NAMES[8] == "poll_url"
    ensures NAMES[9] == "resolved_gap_id"
    ensures NAMES[10] == "gap_id_source"
    ensures NAMES[11] == "claim_id"
  {
  }

  lemma ProgressUnderNames(r: Record)
    ensures var file := Sanitize(ToJson(r));
      && Get(file, NAMES[6]) == Bool(r.terminal)
      && Get(file, NAMES[7]) == Str(r.runId)
      && Get(file, NAMES[8]) == Str(r.pollUrl)
      && Get(file, NAMES[9]) == Str(r.gapId)
      && Get(file, NAMES[10]) == Str(r.gapSource)
      && Get(file, NAMES[11]) == Str(r.claimId)
  {
    hide Sanitize, ToJson, Get, StepName;
    ValueInFile(r, 6);
    ValueInFile(r, 7);
    ValueInFile(r, 8);
    ValueInFile(r, 9);
    ValueInFile(r, 10);
    ValueInFile(r, 11);
  }

  lemma IdsNames()
    ensures NAMES[12] == "claim_ref"
    ensures NAMES[13] == "claim_ctxpack_digest"
    ensures NAMES[14] == "registration_id"
    ensures NAMES[15] == "governance_context_id"
    ensures NAMES[16] == "candidate_digest"
    ensures NAMES[17] == "live_confirmed"
  {
  }

  lemma IdsUnderNames(r: Record)
    ensures var file := Sanitize(ToJson(r));
      && Get(file, NAMES[12]) == Str(r.claimRef)
      && Get(file, NAMES[13]) == Str(r.claimDigest)
      && Get(file, NAMES[14]) == Str(r.registrationId)
      && Get(file, NAMES[15]) == Str(r.contextId)
      && Get(file, NAMES[16]) == Str(r.candidate)
      && Get(file, NAMES[17]) == Bool(r.liveConfirmed)
  {
    hide Sanitize, ToJson, Get, StepName;
    ValueInFile(r, 12);
    ValueInFile(r, 13);
    ValueInFile(r, 14);
    ValueInFile(r, 15);
    ValueInFile(r, 16);
    ValueInFile(r, 17);
  }

  lemma ReceiptNames()
    ensures NAMES[18] == "digest"
    ensures NAMES[19] == "message"
    ensures NAMES[20] == "realized_at"
    ensures NAMES[21] == "governed"
    ensures NAMES[22] == "event_spine_evidence"
    ensures NAMES[23] == "governance_verdict"
  {
  }

  lemma ReceiptUnderNames(r: Record)
    ensures var file := Sanitize(ToJson(r));
      && Get(file, NAMES[18]) == Str(r.digest)
      && Get(file, NAMES[19]) == Str(r.message)
      && Get(file, NAMES[20]) == Str(r.realizedAt)
      && Get(file, NAMES[21]) == Bool(r.governed)
      && Get(file, NAMES[22]) == Bool(r.eventSpineEvidence)
      && Get(file, NAMES[23]) == Str(r.verdict)
  {
    hide Sanitize, ToJson, Get, StepName;
    ValueInFile(r, 18);
    ValueInFile(r, 19);
    ValueInFile(r, 20);
    ValueInFile(r, 21);
    ValueInFile(r, 22);
    ValueInFile(r, 23);
  }

  lemma EvidenceNames()
    ensures NAMES[24] == "drift_state"
    ensures NAMES[25] == "mcp_event_id"
    ensures NAMES[26] == "proof_id"
    ensures NAMES[27] == "receipt_id"
    ensures NAMES[28] == "passport_digest"
    ensures NAMES[29] == "trust_digest"
  {
  }

  lemma EvidenceUnderNames(r: Record)
    ensures var file := Sanitize(ToJson(r));
      && Get(file, NAMES[24]) == Str(r.driftState)
      && Get(file, NAMES[25]) == Str(r.mcpEventId)
      && Get(file, NAMES[26]) == Str(r.proofId)
      && Get(file, NAMES[27]) == Str(r.receiptId)
      && Get(file, NAMES[28]) == Str(r.passportDigest)
      && Get(file, NAMES[29]) == Str(r.trustDigest)
  {
    hide Sanitize, ToJson, Get, StepName;
    ValueInFile(r, 24);
    ValueInFile(r, 25);
    ValueInFile(r, 26);
    ValueInFile(r, 27);
    ValueInFile(r, 28);
    ValueInFile(r, 29);
  }

  /** Every field of a record stands in its file under the name that the client looks it up by. */
  lemma FieldsStandUnderTheirNames(r: Record)
    ensures var file := Sanitize(ToJson(r));
      && Get(file, "run_record_id") == Num(r.runRecordId)
      && Get(file, "created_at") == Num(r.createdAt)
      && Get(file, "updated_at") == Num(r.updatedAt)
      && Get(file, "status") == Str(r.status)
      && Get(file, "error_code") == Str(r.errorCode)
      && Get(file, "step") == Str(StepName(r.step))
      && Get(file, "terminal") == Bool(r.terminal)
      && Get(file, "run_id") == Str(r.runId)
      && Get(file, "poll_url") == Str(r.pollUrl)
      && Get(file, "resolved_gap_id") == Str(r.gapId)
      && Get(file, "gap_id_source") == Str(r.gapSource)
      && Get(file, "claim_id") == Str(r.claimId)
      && Get(file, "claim_ref") == Str(r.claimRef)
      && Get(file, "claim_ctxpack_digest") == Str(r.claimDigest)
      && Get(file, "registration_id") == Str(r.registrationId)
      && Get(file, "governance_context_id") == Str(r.contextId)
      && Get(file, "candidate_digest") == Str(r.candidate)
      && Get(file, "live_confirmed") == Bool(r.liveConfirmed)
      && Get(file, "digest") == Str(r.digest)
      && Get(file, "message") == Str(r.message)
      && Get(file, "realized_at") == Str(r.realizedAt)
      && Get(file, "governed") == Bool(r.governed)
      && Get(file, "event_spine_evidence") == Bool(r.eventSpineEvidence)
      && Get(file, "governance_verdict") == Str(r.verdict)
      && Get(file, "drift_state") == Str(r.driftState)
      && Get(file, "mcp_event_id") == Str(r.mcpEventId)
      && Get(file, "proof_id") == Str(r.proofId)
      && Get(file, "receipt_id") == Str(r.receiptId)
      && Get(file, "passport_digest") == Str(r.passportDigest)
      && Get(file, "trust_digest") == Str(r.trustDigest)
  {
    hide Sanitize, ToJson, Get, StepName;
    BooksNames();
    BooksUnderNames(r);
    ProgressNames();
    ProgressUnderNames(r);
    IdsNames();
    IdsUnderNames(r);
    ReceiptNames();
    ReceiptUnderNames(r);
    EvidenceNames();
    EvidenceUnderNames(r);
  }

  /** The step that each call of the server leaves open, and the one that follows it. */
  lemma StepsHaveTheirNames()
    ensures StepName(PendingPhase(Discovering)) == "gap_discovery" && StepName(GapResolved) == "gap_resolved"
    ensures StepName(PendingPhase(PreclaimCompiling)) == "preclaim_context"
            && StepName(PreclaimContextReady) == "preclaim_context_ready"
    ensures StepName(PendingPhase(Claiming)) == "gap_claim" && StepName(ClaimSucceeded) == "claim_succeeded"
    ensures StepName(PendingPhase(Registering)) == "context_create" && StepName(ContextCreated) == "context_created"
    ensures StepName(PendingPhase(Compiling)) == "context_compile" && StepName(ContextCompiled) == "context_compiled"
    ensures StepName(PendingPhase(Realizing)) == "governed_realize" && StepName(ReceiptReady) == "receipt_ready"
    ensures StepName(GapResolution) == "gap_resolution" && StepName(Unstarted) == ""
  {
  }
}
