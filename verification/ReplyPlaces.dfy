// Where every id and every receipt field is read from: the first usable value on a list of paths, best first.
module ReplyPlaces {
  import opened Json
  import opened Text
  import opened ReplyFields
  import opened GovernanceReceipts

  lemma AtFour(value: Json, a: string, b: string, c: string, d: string)
    ensures At(value, [a, b, c, d]) == Get(Sub(Sub(Sub(value, a), b), c), d)
  {
    hide Get;
    assert [a, b, c, d][1..] == [b, c, d];
    AtThree(Get(value, a), b, c, d);
    SubReads(value, a, b);
  }

  lemma AtSix(value: Json, a: string, b: string, c: string, d: string, e: string, f: string)
    ensures At(value, [a, b, c, d, e, f]) == Get(Sub(Sub(Sub(Sub(Sub(value, a), b), c), d), e), f)
  {
    hide Get;
    var outer := Get(Get(value, a), b);
    assert [a, b, c, d, e, f][1..] == [b, c, d, e, f] && [b, c, d, e, f][1..] == [c, d, e, f];
    AtFour(outer, c, d, e, f);
    SubReads(value, a, b);
    SubReads(Sub(value, a), b, c);
  }

  // ---- Ids in a reply ----

  const RUN_ID := [["data", "run_id"], ["run_id"]]
  const POLL_URL := [["data", "poll_url"], ["poll_url"]]
  const FAILURE := [["data", "error", "code"], ["data", "terminal_reason"]]
  const CLAIM_ID := [
    ["claim_id"], ["result", "claim_id"], ["data", "claim_id"], ["data", "result", "claim_id"],
    ["data", "run", "claim_id"]]
  const CLAIM_REF := [
    ["claim_ref"], ["claim_token"], ["result", "claim_ref"], ["result", "claim_token"], ["data", "claim_ref"],
    ["data", "claim_token"], ["data", "result", "claim_ref"], ["data", "result", "claim_token"],
    ["data", "run", "claim_ref"]]
  const REGISTRATION := [
    ["registration_id"], ["repo_id"], ["declaration_id"], ["governance_context_id"], ["ctxpack_digest"], ["id"],
    ["result", "registration_id"], ["result", "repo_id"], ["result", "declaration_id"],
    ["result", "governance_context_id"], ["data", "registration_id"], ["data", "result", "registration_id"]]
  const RECOVERED_REGISTRATION := [
    ["registration_id"], ["repo_id"], ["declaration_id"], ["result", "registration_id"]]
  const CONTEXT := [
    ["governance_context_id"], ["ctxpack_digest"], ["digest"], ["ctx_ref_sha256"],
    ["result", "governance_context_id"], ["result", "ctxpack_digest"], ["data", "governance_context_id"],
    ["data", "ctxpack_digest"], ["data", "result", "governance_context_id"], ["data", "result", "ctxpack_digest"],
    ["data", "run", "result", "governance_context_id"], ["data", "run", "result", "ctxpack_digest"],
    ["data", "run", "result", "ctx_ref_sha256"], ["data", "run", "result", "context_card", "determinism", "digest"],
    ["keyhole", "ctx_ref_sha256"]]
  const CANONICAL := [
    ["canonical", "current_canonical_digest"], ["current_canonical_digest"],
    ["data", "canonical", "current_canonical_digest"], ["data", "current_canonical_digest"],
    ["data", "result", "canonical", "current_canonical_digest"], ["data", "result", "current_canonical_digest"],
    ["result", "canonical", "current_canonical_digest"], ["result", "current_canonical_digest"],
    ["result", "result", "canonical", "current_canonical_digest"], ["result", "result", "current_canonical_digest"]]

  lemma ClaimIdStandsAt(data: Json)
    ensures StandAt(data, CLAIM_ID, ClaimIdPlaces(data))
  {
    hide Get, Sub, At;
    AtOne(data, "claim_id"); AtTwo(data, "result", "claim_id"); AtTwo(data, "data", "claim_id");
    AtThree(data, "data", "result", "claim_id"); AtThree(data, "data", "run", "claim_id");
  }

  lemma ClaimRefStandsAt(data: Json)
    ensures StandAt(data, CLAIM_REF, ClaimRefPlaces(data))
  {
    hide Get, Sub, At, StandAt;
    ReferencesStandAt(data, "claim_ref", "claim_token", "result", "data", "run");
  }

  lemma ReferencesStandAt(data: Json, ref: string, token: string, result: string, inner: string, run: string)
    ensures var r, d := Sub(data, result), Sub(data, inner);
      StandAt(data,
              [[ref], [token], [result, ref], [result, token], [inner, ref], [inner, token], [inner, result, ref],
               [inner, result, token], [inner, run, ref]],
              [Get(data, ref), Get(data, token), Get(r, ref), Get(r, token), Get(d, ref), Get(d, token),
               Get(Sub(d, result), ref), Get(Sub(d, result), token), Get(Sub(d, run), ref)])
  {
    hide Get, Sub, At;
    AtOne(data, ref); AtOne(data, token); AtTwo(data, result, ref); AtTwo(data, result, token);
    AtTwo(data, inner, ref); AtTwo(data, inner, token); AtThree(data, inner, result, ref);
    AtThree(data, inner, result, token); AtThree(data, inner, run, ref);
  }

  lemma RegistrationStandsAt(data: Json)
    ensures StandAt(data, REGISTRATION, RegistrationPlaces(data))
  {
    hide Get, Sub, At, StandAt;
    RegistrationIdsStandAt(data, "registration_id", "repo_id", "declaration_id", "governance_context_id",
                           "ctxpack_digest", "id", "result", "data");
  }

  lemma RegistrationIdsStandAt(data: Json, a: string, b: string, c: string, d: string, e: string, f: string,
                               result: string, inner: string)
    ensures var r := Sub(data, result);
      StandAt(data,
              [[a], [b], [c], [d], [e], [f], [result, a], [result, b], [result, c], [result, d], [inner, a],
               [inner, result, a]],
              [Get(data, a), Get(data, b), Get(data, c), Get(data, d), Get(data, e), Get(data, f), Get(r, a), Get(r, b),
               Get(r, c), Get(r, d), Get(Sub(data, inner), a), Get(Sub(Sub(data, inner), result), a)])
  {
    hide Get, Sub, At;
    AtOne(data, a); AtOne(data, b); AtOne(data, c); AtOne(data, d); AtOne(data, e); AtOne(data, f);
    AtTwo(data, result, a); AtTwo(data, result, b); AtTwo(data, result, c); AtTwo(data, result, d);
    AtTwo(data, inner, a); AtThree(data, inner, result, a);
  }

  lemma RecoveredStandsAt(data: Json)
    ensures StandAt(data, RECOVERED_REGISTRATION, RecoveredPlaces(data))
  {
    hide Get, Sub, At;
    AtOne(data, "registration_id"); AtOne(data, "repo_id"); AtOne(data, "declaration_id");
    AtTwo(data, "result", "registration_id");
  }

  lemma ContextStandsAt(data: Json)
    ensures StandAt(data, CONTEXT, ContextPlaces(data))
  {
    hide Get, Sub, At, StandAt;
    ContextIdsStandAt(data, "governance_context_id", "ctxpack_digest", "digest", "ctx_ref_sha256", "result", "data",
                      "run", "context_card", "determinism", "keyhole");
  }

  lemma ContextIdsStandAt(data: Json, a: string, b: string, c: string, d: string, result: string, inner: string,
                          run: string, card: string, determinism: string, keyhole: string)
    ensures var r, i := Sub(data, result), Sub(data, inner);
      var n, x := Sub(i, result), Sub(Sub(i, run), result);
      StandAt(data,
              [[a], [b], [c], [d], [result, a], [result, b], [inner, a], [inner, b], [inner, result, a],
               [inner, result, b], [inner, run, result, a], [inner, run, result, b], [inner, run, result, d],
               [inner, run, result, card, determinism, c], [keyhole, d]],
              [Get(data, a), Get(data, b), Get(data, c), Get(data, d), Get(r, a), Get(r, b), Get(i, a), Get(i, b),
               Get(n, a), Get(n, b), Get(x, a), Get(x, b), Get(x, d), Get(Sub(Sub(x, card), determinism), c),
               Get(Sub(data, keyhole), d)])
  {
    hide Get, Sub, At;
    AtOne(data, a); AtOne(data, b); AtOne(data, c); AtOne(data, d); AtTwo(data, result, a); AtTwo(data, result, b);
    AtTwo(data, inner, a); AtTwo(data, inner, b); AtThree(data, inner, result, a); AtThree(data, inner, result, b);
    AtFour(data, inner, run, result, a); AtFour(data, inner, run, result, b); AtFour(data, inner, run, result, d);
    AtSix(data, inner, run, result, card, determinism, c); AtTwo(data, keyhole, d);
  }

  /** The handle of a run, and the reason why it failed. */
  lemma HandlesAreFirstFound(data: Json)
    ensures IsFirstText(data, RUN_ID, RunIdOf(data)) && IsFirstText(data, POLL_URL, PollUrlOf(data))
    ensures IsFirstText(data, FAILURE, FailureCode(data))
  {
    hide Get, Sub, At, FirstString, IsFirstText;
    AtTwo(data, "data", "run_id"); AtOne(data, "run_id");
    TextIsFirst(data, RUN_ID, [Get(Sub(data, "data"), "run_id"), Get(data, "run_id")]);
    AtTwo(data, "data", "poll_url"); AtOne(data, "poll_url");
    TextIsFirst(data, POLL_URL, [Get(Sub(data, "data"), "poll_url"), Get(data, "poll_url")]);
    AtThree(data, "data", "error", "code"); AtTwo(data, "data", "terminal_reason");
    TextIsFirst(data, FAILURE,
                [Get(Sub(Sub(data, "data"), "error"), "code"), Get(Sub(data, "data"), "terminal_reason")]);
  }

  /** Each id in a reply is the first non-empty text on its list of paths, and empty if there is none; a section that
      is no object is passed over, at any depth. */
  lemma IdsAreFirstFound(data: Json)
    ensures IsFirstText(data, CLAIM_ID, ClaimIdOf(data)) && IsFirstText(data, CLAIM_REF, ClaimRefOf(data))
    ensures IsFirstText(data, REGISTRATION, RegistrationIdOf(data))
    ensures IsFirstText(data, RECOVERED_REGISTRATION, RecoveredRegistrationIdOf(data))
    ensures IsFirstText(data, CONTEXT, ContextIdOf(data))
  {
    hide IsFirstText, StandAt, FirstString, ClaimIdPlaces, ClaimRefPlaces, RegistrationPlaces, RecoveredPlaces,
         ContextPlaces;
    ClaimIdStandsAt(data);
    TextIsFirst(data, CLAIM_ID, ClaimIdPlaces(data));
    ClaimRefStandsAt(data);
    TextIsFirst(data, CLAIM_REF, ClaimRefPlaces(data));
    RegistrationStandsAt(data);
    TextIsFirst(data, REGISTRATION, RegistrationPlaces(data));
    RecoveredStandsAt(data);
    TextIsFirst(data, RECOVERED_REGISTRATION, RecoveredPlaces(data));
    ContextStandsAt(data);
    TextIsFirst(data, CONTEXT, ContextPlaces(data));
  }

  /** What the waiting registration trips over: any payload but an object, or one that Python finds false. */
  lemma PayloadsThatTrip(data: Json)
    ensures TripsReader(data)
            <==> var payload := At(data, ["data"]);
                 !payload.Obj? && payload !in [Null, Bool(false), Num(0), Str(""), Arr([])]
  {
    hide Get, At;
    AtOne(data, "data");
    TruthyUnlessEmpty(Get(data, "data"));
  }

  /** A digest without its prefix. */
  function Bare(digest: string): string {
    if "sha256:" <= digest then digest[7..] else digest
  }

  /** The canonical digest is the first text on its list of paths, stripped, and without its "sha256:". */
  lemma DigestIsFirstFound(data: Json)
    ensures exists raw :: IsFirstText(data, CANONICAL, raw) && CanonicalDigestOf(data) == Bare(Trim(raw))
  {
    hide Get, Sub, At, FirstString, IsFirstText, Trim;
    var inner, result := Get(data, "data"), Get(data, "result");
    var values := DigestsIn(data) + DigestsIn(inner) + DigestsIn(Get(inner, "result"))
                  + DigestsIn(result) + DigestsIn(Get(result, "result"));
    SectionStandsAt(data);
    TextIsFirst(data, CANONICAL, values);
  }

  lemma SectionStandsAt(data: Json)
    ensures var inner, result := Get(data, "data"), Get(data, "result");
      StandAt(data, CANONICAL, DigestsIn(data) + DigestsIn(inner) + DigestsIn(Get(inner, "result"))
                               + DigestsIn(result) + DigestsIn(Get(result, "result")))
  {
    SectionReads(data, "data");
    SectionReads(Sub(data, "data"), "result");
    SubReads(data, "data", "result");
    SectionReads(data, "result");
    SectionReads(Sub(data, "result"), "result");
    SubReads(data, "result", "result");
    hide Get, Sub, At;
    AtTwo(data, "canonical", "current_canonical_digest"); AtOne(data, "current_canonical_digest");
    AtThree(data, "data", "canonical", "current_canonical_digest"); AtTwo(data, "data", "current_canonical_digest");
    AtFour(data, "data", "result", "canonical", "current_canonical_digest");
    AtThree(data, "data", "result", "current_canonical_digest");
    AtThree(data, "result", "canonical", "current_canonical_digest");
    AtTwo(data, "result", "current_canonical_digest");
    AtFour(data, "result", "result", "canonical", "current_canonical_digest");
    AtThree(data, "result", "result", "current_canonical_digest");
  }

  lemma SectionReads(value: Json, key: string)
    ensures DigestsIn(Get(value, key)) == DigestsIn(Sub(value, key))
  {
  }

  // ---- Fields of a receipt ----

  const DIGEST := [["digest"], ["result", "digest"], ["data", "digest"]]
  const STATUS := [["status"], ["result", "status"], ["data", "status"]]
  const MESSAGE := [["message"], ["result", "message"], ["data", "message"]]
  const REALIZED_AT := [["realized_at"], ["result", "realized_at"], ["data", "realized_at"]]
  const GOVERNED := [["governed"], ["result", "governed"], ["data", "governed"], ["result", "receipt", "governed"]]
  const EVENT_SPINE := [
    ["event_spine_evidence"], ["result", "event_spine_evidence"], ["data", "event_spine_evidence"],
    ["result", "receipt", "event_spine_evidence"]]
  const VERDICT := [
    ["governance_verdict"], ["verdict"], ["result", "governance_verdict"], ["result", "verdict"],
    ["data", "governance_verdict"], ["result", "receipt", "governance_verdict"], ["result", "receipt", "verdict"]]
  const DRIFT := [
    ["drift_state"], ["result", "drift_state"], ["data", "drift_state"], ["result", "receipt", "drift_state"]]
  const RECEIPT_CONTEXT := [
    ["governance_context_id"], ["result", "governance_context_id"], ["data", "governance_context_id"],
    ["result", "receipt", "governance_context_id"]]
  const EVENT := [
    ["mcp_event_id"], ["mcp_event_pointer"], ["event_id"], ["result", "mcp_event_id"],
    ["result", "mcp_event_pointer"], ["result", "event_id"], ["result", "event_pointer"], ["data", "mcp_event_id"],
    ["data", "mcp_event_pointer"], ["result", "receipt", "mcp_event_id"], ["result", "receipt", "mcp_event_pointer"],
    ["result", "evidence", "event_id"], ["result", "evidence", "event_pointer"]]
  const PROOF := [["proof_id"], ["result", "proof_id"], ["result", "receipt", "proof_id"]]
  const RECEIPT_ID := [["receipt_id"], ["result", "receipt_id"], ["result", "receipt", "receipt_id"], ["run_id"]]
  const PASSPORT := [["passport_digest"], ["result", "passport_digest"], ["result", "receipt", "passport_digest"]]
  const TRUST := [["trust_digest"], ["result", "trust_digest"], ["result", "receipt", "trust_digest"]]

  lemma DigestStandsAt(top: Json, candidate: string)
    ensures StandAt(top, DIGEST, DigestPlaces(top, candidate)[..3])
  {
    hide Get, Sub, At;
    AtOne(top, "digest"); AtTwo(top, "result", "digest"); AtTwo(top, "data", "digest");
  }

  lemma StatusStandsAt(top: Json)
    ensures StandAt(top, STATUS, StatusPlaces(top)[..3])
  {
    hide Get, Sub, At;
    AtOne(top, "status"); AtTwo(top, "result", "status"); AtTwo(top, "data", "status");
  }

  lemma MessageStandsAt(top: Json)
    ensures StandAt(top, MESSAGE, MessagePlaces(top))
  {
    hide Get, Sub, At;
    AtOne(top, "message"); AtTwo(top, "result", "message"); AtTwo(top, "data", "message");
  }

  lemma TimeStandsAt(top: Json, now: string)
    ensures StandAt(top, REALIZED_AT, TimePlaces(top, now)[..3])
  {
    hide Get, Sub, At;
    AtOne(top, "realized_at"); AtTwo(top, "result", "realized_at"); AtTwo(top, "data", "realized_at");
  }

  lemma VerdictStandsAt(top: Json)
    ensures StandAt(top, VERDICT, VerdictPlaces(top))
  {
    hide Get, Sub, At;
    AtOne(top, "governance_verdict"); AtOne(top, "verdict"); AtTwo(top, "result", "governance_verdict");
    AtTwo(top, "result", "verdict"); AtTwo(top, "data", "governance_verdict");
    AtThree(top, "result", "receipt", "governance_verdict"); AtThree(top, "result", "receipt", "verdict");
  }

  lemma EventStandsAt(top: Json)
    ensures StandAt(top, EVENT, EventPlaces(top))
  {
    hide Get, Sub, At;
    AtOne(top, "mcp_event_id"); AtOne(top, "mcp_event_pointer"); AtOne(top, "event_id");
    AtTwo(top, "result", "mcp_event_id"); AtTwo(top, "result", "mcp_event_pointer"); AtTwo(top, "result", "event_id");
    AtTwo(top, "result", "event_pointer"); AtTwo(top, "data", "mcp_event_id");
    AtTwo(top, "data", "mcp_event_pointer"); AtThree(top, "result", "receipt", "mcp_event_id");
    AtThree(top, "result", "receipt", "mcp_event_pointer"); AtThree(top, "result", "evidence", "event_id");
    AtThree(top, "result", "evidence", "event_pointer");
  }

  lemma FourStandAt(top: Json, key: string)
    ensures StandAt(top, [[key], ["result", key], ["data", key], ["result", "receipt", key]], FourPlaces(top, key))
  {
    hide Get, Sub, At;
    AtOne(top, key);
    AtTwo(top, "result", key);
    AtTwo(top, "data", key);
    AtThree(top, "result", "receipt", key);
  }

  lemma ThreeStandAt(top: Json, key: string)
    ensures StandAt(top, [[key], ["result", key], ["result", "receipt", key]], ThreePlaces(top, key))
  {
    hide Get, Sub, At;
    AtOne(top, key);
    AtTwo(top, "result", key);
    AtThree(top, "result", "receipt", key);
  }

  /** The part of a reply that holds the receipt: the payload of a successful envelope, or the reply itself. */
  function TopOf(data: Json): Json {
    if At(data, ["ok"]) == Bool(true) && At(data, ["data"]).Obj? then At(data, ["data"]) else data
  }

  lemma UnwrapIsTop(data: Json)
    ensures Unwrap(data) == TopOf(data)
  {
    hide Get, At;
    AtOne(data, "ok");
    AtOne(data, "data");
  }

  /** The fields with a default. */
  lemma DefaultedFields(data: Json, candidate: string, now: string)
    ensures var top, r := Unwrap(data), Normalize(data, candidate, now);
      && IsFirstTextOr(top, DIGEST, candidate, r.digest)
      && IsFirstTextOr(top, STATUS, "ACCEPT", r.status)
      && IsFirstTextOr(top, REALIZED_AT, now, r.realizedAt)
  {
    hide IsFirstTextOr, StandAt, FirstString, FirstBool, Unwrap, Get, Sub;
    var top := Unwrap(data);
    DigestStandsAt(top, candidate);
    TextOrDefault(top, DIGEST, DigestPlaces(top, candidate)[..3], candidate);
    assert DigestPlaces(top, candidate) == DigestPlaces(top, candidate)[..3] + [Str(candidate)];
    StatusStandsAt(top);
    TextOrDefault(top, STATUS, StatusPlaces(top)[..3], "ACCEPT");
    assert StatusPlaces(top) == StatusPlaces(top)[..3] + [Str("ACCEPT")];
    TimeStandsAt(top, now);
    TextOrDefault(top, REALIZED_AT, TimePlaces(top, now)[..3], now);
    assert TimePlaces(top, now) == TimePlaces(top, now)[..3] + [Str(now)];
  }

  /** The six fields on which the confirmation of a receipt depends. */
  lemma ConfirmedFields(data: Json, candidate: string, now: string)
    ensures var top, r := Unwrap(data), Normalize(data, candidate, now);
      && IsFirstFlag(top, GOVERNED, r.governed) && IsFirstFlag(top, EVENT_SPINE, r.eventSpineEvidence)
      && IsFirstText(top, VERDICT, r.verdict) && IsFirstText(top, DRIFT, r.driftState)
      && IsFirstText(top, RECEIPT_CONTEXT, r.contextId) && IsFirstText(top, EVENT, r.mcpEventId)
  {
    hide IsFirstText, IsFirstFlag, StandAt, FirstString, FirstBool, Unwrap, FourPlaces, VerdictPlaces, EventPlaces;
    var top := Unwrap(data);
    FourStandAt(top, "governed");
    FlagIsFirst(top, GOVERNED, FourPlaces(top, "governed"));
    FourStandAt(top, "event_spine_evidence");
    FlagIsFirst(top, EVENT_SPINE, FourPlaces(top, "event_spine_evidence"));
    VerdictStandsAt(top);
    TextIsFirst(top, VERDICT, VerdictPlaces(top));
    FourStandAt(top, "drift_state");
    TextIsFirst(top, DRIFT, FourPlaces(top, "drift_state"));
    FourStandAt(top, "governance_context_id");
    TextIsFirst(top, RECEIPT_CONTEXT, FourPlaces(top, "governance_context_id"));
    EventStandsAt(top);
    TextIsFirst(top, EVENT, EventPlaces(top));
  }

  lemma ReceiptIdStandsAt(top: Json)
    ensures StandAt(top, RECEIPT_ID, ThreePlaces(top, "receipt_id") + [Get(top, "run_id")])
  {
    hide Get, Sub, At;
    ThreeStandAt(top, "receipt_id");
    AtOne(top, "run_id");
  }

  /** The other fields. */
  lemma OtherFields(data: Json, candidate: string, now: string)
    ensures var top, r := Unwrap(data), Normalize(data, candidate, now);
      && IsFirstText(top, MESSAGE, r.message) && IsFirstText(top, PROOF, r.proofId)
      && IsFirstText(top, RECEIPT_ID, r.receiptId)
      && IsFirstText(top, PASSPORT, r.passportDigest) && IsFirstText(top, TRUST, r.trustDigest)
  {
    hide IsFirstText, StandAt, FirstString, FirstBool, Unwrap, ThreePlaces, MessagePlaces, Get;
    var top := Unwrap(data);
    MessageStandsAt(top);
    TextIsFirst(top, MESSAGE, MessagePlaces(top));
    ThreeStandAt(top, "proof_id");
    TextIsFirst(top, PROOF, ThreePlaces(top, "proof_id"));
    ReceiptIdStandsAt(top);
    TextIsFirst(top, RECEIPT_ID, ThreePlaces(top, "receipt_id") + [Get(top, "run_id")]);
    ThreeStandAt(top, "passport_digest");
    TextIsFirst(top, PASSPORT, ThreePlaces(top, "passport_digest"));
    ThreeStandAt(top, "trust_digest");
    TextIsFirst(top, TRUST, ThreePlaces(top, "trust_digest"));
  }

  /** Each field of a receipt is the first usable value on its list of paths below the top; the digest, the status and
      the time have a default, the other texts are empty and the flags false if there is none. */
  lemma ReceiptFieldsAreFirstFound(data: Json, candidate: string, now: string)
    ensures var top, r := TopOf(data), Normalize(data, candidate, now);
      && IsFirstTextOr(top, DIGEST, candidate, r.digest) && IsFirstTextOr(top, STATUS, "ACCEPT", r.status)
      && IsFirstText(top, MESSAGE, r.message) && IsFirstTextOr(top, REALIZED_AT, now, r.realizedAt)
      && IsFirstFlag(top, GOVERNED, r.governed) && IsFirstFlag(top, EVENT_SPINE, r.eventSpineEvidence)
      && IsFirstText(top, VERDICT, r.verdict) && IsFirstText(top, DRIFT, r.driftState)
      && IsFirstText(top, RECEIPT_CONTEXT, r.contextId) && IsFirstText(top, EVENT, r.mcpEventId)
      && IsFirstText(top, PROOF, r.proofId) && IsFirstText(top, RECEIPT_ID, r.receiptId)
      && IsFirstText(top, PASSPORT, r.passportDigest) && IsFirstText(top, TRUST, r.trustDigest)
  {
    hide IsFirstText, IsFirstFlag, IsFirstTextOr, Normalize, Unwrap, TopOf;
    UnwrapIsTop(data);
    DefaultedFields(data, candidate, now);
    ConfirmedFields(data, candidate, now);
    OtherFields(data, candidate, now);
  }
}
