// Receipts of a governed realization: reading one out of a server reply, and the fail-closed test.
module GovernanceReceipts {
  import opened Json

  datatype Receipt = Receipt(
    digest: string, status: string, message: string, realizedAt: string,
    governed: bool, eventSpineEvidence: bool, verdict: string, driftState: string,
    contextId: string, mcpEventId: string, proofId: string, receiptId: string,
    passportDigest: string, trustDigest: string)

  /** The six conditions that every accepted receipt meets. */
  predicate IsConfirmed(r: Receipt) {
    && r.governed
    && r.eventSpineEvidence
    && r.verdict == "ACCEPT"
    && r.driftState != ""
    && r.contextId != ""
    && r.mcpEventId != ""
  }

  // ---- Where the server may put each field ----

  function DigestPlaces(top: Json, candidate: string): seq<Json> {
    [Get(top, "digest"), Get(Sub(top, "result"), "digest"), Get(Sub(top, "data"), "digest"), Str(candidate)]
  }

  function StatusPlaces(top: Json): seq<Json> {
    [Get(top, "status"), Get(Sub(top, "result"), "status"), Get(Sub(top, "data"), "status"), Str("ACCEPT")]
  }

  function MessagePlaces(top: Json): seq<Json> {
    [Get(top, "message"), Get(Sub(top, "result"), "message"), Get(Sub(top, "data"), "message")]
  }

  function TimePlaces(top: Json, now: string): seq<Json> {
    [Get(top, "realized_at"), Get(Sub(top, "result"), "realized_at"), Get(Sub(top, "data"), "realized_at"), Str(now)]
  }

  /** The receipt and the evidence inside a result. */
  function InnerReceipt(top: Json): Json {
    Sub(Sub(top, "result"), "receipt")
  }

  function InnerEvidence(top: Json): Json {
    Sub(Sub(top, "result"), "evidence")
  }

  /** The four places of a key. */
  function FourPlaces(top: Json, key: string): seq<Json> {
    [Get(top, key), Get(Sub(top, "result"), key), Get(Sub(top, "data"), key), Get(InnerReceipt(top), key)]
  }

  /** The three places of a key that is not looked for under "data". */
  function ThreePlaces(top: Json, key: string): seq<Json> {
    [Get(top, key), Get(Sub(top, "result"), key), Get(InnerReceipt(top), key)]
  }

  function VerdictPlaces(top: Json): seq<Json> {
    var result := Sub(top, "result");
    [Get(top, "governance_verdict"), Get(top, "verdict"), Get(result, "governance_verdict"), Get(result, "verdict"),
     Get(Sub(top, "data"), "governance_verdict"),
     Get(InnerReceipt(top), "governance_verdict"), Get(InnerReceipt(top), "verdict")]
  }

  function EventPlaces(top: Json): seq<Json> {
    var result, inner := Sub(top, "result"), Sub(top, "data");
    [Get(top, "mcp_event_id"), Get(top, "mcp_event_pointer"), Get(top, "event_id"),
     Get(result, "mcp_event_id"), Get(result, "mcp_event_pointer"),
     Get(result, "event_id"), Get(result, "event_pointer"),
     Get(inner, "mcp_event_id"), Get(inner, "mcp_event_pointer"),
     Get(InnerReceipt(top), "mcp_event_id"), Get(InnerReceipt(top), "mcp_event_pointer"),
     Get(InnerEvidence(top), "event_id"), Get(InnerEvidence(top), "event_pointer")]
  }

  /** The first usable value for each receipt field among its places. */
  function Normalize(data: Json, candidate: string, now: string): Receipt {
    var top := Unwrap(data);
    Receipt(
      FirstString(DigestPlaces(top, candidate)),
      FirstString(StatusPlaces(top)),
      FirstString(MessagePlaces(top)),
      FirstString(TimePlaces(top, now)),
      FirstBool(FourPlaces(top, "governed")),
      FirstBool(FourPlaces(top, "event_spine_evidence")),
      FirstString(VerdictPlaces(top)),
      FirstString(FourPlaces(top, "drift_state")),
      FirstString(FourPlaces(top, "governance_context_id")),
      FirstString(EventPlaces(top)),
      FirstString(ThreePlaces(top, "proof_id")),
      FirstString(ThreePlaces(top, "receipt_id") + [Get(top, "run_id")]),
      FirstString(ThreePlaces(top, "passport_digest")),
      FirstString(ThreePlaces(top, "trust_digest")))
  }
}
