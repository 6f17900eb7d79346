// A receipt that the server sends field by field is read as that receipt.
module ReceiptRoundTrip {
  import opened GovernanceReceipts
  import opened Json

  const NAMES := [
    "digest", "status", "message", "realized_at", "governed", "event_spine_evidence", "governance_verdict",
    "drift_state", "governance_context_id", "mcp_event_id", "proof_id", "receipt_id", "passport_digest",
    "trust_digest"]

  function Values(r: Receipt): (values: seq<Json>)
    ensures |values| == |NAMES|
  {
    [Str(r.digest), Str(r.status), Str(r.message), Str(r.realizedAt), Bool(r.governed), Bool(r.eventSpineEvidence),
     Str(r.verdict), Str(r.driftState), Str(r.contextId), Str(r.mcpEventId), Str(r.proofId), Str(r.receiptId),
     Str(r.passportDigest), Str(r.trustDigest)]
  }

  function Fields(r: Receipt): (fields: seq<(string, Json)>)
    ensures |fields| == |NAMES|
    ensures forall i :: 0 <= i < |NAMES| ==> fields[i] == (NAMES[i], Values(r)[i])
  {
    seq(|NAMES|, i requires 0 <= i < |NAMES| => (NAMES[i], Values(r)[i]))
  }

  /** The receipt as the body of a reply. */
  function Encode(r: Receipt): Json {
    Obj(Fields(r))
  }

  lemma NamesDiffer(i: nat, k: nat)
    requires i < k < |NAMES|
    ensures NAMES[i] != NAMES[k]
  {
  }

  lemma ValueOf(r: Receipt, k: nat)
    requires k < |NAMES|
    ensures Get(Encode(r), NAMES[k]) == Values(r)[k]
  {
    var fields := Fields(r);
    forall i | 0 <= i < k
      ensures fields[i].0 != fields[k].0
    {
      NamesDiffer(i, k);
    }
    LookupAt(fields, k);
  }

  lemma NothingElse(r: Receipt, key: string)
    requires key !in NAMES
    ensures Get(Encode(r), key) == Null
  {
    forall i | 0 <= i < |NAMES|
      ensures Fields(r)[i].0 != key
    {
      assert NAMES[i] in NAMES;
    }
    MissingReads(Fields(r), key);
  }

  function Or(s: string, other: string): string {
    if s != "" then s else other
  }

  /** The names that `_normalize_governance_receipt` tries besides. */
  lemma OtherNames()
    ensures "result" !in NAMES && "data" !in NAMES && "verdict" !in NAMES && "run_id" !in NAMES && "ok" !in NAMES
  {
  }

  lemma OtherEventNames()
    ensures "mcp_event_pointer" !in NAMES && "event_id" !in NAMES
  {
  }

  /** Between a first value and a last one there is nothing. */
  lemma {:induction false} FirstOrLast(values: seq<Json>)
    requires |values| >= 2 && values[0].Str? && (forall i :: 1 <= i < |values| - 1 ==> values[i] == Null)
    ensures FirstString(values) == Or(values[0].s, AsText(values[|values| - 1]))
  {
    if values[0].s == "" {
      LastString(values[1..]);
    }
  }

  lemma {:induction false} LastString(values: seq<Json>)
    requires values != [] && forall i :: 0 <= i < |values| - 1 ==> values[i] == Null
    ensures FirstString(values) == AsText(values[|values| - 1])
  {
    if |values| > 1 {
      LastString(values[1..]);
    }
  }

  lemma EncodedReads(r: Receipt)
    ensures var top := Encode(r);
      && Get(top, "digest") == Str(r.digest) && Get(top, "status") == Str(r.status)
      && Get(top, "message") == Str(r.message) && Get(top, "realized_at") == Str(r.realizedAt)
      && Get(top, "governed") == Bool(r.governed) && Get(top, "event_spine_evidence") == Bool(r.eventSpineEvidence)
      && Get(top, "governance_verdict") == Str(r.verdict) && Get(top, "drift_state") == Str(r.driftState)
      && Get(top, "governance_context_id") == Str(r.contextId) && Get(top, "mcp_event_id") == Str(r.mcpEventId)
      && Get(top, "proof_id") == Str(r.proofId) && Get(top, "receipt_id") == Str(r.receiptId)
      && Get(top, "passport_digest") == Str(r.passportDigest) && Get(top, "trust_digest") == Str(r.trustDigest)
  {
    hide Get, Encode;
    ValueOf(r, 0);
    ValueOf(r, 1);
    ValueOf(r, 2);
    ValueOf(r, 3);
    ValueOf(r, 4);
    ValueOf(r, 5);
    ValueOf(r, 6);
    ValueOf(r, 7);
    ValueOf(r, 8);
    ValueOf(r, 9);
    ValueOf(r, 10);
    ValueOf(r, 11);
    ValueOf(r, 12);
    ValueOf(r, 13);
  }

  lemma NothingElseReads(r: Receipt)
    ensures var top := Encode(r);
      && Get(top, "verdict") == Null && Get(top, "mcp_event_pointer") == Null && Get(top, "event_id") == Null
      && Get(top, "run_id") == Null && Sub(top, "result") == EMPTY && Sub(top, "data") == EMPTY
      && Unwrap(top) == top
  {
    OtherNames();
    OtherEventNames();
    hide Encode, Get;
    NothingElse(r, "result");
    NothingElse(r, "data");
    NothingElse(r, "verdict");
    NothingElse(r, "mcp_event_pointer");
    NothingElse(r, "event_id");
    NothingElse(r, "run_id");
    NothingElse(r, "ok");
  }

  /** The lists of places, where only the first one holds something, or the last one a default. */
  lemma OnlyFirstOfThree(s: string)
    ensures FirstString([Str(s), Null, Null]) == s
  {
    FirstOrLast([Str(s), Null, Null]);
  }

  lemma OnlyFirstOfFour(s: string)
    ensures FirstString([Str(s), Null, Null, Null]) == s
  {
    FirstOrLast([Str(s), Null, Null, Null]);
  }

  lemma FirstOrDefault(s: string, other: string)
    ensures FirstString([Str(s), Null, Null, Str(other)]) == Or(s, other)
  {
    FirstOrLast([Str(s), Null, Null, Str(other)]);
  }

  lemma OnlyFirstOfSeven(s: string)
    ensures FirstString([Str(s), Null, Null, Null, Null, Null, Null]) == s
  {
    FirstOrLast([Str(s), Null, Null, Null, Null, Null, Null]);
  }

  lemma OnlyFirstOfThirteen(s: string)
    ensures FirstString([Str(s), Null, Null, Null, Null, Null, Null, Null, Null, Null, Null, Null, Null]) == s
  {
    FirstOrLast([Str(s), Null, Null, Null, Null, Null, Null, Null, Null, Null, Null, Null, Null]);
  }

  lemma OnlyFirstFlag(b: bool)
    ensures FirstBool([Bool(b), Null, Null, Null]) == b
  {
  }

  lemma NothingInside()
    ensures Sub(EMPTY, "receipt") == EMPTY && Sub(EMPTY, "evidence") == EMPTY
    ensures forall key :: Get(EMPTY, key) == Null
  {
  }

  // ---- What is read of an encoded receipt ----

  lemma FourPlacesRead(r: Receipt, key: string)
    ensures FourPlaces(Encode(r), key) == [Get(Encode(r), key), Null, Null, Null]
    ensures ThreePlaces(Encode(r), key) == [Get(Encode(r), key), Null, Null]
  {
    hide Encode, Get, Sub;
    NothingInside();
    NothingElseReads(r);
  }

  lemma DefaultsReadBack(r: Receipt, candidate: string, now: string)
    ensures FirstString(DigestPlaces(Encode(r), candidate)) == Or(r.digest, candidate)
    ensures FirstString(StatusPlaces(Encode(r))) == Or(r.status, "ACCEPT")
    ensures FirstString(TimePlaces(Encode(r), now)) == Or(r.realizedAt, now)
  {
    hide Encode, Get, Sub, FirstString, Or;
    NothingInside();
    EncodedReads(r);
    NothingElseReads(r);
    FirstOrDefault(r.digest, candidate);
    FirstOrDefault(r.status, "ACCEPT");
    FirstOrDefault(r.realizedAt, now);
  }

  lemma VerdictReadsBack(r: Receipt)
    ensures FirstString(MessagePlaces(Encode(r))) == r.message
    ensures FirstString(VerdictPlaces(Encode(r))) == r.verdict
  {
    hide Encode, Get, Sub, FirstString;
    NothingInside();
    EncodedReads(r);
    NothingElseReads(r);
    OnlyFirstOfThree(r.message);
    OnlyFirstOfSeven(r.verdict);
  }

  lemma EventReadsBack(r: Receipt)
    ensures FirstString(EventPlaces(Encode(r))) == r.mcpEventId
  {
    hide Encode, Get, Sub, FirstString;
    NothingInside();
    EncodedReads(r);
    NothingElseReads(r);
    OnlyFirstOfThirteen(r.mcpEventId);
  }

  lemma FlagsReadBack(r: Receipt)
    ensures FirstBool(FourPlaces(Encode(r), "governed")) == r.governed
    ensures FirstBool(FourPlaces(Encode(r), "event_spine_evidence")) == r.eventSpineEvidence
    ensures FirstString(FourPlaces(Encode(r), "drift_state")) == r.driftState
    ensures FirstString(FourPlaces(Encode(r), "governance_context_id")) == r.contextId
  {
    hide Encode, Get, Sub, FirstString, FirstBool, FourPlaces;
    EncodedReads(r);
    FourPlacesRead(r, "governed");
    FourPlacesRead(r, "event_spine_evidence");
    FourPlacesRead(r, "drift_state");
    FourPlacesRead(r, "governance_context_id");
    OnlyFirstFlag(r.governed);
    OnlyFirstFlag(r.eventSpineEvidence);
    OnlyFirstOfFour(r.driftState);
    OnlyFirstOfFour(r.contextId);
  }

  lemma IdsReadBack(r: Receipt)
    ensures FirstString(ThreePlaces(Encode(r), "proof_id")) == r.proofId
    ensures FirstString(ThreePlaces(Encode(r), "receipt_id") + [Get(Encode(r), "run_id")]) == r.receiptId
    ensures FirstString(ThreePlaces(Encode(r), "passport_digest")) == r.passportDigest
    ensures FirstString(ThreePlaces(Encode(r), "trust_digest")) == r.trustDigest
  {
    hide Encode, Get, Sub, FirstString, ThreePlaces;
    EncodedReads(r);
    NothingElseReads(r);
    FourPlacesRead(r, "proof_id");
    FourPlacesRead(r, "receipt_id");
    FourPlacesRead(r, "passport_digest");
    FourPlacesRead(r, "trust_digest");
    OnlyFirstOfThree(r.proofId);
    assert [Str(r.receiptId), Null, Null] + [Null] == [Str(r.receiptId), Null, Null, Null];
    OnlyFirstOfFour(r.receiptId);
    OnlyFirstOfThree(r.passportDigest);
    OnlyFirstOfThree(r.trustDigest);
  }

  /** Every field of the receipt is read from where it was put; only a missing digest, status or time has a default. */
  lemma NormalizeReadsBack(r: Receipt, candidate: string, now: string)
    ensures Normalize(Encode(r), candidate, now)
            == r.(digest := Or(r.digest, candidate), status := Or(r.status, "ACCEPT"),
                  realizedAt := Or(r.realizedAt, now))
  {
    hide Encode, Or, Get, Sub, Unwrap, FirstString, FirstBool, DigestPlaces, StatusPlaces, TimePlaces, MessagePlaces,
         VerdictPlaces, EventPlaces, FourPlaces, ThreePlaces;
    NothingElseReads(r);
    DefaultsReadBack(r, candidate, now);
    VerdictReadsBack(r);
    EventReadsBack(r);
    FlagsReadBack(r);
    IdsReadBack(r);
  }
}
