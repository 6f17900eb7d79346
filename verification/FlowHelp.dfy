// A server that helps: one body for each kind of request, and such bodies exist.
module FlowHelp {
  import opened Json
  import opened Text
  import opened GapSelection
  import opened GovernanceReceipts
  import opened ReplyFields
  import opened FlowState
  import opened FlowSpec
  import opened ReceiptRoundTrip

  /** The bodies with which a server answers each kind of request at once. */
  datatype Help = Help(
    capabilities: Json, gaps: Json, digest: Json, claim: Json, registration: Json, context: Json, receipt: Json,
    pending: Json)

  /** A body that is read as the answer itself, not as a promise. */
  predicate IsAnswer(body: Json) {
    body.Obj? && Get(body, "ok") != Bool(false) && !IsActive(RunStatus(body))
  }

  ghost predicate Helps(cfg: Config, h: Help) {
    && h.capabilities.Obj? && IsComplete(cfg.readCapabilities(h.capabilities))
    && IsAnswer(h.gaps) && Select(cfg, h.gaps).Ok? && Select(cfg, h.gaps).value != ""
    && IsAnswer(h.digest) && CanonicalDigestOf(h.digest) != ""
    && IsAnswer(h.claim) && ClaimIdOf(h.claim) != ""
    && IsAnswer(h.registration) && !TripsReader(h.registration) && RegistrationIdOf(h.registration) != ""
    && IsAnswer(h.context) && ContextIdOf(h.context) != ""
    && IsAnswer(h.receipt) && (forall candidate :: ReadReceipt(cfg, h.receipt, candidate).Ok?)
    && h.pending.Obj? && Get(h.pending, "ok") != Bool(false) && !IsFinished(h.pending)
  }

  /** The server can do everything, and names a gap or lists the gaps. */
  predicate IsComplete(c: Capabilities) {
    c.canClaim && c.canRegister && c.canCompile && c.canRealize && (c.gapId != "" || c.canDiscoverGaps)
  }

  function Says(body: Json): Reply {
    Http(200, body)
  }

  /** A reply with one field. */
  function Field(key: string, value: Json): Json {
    Obj([(key, value)])
  }

  lemma FieldReads(key: string, value: Json, other: string)
    ensures Get(Field(key, value), other) == if other == key then value else Null
    ensures !value.Obj? ==> Sub(Field(key, value), other) == EMPTY
  {
    var fields := [(key, value)];
    assert fields[1..] == [];
    assert Lookup(fields[1..], other) == Null;
  }

  lemma NoStatusNoPromise(body: Json)
    requires body.Obj? && Get(body, "status") == Null && Sub(body, "data") == EMPTY && Get(body, "ok") == Null
    ensures IsAnswer(body)
  {
    var places := [Get(Sub(body, "data"), "status"), Get(body, "status")];
    FirstStringMisses(places);
    assert RunStatus(body) == Lower(FirstString(places)) == "";
  }

  /** An id in the first place where it is looked for. */
  lemma IdReads(key: string, id: string)
    requires id != "" && key != "status" && key != "data" && key != "ok"
    ensures IsAnswer(Field(key, Str(id))) && Get(Field(key, Str(id)), key) == Str(id)
  {
    FieldReads(key, Str(id), key);
    FieldReads(key, Str(id), "status");
    FieldReads(key, Str(id), "data");
    FieldReads(key, Str(id), "ok");
    NoStatusNoPromise(Field(key, Str(id)));
  }

  lemma AnswersExist(id: string)
    requires id != ""
    ensures IsAnswer(Field("claim_id", Str(id))) && ClaimIdOf(Field("claim_id", Str(id))) == id
    ensures IsAnswer(Field("registration_id", Str(id))) && RegistrationIdOf(Field("registration_id", Str(id))) == id
    ensures !TripsReader(Field("registration_id", Str(id)))
    ensures IsAnswer(Field("governance_context_id", Str(id)))
            && ContextIdOf(Field("governance_context_id", Str(id))) == id
  {
    hide IsAnswer, Get, Sub, Field;
    IdReads("claim_id", id);
    IdReads("registration_id", id);
    IdReads("governance_context_id", id);
    FieldReads("registration_id", Str(id), "data");
  }

  lemma PendingExists()
    ensures var body := Field("status", Str("pending"));
      body.Obj? && Get(body, "ok") != Bool(false) && !IsFinished(body)
  {
    var body := Field("status", Str("pending"));
    FieldReads("status", Str("pending"), "status");
    FieldReads("status", Str("pending"), "data");
    FieldReads("status", Str("pending"), "ok");
    assert Get(EMPTY, "status") == Null && Get(EMPTY, "is_terminal") == Null;
    assert [Null, Str("pending")][1..] == [Str("pending")];
    assert FirstString([Null, Str("pending")]) == "pending";
    assert RunStatus(body) == Lower("pending") == "pending";
  }

  lemma DigestExists(id: string)
    requires id != "" && Trim(id) == id && !StartsWith(id, "sha256:")
    ensures var body := Field("current_canonical_digest", Str(id)); IsAnswer(body) && CanonicalDigestOf(body) == id
  {
    var body := Field("current_canonical_digest", Str(id));
    FieldReads("current_canonical_digest", Str(id), "current_canonical_digest");
    FieldReads("current_canonical_digest", Str(id), "canonical");
    FieldReads("current_canonical_digest", Str(id), "status");
    FieldReads("current_canonical_digest", Str(id), "data");
    FieldReads("current_canonical_digest", Str(id), "result");
    FieldReads("current_canonical_digest", Str(id), "ok");
    NoStatusNoPromise(body);
    hide Trim, StartsWith;
    var places := DigestsIn(body) + DigestsIn(Null) + DigestsIn(Get(Null, "result")) + DigestsIn(Null)
                  + DigestsIn(Get(Null, "result"));
    assert places[0] == Null && places[1] == Str(id);
    assert FirstString(places) == FirstString(places[1..]) == id;
  }

  /** A receipt that meets the six conditions, under any id or none; its status is left to the default. */
  function FairReceipt(time: string, receiptId: string): Receipt {
    Receipt("", "", "", time, true, true, "ACCEPT", "none", "x", "e", "", receiptId, "", "")
  }

  lemma ReceiptExists(cfg: Config, time: string, receiptId: string, candidate: string)
    requires time != "" && cfg.parseTime(time).Some?
    ensures IsAnswer(Encode(FairReceipt(time, receiptId)))
    ensures ReadReceipt(cfg, Encode(FairReceipt(time, receiptId)), candidate).Ok?
    ensures Normalize(Encode(FairReceipt(time, receiptId)), candidate, cfg.now).receiptId == receiptId
  {
    var r := FairReceipt(time, receiptId);
    NormalizeReadsBack(r, candidate, cfg.now);
    hide Encode, Normalize, IsAnswer;
    EncodedIsAnswer(r);
  }

  /** A receipt without a status of its own is an answer. */
  lemma EncodedIsAnswer(r: Receipt)
    requires r.status == ""
    ensures IsAnswer(Encode(r))
  {
    assert Encode(r).Obj?;
    hide Encode, Get, Sub, Unwrap;
    EncodedReads(r);
    NothingElseReads(r);
    OtherNames();
    NothingElse(r, "ok");
    var places := [Get(Sub(Encode(r), "data"), "status"), Get(Encode(r), "status")];
    NothingInside();
    FirstStringMisses(places);
    assert RunStatus(Encode(r)) == Lower(FirstString(places)) == "";
  }

  /** A reply with an id and a status. */
  function Noted(key: string, id: string, status: string): Json {
    Obj([(key, Str(id)), ("status", Str(status))])
  }

  lemma NotedReads(key: string, id: string, status: string, other: string)
    requires key != "status"
    ensures Get(Noted(key, id, status), other)
            == if other == key then Str(id) else if other == "status" then Str(status) else Null
  {
    LookupFirst(key, Str(id), [("status", Str(status))] + []);
    LookupFirst("status", Str(status), []);
    assert Noted(key, id, status).fields == [(key, Str(id))] + ([("status", Str(status))] + []);
  }

  lemma NotedStatus(key: string, id: string, status: string)
    requires key != "status" && key != "data" && key != "ok"
    ensures RunStatus(Noted(key, id, status)) == Lower(status) && Get(Noted(key, id, status), "ok") == Null
    ensures Noted(key, id, status).Obj?
  {
    var body := Noted(key, id, status);
    NotedReads(key, id, status, "status");
    NotedReads(key, id, status, "data");
    NotedReads(key, id, status, "ok");
    NothingInside();
    hide Get, Noted, Lower;
    assert Sub(body, "data") == EMPTY;
    assert [Null, Str(status)][1..] == [Str(status)] && [Str(status)][1..] == [];
    assert FirstString([]) == "" && FirstString([Str(status)]) == status;
    assert FirstString([Null, Str(status)]) == status;
    assert body.Obj? by { NotedIsObject(key, id, status); }
  }

  lemma NotedIsObject(key: string, id: string, status: string)
    ensures Noted(key, id, status).Obj?
  {
  }

  /** A gap that is open. */
  function OpenGap(id: string): Json {
    Noted("gap_id", id, "open")
  }

  lemma OpenGapReads(id: string, key: string)
    ensures Get(OpenGap(id), key)
            == if key == "gap_id" then Str(id) else if key == "status" then Str("open") else Null
  {
    NotedReads("gap_id", id, "open", key);
  }

  lemma OpenGapIsClaimable(q: Query, id: string)
    ensures IsClaimable(OpenGap(id)) && ProfileOf(q, OpenGap(id)).status
  {
    OpenGapReads(id, "status");
    OpenGapReads(id, "blocked");
    OpenGapReads(id, "blocked_reasons");
    OpenGapReads(id, "claimable");
    hide Get, Contains;
    assert Lower("open") == "open";
  }

  lemma OpenGapIsTheOnly(id: string)
    requires StartsWith(id, "gap_")
    ensures GapObjects(OpenGap(id)) == [OpenGap(id)] && GapIdOf(OpenGap(id)) == id
  {
    var g := OpenGap(id);
    OpenGapReads(id, "gap_id");
    OpenGapReads(id, "id");
    assert id != "" && [Str(id), Null][0] == Str(id);
    var last := g.fields[1..];
    assert last[0].1 == Str("open") && last[1..] == [];
    assert GapObjects(Str(id)) == [] && GapObjects(Str("open")) == [];
    assert last[0] in g.fields && GapsOfMembers(g, last) == [] + GapsOfMembers(g, []);
    assert GapsOfMembers(g, g.fields) == [] + GapsOfMembers(g, last);
  }

  lemma OpenGapIsSelected(q: Query, id: string)
    requires StartsWith(id, "gap_")
    ensures SelectGap(q, OpenGap(id)) == Chosen(id)
  {
    var g := OpenGap(id);
    OpenGapIsTheOnly(id);
    OpenGapIsClaimable(q, id);
    hide GapObjects, IsClaimable, ProfileOf, OpenGap, GapIdOf, StartsWith;
    assert Score(q, g) >= 5;
    hide Score;
    assert [g][1..] == [] && Rank(q, []) == [];
    assert Rank(q, [g]) == [g];
    OneStays(gap => Score(q, gap) > 0, g);
    OneStays(IsClaimable, g);
    OneStays(gap => Score(q, gap) == Score(q, g), g);
  }

  lemma OneStays(keep: Json -> bool, gap: Json)
    requires keep(gap)
    ensures Filter(keep, [gap]) == [gap]
  {
    assert [gap][1..] == [];
  }

  lemma OpenGapIsAnswer(id: string)
    ensures IsAnswer(OpenGap(id))
  {
    NotedStatus("gap_id", id, "open");
    hide Noted, Get, RunStatus;
    assert Lower("open") == "open";
  }

  /** A run that ended with a context. */
  function FinishedContext(id: string): Json {
    Noted("governance_context_id", id, "succeeded")
  }

  lemma FinishedContextReads(id: string)
    requires id != ""
    ensures var body := FinishedContext(id);
      && AsAccepted(Says(body)) == Ok(body) && IsFinished(body) && !IsFailed(RunStatus(body))
      && ContextIdOf(body) == id
  {
    var body := FinishedContext(id);
    NotedStatus("governance_context_id", id, "succeeded");
    NotedReads("governance_context_id", id, "succeeded", "governance_context_id");
    hide Noted, Get, RunStatus, Sub;
    assert Lower("succeeded") == "succeeded";
  }

  /** A list of gaps of which one can be chosen. */
  lemma GapsExist(cfg: Config, id: string)
    requires StartsWith(id, "gap_") && id != ""
    ensures IsAnswer(OpenGap(id)) && Select(cfg, OpenGap(id)) == Ok(id)
  {
    hide IsAnswer, SelectGap, OpenGap, StartsWith;
    OpenGapIsSelected(GapQuery(cfg), id);
    OpenGapIsAnswer(id);
  }

  /** There are helpful servers: any that can do everything and either names a gap or lists them, and whose times the
      client understands. Their receipts may have any id, or none. */
  lemma HelpExists(cfg: Config, capabilities: Json, time: string, receiptId: string)
    requires capabilities.Obj? && IsComplete(cfg.readCapabilities(capabilities))
    requires time != "" && cfg.parseTime(time).Some?
    ensures exists h :: Helps(cfg, h) && h.capabilities == capabilities
                        && forall candidate :: Normalize(h.receipt, candidate, cfg.now).receiptId == receiptId
  {
    hide IsAnswer, CanonicalDigestOf, ClaimIdOf, RegistrationIdOf, ContextIdOf, ReadReceipt, IsFinished, Get, Encode,
         Field, IsComplete, Select, OpenGap, Normalize;
    var h := Help(capabilities, OpenGap("gap_1"), Field("current_canonical_digest", Str("d")),
                  Field("claim_id", Str("c")), Field("registration_id", Str("c")),
                  Field("governance_context_id", Str("c")), Encode(FairReceipt(time, receiptId)),
                  Field("status", Str("pending")));
    AnswersExist("c");
    GapsExist(cfg, "gap_1");
    ShortDigest();
    DigestExists("d");
    PendingExists();
    forall candidate
      ensures IsAnswer(h.receipt) && ReadReceipt(cfg, h.receipt, candidate).Ok?
      ensures Normalize(h.receipt, candidate, cfg.now).receiptId == receiptId
    {
      ReceiptExists(cfg, time, receiptId, candidate);
    }
    ReceiptExists(cfg, time, receiptId, "");
    assert Helps(cfg, h);
  }

  lemma ShortDigest()
    ensures Trim("d") == "d" && !StartsWith("d", "sha256:")
  {
  }
}
