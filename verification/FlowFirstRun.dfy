// The first run on a new repository, record by record and event by event: what a resume writes and asks for if the
// operator chose the gap and every call is answered at once.
module FlowFirstRun {
  import opened Json
  import opened Text
  import opened Options
  import opened GovernanceReceipts
  import opened ReplyFields
  import opened FlowState
  import opened FlowSpec
  import opened FlowHelp
  import opened FlowCompletion

  // ---- The script ----

  function Initialized(now: nat): Record {
    Record(now, now, now, "initialized", "", Unstarted, false, "", "", "", "", "", "", "", "", "", "", false,
           "", "", "", false, false, "", "", "", "", "", "", "")
  }

  /** The seven records that are saved, one after the other. */
  function WithGap(r: Record, gap: string): Record {
    r.(gapId := gap, gapSource := "operator --gap-id", status := "gap_resolved", step := GapResolved,
       updatedAt := r.updatedAt + 1)
  }

  function WithClaim(r: Record, h: Help): Record {
    r.(claimId := ClaimIdOf(h.claim), claimRef := ClaimRefOf(h.claim), claimDigest := CanonicalDigestOf(h.digest),
       status := "claim_succeeded", step := ClaimSucceeded, updatedAt := r.updatedAt + 1)
  }

  function WithRegistration(r: Record, h: Help): Record {
    r.(registrationId := RegistrationIdOf(h.registration), status := "context_created", step := ContextCreated,
       updatedAt := r.updatedAt + 1)
  }

  function WithContext(r: Record, h: Help): Record {
    r.(contextId := ContextIdOf(h.context), status := "context_compiled", step := ContextCompiled,
       updatedAt := r.updatedAt + 1)
  }

  function WithCandidate(r: Record, candidate: string): Record {
    r.(candidate := candidate, updatedAt := r.updatedAt + 1)
  }

  /** The receipt's own status takes the place of the record's; its time is the parsed one. */
  function WithReceiptOf(r: Record, x: Receipt, time: string): Record {
    r.(step := ReceiptReady, terminal := true, liveConfirmed := true,
       digest := x.digest, status := x.status, message := x.message, realizedAt := time, governed := x.governed,
       eventSpineEvidence := x.eventSpineEvidence, verdict := x.verdict, driftState := x.driftState,
       contextId := x.contextId, mcpEventId := x.mcpEventId, proofId := x.proofId, receiptId := x.receiptId,
       passportDigest := x.passportDigest, trustDigest := x.trustDigest, updatedAt := r.updatedAt + 1)
  }

  /** A save in two writes. */
  function Save(before: Option<Record>, r: Record): seq<Event> {
    [Saved(before, r), Filed(r)]
  }

  function Exchange(request: Request, latest: Record, body: Json): seq<Event> {
    [Sent(request, Some(latest)), Got(Says(body))]
  }

  /** The client between two phases: it holds the saved record, and these answers are still to come. */
  predicate Stands(s: Sys, r: Record, tape: seq<Reply>) {
    s.mem.rec == Some(r) && s.disk.latest == Some(r) && s.tape == tape && s.clock == r.updatedAt + 1
  }

  /** It holds the operator's gap. */
  predicate KnowsGap(cfg: Config, s: Sys, h: Help) {
    && s.mem.resolvedGap == cfg.operatorGap && s.mem.gapSource == "operator --gap-id" && s.mem.gapVerified
    && s.mem.capabilities == cfg.readCapabilities(h.capabilities)
  }

  predicate Chooses(cfg: Config) {
    IsReady(cfg) && cfg.operatorGap != "" && StartsWith(cfg.operatorGap, "gap_")
  }

  // ---- Phase by phase ----

  lemma OpeningWrites(cfg: Config, s: Sys)
    requires s.disk.latest.None? && s.mem == FRESH_MEMORY && cfg.declarationReads
    ensures var o, r := Open(cfg, s, true), Initialized(s.clock);
      && o.out == Ok(()) && Stands(o.sys, r, s.tape) && o.sys.mem == FRESH_MEMORY.(rec := Some(r))
      && o.sys.trace == s.trace + Save(None, r)
  {
  }

  lemma ServerIsAsked(cfg: Config, s: Sys, r: Record, h: Help, rest: seq<Reply>)
    requires Stands(s, r, [Says(h.capabilities)] + rest) && Helps(cfg, h) && !r.HasRun()
    requires s.mem == FRESH_MEMORY.(rec := Some(r))
    ensures var d := DiscoverAndRecover(cfg, s);
      && d.out == Ok(()) && Stands(d.sys, r, rest)
      && d.sys.mem == FRESH_MEMORY.(rec := Some(r), capabilities := cfg.readCapabilities(h.capabilities))
      && d.sys.trace == s.trace + Exchange(ReadCapabilities, r, h.capabilities)
  {
    hide Helps, IsComplete, AsObject, PollPaths, IsAnswer;
    ServerIsDiscovered(cfg, s, h, rest);
    DiscoveryIsExchange(cfg, s, r, h, rest);
    hide Discover, Exchange;
  }

  lemma DiscoveryIsExchange(cfg: Config, s: Sys, r: Record, h: Help, rest: seq<Reply>)
    requires Stands(s, r, [Says(h.capabilities)] + rest)
    ensures var d := Discover(cfg, s).sys;
      d.disk == s.disk && d.clock == s.clock && d.trace == s.trace + Exchange(ReadCapabilities, r, h.capabilities)
  {
    hide AsObject;
    assert s.trace + [Sent(ReadCapabilities, Some(r))] + [Got(Says(h.capabilities))]
           == s.trace + Exchange(ReadCapabilities, r, h.capabilities);
  }

  lemma GapIsTaken(cfg: Config, s: Sys, r: Record, h: Help)
    requires Stands(s, r, s.tape) && Chooses(cfg) && !r.HasGap() && !r.terminal
    requires s.mem.capabilities == cfg.readCapabilities(h.capabilities)
    ensures var g, r' := EnsureGap(cfg, s), WithGap(r, cfg.operatorGap);
      && g.out == Ok(()) && Stands(g.sys, r', s.tape) && KnowsGap(cfg, g.sys, h)
      && g.sys.trace == s.trace + ([Resolved(cfg.operatorGap)] + Save(Some(r), r'))
  {
    hide StartsWith;
    assert s.trace + [Resolved(cfg.operatorGap)] + Save(Some(r), WithGap(r, cfg.operatorGap))
           == s.trace + ([Resolved(cfg.operatorGap)] + Save(Some(r), WithGap(r, cfg.operatorGap)));
  }

  /** One call that is answered at once. */
  lemma CallIsExchange(s: Sys, r: Record, request: Request, body: Json, rest: seq<Reply>)
    requires Stands(s, r, [Says(body)] + rest)
    ensures var s' := Exchanged(s, request, body, rest);
      && Stands(s', r, rest) && s'.mem == s.mem && s'.trace == s.trace + Exchange(request, r, body)
  {
  }

  /** A save of the record with one more step. */
  lemma SaveStands(s: Sys, r: Record, r': Record)
    requires Stands(s, r, s.tape) && r'.updatedAt == s.clock
    ensures var s' := Persist(s, r');
      && Stands(s', r', s.tape) && s'.mem == s.mem.(rec := Some(r')) && s'.trace == s.trace + Save(Some(r), r')
  {
  }

  lemma Joined(trace: seq<Event>, a: seq<Event>, b: seq<Event>)
    ensures trace + a + b == trace + (a + b)
  {
  }

  function ClaimEvents(cfg: Config, r: Record, h: Help): seq<Event> {
    Exchange(ReadCanonicalDigest, r, h.digest)
    + ([Resolved(cfg.operatorGap)] + (Exchange(ClaimGap(cfg.operatorGap), r, h.claim) + Save(Some(r), WithClaim(r, h))))
  }

  lemma ClaimIsPreparedAtOnce(cfg: Config, s: Sys, r: Record, h: Help, rest: seq<Reply>)
    requires Chooses(cfg) && Helps(cfg, h) && KnowsGap(cfg, s, h) && Stands(s, r, [Says(h.digest)] + rest)
    ensures var p := PrepareClaim(cfg, s);
      && p.out == Ok((cfg.operatorGap, CanonicalDigestOf(h.digest))) && Stands(p.sys, r, rest)
      && p.sys.mem == s.mem
      && p.sys.trace == s.trace + (Exchange(ReadCanonicalDigest, r, h.digest) + [Resolved(cfg.operatorGap)])
  {
    hide StartsWith, CanonicalDigestOf, Helps, CanonicalDigest, Exchanged, IsReady, IsAnswer, CallAndSettle, Exchange,
         ReadReceipt, ClaimIdOf, RegistrationIdOf, ContextIdOf;
    HelpfulClaims(cfg, h);
    DigestIsRead(s, h, rest);
    CallIsExchange(s, r, ReadCanonicalDigest, h.digest, rest);
    Joined(s.trace, Exchange(ReadCanonicalDigest, r, h.digest), [Resolved(cfg.operatorGap)]);
  }

  lemma HelpfulClaims(cfg: Config, h: Help)
    requires Helps(cfg, h)
    ensures cfg.readCapabilities(h.capabilities).canClaim && CanonicalDigestOf(h.digest) != ""
    ensures IsAnswer(h.digest) && IsAnswer(h.claim) && ClaimIdOf(h.claim) != ""
    ensures IsAnswer(h.registration) && !TripsReader(h.registration) && RegistrationIdOf(h.registration) != ""
    ensures IsAnswer(h.context) && ContextIdOf(h.context) != "" && IsAnswer(h.receipt)
    ensures forall candidate :: ReadReceipt(cfg, h.receipt, candidate).Ok?
  {
    hide IsAnswer, CanonicalDigestOf, ClaimIdOf, RegistrationIdOf, ContextIdOf, ReadReceipt, Select;
  }

  lemma ClaimIsTaken(cfg: Config, s: Sys, r: Record, h: Help, rest: seq<Reply>)
    requires Chooses(cfg) && Helps(cfg, h) && KnowsGap(cfg, s, h) && !r.HasClaim()
    requires r.gapId == cfg.operatorGap && r.gapSource == "operator --gap-id" && !r.terminal
    requires Stands(s, r, [Says(h.digest)] + ([Says(h.claim)] + rest))
    ensures var c := EnsureClaim(cfg, s);
      && c.out == Ok(()) && Stands(c.sys, WithClaim(r, h), rest)
      && c.sys.trace == s.trace + ClaimEvents(cfg, r, h)
  {
    hide Helps, CanonicalDigestOf, ClaimIdOf, ClaimRefOf, RegistrationIdOf, ContextIdOf, ReadReceipt, PrepareClaim,
         CallAndSettle, Exchanged, Persist, IsAnswer, Chooses, Save, Exchange, Claimed, WithClaim;
    ClaimIsPreparedAtOnce(cfg, s, r, h, [Says(h.claim)] + rest);
    var p := PrepareClaim(cfg, s).sys;
    HelpfulClaims(cfg, h);
    ClaimIsSent(p, r, cfg.operatorGap, h, rest);
    ClaimedIs(r, cfg.operatorGap, h);
    var s1 := Exchanged(p, ClaimGap(cfg.operatorGap), h.claim, rest);
    CallIsExchange(p, r, ClaimGap(cfg.operatorGap), h.claim, rest);
    SaveStands(s1, r, WithClaim(r, h));
    SameSave(s1, Claimed(r, ClaimOf(cfg.operatorGap, h)), WithClaim(r, h));
    var asked, given := Exchange(ReadCanonicalDigest, r, h.digest), [Resolved(cfg.operatorGap)];
    var made, saved := Exchange(ClaimGap(cfg.operatorGap), r, h.claim), Save(Some(r), WithClaim(r, h));
    JoinedFour(s.trace, asked, given, made, saved);
  }

  lemma JoinedFour(trace: seq<Event>, a: seq<Event>, b: seq<Event>, c: seq<Event>, d: seq<Event>)
    ensures trace + (a + b) + c + d == trace + (a + (b + (c + d)))
  {
  }

  function ClaimOf(gap: string, h: Help): Claim {
    Claim(ClaimIdOf(h.claim), ClaimRefOf(h.claim), gap, "operator --gap-id", CanonicalDigestOf(h.digest))
  }

  lemma ClaimIsSent(s: Sys, r: Record, gap: string, h: Help, rest: seq<Reply>)
    requires IsAnswer(h.claim) && ClaimIdOf(h.claim) != "" && s.mem.gapSource == "operator --gap-id"
    requires Stands(s, r, [Says(h.claim)] + rest)
    ensures SendClaim(s, gap, CanonicalDigestOf(h.digest))
            == Run(Exchanged(s, ClaimGap(gap), h.claim, rest), Ok(ClaimOf(gap, h)))
  {
    hide IsAnswer, ClaimIdOf, ClaimRefOf, CallAndSettle, CanonicalDigestOf;
    AnswerIsTaken(s, ClaimGap(gap), Claiming, h.claim, rest);
  }

  lemma ClaimedIs(r: Record, gap: string, h: Help)
    requires r.gapId == gap && r.gapSource == "operator --gap-id" && !r.terminal
    ensures Claimed(r, ClaimOf(gap, h)).(updatedAt := r.updatedAt + 1) == WithClaim(r, h)
    ensures WithClaim(r, h).updatedAt == r.updatedAt + 1
  {
    hide ClaimIdOf, ClaimRefOf, CanonicalDigestOf;
  }

  /** A save sets the time stamp itself. */
  lemma SameSave(s: Sys, r: Record, r': Record)
    requires r' == r.(updatedAt := s.clock)
    ensures Persist(s, r) == Persist(s, r')
  {
  }

  function RegistrationEvents(r: Record, h: Help): seq<Event> {
    Exchange(RegisterRepo(r.gapId, r.claimId, r.claimRef), r, h.registration) + Save(Some(r), WithRegistration(r, h))
  }

  lemma RegistrationIsTaken(cfg: Config, s: Sys, r: Record, h: Help, rest: seq<Reply>)
    requires Helps(cfg, h) && r.claimDigest != "" && !r.HasRegistration() && !r.terminal
    requires Stands(s, r, [Says(h.registration)] + rest)
    ensures var x := EnsureRegistration(s);
      && x.out == Ok(()) && Stands(x.sys, WithRegistration(r, h), rest)
      && x.sys.trace == s.trace + RegistrationEvents(r, h)
  {
    hide Helps, ContextIdOf, ClaimIdOf, RegistrationIdOf, CanonicalDigestOf, ReadReceipt, CanonicalDigest,
         CallAndSettle, Exchanged, Persist, IsAnswer, Save, Exchange, Registered, WithRegistration;
    HelpfulClaims(cfg, h);
    var request := RegisterRepo(r.gapId, r.claimId, r.claimRef);
    AnswerIsTaken(s, request, Registering, h.registration, rest);
    CallIsExchange(s, r, request, h.registration, rest);
    var s1 := Exchanged(s, request, h.registration, rest);
    RegisteredIs(r, h);
    SaveStands(s1, r, WithRegistration(r, h));
    SameSave(s1, Registered(r, Registration(RegistrationIdOf(h.registration), r.claimDigest)), WithRegistration(r, h));
    Joined(s.trace, Exchange(request, r, h.registration), Save(Some(r), WithRegistration(r, h)));
  }

  lemma RegisteredIs(r: Record, h: Help)
    requires !r.terminal
    ensures Registered(r, Registration(RegistrationIdOf(h.registration), r.claimDigest)).(updatedAt := r.updatedAt + 1)
            == WithRegistration(r, h)
    ensures WithRegistration(r, h).updatedAt == r.updatedAt + 1
  {
    hide RegistrationIdOf;
  }

  function ContextEvents(r: Record, h: Help): seq<Event> {
    Exchange(ReadCanonicalDigest, r, h.digest)
    + (Exchange(CompileContext(r.registrationId), r, h.context) + Save(Some(r), WithContext(r, h)))
  }

  lemma CompiledIsTaken(cfg: Config, s: Sys, r: Record, h: Help, rest: seq<Reply>)
    requires Helps(cfg, h) && !r.HasContext() && !r.terminal
    requires Stands(s, r, [Says(h.digest)] + ([Says(h.context)] + rest))
    ensures var x := EnsureContext(s);
      && x.out == Ok(()) && Stands(x.sys, WithContext(r, h), rest)
      && x.sys.trace == s.trace + ContextEvents(r, h)
  {
    hide Helps, ContextIdOf, ClaimIdOf, RegistrationIdOf, CanonicalDigestOf, ReadReceipt, CanonicalDigest,
         CallAndSettle, Exchanged, Persist, IsAnswer, Save, Exchange, Compiled, WithContext;
    HelpfulClaims(cfg, h);
    var after := [Says(h.context)] + rest;
    DigestIsRead(s, h, after);
    CallIsExchange(s, r, ReadCanonicalDigest, h.digest, after);
    var s1 := Exchanged(s, ReadCanonicalDigest, h.digest, after);
    var request := CompileContext(r.registrationId);
    AnswerIsTaken(s1, request, Compiling, h.context, rest);
    CallIsExchange(s1, r, request, h.context, rest);
    var s2 := Exchanged(s1, request, h.context, rest);
    CompiledIs(r, h);
    SaveStands(s2, r, WithContext(r, h));
    SameSave(s2, Compiled(r, ContextIdOf(h.context)), WithContext(r, h));
    JoinedThree(s.trace, Exchange(ReadCanonicalDigest, r, h.digest), Exchange(request, r, h.context),
                Save(Some(r), WithContext(r, h)));
  }

  lemma JoinedThree(trace: seq<Event>, a: seq<Event>, b: seq<Event>, c: seq<Event>)
    ensures trace + a + b + c == trace + (a + (b + c))
  {
  }

  lemma CompiledIs(r: Record, h: Help)
    requires !r.terminal
    ensures Compiled(r, ContextIdOf(h.context)).(updatedAt := r.updatedAt + 1) == WithContext(r, h)
    ensures WithContext(r, h).updatedAt == r.updatedAt + 1
  {
    hide ContextIdOf;
  }

  /** The receipt as the client reads it, and its time. */
  function ReceiptRead(cfg: Config, r: Record, h: Help): Receipt {
    Normalize(h.receipt, r.candidate, cfg.now)
  }

  function LastRecord(cfg: Config, r: Record, h: Help): Record {
    var x := ReceiptRead(cfg, r, h);
    var time := cfg.parseTime(x.realizedAt);
    WithReceiptOf(r, x, if time.Some? then time.value else "")
  }

  function RealizeEvents(cfg: Config, r: Record, h: Help): seq<Event> {
    var c := WithCandidate(r, cfg.candidateFor(r.contextId));
    Save(Some(r), c)
    + (Exchange(Realize(r.contextId, c.candidate), c, h.receipt) + Save(Some(c), LastRecord(cfg, c, h)))
  }

  lemma ReceiptIsTaken(cfg: Config, s: Sys, r: Record, h: Help)
    requires IsReady(cfg) && Helps(cfg, h) && !r.IsSettled() && !r.HasRun() && Stands(s, r, [Says(h.receipt)])
    ensures var x, c := EnsureReceipt(cfg, s), WithCandidate(r, cfg.candidateFor(r.contextId));
      && x.out == Ok(()) && Stands(x.sys, LastRecord(cfg, c, h), [])
      && x.sys.trace == s.trace + RealizeEvents(cfg, r, h)
  {
    hide Helps, CallAndSettle, Exchanged, Persist, IsAnswer, Save, Exchange, ReadReceipt, LastRecord, Receipted,
         WithCandidate, Normalize, ClaimIdOf, RegistrationIdOf, ContextIdOf, CanonicalDigestOf;
    HelpfulClaims(cfg, h);
    var c := WithCandidate(r, cfg.candidateFor(r.contextId));
    CandidateIs(r, cfg.candidateFor(r.contextId));
    var request := Realize(r.contextId, c.candidate);
    SaveStands(s, r, c);
    SameSave(s, r.(candidate := c.candidate), c);
    var s1 := Persist(s, c);
    assert [Says(h.receipt)] + [] == [Says(h.receipt)];
    AnswerIsTaken(s1, request, Realizing, h.receipt, []);
    CallIsExchange(s1, c, request, h.receipt, []);
    var s2 := Exchanged(s1, request, h.receipt, []);
    ReceiptReads(cfg, c, h);
    SaveStands(s2, c, LastRecord(cfg, c, h));
    SameSave(s2, Receipted(c, ReadReceipt(cfg, h.receipt, c.candidate).value), LastRecord(cfg, c, h));
    JoinedThree(s.trace, Save(Some(r), c), Exchange(request, c, h.receipt), Save(Some(c), LastRecord(cfg, c, h)));
  }

  lemma CandidateIs(r: Record, candidate: string)
    ensures var c := WithCandidate(r, candidate);
      && c.candidate == candidate && c.updatedAt == r.updatedAt + 1 && c.HasRun() == r.HasRun()
      && c.contextId == r.contextId && r.(candidate := candidate).(updatedAt := r.updatedAt + 1) == c
  {
  }

  lemma ReceiptReads(cfg: Config, c: Record, h: Help)
    requires Helps(cfg, h) && !c.HasRun()
    ensures var receipt := ReadReceipt(cfg, h.receipt, c.candidate);
      receipt.Ok? && Receipted(c, receipt.value).(updatedAt := c.updatedAt + 1) == LastRecord(cfg, c, h)
    ensures LastRecord(cfg, c, h).updatedAt == c.updatedAt + 1
  {
    hide Helps, Normalize, IsConfirmed, ReadReceipt, ClaimIdOf, RegistrationIdOf, ContextIdOf, CanonicalDigestOf,
         IsAnswer;
    HelpfulClaims(cfg, h);
    ReceiptIsRead(cfg, h.receipt, c.candidate);
  }

  lemma ReceiptIsRead(cfg: Config, data: Json, candidate: string)
    requires ReadReceipt(cfg, data, candidate).Ok?
    ensures var x := Normalize(data, candidate, cfg.now);
      && cfg.parseTime(x.realizedAt).Some?
      && ReadReceipt(cfg, data, candidate).value == x.(realizedAt := cfg.parseTime(x.realizedAt).value)
  {
    hide Normalize, IsConfirmed;
  }

  // ---- The whole run ----

  /** The record with gap, claim, registration and context. */
  function Complete(cfg: Config, now: nat, h: Help): Record {
    WithContext(WithRegistration(WithClaim(WithGap(Initialized(now), cfg.operatorGap), h), h), h)
  }

  lemma RecordsGrow(cfg: Config, now: nat, h: Help)
    requires Chooses(cfg) && Helps(cfg, h)
    ensures var r0 := Initialized(now);
      var r1 := WithGap(r0, cfg.operatorGap);
      var r2 := WithClaim(r1, h);
      var r3 := WithRegistration(r2, h);
      var r4 := WithContext(r3, h);
      && !r0.HasGap() && !r0.terminal && !r0.HasRun()
      && r1.gapId == cfg.operatorGap && r1.gapSource == "operator --gap-id" && !r1.HasClaim() && !r1.terminal
      && r2.claimDigest != "" && !r2.HasRegistration() && !r2.terminal
      && !r3.HasContext() && !r3.terminal
      && !r4.IsSettled() && !r4.HasRun()
  {
    hide Helps, ClaimIdOf, ClaimRefOf, RegistrationIdOf, ContextIdOf, CanonicalDigestOf, IsAnswer, ReadReceipt;
    HelpfulClaims(cfg, h);
  }

  function PhaseAnswers(h: Help): seq<Reply> {
    [Says(h.digest)] + ([Says(h.claim)]
    + ([Says(h.registration)]
    + ([Says(h.digest)] + ([Says(h.context)] + [Says(h.receipt)]))))
  }

  function PhaseEvents(cfg: Config, r0: Record, h: Help): seq<Event> {
    var r1 := WithGap(r0, cfg.operatorGap);
    var r2 := WithClaim(r1, h);
    var r3 := WithRegistration(r2, h);
    ([Resolved(cfg.operatorGap)] + Save(Some(r0), r1))
    + (ClaimEvents(cfg, r1, h)
    + (RegistrationEvents(r2, h)
    + (ContextEvents(r3, h) + RealizeEvents(cfg, WithContext(r3, h), h))))
  }

  lemma PhasesWrite(cfg: Config, s: Sys, now: nat, h: Help)
    requires Chooses(cfg) && Helps(cfg, h) && Stands(s, Initialized(now), PhaseAnswers(h))
    requires s.mem.capabilities == cfg.readCapabilities(h.capabilities)
    ensures var a, c := Advance(cfg, s), Complete(cfg, now, h);
      && a.out == Ok(()) && Stands(a.sys, LastRecord(cfg, WithCandidate(c, cfg.candidateFor(c.contextId)), h), [])
      && a.sys.trace == s.trace + PhaseEvents(cfg, Initialized(now), h)
  {
    hide Helps, Chooses, Stands, KnowsGap, Initialized, WithGap, WithClaim, WithRegistration, WithContext,
         WithCandidate, LastRecord, Save, ClaimEvents, RegistrationEvents, ContextEvents, RealizeEvents, EnsureGap,
         EnsureClaim, EnsureRegistration, EnsureContext, EnsureReceipt, IsReady;
    RecordsGrow(cfg, now, h);
    ChoosesIsReady(cfg);
    var r0 := Initialized(now);
    var r1 := WithGap(r0, cfg.operatorGap);
    var r2 := WithClaim(r1, h);
    var r3 := WithRegistration(r2, h);
    var r4 := WithContext(r3, h);
    StandsOn(s, r0, PhaseAnswers(h));
    GapIsTaken(cfg, s, r0, h);
    var g := EnsureGap(cfg, s).sys;
    var forContext := [Says(h.digest)] + ([Says(h.context)] + [Says(h.receipt)]);
    ClaimIsTaken(cfg, g, r1, h, [Says(h.registration)] + forContext);
    var c := EnsureClaim(cfg, g).sys;
    RegistrationIsTaken(cfg, c, r2, h, forContext);
    var x := EnsureRegistration(c).sys;
    CompiledIsTaken(cfg, x, r3, h, [Says(h.receipt)]);
    var y := EnsureContext(x).sys;
    ReceiptIsTaken(cfg, y, r4, h);
    JoinedFive(s.trace, [Resolved(cfg.operatorGap)] + Save(Some(r0), r1), ClaimEvents(cfg, r1, h),
               RegistrationEvents(r2, h), ContextEvents(r3, h), RealizeEvents(cfg, r4, h));
  }

  lemma StandsOn(s: Sys, r: Record, tape: seq<Reply>)
    requires Stands(s, r, tape)
    ensures s.tape == tape && Stands(s, r, s.tape) && s.mem.rec == Some(r) && s.disk.latest == Some(r)
  {
  }

  lemma JoinedFive(trace: seq<Event>, a: seq<Event>, b: seq<Event>, c: seq<Event>, d: seq<Event>, e: seq<Event>)
    ensures trace + a + b + c + d + e == trace + (a + (b + (c + (d + e))))
  {
  }

  /** Everything that can be seen of the run, in order. */
  function FirstEvents(cfg: Config, now: nat, h: Help): seq<Event> {
    var r0 := Initialized(now);
    Save(None, r0) + (Exchange(ReadCapabilities, r0, h.capabilities) + PhaseEvents(cfg, r0, h))
  }

  /**
   * The first run on a new repository: exactly these records are saved, exactly these requests leave, each with these
   * arguments and over the record that is on the disk then, and the last record is the one that is returned.
   */
  lemma FirstRunIsWritten(cfg: Config, s: Sys, h: Help)
    requires s.disk.latest.None? && s.mem == FRESH_MEMORY && Chooses(cfg) && Helps(cfg, h)
    requires s.tape == [Says(h.capabilities)] + PhaseAnswers(h)
    ensures var r, c := Resume(cfg, s, true), Complete(cfg, s.clock, h);
      && r.out == Ok(LastRecord(cfg, WithCandidate(c, cfg.candidateFor(c.contextId)), h))
      && r.sys.disk.latest == Some(r.out.value) && r.sys.tape == []
      && r.sys.trace == s.trace + FirstEvents(cfg, s.clock, h)
  {
    hide Helps, Chooses, Stands, Initialized, LastRecord, Save, Exchange, PhaseEvents, PhaseAnswers, Complete, Open,
         DiscoverAndRecover, Advance, WithCandidate, IsReady;
    ChoosesIsReady(cfg);
    var r0 := Initialized(s.clock);
    InitializedHasNoRun(s.clock);
    OpeningWrites(cfg, s);
    var o := Open(cfg, s, true).sys;
    ServerIsAsked(cfg, o, r0, h, PhaseAnswers(h));
    var d := DiscoverAndRecover(cfg, o).sys;
    PhasesWrite(cfg, d, s.clock, h);
    var a := Advance(cfg, d).sys;
    var c := Complete(cfg, s.clock, h);
    StandsOn(a, LastRecord(cfg, WithCandidate(c, cfg.candidateFor(c.contextId)), h), []);
    JoinedThree(s.trace, Save(None, r0), Exchange(ReadCapabilities, r0, h.capabilities), PhaseEvents(cfg, r0, h));
  }

  lemma InitializedHasNoRun(now: nat)
    ensures !Initialized(now).HasRun()
  {
  }

  lemma ChoosesIsReady(cfg: Config)
    requires Chooses(cfg)
    ensures IsReady(cfg) && cfg.declarationReads
  {
  }
}
