// No death leaves the flow stuck: from every reachable state a helpful server can bring it to its end.
module FlowCompletion {
  import opened Json
  import opened Text
  import opened Options
  import opened GovernanceReceipts
  import opened ReplyFields
  import opened FlowState
  import opened FlowSpec
  import opened FlowSafety
  import opened FlowLimits
  import opened FlowRequests
  import opened FlowPolls
  import opened FlowHelp

  /** The client's own side: the repository reads, its gate passes, and gap ids from outside are canonical. */
  predicate IsReady(cfg: Config) {
    && cfg.declarationReads && cfg.gate.GatePasses?
    && (cfg.operatorGap != "" ==> StartsWith(cfg.operatorGap, "gap_"))
    && (cfg.envGap != "" ==> StartsWith(cfg.envGap, "gap_"))
  }

  // ---- What the server is asked from here ----

  /** Neither operator nor environment nor capabilities name the gap: it has to be looked for in the list. */
  predicate Discovers(cfg: Config, c: Capabilities) {
    cfg.operatorGap == "" && cfg.envGap == "" && c.gapId == ""
  }

  function GapScript(cfg: Config, r: Record, h: Help): seq<Reply> {
    if r.HasClaim() || !Discovers(cfg, cfg.readCapabilities(h.capabilities)) then [] else [Says(h.gaps)]
  }

  function ClaimScript(r: Record, h: Help): seq<Reply> {
    if r.HasClaim() then [] else [Says(h.digest), Says(h.claim)]
  }

  function RegistrationScript(r: Record, h: Help): seq<Reply> {
    if r.HasRegistration() then []
    else (if r.claimDigest == "" then [Says(h.digest)] else []) + [Says(h.registration)]
  }

  function ContextScript(r: Record, h: Help): seq<Reply> {
    if r.HasContext() then [] else [Says(h.digest), Says(h.context)]
  }

  function ReceiptScript(r: Record, h: Help): seq<Reply> {
    if r.IsSettled() then [] else [Says(h.receipt)]
  }

  /** The same for what follows a claim that is still to be made. */
  function AfterClaim(r: Record, h: Help): Record {
    if r.HasClaim() then r else r.(claimDigest := CanonicalDigestOf(h.digest))
  }

  function AdvanceScript(cfg: Config, r: Record, h: Help): seq<Reply> {
    GapScript(cfg, r, h)
    + (ClaimScript(r, h) + (RegistrationScript(AfterClaim(r, h), h) + (ContextScript(r, h) + ReceiptScript(r, h))))
  }

  function PollScript(polls: nat, h: Help): (tape: seq<Reply>)
    ensures |tape| == polls
  {
    seq(polls, i => Says(h.pending))
  }

  /** The record that a session begins with. */
  function FirstRecord(s: Sys): Record {
    if s.disk.latest.Some? then s.disk.latest.value else NewRecord(s.clock)
  }

  /** All that a helpful server is asked in one resume; while the saved run is pending, the phases are gone through
      again. */
  function Script(cfg: Config, r: Record, h: Help): seq<Reply> {
    [Says(h.capabilities)] + (PollScript(Polls(r), h) + AdvanceScript(cfg, r, h))
  }

  // ---- One call ----

  /** A request went out and this body came back. */
  function Exchanged(s: Sys, request: Request, body: Json, rest: seq<Reply>): Sys {
    Log(Log(s, Sent(request, s.disk.latest)), Got(Says(body))).(tape := rest)
  }

  lemma AnswerIsTaken(s: Sys, request: Request, action: Action, body: Json, rest: seq<Reply>)
    requires IsAnswer(body) && s.tape == [Says(body)] + rest
    ensures CallAndSettle(s, request, action)
            == Run(Exchanged(s, request, body, rest), Ok(body))
  {
    hide RunStatus, IsActive;
    assert s.tape[1..] == rest;
  }

  lemma DigestIsRead(s: Sys, h: Help, rest: seq<Reply>)
    requires IsAnswer(h.digest) && s.tape == [Says(h.digest)] + rest
    ensures CanonicalDigest(s)
            == Run(Exchanged(s, ReadCanonicalDigest, h.digest, rest), Ok(CanonicalDigestOf(h.digest)))
  {
    hide CanonicalDigestOf, RunStatus;
    assert s.tape[1..] == rest;
  }

  /** The list of gaps, asked for once. */
  lemma GapIsDiscovered(cfg: Config, s: Sys, h: Help, rest: seq<Reply>)
    requires s.mem.capabilities.canDiscoverGaps && s.tape == [Says(h.gaps)] + rest
    requires IsAnswer(h.gaps) && Select(cfg, h.gaps).Ok? && Select(cfg, h.gaps).value != ""
    ensures DiscoverGap(cfg, s)
            == Run(Exchanged(s, ListGaps(true), h.gaps, rest), Ok(Select(cfg, h.gaps).value))
  {
    AnswerIsTaken(s, ListGaps(true), Discovering, h.gaps, rest);
    hide CallAndSettle, Select, IsAnswer;
  }

  // ---- The phases ----

  /** A client that has discovered the server and holds a record. */
  predicate Equipped(cfg: Config, s: Sys, h: Help) {
    && s.mem.rec.Some? && IsReady(cfg)
    && s.mem.capabilities == cfg.readCapabilities(h.capabilities) && IsComplete(s.mem.capabilities)
    && IsAnswer(h.gaps) && Select(cfg, h.gaps).Ok? && Select(cfg, h.gaps).value != ""
  }

  /** What the later phases look at is as it was, and nothing is settled that was open. */
  predicate SameLaterOn(r: Record, r': Record) {
    && r'.registrationId == r.registrationId && r'.contextId == r.contextId && r'.receiptId == r.receiptId
    && (r'.IsSettled() ==> r.IsSettled())
  }

  /** The list of gaps, if the client has to look for one and holds none. */
  function ListScript(cfg: Config, s: Sys, h: Help): seq<Reply> {
    if s.mem.resolvedGap == "" && Discovers(cfg, s.mem.capabilities) then [Says(h.gaps)] else []
  }

  lemma GapResolves(cfg: Config, s: Sys, h: Help, rest: seq<Reply>)
    requires Equipped(cfg, s, h) && s.tape == ListScript(cfg, s, h) + rest
    ensures var r := ResolveGap(cfg, s);
      && r.out.Ok? && r.out.value != "" && r.sys.tape == rest && r.sys.mem.rec == s.mem.rec
      && r.sys.mem.capabilities == s.mem.capabilities && r.sys.mem.resolvedGap == r.out.value
      && (s.mem.resolvedGap == "" && Discovers(cfg, s.mem.capabilities) ==> r.sys.mem.gapVerified)
  {
    hide StartsWith, IsAnswer, Select, DiscoverGap;
    if s.mem.resolvedGap == "" && Discovers(cfg, s.mem.capabilities) {
      GapIsDiscovered(cfg, s, h, rest);
    } else {
      assert s.tape == rest;
    }
  }

  /** What is still to be read for the gap before a claim. */
  function RefreshScript(cfg: Config, s: Sys, h: Help): seq<Reply> {
    if !s.mem.gapVerified && Discovers(cfg, s.mem.capabilities) then [Says(h.gaps)] else []
  }

  /** A verified gap is one that the client holds. */
  predicate VerifiedIsHeld(s: Sys) {
    s.mem.gapVerified ==> s.mem.resolvedGap != ""
  }

  lemma MissingGapIsEnsured(cfg: Config, s: Sys, h: Help, rest: seq<Reply>)
    requires Equipped(cfg, s, h) && !Current(s).HasGap() && s.mem.resolvedGap == ""
    requires s.tape == ListScript(cfg, s, h) + rest
    ensures var r := EnsureGap(cfg, s);
      && r.out.Ok? && Equipped(cfg, r.sys, h) && Current(r.sys).HasGap()
      && r.sys.tape == RefreshScript(cfg, r.sys, h) + rest
      && SameLaterOn(Current(s), Current(r.sys))
      && !Current(r.sys).HasClaim() == !Current(s).HasClaim() && VerifiedIsHeld(r.sys)
  {
    GapResolves(cfg, s, h, rest);
    hide ResolveGap, IsReady, IsComplete, IsAnswer, Select;
    var r := EnsureGap(cfg, s).sys;
    assert RefreshScript(cfg, r, h) == [] && [] + rest == rest;
  }

  lemma GapIsRefreshed(cfg: Config, s: Sys, h: Help, rest: seq<Reply>)
    requires Equipped(cfg, s, h) && Current(s).HasGap() && s.tape == RefreshScript(cfg, s, h) + rest
    ensures var r := RefreshGap(cfg, s);
      && r.out.Ok? && Equipped(cfg, r.sys, h) && r.sys.tape == rest
      && (Discovers(cfg, r.sys.mem.capabilities) && r.sys.mem.resolvedGap == "" ==> s.mem.gapVerified)
      && SameLaterOn(Current(s), Current(r.sys))
      && (s.mem.gapVerified ==> r.sys == s)
  {
    var s0 := s.(mem := s.mem.(resolvedGap := ""));
    if !s.mem.gapVerified && cfg.operatorGap == "" {
      GapResolves(cfg, s0, h, rest);
    } else {
      assert s.tape == rest;
    }
    hide ResolveGap, IsReady, IsComplete, IsAnswer, Select;
  }

  lemma ClaimIsPrepared(cfg: Config, s: Sys, h: Help, rest: seq<Reply>)
    requires Equipped(cfg, s, h) && Helps(cfg, h) && Current(s).HasGap() && VerifiedIsHeld(s)
    requires s.tape == RefreshScript(cfg, s, h) + ([Says(h.digest)] + rest)
    ensures var p := PrepareClaim(cfg, s);
      && p.out.Ok? && Equipped(cfg, p.sys, h) && p.sys.tape == rest
      && SameLaterOn(Current(s), Current(p.sys))
      && p.out.value.0 != "" && p.out.value.1 == CanonicalDigestOf(h.digest)
  {
    hide RefreshGap, ResolveGap, CanonicalDigest, IsAnswer, CanonicalDigestOf, ClaimIdOf, ClaimRefOf, RegistrationIdOf,
         ContextIdOf, ReadReceipt, IsFinished, IsReady, Select, RefreshScript;
    GapIsRefreshed(cfg, s, h, [Says(h.digest)] + rest);
    var f := RefreshGap(cfg, s);
    DigestIsRead(f.sys, h, rest);
    var d := CanonicalDigest(f.sys);
    assert ListScript(cfg, d.sys, h) == [] && [] + rest == rest;
    GapResolves(cfg, d.sys, h, rest);
  }

  lemma ClaimIsMade(cfg: Config, s: Sys, h: Help, rest: seq<Reply>)
    requires Equipped(cfg, s, h) && Helps(cfg, h) && Current(s).HasGap() && VerifiedIsHeld(s)
    requires s.tape == RefreshScript(cfg, s, h) + ([Says(h.digest), Says(h.claim)] + rest)
    ensures var r := MakeClaim(cfg, s);
      && r.out.Ok? && Equipped(cfg, r.sys, h) && r.sys.tape == rest
      && SameLaterOn(Current(s), Current(r.sys))
      && r.out.value.claimId != "" && r.out.value.gapId != "" && r.out.value.digest == CanonicalDigestOf(h.digest)
  {
    hide PrepareClaim, CallAndSettle, IsAnswer, CanonicalDigestOf, ClaimIdOf, ClaimRefOf, RegistrationIdOf, ContextIdOf,
         ReadReceipt, IsFinished, IsReady, Select, RefreshScript;
    var after := [Says(h.claim)] + rest;
    assert [Says(h.digest), Says(h.claim)] + rest == [Says(h.digest)] + after;
    ClaimIsPrepared(cfg, s, h, after);
    var p := PrepareClaim(cfg, s);
    AnswerIsTaken(p.sys, ClaimGap(p.out.value.0), Claiming, h.claim, rest);
  }

  /** A client that is about to go through the phases. */
  predicate Ready(cfg: Config, s: Sys, h: Help) {
    && Equipped(cfg, s, h) && Inv(Current(s)) && !s.mem.gapVerified
    && (!Current(s).HasGap() ==> s.mem.resolvedGap == "")
  }

  lemma GapIsEnsured(cfg: Config, s: Sys, h: Help, rest: seq<Reply>)
    requires Ready(cfg, s, h) && s.tape == GapScript(cfg, Current(s), h) + rest
    ensures var r := EnsureGap(cfg, s);
      && r.out.Ok? && Equipped(cfg, r.sys, h) && Current(r.sys).HasGap() && VerifiedIsHeld(r.sys)
      && SameLaterOn(Current(s), Current(r.sys))
      && (if Current(s).HasClaim() then r.sys == s && r.sys.tape == rest
          else !Current(r.sys).HasClaim() && r.sys.tape == RefreshScript(cfg, r.sys, h) + rest)
  {
    if !Current(s).HasGap() {
      MissingGapIsEnsured(cfg, s, h, rest);
    } else if Current(s).HasClaim() {
      assert s.tape == rest;
    }
    hide IsReady, IsComplete, IsAnswer, Select, ResolveGap;
  }

  lemma ClaimIsEnsured(cfg: Config, s: Sys, h: Help, rest: seq<Reply>)
    requires Equipped(cfg, s, h) && Helps(cfg, h) && Current(s).HasGap() && VerifiedIsHeld(s)
    requires if Current(s).HasClaim() then s.tape == rest
             else s.tape == RefreshScript(cfg, s, h) + ([Says(h.digest), Says(h.claim)] + rest)
    ensures var r := EnsureClaim(cfg, s);
      && r.out.Ok? && Equipped(cfg, r.sys, h) && r.sys.tape == rest && Current(r.sys).HasClaim()
      && SameLaterOn(Current(s), Current(r.sys))
      && Current(r.sys).claimDigest == AfterClaim(Current(s), h).claimDigest
  {
    hide MakeClaim, Helps, CanonicalDigestOf, RefreshScript, IsReady, IsComplete, IsAnswer, Select;
    if !Current(s).HasClaim() {
      ClaimIsMade(cfg, s, h, rest);
    }
  }

  lemma RegistrationIsEnsured(cfg: Config, s: Sys, h: Help, rest: seq<Reply>)
    requires Equipped(cfg, s, h) && Helps(cfg, h) && s.tape == RegistrationScript(Current(s), h) + rest
    ensures var r := EnsureRegistration(s);
      && r.out.Ok? && Equipped(cfg, r.sys, h) && r.sys.tape == rest
      && Current(r.sys).contextId == Current(s).contextId && Current(r.sys).receiptId == Current(s).receiptId
      && (Current(r.sys).IsSettled() ==> Current(s).IsSettled())
  {
    hide CanonicalDigest, CallAndSettle, IsAnswer, CanonicalDigestOf, ClaimIdOf, RegistrationIdOf, ContextIdOf,
         ReadReceipt, IsFinished, Select, IsReady;
    var rec := Current(s);
    if rec.HasRegistration() {
      assert s.tape == rest;
    } else if rec.claimDigest == "" {
      var after := [Says(h.registration)] + rest;
      assert s.tape == [Says(h.digest)] + after;
      DigestIsRead(s, h, after);
      AnswerIsTaken(CanonicalDigest(s).sys, RegisterRepo(rec.gapId, rec.claimId, rec.claimRef), Registering,
                    h.registration, rest);
    } else {
      assert s.tape == [Says(h.registration)] + rest;
      AnswerIsTaken(s, RegisterRepo(rec.gapId, rec.claimId, rec.claimRef), Registering, h.registration, rest);
    }
  }

  lemma ContextIsEnsured(cfg: Config, s: Sys, h: Help, rest: seq<Reply>)
    requires Equipped(cfg, s, h) && Helps(cfg, h) && s.tape == ContextScript(Current(s), h) + rest
    ensures var r := EnsureContext(s);
      && r.out.Ok? && Equipped(cfg, r.sys, h) && r.sys.tape == rest
      && Current(r.sys).receiptId == Current(s).receiptId
      && (Current(r.sys).IsSettled() ==> Current(s).IsSettled())
  {
    hide CanonicalDigest, CallAndSettle, IsAnswer, CanonicalDigestOf, ClaimIdOf, RegistrationIdOf, ContextIdOf,
         ReadReceipt, IsFinished, Select, IsReady;
    if Current(s).HasContext() {
      assert s.tape == rest;
    } else {
      var after := [Says(h.context)] + rest;
      assert s.tape == [Says(h.digest)] + after;
      DigestIsRead(s, h, after);
      AnswerIsTaken(CanonicalDigest(s).sys, CompileContext(Current(s).registrationId), Compiling, h.context, rest);
    }
  }

  /** The receipt that the server sends ends up in the record. */
  lemma ReceiptIsEnsured(cfg: Config, s: Sys, h: Help, rest: seq<Reply>)
    requires Equipped(cfg, s, h) && Helps(cfg, h)
    requires !Current(s).IsSettled() && s.tape == [Says(h.receipt)] + rest
    ensures var r, candidate := EnsureReceipt(cfg, s), cfg.candidateFor(Current(s).contextId);
      && r.out.Ok? && r.sys.mem.rec.Some? && Current(r.sys).terminal
      && Current(r.sys).receiptId == Normalize(h.receipt, candidate, cfg.now).receiptId
      && Current(r.sys).contextId == Normalize(h.receipt, candidate, cfg.now).contextId
      && !Current(r.sys).HasRun() && Current(r.sys).registrationId == Current(s).registrationId
  {
    hide CallAndSettle, IsAnswer, CanonicalDigestOf, ClaimIdOf, RegistrationIdOf, ContextIdOf, IsFinished, Normalize,
         Select, IsConfirmed;
    var contextId := Current(s).contextId;
    var candidate := cfg.candidateFor(contextId);
    var s1 := Persist(s, Current(s).(candidate := candidate));
    AnswerIsTaken(s1, Realize(contextId, candidate), Realizing, h.receipt, rest);
    assert ReadReceipt(cfg, h.receipt, candidate).Ok?;
  }

  // ---- All phases ----

  /** The script of all phases, taken apart. */
  lemma PhasesFinish(cfg: Config, s: Sys, h: Help, forRegistration: seq<Reply>, forContext: seq<Reply>,
                     forReceipt: seq<Reply>)
    requires Ready(cfg, s, h) && Helps(cfg, h) && !Current(s).IsSettled()
    requires s.tape == GapScript(cfg, Current(s), h) + (ClaimScript(Current(s), h) + forRegistration)
    requires forRegistration == RegistrationScript(AfterClaim(Current(s), h), h) + forContext
    requires forContext == ContextScript(Current(s), h) + forReceipt
    requires forReceipt == ReceiptScript(Current(s), h)
    ensures Advance(cfg, s).out.Ok?
  {
    hide Ready, Helps, EnsureGap, EnsureClaim, EnsureRegistration, EnsureContext, EnsureReceipt, IsReady, IsComplete,
         CanonicalDigestOf, Equipped, RefreshScript, GapScript, Normalize, VerifiedIsHeld;
    GapIsEnsured(cfg, s, h, ClaimScript(Current(s), h) + forRegistration);
    var g := EnsureGap(cfg, s);
    assert Current(s).HasClaim() ==> [] + forRegistration == forRegistration;
    ClaimIsEnsured(cfg, g.sys, h, forRegistration);
    var c := EnsureClaim(cfg, g.sys);
    RegistrationIsEnsured(cfg, c.sys, h, forContext);
    var r := EnsureRegistration(c.sys);
    ContextIsEnsured(cfg, r.sys, h, forReceipt);
    var x := EnsureContext(r.sys);
    assert forReceipt == [Says(h.receipt)] + [];
    ReceiptIsEnsured(cfg, x.sys, h, []);
  }

  lemma AdvanceFinishes(cfg: Config, s: Sys, h: Help)
    requires Ready(cfg, s, h) && Helps(cfg, h) && s.tape == AdvanceScript(cfg, Current(s), h)
    ensures Advance(cfg, s).out.Ok?
  {
    var rec := Current(s);
    if rec.IsSettled() {
      SettledAdvanceIsNothing(cfg, s);
    } else {
      hide Advance, Ready, Helps, Inv, GapScript, ClaimScript, RegistrationScript, AfterClaim;
      var forReceipt := ReceiptScript(rec, h);
      var forContext := ContextScript(rec, h) + forReceipt;
      PhasesFinish(cfg, s, h, RegistrationScript(AfterClaim(rec, h), h) + forContext, forContext, forReceipt);
    }
  }

  // ---- Opening, discovery and recovery ----

  lemma PendingIsRead(cfg: Config, h: Help)
    requires Helps(cfg, h)
    ensures AsAccepted(Says(h.pending)) == Ok(h.pending) && !IsFinished(h.pending) && !IsMissing(Says(h.pending))
  {
    hide IsFinished, IsAnswer, ReadReceipt, Select;
  }

  lemma PollScriptFirst(polls: nat, h: Help)
    requires polls > 0
    ensures PollScript(polls, h) == [Says(h.pending)] + PollScript(polls - 1, h)
  {
  }

  lemma {:induction false} PollsStayPending(cfg: Config, s: Sys, paths: seq<string>, last: string, h: Help,
                                            rest: seq<Reply>)
    requires s.mem.rec.Some? && Helps(cfg, h) && s.tape == PollScript(|paths|, h) + rest
    ensures var r := PollPaths(cfg, s, paths, last);
      && r.out.Ok? && r.sys.tape == rest && r.sys.mem.rec.Some? && r.sys.mem == s.mem.(rec := r.sys.mem.rec)
      && Keeps(Current(s), Current(r.sys)) && Current(r.sys).step == Current(s).step && !Current(r.sys).terminal
    decreases |paths|
  {
    hide Helps, RunStatus, IsFinished, IsFailed, TakeResult, PollScript;
    PendingIsRead(cfg, h);
    if paths == [] {
      NoScript(h);
      assert s.tape == rest;
    } else {
      PollScriptFirst(|paths|, h);
      var after := PollScript(|paths| - 1, h) + rest;
      assert s.tape == [Says(h.pending)] + after;
      assert s.tape[1..] == after;
      PollsStayPending(cfg, Fetch(s, Poll(paths[0])).sys, paths[1..],
                       if RunStatus(h.pending) != "" then RunStatus(h.pending) else "pending", h, rest);
    }
  }

  lemma NoScript(h: Help)
    ensures PollScript(0, h) == []
  {
  }

  lemma ServerIsDiscovered(cfg: Config, s: Sys, h: Help, rest: seq<Reply>)
    requires Helps(cfg, h) && s.tape == [Says(h.capabilities)] + rest
    ensures var r := Discover(cfg, s);
      && r.out.Ok? && r.sys.tape == rest
      && r.sys.mem == s.mem.(capabilities := cfg.readCapabilities(h.capabilities))
      && IsComplete(r.sys.mem.capabilities)
  {
    hide IsAnswer, CanonicalDigestOf, ClaimIdOf, RegistrationIdOf, ContextIdOf, ReadReceipt, IsFinished, Select;
    assert s.tape[1..] == rest;
  }

  /** Opening brings the saved record, or a new one, into memory. */
  lemma RecordIsOpened(cfg: Config, s: Sys)
    requires Starting(cfg, s) && cfg.declarationReads
    ensures var r := Open(cfg, s, true);
      && r.out.Ok? && r.sys.tape == s.tape && r.sys.mem.rec.Some?
      && Current(r.sys) == FirstRecord(s).(status := Current(r.sys).status, updatedAt := Current(r.sys).updatedAt)
      && Inv(Current(r.sys)) && !r.sys.mem.gapVerified
      && (!Current(r.sys).HasGap() ==> r.sys.mem.resolvedGap == "")
  {
    hide Lawful, IdsBelow, LatestAfter, RunsAfter, SessionStart, Asking, SavedNow;
  }

  /** The script looks at the ids, the digest of the claim and the terminal flag alone. */
  predicate SameToDo(r: Record, r': Record) {
    && r'.claimId == r.claimId && r'.claimRef == r.claimRef && r'.claimDigest == r.claimDigest
    && r'.registrationId == r.registrationId && r'.contextId == r.contextId && r'.receiptId == r.receiptId
    && (r'.terminal == r.terminal || (!r.terminal && !r'.terminal))
  }

  lemma SamePieces(cfg: Config, r: Record, r': Record, h: Help)
    requires SameToDo(r, r')
    ensures GapScript(cfg, r', h) == GapScript(cfg, r, h) && ClaimScript(r', h) == ClaimScript(r, h)
    ensures ContextScript(r', h) == ContextScript(r, h) && ReceiptScript(r', h) == ReceiptScript(r, h)
  {
  }

  lemma SameRegistrationPiece(r: Record, r': Record, h: Help)
    requires SameToDo(r, r')
    ensures RegistrationScript(AfterClaim(r', h), h) == RegistrationScript(AfterClaim(r, h), h)
  {
    hide CanonicalDigestOf, RegistrationScript;
    OnlyDigestAndId(AfterClaim(r, h), AfterClaim(r', h), h);
  }

  lemma OnlyDigestAndId(r: Record, r': Record, h: Help)
    requires r'.registrationId == r.registrationId && r'.claimDigest == r.claimDigest
    ensures RegistrationScript(r', h) == RegistrationScript(r, h)
  {
  }

  lemma SameScript(cfg: Config, r: Record, r': Record, h: Help)
    requires SameToDo(r, r')
    ensures AdvanceScript(cfg, r', h) == AdvanceScript(cfg, r, h)
  {
    hide SameToDo, GapScript, ClaimScript, RegistrationScript, AfterClaim, ContextScript, ReceiptScript;
    SamePieces(cfg, r, r', h);
    SameRegistrationPiece(r, r', h);
  }

  /** Neither the status nor a poll that stays pending changes what the phases ask for. */
  lemma KeptToDo(r: Record, r': Record)
    requires Keeps(r, r') && !r.terminal && !r'.terminal
    ensures SameToDo(r, r')
  {
  }

  lemma StaysInvariant(r: Record, r': Record)
    requires Inv(r) && Keeps(r, r') && r'.step == r.step
    ensures Inv(r')
  {
  }

  lemma KeepsGap(r: Record, r': Record)
    requires Keeps(r, r')
    ensures r'.HasGap() == r.HasGap()
  {
  }

  lemma HelpIsEquipped(cfg: Config, s: Sys, h: Help)
    requires Helps(cfg, h) && IsReady(cfg) && s.mem.rec.Some?
    requires s.mem.capabilities == cfg.readCapabilities(h.capabilities)
    ensures Equipped(cfg, s, h)
  {
    hide IsAnswer, Select, IsReady, ReadReceipt;
  }

  lemma PollsAreNeeded(r: Record)
    ensures Polls(r) == 0 <==> r.terminal || !r.HasRun()
  {
  }

  /** The record in memory at the start is recovered, with pending answers, to one with the same things to do. */
  lemma RecoveryStaysReady(cfg: Config, s: Sys, h: Help, rest: seq<Reply>)
    requires Ready(cfg, s, h) && Helps(cfg, h) && s.tape == PollScript(Polls(Current(s)), h) + rest
    ensures var r := Recover(cfg, s);
      && r.out.Ok? && Ready(cfg, r.sys, h) && r.sys.tape == rest
      && AdvanceScript(cfg, Current(r.sys), h) == AdvanceScript(cfg, Current(s), h)
  {
    var rec := Current(s);
    PollsAreNeeded(rec);
    hide Helps, PollPaths, PollScript, AdvanceScript, IsReady, IsComplete, IsAnswer, Select, Inv, Keeps;
    if Polls(rec) == 0 {
      NoScript(h);
      assert s.tape == rest;
    } else {
      var paths := SavedPaths(rec.runId, rec.pollUrl);
      PollsStayPending(cfg, s, paths, "pending", h, rest);
      var r := PollPaths(cfg, s, paths, "pending").sys;
      StaysInvariant(rec, Current(r));
      KeepsGap(rec, Current(r));
      KeptToDo(rec, Current(r));
      SameScript(cfg, rec, Current(r), h);
    }
  }

  /** Opened and discovered, up to the recovery. */
  lemma ClientIsReady(cfg: Config, s: Sys, h: Help, rest: seq<Reply>)
    requires Starting(cfg, s) && IsReady(cfg) && Helps(cfg, h) && s.tape == [Says(h.capabilities)] + rest
    ensures var o := Open(cfg, s, true);
      var d := Discover(cfg, o.sys);
      && o.out.Ok? && d.out.Ok? && Ready(cfg, d.sys, h) && d.sys.tape == rest
      && Current(d.sys) == FirstRecord(s).(status := Current(d.sys).status, updatedAt := Current(d.sys).updatedAt)
  {
    hide Starting, Helps, Inv, Open, Discover, IsComplete, IsAnswer, Select;
    RecordIsOpened(cfg, s);
    var o := Open(cfg, s, true);
    ServerIsDiscovered(cfg, o.sys, h, rest);
    HelpIsEquipped(cfg, Discover(cfg, o.sys).sys, h);
  }

  /** Only the status and the time stamp of the record are new. */
  lemma StillToDo(r: Record, r': Record)
    requires r' == r.(status := r'.status, updatedAt := r'.updatedAt)
    ensures Polls(r') == Polls(r) && SameToDo(r, r')
  {
    hide SavedPaths;
  }

  lemma ResumeFinishes(cfg: Config, s: Sys, h: Help)
    requires Starting(cfg, s) && IsReady(cfg) && Helps(cfg, h) && s.tape == Script(cfg, FirstRecord(s), h)
    ensures Resume(cfg, s, true).out.Ok?
  {
    hide Starting, Ready, IsReady, Helps, Open, Discover, Recover, Advance, AdvanceScript, PollScript, Polls,
         FirstRecord, Current, SameToDo;
    var rec := FirstRecord(s);
    ClientIsReady(cfg, s, h, PollScript(Polls(rec), h) + AdvanceScript(cfg, rec, h));
    var d := Discover(cfg, Open(cfg, s, true).sys);
    StillToDo(rec, Current(d.sys));
    SameScript(cfg, rec, Current(d.sys), h);
    RecoveryStaysReady(cfg, d.sys, h, AdvanceScript(cfg, rec, h));
    AdvanceFinishes(cfg, Recover(cfg, d.sys).sys, h);
  }

  /**
   * No death leaves the flow stuck: after any run, whatever the commands, whatever was answered and wherever processes
   * died, a resume whose server answers helpfully ends with the whole prefix and a confirmed receipt on the disk.
   */
  lemma EveryRunCanBeCompleted(sessions: seq<Session>, cfg: Config, h: Help)
    requires IsReady(cfg) && Helps(cfg, h)
    ensures var s := Sessions(sessions, BLANK);
      var r := Resume(cfg, Begin(cfg, ResumeCommand(true), s, Script(cfg, FirstRecord(s), h)), true);
      && r.out.Ok? && r.sys.disk.latest == Some(r.out.value)
      && Progress(r.out.value) == 5 && IsWhole(r.out.value)
  {
    hide Starting, Helps, IsReady, Resume, Script, Good, Sound, Sessions, Progress, IsWhole;
    SessionsAreSafe(sessions);
    var s := Sessions(sessions, BLANK);
    var tape := Script(cfg, FirstRecord(s), h);
    var s' := Begin(cfg, ResumeCommand(true), s, tape);
    BeginIsSafe(cfg, ResumeCommand(true), s, tape);
    BeginReads(cfg, s, tape);
    ResumeFinishes(cfg, s', h);
    ResumeIsSafe(cfg, s', true);
  }

  lemma BeginReads(cfg: Config, s: Sys, tape: seq<Reply>)
    ensures var s' := Begin(cfg, ResumeCommand(true), s, tape); s'.tape == tape && FirstRecord(s') == FirstRecord(s)
  {
  }

  lemma LoadBringsRecord(cfg: Config, s: Sys)
    requires Starting(cfg, s) && s.disk.latest.Some?
    ensures var r := Open(cfg, s, true);
      r.out.Ok? && cfg.declarationReads ==> r.sys.mem.rec == s.disk.latest
    ensures cfg.declarationReads || !Open(cfg, s, true).out.Ok?
  {
    hide Good;
  }

  // ---- Requests that a helpful server sees twice ----

  lemma {:induction false} PendingIsUnfinished(cfg: Config, polls: nat, h: Help, rest: seq<Reply>)
    requires Helps(cfg, h)
    ensures AllUnfinished(PollScript(polls, h) + rest, polls)
  {
    hide Helps, IsFinished, AsAccepted, PollScript, IsMissing;
    PendingIsRead(cfg, h);
    if polls > 0 {
      PollScriptFirst(polls, h);
      var after := PollScript(polls - 1, h) + rest;
      var tape := PollScript(polls, h) + rest;
      assert tape == [Says(h.pending)] + after;
      assert tape[0] == Says(h.pending) && tape[1..] == after;
      PendingIsUnfinished(cfg, polls - 1, h, rest);
    }
  }

  /** While the saved run stays pending, a resume asks for the same step again, and completes the flow all the same. */
  lemma PendingRunIsAskedTwice(cfg: Config, s: Sys, h: Help, action: Action)
    requires Starting(cfg, s) && IsReady(cfg) && Helps(cfg, h)
    requires s.disk.latest.Some? && WaitsFor(s.disk.latest.value, action)
    requires s.tape == Script(cfg, FirstRecord(s), h)
    ensures var r := Resume(cfg, s, true); r.out.Ok? && action in Asked(s.trace, r.sys.trace)
  {
    hide Starting, IsReady, Helps, Resume, Asked, WaitsFor, Polls, AllUnfinished, FinishedAmong, PollScript,
         AdvanceScript;
    ResumeFinishes(cfg, s, h);
    PendingStepIsAskedAgain(cfg, s, action);
    var rec := FirstRecord(s);
    var after := PollScript(Polls(rec), h) + AdvanceScript(cfg, rec, h);
    assert s.tape[1..] == after;
    PendingIsUnfinished(cfg, Polls(rec), h, AdvanceScript(cfg, rec, h));
  }

  /** The saved record with a context. */
  function WithContext(r: Record, contextId: string): Record {
    r.(contextId := contextId, terminal := false)
  }

  function FirstPoll(s: Sys): Sys
    requires Polls(Current(s)) != 0
  {
    Fetch(s, Poll(SavedPaths(Current(s).runId, Current(s).pollUrl)[0])).sys
  }

  lemma FirstPollFinishes(cfg: Config, s: Sys, done: Json, rest: seq<Reply>)
    requires s.mem.rec.Some? && Polls(Current(s)) != 0 && s.tape == [Says(done)] + rest
    requires AsAccepted(Says(done)) == Ok(done) && IsFinished(done) && !IsFailed(RunStatus(done))
    ensures var f := FirstPoll(s);
      && Recover(cfg, s) == TakeResult(cfg, f, done) && f.mem == s.mem && f.tape == rest && f.disk == s.disk
    ensures FinishedAmong(s.tape, Polls(Current(s))) == Some(done) && !AllUnfinished(s.tape, Polls(Current(s)))
  {
    hide AsAccepted, IsFinished, IsFailed, RunStatus, TakeResult, SavedPaths;
    assert s.tape[1..] == rest;
  }

  lemma ContextIsTaken(cfg: Config, s: Sys, done: Json)
    requires s.mem.rec.Some? && Inv(Current(s)) && Current(s).step.PreclaimContext?
    ensures var r := TakeResult(cfg, s, done);
      && r.out.Ok? && r.sys.mem == s.mem.(rec := r.sys.mem.rec) && r.sys.mem.rec.Some? && r.sys.tape == s.tape
      && Inv(Current(r.sys)) && Current(r.sys).HasGap() == Current(s).HasGap()
    ensures SameToDo(WithContext(Current(s), ContextIdOf(done)), Current(TakeResult(cfg, s, done).sys))
  {
    var next := Recovered(cfg, Current(s), s.mem.gapSource, done);
    RecoveredFollows(cfg, Current(s), s.mem.gapSource, done);
    hide Select, ReadReceipt, ContextIdOf, Inv, AdvanceScript;
    var r := TakeResult(cfg, s, done);
    StillInvariant(next.value, Current(r.sys));
  }

  lemma StillInvariant(r: Record, r': Record)
    requires Inv(r) && r' == r.(updatedAt := r'.updatedAt)
    ensures Inv(r')
  {
  }

  /** The answer to a preclaim context, found by the recovery: the resume completes the flow and compiles nothing. */
  lemma RecoveredPreclaimSkipsCompile(cfg: Config, s: Sys, h: Help, done: Json)
    requires Starting(cfg, s) && IsReady(cfg) && Helps(cfg, h)
    requires s.disk.latest.Some? && s.disk.latest.value.step.PreclaimContext? && Polls(s.disk.latest.value) != 0
    requires AsAccepted(Says(done)) == Ok(done) && IsFinished(done) && !IsFailed(RunStatus(done))
    requires ContextIdOf(done) != ""
    requires s.tape == [Says(h.capabilities)] + ([Says(done)]
                         + AdvanceScript(cfg, WithContext(s.disk.latest.value, ContextIdOf(done)), h))
    ensures var r := Resume(cfg, s, true); r.out.Ok? && Compiling !in Asked(s.trace, r.sys.trace)
  {
    hide Starting, Ready, Equipped, IsReady, Helps, Resume, Asked, Polls, AllUnfinished, FinishedAmong, AdvanceScript,
         Inv, ContextIdOf, AsAccepted, IsFinished, IsFailed, RunStatus;
    PreclaimIsPrepared(cfg, s, h, done);
    ResumeIsAdvance(cfg, s);
    AdvanceFinishes(cfg, Prepared(cfg, s).sys, h);
    RecoveredPreclaimIsNotCompiled(cfg, s);
    assert s.tape[1..] == [Says(done)] + AdvanceScript(cfg, WithContext(s.disk.latest.value, ContextIdOf(done)), h);
    FinishesAtOnce(s.tape[1..], Polls(s.disk.latest.value), done);
  }

  lemma FinishesAtOnce(tape: seq<Reply>, polls: nat, done: Json)
    requires polls != 0 && tape != [] && tape[0] == Says(done)
    requires AsAccepted(Says(done)) == Ok(done) && IsFinished(done) && !IsFailed(RunStatus(done))
    ensures FinishedAmong(tape, polls) == Some(done) && !AllUnfinished(tape, polls)
  {
    hide AsAccepted, IsFinished, IsFailed, RunStatus;
  }

  lemma PreclaimIsPrepared(cfg: Config, s: Sys, h: Help, done: Json)
    requires Starting(cfg, s) && IsReady(cfg) && Helps(cfg, h)
    requires s.disk.latest.Some? && s.disk.latest.value.step.PreclaimContext? && Polls(s.disk.latest.value) != 0
    requires AsAccepted(Says(done)) == Ok(done) && IsFinished(done) && !IsFailed(RunStatus(done))
    requires s.tape == [Says(h.capabilities)] + ([Says(done)]
                         + AdvanceScript(cfg, WithContext(s.disk.latest.value, ContextIdOf(done)), h))
    ensures var p := Prepared(cfg, s);
      p.out.Ok? && Ready(cfg, p.sys, h) && p.sys.tape == AdvanceScript(cfg, Current(p.sys), h)
  {
    hide Starting, IsReady, Helps, Resume, Polls, AdvanceScript, Open, Discover, Recover, TakeResult, WithContext,
         Inv, ContextIdOf, AsAccepted, IsFinished, IsFailed, RunStatus, IsComplete, IsAnswer, Select, FirstPoll,
         SameToDo;
    var rest := AdvanceScript(cfg, WithContext(s.disk.latest.value, ContextIdOf(done)), h);
    ClientIsReady(cfg, s, h, [Says(done)] + rest);
    LoadBringsRecord(cfg, s);
    var o := Open(cfg, s, true).sys;
    DiscoverIsHarmless(cfg, o);
    var d := Discover(cfg, o).sys;
    FirstPollFinishes(cfg, d, done, rest);
    ContextIsTaken(cfg, FirstPoll(d), done);
    SameScript(cfg, WithContext(Current(d), ContextIdOf(done)), Current(Prepared(cfg, s).sys), h);
  }

  /** A receipt that lacks an id completes the flow, and the next resume realizes again. */
  lemma NamelessReceiptIsRealizedAgain(cfg: Config, s: Sys, h: Help, rest: seq<Reply>)
    requires Starting(cfg, s) && IsReady(cfg) && Helps(cfg, h)
    requires forall candidate :: Normalize(h.receipt, candidate, cfg.now).receiptId == ""
    requires s.disk.latest.Some? && Polls(s.disk.latest.value) == 0
    requires s.disk.latest.value.HasRegistration() && s.disk.latest.value.HasContext()
    requires !s.disk.latest.value.IsSettled() && s.tape == [Says(h.capabilities), Says(h.receipt)]
    ensures var r := Resume(cfg, s, true);
      && r.out.Ok? && Progress(r.out.value) == 5 && r.out.value.terminal && r.out.value.receiptId == ""
      && var b := Begin(cfg, ResumeCommand(true), r.sys, [Says(h.capabilities)] + rest);
         Asked(b.trace, Resume(cfg, b, true).sys.trace) == [Realizing]
  {
    hide Starting, Good, Ready, IsReady, Helps, Resume, Progress, Polls, Asked, IsWhole, Sound, SessionStart;
    ResumeIsSafe(cfg, s, true);
    NamelessReceiptIsSaved(cfg, s, h);
    var r := Resume(cfg, s, true);
    var tape := [Says(h.capabilities)] + rest;
    var b := Begin(cfg, ResumeCommand(true), r.sys, tape);
    assert Sound(r.sys) by { GoodIsSound(r.sys); }
    BeginIsSafe(cfg, ResumeCommand(true), r.sys, tape);
    FullIsReady(r.out.value);
    DiscoversAgain(cfg, b, h, rest);
    RealizationIsAskedAgain(cfg, b);
  }

  lemma GoodIsSound(s: Sys)
    requires Good(s)
    ensures Sound(s)
  {
  }

  lemma FullIsReady(r: Record)
    requires Progress(r) == 5
    ensures r.HasRegistration() && r.HasContext()
  {
    hide IsConfirmed;
  }

  lemma DiscoversAgain(cfg: Config, b: Sys, h: Help, rest: seq<Reply>)
    requires Starting(cfg, b) && IsReady(cfg) && Helps(cfg, h) && b.tape == [Says(h.capabilities)] + rest
    requires b.disk.latest.Some?
    ensures cfg.declarationReads && cfg.gate.GatePasses? && Discover(cfg, Load(cfg, b).sys).out.Ok?
  {
    hide Helps, Good, Discover;
    ServerIsDiscovered(cfg, Load(cfg, b).sys, h, rest);
  }

  lemma NamelessReceiptIsSaved(cfg: Config, s: Sys, h: Help)
    requires Starting(cfg, s) && IsReady(cfg) && Helps(cfg, h)
    requires forall candidate :: Normalize(h.receipt, candidate, cfg.now).receiptId == ""
    requires s.disk.latest.Some? && Polls(s.disk.latest.value) == 0
    requires s.disk.latest.value.HasRegistration() && s.disk.latest.value.HasContext()
    requires !s.disk.latest.value.IsSettled() && s.tape == [Says(h.capabilities), Says(h.receipt)]
    ensures var r := Resume(cfg, s, true);
      r.out.Ok? && r.out.value.terminal && r.out.value.receiptId == "" && Polls(r.out.value) == 0
  {
    hide Starting, Equipped, IsReady, Helps, Polls, Advance, EnsureReceipt, Normalize, Prepared, Resume, IsWhole,
         Asks, Working;
    ReceiptIsAwaited(cfg, s, h);
    ResumeIsAdvance(cfg, s);
    PreparedIsWorking(cfg, s);
    var p := Prepared(cfg, s);
    OnlyReceiptIsDue(cfg, p.sys);
    ReceiptIsEnsured(cfg, p.sys, h, []);
    PollsAreNeeded(Current(EnsureReceipt(cfg, p.sys).sys));
  }

  lemma ReceiptIsAwaited(cfg: Config, s: Sys, h: Help)
    requires Starting(cfg, s) && IsReady(cfg) && Helps(cfg, h)
    requires s.disk.latest.Some? && Polls(s.disk.latest.value) == 0
    requires s.tape == [Says(h.capabilities), Says(h.receipt)]
    ensures var p := Prepared(cfg, s);
      && p.out.Ok? && Equipped(cfg, p.sys, h) && p.sys.mem.rec == s.disk.latest && p.sys.tape == [Says(h.receipt)] + []
  {
    hide Starting, Ready, Equipped, IsReady, Helps, Polls, Open, Discover, Prepared, FirstRecord, Current;
    var after := [Says(h.receipt)] + [];
    assert s.tape == [Says(h.capabilities)] + after;
    ClientIsReady(cfg, s, h, after);
    NothingIsPolled(cfg, s);
    ReadyIsEquipped(cfg, Prepared(cfg, s).sys, h);
  }

  lemma ReadyIsEquipped(cfg: Config, s: Sys, h: Help)
    requires Ready(cfg, s, h)
    ensures Equipped(cfg, s, h)
  {
  }

  lemma NothingIsPolled(cfg: Config, s: Sys)
    requires Starting(cfg, s) && s.disk.latest.Some? && Polls(s.disk.latest.value) == 0
    requires Open(cfg, s, true).out.Ok? && Discover(cfg, Open(cfg, s, true).sys).out.Ok?
    ensures Prepared(cfg, s) == Run(Discover(cfg, Open(cfg, s, true).sys).sys, Ok(()))
    ensures Prepared(cfg, s).sys.mem.rec == s.disk.latest
  {
    hide Good, Discover, Polls, PollPaths;
    LoadBringsRecord(cfg, s);
    DiscoverIsHarmless(cfg, Open(cfg, s, true).sys);
    PollsAreNeeded(s.disk.latest.value);
  }
}
