// Records that wait: every step that a run can be saved at is reached, by one session on a new repository.
module FlowWaiting {
  import opened Json
  import opened Text
  import opened ReplyFields
  import opened FlowState
  import opened FlowSpec
  import opened FlowSafety
  import opened FlowLimits
  import opened FlowRecovery
  import opened FlowRequests
  import opened FlowPolls
  import opened FlowHelp
  import opened FlowCompletion

  /** A promise to answer later. */
  predicate IsPromise(body: Json) {
    AsAccepted(Says(body)) == Ok(body) && IsActive(RunStatus(body)) && RunIdOf(body) != ""
  }

  lemma PromisesExist(id: string)
    requires id != ""
    ensures IsPromise(Noted("run_id", id, "accepted"))
  {
    var body := Noted("run_id", id, "accepted");
    NotedStatus("run_id", id, "accepted");
    NotedReads("run_id", id, "accepted", "run_id");
    NotedReads("run_id", id, "accepted", "data");
    NothingUnderEmpty("run_id");
    hide Noted, Get, RunStatus;
    assert Lower("accepted") == "accepted";
    assert Sub(body, "data") == EMPTY;
    assert [Null, Str(id)][1..] == [Str(id)];
    assert FirstString([Null, Str(id)]) == id;
  }

  lemma NothingUnderEmpty(key: string)
    ensures Get(EMPTY, key) == Null
  {
  }

  /** The record on the disk waits at this step, with a run to be polled. */
  predicate WaitsAt(s: Sys, step: Phase) {
    s.disk.latest.Some? && s.disk.latest.value.step == step && Polls(s.disk.latest.value) != 0
  }

  lemma RunsArePolled(r: Record)
    requires r.runId != "" && !r.terminal
    ensures Polls(r) != 0
  {
  }

  lemma NobodyAnswers(s: Sys, paths: seq<string>)
    requires s.tape == [] && paths != []
    ensures Wait(s, paths).out == Crash && Wait(s, paths).sys.disk == s.disk
  {
    assert WaitRound(s, paths).out == Crash;
  }

  /** The promise is saved, and the process dies with its first poll. */
  lemma PromiseIsLeft(s: Sys, request: Request, action: Action, body: Json)
    requires IsPromise(body) && s.tape == [Says(body)]
    ensures var r := CallAndSettle(s, request, action); r.out == Crash && WaitsAt(r.sys, PendingPhase(action))
  {
    hide AsAccepted, RunStatus, IsActive, RunIdOf, PollUrlOf, Wait, Polls, WaitPaths;
    var c := Call(s, request);
    assert c.out == Ok(body) && c.sys.tape == [];
    var rec := Current(c.sys).(step := PendingPhase(action), status := RunStatus(body), terminal := false,
                               runId := RunIdOf(body), pollUrl := PollUrlOf(body));
    var s1 := Persist(c.sys, rec);
    PathsExist(RunIdOf(body), PollUrlOf(body));
    NobodyAnswers(s1, WaitPaths(RunIdOf(body), PollUrlOf(body)));
    RunsArePolled(s1.disk.latest.value);
  }

  // ---- The steps ----

  lemma DiscoveryIsLeft(cfg: Config, s: Sys, body: Json)
    requires IsPromise(body) && s.tape == [Says(body)] && s.mem.rec.Some? && !Current(s).HasGap()
    requires s.mem.resolvedGap == "" && s.mem.capabilities.canDiscoverGaps && Discovers(cfg, s.mem.capabilities)
    ensures var r := EnsureGap(cfg, s); !r.out.Ok? && WaitsAt(r.sys, GapDiscovery)
  {
    PromiseIsLeft(s, ListGaps(true), Discovering, body);
    hide CallAndSettle, IsPromise, Polls;
  }

  lemma PreclaimIsLeft(cfg: Config, s: Sys, h: Help, body: Json)
    requires IsPromise(body) && Equipped(cfg, s, h) && Current(s).HasGap() && !Current(s).HasClaim()
    requires s.tape == RefreshScript(cfg, s, h) + [Broken, Says(body)]
    ensures var r := EnsureClaim(cfg, s); !r.out.Ok? && WaitsAt(r.sys, PreclaimContext)
  {
    hide CallAndSettle, IsPromise, Polls, RefreshGap, RefreshScript, IsReady, IsAnswer, Select, ContextIdOf;
    GapIsRefreshed(cfg, s, h, [Broken, Says(body)]);
    var f := RefreshGap(cfg, s).sys;
    var d := CanonicalDigest(f);
    assert d.out == Ok("") && d.sys.tape == [Says(body)];
    PromiseIsLeft(d.sys, CompilePreclaim, PreclaimCompiling, body);
  }

  lemma ClaimIsLeft(cfg: Config, s: Sys, h: Help, body: Json)
    requires IsPromise(body) && Equipped(cfg, s, h) && Helps(cfg, h) && VerifiedIsHeld(s)
    requires Current(s).HasGap() && !Current(s).HasClaim()
    requires s.tape == RefreshScript(cfg, s, h) + ([Says(h.digest)] + [Says(body)])
    ensures var r := EnsureClaim(cfg, s); !r.out.Ok? && WaitsAt(r.sys, GapClaim)
  {
    hide CallAndSettle, IsPromise, Polls, PrepareClaim, Helps, Equipped, RefreshScript, CanonicalDigestOf;
    ClaimIsPrepared(cfg, s, h, [Says(body)]);
    var p := PrepareClaim(cfg, s);
    PromiseIsLeft(p.sys, ClaimGap(p.out.value.0), Claiming, body);
  }

  lemma RegistrationIsLeft(s: Sys, body: Json)
    requires IsPromise(body) && !Current(s).HasRegistration() && Current(s).claimDigest != "" && s.tape == [Says(body)]
    ensures var r := EnsureRegistration(s); !r.out.Ok? && WaitsAt(r.sys, ContextCreate)
  {
    hide CallAndSettle, IsPromise, Polls, RegistrationIdOf;
    var rec := Current(s);
    PromiseIsLeft(s, RegisterRepo(rec.gapId, rec.claimId, rec.claimRef), Registering, body);
  }

  lemma ContextIsLeft(cfg: Config, s: Sys, h: Help, body: Json)
    requires IsPromise(body) && Helps(cfg, h) && !Current(s).HasContext()
    requires s.tape == [Says(h.digest)] + [Says(body)]
    ensures var r := EnsureContext(s); !r.out.Ok? && WaitsAt(r.sys, ContextCompile)
  {
    hide CallAndSettle, IsPromise, Polls, CanonicalDigest, Helps, IsAnswer, CanonicalDigestOf, ContextIdOf, WaitsAt,
         Exchanged, Persist, Compiled, Current;
    HelpfulDigest(cfg, h);
    DigestIsRead(s, h, [Says(body)]);
    var d := CanonicalDigest(s).sys;
    ExchangedTape(s, ReadCanonicalDigest, h.digest, [Says(body)]);
    PromiseIsLeft(d, CompileContext(Current(d).registrationId), Compiling, body);
  }

  lemma ExchangedTape(s: Sys, request: Request, body: Json, rest: seq<Reply>)
    ensures Exchanged(s, request, body, rest).tape == rest
  {
  }

  lemma HelpfulDigest(cfg: Config, h: Help)
    requires Helps(cfg, h)
    ensures IsAnswer(h.digest) && CanonicalDigestOf(h.digest) != ""
  {
  }

  lemma RealizationIsLeft(cfg: Config, s: Sys, body: Json)
    requires IsPromise(body) && !Current(s).IsSettled() && cfg.gate.GatePasses? && s.tape == [Says(body)]
    ensures var r := EnsureReceipt(cfg, s); !r.out.Ok? && WaitsAt(r.sys, GovernedRealize)
  {
    hide CallAndSettle, IsPromise, Polls, ReadReceipt;
    var contextId := Current(s).contextId;
    var s1 := Persist(s, Current(s).(candidate := cfg.candidateFor(contextId)));
    PromiseIsLeft(s1, Realize(contextId, cfg.candidateFor(contextId)), Realizing, body);
  }

  // ---- One session ----

  /** Nothing is on record yet. */
  predicate IsNewborn(r: Record) {
    !r.HasGap() && !r.HasClaim() && !r.HasRegistration() && !r.HasContext() && r.receiptId == ""
  }

  /** The answers up to the one that is promised for later. */
  function LeftScript(cfg: Config, h: Help, body: Json, step: Phase): seq<Reply> {
    var later := Says(body);
    var gap := GapScript(cfg, NewRecord(0), h);
    match step
    case GapDiscovery => [later]
    case PreclaimContext => gap + [Broken, later]
    case GapClaim => gap + ([Says(h.digest)] + [later])
    case ContextCreate => gap + ([Says(h.digest), Says(h.claim)] + [later])
    case ContextCompile =>
      gap + ([Says(h.digest), Says(h.claim)] + ([Says(h.registration)] + ([Says(h.digest)] + [later])))
    case _ =>
      gap + ([Says(h.digest), Says(h.claim)] + ([Says(h.registration)]
                                                + ([Says(h.digest), Says(h.context)] + [later])))
  }

  lemma NewbornScript(cfg: Config, r: Record, h: Help)
    requires !r.HasClaim()
    ensures GapScript(cfg, NewRecord(0), h) == GapScript(cfg, r, h)
  {
  }

  lemma GapLeaves(cfg: Config, s: Sys, h: Help, body: Json)
    requires Ready(cfg, s, h) && IsNewborn(Current(s)) && IsPromise(body)
    requires Discovers(cfg, s.mem.capabilities) && s.tape == [Says(body)]
    ensures var r := Advance(cfg, s); !r.out.Ok? && WaitsAt(r.sys, GapDiscovery)
  {
    hide IsPromise, WaitsAt, EnsureGap, EnsureClaim, EnsureRegistration, EnsureContext, EnsureReceipt, IsReady,
         IsAnswer, Select, Inv;
    DiscoveryIsLeft(cfg, s, body);
  }

  /** With a gap, and no claim yet. */
  lemma ClaimLeaves(cfg: Config, s: Sys, h: Help, body: Json, step: Phase)
    requires Ready(cfg, s, h) && Helps(cfg, h) && IsNewborn(Current(s)) && IsPromise(body)
    requires step.PreclaimContext? || step.GapClaim?
    requires s.tape == LeftScript(cfg, h, body, step)
    ensures var r := Advance(cfg, s); !r.out.Ok? && WaitsAt(r.sys, step)
  {
    hide Helps, Ready, Equipped, IsPromise, WaitsAt, EnsureGap, EnsureClaim, FinishRegistration, GapScript,
         RefreshScript, VerifiedIsHeld, Advance;
    NewbornScript(cfg, Current(s), h);
    AdvanceIsFinishing(cfg, s);
    var rest := if step.PreclaimContext? then [Broken, Says(body)] else [Says(h.digest)] + [Says(body)];
    GapIsEnsured(cfg, s, h, rest);
    var g := EnsureGap(cfg, s).sys;
    if step.PreclaimContext? {
      PreclaimIsLeft(cfg, g, h, body);
    } else {
      ClaimIsLeft(cfg, g, h, body);
    }
  }

  /** Up to the recorded claim. */
  lemma ClaimIsThere(cfg: Config, s: Sys, h: Help, rest: seq<Reply>)
    requires Ready(cfg, s, h) && Helps(cfg, h) && IsNewborn(Current(s))
    requires s.tape == GapScript(cfg, NewRecord(0), h) + ([Says(h.digest), Says(h.claim)] + rest)
    ensures var g := EnsureGap(cfg, s);
      var c := EnsureClaim(cfg, g.sys);
      && g.out.Ok? && c.out.Ok? && Equipped(cfg, c.sys, h) && c.sys.tape == rest
      && !Current(c.sys).HasRegistration() && !Current(c.sys).HasContext() && Current(c.sys).receiptId == ""
      && Current(c.sys).claimDigest != ""
      && Advance(cfg, s) == FinishRegistration(cfg, c.sys)
  {
    hide Helps, Ready, Equipped, EnsureGap, EnsureClaim, FinishRegistration, GapScript, RefreshScript, VerifiedIsHeld,
         CanonicalDigestOf, Advance, IsAnswer;
    NewbornScript(cfg, Current(s), h);
    AdvanceIsFinishing(cfg, s);
    GapIsEnsured(cfg, s, h, [Says(h.digest), Says(h.claim)] + rest);
    HelpfulDigest(cfg, h);
    ClaimIsEnsured(cfg, EnsureGap(cfg, s).sys, h, rest);
  }

  lemma LaterLeaves(cfg: Config, s: Sys, h: Help, body: Json, step: Phase)
    requires Ready(cfg, s, h) && Helps(cfg, h) && IsNewborn(Current(s)) && IsPromise(body)
    requires step.ContextCreate? || step.ContextCompile? || step.GovernedRealize?
    requires s.tape == LeftScript(cfg, h, body, step)
    ensures var r := Advance(cfg, s); !r.out.Ok? && WaitsAt(r.sys, step)
  {
    hide Helps, Ready, Equipped, IsPromise, WaitsAt, EnsureGap, EnsureClaim, EnsureRegistration, EnsureContext,
         EnsureReceipt, GapScript, Advance;
    var forContext := if step.ContextCompile? then [Says(h.digest)] + [Says(body)]
                      else [Says(h.digest), Says(h.context)] + [Says(body)];
    var rest := if step.ContextCreate? then [Says(body)] else [Says(h.registration)] + forContext;
    ClaimIsThere(cfg, s, h, rest);
    var c := EnsureClaim(cfg, EnsureGap(cfg, s).sys).sys;
    if step.ContextCreate? {
      RegistrationIsLeft(c, body);
    } else {
      ContextLeaves(cfg, c, h, body, step, forContext);
    }
  }

  lemma ContextLeaves(cfg: Config, s: Sys, h: Help, body: Json, step: Phase, forContext: seq<Reply>)
    requires Equipped(cfg, s, h) && Helps(cfg, h) && IsPromise(body)
    requires step.ContextCompile? || step.GovernedRealize?
    requires !Current(s).HasRegistration() && !Current(s).HasContext() && Current(s).receiptId == ""
    requires Current(s).claimDigest != "" && s.tape == [Says(h.registration)] + forContext
    requires forContext == if step.ContextCompile? then [Says(h.digest)] + [Says(body)]
                           else [Says(h.digest), Says(h.context)] + [Says(body)]
    ensures var r := FinishRegistration(cfg, s); !r.out.Ok? && WaitsAt(r.sys, step)
  {
    hide Helps, Equipped, IsPromise, WaitsAt, EnsureRegistration, EnsureContext, EnsureReceipt;
    assert [] + [Says(h.registration)] == [Says(h.registration)];
    RegistrationIsEnsured(cfg, s, h, forContext);
    var r := EnsureRegistration(s).sys;
    if step.ContextCompile? {
      ContextIsLeft(cfg, r, h, body);
    } else {
      ContextIsEnsured(cfg, r, h, [Says(body)]);
      EquippedPasses(cfg, s, h);
      RealizationIsLeft(cfg, EnsureContext(r).sys, body);
    }
  }

  lemma EquippedPasses(cfg: Config, s: Sys, h: Help)
    requires Equipped(cfg, s, h)
    ensures cfg.gate.GatePasses?
  {
    hide IsAnswer, Select;
  }

  lemma AdvanceLeaves(cfg: Config, s: Sys, h: Help, body: Json, step: Phase)
    requires Ready(cfg, s, h) && Helps(cfg, h) && IsNewborn(Current(s)) && IsPromise(body) && IsPending(step)
    requires step.GapDiscovery? ==> Discovers(cfg, s.mem.capabilities)
    requires s.tape == LeftScript(cfg, h, body, step)
    ensures var r := Advance(cfg, s); !r.out.Ok? && WaitsAt(r.sys, step)
  {
    hide Helps, Ready, IsPromise, WaitsAt, Advance, GapScript, IsNewborn;
    match step
    case GapDiscovery => GapLeaves(cfg, s, h, body);
    case PreclaimContext => ClaimLeaves(cfg, s, h, body, step);
    case GapClaim => ClaimLeaves(cfg, s, h, body, step);
    case _ => LaterLeaves(cfg, s, h, body, step);
  }

  lemma BirthIsNewborn(r: Record, r': Record)
    requires r == NewRecord(r.createdAt) && r' == r.(status := r'.status, updatedAt := r'.updatedAt)
    ensures IsNewborn(r') && Polls(r') == 0
  {
  }

  /**
   * For every pending step there is a run that ends waiting there: one resume on a new repository, of whose answers
   * the last is a promise, saves the run and dies with its first poll. The list of gaps is asked for only where
   * nothing else names the gap.
   */
  lemma EveryStepCanBeLeftPending(cfg: Config, h: Help, body: Json, step: Phase)
    requires IsReady(cfg) && Helps(cfg, h) && IsPromise(body) && IsPending(step)
    requires step.GapDiscovery? ==> Discovers(cfg, cfg.readCapabilities(h.capabilities))
    ensures exists session: Session :: session.cfg == cfg && WaitsAt(Sessions([session], BLANK), step)
  {
    hide Starting, IsReady, Helps, Ready, IsPromise, WaitsAt, Advance, GapScript, LeftScript, Polls, Resume, Open,
         Discover, Sound, SessionStart, DieAfter;
    var rest := LeftScript(cfg, h, body, step);
    var tape := [Says(h.capabilities)] + rest;
    var b := Begin(cfg, ResumeCommand(true), BLANK, tape);
    assert Sound(BLANK) by { BlankIsSound(); }
    BeginIsSafe(cfg, ResumeCommand(true), BLANK, tape);
    assert b.tape == tape && b.disk.latest.None?;
    ClientIsReady(cfg, b, h, rest);
    var d := Discover(cfg, Open(cfg, b, true).sys).sys;
    assert FirstRecord(b) == NewRecord(b.clock);
    BirthIsNewborn(FirstRecord(b), Current(d));
    ReadyHolds(cfg, d, h);
    AdvanceLeaves(cfg, d, h, body, step);
    PhasesFollow(cfg, b);
    var r := Resume(cfg, b, true).sys;
    var session := Session(cfg, ResumeCommand(true), tape, |r.trace|);
    assert RunOne(session, BLANK) == r by { LivesLong(r, |BLANK.trace| + |r.trace|); }
    assert Sessions([session], BLANK) == r by { OneSession(session); }
  }

  lemma BlankIsSound()
    ensures Sound(BLANK)
  {
  }

  lemma ReadyHolds(cfg: Config, s: Sys, h: Help)
    requires Ready(cfg, s, h)
    ensures s.mem.rec.Some? && s.mem.capabilities == cfg.readCapabilities(h.capabilities)
  {
    hide IsAnswer, Select, Inv;
  }

  /** Without a run to poll, the phases follow the discovery. */
  lemma PhasesFollow(cfg: Config, s: Sys)
    ensures var o := Open(cfg, s, true);
      var d := Discover(cfg, o.sys);
      o.out.Ok? && d.out.Ok? && Polls(Current(d.sys)) == 0 ==> Resume(cfg, s, true).sys == Advance(cfg, d.sys).sys
  {
    hide Open, Discover, PollPaths, Advance, Polls;
    PollsAreNeeded(Current(Discover(cfg, Open(cfg, s, true).sys).sys));
  }

  lemma LivesLong(s: Sys, events: nat)
    requires events >= |s.trace|
    ensures DieAfter(s, events) == s
  {
  }

  lemma OneSession(session: Session)
    ensures Sessions([session], BLANK) == RunOne(session, BLANK)
  {
    hide RunOne;
    assert [session][..0] == [];
    assert Sessions([], BLANK) == BLANK;
  }
}
