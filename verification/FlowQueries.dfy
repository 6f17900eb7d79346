// The two questions that come before a claim, for the gap and for a preclaim context: when they are asked again.
module FlowQueries {
  import opened Json
  import opened Text
  import opened ReplyFields
  import opened FlowState
  import opened FlowSpec
  import opened FlowSafety
  import opened FlowLimits
  import opened FlowRecovery
  import opened FlowRequests
  import opened FlowPolls
  import opened FlowProvenance

  /** The trace grew, and among the new events is a request of this step. */
  predicate Sends(trace: seq<Event>, trace': seq<Event>, step: Phase) {
    && trace <= trace'
    && exists k :: |trace| <= k < |trace'| && trace'[k].Sent? && AsksFor(trace'[k].request, step)
  }

  /** The trace grew without such a request. */
  predicate Spares(trace: seq<Event>, trace': seq<Event>, step: Phase) {
    && trace <= trace'
    && forall k :: |trace| <= k < |trace'| && trace'[k].Sent? ==> !AsksFor(trace'[k].request, step)
  }

  /** One or the other. */
  predicate SendsIf(trace: seq<Event>, trace': seq<Event>, step: Phase, condition: bool) {
    if condition then Sends(trace, trace', step) else Spares(trace, trace', step)
  }

  lemma SendsOn(a: seq<Event>, b: seq<Event>, c: seq<Event>, step: Phase, first: bool, second: bool)
    requires SendsIf(a, b, step, first) && SendsIf(b, c, step, second)
    ensures SendsIf(a, c, step, first || second)
  {
    hide AsksFor;
    assert forall k :: 0 <= k < |b| ==> c[k] == b[k];
    if first {
      var k :| |a| <= k < |b| && b[k].Sent? && AsksFor(b[k].request, step);
      assert c[k].Sent? && AsksFor(c[k].request, step);
    }
  }

  lemma SendsNothing(trace: seq<Event>, step: Phase)
    ensures SendsIf(trace, trace, step, false)
  {
  }

  lemma FetchSends(s: Sys, request: Request, step: Phase)
    ensures SendsIf(s.trace, Fetch(s, request).sys.trace, step, AsksFor(request, step))
  {
    hide AsksFor;
    var t := Fetch(s, request).sys.trace;
    assert t[|s.trace|] == Sent(request, s.disk.latest);
  }

  lemma PersistSends(s: Sys, r: Record, step: Phase)
    ensures SendsIf(s.trace, Persist(s, r).trace, step, false)
  {
  }

  lemma {:induction false} WaitRoundSends(s: Sys, paths: seq<string>, step: Phase)
    ensures SendsIf(s.trace, WaitRound(s, paths).sys.trace, step, false)
    decreases |paths|
  {
    SendsNothing(s.trace, step);
    hide SendsIf, IsFinished, IsFailed, RunStatus, AsAccepted, Fetch;
    if paths != [] {
      FetchSends(s, Poll(paths[0]), step);
      var r := Call(s, Poll(paths[0]));
      if r.out.Ok? && !IsFinished(r.out.value) {
        WaitRoundSends(r.sys, paths[1..], step);
        SendsOn(s.trace, r.sys.trace, WaitRound(r.sys, paths[1..]).sys.trace, step, false, false);
      }
    }
  }

  lemma {:induction false} WaitSends(s: Sys, paths: seq<string>, step: Phase)
    requires paths != []
    ensures SendsIf(s.trace, Wait(s, paths).sys.trace, step, false)
    decreases |s.tape|
  {
    SendsNothing(s.trace, step);
    hide SendsIf;
    if !(s.tape != [] && s.tape[0].TimeUp?) {
      WaitRoundSends(s, paths, step);
      var r := WaitRound(s, paths);
      if r.out.Ok? && r.out.value.None? {
        WaitSends(r.sys, paths, step);
        SendsOn(s.trace, r.sys.trace, Wait(r.sys, paths).sys.trace, step, false, false);
      }
    }
  }

  lemma CallSends(s: Sys, request: Request, action: Action, step: Phase)
    ensures SendsIf(s.trace, CallAndSettle(s, request, action).sys.trace, step, AsksFor(request, step))
  {
    hide SendsIf, AsksFor, Fetch, AsAccepted, Settle;
    FetchSends(s, request, step);
    var r := Call(s, request);
    if r.out.Ok? {
      SettleSends(r.sys, r.out.value, action, step);
      SendsOn(s.trace, r.sys.trace, Settle(r.sys, r.out.value, action).sys.trace, step, AsksFor(request, step), false);
    }
  }

  lemma SettleSends(s: Sys, data: Json, action: Action, step: Phase)
    ensures SendsIf(s.trace, Settle(s, data, action).sys.trace, step, false)
  {
    hide SendsIf, RunStatus, RunIdOf, PollUrlOf, IsActive, Persist, WaitPaths;
    SendsNothing(s.trace, step);
    if IsActive(RunStatus(data)) {
      var rec := Waiting(s, data, action);
      PersistSends(s, rec, step);
      var s1 := Persist(s, rec);
      if RunIdOf(data) != "" || PollUrlOf(data) != "" {
        var paths := WaitPaths(RunIdOf(data), PollUrlOf(data));
        PathsExist(RunIdOf(data), PollUrlOf(data));
        WaitSends(s1, paths, step);
        SendsOn(s.trace, s1.trace, Wait(s1, paths).sys.trace, step, false, false);
      }
    }
  }

  // ---- The gap ----

  lemma DiscoverGapSends(cfg: Config, s: Sys, step: Phase)
    ensures SendsIf(s.trace, DiscoverGap(cfg, s).sys.trace, step,
                    step.GapDiscovery? && s.mem.capabilities.canDiscoverGaps)
  {
    hide SendsIf, CallAndSettle, Select;
    SendsNothing(s.trace, step);
    CallSends(s, ListGaps(true), Discovering, step);
    var first := QueryGaps(cfg, s, true).sys;
    CallSends(first, ListGaps(false), Discovering, step);
    SendsOn(s.trace, first.trace, QueryGaps(cfg, first, false).sys.trace, step, step.GapDiscovery?, step.GapDiscovery?);
  }

  /** The client has to look for the gap in the list. */
  predicate HasToLook(cfg: Config, s: Sys) {
    cfg.operatorGap == "" && cfg.envGap == "" && s.mem.capabilities.gapId == ""
  }

  lemma LearnSends(s: Sys, gapId: string, source: string, step: Phase)
    ensures SendsIf(s.trace, Learn(s, gapId, source).trace, step, false)
  {
  }

  lemma ResolveGapSends(cfg: Config, s: Sys, step: Phase)
    ensures SendsIf(s.trace, ResolveGap(cfg, s).sys.trace, step,
                    step.GapDiscovery? && HasToLook(cfg, s) && s.mem.resolvedGap == ""
                    && s.mem.capabilities.canDiscoverGaps)
  {
    hide SendsIf, DiscoverGap, Learn, StartsWith;
    SendsNothing(s.trace, step);
    LearnSends(s, cfg.operatorGap, FROM_OPERATOR, step);
    LearnSends(s, cfg.envGap, FROM_ENVIRONMENT, step);
    LearnSends(s, s.mem.capabilities.gapId, FROM_CAPABILITIES, step);
    DiscoverGapSends(cfg, s, step);
    var r := DiscoverGap(cfg, s);
    if r.out.Ok? {
      LearnSends(r.sys, r.out.value, GAPS_LIST, step);
      SendsOn(s.trace, r.sys.trace, Learn(r.sys, r.out.value, GAPS_LIST).trace, step,
              step.GapDiscovery? && s.mem.capabilities.canDiscoverGaps, false);
    }
  }

  /** What a resolution that returns leaves in memory. */
  predicate IsHeld(cfg: Config, s: Sys, r: Run<string>) {
    r.out.Ok? ==>
      && r.sys.mem.resolvedGap == r.out.value && r.sys.mem.capabilities == s.mem.capabilities
      && r.sys.mem.rec.Some? && Current(r.sys).HasClaim() == Current(s).HasClaim()
      && Current(r.sys).gapId == Current(s).gapId
      && (HasToLook(cfg, s) && s.mem.resolvedGap == "" ==>
            s.mem.capabilities.canDiscoverGaps && r.sys.mem.gapSource == GAPS_LIST)
      && (cfg.operatorGap == "" ==> r.out.value != "")
  }

  lemma LookedUpIsHeld(cfg: Config, s: Sys)
    requires s.mem.rec.Some? && cfg.operatorGap == ""
    ensures IsHeld(cfg, s, LookUpGap(cfg, s))
  {
    hide Keeps, DiscoverGap, StartsWith;
    DiscoveryKeepsRecord(cfg, s);
    KeptClaim(s, DiscoverGap(cfg, s).sys);
    CannotDiscover(cfg, s);
  }

  lemma ResolvedIsHeld(cfg: Config, s: Sys)
    requires s.mem.rec.Some?
    ensures var r := ResolveGap(cfg, s);
      && IsHeld(cfg, s, r)
      && (r.out.Ok? && HasToLook(cfg, s) && s.mem.resolvedGap == "" ==> r.sys.mem.gapVerified)
  {
    hide LookUpGap, StartsWith;
    if cfg.operatorGap == "" {
      LookedUpIsHeld(cfg, s);
    }
  }

  lemma KeptClaim(s: Sys, s': Sys)
    requires Keeps(Current(s), Current(s'))
    ensures Current(s').HasClaim() == Current(s).HasClaim() && Current(s').gapId == Current(s).gapId
  {
  }

  lemma CannotDiscover(cfg: Config, s: Sys)
    ensures !s.mem.capabilities.canDiscoverGaps ==> !DiscoverGap(cfg, s).out.Ok?
  {
  }

  // ---- From the gap to the claim ----

  /** A client whose gap is neither looked up nor claimed yet. */
  predicate IsFresh(s: Sys) {
    && s.mem.rec.Some? && !Current(s).HasClaim() && !s.mem.gapVerified
    && (!Current(s).HasGap() ==> s.mem.resolvedGap == "")
  }

  /** The client before it asks for the digest of its claim. */
  function Refreshed(cfg: Config, s: Sys): Run<()> {
    RefreshGap(cfg, EnsureGap(cfg, s).sys)
  }

  lemma EnsureGapSends(cfg: Config, s: Sys, step: Phase)
    requires IsFresh(s) && EnsureGap(cfg, s).out.Ok?
    ensures var g := EnsureGap(cfg, s).sys;
      && SendsIf(s.trace, g.trace, step, step.GapDiscovery? && HasToLook(cfg, s) && !Current(s).HasGap())
      && g.mem.rec.Some? && !Current(g).HasClaim() && g.mem.capabilities == s.mem.capabilities
      && (cfg.operatorGap == "" ==> Current(g).HasGap())
      && (HasToLook(cfg, s) && !Current(s).HasGap() ==> g.mem.gapVerified && g.mem.resolvedGap != "")
      && (Current(s).HasGap() ==> g == s)
  {
    hide SendsIf, ResolveGap, Persist;
    SendsNothing(s.trace, step);
    if !Current(s).HasGap() {
      ResolveGapSends(cfg, s, step);
      ResolvedIsHeld(cfg, s);
      var r := ResolveGap(cfg, s);
      var rec := GapKnown(Current(r.sys), r.out.value, r.sys.mem.gapSource);
      PersistSends(r.sys, rec, step);
      SendsOn(s.trace, r.sys.trace, Persist(r.sys, rec).trace, step, step.GapDiscovery? && HasToLook(cfg, s), false);
      SavedMemory(r.sys, rec);
    }
  }

  lemma RefreshGapSends(cfg: Config, s: Sys, step: Phase)
    requires s.mem.rec.Some? && !Current(s).HasClaim() && RefreshGap(cfg, s).out.Ok?
    requires cfg.operatorGap == "" ==> Current(s).HasGap()
    ensures var f := RefreshGap(cfg, s).sys;
      && SendsIf(s.trace, f.trace, step, step.GapDiscovery? && HasToLook(cfg, s) && !s.mem.gapVerified)
      && f.mem.rec.Some? && f.mem.capabilities == s.mem.capabilities
      && (cfg.operatorGap == "" && !s.mem.gapVerified ==> f.mem.resolvedGap != "")
      && (s.mem.gapVerified ==> f == s)
  {
    hide SendsIf, ResolveGap, Persist;
    SendsNothing(s.trace, step);
    if !s.mem.gapVerified && cfg.operatorGap == "" {
      var s0 := s.(mem := s.mem.(resolvedGap := ""));
      ResolveGapSends(cfg, s0, step);
      ResolvedIsHeld(cfg, s0);
      var r := ResolveGap(cfg, s0);
      var rec := GapKnown(Current(r.sys), r.out.value, r.sys.mem.gapSource);
      PersistSends(r.sys, rec, step);
      SendsOn(s.trace, r.sys.trace, Persist(r.sys, rec).trace, step, step.GapDiscovery? && HasToLook(cfg, s), false);
      SavedMemory(r.sys, rec);
    }
  }

  lemma CanonicalDigestSends(s: Sys, step: Phase)
    ensures SendsIf(s.trace, CanonicalDigest(s).sys.trace, step, false)
  {
    hide SendsIf, Fetch, AsAccepted, CanonicalDigestOf;
    FetchSends(s, ReadCanonicalDigest, step);
  }

  lemma ClaimDigestSends(s: Sys, step: Phase)
    ensures SendsIf(s.trace, ClaimDigest(s).sys.trace, step, step.PreclaimContext? && CanonicalDigest(s).out == Ok(""))
  {
    hide SendsIf, CanonicalDigest, CallAndSettle, ContextIdOf;
    CanonicalDigestSends(s, step);
    var c := CanonicalDigest(s).sys;
    CallSends(c, CompilePreclaim, PreclaimCompiling, step);
    SendsOn(s.trace, c.trace, CallAndSettle(c, CompilePreclaim, PreclaimCompiling).sys.trace, step, false,
            step.PreclaimContext?);
  }

  lemma DigestKeepsMemory(s: Sys)
    requires s.mem.rec.Some?
    ensures var d := ClaimDigest(s).sys;
      && d.mem.resolvedGap == s.mem.resolvedGap && d.mem.capabilities == s.mem.capabilities && d.mem.rec.Some?
  {
    hide CallAndSettle, ContextIdOf, AsAccepted, CanonicalDigestOf;
    var c := CanonicalDigest(s).sys;
    CallKeepsRecord(c, CompilePreclaim, PreclaimCompiling);
    hide Keeps;
  }

  /** The two questions. */
  predicate IsQuestion(step: Phase) {
    step.GapDiscovery? || step.PreclaimContext?
  }

  /** When a question is asked on the way from a client without a claim to the claim. */
  predicate IsAsked(cfg: Config, s: Sys, step: Phase) {
    if step.GapDiscovery? then HasToLook(cfg, s) else CanonicalDigest(Refreshed(cfg, s).sys).out == Ok("")
  }

  lemma MakeClaimSends(cfg: Config, s: Sys, step: Phase)
    requires s.mem.rec.Some? && !Current(s).HasClaim() && MakeClaim(cfg, s).out.Ok? && IsQuestion(step)
    requires cfg.operatorGap == "" ==> Current(s).HasGap()
    requires HasToLook(cfg, s) && s.mem.gapVerified ==> s.mem.resolvedGap != ""
    ensures SendsIf(s.trace, MakeClaim(cfg, s).sys.trace, step,
                    if step.GapDiscovery? then HasToLook(cfg, s) && !s.mem.gapVerified
                    else CanonicalDigest(RefreshGap(cfg, s).sys).out == Ok(""))
  {
    hide SendsIf, RefreshGap, ClaimDigest, ResolveGap, CallAndSettle, CanonicalDigest, ClaimIdOf, ClaimRefOf;
    RefreshGapSends(cfg, s, step);
    var f := RefreshGap(cfg, s).sys;
    ClaimDigestSends(f, step);
    var d := ClaimDigest(f).sys;
    var looks := step.GapDiscovery? && HasToLook(cfg, s) && !s.mem.gapVerified;
    var compiles := step.PreclaimContext? && CanonicalDigest(f).out == Ok("");
    SendsOn(s.trace, f.trace, d.trace, step, looks, compiles);
    DigestKeepsMemory(f);
    ResolveGapSends(cfg, d, step);
    var g := ResolveGap(cfg, d);
    SendsOn(s.trace, d.trace, g.sys.trace, step, looks || compiles, false);
    CallSends(g.sys, ClaimGap(g.out.value), Claiming, step);
    SendsOn(s.trace, g.sys.trace, CallAndSettle(g.sys, ClaimGap(g.out.value), Claiming).sys.trace, step,
            looks || compiles, false);
  }

  lemma EnsureClaimSends(cfg: Config, s: Sys, step: Phase)
    requires !Current(s).HasClaim() && EnsureClaim(cfg, s).out.Ok?
    ensures forall asked :: SendsIf(s.trace, MakeClaim(cfg, s).sys.trace, step, asked) ==>
              SendsIf(s.trace, EnsureClaim(cfg, s).sys.trace, step, asked)
  {
    hide SendsIf, MakeClaim, Persist, Claimed;
    var r := MakeClaim(cfg, s);
    var rec := Claimed(Current(r.sys), r.out.value);
    PersistSends(r.sys, rec, step);
    forall asked | SendsIf(s.trace, r.sys.trace, step, asked)
      ensures SendsIf(s.trace, EnsureClaim(cfg, s).sys.trace, step, asked)
    {
      SendsOn(s.trace, r.sys.trace, Persist(r.sys, rec).trace, step, asked, false);
    }
  }

  lemma LaterPhasesSpare(cfg: Config, s: Sys, step: Phase)
    requires IsQuestion(step)
    ensures SendsIf(s.trace, FinishRegistration(cfg, s).sys.trace, step, false)
  {
    hide SendsIf, EnsureRegistration, EnsureContext, EnsureReceipt;
    RegistrationSpares(s, step);
    var r := EnsureRegistration(s).sys;
    ContextSpares(r, step);
    var x := EnsureContext(r).sys;
    ReceiptSpares(cfg, x, step);
    SendsOn(r.trace, x.trace, EnsureReceipt(cfg, x).sys.trace, step, false, false);
    SendsOn(s.trace, r.trace, x.trace, step, false, false);
    SendsOn(s.trace, r.trace, FinishContext(cfg, r).sys.trace, step, false, false);
  }

  lemma RegistrationSpares(s: Sys, step: Phase)
    requires IsQuestion(step)
    ensures SendsIf(s.trace, EnsureRegistration(s).sys.trace, step, false)
  {
    hide SendsIf, CanonicalDigest, CallAndSettle, RegistrationIdOf, Persist, Registered;
    SendsNothing(s.trace, step);
    CanonicalDigestSends(s, step);
    var d := ClaimedDigest(s).sys;
    var rec := Current(d);
    var request := RegisterRepo(rec.gapId, rec.claimId, rec.claimRef);
    CallSends(d, request, Registering, step);
    var r := CallAndSettle(d, request, Registering);
    SendsOn(s.trace, d.trace, r.sys.trace, step, false, false);
    if r.out.Ok? && ClaimedDigest(s).out.Ok? {
      var now := Registered(Current(r.sys), Registration(RegistrationIdOf(r.out.value), ClaimedDigest(s).out.value));
      PersistSends(r.sys, now, step);
      SendsOn(s.trace, r.sys.trace, Persist(r.sys, now).trace, step, false, false);
    }
  }

  lemma ContextSpares(s: Sys, step: Phase)
    requires IsQuestion(step)
    ensures SendsIf(s.trace, EnsureContext(s).sys.trace, step, false)
  {
    hide SendsIf, CanonicalDigest, CallAndSettle, ContextIdOf, Persist, Compiled;
    SendsNothing(s.trace, step);
    CanonicalDigestSends(s, step);
    var d := CanonicalDigest(s).sys;
    var request := CompileContext(Current(d).registrationId);
    CallSends(d, request, Compiling, step);
    var r := CallAndSettle(d, request, Compiling);
    SendsOn(s.trace, d.trace, r.sys.trace, step, false, false);
    if r.out.Ok? {
      var now := Compiled(Current(r.sys), ContextIdOf(r.out.value));
      PersistSends(r.sys, now, step);
      SendsOn(s.trace, r.sys.trace, Persist(r.sys, now).trace, step, false, false);
    }
  }

  lemma ReceiptSpares(cfg: Config, s: Sys, step: Phase)
    requires IsQuestion(step)
    ensures SendsIf(s.trace, EnsureReceipt(cfg, s).sys.trace, step, false)
  {
    hide SendsIf, CallAndSettle, ReadReceipt, Persist, Receipted;
    SendsNothing(s.trace, step);
    var contextId := Current(s).contextId;
    var candidate := cfg.candidateFor(contextId);
    PersistSends(s, Current(s).(candidate := candidate), step);
    var s1 := Persist(s, Current(s).(candidate := candidate));
    CallSends(s1, Realize(contextId, candidate), Realizing, step);
    var r := CallAndSettle(s1, Realize(contextId, candidate), Realizing);
    SendsOn(s.trace, s1.trace, r.sys.trace, step, false, false);
    if r.out.Ok? && ReadReceipt(cfg, r.out.value, candidate).Ok? {
      var now := Receipted(Current(r.sys), ReadReceipt(cfg, r.out.value, candidate).value);
      PersistSends(r.sys, now, step);
      SendsOn(s.trace, r.sys.trace, Persist(r.sys, now).trace, step, false, false);
    }
  }

  /** The phases that finish, from a client without a claim. */
  lemma AdvanceSends(cfg: Config, s: Sys, step: Phase)
    requires IsFresh(s) && Advance(cfg, s).out.Ok? && IsQuestion(step)
    ensures SendsIf(s.trace, Advance(cfg, s).sys.trace, step, IsAsked(cfg, s, step))
  {
    hide SendsIf, Advance, EnsureGap, MakeClaim, FinishRegistration, RefreshGap, CanonicalDigest, Persist, Claimed;
    AdvanceIsFinishing(cfg, s);
    EnsureGapSends(cfg, s, step);
    var g := EnsureGap(cfg, s).sys;
    MakeClaimSends(cfg, g, step);
    EnsureClaimSends(cfg, g, step);
    var c := EnsureClaim(cfg, g).sys;
    LaterPhasesSpare(cfg, c, step);
    var before := step.GapDiscovery? && HasToLook(cfg, s) && !Current(s).HasGap();
    var there := if step.GapDiscovery? then HasToLook(cfg, g) && !g.mem.gapVerified
                 else CanonicalDigest(RefreshGap(cfg, g).sys).out == Ok("");
    SendsOn(s.trace, g.trace, c.trace, step, before, there);
    SendsOn(s.trace, c.trace, FinishRegistration(cfg, c).sys.trace, step, before || there, false);
  }

  // ---- Up to the phases ----

  lemma TakingSpares(cfg: Config, s: Sys, data: Json, step: Phase)
    ensures SendsIf(s.trace, TakeResult(cfg, s, data).sys.trace, step, false)
  {
    hide SendsIf, Recovered, Persist, Learn;
    SendsNothing(s.trace, step);
    var next := Recovered(cfg, Current(s), s.mem.gapSource, data);
    if next.Ok? {
      PersistSends(s, next.value, step);
      LearnSends(s, next.value.gapId, s.mem.gapSource, step);
      var s1 := Learn(s, next.value.gapId, s.mem.gapSource);
      PersistSends(s1, next.value, step);
      SendsOn(s.trace, s1.trace, Persist(s1, next.value).trace, step, false, false);
    }
  }

  lemma {:induction false} PollsSpare(cfg: Config, s: Sys, paths: seq<string>, last: string, step: Phase)
    ensures SendsIf(s.trace, PollPaths(cfg, s, paths, last).sys.trace, step, false)
    decreases |paths|
  {
    hide SendsIf, TakeResult, Persist, IsFinished, IsFailed, RunStatus, AsAccepted, FailureCode, Fetch;
    if paths == [] {
      PersistSends(s, Current(s).(status := last, terminal := false), step);
    } else {
      FetchSends(s, Poll(paths[0]), step);
      var f := Fetch(s, Poll(paths[0]));
      if f.out.Ok? {
        var reply := f.out.value;
        if IsMissing(reply) {
          var rec := Current(f.sys).(status := "RUN_NOT_FOUND", errorCode := "RUN_NOT_FOUND", terminal := false);
          PersistSends(f.sys, rec, step);
          SendsOn(s.trace, f.sys.trace, Persist(f.sys, rec).trace, step, false, false);
        } else if AsAccepted(reply).Ok? {
          var data := AsAccepted(reply).value;
          if !IsFinished(data) {
            var next := if RunStatus(data) != "" then RunStatus(data) else "pending";
            PollsSpare(cfg, f.sys, paths[1..], next, step);
            SendsOn(s.trace, f.sys.trace, PollPaths(cfg, f.sys, paths[1..], next).sys.trace, step, false, false);
          } else if IsFailed(RunStatus(data)) {
            var code := if FailureCode(data) != "" then FailureCode(data) else "RUN_FAILED";
            var rec := Current(f.sys).(status := code, errorCode := code, terminal := true);
            PersistSends(f.sys, rec, step);
            SendsOn(s.trace, f.sys.trace, Persist(f.sys, rec).trace, step, false, false);
          } else {
            TakingSpares(cfg, f.sys, data, step);
            SendsOn(s.trace, f.sys.trace, TakeResult(cfg, f.sys, data).sys.trace, step, false, false);
          }
        }
      }
    }
  }

  lemma PreparingSpares(cfg: Config, s: Sys, step: Phase)
    ensures SendsIf(s.trace, Prepared(cfg, s).sys.trace, step, false)
  {
    hide SendsIf, Load, Discover, PollPaths, Persist;
    SendsNothing(s.trace, step);
    var l := Load(cfg, s).sys;
    LoadIsHarmless(cfg, s);
    LoadKeepsTrace(cfg, s);
    PersistSends(l, Current(l).(status := "initialized", terminal := false), step);
    var o := Open(cfg, s, true).sys;
    DiscoverSends(cfg, o, step);
    var d := Discover(cfg, o).sys;
    SendsOn(s.trace, o.trace, d.trace, step, false, false);
    SendsNothing(d.trace, step);
    PollsSpare(cfg, d, SavedPaths(Current(d).runId, Current(d).pollUrl), "pending", step);
    SendsOn(s.trace, d.trace, Recover(cfg, d).sys.trace, step, false, false);
  }

  lemma LoadKeepsTrace(cfg: Config, s: Sys)
    ensures Load(cfg, s).sys.trace == s.trace
  {
  }

  lemma DiscoverSends(cfg: Config, s: Sys, step: Phase)
    ensures SendsIf(s.trace, Discover(cfg, s).sys.trace, step, false)
  {
    hide SendsIf, Fetch, AsObject;
    FetchSends(s, ReadCapabilities, step);
  }

  /** A gap that is not on record is not in memory either. */
  predicate GapIsShared(s: Sys) {
    s.mem.rec.Some? && (!Current(s).HasGap() ==> s.mem.resolvedGap == "")
  }

  lemma NoteSharesGap(s: Sys, r: Record)
    requires GapIsShared(s) && r.gapId == Current(s).gapId
    ensures GapIsShared(Persist(s, r))
  {
  }

  lemma TakingSharesGap(cfg: Config, s: Sys, data: Json)
    requires GapIsShared(s)
    ensures GapIsShared(TakeResult(cfg, s, data).sys)
  {
    RecoveredGapIsReal(cfg, Current(s), s.mem.gapSource, data);
    hide Recovered;
  }

  lemma {:induction false} PollsShareGap(cfg: Config, s: Sys, paths: seq<string>, last: string)
    requires GapIsShared(s)
    ensures GapIsShared(PollPaths(cfg, s, paths, last).sys)
    decreases |paths|
  {
    hide TakeResult, Persist, IsFinished, IsFailed, RunStatus, AsAccepted, FailureCode;
    if paths == [] {
      NoteSharesGap(s, Current(s).(status := last, terminal := false));
    } else {
      var f := Fetch(s, Poll(paths[0])).sys;
      if s.tape != [] {
        var reply := s.tape[0];
        if IsMissing(reply) {
          NoteSharesGap(f, Current(f).(status := "RUN_NOT_FOUND", errorCode := "RUN_NOT_FOUND", terminal := false));
        } else if AsAccepted(reply).Ok? {
          var data := AsAccepted(reply).value;
          if !IsFinished(data) {
            PollsShareGap(cfg, f, paths[1..], if RunStatus(data) != "" then RunStatus(data) else "pending");
          } else if IsFailed(RunStatus(data)) {
            var code := if FailureCode(data) != "" then FailureCode(data) else "RUN_FAILED";
            NoteSharesGap(f, Current(f).(status := code, errorCode := code, terminal := true));
          } else {
            TakingSharesGap(cfg, f, data);
          }
        }
      }
    }
  }

  lemma OpeningSharesGap(cfg: Config, s: Sys)
    requires Starting(cfg, s)
    ensures Open(cfg, s, true).out.Ok? ==> GapIsShared(Open(cfg, s, true).sys)
  {
    hide Good, SavedNow, SessionStart, Asking;
  }

  lemma PreparedSharesGap(cfg: Config, s: Sys)
    requires Starting(cfg, s)
    ensures Prepared(cfg, s).out.Ok? ==> GapIsShared(Prepared(cfg, s).sys) && !Prepared(cfg, s).sys.mem.gapVerified
  {
    hide Starting, Working, Good, Continues, Open, Discover, PollPaths, Asking, SessionGaps, SessionStart;
    OpenIsSafe(cfg, s, true);
    OpeningSharesGap(cfg, s);
    StartsWithoutClaim(cfg, s);
    var o := Open(cfg, s, true);
    if o.out.Ok? {
      DiscoverAndRecoverIsSafe(cfg, o.sys);
      DiscoveredSharesGap(cfg, o.sys);
      var d := Discover(cfg, o.sys).sys;
      PollsShareGap(cfg, d, SavedPaths(Current(d).runId, Current(d).pollUrl), "pending");
    }
  }

  lemma StartsWithoutClaim(cfg: Config, s: Sys)
    requires Starting(cfg, s)
    ensures !Asking(s.trace).now
  {
  }

  lemma DiscoveredSharesGap(cfg: Config, s: Sys)
    requires GapIsShared(s)
    ensures GapIsShared(Discover(cfg, s).sys)
  {
    hide AsObject;
  }

  // ---- A whole resume ----

  /** A resume that returns asks each of the two questions exactly if there is no claim on record after the recovery
      and, for the gap, neither operator nor environment nor capabilities name it; for the preclaim context, the
      server knows no canonical digest then. What the polls of an earlier question brought does not matter. */
  lemma QuestionIsAskedAgain(cfg: Config, s: Sys, step: Phase)
    requires Starting(cfg, s) && IsQuestion(step) && Resume(cfg, s, true).out.Ok?
    ensures var p, trace := Prepared(cfg, s), Resume(cfg, s, true).sys.trace;
      Sends(s.trace, trace, step) <==> !Current(p.sys).HasClaim() && IsAsked(cfg, p.sys, step)
  {
    hide Starting, Working, Prepared, Resume, Advance, SendsIf, IsAsked, Inv, Sends;
    PreparingSpares(cfg, s, step);
    PreparedIsWorking(cfg, s);
    PreparedSharesGap(cfg, s);
    ResumeIsAdvance(cfg, s);
    var p := Prepared(cfg, s).sys;
    var a := Advance(cfg, p).sys;
    WorkingHolds(cfg, p);
    if Current(p).HasClaim() {
      ClaimedAdvanceSpares(cfg, p, step);
      SendsOn(s.trace, p.trace, a.trace, step, false, false);
      SendsOrSpares(s.trace, a.trace, step, false);
    } else {
      AdvanceSends(cfg, p, step);
      SendsOn(s.trace, p.trace, a.trace, step, false, IsAsked(cfg, p, step));
      SendsOrSpares(s.trace, a.trace, step, IsAsked(cfg, p, step));
    }
  }

  lemma SendsOrSpares(a: seq<Event>, b: seq<Event>, step: Phase, condition: bool)
    requires SendsIf(a, b, step, condition)
    ensures Sends(a, b, step) <==> condition
  {
    hide AsksFor;
  }

  lemma ClaimedAdvanceSpares(cfg: Config, s: Sys, step: Phase)
    requires Inv(Current(s)) && Current(s).HasClaim() && IsQuestion(step)
    ensures SendsIf(s.trace, Advance(cfg, s).sys.trace, step, false)
  {
    LaterPhasesSpare(cfg, s, step);
    AdvanceIsFinishing(cfg, s);
    assert Current(s).HasGap();
    hide SendsIf, Inv, FinishRegistration, MakeClaim, ResolveGap, Advance;
  }

  /** A record that waits for one of the two answers has no claim, whatever its run brings. */
  lemma PendingQuestionHasNoClaim(cfg: Config, s: Sys)
    requires Starting(cfg, s) && s.disk.latest.Some? && IsQuestion(s.disk.latest.value.step)
    requires Polls(s.disk.latest.value) != 0
    ensures Prepared(cfg, s).out.Ok? ==> !Current(Prepared(cfg, s).sys).HasClaim()
  {
    hide Starting, Inv, Prepared, Load, Discover, Recover, Polls, Recovered, AllUnfinished, FinishedAmong;
    PreparedFromDisk(cfg, s);
    SavedIsInvariant(cfg, s);
    if Prepared(cfg, s).out.Ok? {
      var d := Discover(cfg, Load(cfg, s).sys).sys;
      RecoveryIsDecided(cfg, d);
      QuestionHasNoClaim(s.disk.latest.value);
      var done := FinishedAmong(d.tape, Polls(Current(d)));
      if done.Some? {
        RecoveredHasNoClaim(cfg, Current(d), d.mem.gapSource, done.value);
      }
    }
  }

  lemma QuestionHasNoClaim(r: Record)
    requires Inv(r) && IsQuestion(r.step)
    ensures !r.HasClaim()
  {
  }

  lemma RecoveredHasNoClaim(cfg: Config, rec: Record, source: string, data: Json)
    requires IsQuestion(rec.step) && !rec.HasClaim()
    ensures var next := Recovered(cfg, rec, source, data); next.Ok? ==> !next.value.HasClaim()
  {
    hide Select, ReadReceipt, ContextIdOf;
  }

  /** So a question whose answer is awaited is asked again, whatever its run brought in the meantime. */
  lemma PendingQuestionIsAskedAgain(cfg: Config, s: Sys)
    requires Starting(cfg, s) && s.disk.latest.Some? && IsQuestion(s.disk.latest.value.step)
    requires Polls(s.disk.latest.value) != 0 && Resume(cfg, s, true).out.Ok?
    ensures var step := s.disk.latest.value.step;
      Sends(s.trace, Resume(cfg, s, true).sys.trace, step) <==> IsAsked(cfg, Prepared(cfg, s).sys, step)
  {
    hide Starting, Prepared, Resume, Advance, Sends, IsAsked, Polls;
    PendingQuestionHasNoClaim(cfg, s);
    QuestionIsAskedAgain(cfg, s, s.disk.latest.value.step);
    ResumeIsAdvance(cfg, s);
  }
}
