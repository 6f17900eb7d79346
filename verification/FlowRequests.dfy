// Which requests a resume sends: those of the steps that the record lacks, in order, and again for a step whose saved
// run has not brought its answer.
module FlowRequests {
  import opened Json
  import opened Text
  import opened ReplyFields
  import opened FlowState
  import opened FlowSpec
  import opened FlowSafety
  import opened FlowRecovery

  /** The step that a request asks for; reading, polling and preparing ask for none. */
  function StepOf(request: Request): seq<Action> {
    match request
    case ClaimGap(_) => [Claiming]
    case RegisterRepo(_, _, _) => [Registering]
    case CompileContext(_) => [Compiling]
    case Realize(_, _) => [Realizing]
    case _ => []
  }

  /** The steps that these events asked for, in order. */
  function StepsOf(events: seq<Event>): seq<Action> {
    if events == [] then []
    else
      var last := events[|events| - 1];
      StepsOf(events[..|events| - 1]) + if last.Sent? then StepOf(last.request) else []
  }

  /** From one trace to a longer one, exactly these steps were asked for. */
  predicate Asks(trace: seq<Event>, trace': seq<Event>, steps: seq<Action>) {
    trace <= trace' && StepsOf(trace'[|trace|..]) == steps
  }

  /** The steps that a record still lacks. */
  function Due(r: Record): seq<Action> {
    (if r.HasClaim() then [] else [Claiming])
    + (if r.HasRegistration() then [] else [Registering])
    + (if r.HasContext() then [] else [Compiling])
    + (if r.IsSettled() then [] else [Realizing])
  }

  // ---- Traces ----

  lemma {:induction false} StepsOfBoth(a: seq<Event>, b: seq<Event>)
    ensures StepsOf(a + b) == StepsOf(a) + StepsOf(b)
  {
    hide StepOf;
    var both := a + b;
    if b == [] {
      assert both == a;
    } else {
      var init, last := b[..|b| - 1], b[|b| - 1];
      StepsOfBoth(a, init);
      assert both[..|both| - 1] == a + init && both[|both| - 1] == last;
      var step := if last.Sent? then StepOf(last.request) else [];
      assert StepsOf(both) == StepsOf(a + init) + step && StepsOf(b) == StepsOf(init) + step;
    }
  }

  lemma AsksOn(a: seq<Event>, b: seq<Event>, c: seq<Event>, x: seq<Action>, y: seq<Action>)
    requires Asks(a, b, x) && Asks(b, c, y)
    ensures Asks(a, c, x + y)
  {
    assert c[|a|..] == b[|a|..] + c[|b|..];
    StepsOfBoth(b[|a|..], c[|b|..]);
  }

  lemma AsksNothing(trace: seq<Event>)
    ensures Asks(trace, trace, [])
  {
  }

  lemma LogAsks(s: Sys, e: Event)
    ensures Asks(s.trace, Log(s, e).trace, if e.Sent? then StepOf(e.request) else [])
  {
    assert Log(s, e).trace[|s.trace|..] == [e];
    assert [e][..0] == [];
  }

  lemma FetchAsks(s: Sys, request: Request)
    ensures Asks(s.trace, Fetch(s, request).sys.trace, StepOf(request))
  {
    var s1 := Log(s, Sent(request, s.disk.latest));
    LogAsks(s, Sent(request, s.disk.latest));
    hide StepsOf, StepOf;
    if s.tape != [] {
      LogAsks(s1, Got(s.tape[0]));
      AsksOnce(s.trace, s1.trace, Log(s1, Got(s.tape[0])).trace, StepOf(request));
    }
  }

  lemma PersistAsks(s: Sys, r: Record)
    ensures Asks(s.trace, Persist(s, r).trace, [])
  {
    var w := r.(updatedAt := s.clock);
    var half := s.trace + [Saved(s.disk.latest, w)];
    LogAsks(s, Saved(s.disk.latest, w));
    LogAsks(s.(trace := half), Filed(w));
    assert Persist(s, r).trace == half + [Filed(w)];
    hide StepsOf, StepOf;
    QuietOn(s.trace, half, Persist(s, r).trace);
  }

  lemma QuietOn(a: seq<Event>, b: seq<Event>, c: seq<Event>)
    requires Asks(a, b, []) && Asks(b, c, [])
    ensures Asks(a, c, [])
  {
    hide Asks;
    var none: seq<Action> := [];
    AsksOn(a, b, c, none, none);
    assert none + none == none;
  }

  /** Quiet before or after a request. */
  lemma AsksOnce(a: seq<Event>, b: seq<Event>, c: seq<Event>, steps: seq<Action>)
    ensures Asks(a, b, []) && Asks(b, c, steps) ==> Asks(a, c, steps)
    ensures Asks(a, b, steps) && Asks(b, c, []) ==> Asks(a, c, steps)
  {
    hide Asks;
    assert [] + steps == steps && steps + [] == steps;
    if Asks(a, b, []) && Asks(b, c, steps) {
      AsksOn(a, b, c, [], steps);
    }
    if Asks(a, b, steps) && Asks(b, c, []) {
      AsksOn(a, b, c, steps, []);
    }
  }

  // ---- What asks for nothing ----

  lemma {:induction false} WaitRoundAsks(s: Sys, paths: seq<string>)
    ensures Asks(s.trace, WaitRound(s, paths).sys.trace, [])
    decreases |paths|
  {
    AsksNothing(s.trace);
    if paths != [] {
      FetchAsks(s, Poll(paths[0]));
      hide Asks, IsFinished, IsFailed, RunStatus, AsAccepted, Fetch;
      var r := Call(s, Poll(paths[0]));
      if r.out.Ok? && !IsFinished(r.out.value) {
        WaitRoundAsks(r.sys, paths[1..]);
        QuietOn(s.trace, r.sys.trace, WaitRound(r.sys, paths[1..]).sys.trace);
      }
    }
  }

  lemma {:induction false} WaitAsks(s: Sys, paths: seq<string>)
    requires paths != []
    ensures Asks(s.trace, Wait(s, paths).sys.trace, [])
    decreases |s.tape|
  {
    AsksNothing(s.trace);
    hide Asks;
    if !(s.tape != [] && s.tape[0].TimeUp?) {
      WaitRoundAsks(s, paths);
      var r := WaitRound(s, paths);
      if r.out.Ok? && r.out.value.None? {
        WaitAsks(r.sys, paths);
        QuietOn(s.trace, r.sys.trace, Wait(r.sys, paths).sys.trace);
      }
    }
  }

  lemma SettleAsks(s: Sys, data: Json, action: Action)
    ensures Asks(s.trace, Settle(s, data, action).sys.trace, [])
  {
    AsksNothing(s.trace);
    hide Asks, RunStatus, RunIdOf, PollUrlOf, IsActive;
    if IsActive(RunStatus(data)) {
      var rec := Current(s).(step := PendingPhase(action), status := RunStatus(data), terminal := false,
                             runId := RunIdOf(data), pollUrl := PollUrlOf(data));
      PersistAsks(s, rec);
      var s1 := Persist(s, rec);
      hide Persist, Current, PendingPhase;
      if RunIdOf(data) != "" || PollUrlOf(data) != "" {
        var paths := WaitPaths(RunIdOf(data), PollUrlOf(data));
        WaitAsks(s1, paths);
        QuietOn(s.trace, s1.trace, Wait(s1, paths).sys.trace);
      }
    }
  }

  lemma CallAsks(s: Sys, request: Request, action: Action)
    ensures Asks(s.trace, CallAndSettle(s, request, action).sys.trace, StepOf(request))
  {
    FetchAsks(s, request);
    hide Asks, Fetch, AsAccepted, Settle, StepOf;
    var r := Call(s, request);
    if r.out.Ok? {
      SettleAsks(r.sys, r.out.value, action);
      AsksOnce(s.trace, r.sys.trace, Settle(r.sys, r.out.value, action).sys.trace, StepOf(request));
    }
  }

  lemma DiscoverGapAsks(cfg: Config, s: Sys)
    ensures Asks(s.trace, DiscoverGap(cfg, s).sys.trace, [])
  {
    AsksNothing(s.trace);
    hide Asks, CallAndSettle, Select;
    if s.mem.capabilities.canDiscoverGaps {
      CallAsks(s, ListGaps(true), Discovering);
      var first := QueryGaps(cfg, s, true);
      CallAsks(first.sys, ListGaps(false), Discovering);
      QuietOn(s.trace, first.sys.trace, QueryGaps(cfg, first.sys, false).sys.trace);
    }
  }

  lemma LearnAsks(s: Sys, gapId: string, source: string)
    ensures Asks(s.trace, Learn(s, gapId, source).trace, [])
  {
    LogAsks(s, Resolved(gapId));
    hide Asks;
  }

  lemma LookUpGapAsks(cfg: Config, s: Sys)
    ensures Asks(s.trace, LookUpGap(cfg, s).sys.trace, [])
  {
    AsksNothing(s.trace);
    LearnAsks(s, cfg.envGap, FROM_ENVIRONMENT);
    LearnAsks(s, s.mem.capabilities.gapId, FROM_CAPABILITIES);
    DiscoverGapAsks(cfg, s);
    hide Asks, DiscoverGap, Learn, StartsWith;
    var r := DiscoverGap(cfg, s);
    if r.out.Ok? {
      LearnAsks(r.sys, r.out.value, GAPS_LIST);
      QuietOn(s.trace, r.sys.trace, Learn(r.sys, r.out.value, GAPS_LIST).trace);
    }
  }

  lemma ResolveGapAsks(cfg: Config, s: Sys)
    ensures Asks(s.trace, ResolveGap(cfg, s).sys.trace, [])
  {
    AsksNothing(s.trace);
    LearnAsks(s, cfg.operatorGap, FROM_OPERATOR);
    LookUpGapAsks(cfg, s);
    hide Asks, LookUpGap, Learn, StartsWith;
  }

  lemma RefreshGapAsks(cfg: Config, s: Sys)
    ensures Asks(s.trace, RefreshGap(cfg, s).sys.trace, [])
  {
    AsksNothing(s.trace);
    var s0 := s.(mem := s.mem.(resolvedGap := ""));
    ResolveGapAsks(cfg, s0);
    hide Asks, ResolveGap, GapKnown;
    var r := ResolveGap(cfg, s0);
    var cached := if Current(s).gapId != "" then Current(s).gapId else s.mem.resolvedGap;
    if !s.mem.gapVerified && cfg.operatorGap == "" && cached != "" {
      match r.out
      case Ok(live) =>
        if live != cached {
          PersistAsks(r.sys, GapKnown(Current(r.sys), live, r.sys.mem.gapSource));
          QuietOn(s.trace, r.sys.trace, RefreshGap(cfg, s).sys.trace);
        }
      case Err(f) =>
        var s1 := r.sys.(mem := r.sys.mem.(resolvedGap := cached));
        PersistAsks(s1, Current(s1).(status := "no_claimable_gap", step := GapResolved, terminal := false,
                                     errorCode := "NO_CLAIMABLE_GAP"));
        QuietOn(s.trace, r.sys.trace, RefreshGap(cfg, s).sys.trace);
      case _ =>
    }
  }

  lemma CanonicalDigestAsks(s: Sys)
    ensures Asks(s.trace, CanonicalDigest(s).sys.trace, [])
  {
    FetchAsks(s, ReadCanonicalDigest);
    hide Asks, AsAccepted, CanonicalDigestOf, Fetch;
  }

  lemma ClaimDigestAsks(s: Sys)
    ensures Asks(s.trace, ClaimDigest(s).sys.trace, [])
  {
    CanonicalDigestAsks(s);
    hide Asks, CanonicalDigest, CallAndSettle, ContextIdOf;
    var r := CanonicalDigest(s);
    CallAsks(r.sys, CompilePreclaim, PreclaimCompiling);
    QuietOn(s.trace, r.sys.trace, CallAndSettle(r.sys, CompilePreclaim, PreclaimCompiling).sys.trace);
  }

  lemma PrepareClaimAsks(cfg: Config, s: Sys)
    ensures Asks(s.trace, PrepareClaim(cfg, s).sys.trace, [])
  {
    hide Asks, RefreshGap, ClaimDigest, ResolveGap;
    RefreshGapAsks(cfg, s);
    var f := RefreshGap(cfg, s);
    ClaimDigestAsks(f.sys);
    var d := ClaimDigest(f.sys);
    QuietOn(s.trace, f.sys.trace, d.sys.trace);
    ResolveGapAsks(cfg, d.sys);
    QuietOn(s.trace, d.sys.trace, ResolveGap(cfg, d.sys).sys.trace);
  }

  // ---- The phases ----

  lemma EnsureGapAsks(cfg: Config, s: Sys)
    ensures Asks(s.trace, EnsureGap(cfg, s).sys.trace, [])
  {
    AsksNothing(s.trace);
    ResolveGapAsks(cfg, s);
    hide Asks, ResolveGap, GapKnown;
    if !Current(s).HasGap() {
      var r := ResolveGap(cfg, s);
      match r.out
      case Ok(gapId) =>
        PersistAsks(r.sys, GapKnown(Current(r.sys), gapId, r.sys.mem.gapSource));
        QuietOn(s.trace, r.sys.trace, EnsureGap(cfg, s).sys.trace);
      case Err(f) =>
        PersistAsks(r.sys, Current(r.sys).(
                      status := if f.NoClaimableGap? then "no_claimable_gap" else "gap_resolution_failed",
                      step := GapResolution, terminal := false,
                      errorCode := if f.NoClaimableGap? then "NO_CLAIMABLE_GAP" else "GAP_RESOLUTION_FAILED"));
        QuietOn(s.trace, r.sys.trace, EnsureGap(cfg, s).sys.trace);
      case _ =>
    }
  }

  /** Nothing, or this step; this step if the call returned. */
  predicate AsksAtMost(trace: seq<Event>, trace': seq<Event>, step: Action, returned: bool) {
    Asks(trace, trace', [step]) || (!returned && Asks(trace, trace', []))
  }

  lemma AtMostOn(a: seq<Event>, b: seq<Event>, c: seq<Event>, step: Action, returned: bool)
    requires AsksAtMost(a, b, step, returned) && Asks(b, c, [])
    ensures AsksAtMost(a, c, step, returned)
  {
    hide Asks;
    AsksOnce(a, b, c, [step]);
    AsksOnce(a, b, c, []);
  }

  lemma MakeClaimAsks(cfg: Config, s: Sys)
    ensures AsksAtMost(s.trace, MakeClaim(cfg, s).sys.trace, Claiming, MakeClaim(cfg, s).out.Ok?)
  {
    PrepareClaimAsks(cfg, s);
    hide Asks, PrepareClaim, CallAndSettle, ClaimIdOf, ClaimRefOf;
    var p := PrepareClaim(cfg, s);
    if p.out.Ok? {
      CallAsks(p.sys, ClaimGap(p.out.value.0), Claiming);
      AsksOnce(s.trace, p.sys.trace, CallAndSettle(p.sys, ClaimGap(p.out.value.0), Claiming).sys.trace, [Claiming]);
    }
  }

  lemma EnsureClaimAsks(cfg: Config, s: Sys)
    ensures var r := EnsureClaim(cfg, s);
      if Current(s).HasClaim() then r.sys == s && r.out.Ok? else AsksAtMost(s.trace, r.sys.trace, Claiming, r.out.Ok?)
  {
    MakeClaimAsks(cfg, s);
    hide MakeClaim, Claimed, AsksAtMost;
    var r := MakeClaim(cfg, s);
    if !Current(s).HasClaim() && r.out.Ok? {
      PersistAsks(r.sys, Claimed(Current(r.sys), r.out.value));
      AtMostOn(s.trace, r.sys.trace, EnsureClaim(cfg, s).sys.trace, Claiming, true);
    }
  }

  lemma RegisterAsks(s: Sys)
    ensures AsksAtMost(s.trace, Register(s).sys.trace, Registering, Register(s).out.Ok?)
  {
    AsksNothing(s.trace);
    CanonicalDigestAsks(s);
    hide Asks, CanonicalDigest, CallAndSettle, RegistrationIdOf;
    var d := ClaimedDigest(s);
    if d.out.Ok? {
      var rec := Current(d.sys);
      var request := RegisterRepo(rec.gapId, rec.claimId, rec.claimRef);
      CallAsks(d.sys, request, Registering);
      AsksOnce(s.trace, d.sys.trace, CallAndSettle(d.sys, request, Registering).sys.trace, [Registering]);
    }
  }

  lemma EnsureRegistrationAsks(s: Sys)
    ensures var r := EnsureRegistration(s);
      if Current(s).HasRegistration() then r.sys == s && r.out.Ok?
      else AsksAtMost(s.trace, r.sys.trace, Registering, r.out.Ok?)
  {
    RegisterAsks(s);
    hide Register, Registered, AsksAtMost;
    var r := Register(s);
    if !Current(s).HasRegistration() && r.out.Ok? {
      PersistAsks(r.sys, Registered(Current(r.sys), r.out.value));
      AtMostOn(s.trace, r.sys.trace, EnsureRegistration(s).sys.trace, Registering, true);
    }
  }

  lemma CompileAsks(s: Sys)
    ensures AsksAtMost(s.trace, Compile(s).sys.trace, Compiling, Compile(s).out.Ok?)
  {
    CanonicalDigestAsks(s);
    hide Asks, CanonicalDigest, CallAndSettle, ContextIdOf;
    var d := CanonicalDigest(s);
    if d.out.Ok? {
      var request := CompileContext(Current(d.sys).registrationId);
      CallAsks(d.sys, request, Compiling);
      AsksOnce(s.trace, d.sys.trace, CallAndSettle(d.sys, request, Compiling).sys.trace, [Compiling]);
    }
  }

  lemma EnsureContextAsks(s: Sys)
    ensures var r := EnsureContext(s);
      if Current(s).HasContext() then r.sys == s && r.out.Ok?
      else AsksAtMost(s.trace, r.sys.trace, Compiling, r.out.Ok?)
  {
    CompileAsks(s);
    hide Compile, Compiled, AsksAtMost;
    var r := Compile(s);
    if !Current(s).HasContext() && r.out.Ok? {
      PersistAsks(r.sys, Compiled(Current(r.sys), r.out.value));
      AtMostOn(s.trace, r.sys.trace, EnsureContext(s).sys.trace, Compiling, true);
    }
  }

  lemma RealizeAsks(cfg: Config, s: Sys)
    ensures Asks(s.trace, RealizeGoverned(cfg, s).sys.trace, if cfg.gate.GatePasses? then [Realizing] else [])
    ensures !cfg.gate.GatePasses? ==> !RealizeGoverned(cfg, s).out.Ok?
  {
    AsksNothing(s.trace);
    hide Asks, CallAndSettle, ReadReceipt, Persist;
    var contextId := Current(s).contextId;
    var candidate := cfg.candidateFor(contextId);
    PersistAsks(s, Current(s).(candidate := candidate));
    var s1 := Persist(s, Current(s).(candidate := candidate));
    CallAsks(s1, Realize(contextId, candidate), Realizing);
    AsksOnce(s.trace, s1.trace, CallAndSettle(s1, Realize(contextId, candidate), Realizing).sys.trace, [Realizing]);
  }

  /** A realization is asked for whenever the record is not settled and the gate passes, whatever the server answers. */
  lemma EnsureReceiptAsks(cfg: Config, s: Sys)
    ensures var r := EnsureReceipt(cfg, s);
      if Current(s).IsSettled() then r.sys == s && r.out.Ok?
      else
        && Asks(s.trace, r.sys.trace, if cfg.gate.GatePasses? then [Realizing] else [])
        && (r.out.Ok? ==> cfg.gate.GatePasses?)
  {
    RealizeAsks(cfg, s);
    hide Asks, RealizeGoverned, Receipted;
    var r := RealizeGoverned(cfg, s);
    if !Current(s).IsSettled() && r.out.Ok? {
      PersistAsks(r.sys, Receipted(Current(r.sys), r.out.value));
      AsksOnce(s.trace, r.sys.trace, EnsureReceipt(cfg, s).sys.trace, [Realizing]);
    }
  }

  // ---- The ids that a phase leaves alone ----

  /** The client still holds a record, with the same ids. */
  predicate SameIds(s: Sys, s': Sys) {
    && s'.mem.rec.Some?
    && var r, r' := Current(s), Current(s');
       && r'.claimId == r.claimId && r'.claimRef == r.claimRef && r'.registrationId == r.registrationId
       && r'.contextId == r.contextId && r'.receiptId == r.receiptId
  }

  lemma KeptIds(s: Sys, s': Sys)
    requires s'.mem.rec.Some? && Keeps(Current(s), Current(s'))
    ensures SameIds(s, s')
  {
  }

  lemma CallKeepsIds(s: Sys, request: Request, action: Action)
    requires s.mem.rec.Some?
    ensures SameIds(s, CallAndSettle(s, request, action).sys)
  {
    hide Keeps, CallAndSettle;
    CallKeepsRecord(s, request, action);
    KeptIds(s, CallAndSettle(s, request, action).sys);
  }

  /** The memory of the gap has no ids. */
  lemma SameRecordSameIds(s: Sys, s': Sys)
    requires s.mem.rec.Some? && s'.mem.rec == s.mem.rec
    ensures SameIds(s, s')
  {
  }

  lemma SameIdsTwice(a: Sys, b: Sys, c: Sys)
    requires SameIds(a, b) && SameIds(b, c)
    ensures SameIds(a, c)
  {
  }

  lemma SavedGapKeepsIds(s: Sys, gapId: string, source: string)
    ensures SameIds(s, Persist(s, GapKnown(Current(s), gapId, source)))
  {
  }

  lemma LostGapKeepsIds(s: Sys)
    ensures SameIds(s, Persist(s, Current(s).(status := "no_claimable_gap", step := GapResolved, terminal := false,
                                               errorCode := "NO_CLAIMABLE_GAP")))
  {
  }

  lemma ResolveGapKeepsIds(cfg: Config, s: Sys)
    requires s.mem.rec.Some?
    ensures SameIds(s, ResolveGap(cfg, s).sys)
  {
    hide SameIds, Keeps, DiscoverGap, StartsWith;
    DiscoveryKeepsRecord(cfg, s);
    var r := DiscoverGap(cfg, s).sys;
    KeptIds(s, r);
    var t := ResolveGap(cfg, s).sys;
    assert t.mem.rec == s.mem.rec || t.mem.rec == r.mem.rec;
    if t.mem.rec == s.mem.rec {
      SameRecordSameIds(s, t);
    } else {
      SameRecordSameIds(r, t);
      SameIdsTwice(s, r, t);
    }
  }

  lemma RefreshGapKeepsIds(cfg: Config, s: Sys)
    requires s.mem.rec.Some?
    ensures SameIds(s, RefreshGap(cfg, s).sys)
  {
    hide ResolveGap, Persist, GapKnown;
    var s0 := s.(mem := s.mem.(resolvedGap := ""));
    ResolveGapKeepsIds(cfg, s0);
    var r := ResolveGap(cfg, s0);
    var s1 := r.sys.(mem := r.sys.mem.(resolvedGap := if Current(s).gapId != "" then Current(s).gapId
                                                      else s.mem.resolvedGap));
    LostGapKeepsIds(s1);
    if r.out.Ok? {
      SavedGapKeepsIds(r.sys, r.out.value, r.sys.mem.gapSource);
    }
  }

  lemma CanonicalDigestKeepsIds(s: Sys)
    requires s.mem.rec.Some?
    ensures SameIds(s, CanonicalDigest(s).sys)
  {
    hide AsAccepted, CanonicalDigestOf;
  }

  lemma PrepareClaimKeepsIds(cfg: Config, s: Sys)
    requires s.mem.rec.Some?
    ensures SameIds(s, PrepareClaim(cfg, s).sys)
  {
    hide RefreshGap, CanonicalDigest, CallAndSettle, ResolveGap, ContextIdOf;
    RefreshGapKeepsIds(cfg, s);
    var f := RefreshGap(cfg, s);
    CanonicalDigestKeepsIds(f.sys);
    CallKeepsIds(CanonicalDigest(f.sys).sys, CompilePreclaim, PreclaimCompiling);
    ResolveGapKeepsIds(cfg, ClaimDigest(f.sys).sys);
  }

  lemma MakeClaimKeepsIds(cfg: Config, s: Sys)
    requires s.mem.rec.Some?
    ensures SameIds(s, MakeClaim(cfg, s).sys)
  {
    hide PrepareClaim, CallAndSettle, ClaimIdOf, ClaimRefOf;
    PrepareClaimKeepsIds(cfg, s);
    var p := PrepareClaim(cfg, s);
    if p.out.Ok? {
      CallKeepsIds(p.sys, ClaimGap(p.out.value.0), Claiming);
    }
  }

  lemma RegisterKeepsIds(s: Sys)
    requires s.mem.rec.Some?
    ensures SameIds(s, Register(s).sys)
  {
    hide CanonicalDigest, CallAndSettle, RegistrationIdOf;
    CanonicalDigestKeepsIds(s);
    var d := ClaimedDigest(s).sys;
    var rec := Current(d);
    CallKeepsIds(d, RegisterRepo(rec.gapId, rec.claimId, rec.claimRef), Registering);
  }

  lemma CompileKeepsIds(s: Sys)
    requires s.mem.rec.Some?
    ensures SameIds(s, Compile(s).sys)
  {
    hide CanonicalDigest, CallAndSettle, ContextIdOf;
    CanonicalDigestKeepsIds(s);
    var d := CanonicalDigest(s).sys;
    CallKeepsIds(d, CompileContext(Current(d).registrationId), Compiling);
  }

  // ---- What is due after each phase ----

  lemma Unsettled(r: Record)
    requires Inv(r) && (!r.HasGap() || !r.HasClaim() || !r.HasRegistration() || !r.HasContext())
    ensures r.receiptId == ""
  {
  }

  lemma DueAfterGap(cfg: Config, s: Sys)
    requires s.mem.rec.Some? && Inv(Current(s))
    ensures var r := EnsureGap(cfg, s); r.out.Ok? ==> Due(Current(r.sys)) == Due(Current(s))
  {
    if !Current(s).HasGap() {
      ResolveGapKeepsIds(cfg, s);
      Unsettled(Current(s));
      hide ResolveGap, Inv;
    }
  }

  lemma ClaimIsDue(r: Record, r': Record)
    requires !r.HasClaim() && r'.HasClaim() && r.receiptId == "" && r'.receiptId == ""
    requires r'.registrationId == r.registrationId && r'.contextId == r.contextId
    ensures Due(r) == [Claiming] + Due(r')
  {
  }

  lemma ClaimedKeepsOthers(s: Sys, c: Claim)
    ensures var r, r' := Current(s), Current(Persist(s, Claimed(Current(s), c)));
      && r'.registrationId == r.registrationId && r'.contextId == r.contextId && r'.receiptId == r.receiptId
  {
  }

  lemma DueAfterClaim(cfg: Config, s: Sys)
    requires s.mem.rec.Some? && Inv(Current(s)) && !Current(s).HasClaim()
    ensures var r := EnsureClaim(cfg, s);
      r.out.Ok? && Current(r.sys).HasClaim() ==> Due(Current(s)) == [Claiming] + Due(Current(r.sys))
  {
    hide MakeClaim, Inv, Due, Claimed, Persist;
    MakeClaimKeepsIds(cfg, s);
    Unsettled(Current(s));
    var r := MakeClaim(cfg, s);
    if r.out.Ok? {
      ClaimedKeepsOthers(r.sys, r.out.value);
      if Current(EnsureClaim(cfg, s).sys).HasClaim() {
        ClaimIsDue(Current(s), Current(EnsureClaim(cfg, s).sys));
      }
    }
  }

  lemma DueAfterRegistration(s: Sys)
    requires s.mem.rec.Some? && Inv(Current(s)) && Current(s).HasClaim() && !Current(s).HasRegistration()
    ensures var r := EnsureRegistration(s);
      r.out.Ok? && Current(r.sys).HasRegistration() ==> Due(Current(s)) == [Registering] + Due(Current(r.sys))
  {
    RegisterKeepsIds(s);
    Unsettled(Current(s));
    hide Register, Inv;
  }

  lemma DueAfterContext(s: Sys)
    requires s.mem.rec.Some? && Inv(Current(s)) && Current(s).HasClaim() && Current(s).HasRegistration()
    requires !Current(s).HasContext()
    ensures var r := EnsureContext(s);
      r.out.Ok? && Current(r.sys).HasContext() ==> Due(Current(s)) == [Compiling] + Due(Current(r.sys))
  {
    CompileKeepsIds(s);
    Unsettled(Current(s));
    hide Compile, Inv;
  }

  // ---- All phases ----

  /** The first of these steps were asked for, each once and in order; all of them if the call returned. */
  predicate AsksInOrder(trace: seq<Event>, trace': seq<Event>, due: seq<Action>, returned: bool) {
    && trace <= trace'
    && var steps := StepsOf(trace'[|trace|..]);
       steps <= due && (returned ==> steps == due)
  }

  lemma InOrderOn(a: seq<Event>, b: seq<Event>, c: seq<Event>, x: seq<Action>, y: seq<Action>, returned: bool)
    requires Asks(a, b, x) && AsksInOrder(b, c, y, returned)
    ensures AsksInOrder(a, c, x + y, returned)
  {
    AsksOn(a, b, c, x, StepsOf(c[|b|..]));
    hide StepsOf;
  }

  lemma StoppedInOrder(a: seq<Event>, b: seq<Event>, step: Action, due: seq<Action>)
    requires AsksAtMost(a, b, step, false)
    ensures AsksInOrder(a, b, [step] + due, false)
  {
    hide StepsOf;
  }

  lemma QuietThenInOrder(a: seq<Event>, b: seq<Event>, c: seq<Event>, due: seq<Action>, returned: bool)
    requires Asks(a, b, []) && AsksInOrder(b, c, due, returned)
    ensures AsksInOrder(a, c, due, returned)
  {
    hide Asks, AsksInOrder;
    InOrderOn(a, b, c, [], due, returned);
    assert [] + due == due;
  }

  /** Past one step that asks for this action. */
  lemma StepThenInOrder(a: seq<Event>, b: seq<Event>, c: seq<Event>, step: Action, due: seq<Action>, returned: bool)
    requires AsksAtMost(a, b, step, true) && AsksInOrder(b, c, due, returned)
    ensures AsksInOrder(a, c, [step] + due, returned)
  {
    hide Asks, AsksInOrder;
    InOrderOn(a, b, c, [step], due, returned);
  }

  lemma ReceiptInOrder(cfg: Config, s: Sys)
    requires Current(s).HasClaim() && Current(s).HasRegistration() && Current(s).HasContext()
    ensures var r := EnsureReceipt(cfg, s); AsksInOrder(s.trace, r.sys.trace, Due(Current(s)), r.out.Ok?)
  {
    EnsureReceiptAsks(cfg, s);
    AsksNothing(s.trace);
    hide StepsOf, EnsureReceipt;
  }

  /** The phases from the context on. */
  function FinishContext(cfg: Config, s: Sys): Run<()> {
    var x := EnsureContext(s);
    if !x.out.Ok? then x else EnsureReceipt(cfg, x.sys)
  }

  /** The phases from the registration on. */
  function FinishRegistration(cfg: Config, s: Sys): Run<()> {
    var r := EnsureRegistration(s);
    if !r.out.Ok? then r else FinishContext(cfg, r.sys)
  }

  /** The phases from the claim on. */
  function FinishClaim(cfg: Config, s: Sys): Run<()> {
    var c := EnsureClaim(cfg, s);
    if !c.out.Ok? then c else FinishRegistration(cfg, c.sys)
  }

  /** What is known about a client at work. */
  lemma WorkingHolds(cfg: Config, s: Sys)
    requires Working(cfg, s)
    ensures s.mem.rec.Some? && Inv(Current(s))
  {
  }

  lemma ContextInOrder(cfg: Config, s: Sys)
    requires Working(cfg, s) && Current(s).HasClaim() && Current(s).HasRegistration()
    ensures var r := FinishContext(cfg, s); AsksInOrder(s.trace, r.sys.trace, Due(Current(s)), r.out.Ok?)
  {
    WorkingHolds(cfg, s);
    hide Working, Inv, Due, AsksInOrder, AsksAtMost, EnsureContext, EnsureReceipt;
    EnsureContextAsks(s);
    var x := EnsureContext(s);
    if Current(s).HasContext() {
      ReceiptInOrder(cfg, s);
    } else {
      DueAfterContext(s);
      EnsureContextIsSafe(cfg, s);
      if x.out.Ok? {
        ContextKeepsClaim(s);
        ReceiptInOrder(cfg, x.sys);
        StepThenInOrder(s.trace, x.sys.trace, EnsureReceipt(cfg, x.sys).sys.trace, Compiling, Due(Current(x.sys)),
                        EnsureReceipt(cfg, x.sys).out.Ok?);
      } else {
        DueBegins(s);
        StoppedInOrder(s.trace, x.sys.trace, Compiling, Due(Current(s))[1..]);
      }
    }
  }

  lemma ContextKeepsClaim(s: Sys)
    requires s.mem.rec.Some? && Current(s).HasClaim()
    ensures EnsureContext(s).out.Ok? ==> Current(EnsureContext(s).sys).HasClaim()
  {
    CompileKeepsIds(s);
    hide Compile;
  }

  lemma RegistrationKeepsClaim(s: Sys)
    requires s.mem.rec.Some? && Current(s).HasClaim()
    ensures EnsureRegistration(s).out.Ok? ==> Current(EnsureRegistration(s).sys).HasClaim()
  {
    RegisterKeepsIds(s);
    hide Register;
  }

  /** The first step that is due. */
  lemma DueBegins(s: Sys)
    ensures var due := Due(Current(s));
      && (!Current(s).HasClaim() ==> due == [Claiming] + due[1..])
      && (Current(s).HasClaim() && !Current(s).HasRegistration() ==> due == [Registering] + due[1..])
      && (Current(s).HasClaim() && Current(s).HasRegistration() && !Current(s).HasContext() ==>
            due == [Compiling] + due[1..])
  {
  }

  lemma RegistrationInOrder(cfg: Config, s: Sys)
    requires Working(cfg, s) && Current(s).HasClaim()
    ensures var r := FinishRegistration(cfg, s); AsksInOrder(s.trace, r.sys.trace, Due(Current(s)), r.out.Ok?)
  {
    WorkingHolds(cfg, s);
    hide Working, Inv, Due, AsksInOrder, AsksAtMost, EnsureRegistration, FinishContext;
    EnsureRegistrationAsks(s);
    var x := EnsureRegistration(s);
    if Current(s).HasRegistration() {
      ContextInOrder(cfg, s);
    } else {
      DueAfterRegistration(s);
      EnsureRegistrationIsSafe(cfg, s);
      if x.out.Ok? {
        RegistrationKeepsClaim(s);
        ContextInOrder(cfg, x.sys);
        StepThenInOrder(s.trace, x.sys.trace, FinishContext(cfg, x.sys).sys.trace, Registering, Due(Current(x.sys)),
                        FinishContext(cfg, x.sys).out.Ok?);
      } else {
        DueBegins(s);
        StoppedInOrder(s.trace, x.sys.trace, Registering, Due(Current(s))[1..]);
      }
    }
  }

  lemma ClaimInOrder(cfg: Config, s: Sys)
    requires Working(cfg, s) && Current(s).HasGap()
    ensures var r := FinishClaim(cfg, s); AsksInOrder(s.trace, r.sys.trace, Due(Current(s)), r.out.Ok?)
  {
    WorkingHolds(cfg, s);
    hide Working, Inv, Due, AsksInOrder, AsksAtMost, EnsureClaim, FinishRegistration;
    EnsureClaimAsks(cfg, s);
    var x := EnsureClaim(cfg, s);
    if Current(s).HasClaim() {
      RegistrationInOrder(cfg, s);
    } else {
      DueAfterClaim(cfg, s);
      EnsureClaimIsSafe(cfg, s);
      if x.out.Ok? {
        RegistrationInOrder(cfg, x.sys);
        StepThenInOrder(s.trace, x.sys.trace, FinishRegistration(cfg, x.sys).sys.trace, Claiming, Due(Current(x.sys)),
                        FinishRegistration(cfg, x.sys).out.Ok?);
      } else {
        DueBegins(s);
        StoppedInOrder(s.trace, x.sys.trace, Claiming, Due(Current(s))[1..]);
      }
    }
  }

  lemma AdvanceIsFinishing(cfg: Config, s: Sys)
    ensures var g := EnsureGap(cfg, s); Advance(cfg, s) == if !g.out.Ok? then g else FinishClaim(cfg, g.sys)
  {
    hide EnsureGap, EnsureClaim, EnsureRegistration, EnsureContext, EnsureReceipt;
  }

  /** The phases ask for the steps that the record lacks, each once and in order; for all of them if they finish. */
  lemma AdvanceAsksWhatIsDue(cfg: Config, s: Sys)
    requires Working(cfg, s)
    ensures var r := Advance(cfg, s); AsksInOrder(s.trace, r.sys.trace, Due(Current(s)), r.out.Ok?)
  {
    AdvanceIsFinishing(cfg, s);
    WorkingHolds(cfg, s);
    hide Working, Inv, Due, EnsureGap, FinishClaim, Advance, StepsOf;
    EnsureGapAsks(cfg, s);
    EnsureGapIsSafe(cfg, s);
    DueAfterGap(cfg, s);
    var g := EnsureGap(cfg, s);
    if g.out.Ok? {
      ClaimInOrder(cfg, g.sys);
      QuietThenInOrder(s.trace, g.sys.trace, FinishClaim(cfg, g.sys).sys.trace, Due(Current(s)),
                       FinishClaim(cfg, g.sys).out.Ok?);
    }
  }

  /** Whatever happened while the gap was resolved stays in the trace. */
  lemma AdvanceGoesOn(cfg: Config, s: Sys)
    ensures EnsureGap(cfg, s).sys.trace <= Advance(cfg, s).sys.trace
  {
    hide EnsureGap, EnsureClaim, EnsureRegistration, EnsureContext, EnsureReceipt, StepsOf;
    var g := EnsureGap(cfg, s).sys;
    EnsureClaimAsks(cfg, g);
    var c := EnsureClaim(cfg, g).sys;
    EnsureRegistrationAsks(c);
    var r := EnsureRegistration(c).sys;
    EnsureContextAsks(r);
    EnsureReceiptAsks(cfg, EnsureContext(r).sys);
  }
}
