// The governed flow as the objects that run it. Every method is proved equal to its function in FlowSpec.
module FlowClient {
  import opened Json
  import opened Text
  import opened Options
  import opened GovernanceReceipts
  import opened RecordFiles
  import opened Redaction
  import opened ReplyFields
  import opened FlowState
  import opened FlowSpec
  import opened FlowSafety
  import opened FlowPromises

  /** GovernedRunStateStore: latest.json and one file for each run record, as they are read back. */
  class StateStore {
    const world: World
    var latest: Option<Record>
    var runs: map<nat, Record>

    constructor (world: World)
      ensures this.world == world && latest.None? && runs == map[]
    {
      this.world, latest, runs := world, None, map[];
    }

    /** Sanitises the record and writes latest.json, if asked to, and then the run's own file. */
    method Write(r: Record, updateLatest: bool)
      modifies this, world`trace
      ensures latest == if updateLatest then Some(r) else old(latest)
      ensures runs == old(runs)[r.runRecordId := r]
      ensures world.trace
              == old(world.trace) + (if updateLatest then [Saved(old(latest), r)] else []) + [Filed(r)]
    {
      FileReadsBack(r);
      var payload := Sanitize(ToJson(r));
      if updateLatest {
        world.trace := world.trace + [Saved(latest, r)];
        latest := Some(FromJson(payload));
      }
      runs := runs[FromJson(payload).runRecordId := FromJson(payload)];
      world.trace := world.trace + [Filed(r)];
    }
  }

  /** Everything outside the process: the answers still to come, the clock, and what was observed so far. */
  class World {
    var tape: seq<Reply>
    var clock: nat
    var trace: seq<Event>

    constructor (answers: seq<Reply>)
      ensures tape == answers && clock == 0 && trace == []
    {
      tape, clock, trace := answers, 0, [];
    }
  }

  /** GovernedRepoFlowClient. */
  class Client {
    const cfg: Config
    const store: StateStore
    const world: World := store.world
    var rec: Option<Record>
    var resolvedGap: string
    var gapSource: string
    var gapVerified: bool
    var capabilities: Capabilities

    /** Everything that the functions of FlowSpec speak about. */
    ghost function State(): Sys
      reads this, store, world
    {
      Sys(Disk(store.latest, store.runs), Memory(rec, resolvedGap, gapSource, gapVerified, capabilities),
          world.tape, world.trace, world.clock)
    }

    /** A new client begins a session. */
    constructor (cfg: Config, command: Command, store: StateStore)
      modifies store.world
      ensures this.cfg == cfg && this.store == store
      ensures store.latest == old(store.latest) && store.runs == old(store.runs)
      ensures State() == Begin(cfg, command,
                               Sys(Disk(store.latest, store.runs), FRESH_MEMORY, old(store.world.tape),
                                   old(store.world.trace), old(store.world.clock)), old(store.world.tape))
    {
      this.cfg, this.store := cfg, store;
      rec, resolvedGap, gapSource, gapVerified, capabilities := None, "", "", false, NO_CAPABILITIES;
      new;
      world.trace := world.trace + [Started(cfg.operatorGap, command)];
    }

    function CurrentRecord(): (r: Record)
      reads this, world
      ensures r == Current(State())
    {
      if rec.Some? then rec.value else NewRecord(world.clock)
    }

    method PersistState(r: Record)
      modifies this, store, world
      ensures State() == Persist(old(State()), r)
    {
      var w := r.(updatedAt := world.clock);
      store.Write(w, true);
      rec := Some(w);
      world.clock := world.clock + 1;
      assert world.trace == old(world.trace) + [Saved(old(store.latest), w), Filed(w)];
    }

    method Send(request: Request) returns (out: Outcome<Reply>)
      modifies world
      ensures Run(State(), out) == Fetch(old(State()), request)
    {
      world.trace := world.trace + [Sent(request, store.latest)];
      if world.tape == [] {
        return Crash;
      }
      out := Ok(world.tape[0]);
      world.trace, world.tape := world.trace + [Got(world.tape[0])], world.tape[1..];
    }

    method SendForObject(request: Request) returns (out: Outcome<Json>)
      modifies world
      ensures Run(State(), out) == Call(old(State()), request)
    {
      var reply := Send(request);
      if !reply.Ok? {
        return reply.Fail();
      }
      out := AsAccepted(reply.value);
    }

    /** The inner polling loop: every address in turn until one reports the run as finished. */
    method PollRound(paths: seq<string>) returns (out: Outcome<Option<Json>>)
      modifies world
      ensures Run(State(), out) == WaitRound(old(State()), paths)
    {
      hide IsFinished, IsFailed, RunStatus, FailureCode, AsAccepted;
      var i := 0;
      while i < |paths|
        invariant 0 <= i <= |paths|
        invariant WaitRound(State(), paths[i..]) == WaitRound(old(State()), paths)
      {
        var data := SendForObject(Poll(paths[i]));
        assert paths[i..][1..] == paths[i + 1..];
        if !data.Ok? {
          return data.Fail();
        }
        if IsFinished(data.value) {
          if IsFailed(RunStatus(data.value)) {
            return Err(RunFailed(FailureCode(data.value)));
          }
          return Ok(Some(data.value));
        }
        i := i + 1;
      }
      out := Ok(None);
    }

    /** The outer polling loop: rounds until the run is finished or the time is up. */
    method WaitForRun(paths: seq<string>) returns (out: Outcome<Json>)
      requires paths != []
      modifies world
      ensures Run(State(), out) == Wait(old(State()), paths)
    {
      while !(world.tape != [] && world.tape[0].TimeUp?)
        invariant Wait(State(), paths) == Wait(old(State()), paths)
        decreases |world.tape|
      {
        var data := PollRound(paths);
        if !data.Ok? {
          return data.Fail();
        }
        if data.value.Some? {
          return Ok(data.value.value);
        }
      }
      world.tape := world.tape[1..];
      out := Err(Late);
    }

    method ResolveAsyncResult(data: Json, action: Action) returns (out: Outcome<Json>)
      modifies this, store, world
      ensures Run(State(), out) == Settle(old(State()), data, action)
    {
      var status := RunStatus(data);
      if !IsActive(status) {
        return Ok(data);
      }
      var runId, pollUrl := RunIdOf(data), PollUrlOf(data);
      PersistState(CurrentRecord().(step := PendingPhase(action), status := status, terminal := false,
                                    runId := runId, pollUrl := pollUrl));
      if runId == "" && pollUrl == "" {
        return Err(NoRunHandle);
      }
      out := WaitForRun(WaitPaths(runId, pollUrl));
    }

    method Ask(request: Request, action: Action) returns (out: Outcome<Json>)
      modifies this, store, world
      ensures Run(State(), out) == CallAndSettle(old(State()), request, action)
    {
      out := SendForObject(request);
      if out.Ok? {
        out := ResolveAsyncResult(out.value, action);
      }
    }

    method DiscoverServer() returns (out: Outcome<()>)
      modifies this, world
      ensures Run(State(), out) == Discover(cfg, old(State()))
    {
      var reply := Send(ReadCapabilities);
      if !reply.Ok? {
        return reply.Fail();
      }
      var parsed := AsObject(reply.value);
      if !parsed.Ok? {
        return parsed.Fail();
      }
      var c := cfg.readCapabilities(parsed.value);
      capabilities := c;
      if (c.requiresClaim && !c.canClaim) || !c.canRegister || !c.canCompile || !c.canRealize {
        return Err(MissingOperation);
      }
      out := Ok(());
    }

    // ---- The gap ----

    method RunGapDiscovery(forStory: bool) returns (out: Outcome<string>)
      modifies this, store, world
      ensures Run(State(), out) == QueryGaps(cfg, old(State()), forStory)
    {
      var data := Ask(ListGaps(forStory), Discovering);
      if !data.Ok? {
        return data.Fail();
      }
      out := Select(cfg, data.value);
    }

    method DiscoverGapId() returns (out: Outcome<string>)
      modifies this, store, world
      ensures Run(State(), out) == DiscoverGap(cfg, old(State()))
    {
      if !capabilities.canDiscoverGaps {
        return Err(MissingOperation);
      }
      var first := RunGapDiscovery(true);
      if cfg.storyId == "" || !(first.Err? || first == Ok("")) {
        return first;
      }
      out := RunGapDiscovery(false);
      if out.Err? && first.Err? {
        out := first;
      }
    }

    method UseGap(gapId: string, source: string)
      modifies this, world
      ensures State() == Learn(old(State()), gapId, source)
    {
      resolvedGap, gapSource := gapId, source;
      world.trace := world.trace + [Resolved(gapId)];
    }

    method ResolveGapIdFromServer() returns (out: Outcome<string>)
      modifies this, store, world
      ensures Run(State(), out) == LookUpGap(cfg, old(State()))
    {
      if resolvedGap != "" {
        return Ok(resolvedGap);
      }
      if cfg.envGap != "" {
        if !StartsWith(cfg.envGap, "gap_") {
          return Err(BadGapId);
        }
        UseGap(cfg.envGap, FROM_ENVIRONMENT);
        return Ok(cfg.envGap);
      }
      if capabilities.gapId != "" {
        var gapId := capabilities.gapId;
        UseGap(gapId, FROM_CAPABILITIES);
        return Ok(gapId);
      }
      out := DiscoverGapId();
      if out.Ok? {
        if out.value == "" {
          out := Err(UnresolvedGap);
        } else {
          UseGap(out.value, GAPS_LIST);
        }
      }
    }

    method ResolveGapId() returns (out: Outcome<string>)
      modifies this, store, world
      ensures Run(State(), out) == ResolveGap(cfg, old(State()))
    {
      if cfg.operatorGap != "" {
        if !StartsWith(cfg.operatorGap, "gap_") {
          return Err(BadGapId);
        }
        UseGap(cfg.operatorGap, FROM_OPERATOR);
        gapVerified := true;
        return Ok(cfg.operatorGap);
      }
      out := ResolveGapIdFromServer();
      if out.Ok? {
        gapVerified := gapSource == GAPS_LIST;
      }
    }

    // ---- The claim ----

    method RefreshCachedGapClaimability() returns (out: Outcome<()>)
      modifies this, store, world
      ensures Run(State(), out) == RefreshGap(cfg, old(State()))
    {
      hide ResolveGap;
      if gapVerified || cfg.operatorGap != "" {
        return Ok(());
      }
      var cached := if CurrentRecord().gapId != "" then CurrentRecord().gapId else resolvedGap;
      if cached == "" {
        return Ok(());
      }
      resolvedGap := "";
      var live := ResolveGapId();
      if live.Err? {
        resolvedGap := cached;
        PersistState(CurrentRecord().(status := "no_claimable_gap", step := GapResolved, terminal := false,
                                      errorCode := "NO_CLAIMABLE_GAP"));
        return live.Fail();
      }
      if !live.Ok? {
        return live.Fail();
      }
      if live.value != cached {
        PersistState(GapKnown(CurrentRecord(), live.value, gapSource));
      }
      out := Ok(());
    }

    method ReadDigest() returns (out: Outcome<string>)
      modifies world
      ensures Run(State(), out) == CanonicalDigest(old(State()))
    {
      var reply := Send(ReadCanonicalDigest);
      if !reply.Ok? {
        return reply.Fail();
      }
      var parsed := AsAccepted(reply.value);
      out := Ok(if parsed.Ok? then CanonicalDigestOf(parsed.value) else "");
    }

    method ClaimContextDigest() returns (out: Outcome<string>)
      modifies this, store, world
      ensures Run(State(), out) == ClaimDigest(old(State()))
    {
      out := ReadDigest();
      if !out.Ok? || out.value != "" {
        return;
      }
      var data := Ask(CompilePreclaim, PreclaimCompiling);
      if !data.Ok? {
        return data.Fail();
      }
      var id := ContextIdOf(data.value);
      out := if id == "" then Err(MissingId) else Ok(id);
    }

    method ClaimTheGap() returns (out: Outcome<Claim>)
      modifies this, store, world
      ensures Run(State(), out) == MakeClaim(cfg, old(State()))
    {
      hide RefreshGap, ClaimDigest, ResolveGap, CallAndSettle, ClaimIdOf, ClaimRefOf;
      var refreshed := RefreshCachedGapClaimability();
      if !refreshed.Ok? {
        return refreshed.Fail();
      }
      if !capabilities.canClaim {
        return Err(MissingOperation);
      }
      var digest := ClaimContextDigest();
      if !digest.Ok? {
        return digest.Fail();
      }
      var gapId := ResolveGapId();
      if !gapId.Ok? {
        return gapId.Fail();
      }
      var data := Ask(ClaimGap(gapId.value), Claiming);
      if !data.Ok? {
        return data.Fail();
      }
      var claimId, claimRef := ClaimIdOf(data.value), ClaimRefOf(data.value);
      if claimId == "" && claimRef == "" {
        return Err(MissingId);
      }
      out := Ok(Claim(claimId, claimRef, gapId.value, gapSource, digest.value));
    }

    // ---- Registration, context, realization ----

    method RegisterRepository() returns (out: Outcome<Registration>)
      modifies this, store, world
      ensures Run(State(), out) == Register(old(State()))
    {
      hide CallAndSettle, RegistrationIdOf;
      var r := CurrentRecord();
      var digest := r.claimDigest;
      if digest == "" {
        var read := ReadDigest();
        if !read.Ok? {
          return read.Fail();
        }
        digest := read.value;
      }
      var data := Ask(RegisterRepo(r.gapId, r.claimId, r.claimRef), Registering);
      if !data.Ok? {
        return data.Fail();
      }
      if TripsReader(data.value) {
        return Abort;
      }
      var id := RegistrationIdOf(data.value);
      out := if id == "" then Err(MissingId) else Ok(Registration(id, digest));
    }

    method CompileTheContext() returns (out: Outcome<string>)
      modifies this, store, world
      ensures Run(State(), out) == Compile(old(State()))
    {
      hide CallAndSettle, ContextIdOf;
      var digest := ReadDigest();
      if !digest.Ok? {
        return digest;
      }
      var data := Ask(CompileContext(CurrentRecord().registrationId), Compiling);
      if !data.Ok? {
        return data.Fail();
      }
      var id := ContextIdOf(data.value);
      out := if id == "" then Err(MissingId) else Ok(id);
    }

    method RunGovernedRealization() returns (out: Outcome<Receipt>)
      modifies this, store, world
      ensures Run(State(), out) == RealizeGoverned(cfg, old(State()))
    {
      hide CallAndSettle, ReadReceipt;
      var contextId := CurrentRecord().contextId;
      match cfg.gate
      case GateRejects => return Err(GateRejected);
      case GateBreaks => return Abort;
      case GatePasses =>
      var candidate := cfg.candidateFor(contextId);
      PersistState(CurrentRecord().(candidate := candidate));
      var data := Ask(Realize(contextId, candidate), Realizing);
      if !data.Ok? {
        return data.Fail();
      }
      out := ReadReceipt(cfg, data.value, candidate);
    }

    // ---- Recovery ----

    /** The dispatch on the saved step: what the finished run adds to the record. */
    method TakeUpResult(r: Record, data: Json) returns (out: Outcome<Record>)
      modifies this, world
      ensures var next := Recovered(cfg, r, old(gapSource), data);
        && out == next
        && State() == if next.Ok? && r.step.GapDiscovery? && next.value.step.GapResolved?
                      then Learn(old(State()), next.value.gapId, old(gapSource)) else old(State())
    {
      hide Recovered, Learn;
      if r.step == GapDiscovery {
        out := TakeUpGap(r, data);
      } else if r.step == GovernedRealize {
        out := TakeUpReceipt(r, data);
        RecoveredReceipt(cfg, r, gapSource, data);
      } else {
        var next := TakeUpId(r, data);
        out := Ok(next);
      }
    }

    method TakeUpGap(r: Record, data: Json) returns (out: Outcome<Record>)
      requires r.step.GapDiscovery?
      modifies this, world
      ensures var next := Recovered(cfg, r, old(gapSource), data);
        && out == next
        && State() == if next.Ok? && next.value.step.GapResolved?
                      then Learn(old(State()), next.value.gapId, old(gapSource)) else old(State())
    {
      hide Select, ReadReceipt, Receipted;
      var gapId := Select(cfg, data);
      if !gapId.Ok? {
        return gapId.Fail();
      }
      var next := r.(runId := "", pollUrl := "", terminal := false);
      if gapId.value != "" {
        UseGap(gapId.value, gapSource);
        next := next.(gapId := gapId.value, gapSource := if gapSource != "" then gapSource else GAPS_LIST,
                      status := "gap_resolved", step := GapResolved);
      }
      out := Ok(next);
    }

    method TakeUpId(r: Record, data: Json) returns (next: Record)
      requires !r.step.GapDiscovery? && !r.step.GovernedRealize?
      ensures forall source :: Recovered(cfg, r, source, data) == Ok(next)
    {
      hide Select, ReadReceipt, Receipted, ClaimIdOf, ClaimRefOf, RecoveredRegistrationIdOf, ContextIdOf;
      next := r.(runId := "", pollUrl := "", terminal := false);
      if r.step == GapClaim {
        next := next.(claimId := ClaimIdOf(data), claimRef := ClaimRefOf(data), status := "claim_succeeded",
                      step := ClaimSucceeded);
      } else if r.step == ContextCreate {
        next := next.(registrationId := RecoveredRegistrationIdOf(data), status := "context_created",
                      step := ContextCreated);
      } else if r.step == PreclaimContext || r.step == ContextCompile {
        next := next.(contextId := ContextIdOf(data),
                      status := if r.step == ContextCompile then "context_compiled" else "preclaim_context_ready",
                      step := if r.step == ContextCompile then ContextCompiled else PreclaimContextReady);
      }
    }

    method TakeUpReceipt(r: Record, data: Json) returns (out: Outcome<Record>)
      ensures var receipt := ReadReceipt(cfg, data, r.candidate);
        out == if receipt.Ok? then Ok(Receipted(r, receipt.value)) else receipt.Fail()
    {
      hide ReadReceipt;
      var receipt := ReadReceipt(cfg, data, r.candidate);
      if !receipt.Ok? {
        return receipt.Fail();
      }
      var next := r.(runId := "", pollUrl := "", step := ReceiptReady, terminal := true, liveConfirmed := true);
      out := Ok(next.WithReceipt(receipt.value));
    }

    method UpdateStateFromResult(data: Json) returns (out: Outcome<()>)
      modifies this, store, world
      ensures Run(State(), out) == TakeResult(cfg, old(State()), data)
    {
      hide Recovered;
      var next := TakeUpResult(CurrentRecord(), data);
      if !next.Ok? {
        return next.Fail();
      }
      PersistState(next.value);
      out := Ok(());
    }

    method PollSavedRun() returns (out: Outcome<()>)
      requires CurrentRecord().HasRun()
      modifies this, store, world
      ensures var rec := old(CurrentRecord());
        Run(State(), out) == PollPaths(cfg, old(State()), SavedPaths(rec.runId, rec.pollUrl), "pending")
    {
      hide IsFinished, IsFailed, RunStatus, FailureCode, AsAccepted, TakeResult;
      var paths := SavedPaths(CurrentRecord().runId, CurrentRecord().pollUrl);
      var last := "pending";
      var i := 0;
      while i < |paths|
        invariant 0 <= i <= |paths|
        invariant PollPaths(cfg, State(), paths[i..], last) == PollPaths(cfg, old(State()), paths, "pending")
      {
        var reply := Send(Poll(paths[i]));
        assert paths[i..][1..] == paths[i + 1..];
        if !reply.Ok? {
          return reply.Fail();
        }
        if !reply.value.Broken? && !reply.value.TimeUp? && reply.value.code == 404 {
          PersistState(CurrentRecord().(status := "RUN_NOT_FOUND", errorCode := "RUN_NOT_FOUND", terminal := false));
          return Err(RunNotFound);
        }
        var data := AsAccepted(reply.value);
        if !data.Ok? {
          return data.Fail();
        }
        if IsFinished(data.value) {
          if IsFailed(RunStatus(data.value)) {
            var code := if FailureCode(data.value) != "" then FailureCode(data.value) else "RUN_FAILED";
            PersistState(CurrentRecord().(status := code, errorCode := code, terminal := true));
            return Err(RunFailed(code));
          }
          out := UpdateStateFromResult(data.value);
          return;
        }
        last := if RunStatus(data.value) != "" then RunStatus(data.value) else "pending";
        i := i + 1;
      }
      PersistState(CurrentRecord().(status := last, terminal := false));
      out := Ok(());
    }

    method RecoverPendingRun() returns (out: Outcome<()>)
      modifies this, store, world
      ensures Run(State(), out) == Recover(cfg, old(State()))
    {
      if CurrentRecord().terminal || !CurrentRecord().HasRun() {
        return Ok(());
      }
      out := PollSavedRun();
    }

    // ---- Commands ----

    method LoadLastState() returns (out: Outcome<()>)
      modifies this
      ensures Run(State(), out) == Load(cfg, old(State()))
    {
      if store.latest.None? {
        return Err(NoState);
      }
      rec := store.latest;
      if !cfg.declarationReads {
        return Err(BadDeclaration);
      }
      if rec.value.gapId != "" {
        resolvedGap, gapSource, gapVerified := rec.value.gapId, rec.value.gapSource, false;
      }
      out := Ok(());
    }

    method InspectRepo() returns (out: Outcome<()>)
      modifies this, store, world
      ensures Run(State(), out) == Inspect(cfg, old(State()))
    {
      if !cfg.declarationReads {
        return Err(BadDeclaration);
      }
      PersistState(CurrentRecord().(status := "initialized", terminal := false));
      out := Ok(());
    }

    /** The guarded phases: each runs only while its field is empty, and its answer is saved before the next. */
    method Advance() returns (out: Outcome<()>)
      modifies this, store, world
      ensures Run(State(), out) == FlowSpec.Advance(cfg, old(State()))
    {
      hide EnsureGap, EnsureClaim, EnsureRegistration, EnsureContext, EnsureReceipt;
      out := ResolveTheGap();
      if !out.Ok? { return; }
      out := ClaimOnce();
      if !out.Ok? { return; }
      out := RegisterOnce();
      if !out.Ok? { return; }
      out := CompileOnce();
      if !out.Ok? { return; }
      out := RealizeOnce();
    }

    method ResolveTheGap() returns (out: Outcome<()>)
      modifies this, store, world
      ensures Run(State(), out) == EnsureGap(cfg, old(State()))
    {
      hide ResolveGap;
      if CurrentRecord().HasGap() {
        return Ok(());
      }
      var gapId := ResolveGapId();
      match gapId
      case Ok(id) =>
        PersistState(GapKnown(CurrentRecord(), id, gapSource));
        out := Ok(());
      case Err(f) =>
        PersistState(CurrentRecord().(
          status := if f.NoClaimableGap? then "no_claimable_gap" else "gap_resolution_failed",
          step := GapResolution, terminal := false,
          errorCode := if f.NoClaimableGap? then "NO_CLAIMABLE_GAP" else "GAP_RESOLUTION_FAILED"));
        out := Err(f);
      case _ =>
        out := gapId.Fail();
    }

    method ClaimOnce() returns (out: Outcome<()>)
      modifies this, store, world
      ensures Run(State(), out) == EnsureClaim(cfg, old(State()))
    {
      hide MakeClaim;
      if CurrentRecord().HasClaim() {
        return Ok(());
      }
      var claim := ClaimTheGap();
      if !claim.Ok? {
        return claim.Fail();
      }
      PersistState(Claimed(CurrentRecord(), claim.value));
      out := Ok(());
    }

    method RegisterOnce() returns (out: Outcome<()>)
      modifies this, store, world
      ensures Run(State(), out) == EnsureRegistration(old(State()))
    {
      hide Register;
      if CurrentRecord().HasRegistration() {
        return Ok(());
      }
      var registration := RegisterRepository();
      if !registration.Ok? {
        return registration.Fail();
      }
      PersistState(Registered(CurrentRecord(), registration.value));
      out := Ok(());
    }

    method CompileOnce() returns (out: Outcome<()>)
      modifies this, store, world
      ensures Run(State(), out) == EnsureContext(old(State()))
    {
      hide Compile;
      if CurrentRecord().HasContext() {
        return Ok(());
      }
      var contextId := CompileTheContext();
      if !contextId.Ok? {
        return contextId.Fail();
      }
      PersistState(Compiled(CurrentRecord(), contextId.value));
      out := Ok(());
    }

    method RealizeOnce() returns (out: Outcome<()>)
      modifies this, store, world
      ensures Run(State(), out) == EnsureReceipt(cfg, old(State()))
    {
      hide RealizeGoverned;
      if CurrentRecord().IsSettled() {
        return Ok(());
      }
      var receipt := RunGovernedRealization();
      if !receipt.Ok? {
        return receipt.Fail();
      }
      PersistState(Receipted(CurrentRecord(), receipt.value));
      out := Ok(());
    }

    method DiscoverAndRecoverRun() returns (out: Outcome<()>)
      modifies this, store, world
      ensures Run(State(), out) == DiscoverAndRecover(cfg, old(State()))
    {
      out := DiscoverServer();
      if out.Ok? {
        out := RecoverPendingRun();
      }
    }

    method ResumePhases(useLast: bool) returns (out: Outcome<Record>)
      modifies this, store, world
      ensures Run(State(), out) == Resume(cfg, old(State()), useLast)
    {
      hide Load, Inspect, DiscoverAndRecover, FlowSpec.Advance;
      var done: Outcome<()>;
      if useLast {
        done := LoadLastState();
        if done.Err? {
          done := InspectRepo();
        }
      } else {
        done := InspectRepo();
      }
      if !done.Ok? {
        return done.Fail();
      }
      done := DiscoverAndRecoverRun();
      if !done.Ok? {
        return done.Fail();
      }
      done := Advance();
      if !done.Ok? {
        return done.Fail();
      }
      out := Ok(CurrentRecord());
    }

    /** A resume of the saved record loses no progress, however it ends, and one that returns has a confirmed receipt on
        the disk; one that ignores the saved record returns with a confirmed receipt too. */
    method ResumeGovernedRepoFlow(useLast: bool) returns (out: Outcome<Record>)
      modifies this, store, world
      ensures Run(State(), out) == Resume(cfg, old(State()), useLast)
      ensures old(Starting(cfg, State()) && CommandIsResume(State(), useLast)) ==>
                && Good(State())
                && (useLast ==> ProgressOf(old(store.latest)) <= ProgressOf(store.latest))
                && (out.Ok? ==> && store.latest == Some(out.value) && Progress(out.value) == 5
                                && IsWhole(out.value))
    {
      hide Starting, Good, Progress, IsWhole, CommandIsResume, Resume;
      ghost var s := State();
      if Starting(cfg, s) && CommandIsResume(s, useLast) {
        ResumePromises(cfg, s, useLast);
      }
      out := ResumePhases(useLast);
    }

    method RunGovernedRepoFlow(dryRun: bool) returns (out: Outcome<Report>)
      modifies this, store, world
      ensures Run(State(), out) == RunFlow(cfg, old(State()), dryRun)
    {
      hide Discover, Resume, ResolveGap;
      if !cfg.declarationReads {
        return Err(BadDeclaration);
      }
      var found := DiscoverServer();
      if !found.Ok? {
        return found.Fail();
      }
      if dryRun {
        if cfg.operatorGap != "" {
          return Ok(WouldUse(cfg.operatorGap));
        }
        var gapId := ResolveGapId();
        out := if gapId.Ok? then Ok(WouldUse(gapId.value)) else gapId.Fail();
      } else {
        var done := ResumeGovernedRepoFlow(true);
        out := if done.Ok? then Ok(Finished(done.value)) else done.Fail();
      }
    }

    method StatusGovernedRepoFlow() returns (out: Outcome<Record>)
      modifies this, store, world
      ensures Run(State(), out) == Status(cfg, old(State()))
    {
      hide Load, DiscoverAndRecover;
      var done := LoadLastState();
      if !done.Ok? {
        return done.Fail();
      }
      done := DiscoverAndRecoverRun();
      if !done.Ok? {
        return done.Fail();
      }
      out := Ok(CurrentRecord());
    }

    method ReceiptGovernedRepoFlow() returns (out: Outcome<Record>)
      modifies this
      ensures Run(State(), out) == ShowReceipt(cfg, old(State()))
    {
      var done := LoadLastState();
      if !done.Ok? {
        return done.Fail();
      }
      var r := CurrentRecord();
      out := if r.receiptId == "" && r.proofId == "" then Err(NoReceipt) else Ok(r);
    }
  }

  /** One invocation of the command line: a new client on the same files. If its process dies early, what would have
      come later is not there. */
  method RunSession(session: Session, store: StateStore)
    modifies store, store.world
    ensures var s := old(Sys(Disk(store.latest, store.runs), FRESH_MEMORY, store.world.tape, store.world.trace,
                             store.world.clock));
            var r := RunOne(session, s);
            && store.latest == r.disk.latest && store.runs == r.disk.runs
            && store.world.trace == r.trace && store.world.clock == r.clock
  {
    hide RunFlow, Resume, Status, ShowReceipt, LatestAfter, RunsAfter;
    var world := store.world;
    var last := |world.trace| + session.life;
    world.tape := session.tape;
    var client := new Client(session.cfg, session.command, store);
    match session.command {
      case RunCommand(dryRun) => var _ := client.RunGovernedRepoFlow(dryRun);
      case ResumeCommand(useLast) => var _ := client.ResumeGovernedRepoFlow(useLast);
      case StatusCommand => var _ := client.StatusGovernedRepoFlow();
      case ReceiptCommand => var _ := client.ReceiptGovernedRepoFlow();
    }
    if last < |world.trace| {
      world.trace := world.trace[..last];
      store.latest, store.runs := LatestAfter(world.trace), RunsAfter(world.trace);
    }
  }

  /** A repository's whole life: any number of invocations, each ending in whatever way. Whatever they were, a receipt
      on record is confirmed, and every file was once the latest state of its run. */
  method RunSessions(sessions: seq<Session>, store: StateStore)
    requires store.latest.None? && store.runs == map[] && store.world.trace == [] && store.world.clock == 0
    modifies store, store.world
    ensures store.latest == Sessions(sessions, BLANK).disk.latest && store.runs == Sessions(sessions, BLANK).disk.runs
    ensures store.world.trace == Life(sessions)
    ensures store.latest.Some? && (store.latest.value.liveConfirmed || store.latest.value.receiptId != "") ==>
              IsWhole(store.latest.value) && Progress(store.latest.value) == 5
    ensures forall id :: id in store.runs ==> Grows(Some(store.runs[id]), SavedAs(store.world.trace, id))
  {
    hide RunOne, Good, Progress;
    var world := store.world;
    var i := 0;
    while i < |sessions|
      invariant 0 <= i <= |sessions|
      invariant var s := Sessions(sessions[..i], BLANK);
                store.latest == s.disk.latest && store.runs == s.disk.runs && world.trace == s.trace
                && world.clock == s.clock
    {
      ghost var s := Sessions(sessions[..i], BLANK);
      assert sessions[..i + 1][..i] == sessions[..i];
      SameInvocation(sessions[i], s, world.tape);
      RunSession(sessions[i], store);
      i := i + 1;
    }
    assert sessions[..i] == sessions;
    WholeLife(sessions);
  }

  /** An invocation does not depend on what earlier processes had in memory. */
  lemma SameInvocation(session: Session, s: Sys, tape: seq<Reply>)
    ensures RunOne(session, Sys(s.disk, FRESH_MEMORY, tape, s.trace, s.clock)) == RunOne(session, s)
  {
    hide Execute, DieAfter;
  }

  lemma WholeLife(sessions: seq<Session>)
    ensures var s := Sessions(sessions, BLANK);
      && (s.disk.latest.Some? && (s.disk.latest.value.liveConfirmed || s.disk.latest.value.receiptId != "") ==>
            IsWhole(s.disk.latest.value) && Progress(s.disk.latest.value) == 5)
      && forall id :: id in s.disk.runs ==> Grows(Some(s.disk.runs[id]), SavedAs(s.trace, id))
  {
    var trace := Life(sessions);
    SessionsAreSafe(sessions);
    ConfirmationIsFailClosed(sessions, |trace|);
    hide Sessions, Lawful, IdsBelow, Progress, Inv;
    assert trace[..|trace|] == trace;
    forall id | id in Sessions(sessions, BLANK).disk.runs
      ensures Grows(Some(Sessions(sessions, BLANK).disk.runs[id]), SavedAs(trace, id))
    {
      RunsGrow(trace, |trace|, |trace|, id);
    }
  }
}
