// Where everything on record comes from: a saved run from the promise to the request of the saved step, every id from
// an answer to its own request or from such a run.
module FlowProvenance {
  import opened Json
  import opened Text
  import opened Options
  import opened GovernanceReceipts
  import opened ReplyFields
  import opened FlowState
  import opened FlowSpec
  import opened FlowSafety
  import opened FlowPromises
  import opened FlowLimits
  import opened FlowRecovery

  // ---- The last exchange ----

  /** The last request of the session. */
  function LastSent(trace: seq<Event>): Option<Request> {
    if trace == [] then None
    else
      match trace[|trace| - 1]
      case Started(_, _) => None
      case Sent(request, _) => Some(request)
      case _ => LastSent(trace[..|trace| - 1])
  }

  /** The answer to it, if there was one. */
  function LastGot(trace: seq<Event>): Option<Reply> {
    if trace == [] then None
    else
      match trace[|trace| - 1]
      case Started(_, _) => None
      case Sent(_, _) => None
      case Got(reply) => Some(reply)
      case _ => LastGot(trace[..|trace| - 1])
  }

  /** The body of that answer, if it was accepted. */
  function LastAnswer(trace: seq<Event>): Option<Json> {
    var got := LastGot(trace);
    if got.Some? && AsAccepted(got.value).Ok? then Some(AsAccepted(got.value).value) else None
  }

  /** The request whose answer a record at this step waits for. */
  predicate AsksFor(request: Request, step: Phase) {
    match request
    case ListGaps(_) => step.GapDiscovery?
    case CompilePreclaim => step.PreclaimContext?
    case ClaimGap(_) => step.GapClaim?
    case RegisterRepo(_, _, _) => step.ContextCreate?
    case CompileContext(_) => step.ContextCompile?
    case Realize(_, _) => step.GovernedRealize?
    case _ => false
  }

  /** What a request names is what the record says. */
  predicate Names(request: Request, r: Record) {
    match request
    case RegisterRepo(gap, claimId, claimRef) => gap == r.gapId && claimId == r.claimId && claimRef == r.claimRef
    case CompileContext(registrationId) => registrationId == r.registrationId
    case Realize(contextId, _) => contextId == r.contextId
    case _ => true
  }

  /** The last request was this step's own, or a poll of the run that is saved at this step. */
  predicate Concerns(trace: seq<Event>, latest: Option<Record>, step: Phase) {
    LastSent(trace).Some? &&
      var request := LastSent(trace).value;
      || AsksFor(request, step)
      || (&& request.Poll? && latest.Some? && latest.value.step == step
          && request.path in SavedPaths(latest.value.runId, latest.value.pollUrl))
  }

  // ---- What a save may take from where ----

  predicate SamePrefix(a: Record, b: Record) {
    && a.gapId == b.gapId && a.claimId == b.claimId && a.claimRef == b.claimRef
    && a.registrationId == b.registrationId && a.contextId == b.contextId
  }

  /** The request of the record's step was just answered with the promise of this run. */
  predicate PromisedNow(trace: seq<Event>, r: Record) {
    && LastAnswer(trace).Some? && LastSent(trace).Some?
    && IsActive(RunStatus(LastAnswer(trace).value))
    && r.runId == RunIdOf(LastAnswer(trace).value) && r.pollUrl == PollUrlOf(LastAnswer(trace).value)
    && AsksFor(LastSent(trace).value, r.step) && Names(LastSent(trace).value, r)
  }

  predicate RunIsSourced(trace: seq<Event>, before: Option<Record>, r: Record) {
    || !r.HasRun()
    || (&& before.Some? && r.runId == before.value.runId && r.pollUrl == before.value.pollUrl
        && (!IsPending(r.step) || (r.step == before.value.step && SamePrefix(before.value, r))))
    || PromisedNow(trace, r)
  }

  predicate ClaimIsAnswered(trace: seq<Event>, latest: Option<Record>, r: Record) {
    && Concerns(trace, latest, GapClaim) && LastAnswer(trace).Some?
    && r.claimId == ClaimIdOf(LastAnswer(trace).value) && r.claimRef == ClaimRefOf(LastAnswer(trace).value)
  }

  predicate RegistrationIsAnswered(trace: seq<Event>, latest: Option<Record>, r: Record) {
    && Concerns(trace, latest, ContextCreate) && LastAnswer(trace).Some?
    && (|| r.registrationId == RegistrationIdOf(LastAnswer(trace).value)
        || r.registrationId == RecoveredRegistrationIdOf(LastAnswer(trace).value))
  }

  /** A context comes from a compilation, from a preclaim compilation, or with a receipt. */
  predicate ContextIsAnswered(trace: seq<Event>, latest: Option<Record>, r: Record) {
    LastAnswer(trace).Some? &&
      var data := LastAnswer(trace).value;
      || ((Concerns(trace, latest, ContextCompile) || Concerns(trace, latest, PreclaimContext))
          && r.contextId == ContextIdOf(data))
      || (Concerns(trace, latest, GovernedRealize) && r.contextId == Normalize(data, "", "").contextId)
  }

  predicate ReceiptIsAnswered(trace: seq<Event>, latest: Option<Record>, r: Record) {
    && Concerns(trace, latest, GovernedRealize) && LastAnswer(trace).Some?
    && r.receiptId == Normalize(LastAnswer(trace).value, "", "").receiptId
  }

  /** Everything that a save changes comes from the last answer. */
  predicate Sourced(trace: seq<Event>, before: Option<Record>, r: Record) {
    && RunIsSourced(trace, before, r)
    && (|| !r.HasClaim()
        || (before.Some? && r.claimId == before.value.claimId && r.claimRef == before.value.claimRef)
        || ClaimIsAnswered(trace, before, r))
    && (|| !r.HasRegistration() || (before.Some? && r.registrationId == before.value.registrationId)
        || RegistrationIsAnswered(trace, before, r))
    && (|| !r.HasContext() || (before.Some? && r.contextId == before.value.contextId)
        || ContextIsAnswered(trace, before, r))
    && (|| r.receiptId == "" || (before.Some? && r.receiptId == before.value.receiptId)
        || ReceiptIsAnswered(trace, before, r))
  }

  /** Every save from this point on. */
  predicate SourcedFrom(trace: seq<Event>, n: nat) {
    forall k :: n <= k < |trace| && trace[k].Saved? ==> Sourced(trace[..k], trace[k].before, trace[k].record)
  }

  /** The client has no record yet, or the one on the disk. */
  predicate InStep(s: Sys) {
    s.mem.rec.None? || s.mem.rec == s.disk.latest
  }

  /** From one state to a later one, every save has its source. */
  predicate Sources(s: Sys, s': Sys) {
    s.trace <= s'.trace && SourcedFrom(s'.trace, |s.trace|) && InStep(s')
  }

  // ---- Traces ----

  lemma SourcesOn(a: Sys, b: Sys, c: Sys)
    requires Sources(a, b) && Sources(b, c)
    ensures Sources(a, c)
  {
    hide Sourced;
    forall k | |a.trace| <= k < |c.trace| && c.trace[k].Saved?
      ensures Sourced(c.trace[..k], c.trace[k].before, c.trace[k].record)
    {
      if k < |b.trace| {
        assert c.trace[k] == b.trace[k] && c.trace[..k] == b.trace[..k];
      }
    }
  }

  lemma SourcesNothing(s: Sys)
    requires InStep(s)
    ensures Sources(s, s)
  {
  }

  lemma LogSources(s: Sys, e: Event)
    requires InStep(s) && !e.Saved?
    ensures Sources(s, Log(s, e))
  {
    hide Sourced;
  }

  /** What the last exchange was after one more event. */
  lemma LastAfter(trace: seq<Event>, e: Event)
    ensures var t := trace + [e];
      && LastSent(t) == (if e.Started? then None else if e.Sent? then Some(e.request) else LastSent(trace))
      && LastGot(t) == (if e.Started? || e.Sent? then None else if e.Got? then Some(e.reply) else LastGot(trace))
  {
    assert (trace + [e])[..|trace|] == trace;
  }

  /** An answer was taken. */
  lemma FetchSources(s: Sys, request: Request)
    requires InStep(s)
    ensures var r := Fetch(s, request);
      && Sources(s, r.sys) && r.sys.mem == s.mem && r.sys.disk == s.disk
      && (r.out.Ok? ==> LastSent(r.sys.trace) == Some(request) && LastGot(r.sys.trace) == Some(r.out.value))
  {
    hide SourcedFrom, LastSent, LastGot;
    var s1 := Log(s, Sent(request, s.disk.latest));
    LogSources(s, Sent(request, s.disk.latest));
    LastAfter(s.trace, Sent(request, s.disk.latest));
    if s.tape != [] {
      LogSources(s1, Got(s.tape[0]));
      LastAfter(s1.trace, Got(s.tape[0]));
      SourcesOn(s, s1, Log(s1, Got(s.tape[0])));
    }
  }

  /** Two writes; the second is not looked at. */
  lemma PersistSources(s: Sys, r: Record)
    requires Sourced(s.trace, s.disk.latest, r)
    ensures Sources(s, Persist(s, r)) && Persist(s, r).mem.rec == Persist(s, r).disk.latest
  {
    var w := r.(updatedAt := s.clock);
    StampIsFree(s.trace, s.disk.latest, r, w);
    hide Sourced;
    var t := Persist(s, r).trace;
    forall k | |s.trace| <= k < |t| && t[k].Saved?
      ensures Sourced(t[..k], t[k].before, t[k].record)
    {
      assert k == |s.trace| && t[..k] == s.trace;
    }
  }

  lemma StampIsFree(trace: seq<Event>, before: Option<Record>, r: Record, w: Record)
    requires Sourced(trace, before, r) && w == r.(updatedAt := w.updatedAt)
    ensures Sourced(trace, before, w)
  {
    hide LastSent, LastAnswer, RunStatus, RunIdOf, PollUrlOf, ClaimIdOf, ClaimRefOf, RegistrationIdOf,
         RecoveredRegistrationIdOf, ContextIdOf, Normalize, Concerns;
  }

  /** The same ids and run, at the same step or at one that waits for nothing. */
  predicate SameBooks(r: Record, r': Record) {
    && r'.runId == r.runId && r'.pollUrl == r.pollUrl
    && r'.claimId == r.claimId && r'.claimRef == r.claimRef && r'.registrationId == r.registrationId
    && r'.contextId == r.contextId && r'.receiptId == r.receiptId
    && (!IsPending(r'.step) || (r'.step == r.step && r'.gapId == r.gapId))
  }

  /** Such a save needs no answer. */
  lemma BooksAreSourced(s: Sys, r: Record)
    requires InStep(s) && SameBooks(Current(s), r)
    ensures Sourced(s.trace, s.disk.latest, r)
  {
    hide ClaimIsAnswered, RegistrationIsAnswered, ContextIsAnswered, ReceiptIsAnswered, PromisedNow;
  }

  lemma NoteSources(s: Sys, r: Record)
    requires InStep(s) && SameBooks(Current(s), r)
    ensures Sources(s, Persist(s, r)) && Persist(s, r).mem.rec == Persist(s, r).disk.latest
  {
    hide Sources, Sourced, SameBooks, Persist;
    BooksAreSourced(s, r);
    PersistSources(s, r);
    PersistBoth(s, r);
  }

  lemma PersistBoth(s: Sys, r: Record)
    ensures Persist(s, r).mem.rec == Persist(s, r).disk.latest
  {
  }

  // ---- Requests and runs ----

  /** The data is the body of the last answer, which concerns this step. */
  predicate Answers(s: Sys, step: Phase, data: Json) {
    LastAnswer(s.trace) == Some(data) && Concerns(s.trace, s.disk.latest, step)
  }

  lemma CallSources(s: Sys, request: Request)
    requires InStep(s)
    ensures var r := Call(s, request);
      && Sources(s, r.sys) && r.sys.mem == s.mem && r.sys.disk == s.disk
      && (r.out.Ok? ==> LastSent(r.sys.trace) == Some(request) && LastAnswer(r.sys.trace) == Some(r.out.value))
  {
    hide Sources, LastSent, LastGot, Fetch, AsAccepted;
    FetchSources(s, request);
  }

  lemma {:induction false} WaitRoundSources(s: Sys, paths: seq<string>)
    requires InStep(s)
    ensures var r := WaitRound(s, paths);
      && Sources(s, r.sys) && r.sys.mem == s.mem && r.sys.disk == s.disk
      && (r.out.Ok? && r.out.value.Some? ==>
            && LastAnswer(r.sys.trace) == r.out.value
            && LastSent(r.sys.trace).Some? && LastSent(r.sys.trace).value.Poll?
            && LastSent(r.sys.trace).value.path in paths)
    decreases |paths|
  {
    SourcesNothing(s);
    hide Sources, LastSent, LastAnswer, IsFinished, IsFailed, RunStatus, Call;
    if paths != [] {
      CallSources(s, Poll(paths[0]));
      var r := Call(s, Poll(paths[0]));
      StillInStep(s, r.sys);
      if r.out.Ok? && !IsFinished(r.out.value) {
        WaitRoundSources(r.sys, paths[1..]);
        SourcesOn(s, r.sys, WaitRound(r.sys, paths[1..]).sys);
      }
    }
  }

  lemma StillInStep(s: Sys, s': Sys)
    requires InStep(s) && s'.mem == s.mem && s'.disk == s.disk
    ensures InStep(s')
  {
  }

  lemma {:induction false} WaitSources(s: Sys, paths: seq<string>)
    requires InStep(s) && paths != []
    ensures var r := Wait(s, paths);
      && Sources(s, r.sys) && r.sys.mem == s.mem && r.sys.disk == s.disk
      && (r.out.Ok? ==>
            && LastAnswer(r.sys.trace) == Some(r.out.value)
            && LastSent(r.sys.trace).Some? && LastSent(r.sys.trace).value.Poll?
            && LastSent(r.sys.trace).value.path in paths)
    decreases |s.tape|
  {
    if s.tape != [] && s.tape[0].TimeUp? {
      hide Sourced;
    } else {
      hide Sources, LastSent, LastAnswer;
      WaitRoundSources(s, paths);
      var r := WaitRound(s, paths);
      if r.out.Ok? && r.out.value.None? {
        WaitSources(r.sys, paths);
        SourcesOn(s, r.sys, Wait(r.sys, paths).sys);
      }
    }
  }

  /** The addresses of the polls are those of the saved run. */
  lemma WaitPathsAreSaved(runId: string, pollUrl: string, path: string)
    requires path in WaitPaths(runId, pollUrl)
    ensures path in SavedPaths(runId, pollUrl)
  {
    var byId := if runId == "" then []
                else ["/mcp/v1/runs/" + runId, "/mcp/v1/runs/" + runId + "/status"];
    if path != pollUrl {
      assert runId != "" && path == byId[1];
      if pollUrl != "" {
        WithoutKeeps(byId, pollUrl, path);
      }
    }
  }

  lemma {:induction false} WithoutKeeps(paths: seq<string>, dropped: string, path: string)
    requires path in paths && path != dropped
    ensures path in Without(paths, dropped)
  {
    if paths[0] != path {
      WithoutKeeps(paths[1..], dropped, path);
    }
  }

  /** The record that waits for a promised answer. */
  function Waiting(s: Sys, data: Json, action: Action): Record {
    Current(s).(step := PendingPhase(action), status := RunStatus(data), terminal := false, runId := RunIdOf(data),
                pollUrl := PollUrlOf(data))
  }

  lemma PromiseIsSourced(s: Sys, request: Request, data: Json, action: Action)
    requires InStep(s) && LastSent(s.trace) == Some(request) && LastAnswer(s.trace) == Some(data)
    requires AsksFor(request, PendingPhase(action)) && Names(request, Current(s)) && IsActive(RunStatus(data))
    ensures Sourced(s.trace, s.disk.latest, Waiting(s, data, action))
  {
    hide LastSent, LastAnswer, RunStatus, RunIdOf, PollUrlOf, ClaimIsAnswered, RegistrationIsAnswered,
         ContextIsAnswered, ReceiptIsAnswered, IsActive;
    assert Names(request, Waiting(s, data, action));
    assert PromisedNow(s.trace, Waiting(s, data, action));
  }

  lemma SettleSources(s: Sys, request: Request, data: Json, action: Action)
    requires InStep(s) && LastSent(s.trace) == Some(request) && LastAnswer(s.trace) == Some(data)
    requires AsksFor(request, PendingPhase(action)) && Names(request, Current(s))
    ensures var r := Settle(s, data, action);
      Sources(s, r.sys) && (r.out.Ok? ==> Answers(r.sys, PendingPhase(action), r.out.value))
  {
    hide Sources, Sourced, LastSent, LastAnswer, RunStatus, RunIdOf, PollUrlOf, IsActive, Wait, Persist, AsksFor, Names,
         SavedPaths, WaitPaths;
    SourcesNothing(s);
    if IsActive(RunStatus(data)) {
      var rec := Waiting(s, data, action);
      PromiseIsSourced(s, request, data, action);
      PersistSources(s, rec);
      var s1 := Persist(s, rec);
      if rec.runId != "" || rec.pollUrl != "" {
        var paths := WaitPaths(rec.runId, rec.pollUrl);
        PathsExist(rec.runId, rec.pollUrl);
        WaitSources(s1, paths);
        var r := Wait(s1, paths);
        SourcesOn(s, s1, r.sys);
        PersistedIs(s, rec);
        if r.out.Ok? {
          WaitPathsAreSaved(rec.runId, rec.pollUrl, LastSent(r.sys.trace).value.path);
        }
      }
    }
  }

  lemma PersistedIs(s: Sys, r: Record)
    ensures Persist(s, r).disk.latest == Some(r.(updatedAt := s.clock))
  {
  }

  /** A request, its answer, and the polls of its promise. */
  lemma CallAndSettleSources(s: Sys, request: Request, action: Action)
    requires InStep(s) && AsksFor(request, PendingPhase(action)) && Names(request, Current(s))
    ensures var r := CallAndSettle(s, request, action);
      Sources(s, r.sys) && (r.out.Ok? ==> Answers(r.sys, PendingPhase(action), r.out.value))
  {
    hide Sources, LastSent, LastAnswer, Call, Settle, Names, AsksFor, Answers;
    CallSources(s, request);
    var r := Call(s, request);
    CallIsSameRecord(s, request);
    if r.out.Ok? {
      StillInStep(s, r.sys);
      SettleSources(r.sys, request, r.out.value, action);
      SourcesOn(s, r.sys, Settle(r.sys, r.out.value, action).sys);
    }
  }

  lemma CallIsSameRecord(s: Sys, request: Request)
    ensures Current(Call(s, request).sys) == Current(s)
  {
  }

  // ---- The gap ----

  lemma QueryGapsSources(cfg: Config, s: Sys, forStory: bool)
    requires InStep(s)
    ensures Sources(s, QueryGaps(cfg, s, forStory).sys)
  {
    CallAndSettleSources(s, ListGaps(forStory), Discovering);
    hide Sources, CallAndSettle, Select;
  }

  lemma SourcesInStep(s: Sys, s': Sys)
    requires Sources(s, s')
    ensures InStep(s')
  {
  }

  lemma DiscoverGapSources(cfg: Config, s: Sys)
    requires InStep(s)
    ensures Sources(s, DiscoverGap(cfg, s).sys)
  {
    hide Sources, InStep, QueryGaps;
    SourcesNothing(s);
    if s.mem.capabilities.canDiscoverGaps {
      QueryGapsSources(cfg, s, true);
      var first := QueryGaps(cfg, s, true);
      SourcesInStep(s, first.sys);
      QueryGapsSources(cfg, first.sys, false);
      SourcesOn(s, first.sys, QueryGaps(cfg, first.sys, false).sys);
    }
  }

  /** The memory of the gap is free to change. */
  lemma MemoryOfGapIsFree(a: Sys, s: Sys, s': Sys)
    requires Sources(a, s) && s'.trace == s.trace && s'.disk == s.disk && s'.mem.rec == s.mem.rec
    ensures Sources(a, s')
  {
  }

  lemma LearnSources(s: Sys, gapId: string, source: string)
    requires InStep(s)
    ensures Sources(s, Learn(s, gapId, source))
  {
    hide Sources;
    LogSources(s, Resolved(gapId));
    MemoryOfGapIsFree(s, Log(s, Resolved(gapId)), Learn(s, gapId, source));
  }

  lemma LookUpGapSources(cfg: Config, s: Sys)
    requires InStep(s)
    ensures Sources(s, LookUpGap(cfg, s).sys)
  {
    hide Sources, InStep, DiscoverGap, Learn, StartsWith;
    SourcesNothing(s);
    LearnSources(s, cfg.envGap, FROM_ENVIRONMENT);
    LearnSources(s, s.mem.capabilities.gapId, FROM_CAPABILITIES);
    DiscoverGapSources(cfg, s);
    var r := DiscoverGap(cfg, s);
    SourcesInStep(s, r.sys);
    if r.out.Ok? {
      LearnSources(r.sys, r.out.value, GAPS_LIST);
      SourcesOn(s, r.sys, Learn(r.sys, r.out.value, GAPS_LIST));
    }
  }

  lemma ResolveGapSources(cfg: Config, s: Sys)
    requires InStep(s)
    ensures Sources(s, ResolveGap(cfg, s).sys)
  {
    hide Sources, InStep, LookUpGap, Learn, StartsWith;
    SourcesNothing(s);
    LearnSources(s, cfg.operatorGap, FROM_OPERATOR);
    LookUpGapSources(cfg, s);
    var r := ResolveGap(cfg, s).sys;
    if cfg.operatorGap == "" {
      MemoryOfGapIsFree(s, LookUpGap(cfg, s).sys, r);
    } else if StartsWith(cfg.operatorGap, "gap_") {
      MemoryOfGapIsFree(s, Learn(s, cfg.operatorGap, FROM_OPERATOR), r);
    }
  }

  /** What the gap's phases save. */
  lemma GapSources(s: Sys, gapId: string, source: string)
    requires InStep(s)
    ensures Sources(s, Persist(s, GapKnown(Current(s), gapId, source)))
  {
    hide Sources, Persist;
    NoteSources(s, GapKnown(Current(s), gapId, source));
  }

  lemma RefreshGapSources(cfg: Config, s: Sys)
    requires InStep(s)
    ensures Sources(s, RefreshGap(cfg, s).sys)
  {
    hide Sources, InStep, ResolveGap, Persist, GapKnown, SameBooks;
    SourcesNothing(s);
    var s0 := s.(mem := s.mem.(resolvedGap := ""));
    var cached := if Current(s).gapId != "" then Current(s).gapId else s.mem.resolvedGap;
    MemoryOfGapIsFree(s, s, s0);
    SourcesInStep(s, s0);
    ResolveGapSources(cfg, s0);
    var r := ResolveGap(cfg, s0);
    SourcesOn(s, s0, r.sys);
    SourcesInStep(s, r.sys);
    match r.out
    case Ok(live) =>
      GapSources(r.sys, live, r.sys.mem.gapSource);
      SourcesOn(s, r.sys, Persist(r.sys, GapKnown(Current(r.sys), live, r.sys.mem.gapSource)));
    case Err(f) =>
      var s1 := r.sys.(mem := r.sys.mem.(resolvedGap := cached));
      MemoryOfGapIsFree(s, r.sys, s1);
      SourcesInStep(s, s1);
      NoGapSources(s1, "no_claimable_gap", GapResolved, "NO_CLAIMABLE_GAP");
      SourcesOn(s, s1, RefusedGap(s1, "no_claimable_gap", GapResolved, "NO_CLAIMABLE_GAP"));
    case _ =>
  }

  function RefusedGap(s: Sys, status: string, step: Phase, code: string): Sys {
    Persist(s, Current(s).(status := status, step := step, terminal := false, errorCode := code))
  }

  lemma NoGapSources(s: Sys, status: string, step: Phase, code: string)
    requires InStep(s) && !IsPending(step)
    ensures Sources(s, RefusedGap(s, status, step, code))
  {
    hide Sources, Persist;
    NoteSources(s, Current(s).(status := status, step := step, terminal := false, errorCode := code));
  }

  lemma EnsureGapSources(cfg: Config, s: Sys)
    requires InStep(s)
    ensures Sources(s, EnsureGap(cfg, s).sys)
  {
    hide Sources, InStep, ResolveGap, Persist, GapKnown, SameBooks;
    SourcesNothing(s);
    ResolveGapSources(cfg, s);
    var r := ResolveGap(cfg, s);
    SourcesInStep(s, r.sys);
    match r.out
    case Ok(gapId) =>
      GapSources(r.sys, gapId, r.sys.mem.gapSource);
      SourcesOn(s, r.sys, Persist(r.sys, GapKnown(Current(r.sys), gapId, r.sys.mem.gapSource)));
    case Err(f) =>
      var status := if f.NoClaimableGap? then "no_claimable_gap" else "gap_resolution_failed";
      var code := if f.NoClaimableGap? then "NO_CLAIMABLE_GAP" else "GAP_RESOLUTION_FAILED";
      NoGapSources(r.sys, status, GapResolution, code);
      SourcesOn(s, r.sys, RefusedGap(r.sys, status, GapResolution, code));
    case _ =>
  }

  // ---- Claim, registration, context, receipt ----

  lemma CanonicalDigestSources(s: Sys)
    requires InStep(s)
    ensures Sources(s, CanonicalDigest(s).sys) && Current(CanonicalDigest(s).sys) == Current(s)
  {
    hide Sources, AsAccepted, CanonicalDigestOf;
    FetchSources(s, ReadCanonicalDigest);
  }

  lemma PrepareClaimSources(cfg: Config, s: Sys)
    requires InStep(s)
    ensures Sources(s, PrepareClaim(cfg, s).sys)
  {
    hide Sources, InStep, RefreshGap, CanonicalDigest, CallAndSettle, ResolveGap, ContextIdOf;
    RefreshGapSources(cfg, s);
    var f := RefreshGap(cfg, s).sys;
    SourcesInStep(s, f);
    CanonicalDigestSources(f);
    var c := CanonicalDigest(f).sys;
    SourcesOn(s, f, c);
    SourcesInStep(s, c);
    CallAndSettleSources(c, CompilePreclaim, PreclaimCompiling);
    SourcesOn(s, c, CallAndSettle(c, CompilePreclaim, PreclaimCompiling).sys);
    var d := ClaimDigest(f).sys;
    SourcesInStep(s, d);
    ResolveGapSources(cfg, d);
    SourcesOn(s, d, ResolveGap(cfg, d).sys);
  }

  lemma ClaimedIsSourced(s: Sys, data: Json, c: Claim)
    requires InStep(s) && Answers(s, GapClaim, data)
    requires c.claimId == ClaimIdOf(data) && c.claimRef == ClaimRefOf(data)
    ensures Sourced(s.trace, s.disk.latest, Claimed(Current(s), c))
  {
    hide Concerns, LastAnswer, ClaimIdOf, ClaimRefOf, RegistrationIsAnswered, ContextIsAnswered, ReceiptIsAnswered,
         PromisedNow;
  }

  lemma RegisteredIsSourced(s: Sys, data: Json, x: Registration)
    requires InStep(s) && Answers(s, ContextCreate, data) && x.registrationId == RegistrationIdOf(data)
    ensures Sourced(s.trace, s.disk.latest, Registered(Current(s), x))
  {
    hide Concerns, LastAnswer, RegistrationIdOf, RecoveredRegistrationIdOf, ClaimIsAnswered, ContextIsAnswered,
         ReceiptIsAnswered, PromisedNow;
  }

  lemma CompiledIsSourced(s: Sys, data: Json, contextId: string)
    requires InStep(s) && Answers(s, ContextCompile, data) && contextId == ContextIdOf(data)
    ensures Sourced(s.trace, s.disk.latest, Compiled(Current(s), contextId))
  {
    hide Concerns, LastAnswer, ContextIdOf, Normalize, ClaimIsAnswered, RegistrationIsAnswered, ReceiptIsAnswered,
         PromisedNow;
  }

  lemma ReceiptedIsSourced(s: Sys, data: Json, receipt: Receipt)
    requires InStep(s) && Answers(s, GovernedRealize, data)
    requires receipt.contextId == Normalize(data, "", "").contextId
    requires receipt.receiptId == Normalize(data, "", "").receiptId
    ensures Sourced(s.trace, s.disk.latest, Receipted(Current(s), receipt))
  {
    hide Concerns, LastAnswer, ContextIdOf, Normalize, ClaimIsAnswered, RegistrationIsAnswered, PromisedNow;
    var r := Receipted(Current(s), receipt);
    assert !r.HasRun() && r.contextId == receipt.contextId && r.receiptId == receipt.receiptId;
    assert ContextIsAnswered(s.trace, s.disk.latest, r) && ReceiptIsAnswered(s.trace, s.disk.latest, r);
  }

  /** Neither the candidate nor the time decides on the ids of a receipt. */
  lemma ReadReceiptIds(cfg: Config, data: Json, candidate: string)
    ensures var receipt := ReadReceipt(cfg, data, candidate);
      receipt.Ok? ==>
        && receipt.value.contextId == Normalize(data, "", "").contextId
        && receipt.value.receiptId == Normalize(data, "", "").receiptId
  {
    hide Unwrap, FirstString, FirstBool, DigestPlaces, StatusPlaces, MessagePlaces, TimePlaces, FourPlaces, ThreePlaces,
         VerdictPlaces, EventPlaces, IsConfirmed;
  }

  lemma EnsureClaimSources(cfg: Config, s: Sys)
    requires InStep(s)
    ensures Sources(s, EnsureClaim(cfg, s).sys)
  {
    hide Sources, InStep, PrepareClaim, CallAndSettle, ClaimIdOf, ClaimRefOf, Answers, Sourced, Persist, Claimed;
    SourcesNothing(s);
    PrepareClaimSources(cfg, s);
    var p := PrepareClaim(cfg, s);
    SourcesInStep(s, p.sys);
    if p.out.Ok? {
      CallAndSettleSources(p.sys, ClaimGap(p.out.value.0), Claiming);
      var r := CallAndSettle(p.sys, ClaimGap(p.out.value.0), Claiming);
      SourcesOn(s, p.sys, r.sys);
      SourcesInStep(s, r.sys);
      if r.out.Ok? {
        var c := Claim(ClaimIdOf(r.out.value), ClaimRefOf(r.out.value), p.out.value.0, r.sys.mem.gapSource,
                       p.out.value.1);
        ClaimedIsSourced(r.sys, r.out.value, c);
        PersistSources(r.sys, Claimed(Current(r.sys), c));
        SourcesOn(s, r.sys, Persist(r.sys, Claimed(Current(r.sys), c)));
      }
    }
  }

  lemma EnsureRegistrationSources(s: Sys)
    requires InStep(s)
    ensures Sources(s, EnsureRegistration(s).sys)
  {
    hide Sources, InStep, CanonicalDigest, CallAndSettle, RegistrationIdOf, Answers, Sourced, Persist, Registered;
    SourcesNothing(s);
    CanonicalDigestSources(s);
    var d := ClaimedDigest(s);
    SourcesInStep(s, d.sys);
    if d.out.Ok? {
      var rec := Current(d.sys);
      var request := RegisterRepo(rec.gapId, rec.claimId, rec.claimRef);
      CallAndSettleSources(d.sys, request, Registering);
      var r := CallAndSettle(d.sys, request, Registering);
      SourcesOn(s, d.sys, r.sys);
      SourcesInStep(s, r.sys);
      if r.out.Ok? {
        var x := Registration(RegistrationIdOf(r.out.value), d.out.value);
        RegisteredIsSourced(r.sys, r.out.value, x);
        PersistSources(r.sys, Registered(Current(r.sys), x));
        SourcesOn(s, r.sys, Persist(r.sys, Registered(Current(r.sys), x)));
      }
    }
  }

  lemma EnsureContextSources(s: Sys)
    requires InStep(s)
    ensures Sources(s, EnsureContext(s).sys)
  {
    hide Sources, InStep, CanonicalDigest, CallAndSettle, ContextIdOf, Answers, Sourced, Persist, Compiled;
    SourcesNothing(s);
    CanonicalDigestSources(s);
    var d := CanonicalDigest(s);
    SourcesInStep(s, d.sys);
    if d.out.Ok? {
      var request := CompileContext(Current(d.sys).registrationId);
      CallAndSettleSources(d.sys, request, Compiling);
      var r := CallAndSettle(d.sys, request, Compiling);
      SourcesOn(s, d.sys, r.sys);
      SourcesInStep(s, r.sys);
      if r.out.Ok? {
        CompiledIsSourced(r.sys, r.out.value, ContextIdOf(r.out.value));
        PersistSources(r.sys, Compiled(Current(r.sys), ContextIdOf(r.out.value)));
        SourcesOn(s, r.sys, Persist(r.sys, Compiled(Current(r.sys), ContextIdOf(r.out.value))));
      }
    }
  }

  lemma CandidateSources(s: Sys, candidate: string)
    requires InStep(s)
    ensures var s1 := Persist(s, Current(s).(candidate := candidate));
      Sources(s, s1) && InStep(s1) && Current(s1).contextId == Current(s).contextId
  {
    hide Sources;
    NoteSources(s, Current(s).(candidate := candidate));
  }

  lemma EnsureReceiptSources(cfg: Config, s: Sys)
    requires InStep(s)
    ensures Sources(s, EnsureReceipt(cfg, s).sys)
  {
    hide Sources, InStep, CallAndSettle, ReadReceipt, Answers, Sourced, Persist, Receipted, Normalize;
    SourcesNothing(s);
    if cfg.gate.GatePasses? {
      var contextId := Current(s).contextId;
      var candidate := cfg.candidateFor(contextId);
      CandidateSources(s, candidate);
      var s1 := Persist(s, Current(s).(candidate := candidate));
      CallAndSettleSources(s1, Realize(contextId, candidate), Realizing);
      var r := CallAndSettle(s1, Realize(contextId, candidate), Realizing);
      SourcesOn(s, s1, r.sys);
      SourcesInStep(s, r.sys);
      if r.out.Ok? && ReadReceipt(cfg, r.out.value, candidate).Ok? {
        var receipt := ReadReceipt(cfg, r.out.value, candidate).value;
        ReadReceiptIds(cfg, r.out.value, candidate);
        ReceiptedIsSourced(r.sys, r.out.value, receipt);
        PersistSources(r.sys, Receipted(Current(r.sys), receipt));
        SourcesOn(s, r.sys, Persist(r.sys, Receipted(Current(r.sys), receipt)));
      }
    }
  }

  lemma AdvanceSources(cfg: Config, s: Sys)
    requires InStep(s)
    ensures Sources(s, Advance(cfg, s).sys)
  {
    hide Sources, InStep, EnsureGap, EnsureClaim, EnsureRegistration, EnsureContext, EnsureReceipt;
    EnsureGapSources(cfg, s);
    var g := EnsureGap(cfg, s).sys;
    SourcesInStep(s, g);
    EnsureClaimSources(cfg, g);
    var c := EnsureClaim(cfg, g).sys;
    SourcesOn(s, g, c);
    SourcesInStep(s, c);
    EnsureRegistrationSources(c);
    var r := EnsureRegistration(c).sys;
    SourcesOn(s, c, r);
    SourcesInStep(s, r);
    EnsureContextSources(r);
    var x := EnsureContext(r).sys;
    SourcesOn(s, r, x);
    SourcesInStep(s, x);
    EnsureReceiptSources(cfg, x);
    SourcesOn(s, x, EnsureReceipt(cfg, x).sys);
  }

  // ---- Recovery ----

  lemma RecoveredGapIsSourced(cfg: Config, s: Sys, data: Json)
    requires InStep(s) && Current(s).step.GapDiscovery?
    ensures var next := Recovered(cfg, Current(s), s.mem.gapSource, data);
      next.Ok? ==> Sourced(s.trace, s.disk.latest, next.value)
  {
    hide Select, ReadReceipt, LastAnswer, LastSent, ClaimIsAnswered, RegistrationIsAnswered, ContextIsAnswered,
         ReceiptIsAnswered, PromisedNow;
  }

  /** A record without a run that differs from another in one id at most, which was just answered. */
  lemma AnsweredIsSourced(s: Sys, r: Record)
    requires InStep(s) && !r.HasRun() && r.receiptId == Current(s).receiptId
    requires (r.claimId == Current(s).claimId && r.claimRef == Current(s).claimRef)
             || ClaimIsAnswered(s.trace, s.disk.latest, r)
    requires r.registrationId == Current(s).registrationId || RegistrationIsAnswered(s.trace, s.disk.latest, r)
    requires r.contextId == Current(s).contextId || ContextIsAnswered(s.trace, s.disk.latest, r)
    ensures Sourced(s.trace, s.disk.latest, r)
  {
    hide ClaimIsAnswered, RegistrationIsAnswered, ContextIsAnswered, ReceiptIsAnswered, PromisedNow;
  }

  lemma RecoveredClaimIsSourced(cfg: Config, s: Sys, data: Json)
    requires InStep(s) && Answers(s, Current(s).step, data) && Current(s).step.GapClaim?
    ensures var next := Recovered(cfg, Current(s), s.mem.gapSource, data);
      next.Ok? && Sourced(s.trace, s.disk.latest, next.value)
  {
    hide Select, ReadReceipt, Receipted, Concerns, LastAnswer, ClaimIdOf, ClaimRefOf, RegistrationIsAnswered,
         ContextIsAnswered, Sourced, InStep, Current;
    AnsweredIsSourced(s, Recovered(cfg, Current(s), s.mem.gapSource, data).value);
  }

  lemma RecoveredRegistrationIsSourced(cfg: Config, s: Sys, data: Json)
    requires InStep(s) && Answers(s, Current(s).step, data) && Current(s).step.ContextCreate?
    ensures var next := Recovered(cfg, Current(s), s.mem.gapSource, data);
      next.Ok? && Sourced(s.trace, s.disk.latest, next.value)
  {
    hide Select, ReadReceipt, Receipted, Concerns, LastAnswer, RegistrationIdOf, RecoveredRegistrationIdOf,
         ClaimIsAnswered, ContextIsAnswered, Sourced, InStep, Current;
    AnsweredIsSourced(s, Recovered(cfg, Current(s), s.mem.gapSource, data).value);
  }

  lemma RecoveredContextIsSourced(cfg: Config, s: Sys, data: Json)
    requires InStep(s) && Answers(s, Current(s).step, data)
    requires Current(s).step.PreclaimContext? || Current(s).step.ContextCompile?
    ensures var next := Recovered(cfg, Current(s), s.mem.gapSource, data);
      next.Ok? && Sourced(s.trace, s.disk.latest, next.value)
  {
    hide Select, ReadReceipt, Receipted, Concerns, LastAnswer, ContextIdOf, Normalize, ClaimIsAnswered,
         RegistrationIsAnswered, Sourced, InStep, Current;
    AnsweredIsSourced(s, Recovered(cfg, Current(s), s.mem.gapSource, data).value);
  }

  lemma ForgottenRunIsSourced(cfg: Config, s: Sys, data: Json)
    requires InStep(s) && Answers(s, Current(s).step, data) && !IsPending(Current(s).step)
    ensures var next := Recovered(cfg, Current(s), s.mem.gapSource, data);
      next.Ok? && Sourced(s.trace, s.disk.latest, next.value)
  {
    hide Select, ReadReceipt, Receipted, Concerns, LastAnswer, ClaimIsAnswered, RegistrationIsAnswered,
         ContextIsAnswered, Sourced, InStep, Current;
    AnsweredIsSourced(s, Recovered(cfg, Current(s), s.mem.gapSource, data).value);
  }

  lemma RecoveredReceiptIsSourced(cfg: Config, s: Sys, data: Json)
    requires InStep(s) && Answers(s, GovernedRealize, data) && Current(s).step.GovernedRealize?
    ensures var next := Recovered(cfg, Current(s), s.mem.gapSource, data);
      next.Ok? ==> Sourced(s.trace, s.disk.latest, next.value)
  {
    hide Recovered, ReadReceipt, Receipted, Normalize, Answers, Sourced, InStep;
    RecoveredReceipt(cfg, Current(s), s.mem.gapSource, data);
    var receipt := ReadReceipt(cfg, data, Current(s).candidate);
    if receipt.Ok? {
      ReadReceiptIds(cfg, data, Current(s).candidate);
      ReceiptedIsSourced(s, data, receipt.value);
    }
  }

  /** The event of a gap that is learned does not count as an answer. */
  lemma LearnIsNoAnswer(s: Sys, gapId: string, source: string, r: Record)
    requires Sourced(s.trace, s.disk.latest, r)
    ensures Sourced(Learn(s, gapId, source).trace, Learn(s, gapId, source).disk.latest, r)
  {
    LastAfter(s.trace, Resolved(gapId));
    hide LastSent, LastGot, RunStatus, RunIdOf, PollUrlOf, ClaimIdOf, ClaimRefOf, RegistrationIdOf,
         RecoveredRegistrationIdOf, ContextIdOf, Normalize, SavedPaths, AsAccepted;
  }

  lemma TakeResultSources(cfg: Config, s: Sys, data: Json)
    requires InStep(s) && Answers(s, Current(s).step, data)
    ensures Sources(s, TakeResult(cfg, s, data).sys)
  {
    hide Sources, Answers, Recovered, Sourced, Persist, Learn;
    SourcesNothing(s);
    var next := Recovered(cfg, Current(s), s.mem.gapSource, data);
    if next.Ok? {
      match Current(s).step {
        case GapDiscovery => RecoveredGapIsSourced(cfg, s, data);
        case GovernedRealize => RecoveredReceiptIsSourced(cfg, s, data);
        case GapClaim => RecoveredClaimIsSourced(cfg, s, data);
        case ContextCreate => RecoveredRegistrationIsSourced(cfg, s, data);
        case PreclaimContext => RecoveredContextIsSourced(cfg, s, data);
        case ContextCompile => RecoveredContextIsSourced(cfg, s, data);
        case _ => ForgottenRunIsSourced(cfg, s, data);
      }
      PersistSources(s, next.value);
      var s1 := Learn(s, next.value.gapId, s.mem.gapSource);
      LearnSources(s, next.value.gapId, s.mem.gapSource);
      LearnIsNoAnswer(s, next.value.gapId, s.mem.gapSource, next.value);
      PersistSources(s1, next.value);
      SourcesOn(s, s1, Persist(s1, next.value));
    }
  }

  lemma {:induction false} PollPathsSources(cfg: Config, s: Sys, paths: seq<string>, last: string)
    requires InStep(s) && s.mem.rec.Some?
    requires forall path :: path in paths ==> path in SavedPaths(Current(s).runId, Current(s).pollUrl)
    ensures Sources(s, PollPaths(cfg, s, paths, last).sys)
    decreases |paths|
  {
    hide Sources, TakeResult, Persist, IsFinished, IsFailed, RunStatus, AsAccepted, FailureCode, Fetch, LastSent,
         LastGot, SavedPaths, AsksFor;
    if paths == [] {
      NoteSources(s, Current(s).(status := last, terminal := false));
    } else {
      FetchSources(s, Poll(paths[0]));
      var f := Fetch(s, Poll(paths[0]));
      StillInStep(s, f.sys);
      assert s.disk.latest == Some(Current(s)) && Current(f.sys) == Current(s);
      assert paths[0] in paths && forall path :: path in paths[1..] ==> path in paths;
      if f.out.Ok? {
        var reply := f.out.value;
        if !reply.Broken? && !reply.TimeUp? && reply.code == 404 {
          var rec := Current(f.sys).(status := "RUN_NOT_FOUND", errorCode := "RUN_NOT_FOUND", terminal := false);
          NoteSources(f.sys, rec);
          SourcesOn(s, f.sys, Persist(f.sys, rec));
        } else if AsAccepted(reply).Ok? {
          var data := AsAccepted(reply).value;
          if !IsFinished(data) {
            var next := if RunStatus(data) != "" then RunStatus(data) else "pending";
            PollPathsSources(cfg, f.sys, paths[1..], next);
            SourcesOn(s, f.sys, PollPaths(cfg, f.sys, paths[1..], next).sys);
          } else if IsFailed(RunStatus(data)) {
            var code := if FailureCode(data) != "" then FailureCode(data) else "RUN_FAILED";
            var rec := Current(f.sys).(status := code, errorCode := code, terminal := true);
            NoteSources(f.sys, rec);
            SourcesOn(s, f.sys, Persist(f.sys, rec));
          } else {
            TakeResultSources(cfg, f.sys, data);
            SourcesOn(s, f.sys, TakeResult(cfg, f.sys, data).sys);
          }
        }
      }
    }
  }

  // ---- Commands ----

  lemma DiscoverSources(cfg: Config, s: Sys)
    requires InStep(s)
    ensures Sources(s, Discover(cfg, s).sys) && Discover(cfg, s).sys.mem.rec == s.mem.rec
  {
    hide Sources, AsObject, Fetch;
    FetchSources(s, ReadCapabilities);
    MemoryOfGapIsFree(s, Fetch(s, ReadCapabilities).sys, Discover(cfg, s).sys);
  }

  lemma RecoverSources(cfg: Config, s: Sys)
    requires InStep(s) && s.mem.rec.Some?
    ensures Sources(s, Recover(cfg, s).sys)
  {
    hide Sources, PollPaths;
    SourcesNothing(s);
    PollPathsSources(cfg, s, SavedPaths(Current(s).runId, Current(s).pollUrl), "pending");
  }

  lemma DiscoverAndRecoverSources(cfg: Config, s: Sys)
    requires InStep(s) && s.mem.rec.Some?
    ensures Sources(s, DiscoverAndRecover(cfg, s).sys)
  {
    hide Sources, InStep, Discover, Recover;
    DiscoverSources(cfg, s);
    var d := Discover(cfg, s).sys;
    SourcesInStep(s, d);
    RecoverSources(cfg, d);
    SourcesOn(s, d, Recover(cfg, d).sys);
  }

  lemma LoadSources(cfg: Config, s: Sys)
    requires InStep(s)
    ensures Sources(s, Load(cfg, s).sys) && (Load(cfg, s).out.Ok? ==> Load(cfg, s).sys.mem.rec.Some?)
  {
    hide Sourced;
  }

  lemma OpenSources(cfg: Config, s: Sys, useLast: bool)
    requires InStep(s)
    ensures Sources(s, Open(cfg, s, useLast).sys)
    ensures Open(cfg, s, useLast).out.Ok? ==> Open(cfg, s, useLast).sys.mem.rec.Some?
  {
    hide Sources, Persist, Load;
    LoadSources(cfg, s);
    SourcesNothing(s);
    var l := if useLast then Load(cfg, s).sys else s;
    SourcesInStep(s, l);
    var rec := Current(l).(status := "initialized", terminal := false);
    NoteSources(l, rec);
    SourcesOn(s, l, Persist(l, rec));
    PersistedRemembers(l, rec);
  }

  lemma PersistedRemembers(s: Sys, r: Record)
    ensures Persist(s, r).mem.rec.Some?
  {
  }

  lemma ResumeSources(cfg: Config, s: Sys, useLast: bool)
    requires InStep(s)
    ensures Sources(s, Resume(cfg, s, useLast).sys)
  {
    hide Sources, InStep, Open, DiscoverAndRecover, Advance;
    OpenSources(cfg, s, useLast);
    var o := Open(cfg, s, useLast);
    SourcesInStep(s, o.sys);
    if o.out.Ok? {
      DiscoverAndRecoverSources(cfg, o.sys);
      var d := DiscoverAndRecover(cfg, o.sys).sys;
      SourcesOn(s, o.sys, d);
      SourcesInStep(s, d);
      AdvanceSources(cfg, d);
      SourcesOn(s, d, Advance(cfg, d).sys);
    }
  }

  lemma RunFlowSources(cfg: Config, s: Sys, dryRun: bool)
    requires InStep(s)
    ensures Sources(s, RunFlow(cfg, s, dryRun).sys)
  {
    hide Sources, InStep, Discover, Resume, ResolveGap;
    SourcesNothing(s);
    DiscoverSources(cfg, s);
    var d := Discover(cfg, s).sys;
    SourcesInStep(s, d);
    ResumeSources(cfg, d, true);
    SourcesOn(s, d, Resume(cfg, d, true).sys);
    ResolveGapSources(cfg, d);
    SourcesOn(s, d, ResolveGap(cfg, d).sys);
  }

  lemma StatusSources(cfg: Config, s: Sys)
    requires InStep(s)
    ensures Sources(s, Status(cfg, s).sys)
  {
    hide Sources, InStep, Load, DiscoverAndRecover;
    LoadSources(cfg, s);
    var l := Load(cfg, s);
    SourcesInStep(s, l.sys);
    if l.out.Ok? {
      DiscoverAndRecoverSources(cfg, l.sys);
      SourcesOn(s, l.sys, DiscoverAndRecover(cfg, l.sys).sys);
    }
  }

  lemma ExecuteSources(cfg: Config, command: Command, s: Sys)
    requires InStep(s)
    ensures Sources(s, Execute(cfg, command, s).sys)
  {
    hide Sources, InStep, RunFlow, Resume, Status, Load;
    match command
    case RunCommand(dryRun) => RunFlowSources(cfg, s, dryRun);
    case ResumeCommand(useLast) => ResumeSources(cfg, s, useLast);
    case StatusCommand => StatusSources(cfg, s);
    case ReceiptCommand => LoadSources(cfg, s);
  }

  /** Every save of every run has its source. */
  lemma {:induction false} LifeIsSourced(sessions: seq<Session>)
    ensures SourcedFrom(Life(sessions), 0)
  {
    if sessions != [] {
      var init, last := sessions[..|sessions| - 1], sessions[|sessions| - 1];
      LifeIsSourced(init);
      var before := Sessions(init, BLANK);
      var s := Begin(last.cfg, last.command, before, last.tape);
      hide Sourced, Execute;
      LogSources(before.(mem := FRESH_MEMORY, tape := last.tape), Started(last.cfg.operatorGap, last.command));
      ExecuteSources(last.cfg, last.command, s);
      var full := Execute(last.cfg, last.command, s).sys;
      SourcedJoin(before.trace, s.trace, full.trace);
      SourcedPrefix(full.trace, |before.trace| + last.life);
    }
  }

  lemma SourcedJoin(a: seq<Event>, b: seq<Event>, c: seq<Event>)
    requires SourcedFrom(a, 0) && a <= b && SourcedFrom(b, |a|) && b <= c && SourcedFrom(c, |b|)
    ensures SourcedFrom(c, 0)
  {
    hide Sourced;
    forall k | 0 <= k < |c| && c[k].Saved?
      ensures Sourced(c[..k], c[k].before, c[k].record)
    {
      if k < |a| {
        assert c[k] == a[k] && c[..k] == a[..k];
      } else if k < |b| {
        assert c[k] == b[k] && c[..k] == b[..k];
      }
    }
  }

  lemma SourcedPrefix(trace: seq<Event>, n: nat)
    requires SourcedFrom(trace, 0)
    ensures n <= |trace| ==> SourcedFrom(trace[..n], 0)
  {
    hide Sourced;
    if n <= |trace| {
      forall k | 0 <= k < n && trace[k].Saved?
        ensures Sourced(trace[..n][..k], trace[k].before, trace[k].record)
      {
        assert trace[..n][..k] == trace[..k];
      }
    }
  }

  // ---- Back to the promise and to the answer ----

  /** At some moment the request of the record's step, naming what the record names, was answered with the promise of
      the record's run. */
  ghost predicate IsPromised(trace: seq<Event>, r: Record) {
    exists i :: 0 <= i <= |trace| && PromisedNow(trace[..i], r)
  }

  /** The last answer is one to this step's own request, or comes from the run that was promised to it. */
  ghost predicate IsGenuine(trace: seq<Event>, step: Phase) {
    LastSent(trace).Some? &&
      var request, latest := LastSent(trace).value, LatestAfter(trace);
      || AsksFor(request, step)
      || (&& request.Poll? && latest.Some? && latest.value.step == step
          && request.path in SavedPaths(latest.value.runId, latest.value.pollUrl)
          && IsPromised(trace, latest.value))
  }

  ghost predicate ClaimHasSource(trace: seq<Event>, r: Record) {
    exists i :: 0 <= i <= |trace|
      && ClaimIsAnswered(trace[..i], LatestAfter(trace[..i]), r) && IsGenuine(trace[..i], GapClaim)
  }

  ghost predicate RegistrationHasSource(trace: seq<Event>, r: Record) {
    exists i :: 0 <= i <= |trace|
      && RegistrationIsAnswered(trace[..i], LatestAfter(trace[..i]), r) && IsGenuine(trace[..i], ContextCreate)
  }

  ghost predicate ContextHasSource(trace: seq<Event>, r: Record) {
    exists i :: 0 <= i <= |trace|
      && ContextIsAnswered(trace[..i], LatestAfter(trace[..i]), r)
      && (|| IsGenuine(trace[..i], ContextCompile) || IsGenuine(trace[..i], PreclaimContext)
          || IsGenuine(trace[..i], GovernedRealize))
  }

  ghost predicate ReceiptHasSource(trace: seq<Event>, r: Record) {
    exists i :: 0 <= i <= |trace|
      && ReceiptIsAnswered(trace[..i], LatestAfter(trace[..i]), r) && IsGenuine(trace[..i], GovernedRealize)
  }

  /** Nothing on record is invented. */
  ghost predicate IsAccounted(trace: seq<Event>, r: Record) {
    && (r.HasRun() && IsPending(r.step) ==> IsPromised(trace, r))
    && (r.HasClaim() ==> ClaimHasSource(trace, r))
    && (r.HasRegistration() ==> RegistrationHasSource(trace, r))
    && (r.HasContext() ==> ContextHasSource(trace, r))
    && (r.receiptId != "" ==> ReceiptHasSource(trace, r))
  }

  lemma SamePromise(trace: seq<Event>, r: Record, r': Record)
    requires PromisedNow(trace, r) && r'.step == r.step && r'.runId == r.runId && r'.pollUrl == r.pollUrl
    requires SamePrefix(r, r')
    ensures PromisedNow(trace, r')
  {
    hide LastSent, LastAnswer, IsActive, RunStatus, RunIdOf, PollUrlOf;
  }

  lemma StillPromised(trace: seq<Event>, more: seq<Event>, r: Record, r': Record)
    requires IsPromised(trace, r) && r'.step == r.step && r'.runId == r.runId && r'.pollUrl == r.pollUrl
    requires SamePrefix(r, r') && trace <= more
    ensures IsPromised(more, r')
  {
    hide PromisedNow, SamePrefix;
    var i :| 0 <= i <= |trace| && PromisedNow(trace[..i], r);
    SamePromise(trace[..i], r, r');
    assert more[..i] == trace[..i];
  }

  /** A run that can be polled. */
  lemma PolledIsRun(r: Record, path: string)
    requires path in SavedPaths(r.runId, r.pollUrl)
    ensures r.HasRun()
  {
  }

  /** An answer that concerns a pending step of an accounted record is genuine. */
  lemma ConcernIsGenuine(trace: seq<Event>, step: Phase)
    requires Concerns(trace, LatestAfter(trace), step) && IsPending(step)
    requires LatestAfter(trace).Some? ==> IsAccounted(trace, LatestAfter(trace).value)
    ensures IsGenuine(trace, step)
  {
    hide LastSent, LatestAfter, SavedPaths, IsPromised, AsksFor, ClaimHasSource, RegistrationHasSource,
         ContextHasSource, ReceiptHasSource;
    if !AsksFor(LastSent(trace).value, step) {
      PolledIsRun(LatestAfter(trace).value, LastSent(trace).value.path);
    }
  }

  /** Sources stay sources. */
  lemma SourcesStay(trace: seq<Event>, more: seq<Event>, r: Record, r': Record)
    requires trace <= more
    ensures ClaimHasSource(trace, r) && r'.claimId == r.claimId && r'.claimRef == r.claimRef ==>
              ClaimHasSource(more, r')
    ensures RegistrationHasSource(trace, r) && r'.registrationId == r.registrationId ==> RegistrationHasSource(more, r')
    ensures ContextHasSource(trace, r) && r'.contextId == r.contextId ==> ContextHasSource(more, r')
    ensures ReceiptHasSource(trace, r) && r'.receiptId == r.receiptId ==> ReceiptHasSource(more, r')
  {
    hide LastSent, LastAnswer, LatestAfter, Concerns, IsGenuine, ClaimIdOf, ClaimRefOf, RegistrationIdOf,
         RecoveredRegistrationIdOf, ContextIdOf, Normalize;
    assert forall i :: 0 <= i <= |trace| ==> more[..i] == trace[..i];
    if ClaimHasSource(trace, r) && r'.claimId == r.claimId && r'.claimRef == r.claimRef {
      var i :| 0 <= i <= |trace| && ClaimIsAnswered(trace[..i], LatestAfter(trace[..i]), r)
               && IsGenuine(trace[..i], GapClaim);
      assert ClaimIsAnswered(more[..i], LatestAfter(more[..i]), r');
    }
    if RegistrationHasSource(trace, r) && r'.registrationId == r.registrationId {
      var i :| 0 <= i <= |trace| && RegistrationIsAnswered(trace[..i], LatestAfter(trace[..i]), r)
               && IsGenuine(trace[..i], ContextCreate);
      assert RegistrationIsAnswered(more[..i], LatestAfter(more[..i]), r');
    }
    if ContextHasSource(trace, r) && r'.contextId == r.contextId {
      var i :| 0 <= i <= |trace| && ContextIsAnswered(trace[..i], LatestAfter(trace[..i]), r)
               && (|| IsGenuine(trace[..i], ContextCompile) || IsGenuine(trace[..i], PreclaimContext)
                   || IsGenuine(trace[..i], GovernedRealize));
      assert ContextIsAnswered(more[..i], LatestAfter(more[..i]), r');
    }
    if ReceiptHasSource(trace, r) && r'.receiptId == r.receiptId {
      var i :| 0 <= i <= |trace| && ReceiptIsAnswered(trace[..i], LatestAfter(trace[..i]), r)
               && IsGenuine(trace[..i], GovernedRealize);
      assert ReceiptIsAnswered(more[..i], LatestAfter(more[..i]), r');
    }
  }

  /** What was answered just now has its source. */
  lemma AnsweredHasSource(trace: seq<Event>, more: seq<Event>, r: Record)
    requires trace <= more && (LatestAfter(trace).Some? ==> IsAccounted(trace, LatestAfter(trace).value))
    ensures ClaimIsAnswered(trace, LatestAfter(trace), r) ==> ClaimHasSource(more, r)
    ensures RegistrationIsAnswered(trace, LatestAfter(trace), r) ==> RegistrationHasSource(more, r)
    ensures ContextIsAnswered(trace, LatestAfter(trace), r) ==> ContextHasSource(more, r)
    ensures ReceiptIsAnswered(trace, LatestAfter(trace), r) ==> ReceiptHasSource(more, r)
  {
    hide LastSent, LastAnswer, LatestAfter, Concerns, IsGenuine, IsAccounted, ClaimIdOf, ClaimRefOf, RegistrationIdOf,
         RecoveredRegistrationIdOf, ContextIdOf, Normalize;
    assert more[..|trace|] == trace;
    if Concerns(trace, LatestAfter(trace), GapClaim) { ConcernIsGenuine(trace, GapClaim); }
    if Concerns(trace, LatestAfter(trace), ContextCreate) { ConcernIsGenuine(trace, ContextCreate); }
    if Concerns(trace, LatestAfter(trace), ContextCompile) { ConcernIsGenuine(trace, ContextCompile); }
    if Concerns(trace, LatestAfter(trace), PreclaimContext) { ConcernIsGenuine(trace, PreclaimContext); }
    if Concerns(trace, LatestAfter(trace), GovernedRealize) { ConcernIsGenuine(trace, GovernedRealize); }
  }

  lemma PromiseIsNow(trace: seq<Event>, more: seq<Event>, r: Record)
    requires trace <= more && PromisedNow(trace, r)
    ensures IsPromised(more, r)
  {
    hide PromisedNow;
    assert more[..|trace|] == trace;
  }

  /** A save with sources on an accounted record is accounted. */
  lemma SavedIsAccounted(trace: seq<Event>, more: seq<Event>, r: Record)
    requires trace <= more && Sourced(trace, LatestAfter(trace), r)
    requires LatestAfter(trace).Some? ==> IsAccounted(trace, LatestAfter(trace).value)
    ensures IsAccounted(more, r)
  {
    hide LatestAfter, PromisedNow, ClaimIsAnswered, RegistrationIsAnswered, ContextIsAnswered, ReceiptIsAnswered,
         ClaimHasSource, RegistrationHasSource, ContextHasSource, ReceiptHasSource, IsPromised, SamePrefix;
    AnsweredHasSource(trace, more, r);
    var before := LatestAfter(trace);
    if before.Some? {
      SourcesStay(trace, more, before.value, r);
    }
    if r.HasRun() && IsPending(r.step) {
      if PromisedNow(trace, r) {
        PromiseIsNow(trace, more, r);
      } else {
        StillPromised(trace, more, before.value, r);
      }
    }
  }

  lemma AccountStays(trace: seq<Event>, more: seq<Event>, r: Record)
    requires trace <= more && IsAccounted(trace, r)
    ensures IsAccounted(more, r)
  {
    hide ClaimHasSource, RegistrationHasSource, ContextHasSource, ReceiptHasSource, IsPromised;
    SourcesStay(trace, more, r, r);
    if r.HasRun() && IsPending(r.step) {
      StillPromised(trace, more, r, r);
    }
  }

  lemma SaveReadsLatest(trace: seq<Event>, e: Event)
    requires MayHappen(trace, e) && e.Saved?
    ensures e.before == LatestAfter(trace)
  {
  }

  lemma {:induction false} TraceIsAccounted(trace: seq<Event>)
    requires Lawful(trace) && SourcedFrom(trace, 0)
    ensures LatestAfter(trace).Some? ==> IsAccounted(trace, LatestAfter(trace).value)
  {
    if trace != [] {
      var init, e := trace[..|trace| - 1], trace[|trace| - 1];
      assert MayHappen(init, e);
      SourcedPrefix(trace, |init|);
      TraceIsAccounted(init);
      hide Lawful, MayHappen, Sourced, IsAccounted;
      if e.Saved? {
        SaveReadsLatest(init, e);
        assert Sourced(trace[..|init|], e.before, e.record);
        SavedIsAccounted(init, trace, e.record);
      } else if LatestAfter(init).Some? {
        AccountStays(init, trace, LatestAfter(init).value);
      }
    }
  }

  /**
   * Provenance: at every moment of every run, a saved run that is awaited is the run that was promised to the request
   * of the saved step, and that request named the gap and claim, the registration or the context that are on record;
   * and every claim, registration, context and receipt id on record was read from an answer to its own request, or to
   * a poll of the run that was promised to that request.
   */
  lemma NothingIsInvented(sessions: seq<Session>, k: nat)
    requires k <= |Life(sessions)|
    ensures var r := LatestAfter(Life(sessions)[..k]); r.Some? ==> IsAccounted(Life(sessions)[..k], r.value)
  {
    LifeIsLawful(sessions);
    LifeIsSourced(sessions);
    hide Life, Lawful, SourcedFrom, IsAccounted, LatestAfter;
    PrefixIsLawful(Life(sessions), k);
    SourcedPrefix(Life(sessions), k);
    TraceIsAccounted(Life(sessions)[..k]);
  }
}
