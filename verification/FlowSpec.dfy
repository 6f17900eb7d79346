// The resumable governed flow as functions from one observable state to the next.
// Every function follows one method of the client; FlowClient proves the methods equal to them.
module FlowSpec {
  import opened Json
  import opened Text
  import opened Options
  import opened GovernanceReceipts
  import opened GapSelection
  import opened ReplyFields
  import opened FlowState

  // ---- Disk, trace and network ----

  function Log(s: Sys, e: Event): Sys {
    s.(trace := s.trace + [e])
  }

  /** The record that an update starts from: the client's, or a new one while it has none. */
  function Current(s: Sys): Record {
    if s.mem.rec.Some? then s.mem.rec.value else NewRecord(s.clock)
  }

  /** `_persist_state`: stamp the record and write it to latest.json, then to its own file. */
  function Persist(s: Sys, r: Record): Sys {
    var w := r.(updatedAt := s.clock);
    Sys(Disk(Some(w), s.disk.runs[w.runRecordId := w]), s.mem.(rec := Some(w)), s.tape,
        s.trace + [Saved(s.disk.latest, w), Filed(w)], s.clock + 1)
  }

  /** Send a request and take the next answer. The process may die before the answer arrives. */
  function Fetch(s: Sys, request: Request): Run<Reply> {
    var s1 := Log(s, Sent(request, s.disk.latest));
    if s.tape == [] then Run(s1, Crash)
    else Run(Log(s1, Got(s.tape[0])).(tape := s.tape[1..]), Ok(s.tape[0]))
  }

  /** `_raise_for_response` and `_json_object`. */
  function AsObject(reply: Reply): Outcome<Json> {
    match reply
    case Http(code, body) =>
      if code >= 400 then Err(HttpError(code)) else if body.Obj? then Ok(body) else Err(NotAnObject)
    case NotJson(code) => if code >= 400 then Err(HttpError(code)) else Abort
    case _ => Abort
  }

  /** The same, followed by `_raise_for_mcp_error`. */
  function AsAccepted(reply: Reply): Outcome<Json> {
    var parsed := AsObject(reply);
    if parsed.Ok? && Get(parsed.value, "ok") == Bool(false) then Err(Rejected) else parsed
  }

  function Call(s: Sys, request: Request): Run<Json> {
    var r := Fetch(s, request);
    if r.out.Ok? then Run(r.sys, AsAccepted(r.out.value)) else Run(r.sys, r.out.Fail())
  }

  // ---- Runs that finish later ----

  /** The addresses to poll, without duplicates. */
  function WaitPaths(runId: string, pollUrl: string): seq<string> {
    var byId := if runId != "" then ["/mcp/v1/runs/" + runId + "/status"] else [];
    if pollUrl == "" then byId else [pollUrl] + (if byId == [pollUrl] then [] else byId)
  }

  /** One pass over the addresses: the finished run, or None when it is still going. */
  function WaitRound(s: Sys, paths: seq<string>): (r: Run<Option<Json>>)
    ensures |r.sys.tape| <= |s.tape|
    ensures paths != [] && r.out.Ok? ==> |r.sys.tape| < |s.tape|
    decreases |paths|
  {
    if paths == [] then Run(s, Ok(None))
    else
      var r := Call(s, Poll(paths[0]));
      if !r.out.Ok? then Run(r.sys, r.out.Fail())
      else if !IsFinished(r.out.value) then WaitRound(r.sys, paths[1..])
      else if IsFailed(RunStatus(r.out.value)) then Run(r.sys, Err(RunFailed(FailureCode(r.out.value))))
      else Run(r.sys, Ok(Some(r.out.value)))
  }

  function Wait(s: Sys, paths: seq<string>): Run<Json>
    requires paths != []
    decreases |s.tape|
  {
    if s.tape != [] && s.tape[0].TimeUp? then Run(s.(tape := s.tape[1..]), Err(Late))
    else
      var r := WaitRound(s, paths);
      if !r.out.Ok? then Run(r.sys, r.out.Fail())
      else if r.out.value.None? then Wait(r.sys, paths)
      else Run(r.sys, Ok(r.out.value.value))
  }

  /** `_resolve_async_result`: an accepted run is saved before it is polled. */
  function Settle(s: Sys, data: Json, action: Action): Run<Json> {
    if !IsActive(RunStatus(data)) then Run(s, Ok(data))
    else
      var s1 := Persist(s, Current(s).(step := PendingPhase(action), status := RunStatus(data), terminal := false,
                                       runId := RunIdOf(data), pollUrl := PollUrlOf(data)));
      if RunIdOf(data) == "" && PollUrlOf(data) == "" then Run(s1, Err(NoRunHandle))
      else Wait(s1, WaitPaths(RunIdOf(data), PollUrlOf(data)))
  }

  function CallAndSettle(s: Sys, request: Request, action: Action): Run<Json> {
    var r := Call(s, request);
    if r.out.Ok? then Settle(r.sys, r.out.value, action) else r
  }

  // ---- Discovery of the server and of the gap ----

  function Discover(cfg: Config, s: Sys): Run<()> {
    var r := Fetch(s, ReadCapabilities);
    if !r.out.Ok? then Run(r.sys, r.out.Fail())
    else
      var parsed := AsObject(r.out.value);
      if !parsed.Ok? then Run(r.sys, parsed.Fail())
      else
        var c := cfg.readCapabilities(parsed.value);
        var s1 := r.sys.(mem := r.sys.mem.(capabilities := c));
        if (c.requiresClaim && !c.canClaim) || !c.canRegister || !c.canCompile || !c.canRealize
        then Run(s1, Err(MissingOperation))
        else Run(s1, Ok(()))
  }

  function GapQuery(cfg: Config): Query {
    Query(cfg.repoName, cfg.storyId, cfg.capabilityId, cfg.dump)
  }

  /** `_select_gap_id`; no match is the empty id. */
  function Select(cfg: Config, data: Json): Outcome<string> {
    match SelectGap(GapQuery(cfg), data)
    case NoMatch => Ok("")
    case Chosen(id) => Ok(id)
    case NoneClaimable => Err(NoClaimableGap)
    case Tied => Err(MultipleGaps)
  }

  function QueryGaps(cfg: Config, s: Sys, forStory: bool): Run<string> {
    var r := CallAndSettle(s, ListGaps(forStory), Discovering);
    if r.out.Ok? then Run(r.sys, Select(cfg, r.out.value)) else Run(r.sys, r.out.Fail())
  }

  /** `_discover_gap_id`: ask for the story's gaps, then for all of them. */
  function DiscoverGap(cfg: Config, s: Sys): Run<string> {
    if !s.mem.capabilities.canDiscoverGaps then Run(s, Err(MissingOperation))
    else
      var first := QueryGaps(cfg, s, true);
      if cfg.storyId == "" || !(first.out.Err? || first.out == Ok("")) then first
      else
        var second := QueryGaps(cfg, first.sys, false);
        if second.out.Err? && first.out.Err? then Run(second.sys, first.out) else second
  }

  function Learn(s: Sys, gapId: string, source: string): Sys {
    Log(s.(mem := s.mem.(resolvedGap := gapId, gapSource := source)), Resolved(gapId))
  }

  const GAPS_LIST := "gaps.list"
  const FROM_OPERATOR := "operator --gap-id"
  const FROM_ENVIRONMENT := "diagnostic override KEYHOLE_GOVERNED_GAP_ID"
  const FROM_CAPABILITIES := "capabilities"

  /** The base client's `_resolve_gap_id`. */
  function LookUpGap(cfg: Config, s: Sys): Run<string> {
    if s.mem.resolvedGap != "" then Run(s, Ok(s.mem.resolvedGap))
    else if cfg.envGap != "" then
      if !StartsWith(cfg.envGap, "gap_") then Run(s, Err(BadGapId))
      else Run(Learn(s, cfg.envGap, FROM_ENVIRONMENT), Ok(cfg.envGap))
    else if s.mem.capabilities.gapId != "" then
      Run(Learn(s, s.mem.capabilities.gapId, FROM_CAPABILITIES), Ok(s.mem.capabilities.gapId))
    else
      var r := DiscoverGap(cfg, s);
      if !r.out.Ok? then r
      else if r.out.value == "" then Run(r.sys, Err(UnresolvedGap))
      else Run(Learn(r.sys, r.out.value, GAPS_LIST), Ok(r.out.value))
  }

  /** The flow client's `_resolve_gap_id`. */
  function ResolveGap(cfg: Config, s: Sys): Run<string> {
    if cfg.operatorGap != "" then
      if !StartsWith(cfg.operatorGap, "gap_") then Run(s, Err(BadGapId))
      else
        var s1 := Learn(s, cfg.operatorGap, FROM_OPERATOR);
        Run(s1.(mem := s1.mem.(gapVerified := true)), Ok(cfg.operatorGap))
    else
      var r := LookUpGap(cfg, s);
      if !r.out.Ok? then r
      else Run(r.sys.(mem := r.sys.mem.(gapVerified := r.sys.mem.gapSource == GAPS_LIST)), r.out)
  }

  // ---- Claim ----

  /** `_refresh_cached_gap_claimability`: a gap id read back from the disk is looked up again. */
  function RefreshGap(cfg: Config, s: Sys): Run<()> {
    var cached := if Current(s).gapId != "" then Current(s).gapId else s.mem.resolvedGap;
    if s.mem.gapVerified || cfg.operatorGap != "" || cached == "" then Run(s, Ok(()))
    else
      var r := ResolveGap(cfg, s.(mem := s.mem.(resolvedGap := "")));
      match r.out
      case Err(f) =>
        var s1 := r.sys.(mem := r.sys.mem.(resolvedGap := cached));
        Run(Persist(s1, Current(s1).(status := "no_claimable_gap", step := GapResolved, terminal := false,
                                     errorCode := "NO_CLAIMABLE_GAP")), Err(f))
      case Ok(live) =>
        if live == cached then Run(r.sys, Ok(()))
        else Run(Persist(r.sys, GapKnown(Current(r.sys), live, r.sys.mem.gapSource)), Ok(()))
      case _ => Run(r.sys, r.out.Fail())
  }

  /** `_current_canonical_digest`: any trouble short of the process dying reads as no digest. */
  function CanonicalDigest(s: Sys): Run<string> {
    var r := Fetch(s, ReadCanonicalDigest);
    if !r.out.Ok? then Run(r.sys, r.out.Fail())
    else
      var parsed := AsAccepted(r.out.value);
      Run(r.sys, Ok(if parsed.Ok? then CanonicalDigestOf(parsed.value) else ""))
  }

  /** `_claim_context_digest`. */
  function ClaimDigest(s: Sys): Run<string> {
    var r := CanonicalDigest(s);
    if !r.out.Ok? || r.out.value != "" then r
    else
      var c := CallAndSettle(r.sys, CompilePreclaim, PreclaimCompiling);
      if !c.out.Ok? then Run(c.sys, c.out.Fail())
      else if ContextIdOf(c.out.value) == "" then Run(c.sys, Err(MissingId))
      else Run(c.sys, Ok(ContextIdOf(c.out.value)))
  }

  datatype Claim = Claim(claimId: string, claimRef: string, gapId: string, gapSource: string, digest: string)

  /** The gap to claim, and the digest to claim it with. */
  function PrepareClaim(cfg: Config, s: Sys): Run<(string, string)> {
    var f := RefreshGap(cfg, s);
    if !f.out.Ok? then Run(f.sys, f.out.Fail())
    else if !f.sys.mem.capabilities.canClaim then Run(f.sys, Err(MissingOperation))
    else
      var d := ClaimDigest(f.sys);
      if !d.out.Ok? then Run(d.sys, d.out.Fail())
      else
        var g := ResolveGap(cfg, d.sys);
        if !g.out.Ok? then Run(g.sys, g.out.Fail())
        else Run(g.sys, Ok((g.out.value, d.out.value)))
  }

  function MakeClaim(cfg: Config, s: Sys): Run<Claim> {
    var p := PrepareClaim(cfg, s);
    if p.out.Ok? then SendClaim(p.sys, p.out.value.0, p.out.value.1) else Run(p.sys, p.out.Fail())
  }

  function SendClaim(s: Sys, gapId: string, digest: string): Run<Claim> {
    var r := CallAndSettle(s, ClaimGap(gapId), Claiming);
    if !r.out.Ok? then Run(r.sys, r.out.Fail())
    else if ClaimIdOf(r.out.value) == "" && ClaimRefOf(r.out.value) == "" then Run(r.sys, Err(MissingId))
    else Run(r.sys, Ok(Claim(ClaimIdOf(r.out.value), ClaimRefOf(r.out.value), gapId, r.sys.mem.gapSource, digest)))
  }

  // ---- Registration, context, realization ----

  datatype Registration = Registration(registrationId: string, claimDigest: string)

  /** `register_repo` for a record that holds a claim. */
  function Register(s: Sys): Run<Registration> {
    var d := ClaimedDigest(s);
    if d.out.Ok? then SendRegistration(d.sys, d.out.value) else Run(d.sys, d.out.Fail())
  }

  /** The digest that the claim brought, or the canonical one. */
  function ClaimedDigest(s: Sys): Run<string> {
    if Current(s).claimDigest != "" then Run(s, Ok(Current(s).claimDigest)) else CanonicalDigest(s)
  }

  function SendRegistration(s: Sys, digest: string): Run<Registration> {
    var rec := Current(s);
    var r := CallAndSettle(s, RegisterRepo(rec.gapId, rec.claimId, rec.claimRef), Registering);
    if !r.out.Ok? then Run(r.sys, r.out.Fail())
    else if TripsReader(r.out.value) then Run(r.sys, Abort)
    else if RegistrationIdOf(r.out.value) == "" then Run(r.sys, Err(MissingId))
    else Run(r.sys, Ok(Registration(RegistrationIdOf(r.out.value), digest)))
  }

  /** `compile_context`; the canonical digest is read even when the claim brought one. */
  function Compile(s: Sys): Run<string> {
    var d := CanonicalDigest(s);
    if d.out.Ok? then SendCompile(d.sys) else d
  }

  function SendCompile(s: Sys): Run<string> {
    var r := CallAndSettle(s, CompileContext(Current(s).registrationId), Compiling);
    if !r.out.Ok? then Run(r.sys, r.out.Fail())
    else if ContextIdOf(r.out.value) == "" then Run(r.sys, Err(MissingId))
    else Run(r.sys, Ok(ContextIdOf(r.out.value)))
  }

  /** Build and test the receipt: normalisation, the model's time field, the six conditions. */
  function ReadReceipt(cfg: Config, data: Json, candidate: string): Outcome<Receipt> {
    var raw := Normalize(data, candidate, cfg.now);
    var time := cfg.parseTime(raw.realizedAt);
    if time.None? then Abort
    else if !IsConfirmed(raw) then Err(UnconfirmedReceipt)
    else Ok(raw.(realizedAt := time.value))
  }

  /** `run_governed_realization`. */
  function RealizeGoverned(cfg: Config, s: Sys): Run<Receipt> {
    var contextId := Current(s).contextId;
    match cfg.gate
    case GateRejects => Run(s, Err(GateRejected))
    case GateBreaks => Run(s, Abort)
    case GatePasses =>
      var candidate := cfg.candidateFor(contextId);
      var s1 := Persist(s, Current(s).(candidate := candidate));
      var r := CallAndSettle(s1, Realize(contextId, candidate), Realizing);
      if !r.out.Ok? then Run(r.sys, r.out.Fail())
      else Run(r.sys, ReadReceipt(cfg, r.out.value, candidate))
  }

  // ---- The records that the phases leave behind ----

  function GapKnown(r: Record, gapId: string, source: string): Record {
    r.(gapId := gapId, gapSource := source, status := "gap_resolved", step := GapResolved, terminal := false)
  }

  function Claimed(r: Record, c: Claim): Record {
    r.(claimId := c.claimId, claimRef := c.claimRef, claimDigest := c.digest, gapId := c.gapId,
       gapSource := c.gapSource, status := "claim_succeeded", step := ClaimSucceeded, terminal := false)
  }

  function Registered(r: Record, x: Registration): Record {
    r.(registrationId := x.registrationId, claimDigest := x.claimDigest, status := "context_created",
       step := ContextCreated, terminal := false)
  }

  function Compiled(r: Record, contextId: string): Record {
    r.(contextId := contextId, status := "context_compiled", step := ContextCompiled, terminal := false)
  }

  function Receipted(r: Record, receipt: Receipt): Record {
    r.(step := ReceiptReady, terminal := true, liveConfirmed := true, runId := "", pollUrl := "").WithReceipt(receipt)
  }

  // ---- Recovery ----

  /** What a finished run that was saved earlier adds to the record, by the record's step. */
  function Recovered(cfg: Config, rec: Record, source: string, data: Json): Outcome<Record> {
    var r := rec.(runId := "", pollUrl := "", terminal := false);
    match rec.step
    case GapDiscovery =>
      var gap := Select(cfg, data);
      if !gap.Ok? then gap.Fail()
      else if gap.value == "" then Ok(r)
      else Ok(r.(gapId := gap.value, gapSource := if source != "" then source else GAPS_LIST,
                 status := "gap_resolved", step := GapResolved))
    case GapClaim =>
      Ok(r.(claimId := ClaimIdOf(data), claimRef := ClaimRefOf(data), status := "claim_succeeded",
            step := ClaimSucceeded))
    case ContextCreate =>
      Ok(r.(registrationId := RecoveredRegistrationIdOf(data), status := "context_created", step := ContextCreated))
    case PreclaimContext =>
      Ok(r.(contextId := ContextIdOf(data), status := "preclaim_context_ready", step := PreclaimContextReady))
    case ContextCompile =>
      Ok(r.(contextId := ContextIdOf(data), status := "context_compiled", step := ContextCompiled))
    case GovernedRealize =>
      var receipt := ReadReceipt(cfg, data, rec.candidate);
      if !receipt.Ok? then receipt.Fail()
      else Ok(Receipted(rec, receipt.value))
    case _ => Ok(r)
  }

  /** `_update_state_from_result`. */
  function TakeResult(cfg: Config, s: Sys, data: Json): Run<()> {
    var rec := Current(s);
    var next := Recovered(cfg, rec, s.mem.gapSource, data);
    if !next.Ok? then Run(s, next.Fail())
    else if rec.step.GapDiscovery? && next.value.step.GapResolved? then
      Run(Persist(Learn(s, next.value.gapId, s.mem.gapSource), next.value), Ok(()))
    else Run(Persist(s, next.value), Ok(()))
  }

  function SavedPaths(runId: string, pollUrl: string): seq<string> {
    var byId := if runId == "" then []
                else ["/mcp/v1/runs/" + runId, "/mcp/v1/runs/" + runId + "/status"];
    if pollUrl == "" then byId else [pollUrl] + Without(byId, pollUrl)
  }

  function Without(paths: seq<string>, path: string): seq<string> {
    if paths == [] then [] else (if paths[0] == path then [] else [paths[0]]) + Without(paths[1..], path)
  }

  /** The loop of `_poll_saved_run` over the remaining addresses; `last` is the status seen last. */
  function PollPaths(cfg: Config, s: Sys, paths: seq<string>, last: string): Run<()>
    decreases |paths|
  {
    if paths == [] then Run(Persist(s, Current(s).(status := last, terminal := false)), Ok(()))
    else
      var f := Fetch(s, Poll(paths[0]));
      if !f.out.Ok? then Run(f.sys, f.out.Fail())
      else if !f.out.value.Broken? && !f.out.value.TimeUp? && f.out.value.code == 404 then
        Run(Persist(f.sys, Current(f.sys).(status := "RUN_NOT_FOUND", errorCode := "RUN_NOT_FOUND",
                                           terminal := false)), Err(RunNotFound))
      else
        var parsed := AsAccepted(f.out.value);
        if !parsed.Ok? then Run(f.sys, parsed.Fail())
        else
          var data := parsed.value;
          if !IsFinished(data) then
            PollPaths(cfg, f.sys, paths[1..], if RunStatus(data) != "" then RunStatus(data) else "pending")
          else if IsFailed(RunStatus(data)) then
            var code := if FailureCode(data) != "" then FailureCode(data) else "RUN_FAILED";
            Run(Persist(f.sys, Current(f.sys).(status := code, errorCode := code, terminal := true)),
                Err(RunFailed(code)))
          else TakeResult(cfg, f.sys, data)
  }

  /** `_recover_pending_run`. */
  function Recover(cfg: Config, s: Sys): Run<()> {
    var rec := Current(s);
    if rec.terminal || !rec.HasRun() then Run(s, Ok(()))
    else PollPaths(cfg, s, SavedPaths(rec.runId, rec.pollUrl), "pending")
  }

  // ---- The guarded phases of a resume ----

  function EnsureGap(cfg: Config, s: Sys): Run<()> {
    if Current(s).HasGap() then Run(s, Ok(()))
    else
      var r := ResolveGap(cfg, s);
      match r.out
      case Ok(gapId) =>
        Run(Persist(r.sys, GapKnown(Current(r.sys), gapId, r.sys.mem.gapSource)), Ok(()))
      case Err(f) =>
        Run(Persist(r.sys, Current(r.sys).(
                      status := if f.NoClaimableGap? then "no_claimable_gap" else "gap_resolution_failed",
                      step := GapResolution, terminal := false,
                      errorCode := if f.NoClaimableGap? then "NO_CLAIMABLE_GAP" else "GAP_RESOLUTION_FAILED")),
            Err(f))
      case _ => Run(r.sys, r.out.Fail())
  }

  function EnsureClaim(cfg: Config, s: Sys): Run<()> {
    if Current(s).HasClaim() then Run(s, Ok(()))
    else
      var r := MakeClaim(cfg, s);
      if !r.out.Ok? then Run(r.sys, r.out.Fail())
      else Run(Persist(r.sys, Claimed(Current(r.sys), r.out.value)), Ok(()))
  }

  function EnsureRegistration(s: Sys): Run<()> {
    if Current(s).HasRegistration() then Run(s, Ok(()))
    else
      var r := Register(s);
      if !r.out.Ok? then Run(r.sys, r.out.Fail())
      else Run(Persist(r.sys, Registered(Current(r.sys), r.out.value)), Ok(()))
  }

  function EnsureContext(s: Sys): Run<()> {
    if Current(s).HasContext() then Run(s, Ok(()))
    else
      var r := Compile(s);
      if !r.out.Ok? then Run(r.sys, r.out.Fail())
      else Run(Persist(r.sys, Compiled(Current(r.sys), r.out.value)), Ok(()))
  }

  function EnsureReceipt(cfg: Config, s: Sys): Run<()> {
    if Current(s).IsSettled() then Run(s, Ok(()))
    else
      var r := RealizeGoverned(cfg, s);
      if !r.out.Ok? then Run(r.sys, r.out.Fail())
      else Run(Persist(r.sys, Receipted(Current(r.sys), r.out.value)), Ok(()))
  }

  // ---- The operations of the command line ----

  /** `load_last_state`. */
  function Load(cfg: Config, s: Sys): Run<()> {
    if s.disk.latest.None? then Run(s, Err(NoState))
    else
      var rec := s.disk.latest.value;
      var s1 := s.(mem := s.mem.(rec := Some(rec)));
      if !cfg.declarationReads then Run(s1, Err(BadDeclaration))
      else if rec.gapId == "" then Run(s1, Ok(()))
      else Run(s1.(mem := s1.mem.(resolvedGap := rec.gapId, gapSource := rec.gapSource, gapVerified := false)), Ok(()))
  }

  /** `inspect_repo` with its default of writing the record. */
  function Inspect(cfg: Config, s: Sys): Run<()> {
    if !cfg.declarationReads then Run(s, Err(BadDeclaration))
    else Run(Persist(s, Current(s).(status := "initialized", terminal := false)), Ok(()))
  }

  function Open(cfg: Config, s: Sys, useLast: bool): Run<()> {
    if !useLast then Inspect(cfg, s)
    else
      var r := Load(cfg, s);
      if r.out.Err? then Inspect(cfg, r.sys) else r
  }

  /** The phases that follow discovery and recovery. */
  function Advance(cfg: Config, s: Sys): Run<()> {
    var g := EnsureGap(cfg, s);
    if !g.out.Ok? then g
    else
      var c := EnsureClaim(cfg, g.sys);
      if !c.out.Ok? then c
      else
        var r := EnsureRegistration(c.sys);
        if !r.out.Ok? then r
        else
          var x := EnsureContext(r.sys);
          if !x.out.Ok? then x else EnsureReceipt(cfg, x.sys)
  }

  function DiscoverAndRecover(cfg: Config, s: Sys): Run<()> {
    var d := Discover(cfg, s);
    if d.out.Ok? then Recover(cfg, d.sys) else d
  }

  /** `resume_governed_repo_flow`; the result is the record it reports. */
  function Resume(cfg: Config, s: Sys, useLast: bool): Run<Record> {
    var o := Open(cfg, s, useLast);
    if !o.out.Ok? then Run(o.sys, o.out.Fail())
    else
      var d := DiscoverAndRecover(cfg, o.sys);
      if !d.out.Ok? then Run(d.sys, d.out.Fail())
      else
        var a := Advance(cfg, d.sys);
        if !a.out.Ok? then Run(a.sys, a.out.Fail()) else Run(a.sys, Ok(Current(a.sys)))
  }

  /** What `run_governed_repo_flow` returns: the gap that a dry run would use, or the finished record. */
  datatype Report = WouldUse(gapId: string) | Finished(record: Record)

  /** `run_governed_repo_flow`. */
  function RunFlow(cfg: Config, s: Sys, dryRun: bool): Run<Report> {
    if !cfg.declarationReads then Run(s, Err(BadDeclaration))
    else
      var d := Discover(cfg, s);
      if !d.out.Ok? then Run(d.sys, d.out.Fail())
      else if !dryRun then
        var r := Resume(cfg, d.sys, true);
        if r.out.Ok? then Run(r.sys, Ok(Finished(r.out.value))) else Run(r.sys, r.out.Fail())
      else if cfg.operatorGap != "" then Run(d.sys, Ok(WouldUse(cfg.operatorGap)))
      else
        var g := ResolveGap(cfg, d.sys);
        if g.out.Ok? then Run(g.sys, Ok(WouldUse(g.out.value))) else Run(g.sys, g.out.Fail())
  }

  /** `status_governed_repo_flow`. */
  function Status(cfg: Config, s: Sys): Run<Record> {
    var l := Load(cfg, s);
    if !l.out.Ok? then Run(l.sys, l.out.Fail())
    else
      var d := DiscoverAndRecover(cfg, l.sys);
      if d.out.Ok? then Run(d.sys, Ok(Current(d.sys))) else Run(d.sys, d.out.Fail())
  }

  /** `receipt_governed_repo_flow`. */
  function ShowReceipt(cfg: Config, s: Sys): Run<Record> {
    var l := Load(cfg, s);
    if !l.out.Ok? then Run(l.sys, l.out.Fail())
    else if Current(l.sys).receiptId == "" && Current(l.sys).proofId == "" then Run(l.sys, Err(NoReceipt))
    else Run(l.sys, Ok(Current(l.sys)))
  }

  /** One invocation of the tool: a new client, one command, the answers that it will get, and the number of events
      that its process lives to see. */
  datatype Session = Session(cfg: Config, command: Command, tape: seq<Reply>, life: nat)

  function Begin(cfg: Config, command: Command, s: Sys, tape: seq<Reply>): Sys {
    Log(s.(mem := FRESH_MEMORY, tape := tape), Started(cfg.operatorGap, command))
  }

  /** The process dies after the first so many events: what it did later never happened. */
  function DieAfter(s: Sys, events: nat): Sys {
    if events >= |s.trace| then s
    else
      var trace := s.trace[..events];
      Sys(Disk(LatestAfter(trace), RunsAfter(trace)), FRESH_MEMORY, [], trace, s.clock)
  }

  function Execute(cfg: Config, command: Command, s: Sys): Run<Report> {
    match command
    case RunCommand(dryRun) => RunFlow(cfg, s, dryRun)
    case ResumeCommand(useLast) => Reported(Resume(cfg, s, useLast))
    case StatusCommand => Reported(Status(cfg, s))
    case ReceiptCommand => Reported(ShowReceipt(cfg, s))
  }

  function Reported(r: Run<Record>): Run<Report> {
    if r.out.Ok? then Run(r.sys, Ok(Finished(r.out.value))) else Run(r.sys, r.out.Fail())
  }

  /** One invocation, up to the death of its process. */
  function RunOne(session: Session, s: Sys): Sys {
    DieAfter(Execute(session.cfg, session.command, Begin(session.cfg, session.command, s, session.tape)).sys,
             |s.trace| + session.life)
  }

  /** Any number of invocations, one after the other, each ending in whatever way. */
  function Sessions(sessions: seq<Session>, s: Sys): Sys {
    if sessions == [] then s
    else
      RunOne(sessions[|sessions| - 1], Sessions(sessions[..|sessions| - 1], s))
  }
}
