// What every run of the governed flow keeps: progress, causal order, fail-closed receipts, live gap ids.
module FlowSafety {
  import opened Json
  import opened Text
  import opened Options
  import opened GovernanceReceipts
  import opened GapSelection
  import opened ReplyFields
  import opened FlowState
  import opened FlowSpec

  /** The inductive invariant of a persisted record. A pending step implies that its field is still open. */
  predicate Inv(r: Record) {
    && (r.HasClaim() ==> r.HasGap())
    && (r.HasRegistration() ==> r.HasClaim())
    && (r.step.GapDiscovery? || r.step.GapResolution? || r.step.PreclaimContext? ==> !r.HasClaim())
    && (r.step.GapClaim? ==> r.HasGap() && !r.HasClaim())
    && (r.step.ContextCreate? ==> r.HasClaim() && !r.HasRegistration())
    && (r.step.ContextCompile? ==> r.HasRegistration() && !r.HasContext())
    && (r.step.GovernedRealize? ==> r.HasRegistration() && r.HasContext())
    && (r.liveConfirmed ==> && r.HasRegistration() && IsConfirmed(r.HeldReceipt())
                            && (r.step.GovernedRealize? || r.step.ReceiptReady?))
    && (r.receiptId != "" ==> r.liveConfirmed)
  }

  function ProgressOf(r: Option<Record>): nat {
    if r.Some? then Progress(r.value) else 0
  }

  /** A record that takes the place of another on the disk. */
  predicate Extends(before: Option<Record>, r: Record) {
    && Inv(r)
    && before.Some? && Progress(before.value) <= Progress(r)
    && r.runRecordId == before.value.runRecordId && r.createdAt == before.value.createdAt
  }

  predicate ConcernsClaim(r: Record) {
    r.step.GapClaim? || r.HasClaim()
  }

  /** A record that waits for a claim or holds one took the gap from a record that did so too. */
  predicate Carries(before: Option<Record>, r: Record) {
    ConcernsClaim(r) ==> before.Some? && ConcernsClaim(before.value) && r.gapId == before.value.gapId
  }

  predicate Follows(before: Option<Record>, r: Record) {
    Extends(before, r) && Carries(before, r)
  }

  /** A record without any progress. */
  predicate IsBlank(r: Record) {
    Inv(r) && !r.HasGap() && !ConcernsClaim(r) && !r.HasContext() && !r.liveConfirmed
  }

  /** When a request may leave, in terms of the record on the disk at that moment. */
  predicate MaySend(request: Request, before: Option<Record>) {
    match request
    case ReadCapabilities => true
    case ReadCanonicalDigest => true
    case Poll(_) => true
    case ListGaps(_) => true
    case CompilePreclaim => before.Some? && before.value.HasGap() && !before.value.HasClaim()
    case ClaimGap(_) => before.Some? && before.value.HasGap() && !before.value.HasClaim()
    case RegisterRepo(gap, claimId, claimRef) =>
      && before.Some? && before.value.HasClaim() && !before.value.HasRegistration()
      && gap == before.value.gapId && claimId == before.value.claimId && claimRef == before.value.claimRef
    case CompileContext(registrationId) =>
      && before.Some? && before.value.HasRegistration() && !before.value.HasContext()
      && registrationId == before.value.registrationId
    case Realize(contextId, candidate) =>
      && before.Some? && before.value.HasRegistration() && before.value.HasContext() && !before.value.IsSettled()
      && contextId == before.value.contextId && candidate == before.value.candidate
  }

  // ---- Traces ----

  /** The gap ids learned since the last session began. */
  function SessionGaps(trace: seq<Event>): set<string> {
    if trace == [] then {}
    else
      match trace[|trace| - 1]
      case Started(_, _) => {}
      case Resolved(gapId) => SessionGaps(trace[..|trace| - 1]) + {gapId}
      case _ => SessionGaps(trace[..|trace| - 1])
  }

  datatype Start = Start(operatorGap: string, command: Command, at: nat)

  /** How the current session began, and where in the trace. */
  function SessionStart(trace: seq<Event>): Start {
    if trace == [] then Start("", StatusCommand, 0)
    else
      match trace[|trace| - 1]
      case Started(operatorGap, command) => Start(operatorGap, command, |trace|)
      case _ => SessionStart(trace[..|trace| - 1])
  }

  /** The commands that do not go on with the saved record: a dry run, and a resume told to ignore it. */
  predicate MayStartOver(command: Command) {
    command == RunCommand(true) || command == ResumeCommand(false)
  }

  /** The last claim request: whether it was sent in the current session, the gap that it named, the gap on record at
      that moment, and the operator's gap of its session. */
  datatype Ask = Ask(now: bool, gapId: string, recordedGap: string, operatorGap: string)

  function Asking(trace: seq<Event>): Ask {
    if trace == [] then Ask(false, "", "", "")
    else
      var init := trace[..|trace| - 1];
      match trace[|trace| - 1]
      case Started(_, _) => Asking(init).(now := false)
      case Sent(request, before) =>
        if request.ClaimGap? then
          Ask(true, request.gapId, if before.Some? then before.value.gapId else "", SessionStart(init).operatorGap)
        else Asking(init)
      case _ => Asking(init)
  }

  /** Every record saved so far has an id below n. */
  predicate IdsBelow(trace: seq<Event>, n: nat) {
    trace != [] ==>
      var last := trace[|trace| - 1];
      (last.Saved? ==> last.record.runRecordId < n) && IdsBelow(trace[..|trace| - 1], n)
  }

  /** The current session has saved a record. */
  predicate SavedNow(trace: seq<Event>) {
    trace != [] &&
      var last := trace[|trace| - 1];
      !last.Started? && (last.Saved? || SavedNow(trace[..|trace| - 1]))
  }

  /** A record that begins a run: without progress and under a new id. Only two commands may put one in the place of
      another record, and only as the first record that they save. */
  predicate IsNew(trace: seq<Event>, before: Option<Record>, r: Record) {
    && IsBlank(r) && IdsBelow(trace, r.runRecordId)
    && (before.Some? ==> MayStartOver(SessionStart(trace).command) && !SavedNow(trace))
  }

  /** Where the claim of a record comes from: from the record before it, from the request of this session, or, for a
      claim that the record was waiting for, from an earlier session. */
  predicate Traced(trace: seq<Event>, before: Record, r: Record) {
    && (r.HasClaim() && before.HasClaim() ==> r.gapId == before.gapId)
    && (r.HasClaim() && !before.HasClaim() ==>
          if Asking(trace).now then r.gapId == Asking(trace).gapId
          else before.step.GapClaim? && r.gapId == before.gapId)
    && (!r.HasClaim() && r.step.GapClaim? ==>
          && r.gapId == before.gapId
          && (before.step.GapClaim? || (Asking(trace).now && r.gapId == Asking(trace).recordedGap)))
  }

  /** latest.json is not ahead of the run's own file. */
  predicate Calm(trace: seq<Event>) {
    trace == [] || !trace[|trace| - 1].Saved?
  }

  /** An event that may come next. After latest.json comes the run's file, unless the process dies. A claim names the
      operator's gap if there is one, otherwise the recorded gap, and in any case a gap learned in this session. */
  predicate MayHappen(trace: seq<Event>, e: Event) {
    && (Calm(trace) || e.Started? || e.Filed?)
    && match e
       case Saved(before, r) =>
         && before == LatestAfter(trace)
         && (IsNew(trace, before, r) || (Extends(before, r) && Traced(trace, before.value, r)))
       case Filed(r) => !Calm(trace) && r == trace[|trace| - 1].record
       case Got(_) => trace != [] && trace[|trace| - 1].Sent?
       case Sent(request, before) =>
         && before == LatestAfter(trace) && MaySend(request, before)
         && (request.ListGaps? ==>
               SessionStart(trace).command == RunCommand(true) || (before.Some? && !before.value.HasClaim()))
         && (request.ClaimGap? ==>
               && request.gapId in SessionGaps(trace)
               && request.gapId == if SessionStart(trace).operatorGap != "" then SessionStart(trace).operatorGap
                                   else before.value.gapId)
       case _ => true
  }

  predicate Lawful(trace: seq<Event>) {
    trace != [] ==>
      Lawful(trace[..|trace| - 1]) && MayHappen(trace[..|trace| - 1], trace[|trace| - 1])
  }

  // ---- States ----

  /** The disk is what the trace wrote, and the record is sound. */
  predicate Sound(s: Sys) {
    && Lawful(s.trace)
    && s.disk.latest == LatestAfter(s.trace)
    && s.disk.runs == RunsAfter(s.trace)
    && (s.disk.latest.Some? ==> Inv(s.disk.latest.value))
    && IdsBelow(s.trace, s.clock)
  }

  /** Moreover no save is half done. */
  predicate Good(s: Sys) {
    Sound(s) && Calm(s.trace)
  }

  /** A client at work: its memory is the record on the disk, and a gap id that it would use without asking
      again was learned in this session. */
  predicate Steady(cfg: Config, s: Sys) {
    && Good(s)
    && s.mem.rec.Some? && s.mem.rec == s.disk.latest
    && SessionStart(s.trace).operatorGap == cfg.operatorGap
    && (|| s.mem.resolvedGap == "" || s.mem.resolvedGap in SessionGaps(s.trace)
        || (!s.mem.gapVerified && Current(s).HasGap()))
  }

  /** Moreover, without an operator's choice, a verified gap id is the recorded one. */
  predicate Working(cfg: Config, s: Sys) {
    && Steady(cfg, s)
    && (cfg.operatorGap == "" && s.mem.gapVerified && Current(s).HasGap() ==> Current(s).gapId == s.mem.resolvedGap)
  }

  /** The record differs at most in its bookkeeping of runs. */
  predicate Keeps(r: Record, r': Record) {
    r' == r.(status := r'.status, errorCode := r'.errorCode, step := r'.step, terminal := r'.terminal,
             runId := r'.runId, pollUrl := r'.pollUrl, updatedAt := r'.updatedAt)
  }

  /** More happened, in the same session. */
  predicate Continues(s: Sys, s': Sys) {
    && s.trace <= s'.trace
    && SessionGaps(s.trace) <= SessionGaps(s'.trace)
    && SessionStart(s'.trace) == SessionStart(s.trace)
  }

  /** An event that leaves the disk alone. */
  lemma LogIsLawful(s: Sys, e: Event)
    requires Sound(s) && !e.Saved? && !e.Filed? && MayHappen(s.trace, e)
    ensures Good(Log(s, e)) && s.trace <= Log(s, e).trace
    ensures e.Resolved? ==> SessionGaps(Log(s, e).trace) == SessionGaps(s.trace) + {e.gapId}
    ensures e.Sent? || e.Got? ==> SessionGaps(Log(s, e).trace) == SessionGaps(s.trace)
    ensures SessionStart(Log(s, e).trace)
            == if e.Started? then Start(e.operatorGap, e.command, |s.trace| + 1) else SessionStart(s.trace)
    ensures !e.Started? && !(e.Sent? && e.request.ClaimGap?) ==> Asking(Log(s, e).trace) == Asking(s.trace)
    ensures e.Started? ==> !Asking(Log(s, e).trace).now
    ensures SavedNow(Log(s, e).trace) == (!e.Started? && SavedNow(s.trace))
    ensures e.Sent? && e.request.ClaimGap? && e.before.Some? ==>
              Asking(Log(s, e).trace)
              == Ask(true, e.request.gapId, e.before.value.gapId, SessionStart(s.trace).operatorGap)
  {
    var t := s.trace + [e];
    assert t[..|t| - 1] == s.trace;
    hide Inv, Extends, IsNew, Traced, SessionGaps, SessionStart, Asking;
    LogIsSeen(s.trace, e);
  }

  lemma LogIsSeen(trace: seq<Event>, e: Event)
    ensures var t := trace + [e];
      && (e.Resolved? ==> SessionGaps(t) == SessionGaps(trace) + {e.gapId})
      && (!e.Resolved? && !e.Started? ==> SessionGaps(t) == SessionGaps(trace))
      && SessionStart(t) == (if e.Started? then Start(e.operatorGap, e.command, |t|) else SessionStart(trace))
      && (!e.Started? && !(e.Sent? && e.request.ClaimGap?) ==> Asking(t) == Asking(trace))
      && (e.Started? ==> Asking(t) == Asking(trace).(now := false))
      && (e.Sent? && e.request.ClaimGap? && e.before.Some? ==>
            Asking(t) == Ask(true, e.request.gapId, e.before.value.gapId, SessionStart(trace).operatorGap))
  {
    assert (trace + [e])[..|trace|] == trace;
  }

  lemma {:induction false} IdsBelowMore(trace: seq<Event>, n: nat)
    requires IdsBelow(trace, n)
    ensures IdsBelow(trace, n + 1)
  {
    if trace != [] {
      IdsBelowMore(trace[..|trace| - 1], n);
    }
  }

  /** Writing both files. */
  lemma TwoWrites(trace: seq<Event>, before: Option<Record>, w: Record, n: nat)
    requires Lawful(trace) && Calm(trace) && MayHappen(trace, Saved(before, w)) && IdsBelow(trace, n)
    requires w.runRecordId <= n
    ensures var t := trace + [Saved(before, w), Filed(w)];
      && Lawful(t) && Calm(t) && IdsBelow(t, n + 1)
      && LatestAfter(t) == Some(w) && RunsAfter(t) == RunsAfter(trace)[w.runRecordId := w]
      && SessionGaps(t) == SessionGaps(trace) && SessionStart(t) == SessionStart(trace) && Asking(t) == Asking(trace)
  {
    var half := trace + [Saved(before, w)];
    var t := trace + [Saved(before, w), Filed(w)];
    assert t == half + [Filed(w)];
    assert half[..|half| - 1] == trace && t[..|t| - 1] == half;
    hide MaySend, Inv, Extends, IsNew, Traced, SessionGaps, SessionStart, Asking;
    LogIsSeen(trace, Saved(before, w));
    LogIsSeen(half, Filed(w));
    IdsBelowMore(trace, n);
  }

  lemma SaveIsLawful(s: Sys, r: Record)
    requires Good(s) && MayHappen(s.trace, Saved(s.disk.latest, r.(updatedAt := s.clock))) && Inv(r)
    requires r.runRecordId <= s.clock
    ensures var s' := Persist(s, r);
      && Good(s') && s.trace <= s'.trace
      && SessionGaps(s'.trace) == SessionGaps(s.trace) && SessionStart(s'.trace) == SessionStart(s.trace)
      && Asking(s'.trace) == Asking(s.trace)
  {
    hide Lawful, Calm, MayHappen, SessionGaps, SessionStart, Asking, LatestAfter, RunsAfter, IdsBelow;
    var w := r.(updatedAt := s.clock);
    assert Inv(w);
    TwoWrites(s.trace, s.disk.latest, w, s.clock);
  }

  /** The record on the disk has an id that was used. */
  lemma {:induction false} LatestIsBelow(trace: seq<Event>, n: nat)
    requires IdsBelow(trace, n) && LatestAfter(trace).Some?
    ensures LatestAfter(trace).value.runRecordId < n
  {
    if !trace[|trace| - 1].Saved? {
      LatestIsBelow(trace[..|trace| - 1], n);
    }
  }

  lemma TracedSave(s: Sys, r: Record)
    requires Good(s) && Extends(s.disk.latest, r) && Traced(s.trace, s.disk.latest.value, r)
    ensures MayHappen(s.trace, Saved(s.disk.latest, r.(updatedAt := s.clock)))
    ensures Inv(r) && r.runRecordId <= s.clock
  {
    hide Lawful, RunsAfter, Asking, SessionGaps, SessionStart;
    LatestIsBelow(s.trace, s.clock);
    var w := r.(updatedAt := s.clock);
    assert Extends(s.disk.latest, w) && Traced(s.trace, s.disk.latest.value, w);
  }

  /** No claim is new, or none was asked for in this session. */
  predicate NoNewClaim(s: Sys, r: Record) {
    r.HasClaim() ==> !Asking(s.trace).now || (s.disk.latest.Some? && s.disk.latest.value.HasClaim())
  }

  lemma CarriedIsTraced(trace: seq<Event>, before: Record, r: Record)
    requires Follows(Some(before), r)
    requires r.HasClaim() ==> !Asking(trace).now || before.HasClaim()
    ensures Traced(trace, before, r)
  {
    hide Asking;
  }

  lemma PersistIsLawful(s: Sys, r: Record)
    requires Good(s) && Follows(s.disk.latest, r) && NoNewClaim(s, r)
    ensures var s' := Persist(s, r);
      && Good(s') && s.trace <= s'.trace
      && SessionGaps(s'.trace) == SessionGaps(s.trace) && SessionStart(s'.trace) == SessionStart(s.trace)
      && Asking(s'.trace) == Asking(s.trace)
  {
    hide Good, Traced, Inv, SessionGaps, SessionStart, Asking, MayHappen;
    CarriedIsTraced(s.trace, s.disk.latest.value, r);
    TracedSave(s, r);
    SaveIsLawful(s, r);
  }

  lemma SavedIsSeen(trace: seq<Event>, before: Option<Record>, w: Record)
    ensures SavedNow(trace + [Saved(before, w), Filed(w)])
  {
    var t := trace + [Saved(before, w), Filed(w)];
    assert t[..|t| - 1] == trace + [Saved(before, w)];
  }

  lemma NewIsLawful(s: Sys, r: Record)
    requires Good(s) && IsBlank(r) && r.runRecordId == s.clock
    requires s.disk.latest.Some? ==> MayStartOver(SessionStart(s.trace).command) && !SavedNow(s.trace)
    ensures var s' := Persist(s, r);
      && Good(s') && s.trace <= s'.trace && SavedNow(s'.trace)
      && SessionGaps(s'.trace) == SessionGaps(s.trace) && SessionStart(s'.trace) == SessionStart(s.trace)
      && Asking(s'.trace) == Asking(s.trace)
  {
    hide Lawful, RunsAfter, SessionGaps, SessionStart, Asking, IdsBelow, Traced, LatestAfter;
    var w := r.(updatedAt := s.clock);
    assert IsBlank(w) && IsNew(s.trace, s.disk.latest, w);
    SavedIsSeen(s.trace, s.disk.latest, w);
    hide SavedNow;
    SaveIsLawful(s, r);
  }

  // ---- Requests and runs ----

  lemma FetchIsSafe(s: Sys, request: Request)
    requires Good(s) && MayHappen(s.trace, Sent(request, s.disk.latest))
    ensures var r := Fetch(s, request).sys;
            && Good(r) && Continues(s, r) && r.mem == s.mem && r.disk == s.disk && r.clock == s.clock
            && SavedNow(r.trace) == SavedNow(s.trace)
            && (!request.ClaimGap? ==> Asking(r.trace) == Asking(s.trace))
            && (request.ClaimGap? && s.disk.latest.Some? ==>
                  Asking(r.trace) == Ask(true, request.gapId, s.disk.latest.value.gapId,
                                         SessionStart(s.trace).operatorGap))
  {
    hide Good, SessionGaps, SessionStart, Asking, SavedNow;
    SentIsSafe(s, request);
    if s.tape != [] {
      var s1 := Log(s, Sent(request, s.disk.latest));
      GotIsSafe(s1, s.tape[0], s.tape[1..]);
      ContinuesOn(s, s1, Log(s1, Got(s.tape[0])).(tape := s.tape[1..]));
    }
  }

  lemma SentIsSafe(s: Sys, request: Request)
    requires Good(s) && MayHappen(s.trace, Sent(request, s.disk.latest))
    ensures var r := Log(s, Sent(request, s.disk.latest));
            && Good(r) && Continues(s, r) && r.trace != [] && r.trace[|r.trace| - 1].Sent?
            && SavedNow(r.trace) == SavedNow(s.trace)
            && (!request.ClaimGap? ==> Asking(r.trace) == Asking(s.trace))
            && (request.ClaimGap? && s.disk.latest.Some? ==>
                  Asking(r.trace) == Ask(true, request.gapId, s.disk.latest.value.gapId,
                                         SessionStart(s.trace).operatorGap))
  {
    LogIsLawful(s, Sent(request, s.disk.latest));
    hide Lawful, Inv, SessionGaps, SessionStart, Asking, SavedNow, LatestAfter, RunsAfter, IdsBelow, MayHappen;
  }

  lemma GotIsSafe(s: Sys, reply: Reply, rest: seq<Reply>)
    requires Good(s) && s.trace != [] && s.trace[|s.trace| - 1].Sent?
    ensures var r := Log(s, Got(reply)).(tape := rest);
            && Good(r) && Continues(s, r) && SavedNow(r.trace) == SavedNow(s.trace)
            && Asking(r.trace) == Asking(s.trace)
  {
    LogIsLawful(s, Got(reply));
    hide Lawful, Inv, SessionGaps, SessionStart, Asking, SavedNow, LatestAfter, RunsAfter, IdsBelow, MayHappen;
  }

  lemma PollIsSafe(s: Sys, path: string)
    requires Good(s)
    ensures var r := Fetch(s, Poll(path)).sys;
            && Good(r) && Continues(s, r) && r.mem == s.mem && r.disk == s.disk && r.clock == s.clock
            && Asking(r.trace) == Asking(s.trace)
  {
    FetchIsSafe(s, Poll(path));
  }

  lemma {:induction false} WaitRoundIsSafe(s: Sys, paths: seq<string>)
    requires Good(s)
    ensures var r := WaitRound(s, paths).sys;
            && Good(r) && Continues(s, r) && r.mem == s.mem && r.disk == s.disk
            && Asking(r.trace) == Asking(s.trace)
    decreases |paths|
  {
    hide Good, Continues, Fetch, AsAccepted, IsFinished, IsFailed, RunStatus, FailureCode, SessionGaps, SessionStart,
         Asking;
    NothingHappened(s);
    if paths != [] {
      PollIsSafe(s, paths[0]);
      var r := Call(s, Poll(paths[0]));
      if r.out.Ok? && !IsFinished(r.out.value) {
        WaitRoundIsSafe(r.sys, paths[1..]);
        ContinuesOn(s, r.sys, WaitRound(r.sys, paths[1..]).sys);
      }
    }
  }

  /** The answers still to come are nobody's business. */
  lemma TapeIsFree(s: Sys, s': Sys)
    requires Good(s) && s' == s.(tape := s'.tape)
    ensures Good(s') && Continues(s, s')
  {
    hide Lawful, Inv, SessionGaps, SessionStart, LatestAfter, RunsAfter, IdsBelow;
  }

  lemma {:induction false} WaitIsSafe(s: Sys, paths: seq<string>)
    requires Good(s) && paths != []
    ensures var r := Wait(s, paths).sys;
            && Good(r) && Continues(s, r) && r.mem == s.mem && r.disk == s.disk
            && Asking(r.trace) == Asking(s.trace)
    decreases |s.tape|
  {
    hide Good, Continues, SessionGaps, SessionStart, Asking;
    if s.tape != [] && s.tape[0].TimeUp? {
      TapeIsFree(s, s.(tape := s.tape[1..]));
    } else {
      WaitRoundIsSafe(s, paths);
      var r := WaitRound(s, paths);
      if r.out.Ok? && r.out.value.None? {
        WaitIsSafe(r.sys, paths);
        ContinuesOn(s, r.sys, Wait(r.sys, paths).sys);
      }
    }
  }

  /** Requests that leave memory and disk alone leave the client at work. */
  lemma StillWorking(cfg: Config, s: Sys, s': Sys)
    requires Working(cfg, s) && Good(s') && Continues(s, s') && s'.mem == s.mem && s'.disk == s.disk
    ensures Working(cfg, s')
  {
    hide Good, SessionGaps, SessionStart;
  }

  lemma NothingHappened(s: Sys)
    ensures Continues(s, s)
  {
  }

  lemma ContinuesOn(a: Sys, b: Sys, c: Sys)
    requires Continues(a, b) && Continues(b, c)
    ensures Continues(a, c)
  {
    hide SessionGaps, SessionStart;
  }

  /** What a client at work knows. */
  lemma WorkingReads(cfg: Config, s: Sys)
    requires Working(cfg, s)
    ensures Good(s) && s.mem.rec.Some? && s.disk.latest == Some(Current(s)) && Inv(Current(s))
    ensures SessionStart(s.trace).operatorGap == cfg.operatorGap
  {
    hide Lawful, LatestAfter, RunsAfter, IdsBelow, SessionGaps, SessionStart, Inv;
  }

  /** The record is at the point where this action's answer is still missing. */
  predicate Awaits(r: Record, action: Action) {
    match action
    case Discovering => !r.HasClaim()
    case PreclaimCompiling => r.HasGap() && !r.HasClaim()
    case Claiming => r.HasGap() && !r.HasClaim()
    case Registering => r.HasClaim() && !r.HasRegistration()
    case Compiling => r.HasRegistration() && !r.HasContext()
    case Realizing => r.HasRegistration() && r.HasContext()
  }

  lemma PendingFollows(r: Record, r': Record, action: Action)
    requires Inv(r) && Awaits(r, action) && Keeps(r, r') && r'.step == PendingPhase(action)
    ensures Extends(Some(r), r') && r'.gapId == r.gapId
    ensures !action.Claiming? ==> Carries(Some(r), r')
  {
  }

  /** A claim request was the last one, with the record as it still is. */
  predicate ClaimIsOut(s: Sys, action: Action) {
    action.Claiming? ==> Asking(s.trace).now && Asking(s.trace).recordedGap == Current(s).gapId
  }

  lemma PromiseIsTraced(trace: seq<Event>, r: Record, r': Record, action: Action)
    requires Inv(r) && Awaits(r, action) && Keeps(r, r') && r'.step == PendingPhase(action)
    requires action.Claiming? ==> Asking(trace).now && Asking(trace).recordedGap == r.gapId
    ensures Extends(Some(r), r') && Traced(trace, r, r')
  {
    hide Asking;
    PendingFollows(r, r', action);
  }

  /** Saving the promise of an answer. */
  lemma PromiseIsSafe(cfg: Config, s: Sys, r: Record, action: Action)
    requires Working(cfg, s) && Awaits(Current(s), action) && ClaimIsOut(s, action)
    requires Keeps(Current(s), r) && r.step == PendingPhase(action)
    ensures var s' := Persist(s, r);
            && Working(cfg, s') && Continues(s, s') && Keeps(Current(s), Current(s'))
            && s'.mem == s.mem.(rec := s'.mem.rec) && s'.mem.rec.Some? && Asking(s'.trace) == Asking(s.trace)
  {
    hide Lawful, Extends, Traced, SessionGaps, SessionStart, Asking, LatestAfter, RunsAfter, IdsBelow, MayHappen, Calm;
    assert Inv(Current(s));
    PromiseIsTraced(s.trace, Current(s), r, action);
    hide Inv, Good;
    TracedSave(s, r);
    SaveIsLawful(s, r);
  }

  lemma SettleIsSafe(cfg: Config, s: Sys, data: Json, action: Action)
    requires Working(cfg, s) && Awaits(Current(s), action) && ClaimIsOut(s, action)
    ensures var r := Settle(s, data, action).sys;
            && Working(cfg, r) && Continues(s, r) && Keeps(Current(s), Current(r))
            && r.mem == s.mem.(rec := r.mem.rec)
            && Asking(r.trace) == Asking(s.trace)
  {
    hide Working, Awaits, ClaimIsOut, SessionGaps, SessionStart, Asking, RunStatus, RunIdOf, PollUrlOf, IsActive,
         Persist, Good;
    if IsActive(RunStatus(data)) {
      var rec := Current(s).(step := PendingPhase(action), status := RunStatus(data), terminal := false,
                             runId := RunIdOf(data), pollUrl := PollUrlOf(data));
      PromiseIsSafe(cfg, s, rec, action);
      var s1 := Persist(s, rec);
      if RunIdOf(data) != "" || PollUrlOf(data) != "" {
        var paths := WaitPaths(RunIdOf(data), PollUrlOf(data));
        WorkingIsGood(cfg, s1);
        WaitIsSafe(s1, paths);
        StillWorking(cfg, s1, Wait(s1, paths).sys);
      }
    }
  }

  lemma KeepsItself(s: Sys, s': Sys)
    requires s'.mem == s.mem && s.mem.rec.Some?
    ensures Current(s') == Current(s) && Keeps(Current(s), Current(s'))
  {
  }

  lemma CallAndSettleIsSafe(cfg: Config, s: Sys, request: Request, action: Action)
    requires Working(cfg, s) && Awaits(Current(s), action) && MayHappen(s.trace, Sent(request, s.disk.latest))
    requires action.Claiming? ==> request.ClaimGap?
    ensures var r := CallAndSettle(s, request, action).sys;
            && Working(cfg, r) && Continues(s, r) && Keeps(Current(s), Current(r))
            && r.mem == s.mem.(rec := r.mem.rec)
            && Asking(r.trace) == if request.ClaimGap?
                                  then Ask(true, request.gapId, Current(s).gapId, cfg.operatorGap)
                                  else Asking(s.trace)
  {
    hide Working, Fetch, AsAccepted, Continues, SessionGaps, SessionStart, Asking, Settle, MayHappen, Good, Inv, Awaits,
         Keeps;
    WorkingReads(cfg, s);
    FetchIsSafe(s, request);
    var f := Fetch(s, request).sys;
    StillWorking(cfg, s, f);
    KeepsItself(s, f);
    var r := Call(s, request);
    if r.out.Ok? {
      SettleIsSafe(cfg, r.sys, r.out.value, action);
      ContinuesOn(s, f, Settle(r.sys, r.out.value, action).sys);
    }
  }

  // ---- The gap ----

  lemma SelectedGapIsNamed(cfg: Config, data: Json)
    ensures Select(cfg, data).Ok? && Select(cfg, data).value != "" ==> StartsWith(Select(cfg, data).value, "gap_")
  {
    ChosenIdIsCanonical(GapQuery(cfg), data);
    hide SelectGap, StartsWith;
  }

  lemma QueryGapsIsSafe(cfg: Config, s: Sys, forStory: bool)
    requires Working(cfg, s) && !Current(s).HasClaim()
    ensures var r := QueryGaps(cfg, s, forStory).sys;
            && Working(cfg, r) && Continues(s, r) && Keeps(Current(s), Current(r))
            && r.mem == s.mem.(rec := r.mem.rec)
  {
    CallAndSettleIsSafe(cfg, s, ListGaps(forStory), Discovering);
    hide Working, CallAndSettle, Select, SessionGaps, SessionStart, Asking;
  }

  lemma DiscoverGapIsSafe(cfg: Config, s: Sys)
    requires Working(cfg, s) && !Current(s).HasClaim()
    ensures var r := DiscoverGap(cfg, s).sys;
            && Working(cfg, r) && Continues(s, r) && Keeps(Current(s), Current(r))
            && r.mem == s.mem.(rec := r.mem.rec)
  {
    hide Working, QueryGaps, SessionGaps, SessionStart;
    if s.mem.capabilities.canDiscoverGaps {
      QueryGapsIsSafe(cfg, s, true);
      var first := QueryGaps(cfg, s, true);
      if cfg.storyId != "" && (first.out.Err? || first.out == Ok("")) {
        QueryGapsIsSafe(cfg, first.sys, false);
      }
    }
  }

  lemma LearnIsSafe(cfg: Config, s: Sys, gapId: string, source: string)
    requires Steady(cfg, s)
    ensures var r := Learn(s, gapId, source);
            && Steady(cfg, r) && Continues(s, r) && gapId in SessionGaps(r.trace)
            && Asking(r.trace) == Asking(s.trace)
  {
    LogIsLawful(s.(mem := s.mem.(resolvedGap := gapId, gapSource := source)), Resolved(gapId));
    hide Lawful, Inv, SessionGaps, SessionStart, Asking, LatestAfter, RunsAfter, IdsBelow;
  }

  /** The gap that a lookup starts from may be used. */
  predicate CacheIsLive(cfg: Config, s: Sys) {
    cfg.operatorGap != "" || s.mem.resolvedGap == "" || s.mem.resolvedGap in SessionGaps(s.trace)
  }

  /** What a lookup of the gap leaves behind. */
  predicate GapLookedUp(cfg: Config, s: Sys, r: Run<string>) {
    && Steady(cfg, r.sys) && Continues(s, r.sys) && Keeps(Current(s), Current(r.sys))
    && (r.out.Ok? ==> && r.out.value != "" && r.out.value in SessionGaps(r.sys.trace)
                      && r.sys.mem.resolvedGap == r.out.value
                      && (cfg.operatorGap != "" ==> r.out.value == cfg.operatorGap))
    && (!r.out.Ok? ==> Working(cfg, r.sys) && r.sys.mem.gapVerified == s.mem.gapVerified)
    && (cfg.operatorGap == "" && s.mem.resolvedGap != "" ==>
          r.out == Ok(s.mem.resolvedGap) && r.sys.trace == s.trace && r.sys.mem.rec == s.mem.rec)
  }

  lemma LookUpGapIsSafe(cfg: Config, s: Sys)
    requires Working(cfg, s) && !Current(s).HasClaim() && cfg.operatorGap == "" && CacheIsLive(cfg, s)
    ensures GapLookedUp(cfg, s, LookUpGap(cfg, s))
  {
    hide Good, SessionGaps, SessionStart, DiscoverGap;
    if s.mem.resolvedGap != "" {
    } else if cfg.envGap != "" {
      LearnIsSafe(cfg, s, cfg.envGap, FROM_ENVIRONMENT);
    } else if s.mem.capabilities.gapId != "" {
      LearnIsSafe(cfg, s, s.mem.capabilities.gapId, FROM_CAPABILITIES);
    } else {
      DiscoverGapIsSafe(cfg, s);
      var r := DiscoverGap(cfg, s);
      if r.out.Ok? && r.out.value != "" {
        LearnIsSafe(cfg, r.sys, r.out.value, GAPS_LIST);
      }
    }
  }

  lemma ResolveGapIsSafe(cfg: Config, s: Sys)
    requires Working(cfg, s) && !Current(s).HasClaim() && CacheIsLive(cfg, s)
    ensures GapLookedUp(cfg, s, ResolveGap(cfg, s))
    ensures cfg.operatorGap != "" ==> Working(cfg, ResolveGap(cfg, s).sys)
  {
    hide Lawful, Inv, LatestAfter, SessionGaps, SessionStart, LookUpGap;
    if cfg.operatorGap != "" {
      LearnIsSafe(cfg, s, cfg.operatorGap, FROM_OPERATOR);
    } else {
      LookUpGapIsSafe(cfg, s);
    }
  }

  /** Persisting a record that follows the present one keeps the client steady. */
  lemma PersistIsSafe(cfg: Config, s: Sys, r: Record)
    requires Steady(cfg, s) && Follows(s.disk.latest, r) && NoNewClaim(s, r)
    requires Current(s).HasGap() ==> r.HasGap()
    ensures var s' := Persist(s, r);
            Steady(cfg, s') && Continues(s, s') && s'.mem == s.mem.(rec := Some(r.(updatedAt := s.clock)))
  {
    PersistIsLawful(s, r);
    hide Lawful, Follows, SessionGaps, SessionStart, LatestAfter, RunsAfter, IdsBelow, Good;
  }

  /** The same for a claim that was just made. */
  lemma PersistClaimIsSafe(cfg: Config, s: Sys, r: Record)
    requires Steady(cfg, s) && Extends(s.disk.latest, r) && !Current(s).HasClaim() && r.HasClaim()
    requires Asking(s.trace).now && Asking(s.trace).gapId == r.gapId
    requires Current(s).HasGap() ==> r.HasGap()
    ensures var s' := Persist(s, r);
            Steady(cfg, s') && Continues(s, s') && s'.mem == s.mem.(rec := Some(r.(updatedAt := s.clock)))
  {
    hide Lawful, Extends, SessionGaps, SessionStart, Asking, LatestAfter, RunsAfter, IdsBelow, Good, MayHappen, Calm;
    TracedSave(s, r);
    SaveIsLawful(s, r);
  }

  lemma GapKnownFollows(r: Record, gapId: string, source: string)
    requires Inv(r) && !r.HasClaim() && gapId != ""
    ensures Follows(Some(r), GapKnown(r, gapId, source))
  {
  }

  /** Noting that no gap could be found. */
  lemma GapMissingFollows(r: Record, r': Record)
    requires Inv(r) && !r.HasClaim() && Keeps(r, r') && (r'.step.GapResolution? || r'.step.GapResolved?)
    ensures Follows(Some(r), r')
  {
  }

  /** Saving the gap that was found, or that none was. */
  lemma GapIsSaved(cfg: Config, s: Sys, r: Record)
    requires Steady(cfg, s) && !Current(s).HasClaim() && (Current(s).HasGap() ==> r.HasGap())
    requires Follows(Some(Current(s)), r) && !r.HasClaim()
    ensures var s' := Persist(s, r);
      && Good(s') && Continues(s, s') && Current(s') == r.(updatedAt := s.clock)
      && ((cfg.operatorGap == "" && s.mem.gapVerified ==> r.gapId == s.mem.resolvedGap) ==> Working(cfg, s'))
  {
    hide Lawful, LatestAfter, RunsAfter, IdsBelow, SessionGaps, SessionStart, Inv, Follows, Continues, Asking;
    assert s.disk.latest == Some(Current(s));
    PersistIsSafe(cfg, s, r);
  }

  lemma MissingGapIsLive(cfg: Config, s: Sys)
    requires Working(cfg, s) && !Current(s).HasGap()
    ensures !Current(s).HasClaim() && CacheIsLive(cfg, s)
  {
    hide Lawful, LatestAfter, RunsAfter, IdsBelow, SessionGaps, SessionStart;
  }

  lemma SteadyReads(cfg: Config, s: Sys)
    requires Steady(cfg, s)
    ensures Inv(Current(s)) && Good(s) && s.disk.latest == Some(Current(s))
  {
    hide Lawful, LatestAfter, RunsAfter, IdsBelow, SessionGaps, SessionStart, Inv;
  }

  lemma KeepsIds(r: Record, r': Record)
    requires Keeps(r, r')
    ensures r'.gapId == r.gapId && r'.claimId == r.claimId && r'.claimRef == r.claimRef
  {
  }

  lemma EnsureGapIsSafe(cfg: Config, s: Sys)
    requires Working(cfg, s)
    ensures var r := EnsureGap(cfg, s);
            && Good(r.sys) && Continues(s, r.sys)
            && (r.out.Ok? ==> Working(cfg, r.sys) && Current(r.sys).HasGap())
  {
    hide Working, Steady, Good, Continues, ResolveGap, Follows, Inv, Keeps, Persist, GapKnown, SessionGaps, Current;
    WorkingReads(cfg, s);
    NothingHappened(s);
    if !Current(s).HasGap() {
      MissingGapIsLive(cfg, s);
      ResolveGapIsSafe(cfg, s);
      var r := ResolveGap(cfg, s);
      SteadyReads(cfg, r.sys);
      KeepsIds(Current(s), Current(r.sys));
      match r.out
      case Ok(gapId) =>
        FoundGapIsSafe(cfg, r.sys, gapId);
        ContinuesOn(s, r.sys, Persist(r.sys, GapKnown(Current(r.sys), gapId, r.sys.mem.gapSource)));
      case Err(f) =>
        MissingGapIsSafe(cfg, r.sys, f);
        ContinuesOn(s, r.sys, Persist(r.sys, NoGap(Current(r.sys), f)));
      case _ =>
    }
  }

  lemma FoundGapIsSafe(cfg: Config, s: Sys, gapId: string)
    requires Steady(cfg, s) && !Current(s).HasClaim() && gapId != "" && s.mem.resolvedGap == gapId
    ensures var s' := Persist(s, GapKnown(Current(s), gapId, s.mem.gapSource));
      && Good(s') && Continues(s, s') && Working(cfg, s')
      && Current(s').gapId == gapId && Current(s').claimId == Current(s).claimId
      && Current(s').claimRef == Current(s).claimRef
  {
    SteadyReads(cfg, s);
    hide Steady, Working, Good, Continues, Follows, Inv, Persist;
    GapKnownFollows(Current(s), gapId, s.mem.gapSource);
    GapIsSaved(cfg, s, GapKnown(Current(s), gapId, s.mem.gapSource));
  }

  /** The record that notes why there is no gap. */
  function NoGap(r: Record, f: Failure): Record {
    r.(status := if f.NoClaimableGap? then "no_claimable_gap" else "gap_resolution_failed",
       step := GapResolution, terminal := false,
       errorCode := if f.NoClaimableGap? then "NO_CLAIMABLE_GAP" else "GAP_RESOLUTION_FAILED")
  }

  lemma MissingGapIsSafe(cfg: Config, s: Sys, f: Failure)
    requires Steady(cfg, s) && !Current(s).HasClaim()
    ensures var s' := Persist(s, NoGap(Current(s), f)); Good(s') && Continues(s, s')
  {
    SteadyReads(cfg, s);
    hide Steady, Working, Good, Continues, Follows, Inv, Persist;
    GapMissingFollows(Current(s), NoGap(Current(s), f));
    GapIsSaved(cfg, s, NoGap(Current(s), f));
  }

  // ---- Every phase's record follows the one before ----

  lemma ClaimedFollows(r: Record, c: Claim)
    requires Inv(r) && r.HasGap() && !r.HasClaim()
    requires c.gapId != "" && (c.claimId != "" || c.claimRef != "")
    ensures Extends(Some(r), Claimed(r, c)) && Claimed(r, c).HasClaim() && Claimed(r, c).gapId == c.gapId
  {
  }

  lemma RegisteredFollows(r: Record, x: Registration)
    requires Inv(r) && r.HasClaim() && !r.HasRegistration() && x.registrationId != ""
    ensures Follows(Some(r), Registered(r, x)) && Registered(r, x).HasRegistration()
  {
  }

  lemma CompiledFollows(r: Record, contextId: string)
    requires Inv(r) && r.HasRegistration() && !r.HasContext() && contextId != ""
    ensures Follows(Some(r), Compiled(r, contextId)) && Compiled(r, contextId).HasContext()
  {
  }

  lemma ReceiptedFollows(r: Record, receipt: Receipt)
    requires Inv(r) && r.HasRegistration() && r.HasContext() && IsConfirmed(receipt)
    ensures Follows(Some(r), Receipted(r, receipt)) && Progress(Receipted(r, receipt)) == 5
  {
  }

  // ---- The claim ----

  /** Looking the gap up again starts from no gap in memory. */
  lemma ForgottenGapIsLive(cfg: Config, s: Sys)
    requires Working(cfg, s) && !s.mem.gapVerified
    ensures var s0 := s.(mem := s.mem.(resolvedGap := ""));
      Working(cfg, s0) && CacheIsLive(cfg, s0) && Current(s0) == Current(s)
  {
    hide Lawful, Inv, LatestAfter, RunsAfter, IdsBelow, SessionGaps, SessionStart;
  }

  /** A gap that is not looked up again. */
  lemma VerifiedGapIsLive(cfg: Config, s: Sys)
    requires Working(cfg, s) && Current(s).HasGap() && (s.mem.gapVerified || cfg.operatorGap != "")
    ensures CacheIsLive(cfg, s) && (cfg.operatorGap == "" ==> s.mem.resolvedGap == Current(s).gapId)
  {
    hide Lawful, Inv, LatestAfter, RunsAfter, IdsBelow, SessionGaps, SessionStart;
  }

  /** A gap that was looked up again and is the one on record. */
  lemma SameGapIsSafe(cfg: Config, s: Sys)
    requires Steady(cfg, s) && s.mem.resolvedGap == Current(s).gapId
    ensures Working(cfg, s)
  {
  }

  lemma LiveGap(cfg: Config, s: Sys, gapId: string)
    requires Working(cfg, s) && gapId in SessionGaps(s.trace) && s.mem.resolvedGap == gapId
    ensures CacheIsLive(cfg, s)
  {
  }

  lemma RefreshGapIsSafe(cfg: Config, s: Sys)
    requires Working(cfg, s) && Current(s).HasGap() && !Current(s).HasClaim()
    ensures var r := RefreshGap(cfg, s);
            && Good(r.sys) && Continues(s, r.sys)
            && (r.out.Ok? ==>
                  && Working(cfg, r.sys) && CacheIsLive(cfg, r.sys)
                  && Current(r.sys).HasGap() && !Current(r.sys).HasClaim()
                  && (cfg.operatorGap == "" ==> r.sys.mem.resolvedGap == Current(r.sys).gapId))
  {
    hide Working, Steady, Good, Continues, ResolveGap, Follows, Inv, Keeps, Persist, GapKnown, SessionGaps, Current,
         CacheIsLive;
    WorkingReads(cfg, s);
    NothingHappened(s);
    if s.mem.gapVerified || cfg.operatorGap != "" {
      VerifiedGapIsLive(cfg, s);
    } else {
      ForgottenGapIsLive(cfg, s);
      var s0 := s.(mem := s.mem.(resolvedGap := ""));
      ResolveGapIsSafe(cfg, s0);
      RefreshedGapIsSafe(cfg, s0, s);
    }
  }

  /** From the gap that was looked up again to the claim. */
  lemma RefreshedGapIsSafe(cfg: Config, s0: Sys, s: Sys)
    requires s0 == s.(mem := s.mem.(resolvedGap := "")) && GapLookedUp(cfg, s0, ResolveGap(cfg, s0))
    requires Current(s).HasGap() && !Current(s).HasClaim() && !s.mem.gapVerified && cfg.operatorGap == ""
    ensures var r := RefreshGap(cfg, s);
            && Good(r.sys) && Continues(s, r.sys)
            && (r.out.Ok? ==>
                  && Working(cfg, r.sys) && CacheIsLive(cfg, r.sys)
                  && Current(r.sys).HasGap() && !Current(r.sys).HasClaim()
                  && r.sys.mem.resolvedGap == Current(r.sys).gapId)
  {
    hide Working, Steady, Good, Continues, ResolveGap, Follows, Inv, Keeps, Persist, GapKnown, SessionGaps,
         SessionStart, CacheIsLive;
    var r := ResolveGap(cfg, s0);
    var rec := Current(r.sys);
    SteadyReads(cfg, r.sys);
    KeepsIds(Current(s0), rec);
    SameStart(s, s0, r.sys);
    match r.out
    case Ok(live) =>
      if live != Current(s).gapId {
        FoundGapIsSafe(cfg, r.sys, live);
        var s' := Persist(r.sys, GapKnown(rec, live, r.sys.mem.gapSource));
        ContinuesOn(s, r.sys, s');
        SavedMemory(r.sys, GapKnown(rec, live, r.sys.mem.gapSource));
        GapsGrow(r.sys, s', live);
        LiveGap(cfg, s', live);
      } else {
        SameGapIsSafe(cfg, r.sys);
        LiveGap(cfg, r.sys, live);
      }
    case Err(f) =>
      var s1 := r.sys.(mem := r.sys.mem.(resolvedGap := Current(s).gapId));
      LostGapIsSafe(cfg, r.sys, s1);
      ContinuesOn(s, r.sys, RefreshGap(cfg, s).sys);
    case _ =>
  }

  /** What a session did since does not depend on its memory. */
  lemma SameStart(a: Sys, b: Sys, c: Sys)
    requires a.trace == b.trace && Continues(b, c)
    ensures Continues(a, c)
  {
  }

  lemma GapsGrow(s: Sys, s': Sys, gapId: string)
    requires Continues(s, s') && gapId in SessionGaps(s.trace)
    ensures gapId in SessionGaps(s'.trace)
  {
  }

  lemma SavedMemory(s: Sys, r: Record)
    ensures Persist(s, r).mem == s.mem.(rec := Some(r.(updatedAt := s.clock)))
  {
  }

  /** Noting that the recorded gap can no longer be claimed. */
  lemma LostGapIsSafe(cfg: Config, s: Sys, s1: Sys)
    requires Steady(cfg, s) && !s.mem.gapVerified && Current(s).HasGap() && !Current(s).HasClaim()
    requires s1 == s.(mem := s.mem.(resolvedGap := Current(s).gapId))
    ensures var s' := Persist(s1, Current(s1).(status := "no_claimable_gap", step := GapResolved, terminal := false,
                                                errorCode := "NO_CLAIMABLE_GAP"));
      Good(s') && Continues(s, s')
  {
    var r' := Current(s).(status := "no_claimable_gap", step := GapResolved, terminal := false,
                          errorCode := "NO_CLAIMABLE_GAP");
    SteadyReads(cfg, s);
    assert Steady(cfg, s1) by {
      hide Lawful, LatestAfter, RunsAfter, IdsBelow, SessionGaps, SessionStart, Inv;
    }
    hide Steady, Good, Follows, Inv, Persist, SessionGaps, SessionStart;
    GapMissingFollows(Current(s), r');
    GapIsSaved(cfg, s1, r');
  }

  lemma MayReadDigest(s: Sys)
    requires Good(s)
    ensures MayHappen(s.trace, Sent(ReadCanonicalDigest, s.disk.latest))
  {
    hide Lawful, Inv, LatestAfter, RunsAfter, IdsBelow, SessionGaps, SessionStart, Asking;
  }

  lemma CanonicalDigestIsSafe(cfg: Config, s: Sys)
    requires Working(cfg, s)
    ensures var r := CanonicalDigest(s).sys;
            Working(cfg, r) && Continues(s, r) && r.mem == s.mem && r.disk == s.disk
  {
    hide Working, Good, Continues, MayHappen, SessionGaps, SessionStart, Asking, SavedNow, Fetch, AsAccepted,
         CanonicalDigestOf;
    WorkingIsGood(cfg, s);
    MayReadDigest(s);
    FetchIsSafe(s, ReadCanonicalDigest);
    StillWorking(cfg, s, Fetch(s, ReadCanonicalDigest).sys);
  }

  lemma PreclaimCallIsSafe(cfg: Config, s: Sys)
    requires Working(cfg, s) && Current(s).HasGap() && !Current(s).HasClaim()
    ensures var r := CallAndSettle(s, CompilePreclaim, PreclaimCompiling).sys;
            && Working(cfg, r) && Continues(s, r) && Keeps(Current(s), Current(r))
            && r.mem == s.mem.(rec := r.mem.rec)
  {
    CallAndSettleIsSafe(cfg, s, CompilePreclaim, PreclaimCompiling);
  }

  lemma ClaimDigestIsSafe(cfg: Config, s: Sys)
    requires Working(cfg, s) && Current(s).HasGap() && !Current(s).HasClaim()
    ensures var r := ClaimDigest(s).sys;
            && Working(cfg, r) && Continues(s, r) && Keeps(Current(s), Current(r))
            && r.mem == s.mem.(rec := r.mem.rec)
  {
    hide Working, Keeps, Continues, CanonicalDigest, CallAndSettle, ContextIdOf;
    WorkingReads(cfg, s);
    CanonicalDigestIsSafe(cfg, s);
    var d := CanonicalDigest(s).sys;
    KeepsItself(s, d);
    PreclaimCallIsSafe(cfg, d);
    ContinuesOn(s, d, CallAndSettle(d, CompilePreclaim, PreclaimCompiling).sys);
  }

  lemma ClaimCallIsSafe(cfg: Config, s: Sys, gapId: string)
    requires Working(cfg, s) && Current(s).HasGap() && !Current(s).HasClaim()
    requires gapId in SessionGaps(s.trace)
    requires gapId == if cfg.operatorGap != "" then cfg.operatorGap else Current(s).gapId
    ensures var r := CallAndSettle(s, ClaimGap(gapId), Claiming).sys;
            && Working(cfg, r) && Continues(s, r) && Keeps(Current(s), Current(r))
            && r.mem == s.mem.(rec := r.mem.rec)
            && Asking(r.trace).now && Asking(r.trace).gapId == gapId
  {
    assert MayHappen(s.trace, Sent(ClaimGap(gapId), s.disk.latest)) by {
      hide Lawful, Inv, SessionGaps, SessionStart, LatestAfter;
    }
    CallAndSettleIsSafe(cfg, s, ClaimGap(gapId), Claiming);
  }

  lemma SendClaimIsSafe(cfg: Config, s: Sys, gapId: string, digest: string)
    requires Working(cfg, s) && Current(s).HasGap() && !Current(s).HasClaim()
    requires gapId in SessionGaps(s.trace)
    requires gapId == if cfg.operatorGap != "" then cfg.operatorGap else Current(s).gapId
    ensures var r := SendClaim(s, gapId, digest);
            && Working(cfg, r.sys) && Continues(s, r.sys) && Keeps(Current(s), Current(r.sys))
            && r.sys.mem == s.mem.(rec := r.sys.mem.rec)
            && Asking(r.sys.trace).now && Asking(r.sys.trace).gapId == gapId
            && (r.out.Ok? ==> (r.out.value.claimId != "" || r.out.value.claimRef != "") && r.out.value.gapId == gapId)
  {
    hide Working, Keeps, SessionGaps, SessionStart, Asking, CallAndSettle, ClaimIdOf, ClaimRefOf;
    ClaimCallIsSafe(cfg, s, gapId);
  }

  lemma ResolveAgainIsSafe(cfg: Config, s: Sys)
    requires Working(cfg, s) && Current(s).HasGap() && !Current(s).HasClaim() && CacheIsLive(cfg, s)
    requires cfg.operatorGap == "" ==> s.mem.resolvedGap == Current(s).gapId
    ensures var r := ResolveGap(cfg, s);
            && Good(r.sys) && Continues(s, r.sys)
            && (r.out.Ok? ==>
                  && Working(cfg, r.sys) && Current(r.sys).HasGap() && !Current(r.sys).HasClaim()
                  && r.out.value != "" && r.out.value in SessionGaps(r.sys.trace)
                  && r.out.value == (if cfg.operatorGap != "" then cfg.operatorGap else Current(r.sys).gapId)
                  && r.sys.mem.resolvedGap == r.out.value)
  {
    ResolveGapIsSafe(cfg, s);
    hide Good, SessionGaps, SessionStart, ResolveGap;
  }

  lemma WorkingIsGood(cfg: Config, s: Sys)
    ensures Working(cfg, s) ==> Good(s)
  {
  }

  lemma MakeClaimIsSafe(cfg: Config, s: Sys)
    requires Working(cfg, s) && Current(s).HasGap() && !Current(s).HasClaim()
    ensures var r := MakeClaim(cfg, s);
            && Good(r.sys) && Continues(s, r.sys)
            && (r.out.Ok? ==>
                  && Working(cfg, r.sys) && Current(r.sys).HasGap() && !Current(r.sys).HasClaim()
                  && (r.out.value.claimId != "" || r.out.value.claimRef != "") && r.out.value.gapId != ""
                  && r.sys.mem.resolvedGap == r.out.value.gapId
                  && Asking(r.sys.trace).now && Asking(r.sys.trace).gapId == r.out.value.gapId)
  {
    hide Working, Good, SessionGaps, SessionStart, Asking, RefreshGap, ClaimDigest, ResolveGap, SendClaim;
    RefreshGapIsSafe(cfg, s);
    var f := RefreshGap(cfg, s);
    WorkingIsGood(cfg, f.sys);
    if f.out.Ok? && f.sys.mem.capabilities.canClaim {
      ClaimDigestIsSafe(cfg, f.sys);
      var d := ClaimDigest(f.sys);
      WorkingIsGood(cfg, d.sys);
      if d.out.Ok? {
        ResolveAgainIsSafe(cfg, d.sys);
        var g := ResolveGap(cfg, d.sys);
        if g.out.Ok? {
          SendClaimIsSafe(cfg, g.sys, g.out.value, d.out.value);
          WorkingIsGood(cfg, SendClaim(g.sys, g.out.value, d.out.value).sys);
        }
      }
    }
  }

  lemma EnsureClaimIsSafe(cfg: Config, s: Sys)
    requires Working(cfg, s) && Current(s).HasGap()
    ensures var r := EnsureClaim(cfg, s);
            && Good(r.sys) && Continues(s, r.sys)
            && (r.out.Ok? ==> Working(cfg, r.sys) && Current(r.sys).HasClaim())
  {
    hide Working, Good, MakeClaim, Inv, Continues, Claimed, Persist, Asking, SessionGaps;
    WorkingIsGood(cfg, s);
    NothingHappened(s);
    if !Current(s).HasClaim() {
      MakeClaimIsSafe(cfg, s);
      var r := MakeClaim(cfg, s);
      if r.out.Ok? {
        ClaimedIsSafe(cfg, r.sys, r.out.value);
        ContinuesOn(s, r.sys, Persist(r.sys, Claimed(Current(r.sys), r.out.value)));
      }
    }
  }

  /** Saving the claim. */
  lemma ClaimedIsSafe(cfg: Config, s: Sys, c: Claim)
    requires Working(cfg, s) && Current(s).HasGap() && !Current(s).HasClaim()
    requires (c.claimId != "" || c.claimRef != "") && c.gapId != "" && s.mem.resolvedGap == c.gapId
    requires Asking(s.trace).now && Asking(s.trace).gapId == c.gapId
    ensures var s' := Persist(s, Claimed(Current(s), c));
      Working(cfg, s') && Good(s') && Continues(s, s') && Current(s').HasClaim()
  {
    WorkingReads(cfg, s);
    ClaimedFollows(Current(s), c);
    hide Lawful, LatestAfter, RunsAfter, IdsBelow, SessionGaps, SessionStart, Asking, Inv, Extends, Continues;
    PersistClaimIsSafe(cfg, s, Claimed(Current(s), c));
    WorkingIsGood(cfg, Persist(s, Claimed(Current(s), c)));
  }

  // ---- Registration, context, receipt ----

  lemma EnsureRegistrationIsSafe(cfg: Config, s: Sys)
    requires Working(cfg, s) && Current(s).HasClaim()
    ensures var r := EnsureRegistration(s);
            && Good(r.sys) && Continues(s, r.sys)
            && (r.out.Ok? ==> Working(cfg, r.sys) && Current(r.sys).HasRegistration())
  {
    hide Working, Good, Register, Inv, Follows, Continues, Registered, Persist, Keeps;
    WorkingIsGood(cfg, s);
    NothingHappened(s);
    if !Current(s).HasRegistration() {
      RegisterIsSafe(cfg, s);
      var r := Register(s);
      WorkingIsGood(cfg, r.sys);
      if r.out.Ok? {
        KeepsRegistration(Current(s), Current(r.sys));
        RegisteredIsSafe(cfg, r.sys, r.out.value);
        ContinuesOn(s, r.sys, Persist(r.sys, Registered(Current(r.sys), r.out.value)));
      }
    }
  }

  lemma KeepsRegistration(r: Record, r': Record)
    requires Keeps(r, r')
    ensures r'.HasClaim() == r.HasClaim() && r'.HasRegistration() == r.HasRegistration()
    ensures r'.HasContext() == r.HasContext() && r'.HasGap() == r.HasGap()
  {
  }

  /** Saving the registration. */
  lemma RegisteredIsSafe(cfg: Config, s: Sys, x: Registration)
    requires Working(cfg, s) && Current(s).HasClaim() && !Current(s).HasRegistration() && x.registrationId != ""
    ensures var s' := Persist(s, Registered(Current(s), x));
      Working(cfg, s') && Good(s') && Continues(s, s') && Current(s').HasRegistration()
  {
    WorkingReads(cfg, s);
    RegisteredFollows(Current(s), x);
    hide Lawful, LatestAfter, RunsAfter, IdsBelow, SessionGaps, SessionStart, Inv, Follows, Continues;
    PersistIsSafe(cfg, s, Registered(Current(s), x));
    WorkingIsGood(cfg, Persist(s, Registered(Current(s), x)));
  }

  lemma RegisterCallIsSafe(cfg: Config, s: Sys)
    requires Working(cfg, s) && Current(s).HasClaim() && !Current(s).HasRegistration()
    ensures var r := CallAndSettle(s, RegisterRepo(Current(s).gapId, Current(s).claimId, Current(s).claimRef),
                                   Registering).sys;
            Working(cfg, r) && Continues(s, r) && Keeps(Current(s), Current(r))
  {
    var rec := Current(s);
    CallAndSettleIsSafe(cfg, s, RegisterRepo(rec.gapId, rec.claimId, rec.claimRef), Registering);
  }

  lemma SendRegistrationIsSafe(cfg: Config, s: Sys, digest: string)
    requires Working(cfg, s) && Current(s).HasClaim() && !Current(s).HasRegistration()
    ensures var r := SendRegistration(s, digest);
            && Working(cfg, r.sys) && Continues(s, r.sys) && Keeps(Current(s), Current(r.sys))
            && (r.out.Ok? ==> r.out.value.registrationId != "")
  {
    hide Working, Keeps, SessionGaps, SessionStart, RegistrationIdOf, CallAndSettle;
    RegisterCallIsSafe(cfg, s);
  }

  lemma RegisterIsSafe(cfg: Config, s: Sys)
    requires Working(cfg, s) && Current(s).HasClaim() && !Current(s).HasRegistration()
    ensures var r := Register(s);
            && Working(cfg, r.sys) && Continues(s, r.sys) && Keeps(Current(s), Current(r.sys))
            && (r.out.Ok? ==> r.out.value.registrationId != "")
  {
    hide Working, Keeps, Continues, CanonicalDigest, SendRegistration;
    WorkingReads(cfg, s);
    if Current(s).claimDigest == "" {
      CanonicalDigestIsSafe(cfg, s);
      var d := CanonicalDigest(s);
      KeepsItself(s, d.sys);
      if d.out.Ok? {
        SendRegistrationIsSafe(cfg, d.sys, d.out.value);
        ContinuesOn(s, d.sys, SendRegistration(d.sys, d.out.value).sys);
      }
    } else {
      SendRegistrationIsSafe(cfg, s, Current(s).claimDigest);
    }
  }

  lemma CompileCallIsSafe(cfg: Config, s: Sys)
    requires Working(cfg, s) && Current(s).HasRegistration() && !Current(s).HasContext()
    ensures var r := CallAndSettle(s, CompileContext(Current(s).registrationId), Compiling).sys;
            Working(cfg, r) && Continues(s, r) && Keeps(Current(s), Current(r))
  {
    CallAndSettleIsSafe(cfg, s, CompileContext(Current(s).registrationId), Compiling);
  }

  lemma SendCompileIsSafe(cfg: Config, s: Sys)
    requires Working(cfg, s) && Current(s).HasRegistration() && !Current(s).HasContext()
    ensures var r := SendCompile(s);
            && Working(cfg, r.sys) && Continues(s, r.sys) && Keeps(Current(s), Current(r.sys))
            && (r.out.Ok? ==> r.out.value != "")
  {
    hide Working, Keeps, SessionGaps, SessionStart, ContextIdOf, CallAndSettle;
    CompileCallIsSafe(cfg, s);
  }

  lemma CompileIsSafe(cfg: Config, s: Sys)
    requires Working(cfg, s) && Current(s).HasRegistration() && !Current(s).HasContext()
    ensures var r := Compile(s);
            && Working(cfg, r.sys) && Continues(s, r.sys) && Keeps(Current(s), Current(r.sys))
            && (r.out.Ok? ==> r.out.value != "")
  {
    hide Working, Keeps, Continues, CanonicalDigest, SendCompile;
    WorkingReads(cfg, s);
    CanonicalDigestIsSafe(cfg, s);
    var d := CanonicalDigest(s);
    KeepsItself(s, d.sys);
    if d.out.Ok? {
      SendCompileIsSafe(cfg, d.sys);
      ContinuesOn(s, d.sys, SendCompile(d.sys).sys);
    }
  }

  /** Saving the context. */
  lemma CompiledIsSafe(cfg: Config, s: Sys, contextId: string)
    requires Working(cfg, s) && Current(s).HasRegistration() && !Current(s).HasContext() && contextId != ""
    ensures var s' := Persist(s, Compiled(Current(s), contextId));
      && Working(cfg, s') && Good(s') && Continues(s, s')
      && Current(s').HasRegistration() && Current(s').HasContext()
  {
    WorkingReads(cfg, s);
    CompiledFollows(Current(s), contextId);
    hide Lawful, LatestAfter, RunsAfter, IdsBelow, SessionGaps, SessionStart, Inv, Follows, Continues;
    PersistIsSafe(cfg, s, Compiled(Current(s), contextId));
    WorkingIsGood(cfg, Persist(s, Compiled(Current(s), contextId)));
  }

  lemma EnsureContextIsSafe(cfg: Config, s: Sys)
    requires Working(cfg, s) && Current(s).HasRegistration()
    ensures var r := EnsureContext(s);
            && Good(r.sys) && Continues(s, r.sys)
            && (r.out.Ok? ==> Working(cfg, r.sys) && Current(r.sys).HasRegistration() && Current(r.sys).HasContext())
  {
    WorkingIsGood(cfg, s);
    NothingHappened(s);
    if !Current(s).HasContext() {
      CompileIsSafe(cfg, s);
      var r := Compile(s);
      hide Working, Good, Compile, Inv, Follows, Continues, Compiled, Persist;
      WorkingIsGood(cfg, r.sys);
      if r.out.Ok? {
        CompiledIsSafe(cfg, r.sys, r.out.value);
        ContinuesOn(s, r.sys, Persist(r.sys, Compiled(Current(r.sys), r.out.value)));
      }
    }
  }

  lemma ReadReceiptConfirms(cfg: Config, data: Json, candidate: string)
    ensures ReadReceipt(cfg, data, candidate).Ok? ==> IsConfirmed(ReadReceipt(cfg, data, candidate).value)
  {
    hide Normalize;
  }

  lemma CandidateIsSafe(cfg: Config, s: Sys, candidate: string)
    requires Working(cfg, s)
    ensures var s1 := Persist(s, Current(s).(candidate := candidate));
            && Working(cfg, s1) && Continues(s, s1)
            && Current(s1) == Current(s).(candidate := candidate, updatedAt := s.clock)
  {
    PersistIsSafe(cfg, s, Current(s).(candidate := candidate));
    hide Lawful, LatestAfter, SessionGaps, SessionStart, Inv, Follows;
  }

  lemma RealizeCallIsSafe(cfg: Config, s: Sys)
    requires Working(cfg, s) && Current(s).HasRegistration() && Current(s).HasContext() && !Current(s).IsSettled()
    ensures var r := CallAndSettle(s, Realize(Current(s).contextId, Current(s).candidate), Realizing).sys;
            Working(cfg, r) && Continues(s, r) && Keeps(Current(s), Current(r))
  {
    CallAndSettleIsSafe(cfg, s, Realize(Current(s).contextId, Current(s).candidate), Realizing);
  }

  /** From the saved candidate to the receipt. */
  lemma CandidateIsRealized(cfg: Config, s: Sys)
    requires Working(cfg, s) && Current(s).HasRegistration() && Current(s).HasContext() && !Current(s).IsSettled()
    ensures var r := CallAndSettle(s, Realize(Current(s).contextId, Current(s).candidate), Realizing);
            && Working(cfg, r.sys) && Continues(s, r.sys) && Keeps(Current(s), Current(r.sys))
            && (r.out.Ok? && ReadReceipt(cfg, r.out.value, Current(s).candidate).Ok? ==>
                  IsConfirmed(ReadReceipt(cfg, r.out.value, Current(s).candidate).value))
  {
    RealizeCallIsSafe(cfg, s);
    hide Working, Continues, Keeps, CallAndSettle, ReadReceipt, IsConfirmed;
    var r := CallAndSettle(s, Realize(Current(s).contextId, Current(s).candidate), Realizing);
    if r.out.Ok? {
      ReadReceiptConfirms(cfg, r.out.value, Current(s).candidate);
    }
  }

  lemma RealizeIsSafe(cfg: Config, s: Sys)
    requires Working(cfg, s) && Current(s).HasRegistration() && Current(s).HasContext() && !Current(s).IsSettled()
    ensures var r := RealizeGoverned(cfg, s);
            && Working(cfg, r.sys) && Continues(s, r.sys)
            && Keeps(Current(s), Current(r.sys).(candidate := Current(s).candidate))
            && (r.out.Ok? ==> IsConfirmed(r.out.value))
  {
    hide Working, Continues, CallAndSettle, ReadReceipt, Persist, IsConfirmed;
    NothingHappened(s);
    if cfg.gate.GatePasses? {
      var candidate := cfg.candidateFor(Current(s).contextId);
      var s1 := Persist(s, Current(s).(candidate := candidate));
      CandidateIsSafe(cfg, s, candidate);
      CandidateIsRealized(cfg, s1);
      ContinuesOn(s, s1, CallAndSettle(s1, Realize(Current(s).contextId, candidate), Realizing).sys);
    }
  }

  lemma SettledHasAll(r: Record)
    requires Inv(r) && r.IsSettled() && r.HasContext()
    ensures r.HasReceipt() && Progress(r) == 5
  {
    hide IsConfirmed;
  }

  lemma KeepsPrefix(r: Record, r': Record)
    requires Keeps(r, r'.(candidate := r.candidate))
    ensures r'.HasRegistration() == r.HasRegistration() && r'.HasContext() == r.HasContext()
  {
  }

  /** Saving the receipt. */
  lemma ReceiptedIsSafe(cfg: Config, s: Sys, receipt: Receipt)
    requires Working(cfg, s) && Current(s).HasRegistration() && Current(s).HasContext() && IsConfirmed(receipt)
    ensures var s' := Persist(s, Receipted(Current(s), receipt));
      Working(cfg, s') && Good(s') && Continues(s, s') && Current(s').HasReceipt() && Progress(Current(s')) == 5
  {
    WorkingReads(cfg, s);
    ReceiptedFollows(Current(s), receipt);
    hide Lawful, LatestAfter, RunsAfter, IdsBelow, SessionGaps, SessionStart, Inv, Follows, Continues, IsConfirmed;
    PersistIsSafe(cfg, s, Receipted(Current(s), receipt));
    WorkingIsGood(cfg, Persist(s, Receipted(Current(s), receipt)));
  }

  lemma EnsureReceiptIsSafe(cfg: Config, s: Sys)
    requires Working(cfg, s) && Current(s).HasRegistration() && Current(s).HasContext()
    ensures var r := EnsureReceipt(cfg, s);
            && Good(r.sys) && Continues(s, r.sys)
            && (r.out.Ok? ==> Working(cfg, r.sys) && Current(r.sys).HasReceipt() && Progress(Current(r.sys)) == 5)
  {
    hide Working, Good, RealizeGoverned, Inv, Follows, Continues, Receipted, Persist, Progress, IsConfirmed, Keeps;
    WorkingReads(cfg, s);
    NothingHappened(s);
    if Current(s).IsSettled() {
      SettledHasAll(Current(s));
    } else {
      RealizeIsSafe(cfg, s);
      var r := RealizeGoverned(cfg, s);
      WorkingReads(cfg, r.sys);
      KeepsPrefix(Current(s), Current(r.sys));
      if r.out.Ok? {
        ReceiptedIsSafe(cfg, r.sys, r.out.value);
        ContinuesOn(s, r.sys, Persist(r.sys, Receipted(Current(r.sys), r.out.value)));
      }
    }
  }

  // ---- Recovery ----

  /** Forgetting a finished run. */
  lemma ForgottenFollows(r: Record, r': Record)
    requires Inv(r) && Keeps(r, r') && r'.step == r.step
    ensures Follows(Some(r), r')
  {
  }

  lemma RecoveredGapFollows(r: Record, r': Record)
    requires Inv(r) && r.step.GapDiscovery? && Keeps(r.(gapId := r'.gapId, gapSource := r'.gapSource), r')
    requires r'.step.GapResolved? && r'.gapId != ""
    ensures Follows(Some(r), r')
  {
  }

  lemma RecoveredClaimFollows(r: Record, r': Record)
    requires Inv(r) && r.step.GapClaim? && Keeps(r.(claimId := r'.claimId, claimRef := r'.claimRef), r')
    requires r'.step.ClaimSucceeded?
    ensures Follows(Some(r), r')
  {
  }

  lemma RecoveredRegistrationFollows(r: Record, r': Record)
    requires Inv(r) && r.step.ContextCreate? && Keeps(r.(registrationId := r'.registrationId), r')
    requires r'.step.ContextCreated?
    ensures Follows(Some(r), r')
  {
  }

  lemma RecoveredContextFollows(r: Record, r': Record)
    requires Inv(r) && (r.step.PreclaimContext? || r.step.ContextCompile?) && Keeps(r.(contextId := r'.contextId), r')
    requires r'.step.PreclaimContextReady? || r'.step.ContextCompiled?
    ensures Follows(Some(r), r')
  {
  }

  lemma RecoveredFollows(cfg: Config, rec: Record, source: string, data: Json)
    requires Inv(rec)
    ensures var r := Recovered(cfg, rec, source, data); r.Ok? ==> Follows(Some(rec), r.value)
  {
    hide Follows, Inv, Recovered;
    match rec.step
    case GapDiscovery => RecoveredDiscoveryFollows(cfg, rec, source, data);
    case GovernedRealize => RecoveredReceiptFollows(cfg, rec, source, data);
    case _ => RecoveredAnswerFollows(cfg, rec, source, data);
  }

  lemma RecoveredReceipt(cfg: Config, rec: Record, source: string, data: Json)
    requires rec.step.GovernedRealize?
    ensures var receipt := ReadReceipt(cfg, data, rec.candidate);
      Recovered(cfg, rec, source, data) == if receipt.Ok? then Ok(Receipted(rec, receipt.value)) else receipt.Fail()
  {
    hide ReadReceipt, Receipted, Select, ClaimIdOf, ClaimRefOf, RecoveredRegistrationIdOf, ContextIdOf;
  }

  lemma RecoveredReceiptFollows(cfg: Config, rec: Record, source: string, data: Json)
    requires Inv(rec) && rec.step.GovernedRealize?
    ensures var r := Recovered(cfg, rec, source, data); r.Ok? ==> Follows(Some(rec), r.value)
  {
    hide Recovered, ReadReceipt, Follows, Inv, IsConfirmed, Receipted;
    RealizingIsReady(rec);
    ReadReceiptConfirms(cfg, data, rec.candidate);
    RecoveredReceipt(cfg, rec, source, data);
    if ReadReceipt(cfg, data, rec.candidate).Ok? {
      ReceiptedFollows(rec, ReadReceipt(cfg, data, rec.candidate).value);
    }
  }

  lemma RealizingIsReady(rec: Record)
    requires Inv(rec) && rec.step.GovernedRealize?
    ensures rec.HasRegistration() && rec.HasContext()
  {
  }

  lemma RecoveredDiscoveryFollows(cfg: Config, rec: Record, source: string, data: Json)
    requires Inv(rec) && rec.step.GapDiscovery?
    ensures var r := Recovered(cfg, rec, source, data); r.Ok? ==> Follows(Some(rec), r.value)
  {
    SelectedGapIsNamed(cfg, data);
    var next := Recovered(cfg, rec, source, data);
    hide Select, Follows, Inv;
    if next.Ok? {
      if next.value.step.GapDiscovery? { ForgottenFollows(rec, next.value); }
      else { RecoveredGapFollows(rec, next.value); }
    }
  }

  lemma RecoveredContextAnswer(cfg: Config, rec: Record, source: string, data: Json)
    requires Inv(rec) && (rec.step.PreclaimContext? || rec.step.ContextCompile?)
    ensures var r := Recovered(cfg, rec, source, data); r.Ok? && Follows(Some(rec), r.value)
  {
    hide Select, ReadReceipt, Receipted, ContextIdOf, Follows, Inv;
    RecoveredContextFollows(rec, Recovered(cfg, rec, source, data).value);
  }

  lemma RecoveredClaimAnswer(cfg: Config, rec: Record, source: string, data: Json)
    requires Inv(rec) && rec.step.GapClaim?
    ensures var r := Recovered(cfg, rec, source, data); r.Ok? && Follows(Some(rec), r.value)
  {
    hide Select, ReadReceipt, Receipted, ClaimIdOf, ClaimRefOf, Follows, Inv;
    RecoveredClaimFollows(rec, Recovered(cfg, rec, source, data).value);
  }

  lemma RecoveredRegistrationAnswer(cfg: Config, rec: Record, source: string, data: Json)
    requires Inv(rec) && rec.step.ContextCreate?
    ensures var r := Recovered(cfg, rec, source, data); r.Ok? && Follows(Some(rec), r.value)
  {
    hide Select, ReadReceipt, Receipted, RecoveredRegistrationIdOf, Follows, Inv;
    RecoveredRegistrationFollows(rec, Recovered(cfg, rec, source, data).value);
  }

  lemma RecoveredAnswerFollows(cfg: Config, rec: Record, source: string, data: Json)
    requires Inv(rec) && !rec.step.GapDiscovery? && !rec.step.GovernedRealize?
    ensures var r := Recovered(cfg, rec, source, data); r.Ok? && Follows(Some(rec), r.value)
  {
    hide Follows, Inv, Recovered;
    match rec.step
    case GapClaim => RecoveredClaimAnswer(cfg, rec, source, data);
    case ContextCreate => RecoveredRegistrationAnswer(cfg, rec, source, data);
    case PreclaimContext => RecoveredContextAnswer(cfg, rec, source, data);
    case ContextCompile => RecoveredContextAnswer(cfg, rec, source, data);
    case _ => ForgottenAnswer(cfg, rec, source, data);
  }

  lemma ForgottenAnswer(cfg: Config, rec: Record, source: string, data: Json)
    requires Inv(rec) && !(rec.step.GapDiscovery? || rec.step.GapClaim? || rec.step.ContextCreate?
                           || rec.step.PreclaimContext? || rec.step.ContextCompile? || rec.step.GovernedRealize?)
    ensures var r := Recovered(cfg, rec, source, data); r.Ok? && Follows(Some(rec), r.value)
  {
    hide Follows, Inv;
    ForgottenFollows(rec, Recovered(cfg, rec, source, data).value);
  }

  /** Only a recovered discovery touches the gap, and it brings a real one. */
  lemma RecoveredGapIsReal(cfg: Config, rec: Record, source: string, data: Json)
    ensures var r := Recovered(cfg, rec, source, data);
            && (r.Ok? && !(rec.step.GapDiscovery? && r.value.step.GapResolved?) ==> r.value.gapId == rec.gapId)
            && (r.Ok? && rec.step.GapDiscovery? && r.value.step.GapResolved? ==> r.value.gapId != "")
  {
    SelectedGapIsNamed(cfg, data);
    hide Select, ReadReceipt, ClaimIdOf, ClaimRefOf, RecoveredRegistrationIdOf, ContextIdOf;
  }

  lemma RecoveredGapIsSafe(cfg: Config, s: Sys, next: Record)
    requires Working(cfg, s) && !s.mem.gapVerified && !Asking(s.trace).now
    requires Follows(s.disk.latest, next) && next.gapId != ""
    ensures var r := Persist(Learn(s, next.gapId, s.mem.gapSource), next);
      Working(cfg, r) && Continues(s, r) && !r.mem.gapVerified
  {
    var s1 := Learn(s, next.gapId, s.mem.gapSource);
    LearnIsSafe(cfg, s, next.gapId, s.mem.gapSource);
    assert s1.disk == s.disk && !s1.mem.gapVerified && s1.mem.rec == s.mem.rec;
    hide Good, Inv, SessionGaps, SessionStart, Asking, Follows, Continues, Learn;
    PersistIsSafe(cfg, s1, next);
    ContinuesOn(s, s1, Persist(s1, next));
  }

  /** What is known after the recovery: enough to go on with the phases. */
  lemma TakeResultIsSafe(cfg: Config, s: Sys, data: Json)
    requires Working(cfg, s) && !s.mem.gapVerified && !Asking(s.trace).now
    ensures var r := TakeResult(cfg, s, data).sys; Working(cfg, r) && Continues(s, r) && !r.mem.gapVerified
  {
    var rec := Current(s);
    var next := Recovered(cfg, rec, s.mem.gapSource, data);
    RecoveredFollows(cfg, rec, s.mem.gapSource, data);
    RecoveredGapIsReal(cfg, rec, s.mem.gapSource, data);
    hide Good, Inv, Recovered, SessionGaps, SessionStart, Asking, Follows, Continues, Learn, Persist;
    NothingHappened(s);
    if next.Ok? {
      if rec.step.GapDiscovery? && next.value.step.GapResolved? {
        RecoveredGapIsSafe(cfg, s, next.value);
      } else {
        PersistIsSafe(cfg, s, next.value);
      }
    }
  }

  /** A change of bookkeeping that leaves the step alone. */
  lemma NoteIsSafe(cfg: Config, s: Sys, r: Record)
    requires Working(cfg, s) && Keeps(Current(s), r) && r.step == Current(s).step
    requires !Asking(s.trace).now
    ensures var s' := Persist(s, r); Working(cfg, s') && Continues(s, s') && s'.mem.gapVerified == s.mem.gapVerified
  {
    assert Follows(s.disk.latest, r);
    hide Lawful, LatestAfter, SessionGaps, SessionStart, Asking, Inv, Follows;
    PersistIsSafe(cfg, s, r);
  }

  lemma {:induction false} PollPathsIsSafe(cfg: Config, s: Sys, paths: seq<string>, last: string)
    requires Working(cfg, s) && !s.mem.gapVerified && !Asking(s.trace).now
    ensures var r := PollPaths(cfg, s, paths, last).sys; Working(cfg, r) && Continues(s, r) && !r.mem.gapVerified
    decreases |paths|
  {
    hide Working, Good, SessionGaps, SessionStart, Asking, TakeResult, Persist, IsFinished, IsFailed, RunStatus,
         AsAccepted, FailureCode;
    if paths == [] {
      NoteIsSafe(cfg, s, Current(s).(status := last, terminal := false));
    } else {
      WorkingIsGood(cfg, s);
      PollIsSafe(s, paths[0]);
      var f := Fetch(s, Poll(paths[0]));
      StillWorking(cfg, s, f.sys);
      if f.out.Ok? {
        var reply := f.out.value;
        if !reply.Broken? && !reply.TimeUp? && reply.code == 404 {
          NoteIsSafe(cfg, f.sys, Current(f.sys).(status := "RUN_NOT_FOUND", errorCode := "RUN_NOT_FOUND",
                                                 terminal := false));
        } else if AsAccepted(reply).Ok? {
          var data := AsAccepted(reply).value;
          if !IsFinished(data) {
            PollPathsIsSafe(cfg, f.sys, paths[1..], if RunStatus(data) != "" then RunStatus(data) else "pending");
          } else if IsFailed(RunStatus(data)) {
            var code := if FailureCode(data) != "" then FailureCode(data) else "RUN_FAILED";
            NoteIsSafe(cfg, f.sys, Current(f.sys).(status := code, errorCode := code, terminal := true));
          } else {
            TakeResultIsSafe(cfg, f.sys, data);
          }
        }
      }
    }
  }

  lemma RecoverIsSafe(cfg: Config, s: Sys)
    requires Working(cfg, s) && !s.mem.gapVerified && !Asking(s.trace).now
    ensures var r := Recover(cfg, s).sys; Working(cfg, r) && Continues(s, r) && !r.mem.gapVerified
  {
    var rec := Current(s);
    if !rec.terminal && rec.HasRun() {
      PollPathsIsSafe(cfg, s, SavedPaths(rec.runId, rec.pollUrl), "pending");
    }
    hide Working, SessionGaps, SessionStart, PollPaths;
  }

  // ---- Whole commands ----

  lemma MayRead(s: Sys)
    requires Good(s)
    ensures MayHappen(s.trace, Sent(ReadCapabilities, s.disk.latest))
  {
    hide Lawful, Inv, LatestAfter, RunsAfter, IdsBelow, SessionGaps, SessionStart, Asking;
  }

  /** Neither the files nor the trace know what the client has in memory. */
  lemma MemoryIsFree(a: Sys, s: Sys, mem: Memory)
    ensures Good(s.(mem := mem)) == Good(s)
    ensures Continues(a, s.(mem := mem)) == Continues(a, s)
  {
    hide Lawful, Inv, LatestAfter, RunsAfter, IdsBelow, SessionGaps, SessionStart;
  }

  lemma DiscoverIsSafe(cfg: Config, s: Sys)
    requires Good(s)
    ensures var r := Discover(cfg, s).sys;
            && Good(r) && Continues(s, r) && r.disk == s.disk && r.clock == s.clock
            && r.mem == s.mem.(capabilities := r.mem.capabilities) && Asking(r.trace) == Asking(s.trace)
            && SavedNow(r.trace) == SavedNow(s.trace)
  {
    hide Good, MayHappen, SessionGaps, SessionStart, Asking, SavedNow, Fetch, AsObject, Continues;
    MayRead(s);
    FetchIsSafe(s, ReadCapabilities);
    MemoryIsFree(s, Fetch(s, ReadCapabilities).sys, Discover(cfg, s).sys.mem);
  }

  /** A client that has neither read the disk nor asked for a claim yet. */
  predicate Starting(cfg: Config, s: Sys) {
    && Good(s) && s.mem.rec.None? && s.mem.resolvedGap == "" && !s.mem.gapVerified
    && SessionStart(s.trace).operatorGap == cfg.operatorGap && !Asking(s.trace).now && !SavedNow(s.trace)
  }

  lemma LoadIsSafe(cfg: Config, s: Sys)
    requires Starting(cfg, s)
    ensures var r := Load(cfg, s);
            && Good(r.sys) && r.sys.disk == s.disk && r.sys.trace == s.trace
            && (r.out.Ok? ==> Working(cfg, r.sys) && !r.sys.mem.gapVerified)
            && (r.out.Err? && cfg.declarationReads ==> s.disk.latest.None? && r.sys == s)
  {
    hide Lawful, Inv, LatestAfter, RunsAfter, IdsBelow, SessionGaps, SessionStart, Asking;
  }

  /** A new record for a new run. */
  lemma InspectStartsRun(cfg: Config, s: Sys)
    requires Starting(cfg, s) && cfg.declarationReads
    requires s.disk.latest.Some? ==> MayStartOver(SessionStart(s.trace).command)
    ensures var r := Inspect(cfg, s);
            && Working(cfg, r.sys) && Continues(s, r.sys) && r.out.Ok? && !r.sys.mem.gapVerified
            && Asking(r.sys.trace) == Asking(s.trace) && SavedNow(r.sys.trace)
  {
    hide Lawful, LatestAfter, RunsAfter, IdsBelow, SessionGaps, SessionStart, Asking, MayStartOver;
    NewIsLawful(s, Current(s).(status := "initialized", terminal := false));
  }

  lemma OpenIsSafe(cfg: Config, s: Sys, useLast: bool)
    requires Starting(cfg, s) && (!useLast ==> MayStartOver(SessionStart(s.trace).command))
    ensures var r := Open(cfg, s, useLast);
            && Good(r.sys) && Continues(s, r.sys) && Asking(r.sys.trace) == Asking(s.trace)
            && (r.out.Ok? ==> Working(cfg, r.sys) && !r.sys.mem.gapVerified)
  {
    LoadIsSafe(cfg, s);
    var l := Load(cfg, s);
    hide SessionGaps, SessionStart, Asking, Load, Good;
    if cfg.declarationReads {
      if !useLast || l.out.Err? {
        InspectStartsRun(cfg, s);
        WorkingIsGood(cfg, Inspect(cfg, s).sys);
      }
    }
  }

  lemma DiscoverAndRecoverIsSafe(cfg: Config, s: Sys)
    requires Working(cfg, s) && !s.mem.gapVerified && !Asking(s.trace).now
    ensures var r := DiscoverAndRecover(cfg, s);
            && Good(r.sys) && Continues(s, r.sys) && (r.out.Ok? ==> Working(cfg, r.sys) && !r.sys.mem.gapVerified)
  {
    DiscoverIsSafe(cfg, s);
    var d := Discover(cfg, s);
    hide Good, SessionGaps, SessionStart, Asking, Discover, Recover;
    if d.out.Ok? {
      RecoverIsSafe(cfg, d.sys);
    }
  }

  /** The last phase, and what is on the disk then. */
  lemma ReceiptIsOnDisk(cfg: Config, s: Sys)
    requires Working(cfg, s) && Current(s).HasRegistration() && Current(s).HasContext()
    ensures var r := EnsureReceipt(cfg, s);
            && Good(r.sys) && Continues(s, r.sys)
            && (r.out.Ok? ==> && r.sys.disk.latest == Some(Current(r.sys))
                              && Current(r.sys).HasReceipt() && Progress(Current(r.sys)) == 5)
  {
    EnsureReceiptIsSafe(cfg, s);
    hide Good, EnsureReceipt, SessionGaps, SessionStart, Progress, IsConfirmed;
  }

  lemma LastPhasesAreSafe(cfg: Config, s: Sys)
    requires Working(cfg, s) && Current(s).HasClaim()
    ensures var r := EnsureRegistration(s);
            var x := EnsureContext(r.sys);
            && Good(r.sys) && Continues(s, r.sys)
            && (r.out.Ok? ==> Good(x.sys) && Continues(s, x.sys))
            && (r.out.Ok? && x.out.Ok? ==>
                  && Working(cfg, x.sys) && Current(x.sys).HasRegistration() && Current(x.sys).HasContext())
  {
    hide Working, Good, Continues, EnsureRegistration, EnsureContext;
    EnsureRegistrationIsSafe(cfg, s);
    var r := EnsureRegistration(s);
    if r.out.Ok? {
      EnsureContextIsSafe(cfg, r.sys);
      ContinuesOn(s, r.sys, EnsureContext(r.sys).sys);
    }
  }

  lemma AdvanceIsSafe(cfg: Config, s: Sys)
    requires Working(cfg, s)
    ensures var r := Advance(cfg, s);
            && Good(r.sys) && Continues(s, r.sys)
            && (r.out.Ok? ==> && r.sys.disk.latest == Some(Current(r.sys))
                              && Current(r.sys).HasReceipt() && Progress(Current(r.sys)) == 5)
  {
    hide Working, Good, Continues, Progress, IsConfirmed,
         EnsureGap, EnsureClaim, EnsureRegistration, EnsureContext, EnsureReceipt;
    EnsureGapIsSafe(cfg, s);
    var g := EnsureGap(cfg, s);
    if g.out.Ok? {
      EnsureClaimIsSafe(cfg, g.sys);
      var c := EnsureClaim(cfg, g.sys);
      ContinuesOn(s, g.sys, c.sys);
      if c.out.Ok? {
        LastPhasesAreSafe(cfg, c.sys);
        var r := EnsureRegistration(c.sys);
        ContinuesOn(s, c.sys, r.sys);
        if r.out.Ok? {
          var x := EnsureContext(r.sys);
          ContinuesOn(s, c.sys, x.sys);
          if x.out.Ok? {
            ReceiptIsOnDisk(cfg, x.sys);
            ContinuesOn(s, x.sys, EnsureReceipt(cfg, x.sys).sys);
          }
        }
      }
    }
  }

  /** A resume that returns has the whole prefix on the disk, a confirmed receipt included. */
  lemma ResumeIsSafe(cfg: Config, s: Sys, useLast: bool)
    requires Starting(cfg, s) && (!useLast ==> MayStartOver(SessionStart(s.trace).command))
    ensures var r := Resume(cfg, s, useLast);
            && Good(r.sys) && Continues(s, r.sys)
            && (r.out.Ok? ==> && r.sys.disk.latest == Some(r.out.value)
                              && Progress(r.out.value) == 5 && IsWhole(r.out.value))
  {
    hide Working, Good, SessionGaps, SessionStart, Asking, Progress, IsConfirmed, Open, DiscoverAndRecover, Advance,
         MayStartOver, IsWhole;
    OpenIsSafe(cfg, s, useLast);
    var o := Open(cfg, s, useLast);
    if o.out.Ok? {
      DiscoverAndRecoverIsSafe(cfg, o.sys);
      var d := DiscoverAndRecover(cfg, o.sys);
      if d.out.Ok? {
        AdvanceIsSafe(cfg, d.sys);
        ProgressCountsThePrefix(Current(Advance(cfg, d.sys).sys));
      }
    }
  }

  /** Discovery leaves a client that has not read the disk as it was. */
  lemma StillStarting(cfg: Config, s: Sys)
    requires Starting(cfg, s)
    ensures var r := Discover(cfg, s).sys; Good(s) && Starting(cfg, r) && Good(r) && Continues(s, r)
  {
    DiscoverIsSafe(cfg, s);
    hide Good, SessionGaps, SessionStart, Asking, Discover;
  }

  // ---- Dry runs ----

  /** A dry run works without a record. */
  predicate Detached(cfg: Config, s: Sys) {
    Starting(cfg, s) && SessionStart(s.trace).command == RunCommand(true)
  }

  /** A dry run whose question was answered with a promise works on a record of its own. */
  predicate DryOrWorking(cfg: Config, s: Sys) {
    Detached(cfg, s) || (Working(cfg, s) && !Current(s).HasClaim())
  }

  lemma DetachedPromiseIsSafe(cfg: Config, s: Sys, data: Json)
    requires Detached(cfg, s) && IsActive(RunStatus(data))
    ensures var r := Settle(s, data, Discovering).sys;
            Working(cfg, r) && Continues(s, r) && !Current(r).HasClaim()
  {
    hide Lawful, LatestAfter, RunsAfter, IdsBelow, SessionGaps, SessionStart, Asking, RunStatus, RunIdOf, PollUrlOf,
         IsActive, Calm;
    var rec := Current(s).(step := GapDiscovery, status := RunStatus(data), terminal := false,
                           runId := RunIdOf(data), pollUrl := PollUrlOf(data));
    NewIsLawful(s, rec);
    var s1 := Persist(s, rec);
    assert Working(cfg, s1);
    hide Inv, Good, Working;
    if RunIdOf(data) != "" || PollUrlOf(data) != "" {
      var paths := WaitPaths(RunIdOf(data), PollUrlOf(data));
      WorkingIsGood(cfg, s1);
      WaitIsSafe(s1, paths);
      StillWorking(cfg, s1, Wait(s1, paths).sys);
    }
  }

  lemma DetachedMayAsk(cfg: Config, s: Sys, forStory: bool)
    requires Detached(cfg, s)
    ensures Good(s) && MayHappen(s.trace, Sent(ListGaps(forStory), s.disk.latest))
  {
    hide Lawful, LatestAfter, RunsAfter, IdsBelow, SessionGaps, SessionStart, Asking, SavedNow, Inv;
  }

  lemma StillDetached(cfg: Config, s: Sys, s': Sys)
    requires Detached(cfg, s) && Good(s') && Continues(s, s') && s'.mem == s.mem
    requires Asking(s'.trace) == Asking(s.trace) && SavedNow(s'.trace) == SavedNow(s.trace)
    ensures Detached(cfg, s')
  {
    hide Good, SessionGaps, SessionStart, Asking, SavedNow;
  }

  lemma DetachedQueryIsSafe(cfg: Config, s: Sys, forStory: bool)
    requires Detached(cfg, s)
    ensures var r := QueryGaps(cfg, s, forStory).sys; DryOrWorking(cfg, r) && Continues(s, r)
  {
    hide Detached, Working, Good, Continues, MayHappen, SessionGaps, SessionStart, Asking, SavedNow, Select, Settle,
         AsAccepted, RunStatus, IsActive, Fetch;
    var request := ListGaps(forStory);
    DetachedMayAsk(cfg, s, forStory);
    FetchIsSafe(s, request);
    StillDetached(cfg, s, Fetch(s, request).sys);
    var r := Call(s, request);
    if r.out.Ok? {
      if IsActive(RunStatus(r.out.value)) {
        DetachedPromiseIsSafe(cfg, r.sys, r.out.value);
        ContinuesOn(s, r.sys, Settle(r.sys, r.out.value, Discovering).sys);
      } else {
        NoPromise(r.sys, r.out.value);
      }
    }
  }

  lemma NoPromise(s: Sys, data: Json)
    requires !IsActive(RunStatus(data))
    ensures Settle(s, data, Discovering).sys == s
  {
  }

  lemma AnyQueryIsSafe(cfg: Config, s: Sys, forStory: bool)
    requires DryOrWorking(cfg, s)
    ensures var r := QueryGaps(cfg, s, forStory).sys; DryOrWorking(cfg, r) && Continues(s, r)
  {
    hide Working, Good, Starting, QueryGaps, SessionGaps, SessionStart, Asking;
    if Detached(cfg, s) {
      DetachedQueryIsSafe(cfg, s, forStory);
    } else {
      QueryGapsIsSafe(cfg, s, forStory);
    }
  }

  lemma DryDiscoveryIsSafe(cfg: Config, s: Sys)
    requires DryOrWorking(cfg, s)
    ensures var r := DiscoverGap(cfg, s).sys; DryOrWorking(cfg, r) && Continues(s, r)
  {
    hide DryOrWorking, QueryGaps, SessionGaps, SessionStart;
    if s.mem.capabilities.canDiscoverGaps {
      AnyQueryIsSafe(cfg, s, true);
      var first := QueryGaps(cfg, s, true);
      if cfg.storyId != "" && (first.out.Err? || first.out == Ok("")) {
        AnyQueryIsSafe(cfg, first.sys, false);
      }
    }
  }

  lemma DryOrWorkingIsGood(cfg: Config, s: Sys)
    requires DryOrWorking(cfg, s)
    ensures Good(s)
  {
  }

  lemma LearnKeepsGood(s: Sys, gapId: string, source: string)
    requires Good(s)
    ensures Good(Learn(s, gapId, source)) && Continues(s, Learn(s, gapId, source))
  {
    var s' := s.(mem := s.mem.(resolvedGap := gapId, gapSource := source));
    LogIsLawful(s', Resolved(gapId));
    hide Lawful, Inv, LatestAfter, RunsAfter, IdsBelow, SessionGaps, SessionStart, Asking;
  }

  /** What the server says about the gap, learned or not. */
  lemma DryAnswerIsSafe(cfg: Config, s: Sys)
    requires Detached(cfg, s)
    ensures var r := DiscoverGap(cfg, s);
      && Good(r.sys) && Continues(s, r.sys)
      && (r.out.Ok? ==>
            && Good(Learn(r.sys, r.out.value, GAPS_LIST))
            && Continues(s, Learn(r.sys, r.out.value, GAPS_LIST)))
  {
    hide DryOrWorking, Detached, Good, DiscoverGap, Continues, Learn;
    assert DryOrWorking(cfg, s) by { DetachedIsDry(cfg, s); }
    DryDiscoveryIsSafe(cfg, s);
    var r := DiscoverGap(cfg, s);
    DryOrWorkingIsGood(cfg, r.sys);
    if r.out.Ok? {
      LearnKeepsGood(r.sys, r.out.value, GAPS_LIST);
      ContinuesOn(s, r.sys, Learn(r.sys, r.out.value, GAPS_LIST));
    }
  }

  lemma DetachedIsDry(cfg: Config, s: Sys)
    requires Detached(cfg, s)
    ensures DryOrWorking(cfg, s)
  {
  }

  lemma DryLookUpIsSafe(cfg: Config, s: Sys)
    requires Detached(cfg, s)
    ensures Good(LookUpGap(cfg, s).sys) && Continues(s, LookUpGap(cfg, s).sys)
  {
    DryOrWorkingIsGood(cfg, s);
    hide Detached, Good, DiscoverGap, Continues, Learn, StartsWith;
    DryAnswerIsSafe(cfg, s);
    LearnKeepsGood(s, cfg.envGap, FROM_ENVIRONMENT);
    LearnKeepsGood(s, s.mem.capabilities.gapId, FROM_CAPABILITIES);
    NothingHappened(s);
  }

  lemma DryResolutionIsSafe(cfg: Config, s: Sys)
    requires Detached(cfg, s)
    ensures Good(ResolveGap(cfg, s).sys) && Continues(s, ResolveGap(cfg, s).sys)
  {
    DryOrWorkingIsGood(cfg, s);
    hide Detached, Good, LookUpGap, Continues, Learn, StartsWith;
    NothingHappened(s);
    DryLookUpIsSafe(cfg, s);
    LearnKeepsGood(s, cfg.operatorGap, FROM_OPERATOR);
    VerifiedIsGood(s, LookUpGap(cfg, s).sys);
    VerifiedIsGood(s, Learn(s, cfg.operatorGap, FROM_OPERATOR));
  }

  /** The flag of the client's memory does not matter here. */
  lemma VerifiedIsGood(s: Sys, s': Sys)
    ensures forall verified :: Good(s'.(mem := s'.mem.(gapVerified := verified))) == Good(s')
    ensures forall verified :: Continues(s, s'.(mem := s'.mem.(gapVerified := verified))) == Continues(s, s')
  {
    hide Lawful, Inv, LatestAfter, RunsAfter, IdsBelow, SessionGaps, SessionStart;
  }

  // ---- Whole sessions ----

  lemma RunFlowIsSafe(cfg: Config, s: Sys, dryRun: bool)
    requires Starting(cfg, s) && (dryRun ==> SessionStart(s.trace).command == RunCommand(true))
    ensures var r := RunFlow(cfg, s, dryRun);
            && Good(r.sys) && Continues(s, r.sys)
            && (r.out.Ok? && !dryRun ==>
                  && r.out.value.Finished? && r.sys.disk.latest == Some(r.out.value.record)
                  && Progress(r.out.value.record) == 5 && IsWhole(r.out.value.record))
  {
    hide Starting, Good, SessionGaps, SessionStart, Progress, IsWhole, Discover, Resume, ResolveGap;
    StillStarting(cfg, s);
    var d := Discover(cfg, s);
    if d.out.Ok? {
      if dryRun {
        DryResolutionIsSafe(cfg, d.sys);
      } else {
        ResumeIsSafe(cfg, d.sys, true);
      }
    }
  }

  lemma StatusIsSafe(cfg: Config, s: Sys)
    requires Starting(cfg, s)
    ensures Good(Status(cfg, s).sys) && Continues(s, Status(cfg, s).sys)
  {
    LoadIsSafe(cfg, s);
    var l := Load(cfg, s);
    hide Good, SessionGaps, SessionStart, Asking, Load, DiscoverAndRecover;
    if l.out.Ok? {
      DiscoverAndRecoverIsSafe(cfg, l.sys);
    }
  }

  lemma BeginIsSafe(cfg: Config, command: Command, s: Sys, tape: seq<Reply>)
    requires Sound(s)
    ensures var s' := Begin(cfg, command, s, tape);
      && Starting(cfg, s') && SessionStart(s'.trace) == Start(cfg.operatorGap, command, |s'.trace|)
      && s.trace <= s'.trace && s'.disk == s.disk && s'.clock == s.clock
  {
    LogIsLawful(s.(mem := FRESH_MEMORY, tape := tape), Started(cfg.operatorGap, command));
    hide Lawful, Inv, LatestAfter, RunsAfter, IdsBelow, SessionGaps, SessionStart, Asking, Calm;
  }

  lemma ExecuteIsSafe(cfg: Config, command: Command, s: Sys)
    requires Starting(cfg, s) && SessionStart(s.trace).command == command
    ensures Good(Execute(cfg, command, s).sys) && Continues(s, Execute(cfg, command, s).sys)
  {
    hide Good, RunFlow, Resume, Status, Load, Progress, IsConfirmed, SessionGaps, SessionStart, Asking;
    match command
    case RunCommand(dryRun) => RunFlowIsSafe(cfg, s, dryRun);
    case ResumeCommand(useLast) => ResumeIsSafe(cfg, s, useLast);
    case StatusCommand => StatusIsSafe(cfg, s);
    case ReceiptCommand => LoadIsSafe(cfg, s);
  }

  lemma {:induction false} PrefixIsLawful(trace: seq<Event>, k: nat)
    requires Lawful(trace) && k <= |trace|
    ensures Lawful(trace[..k])
    ensures k < |trace| ==> MayHappen(trace[..k], trace[k])
    decreases |trace| - k
  {
    hide MayHappen;
    if k == |trace| {
      assert trace[..k] == trace;
    } else {
      PrefixIsLawful(trace, k + 1);
      assert trace[..k + 1][..k] == trace[..k];
    }
  }

  lemma {:induction false} PrefixIsBelow(trace: seq<Event>, k: nat, n: nat)
    requires IdsBelow(trace, n) && k <= |trace|
    ensures IdsBelow(trace[..k], n)
    decreases |trace| - k
  {
    if k == |trace| {
      assert trace[..k] == trace;
    } else {
      PrefixIsBelow(trace, k + 1, n);
      assert trace[..k + 1][..k] == trace[..k];
    }
  }

  lemma {:induction false} LatestIsInvariant(trace: seq<Event>)
    requires Lawful(trace)
    ensures LatestAfter(trace).Some? ==> Inv(LatestAfter(trace).value)
  {
    hide Inv, Traced, IdsBelow;
    if trace != [] && !trace[|trace| - 1].Saved? {
      LatestIsInvariant(trace[..|trace| - 1]);
    }
  }

  /** A process may die after any of its events, between the two writes of a save too. */
  lemma DyingIsSound(s: Sys, events: nat)
    requires Good(s)
    ensures Sound(DieAfter(s, events))
  {
    if events < |s.trace| {
      PrefixIsLawful(s.trace, events);
      PrefixIsBelow(s.trace, events, s.clock);
      LatestIsInvariant(s.trace[..events]);
    }
    hide Lawful, Inv, LatestAfter, RunsAfter, IdsBelow;
  }

  /** Every run: whatever the commands and the answers, and wherever each process dies, the state stays sound. */
  lemma {:induction false} SessionsAreSafe(sessions: seq<Session>)
    ensures Sound(Sessions(sessions, BLANK))
  {
    if sessions != [] {
      var init, last := sessions[..|sessions| - 1], sessions[|sessions| - 1];
      SessionsAreSafe(init);
      var before := Sessions(init, BLANK);
      hide Sound, Good, Execute, DieAfter, SessionStart;
      var s := Begin(last.cfg, last.command, before, last.tape);
      BeginIsSafe(last.cfg, last.command, before, last.tape);
      ExecuteIsSafe(last.cfg, last.command, s);
      DyingIsSound(Execute(last.cfg, last.command, s).sys, |before.trace| + last.life);
    }
  }
}
