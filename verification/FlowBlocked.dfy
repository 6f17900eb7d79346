// Runs that block a resume: one that the server has lost, for ever; one that failed, once.
module FlowBlocked {
  import opened Json
  import opened Text
  import opened Options
  import opened GovernanceReceipts
  import opened ReplyFields
  import opened FlowState
  import opened FlowSpec
  import opened FlowSafety
  import opened FlowPromises
  import opened FlowRecovery
  import opened FlowRequests
  import opened FlowPolls
  import opened FlowHelp
  import opened FlowCompletion

  // ---- How polls end ----

  /** Among this many polls one finds no such run, and those before it find it unfinished. */
  predicate MissingAmong(tape: seq<Reply>, polls: nat) {
    polls != 0 && tape != [] &&
      (|| IsMissing(tape[0])
       || (AsAccepted(tape[0]).Ok? && !IsFinished(AsAccepted(tape[0]).value) && MissingAmong(tape[1..], polls - 1)))
  }

  /** Among this many polls one finds the run failed, and those before it find it unfinished. */
  predicate FailedAmong(tape: seq<Reply>, polls: nat) {
    polls != 0 && tape != [] && !IsMissing(tape[0]) && AsAccepted(tape[0]).Ok? &&
      var data := AsAccepted(tape[0]).value;
      if IsFinished(data) then IsFailed(RunStatus(data)) else FailedAmong(tape[1..], polls - 1)
  }

  predicate IsRunFailure(out: Outcome<()>) {
    out.Err? && out.failure.RunFailed?
  }

  /** Neither reading a reply nor taking a result ends like that. */
  lemma ReadingIsNoRunError(reply: Reply)
    ensures AsAccepted(reply).Err? ==> !AsAccepted(reply).failure.RunNotFound? && !AsAccepted(reply).failure.RunFailed?
  {
  }

  lemma SelectingIsNoRunError(cfg: Config, data: Json)
    ensures var out := Select(cfg, data); out.Err? ==> !out.failure.RunNotFound? && !out.failure.RunFailed?
  {
  }

  lemma ReceivingIsNoRunError(cfg: Config, data: Json, candidate: string)
    ensures var out := ReadReceipt(cfg, data, candidate);
      out.Err? ==> !out.failure.RunNotFound? && !out.failure.RunFailed?
  {
    hide Normalize, IsConfirmed;
  }

  lemma TakingIsNoRunError(cfg: Config, s: Sys, data: Json)
    ensures var out := TakeResult(cfg, s, data).out;
      out != Err(RunNotFound) && !IsRunFailure(out)
  {
    hide Select, ReadReceipt, ClaimIdOf, ClaimRefOf, RecoveredRegistrationIdOf, ContextIdOf, Receipted, Persist, Learn;
    SelectingIsNoRunError(cfg, data);
    ReceivingIsNoRunError(cfg, data, Current(s).candidate);
  }

  /** What the polls make of the record when they end badly. */
  predicate EndsBadly(s: Sys, r: Run<()>, terminal: bool) {
    && r.sys.mem.rec.Some? && r.sys.disk.latest == r.sys.mem.rec
    && var rec, now := Current(s), Current(r.sys);
       now == rec.(status := now.status, errorCode := now.errorCode, terminal := terminal, updatedAt := now.updatedAt)
  }

  lemma NoteEndsBadly(s: Sys, r: Record, out: Outcome<()>)
    requires r == Current(s).(status := r.status, errorCode := r.errorCode, terminal := r.terminal)
    ensures EndsBadly(s, Run(Persist(s, r), out), r.terminal)
  {
  }

  lemma {:induction false} PollsEnd(cfg: Config, s: Sys, paths: seq<string>, last: string)
    requires s.mem.rec.Some?
    ensures var r := PollPaths(cfg, s, paths, last);
      && (r.out == Err(RunNotFound) <==> MissingAmong(s.tape, |paths|))
      && (IsRunFailure(r.out) <==> FailedAmong(s.tape, |paths|))
      && (MissingAmong(s.tape, |paths|) ==> EndsBadly(s, r, false))
      && (FailedAmong(s.tape, |paths|) ==> EndsBadly(s, r, true))
    decreases |paths|
  {
    hide TakeResult, Persist, IsFinished, IsFailed, RunStatus, AsAccepted, FailureCode;
    if paths != [] && s.tape != [] {
      var f := Fetch(s, Poll(paths[0])).sys;
      var reply := s.tape[0];
      ReadingIsNoRunError(reply);
      if IsMissing(reply) {
        NoteEndsBadly(f, Current(f).(status := "RUN_NOT_FOUND", errorCode := "RUN_NOT_FOUND", terminal := false),
                      Err(RunNotFound));
      } else if AsAccepted(reply).Ok? {
        var data := AsAccepted(reply).value;
        if !IsFinished(data) {
          PollsEnd(cfg, f, paths[1..], if RunStatus(data) != "" then RunStatus(data) else "pending");
        } else if IsFailed(RunStatus(data)) {
          var code := if FailureCode(data) != "" then FailureCode(data) else "RUN_FAILED";
          NoteEndsBadly(f, Current(f).(status := code, errorCode := code, terminal := true), Err(RunFailed(code)));
        } else {
          TakingIsNoRunError(cfg, f, data);
        }
      }
    }
  }

  /** A recovery ends with RUN_NOT_FOUND exactly if a poll finds no such run, those before it being unfinished; and with
      the failure of the run exactly if a poll finds it failed. */
  lemma RecoveryEnds(cfg: Config, s: Sys)
    requires s.mem.rec.Some?
    ensures var r, polls := Recover(cfg, s), Polls(Current(s));
      && (r.out == Err(RunNotFound) <==> MissingAmong(s.tape, polls))
      && (IsRunFailure(r.out) <==> FailedAmong(s.tape, polls))
      && (MissingAmong(s.tape, polls) ==> EndsBadly(s, r, false))
      && (FailedAmong(s.tape, polls) ==> EndsBadly(s, r, true))
  {
    var rec := Current(s);
    PollsEnd(cfg, s, SavedPaths(rec.runId, rec.pollUrl), "pending");
    hide EndsBadly, PollPaths, IsMissing, AsAccepted, IsFinished, IsFailed, RunStatus;
  }

  // ---- Only a recovery says that a run was not found ----

  predicate SaysLost<T>(out: Outcome<T>) {
    out.Err? && out.failure.RunNotFound?
  }

  lemma {:induction false} WaitRoundNeverSaysLost(s: Sys, paths: seq<string>)
    ensures !SaysLost(WaitRound(s, paths).out)
    decreases |paths|
  {
    hide AsAccepted, IsFinished, IsFailed, RunStatus, FailureCode;
    if paths != [] && s.tape != [] {
      ReadingIsNoRunError(s.tape[0]);
      var r := Call(s, Poll(paths[0]));
      if r.out.Ok? && !IsFinished(r.out.value) {
        WaitRoundNeverSaysLost(r.sys, paths[1..]);
      }
    }
  }

  lemma {:induction false} WaitNeverSaysLost(s: Sys, paths: seq<string>)
    requires paths != []
    ensures !SaysLost(Wait(s, paths).out)
    decreases |s.tape|
  {
    if !(s.tape != [] && s.tape[0].TimeUp?) {
      WaitRoundNeverSaysLost(s, paths);
      var r := WaitRound(s, paths);
      if r.out.Ok? && r.out.value.None? {
        WaitNeverSaysLost(r.sys, paths);
      }
    }
  }

  lemma CallNeverSaysLost(s: Sys, request: Request, action: Action)
    ensures !SaysLost(CallAndSettle(s, request, action).out)
  {
    hide AsAccepted, RunStatus, RunIdOf, PollUrlOf, IsActive, Wait, Persist;
    if s.tape != [] {
      ReadingIsNoRunError(s.tape[0]);
      var r := Call(s, request);
      if r.out.Ok? {
        SettleNeverSaysLost(r.sys, r.out.value, action);
      }
    }
  }

  lemma SettleNeverSaysLost(s: Sys, data: Json, action: Action)
    ensures !SaysLost(Settle(s, data, action).out)
  {
    hide RunStatus, RunIdOf, PollUrlOf, IsActive, Wait, Persist, WaitPaths;
    if RunIdOf(data) != "" || PollUrlOf(data) != "" {
      PathsExist(RunIdOf(data), PollUrlOf(data));
      var rec := Current(s).(step := PendingPhase(action), status := RunStatus(data), terminal := false,
                             runId := RunIdOf(data), pollUrl := PollUrlOf(data));
      WaitNeverSaysLost(Persist(s, rec), WaitPaths(RunIdOf(data), PollUrlOf(data)));
    }
  }

  lemma GapNeverSaysLost(cfg: Config, s: Sys)
    ensures !SaysLost(ResolveGap(cfg, s).out)
  {
    hide CallAndSettle, StartsWith;
    CallNeverSaysLost(s, ListGaps(true), Discovering);
    CallNeverSaysLost(QueryGaps(cfg, s, true).sys, ListGaps(false), Discovering);
  }

  lemma RefreshNeverSaysLost(cfg: Config, s: Sys)
    ensures !SaysLost(RefreshGap(cfg, s).out)
  {
    hide ResolveGap, Persist;
    GapNeverSaysLost(cfg, s.(mem := s.mem.(resolvedGap := "")));
  }

  lemma ClaimNeverSaysLost(cfg: Config, s: Sys)
    ensures !SaysLost(EnsureClaim(cfg, s).out)
  {
    hide RefreshGap, ResolveGap, CanonicalDigest, CallAndSettle, Persist, ContextIdOf, ClaimIdOf, ClaimRefOf;
    RefreshNeverSaysLost(cfg, s);
    var f := RefreshGap(cfg, s).sys;
    DigestNeverFails(f);
    CallNeverSaysLost(CanonicalDigest(f).sys, CompilePreclaim, PreclaimCompiling);
    GapNeverSaysLost(cfg, ClaimDigest(f).sys);
    var p := PrepareClaim(cfg, s);
    if p.out.Ok? {
      CallNeverSaysLost(p.sys, ClaimGap(p.out.value.0), Claiming);
    }
  }

  lemma DigestNeverFails(s: Sys)
    ensures !CanonicalDigest(s).out.Err?
  {
  }

  lemma AdvanceNeverSaysLost(cfg: Config, s: Sys)
    ensures !SaysLost(Advance(cfg, s).out)
  {
    hide EnsureGap, EnsureClaim, EnsureRegistration, EnsureContext, EnsureReceipt;
    EnsureGapNeverSaysLost(cfg, s);
    var g := EnsureGap(cfg, s).sys;
    ClaimNeverSaysLost(cfg, g);
    var c := EnsureClaim(cfg, g).sys;
    RegistrationNeverSaysLost(c);
    var r := EnsureRegistration(c).sys;
    ContextNeverSaysLost(r);
    ReceiptNeverSaysLost(cfg, EnsureContext(r).sys);
  }

  lemma EnsureGapNeverSaysLost(cfg: Config, s: Sys)
    ensures !SaysLost(EnsureGap(cfg, s).out)
  {
    hide ResolveGap, Persist;
    GapNeverSaysLost(cfg, s);
  }

  lemma RegistrationNeverSaysLost(s: Sys)
    ensures !SaysLost(EnsureRegistration(s).out)
  {
    hide CanonicalDigest, CallAndSettle, RegistrationIdOf, Persist;
    DigestNeverFails(s);
    var d := ClaimedDigest(s).sys;
    var rec := Current(d);
    CallNeverSaysLost(d, RegisterRepo(rec.gapId, rec.claimId, rec.claimRef), Registering);
  }

  lemma ContextNeverSaysLost(s: Sys)
    ensures !SaysLost(EnsureContext(s).out)
  {
    hide CanonicalDigest, CallAndSettle, ContextIdOf, Persist;
    DigestNeverFails(s);
    var d := CanonicalDigest(s).sys;
    CallNeverSaysLost(d, CompileContext(Current(d).registrationId), Compiling);
  }

  lemma ReceiptNeverSaysLost(cfg: Config, s: Sys)
    ensures !SaysLost(EnsureReceipt(cfg, s).out)
  {
    hide CallAndSettle, Normalize, IsConfirmed, Persist;
    var contextId := Current(s).contextId;
    var candidate := cfg.candidateFor(contextId);
    CallNeverSaysLost(Persist(s, Current(s).(candidate := candidate)), Realize(contextId, candidate), Realizing);
  }

  lemma DiscoverNeverSaysLost(cfg: Config, s: Sys)
    ensures !SaysLost(Discover(cfg, s).out)
  {
  }

  /** The answers that the polls of a resume get. */
  function PollTape(s: Sys): seq<Reply> {
    if s.tape == [] then [] else s.tape[1..]
  }

  /** A resume ends with RUN_NOT_FOUND exactly if the repository reads, the server is discovered, and one of the polls
      that the saved record asks for finds no such run after unfinished ones. */
  lemma ResumeEndsWithLostRun(cfg: Config, s: Sys)
    requires Starting(cfg, s) && s.disk.latest.Some?
    ensures Resume(cfg, s, true).out == Err(RunNotFound)
            <==> cfg.declarationReads && Discover(cfg, Load(cfg, s).sys).out.Ok?
                 && MissingAmong(PollTape(s), Polls(s.disk.latest.value))
  {
    hide Starting, Discover, Recover, Advance, Load, MissingAmong, Polls, Persist;
    OpensFromDisk(cfg, s);
    if cfg.declarationReads {
      var o := Load(cfg, s).sys;
      DiscoverNeverSaysLost(cfg, o);
      var d := Discover(cfg, o);
      if d.out.Ok? {
        DiscoverTakesOne(cfg, o);
        RecoveryEnds(cfg, d.sys);
        AdvanceNeverSaysLost(cfg, Recover(cfg, d.sys).sys);
      }
    }
  }

  lemma OpensFromDisk(cfg: Config, s: Sys)
    requires s.disk.latest.Some?
    ensures var o := Open(cfg, s, true);
      if cfg.declarationReads
      then o == Load(cfg, s) && o.out.Ok? && o.sys.mem.rec == s.disk.latest && o.sys.tape == s.tape
      else !o.out.Ok? && !SaysLost(o.out)
  {
  }

  lemma DiscoverTakesOne(cfg: Config, s: Sys)
    requires Discover(cfg, s).out.Ok?
    ensures s.tape != [] && Discover(cfg, s).sys.tape == s.tape[1..] && Discover(cfg, s).sys.mem.rec == s.mem.rec
    ensures Discover(cfg, s).sys.disk == s.disk
  {
    hide AsObject;
  }

  // ---- A lost run blocks every resume ----

  /** Status, error code and time stamp apart, the same record. */
  predicate NotedFrom(a: Record, b: Record) {
    b == a.(status := b.status, errorCode := b.errorCode, updatedAt := b.updatedAt)
  }

  /** Nothing but questions about the server and the run, and notes of their outcome. */
  predicate IsNote(e: Event) {
    match e
    case Sent(request, _) => request.ReadCapabilities? || request.Poll?
    case Saved(before, r) => before.Some? && NotedFrom(before.value, r)
    case Resolved(_) => false
    case _ => true
  }

  predicate OnlyNotes(s: Sys, s': Sys) {
    s.trace <= s'.trace && forall k :: |s.trace| <= k < |s'.trace| ==> IsNote(s'.trace[k])
  }

  lemma NotesOn(a: Sys, b: Sys, c: Sys)
    requires OnlyNotes(a, b) && OnlyNotes(b, c)
    ensures OnlyNotes(a, c)
  {
    hide IsNote;
    forall k | |a.trace| <= k < |c.trace| ensures IsNote(c.trace[k]) {
      if k < |b.trace| {
        assert c.trace[k] == b.trace[k];
      }
    }
  }

  lemma NoNotes(s: Sys)
    ensures OnlyNotes(s, s)
  {
  }

  lemma FetchNotes(s: Sys, request: Request)
    requires request.ReadCapabilities? || request.Poll?
    ensures OnlyNotes(s, Fetch(s, request).sys)
  {
  }

  lemma PersistNotes(s: Sys, r: Record)
    requires s.disk.latest.Some? && NotedFrom(s.disk.latest.value, r)
    ensures OnlyNotes(s, Persist(s, r))
  {
  }

  lemma DiscoverNotes(cfg: Config, s: Sys)
    ensures OnlyNotes(s, Discover(cfg, s).sys)
  {
    FetchNotes(s, ReadCapabilities);
    hide Fetch, AsObject, IsNote;
  }

  lemma {:induction false} PollsOnlyNote(cfg: Config, s: Sys, paths: seq<string>, last: string)
    requires s.mem.rec.Some? && s.disk.latest == s.mem.rec && !s.mem.rec.value.terminal && paths != []
    requires s.tape == [] || MissingAmong(s.tape, |paths|)
    ensures OnlyNotes(s, PollPaths(cfg, s, paths, last).sys) && !PollPaths(cfg, s, paths, last).out.Ok?
    decreases |paths|
  {
    hide OnlyNotes, TakeResult, Persist, IsFinished, IsFailed, RunStatus, AsAccepted, FailureCode;
    FetchNotes(s, Poll(paths[0]));
    if s.tape != [] {
      var f := Fetch(s, Poll(paths[0])).sys;
      if IsMissing(s.tape[0]) {
        var rec := Current(f).(status := "RUN_NOT_FOUND", errorCode := "RUN_NOT_FOUND", terminal := false);
        PersistNotes(f, rec);
        NotesOn(s, f, Persist(f, rec));
      } else {
        var data := AsAccepted(s.tape[0]).value;
        var next := if RunStatus(data) != "" then RunStatus(data) else "pending";
        assert paths[1..] != [];
        PollsOnlyNote(cfg, f, paths[1..], next);
        NotesOn(s, f, PollPaths(cfg, f, paths[1..], next).sys);
      }
    }
  }

  /** The answers that this command's polls get find no run, or there are none. */
  predicate FindsNoRun(command: Command, tape: seq<Reply>, polls: nat) {
    match command
    case RunCommand(dryRun) => !dryRun && (|tape| <= 2 || MissingAmong(tape[2..], polls))
    case ResumeCommand(useLast) => useLast && (|tape| <= 1 || MissingAmong(tape[1..], polls))
    case StatusCommand => |tape| <= 1 || MissingAmong(tape[1..], polls)
    case ReceiptCommand => true
  }

  /** A record that waits for a run is on the disk. */
  predicate WaitsForRun(s: Sys) {
    s.disk.latest.Some? && Polls(s.disk.latest.value) != 0
  }

  lemma RecoveryOnlyNotes(cfg: Config, s: Sys)
    requires WaitsForRun(s) && s.mem.rec == s.disk.latest
    requires |s.tape| <= 1 || MissingAmong(s.tape[1..], Polls(s.disk.latest.value))
    ensures var r := DiscoverAndRecover(cfg, s); OnlyNotes(s, r.sys) && !r.out.Ok?
  {
    hide OnlyNotes, Discover, PollPaths, MissingAmong, SavedPaths;
    DiscoverNotes(cfg, s);
    var d := Discover(cfg, s);
    if d.out.Ok? {
      DiscoverTakesOne(cfg, s);
      var rec := Current(d.sys);
      assert d.sys.tape == [] || MissingAmong(d.sys.tape, Polls(rec));
      var paths := SavedPaths(rec.runId, rec.pollUrl);
      PollsOnlyNote(cfg, d.sys, paths, "pending");
      NotesOn(s, d.sys, PollPaths(cfg, d.sys, paths, "pending").sys);
    }
  }

  lemma LostResume(cfg: Config, s: Sys)
    requires WaitsForRun(s) && (|s.tape| <= 1 || MissingAmong(s.tape[1..], Polls(s.disk.latest.value)))
    ensures OnlyNotes(s, Resume(cfg, s, true).sys)
  {
    hide OnlyNotes, DiscoverAndRecover, Advance, Polls, MissingAmong;
    NoNotes(s);
    OpensFromDisk(cfg, s);
    OpeningLeavesDisk(cfg, s);
    if cfg.declarationReads {
      var o := Open(cfg, s, true).sys;
      SameTraceSameNotes(s, o);
      RecoveryOnlyNotes(cfg, o);
      NotesOn(s, o, DiscoverAndRecover(cfg, o).sys);
    } else {
      SameTraceSameNotes(s, Open(cfg, s, true).sys);
    }
  }

  lemma SameTraceSameNotes(s: Sys, s': Sys)
    requires s'.trace == s.trace
    ensures OnlyNotes(s, s')
  {
  }

  lemma OpeningLeavesDisk(cfg: Config, s: Sys)
    requires s.disk.latest.Some?
    ensures var o := Open(cfg, s, true).sys; o.disk == s.disk && o.trace == s.trace
  {
  }

  lemma LostStatus(cfg: Config, s: Sys)
    requires WaitsForRun(s) && (|s.tape| <= 1 || MissingAmong(s.tape[1..], Polls(s.disk.latest.value)))
    ensures OnlyNotes(s, Status(cfg, s).sys)
  {
    hide OnlyNotes, DiscoverAndRecover, Polls, MissingAmong;
    var l := Load(cfg, s);
    assert l.sys.disk == s.disk && l.sys.tape == s.tape;
    SameTraceSameNotes(s, l.sys);
    if l.out.Ok? {
      RecoveryOnlyNotes(cfg, l.sys);
      NotesOn(s, l.sys, DiscoverAndRecover(cfg, l.sys).sys);
    }
  }

  lemma LostRunFlow(cfg: Config, s: Sys)
    requires WaitsForRun(s) && (|s.tape| <= 2 || MissingAmong(s.tape[2..], Polls(s.disk.latest.value)))
    ensures OnlyNotes(s, RunFlow(cfg, s, false).sys)
  {
    hide OnlyNotes, Discover, Resume, Polls, MissingAmong;
    NoNotes(s);
    DiscoverNotes(cfg, s);
    var d := Discover(cfg, s);
    if d.out.Ok? {
      DiscoverTakesOne(cfg, s);
      assert |s.tape| > 2 ==> d.sys.tape[1..] == s.tape[2..];
      LostResume(cfg, d.sys);
      NotesOn(s, d.sys, Resume(cfg, d.sys, true).sys);
    }
  }

  lemma LostCommand(cfg: Config, command: Command, s: Sys)
    requires WaitsForRun(s) && FindsNoRun(command, s.tape, Polls(s.disk.latest.value))
    ensures OnlyNotes(s, Execute(cfg, command, s).sys)
  {
    hide OnlyNotes, RunFlow, Resume, Status, Polls, MissingAmong;
    match command
    case RunCommand(_) => LostRunFlow(cfg, s);
    case ResumeCommand(_) => LostResume(cfg, s);
    case StatusCommand => LostStatus(cfg, s);
    case ReceiptCommand => SameTraceSameNotes(s, Load(cfg, s).sys);
  }

  lemma {:induction false} NotesKeepRecord(trace: seq<Event>, n: nat, k: nat)
    requires Lawful(trace) && n <= k <= |trace| && LatestAfter(trace[..n]).Some?
    requires forall i :: n <= i < k ==> IsNote(trace[i])
    ensures LatestAfter(trace[..k]).Some? && NotedFrom(LatestAfter(trace[..n]).value, LatestAfter(trace[..k]).value)
    decreases k
  {
    hide Lawful, MayHappen;
    if k > n {
      NotesKeepRecord(trace, n, k - 1);
      assert trace[..k][..k - 1] == trace[..k - 1] && IsNote(trace[k - 1]);
      if trace[k - 1].Saved? {
        PrefixIsLawful(trace, k - 1);
        SaveKeepsOrRestarts(trace[..k - 1], trace[k - 1], 0);
      }
    }
  }

  lemma NotedKeepsPolls(a: Record, b: Record)
    requires NotedFrom(a, b)
    ensures Polls(b) == Polls(a)
  {
    hide SavedPaths;
  }

  /** One invocation, wherever it dies. */
  lemma LostInvocation(session: Session, s: Sys)
    requires Sound(s) && WaitsForRun(s) && FindsNoRun(session.command, session.tape, Polls(s.disk.latest.value))
    ensures var s' := RunOne(session, s);
      && Sound(s') && OnlyNotes(s, s') && s'.disk.latest.Some?
      && NotedFrom(s.disk.latest.value, s'.disk.latest.value)
  {
    hide Sound, Good, Starting, Begin, Execute, DieAfter, Polls, MissingAmong, OnlyNotes, NotedFrom, FindsNoRun,
         Progress, SessionStart;
    var b := Begin(session.cfg, session.command, s, session.tape);
    BeginIsNoted(session, s);
    LostCommand(session.cfg, session.command, b);
    var full := Execute(session.cfg, session.command, b).sys;
    NotesOn(s, b, full);
    BeginIsSafe(session.cfg, session.command, s, session.tape);
    ExecuteIsSafe(session.cfg, session.command, b);
    InvocationKeepsRuns(session, s);
    CutIsNoted(s, full, |s.trace| + session.life);
  }

  lemma BeginIsNoted(session: Session, s: Sys)
    ensures var b := Begin(session.cfg, session.command, s, session.tape);
      OnlyNotes(s, b) && b.tape == session.tape && b.disk == s.disk
  {
  }

  lemma CutIsNoted(s: Sys, full: Sys, events: nat)
    requires Sound(s) && Good(full) && OnlyNotes(s, full) && s.disk.latest.Some? && |s.trace| <= events
    ensures var s' := DieAfter(full, events);
      && OnlyNotes(s, s') && s'.disk.latest.Some? && NotedFrom(s.disk.latest.value, s'.disk.latest.value)
  {
    hide IsNote, Inv, IdsBelow, RunsAfter, LatestAfter, Lawful, NotedFrom;
    var s' := DieAfter(full, events);
    var k := |s'.trace|;
    assert s'.trace == full.trace[..k] && full.trace[..|s.trace|] == s.trace;
    assert s'.disk.latest == LatestAfter(full.trace[..k]);
    NotesKeepRecord(full.trace, |s.trace|, k);
  }

  /**
   * A run that the server has lost is never given up: as long as the polls of every invocation find no run, however
   * many there are and wherever they die, nothing is sent but questions about the server and the run, and the record
   * stays the same up to its status, its error code and its time stamp. In particular it goes on asking for the run.
   */
  lemma {:induction false} LostRunIsNeverGivenUp(sessions: seq<Session>, s: Sys)
    requires Sound(s) && WaitsForRun(s)
    requires forall session :: session in sessions ==>
               FindsNoRun(session.command, session.tape, Polls(s.disk.latest.value))
    ensures var s' := Sessions(sessions, s);
      && Sound(s') && OnlyNotes(s, s') && s'.disk.latest.Some?
      && NotedFrom(s.disk.latest.value, s'.disk.latest.value)
      && Polls(s'.disk.latest.value) == Polls(s.disk.latest.value)
  {
    NoNotes(s);
    hide Sound, OnlyNotes, RunOne, FindsNoRun, Polls;
    if sessions != [] {
      var init, last := sessions[..|sessions| - 1], sessions[|sessions| - 1];
      LostRunIsNeverGivenUp(init, s);
      var before := Sessions(init, s);
      LostInvocation(last, before);
      NotesOn(s, before, RunOne(last, before));
      NotedKeepsPolls(before.disk.latest.value, RunOne(last, before).disk.latest.value);
    }
  }

  // ---- A failed run blocks one resume ----

  lemma FailedRecovery(cfg: Config, s: Sys)
    requires s.mem.rec.Some? && FailedAmong(PollTape(s), Polls(Current(s))) && Discover(cfg, s).out.Ok?
    ensures var r := DiscoverAndRecover(cfg, s); IsRunFailure(r.out) && EndsBadly(s, r, true)
  {
    hide Discover, Recover, Polls, FailedAmong;
    DiscoverTakesOne(cfg, s);
    RecoveryEnds(cfg, Discover(cfg, s).sys);
  }

  lemma EndedRecord(s: Sys, r: Run<()>)
    requires EndsBadly(s, r, true)
    ensures var now := Current(r.sys);
      && r.sys.disk.latest == Some(now) && Polls(now) == 0
      && now.runId == Current(s).runId && now.pollUrl == Current(s).pollUrl
      && Keeps(Current(s), now) && now.step == Current(s).step
  {
  }

  /** A resume whose polls find the run failed ends with that failure and asks for no step. The record keeps the run
      but is terminal then, so that it is not polled again. */
  lemma FailedRunEndsTheResume(cfg: Config, s: Sys)
    requires Starting(cfg, s) && s.disk.latest.Some? && cfg.declarationReads && Discover(cfg, Load(cfg, s).sys).out.Ok?
    requires FailedAmong(PollTape(s), Polls(s.disk.latest.value))
    ensures var r, rec := Resume(cfg, s, true), s.disk.latest.value;
      && r.out.Err? && r.out.failure.RunFailed? && Asked(s.trace, r.sys.trace) == []
      && r.sys.disk.latest.Some?
      && var now := r.sys.disk.latest.value;
         && Keeps(rec, now) && now.step == rec.step && now.runId == rec.runId && now.pollUrl == rec.pollUrl
         && now.terminal && Polls(now) == 0
  {
    hide Starting, Discover, DiscoverAndRecover, Advance, Load, FailedAmong, Polls, Resume, EndsBadly, Keeps, Asked,
         Due, Prepared;
    OpensFromDisk(cfg, s);
    var o := Load(cfg, s).sys;
    FailedRecovery(cfg, o);
    var d := DiscoverAndRecover(cfg, o);
    EndedRecord(o, d);
    EndedIsTerminal(o, d);
    ResumeEnds(cfg, s);
    ResumeAsksWhatIsDue(cfg, s);
    PreparedIs(cfg, s);
  }

  lemma EndedIsTerminal(s: Sys, r: Run<()>)
    requires EndsBadly(s, r, true)
    ensures Current(r.sys).terminal
  {
  }

  lemma PreparedIs(cfg: Config, s: Sys)
    ensures var o := Open(cfg, s, true);
      Prepared(cfg, s) == if o.out.Ok? then DiscoverAndRecover(cfg, o.sys) else o
  {
  }

  lemma ResumeEnds(cfg: Config, s: Sys)
    ensures var o := Open(cfg, s, true);
      var d := DiscoverAndRecover(cfg, o.sys);
      o.out.Ok? && !d.out.Ok? ==> Resume(cfg, s, true) == Run(d.sys, d.out.Fail())
  {
    hide Open, DiscoverAndRecover, Advance;
  }

  /** One more resume suffices: with a helpful server it does not ask for the run and completes the flow. */
  lemma FailedRunBlocksOnce(cfg: Config, s: Sys, h: Help)
    requires Starting(cfg, s) && s.disk.latest.Some? && IsReady(cfg) && Helps(cfg, h)
    requires Discover(cfg, Load(cfg, s).sys).out.Ok?
    requires FailedAmong(PollTape(s), Polls(s.disk.latest.value))
    ensures var r := Resume(cfg, s, true).sys;
      var b := Begin(cfg, ResumeCommand(true), r, Script(cfg, FirstRecord(r), h));
      var again := Resume(cfg, b, true);
      && Script(cfg, FirstRecord(r), h) == [Says(h.capabilities)] + AdvanceScript(cfg, FirstRecord(r), h)
      && again.out.Ok? && Progress(again.out.value) == 5 && IsWhole(again.out.value)
  {
    hide Starting, Good, IsReady, Helps, Discover, Load, FailedAmong, Polls, Resume, Asked, Keeps, Progress,
         IsWhole, AdvanceScript, PollScript, Sound, SessionStart, Asking, SavedNow;
    ReadyReads(cfg);
    FailedRunEndsTheResume(cfg, s);
    ResumeIsSafe(cfg, s, true);
    var r := Resume(cfg, s, true).sys;
    GoodIsSound(r);
    var tape := Script(cfg, FirstRecord(r), h);
    BeginIsSafe(cfg, ResumeCommand(true), r, tape);
    BeginReads(cfg, r, tape);
    var b := Begin(cfg, ResumeCommand(true), r, tape);
    ResumeFinishes(cfg, b, h);
    ResumeIsSafe(cfg, b, true);
    NoScript(h);
    assert [] + AdvanceScript(cfg, FirstRecord(r), h) == AdvanceScript(cfg, FirstRecord(r), h);
  }

  lemma ReadyReads(cfg: Config)
    requires IsReady(cfg)
    ensures cfg.declarationReads
  {
  }

  // ---- A failed run that was superseded ----

  /** A registration that is answered at once is saved next to the old run, and the record is open again. */
  lemma RegisteredKeepsRun(s: Sys, h: Help, rest: seq<Reply>)
    requires s.mem.rec.Some? && !Current(s).HasRegistration() && Current(s).claimDigest != ""
    requires IsAnswer(h.registration) && !TripsReader(h.registration) && RegistrationIdOf(h.registration) != ""
    requires s.tape == [Says(h.registration)] + rest
    ensures var r := EnsureRegistration(s);
      && r.out.Ok? && r.sys.tape == rest && r.sys.disk.latest == r.sys.mem.rec && r.sys.mem.rec.Some?
      && var now := Current(r.sys);
         && now.HasRegistration() && !now.terminal && now.runId == Current(s).runId && now.pollUrl == Current(s).pollUrl
         && now.contextId == Current(s).contextId
  {
    hide CallAndSettle, IsAnswer, RegistrationIdOf;
    var rec := Current(s);
    AnswerIsTaken(s, RegisterRepo(rec.gapId, rec.claimId, rec.claimRef), Registering, h.registration, rest);
  }

  lemma DieOnContext(s: Sys)
    requires !Current(s).HasContext() && s.tape == []
    ensures var r := EnsureContext(s); !r.out.Ok? && r.sys.disk == s.disk
  {
  }

  /** The phases up to that death. */
  lemma AdvanceToDeath(cfg: Config, s: Sys, h: Help)
    requires s.mem.rec.Some? && Inv(Current(s)) && Helps(cfg, h) && s.tape == [Says(h.registration)]
    requires var rec := Current(s);
      rec.HasClaim() && !rec.HasRegistration() && !rec.HasContext() && rec.claimDigest != "" && rec.HasRun()
    ensures var r := Advance(cfg, s);
      && !r.out.Ok? && r.sys.disk.latest.Some?
      && var now := r.sys.disk.latest.value;
         && now.HasRegistration() && !now.HasContext() && !now.terminal
         && now.runId == Current(s).runId && now.pollUrl == Current(s).pollUrl
  {
    hide Helps, Inv, IsAnswer, RegistrationIdOf, EnsureGap, EnsureClaim, EnsureRegistration, EnsureContext,
         EnsureReceipt;
    NothingToClaim(cfg, s);
    RegistrationHelps(cfg, h);
    assert s.tape == [Says(h.registration)] + [];
    RegisteredKeepsRun(s, h, []);
    DieOnContext(EnsureRegistration(s).sys);
  }

  lemma NothingToClaim(cfg: Config, s: Sys)
    requires Inv(Current(s)) && Current(s).HasClaim()
    ensures EnsureGap(cfg, s) == Run(s, Ok(())) && EnsureClaim(cfg, s) == Run(s, Ok(()))
  {
    ClaimedHasGap(Current(s));
    hide Inv, MakeClaim, ResolveGap;
  }

  lemma ClaimedHasGap(r: Record)
    requires Inv(r) && r.HasClaim()
    ensures r.HasGap()
  {
  }

  lemma RegistrationHelps(cfg: Config, h: Help)
    requires Helps(cfg, h)
    ensures IsAnswer(h.registration) && !TripsReader(h.registration) && RegistrationIdOf(h.registration) != ""
  {
  }

  /**
   * A failed run that was superseded blocks again. The resume after the failure registers anew and is answered at
   * once, but its process dies before the end; the record is open then and still holds the failed run, so that the
   * next resume polls it, ends with its failure, and asks for no step. As always, one more resume suffices.
   */
  lemma SupersededRunBlocksAgain(cfg: Config, s: Sys, h: Help, polls: seq<Reply>)
    requires Starting(cfg, s) && IsReady(cfg) && Helps(cfg, h) && s.disk.latest.Some?
    requires var rec := s.disk.latest.value;
      && rec.terminal && rec.HasRun() && rec.HasClaim() && rec.claimDigest != "" && !rec.HasRegistration()
      && !rec.HasContext() && FailedAmong(polls, Polls(rec.(terminal := false)))
    requires s.tape == [Says(h.capabilities), Says(h.registration)]
    ensures var r := Resume(cfg, s, true).sys;
      var b := Begin(cfg, ResumeCommand(true), r, [Says(h.capabilities)] + polls);
      var again := Resume(cfg, b, true);
      && r.disk.latest.Some? && Progress(r.disk.latest.value) == 3
      && again.out.Err? && again.out.failure.RunFailed? && Asked(b.trace, again.sys.trace) == []
  {
    hide Starting, Good, IsReady, Helps, Discover, Load, FailedAmong, Polls, Resume, Asked, Keeps, Progress,
         IsWhole, Sound, SessionStart, Asking, SavedNow;
    ReadyReads(cfg);
    ResumeIsSafe(cfg, s, true);
    DeadRegistration(cfg, s, h);
    var r := Resume(cfg, s, true).sys;
    var now := r.disk.latest.value;
    GoodIsSound(r);
    var tape := [Says(h.capabilities)] + polls;
    var b := Begin(cfg, ResumeCommand(true), r, tape);
    BeginIsSafe(cfg, ResumeCommand(true), r, tape);
    BeginReads(cfg, r, tape);
    DiscoversAgain(cfg, b, h, polls);
    SameRunSamePolls(s.disk.latest.value.(terminal := false), now);
    assert PollTape(b) == polls;
    FailedRunEndsTheResume(cfg, b);
  }

  lemma SameRunSamePolls(r: Record, r': Record)
    requires r'.runId == r.runId && r'.pollUrl == r.pollUrl && r'.terminal == r.terminal
    ensures Polls(r') == Polls(r)
  {
    hide SavedPaths;
  }

  lemma DeadRegistration(cfg: Config, s: Sys, h: Help)
    requires Starting(cfg, s) && IsReady(cfg) && Helps(cfg, h) && s.disk.latest.Some?
    requires var rec := s.disk.latest.value;
      && rec.terminal && rec.HasRun() && rec.HasClaim() && rec.claimDigest != "" && !rec.HasRegistration()
      && !rec.HasContext()
    requires s.tape == [Says(h.capabilities), Says(h.registration)]
    ensures var r := Resume(cfg, s, true).sys;
      && r.disk.latest.Some?
      && var now := r.disk.latest.value;
         && now.HasRegistration() && !now.terminal && Progress(now) == 3
         && now.runId == s.disk.latest.value.runId && now.pollUrl == s.disk.latest.value.pollUrl
  {
    hide Starting, Good, IsReady, Helps, Discover, Load, Open, Resume, Inv, Advance, Prepared;
    var rec := s.disk.latest.value;
    var after := [Says(h.registration)];
    assert s.tape == [Says(h.capabilities)] + after;
    ClientIsReady(cfg, s, h, after);
    NothingIsPolled(cfg, s);
    ResumeIsAdvance(cfg, s);
    SavedIsInvariant(cfg, s);
    var p := Prepared(cfg, s);
    AdvanceToDeath(cfg, p.sys, h);
    ResumeIsSafe(cfg, s, true);
    RegisteredIsThree(Resume(cfg, s, true).sys);
  }

  lemma RegisteredIsThree(s: Sys)
    requires Good(s) && s.disk.latest.Some?
    requires s.disk.latest.value.HasRegistration() && !s.disk.latest.value.HasContext()
    ensures Progress(s.disk.latest.value) == 3
  {
    hide Lawful, LatestAfter, RunsAfter, IdsBelow;
  }
}
