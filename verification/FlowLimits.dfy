// Where the promises of the flow end: settled records, dry runs, and resumes that ignore the saved record.
module FlowLimits {
  import opened Json
  import opened Options
  import opened GovernanceReceipts
  import opened ReplyFields
  import opened FlowState
  import opened FlowSpec
  import opened FlowSafety
  import opened FlowPromises

  // ---- A settled record absorbs every further command ----

  /** Events that change nothing on the server. */
  predicate IsHarmless(e: Event) {
    e.Started? || e.Got? || (e.Sent? && e.request.ReadCapabilities?)
  }

  /** s' came from s by harmless events only, and the disk is the same. */
  predicate Untouched(s: Sys, s': Sys) {
    && s'.disk == s.disk
    && s.trace <= s'.trace
    && forall k :: |s.trace| <= k < |s'.trace| ==> IsHarmless(s'.trace[k])
  }

  lemma UntouchedTwice(a: Sys, b: Sys, c: Sys)
    requires Untouched(a, b) && Untouched(b, c)
    ensures Untouched(a, c)
  {
    forall k | |a.trace| <= k < |c.trace| ensures IsHarmless(c.trace[k]) {
      if k < |b.trace| {
        assert c.trace[k] == b.trace[k];
      }
    }
  }

  lemma DiscoverIsHarmless(cfg: Config, s: Sys)
    ensures var r := Discover(cfg, s).sys; Untouched(s, r) && r.mem.rec == s.mem.rec
  {
  }

  lemma LoadIsHarmless(cfg: Config, s: Sys)
    ensures var r := Load(cfg, s); Untouched(s, r.sys) && (r.out.Ok? ==> r.sys.mem.rec == s.disk.latest)
  {
  }

  /** The phases have nothing left to do on a settled record. */
  lemma SettledAdvanceIsNothing(cfg: Config, s: Sys)
    requires s.mem.rec.Some? && s.mem.rec.value.IsSettled() && Inv(s.mem.rec.value)
    ensures Advance(cfg, s) == Run(s, Ok(()))
  {
    assert s.mem.rec.value.HasClaim() && s.mem.rec.value.HasGap();
    hide MakeClaim, Register, Compile, RealizeGoverned, ResolveGap;
  }

  /** The disk holds a finished flow. */
  predicate Settled(s: Sys) {
    s.disk.latest.Some? && s.disk.latest.value.IsSettled() && Inv(s.disk.latest.value)
  }

  lemma SettledResume(cfg: Config, s: Sys)
    requires Settled(s)
    ensures var r := Resume(cfg, s, true);
            Untouched(s, r.sys) && (r.out.Ok? ==> r.out.value == s.disk.latest.value)
  {
    LoadIsHarmless(cfg, s);
    var l := Load(cfg, s);
    if l.out.Ok? {
      DiscoveryIsAll(cfg, l.sys);
      DiscoverIsHarmless(cfg, l.sys);
      hide Discover, Inv, Untouched, Advance, Load;
      var d := DiscoverAndRecover(cfg, l.sys);
      if d.out.Ok? {
        SettledAdvanceIsNothing(cfg, d.sys);
      }
      UntouchedTwice(s, l.sys, d.sys);
    } else {
      hide Inv;
    }
  }

  /** A terminal record has no run to recover. */
  lemma DiscoveryIsAll(cfg: Config, s: Sys)
    requires s.mem.rec.Some? && s.mem.rec.value.terminal
    ensures DiscoverAndRecover(cfg, s).sys == Discover(cfg, s).sys
  {
    DiscoverIsHarmless(cfg, s);
    hide Discover, PollPaths;
  }

  lemma SettledStatus(cfg: Config, s: Sys)
    requires Settled(s)
    ensures var r := Status(cfg, s); Untouched(s, r.sys) && (r.out.Ok? ==> r.out.value == s.disk.latest.value)
  {
    LoadIsHarmless(cfg, s);
    var l := Load(cfg, s);
    if l.out.Ok? {
      DiscoveryIsAll(cfg, l.sys);
      DiscoverIsHarmless(cfg, l.sys);
      hide Discover, Inv, Untouched, Load;
      UntouchedTwice(s, l.sys, Discover(cfg, l.sys).sys);
    }
  }

  lemma SettledRun(cfg: Config, s: Sys)
    requires Settled(s)
    ensures var r := RunFlow(cfg, s, false);
            Untouched(s, r.sys) && (r.out.Ok? ==> r.out.value == Finished(s.disk.latest.value))
  {
    DiscoverIsHarmless(cfg, s);
    var d := Discover(cfg, s);
    if d.out.Ok? {
      SettledResume(cfg, d.sys);
      UntouchedTwice(s, d.sys, Resume(cfg, d.sys, true).sys);
    }
    hide Discover, Inv, Resume;
  }

  lemma SettledCommand(cfg: Config, command: Command, s: Sys, tape: seq<Reply>)
    requires !MayStartOver(command) && Settled(s)
    ensures var r := Execute(cfg, command, Begin(cfg, command, s, tape));
            && Untouched(s, r.sys)
            && (r.out.Ok? ==> r.out.value == Finished(s.disk.latest.value))
            && (command.ReceiptCommand? && cfg.declarationReads ==> r.out.Ok?)
  {
    var b := Begin(cfg, command, s, tape);
    assert Untouched(s, b);
    LoadIsHarmless(cfg, b);
    SettledRun(cfg, b);
    SettledResume(cfg, b);
    SettledStatus(cfg, b);
    hide Inv, RunFlow, Resume, Status, Untouched;
    UntouchedTwice(s, b, Execute(cfg, command, b).sys);
  }

  lemma {:induction false} HarmlessKeepsFiles(trace: seq<Event>, n: nat, k: nat)
    requires n <= k <= |trace| && forall i :: n <= i < |trace| ==> IsHarmless(trace[i])
    ensures LatestAfter(trace[..k]) == LatestAfter(trace[..n]) && RunsAfter(trace[..k]) == RunsAfter(trace[..n])
    decreases k
  {
    if k > n {
      HarmlessKeepsFiles(trace, n, k - 1);
      assert trace[..k][..k - 1] == trace[..k - 1] && IsHarmless(trace[k - 1]);
    }
  }

  lemma CutIsUntouched(s: Sys, full: Sys, k: nat)
    requires s.disk == Disk(LatestAfter(s.trace), RunsAfter(s.trace)) && Untouched(s, full) && |s.trace| <= k
    ensures Untouched(s, DieAfter(full, k))
  {
    if k < |full.trace| {
      HarmlessKeepsFiles(full.trace, |s.trace|, k);
      assert full.trace[..|s.trace|] == s.trace;
    }
  }

  /** The same if the process dies on the way. */
  lemma SettledInvocation(session: Session, s: Sys)
    requires !MayStartOver(session.command) && Settled(s) && Sound(s)
    ensures Untouched(s, RunOne(session, s)) && Sound(RunOne(session, s))
  {
    hide Execute, Inv, Lawful, IdsBelow, LatestAfter, RunsAfter, DieAfter, Untouched, Begin, Settled, MayStartOver;
    SettledCommand(session.cfg, session.command, s, session.tape);
    InvocationKeepsRuns(session, s);
    var full := Execute(session.cfg, session.command, Begin(session.cfg, session.command, s, session.tape)).sys;
    CutIsUntouched(s, full, |s.trace| + session.life);
  }

  /** Terminal absorption: once a finished flow with a named receipt is on the disk, any number of runs, resumes,
      status and receipt commands leaves the disk as it is and sends nothing but the discovery of the server. */
  lemma {:induction false} SettledIsAbsorbing(sessions: seq<Session>, s: Sys)
    requires forall session :: session in sessions ==> !MayStartOver(session.command)
    requires Settled(s) && Sound(s)
    ensures Untouched(s, Sessions(sessions, s)) && Sound(Sessions(sessions, s))
  {
    if sessions != [] {
      var init, last := sessions[..|sessions| - 1], sessions[|sessions| - 1];
      SettledIsAbsorbing(init, s);
      var before := Sessions(init, s);
      SettledInvocation(last, before);
      hide Untouched, RunOne, Sound, Inv;
      assert Settled(before) by { SettledStays(s, before); }
      UntouchedTwice(s, before, Sessions(sessions, s));
    }
  }

  lemma SettledStays(s: Sys, s': Sys)
    requires Settled(s) && Untouched(s, s')
    ensures Settled(s')
  {
  }

  // ---- A saved run that finished while nobody waited ----

  /** The steps of requests whose answer is outstanding. */
  predicate IsPending(step: Phase) {
    || step.GapDiscovery? || step.PreclaimContext? || step.GapClaim?
    || step.ContextCreate? || step.ContextCompile? || step.GovernedRealize?
  }

  /** Every pending step has its branch: after a recovery nothing is pending any more, except a discovery that
      matched no gap. */
  lemma RecoveryLeavesNothingPending(cfg: Config, rec: Record, source: string, data: Json)
    ensures var r := Recovered(cfg, rec, source, data);
            r.Ok? ==> (IsPending(r.value.step) <==> rec.step.GapDiscovery? && Select(cfg, data) == Ok(""))
    ensures forall action :: IsPending(PendingPhase(action))
  {
    hide Select, ReadReceipt, ClaimIdOf, ClaimRefOf, RecoveredRegistrationIdOf, ContextIdOf, Receipted;
    if rec.step.GovernedRealize? {
      RecoveredReceipt(cfg, rec, source, data);
      hide Recovered;
      var receipt := ReadReceipt(cfg, data, rec.candidate);
      if receipt.Ok? {
        assert Receipted(rec, receipt.value).step.ReceiptReady? by { ReceiptIsReady(rec, receipt.value); }
      }
    }
  }

  lemma ReceiptIsReady(rec: Record, receipt: Receipt)
    ensures Receipted(rec, receipt).step.ReceiptReady?
  {
  }

  // ---- Commands that do not keep to the saved record ----

  /** The k-th answer accepts a request and promises the result for later. */
  predicate AnswersLater(tape: seq<Reply>, k: nat) {
    k < |tape| && AsAccepted(tape[k]).Ok? && IsActive(RunStatus(AsAccepted(tape[k]).value))
  }

  /** The k-th answer is read at once and makes the client ask again. */
  predicate AsksAgain(cfg: Config, tape: seq<Reply>, k: nat) {
    && k < |tape| && cfg.storyId != ""
    && (|| AsAccepted(tape[k]).Err?
        || (AsAccepted(tape[k]).Ok? && (Select(cfg, AsAccepted(tape[k]).value).Err?
                                        || Select(cfg, AsAccepted(tape[k]).value) == Ok(""))))
  }

  /** A dry run has to ask the server for the gap, and the server answers "later". */
  predicate DryRunSaves(cfg: Config, tape: seq<Reply>) {
    && cfg.declarationReads && cfg.operatorGap == "" && cfg.envGap == ""
    && tape != [] && AsObject(tape[0]).Ok?
    && var c := cfg.readCapabilities(AsObject(tape[0]).value);
    && !((c.requiresClaim && !c.canClaim) || !c.canRegister || !c.canCompile || !c.canRealize)
    && c.gapId == "" && c.canDiscoverGaps
    && (AnswersLater(tape, 1) || (AsksAgain(cfg, tape, 1) && AnswersLater(tape, 2)))
  }

  lemma {:induction false} WaitRoundLeavesDisk(s: Sys, paths: seq<string>)
    ensures WaitRound(s, paths).sys.disk == s.disk && WaitRound(s, paths).sys.mem == s.mem
    decreases |paths|
  {
    if paths != [] {
      var r := Call(s, Poll(paths[0]));
      hide IsFinished, IsFailed, RunStatus, AsAccepted;
      if r.out.Ok? && !IsFinished(r.out.value) {
        WaitRoundLeavesDisk(r.sys, paths[1..]);
      }
    }
  }

  lemma {:induction false} WaitLeavesDisk(s: Sys, paths: seq<string>)
    requires paths != []
    ensures Wait(s, paths).sys.disk == s.disk && Wait(s, paths).sys.mem == s.mem
    decreases |s.tape|
  {
    if !(s.tape != [] && s.tape[0].TimeUp?) {
      WaitRoundLeavesDisk(s, paths);
      var r := WaitRound(s, paths);
      if r.out.Ok? && r.out.value.None? {
        WaitLeavesDisk(r.sys, paths);
      }
    }
  }

  /** The disk holds a record without any progress, and the client works on it. */
  predicate StartedOver(s: Sys) {
    s.mem.rec.Some? && s.disk.latest == s.mem.rec && Progress(s.mem.rec.value) == 0
  }

  /** A discovery by a client without a record: an answer for later starts a new record, any other leaves the disk. */
  lemma QueryWithoutRecord(cfg: Config, s: Sys, forStory: bool)
    requires s.mem.rec.None?
    ensures var r := QueryGaps(cfg, s, forStory);
            if AnswersLater(s.tape, 0) then StartedOver(r.sys)
            else
              && r.sys.disk == s.disk && r.sys.mem == s.mem
              && (s.tape == [] ==> r.out == Crash)
              && (s.tape != [] ==> r.sys.tape == s.tape[1..]
                                   && r.out == if AsAccepted(s.tape[0]).Ok?
                                               then Select(cfg, AsAccepted(s.tape[0]).value)
                                               else AsAccepted(s.tape[0]).Fail())
  {
    var r := Call(s, ListGaps(forStory));
    hide Select, AsAccepted, RunStatus, IsActive, RunIdOf, PollUrlOf, Wait;
    if r.out.Ok? && IsActive(RunStatus(r.out.value)) {
      SettleStartsOver(r.sys, r.out.value);
    }
  }

  lemma SettleStartsOver(s: Sys, data: Json)
    requires s.mem.rec.None? || StartedOver(s)
    requires IsActive(RunStatus(data))
    ensures StartedOver(Settle(s, data, Discovering).sys)
  {
    hide IsActive, RunStatus, RunIdOf, PollUrlOf;
    var s1 := Persist(s, Current(s).(step := GapDiscovery, status := RunStatus(data), terminal := false,
                                     runId := RunIdOf(data), pollUrl := PollUrlOf(data)));
    assert StartedOver(s1);
    if RunIdOf(data) != "" || PollUrlOf(data) != "" {
      WaitLeavesDisk(s1, WaitPaths(RunIdOf(data), PollUrlOf(data)));
    }
  }

  lemma QueryStartedOver(cfg: Config, s: Sys, forStory: bool)
    requires StartedOver(s)
    ensures StartedOver(QueryGaps(cfg, s, forStory).sys)
  {
    var r := Call(s, ListGaps(forStory));
    hide Select, AsAccepted, IsActive, RunStatus, Wait;
    if r.out.Ok? && IsActive(RunStatus(r.out.value)) {
      SettleStartsOver(r.sys, r.out.value);
    }
  }

  lemma DiscoverGapWithoutRecord(cfg: Config, s: Sys)
    requires s.mem.rec.None? && s.mem.capabilities.canDiscoverGaps
    ensures var r := DiscoverGap(cfg, s).sys;
            if AnswersLater(s.tape, 0) || (AsksAgain(cfg, s.tape, 0) && AnswersLater(s.tape, 1))
            then StartedOver(r) else r.disk == s.disk
  {
    hide QueryGaps, Select, AsAccepted, IsActive, RunStatus, StartedOver;
    QueryWithoutRecord(cfg, s, true);
    var first := QueryGaps(cfg, s, true);
    if cfg.storyId != "" && (first.out.Err? || first.out == Ok("")) {
      if AnswersLater(s.tape, 0) {
        QueryStartedOver(cfg, first.sys, false);
      } else {
        QueryWithoutRecord(cfg, first.sys, false);
      }
    }
  }

  /** A dry run is meant to change nothing. It keeps the saved progress exactly when the server does not answer its
      gap query with "later", or when there was no progress to lose; otherwise latest.json starts over. */
  lemma DryRunKeepsProgress(cfg: Config, s: Sys)
    requires Starting(cfg, s)
    ensures var r := RunFlow(cfg, s, true).sys;
            if DryRunSaves(cfg, s.tape) then ProgressOf(r.disk.latest) == 0 else r.disk == s.disk
    ensures ProgressOf(RunFlow(cfg, s, true).sys.disk.latest) >= ProgressOf(s.disk.latest) <==>
            !DryRunSaves(cfg, s.tape) || ProgressOf(s.disk.latest) == 0
  {
    hide Good, DiscoverGap, Progress, AnswersLater, AsksAgain, AsObject;
    if cfg.declarationReads {
      var d := Discover(cfg, s);
      if d.out.Ok? && cfg.operatorGap == "" && cfg.envGap == "" {
        var c := d.sys.mem.capabilities;
        if c.gapId == "" {
          ShiftedAnswers(cfg, s.tape);
          if c.canDiscoverGaps {
            DiscoverGapWithoutRecord(cfg, d.sys);
          } else {
            assert DiscoverGap(cfg, d.sys).sys.disk == d.sys.disk by { NoDiscovery(cfg, d.sys); }
          }
        }
      }
    }
  }

  lemma NoDiscovery(cfg: Config, s: Sys)
    requires !s.mem.capabilities.canDiscoverGaps
    ensures DiscoverGap(cfg, s).sys == s
  {
  }

  lemma ShiftedAnswers(cfg: Config, tape: seq<Reply>)
    requires tape != []
    ensures AnswersLater(tape[1..], 0) == AnswersLater(tape, 1)
    ensures AnswersLater(tape[1..], 1) == AnswersLater(tape, 2)
    ensures AsksAgain(cfg, tape[1..], 0) == AsksAgain(cfg, tape, 1)
  {
    hide AsAccepted, Select, IsActive, RunStatus;
  }

  // ---- A resume told to ignore the saved record ----

  lemma {:induction false} FiledIsBelow(trace: seq<Event>, n: nat)
    requires Lawful(trace) && IdsBelow(trace, n)
    ensures forall id :: id in RunsAfter(trace) ==> id < n
  {
    if trace != [] {
      var init, e := trace[..|trace| - 1], trace[|trace| - 1];
      FiledIsBelow(init, n);
      assert MayHappen(init, e);
      hide Lawful, MayHappen;
      if e.Filed? {
        FiledAfterSaved(init, e);
        SavedIsBelow(init, n);
        FiledIsSaved(init, e);
      }
    }
  }

  lemma FiledIsSaved(trace: seq<Event>, e: Event)
    requires MayHappen(trace, e) && e.Filed?
    ensures !Calm(trace) && e.record == trace[|trace| - 1].record
  {
  }

  lemma SavedIsBelow(trace: seq<Event>, n: nat)
    requires IdsBelow(trace, n) && !Calm(trace)
    ensures trace[|trace| - 1].record.runRecordId < n
  {
  }

  /** While a run goes on, the files of the other runs stay as they are. */
  lemma {:induction false} OtherFilesStay(trace: seq<Event>, i: nat, j: nat, id: nat, other: nat)
    requires Lawful(trace) && i <= j <= |trace| && Calm(trace[..i]) && other != id
    requires LatestAfter(trace[..i]).Some? && LatestAfter(trace[..i]).value.runRecordId == id
    requires forall k :: i <= k < j ==> !Restarts(trace[k])
    ensures RunFile(trace[..j], other) == RunFile(trace[..i], other)
    decreases j
  {
    hide Lawful, MayHappen, Restarts;
    if i < j {
      OtherFilesStay(trace, i, j - 1, id, other);
      assert trace[..j][..j - 1] == trace[..j - 1];
      if trace[j - 1].Filed? {
        PrefixIsLawful(trace, j - 1);
        FiledIsSaved(trace[..j - 1], trace[j - 1]);
        assert i < j - 1 && trace[..j - 1][j - 2] == trace[j - 2];
        ProgressGrows(trace, i, j - 1);
        assert LatestAfter(trace[..j - 1]) == Some(trace[j - 1].record);
      }
    }
  }

  /** Opening without the saved record: a new one, under a new id and without progress. */
  lemma ForgetfulOpening(cfg: Config, s: Sys)
    requires Starting(cfg, s) && cfg.declarationReads && MayStartOver(SessionStart(s.trace).command)
    ensures var o := Open(cfg, s, false);
      && o.out.Ok? && Working(cfg, o.sys) && !o.sys.mem.gapVerified && SavedNow(o.sys.trace) && Continues(s, o.sys)
      && !Asking(o.sys.trace).now
      && o.sys.disk.latest.Some? && Progress(o.sys.disk.latest.value) == 0
      && o.sys.disk.latest.value.runRecordId == s.clock && o.sys.disk.latest.value.createdAt == s.clock
      && forall id :: id != s.clock ==> RunFile(o.sys.trace, id) == RunFile(s.trace, id)
  {
    InspectStartsRun(cfg, s);
    hide SessionStart, SessionGaps, Asking, SavedNow, Lawful, IdsBelow, LatestAfter, RunsAfter;
  }

  /** Everything after the opening goes on with the new run. */
  lemma NewRunGoesOn(s: Sys, s': Sys, id: nat)
    requires Good(s) && Good(s') && Continues(s, s') && SavedNow(s.trace)
    requires s.disk.latest.Some? && s.disk.latest.value.runRecordId == id
    ensures s'.disk.latest.Some? && s'.disk.latest.value.runRecordId == id
    ensures s'.disk.latest.value.createdAt == s.disk.latest.value.createdAt
    ensures forall other :: other != id ==> RunFile(s'.trace, other) == RunFile(s.trace, other)
  {
    hide SessionStart, SessionGaps, SavedNow, Lawful, IdsBelow, LatestAfter, RunFile, Restarts, Progress;
    SessionKeepsProgress(s, s');
    SessionDoesNotRestart(s, s');
    var trace := s'.trace;
    assert trace[..|s.trace|] == s.trace && trace[..|trace|] == trace;
    forall other | other != id
      ensures RunFile(s'.trace, other) == RunFile(s.trace, other)
    {
      OtherFilesStay(trace, |s.trace|, |trace|, id, other);
    }
  }

  /**
   * A resume told to ignore the saved record. Where the repository cannot be read it changes nothing. Otherwise it
   * ends, whatever is answered, with a new run in latest.json: under an id that no run had, born in this session, at
   * progress 0 when it opens and at 5 if it returns. The file of every older run, and so the progress that
   * latest.json had, stays as it was.
   */
  lemma ForgetfulResumeStartsOver(cfg: Config, s: Sys)
    requires Starting(cfg, s) && SessionStart(s.trace).command == ResumeCommand(false)
    ensures var r, o := Resume(cfg, s, false), Open(cfg, s, false).sys;
      if !cfg.declarationReads then r.sys == s && r.out == Err(BadDeclaration)
      else
        && ProgressOf(o.disk.latest) == 0
        && r.sys.disk.latest.Some?
        && r.sys.disk.latest.value.runRecordId == s.clock && r.sys.disk.latest.value.createdAt == s.clock
        && (r.out.Ok? ==> ProgressOf(r.sys.disk.latest) == 5)
        && (forall id :: id in s.disk.runs ==>
              id != s.clock && id in r.sys.disk.runs && r.sys.disk.runs[id] == s.disk.runs[id])
    ensures s.disk.latest.Some? ==> s.disk.latest.value.runRecordId != s.clock
  {
    StartingIsGood(cfg, s);
    OldIdsAreBelow(s);
    hide Starting, Working, Good, SessionStart, SessionGaps, Asking, SavedNow, Open, DiscoverAndRecover, Advance,
         Progress, IsConfirmed, RunFile;
    if cfg.declarationReads {
      ForgetfulOpening(cfg, s);
      ResumeIsSafe(cfg, s, false);
      var o, r := Open(cfg, s, false).sys, Resume(cfg, s, false).sys;
      WorkingIsGood(cfg, o);
      RestIsSafe(cfg, s);
      NewRunGoesOn(o, r, s.clock);
      FilesAreTraced(s, r);
    } else {
      ForgetfulOpeningFails(cfg, s);
    }
  }

  lemma ForgetfulOpeningFails(cfg: Config, s: Sys)
    requires !cfg.declarationReads
    ensures Open(cfg, s, false) == Run(s, Err(BadDeclaration))
  {
  }

  lemma StartingIsGood(cfg: Config, s: Sys)
    requires Starting(cfg, s)
    ensures Good(s)
  {
  }

  lemma OldIdsAreBelow(s: Sys)
    requires Good(s)
    ensures forall id :: id in s.disk.runs ==> id < s.clock
    ensures s.disk.latest.Some? ==> s.disk.latest.value.runRecordId < s.clock
  {
    FiledIsBelow(s.trace, s.clock);
    if s.disk.latest.Some? {
      LatestIsBelow(s.trace, s.clock);
    }
  }

  /** Equal in the trace is equal on the disk. */
  lemma FilesAreTraced(s: Sys, s': Sys)
    requires Good(s) && Good(s')
    ensures forall id :: id in s.disk.runs && RunFile(s'.trace, id) == RunFile(s.trace, id) ==>
              id in s'.disk.runs && s'.disk.runs[id] == s.disk.runs[id]
  {
    hide Lawful, LatestAfter, RunsAfter, IdsBelow;
  }

  /** What follows the opening. */
  lemma RestIsSafe(cfg: Config, s: Sys)
    requires Working(cfg, Open(cfg, s, false).sys) && Open(cfg, s, false).out.Ok?
    requires !Open(cfg, s, false).sys.mem.gapVerified && !Asking(Open(cfg, s, false).sys.trace).now
    ensures Continues(Open(cfg, s, false).sys, Resume(cfg, s, false).sys)
  {
    hide Working, Good, Continues, Open, DiscoverAndRecover, Advance, Progress, IsConfirmed, Asking;
    var o := Open(cfg, s, false);
    DiscoverAndRecoverIsSafe(cfg, o.sys);
    var d := DiscoverAndRecover(cfg, o.sys);
    if d.out.Ok? {
      AdvanceIsSafe(cfg, d.sys);
      ContinuesOn(o.sys, d.sys, Advance(cfg, d.sys).sys);
    }
  }
}
