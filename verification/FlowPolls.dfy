// The polls of a saved run, and what a resume asks for after them: which requests are sent again, and which never.
module FlowPolls {
  import opened Json
  import opened Options
  import opened GovernanceReceipts
  import opened ReplyFields
  import opened FlowState
  import opened FlowSpec
  import opened FlowSafety
  import opened FlowLimits
  import opened FlowRequests

  // ---- What the polls bring ----

  predicate IsMissing(reply: Reply) {
    !reply.Broken? && !reply.TimeUp? && reply.code == 404
  }

  /** This many polls are answered, and each time the run is still going. */
  predicate AllUnfinished(tape: seq<Reply>, polls: nat) {
    polls == 0 ||
    (&& tape != [] && !IsMissing(tape[0])
     && AsAccepted(tape[0]).Ok? && !IsFinished(AsAccepted(tape[0]).value)
     && AllUnfinished(tape[1..], polls - 1))
  }

  /** The answer of the run, when one of this many polls finds it finished and well. */
  function FinishedAmong(tape: seq<Reply>, polls: nat): Option<Json> {
    if polls == 0 || tape == [] || IsMissing(tape[0]) || !AsAccepted(tape[0]).Ok? then None
    else
      var data := AsAccepted(tape[0]).value;
      if !IsFinished(data) then FinishedAmong(tape[1..], polls - 1)
      else if IsFailed(RunStatus(data)) then None
      else Some(data)
  }

  /** What the polls make of the record in memory. */
  predicate PolledTo(cfg: Config, s: Sys, polls: nat, r: Run<()>) {
    var rec, now := Current(s), Current(r.sys);
    && r.sys.mem.rec.Some?
    && (s.disk.latest == s.mem.rec ==> r.sys.disk.latest == r.sys.mem.rec)
    && match FinishedAmong(s.tape, polls)
       case Some(data) =>
         var next := Recovered(cfg, rec, s.mem.gapSource, data);
         if next.Ok? then r.out.Ok? && now == next.value.(updatedAt := now.updatedAt)
         else r.out == next.Fail() && now == rec
       case None =>
         && (r.out.Ok? <==> AllUnfinished(s.tape, polls))
         && now == rec.(status := now.status, errorCode := now.errorCode, terminal := now.terminal,
                        updatedAt := now.updatedAt)
         && (r.out.Ok? ==> !now.terminal && now.errorCode == rec.errorCode)
  }

  lemma ResultIsTaken(cfg: Config, s: Sys, data: Json)
    requires s.mem.rec.Some?
    ensures var r, next := TakeResult(cfg, s, data), Recovered(cfg, Current(s), s.mem.gapSource, data);
      && r.sys.mem.rec.Some?
      && (s.disk.latest == s.mem.rec ==> r.sys.disk.latest == r.sys.mem.rec)
      && (if next.Ok? then r.out.Ok? && Current(r.sys) == next.value.(updatedAt := Current(r.sys).updatedAt)
          else r.out == next.Fail() && Current(r.sys) == Current(s))
  {
    hide Recovered;
  }

  lemma NotedAs(s: Sys, r: Record)
    ensures var s' := Persist(s, r);
      s'.mem.rec.Some? && s'.disk.latest == s'.mem.rec && Current(s') == r.(updatedAt := Current(s').updatedAt)
  {
  }

  lemma {:induction false} PollsDecide(cfg: Config, s: Sys, paths: seq<string>, last: string)
    requires s.mem.rec.Some?
    ensures PolledTo(cfg, s, |paths|, PollPaths(cfg, s, paths, last))
    decreases |paths|
  {
    hide TakeResult, Recovered, Persist, IsFinished, IsFailed, RunStatus, AsAccepted, FailureCode;
    if paths == [] {
      NotedAs(s, Current(s).(status := last, terminal := false));
    } else {
      var f := Fetch(s, Poll(paths[0])).sys;
      if s.tape != [] {
        var reply := s.tape[0];
        if IsMissing(reply) {
          NotedAs(f, Current(f).(status := "RUN_NOT_FOUND", errorCode := "RUN_NOT_FOUND", terminal := false));
        } else if AsAccepted(reply).Ok? {
          var data := AsAccepted(reply).value;
          if !IsFinished(data) {
            PollsDecide(cfg, f, paths[1..], if RunStatus(data) != "" then RunStatus(data) else "pending");
          } else if IsFailed(RunStatus(data)) {
            var code := if FailureCode(data) != "" then FailureCode(data) else "RUN_FAILED";
            NotedAs(f, Current(f).(status := code, errorCode := code, terminal := true));
          } else {
            ResultIsTaken(cfg, f, data);
          }
        }
      }
    }
  }

  /** How many polls the record asks for. */
  function Polls(r: Record): nat {
    if r.terminal || !r.HasRun() then 0 else |SavedPaths(r.runId, r.pollUrl)|
  }

  lemma RecoveryIsDecided(cfg: Config, s: Sys)
    requires s.mem.rec.Some? && Polls(Current(s)) != 0
    ensures PolledTo(cfg, s, Polls(Current(s)), Recover(cfg, s))
  {
    var rec := Current(s);
    PollsDecide(cfg, s, SavedPaths(rec.runId, rec.pollUrl), "pending");
    hide PolledTo, PollPaths;
  }

  // ---- A run of a step that is already settled ----

  lemma NothingToRecover(cfg: Config, rec: Record, source: string, data: Json)
    requires !IsPending(rec.step)
    ensures Recovered(cfg, rec, source, data) == Ok(rec.(runId := "", pollUrl := "", terminal := false))
  {
    hide Select, ReadReceipt, ClaimIdOf, ClaimRefOf, RecoveredRegistrationIdOf, ContextIdOf;
  }

  /** Recovering a run whose step waits for nothing changes at most six fields of bookkeeping. The run is forgotten
      exactly if a poll finds it finished and well, and then exactly its address, the terminal flag and the time stamp
      change. */
  lemma ConsumedRunIsForgotten(cfg: Config, s: Sys)
    requires s.mem.rec.Some? && s.disk.latest == s.mem.rec && !IsPending(Current(s).step)
    ensures var r := Recover(cfg, s);
      var rec, now := Current(s), Current(r.sys);
      && r.sys.disk.latest == Some(now)
      && now == rec.(status := now.status, errorCode := now.errorCode, terminal := now.terminal, runId := now.runId,
                     pollUrl := now.pollUrl, updatedAt := now.updatedAt)
      && (rec.HasRun() ==> (!now.HasRun() <==> FinishedAmong(s.tape, Polls(rec)).Some?))
      && (rec.HasRun() && !now.HasRun() ==>
            now == rec.(runId := "", pollUrl := "", terminal := false, updatedAt := now.updatedAt))
  {
    var rec := Current(s);
    hide PollPaths, Recovered, SavedPaths, IsPending, AllUnfinished;
    if Polls(rec) != 0 {
      RecoveryIsDecided(cfg, s);
      if FinishedAmong(s.tape, Polls(rec)).Some? {
        NothingToRecover(cfg, rec, s.mem.gapSource, FinishedAmong(s.tape, Polls(rec)).value);
      }
    } else {
      NoPolls(s);
    }
  }

  lemma NoPolls(s: Sys)
    requires Polls(Current(s)) == 0
    ensures Current(s).terminal || !Current(s).HasRun()
  {
  }

  // ---- What is due after the polls ----

  /** The finished reply brings nothing where the recovery looks for it. */
  predicate BringsNothing(cfg: Config, rec: Record, data: Json) {
    match rec.step
    case GapClaim => ClaimIdOf(data) == "" && ClaimRefOf(data) == ""
    case ContextCreate => RecoveredRegistrationIdOf(data) == ""
    case ContextCompile => ContextIdOf(data) == ""
    case GovernedRealize => Normalize(data, rec.candidate, cfg.now).receiptId == ""
    case _ => true
  }

  /** The step for whose answer the record waits. */
  predicate WaitsFor(rec: Record, action: Action) {
    && Polls(rec) != 0 && rec.step == PendingPhase(action)
    && (action.Claiming? || action.Registering? || action.Compiling? || action.Realizing?)
  }

  /** After the polls the pending step is as open as before. */
  predicate StaysOpen(cfg: Config, rec: Record, tape: seq<Reply>) {
    || AllUnfinished(tape, Polls(rec))
    || (FinishedAmong(tape, Polls(rec)).Some? && BringsNothing(cfg, rec, FinishedAmong(tape, Polls(rec)).value))
  }

  lemma UnfinishedIsNotFinished(tape: seq<Reply>, polls: nat)
    ensures AllUnfinished(tape, polls) ==> FinishedAmong(tape, polls).None?
  {
    hide AsAccepted, IsFinished, IsFailed;
  }

  /** A pending step is one that the record lacks. */
  lemma PendingIsDue(rec: Record, action: Action)
    requires Inv(rec) && WaitsFor(rec, action)
    ensures action in Due(rec)
  {
  }

  lemma ReceiptKeepsItsId(cfg: Config, data: Json, candidate: string)
    ensures var receipt := ReadReceipt(cfg, data, candidate);
      receipt.Ok? ==> receipt.value.receiptId == Normalize(data, candidate, cfg.now).receiptId
  {
    hide Normalize, IsConfirmed;
  }

  /** A finished reply closes the step exactly if it brings something. */
  lemma RecoveredIsDue(cfg: Config, rec: Record, source: string, data: Json, action: Action)
    requires Inv(rec) && WaitsFor(rec, action)
    ensures var next := Recovered(cfg, rec, source, data);
      next.Ok? ==> (action in Due(next.value) <==> BringsNothing(cfg, rec, data))
  {
    hide Inv, Polls, Due, BringsNothing, Recovered;
    if action.Realizing? {
      RecoveredReceiptIsDue(cfg, rec, source, data);
    } else {
      RecoveredIdIsDue(cfg, rec, source, data, action);
    }
  }

  lemma ReceiptedIsDue(rec: Record, receipt: Receipt)
    ensures Realizing in Due(Receipted(rec, receipt)) <==> receipt.receiptId == ""
  {
    assert Receipted(rec, receipt).receiptId == receipt.receiptId;
  }

  lemma RecoveredReceiptIsDue(cfg: Config, rec: Record, source: string, data: Json)
    requires rec.step.GovernedRealize?
    ensures var next := Recovered(cfg, rec, source, data);
      next.Ok? ==> (Realizing in Due(next.value) <==> BringsNothing(cfg, rec, data))
  {
    hide Recovered, ReadReceipt, Normalize, Due, Receipted, ClaimIdOf, ClaimRefOf, RecoveredRegistrationIdOf,
         ContextIdOf;
    RecoveredReceipt(cfg, rec, source, data);
    ReceiptKeepsItsId(cfg, data, rec.candidate);
    var receipt := ReadReceipt(cfg, data, rec.candidate);
    if receipt.Ok? {
      ReceiptedIsDue(rec, receipt.value);
    }
  }

  lemma RecoveredIdIsDue(cfg: Config, rec: Record, source: string, data: Json, action: Action)
    requires Inv(rec) && WaitsFor(rec, action) && !action.Realizing?
    ensures var next := Recovered(cfg, rec, source, data);
      next.Ok? && (action in Due(next.value) <==> BringsNothing(cfg, rec, data))
  {
    hide Select, ReadReceipt, ClaimIdOf, ClaimRefOf, RecoveredRegistrationIdOf, ContextIdOf, Normalize, Polls, Inv;
    match action
    case Claiming =>
    case Registering =>
    case Compiling =>
  }

  /** Due looks at the ids and the terminal flag alone. */
  lemma SameDue(r: Record, r': Record)
    requires r'.claimId == r.claimId && r'.claimRef == r.claimRef && r'.registrationId == r.registrationId
    requires r'.contextId == r.contextId && r'.receiptId == r.receiptId && r'.terminal == r.terminal
    ensures Due(r') == Due(r)
  {
  }

  lemma PolledIsDue(cfg: Config, s: Sys, action: Action, r: Run<()>)
    requires Inv(Current(s)) && WaitsFor(Current(s), action)
    requires PolledTo(cfg, s, Polls(Current(s)), r) && r.out.Ok?
    ensures FinishedAmong(s.tape, Polls(Current(s))).Some? ==>
              (action in Due(Current(r.sys)) <==> StaysOpen(cfg, Current(s), s.tape))
    ensures FinishedAmong(s.tape, Polls(Current(s))).None? ==>
              action in Due(Current(r.sys)) && StaysOpen(cfg, Current(s), s.tape)
  {
    var rec, now := Current(s), Current(r.sys);
    UnfinishedIsNotFinished(s.tape, Polls(rec));
    var done := FinishedAmong(s.tape, Polls(rec));
    hide Inv, Recovered, Due, AllUnfinished, FinishedAmong, BringsNothing;
    if done.Some? {
      var next := Recovered(cfg, rec, s.mem.gapSource, done.value).value;
      assert now == next.(updatedAt := now.updatedAt);
      hide PolledTo, WaitsFor, Polls;
      SameDue(next, now);
      RecoveredIsDue(cfg, rec, s.mem.gapSource, done.value, action);
    } else {
      assert !rec.terminal;
      hide WaitsFor, Polls;
      SameDue(rec, now);
      PendingIsDue(rec, action);
    }
  }

  lemma DueAfterPolls(cfg: Config, s: Sys, action: Action)
    requires s.mem.rec.Some? && Inv(Current(s)) && WaitsFor(Current(s), action)
    ensures var r := Recover(cfg, s);
      r.out.Ok? ==> (action in Due(Current(r.sys)) <==> StaysOpen(cfg, Current(s), s.tape))
  {
    RecoveryIsDecided(cfg, s);
    hide Inv, Recover, Due, PolledTo, StaysOpen, FinishedAmong;
    if Recover(cfg, s).out.Ok? {
      PolledIsDue(cfg, s, action, Recover(cfg, s));
    }
  }

  // ---- A whole resume ----

  /** The steps that were asked for between two moments. */
  function Asked(trace: seq<Event>, trace': seq<Event>): seq<Action> {
    if trace <= trace' then StepsOf(trace'[|trace|..]) else []
  }

  lemma {:induction false} PollsAsk(cfg: Config, s: Sys, paths: seq<string>, last: string)
    ensures Asks(s.trace, PollPaths(cfg, s, paths, last).sys.trace, [])
    decreases |paths|
  {
    hide Asks, Recovered, Persist, IsFinished, IsFailed, RunStatus, AsAccepted, FailureCode, Learn, Fetch;
    if paths == [] {
      PersistAsks(s, Current(s).(status := last, terminal := false));
    } else {
      FetchAsks(s, Poll(paths[0]));
      var f := Fetch(s, Poll(paths[0]));
      if f.out.Ok? {
        var reply := f.out.value;
        if IsMissing(reply) {
          var rec := Current(f.sys).(status := "RUN_NOT_FOUND", errorCode := "RUN_NOT_FOUND", terminal := false);
          PersistAsks(f.sys, rec);
          QuietOn(s.trace, f.sys.trace, Persist(f.sys, rec).trace);
        } else if AsAccepted(reply).Ok? {
          var data := AsAccepted(reply).value;
          if !IsFinished(data) {
            var next := if RunStatus(data) != "" then RunStatus(data) else "pending";
            PollsAsk(cfg, f.sys, paths[1..], next);
            QuietOn(s.trace, f.sys.trace, PollPaths(cfg, f.sys, paths[1..], next).sys.trace);
          } else if IsFailed(RunStatus(data)) {
            var code := if FailureCode(data) != "" then FailureCode(data) else "RUN_FAILED";
            var rec := Current(f.sys).(status := code, errorCode := code, terminal := true);
            PersistAsks(f.sys, rec);
            QuietOn(s.trace, f.sys.trace, Persist(f.sys, rec).trace);
          } else {
            TakingAsks(cfg, f.sys, data);
            QuietOn(s.trace, f.sys.trace, TakeResult(cfg, f.sys, data).sys.trace);
          }
        }
      }
    }
  }

  lemma TakingAsks(cfg: Config, s: Sys, data: Json)
    ensures Asks(s.trace, TakeResult(cfg, s, data).sys.trace, [])
  {
    AsksNothing(s.trace);
    var next := Recovered(cfg, Current(s), s.mem.gapSource, data);
    hide Asks, Recovered, Persist, Learn;
    if next.Ok? {
      var s1 := Learn(s, next.value.gapId, s.mem.gapSource);
      PersistAsks(s, next.value);
      LearnAsks(s, next.value.gapId, s.mem.gapSource);
      PersistAsks(s1, next.value);
      QuietOn(s.trace, s1.trace, Persist(s1, next.value).trace);
    }
  }

  lemma DiscoverAsks(cfg: Config, s: Sys)
    ensures Asks(s.trace, Discover(cfg, s).sys.trace, [])
  {
    FetchAsks(s, ReadCapabilities);
    hide Asks, Fetch, AsObject;
  }

  lemma PreparingAsks(cfg: Config, s: Sys)
    ensures Asks(s.trace, DiscoverAndRecover(cfg, s).sys.trace, [])
  {
    DiscoverAsks(cfg, s);
    hide Asks, Discover, PollPaths;
    var d := Discover(cfg, s).sys;
    AsksNothing(d.trace);
    PollsAsk(cfg, d, SavedPaths(Current(d).runId, Current(d).pollUrl), "pending");
    QuietOn(s.trace, d.trace, Recover(cfg, d).sys.trace);
  }

  lemma OpeningAsks(cfg: Config, s: Sys)
    ensures Asks(s.trace, Open(cfg, s, true).sys.trace, [])
  {
    AsksNothing(s.trace);
    var l := Load(cfg, s).sys;
    assert l.trace == s.trace;
    PersistAsks(l, Current(l).(status := "initialized", terminal := false));
    hide Asks, Persist;
  }

  /** The record that the phases of a resume work on, unless the resume ends before them. */
  function Prepared(cfg: Config, s: Sys): Run<()> {
    var o := Open(cfg, s, true);
    if o.out.Ok? then DiscoverAndRecover(cfg, o.sys) else o
  }

  lemma ResumeIsAdvance(cfg: Config, s: Sys)
    ensures var p, r := Prepared(cfg, s), Resume(cfg, s, true);
      if p.out.Ok? then
        && r.sys == Advance(cfg, p.sys).sys && r.out.Ok? == Advance(cfg, p.sys).out.Ok?
        && (r.out.Ok? ==> r.out.value == Current(r.sys))
      else r.sys == p.sys && !r.out.Ok?
  {
    hide Open, DiscoverAndRecover, Advance;
  }

  lemma PreparedIsWorking(cfg: Config, s: Sys)
    requires Starting(cfg, s)
    ensures Prepared(cfg, s).out.Ok? ==> Working(cfg, Prepared(cfg, s).sys)
    ensures Asks(s.trace, Prepared(cfg, s).sys.trace, [])
  {
    hide Working, Good, Asks, Open, DiscoverAndRecover, Asking, SessionGaps, SessionStart, SavedNow;
    OpenIsSafe(cfg, s, true);
    OpeningAsks(cfg, s);
    var o := Open(cfg, s, true);
    if o.out.Ok? {
      DiscoverAndRecoverIsSafe(cfg, o.sys);
      PreparingAsks(cfg, o.sys);
      QuietOn(s.trace, o.sys.trace, DiscoverAndRecover(cfg, o.sys).sys.trace);
    }
  }

  lemma AskedInOrder(trace: seq<Event>, trace': seq<Event>, due: seq<Action>, returned: bool)
    requires AsksInOrder(trace, trace', due, returned)
    ensures Asked(trace, trace') <= due && (returned ==> Asked(trace, trace') == due)
  {
  }

  /** A resume asks, after the recovery, for the steps that the record lacks then: each once and in order, and all of
      them if it returns. A resume that ends before asks for nothing. */
  lemma ResumeAsksWhatIsDue(cfg: Config, s: Sys)
    requires Starting(cfg, s)
    ensures var p, r := Prepared(cfg, s), Resume(cfg, s, true);
      var asked := Asked(s.trace, r.sys.trace);
      && s.trace <= r.sys.trace
      && (if p.out.Ok? then asked <= Due(Current(p.sys)) else asked == [] && !r.out.Ok?)
      && (r.out.Ok? ==> asked == Due(Current(p.sys)))
  {
    hide Working, Starting, Due, Asks, AsksInOrder, Prepared, Resume, Advance, Asked;
    PreparedIsWorking(cfg, s);
    ResumeIsAdvance(cfg, s);
    var p := Prepared(cfg, s);
    if p.out.Ok? {
      AdvanceAsksWhatIsDue(cfg, p.sys);
      var a := Advance(cfg, p.sys);
      QuietThenInOrder(s.trace, p.sys.trace, a.sys.trace, Due(Current(p.sys)), a.out.Ok?);
      AskedInOrder(s.trace, a.sys.trace, Due(Current(p.sys)), a.out.Ok?);
      InOrderIsLonger(s.trace, a.sys.trace, Due(Current(p.sys)), a.out.Ok?);
    } else {
      QuietIsAsked(s.trace, p.sys.trace);
    }
  }

  lemma InOrderIsLonger(trace: seq<Event>, trace': seq<Event>, due: seq<Action>, returned: bool)
    requires AsksInOrder(trace, trace', due, returned)
    ensures trace <= trace'
  {
  }

  lemma QuietIsAsked(trace: seq<Event>, trace': seq<Event>)
    requires Asks(trace, trace', [])
    ensures trace <= trace' && Asked(trace, trace') == []
  {
  }

  /** The saved record is polled with the answers after the first. */
  lemma PreparedFromDisk(cfg: Config, s: Sys)
    requires Starting(cfg, s) && s.disk.latest.Some?
    ensures Prepared(cfg, s).out.Ok? ==>
              && cfg.declarationReads && s.tape != []
              && var o := Load(cfg, s).sys;
                 var d := Discover(cfg, o);
                 && d.out.Ok? && d.sys.mem.rec == s.disk.latest && d.sys.tape == s.tape[1..]
                 && Prepared(cfg, s) == Recover(cfg, d.sys)
  {
    hide Good, SavedNow, SessionStart, Asking, AsObject, PollPaths;
  }

  lemma SavedIsInvariant(cfg: Config, s: Sys)
    requires Starting(cfg, s) && s.disk.latest.Some?
    ensures Inv(s.disk.latest.value)
  {
  }

  /**
   * A saved run that is still pending does not stop a resume. The step that waits for its answer is asked for again,
   * by a resume that returns, exactly if every poll found the run unfinished or the finished reply lacks the id where
   * the recovery looks for it; a resume that fails asks for it under no other condition.
   */
  lemma PendingStepIsAskedAgain(cfg: Config, s: Sys, action: Action)
    requires Starting(cfg, s) && s.disk.latest.Some? && WaitsFor(s.disk.latest.value, action)
    ensures var r := Resume(cfg, s, true);
      var asked := Asked(s.trace, r.sys.trace);
      && (action in asked ==> s.tape != [] && StaysOpen(cfg, s.disk.latest.value, s.tape[1..]))
      && (r.out.Ok? ==> s.tape != [] && (action in asked <==> StaysOpen(cfg, s.disk.latest.value, s.tape[1..])))
  {
    hide Starting, Inv, Due, Asks, Prepared, Resume, Asked, Load, Discover, Recover, WaitsFor, StaysOpen;
    ResumeAsksWhatIsDue(cfg, s);
    PreparedFromDisk(cfg, s);
    SavedIsInvariant(cfg, s);
    if Prepared(cfg, s).out.Ok? {
      DueAfterPolls(cfg, Discover(cfg, Load(cfg, s).sys).sys, action);
    }
  }

  // ---- A recovered preclaim context ----

  lemma RecoveredContext(cfg: Config, rec: Record, source: string, data: Json)
    requires rec.step.PreclaimContext?
    ensures var next := Recovered(cfg, rec, source, data); next.Ok? && next.value.contextId == ContextIdOf(data)
  {
    hide Select, ReadReceipt, ContextIdOf;
  }

  lemma CompileIsDue(r: Record)
    ensures Compiling in Due(r) <==> !r.HasContext()
  {
  }

  lemma ContextAfterPolls(cfg: Config, s: Sys)
    requires s.mem.rec.Some? && Current(s).step.PreclaimContext? && Polls(Current(s)) != 0
    ensures var r, polls := Recover(cfg, s), Polls(Current(s));
      r.out.Ok? ==>
        && (AllUnfinished(s.tape, polls) || FinishedAmong(s.tape, polls).Some?)
        && Current(r.sys).contextId
           == (if AllUnfinished(s.tape, polls) then Current(s).contextId
               else ContextIdOf(FinishedAmong(s.tape, polls).value))
  {
    RecoveryIsDecided(cfg, s);
    UnfinishedIsNotFinished(s.tape, Polls(Current(s)));
    hide Recover, Recovered, AllUnfinished, FinishedAmong, Polls, ContextIdOf;
    var done := FinishedAmong(s.tape, Polls(Current(s)));
    if done.Some? {
      RecoveredContext(cfg, Current(s), s.mem.gapSource, done.value);
    }
  }

  /** The answer to a preclaim context, when a resume recovers it, is taken for the governance context: a resume that
      returns compiles exactly if there was none on record and the polls stayed unfinished, or the finished reply names
      none. The client that waits for the same answer does not record it and always compiles. */
  lemma RecoveredPreclaimIsNotCompiled(cfg: Config, s: Sys)
    requires Starting(cfg, s) && s.disk.latest.Some?
    requires s.disk.latest.value.step.PreclaimContext? && Polls(s.disk.latest.value) != 0
    ensures var r, rec := Resume(cfg, s, true), s.disk.latest.value;
      r.out.Ok? ==>
        && s.tape != []
        && (AllUnfinished(s.tape[1..], Polls(rec)) || FinishedAmong(s.tape[1..], Polls(rec)).Some?)
        && (Compiling in Asked(s.trace, r.sys.trace) <==>
              if AllUnfinished(s.tape[1..], Polls(rec)) then !rec.HasContext()
              else ContextIdOf(FinishedAmong(s.tape[1..], Polls(rec)).value) == "")
  {
    hide Starting, Due, Asks, Prepared, Resume, Asked, Load, Discover, Recover, Polls, AllUnfinished, FinishedAmong,
         ContextIdOf;
    ResumeAsksWhatIsDue(cfg, s);
    PreparedFromDisk(cfg, s);
    var p := Prepared(cfg, s);
    if p.out.Ok? {
      ContextAfterPolls(cfg, Discover(cfg, Load(cfg, s).sys).sys);
      CompileIsDue(Current(p.sys));
    }
  }

  // ---- A realization that was answered already ----

  lemma OnlyReceiptIsDue(cfg: Config, s: Sys)
    requires Working(cfg, s) && Current(s).HasRegistration() && Current(s).HasContext()
    ensures Advance(cfg, s) == EnsureReceipt(cfg, s)
  {
    WorkingHolds(cfg, s);
    hide Working, MakeClaim, Register, Compile, RealizeGoverned, ResolveGap, IsConfirmed;
    assert Current(s).HasClaim() && Current(s).HasGap();
  }

  /** With the first four fields on record and no open run, a resume whose gate passes and whose server is complete
      sends the realization, and nothing else, exactly if the receipt has no id or the record is not terminal;
      whatever the server answers, and even if the process dies waiting. */
  lemma RealizationIsAskedAgain(cfg: Config, s: Sys)
    requires Starting(cfg, s) && s.disk.latest.Some? && cfg.declarationReads && cfg.gate.GatePasses?
    requires var rec := s.disk.latest.value; rec.HasRegistration() && rec.HasContext() && Polls(rec) == 0
    requires Discover(cfg, Load(cfg, s).sys).out.Ok?
    ensures var rec := s.disk.latest.value;
      Asked(s.trace, Resume(cfg, s, true).sys.trace) == if rec.terminal && rec.receiptId != "" then [] else [Realizing]
  {
    hide Starting, Working, Asks, Resume, Advance, EnsureReceipt, Discover, Asked, Progress, StepsOf;
    PreparedWithoutPolls(cfg, s);
    PreparedIsWorking(cfg, s);
    ResumeIsAdvance(cfg, s);
    var p := Prepared(cfg, s);
    OnlyReceiptIsDue(cfg, p.sys);
    EnsureReceiptAsks(cfg, p.sys);
    var r := EnsureReceipt(cfg, p.sys);
    var steps := if Current(p.sys).IsSettled() then [] else [Realizing];
    AsksNothing(p.sys.trace);
    AsksOnce(s.trace, p.sys.trace, r.sys.trace, steps);
    ExactlyAsked(s.trace, r.sys.trace, steps);
  }

  lemma ExactlyAsked(trace: seq<Event>, trace': seq<Event>, steps: seq<Action>)
    requires Asks(trace, trace', steps)
    ensures Asked(trace, trace') == steps
  {
  }

  lemma PreparedWithoutPolls(cfg: Config, s: Sys)
    requires Starting(cfg, s) && s.disk.latest.Some? && cfg.declarationReads && Polls(s.disk.latest.value) == 0
    requires Discover(cfg, Load(cfg, s).sys).out.Ok?
    ensures Prepared(cfg, s).out.Ok? && Prepared(cfg, s).sys.mem.rec == s.disk.latest
  {
    hide Good, SavedNow, SessionStart, Asking, AsObject, PollPaths, Polls;
    NoPolls(Load(cfg, s).sys);
  }
}
