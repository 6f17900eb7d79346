// What every run of the governed flow promises: progress, causal order, fail-closed receipts, claims and their gaps,
// and the two files of a save.
module FlowPromises {
  import opened Options
  import opened GovernanceReceipts
  import opened FlowState
  import opened FlowSpec
  import opened FlowSafety

  /** The trace of a repository's whole life. */
  function Life(sessions: seq<Session>): seq<Event> {
    Sessions(sessions, BLANK).trace
  }

  lemma LifeIsLawful(sessions: seq<Session>)
    ensures Lawful(Life(sessions))
  {
    SessionsAreSafe(sessions);
    hide Sessions, Lawful;
  }

  // ---- Progress ----

  /** A save that puts a new run in the place of another. */
  predicate Restarts(e: Event) {
    e.Saved? && e.before.Some? && e.record.runRecordId != e.before.value.runRecordId
  }

  /** What a save does to the record on the disk. */
  lemma SaveKeepsOrRestarts(trace: seq<Event>, e: Event, n: nat)
    requires MayHappen(trace, e) && e.Saved?
    ensures e.before == LatestAfter(trace) && Inv(e.record)
    ensures e.before.Some? && !Restarts(e) ==> Extends(e.before, e.record)
    ensures Restarts(e) ==> IsNew(trace, e.before, e.record)
    ensures e.before.None? ==> IsBlank(e.record)
  {
    hide Inv, Traced, SessionStart;
    if e.before.Some? && IsNew(trace, e.before, e.record) {
      LatestIsBelow(trace, e.record.runRecordId);
    }
  }

  lemma {:induction false} ProgressGrows(trace: seq<Event>, i: nat, j: nat)
    requires Lawful(trace) && i <= j <= |trace|
    requires forall k :: i <= k < j ==> !Restarts(trace[k])
    ensures ProgressOf(LatestAfter(trace[..i])) <= ProgressOf(LatestAfter(trace[..j]))
    ensures LatestAfter(trace[..i]).Some? ==>
              && LatestAfter(trace[..j]).Some?
              && LatestAfter(trace[..j]).value.runRecordId == LatestAfter(trace[..i]).value.runRecordId
              && LatestAfter(trace[..j]).value.createdAt == LatestAfter(trace[..i]).value.createdAt
    decreases j - i
  {
    if i < j {
      ProgressGrows(trace, i, j - 1);
      PrefixIsLawful(trace, j - 1);
      assert trace[..j][..j - 1] == trace[..j - 1];
      hide Progress, Lawful, MayHappen, Inv;
      if trace[j - 1].Saved? {
        SaveKeepsOrRestarts(trace[..j - 1], trace[j - 1], 0);
      }
    }
  }

  /** Progress is never lost: whatever the commands, the answers and the deaths, between any two moments without a
      restart the recorded prefix only grows, and it stays the same record. */
  lemma ProgressIsNeverLost(sessions: seq<Session>, i: nat, j: nat)
    requires i <= j <= |Life(sessions)|
    requires forall k :: i <= k < j ==> !Restarts(Life(sessions)[k])
    ensures var trace := Life(sessions);
            && ProgressOf(LatestAfter(trace[..i])) <= ProgressOf(LatestAfter(trace[..j]))
            && (LatestAfter(trace[..i]).Some? ==>
                  && LatestAfter(trace[..j]).Some?
                  && LatestAfter(trace[..j]).value.runRecordId == LatestAfter(trace[..i]).value.runRecordId
                  && LatestAfter(trace[..j]).value.createdAt == LatestAfter(trace[..i]).value.createdAt)
    ensures Sessions(sessions, BLANK).disk.latest == LatestAfter(Life(sessions))
  {
    SessionsAreSafe(sessions);
    hide Sessions, Lawful, ProgressOf, Restarts;
    ProgressGrows(Life(sessions), i, j);
  }

  /** Only a dry run, or a resume told to ignore the saved record, ever restarts; what it saves first has no progress
      and a new id. */
  lemma RestartsAreChosen(sessions: seq<Session>, k: nat)
    requires k < |Life(sessions)| && Restarts(Life(sessions)[k])
    ensures var trace := Life(sessions);
      && MayStartOver(SessionStart(trace[..k]).command)
      && Progress(trace[k].record) == 0 && IdsBelow(trace[..k], trace[k].record.runRecordId)
  {
    LifeIsLawful(sessions);
    hide Life, Inv, IdsBelow, SessionStart, MayStartOver;
    var trace := Life(sessions);
    PrefixIsLawful(trace, k);
    SaveKeepsOrRestarts(trace[..k], trace[k], 0);
  }

  // ---- Every run by itself ----

  /** The record last written to latest.json for this run. */
  function SavedAs(trace: seq<Event>, id: nat): Option<Record> {
    if trace == [] then None
    else
      var last := trace[|trace| - 1];
      if last.Saved? && last.record.runRecordId == id then Some(last.record) else SavedAs(trace[..|trace| - 1], id)
  }

  function RunFile(trace: seq<Event>, id: nat): Option<Record> {
    if id in RunsAfter(trace) then Some(RunsAfter(trace)[id]) else None
  }

  predicate Grows(a: Option<Record>, b: Option<Record>) {
    a.Some? ==> b.Some? && Progress(a.value) <= Progress(b.value) && a.value.createdAt == b.value.createdAt
  }

  lemma {:induction false} LatestIsSaved(trace: seq<Event>)
    ensures LatestAfter(trace).Some? ==>
              SavedAs(trace, LatestAfter(trace).value.runRecordId) == LatestAfter(trace)
  {
    if trace != [] && !trace[|trace| - 1].Saved? {
      LatestIsSaved(trace[..|trace| - 1]);
    }
  }

  lemma {:induction false} NewIdsAreUnsaved(trace: seq<Event>, id: nat)
    requires IdsBelow(trace, id)
    ensures SavedAs(trace, id).None?
  {
    if trace != [] {
      NewIdsAreUnsaved(trace[..|trace| - 1], id);
    }
  }

  /** One event: what is saved for a run grows, and the run's file stays behind it. */
  lemma RunGrowsByOne(trace: seq<Event>, e: Event, id: nat)
    requires Lawful(trace) && MayHappen(trace, e)
    requires Grows(RunFile(trace, id), SavedAs(trace, id))
    ensures var t := trace + [e];
      && Grows(SavedAs(trace, id), SavedAs(t, id))
      && Grows(RunFile(trace, id), RunFile(t, id))
      && Grows(RunFile(t, id), SavedAs(t, id))
  {
    var t := trace + [e];
    assert t[..|t| - 1] == trace;
    hide Progress, Inv, Lawful, Traced, SessionStart;
    match e
    case Saved(before, r) =>
      SaveKeepsOrRestarts(trace, e, 0);
      hide MayHappen;
      if r.runRecordId == id {
        if before.Some? && !Restarts(e) {
          LatestIsSaved(trace);
        } else if before.Some? {
          NewIdsAreUnsaved(trace, id);
        } else {
          NothingSaved(trace, id);
        }
      }
    case Filed(r) =>
      assert SavedAs(trace, r.runRecordId) == Some(r);
    case _ =>
  }

  lemma {:induction false} NothingSaved(trace: seq<Event>, id: nat)
    requires LatestAfter(trace).None?
    ensures SavedAs(trace, id).None?
  {
    if trace != [] {
      NothingSaved(trace[..|trace| - 1], id);
    }
  }

  lemma {:induction false} RunsGrow(trace: seq<Event>, i: nat, j: nat, id: nat)
    requires Lawful(trace) && i <= j <= |trace|
    ensures Grows(RunFile(trace[..i], id), RunFile(trace[..j], id))
    ensures Grows(RunFile(trace[..j], id), SavedAs(trace[..j], id))
    decreases j
  {
    hide Lawful, MayHappen, Progress, RunFile, SavedAs;
    if j == 0 {
      assert RunFile([], id).None? by { NoRunFile(id); }
    } else {
      RunsGrow(trace, if i < j then i else j - 1, j - 1, id);
      PrefixIsLawful(trace, j - 1);
      RunGrowsByOne(trace[..j - 1], trace[j - 1], id);
      assert trace[..j] == trace[..j - 1] + [trace[j - 1]];
    }
  }

  lemma NoRunFile(id: nat)
    ensures RunFile([], id).None?
  {
  }

  /** The file of a run never loses progress and never changes its birth, whatever command runs on the repository. */
  lemma RunFilesNeverShrink(sessions: seq<Session>, i: nat, j: nat, id: nat)
    requires i <= j <= |Life(sessions)|
    ensures Grows(RunFile(Life(sessions)[..i], id), RunFile(Life(sessions)[..j], id))
  {
    LifeIsLawful(sessions);
    hide Life, Lawful, Grows;
    RunsGrow(Life(sessions), i, j, id);
  }

  // ---- The two writes of a save ----

  /** How many saves of the present run have reached latest.json since the run's file was last written. */
  function Unfiled(trace: seq<Event>): nat {
    if trace == [] then 0
    else
      var init := trace[..|trace| - 1];
      match trace[|trace| - 1]
      case Saved(before, r) =>
        if before.Some? && before.value.runRecordId == r.runRecordId then 1 + Unfiled(init) else 1
      case Filed(_) => 0
      case _ => Unfiled(init)
  }

  /** The record of the present run, n saves back. */
  function Back(trace: seq<Event>, n: nat): Option<Record> {
    if trace == [] then None
    else
      var init := trace[..|trace| - 1];
      match trace[|trace| - 1]
      case Saved(before, r) =>
        if n == 0 then Some(r)
        else if before.Some? && before.value.runRecordId == r.runRecordId then Back(init, n - 1)
        else None
      case _ => Back(init, n)
  }

  lemma {:induction false} BackIsLatest(trace: seq<Event>)
    ensures Back(trace, 0) == LatestAfter(trace)
  {
    if trace != [] && !trace[|trace| - 1].Saved? {
      BackIsLatest(trace[..|trace| - 1]);
    }
  }

  lemma {:induction false} UnsavedIsUnfiled(trace: seq<Event>, id: nat)
    requires Lawful(trace) && SavedAs(trace, id).None?
    ensures RunFile(trace, id).None?
  {
    RunsGrow(trace, |trace|, |trace|, id);
    assert trace[..|trace|] == trace;
  }

  /** The run's file is so many saves behind. */
  lemma {:induction false} FileIsBehind(trace: seq<Event>)
    requires Lawful(trace)
    ensures var latest := LatestAfter(trace);
      latest.Some? ==> RunFile(trace, latest.value.runRecordId) == Back(trace, Unfiled(trace))
  {
    if trace != [] {
      var init, e := trace[..|trace| - 1], trace[|trace| - 1];
      FileIsBehind(init);
      assert Lawful(init) && MayHappen(init, e);
      hide Lawful, Inv, Progress, Traced, SessionStart;
      match e
      case Saved(before, r) =>
        SaveKeepsOrRestarts(init, e, 0);
        if before.Some? && !Restarts(e) {
        } else {
          if before.Some? {
            NewIdsAreUnsaved(init, r.runRecordId);
          } else {
            NothingSaved(init, r.runRecordId);
          }
          UnsavedIsUnfiled(init, r.runRecordId);
        }
      case Filed(r) =>
        BackIsLatest(init);
      case _ =>
    }
  }

  /** The saves so far that did not reach the run's own file. */
  function Torn(trace: seq<Event>): int {
    if trace == [] then 0
    else
      var last := trace[|trace| - 1];
      Torn(trace[..|trace| - 1]) + (if last.Saved? then 1 else if last.Filed? then -1 else 0)
  }

  lemma {:induction false} UnfiledIsTorn(trace: seq<Event>)
    requires Lawful(trace)
    ensures Unfiled(trace) <= Torn(trace) && (!Calm(trace) ==> Torn(trace) >= 1)
  {
    if trace != [] {
      var init, e := trace[..|trace| - 1], trace[|trace| - 1];
      UnfiledIsTorn(init);
      assert Lawful(init) && MayHappen(init, e);
      hide Lawful, MayHappen;
      if e.Filed? {
        assert !Calm(init) by { FiledAfterSaved(init, e); }
      }
    }
  }

  lemma FiledAfterSaved(trace: seq<Event>, e: Event)
    requires MayHappen(trace, e) && e.Filed?
    ensures !Calm(trace)
  {
  }

  /**
   * At every moment the run's file holds the record of so many saves ago as were torn since it was last written: none
   * after a completed save, one after a death between the two writes, one more for each further death of that kind. A
   * torn save is the last thing that its process did.
   */
  lemma RunFileFollowsLatest(sessions: seq<Session>, k: nat)
    requires k <= |Life(sessions)|
    ensures var trace := Life(sessions)[..k];
      && (LatestAfter(trace).Some? ==>
            RunFile(trace, LatestAfter(trace).value.runRecordId) == Back(trace, Unfiled(trace)))
      && Back(trace, 0) == LatestAfter(trace)
      && Unfiled(trace) <= Torn(trace)
      && (trace != [] && trace[|trace| - 1].Filed? ==> Unfiled(trace) == 0)
    ensures k + 1 < |Life(sessions)| && Life(sessions)[k].Saved? ==>
              Life(sessions)[k + 1] == Filed(Life(sessions)[k].record) || Life(sessions)[k + 1].Started?
  {
    LifeIsLawful(sessions);
    hide Life, Inv, Traced;
    var life := Life(sessions);
    PrefixIsLawful(life, k);
    FileIsBehind(life[..k]);
    BackIsLatest(life[..k]);
    UnfiledIsTorn(life[..k]);
    if k + 1 < |life| {
      PrefixIsLawful(life, k + 1);
      assert life[..k + 1][|life[..k + 1]| - 1] == life[k];
    }
  }

  // ---- Causal order ----

  /** Every mutating request of every run leaves only when the disk holds what it builds on and not yet what it asks
      for, and names exactly what the disk holds. Only a dry run may ask for gaps when a claim is on record. */
  lemma RequestsAreCausal(sessions: seq<Session>, k: nat)
    requires k < |Life(sessions)| && Life(sessions)[k].Sent?
    ensures var e := Life(sessions)[k];
            && e.before == LatestAfter(Life(sessions)[..k])
            && MaySend(e.request, e.before)
            && (e.request.Realize? ==> e.before.Some? && Progress(e.before.value) >= 4 && !e.before.value.IsSettled())
            && (e.request.CompileContext? ==> e.before.Some? && Progress(e.before.value) == 3)
            && (e.request.RegisterRepo? ==> e.before.Some? && Progress(e.before.value) == 2)
            && (e.request.ClaimGap? || e.request.CompilePreclaim? ==> e.before.Some? && Progress(e.before.value) == 1)
            && (e.request.ListGaps? && SessionStart(Life(sessions)[..k]).command != RunCommand(true) ==>
                  e.before.Some? && Progress(e.before.value) <= 1)
  {
    LifeIsLawful(sessions);
    hide Life, SessionStart, SessionGaps;
    var trace := Life(sessions);
    PrefixIsLawful(trace, k);
    LatestIsInvariant(trace[..k]);
  }

  /** Nothing recorded is asked for again: without a restart in between, a claim, registration or compile request is the
      last of its kind once the prefix holds its answer. */
  lemma RecordedStepsAreNotRepeated(sessions: seq<Session>, i: nat, k: nat)
    requires i <= k < |Life(sessions)| && Life(sessions)[k].Sent?
    requires forall m :: i <= m < k ==> !Restarts(Life(sessions)[m])
    ensures var trace := Life(sessions);
            && (ProgressOf(LatestAfter(trace[..i])) >= 2 ==>
                  !trace[k].request.ClaimGap? && !trace[k].request.CompilePreclaim?)
            && (ProgressOf(LatestAfter(trace[..i])) >= 3 ==> !trace[k].request.RegisterRepo?)
            && (ProgressOf(LatestAfter(trace[..i])) >= 4 ==> !trace[k].request.CompileContext?)
  {
    ProgressIsNeverLost(sessions, i, k);
    RequestsAreCausal(sessions, k);
    hide Life, MaySend, Progress, SessionStart;
  }

  // ---- Receipts ----

  /** Fail closed: at every moment of every run, a record that claims live confirmation or names a receipt
      satisfies all six conditions. */
  lemma ConfirmationIsFailClosed(sessions: seq<Session>, k: nat)
    requires k <= |Life(sessions)|
    ensures var r := LatestAfter(Life(sessions)[..k]);
            r.Some? && (r.value.liveConfirmed || r.value.receiptId != "") ==>
              && r.value.liveConfirmed && r.value.governed && r.value.eventSpineEvidence
              && r.value.verdict == "ACCEPT" && r.value.driftState != "" && r.value.contextId != ""
              && r.value.mcpEventId != "" && IsWhole(r.value) && Progress(r.value) == 5
  {
    LifeIsLawful(sessions);
    hide Life;
    PrefixIsLawful(Life(sessions), k);
    LatestIsInvariant(Life(sessions)[..k]);
  }

  // ---- Claims ----

  /** No stale gap is claimed: the id in a claim was given by the operator or learned in the same session. It is
      the recorded gap exactly when there is no operator's choice or the choice agrees with the record. */
  lemma ClaimsAreLive(sessions: seq<Session>, k: nat)
    requires k < |Life(sessions)| && Life(sessions)[k].Sent? && Life(sessions)[k].request.ClaimGap?
    ensures var trace := Life(sessions);
            var operator := SessionStart(trace[..k]).operatorGap;
            && trace[k].request.gapId in SessionGaps(trace[..k])
            && (operator != "" ==> trace[k].request.gapId == operator)
            && trace[k].before.Some?
            && (trace[k].before.value.gapId == trace[k].request.gapId <==>
                operator == "" || operator == trace[k].before.value.gapId)
  {
    LifeIsLawful(sessions);
    hide Life, SessionStart, SessionGaps;
    PrefixIsLawful(Life(sessions), k);
  }

  /** The claim on record was written by the session that asked for it, not by a later one that recovered it. */
  predicate AtOnce(trace: seq<Event>) {
    trace != [] &&
      var init := trace[..|trace| - 1];
      match trace[|trace| - 1]
      case Saved(before, r) =>
        if r.HasClaim() && !(before.Some? && before.value.HasClaim()) then Asking(init).now else AtOnce(init)
      case _ => AtOnce(init)
  }

  /** What the trace says about the gap on record, while a claim is awaited and once it is there. */
  predicate GapIsTraced(trace: seq<Event>, r: Record) {
    var ask := Asking(trace);
    && (r.HasClaim() ==> r.gapId == if AtOnce(trace) then ask.gapId else ask.recordedGap)
    && (!r.HasClaim() && r.step.GapClaim? ==> r.gapId == ask.recordedGap)
    && (ConcernsClaim(r) ==> ask.gapId == if ask.operatorGap != "" then ask.operatorGap else ask.recordedGap)
  }

  lemma {:induction false} AskedGap(trace: seq<Event>)
    requires Lawful(trace)
    ensures var ask := Asking(trace);
      ask.gapId == if ask.operatorGap != "" then ask.operatorGap else ask.recordedGap
  {
    if trace != [] {
      AskedGap(trace[..|trace| - 1]);
      hide Inv, Traced, SessionStart, SessionGaps, IdsBelow;
    }
  }

  lemma {:induction false} ClaimIsTraced(trace: seq<Event>)
    requires Lawful(trace)
    ensures LatestAfter(trace).Some? ==> GapIsTraced(trace, LatestAfter(trace).value)
  {
    AskedGap(trace);
    if trace != [] {
      var init, e := trace[..|trace| - 1], trace[|trace| - 1];
      ClaimIsTraced(init);
      assert Lawful(init) && MayHappen(init, e);
      hide Lawful, Inv, SessionStart, SessionGaps, IdsBelow;
      match e
      case Saved(before, r) =>
        SaveKeepsOrRestarts(init, e, 0);
        assert Asking(trace) == Asking(init);
      case Sent(request, before) =>
        if request.ClaimGap? {
          assert !before.value.HasClaim();
        }
      case _ =>
    }
  }

  /**
   * The gap on record and the gap that was claimed: at every moment of every run, a record with a claim names the gap
   * of the last claim request exactly if the session that asked also recorded the answer, or its operator chose no
   * gap, or chose the gap that was on record when it asked.
   */
  lemma RecordedClaimNamesItsGap(sessions: seq<Session>, k: nat)
    requires k <= |Life(sessions)|
    ensures var trace := Life(sessions)[..k];
      var r, ask := LatestAfter(trace), Asking(trace);
      r.Some? && r.value.HasClaim() ==>
        (r.value.gapId == ask.gapId
         <==> AtOnce(trace) || ask.operatorGap == "" || ask.operatorGap == ask.recordedGap)
  {
    LifeIsLawful(sessions);
    hide Life;
    PrefixIsLawful(Life(sessions), k);
    ClaimIsTraced(Life(sessions)[..k]);
    hide Asking, AtOnce, LatestAfter;
  }

  // ---- One session ----

  lemma {:induction false} SameSession(trace: seq<Event>, k: nat)
    requires SessionStart(trace).at <= k <= |trace|
    ensures SessionStart(trace[..k]) == SessionStart(trace)
    decreases |trace| - k
  {
    if k == |trace| {
      assert trace[..k] == trace;
    } else {
      SameSession(trace, k + 1);
      assert trace[..k + 1][..k] == trace[..k];
    }
  }

  lemma {:induction false} SessionBeganBefore(trace: seq<Event>)
    ensures SessionStart(trace).at <= |trace|
  {
    if trace != [] {
      SessionBeganBefore(trace[..|trace| - 1]);
    }
  }

  lemma {:induction false} StillSaved(trace: seq<Event>, n: nat, k: nat)
    requires n <= k <= |trace| && SavedNow(trace[..n]) && forall i :: n <= i < k ==> !trace[i].Started?
    ensures SavedNow(trace[..k])
    decreases k
  {
    if k > n {
      StillSaved(trace, n, k - 1);
      assert trace[..k][..k - 1] == trace[..k - 1];
    }
  }

  lemma {:induction false} NoStartSince(trace: seq<Event>, k: nat)
    requires SessionStart(trace).at <= k < |trace|
    ensures !trace[k].Started?
    decreases |trace| - k
  {
    if k + 1 < |trace| {
      assert SessionStart(trace) == SessionStart(trace[..|trace| - 1]);
      NoStartSince(trace[..|trace| - 1], k);
    }
  }

  /** A session that goes on with the saved record, or with the record that it began, does not restart. */
  lemma SessionDoesNotRestart(s: Sys, s': Sys)
    requires Good(s) && Good(s') && Continues(s, s')
    requires !MayStartOver(SessionStart(s.trace).command) || SavedNow(s.trace)
    ensures forall k :: |s.trace| <= k < |s'.trace| ==> !Restarts(s'.trace[k])
  {
    var trace := s'.trace;
    SessionBeganBefore(s.trace);
    assert trace[..|s.trace|] == s.trace;
    hide Inv, IdsBelow, RunsAfter, SessionGaps, SessionStart, Traced, LatestAfter, SavedNow, Lawful, MayHappen;
    assert Lawful(trace) by { GoodIsLawful(s'); }
    forall k | |s.trace| <= k < |trace|
      ensures !trace[k].Started?
    {
      NoStartSince(trace, k);
    }
    forall k | |s.trace| <= k < |trace|
      ensures !Restarts(trace[k])
    {
      SameSession(trace, k);
      PrefixIsLawful(trace, k);
      if SavedNow(s.trace) {
        StillSaved(trace, |s.trace|, k);
      }
      if trace[k].Saved? {
        SaveKeepsOrRestarts(trace[..k], trace[k], 0);
      }
    }
  }

  lemma GoodIsLawful(s: Sys)
    requires Good(s)
    ensures Lawful(s.trace)
  {
  }

  lemma SessionKeepsProgress(s: Sys, s': Sys)
    requires Good(s) && Good(s') && Continues(s, s')
    requires !MayStartOver(SessionStart(s.trace).command) || SavedNow(s.trace)
    ensures ProgressOf(s.disk.latest) <= ProgressOf(s'.disk.latest)
    ensures s.disk.latest.Some? ==>
              && s'.disk.latest.Some? && s'.disk.latest.value.runRecordId == s.disk.latest.value.runRecordId
              && s'.disk.latest.value.createdAt == s.disk.latest.value.createdAt
  {
    var trace := s'.trace;
    SessionDoesNotRestart(s, s');
    hide Inv, Progress, IdsBelow, RunsAfter, SessionGaps, SessionStart, LatestAfter, SavedNow, Lawful, Restarts;
    assert trace[..|s.trace|] == s.trace && trace[..|trace|] == trace;
    ProgressGrows(trace, |s.trace|, |trace|);
  }

  /** Files in a longer trace. */
  lemma RunsOfPrefix(trace: seq<Event>, n: nat, k: nat)
    requires Lawful(trace) && n <= k <= |trace|
    ensures forall id :: id in RunsAfter(trace[..n]) ==>
              && id in RunsAfter(trace[..k])
              && Progress(RunsAfter(trace[..n])[id]) <= Progress(RunsAfter(trace[..k])[id])
  {
    hide Lawful, Progress, RunsAfter;
    forall id | id in RunsAfter(trace[..n])
      ensures id in RunsAfter(trace[..k])
      ensures Progress(RunsAfter(trace[..n])[id]) <= Progress(RunsAfter(trace[..k])[id])
    {
      RunsGrow(trace, n, k, id);
    }
  }

  /** One invocation, whatever it is and wherever it dies, keeps every run's file. */
  lemma InvocationKeepsRuns(session: Session, s: Sys)
    requires Sound(s)
    ensures var s' := RunOne(session, s);
      && Sound(s')
      && forall id :: id in s.disk.runs ==>
           id in s'.disk.runs && Progress(s.disk.runs[id]) <= Progress(s'.disk.runs[id])
  {
    hide Begin, Starting, Execute, Progress, Inv, Lawful, LatestAfter, SessionStart, SessionGaps, Asking, SavedNow,
         RunsAfter, IdsBelow;
    var b := Begin(session.cfg, session.command, s, session.tape);
    BeginIsSafe(session.cfg, session.command, s, session.tape);
    ExecuteIsSafe(session.cfg, session.command, b);
    var full := Execute(session.cfg, session.command, b).sys;
    var events := |s.trace| + session.life;
    DyingIsSound(full, events);
    var s' := DieAfter(full, events);
    assert s.trace <= full.trace;
    assert full.trace[..|s'.trace|] == s'.trace && full.trace[..|s.trace|] == s.trace;
    RunsOfPrefix(full.trace, |s.trace|, |s'.trace|);
  }

  /** The session is this resume; a run of the flow resumes the saved record too. */
  predicate CommandIsResume(s: Sys, useLast: bool) {
    var command := SessionStart(s.trace).command;
    command == ResumeCommand(useLast) || (useLast && command == RunCommand(false))
  }

  lemma ResumePromises(cfg: Config, s: Sys, useLast: bool)
    requires Starting(cfg, s) && CommandIsResume(s, useLast)
    ensures var r := Resume(cfg, s, useLast);
      && Good(r.sys)
      && (useLast ==> ProgressOf(s.disk.latest) <= ProgressOf(r.sys.disk.latest))
      && (r.out.Ok? ==> && r.sys.disk.latest == Some(r.out.value)
                        && Progress(r.out.value) == 5 && IsWhole(r.out.value))
  {
    hide Good, Progress, IsWhole, Resume, SessionStart, Asking;
    ResumeIsSafe(cfg, s, useLast);
    if useLast {
      SessionKeepsProgress(s, Resume(cfg, s, useLast).sys);
    }
  }
}
