// What each answer of the server means, and exactly how the loop goes that waits for a promised one.
module FlowAnswers {
  import opened Json
  import opened Text
  import opened Options
  import opened GovernanceReceipts
  import opened ReplyFields
  import opened FlowState
  import opened FlowSpec

  // ---- One answer ----

  /** An answer that can be read: no error code, an object, and not marked as a failure. */
  predicate IsReadable(reply: Reply) {
    reply.Http? && reply.code < 400 && reply.body.Obj? && At(reply.body, ["ok"]) != Bool(false)
  }

  /** What becomes of an answer: its body, or the reason why it is refused. */
  lemma AnswersAreJudged(reply: Reply)
    ensures AsAccepted(reply)
            == if IsReadable(reply) then Ok(reply.body)
               else if (reply.Http? || reply.NotJson?) && reply.code >= 400 then Err(HttpError(reply.code))
               else if reply.Http? then Err(if reply.body.Obj? then Rejected else NotAnObject)
               else Abort
  {
    hide Get, At;
    if reply.Http? {
      AtOne(reply.body, "ok");
    }
  }

  // ---- The words of a status ----

  /** The status, of the payload or else of the envelope, is one of these words, in whatever case. */
  ghost predicate HasWord(data: Json, words: seq<string>) {
    exists text :: IsFirstText(data, [["data", "status"], ["status"]], text) && Lower(text) in words
  }

  ghost predicate Promises(data: Json) {
    HasWord(data, ["accepted", "queued", "pending", "running", "started"])
  }

  ghost predicate Fails(data: Json) {
    HasWord(data, ["failed", "canceled", "cancelled", "timed_out"])
  }

  ghost predicate Ends(data: Json) {
    || HasWord(data, ["completed", "succeeded", "success", "failed", "canceled", "cancelled", "timed_out"])
    || At(data, ["data", "is_terminal"]) == Bool(true)
  }

  lemma StatusIsFirstFound(data: Json)
    ensures exists text :: IsFirstText(data, [["data", "status"], ["status"]], text) && RunStatus(data) == Lower(text)
  {
    hide Get, Sub, At, FirstString, IsFirstText, Lower;
    AtTwo(data, "data", "status");
    AtOne(data, "status");
    TextIsFirst(data, [["data", "status"], ["status"]], [Get(Sub(data, "data"), "status"), Get(data, "status")]);
  }

  lemma WordIsStatus(data: Json, words: seq<string>)
    ensures HasWord(data, words) <==> RunStatus(data) in words
  {
    hide IsFirstText, RunStatus, Lower;
    StatusIsFirstFound(data);
    var text :| IsFirstText(data, [["data", "status"], ["status"]], text) && RunStatus(data) == Lower(text);
    forall other | IsFirstText(data, [["data", "status"], ["status"]], other) ensures other == text {
      FirstTextIsUnique(data, [["data", "status"], ["status"]], text, other);
    }
  }

  /** Which words promise, which end, and which of those are failures; a flag ends a run too. */
  lemma WordsAreRead(data: Json)
    ensures IsActive(RunStatus(data)) <==> Promises(data)
    ensures IsFailed(RunStatus(data)) <==> Fails(data)
    ensures IsFinished(data) <==> Ends(data)
  {
    hide HasWord, RunStatus, Get, Sub, At;
    WordIsStatus(data, ["accepted", "queued", "pending", "running", "started"]);
    WordIsStatus(data, ["failed", "canceled", "cancelled", "timed_out"]);
    WordIsStatus(data, ["completed", "succeeded", "success", "failed", "canceled", "cancelled", "timed_out"]);
    AtTwo(data, "data", "is_terminal");
  }

  // ---- Waiting ----

  /** An answer to a poll that leaves everything open. */
  ghost predicate IsUnfinished(reply: Reply) {
    IsReadable(reply) && !Ends(reply.body)
  }

  lemma PollIsJudged(reply: Reply)
    ensures IsUnfinished(reply) <==> AsAccepted(reply).Ok? && !IsFinished(AsAccepted(reply).value)
    ensures AsAccepted(reply).Ok? ==> AsAccepted(reply) == Ok(reply.body)
  {
    hide HasWord, RunStatus, IsFinished, Ends, Get, Sub, At, Fails;
    AnswersAreJudged(reply);
    if IsReadable(reply) {
      WordsAreRead(reply.body);
    }
  }

  /** What any other answer to a poll brings: the result, the failure of the run, or the refusal of the answer. */
  ghost function Decided(reply: Reply): Outcome<Json> {
    if !IsReadable(reply) then AsAccepted(reply)
    else if Fails(reply.body) then Err(RunFailed(FailureCode(reply.body)))
    else Ok(reply.body)
  }

  /** The events of one round of polls, as far as there are answers. */
  function RoundEvents(latest: Option<Record>, paths: seq<string>, answers: seq<Reply>): seq<Event>
    requires |answers| <= |paths|
  {
    if answers == [] then []
    else [Sent(Poll(paths[0]), latest), Got(answers[0])] + RoundEvents(latest, paths[1..], answers[1..])
  }

  /** Round after round over the same addresses. */
  function PollEvents(latest: Option<Record>, paths: seq<string>, answers: seq<Reply>): seq<Event>
    requires paths != []
    decreases |answers|
  {
    if |answers| <= |paths| then RoundEvents(latest, paths, answers)
    else RoundEvents(latest, paths, answers[..|paths|]) + PollEvents(latest, paths, answers[|paths|..])
  }

  /** Nothing else changed than that these events happened and this many answers are used up. */
  function Polled(s: Sys, used: nat, events: seq<Event>): Sys
    requires used <= |s.tape|
  {
    s.(tape := s.tape[used..], trace := s.trace + events)
  }

  lemma FirstPoll(s: Sys, paths: seq<string>)
    requires paths != [] && s.tape != []
    ensures Call(s, Poll(paths[0]))
            == Run(Polled(s, 1, [Sent(Poll(paths[0]), s.disk.latest), Got(s.tape[0])]), AsAccepted(s.tape[0]))
  {
    hide AsAccepted;
    assert s.trace + [Sent(Poll(paths[0]), s.disk.latest)] + [Got(s.tape[0])]
           == s.trace + [Sent(Poll(paths[0]), s.disk.latest), Got(s.tape[0])];
  }

  lemma PolledTwice(s: Sys, a: nat, b: nat, first: seq<Event>, second: seq<Event>)
    requires a + b <= |s.tape|
    ensures Polled(Polled(s, a, first), b, second) == Polled(s, a + b, first + second)
  {
    assert s.tape[a..][b..] == s.tape[a + b..];
    assert s.trace + first + second == s.trace + (first + second);
  }

  lemma {:induction false} RoundPasses(s: Sys, paths: seq<string>)
    requires |paths| <= |s.tape| && forall j :: 0 <= j < |paths| ==> IsUnfinished(s.tape[j])
    ensures WaitRound(s, paths)
            == Run(Polled(s, |paths|, RoundEvents(s.disk.latest, paths, s.tape[..|paths|])), Ok(None))
    decreases |paths|
  {
    hide IsUnfinished, AsAccepted, IsFinished, Call, RunStatus, IsFailed;
    if paths == [] {
      assert s.tape[..0] == [] && s.tape[0..] == s.tape && s.trace + [] == s.trace;
    } else {
      FirstPoll(s, paths);
      PollIsJudged(s.tape[0]);
      var first := [Sent(Poll(paths[0]), s.disk.latest), Got(s.tape[0])];
      var s1 := Polled(s, 1, first);
      assert forall j :: 0 <= j < |paths| - 1 ==> s1.tape[j] == s.tape[j + 1];
      RoundPasses(s1, paths[1..]);
      assert s.tape[..|paths|][1..] == s1.tape[..|paths| - 1];
      PolledTwice(s, 1, |paths| - 1, first, RoundEvents(s.disk.latest, paths[1..], s1.tape[..|paths| - 1]));
    }
  }

  lemma {:induction false} RoundIsDecided(s: Sys, paths: seq<string>, k: nat)
    requires k < |paths| && k < |s.tape|
    requires (forall j :: 0 <= j < k ==> IsUnfinished(s.tape[j])) && !IsUnfinished(s.tape[k])
    ensures var s' := Polled(s, k + 1, RoundEvents(s.disk.latest, paths, s.tape[..k + 1]));
      WaitRound(s, paths)
      == Run(s', if Decided(s.tape[k]).Ok? then Ok(Some(Decided(s.tape[k]).value)) else Decided(s.tape[k]).Fail())
    decreases k
  {
    hide IsUnfinished, AsAccepted, IsFinished, Call, RunStatus, IsFailed, Fails, IsReadable, FailureCode;
    FirstPoll(s, paths);
    PollIsJudged(s.tape[0]);
    var first := [Sent(Poll(paths[0]), s.disk.latest), Got(s.tape[0])];
    var s1 := Polled(s, 1, first);
    if k == 0 {
      assert s.tape[..1] == [s.tape[0]] && [s.tape[0]][1..] == [];
      assert RoundEvents(s.disk.latest, paths, s.tape[..1]) == first + [] == first;
      LastPollDecides(s.tape[0]);
    } else {
      assert forall j :: 0 <= j < k ==> s1.tape[j] == s.tape[j + 1];
      RoundIsDecided(s1, paths[1..], k - 1);
      assert s.tape[..k + 1][1..] == s1.tape[..k];
      PolledTwice(s, 1, k, first, RoundEvents(s.disk.latest, paths[1..], s1.tape[..k]));
    }
  }

  lemma LastPollDecides(reply: Reply)
    requires !IsUnfinished(reply)
    ensures Decided(reply)
            == if !AsAccepted(reply).Ok? then AsAccepted(reply)
               else if IsFailed(RunStatus(reply.body)) then Err(RunFailed(FailureCode(reply.body)))
               else Ok(reply.body)
  {
    hide AsAccepted, RunStatus, IsFailed, Fails, FailureCode, Ends;
    AnswersAreJudged(reply);
    if IsReadable(reply) {
      WordsAreRead(reply.body);
    }
  }

  /** Poll k is the first of a round. */
  predicate OpensRound(k: nat, addresses: nat)
    requires addresses > 0
  {
    k == 0 || (k >= addresses && OpensRound(k - addresses, addresses))
  }

  /**
   * The loop that waits: it polls the addresses in turn, round after round, until an answer leaves nothing open, and
   * that answer decides. The deadline counts at the beginning of a round only; within one it is a broken answer.
   */
  lemma {:induction false} WaitIsDecided(s: Sys, paths: seq<string>, k: nat)
    requires paths != [] && k < |s.tape|
    requires (forall j :: 0 <= j < k ==> IsUnfinished(s.tape[j])) && !IsUnfinished(s.tape[k])
    ensures Wait(s, paths)
            == if s.tape[k].TimeUp? && OpensRound(k, |paths|)
               then Run(Polled(s, k + 1, PollEvents(s.disk.latest, paths, s.tape[..k])), Err(Late))
               else Run(Polled(s, k + 1, PollEvents(s.disk.latest, paths, s.tape[..k + 1])), Decided(s.tape[k]))
    decreases k
  {
    hide IsUnfinished, Decided, WaitRound, Ends, RoundEvents, Polled;
    var n := |paths|;
    if k < n {
      LastRound(s, paths, k);
    } else {
      hide PollEvents, OpensRound, Wait;
      var round := RoundEvents(s.disk.latest, paths, s.tape[..n]);
      var s1 := Polled(s, n, round);
      PolledReads(s, n, round);
      assert forall j :: 0 <= j <= k - n ==> s1.tape[j] == s.tape[j + n];
      WaitIsDecided(s1, paths, k - n);
      WaitGoesOn(s, paths);
      NextRounds(s, paths, k, s1);
      if s.tape[k].TimeUp? && OpensRound(k - n, n) {
        PolledTwice(s, n, k - n + 1, round, PollEvents(s.disk.latest, paths, s1.tape[..k - n]));
      } else {
        PolledTwice(s, n, k - n + 1, round, PollEvents(s.disk.latest, paths, s1.tape[..k - n + 1]));
      }
    }
  }

  lemma WaitGoesOn(s: Sys, paths: seq<string>)
    requires 0 < |paths| <= |s.tape| && forall j :: 0 <= j < |paths| ==> IsUnfinished(s.tape[j])
    ensures Wait(s, paths)
            == Wait(Polled(s, |paths|, RoundEvents(s.disk.latest, paths, s.tape[..|paths|])), paths)
  {
    hide IsUnfinished, WaitRound, RoundEvents;
    UnfinishedIsInTime(s.tape[0]);
    RoundPasses(s, paths);
  }

  lemma NextRounds(s: Sys, paths: seq<string>, k: nat, s1: Sys)
    requires 0 < |paths| <= k < |s.tape| && s1.tape == s.tape[|paths|..]
    ensures var n, latest := |paths|, s.disk.latest;
      var round := RoundEvents(latest, paths, s.tape[..n]);
      && PollEvents(latest, paths, s.tape[..k]) == round + PollEvents(latest, paths, s1.tape[..k - n])
      && PollEvents(latest, paths, s.tape[..k + 1]) == round + PollEvents(latest, paths, s1.tape[..k - n + 1])
      && OpensRound(k, n) == OpensRound(k - n, n)
  {
    hide PollEvents, RoundEvents;
    AnotherRound(s, paths, k);
    AnotherRound(s, paths, k + 1);
  }

  lemma PolledReads(s: Sys, used: nat, events: seq<Event>)
    requires used <= |s.tape|
    ensures var s' := Polled(s, used, events); s'.tape == s.tape[used..] && s'.disk == s.disk
  {
  }

  lemma LastRound(s: Sys, paths: seq<string>, k: nat)
    requires k < |paths| && k < |s.tape|
    requires (forall j :: 0 <= j < k ==> IsUnfinished(s.tape[j])) && !IsUnfinished(s.tape[k])
    ensures Wait(s, paths)
            == if s.tape[k].TimeUp? && k == 0
               then Run(Polled(s, 1, PollEvents(s.disk.latest, paths, [])), Err(Late))
               else Run(Polled(s, k + 1, PollEvents(s.disk.latest, paths, s.tape[..k + 1])), Decided(s.tape[k]))
  {
    hide IsUnfinished, Decided, WaitRound, Ends, RoundEvents, Polled;
    if k == 0 && s.tape[0].TimeUp? {
      NoEvents(s, paths);
    } else {
      if k > 0 {
        UnfinishedIsInTime(s.tape[0]);
      }
      RoundIsDecided(s, paths, k);
    }
  }

  lemma NoEvents(s: Sys, paths: seq<string>)
    requires paths != [] && s.tape != []
    ensures Polled(s, 1, PollEvents(s.disk.latest, paths, [])) == s.(tape := s.tape[1..])
  {
    assert s.trace + [] == s.trace;
  }

  lemma FullRound(latest: Option<Record>, paths: seq<string>, answers: seq<Reply>)
    requires 0 < |paths| <= |answers|
    ensures PollEvents(latest, paths, answers)
            == RoundEvents(latest, paths, answers[..|paths|]) + PollEvents(latest, paths, answers[|paths|..])
  {
    hide RoundEvents;
    if |answers| == |paths| {
      assert answers[..|paths|] == answers && answers[|paths|..] == [];
      NoRound(latest, paths);
    }
  }

  lemma NoRound(latest: Option<Record>, paths: seq<string>)
    ensures RoundEvents(latest, paths, []) == []
  {
  }

  /** The rounds of the first k answers: a whole one, and those after it. */
  lemma AnotherRound(s: Sys, paths: seq<string>, k: nat)
    requires 0 < |paths| <= k <= |s.tape|
    ensures PollEvents(s.disk.latest, paths, s.tape[..k])
            == RoundEvents(s.disk.latest, paths, s.tape[..|paths|])
               + PollEvents(s.disk.latest, paths, s.tape[|paths|..][..k - |paths|])
  {
    hide PollEvents, RoundEvents;
    var n := |paths|;
    FullRound(s.disk.latest, paths, s.tape[..k]);
    assert s.tape[..k][..n] == s.tape[..n];
    assert s.tape[..k][n..] == s.tape[n..][..k - n];
  }

  lemma UnfinishedIsInTime(reply: Reply)
    requires IsUnfinished(reply)
    ensures !reply.TimeUp?
  {
  }

  /** If every answer leaves everything open, the client waits for ever: its process dies with the last one. */
  lemma {:induction false} NobodyDecides(s: Sys, paths: seq<string>)
    requires paths != [] && forall j :: 0 <= j < |s.tape| ==> IsUnfinished(s.tape[j])
    ensures Wait(s, paths).out == Crash
    decreases |s.tape|
  {
    hide IsUnfinished, RoundEvents;
    if s.tape != [] {
      UnfinishedIsInTime(s.tape[0]);
    }
    if |s.tape| < |paths| {
      RoundRunsOut(s, paths);
    } else {
      RoundPasses(s, paths);
      var s1 := Polled(s, |paths|, RoundEvents(s.disk.latest, paths, s.tape[..|paths|]));
      assert forall j :: 0 <= j < |s1.tape| ==> s1.tape[j] == s.tape[j + |paths|];
      NobodyDecides(s1, paths);
    }
  }

  lemma {:induction false} RoundRunsOut(s: Sys, paths: seq<string>)
    requires |s.tape| < |paths| && forall j :: 0 <= j < |s.tape| ==> IsUnfinished(s.tape[j])
    ensures WaitRound(s, paths).out == Crash
    decreases |paths|
  {
    hide IsUnfinished, AsAccepted, IsFinished, RunStatus, IsFailed;
    if s.tape != [] {
      FirstPoll(s, paths);
      PollIsJudged(s.tape[0]);
      hide Call;
      var s1 := Polled(s, 1, [Sent(Poll(paths[0]), s.disk.latest), Got(s.tape[0])]);
      assert forall j :: 0 <= j < |s1.tape| ==> s1.tape[j] == s.tape[j + 1];
      RoundRunsOut(s1, paths[1..]);
    }
  }

  /** Where a promised answer is asked for: the address that came with the promise, and the one made of the run's id. */
  lemma AddressesToPoll(runId: string, pollUrl: string)
    ensures var byId := "/mcp/v1/runs/" + runId + "/status";
      WaitPaths(runId, pollUrl)
      == (if pollUrl != "" then [pollUrl] else []) + (if runId != "" && byId != pollUrl then [byId] else [])
  {
  }

  /** A promised answer is saved before it is asked for: the step of the call, the word of the promise, and where the
      run is to be found. A promise without that ends the call. */
  lemma PromiseIsSaved(s: Sys, data: Json, action: Action)
    requires Promises(data)
    ensures var s' := Persist(s, Current(s).(step := PendingPhase(action), status := RunStatus(data), terminal := false,
                                             runId := RunIdOf(data), pollUrl := PollUrlOf(data)));
      Settle(s, data, action)
      == if RunIdOf(data) == "" && PollUrlOf(data) == "" then Run(s', Err(NoRunHandle))
         else Wait(s', WaitPaths(RunIdOf(data), PollUrlOf(data)))
  {
    hide Promises, RunStatus, IsActive, RunIdOf, PollUrlOf, Wait, Persist;
    WordsAreRead(data);
  }

  /** Any other answer is the result. */
  lemma OtherAnswersAreResults(s: Sys, data: Json, action: Action)
    requires !Promises(data)
    ensures Settle(s, data, action) == Run(s, Ok(data))
  {
    hide Promises, RunStatus, IsActive;
    WordsAreRead(data);
  }

  /** A receipt is read if its time can be read and it meets all six conditions; it is refused exactly if one of them is
      missing. */
  lemma ReceiptIsReadOrRefused(cfg: Config, data: Json, candidate: string)
    ensures var x, out := Normalize(data, candidate, cfg.now), ReadReceipt(cfg, data, candidate);
      var confirmed := x.governed && x.eventSpineEvidence && x.verdict == "ACCEPT" && x.driftState != ""
                       && x.contextId != "" && x.mcpEventId != "";
      match cfg.parseTime(x.realizedAt)
      case None => out == Abort
      case Some(time) => out == if confirmed then Ok(x.(realizedAt := time)) else Err(UnconfirmedReceipt)
  {
    hide Normalize;
  }

  // ---- What a step does with its answer ----

  /** A context to claim with is compiled only if the server knows no digest, and has to have an id. */
  lemma PreclaimNeedsAnId(s: Sys, t: Sys, data: Json)
    requires CanonicalDigest(s).out == Ok("")
    requires CallAndSettle(CanonicalDigest(s).sys, CompilePreclaim, PreclaimCompiling) == Run(t, Ok(data))
    ensures ClaimDigest(s) == Run(t, if ContextIdOf(data) != "" then Ok(ContextIdOf(data)) else Err(MissingId))
  {
    hide CanonicalDigest, CallAndSettle, ContextIdOf;
  }

  /** A claim needs an id or a reference. */
  lemma ClaimNeedsAnId(s: Sys, t: Sys, data: Json, gap: string, digest: string)
    requires CallAndSettle(s, ClaimGap(gap), Claiming) == Run(t, Ok(data))
    ensures SendClaim(s, gap, digest)
            == Run(t, if ClaimIdOf(data) != "" || ClaimRefOf(data) != ""
                      then Ok(Claim(ClaimIdOf(data), ClaimRefOf(data), gap, t.mem.gapSource, digest))
                      else Err(MissingId))
  {
    hide CallAndSettle, ClaimIdOf, ClaimRefOf;
  }

  lemma RegistrationNeedsAnId(s: Sys, t: Sys, data: Json, digest: string)
    requires var r := Current(s);
      CallAndSettle(s, RegisterRepo(r.gapId, r.claimId, r.claimRef), Registering) == Run(t, Ok(data))
    ensures SendRegistration(s, digest)
            == Run(t, if TripsReader(data) then Abort
                      else if RegistrationIdOf(data) != "" then Ok(Registration(RegistrationIdOf(data), digest))
                      else Err(MissingId))
  {
    hide CallAndSettle, RegistrationIdOf, TripsReader;
  }

  lemma ContextNeedsAnId(s: Sys, t: Sys, data: Json)
    requires CallAndSettle(s, CompileContext(Current(s).registrationId), Compiling) == Run(t, Ok(data))
    ensures SendCompile(s) == Run(t, if ContextIdOf(data) != "" then Ok(ContextIdOf(data)) else Err(MissingId))
  {
    hide CallAndSettle, ContextIdOf;
  }

  /** The repository's own gate comes before everything that a realization saves or sends. */
  lemma GateComesFirst(cfg: Config, s: Sys)
    ensures cfg.gate.GateRejects? ==> RealizeGoverned(cfg, s) == Run(s, Err(GateRejected))
    ensures cfg.gate.GateBreaks? ==> RealizeGoverned(cfg, s) == Run(s, Abort)
    ensures cfg.gate.GatePasses? ==>
              var candidate := cfg.candidateFor(Current(s).contextId);
              var s1 := Persist(s, Current(s).(candidate := candidate));
              var r := CallAndSettle(s1, Realize(Current(s).contextId, candidate), Realizing);
              RealizeGoverned(cfg, s)
              == Run(r.sys, if r.out.Ok? then ReadReceipt(cfg, r.out.value, candidate) else r.out.Fail())
  {
    hide CallAndSettle, ReadReceipt, Persist;
  }

  // ---- Polling a saved run ----

  /** Where a saved run is asked for: once more the address that came with the promise, and two made of the id. */
  lemma AddressesOfSavedRun(runId: string, pollUrl: string)
    ensures var run := "/mcp/v1/runs/" + runId;
      SavedPaths(runId, pollUrl)
      == (if pollUrl != "" then [pollUrl] else [])
         + (if runId != "" && run != pollUrl then [run] else [])
         + (if runId != "" && run + "/status" != pollUrl then [run + "/status"] else [])
  {
    var run := "/mcp/v1/runs/" + runId;
    var byId := [run, run + "/status"];
    if runId != "" && pollUrl != "" {
      assert byId[1..] == [run + "/status"] && byId[1..][1..] == [];
      assert Without([run + "/status"], pollUrl) == if run + "/status" == pollUrl then [] else [run + "/status"];
      assert Without(byId, pollUrl) == (if run == pollUrl then [] else [run]) + Without([run + "/status"], pollUrl);
    }
  }

  /** The answer that there is no such run. */
  predicate SaysGone(reply: Reply) {
    (reply.Http? || reply.NotJson?) && reply.code == 404
  }

  /** What the answer that ends the polls of a saved run makes of it: the run is gone, the answer is refused, the run
      failed, or it brings its result. */
  ghost function PollEnd(cfg: Config, s: Sys, reply: Reply): Run<()> {
    var rec := Current(s);
    if SaysGone(reply) then
      Run(Persist(s, rec.(status := "RUN_NOT_FOUND", errorCode := "RUN_NOT_FOUND", terminal := false)),
          Err(RunNotFound))
    else if !IsReadable(reply) then Run(s, AsAccepted(reply).Fail())
    else if Fails(reply.body) then
      var code := if FailureCode(reply.body) != "" then FailureCode(reply.body) else "RUN_FAILED";
      Run(Persist(s, rec.(status := code, errorCode := code, terminal := true)), Err(RunFailed(code)))
    else TakeResult(cfg, s, reply.body)
  }

  lemma SavedPollEnds(cfg: Config, s: Sys, paths: seq<string>, last: string)
    requires paths != [] && s.tape != [] && !IsUnfinished(s.tape[0])
    ensures PollPaths(cfg, s, paths, last)
            == PollEnd(cfg, Polled(s, 1, [Sent(Poll(paths[0]), s.disk.latest), Got(s.tape[0])]), s.tape[0])
  {
    var reply := s.tape[0];
    AnswersAreJudged(reply);
    PollIsJudged(reply);
    if IsReadable(reply) {
      WordsAreRead(reply.body);
    }
    FetchIsPolled(s, Poll(paths[0]));
    hide AsAccepted, IsFinished, IsFailed, RunStatus, FailureCode, TakeResult, Persist, Fails, Ends, Fetch, Polled,
         Current;
  }

  lemma FetchIsPolled(s: Sys, request: Request)
    requires s.tape != []
    ensures Fetch(s, request)
            == Run(Polled(s, 1, [Sent(request, s.disk.latest), Got(s.tape[0])]), Ok(s.tape[0]))
  {
    assert s.trace + [Sent(request, s.disk.latest)] + [Got(s.tape[0])]
           == s.trace + [Sent(request, s.disk.latest), Got(s.tape[0])];
  }

  lemma SavedPollPasses(cfg: Config, s: Sys, paths: seq<string>, last: string)
    requires paths != [] && s.tape != [] && IsUnfinished(s.tape[0])
    ensures PollPaths(cfg, s, paths, last)
            == PollPaths(cfg, Polled(s, 1, [Sent(Poll(paths[0]), s.disk.latest), Got(s.tape[0])]), paths[1..],
                         Heard(s.tape[0]))
  {
    var reply := s.tape[0];
    AnswersAreJudged(reply);
    PollIsJudged(reply);
    FetchIsPolled(s, Poll(paths[0]));
    hide AsAccepted, IsFinished, IsFailed, RunStatus, FailureCode, TakeResult, Persist, Ends, Fetch, Polled, Current;
  }

  /** The status that an unfinished run reports. */
  function Heard(reply: Reply): string {
    if reply.Http? && RunStatus(reply.body) != "" then RunStatus(reply.body) else "pending"
  }

  /**
   * The polls of a saved run: one at each address, in order, until an answer leaves nothing open, and that answer
   * decides. If none does, the run stays as it is and the record takes over the status that was heard last.
   */
  lemma {:induction false} SavedRunIsDecided(cfg: Config, s: Sys, paths: seq<string>, last: string, k: nat)
    requires k <= |paths| && k <= |s.tape| && (forall j :: 0 <= j < k ==> IsUnfinished(s.tape[j]))
    requires k == |paths| || (k < |s.tape| && !IsUnfinished(s.tape[k]))
    ensures PollPaths(cfg, s, paths, last)
            == if k == |paths| then
                 var s' := Polled(s, k, RoundEvents(s.disk.latest, paths, s.tape[..k]));
                 var status := if k == 0 then last else Heard(s.tape[k - 1]);
                 Run(Persist(s', Current(s').(status := status, terminal := false)), Ok(()))
               else
                 PollEnd(cfg, Polled(s, k + 1, RoundEvents(s.disk.latest, paths, s.tape[..k + 1])), s.tape[k])
    decreases k
  {
    hide IsUnfinished, PollEnd, Persist, Polled, Heard;
    if k == 0 {
      if k == |paths| {
        NothingPolled(s, paths);
      } else {
        SavedPollEnds(cfg, s, paths, last);
        OneEvent(s.disk.latest, paths, s.tape);
      }
    } else {
      hide PollPaths;
      var first := [Sent(Poll(paths[0]), s.disk.latest), Got(s.tape[0])];
      var s1 := Polled(s, 1, first);
      PolledReads(s, 1, first);
      SavedPollPasses(cfg, s, paths, last);
      assert forall j :: 0 <= j < |s1.tape| ==> s1.tape[j] == s.tape[j + 1];
      SavedRunIsDecided(cfg, s1, paths[1..], Heard(s.tape[0]), k - 1);
      if k == |paths| {
        NextEvents(s, paths, s1, k);
      } else {
        NextEvents(s, paths, s1, k + 1);
      }
    }
  }

  lemma NothingPolled(s: Sys, paths: seq<string>)
    ensures Polled(s, 0, RoundEvents(s.disk.latest, paths, s.tape[..0])) == s
  {
    assert s.tape[0..] == s.tape && s.trace + [] == s.trace;
  }

  lemma OneEvent(latest: Option<Record>, paths: seq<string>, tape: seq<Reply>)
    requires paths != [] && tape != []
    ensures RoundEvents(latest, paths, tape[..1]) == [Sent(Poll(paths[0]), latest), Got(tape[0])]
  {
    assert tape[..1][1..] == [];
  }

  lemma NextEvents(s: Sys, paths: seq<string>, s1: Sys, k: nat)
    requires 0 < k <= |paths| && k <= |s.tape|
    requires s1 == Polled(s, 1, [Sent(Poll(paths[0]), s.disk.latest), Got(s.tape[0])])
    ensures k - 1 <= |s1.tape|
            && Polled(s1, k - 1, RoundEvents(s1.disk.latest, paths[1..], s1.tape[..k - 1]))
               == Polled(s, k, RoundEvents(s.disk.latest, paths, s.tape[..k]))
  {
    hide RoundEvents;
    var first := [Sent(Poll(paths[0]), s.disk.latest), Got(s.tape[0])];
    EventsAfterTheFirst(s.disk.latest, paths, s.tape, k);
    PolledTwice(s, 1, k - 1, first, RoundEvents(s.disk.latest, paths[1..], s.tape[1..][..k - 1]));
  }

  lemma EventsAfterTheFirst(latest: Option<Record>, paths: seq<string>, tape: seq<Reply>, k: nat)
    requires 0 < k <= |paths| && k <= |tape|
    ensures RoundEvents(latest, paths, tape[..k])
            == [Sent(Poll(paths[0]), latest), Got(tape[0])] + RoundEvents(latest, paths[1..], tape[1..][..k - 1])
  {
    assert tape[..k][1..] == tape[1..][..k - 1];
  }
}
