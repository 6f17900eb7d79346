// Concrete runs: a claim recorded under a gap that it does not name, and a run file left two saves behind.
module FlowStories {
  import opened Json
  import opened Text
  import opened Options
  import opened ReplyFields
  import opened FlowState
  import opened FlowPromises
  import opened FlowSpec
  import opened FlowRequests

  const OFFER := Capabilities(false, true, true, true, true, "gap_a", false)

  /** A server that offers gap_a and every operation. */
  function Settings(operatorGap: string): Config {
    Config(operatorGap, "", "repo", "", "", true, GatePasses, "now",
           _ => "", _ => OFFER, t => Some(t), c => c)
  }

  const HELLO := Http(200, EMPTY)
  const DIGEST := Obj([("current_canonical_digest", Str("d"))])
  const ACCEPTED := Obj([("status", Str("accepted")), ("run_id", Str("r"))])
  const CLAIMED := Obj([("status", Str("completed")), ("claim_id", Str("c"))])

  /** One resume that lives to see all of these answers. */
  function Whole(operatorGap: string, tape: seq<Reply>, s: Sys): Session {
    var cfg := Settings(operatorGap);
    Session(cfg, ResumeCommand(true), tape, |Resume(cfg, Start(operatorGap, tape, s), true).sys.trace|)
  }

  function Start(operatorGap: string, tape: seq<Reply>, s: Sys): Sys {
    Begin(Settings(operatorGap), ResumeCommand(true), s, tape)
  }

  lemma DigestReads()
    ensures AsAccepted(Http(200, DIGEST)) == Ok(DIGEST) && CanonicalDigestOf(DIGEST) == "d"
  {
    LookupFirst("current_canonical_digest", Str("d"), []);
    var inner, result := Get(DIGEST, "data"), Get(DIGEST, "result");
    var places := DigestsIn(DIGEST) + DigestsIn(inner) + DigestsIn(Get(inner, "result"))
                  + DigestsIn(result) + DigestsIn(Get(result, "result"));
    assert Sub(DIGEST, "canonical") == EMPTY && Get(EMPTY, "current_canonical_digest") == Null;
    assert places[0] == Null && places[1..][0] == Str("d");
    assert FirstString(places) == FirstString(places[1..]) == "d";
    assert TrimLeft("d") == "d" && TrimRight("d") == "d";
  }

  lemma PromiseReads()
    ensures AsAccepted(Http(202, ACCEPTED)) == Ok(ACCEPTED)
    ensures RunStatus(ACCEPTED) == "accepted" && RunIdOf(ACCEPTED) == "r" && PollUrlOf(ACCEPTED) == ""
  {
    LookupFirst("status", Str("accepted"), [("run_id", Str("r"))]);
    LookupFirst("run_id", Str("r"), []);
    assert Lower("accepted") == "accepted" && Lower("") == "";
  }

  lemma ClaimReads()
    ensures AsAccepted(Http(200, CLAIMED)) == Ok(CLAIMED) && ClaimIdOf(CLAIMED) == "c"
    ensures RunStatus(CLAIMED) == "completed" && IsFinished(CLAIMED) && !IsFailed(RunStatus(CLAIMED))
  {
    LookupFirst("status", Str("completed"), [("claim_id", Str("c"))]);
    LookupFirst("claim_id", Str("c"), []);
    assert Lower("completed") == "completed";
  }

  /** A record with the gap alone, and no run. */
  predicate HoldsGapA(s: Sys) {
    && s.disk.latest.Some?
    && var r := s.disk.latest.value;
    && r.gapId == "gap_a" && !r.HasClaim() && !r.HasRegistration() && !r.HasRun() && !r.terminal
  }

  /** A new repository, up to the phases. */
  lemma FirstOpening(s: Sys)
    requires s.disk.latest.None?
    ensures var cfg, b, r := Settings(""), Start("", [HELLO], s), NewRecord(s.clock).(status := "initialized");
      var o := Open(cfg, b, true);
      var d := DiscoverAndRecover(cfg, o.sys);
      && o.out.Ok? && d.out.Ok?
      && d.sys.trace == s.trace + [Started("", ResumeCommand(true)), Saved(None, r), Filed(r),
                                   Sent(ReadCapabilities, Some(r)), Got(HELLO)]
      && d.sys.mem == FRESH_MEMORY.(rec := Some(r), capabilities := OFFER)
      && d.sys.disk.latest == Some(r) && d.sys.tape == []
  {
  }

  lemma FirstGap(s: Sys)
    requires s.mem.rec.Some? && !Current(s).HasGap() && !Current(s).HasClaim() && !Current(s).HasRegistration()
    requires !Current(s).HasRun() && s.mem == FRESH_MEMORY.(rec := s.mem.rec, capabilities := OFFER)
    ensures var g := EnsureGap(Settings(""), s);
      && g.out.Ok? && HoldsGapA(g.sys) && g.sys.mem.rec == g.sys.disk.latest && g.sys.tape == s.tape
      && g.sys.mem.resolvedGap == "gap_a" && !g.sys.mem.gapVerified && g.sys.mem.capabilities == OFFER
  {
    hide DiscoverGap;
  }

  /** The process dies while it asks for the digest of its claim. */
  lemma DieOnClaim(s: Sys)
    requires HoldsGapA(s) && s.mem.rec == s.disk.latest && s.tape == []
    requires s.mem.resolvedGap == "gap_a" && !s.mem.gapVerified && s.mem.capabilities == OFFER
    ensures var r := EnsureClaim(Settings(""), s); !r.out.Ok? && HoldsGapA(r.sys)
  {
    hide DiscoverGap, CallAndSettle, ClaimIdOf, ClaimRefOf;
    var cfg := Settings("");
    var f := RefreshGap(cfg, s);
    assert f.out.Ok? && f.sys.disk == s.disk && f.sys.tape == [] && f.sys.mem.capabilities.canClaim;
  }

  lemma FirstSession(s: Sys)
    requires s.disk.latest.None?
    ensures HoldsGapA(Resume(Settings(""), Start("", [HELLO], s), true).sys)
  {
    hide Start, Settings, Open, DiscoverAndRecover, EnsureGap, EnsureClaim;
    FirstOpening(s);
    var cfg := Settings("");
    var d := DiscoverAndRecover(cfg, Open(cfg, Start("", [HELLO], s), true).sys).sys;
    FirstGap(d);
    DieOnClaim(EnsureGap(cfg, d).sys);
  }

  /** The same record, waiting for run r of a claim. */
  predicate WaitsForClaim(s: Sys) {
    && s.disk.latest.Some?
    && var r := s.disk.latest.value;
    && r.gapId == "gap_a" && !r.HasClaim() && !r.HasRegistration()
    && r.runId == "r" && r.pollUrl == "" && !r.terminal && r.step.GapClaim?
  }

  lemma SecondSession(s: Sys)
    requires HoldsGapA(s)
    ensures var r := Resume(Settings("gap_b"), Start("gap_b", [HELLO, Http(200, DIGEST), Http(202, ACCEPTED)], s),
                            true).sys;
            WaitsForClaim(r) && Sent(ClaimGap("gap_b"), s.disk.latest) in r.trace
  {
    PromiseReads();
    DigestReads();
    hide FirstString, Lookup, CanonicalDigestOf, RunStatus, RunIdOf, PollUrlOf;
    var cfg := Settings("gap_b");
    var b := Start("gap_b", [HELLO, Http(200, DIGEST), Http(202, ACCEPTED)], s);
    var o := Open(cfg, b, true);
    assert o.out.Ok? && o.sys.mem.rec == s.disk.latest;
    var d := DiscoverAndRecover(cfg, o.sys);
    assert d.out.Ok? && d.sys.tape == [Http(200, DIGEST), Http(202, ACCEPTED)] && d.sys.disk == s.disk;
    ClaimGapB(d.sys);
  }

  lemma ClaimGapB(s: Sys)
    requires HoldsGapA(s) && s.mem.rec == s.disk.latest && s.mem.capabilities.canClaim
    requires s.tape == [Http(200, DIGEST), Http(202, ACCEPTED)]
    ensures var r := Advance(Settings("gap_b"), s);
            !r.out.Ok? && WaitsForClaim(r.sys) && Sent(ClaimGap("gap_b"), s.disk.latest) in r.sys.trace
  {
    hide FirstString, Lookup, CanonicalDigestOf, RunStatus, RunIdOf, PollUrlOf, ClaimIdOf, ClaimRefOf, AsAccepted;
    PromiseReads();
    DigestReads();
    var cfg := Settings("gap_b");
    assert s.tape[1..] == [Http(202, ACCEPTED)];
    var c := ClaimDigest(s);
    assert c.out == Ok("d") && c.sys.tape == [Http(202, ACCEPTED)];
    var g := ResolveGap(cfg, c.sys);
    assert g.out == Ok("gap_b");
    var r := CallAndSettle(g.sys, ClaimGap("gap_b"), Claiming);
    assert !r.out.Ok? && WaitsForClaim(r.sys);
    assert r.sys.trace[|r.sys.trace| - 5] == Sent(ClaimGap("gap_b"), s.disk.latest);
  }

  /** A record that holds the claim of run r. */
  predicate HoldsClaim(s: Sys) {
    && s.disk.latest.Some?
    && var r := s.disk.latest.value;
    && r.gapId == "gap_a" && r.claimId == "c" && !r.HasRegistration()
  }

  lemma RecoverClaim(s: Sys)
    requires WaitsForClaim(s) && s.mem.rec == s.disk.latest && s.tape == [Http(200, CLAIMED)]
    ensures var r := Recover(Settings(""), s);
            && r.out.Ok? && HoldsClaim(r.sys) && r.sys.tape == [] && s.trace <= r.sys.trace
            && r.sys.mem.rec == r.sys.disk.latest
  {
    ClaimReads();
    hide FirstString, Lookup, RunStatus, RunIdOf, PollUrlOf, ClaimIdOf, ClaimRefOf, AsAccepted, IsFinished;
    var paths := SavedPaths("r", "");
    assert paths != [];
    var f := Fetch(s, Poll(paths[0]));
    assert f.out == Ok(Http(200, CLAIMED)) && f.sys.mem == s.mem;
    assert TakeResult(Settings(""), f.sys, CLAIMED).out.Ok?;
  }

  lemma DieOnRegistration(s: Sys)
    requires HoldsClaim(s) && s.mem.rec == s.disk.latest && s.tape == []
    ensures var r := Advance(Settings(""), s).sys; HoldsClaim(r) && s.trace <= r.trace
  {
    hide AsAccepted, Settle, MakeClaim, ResolveGap, RealizeGoverned, Compile;
    var cfg := Settings("");
    assert EnsureGap(cfg, s) == Run(s, Ok(())) && EnsureClaim(cfg, s) == Run(s, Ok(()));
    assert !EnsureRegistration(s).out.Ok?;
  }

  lemma ThirdSession(s: Sys)
    requires WaitsForClaim(s)
    ensures var r := Resume(Settings(""), Start("", [HELLO, Http(200, CLAIMED)], s), true).sys;
            HoldsClaim(r) && s.trace <= r.trace
  {
    var cfg := Settings("");
    var b := Start("", [HELLO, Http(200, CLAIMED)], s);
    var o := Open(cfg, b, true);
    assert o.out.Ok? && o.sys.mem.rec == s.disk.latest && s.trace <= o.sys.trace;
    var d := Discover(cfg, o.sys);
    assert d.out.Ok? && d.sys.tape == [Http(200, CLAIMED)] && d.sys.disk == s.disk;
    RecoverClaim(d.sys);
    hide Recover, Advance, Discover, Open;
    DieOnRegistration(Recover(cfg, d.sys).sys);
  }

  lemma WholeIsResume(operatorGap: string, tape: seq<Reply>, s: Sys)
    ensures RunOne(Whole(operatorGap, tape, s), s)
            == Resume(Settings(operatorGap), Start(operatorGap, tape, s), true).sys
  {
    hide Resume;
  }

  /** The first session resolves gap_a and dies; the second claims the operator's gap_b, is told to wait and dies; the
      third recovers the finished claim and dies. At the end the record holds a claim for gap_b and says gap_a: the
      claim request named the operator's gap, the record kept the one resolved before, and the recovery did not know. */
  lemma RecoveredClaimMayNameAnotherGap()
    ensures exists sessions ::
      var s := Sessions(sessions, BLANK);
      && |sessions| == 3
      && s.disk.latest.Some? && s.disk.latest.value.claimId == "c" && s.disk.latest.value.gapId == "gap_a"
      && exists k :: 0 <= k < |s.trace| && s.trace[k].Sent? && s.trace[k].request == ClaimGap("gap_b")
  {
    hide RunOne, Start, Whole, Resume;
    var one := Whole("", [HELLO], BLANK);
    var s1 := RunOne(one, BLANK);
    var two := Whole("gap_b", [HELLO, Http(200, DIGEST), Http(202, ACCEPTED)], s1);
    var s2 := RunOne(two, s1);
    var three := Whole("", [HELLO, Http(200, CLAIMED)], s2);
    var s3 := RunOne(three, s2);
    WholeIsResume("", [HELLO], BLANK);
    WholeIsResume("gap_b", [HELLO, Http(200, DIGEST), Http(202, ACCEPTED)], s1);
    WholeIsResume("", [HELLO, Http(200, CLAIMED)], s2);
    FirstSession(BLANK);
    SecondSession(s1);
    ThirdSession(s2);
    ThreeSessions(one, two, three);
    var k :| 0 <= k < |s2.trace| && s2.trace[k] == Sent(ClaimGap("gap_b"), s1.disk.latest);
    assert s3.trace[k] == s2.trace[k];
    assert Sessions([one, two, three], BLANK) == s3;
  }

  lemma ThreeSessions(one: Session, two: Session, three: Session)
    ensures Sessions([one, two, three], BLANK) == RunOne(three, RunOne(two, RunOne(one, BLANK)))
  {
    hide RunOne;
    TwoSessions(one, two);
    assert [one, two, three][..2] == [one, two];
  }

  lemma TwoSessions(one: Session, two: Session)
    ensures Sessions([one, two], BLANK) == RunOne(two, RunOne(one, BLANK))
  {
    hide RunOne;
    assert [one, two][..1] == [one] && [one][..0] == [];
    assert Sessions([one], BLANK) == RunOne(one, Sessions([], BLANK));
  }

  // ---- Two deaths between two writes ----

  const BORN := NewRecord(0).(status := "initialized")

  /** A first session writes a record and goes on. */
  lemma FirstSave()
    ensures var t := Resume(Settings(""), Start("", [HELLO], BLANK), true).sys.trace;
      |t| >= 3 && t[..2] == [Started("", ResumeCommand(true)), Saved(None, BORN)]
  {
    hide Start, Settings, Open, DiscoverAndRecover, EnsureGap, Advance;
    FirstOpening(BLANK);
    var cfg := Settings("");
    var d := DiscoverAndRecover(cfg, Open(cfg, Start("", [HELLO], BLANK), true).sys).sys;
    FirstGap(d);
    AdvanceGoesOn(cfg, d);
    EnsureGapAsks(cfg, d);
    assert d.trace[..2] == [Started("", ResumeCommand(true)), Saved(None, BORN)];
  }

  lemma {:induction false} NothingFiled(trace: seq<Event>)
    requires forall e :: e in trace ==> !e.Filed?
    ensures RunsAfter(trace) == map[]
  {
    if trace != [] {
      assert trace[|trace| - 1] in trace;
      NothingFiled(trace[..|trace| - 1]);
    }
  }

  /** The first process dies before the file of its run exists. */
  lemma DeathInFirstSave(session: Session)
    requires session == Session(Settings(""), ResumeCommand(true), [HELLO], 2)
    ensures var s := RunOne(session, BLANK);
      && s.trace == [Started("", ResumeCommand(true)), Saved(None, BORN)]
      && s.disk == Disk(Some(BORN), map[]) && s.mem == FRESH_MEMORY && s.tape == []
  {
    FirstSave();
    hide Resume;
    NothingFiled([Started("", ResumeCommand(true)), Saved(None, BORN)]);
  }

  /** Up to the phases. */
  lemma SecondOpening(s: Sys)
    requires s.disk.latest == Some(BORN)
    ensures var cfg, b := Settings(""), Start("", [HELLO], s);
      var d := DiscoverAndRecover(cfg, Open(cfg, b, true).sys);
      && Open(cfg, b, true).out.Ok? && d.out.Ok?
      && d.sys.trace == s.trace + [Started("", ResumeCommand(true)), Sent(ReadCapabilities, Some(BORN)), Got(HELLO)]
      && d.sys.mem.rec == Some(BORN) && d.sys.mem.resolvedGap == "" && d.sys.disk.latest == Some(BORN)
      && d.sys.mem.capabilities == OFFER
  {
  }

  lemma SecondGap(s: Sys)
    requires s.mem.rec == Some(BORN) && s.mem.resolvedGap == "" && s.disk.latest == Some(BORN)
    requires s.mem.capabilities.gapId == "gap_a"
    ensures var g := EnsureGap(Settings(""), s);
      && g.out.Ok? && |g.sys.trace| == |s.trace| + 3 && g.sys.trace[..|s.trace|] == s.trace
      && g.sys.trace[|s.trace|] == Resolved("gap_a")
      && var e := g.sys.trace[|s.trace| + 1];
         e.Saved? && e.before == Some(BORN) && e.record.gapId == "gap_a" && e.record.runRecordId == 0
  {
    hide DiscoverGap;
    assert s.mem.rec.value.gapId == "";
  }

  /** The next session resolves the gap and saves it. */
  lemma SecondSave(s: Sys)
    requires s.disk.latest == Some(BORN)
    ensures var t := Resume(Settings(""), Start("", [HELLO], s), true).sys.trace;
      var n := |s.trace|;
      && |t| >= n + 6 && t[..n] == s.trace
      && t[n] == Started("", ResumeCommand(true)) && t[n + 1] == Sent(ReadCapabilities, Some(BORN))
      && t[n + 2] == Got(HELLO) && t[n + 3] == Resolved("gap_a")
      && t[n + 4].Saved? && t[n + 4].before == Some(BORN) && t[n + 4].record.gapId == "gap_a"
      && t[n + 4].record.runRecordId == 0
  {
    hide Start, Settings, Open, DiscoverAndRecover, EnsureGap, Advance;
    SecondOpening(s);
    var cfg, b := Settings(""), Start("", [HELLO], s);
    var d := DiscoverAndRecover(cfg, Open(cfg, b, true).sys).sys;
    SecondGap(d);
    AdvanceGoesOn(cfg, d);
    var g, a := EnsureGap(cfg, d).sys, Advance(cfg, d).sys;
    assert forall i :: 0 <= i < |g.trace| ==> a.trace[i] == g.trace[i];
    assert forall i :: 0 <= i < |d.trace| ==> g.trace[..|d.trace|][i] == g.trace[i];
    assert a.trace[..|s.trace|] == s.trace;
  }

  /** Each of two processes dies after it has written latest.json and before it writes the run's file, which is two
      saves behind then: it does not exist. */
  lemma TwoDeathsLeaveTheFileTwoBehind()
    ensures exists sessions ::
      var s := Sessions(sessions, BLANK);
      && |sessions| == 2 && Unfiled(s.trace) == 2
      && s.disk.latest.Some? && s.disk.latest.value.gapId == "gap_a" && s.disk.runs == map[]
  {
    var one := Session(Settings(""), ResumeCommand(true), [HELLO], 2);
    var two := Session(Settings(""), ResumeCommand(true), [HELLO], 5);
    var s1 := RunOne(one, BLANK);
    DeathInFirstSave(one);
    DeathInSecondSave(two, s1);
    TwoSessions(one, two);
    hide RunOne;
    assert Sessions([one, two], BLANK) == RunOne(two, s1);
  }

  lemma DeathInSecondSave(session: Session, s: Sys)
    requires session == Session(Settings(""), ResumeCommand(true), [HELLO], 5)
    requires s.trace == [Started("", ResumeCommand(true)), Saved(None, BORN)] && s.disk == Disk(Some(BORN), map[])
    ensures var s' := RunOne(session, s);
      && Unfiled(s'.trace) == 2
      && s'.disk.latest.Some? && s'.disk.latest.value.gapId == "gap_a" && s'.disk.runs == map[]
  {
    hide Resume, LatestAfter, RunsAfter, Unfiled;
    SecondSave(s);
    var t := Resume(Settings(""), Start("", [HELLO], s), true).sys.trace;
    var cut := t[..7];
    assert cut == s.trace + [t[2], t[3], t[4], t[5], t[6]];
    NothingFiled(cut);
    UnfiledAfterTwo(cut);
  }

  lemma UnfiledAfterTwo(t: seq<Event>)
    requires |t| == 7 && t[..2] == [Started("", ResumeCommand(true)), Saved(None, BORN)]
    requires t[2].Started? && t[3].Sent? && t[4].Got? && t[5].Resolved?
    requires t[6].Saved? && t[6].before == Some(BORN) && t[6].record.runRecordId == 0
    ensures Unfiled(t) == 2 && LatestAfter(t) == Some(t[6].record)
  {
    assert t[..6][..5] == t[..5] && t[..5][..4] == t[..4] && t[..4][..3] == t[..3] && t[..3][..2] == t[..2];
    assert Unfiled(t[..2]) == 1;
    assert Unfiled(t[..3]) == Unfiled(t[..4]) == Unfiled(t[..5]) == Unfiled(t[..6]) == 1;
  }
}
