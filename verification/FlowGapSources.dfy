// Where the gap comes from: who names it, in which order, what is recorded of it, and what if nobody does.
module FlowGapSources {
  import opened Json
  import opened GapSelection
  import opened FlowState
  import opened FlowSpec
  import opened FlowSafety
  import opened FlowRecovery
  import opened FlowHelp
  import opened FlowCompletion

  // ---- Discovery of the server ----

  /** The server is usable exactly if it answers with an object that offers registration, compilation, realization, and
      the claim where it requires one. */
  lemma DiscoveryNeedsEveryOperation(cfg: Config, s: Sys)
    ensures var r := Discover(cfg, s);
      && (r.out.Ok? <==>
            && s.tape != [] && s.tape[0].Http? && s.tape[0].code < 400 && s.tape[0].body.Obj?
            && var c := cfg.readCapabilities(s.tape[0].body);
               (c.requiresClaim ==> c.canClaim) && c.canRegister && c.canCompile && c.canRealize)
      && (s.tape != [] && s.tape[0].Http? && s.tape[0].code < 400 && s.tape[0].body.Obj? ==>
            r.sys.mem == s.mem.(capabilities := cfg.readCapabilities(s.tape[0].body)))
      && (s.tape != [] && s.tape[0].Http? && s.tape[0].code < 400 && s.tape[0].body.Obj? && !r.out.Ok? ==>
            r.out == Err(MissingOperation))
  {
  }

  // ---- A record without a gap ----

  /** The record that the client now holds, on the disk too, names this gap and says where it came from. */
  predicate Names(s: Sys, gap: string, source: string) {
    && s.mem.rec.Some? && s.disk.latest == s.mem.rec
    && var r := s.mem.rec.value;
       r.gapId == gap && r.gapSource == source && r.status == "gap_resolved" && r.step.GapResolved? && !r.terminal
  }

  /** It says why there is none. */
  predicate Complains(s: Sys, failure: Failure) {
    && s.mem.rec.Some? && s.disk.latest == s.mem.rec
    && var r := s.mem.rec.value;
       && r.step.GapResolution? && !r.terminal
       && r.status == (if failure.NoClaimableGap? then "no_claimable_gap" else "gap_resolution_failed")
       && r.errorCode == (if failure.NoClaimableGap? then "NO_CLAIMABLE_GAP" else "GAP_RESOLUTION_FAILED")
  }

  /** A canonical id is taken and recorded, any other is refused. */
  predicate TakesCanonical(g: Run<()>, gap: string, source: string) {
    if "gap_" <= gap then g.out == Ok(()) && Names(g.sys, gap, source)
    else g.out == Err(BadGapId) && Complains(g.sys, BadGapId)
  }

  /**
   * A missing gap is named by the operator, or else by the environment, or else by the capabilities, and only then
   * looked for in the list of gaps; the record says which of them it was, or why there is no gap.
   */
  lemma MissingGapIsRecorded(cfg: Config, s: Sys)
    requires s.mem.rec.Some? && !Current(s).HasGap() && s.mem.resolvedGap == ""
    ensures var g, d := EnsureGap(cfg, s), DiscoverGap(cfg, s);
      if cfg.operatorGap != "" then TakesCanonical(g, cfg.operatorGap, "operator --gap-id")
      else if cfg.envGap != "" then
        TakesCanonical(g, cfg.envGap, "diagnostic override KEYHOLE_GOVERNED_GAP_ID")
      else if s.mem.capabilities.gapId != "" then
        g.out == Ok(()) && Names(g.sys, s.mem.capabilities.gapId, "capabilities")
      else
        match d.out
        case Ok(gap) =>
          if gap != "" then g.out == Ok(()) && Names(g.sys, gap, "gaps.list")
          else g.out == Err(UnresolvedGap) && Complains(g.sys, UnresolvedGap)
        case Err(failure) => g.out == Err(failure) && Complains(g.sys, failure)
        case _ => g.out == d.out.Fail() && g.sys == d.sys
  {
    hide DiscoverGap, ResolveGap, TakesCanonical, Names, Complains, Persist, GapKnown;
    GapIsNamedInOrder(cfg, s);
    var r := ResolveGap(cfg, s);
    if r.out.Ok? {
      NamedGapIsSaved(r.sys, r.out.value);
    } else if r.out.Err? {
      FailureIsSaved(r.sys, r.out.failure);
    }
    Taking(cfg, EnsureGap(cfg, s), cfg.operatorGap, "operator --gap-id");
    Taking(cfg, EnsureGap(cfg, s), cfg.envGap, "diagnostic override KEYHOLE_GOVERNED_GAP_ID");
  }

  lemma Taking(cfg: Config, g: Run<()>, gap: string, source: string)
    ensures "gap_" <= gap && g.out == Ok(()) && Names(g.sys, gap, source) ==> TakesCanonical(g, gap, source)
    ensures !("gap_" <= gap) && g.out == Err(BadGapId) && Complains(g.sys, BadGapId) ==> TakesCanonical(g, gap, source)
  {
    hide Names, Complains;
  }

  lemma NamedGapIsSaved(s: Sys, gap: string)
    requires s.mem.rec.Some?
    ensures Names(Persist(s, GapKnown(Current(s), gap, s.mem.gapSource)), gap, s.mem.gapSource)
  {
  }

  lemma FailureIsSaved(s: Sys, f: Failure)
    requires s.mem.rec.Some?
    ensures Complains(Persist(s, Current(s).(
                                status := if f.NoClaimableGap? then "no_claimable_gap" else "gap_resolution_failed",
                                step := GapResolution, terminal := false,
                                errorCode := if f.NoClaimableGap? then "NO_CLAIMABLE_GAP"
                                             else "GAP_RESOLUTION_FAILED")), f)
  {
  }

  /** The client learns this gap from this source and nothing else happens. */
  predicate Learns(s: Sys, r: Run<string>, gap: string, source: string) {
    && r.out == Ok(gap) && r.sys.mem.resolvedGap == gap && r.sys.mem.gapSource == source
    && r.sys.mem.rec == s.mem.rec && r.sys.mem.capabilities == s.mem.capabilities
    && r.sys.disk == s.disk && r.sys.tape == s.tape && r.sys.trace == s.trace + [Resolved(gap)]
  }

  /** The order in which the gap is named; what is named by operator or environment has to be canonical. */
  lemma GapIsNamedInOrder(cfg: Config, s: Sys)
    requires s.mem.rec.Some? && s.mem.resolvedGap == ""
    ensures var r, d := ResolveGap(cfg, s), DiscoverGap(cfg, s);
      && (r.out.Ok? || r.out.Err? ==> r.sys.mem.rec.Some?)
      && if cfg.operatorGap != "" then
           if "gap_" <= cfg.operatorGap then Learns(s, r, cfg.operatorGap, "operator --gap-id")
           else r == Run(s, Err(BadGapId))
         else if cfg.envGap != "" then
           if "gap_" <= cfg.envGap then Learns(s, r, cfg.envGap, "diagnostic override KEYHOLE_GOVERNED_GAP_ID")
           else r == Run(s, Err(BadGapId))
         else if s.mem.capabilities.gapId != "" then Learns(s, r, s.mem.capabilities.gapId, "capabilities")
         else
           match d.out
           case Ok(gap) =>
             if gap == "" then r == Run(d.sys, Err(UnresolvedGap)) else Learns(d.sys, r, gap, "gaps.list")
           case _ => r == d
  {
    hide DiscoverGap, Keeps;
    DiscoveryKeepsRecord(cfg, s);
  }

  // ---- The list of gaps ----

  /** What the choice from a list amounts to. */
  lemma ChoiceIsReported(cfg: Config, data: Json)
    ensures Select(cfg, data)
            == match SelectGap(Query(cfg.repoName, cfg.storyId, cfg.capabilityId, cfg.dump), data)
               case NoMatch => Ok("")
               case Chosen(gap) => Ok(gap)
               case NoneClaimable => Err(NoClaimableGap)
               case Tied => Err(MultipleGaps)
  {
    hide SelectGap;
  }

  /**
   * The list is asked for the story's gaps first, and for all gaps only if there is a story and that brought none, or
   * an error; if both bring an error, the first one is reported.
   */
  lemma ListIsAskedForTheStoryFirst(cfg: Config, s: Sys, a: Json, b: Json, rest: seq<Reply>)
    requires s.mem.capabilities.canDiscoverGaps && IsAnswer(a) && IsAnswer(b)
    requires s.tape == [Says(a)] + ([Says(b)] + rest)
    ensures var s1 := Exchanged(s, ListGaps(true), a, [Says(b)] + rest);
      DiscoverGap(cfg, s)
      == if cfg.storyId == "" || (Select(cfg, a).Ok? && Select(cfg, a).value != "") then Run(s1, Select(cfg, a))
         else Run(Exchanged(s1, ListGaps(false), b, rest),
                  if Select(cfg, a).Err? && Select(cfg, b).Err? then Select(cfg, a) else Select(cfg, b))
  {
    var s1 := Exchanged(s, ListGaps(true), a, [Says(b)] + rest);
    AnswerIsTaken(s, ListGaps(true), Discovering, a, [Says(b)] + rest);
    AnswerIsTaken(s1, ListGaps(false), Discovering, b, rest);
    ChoiceIsReported(cfg, a);
    ChoiceIsReported(cfg, b);
    hide CallAndSettle, Select, IsAnswer, SelectGap;
  }

  lemma ListMustBeOffered(cfg: Config, s: Sys)
    requires !s.mem.capabilities.canDiscoverGaps
    ensures DiscoverGap(cfg, s) == Run(s, Err(MissingOperation))
  {
  }

  // ---- A gap that is on record ----

  /**
   * Before a claim, a gap that was only read from the disk is looked up again, unless the operator chose one. What the
   * environment, the capabilities or the list name takes its place; if no gap can be had, the record says so and keeps
   * its own.
   */
  lemma RecordedGapIsLookedUpAgain(cfg: Config, s: Sys)
    requires s.mem.rec.Some? && Current(s).HasGap()
    ensures var r, gap := RefreshGap(cfg, s), Current(s).gapId;
      if s.mem.gapVerified || cfg.operatorGap != "" then r == Run(s, Ok(()))
      else
        var s0 := s.(mem := s.mem.(resolvedGap := ""));
        var d := DiscoverGap(cfg, s0);
        if cfg.envGap != "" then
          if "gap_" <= cfg.envGap then
            r.out == Ok(()) && Replaces(s, r.sys, gap, cfg.envGap, "diagnostic override KEYHOLE_GOVERNED_GAP_ID")
          else r.out == Err(BadGapId) && Insists(s, r.sys, gap)
        else if s.mem.capabilities.gapId != "" then
          r.out == Ok(()) && Replaces(s, r.sys, gap, s.mem.capabilities.gapId, "capabilities")
        else
          match d.out
          case Ok(live) =>
            if live != "" then r.out == Ok(()) && Replaces(d.sys, r.sys, gap, live, "gaps.list")
            else r.out == Err(UnresolvedGap) && Insists(d.sys, r.sys, gap)
          case Err(failure) => r.out == Err(failure) && Insists(d.sys, r.sys, gap)
          case _ => r.out == d.out.Fail()
  {
    hide DiscoverGap, ResolveGap, Names, Persist, GapKnown, Replaces, Insists, Keeps;
    if !s.mem.gapVerified && cfg.operatorGap == "" {
      var s0 := s.(mem := s.mem.(resolvedGap := ""));
      var cached, r, d := Current(s).gapId, ResolveGap(cfg, s0), DiscoverGap(cfg, s0);
      GapIsNamedInOrder(cfg, s0);
      DiscoveryKeepsRecord(cfg, s0);
      if r.out.Ok? {
        LiveGapIsRecorded(s0, r, cached, r.out.value, "diagnostic override KEYHOLE_GOVERNED_GAP_ID");
        LiveGapIsRecorded(s0, r, cached, r.out.value, "capabilities");
        LiveGapIsRecorded(d.sys, r, cached, r.out.value, "gaps.list");
        OnlyTheRecordCounts(s0, s, RefreshGap(cfg, s).sys, cached, r.out.value);
      } else if r.out.Err? {
        OldGapIsKept(r.sys, cached);
        OnlyTheRecordCounts(s0, s, RefreshGap(cfg, s).sys, cached, "");
      }
    }
  }

  lemma LiveGapIsRecorded(s: Sys, r: Run<string>, cached: string, live: string, source: string)
    requires s.mem.rec.Some?
    ensures Learns(s, r, live, source) ==>
              var s' := if live == cached then r.sys
                        else Persist(r.sys, GapKnown(Current(r.sys), live, r.sys.mem.gapSource));
              Replaces(s, s', cached, live, source)
  {
  }

  lemma OldGapIsKept(s: Sys, cached: string)
    requires s.mem.rec.Some?
    ensures var s1 := s.(mem := s.mem.(resolvedGap := cached));
      Insists(s, Persist(s1, Current(s1).(status := "no_claimable_gap", step := GapResolved, terminal := false,
                                          errorCode := "NO_CLAIMABLE_GAP")), cached)
  {
  }

  lemma OnlyTheRecordCounts(a: Sys, b: Sys, s': Sys, gap: string, live: string)
    requires a.mem.rec == b.mem.rec && a.disk == b.disk
    ensures forall source :: Replaces(a, s', gap, live, source) == Replaces(b, s', gap, live, source)
    ensures Insists(a, s', gap) == Insists(b, s', gap)
  {
  }

  /** The gap that was looked up is on record now, and nothing is saved if it was before. */
  predicate Replaces(s: Sys, s': Sys, gap: string, live: string, source: string) {
    if live == gap then s'.mem.rec == s.mem.rec && s'.disk == s.disk else Names(s', live, source)
  }

  /** The record keeps its gap and says that there is none to claim. */
  predicate Insists(s: Sys, s': Sys, gap: string) {
    && s.mem.rec.Some? && s'.mem.rec.Some? && s'.disk.latest == s'.mem.rec && s'.mem.resolvedGap == gap
    && s'.mem.rec.value
       == s.mem.rec.value.(status := "no_claimable_gap", step := GapResolved, terminal := false,
                           errorCode := "NO_CLAIMABLE_GAP", updatedAt := s'.mem.rec.value.updatedAt)
  }
}
