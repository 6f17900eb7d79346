// A saved run that finished while nobody waited: what its recovery writes, compared with what the waiting client saves.
module FlowRecovery {
  import opened Json
  import opened ReplyFields
  import opened FlowState
  import opened FlowSpec
  import opened FlowSafety
  import opened FlowLimits

  /** Equal but for the address of the run and the time stamp. */
  predicate SameButForTheRun(a: Record, b: Record) {
    a == b.(runId := a.runId, pollUrl := a.pollUrl, updatedAt := a.updatedAt)
  }

  /** The request was answered with a promise, which was saved, and in the end with this body. */
  predicate Promised(s: Sys, request: Request, action: Action, t: Sys, data: Json) {
    && CallAndSettle(s, request, action) == Run(t, Ok(data))
    && t.mem.rec.Some? && t.mem.rec.value.step == PendingPhase(action)
  }

  /** The gap source that a later session has in memory when it recovers this record. */
  function LoadedSource(r: Record): string {
    if r.gapId == "" then "" else r.gapSource
  }

  /** What a later session would make of the saved record and the same reply. */
  function RecoveredLater(cfg: Config, t: Sys, data: Json): Outcome<Record> {
    Recovered(cfg, Current(t), LoadedSource(Current(t)), data)
  }

  lemma PromiseKeepsRecord(s: Sys, r: Record)
    requires s.mem.rec.Some? && Keeps(Current(s), r)
    ensures Keeps(Current(s), Current(Persist(s, r))) && Persist(s, r).mem == s.mem.(rec := Persist(s, r).mem.rec)
  {
  }

  lemma SettleKeepsRecord(s: Sys, data: Json, action: Action)
    requires s.mem.rec.Some?
    ensures var r := Settle(s, data, action).sys;
      r.mem.rec.Some? && Keeps(Current(s), Current(r)) && r.mem == s.mem.(rec := r.mem.rec)
  {
    hide RunStatus, IsActive, RunIdOf, PollUrlOf;
    if IsActive(RunStatus(data)) {
      var rec := Current(s).(step := PendingPhase(action), status := RunStatus(data), terminal := false,
                             runId := RunIdOf(data), pollUrl := PollUrlOf(data));
      assert Keeps(Current(s), rec);
      hide Keeps, PendingPhase, WaitPaths;
      PromiseKeepsRecord(s, rec);
      if RunIdOf(data) != "" || PollUrlOf(data) != "" {
        PathsExist(RunIdOf(data), PollUrlOf(data));
        WaitLeavesDisk(Persist(s, rec), WaitPaths(RunIdOf(data), PollUrlOf(data)));
      }
    }
  }

  lemma PathsExist(runId: string, pollUrl: string)
    requires runId != "" || pollUrl != ""
    ensures WaitPaths(runId, pollUrl) != []
  {
  }

  /** While an answer is awaited the record changes in its bookkeeping only. */
  lemma CallKeepsRecord(s: Sys, request: Request, action: Action)
    requires s.mem.rec.Some?
    ensures var r := CallAndSettle(s, request, action).sys;
      r.mem.rec.Some? && Keeps(Current(s), Current(r)) && r.mem == s.mem.(rec := r.mem.rec)
  {
    hide AsAccepted, Settle;
    var r := Call(s, request);
    if r.out.Ok? {
      SettleKeepsRecord(r.sys, r.out.value, action);
    }
  }

  lemma DiscoveryKeepsRecord(cfg: Config, s: Sys)
    requires s.mem.rec.Some?
    ensures var r := DiscoverGap(cfg, s).sys;
      r.mem.rec.Some? && Keeps(Current(s), Current(r)) && r.mem == s.mem.(rec := r.mem.rec)
  {
    hide CallAndSettle, Select;
    if s.mem.capabilities.canDiscoverGaps {
      CallKeepsRecord(s, ListGaps(true), Discovering);
      CallKeepsRecord(QueryGaps(cfg, s, true).sys, ListGaps(false), Discovering);
    }
  }

  /** The fields that a recovery and the waiting client may differ in. */
  lemma KeptFields(r: Record, r': Record)
    requires Keeps(r, r')
    ensures r'.gapId == r.gapId && r'.gapSource == r.gapSource && r'.claimDigest == r.claimDigest
    ensures r'.candidate == r.candidate
  {
  }

  lemma Saving(t: Sys, r: Record)
    ensures Current(Persist(t, r)) == r.(updatedAt := t.clock)
  {
  }

  // ---- The claim ----

  lemma ClaimedAlike(cfg: Config, r: Record, source: string, data: Json, c: Claim, now: nat)
    requires r.step.GapClaim? && c.claimId == ClaimIdOf(data) && c.claimRef == ClaimRefOf(data)
    ensures var later := Recovered(cfg, r, source, data);
      && later.Ok?
      && (SameButForTheRun(later.value, Claimed(r, c).(updatedAt := now)) <==>
            r.gapId == c.gapId && r.gapSource == c.gapSource && r.claimDigest == c.digest)
  {
    hide ClaimIdOf, ClaimRefOf, Select, ReadReceipt;
  }

  lemma ClaimIsSaved(cfg: Config, s: Sys, t: Sys, data: Json)
    requires !Current(s).HasClaim() && PrepareClaim(cfg, s).out.Ok?
    requires var p := PrepareClaim(cfg, s); CallAndSettle(p.sys, ClaimGap(p.out.value.0), Claiming) == Run(t, Ok(data))
    requires ClaimIdOf(data) != "" || ClaimRefOf(data) != ""
    ensures var p := PrepareClaim(cfg, s);
      var c := Claim(ClaimIdOf(data), ClaimRefOf(data), p.out.value.0, t.mem.gapSource, p.out.value.1);
      EnsureClaim(cfg, s) == Run(Persist(t, Claimed(Current(t), c)), Ok(()))
  {
    hide PrepareClaim, CallAndSettle, ClaimIdOf, ClaimRefOf, Claimed, Persist;
  }

  /** The waiting client saves the digest that it claimed with, and the gap that it claimed; a recovery knows neither.
      The two records agree exactly if both were on record when the claim was sent. */
  lemma ClaimRecovery(cfg: Config, s: Sys, t: Sys, data: Json)
    requires s.mem.rec.Some? && !Current(s).HasClaim()
    requires PrepareClaim(cfg, s).out.Ok? && PrepareClaim(cfg, s).sys.mem.rec.Some?
    requires var p := PrepareClaim(cfg, s); Promised(p.sys, ClaimGap(p.out.value.0), Claiming, t, data)
    requires ClaimIdOf(data) != "" || ClaimRefOf(data) != ""
    ensures var p, waited, later := PrepareClaim(cfg, s), EnsureClaim(cfg, s), RecoveredLater(cfg, t, data);
      && waited.out.Ok? && later.Ok?
      && (SameButForTheRun(later.value, Current(waited.sys)) <==>
            && Current(p.sys).gapId == p.out.value.0
            && Current(p.sys).gapSource == p.sys.mem.gapSource
            && Current(p.sys).claimDigest == p.out.value.1)
  {
    var p := PrepareClaim(cfg, s);
    hide PrepareClaim, CallAndSettle, ClaimIdOf, ClaimRefOf, Recovered, EnsureClaim, Claimed, Keeps, Persist,
         SameButForTheRun;
    CallKeepsRecord(p.sys, ClaimGap(p.out.value.0), Claiming);
    KeptFields(Current(p.sys), Current(t));
    ClaimIsSaved(cfg, s, t, data);
    var c := Claim(ClaimIdOf(data), ClaimRefOf(data), p.out.value.0, t.mem.gapSource, p.out.value.1);
    Saving(t, Claimed(Current(t), c));
    ClaimedAlike(cfg, Current(t), LoadedSource(Current(t)), data, c, t.clock);
  }

  // ---- Registration, context, receipt ----

  lemma RegisteredAlike(cfg: Config, r: Record, source: string, data: Json, x: Registration, now: nat)
    requires r.step.ContextCreate? && x.registrationId == RegistrationIdOf(data)
    ensures var later := Recovered(cfg, r, source, data);
      && later.Ok?
      && (SameButForTheRun(later.value, Registered(r, x).(updatedAt := now)) <==>
            RecoveredRegistrationIdOf(data) == RegistrationIdOf(data) && r.claimDigest == x.claimDigest)
  {
    hide RegistrationIdOf, RecoveredRegistrationIdOf, Select, ReadReceipt;
  }

  lemma RegistrationIsSaved(s: Sys, t: Sys, data: Json)
    requires !Current(s).HasRegistration() && ClaimedDigest(s).out.Ok?
    requires var d, rec := ClaimedDigest(s), Current(ClaimedDigest(s).sys);
      CallAndSettle(d.sys, RegisterRepo(rec.gapId, rec.claimId, rec.claimRef), Registering) == Run(t, Ok(data))
    requires RegistrationIdOf(data) != "" && !TripsReader(data)
    ensures var x := Registration(RegistrationIdOf(data), ClaimedDigest(s).out.value);
      EnsureRegistration(s) == Run(Persist(t, Registered(Current(t), x)), Ok(()))
  {
    hide ClaimedDigest, CallAndSettle, RegistrationIdOf, Registered, Persist;
  }

  lemma RegistrationTrips(s: Sys, t: Sys, data: Json)
    requires !Current(s).HasRegistration() && ClaimedDigest(s).out.Ok?
    requires var d, rec := ClaimedDigest(s), Current(ClaimedDigest(s).sys);
      CallAndSettle(d.sys, RegisterRepo(rec.gapId, rec.claimId, rec.claimRef), Registering) == Run(t, Ok(data))
    requires TripsReader(data)
    ensures EnsureRegistration(s) == Run(t, Abort)
  {
    hide ClaimedDigest, CallAndSettle, RegistrationIdOf, TripsReader;
  }

  lemma DigestLeavesMemory(s: Sys)
    ensures ClaimedDigest(s).sys.mem == s.mem
  {
  }

  /** They agree exactly if the id stands where the recovery looks for it too, and the digest was on record; an answer
      over which the waiting client trips is no trouble for the recovery. */
  lemma RegistrationRecovery(cfg: Config, s: Sys, t: Sys, data: Json)
    requires s.mem.rec.Some? && !Current(s).HasRegistration()
    requires ClaimedDigest(s).out.Ok?
    requires var d, rec := ClaimedDigest(s), Current(ClaimedDigest(s).sys);
      Promised(d.sys, RegisterRepo(rec.gapId, rec.claimId, rec.claimRef), Registering, t, data)
    requires RegistrationIdOf(data) != ""
    ensures var d, waited, later := ClaimedDigest(s), EnsureRegistration(s), RecoveredLater(cfg, t, data);
      && later.Ok?
      && if TripsReader(data) then waited == Run(t, Abort)
         else
           && waited.out.Ok?
           && (SameButForTheRun(later.value, Current(waited.sys)) <==>
                 && RecoveredRegistrationIdOf(data) == RegistrationIdOf(data)
                 && Current(s).claimDigest == d.out.value)
  {
    var d, rec := ClaimedDigest(s), Current(ClaimedDigest(s).sys);
    DigestLeavesMemory(s);
    hide ClaimedDigest, CallAndSettle, RegistrationIdOf, RecoveredRegistrationIdOf, Recovered, EnsureRegistration,
         Registered, Keeps, Persist, SameButForTheRun;
    CallKeepsRecord(d.sys, RegisterRepo(rec.gapId, rec.claimId, rec.claimRef), Registering);
    KeptFields(rec, Current(t));
    if TripsReader(data) {
      RegistrationTrips(s, t, data);
    } else {
      RegistrationIsSaved(s, t, data);
    }
    var x := Registration(RegistrationIdOf(data), d.out.value);
    Saving(t, Registered(Current(t), x));
    RegisteredAlike(cfg, Current(t), LoadedSource(Current(t)), data, x, t.clock);
  }

  /** They always agree. */
  lemma ContextRecovery(cfg: Config, s: Sys, t: Sys, data: Json)
    requires s.mem.rec.Some? && !Current(s).HasContext()
    requires CanonicalDigest(s).out.Ok?
    requires var d := CanonicalDigest(s).sys;
      Promised(d, CompileContext(Current(d).registrationId), Compiling, t, data)
    requires ContextIdOf(data) != ""
    ensures var waited, later := EnsureContext(s), RecoveredLater(cfg, t, data);
      && waited.out.Ok? && later.Ok?
      && SameButForTheRun(later.value, Current(waited.sys))
  {
    hide CanonicalDigest, CallAndSettle, ContextIdOf, Select, ReadReceipt;
  }

  lemma ReceiptIsSaved(cfg: Config, s: Sys, t: Sys, data: Json)
    requires !Current(s).IsSettled() && cfg.gate.GatePasses?
    requires var candidate := cfg.candidateFor(Current(s).contextId);
      CallAndSettle(Persist(s, Current(s).(candidate := candidate)), Realize(Current(s).contextId, candidate),
                    Realizing) == Run(t, Ok(data))
    ensures var receipt := ReadReceipt(cfg, data, cfg.candidateFor(Current(s).contextId));
      EnsureReceipt(cfg, s)
      == if receipt.Ok? then Run(Persist(t, Receipted(Current(t), receipt.value)), Ok(())) else Run(t, receipt.Fail())
  {
    hide CallAndSettle, ReadReceipt, Receipted, Persist;
  }

  lemma CandidateIsKept(s: Sys, t: Sys, candidate: string, data: Json)
    requires s.mem.rec.Some?
    requires CallAndSettle(Persist(s, Current(s).(candidate := candidate)), Realize(Current(s).contextId, candidate),
                           Realizing) == Run(t, Ok(data))
    ensures Current(t).candidate == candidate
  {
    var s1 := Persist(s, Current(s).(candidate := candidate));
    Saving(s, Current(s).(candidate := candidate));
    hide CallAndSettle, Persist, Keeps;
    assert s1.mem.rec.Some? by { SavedIsRemembered(s, Current(s).(candidate := candidate)); }
    CallKeepsRecord(s1, Realize(Current(s).contextId, candidate), Realizing);
    KeptFields(Current(s1), Current(t));
  }

  lemma SavedIsRemembered(s: Sys, r: Record)
    ensures Persist(s, r).mem.rec.Some?
  {
  }

  /** They always agree: either accepts the reply exactly if the other does, and then they save the same receipt. */
  lemma ReceiptRecovery(cfg: Config, s: Sys, t: Sys, data: Json)
    requires s.mem.rec.Some? && !Current(s).IsSettled() && cfg.gate.GatePasses?
    requires var candidate := cfg.candidateFor(Current(s).contextId);
      Promised(Persist(s, Current(s).(candidate := candidate)), Realize(Current(s).contextId, candidate), Realizing, t,
               data)
    ensures var waited, later := EnsureReceipt(cfg, s), RecoveredLater(cfg, t, data);
      && (waited.out.Ok? <==> later.Ok?)
      && (later.Ok? ==> SameButForTheRun(later.value, Current(waited.sys)))
  {
    var candidate := cfg.candidateFor(Current(s).contextId);
    hide CallAndSettle, ReadReceipt, Receipted, Persist, Keeps, EnsureReceipt, Recovered;
    CandidateIsKept(s, t, candidate, data);
    ReceiptIsSaved(cfg, s, t, data);
    var receipt := ReadReceipt(cfg, data, candidate);
    RecoveredReceipt(cfg, Current(t), LoadedSource(Current(t)), data);
    if receipt.Ok? {
      Saving(t, Receipted(Current(t), receipt.value));
    }
  }

  // ---- The gap ----

  /** A gap discovered for a record without one: they agree. */
  lemma GapRecovery(cfg: Config, s: Sys, t: Sys, data: Json)
    requires s.mem.rec.Some? && !Current(s).HasGap()
    requires cfg.operatorGap == "" && cfg.envGap == "" && s.mem.resolvedGap == "" && s.mem.capabilities.gapId == ""
    requires DiscoverGap(cfg, s) == Run(t, Select(cfg, data)) && Current(t).step.GapDiscovery?
    requires Select(cfg, data).Ok? && Select(cfg, data).value != ""
    ensures var waited, later := EnsureGap(cfg, s), RecoveredLater(cfg, t, data);
      && waited.out.Ok? && later.Ok?
      && SameButForTheRun(later.value, Current(waited.sys))
  {
    DiscoveryKeepsRecord(cfg, s);
    hide DiscoverGap, Select, ReadReceipt;
  }

  /** A discovery that brought nothing to choose: the recovery forgets the run and leaves the step open if no gap
      matched, and ends with the error that the waiting client would have ended with if one did. */
  lemma FruitlessRecovery(cfg: Config, rec: Record, source: string, data: Json)
    requires rec.step.GapDiscovery?
    ensures Select(cfg, data) == Ok("") ==>
              Recovered(cfg, rec, source, data) == Ok(rec.(runId := "", pollUrl := "", terminal := false))
    ensures Select(cfg, data).Err? ==> Recovered(cfg, rec, source, data) == Err(Select(cfg, data).failure)
  {
    hide Select, ReadReceipt;
  }

  /** A gap on record that was looked up again before its claim: they agree exactly if the server now names another gap
      and the old one came from the list of gaps, or from nowhere. */
  lemma RefreshedGapRecovery(cfg: Config, s: Sys, t: Sys, data: Json)
    requires s.mem.rec.Some? && Current(s).HasGap() && !s.mem.gapVerified
    requires cfg.operatorGap == "" && cfg.envGap == "" && s.mem.capabilities.gapId == ""
    requires DiscoverGap(cfg, s.(mem := s.mem.(resolvedGap := ""))) == Run(t, Select(cfg, data))
    requires Current(t).step.GapDiscovery?
    requires Select(cfg, data).Ok? && Select(cfg, data).value != ""
    ensures var waited, later := RefreshGap(cfg, s), RecoveredLater(cfg, t, data);
      && waited.out.Ok? && later.Ok?
      && (SameButForTheRun(later.value, Current(waited.sys)) <==>
            Select(cfg, data).value != Current(s).gapId && Current(s).gapSource in ["", GAPS_LIST])
  {
    var s0 := s.(mem := s.mem.(resolvedGap := ""));
    var gapId := Select(cfg, data).value;
    hide DiscoverGap, RefreshGap, Recovered, Keeps, GapKnown, Persist, SameButForTheRun;
    DiscoveryKeepsRecord(cfg, s0);
    KeptFields(Current(s0), Current(t));
    RefreshIsSaved(cfg, s, t, gapId);
    Saving(t, GapKnown(Current(t), gapId, GAPS_LIST));
    DiscoveredAlike(cfg, Current(t), LoadedSource(Current(t)), data, t.clock);
  }

  lemma RefreshIsSaved(cfg: Config, s: Sys, t: Sys, gapId: string)
    requires s.mem.rec.Some? && Current(s).HasGap() && !s.mem.gapVerified
    requires cfg.operatorGap == "" && cfg.envGap == "" && s.mem.capabilities.gapId == "" && gapId != ""
    requires DiscoverGap(cfg, s.(mem := s.mem.(resolvedGap := ""))) == Run(t, Ok(gapId)) && t.mem.rec.Some?
    ensures var r := RefreshGap(cfg, s);
      && r.out.Ok?
      && (gapId == Current(s).gapId ==> Current(r.sys) == Current(t))
      && (gapId != Current(s).gapId ==>
            Current(r.sys) == Current(Persist(t, GapKnown(Current(t), gapId, GAPS_LIST))))
  {
    hide DiscoverGap, GapKnown;
  }

  /** A discovered gap that is recovered: never like the record that waits for it, and like the record that knows it
      exactly if the source is the same. */
  lemma DiscoveredAlike(cfg: Config, r: Record, source: string, data: Json, now: nat)
    requires r.step.GapDiscovery? && Select(cfg, data).Ok? && Select(cfg, data).value != ""
    ensures var later := Recovered(cfg, r, source, data);
      && later.Ok? && !SameButForTheRun(later.value, r)
      && (SameButForTheRun(later.value, GapKnown(r, Select(cfg, data).value, GAPS_LIST).(updatedAt := now)) <==>
            source in ["", GAPS_LIST])
  {
    hide Select, ReadReceipt;
  }

  // ---- The preclaim context ----

  /** They never agree: the waiting client uses the context as the digest of its claim and does not record it, the
      recovery records it as the governance context. */
  lemma PreclaimRecovery(cfg: Config, s: Sys, t: Sys, data: Json)
    requires s.mem.rec.Some?
    requires CanonicalDigest(s).out == Ok("")
    requires Promised(CanonicalDigest(s).sys, CompilePreclaim, PreclaimCompiling, t, data)
    requires ContextIdOf(data) != ""
    ensures var waited, later := ClaimDigest(s), RecoveredLater(cfg, t, data);
      && waited.out == Ok(ContextIdOf(data)) && later.Ok?
      && Current(waited.sys) == Current(t) && Current(waited.sys).step.PreclaimContext?
      && later.value == Current(t).(contextId := ContextIdOf(data), status := "preclaim_context_ready",
                                    step := PreclaimContextReady, terminal := false, runId := "", pollUrl := "")
      && !SameButForTheRun(later.value, Current(waited.sys))
  {
    hide CanonicalDigest, CallAndSettle, ContextIdOf, Select, ReadReceipt;
  }
}
