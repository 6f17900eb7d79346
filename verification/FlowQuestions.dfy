// Exactly which pending requests any resume sends again, whether it returns or not.
module FlowQuestions {
  import opened Json
  import opened ReplyFields
  import opened FlowState
  import opened FlowSpec
  import opened FlowSafety
  import opened FlowRequests
  import opened FlowPolls

  // ---- The same for every resume, whether it returns or not ----

  /** What has to go well before the request of a step leaves. */
  predicate CanAsk(cfg: Config, s: Sys, action: Action) {
    match action
    case Claiming => PrepareClaim(cfg, s).out.Ok?
    case Registering => ClaimedDigest(s).out.Ok?
    case Compiling => CanonicalDigest(s).out.Ok?
    case _ => cfg.gate.GatePasses?
  }

  /** Something was asked for. */
  predicate AsksSome(trace: seq<Event>, trace': seq<Event>) {
    trace <= trace' && StepsOf(trace'[|trace|..]) != []
  }

  lemma SomeStays(a: seq<Event>, b: seq<Event>, c: seq<Event>, step: Action)
    requires Asks(a, b, [step]) && b <= c
    ensures AsksSome(a, c)
  {
    AsksOn(a, b, c, [step], StepsOf(c[|b|..]));
    hide StepsOf;
  }

  lemma QuietIsNone(a: seq<Event>, b: seq<Event>)
    requires Asks(a, b, [])
    ensures !AsksSome(a, b)
  {
  }

  lemma ClaimIsAsked(cfg: Config, s: Sys)
    requires !Current(s).HasClaim()
    ensures var r := EnsureClaim(cfg, s);
      if CanAsk(cfg, s, Claiming) then AsksSome(s.trace, r.sys.trace)
      else !AsksSome(s.trace, r.sys.trace) && !r.out.Ok?
  {
    hide Asks, AsksSome, PrepareClaim, CallAndSettle, ClaimIdOf, ClaimRefOf, Persist, Claimed;
    PrepareClaimAsks(cfg, s);
    var p := PrepareClaim(cfg, s);
    if p.out.Ok? {
      var request := ClaimGap(p.out.value.0);
      CallAsks(p.sys, request, Claiming);
      var c := CallAndSettle(p.sys, request, Claiming).sys;
      AsksOnce(s.trace, p.sys.trace, c.trace, [Claiming]);
      EnsureClaimGrows(cfg, s);
      SomeStays(s.trace, c.trace, EnsureClaim(cfg, s).sys.trace, Claiming);
    } else {
      QuietIsNone(s.trace, p.sys.trace);
    }
  }

  /** Saving only adds to the trace. */
  lemma EnsureClaimGrows(cfg: Config, s: Sys)
    requires !Current(s).HasClaim() && PrepareClaim(cfg, s).out.Ok?
    ensures var p := PrepareClaim(cfg, s);
      CallAndSettle(p.sys, ClaimGap(p.out.value.0), Claiming).sys.trace <= EnsureClaim(cfg, s).sys.trace
  {
    hide PrepareClaim, CallAndSettle, ClaimIdOf, ClaimRefOf, Claimed;
  }

  lemma RegistrationIsAsked(s: Sys)
    requires !Current(s).HasRegistration()
    ensures var r := EnsureRegistration(s);
      && (if ClaimedDigest(s).out.Ok? then AsksSome(s.trace, r.sys.trace)
          else !AsksSome(s.trace, r.sys.trace) && !r.out.Ok?)
  {
    hide Asks, AsksSome, CanonicalDigest, CallAndSettle, RegistrationIdOf, Registered;
    AsksNothing(s.trace);
    CanonicalDigestAsks(s);
    var d := ClaimedDigest(s);
    if d.out.Ok? {
      var rec := Current(d.sys);
      var request := RegisterRepo(rec.gapId, rec.claimId, rec.claimRef);
      CallAsks(d.sys, request, Registering);
      var c := CallAndSettle(d.sys, request, Registering).sys;
      AsksOnce(s.trace, d.sys.trace, c.trace, [Registering]);
      SomeStays(s.trace, c.trace, EnsureRegistration(s).sys.trace, Registering);
    } else {
      QuietIsNone(s.trace, d.sys.trace);
    }
  }

  lemma CompileIsAsked(s: Sys)
    requires !Current(s).HasContext()
    ensures var r := EnsureContext(s);
      && (if CanonicalDigest(s).out.Ok? then AsksSome(s.trace, r.sys.trace)
          else !AsksSome(s.trace, r.sys.trace) && !r.out.Ok?)
  {
    hide Asks, AsksSome, CanonicalDigest, CallAndSettle, ContextIdOf, Compiled;
    CanonicalDigestAsks(s);
    var d := CanonicalDigest(s);
    if d.out.Ok? {
      var request := CompileContext(Current(d.sys).registrationId);
      CallAsks(d.sys, request, Compiling);
      var c := CallAndSettle(d.sys, request, Compiling).sys;
      AsksOnce(s.trace, d.sys.trace, c.trace, [Compiling]);
      SomeStays(s.trace, c.trace, EnsureContext(s).sys.trace, Compiling);
    } else {
      QuietIsNone(s.trace, d.sys.trace);
    }
  }

  /** The first step that is due. */
  predicate IsFirst(r: Record, action: Action) {
    match action
    case Claiming => r.HasGap() && !r.HasClaim()
    case Registering => r.HasClaim() && !r.HasRegistration()
    case Compiling => r.HasClaim() && r.HasRegistration() && !r.HasContext()
    case Realizing => r.HasClaim() && r.HasRegistration() && r.HasContext() && !r.IsSettled()
    case _ => false
  }

  lemma SomeGrows(a: seq<Event>, b: seq<Event>, c: seq<Event>)
    requires AsksSome(a, b) && b <= c
    ensures AsksSome(a, c)
  {
    assert c[|a|..] == b[|a|..] + c[|b|..];
    StepsOfBoth(b[|a|..], c[|b|..]);
    hide StepsOf;
  }

  /** Later phases only add to the trace. */
  lemma FinishGrows(cfg: Config, s: Sys)
    ensures EnsureContext(s).sys.trace <= FinishContext(cfg, s).sys.trace
    ensures EnsureRegistration(s).sys.trace <= FinishRegistration(cfg, s).sys.trace
    ensures EnsureClaim(cfg, s).sys.trace <= FinishClaim(cfg, s).sys.trace
  {
    hide EnsureClaim, EnsureRegistration, EnsureContext, EnsureReceipt, StepsOf;
    EnsureReceiptAsks(cfg, EnsureContext(s).sys);
    ContextGrows(cfg, EnsureRegistration(s).sys);
    var c := EnsureClaim(cfg, s).sys;
    EnsureRegistrationAsks(c);
    ContextGrows(cfg, EnsureRegistration(c).sys);
  }

  lemma ContextGrows(cfg: Config, s: Sys)
    ensures s.trace <= FinishContext(cfg, s).sys.trace
  {
    hide EnsureContext, EnsureReceipt, StepsOf;
    EnsureContextAsks(s);
    EnsureReceiptAsks(cfg, EnsureContext(s).sys);
  }

  lemma NothingBefore(cfg: Config, s: Sys, action: Action)
    requires Inv(Current(s)) && IsFirst(Current(s), action)
    ensures Advance(cfg, s) == match action
                               case Claiming => FinishClaim(cfg, s)
                               case Registering => FinishRegistration(cfg, s)
                               case Compiling => FinishContext(cfg, s)
                               case _ => EnsureReceipt(cfg, s)
  {
    assert Current(s).HasGap();
    hide Inv, MakeClaim, Register, Compile, RealizeGoverned, ResolveGap;
  }

  lemma ReceiptIsAsked(cfg: Config, s: Sys)
    requires !Current(s).IsSettled()
    ensures AsksSome(s.trace, EnsureReceipt(cfg, s).sys.trace) <==> cfg.gate.GatePasses?
  {
    EnsureReceiptAsks(cfg, s);
    hide EnsureReceipt;
  }

  /** The phases ask for something exactly if the request of the first step can leave. */
  lemma FirstStepIsAsked(cfg: Config, s: Sys, action: Action)
    requires Inv(Current(s)) && IsFirst(Current(s), action)
    ensures AsksSome(s.trace, Advance(cfg, s).sys.trace) <==> CanAsk(cfg, s, action)
  {
    hide Inv, AsksSome, Advance, EnsureClaim, EnsureRegistration, EnsureContext, EnsureReceipt, PrepareClaim,
         ClaimedDigest, CanonicalDigest;
    NothingBefore(cfg, s, action);
    FinishGrows(cfg, s);
    match action
    case Claiming =>
      ClaimIsAsked(cfg, s);
      if CanAsk(cfg, s, action) {
        SomeGrows(s.trace, EnsureClaim(cfg, s).sys.trace, FinishClaim(cfg, s).sys.trace);
      }
    case Registering =>
      RegistrationIsAsked(s);
      if CanAsk(cfg, s, action) {
        SomeGrows(s.trace, EnsureRegistration(s).sys.trace, FinishRegistration(cfg, s).sys.trace);
      }
    case Compiling =>
      CompileIsAsked(s);
      if CanAsk(cfg, s, action) {
        SomeGrows(s.trace, EnsureContext(s).sys.trace, FinishContext(cfg, s).sys.trace);
      }
    case _ => ReceiptIsAsked(cfg, s);
  }

  // ---- A whole resume ----

  /** The fields before the pending step. */
  predicate KeepsEarlier(r: Record, r': Record, action: Action) {
    && (r.HasGap() ==> r'.HasGap())
    && (!action.Claiming? && r.HasClaim() ==> r'.HasClaim())
    && ((action.Compiling? || action.Realizing?) && r.HasRegistration() ==> r'.HasRegistration())
    && (action.Realizing? && r.HasContext() ==> r'.HasContext())
  }

  lemma RecoveredKeepsEarlier(cfg: Config, rec: Record, source: string, data: Json, action: Action)
    requires WaitsFor(rec, action)
    ensures var next := Recovered(cfg, rec, source, data); next.Ok? ==> KeepsEarlier(rec, next.value, action)
  {
    if action.Realizing? {
      hide Recovered, ReadReceipt, Polls;
      RecoveredReceipt(cfg, rec, source, data);
      ReadReceiptConfirms(cfg, data, rec.candidate);
    } else {
      hide Select, ReadReceipt, ClaimIdOf, ClaimRefOf, RecoveredRegistrationIdOf, ContextIdOf, Polls;
    }
  }

  lemma RecoveryKeepsEarlier(cfg: Config, s: Sys, action: Action)
    requires s.mem.rec.Some? && WaitsFor(Current(s), action)
    ensures Recover(cfg, s).out.Ok? ==> KeepsEarlier(Current(s), Current(Recover(cfg, s).sys), action)
  {
    hide Recover, Recovered, AllUnfinished, FinishedAmong, Polls;
    RecoveryIsDecided(cfg, s);
    var done := FinishedAmong(s.tape, Polls(Current(s)));
    if done.Some? {
      RecoveredKeepsEarlier(cfg, Current(s), s.mem.gapSource, done.value, action);
    }
  }

  /** Where a pending step stays open, it is the first that is due. */
  lemma OpenIsFirst(r: Record, r': Record, action: Action)
    requires Inv(r) && WaitsFor(r, action) && action in Due(r') && KeepsEarlier(r, r', action)
    ensures IsFirst(r', action) && Due(r')[0] == action
  {
  }

  lemma PreparedIsOpen(cfg: Config, s: Sys, action: Action)
    requires Starting(cfg, s) && s.disk.latest.Some? && WaitsFor(s.disk.latest.value, action)
    requires Prepared(cfg, s).out.Ok?
    ensures s.tape != []
    ensures var now := Current(Prepared(cfg, s).sys);
      && (action in Due(now) <==> StaysOpen(cfg, s.disk.latest.value, s.tape[1..]))
      && (action in Due(now) ==> IsFirst(now, action) && Due(now)[0] == action)
  {
    hide Starting, Inv, Due, Prepared, Load, Discover, Recover, WaitsFor, StaysOpen, KeepsEarlier, IsFirst;
    PreparedFromDisk(cfg, s);
    SavedIsInvariant(cfg, s);
    var d := Discover(cfg, Load(cfg, s).sys).sys;
    DueAfterPolls(cfg, d, action);
    RecoveryKeepsEarlier(cfg, d, action);
    if action in Due(Current(Prepared(cfg, s).sys)) {
      OpenIsFirst(Current(d), Current(Prepared(cfg, s).sys), action);
    }
  }

  lemma SomeIsAsked(a: seq<Event>, b: seq<Event>, c: seq<Event>)
    requires Asks(a, b, []) && b <= c
    ensures AsksSome(b, c) <==> Asked(a, c) != []
  {
    AsksOn(a, b, c, [], StepsOf(c[|b|..]));
    hide StepsOf;
  }

  /**
   * Every resume, whether it returns, fails or dies: it sends the pending step's request again exactly if it gets as
   * far as the phases, the polls left the step open, and what has to come before the request went well.
   */
  lemma PendingStepIsAskedExactly(cfg: Config, s: Sys, action: Action)
    requires Starting(cfg, s) && s.disk.latest.Some? && WaitsFor(s.disk.latest.value, action)
    ensures var p := Prepared(cfg, s);
      action in Asked(s.trace, Resume(cfg, s, true).sys.trace)
      <==> && p.out.Ok? && s.tape != [] && StaysOpen(cfg, s.disk.latest.value, s.tape[1..])
           && CanAsk(cfg, p.sys, action)
  {
    hide Starting, Working, Inv, Due, Asks, AsksSome, Asked, Prepared, Resume, Advance, WaitsFor, StaysOpen, CanAsk,
         IsFirst;
    ResumeAsksWhatIsDue(cfg, s);
    var p := Prepared(cfg, s);
    if p.out.Ok? {
      PreparedIsOpen(cfg, s, action);
      PreparedIsWorking(cfg, s);
      WorkingHolds(cfg, p.sys);
      ResumeIsAdvance(cfg, s);
      var a := Advance(cfg, p.sys).sys;
      if action in Due(Current(p.sys)) {
        FirstStepIsAsked(cfg, p.sys, action);
        AdvanceGrows(cfg, p.sys);
        SomeIsAsked(s.trace, p.sys.trace, a.trace);
      }
    }
  }

  lemma AdvanceGrows(cfg: Config, s: Sys)
    ensures s.trace <= Advance(cfg, s).sys.trace
  {
    hide EnsureGap, Advance, StepsOf;
    EnsureGapAsks(cfg, s);
    AdvanceGoesOn(cfg, s);
  }
}
