// The test runtime as it runs: one shared object that the requests change in place.
module RuntimeServer {
  import opened Options
  import opened RuntimeBridge
  import opened RuntimeRealize

  class RuntimeState {
    var currentDigest: Option<string>
    var realizedDigests: seq<string>
    var governanceReceipts: seq<Stored>
    var updatedAt: nat
    var pointer: nat

    function Value(): State
      reads this
    {
      State(currentDigest, realizedDigests, governanceReceipts, updatedAt, pointer)
    }

    constructor (now: nat)
      ensures Value() == Start(now)
    {
      currentDigest, realizedDigests, governanceReceipts, updatedAt, pointer := None, [], [], now, 0;
    }

    predicate IsRealized(digest: string)
      reads this
    {
      digest in realizedDigests
    }

    method ApplyDigest(now: nat, digest: string, receipt: PublicReceipt) returns (answered: Answered)
      modifies this
      ensures (Value(), answered) == Apply(old(Value()), now, digest, receipt)
    {
      if IsRealized(digest) {
        return Answered(AlreadyRealized, Stored(digest, now, receipt));
      }
      realizedDigests := realizedDigests + [digest];
      currentDigest := Some(digest);
      updatedAt := now;
      pointer := pointer + 1;
      governanceReceipts := governanceReceipts + [Stored(digest, now, receipt)];
      return Answered(Accept, Stored(digest, now, receipt));
    }
  }

  /** `realize` after the suspension. */
  method FinishRealize(settings: Settings, state: RuntimeState, request: Request, answer: Answer, now: nat)
    returns (response: Response)
    modifies state
    ensures (state.Value(), response) == Finish(settings, old(state.Value()), request, answer, now)
  {
    var v := GovernanceCheck(settings, answer);
    if !v.ok {
      return NotApproved(v.verdict, v.reason);
    }
    if request.requireGoverned {
      var missing := MissingFields(v.evidence);
      if missing != [] {
        return EvidenceMissing(missing);
      }
      if v.evidence.None? || !v.evidence.value.eventSpine {
        return EvidenceMissing(["event_spine_evidence"]);
      }
    }
    var answered := state.ApplyDigest(now, request.digest, ReceiptFor(request, v));
    return Done(answered);
  }

  /** The event loop on one schedule. */
  method Serve(settings: Settings, now: nat, events: seq<Event>) returns (state: RuntimeState, log: seq<Completion>)
    ensures fresh(state)
    ensures state.Value() == Run(settings, Initial(now), events).state
    ensures log == Run(settings, Initial(now), events).log
  {
    state := new RuntimeState(now);
    log := [];
    var waiting: seq<Request> := [];
    var i := 0;
    while i < |events|
      invariant 0 <= i <= |events|
      invariant fresh(state)
      invariant Run(settings, Sys(state.Value(), waiting, log), events[i..]) == Run(settings, Initial(now), events)
    {
      hide Finish, ResolveMode;
      assert events[i..][1..] == events[i + 1..];
      match events[i] {
      case Arrives(request) =>
        if PassesGate(settings, request) {
          waiting := waiting + [request];
        } else {
          log := log + [Completion(request, Raised, 0, GateClosed)];
        }
      case Answers(index, answer, at) =>
        if index < |waiting| {
          var request := waiting[index];
          var response := FinishRealize(settings, state, request, answer, at);
          waiting := waiting[..index] + waiting[index + 1..];
          log := log + [Completion(request, answer, at, response)];
        }
      }
      i := i + 1;
    }
  }
}
