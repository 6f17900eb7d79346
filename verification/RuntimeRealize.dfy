// The test runtime's POST /realize: a gate, a suspension while governance answers, and the change of the shared state.
module RuntimeRealize {
  import opened Json
  import opened Options
  import opened RuntimeBridge

  // ---- The state and one application ----

  /** The evidence fields that answers and stored receipts share; an empty field is null. */
  datatype PublicReceipt = PublicReceipt(
    governed: bool, eventSpine: bool, verdict: string, driftState: string, contextId: Option<string>,
    eventId: Option<string>, proofId: Option<string>, receiptId: Option<string>, passportDigest: Option<string>,
    trustDigest: Option<string>)

  datatype Stored = Stored(digest: string, realizedAt: nat, receipt: PublicReceipt)

  datatype State = State(
    current: Option<string>, realized: seq<string>, receipts: seq<Stored>, updatedAt: nat, pointer: nat)

  datatype Status = Accept | AlreadyRealized

  datatype Answered = Answered(status: Status, stored: Stored)

  function Start(now: nat): State {
    State(None, [], [], now, 0)
  }

  function NullIfEmpty(s: string): Option<string> {
    if s == "" then None else Some(s)
  }

  /** The receipt that `apply_digest` makes of its arguments. */
  function MakeReceipt(verdict: string, e: Option<Evidence>, contextId: string, passport: string, trust: string)
    : PublicReceipt
  {
    match e
    case None =>
      PublicReceipt(false, false, verdict, "not_applicable", NullIfEmpty(contextId), None, None, None,
                    NullIfEmpty(passport), NullIfEmpty(trust))
    case Some(e) =>
      PublicReceipt(true, e.eventSpine, verdict, if e.driftState == "" then "not_reported" else e.driftState,
                    NullIfEmpty(contextId), NullIfEmpty(e.eventId), NullIfEmpty(e.proofId), NullIfEmpty(e.receiptId),
                    NullIfEmpty(passport), NullIfEmpty(trust))
  }

  /** `apply_digest`. */
  function Apply(state: State, now: nat, digest: string, receipt: PublicReceipt): (State, Answered) {
    var stored := Stored(digest, now, receipt);
    if digest in state.realized then (state, Answered(AlreadyRealized, stored))
    else
      (State(Some(digest), state.realized + [digest], state.receipts + [stored], now, state.pointer + 1),
       Answered(Accept, stored))
  }

  // ---- One request ----

  datatype Request = Request(
    digest: string, requireGoverned: bool, contextId: string, passportDigest: string, trustDigest: string)

  datatype Response =
    | GateClosed
    | NotApproved(verdict: string, reason: Reason)
    | EvidenceMissing(fields: seq<string>)
    | Done(answered: Answered)

  predicate PassesGate(settings: Settings, request: Request) {
    request.requireGoverned ==> ResolveMode(settings).Governed?
  }

  /** The required evidence that is not there. */
  function MissingFields(e: Option<Evidence>): seq<string> {
    if e.None? then ["governance_verdict", "drift_state", "governance_context_id", "mcp_event_id"]
    else
      (if e.value.verdict == "" then ["governance_verdict"] else [])
      + (if e.value.driftState == "" then ["drift_state"] else [])
      + (if e.value.contextId == "" then ["governance_context_id"] else [])
      + (if e.value.eventId == "" then ["mcp_event_id"] else [])
  }

  /** What goes to `apply_digest`: governance's word first, then the request's. */
  function ReceiptFor(request: Request, v: Verdict): PublicReceipt {
    var e := v.evidence;
    MakeReceipt(
      if e.Some? && e.value.verdict != "" then e.value.verdict else v.verdict,
      e,
      if e.Some? && e.value.contextId != "" then e.value.contextId else request.contextId,
      request.passportDigest, request.trustDigest)
  }

  /** `realize` from the point where governance has answered. */
  function Finish(settings: Settings, state: State, request: Request, answer: Answer, now: nat): (State, Response) {
    var v := GovernanceCheck(settings, answer);
    if !v.ok then (state, NotApproved(v.verdict, v.reason))
    else
      var missing := MissingFields(v.evidence);
      var spine := v.evidence.Some? && v.evidence.value.eventSpine;
      if request.requireGoverned && (missing != [] || !spine) then
        (state, EvidenceMissing(if missing != [] then missing else ["event_spine_evidence"]))
      else
        var (next, answered) := Apply(state, now, request.digest, ReceiptFor(request, v));
        (next, Done(answered))
  }

  // ---- Any number of requests at once ----

  /** A response that has been sent, with the answer that governance gave for it. */
  datatype Completion = Completion(request: Request, answer: Answer, now: nat, response: Response)

  /** The shared state, the requests suspended at the check, and the responses in the order of sending. */
  datatype Sys = Sys(state: State, waiting: seq<Request>, log: seq<Completion>)

  /** A request arrives, or governance answers one of those that wait. */
  datatype Event =
    | Arrives(request: Request)
    | Answers(index: nat, answer: Answer, now: nat)

  function Initial(now: nat): Sys {
    Sys(Start(now), [], [])
  }

  function Step(settings: Settings, sys: Sys, event: Event): Sys {
    match event
    case Arrives(request) =>
      if PassesGate(settings, request) then sys.(waiting := sys.waiting + [request])
      else sys.(log := sys.log + [Completion(request, Raised, 0, GateClosed)])
    case Answers(index, answer, now) =>
      if index >= |sys.waiting| then sys
      else
        var request := sys.waiting[index];
        var (state, response) := Finish(settings, sys.state, request, answer, now);
        Sys(state, sys.waiting[..index] + sys.waiting[index + 1..],
            sys.log + [Completion(request, answer, now, response)])
  }

  /** A schedule: events in any order. */
  function Run(settings: Settings, sys: Sys, events: seq<Event>): Sys
    decreases |events|
  {
    if events == [] then sys else Run(settings, Step(settings, sys, events[0]), events[1..])
  }

  // ---- What every schedule keeps ----

  predicate IsDone(c: Completion) {
    c.response.Done?
  }

  /** The receipts that were sent, in order. */
  function Sent(log: seq<Completion>): seq<Answered> {
    if log == [] then []
    else Sent(log[..|log| - 1]) + if IsDone(log[|log| - 1]) then [log[|log| - 1].response.answered] else []
  }

  /** The receipts that were sent with ACCEPT, in order. */
  function Accepted(sent: seq<Answered>): seq<Stored> {
    if sent == [] then []
    else Accepted(sent[..|sent| - 1]) + if sent[|sent| - 1].status.Accept? then [sent[|sent| - 1].stored] else []
  }

  /** The digests that the receipts name, in order. */
  function Named(sent: seq<Answered>): (r: seq<string>)
    ensures |r| == |sent|
    ensures forall i :: 0 <= i < |r| ==> r[i] == sent[i].stored.digest
  {
    if sent == [] then [] else Named(sent[..|sent| - 1]) + [sent[|sent| - 1].stored.digest]
  }

  function Digests(receipts: seq<Stored>): (r: seq<string>)
    ensures |r| == |receipts|
    ensures forall i :: 0 <= i < |r| ==> r[i] == receipts[i].digest
  {
    if receipts == [] then [] else Digests(receipts[..|receipts| - 1]) + [receipts[|receipts| - 1].digest]
  }

  /** Each digest once, in the order of first occurrence. */
  function Firsts(digests: seq<string>): seq<string> {
    if digests == [] then []
    else
      var before, last := digests[..|digests| - 1], digests[|digests| - 1];
      Firsts(before) + if last in before then [] else [last]
  }

  lemma {:induction false} FirstsAreTheSet(digests: seq<string>)
    ensures forall digest :: digest in Firsts(digests) <==> digest in digests
    ensures NoDuplicates(Firsts(digests))
  {
    if digests != [] {
      var before, last := digests[..|digests| - 1], digests[|digests| - 1];
      FirstsAreTheSet(before);
      assert digests == before + [last];
    }
  }

  predicate NoDuplicates(digests: seq<string>) {
    forall i, j :: 0 <= i < j < |digests| ==> digests[i] != digests[j]
  }

  /** ACCEPT exactly for the first receipt of each digest. */
  predicate FirstIsAccepted(sent: seq<Answered>) {
    forall k :: 0 <= k < |sent| ==> (sent[k].status.Accept? <==> sent[k].stored.digest !in Named(sent)[..k])
  }

  /** The lists, the pointer and the current digest agree. */
  predicate Aligned(s: State) {
    && s.realized == Digests(s.receipts)
    && s.pointer == |s.realized|
    && s.current == (if s.realized == [] then None else Some(s.realized[|s.realized| - 1]))
    && (s.receipts != [] ==> s.updatedAt == s.receipts[|s.receipts| - 1].realizedAt)
  }

  /** Both the URL and the token of governance are known. */
  predicate AsksGovernance(settings: Settings) {
    settings.url != "" && settings.token != ""
  }

  /** What holds of every receipt, stored or sent. */
  predicate Honest(settings: Settings, r: PublicReceipt) {
    && (r.eventSpine <==> r.eventId.Some?)
    && (r.governed <==> AsksGovernance(settings))
    && (r.governed || settings.url == "")
    && r.verdict != "" && r.driftState != ""
    && (!r.governed ==> r.verdict == "LOCAL_ONLY" && r.driftState == "not_applicable" && r.eventId.None?
                        && r.proofId.None? && r.receiptId.None?)
  }

  /** The evidence that a governed request asks for. */
  predicate FullEvidence(r: PublicReceipt) {
    r.governed && r.eventSpine && r.verdict != "" && r.driftState != "" && r.contextId.Some? && r.eventId.Some?
  }

  /** The receipt repeats what governance said and the digests that the request declared. */
  predicate Repeats(c: Completion, r: PublicReceipt) {
    && r.passportDigest == NullIfEmpty(c.request.passportDigest)
    && r.trustDigest == NullIfEmpty(c.request.trustDigest)
    && (!r.governed ==> r.contextId == NullIfEmpty(c.request.contextId))
    && (r.governed && IsApproval(c.answer) ==>
          var e := ExtractEvidence(c.answer.body);
          && r.verdict == e.verdict && r.driftState == e.driftState && r.eventId == NullIfEmpty(e.eventId)
          && r.proofId == NullIfEmpty(e.proofId) && r.receiptId == NullIfEmpty(e.receiptId)
          && r.contextId == NullIfEmpty(if e.contextId != "" then e.contextId else c.request.contextId))
  }

  /** Governance stands in the way of no one without a URL, and otherwise lets only approved candidates through. */
  predicate IsLetThrough(settings: Settings, answer: Answer) {
    settings.url == "" || (AsksGovernance(settings) && IsApproval(answer))
  }

  /** An approval that names a context and an event; the other evidence is always there. */
  predicate IsComplete(answer: Answer) {
    IsApproval(answer) && ExtractEvidence(answer.body).contextId != "" && ExtractEvidence(answer.body).eventId != ""
  }

  /** Who requires governance is turned away where there is none. */
  predicate IsAdmitted(settings: Settings, request: Request) {
    request.requireGoverned ==> AsksGovernance(settings)
  }

  /** What holds of every response: which one it is, what a refusal says, and what is in a receipt. */
  predicate Earned(settings: Settings, c: Completion) {
    && (c.response.GateClosed? <==> !IsAdmitted(settings, c.request))
    && (c.response.NotApproved? <==> IsAdmitted(settings, c.request) && !IsLetThrough(settings, c.answer))
    && (c.response.Done? <==>
          && IsAdmitted(settings, c.request) && IsLetThrough(settings, c.answer)
          && (c.request.requireGoverned ==> IsComplete(c.answer)))
    && (c.response.NotApproved? ==>
          c.response.verdict == "REJECT" && c.response.reason == GovernanceCheck(settings, c.answer).reason)
    && (c.response.EvidenceMissing? ==> IsApproval(c.answer) && c.response.fields == Lacking(c.answer.body))
    && (c.response.Done? ==>
          && c.response.answered.stored.digest == c.request.digest
          && c.response.answered.stored.realizedAt == c.now
          && Honest(settings, c.response.answered.stored.receipt)
          && Repeats(c, c.response.answered.stored.receipt)
          && (c.request.requireGoverned ==> FullEvidence(c.response.answered.stored.receipt)))
  }

  /** The names of what an approval should have named and did not. */
  function Lacking(body: Json): seq<string> {
    (if ExtractEvidence(body).contextId == "" then ["governance_context_id"] else [])
    + (if ExtractEvidence(body).eventId == "" then ["mcp_event_id"] else [])
  }

  /** The state is what the receipts sent so far say it is. */
  predicate Recorded(state: State, sent: seq<Answered>) {
    && Aligned(state)
    && state.realized == Firsts(Named(sent))
    && state.receipts == Accepted(sent)
    && FirstIsAccepted(sent)
  }

  predicate Inv(settings: Settings, sys: Sys) {
    && Recorded(sys.state, Sent(sys.log))
    && (forall request :: request in sys.waiting ==> IsAdmitted(settings, request))
    && (forall c :: c in sys.log ==> Earned(settings, c))
  }

  lemma FinishIsEarned(settings: Settings, state: State, request: Request, answer: Answer, now: nat)
    requires IsAdmitted(settings, request)
    ensures var response := Finish(settings, state, request, answer, now).1;
      Earned(settings, Completion(request, answer, now, response))
  {
    hide ExtractEvidence, GovernanceCheck;
    CheckIsFailClosed(settings, answer);
    if IsApproval(answer) {
      EvidenceNamesItsEvent(answer.body);
    }
  }

  lemma NamedGrows(sent: seq<Answered>, last: Answered)
    ensures Named(sent + [last]) == Named(sent) + [last.stored.digest]
    ensures Accepted(sent + [last]) == Accepted(sent) + if last.status.Accept? then [last.stored] else []
    ensures Firsts(Named(sent + [last]))
            == Firsts(Named(sent)) + if last.stored.digest in Named(sent) then [] else [last.stored.digest]
  {
    assert (sent + [last])[..|sent|] == sent;
    var named := Named(sent + [last]);
    assert named[..|sent|] == Named(sent);
  }

  /** What one application adds to the history. */
  lemma ApplyIsRecorded(state: State, sent: seq<Answered>, now: nat, digest: string, receipt: PublicReceipt)
    requires Recorded(state, sent)
    ensures var (next, answered) := Apply(state, now, digest, receipt);
      Recorded(next, sent + [answered])
  {
    hide Firsts, Named, Accepted, Digests;
    var (next, answered) := Apply(state, now, digest, receipt);
    FirstsAreTheSet(Named(sent));
    NamedGrows(sent, answered);
    var more := sent + [answered];
    forall k | 0 <= k < |more|
      ensures more[k].status.Accept? <==> more[k].stored.digest !in Named(more)[..k]
    {
      assert Named(more)[..k] == Named(sent)[..k];
    }
    if answered.status.Accept? {
      assert next.realized == Digests(next.receipts) by {
        assert forall i :: 0 <= i < |next.realized| ==> next.realized[i] == next.receipts[i].digest;
      }
    }
  }

  lemma SentGrows(log: seq<Completion>, c: Completion)
    ensures Sent(log + [c]) == Sent(log) + if IsDone(c) then [c.response.answered] else []
  {
    assert (log + [c])[..|log|] == log;
  }

  lemma StepKeepsInv(settings: Settings, sys: Sys, event: Event)
    requires Inv(settings, sys)
    ensures Inv(settings, Step(settings, sys, event))
  {
    hide Recorded, Earned, Sent, GovernanceCheck, Apply, MakeReceipt, ReceiptFor, MissingFields;
    match event
    case Arrives(request) =>
      if !PassesGate(settings, request) {
        var c := Completion(request, Raised, 0, GateClosed);
        SentGrows(sys.log, c);
        assert Sent(sys.log + [c]) == Sent(sys.log);
        assert Earned(settings, c) by { GateClosedIsEarned(settings, request); }
      }
    case Answers(index, answer, now) =>
      if index < |sys.waiting| {
        var request := sys.waiting[index];
        assert request in sys.waiting;
        var (next, response) := Finish(settings, sys.state, request, answer, now);
        var c := Completion(request, answer, now, response);
        SentGrows(sys.log, c);
        FinishIsEarned(settings, sys.state, request, answer, now);
        var v := GovernanceCheck(settings, answer);
        if response.Done? {
          ApplyIsRecorded(sys.state, Sent(sys.log), now, request.digest, ReceiptFor(request, v));
        } else {
          assert Sent(sys.log + [c]) == Sent(sys.log) && next == sys.state;
        }
      }
  }

  lemma GateClosedIsEarned(settings: Settings, request: Request)
    requires !IsAdmitted(settings, request)
    ensures Earned(settings, Completion(request, Raised, 0, GateClosed))
  {
  }

  lemma {:induction false} RunKeepsInv(settings: Settings, sys: Sys, events: seq<Event>)
    requires Inv(settings, sys)
    ensures Inv(settings, Run(settings, sys, events))
    decreases |events|
  {
    hide Inv, Step;
    if events != [] {
      StepKeepsInv(settings, sys, events[0]);
      RunKeepsInv(settings, Step(settings, sys, events[0]), events[1..]);
    }
  }

  // ---- Main results ----

  lemma InitialInv(settings: Settings, now: nat)
    ensures Inv(settings, Initial(now))
  {
  }

  /**
   * Whatever the order in which requests arrive and governance answers: the first receipt of a digest says ACCEPT,
   * every later one says ALREADY_REALIZED, and the realized digests are those of the receipts, each once, in that
   * order.
   */
  lemma EachDigestIsAcceptedOnce(settings: Settings, now: nat, events: seq<Event>)
    ensures var sys := Run(settings, Initial(now), events);
      && sys.state.realized == Firsts(Named(Sent(sys.log)))
      && NoDuplicates(sys.state.realized)
      && sys.state.receipts == Accepted(Sent(sys.log))
      && (forall digest :: digest in sys.state.realized <==> digest in Named(Sent(sys.log)))
      && FirstIsAccepted(Sent(sys.log))
  {
    InitialInv(settings, now);
    RunKeepsInv(settings, Initial(now), events);
    FirstsAreTheSet(Named(Sent(Run(settings, Initial(now), events).log)));
  }

  /** No digest is accepted twice. */
  lemma AcceptIsUnique(settings: Settings, now: nat, events: seq<Event>, j: nat, k: nat)
    requires j < k < |Sent(Run(settings, Initial(now), events).log)|
    requires var sent := Sent(Run(settings, Initial(now), events).log); sent[j].stored.digest == sent[k].stored.digest
    ensures Sent(Run(settings, Initial(now), events).log)[k].status.AlreadyRealized?
  {
    EachDigestIsAcceptedOnce(settings, now, events);
    var sent := Sent(Run(settings, Initial(now), events).log);
    assert Named(sent)[..k][j] == sent[k].stored.digest;
  }

  lemma {:induction false} SentComesFromLog(log: seq<Completion>, a: Answered)
    requires a in Sent(log)
    ensures exists c :: c in log && IsDone(c) && c.response.answered == a
  {
    var before, last := log[..|log| - 1], log[|log| - 1];
    assert log == before + [last];
    if a in Sent(before) {
      SentComesFromLog(before, a);
      var c :| c in before && IsDone(c) && c.response.answered == a;
      assert c in log;
    } else {
      assert last in log;
    }
  }

  lemma {:induction false} AcceptedComesFromSent(sent: seq<Answered>, stored: Stored)
    requires stored in Accepted(sent)
    ensures Answered(Accept, stored) in sent
  {
    var before, last := sent[..|sent| - 1], sent[|sent| - 1];
    assert sent == before + [last];
    if stored in Accepted(before) {
      AcceptedComesFromSent(before, stored);
    }
  }

  /** Every stored receipt was sent with ACCEPT to the request that brought it. */
  lemma StoredWasEarned(settings: Settings, sys: Sys, stored: Stored)
    requires Inv(settings, sys) && stored in sys.state.receipts
    ensures exists c :: c in sys.log && IsDone(c) && c.response.answered == Answered(Accept, stored)
                        && Earned(settings, c)
  {
    hide Earned, Accepted, Sent;
    AcceptedComesFromSent(Sent(sys.log), stored);
    SentComesFromLog(sys.log, Answered(Accept, stored));
  }

  /**
   * In every state of every schedule the lists, the pointer and the current digest agree, every stored receipt says
   * truly whether governance was asked and whether an event was named, and each response to a governed request is
   * complete.
   */
  lemma RuntimeIsHonest(settings: Settings, now: nat, events: seq<Event>)
    ensures var sys := Run(settings, Initial(now), events);
      && Aligned(sys.state)
      && (forall stored :: stored in sys.state.receipts ==> Honest(settings, stored.receipt))
      && (forall c :: c in sys.log ==> Earned(settings, c))
      && (settings.url != "" && settings.token == "" ==> sys.state.realized == [] && sys.state.receipts == [])
  {
    var sys := Run(settings, Initial(now), events);
    InitialInv(settings, now);
    RunKeepsInv(settings, Initial(now), events);
    forall stored | stored in sys.state.receipts
      ensures Honest(settings, stored.receipt)
    {
      StoredWasEarned(settings, sys, stored);
    }
    assert sys.state.receipts == [] || sys.state.receipts[0] in sys.state.receipts;
  }

  /**
   * What the settings alone decide, in every schedule. A URL without a token realizes nothing. Without a URL everyone
   * who does not require governance is realized once the call has ended, whatever it brought, and no one else. With
   * both, a receipt is governed, and nothing is realized of which governance did not say ok in a 200 response.
   */
  lemma SettingsDecide(settings: Settings, now: nat, events: seq<Event>)
    ensures var sys := Run(settings, Initial(now), events);
      && (settings.url != "" && settings.token == "" ==> sys.state.realized == [] && sys.state.receipts == [])
      && (settings.url == "" ==>
            forall c :: c in sys.log ==>
              && (c.response.Done? <==> !c.request.requireGoverned)
              && (!c.request.requireGoverned ==> c.request.digest in sys.state.realized))
      && (forall stored :: stored in sys.state.receipts ==>
            (stored.receipt.governed <==> settings.url != "" && settings.token != ""))
      && (settings.url != "" && settings.token != "" ==>
            forall c :: c in sys.log && c.response.Done? ==>
              && c.answer.Http? && c.answer.code == 200 && c.answer.body.Obj?
              && Get(c.answer.body, "ok") !in [Null, Bool(false), Num(0), Str(""), Arr([]), Obj([])])
  {
    hide Aligned, Repeats, Accepted, FirstIsAccepted;
    RuntimeIsHonest(settings, now, events);
    var sys := Run(settings, Initial(now), events);
    InitialInv(settings, now);
    RunKeepsInv(settings, Initial(now), events);
    hide Run;
    FirstsAreTheSet(Named(Sent(sys.log)));
    forall c | c in sys.log && c.response.Done?
      ensures c.request.digest in sys.state.realized
    {
      LogIsNamed(sys.log, c);
    }
  }

  /** Every receipt that was sent names its digest. */
  lemma {:induction false} LogIsNamed(log: seq<Completion>, c: Completion)
    requires c in log && c.response.Done?
    ensures c.response.answered.stored.digest in Named(Sent(log))
  {
    var before, last := log[..|log| - 1], log[|log| - 1];
    assert log == before + [last];
    SentGrows(before, last);
    hide Sent, Named, Firsts, Accepted;
    if IsDone(last) {
      NamedGrows(Sent(before), last.response.answered);
    } else {
      assert Sent(log) == Sent(before);
    }
    if c in before {
      LogIsNamed(before, c);
    } else {
      assert c == last;
    }
  }

  /** The requests that arrived, and those that were answered, in order. */
  function Arrived(events: seq<Event>): seq<Request> {
    if events == [] then []
    else (if events[0].Arrives? then [events[0].request] else []) + Arrived(events[1..])
  }

  function Asked(log: seq<Completion>): seq<Request> {
    if log == [] then [] else Asked(log[..|log| - 1]) + [log[|log| - 1].request]
  }

  lemma StepForgetsNobody(settings: Settings, sys: Sys, event: Event)
    ensures var next := Step(settings, sys, event);
      multiset(next.waiting) + multiset(Asked(next.log))
      == multiset(sys.waiting) + multiset(Asked(sys.log)) + multiset(if event.Arrives? then [event.request] else [])
  {
    hide Finish, PassesGate;
    var next := Step(settings, sys, event);
    if next.log != sys.log {
      assert next.log[..|sys.log|] == sys.log;
    }
    if event.Answers? && event.index < |sys.waiting| {
      var k := event.index;
      assert sys.waiting == sys.waiting[..k] + [sys.waiting[k]] + sys.waiting[k + 1..];
    }
  }

  lemma {:induction false} RunForgetsNobody(settings: Settings, sys: Sys, events: seq<Event>)
    ensures var last := Run(settings, sys, events);
      multiset(last.waiting) + multiset(Asked(last.log))
      == multiset(sys.waiting) + multiset(Asked(sys.log)) + multiset(Arrived(events))
    decreases |events|
  {
    hide Step, Asked;
    if events != [] {
      StepForgetsNobody(settings, sys, events[0]);
      RunForgetsNobody(settings, Step(settings, sys, events[0]), events[1..]);
    }
  }

  /** In every schedule each request that arrived either waits or has its one response. */
  lemma NobodyIsForgotten(settings: Settings, now: nat, events: seq<Event>)
    ensures var sys := Run(settings, Initial(now), events);
      multiset(sys.waiting) + multiset(Asked(sys.log)) == multiset(Arrived(events))
  {
    RunForgetsNobody(settings, Initial(now), events);
  }

  /** A governed runtime realizes only what governance approved: behind each digest stands a response that said so. */
  lemma NothingIsRealizedUnapproved(settings: Settings, now: nat, events: seq<Event>, digest: string)
    requires settings.url != "" && settings.token != ""
    requires digest in Run(settings, Initial(now), events).state.realized
    ensures exists c :: c in Run(settings, Initial(now), events).log && c.request.digest == digest
                        && IsApproval(c.answer)
  {
    hide IsApproval;
    var sys := Run(settings, Initial(now), events);
    InitialInv(settings, now);
    RunKeepsInv(settings, Initial(now), events);
    var i :| 0 <= i < |sys.state.realized| && sys.state.realized[i] == digest;
    StoredWasEarned(settings, sys, sys.state.receipts[i]);
  }

  // ---- Interleavings are equivalent to one request at a time ----

  /** One request from its arrival to its response. */
  function Alone(settings: Settings, c: Completion): seq<Event> {
    [Arrives(c.request)] + if PassesGate(settings, c.request) then [Answers(0, c.answer, c.now)] else []
  }

  /** The schedule that handles one request at a time, in the order of the responses. */
  function OneByOne(settings: Settings, log: seq<Completion>): seq<Event> {
    if log == [] then []
    else
      var c := log[|log| - 1];
      OneByOne(settings, log[..|log| - 1]) + Alone(settings, c)
  }

  lemma {:induction false} RunAppend(settings: Settings, sys: Sys, a: seq<Event>, b: seq<Event>)
    ensures Run(settings, sys, a + b) == Run(settings, Run(settings, sys, a), b)
    decreases |a|
  {
    hide Step;
    if a == [] {
      assert a + b == b;
    } else {
      assert (a + b)[1..] == a[1..] + b;
      RunAppend(settings, Step(settings, sys, a[0]), a[1..], b);
    }
  }

  predicate IsSerialized(settings: Settings, now: nat, sys: Sys) {
    && Run(settings, Initial(now), OneByOne(settings, sys.log)) == sys.(waiting := [])
    && forall request :: request in sys.waiting ==> PassesGate(settings, request)
  }

  lemma StepIsSerialized(settings: Settings, now: nat, sys: Sys, event: Event)
    requires IsSerialized(settings, now, sys)
    ensures IsSerialized(settings, now, Step(settings, sys, event))
  {
    hide Finish;
    var next := Step(settings, sys, event);
    if next.log != sys.log {
      var c := next.log[|next.log| - 1];
      assert next.log == sys.log + [c] && next.log[..|sys.log|] == sys.log;
      var alone := sys.(waiting := []);
      var last := Alone(settings, c);
      RunAppend(settings, Initial(now), OneByOne(settings, sys.log), last);
      var first := Step(settings, alone, last[0]);
      if PassesGate(settings, c.request) {
        assert first.waiting == [c.request];
        var second := Step(settings, first, last[1]);
        assert last[1..] == [last[1]] && last[1..][1..] == [];
        assert Run(settings, alone, last) == Run(settings, first, last[1..]) == second;
        assert second.waiting == [];
      } else {
        assert last[1..] == [];
        assert Run(settings, alone, last) == first;
      }
    }
  }

  lemma {:induction false} RunIsSerialized(settings: Settings, now: nat, sys: Sys, events: seq<Event>)
    requires IsSerialized(settings, now, sys)
    ensures IsSerialized(settings, now, Run(settings, sys, events))
    decreases |events|
  {
    hide IsSerialized, Step;
    if events != [] {
      StepIsSerialized(settings, now, sys, events[0]);
      RunIsSerialized(settings, now, Step(settings, sys, events[0]), events[1..]);
    }
  }

  /** Handling the same requests one at a time, in the order of the responses, gives the same state and responses. */
  lemma InterleavingIsSerializable(settings: Settings, now: nat, events: seq<Event>)
    ensures var sys := Run(settings, Initial(now), events);
      Run(settings, Initial(now), OneByOne(settings, sys.log)) == sys.(waiting := [])
  {
    RunIsSerialized(settings, now, Initial(now), events);
  }

  // ---- The receipt of a digest that is realized already ----

  /** The context that a receipt names: governance's if it gives one, otherwise the request's. */
  function ContextOf(settings: Settings, c: Completion): string {
    if AsksGovernance(settings) && IsApproval(c.answer) && ExtractEvidence(c.answer.body).contextId != ""
    then ExtractEvidence(c.answer.body).contextId
    else c.request.contextId
  }

  /** Governance's words, but for the context. */
  function WordsOf(c: Completion): (string, string, string, string, string)
    requires IsApproval(c.answer)
  {
    var e := ExtractEvidence(c.answer.body);
    (e.verdict, e.driftState, e.eventId, e.proofId, e.receiptId)
  }

  /** Two requests that were let through declare the same digests, under the same context, and heard the same words. */
  predicate SayTheSame(settings: Settings, a: Completion, b: Completion) {
    && a.request.passportDigest == b.request.passportDigest && a.request.trustDigest == b.request.trustDigest
    && ContextOf(settings, a) == ContextOf(settings, b)
    && (AsksGovernance(settings) && IsApproval(a.answer) && IsApproval(b.answer) ==> WordsOf(a) == WordsOf(b))
  }

  /** Whatever is in a receipt, by the mode. */
  lemma ReceiptsCoincide(settings: Settings, a: Completion, b: Completion)
    requires Earned(settings, a) && IsDone(a) && Earned(settings, b) && IsDone(b)
    ensures a.response.answered.stored.receipt == b.response.answered.stored.receipt <==> SayTheSame(settings, a, b)
  {
    hide ExtractEvidence, IsApproval;
  }

  /**
   * ALREADY_REALIZED answers with a receipt made of the later request, not with the one on record. In every schedule
   * the two are equal exactly if the later request declares the same passport and trust digests as the one that was
   * accepted, its context is the same, and, when governance is asked, it said the same.
   */
  lemma LaterReceiptIsTheStoredOne(settings: Settings, now: nat, events: seq<Event>, stored: Stored, later: Completion)
    requires var sys := Run(settings, Initial(now), events); stored in sys.state.receipts && later in sys.log
    requires IsDone(later) && later.response.answered.status.AlreadyRealized?
    requires later.request.digest == stored.digest
    ensures exists first ::
      && first in Run(settings, Initial(now), events).log
      && first.response == Done(Answered(Accept, stored)) && first.request.digest == stored.digest
      && (later.response.answered.stored.receipt == stored.receipt <==> SayTheSame(settings, first, later))
  {
    hide SayTheSame, Accepted, Sent, Aligned, FirstIsAccepted;
    var sys := Run(settings, Initial(now), events);
    InitialInv(settings, now);
    RunKeepsInv(settings, Initial(now), events);
    StoredWasEarned(settings, sys, stored);
    var first :| first in sys.log && IsDone(first) && first.response.answered == Answered(Accept, stored)
                 && Earned(settings, first);
    ReceiptsCoincide(settings, first, later);
  }

  /** Two requests for one digest in local mode, one after the other. */
  function Twice(first: Request, later: Request): seq<Event> {
    [Arrives(first), Answers(0, Raised, 1), Arrives(later), Answers(0, Raised, 2)]
  }

  lemma {:induction false} RunFour(settings: Settings, sys: Sys, a: Event, b: Event, c: Event, d: Event)
    ensures Run(settings, sys, [a, b, c, d])
            == Step(settings, Step(settings, Step(settings, Step(settings, sys, a), b), c), d)
  {
    hide Step;
    RunAppend(settings, sys, [a, b], [c, d]);
    assert [a, b] + [c, d] == [a, b, c, d];
    RunTwo(settings, sys, a, b);
    RunTwo(settings, Run(settings, sys, [a, b]), c, d);
  }

  lemma RunTwo(settings: Settings, sys: Sys, a: Event, b: Event)
    ensures Run(settings, sys, [a, b]) == Step(settings, Step(settings, sys, a), b)
  {
    hide Step;
    assert [a, b][1..] == [b] && [b][1..] == [];
    var one := Step(settings, sys, a);
    assert Run(settings, one, [b]) == Run(settings, Step(settings, one, b), []);
  }

  /** For any two such requests that declare different passports, the later receipt is not the stored one. */
  lemma LaterReceiptMayDiffer(first: Request, later: Request)
    requires !first.requireGoverned && !later.requireGoverned && first.digest == later.digest
    requires first.passportDigest != later.passportDigest
    ensures var sys := Run(Settings("", ""), Initial(0), Twice(first, later));
      && |sys.state.receipts| == 1 && |sys.log| == 2
      && sys.log[1].response.Done? && sys.log[1].response.answered.status.AlreadyRealized?
      && sys.log[1].response.answered.stored.receipt != sys.state.receipts[0].receipt
  {
    var settings := Settings("", "");
    RunFour(settings, Initial(0), Arrives(first), Answers(0, Raised, 1), Arrives(later), Answers(0, Raised, 2));
    var one := Step(settings, Initial(0), Arrives(first));
    assert one.waiting == [first] && one.waiting[..0] + one.waiting[1..] == [];
    var two := Step(settings, one, Answers(0, Raised, 1));
    assert two.state.realized == [first.digest] && two.waiting == [];
    var three := Step(settings, two, Arrives(later));
    assert three.waiting == [later] && three.waiting[..0] + three.waiting[1..] == [];
  }
}
