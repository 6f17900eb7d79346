// The persisted record of a governed run, the client's memory, and everything a session can observe.
module FlowState {
  import opened Json
  import opened GovernanceReceipts
  import opened Options

  /** The value of the record's "step". */
  datatype Phase =
    | Unstarted
    | GapDiscovery | GapResolution | GapResolved
    | PreclaimContext | PreclaimContextReady
    | GapClaim | ClaimSucceeded
    | ContextCreate | ContextCreated
    | ContextCompile | ContextCompiled
    | GovernedRealize | ReceiptReady

  /** The calls that the server may answer with "accepted, poll me". */
  datatype Action = Discovering | PreclaimCompiling | Claiming | Registering | Compiling | Realizing

  /** `_state_step`. */
  function PendingPhase(action: Action): Phase {
    match action
    case Discovering => GapDiscovery
    case PreclaimCompiling => PreclaimContext
    case Claiming => GapClaim
    case Registering => ContextCreate
    case Compiling => ContextCompile
    case Realizing => GovernedRealize
  }

  /** latest.json. The "status" and "governance_context_id" of a receipt share the record's own fields. */
  datatype Record = Record(
    runRecordId: nat, createdAt: nat, updatedAt: nat,
    status: string, errorCode: string, step: Phase, terminal: bool, runId: string, pollUrl: string,
    gapId: string, gapSource: string,
    claimId: string, claimRef: string, claimDigest: string,
    registrationId: string,
    contextId: string,
    candidate: string,
    liveConfirmed: bool,
    digest: string, message: string, realizedAt: string, governed: bool, eventSpineEvidence: bool,
    verdict: string, driftState: string, mcpEventId: string, proofId: string, receiptId: string,
    passportDigest: string, trustDigest: string)
  {
    /** The receipt that the record holds. */
    function HeldReceipt(): Receipt {
      Receipt(
        digest, status, message, realizedAt, governed, eventSpineEvidence, verdict, driftState, contextId,
        mcpEventId, proofId, receiptId, passportDigest, trustDigest)
    }

    /** `_receipt_state`: the receipt's fields written into the record. */
    function WithReceipt(r: Receipt): Record {
      this.(digest := r.digest, status := r.status, message := r.message, realizedAt := r.realizedAt,
            governed := r.governed, eventSpineEvidence := r.eventSpineEvidence, verdict := r.verdict,
            driftState := r.driftState, contextId := r.contextId, mcpEventId := r.mcpEventId, proofId := r.proofId,
            receiptId := r.receiptId, passportDigest := r.passportDigest, trustDigest := r.trustDigest)
    }

    predicate HasGap() { gapId != "" }
    predicate HasClaim() { claimId != "" || claimRef != "" }
    predicate HasRegistration() { registrationId != "" }
    predicate HasContext() { contextId != "" }
    predicate HasReceipt() { liveConfirmed && IsConfirmed(HeldReceipt()) }
    predicate HasRun() { runId != "" || pollUrl != "" }

    /** A finished flow: nothing is left to do and the receipt can be named. */
    predicate IsSettled() { terminal && receiptId != "" }
  }

  function NewRecord(now: nat): Record {
    Record(now, now, now, "", "", Unstarted, false, "", "", "", "", "", "", "", "", "", "", false,
           "", "", "", false, false, "", "", "", "", "", "", "")
  }

  /** The length of the recorded prefix gap, claim, registration, context, receipt. */
  function Progress(r: Record): nat {
    if !r.HasGap() then 0
    else if !r.HasClaim() then 1
    else if !r.HasRegistration() then 2
    else if !r.HasContext() then 3
    else if !r.HasReceipt() then 4
    else 5
  }

  /** Gap, claim, registration, context, and a receipt that meets the six conditions of a live confirmation. */
  predicate IsWhole(r: Record) {
    && r.gapId != "" && (r.claimId != "" || r.claimRef != "") && r.registrationId != "" && r.contextId != ""
    && r.liveConfirmed && r.governed && r.eventSpineEvidence && r.verdict == "ACCEPT"
    && r.driftState != "" && r.mcpEventId != ""
  }

  /** What the length of the prefix says about the fields. */
  lemma ProgressCountsThePrefix(r: Record)
    ensures Progress(r) >= 1 <==> r.gapId != ""
    ensures Progress(r) >= 2 <==> r.gapId != "" && (r.claimId != "" || r.claimRef != "")
    ensures Progress(r) >= 3 <==> r.gapId != "" && (r.claimId != "" || r.claimRef != "") && r.registrationId != ""
    ensures Progress(r) >= 4
            <==> r.gapId != "" && (r.claimId != "" || r.claimRef != "") && r.registrationId != "" && r.contextId != ""
    ensures Progress(r) >= 5 <==> IsWhole(r)
    ensures Progress(r) <= 5
  {
  }

  /** The files below .keyhole/governed-runs. */
  datatype Disk = Disk(latest: Option<Record>, runs: map<nat, Record>)

  /** What discovery learned about the server. */
  datatype Capabilities = Capabilities(
    requiresClaim: bool, canClaim: bool, canRegister: bool, canCompile: bool, canRealize: bool,
    gapId: string, canDiscoverGaps: bool)

  const NO_CAPABILITIES := Capabilities(false, false, false, false, false, "", false)

  /** The client object; `rec` is None while `current_state` is still empty. */
  datatype Memory = Memory(
    rec: Option<Record>, resolvedGap: string, gapSource: string, gapVerified: bool, capabilities: Capabilities)

  const FRESH_MEMORY := Memory(None, "", "", false, NO_CAPABILITIES)

  /** One answer of the outside world. `TimeUp` ends a polling loop; any other request reads it as `Broken`. */
  datatype Reply = Http(code: nat, body: Json) | NotJson(code: nat) | Broken | TimeUp

  datatype Request =
    | ReadCapabilities
    | ReadCanonicalDigest
    | ListGaps(forStory: bool)
    | Poll(path: string)
    | CompilePreclaim
    | ClaimGap(gapId: string)
    | RegisterRepo(gap: string, claimId: string, claimRef: string)
    | CompileContext(registrationId: string)
    | Realize(contextId: string, candidate: string)

  datatype Command = RunCommand(dryRun: bool) | ResumeCommand(useLast: bool) | StatusCommand | ReceiptCommand

  /** What one can see from outside: sessions start, requests leave, answers arrive, latest.json is written, and then
      the run's own file. `Resolved` marks a gap id as learned from the operator, the environment or the server rather
      than from the disk. */
  datatype Event =
    | Started(operatorGap: string, command: Command)
    | Resolved(gapId: string)
    | Sent(request: Request, before: Option<Record>)
    | Got(reply: Reply)
    | Saved(before: Option<Record>, record: Record)
    | Filed(record: Record)

  /** latest.json after these events, on a disk that was empty before. */
  function LatestAfter(trace: seq<Event>): Option<Record> {
    if trace == [] then None
    else
      var last := trace[|trace| - 1];
      if last.Saved? then Some(last.record) else LatestAfter(trace[..|trace| - 1])
  }

  /** The files of the runs after these events. */
  function RunsAfter(trace: seq<Event>): map<nat, Record> {
    if trace == [] then map[]
    else
      var last, before := trace[|trace| - 1], RunsAfter(trace[..|trace| - 1]);
      if last.Filed? then before[last.record.runRecordId := last.record] else before
  }

  /** `tape` holds the answers that the world will give; when it is used up, the process dies. */
  datatype Sys = Sys(disk: Disk, mem: Memory, tape: seq<Reply>, trace: seq<Event>, clock: nat)

  const EMPTY_DISK := Disk(None, map[])
  const BLANK := Sys(EMPTY_DISK, FRESH_MEMORY, [], [], 0)

  /** Reasons for a GovernedDemoError. */
  datatype Failure =
    | NoState | BadDeclaration | HttpError(code: nat) | NotAnObject | Rejected | MissingOperation
    | BadGapId | UnresolvedGap | NoClaimableGap | MultipleGaps
    | NoRunHandle | Late | RunFailed(reason: string) | RunNotFound | MissingId | GateRejected | UnconfirmedReceipt
    | NoReceipt

  /** How a call ends: with a value, with a GovernedDemoError, with any other exception, or with the process. */
  datatype Outcome<+T> = Ok(value: T) | Err(failure: Failure) | Abort | Crash
  {
    function Fail<U>(): Outcome<U>
      requires !Ok?
    {
      match this
      case Err(f) => Err(f)
      case Abort => Abort
      case Crash => Crash
    }
  }

  datatype Run<+T> = Run(sys: Sys, out: Outcome<T>)

  datatype Gate = GatePasses | GateRejects | GateBreaks

  /** One invocation's settings and the parts of the outside world that stay fixed while it runs. */
  datatype Config = Config(
    operatorGap: string, envGap: string,
    repoName: string, storyId: string, capabilityId: string,
    declarationReads: bool, gate: Gate, now: string,
    dump: Json -> string,                  // lower-cased JSON text of a gap
    readCapabilities: Json -> Capabilities,
    parseTime: string -> Option<string>,   // an ISO time, normalised
    candidateFor: string -> string)        // digest of the realization candidate for a context id
}
