# Keyhole: governed flow, declarations, proxy and test runtime

A Dafny 4.11 model of the parts of the Keyhole repository whose behaviour spans many steps, and proofs about it.
`dafny verify dfyconfig.toml` checks everything.

**The resumable governed flow** (`Flow*.dfy`, `GapSelection.dfy`, `GapFields.dfy`, `GovernanceReceipts.dfy`,
`ReplyFields.dfy`, `ReplyPlaces.dfy`, `ReceiptRoundTrip.dfy`, `RecordFiles.dfy`, `Redaction.dfy`). A client resolves a
gap, claims it, registers a repository, compiles a context and realizes it. The server may answer at once, promise the
answer for later, fail, or lose the run; the process may die at any point and be started again. `FlowState` holds the
persisted record. `FlowSpec` follows each method of the client as a function from one observable state to the next:
disk, memory, the answers still to come, and the trace of what can be observed: requests, answers, and the two file
writes of each save. A session is a new client, one command, the answers that it will get, and the number of events that
its process lives to see: it may die after any of them, between the two writes of a save too. A run is any number of
sessions with any commands.

- `FlowAnswers`, `ReplyPlaces` and `FlowGapSources` say what each answer means: where every id and every receipt field
  is read from, which words promise, end or fail a run, exactly how both polling loops go, and who names the gap.
  `FlowFirstRun` follows a first run event by event, and `FlowCommands` the commands at their edges.
- `FlowClient` is the client as a class that updates its fields and files. Each method is proved equal to its function;
  the table lists those that loop, dispatch or promise more.
- `FlowSafety` proves the invariant of every run, and `FlowPromises` what follows from it. `FlowProvenance` traces
  what is on record back to the requests and answers that it came from.
- `FlowLimits`, `FlowRecovery`, `FlowRequests`, `FlowPolls`, `FlowQuestions` and `FlowQueries` say where the promises
  stop: settled records, restarts, recovered answers compared with awaited ones, and exactly which requests a resume
  sends, and sends again.
- `FlowCompletion` proves that every run can be brought to its end by a helpful server (`FlowHelp`), and `FlowBlocked`
  when a lost or a failed run prevents it. `FlowWaiting` shows that every pending step can be left on the disk, and
  `FlowStories` gives two concrete runs.

**Declarations** (`Yaml*.dfy`). The fallback parser for a subset of YAML, as it runs and as a recursive specification;
its round trip with a printer, texts on several lines included; the spellings of scalars; the scaffold's own documents;
and the transparency of blank lines and comments.

**The operation table** (`OperationTable.dfy`), built by prioritised inserts.

**The SSE proxy** (`SseLines.dfy`, `ProxyUrls.dfy`, `SseRelay.dfy`, `SseStreams.dfy`). Cutting a byte stream into lines,
rewriting endpoint events, routing posts, and several streams at once over one registry. Of sections 9.2.5 and 9.2.6 of
the WHATWG HTML Living Standard the code handles lines that end in LF or CRLF; a lone CR does not end a line here
either.

**The test runtime** (`Runtime*.dfy`). Any number of realize requests, each suspended while governance is asked, over
one shared state. Where the code would not really suspend, in local-only mode, the model also allows it to.

## What the code does otherwise than one might expect

- A dry run saves nothing by itself, but if the server promises the answer to its gap query for later, the promise is
  saved into a new record and latest.json starts over (`FlowLimits.DryRunKeepsProgress`). A resume told to ignore the
  last state starts over too (`FlowLimits.ForgetfulResumeStartsOver`). Nothing else ever does
  (`FlowPromises.RestartsAreChosen`), and no command ever takes progress from the file of a run
  (`FlowPromises.RunFilesNeverShrink`).
- A save writes latest.json and then the run's own file. A process that dies in between leaves the file one save behind,
  two such deaths in a row leave it two behind (`FlowStories.TwoDeathsLeaveTheFileTwoBehind`), and the next completed
  save puts it right (`FlowPromises.RunFileFollowsLatest`).
- An operator's gap id goes into the claim request, and into the saved record only with the claim's answer. If a later
  session recovers that answer, the claim is recorded under the old gap
  (`FlowStories.RecoveredClaimMayNameAnotherGap`). `FlowPromises.RecordedClaimNamesItsGap` says exactly when the
  recorded gap is the claimed one.
- A recovered answer does not always leave what the waiting client would have saved. A registration id is looked for in
  fewer places (`ReplyFields.RecoveryLosesRegistration`), a claim loses the digest and the gap that it was made with, a
  gap that is looked up again keeps its old source, and a preclaim context becomes the governance context. Only a
  first gap, a context and a receipt always agree; `FlowRecovery` has the exact condition for each step.
- A saved run that is still pending does not stop a resume, which then sends the pending request again. Progress does
  not suffer. `FlowPolls.PendingStepIsAskedAgain` and `FlowQuestions.PendingStepIsAskedExactly` say exactly when, and
  `FlowCompletion.PendingRunIsAskedTwice` that it happens. A pending question, for the gap or for a preclaim context, is
  asked again whatever its run brought (`FlowQueries.PendingQuestionIsAskedAgain`).
- A saved run that the server has lost is never given up: `FlowBlocked.ResumeEndsWithLostRun` says exactly when a resume
  ends there, and `FlowBlocked.LostRunIsNeverGivenUp` that any number of invocations may.
- A failed run is marked terminal and stays on record. The next resume does not ask for it and can complete the flow
  (`FlowBlocked.FailedRunBlocksOnce`); but if its process dies after a save, the run is open again and blocks once more
  (`FlowBlocked.SupersededRunBlocksAgain`).
- A recovered preclaim context makes a resume skip the compile step. Progress is therefore the length of a prefix
  (`FlowPolls.RecoveredPreclaimIsNotCompiled` for the condition, `FlowCompletion.RecoveredPreclaimSkipsCompile` for the
  case).
- A confirmed receipt may lack an id; the next resume then realizes again (`FlowPolls.RealizationIsAskedAgain` for the
  condition, `FlowCompletion.NamelessReceiptIsRealizedAgain` for the case).
- An answer to a registration whose payload is a text or a list aborts the client that waits for it, and a recovery of
  the same answer takes it (`FlowRecovery.RegistrationRecovery`).
- A dry run does not ask whether the operator's gap id is canonical (`FlowCommands.DryRunTrustsTheOperator`).
- The proxy rewrites some URLs without a host into URLs again (`ProxyUrls.SomeUrlsAreNotSettled`).
- ALREADY_REALIZED answers with a receipt made of the later request (`RuntimeRealize.LaterReceiptIsTheStoredOne` for the
  condition, `RuntimeRealize.LaterReceiptMayDiffer` for the case).
- A list below an entry with a text takes the text's place (`YamlDocuments.ListsReplaceTheirText`), and an entry
  indented deeper than the one before it still belongs to the same map (`YamlDocuments.DeeperEntriesCount`).
- The scaffold's empty lists are read by the fallback parser as the text `[]` (`YamlScaffold.ContractReadsBack`).

## Model

| member | source | states |
|---|---|---|
| FlowSafety.SessionsAreSafe | packages/python/keyhole-sdk/keyhole_sdk/governed_flow.py:244-324 | Every reachable state is sound: the trace is lawful, the disk is what the trace wrote, the record satisfies the invariant that a pending step's field is still open. For every list of invocations, dry runs and resumes that ignore the last state included, every list of answers, and a death after any event |
| FlowFirstRun.FirstRunIsWritten | packages/python/keyhole-sdk/keyhole_sdk/governed_flow.py:244-324 | The first run on a new repository, with the gap chosen by the operator and every call answered at once: exactly which records are saved, field by field, which requests leave, with which arguments and over which record, and what is returned |
| FlowPromises.ProgressIsNeverLost | packages/python/keyhole-sdk/keyhole_sdk/governed_flow.py:244-324 | Between any two moments of any run without a restart in between, the length of the recorded prefix gap, claim, registration, context, receipt does not decrease, and run_record_id and created_at stay the same |
| FlowPromises.RestartsAreChosen | packages/python/keyhole-sdk/keyhole_sdk/governed_flow.py:231-257 | Only a dry run, or a resume told to ignore the last state, ever puts a new run in the place of another; the new record has no progress and an id that no earlier one had |
| FlowPromises.RunFilesNeverShrink | packages/python/keyhole-sdk/keyhole_sdk/governed_flow.py:73-84 | Whatever the commands, the file of a run never disappears, never loses progress, and keeps its created_at |
| FlowPromises.RunFileFollowsLatest | packages/python/keyhole-sdk/keyhole_sdk/governed_flow.py:73-84 | At every moment the run's file holds the record of as many saves ago as were torn by a death between the two writes: none after a completed save; and after latest.json is written the process writes the run's file or does nothing more |
| FlowStories.TwoDeathsLeaveTheFileTwoBehind | packages/python/keyhole-sdk/keyhole_sdk/governed_flow.py:81-83 | Two sessions, each dead between the two writes, leave a latest.json with a gap and no file of the run |
| FlowPromises.RequestsAreCausal | packages/python/keyhole-sdk/keyhole_sdk/governed_flow.py:261-313 | A realization leaves only when gap, claim, registration and context are on the disk and nothing is settled; a compile only when exactly the first three are, a registration only when the first two are, a claim only before a claim, a gap query only before a claim or in a dry run; each names exactly what is on the disk |
| FlowPromises.RecordedStepsAreNotRepeated | packages/python/keyhole-sdk/keyhole_sdk/governed_flow.py:274-310 | Once the prefix holds a claim, registration or context, and until a restart, no session sends that request again |
| FlowPromises.ConfirmationIsFailClosed | packages/python/keyhole-sdk/keyhole_sdk/governed_flow.py:710-720 | At every moment of every run, live_confirmed or a receipt id on the disk means that governed and event_spine_evidence are true, the verdict is ACCEPT, and drift state, context id and event id are there, whether the receipt came inline or by recovery |
| FlowAnswers.ReceiptIsReadOrRefused | packages/python/keyhole-sdk/keyhole_sdk/governed_demo.py:1203-1215 | A receipt whose time can be read is accepted if and only if governed and event_spine_evidence are true, the verdict is ACCEPT, and drift state, context id and event id are not empty; otherwise it is refused as unconfirmed |
| FlowPromises.ClaimsAreLive | packages/python/keyhole-sdk/keyhole_sdk/governed_flow.py:133-149 | A claim names the operator's gap or one learned in the same session, never one merely reloaded; it names the recorded gap if and only if the operator chose none or the same |
| FlowGapSources.MissingGapIsRecorded | packages/python/keyhole-sdk/keyhole_sdk/governed_demo.py:254-277 | A missing gap is named by the operator, else the environment, else the capabilities, else the list; ids from outside have to be canonical; the record says which source it was, or why there is no gap |
| FlowGapSources.RecordedGapIsLookedUpAgain | packages/python/keyhole-sdk/keyhole_sdk/governed_flow.py:419-448 | Before a claim a gap read from the disk is looked up again in the same order, unless the operator chose one; it is replaced by the live one, or kept with the note that none can be claimed |
| FlowGapSources.ListIsAskedForTheStoryFirst | packages/python/keyhole-sdk/keyhole_sdk/governed_demo.py:279-312 | The list is asked for the story's gaps, then for all gaps only if there is a story and that brought none or an error; if both err the first error is reported |
| FlowGapSources.DiscoveryNeedsEveryOperation | packages/python/keyhole-sdk/keyhole_sdk/governed_demo.py:126-136 | A server is usable if and only if it offers registration, compilation and realization, and the claim where it requires one |
| FlowPromises.RecordedClaimNamesItsGap | packages/python/keyhole-sdk/keyhole_sdk/governed_flow.py:274-285 | At every moment of every run, a recorded claim belongs to the recorded gap if and only if the session that asked also recorded the answer, or its operator chose no gap or the one then on record |
| FlowProvenance.NothingIsInvented | packages/python/keyhole-sdk/keyhole_sdk/governed_flow.py:573-589 | At every moment of every run, an awaited run on record was promised to the request of the saved step, and that request named what the record names; every claim, registration, context and receipt id was read from an answer to its own request, or to a poll of the run that was promised to that request |
| FlowStories.RecoveredClaimMayNameAnotherGap | packages/python/keyhole-sdk/keyhole_sdk/governed_flow.py:682-688 | A three-session run that ends with a claim for one gap recorded under another |
| FlowSafety.ResumeIsSafe | packages/python/keyhole-sdk/keyhole_sdk/governed_flow.py:244-324 | A resume that returns has gap, claim, registration and context on the disk and a receipt that meets the six conditions, field by field, and returns that record |
| FlowSafety.RecoveredFollows | packages/python/keyhole-sdk/keyhole_sdk/governed_flow.py:664-721 | What a recovery writes never shortens the prefix, keeps the invariant and the identity of the record, and takes an open or recorded claim's gap over unchanged |
| FlowLimits.SettledIsAbsorbing | packages/python/keyhole-sdk/keyhole_sdk/governed_flow.py:311-312 | From a terminal record with a receipt id, any number of runs, resumes, status and receipt calls, wherever they die, leave the disk alone and send no mutating request |
| FlowLimits.SettledCommand | packages/python/keyhole-sdk/keyhole_sdk/governed_flow.py:204-242 | One such command reports that same record and its receipt if it reports at all |
| FlowCommands.RecordIsTakenUpOrBegun | packages/python/keyhole-sdk/keyhole_sdk/governed_flow.py:204-223 | How a resume begins: the saved record with its gap, unverified, or a new record; a repository that cannot be read ends it before anything is saved |
| FlowCommands.ReceiptIsShown | packages/python/keyhole-sdk/keyhole_sdk/governed_flow.py:333-358 | The receipt is shown if and only if there is a record, the repository can be read, and the record has an id for the receipt or for its proof |
| FlowCommands.DryRunTrustsTheOperator | packages/python/keyhole-sdk/keyhole_sdk/governed_flow.py:231-241 | A dry run takes the operator's gap, canonical or not, and saves nothing |
| FlowLimits.RecoveryLeavesNothingPending | packages/python/keyhole-sdk/keyhole_sdk/governed_flow.py:878-886 | Every pending step has a recovery branch: afterwards nothing is pending except a discovery that matched no gap |
| FlowLimits.DryRunKeepsProgress | packages/python/keyhole-sdk/keyhole_sdk/governed_flow.py:231-241 | A dry run keeps the saved progress if and only if there was none or the server does not answer its gap query with "later"; otherwise it starts latest.json over |
| FlowLimits.ForgetfulResumeStartsOver | packages/python/keyhole-sdk/keyhole_sdk/governed_flow.py:250-257 | A whole resume told to ignore the last state: it changes nothing if the repository cannot be read; otherwise latest.json ends with a new run, under an id that no run had, at progress 0 when it opens and 5 if it returns, and the file of every older run is as it was |
| FlowRecovery.GapRecovery | packages/python/keyhole-sdk/keyhole_sdk/governed_flow.py:671-681 | A gap discovered for a record without one: recovery and waiting client leave the same record |
| FlowRecovery.RefreshedGapRecovery | packages/python/keyhole-sdk/keyhole_sdk/governed_flow.py:671-681 | A recorded gap that was looked up again: they agree if and only if the server names another gap and the old one came from the list of gaps or from nowhere |
| FlowRecovery.FruitlessRecovery | packages/python/keyhole-sdk/keyhole_sdk/governed_flow.py:671-681 | A discovery without a match leaves the step open and forgets the run; one that matched but chose none ends with the error of the choice |
| FlowRecovery.ClaimRecovery | packages/python/keyhole-sdk/keyhole_sdk/governed_flow.py:682-688 | A claim: they agree if and only if the claimed gap, its source and the claim's digest were on record when the request left |
| FlowRecovery.RegistrationRecovery | packages/python/keyhole-sdk/keyhole_sdk/governed_flow.py:689-700 | A registration: they agree if and only if the id stands where the recovery looks and the digest was on record; a payload that is no object aborts the waiting client only |
| FlowRecovery.ContextRecovery | packages/python/keyhole-sdk/keyhole_sdk/governed_flow.py:701-709 | A compiled context: they always agree |
| FlowRecovery.ReceiptRecovery | packages/python/keyhole-sdk/keyhole_sdk/governed_flow.py:710-720 | A receipt: either accepts the reply if and only if the other does, and then they save the same |
| FlowRecovery.PreclaimRecovery | packages/python/keyhole-sdk/keyhole_sdk/governed_flow.py:701-709 | A preclaim context: they never agree; the waiting client claims with it and does not record it, the recovery records it as the governance context |
| FlowRequests.AdvanceAsksWhatIsDue | packages/python/keyhole-sdk/keyhole_sdk/governed_flow.py:260-324 | The phases send the claim, registration, compile and realize requests that the record lacks, each once and in this order; all of them if they finish |
| FlowPolls.ResumeAsksWhatIsDue | packages/python/keyhole-sdk/keyhole_sdk/governed_flow.py:244-324 | A whole resume sends exactly the requests that the record lacks after the recovery, and none if it ends before |
| FlowPolls.PendingStepIsAskedAgain | packages/python/keyhole-sdk/keyhole_sdk/governed_flow.py:609-662 | A resume that returns sends the pending step's request again if and only if every poll found the run unfinished or the finished reply lacks the id where the recovery looks; one that fails sends it under no other condition |
| FlowQuestions.PendingStepIsAskedExactly | packages/python/keyhole-sdk/keyhole_sdk/governed_flow.py:244-324 | Any resume, also one that fails or gets no more answers, sends the pending step's request again if and only if it gets past the recovery, the polls left the step open, and what has to precede the request goes well |
| FlowQueries.QuestionIsAskedAgain | packages/python/keyhole-sdk/keyhole_sdk/governed_flow.py:424-448 | A resume that returns asks for the list of gaps if and only if no claim is on record after the recovery and nothing else names the gap; for a preclaim context if and only if there is no claim and the server knows no canonical digest |
| FlowQueries.PendingQuestionIsAskedAgain | packages/python/keyhole-sdk/keyhole_sdk/governed_flow.py:671-681 | For a resume that waits for such a question the first condition always holds: what its run brought does not spare the question |
| FlowPolls.RecoveredPreclaimIsNotCompiled | packages/python/keyhole-sdk/keyhole_sdk/governed_flow.py:701-709 | After a preclaim run, a resume that returns compiles if and only if the polls stayed unfinished and no context was on record, or the finished reply names none |
| FlowPolls.RealizationIsAskedAgain | packages/python/keyhole-sdk/keyhole_sdk/governed_flow.py:311-312 | With the first four fields recorded, no open run and a passing gate, a resume sends the realization, and nothing else, if and only if the receipt has no id or the record is not terminal, whatever the server answers |
| FlowPolls.ConsumedRunIsForgotten | packages/python/keyhole-sdk/keyhole_sdk/governed_flow.py:609-662 | A whole recovery of a run whose step waits for nothing changes at most six fields of bookkeeping; the run is forgotten if and only if a poll finds it finished and well, and then only run_id, poll_url, terminal and the time stamp change |
| FlowPolls.PollsDecide | packages/python/keyhole-sdk/keyhole_sdk/governed_flow.py:625-656 | What any sequence of polls leaves: the recovered record at the first finished reply, otherwise at most status, error code and the terminal flag change |
| FlowAnswers.SavedRunIsDecided | packages/python/keyhole-sdk/keyhole_sdk/governed_flow.py:609-656 | The polls of a saved run, exactly: one at each address in order until an answer leaves nothing open, and that answer decides: gone, refused, failed with its code, or finished; if none does, the status heard last is saved |
| FlowAnswers.AddressesOfSavedRun | packages/python/keyhole-sdk/keyhole_sdk/governed_flow.py:609-618 | Those addresses: the one that came with the promise and two made of the run's id, each once |
| FlowAnswers.WaitIsDecided | packages/python/keyhole-sdk/keyhole_sdk/governed_demo.py:509-546 | The loop that waits, exactly: it polls the addresses in turn, round after round, until an answer leaves nothing open; events, used answers and outcome as functions of the answers; the deadline counts at the beginning of a round |
| FlowAnswers.AddressesToPoll | packages/python/keyhole-sdk/keyhole_sdk/governed_demo.py:514-525 | Those addresses: the one that came with the promise and the one made of the run's id, each once |
| FlowAnswers.WordsAreRead | packages/python/keyhole-sdk/keyhole_sdk/governed_demo.py:36-37 | Which words, in whatever case, promise, end or fail a run, in the payload or else the envelope; the flag is_terminal ends one too |
| FlowAnswers.AnswersAreJudged | packages/python/keyhole-sdk/keyhole_sdk/governed_demo.py:1463-1490 | Which answers are read and how each other one is refused, by code, shape and the flag ok |
| FlowAnswers.PromiseIsSaved | packages/python/keyhole-sdk/keyhole_sdk/governed_flow.py:573-589 | A promise is saved before it is asked for, with the step of its call and the handles of the run, and ends the call if it has none |
| FlowCompletion.EveryRunCanBeCompleted | packages/python/keyhole-sdk/keyhole_sdk/governed_flow.py:244-324 | No death leaves the flow stuck: after any run, a resume whose server answers helpfully ends with the whole prefix and a confirmed receipt on the disk, even while the saved run stays pending, and whether the gap is named from outside or has to be found in the list |
| FlowHelp.HelpExists | packages/python/keyhole-sdk/keyhole_sdk/governed_demo.py:1218-1298 | Every server that can do everything, names a gap or lists the gaps, and whose times are understood can answer helpfully: the replies are given, with any receipt id or none |
| FlowWaiting.EveryStepCanBeLeftPending | packages/python/keyhole-sdk/keyhole_sdk/governed_flow.py:573-589 | For each of the six pending steps there is a run, one session on a new repository, that ends with a record waiting there for an open run |
| FlowWaiting.PromisesExist | packages/python/keyhole-sdk/keyhole_sdk/governed_flow.py:573-582 | A reply that promises the answer for later exists for every run id |
| FlowBlocked.RecoveryEnds | packages/python/keyhole-sdk/keyhole_sdk/governed_flow.py:625-652 | A recovery ends with RUN_NOT_FOUND if and only if one of its polls is answered 404 after only unfinished ones, and with the run's failure if and only if one finds it failed after only unfinished ones; what either leaves on record |
| FlowBlocked.ResumeEndsWithLostRun | packages/python/keyhole-sdk/keyhole_sdk/governed_flow.py:627-634 | A whole resume ends with RUN_NOT_FOUND if and only if the repository can be read, the server's capabilities are read, and the polls of the saved run end so; no other request can bring it about |
| FlowBlocked.LostRunIsNeverGivenUp | packages/python/keyhole-sdk/keyhole_sdk/governed_flow.py:627-634 | However many runs, resumes, status and receipt calls follow, wherever they die, as long as the polls of each find no run: nothing leaves but questions about the server and the run, and the record keeps everything but status, error code and time stamp, so that the run is asked for again |
| FlowBlocked.FailedRunEndsTheResume | packages/python/keyhole-sdk/keyhole_sdk/governed_flow.py:643-652 | A resume whose polls find the run failed ends with that failure, sends no step, and leaves the same progress, step and run, marked terminal |
| FlowBlocked.FailedRunBlocksOnce | packages/python/keyhole-sdk/keyhole_sdk/governed_flow.py:658-662 | One more resume suffices: with a helpful server it does not ask for the run and completes the flow |
| FlowBlocked.SupersededRunBlocksAgain | packages/python/keyhole-sdk/keyhole_sdk/governed_flow.py:658-662 | If that resume registers anew and dies, the record is open with the failed run still on it, and the next resume ends with its failure once more |
| FlowCompletion.PendingRunIsAskedTwice | packages/python/keyhole-sdk/keyhole_sdk/governed_flow.py:653-656 | For every record that waits for a step and every helpful server with a pending run, the resume sends that step's request again and completes |
| FlowCompletion.RecoveredPreclaimSkipsCompile | packages/python/keyhole-sdk/keyhole_sdk/governed_flow.py:701-709 | For every record that waits for a preclaim context, a resume that recovers one completes without a compile request |
| FlowHelp.FinishedContextReads | packages/python/keyhole-sdk/keyhole_sdk/governed_flow.py:701-709 | Such an answer exists for every context id |
| FlowCompletion.NamelessReceiptIsRealizedAgain | packages/python/keyhole-sdk/keyhole_sdk/governed_flow.py:311-312 | A confirmed receipt without an id completes the flow, and the next resume sends the realization again, whatever else is answered |
| ReplyFields.RecoveryLosesRegistration | packages/python/keyhole-sdk/keyhole_sdk/governed_flow.py:689-700 | The recovery never invents a registration id, and loses one exactly when it sits only in a place that the waiting request alone consults |
| ReplyFields.EnvelopedRegistrationIsLost | packages/python/keyhole-sdk/keyhole_sdk/governed_flow.py:387-401 | The server's usual envelope is such a reply, for every id |
| ReplyPlaces.IdsAreFirstFound | packages/python/keyhole-sdk/keyhole_sdk/governed_demo.py:1301-1402 | Claim id, claim reference, both readings of the registration id, and context id are the first non-empty text on their lists of paths, at any depth, and empty if there is none |
| ReplyPlaces.HandlesAreFirstFound | packages/python/keyhole-sdk/keyhole_sdk/governed_demo.py:512-542 | The same for a run's id, its address, and the code of its failure |
| ReplyPlaces.DigestIsFirstFound | packages/python/keyhole-sdk/keyhole_sdk/governed_demo.py:1419-1441 | The same for the canonical digest, stripped and without its prefix |
| ReplyPlaces.PayloadsThatTrip | packages/python/keyhole-sdk/keyhole_sdk/governed_flow.py:398-401 | The waiting registration fails over exactly the payloads that are neither objects nor empty |
| ReplyPlaces.ReceiptFieldsAreFirstFound | packages/python/keyhole-sdk/keyhole_sdk/governed_demo.py:1218-1298 | Each of the fourteen fields of a receipt is the first usable value on its list of paths below the unwrapped reply; digest, status and time have a default |
| ReceiptRoundTrip.NormalizeReadsBack | packages/python/keyhole-sdk/keyhole_sdk/governed_demo.py:1218-1298 | A receipt sent field by field is read as that receipt; only a missing digest, status or time has a default |
| RecordFiles.FileReadsBack | packages/python/keyhole-sdk/keyhole_sdk/governed_flow.py:73-95 | What is read from a file is the record that was written, through sanitising |
| RecordFiles.FieldsAreKept | packages/python/keyhole-sdk/keyhole_sdk/governed_flow.py:957-963 | Whatever else a state holds, sanitising leaves each of the thirty fields alone on which the flow relies |
| RecordFiles.FieldsStandUnderTheirNames | packages/python/keyhole-sdk/keyhole_sdk/governed_flow.py:751-771 | Each of the thirty fields stands in the file under the key by which the client looks it up |
| RecordFiles.StepsHaveTheirNames | packages/python/keyhole-sdk/keyhole_sdk/governed_flow.py:878-886 | The six pending steps and their successors under the words that the file holds |
| FlowClient.StateStore.Write | packages/python/keyhole-sdk/keyhole_sdk/governed_flow.py:73-84 | The sanitised record goes to latest.json, if asked for, and then to the run's own file, in two observable steps; read back, both are the record, and no other file changes |
| FlowClient.Client.PollRound | packages/python/keyhole-sdk/keyhole_sdk/governed_demo.py:526-545 | One pass over the addresses gives the finished run, a failure, or nothing yet, as the flow's function of the old state |
| FlowClient.Client.WaitForRun | packages/python/keyhole-sdk/keyhole_sdk/governed_demo.py:509-546 | The polling loop ends with the finished run, a failure, or at the deadline |
| FlowClient.Client.TakeUpResult | packages/python/keyhole-sdk/keyhole_sdk/governed_flow.py:664-721 | The dispatch on the saved step, branch by branch, computes what the specification says of each |
| FlowClient.Client.PollSavedRun | packages/python/keyhole-sdk/keyhole_sdk/governed_flow.py:609-656 | The loop over the saved addresses: not found, failed, pending and finished runs each leave their record |
| FlowClient.Client.ResumeGovernedRepoFlow | packages/python/keyhole-sdk/keyhole_sdk/governed_flow.py:244-324 | A resume of the saved record loses no progress however it ends, and one that returns has a confirmed receipt on the disk |
| FlowClient.RunSession | packages/python/keyhole-sdk/keyhole_sdk/governed_flow.py:774-797 | One invocation on the files, up to the death of its process |
| FlowClient.RunSessions | packages/python/keyhole-sdk/keyhole_sdk/governed_flow.py:774-797 | Any number of invocations on the same files: the disk and the trace about which the lemmas speak; a receipt on record is confirmed, and every file was once the latest state of its run |
| GapSelection.WeightsAreLexicographic | packages/python/keyhole-sdk/keyhole_sdk/governed_demo.py:778-799 | Sums of the weights 100, 40, 20, 10 and 5 order profiles lexicographically |
| GapSelection.RankSorts | packages/python/keyhole-sdk/keyhole_sdk/governed_demo.py:800-807 | Ranking is a descending permutation of the matching gaps |
| GapSelection.SelectionIsUniqueTop | packages/python/keyhole-sdk/keyhole_sdk/governed_demo.py:773-807 | The chosen id belongs to the one eligible gap whose profile is lexicographically above every other; no match, nothing to claim, and a tie each have their exact condition |
| GapFields.SelectionReadsTheFields | packages/python/keyhole-sdk/keyhole_sdk/governed_demo.py:773-823 | The same on the gaps' own fields: a gap is kept out if and only if blocked reads true, it names blocked reasons, claimable reads false, or it neither reads claimable nor is open, claimable or actionable; the one that is chosen beats every other at the first of the five tests that they decide differently |
| GapFields.GapsAreFoundAnywhere | packages/python/keyhole-sdk/keyhole_sdk/governed_demo.py:908-917 | The gaps of a reply are exactly the objects with a canonical id, at any depth |
| GapSelection.SelectionIgnoresOrder | packages/python/keyhole-sdk/keyhole_sdk/governed_demo.py:773-807 | Every permutation of the gaps gives the same id or the same error |
| GapSelection.ChosenIdIsCanonical | packages/python/keyhole-sdk/keyhole_sdk/governed_demo.py:908-917 | A chosen id begins with gap_, at whatever depth of the reply it was found |
| Redaction.RedactCleans | packages/python/keyhole-sdk/keyhole_sdk/governed_demo.py:1529-1537 | After redaction no key that mentions token or authorization has a value, at any depth |
| Redaction.RedactFixesClean | packages/python/keyhole-sdk/keyhole_sdk/governed_demo.py:1529-1537 | Redaction changes a value if and only if there is something to hide in it |
| Redaction.MembersAreRedacted | packages/python/keyhole-sdk/keyhole_sdk/governed_demo.py:1529-1537 | A key with token or authorization in it, in whatever case, keeps only the mark; what is under any other key is redacted in turn |
| Redaction.SanitizeIsIdempotent | packages/python/keyhole-sdk/keyhole_sdk/governed_flow.py:957-963 | Sanitising twice is sanitising once; the result is clean and lacks exactly the four forbidden keys |
| Redaction.SanitizeKeepsValues | packages/python/keyhole-sdk/keyhole_sdk/governed_flow.py:957-963 | A key that is not sensitive keeps its value if and only if nothing inside the value is hidden |
| OperationTable.BestOfferWins | packages/python/keyhole-sdk/keyhole_sdk/governed_demo.py:552-576 | A name's entry is the one made from the last of the best offers for it, own name above none and another's run type above both; it is there if and only if the name was offered |
| OperationTable.EntriesRepeatTheirOffer | packages/python/keyhole-sdk/keyhole_sdk/governed_demo.py:560-576 | An entry repeats the winning offer: its verb in capitals, its own path before the default, the default path for runs alone, and the runtime as the surface of /realize |
| OperationTable.RunTypesSurvive | packages/python/keyhole-sdk/keyhole_sdk/governed_demo.py:565-576 | A name ends with a run type if and only if someone offered one, with another operation's if and only if someone offered that; an entry with a run type has a path, and /realize belongs to the runtime |
| OperationTable.PrecedenceIgnoresOrder | packages/python/keyhole-sdk/keyhole_sdk/governed_demo.py:570-575 | The kind of run type of each name does not depend on the order of the calls |
| OperationTable.OperationTable.Add | packages/python/keyhole-sdk/keyhole_sdk/governed_demo.py:552-576 | One call changes the table as the specification says |
| OperationTable.OperationTable.AddOffers | packages/python/keyhole-sdk/keyhole_sdk/governed_demo.py:549-671 | Any sequence of calls builds the table about which the lemmas speak |
| YamlSubset.ParseYamlBlock | packages/python/keyhole-sdk/keyhole_sdk/governed_demo.py:1046-1122 | The loop terminates on every list of lines and every indentation, returns an index between the start and the end, and computes the recursive specification |
| YamlSubset.ReadBlockScalar | packages/python/keyhole-sdk/keyhole_sdk/governed_demo.py:1097-1111 | The inner loop reads the block text up to the line where the specification ends it; the round trip says what text that is |
| YamlRoundTrip.LoadInvertsPrint | packages/python/keyhole-sdk/keyhole_sdk/governed_demo.py:1038-1122 | Every document made of scalars, texts on several lines, nested maps, lists of scalars, and lists of maps that begin with a scalar or hold one block is read back as what it means; a text on several lines is its words joined by single spaces, with blank lines and any deeper indentation allowed, and ends where the next key begins |
| YamlScalars.ScalarInvertsSpell | packages/python/keyhole-sdk/keyhole_sdk/governed_demo.py:1125-1144 | Every scalar, be it null, a flag, a number or any text, has a spelling that is read back as it |
| YamlScalars.BareTexts | packages/python/keyhole-sdk/keyhole_sdk/governed_demo.py:1125-1144 | A text without quotes that is none of the nine special words is a number if int or float accepts it, and otherwise itself |
| YamlDocuments.LoadTextInvertsPrint | packages/python/keyhole-sdk/keyhole_sdk/governed_demo.py:1038-1043 | The same on the text of the document, through splitlines |
| YamlDocuments.LinesEndAnyhow | packages/python/keyhole-sdk/keyhole_sdk/governed_demo.py:1039-1039 | A text is cut at each of the eleven ends of lines that Python knows, CR LF as one, with or without one after the last line |
| YamlDocuments.ListsAreNoDocuments | packages/python/keyhole-sdk/keyhole_sdk/governed_demo.py:1038-1043 | A document that is a list counts as an empty one |
| YamlDocuments.SplitUnlines | packages/python/keyhole-sdk/keyhole_sdk/governed_demo.py:1039-1039 | Cutting a text of terminated lines gives the lines back |
| YamlDocuments.EmptyListsAreReadAsMaps | packages/python/keyhole-sdk/keyhole_sdk/governed_demo.py:1118-1122 | Why the round trip excludes empty lists: one is read back as an empty map |
| YamlDocuments.ItemsWithColonsAreReadAsMaps | packages/python/keyhole-sdk/keyhole_sdk/governed_demo.py:1065-1075 | Why it excludes colons in list items: such an item is read back as a map |
| YamlDocuments.DeeperEntriesCount | packages/python/keyhole-sdk/keyhole_sdk/governed_demo.py:1057-1060 | After an entry with a text, an entry indented deeper is read as one of the same map |
| YamlDocuments.ListsReplaceTheirText | packages/python/keyhole-sdk/keyhole_sdk/governed_demo.py:1065-1075 | A list below an entry that has a text takes the place of the text |
| YamlDocuments.ColonlessLinesArePassedOver | packages/python/keyhole-sdk/keyhole_sdk/governed_demo.py:1091-1095 | A line without a colon between two entries changes nothing |
| YamlDocuments.LaterEntryCounts | packages/python/keyhole-sdk/keyhole_sdk/governed_demo.py:1112-1114 | Of two entries of one key the later counts |
| YamlTransparency.BlanksAndCommentsAreTransparent | packages/python/keyhole-sdk/keyhole_sdk/governed_demo.py:1051-1061 | Documents without block scalars that differ only in blank lines and comments have the same value, at all levels of nesting |
| YamlTransparency.NothingIsNoContent | packages/python/keyhole-sdk/keyhole_sdk/governed_demo.py:1051-1055 | The parser passes over exactly the lines of white space and those whose first other character is a number sign |
| YamlTransparency.InsertedLineIsTransparent | packages/python/keyhole-sdk/keyhole_sdk/governed_demo.py:1051-1055 | A blank line or comment may be inserted or deleted anywhere |
| YamlScaffold.KeyholeReadsBack | packages/python/keyhole-cli/keyhole_cli/commands/init_vertical.py:55-72 | keyhole.yaml is read back entry by entry, for every repository name that stands as a scalar and every one-line time stamp |
| YamlScaffold.ContractReadsBack | packages/python/keyhole-cli/keyhole_cli/commands/init_vertical.py:75-85 | governance_contract.yaml likewise; its empty lists are read as the text [] |
| YamlScaffold.PassportReadsBack | packages/python/keyhole-cli/keyhole_cli/commands/init_vertical.py:88-100 | capability_passport.yaml likewise |
| YamlScaffold.DependenciesReadBack | packages/python/keyhole-cli/keyhole_cli/commands/init_vertical.py:103-108 | dependencies.yaml likewise |
| SseLines.IterSseLines | packages/python/keyhole-cli/keyhole_cli/commands/mcp_proxy_cmd.py:67-81 | The yielded lines are a function of the concatenated stream alone, so they do not depend on how it was cut into chunks; and when the next chunk is asked for, exactly the lines complete so far have been yielded |
| SseLines.StreamIsCutAtLineFeeds | packages/python/keyhole-cli/keyhole_cli/commands/mcp_proxy_cmd.py:67-81 | If the stream is any lines without line feed, each followed by one, and a tail without line feed, then exactly these lines come out, and the tail if it is not empty, without their trailing CRs |
| SseLines.CutLosesNothing | packages/python/keyhole-cli/keyhole_cli/commands/mcp_proxy_cmd.py:77-81 | No complete line and no tail holds an LF, and putting the LFs back gives the stream |
| SseLines.CutIsUnique | packages/python/keyhole-cli/keyhole_cli/commands/mcp_proxy_cmd.py:77-81 | There is no other way to cut the stream like that |
| SseLines.TrimCrIsExact | packages/python/keyhole-cli/keyhole_cli/commands/mcp_proxy_cmd.py:79-81 | All trailing carriage returns are removed, and nothing else |
| SseLines.CutGoesOn | packages/python/keyhole-cli/keyhole_cli/commands/mcp_proxy_cmd.py:74-79 | Cutting can stop at any byte and go on with what was left in the buffer |
| SseRelay.RelayChangesOnlyEndpoints | packages/python/keyhole-cli/keyhole_cli/commands/mcp_proxy_cmd.py:200-230 | One line is written for each line read, in order; a line is rewritten if and only if it is the first data line of an endpoint event; the registry holds what those lines announced |
| SseRelay.EndpointEventIsRewritten | packages/python/keyhole-cli/keyhole_cli/commands/mcp_proxy_cmd.py:205-225 | An endpoint event as servers send it: its data becomes the path and query of the URL, and the URL is registered under the session that it names |
| SseRelay.RelayIsIdempotent | packages/python/keyhole-cli/keyhole_cli/commands/mcp_proxy_cmd.py:200-230 | Relaying a relayed stream changes nothing if and only if every announced URL meets that condition |
| ProxyUrls.RewritingSettles | packages/python/keyhole-cli/keyhole_cli/commands/mcp_proxy_cmd.py:97-105 | Rewriting an announced URL twice is rewriting it once if and only if the URL is relative; or there is no white space before its fragment or parameters and, where it names no host, its path neither begins with white space nor is a URL again |
| ProxyUrls.PlainUrlIsSettled | packages/python/keyhole-cli/keyhole_cli/commands/mcp_proxy_cmd.py:97-105 | An origin followed by a plain path is such a URL |
| ProxyUrls.SomeUrlsAreNotSettled | packages/python/keyhole-cli/keyhole_cli/commands/mcp_proxy_cmd.py:97-105 | There are URLs outside it |
| ProxyUrls.RewritingKeepsTheSession | packages/python/keyhole-cli/keyhole_cli/commands/mcp_proxy_cmd.py:97-111 | The rewritten path names the same session as the announced URL, for every URL |
| ProxyUrls.ServingKeepsTheSession | packages/python/keyhole-cli/keyhole_cli/commands/mcp_proxy_cmd.py:239-245 | Collapsing leading slashes, as the HTTP server does with the path of a request, does not change the session |
| ProxyUrls.QueryIsAfterTheMark | packages/python/keyhole-cli/keyhole_cli/commands/mcp_proxy_cmd.py:108-111 | The query is what follows the first question mark before the fragment, however scheme, host and path are read |
| ProxyUrls.PartsReadBack | packages/python/keyhole-cli/keyhole_cli/commands/mcp_proxy_cmd.py:88-111 | A URL put together from scheme, host, path, query and fragment is taken apart into them, with the scheme in small letters |
| ProxyUrls.PartsAreUsed | packages/python/keyhole-cli/keyhole_cli/commands/mcp_proxy_cmd.py:88-105 | Such a URL is rewritten to its path and query, and relative data is resolved against its scheme and host |
| ProxyUrls.SessionIsRead | packages/python/keyhole-cli/keyhole_cli/commands/mcp_proxy_cmd.py:108-111 | A query that begins with sessionId names that session |
| ProxyUrls.SessionIsTheFirst | packages/python/keyhole-cli/keyhole_cli/commands/mcp_proxy_cmd.py:108-111 | The session is the first non-empty value that the query's fields give it, and there is none otherwise |
| SseRelay.PostFollowsTheLatest | packages/python/keyhole-cli/keyhole_cli/commands/mcp_proxy_cmd.py:213-247 | A POST to the rewritten path of any URL of a session, as the HTTP server hands it on, goes to the URL announced last for that session |
| SseRelay.KnownAndUnknownSessionsAgree | packages/python/keyhole-cli/keyhole_cli/commands/mcp_proxy_cmd.py:243-251 | For a rooted relative path, or a plain path with one leading slash on the server's own origin, the registered URL and the fallback for the path as the HTTP server hands it on are equal |
| ProxyUrls.RelativeRoutesAgree | packages/python/keyhole-cli/keyhole_cli/commands/mcp_proxy_cmd.py:88-94 | For relative data they are equal if and only if the path begins with exactly one slash; for the path as the HTTP server hands it on, if and only if it begins with one at all |
| ProxyUrls.SameOriginRoutesAgree | packages/python/keyhole-cli/keyhole_cli/commands/mcp_proxy_cmd.py:88-105 | For data on the server's origin with a rooted path, without fragment and parameters, they are equal; for the path as the HTTP server hands it on, if and only if it does not begin with two slashes |
| ProxyUrls.OriginIgnoresQuery | packages/python/keyhole-cli/keyhole_cli/commands/mcp_proxy_cmd.py:172-174 | The query of the client's request does not change the origin of the stream's URL |
| SseRelay.SessionRegistry.HandleSse | packages/python/keyhole-cli/keyhole_cli/commands/mcp_proxy_cmd.py:200-230 | The loop over a chunked stream writes the relayed lines and updates the shared registry as specified |
| SseRelay.SessionRegistry.RoutePost | packages/python/keyhole-cli/keyhole_cli/commands/mcp_proxy_cmd.py:243-251 | The routing choice: the registered URL of a known session, otherwise the fallback |
| SseStreams.StreamsAreIsolated | packages/python/keyhole-cli/keyhole_cli/commands/mcp_proxy_cmd.py:200-230 | However the handlers of several streams take turns, each client gets its own stream relayed as if it were alone |
| SseStreams.SessionFollowsTheLatest | packages/python/keyhole-cli/keyhole_cli/commands/mcp_proxy_cmd.py:213-218 | In every interleaving a session posts to the URL announced last for it on any stream |
| RuntimeRealize.EachDigestIsAcceptedOnce | services/test-runtime/app/routes.py:63-156 | In every interleaving of any number of requests the first receipt of a digest says ACCEPT and every later one ALREADY_REALIZED; the realized digests are duplicate-free, in the order of first application |
| RuntimeRealize.AcceptIsUnique | services/test-runtime/app/state.py:55-74 | A digest that was answered before is never accepted again |
| RuntimeRealize.InterleavingIsSerializable | services/test-runtime/app/routes.py:95-136 | Handling the same requests one at a time, in the order of the responses, gives the same state and the same responses |
| RuntimeRealize.RuntimeIsHonest | services/test-runtime/app/routes.py:69-156 | In every state digests, receipts and pointer are aligned and current_digest is the last; evidence of the Event Spine goes with an event id; receipts are governed exactly with both URL and token; a URL without a token realizes nothing; each receipt repeats governance's words and the request's digests; one sent to a governed request is complete; which of the four responses a request gets is decided in both directions, and what a refusal says |
| RuntimeRealize.SettingsDecide | services/test-runtime/app/mode.py:38-75 | On the settings themselves, in every schedule: a URL without a token leaves everything empty; without a URL exactly those who do not require governance are realized once answered; with both, receipts are governed and only a 200 response that says ok realizes |
| RuntimeRealize.NobodyIsForgotten | services/test-runtime/app/routes.py:63-156 | In every schedule each request that arrived either waits or has its one response |
| RuntimeRealize.NothingIsRealizedUnapproved | services/test-runtime/app/routes.py:95-108 | Behind each digest of a governed runtime stands a 200 response that said ok |
| RuntimeRealize.FirstsAreTheSet | services/test-runtime/app/state.py:63-66 | The list of first occurrences holds the same digests, each once |
| RuntimeRealize.LaterReceiptIsTheStoredOne | services/test-runtime/app/state.py:27-62 | In every schedule the receipt in an ALREADY_REALIZED response equals the one on record if and only if passport digest, trust digest and effective context coincide and, when governance is asked, its words do |
| RuntimeRealize.LaterReceiptMayDiffer | services/test-runtime/app/state.py:55-62 | For any two local requests for one digest that declare different passports they differ |
| RuntimeBridge.CheckIsFailClosed | services/test-runtime/app/bridge.py:144-230 | Who passes, by URL, token and every answer or exception: all without a URL, none with a URL and no token, otherwise exactly what a 200 response says ok to; the word and the evidence that come with it |
| RuntimeBridge.ReasonsAreTold | services/test-runtime/app/bridge.py:144-230 | The reason that comes with it, for the settings, every code, every shape of response, and every error member |
| RuntimeBridge.EvidenceIsFirstFound | services/test-runtime/app/bridge.py:49-110 | Each text of the evidence is the first non-empty one on its list of paths; the verdict and the drift state have a default |
| RuntimeBridge.EvidenceNamesItsEvent | services/test-runtime/app/bridge.py:63-98 | The evidence claims the Event Spine if and only if one of the six places names an event, and always has a verdict and a drift state |
| RuntimeServer.RuntimeState.ApplyDigest | services/test-runtime/app/state.py:27-80 | The whole new state and the answer, as specified |
| RuntimeServer.FinishRealize | services/test-runtime/app/routes.py:100-156 | The continuation after the suspension: refusals leave the state alone, the order of the checks decides the answer |
| RuntimeServer.Serve | services/test-runtime/app/routes.py:63-156 | The event loop on any schedule reaches the state and responses about which the lemmas speak |
| Json.FirstStringMisses | packages/python/keyhole-sdk/keyhole_sdk/governed_demo.py:1405-1409 | No string is found if and only if none of the places holds a non-empty one |

## Left out

- HTTP, sockets, headers, tokens and token refresh: the server is the list of answers that it will give.
- Time: the deadline of a polling loop is an answer among the others, and time stamps are a counter, so that two new
  records have different ids, which the code takes from the microseconds of the clock. SHA-256, JSON
  text and the substring tests in the gap score are functions given from outside; so are the repository's declaration,
  the result of the local invariant and the reading of the capabilities.
- Error messages: an error is its kind. The test of the message text for NO_CLAIMABLE_GAP is the kind of that name.
- The record's copies of the declaration, ctxpack_digest, correlation ids, and the side files registration.json,
  context.json and receipt.json, which no phase of the flow reads back.
- The base client's own claim inside its registration, which a resume never reaches because the claim is recorded
  first.
- One client object used for several commands, and several processes at once on the same files.
- Torn files: the write of one file succeeds as a whole or does not happen; the two writes of a save may be torn apart.
- `str.lower` and `str.upper` beyond the letters A to Z.
- The value of a number in a declaration: a number keeps its text, and which texts are numbers is a parameter.
- PyYAML, which the code prefers to the fallback parser when it is installed.
- Irregularly indented declarations: the parser is modelled on all of them, the round trip speaks of regular ones.
- The values that `_extract_operations` reads from the capabilities: the table is proved for every sequence of calls.
- Of `http.server` only the collapsing of leading slashes, as Python 3.12 does it. `urlparse` is Python 3.12's too,
  without its errors for hosts with wrong brackets or of unusual Unicode, on which the code ends the stream; percent
  decoding and UTF-8 are functions given from outside.
- Broken connections of the proxy, its health check and its HTTP responses.
- The payload that the runtime sends to governance, and the texts of its answers.
- The commands that only wrap SDK modules, their output, and the checks that files and fields are present.
