# Verified model of the harness control protocol

A runner keeps native coding agents on a developer's machine; a control plane talks to it over a
socket that may drop at any moment. This project models the parts of the protocol, the runner and
the SDK whose correctness shows only over whole runs, in Dafny, and proves what their code and
documentation promise of them. `dafny verify dfyconfig.toml` checks everything.

One module per component:

- `CanonicalJson`: the canonical JSON printer that decides "same payload". Strings are sequences of
  UTF-16 units, printed as section 7 of RFC 8259 asks; `localeCompare` is an arbitrary ranking of strings.
- `SessionReducer`, `EventJournal`, `EventLink`: the control plane's fold of events and snapshots, the
  runner's numbered journal, and the socket that carries events live and in replays.
- `Replication`, `Continuity`: the whole replication protocol as a step system over emissions, resends,
  deliveries, losses, reconnects, replays and snapshots: safety of every run, and when a replay closes the gap.
- `Commands`: the runner's command table under concurrent redelivery, failing stores and failing sends.
- `UnifiedDiff`: line splitting, patch parsing and the hunk loop, from text to text.
- `NativeSessions`: ownership of native sessions in the SDK, as suspended operations that observers may fence.
- `McpReview`: the durable record of one reviewed tool operation and the invocations that use it.
- `Base64`, `Content`: canonical base64, the bounded content store, and the chunk reader.
- `InputFiles`: the resumable upload store and the client's upload loop.
- `Paging`, `WorkPaging`: backward paging of a conversation and forward paging of native work, and their reassembly.
- `EventFolds`, `EventProjections`, `NativeParts`: projections of events that arrive in any order and repeatedly.
- `NativeInteractions`: the one-at-a-time owner of native callbacks.
- `AccountReads`: the four-slot semaphore of account readers.
- `WorkspaceListing`: the bounded directory walk.

Code that works by changing state is modelled by classes and loops. Each method's contract equates the
new state with a step function of the old one (or states the result outright), and the theorems about
runs are proved of that step function. An asynchronous function is cut at its `await`s: each segment
between two of them is one step, and the steps of all suspended calls interleave freely.

## What the proofs turned up

- Two objects with equal members can print differently when `localeCompare` ranks two of their keys
  equal: the order of insertion then shows. Comparing prints decides equality exactly when no object of
  the stored payload has such keys (`PrintDecidesEquality`).
- An event sent live between the acceptance and the replay raises the socket's high-water mark, and the
  replay then drops the events below it. The control plane's log reaches the end of the journal exactly
  when no event above its cursor was stepped over in that way (`ReplayClosesTheGap`, `SkippedEventIsLost`).
  Without a cursor nothing is replayed.
- The sends after a handler's success stand inside the same `try`: a failed send rewrites the recorded
  acknowledgement as a refusal, which `docs/reliability-and-snapshots.md` does not say (`AcknowledgementIsRecorded`).
- Where neither outcome of a handler can be written, its command is on record as refused but nothing is
  sent, and a repeat that came while the handler ran waits for as long as the process lives; where some
  outcome is written nobody is left waiting (`WaitersMayBeStranded`, `WaitersAreNotStranded`).
- A payload's hash is what an id is held to, so a repeat with another payload is refused for as long as
  anything is known of the id; only an unparsable message with the id replaces hash and outcome
  (`DifferentPayloadNeverRuns`, `AcknowledgementStays`).
- The line pattern's dot stops at U+2028 and U+2029, so a run of text up to one of them is in no line
  and disappears from a patched file (`JoinOfSplit`). The branch of the patch loop for `--- ` and `+++ `
  is never taken, because their first character is tested before it (`HeadersAreChanges`).
- An accept given again is recognised only until the tool asks for input, and is refused while the
  operation is at its inputs (`AcceptRepeated`). A completed review keeps the actor who answered last: the
  person who accepted is then refused when repeating the accept, and the one who only answered is
  recognised (`RepeatAfterCompletion`, and a run that gets there: `ApproverMayBeRefused`).
- A native request may become pending after its owner closed, where no response can reach it: exactly
  when it is an approval that names a root to grant and is suspended, its checks passed, when the owner
  closes (`AsksAfterClose`, `PreparedBeforeClose`, `LateRequestIsReached`). There is at most one.
- Two admissions recorded under one sequence project to a phase whose time is that of the first to arrive
  (`PhasesMayShowTheOrder`). That distinct sequences suffice is proved; that they are necessary is not claimed.
- `docs/input-files.md` speaks of a 256 MiB store and of eight files of 32 MiB; the code has 50 MiB a
  file and one hundred times that in all, and the model follows the code.

## Model

| member | source | states |
|---|---|---|
| CanonicalJson.PrintDecidesEquality | packages/hcp-protocol/src/session-reducer.ts:127-138 | a stored payload prints like exactly the payloads of equal value, if and only if the key comparison separates the keys of each of its objects |
| CanonicalJson.EqualPrintsAreEqualValues | packages/hcp-runner/src/connection/runner-connection.ts:968-979 | equal prints are equal values, whatever the key comparison ties |
| CanonicalJson.SeparatedPrintsAgree | packages/hcp-protocol/src/session-reducer.ts:127-138 | values equal up to the order of members print alike when keys are separated |
| CanonicalJson.PrintIsPrefixFree | packages/hcp-protocol/src/session-reducer.ts:127-138 | two printed values followed by anything that may follow them agree only if they print alike, and then have equal values |
| CanonicalJson.SortIsStable | packages/hcp-protocol/src/session-reducer.ts:134-136 | members whose keys compare equal keep their order of insertion |
| CanonicalJson.TiesPrintByOrder | packages/hcp-protocol/src/session-reducer.ts:134-136 | any payload with tied keys has an equal one that prints differently |
| SessionReducer.PartialSnapshotIsAtomic | packages/hcp-protocol/src/session-reducer.ts:81-104 | a partial snapshot either leaves every log untouched (a gap or a conflict) or appends exactly the missing suffix, all duplicates preceding all applied events |
| SessionReducer.HcpSessionEventReducer.ApplyEvent | packages/hcp-protocol/src/session-reducer.ts:37-66 | keeps the sequence keys exactly 1..m and computes applied, duplicate, gap or conflict |
| SessionReducer.HcpSessionEventReducer.ApplySnapshot | packages/hcp-protocol/src/session-reducer.ts:68-104 | a complete snapshot's events become the log of its session, partial ones, whatever they hold, fold event by event; computes the specification function whose effect DeliveriesAdvance and SnapshotsCatchUp state |
| SessionReducer.HcpSessionEventReducer.ResumeCursor | packages/hcp-protocol/src/session-reducer.ts:106-114 | names, per session, the length of its log |
| EventJournal.RunnerStateStore.AppendEvent | packages/hcp-runner/src/state/index.ts:553-577 | appends exactly the next sequence and keeps the newest events within the retention |
| EventJournal.RunnerStateStore.ReplayEventsAfter | packages/hcp-runner/src/state/index.ts:652-666 | the journal's events after a cursor, or unavailable when some are no longer retained |
| EventJournal.CursorsAreServed | packages/hcp-runner/src/state/index.ts:652-666 | a cursor is owed all later events exactly while the journal reaches it and the retained events continue it |
| EventJournal.RunnerStateStore.SessionSnapshot | packages/hcp-runner/src/state/index.ts:668-703 | the longest retained suffix that can be encoded, always valid under the snapshot schema |
| EventJournal.LongestFitting | packages/hcp-runner/src/state/index.ts:678-703 | no longer suffix of the retained events fits |
| EventJournal.SuffixSnapshotIsValid | packages/hcp-protocol/src/index.ts:3130-3191 | every suffix of the journal passes the snapshot schema |
| EventLink.RunnerConnection.SendEventIfConnected | packages/hcp-runner/src/connection/runner-connection.ts:809-817 | sends an event only on an open socket and above the session's mark |
| EventLink.RunnerConnection.ReplayRequestedEvents | packages/hcp-runner/src/connection/runner-connection.ts:424-435 | replays in cursor order what is retained; does nothing without a cursor |
| EventLink.ReplaysCoverTheCursor | packages/hcp-runner/src/harnesses/index.ts:774-805 | every entry of a cursor is either replayed, by all its later events, or reported as unavailable |
| Replication.EveryRunIsSafe | packages/hcp-runner/src/connection/runner-connection.ts:409-435 | in every run each control-plane log is a prefix of the journal and no delivery conflicts |
| Replication.DeliveriesAdvance | packages/hcp-protocol/src/session-reducer.ts:37-104 | in every run a delivery takes its session's log to an exact number of the journal's events (a complete snapshot to where it ends, whatever the log was; a partial one or an event no further back), is reported as exactly that, and leaves every other log alone |
| Replication.SnapshotsCatchUp | packages/hcp-protocol/src/session-reducer.ts:68-74 | from every reachable state a complete snapshot, sent and delivered, makes the log the whole journal of its session; the event after it is then applied |
| Replication.LiveEventsArrive | packages/hcp-runner/src/connection/runner-connection.ts:809-817 | an event emitted while its socket is accepted goes out, and is applied by a control plane that holds the journal up to it |
| Replication.ResendsGoOut | packages/hcp-runner/src/connection/runner-connection.ts:809-817 | an event sent again goes out exactly on an open socket that has carried none as late of its session |
| Replication.ClosedSocketsCarryNothing | packages/hcp-runner/src/connection/runner-connection.ts:809-817 | from a close until the next open, however the run goes on, nothing new is on its way |
| Replication.DeliverSnapshotKeepsInv | packages/hcp-protocol/src/session-reducer.ts:68-104 | delivering any snapshot of the journal, however late, keeps the logs prefixes |
| Replication.OwedEventsAreHistory | packages/hcp-runner/src/harnesses/index.ts:774-805 | what a replay offers is in the journal |
| Continuity.ReplayClosesTheGap | packages/hcp-runner/src/connection/runner-connection.ts:409-435 | in-order delivery of a socket's events reaches the end of the journal if and only if no event above the cursor was stepped over before the replay, and then never gaps |
| Continuity.SkippedEventIsLost | packages/hcp-runner/src/connection/runner-connection.ts:809-817 | a concrete socket on which the condition fails and the log stays empty |
| Continuity.SkippingIsReached | packages/hcp-runner/src/connection/runner-connection.ts:409-422 | that socket is reached by emitting, opening, accepting and emitting |
| Continuity.LiveRunKeepsOrder | packages/hcp-runner/src/connection/runner-connection.ts:809-817 | the events of one session on one socket ascend strictly |
| Commands.HandlersRunAtMostOnce | packages/hcp-runner/src/connection/runner-connection.ts:437-538 | in every interleaving of redeliveries no id's handler starts twice in a process, nor for an id on record |
| Commands.DeliveriesAreAnswered | packages/hcp-runner/src/connection/runner-connection.ts:437-489 | a command delivered under the payload it is known by adds exactly one report of its recorded outcome, an acknowledgement marked duplicate, if the link takes it, and changes nothing else, or adds one waiter while it is pending; under another payload it adds one refusal; an unknown one starts |
| Commands.WakesAreAnswered | packages/hcp-runner/src/connection/runner-connection.ts:451-463 | each repeat that waited adds exactly one report of the outcome its command was settled with |
| Commands.CompletionsAreAnswered | packages/hcp-runner/src/connection/runner-connection.ts:491-537 | a completing handler's replies, record, receipt and completion, case by case over what could be written and sent |
| Commands.UnparsedAreAnswered | packages/hcp-runner/src/connection/runner-connection.ts:845-877 | a message that cannot be parsed adds one refusal and is what is then on record and, if written, on disk |
| Commands.SettledCommandsAreReported | packages/hcp-runner/src/connection/runner-connection.ts:437-537 | an outcome that was written and, if it is an acknowledgement, sent is what every later delivery of the command is answered with, through any continuation and any restarts, until its receipt expires or an unparsable message names its id |
| Commands.WaitersAreNotStranded | packages/hcp-runner/src/connection/runner-connection.ts:449-463 | where every handler gets some outcome written, whoever waits for a command has it running or settled, in every run |
| Commands.WaitersMayBeStranded | packages/hcp-runner/src/connection/runner-connection.ts:521-537 | where no outcome can be written, a repeat that came while the handler ran waits in every continuation of the process |
| Commands.ReportsAgree | packages/hcp-runner/src/connection/runner-connection.ts:449-537 | where stores and sends succeed and no unparsable message carries the id, all reports about a command carry one outcome, which is the recorded one |
| Commands.AcknowledgementIsRecorded | packages/hcp-runner/src/connection/runner-connection.ts:491-537 | an acknowledged outcome is on record after completion if and only if it could be written and sent |
| Commands.AcknowledgementStays | packages/hcp-runner/src/connection/runner-connection.ts:437-537 | in every run of a process an acknowledgement on record changes by an unparsable message with its id, and by nothing else |
| Commands.SamePayload | packages/hcp-runner/src/connection/runner-connection.ts:960-979 | payload hashes agree exactly when the payloads have equal values |
| Commands.DifferentPayloadNeverRuns | packages/hcp-runner/src/connection/runner-connection.ts:443-480 | after a command was begun, in every continuation in which its process lives and no unparsable message names its id, the same id with another payload is refused and changes nothing |
| Commands.ReceiptsRefuseOtherPayloads | packages/hcp-runner/src/connection/runner-connection.ts:443-480 | the same for an id whose receipt an earlier process wrote, until it expires |
| Commands.RunnerConnection.HandleCommand | packages/hcp-runner/src/connection/runner-connection.ts:437-489 | starts a handler, awaits a running one or answers from the record: computes the step whose replies DeliveriesAreAnswered states |
| Commands.RunnerConnection.HandlerReturned | packages/hcp-runner/src/connection/runner-connection.ts:491-537 | records, settles and reports, with the rewriting of the catch block; an acknowledgement is on record afterwards exactly when it was written and sent |
| Commands.RunnerConnection.SendParseNack | packages/hcp-runner/src/connection/runner-connection.ts:845-877 | records and sends the refusal of an unparsable message |
| UnifiedDiff.ApplyUnifiedDiff | packages/hcp-runner/src/local-actions/executors.ts:1359-1425 | the two-index loop applies a patch exactly when the alignment the hunks describe has the file as its old side, and returns its new side and whether anything was added or removed; where the hunks of a text begin and what they hold is HeadersAreRead and PatchRoundTrip |
| UnifiedDiff.PatchedByHunk | packages/hcp-runner/src/local-actions/executors.ts:1367-1411 | a patch is its first hunk, spliced after the lines before it, followed by the rest of the patch |
| UnifiedDiff.HunkLineStep | packages/hcp-runner/src/local-actions/executors.ts:1384-1410 | the first character of a body line decides what it consumes, emits and requires |
| UnifiedDiff.PatchedLengths | packages/hcp-runner/src/local-actions/executors.ts:1359-1425 | output length is file length plus added minus removed lines, and an unchanged result is the file |
| UnifiedDiff.PatchedKeepsTheRest | packages/hcp-runner/src/local-actions/executors.ts:1359-1425 | the file is the kept lines interleaved with the removed ones, the output the kept lines interleaved with the added ones |
| UnifiedDiff.InverseRestores | packages/hcp-runner/src/local-actions/executors.ts:1359-1425 | the inverse hunks, at their positions in the output, apply to the output and give the file back |
| UnifiedDiff.InversePatchRestoresText | packages/hcp-runner/src/local-actions/executors.ts:1359-1454 | the same from text to text, for a file without separators whose lines stay separate |
| UnifiedDiff.EndedLinesStaySeparate | packages/hcp-runner/src/local-actions/executors.ts:1427-1436 | when all lines of file and patch are ended, the inverse patch stays separate, and the output does exactly when no line ended by a carriage return precedes one that starts with a line feed |
| UnifiedDiff.PatchRoundTrip | packages/hcp-runner/src/local-actions/executors.ts:1438-1447 | a patch is read back from its lines with any lines before the first header, any headers that are read, with or without counts and section headings, and no-newline marks anywhere in the bodies |
| UnifiedDiff.PatchForms | packages/hcp-runner/src/local-actions/executors.ts:1367-1447 | and every patch that is read has that form, with those hunks |
| UnifiedDiff.HeadersAreRead | packages/hcp-runner/src/local-actions/executors.ts:1438-1447 | a line is read as a header starting at a line if and only if it is the printed header of that start, with any optional counts on either side, any space between and any text after the closing mark |
| UnifiedDiff.JoinOfSplit | packages/hcp-runner/src/local-actions/executors.ts:1427-1436 | splitting and joining gives a text back exactly when it holds no line or paragraph separator, and loses some of it otherwise |
| UnifiedDiff.SplitOfJoin | packages/hcp-runner/src/local-actions/executors.ts:1427-1436 | joining and splitting gives a list of lines back exactly when each is a line, all but the last are ended, and no carriage return meets a line feed |
| NativeSessions.OneStartAndOneStop | packages/hcp-sdk/src/native-sessions.ts:84-133 | over every run at most one start and one stop are sent per session id |
| NativeSessions.OneUnresolvedPerGroup | packages/hcp-sdk/src/native-sessions.ts:84-93 | a continuation group never has two generations that are not closed |
| NativeSessions.PhasesAreJustified | packages/hcp-sdk/src/native-sessions.ts:45-133 | active shows the expected conversation, closed holds its provider's exit proof, opening and closing belong to exactly one entitled operation |
| NativeSessions.ClosedIsFinal | packages/hcp-sdk/src/native-sessions.ts:113-133 | a closed record never changes again |
| NativeSessions.OnlyProofCloses | packages/hcp-sdk/src/native-sessions.ts:113-133 | only a close that still owns the record, and an exit event proving the owner closed, close it |
| NativeSessions.FencedNeverCommits | packages/hcp-sdk/src/native-sessions.ts:65-83 | an operation that lost its authority never regains it, and its commit changes nothing, however long it stays suspended |
| NativeSessions.WhatFences | packages/hcp-sdk/src/native-sessions.ts:29-83 | an abort, a disposal, lost continuity and an exit or lost owner while opening each fence the operation and leave the record unconfirmed |
| NativeSessions.OpensSettle | packages/hcp-sdk/src/native-sessions.ts:98-111 | in every reachable registry an open that owns its record and has the event it waited for stores that event, or the later readiness, and ends: active when it names the expected conversation or any where none is expected, reserved when it names none, unconfirmed when it names another |
| NativeSessions.ClosesSettle | packages/hcp-sdk/src/native-sessions.ts:120-131 | a close that owns its record and has the exit proof ends closed with that proof |
| NativeSessions.OnlyAwaitedOpens | packages/hcp-sdk/src/native-sessions.ts:94-107 | committing an open with any other event changes nothing, and without authority only ends the attempt |
| NativeSessions.OnlyProofEndsClose | packages/hcp-sdk/src/native-sessions.ts:122-130 | the same for a close and its exit proof |
| NativeSessions.ObservationsSettle | packages/hcp-sdk/src/native-sessions.ts:45-64 | an observed event counts once and in order, changes only its session's record, to ready or to doubt, and takes authority away exactly when it leaves doubt |
| NativeSessions.AbortsSettle | packages/hcp-sdk/src/native-sessions.ts:65-83 | an abort leaves the operation's generation in doubt and without authority; a failure also ends the attempt |
| NativeSessions.OpensBegin | packages/hcp-sdk/src/native-sessions.ts:84-95 | an open begins exactly when the registry is in use and not full, the payload starts no turn, its session is new and its group has no generation that is not closed; it then holds the only authority |
| NativeSessions.ClosesBegin | packages/hcp-sdk/src/native-sessions.ts:113-121 | a close begins exactly for a generation that is reserved, active or unconfirmed and was not closed before |
| NativeSessions.GenerationsOpen | packages/hcp-sdk/src/native-sessions.ts:84-112 | from every reachable registry a generation that may be opened can be, to the conversation expected |
| NativeSessions.GenerationsClose | packages/hcp-sdk/src/native-sessions.ts:113-133 | and one that is open and was never closed can be closed, with its proof |
| NativeSessions.DisposalIsFinal | packages/hcp-sdk/src/native-sessions.ts:41-44 | after disposal nothing is sent and no record changes |
| NativeSessions.HcpNativeSessions.CommitOpen | packages/hcp-sdk/src/native-sessions.ts:98-111 | the segment after an open's acknowledgement: computes the step whose outcome OpensSettle and OnlyAwaitedOpens state |
| NativeSessions.HcpNativeSessions.Observe | packages/hcp-sdk/src/native-sessions.ts:45-64 | the observer, with its position filter |
| NativeSessions.HcpNativeSessions.BeginOpen | packages/hcp-sdk/src/native-sessions.ts:84-95 | the checks of an open, and the claim |
| NativeSessions.HcpNativeSessions.BeginClose | packages/hcp-sdk/src/native-sessions.ts:113-121 | the checks of a close, and the claim |
| NativeSessions.HcpNativeSessions.Lose | packages/hcp-sdk/src/native-sessions.ts:29-36 | lost continuity doubts every record it concerns and revokes its authority |
| McpReview.GrantedDispatchWasAccepted | packages/hcp-runner/src/harnesses/mcp-review.ts:178-223 | every granted call of the tool descends from one stored acceptance of exactly that request and action, made while it was waiting, whoever presents the grant |
| McpReview.ToolIsCalledWhen | packages/hcp-runner/src/harnesses/mcp-review.ts:178-223 | in every run an invocation that begins or continues calls the tool if and only if the last thing stored allows it: no record of the same call for a plain one; under a grant its acceptance; with a reply, this operation in one of the three resuming phases holding exactly that reply, granted exactly if the call is, and its own time not over |
| McpReview.StoryRuns | packages/hcp-runner/src/harnesses/mcp-review.ts:131-300 | runs of eight steps that call the tool under the grant and again with the stored reply, after an answer, after a child review is accepted or declined, and after the input expired, and complete |
| McpReview.AnswersReachTheCall | packages/hcp-runner/src/harnesses/mcp-review.ts:149-168 | as long as the entry is not forgotten, an answer or a decision taken while an invocation waits resumes that invocation with the reply just stored |
| McpReview.DecisionsReachTheApproval | packages/hcp-runner/src/harnesses/mcp-review.ts:131-147 | a decision taken is handed to whoever waits for it, an accept as the grant of exactly that action; and while approvals are attended to somebody does wait |
| McpReview.ApprovalsAreAsked | packages/hcp-runner/src/harnesses/mcp-review.ts:73-95 | an approval is asked for exactly when the lease lives and the last operation has ended, and is then what is stored if the file can be written |
| McpReview.RoundsAreAsked | packages/hcp-runner/src/harnesses/mcp-review.ts:225-283 | an operation's call may ask for input exactly in a phase that lets it be called and up to the ninth round; the next round is stored under the actor who accepted, and its invocation waits for it |
| McpReview.FirstRoundsAreAsked | packages/hcp-runner/src/harnesses/mcp-review.ts:225-283 | a call that belongs to no stored operation begins one with its first round exactly when its lease lives and the last operation has ended |
| McpReview.CallsComplete | packages/hcp-runner/src/harnesses/mcp-review.ts:213-221 | a call that returns completes its operation, under whoever let it be called last or as expired, and a plain call stores nothing |
| McpReview.GrantedCallsComplete | packages/hcp-runner/src/harnesses/mcp-review.ts:170-176 | a caller completes with its grant exactly the operation that is dispatching under it |
| McpReview.WaitsExpire | packages/hcp-runner/src/harnesses/mcp-review.ts:276-300 | a wait ends at its own bound: it cancels its input exactly if it is no child review, the tool asked for that and the operation lives on, and otherwise ends its invocation |
| McpReview.GrantsWereAccepted | packages/hcp-runner/src/harnesses/mcp-review.ts:131-147 | every grant handed out is that of a stored acceptance |
| McpReview.DeclinedIsNeverDispatched | packages/hcp-runner/src/harnesses/mcp-review.ts:131-147 | no call under a grant has the id of a declined operation |
| McpReview.DecisionIsFinal | packages/hcp-runner/src/harnesses/mcp-review.ts:97-147 | a stored decision stays the only one of its operation in every continuation |
| McpReview.StoryMovesOn | packages/hcp-runner/src/state/mcp-review.ts:56-167 | along one operation every stored change moves on, rounds increase strictly, and there are at most twenty changes after the first |
| McpReview.RepliesWereStored | packages/hcp-runner/src/harnesses/mcp-review.ts:149-223 | the reply a call carries is the stored one: an answer to the inputs asked, a child decision for exactly that child request and action, or the cancellation of every input |
| McpReview.NewOperationNeedsTheEnd | packages/hcp-runner/src/harnesses/mcp-review.ts:73-95 | the record changes hands only from a completed, expired or declined operation |
| McpReview.DecisionReceived | packages/hcp-runner/src/harnesses/mcp-review.ts:97-168 | in every run a decision is taken exactly when the operation asks for it in time and the file can be written, and is then what the log ends with; it is a repeat exactly when it is what was stored last by that actor, or accepts a completed operation whose last caller its actor is; otherwise it is refused; unless taken it changes nothing |
| McpReview.ResponseReceived | packages/hcp-runner/src/harnesses/mcp-review.ts:309-345 | the same for the answer to an input request, whose repeat is recognised exactly while the same reply of the same actor is what was stored last |
| McpReview.RequestTakenOnce | packages/hcp-runner/src/harnesses/mcp-review.ts:97-168 | no request is answered twice in a run: after a decision or a reply was taken, none with the same request id is taken again |
| McpReview.AcceptRepeated | packages/hcp-runner/src/harnesses/mcp-review.ts:117-128 | the accept of the one who gave it is recognised again exactly while the call runs, or after completion if the same person let the tool be called last; in between it is refused |
| McpReview.RepeatAfterCompletion | packages/hcp-runner/src/harnesses/mcp-review.ts:117-128 | after completion an accept is recognised as a repeat if and only if its actor is the last who let the tool be called |
| McpReview.ApproverMayBeRefused | packages/hcp-runner/src/harnesses/mcp-review.ts:117-128 | after such a run, answered by another person, the approver's repeat is refused and the answerer's accept recognised |
| McpReview.SaveKeepsStore | packages/hcp-runner/src/state/mcp-review.ts:56-167 | a save keeps the stored history a succession of operations, each a path through the phases |
| McpReview.HarnessMcpReview.Decide | packages/hcp-runner/src/harnesses/mcp-review.ts:131-168 | decides a waiting operation or child review and tells whether the decision was taken, repeated or refused; unless taken, nothing changes |
| McpReview.HarnessMcpReview.EnterLoop | packages/hcp-runner/src/harnesses/mcp-review.ts:182-205 | the checks at the top of the invocation loop, and the call of the tool: computes the step whose outcome ToolIsCalledWhen states |
| McpReview.HarnessMcpReview.ToolNeedsInput | packages/hcp-runner/src/harnesses/mcp-review.ts:225-283 | stores the next round of the call, or the first of a new operation |
| McpReview.HarnessMcpReview.Expire | packages/hcp-runner/src/harnesses/mcp-review.ts:276-300 | the timer that may answer an expired wait with a cancellation |
| Base64.PatternIsTheImage | packages/hcp-protocol/src/content.ts:10-12 | the chunk pattern accepts exactly the texts the encoder produces |
| Base64.DecodeOfEncode | packages/hcp-protocol/src/content.ts:10-12 | every byte string has a canonical text that decodes to it |
| Base64.EncodeOfDecode | packages/hcp-protocol/src/content.ts:10-12 | every canonical text is the encoding of what it decodes to |
| Base64.DecodedLength | packages/hcp-protocol/src/content.ts:14-16 | the schema's length arithmetic is the decoded length |
| Base64.ReencodingDecides | packages/hcp-runner/src/harnesses/input-files.ts:72-74 | the upload store's re-encoding test accepts exactly the canonical texts |
| Content.PruneEvictsTheShortestPrefix | packages/hcp-runner/src/harnesses/content-store.ts:127-138 | eviction removes exactly the shortest prefix of the expiry order that contains all expired entries and makes room |
| Content.StoringKeepsTheBounds | packages/hcp-runner/src/harnesses/content-store.ts:43-71 | after a store the bytes are within the limit, at most 1024 entries remain and all are alive |
| Content.StoredChunksAreValid | packages/hcp-runner/src/harnesses/content-store.ts:73-118 | every chunk the store reads passes the chunk schema |
| Content.StoredObjectIsReassembled | packages/hcp-sdk/src/content.ts:13-46 | a stored object comes back exactly, for every chunk size, in the least number of reads |
| Content.ReadsForRoundsUp | packages/hcp-sdk/src/content.ts:20 | that number is the length divided by the chunk size, rounded up |
| Content.AnySourceIsSafe | packages/hcp-sdk/src/content.ts:13-46 | whatever the source answers, a complete read has the declared length and digest |
| Content.ReadsAreExact | packages/hcp-sdk/src/content.ts:13-46 | a read gives bytes in a number of reads if and only if its limits are in order and the source answers with that many parts of the expected object, each at the offset the last one reached, that join to those bytes and have the expected digest |
| Content.FailuresAreTold | packages/hcp-sdk/src/content.ts:13-46 | a read that fails names its reason: the first wrong answer after the parts it had, too many reads, or the digest |
| Content.ChunksCarryParts | packages/hcp-protocol/src/content.ts:10-37 | the chunk schema accepts exactly the parts of objects within their bounds, with the right next offset |
| Content.ReadHcpContent | packages/hcp-sdk/src/content.ts:13-46 | the loop that copies chunks into one buffer computes that outcome |
| Content.BoundedHarnessContentStore.Publish | packages/hcp-runner/src/harnesses/content-store.ts:43-71 | refuses an object over its limit, otherwise prunes and stores |
| Content.BoundedHarnessContentStore.Read | packages/hcp-runner/src/harnesses/content-store.ts:73-118 | serves the owning session a chunk while the object lives |
| InputFiles.EveryRunKeepsTheBounds | packages/hcp-runner/src/harnesses/input-files.ts:43-158 | in every reachable store sealed files have their declared length and digest, delivered files are sealed, and declared lengths stay within the bound |
| InputFiles.LivingFilesEvolve | packages/hcp-runner/src/harnesses/input-files.ts:43-158 | while a file lives its body only grows, and not once sealed |
| InputFiles.AcceptedAppendReplays | packages/hcp-runner/src/harnesses/input-files.ts:71-87 | an append accepted once is accepted again without change for as long as the file lives and is owned, also after sealing |
| InputFiles.OnlyReleaseOrLastRetirementDeletes | packages/hcp-runner/src/harnesses/input-files.ts:66-70 | a file disappears only by release before delivery or by retirement of its last owner |
| InputFiles.CreatesAreTaken | packages/hcp-runner/src/harnesses/input-files.ts:45-63 | creating succeeds exactly for a command that created the same file before, and then repeats its state, or for a new one with room; an empty file is then there and nothing else changed |
| InputFiles.AppendsAreTaken | packages/hcp-runner/src/harnesses/input-files.ts:71-87 | a chunk is taken exactly when its bytes are at their offset already or extend an unsealed file at its end within its declared length |
| InputFiles.SealsAreTaken | packages/hcp-runner/src/harnesses/input-files.ts:88-93 | sealing succeeds exactly when the body has the declared length and digest |
| InputFiles.ReleasesAreTaken | packages/hcp-runner/src/harnesses/input-files.ts:66-70 | releasing succeeds exactly for a file that was not delivered, and only that file is gone |
| InputFiles.ReadsReport | packages/hcp-runner/src/harnesses/input-files.ts:180-184 | reading tells the bytes received, and whether the file is sealed or delivered |
| InputFiles.DeliveriesRetain | packages/hcp-runner/src/harnesses/input-files.ts:96-128 | up to a hundred file attachments are delivered exactly when each is there, owned, sealed and as described, and then exactly they are retained; otherwise nothing is |
| InputFiles.ForksPin | packages/hcp-runner/src/harnesses/input-files.ts:151-158 | a fork succeeds exactly when no file it needs is full, and then owns every delivered file of the conversation; otherwise those before the first full one |
| InputFiles.RetirementsGiveUp | packages/hcp-runner/src/harnesses/input-files.ts:144-150 | after retiring, each file of the conversation has its other owners or is gone if it had none, and all others are as they were |
| InputFiles.FilesOutliveTheirConversation | packages/hcp-runner/src/harnesses/input-files.ts:43-158 | from every reachable store with room a file can be created, filled, sealed and delivered, and once another conversation has forked the first, the first may retire: the file stays, whole, with the other as its owner |
| InputFiles.UploadHcpInputFile | packages/hcp-sdk/src/input-files.ts:17-61 | a reported upload holds exactly the bytes, sealed; under a free id with room it always succeeds, for every chunk size |
| InputFiles.OwnedHarnessInputFileStore.Perform | packages/hcp-runner/src/harnesses/input-files.ts:43-94 | create, append, seal, read and release |
| InputFiles.OwnedHarnessInputFileStore.MaterializeFiles | packages/hcp-runner/src/harnesses/input-files.ts:96-128 | delivers the selected files together or not at all |
| InputFiles.OwnedHarnessInputFileStore.ForkOwner | packages/hcp-runner/src/harnesses/input-files.ts:152-158 | pins delivered files for a fork up to the first that is at its owner limit |
| InputFiles.OwnedHarnessInputFileStore.RetireOwner | packages/hcp-runner/src/harnesses/input-files.ts:145-150 | drops one owner and the files left without any |
| Paging.InventoriesAreComplete | packages/hcp-sdk/src/connection.ts:367-397 | whatever the source answers, an inventory has the announced number of distinct, valid turn ids |
| Paging.InventoriesAreExact | packages/hcp-sdk/src/connection.ts:367-397 | an inventory is read if and only if the limits are in order and the source answers with a chain of pages, each asked for by a new cursor of the one before, that join to as many distinct valid ids as each page announces |
| Paging.InventoriesAreOneVersion | packages/hcp-sdk/src/connection.ts:367-397 | however the thread changes between reads, an inventory is exactly the turns, in order, of the version it names |
| Paging.StableThreadsAreReadCompletely | packages/hcp-runner/src/harnesses/conversation-history.ts:14-62 | a stable thread whose turns fit a page is read completely for every page size and wherever the byte bound cuts |
| Paging.PageCovers | packages/hcp-runner/src/harnesses/conversation-history.ts:27-62 | a page covers the turns just before those already read, and its cursor advances strictly |
| Paging.PagesHoldTheMost | packages/hcp-runner/src/harnesses/conversation-history.ts:14-62 | a cursor is served exactly while the thread is the one it was made for; a page holds the most turns within its number and its bytes, and is refused only when not even one fits |
| Paging.PagesAreBounded | packages/hcp-runner/src/harnesses/conversation-history.ts:27-62 | as many pages as turns always suffice |
| Paging.ServeHistory | packages/hcp-runner/src/harnesses/conversation-history.ts:14-62 | the server's loop |
| Paging.ReadConversationInventory | packages/hcp-sdk/src/connection.ts:367-397 | the client's loop |
| WorkPaging.ReadingsAreOneObservation | packages/hcp-runner/src/harnesses/native-work-page.ts:7-33 | however native work changes between the pages, a reading that ends holds exactly the rows of the observation it began with |
| WorkPaging.PagesHoldTheMost | packages/hcp-runner/src/harnesses/native-work-page.ts:12-33 | a cursor is served exactly while what it saw is what is there; a page holds the most rows within its number and its bytes, and is refused only when not even one fits |
| WorkPaging.StableWorkIsReadCompletely | packages/hcp-runner/src/harnesses/native-work-page.ts:21-33 | stable work whose rows each fit a page is read completely, in at most as many reads as rows, whatever the limits |
| WorkPaging.NativeWorkPage | packages/hcp-runner/src/harnesses/native-work-page.ts:12-33 | the server's loop |
| NativeParts.PartsIgnoreOrderAndRepetition | packages/hcp-sdk/src/native-parts.ts:5-73 | within the input bound the projected parts depend only on the set of events that are not skipped |
| NativeParts.PartsAreKnown | packages/hcp-sdk/src/native-parts.ts:5-73 | the parts are known outright: one for each key in order of appearance, with the turn and times of its events, the names they give, its segments' texts in order, and its completion; a slice is refused exactly when it is too long, two events differ under one sequence, or an event may not follow those before it |
| NativeParts.ProjectNativeParts | packages/hcp-sdk/src/native-parts.ts:5-73 | the loop, which skips and refuses events before it looks at their sequence, computes that projection |
| EventProjections.PlansIgnoreOrderAndRepetition | packages/hcp-sdk/src/proposed-plans.ts:14-49 | within the input bound the projected plans depend only on the set of relevant events |
| EventProjections.PlansAreKnown | packages/hcp-sdk/src/proposed-plans.ts:14-49 | the plans are known outright: one for each key in order of appearance, with the turn of its first event, its deltas in order and the content of its completions; a slice is refused exactly when it is too long, two events differ under one sequence, or an event may not follow those before it |
| EventProjections.PhasesIgnoreOrderAndRepetition | packages/hcp-sdk/src/native-phases.ts:16-41 | when a sequence identifies its event the phases depend only on the set of events |
| EventProjections.PhasesAreKnown | packages/hcp-sdk/src/native-phases.ts:16-41 | the phases are known outright: one for each admission, with what its first event names and the times of its first admission and first end and its status; a slice is refused exactly when two of its events disagree |
| EventProjections.PhasesMayShowTheOrder | packages/hcp-sdk/src/native-phases.ts:19-40 | and otherwise two orders can give two results |
| EventProjections.PhasesAreSeparate | packages/hcp-sdk/src/native-phases.ts:25-33 | no two phases share an admission or a native execution |
| EventProjections.ProjectHcpProposedPlans | packages/hcp-sdk/src/proposed-plans.ts:14-49 | the loop that projects plans |
| EventProjections.ProjectHcpNativePhases | packages/hcp-sdk/src/native-phases.ts:16-41 | the loop that projects phases, with its owner table |
| NativeInteractions.EachRequestSettlesOnce | packages/hcp-runner/src/harnesses/native-interactions.ts:55-90 | every issued request is the pending one, that of the waiting head of the queue, or was settled exactly once; nothing else was settled |
| NativeInteractions.ResponsesAreTaken | packages/hcp-runner/src/harnesses/native-interactions.ts:178-217 | in every run a response is taken exactly when its owner is open, it is for this session and turn and of somebody, it is not among the last 128 taken, the journal takes it, and it is in time and fits the pending request: the asked action and an allowed decision, or a value that fits; the request is then settled with it and the next operation is the head |
| NativeInteractions.AnswersFit | packages/hcp-runner/src/harnesses/native-interactions.ts:178-217 | every request settled by an answer was answered by one that fits it |
| NativeInteractions.OperationsAreQueued | packages/hcp-runner/src/harnesses/native-interactions.ts:55-61 | a turn's owner queues the first 128 operations it is given, whatever became of them; a session's owner queues forms, up to 128 at a time |
| NativeInteractions.HeadsProceed | packages/hcp-runner/src/harnesses/native-interactions.ts:72-134 | the head of the queue asks, is suspended or ends, and what was suspended asks when it goes on, by exact conditions; an unpublished request is lost |
| NativeInteractions.PendingAreLost | packages/hcp-runner/src/harnesses/native-interactions.ts:72-90 | an expiry, an abort, a dead provider or the close settles a pending request as lost, and the next operation is the head |
| NativeInteractions.TurnsNeverForget | packages/hcp-runner/src/harnesses/native-interactions.ts:178-223 | until a turn's owner closes, every response it took is a no-op when repeated and any other response to that request is rejected |
| NativeInteractions.RepeatsAreTheLastTaken | packages/hcp-runner/src/harnesses/native-interactions.ts:178-223 | a response counts as a repeat if and only if it is among the last 128 taken |
| NativeInteractions.RememberedFor | packages/hcp-runner/src/harnesses/native-interactions.ts:178-217 | in every run a response once taken is a no-op when given again until 128 later ones were taken, and is rejected from then on |
| NativeInteractions.SessionsForget | packages/hcp-runner/src/harnesses/native-interactions.ts:214-217 | a run of a session's owner that has forgotten its first answer |
| NativeInteractions.AsksAfterClose | packages/hcp-runner/src/harnesses/native-interactions.ts:92-134 | in a closed owner a request becomes pending exactly when a suspended approval goes on with a decision to offer, is not aborted and is published |
| NativeInteractions.PreparedBeforeClose | packages/hcp-runner/src/harnesses/native-interactions.ts:38-45 | that approval had passed its checks while the owner was open |
| NativeInteractions.ClosedAsksAtMostOnce | packages/hcp-runner/src/harnesses/native-interactions.ts:208-222 | after the close no response is taken and at most one more request is issued, that of the approval suspended then |
| NativeInteractions.LateRequestIsReached | packages/hcp-runner/src/harnesses/native-interactions.ts:92-124 | a run of four steps to such a request |
| NativeInteractions.NativeInteractions.Respond | packages/hcp-runner/src/harnesses/native-interactions.ts:178-217 | receives an approval or an input response |
| AccountReads.SlotsAreSound | packages/hcp-runner/src/accounts/index.ts:77-110 | at most four slots are held, somebody waits only while all are, and slots are given in order of arrival |
| AccountReads.OneReadPerProvider | packages/hcp-runner/src/accounts/index.ts:61-75 | two unfinished reads are never of one provider |
| AccountReads.ReadsBegin | packages/hcp-runner/src/accounts/index.ts:61-80 | a request starts a read exactly while the reader is open, the provider can be read, and neither an observation of it is cached nor a read under way; it runs at once while fewer than four hold a slot, and otherwise is the last to wait |
| AccountReads.ReadsGoOn | packages/hcp-runner/src/accounts/index.ts:70-110 | a woken read runs unless the reader was closed, a read that leaves hands its slot to the one that waited longest, and a settled read is cached and forgotten |
| AccountReads.ExpiredAreReadAgain | packages/hcp-runner/src/accounts/index.ts:55-75 | once its observation has expired a provider is read again, and a closed reader reads no more |
| AccountReads.ReadsCanFinish | packages/hcp-runner/src/accounts/index.ts:61-110 | every run can go on, by steps of the reads that hold slots alone, to the end of any unfinished read |
| AccountReads.ClosedReadersDrain | packages/hcp-runner/src/accounts/index.ts:55-110 | every run can go on after the close, in exactly as many steps as there is work left, to a state in which nobody holds or awaits a slot |
| AccountReads.NoCollectorAfterClose | packages/hcp-runner/src/accounts/index.ts:78-110 | however a run goes on after the close, no collector is started and no work is added |
| AccountReads.AccountUsageReader.ReadProvider | packages/hcp-runner/src/accounts/index.ts:61-80 | answers at once, joins a read or takes a slot or a place, and keeps the invariant of the slots |
| WorkspaceListing.ListWorkspaceEntries | packages/hcp-runner/src/local-actions/executors.ts:1223-1259 | the bounded walk returns the whole preorder listing cut at the limit, and says it was cut exactly when there was more |
| WorkspaceListing.ListingIsThePreorder | packages/hcp-runner/src/local-actions/executors.ts:1223-1259 | that listing holds one entry for each path that leads, through directories that are entered, to an entry that is listed, in the order of the paths, and nothing else |
| WorkspaceListing.DepthIsBounded | packages/hcp-runner/src/local-actions/executors.ts:1223-1259 | no entry lies below the depth limit |

## Left out

- HandlersRunAtMostOnce: is about one process; after a restart only the written receipts protect an id, and a handler interrupted by it may start again.
- ApplySnapshot: takes a complete snapshot whose events are numbered from 1, as the snapshot schema checks on every received one; the method itself would also store others.
- SamePayload: takes the digest to be free of collisions, since SHA-256 is an uninterpreted function here.
- InventoriesAreOneVersion: takes a version to identify its turns, which the hash or the native revision has to provide.
- AcceptedAppendReplays: takes reading and writing of the body to succeed; a failed write of the metadata is not modelled.
- ApplyUnifiedDiff: has one error for all malformed or non-matching patches, as the code has one error code, and positions as unbounded numbers, where the code's lose precision beyond 2^53.
- PrintDecidesEquality: models numbers by their printed form, so the printer's choice of that form is not part of it.
- RepliesWereStored, ResponseReceived: compare replies as values, where the code compares their JSON text.
- WebSocket, HTTP, file system, processes, path and permission checks: a send or a write may fail, a file is its bytes, a directory is a tree already in listing order.
- Clocks, random identifiers and digests: a time parameter, fresh numbers, uninterpreted functions.
- Zod schemas other than those of snapshots, content chunks and upload parts: their checks appear as flags of a request.
- Local actions with their own record table: they follow the command table with fewer states.
- The pending-request table of the SDK connection and the event waiters: native sessions take an observed event as the end of a wait.
- NativeWorkPage: takes the rows in the order of their work ids, which the code sorts by, and a digest that identifies them.
- ProjectNativeParts: takes events that passed their schemas, and tells completed bodies apart by a tag.
- Content by reference in proposed plans, portable history items and previews of large fields: a turn is its id and its encoded size.
- The check of event contents against the review record: the events this owner builds agree with the record by construction.
- The review queue across native owners, and other owners sharing one store.
- Provider adapters, proxies, demos, command line, configuration and pairing.
