# Verified model of the TetherCode bridge

This Dafny project models the stateful protocols of the bridge between coding agents and the phone
(`services/rust-bridge`), the desktop supervisor that runs it, and the phone's chat cache, and proves what they
keep over whole runs. `dafny verify dfyconfig.toml` checks everything.

## What is modelled

**Per-thread message queue** (`QueueRuntime`, `QueueMachine`, `QueueRuns`, `QueueSteering`, `QueueTakeOver`,
`QueueActivity`, `QueueCompletions`, `QueueExamples`, `Dispositions`, `Submissions`). A message is queued, pending as
a steer, in flight as a steer, or held during a turn start. The steer drain lets go of the thread lock around prepare,
verify and steer, so it is cut into one step per critical section, and any number of drains, sends, cancels, events
and replies interleave. `QueueRuntime` has each section twice: as a function, and in place on an object whose fields
are those of the source. `QueueMachine` runs the sections in any order, with every outcome of the agent left open, and
keeps histories of what was offered, delivered, cancelled, refused and taken by the agent.

**AG-UI projector** (`AguiEvents`, `AguiStructured`, `AguiProjection`, `AguiLog`, `AguiLanes`, `AguiTools`,
`AguiToolRuns`, `AguiMessages`, `AguiOutline`, `AguiSpeech`, `AguiPayloads`, `AguiLinks`, `AguiExceptions`,
`AguiCodec`, `AguiProjector`). A transducer from canonical agent events to a bracketed, delta-encoded stream with
budgets and chunks. Its output is judged by independent readers: a monitor of runs and message lanes, an outline of
starts and ends, a receiver of tool calls and tool text, a reader of structured payloads, and a subscriber that
concatenates deltas. `AguiProjector` is the projector in place, proved against the functions the results are about.

**Session and message snapshots** (`Sessions`, `Snapshots`), **strings** (`Utf8`: bytes of well-formed UTF-8, the cuts
and the chunk iterator), **replay and hub** (`Replay`, `ClientHub`), **push delivery** (`Push`), **supervisor**
(`Supervisor`: every operating-system call may find that processes exited meanwhile or that ids were used again),
**chat cache** (`ChatCache`).

Findings. Each holds of the code as it is; the members named give its exact condition and an input that meets it:

- An epoch-verification error of one steer drain empties the in-flight slot of another; the agent can then take one
  message twice (`QueueTakeOver.TakeOverIsExact`, `QueueSteering.SomeRunDeliversTwice`).
- A completion that arrives while a steer is in flight never gets a disposition
  (`QueueCompletions.ForgottenIffSteering`, `QueueExamples.SomeCompletionIsForgotten`).
- The failure of a steer that crossed a completion changes the order when other steers are already pending behind it
  (`QueueRuns.CrossedFailureRestoresOrder`, `QueueExamples.SomeFailureReorders`).
- Two threads can take one submission id, although a lookup after the first result is refused as bound to another
  thread: both look it up before either result is remembered, or the first send fails after its message was taken
  (`Submissions.TwoThreadsTakeIff`, `Submissions.TwoThreadsTakeOneSubmission`, `Submissions.FailedSendIsTakenAgain`).
- A user chunk under the id of the open agent message opens that id twice (`AguiLanes.StreamWellFormed`,
  `AguiExceptions.SameIdBreaksStream`). This is about the projector on arbitrary events: the bridge names its own
  prompt messages by thread and turn and lets agent messages end in `::agent`
  (`services/rust-bridge/src/acp/session.rs:206-210`), so an agent would have to supply a user id that ends like that.
- A tool classified as a sub-agent while its call is open keeps its start and never gets an end
  (`AguiToolRuns.FinishedToolsWhole`, `AguiExceptions.ReclassifiedToolNeverEnds`).
- After a message was cut, later text that fits the last one to three bytes is still passed on, out of place
  (`AguiMessages.PrefixIffNothingLate`, `AguiExceptions.LaterLetterSlipsThrough`).
- Replacing a tool's locations (or content) resets the truncation flag even when the other list has lost items
  (`AguiStructured.AvailabilityTruthfulIff`, `AguiStructured.SomeLossIsForgotten`).
- A message that is pushed out of a session's snapshot takes the timeline entry of a tool with the same id along; when
  all held tools have lost theirs, the next new tool panics (`Sessions.StaysListedIff`, `Sessions.PanicsIff`,
  `Sessions.ReusedIdsPanic`). This too is about arbitrary events, with ids used for messages and tools alike.
- A start whose first check cannot read the record or resolve the workspace goes on to spawn a second bridge beside a
  live, expected one (`Supervisor.StartKeepsManagedIff`, `Supervisor.SomeStartLeavesTwoBridges`).
- A run that supersedes another leaves the sub-agent links of that run in place, so their progress still goes to the
  superseded run after its terminal event (`AguiLinks.LinkedIff`, `AguiExceptions.SupersededRunIsTold`).

Observations:

- A steer drain that prepared without an error still stops when any earlier error is on record, and the automatic queue
  drain it would start after a failed prepare is never reached (`QueueRuntime.ThreadQueue.SteerPrepared`).
- The cache's limit of `CHAT_SNAPSHOT_CACHE_MAX_BYTES` is compared with the length of a string, in UTF-16 units; the
  model takes any size function.

Assumptions. SHA-256 digests tell texts apart. The JSON text of a payload is a function of the environment that some
decoder undoes (`AguiCodec` has one); the JSON text of a list is its brackets, values and commas. Ids, names and times
are numbers. A hash map is gone through in an arbitrary order, in which every key comes once. Killing a spawned child is
effective, a process is known by its id and start time, and the supervisor's checks see the process table as it is,
except that the first check of a start may fail to read what it needs. A message counts as taken when it is queued or
handed to the agent, also when the agent's answer is then an error.

## Model

| member | source | states |
|---|---|---|
| `QueueRuns.NoMessageForked` | services/rust-bridge/src/queue_service.rs:522-713 | In every reachable state of a thread, under every interleaving of sends, steers, cancels, events and both drains, no message id is in two lanes (queued, pending steer, in-flight steer, held for a turn start) or twice in one |
| `QueueRuns.NoMessageLost` | services/rust-bridge/src/queue_service.rs:132-412 | Every offered message is in a lane, or exactly one thing happened to it, once: delivered, cancelled, or refused to its sender |
| `QueueRuns.DeliveredWasTaken` | services/rust-bridge/src/queue_service.rs:655-692 | In every run, whatever the queue lets go of as delivered, the agent took with a successful reply to that very message, as often |
| `QueueRuns.OwnedIsAcknowledged` | services/rust-bridge/src/queue_service.rs:656-667 | Although the slot is matched with a reply by id alone, in every reachable state the message in the slot is the one the reply acknowledges |
| `QueueRuns.RunSane` | services/rust-bridge/src/queue_service.rs:774-1045 | The invariant behind these over all runs: the guards across critical sections, one preparing drain, conservation of messages, increasing message ids |
| `QueueMachine.StepSound` | services/rust-bridge/src/queue_service.rs:132-1045 | Every critical section keeps the guards and has exactly one effect on the ordered queue; only a steer request and a late failure of a crossed steer move a message |
| `QueueMachine.StepOnePrepare` | services/rust-bridge/src/queue_service.rs:526-575 | Every step keeps: the prepare flag is set exactly while one single drain prepares |
| `QueueRuns.ExclusiveDispatch` | services/rust-bridge/src/queue_service.rs:596-633 | No reachable state has both a turn start and a steer in flight, and at most one drain prepares, although the guards sit in separate critical sections |
| `QueueRuns.TurnStartsAreAlone` | services/rust-bridge/src/queue_service.rs:965-990 | While a turn start of the drain or of a send is outstanding, no turn runs, no steer is in flight, pending or being prepared, and no approval or user input is outstanding |
| `QueueRuns.TurnStartFlagIsTheLock` | services/rust-bridge/src/queue_service.rs:236-276 | The turn-start flag is set exactly while the holder of the thread lock waits for a turn start |
| `QueueRuns.SnapshotShowsQueue` | services/rust-bridge/src/queue_service.rs:722-757 | Clients are shown every message of every reachable queue once and in order, in-flight steer first, except the one held for a turn start or being sent |
| `QueueRuns.CompletionKeepsOrder` | services/rust-bridge/src/queue_service.rs:799-837 | A completion, accepted or not, leaves in-flight ++ pending steers ++ items unchanged as a sequence, and an accepted one leaves no pending steer |
| `QueueRuns.NothingBehindCrossedSteer` | services/rust-bridge/src/queue_service.rs:668-683 | After a completion, as long as no run starts and no verification error, failed prompt or reply of the owner settles the slot, the slot keeps the same steer and no other steer becomes pending behind it |
| `QueueRuns.CrossedFailureAfterCompletion` | services/rust-bridge/src/queue_service.rs:668-683 | So if a completion arrives in any reachable state with a steer in flight and the steer fails before a run starts, the failing reply finds that steer and leaves in-flight ++ pending ++ items as it is |
| `QueueRuns.CrossedFailureRestoresOrder` | services/rust-bridge/src/queue_service.rs:668-683 | The failure of a crossed steer restores the whole order if and only if no other steer is pending behind it |
| `QueueExamples.SomeFailureReorders` | services/rust-bridge/src/queue_service.rs:668-683 | A concrete run in which a steer crosses a completion, the next run starts with another steer pending, and the failing reply swaps the two |
| `QueueRuns.UncrossedFailureRestoresOrder` | services/rust-bridge/src/queue_service.rs:670-682 | A steer that fails before any completion is put back exactly where it was |
| `QueueRuns.WithoutSteeringFirstInFirstOut` | services/rust-bridge/src/queue_service.rs:132-278 | In every run in which nobody steers, delivered ++ still queued is exactly the sequence of offered messages that were neither cancelled nor refused |
| `QueueSteering.VerifyErrorKeepsOwnershipIff` | services/rust-bridge/src/queue_service.rs:584-591 | An epoch-verification error keeps the in-flight slot with the drain that filled it if and only if the slot is empty |
| `QueueSteering.AtMostOnce` | services/rust-bridge/src/queue_service.rs:633-692 | If no verification error of the run finds the slot filled, the agent takes every message at most once, counting what each drain sent |
| `QueueTakeOver.TakeOverIsExact` | services/rust-bridge/src/queue_service.rs:584-591 | After any run without such an error, a step can be continued without another one to a run in which the agent takes some message twice if and only if the step is such an error |
| `QueueTakeOver.TakenTwice` | services/rust-bridge/src/queue_service.rs:695-713 | The continuation is explicit: the reply to the first hand-over, a run that comes and goes, and a second hand-over |
| `QueueSteering.SomeRunDeliversTwice` | services/rust-bridge/src/queue_service.rs:695-713 | A concrete run with three drains and one such error in which the agent takes the same message twice |
| `QueueSteering.RunOwned` | services/rust-bridge/src/queue_service.rs:584-692 | Without such an error the slot is filled exactly while one single drain waits for the reply to that very message |
| `QueueSteering.SteerGoesOut` | services/rust-bridge/src/queue_service.rs:596-632 | A steer goes out only in the hand-over section: the first pending one, bound to the live turn, run and generation, with no tool call, approval, user input or turn start outstanding |
| `QueueActivity.RunShows` | services/rust-bridge/src/queue_service.rs:774-945 | After every run the turn, run and generation, the flags of a running and a live run, and the running tools, outstanding approvals and inputs of the runtime are those heard from the steps alone |
| `QueueActivity.ToolsAreRunning` | services/rust-bridge/src/queue_service.rs:854-893 | In every reachable state the tool calls on record are exactly those last said to be pending or in progress since the run started, ended or was read |
| `QueueActivity.SteerGoesOutIff` | services/rust-bridge/src/queue_service.rs:596-633 | A verified drain sends its steer if and only if one is pending and none in flight, the run heard of is live, no tool is running and no approval or input is outstanding; and it carries the turn, run and generation heard of |
| `QueueActivity.PrepareBeginsIff` | services/rust-bridge/src/queue_service.rs:526-547 | A drain begins to prepare if and only if a steer is pending, none is in flight or prepared, the run is live and no tool is running |
| `QueueActivity.TurnStartsIff` | services/rust-bridge/src/queue_service.rs:960-990 | The queue drain starts a turn, of the first message, if and only if a message is queued and no run, steer, prepare, approval or input is going on |
| `QueueActivity.SendWaitsIff` | services/rust-bridge/src/queue_service.rs:187-196 | A send queues its message if and only if one of these is going on or messages are queued already |
| `QueueActivity.SteerRequestIff` | services/rust-bridge/src/queue_service.rs:315-344 | A steer request moves its message behind the pending steers if and only if the run is live and the message queued; otherwise nothing changes |
| `QueueActivity.SendComesOut` | services/rust-bridge/src/queue_service.rs:196-278 | A send that need not wait starts its turn and moves no message; one that must is last in the queue if the queue with it is within its bounds, and refused if not |
| `QueueActivity.TurnComesOut` | services/rust-bridge/src/queue_service.rs:245-276 | A turn start that succeeds delivers its message; one that fails gives it back to the sender, or to the head of the queue |
| `QueueActivity.SteerComesOut` | services/rust-bridge/src/queue_service.rs:655-685 | The agent took what a drain sent if and only if its reply is no error; the queue counts it as delivered if and only if the slot still held it; and a failed steer is pending or queued again |
| `QueueActivity.VerifiedWasCurrent` | services/rust-bridge/src/queue_service.rs:580-595 | A drain that may hand over has had its epoch found current and has taken no other step since |
| `QueueActivity.VerifyingWasPrepared` | services/rust-bridge/src/queue_service.rs:548-580 | A drain that verifies its epoch has prepared without an error and has taken no other step since |
| `QueueActivity.StepErrors` | services/rust-bridge/src/queue_service.rs:552-711 | The error on record after any step is that of the step if it fails, none if it succeeds or starts something, and otherwise the one before |
| `QueueActivity.SnapshotTellsSteers` | services/rust-bridge/src/queue_service.rs:722-757 | Clients are told of a steer in flight, and of one that waits for a running tool, exactly when there is one |
| `QueueRuns.AdmissionIsBound` | services/rust-bridge/src/queue_service.rs:196-233 | A message is queued if and only if the queue with it has at most 100 messages and its contents and turn starts at most 1 MiB |
| `QueueCompletions.AtMostOneDisposition` | services/rust-bridge/src/queue_service.rs:838-852 | Over any run a completion event is given at most one disposition |
| `QueueCompletions.ContinuedWasAccepted` | services/rust-bridge/src/queue_service.rs:976-1042 | A completion is called continued only when, after it, a queued message was handed over and that turn was accepted before the disposition |
| `QueueCompletions.ContinuedIffAccepted` | services/rust-bridge/src/queue_service.rs:998-1042 | In every run a disposition is continued if and only if nothing but dispositions lies between it and an accepted turn start of the drain |
| `QueueCompletions.CompletionDecides` | services/rust-bridge/src/queue_service.rs:826-852 | An accepted completion asks for a queue drain if and only if no steer is in flight and a message is queued or pending, and is final at once if and only if there is neither |
| `QueueCompletions.CompletionIsMinded` | services/rust-bridge/src/queue_service.rs:838-852 | A completion that arrives with no steer in flight is never lost: however the run goes on, it waits for its disposition or has it |
| `QueueCompletions.WaitingIsUndecided` | services/rust-bridge/src/queue_service.rs:838-846 | A completion that waits for the queue drain was seen and has no disposition yet |
| `QueueCompletions.ForgottenIffSteering` | services/rust-bridge/src/queue_service.rs:830-852 | An accepted completion is left without a disposition and without waiting for one if and only if a steer is in flight |
| `QueueExamples.SomeCompletionIsForgotten` | services/rust-bridge/src/queue_service.rs:830-852 | A concrete run that gets there: its completion never has a disposition, however the run goes on |
| `QueueCompletions.ForgottenForever` | services/rust-bridge/src/queue_service.rs:830-852 | Such a completion never gets a disposition, whatever happens later |
| `Dispositions.DispositionBoard.Record` | services/rust-bridge/src/queue_service.rs:92-106 | The board of dispositions holds at most 1,024 and gives up only its oldest event when full |
| `Dispositions.DispositionBoard.Take` | services/rust-bridge/src/queue_service.rs:108-130 | Looking a disposition up removes it, so each one is taken at most once |
| `QueueRuntime.ThreadQueue.EnqueueEntry` | services/rust-bridge/src/queue_service.rs:196-233 | The admission check by count and bytes and the append, in place |
| `QueueRuntime.ThreadQueue.SteerItem` | services/rust-bridge/src/queue_service.rs:315-344 | The steer request in place: which refusal it answers with, or the one queued message of that id moves behind the pending steers |
| `QueueRuntime.ThreadQueue.CancelItem` | services/rust-bridge/src/queue_service.rs:371-404 | The cancel request in place: busy, one queued or pending message of that id gone and no other, already dispatched, or not found, each with its exact condition |
| `QueueRuntime.ThreadQueue.PrepareSteer` | services/rust-bridge/src/queue_service.rs:526-547 | The first section of the steer drain in place |
| `QueueRuntime.ThreadQueue.SteerPrepared` | services/rust-bridge/src/queue_service.rs:552-579 | The section after prepare in place; the drain goes on exactly when no error is on record, and the automatic queue drain after a failed prepare is never reached |
| `QueueRuntime.ThreadQueue.TakeSteer` | services/rust-bridge/src/queue_service.rs:597-632 | The hand-over section in place, with all its guards |
| `QueueRuntime.ThreadQueue.SteerReply` | services/rust-bridge/src/queue_service.rs:655-685 | The acknowledgement section in place, for success, failure, and a slot that changed hands |
| `QueueRuntime.ThreadQueue.FailSteerDispatch` | services/rust-bridge/src/queue_service.rs:695-711 | The failure section in place: whoever filled the slot, it is empty afterwards, its message heads the pending steers, and in-flight ++ pending ++ items is the same sequence |
| `QueueRuntime.ThreadQueue.OnRunStarted` | services/rust-bridge/src/queue_service.rs:781-799 | The start of a run in place: no message moves, the run can be steered, exactly its own turn and generation can complete it, and what still keeps a steer from being prepared |
| `QueueRuntime.ThreadQueue.OnRunEnded` | services/rust-bridge/src/queue_service.rs:800-837 | The completion in place: it asks for a queue drain if and only if no steer is in flight and a message is queued or pending, and for a wait if and only if one is in flight |
| `QueueRuntime.ThreadQueue.PromotePendingSteers` | services/rust-bridge/src/queue_service.rs:827-829 | The promotion loop puts the pending steers in front of the queue in their order |
| `QueueRuntime.ThreadQueue.OnTool` | services/rust-bridge/src/queue_service.rs:854-893 | Tool updates in place: of the run going on, a pending or running tool is recorded and keeps steers from being prepared or sent, a completed or failed one is taken out, an unknown status ends the live generation; no other tool changes |
| `QueueRuntime.ThreadQueue.NoteCompletion` | services/rust-bridge/src/queue_service.rs:838-845 | A completion that waits in place: no message moves, no blocker changes, and the drain that finds the queue empty disposes of it after those that waited before |
| `QueueRuntime.ThreadQueue.OnApprovalRequested` | services/rust-bridge/src/queue_service.rs:894-902 | A requested approval in place: until it is resolved no drain starts a turn and no steer goes out, and resolving it gives back the state before |
| `QueueRuntime.ThreadQueue.OnUserInputRequested` | services/rust-bridge/src/queue_service.rs:920-928 | A requested user input in place: until it is resolved no drain starts a turn and no steer goes out, and resolving it gives back the state before |
| `QueueRuntime.ThreadQueue.OnApprovalResolved` | services/rust-bridge/src/queue_service.rs:903-919 | A resolved approval in place, and whether steers may be drained |
| `QueueRuntime.ThreadQueue.OnUserInputResolved` | services/rust-bridge/src/queue_service.rs:929-945 | A resolved user input in place, and whether steers may be drained |
| `QueueRuntime.ThreadQueue.DrainQueue` | services/rust-bridge/src/queue_service.rs:960-990 | The first section of the queue drain in place: what blocks it, the completions an idle thread gives up, and the first message as the turn start |
| `QueueRuntime.ThreadQueue.DrainReply` | services/rust-bridge/src/queue_service.rs:999-1042 | The section after the turn start in place: all waiting completions are taken, a failed turn start is first again, a successful one keeps the drain blocked |
| `QueueRuntime.ThreadQueue.StartTurn` | services/rust-bridge/src/queue_service.rs:236-243 | A send marks its turn start: no message moves, and until the reply the queue drain is blocked, no steer is prepared or goes out, and every steer request is refused as busy |
| `QueueRuntime.ThreadQueue.TurnStartReply` | services/rust-bridge/src/queue_service.rs:245-276 | The reply to that turn start: a failure undoes the mark and gives back the state before but for the recorded error, a success keeps the queue drain blocked, and no message moves |
| `QueueRuntime.ThreadQueue.FromSnapshot` | services/rust-bridge/src/queue_service.rs:435-455 | A hydrated runtime holds no message, can be steered exactly for a live session whose turn and run are known, and blocks the drain exactly for a live session or an outstanding approval or input |
| `Submissions.SubmissionMemory.RememberSubmissionResult` | services/rust-bridge/src/queue_service.rs:280-292 | Remembering in place keeps keys and order queue the same set, without duplicates and at most 1,024 |
| `Submissions.RememberSound` | services/rust-bridge/src/queue_service.rs:280-292 | What is forgotten is the first id of the order, and only for a new one; the remembered result is the one given |
| `Submissions.OrderIsRecent` | services/rust-bridge/src/queue_service.rs:280-292 | After every run the order is the last at most 1,024 ids in the sequence in which sends of new ids finished, so the first is the oldest |
| `Submissions.RememberedUntil` | services/rust-bridge/src/queue_service.rs:280-292 | An id is remembered if and only if at most 1,024 ids, itself included, have become new since the send that made it new |
| `Submissions.FinishedOnce` | services/rust-bridge/src/queue_service.rs:164-177 | A thread that finished a send of a new id takes it no second time until 1,024 other ids have become new, whatever is sent by whomever; its send gets the stored result |
| `Submissions.NeverTakenAgain` | services/rust-bridge/src/queue_service.rs:164-177 | While a submission id stays remembered, its thread never enqueues or dispatches it a second time, under any interleaving of sends |
| `Submissions.FinishRemembers` | services/rust-bridge/src/queue_service.rs:228-276 | A finished send leaves its id remembered: its thread then gets the stored result, every other thread a refusal |
| `Submissions.TakesOnlyUnknown` | services/rust-bridge/src/queue_service.rs:164-186 | In every reachable state a thread in the middle of a send has no remembered result of its own for that id |
| `Submissions.TwoThreadsTakeIff` | services/rust-bridge/src/queue_service.rs:164-177 | In every run in which the id is not evicted, two threads take it if and only if the lookup of one passes and its send reaches its take, while a send of the other has taken the message, or is past its own lookup and takes it later, or had taken it and failed, which no result remembers |
| `Submissions.AfterTake` | services/rust-bridge/src/queue_service.rs:228-276 | Once taken, a message is held by its send, or its result is remembered, or its send has failed |
| `Submissions.TwoThreadsTakeOneSubmission` | services/rust-bridge/src/queue_service.rs:164-177 | A concrete run in which both look the id up before either remembers it, and both take it |
| `Submissions.FailedSendIsTakenAgain` | services/rust-bridge/src/queue_service.rs:268-276 | A concrete run in which a send fails after its message was handed over, and another thread takes the same id |
| `AguiLanes.StreamWellFormed` | services/rust-bridge/src/agui.rs:94-319 | For every canonical event sequence, a monitor of any thread sees runs alternate with one terminal event, messages and tools inside the run, content only for open messages and all lanes closed before the end, and it sees exactly the open run and lanes of the projector; it is broken if and only if a user chunk ever came under the id of the open agent message |
| `AguiLanes.CloseFollowed` | services/rust-bridge/src/agui.rs:1428-1488 | Closing a run, also a superseded one, ends every open message |
| `AguiLanes.StepWatched` | services/rust-bridge/src/agui.rs:89-786 | One event keeps what the monitor sees equal to what the projector has open, on every thread, unless it is the clashing chunk |
| `AguiOutline.StreamOutlined` | services/rust-bridge/src/agui.rs:94-128 | For every event sequence, the starts, terminal events and session events of the stream are in order exactly those the events call for, with their runs and turns: a finished run ends as finished, a failed or superseded one with its error, and nothing else ends a run |
| `AguiSpeech.StepBelongs` | services/rust-bridge/src/agui.rs:138-624 | Every other event of the stream but activities is of the thread, open run and turn of the canonical event behind it, and of the kind, message, role, tool and name that event calls for |
| `AguiSpeech.LanesAreApart` | services/rust-bridge/src/agui.rs:187-318 | In an open run the reasoning of a message is what was passed on of its thoughts, and its text what was passed on of its other chunks |
| `AguiPayloads.BlocksRead` | services/rust-bridge/src/agui.rs:162-175 | A reader of message content that puts chunks together has every block of every message of an open run, in order, with its role |
| `AguiPayloads.StructureRefined` | services/rust-bridge/src/agui.rs:466-624 | A reader of tool content has the content, locations and flag of every tool that no update named a sub-agent for; and as long as no update hides a loss, these are what was sent, or the flag says that something is missing |
| `AguiLinks.LinkedIff` | services/rust-bridge/src/agui.rs:540-556 | A sub-agent thread is linked to a tool if and only if that tool named it as working, and since then no tool has named it again and neither its own run nor the run of the tool has finished or failed |
| `AguiLinks.ProgressTold` | services/rust-bridge/src/agui.rs:801-831 | An event of a linked thread that shows progress is told first, to the run and tool of the link: completed or failed for the end of its run, running otherwise |
| `AguiLinks.StepActivities` | services/rust-bridge/src/agui.rs:376-558 | An update tells the activity its text and status call for, as the last one, and tells none if and only if it changes none |
| `AguiLinks.NamedIsNotShown` | services/rust-bridge/src/agui.rs:561-624 | An update that names a sub-agent tells no text and no structure of the tool |
| `AguiLinks.StartKeepsLinks` | services/rust-bridge/src/agui.rs:94-128 | A run that starts, also over the run of a link, leaves all links as they are |
| `AguiExceptions.SupersededRunIsTold` | services/rust-bridge/src/agui.rs:94-128 | A concrete sequence after which the progress of a sub-agent still goes to a superseded run |
| `AguiExceptions.SameIdBreaksStream` | services/rust-bridge/src/agui.rs:282-300 | A concrete event sequence with such a user chunk, which breaks the stream |
| `AguiToolRuns.FinishedToolsWhole` | services/rust-bridge/src/agui.rs:357-437 | When a run finishes or fails, each tool call in it has one start, one arguments event and one end in that order and results only after the end, if and only if no update classified the tool as a sub-agent while its call was open |
| `AguiToolRuns.SupersededToolsWhole` | services/rust-bridge/src/agui.rs:94-128 | The same for a superseded run, before the new one starts |
| `AguiToolRuns.OpenToolLives` | services/rust-bridge/src/agui.rs:357-437 | In an open run a tool not classified while open has begun once and ended at most once |
| `AguiTools.LifeGoesOn` | services/rust-bridge/src/agui.rs:350-437 | One update takes a tool call exactly one step along its life, for every state and update |
| `AguiToolRuns.EndMarksAtClose` | services/rust-bridge/src/agui.rs:1466-1475 | Closing emits one end for each open tool that is not a sub-agent and none for the others, in whatever order the map is gone through |
| `AguiToolRuns.ToolTextRefined` | services/rust-bridge/src/agui.rs:438-464 | A receiver that appends results and replaces on tool-text events holds after every update of a run exactly the fold of Set, Append, Clear and Unchanged bounded to 64 KiB, as long as no update named a sub-agent |
| `AguiSpeech.TextIsWhole` | services/rust-bridge/src/agui.rs:438-464 | That fold is all the text sent for the tool since its run started if and only if it has at most 64 KiB |
| `AguiToolRuns.NeverClassifiedNeverNamed` | services/rust-bridge/src/agui.rs:347-356 | A tool never classified as a sub-agent meets the conditions of both results |
| `AguiToolRuns.FinishKeepsToolText` | services/rust-bridge/src/agui.rs:626-666 | The end of the run leaves that text as it is |
| `AguiCodec.SomeEnvironmentRoundTrips` | services/rust-bridge/src/agui.rs:1608-1641 | Some encoding of payloads by strings is undone by a decoder, so the assumption of the results on received text can be met |
| `AguiTools.UpdateReceived` | services/rust-bridge/src/agui.rs:561-605 | However one change is told (by its new part, whole, or in chunks), the receiver ends up with the new text |
| `AguiTools.ChunksReceived` | services/rust-bridge/src/agui.rs:1599-1641 | A text too large for one event keeps the held text until the last chunk, which replaces it |
| `AguiExceptions.ReclassifiedToolNeverEnds` | services/rust-bridge/src/agui.rs:347-437 | A concrete run in which a tool is announced, then classified, and gets no end |
| `AguiMessages.MessageBudget` | services/rust-bridge/src/agui.rs:147-186 | For each message of a run the emitted text is at most 32 KiB, equals the text received until the message is marked, and each marked message has exactly one marker |
| `AguiMessages.MarkedIffCut` | services/rust-bridge/src/agui.rs:147-186 | A message has its marker if and only if a chunk of it was larger than what was left of the budget, or its block had been cut before |
| `AguiMessages.FinishKeepsMessages` | services/rust-bridge/src/agui.rs:626-666 | The end of the run adds no text and no marker to any message |
| `AguiMessages.PrefixIffNothingLate` | services/rust-bridge/src/agui.rs:1511-1525 | The emitted text is a prefix of the received text if and only if, after a chunk larger than what was left of the budget, no chunk of the message begins with a scalar that still fits; and then at most three bytes of the budget are left |
| `AguiMessages.HeardIff` | services/rust-bridge/src/agui.rs:1511-1525 | Both conditions can be seen before the call: a chunk is cut if and only if it is larger than what is left, and something of it is passed on if and only if its first scalar fits |
| `Utf8.LongestPrefixStarts` | services/rust-bridge/src/agui.rs:1745-1755 | A cut keeps something if and only if the first scalar fits the budget |
| `AguiMessages.LateTextOutOfPlace` | services/rust-bridge/src/agui.rs:1511-1525 | Whatever fits after a cut is out of place, because the scalar that should come next does not fit |
| `AguiExceptions.LaterLetterSlipsThrough` | services/rust-bridge/src/agui.rs:1518-1521 | A concrete input whose emitted text is no prefix of its received text |
| `AguiStructured.LoopEndsIff` | services/rust-bridge/src/agui.rs:1660-1671 | The trimming loop of structured values ends, for every pair of lists, if and only if the limit covers the 7 bytes of the empty pair |
| `AguiStructured.TrimIsLongest` | services/rust-bridge/src/agui.rs:1660-1671 | Its result is the longest remainder that fits, locations dropped before content, and only that one |
| `AguiStructured.ApplyStructuredUpdates` | services/rust-bridge/src/agui.rs:1643-1673 | The update in place, and its changed flag |
| `AguiStructured.AvailabilityTruthfulIff` | services/rust-bridge/src/agui.rs:1651-1671 | The availability flag stays truthful if and only if a replacement of one field does not hide an earlier loss in the other |
| `AguiStructured.SomeLossIsForgotten` | services/rust-bridge/src/agui.rs:1651-1671 | Two concrete updates: a value too large is dropped and reported, and clearing the locations takes the report back |
| `AguiStructured.ReassembledByIndex` | services/rust-bridge/src/agui.rs:1608-1641 | The chunks of an oversized value, in any order and with repetitions, reassemble by index to the serialized value and decode to what was sent |
| `AguiStructured.PayloadEventsAreSmall` | services/rust-bridge/src/agui.rs:1608-1641 | No event of a payload carries more than 16 KiB of its text |
| `AguiStructured.PushStructuredChunks` | services/rust-bridge/src/agui.rs:1599-1641 | The chunk loop in place |
| `AguiProjector.AgUiProjector.ProjectCanonical` | services/rust-bridge/src/agui.rs:89-787 | The projector in place, over runs as objects: new state and emitted events are those of the specification the results above are about |
| `AguiProjector.AgUiProjector.ProjectProgress` | services/rust-bridge/src/agui.rs:801-831 | Progress of a sub-agent thread is reported to its parent, in place |
| `AguiProjector.LiveRun.HandleChunk` | services/rust-bridge/src/agui.rs:138-318 | The message arm in place |
| `AguiProjector.LiveRun.BoundedLiveContent` | services/rust-bridge/src/agui.rs:1511-1525 | The byte budget of a message in place |
| `AguiProjector.LiveRun.OpenLaneFor` | services/rust-bridge/src/agui.rs:187-310 | What has to end and start before a chunk's text, in place |
| `AguiProjector.LiveRun.HandleTool` | services/rust-bridge/src/agui.rs:350-624 | The tool arm in place |
| `AguiProjector.EndTools` | services/rust-bridge/src/agui.rs:1466-1475 | The loop over the tools of a closed run visits every tool once, in an order of its own choice |
| `AguiProjector.LiveRun.Close` | services/rust-bridge/src/agui.rs:1428-1488 | Closing a run in place |
| `AguiProjector.AgUiProjector.FindRun` | services/rust-bridge/src/agui.rs:1411-1426 | The correlation of an event with the open run of its thread |
| `Sessions.RunDistinctTools` | services/rust-bridge/src/acp/snapshot.rs:371-512 | In every snapshot a session can reach, no two entries of its timeline stand for the same tool |
| `Sessions.SentSnapshotTrimmed` | services/rust-bridge/src/agui.rs:972-986 | So for every session and every size of messages, what is sent of its snapshot is a suffix of all its messages cut between groups, every tool call and its result kept or dropped together; it fits or has at most one message, and no longer such suffix does |
| `Sessions.RunKept` | services/rust-bridge/src/acp/snapshot.rs:371-512 | The invariant behind it over all runs: at most 128 messages and tools, distinct ids, and a timeline without repetitions of entries for what is held |
| `Sessions.TimelineBound` | services/rust-bridge/src/acp/snapshot.rs:485-488 | Such a timeline is no longer than the messages and tools it orders, so its own limit never pushes anything out |
| `Sessions.StaysListedIff` | services/rust-bridge/src/acp/snapshot.rs:371-512 | While everything held is in the timeline no step panics, and a step keeps it so if and only if the message or tool it pushes out does not share its id with a held tool or message |
| `Sessions.RunListed` | services/rust-bridge/src/acp/snapshot.rs:371-512 | A run that never pushes out a shared id never panics and has everything it holds in its timeline |
| `Sessions.PanicsIff` | services/rust-bridge/src/acp/snapshot.rs:421-434 | A step panics if and only if a new tool needs room and no held tool is in the timeline |
| `Sessions.HeldIsLatest` | services/rust-bridge/src/acp/snapshot.rs:371-483 | In every session each held message and tool is as the last event about it left it |
| `Sessions.MessagesAreRecent` | services/rust-bridge/src/acp/snapshot.rs:371-419 | The messages are the last at most 128 new ones in the order in which they came |
| `Sessions.TimelineInOrder` | services/rust-bridge/src/acp/snapshot.rs:485-512 | The timeline lists its entries in the order of their last arrival |
| `Sessions.OldestToolGoes` | services/rust-bridge/src/acp/snapshot.rs:421-437 | When a new tool needs room, the one pushed out is that of the timeline which arrived first |
| `Sessions.ListedIsShown` | services/rust-bridge/src/agui.rs:834-959 | What is held and in the timeline is in the messages sent: a message as last said, a tool as a call and its result |
| `Sessions.ReusedIdsPanic` | services/rust-bridge/src/acp/snapshot.rs:421-434 | A concrete run of 385 events, with tool ids used for messages as well, that gets there |
| `Sessions.SessionSnapshot.AppendMessage` | services/rust-bridge/src/acp/snapshot.rs:371-419 | A message chunk in place; it keeps the invariant |
| `Sessions.SessionSnapshot.ApplyTool` | services/rust-bridge/src/acp/snapshot.rs:421-483 | A tool update in place, with the case in which the source panics; it keeps the invariant |
| `Snapshots.SnapshotTrimmed` | services/rust-bridge/src/agui.rs:972-986 | For any snapshot with distinct tools, whoever built it, what is sent is the longest such suffix |
| `Snapshots.SnapshotConcat` | services/rust-bridge/src/agui.rs:844-959 | The messages of a snapshot follow its timeline |
| `Snapshots.SnapshotOfOne` | services/rust-bridge/src/agui.rs:844-959 | A held message stands for itself, a held tool for its call and its result, a sub-agent for one message, and what is not held for nothing |
| `Snapshots.RemovesGroupIff` | services/rust-bridge/src/agui.rs:988-1017 | One removal takes exactly the oldest group if and only if no later group calls the same tool |
| `Snapshots.DistinctToolsDistinctCalls` | services/rust-bridge/src/agui.rs:844-959 | Distinct tools in the timeline give distinct tool calls among the messages |
| `Snapshots.TrimSnapshot` | services/rust-bridge/src/agui.rs:972-986 | The trim loop in place; it ends for every size function |
| `Snapshots.RemoveOldestGroup` | services/rust-bridge/src/agui.rs:988-1017 | The removal loop in place |
| `Utf8.ValidIsGrammar` | services/rust-bridge/src/resource_limits.rs:38-47 | The local reading of well-formed UTF-8 used here is the grammar of section 4 of RFC 3629 |
| `Utf8.ChunksRoundTrip` | services/rust-bridge/src/agui.rs:1583-1597 | For every string and every cap of at least 4 the chunks are non-empty strings within the cap whose concatenation is the input |
| `Utf8.ChunksGreedy` | services/rust-bridge/src/agui.rs:1583-1597 | No chunk could have taken the scalar that follows it |
| `Utf8.ChunkProgressForEveryString` | services/rust-bridge/src/agui.rs:1583-1597 | The chunk loop advances on every string if and only if the cap is at least 4 |
| `Utf8.ChunkProgress` | services/rust-bridge/src/agui.rs:1589-1592 | It advances on a string if and only if its first scalar fits the cap |
| `Utf8.LongestPrefixIsLongest` | services/rust-bridge/src/agui.rs:1745-1755 | The cut is a string prefix within the budget, and none is longer |
| `Utf8.LongestPrefixSlack` | services/rust-bridge/src/agui.rs:1745-1755 | A cut loses at most three bytes of the budget |
| `Utf8.BoundedText` | services/rust-bridge/src/agui.rs:1745-1755 | The projector's cut computes that longest prefix |
| `Utf8.TruncateUtf8Bytes` | services/rust-bridge/src/resource_limits.rs:38-47 | So does the other cut, and its flag says whether anything was lost |
| `Utf8.Utf8Chunks` | services/rust-bridge/src/agui.rs:1583-1597 | The chunk iterator, run to its end |
| `Replay.NotificationReplay.Push` | services/rust-bridge/src/replay.rs:50-70 | After any pushes the deque is the longest suffix of the admitted notifications within both bounds; the eviction loop never empties it or removes the newest; admitted is retained plus evicted |
| `Replay.LongestFittingUnique` | services/rust-bridge/src/replay.rs:50-70 | There is only one such suffix |
| `Replay.NotificationReplay.Since` | services/rust-bridge/src/replay.rs:72-99 | A page is a full page of the entries after the cursor, stopped only by one of the bounds, and has_more says whether anything is left |
| `Replay.PageUnique` | services/rust-bridge/src/replay.rs:84-96 | There is only one full page |
| `Replay.ReadAllIsComplete` | services/rust-bridge/src/replay.rs:72-99 | With limit at least 1 and every entry within the response budget, reading on from the last id returned yields exactly the retained entries after the cursor, in order, once each |
| `Replay.ReceivedIsIncreasing` | services/rust-bridge/src/replay.rs:72-99 | With pushes interleaved in any way, the ids received strictly increase |
| `Replay.ReceivedSkipsOnlyEvicted` | services/rust-bridge/src/replay.rs:72-99 | Every entry the cursor has passed was received or had been evicted |
| `Replay.NotificationReplay.EarliestEventId` | services/rust-bridge/src/replay.rs:101-107 | The id of the oldest retained entry |
| `ClientHub.Hub.BroadcastExternalNotification` | services/rust-bridge/src/client_hub.rs:255-289 | Each notification gets the next id; the entry stored has that id, its payload and size, the notification itself if and only if its envelope has at most 256 KiB, and otherwise a marker with its method and size; the retained ids stay gapless if and only if the buffer admits it |
| `ClientHub.Hub.BroadcastCanonicalEvent` | services/rust-bridge/src/client_hub.rs:218-246 | The events and then the controls of one canonical event get consecutive ids |
| `ClientHub.Hub.ReplaySnapshot` | services/rust-bridge/src/client_hub.rs:291-308 | The page with its bytes, the earliest and the latest id handed to a client |
| `ClientHub.ReplacementKeepsStorable` | services/rust-bridge/src/client_hub.rs:267-283 | With positive capacity the replacement of oversized notifications keeps every id storable |
| `ClientHub.BroadcastAll` | services/rust-bridge/src/client_hub.rs:218-289 | Any sequence of broadcasts of a new hub of positive capacity, with markers small enough to keep: the k-th entry is that of the k-th notification under id k + 1, the retained ids are the interval ending at the latest, and for every cursor events after it are lost if and only if the id after it is below the earliest retained one |
| `ClientHub.HubGapDetection` | services/rust-bridge/src/client_hub.rs:291-323 | The same test is exact at every gapless hub, however it got there |
| `Push.Send` | services/rust-bridge/src/push_delivery.rs:269-353 | Whatever the service answers to each batch (nothing, too few or too many tickets), the counters, dropped tokens and receipts are those of looking at each target alone; attempted is accepted plus failed |
| `Push.CountTickets` | services/rust-bridge/src/push_delivery.rs:318-344 | The ticket loop of one batch counts each target once |
| `Push.ListsAreAboutTargets` | services/rust-bridge/src/push_delivery.rs:322-343 | A token is dropped, or a receipt kept, exactly for a target whose own ticket says so |
| `Push.ReplyPreviews.AccumulateCanonicalReply` | services/rust-bridge/src/push_delivery.rs:122-138 | Preview text is kept for at most 256 threads; a chunk adds as much of it as 8,000 bytes leave room for; a new thread pushes out at most one other, and the rest is unchanged |
| `Push.PreviewIsWhole` | services/rust-bridge/src/push_delivery.rs:122-138 | The preview text of a thread is the whole reply if and only if that has at most 8,000 bytes |
| `Supervisor.AtMostOneBridge` | apps/desktop/src/supervisor.rs:244-325 | Between calls at most one spawned bridge is alive, and it is the recorded one |
| `Supervisor.ManagedThroughInterference` | apps/desktop/src/supervisor.rs:371-380 | Process exits and reused process ids cannot break this rule, nor make a dead record match |
| `Supervisor.StartKeepsManagedIff` | apps/desktop/src/supervisor.rs:244-325 | Every way a start can end keeps the rule if and only if its first check could read the record and resolve the workspace, or no bridge is alive, or the record is not the one it expects |
| `Supervisor.ReachesSpawnAlone` | apps/desktop/src/supervisor.rs:244-278 | Under that condition a start spawns only when no bridge is alive, and after a readable first check only with the record gone |
| `Supervisor.MissedStart` | apps/desktop/src/supervisor.rs:506-524 | Otherwise the second check lets it go on, and the start can end with the old and the new bridge alive |
| `Supervisor.SomeStartLeavesTwoBridges` | apps/desktop/src/supervisor.rs:244-325 | Two concrete starts, the first check of the second unreadable, that end with two bridges alive |
| `Supervisor.WaitKeepsManaged` | apps/desktop/src/supervisor.rs:304-324 | Waiting for a process to come up or to go keeps the rule, and if the record is gone afterwards no bridge is alive |
| `Supervisor.Desktop.Serve` | apps/desktop/src/supervisor.rs:239-369 | Any sequence of start, stop and restart calls, with the world going on in between, keeps the rule as long as the first check of every start is readable |
| `Supervisor.Desktop.StartLocked` | apps/desktop/src/supervisor.rs:244-325 | A start in place, its first check readable or not, with interference between its operations: it ends in one of the ways the results above are about, keeps the rule under their condition, and if it succeeds the record is the expected one |
| `Supervisor.Desktop.SpawnAndPublish` | apps/desktop/src/supervisor.rs:279-303 | Every failure to identify or publish a spawned bridge kills it again; otherwise its record is published and its health awaited |
| `Supervisor.Desktop.AwaitHealth` | apps/desktop/src/supervisor.rs:304-324 | The health loop in place: its record goes only after its process has |
| `Supervisor.Desktop.StopOwnedProcess` | apps/desktop/src/supervisor.rs:533-561 | A stop in place: the record goes only after the process has, and a successful stop leaves none |
| `Supervisor.Desktop.StopLocked` | apps/desktop/src/supervisor.rs:332-361 | A stop of a live or dead recorded process in place: it keeps the rule, refuses a record of another workspace, and a successful one leaves no record and no live bridge |
| `Supervisor.Desktop.Restart` | apps/desktop/src/supervisor.rs:363-369 | A restart in place keeps the rule whether or not the first check of its start is readable, because it stops what is recorded first |
| `Supervisor.Desktop.CleanStaleOwnership` | apps/desktop/src/supervisor.rs:506-524 | The second check of a start in place: it goes on only past a missing, stale or expected record, and removes only a stale one |
| `Supervisor.Desktop.RemoveOwnershipIfMatches` | apps/desktop/src/supervisor.rs:526-531 | Only the expected record is removed, and only when its process is gone |
| `ChatCache.BoundIsGreedy` | apps/mobile/src/chatSnapshotCache.ts:174-198 | At most twenty entries are kept, and each entry of the order is kept if and only if fewer than twenty were kept before it and the cache with it beside those has at most 8 MiB |
| `ChatCache.SortIsRecency` | apps/mobile/src/chatSnapshotCache.ts:175-179 | In the order the selected chat is first, and of two others the one accessed later |
| `ChatCache.GreedyIndices` | apps/mobile/src/chatSnapshotCache.ts:181-190 | The kept entries are a subsequence of that order |
| `ChatCache.SortSorted` | apps/mobile/src/chatSnapshotCache.ts:175-179 | The order is a sorted rearrangement of the entries |
| `ChatCache.SelectedKept` | apps/mobile/src/chatSnapshotCache.ts:174-198 | The selected chat is kept, first and still selected, whenever it fits alone |
| `ChatCache.BoundTwice` | apps/mobile/src/chatSnapshotCache.ts:174-198 | Bounding a bounded cache again changes nothing if the selection was kept |
| `ChatCache.UpdateKeepsDistinct` | apps/mobile/src/chatSnapshotCache.ts:86-116 | An update keeps the chats distinct, and a chat that comes in selected is first afterwards with its new content whenever it fits alone |
| `ChatCache.BoundChatSnapshotCache` | apps/mobile/src/chatSnapshotCache.ts:174-198 | The bounding loop in place |
| `ChatCache.UpdateChatSnapshotCache` | apps/mobile/src/chatSnapshotCache.ts:86-116 | The update in place bounds a well-formed chat that came in and, in order and unchanged, every entry of another chat, the selected one of which counts as accessed now exactly when no well-formed chat came in |
| `ChatCache.AllKept` | apps/mobile/src/chatSnapshotCache.ts:174-198 | When there are at most twenty entries and every beginning of their order fits, all are kept |
| `ChatCache.UpdateKeepsOthers` | apps/mobile/src/chatSnapshotCache.ts:86-116 | Then an update loses no other chat and changes nothing of it but its access time |

## Left out

- Network, WebSocket and HTTP handling, Expo retries and receipts, authentication, and the hand-over of notifications to client channels.
- Time: timeouts, retries, timestamps and UUIDs. Outcomes of prepare, verify, steer and turn start, polls and deadlines are arbitrary.
- Liveness: nothing says that a drain runs or a message is delivered. Drains may be spawned at any moment in the queue machine; the methods return when the source spawns one.
- The machine of the queue and the memory of submissions are separate models: a send in the queue machine is one that passed its submission lookup.
- The agent's answer whether steering is supported: a steer request that is refused for that reason is no step.
- Size checks of one message before it reaches the queue, and trimming of its text.
- Error texts; message, turn, run and tool ids are numbers, and the queue's error record keeps which message and operation it is about.
- `reconcile_all_threads`, which only tests call.
- The set of closed threads in the projector, which nothing reads.
- The rendering of plans, usage, modes and sub-agent activity, and the text of sub-agent tasks: whether a text names a sub-agent, its thread and its state word are functions of the environment.
- Permission and user-input controls: they are notifications without projector state.
- The parts and text of a session's messages and tools with their bounds, its history pages, sequence numbers, totals and active tools.
- The text of snapshot messages and their JSON size, which may be any function of the message list.
- Hub subscribers, client queues and their drop counters; the counters are unbounded numbers here, 64-bit in the source.
- Push registration, the titles and texts of notifications, the one-line preview of a reply, receipt checks, and the request counters and recent errors of the metrics.
- A process whose executable or directory cannot be read counts as gone in the source; here it can always be read.
- The compatibility pid file, log files, the configuration, file modes and fsync of the supervisor. A signal is not modelled beyond a process exit: between a check and a signal the process id may change hands.
- Parsing, validation and migration of cached chats, and the files the cache is kept in.
- The mobile reducer of AG-UI events and its ordering layer; receivers here are specifications.
- `preview_proxy.rs`, `storage.rs`, `path_policy.rs`, `attachments.rs`, user interfaces and scripts.
