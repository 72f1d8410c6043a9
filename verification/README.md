# The submission lifecycle, verified

SpeedCode is an asynchronous code judge. A client posts a submission; a submit
handler saves a QUEUED record, puts the job into a bounded queue and publishes
QUEUED; one of N workers takes the job, runs it in a sandbox, and saves and
publishes its progress; WebSocket handlers stream the published events to
clients. This project models that lifecycle over the in-memory queue, store and
event bus, and proves what it keeps in every interleaving.

How the model is built:

- `models`, `requests`, `sandboxes`: the records, request normalisation, and a
  sandbox as an arbitrary oracle whose calls return, return an error, or panic.
- `worker`, `traces`, `outcomes`, `masking`, `engine`, `reports`: ProcessJob and Engine.Run
  as methods with their loops, each proved equal to a function that lists its
  effects (`Process`, `Run`); the promises are lemmas about those functions.
- `buffers`, `verdicts`, `affinity`, `stores`, `eventbus`, `queues`: the mutable
  objects as classes (Go slices with shared backing arrays, channels that can be
  closed, bounded buffers), tied to value models; `buses` is the value model of
  the event bus, `fanouts` the same bus with the sends of a Publish as single steps.
- `pipeline`, `lifecycle`, `submissions`, `shutdown`, `answers`, `topics`, `backpressure`: submit
  handlers, queue, worker pool and store as a transition system. Each lock
  region, channel operation, store call, atomic counter update and publication
  is one step; a run is a list of actions, each enabled when taken.
- `gateway`, `clients`, `delivery`, `departures`, `listeners`, `finales`, `scenarios`,
  `attendance`: the pipeline together with the event bus and any number of WebSocket readers, and what reaches whom.

What the proofs say about the code that its documentation does not:

- A client that reads the store before the terminal save and subscribes after the
  terminal event waits for ever. `Finales.MissedExactly` gives the exact
  condition; `Scenarios.EveryJobCanLeaveAClientWaiting` shows that it can happen
  to every job.
- `MemoryEventBus.Close` followed by the cleanup of an earlier subscriber closes
  the same channel twice, which panics; `Buses.DoubleCloseExactly` says when.
- A submission refused by `Enqueue` keeps its QUEUED record for ever
  (`Submissions.TurnedAwayStaysQueued`).
- The depth check and the enqueue are separate steps, so the configured depth can
  be passed by as many handlers as are between them (`Backpressure.DepthIsReached`).
- `BoundedBuffer` reports an overflow for an empty write to a full buffer, though no
  byte is lost: that last empty write is exactly when its flag does not mean loss
  (`Buffers.OverflowMeansLoss`, `Buffers.EmptyWriteOverflows`).
- `Engine.Run` and the worker can disagree in two ways. Run may fall back to its own
  backend where a worker fails. And the two treat nil differently: the worker
  dereferences a nil context or a nil result of Execute, Run a nil result of Compile.
  Without fallback they agree if and only if nil meets both or neither
  (`Engine.AgreesUnlessNil`, `Engine.FallbackAgreesOnFailure`). The interface allows
  nil without an error; none of the three shipped backends returns it.
- API.md draws QUEUED as the first event on the stream. The code publishes it after
  the enqueue, so it may come anywhere: `Scenarios.QueuedComesAnywhere` gives, for
  every job and every point of its trace, a run with QUEUED there. It is first exactly
  if no worker has published before the handler (`Topics.QueuedFirstExactly`); the
  stored QUEUED record always is first.

## Model

| member | source | states |
|---|---|---|
| `Submissions.RunInv` | pkg/api/server.go:134-183 | in every reachable state of handlers, queue, workers and store: one handler per submission, the queue lists exactly the waiting ones, workers hold exactly theirs, records match the place, the counter matches the workers |
| `Submissions.ExactlyOnePlace` | pkg/api/server.go:145-176 | in every interleaving a saved submission is in exactly one place (handler, refused, one queue position, one worker, finished), and nothing unsaved is anywhere |
| `Submissions.FirstInFirstOut` | pkg/queue/memory_queue.go:37-63 | over every run, jobs sent = jobs taken followed by the queue: none lost, repeated or reordered |
| `Submissions.RecordsMoveForward` | pkg/worker/worker.go:233-241 | over every run a stored record only moves along QUEUED, RUNNING, COMPLETED/FAILED, and a terminal record never changes at all |
| `Submissions.StepAdvances` | pkg/worker/worker.go:126-137 | one step moves a record along one edge at most: QUEUED to RUNNING or FAILED, RUNNING to COMPLETED or FAILED, nothing out of a terminal record; a new record is QUEUED |
| `Submissions.CompletedWasRunning` | pkg/worker/worker.go:137-241 | in every run a record that is QUEUED at one moment and COMPLETED later was RUNNING at a moment in between |
| `Submissions.TerminalRecordIsComputed` | pkg/worker/pool.go:89-115 | a terminal record is exactly what ProcessJob computes for the job that was submitted, on the host that ran it |
| `Submissions.TurnedAwayStaysQueued` | pkg/api/server.go:173-176 | a submission refused by Enqueue, or crashed in it, keeps its QUEUED record in every later state |
| `Answers.AnswersAreTrue` | pkg/api/server.go:134-195 | in every run a handler answers 202 exactly if its job entered the queue and was announced, crashes exactly if it sent on a closed queue, and answers 429 or 500 only if its job never entered |
| `Answers.ThrottledExactly` | pkg/api/server.go:134-139 | a submission is throttled exactly if the queue is at its limit when it arrives |
| `Answers.QueuedRecordIsSubmitted` | pkg/api/server.go:145-157 | in every run a QUEUED record is, field by field, the one its handler saved |
| `Answers.RunningRecordIsTaken` | pkg/worker/worker.go:126-137 | in every run a RUNNING record is, field by field, that of the submitted job on the host that took it, with the compilation it got |
| `Submissions.ActiveJobsIsLoad` | pkg/worker/pool.go:101-115 | activeJobs is the number of workers in the counted region, and at most the concurrency |
| `Submissions.TotalJobsIsTaken` | pkg/worker/pool.go:89-102 | in every run totalJobs plus the workers about to count is the number of jobs ever taken from the queue |
| `Submissions.AtMostOneMoreJob` | pkg/worker/pool.go:80-99 | after stop is requested each worker takes at most one more job, and only if it was already polling |
| `Submissions.StopLeavesNothingRunning` | pkg/worker/pool.go:121-134 | when Stop returns all workers have exited, activeJobs is 0 and every job ever dequeued has a terminal record |
| `Shutdown.FlagsAreHistory` | pkg/worker/pool.go:121-129 | stop, cancellation and closing are in force exactly once they were asked for |
| `Shutdown.ExitedMeansShutdown` | pkg/worker/pool.go:81-99 | in every reachable state a worker that has left means Stop was requested, the context cancelled, or the queue closed and drained |
| `Shutdown.NobodyLeavesInService` | pkg/worker/pool.go:91-93 | in every run without a stop, a cancellation or a drained closed queue, all workers are still in their loops |
| `Shutdown.ExitedExactly` | pkg/worker/pool.go:81-99 | in every run a worker has left its loop exactly if it saw the stop or its Dequeue failed; a poll that runs out never ends it |
| `Shutdown.IdleChoice` | pkg/worker/pool.go:81-89 | at the top of its loop a worker leaves exactly if Stop or cancellation is in force, else it polls |
| `Shutdown.PollingChoice` | pkg/queue/memory_queue.go:52-62 | a poll may run out at any time and leads back to the loop; it fails exactly if the context is cancelled or the queue closed and drained; it succeeds exactly with the head |
| `Shutdown.HeadCanBeTaken` | pkg/worker/pool.go:88-99 | while the pool is in service, a worker between two jobs can take the head of the queue in at most two steps |
| `Shutdown.WorkerGoesOn` | pkg/worker/pool.go:80-116 | no worker is ever stuck: in every reachable state each one that has not left its loop has a step to take |
| `Shutdown.StoppingWorkersEnd` | pkg/worker/pool.go:80-116 | once Stop is requested every step of a worker brings it closer to its end: it finishes its job, takes one more at most, and leaves |
| `Lifecycle.StepKeepsInv` | pkg/worker/pool.go:76-118 | every step of every handler and worker keeps the system invariant |
| `Lifecycle.RecordMoves` | pkg/worker/worker.go:126-137 | one effect of ProcessJob changes only the record of its own submission, along one edge; the stored record is the RUNNING one from its save up to the final save |
| `Pipeline.ConfiguredIsPositive` | pkg/api/server.go:43-45 | the configurations the system can start with are exactly those with positive limits |
| `Pipeline.ConfigDefaults` | pkg/worker/pool.go:38-41 | limits that are asked for are kept, missing ones are 500, 10000 and 4 |
| `Pipeline.SendingFollowsSelect` | pkg/queue/memory_queue.go:37-44 | each of the four ways a sending handler can go on is enabled if and only if Enqueue's select can end that way, the panic of a closed channel included, and leaves the queue as it does |
| `Backpressure.DepthIsBounded` | pkg/api/server.go:134-176 | with at most n handlers between depth check and enqueue, depth plus those handlers never exceeds MaxQueueDepth - 1 + n, nor depth the channel's capacity |
| `Backpressure.DepthIsReached` | pkg/api/server.go:134-139 | that bound is exact: for every limit, capacity and n some run reaches the smaller of MaxQueueDepth - 1 + n and the capacity |
| `Topics.TopicFollowsOneTrace` | pkg/worker/pool.go:89-115 | in every run the worker events on a topic are a prefix of one ProcessJob trace of the submitted job, all of it once finished |
| `Topics.TopicInv` | pkg/worker/worker.go:99-266 | the worker events on a topic are exactly the events of the effects carried out so far, and QUEUED is published at most once |
| `Topics.QueuedIsInserted` | pkg/api/server.go:178-183 | in every run a topic is the worker's events with QUEUED inserted after those published before the handler's announcement |
| `Topics.UnannouncedTopic` | pkg/api/server.go:173-183 | without the announcement a topic carries the worker's events alone |
| `Topics.QueuedFirstExactly` | pkg/api/server.go:173-183 | QUEUED is the first event of its topic if and only if no worker published before the handler, so whenever the handler publishes before a worker takes the job |
| `Topics.TopicIsShort` | pkg/api/server.go:178-183 | a topic carries at most 2n + 4 events for n tests, in every run |
| `Topics.NothingAfterTerminal` | pkg/worker/worker.go:255-268 | no worker publishes on a topic after its terminal event, in every run |
| `Gateway.RunsProject` | pkg/api/websocket.go:25-119 | every run of the whole system is a run of the pipeline and a run of the bus |
| `Gateway.PublishedIsTopic` | pkg/events/memory_bus.go:24-53 | what the bus carries on a topic is exactly what handlers and workers publish there |
| `Gateway.ChannelsInv` | pkg/api/websocket.go:65-71 | in every run each reader in its loop has a channel of its own, of its own submission, not yet cleaned up |
| `Clients.FrameDiscipline` | pkg/api/websocket.go:95-117 | every client is sent at most one terminal event, nothing but a close frame after it, and a close frame only right after it (section 5.5.1 of RFC 6455); a terminal event was sent exactly to the readers that are done |
| `Clients.TerminalFramesAreTrue` | pkg/api/websocket.go:45-63 | every terminal frame in every run agrees with the stored record: to a client that subscribed it is the event announced with that record, to any other the record itself; the two differ only in the test counts of FAILED |
| `Clients.PublicationIsLive` | pkg/worker/worker.go:241-266 | whenever a terminal event is published, the record it announces is already stored |
| `Delivery.ReadersMoveOn` | pkg/api/websocket.go:45-119 | a reader only moves on: same submission, same channel, and what was sent stays sent |
| `Departures.DepartedForGood` | pkg/api/websocket.go:91-111 | once a client has hung up, a write to it has failed, or its channel was seen closed, its handler is out of its loop in every continuation, its frames stay as they were, and no terminal event is among them |
| `Departures.OnlyDetachFollows` | pkg/api/websocket.go:71-94 | the only step such a handler has left is to unsubscribe |
| `Departures.HungUpExactly` | pkg/api/websocket.go:91-102 | a handler is out of its loop because the client hung up exactly if it did, and because its channel is closed exactly if it saw that |
| `Departures.SeenClosedMeansShutdown` | pkg/api/websocket.go:99-102 | a handler sees its channel closed only after the bus was shut down, and with nothing left in it |
| `Departures.RegisteredHaveReaders` | pkg/api/websocket.go:65-71 | in every run the channels registered on the bus are those of readers between subscription and clean-up: a handler that is gone leaves none |
| `Departures.ChannelsComeBack` | pkg/api/websocket.go:71-71 | the channel a reader was given is its own until it is gone, and then cleaned up |
| `Departures.ControlFramesExactly` | pkg/api/websocket.go:95-117 | a client is sent one ping for each heartbeat that was written, and a close frame exactly if writing it succeeded |
| `Delivery.ReadsAreTaken` | pkg/api/websocket.go:99-111 | the data frames of a reader are exactly the events taken from its channel, in order |
| `Delivery.StreamIsFaithful` | pkg/events/memory_bus.go:45-61 | the events sent to any client that subscribed, still connected or not, are an in-order subsequence of what is published after it subscribed; up to 64 events on an open bus they are a prefix of it, and all of it with what waits in its channel |
| `Delivery.SmallStreamsAreComplete` | pkg/events/memory_bus.go:60-60 | with 2n + 4 <= 64, so up to 30 tests, a subscriber loses nothing, however it reads, up to where it left |
| `Listeners.ClientRebuildsRecord` | pkg/api/websocket.go:99-117 | end to end: a client that subscribed before a worker took the job, with up to 30 tests and an open bus, and was sent the terminal event of a COMPLETED submission, rebuilds the stored record from its frames, wherever QUEUED came among them |
| `Topics.SilentUntilTaken` | pkg/worker/pool.go:89-108 | no worker publishes on a submission before it has taken the job |
| `Finales.MissedExactly` | pkg/api/websocket.go:45-71 | a client that sat between store check and subscription from terminal save to terminal event, or whose channel was full or closed at that event, never gets a terminal frame; every other client has got it, will find it in its channel or the store, or has disconnected |
| `Finales.HopelessFrom` | pkg/api/websocket.go:89-119 | a client that has missed the terminal event is never sent one, in any continuation |
| `Finales.LateComersAreTold` | pkg/api/websocket.go:45-63 | whoever connects or checks after the terminal save gets exactly one frame, the stored record, or is gone because that write failed; nobody is left to wait |
| `Finales.StoreAnswersInFull` | pkg/api/websocket.go:45-63 | in every run a client answered without a subscription was sent exactly one frame, which shows the stored record field by field |
| `Finales.SavedBeforeEnding` | pkg/worker/worker.go:241-255 | at every terminal event the stored record is terminal and the event repeats it |
| `Finales.EndsOnce` | pkg/worker/worker.go:255-266 | at most one terminal event is published for a submission in any run |
| `Finales.SmallJobsFindRoom` | pkg/events/memory_bus.go:45-51 | with up to 30 tests no channel is full at the terminal event: only the window or a closed bus can keep it from a subscriber |
| `Scenarios.EverySubmissionCanFinish` | pkg/worker/pool.go:89-115 | every job on every host has a run that carries it to its final record |
| `Scenarios.QueuedComesAnywhere` | pkg/api/server.go:173-183 | for every job, every host and every point of the trace some run publishes QUEUED there, late or after the terminal event |
| `Scenarios.EverySubmissionCanBeRefused` | pkg/queue/memory_queue.go:27-33 | every submission has a run in which Enqueue turns it away after its record was saved |
| `Scenarios.EveryJobCanLeaveAClientWaiting` | pkg/api/websocket.go:45-65 | the window is real: for every job on every host some run leaves a connected client without the terminal event for good |
| `Attendance.EveryJobCanBeFollowed` | pkg/api/websocket.go:65-117 | every job on every host has a run in which a client subscribes before the job is taken and is sent its terminal event; with up to 30 tests, if it completes, that client rebuilds the record |
| `Worker.ProcessJob` | pkg/worker/worker.go:21-269 | for every job and host the method's effects are `Process`, and it reports exactly the panic it recovered from, the backend's or its own on nil; a nil job does nothing |
| `Worker.FailSubmission` | pkg/worker/worker.go:271-303 | saves and then publishes one FAILED record |
| `Worker.RunTest` | pkg/worker/worker.go:157-199 | one test on the shared request: execute, turn an error into SYSTEM_ERROR, mask a failed hidden test; the workspace part of the request is untouched |
| `Worker.TestLoop` | pkg/worker/worker.go:139-230 | the loop's results, events and totals are those of the tests up to the first panic |
| `Worker.Accumulate` | pkg/worker/worker.go:173-217 | one pass keeps the running totals equal to verdict, peak, sums and count of all results so far |
| `Worker.RunAndFinish` | pkg/worker/worker.go:117-268 | the test phase with its final save, event and clean-up, or its recovery |
| `Worker.CompileAndRun` | pkg/worker/worker.go:96-115 | the compile phase and what follows it, for every answer of the compiler |
| `Worker.Overall` | pkg/worker/worker.go:215-217 | the overall verdict is that of the first test not accepted, ACCEPTED if there is none |
| `Worker.Peak` | pkg/worker/worker.go:174-176 | the peak is the largest of the tests' peaks, never below zero |
| `Worker.RunTests` | pkg/worker/worker.go:145-200 | one result per test in order with index i + 1, stopping early exactly on a panic |
| `Traces.TraceInGrammar` | pkg/worker/worker.go:97-269 | every trace of every job on every host is a word of the event grammar |
| `Traces.EveryWordHappens` | pkg/worker/worker.go:97-269 | the grammar is exact: every word is the trace of some host |
| `Traces.OneTerminalEventLast` | pkg/worker/worker.go:35-60 | exactly one terminal event, the last, among at most 2n + 3 events, whatever errs or panics |
| `Outcomes.ProcessEnds` | pkg/worker/worker.go:241-266 | every trace has one terminal save, directly followed by the event that announces that record, and nothing but clean-up after it; before it one RUNNING save if it is COMPLETED, at most one if FAILED |
| `Outcomes.CompletedRecord` | pkg/worker/worker.go:232-241 | a COMPLETED record lists every test in order; its verdict is the first failure's; ACCEPTED exactly when passed = total; sums and peak are those of its results |
| `Reports.RecordShowsAnswers` | pkg/worker/worker.go:157-200 | item i of a COMPLETED record shows the selected backend's answer to the i-th test, asked with that test's input and expected output: each figure and each output in its own field, an error as SYSTEM_ERROR, the output of a failed hidden test kept back |
| `Reports.EventsSay` | pkg/worker/worker.go:99-266 | every event on every trace, field by field: PASSED and FAILED carry the item of that very test and its figures, COMPLETED and the final FAILED those of the record |
| `Reports.CompletedExactly` | pkg/worker/worker.go:62-241 | a job completes exactly if language and backend are found, Prepare succeeds with a context, the compiler lets it go on, and every test is answered |
| `Reports.CompletedSays` | pkg/worker/worker.go:126-135 | a COMPLETED record carries the job's id and language, the compilation it got, and no error |
| `Reports.FailedSays` | pkg/worker/worker.go:35-113 | a FAILED record says why: verdict, error text and compilation of what kept the job from its tests, or of the panic at the first test that was not answered |
| `Reports.RunningSaveSays` | pkg/worker/worker.go:126-137 | the RUNNING record a worker saves, field by field |
| `Reports.RunningComesFirst` | pkg/worker/worker.go:118-137 | RUNNING is published right before it is saved |
| `Outcomes.StreamRebuildsRecord` | pkg/worker/worker.go:139-266 | folding the complete event stream rebuilds the COMPLETED record, and the last event carries the same totals |
| `Masking.ItemShowsVisible` | pkg/worker/worker.go:180-199 | a result item tells two executions apart exactly when they differ visibly |
| `Masking.HiddenOutputStaysHidden` | pkg/worker/worker.go:145-241 | hosts that differ only in the output of failed hidden tests produce identical saves and events |
| `Masking.OnlyHiddenDiffers` | pkg/worker/worker.go:183-186 | conversely, without panics, equal results mean that no test differed visibly |
| `Engine.RunEngine` | pkg/engine/engine.go:26-113 | Run with its early returns equals its specification, outcome and calls to the backend, and leaves the request normalised |
| `Engine.RunBackend` | pkg/engine/engine.go:57-112 | the calls to a backend and their outcome, with the deferred Cleanup on every way out once Prepare has succeeded |
| `Reports.EngineReports` | pkg/engine/engine.go:26-113 | Run calls Prepare, Compile for a compiled language, Execute if that succeeded, and last Cleanup, and hands on, field by field, what the last but one answered |
| `Engine.EngineCalls` | pkg/engine/engine.go:58-70 | once Prepare succeeded the calls begin with it and end with Cleanup, with nothing but Compile and Execute between, whatever errs or panics; otherwise Prepare is the only call |
| `Engine.CleanupOnceIffPrepared` | pkg/worker/worker.go:88-94 | both pipelines call Cleanup exactly once if Prepare succeeded and never otherwise, counted over the calls they make |
| `Reports.CleanupPlace` | pkg/worker/worker.go:35-94 | once Prepare succeeded, the one Cleanup is the last effect, or, after a panic of the compiler or a test, comes right before the save and the event of the recovery |
| `Engine.AgreesUnlessNil` | pkg/engine/engine.go:26-113 | on every host where Run does not fall back, a one-test job and the same request agree (verdict with verdict, panic with the recovered panic, by value) if and only if nil meets both pipelines or neither |
| `Reports.SameReport` | pkg/engine/engine.go:101-112 | a request completed as a one-test job and judged by Run has the same verdict and exit code in both, and the same output unless the test keeps it back |
| `Engine.NilCompilationDisagrees` | pkg/engine/engine.go:86-86 | a backend that never panics or errs and compiles into nil: the worker completes the job as ACCEPTED, Run dereferences nil |
| `Engine.NilExecutionDisagrees` | pkg/worker/worker.go:162-174 | a backend whose Execute returns nil without an error: the worker records SYSTEM_ERROR, Run returns neither a result nor an error |
| `Engine.NilContextDisagrees` | pkg/worker/worker.go:157-159 | a backend whose Prepare returns nil without an error: the worker records SYSTEM_ERROR, Run judges the run |
| `Engine.FallbackAgreesOnFailure` | pkg/engine/engine.go:44-47 | where Run falls back, the two agree if and only if its own backend ends in SYSTEM_ERROR too |
| `Engine.FallbackDisagrees` | pkg/engine/engine.go:44-47 | whenever Run falls back, some backend behaviour makes the verdicts differ |
| `Engine.AgreementIsExact` | pkg/engine/engine.go:43-55 | nil is all that can come between the two, over all behaviours of the backends, if and only if Run does not fall back |
| `Requests.ExecutionRequest.Normalize` | pkg/models/request.go:37-76 | the in-place updates leave the normalised value |
| `Requests.JobDefaults` | pkg/queue/queue.go:46-68 | fills in missing limits and a missing sandbox, and nothing else |
| `Requests.NormalizationIsCanonical` | pkg/models/request.go:37-76 | the result is normal, exactly the normal requests are unchanged, and the language handler stays the same |
| `Requests.JobThenRequest` | pkg/queue/queue.go:46-68 | normalising the job and then its request equals normalising the request alone; tests and language stay as they are |
| `Requests.CanonicalIsFixed` | pkg/languages/language.go:48-65 | looking a language up before or after normalisation finds the same handler |
| `Requests.LanguagesFound` | pkg/languages/language.go:48-65 | the spellings each language is known by, up to case and surrounding spaces, and no others |
| `Requests.TrimsExactly` | pkg/languages/language.go:49-49 | trimming removes exactly the leading and trailing spaces of any text |
| `Sandboxes.SelectionIgnoresBehaviour` | pkg/sandbox/sandbox.go:48-82 | selection depends on platform and availability only |
| `Sandboxes.SelectionExactly` | pkg/sandbox/sandbox.go:48-82 | which backend a preference selects on which host, exactly |
| `Sandboxes.SelectTextSays` | pkg/sandbox/sandbox.go:54-80 | the error of a failed selection names its reason |
| `Buses.RunKeepsInv` | pkg/events/memory_bus.go:24-103 | after any operations every topic lists existing open channels of that topic, each once; a channel is registered exactly while never closed |
| `Buses.PublishIsSafe` | pkg/events/memory_bus.go:45-51 | in every run every channel Publish sends to is open and listed once |
| `Buses.CleanupRemovesItself` | pkg/events/memory_bus.go:64-83 | cleanup is idempotent, removes exactly its own channel and keeps the others' order |
| `Buses.DoubleCloseExactly` | pkg/events/memory_bus.go:89-103 | a channel is closed at most twice, and twice exactly if the bus was closed while it was subscribed and its cleanup ran too |
| `Buses.CloseThenCleanupPanics` | pkg/events/memory_bus.go:81-97 | from every state, Close and then the cleanup of a subscribed channel is that panic |
| `Buses.Delivery` | pkg/events/memory_bus.go:45-61 | after any subscription, whatever follows, the subscriber gets an in-order subsequence of what is published, and all of it up to 64 events |
| `Buses.SlowReadersKeepTheOldest` | pkg/events/memory_bus.go:45-51 | the bound is exact: without reading, the first 64 events are kept and every later one is dropped |
| `Buses.InboxWithin` | pkg/events/memory_bus.go:45-51 | a channel never delivers more than was published on its topic |
| `Fanouts.SendsAreSafe` | pkg/events/memory_bus.go:33-51 | fan-outs of several publishers interleaved under the read lock: every send goes to an open, listed channel of its topic, once per Publish |
| `Fanouts.ChannelsSeeOneOrder` | pkg/events/memory_bus.go:45-51 | each channel fares under interleaved fan-outs exactly as if every Publish were one step, taken when it reaches that channel |
| `Fanouts.PublishersKeepTheirOrder` | pkg/events/memory_bus.go:24-53 | of each publisher a subscriber is sent an in-order subsequence, and while subscribed to an open bus everything up to the one event on its way |
| `Fanouts.InterleavedDelivery` | pkg/events/memory_bus.go:45-61 | what a subscriber receives under interleaved fan-outs is an in-order subsequence of what reaches its channel, and all of it up to 64 events |
| `Fanouts.ReceivedInOrder` | pkg/events/memory_bus.go:24-61 | what a subscriber has received or has waiting is, publisher by publisher, an in-order subsequence of what that publisher published, and all of it up to the one event on its way while nothing was dropped |
| `EventBus.MemoryEventBus.Publish` | pkg/events/memory_bus.go:24-53 | the fan-out loop over shared channels does what the value model does |
| `EventBus.MemoryEventBus.Subscribe` | pkg/events/memory_bus.go:56-61 | a fresh channel joins the end of its topic's list |
| `EventBus.MemoryEventBus.Cleanup` | pkg/events/memory_bus.go:64-83 | the filter loop refines the model's cleanup, and panics exactly on a channel that is closed already |
| `EventBus.MemoryEventBus.CloseBus` | pkg/events/memory_bus.go:89-103 | the nested loops close every registered channel once, without a panic |
| `EventBus.MemoryEventBus.Receive` | pkg/api/websocket.go:99-102 | a receive takes the oldest event of the shared channel as the value model does, and tells a drained closed channel from one that blocks |
| `EventBus.Channel.TrySend` | pkg/events/memory_bus.go:46-50 | a non-blocking send appends, or drops the new event when 64 are waiting |
| `Queues.MemoryQueue.Send` | pkg/queue/memory_queue.go:35-44 | Enqueue's select: appended and within capacity, or refused with the queue unchanged, or the panic of a closed channel |
| `Queues.MemoryQueue.Dequeue` | pkg/queue/memory_queue.go:48-63 | takes the head and nothing else, or reports timer, cancellation or a closed and drained queue |
| `Queues.MemoryQueue.QueueDepth` | pkg/queue/memory_queue.go:66-70 | the number of waiting jobs |
| `Queues.MemoryQueue.CloseQueue` | pkg/queue/memory_queue.go:73-81 | closes and keeps the waiting jobs |
| `Stores.Record.Append` | pkg/worker/worker.go:200-200 | Go's append: in place while capacity lasts, otherwise into a fresh array |
| `Stores.CopyRecord` | pkg/store/memory_store.go:34-38 | equal contents; a private array for a non-empty slice, the very same slice for an empty one |
| `Stores.MemoryStore.SaveState` | pkg/store/memory_store.go:25-41 | the store now shows the record's value under its id and nothing else changed |
| `Stores.MemoryStore.GetState` | pkg/store/memory_store.go:44-59 | a fresh record with the value last saved, or nothing for an unknown id |
| `Stores.Interleave` | pkg/store/memory_store.go:25-59 | after any interleaving of saves, in-place appends and reads, on shared arrays, every read shows exactly what was visible at the last save before it |
| `Stores.AppendToEmptyReadLeaks` | pkg/store/memory_store.go:53-57 | the sharing is real: appending to a read of an empty record would overwrite the worker's result |
| `Buffers.BoundedBuffer.Write` | pkg/sandbox/watchdog.go:29-49 | after any writes the buffer holds exactly the first bytes of the stream up to the cap, its length is counted, and the flag is the overflow of the history |
| `Buffers.Capture` | pkg/sandbox/watchdog.go:29-70 | the three observers after a list of writes |
| `Buffers.OverflowsExactly` | pkg/sandbox/watchdog.go:36-46 | the flag holds exactly if bytes were lost, or the stream filled the buffer and the last write was empty |
| `Buffers.OverflowMeansLoss` | pkg/sandbox/watchdog.go:36-46 | the flag means loss if and only if the stream did not fill the buffer exactly and end with an empty write |
| `Buffers.ChunkingIsIrrelevant` | pkg/sandbox/watchdog.go:29-49 | how a stream was cut into writes never matters to the captured text, and to the flag exactly through such a last empty write |
| `Buffers.EmptyWriteOverflows` | pkg/sandbox/watchdog.go:44-46 | every stream that fills the buffer meets the exception: an empty write after it sets the flag though nothing was lost |
| `Verdicts.Judge` | pkg/sandbox/docker.go:169-209 | each backend's branch chain over its two buffers is the decision function |
| `Verdicts.AcceptedMeansPrinted` | pkg/sandbox/native_linux.go:264-278 | in all three backends ACCEPTED means the entire output, not just its captured part, is as expected and within the cap, with a clean exit in time |
| `Verdicts.VerdictsAreJustified` | pkg/sandbox/native_linux.go:264-278 | what each verdict certifies of the run, whichever backend gave it |
| `Verdicts.NativeMeans` | pkg/sandbox/native_linux.go:265-278 | the exact condition of every verdict of the native chain: MEMORY_LIMIT_EXCEEDED exactly if in time and OOM-killed or over memory |
| `Verdicts.DockerMeans` | pkg/sandbox/docker.go:193-209 | the exact condition of every verdict of the docker chain: MEMORY_LIMIT_EXCEEDED exactly for an OOM kill |
| `Verdicts.DevMeans` | pkg/sandbox/dev_process.go:132-143 | the exact condition of every verdict of the development chain; memory plays no part |
| `Verdicts.CleanRunIsAccepted` | pkg/sandbox/dev_process.go:132-143 | conversely a clean run that loses no output is ACCEPTED, in all three backends, if and only if its output is as expected and its buffers raise no false alarm |
| `Verdicts.ChainsAgreeOnAccepted` | pkg/sandbox/native_linux.go:265-278 | the three differently ordered chains agree on ACCEPTED for comparable observations |
| `Verdicts.ChainsAgreeExactly` | pkg/sandbox/docker.go:193-209 | they agree on every verdict if and only if output was not truncated on a late or failed run and the run did not use exactly the limit with a kill code |
| `Verdicts.TrimRight` | pkg/sandbox/docker.go:206-206 | removes exactly the trailing line ends |
| `Affinity.CorePool.AllocateNextCore` | pkg/sandbox/affinity.go:14-26 | one allocation: the next core, or core 0 and no change on a single CPU |
| `Affinity.AllocateMany` | pkg/sandbox/affinity.go:14-26 | k allocations from a fresh pool go round-robin |
| `Affinity.CountIsFair` | pkg/sandbox/affinity.go:23-24 | after k allocations each core was given k/n times, once more if it is below k mod n |
| `Affinity.LoadsAreBalanced` | pkg/sandbox/affinity.go:23-24 | the counts of any two cores differ by at most one |
| `Affinity.WindowIsPermutation` | pkg/sandbox/affinity.go:14-26 | every n consecutive allocations give each core exactly once |

## Left out

- The Redis queue, bus and store: wrappers over a server whose behaviour is not part of this model.
- Process launching, cgroup files, Docker calls and `sched_setaffinity`: a run is an arbitrary observation record; the way docker.go and native_linux.go obtain the exit code is part of that observation.
- HTTP routing, JSON, the WebSocket library (upgrade, ping timing, its automatic reply to a client's close frame) and a failing `json.Marshal`: only the order of store, queue and bus calls and of written frames is kept.
- The checks of handleSubmissions before the depth check: handlers may submit any job, which includes the ones those checks let through.
- Metrics, audit logging, seccomp lists, `cmd/*` and scripts: nothing feeds back into the modelled state.
- Timestamps, real time and floating-point rounding: times are reals, timers and `select` are arbitrary choices.
- Liveness: only safety over finite runs is stated, since `select` may keep choosing the poll timer.
- Submit handlers, the worker pool and WebSocket handlers are processes of a transition system over values rather than classes: their concurrency is the point, and their shared objects have class models of their own. Stop and Start are called once each, Start first.
- Submission ids are fresh; panics come from Prepare, Compile and Execute, and from nil they return; Cleanup neither fails nor panics.
- The answers of the sandbox are fixed when a job is taken and carried out step by step, which is the same to every observer.
- `MemoryStore.Close`, which forgets every record at shutdown.
- EventBus.MemoryEventBus.Publish: one call at a time on the heap; the interleaving of two calls under the read lock is in `Fanouts`, over values.
- Buses.Delivery: Publish as one step; `Fanouts.ChannelsSeeOneOrder` shows that a channel cannot tell. The whole system is built on the one-step form, where all readers see the same order.
- Prepare and Compile do not look at the test input or the expected output of a request (`Sandboxes.Workspace`): true of the three backends, and what lets a request and a one-test job be compared.
- Requests.NormalizationIsCanonical: case folding is ASCII, so an unknown language may keep capitals of other scripts; no registered name or alias has any.
- Affinity.CorePool.AllocateNextCore: the counter is unbounded, so its overflow after 2^63 allocations is not modelled, nor a CPU count that changes.
- Buffers.BoundedBuffer.Write: the byte count is unbounded.
- Finales.MissedExactly: the panic of a reader's cleanup after the bus was closed appears as a second close of its channel; the reader counts as gone either way.
