# Verified models of the wings-control sidecar

The sidecar in front of an inference engine admits requests through two gates and a queue, relays
token streams, watches the engine's health and the cluster's heartbeats, restarts its children, and
assembles configuration and start scripts.  This project models the small state machines that do
this in Dafny and proves what they guarantee for every run: every interleaving, chunking, clock
reading, jitter, probe history and schedule.

Each model has the same shape.  A `Step` (or fold) on values says what one atomic piece of the
program does; a class or a loop in the form of the source is proved to compute exactly that; the
theorems are about whole runs of the steps.  Where the obvious property of the code is false, the
project proves exactly when it holds.

| file | models |
|---|---|
| `Queueing.dfy`, `GateOrder.dfy`, `ProxyConfig.dfy` | the two-gate admission controller; order and progress at it over whole runs; its capacities over all workers |
| `StreamCollector.dfy`, `NonBlocking.dfy`, `RagStream.dfy` | the two-level collector's tasks and their queues; the collector over raw responses |
| `SseLines.dfy`, `NoiseFilter.dfy` | line reassembly of event streams; the stdout/stderr line filter |
| `StreamRelay.dfy`, `SendRetry.dfy` | the buffering stream relay; sending with retries |
| `HealthRouter.dfy` | the health state machine and the sglang penalty score |
| `Monitor.dfy`, `Worker.dfy` | the master's node table; the worker's heartbeats against it on one clock |
| `Supervisor.dfy` | restarting children with exponential backoff |
| `ConfigMerge.dfy`, `ShellQuote.dfy` | deep merging of configuration layers; single-quote escaping |
| `Common.dfy` | shared definitions |

## What the code does that its documentation does not say

- Queue: with QUEUE_OVERFLOW_MODE `block` and a policy other than `drop_oldest`, an arrival can be
  left waiting in the queue beside a free ticket (`GateOrder.StrandingIff`), newcomers can be admitted
  past it (`GateOrder.BargingIff`), and later requests can be served before earlier ones
  (`GateOrder.OutOfTurnIff`).
- Queue: with any mode other than `block`, an arrival that finds the queue full of timed-out entries is
  rejected although nobody is waiting (`GateOrder.RejectedForNobodyIff`); under `drop_oldest` the queue
  is emptied and the arrival rejected all the same (`GateOrder.RejectedIff`).
- Quotas: the per-worker quotas add up to the total only if every worker knows its index; with
  WORKER_INDEX at its default of -1 the remainder is lost (`ProxyConfig.OneLostOfThree`,
  `ProxyConfig.UnindexedWorkersLoseRemainder`).
- Relay: at the default settings (FAST_PATH_BYTES 128, FIRST_FLUSH_BYTES 256) the fast path can
  overtake buffered bytes (`StreamRelay.DefaultsReorder`, `StreamRelay.OrderPreservedIff`).
- Event lines: `break` on `[DONE]` leaves only the loop over one chunk, so events after it are dropped
  or not depending on where the chunks were cut (`SseLines.DoneDependsOnTheCut`,
  `SseLines.ChunkingIndependence`).  An empty chunk
  while nothing is buffered would raise IndexError (`SseLines.KeepsTheTail`); httpx yields only
  non-empty chunks, so this takes another source of chunks.
- Health: the field `consecutive_timeouts` counts all read timeouts since the last success, whatever
  failed in between; it is what its name says only if nothing else failed after one of them
  (`HealthRouter.TimeoutsNotInARow`, `HealthRouter.TimeoutsAreConsecutiveIff`).
- Heartbeats: a removed node stays removed, because the worker registers only once and heartbeats of
  unknown nodes are ignored (`Monitor.RemovalIsPermanent`).
- Heartbeats: a registration attempt the master recorded but whose reply was lost starts the clock of
  the missed heartbeats long before the first heartbeat (`Worker.FiveAfterLostReplies`).
- Supervisor: the first exit of a child counts as a crash however long the child ran, since the main
  loop's own start records no time; this is the only exit that is misjudged
  (`Supervisor.MisjudgedIff`).
- Line filter: `write` is documented to return 0 when every line was filtered out; it returns the
  length of its argument (`NoiseFilter.FilteredLineCounts`, `NoiseFilter.ZeroWhenFilteredIff`).
- Merging is not associative when a middle layer replaces a dictionary by another value
  (`ConfigMerge.NotAssociative`, `ConfigMerge.AssociativeIff`).

## Model

| member | source | states |
|---|---|---|
| `Queueing.TokenConservation` | wings_control/proxy/queueing.py:208-378 | after every run, per gate: free tickets + recorded holders + handed-over futures = capacity; requests admitted never exceed both capacities together; the queue stays within its bound |
| `Queueing.StepInv` | wings_control/proxy/queueing.py:208-378 | every event keeps token conservation, one outstanding acquire per task, and every pending future parked somewhere |
| `Queueing.OutcomesOverRuns` | wings_control/proxy/queueing.py:250-291 | after every run: an arrival is admitted to Gate-0 if and only if it has a free ticket, to Gate-1 if and only if only that one has, told that the queue is disabled if and only if there is neither ticket nor queue, suspended if and only if the queue is full under block without drop_oldest; and the ticket taken and recorded, the future queued or suspended last, or nothing changed, accordingly |
| `Queueing.AcquireMeaning` | wings_control/proxy/queueing.py:250-291 | the same in every state the invariants allow |
| `Queueing.ReleasesOverRuns` | wings_control/proxy/queueing.py:208-243 | after every run and in every configuration: a release hands its ticket to the first live queue entry and drops the dead ones before it, or empties the queue and frees the ticket; without a ticket it changes nothing |
| `GateOrder.FifoOverRuns` | wings_control/proxy/queueing.py:222-339 | when `put` cannot suspend: once a request was handed a ticket or dropped, no request that queued earlier is still waiting, and all waiters are in the queue in arrival order |
| `GateOrder.OutOfTurnIff` | wings_control/proxy/queueing.py:303-339 | some run serves or drops a request before one that queued earlier if and only if the policy is not drop_oldest, the mode is block, and queue and gates are non-empty |
| `GateOrder.OvertakingRun` | wings_control/proxy/queueing.py:332-335 | such a run, for every one of those configurations |
| `GateOrder.NoBarging` | wings_control/proxy/queueing.py:264-291 | when `put` cannot suspend: a newcomer is admitted directly only if nobody is waiting |
| `GateOrder.BargingIff` | wings_control/proxy/queueing.py:264-291 | some run admits a newcomer directly beside a live waiter if and only if the configuration is one of these |
| `GateOrder.ReleaseServesOldest` | wings_control/proxy/queueing.py:222-233 | a release with somebody waiting hands the ticket of its own layer to the oldest live waiter and changes no other request and no semaphore |
| `GateOrder.ArrivalDropsOldest` | wings_control/proxy/queueing.py:303-330 | an arrival ends at most one other wait, only at a full queue under drop_oldest, and it is the oldest live one |
| `GateOrder.TicketsAllOut` | wings_control/proxy/queueing.py:222-243 | when `put` cannot suspend: while anybody waits no ticket is free; each is with a recorded holder or handed over |
| `GateOrder.WaiterCanBeServed` | wings_control/proxy/queueing.py:208-243 | when `put` cannot suspend and the gates have any capacity: from every reachable state, releases and resumptions of the requests holding tickets alone lead to any given waiter being handed one |
| `GateOrder.SuspendedInOrder` | wings_control/proxy/queueing.py:335 | in every state and for every event: arrivals suspended in `put` form one line that only a suspending arrival joins, at the end, and only the head leaves, to queue or to join the end again |
| `GateOrder.NoLostWakeup` | wings_control/proxy/queueing.py:335 | over every run nobody stays suspended in `put` beside a free place for which nobody has been woken |
| `GateOrder.WaitsForItsTurn` | wings_control/proxy/queueing.py:222-233 | in any configuration and whatever happens in between: a live waiter at place p of the queue, from 0, no longer waits after any run with more than p releases by holders |
| `GateOrder.EveryWaitEnds` | wings_control/proxy/queueing.py:208-339 | when `put` cannot suspend: every wait ends after at most as many releases as the queue may be long |
| `GateOrder.StepAdvances` | wings_control/proxy/queueing.py:208-339 | every event keeps a waiter in its place or moves it up, and a release by a holder always moves it up |
| `GateOrder.ServedWhenOthersFinish` | wings_control/proxy/queueing.py:208-243 | the same from every state the invariants allow, by the length of the queue |
| `GateOrder.RejectedIff` | wings_control/proxy/queueing.py:303-330 | after every run an arrival gets the queue-full 503 if and only if there is no ticket, the queue is full, the mode is not block and, under drop_oldest, nobody is left to drop; then drop_oldest has emptied the queue all the same |
| `GateOrder.RejectedForNobodyIff` | wings_control/proxy/queueing.py:303-330 | an arrival can be rejected with a full queue while nobody is waiting if and only if there is a queue and the mode is not block |
| `GateOrder.StrandingIff` | wings_control/proxy/queueing.py:303-339 | some run leaves a live queued waiter beside a free ticket if and only if the policy is not drop_oldest, the mode is block, and queue and gates are non-empty |
| `GateOrder.StrandingRun` | wings_control/proxy/queueing.py:324-335 | such a run, for every one of those configurations |
| `Queueing.FirstLive` | wings_control/proxy/queueing.py:224-227 | the entry the popping loop stops at: the first whose future is still pending |
| `Queueing.QueueGate.constructor` | wings_control/proxy/queueing.py:114-134 | the new gate satisfies the invariant with all tickets free |
| `Queueing.QueueGate.Acquire` | wings_control/proxy/queueing.py:250-291 | outcome and whole new state are those of the acquire step, the invariant is kept, and both mean what `OutcomesOverRuns` says |
| `Queueing.QueueGate.Release` | wings_control/proxy/queueing.py:208-243 | the same for release; a release without an acquire changes nothing |
| `Queueing.QueueGate.PopToLive` | wings_control/proxy/queueing.py:224-227 | the loop takes exactly the entries up to the first live one off the queue and wakes one suspended putter for each |
| `Queueing.QueueGate.HandleQueueFull` | wings_control/proxy/queueing.py:303-330 | the overflow policy drops the oldest live waiter or decides between rejecting and suspending |
| `Queueing.QueueGate.Enqueue` | wings_control/proxy/queueing.py:332-339 | a future goes to the end of the queue, or its task suspends behind a full one |
| `Queueing.QueueGate.TryDirectGate` | wings_control/proxy/queueing.py:365-378 | admission exactly when the gate exists and has a ticket |
| `Queueing.QueueGate.WaitTimesOut` | wings_control/proxy/queueing.py:341-353 | a timeout leaves a dead entry and moves no ticket; the invariant is kept |
| `Queueing.QueueGate.InheritOccupy` | wings_control/proxy/queueing.py:355-363 | the resumed waiter is recorded as holder of the layer it was handed; the invariant is kept |
| `Queueing.QueueGate.PutResumes` | wings_control/proxy/queueing.py:335 | a woken putter queues, or suspends again if the queue filled up in between; the invariant is kept |
| `ProxyConfig.QuotaConservation` | wings_control/proxy/proxy_config.py:95-115 | for every total and positive worker count the quotas of workers 0..W-1 add up to exactly the total and differ by at most one |
| `ProxyConfig.QuotaOrder` | wings_control/proxy/proxy_config.py:109-115 | the first workers get the extra ones; an index outside 0..W-1 gets the share rounded down, and without workers the total |
| `ProxyConfig.UnindexedWorkersLoseRemainder` | wings_control/proxy/proxy_config.py:91-115 | quotas of workers that do not know their index add up to the total if and only if the worker count divides it |
| `ProxyConfig.OneLostOfThree` | wings_control/proxy/proxy_config.py:87-115 | an instance: three workers that do not know their index share 1023 of the default 1024 |
| `ProxyConfig.CapacityConservation` | wings_control/proxy/proxy_config.py:129-140 | gate capacities over all workers add up to max(GLOBAL_PASS_THROUGH_LIMIT, WORKERS) |
| `ProxyConfig.GlobalInFlightBound` | wings_control/proxy/proxy_config.py:118-140 | whatever run each worker's gate goes through, tickets out in the whole pod never exceed that number |
| `ProxyConfig.PlacesConservation` | wings_control/proxy/proxy_config.py:130 | the queues of all workers together have exactly GLOBAL_QUEUE_MAXSIZE places |
| `ProxyConfig.WorkerStrandsIff` | wings_control/proxy/proxy_config.py:129-140 | a worker can strand a request if and only if the policy is not drop_oldest, the mode is block and it has a share of the queue |
| `StreamCollector.OutputIsPrefix` | wings_control/rag_acc/stream_collector.py:27-194 | for every interleaving the output is a beginning of chunk 0's events, chunk 1's, ..., the combined answer, [DONE], and all of it at the end; the combine prompt is the join of all complete chunk texts |
| `StreamCollector.PromptOfRun` | wings_control/rag_acc/stream_collector.py:122-126 | in every run that asks for the combined answer the prompt is the complete chunk texts in order, each at the offset the earlier ones give, a blank line between each and the next, and nothing else |
| `StreamCollector.JoinSeparates` | wings_control/rag_acc/stream_collector.py:126 | length and every position of the joined prompt |
| `StreamCollector.SeparatedIsUnique` | wings_control/rag_acc/stream_collector.py:126 | only one string has that length and those positions |
| `StreamCollector.TextsConcat` | wings_control/rag_acc/stream_collector.py:87 | the text of a response is the texts of its parts one after the other |
| `StreamCollector.CombineStartedIff` | wings_control/rag_acc/stream_collector.py:164-170 | over every run the flag that ends the delays is set if and only if the monitor is done and the answer has an event |
| `StreamCollector.AllTasksFinished` | wings_control/rag_acc/stream_collector.py:42-45 | when the stream has ended every response has been read to its end and every queue is used up |
| `StreamCollector.StepInv` | wings_control/rag_acc/stream_collector.py:47-194 | every task's step keeps each queue a contiguous window of its response and the stream at the matching position |
| `StreamCollector.MonitorKeepsQueue` | wings_control/rag_acc/stream_collector.py:164-170 | the monitor leaves the combine queue as it found it and finishes once an item is there |
| `StreamCollector.SomeTaskCanGoOn` | wings_control/rag_acc/stream_collector.py:27-194 | no deadlock: before the end some task's step changes the state |
| `StreamCollector.BoundedWork` | wings_control/rag_acc/stream_collector.py:27-194 | no livelock: a schedule has at most as many effective steps as there is work left |
| `StreamCollector.StuckMeansDelivered` | wings_control/rag_acc/stream_collector.py:27-194 | a run nothing can continue has ended and delivered everything in order |
| `StreamCollector.CanBeCompleted` | wings_control/rag_acc/stream_collector.py:27-45 | every reachable state can be run to complete delivery |
| `StreamCollector.Collector.constructor` | wings_control/rag_acc/stream_collector.py:196-209 | the object starts in the initial state of every run |
| `StreamCollector.Collector.CollectSingleChunk` | wings_control/rag_acc/stream_collector.py:47-65 | the object stays in a state some run reaches; the buffer is the text of the events produced so far, and of the whole response once the done queue says so; the client output is untouched |
| `StreamCollector.Collector.CombineResults` | wings_control/rag_acc/stream_collector.py:113-135 | stays in a reachable state; the prompt it asks with is the complete chunk texts in order with a blank line between each and the next |
| `StreamCollector.Collector.MonitorCombineStart` | wings_control/rag_acc/stream_collector.py:164-170 | stays in a reachable state; the combine queue is what it was, and the monitor is done exactly when an item has been there |
| `StreamCollector.Collector.StreamChunkResults` | wings_control/rag_acc/stream_collector.py:172-186 | stays in a reachable state; the output only grows and remains a beginning of the expected one |
| `StreamCollector.Collector.StreamCombineResults` | wings_control/rag_acc/stream_collector.py:188-194 | the same for the combined answer |
| `StreamCollector.Collector.CollectAndStream` | wings_control/rag_acc/stream_collector.py:27-45 | the same for the whole client stream, which at its end has sent all of the expected output |
| `StreamCollector.Collector.Turn` | wings_control/rag_acc/stream_collector.py:27-194 | a turn of any task keeps the object in a reachable state and either changes nothing or leaves less work |
| `StreamCollector.Collector.Round` | wings_control/rag_acc/stream_collector.py:27-194 | before the end, a turn for every task always leaves less work |
| `StreamCollector.RunSchedule` | wings_control/rag_acc/stream_collector.py:27-194 | for every schedule the object goes through exactly the run of the model, and its output is a beginning of the expected one, all of it at the end |
| `StreamCollector.Deliver` | wings_control/rag_acc/stream_collector.py:27-45 | the event loop, giving each task its turn, terminates, and the client has received all chunk events in order, the combined answer and [DONE] |
| `RagStream.ClientSeesTheText` | wings_control/rag_acc/stream_collector.py:27-194 | end to end: neither the cutting of the responses into non-empty chunks nor the order in which the tasks run changes what a client has received at the end, if no event follows a [DONE] |
| `RagStream.ExpectedFromText` | wings_control/rag_acc/stream_collector.py:47-194 | the output a client is to receive depends only on the concatenated text of each response |
| `NonBlocking.EventTracksItems` | wings_control/rag_acc/non_blocking_queue.py:17-50 | after any operations in any order the event is set exactly when an item is there: no lost wake-up |
| `NonBlocking.GetThenPrepend` | wings_control/rag_acc/non_blocking_queue.py:36-50 | taking the first item and prepending it again is no change |
| `NonBlocking.NonBlockingQueue.Put` | wings_control/rag_acc/non_blocking_queue.py:17-20 | the item is last and the event set |
| `NonBlocking.NonBlockingQueue.Prepend` | wings_control/rag_acc/non_blocking_queue.py:48-50 | the item is first and the event set |
| `NonBlocking.NonBlockingQueue.GetOnce` | wings_control/rag_acc/non_blocking_queue.py:36-46 | the first item, or None and the event cleared |
| `SseLines.ChunkingIndependence` | wings_control/rag_acc/stream_collector.py:67-93 | for every text: all ways of cutting it into non-empty chunks give the same events if and only if no event line follows a [DONE] line |
| `SseLines.DoneDependsOnTheCut` | wings_control/rag_acc/stream_collector.py:73-80 | an instance of dependence: a [DONE] line and an event line give no event in one chunk and one event in two |
| `SseLines.KeepsTheTail` | wings_control/rag_acc/stream_collector.py:67-73 | for every chunking the generator fails exactly when an empty chunk arrives with nothing buffered; until then the lines it has processed are the complete lines of the text so far, they and the buffer together are that text, and the buffer holds no newline |
| `SseLines.LinesAndTail` | wings_control/rag_acc/stream_collector.py:71-72 | complete lines and tail make up the text, and the tail contains no newline |
| `SseLines.SplitIsTheText` | wings_control/rag_acc/stream_collector.py:71 | splitting a text into lines, with every line boundary splitlines knows, loses nothing |
| `SseLines.LineEnds` | wings_control/rag_acc/stream_collector.py:71 | a line ends behind its first break, a carriage return and a newline being one, or with the text |
| `SseLines.BreaksAre` | wings_control/rag_acc/stream_collector.py:71 | the ten code points that end a line |
| `SseLines.SpacesAre` | wings_control/rag_acc/stream_collector.py:74 | the code points that are stripped |
| `SseLines.StripIs` | wings_control/rag_acc/stream_collector.py:74 | stripping takes off exactly the blanks around a trimmed text |
| `SseLines.LineMeans` | wings_control/rag_acc/stream_collector.py:73-93 | whatever blanks, returns or newlines stand around it: a data line that is not [DONE] is an event if it parses, [DONE] stops, every other line is passed over |
| `SseLines.EventsInOrder` | wings_control/rag_acc/stream_collector.py:73-89 | one event for each event line, in order |
| `SseLines.CompleteConcat` | wings_control/rag_acc/stream_collector.py:71-72 | the lines processed for one more chunk are those the whole text has more, splitlines boundaries and CR LF pairs included |
| `SseLines.EventsOfText` | wings_control/rag_acc/stream_collector.py:73-93 | without events after [DONE] the events are those of the complete lines of the text |
| `SseLines.DoneLosesNothing` | wings_control/rag_acc/stream_collector.py:77-80 | stopping at [DONE] drops nothing if and only if no event follows it |
| `SseLines.UpToDone` | wings_control/rag_acc/stream_collector.py:79-80 | the events of a chunk are those of its lines before the first [DONE], or of all |
| `SseLines.ProcessLines` | wings_control/rag_acc/stream_collector.py:73-93 | the inner loop with its break yields the events of the lines before the first [DONE] |
| `SseLines.CutChunk` | wings_control/rag_acc/stream_collector.py:70-72 | lines handed on and tail kept; fails exactly on an empty list of lines |
| `SseLines.ProcessChunkResponse` | wings_control/rag_acc/stream_collector.py:67-93 | the outer loop computes the run the theorems are about |
| `NoiseFilter.EqualsBatch` | wings_control/utils/noise_filter.py:142-218 | for every sequence of writes, flushes and closes: what reached the stream is the batch filtering of the texts between flushes and of the complete lines since, and the buffer is the rest |
| `NoiseFilter.LinesConcat` | wings_control/utils/noise_filter.py:159-169 | splitting a text in two writes gives the same lines and tail as one |
| `NoiseFilter.LinesAreTheText` | wings_control/utils/noise_filter.py:161-169 | lines and tail together are the text: nothing but matching lines is lost |
| `NoiseFilter.TakeLine` | wings_control/utils/noise_filter.py:162-166 | the scan cuts at the first newline, and the rest is scanned in the same way |
| `NoiseFilter.KeptFirst` | wings_control/utils/noise_filter.py:168-169 | a line is dropped if it is noisy and kept unchanged if not, the others as before |
| `NoiseFilter.FilteredText` | wings_control/utils/noise_filter.py:187-191 | the tail is kept or dropped as one more line |
| `NoiseFilter.Scan` | wings_control/utils/noise_filter.py:160-169 | the scan terminates and leaves exactly the kept lines and the newline-free tail |
| `NoiseFilter.LineFilterIO.Write` | wings_control/utils/noise_filter.py:142-172 | new state of a write, and the count returned in each of the three cases |
| `NoiseFilter.ZeroWhenFilteredIff` | wings_control/utils/noise_filter.py:151-172 | a write to an open stream that passes nothing on returns 0, as documented, if and only if its text is empty |
| `NoiseFilter.FilteredLineCounts` | wings_control/utils/noise_filter.py:151-172 | an instance: a write of one noisy line passes nothing on and returns its length |
| `NoiseFilter.LineFilterIO.Flush` | wings_control/utils/noise_filter.py:175-193 | the tail is filtered as one more line and the buffer is empty |
| `NoiseFilter.LineFilterIO.Close` | wings_control/utils/noise_filter.py:196-218 | flush once, then closed for good |
| `StreamRelay.RelayCharacterisation` | wings_control/proxy/gateway.py:671-710 | for every chunking, timing, jitter and disconnect point: the output is the consumed input with at most one chunk moved forward, a fast-path chunk past whole chunks that together are longer than FAST_PATH_BYTES and shorter than FIRST_FLUSH_BYTES |
| `StreamRelay.OrderPreservedIff` | wings_control/proxy/gateway.py:600-710 | the settings under which every stream stays in order, in both directions |
| `StreamRelay.ReorderingRun` | wings_control/proxy/gateway.py:684-691 | two chunks that come out swapped, for every setting outside that condition |
| `StreamRelay.DefaultsReorder` | wings_control/proxy/proxy_config.py:52-71 | at the default settings a chunk of 129 bytes and then one of a single byte come out swapped |
| `StreamRelay.ResidueBound` | wings_control/proxy/gateway.py:628-706 | after every iteration the buffer is shorter than the largest dynamic threshold and, with delimiter flushing, holds no complete event |
| `StreamRelay.PassedOnIff` | wings_control/proxy/gateway.py:684-706 | after every run, what becomes of the next chunk: passed on by itself, passed on with everything held, or held, each exactly under its conditions, before the first packet and after |
| `StreamRelay.ThresholdIs` | wings_control/proxy/gateway.py:674-702 | the threshold is the larger of STREAM_FLUSH_BYTES and a quarter of the connection limit, and the jitter at most an eighth of it or one |
| `StreamRelay.DefaultThreshold` | wings_control/proxy/proxy_config.py:52-60 | 8192 and 1024 at the default settings |
| `StreamRelay.DelimAnywhere` | wings_control/proxy/gateway.py:621 | a delimiter is two newlines in a row anywhere in the buffer |
| `StreamRelay.StreamGen` | wings_control/proxy/gateway.py:652-710 | the generator's loop, with its continues and break, yields exactly the chunks the theorems are about |
| `SendRetry.SendWithFixedRetries` | wings_control/proxy/gateway.py:252-333 | for every outcome sequence: at least one and at most max(1, RETRY_TRIES) sends; every send before the last was a retriable exception or a streamed 502, 503 or 504, and if the last is too then all tries are used; it returns, with retry count sends - 1, exactly for a response, gives 502 exactly for a request error, re-raises exactly any other exception; exactly the responses received and not returned are closed; the code after the loop is unreachable |
| `SendRetry.LastSend` | wings_control/proxy/gateway.py:122-139 | the send the loop stops at: all before it are worth retrying, and it is not or tries are used up |
| `HealthRouter.RefinesHistory` | wings_control/proxy/health_router.py:322-368 | status, readiness, last success, failure counter, probe result and warm-up flag as closed forms of the probe history; the warm-up is started exactly once if any probe succeeded, never otherwise |
| `HealthRouter.HealthCode` | wings_control/proxy/health_router.py:333-468 | non-sglang: with k failures since the last success and give-up point N, status is -1 and the code 503 if and only if k >= N, the counter is min(k, N); before any success 201 or 502 by time alone |
| `HealthRouter.StartupCode` | wings_control/proxy/health_router.py:437-439 | before any success, for every engine: 201 until the grace period is over, 502 from then on |
| `HealthRouter.SuccessIs200` | wings_control/proxy/health_router.py:333-362 | status 200 and nothing else is a success, after any history |
| `HealthRouter.GiveUpPointExact` | wings_control/proxy/health_router.py:365-368 | the least failure count meeting both thresholds is max(1, FAIL_THRESHOLD, ceil(FAIL_GRACE_MS / HEALTH_TIMEOUT_MS)) |
| `HealthRouter.GiveUpAt` | wings_control/proxy/health_router.py:365-368 | least count in range that degrades, for any timeout |
| `HealthRouter.SglangCode` | wings_control/proxy/health_router.py:428-462 | sglang: 503 if and only if the last probe failed and silence, read timeouts since the last success, the decayed weights of the failures, or their accumulated time reach their limits, all of them functions of the history |
| `HealthRouter.ScoreClosedForm` | wings_control/proxy/health_router.py:398-420 | fail_score is the sum of the weights of all failures outside the PID grace, each times the decay factor to the number of successes since |
| `HealthRouter.AccumulatedForm` | wings_control/proxy/health_router.py:398-420 | accum_fail_ms is the weighted latencies of the failures outside the PID grace, decayed and truncated to whole milliseconds at each success |
| `HealthRouter.OneFailureScores` | wings_control/proxy/health_router.py:167-191 | after any history one failure costs 1 for a refused connection or a 503, 3/4 for a connect timeout, 1/4 for a read timeout outside the grace period, 1/2 for other request errors and other 5xx, and nothing otherwise |
| `HealthRouter.OneFailureTakes` | wings_control/proxy/health_router.py:404-420 | and that part of its latency, cut off at the probe timeout, in whole milliseconds rounded down |
| `HealthRouter.FailuresAddUp` | wings_control/proxy/health_router.py:404-420 | the costs of a run of failures of any kinds add up |
| `HealthRouter.RefusedNeeded` | wings_control/proxy/health_router.py:167-191 | refused connections or 503 alone use up a budget of n if and only if there are n |
| `HealthRouter.ConnectTimeoutsNeeded` | wings_control/proxy/health_router.py:182-183 | connect timeouts if and only if there are 4n/3, rounded up |
| `HealthRouter.ReadTimeoutsNeeded` | wings_control/proxy/health_router.py:184-185 | read timeouts outside the grace period if and only if there are 4n |
| `HealthRouter.OtherTroubleNeeded` | wings_control/proxy/health_router.py:186-190 | other request errors or other 5xx if and only if there are 2n |
| `HealthRouter.FreeOfCharge` | wings_control/proxy/health_router.py:191-207 | other statuses and excused read timeouts never do |
| `HealthRouter.GraceIsExact` | wings_control/proxy/health_router.py:194-207 | a read timeout of a live process no later than the grace period after the last success changes neither sum; one later, or with the process gone, adds a quarter to the score and of its latency to the time |
| `HealthRouter.SixRefusals` | wings_control/proxy/health_router.py:442-462 | at the default settings, within a minute of the last success: a backend that refuses connections is reported 503 from the sixth refusal on and 200 before |
| `HealthRouter.TimeoutsSinceSuccess` | wings_control/proxy/health_router.py:390-395 | consecutive_timeouts is the number of read timeouts since the last success |
| `HealthRouter.TimeoutsAreConsecutiveIff` | wings_control/proxy/health_router.py:390-395 | it is the number of read timeouts in a row if and only if no other failure has followed a read timeout since the last success |
| `HealthRouter.TimeoutsNotInARow` | wings_control/proxy/health_router.py:390-395 | an instance: a read timeout, a 503 and a read timeout count as two |
| `HealthRouter.GeometricBound` | wings_control/proxy/health_router.py:398-420 | with at most k failures in a row the score stays below k / (1 - decay) and the accumulated time below that many probe timeouts, forever |
| `HealthRouter.ScoreBudgetIff` | wings_control/proxy/health_router.py:398-420 | for every decay factor and budget: no history with at most k failures in a row uses up the score budget if and only if k / (1 - decay) is at most the budget |
| `HealthRouter.DefaultBudgetHolds` | wings_control/proxy/health_router.py:454-455 | at the default settings two failures in a row, however often, never use up the budget |
| `HealthRouter.DefaultCodeMeansSilence` | wings_control/proxy/health_router.py:442-462 | so such a backend is reported 503 if and only if the last probe failed and the last success is a minute old |
| `HealthRouter.ThreeFailuresSpendTheBudget` | wings_control/proxy/health_router.py:398-420 | two is the limit: a history with runs of three failures that does use it up |
| `HealthRouter.HealthState.AdvanceStateMachine` | wings_control/proxy/health_router.py:322-362 | observation and main state machine compute the model's step on the dictionary |
| `HealthRouter.HealthState.UpdateConsecutiveTimeouts` | wings_control/proxy/health_router.py:390-395 | the counter alone changes: zero on success, one more on a read timeout, kept on other failures |
| `HealthRouter.HealthState.HandleSuccessCase` | wings_control/proxy/health_router.py:398-401 | score and accumulated time decay, nothing else changes |
| `HealthRouter.HealthState.HandleFailureCase` | wings_control/proxy/health_router.py:404-420 | weight and scaled latency are added unless the PID grace applies |
| `HealthRouter.HealthState.HandleSglangSpecifics` | wings_control/proxy/health_router.py:371-387 | the sglang handlers together compute the model's penalty step |
| `HealthRouter.HealthState.TickObserveAndAdvance` | wings_control/proxy/health_router.py:283-312 | one observation computes the model's tick |
| `HealthRouter.MonitorLoop` | wings_control/proxy/health_router.py:283-312 | repeated observations leave the state the history theorems describe |
| `Monitor.MissedMeansSilence` | wings_control/distributed/monitor.py:67-138 | m > 0 missed heartbeats mean more than 45 + 30 (m - 1) s of silence, for every interleaving, and no listed node has reached 60 |
| `Monitor.RemovalNeedsSilence` | wings_control/distributed/monitor.py:118-138 | a node is deleted only after more than 1815 s of silence |
| `Monitor.RemovalIsPermanent` | wings_control/distributed/monitor.py:74-83 | without a new registration no later heartbeats or checks bring a removed node back |
| `Monitor.EntriesAreHeard` | wings_control/distributed/monitor.py:67-83 | over every run each entry holds the time and workload of the registration or last heartbeat the node was heard with |
| `Monitor.OneMoreEvent` | wings_control/distributed/monitor.py:67-83 | a registration leaves a known node alone and enters an unknown one, a heartbeat renews a known one and is ignored for an unknown one, and no other entry changes |
| `Monitor.SilentNode` | wings_control/distributed/monitor.py:118-138 | in the table after any run in which nothing is heard from a node, its count has grown by the checks that found it late, and it is gone if and only if that count reaches 60 |
| `Monitor.OwnChecks` | wings_control/distributed/monitor.py:123-132 | what happens to other nodes does not matter to a node: its entry is what the checks alone make of it |
| `Monitor.SilenceRemoves` | wings_control/distributed/monitor.py:118-138 | a silent node is out of the table after any run whose checks are at most `gap` apart and whose last one comes more than 59 periods after it became late |
| `Monitor.MonitorService.RegisterNode` | wings_control/distributed/monitor.py:67-72 | a known node is left alone, a new one starts with no missed heartbeat |
| `Monitor.MonitorService.UpdateHeartbeat` | wings_control/distributed/monitor.py:74-83 | time and workload are set and the counter cleared for known nodes only |
| `Monitor.MonitorService.CheckNodes` | wings_control/distributed/monitor.py:118-138 | the loop over a snapshot, deleting as it goes, checks every node exactly once |
| `Worker.NeverRemovedIff` | wings_control/distributed/worker.py:208-266 | worker and monitor on one clock, from registration on, over all interleavings: for any bound on failures in a row, overshoot of waits and delay of the first heartbeat, the worker is never removed if and only if its longest possible silence is at most 1815 s |
| `Worker.SevenFailuresAreTheLimit` | wings_control/distributed/worker.py:247-266 | with the first heartbeat within 40 s of registration and waits overshooting by at most 9.375 s: never removed if and only if no more than seven requests fail in a row |
| `Worker.FiveAfterLostReplies` | wings_control/distributed/worker.py:208-240 | if the first of 30 registration attempts was recorded and all replies were lost, the limit is five |
| `Worker.WorstRun` | wings_control/distributed/worker.py:247-266 | a run that does remove the worker, for all limits outside that condition |
| `Worker.MoveKeepsInv` | wings_control/distributed/worker.py:247-266 | every move keeps the worker's deadline, relative to the last recorded heartbeat, below what its failures allow |
| `Worker.EightFailuresRemove` | wings_control/distributed/worker.py:247-266 | in every run of worker and monitor in which a heartbeat succeeds and then at least eight requests fail with nothing delivered, with checks at most 31 s apart: the worker is out of the table when it tries again |
| `Worker.ChecksDecide` | wings_control/distributed/worker.py:247-266 | while nothing is delivered the checks alone decide whether the worker stays listed |
| `Worker.WaitsAddUp` | wings_control/distributed/worker.py:261-266 | the silence `n` failures in a row force is the sum of the waits the loop chose |
| `Worker.Wait` | wings_control/distributed/worker.py:261-266 | the capped backoff is 30, 60, 120, 240, then 300 s |
| `Worker.SendHeartbeat` | wings_control/distributed/worker.py:247-266 | the waits the loop chooses depend only on the failures since the last success |
| `Supervisor.BackoffIsWaitedOut` | wings_control/wings_control.py:208-238 | over every run: the launch that follows a crash comes at least min(2^c, 60) s after the poll that saw the crash, c being the length of the streak |
| `Supervisor.RelaunchIff` | wings_control/wings_control.py:208-215 | over every run: a poll that finds the child down launches it there and then if and only if no backoff is running and the start succeeds, and otherwise nothing is launched |
| `Supervisor.ComesUpAfterBackoff` | wings_control/wings_control.py:208-238 | after a crash the child stays down through all earlier polls and failing starts, and the first poll at or after min(2^c, 60) s from the poll that saw the crash whose start succeeds brings it up |
| `Supervisor.StableExitRelaunches` | wings_control/wings_control.py:239-244 | an exit after 30 s relaunches at once, in a new streak |
| `Supervisor.UpWithinAMinute` | wings_control/wings_control.py:192-244 | whatever has happened: a poll a minute later, with no exit in between and a start that would succeed, finds the child up |
| `Supervisor.LaunchSpacing` | wings_control/wings_control.py:192-244 | for every poll schedule, exit time and failing start: successive launches are at least 2 s apart, and min(2^c, 60) s after the c-th crash of a streak |
| `Supervisor.CrashLoopIsSlow` | wings_control/wings_control.py:228-237 | a streak of c >= 5 crashes spans at least 62 + 60 (c - 5) s |
| `Supervisor.CrashIff` | wings_control/wings_control.py:222-244 | an exit counts as a crash if and only if the child ran less than 30 s or is the one the main loop started itself; any other exit resets the streak |
| `Supervisor.MisjudgedIff` | wings_control/wings_control.py:222-244 | exits are judged by how long the child ran, except the first exit of a child that was up from the start and ran 30 s |
| `Supervisor.FirstExitIsACrash` | wings_control/wings_control.py:223-232 | that exit, whenever it comes, costs 2 s of backoff |
| `Supervisor.PollInv` | wings_control/wings_control.py:192-244 | every poll keeps the launch history spaced and the backoff in step with the streak |
| `Supervisor.Backoff` | wings_control/wings_control.py:231 | 2, 4, 8, 16, 32, then 60 s |
| `Supervisor.ManagedProc.constructor` | wings_control/wings_control.py:99-128 | state after the main loop's own first start |
| `Supervisor.ManagedProc.StartChild` | wings_control/wings_control.py:131-151 | a start records its time; a failed one leaves no child |
| `Supervisor.ManagedProc.PollOnce` | wings_control/wings_control.py:192-244 | one poll computes the model's step on the record |
| `Supervisor.Supervise` | wings_control/wings_control.py:783-806 | first start and polling loop compute the run the theorems are about |
| `ConfigMerge.MergedLeaf` | wings_control/core/config_loader.py:856-868 | path by path, a value is in the merge if and only if the later layer sets it, or the earlier one does and the later neither sets nor cuts off the path |
| `ConfigMerge.MergedDict` | wings_control/core/config_loader.py:856-868 | the same for dictionaries |
| `ConfigMerge.PathsDetermine` | wings_control/core/config_loader.py:843-855 | these two lookups determine a configuration, so the two lemmas above specify the merge completely |
| `ConfigMerge.LastSetterWins` | wings_control/core/config_loader.py:857-866 | over any number of layers a value survives every later layer that leaves its path alone |
| `ConfigMerge.MergedFromIff` | wings_control/core/config_loader.py:856-868 | over any number of layers a value is in the result if and only if some layer sets it and every later one leaves its path alone |
| `ConfigMerge.DictsFromIff` | wings_control/core/config_loader.py:856-868 | and a dictionary if and only if some layer has it and no later one puts anything else in its way |
| `ConfigMerge.MergeSelf` | wings_control/core/config_loader.py:843-868 | merging a configuration with itself changes nothing |
| `ConfigMerge.MergeEmpty` | wings_control/core/config_loader.py:856-868 | the empty dictionary is neutral on both sides |
| `ConfigMerge.AssociativeIff` | wings_control/core/config_loader.py:862-867 | grouping of three layers does not matter if and only if, wherever the middle layer hides a dictionary of the first from one of the last, the last has all keys of the first, at every depth |
| `ConfigMerge.NoEffectIff` | wings_control/core/config_loader.py:856-868 | an earlier layer has no effect if and only if the later one has all its keys, at every depth |
| `ConfigMerge.NotAssociative` | wings_control/core/config_loader.py:862-867 | three layers whose grouping does matter |
| `ConfigMerge.MergeInto` | wings_control/core/config_loader.py:861-867 | the loop over one layer's keys, in any order, on dictionary objects: the dictionary under construction comes to hold the binary merge and is the only existing one written to |
| `ConfigMerge.MergeKey` | wings_control/core/config_loader.py:861-866 | one turn of that loop; nested dictionaries are merged in a new object |
| `ConfigMerge.MergeConfigs` | wings_control/core/config_loader.py:843-868 | the call with any number of layers returns a new dictionary that holds the left fold of the binary merge; no dictionary that existed before is changed, although the result may share dictionaries with the layers |
| `ShellQuote.ExportLineRoundTrip` | wings_control/core/wings_entry.py:86-117 | for every value the generated line reads, by sections 2.2.2 and 2.2.3 of IEEE Std 1003.1-2017, as exactly two words, `export` and NAME=value |
| `ShellQuote.QuotedValue` | wings_control/core/wings_entry.py:62-64 | the escaped value between single quotes adds exactly the value to the word being read |
| `ShellQuote.LineText` | wings_control/core/wings_entry.py:89 | the text of the line around the escaped value, with its one ending newline |
| `ShellQuote.EscapeConcat` | wings_control/core/wings_entry.py:62-64 | escaping treats every character for itself |
| `ShellQuote.EscapePlain` | wings_control/core/wings_entry.py:62-64 | a value without single quotes is left as it is |

## Left out

- Task cancellation in the admission controller, also by a timeout that fires in the same turn of the event loop as a handover: a task is not cancelled between being handed a ticket and resuming.
- Queue times, positions, observation headers and log lines of the admission controller: no effect on admission.
- Durations in the collector (the five-second warm-up pause, the slow and fast delays): any delay is possible in the model.
- An exception of a combine request outside the `try`, and of a client that stops reading: the collector's steps go on.
- StreamCollector.Collector: its methods are the stretches of each task between two suspension points rather than the tasks' own loops, because the loops of different tasks interleave; `RunSchedule` and `Deliver` drive them.
- The collector's queues are values inside the collector rather than separate objects, so aliasing between them is not captured; the queue class is modelled separately.
- Python's lock inside the queue: it is never held across a suspension, so operations are atomic steps.
- Decoding of UTF-8 (a character cut in two by a chunk border raises in the source) and exceptions of the JSON handling other than a decoding error: chunks are decoded text, and one data line either gives an event or none.
- The text of the regular expressions (noise patterns, think tags) and of json.dumps: parameters.
- Relay: the backend raising in mid-stream and the generator being closed at a yield; the residue is sent and the response closed as in the normal case.
- Retry waiting times and closing errors; outcomes of sends are given in advance.
- Health probes over HTTP, PID files, clocks: each probe is an input with one clock reading, where the source reads the clock again in each handler.
- Floating point: times, scores and decay are real numbers.
- Fields of a node that play no part in removal (address, port, status), and listing of active nodes.
- Registration retries as such: a run starts when the master records the worker, and the first heartbeat follows within a given delay. Each request takes at most the 10 s it is given.
- Heartbeat replies with an error status: `requests.post` does not raise for them, so the worker takes them for a success although nothing was recorded; the model's requests succeed only if the heartbeat was recorded.
- Stopping of children, signals, exit codes; a start that the operating system refuses is an input.
- A dictionary that contains itself: layers hold finite configurations (the source would not return from merging two such layers).
- A NUL character in a value, which no shell variable can hold: the lexer reads it like any other character between quotes.
- The conditions under which the export line is generated at all.
- The sglang settings other than the defaults in `DefaultBudgetHolds`, `DefaultCodeMeansSilence` and `ThreeFailuresSpendTheBudget`; `GeometricBound` covers all of them.
- The backup copy of the gateway (gateway_bac.py), engine adapters, parameter mapping, script assembly, scheduling and rank assignment of distributed runs, hardware detection, document splitting: case tables and thin layers over network calls without state of their own.
