# Request pipeline: model and proofs

A Dafny model of the gateway's request pipeline: the 48 bounded sub-queues of the queue matrix, the adaptive batcher
that forms batches from them, the four priority channels, the workers with their circuit breakers, and shutdown. Two
secondary parts are modelled as well: the dashboard's ring-buffer history, and the numeric path from latency samples
to the batcher's wait. `dafny verify dfyconfig.toml` verifies all of it in a few minutes.

## How it is organised

| file | content |
|---|---|
| `Models.dfy`, `Ordering.dfy` | requests, the routing key, the scan order, per-sub-queue selections, the stable sort |
| `Arithmetic.dfy` | products and remainders |
| `QueueMatrix.dfy` | the matrix as a class, proved against one flat list `held` of accepted, not yet drained requests |
| `Pipeline.dfy` | the concurrent pipeline as a machine of atomic steps |
| `PipelineControl.dfy` | invariants: batch shape, start/stop/drain order, the lock around `Close` |
| `PipelineWake.dfy` | invariants: the depth ledger and the wake token |
| `PipelineFlow.dfy`, `PipelineConserve.dfy` | invariants: first-in-first-out per sub-queue, and one place per request |
| `PipelineOrder.dfy` | invariants: what scans and selects have seen; the variant of `formBatch` |
| `PipelineShutdown.dfy` | invariants: what a drain has swept, notified and passed |
| `PipelineProgress.dfy` | invariant: who is inside `Close`; somebody can always move during shutdown |
| `PipelineEnding.dfy` | invariant: nothing of shutdown before a stop signal; what is closed is closed completely |
| `PipelineReasons.dfy` | why a batch ends, a waiter wakes, a submission is refused, a worker leaves; who can move |
| `PipelineAccount.dfy` | invariant: what left the sub-queues was dispatched, is in hand, or got a shutdown notice |
| `PipelineTheorems.dfy` | the invariant of every run, and the main theorems |
| `PipelineSequential.dfy` | the machine's drains, uninterrupted, do what the class promises |
| `PipelineProcess.dfy` | the machine's worker, uninterrupted, handles a batch as the worker class does |
| `PipelineWitnesses.dfy` | runs in which an accepted request never hears back, and in which depth is negative |
| `Circuit.dfy`, `ProxyWorker.dfy` | the breaker under one worker's use, the health ping, the handling of one batch |
| `RingHistory.dfy`, `Latency.dfy`, `Strategies.dfy` | history, percentiles and smoothing, the wait strategies |

### The machine

A state holds the shared variables of the source (sub-queues, `depth`, wake token, `closed`, lock, flags, channels)
and one program counter per goroutine. A step is one shared access: consume the token, look at one sub-queue, receive
one item, subtract from `depth`, check for higher priority, park, send a batch, and so on. Any number of submitters,
workers and stoppers, one batcher and two context cancellations interleave freely; a timer may fire at any moment a
goroutine waits on it, and every strategy decision to flush early is a free choice. The theorems hold for every
routing rule into 48 ranks, every sub-queue capacity, batch size and channel capacity of at least 1. Steps that would
send on or close a closed channel set `panicked`. Logs (`accepted`, `received`, `dispatched`, `notified`, snapshots)
only record.

| definition | source |
|---|---|
| `SubmitterStep` | `internal/batcher/adaptive.go:122-141`, `internal/batcher/packing/queue_matrix.go:72-96` |
| `FormNext`, `RunStep`, `DispatchStep` | `internal/batcher/adaptive.go:143-253`, `internal/batcher/adaptive.go:305-329`, `internal/batcher/packing/queue_matrix.go:102-122` |
| `AccumulateNext` | `internal/batcher/adaptive.go:258-294`, `internal/batcher/packing/queue_matrix.go:131-163` |
| `StopperStep`, `SweepStep`, `CloseNext` | `internal/batcher/adaptive.go:156-172`, `internal/batcher/adaptive.go:366-391`, `internal/batcher/packing/queue_matrix.go:167-223` |
| `CloseStep` | `cmd/server/main.go:97-101`, `internal/worker/pool.go:179-183` |
| `PullStep`, `ProcessNext` | `internal/worker/proxy.go:78-170` |

### Where the code and its descriptions differ

The model follows the code.

- Batch formation has two phases; parts of `docs/spec/02-batching.md` still describe one.
- `depth` is not always the number of queued requests and can be negative for a moment: the push comes before the add.
  `DepthLedger` says by how much it is off, `DepthCanBeNegative` gives a run.
- `docs/spec/02-batching.md` calls the configured capacity the total. The matrix holds up to 48 times ceil(capacity/16)
  requests, always at least three times as many (`Overfill`) and at most that plus 45 (`HeldBound`).
- `drainSubqueue` never returns from a closed channel that runs dry before `max`: its `break` leaves only the `select`
  (`ReturnsIff`). The batcher never gets there (`NeverDrainsClosed`, `ReceiveEnds`).
- A `Submit` that overlaps shutdown can be accepted and never answered (`LateSubmitIsStranded`); `LeftBehind` says
  which requests that can happen to.
- A success recorded while the breaker is Open zeroes the count and leaves it Open; only a worker's sequential use keeps
  count and state in step (`TallyKeptIff`, `LateSuccessMiscounts`).
- The short ring is described as five minutes at one second, but holds 300 points whatever the collection interval.
  With a point every two seconds, history over more than five minutes, called newest-first, comes out of order
  (`SlowCollection`); `MergedNewestFirstIff` says exactly when it does not.
- At the shipped interval of 100 milliseconds (`config.yaml:36`) the short ring spans half a minute, and longer histories
  lack everything from there to five minutes ago (`FastCollection`, `HoleIff`).
- When the watcher sees every client of a batch gone, it cancels the upstream call and the breaker counts a failure, though
  it is described as tracking transport outcomes only (`FailuresOf`, `DisconnectsTripBreaker`).
- A priority outside 0..3 is filed and dispatched as Normal.

## Model

| member | source | states |
|---|---|---|
| PipelineTheorems.InvRun | internal/batcher/adaptive.go:122-391 | every state of every run satisfies the conjunction of all invariants below, whatever the interleaving |
| PipelineTheorems.NoLostWakeUp | internal/batcher/adaptive.go:225-292 | a batcher parked in Phase 1 with anything queued, or in accumulate with anything queued in its own sub-queue or a higher class, has the token set or a submitter between push and signal, although re-arming reads a lagging counter |
| PipelineTheorems.DepthLedger | internal/batcher/packing/queue_matrix.go:85-92 | until a DrainAll resets it, depth is total queued, minus pushed-not-added, plus received-not-subtracted; exact at quiescence and never below minus the submitters in flight |
| PipelineTheorems.ExactlyOnePlace | internal/batcher/adaptive.go:174-191 | an accepted request is always in exactly one of: sub-queue, forming batch, drain, channel, worker, retired; a request not accepted is nowhere; it is retired at most once and no non-blocking send ever falls to its default branch |
| PipelineReasons.SendsFindRoom | internal/worker/proxy.go:219-237 | every send, by drain, failBatch or a worker, finds the result channel empty and fills it |
| PipelineTheorems.NoPanic | internal/batcher/packing/queue_matrix.go:76-86 | no run sends on or closes a closed channel: Submit against Close, dispatch against CloseBatchChans |
| PipelineTheorems.NeverDrainsClosed | internal/batcher/adaptive.go:156-191 | while the batcher forms or dispatches a batch the matrix is open and nobody drains it, for any mix of Starts, Stops and cancellations; so no receive step of it stays where it is |
| PipelineTheorems.BatchesInOrder | internal/batcher/adaptive.go:305-329 | every batch on channel i has 1..MaxBatchSize requests of one sub-queue of class i, and per sub-queue the batches sent are, end to end, a prefix of what was accepted |
| PipelineTheorems.ScanTakesFirst | internal/batcher/packing/queue_matrix.go:102-122 | when Drain has picked its sub-queue under concurrent Submits, every sub-queue ahead of it, and of every higher class, was empty when the scan began, and what was queued in it then comes first |
| PipelineTheorems.WorkersPullInOrder | internal/worker/proxy.go:84-114 | a worker whose iteration of Run began at some point of the run, its first iteration included, takes a class only after every batch of a higher class sent by that point has been taken, by any number of workers |
| PipelineReasons.FallsOnlyWhenEmpty | internal/worker/proxy.go:87-99 | a worker passes on to the next select only when every channel watched by this one is empty and open |
| PipelineReasons.WhyWorkerLeaves | internal/worker/proxy.go:104-112 | a worker leaves Run only on a closed channel with nothing buffered, or in its blocking select on a cancelled context |
| PipelineReasons.TakeCan | internal/worker/proxy.go:87-113 | a watched channel with batches buffered can be taken from: the oldest batch, whole |
| PipelineReasons.WorkerMovesIff | internal/worker/proxy.go:84-114 | a worker can move if and only if it has not left, and in its blocking select something is buffered or closed, or the context cancelled |
| PipelineTheorems.NoFurtherDrainFrom | internal/batcher/adaptive.go:269-292 | a turn of accumulate that began with a higher-class request queued is its last: no further DrainFrom starts |
| PipelineTheorems.PreemptionIsPrompt | internal/batcher/adaptive.go:276-281 | once a higher-class request is queued, accumulate starts at most one more DrainFrom before it returns |
| PipelineTheorems.ReceiveEnds | internal/batcher/packing/queue_matrix.go:225-247 | every drainSubqueue call the batcher makes, from Drain or DrainFrom, takes at most as many loop turns as the batch has room, in every run |
| PipelineTheorems.TurnsSpendVariant | internal/batcher/adaptive.go:239-293 | each step of the batcher inside formBatch, once woken, is paid for by a variant over batch room, free slots, pending signals, the token and the position |
| PipelineTheorems.FormBatchEnds | internal/batcher/adaptive.go:239-253 | once woken, formBatch takes at most a number of batcher steps, fixed by batch size, capacity and submitters in flight, before it returns; that needs no timer and no fairness among submitters |
| PipelineTheorems.AccumulateEnds | internal/batcher/adaptive.go:258-294 | the same bound for accumulate from any point inside it |
| PipelineReasons.WhyBatchEnds | internal/batcher/adaptive.go:244-293 | a batch stops growing only because it is full, the strategy said to flush, the timer fired or a stop signal came while the batcher was parked, or a request of a higher class is queued; its requests are kept |
| PipelineReasons.BatchEndsWhenTold | internal/batcher/adaptive.go:269-290 | and it does stop on a full batch, a flush verdict and the timer |
| PipelineReasons.WakeTakesToken | internal/batcher/adaptive.go:231-237 | the batcher wakes from either wait by taking the token, or leaves Phase 1 empty-handed on a stop signal |
| PipelineReasons.WhoSetsToken | internal/batcher/packing/queue_matrix.go:86-91 | the token is set only by an accepted Submit past its depth increment, or by the re-arming batcher |
| PipelineReasons.RearmIff | internal/batcher/adaptive.go:225-229 | re-arming signals if and only if depth is above zero, and then the batch goes to dispatch unchanged, or the loop restarts when there is none |
| PipelineReasons.BatcherMovesIff | internal/batcher/adaptive.go:174-191 | in every reachable state the batcher can move if and only if it does not wait in Phase 1 without token or stop signal, for room on a full channel without stop signal, for its own drain, or is gone |
| PipelineTheorems.QueuedAreTold | internal/batcher/adaptive.go:366-391 | once a drain has notified all it swept, every request queued when it began has exactly one outcome, the shutdown error |
| PipelineTheorems.WhereItWent | internal/batcher/adaptive.go:174-191 | at any moment an accepted request is queued, in the batcher's or a drainer's hand, dispatched, or sent a shutdown notice, and only one of these, once; a request not accepted none |
| PipelineTheorems.NobodyForgotten | internal/batcher/adaptive.go:185-188 | after the run loop and its drains, failed dispatch included, each accepted request was handed to the workers, told ErrShuttingDown, or is still queued, and only one of these |
| PipelineTheorems.LeftBehind | internal/batcher/packing/queue_matrix.go:167-178 | what is queued behind a DrainAll is the tail of what was accepted after it passed that sub-queue; once every drain that began has passed, with any number of drains, exactly what was accepted after the latest of them; with no overlapping accept, nothing |
| PipelineTheorems.SomeLatestPass | internal/batcher/packing/queue_matrix.go:167-178 | there is such a latest pass as soon as every drain that began has left the sub-queue |
| PipelineTheorems.QueuedForGood | internal/batcher/packing/queue_matrix.go:210-223 | once the run loop has returned and every DrainAll that began is over, no run ever changes a sub-queue again, and a request still queued has no outcome, then or later |
| PipelineTheorems.ClosedRefuses | internal/batcher/packing/queue_matrix.go:76-80 | once closed is set no submission is accepted for the rest of the run |
| PipelineReasons.StoppingRefuses | internal/batcher/adaptive.go:126-128 | once the stopping flag is set, a request whose Submit has not begun is never accepted for the rest of the run |
| PipelineReasons.StopRefuses | internal/batcher/adaptive.go:156-158 | so it is from the first step of any Stop on |
| PipelineReasons.EnterIff | internal/batcher/adaptive.go:122-136 | a Submit can begin if and only if stopping is not set |
| PipelineReasons.SubmitOutcome | internal/batcher/packing/queue_matrix.go:76-96 | past the read lock a submission is refused if and only if the matrix is closed, then accepted if and only if its sub-queue has room, and then signals |
| PipelineReasons.SubmitterMovesIff | internal/batcher/packing/queue_matrix.go:76-96 | a Submit waits for nothing but the lock |
| PipelineReasons.StopStages | internal/batcher/adaptive.go:156-172 | a Stop sets its flag, closes stopCh, then drains if and only if it finds the batcher not started and waits otherwise, and returns only from the wait or behind a finished drain |
| PipelineTheorems.NothingBeforeStop | internal/batcher/adaptive.go:176-189 | before a stop signal nobody drains, no batch is given up, nobody is told ErrShuttingDown and the matrix is open |
| PipelineTheorems.ClosedCompletely | internal/batcher/packing/queue_matrix.go:210-223 | when a Close has returned all 48 sub-queues are closed; when the goroutine of Start is done all four batch channels are |
| PipelineTheorems.SweepResets | internal/batcher/packing/queue_matrix.go:176-177 | a DrainAll ends past the last sub-queue, with depth at zero at that moment, and hands on what it collected |
| PipelineTheorems.ShutdownNeverStuck | internal/batcher/adaptive.go:156-191 | in every state of every run after the stop signal, until the goroutine of Start has closed the batch channels, a step of the batcher, of a drainer or of a submitter holding the read lock is enabled and changes the state |
| PipelineTheorems.SweepEnds | internal/batcher/packing/queue_matrix.go:167-178 | one DrainAll takes at most one turn for each of the 48 sub-queues and one for each request received while it runs, though Submits go on meanwhile |
| PipelineProgress.BusyStep | internal/batcher/packing/queue_matrix.go:210-223 | each step keeps: closeOnce is running, and the write lock held, only while some drainer is inside Close, and a batcher in drain has begun |
| PipelineWitnesses.LateSubmitIsStranded | internal/batcher/adaptive.go:366-372 | for every request, every configuration and any number of workers and Stop calls there is a complete run in which Submit accepts the request between DrainAll and Close, every worker and Stop finishes, and the request is still queued and unanswered; by QueuedForGood it stays so |
| PipelineWitnesses.DepthCanBeNegative | internal/batcher/packing/queue_matrix.go:86-87 | a run from start-up, with any number of workers and stoppers, in which Drain subtracts two while one of the two Submits has not yet added: depth is -1 |
| PipelineControl.ShapeStep | internal/batcher/adaptive.go:218-294 | each step keeps: sub-queues within capacity and homogeneous, batches within size and homogeneous at every position of formation, channels within capacity |
| PipelineControl.ControlStep | internal/batcher/adaptive.go:143-191 | each step keeps: drain never overlaps the loop body, a stopper drains only after stopCh closed, and before any drain the matrix is untouched |
| PipelineControl.LockStep | internal/batcher/packing/queue_matrix.go:210-223 | each step keeps: no submitter past its closed check while the write lock is held, one closer at a time, Start returns only behind a finished Close, batch channels closed only after that, no panic |
| PipelineWake.LedgerStep | internal/batcher/packing/queue_matrix.go:225-247 | each step keeps the depth ledger |
| PipelineWake.WakeStep | internal/batcher/adaptive.go:225-293 | each step keeps the wake condition at every position of the batcher, not only where it parks |
| PipelineFlow.FifoStep | internal/batcher/packing/queue_matrix.go:84-94 | each step keeps, per sub-queue: accepted is received followed by queued, in order |
| PipelineFlow.FlowStep | internal/batcher/adaptive.go:181-189 | each step keeps: before any drain or failed dispatch, received is dispatched followed by the forming batch, and what is on the channels is what was dispatched |
| PipelineConserve.OnceStep | internal/worker/proxy.go:117-239 | each step, including every branch of process, keeps each request in exactly one place and its result channel unsent until then |
| PipelineOrder.SnapStep | internal/batcher/packing/queue_matrix.go:106-117 | each step keeps what a scan knows: sub-queues behind it were empty at its start, those ahead have only grown |
| PipelineOrder.PullsStep | internal/worker/proxy.go:87-109 | each step keeps what the nested select knows about batches buffered when its iteration began |
| PipelineOrder.HigherCells | internal/batcher/packing/queue_matrix.go:151-163 | the preemption check looks at exactly the sub-queues of strictly higher classes |
| PipelineOrder.VariantStep | internal/batcher/adaptive.go:269-292 | inside formBatch each batcher step lowers the variant and nobody else's step raises it |
| PipelineAccount.AccountsStep | internal/batcher/adaptive.go:374-391 | each step, failBatch and notifyShuttingDown included, keeps the account of received requests, and workers never send the shutdown error |
| PipelineShutdown.ShutdownStep | internal/batcher/adaptive.go:366-391 | each step keeps what drainers have swept, passed and notified, and what the latest pass of a sub-queue left, for any number of concurrent drains |
| PipelineSequential.DrainAlone | internal/batcher/packing/queue_matrix.go:102-122 | uninterrupted, the machine's Drain takes the oldest requests of the first non-empty sub-queue of the flat list, lowers depth by their number and keeps the rest; from an empty matrix it takes nothing |
| PipelineSequential.DrainFromAlone | internal/batcher/adaptive.go:270-275 | uninterrupted, a DrainFrom tops the batch up from its own sub-queue in order; a full batch goes straight out |
| PipelineSequential.HigherAlone | internal/batcher/adaptive.go:279-281 | uninterrupted, the check ends accumulation if and only if a request of a higher class is held |
| PipelineSequential.AloneIsStep | internal/batcher/adaptive.go:218-294 | those steps are steps of the machine whatever the other goroutines are doing |
| PipelineProcess.ProcessAlone | internal/worker/proxy.go:117-170 | for every environment the machine's worker, left alone, handles a batch as Process does: it retires the targets of the sends, in order, with the outcomes they carry, and skips exactly the silent requests |
| PipelineProcess.ProcessOnly | internal/worker/proxy.go:117-170 | and nothing else: however the machine's worker comes to the end of a batch, Process makes the same sends in the same order and skips the same requests in some environment |
| QueueMatrix.QueueMatrix.constructor | internal/batcher/packing/queue_matrix.go:45-65 | capacity of a sub-queue is ceil(capacity/16), at least 1; nothing held, open, token clear |
| QueueMatrix.QueueMatrix.Submit | internal/batcher/packing/queue_matrix.go:72-96 | nil, closed and full are refused in that order; success exactly when fewer than the sub-queue's capacity of the same key are held; then the request is appended to the list and the token set |
| QueueMatrix.QueueMatrix.DrainSubqueue | internal/batcher/packing/queue_matrix.go:225-247 | takes the oldest requests of the sub-queue, up to max, and removes exactly those from the list; it spins, holding them, if and only if the matrix is closed and the sub-queue held fewer than max |
| QueueMatrix.QueueMatrix.Drain | internal/batcher/packing/queue_matrix.go:102-122 | takes the oldest requests of the first key in scan order that holds any, and reports their priority (Normal if out of range), type and size; no held request is of higher priority, or of the same with an earlier type or smaller size; nothing when empty or max is not positive; spins exactly on a closed matrix whose first key holds fewer than max |
| QueueMatrix.QueueMatrix.DrainFrom | internal/batcher/packing/queue_matrix.go:131-143 | takes the oldest requests of the key named by the coordinates, clamped as the source clamps them, and removes those; spins exactly on a closed, non-empty key that holds fewer than max |
| QueueMatrix.QueueMatrix.HasHigherPriorityThan | internal/batcher/packing/queue_matrix.go:151-163 | true if and only if a held request has a strictly higher priority, out-of-range ones counting as Normal |
| QueueMatrix.QueueMatrix.DrainAll | internal/batcher/packing/queue_matrix.go:167-178 | returns the stable sort of the list by scan order and leaves nothing, open or closed |
| QueueMatrix.QueueMatrix.DrainChannel | internal/batcher/packing/queue_matrix.go:249-264 | empties one channel in order and touches no other |
| QueueMatrix.QueueMatrix.Signal | internal/batcher/packing/queue_matrix.go:191-196 | sets the token, coalescing with one already there |
| QueueMatrix.QueueMatrix.Close | internal/batcher/packing/queue_matrix.go:210-223 | closes all 48 channels once and keeps what is held |
| QueueMatrix.QueueMatrix.DrainOut | internal/batcher/packing/queue_matrix.go:102-122 | calling Drain until it returns nothing yields the stable sort of the list by priority descending, type, bucket; it spins if and only if the matrix is closed and some key holds no multiple of max |
| QueueMatrix.DrainsSortStably | internal/batcher/packing/queue_matrix.go:98-122 | the specification of those calls, in batches of any size, is that stable sort |
| QueueMatrix.FlattenIsSort | internal/batcher/packing/queue_matrix.go:167-175 | the sub-queues end to end in scan order are that same stable sort |
| QueueMatrix.ReturnsIff | internal/batcher/packing/queue_matrix.go:225-247 | the receive loop ends if and only if the channel is open or holds at least max |
| QueueMatrix.HeldBound | internal/batcher/packing/queue_matrix.go:43-52 | at most 48 times the per-queue capacity is held, itself at most 3 times the configured capacity plus 45 |
| QueueMatrix.Overfill | internal/batcher/packing/queue_matrix.go:45-65 | for every configured capacity, Submit accepts 48 times the per-queue capacity at once, always more than the configured capacity and at least three times it |
| QueueMatrix.WithoutSelect | internal/batcher/packing/queue_matrix.go:225-247 | taking n from one key leaves every other key as it was |
| Models.BucketFrom | internal/models/request.go:93-101 | the bucket is the first threshold not exceeded, or one past the last |
| Models.BucketAtMost | internal/models/request.go:93-101 | bucket at most i if and only if the estimate is at most the i-th threshold |
| Models.SameKeyIff | internal/batcher/packing/queue_matrix.go:266-316 | two requests share a sub-queue if and only if priority index, type index and bucket agree |
| Models.TraitsOf | internal/batcher/packing/queue_matrix.go:266-316 | on the plain fields: the class is the priority if in 0..3 and Normal otherwise, the type tells "embedding" from the rest, the bucket is the size class by 128, 512, 1024, 2048, 4096 |
| Models.KeyOrder | internal/batcher/packing/queue_matrix.go:98-101 | scan order is priority descending, then completions before embeddings, then smaller sizes, on the plain fields |
| Models.CoordinatesRoundTrip | internal/batcher/packing/queue_matrix.go:281-306 | the coordinates Drain reports lead DrainFrom and dispatch back to the same sub-queue and class |
| Ordering.SortUnique | internal/batcher/packing/queue_matrix.go:98-101 | a list sorted by scan order is determined by its per-key subsequences |
| Ordering.SortSelect | internal/batcher/packing/queue_matrix.go:98-101 | the sort keeps the submission order within each key |
| Circuit.CircuitBreaker.RecordSuccess | internal/worker/circuit.go:55-62 | new state of the breaker after a success |
| Circuit.CircuitBreaker.RecordFailure | internal/worker/circuit.go:67-75 | new state of the breaker after a failure at a given time |
| Circuit.CircuitBreaker.CanExecute | internal/worker/circuit.go:81-98 | admits unless Open and younger than the recovery timeout; leaves Open only when it admits |
| Circuit.CircuitBreaker.Reset | internal/worker/circuit.go:108-114 | back to the fresh state |
| ProxyWorker.ProxyWorker.Run | internal/worker/proxy.go:84-114 | the worker's loop over process leaves the breaker in the state that folding its turns gives, and its sends are those that state admits; so the results about turns below are about process |
| Circuit.LifeSound | internal/worker/circuit.go:55-98 | after any turns of one worker count, state and time summarise the recorded calls, and tripped calls are spaced by the recovery timeout |
| Circuit.CountsTrailingFailures | internal/worker/circuit.go:64-75 | failureCount is the trailing run of failures; Closed if and only if that run is below the threshold |
| Circuit.AdmitsIff | internal/worker/circuit.go:81-98 | a call is admitted if and only if the failures at the end of the history are below the threshold, or the recovery timeout has passed since the last of them |
| Circuit.AdmittedIff | internal/worker/circuit.go:81-98 | a turn that asks and comes to an outcome adds its call to the history if and only if so |
| Circuit.TrailingIs | internal/worker/circuit.go:64-75 | the trailing run is the longest all-failing end of the history |
| Circuit.ProbeDecides | internal/worker/circuit.go:55-75 | one recorded outcome always leaves HalfOpen, to Closed on success and Open on failure |
| Circuit.AttemptsBounded | internal/worker/circuit.go:77-98 | without a success, attempts number at most the threshold plus one per recovery timeout elapsed |
| Circuit.TallyKeptIff | internal/worker/circuit.go:55-62 | a success keeps "Closed exactly below the threshold" if and only if the breaker is not Open; the other two operations always keep it |
| Circuit.LateSuccessMiscounts | internal/worker/circuit.go:55-62 | such a success: Open with a count of zero |
| Circuit.PingLoop | internal/worker/pool.go:194-216 | the unhealthy flag is set if and only if the last failureThreshold pings all failed |
| ProxyWorker.ProxyWorker.Process | internal/worker/proxy.go:117-170 | the exact sends, counters and breaker turn of a process call in every branch, with the watcher's cancellation as one way to fail; without an upstream call neither failure count nor failure time changes, and an unhealthy flag or a refusal leaves the breaker alone |
| ProxyWorker.FilterCancelled | internal/worker/proxy.go:175-197 | survivors in order, one cancellation for each of the others |
| ProxyWorker.FanOutError | internal/worker/proxy.go:228-239 | one error reply per request, in order, under its own ID |
| ProxyWorker.FanOutResults | internal/worker/proxy.go:202-224 | replies to the requests still alive after the response |
| ProxyWorker.ProcessPartitions | internal/worker/proxy.go:117-239 | each request of a batch gets exactly one send, or is a survivor whose context is done at the post-response check of an answered call |
| ProxyWorker.SendsSay | internal/worker/proxy.go:121-169 | each send carries its request's own ID; refused batches are told unavailable, cancelled requests that they are cancelled, survivors that encoding failed, that the upstream is unavailable, or their result |
| ProxyWorker.JobRecordsIff | internal/worker/proxy.go:121-163 | a batch adds a call to the breaker's history if and only if the upstream is not flagged, some request survives, the batch encodes and the breaker admits it |
| ProxyWorker.NoCallsStayFresh | internal/worker/proxy.go:121-137 | batches that never go upstream leave the breaker fresh |
| ProxyWorker.TokensAddUp | internal/worker/proxy.go:168-169 | tokens are summed over the surviving requests |
| ProxyWorker.ResultsAlign | internal/worker/proxy.go:203-222 | a reply is sent if and only if it is the i-th survivor's, still alive, with the i-th upstream result under the survivor's own ID |
| ProxyWorker.LiveOrder | internal/worker/proxy.go:176-190 | the survivors are a subsequence of the batch |
| ProxyWorker.Watch | internal/worker/proxy.go:260-275 | the watcher cancels the call, at its last wait, if and only if every wait ended by its request's context, and then all of them are done |
| ProxyWorker.FailuresOf | internal/worker/proxy.go:139-163 | a failure is recorded against the upstream if and only if it failed, or the watcher had seen every surviving client gone before it answered; in the second case all their contexts were done by then |
| ProxyWorker.FailuresWhenPrompt | internal/worker/proxy.go:139-163 | if the watcher loses no time: a failure is recorded if and only if the upstream failed or every surviving client's context is done before it answers; in the second case, at the moment the last of them is |
| ProxyWorker.DisconnectsTripBreaker | internal/worker/proxy.go:153-163 | a breaker of any threshold ends Open after that many batches whose clients disconnect, with a prompt watcher and an upstream that would have answered every call |
| RingHistory.RingAdd | internal/metrics/aggregator.go:25-30 | writing at the head and advancing it appends to the log the ring stands for |
| RingHistory.ReadRingBackward | internal/metrics/aggregator.go:172-187 | the loop over modular slots reads the log backwards: at most a ring's worth, up to the first point before the cutoff |
| RingHistory.BackIsWindow | internal/metrics/aggregator.go:170-187 | for stamps that never go back, that is the reverse of the latest ring's worth of points not before the cutoff |
| RingHistory.TimeSeries.Add | internal/metrics/aggregator.go:25-30 | appends one point to the unbounded log and leaves the long ring |
| RingHistory.TimeSeries.GetHistory | internal/metrics/aggregator.go:61-94 | up to five minutes, the backward reading of the short log; beyond, that of both logs merged |
| RingHistory.TimeSeries.Downsample | internal/metrics/aggregator.go:125-148 | one long-term point, the mean of the retained points of the past minute, or none when there are none |
| RingHistory.RingSum | internal/metrics/aggregator.go:132-140 | summing the ring in slot order, unused slots and all, sums the latest points of the log |
| RingHistory.MeanWithin | internal/metrics/aggregator.go:141-145 | the mean lies within any bounds of the values averaged |
| RingHistory.MeanOf | internal/metrics/aggregator.go:132-145 | the mean is taken over exactly the used points stamped after the cutoff, each once |
| RingHistory.MergedNewestFirstIff | internal/metrics/aggregator.go:79-93 | the merged history is newest-first if and only if the short ring holds no point, from the cutoff on, older than a long-ring point that is itself older than five minutes |
| RingHistory.MergedCount | internal/metrics/aggregator.go:79-93 | each point comes out as often as the short ring holds it from the cutoff on plus as often as the long ring holds it from the cutoff to five minutes |
| RingHistory.LatestIs | internal/metrics/aggregator.go:18-20 | what a ring keeps is the end of its log, as much as fits |
| RingHistory.AlwaysNewestFirstIff | internal/metrics/aggregator.go:79-93 | it is so for every duration over five minutes if and only if the rings hold no such pair at all |
| RingHistory.HoleIff | internal/metrics/aggregator.go:79-93 | up to a long-ring point that is left out as newer than five minutes, the history has a hole if and only if the short ring holds nothing from the five-minute mark to that point; once the short ring reaches past the mark, everything added since is returned |
| RingHistory.SlowCollection | internal/metrics/aggregator.go:61-94 | adding a point every two seconds and downsampling every minute, as a two-second collection interval does, makes the ten-minute history come out of order |
| RingHistory.FastCollection | internal/metrics/aggregator.go:61-94 | adding a point every 100 milliseconds and downsampling every minute, the ten-minute history has nothing between half a minute and five minutes ago, though the long ring holds a point for each minute |
| Latency.LatencyTracker.Add | internal/metrics/latency.go:50-62 | the reservoir keeps holding min(count, size) distinct arrivals, whatever the random draws |
| Latency.LatencyTracker.Materialize | internal/metrics/latency.go:82-106 | leaves p50 ≤ p90 ≤ p99 ≤ p999 of the sorted reservoir and extends the smoothed series; nothing changes on an empty reservoir |
| Latency.LatencyTracker.Reset | internal/metrics/latency.go:124-135 | empties everything, so that the next materialisation seeds the average anew |
| Latency.FourOrdered | internal/metrics/latency.go:91-96 | the four percentiles of any reservoir are in order |
| Latency.PctileMonotone | internal/metrics/latency.go:138-147 | a higher percentile is never less |
| Latency.PctileRank | internal/metrics/latency.go:138-147 | a percentile is one of the samples, with more than p percent (or all) at most it and at least 100 - p percent at least it |
| Latency.EwmaInRange | internal/metrics/latency.go:98-105 | the smoothed P99 stays within the range of the raw ones since the last reset |
| Latency.EwmaContracts | internal/metrics/latency.go:98-105 | towards a constant input the error shrinks by exactly (1 - alpha) to the n |
| Strategies.TimeoutAntitone | internal/batcher/strategies/queue_depth.go:34-51 | the base wait never grows with depth and stays within the configured waits |
| Strategies.WaitAtEnds | internal/batcher/strategies/queue_depth.go:34-43 | the longest wait up to the low threshold, the shortest from the high one on; a fixed wait is always the same |
| Strategies.WaitOnLine | internal/batcher/strategies/queue_depth.go:45-50 | in between, the whole milliseconds on or just below the straight line from one to the other |
| Strategies.LatencyAware.CalculateTimeout | internal/batcher/strategies/latency_aware.go:41-54 | one proportional step, the multiplier within [0.5, 2], and a wait within twice the base maximum |
| Strategies.AdjustExact | internal/batcher/strategies/latency_aware.go:42-48 | a step moves the multiplier by exactly kP times the error ratio, stopping at 0.5 and 2; unusable metrics leave it alone |
| Strategies.ScaleExact | internal/batcher/strategies/latency_aware.go:49-53 | the wait is base times multiplier cut to a whole number, and 0 without a base |
| Strategies.NextTimeout | internal/batcher/adaptive.go:345-354 | without a strategy, with Fixed or QueueDepth, or under the controller: the armed window is the strategy's wait raised to 1 ms, and never above the larger of 1 ms and the longest wait (twice that under the controller) |
| Strategies.ReadingsFall | internal/batcher/strategies/latency_aware.go:43-48 | after n readings over target by at least e the multiplier is at its lower bound or n·kP·e below its start |
| Strategies.ReadingsRise | internal/batcher/strategies/latency_aware.go:43-48 | the mirror image for readings under target |
| Strategies.SaturatesUnderSustainedError | internal/batcher/strategies/latency_aware.go:41-76 | n readings with n·kP·e ≥ 1.5 force the multiplier to 0.5 from any state, or to 2.0 when under target |

## Left out

- HTTP handlers, router, middleware, WebSocket, dashboard, JSON encoding, buffer pooling: I/O and plumbing. The upstream is an arbitrary outcome: transport error (which also stands for a request that could not be built), server error, or a result list of any length.
- The Prometheus collector, exporters and `BuildSnapshot`: counters and copying.
- Configuration loading: a breaker threshold of at least 1, a smoothing factor in (0, 1] and 0 ≤ minWait ≤ maxWait are preconditions where the proofs need them.
- Simulation, mock upstream, runner and command line.
- Real time, scheduling fairness and select probabilities: clocks are parameters that do not go back, choices are free; no liveness that rests on fairness is claimed.
- Rounding of floats: reals, truncated where the code converts to a whole number. Integer overflow of counters and durations.
- The batcher and the workers' channel protocol are a step machine on values, since their properties are about interleavings; update in place and aliasing are not captured there. `PipelineSequential` and `PipelineProcess` tie it to the imperative matrix and worker.
- The class `QueueMatrix` is used by one goroutine at a time, so its `depth` lags only behind a drain that spins; the lag of concurrent use is in the machine.
- Submitting one request object twice: a request stands for its identity and is submitted once.
- Requests without a context: `filterCancelled` tolerates them, the watcher does not; every request has one here.
- A nil batch channel in `dispatch`, nil requests inside a sub-queue (`Submit` refuses them), a nil result channel, swapping the strategy, the dispatch-blocked hook, and the counters behind `Metrics()`.
- A cancellation at the very instant of the answer, or while the body is read: the model lets an answer that has arrived win.
- At shutdown a worker may exit with batches buffered; such requests stay in their one place (`ExactlyOnePlace`), their delivery is not claimed.
- `AllWorkersUnhealthy` and rejection before Submit: no gateway-level recovery is claimed.
- The map of named series and its locks: one series is modelled. Races between `Reset` and `materialize`: each runs alone.
- `MaxBatchTokens`, which `process` does not enforce, and single-branch lookups such as names, `MaxWaitMs` and `AgeMs`.
- ReadRingBackward: requires that no added point carries the zero time, which marks unused slots in the source too.
