# WhatsApp webhook normalizer: the delivery protocol, proved

The service takes webhook payloads, flattens them into events, drops the ones it
has seen, and queues the rest in a Redis stream. Any number of workers read the
stream through one consumer group and POST each event downstream. A worker may
die at any point. What keeps the promise "at least once, and not twice without
reason" is spread over three places: the order of the commands in `handle`, a
per-message claim key with two lifetimes, and three settings that have to fit
together. This project models those as one state machine and proves what the
whole of it keeps, over every run; the imperative code is modelled beside it and
proved to be a run of that machine.

## How it is laid out

| file | what it holds |
|---|---|
| `Config.dfy` | the settings, claim lifetime, backoff, the startup check |
| `Redis.dfy` | stream, consumer group, claim keys, dedup keys, dead-letter stream and clock: as a value with one function per command, and as a class proved against it |
| `Protocol.dfy` | the state machine: handlers with a program counter, one Redis command a step; publishing, reads, reclaims, answers, deaths and the clock; the two timing premises |
| `Invariants.dfy`, `NoLoss.dfy` | what holds with no premise on timing |
| `Claims.dfy` | the claim as a lock |
| `Idle.dfy`, `Copies.dfy` | how many entries stand for a message, and how many dispatches they can cause |
| `OneCopy.dfy` | the refinement of a one-copy machine |
| `Timing.dfy` | how the settings discharge the timing premises |
| `Configured.dfy` | the guarantees in the settings' own units, and each outcome of an undisturbed `handle` as a change of the store |
| `Reclaim.dfy`, `Reading.dfy` | recovery: a stale or unread entry is reached in a bounded number of sweeps or reads |
| `Batch.dfy` | concurrent handlers of one batch do not interfere |
| `Interleaving.dfy` | what the event loop makes of a batch, as a function of what it picks: every order happens, and none matters |
| `Results.dfy`, `Queue.dfy`, `Handout.dfy` | exceptions, the queue functions, and reads and reclaims, over a `World` that holds a Redis and the machine |
| `Coroutines.dfy`, `Worker.dfy` | `handle` cut at its awaits and gathered in any order; `handle` by itself, `process_batch`, `depth` and the loop of `run` |
| `Rota.dfy` | the commands the loop sends, in turn, and its pauses |
| `Ingest.dfy`, `Normalizer.dfy`, `Paths.dfy` | ingest with its failure points, the payload walk, and what its events say by the paths of the payload |
| `EndToEnd.dfy` | requests and workers over one Redis |

In `Queue.dfy` every Redis command is an await. During an await an arbitrary list
of actions of the rest of the system runs, and the command may raise; a raised
exception is the death of its handler. A method may continue only by a command
whose effect on Redis is the effect of the machine's next step, and it may raise
only if one of its own awaits raised or the server refused its command. So a
command left out, added, repeated or swapped in `handle` leaves the machine and
does not verify, and giving up without a cause does not either.

## Premises

Each result says which of these it uses.

* **No premise on timing.** Claims may lapse at any moment, entries may be
  reclaimed from live handlers, handlers may die anywhere.
* **Claim timing** (`ClaimTimely`): a live handler that has won the claim gives it
  up before the claim lapses.
* **Idle timing** (`IdleTimely`): a live handler finishes before its entry may be
  reclaimed.
* `Timing.TimingChain` derives both from the settings, given that a POST lasts at
  most `DOWNSTREAM_TIMEOUT_SECONDS`, a backoff sleep no longer than it was asked to,
  and everything else a handler does fits in the slack.
* A Redis command is applied once, or fails without an effect. The server refuses a
  SET whose expiry is not positive; such a command always fails.
* Neither stream is trimmed: `STREAM_MAXLEN` and `DLQ_MAXLEN` are not reached.

A message is identified by its `message_id`. Status updates reuse the id of the
message they are about, so everything is counted per id.

## Where the code differs from what is said about it

* The repository's README.md:261 and README.md:586 speak of up to `MAX_RETRIES` attempts. The code
  dispatches `MAX_RETRIES + 1` times before it dead-letters
  (`OneCopy.ExactlyOneOutcome`), and README.md:362 calls `retry_count` the attempts
  so far where it is the failures so far (`OneCopy.RetryCountAndClaims`).
* A dead letter carries `MAX_RETRIES + 1` exactly when `MAX_RETRIES` is not negative
  (`Invariants.DeadLetterRetryCount`); with a negative value the first failure is
  final and the count is 1.
* The startup check does not look at the sign of `RETRY_BACKOFF_MAX_SECONDS`. With
  a timeout of 10, a cap of -5 and a reclaim delay of 6 seconds it passes, and there
  is a run in which a POST of legal length outlasts both the claim and the reclaim
  delay (`Timing.NegativeCapDefeatsTheCheck`). A negative cap is harmless exactly
  when both windows outlast the POST timeout and the overhead
  (`Timing.NegativeCapExactly`); with a cap of zero or more the check leaves some slack,
  and any overhead that fits it is harmless (`Timing.CheckedSettingsOutlast`). Where timeout and cap add up to -5 or less, the
  claim's lifetime is refused by the server and nothing is ever delivered
  (`Timing.RefusedClaimsStopDelivery`).
* It does not look at the base of the backoff either. For any base,
  `Config.BackoffShrinksWhen` says at which retries the backoff shrinks: never for a
  base of 1 or more, and for one between 0 and 1 at every retry whose next power is
  below the cap.
* Answering 503 does not keep an event from being lost. `_ingest` sets the dedup key
  before the XADD, so a failure in between leaves an id that the redelivery drops
  as a duplicate and answers with success (`Ingest.SuccessMayHideALoss`).
  `Ingest.IngestUnderFailure` says exactly which ids go missing.
* The claim's answer IN_PROGRESS is also given when the key vanished between SET NX
  and GET. That is harmless: the entry stays pending and nothing is changed
  (`Claims.LaterAnswersAreSound`).
* A dedup key does not keep an id from being appended twice during its life: a
  request that set the key and was then held up for a whole lifetime still appends
  (`Ingest.SlowRequestAppendsTwice`). `Ingest.OncePerLifeWhen` says exactly when at
  most one append is certain.
* Handlers of a batch are independent of each other, but not of the clock: a key that
  runs out shows (`Batch.LapseMatters`, for one handler and one wait). Over the same
  clock each id ends as if its handlers had run by themselves (`Batch.AsIfAlone`).
* The clamp in depth() is needed although pending ids are always stream ids: its
  three commands see different moments (`Worker.ClampMayBeNeeded`).

## Model

| member | source | states |
|---|---|---|
| NoLoss.NothingIsLost | app/worker.py:125-185 | No premise on timing. In every reachable state, with any number of workers and a death at any command, each published id has an entry that Redis will still deliver and that no live handler has already replaced, or is in the dead-letter stream, or dispatch has returned True for it |
| NoLoss.StepKeepsSafe | app/worker.py:180-185 | One step of anybody keeps an id safe; the case that carries it is the order re-publish before ack, and dead-letter before ack |
| Invariants.Reachable | app/worker.py:125-185 | Every reachable state keeps the invariant: ids are consistent, each handler's event is its entry's (failed at most once in memory), a done marker or a handler acting on one means a confirmed dispatch, a delivered entry is pending or acked |
| Invariants.StepKeepsInv | app/worker.py:125-185 | The invariant is inductive for every action of handlers and environment |
| Invariants.RetryRange | app/worker.py:158-185 | In every reachable state each stream entry carries a published id and content and a retry_count in 0..limit; each dead letter exactly limit + 1 |
| Invariants.DeadLetterRetryCount | app/worker.py:158-161 | A dead letter's retry_count is MAX_RETRIES + 1 if and only if MAX_RETRIES is not negative |
| Invariants.StreamAccounting | app/queue.py:137-144 | In every reachable state pending ids are stream ids at or below the last delivered one, and XLEN = pending + never delivered + acked but not deleted |
| Claims.HoldersWroteTheKey | app/queue.py:189-191 | No premise on timing. WON only if this call wrote the key: every handler past begin_delivery that has not given up its claim did, at an earlier action of the run, find the key missing and write it |
| Claims.LaterAnswersAreSound | app/queue.py:193-194 | No premise on timing. After any interference between SET NX and GET, ALREADY_DELIVERED is answered if and only if a completion marker is alive, and only if dispatch returned True for the id at some earlier action of the run; neither answer changes a key or an entry |
| Claims.ConfirmedWasAnswered | app/worker.py:151-155 | An id counted as confirmed has had an action at which dispatch returned True to one of its handlers |
| Claims.MutualExclusion | app/queue.py:177-211 | Claim timing. At most one live handler per message id is between WON and its complete or abandon, in any run with deaths and expiries |
| Claims.OnlyTheOwnerOverwrites | app/queue.py:197-211 | Claim timing. The only step that changes or removes a live key is one of the handler that wrote it, while it holds it; so the unconditional SET and DEL never hit another handler's claim or a completion marker |
| Claims.NoResendAfterConfirmation | app/queue.py:197-206 | Claim timing. A handler about to enter or inside dispatch for an id that was completed finds the marker's whole lifetime gone by |
| Claims.LockHolds | app/queue.py:177-211 | Claim timing. Each holder's key is the one it wrote, and each completion marker stands for its whole lifetime |
| Idle.IdleHolds | app/queue.py:106-119 | Idle timing. An entry has at most one live handler, and until its XACK is pending since the delivery that started that handler |
| Idle.CopyWithHandler | app/worker.py:125-185 | Idle timing. Which entries still stand for a message can be read off the place of their handler |
| Copies.NoRetryAmplification | app/worker.py:175-185 | Idle timing. Conservation: entries standing for an id plus those acked without a replacement equal its publications plus the deaths between enqueue_event and XACK |
| Copies.AttemptBound | app/worker.py:158-185 | Idle timing. Dispatches of an id never exceed (limit + 1) for each publication and each handler that died on it between entering dispatch and XACK |
| Copies.LateDeathsAreDeaths | app/worker.py:199-208 | The deaths the two bounds count are deaths on that id, and those after enqueue_event are among those after entering dispatch |
| Copies.AccountsHold | app/worker.py:125-185 | Idle timing. The balance of copies and the budget of dispatches, weighing each live copy by the dispatches it can still lead to, hold after every run |
| OneCopy.OneCopyRefinement | app/worker.py:133-185 | Idle timing, published at most once, no death on the id. The run is one that a machine with a single copy accepts, and the dispatches begun, confirmed and rejected are the ones it counts |
| OneCopy.OneCopyUntilTheOutcome | app/worker.py:133-185 | Same premises. There is exactly one copy until the outcome and never a second one |
| OneCopy.ExactlyOneOutcome | app/worker.py:151-166 | Same premises. Delivered at most once and dead-lettered at most once, never both; a dead letter means exactly limit + 1 dispatches, all rejected; with no copy left exactly one of the two has happened |
| OneCopy.RetryCountAndClaims | app/worker.py:133-158 | Same premises. Every handler at work carries as retry_count the rejected dispatches so far, and begin_delivery is always won |
| OneCopy.FailuresInRange | app/worker.py:160 | In the one-copy machine failures stay within the limit, and exhaustion comes at exactly one more |
| OneCopy.StepTracked | app/worker.py:125-185 | One step of the system is one step of the one-copy machine, or none |
| Config.Validate | app/config.py:131-167 | Each problem is reported if and only if its condition holds, the reclaim delay's in milliseconds: 1000 times timeout plus cap is at least CLAIM_MIN_IDLE_MS; and nothing is raised exactly when none does |
| Config.ClaimTtlSlack | app/config.py:81-90 | The claim outlasts timeout plus backoff cap by more than 4 and less than 6 seconds although int() truncates towards zero |
| Config.PowerLaws | app/worker.py:168-171 | What the backoff raises is a power: 1, the base, and products for sums of exponents |
| Config.BackoffIsTheSmaller | app/worker.py:168-171 | The backoff is at most the power, at most the cap, and one of the two; so the base or the cap at first, and below the cap each is the base times the one before |
| Config.BackoffGrowsToTheCap | app/worker.py:168-171 | With a base of at least 1 the backoff never shrinks from one retry to a later one and never exceeds the cap |
| Config.BackoffShrinksWhen | app/worker.py:168-171 | For every base and every retry, the backoff is smaller at the next retry if and only if the power is and the cap does not hide it |
| Config.PowerShrinksWhen | app/worker.py:168-171 | The power is smaller at the next retry exactly for a base between 0 and 1, for base 0 at the first, and for a negative base at every even one |
| Timing.WindowsOutlastTheAttempt | app/config.py:81-90 | If both windows outlast the longest attempt, a prompt handler ends before its claim lapses and before its entry is reclaimable |
| Timing.CheckedSettingsOutlast | app/config.py:151-162 | Settings that pass the startup check with a cap of zero or more have windows that outlast the longest attempt, with some slack |
| Timing.TimingChain | app/config.py:81-90 | Windows that outlast the longest attempt, a test on the settings alone and for a cap of any sign, give both timing premises in every state of every prompt run |
| Timing.ClocksHold | app/worker.py:151-178 | In every reachable state a handler's age is what it spent posting, sleeping and on everything else |
| Timing.NegativeCapDefeatsTheCheck | app/config.py:155-156 | Settings with a negative cap that pass the check, and a prompt run of the machine in which a legal POST outlasts both windows |
| Timing.NegativeCapExactly | app/config.py:151-162 | With a negative cap, every prompt run keeps both timing premises if and only if both windows outlast POST timeout and overhead |
| Timing.RefusedClaimsStopDelivery | app/queue.py:189-191 | With a claim lifetime that is not positive no handler gets past its first command and nothing is ever dispatched |
| Configured.NotResentWithin | app/config.py:73-75 | Claim timing. An id whose completion was recorded is not dispatched again until DELIVERED_TTL_SECONDS have gone by |
| Configured.DeadLetteredAfter | app/worker.py:158-161 | Idle timing, published at most once, no death on the id. A dead letter has cost exactly MAX_RETRIES + 1 dispatches, all rejected, and carries that number (1 for a negative setting) |
| Configured.AttemptsAtMost | app/worker.py:158-185 | Idle timing. At most MAX_RETRIES + 1 dispatches (one for a negative setting) for each publication and each late death |
| Configured.RedeliveredAfter | app/config.py:61-65 | Successive deliveries of one entry are CLAIM_MIN_IDLE_MS milliseconds apart |
| Configured.DeliveredUndisturbed | app/worker.py:151-156 | From any state, with the key free and a True answer: the key is a completion marker for DELIVERED_TTL_SECONDS from now, the entry is gone from stream and pending list, and nothing else has changed |
| Configured.ParkedUndisturbed | app/worker.py:158-166 | With a False answer and no retries left: the event with its count one higher is the last dead letter, key and entry are gone, and nothing else has changed |
| Configured.RequeuedUndisturbed | app/worker.py:158-185 | With a False answer and retries left: one new entry has the event with its count one higher, key and old entry are gone, and nothing else has changed |
| Configured.SkippedUndisturbed | app/worker.py:135-141 | With a completion marker: the entry is gone, and nothing else has changed, the key included |
| Configured.DeferredUndisturbed | app/worker.py:143-149 | With another's claim: nothing has changed, and the entry is still pending |
| Reclaim.ReclaimCoverage | app/queue.py:106-134 | Whatever the system does between sweeps, a stale pending entry at or above the cursor is handed out again or leaves the pending list within as many sweeps as there are pending ids from the cursor to it |
| Reclaim.CoverageFromAnyCursor | app/queue.py:106-134 | An entry stale after any of a running worker's sweeps, below or above its cursor, is reached within as many sweeps as there are pending ids from the cursor on, entries first delivered meanwhile, and pending ids up to the entry, plus one |
| Reclaim.ScanWraps | app/queue.py:112-119 | One XAUTOCLAIM wraps around or leaves strictly fewer pending ids at or above its cursor |
| Reclaim.ScanProgress | app/queue.py:112-119 | One XAUTOCLAIM adopts the entry or leaves the cursor at or before it with strictly fewer pending ids in between |
| Reclaim.ScanAdoptsStale | app/queue.py:112-119 | What a sweep adopts is stale, in increasing order, at or after the cursor, and at most BATCH_SIZE |
| Reclaim.DeliveriesHold | app/config.py:61-65 | Successive deliveries of one entry are at least CLAIM_MIN_IDLE_MS apart |
| Reclaim.DeadClaimDefersBoundedly | app/worker.py:143-149 | No premise on timing. Handlers given an entry since a claim was written find that claim in their way at most ceil(claim TTL / reclaim delay) times |
| Reclaim.SpacedIsSparse | app/worker.py:143-149 | Deliveries a gap apart that fall in a window leave room in it for all the gaps |
| Reading.RunServes | app/queue.py:87-103 | Whatever the system does, an entry nobody was given stays in the stream and no more entries come before it |
| Reading.ReadServes | app/queue.py:87-103 | Each read brings the group a whole batch nearer to every unread entry, or past it |
| Reading.ServedAreDelivered | app/queue.py:87-103 | Once the reads asked for as many entries as were waiting up to one, that one has been handed out |
| Batch.ViewsEvolveAlone | app/worker.py:188-209 | In a batch, what happens to one message id (its handlers, key, entries, dead letters, counts) is a function of its own state, its own handlers' steps and the moments its key runs out |
| Batch.InterleavingDoesNotMatter | app/worker.py:199-202 | Two schedules in which an id's handlers take the same steps, get the same answers and die at the same points, and its key runs out at the same places among these, leave that id alike, whatever the others do |
| Batch.AsIfAlone | app/worker.py:199-202 | In any schedule each id ends as if its own handlers had run by themselves over the same clock; no premise on lapses |
| Batch.ConcurrentEqualsOneByOne | app/worker.py:188-209 | For handlers on distinct ids, a concurrent schedule in which the id's key does not run out, exceptions included, leaves each id as running the handlers one by one, up to new entry ids and the clock |
| Batch.ShortBatchEqualsOneByOne | app/worker.py:188-209 | The same for any schedule that is over before a key alive at its start, or a claim or marker written from then on, would run out |
| Batch.LapseMatters | app/queue.py:189-191 | For one handler and one wait, the order of SET NX and the wait shows if and only if the key runs out during the wait |
| Interleaving.EveryOrderIsGathered | app/worker.py:188-202 | For every list of coroutines, each still running when its turn comes, and whatever happens at their awaits, there are picks of the event loop with which every run of Gather begins with a log whose own steps are one for each, in just that order; so no sleeping or slow handler holds up another |
| Interleaving.GatheredAsIfAlone | app/worker.py:199-202 | Whatever the loop picks, what Gather did leaves each id as if its own handlers had run by themselves over the same clock |
| Interleaving.GatheredAsOneByOne | app/worker.py:199-202 | And, for handlers on distinct ids whose key does not run out meanwhile, as if they had run one by one in any order |
| Queue.World.IsARun | app/worker.py:269-300 | The state the code has reached is the machine's after the logged actions, and so reachable |
| Queue.World.Await | app/worker.py:199-202 | At an await the rest of the system runs; it raises exactly if its turn does, and an exception ends this handler and no other |
| Queue.World.Advance | app/worker.py:125-185 | A command that did to Redis what the machine's next step does moves the handler where that step leads |
| Queue.BeginDelivery | app/queue.py:177-194 | WON, ALREADY_DELIVERED and IN_PROGRESS leave the handler before dispatch, before ack, and ended; after WON the key is a claim for claim_ttl_seconds; with a lifetime the server accepts it raises exactly if one of its commands did, and with any other always |
| Queue.CompleteDelivery | app/queue.py:197-206 | After it the key is a completion marker that expires DELIVERED_TTL_SECONDS from now; on to ack, or the handler dies with no effect, exactly if the command raised or was refused |
| Queue.AbandonDelivery | app/queue.py:209-211 | DEL of the claim; on to re-publishing, or to ack after a dead letter; raises exactly if the command did |
| Queue.DeadLetter | app/queue.py:147-157 | The event is appended to the dead-letter stream; raises exactly if the command did |
| Queue.EnqueueEvent | app/queue.py:51-65 | The event with its incremented retry_count is appended to the stream; raises exactly if the command did |
| Queue.Ack | app/queue.py:137-144 | XACK, then XDEL, and the handler ends; raises exactly if one of the two did |
| Worker.Dispatch | app/worker.py:86-122 | dispatch begins, does not return exactly if its await raised, and the answer it got moves retry_count and the branch |
| Worker.Handle | app/worker.py:125-185 | One entry to its end: every command is the machine's, in the machine's order, under any interference and any exception; with lifetimes the server accepts it fails exactly if one of its own awaits raised, and with a refused claim always; other handlers of the worker are untouched |
| Coroutines.SleepOn | app/worker.py:168-178 | The wait ends with the time slept equal to the larger of the capped backoff of the new retry_count and what it was before |
| Coroutines.SleepOutBackoff | app/worker.py:168-178 | The sleep with the claim held is that one wait and one await; when it is over the handler goes on to give up its claim, and it raises exactly if the await did |
| Coroutines.Resume | app/worker.py:125-185 | handle from one await to the next: what it logs is its wait if it sleeps, what others did at the await, and its own one step; the other coroutines of the batch are untouched, fewer commands are left, and it throws exactly if its own await raised or its command was refused |
| Coroutines.Gather | app/worker.py:199-202 | What it logs, and in which order, is exactly what the event loop's picks make of the batch; all coroutines end, each by its own last command or by its exception; with lifetimes the server accepts as many fail as there were awaits that raised, so one exception cancels nobody else |
| Worker.ProcessBatch | app/worker.py:188-209 | The handlers of the batch run in the order the picks make, each to its own end, its result says which, and with lifetimes the server accepts exactly as many fail as there were awaits that raised |
| Worker.ReadNew | app/queue.py:87-103 | After whatever others did, the next undelivered entries are handed out in order and the readable ones are returned, each with a handler; raises exactly if the command did |
| Worker.ReclaimStale | app/queue.py:106-134 | After whatever others did, one sweep from the given cursor: its readable entries, each with a handler, and the next cursor; raises exactly if the command did |
| Worker.RunLoop | app/worker.py:269-300 | The loop, under any interference: nothing published is lost; it sends, or tries to send, exactly one XAUTOCLAIM or XREADGROUP for each check of the shutdown flag, a read after each sweep and a sweep otherwise; each error is an await that raised and stands in the log with a pause of just REDIS_ERROR_BACKOFF_SECONDS; the run is those sweeps, each from where the last left the cursor; entries stale or unread at the start, or stale after any sweep, are reached in a stated number |
| Rota.TriesAreWork | app/worker.py:269-300 | Commands sent in turn are half of them sweeps and half reads, but for the errors |
| Rota.PausesMoveTheClock | app/worker.py:300 | Each pause in the log has moved the clock on by its whole length, so so many errors last at least so many times the pause |
| Worker.Depth | app/queue.py:214-234 | Three commands with anything in between: each count is the truth at its own command (or 0 exactly if XPENDING raised), and queued and in_flight add up to the length read, or the clamp keeps queued at zero |
| Worker.DepthOnASnapshot | app/queue.py:228-234 | In every reachable state, with nothing happening between the commands, the clamp never fires and the counts add up to the stream |
| Worker.ClampMayBeNeeded | app/queue.py:228-231 | An entry added and delivered between XLEN and XPENDING makes the clamp fire |
| Worker.PendingFitsTheStream | app/queue.py:228-231 | Where pending ids are stream ids the clamp in depth() never fires |
| RedisStore.Redis.XReadGroup | app/queue.py:96-102 | The walk over the stream hands out the next undelivered entries, in order, and marks them pending |
| RedisStore.Redis.XAutoClaim | app/queue.py:112-119 | The walk over the pending ids adopts stale ones within ten examined per one wanted, and returns the next pending id or 0 |
| RedisStore.Redis.SetClaim | app/queue.py:189-191 | SET NX EX writes the key if and only if it reads as missing and the expiry is positive, and says so |
| RedisStore.Redis.GetClaim | app/queue.py:193-194 | GET returns the value of a live key, nothing for a lapsed one |
| Handout.Decode | app/queue.py:68-84 | The loop keeps exactly the readable entries, in order |
| Handout.DecodedKeepsTheReadable | app/queue.py:68-84 | An entry comes out if and only if its payload is readable, and an unreadable one stops nothing |
| Handout.ReadIsARun | app/queue.py:87-103 | One XREADGROUP is a run of single deliveries with one handler per readable entry |
| Handout.ReclaimIsARun | app/queue.py:106-134 | One XAUTOCLAIM is a run of single adoptions with one handler per readable entry |
| Ingest.IsDuplicate | app/dedup.py:5-12 | Duplicate if and only if the id's key is alive; otherwise this call sets it for DEDUP_TTL_SECONDS, in one command, and it changes nothing else; it raises exactly when the expiry is refused |
| Ingest.IngestEvents | app/main.py:137-165 | The loop, stopped after any number of commands, computes the specified outcome: store, accepted, duplicates and where it stopped |
| Ingest.IngestIsARequest | app/main.py:137-165 | That outcome is one request of the machine of interleaved requests, run with no other's commands in between and then stopped: same store, same appended ids, same orphan |
| Ingest.IngestClaims | app/main.py:143-153 | A request claims the ids it appended and the one it may have orphaned, each once and for a full lifetime, and touches no other key |
| Ingest.FinishedClaimsAll | app/main.py:140-165 | A request that finishes leaves every id of its payload claimed, and accepted plus duplicates is the number of events |
| Ingest.IngestUnderFailure | app/main.py:137-165 | Over any attempts on one payload within one lifetime, each stopping anywhere, an id is appended at most once; after a success the free ids that are missing are exactly those claimed by an attempt that stopped before its append |
| Ingest.SuccessMayHideALoss | app/main.py:143-153 | A failed attempt followed by a successful one that leaves the event unqueued |
| Ingest.IngestIsAFilter | app/main.py:140-165 | Error-free: appended, in order, are exactly the first occurrences of ids not claimed before; accepted plus duplicates is the number of events; just those ids are newly claimed |
| Ingest.IngestExtendsTheStream | app/main.py:152-154 | What was appended stands at the end of the stream in order, and no other entry changed |
| Ingest.InterleavedIngest | app/main.py:137-165 | Requests interleaved command by command, stopping anywhere: each time a key is newly set leads to one append or one orphan or is still in a request's hands, and two such times are a lifetime apart |
| Ingest.SinceAnyPoint | app/main.py:137-165 | The same balance between any two points of a run |
| Ingest.GonePastIsAccounted | app/main.py:140-165 | Interleaved requests: an id that a request has gone past, and so every id of one that finished, has been appended, was orphaned, is in the hands of a request that set its key, or was claimed before |
| Ingest.OncePerLifeWhen | app/dedup.py:5-12 | From any point of a key's life, at most one append of the id is certain for the rest of it if and only if at most one request has set the key, in this life or an earlier one, and not yet appended |
| Ingest.NewLifeIsSafeWhen | app/dedup.py:11 | At the command that sets the key, at most one append in the life that begins is certain if and only if no request still holds an earlier life's claim |
| Ingest.SlowRequestAppendsTwice | app/main.py:143-153 | A run in which an id is appended twice within the life of its second key |
| Ingest.AppendedOncePerTtl | app/dedup.py:5-12 | Interleaved requests append an id at most once in the first life that a run gives the id's key, orphans included |
| EndToEnd.AcceptedIsNotLost | app/main.py:152-154 | Requests and workers interleaved over one Redis, no premise on timing: at every moment what ingest has appended is what delivery counts as published, and each such id is recoverable, dead-lettered or confirmed |
| Normalizer.ExtractEvents | app/normalizer.py:63-112 | The nested loops yield what listing all nodes in document order, messages before statuses in each change, and keeping those with an id yields |
| Normalizer.AppendItems | app/normalizer.py:77-110 | The innermost loop appends one event per object with an id, in order |
| Normalizer.OneEventPerNode | app/normalizer.py:63-69 | Each node with an id yields the event at its rank, and there are no other events |
| Normalizer.JunkIsIgnored | app/normalizer.py:6-20 | Taking everything that is not an object out of the lists at every level leaves the events the same |
| Normalizer.SameUpToJunk | app/normalizer.py:6-20 | Payloads that differ only in such junk yield the same events |
| Normalizer.InsertedJunkChangesNothing | app/normalizer.py:6-20 | Nulls and values of the wrong type inserted anywhere into any list of entries, changes, messages or statuses of a payload leave the extracted events as they were |
| Normalizer.TextReadsOnlyItsField | app/normalizer.py:23-51 | The text depends only on the type and the sub-object the type names |
| Normalizer.EventsLoseNothing | app/normalizer.py:82-110 | Round trip: the nodes with an id can be read back from the events, all, in order and whole; each event has a usable id and agrees with the fragment it carries |
| Paths.EveryItemHasItsEvent | app/normalizer.py:63-112 | An object at entry[i].changes[j].value.messages[k] or .statuses[k] with an id that Python takes for true has an event, which carries it whole and whose every field is what stands at the field's path, or None; to_number is metadata.display_phone_number |
| Paths.EveryEventHasItsItem | app/normalizer.py:63-112 | Each event is that of such an object, so there are no others |
| Paths.EventsInDocumentOrder | app/normalizer.py:71-97 | The events stand in document order, by entry, change, messages before statuses, and position; no two objects share one |
| Paths.TextIsExtracted | app/normalizer.py:23-51 | The text of each type of message is what stands at the path that type has, or None |

## Left out

- HTTP, routing, rate limiting, signature checks, health, statistics, metrics, logging, correlation ids: dispatch is an oracle that answers True or False or does not return.
- Redis client retries and socket timeouts: they make a command's effect ambiguous; here a command is applied once or not at all.
- Trimming by MAXLEN, and pending ids whose entry is gone: a server option that drops entries by design, kept as a premise.
- JSON text: an event is what it decodes to; a payload is readable, not JSON, or missing. An entry whose JSON is not an object is not modelled.
- Schema checks on leaf values, timestamp parsing, received_at: leaves are carried as they are.
- Floats: settings and clocks are reals, without rounding, overflow or NaN.
- Stream ids are naturals handed out in increasing order; consumer names are not told apart, as the group's rules here do not depend on them.
- XREADGROUP's block time. In the machine the next command may come at any later instant, also after a backoff sleep, whose length `Coroutines.SleepOn` fixes in the code; the upper bounds are premises of `Timing.TimingChain`. The HTTP client's timeout is per phase, so "a POST lasts at most the timeout" stays a premise.
- Group creation, signal handling, manual replay of dead letters, peek_dlq: outside the protocol.
- Worker.Handle: `handle` run by itself; a batch runs the same code cut at its awaits, `Coroutines.Resume`, which is the concurrent form.
- Worker.RunLoop: an exception other than an error from Redis ends the code's loop and is the end of a run here.
- Ingest.IngestEvents: the code as a method runs without interference; `Ingest.IngestIsARequest` ties it to the machine in which requests run at the same time.
- Worker.ProcessBatch: the count of failures is an equality for lifetimes the server accepts; with a refused one a handler also fails where it reaches the refused command, as `Coroutines.Resume` says exactly.
- Ingest.IngestUnderFailure: looks at one payload's attempts within one dedup lifetime, after which an id may be appended again.
- Batch.ConcurrentEqualsOneByOne: running the handlers one by one takes the waits out, so it is stated for schedules in which the id's key does not run out; `Batch.AsIfAlone` has no such premise.
- Interleaving.GatheredAsIfAlone: for awaits during which handlers step and time passes; publishing and reads by others in between are covered by the results over all runs.
- Interleaving.EveryOrderIsGathered: a handler that has won its claim enters dispatch without an await, so a beat in which it dies just there is not one of them.
- Config.BackoffGrowsToTheCap: needs a base of at least 1; `Config.BackoffShrinksWhen` covers every base.
- Timing.CheckedSettingsOutlast: needs a cap of zero or more, which the startup check does not ask for; `Timing.NegativeCapExactly` covers the rest.
- Timing.NegativeCapExactly: for a timeout and an overhead of zero or more; with a negative one no handler is prompt.
- Ingest.IngestIsAFilter: is about requests in which no command fails, and so about a positive lifetime; with any other the first command is refused.
- RedisStore.Redis.XAutoClaim: expects every pending id to be in the stream, which `Invariants.StreamAccounting` proves of every reachable state.
