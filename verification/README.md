# Verification of the mud-logging relay's delivery engine

This project models the part of the relay that moves frames: admission of signed requests, fan-out
to the geology stores, the per-store queues, the workers with their circuit breakers and token
buckets, the retry policy, the dead-letter queue, the attempt journal, operator replay, and the
restart of the queues from a snapshot. It proves what these pieces keep, one by one and together
over every interleaving of any number of workers.

`dafny verify dfyconfig.toml` checks everything.

## How it is built

Three layers, each proved against the next.

* **The objects.** Every object whose methods change it is a class with the program's own fields and
  loops: the due-time heap with its index back-pointers (`DueHeap.dfy`), the broker (`Broker.dfy`),
  the breaker (`Breaker.dfy`), the bucket (`Bucket.dfy`), the gates (`Gates.dfy`), the dead-letter
  queue and the journal (`Lists.dfy`), the store registry (`Routing.dfy`), the nonce book and the
  idempotency store (`Admission.dfy`), the ingest pipeline (`Ingest.dfy`), the id generator
  (`IdGen.dfy`). Each method is proved to do what a function on values says.
* **The step system.** `Delivery.dfy` makes one step of each critical section: a state of the clock,
  the stores, the broker, the gates, the workers' phases, the dead letters, the journal and the
  fan-outs under way, with a history that steps read only to see that an id is new and for the
  payload of a frame being relayed. A run is any sequence of steps; nothing is assumed about
  scheduling, and the outcome of a POST is arbitrary.
* **The engine.** `Worker.dfy` has `tick`, `handle`, `Replay`, the creation and switching of stores and
  the acceptance of a frame by the ingest pipeline as methods over the objects. Each method records
  the steps it takes, and its contract lists them; the engine's invariant is that they are a run of
  the step system and that the objects hold what that run says. So what is proved of every run
  holds of the objects (`EngineIsSafe`). What a step changes is spelled out in `Effects.dfy`.

The whole-run theorems are in `Accounts.dfy` (in-flight accounting, depth), `Ledger.dfy`
(conservation, replays of dead letters), `Lineage.dfy` (payloads and replay chains), `Routes.dfy`
(routing), `StoreRates.dfy` (rate limit), `Attempts.dfy` (attempt numbers and backoff),
`Burials.dfy` (what a dead letter tells of its relay's POSTs),
`Overtaking.dfy` (scheduling), `Progress.dfy`, `Scenes.dfy` and `StuckRuns.dfy` (half-open breakers)
and `Snapshots.dfy` (restart).

The clock is a parameter of every call that reads it. Within a run it never goes back. A step that
stamps a time may use a reading older than the clock at the moment the step takes effect, because
the program reads the clock before it takes the lock. Durations are integers in nanoseconds; rates
and tokens are exact reals, and the truncation of a wait to whole nanoseconds is kept.

## Where the code does less than its design says

These are theorems about the code as it is.

* **The rate limit** (section 3.7 of PROJECT.md promises `burst` plus `rate` a second). `Take` truncates its
  wait to whole nanoseconds, and a deficit of less than one nanosecond's refill lets the call
  through without taking a token, any number of times. The tokens taken out are always within the
  bound (`Buckets.RateBound`); the calls let through are within it, for every history, if and only
  if one token takes a whole number of nanoseconds to refill (`Buckets.GrantsWithinRateIff`). Five a
  second is such a rate, three a second is not.
* **A half-open breaker can get stuck.** A probe is spent by `Allow` before `Take` is asked, and the
  rate-delay exit never gives it back. In any interleaving of n workers a store can get stuck half
  open, for good, if and only if n > 0, some valid type goes to it, and its refill is not ample
  (`StuckRuns.GetsStuckIff`). Which stores a type can go to is read off their prefixes
  (`Routing.TakesSomeIff`): a prefix like `A.` is registered and matches nothing. The refill is ample
  when `Earned(rate, openFor + 1)` and `burst + Earned(rate, 1)` both exceed one token plus the
  workers that can be stale, or when one nanosecond earns more than a token (`StuckRuns.AmpleMeans`). Stale are the workers let through by the breaker before it opened that
  have yet to take a token: at most one less than the store's limit, and than n. With `Allow` and
  `Take` as one atomic step none is stale, and the condition is exact again
  (`StuckRuns.GetsStuckAtomicIff`).
* **A nonce can be accepted twice** when the request is stamped at or after the second of its first
  acceptance: the signature window then outlasts the nonce's. With a whole-second window this is
  the exact condition (`Admission.SecondPassIff`, and of the book itself `Admission.BookReadmitsIff`).
* **A dead letter can become two relays.** The Remove of a replay comes after its Enqueue, so another
  replay may come in between: exactly as long as no Remove of it has come and it has not been evicted
  (`Ledger.ReplayedAgainIff`).
* **A prefix that ends in a dot is never refused**, whatever comes before the dot; any other must be a
  valid type (`Routing.Clean`).
* **A snapshot leaves out leased jobs.** Restart is exact if and only if no worker is between Lease
  and Release (`Snapshots.RestartIsExactIff`).
* PROJECT.md lists the rate limit before the breaker; `handle` asks the breaker first. A replayed
  job starts at attempt 0 and is counted to 1 by its first POST, where the design says it is reset
  to 1. The backoff exponent is the attempt minus one. The model follows the code in each case.

## Model

| member | source | states |
|---|---|---|
| `DueHeaps.UpSeqRestores` | internal/queue/queue.go:17-32 | sift-up turns a heap with one link out of order into a heap, and keeps the multiset of jobs |
| `DueHeaps.DownSeqRestores` | internal/queue/queue.go:17-32 | sift-down turns a heap with one position out of order into a heap, keeps the multiset, and leaves the tail alone |
| `DueHeaps.PushKeepsHeap` | internal/queue/queue.go:34-38 | a push keeps the heap order and adds exactly the pushed job |
| `DueHeaps.PopKeepsHeap` | internal/queue/queue.go:40-48 | a pop keeps the heap order, takes out exactly the root, and nothing in the heap came before the root |
| `DueHeaps.RootIsLeast` | internal/queue/queue.go:21-26 | every job of a heap is due later than its root, or at the same time and not created before it |
| `DueHeaps.DueHeap.Swap` | internal/queue/queue.go:28-32 | exchanges two items and their index fields, so every item still knows its position |
| `DueHeaps.DueHeap.Push` | internal/queue/queue.go:34-38 | appends the item and gives it the last position as index |
| `DueHeaps.DueHeap.Pop` | internal/queue/queue.go:40-48 | cuts the last item off and sets its index to -1 |
| `DueHeaps.DueHeap.Up` | internal/queue/queue.go:17-32 | container/heap's loop refines the recursive sift-up, index fields kept true |
| `DueHeaps.DueHeap.SinkOnce` | internal/queue/queue.go:17-32 | one round of container/heap's down: where it stops and what it leaves to do |
| `DueHeaps.DueHeap.Down` | internal/queue/queue.go:17-32 | container/heap's loop refines the recursive sift-down, index fields kept true |
| `DueHeaps.DueHeap.HeapPush` | internal/queue/queue.go:97-97 | the heap with its back-pointers stays valid and its job column becomes that of the specified push |
| `DueHeaps.DueHeap.HeapPop` | internal/queue/queue.go:125-125 | returns the old root with index -1; the heap stays valid and holds exactly the other items, its job column that of the specified pop |
| `Brokers.DestQueue.constructor` | internal/queue/queue.go:58-68 | an empty queue whose limit is 1 when ordered or when the configured one is below 1 |
| `Brokers.DestQueue.Push` | internal/queue/queue.go:97-97 | a new item in the heap: one more occurrence of the job, every other item still there, heap order and index fields kept |
| `Brokers.DestQueue.PopLeased` | internal/queue/queue.go:125-127 | hands out the head of the heap, removes one occurrence of it and counts one more in flight |
| `Brokers.DestQueue.Release` | internal/queue/queue.go:133-135 | one fewer in flight, nothing else changed |
| `Brokers.Broker.Ensure` | internal/queue/queue.go:80-87 | makes a missing queue and leaves an existing one alone |
| `Brokers.Broker.Enqueue` | internal/queue/queue.go:89-98 | the job joins its own store's queue, made first if missing; other queues are untouched |
| `Brokers.Broker.PickDest` | internal/queue/queue.go:104-123 | for any order of the map: finds a store with room whose head is due first of all such stores, or none exactly when nothing with room is due |
| `Brokers.Broker.Lease` | internal/queue/queue.go:100-128 | returns false exactly when no store with room holds a due job; otherwise a due job, least in its own store, due no later than any job of any store with room, now in flight |
| `Brokers.Broker.LeaseFrom` | internal/queue/queue.go:125-127 | takes the head of one store and changes no other store |
| `Brokers.Broker.Release` | internal/queue/queue.go:130-136 | gives one slot back if the store has one out, and otherwise changes nothing |
| `Brokers.Broker.Depth` | internal/queue/queue.go:138-146 | the sum over the stores of waiting and in-flight jobs, whatever the order of the map |
| `Brokers.Broker.Snapshot` | internal/queue/queue.go:158-168 | lists exactly the multiset of waiting jobs; leased jobs are not in it |
| `Brokers.Broker.Restore` | internal/queue/queue.go:170-185 | the broker becomes the one its argument stands for, nothing in flight |
| `Brokers.Broker.EnsureAll` | internal/queue/queue.go:174-176 | an empty queue for every store of the metadata |
| `Brokers.Broker.EnqueueAll` | internal/queue/queue.go:177-184 | the jobs join their stores' queues one by one, a missing queue made unordered with limit 2 |
| `Brokers.EnqueueMeans` | internal/queue/queue.go:80-98 | a missing queue is made with the limit given, 1 when ordered or below 1; an existing one keeps everything and gains the job; no other store changes |
| `Brokers.ReleaseMeans` | internal/queue/queue.go:130-136 | one slot comes back to this store if it has one out, and nothing else changes |
| `Brokers.LeaseMeans` | internal/queue/queue.go:100-128 | a job may be handed out exactly when its store has room, it is due, no job of its store comes before it by due time and then creation time, and no job of a store with room is due earlier |
| `Brokers.NothingMeans` | internal/queue/queue.go:104-123 | nothing is handed out exactly when no job of a store with room is due |
| `Brokers.RestoredStray` | internal/queue/queue.go:177-184 | a queue restored for a job whose store the metadata does not name is unordered with limit 2, and there is no other such queue |
| `Breakers.Breaker.Allow` | internal/circuit/circuit.go:78-96 | Closed lets through; Open refuses until openFor has passed since it opened and then half-opens with the full budget; HalfOpen lets through and spends a probe while there is one |
| `Breakers.Breaker.Success` | internal/circuit/circuit.go:98-104 | closes the breaker from any state and clears the count |
| `Breakers.Breaker.Failure` | internal/circuit/circuit.go:106-120 | in Closed counts and opens at the threshold; HalfOpen opens at once; in Open nothing changes |
| `Breakers.Breaker.TripLocked` | internal/circuit/circuit.go:122-126 | opens at the given instant with no probes |
| `Breakers.Breaker.MaybeHalfOpen` | internal/circuit/circuit.go:128-136 | half-opens with the full probe budget once openFor has passed, and only then |
| `Breakers.Breaker.Snapshot` | internal/circuit/circuit.go:138-148 | settles the breaker and returns its fields, the state as text |
| `Breakers.Breaker.Restore` | internal/circuit/circuit.go:157-171 | the fields are those of the image, a state text that is neither open nor half_open read as closed |
| `Breakers.RestoresImage` | internal/circuit/circuit.go:138-171 | a breaker restored from its own image is as it was |
| `Breakers.FailureCount` | internal/circuit/circuit.go:98-120 | over any history: failures is the number of Failure calls since the last Success, capped at the threshold, and the breaker is Closed exactly when that number is below it |
| `Breakers.TripHolds` | internal/circuit/circuit.go:106-136 | from a trip until a Success the breaker is not closed, and half open only openFor after its last opening |
| `Breakers.QuietAfterTrip` | internal/circuit/circuit.go:78-96 | no call is let through within openFor of a trip unless a Success intervened |
| `Breakers.TripsApart` | internal/circuit/circuit.go:106-126 | trips with no Success between them are at least openFor apart |
| `Breakers.ProbesSpent` | internal/circuit/circuit.go:78-96 | since the last trip the calls let through are exactly the probes missing from the budget |
| `Breakers.ProbesBetweenTrips` | internal/circuit/circuit.go:78-126 | between consecutive trips without a Success at most the configured number of probes is let through |
| `Buckets.Bucket.constructor` | internal/ratelimit/ratelimit.go:21-36 | a full bucket, rate and burst defaulted to 5 when not positive |
| `Buckets.Bucket.Take` | internal/ratelimit/ratelimit.go:38-58 | refill, cap, take or wait as the specification function says, the wait truncated |
| `Buckets.WaitBounds` | internal/ratelimit/ratelimit.go:55-57 | the wait is the largest number of nanoseconds that does not earn more than what is missing |
| `Buckets.EarnedIs` | internal/ratelimit/ratelimit.go:38-49 | a rate is in tokens a second: n seconds earn n times the rate |
| `Buckets.TakeKeepsValid` | internal/ratelimit/ratelimit.go:38-58 | tokens stay between 0 and burst and the wait is never negative |
| `Buckets.FreeGrantIff` | internal/ratelimit/ratelimit.go:50-57 | a zero return that takes no token occurs exactly when less than one nanosecond of refill is missing |
| `Buckets.WaitSuffices` | internal/ratelimit/ratelimit.go:38-58 | a Take made no earlier than the returned wait after this one, and the next one made, goes ahead, despite the truncation |
| `Buckets.TokensAndConsumed` | internal/ratelimit/ratelimit.go:38-58 | over any history on a monotone clock, tokens left plus tokens taken in a window are at most burst plus what the window earns |
| `Buckets.RateBound` | internal/ratelimit/ratelimit.go:38-58 | tokens taken in any window number at most burst plus rate times its length |
| `StoreRates.TokenMeansPost` | internal/worker/worker.go:91-99 | a Take that takes a token sends the POST out |
| `StoreRates.OnHandAndTaken` | internal/worker/worker.go:82-97 | over any stretch of any run, the tokens the POSTs of a store take and what its bucket still holds are at most its burst and what its rate earns in the meantime |
| `StoreRates.PostsWithinRate` | internal/worker/worker.go:82-97 | so the token-taking POSTs of a store, whoever sends them, are within burst plus rate times the time, in every stretch of every run |
| `Buckets.FloodRun` | internal/ratelimit/ratelimit.go:50-57 | for a rate that refills a token in no whole number of nanoseconds: a history that lets any number of calls through at one instant |
| `Buckets.GrantsWithinRateIff` | internal/ratelimit/ratelimit.go:38-58 | the rate bound holds of the calls let through, for every history and window, if and only if a token refills in a whole number of nanoseconds |
| `Buckets.FiveIsWholeThreeIsNot` | internal/ratelimit/ratelimit.go:21-27 | the default rate of 5 refills in a whole number of nanoseconds, a rate of 3 does not |
| `Gates.Registry.Ensure` | internal/runtime/runtime.go:39-51 | a missing breaker is made fresh; the bucket is replaced exactly when rate or burst differ from those it was made for |
| `Gates.Registry.Allow` | internal/runtime/runtime.go:53-62 | asks this store's breaker, made fresh if missing, and touches no other breaker and no bucket |
| `Gates.Registry.Success` | internal/runtime/runtime.go:53-62 | tells this store's breaker, made fresh if missing, of a success and touches nothing else |
| `Gates.Registry.Failure` | internal/runtime/runtime.go:53-62 | tells this store's breaker, made fresh if missing, of a failure and touches nothing else |
| `Gates.Registry.Take` | internal/runtime/runtime.go:64-73 | takes from this store's bucket, made for 5 a second and a burst of 5 if missing, and touches nothing else |
| `Gates.EnsureMeans` | internal/runtime/runtime.go:39-51 | a closed breaker is made where there is none, and a full bucket where there is none for this rate and burst; nothing else changes |
| `Gates.MissingMeans` | internal/runtime/runtime.go:53-73 | what is there stays; else a closed breaker, or a full bucket of 5 a second and a burst of 5 |
| `Lists.DeadQueue.constructor` | internal/dlq/dlq.go:45-50 | empty, with capacity 100 when fewer than 20 are asked for |
| `Lists.DeadQueue.Push` | internal/dlq/dlq.go:52-62 | appends and keeps the most recent items up to capacity |
| `Lists.DeadQueue.Get` | internal/dlq/dlq.go:76-85 | the last item of the relay, or none exactly when there is none |
| `Lists.DeadQueue.Remove` | internal/dlq/dlq.go:87-97 | takes out the first item of the relay, none of it before, and keeps the others in order |
| `Common.LastNIs` | internal/dlq/dlq.go:52-62 | a bounded list that is given one more element ends with it, keeps the order of what is left, and is as long as its capacity allows |
| `Lists.PushBalance` | internal/dlq/dlq.go:52-62 | what was there and what is pushed is what is kept and what is dropped |
| `Lists.RemoveBalance` | internal/dlq/dlq.go:87-97 | Remove takes out exactly one occurrence of the id |
| `Lists.GetIsRemove` | internal/dlq/dlq.go:76-97 | when no relay is dead twice, the backward search of Get and the forward search of Remove stop at the same item |
| `Lists.Log.constructor` | internal/journal/journal.go:32-37 | empty, with capacity 200 when fewer than 50 are asked for |
| `Lists.Log.Append` | internal/journal/journal.go:39-49 | appends and keeps the most recent entries up to capacity |
| `Lists.Log.Get` | internal/journal/journal.go:70-79 | the last row of the relay, none of it after, or none exactly when no row is of the relay |
| `Backoff.Validate` | internal/backoff/backoff.go:24-35 | keeps a positive base, a cap not below the base and a limit of at least one; the defaults of the others are 200 ms, 30 s and 8 |
| `Backoff.ValidateOnce` | internal/backoff/backoff.go:24-46 | validating again, as Exhausted and Delay do, changes nothing |
| `Backoff.DelayIs` | internal/backoff/backoff.go:44-61 | the delay is the random number times the smaller of cap and base times 2^(attempt - 1), in whole nanoseconds, the exponent between 0 and 30 |
| `Backoff.DelayOnto` | internal/backoff/backoff.go:42-61 | full jitter: every whole number of nanoseconds below that bound is the delay of some random number |
| `Backoff.DelayBounds` | internal/backoff/backoff.go:44-61 | a delay is not negative and below the capped exponential of its attempt |
| `Backoff.EnvelopeBound` | internal/backoff/backoff.go:44-61 | the delays after n attempts add up to at most n times the cap, and at most base times (2^n - 1) |
| `Backoff.EnvelopeGrows` | internal/backoff/backoff.go:44-61 | more attempts never allow less delay in total |
| `Routing.SplitPrefix` | internal/frame/frame.go:133-144 | the dot-split segments of p begin those of t exactly when t is p or continues p at a dot |
| `Routing.SplitInjective` | internal/frame/frame.go:133-144 | a type is determined by its segments |
| `Routing.MatchIsSegmentPrefix` | internal/frame/frame.go:133-144 | a nonempty prefix without trailing dot matches exactly the types whose segments begin with its segments |
| `Routing.MatchIsProperSegmentPrefix` | internal/frame/frame.go:133-144 | a prefix with a trailing dot matches exactly the types with its stem's segments and at least one more |
| `Routing.TrimIs` | internal/frame/frame.go:104-105 | trimming leaves the middle of a string that is a run of spaces, a middle with no space at either end, and a run of spaces |
| `Routing.Utf8LenIs` | internal/frame/frame.go:109-109 | the byte length of a string counts each character in the shortest UTF-8 sequence with room for it and adds up over concatenation |
| `Routing.ValidateType` | internal/frame/frame.go:104-131 | accepts exactly the types that, trimmed, are not empty, at most 128 bytes long, and split at dots into nonempty segments of legal characters |
| `Routing.ValidTypeIs` | internal/frame/frame.go:104-131 | those are the strings of 1 to 128 of the characters a to z, 0 to 9, underscore, hyphen and dot, with no dot at either end and no two in a row |
| `Routing.Clean` | internal/geology/geology.go:62-75 | the loop refuses exactly when some nonblank prefix is refused, and otherwise keeps the trimmed nonblank prefixes in order |
| `Routing.CreatedMatches` | internal/geology/geology.go:62-79 | a created store takes exactly what its nonblank prefixes match, and everything when it was given none |
| `Routing.CreatedKeepsGood` | internal/geology/geology.go:62-91 | limits in range and clean prefixes are kept as given |
| `Routing.StoreOf` | internal/geology/geology.go:45-93 | every store created has a positive rate, a burst of at least 1, a limit of 1 to 16 and, from an accepted input, the blank prefix alone or trimmed acceptable ones |
| `Routing.CreatedIff` | internal/geology/geology.go:45-93 | the stores that some accepted input creates are exactly the normalized ones |
| `Routing.TakesSomeIff` | internal/frame/frame.go:104-144 | some valid type matches a store if and only if one of its prefixes is blank, has no trailing dot, or makes a valid type with one letter after its dot |
| `Routing.Registry.Create` | internal/geology/geology.go:143-170 | each refusal exactly when its own test is the first to fail, registering nothing; otherwise the store is registered, enabled unless told otherwise, with rate 5, burst 5 and limit 2 where none is given, the limit capped at 16, and the nonblank prefixes trimmed |
| `Routing.Registry.SetEnabled` | internal/geology/geology.go:193-204 | changes one store's flag and nothing else; an unknown id changes nothing |
| `Routing.Registry.Matching` | internal/geology/geology.go:235-245 | lists every enabled store with a matching prefix exactly once, and no other |
| `Routing.PlanStores` | internal/fanout/fanout.go:24-40 | one item for each store that matches, in order, with the ids of the generator in order; the others are counted as dropped |
| `Routing.PlannedMatch` | internal/fanout/fanout.go:24-40 | the plan names exactly the stores given that match |
| `Routing.PlannedAll` | internal/fanout/fanout.go:24-40 | when all match none is dropped |
| `Admission.Collect` | internal/nonce/nonce.go:53-60 | the collection loop leaves exactly the unexpired records, unchanged |
| `Admission.LookupIsHistory` | internal/idempotency/idempotency.go:45-65 | after any collections, a live record in the map is the live record of the full history |
| `Admission.AcceptRemembers` | internal/idempotency/idempotency.go:57-64 | accepting a key that is not live keeps map and history in agreement and acceptances of one key a ttl apart |
| `Admission.Store.constructor` | internal/idempotency/idempotency.go:32-41 | an empty store, the ttl defaulted to 24 hours |
| `Admission.Store.Remember` | internal/idempotency/idempotency.go:45-65 | an acceptance of the key less than a ttl ago makes it a replay of that frame, or a conflict when the body differs; without one it is a fresh acceptance, which alone is recorded |
| `Admission.AnswerIsUnique` | internal/idempotency/idempotency.go:43-65 | the history determines the answer |
| `Admission.AnswerMeans` | internal/idempotency/idempotency.go:43-65 | what an answer of the history comes to: the acceptance less than a ttl ago decides, and without one the key is fresh |
| `Admission.Book.constructor` | internal/nonce/nonce.go:24-33 | an empty book, the window defaulted to 300 seconds |
| `Admission.Book.CheckAndRemember` | internal/nonce/nonce.go:35-51 | accepts exactly the nonces not accepted less than a window ago, over the full history |
| `Admission.InWindowIs` | internal/sign/sign.go:76-86 | the skew test is two-sided: the timestamp is at most the whole seconds of the window before or after the second of the clock |
| `Admission.SecondPassIff` | internal/sign/sign.go:76-86 | with a whole-second window, there is an instant past the window at which the skew test still passes if and only if the timestamp is not below the Unix second of the first acceptance |
| `Admission.BookReadmitsIff` | internal/nonce/nonce.go:35-51 | just after a book has accepted a request, there is a later instant at which book and skew test accept it again if and only if its timestamp is not below the second of this acceptance |
| `Admission.LastDecides` | internal/nonce/nonce.go:35-51 | whether a book accepts a nonce again is decided by its last acceptance alone |
| `Admission.NeverAcceptedAgain` | internal/sign/sign.go:76-86 | over a book's history, a (timestamp, nonce) pair stamped below the second of its first acceptance is never accepted again |
| `Ingest.Pipeline.Screen` | internal/ingest/ingest.go:42-71 | the tests before the nonce book, one after the other |
| `Ingest.RefusalIs` | internal/ingest/ingest.go:42-71 | a request gets past the tests before the nonce book exactly when every one is passed, the two-sided clock test and the MAC included; otherwise the first test that fails gives the status |
| `Ingest.Pipeline.Admit` | internal/ingest/ingest.go:72-87 | a live nonce is refused and changes nothing; otherwise the nonce is remembered and the answer is that of the idempotency history |
| `Ingest.Pipeline.EnqueueAll` | internal/ingest/ingest.go:91-108 | the relays of the plan whose stores are registered are enqueued one by one and their ids returned in order; the others are skipped |
| `Ingest.PlanIsExact` | internal/ingest/ingest.go:88-108 | the plan for the stores that match has one entry for every enabled store with a matching prefix, and none of its items is skipped |
| `Ingest.Pipeline.FanOut` | internal/ingest/ingest.go:88-108 | the plan has one entry for every enabled store with a matching prefix and no other, and the broker gets its relays |
| `Ingest.Pipeline.Handle` | internal/ingest/ingest.go:42-114 | 202, 200 and 409 only for a request that passes every test before the nonce book, the clock and the MAC included; any other status is that of the first test that fails, and remembers nothing; a live nonce is refused; a replay names the frame accepted under the key with the same body less than a ttl ago; exactly a 202 is recorded and fanned out |
| `Ingest.RelayedOnce` | internal/ingest/ingest.go:91-108 | every planned store's queue gains exactly its own relay: attempt 0, due and created at the instant of the call |
| `Ingest.FanOutIsExact` | internal/ingest/ingest.go:88-108 | after an accepted frame every enabled store with a matching prefix has exactly one more relay, attempt 0 and due at once, and every other queue is as before |
| `IdGen.EncodeCrockford` | internal/idgen/idgen.go:34-60 | always 26 alphabet characters; for 16 bytes they are the base-32 digits of the 128-bit number followed by two zero bits, in spite of the 64-bit wrap of the accumulator |
| `IdGen.WriteGroups` | internal/idgen/idgen.go:42-46 | the inner loop writes out every whole group of five bits of what was fed in |
| `IdGen.Fit` | internal/idgen/idgen.go:52-59 | cut or zero-padded to 26 characters, unchanged when it has 26 |
| `IdGen.Wrapped` | internal/idgen/idgen.go:36-46 | forgetting all bits above the 64th never changes a group of five bits still to be written |
| `IdGen.OrderIsLexicographic` | internal/idgen/idgen.go:34-60 | between digit strings of one length numeric order is lexicographic order |
| `IdGen.EncodingKeepsOrder` | internal/idgen/idgen.go:34-60 | the encoding is injective and keeps lexicographic order, both ways |
| `IdGen.StampNumber` | internal/idgen/idgen.go:15-25 | the six stamp bytes are the big-endian digits of the low 48 bits of the millisecond clock |
| `IdGen.New` | internal/idgen/idgen.go:15-32 | the id is the prefix and the encoding of stamp and entropy, and ValidatePrefix's condition holds of it |
| `IdGen.IdsSortByTime` | internal/idgen/idgen.go:15-32 | ids of one prefix sort strictly by 48-bit millisecond stamp, whatever their entropy |
| `IdGen.ValidatePrefix` | internal/idgen/idgen.go:62-81 | accepts exactly the ids of 26 alphabet characters after the prefix and an underscore |
| `IdGen.InAlphabetIff` | internal/idgen/idgen.go:73-79 | a body consists of alphabet characters exactly when it is the text of some digits |
| `Accounts.AccountsStep` | internal/worker/worker.go:66-137 | every step of the system keeps the in-flight counters equal to the workers on each store and within its limit |
| `Accounts.LeaseAccounting` | internal/queue/queue.go:100-136 | in every reachable state a store's in-flight counter is the number of workers between Lease and Release on it, at most its limit, and at most one for an ordered store |
| `Accounts.ReleaseGuardHolds` | internal/queue/queue.go:133-135 | whenever a worker is about to release, its store is there and has a slot out |
| `Accounts.DepthIsLiveJobsPlusUnreleased` | internal/queue/queue.go:138-146 | in every reachable state Depth is the number of live jobs plus the workers that have let go of their job and not released |
| `Ledger.BalancedStep` | internal/worker/worker.go:66-137 | every step keeps each minted relay id in exactly one place |
| `Ledger.Conservation` | internal/worker/worker.go:66-137 | in every reachable state every minted relay id is in exactly one of queue, a worker's hands, dead letters, delivered, evicted, consumed by replay, and exactly once; no other id is anywhere |
| `Ledger.RemoveFindsWhatGetRead` | internal/app/app.go:155-170 | over any run, if the Remove of a replay finds an item, it is the very item its Get read, whatever happened in between |
| `Ledger.DeadBetween` | internal/dlq/dlq.go:52-97 | a relay dead at two instants is dead in between, and by the same item |
| `Ledger.ReplayTakesWhatItRead` | internal/dlq/dlq.go:76-97 | in every reachable state the backward and the forward search stop at the same item |
| `Ledger.DeadLetteredOnce` | internal/worker/worker.go:75-137 | no relay is pushed to the dead letters twice in a run |
| `Ledger.StillDeadIff` | internal/dlq/dlq.go:52-97 | over any run a relay that was dead is dead still if and only if no RemoveDead of it came in between and the queue has not evicted it |
| `Ledger.ReplayedAgainIff` | internal/app/app.go:155-170 | a dead letter that has been replayed can be replayed once more, for a second relay, exactly as long as no replay of it has come to its Remove and the queue has not evicted it |
| `Lineage.TracedStep` | internal/worker/worker.go:75-161 | every step keeps the payload and origin of everything in the system true to its minting |
| `Lineage.PayloadsAreAcceptedPayloads` | internal/replay/replay.go:13-45 | in every reachable state a job, dead letter or journal entry carries the type and body its frame was accepted with, and its relay's own store and parent |
| `Lineage.ReplaysDescendFromIngest` | internal/app/app.go:155-186 | in every reachable state following ReplayOf ends, at a relay minted at ingest for the same frame |
| `Lineage.Ancestor` | internal/replay/replay.go:13-45 | the chain of replays ends at a relay without parent of the same frame and store |
| `Lineage.ReplayHasBody` | internal/replay/replay.go:13-45 | in every reachable state no replay fails for want of a stored body |
| `Routes.RoutedStep` | internal/ingest/ingest.go:88-108 | every step keeps relays and plans within the stores that take their frame's type, and one ingest relay per frame and store |
| `Routes.RelaysAreRouted` | internal/fanout/fanout.go:24-40 | in every reachable state every relay, replayed or not, is for a registered store that has a prefix of its frame's type, and that type is valid |
| `Routes.PlanIsServed` | internal/ingest/ingest.go:88-108 | at any time after a frame has got its plan, the stores that matched then are exactly those still to get their relay and those that have got it, and none is both |
| `Routes.OneRelayPerStore` | internal/fanout/fanout.go:24-40 | in every reachable state a frame has at most one ingest relay for a store |
| `Routes.NoTypeNoGates` | internal/worker/worker.go:75-83 | over any run nobody makes the breaker of a store that takes no valid type |
| `Attempts.DisciplinedStep` | internal/worker/worker.go:75-137 | every step keeps each relay's POSTs and POST rows numbered without gap and its delays within the envelope |
| `Attempts.AttemptDiscipline` | internal/worker/worker.go:85-137 | over every run a relay's POSTs are numbered 1, 2, ..., k with k at most maxAttempts, the rows journaled for them likewise but for at most the last, and its delays add up to at most both bounds of the policy |
| `Attempts.JournalNumbers` | internal/worker/worker.go:107-116 | in every reachable state the POST rows of a relay still in the journal carry the last of the numbers 1, 2, ..., n, in order, where n is its POSTs or one less |
| `Attempts.ShownStep` | internal/worker/worker.go:107-161 | every step keeps the journal an ending of what was journaled |
| `Attempts.WaitingCostsNoAttempt` | internal/worker/worker.go:85-97 | a waiting job has been POSTed exactly as often as its attempt number says, so skips and rate delays cost none |
| `Burials.SpentStep` | internal/worker/worker.go:75-137 | every step keeps each dead letter's attempt the number of POSTs of its relay, as its reason allows |
| `Burials.DeadLettersTell` | internal/worker/worker.go:118-134 | in every reachable state a relay dead-lettered as exhausted has been POSTed exactly maxAttempts times, one with a terminal answer at least once and at most that often, one whose store was unavailable less often, and its dead letter gives the number |
| `Burials.GivesUpIff` | internal/worker/worker.go:122-130 | after a retryable outcome a worker gives up exactly when the relay has been POSTed maxAttempts times, and puts it back exactly when less often |
| `Overtaking.AheadChanges` | internal/queue/queue.go:89-128 | the jobs due by an instant grow only by an enqueue of one and shrink only by a Lease of one |
| `Overtaking.LeavesByLease` | internal/queue/queue.go:100-128 | the only way for a job to stop waiting is to be leased |
| `Overtaking.BoundedOvertaking` | internal/queue/queue.go:89-128 | over any run, while a job waits, the Leases made with room in its store are fewer than the jobs due no later than it when the count began and those enqueued since that are due no later |
| `Overtaking.BoundedOvertakingFresh` | internal/queue/queue.go:89-128 | when every later enqueue stamps its job from a clock reading past the due time, none of those is enqueued since |
| `Overtaking.BoundedOvertakingOnTime` | internal/queue/queue.go:89-128 | the same from the moment the clock has passed the due time, when no step works with a stale reading |
| `Overtaking.LateOnesBound` | internal/worker/worker.go:85-130 | when workers read the clock within handle: once it has passed an instant, the enqueues of jobs due by it are at most one for each worker that was about to put its job back, and those of the ingest and replay calls that had read the clock by then |
| `Overtaking.OvertakingAfterDue` | internal/queue/queue.go:89-128 | so a job waiting past its due time is overtaken by fewer Leases than the jobs due then, those workers and those calls |
| `Progress.AnyInterleaving` | internal/worker/worker.go:82-97 | over every run a store's breaker, bucket and workers stay in the relation that progress rests on |
| `Progress.StaleBelowLimit` | internal/worker/worker.go:82-107 | when a worker tells the breaker, fewer workers stand between Allow and Take than the store's limit, and fewer than there are |
| `Progress.ProbesAreUnderWay` | internal/worker/worker.go:82-107 | with refill for every probe, the probes missing from a half-open breaker's budget are POSTs out on the store or about to go out, in any interleaving |
| `Progress.ProbesAreOut` | internal/worker/worker.go:82-107 | with Allow and Take atomic and refill for the probes only, every probe taken is a POST that is out |
| `Progress.NeverStuck` | internal/worker/worker.go:82-97 | with ample refill for one probe, no interleaving leaves a half-open breaker without probes and without anybody to tell it; StuckRuns.GetsStuckIff is the converse |
| `Progress.NeverStuckAtomic` | internal/worker/worker.go:82-97 | with Allow and Take atomic, ample refill with no worker stale is enough |
| `Progress.TellingLeavesHalfOpen` | internal/worker/worker.go:118-134 | telling the breaker how a POST ended takes it out of HalfOpen |
| `Progress.WayOut` | internal/worker/worker.go:82-107 | a half-open breaker without probes has a worker with a POST out, or one whose Take will let it through |
| `Progress.StuckForGood` | internal/worker/worker.go:82-97 | over any run a breaker that is stuck once is stuck ever after |
| `StuckRuns.PlanExists` | internal/worker/worker.go:82-97 | whenever the refill is not ample there is a way to bring the bucket so low that, with the stale workers' Takes, every probe is sent back |
| `StuckRuns.StuckRun` | internal/worker/worker.go:82-97 | for every store that takes some valid type and every configuration whose refill is not ample: a run, with a frame of its own for every relay, that leaves the breaker stuck half open |
| `StuckRuns.GetsStuckIff` | internal/worker/worker.go:82-97 | in any interleaving of n workers a store can get stuck half open if and only if there is a worker, some valid type goes to the store, and the refill is not ample, with as many stale workers as its limit and n allow |
| `StuckRuns.GetsStuckAtomicIff` | internal/worker/worker.go:82-97 | with Allow and Take atomic, if and only if there is a worker, some valid type goes to the store, and the refill is not ample with none stale |
| `StuckRuns.AmpleMeans` | internal/ratelimit/ratelimit.go:38-58 | refill is ample when a nanosecond earns more than a token, or when the burst plus a nanosecond, and openFor and a nanosecond, each earn more than the stale workers and one token |
| `Snapshots.RestartKeepsQueues` | internal/store/store.go:88-118 | in any reachable state, restoring what was captured, in any order, gives every queue its jobs and limits back with nothing in flight, and every other store an empty queue |
| `Snapshots.RestartIsExactIff` | internal/queue/queue.go:158-185 | the restored queues are those captured if and only if no worker is between Lease and Release |
| `Snapshots.DrainsAlike` | internal/queue/queue.go:17-48 | heaps of the same keys drain in the same sequence of due and creation times, however they were built |
| `Snapshots.RestoredDrainsAlike` | internal/queue/queue.go:158-185 | so a restored queue drains as the captured one would have |
| `Workers.Engine.constructor` | internal/worker/worker.go:31-42 | an engine over empty objects has taken no step and its workers are idle |
| `Workers.Engine.Lease` | internal/worker/worker.go:66-70 | is the Lease step of this worker, or nothing is due and nothing changes |
| `Workers.Engine.LookUp` | internal/worker/worker.go:76-77 | is the step that finds the store exactly when it is registered and enabled, and otherwise condemns the job |
| `Workers.Engine.Bury` | internal/worker/worker.go:78-78 | is the step that dead-letters the job of a missing or disabled store; the dead letter carries this instant, the reason and the job |
| `Workers.Engine.EnsureGates` | internal/worker/worker.go:82-82 | is the step that makes the store's gates, which are there afterwards |
| `Workers.Engine.Allow` | internal/worker/worker.go:83-85 | is the step that asks the breaker; the worker goes on or defers by 200 ms |
| `Workers.Engine.Take` | internal/worker/worker.go:91-92 | is the step that asks the bucket; the worker defers by the wait or its attempt is counted |
| `Workers.Engine.Requeue` | internal/worker/worker.go:86-87 | is the step that puts the job back: it waits now, due at this instant plus the wait |
| `Workers.Engine.Note` | internal/worker/worker.go:139-161 | is the step that journals how the job left this worker: the last row carries this instant, the outcome and the job |
| `Workers.Engine.Answer` | internal/worker/worker.go:111-116 | is the step that journals the attempt: the last row carries this instant, the outcome of the POST, the attempt number and the job |
| `Workers.Engine.Tell` | internal/worker/worker.go:118-132 | is the step that tells the breaker: a success closes it, anything else counts in Closed and reopens it from HalfOpen |
| `Workers.Engine.GiveUp` | internal/worker/worker.go:123-133 | is the step that dead-letters a terminal or exhausted job; the dead letter carries this instant, which of the two, and the job |
| `Workers.Engine.Retry` | internal/worker/worker.go:128-130 | is the step that puts the job back: it waits now, due after a delay that is the random number times the smaller of cap and base times 2^(attempt - 1) |
| `Workers.Engine.Release` | internal/worker/worker.go:71-71 | is the step that gives the slot back |
| `Workers.Engine.Settle` | internal/worker/worker.go:118-137 | after the POST: delivered on success, dead-lettered on a terminal outcome, given up exactly when it is retryable and the attempt number has reached maxAttempts, else retried, with exactly those steps |
| `Workers.Engine.Handle` | internal/worker/worker.go:75-137 | handle takes exactly the steps of one of its seven ways out, in their order, and ends with only Release left |
| `Workers.Engine.Tick` | internal/worker/worker.go:66-73 | tick leases nothing and changes nothing, or takes exactly the steps from Lease to Release and leaves the worker idle |
| `Workers.Engine.Replay` | internal/app/app.go:155-186 | the last dead letter of the relay decides, without one its last journal row: replayed exactly when it has a body and its store is registered; without either it is not found; a replayed dead letter is removed; failures change nothing |
| `Workers.Engine.RequeueDead` | internal/app/app.go:156-167 | the replay of a dead letter waits now: its frame, store, type and body, attempt 0, due at once, a replay of that relay |
| `Workers.Engine.RequeueEntry` | internal/app/app.go:171-184 | the replay of a journal row waits now, likewise |
| `Workers.Engine.CreateStore` | internal/geology/geology.go:143-170 | a store accepted by the registry is one CreateStore step, a refused one changes nothing |
| `Workers.Engine.SetEnabled` | internal/geology/geology.go:193-204 | is the SetEnabled step of a registered store; an unknown id changes nothing |
| `Workers.Engine.Accept` | internal/ingest/ingest.go:42-114 | a 202 is one AcceptFrame step, which plans the stores that match, and one RelayFrame step for each item of the plan, in order; any other answer takes no step |
| `Workers.Fanned` | internal/ingest/ingest.go:91-108 | enqueuing the relays of a plan as the pipeline does is one RelayFrame step per item |
| `Workers.EngineIsSafe` | internal/worker/worker.go:66-137 | whatever steps an engine has taken: its in-flight counters are its workers, every relay is in one place, every dead letter has a body |

## Left out

- HTTP serving and routing, the outbound client, static files and both copies of the web console: input, output and user interface. How a POST ends is an arbitrary value of `Kind`.
- JSON, HMAC, SHA-256, hexadecimal and the header table: what they decide is an arbitrary verdict in `Ingest.Request`. The order of the tests and their status codes are modelled. An empty body never parses.
- Lithology and lag-depth validation, and the parsing of URLs: validators of one value each. A type with surrounding blanks is validated trimmed but stored as it came; the model takes the type as given.
- Notes, HTTP statuses, error texts and redacted copies of journal rows and dead letters: only what identifies the job and its raw body is kept.
- `journal.Log.List`, `dlq.Queue.List` and `Broker.DepthByStore`: read-only listings.
- Restore of the journal, the dead letters, the nonces and the idempotency records, and saving to and loading from a file.
- Gates across a restart: `Gates.Restore` does not restore the rates, so the first Ensure replaces the restored bucket; no rate bound is claimed across a restart, and runs start from an empty system.
- Capture as a whole: it reads the components one after the other without a common lock; only the broker's part is modelled.
- Changing a store's rate, burst or limits (`Registry.Put`) and rotating its secret: nothing in the program calls either, so limits are fixed per store in a run.
- The default branch of the switch in `handle`: `classify.Combine` returns only the three kinds.
- Rounding of floating-point numbers: rates, tokens and delays are exact reals. Randomness: the delay's random number is any real in [0, 1), entropy any ten bytes; that new frame, relay and store ids are fresh is assumed.
- `annulus`, `pump`, `gas`, `channel`, `pack`, `lithcode`, `wellbore`, `cuttings`, `redact`, `headers`, `hashutil`, `wellkey`: formulas, tables and validators; they hold no delivery state.
- The Get of a replay and its Enqueue are one step of the step system; its Remove is a step of its own. `os.ErrNotExist` for an unknown relay and for an unknown store are one result.
- Two engine methods at once: the contract of an engine method speaks of a call that nothing interrupts. That the critical sections of other workers may fall in between is what the runs of the step system are about.
- Workers.Engine.constructor: does not start from objects loaded from a snapshot, because a snapshot carries no history of the relays it holds; runs start from an empty system.
- Overtaking.BoundedOvertakingFresh: assumes that later enqueues use clock readings past the due time; `Overtaking.BoundedOvertaking` is the form without that, and `Overtaking.LateOnesBound` says how many do not.
- Overtaking.BoundedOvertakingOnTime: assumes that no step uses an earlier reading; `Overtaking.OvertakingAfterDue` is the form with the readings the program takes.
- Routing.Registry.Create: does not parse the URL and does not generate the id, because both are calls into code that is not part of this model; the verdict on the URL and the new id are parameters.
