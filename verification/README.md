# In-memory multi-level priority queue engine

This project models the in-memory engine of `pq_redis_mem`. The engine is a
registry that maps queue names to queues. Each queue has ten priority levels,
numbered 0 (most urgent) to 9, and each level is a FIFO list of items. The
engine's interface has seven calls:

- `AddQueue` registers a new queue.
- `Enqueue` appends a value to a level.
- `InsertAtTop` puts a value in front of its level.
- `Dequeue` removes the front of the most urgent non-empty level.
- `IsEmpty` reports whether every level is empty.
- `ListContents` maps each non-empty level to its values.
- `GetPosition` finds the first (level, index) holding a value.

The model has five modules:

- `Errors` (errors.dfy) holds the error kinds the engine reports, plus `Option` and `Result`.
- `Levels` (levels.dfy) is one queue: `seq<seq<Item>>` with ten levels. It defines the per-queue step of every operation. It also defines the engine's total order, `Flatten`: levels in order, each front first. `Drain` empties a queue by repeated `Dequeue`. The lemmas relate every operation to that order.
- `MultiQueue` (multiqueue.dfy) is the registry, a `map<string, Queue>`. `AddQueue`, `Enqueue`, `Dequeue` and `InsertAtTop` take the registry and return a `Reply`: the registry after the call plus the call's result or error. A refused call returns the registry unchanged, and the contracts say so. The read-only calls `IsEmpty`, `ListContents` and `GetPosition` return only their result.
- `Session` (session.dfy) replays a sequence of calls against one registry. The engine's callers use it one call at a time, and its locks put concurrent calls in some such sequence. `Apply` and `Run` preserve the registry invariant. They never remove a name, and only `AddQueue` adds one.
- `Scenarios` (scenarios.dfy) turns the engine's unit tests into lemmas about chains of registry calls that start from a new registry.

Modelling decisions:

- Values are strings. The engine stores arbitrary values. `GetPosition` compares them by their `%v` rendering, and for strings that rendering is the value itself, so the model compares with `==`.
- Errors are the kinds `InvalidPriority`, `QueueNotFound`, `AlreadyExists`, `EmptyQueue` and `NotFound`. The formatted message texts are not modelled.
- A failed `GetPosition` returns (-1, -1) together with the error, as the engine does.
- `Enqueue` and `InsertAtTop` check the priority range before they look up the name. With an invalid priority and an unknown name, the reported error is `InvalidPriority`. Looking the name up first would report `QueueNotFound` instead.
- The registry invariant `MultiQueue.Valid` says that every queue has exactly ten levels, and that every item sits in the level of its own priority. `NewPriorityQueue` establishes it, and every call preserves it.

## Model

| member | source | states |
|---|---|---|
| Levels.NewQueue | priorityqueue/priorityqueue.go:44-53 | a new queue has ten levels, all empty, satisfies the invariant, and holds no values in drain order |
| Levels.Enqueue | priorityqueue/priorityqueue.go:83 | level p gains the item at its back and keeps its old items in front; every other level is unchanged; the invariant is kept |
| Levels.InsertAtTop | priorityqueue/priorityqueue.go:195 | level p gains the item at its front, followed by its old items; every other level is unchanged; the invariant is kept |
| Levels.FirstNonEmpty | priorityqueue/priorityqueue.go:99-100 | the scan from a level returns the first non-empty level at or after it, or none when all of them are empty |
| Levels.Dequeue | priorityqueue/priorityqueue.go:99-107 | fails with EmptyQueue exactly when all ten levels are empty; otherwise returns the front value of the lowest non-empty level, removes only that item, and keeps the invariant |
| Levels.IsEmpty | priorityqueue/priorityqueue.go:122-127 | true exactly when all ten levels are empty, and exactly when Dequeue would fail |
| Levels.ContentsFrom | priorityqueue/priorityqueue.go:142-151 | the listing of levels from a given one has a key exactly for the non-empty levels, each mapped to its values front first |
| Levels.ListContents | priorityqueue/priorityqueue.go:142-153 | keys are exactly the non-empty levels; each key's sequence has the level's length and its values in order; the map is empty exactly when the queue is |
| Levels.IndexIn | priorityqueue/priorityqueue.go:169-173 | the scan of one level returns the first index at or after the start that holds the value, and no earlier one holds it |
| Levels.FindFrom | priorityqueue/priorityqueue.go:168-174 | the scan over levels returns a position that holds the value with no earlier position in scan order holding it, or none when no scanned level holds it |
| Levels.GetPosition | priorityqueue/priorityqueue.go:168-176 | the position returned holds the value and no position before it in priority-major, index-minor order does; fails with NotFound exactly when the value occurs nowhere |
| Levels.Drain | priorityqueue/priorityqueue.go:99-107 | repeated Dequeue until failure returns exactly the queue's values, level by level, each level front first |
| Levels.DequeueTakesFrontOfFlatten | priorityqueue/priorityqueue.go:99-107 | Dequeue removes the first value of the priority-major, FIFO-minor order, and the rest of that order is what remains; it fails only when that order is empty |
| Levels.DrainIsEmptyIffIsEmpty | priorityqueue/priorityqueue.go:122-127 | IsEmpty holds exactly when draining the queue yields nothing |
| Levels.ListContentsMatchesDrain | priorityqueue/priorityqueue.go:142-153 | reading the listing in key order gives the same values, in the same order, as draining the queue |
| Levels.EnqueueDrainOrder | priorityqueue/priorityqueue.go:83 | after Enqueue at p, the new value drains after every value of levels 0..p and before every value of levels p+1..9 |
| Levels.EnqueueKeepsFront | priorityqueue/priorityqueue.go:83 | an Enqueue at a level no more urgent than the current front does not change what the next Dequeue returns, and the Enqueue commutes with that Dequeue |
| Levels.InsertAtTopDrainOrder | priorityqueue/priorityqueue.go:195 | after InsertAtTop at p, the new value drains after every value of levels 0..p-1 and before every value already at level p or later |
| Levels.InsertAtTopThenDequeue | priorityqueue/priorityqueue.go:195 | when no level before p holds anything, the next Dequeue returns the inserted value from level p and gives back the queue as it was before the insert |
| Levels.PositionIsFirstInDrainOrder | priorityqueue/priorityqueue.go:168-176 | GetPosition fails exactly when the value is never drained; otherwise its (level, index) points at the value's first occurrence in drain order |
| MultiQueue.NewMultiQueue | priorityqueue/priorityqueue.go:37-42 | a new registry holds no names and satisfies the invariant |
| MultiQueue.AddQueue | priorityqueue/priorityqueue.go:55-65 | a taken name is refused with AlreadyExists and the registry is unchanged; otherwise the name is added with ten empty levels, and every existing queue is kept as it was |
| MultiQueue.Enqueue | priorityqueue/priorityqueue.go:67-85 | a priority outside 0..9 is refused with InvalidPriority and an unknown name with QueueNotFound, both leaving the registry unchanged; success happens exactly otherwise, and then only level p of the named queue changes, gaining the item at its back |
| MultiQueue.Dequeue | priorityqueue/priorityqueue.go:87-108 | unknown names give QueueNotFound and empty queues give EmptyQueue, both changing nothing; otherwise the front of the named queue's lowest non-empty level is returned and removed, and nothing else changes |
| MultiQueue.DequeueFollowsDrainOrder | priorityqueue/priorityqueue.go:87-108 | on a registered queue, Dequeue fails exactly when the drain order is empty, and otherwise returns its first value and leaves the rest of it |
| MultiQueue.IsEmpty | priorityqueue/priorityqueue.go:110-128 | unknown names give QueueNotFound; otherwise true exactly when all levels of the named queue are empty, and exactly when Dequeue on it would fail |
| MultiQueue.ListContents | priorityqueue/priorityqueue.go:130-154 | unknown names give QueueNotFound; otherwise the keys are exactly the non-empty levels, each mapped to that level's values front first, and the map is empty exactly when the queue is |
| MultiQueue.GetPosition | priorityqueue/priorityqueue.go:156-177 | unknown names give (-1, -1, QueueNotFound) and absent values (-1, -1, NotFound); a value present in the named queue is always found, at a location that holds it with no earlier location in scan order holding it |
| MultiQueue.InsertAtTop | priorityqueue/priorityqueue.go:179-197 | the same refusals as Enqueue, in the same order; on success only level p of the named queue changes, gaining the item at its front |
| Session.Apply | priorityqueue/priorityqueue.go:8-17 | any single call keeps the invariant and never removes a name; only AddQueue can add one, and only its own; read-only calls and refused calls leave the registry unchanged |
| Session.Run | priorityqueue/priorityqueue.go:8-17 | any sequence of calls keeps the invariant, answers each call once, and ends with the starting names plus at most the names its AddQueue calls register |
| Scenarios.AddQueueTwice | pqueue_test.go:20-34 | the first AddQueue of a name succeeds and the second is refused with AlreadyExists |
| Scenarios.EnqueueChecks | pqueue_test.go:37-58 | Enqueue at priority 0 succeeds; priority 10 and an unknown name are refused and leave the registry unchanged |
| Scenarios.DequeueByPriority | pqueue_test.go:61-85 | Dequeue on a new queue fails with EmptyQueue; after enqueueing at 5, 0 and 2 it returns "high" and then "medium" |
| Scenarios.IsEmptyChecks | pqueue_test.go:88-102 | a new queue is empty and a queue with one item is not |
| Scenarios.ListContentsChecks | pqueue_test.go:105-132 | a new queue lists as the empty map; after three Enqueues the listing is exactly {0: ["high"], 2: ["medium1", "medium2"]} |
| Scenarios.ListedLevels | pqueue_test.go:115-131 | the single-queue listing after the test's three Enqueues is exactly the expected map |
| Scenarios.GetPositionChecks | pqueue_test.go:135-164 | a missing value is (-1, -1) with NotFound; "first", "second" and "third" sit at (0, 0), (0, 1) and (2, 0) |
| Scenarios.LocatedItems | pqueue_test.go:145-163 | the single-queue positions of the three values in the test |
| Scenarios.InsertAtTopChecks | pqueue_test.go:167-217 | InsertAtTop at priority 10 is refused with the registry unchanged; an insert into an empty queue sits at (0, 0); an unknown name is refused |
| Scenarios.InsertAtTopBuilds | pqueue_test.go:178-193 | the test's InsertAtTop and Enqueue calls all succeed and leave the queue with "topmost", "urgent", "normal" at level 0 and "urgent_medium", "medium" at level 2 |
| Scenarios.InsertAtTopDequeues | pqueue_test.go:195-211 | four Dequeues on that queue return "topmost", "urgent", "normal" and "urgent_medium", in that order |

## Left out

- priorityqueue/redispriorityqueue.go (the store-backed engine) is not part of this model.
- Mutexes are not modelled. Each call is one atomic step, which is what the per-registry and per-queue locks provide. The window between the name lookup and taking the queue's lock is not modelled either; queues are never removed, so it cannot change a result.
- Values are strings rather than arbitrary values. Equality through `%v` rendering of non-string values, such as an integer and its decimal string being treated as the same value, is not modelled.
- Error message texts are not modelled; only the error kind is.
- main.go (a demo program) is not part of this model.
- The benchmarks in pqueue_test.go:221-250 are not modelled.
- The `NewMultiPriorityQueue` test in pqueue_test.go:12-17 only checks for a non-nil result, and that has no counterpart in a value model.
