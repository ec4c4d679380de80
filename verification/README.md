# Cooperative executor run loop, modelled in Dafny

This project models the single-threaded run loop of the cooperative executor
in `src/lib4.rs`. With futures, pinning and locks abstracted away, it is a
small scheduling state machine. It has three parts:

- a **ready queue** of task ids, filled by `spawn` and by the loop itself;
- a **wake channel** of task ids, filled by a task's waker and created with
  room for 10000 entries;
- the **loop body**: drain the whole channel onto the queue's tail, pop the
  head (stopping when there is none), poll it once, then push it back if it
  reported Pending or drop it if it reported Ready.

A task is named by its index in the executor's task table. A future is a
script, `Future(polls)`: `polls[k]` lists the tasks it wakes during its k-th
next poll. Every poll but the last reports Pending, the last reports Ready,
and an empty script means the future has completed. A task's waker appends
the task's id to the channel.

Modules:

- `Fifo` (`fifo.dfy`): `push_back` and `pop_front` on sequences.
- `Futures` (`futures.dfy`): the scripted future and what one poll does.
- `Scheduler` (`scheduler.dfy`): the executor state and its operations:
  - `New`, `Spawn` (one future) and `SpawnAll` (several in a row), `Wake`,
    `Drain` and `PollTask`;
  - one loop pass, `Iterate`;
  - the whole run, as the recursive function `Execute` and as the loop
    method `Run`.

  `Execute` terminates because `Measure` decreases on every pass. `Measure`
  is queued entries plus channel entries plus, for every task, its remaining
  polls and the wakes they will emit.
- `RunProperties` (`run_properties.dfy`): what a run guarantees:
  - FIFO order of polls;
  - per-task queue counts after one pass;
  - when no future wakes anyone: exact poll counts, no poll after Ready,
    total polls, and round-robin order.
- `Scenarios` (`scenarios.dfy`): concrete runs:
  - A, B and C polled round robin;
  - one task polled three times;
  - a task that wakes itself and so gets queued twice;
  - a producer spawned before the consumer it wakes.

## Model

| member | source | states |
|---|---|---|
| Fifo.PushBack | src/lib4.rs:48 | the new element sits behind every element already queued, which keep their order |
| Fifo.PopFront | src/lib4.rs:57-60 | the result is empty exactly when the queue is empty; otherwise the head followed by the rest is the queue |
| Fifo.PopAfterPush | src/lib4.rs:53-57 | pushing at the back never changes which element comes off the front of a non-empty queue |
| Futures.PollFuture | src/lib4.rs:65-70 | a poll reports Ready exactly when one poll is left; Ready leaves the future completed; Pending leaves one poll fewer; it emits its scripted wakes; a completed future reports Ready and emits nothing |
| Futures.Countdown | src/lib4.rs:65-70 | a future that needs exactly k polls and never wakes anyone |
| Futures.ReadyOnLastPoll | src/lib4.rs:65-70 | polled repeatedly, a future reports Pending on every poll before its last and Ready on its last |
| Futures.CompletedStaysReady | src/lib4.rs:65-66 | a completed future reports Ready on every further poll |
| Scheduler.New | src/lib4.rs:30-37 | a fresh executor has an empty queue, an empty channel, no tasks and satisfies the state invariant |
| Scheduler.Spawn | src/lib4.rs:39-49 | spawn accepts any future and registers it under a fresh id that is neither queued nor in the channel, appends that id at the queue's tail, and leaves the channel and every other task unchanged; the invariant is kept when the future wakes only tasks registered so far |
| Scheduler.SpawnAll | src/lib4.rs:39-49 | successive spawns queue the new ids in spawn order behind the old queue and append the futures to the table; once the batch is in, the invariant holds even if a future wakes a task spawned after it |
| Scheduler.Wake | src/lib4.rs:17-20 | waking appends one entry for the task at the channel's tail, duplicates allowed, and changes nothing else; it needs room in the channel |
| Scheduler.WakeAll | src/lib4.rs:18-19 | the wakes of one poll arrive in the channel in the order they were sent, behind what was already there |
| Scheduler.Drain | src/lib4.rs:53-55 | draining moves every channel entry onto the queue's tail in channel order and leaves the channel empty |
| Scheduler.ReceiveAll | src/lib4.rs:53-55 | the receive loop computes exactly the drain and keeps the invariant |
| Scheduler.PollTask | src/lib4.rs:62-70 | polling a task reports the future's outcome, appends its wakes to the channel, puts the task back at the queue's tail exactly when it reported Pending, advances only that task's future, and keeps the invariant |
| Scheduler.PollCompletedIsNoOp | src/lib4.rs:65-66 | polling a task whose future has completed changes nothing and reports Ready |
| Scheduler.Iterate | src/lib4.rs:52-71 | a pass finds nothing to poll exactly when queue and channel are both empty; otherwise it strictly decreases the measure; it keeps the invariant |
| Scheduler.IterateSpec | src/lib4.rs:53-69 | a pass polls exactly one task, the oldest pending entry after the drain; the rest stay in order, the task returns to the tail only if Pending, the channel then holds just that poll's wakes, and no other future changes |
| Scheduler.Execute | src/lib4.rs:51-72 | the run ends with the queue and the channel both empty |
| Scheduler.Run | src/lib4.rs:51-72 | the loop as written, with an inner receive loop, ends with queue and channel empty and produces exactly the run that Execute defines |
| RunProperties.FifoOrder | src/lib4.rs:53-68 | a run first polls everything queued, in queue order, then everything in the channel, in channel order |
| RunProperties.FifoTraceStep | src/lib4.rs:57-65 | a pass polls the oldest pending entry first |
| RunProperties.FifoQueueStep | src/lib4.rs:53-69 | a pass keeps the pending entries it did not poll, in order, at the front of what remains pending |
| RunProperties.SpawnedTaskPolledInTurn | src/lib4.rs:48-57 | a spawned task is polled after everything queued before it and before every wake then in the channel |
| RunProperties.WakeIsDelivered | src/lib4.rs:53-57 | a woken task is polled right after everything queued and everything already in the channel |
| RunProperties.QueueCountAfterIteration | src/lib4.rs:53-69 | after a pass, a task has as many queue entries as it had queued and in the channel before, less one if it was polled, plus one if that poll reported Pending; that poll's wakes wait in the channel |
| RunProperties.QuietIteration | src/lib4.rs:57-69 | without wakes, a pass polls the queue's head, keeps the channel empty and the queue free of duplicates, and advances only that task |
| RunProperties.ExactPolls | src/lib4.rs:57-69 | without wakes, every queued task is polled exactly as many times as it needs, and a task that is not queued is never polled |
| RunProperties.NeverPolledAfterReady | src/lib4.rs:66-69 | without wakes, no task is polled after it reported Ready |
| RunProperties.TotalPolls | src/lib4.rs:51-72 | without wakes, the run makes exactly as many polls as the queued tasks need between them |
| RunProperties.PendingRound | src/lib4.rs:57-68 | polling queued tasks that each report Pending puts them back behind the rest in the same order |
| RunProperties.LastRound | src/lib4.rs:57-66 | polling queued tasks that each report Ready drops them all, in queue order, and the run stops |
| RunProperties.RoundRobin | src/lib4.rs:57-68 | without wakes, tasks that each need k polls are polled in k rounds in queue order: Pending in every round but the last, then Ready |
| Scenarios.SpawnThree | src/lib4.rs:39-49 | spawning A, B and C into a fresh executor queues ids 0, 1, 2 in that order |
| Scenarios.RoundRobinAbc | src/lib4.rs:48-68 | A, B and C, each Pending once and then Ready, are polled A, B, C, A, B, C and the run stops |
| Scenarios.ThreePollsAlone | src/lib4.rs:57-68 | a task that needs three polls is polled three times: Pending, Pending, Ready |
| Scenarios.ProducerWakesConsumer | src/lib4.rs:39-69 | a producer spawned before its consumer, which wakes the consumer on its second poll once the consumer's first poll has handed out its waker, runs as P0, P1, R0, R1, R1: the consumer is queued by the loop and again by the wake |
| Scenarios.SelfWakeQueuesTwice | src/lib4.rs:53-69 | a task that wakes itself during a Pending poll is queued twice after the next drain, and is polled once more after it reported Ready |

## Left out

- `Mutex` locking and `Arc` reference counting of the queue and the tasks
  (src/lib4.rs:24, 33): the loop owns the queue, so it is a plain sequence.
- The unsafe `Pin::new_unchecked` poll and the `Context` built from a waker
  (src/lib4.rs:62-65): `task_to_waker` is not part of this model. A future is
  a script of outcomes and wakes.
- Concurrent `spawn` and `wake` from other threads: wakes are the events a
  poll emits. `Wake` can also be applied between passes as an external append.
  Interleavings are not modelled.
- The types of the tasks' results and of the values the futures compute: the
  loop never looks at them.
- Scheduler.Wake: a full channel makes the send block; on the loop's own
  thread that never returns. The model makes room in the channel a
  precondition instead. A poll emitting more wakes than the channel holds is
  therefore excluded in the state invariant.
- Scheduler.Wake: the panic of `expect` when the receiver has been dropped
  cannot happen while the loop runs, so it is not modelled.
- Futures.PollFuture: polling a future that has already completed is modelled
  as fused: it reports Ready again and wakes nobody. Rust leaves this to the
  future. The executor does poll a completed future whenever a wake queues a
  task that the loop also put back. This is the usual yield pattern: wake
  yourself, then report Pending (Scenarios.SelfWakeQueuesTwice), or be woken by
  another task while queued (Scenarios.ProducerWakesConsumer). An `async` block
  polled again after completion panics ("resumed after completion"), so for
  such futures the last poll in those traces would abort the run.
- Which wakes a script may contain: in the code a poll can wake only a task
  whose waker exists, that is itself (through its `Context`) or a task that has
  already been polled at least once, because a waker is made only when its task
  is popped for polling (src/lib4.rs:62). Scripts, `Valid` and `SpawnAll`
  accept any registered id on any poll, so they admit starting states no run
  reaches. Every lemma holds for all scripts, hence also for the reachable
  ones; the scenarios use only realizable scripts.
- A future that never completes: every script is finite, so every modelled
  run terminates. A task that stays Pending forever is outside the model.
- The exactly-k and round-robin properties assume that no future wakes
  anyone. With wakes, the model states only FIFO order and the per-task queue
  count of each pass.
- A `wake` that never blocks would need an unbounded channel. The code's
  channel is bounded and its send blocks when full; the model follows the code.
- The loop puts a Pending task back on the queue at once instead of waiting
  for its wake; the model follows the code.
