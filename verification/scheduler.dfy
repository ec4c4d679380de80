/** The single-threaded run loop of the executor: a ready queue of task ids, a
    bounded wake channel of task ids, and the table of tasks' futures. */
module Scheduler {
  import opened Fifo
  import opened Futures

  /** The wake channel is created with room for this many undelivered wakes. */
  const ChannelCapacity: nat := 10000

  datatype Executor = Executor(queue: seq<TaskId>, channel: seq<TaskId>, tasks: seq<Future>)

  /** One poll made by the run loop: which task, and what it reported. */
  datatype Event = Polled(id: TaskId, outcome: Poll)

  datatype Spawned = Spawned(id: TaskId, exec: Executor)
  datatype Polling = Polling(outcome: Poll, exec: Executor)

  /** One pass of the loop: it either found nothing to run after draining, or polled
      one task. */
  datatype Iteration = Idle(exec: Executor) | Progress(event: Event, exec: Executor)

  datatype RunResult = RunResult(final: Executor, trace: seq<Event>)

  predicate IdsBelow(s: seq<TaskId>, n: nat) {
    forall i :: 0 <= i < |s| ==> s[i] < n
  }

  /** Every poll of `f` wakes only tasks among the first `n`, and no poll wakes more
      than the channel holds: the channel is empty when a poll starts, and a poll
      that overflowed it would block the run loop's own thread for good. */
  predicate WellFormed(f: Future, n: nat) {
    forall k :: 0 <= k < |f.polls| ==> |f.polls[k]| <= ChannelCapacity && IdsBelow(f.polls[k], n)
  }

  /** Every id in the queue, the channel and any future's script names a spawned
      task, and the channel is within its bound. */
  predicate Valid(e: Executor) {
    && IdsBelow(e.queue, |e.tasks|)
    && IdsBelow(e.channel, |e.tasks|)
    && |e.channel| <= ChannelCapacity
    && forall t :: 0 <= t < |e.tasks| ==> WellFormed(e.tasks[t], |e.tasks|)
  }

  lemma WellFormedGrows(f: Future, n: nat, m: nat)
    requires WellFormed(f, n) && n <= m
    ensures WellFormed(f, m)
  {
    forall k | 0 <= k < |f.polls|
      ensures IdsBelow(f.polls[k], m)
    {
      assert IdsBelow(f.polls[k], n);
    }
  }

  /** What polling `f` keeps of its script is still well formed. */
  lemma WellFormedRest(f: Future, n: nat)
    requires WellFormed(f, n)
    ensures WellFormed(PollFuture(f).rest, n)
    ensures |PollFuture(f).wakes| <= ChannelCapacity && IdsBelow(PollFuture(f).wakes, n)
  {
    if !Completed(f) {
      var r := PollFuture(f).rest;
      assert r.polls == f.polls[1..];
      forall k | 0 <= k < |r.polls|
        ensures |r.polls[k]| <= ChannelCapacity && IdsBelow(r.polls[k], n)
      {
        assert r.polls[k] == f.polls[k + 1];
      }
    }
  }

  /** A future that wakes nobody fits any executor. */
  lemma SilentIsWellFormed(f: Future, n: nat)
    requires Silent(f)
    ensures WellFormed(f, n)
  {
  }

  // ---------------------------------------------------------------------------
  // Measure: every poll uses up queue entries, script entries or both.

  /** One for each remaining poll and one for each wake it will emit. */
  function Weight(f: Future): nat
    decreases |f.polls|
  {
    if |f.polls| == 0 then 0 else 1 + |f.polls[0]| + Weight(Future(f.polls[1..]))
  }

  function TotalWeight(ts: seq<Future>): nat {
    if |ts| == 0 then 0 else Weight(ts[0]) + TotalWeight(ts[1..])
  }

  function Measure(e: Executor): nat {
    |e.queue| + |e.channel| + TotalWeight(e.tasks)
  }

  lemma {:induction false} TotalWeightUpdate(ts: seq<Future>, i: nat, f: Future)
    requires i < |ts|
    ensures TotalWeight(ts[i := f]) + Weight(ts[i]) == TotalWeight(ts) + Weight(f)
    decreases i
  {
    if i > 0 {
      assert ts[i := f][1..] == ts[1..][i - 1 := f];
      TotalWeightUpdate(ts[1..], i - 1, f);
    }
  }

  // ---------------------------------------------------------------------------
  // Operations.

  /** A fresh executor: empty ready queue, empty wake channel, no tasks. */
  function New(): (e: Executor)
    ensures Valid(e) && e.queue == [] && e.channel == [] && e.tasks == []
    ensures Measure(e) == 0
  {
    Executor([], [], [])
  }

  /** Registers `f` under a fresh id and queues it behind everything already queued.
      It is not polled, and the channel and every other task are left alone. Any
      future is accepted; the invariant is kept when `f` wakes only tasks spawned
      so far, itself included (`SpawnAll` covers futures that wake later ones). */
  function Spawn(e: Executor, f: Future): (r: Spawned)
    ensures r.id == |e.tasks|
    ensures IdsBelow(e.queue, |e.tasks|) ==> r.id !in e.queue
    ensures IdsBelow(e.channel, |e.tasks|) ==> r.id !in e.channel
    ensures r.exec.queue == e.queue + [r.id]
    ensures r.exec.channel == e.channel
    ensures |r.exec.tasks| == |e.tasks| + 1 && r.exec.tasks[r.id] == f
    ensures forall t :: 0 <= t < |e.tasks| ==> r.exec.tasks[t] == e.tasks[t]
    ensures Valid(e) && WellFormed(f, |e.tasks| + 1) ==> Valid(r.exec)
  {
    var id := |e.tasks|;
    var r := Spawned(id, Executor(PushBack(e.queue, id), e.channel, e.tasks + [f]));
    if Valid(e) && WellFormed(f, |e.tasks| + 1) then
      GrownTableIsValid(e, f);
      r
    else
      r
  }

  /** Adding a future that wakes only registered tasks or itself keeps the invariant. */
  lemma GrownTableIsValid(e: Executor, f: Future)
    requires Valid(e) && WellFormed(f, |e.tasks| + 1)
    ensures Valid(Executor(e.queue + [|e.tasks|], e.channel, e.tasks + [f]))
  {
    var ts := e.tasks + [f];
    forall t | 0 <= t < |ts|
      ensures WellFormed(ts[t], |ts|)
    {
      if t < |e.tasks| {
        WellFormedGrows(e.tasks[t], |e.tasks|, |ts|);
      }
    }
  }

  /** The ids `n`, `n + 1`, ..., `n + k - 1`, in order. */
  function IdRange(n: nat, k: nat): (r: seq<TaskId>)
    ensures |r| == k && forall i :: 0 <= i < k ==> r[i] == n + i
  {
    seq(k, i => n + i)
  }

  /** Spawns `fs` one after another. A future may wake any task of the batch,
      including one spawned after it (a producer spawned before its consumer):
      once the batch is in, every id a script names is registered and the
      invariant holds again. */
  function SpawnAll(e: Executor, fs: seq<Future>): (r: Executor)
    ensures r.queue == e.queue + IdRange(|e.tasks|, |fs|)
    ensures r.channel == e.channel && r.tasks == e.tasks + fs
    ensures Valid(e) && (forall i :: 0 <= i < |fs| ==> WellFormed(fs[i], |e.tasks| + |fs|))
            ==> Valid(r)
    decreases |fs|
  {
    if |fs| == 0 then
      assert e.queue + IdRange(|e.tasks|, 0) == e.queue;
      assert e.tasks + fs == e.tasks;
      e
    else
      var s := Spawn(e, fs[0]);
      var r := SpawnAll(s.exec, fs[1..]);
      assert r.queue == e.queue + IdRange(|e.tasks|, |fs|) by {
        assert [s.id] + IdRange(|e.tasks| + 1, |fs| - 1) == IdRange(|e.tasks|, |fs|);
      }
      assert r.tasks == e.tasks + fs by {
        assert [fs[0]] + fs[1..] == fs;
      }
      if Valid(e) && (forall i :: 0 <= i < |fs| ==> WellFormed(fs[i], |e.tasks| + |fs|)) then
        BatchIsValid(e, fs, r);
        r
      else
        r
  }

  /** The state `SpawnAll` builds is valid once the whole batch is registered. */
  lemma BatchIsValid(e: Executor, fs: seq<Future>, r: Executor)
    requires Valid(e) && forall i :: 0 <= i < |fs| ==> WellFormed(fs[i], |e.tasks| + |fs|)
    requires r.queue == e.queue + IdRange(|e.tasks|, |fs|)
    requires r.channel == e.channel && r.tasks == e.tasks + fs
    ensures Valid(r)
  {
    var n := |r.tasks|;
    forall t | 0 <= t < n
      ensures WellFormed(r.tasks[t], n)
    {
      if t < |e.tasks| {
        WellFormedGrows(e.tasks[t], |e.tasks|, n);
      } else {
        assert r.tasks[t] == fs[t - |e.tasks|];
      }
    }
    assert IdsBelow(r.queue, n) by {
      forall i | 0 <= i < |r.queue|
        ensures r.queue[i] < n
      {
        if i < |e.queue| {
          assert r.queue[i] == e.queue[i];
        } else {
          assert r.queue[i] == IdRange(|e.tasks|, |fs|)[i - |e.queue|];
        }
      }
    }
    assert IdsBelow(r.channel, n) by {
      forall i | 0 <= i < |r.channel|
        ensures r.channel[i] < n
      {
        assert r.channel[i] == e.channel[i];
      }
    }
  }

  /** The waker of task `id`: one more entry for `id` at the channel's tail,
      whether or not `id` is already queued, pending in the channel or completed.
      The send needs room in the channel. */
  function Wake(e: Executor, id: TaskId): (r: Executor)
    requires id < |e.tasks| && |e.channel| < ChannelCapacity
    ensures r.queue == e.queue && r.tasks == e.tasks
    ensures |r.channel| == |e.channel| + 1
    ensures r.channel[..|e.channel|] == e.channel && r.channel[|e.channel|] == id
  {
    e.(channel := PushBack(e.channel, id))
  }

  /** The wakes of one poll, delivered one after another. */
  function WakeAll(e: Executor, ids: seq<TaskId>): (r: Executor)
    requires IdsBelow(ids, |e.tasks|) && |e.channel| + |ids| <= ChannelCapacity
    ensures r.queue == e.queue && r.tasks == e.tasks
    ensures r.channel == e.channel + ids
    decreases |ids|
  {
    if |ids| == 0 then e else WakeAll(Wake(e, ids[0]), ids[1..])
  }

  /** Receives from the channel until it is empty, appending each entry to the
      queue's tail. */
  function Drain(e: Executor): (r: Executor)
    ensures r.queue == e.queue + e.channel
    ensures r.channel == []
    ensures r.tasks == e.tasks
    decreases |e.channel|
  {
    match PopFront(e.channel)
    case None => e
    case Some(p) => Drain(Executor(PushBack(e.queue, p.head), p.rest, e.tasks))
  }

  /** Polls task `id` once (it has already been taken off the queue): its wakes go
      to the channel while it runs, then it goes back to the queue's tail if it
      reported Pending and is dropped if it reported Ready. */
  function PollTask(e: Executor, id: TaskId): (r: Polling)
    requires Valid(e) && id < |e.tasks|
    requires |e.channel| + |PollFuture(e.tasks[id]).wakes| <= ChannelCapacity
    ensures r.outcome == PollFuture(e.tasks[id]).outcome
    ensures r.exec.channel == e.channel + PollFuture(e.tasks[id]).wakes
    ensures r.exec.queue == e.queue + (if r.outcome == Pending then [id] else [])
    ensures r.exec.tasks == e.tasks[id := PollFuture(e.tasks[id]).rest]
    ensures Valid(r.exec)
  {
    var p := PollFuture(e.tasks[id]);
    WellFormedRest(e.tasks[id], |e.tasks|);
    var woken := WakeAll(e.(tasks := e.tasks[id := p.rest]), p.wakes);
    match p.outcome
    case Ready => Polling(Ready, woken)
    case Pending => Polling(Pending, woken.(queue := PushBack(woken.queue, id)))
  }

  /** Polling a task whose future has already completed, as happens when a wake
      delivered during its last poll queued it again, changes nothing: it reports
      Ready, wakes nobody and is not put back. */
  lemma PollCompletedIsNoOp(e: Executor, id: TaskId)
    requires Valid(e) && id < |e.tasks| && Completed(e.tasks[id])
    ensures PollTask(e, id) == Polling(Ready, e)
  {
    assert e.tasks[id := e.tasks[id]] == e.tasks;
  }

  /** One pass of the run loop: drain the channel, take the queue's head (stopping
      if there is none) and poll it once. */
  function Iterate(e: Executor): (r: Iteration)
    requires Valid(e)
    ensures Valid(r.exec) && |r.exec.tasks| == |e.tasks|
    ensures r.Idle? <==> e.queue + e.channel == []
    ensures r.Progress? ==> Measure(r.exec) < Measure(e)
  {
    var d := Drain(e);
    match PopFront(d.queue)
    case None => Idle(d)
    case Some(h) =>
      var id := h.head;
      var f := e.tasks[id];
      WellFormedRest(f, |e.tasks|);
      var polled := PollTask(d.(queue := h.rest), id);
      TotalWeightUpdate(e.tasks, id, PollFuture(f).rest);
      Progress(Polled(id, polled.outcome), polled.exec)
  }

  /** An iteration that finds nothing to poll leaves both the queue and the channel
      empty. One that does polls exactly one task, the head of the queue after the
      drain: the channel's entries have joined the queue's tail in channel order,
      the polled task returns to the tail if it reported Pending and is dropped if
      it reported Ready, the channel then holds just the wakes of that poll, and no
      other task's future changes. */
  lemma IterateSpec(e: Executor)
    requires Valid(e)
    ensures var r := Iterate(e);
      && (r.Idle? ==> r.exec.queue == [] && r.exec.channel == [] && r.exec.tasks == e.tasks)
      && (r.Progress? ==>
           var pending := e.queue + e.channel;
           var id := pending[0];
           var p := PollFuture(e.tasks[id]);
           && r.event == Polled(id, p.outcome)
           && r.exec.queue == pending[1..] + (if p.outcome == Pending then [id] else [])
           && r.exec.channel == p.wakes
           && r.exec.tasks == e.tasks[id := p.rest])
  {
    var d := Drain(e);
    if d.queue != [] {
      WellFormedRest(e.tasks[d.queue[0]], |e.tasks|);
    }
  }

  /** The trace of a run is the iteration's poll followed by the rest of the run. */
  lemma ExecuteUnfold(e: Executor)
    requires Valid(e)
    ensures var r := Iterate(e);
      && (r.Idle? ==> Execute(e) == RunResult(r.exec, []))
      && (r.Progress? ==> Execute(e).trace == [r.event] + Execute(r.exec).trace
                          && Execute(e).final == Execute(r.exec).final)
  {
  }

  /** The run loop: iterate until an iteration finds the queue empty right after a
      drain. */
  function Execute(e: Executor): (r: RunResult)
    requires Valid(e)
    ensures r.final.queue == [] && r.final.channel == []
    ensures Valid(r.final) && |r.final.tasks| == |e.tasks|
    ensures |r.trace| <= Measure(e)
    decreases Measure(e)
  {
    match Iterate(e)
    case Idle(d) => RunResult(d, [])
    case Progress(ev, next) =>
      var rest := Execute(next);
      RunResult(rest.final, [ev] + rest.trace)
  }

  /** The receive loop at the top of each iteration: take entries off the channel
      until a receive finds it empty, pushing each onto the queue's tail. */
  method ReceiveAll(e: Executor) returns (d: Executor)
    requires Valid(e)
    ensures d == Drain(e) && Valid(d)
  {
    d := e;
    var received := PopFront(d.channel);
    while received.Some?
      invariant Valid(d) && Drain(d) == Drain(e)
      invariant received == PopFront(d.channel)
      decreases |d.channel|
    {
      d := Executor(PushBack(d.queue, received.value.head), received.value.rest, d.tasks);
      received := PopFront(d.channel);
    }
  }

  lemma ExecuteIdle(e: Executor, d: Executor)
    requires Valid(e) && Drain(e) == d && d.channel == [] && d.queue == []
    ensures Execute(e) == RunResult(d, [])
  {
    assert Iterate(e) == Idle(d);
  }

  /** Polling the head of the drained queue is what the run does next. */
  lemma ExecuteProgress(e: Executor, d: Executor, h: Popped<TaskId>)
    requires Valid(e) && Drain(e) == d && PopFront(d.queue) == Some(h)
    ensures Valid(d.(queue := h.rest)) && h.head < |d.tasks|
    ensures |d.channel| + |PollFuture(d.tasks[h.head]).wakes| <= ChannelCapacity
    ensures var polled := PollTask(d.(queue := h.rest), h.head);
      && Execute(e).trace == [Polled(h.head, polled.outcome)] + Execute(polled.exec).trace
      && Execute(e).final == Execute(polled.exec).final
      && Measure(polled.exec) < Measure(e)
  {
    WellFormedRest(d.tasks[h.head], |d.tasks|);
    var polled := PollTask(d.(queue := h.rest), h.head);
    assert Iterate(e) == Progress(Polled(h.head, polled.outcome), polled.exec);
  }

  lemma AppendAssoc<T>(a: seq<T>, b: seq<T>, c: seq<T>)
    ensures a + b + c == a + (b + c)
  {
  }

  /** The run loop as the executor runs it: an outer loop of iterations, each
      starting with a receive loop that empties the channel into the queue. */
  method Run(e: Executor) returns (final: Executor, trace: seq<Event>)
    requires Valid(e)
    ensures final.queue == [] && final.channel == []
    ensures RunResult(final, trace) == Execute(e)
  {
    var cur := e;
    trace := [];
    assert trace + Execute(cur).trace == Execute(cur).trace;
    while true
      invariant Valid(cur)
      invariant Execute(e).final == Execute(cur).final
      invariant Execute(e).trace == trace + Execute(cur).trace
      decreases Measure(cur)
    {
      var drained := ReceiveAll(cur);
      match PopFront(drained.queue) {
        case None =>
          ExecuteIdle(cur, drained);
          final := drained;
          return;
        case Some(h) =>
          ExecuteProgress(cur, drained, h);
          var polled := PollTask(drained.(queue := h.rest), h.head);
          var ev := Polled(h.head, polled.outcome);
          AppendAssoc(trace, [ev], Execute(polled.exec).trace);
          trace := trace + [ev];
          cur := polled.exec;
      }
    }
  }
}
