/** What the run loop guarantees about the order and the number of polls. */
module RunProperties {
  import opened Fifo
  import opened Futures
  import opened Scheduler

  /** The tasks a trace polls, in order. */
  function Ids(t: seq<Event>): (r: seq<TaskId>)
    ensures |r| == |t| && forall i :: 0 <= i < |t| ==> r[i] == t[i].id
  {
    seq(|t|, i requires 0 <= i < |t| => t[i].id)
  }

  /** How many polls of task `x` a trace records. */
  function PollsOf(t: seq<Event>, x: TaskId): nat {
    if |t| == 0 then 0 else (if t[0].id == x then 1 else 0) + PollsOf(t[1..], x)
  }

  predicate Distinct(q: seq<TaskId>) {
    forall i, j :: 0 <= i < j < |q| ==> q[i] != q[j]
  }

  /** No future in the table ever wakes a task. */
  predicate Quiet(e: Executor) {
    forall t :: 0 <= t < |e.tasks| ==> Silent(e.tasks[t])
  }

  /** The polls the queued tasks need between them. */
  function SumPolls(q: seq<TaskId>, ts: seq<Future>): nat
    requires IdsBelow(q, |ts|)
  {
    if |q| == 0 then 0 else PollsToFinish(ts[q[0]]) + SumPolls(q[1..], ts)
  }

  // ---------------------------------------------------------------------------
  // FIFO order, wakes or not.

  lemma IdsCons(ev: Event, t: seq<Event>)
    ensures Ids([ev] + t) == [ev.id] + Ids(t)
  {
  }

  lemma PrefixOfAppend<T>(a: seq<T>, b: seq<T>, c: seq<T>)
    ensures (a + b + c)[..|a|] == a
  {
  }

  lemma PrefixOfPrefix<T>(a: seq<T>, b: seq<T>, n: nat)
    requires |b| <= |a| && a[..|b|] == b && n <= |b|
    ensures a[..n] == b[..n]
  {
    assert forall i :: 0 <= i < n ==> a[i] == a[..|b|][i];
  }

  lemma ConsPrefix<T>(a: seq<T>, p: seq<T>)
    requires |p| >= 1 && |p| - 1 <= |a| && a[..|p| - 1] == p[1..]
    ensures |p| <= |[p[0]] + a| && ([p[0]] + a)[..|p|] == p
  {
    assert ([p[0]] + a)[..|p|] == [p[0]] + a[..|p| - 1];
  }

  /** If `t` is `p[0]` followed by `t'`, and `t'` starts with `later`, which starts
      with the rest of `p`, then `t` starts with `p`. */
  lemma PrefixStep<T>(t: seq<T>, t': seq<T>, p: seq<T>, later: seq<T>)
    requires |p| >= 1 && t == [p[0]] + t'
    requires |later| <= |t'| && t'[..|later|] == later
    requires |p| - 1 <= |later| && later[..|p| - 1] == p[1..]
    ensures |p| <= |t| && t[..|p|] == p
  {
    PrefixOfPrefix(t', later, |p| - 1);
    ConsPrefix(t', p);
  }

  /** The run polls everything queued and everything waiting in the channel before
      anything else, in queue order and then channel order: later wakes and
      re-queued tasks all land behind them. */
  lemma {:induction false} FifoOrder(e: Executor)
    requires Valid(e)
    ensures var pending := e.queue + e.channel; var t := Ids(Execute(e).trace);
      |pending| <= |t| && t[..|pending|] == pending
    decreases Measure(e)
  {
    var it := Iterate(e);
    var pending := e.queue + e.channel;
    if it.Progress? {
      var next := it.exec;
      FifoOrder(next);
      FifoTraceStep(e);
      FifoQueueStep(e);
      PrefixStep(Ids(Execute(e).trace), Ids(Execute(next).trace), pending, next.queue + next.channel);
    }
  }

  /** One iteration polls the oldest pending entry first. */
  lemma FifoTraceStep(e: Executor)
    requires Valid(e) && Iterate(e).Progress?
    ensures Ids(Execute(e).trace) == [(e.queue + e.channel)[0]] + Ids(Execute(Iterate(e).exec).trace)
  {
    var it := Iterate(e);
    IterateSpec(e);
    ExecuteUnfold(e);
    IdsCons(it.event, Execute(it.exec).trace);
  }

  /** One iteration keeps the pending entries it did not poll, in order, at the
      front of what remains pending. */
  lemma FifoQueueStep(e: Executor)
    requires Valid(e) && Iterate(e).Progress?
    ensures var next := Iterate(e).exec; var pending := e.queue + e.channel;
      var later := next.queue + next.channel;
      |pending| - 1 <= |later| && later[..|pending| - 1] == pending[1..]
  {
    var it := Iterate(e);
    var pending := e.queue + e.channel;
    IterateSpec(e);
    PrefixOfAppend(pending[1..], if it.event.outcome == Pending then [pending[0]] else [], it.exec.channel);
  }

  /** A spawned task is polled after every task queued before it and before the
      wakes still waiting in the channel, since the next drain puts those behind it. */
  lemma SpawnedTaskPolledInTurn(e: Executor, f: Future)
    requires Valid(e) && WellFormed(f, |e.tasks| + 1)
    ensures var s := Spawn(e, f); var t := Ids(Execute(s.exec).trace);
      var n := |e.queue| + 1 + |e.channel|;
      n <= |t| && t[..n] == e.queue + [s.id] + e.channel
  {
    var s := Spawn(e, f);
    FifoOrder(s.exec);
  }

  /** No wake is lost: the task it names is polled once everything queued or
      pending ahead of it has been. */
  lemma WakeIsDelivered(e: Executor, id: TaskId)
    requires Valid(e) && id < |e.tasks| && |e.channel| < ChannelCapacity
    ensures var t := Ids(Execute(Wake(e, id)).trace);
      var n := |e.queue| + |e.channel| + 1;
      n <= |t| && t[..n] == e.queue + e.channel + [id]
  {
    var w := Wake(e, id);
    FifoOrder(w);
    assert w.queue + w.channel == e.queue + e.channel + [id];
  }

  // ---------------------------------------------------------------------------
  // One iteration, counted per task.

  lemma CountAfterRotation(pending: seq<TaskId>, back: seq<TaskId>, q: seq<TaskId>, x: TaskId)
    requires |pending| > 0 && q == pending[1..] + back
    ensures multiset(q)[x] == multiset(pending)[x] - (if x == pending[0] then 1 else 0) + multiset(back)[x]
  {
    assert pending == [pending[0]] + pending[1..];
    assert multiset(pending) == multiset{pending[0]} + multiset(pending[1..]);
  }

  /** After one iteration, task `x` has as many queue entries as it had queued and
      pending in the channel before, less the one taken for polling if `x` was
      polled, plus the one put back if that poll reported Pending. Wakes emitted
      during the poll wait in the channel for the next drain. */
  lemma QueueCountAfterIteration(e: Executor, x: TaskId)
    requires Valid(e) && Iterate(e).Progress?
    ensures var it := Iterate(e); var p := it.event.id;
      && multiset(it.exec.queue)[x]
         == multiset(e.queue)[x] + multiset(e.channel)[x]
            - (if x == p then 1 else 0)
            + (if x == p && it.event.outcome == Pending then 1 else 0)
      && it.exec.channel == PollFuture(e.tasks[p]).wakes
  {
    var it := Iterate(e);
    var pending := e.queue + e.channel;
    IterateSpec(e);
    var back := if it.event.outcome == Pending then [pending[0]] else [];
    CountAfterRotation(pending, back, it.exec.queue, x);
  }

  // ---------------------------------------------------------------------------
  // Runs in which no future wakes anyone.

  /** A state from which no wake can ever happen: nothing waits in the channel,
      no future wakes anyone, and no task is queued twice. */
  predicate QuietRun(e: Executor) {
    Valid(e) && Quiet(e) && e.channel == [] && Distinct(e.queue)
  }

  /** The polls still owed to task `x`: all it needs if it is queued, none if not. */
  function Owed(e: Executor, x: TaskId): nat {
    if x in e.queue && x < |e.tasks| then PollsToFinish(e.tasks[x]) else 0
  }

  /** One iteration keeps a wake-free run wake-free: the channel stays empty and
      the queue stays free of duplicates. */
  lemma QuietIteration(e: Executor)
    requires QuietRun(e)
    ensures var it := Iterate(e);
      && QuietRun(it.exec)
      && (it.Progress? ==>
           && it.event.id == e.queue[0]
           && e.queue[0] !in e.queue[1..]
           && it.exec.queue == e.queue[1..] + (if it.event.outcome == Pending then [e.queue[0]] else [])
           && it.exec.tasks == e.tasks[e.queue[0] := PollFuture(e.tasks[e.queue[0]]).rest])
  {
    var it := Iterate(e);
    assert e.queue + e.channel == e.queue;
    IterateSpec(e);
    if it.Progress? {
      var id := e.queue[0];
      assert Silent(e.tasks[id]);
      forall t | 0 <= t < |it.exec.tasks|
        ensures Silent(it.exec.tasks[t])
      {
        if t != id {
          assert it.exec.tasks[t] == e.tasks[t];
        }
      }
    }
  }

  lemma PollsOfCons(ev: Event, t: seq<Event>, x: TaskId)
    ensures PollsOf([ev] + t, x) == (if ev.id == x then 1 else 0) + PollsOf(t, x)
  {
    assert ([ev] + t)[1..] == t;
  }

  /** Polling the head of a wake-free queue settles one poll of what it owed. */
  lemma OwedAfterIteration(e: Executor, x: TaskId)
    requires QuietRun(e) && Iterate(e).Progress?
    ensures Owed(e, x) == (if x == e.queue[0] then 1 else 0) + Owed(Iterate(e).exec, x)
  {
    var it := Iterate(e);
    QuietIteration(e);
    var id := e.queue[0];
    assert e.queue == [id] + e.queue[1..];
    if x == id {
      var p := PollFuture(e.tasks[id]);
      assert x < |e.tasks|;
      if it.event.outcome == Pending {
        assert x in it.exec.queue;
      } else {
        assert x !in it.exec.queue;
      }
    } else {
      assert x in e.queue <==> x in it.exec.queue;
      if x < |e.tasks| {
        assert it.exec.tasks[x] == e.tasks[x];
      }
    }
  }

  /** Without wakes, every queued task is polled exactly as often as it needs, and
      a task that is not queued is never polled. */
  lemma {:induction false} ExactPolls(e: Executor, x: TaskId)
    requires QuietRun(e)
    ensures PollsOf(Execute(e).trace, x) == Owed(e, x)
    decreases Measure(e)
  {
    var it := Iterate(e);
    QuietIteration(e);
    if it.Progress? {
      ExactPolls(it.exec, x);
      ExecuteUnfold(e);
      PollsOfCons(it.event, Execute(it.exec).trace, x);
      OwedAfterIteration(e, x);
    } else {
      assert e.queue == [];
    }
  }

  /** No event of the trace polls a task that an earlier event saw report Ready. */
  predicate NoPollAfterReady(t: seq<Event>) {
    forall i, j :: 0 <= i < j < |t| && t[i].outcome == Ready ==> t[j].id != t[i].id
  }

  lemma NoPollAfterReadyCons(ev: Event, t: seq<Event>)
    requires NoPollAfterReady(t)
    requires ev.outcome == Ready ==> PollsOf(t, ev.id) == 0
    ensures NoPollAfterReady([ev] + t)
  {
    var u := [ev] + t;
    forall i, j | 0 <= i < j < |u| && u[i].outcome == Ready
      ensures u[j].id != u[i].id
    {
      if i == 0 {
        PollsOfAbsent(t, ev.id, j - 1);
      } else {
        assert u[i] == t[i - 1] && u[j] == t[j - 1];
      }
    }
  }

  /** Without wakes, a task that has reported Ready is never polled again. */
  lemma {:induction false} NeverPolledAfterReady(e: Executor)
    requires QuietRun(e)
    ensures NoPollAfterReady(Execute(e).trace)
    decreases Measure(e)
  {
    var it := Iterate(e);
    QuietIteration(e);
    ExecuteUnfold(e);
    if it.Progress? {
      NeverPolledAfterReady(it.exec);
      if it.event.outcome == Ready {
        ReadyIsFinal(e);
      }
      NoPollAfterReadyCons(it.event, Execute(it.exec).trace);
    }
  }

  /** Without wakes, the rest of the run never polls a task that just reported
      Ready. */
  lemma ReadyIsFinal(e: Executor)
    requires QuietRun(e) && Iterate(e).Progress? && Iterate(e).event.outcome == Ready
    ensures PollsOf(Execute(Iterate(e).exec).trace, Iterate(e).event.id) == 0
  {
    var it := Iterate(e);
    QuietIteration(e);
    ExactPolls(it.exec, it.event.id);
  }

  /** A task with no polls in a trace appears nowhere in it. */
  lemma {:induction false} PollsOfAbsent(t: seq<Event>, x: TaskId, k: nat)
    requires PollsOf(t, x) == 0 && k < |t|
    ensures t[k].id != x
    decreases k
  {
    if k > 0 {
      PollsOfAbsent(t[1..], x, k - 1);
    }
  }

  lemma {:induction false} SumPollsAppend(q: seq<TaskId>, x: TaskId, ts: seq<Future>)
    requires IdsBelow(q, |ts|) && x < |ts|
    ensures IdsBelow(q + [x], |ts|)
    ensures SumPolls(q + [x], ts) == SumPolls(q, ts) + PollsToFinish(ts[x])
    decreases |q|
  {
    if |q| > 0 {
      assert (q + [x])[1..] == q[1..] + [x];
      SumPollsAppend(q[1..], x, ts);
    }
  }

  lemma {:induction false} SumPollsUpdate(q: seq<TaskId>, x: TaskId, f: Future, ts: seq<Future>)
    requires IdsBelow(q, |ts|) && x < |ts| && x !in q
    ensures SumPolls(q, ts[x := f]) == SumPolls(q, ts)
    decreases |q|
  {
    if |q| > 0 {
      SumPollsUpdate(q[1..], x, f, ts);
    }
  }

  /** Without wakes, the run makes exactly as many polls as the queued tasks need
      between them. */
  lemma {:induction false} TotalPolls(e: Executor)
    requires QuietRun(e)
    ensures |Execute(e).trace| == SumPolls(e.queue, e.tasks)
    decreases Measure(e)
  {
    var it := Iterate(e);
    QuietIteration(e);
    if it.Progress? {
      TotalPolls(it.exec);
      ExecuteUnfold(e);
      var id := e.queue[0];
      var f := PollFuture(e.tasks[id]);
      var rest := e.queue[1..];
      SumPollsUpdate(rest, id, f.rest, e.tasks);
      if it.event.outcome == Pending {
        SumPollsAppend(rest, id, e.tasks[id := f.rest]);
      }
    }
  }

  // ---------------------------------------------------------------------------
  // Round robin.

  /** One poll of each task of `q`, in queue order, all reporting `outcome`. */
  function Round(q: seq<TaskId>, outcome: Poll): (r: seq<Event>)
    ensures |r| == |q|
  {
    if |q| == 0 then [] else [Polled(q[0], outcome)] + Round(q[1..], outcome)
  }

  /** `k` rounds over `q`: Pending in every round but the last, Ready in the last. */
  function Rounds(q: seq<TaskId>, k: nat): seq<Event>
    requires k >= 1
  {
    if k == 1 then Round(q, Ready) else Round(q, Pending) + Rounds(q, k - 1)
  }

  /** The table after polling each task of `q` once. */
  function Advance(ts: seq<Future>, q: seq<TaskId>): (r: seq<Future>)
    requires IdsBelow(q, |ts|)
    ensures |r| == |ts|
    decreases |q|
  {
    if |q| == 0 then ts else Advance(ts[q[0] := PollFuture(ts[q[0]]).rest], q[1..])
  }

  /** Every task of `q` needs exactly `k` more polls. */
  predicate Uniform(q: seq<TaskId>, ts: seq<Future>, k: nat) {
    forall i :: 0 <= i < |q| ==> q[i] < |ts| && PollsToFinish(ts[q[i]]) == k
  }

  /** Every task of `q` needs more than one more poll. */
  predicate AllPending(q: seq<TaskId>, ts: seq<Future>) {
    forall i :: 0 <= i < |q| ==> q[i] < |ts| && PollsToFinish(ts[q[i]]) >= 2
  }

  /** Polling each task of a duplicate-free `q` once advances exactly those tasks'
      futures by one poll. */
  lemma {:induction false} AdvanceSpec(ts: seq<Future>, q: seq<TaskId>, x: TaskId)
    requires IdsBelow(q, |ts|) && Distinct(q) && x < |ts|
    ensures Advance(ts, q)[x] == if x in q then PollFuture(ts[x]).rest else ts[x]
    decreases |q|
  {
    if |q| > 0 {
      var ts' := ts[q[0] := PollFuture(ts[q[0]]).rest];
      assert q == [q[0]] + q[1..];
      assert Distinct(q[1..]) && q[0] !in q[1..] by {
        forall i, j | 0 <= i < j < |q[1..]|
          ensures q[1..][i] != q[1..][j]
        {
          assert q[1..][i] == q[i + 1] && q[1..][j] == q[j + 1];
        }
      }
      AdvanceSpec(ts', q[1..], x);
    }
  }

  lemma RotateHead<T>(a: seq<T>, b: seq<T>)
    requires |a| > 0
    ensures (a + b)[1..] + [a[0]] == a[1..] + (b + [a[0]])
    ensures b + [a[0]] + a[1..] == b + a
    ensures (a + b)[0] == a[0]
    ensures forall i :: 0 <= i < |a| - 1 ==> a[1..][i] == (a + b)[i + 1]
  {
    assert a == [a[0]] + a[1..];
  }

  /** The first poll of a round in which the head of the queue reports Pending. */
  lemma PendingHead(a: seq<TaskId>, b: seq<TaskId>, ts: seq<Future>)
    requires QuietRun(Executor(a + b, [], ts)) && |a| > 0 && AllPending(a, ts)
    ensures var ts' := ts[a[0] := PollFuture(ts[a[0]]).rest];
      var next := Executor(a[1..] + (b + [a[0]]), [], ts');
      && QuietRun(next) && AllPending(a[1..], ts')
      && Execute(Executor(a + b, [], ts)).trace == [Polled(a[0], Pending)] + Execute(next).trace
  {
    var e := Executor(a + b, [], ts);
    var ts' := ts[a[0] := PollFuture(ts[a[0]]).rest];
    QuietIteration(e);
    ExecuteUnfold(e);
    RotateHead(a, b);
    assert Iterate(e).exec == Executor(a[1..] + (b + [a[0]]), [], ts');
    forall i | 0 <= i < |a[1..]|
      ensures a[1..][i] < |ts'| && PollsToFinish(ts'[a[1..][i]]) >= 2
    {
      assert a[1..][i] == a[i + 1];
      assert a[1..][i] != a[0];
    }
  }

  /** Polling the tasks `a` queued ahead of `b`, when each of them reports Pending,
      puts them back behind `b` in the same order. */
  lemma {:induction false} PendingRound(a: seq<TaskId>, b: seq<TaskId>, ts: seq<Future>)
    requires QuietRun(Executor(a + b, [], ts)) && AllPending(a, ts)
    ensures IdsBelow(a, |ts|)
    ensures QuietRun(Executor(b + a, [], Advance(ts, a)))
    ensures Execute(Executor(a + b, [], ts)).trace
         == Round(a, Pending) + Execute(Executor(b + a, [], Advance(ts, a))).trace
    decreases |a|
  {
    if |a| == 0 {
      assert a + b == b + a;
    } else {
      var ts' := ts[a[0] := PollFuture(ts[a[0]]).rest];
      PendingHead(a, b, ts);
      PendingRound(a[1..], b + [a[0]], ts');
      RotateHead(a, b);
      AppendAssoc([Polled(a[0], Pending)], Round(a[1..], Pending),
                  Execute(Executor(b + a, [], Advance(ts, a))).trace);
    }
  }

  /** Polling queued tasks that each report Ready drops them all, in queue order. */
  lemma {:induction false} LastRound(q: seq<TaskId>, ts: seq<Future>)
    requires QuietRun(Executor(q, [], ts)) && Uniform(q, ts, 1)
    ensures Execute(Executor(q, [], ts)).trace == Round(q, Ready)
    decreases |q|
  {
    var e := Executor(q, [], ts);
    QuietIteration(e);
    ExecuteUnfold(e);
    if |q| > 0 {
      var ts' := ts[q[0] := PollFuture(ts[q[0]]).rest];
      assert Iterate(e).exec == Executor(q[1..], [], ts');
      forall i | 0 <= i < |q[1..]|
        ensures q[1..][i] < |ts'| && PollsToFinish(ts'[q[1..][i]]) == 1
      {
        assert q[1..][i] == q[i + 1];
      }
      LastRound(q[1..], ts');
    } else {
      assert q + [] == [];
    }
  }

  /** A round in which every queued task reports Pending leaves the same queue,
      each task needing one poll fewer. */
  lemma FullPendingRound(e: Executor, k: nat)
    requires k >= 2 && Rotating(e, k)
    ensures IdsBelow(e.queue, |e.tasks|)
    ensures var next := Executor(e.queue, [], Advance(e.tasks, e.queue));
      && Rotating(next, k - 1)
      && Execute(e).trace == Round(e.queue, Pending) + Execute(next).trace
  {
    var q := e.queue;
    assert e == Executor(q + [], [], e.tasks);
    assert [] + q == q;
    PendingRound(q, [], e.tasks);
    AdvanceUniform(q, e.tasks, k);
  }

  /** Polling each task of a round once takes one poll off what each needs. */
  lemma AdvanceUniform(q: seq<TaskId>, ts: seq<Future>, k: nat)
    requires IdsBelow(q, |ts|) && Distinct(q) && k >= 2 && Uniform(q, ts, k)
    ensures Uniform(q, Advance(ts, q), k - 1)
  {
    var ts' := Advance(ts, q);
    forall i | 0 <= i < |q|
      ensures q[i] < |ts'| && PollsToFinish(ts'[q[i]]) == k - 1
    {
      AdvanceSpec(ts, q, q[i]);
    }
  }

  lemma FinalRound(e: Executor)
    requires QuietRun(e) && Uniform(e.queue, e.tasks, 1)
    ensures Execute(e).trace == Rounds(e.queue, 1)
  {
    assert e == Executor(e.queue, [], e.tasks);
    LastRound(e.queue, e.tasks);
  }

  /** A quiet run whose queued tasks each need exactly `k` more polls. */
  predicate Rotating(e: Executor, k: nat) {
    QuietRun(e) && Uniform(e.queue, e.tasks, k)
  }

  /** Without wakes, tasks that each need `k` polls are polled in `k` rounds, in
      queue order every round: Pending in every round but the last, Ready in the
      last, and then the run stops. */
  lemma {:induction false} RoundRobin(e: Executor, k: nat)
    requires k >= 1 && Rotating(e, k)
    ensures Execute(e).trace == Rounds(e.queue, k)
    decreases k, 1
  {
    if k == 1 {
      FinalRound(e);
    } else {
      PendingThenRoundRobin(e, k);
    }
  }

  /** With more than one poll left per task, a Pending round comes first and the
      remaining rounds follow on the same queue. */
  lemma {:induction false} PendingThenRoundRobin(e: Executor, k: nat)
    requires k >= 2 && Rotating(e, k)
    ensures Execute(e).trace == Rounds(e.queue, k)
    decreases k, 0
  {
    FullPendingRound(e, k);
    var next := Executor(e.queue, [], Advance(e.tasks, e.queue));
    RoundRobin(next, k - 1);
  }
}
