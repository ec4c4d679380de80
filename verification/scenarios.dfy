/** Concrete runs of the executor. */
module Scenarios {
  import opened Futures
  import opened Scheduler
  import opened RunProperties

  /** A run polls the oldest pending entry first, queued or in the channel, and
      goes on from the state that poll leaves. */
  lemma Step(e: Executor, ev: Event, next: Executor)
    requires Valid(e) && |e.queue + e.channel| > 0
    requires var pending := e.queue + e.channel;
      var id := pending[0]; var p := PollFuture(e.tasks[id]);
      && ev == Polled(id, p.outcome)
      && next.queue == pending[1..] + (if p.outcome == Pending then [id] else [])
      && next.channel == p.wakes
      && next.tasks == e.tasks[id := p.rest]
    ensures Valid(next) && Execute(e).trace == [ev] + Execute(next).trace
  {
    IterateSpec(e);
    ExecuteUnfold(e);
    assert Iterate(e).exec == next;
  }

  /** A run that finds nothing to poll. */
  lemma Stop(e: Executor)
    requires Valid(e) && e.queue + e.channel == []
    ensures Execute(e).trace == []
  {
    ExecuteUnfold(e);
  }

  /** Three tasks A, B and C, spawned in that order into a fresh executor. */
  function SpawnThree(a: Future, b: Future, c: Future): (e: Executor)
    requires Silent(a) && Silent(b) && Silent(c)
    ensures Valid(e) && e.queue == [0, 1, 2] && e.channel == [] && e.tasks == [a, b, c]
  {
    SilentIsWellFormed(a, 1);
    SilentIsWellFormed(b, 2);
    SilentIsWellFormed(c, 3);
    var sa := Spawn(New(), a);
    var sb := Spawn(sa.exec, b);
    var sc := Spawn(sb.exec, c);
    sc.exec
  }

  /** A, B and C each report Pending once and then Ready: the run polls them round
      robin, A, B, C, A, B, C, and then stops. */
  lemma RoundRobinAbc()
    ensures Execute(SpawnThree(Countdown(2), Countdown(2), Countdown(2))).trace
         == [Polled(0, Pending), Polled(1, Pending), Polled(2, Pending),
             Polled(0, Ready), Polled(1, Ready), Polled(2, Ready)]
  {
    var two := Countdown(2);
    var e := SpawnThree(two, two, two);
    assert Rotating(e, 2);
    RoundRobin(e, 2);
    RoundsAbc();
  }

  lemma RoundsAbc()
    ensures Rounds([0, 1, 2], 2)
         == [Polled(0, Pending), Polled(1, Pending), Polled(2, Pending),
             Polled(0, Ready), Polled(1, Ready), Polled(2, Ready)]
  {
    assert [0, 1, 2][1..] == [1, 2] && [1, 2][1..] == [2] && [2][1..] == [];
  }

  /** One task, spawned into a fresh executor. */
  function SpawnOne(f: Future): (e: Executor)
    requires Silent(f)
    ensures Valid(e) && e.queue == [0] && e.channel == [] && e.tasks == [f]
  {
    SilentIsWellFormed(f, 1);
    Spawn(New(), f).exec
  }

  /** One task that needs three polls and wakes nobody is polled three times,
      reporting Pending, Pending and then Ready. */
  lemma ThreePollsAlone()
    ensures Execute(SpawnOne(Countdown(3))).trace
         == [Polled(0, Pending), Polled(0, Pending), Polled(0, Ready)]
  {
    var e := SpawnOne(Countdown(3));
    assert Rotating(e, 3);
    RoundRobin(e, 3);
    RoundsThree();
  }

  lemma RoundsThree()
    ensures Rounds([0], 3) == [Polled(0, Pending), Polled(0, Pending), Polled(0, Ready)]
  {
    assert [0][1..] == [];
  }

  /** A task that wakes itself during a poll that reports Pending is queued twice:
      once put back by the run loop and once by the drained wake. It is therefore
      polled again after it has reported Ready, which a completed future answers
      with Ready once more. */
  lemma SelfWakeQueuesTwice()
    ensures var e0 := SelfWaking();
      var e1 := Iterate(e0).exec;
      && Drain(e1).queue == [0, 0]
      && Execute(e0).trace == [Polled(0, Pending), Polled(0, Ready), Polled(0, Ready)]
      && !NoPollAfterReady(Execute(e0).trace)
  {
    var e0 := SelfWaking();
    SelfWakeFirstPoll();
    SelfWakeLaterPolls();
    var t := Execute(e0).trace;
    assert t == [Polled(0, Pending), Polled(0, Ready), Polled(0, Ready)];
    assert t[0].outcome == Ready ==> false;
    assert t[1].outcome == Ready && t[2].id == t[1].id;
  }

  /** A fresh executor with one task spawned, whose future wakes that task during
      its first poll and reports Ready on its second. */
  function SelfWaking(): (e: Executor)
    ensures Valid(e) && e == Executor([0], [], [Future([[0], []])])
  {
    var f := Future([[0], []]);
    assert WellFormed(f, 1) by {
      assert IdsBelow(f.polls[0], 1);
    }
    Spawn(New(), f).exec
  }

  /** The first poll reports Pending and leaves the task both queued and woken. */
  lemma SelfWakeFirstPoll()
    ensures var e0 := SelfWaking();
      var e1 := Executor([0], [0], [Future([[]])]);
      && Valid(e1) && Iterate(e0).exec == e1
      && Execute(e0).trace == [Polled(0, Pending)] + Execute(e1).trace
  {
    var e0 := SelfWaking();
    var e1 := Executor([0], [0], [Future([[]])]);
    Step(e0, Polled(0, Pending), e1);
    IterateSpec(e0);
  }

  /** Both remaining entries are polled, and the completed future reports Ready
      to each. */
  lemma SelfWakeLaterPolls()
    ensures var e1 := Executor([0], [0], [Future([[]])]);
      Valid(e1) && Execute(e1).trace == [Polled(0, Ready), Polled(0, Ready)]
  {
    var e1 := Executor([0], [0], [Future([[]])]);
    var e2 := Executor([0], [], [Future([])]);
    var e3 := Executor([], [], [Future([])]);
    assert WellFormed(Future([[]]), 1);
    Step(e1, Polled(0, Ready), e2);
    Step(e2, Polled(0, Ready), e3);
    Stop(e3);
  }

  /** A producer spawned before its consumer: the producer wakes the consumer
      during its second poll, after the consumer's first poll has handed out its
      waker, so its script names a task spawned after it. Spawned together, both
      are registered before the run starts. */
  function ProducerThenConsumer(): (e: Executor)
    ensures Valid(e)
    ensures e == Executor([0, 1], [], [Future([[], [1]]), Future([[], []])])
  {
    var producer := Future([[], [1]]);
    var consumer := Future([[], []]);
    assert WellFormed(producer, 2) by {
      assert IdsBelow(producer.polls[1], 2);
    }
    assert WellFormed(consumer, 2);
    var e := SpawnAll(New(), [producer, consumer]);
    assert e.queue == [0, 1] by {
      assert IdRange(0, 2) == [0, 1];
    }
    e
  }

  /** Each task is polled once and reports Pending. The producer's second poll
      reports Ready and wakes the consumer, which is then queued both by the loop
      and by the wake; its second entry is polled after it has completed. */
  lemma ProducerWakesConsumer()
    ensures Execute(ProducerThenConsumer()).trace
         == [Polled(0, Pending), Polled(1, Pending), Polled(0, Ready),
             Polled(1, Ready), Polled(1, Ready)]
  {
    ProducerPolled();
    ConsumerPolled();
    ProducerDone();
    ConsumerDone();
    ConsumerAgain();
    Chain(Execute(ProducerThenConsumer()).trace, Execute(ProducerWaiting()).trace,
          Execute(BothWaiting()).trace, Execute(ConsumerTwice()).trace,
          Execute(ConsumerOnce()).trace);
  }

  /** Five single steps of a trace, joined. */
  lemma Chain(t0: seq<Event>, t1: seq<Event>, t2: seq<Event>, t3: seq<Event>, t4: seq<Event>)
    requires t0 == [Polled(0, Pending)] + t1 && t1 == [Polled(1, Pending)] + t2
    requires t2 == [Polled(0, Ready)] + t3 && t3 == [Polled(1, Ready)] + t4
    requires t4 == [Polled(1, Ready)]
    ensures t0 == [Polled(0, Pending), Polled(1, Pending), Polled(0, Ready),
                   Polled(1, Ready), Polled(1, Ready)]
  {
  }

  // The states the run passes through, each with its invariant.

  function ProducerWaiting(): (e: Executor)
    ensures Valid(e) && e == Executor([1, 0], [], [Future([[1]]), Future([[], []])])
  {
    var e := Executor([1, 0], [], [Future([[1]]), Future([[], []])]);
    assert WellFormed(e.tasks[0], 2) && WellFormed(e.tasks[1], 2);
    e
  }

  function BothWaiting(): (e: Executor)
    ensures Valid(e) && e == Executor([0, 1], [], [Future([[1]]), Future([[]])])
  {
    var e := Executor([0, 1], [], [Future([[1]]), Future([[]])]);
    assert WellFormed(e.tasks[0], 2) && WellFormed(e.tasks[1], 2);
    e
  }

  function ConsumerTwice(): (e: Executor)
    ensures Valid(e) && e == Executor([1], [1], [Future([]), Future([[]])])
  {
    var e := Executor([1], [1], [Future([]), Future([[]])]);
    assert WellFormed(e.tasks[1], 2);
    e
  }

  function ConsumerOnce(): (e: Executor)
    ensures Valid(e) && e == Executor([1], [], [Future([]), Future([])])
  {
    Executor([1], [], [Future([]), Future([])])
  }

  function BothDone(): (e: Executor)
    ensures Valid(e) && e == Executor([], [], [Future([]), Future([])])
  {
    Executor([], [], [Future([]), Future([])])
  }

  lemma ProducerPolled()
    ensures Execute(ProducerThenConsumer()).trace
         == [Polled(0, Pending)] + Execute(ProducerWaiting()).trace
  {
    var e := ProducerThenConsumer();
    assert e.queue + e.channel == [0, 1];
    Step(e, Polled(0, Pending), ProducerWaiting());
  }

  lemma ConsumerPolled()
    ensures Execute(ProducerWaiting()).trace == [Polled(1, Pending)] + Execute(BothWaiting()).trace
  {
    var e := ProducerWaiting();
    assert e.queue + e.channel == [1, 0];
    Step(e, Polled(1, Pending), BothWaiting());
  }

  lemma ProducerDone()
    ensures Execute(BothWaiting()).trace == [Polled(0, Ready)] + Execute(ConsumerTwice()).trace
  {
    var e := BothWaiting();
    assert e.queue + e.channel == [0, 1];
    Step(e, Polled(0, Ready), ConsumerTwice());
  }

  lemma ConsumerDone()
    ensures Execute(ConsumerTwice()).trace == [Polled(1, Ready)] + Execute(ConsumerOnce()).trace
  {
    var e := ConsumerTwice();
    assert e.queue + e.channel == [1, 1];
    Step(e, Polled(1, Ready), ConsumerOnce());
  }

  lemma ConsumerAgain()
    ensures Execute(ConsumerOnce()).trace == [Polled(1, Ready)]
  {
    var e := ConsumerOnce();
    assert e.queue + e.channel == [1];
    Step(e, Polled(1, Ready), BothDone());
    Stop(BothDone());
  }
}
