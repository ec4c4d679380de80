/** An abstract future: instead of real code, the script of what each of its
    remaining polls does. */
module Futures {

  /** A task is named by its position in the executor's task table. */
  type TaskId = nat

  /** What one poll reports. */
  datatype Poll = Pending | Ready

  /** `polls[k]` lists the tasks the future wakes during its k-th next poll, in the
      order it calls their wakers. Every poll but the last reports Pending and the
      last reports Ready; with no polls left the future has completed. */
  datatype Future = Future(polls: seq<seq<TaskId>>)

  /** What a poll reports, the wakes it emits, and the future left afterwards. */
  datatype PollResult = PollResult(outcome: Poll, wakes: seq<TaskId>, rest: Future)

  predicate Completed(f: Future) {
    |f.polls| == 0
  }

  /** A future that wakes nobody on any poll. */
  predicate Silent(f: Future) {
    forall k :: 0 <= k < |f.polls| ==> f.polls[k] == []
  }

  /** How many polls the executor spends on `f` until it reports Ready. A completed
      future is fused: it reports Ready again at once. */
  function PollsToFinish(f: Future): nat {
    if Completed(f) then 1 else |f.polls|
  }

  /** One poll of `f`. A completed future reports Ready, wakes nobody and stays
      completed. */
  function PollFuture(f: Future): (r: PollResult)
    ensures r.outcome == Ready <==> PollsToFinish(f) == 1
    ensures r.outcome == Ready ==> Completed(r.rest)
    ensures r.outcome == Pending ==> PollsToFinish(r.rest) == PollsToFinish(f) - 1
    ensures Completed(f) ==> r.wakes == [] && r.rest == f
    ensures !Completed(f) ==> r.wakes == f.polls[0] && |r.rest.polls| == |f.polls| - 1
    ensures Silent(f) ==> Silent(r.rest) && r.wakes == []
  {
    if Completed(f) then PollResult(Ready, [], f)
    else PollResult(if |f.polls| == 1 then Ready else Pending, f.polls[0], Future(f.polls[1..]))
  }

  /** A future that needs exactly `k` polls and never wakes anyone. */
  function Countdown(k: nat): (f: Future)
    requires k >= 1
    ensures PollsToFinish(f) == k && !Completed(f) && Silent(f)
  {
    Future(seq(k, _ => []))
  }

  /** The outcomes of `n` successive polls of `f`. */
  function Drive(f: Future, n: nat): (r: seq<Poll>)
    ensures |r| == n
    decreases n
  {
    if n == 0 then [] else [PollFuture(f).outcome] + Drive(PollFuture(f).rest, n - 1)
  }

  /** A future reports Pending on each of its first `PollsToFinish(f) - 1` polls and
      Ready on the next one. */
  lemma {:induction false} ReadyOnLastPoll(f: Future)
    ensures var k := PollsToFinish(f);
      Drive(f, k)[k - 1] == Ready && forall i :: 0 <= i < k - 1 ==> Drive(f, k)[i] == Pending
    decreases |f.polls|
  {
    var k := PollsToFinish(f);
    var p := PollFuture(f);
    if p.outcome == Pending {
      ReadyOnLastPoll(p.rest);
      assert Drive(f, k) == [Pending] + Drive(p.rest, k - 1);
    }
  }

  /** Once completed, a future reports Ready on every further poll. */
  lemma {:induction false} CompletedStaysReady(f: Future, n: nat)
    requires Completed(f)
    ensures forall i :: 0 <= i < n ==> Drive(f, n)[i] == Ready
    decreases n
  {
    if n > 0 {
      CompletedStaysReady(f, n - 1);
      assert Drive(f, n) == [Ready] + Drive(f, n - 1);
    }
  }
}
