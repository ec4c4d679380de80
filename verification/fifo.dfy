/** The double-ended queue operations the executor uses, on plain sequences:
    `push_back` and `pop_front` of a `VecDeque`, and the non-blocking receive of a
    channel, which also hands out its oldest entry first. */
module Fifo {

  datatype Option<+T> = None | Some(value: T)

  /** The head taken off a queue and what is left behind it. */
  datatype Popped<T> = Popped(head: T, rest: seq<T>)

  /** Appends `x` behind every element already queued. */
  function PushBack<T>(q: seq<T>, x: T): (r: seq<T>)
    ensures |r| == |q| + 1
    ensures r[..|q|] == q && r[|q|] == x
  {
    q + [x]
  }

  /** Removes the oldest element; `None` exactly when the queue is empty. */
  function PopFront<T>(q: seq<T>): (r: Option<Popped<T>>)
    ensures r.None? <==> |q| == 0
    ensures r.Some? ==> [r.value.head] + r.value.rest == q
  {
    if |q| == 0 then None else Some(Popped(q[0], q[1..]))
  }

  /** Pushing at the back does not disturb what comes off the front: the oldest
      element of a non-empty queue is still taken first. */
  lemma PopAfterPush<T>(q: seq<T>, x: T)
    ensures PopFront(PushBack(q, x))
         == if |q| == 0 then Some(Popped(x, [])) else Some(Popped(q[0], PushBack(q[1..], x)))
  {
    if |q| > 0 {
      assert (q + [x])[1..] == q[1..] + [x];
    }
  }
}
