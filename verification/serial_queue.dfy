/** The manager's single-worker task queue, abstracted to its ordering
    contract: tasks are appended on submission and taken from the front one
    at a time. The minimum delay between tasks is a timing matter and does
    not appear here.
 */
module SerialQueue {
  import opened Options

  /** Pending tasks, oldest first. */
  type Queue<T> = seq<T>

  function Enqueue<T>(q: Queue<T>, x: T): (r: Queue<T>)
    ensures |r| == |q| + 1 && r[|q|] == x
    ensures forall i :: 0 <= i < |q| ==> r[i] == q[i]
  {
    q + [x]
  }

  /** Takes the oldest task; nothing when the queue is empty. */
  function Dequeue<T>(q: Queue<T>): (r: Option<(T, Queue<T>)>)
    ensures r.None? <==> |q| == 0
    ensures r.Some? ==> [r.value.0] + r.value.1 == q
  {
    if |q| == 0 then None else Some((q[0], q[1..]))
  }
}
