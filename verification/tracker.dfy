/** The pin-state tracker of the pinning manager: the set of names whose
    last attempt failed and the set of names whose pin committed. Every
    operation that touches the two sets is a pure function here, with the
    bucket snapshot and the adapter outcomes passed in explicitly.
 */
module PinTracker {
  import opened Bucket

  datatype Tracker = Tracker(failedPins: set<string>, succeededPins: set<string>)

  /** A freshly constructed manager tracks nothing. */
  function New(): (t: Tracker)
    ensures forall x :: x !in t.failedPins && x !in t.succeededPins
  {
    Tracker({}, {})
  }

  /** Left-to-right walk over `links` that adds every link the bucket does
      not report as pinned to `failed`, as the failure handler's loop does. */
  function AddEach(links: seq<string>, isPinned: string -> bool, failed: set<string>): (r: set<string>)
    ensures r == failed + Unpinned(links, isPinned)
    decreases |links|
  {
    if |links| == 0 then failed
    else
      UnpinnedCons(links, isPinned);
      var v := links[0];
      AddEach(links[1..], isPinned, if !isPinned(v) then failed + {v} else failed)
  }

  /** Left-to-right walk over `links` that deletes every link the bucket does
      not report as pinned from `failed`, as the retry loop does. */
  function DeleteEach(links: seq<string>, isPinned: string -> bool, failed: set<string>): (r: set<string>)
    ensures r == failed - Unpinned(links, isPinned)
    decreases |links|
  {
    if |links| == 0 then failed
    else
      UnpinnedCons(links, isPinned);
      var v := links[0];
      DeleteEach(links[1..], isPinned, if !isPinned(v) then failed - {v} else failed)
  }

  /** Failure handler: every queued link the bucket does not report as pinned
      becomes failed; nothing else changes. */
  function QueueDidFail(t: Tracker, b: Snapshot): (r: Tracker)
    ensures r.failedPins == t.failedPins + UnpinnedQueued(b)
    ensures r.succeededPins == t.succeededPins
    ensures b.latestQueuedLinks.None? ==> r == t
  {
    match b.latestQueuedLinks
    case None => t
    case Some(links) => t.(failedPins := AddEach(links, b.isPinned, t.failedPins))
  }

  /** First half of a retry: every queued link the bucket does not report as
      pinned gets another chance and leaves the failed set. */
  function Reconcile(t: Tracker, b: Snapshot): (r: Tracker)
    ensures r.failedPins == t.failedPins - UnpinnedQueued(b)
    ensures r.succeededPins == t.succeededPins
  {
    match b.latestQueuedLinks
    case None => t
    case Some(links) => t.(failedPins := DeleteEach(links, b.isPinned, t.failedPins))
  }

  /** A whole retry with nothing interleaved: reconcile against `before`,
      commit, and on a failed commit run the failure handler against the
      snapshot `after` that it observes once the commit has failed. */
  function RetryPin(t: Tracker, before: Snapshot, commitOk: bool, after: Snapshot): (r: Tracker)
    ensures commitOk ==> r.failedPins == t.failedPins - UnpinnedQueued(before)
    ensures !commitOk ==>
      r.failedPins == (t.failedPins - UnpinnedQueued(before)) + UnpinnedQueued(after)
    ensures r.succeededPins == t.succeededPins
  {
    var cleared := Reconcile(t, before);
    if commitOk then cleared else QueueDidFail(cleared, after)
  }

  /** Synchronous start of a pin task: the name is optimistically cleared
      from the failed set before the adapter is asked to add it. */
  function StartPin(t: Tracker, name: string): (r: Tracker)
    ensures name !in r.failedPins
    ensures forall x :: x != name ==> (x in r.failedPins <==> x in t.failedPins)
    ensures r.succeededPins == t.succeededPins
  {
    t.(failedPins := t.failedPins - {name})
  }

  /** Resolution of a pin task's detached commit: success records the name
      as succeeded, failure records it as failed. */
  function SettlePin(t: Tracker, name: string, commitOk: bool): (r: Tracker)
    ensures commitOk ==> name in r.succeededPins && r.failedPins == t.failedPins
    ensures !commitOk ==> name in r.failedPins && r.succeededPins == t.succeededPins
    ensures forall x :: x != name ==>
      (x in r.failedPins <==> x in t.failedPins) && (x in r.succeededPins <==> x in t.succeededPins)
  {
    if commitOk then t.(succeededPins := t.succeededPins + {name})
    else t.(failedPins := t.failedPins + {name})
  }

  /** The failure handler is idempotent. */
  lemma QueueDidFailIdempotent(t: Tracker, b: Snapshot)
    ensures QueueDidFail(QueueDidFail(t, b), b) == QueueDidFail(t, b)
  {
  }

  /** A failed retry commit against an unchanged snapshot leaves exactly what
      the failure handler alone would have left on the original state, and
      a successful one leaves exactly the reconciled state. */
  lemma RetryPinSameSnapshot(t: Tracker, b: Snapshot, commitOk: bool)
    ensures !commitOk ==> RetryPin(t, b, commitOk, b) == QueueDidFail(t, b)
    ensures commitOk ==> RetryPin(t, b, commitOk, b) == Reconcile(t, b)
  {
  }

  /** A pin task followed directly by its commit: success leaves the name
      succeeded and not failed, failure leaves it failed, and no other name
      changes membership in either set. */
  lemma PinWithoutInterleaving(t: Tracker, name: string, commitOk: bool)
    ensures var r := SettlePin(StartPin(t, name), name, commitOk);
      && (commitOk ==> name in r.succeededPins && name !in r.failedPins)
      && (!commitOk ==> name in r.failedPins)
      && (forall x :: x != name ==>
            (x in r.failedPins <==> x in t.failedPins) && (x in r.succeededPins <==> x in t.succeededPins))
  {
  }
}
