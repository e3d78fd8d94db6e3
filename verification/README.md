# Pinning manager: a Dafny model

This project models the pin-state bookkeeping of the `PinningManager` class.
The manager accepts pin and unpin requests for named content identifiers.
It runs them one at a time against a bucket that holds the pinset. It keeps
two sets of names. `failedPins` holds names whose pin commit failed, or
that the failure handler found queued and not pinned; a name leaves it when
a pin task for it starts or a retry reconciles it. `succeededPins` holds
names whose pin commit succeeded; nothing ever leaves it. It also offers a
retry that reconciles `failedPins` with the bucket's list of queued links.

The bucket is external. Everything the manager reads from it or learns from
it is passed in explicitly:

- the optional sequence `latestQueuedLinks`;
- the `isPinned` predicate;
- the boolean outcomes of `addCid`, `removeCid` and `triggerPin`.

The code treats a queued link as a plain string. The same value goes to
`isPinned` and serves as the key in `failedPins`. The model does the same:
a link is a plain string, not a (name, CID) pair.

Modules:

- `Options` (options.dfy): the optional value.
- `Bucket` (bucket.dfy): a `Snapshot` of what the manager reads from the
  bucket. `UnpinnedQueued` is the reference set: the queued links that are
  not reported as pinned.
- `PinTracker` (tracker.dfy): the two sets, plus one pure function per
  operation that changes them. The source walks `latestQueuedLinks` with
  `forEach`; `AddEach` and `DeleteEach` model that walk as a left-to-right
  fold and are proved equal to a set union or difference with the
  reference set.
- `SerialQueue` (serial_queue.dfy): the single-worker queue, reduced to
  its first-in-first-out contract.
- `PinningManager` (manager.dfy): the whole manager as a state machine
  driven by `Event`s:
  - `Submitted`: `pinCid`/`unpinCid` enqueue a task.
  - `Worked`: the worker runs the oldest task.
  - `Settled`: a commit in flight resolves. This is either a pin task's
    detached `triggerPin` or the `triggerPin` awaited by `retryPin`.
  - `QueueFailed`: `queueDidFail` is called directly.
  - `Retried`: `retryPin` is called.

Because a commit resolves as its own event, the two outcome channels of a
pin task stay separate. The caller's reply comes from the add. The commit
updates the sets whenever it settles, and other events may come first.
Each event that reads the bucket carries the snapshot seen at that moment, so the bucket
may change between events.

The code does not keep the two sets disjoint: `SetsMayOverlap` exhibits a
history that puts a name in both.

## Model

| member | source | states |
|---|---|---|
| `PinTracker.New` | lib/PinningManager.ts:16-17 | a new tracker holds no name in either set |
| `PinningManager.Fresh` | lib/PinningManager.ts:12-23 | a new manager has both sets empty, an empty queue and no calls, replies or commits, and satisfies the log-alignment invariant |
| `Bucket.UnpinnedQueued` | lib/PinningManager.ts:103-106 | a link is in the set iff a queued list exists, the link is in it, and the bucket does not report it pinned; the set is empty without a queued list |
| `PinTracker.AddEach` | lib/PinningManager.ts:104-108 | the element-by-element walk that adds each unpinned link gives exactly the old set united with the unpinned links |
| `PinTracker.DeleteEach` | lib/PinningManager.ts:27-31 | the element-by-element walk that deletes each unpinned link gives exactly the old set minus the unpinned links |
| `PinTracker.QueueDidFail` | lib/PinningManager.ts:101-110 | failedPins becomes old failedPins plus the unpinned queued links; succeededPins is unchanged; nothing changes when there is no queued list |
| `PinTracker.QueueDidFailIdempotent` | lib/PinningManager.ts:101-110 | calling the failure handler twice on the same snapshot equals calling it once |
| `PinTracker.Reconcile` | lib/PinningManager.ts:25-32 | retry reconciliation removes exactly the unpinned queued links from failedPins; pinned links and unqueued names keep their membership; succeededPins is unchanged |
| `PinTracker.RetryPin` | lib/PinningManager.ts:25-38 | a successful retry commit leaves old failedPins minus the unpinned links of the first snapshot; a failed one also adds the unpinned links of the snapshot the failure handler sees; succeededPins is unchanged |
| `PinTracker.RetryPinSameSnapshot` | lib/PinningManager.ts:25-38 | if the bucket does not change, a failed retry equals the failure handler on the original state, and a successful retry equals the reconciliation |
| `PinTracker.StartPin` | lib/PinningManager.ts:47 | a pin task removes its name from failedPins before the add, and changes nothing else |
| `PinTracker.SettlePin` | lib/PinningManager.ts:55-67 | a successful commit puts the name in succeededPins; a failed commit puts it in failedPins; no other name changes membership |
| `PinTracker.PinWithoutInterleaving` | lib/PinningManager.ts:47-67 | a pin task directly followed by its commit leaves the name succeeded and not failed on success, and failed on failure; every other name keeps its membership in both sets |
| `SerialQueue.Enqueue` | lib/PinningManager.ts:43 | submission puts the task behind every pending task and keeps their order |
| `SerialQueue.Dequeue` | lib/PinningManager.ts:18-22 | the worker takes nothing from an empty queue; otherwise it takes the oldest task, and that task put back in front of the rest gives the queue |
| `PinningManager.GetStorageLimit` | lib/PinningManager.ts:120-122 | the storage limit is always 500000000 |
| `PinningManager.GetStorageUsed` | lib/PinningManager.ts:124-126 | used storage is always 0, which is within the limit |
| `PinningManager.Submit` | lib/PinningManager.ts:41-43 | submitting appends the task to the queue and changes no other part of the manager |
| `PinningManager.Work` | lib/PinningManager.ts:41-87 | the worker runs the oldest task: it logs that task's adapter call and replies with the call's own outcome; a pin task clears its name from failedPins and starts a commit whatever the add returned; an unpin task changes neither set and starts no commit; an empty queue changes nothing |
| `PinningManager.Settle` | lib/PinningManager.ts:34-67 | a settling commit is removed from the pending list; a pin commit applies the success/failure update to its name; a failed retry commit runs the failure handler; a successful retry commit changes no set |
| `PinningManager.FailQueue` | lib/PinningManager.ts:101-110 | `queueDidFail` adds the unpinned queued links to failedPins and changes nothing else in the manager |
| `PinningManager.Retry` | lib/PinningManager.ts:25-35 | `retryPin` removes the unpinned queued links from failedPins and starts one commit; queue, logs and succeededPins are unchanged |
| `PinningManager.StepKeepsSucceeded` | lib/PinningManager.ts:25-110 | no event removes a name from succeededPins |
| `PinningManager.RunKeepsSucceeded` | lib/PinningManager.ts:25-110 | over any history of events, succeededPins only grows |
| `PinningManager.StepKeepsConsistent` | lib/PinningManager.ts:41-87 | every event keeps the replies and the adapter calls aligned, one entry each per task run |
| `PinningManager.RunKeepsConsistent` | lib/PinningManager.ts:41-87 | over any history of events, every reply belongs to the task whose adapter call sits at the same position |
| `PinningManager.WorkAllQueue` | lib/PinningManager.ts:18-22 | running k tasks removes exactly the k oldest tasks from the queue |
| `PinningManager.WorkAllCalls` | lib/PinningManager.ts:18-22 | running k tasks appends their add/remove calls to the adapter log in queue order |
| `PinningManager.WorkAllReplies` | lib/PinningManager.ts:43-53 | running k tasks answers each caller with its own call's outcome, so a failed task does not stop the ones behind it |
| `PinningManager.WorkAllKeepsSucceeded` | lib/PinningManager.ts:47-53 | running queue tasks never changes succeededPins |
| `PinningManager.StepKeepsCallOrder` | lib/PinningManager.ts:18-22 | no single event drops, reorders or duplicates a task: the calls made so far followed by the calls of the pending tasks are what they were before, plus the call of the task the event submits |
| `PinningManager.WorkKeepsCallOrder` | lib/PinningManager.ts:43-49 | running a task moves exactly its call from the pending tasks to the adapter log |
| `PinningManager.RunKeepsCallOrder` | lib/PinningManager.ts:18-22 | in every history of events, with settles, retries, failure handling and task runs interleaved with submissions, the calls made followed by the calls of the still-pending tasks are the calls of the initially pending tasks followed by those of every submitted task, in submission order |
| `PinningManager.SubmissionOrder` | lib/PinningManager.ts:18-22 | the special case of an idle manager given a batch and then run to empty: the adapter sees exactly the batch's calls in submission order, and each caller is answered with its own call's outcome |
| `PinningManager.PinTaskThenCommit` | lib/PinningManager.ts:47-67 | the caller's reply for a pin task is the add's outcome alone; the commit is started and consumed whether or not the add succeeded; if it settles next, the name ends succeeded and not failed on success, and failed on failure |
| `PinningManager.UnpinTask` | lib/PinningManager.ts:74-87 | an unpin task leaves both sets unchanged, starts no commit, calls remove on its name, and is accepted iff the remove succeeded |
| `PinningManager.RetryThenCommit` | lib/PinningManager.ts:25-38 | a retry whose commit settles before any other event leaves the same tracker as the uninterrupted retry |
| `PinningManager.SetsMayOverlap` | lib/PinningManager.ts:58-106 | some history starting from a new manager ends with a name in both succeededPins and failedPins: the two sets are not kept disjoint |

## Left out

- `usePinningManager`: React lifecycle glue that builds the bucket and the manager, and calls `queueDidFail` when provisioning fails. It has no local state logic. A call from there is the `QueueFailed` event.
- The 500 ms interval between tasks and the `queue-promise` library. These are timing only. The queue is modelled by its one-at-a-time, first-in-first-out contract.
- Real concurrency. All interleavings of the detached `triggerPin` promise with later tasks are covered: a pending commit may settle at any point and in any order. The atomic time of each event is an abstraction of the JavaScript event loop.
- Performance traces and console logging. Console logging does not affect either set. The trace sink is assumed never to throw. If it did throw, two things would change that the model does not show:
  - a throw from `putAttribute`/`stop` in the success handler would run the failure handler too, so the name would also be added to failedPins after it was added to succeededPins;
  - a throw from `trace` or `start` would end the pin task before the name is cleared from failedPins: no add is made, no commit starts, and the caller's promise never settles.
- `isPinned`, `isQueued`, `latestQueuedLinks`, `reset`, `getLink`: one-line delegations to the bucket. `isPinned` and `latestQueuedLinks` appear as fields of the bucket snapshot.
- The error objects passed to `reject`: a reply records only whether the caller's promise resolved.
- The promise returned by `getStorageUsed`: the model returns the value the promise resolves to.
- The profile and funds-raised display components: rendering only.
