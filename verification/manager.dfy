/** The pinning manager as a sequential state machine.

    Its state is the pin tracker, the queue of submitted pin and unpin
    tasks, and three logs of what it has done so far: the add/remove calls
    made on the bucket adapter, the replies given to callers, and the
    commits (`triggerPin` calls) that have been started but have not yet
    resolved. Everything the bucket decides (add/remove/commit outcomes, the
    snapshot of queued links and pin status) arrives as a parameter of an
    event.
 */
module PinningManager {
  import opened Options
  import opened Bucket
  import opened SerialQueue
  import PinTracker

  /** Fixed storage capacity reported to the interface, in bytes. */
  const StorageLimit: nat := 500_000_000

  function GetStorageLimit(): (r: nat)
    ensures r == 500_000_000
  {
    StorageLimit
  }

  /** Storage accounting is a stub: nothing is ever reported as used. */
  function GetStorageUsed(): (r: nat)
    ensures r == 0
    ensures r <= GetStorageLimit()
  {
    0
  }

  /** A submitted unit of work for the single queue worker. */
  datatype Task = Pin(name: string, cid: string) | Unpin(name: string)

  /** A mutating call made on the bucket adapter by a queue task. */
  datatype AdapterCall = AddCid(name: string, cid: string) | RemoveCid(name: string)

  /** The outcome a caller of `pinCid`/`unpinCid` observes for its task. */
  datatype Reply = Reply(task: Task, accepted: bool)

  /** A commit in flight: the detached one of a pin task, or the awaited one
      of a retry. */
  datatype Commit = PinCommit(name: string) | RetryCommit

  datatype Manager = Manager(
    tracker: PinTracker.Tracker,
    queue: Queue<Task>,
    calls: seq<AdapterCall>,
    replies: seq<Reply>,
    commits: seq<Commit>)

  /** Everything that can happen to a manager, one step at a time. */
  datatype Event =
    | Submitted(task: Task)
    | Worked(ok: bool)
    | Settled(index: nat, ok: bool, bucket: Snapshot)
    | QueueFailed(bucket: Snapshot)
    | Retried(bucket: Snapshot)

  /** The adapter call a task makes. */
  function CallOf(t: Task): AdapterCall
  {
    match t
    case Pin(name, cid) => AddCid(name, cid)
    case Unpin(name) => RemoveCid(name)
  }

  /** The adapter calls of a list of tasks, in the same order. */
  function Calls(ts: seq<Task>): (cs: seq<AdapterCall>)
    ensures |cs| == |ts|
    ensures forall i :: 0 <= i < |ts| ==> cs[i] == CallOf(ts[i])
  {
    seq(|ts|, i requires 0 <= i < |ts| => CallOf(ts[i]))
  }

  /** The replies to a list of tasks whose adapter calls reported `oks`. */
  function Replies(ts: seq<Task>, oks: seq<bool>): (rs: seq<Reply>)
    requires |oks| == |ts|
    ensures |rs| == |ts|
    ensures forall i :: 0 <= i < |ts| ==> rs[i] == Reply(ts[i], oks[i])
  {
    seq(|ts|, i requires 0 <= i < |ts| => Reply(ts[i], oks[i]))
  }

  /** Every reply matches the adapter call made at the same position: the
      logs grow together, one entry per task run. */
  ghost predicate Consistent(m: Manager)
  {
    && |m.replies| == |m.calls|
    && forall i :: 0 <= i < |m.calls| ==> CallOf(m.replies[i].task) == m.calls[i]
  }

  /** A freshly constructed manager: empty sets, nothing queued, nothing done. */
  function Fresh(): (m: Manager)
    ensures m.tracker.failedPins == {} && m.tracker.succeededPins == {}
    ensures m.queue == [] && m.calls == [] && m.replies == [] && m.commits == []
    ensures Consistent(m)
  {
    Manager(PinTracker.New(), [], [], [], [])
  }

  /** `pinCid` / `unpinCid` submission: the task joins the back of the queue
      and nothing else happens until the worker reaches it. */
  function Submit(m: Manager, t: Task): (r: Manager)
    ensures r.queue == m.queue + [t]
    ensures r.(queue := m.queue) == m
  {
    m.(queue := Enqueue(m.queue, t))
  }

  /** The worker runs the oldest task with the adapter reporting `ok` for
      its add or remove call. A pin task clears its name from the failed set
      before the add, answers its caller with the add's outcome only, and
      starts a commit whatever the add returned. An unpin task touches
      neither set and starts no commit. */
  function Work(m: Manager, ok: bool): (r: Manager)
    ensures |m.queue| == 0 ==> r == m
    ensures |m.queue| > 0 ==>
      && r.queue == m.queue[1..]
      && r.calls == m.calls + [CallOf(m.queue[0])]
      && r.replies == m.replies + [Reply(m.queue[0], ok)]
      && r.tracker.succeededPins == m.tracker.succeededPins
    ensures |m.queue| > 0 && m.queue[0].Pin? ==>
      && r.tracker.failedPins == m.tracker.failedPins - {m.queue[0].name}
      && r.commits == m.commits + [PinCommit(m.queue[0].name)]
    ensures |m.queue| > 0 && m.queue[0].Unpin? ==>
      r.tracker == m.tracker && r.commits == m.commits
  {
    match Dequeue(m.queue)
    case None => m
    case Some((t, rest)) =>
      match t
      case Pin(name, cid) =>
        m.(tracker := PinTracker.StartPin(m.tracker, name),
           queue := rest,
           calls := m.calls + [AddCid(name, cid)],
           replies := m.replies + [Reply(t, ok)],
           commits := m.commits + [PinCommit(name)])
      case Unpin(name) =>
        m.(queue := rest,
           calls := m.calls + [RemoveCid(name)],
           replies := m.replies + [Reply(t, ok)])
  }

  /** The commit at `index` resolves with outcome `ok`, with the bucket as
      `b` at that moment. A pin commit records its name as succeeded or
      failed; a failed retry commit runs the failure handler; a successful
      retry commit changes no set. Any pending commit may resolve first; an
      index with no pending commit changes nothing. */
  function Settle(m: Manager, index: nat, ok: bool, b: Snapshot): (r: Manager)
    ensures index >= |m.commits| ==> r == m
    ensures index < |m.commits| ==>
      && r.commits == m.commits[..index] + m.commits[index + 1..]
      && r.queue == m.queue && r.calls == m.calls && r.replies == m.replies
    ensures index < |m.commits| && m.commits[index].PinCommit? ==>
      r.tracker == PinTracker.SettlePin(m.tracker, m.commits[index].name, ok)
    ensures index < |m.commits| && m.commits[index].RetryCommit? ==>
      r.tracker == (if ok then m.tracker else PinTracker.QueueDidFail(m.tracker, b))
  {
    if index >= |m.commits| then m
    else
      var rest := m.commits[..index] + m.commits[index + 1..];
      match m.commits[index]
      case PinCommit(name) =>
        m.(tracker := PinTracker.SettlePin(m.tracker, name, ok), commits := rest)
      case RetryCommit =>
        m.(tracker := if ok then m.tracker else PinTracker.QueueDidFail(m.tracker, b), commits := rest)
  }

  /** `queueDidFail`, called directly (not through the queue). */
  function FailQueue(m: Manager, b: Snapshot): (r: Manager)
    ensures r.tracker.failedPins == m.tracker.failedPins + UnpinnedQueued(b)
    ensures r.(tracker := m.tracker) == m
    ensures r.tracker.succeededPins == m.tracker.succeededPins
  {
    m.(tracker := PinTracker.QueueDidFail(m.tracker, b))
  }

  /** `retryPin`, called directly: reconcile the failed set against `b`,
      then start the commit whose failure handling happens when it settles. */
  function Retry(m: Manager, b: Snapshot): (r: Manager)
    ensures r.tracker.failedPins == m.tracker.failedPins - UnpinnedQueued(b)
    ensures r.tracker.succeededPins == m.tracker.succeededPins
    ensures r.commits == m.commits + [RetryCommit]
    ensures r.queue == m.queue && r.calls == m.calls && r.replies == m.replies
  {
    m.(tracker := PinTracker.Reconcile(m.tracker, b), commits := m.commits + [RetryCommit])
  }

  function Step(m: Manager, e: Event): Manager
  {
    match e
    case Submitted(t) => Submit(m, t)
    case Worked(ok) => Work(m, ok)
    case Settled(i, ok, b) => Settle(m, i, ok, b)
    case QueueFailed(b) => FailQueue(m, b)
    case Retried(b) => Retry(m, b)
  }

  /** The manager after a whole history of events, oldest first. */
  function Run(m: Manager, es: seq<Event>): Manager
    decreases |es|
  {
    if |es| == 0 then m else Run(Step(m, es[0]), es[1..])
  }

  /** The tasks submitted in a history of events, in submission order. */
  function Submissions(es: seq<Event>): seq<Task>
    decreases |es|
  {
    if |es| == 0 then []
    else (if es[0].Submitted? then [es[0].task] else []) + Submissions(es[1..])
  }

  /** Submits every task of `ts`, in order. */
  function SubmitAll(m: Manager, ts: seq<Task>): Manager
    decreases |ts|
  {
    if |ts| == 0 then m else SubmitAll(Submit(m, ts[0]), ts[1..])
  }

  /** Lets the worker run one task per adapter outcome in `oks`. */
  function WorkAll(m: Manager, oks: seq<bool>): Manager
    decreases |oks|
  {
    if |oks| == 0 then m else WorkAll(Work(m, oks[0]), oks[1..])
  }

  /** No single step removes a name from the succeeded set. */
  lemma StepKeepsSucceeded(m: Manager, e: Event)
    ensures m.tracker.succeededPins <= Step(m, e).tracker.succeededPins
  {
  }

  /** The succeeded set only grows, over any history. */
  lemma {:induction false} RunKeepsSucceeded(m: Manager, es: seq<Event>)
    ensures m.tracker.succeededPins <= Run(m, es).tracker.succeededPins
    decreases |es|
  {
    if |es| > 0 {
      StepKeepsSucceeded(m, es[0]);
      RunKeepsSucceeded(Step(m, es[0]), es[1..]);
    }
  }

  /** Every step keeps the reply log in step with the adapter-call log. */
  lemma StepKeepsConsistent(m: Manager, e: Event)
    requires Consistent(m)
    ensures Consistent(Step(m, e))
  {
  }

  /** Every reachable manager keeps its reply and adapter-call logs aligned. */
  lemma {:induction false} RunKeepsConsistent(m: Manager, es: seq<Event>)
    requires Consistent(m)
    ensures Consistent(Run(m, es))
    decreases |es|
  {
    if |es| > 0 {
      StepKeepsConsistent(m, es[0]);
      RunKeepsConsistent(Step(m, es[0]), es[1..]);
    }
  }

  /** Submitting a batch appends it to the queue and touches nothing else. */
  lemma {:induction false} SubmitAllAppends(m: Manager, ts: seq<Task>)
    ensures SubmitAll(m, ts).queue == m.queue + ts
    ensures SubmitAll(m, ts).(queue := m.queue) == m
    decreases |ts|
  {
    if |ts| > 0 {
      SubmitAllAppends(Submit(m, ts[0]), ts[1..]);
      assert (m.queue + [ts[0]]) + ts[1..] == m.queue + ts;
    }
  }

  /** Running k tasks consumes exactly the k oldest ones. */
  lemma {:induction false} WorkAllQueue(m: Manager, oks: seq<bool>)
    requires |oks| <= |m.queue|
    ensures WorkAll(m, oks).queue == m.queue[|oks|..]
    decreases |oks|
  {
    if |oks| > 0 {
      WorkAllQueue(Work(m, oks[0]), oks[1..]);
    }
  }

  /** Running k tasks makes their adapter calls in queue order. */
  lemma {:induction false} WorkAllCalls(m: Manager, oks: seq<bool>)
    requires |oks| <= |m.queue|
    ensures WorkAll(m, oks).calls == m.calls + Calls(m.queue[..|oks|])
    decreases |oks|
  {
    if |oks| > 0 {
      var k := |oks|;
      var m1 := Work(m, oks[0]);
      WorkAllCalls(m1, oks[1..]);
      assert m1.calls == m.calls + [CallOf(m.queue[0])];
      assert m1.queue[..k - 1] == m.queue[..k][1..];
      CallsCons(m.queue[..k]);
      SeqAssoc(m.calls, [CallOf(m.queue[0])], Calls(m.queue[..k][1..]));
    }
  }

  /** Running k tasks answers each caller with its own call's outcome, so a
      failed task does not stop the ones behind it. */
  lemma {:induction false} WorkAllReplies(m: Manager, oks: seq<bool>)
    requires |oks| <= |m.queue|
    ensures WorkAll(m, oks).replies == m.replies + Replies(m.queue[..|oks|], oks)
    decreases |oks|
  {
    if |oks| > 0 {
      var k := |oks|;
      var m1 := Work(m, oks[0]);
      WorkAllReplies(m1, oks[1..]);
      assert m1.queue[..k - 1] == m.queue[..k][1..];
      RepliesCons(m.queue[..k], oks);
    }
  }

  /** Running tasks never touches the succeeded set. */
  lemma {:induction false} WorkAllKeepsSucceeded(m: Manager, oks: seq<bool>)
    ensures WorkAll(m, oks).tracker.succeededPins == m.tracker.succeededPins
    decreases |oks|
  {
    if |oks| > 0 {
      WorkAllKeepsSucceeded(Work(m, oks[0]), oks[1..]);
    }
  }

  lemma CallsCons(ts: seq<Task>)
    requires |ts| > 0
    ensures Calls(ts) == [CallOf(ts[0])] + Calls(ts[1..])
  {
  }

  lemma RepliesCons(ts: seq<Task>, oks: seq<bool>)
    requires |ts| == |oks| > 0
    ensures Replies(ts, oks) == [Reply(ts[0], oks[0])] + Replies(ts[1..], oks[1..])
  {
  }

  lemma {:induction false} CallsAppend(a: seq<Task>, b: seq<Task>)
    ensures Calls(a + b) == Calls(a) + Calls(b)
  {
    assert |Calls(a + b)| == |Calls(a) + Calls(b)|;
    forall i | 0 <= i < |a| + |b|
      ensures Calls(a + b)[i] == (Calls(a) + Calls(b))[i]
    {
      if i < |a| {
        assert (a + b)[i] == a[i];
      } else {
        assert (a + b)[i] == b[i - |a|];
      }
    }
  }

  /** One event keeps "calls already made, then calls of the pending tasks"
      equal to the same list before the event extended by what the event
      submits: no event drops, reorders or duplicates a task. */
  lemma StepKeepsCallOrder(m: Manager, e: Event)
    ensures Step(m, e).calls + Calls(Step(m, e).queue)
         == m.calls + Calls(m.queue + (if e.Submitted? then [e.task] else []))
  {
    if e.Submitted? {
      assert Step(m, e) == Submit(m, e.task);
    } else {
      assert m.queue + [] == m.queue;
      if e.Worked? {
        WorkKeepsCallOrder(m, e.ok);
      } else {
        assert Step(m, e).calls == m.calls && Step(m, e).queue == m.queue;
      }
    }
  }

  lemma SeqAssoc<T>(a: seq<T>, b: seq<T>, c: seq<T>)
    ensures (a + b) + c == a + (b + c)
  {
  }

  /** Running a task moves its call from the pending part to the log. */
  lemma WorkKeepsCallOrder(m: Manager, ok: bool)
    ensures Work(m, ok).calls + Calls(Work(m, ok).queue) == m.calls + Calls(m.queue)
  {
    if |m.queue| > 0 {
      var r := Work(m, ok);
      var c := CallOf(m.queue[0]);
      var t := Calls(m.queue[1..]);
      CallsCons(m.queue);
      assert r.calls == m.calls + [c] && r.queue == m.queue[1..];
      SeqAssoc(m.calls, [c], t);
    }
  }

  /** Adapter calls follow submission order in every history: whatever
      settles, retries, failure handling and runs of the worker happen in
      between, the calls made so far followed by the calls of the tasks
      still pending are exactly the calls of the pending tasks at the start
      followed by those of every task submitted since, in submission order. */
  lemma {:induction false} RunKeepsCallOrder(m: Manager, es: seq<Event>)
    ensures Run(m, es).calls + Calls(Run(m, es).queue)
         == m.calls + Calls(m.queue + Submissions(es))
    decreases |es|
  {
    if |es| == 0 {
      assert m.queue + [] == m.queue;
    } else {
      var e := es[0];
      var m1 := Step(m, e);
      var s0: seq<Task> := if e.Submitted? then [e.task] else [];
      var rest := Submissions(es[1..]);
      var r := Run(m1, es[1..]);
      assert Run(m, es) == r;
      assert Submissions(es) == s0 + rest;
      RunKeepsCallOrder(m1, es[1..]);
      StepKeepsCallOrder(m, e);
      CallOrderCompose(m.calls, m.queue, m1.calls, m1.queue, s0, rest, r.calls, r.queue);
      assert (m.queue + s0) + rest == m.queue + Submissions(es);
    }
  }

  /** Chaining the call-order equation of one step with that of the rest. */
  lemma CallOrderCompose(c0: seq<AdapterCall>, q0: seq<Task>, c1: seq<AdapterCall>, q1: seq<Task>,
                         s0: seq<Task>, rest: seq<Task>, c2: seq<AdapterCall>, q2: seq<Task>)
    requires c1 + Calls(q1) == c0 + Calls(q0 + s0)
    requires c2 + Calls(q2) == c1 + Calls(q1 + rest)
    ensures c2 + Calls(q2) == c0 + Calls((q0 + s0) + rest)
  {
    CallsAppend(q1, rest);
    CallsAppend(q0 + s0, rest);
    calc {
      c2 + Calls(q2);
      c1 + (Calls(q1) + Calls(rest));
      (c1 + Calls(q1)) + Calls(rest);
      (c0 + Calls(q0 + s0)) + Calls(rest);
      c0 + Calls((q0 + s0) + rest);
    }
  }

  /** Adapter calls follow submission order: tasks submitted to an idle
      manager and then all run reach the adapter in exactly the order they
      were submitted, and each caller is answered with its own outcome. */
  lemma SubmissionOrder(m: Manager, ts: seq<Task>, oks: seq<bool>)
    requires m.queue == []
    requires |oks| == |ts|
    ensures WorkAll(SubmitAll(m, ts), oks).queue == []
    ensures WorkAll(SubmitAll(m, ts), oks).calls == m.calls + Calls(ts)
    ensures WorkAll(SubmitAll(m, ts), oks).replies == m.replies + Replies(ts, oks)
  {
    SubmitAllAppends(m, ts);
    var s := SubmitAll(m, ts);
    assert s.queue == ts;
    WorkAllQueue(s, oks);
    WorkAllCalls(s, oks);
    WorkAllReplies(s, oks);
    assert s.queue[..|oks|] == ts;
  }

  /** A pin task run and its commit settled with nothing in between: the
      caller's answer is the add's outcome alone, the commit is started and
      consumed whether or not the add succeeded, and the tracker ends as the
      pin-then-commit update of the tracker says (name succeeded and not
      failed on success, failed on failure, every other name unchanged). */
  lemma PinTaskThenCommit(m: Manager, addOk: bool, commitOk: bool, b: Snapshot)
    requires |m.queue| > 0 && m.queue[0].Pin?
    ensures var name := m.queue[0].name;
      var r := Settle(Work(m, addOk), |m.commits|, commitOk, b);
      && r.replies == m.replies + [Reply(m.queue[0], addOk)]
      && r.commits == m.commits
      && r.tracker == PinTracker.SettlePin(PinTracker.StartPin(m.tracker, name), name, commitOk)
      && (commitOk ==> name in r.tracker.succeededPins && name !in r.tracker.failedPins)
      && (!commitOk ==> name in r.tracker.failedPins)
  {
  }

  /** An unpin task run: neither set changes, no commit starts, and the
      caller's answer is the remove's outcome. */
  lemma UnpinTask(m: Manager, ok: bool)
    requires |m.queue| > 0 && m.queue[0].Unpin?
    ensures Work(m, ok).tracker == m.tracker
    ensures Work(m, ok).commits == m.commits
    ensures Work(m, ok).calls == m.calls + [RemoveCid(m.queue[0].name)]
    ensures Work(m, ok).replies[|m.replies|].accepted <==> ok
  {
  }

  /** A retry whose commit settles before anything else happens leaves the
      tracker exactly as the uninterrupted retry does, with `after` the
      bucket as seen when the commit resolves. */
  lemma RetryThenCommit(m: Manager, before: Snapshot, ok: bool, after: Snapshot)
    ensures Settle(Retry(m, before), |m.commits|, ok, after).tracker
         == PinTracker.RetryPin(m.tracker, before, ok, after)
    ensures Settle(Retry(m, before), |m.commits|, ok, after).commits == m.commits
  {
  }

  /** The two sets are not kept disjoint: a name can be recorded as
      succeeded and later marked failed by the failure handler while still
      queued and unpinned, without being cleared from the succeeded set. */
  lemma {:induction false} SetsMayOverlap()
    ensures exists es: seq<Event> ::
      var m := Run(Fresh(), es);
      "a" in m.tracker.failedPins && "a" in m.tracker.succeededPins
  {
    var b := Snapshot(Some(["a"]), (v: string) => false);
    var es := [Submitted(Pin("a", "cidA")), Worked(true), Settled(0, true, b), QueueFailed(b)];
    var m0 := Fresh();
    var m1 := Step(m0, es[0]);
    var m2 := Step(m1, es[1]);
    var m3 := Step(m2, es[2]);
    var m4 := Step(m3, es[3]);
    assert "a" in UnpinnedQueued(b);
    assert Run(m4, es[4..]) == m4;
    assert Run(m3, es[3..]) == m4;
    assert Run(m2, es[2..]) == m4;
    assert Run(m1, es[1..]) == m4;
    assert Run(m0, es) == m4;
  }
}
