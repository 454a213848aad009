/** The layer-by-layer executor, proved against the meaning of a run. */
module PlanExecute {
  import opened Prelude
  import opened DependencyGraph
  import opened PlanTask
  import opened PlanRun

  /** What the executor threads from batch to batch. */
  datatype RunState = RunState(outcomes: Outcomes, retried: seq<bool>, retryCount: nat, log: seq<Event>)

  // ----- Requests: tasks that passed their gate, with the prompt composed for them -----

  datatype Request = Request(task: nat, prompt: string)

  ghost function Tasks(batch: seq<Request>): (ids: seq<nat>)
    ensures |ids| == |batch|
  {
    seq(|batch|, k requires 0 <= k < |batch| => batch[k].task)
  }

  function RunOf(p: Problem, r: Request, attempt: nat): Outcome {
    RunOutcome(p.oracle.run(r.task, r.prompt, attempt))
  }

  ghost predicate Edge(p: Problem, r: Request, action: FailureAction) {
    r.task < |p.plan.tasks| && p.plan.tasks[r.task].onFailure == action && RunOf(p, r, 1).status.Failed?
  }

  ghost function OutcomeOf(p: Problem, r: Request): Outcome {
    RunOf(p, r, if Edge(p, r, Retry) then 2 else 1)
  }

  ghost function AttemptEvents(p: Problem, r: Request, attempt: nat): seq<Event> {
    [Started(r.task, r.prompt, attempt), Saved(r.task, RunOf(p, r, attempt))]
  }

  ghost function RunEvents(p: Problem, r: Request): seq<Event> {
    AttemptEvents(p, r, 1) + if Edge(p, r, Retry) then AttemptEvents(p, r, 2) else []
  }

  ghost predicate Apart(p: Problem, ids: seq<nat>, i: nat) {
    i < |p.deps| && forall d | d in p.deps[i] :: d !in ids
  }

  /** Distinct tasks of the plan, none depending on another, whose dependencies all stand ok. */
  ghost predicate Startable(p: Problem, init: Outcomes, log: seq<Event>, batch: seq<Request>)
    requires p.Fits(init)
  {
    && NoDup(Tasks(batch))
    && (forall r | r in batch :: DepsStand(p, init, log, r.task) && Apart(p, Tasks(batch), r.task))
  }

  // ----- Safety of growing logs -----

  lemma SafeAppend(p: Problem, init: Outcomes, log: seq<Event>, more: seq<Event>)
    requires p.Fits(init) && RunsSafely(p, init, log)
    requires forall k | 0 <= k < |more| && more[k].Started? ::
               DepsStand(p, init, log, more[k].task) && Apart(p, EventTasks(more[..k]), more[k].task)
    ensures RunsSafely(p, init, log + more)
  {
    var all := log + more;
    forall q | 0 <= q < |all| && all[q].Started? ensures DepsStand(p, init, all[..q], all[q].task) {
      if q < |log| {
        assert all[..q] == log[..q];
      } else {
        var k := q - |log|;
        assert all[..q] == log + more[..k] && all[q] == more[k];
        forall d | d in p.deps[more[k].task] ensures StandsOk(init, all[..q], d) {
          EventsOfAppend(log, more[..k], d);
          EventsOfOthers(more[..k], d);
        }
      }
    }
  }

  ghost function EventTasks(events: seq<Event>): seq<nat> {
    seq(|events|, k requires 0 <= k < |events| => events[k].task)
  }

  lemma {:induction false} EventsOfOthers(more: seq<Event>, d: nat)
    requires d !in EventTasks(more)
    ensures EventsOf(more, d) == []
  {
    if more != [] {
      assert EventTasks(more[..|more| - 1]) == EventTasks(more)[..|more| - 1];
      assert EventTasks(more)[|more| - 1] == more[|more| - 1].task;
      EventsOfOthers(more[..|more| - 1], d);
    }
  }

  // ----- One batch -----

  ghost predicate FirstRound(p: Problem, batch: seq<Request>, results: seq<Outcome>, starts: seq<Event>,
                             saves: seq<Event>) {
    && |results| == |starts| == |saves| == |batch|
    && forall k | 0 <= k < |batch| ::
         && results[k] == RunOf(p, batch[k], 1)
         && starts[k] == Started(batch[k].task, batch[k].prompt, 1)
         && saves[k] == Saved(batch[k].task, results[k])
  }

  /** First attempts: all of a batch start before any is saved. */
  method RunFirst(p: Problem, batch: seq<Request>) returns (results: seq<Outcome>, starts: seq<Event>,
                  saves: seq<Event>)
    ensures FirstRound(p, batch, results, starts, saves)
  {
    results, starts, saves := [], [], [];
    for k := 0 to |batch|
      invariant FirstRound(p, batch[..k], results, starts, saves)
    {
      var outcome := RunOutcome(p.oracle.run(batch[k].task, batch[k].prompt, 1));
      results := results + [outcome];
      starts := starts + [Started(batch[k].task, batch[k].prompt, 1)];
      saves := saves + [Saved(batch[k].task, outcome)];
    }
    assert batch[..|batch|] == batch;
  }

  lemma FirstRoundLogged(p: Problem, batch: seq<Request>, results: seq<Outcome>, starts: seq<Event>, saves: seq<Event>,
                         log: seq<Event>)
    requires FirstRound(p, batch, results, starts, saves) && NoDup(Tasks(batch))
    ensures forall r | r in batch ::
              EventsOf(log + starts + saves, r.task) == EventsOf(log, r.task) + AttemptEvents(p, r, 1)
    ensures forall i: nat | i !in Tasks(batch) :: EventsOf(log + starts + saves, i) == EventsOf(log, i)
  {
    FirstRoundOf(p, batch, results, starts, saves);
    forall r | r in batch
      ensures EventsOf(log + starts + saves, r.task) == EventsOf(log, r.task) + AttemptEvents(p, r, 1)
    {
      EventsOfThree(log, starts, saves, r.task);
    }
    forall i: nat | i !in Tasks(batch) ensures EventsOf(log + starts + saves, i) == EventsOf(log, i) {
      EventsOfThree(log, starts, saves, i);
    }
  }

  lemma EventsOfThree(a: seq<Event>, b: seq<Event>, c: seq<Event>, i: nat)
    ensures EventsOf(a + b + c, i) == EventsOf(a, i) + (EventsOf(b, i) + EventsOf(c, i))
  {
    EventsOfAppend(a + b, c, i);
    EventsOfAppend(a, b, i);
  }

  lemma FirstRoundOf(p: Problem, batch: seq<Request>, results: seq<Outcome>, starts: seq<Event>, saves: seq<Event>)
    requires FirstRound(p, batch, results, starts, saves) && NoDup(Tasks(batch))
    ensures forall r | r in batch :: EventsOf(starts, r.task) + EventsOf(saves, r.task) == AttemptEvents(p, r, 1)
    ensures forall i: nat | i !in Tasks(batch) :: EventsOf(starts, i) == EventsOf(saves, i) == []
  {
    forall r | r in batch
      ensures EventsOf(starts, r.task) + EventsOf(saves, r.task) == AttemptEvents(p, r, 1)
    {
      var k :| 0 <= k < |batch| && batch[k] == r;
      EventsOfDistinct(starts, Tasks(batch), r.task);
      EventsOfDistinct(saves, Tasks(batch), r.task);
      assert Tasks(batch)[k] == r.task;
      assert [starts[k]] + [saves[k]] == AttemptEvents(p, r, 1);
    }
    forall i: nat | i !in Tasks(batch) ensures EventsOf(starts, i) == EventsOf(saves, i) == [] {
      EventsOfDistinct(starts, Tasks(batch), i);
      EventsOfDistinct(saves, Tasks(batch), i);
    }
  }

  lemma FirstRoundSafe(p: Problem, init: Outcomes, batch: seq<Request>, results: seq<Outcome>, starts: seq<Event>,
                       saves: seq<Event>, log: seq<Event>)
    requires p.Fits(init) && FirstRound(p, batch, results, starts, saves) && Startable(p, init, log, batch)
    requires RunsSafely(p, init, log)
    ensures RunsSafely(p, init, log + starts + saves)
  {
    forall k | 0 <= k < |starts|
      ensures DepsStand(p, init, log, starts[k].task) && Apart(p, EventTasks(starts[..k]), starts[k].task)
    {
      assert batch[k] in batch;
      assert EventTasks(starts[..k]) == Tasks(batch)[..k];
    }
    SafeAppend(p, init, log, starts);
    SafeAppend(p, init, log + starts, saves);
  }

  /** The requests of `batch` that a retry edge sends round again, in batch order. */
  ghost function RetryQueue(p: Problem, batch: seq<Request>): seq<Request> {
    if batch == [] then []
    else
      var last := batch[|batch| - 1];
      RetryQueue(p, batch[..|batch| - 1]) + if Edge(p, last, Retry) then [last] else []
  }

  lemma TasksAppend(batch: seq<Request>, r: Request)
    ensures Tasks(batch + [r]) == Tasks(batch) + [r.task]
    ensures NoDup(Tasks(batch + [r])) <==> NoDup(Tasks(batch)) && r.task !in Tasks(batch)
  {
    var a, b := Tasks(batch), Tasks(batch + [r]);
    assert b == a + [r.task];
    if NoDup(b) {
      forall i, j | 0 <= i < j < |a| ensures a[i] != a[j] {
        assert b[i] != b[j];
      }
      forall i | 0 <= i < |a| ensures a[i] != r.task {
        assert b[i] != b[|a|];
      }
    }
  }

  lemma {:induction false} RetryQueueMembers(p: Problem, batch: seq<Request>)
    ensures forall r :: r in RetryQueue(p, batch) <==> r in batch && Edge(p, r, Retry)
    ensures forall i | i in Tasks(RetryQueue(p, batch)) :: i in Tasks(batch)
    ensures NoDup(Tasks(batch)) ==> NoDup(Tasks(RetryQueue(p, batch)))
  {
    if batch != [] {
      var init, last := batch[..|batch| - 1], batch[|batch| - 1];
      RetryQueueMembers(p, init);
      assert batch == init + [last];
      TasksAppend(init, last);
      TasksAppend(RetryQueue(p, init), last);
      assert RetryQueue(p, batch) == if Edge(p, last, Retry) then RetryQueue(p, init) + [last] else RetryQueue(p, init);
    }
  }

  /** What following the edges of `batch` amounts to. */
  ghost predicate EdgesFollowed(p: Problem, batch: seq<Request>, retried: seq<bool>, queue: seq<Request>,
                                retried': seq<bool>, halt: bool)
  {
    && queue == RetryQueue(p, batch)
    && |retried'| == |retried|
    && (forall i | 0 <= i < |retried| :: retried'[i] <==> retried[i] || i in Tasks(queue))
    && (halt <==> exists r :: r in batch && Edge(p, r, Halt))
  }

  lemma FollowEdge(p: Problem, batch: seq<Request>, retried: seq<bool>, queue: seq<Request>, retried': seq<bool>,
                   halt: bool, r: Request)
    requires EdgesFollowed(p, batch, retried, queue, retried', halt) && r.task < |retried|
    ensures EdgesFollowed(p, batch + [r], retried, if Edge(p, r, Retry) then queue + [r] else queue,
              if Edge(p, r, Retry) then retried'[r.task := true] else retried', halt || Edge(p, r, Halt))
  {
    assert (batch + [r])[..|batch|] == batch;
    TasksAppend(queue, r);
    assert forall x :: x in batch + [r] <==> x in batch || x == r;
  }

  /** The failure edges of a batch: retries are queued once each, halts noted, anything else left alone. */
  method FollowEdges(p: Problem, batch: seq<Request>, results: seq<Outcome>, retried: seq<bool>)
    returns (queue: seq<Request>, retried': seq<bool>, halt: bool)
    requires |retried| == |p.plan.tasks| && |results| == |batch| && NoDup(Tasks(batch))
    requires forall k | 0 <= k < |batch| :: batch[k].task < |retried| && results[k] == RunOf(p, batch[k], 1)
    requires forall k | 0 <= k < |batch| :: !retried[batch[k].task]
    ensures EdgesFollowed(p, batch, retried, queue, retried', halt)
  {
    queue, retried', halt := [], retried, false;
    for k := 0 to |batch|
      invariant EdgesFollowed(p, batch[..k], retried, queue, retried', halt)
    {
      var r := batch[k];
      assert batch[..k + 1] == batch[..k] + [r];
      FollowEdge(p, batch[..k], retried, queue, retried', halt, r);
      FreshTask(p, batch, k);
      var action := p.plan.tasks[r.task].onFailure;
      assert forall a :: Edge(p, r, a) <==> action == a && results[k].status.Failed?;
      if results[k].status.Failed? {
        if action.Retry? && !retried'[r.task] {
          retried' := retried'[r.task := true];
          queue := queue + [r];
        } else if action.Halt? {
          halt := true;
        }
      }
    }
    assert batch[..|batch|] == batch;
  }

  lemma FreshTask(p: Problem, batch: seq<Request>, k: nat)
    requires k < |batch| && NoDup(Tasks(batch))
    ensures batch[k].task !in Tasks(RetryQueue(p, batch[..k]))
  {
    RetryQueueMembers(p, batch[..k]);
    assert Tasks(batch[..k]) == Tasks(batch)[..k];
    assert batch[k].task == Tasks(batch)[k];
  }

  /** Attempt number `attempt` of every task in `batch` is in place, and nothing else moved. */
  ghost predicate Placed(p: Problem, batch: seq<Request>, attempt: nat, outs: Outcomes, outs': Outcomes) {
    && |outs'| == |outs|
    && (forall r | r in batch :: r.task < |outs| && outs'[r.task] == Some(RunOf(p, r, attempt)))
    && (forall i | 0 <= i < |outs| && i !in Tasks(batch) :: outs'[i] == outs[i])
  }

  lemma PlaceOne(p: Problem, batch: seq<Request>, attempt: nat, outs: Outcomes, outs': Outcomes, r: Request)
    requires Placed(p, batch, attempt, outs, outs') && r.task < |outs| && r.task !in Tasks(batch)
    ensures Placed(p, batch + [r], attempt, outs, outs'[r.task := Some(RunOf(p, r, attempt))])
  {
    TasksAppend(batch, r);
    forall x | x in batch ensures x.task in Tasks(batch) {
      var k :| 0 <= k < |batch| && batch[k] == x;
      assert Tasks(batch)[k] == x.task;
    }
  }

  method PlaceResults(p: Problem, batch: seq<Request>, results: seq<Outcome>,
                      outcomes: Outcomes) returns (outcomes': Outcomes)
    requires |results| == |batch| && NoDup(Tasks(batch))
    requires forall k | 0 <= k < |batch| :: batch[k].task < |outcomes| && results[k] == RunOf(p, batch[k], 1)
    ensures Placed(p, batch, 1, outcomes, outcomes')
  {
    outcomes' := outcomes;
    for k := 0 to |batch|
      invariant Placed(p, batch[..k], 1, outcomes, outcomes')
    {
      assert batch[..k + 1] == batch[..k] + [batch[k]];
      assert Tasks(batch[..k]) == Tasks(batch)[..k] && Tasks(batch)[k] == batch[k].task;
      PlaceOne(p, batch[..k], 1, outcomes, outcomes', batch[k]);
      outcomes' := outcomes'[batch[k].task := Some(results[k])];
    }
    assert batch[..|batch|] == batch;
  }

  /** The log grew by attempt number `attempt` of every task in `batch`, and by nothing about other tasks. */
  ghost predicate AttemptsLogged(p: Problem, batch: seq<Request>, attempt: nat, log: seq<Event>, log': seq<Event>) {
    && (forall r | r in batch :: EventsOf(log', r.task) == EventsOf(log, r.task) + AttemptEvents(p, r, attempt))
    && (forall i: nat | i !in Tasks(batch) :: EventsOf(log', i) == EventsOf(log, i))
  }

  lemma LogAttempt(p: Problem, init: Outcomes, batch: seq<Request>, attempt: nat, log: seq<Event>, log': seq<Event>,
                   r: Request)
    requires p.Fits(init) && RunsSafely(p, init, log') && AttemptsLogged(p, batch, attempt, log, log')
    requires r.task !in Tasks(batch) && DepsStand(p, init, log, r.task) && Apart(p, Tasks(batch), r.task)
    ensures AttemptsLogged(p, batch + [r], attempt, log, log' + AttemptEvents(p, r, attempt))
    ensures RunsSafely(p, init, log' + AttemptEvents(p, r, attempt))
  {
    var more := AttemptEvents(p, r, attempt);
    forall k | 0 <= k < |more| && more[k].Started?
      ensures DepsStand(p, init, log', more[k].task) && Apart(p, EventTasks(more[..k]), more[k].task)
    {
      forall d | d in p.deps[r.task] ensures StandsOk(init, log', d) {
        assert StandsOk(init, log, d);
      }
    }
    SafeAppend(p, init, log', more);
    TasksAppend(batch, r);
    forall i: nat ensures EventsOf(log' + more, i) == EventsOf(log', i) + if i == r.task then more else [] {
      EventsOfAppend(log', more, i);
      AttemptEventsOf(p, r, attempt, i);
    }
    TasksMembers(batch);
  }

  lemma AttemptEventsOf(p: Problem, r: Request, attempt: nat, i: nat)
    ensures EventsOf(AttemptEvents(p, r, attempt), i) == if i == r.task then AttemptEvents(p, r, attempt) else []
  {
    var more := AttemptEvents(p, r, attempt);
    assert more == [more[0]] + [more[1]];
    EventsOfAppend([more[0]], [more[1]], i);
  }

  /** The queued tasks run once more, one after the other; each new outcome replaces the failed one. */
  method RunRetries(p: Problem, queue: seq<Request>, outcomes: Outcomes, log: seq<Event>, ghost init: Outcomes)
    returns (outcomes': Outcomes, log': seq<Event>)
    requires p.Fits(init) && |outcomes| == |init| && RunsSafely(p, init, log) && Startable(p, init, log, queue)
    ensures Placed(p, queue, 2, outcomes, outcomes')
    ensures AttemptsLogged(p, queue, 2, log, log') && RunsSafely(p, init, log')
  {
    outcomes', log' := outcomes, log;
    for k := 0 to |queue|
      invariant Placed(p, queue[..k], 2, outcomes, outcomes')
      invariant AttemptsLogged(p, queue[..k], 2, log, log') && RunsSafely(p, init, log')
    {
      var r := queue[k];
      assert queue[..k + 1] == queue[..k] + [r];
      assert Tasks(queue[..k]) == Tasks(queue)[..k] && Tasks(queue)[k] == r.task;
      assert r in queue;
      PlaceOne(p, queue[..k], 2, outcomes, outcomes', r);
      LogAttempt(p, init, queue[..k], 2, log, log', r);
      var outcome := RunOutcome(p.oracle.run(r.task, r.prompt, 2));
      log' := log' + [Started(r.task, r.prompt, 2), Saved(r.task, outcome)];
      outcomes' := outcomes'[r.task := Some(outcome)];
    }
    assert queue[..|queue|] == queue;
  }

  /** What running a batch amounts to, retries included. */
  ghost predicate BatchDone(p: Problem, init: Outcomes, batch: seq<Request>, st: RunState, st': RunState)
    requires p.Fits(init)
  {
    && |st'.outcomes| == |st.outcomes| && |st'.retried| == |st.retried|
    && (forall r | r in batch :: r.task < |st.outcomes| && st'.outcomes[r.task] == Some(OutcomeOf(p, r)))
    && (forall i | 0 <= i < |st.outcomes| && i !in Tasks(batch) :: st'.outcomes[i] == st.outcomes[i])
    && (forall r | r in batch :: EventsOf(st'.log, r.task) == EventsOf(st.log, r.task) + RunEvents(p, r))
    && (forall i: nat | i !in Tasks(batch) :: EventsOf(st'.log, i) == EventsOf(st.log, i))
    && (forall i | 0 <= i < |st.retried| :: st'.retried[i] <==> st.retried[i] || i in Tasks(RetryQueue(p, batch)))
    && st'.retryCount == st.retryCount + |RetryQueue(p, batch)|
    && RunsSafely(p, init, st'.log)
  }

  method RunBatch(p: Problem, batch: seq<Request>, st: RunState, ghost init: Outcomes) returns (st': RunState,
                  halt: bool)
    requires p.Fits(init) && |st.outcomes| == |st.retried| == |init|
    requires Startable(p, init, st.log, batch) && RunsSafely(p, init, st.log)
    requires forall r | r in batch :: r.task < |init| && !st.retried[r.task]
    ensures BatchDone(p, init, batch, st, st')
    ensures halt <==> exists r :: r in batch && Edge(p, r, Halt)
  {
    hide RunsSafely, Placed, EventsOf, RetryQueue, Edge, RunOf, AttemptEvents, RunEvents, OutcomeOf, DepsStand, Apart;
    forall k | 0 <= k < |batch| ensures batch[k].task < |init| && !st.retried[batch[k].task] {
      assert batch[k] in batch;
    }
    var results, starts, saves := RunFirst(p, batch);
    FirstRoundSafe(p, init, batch, results, starts, saves, st.log);
    FirstRoundLogged(p, batch, results, starts, saves, st.log);
    var log := st.log + starts + saves;
    var queue, retried, halted := FollowEdges(p, batch, results, st.retried);
    var outcomes := PlaceResults(p, batch, results, st.outcomes);
    QueueStartable(p, init, batch, st.log, log);
    var outcomes', log' := RunRetries(p, queue, outcomes, log, init);
    BatchIsDone(p, batch, st.outcomes, outcomes, outcomes', st.log, log, log');
    st', halt := RunState(outcomes', retried, st.retryCount + |queue|, log'), halted;
  }

  lemma QueueStartable(p: Problem, init: Outcomes, batch: seq<Request>, log: seq<Event>, log1: seq<Event>)
    requires p.Fits(init) && Startable(p, init, log, batch) && AttemptsLogged(p, batch, 1, log, log1)
    ensures Startable(p, init, log1, RetryQueue(p, batch))
  {
    RetryQueueMembers(p, batch);
    forall r | r in RetryQueue(p, batch)
      ensures DepsStand(p, init, log1, r.task) && Apart(p, Tasks(RetryQueue(p, batch)), r.task)
    {
      assert r in batch;
      forall d | d in p.deps[r.task] ensures StandsOk(init, log1, d) {
        assert d !in Tasks(batch) && StandsOk(init, log, d);
      }
    }
  }

  lemma TasksMembers(batch: seq<Request>)
    ensures forall r | r in batch :: r.task in Tasks(batch)
    ensures forall i | i in Tasks(batch) :: exists r :: r in batch && r.task == i
  {
    forall r | r in batch ensures r.task in Tasks(batch) {
      var k :| 0 <= k < |batch| && batch[k] == r;
      assert Tasks(batch)[k] == r.task;
    }
    forall i | i in Tasks(batch) ensures exists r :: r in batch && r.task == i {
      var k :| 0 <= k < |batch| && Tasks(batch)[k] == i;
      assert batch[k] in batch;
    }
  }

  lemma QueuedIffRetry(p: Problem, batch: seq<Request>, r: Request)
    requires NoDup(Tasks(batch)) && r in batch
    ensures r.task in Tasks(RetryQueue(p, batch)) <==> Edge(p, r, Retry)
  {
    RetryQueueMembers(p, batch);
    TasksMembers(RetryQueue(p, batch));
    if r.task in Tasks(RetryQueue(p, batch)) {
      var x :| x in RetryQueue(p, batch) && x.task == r.task;
      OneRequestPerTask(batch, x, r);
    }
  }

  lemma BatchIsDone(p: Problem, batch: seq<Request>, outs: Outcomes, outs1: Outcomes, outs2: Outcomes,
                    log: seq<Event>, log1: seq<Event>, log2: seq<Event>)
    requires NoDup(Tasks(batch))
    requires Placed(p, batch, 1, outs, outs1) && Placed(p, RetryQueue(p, batch), 2, outs1, outs2)
    requires AttemptsLogged(p, batch, 1, log, log1) && AttemptsLogged(p, RetryQueue(p, batch), 2, log1, log2)
    ensures forall r | r in batch :: r.task < |outs| && outs2[r.task] == Some(OutcomeOf(p, r))
    ensures forall i | 0 <= i < |outs| && i !in Tasks(batch) :: outs2[i] == outs[i]
    ensures forall r | r in batch :: EventsOf(log2, r.task) == EventsOf(log, r.task) + RunEvents(p, r)
    ensures forall i: nat | i !in Tasks(batch) :: EventsOf(log2, i) == EventsOf(log, i)
  {
    hide RetryQueue, Edge, RunOf, AttemptEvents, OutcomeOf, RunEvents, Tasks, EventsOf;
    RetryQueueMembers(p, batch);
    forall r | r in batch
      ensures outs2[r.task] == Some(OutcomeOf(p, r))
      ensures EventsOf(log2, r.task) == EventsOf(log, r.task) + RunEvents(p, r)
    {
      RequestIsDone(p, batch, outs, outs1, outs2, log, log1, log2, r);
    }
  }

  lemma RequestIsDone(p: Problem, batch: seq<Request>, outs: Outcomes, outs1: Outcomes, outs2: Outcomes,
                      log: seq<Event>, log1: seq<Event>, log2: seq<Event>, r: Request)
    requires NoDup(Tasks(batch)) && r in batch
    requires Placed(p, batch, 1, outs, outs1) && Placed(p, RetryQueue(p, batch), 2, outs1, outs2)
    requires AttemptsLogged(p, batch, 1, log, log1) && AttemptsLogged(p, RetryQueue(p, batch), 2, log1, log2)
    ensures r.task < |outs| && outs2[r.task] == Some(OutcomeOf(p, r))
    ensures EventsOf(log2, r.task) == EventsOf(log, r.task) + RunEvents(p, r)
  {
    hide RetryQueue, Edge, RunOf, AttemptEvents, Tasks, EventsOf;
    RetryQueueMembers(p, batch);
    QueuedIffRetry(p, batch, r);
    if Edge(p, r, Retry) {
      assert r in RetryQueue(p, batch);
    }
  }

  lemma OneRequestPerTask(batch: seq<Request>, a: Request, b: Request)
    requires NoDup(Tasks(batch)) && a in batch && b in batch && a.task == b.task
    ensures a == b
  {
    var i, j :| 0 <= i < |batch| && 0 <= j < |batch| && batch[i] == a && batch[j] == b;
    assert Tasks(batch)[i] == Tasks(batch)[j];
  }

  // ----- One layer -----

  /** `r` is the request that task `r.task` makes of the outcomes `before` its layer. */
  ghost predicate Due(p: Problem, before: Outcomes, r: Request)
    requires p.Fits(before)
  {
    r.task < |before| && before[r.task].None? && Runs(p, before, r.task) && r.prompt == Prompt(p, before, r.task)
  }

  lemma DueMeans(p: Problem, before: Outcomes, r: Request)
    requires p.Fits(before) && Due(p, before, r)
    ensures OutcomeOf(p, r) == TaskResult(p, before, r.task)
    ensures RunEvents(p, r) == History(p, before, r.task)
    ensures Edge(p, r, Retry) <==> RunsTwice(p, before, r.task)
    ensures Edge(p, r, Halt) <==> p.plan.tasks[r.task].onFailure.Halt? && TaskResult(p, before, r.task).status.Failed?
  {
    assert RunOf(p, r, 1) == Attempt(p, before, r.task, 1) && RunOf(p, r, 2) == Attempt(p, before, r.task, 2);
  }

  ghost function Trues(flags: seq<bool>): set<nat> {
    set i: nat | i < |flags| && flags[i]
  }

  ghost predicate Logged(p: Problem, before: Outcomes, done: set<nat>, log0: seq<Event>, log: seq<Event>)
    requires p.Fits(before)
  {
    && (forall i | 0 <= i < |before| ::
         EventsOf(log, i) == EventsOf(log0, i) + if i in done && before[i].None? then History(p, before, i) else [])
    && (forall i: nat | i >= |before| :: EventsOf(log, i) == EventsOf(log0, i))
  }

  ghost predicate Flagged(p: Problem, before: Outcomes, done: set<nat>, retried0: seq<bool>, retried: seq<bool>)
    requires p.Fits(before)
  {
    && |retried| == |retried0| == |before|
    && forall i | 0 <= i < |before| ::
         retried[i] <==> retried0[i] || (i in done && before[i].None? && RunsTwice(p, before, i))
  }

  /** The unsettled tasks of `done`, all in one layer, have been settled against `before`; nothing else happened. */
  ghost predicate Through(p: Problem, init: Outcomes, before: Outcomes, st0: RunState, done: set<nat>, st: RunState,
                          halt: bool)
    requires p.Fits(init) && p.Fits(before)
  {
    && Settled(p, before, done, st.outcomes)
    && Logged(p, before, done, st0.log, st.log) && RunsSafely(p, init, st.log)
    && Flagged(p, before, done, st0.retried, st.retried) && st.retryCount == |Trues(st.retried)|
    && (halt <==> HaltHit(p, before, done))
  }

  lemma RetryCountGrows(p: Problem, batch: seq<Request>, retried: seq<bool>, retried': seq<bool>)
    requires NoDup(Tasks(batch)) && |retried'| == |retried|
    requires forall r | r in batch :: r.task < |retried| && !retried[r.task]
    requires forall i | 0 <= i < |retried| :: retried'[i] <==> retried[i] || i in Tasks(RetryQueue(p, batch))
    ensures |Trues(retried')| == |Trues(retried)| + |RetryQueue(p, batch)|
  {
    var ids := Tasks(RetryQueue(p, batch));
    RetryQueueMembers(p, batch);
    TasksMembers(batch);
    NoDupSize(ids);
    assert Trues(retried') == Trues(retried) + Elems(ids) && Trues(retried) !! Elems(ids);
  }

  lemma HaltHitUnion(p: Problem, before: Outcomes, a: set<nat>, b: set<nat>)
    requires p.Fits(before)
    ensures HaltHit(p, before, a + b) <==> HaltHit(p, before, a) || HaltHit(p, before, b)
  {
  }

  lemma BatchHalts(p: Problem, before: Outcomes, batch: seq<Request>)
    requires p.Fits(before) && forall r | r in batch :: Due(p, before, r)
    ensures HaltHit(p, before, Elems(Tasks(batch))) <==> exists r :: r in batch && Edge(p, r, Halt)
  {
    TasksMembers(batch);
    forall r | r in batch ensures Edge(p, r, Halt) <==>
      p.plan.tasks[r.task].onFailure.Halt? && TaskResult(p, before, r.task).status.Failed?
    {
      DueMeans(p, before, r);
    }
  }

  /** The batch does for its tasks what settling them against `before` means. */
  lemma BatchMeans(p: Problem, before: Outcomes, batch: seq<Request>)
    requires p.Fits(before) && NoDup(Tasks(batch)) && forall r | r in batch :: Due(p, before, r)
    ensures forall r | r in batch :: r.task < |before|
              && OutcomeOf(p, r) == TaskResult(p, before, r.task) && RunEvents(p, r) == History(p, before, r.task)
              && (r.task in Tasks(RetryQueue(p, batch)) <==> RunsTwice(p, before, r.task))
    ensures forall i | i in Tasks(RetryQueue(p, batch)) :: i in Tasks(batch)
  {
    forall r | r in batch
      ensures OutcomeOf(p, r) == TaskResult(p, before, r.task) && RunEvents(p, r) == History(p, before, r.task)
      ensures r.task in Tasks(RetryQueue(p, batch)) <==> RunsTwice(p, before, r.task)
    {
      DueMeans(p, before, r);
      QueuedIffRetry(p, batch, r);
    }
    RetryQueueMembers(p, batch);
  }

  lemma BatchSettled(p: Problem, init: Outcomes, before: Outcomes, done: set<nat>, batch: seq<Request>, st: RunState,
                     st': RunState)
    requires p.Fits(init) && p.Fits(before) && NoDup(Tasks(batch)) && BatchDone(p, init, batch, st, st')
    requires forall r | r in batch :: Due(p, before, r) && r.task !in done
    requires Settled(p, before, done, st.outcomes)
    ensures Settled(p, before, done + Elems(Tasks(batch)), st'.outcomes)
  {
    TasksMembers(batch);
    BatchMeans(p, before, batch);
    forall i | 0 <= i < |before|
      ensures st'.outcomes[i] ==
        if i in done + Elems(Tasks(batch)) && before[i].None? then Some(TaskResult(p, before, i)) else before[i]
    {
      if i in Tasks(batch) {
        var r :| r in batch && r.task == i;
      }
    }
  }

  lemma BatchLogged(p: Problem, init: Outcomes, before: Outcomes, done: set<nat>, batch: seq<Request>, log0: seq<Event>,
                    st: RunState, st': RunState)
    requires p.Fits(init) && p.Fits(before) && NoDup(Tasks(batch)) && BatchDone(p, init, batch, st, st')
    requires forall r | r in batch :: Due(p, before, r) && r.task !in done
    requires Logged(p, before, done, log0, st.log)
    ensures Logged(p, before, done + Elems(Tasks(batch)), log0, st'.log)
  {
    hide History, RunEvents, OutcomeOf, RetryQueue, RunsSafely, EventsOf, Runs, Prompt;
    TasksMembers(batch);
    BatchMeans(p, before, batch);
    forall i | 0 <= i < |before|
      ensures EventsOf(st'.log, i) == EventsOf(log0, i) +
        (if i in done + Elems(Tasks(batch)) && before[i].None? then History(p, before, i) else [])
    {
      if i in Tasks(batch) {
        var r :| r in batch && r.task == i;
        assert EventsOf(st.log, i) == EventsOf(log0, i);
      } else {
        assert EventsOf(st'.log, i) == EventsOf(st.log, i);
      }
    }
  }

  lemma BatchFlagged(p: Problem, init: Outcomes, before: Outcomes, done: set<nat>, batch: seq<Request>,
                     retried0: seq<bool>, st: RunState, st': RunState)
    requires p.Fits(init) && p.Fits(before) && NoDup(Tasks(batch)) && BatchDone(p, init, batch, st, st')
    requires forall r | r in batch :: Due(p, before, r) && r.task !in done
    requires Flagged(p, before, done, retried0, st.retried)
    ensures Flagged(p, before, done + Elems(Tasks(batch)), retried0, st'.retried)
  {
    TasksMembers(batch);
    BatchMeans(p, before, batch);
    forall i | 0 <= i < |before|
      ensures st'.retried[i] <==>
              retried0[i] || (i in done + Elems(Tasks(batch)) && before[i].None? && RunsTwice(p, before, i))
    {
      if i in Tasks(batch) {
        var r :| r in batch && r.task == i;
      }
    }
  }

  lemma BatchThrough(p: Problem, init: Outcomes, before: Outcomes, st0: RunState, done: set<nat>, st: RunState,
                     halt: bool,
                     batch: seq<Request>, st': RunState, halt': bool)
    requires p.Fits(init) && p.Fits(before) && Through(p, init, before, st0, done, st, halt)
    requires NoDup(Tasks(batch)) && BatchDone(p, init, batch, st, st')
    requires forall r | r in batch :: Due(p, before, r) && r.task !in done && !st.retried[r.task]
    requires halt' <==> exists r :: r in batch && Edge(p, r, Halt)
    ensures Through(p, init, before, st0, done + Elems(Tasks(batch)), st', halt || halt')
  {
    BatchSettled(p, init, before, done, batch, st, st');
    BatchLogged(p, init, before, done, batch, st0.log, st, st');
    BatchFlagged(p, init, before, done, batch, st0.retried, st, st');
    RetryCountGrows(p, batch, st.retried, st'.retried);
    HaltHitUnion(p, before, done, Elems(Tasks(batch)));
    BatchHalts(p, before, batch);
  }

  // ----- Screening a layer -----

  /** Reads the outcomes of a task's dependencies: whether one is missing, and what the others said. */
  method ReadUpstream(p: Problem, outcomes: Outcomes, i: nat) returns (blocked: bool, upstream: seq<(string, string)>)
    requires p.Resolved() && p.Fits(outcomes) && i < |outcomes|
    ensures blocked <==> !Unblocked(p, outcomes, i)
    ensures !blocked ==> upstream == Upstream(p, outcomes, i)
  {
    var task := p.plan.tasks[i];
    ghost var row := p.deps[i];
    forall m | 0 <= m < |row| ensures row[m] < |outcomes| {
      assert row[m] in row;
    }
    blocked, upstream := false, [];
    for k := 0 to |task.dependsOn|
      invariant !blocked <==> forall m | 0 <= m < k :: IsOk(outcomes[row[m]])
      invariant !blocked ==> |upstream| == k && forall m | 0 <= m < k ::
          upstream[m] == (p.plan.tasks[row[m]].id, UpstreamSnippet(p, outcomes[row[m]].value.value))
    {
      var j := IndexOf(p.plan.tasks, task.dependsOn[k]);
      assert row[k] == j && row[k] in row;
      if IsOk(outcomes[j]) {
        upstream := upstream + [(task.dependsOn[k], UpstreamSnippet(p, outcomes[j].value.value))];
      } else {
        blocked := true;
      }
    }
  }

  /** Decides what becomes of an unsettled task: a request to run it, or the outcome that settles it now. */
  method ScreenTask(p: Problem, outcomes: Outcomes, i: nat, ghost before: Outcomes) returns (r: Result<Request,
                    Outcome>)
    requires p.Resolved() && p.Fits(before) && p.Fits(outcomes) && i < |before| && before[i].None?
    requires forall d | d in p.deps[i] :: outcomes[d] == before[d]
    ensures r.Success? ==> r.value.task == i && Due(p, before, r.value)
    ensures r.Failure? ==> !Runs(p, before, i) && r.error == TaskResult(p, before, i)
  {
    SameView(p, before, outcomes, i);
    var blocked, upstream := ReadUpstream(p, outcomes, i);
    if blocked {
      return Failure(ErrorOutcome(Skipped, p.words.blocked));
    }
    var prompt := ComposeTaskPrompt(p.words, p.plan.tasks[i].prompt, upstream);
    var error := p.oracle.validate(i, prompt);
    if error.Some? {
      return Failure(ErrorOutcome(Failed, error.value));
    }
    r := Success(Request(i, prompt));
  }

  lemma RejectedHistory(p: Problem, before: Outcomes, i: nat)
    requires p.Fits(before) && i < |before| && !Runs(p, before, i)
    ensures History(p, before, i) == [Saved(i, TaskResult(p, before, i))]
  {
  }

  lemma OneEvent(e: Event, j: nat)
    ensures EventsOf([e], j) == if e.task == j then [e] else []
  {
    assert [e][..0] == [];
  }

  lemma RejectLogged(p: Problem, before: Outcomes, done: set<nat>, log0: seq<Event>, log: seq<Event>, i: nat)
    requires p.Fits(before) && Logged(p, before, done, log0, log)
    requires i < |before| && before[i].None? && i !in done && !Runs(p, before, i)
    ensures Logged(p, before, done + {i}, log0, log + [Saved(i, TaskResult(p, before, i))])
  {
    hide History, TaskResult, EventsOf, Runs;
    var more := [Saved(i, TaskResult(p, before, i))];
    RejectedHistory(p, before, i);
    forall j: nat ensures EventsOf(log + more, j) == if j == i then EventsOf(log, j) + more else EventsOf(log, j) {
      EventsOfAppend(log, more, j);
      OneEvent(more[0], j);
    }
    assert EventsOf(log, i) == EventsOf(log0, i);
  }

  lemma RejectHalts(p: Problem, before: Outcomes, done: set<nat>, i: nat)
    requires p.Fits(before) && i < |before| && before[i].None?
    ensures HaltHit(p, before, done + {i}) <==>
            HaltHit(p, before, done) || (p.plan.tasks[i].onFailure.Halt? && TaskResult(p, before, i).status.Failed?)
  {
    HaltHitUnion(p, before, done, {i});
    if p.plan.tasks[i].onFailure.Halt? && TaskResult(p, before, i).status.Failed? {
      assert i in {i};
    }
  }

  lemma RejectThrough(p: Problem, init: Outcomes, before: Outcomes, st0: RunState, done: set<nat>, st: RunState,
                      halt: bool,
                      i: nat, st': RunState, halt': bool)
    requires p.Fits(init) && p.Fits(before) && Through(p, init, before, st0, done, st, halt)
    requires i < |before| && before[i].None? && i !in done && !Runs(p, before, i)
    requires st'.outcomes == st.outcomes[i := Some(TaskResult(p, before, i))]
    requires st'.log == st.log + [Saved(i, TaskResult(p, before, i))]
    requires st'.retried == st.retried && st'.retryCount == st.retryCount
    requires halt' <==> halt || (p.plan.tasks[i].onFailure.Halt? && TaskResult(p, before, i).status.Failed?)
    ensures Through(p, init, before, st0, done + {i}, st', halt')
  {
    SafeAppend(p, init, st.log, [Saved(i, TaskResult(p, before, i))]);
    RejectLogged(p, before, done, st0.log, st.log, i);
    RejectHalts(p, before, done, i);
    assert Settled(p, before, done + {i}, st'.outcomes);
    assert Flagged(p, before, done + {i}, st0.retried, st'.retried);
  }

  ghost predicate LayerReady(p: Problem, init: Outcomes, layer: seq<nat>, st: RunState)
    requires p.Fits(init)
  {
    && p.Fits(st.outcomes) && |st.retried| == |init| && st.retryCount == |Trues(st.retried)|
    && NoDup(layer) && (forall i | i in layer :: Apart(p, layer, i))
    && RunsSafely(p, init, st.log)
    && (forall d | 0 <= d < |init| && IsOk(st.outcomes[d]) :: StandsOk(init, st.log, d))
    && (forall i | 0 <= i < |init| && st.outcomes[i].None? :: !st.retried[i])
  }

  /** The unsettled tasks among `ids` that are turned away, and those that are due to run. */
  ghost predicate Sorted(p: Problem, before: Outcomes, ids: seq<nat>, away: set<nat>, runnable: seq<Request>)
    requires p.Fits(before)
  {
    && (forall i | i in away :: i in ids && i < |before| && before[i].None? && !Runs(p, before, i))
    && (forall r | r in runnable :: r.task in ids && Due(p, before, r))
    && NoDup(Tasks(runnable))
    && (forall i | i in ids && i < |before| && before[i].None? :: i in away || i in Tasks(runnable))
  }

  /** How far screening has come: `ids` have been looked at. */
  ghost predicate ScreenedTo(p: Problem, init: Outcomes, ids: seq<nat>, st0: RunState, away: set<nat>, st: RunState,
                             runnable: seq<Request>, halt: bool)
    requires p.Fits(init) && p.Fits(st0.outcomes)
  {
    Through(p, init, st0.outcomes, st0, away, st, halt) && Sorted(p, st0.outcomes, ids, away, runnable)
  }

  lemma SortedAway(p: Problem, before: Outcomes, ids: seq<nat>, away: set<nat>, runnable: seq<Request>, i: nat)
    requires p.Fits(before) && Sorted(p, before, ids, away, runnable)
    requires i < |before| && before[i].None? && !Runs(p, before, i)
    ensures Sorted(p, before, ids + [i], away + {i}, runnable)
  {
  }

  lemma SortedSettled(p: Problem, before: Outcomes, ids: seq<nat>, away: set<nat>, runnable: seq<Request>, i: nat)
    requires p.Fits(before) && Sorted(p, before, ids, away, runnable)
    requires i < |before| && before[i].Some?
    ensures Sorted(p, before, ids + [i], away, runnable)
  {
  }

  lemma SortedDue(p: Problem, before: Outcomes, ids: seq<nat>, away: set<nat>, runnable: seq<Request>, r: Request)
    requires p.Fits(before) && Sorted(p, before, ids, away, runnable) && Due(p, before, r) && r.task !in ids
    ensures Sorted(p, before, ids + [r.task], away, runnable + [r])
  {
    TasksMembers(runnable);
    TasksAppend(runnable, r);
  }

  /** Looks at one task of the layer: settled ones are left alone, the others are turned away or queued. */
  method ScreenOne(p: Problem, i: nat, st: RunState, runnable: seq<Request>, halt: bool, ghost init: Outcomes,
                   ghost layer: seq<nat>, ghost ids: seq<nat>, ghost st0: RunState, ghost away: set<nat>)
    returns (st': RunState, runnable': seq<Request>, halt': bool, ghost away': set<nat>)
    requires p.Resolved() && p.Fits(init) && LayerReady(p, init, layer, st0)
    requires ScreenedTo(p, init, ids, st0, away, st, runnable, halt)
    requires i in layer && i !in ids && Elems(ids) <= Elems(layer)
    ensures ScreenedTo(p, init, ids + [i], st0, away', st', runnable', halt')
  {
    ghost var before := st0.outcomes;
    st', runnable', halt', away' := st, runnable, halt, away;
    assert Apart(p, layer, i) && i !in away;
    if st.outcomes[i].Some? {
      SortedSettled(p, before, ids, away, runnable, i);
      return;
    }
    forall d | d in p.deps[i] ensures st.outcomes[d] == before[d] {
      assert d !in layer && d !in Elems(ids);
    }
    var r := ScreenTask(p, st.outcomes, i, before);
    if r.Failure? {
      SortedAway(p, before, ids, away, runnable, i);
      st' := st.(outcomes := st.outcomes[i := Some(r.error)], log := st.log + [Saved(i, r.error)]);
      if r.error.status.Failed? && p.plan.tasks[i].onFailure.Halt? {
        halt' := true;
      }
      RejectThrough(p, init, before, st0, away, st, halt, i, st', halt');
      away' := away + {i};
    } else {
      SortedDue(p, before, ids, away, runnable, r.value);
      runnable' := runnable + [r.value];
    }
  }

  lemma ScreenedToNothing(p: Problem, init: Outcomes, layer: seq<nat>, st: RunState)
    requires p.Fits(init) && LayerReady(p, init, layer, st)
    ensures ScreenedTo(p, init, [], st, {}, st, [], false)
  {
  }

  method ScreenLayer(p: Problem, layer: seq<nat>, st: RunState, ghost init: Outcomes)
    returns (st': RunState, runnable: seq<Request>, halt: bool, ghost away: set<nat>)
    requires p.Resolved() && p.Fits(init) && LayerReady(p, init, layer, st)
    ensures ScreenedTo(p, init, layer, st, away, st', runnable, halt)
  {
    st', runnable, halt, away := st, [], false, {};
    ScreenedToNothing(p, init, layer, st);
    for m := 0 to |layer|
      invariant ScreenedTo(p, init, layer[..m], st, away, st', runnable, halt)
    {
      assert layer[..m + 1] == layer[..m] + [layer[m]];
      assert layer[m] !in layer[..m] && Elems(layer[..m]) <= Elems(layer);
      st', runnable, halt, away := ScreenOne(p, layer[m], st', runnable, halt, init, layer, layer[..m], st, away);
    }
    assert layer[..|layer|] == layer;
  }

  // ----- A whole layer, and a whole run -----

  lemma BatchStartable(p: Problem, init: Outcomes, layer: seq<nat>, st0: RunState, done: set<nat>, st: RunState,
                       halt: bool,
                       batch: seq<Request>)
    requires p.Fits(init) && LayerReady(p, init, layer, st0) && Through(p, init, st0.outcomes, st0, done, st, halt)
    requires done <= Elems(layer) && NoDup(Tasks(batch))
    requires forall r | r in batch :: r.task in layer && r.task !in done && Due(p, st0.outcomes, r)
    ensures Startable(p, init, st.log, batch)
    ensures forall r | r in batch :: !st.retried[r.task]
  {
    TasksMembers(batch);
    forall r | r in batch ensures DepsStand(p, init, st.log, r.task) && Apart(p, Tasks(batch), r.task) {
      forall d | d in p.deps[r.task] ensures StandsOk(init, st.log, d) && d !in Tasks(batch) {
        assert d !in layer && IsOk(st0.outcomes[d]);
        assert EventsOf(st.log, d) == EventsOf(st0.log, d);
      }
    }
  }

  lemma SliceTasks(runnable: seq<Request>, lo: nat, hi: nat)
    requires lo <= hi <= |runnable| && NoDup(Tasks(runnable))
    ensures NoDup(Tasks(runnable[lo..hi]))
    ensures Tasks(runnable[..hi]) == Tasks(runnable[..lo]) + Tasks(runnable[lo..hi])
    ensures forall i | i in Tasks(runnable[lo..hi]) :: i !in Tasks(runnable[..lo])
  {
    assert Tasks(runnable[lo..hi]) == Tasks(runnable)[lo..hi];
    assert Tasks(runnable[..lo]) == Tasks(runnable)[..lo];
  }

  lemma NextBatch(p: Problem, before: Outcomes, layer: seq<nat>, away: set<nat>, runnable: seq<Request>, lo: nat,
                  hi: nat)
    requires p.Fits(before) && Sorted(p, before, layer, away, runnable) && lo <= hi <= |runnable|
    ensures var done := away + Elems(Tasks(runnable[..lo]));
            && done <= Elems(layer)
            && NoDup(Tasks(runnable[lo..hi]))
            && (forall r | r in runnable[lo..hi] :: r.task in layer && r.task !in done && Due(p, before, r))
            && done + Elems(Tasks(runnable[lo..hi])) == away + Elems(Tasks(runnable[..hi]))
  {
    SliceTasks(runnable, lo, hi);
    TasksMembers(runnable[lo..hi]);
    TasksMembers(runnable[..lo]);
    assert forall r | r in runnable[lo..hi] :: r in runnable;
    assert forall r | r in runnable[..lo] :: r in runnable;
  }

  /** Runs one slice of the queue; `done` grows by its tasks. */
  method RunChunk(p: Problem, runnable: seq<Request>, lo: nat, hi: nat, st: RunState, halt: bool, ghost layer: seq<nat>,
                  ghost away: set<nat>, ghost done: set<nat>, ghost st0: RunState, ghost init: Outcomes)
    returns (st': RunState, halt': bool, ghost done': set<nat>)
    requires p.Fits(init) && LayerReady(p, init, layer, st0) && Sorted(p, st0.outcomes, layer, away, runnable)
    requires lo <= hi <= |runnable| && done == away + Elems(Tasks(runnable[..lo]))
    requires Through(p, init, st0.outcomes, st0, done, st, halt)
    ensures done' == away + Elems(Tasks(runnable[..hi]))
    ensures Through(p, init, st0.outcomes, st0, done', st', halt')
  {
    ghost var before := st0.outcomes;
    var batch := runnable[lo..hi];
    NextBatch(p, before, layer, away, runnable, lo, hi);
    BatchStartable(p, init, layer, st0, done, st, halt, batch);
    var hit;
    st', hit := RunBatch(p, batch, st, init);
    BatchThrough(p, init, before, st0, done, st, halt, batch, st', hit);
    halt' := halt || hit;
    done' := done + Elems(Tasks(batch));
  }

  /** Runs the queue in slices of at most `width` tasks. */
  method RunChunks(p: Problem, runnable: seq<Request>, width: nat, st: RunState, halt: bool, ghost layer: seq<nat>,
                   ghost away: set<nat>, ghost st0: RunState, ghost init: Outcomes)
    returns (st': RunState, halt': bool)
    requires p.Fits(init) && LayerReady(p, init, layer, st0) && Sorted(p, st0.outcomes, layer, away, runnable)
    requires Through(p, init, st0.outcomes, st0, away, st, halt) && width > 0
    ensures Through(p, init, st0.outcomes, st0, away + Elems(Tasks(runnable)), st', halt')
  {
    hide Settled, Logged, Flagged, RunsSafely, HaltHit, Sorted, Apart, StandsOk;
    st', halt' := st, halt;
    ghost var done := away;
    assert done == away + Elems(Tasks(runnable[..0]));
    var lo := 0;
    while lo < |runnable|
      invariant lo <= |runnable| && done == away + Elems(Tasks(runnable[..lo]))
      invariant Through(p, init, st0.outcomes, st0, done, st', halt')
    {
      var hi := if lo + width <= |runnable| then lo + width else |runnable|;
      st', halt', done := RunChunk(p, runnable, lo, hi, st', halt', layer, away, done, st0, init);
      lo := hi;
    }
    assert runnable[..|runnable|] == runnable;
  }

  /** Runs what is due in a layer, at most `maxConcurrent` tasks at a time. */
  method RunLayer(p: Problem, layer: seq<nat>, st: RunState, maxConcurrent: nat, ghost init: Outcomes)
    returns (st': RunState, halt: bool)
    requires p.Resolved() && p.Fits(init) && LayerReady(p, init, layer, st)
    ensures Through(p, init, st.outcomes, st, Elems(layer), st', halt)
  {
    ghost var away: set<nat>;
    var runnable;
    st', runnable, halt, away := ScreenLayer(p, layer, st, init);
    var width := if maxConcurrent == 0 then 1 else maxConcurrent;
    st', halt := RunChunks(p, runnable, width, st', halt, layer, away, st, init);
    LayerComplete(p, init, st.outcomes, layer, away, runnable, st, st', halt);
  }

  lemma LayerComplete(p: Problem, init: Outcomes, before: Outcomes, layer: seq<nat>, away: set<nat>,
                      runnable: seq<Request>,
                      st: RunState, st': RunState, halt: bool)
    requires p.Fits(init) && p.Fits(before) && Sorted(p, before, layer, away, runnable)
    requires Through(p, init, before, st, away + Elems(Tasks(runnable)), st', halt)
    ensures Through(p, init, before, st, Elems(layer), st', halt)
  {
    var done := away + Elems(Tasks(runnable));
    TasksMembers(runnable);
    forall i | 0 <= i < |before| && before[i].None? ensures i in done <==> i in Elems(layer) {
    }
    assert HaltHit(p, before, done) <==> HaltHit(p, before, Elems(layer));
  }

  /** After `k` layers the executor holds what the run's meaning says, and has recorded it. */
  ghost predicate InStep(p: Problem, layers: seq<seq<nat>>, init: Outcomes, k: nat, st: RunState, halted: bool)
    requires p.Fits(init) && k <= |layers|
  {
    && After(p, layers, init, k) == Progress(st.outcomes, halted)
    && (forall i | 0 <= i < |init| :: EventsOf(st.log, i) == Record(p, layers, init, k, i))
    && (forall i: nat | i >= |init| :: EventsOf(st.log, i) == [])
    && RunsSafely(p, init, st.log)
    && |st.retried| == |init| && st.retryCount == |Trues(st.retried)|
    && (forall i | 0 <= i < |init| :: st.retried[i] <==> RecordedTwice(Record(p, layers, init, k, i)))
  }

  /** Both attempts are on record. */
  ghost predicate RecordedTwice(events: seq<Event>) {
    |events| == 4
  }

  ghost function RanTwice(log: seq<Event>, n: nat): set<nat> {
    set i: nat | i < n && RecordedTwice(EventsOf(log, i))
  }

  lemma StartInStep(p: Problem, layers: seq<seq<nat>>, init: Outcomes)
    requires p.Fits(init)
    ensures InStep(p, layers, init, 0, RunState(init, seq(|init|, _ => false), 0, []), false)
  {
    assert Trues(seq(|init|, _ => false)) == {};
  }

  lemma InStepReady(p: Problem, layers: seq<seq<nat>>, init: Outcomes, k: nat, st: RunState)
    requires p.Fits(init) && k < |layers| && IsLayering(p.deps, layers) && InStep(p, layers, init, k, st, false)
    ensures LayerReady(p, init, layers[k], st)
  {
    assert IsRound(p.deps, k, layers[k]);
    forall i | i in layers[k] ensures Apart(p, layers[k], i) {
      assert i in Elems(layers[k]) && i in Within(p.deps, k + 1);
      forall d | d in p.deps[i] ensures d !in layers[k] {
        assert d in Within(p.deps, k);
        assert d !in Elems(layers[k]);
      }
    }
    forall i | 0 <= i < |init|
      ensures (IsOk(st.outcomes[i]) ==> StandsOk(init, st.log, i)) && (st.outcomes[i].None? ==> !st.retried[i])
    {
      RecordShape(p, layers, init, k, i);
    }
  }

  lemma LayerInStep(p: Problem, layers: seq<seq<nat>>, init: Outcomes, k: nat, st0: RunState, st: RunState, halt: bool)
    requires p.Fits(init) && k < |layers| && InStep(p, layers, init, k, st0, false)
    requires Through(p, init, st0.outcomes, st0, Elems(layers[k]), st, halt)
    ensures InStep(p, layers, init, k + 1, st, halt)
  {
    var before, done := st0.outcomes, Elems(layers[k]);
    assert st.outcomes == Settle(p, before, done);
    forall i | 0 <= i < |init|
      ensures EventsOf(st.log, i) == Record(p, layers, init, k + 1, i)
      ensures st.retried[i] <==> RecordedTwice(Record(p, layers, init, k + 1, i))
    {
      RecordShape(p, layers, init, k, i);
      assert Record(p, layers, init, k + 1, i) == Record(p, layers, init, k, i) +
        if i in layers[k] && before[i].None? then History(p, before, i) else [];
    }
  }

  /** The whole run: layers in order, stopping after the first one that halts. */
  method Execute(p: Problem, layers: seq<seq<nat>>, init: Outcomes, maxConcurrent: nat) returns (st: RunState,
                 halted: bool)
    requires p.Resolved() && p.Fits(init) && IsLayering(p.deps, layers)
    ensures Final(p, layers, init) == Progress(st.outcomes, halted)
    ensures IsRunLog(p, layers, init, st.log)
    ensures st.retryCount == |RanTwice(st.log, |init|)|
  {
    st, halted := RunState(init, seq(|init|, _ => false), 0, []), false;
    StartInStep(p, layers, init);
    var k := 0;
    while k < |layers| && !halted
      invariant k <= |layers|
      invariant InStep(p, layers, init, k, st, halted)
    {
      InStepReady(p, layers, init, k, st);
      ghost var st0 := st;
      st, halted := RunLayer(p, layers[k], st, maxConcurrent, init);
      LayerInStep(p, layers, init, k, st0, st, halted);
      k := k + 1;
    }
    RunEnds(p, layers, init, k, st, halted);
  }

  lemma RunEnds(p: Problem, layers: seq<seq<nat>>, init: Outcomes, k: nat, st: RunState, halted: bool)
    requires p.Fits(init) && k <= |layers| && InStep(p, layers, init, k, st, halted) && (k == |layers| || halted)
    ensures Final(p, layers, init) == Progress(st.outcomes, halted)
    ensures IsRunLog(p, layers, init, st.log)
    ensures st.retryCount == |RanTwice(st.log, |init|)|
  {
    if halted {
      HaltedStays(p, layers, init, k, |layers|);
    }
    forall i: nat ensures i in Trues(st.retried) <==> i in RanTwice(st.log, |init|) {
      if i < |init| {
        assert EventsOf(st.log, i) == Record(p, layers, init, k, i);
      }
    }
    assert Trues(st.retried) == RanTwice(st.log, |init|);
  }
}
