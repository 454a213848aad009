/** A delegation batch: gates, slots, chunks, and the ranked result list. */
module DelegateBatch {
  import opened Prelude
  import opened DelegateChain
  import opened AggregateWeights

  /** What a sub-agent run returns for task number `i`. */
  type Runner = nat -> Value

  datatype BatchResult = Single(value: Value) | Many(values: seq<Value>)

  /** Why a task is not run, as the gates see it. */
  function Refusal(ctx: Context, parent: string, depth: nat, task: Request): Option<Rejection> {
    var rejection := ValidateTask(ctx, parent, depth, task);
    if rejection.Some? then rejection else if |task.prompt| > BOUNDED_PROMPT_CHARS then Some(Unbounded) else None
  }

  function RefusedValue(ctx: Context, task: Request, i: nat, why: Rejection): Value {
    Value(Some(task.agent), Some(i), Some(ctx.explain(why)), "")
  }

  /** What slot `i` must hold: the refusal of task `i`, or the value its own run returned, numbered `i` either way. */
  ghost function SlotOf(ctx: Context, parent: string, depth: nat, tasks: seq<Request>, run: Runner, i: nat): Value
    requires i < |tasks|
  {
    var why := Refusal(ctx, parent, depth, tasks[i]);
    if why.Some? then RefusedValue(ctx, tasks[i], i, why.value) else run(i).(taskIndex := Some(i))
  }

  ghost function Slots(ctx: Context, parent: string, depth: nat, tasks: seq<Request>, run: Runner): (slots: seq<Value>)
    ensures |slots| == |tasks| && Numbered(slots)
  {
    seq(|tasks|, i requires 0 <= i < |tasks| => SlotOf(ctx, parent, depth, tasks, run, i))
  }

  /** Slot `i` names its place in the batch; a refused task's names its agent and the reason, and any other holds what
      its own run returned. */
  lemma SlotReads(ctx: Context, parent: string, depth: nat, tasks: seq<Request>, run: Runner, i: nat)
    requires i < |tasks|
    ensures var slot, why := SlotOf(ctx, parent, depth, tasks, run, i), ValidateTask(ctx, parent, depth, tasks[i]);
            && slot.taskIndex == Some(i)
            && (why.Some? ==> slot.agent == Some(tasks[i].agent) && slot.error == Some(ctx.explain(why.value)))
            && (why.None? ==> slot.agent == run(i).agent && slot.error == run(i).error && slot.body == run(i).body)
  {
  }

  ghost predicate Runnable(ctx: Context, parent: string, depth: nat, tasks: seq<Request>, i: nat) {
    i < |tasks| && Refusal(ctx, parent, depth, tasks[i]).None?
  }

  /** Fills the slots of refused tasks and queues the others in task order. */
  method Screen(ctx: Context, parent: string, depth: nat, tasks: seq<Request>)
    returns (slots: seq<Option<Value>>, runnable: seq<nat>)
    ensures |slots| == |tasks|
    ensures forall i | 0 <= i < |tasks| ::
              slots[i] == (match Refusal(ctx, parent, depth, tasks[i])
                           case Some(why) => Some(RefusedValue(ctx, tasks[i], i, why))
                           case None => None)
    ensures NoDup(runnable) && forall i: nat :: i in runnable <==> Runnable(ctx, parent, depth, tasks, i)
  {
    slots, runnable := [], [];
    for i := 0 to |tasks|
      invariant |slots| == i
      invariant forall j | 0 <= j < i ::
          slots[j] == (match Refusal(ctx, parent, depth, tasks[j])
                       case Some(why) => Some(RefusedValue(ctx, tasks[j], j, why))
                       case None => None)
      invariant NoDup(runnable) && forall j: nat :: j in runnable <==> j < i && Runnable(ctx, parent, depth, tasks, j)
    {
      var rejection := ValidateTask(ctx, parent, depth, tasks[i]);
      if rejection.Some? {
        slots := slots + [Some(RefusedValue(ctx, tasks[i], i, rejection.value))];
      } else if |tasks[i].prompt| > BOUNDED_PROMPT_CHARS {
        slots := slots + [Some(RefusedValue(ctx, tasks[i], i, Unbounded))];
      } else {
        assert i !in runnable;
        slots := slots + [None];
        runnable := runnable + [i];
      }
    }
  }

  /** Runs the queue a chunk at a time; a chunk's results all arrive before any is placed. */
  method RunChunks(run: Runner, runnable: seq<nat>, slots: seq<Option<Value>>, maxConcurrent: nat)
    returns (slots': seq<Option<Value>>, started: seq<nat>)
    requires maxConcurrent > 0 && NoDup(runnable) && forall i | i in runnable :: i < |slots|
    ensures started == runnable
    ensures |slots'| == |slots|
    ensures forall i: nat | i < |slots| :: slots'[i] == if i in runnable then Some(run(i)) else slots[i]
  {
    slots', started := slots, [];
    var lo := 0;
    while lo < |runnable|
      invariant lo <= |runnable| && started == runnable[..lo] && |slots'| == |slots|
      invariant forall i: nat | i < |slots| :: slots'[i] == if i in runnable[..lo] then Some(run(i)) else slots[i]
    {
      var hi := if lo + maxConcurrent <= |runnable| then lo + maxConcurrent else |runnable|;
      var results: seq<Value> := [];
      for k := lo to hi
        invariant |results| == k - lo && started == runnable[..k]
        invariant forall m | 0 <= m < k - lo :: results[m] == run(runnable[lo + m])
      {
        results := results + [run(runnable[k])];
        started := started + [runnable[k]];
        assert runnable[..k + 1] == runnable[..k] + [runnable[k]];
      }
      for k := lo to hi
        invariant |slots'| == |slots|
        invariant forall i: nat | i < |slots| :: slots'[i] == if i in runnable[..k] then Some(run(i)) else slots[i]
      {
        assert runnable[..k + 1] == runnable[..k] + [runnable[k]];
        assert runnable[k] in runnable;
        slots' := slots'[runnable[k] := Some(results[k - lo])];
      }
      lo := hi;
    }
    assert runnable[..|runnable|] == runnable;
  }

  /** One batch: each runnable task runs exactly once, slot `i` answers task `i`, and several results come back as a
      permutation of the slots, heavier first and ties in task order. */
  method Invoke(ctx: Context, at: Position, tasks: seq<Request>, run: Runner, weights: Weights, maxConcurrent: nat)
    returns (r: BatchResult, started: seq<nat>)
    requires tasks != [] && maxConcurrent > 0
    ensures NoDup(started) && forall i: nat :: i in started <==> Runnable(ctx, at.agent, at.depth, tasks, i)
    ensures |tasks| == 1 <==> r.Single?
    ensures r.Single? ==> r.value == SlotOf(ctx, at.agent, at.depth, tasks, run, 0)
    ensures r.Many? ==>
              var slots := Slots(ctx, at.agent, at.depth, tasks, run);
              StablySorted(slots, weights, r.values) && Bag(r.values) == Bag(slots)
  {
    var slots, runnable := Screen(ctx, at.agent, at.depth, tasks);
    slots, started := RunChunks(run, runnable, slots, maxConcurrent);
    var results: seq<Value> := [];
    for i := 0 to |tasks|
      invariant |results| == i
      invariant forall j | 0 <= j < i :: results[j] == SlotOf(ctx, at.agent, at.depth, tasks, run, j)
    {
      assert i in runnable <==> Runnable(ctx, at.agent, at.depth, tasks, i);
      var value := if slots[i].Some? then slots[i].value else Value(None, None, Some(ctx.noResult), "");
      results := results + [value.(taskIndex := Some(i))];
    }
    assert results == Slots(ctx, at.agent, at.depth, tasks, run);
    if |tasks| > 1 {
      results := OrderValuesByWeight(results, weights);
      r := Many(results);
    } else {
      r := Single(results[0]);
    }
  }

  /** Every task finds its own result in the ranked list by its number, and finds it exactly once. */
  lemma ResultsRecoverable(slots: seq<Value>, values: seq<Value>, i: nat)
    requires Numbered(slots) && Bag(values) == Bag(slots) && i < |slots|
    ensures |values| == |slots|
    ensures exists k :: 0 <= k < |values| && values[k] == slots[i]
    ensures forall k | 0 <= k < |values| && values[k].taskIndex == Some(i) :: values[k] == slots[i]
    ensures forall k, m | 0 <= k < m < |values| :: values[k].taskIndex != values[m].taskIndex
  {
    BagSize(slots);
    BagSize(values);
    InBag(slots, i);
    var k0 := BagFind(values, slots[i]);
    forall k | 0 <= k < |values| ensures exists j :: 0 <= j < |slots| && slots[j] == values[k] {
      InBag(values, k);
      var j := BagFind(slots, values[k]);
    }
    forall k, m | 0 <= k < m < |values| ensures values[k].taskIndex != values[m].taskIndex {
      if values[k].taskIndex == values[m].taskIndex {
        TwiceInBag(values, k, m);
        OnceInBag(slots, values[k]);
      }
    }
  }

  lemma InBag<T>(s: seq<T>, k: nat)
    requires k < |s|
    ensures s[k] in Bag(s)
  {
  }

  /** Two positions with the same number hold the same slot, which then occurs twice. */
  lemma TwiceInBag(values: seq<Value>, k: nat, m: nat)
    requires k < m < |values|
    ensures values[k] == values[m] ==> Bag(values)[values[k]] >= 2
  {
    BagRemove(values, m);
    BagConcat(values[..m], values[m + 1..]);
    InBag(values[..m], k);
  }

  lemma {:induction false} OnceInBag(slots: seq<Value>, v: Value)
    requires Numbered(slots)
    ensures Bag(slots)[v] <= 1
  {
    if slots != [] {
      var early, last := slots[..|slots| - 1], slots[|slots| - 1];
      OnceInBag(early, v);
      assert slots == early + [last];
      BagConcat(early, [last]);
      if v in Bag(early) {
        var j := BagFind(early, v);
        assert v.taskIndex == Some(j) && v != last;
      }
    }
  }
}
