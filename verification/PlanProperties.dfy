/** What every plan run keeps: fixed results, skips, halts, and what the record of a run says. */
module PlanProperties {
  import opened Prelude
  import opened DependencyGraph
  import opened PlanTask
  import opened PlanRun

  function Fresh(n: nat): Outcomes {
    seq(n, _ => None)
  }

  ghost predicate HasFailed(o: Option<Outcome>) {
    o.Some? && o.value.status.Failed?
  }

  // ----- Each task belongs to one layer -----

  lemma OneLayer(deps: Deps, layers: seq<seq<nat>>, j: nat, k: nat, i: nat)
    requires IsLayering(deps, layers) && j < k < |layers| && i in layers[j]
    ensures i !in layers[k]
  {
    assert IsRound(deps, j, layers[j]) && IsRound(deps, k, layers[k]);
    assert i in Elems(layers[j]);
    WithinMonotone(deps, j + 1, k);
    assert i !in Elems(layers[k]);
  }

  lemma HasLayer(deps: Deps, layers: seq<seq<nat>>, i: nat) returns (k: nat)
    requires IsLayering(deps, layers) && i < |deps|
    ensures k < |layers| && i in layers[k]
  {
    assert i in Below(|deps|);
    k := FirstRound(deps, |layers|, i);
    assert IsRound(deps, k, layers[k]);
    assert i in Elems(layers[k]);
  }

  /** Layers that do not list a task leave its outcome and its record alone. */
  lemma {:induction false} Untouched(p: Problem, layers: seq<seq<nat>>, init: Outcomes, k: nat, m: nat, i: nat)
    requires p.Fits(init) && k <= m <= |layers| && i < |init|
    requires forall j | k <= j < m :: i !in layers[j]
    ensures After(p, layers, init, m).outs[i] == After(p, layers, init, k).outs[i]
    ensures Record(p, layers, init, m, i) == Record(p, layers, init, k, i)
  {
    hide Settled, HaltHit, TaskResult, History;
    if k < m {
      Untouched(p, layers, init, k, m - 1, i);
      LayerStep(p, layers, init, m - 1, i);
    }
  }

  lemma NotElsewhere(deps: Deps, layers: seq<seq<nat>>, k: nat, i: nat)
    requires IsLayering(deps, layers) && k < |layers| && i in layers[k]
    ensures forall j | 0 <= j < |layers| && j != k :: i !in layers[j]
  {
    forall j | 0 <= j < |layers| && j != k ensures i !in layers[j] {
      if i in layers[j] {
        if j < k { OneLayer(deps, layers, j, k, i); } else { OneLayer(deps, layers, k, j, i); }
      }
    }
  }

  lemma OnlyItsLayer(p: Problem, layers: seq<seq<nat>>, init: Outcomes, k: nat, i: nat)
    requires p.Fits(init) && IsLayering(p.deps, layers) && k < |layers| && i in layers[k] && i < |init|
    ensures After(p, layers, init, k).outs[i] == init[i] && Record(p, layers, init, k, i) == []
    ensures After(p, layers, init, k + 1).outs[i] == Final(p, layers, init).outs[i]
    ensures Record(p, layers, init, k + 1, i) == Record(p, layers, init, |layers|, i)
  {
    hide Settled, HaltHit, IsLayering, TaskResult, History;
    NotElsewhere(p.deps, layers, k, i);
    Untouched(p, layers, init, 0, k, i);
    Untouched(p, layers, init, k + 1, |layers|, i);
  }

  lemma DoneEarly(p: Problem, layers: seq<seq<nat>>, init: Outcomes, j: nat, k: nat, d: nat)
    requires p.Fits(init) && IsLayering(p.deps, layers) && j < k <= |layers| && d in layers[j] && d < |init|
    ensures After(p, layers, init, k).outs[d] == Final(p, layers, init).outs[d]
  {
    NotElsewhere(p.deps, layers, j, d);
    Untouched(p, layers, init, k, |layers|, d);
  }

  /** When a layer starts, the dependencies of its tasks already have their final outcomes. */
  lemma DependenciesFinal(p: Problem, layers: seq<seq<nat>>, init: Outcomes, k: nat, i: nat)
    requires p.Fits(init) && IsLayering(p.deps, layers) && k < |layers| && i in layers[k] && i < |init|
    ensures forall d | d in p.deps[i] :: After(p, layers, init, k).outs[d] == Final(p, layers, init).outs[d]
    ensures TaskResult(p, After(p, layers, init, k).outs, i) == TaskResult(p, Final(p, layers, init).outs, i)
  {
    forall d | d in p.deps[i] ensures After(p, layers, init, k).outs[d] == Final(p, layers, init).outs[d] {
      DependenciesComeEarlier(p.deps, layers, k, i, d);
      var j :| 0 <= j < k && d in layers[j];
      DoneEarly(p, layers, init, j, k, d);
    }
    SameView(p, After(p, layers, init, k).outs, Final(p, layers, init).outs, i);
  }

  /** The final outcomes solve one equation per task: a replayed outcome stands, a task behind a halt has none, and
      every other task has the result computed from the final outcomes of its dependencies. */
  lemma FinalEquation(p: Problem, layers: seq<seq<nat>>, init: Outcomes, k: nat, i: nat)
    requires p.Fits(init) && IsLayering(p.deps, layers) && k < |layers| && i in layers[k] && i < |init|
    ensures var final := Final(p, layers, init).outs;
            final[i] == if init[i].Some? || After(p, layers, init, k).halted then init[i]
                        else Some(TaskResult(p, final, i))
    ensures Record(p, layers, init, |layers|, i) ==
            if init[i].Some? || After(p, layers, init, k).halted then []
            else History(p, After(p, layers, init, k).outs, i)
  {
    OnlyItsLayer(p, layers, init, k, i);
    DependenciesFinal(p, layers, init, k, i);
    LayerStep(p, layers, init, k, i);
  }

  // ----- The order inside a layer does not matter -----

  lemma {:induction false} SameLayersSameRun(p: Problem, layers: seq<seq<nat>>, other: seq<seq<nat>>, init: Outcomes,
                                             k: nat)
    requires p.Fits(init) && Rounds(p.deps, layers) && Rounds(p.deps, other) && k <= |layers| && k <= |other|
    ensures After(p, layers, init, k) == After(p, other, init, k)
  {
    hide Settled, HaltHit, Within, TaskResult;
    if k > 0 {
      SameLayersSameRun(p, layers, other, init, k - 1);
      assert IsRound(p.deps, k - 1, layers[k - 1]) && IsRound(p.deps, k - 1, other[k - 1]);
    }
  }

  /** However a layering orders its layers inside, and whatever the batch width, a plan's outcomes are the same. */
  lemma LayerOrderIrrelevant(p: Problem, layers: seq<seq<nat>>, other: seq<seq<nat>>, init: Outcomes)
    requires p.Fits(init) && IsLayering(p.deps, layers) && IsLayering(p.deps, other)
    ensures |layers| == |other| && Final(p, layers, init) == Final(p, other, init)
  {
    NotLonger(p.deps, layers, other);
    NotLonger(p.deps, other, layers);
    SameLayersSameRun(p, layers, other, init, |layers|);
  }

  lemma NotLonger(deps: Deps, a: seq<seq<nat>>, b: seq<seq<nat>>)
    requires IsLayering(deps, a) && IsLayering(deps, b)
    ensures |a| <= |b|
  {
    if |b| < |a| {
      RoundNotFull(deps, |b|, a[|b|]);
    }
  }

  /** A plan has one layering listed in order, so its layers are determined down to their order inside. */
  lemma OneLayering(deps: Deps, a: seq<seq<nat>>, b: seq<seq<nat>>)
    requires IsLayering(deps, a) && IsLayering(deps, b) && ListedInOrder(deps, a) && ListedInOrder(deps, b)
    ensures a == b
  {
    hide ListedInOrder, Within;
    NotLonger(deps, a, b);
    NotLonger(deps, b, a);
    forall k | 0 <= k < |a| ensures a[k] == b[k] {
      LayersDetermined(deps, a, b, k);
    }
  }

  lemma RoundNotFull(deps: Deps, k: nat, layer: seq<nat>)
    requires IsRound(deps, k, layer)
    ensures Within(deps, k) != Below(|deps|)
  {
    var t := layer[0];
    assert t in Elems(layer);
    WithinInRange(deps, k + 1);
    assert t in Below(|deps|) && t !in Within(deps, k);
  }

  // ----- Skips and halts in fresh runs -----

  ghost predicate FailedAncestor(p: Problem, outs: Outcomes, i: nat)
    requires p.Fits(outs)
  {
    exists c :: ChainTo(p.deps, c, i) && |c| >= 2 && HasFailed(outs[c[0]])
  }

  /** A fresh run's task ends skipped exactly when something it builds on failed, or an earlier layer halted. */
  lemma {:induction false} SkippedIff(p: Problem, layers: seq<seq<nat>>, k: nat, i: nat)
    requires p.Fits(Fresh(|p.deps|)) && IsLayering(p.deps, layers) && k < |layers| && i in layers[k] && i < |p.deps|
    ensures var init := Fresh(|p.deps|);
            Reported(p, Final(p, layers, init).outs[i]).status.Skipped? <==>
            FailedAncestor(p, Final(p, layers, init).outs, i) || After(p, layers, init, k).halted
    decreases k
  {
    var init := Fresh(|p.deps|);
    var final := Final(p, layers, init).outs;
    FinalEquation(p, layers, init, k, i);
    if !After(p, layers, init, k).halted {
      forall d | d in p.deps[i]
        ensures HasFailed(final[d]) || FailedAncestor(p, final, d) <==> !IsOk(final[d])
      {
        DependenciesComeEarlier(p.deps, layers, k, i, d);
        var j :| 0 <= j < k && d in layers[j];
        SkippedIff(p, layers, j, d);
        FinalEquation(p, layers, init, j, d);
        HaltedEarlier(p, layers, init, j, k);
      }
      AncestorThroughDependency(p, final, i);
    }
  }

  lemma HaltedEarlier(p: Problem, layers: seq<seq<nat>>, init: Outcomes, j: nat, k: nat)
    requires p.Fits(init) && j <= k <= |layers|
    ensures After(p, layers, init, j).halted ==> After(p, layers, init, k).halted
  {
    if After(p, layers, init, j).halted {
      HaltedStays(p, layers, init, j, k);
    }
  }

  lemma AncestorThroughDependency(p: Problem, outs: Outcomes, i: nat)
    requires p.Fits(outs) && i < |outs|
    ensures FailedAncestor(p, outs, i) <==>
            exists d :: d in p.deps[i] && (HasFailed(outs[d]) || FailedAncestor(p, outs, d))
  {
    if FailedAncestor(p, outs, i) {
      var c :| ChainTo(p.deps, c, i) && |c| >= 2 && HasFailed(outs[c[0]]);
      var d, rest := c[|c| - 2], c[..|c| - 1];
      assert d in p.deps[i] && ChainTo(p.deps, rest, d) && rest[0] == c[0];
    }
    if exists d :: d in p.deps[i] && (HasFailed(outs[d]) || FailedAncestor(p, outs, d)) {
      var d :| d in p.deps[i] && (HasFailed(outs[d]) || FailedAncestor(p, outs, d));
      if HasFailed(outs[d]) {
        assert ChainTo(p.deps, [d, i], i);
      } else {
        var c :| ChainTo(p.deps, c, d) && |c| >= 2 && HasFailed(outs[c[0]]);
        assert ChainTo(p.deps, c + [i], i) && (c + [i])[0] == c[0];
      }
    }
  }

  /** A task of the layer ended failed, and its failure edge is `halt`. */
  ghost predicate HaltingFailure(p: Problem, outs: Outcomes, layer: seq<nat>)
    requires p.Fits(outs)
  {
    exists i :: i in layer && i < |outs| && p.plan.tasks[i].onFailure.Halt? && HasFailed(outs[i])
  }

  lemma HaltedHere(p: Problem, layers: seq<seq<nat>>, k: nat)
    requires p.Fits(Fresh(|p.deps|)) && IsLayering(p.deps, layers) && k < |layers|
    requires !After(p, layers, Fresh(|p.deps|), k).halted
    ensures var init := Fresh(|p.deps|);
            After(p, layers, init, k + 1).halted <==> HaltingFailure(p, Final(p, layers, init).outs, layers[k])
  {
    var init := Fresh(|p.deps|);
    var before, final := After(p, layers, init, k).outs, Final(p, layers, init).outs;
    forall i | i in layers[k] && i < |p.deps|
      ensures before[i].None? && final[i] == Some(TaskResult(p, before, i))
    {
      FinalEquation(p, layers, init, k, i);
      OnlyItsLayer(p, layers, init, k, i);
      DependenciesFinal(p, layers, init, k, i);
    }
    HaltingFailureIffHit(p, before, final, layers[k]);
  }

  lemma HaltingFailureIffHit(p: Problem, before: Outcomes, final: Outcomes, layer: seq<nat>)
    requires p.Fits(before) && p.Fits(final)
    requires forall i | i in layer && i < |before| :: before[i].None? && final[i] == Some(TaskResult(p, before, i))
    ensures HaltHit(p, before, Elems(layer)) <==> HaltingFailure(p, final, layer)
  {
    if HaltHit(p, before, Elems(layer)) {
      var i :| i in Elems(layer) && i < |before| && before[i].None? && p.plan.tasks[i].onFailure.Halt?
               && TaskResult(p, before, i).status.Failed?;
      assert i in layer && HasFailed(final[i]);
    }
    if HaltingFailure(p, final, layer) {
      var i :| i in layer && i < |final| && p.plan.tasks[i].onFailure.Halt? && HasFailed(final[i]);
      assert i in Elems(layer) && TaskResult(p, before, i).status.Failed?;
    }
  }

  /** A fresh run is halted before layer `k` exactly when a task of an earlier layer ended failed with a halt edge. */
  lemma {:induction false} HaltedIff(p: Problem, layers: seq<seq<nat>>, k: nat)
    requires p.Fits(Fresh(|p.deps|)) && IsLayering(p.deps, layers) && k <= |layers|
    ensures var init := Fresh(|p.deps|);
            After(p, layers, init, k).halted <==>
            exists j :: 0 <= j < k && HaltingFailure(p, Final(p, layers, init).outs, layers[j])
  {
    hide HaltingFailure, Settled, HaltHit;
    if k > 0 {
      HaltedIff(p, layers, k - 1);
      if !After(p, layers, Fresh(|p.deps|), k - 1).halted {
        HaltedHere(p, layers, k - 1);
      }
    }
  }

  // ----- What a run's record says -----

  lemma {:induction false} EventsOfPrefix(log: seq<Event>, q: nat, i: nat)
    requires q <= |log|
    ensures EventsOf(log[..q], i) <= EventsOf(log, i)
  {
    assert log == log[..q] + log[q..];
    EventsOfAppend(log[..q], log[q..], i);
  }

  /** A task that stood ok at some moment of a run has its final outcome then, and is not touched again. */
  lemma StandingIsFinal(p: Problem, layers: seq<seq<nat>>, init: Outcomes, log: seq<Event>, q: nat, d: nat)
    requires p.Fits(init) && IsRunLog(p, layers, init, log) && q <= |log| && d < |init| && StandsOk(init, log[..q], d)
    ensures IsOk(Final(p, layers, init).outs[d]) && EventsOf(log[..q], d) == EventsOf(log, d)
  {
    hide After, Record, RunsSafely, EventsOf, History, Settled;
    RecordShape(p, layers, init, |layers|, d);
    EventsOfPrefix(log, q, d);
    var early, all := EventsOf(log[..q], d), EventsOf(log, d);
    assert all == Record(p, layers, init, |layers|, d);
    if early != [] {
      assert all[|early| - 1] == early[|early| - 1];
      assert |early| == |all|;
    }
  }

  /** A task is handed to the runner only once every dependency has its final outcome, and that outcome is ok. */
  lemma RunsOnlyOnFinalInputs(p: Problem, layers: seq<seq<nat>>, init: Outcomes, log: seq<Event>, q: nat)
    requires p.Fits(init) && IsRunLog(p, layers, init, log) && q < |log| && log[q].Started?
    ensures log[q].task < |init|
    ensures forall d | d in p.deps[log[q].task] ::
              IsOk(Final(p, layers, init).outs[d]) && EventsOf(log[..q], d) == EventsOf(log, d)
  {
    assert DepsStand(p, init, log[..q], log[q].task);
    forall d | d in p.deps[log[q].task]
      ensures IsOk(Final(p, layers, init).outs[d]) && EventsOf(log[..q], d) == EventsOf(log, d)
    {
      StandingIsFinal(p, layers, init, log, q, d);
    }
  }

  /** The whole trace of one task: nothing when replayed or behind a halt; one checkpoint and no run when blocked or
      refused; otherwise one run, and a second one exactly when the first failed and the failure edge is retry. */
  lemma TraceOfTask(p: Problem, layers: seq<seq<nat>>, init: Outcomes, log: seq<Event>, k: nat, i: nat)
    requires p.Fits(init) && IsLayering(p.deps, layers) && IsRunLog(p, layers, init, log)
    requires k < |layers| && i in layers[k] && i < |init|
    ensures var final, events := Final(p, layers, init).outs, EventsOf(log, i);
            if init[i].Some? || After(p, layers, init, k).halted then events == []
            else if exists d :: d in p.deps[i] && !(final[d].Some? && final[d].value.status == Ok)
            then events == [Saved(i, Outcome(Skipped, Value(Absent, Text(p.words.blocked), Absent, Absent, "")))]
            else if p.oracle.validate(i, Prompt(p, final, i)).Some?
            then var error := p.oracle.validate(i, Prompt(p, final, i)).value;
              events == [Saved(i, Outcome(Failed, Value(Absent, Text(error), Absent, Absent, "")))]
            else
              var prompt := Prompt(p, final, i);
              var first := RunOutcome(p.oracle.run(i, prompt, 1));
              if first.status.Failed? && p.plan.tasks[i].onFailure.Retry?
              then events == [Started(i, prompt, 1), Saved(i, first), Started(i, prompt, 2),
                              Saved(i, RunOutcome(p.oracle.run(i, prompt, 2)))]
              else events == [Started(i, prompt, 1), Saved(i, first)]
  {
    hide After, Record, Settled, RunsSafely, IsLayering;
    FinalEquation(p, layers, init, k, i);
    DependenciesFinal(p, layers, init, k, i);
    var before, final := After(p, layers, init, k).outs, Final(p, layers, init).outs;
    SameView(p, before, final, i);
    assert Unblocked(p, final, i) ==> Prompt(p, before, i) == Prompt(p, final, i);
    assert Runs(p, before, i) <==> Runs(p, final, i);
  }

  // ----- What a task is told -----

  /** The parts stand in the text one after the other, without overlap. */
  ghost predicate HoldsInOrder(text: string, parts: seq<string>) {
    parts == [] || exists a: nat :: HoldsAt(text, a, parts[0]) && HoldsInOrder(text[a + |parts[0]|..], parts[1..])
  }

  ghost predicate HoldsAt(text: string, a: nat, part: string) {
    a + |part| <= |text| && text[a..a + |part|] == part
  }

  /** These tasks all have ok outcomes. */
  ghost predicate AllOk(p: Problem, outs: Outcomes, row: seq<nat>) {
    |outs| == |p.plan.tasks| && forall d | d in row :: d < |outs| && IsOk(outs[d])
  }

  /** The ids of the dependencies and the first 4000 characters of their answers, in the order they are listed. */
  ghost function Told(p: Problem, outs: Outcomes, row: seq<nat>): seq<string>
    requires AllOk(p, outs, row)
  {
    if row == [] then []
    else
      assert row[0] in row;
      var v := outs[row[0]].value.value;
      var text := if v.response.Text? then v.response.text else p.oracle.render(v);
      [p.plan.tasks[row[0]].id, if |text| > 4000 then text[..4000] else text] + Told(p, outs, row[1..])
  }

  ghost function Pairs(p: Problem, outs: Outcomes, row: seq<nat>): (ups: seq<(string, string)>)
    requires AllOk(p, outs, row)
    ensures |ups| == |row|
  {
    seq(|row|, k requires 0 <= k < |row| =>
      assert row[k] in row;
      (p.plan.tasks[row[k]].id, UpstreamSnippet(p, outs[row[k]].value.value)))
  }

  lemma {:induction false} SectionsFirst(words: Wording, ups: seq<(string, string)>)
    requires ups != []
    ensures Sections(words, ups) == Section(words, ups[0]) + Sections(words, ups[1..])
  {
    if |ups| == 1 {
      assert ups[..0] == [] && ups[1..] == [];
    } else {
      var m := |ups| - 1;
      SectionsFirst(words, ups[..m]);
      assert ups[..m][1..] == ups[1..][..m - 1] && ups[1..][m - 1] == ups[m];
    }
  }

  lemma PartAt(before: string, a: string, after: string, parts: seq<string>)
    requires HoldsInOrder(after, parts)
    ensures HoldsInOrder(before + a + after, [a] + parts)
  {
    var text, all := before + a + after, [a] + parts;
    assert text[|before|..|before| + |a|] == a && text[|before| + |a|..] == after;
    assert all[0] == a && all[1..] == parts;
    assert HoldsAt(text, |before|, all[0]) && HoldsInOrder(text[|before| + |all[0]|..], all[1..]);
  }

  lemma PartsAt(before: string, a: string, between: string, b: string, rest: string, after: string, parts: seq<string>)
    requires HoldsInOrder(after, parts)
    ensures HoldsInOrder(before + a + between + b + rest + after, [a, b] + parts)
  {
    hide HoldsInOrder;
    MoreText(rest, after, parts);
    PartAt(between, b, rest + after, parts);
    PartAt(before, a, between + b + (rest + after), [b] + parts);
    assert before + a + (between + b + (rest + after)) == before + a + between + b + rest + after;
    assert [a] + ([b] + parts) == [a, b] + parts;
  }

  lemma MoreText(before: string, text: string, parts: seq<string>)
    requires HoldsInOrder(text, parts)
    ensures HoldsInOrder(before + text, parts)
  {
    if parts != [] {
      var a: nat :| HoldsAt(text, a, parts[0]) && HoldsInOrder(text[a + |parts[0]|..], parts[1..]);
      var all, b := before + text, |before| + a;
      assert HoldsAt(all, b, parts[0]) && all[b + |parts[0]|..] == text[a + |parts[0]|..];
    }
  }

  lemma {:induction false} SectionsHold(p: Problem, outs: Outcomes, row: seq<nat>)
    requires AllOk(p, outs, row)
    ensures HoldsInOrder(Sections(p.words, Pairs(p, outs, row)), Told(p, outs, row))
  {
    hide UpstreamSnippet, HoldsInOrder;
    if row == [] {
      NothingToHold(Sections(p.words, Pairs(p, outs, row)));
    } else {
      var ups, v := Pairs(p, outs, row), outs[row[0]].value.value;
      SectionsHold(p, outs, row[1..]);
      assert ups[1..] == Pairs(p, outs, row[1..]);
      SectionsFirst(p.words, ups);
      SnippetReads(p, v);
      var told := ups[0].1;
      var cut := if |told| > 4000 then 4000 else |told|;
      var text := if v.response.Text? then v.response.text else p.oracle.render(v);
      assert told == told[..cut] + told[cut..];
      assert told[..cut] == if |text| > 4000 then text[..4000] else text;
      PartsAt(p.words.sectionOpen, ups[0].0, p.words.sectionBody, told[..cut], told[cut..],
              Sections(p.words, ups[1..]), Told(p, outs, row[1..]));
      assert Section(p.words, ups[0]) ==
             p.words.sectionOpen + ups[0].0 + p.words.sectionBody + told[..cut] + told[cut..];
    }
  }

  lemma NothingToHold(text: string)
    ensures HoldsInOrder(text, [])
  {
  }

  lemma {:induction false} EventListed(log: seq<Event>, q: nat)
    requires q < |log|
    ensures log[q] in EventsOf(log, log[q].task)
  {
    var m := |log| - 1;
    if q < m {
      EventListed(log[..m], q);
    }
  }

  /** Every run, fresh or resumed, starts a task with its brief, followed by the id and the first 4000 characters of the
      answer of each dependency, in the order listed; the answers are the final ones. */
  lemma StartedWith(p: Problem, layers: seq<seq<nat>>, init: Outcomes, log: seq<Event>, q: nat)
    requires p.Fits(init) && IsLayering(p.deps, layers) && IsRunLog(p, layers, init, log)
    requires q < |log| && log[q].Started?
    ensures log[q].task < |init| && AllOk(p, Final(p, layers, init).outs, p.deps[log[q].task])
    ensures var i, final := log[q].task, Final(p, layers, init).outs;
            var brief := p.plan.tasks[i].prompt;
            && |brief| <= |log[q].prompt| && log[q].prompt[..|brief|] == brief
            && HoldsInOrder(log[q].prompt[|brief|..], Told(p, final, p.deps[i]))
            && (p.deps[i] == [] ==> log[q].prompt == brief)
  {
    hide After, Final, IsLayering, Record, HoldsInOrder, Told, UpstreamSnippet, Sections;
    RunsOnlyOnFinalInputs(p, layers, init, log, q);
    var i, final := log[q].task, Final(p, layers, init).outs;
    PromptOfStart(p, layers, init, log, q);
    var row := p.deps[i];
    SectionsHold(p, final, row);
    assert Upstream(p, final, i) == Pairs(p, final, row);
    var brief, sections := p.plan.tasks[i].prompt, Sections(p.words, Pairs(p, final, row));
    if row == [] {
      assert Told(p, final, row) == [] by {
        ToldNothing(p, final, row);
      }
      NothingToHold(log[q].prompt[|brief|..]);
    } else {
      MoreText(p.words.header, sections, Told(p, final, row));
      assert log[q].prompt == brief + (p.words.header + sections);
    }
  }

  lemma ToldNothing(p: Problem, outs: Outcomes, row: seq<nat>)
    requires AllOk(p, outs, row) && row == []
    ensures Told(p, outs, row) == []
  {
  }

  lemma PromptOfStart(p: Problem, layers: seq<seq<nat>>, init: Outcomes, log: seq<Event>, q: nat)
    requires p.Fits(init) && IsLayering(p.deps, layers) && IsRunLog(p, layers, init, log)
    requires q < |log| && log[q].Started? && log[q].task < |init|
    ensures log[q].prompt == Prompt(p, Final(p, layers, init).outs, log[q].task)
  {
    hide After, Final, IsLayering, Record, IsRunLog, EventsOf, Prompt, RunOutcome;
    var k := HasLayer(p.deps, layers, log[q].task);
    EventListed(log, q);
    TraceOfTask(p, layers, init, log, k, log[q].task);
  }
}
