/** Resuming with a redrafted plan: stored answers are matched by id and agent only. */
module PlanRedraft {
  import opened Prelude
  import opened DependencyGraph
  import opened PlanTask
  import opened PlanRun
  import opened PlanProperties
  import opened PlanResume

  /** Two drafts of one plan with the same ids in the same places; anything else may differ. */
  ghost predicate SameIds(p: Problem, q: Problem) {
    && |p.plan.tasks| == |q.plan.tasks|
    && forall i | 0 <= i < |p.plan.tasks| :: p.plan.tasks[i].id == q.plan.tasks[i].id
  }

  /** `init` replays for the draft `q` some ok outcomes that `p` had in the end, for tasks whose agent is the same. */
  ghost predicate ReplaysFrom(p: Problem, q: Problem, final: Outcomes, init: Outcomes)
    requires SameIds(p, q) && |final| == |p.plan.tasks|
  {
    && |init| == |final|
    && forall i | 0 <= i < |init| && init[i].Some? ::
         && IsOk(final[i]) && q.plan.tasks[i].agent == p.plan.tasks[i].agent
         && init[i] == Some(ReplayedOutcome(TextOf(final[i].value.value.response)))
  }

  /** What a redraft reads from the table of an earlier draft are that draft's ok outcomes. */
  lemma RedraftReplays(p: Problem, q: Problem, final: Outcomes, table: map<string, Row>, rows: seq<Row>, init: Outcomes)
    requires SameIds(p, q) && p.Fits(final) && UniqueIds(p.plan.tasks) && Faithful(p, final, table)
    requires Lists(rows, table) && Replays(q.plan.tasks, rows, init)
    ensures ReplaysFrom(p, q, final, init)
  {
    forall i | 0 <= i < |init| && init[i].Some?
      ensures IsOk(final[i]) && q.plan.tasks[i].agent == p.plan.tasks[i].agent
      ensures init[i] == Some(ReplayedOutcome(TextOf(final[i].value.value.response)))
    {
      var r :| r in rows && Target(q.plan.tasks, r) == i && init[i] == Some(ReplayedOutcome(r.response));
      assert RowOfFinal(p, final, r.taskId, table[r.taskId]);
      var j :| 0 <= j < |final| && p.plan.tasks[j].id == r.taskId && IsOk(final[j]) && r == RowOf(p, j, final[j].value);
      assert q.plan.tasks[i].id == r.taskId;
      assert i == j;
    }
  }

  /** Every replayed outcome is what the new draft's own fresh run reports of its task. */
  ghost predicate AllOwn(q: Problem, final: Outcomes, init: Outcomes) {
    |init| == |final| && forall i | 0 <= i < |init| && init[i].Some? :: SameReport(q, final[i], init[i])
  }

  /** Resuming with a redraft reports what a fresh run of the redraft would exactly when every replayed outcome is the
      redraft's own. */
  lemma RedraftTransparentIff(p: Problem, q: Problem, lp: seq<seq<nat>>, lq: seq<seq<nat>>, init: Outcomes)
    requires p.Fits(Fresh(|p.deps|)) && q.Fits(Fresh(|q.deps|)) && q.Fits(init) && SameIds(p, q)
    requires IsLayering(p.deps, lp) && IsLayering(q.deps, lq) && RunnerShaped(p)
    requires ReplaysFrom(p, q, Final(p, lp, Fresh(|p.deps|)).outs, init)
    ensures AllOwn(q, Final(q, lq, Fresh(|q.deps|)).outs, init) <==>
            SameReports(q, Final(q, lq, Fresh(|q.deps|)).outs, Final(q, lq, init).outs)
  {
    hide IsLayering, Final, After, RunnerShaped;
    var old', own, resumed := Final(p, lp, Fresh(|p.deps|)).outs, Final(q, lq, Fresh(|q.deps|)).outs,
      Final(q, lq, init).outs;
    forall i | 0 <= i < |init| && init[i].Some?
      ensures resumed[i] == init[i] && old'[i].value.value.response.Text?
    {
      FreshOkShaped(p, lp, i);
      ReplayStands(q, lq, init, |lq|, i);
      FinalIsLast(q, lq, init);
    }
    if AllOwn(q, own, init) {
      assert ReplaysOk(own, init) && TextKept(own, init);
      ResumeTransparent(q, lq, init);
    }
  }

  // ----- Tasks that a redraft keeps -----

  ghost predicate AnswersAlike(p: Problem, q: Problem, i: nat) {
    && (forall prompt :: p.oracle.validate(i, prompt) == q.oracle.validate(i, prompt))
    && (forall prompt, attempt :: p.oracle.run(i, prompt, attempt) == q.oracle.run(i, prompt, attempt))
  }

  ghost predicate RendersAlike(p: Problem, q: Problem) {
    p.words == q.words && forall v :: p.oracle.render(v) == q.oracle.render(v)
  }

  /** The redraft left the tasks of `kept` as they were, together with everything they depend on, and the same request
      still has the same answer. */
  ghost predicate Keeps(p: Problem, q: Problem, kept: set<nat>) {
    && SameIds(p, q) && |p.deps| == |q.deps| == |p.plan.tasks| && RendersAlike(p, q)
    && forall i | i in kept ::
         && i < |p.deps| && p.plan.tasks[i] == q.plan.tasks[i] && p.deps[i] == q.deps[i] && AnswersAlike(p, q, i)
         && forall d | d in p.deps[i] :: d in kept
  }

  lemma SameViewAcross(p: Problem, q: Problem, kept: set<nat>, a: Outcomes, b: Outcomes, i: nat)
    requires Keeps(p, q, kept) && i in kept && p.Fits(a) && q.Fits(b)
    requires forall d | d in p.deps[i] :: a[d] == b[d]
    ensures TaskResult(p, a, i) == TaskResult(q, b, i)
  {
    assert AnswersAlike(p, q, i);
    if Unblocked(p, a, i) {
      var row := p.deps[i];
      forall k | 0 <= k < |row| ensures Upstream(p, a, i)[k] == Upstream(q, b, i)[k] {
        assert row[k] in row;
        assert p.oracle.render(a[row[k]].value.value) == q.oracle.render(a[row[k]].value.value);
      }
      assert Upstream(p, a, i) == Upstream(q, b, i);
    }
  }

  lemma {:induction false} WithinAlike(p: Problem, q: Problem, kept: set<nat>, k: nat, i: nat)
    requires Keeps(p, q, kept) && i in kept
    ensures i in Within(p.deps, k) <==> i in Within(q.deps, k)
  {
    hide RendersAlike, AnswersAlike;
    if k > 0 {
      forall d | d in p.deps[i] ensures d in Within(p.deps, k - 1) <==> d in Within(q.deps, k - 1) {
        WithinAlike(p, q, kept, k - 1, d);
      }
    }
  }

  /** A kept task stays in its layer. */
  lemma LayerAlike(p: Problem, q: Problem, kept: set<nat>, lp: seq<seq<nat>>, lq: seq<seq<nat>>, k: nat, i: nat)
    requires Keeps(p, q, kept) && i in kept && IsLayering(p.deps, lp) && IsLayering(q.deps, lq)
    requires k < |lp| && i in lp[k]
    ensures k < |lq| && i in lq[k]
  {
    hide Within, RendersAlike, AnswersAlike;
    var j := HasLayer(q.deps, lq, i);
    assert IsRound(p.deps, k, lp[k]) && IsRound(q.deps, j, lq[j]);
    assert i in Elems(lp[k]) && i in Elems(lq[j]);
    WithinAlike(p, q, kept, k, i);
    WithinAlike(p, q, kept, k + 1, i);
    if j < k {
      WithinMonotone(q.deps, j + 1, k);
    } else if k < j {
      WithinMonotone(q.deps, k + 1, j);
    }
  }

  ghost predicate HaltedBefore(p: Problem, layers: seq<seq<nat>>, k: nat)
    requires p.Fits(Fresh(|p.deps|)) && k <= |layers|
  {
    After(p, layers, Fresh(|p.deps|), k).halted
  }

  /** A kept task ends alike in the fresh runs of both drafts, unless a halt cut one of them short. */
  lemma {:induction false} KeptOutcome(p: Problem, q: Problem, kept: set<nat>, lp: seq<seq<nat>>, lq: seq<seq<nat>>,
                                       k: nat, i: nat)
    requires Keeps(p, q, kept) && i in kept && p.Fits(Fresh(|p.deps|)) && q.Fits(Fresh(|q.deps|))
    requires IsLayering(p.deps, lp) && IsLayering(q.deps, lq) && k < |lp| && k < |lq| && i in lp[k] && i in lq[k]
    requires !HaltedBefore(p, lp, k) && !HaltedBefore(q, lq, k)
    ensures Final(p, lp, Fresh(|p.deps|)).outs[i].Some?
    ensures Final(p, lp, Fresh(|p.deps|)).outs[i] == Final(q, lq, Fresh(|q.deps|)).outs[i]
    decreases k
  {
    hide After, Final, IsLayering, TaskResult, RendersAlike, AnswersAlike;
    var blank := Fresh(|p.deps|);
    FinalEquation(p, lp, blank, k, i);
    FinalEquation(q, lq, blank, k, i);
    forall d | d in p.deps[i] ensures Final(p, lp, blank).outs[d] == Final(q, lq, blank).outs[d] {
      DependenciesComeEarlier(p.deps, lp, k, i, d);
      var j :| 0 <= j < k && d in lp[j];
      LayerAlike(p, q, kept, lp, lq, j, d);
      HaltedEarlier(p, lp, blank, j, k);
      HaltedEarlier(q, lq, blank, j, k);
      KeptOutcome(p, q, kept, lp, lq, j, d);
    }
    SameViewAcross(p, q, kept, Final(p, lp, blank).outs, Final(q, lq, blank).outs, i);
  }

  /** No replayed task would be behind a halt in a fresh run of the redraft. */
  ghost predicate NoneBehindHalt(q: Problem, lq: seq<seq<nat>>, init: Outcomes)
    requires q.Fits(Fresh(|q.deps|))
  {
    forall k, i | 0 <= k < |lq| && i in lq[k] && i < |init| && init[i].Some? :: !HaltedBefore(q, lq, k)
  }

  lemma SettledNotHalted(p: Problem, layers: seq<seq<nat>>, k: nat, i: nat)
    requires p.Fits(Fresh(|p.deps|)) && IsLayering(p.deps, layers) && k < |layers| && i in layers[k] && i < |p.deps|
    ensures HaltedBefore(p, layers, k) ==> Final(p, layers, Fresh(|p.deps|)).outs[i] == None
  {
    hide After, IsLayering;
    FinalEquation(p, layers, Fresh(|p.deps|), k, i);
  }

  /** When only kept tasks are replayed, all replayed outcomes are the redraft's own exactly when none of them is behind
      a halt there. */
  lemma KeptOwnIff(p: Problem, q: Problem, kept: set<nat>, lp: seq<seq<nat>>, lq: seq<seq<nat>>, init: Outcomes)
    requires Keeps(p, q, kept) && p.Fits(Fresh(|p.deps|)) && q.Fits(Fresh(|q.deps|)) && q.Fits(init)
    requires IsLayering(p.deps, lp) && IsLayering(q.deps, lq) && RunnerShaped(p)
    requires ReplaysFrom(p, q, Final(p, lp, Fresh(|p.deps|)).outs, init)
    requires forall i | 0 <= i < |init| && init[i].Some? :: i in kept
    ensures AllOwn(q, Final(q, lq, Fresh(|q.deps|)).outs, init) <==> NoneBehindHalt(q, lq, init)
    ensures NoneBehindHalt(q, lq, init) ==> ReplaysOk(Final(q, lq, Fresh(|q.deps|)).outs, init)
  {
    hide After, Final, IsLayering, RunnerShaped, Keeps, HaltedBefore;
    var was, own := Final(p, lp, Fresh(|p.deps|)).outs, Final(q, lq, Fresh(|q.deps|)).outs;
    assert SameIds(p, q) && |p.deps| == |q.deps| by {
      KeepsShape(p, q, kept);
    }
    forall i | 0 <= i < |init| && init[i].Some?
      ensures was[i].value.value.response.Text?
      ensures exists k :: 0 <= k < |lq| && i in lq[k] && (HaltedBefore(q, lq, k) <==> own[i] == None)
                          && (own[i] != None ==> own[i] == was[i])
    {
      FreshOkShaped(p, lp, i);
      var k := HasLayer(p.deps, lp, i);
      SettledNotHalted(p, lp, k, i);
      LayerAlike(p, q, kept, lp, lq, k, i);
      SettledNotHalted(q, lq, k, i);
      if !HaltedBefore(q, lq, k) {
        KeptOutcome(p, q, kept, lp, lq, k, i);
      }
    }
    forall k, i | 0 <= k < |lq| && i in lq[k] && i < |init| && init[i].Some?
      ensures own[i] != None ==> !HaltedBefore(q, lq, k)
    {
      SettledNotHalted(q, lq, k, i);
    }
  }

  lemma KeepsShape(p: Problem, q: Problem, kept: set<nat>)
    requires Keeps(p, q, kept)
    ensures SameIds(p, q) && |p.deps| == |q.deps|
  {
  }

  /** Every task of the redraft with a halt edge is a kept one. */
  ghost predicate HaltsKept(q: Problem, kept: set<nat>) {
    forall i | 0 <= i < |q.plan.tasks| && q.plan.tasks[i].onFailure.Halt? :: i in kept
  }

  lemma SameHalt(p: Problem, q: Problem, kept: set<nat>, lp: seq<seq<nat>>, lq: seq<seq<nat>>, k: nat)
    requires Keeps(p, q, kept) && HaltsKept(q, kept) && p.Fits(Fresh(|p.deps|)) && q.Fits(Fresh(|q.deps|))
    requires IsLayering(p.deps, lp) && IsLayering(q.deps, lq) && k < |lp| && k < |lq|
    requires !HaltedBefore(p, lp, k) && !HaltedBefore(q, lq, k)
    requires HaltingFailure(q, Final(q, lq, Fresh(|q.deps|)).outs, lq[k])
    ensures HaltingFailure(p, Final(p, lp, Fresh(|p.deps|)).outs, lp[k])
  {
    hide Final, After, IsLayering, HaltedBefore, AnswersAlike, RendersAlike;
    var h :| h in lq[k] && h < |q.deps| && q.plan.tasks[h].onFailure.Halt?
             && HasFailed(Final(q, lq, Fresh(|q.deps|)).outs[h]);
    KeepsBothWays(p, q, kept);
    LayerAlike(q, p, kept, lq, lp, k, h);
    KeptOutcome(p, q, kept, lp, lq, k, h);
    assert p.plan.tasks[h].onFailure.Halt? && HasFailed(Final(p, lp, Fresh(|p.deps|)).outs[h]);
  }

  /** Then the redraft halts no earlier than the first draft did. */
  lemma {:induction false} HaltsNoEarlier(p: Problem, q: Problem, kept: set<nat>, lp: seq<seq<nat>>,
                                          lq: seq<seq<nat>>, k: nat)
    requires Keeps(p, q, kept) && HaltsKept(q, kept) && p.Fits(Fresh(|p.deps|)) && q.Fits(Fresh(|q.deps|))
    requires IsLayering(p.deps, lp) && IsLayering(q.deps, lq) && k <= |lp| && k <= |lq|
    ensures HaltedBefore(q, lq, k) ==> HaltedBefore(p, lp, k)
  {
    hide Final, IsLayering, After, HaltingFailure, Keeps, HaltsKept;
    var blank := Fresh(|p.deps|);
    KeepsShape(p, q, kept);
    if k == 0 {
      NotHaltedYet(q, lq);
    } else if !HaltedBefore(p, lp, k) {
      HaltedEarlier(p, lp, blank, k - 1, k);
      HaltsNoEarlier(p, q, kept, lp, lq, k - 1);
      HaltedHere(q, lq, k - 1);
      HaltedHere(p, lp, k - 1);
      if HaltingFailure(q, Final(q, lq, blank).outs, lq[k - 1]) {
        SameHalt(p, q, kept, lp, lq, k - 1);
      }
    }
  }

  lemma NotHaltedYet(p: Problem, layers: seq<seq<nat>>)
    requires p.Fits(Fresh(|p.deps|))
    ensures !HaltedBefore(p, layers, 0)
  {
  }

  lemma KeepsBothWays(p: Problem, q: Problem, kept: set<nat>)
    requires Keeps(p, q, kept)
    ensures Keeps(q, p, kept)
  {
    forall i | i in kept ensures AnswersAlike(q, p, i) {
      assert AnswersAlike(p, q, i);
    }
  }

  /** What a caller can check on two drafts: when every replayed task is kept, and every halt edge of the redraft is on
      a kept task, resuming with the redraft is as good as running it afresh. */
  lemma RedraftResumesWell(p: Problem, q: Problem, kept: set<nat>, lp: seq<seq<nat>>, lq: seq<seq<nat>>,
                           init: Outcomes)
    requires Keeps(p, q, kept) && HaltsKept(q, kept)
    requires p.Fits(Fresh(|p.deps|)) && q.Fits(Fresh(|q.deps|)) && q.Fits(init)
    requires IsLayering(p.deps, lp) && IsLayering(q.deps, lq) && RunnerShaped(p) && RunnerShaped(q)
    requires ReplaysFrom(p, q, Final(p, lp, Fresh(|p.deps|)).outs, init)
    requires forall i | 0 <= i < |init| && init[i].Some? :: i in kept
    ensures ResumesWell(q, lq, init)
  {
    hide After, Final, IsLayering, RunnerShaped, ResumesWell, HaltedBefore;
    forall k, i | 0 <= k < |lq| && i in lq[k] && i < |init| && init[i].Some? ensures !HaltedBefore(q, lq, k) {
      KeepsBothWays(p, q, kept);
      LayerAlike(q, p, kept, lq, lp, k, i);
      SettledNotHalted(p, lp, k, i);
      HaltsNoEarlier(p, q, kept, lp, lq, k);
    }
    KeptOwnIff(p, q, kept, lp, lq, init);
    ResumeKeepsRows(q, lq, init);
  }

  /** At any moment of any history of the first draft's attempts, overlapping and crashing as they may, resuming with a
      redraft that keeps what it replays, and its halt edges, is as good as running the redraft afresh. */
  lemma RedraftAtAnyMoment(p: Problem, q: Problem, kept: set<nat>, lp: seq<seq<nat>>, lq: seq<seq<nat>>,
                           moments: seq<Moment>, m: nat, init: Outcomes)
    requires Keeps(p, q, kept) && HaltsKept(q, kept) && UniqueIds(p.plan.tasks)
    requires p.Fits(Fresh(|p.deps|)) && q.Fits(Fresh(|q.deps|))
    requires IsLayering(p.deps, lp) && IsLayering(q.deps, lq) && RunnerShaped(p) && RunnerShaped(q)
    requires Unfolds(p, lp, moments) && m < |moments| && Resumes(q, moments[m].table, init)
    requires forall i | 0 <= i < |init| && init[i].Some? :: i in kept
    ensures q.Fits(init) && ResumesWell(q, lq, init)
  {
    hide After, Final, IsLayering, RunnerShaped, ResumesWell, Faithful, Unfolds, Keeps, HaltsKept, UniqueIds;
    KeepsShape(p, q, kept);
    TableStaysFaithful(p, lp, moments, m);
    var table := moments[m].table;
    var rows :| Lists(rows, table) && Replays(q.plan.tasks, rows, init);
    RedraftReplays(p, q, Final(p, lp, Fresh(|p.deps|)).outs, table, rows, init);
    RedraftResumesWell(p, q, kept, lp, lq, init);
  }

  /** A redraft that changes one prompt, replays the answer to the old one, and reports it as its own. */
  lemma StaleAnswer() returns (p: Problem, q: Problem, init: Outcomes)
    ensures SameIds(p, q) && p.oracle == q.oracle && p.Fits(Fresh(1)) && q.Fits(Fresh(1)) && q.Fits(init)
    ensures p.deps == q.deps && IsLayering(p.deps, [[0]]) && RunnerShaped(p) && RunnerShaped(q)
    ensures ReplaysFrom(p, q, Final(p, [[0]], Fresh(1)).outs, init)
    ensures IsOk(Final(p, [[0]], Fresh(1)).outs[0])
            && Replays(q.plan.tasks, [RowOf(p, 0, Final(p, [[0]], Fresh(1)).outs[0].value)], init)
    ensures Reported(q, Final(q, [[0]], init).outs[0]).value.response == Text("go")
    ensures Reported(q, Final(q, [[0]], Fresh(1)).outs[0]).value.response == Text("stop")
  {
    var oracle := Oracle((_, prompt, _) => Value(Text(prompt), Absent, Absent, Absent, ""), (_, _) => None, _ => "");
    var words := Wording("", "", "", "", "", "");
    var first, second := PlanTaskSpec("a", "Explore", "go", [], Skip, None),
      PlanTaskSpec("a", "Explore", "stop", [], Skip, None);
    p := Problem(PlanSpec(None, [first]), [[]], oracle, words);
    q := Problem(PlanSpec(None, [second]), [[]], oracle, words);
    var go, stop := Value(Text("go"), Absent, Absent, Absent, ""), Value(Text("stop"), Absent, Absent, Absent, "");
    OneTaskRun(p, go, [Started(0, "go", 1), Saved(0, Outcome(Ok, go))]);
    OneTaskRun(q, stop, [Started(0, "stop", 1), Saved(0, Outcome(Ok, stop))]);
    init := [Some(ReplayedOutcome(Some("go")))];
    assert Target(q.plan.tasks, RowOf(p, 0, Outcome(Ok, go))) == 0;
    ReplayStands(q, [[0]], init, 1, 0);
  }
}
