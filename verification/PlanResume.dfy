/** Checkpoints, crashes and resumption. */
module PlanResume {
  import opened Prelude
  import opened DependencyGraph
  import opened PlanTask
  import opened PlanRun
  import opened PlanProperties

  /** One stored checkpoint of a plan's task; a missing text is stored as no text. */
  datatype Row = Row(taskId: string, agent: string, status: Status, response: Option<string>, error: Option<string>)

  function TextOf(f: Field): Option<string> {
    if f.Text? then Some(f.text) else None
  }

  function RowOf(p: Problem, i: nat, o: Outcome): Row
    requires i < |p.plan.tasks|
  {
    Row(p.plan.tasks[i].id, p.plan.tasks[i].agent, o.status, TextOf(o.value.response), TextOf(o.value.error))
  }

  /** What one event does to the checkpoint table: a checkpoint replaces the row of its task. */
  ghost function Write(p: Problem, table: map<string, Row>, e: Event): map<string, Row> {
    if e.Saved? && e.task < |p.plan.tasks|
    then table[p.plan.tasks[e.task].id := RowOf(p, e.task, e.outcome)] else table
  }

  /** The checkpoint table after `log`: one row per task id, the newest replacing older ones. */
  ghost function Store(p: Problem, log: seq<Event>): map<string, Row> {
    if log == [] then map[] else Write(p, Store(p, log[..|log| - 1]), log[|log| - 1])
  }

  /** `rows` lists the table, in any order. */
  ghost predicate Lists(rows: seq<Row>, store: map<string, Row>) {
    && (forall r | r in rows :: r.taskId in store && store[r.taskId] == r)
    && (forall id | id in store :: store[id] in rows)
  }

  function ReplayedOutcome(response: Option<string>): Outcome {
    Outcome(Ok, Value(Text(if response.Some? then response.value else ""), Absent, Absent, Absent, ""))
  }

  /** Which position a stored row settles, if any: an ok row's id and agent must still name one task of the plan. */
  function Target(tasks: seq<PlanTaskSpec>, r: Row): (i: nat)
    ensures i <= |tasks|
  {
    var i := IndexOf(tasks, r.taskId);
    if r.status.Ok? && i < |tasks| && tasks[i].agent == r.agent then i else |tasks|
  }

  /** What the rows settle: task `i` has an outcome exactly when some row targets it, and it is that row's. */
  ghost predicate Replays(tasks: seq<PlanTaskSpec>, rows: seq<Row>, init: Outcomes) {
    && |init| == |tasks|
    && (forall i | 0 <= i < |tasks| && init[i].Some? ::
         exists r :: r in rows && Target(tasks, r) == i && init[i] == Some(ReplayedOutcome(r.response)))
    && (forall r | r in rows && Target(tasks, r) < |tasks| :: init[Target(tasks, r)].Some?)
  }

  /** Settles tasks from stored rows before the run starts. */
  method ReplayCheckpoints(plan: PlanSpec, rows: seq<Row>) returns (init: Outcomes)
    ensures Replays(plan.tasks, rows, init)
    ensures |init| == |plan.tasks|
    ensures forall i | 0 <= i < |init| && init[i].Some? ::
              exists r :: r in rows && r.status == Ok && r.taskId == plan.tasks[i].id && r.agent == plan.tasks[i].agent
                && init[i].value.status == Ok && init[i].value.value.error == Absent
                && init[i].value.value.response == Text(if r.response.Some? then r.response.value else "")
    ensures forall i, r | 0 <= i < |init| && r in rows && r.status == Ok && r.taskId == plan.tasks[i].id
              && r.agent == plan.tasks[i].agent && (forall j | 0 <= j < i :: plan.tasks[j].id != r.taskId) ::
              init[i].Some?
  {
    var n := |plan.tasks|;
    init := seq(n, _ => None);
    for k := 0 to |rows|
      invariant Replays(plan.tasks, rows[..k], init)
    {
      var t := rows[k];
      assert rows[..k + 1] == rows[..k] + [t];
      if t.status != Ok {
        continue;
      }
      var i := IndexOf(plan.tasks, t.taskId);
      if i == n || plan.tasks[i].agent != t.agent {
        continue;
      }
      init := init[i := Some(ReplayedOutcome(t.response))];
    }
    assert rows[..|rows|] == rows;
    ReplaysRead(plan.tasks, rows, init);
  }

  lemma ReplaysRead(tasks: seq<PlanTaskSpec>, rows: seq<Row>, init: Outcomes)
    requires Replays(tasks, rows, init)
    ensures forall i | 0 <= i < |init| && init[i].Some? ::
              exists r :: r in rows && r.status == Ok && r.taskId == tasks[i].id && r.agent == tasks[i].agent
                && init[i].value.status == Ok && init[i].value.value.error == Absent
                && init[i].value.value.response == Text(if r.response.Some? then r.response.value else "")
    ensures forall i, r | 0 <= i < |init| && r in rows && r.status == Ok && r.taskId == tasks[i].id
              && r.agent == tasks[i].agent && (forall j | 0 <= j < i :: tasks[j].id != r.taskId) :: init[i].Some?
  {
    forall i, r | 0 <= i < |init| && r in rows && r.status == Ok && r.taskId == tasks[i].id
      && r.agent == tasks[i].agent && (forall j | 0 <= j < i :: tasks[j].id != r.taskId)
      ensures init[i].Some?
    {
      assert IndexOf(tasks, r.taskId) == i;
      assert Target(tasks, r) == i;
    }
  }

  // ----- Resuming from a set of replayed tasks -----

  /** `init` replays some of the ok outcomes of `final`, each from the text stored for it. */
  ghost predicate ReplaysOk(final: Outcomes, init: Outcomes) {
    && |init| == |final|
    && forall i | 0 <= i < |init| && init[i].Some? ::
         IsOk(final[i]) && init[i] == Some(ReplayedOutcome(TextOf(final[i].value.value.response)))
  }

  /** Every replayed outcome had a text response, so its stored response is not missing. */
  ghost predicate TextKept(final: Outcomes, init: Outcomes) {
    |init| == |final| &&
    forall i | 0 <= i < |init| && init[i].Some? && final[i].Some? :: final[i].value.value.response.Text?
  }

  /** Every replayed outcome was nothing but a text response, as far as the report shows. */
  ghost predicate WholeKept(final: Outcomes, init: Outcomes) {
    |init| == |final| &&
    forall i | 0 <= i < |init| && init[i].Some? && final[i].Some? ::
      var v := final[i].value.value;
      v.response.Text? && v.artifactPath.Absent? && v.summary.Absent?
  }

  ghost predicate SameReport(p: Problem, a: Option<Outcome>, b: Option<Outcome>) {
    && Reported(p, a).status == Reported(p, b).status
    && Reported(p, a).value.response == Reported(p, b).value.response
  }

  /** Every task is reported with the same status and response. */
  ghost predicate SameReports(p: Problem, a: Outcomes, b: Outcomes) {
    |a| == |b| && forall i | 0 <= i < |a| :: SameReport(p, a[i], b[i])
  }

  ghost predicate SameRow(p: Problem, i: nat, a: Option<Outcome>, b: Option<Outcome>)
    requires i < |p.plan.tasks|
  {
    RowFor(p, i, Reported(p, a)) == RowFor(p, i, Reported(p, b))
  }

  /** The two reports have the same rows. */
  ghost predicate SameRows(p: Problem, a: Outcomes, b: Outcomes)
    requires |a| == |p.plan.tasks|
  {
    |a| == |b| && forall i | 0 <= i < |a| :: SameRow(p, i, a[i], b[i])
  }

  /** After `k` layers the resumed run has replayed outcomes where it replays, and the fresh run's elsewhere. */
  ghost predicate Abreast(p: Problem, layers: seq<seq<nat>>, blank: Outcomes, init: Outcomes, k: nat)
    requires p.Fits(blank) && p.Fits(init) && k <= |layers|
  {
    var a, b := After(p, layers, blank, k), After(p, layers, init, k);
    && a.halted == b.halted
    && forall i | 0 <= i < |init| :: b.outs[i] == if init[i].Some? then init[i] else a.outs[i]
  }

  lemma ReplayLooksAlike(p: Problem, final: Outcomes, init: Outcomes, i: nat)
    requires ReplaysOk(final, init) && TextKept(final, init) && i < |init| && init[i].Some?
    ensures LooksAlike(p, init[i], final[i])
  {
  }

  lemma SameResult(p: Problem, layers: seq<seq<nat>>, init: Outcomes, k: nat, i: nat)
    requires p.Fits(Fresh(|p.deps|)) && p.Fits(init) && IsLayering(p.deps, layers)
    requires ReplaysOk(Final(p, layers, Fresh(|p.deps|)).outs, init)
    requires TextKept(Final(p, layers, Fresh(|p.deps|)).outs, init)
    requires k < |layers| && i in layers[k] && i < |init| && Abreast(p, layers, Fresh(|p.deps|), init, k)
    ensures TaskResult(p, After(p, layers, Fresh(|p.deps|), k).outs, i) ==
            TaskResult(p, After(p, layers, init, k).outs, i)
  {
    hide After, Settled, HaltHit, IsLayering, TaskResult, Final;
    var blank := Fresh(|p.deps|);
    var a, b := After(p, layers, blank, k).outs, After(p, layers, init, k).outs;
    DependenciesFinal(p, layers, blank, k, i);
    forall d | d in p.deps[i] ensures LooksAlike(p, a[d], b[d]) {
      if init[d].Some? {
        ReplayLooksAlike(p, Final(p, layers, blank).outs, init, d);
      }
    }
    SameView(p, a, b, i);
  }

  lemma NextAbreast(p: Problem, layers: seq<seq<nat>>, init: Outcomes, k: nat)
    requires p.Fits(Fresh(|p.deps|)) && p.Fits(init) && IsLayering(p.deps, layers)
    requires ReplaysOk(Final(p, layers, Fresh(|p.deps|)).outs, init)
    requires TextKept(Final(p, layers, Fresh(|p.deps|)).outs, init)
    requires k < |layers| && Abreast(p, layers, Fresh(|p.deps|), init, k)
    ensures Abreast(p, layers, Fresh(|p.deps|), init, k + 1)
  {
    hide IsLayering, TaskResult, Final;
    var blank := Fresh(|p.deps|);
    var a, b := After(p, layers, blank, k), After(p, layers, init, k);
    forall i | i in layers[k] && i < |init|
      ensures a.outs[i].None? && (init[i].None? ==> TaskResult(p, a.outs, i) == TaskResult(p, b.outs, i))
      ensures !a.halted && init[i].Some? ==> !TaskResult(p, a.outs, i).status.Failed?
    {
      OnlyItsLayer(p, layers, blank, k, i);
      SameResult(p, layers, init, k, i);
      LayerStep(p, layers, blank, k, i);
    }
    if !a.halted {
      LayersHaltAlike(p, a.outs, b.outs, layers[k], init);
    }
    forall i | 0 <= i < |init|
      ensures After(p, layers, init, k + 1).outs[i] ==
        if init[i].Some? then init[i] else After(p, layers, blank, k + 1).outs[i]
    {
      LayerStep(p, layers, blank, k, i);
      LayerStep(p, layers, init, k, i);
    }
  }

  lemma LayersHaltAlike(p: Problem, a: Outcomes, b: Outcomes, layer: seq<nat>, init: Outcomes)
    requires p.Fits(a) && p.Fits(b) && p.Fits(init)
    requires forall i | 0 <= i < |init| :: b[i] == if init[i].Some? then init[i] else a[i]
    requires forall i | i in layer && i < |init| ::
               && a[i].None?
               && (if init[i].Some? then !TaskResult(p, a, i).status.Failed?
                   else TaskResult(p, a, i) == TaskResult(p, b, i))
    ensures HaltHit(p, a, Elems(layer)) <==> HaltHit(p, b, Elems(layer))
  {
    hide TaskResult;
    forall i | 0 <= i < |init| && i in Elems(layer)
      ensures (a[i].None? && TaskResult(p, a, i).status.Failed?) <==> (b[i].None? && TaskResult(p, b, i).status.Failed?)
    {
      assert i in layer;
    }
  }

  lemma {:induction false} StaysAbreast(p: Problem, layers: seq<seq<nat>>, init: Outcomes, k: nat)
    requires p.Fits(Fresh(|p.deps|)) && p.Fits(init) && IsLayering(p.deps, layers) && k <= |layers|
    requires ReplaysOk(Final(p, layers, Fresh(|p.deps|)).outs, init)
    requires TextKept(Final(p, layers, Fresh(|p.deps|)).outs, init)
    ensures Abreast(p, layers, Fresh(|p.deps|), init, k)
  {
    hide IsLayering, TaskResult, Final, After, Abreast;
    if k == 0 {
      StartAbreast(p, layers, init);
    } else {
      StaysAbreast(p, layers, init, k - 1);
      NextAbreast(p, layers, init, k - 1);
    }
  }

  lemma StartAbreast(p: Problem, layers: seq<seq<nat>>, init: Outcomes)
    requires p.Fits(Fresh(|p.deps|)) && p.Fits(init)
    ensures Abreast(p, layers, Fresh(|p.deps|), init, 0)
  {
  }

  lemma {:induction false} ReplayStands(p: Problem, layers: seq<seq<nat>>, init: Outcomes, k: nat, i: nat)
    requires p.Fits(init) && k <= |layers| && i < |init| && init[i].Some?
    ensures After(p, layers, init, k).outs[i] == init[i]
  {
    hide Settled, HaltHit, TaskResult, History, Record;
    if k > 0 {
      ReplayStands(p, layers, init, k - 1, i);
      LayerStep(p, layers, init, k - 1, i);
    }
  }

  lemma OkHasNoError(p: Problem, layers: seq<seq<nat>>, i: nat)
    requires p.Fits(Fresh(|p.deps|)) && IsLayering(p.deps, layers) && i < |p.deps|
    ensures var final := Final(p, layers, Fresh(|p.deps|)).outs;
            IsOk(final[i]) ==> final[i].value.value.error.Absent?
  {
    hide After, IsLayering, Final;
    var k := HasLayer(p.deps, layers, i);
    FinalEquation(p, layers, Fresh(|p.deps|), k, i);
  }

  /** Replaying any of a fresh run's ok tasks gives every task the status and response of the uninterrupted run exactly
      when each replayed task had a text response, and then all other tasks and the halt are the same as well. It gives
      every task the same row exactly when, besides, no replayed task had an artifact or a summary. */
  lemma ResumeTransparent(p: Problem, layers: seq<seq<nat>>, init: Outcomes)
    requires p.Fits(Fresh(|p.deps|)) && p.Fits(init) && IsLayering(p.deps, layers)
    requires ReplaysOk(Final(p, layers, Fresh(|p.deps|)).outs, init)
    ensures var a, b := Final(p, layers, Fresh(|p.deps|)), Final(p, layers, init);
            && (TextKept(a.outs, init) <==> SameReports(p, a.outs, b.outs))
            && (WholeKept(a.outs, init) <==> SameRows(p, a.outs, b.outs))
    ensures var a, b := Final(p, layers, Fresh(|p.deps|)), Final(p, layers, init);
            TextKept(a.outs, init) ==>
              a.halted == b.halted && forall i | 0 <= i < |init| && init[i].None? :: a.outs[i] == b.outs[i]
  {
    hide IsLayering, TaskResult, After, Final, SameRow, SameReport;
    var a, b := Final(p, layers, Fresh(|p.deps|)), Final(p, layers, init);
    if TextKept(a.outs, init) {
      StaysAbreast(p, layers, init, |layers|);
      AbreastAtEnd(p, layers, init);
    }
    forall i | 0 <= i < |init|
      ensures init[i].Some? ==>
        && (SameReport(p, a.outs[i], b.outs[i]) <==> a.outs[i].value.value.response.Text?)
        && (SameRow(p, i, a.outs[i], b.outs[i]) <==>
              a.outs[i].value.value.response.Text? && a.outs[i].value.value.artifactPath.Absent?
              && a.outs[i].value.value.summary.Absent?)
      ensures a.outs[i] == b.outs[i] ==> SameReport(p, a.outs[i], b.outs[i]) && SameRow(p, i, a.outs[i], b.outs[i])
    {
      OkHasNoError(p, layers, i);
      if init[i].Some? {
        ReplayStands(p, layers, init, |layers|, i);
        FinalIsLast(p, layers, init);
      }
      RowAndReport(p, i, a.outs[i], b.outs[i]);
    }
  }

  lemma FinalIsLast(p: Problem, layers: seq<seq<nat>>, init: Outcomes)
    requires p.Fits(init)
    ensures Final(p, layers, init) == After(p, layers, init, |layers|)
  {
  }

  lemma AbreastAtEnd(p: Problem, layers: seq<seq<nat>>, init: Outcomes)
    requires p.Fits(Fresh(|p.deps|)) && p.Fits(init) && Abreast(p, layers, Fresh(|p.deps|), init, |layers|)
    ensures var a, b := Final(p, layers, Fresh(|p.deps|)), Final(p, layers, init);
            a.halted == b.halted && forall i | 0 <= i < |init| && init[i].None? :: a.outs[i] == b.outs[i]
  {
  }

  /** How an outcome and its replay compare in a report. */
  lemma RowAndReport(p: Problem, i: nat, a: Option<Outcome>, b: Option<Outcome>)
    requires i < |p.plan.tasks|
    ensures a == b ==> SameReport(p, a, b) && SameRow(p, i, a, b)
    ensures IsOk(a) && a.value.value.error.Absent? && b == Some(ReplayedOutcome(TextOf(a.value.value.response))) ==>
              var v := a.value.value;
              && (SameReport(p, a, b) <==> v.response.Text?)
              && (SameRow(p, i, a, b) <==> v.response.Text? && v.artifactPath.Absent? && v.summary.Absent?)
  {
  }

  // ----- The sub-agent runner of the program -----

  /** What the runner returns when it does not return an error: a text response, and an artifact and a summary exactly
      for a task that declares an artifact. */
  ghost predicate RunnerShaped(p: Problem) {
    forall i: nat, prompt, attempt | i < |p.plan.tasks| && p.oracle.run(i, prompt, attempt).error.Absent? ::
      ShapedFor(p.plan.tasks[i], p.oracle.run(i, prompt, attempt))
  }

  ghost predicate ShapedFor(task: PlanTaskSpec, v: Value) {
    && v.response.Text?
    && v.artifactPath == (if task.artifact.Some? then Text(task.artifact.value) else Absent)
    && (v.summary.Text? <==> task.artifact.Some?) && (v.summary.Absent? <==> task.artifact.None?)
  }

  /** How a sub-turn came out: stopped early, or with a final text that may have been judged no answer. */
  datatype SubTurn = Stopped(error: string) | Finished(text: string, judged: Option<string>, rest: string)

  const ARTIFACT_SUMMARY_MAX_CHARS: nat := 4000

  function BoundedSummary(words: Wording, text: string): string {
    if |text| > ARTIFACT_SUMMARY_MAX_CHARS then text[..ARTIFACT_SUMMARY_MAX_CHARS] + words.truncated else text
  }

  /** What the runner makes of a sub-turn. */
  function RunnerValue(words: Wording, task: PlanTaskSpec, turn: SubTurn): Value {
    match turn
    case Stopped(error) => Value(Absent, Text(error), Absent, Absent, "")
    case Finished(text, judged, rest) =>
      if judged.Some? then Value(Absent, Text(judged.value), Absent, Absent, "")
      else if task.artifact.Some?
      then Value(Text(text), Absent, Text(task.artifact.value), Text(BoundedSummary(words, text)), rest)
      else Value(Text(text), Absent, Absent, Absent, rest)
  }

  /** The answer of a sub-turn is its text, with the declared artifact and the first 4000 characters for a summary; a
      sub-turn without an answer is only an error. */
  lemma RunnerAnswers(words: Wording, task: PlanTaskSpec, text: string, rest: string, why: string)
    ensures var v := RunnerValue(words, task, Finished(text, None, rest));
            && v.response == Text(text) && v.error == Absent && v.rest == rest
            && (task.artifact.Some? ==> v.artifactPath == Text(task.artifact.value) && v.summary.Text?)
            && (task.artifact.Some? && |text| <= 4000 ==> v.summary == Text(text))
            && (task.artifact.Some? && |text| > 4000 ==> v.summary == Text(text[..4000] + words.truncated))
            && (task.artifact.None? ==> v.artifactPath == Absent && v.summary == Absent)
    ensures forall v | v == RunnerValue(words, task, Stopped(why))
                       || v == RunnerValue(words, task, Finished(text, Some(why), rest)) ::
              v.error == Text(why) && v.response == Absent && v.artifactPath == Absent && v.summary == Absent
  {
  }

  lemma RunnerIsShaped(p: Problem, turns: (nat, string, nat) -> SubTurn)
    requires forall i: nat, prompt, attempt | i < |p.plan.tasks| ::
               p.oracle.run(i, prompt, attempt) == RunnerValue(p.words, p.plan.tasks[i], turns(i, prompt, attempt))
    ensures RunnerShaped(p)
  {
    hide BoundedSummary;
  }

  lemma FreshOkShaped(p: Problem, layers: seq<seq<nat>>, i: nat)
    requires p.Fits(Fresh(|p.deps|)) && IsLayering(p.deps, layers) && RunnerShaped(p) && i < |p.deps|
    ensures var final := Final(p, layers, Fresh(|p.deps|)).outs;
            IsOk(final[i]) ==> ShapedFor(p.plan.tasks[i], final[i].value.value)
  {
    hide After, IsLayering, Final, ShapedFor;
    var k := HasLayer(p.deps, layers, i);
    FinalEquation(p, layers, Fresh(|p.deps|), k, i);
  }

  /** No replayed task declares an artifact. */
  ghost predicate NoArtifactReplayed(p: Problem, init: Outcomes) {
    |init| == |p.plan.tasks| && forall i | 0 <= i < |init| && init[i].Some? :: p.plan.tasks[i].artifact.None?
  }

  /** The resumed run reports every task's status and response as the run that was never interrupted does, halts if and
      only if it does, and its rows are all the same exactly when no replayed task declares an artifact. */
  ghost predicate ResumesWell(p: Problem, layers: seq<seq<nat>>, init: Outcomes)
    requires p.Fits(Fresh(|p.deps|)) && p.Fits(init)
  {
    var a, b := Final(p, layers, Fresh(|p.deps|)), Final(p, layers, init);
    && a.halted == b.halted && SameReports(p, a.outs, b.outs)
    && (forall i | 0 <= i < |init| && init[i].None? :: a.outs[i] == b.outs[i])
    && (SameRows(p, a.outs, b.outs) <==> NoArtifactReplayed(p, init))
  }

  lemma ResumeKeepsRows(p: Problem, layers: seq<seq<nat>>, init: Outcomes)
    requires p.Fits(Fresh(|p.deps|)) && p.Fits(init) && IsLayering(p.deps, layers) && RunnerShaped(p)
    requires ReplaysOk(Final(p, layers, Fresh(|p.deps|)).outs, init)
    ensures ResumesWell(p, layers, init)
  {
    hide IsLayering, Final, RunnerShaped, SameReport, SameRow;
    var final := Final(p, layers, Fresh(|p.deps|)).outs;
    forall i | 0 <= i < |init| && init[i].Some?
      ensures final[i].value.value.response.Text?
      ensures final[i].value.value.artifactPath.Absent? <==> p.plan.tasks[i].artifact.None?
      ensures final[i].value.value.summary.Absent? <==> p.plan.tasks[i].artifact.None?
    {
      FreshOkShaped(p, layers, i);
    }
    ResumeTransparent(p, layers, init);
  }

  /** What a replayed task's row loses is its artifact and its summary, and nothing else. */
  lemma ReplayedRow(p: Problem, layers: seq<seq<nat>>, init: Outcomes, i: nat)
    requires p.Fits(Fresh(|p.deps|)) && p.Fits(init) && IsLayering(p.deps, layers) && RunnerShaped(p)
    requires ReplaysOk(Final(p, layers, Fresh(|p.deps|)).outs, init) && i < |init| && init[i].Some?
    ensures var a, b := Final(p, layers, Fresh(|p.deps|)).outs[i], Final(p, layers, init).outs[i];
            RowFor(p, i, Reported(p, b)) == RowFor(p, i, Reported(p, a)).(artifactPath := Absent, summary := Absent)
  {
    hide IsLayering, Final, After, RunnerShaped;
    FreshOkShaped(p, layers, i);
    OkHasNoError(p, layers, i);
    ReplayStands(p, layers, init, |layers|, i);
    FinalIsLast(p, layers, init);
  }

  // ----- Crashing at any moment -----

  ghost function LastSaved(events: seq<Event>): Option<Outcome> {
    if events == [] then None
    else if events[|events| - 1].Saved? then Some(events[|events| - 1].outcome)
    else LastSaved(events[..|events| - 1])
  }

  /** The table holds, for each task, the newest checkpoint in its own trace. */
  lemma {:induction false} StoreHolds(p: Problem, log: seq<Event>, i: nat)
    requires UniqueIds(p.plan.tasks) && i < |p.plan.tasks|
    ensures var id, saved := p.plan.tasks[i].id, LastSaved(EventsOf(log, i));
            if saved.None? then id !in Store(p, log)
            else id in Store(p, log) && Store(p, log)[id] == RowOf(p, i, saved.value)
    ensures var id, saved := p.plan.tasks[i].id, LastSaved(EventsOf(log, i));
            saved.Some? ==>
              var row, v := Store(p, log)[id], saved.value.value;
              && row.taskId == id && row.agent == p.plan.tasks[i].agent && row.status == saved.value.status
              && row.response == (if v.response.Text? then Some(v.response.text) else None)
              && row.error == (if v.error.Text? then Some(v.error.text) else None)
  {
    if log != [] {
      var early, e := log[..|log| - 1], log[|log| - 1];
      StoreHolds(p, early, i);
      if e.task == i {
        assert EventsOf(log, i) == EventsOf(early, i) + [e];
      } else {
        assert EventsOf(log, i) == EventsOf(early, i);
        assert e.task < |p.plan.tasks| ==> p.plan.tasks[e.task].id != p.plan.tasks[i].id;
      }
    }
  }

  lemma {:induction false} LastSavedAt(events: seq<Event>) returns (q: nat)
    requires LastSaved(events).Some?
    ensures q < |events| && events[q] == Saved(events[q].task, LastSaved(events).value)
  {
    if events[|events| - 1].Saved? {
      q := |events| - 1;
    } else {
      q := LastSavedAt(events[..|events| - 1]);
    }
  }

  /** Whenever the table of a run says ok for some task, that is its final outcome, and not a replayed one. */
  lemma OkRowIsFinal(p: Problem, layers: seq<seq<nat>>, init: Outcomes, log: seq<Event>, cut: nat, i: nat)
    requires p.Fits(init) && IsRunLog(p, layers, init, log) && cut <= |log| && i < |p.deps|
    requires UniqueIds(p.plan.tasks)
    ensures var id, store := p.plan.tasks[i].id, Store(p, log[..cut]);
            var final := Final(p, layers, init).outs;
            id in store && store[id].status.Ok? ==>
              init[i].None? && IsOk(final[i]) && store[id] == RowOf(p, i, final[i].value)
  {
    hide After, Record;
    var early, all := EventsOf(log[..cut], i), EventsOf(log, i);
    StoreHolds(p, log[..cut], i);
    RecordShape(p, layers, init, |layers|, i);
    EventsOfPrefix(log, cut, i);
    if LastSaved(early).Some? && LastSaved(early).value.status.Ok? {
      var q := LastSavedAt(early);
      assert all[q] == early[q];
    }
  }

  /** When a run is over, its table has a row for exactly the tasks it settled itself, and each row is that of the
      final outcome. */
  lemma CheckpointsMatchOutcomes(p: Problem, layers: seq<seq<nat>>, init: Outcomes, log: seq<Event>, i: nat)
    requires p.Fits(init) && IsRunLog(p, layers, init, log) && UniqueIds(p.plan.tasks) && i < |p.deps|
    ensures var id, store, final := p.plan.tasks[i].id, Store(p, log), Final(p, layers, init).outs;
            && (id in store <==> init[i].None? && final[i].Some?)
            && (id in store ==> store[id] == RowOf(p, i, final[i].value))
  {
    hide After, Record;
    StoreHolds(p, log, i);
    RecordShape(p, layers, init, |layers|, i);
  }

  lemma {:induction false} StoreIds(p: Problem, log: seq<Event>)
    ensures forall id | id in Store(p, log) :: exists i :: 0 <= i < |p.plan.tasks| && p.plan.tasks[i].id == id
  {
    if log != [] {
      StoreIds(p, log[..|log| - 1]);
    }
  }

  ghost predicate RowOfFinal(p: Problem, final: Outcomes, id: string, row: Row)
    requires p.Fits(final)
  {
    exists i :: 0 <= i < |final| && p.plan.tasks[i].id == id && IsOk(final[i]) && row == RowOf(p, i, final[i].value)
  }

  /** Every ok row of the table is the row of some task's ok final outcome. */
  ghost predicate Faithful(p: Problem, final: Outcomes, store: map<string, Row>)
    requires p.Fits(final)
  {
    forall id | id in store && store[id].status.Ok? ::
      RowOfFinal(p, final, id, store[id])
  }

  lemma CrashLeavesFaithful(p: Problem, layers: seq<seq<nat>>, init: Outcomes, log: seq<Event>, cut: nat)
    requires p.Fits(init) && IsRunLog(p, layers, init, log) && cut <= |log| && UniqueIds(p.plan.tasks)
    ensures Faithful(p, Final(p, layers, init).outs, Store(p, log[..cut]))
  {
    hide After, IsRunLog, Final, Store;
    StoreIds(p, log[..cut]);
    var store := Store(p, log[..cut]);
    forall id | id in store && store[id].status.Ok?
      ensures var final := Final(p, layers, init).outs;
              RowOfFinal(p, final, id, store[id])
    {
      var i :| 0 <= i < |p.plan.tasks| && p.plan.tasks[i].id == id;
      OkRowIsFinal(p, layers, init, log, cut, i);
    }
  }

  /** Rows read back from a faithful table replay ok final outcomes, with their text unless the row lost it. */
  lemma FaithfulReplaysOk(p: Problem, final: Outcomes, store: map<string, Row>, rows: seq<Row>, init: Outcomes)
    requires p.Fits(final) && Faithful(p, final, store)
    requires UniqueIds(p.plan.tasks) && Lists(rows, store) && Replays(p.plan.tasks, rows, init)
    ensures ReplaysOk(final, init)
    ensures TextKept(final, init) <==> forall r | r in rows && r.status.Ok? :: r.response.Some?
  {
    forall r | r in rows && r.status.Ok?
      ensures var i := Target(p.plan.tasks, r); i < |final| && IsOk(final[i]) && r == RowOf(p, i, final[i].value)
    {
      var i :| 0 <= i < |final| && p.plan.tasks[i].id == r.taskId && IsOk(final[i]) && r == RowOf(p, i, final[i].value);
      assert IndexOf(p.plan.tasks, r.taskId) == i;
    }
    forall i | 0 <= i < |init| && init[i].Some?
      ensures IsOk(final[i]) && init[i] == Some(ReplayedOutcome(TextOf(final[i].value.value.response)))
      ensures exists r :: r in rows && r.status.Ok? && r.response == TextOf(final[i].value.value.response)
    {
      var r :| r in rows && Target(p.plan.tasks, r) == i && init[i] == Some(ReplayedOutcome(r.response));
      assert r.status.Ok?;
    }
  }

  /** A fresh run that crashes after any prefix of its log and is resumed from the table reports, for every task, the
      status and response of the run that was not interrupted, exactly when no ok row lost its response. With the
      program's runner none does, and the rows are all the same exactly when no replayed task declares an artifact. */
  lemma CrashAndResume(p: Problem, layers: seq<seq<nat>>, log: seq<Event>, cut: nat, rows: seq<Row>, init: Outcomes)
    requires p.Fits(Fresh(|p.deps|)) && IsLayering(p.deps, layers) && IsRunLog(p, layers, Fresh(|p.deps|), log)
    requires cut <= |log| && UniqueIds(p.plan.tasks)
    requires Lists(rows, Store(p, log[..cut])) && Replays(p.plan.tasks, rows, init)
    ensures (forall r | r in rows && r.status.Ok? :: r.response.Some?) <==>
            SameReports(p, Final(p, layers, Fresh(|p.deps|)).outs, Final(p, layers, init).outs)
    ensures RunnerShaped(p) ==> ResumesWell(p, layers, init)
  {
    hide After, IsRunLog, Final, Store, SameReports, SameRows, IsLayering, RunnerShaped, ResumesWell;
    CrashLeavesFaithful(p, layers, Fresh(|p.deps|), log, cut);
    FaithfulReplaysOk(p, Final(p, layers, Fresh(|p.deps|)).outs, Store(p, log[..cut]), rows, init);
    ResumeTransparent(p, layers, init);
    if RunnerShaped(p) {
      ResumeKeepsRows(p, layers, init);
    }
  }

  /** A plan of one task with an artifact, crashed after its last checkpoint: resumed, it is reported without them. */
  lemma ArtifactLost() returns (p: Problem, log: seq<Event>, row: Row, init: Outcomes)
    ensures |p.plan.tasks| == 1 && p.Fits(Fresh(1)) && IsLayering(p.deps, [[0]]) && RunnerShaped(p)
    ensures IsRunLog(p, [[0]], Fresh(1), log)
    ensures Lists([row], Store(p, log)) && Replays(p.plan.tasks, [row], init) && p.Fits(init)
    ensures var whole := RowFor(p, 0, Reported(p, Final(p, [[0]], Fresh(1)).outs[0]));
            whole.status.Ok? && whole.artifactPath == Text("out.md") && whole.summary == Text("done")
    ensures var resumed := RowFor(p, 0, Reported(p, Final(p, [[0]], init).outs[0]));
            resumed.status.Ok? && resumed.artifactPath.Absent? && resumed.summary.Absent?
  {
    var value := Value(Text("done"), Absent, Text("out.md"), Text("done"), "");
    var task := PlanTaskSpec("a", "Junior", "go", [], Skip, Some("out.md"));
    p := Problem(PlanSpec(None, [task]), [[]], Oracle((_, _, _) => value, (_, _) => None, _ => ""),
                 Wording("", "", "", "", "", ""));
    log := [Started(0, "go", 1), Saved(0, Outcome(Ok, value))];
    row := Row("a", "Junior", Ok, Some("done"), None);
    init := [Some(ReplayedOutcome(Some("done")))];
    OneTaskRun(p, value, log);
    OneTaskStored(p, log, row, init);
    ReplayStands(p, [[0]], init, 1, 0);
  }

  lemma OneTaskRun(p: Problem, value: Value, log: seq<Event>)
    requires |p.plan.tasks| == 1 && p.deps == [[]] && value.error.Absent?
    requires p.oracle.validate(0, p.plan.tasks[0].prompt) == None
    requires p.oracle.run(0, p.plan.tasks[0].prompt, 1) == value
    requires log == [Started(0, p.plan.tasks[0].prompt, 1), Saved(0, Outcome(Ok, value))]
    ensures p.Fits(Fresh(1)) && IsLayering(p.deps, [[0]])
    ensures IsRunLog(p, [[0]], Fresh(1), log)
    ensures Final(p, [[0]], Fresh(1)).outs == [Some(Outcome(Ok, value))]
  {
    var blank := Fresh(1);
    assert Within(p.deps, 1) == {0} && Below(1) == {0} && Elems([0]) == {0};
    OneTaskSettled(p, value, log);
    OneTaskEvents(log);
    LayerStep(p, [[0]], blank, 0, 0);
    assert After(p, [[0]], blank, 0) == Progress(blank, false);
  }

  lemma OneTaskSettled(p: Problem, value: Value, log: seq<Event>)
    requires |p.plan.tasks| == 1 && p.deps == [[]] && value.error.Absent? && p.Fits(Fresh(1))
    requires p.oracle.validate(0, p.plan.tasks[0].prompt) == None
    requires p.oracle.run(0, p.plan.tasks[0].prompt, 1) == value
    requires log == [Started(0, p.plan.tasks[0].prompt, 1), Saved(0, Outcome(Ok, value))]
    ensures History(p, Fresh(1), 0) == log && TaskResult(p, Fresh(1), 0) == Outcome(Ok, value)
  {
    var blank := Fresh(1);
    assert Upstream(p, blank, 0) == [] && Prompt(p, blank, 0) == p.plan.tasks[0].prompt;
  }

  lemma OneTaskEvents(log: seq<Event>)
    requires |log| == 2 && log[0].task == 0 && log[1].task == 0
    ensures forall i: nat :: EventsOf(log, i) == if i == 0 then log else []
  {
    assert log == [log[0]] + [log[1]];
    forall i: nat ensures EventsOf(log, i) == if i == 0 then log else [] {
      EventsOfAppend([log[0]], [log[1]], i);
    }
  }

  lemma OneTaskStored(p: Problem, log: seq<Event>, row: Row, init: Outcomes)
    requires |p.plan.tasks| == 1 && |log| == 2 && log[0].Started? && log[1].Saved? && log[1].task == 0
    requires row == RowOf(p, 0, log[1].outcome) && row.status.Ok? && init == [Some(ReplayedOutcome(row.response))]
    ensures Lists([row], Store(p, log)) && Replays(p.plan.tasks, [row], init)
  {
    assert log[..1] == [log[0]] && log[..1][..0] == [];
    assert Store(p, log[..1]) == map[];
    assert Store(p, log) == map[row.taskId := row];
    assert Target(p.plan.tasks, row) == 0;
  }

  // ----- Any number of attempts, overlapping and crashing anywhere -----

  /** One attempt at the plan: what it replayed, the log of its whole run, and how much of it has happened. */
  datatype Attempt = Attempt(init: Outcomes, log: seq<Event>, done: nat)

  /** A moment in the life of a plan: its checkpoint table, and every attempt made so far. */
  datatype Moment = Moment(table: map<string, Row>, attempts: seq<Attempt>)

  ghost predicate Resumes(p: Problem, store: map<string, Row>, init: Outcomes) {
    exists rows :: Lists(rows, store) && Replays(p.plan.tasks, rows, init)
  }

  ghost predicate IsAttempt(p: Problem, layers: seq<seq<nat>>, t: Attempt) {
    p.Fits(t.init) && IsRunLog(p, layers, t.init, t.log) && t.done <= |t.log|
  }

  /** A new attempt reads the table and starts from what it says. */
  ghost predicate Begins(p: Problem, layers: seq<seq<nat>>, a: Moment, b: Moment, t: Attempt) {
    && IsAttempt(p, layers, t) && t.done == 0 && Resumes(p, a.table, t.init)
    && b == Moment(a.table, a.attempts + [t])
  }

  /** Attempt `k` takes its next step. An attempt that crashed is one that takes no more. */
  ghost predicate Advances(p: Problem, a: Moment, b: Moment, k: nat) {
    && k < |a.attempts| && a.attempts[k].done < |a.attempts[k].log|
    && b.attempts == a.attempts[k := a.attempts[k].(done := a.attempts[k].done + 1)]
    && b.table == Write(p, a.table, a.attempts[k].log[a.attempts[k].done])
  }

  ghost predicate Follows(p: Problem, layers: seq<seq<nat>>, a: Moment, b: Moment) {
    (exists t :: Begins(p, layers, a, b, t)) || (exists k :: Advances(p, a, b, k))
  }

  /** Attempts begin, advance and stop in any order and any number, all on one table that starts empty. */
  ghost predicate Unfolds(p: Problem, layers: seq<seq<nat>>, moments: seq<Moment>) {
    && moments != [] && moments[0] == Moment(map[], [])
    && forall m | 0 <= m < |moments| - 1 :: Follows(p, layers, moments[m], moments[m + 1])
  }

  /** An ok checkpoint, the moment it is written, is the final outcome of a task that was not replayed. */
  lemma OkEventIsFinal(p: Problem, layers: seq<seq<nat>>, init: Outcomes, log: seq<Event>, q: nat)
    requires p.Fits(init) && IsRunLog(p, layers, init, log) && q < |log|
    requires log[q].Saved? && log[q].outcome.status.Ok?
    ensures log[q].task < |init| && init[log[q].task].None?
    ensures Final(p, layers, init).outs[log[q].task] == Some(log[q].outcome)
  {
    hide After, Record, RunsSafely;
    var i := log[q].task;
    assert log[..q + 1][..q] == log[..q];
    var early, all := EventsOf(log[..q + 1], i), EventsOf(log, i);
    EventsOfPrefix(log, q + 1, i);
    assert early[|early| - 1] == log[q] && all[|early| - 1] == log[q];
    RecordShape(p, layers, init, |layers|, i);
  }

  lemma ResumedFaithfully(p: Problem, layers: seq<seq<nat>>, store: map<string, Row>, init: Outcomes)
    requires p.Fits(Fresh(|p.deps|)) && IsLayering(p.deps, layers) && RunnerShaped(p) && UniqueIds(p.plan.tasks)
    requires Faithful(p, Final(p, layers, Fresh(|p.deps|)).outs, store) && Resumes(p, store, init)
    ensures p.Fits(init) && ResumesWell(p, layers, init)
  {
    hide After, Final, Faithful, Replays, Lists, IsLayering, RunnerShaped, UniqueIds, ResumesWell;
    var rows :| Lists(rows, store) && Replays(p.plan.tasks, rows, init);
    FaithfulReplaysOk(p, Final(p, layers, Fresh(|p.deps|)).outs, store, rows, init);
    ResumeKeepsRows(p, layers, init);
  }

  /** One more event of a sound attempt leaves a faithful table faithful. */
  lemma WriteStaysFaithful(p: Problem, layers: seq<seq<nat>>, table: map<string, Row>, t: Attempt)
    requires p.Fits(Fresh(|p.deps|)) && IsAttempt(p, layers, t) && t.done < |t.log| && ResumesWell(p, layers, t.init)
    requires Faithful(p, Final(p, layers, Fresh(|p.deps|)).outs, table)
    ensures Faithful(p, Final(p, layers, Fresh(|p.deps|)).outs, Write(p, table, t.log[t.done]))
  {
    hide After, Final, IsRunLog, RowOf, SameReports, SameRows, NoArtifactReplayed;
    var e := t.log[t.done];
    if e.Saved? && e.outcome.status.Ok? {
      OkEventIsFinal(p, layers, t.init, t.log, t.done);
      assert Final(p, layers, Fresh(|p.deps|)).outs[e.task] == Some(e.outcome);
    }
    assert e.Saved? && e.task < |p.plan.tasks| ==> RowOf(p, e.task, e.outcome).status == e.outcome.status by {
      RowStatus(p, e);
    }
  }

  lemma RowStatus(p: Problem, e: Event)
    ensures e.Saved? && e.task < |p.plan.tasks| ==> RowOf(p, e.task, e.outcome).status == e.outcome.status
  {
  }

  ghost predicate AllSound(p: Problem, layers: seq<seq<nat>>, attempts: seq<Attempt>)
    requires p.Fits(Fresh(|p.deps|))
  {
    forall t | t in attempts :: IsAttempt(p, layers, t) && ResumesWell(p, layers, t.init)
  }

  /** However many attempts are made, wherever they crash and however they overlap, every ok row of the table is that of
      the run that was never interrupted, and every attempt resumes well. */
  lemma {:induction false} TableStaysFaithful(p: Problem, layers: seq<seq<nat>>, moments: seq<Moment>, m: nat)
    requires p.Fits(Fresh(|p.deps|)) && IsLayering(p.deps, layers) && RunnerShaped(p) && UniqueIds(p.plan.tasks)
    requires Unfolds(p, layers, moments) && m < |moments|
    ensures Faithful(p, Final(p, layers, Fresh(|p.deps|)).outs, moments[m].table)
    ensures AllSound(p, layers, moments[m].attempts)
  {
    hide After, Final, IsLayering, RunnerShaped, UniqueIds, IsRunLog, ResumesWell, Write, Resumes, RowOfFinal;
    if m > 0 {
      TableStaysFaithful(p, layers, moments, m - 1);
      var a, b := moments[m - 1], moments[m];
      assert Follows(p, layers, a, b);
      if k: nat :| Advances(p, a, b, k) {
        hide Faithful;
        var t := a.attempts[k];
        assert t in a.attempts;
        WriteStaysFaithful(p, layers, a.table, t);
        forall u | u in b.attempts ensures IsAttempt(p, layers, u) && ResumesWell(p, layers, u.init) {
          assert u in a.attempts || u == t.(done := t.done + 1);
        }
      } else {
        hide Faithful;
        var t :| Begins(p, layers, a, b, t);
        ResumedFaithfully(p, layers, a.table, t.init);
      }
    }
  }

  /** At any moment of any such history, an attempt begun from the table reports every task's status and response as the
      run that was never interrupted, halts if and only if that run halts, and reports the very same rows if and only if
      no task it replays declares an artifact. */
  lemma CrashesAreInvisible(p: Problem, layers: seq<seq<nat>>, moments: seq<Moment>, m: nat, init: Outcomes)
    requires p.Fits(Fresh(|p.deps|)) && IsLayering(p.deps, layers) && RunnerShaped(p) && UniqueIds(p.plan.tasks)
    requires Unfolds(p, layers, moments) && m < |moments| && Resumes(p, moments[m].table, init)
    ensures p.Fits(init)
    ensures var a, b := Final(p, layers, Fresh(|p.deps|)), Final(p, layers, init);
            && a.halted == b.halted && SameReports(p, a.outs, b.outs)
            && (SameRows(p, a.outs, b.outs) <==> NoArtifactReplayed(p, init))
  {
    hide After, Final, SameReports, SameRows, IsLayering, RunnerShaped, Faithful, Resumes, Unfolds, NoArtifactReplayed;
    TableStaysFaithful(p, layers, moments, m);
    ResumedFaithfully(p, layers, moments[m].table, init);
  }
}
