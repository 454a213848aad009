/** The tool's entry point: from drafted plan to report. */
module PlanReport {
  import opened Prelude
  import opened DependencyGraph
  import opened PlanTask
  import opened PlanRun
  import opened PlanExecute
  import opened PlanProperties
  import opened PlanResume

  const EXCERPT_MAX_CHARS: nat := 300

  /** One line of the merged summary. */
  datatype SummaryLine = SummaryLine(status: Status, id: string, agent: string, excerpt: string)

  datatype Report = Report(rows: seq<TaskRow>, summary: seq<SummaryLine>, ok: nat, failed: nat, skipped: nat,
                           completed: bool)

  /** The start of the answer, or of the error when there is no answer in text. */
  function Excerpt(v: Value): (cut: string)
    ensures |cut| <= EXCERPT_MAX_CHARS
  {
    var text := if v.response.Text? then v.response.text else if v.error.Text? then v.error.text else "";
    if |text| > EXCERPT_MAX_CHARS then text[..EXCERPT_MAX_CHARS] else text
  }

  function LineFor(p: Problem, i: nat, o: Outcome): SummaryLine
    requires i < |p.plan.tasks|
  {
    SummaryLine(o.status, p.plan.tasks[i].id, p.plan.tasks[i].agent, Excerpt(o.value))
  }

  /** The first `n` tasks that the report lists with this status. */
  ghost function With(p: Problem, outs: Outcomes, status: Status, n: nat): set<nat>
    requires n <= |outs|
  {
    set i: nat | i < n && Reported(p, outs[i]).status == status
  }

  lemma WithNext(p: Problem, outs: Outcomes, status: Status, n: nat)
    requires n < |outs|
    ensures |With(p, outs, status, n + 1)| ==
            |With(p, outs, status, n)| + if Reported(p, outs[n]).status == status then 1 else 0
  {
    var more := if Reported(p, outs[n]).status == status then {n} else {};
    assert With(p, outs, status, n + 1) == With(p, outs, status, n) + more;
  }

  /** `row` and `line` tell of task `i` and its outcome; a task with no outcome is told of as skipped. */
  ghost predicate Tells(p: Problem, i: nat, o: Option<Outcome>, row: TaskRow, line: SummaryLine)
    requires i < |p.plan.tasks|
  {
    && row.id == line.id == p.plan.tasks[i].id && row.agent == line.agent == p.plan.tasks[i].agent
    && (o.None? ==>
          && row.status == line.status == Skipped && row.response == Absent
          && row.error == Text(p.words.neverScheduled) && row.artifactPath == Absent && row.summary == Absent
          && line.excerpt == ExcerptOf(p.words.neverScheduled))
    && (o.Some? ==>
          var v := o.value.value;
          && row.status == line.status == o.value.status && row.response == v.response && row.error == v.error
          && row.artifactPath == v.artifactPath && row.summary == v.summary
          && line.excerpt ==
             ExcerptOf(if v.response.Text? then v.response.text else if v.error.Text? then v.error.text else ""))
  }

  /** The first 300 characters. */
  ghost function ExcerptOf(text: string): string {
    if |text| <= 300 then text else text[..300]
  }

  lemma RowAndLineTell(p: Problem, i: nat, o: Option<Outcome>)
    requires i < |p.plan.tasks|
    ensures Tells(p, i, o, RowFor(p, i, Reported(p, o)), LineFor(p, i, Reported(p, o)))
  {
  }

  /** The rows with this status. */
  ghost function RowsWith(rows: seq<TaskRow>, status: Status): set<nat> {
    set i: nat | i < |rows| && rows[i].status == status
  }

  /** One row and one summary line per task in plan order, tallies that count the rows, and `completed` exactly when
      every task is ok. */
  ghost predicate Describes(p: Problem, outs: Outcomes, r: Report)
    requires |outs| == |p.plan.tasks|
  {
    && |r.rows| == |r.summary| == |outs|
    && (forall i | 0 <= i < |outs| :: r.rows[i] == RowFor(p, i, Reported(p, outs[i])))
    && (forall i | 0 <= i < |outs| :: Tells(p, i, outs[i], r.rows[i], r.summary[i]))
    && r.ok == |RowsWith(r.rows, Ok)| && r.failed == |RowsWith(r.rows, Failed)|
    && r.skipped == |RowsWith(r.rows, Skipped)|
    && r.ok + r.failed + r.skipped == |outs|
    && (r.completed <==> forall i | 0 <= i < |outs| :: outs[i].Some? && outs[i].value.status == Ok)
  }

  lemma RowsOfStatus(p: Problem, outs: Outcomes, rows: seq<TaskRow>, status: Status)
    requires |rows| == |outs| == |p.plan.tasks|
    requires forall i | 0 <= i < |outs| :: rows[i] == RowFor(p, i, Reported(p, outs[i]))
    ensures RowsWith(rows, status) == With(p, outs, status, |outs|)
  {
    hide Reported;
    forall i: nat | i < |outs| ensures rows[i].status == Reported(p, outs[i]).status {
    }
  }

  lemma TellsAll(p: Problem, outs: Outcomes, rows: seq<TaskRow>, summary: seq<SummaryLine>)
    requires |rows| == |summary| == |outs| == |p.plan.tasks|
    requires forall i | 0 <= i < |outs| :: rows[i] == RowFor(p, i, Reported(p, outs[i]))
    requires forall i | 0 <= i < |outs| :: summary[i] == LineFor(p, i, Reported(p, outs[i]))
    ensures forall i | 0 <= i < |outs| :: Tells(p, i, outs[i], rows[i], summary[i])
  {
    hide RowFor, LineFor, Reported, Tells;
    forall i | 0 <= i < |outs| ensures Tells(p, i, outs[i], rows[i], summary[i]) {
      RowAndLineTell(p, i, outs[i]);
    }
  }

  lemma WithNone(p: Problem, outs: Outcomes)
    ensures With(p, outs, Ok, 0) == With(p, outs, Failed, 0) == With(p, outs, Skipped, 0) == {}
  {
  }

  lemma ReportedOk(p: Problem, outs: Outcomes)
    ensures forall i | 0 <= i < |outs| :: Reported(p, outs[i]).status.Ok? <==> IsOk(outs[i])
  {
  }

  method Assemble(p: Problem, outs: Outcomes) returns (r: Report)
    requires |outs| == |p.plan.tasks|
    ensures Describes(p, outs, r)
  {
    hide With, RowsWith, RowFor, LineFor, Reported, Tells;
    var rows: seq<TaskRow>, summary: seq<SummaryLine> := [], [];
    var ok: nat, failed: nat, skipped: nat := 0, 0, 0;
    WithNone(p, outs);
    for i := 0 to |outs|
      invariant |rows| == |summary| == i && ok + failed + skipped == i
      invariant forall j | 0 <= j < i :: summary[j] == LineFor(p, j, Reported(p, outs[j]))
      invariant forall j | 0 <= j < i :: rows[j] == RowFor(p, j, Reported(p, outs[j]))
      invariant ok == |With(p, outs, Ok, i)| && failed == |With(p, outs, Failed, i)|
      invariant skipped == |With(p, outs, Skipped, i)|
      invariant failed + skipped == 0 <==> forall j | 0 <= j < i :: Reported(p, outs[j]).status.Ok?
    {
      WithNext(p, outs, Ok, i);
      WithNext(p, outs, Failed, i);
      WithNext(p, outs, Skipped, i);
      var o := Reported(p, outs[i]);
      match o.status {
        case Ok => ok := ok + 1;
        case Failed => failed := failed + 1;
        case Skipped => skipped := skipped + 1;
      }
      summary := summary + [LineFor(p, i, o)];
      rows := rows + [RowFor(p, i, o)];
    }
    ReportedOk(p, outs);
    TellsAll(p, outs, rows, summary);
    RowsOfStatus(p, outs, rows, Ok);
    RowsOfStatus(p, outs, rows, Failed);
    RowsOfStatus(p, outs, rows, Skipped);
    r := Report(rows, summary, ok, failed, skipped, failed + skipped == 0);
  }

  /** A fresh run is completed exactly when none of its tasks failed: skips always have a failure behind them. */
  lemma CompletedIffNothingFailed(p: Problem, layers: seq<seq<nat>>)
    requires p.Fits(Fresh(|p.deps|)) && IsLayering(p.deps, layers)
    ensures var final := Final(p, layers, Fresh(|p.deps|)).outs;
            (forall i | 0 <= i < |final| :: IsOk(final[i])) <==> (forall i | 0 <= i < |final| :: !HasFailed(final[i]))
  {
    hide After, Final, IsLayering;
    var final := Final(p, layers, Fresh(|p.deps|)).outs;
    if forall i | 0 <= i < |final| :: !HasFailed(final[i]) {
      forall i | 0 <= i < |final| ensures IsOk(final[i]) {
        var k := HasLayer(p.deps, layers, i);
        SkippedIff(p, layers, k, i);
        HaltedIff(p, layers, k);
        assert !FailedAncestor(p, final, i);
        assert !Reported(p, final[i]).status.Skipped?;
      }
    }
  }

  datatype Refusal = BadPlan(error: PlanError) | BadGraph(graph: LayerError)

  ghost predicate Drafts(args: RawPlan, tasks: seq<PlanTaskSpec>) {
    DenotesAll(args, tasks) && ValidTasks(tasks)
  }

  ghost predicate Layerable(tasks: seq<PlanTaskSpec>) {
    !HasCycle(DepsOf(tasks)) && !HasChainOver(DepsOf(tasks), 3)
  }

  /** The refusal is true of the draft: it denotes no valid plan, or the plan it denotes is cyclic or too deep. */
  ghost predicate RefusedFor(args: RawPlan, why: Refusal) {
    match why
    case BadPlan(_) => !exists tasks: seq<PlanTaskSpec> :: Drafts(args, tasks)
    case BadGraph(Cycle) => exists tasks: seq<PlanTaskSpec> :: Drafts(args, tasks) && HasCycle(DepsOf(tasks))
    case BadGraph(TooManyLayers(_)) =>
      exists tasks: seq<PlanTaskSpec> ::
        Drafts(args, tasks) && !HasCycle(DepsOf(tasks)) && HasChainOver(DepsOf(tasks), 3)
    case _ => false
  }

  /** The two checks a draft passes before anything runs. */
  method ReadDraft(args: RawPlan) returns (r: Result<PlanSpec, Refusal>, layers: seq<seq<nat>>)
    ensures r.Success? <==> exists tasks: seq<PlanTaskSpec> :: Drafts(args, tasks) && Layerable(tasks)
    ensures r.Failure? ==> RefusedFor(args, r.error)
    ensures r.Success? ==> Drafts(args, r.value.tasks) && IsLayering(DepsOf(r.value.tasks), layers)
                           && ListedInOrder(DepsOf(r.value.tasks), layers)
  {
    hide HasCycle, HasChainOver, IsLayering, DenotesAll, ListedInOrder;
    layers := [];
    var parsed := ParsePlan(args);
    if parsed.Failure? {
      return Failure(BadPlan(parsed.error)), layers;
    }
    var plan := parsed.value;
    DenotationUnique(args, plan.tasks);
    var layered := TopologicalLayers(plan);
    if layered.Failure? {
      assert Drafts(args, plan.tasks);
      return Failure(BadGraph(layered.error)), layers;
    }
    assert Drafts(args, plan.tasks) && Layerable(plan.tasks);
    r, layers := Success(plan), layered.value;
  }

  /** Parses, layers, replays what `stored` holds (nothing for a fresh run), executes and reports. A drafted plan is
      refused exactly when it denotes no valid plan, or its graph is cyclic or too deep. */
  method Invoke(args: RawPlan, stored: seq<Row>, oracle: Oracle, words: Wording, maxConcurrent: nat)
    returns (r: Result<Report, Refusal>, ghost p: Problem, ghost layers: seq<seq<nat>>, ghost init: Outcomes,
             ghost log: seq<Event>)
    ensures r.Success? <==> exists tasks: seq<PlanTaskSpec> :: Drafts(args, tasks) && Layerable(tasks)
    ensures r.Failure? ==> RefusedFor(args, r.error)
    ensures r.Success? ==>
              && Drafts(args, p.plan.tasks) && p.deps == DepsOf(p.plan.tasks) && p.oracle == oracle && p.words == words
              && IsLayering(p.deps, layers) && ListedInOrder(p.deps, layers)
              && p.Fits(init) && Replays(p.plan.tasks, stored, init)
              && IsRunLog(p, layers, init, log)
              && Describes(p, Final(p, layers, init).outs, r.value)
  {
    hide ListedInOrder;
    p, layers, init, log := Problem(PlanSpec(None, []), [], oracle, words), [], [], [];
    var draft, layered := ReadDraft(args);
    if draft.Failure? {
      r := Failure(draft.error);
      return;
    }
    var plan := draft.value;
    AllKnownIffInRange(plan.tasks);
    var problem := Problem(plan, DepsOf(plan.tasks), oracle, words);
    var start := ReplayCheckpoints(plan, stored);
    var st, halted := Execute(problem, layered, start, maxConcurrent);
    var report := Assemble(problem, st.outcomes);
    r := Success(report);
    p, layers, init, log := problem, layered, start, st.log;
  }
}
