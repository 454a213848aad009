/** Plans: parsing a drafted plan and layering its dependency graph. */
module PlanTask {
  import opened Prelude
  import opened DependencyGraph

  const MAX_PLAN_TASKS: nat := 12
  const MAX_PLAN_LAYERS: nat := 3

  datatype FailureAction = Skip | Retry | Halt

  datatype PlanTaskSpec = PlanTaskSpec(id: string, agent: string, prompt: string, dependsOn: seq<string>,
                                       onFailure: FailureAction, artifact: Option<string>)

  datatype PlanSpec = PlanSpec(name: Option<string>, tasks: seq<PlanTaskSpec>)

  // ----- Tool arguments -----

  /** A JSON member: missing, null, a string, or anything else. */
  datatype Field = Absent | Null | Text(text: string) | Other

  /** One `tasks[]` item; `dependsOn` is `None` unless the member is an array. */
  datatype RawTask = RawTask(id: Field, agent: Field, prompt: Field, dependsOn: Option<seq<Field>>,
                             onFailure: Field, artifact: Field, artifactBlank: bool)

  datatype RawPlan = RawPlan(name: Field, tasks: Option<seq<RawTask>>)

  datatype TaskFault = NoId | NoAgent | NoPrompt | BadDependency | BadOnFailure | BadArtifact

  datatype PlanError =
    | NoTasksArray
    | NoTasks
    | TooManyTasks(count: nat)
    | BadTask(index: nat, fault: TaskFault)
    | DuplicateId(id: string)
    | UnknownDependency(id: string, dep: string)

  function ParseFailureAction(f: Field): Option<FailureAction> {
    match f
    case Absent => Some(Skip)
    case Null => Some(Skip)
    case Text("skip") => Some(Skip)
    case Text("retry") => Some(Retry)
    case Text("halt") => Some(Halt)
    case _ => None
  }

  /** A blank path is refused; `blank` says whether trimming leaves nothing. */
  predicate ArtifactOk(f: Field, blank: bool) {
    f.Absent? || f.Null? || (f.Text? && !blank)
  }

  /** The failure edges an item may name; a missing or null member names none. */
  ghost predicate NamesEdge(f: Field) {
    f == Absent || f == Null || f == Text("skip") || f == Text("retry") || f == Text("halt")
  }

  /** The first member of an item that makes it unusable, in the order the members are read. */
  ghost function Fault(t: RawTask): Option<TaskFault> {
    if !t.id.Text? then Some(NoId)
    else if !t.agent.Text? then Some(NoAgent)
    else if !t.prompt.Text? then Some(NoPrompt)
    else if t.dependsOn.Some? && exists d :: d in t.dependsOn.value && !d.Text? then Some(BadDependency)
    else if !NamesEdge(t.onFailure) then Some(BadOnFailure)
    else if t.artifact.Other? || (t.artifact.Text? && t.artifactBlank) then Some(BadArtifact)
    else None
  }

  /** `spec` is what a usable item denotes: absent dependencies, edges and artifacts take their defaults. */
  ghost predicate Denotes(t: RawTask, spec: PlanTaskSpec) {
    && !t.artifact.Other? && !(t.artifact.Text? && t.artifactBlank)
    && t.id == Text(spec.id) && t.agent == Text(spec.agent) && t.prompt == Text(spec.prompt)
    && |spec.dependsOn| == (if t.dependsOn.Some? then |t.dependsOn.value| else 0)
    && (forall k | 0 <= k < |spec.dependsOn| :: t.dependsOn.value[k] == Text(spec.dependsOn[k]))
    && NamesEdge(t.onFailure)
    && (spec.onFailure == Halt <==> t.onFailure == Text("halt"))
    && (spec.onFailure == Retry <==> t.onFailure == Text("retry"))
    && spec.artifact == (if t.artifact.Text? then Some(t.artifact.text) else None)
  }

  // ----- Resolving ids -----

  /** Position of the first task with this id, or the number of tasks when there is none. */
  function IndexOf(tasks: seq<PlanTaskSpec>, id: string): (r: nat)
    ensures r <= |tasks|
    ensures r < |tasks| ==> tasks[r].id == id
    ensures forall j | 0 <= j < r :: tasks[j].id != id
  {
    if tasks == [] then 0 else if tasks[0].id == id then 0 else 1 + IndexOf(tasks[1..], id)
  }

  function Row(tasks: seq<PlanTaskSpec>, ids: seq<string>): seq<nat> {
    seq(|ids|, k requires 0 <= k < |ids| => IndexOf(tasks, ids[k]))
  }

  /** The resolved dependency lists; an unknown id resolves to an index past the last task. */
  function DepsOf(tasks: seq<PlanTaskSpec>): (deps: Deps)
    ensures |deps| == |tasks|
  {
    seq(|tasks|, i requires 0 <= i < |tasks| => Row(tasks, tasks[i].dependsOn))
  }

  ghost predicate Known(tasks: seq<PlanTaskSpec>, id: string) {
    exists t :: t in tasks && t.id == id
  }

  ghost predicate AllKnown(tasks: seq<PlanTaskSpec>) {
    forall i, d | 0 <= i < |tasks| && d in tasks[i].dependsOn :: Known(tasks, d)
  }

  ghost predicate UniqueIds(tasks: seq<PlanTaskSpec>) {
    forall i, j | 0 <= i < j < |tasks| :: tasks[i].id != tasks[j].id
  }

  ghost predicate ValidTasks(tasks: seq<PlanTaskSpec>) {
    1 <= |tasks| <= 12 && UniqueIds(tasks) && AllKnown(tasks)
  }

  ghost predicate RepeatedLater(tasks: seq<PlanTaskSpec>, i: nat)
    requires i < |tasks|
  {
    exists j :: i < j < |tasks| && tasks[j].id == tasks[i].id
  }

  /** `fault` is what is wrong with task `i`, the first with anything wrong: its id comes again, or else its first
      unknown dependency. */
  ghost predicate FaultAt(tasks: seq<PlanTaskSpec>, i: nat, fault: PlanError) {
    && i < |tasks|
    && (forall a | 0 <= a < i :: !RepeatedLater(tasks, a) && forall d | d in tasks[a].dependsOn :: Known(tasks, d))
    && match fault
       case DuplicateId(id) => id == tasks[i].id && RepeatedLater(tasks, i)
       case UnknownDependency(id, dep) =>
         && id == tasks[i].id && !RepeatedLater(tasks, i)
         && (exists k :: 0 <= k < |tasks[i].dependsOn| && tasks[i].dependsOn[k] == dep
                         && forall d | d in tasks[i].dependsOn[..k] :: Known(tasks, d))
         && !Known(tasks, dep)
       case _ => false
  }

  /** Some task called `id` depends on `dep`, and no task is called that. */
  ghost predicate Dangles(tasks: seq<PlanTaskSpec>, id: string, dep: string) {
    (exists t :: t in tasks && t.id == id && dep in t.dependsOn) && !Known(tasks, dep)
  }

  lemma KnownIffIndexed(tasks: seq<PlanTaskSpec>, id: string)
    ensures Known(tasks, id) <==> IndexOf(tasks, id) < |tasks|
  {
    if Known(tasks, id) {
      var t :| t in tasks && t.id == id;
      var j :| 0 <= j < |tasks| && tasks[j] == t;
    }
  }

  lemma AllKnownIffInRange(tasks: seq<PlanTaskSpec>)
    ensures AllKnown(tasks) <==> InRange(DepsOf(tasks))
  {
    var deps := DepsOf(tasks);
    if AllKnown(tasks) {
      forall t, d | 0 <= t < |deps| && d in deps[t] ensures d < |deps| {
        var k :| 0 <= k < |deps[t]| && deps[t][k] == d;
        KnownIffIndexed(tasks, tasks[t].dependsOn[k]);
      }
    }
    if InRange(deps) {
      forall i, d | 0 <= i < |tasks| && d in tasks[i].dependsOn ensures Known(tasks, d) {
        var k :| 0 <= k < |tasks[i].dependsOn| && tasks[i].dependsOn[k] == d;
        assert deps[i][k] in deps[i];
        KnownIffIndexed(tasks, d);
      }
    }
  }

  /** A resolved dependency is the task that the plan names there. */
  lemma DependencyNamed(tasks: seq<PlanTaskSpec>, i: nat, k: nat)
    requires AllKnown(tasks) && i < |tasks| && k < |tasks[i].dependsOn|
    ensures |DepsOf(tasks)| == |tasks| && |DepsOf(tasks)[i]| == |tasks[i].dependsOn|
    ensures DepsOf(tasks)[i][k] < |tasks| && tasks[DepsOf(tasks)[i][k]].id == tasks[i].dependsOn[k]
  {
    assert tasks[i].dependsOn[k] in tasks[i].dependsOn;
    KnownIffIndexed(tasks, tasks[i].dependsOn[k]);
  }

  // ----- Parsing -----

  /** Reads one item, reporting the first member that makes it unusable. */
  method ParseTask(t: RawTask, index: nat) returns (r: Result<PlanTaskSpec, PlanError>)
    ensures r.Success? <==> Fault(t).None?
    ensures r.Success? ==> Denotes(t, r.value)
    ensures r.Failure? ==> r.error == BadTask(index, Fault(t).value)
    ensures r.Success? ==>
              && t.id == Text(r.value.id) && t.agent == Text(r.value.agent) && t.prompt == Text(r.value.prompt)
              && (r.value.onFailure == Halt <==> t.onFailure == Text("halt"))
              && (r.value.onFailure == Retry <==> t.onFailure == Text("retry"))
              && (r.value.onFailure == Skip <==> t.onFailure in {Absent, Null, Text("skip")})
    ensures r.Failure? && r.error.fault == BadOnFailure ==>
              t.onFailure !in {Absent, Null, Text("skip"), Text("retry"), Text("halt")}
  {
    if !t.id.Text? { return Failure(BadTask(index, NoId)); }
    if !t.agent.Text? { return Failure(BadTask(index, NoAgent)); }
    if !t.prompt.Text? { return Failure(BadTask(index, NoPrompt)); }
    var dependsOn := [];
    if t.dependsOn.Some? {
      var raw := t.dependsOn.value;
      for k := 0 to |raw|
        invariant |dependsOn| == k
        invariant forall m | 0 <= m < k :: raw[m] == Text(dependsOn[m])
      {
        if !raw[k].Text? { return Failure(BadTask(index, BadDependency)); }
        dependsOn := dependsOn + [raw[k].text];
      }
    }
    var action := ParseFailureAction(t.onFailure);
    if action.None? { return Failure(BadTask(index, BadOnFailure)); }
    if !ArtifactOk(t.artifact, t.artifactBlank) { return Failure(BadTask(index, BadArtifact)); }
    var artifact := if t.artifact.Text? then Some(t.artifact.text) else None;
    r := Success(PlanTaskSpec(t.id.text, t.agent.text, t.prompt.text, dependsOn, action.value, artifact));
  }

  /** Exactly the drafts that denote a valid plan are accepted, the accepted plan is the one denoted, and a refusal
      names a real fault. */
  method ParsePlan(args: RawPlan) returns (r: Result<PlanSpec, PlanError>)
    ensures r.Success? <==> exists tasks: seq<PlanTaskSpec> :: DenotesAll(args, tasks) && ValidTasks(tasks)
    ensures r.Success? ==> DenotesAll(args, r.value.tasks) && ValidTasks(r.value.tasks)
    ensures r.Success? ==>
              forall i | 0 <= i < |r.value.tasks| ::
                var t, task := args.tasks.value[i], r.value.tasks[i];
                && t.id == Text(task.id) && t.agent == Text(task.agent) && t.prompt == Text(task.prompt)
                && (task.onFailure == Halt <==> t.onFailure == Text("halt"))
                && (task.onFailure == Retry <==> t.onFailure == Text("retry"))
    ensures r.Success? ==> r.value.name == if args.name.Text? then Some(args.name.text) else None
    ensures r.Failure? ==>
              match r.error
              case NoTasksArray => args.tasks.None?
              case NoTasks => args.tasks == Some([])
              case TooManyTasks(count) => args.tasks.Some? && count == |args.tasks.value| > 12
              case BadTask(i, fault) =>
                && args.tasks.Some? && i < |args.tasks.value| && Fault(args.tasks.value[i]) == Some(fault)
                && forall j | 0 <= j < i :: Fault(args.tasks.value[j]).None?
              case _ =>
                exists tasks: seq<PlanTaskSpec>, i :: DenotesAll(args, tasks) && FaultAt(tasks, i, r.error)
  {
    if args.tasks.None? { return Failure(NoTasksArray); }
    var arr := args.tasks.value;
    if arr == [] { return Failure(NoTasks); }
    if |arr| > MAX_PLAN_TASKS { return Failure(TooManyTasks(|arr|)); }
    var tasks: seq<PlanTaskSpec> := [];
    for i := 0 to |arr|
      invariant |tasks| == i
      invariant forall j | 0 <= j < i :: Fault(arr[j]).None? && Denotes(arr[j], tasks[j])
    {
      var t := ParseTask(arr[i], i);
      if t.Failure? {
        assert forall spec: PlanTaskSpec :: !Denotes(arr[i], spec);
        return Failure(t.error);
      }
      tasks := tasks + [t.value];
    }
    DenotationUnique(args, tasks);
    var fault := CheckIds(tasks);
    if fault.Some? {
      return Failure(fault.value);
    }
    r := Success(PlanSpec(if args.name.Text? then Some(args.name.text) else None, tasks));
  }

  /** Looks for a repeated id or an unknown dependency, task by task. */
  method CheckIds(tasks: seq<PlanTaskSpec>) returns (fault: Option<PlanError>)
    ensures fault.None? <==> UniqueIds(tasks) && AllKnown(tasks)
    ensures fault.Some? ==> exists i :: FaultAt(tasks, i, fault.value)
  {
    for i := 0 to |tasks|
      invariant forall a | 0 <= a < i :: !RepeatedLater(tasks, a)
      invariant forall a, d | 0 <= a < i && d in tasks[a].dependsOn :: Known(tasks, d)
    {
      if exists t :: t in tasks[i + 1..] && t.id == tasks[i].id {
        assert FaultAt(tasks, i, DuplicateId(tasks[i].id));
        return Some(DuplicateId(tasks[i].id));
      }
      assert !RepeatedLater(tasks, i) by {
        assert forall j | i < j < |tasks| :: tasks[j] in tasks[i + 1..];
      }
      for k := 0 to |tasks[i].dependsOn|
        invariant forall d | d in tasks[i].dependsOn[..k] :: Known(tasks, d)
      {
        var dep := tasks[i].dependsOn[k];
        if !exists t :: t in tasks && t.id == dep {
          assert FaultAt(tasks, i, UnknownDependency(tasks[i].id, dep));
          return Some(UnknownDependency(tasks[i].id, dep));
        }
      }
    }
    forall a, b | 0 <= a < b < |tasks| ensures tasks[a].id != tasks[b].id {
      assert !RepeatedLater(tasks, a);
    }
    fault := None;
  }

  ghost predicate DenotesAll(args: RawPlan, tasks: seq<PlanTaskSpec>) {
    && args.tasks.Some? && |tasks| == |args.tasks.value|
    && forall i | 0 <= i < |tasks| :: Denotes(args.tasks.value[i], tasks[i])
  }

  lemma DenotationUnique(args: RawPlan, tasks: seq<PlanTaskSpec>)
    requires DenotesAll(args, tasks)
    ensures forall other: seq<PlanTaskSpec> | DenotesAll(args, other) :: other == tasks
  {
    forall other: seq<PlanTaskSpec> | DenotesAll(args, other) ensures other == tasks {
      forall i | 0 <= i < |tasks| ensures other[i] == tasks[i] {
        assert other[i].dependsOn == tasks[i].dependsOn;
      }
    }
  }

  // ----- Layering -----

  datatype LayerError = Unresolved(id: string, dep: string) | Cycle | TooManyLayers(count: nat)

  ghost function Count(row: seq<nat>, x: nat): nat {
    if row == [] then 0 else Count(row[..|row| - 1], x) + if row[|row| - 1] == x then 1 else 0
  }

  lemma {:induction false} CountPrefix(row: seq<nat>, w: nat, x: nat)
    requires w <= |row|
    ensures Count(row[..w], x) <= Count(row, x)
  {
    if w == |row| {
      assert row[..w] == row;
    } else {
      assert row[..|row| - 1][..w] == row[..w];
      CountPrefix(row[..|row| - 1], w, x);
    }
  }

  lemma CountStep(row: seq<nat>, w: nat)
    requires w < |row|
    ensures forall x: nat :: Count(row[..w + 1], x) == Count(row[..w], x) + if row[w] == x then 1 else 0
    ensures forall x: nat :: Count(row[..w + 1], x) <= Count(row, x)
  {
    assert row[..w + 1][..w] == row[..w];
    forall x: nat ensures Count(row[..w + 1], x) <= Count(row, x) {
      CountPrefix(row, w + 1, x);
    }
  }

  lemma CountEnds(row: seq<nat>)
    ensures row[..|row|] == row && forall x: nat :: Count(row[..0], x) == 0
  {
  }

  lemma {:induction false} CountZero(row: seq<nat>, x: nat)
    requires x !in row
    ensures Count(row, x) == 0
  {
    if row != [] {
      CountZero(row[..|row| - 1], x);
    }
  }

  /** References in `row` to tasks outside `done`, counted with repetition. */
  ghost function Open(row: seq<nat>, done: set<nat>): nat {
    if row == [] then 0 else Open(row[..|row| - 1], done) + if row[|row| - 1] in done then 0 else 1
  }

  lemma {:induction false} OpenZero(row: seq<nat>, done: set<nat>)
    ensures Open(row, done) == 0 <==> forall d | d in row :: d in done
  {
    if row != [] {
      OpenZero(row[..|row| - 1], done);
      assert row == row[..|row| - 1] + [row[|row| - 1]];
    }
  }

  lemma {:induction false} OpenNone(row: seq<nat>)
    ensures Open(row, {}) == |row|
  {
    if row != [] {
      OpenNone(row[..|row| - 1]);
    }
  }

  /** Finishing task `j` closes as many references as `row` has to it. */
  lemma {:induction false} OpenFinish(row: seq<nat>, done: set<nat>, j: nat)
    requires j !in done
    ensures Open(row, done + {j}) + Count(row, j) == Open(row, done)
  {
    if row != [] {
      OpenFinish(row[..|row| - 1], done, j);
      assert row == row[..|row| - 1] + [row[|row| - 1]];
    }
  }

  ghost predicate Ascending(row: seq<nat>) {
    forall a, b | 0 <= a < b < |row| :: row[a] <= row[b]
  }

  /** `dependents` is the transpose of `deps`, with the same multiplicities, each row in ascending order. */
  ghost predicate Transposed(deps: Deps, dependents: seq<seq<nat>>) {
    && |dependents| == |deps|
    && (forall j | 0 <= j < |deps| :: Ascending(dependents[j]))
    && (forall j, d | 0 <= j < |deps| && d in dependents[j] :: d < |deps|)
    && (forall j, i | 0 <= j < |deps| && 0 <= i < |deps| :: Count(dependents[j], i) == Count(deps[i], j))
  }

  /** The rows before `i` have been counted completely, and row `i` up to its `k`-th reference. */
  ghost predicate Counted(deps: Deps, i: nat, k: nat, indegree: seq<nat>, dependents: seq<seq<nat>>)
    requires i <= |deps| && k <= if i < |deps| then |deps[i]| else 0
  {
    && |indegree| == |dependents| == |deps|
    && (forall a | 0 <= a < |deps| :: indegree[a] == if a < i then |deps[a]| else if a == i then k else 0)
    && (forall j, d | 0 <= j < |deps| && d in dependents[j] :: d < |deps| && (d < i || (d == i && k > 0)))
    && (forall j | 0 <= j < |deps| :: Ascending(dependents[j]))
    && (forall j, a | 0 <= j < |deps| && 0 <= a < i :: Count(dependents[j], a) == Count(deps[a], j))
    && (i < |deps| ==> forall j | 0 <= j < |deps| :: Count(dependents[j], i) == Count(deps[i][..k], j))
  }

  lemma CountNothing(deps: Deps)
    ensures Counted(deps, 0, 0, seq(|deps|, _ => 0), seq(|deps|, _ => []))
  {
  }

  lemma CountOne(deps: Deps, i: nat, k: nat, indegree: seq<nat>, dependents: seq<seq<nat>>)
    requires i < |deps| && k < |deps[i]| && deps[i][k] < |deps|
    requires Counted(deps, i, k, indegree, dependents)
    ensures var j := deps[i][k];
            Counted(deps, i, k + 1, indegree[i := indegree[i] + 1], dependents[j := dependents[j] + [i]])
  {
    assert deps[i][..k + 1] == deps[i][..k] + [deps[i][k]];
    var j := deps[i][k];
    assert (dependents[j] + [i])[..|dependents[j]|] == dependents[j];
    assert forall a | 0 <= a < |dependents[j]| :: dependents[j][a] in dependents[j];
  }

  lemma CountNextRow(deps: Deps, i: nat, indegree: seq<nat>, dependents: seq<seq<nat>>)
    requires i < |deps| && Counted(deps, i, |deps[i]|, indegree, dependents)
    ensures Counted(deps, i + 1, 0, indegree, dependents)
  {
    assert deps[i][..|deps[i]|] == deps[i];
    forall j | 0 <= j < |deps| ensures Count(dependents[j], i + 1) == 0 {
      CountZero(dependents[j], i + 1);
    }
  }

  lemma CountedAll(deps: Deps, indegree: seq<nat>, dependents: seq<seq<nat>>)
    requires Counted(deps, |deps|, 0, indegree, dependents)
    ensures Transposed(deps, dependents)
    ensures forall i | 0 <= i < |deps| :: indegree[i] == Open(deps[i], {})
  {
    forall i | 0 <= i < |deps| ensures Open(deps[i], {}) == indegree[i] {
      OpenNone(deps[i]);
    }
  }

  /** Counts references and transposes the lists, stopping at the first unknown id. */
  method BuildKahn(plan: PlanSpec) returns (indegree: array<nat>, dependents: seq<seq<nat>>, bad: Option<LayerError>)
    ensures fresh(indegree)
    ensures bad.Some? ==> bad.value.Unresolved? && Dangles(plan.tasks, bad.value.id, bad.value.dep)
    ensures bad.None? ==>
              && InRange(DepsOf(plan.tasks))
              && Counted(DepsOf(plan.tasks), |plan.tasks|, 0, indegree[..], dependents)
  {
    var tasks := plan.tasks;
    var n := |tasks|;
    ghost var deps := DepsOf(tasks);
    indegree := new nat[n](_ => 0);
    dependents := seq(n, _ => []);
    hide Counted, Row;
    CountNothing(deps);
    assert indegree[..] == seq(n, _ => 0);
    for i := 0 to n
      invariant indegree.Length == n
      invariant forall a, d | 0 <= a < i && d in deps[a] :: d < n
      invariant Counted(deps, i, 0, indegree[..], dependents)
    {
      bad, dependents := CountRow(tasks, i, indegree, dependents);
      if bad.Some? {
        return;
      }
      CountNextRow(deps, i, indegree[..], dependents);
    }
    bad := None;
  }

  /** Counts the references of task `i`, and enters `i` under each task it waits for. */
  method CountRow(tasks: seq<PlanTaskSpec>, i: nat, indegree: array<nat>, dependents: seq<seq<nat>>)
    returns (bad: Option<LayerError>, dependents': seq<seq<nat>>)
    requires i < |tasks| && Counted(DepsOf(tasks), i, 0, indegree[..], dependents)
    modifies indegree
    ensures bad.Some? ==> bad.value.Unresolved? && Dangles(tasks, bad.value.id, bad.value.dep)
    ensures bad.None? ==>
              && (forall d | d in DepsOf(tasks)[i] :: d < |tasks|)
              && Counted(DepsOf(tasks), i, |DepsOf(tasks)[i]|, indegree[..], dependents')
  {
    ghost var deps := DepsOf(tasks);
    var ids := tasks[i].dependsOn;
    dependents' := dependents;
    for k := 0 to |ids|
      invariant forall m | 0 <= m < k :: deps[i][m] < |tasks|
      invariant Counted(deps, i, k, indegree[..], dependents')
    {
      var j := IndexOf(tasks, ids[k]);
      KnownIffIndexed(tasks, ids[k]);
      if j == |tasks| {
        assert tasks[i] in tasks && ids[k] in tasks[i].dependsOn;
        return Some(Unresolved(tasks[i].id, ids[k])), dependents';
      }
      CountOne(deps, i, k, indegree[..], dependents');
      ghost var indegree0 := indegree[..];
      indegree[i] := indegree[i] + 1;
      dependents' := dependents'[j := dependents'[j] + [i]];
      assert indegree[..] == indegree0[i := indegree0[i] + 1];
    }
    bad := None;
  }

  /** `next'` continues `next` with strictly ascending entries. */
  ghost predicate Continues(next: seq<nat>, next': seq<nat>) {
    next <= next' && forall a, b | |next| <= a < b < |next'| :: next'[a] < next'[b]
  }

  /** So far `next'` only took entries of `row` before position `w`. */
  ghost predicate Reaches(next: seq<nat>, next': seq<nat>, row: seq<nat>, w: nat)
    requires w <= |row|
  {
    && Continues(next, next')
    && forall a, v | |next| <= a < |next'| && w <= v < |row| :: next'[a] <= row[v]
  }

  lemma ReachNext(next: seq<nat>, next': seq<nat>, row: seq<nat>, w: nat)
    requires w < |row| && Ascending(row) && Reaches(next, next', row, w)
    ensures Reaches(next, next', row, w + 1)
    ensures row[w] !in next' ==> Reaches(next, next' + [row[w]], row, w + 1)
  {
  }

  lemma ReachNone(next: seq<nat>, row: seq<nat>)
    ensures Reaches(next, next, row, 0)
  {
  }

  lemma ReachAll(next: seq<nat>, next': seq<nat>, row: seq<nat>)
    requires Reaches(next, next', row, |row|)
    ensures Continues(next, next')
  {
  }

  /** Reports the references of `row` to a finished task: no counter goes below zero, and the tasks whose last
      reference closes are collected once each, in ascending order. */
  method Release(ghost deps: Deps, indegree: array<nat>, row: seq<nat>, next: seq<nat>, ghost done: set<nat>,
                 ghost j: nat)
    returns (next': seq<nat>)
    requires InRange(deps) && indegree.Length == |deps| && j !in done && j < |deps|
    requires Ascending(row) && forall d | d in row :: d < |deps|
    requires forall i | 0 <= i < |deps| :: Count(row, i) == Count(deps[i], j)
    requires forall i | 0 <= i < |deps| :: indegree[i] == Open(deps[i], done)
    requires NoDup(next) && forall d | d in next :: d < |deps| && indegree[d] == 0
    modifies indegree
    ensures forall i | 0 <= i < |deps| :: indegree[i] == Open(deps[i], done + {j})
    ensures NoDup(next') && Continues(next, next')
    ensures forall d: nat :: d in next' <==> d in next || (d < |deps| && indegree[d] == 0 && old(indegree[d]) > 0)
  {
    forall i | 0 <= i < |deps| ensures Open(deps[i], done + {j}) + Count(row, i) == Open(deps[i], done) {
      OpenFinish(deps[i], done, j);
    }
    hide Continues, Reaches, Ascending, Open, Count;
    next' := next;
    ReachNone(next, row);
    CountEnds(row);
    for w := 0 to |row|
      invariant forall i | 0 <= i < |deps| ::
          indegree[i] == Open(deps[i], done + {j}) + Count(row, i) - Count(row[..w], i)
      invariant forall i | 0 <= i < |deps| :: indegree[i] <= old(indegree[i])
      invariant NoDup(next') && Reaches(next, next', row, w)
      invariant forall d: nat :: d in next' <==> d in next || (d < |deps| && indegree[d] == 0 && old(indegree[d]) > 0)
    {
      var d := row[w];
      assert d in row;
      CountStep(row, w);
      ReachNext(next, next', row, w);
      assert indegree[d] > 0;
      indegree[d] := indegree[d] - 1;
      if indegree[d] == 0 {
        next' := next' + [d];
      }
    }
    ReachAll(next, next', row);
  }

  /** Between rounds: every counter holds its owner's open references, and `ready` lists once each the unfinished
      tasks that have none. */
  ghost predicate Frontier(deps: Deps, done: set<nat>, indegree: seq<nat>, ready: seq<nat>) {
    && |indegree| == |deps|
    && (forall i | 0 <= i < |deps| :: indegree[i] == Open(deps[i], done))
    && (forall t | t in done :: t < |deps| && indegree[t] == 0)
    && NoDup(ready)
    && (forall t: nat :: t in ready <==> t < |deps| && t !in done && indegree[t] == 0)
  }

  // ----- The order inside a layer -----

  /** Where in `prev`, counted from 1, the last dependency of `t` stands; 0 when there is none. */
  ghost function Closing(deps: Deps, prev: seq<nat>, t: nat): nat
    requires t < |deps|
  {
    if prev == [] then 0
    else if prev[|prev| - 1] in deps[t] then |prev|
    else Closing(deps, prev[..|prev| - 1], t)
  }

  /** Tasks are listed as their last dependencies are in the layer before, and by index when these are the same. */
  ghost predicate InOrder(deps: Deps, prev: seq<nat>, layer: seq<nat>) {
    && (forall a | 0 <= a < |layer| :: layer[a] < |deps|)
    && forall a, b | 0 <= a < b < |layer| ::
         var x, y := Closing(deps, prev, layer[a]), Closing(deps, prev, layer[b]);
         x < y || (x == y && layer[a] < layer[b])
  }

  /** The layer that stands before number `k`. */
  ghost function Above(layers: seq<seq<nat>>, k: nat): seq<nat>
    requires k <= |layers|
  {
    if k == 0 then [] else layers[k - 1]
  }

  ghost predicate ListedInOrder(deps: Deps, layers: seq<seq<nat>>) {
    forall k | 0 <= k < |layers| :: InOrder(deps, Above(layers, k), layers[k])
  }

  lemma {:induction false} ClosingBounded(deps: Deps, prev: seq<nat>, t: nat)
    requires t < |deps|
    ensures Closing(deps, prev, t) <= |prev|
  {
    if prev != [] {
      ClosingBounded(deps, prev[..|prev| - 1], t);
    }
  }

  lemma ClosingNext(deps: Deps, prev: seq<nat>, j: nat, t: nat)
    requires t < |deps|
    ensures Closing(deps, prev + [j], t) == if j in deps[t] then |prev| + 1 else Closing(deps, prev, t)
  {
    assert (prev + [j])[..|prev|] == prev;
  }

  /** Finishing task `j` next keeps the order: what was closed before stays in place, and what closes now follows. */
  lemma OrderNext(deps: Deps, prev: seq<nat>, j: nat, next: seq<nat>, next': seq<nat>)
    requires InOrder(deps, prev, next) && Continues(next, next')
    requires forall a | 0 <= a < |next'| :: next'[a] < |deps|
    requires forall a | 0 <= a < |next| :: j !in deps[next[a]]
    requires forall a | |next| <= a < |next'| :: j in deps[next'[a]]
    ensures InOrder(deps, prev + [j], next')
  {
    hide Closing;
    forall a | 0 <= a < |next'|
      ensures Closing(deps, prev + [j], next'[a]) ==
        if a < |next| then Closing(deps, prev, next[a]) else |prev| + 1
    {
      ClosingNext(deps, prev, j, next'[a]);
    }
    forall a | 0 <= a < |next| ensures Closing(deps, prev, next[a]) <= |prev| {
      ClosingBounded(deps, prev, next[a]);
    }
  }

  lemma {:induction false} ReferencesFall(row: seq<nat>, done: set<nat>, j: nat)
    ensures Open(row, done) > Open(row, done + {j}) ==> j in row
    ensures Open(row, done) == 0 && j !in done ==> j !in row
  {
    OpenZero(row, done);
    if j !in row {
      SameOpen(row, done, j);
    }
  }

  lemma {:induction false} SameOpen(row: seq<nat>, done: set<nat>, j: nat)
    requires j !in row
    ensures Open(row, done + {j}) == Open(row, done)
  {
    if row != [] {
      SameOpen(row[..|row| - 1], done, j);
      assert row[|row| - 1] in row;
    }
  }

  /** What one release adds to `next` is in order. */
  lemma ReleasedInOrder(deps: Deps, prev: seq<nat>, closed: set<nat>, j: nat, before: seq<nat>, after: seq<nat>,
                        next: seq<nat>, next': seq<nat>)
    requires InOrder(deps, prev, next) && Continues(next, next') && NoDup(next') && j !in closed
    requires |before| == |after| == |deps|
    requires forall i | 0 <= i < |deps| ::
               before[i] == Open(deps[i], closed) && after[i] == Open(deps[i], closed + {j})
    requires forall t | t in next :: t < |deps| && before[t] == 0
    requires forall t: nat :: t in next' <==> t in next || (t < |deps| && after[t] == 0 && before[t] > 0)
    ensures InOrder(deps, prev + [j], next')
  {
    forall t: nat | t < |deps|
      ensures before[t] == 0 ==> j !in deps[t]
      ensures before[t] > after[t] ==> j in deps[t]
    {
      ReferencesFall(deps[t], closed, j);
    }
    forall a | 0 <= a < |next'| ensures next'[a] < |deps| {
      assert next'[a] in next';
    }
    forall a | |next| <= a < |next'| ensures j in deps[next'[a]] {
      assert next'[a] in next';
      forall b | 0 <= b < |next| ensures next[b] != next'[a] {
        assert next[b] == next'[b];
      }
    }
    OrderNext(deps, prev, j, next, next');
  }

  /** One round: every task of `ready` is finished and its dependents are told. */
  method Sweep(ghost deps: Deps, ghost done: set<nat>, indegree: array<nat>, dependents: seq<seq<nat>>, ready: seq<nat>)
    returns (next: seq<nat>)
    requires InRange(deps) && Transposed(deps, dependents) && Frontier(deps, done, indegree[..], ready)
    modifies indegree
    ensures Frontier(deps, done + Elems(ready), indegree[..], next)
    ensures InOrder(deps, ready, next)
  {
    hide Closing, InOrder;
    next := [];
    ghost var closed := done;
    NothingInOrder(deps);
    for m := 0 to |ready|
      invariant closed == done + Elems(ready[..m])
      invariant forall i | 0 <= i < |deps| :: indegree[i] == Open(deps[i], closed)
      invariant forall i | 0 <= i < |deps| && old(indegree[i]) == 0 :: indegree[i] == 0
      invariant NoDup(next)
      invariant forall t: nat :: t in next <==> t < |deps| && old(indegree[t]) > 0 && indegree[t] == 0
      invariant InOrder(deps, ready[..m], next)
    {
      assert Elems(ready[..m + 1]) == Elems(ready[..m]) + {ready[m]};
      assert ready[..m + 1] == ready[..m] + [ready[m]];
      assert ready[m] in ready;
      ghost var before, next0 := indegree[..], next;
      forall i | 0 <= i < |deps| ensures Open(deps[i], closed + {ready[m]}) <= before[i] {
        OpenFinish(deps[i], closed, ready[m]);
      }
      next := Release(deps, indegree, dependents[ready[m]], next, closed, ready[m]);
      ReleasedInOrder(deps, ready[..m], closed, ready[m], before, indegree[..], next0, next);
      closed := closed + {ready[m]};
    }
    assert ready[..|ready|] == ready;
  }

  lemma NothingInOrder(deps: Deps)
    ensures InOrder(deps, [], [])
  {
  }

  /** In terms of the graph, a sweep over what is ready is its round `k`. */
  method RunRound(ghost deps: Deps, ghost k: nat, indegree: array<nat>, dependents: seq<seq<nat>>, ready: seq<nat>)
    returns (next: seq<nat>)
    requires InRange(deps) && Transposed(deps, dependents)
    requires Frontier(deps, Within(deps, k), indegree[..], ready)
    modifies indegree
    ensures Frontier(deps, Within(deps, k + 1), indegree[..], next) && InOrder(deps, ready, next)
    ensures ready != [] ==> IsRound(deps, k, ready)
    ensures |Within(deps, k)| + |ready| == |Within(deps, k + 1)| <= |deps|
  {
    AddRound(deps, k, indegree[..], ready);
    next := Sweep(deps, Within(deps, k), indegree, dependents, ready);
  }

  method FirstReady(ghost deps: Deps, indegree: array<nat>) returns (ready: seq<nat>)
    requires indegree.Length == |deps| && forall i | 0 <= i < |deps| :: indegree[i] == Open(deps[i], {})
    ensures Frontier(deps, {}, indegree[..], ready) && InOrder(deps, [], ready)
  {
    ready := [];
    for i := 0 to indegree.Length
      invariant forall a | 0 <= a < |ready| :: ready[a] < i
      invariant forall a, b | 0 <= a < b < |ready| :: ready[a] < ready[b]
      invariant NoDup(ready) && forall t: nat :: t in ready <==> t < i && indegree[t] == 0
    {
      if indegree[i] == 0 {
        ready := ready + [i];
      }
    }
  }

  /** Runs rounds until nothing is ready; the layers found are the non-empty rounds of the graph. */
  method PeelLayers(ghost deps: Deps, indegree: array<nat>, dependents: seq<seq<nat>>)
    returns (layers: seq<seq<nat>>, placed: nat)
    requires InRange(deps) && Transposed(deps, dependents) && indegree.Length == |deps|
    requires forall i | 0 <= i < |deps| :: indegree[i] == Open(deps[i], {})
    modifies indegree
    ensures placed == |Within(deps, |deps|)|
    ensures Within(deps, |layers|) == Within(deps, |deps|)
    ensures Rounds(deps, layers) && ListedInOrder(deps, layers)
  {
    hide InOrder, ListedInOrder, Frontier, Transposed, Within, Open, Rounds, IsRound;
    var ready := FirstReady(deps, indegree);
    layers, placed := [], 0;
    NoRounds(deps);
    while ready != []
      invariant placed == |Within(deps, |layers|)| >= |layers|
      invariant Rounds(deps, layers)
      invariant Frontier(deps, Within(deps, |layers|), indegree[..], ready)
      invariant ListedInOrder(deps, layers) && InOrder(deps, Above(layers, |layers|), ready)
      decreases |deps| - placed
    {
      var next := RunRound(deps, |layers|, indegree, dependents, ready);
      RoundsAppend(deps, layers, ready);
      ListOneMore(deps, layers, ready);
      layers := layers + [ready];
      placed := placed + |ready|;
      ready := next;
    }
    NothingReady(deps, |layers|, indegree[..]);
  }

  lemma ListOneMore(deps: Deps, layers: seq<seq<nat>>, layer: seq<nat>)
    requires ListedInOrder(deps, layers) && InOrder(deps, Above(layers, |layers|), layer)
    ensures ListedInOrder(deps, layers + [layer])
  {
    hide InOrder, Above;
    forall k: nat | k <= |layers| ensures InOrder(deps, Above(layers + [layer], k), (layers + [layer])[k]) {
      AboveOneMore(layers, layer, k);
    }
  }

  lemma AboveOneMore(layers: seq<seq<nat>>, layer: seq<nat>, k: nat)
    requires k <= |layers|
    ensures Above(layers + [layer], k) == Above(layers, k)
  {
  }

  lemma NoRounds(deps: Deps)
    ensures Within(deps, 0) == {} && Rounds(deps, []) && ListedInOrder(deps, [])
  {
  }

  lemma NothingReady(deps: Deps, k: nat, indegree: seq<nat>)
    requires Frontier(deps, Within(deps, k), indegree, []) && k <= |Within(deps, k)|
    ensures Within(deps, k) == Within(deps, |deps|)
  {
    NextRound(deps, k, indegree, []);
    WithinSize(deps, k);
    WithinFixpoint(deps, k, |deps|);
  }

  lemma AddRound(deps: Deps, k: nat, indegree: seq<nat>, ready: seq<nat>)
    requires Frontier(deps, Within(deps, k), indegree, ready)
    ensures ready != [] ==> IsRound(deps, k, ready)
    ensures Within(deps, k + 1) == Within(deps, k) + Elems(ready)
    ensures |Within(deps, k)| + |ready| == |Within(deps, k + 1)| <= |deps|
  {
    NextRound(deps, k, indegree, ready);
    NoDupSize(ready);
    WithinSize(deps, k + 1);
    assert Within(deps, k) !! Elems(ready);
  }

  lemma WithinSize(deps: Deps, k: nat)
    ensures |Within(deps, k)| <= |deps|
  {
    WithinInRange(deps, k);
    BelowSize(|deps|);
    SubsetSize(Within(deps, k), Below(|deps|));
  }

  /** The verdict on a plan of any size: unknown ids first, then cycles, then depth, and otherwise a layering. */
  method TopologicalLayers(plan: PlanSpec) returns (r: Result<seq<seq<nat>>, LayerError>)
    ensures (r.Failure? && r.error.Unresolved?) <==> !AllKnown(plan.tasks)
    ensures r.Failure? && r.error.Unresolved? ==> Dangles(plan.tasks, r.error.id, r.error.dep)
    ensures (r.Failure? && r.error.Cycle?) <==> AllKnown(plan.tasks) && HasCycle(DepsOf(plan.tasks))
    ensures (r.Failure? && r.error.TooManyLayers?) <==>
            && AllKnown(plan.tasks) && !HasCycle(DepsOf(plan.tasks))
            && HasChainOver(DepsOf(plan.tasks), 3)
    ensures r.Failure? && r.error.TooManyLayers? ==>
              forall m: nat :: HasChainOver(DepsOf(plan.tasks), m) <==> r.error.count > m
    ensures r.Success? ==> IsLayering(DepsOf(plan.tasks), r.value) && |r.value| <= 3
    ensures r.Success? ==> ListedInOrder(DepsOf(plan.tasks), r.value)
  {
    hide ListedInOrder;
    var indegree, dependents, bad := BuildKahn(plan);
    AllKnownIffInRange(plan.tasks);
    if bad.Some? {
      return Failure(bad.value);
    }
    ghost var deps := DepsOf(plan.tasks);
    var n := |plan.tasks|;
    CountedAll(deps, indegree[..], dependents);
    var layers, placed := PeelLayers(deps, indegree, dependents);
    CycleIffStuck(deps);
    BelowSize(n);
    if placed < n {
      return Failure(Cycle);
    }
    WithinInRange(deps, n);
    FullSubset(Within(deps, n), Below(n));
    forall m: nat ensures HasChainOver(deps, m) <==> |layers| > m {
      LayerCountIsLongestChain(deps, layers, m);
    }
    if |layers| > MAX_PLAN_LAYERS {
      return Failure(TooManyLayers(|layers|));
    }
    r := Success(layers);
  }

  lemma SameRound(deps: Deps, a: seq<seq<nat>>, b: seq<seq<nat>>, k: nat)
    requires Rounds(deps, a) && Rounds(deps, b) && ListedInOrder(deps, a) && ListedInOrder(deps, b)
    requires k < |a| && k < |b| && Above(a, k) == Above(b, k)
    ensures a[k] == b[k]
  {
    hide InOrder, Within, Above;
    assert IsRound(deps, k, a[k]) && IsRound(deps, k, b[k]);
    assert InOrder(deps, Above(a, k), a[k]) && InOrder(deps, Above(b, k), b[k]);
    OneOrder(deps, Above(a, k), a[k], b[k]);
  }

  /** Layers and the order inside them are all there is to say: only one list of layers meets both descriptions. */
  lemma LayersDetermined(deps: Deps, a: seq<seq<nat>>, b: seq<seq<nat>>, k: nat)
    requires Rounds(deps, a) && Rounds(deps, b) && ListedInOrder(deps, a) && ListedInOrder(deps, b)
    requires k < |a| && k < |b|
    ensures a[k] == b[k]
  {
    hide ListedInOrder, Rounds;
    if k > 0 {
      LayersDetermined(deps, a, b, k - 1);
    }
    SameRound(deps, a, b, k);
  }

  lemma NoElems(row: seq<nat>)
    ensures row == [] <==> Elems(row) == {}
  {
    if row != [] {
      assert row[0] in Elems(row);
    }
  }

  lemma {:induction false} OneOrder(deps: Deps, prev: seq<nat>, a: seq<nat>, b: seq<nat>)
    requires InOrder(deps, prev, a) && InOrder(deps, prev, b) && Elems(a) == Elems(b)
    ensures a == b
  {
    NoElems(a);
    NoElems(b);
    if a != [] {
      assert a[0] in Elems(b) && b[0] in Elems(a);
      var i :| 0 <= i < |b| && b[i] == a[0];
      var j :| 0 <= j < |a| && a[j] == b[0];
      assert i == 0;
      forall t ensures t in Elems(a[1..]) <==> t in Elems(b[1..]) {
        assert t in Elems(a) <==> t == a[0] || t in Elems(a[1..]);
        assert t in Elems(b) <==> t == b[0] || t in Elems(b[1..]);
      }
      OneOrder(deps, prev, a[1..], b[1..]);
    }
  }

  lemma FullSubset(a: set<nat>, b: set<nat>)
    requires a <= b && |a| >= |b|
    ensures a == b
  {
    assert b == a + (b - a);
  }

  /** The tasks whose open references are all closed are exactly the ones that finish in the next round. */
  lemma NextRound(deps: Deps, k: nat, indegree: seq<nat>, ready: seq<nat>)
    requires Frontier(deps, Within(deps, k), indegree, ready)
    ensures Elems(ready) == Within(deps, k + 1) - Within(deps, k)
    ensures Within(deps, k) + Elems(ready) == Within(deps, k + 1)
  {
    forall t: nat | t < |deps|
      ensures t in Within(deps, k + 1) <==> Open(deps[t], Within(deps, k)) == 0
    {
      OpenZero(deps[t], Within(deps, k));
    }
    WithinMonotone(deps, k, k + 1);
    WithinInRange(deps, k + 1);
  }
}
