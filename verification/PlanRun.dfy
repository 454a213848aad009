/** What a plan run means: results task by task, layer by layer, and the record each task leaves. */
module PlanRun {
  import opened Prelude
  import opened DependencyGraph
  import opened PlanTask

  const UPSTREAM_SNIPPET_MAX_CHARS: nat := 4000

  datatype Status = Ok | Failed | Skipped

  /** The JSON object a task produced: the members that prompts and reports read, and everything else. */
  datatype Value = Value(response: Field, error: Field, artifactPath: Field, summary: Field, rest: string)

  datatype Outcome = Outcome(status: Status, value: Value)

  type Outcomes = seq<Option<Outcome>>

  /** The sub-agent runner (by task, prompt and attempt), the delegation gate (by task and prompt), JSON rendering. */
  datatype Oracle = Oracle(
    run: (nat, string, nat) -> Value,
    validate: (nat, string) -> Option<string>,
    render: Value -> string)

  /** The fixed texts of prompts and reports; nothing proved here depends on how they read. */
  datatype Wording = Wording(header: string, sectionOpen: string, sectionBody: string, truncated: string,
                             blocked: string, neverScheduled: string)

  datatype Problem = Problem(plan: PlanSpec, deps: Deps, oracle: Oracle, words: Wording) {
    ghost predicate Fits(outs: Outcomes) {
      InRange(deps) && |outs| == |plan.tasks| == |deps|
    }

    /** `deps` are the plan's own dependency lists, resolved to positions. */
    ghost predicate Resolved() {
      |deps| == |plan.tasks| && forall i | 0 <= i < |deps| :: deps[i] == Row(plan.tasks, plan.tasks[i].dependsOn)
    }
  }

  function ErrorOutcome(status: Status, error: string): Outcome {
    Outcome(status, Value(Absent, Text(error), Absent, Absent, ""))
  }

  /** A run failed exactly when its value carries an `error` member of any kind. */
  function RunOutcome(value: Value): Outcome {
    Outcome(if value.error.Absent? then Ok else Failed, value)
  }

  /** A run is ok exactly when its value has no error, and is recorded with the value it returned. */
  lemma RunOutcomeReads(value: Value)
    ensures RunOutcome(value).status == (if value.error == Absent then Ok else Failed)
    ensures RunOutcome(value).value == value
  {
  }

  predicate IsOk(o: Option<Outcome>) {
    o.Some? && o.value.status.Ok?
  }

  // ----- Prompts -----

  /** The answer text when there is one, otherwise the whole object as JSON, cut to the first 4000 characters. */
  function UpstreamSnippet(p: Problem, value: Value): string {
    var text := if value.response.Text? then value.response.text else p.oracle.render(value);
    if |text| > UPSTREAM_SNIPPET_MAX_CHARS then text[..UPSTREAM_SNIPPET_MAX_CHARS] + p.words.truncated else text
  }

  /** What a task is told of an answer: the response when it is text, otherwise the whole value as JSON; all of it up to
      4000 characters, and beyond that its first 4000 with a mark. */
  lemma SnippetReads(p: Problem, value: Value)
    ensures var text, told := if value.response.Text? then value.response.text else p.oracle.render(value),
              UpstreamSnippet(p, value);
            && (|text| <= 4000 ==> told == text)
            && (|text| > 4000 ==> |told| == 4000 + |p.words.truncated| && told[..4000] == text[..4000]
                                  && told[4000..] == p.words.truncated)
  {
  }

  function Section(words: Wording, upstream: (string, string)): string {
    words.sectionOpen + upstream.0 + words.sectionBody + upstream.1
  }

  function Sections(words: Wording, upstream: seq<(string, string)>): string {
    if upstream == [] then ""
    else Sections(words, upstream[..|upstream| - 1]) + Section(words, upstream[|upstream| - 1])
  }

  function ComposedPrompt(words: Wording, base: string, upstream: seq<(string, string)>): string {
    if upstream == [] then base else base + words.header + Sections(words, upstream)
  }

  /** The brief, followed by one section per upstream output in the order the dependencies are listed. */
  method ComposeTaskPrompt(words: Wording, base: string, upstream: seq<(string, string)>) returns (prompt: string)
    ensures prompt == ComposedPrompt(words, base, upstream)
  {
    if upstream == [] {
      return base;
    }
    prompt := base + words.header;
    for k := 0 to |upstream|
      invariant prompt == base + words.header + Sections(words, upstream[..k])
    {
      assert upstream[..k + 1][..k] == upstream[..k];
      prompt := prompt + Section(words, upstream[k]);
    }
    assert upstream[..|upstream|] == upstream;
  }

  // ----- The result of one task, given the outcomes of the layers before it -----

  ghost predicate Unblocked(p: Problem, outs: Outcomes, i: nat)
    requires p.Fits(outs) && i < |outs|
  {
    forall d | d in p.deps[i] :: IsOk(outs[d])
  }

  ghost function Upstream(p: Problem, outs: Outcomes, i: nat): seq<(string, string)>
    requires p.Fits(outs) && i < |outs|
  {
    var row := p.deps[i];
    seq(|row|, k requires 0 <= k < |row| =>
      assert row[k] in row;
      (p.plan.tasks[row[k]].id, UpstreamSnippet(p, Reported(p, outs[row[k]]).value)))
  }

  ghost function Prompt(p: Problem, outs: Outcomes, i: nat): string
    requires p.Fits(outs) && i < |outs|
  {
    ComposedPrompt(p.words, p.plan.tasks[i].prompt, Upstream(p, outs, i))
  }

  ghost predicate Runs(p: Problem, outs: Outcomes, i: nat)
    requires p.Fits(outs) && i < |outs|
  {
    Unblocked(p, outs, i) && p.oracle.validate(i, Prompt(p, outs, i)).None?
  }

  ghost function Attempt(p: Problem, outs: Outcomes, i: nat, attempt: nat): Outcome
    requires p.Fits(outs) && i < |outs|
  {
    RunOutcome(p.oracle.run(i, Prompt(p, outs, i), attempt))
  }

  ghost predicate RunsTwice(p: Problem, outs: Outcomes, i: nat)
    requires p.Fits(outs) && i < |outs|
  {
    Runs(p, outs, i) && p.plan.tasks[i].onFailure.Retry? && Attempt(p, outs, i, 1).status.Failed?
  }

  ghost function TaskResult(p: Problem, outs: Outcomes, i: nat): Outcome
    requires p.Fits(outs) && i < |outs|
  {
    if !Unblocked(p, outs, i) then ErrorOutcome(Skipped, p.words.blocked)
    else match p.oracle.validate(i, Prompt(p, outs, i))
      case Some(error) => ErrorOutcome(Failed, error)
      case None => Attempt(p, outs, i, if RunsTwice(p, outs, i) then 2 else 1)
  }

  /** The two outcomes look alike to a task that depends on them: both are unusable, or both give the same snippet. */
  ghost predicate LooksAlike(p: Problem, a: Option<Outcome>, b: Option<Outcome>) {
    && (IsOk(a) <==> IsOk(b))
    && (IsOk(a) ==> UpstreamSnippet(p, a.value.value) == UpstreamSnippet(p, b.value.value))
  }

  /** A task's result depends only on how its direct dependencies look. */
  lemma SameView(p: Problem, a: Outcomes, b: Outcomes, i: nat)
    requires p.Fits(a) && p.Fits(b) && i < |a|
    requires forall d | d in p.deps[i] :: LooksAlike(p, a[d], b[d])
    ensures Unblocked(p, a, i) <==> Unblocked(p, b, i)
    ensures Unblocked(p, a, i) ==> Upstream(p, a, i) == Upstream(p, b, i)
    ensures TaskResult(p, a, i) == TaskResult(p, b, i)
  {
    if Unblocked(p, a, i) {
      var row := p.deps[i];
      forall k | 0 <= k < |row| ensures Upstream(p, a, i)[k] == Upstream(p, b, i)[k] {
        assert row[k] in row;
      }
      assert Upstream(p, a, i) == Upstream(p, b, i);
    }
  }

  // ----- Layers -----

  /** The outcomes once the unsettled tasks of `done` are settled, all of them against the same `before`. */
  ghost predicate Settled(p: Problem, before: Outcomes, done: set<nat>, outs: Outcomes)
    requires p.Fits(before)
  {
    && |outs| == |before|
    && forall i | 0 <= i < |outs| ::
         outs[i] == if i in done && before[i].None? then Some(TaskResult(p, before, i)) else before[i]
  }

  ghost function Settle(p: Problem, before: Outcomes, done: set<nat>): (outs: Outcomes)
    requires p.Fits(before)
    ensures Settled(p, before, done, outs)
  {
    seq(|before|, i requires 0 <= i < |before| =>
      if i in done && before[i].None? then Some(TaskResult(p, before, i)) else before[i])
  }

  /** A task of `done` was settled as failed and its failure edge is `halt`. */
  ghost predicate HaltHit(p: Problem, before: Outcomes, done: set<nat>)
    requires p.Fits(before)
  {
    exists i :: i in done && i < |before| && before[i].None? && p.plan.tasks[i].onFailure.Halt?
                && TaskResult(p, before, i).status.Failed?
  }

  datatype Progress = Progress(outs: Outcomes, halted: bool)

  /** Outcomes after the first `k` layers; once a layer halts, later layers change nothing. */
  ghost function After(p: Problem, layers: seq<seq<nat>>, init: Outcomes, k: nat): (r: Progress)
    requires p.Fits(init) && k <= |layers|
    ensures p.Fits(r.outs)
  {
    if k == 0 then Progress(init, false) else
      var b := After(p, layers, init, k - 1);
      if b.halted then b
      else Progress(Settle(p, b.outs, Elems(layers[k - 1])), HaltHit(p, b.outs, Elems(layers[k - 1])))
  }

  ghost function Final(p: Problem, layers: seq<seq<nat>>, init: Outcomes): (r: Progress)
    requires p.Fits(init)
    ensures p.Fits(r.outs)
  {
    After(p, layers, init, |layers|)
  }

  /** What the report says of a task: its outcome, or that it was never scheduled. */
  function Reported(p: Problem, o: Option<Outcome>): Outcome {
    if o.Some? then o.value else ErrorOutcome(Skipped, p.words.neverScheduled)
  }

  datatype TaskRow = TaskRow(id: string, agent: string, status: Status, response: Field, error: Field,
                             artifactPath: Field, summary: Field)

  /** The report's row for a task that ended with `o`. */
  function RowFor(p: Problem, i: nat, o: Outcome): TaskRow
    requires i < |p.plan.tasks|
  {
    var v := o.value;
    TaskRow(p.plan.tasks[i].id, p.plan.tasks[i].agent, o.status, v.response, v.error, v.artifactPath, v.summary)
  }

  // ----- Records -----

  /** A run handed to the sub-agent runner, or a checkpoint written. */
  datatype Event = Started(task: nat, prompt: string, attempt: nat) | Saved(task: nat, outcome: Outcome)

  ghost function EventsOf(log: seq<Event>, i: nat): seq<Event> {
    if log == [] then []
    else EventsOf(log[..|log| - 1], i) + if log[|log| - 1].task == i then [log[|log| - 1]] else []
  }

  /** What settling one task records. */
  ghost function History(p: Problem, outs: Outcomes, i: nat): (events: seq<Event>)
    requires p.Fits(outs) && i < |outs|
    ensures events != [] && events[|events| - 1] == Saved(i, TaskResult(p, outs, i))
    ensures forall k | 0 <= k < |events| - 1 && events[k].Saved? :: !events[k].outcome.status.Ok?
  {
    if !Runs(p, outs, i) then [Saved(i, TaskResult(p, outs, i))]
    else
      var prompt := Prompt(p, outs, i);
      var first := [Started(i, prompt, 1), Saved(i, Attempt(p, outs, i, 1))];
      if RunsTwice(p, outs, i) then first + [Started(i, prompt, 2), Saved(i, Attempt(p, outs, i, 2))] else first
  }

  /** What a run records of task `i` in its first `k` layers. */
  ghost function Record(p: Problem, layers: seq<seq<nat>>, init: Outcomes, k: nat, i: nat): seq<Event>
    requires p.Fits(init) && k <= |layers| && i < |init|
  {
    if k == 0 then [] else
      var b := After(p, layers, init, k - 1);
      Record(p, layers, init, k - 1, i) +
      if !b.halted && i in layers[k - 1] && b.outs[i].None? then History(p, b.outs, i) else []
  }

  /** The last record of `i` is an ok checkpoint, or `i` was replayed as ok and never touched. */
  ghost predicate StandsOk(init: Outcomes, log: seq<Event>, i: nat) {
    var events := EventsOf(log, i);
    if events == [] then i < |init| && IsOk(init[i])
    else events[|events| - 1].Saved? && events[|events| - 1].outcome.status.Ok?
  }

  ghost predicate DepsStand(p: Problem, init: Outcomes, log: seq<Event>, i: nat)
    requires p.Fits(init)
  {
    i < |init| && forall d | d in p.deps[i] :: StandsOk(init, log, d)
  }

  /** At the moment each run starts, every dependency of its task stands ok. */
  ghost predicate RunsSafely(p: Problem, init: Outcomes, log: seq<Event>)
    requires p.Fits(init)
  {
    forall q | 0 <= q < |log| && log[q].Started? :: DepsStand(p, init, log[..q], log[q].task)
  }

  /** `log` is a record of a whole run: per task it holds exactly what the run's meaning prescribes, and every run in
      it started safely. */
  ghost predicate IsRunLog(p: Problem, layers: seq<seq<nat>>, init: Outcomes, log: seq<Event>)
    requires p.Fits(init)
  {
    && (forall i: nat | i >= |init| :: EventsOf(log, i) == [])
    && (forall i | 0 <= i < |init| :: EventsOf(log, i) == Record(p, layers, init, |layers|, i))
    && RunsSafely(p, init, log)
  }

  lemma {:induction false} EventsOfAppend(a: seq<Event>, b: seq<Event>, i: nat)
    ensures EventsOf(a + b, i) == EventsOf(a, i) + EventsOf(b, i)
  {
    if b == [] {
      assert a + b == a;
    } else {
      assert (a + b)[..|a + b| - 1] == a + b[..|b| - 1];
      EventsOfAppend(a, b[..|b| - 1], i);
    }
  }

  /** Events of distinct tasks: each task sees its own. */
  lemma {:induction false} EventsOfDistinct(events: seq<Event>, ids: seq<nat>, i: nat)
    requires |events| == |ids| && NoDup(ids) && forall k | 0 <= k < |ids| :: events[k].task == ids[k]
    ensures i !in ids ==> EventsOf(events, i) == []
    ensures forall k | 0 <= k < |ids| && ids[k] == i :: EventsOf(events, i) == [events[k]]
  {
    if ids != [] {
      var m := |ids| - 1;
      EventsOfDistinct(events[..m], ids[..m], i);
      assert ids[m] == i ==> i !in ids[..m];
    }
  }

  /** What one layer adds for one task. */
  lemma LayerStep(p: Problem, layers: seq<seq<nat>>, init: Outcomes, k: nat, i: nat)
    requires p.Fits(init) && k < |layers| && i < |init|
    ensures var b := After(p, layers, init, k);
            if !b.halted && i in layers[k] && b.outs[i].None?
            then Record(p, layers, init, k + 1, i) == Record(p, layers, init, k, i) + History(p, b.outs, i)
                 && After(p, layers, init, k + 1).outs[i] == Some(TaskResult(p, b.outs, i))
            else Record(p, layers, init, k + 1, i) == Record(p, layers, init, k, i)
                 && After(p, layers, init, k + 1).outs[i] == b.outs[i]
  {
    assert i in layers[k] <==> i in Elems(layers[k]);
  }

  /** `events` ends with the checkpoint of `o`, the only one that may be ok; with no events `o` is as it began. */
  ghost predicate Closes(events: seq<Event>, i: nat, began: Option<Outcome>, o: Option<Outcome>) {
    if events == [] then o == began
    else began.None? && o.Some? && events[|events| - 1] == Saved(i, o.value)
         && forall q | 0 <= q < |events| - 1 && events[q].Saved? :: !events[q].outcome.status.Ok?
  }

  lemma NothingCloses(p: Problem, layers: seq<seq<nat>>, init: Outcomes, i: nat)
    requires p.Fits(init) && i < |init|
    ensures Closes(Record(p, layers, init, 0, i), i, init[i], After(p, layers, init, 0).outs[i])
  {
  }

  /** A task leaves no record while its outcome stands as it began; the record ends with the outcome's checkpoint. */
  lemma {:induction false} RecordShape(p: Problem, layers: seq<seq<nat>>, init: Outcomes, k: nat, i: nat)
    requires p.Fits(init) && k <= |layers| && i < |init|
    ensures Closes(Record(p, layers, init, k, i), i, init[i], After(p, layers, init, k).outs[i])
  {
    hide Settled, HaltHit, TaskResult, History, After, Record;
    if k == 0 {
      NothingCloses(p, layers, init, i);
    } else {
      RecordShape(p, layers, init, k - 1, i);
      LayerStep(p, layers, init, k - 1, i);
      var b := After(p, layers, init, k - 1);
      if !b.halted && i in layers[k - 1] && b.outs[i].None? {
        assert Record(p, layers, init, k - 1, i) == [];
        assert Record(p, layers, init, k, i) == History(p, b.outs, i);
      }
    }
  }

  lemma {:induction false} HaltedStays(p: Problem, layers: seq<seq<nat>>, init: Outcomes, k: nat, m: nat)
    requires p.Fits(init) && k <= m <= |layers| && After(p, layers, init, k).halted
    ensures After(p, layers, init, m) == After(p, layers, init, k)
    ensures forall i | 0 <= i < |init| :: Record(p, layers, init, m, i) == Record(p, layers, init, k, i)
  {
    if k < m {
      HaltedStays(p, layers, init, k, m - 1);
    }
  }
}
