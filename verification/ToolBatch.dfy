/** Answering the pending tool calls of one round, on every way out of the round. */
module ToolBatch {
  import opened Prelude

  datatype Invocation = Invocation(name: string, args: string)

  /** One answer, addressed to a call by its id. */
  datatype Content = ToolResult(id: string, name: string, text: string)

  datatype PendingCall = PendingCall(id: string, name: string, args: string, preresolved: Option<Content>)

  datatype InvocationResult = InvocationResult(invocation: Invocation, output: string)

  /** What the dispatcher says of one invocation: results, or an error that may end the whole batch. */
  datatype Reply = Batch(results: seq<InvocationResult>) | KernelError(message: string, terminates: bool)

  /** The normaliser, the dispatcher (which sees the position in the batch), output screening, and the fixed texts. */
  datatype Env = Env(
    normalize: (string, string) -> Result<Invocation, string>,
    dispatch: (nat, Invocation) -> Reply,
    screen: string -> string,
    invalid: string -> string,
    failed: string -> string,
    feedback: string -> string,
    noResult: string,
    capReached: string)

  // ----- What each call is owed -----

  /** The result recorded for one invocation; `Failure` when its error ends the batch. */
  function Entry(env: Env, k: nat, inv: Invocation): Result<InvocationResult, string> {
    match env.dispatch(k, inv)
    case Batch(results) =>
      Success(if results == [] then InvocationResult(inv, env.noResult) else results[|results| - 1])
    case KernelError(message, terminates) =>
      if terminates then Failure(message) else Success(InvocationResult(inv, env.failed(message)))
  }

  predicate Dispatchable(env: Env, call: PendingCall) {
    call.preresolved.None? && env.normalize(call.name, call.args).Success?
  }

  /** The calls that reach the dispatcher, with their ids, in order. */
  function Dispatched(env: Env, calls: seq<PendingCall>): seq<(string, Invocation)> {
    if calls == [] then []
    else
      var last := calls[|calls| - 1];
      Dispatched(env, calls[..|calls| - 1]) +
      if Dispatchable(env, last) then [(last.id, env.normalize(last.name, last.args).value)] else []
  }

  /** The first invocation whose error ends the batch, if there is one. */
  ghost function Termination(env: Env, dispatch: seq<(string, Invocation)>): Option<string> {
    if dispatch == [] then None
    else
      var m := |dispatch| - 1;
      var early := Termination(env, dispatch[..m]);
      if early.Some? then early
      else match Entry(env, m, dispatch[m].1)
        case Success(_) => None
        case Failure(message) => Some(message)
  }

  datatype Exit = RoundCap | NothingToDispatch | Terminated(message: string) | Normal

  ghost function ExitOf(env: Env, calls: seq<PendingCall>, round: nat, maxRounds: nat): Exit {
    if round > maxRounds then RoundCap
    else
      var dispatch := Dispatched(env, calls);
      if dispatch == [] then NothingToDispatch
      else if Termination(env, dispatch).Some? then Terminated(Termination(env, dispatch).value)
      else Normal
  }

  /** The answer to one call when the batch runs; `k` is its position among the dispatched ones. */
  ghost function OwnAnswer(env: Env, call: PendingCall, k: nat): Content {
    if call.preresolved.Some? then call.preresolved.value
    else match env.normalize(call.name, call.args)
      case Failure(error) => ToolResult(call.id, call.name, env.invalid(error))
      case Success(inv) =>
        match Entry(env, k, inv)
        case Success(r) => ToolResult(call.id, r.invocation.name, env.screen(r.output))
        case Failure(message) => ToolResult(call.id, inv.name, env.feedback(message))
  }

  ghost function OwnAnswers(env: Env, calls: seq<PendingCall>): seq<Content> {
    if calls == [] then []
    else
      var early := calls[..|calls| - 1];
      OwnAnswers(env, early) + [OwnAnswer(env, calls[|calls| - 1], |Dispatched(env, early)|)]
  }

  ghost function SameAnswer(calls: seq<PendingCall>, text: string): seq<Content> {
    seq(|calls|, k requires 0 <= k < |calls| => ToolResult(calls[k].id, calls[k].name, text))
  }

  ghost function Owed(env: Env, exit: Exit, calls: seq<PendingCall>): seq<Content> {
    match exit
    case RoundCap => SameAnswer(calls, env.capReached)
    case Terminated(message) => SameAnswer(calls, env.feedback(message))
    case _ => OwnAnswers(env, calls)
  }

  // ----- The code -----

  method PlanToolBatch(env: Env, calls: seq<PendingCall>) returns (dispatch: seq<(string, Invocation)>,
                       answers: seq<Content>)
    ensures dispatch == Dispatched(env, calls)
    ensures answers == Inline(env, calls)
  {
    dispatch, answers := [], [];
    for k := 0 to |calls|
      invariant dispatch == Dispatched(env, calls[..k])
      invariant answers == Inline(env, calls[..k])
    {
      assert calls[..k + 1][..k] == calls[..k];
      var pending := calls[k];
      if pending.preresolved.Some? {
        answers := answers + [pending.preresolved.value];
        continue;
      }
      match env.normalize(pending.name, pending.args) {
        case Success(inv) => dispatch := dispatch + [(pending.id, inv)];
        case Failure(error) => answers := answers + [ToolResult(pending.id, pending.name, env.invalid(error))];
      }
    }
    assert calls[..|calls|] == calls;
  }

  /** The answers given without dispatching anything, in call order. */
  ghost function Inline(env: Env, calls: seq<PendingCall>): seq<Content> {
    if calls == [] then []
    else
      var last := calls[|calls| - 1];
      Inline(env, calls[..|calls| - 1]) + if Dispatchable(env, last) then [] else [OwnAnswer(env, last, 0)]
  }

  ghost predicate Recorded(env: Env, dispatch: seq<(string, Invocation)>, results: seq<InvocationResult>) {
    |results| == |dispatch| && forall k | 0 <= k < |dispatch| :: Entry(env, k, dispatch[k].1) == Success(results[k])
  }

  /** The dispatcher's error for invocation `k` is one that ends the batch. */
  ghost predicate EndsBatch(env: Env, dispatch: seq<(string, Invocation)>, k: nat) {
    && k < |dispatch|
    && env.dispatch(k, dispatch[k].1).KernelError? && env.dispatch(k, dispatch[k].1).terminates
  }

  /** The last result of a reply, a stand-in for an empty one, and for an error a result that carries it. */
  ghost predicate Isolates(env: Env, k: nat, inv: Invocation, result: InvocationResult) {
    match env.dispatch(k, inv)
    case Batch(results) =>
      result == if results == [] then InvocationResult(inv, env.noResult) else results[|results| - 1]
    case KernelError(message, _) => result == InvocationResult(inv, env.failed(message))
  }

  lemma {:induction false} TerminationReads(env: Env, dispatch: seq<(string, Invocation)>)
    ensures Termination(env, dispatch).Some? <==> exists k: nat :: EndsBatch(env, dispatch, k)
    ensures Termination(env, dispatch).Some? ==>
              exists k: nat :: EndsBatch(env, dispatch, k)
                          && Termination(env, dispatch).value == env.dispatch(k, dispatch[k].1).message
                          && forall j | 0 <= j < k :: !EndsBatch(env, dispatch, j)
  {
    if dispatch != [] {
      var m := |dispatch| - 1;
      TerminationReads(env, dispatch[..m]);
      forall k: nat | k < m ensures EndsBatch(env, dispatch[..m], k) <==> EndsBatch(env, dispatch, k) {
      }
      if Termination(env, dispatch[..m]).Some? {
        var k: nat :| EndsBatch(env, dispatch[..m], k) && (forall j | 0 <= j < k :: !EndsBatch(env, dispatch[..m], j))
          && Termination(env, dispatch[..m]).value == env.dispatch(k, dispatch[..m][k].1).message;
        assert EndsBatch(env, dispatch, k);
      } else {
        assert Termination(env, dispatch).Some? <==> EndsBatch(env, dispatch, m);
        assert forall k: nat | EndsBatch(env, dispatch, k) :: k == m;
      }
    }
  }

  lemma RecordedReads(env: Env, dispatch: seq<(string, Invocation)>, results: seq<InvocationResult>)
    requires Recorded(env, dispatch, results)
    ensures forall k | 0 <= k < |dispatch| :: Isolates(env, k, dispatch[k].1, results[k])
  {
    forall k | 0 <= k < |dispatch| ensures Isolates(env, k, dispatch[k].1, results[k]) {
      assert Entry(env, k, dispatch[k].1) == Success(results[k]);
    }
  }

  /** All results in invocation order, or the first error that ends the batch. */
  method DispatchTimed(env: Env, dispatch: seq<(string, Invocation)>) returns (r: Result<seq<InvocationResult>, string>)
    ensures r.Failure? <==> Termination(env, dispatch).Some?
    ensures r.Failure? ==> r.error == Termination(env, dispatch).value
    ensures r.Success? ==> Recorded(env, dispatch, r.value)
    ensures r.Failure? <==> exists k: nat :: EndsBatch(env, dispatch, k)
    ensures r.Failure? ==>
              exists k: nat :: EndsBatch(env, dispatch, k) && r.error == env.dispatch(k, dispatch[k].1).message
                          && forall j | 0 <= j < k :: !EndsBatch(env, dispatch, j)
    ensures r.Success? ==>
              && |r.value| == |dispatch|
              && forall k | 0 <= k < |dispatch| :: Isolates(env, k, dispatch[k].1, r.value[k])
  {
    TerminationReads(env, dispatch);
    var results := [];
    var stopped: Option<string> := None;
    for k := 0 to |dispatch|
      invariant stopped == Termination(env, dispatch[..k])
      invariant stopped.None? ==> Recorded(env, dispatch[..k], results)
    {
      assert dispatch[..k + 1][..k] == dispatch[..k];
      if stopped.None? {
        match Entry(env, k, dispatch[k].1) {
          case Success(result) => results := results + [result];
          case Failure(message) => stopped := Some(message);
        }
      }
    }
    assert dispatch[..|dispatch|] == dispatch;
    r := if stopped.Some? then Failure(stopped.value) else Success(results);
    if stopped.None? {
      RecordedReads(env, dispatch, results);
    }
  }

  /** With answers they are posted as they are; without any, every pending call is told that nothing came of it. */
  lemma EnsuredReads(env: Env, answers: seq<Content>, pending: seq<PendingCall>)
    ensures answers != [] ==> EnsuredToolResults(env, answers, pending) == Some(answers)
    ensures answers == [] && pending == [] ==> EnsuredToolResults(env, answers, pending) == None
    ensures answers == [] && pending != [] ==>
              && EnsuredToolResults(env, answers, pending).Some?
              && |EnsuredToolResults(env, answers, pending).value| == |pending|
              && forall k | 0 <= k < |pending| ::
                   EnsuredToolResults(env, answers, pending).value[k] ==
                   ToolResult(pending[k].id, pending[k].name, env.noResult)
  {
  }

  /** Posts answers; with none to post, one synthetic answer per pending call, or nothing when nothing is pending. */
  function EnsuredToolResults(env: Env, answers: seq<Content>, pending: seq<PendingCall>): Option<seq<Content>> {
    if answers != [] then Some(answers)
    else if pending == [] then None
    else Some(seq(|pending|, k requires 0 <= k < |pending| => ToolResult(pending[k].id, pending[k].name, env.noResult)))
  }

  /** One round of calls: whatever the way out, the posted answers are a permutation of what the calls are owed. */
  method AnswerCalls(env: Env, calls: seq<PendingCall>, round: nat, maxRounds: nat)
    returns (posted: Option<seq<Content>>, ended: bool)
    ensures ended <==> ExitOf(env, calls, round, maxRounds).RoundCap?
    ensures posted.None? <==> calls == []
    ensures posted.Some? ==> Bag(posted.value) == Bag(Owed(env, ExitOf(env, calls, round, maxRounds), calls))
  {
    hide Bag;
    if round > maxRounds {
      var answers := AnswerAll(calls, env.capReached);
      return EnsuredToolResults(env, answers, calls), true;
    }
    var dispatch, answers := PlanToolBatch(env, calls);
    InlineAndDispatched(env, calls);
    if dispatch == [] {
      BagConcat(answers, []);
      assert answers + [] == answers;
      return EnsuredToolResults(env, answers, calls), false;
    }
    var results := DispatchTimed(env, dispatch);
    if results.Failure? {
      var all := AnswerAll(calls, env.feedback(results.error));
      return EnsuredToolResults(env, all, calls), false;
    }
    var late := ReadResults(env, dispatch, results.value);
    BagConcat(answers, late);
    return EnsuredToolResults(env, answers + late, calls), false;
  }

  /** Each result goes to the call id that its invocation was dispatched with. */
  method ReadResults(env: Env, dispatch: seq<(string, Invocation)>,
                     results: seq<InvocationResult>) returns (late: seq<Content>)
    requires Recorded(env, dispatch, results)
    ensures late == Late(env, dispatch)
  {
    late := [];
    for k := 0 to |dispatch|
      invariant late == Late(env, dispatch[..k])
    {
      assert dispatch[..k + 1][..k] == dispatch[..k];
      late := late + [ToolResult(dispatch[k].0, results[k].invocation.name, env.screen(results[k].output))];
    }
    assert dispatch[..|dispatch|] == dispatch;
  }

  method AnswerAll(calls: seq<PendingCall>, text: string) returns (answers: seq<Content>)
    ensures answers == SameAnswer(calls, text)
  {
    answers := [];
    for k := 0 to |calls|
      invariant |answers| == k && forall m | 0 <= m < k :: answers[m] == ToolResult(calls[m].id, calls[m].name, text)
    {
      answers := answers + [ToolResult(calls[k].id, calls[k].name, text)];
    }
  }

  /** The answers read off the dispatched results, in batch order. */
  ghost function Late(env: Env, dispatch: seq<(string, Invocation)>): seq<Content> {
    if dispatch == [] then []
    else
      var m := |dispatch| - 1;
      Late(env, dispatch[..m]) +
      [match Entry(env, m, dispatch[m].1)
       case Success(r) => ToolResult(dispatch[m].0, r.invocation.name, env.screen(r.output))
       case Failure(message) => ToolResult(dispatch[m].0, dispatch[m].1.name, env.feedback(message))]
  }

  // ----- What the answers say -----

  /** `c` is the right answer to a call that reached the dispatcher at position `j`. */
  ghost predicate TellsResult(env: Env, call: PendingCall, inv: Invocation, j: nat, c: Content) {
    exists result :: Isolates(env, j, inv, result)
                     && c == ToolResult(call.id, result.invocation.name, env.screen(result.output))
  }

  /** `c` is the right answer to `call` when its round ran to the end. */
  ghost predicate Answers(env: Env, dispatch: seq<(string, Invocation)>, call: PendingCall, c: Content) {
    if call.preresolved.Some? then c == call.preresolved.value
    else match env.normalize(call.name, call.args)
      case Failure(error) => c == ToolResult(call.id, call.name, env.invalid(error))
      case Success(inv) =>
        exists j: nat :: j < |dispatch| && dispatch[j] == (call.id, inv) && TellsResult(env, call, inv, j, c)
  }

  lemma {:induction false} DispatchedAt(env: Env, calls: seq<PendingCall>, k: nat)
    requires k < |calls| && Dispatchable(env, calls[k])
    ensures var j := |Dispatched(env, calls[..k])|;
            j < |Dispatched(env, calls)|
            && Dispatched(env, calls)[j] == (calls[k].id, env.normalize(calls[k].name, calls[k].args).value)
  {
    var m := |calls| - 1;
    if k < m {
      assert calls[..m][..k] == calls[..k];
      DispatchedAt(env, calls[..m], k);
    }
  }

  lemma {:induction false} OwnAnswerAt(env: Env, calls: seq<PendingCall>, k: nat)
    requires k < |calls|
    ensures |OwnAnswers(env, calls)| == |calls|
    ensures OwnAnswers(env, calls)[k] == OwnAnswer(env, calls[k], |Dispatched(env, calls[..k])|)
  {
    var m := |calls| - 1;
    if m > 0 {
      OwnAnswerAt(env, calls[..m], if k < m then k else 0);
    }
    if k < m {
      assert calls[..m][..k] == calls[..k];
    }
  }

  /** On every exit call number `k` is owed the right answer: at the round cap the cap's text, when an error ended the
      batch that error's feedback, and otherwise its own preresolved, rejected or dispatched answer. */
  lemma OwedReads(env: Env, calls: seq<PendingCall>, round: nat, maxRounds: nat, k: nat)
    requires k < |calls|
    ensures var dispatch, owed := Dispatched(env, calls), Owed(env, ExitOf(env, calls, round, maxRounds), calls);
            && |owed| == |calls|
            && (round > maxRounds ==> owed[k] == ToolResult(calls[k].id, calls[k].name, env.capReached))
            && (round <= maxRounds && (exists j: nat :: EndsBatch(env, dispatch, j)) ==>
                  exists j: nat :: EndsBatch(env, dispatch, j)
                              && (forall a | 0 <= a < j :: !EndsBatch(env, dispatch, a))
                              && owed[k] == ToolResult(calls[k].id, calls[k].name,
                                                       env.feedback(env.dispatch(j, dispatch[j].1).message)))
            && (round <= maxRounds && (forall j: nat :: !EndsBatch(env, dispatch, j)) ==>
                  Answers(env, dispatch, calls[k], owed[k]))
  {
    var dispatch := Dispatched(env, calls);
    TerminationReads(env, dispatch);
    OwnAnswerAt(env, calls, k);
    if round <= maxRounds && (forall j: nat :: !EndsBatch(env, dispatch, j)) && Dispatchable(env, calls[k]) {
      var j, inv := |Dispatched(env, calls[..k])|, env.normalize(calls[k].name, calls[k].args).value;
      DispatchedAt(env, calls, k);
      assert !EndsBatch(env, dispatch, j);
      assert Isolates(env, j, inv, Entry(env, j, inv).value);
      assert TellsResult(env, calls[k], inv, j, OwnAnswer(env, calls[k], j));
    }
  }

  // ----- Nothing is lost or answered twice -----

  /** Answers given inline and answers read off results are together what the calls are owed, call by call. */
  lemma {:induction false} InlineAndDispatched(env: Env, calls: seq<PendingCall>)
    ensures Bag(Inline(env, calls)) + Bag(Late(env, Dispatched(env, calls))) == Bag(OwnAnswers(env, calls))
    ensures |Inline(env, calls)| + |Late(env, Dispatched(env, calls))| == |calls|
  {
    hide Bag;
    if calls == [] {
      var none: seq<Content> := [];
      BagConcat(none, none);
      assert none + none == none;
    } else {
      var early, last := calls[..|calls| - 1], calls[|calls| - 1];
      InlineAndDispatched(env, early);
      var inline, dispatch := Inline(env, early), Dispatched(env, early);
      var late, answer := Late(env, dispatch), OwnAnswer(env, last, |dispatch|);
      BagConcat(OwnAnswers(env, early), [answer]);
      if Dispatchable(env, last) {
        var more := Dispatched(env, calls);
        assert more[..|more| - 1] == dispatch;
        assert Late(env, more) == late + [answer] && Inline(env, calls) == inline;
        BagConcat(late, [answer]);
      } else {
        assert Dispatched(env, calls) == dispatch && Inline(env, calls) == inline + [answer];
        BagConcat(inline, [answer]);
      }
    }
  }

  /** Preresolved answers are addressed to the call they resolve. */
  ghost predicate WellKeyed(calls: seq<PendingCall>) {
    forall c | c in calls && c.preresolved.Some? :: c.preresolved.value.id == c.id
  }

  ghost function Ids(contents: seq<Content>): seq<string> {
    seq(|contents|, k requires 0 <= k < |contents| => contents[k].id)
  }

  ghost function CallIds(calls: seq<PendingCall>): seq<string> {
    seq(|calls|, k requires 0 <= k < |calls| => calls[k].id)
  }

  lemma {:induction false} OwnAnswerIds(env: Env, calls: seq<PendingCall>)
    requires WellKeyed(calls)
    ensures Ids(OwnAnswers(env, calls)) == CallIds(calls)
  {
    if calls != [] {
      OwnAnswerIds(env, calls[..|calls| - 1]);
      var a, b := Ids(OwnAnswers(env, calls)), CallIds(calls);
      var a0, b0 := Ids(OwnAnswers(env, calls[..|calls| - 1])), CallIds(calls[..|calls| - 1]);
      assert calls[|calls| - 1] in calls;
      assert b == b0 + [calls[|calls| - 1].id];
      assert a == a0 + [calls[|calls| - 1].id];
    }
  }

  lemma OwedIds(env: Env, exit: Exit, calls: seq<PendingCall>)
    requires WellKeyed(calls)
    ensures Ids(Owed(env, exit, calls)) == CallIds(calls)
  {
    OwnAnswerIds(env, calls);
    forall text ensures Ids(SameAnswer(calls, text)) == CallIds(calls) {
    }
  }

  lemma IdsConcat(a: seq<Content>, b: seq<Content>)
    ensures Ids(a + b) == Ids(a) + Ids(b)
  {
  }

  lemma {:induction false} PermutedIds(a: seq<Content>, b: seq<Content>)
    requires Bag(a) == Bag(b)
    ensures Bag(Ids(a)) == Bag(Ids(b))
  {
    hide Bag, Ids;
    BagSize(a);
    BagSize(b);
    if a != [] {
      var m := |a| - 1;
      var x := a[m];
      LastInBag(a);
      var j := BagFind(b, x);
      var rest := b[..j] + b[j + 1..];
      BagRemove(a, m);
      assert a[m + 1..] == [];
      BagConcat(a[..m], a[m + 1..]);
      BagRemove(b, j);
      BagConcat(b[..j], b[j + 1..]);
      assert a[..m] + a[m + 1..] == a[..m];
      BagCancel(Bag(a[..m]), Bag(rest), Bag([x]));
      PermutedIds(a[..m], rest);
      IdsSplit(a, m);
      IdsSplit(b, j);
    }
  }

  lemma LastInBag(a: seq<Content>)
    requires a != []
    ensures a[|a| - 1] in Bag(a)
  {
  }

  lemma IdsSplit(s: seq<Content>, j: nat)
    requires j < |s|
    ensures Bag(Ids(s)) == Bag(Ids(s[..j] + s[j + 1..])) + Bag([s[j].id])
  {
    hide Bag;
    var ids := Ids(s);
    BagRemove(ids, j);
    IdsConcat(s[..j], s[j + 1..]);
    assert ids[..j] == Ids(s[..j]) && ids[j + 1..] == Ids(s[j + 1..]);
    BagConcat(ids[..j], ids[j + 1..]);
  }

  /** On every way out of a round, the posted answers address exactly the pending calls: none missing, none twice. */
  lemma EveryCallAnsweredOnce(env: Env, exit: Exit, calls: seq<PendingCall>, posted: seq<Content>)
    requires WellKeyed(calls) && Bag(posted) == Bag(Owed(env, exit, calls))
    ensures Bag(Ids(posted)) == Bag(CallIds(calls)) && |posted| == |calls|
  {
    hide Bag, Owed;
    PermutedIds(posted, Owed(env, exit, calls));
    OwedIds(env, exit, calls);
    BagSize(posted);
    BagSize(Owed(env, exit, calls));
    assert |Ids(Owed(env, exit, calls))| == |calls|;
  }
}
