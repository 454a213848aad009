/** The orchestrator's turn loop: how long it can run, and what it answers on the way. */
module TurnDriver {
  import opened Prelude
  import opened ToolBatch

  /** What the agent runner asks for next, with what comes of it. */
  datatype NextStep =
    | CallModel(reply: ModelReply)
    | CallTools(calls: seq<PendingCall>)
    | Done
    | MaxTurns
    | Broken

  /** A model call fails, answers with nothing but tool blocks that cannot be parsed, or answers. */
  datatype ModelReply = CallFailed | Unparsable | Answered

  /** Everything outside the loop, step by step: the agent runner, tokens that others hold or have used, the steps at
      which asking for a reservation fails with an error, and tools. */
  datatype World = World(next: nat -> NextStep, others: nat -> nat, failing: set<nat>, tools: nat -> Env)

  datatype Ending = Refused | Finished | BudgetExhausted | RoundsExhausted | TurnsExhausted | Errored

  /** One posting of answers: the calls, the round it happened in, and the tools it ran with. */
  datatype Posting = Posting(calls: seq<PendingCall>, round: nat, tools: Env, posted: Option<seq<Content>>)

  /** A turn: how many steps it took, the model calls, those of them with a reservation and the tool rounds among them,
      what it posted, and how it ended. */
  datatype Turn = Turn(steps: nat, modelCalls: nat, reserved: nat, toolRounds: nat, postings: seq<Posting>,
                       ending: Ending)

  function Estimate(queryLen: nat): nat {
    queryLen / 4 + 512
  }

  /** A reservation is granted while everything held or used leaves room for it. */
  predicate Granted(capacity: nat, held: nat, others: nat, tokens: nat) {
    held + others + tokens <= capacity
  }

  // ----- What the first steps of a turn are -----

  /** Model calls asked for in the first `n` steps; steps are numbered from 1. */
  ghost function ModelCalls(world: World, n: nat): nat {
    if n == 0 then 0 else ModelCalls(world, n - 1) + if world.next(n).CallModel? then 1 else 0
  }

  /** Those of them that ask for a reservation without an error. */
  ghost function GatedCalls(world: World, n: nat): nat {
    if n == 0 then 0
    else GatedCalls(world, n - 1) + if world.next(n).CallModel? && n !in world.failing then 1 else 0
  }

  /** The steps among the first `n` that ask for tools, in order. */
  ghost function ToolSteps(world: World, n: nat): seq<nat> {
    if n == 0 then [] else ToolSteps(world, n - 1) + if world.next(n).CallTools? then [n] else []
  }

  /** How step `n` ends a turn whose earlier steps did not, or `None` when the turn goes on. */
  ghost function EndingAt(world: World, tokens: nat, capacity: nat, maxRounds: nat, n: nat): Option<Ending>
    requires n > 0
  {
    match world.next(n)
    case Done => Some(Finished)
    case MaxTurns => Some(TurnsExhausted)
    case Broken => Some(Errored)
    case CallModel(reply) =>
      if n !in world.failing && !Granted(capacity, (GatedCalls(world, n - 1) + 1) * tokens, world.others(n), tokens)
      then Some(BudgetExhausted)
      else if reply.CallFailed? then Some(Errored)
      else None
    case CallTools(_) => if |ToolSteps(world, n)| > maxRounds then Some(RoundsExhausted) else None
  }

  /** One posting for each step that asked for tools, in order. */
  ghost predicate Posted(world: World, n: nat, maxRounds: nat, postings: seq<Posting>) {
    && |postings| == |ToolSteps(world, n)|
    && forall k | 0 <= k < |postings| ::
         && world.next(ToolSteps(world, n)[k]) == CallTools(postings[k].calls)
         && postings[k].tools == world.tools(ToolSteps(world, n)[k])
         && postings[k].round == k + 1 && FullyAnswered(postings[k], maxRounds)
  }

  ghost predicate FullyAnswered(posting: Posting, maxRounds: nat) {
    && (posting.posted.None? <==> posting.calls == [])
    && (posting.posted.Some? ==>
          Bag(posting.posted.value) ==
          Bag(Owed(posting.tools, ExitOf(posting.tools, posting.calls, posting.round, maxRounds), posting.calls)))
  }

  lemma PostOne(world: World, n: nat, maxRounds: nat, postings: seq<Posting>, posting: Posting)
    requires Posted(world, n, maxRounds, postings) && world.next(n + 1) == CallTools(posting.calls)
    requires posting.tools == world.tools(n + 1) && posting.round == |postings| + 1 && FullyAnswered(posting, maxRounds)
    ensures Posted(world, n + 1, maxRounds, postings + [posting])
  {
    hide FullyAnswered;
    assert ToolSteps(world, n + 1) == ToolSteps(world, n) + [n + 1];
  }

  /** Answers the calls of one step, and says whether the round cap was passed. */
  method PostAnswers(calls: seq<PendingCall>, round: nat, tools: Env, maxRounds: nat)
    returns (posting: Posting, ended: bool)
    ensures posting == Posting(calls, round, tools, posting.posted) && FullyAnswered(posting, maxRounds)
    ensures ended <==> round > maxRounds
  {
    hide Bag, Owed;
    var posted;
    posted, ended := AnswerCalls(tools, calls, round, maxRounds);
    posting := Posting(calls, round, tools, posted);
  }

  /** One reservation from before the loop and one for each reserved call are held, within the capacity. */
  ghost predicate Holds(reserved: nat, tokens: nat, held: nat, capacity: nat) {
    held == (reserved + 1) * tokens && held <= capacity
  }

  lemma HoldsFirst(tokens: nat, capacity: nat)
    requires tokens <= capacity
    ensures Holds(0, tokens, tokens, capacity)
  {
  }

  lemma HoldsOneMore(reserved: nat, tokens: nat, held: nat, others: nat, capacity: nat)
    requires Holds(reserved, tokens, held, capacity) && Granted(capacity, held, others, tokens)
    ensures Holds(reserved + 1, tokens, held + tokens, capacity)
  {
    assert (reserved + 2) * tokens == (reserved + 1) * tokens + tokens;
  }

  // ----- A turn that goes on, and how it ends -----

  /** Where a turn stands: the counts of a `Turn` that has not ended. */
  datatype Tally = Tally(steps: nat, modelCalls: nat, reserved: nat, toolRounds: nat, postings: seq<Posting>)

  /** The first steps did not end the turn, and `t` counts them. */
  ghost predicate Going(world: World, tokens: nat, capacity: nat, maxRounds: nat, t: Tally) {
    && t.modelCalls == ModelCalls(world, t.steps) && t.reserved == GatedCalls(world, t.steps)
    && t.steps == t.modelCalls + t.toolRounds
    && (forall n | 0 < n <= t.steps :: EndingAt(world, tokens, capacity, maxRounds, n) == None)
    && t.toolRounds == |t.postings| <= maxRounds
    && Posted(world, t.steps, maxRounds, t.postings)
  }

  /** What a turn of `world` comes to once it got its first reservation: it ends at the first step that must end it, in
      the way that step calls for, with every step before it counted and every step that asks for tools answered. */
  ghost predicate Ran(world: World, tokens: nat, capacity: nat, maxRounds: nat, turn: Turn) {
    && turn.steps > 0
    && EndingAt(world, tokens, capacity, maxRounds, turn.steps) == Some(turn.ending)
    && (forall n | 0 < n < turn.steps :: EndingAt(world, tokens, capacity, maxRounds, n) == None)
    && (var refused := if turn.ending.BudgetExhausted? then 1 else 0;
        ModelCalls(world, turn.steps) == turn.modelCalls + refused
        && GatedCalls(world, turn.steps) == turn.reserved + refused)
    && |turn.postings| == turn.toolRounds + (if turn.ending.RoundsExhausted? then 1 else 0)
    && Posted(world, turn.steps, maxRounds, turn.postings)
  }

  lemma NotYetGoing(world: World, tokens: nat, capacity: nat, maxRounds: nat)
    ensures Going(world, tokens, capacity, maxRounds, Tally(0, 0, 0, 0, []))
  {
  }

  /** The next step's ending in terms of what the loop keeps at hand. */
  lemma EndingNext(world: World, tokens: nat, capacity: nat, maxRounds: nat, t: Tally, held: nat)
    requires Going(world, tokens, capacity, maxRounds, t) && Holds(t.reserved, tokens, held, capacity)
    ensures var ending := EndingAt(world, tokens, capacity, maxRounds, t.steps + 1);
            match world.next(t.steps + 1)
            case Done => ending == Some(Finished)
            case MaxTurns => ending == Some(TurnsExhausted)
            case Broken => ending == Some(Errored)
            case CallModel(reply) =>
              if t.steps + 1 !in world.failing && !Granted(capacity, held, world.others(t.steps + 1), tokens)
              then ending == Some(BudgetExhausted)
              else ending == if reply.CallFailed? then Some(Errored) else None
            case CallTools(_) => true
  {
  }

  lemma CallGoesOn(world: World, tokens: nat, capacity: nat, maxRounds: nat, t: Tally)
    requires Going(world, tokens, capacity, maxRounds, t) && world.next(t.steps + 1).CallModel?
    requires EndingAt(world, tokens, capacity, maxRounds, t.steps + 1) == None
    ensures Going(world, tokens, capacity, maxRounds,
                  Tally(t.steps + 1, t.modelCalls + 1, t.reserved + if t.steps + 1 in world.failing then 0 else 1,
                        t.toolRounds, t.postings))
  {
    hide FullyAnswered;
    assert ToolSteps(world, t.steps + 1) == ToolSteps(world, t.steps);
  }

  lemma ToolsGoOn(world: World, tokens: nat, capacity: nat, maxRounds: nat, t: Tally, posting: Posting)
    requires Going(world, tokens, capacity, maxRounds, t) && t.toolRounds < maxRounds
    requires world.next(t.steps + 1) == CallTools(posting.calls) && posting.tools == world.tools(t.steps + 1)
    requires posting.round == t.toolRounds + 1 && FullyAnswered(posting, maxRounds)
    ensures Going(world, tokens, capacity, maxRounds,
                  Tally(t.steps + 1, t.modelCalls, t.reserved, t.toolRounds + 1, t.postings + [posting]))
  {
    hide FullyAnswered;
    assert |ToolSteps(world, t.steps + 1)| == t.toolRounds + 1;
    PostOne(world, t.steps, maxRounds, t.postings, posting);
  }

  /** A step that asks for no tools ends the turn. */
  lemma Stops(world: World, tokens: nat, capacity: nat, maxRounds: nat, t: Tally, ending: Ending)
    requires Going(world, tokens, capacity, maxRounds, t) && !world.next(t.steps + 1).CallTools?
    requires EndingAt(world, tokens, capacity, maxRounds, t.steps + 1) == Some(ending)
    ensures var calls := if world.next(t.steps + 1).CallModel? && !ending.BudgetExhausted? then 1 else 0;
            Ran(world, tokens, capacity, maxRounds,
                Turn(t.steps + 1, t.modelCalls + calls, t.reserved + if t.steps + 1 in world.failing then 0 else calls,
                     t.toolRounds, t.postings, ending))
  {
    hide FullyAnswered;
    assert ToolSteps(world, t.steps + 1) == ToolSteps(world, t.steps);
  }

  /** A step that asks for tools beyond the cap ends the turn, and is answered too. */
  lemma StopsAtCap(world: World, tokens: nat, capacity: nat, maxRounds: nat, t: Tally, posting: Posting)
    requires Going(world, tokens, capacity, maxRounds, t) && t.toolRounds == maxRounds
    requires world.next(t.steps + 1) == CallTools(posting.calls) && posting.tools == world.tools(t.steps + 1)
    requires posting.round == t.toolRounds + 1 && FullyAnswered(posting, maxRounds)
    ensures Ran(world, tokens, capacity, maxRounds,
                Turn(t.steps + 1, t.modelCalls, t.reserved, t.toolRounds, t.postings + [posting], RoundsExhausted))
  {
    hide FullyAnswered;
    assert |ToolSteps(world, t.steps + 1)| == t.toolRounds + 1;
    PostOne(world, t.steps, maxRounds, t.postings, posting);
  }

  /** The last step is of the kind that its ending names, and no step before it was. */
  ghost predicate EndsFor(world: World, tokens: nat, capacity: nat, maxRounds: nat, turn: Turn)
    requires turn.steps > 0
  {
    var last := world.next(turn.steps);
    var starved := last.CallModel? && turn.steps !in world.failing
                   && (GatedCalls(world, turn.steps - 1) + 1) * tokens + world.others(turn.steps) + tokens > capacity;
    && turn.ending != Refused && (turn.ending == Finished <==> last.Done?)
    && (turn.ending == TurnsExhausted <==> last.MaxTurns?)
    && (turn.ending == RoundsExhausted <==> last.CallTools?)
    && (turn.ending == RoundsExhausted ==> turn.toolRounds == maxRounds)
    && (turn.ending == BudgetExhausted <==> starved)
    && (turn.ending == BudgetExhausted ==> turn.reserved == GatedCalls(world, turn.steps - 1))
    && (turn.ending == Errored <==> last.Broken? || (last == CallModel(CallFailed) && !starved))
    && forall n | 0 < n < turn.steps :: world.next(n).CallTools? || (world.next(n).CallModel?
                                                                     && world.next(n).reply != CallFailed)
  }

  lemma HowItEnds(world: World, tokens: nat, capacity: nat, maxRounds: nat, turn: Turn)
    requires Ran(world, tokens, capacity, maxRounds, turn) && turn.toolRounds <= maxRounds
    ensures EndsFor(world, tokens, capacity, maxRounds, turn)
  {
    hide FullyAnswered;
    forall n | 0 < n < turn.steps ensures world.next(n).CallTools? || (world.next(n).CallModel?
                                                                       && world.next(n).reply != CallFailed)
    {
      assert EndingAt(world, tokens, capacity, maxRounds, n) == None;
    }
  }

  /** One turn. It ends for every world in which asking for reservations fails finitely often: each reserved model call
      keeps its tokens until the turn is over, so the budget bounds those calls, failures bound the others, and the
      round cap bounds the rest. */
  method ExecuteTurn(queryLen: nat, capacity: nat, maxRounds: nat, world: World) returns (turn: Turn)
    ensures 0 in world.failing ==> turn == Turn(0, 0, 0, 0, [], Errored)
    ensures 0 !in world.failing && !Granted(capacity, 0, world.others(0), Estimate(queryLen)) ==>
              turn == Turn(0, 0, 0, 0, [], Refused)
    ensures 0 !in world.failing && Granted(capacity, 0, world.others(0), Estimate(queryLen)) ==>
              && Ran(world, Estimate(queryLen), capacity, maxRounds, turn)
              && (turn.reserved + 1) * Estimate(queryLen) <= capacity
    ensures turn.reserved <= turn.modelCalls <= turn.reserved + |world.failing| && turn.toolRounds <= maxRounds
    ensures turn.steps <= turn.modelCalls + turn.toolRounds + 1
    ensures turn.ending == Refused <==> 0 !in world.failing && world.others(0) + queryLen / 4 + 512 > capacity
    ensures turn.steps > 0 ==> (turn.reserved + 1) * (queryLen / 4 + 512) <= capacity
    ensures turn.steps > 0 ==> EndsFor(world, queryLen / 4 + 512, capacity, maxRounds, turn)
  {
    hide Ran;
    var tokens := Estimate(queryLen);
    if 0 in world.failing {
      return Turn(0, 0, 0, 0, [], Errored);
    }
    if !Granted(capacity, 0, world.others(0), tokens) {
      return Turn(0, 0, 0, 0, [], Refused);
    }
    var held;
    turn, held := RunLoop(tokens, capacity, maxRounds, world);
    HowItEnds(world, tokens, capacity, maxRounds, turn);
  }

  function Ended(t: Tally, ending: Ending): Turn {
    Turn(t.steps, t.modelCalls, t.reserved, t.toolRounds, t.postings, ending)
  }

  /** A step that asks for the model: a reservation first, unless asking for it fails, and then the call. */
  method ModelStep(tokens: nat, capacity: nat, maxRounds: nat, world: World, t: Tally, held: nat, reply: ModelReply)
    returns (t': Tally, held': nat, ending: Option<Ending>)
    requires Going(world, tokens, capacity, maxRounds, t) && Holds(t.reserved, tokens, held, capacity)
    requires world.next(t.steps + 1) == CallModel(reply)
    ensures t'.steps == t.steps + 1 && t'.toolRounds == t.toolRounds
    ensures Holds(t'.reserved, tokens, held', capacity)
    ensures if ending.None? then Going(world, tokens, capacity, maxRounds, t')
            else Ran(world, tokens, capacity, maxRounds, Ended(t', ending.value))
    ensures ending.None? ==> t'.modelCalls == t.modelCalls + 1
    ensures t.modelCalls <= t'.modelCalls <= t.modelCalls + 1
    ensures if t'.steps in world.failing then t'.reserved == t.reserved && held' == held
            else t'.reserved - t.reserved == t'.modelCalls - t.modelCalls
                 && (ending.None? ==> held' == held + tokens <= capacity)
  {
    hide Holds, FullyAnswered, Posted, ModelCalls, GatedCalls, Ran, Going, EndingAt;
    EndingNext(world, tokens, capacity, maxRounds, t, held);
    var step := t.steps + 1;
    t', held' := t.(steps := step), held;
    if step !in world.failing {
      if !Granted(capacity, held, world.others(step), tokens) {
        Stops(world, tokens, capacity, maxRounds, t, BudgetExhausted);
        return t', held', Some(BudgetExhausted);
      }
      HoldsOneMore(t.reserved, tokens, held, world.others(step), capacity);
      t', held' := t'.(reserved := t.reserved + 1), held + tokens;
    }
    t' := t'.(modelCalls := t.modelCalls + 1);
    if reply.CallFailed? {
      Stops(world, tokens, capacity, maxRounds, t, Errored);
      return t', held', Some(Errored);
    }
    CallGoesOn(world, tokens, capacity, maxRounds, t);
    ending := None;
  }

  /** A step that asks for tools: every call is answered, and beyond the cap the turn is over. */
  method ToolStep(tokens: nat, capacity: nat, maxRounds: nat, world: World, t: Tally, calls: seq<PendingCall>)
    returns (t': Tally, ending: Option<Ending>)
    requires Going(world, tokens, capacity, maxRounds, t) && t.toolRounds <= maxRounds
    requires world.next(t.steps + 1) == CallTools(calls)
    ensures t'.steps == t.steps + 1 && t'.modelCalls == t.modelCalls && t'.reserved == t.reserved
    ensures if ending.None? then Going(world, tokens, capacity, maxRounds, t')
            else Ran(world, tokens, capacity, maxRounds, Ended(t', ending.value))
    ensures t'.toolRounds == t.toolRounds + (if ending.None? then 1 else 0) && t'.toolRounds <= maxRounds
  {
    hide FullyAnswered, Posted, ModelCalls, GatedCalls, Ran, Going, EndingAt;
    var round := t.toolRounds + 1;
    var posting, ended := PostAnswers(calls, round, world.tools(t.steps + 1), maxRounds);
    t' := t.(steps := t.steps + 1, postings := t.postings + [posting]);
    if ended {
      StopsAtCap(world, tokens, capacity, maxRounds, t, posting);
      ending := Some(RoundsExhausted);
    } else {
      ToolsGoOn(world, tokens, capacity, maxRounds, t, posting);
      t', ending := t'.(toolRounds := round), None;
    }
  }

  /** Failed requests still to come, and what they leave for calls without a reservation. */
  ghost predicate FailuresLeft(world: World, t: Tally, left: set<nat>) {
    && left <= world.failing && (forall n | n in world.failing && n > t.steps :: n in left)
    && t.reserved <= t.modelCalls && t.modelCalls + |left| <= t.reserved + |world.failing|
  }

  /** The loop of a turn that holds its first reservation; `held` is what it holds in the end. */
  method RunLoop(tokens: nat, capacity: nat, maxRounds: nat, world: World) returns (turn: Turn, held: nat)
    requires 0 < tokens <= capacity
    ensures Ran(world, tokens, capacity, maxRounds, turn)
    ensures Holds(turn.reserved, tokens, held, capacity)
    ensures turn.reserved <= turn.modelCalls <= turn.reserved + |world.failing| && turn.toolRounds <= maxRounds
    ensures turn.steps <= turn.modelCalls + turn.toolRounds + 1
  {
    hide Holds, Ran, Going, EndingAt;
    held := tokens;
    var t := Tally(0, 0, 0, 0, []);
    ghost var left := world.failing;
    HoldsFirst(tokens, capacity);
    NotYetGoing(world, tokens, capacity, maxRounds);
    while true
      invariant Going(world, tokens, capacity, maxRounds, t)
      invariant Holds(t.reserved, tokens, held, capacity) && held <= capacity
      invariant FailuresLeft(world, t, left)
      invariant t.steps == t.modelCalls + t.toolRounds && t.toolRounds <= maxRounds
      decreases |left|, capacity - held, maxRounds - t.toolRounds
    {
      EndingNext(world, tokens, capacity, maxRounds, t, held);
      var ending: Option<Ending>;
      match world.next(t.steps + 1) {
        case Done =>
          Stops(world, tokens, capacity, maxRounds, t, Finished);
          return Ended(t.(steps := t.steps + 1), Finished), held;
        case MaxTurns =>
          Stops(world, tokens, capacity, maxRounds, t, TurnsExhausted);
          return Ended(t.(steps := t.steps + 1), TurnsExhausted), held;
        case Broken =>
          Stops(world, tokens, capacity, maxRounds, t, Errored);
          return Ended(t.(steps := t.steps + 1), Errored), held;
        case CallModel(reply) =>
          left := left - {t.steps + 1};
          t, held, ending := ModelStep(tokens, capacity, maxRounds, world, t, held, reply);
        case CallTools(calls) =>
          t, ending := ToolStep(tokens, capacity, maxRounds, world, t, calls);
      }
      if ending.Some? {
        return Ended(t, ending.value), held;
      }
    }
  }

  /** In every turn, every posting addresses exactly the calls that were pending, each one once. */
  lemma TurnAnswersEveryCall(posting: Posting, maxRounds: nat)
    requires FullyAnswered(posting, maxRounds) && WellKeyed(posting.calls) && posting.calls != []
    ensures posting.posted.Some? && Bag(Ids(posting.posted.value)) == Bag(CallIds(posting.calls))
  {
    hide Bag, Owed, ExitOf;
    EveryCallAnsweredOnce(posting.tools, ExitOf(posting.tools, posting.calls, posting.round, maxRounds), posting.calls,
                          posting.posted.value);
  }
}
