/** Who may delegate to whom, how deep, and with which tools. */
module DelegateChain {
  import opened Prelude

  const DELEGATE_ROOT_PARENT := "Sisyphus"
  const PLAN_TOOL_NAME := "plan.execute"
  const DELEGATE_PREFIX := "delegate."
  const BOUNDED_PROMPT_CHARS: nat := 32000

  datatype Role = Orchestrator | Planner | Specialist | Worker

  datatype Request = Request(agent: string, prompt: Bytes, artifact: Option<string>)

  /** The agent profiles, the built-in names, the tools granted to each agent, the artifact gate, the depth cap, and the
      texts of refusals. */
  datatype Context = Context(
    profiles: map<string, Role>,
    builtins: set<string>,
    grants: string -> seq<string>,
    artifactError: (string, string) -> bool,
    maxDepth: nat,
    explain: Rejection -> string,
    noResult: string)

  datatype Rejection =
    | UnknownAgent
    | NoProfile(name: string)
    | Hierarchy(parent: Role, child: Role)
    | DepthCap
    | Unbounded
    | BadArtifact

  // ----- The hierarchy -----

  predicate RoleAllows(parent: Role, child: Role) {
    match parent
    case Orchestrator => !child.Orchestrator?
    case Planner => !child.Orchestrator? && !child.Planner?
    case _ => false
  }

  function SpawnAllowed(ctx: Context, parent: string, child: string): Option<Rejection> {
    if parent !in ctx.profiles then Some(NoProfile(parent))
    else if child !in ctx.profiles then Some(NoProfile(child))
    else if RoleAllows(ctx.profiles[parent], ctx.profiles[child]) then None
    else Some(Hierarchy(ctx.profiles[parent], ctx.profiles[child]))
  }

  /** Who may spawn whom: an orchestrator all others, a planner specialists and workers, these nobody. */
  lemma HierarchyReads()
    ensures forall child: Role :: RoleAllows(Orchestrator, child) <==> child in {Planner, Specialist, Worker}
    ensures forall child: Role :: RoleAllows(Planner, child) <==> child in {Specialist, Worker}
    ensures forall child: Role :: !RoleAllows(Specialist, child) && !RoleAllows(Worker, child)
  {
  }

  function Rank(role: Role): nat {
    match role
    case Orchestrator => 0
    case Planner => 1
    case _ => 2
  }

  /** The gates every delegated task passes, in order; `None` lets it through. Accepted is exactly a built-in agent with
      a profile strictly below its parent's, within the depth cap, with a bounded prompt and an acceptable artifact. */
  function ValidateTask(ctx: Context, parent: string, depth: nat, task: Request): (r: Option<Rejection>)
    ensures r.None? <==>
            && task.agent in ctx.builtins && parent in ctx.profiles && task.agent in ctx.profiles
            && Rank(ctx.profiles[parent]) < Rank(ctx.profiles[task.agent])
            && depth < ctx.maxDepth && |task.prompt| <= 32000
            && (task.artifact.Some? ==> !ctx.artifactError(task.agent, task.artifact.value))
    ensures r == Some(UnknownAgent) <==> task.agent !in ctx.builtins
    ensures r.Some? && r.value.NoProfile? ==> r.value.name in {parent, task.agent} && r.value.name !in ctx.profiles
    ensures r.Some? && r.value.Hierarchy? ==>
              && parent in ctx.profiles && task.agent in ctx.profiles
              && r.value == Hierarchy(ctx.profiles[parent], ctx.profiles[task.agent])
              && (ctx.profiles[task.agent] == Orchestrator || ctx.profiles[parent] in {Specialist, Worker}
                  || (ctx.profiles[parent] == Planner && ctx.profiles[task.agent] == Planner))
    ensures r == Some(DepthCap) ==> depth >= ctx.maxDepth
    ensures r == Some(Unbounded) ==> depth < ctx.maxDepth && |task.prompt| > 32000
    ensures r == Some(BadArtifact) ==>
              && depth < ctx.maxDepth && |task.prompt| <= 32000
              && task.artifact.Some? && ctx.artifactError(task.agent, task.artifact.value)
  {
    if task.agent !in ctx.builtins then Some(UnknownAgent)
    else
      var spawn := SpawnAllowed(ctx, parent, task.agent);
      if spawn.Some? then spawn
      else if depth + 1 > ctx.maxDepth then Some(DepthCap)
      else if |task.prompt| > BOUNDED_PROMPT_CHARS then Some(Unbounded)
      else if task.artifact.Some? && ctx.artifactError(task.agent, task.artifact.value) then Some(BadArtifact)
      else None
  }

  // ----- Tools of a sub-agent -----

  predicate IsDelegation(tool: string) {
    DELEGATE_PREFIX <= tool
  }

  predicate Keeps(allowChildDelegation: bool, tool: string) {
    (allowChildDelegation || !IsDelegation(tool)) && tool != PLAN_TOOL_NAME
  }

  ghost function Filtered(tools: seq<string>, allowChildDelegation: bool): seq<string> {
    if tools == [] then []
    else
      Filtered(tools[..|tools| - 1], allowChildDelegation) +
      if Keeps(allowChildDelegation, tools[|tools| - 1]) then [tools[|tools| - 1]] else []
  }

  /** The granted tools minus delegation at the depth cap, and minus plan execution always; order is kept. */
  method SubAgentTools(grants: seq<string>, allowChildDelegation: bool) returns (tools: seq<string>)
    ensures tools == Filtered(grants, allowChildDelegation)
    ensures forall t :: t in tools <==>
              t in grants && t != "plan.execute" && (allowChildDelegation || !("delegate." <= t))
  {
    tools := [];
    for k := 0 to |grants|
      invariant tools == Filtered(grants[..k], allowChildDelegation)
      invariant forall t :: t in tools <==> t in grants[..k] && Keeps(allowChildDelegation, t)
    {
      assert grants[..k + 1] == grants[..k] + [grants[k]];
      if !allowChildDelegation && IsDelegation(grants[k]) {
        continue;
      }
      if grants[k] == PLAN_TOOL_NAME {
        continue;
      }
      tools := tools + [grants[k]];
    }
    assert grants[..|grants|] == grants;
  }

  /** The filter looks at one tool at a time, so what it keeps stays in order and in number. */
  lemma {:induction false} FilteredJoins(a: seq<string>, b: seq<string>, allow: bool)
    ensures Filtered(a + b, allow) == Filtered(a, allow) + Filtered(b, allow)
    ensures |a| == 1 ==>
              Filtered(a, allow) == if a[0] != "plan.execute" && (allow || !("delegate." <= a[0])) then a else []
  {
    if b == [] {
      assert a + b == a;
    } else {
      assert (a + b)[..|a + b| - 1] == a + b[..|b| - 1];
      FilteredJoins(a, b[..|b| - 1], allow);
    }
    assert |a| == 1 ==> a[..0] == [] && a == [a[0]];
  }

  lemma {:induction false} FilteredMembers(tools: seq<string>, allow: bool)
    ensures forall t :: t in Filtered(tools, allow) <==> t in tools && Keeps(allow, t)
  {
    if tools != [] {
      var early, last := tools[..|tools| - 1], tools[|tools| - 1];
      FilteredMembers(early, allow);
      assert tools == early + [last];
    }
  }

  // ----- Chains -----

  /** Where a turn runs: hops from the root, and the agent running it. */
  datatype Position = Position(depth: nat, agent: string)

  const ROOT := Position(0, DELEGATE_ROOT_PARENT)

  /** The tools of the agent running at a position below the root. */
  ghost function ToolsAt(ctx: Context, at: Position): seq<string> {
    Filtered(ctx.grants(at.agent), at.depth < ctx.maxDepth)
  }

  /** One delegation: its gates let it through, and a sub-agent needs a delegation tool to attempt it. */
  ghost predicate Hop(ctx: Context, from: Position, to: Position) {
    && (exists task: Request :: task.agent == to.agent && ValidateTask(ctx, from.agent, from.depth, task).None?)
    && to.depth == from.depth + 1
    && (from.depth > 0 ==> exists t :: t in ToolsAt(ctx, from) && IsDelegation(t))
  }

  ghost predicate DelegationChain(ctx: Context, chain: seq<Position>) {
    && chain != [] && chain[0] == ROOT
    && forall k | 0 <= k < |chain| - 1 :: Hop(ctx, chain[k], chain[k + 1])
  }

  ghost predicate PlacedAt(ctx: Context, at: Position, rank: nat) {
    at.agent in ctx.profiles && Rank(ctx.profiles[at.agent]) >= rank
  }

  /** Along every chain depth counts hops and stays within the cap, and every hop goes strictly down the hierarchy. */
  lemma {:induction false} RolesDescend(ctx: Context, chain: seq<Position>, k: nat)
    requires DelegationChain(ctx, chain) && k < |chain|
    ensures chain[k].depth == k && (k > 0 ==> k <= ctx.maxDepth && PlacedAt(ctx, chain[k], k))
    ensures k > 0 ==> PlacedAt(ctx, chain[k - 1], k - 1) &&
                      Rank(ctx.profiles[chain[k - 1].agent]) < Rank(ctx.profiles[chain[k].agent])
  {
    if k > 0 {
      RolesDescend(ctx, chain, k - 1);
      assert Hop(ctx, chain[k - 1], chain[k]);
    }
  }

  /** No chain has more than two hops, no sub-agent is an orchestrator or holds plan execution, and at the depth cap
      none holds a delegation tool. */
  lemma ChainsAreShort(ctx: Context, chain: seq<Position>)
    requires DelegationChain(ctx, chain)
    ensures |chain| <= 3 && |chain| - 1 <= ctx.maxDepth
    ensures forall k | 1 <= k < |chain| ::
              && chain[k].agent in ctx.profiles && !ctx.profiles[chain[k].agent].Orchestrator?
              && PLAN_TOOL_NAME !in ToolsAt(ctx, chain[k])
              && (k == ctx.maxDepth ==> forall t | t in ToolsAt(ctx, chain[k]) :: !IsDelegation(t))
  {
    forall k | 0 <= k < |chain|
      ensures k <= 2 && k <= ctx.maxDepth
      ensures k > 0 ==> chain[k].depth == k && chain[k].agent in ctx.profiles
      ensures k > 0 ==> !ctx.profiles[chain[k].agent].Orchestrator?
    {
      RolesDescend(ctx, chain, k);
    }
    RolesDescend(ctx, chain, |chain| - 1);
    forall k | 1 <= k < |chain|
      ensures PLAN_TOOL_NAME !in ToolsAt(ctx, chain[k])
      ensures k == ctx.maxDepth ==> forall t | t in ToolsAt(ctx, chain[k]) :: !IsDelegation(t)
    {
      FilteredMembers(ctx.grants(chain[k].agent), chain[k].depth < ctx.maxDepth);
    }
  }
}
