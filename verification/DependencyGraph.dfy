/** Dependency graphs of a plan, independent of how layers are computed. */
module DependencyGraph {
  import opened Prelude

  /** `deps[t]` lists the tasks that `t` waits for; repetitions are allowed. */
  type Deps = seq<seq<nat>>

  ghost predicate InRange(deps: Deps) {
    forall t, d | 0 <= t < |deps| && d in deps[t] :: d < |deps|
  }

  /** Tasks in dependency order: each one is a direct dependency of the next. */
  ghost predicate Chain(deps: Deps, p: seq<nat>) {
    && p != []
    && (forall i | 0 <= i < |p| :: p[i] < |deps|)
    && (forall i | 0 <= i < |p| - 1 :: p[i] in deps[p[i + 1]])
  }

  ghost predicate ChainTo(deps: Deps, p: seq<nat>, t: nat) {
    Chain(deps, p) && p[|p| - 1] == t
  }

  /** A directed cycle, self-dependency included: a chain of at least two entries that returns to its start. */
  ghost predicate HasCycle(deps: Deps) {
    exists p :: Chain(deps, p) && |p| >= 2 && p[0] == p[|p| - 1]
  }

  ghost predicate HasChainOver(deps: Deps, m: nat) {
    exists p :: Chain(deps, p) && |p| > m
  }

  /** The tasks that can be finished within `k` rounds when a task needs all its dependencies one round earlier. */
  ghost function Within(deps: Deps, k: nat): set<nat> {
    if k == 0 then {} else set t: nat | t < |deps| && forall d | d in deps[t] :: d in Within(deps, k - 1)
  }

  /** `layer` lists once each the tasks that finish in round `k`, of which there is at least one. */
  ghost predicate IsRound(deps: Deps, k: nat, layer: seq<nat>) {
    layer != [] && NoDup(layer) && Elems(layer) == Within(deps, k + 1) - Within(deps, k)
  }

  ghost predicate Rounds(deps: Deps, layers: seq<seq<nat>>) {
    forall k | 0 <= k < |layers| :: IsRound(deps, k, layers[k])
  }

  lemma RoundsAppend(deps: Deps, layers: seq<seq<nat>>, layer: seq<nat>)
    requires Rounds(deps, layers) && IsRound(deps, |layers|, layer)
    ensures Rounds(deps, layers + [layer])
  {
    var all := layers + [layer];
    forall k | 0 <= k < |all| ensures IsRound(deps, k, all[k]) {
      if k < |layers| {
        assert all[k] == layers[k];
      }
    }
  }

  /** `layers` lists each round, and in the end every task is listed. */
  ghost predicate IsLayering(deps: Deps, layers: seq<seq<nat>>) {
    Rounds(deps, layers) && Within(deps, |layers|) == Below(|deps|)
  }

  lemma {:induction false} WithinMonotone(deps: Deps, j: nat, k: nat)
    requires j <= k
    ensures Within(deps, j) <= Within(deps, k)
  {
    if 0 < j {
      WithinMonotone(deps, j - 1, k - 1);
    }
  }

  lemma {:induction false} WithinFixpoint(deps: Deps, k: nat, m: nat)
    requires Within(deps, k) == Within(deps, k + 1) && k <= m
    ensures Within(deps, m) == Within(deps, k)
  {
    if k < m {
      WithinFixpoint(deps, k, m - 1);
    }
  }

  lemma {:induction false} ChainIsShort(deps: Deps, k: nat, p: seq<nat>)
    requires Chain(deps, p) && p[|p| - 1] in Within(deps, k)
    ensures |p| <= k
  {
    if |p| > 1 {
      ChainIsShort(deps, k - 1, p[..|p| - 1]);
    }
  }

  lemma {:induction false} LongChain(deps: Deps, k: nat, t: nat) returns (p: seq<nat>)
    requires InRange(deps) && t < |deps| && t !in Within(deps, k)
    ensures ChainTo(deps, p, t) && |p| == k + 1
  {
    if k == 0 {
      p := [t];
    } else {
      var d :| d in deps[t] && d !in Within(deps, k - 1);
      p := LongChain(deps, k - 1, d);
      p := p + [t];
    }
  }

  /** Rounds measure chains: a task finishes within `k` rounds exactly when no chain ending at it is longer than `k`. */
  lemma WithinIffChainsShort(deps: Deps, k: nat, t: nat)
    requires InRange(deps) && t < |deps|
    ensures t in Within(deps, k) <==> forall p | ChainTo(deps, p, t) :: |p| <= k
  {
    if t in Within(deps, k) {
      forall p | ChainTo(deps, p, t) ensures |p| <= k {
        ChainIsShort(deps, k, p);
      }
    } else {
      var p := LongChain(deps, k, t);
    }
  }

  lemma {:induction false} OnCycleNeverWithin(deps: Deps, p: seq<nat>, k: nat, i: nat)
    requires Chain(deps, p) && |p| >= 2 && p[0] == p[|p| - 1] && i < |p|
    ensures p[i] !in Within(deps, k)
  {
    if k > 0 {
      OnCycleNeverWithin(deps, p, k - 1, if i == 0 then |p| - 2 else i - 1);
    }
  }

  /** A task is stuck for ever in some graph exactly when the graph has a directed cycle. */
  lemma CycleIffStuck(deps: Deps)
    requires InRange(deps)
    ensures HasCycle(deps) <==> Within(deps, |deps|) != Below(|deps|)
  {
    if HasCycle(deps) {
      var p :| Chain(deps, p) && |p| >= 2 && p[0] == p[|p| - 1];
      OnCycleNeverWithin(deps, p, |deps|, 0);
      assert p[0] in Below(|deps|);
    }
    WithinInRange(deps, |deps|);
    if Within(deps, |deps|) != Below(|deps|) {
      var t :| t in Below(|deps|) && t !in Within(deps, |deps|);
      var p := LongChain(deps, |deps|, t);
      RepeatedTaskIsCycle(deps, p);
    }
  }

  /** A chain longer than the number of tasks runs through some task twice, and the part in between is a cycle. */
  lemma RepeatedTaskIsCycle(deps: Deps, p: seq<nat>)
    requires Chain(deps, p) && |p| > |deps|
    ensures HasCycle(deps)
  {
    var i, j := Pigeonhole(p, |deps|);
    var q := p[i..j + 1];
    assert Chain(deps, q) && |q| >= 2 && q[0] == q[|q| - 1];
  }

  lemma WithinInRange(deps: Deps, k: nat)
    ensures Within(deps, k) <= Below(|deps|)
  {
  }

  /** What a layering means for each task: it sits in the layer numbered by its longest chain, and in no other. */
  lemma LayerIsLongestChain(deps: Deps, layers: seq<seq<nat>>, k: nat, t: nat)
    requires InRange(deps) && IsLayering(deps, layers) && k < |layers| && t < |deps|
    ensures t in layers[k] <==>
              (exists p :: ChainTo(deps, p, t) && |p| == k + 1) && (forall p | ChainTo(deps, p, t) :: |p| <= k + 1)
  {
    assert t in layers[k] <==> t in Elems(layers[k]);
    WithinIffChainsShort(deps, k, t);
    WithinIffChainsShort(deps, k + 1, t);
    if t !in Within(deps, k) {
      var p := LongChain(deps, k, t);
    }
  }

  /** No numbering that puts every dependency strictly earlier can place a task before its layer. */
  lemma {:induction false} LayerIsEarliest(deps: Deps, level: seq<nat>, p: seq<nat>)
    requires |level| == |deps| && Chain(deps, p)
    requires forall t, d | 0 <= t < |deps| && d in deps[t] && d < |deps| :: level[d] < level[t]
    ensures |p| - 1 <= level[p[|p| - 1]]
  {
    if |p| > 1 {
      LayerIsEarliest(deps, level, p[..|p| - 1]);
      assert p[|p| - 2] in deps[p[|p| - 1]];
    }
  }

  /** Every dependency of a task in layer `k` sits in a strictly earlier layer. */
  lemma DependenciesComeEarlier(deps: Deps, layers: seq<seq<nat>>, k: nat, t: nat, d: nat)
    requires InRange(deps) && IsLayering(deps, layers) && k < |layers|
    requires t < |deps| && t in layers[k] && d in deps[t]
    ensures exists j :: 0 <= j < k && d in layers[j]
  {
    assert t in Elems(layers[k]) && t in Within(deps, k + 1);
    assert d in Within(deps, k);
    var j := FirstRound(deps, k, d);
    assert d in Elems(layers[j]);
  }

  lemma {:induction false} FirstRound(deps: Deps, k: nat, t: nat) returns (j: nat)
    requires t in Within(deps, k)
    ensures j < k && t in Within(deps, j + 1) && t !in Within(deps, j)
  {
    if t in Within(deps, k - 1) {
      j := FirstRound(deps, k - 1, t);
    } else {
      j := k - 1;
    }
  }

  lemma {:induction false} PrefixCover(deps: Deps, layers: seq<seq<nat>>, k: nat)
    requires k <= |layers|
    requires Rounds(deps, layers)
    ensures NoDup(Flatten(layers[..k])) && Elems(Flatten(layers[..k])) == Within(deps, k)
  {
    if k > 0 {
      PrefixCover(deps, layers, k - 1);
      var before, all, last := Flatten(layers[..k - 1]), Flatten(layers[..k]), layers[k - 1];
      assert layers[..k][..k - 1] == layers[..k - 1];
      assert all == before + last;
      WithinMonotone(deps, k - 1, k);
      assert Elems(all) == Elems(before) + Elems(last);
      forall i, j | 0 <= i < j < |all| ensures all[i] != all[j] {
        if i < |before| <= j {
          assert all[i] in Elems(before) && all[j] in Elems(last);
        }
      }
    }
  }

  /** Exactly-once cover: read one after the other, the layers list every task index once and nothing else. */
  lemma LayersCoverOnce(deps: Deps, layers: seq<seq<nat>>)
    requires IsLayering(deps, layers)
    ensures NoDup(Flatten(layers)) && Elems(Flatten(layers)) == Below(|deps|) && |Flatten(layers)| == |deps|
  {
    PrefixCover(deps, layers, |layers|);
    assert layers[..|layers|] == layers;
    NoDupSize(Flatten(layers));
    BelowSize(|deps|);
  }

  /** Layers that are in range and long enough in total need not be a cover: what counts is that they are rounds. */
  lemma CoverNeedsRounds() returns (n: nat, layers: seq<seq<nat>>)
    ensures 0 < n && (forall layer, t | layer in layers && t in layer :: t < n) && |Flatten(layers)| >= n
    ensures !NoDup(Flatten(layers)) && |Flatten(layers)| != n
  {
    n, layers := 1, [[0], [0]];
    var one: seq<seq<nat>> := [[0]];
    assert one[..0] == [] && layers[..1] == one;
    assert Flatten(one[..0]) == [];
    assert Flatten(one) == [0];
    assert Flatten(layers) == Flatten(one) + [0];
    assert Flatten(layers) == [0, 0];
    assert Flatten(layers)[0] == Flatten(layers)[1];
  }

  /** The number of layers is the size of the longest chain of the whole graph. */
  lemma LayerCountIsLongestChain(deps: Deps, layers: seq<seq<nat>>, m: nat)
    requires InRange(deps) && IsLayering(deps, layers)
    ensures |layers| > m <==> HasChainOver(deps, m)
  {
    if |layers| > m {
      var t := layers[m][0];
      assert t in Elems(layers[m]);
      assert t in Within(deps, m + 1) - Within(deps, m);
      var p := LongChain(deps, m, t);
      assert Chain(deps, p) && |p| > m;
    }
    if HasChainOver(deps, m) {
      var p :| Chain(deps, p) && |p| > m;
      assert p[|p| - 1] in Below(|deps|);
      ChainIsShort(deps, |layers|, p);
    }
  }
}
