/** Success rates of agents, and the stable order they put results in. */
module AggregateWeights {
  import opened Prelude

  const WEIGHT_WINDOW: nat := 100
  const LAPLACE_PRIOR: real := 1.0
  const NEUTRAL_WEIGHT: real := 0.5

  type Weights = map<string, real>

  // ----- Success rates -----

  datatype Observation = Observation(agent: string, ok: bool)

  ghost function Trials(obs: seq<Observation>, agent: string): nat {
    if obs == [] then 0 else Trials(obs[..|obs| - 1], agent) + if obs[|obs| - 1].agent == agent then 1 else 0
  }

  ghost function Successes(obs: seq<Observation>, agent: string): nat {
    if obs == [] then 0
    else
      Successes(obs[..|obs| - 1], agent) + if obs[|obs| - 1].agent == agent && obs[|obs| - 1].ok then 1 else 0
  }

  function Rate(successes: nat, trials: nat): real {
    (successes as real + LAPLACE_PRIOR) / (trials as real + 2.0 * LAPLACE_PRIOR)
  }

  function Window(obs: seq<Observation>): seq<Observation> {
    if |obs| > WEIGHT_WINDOW then obs[|obs| - WEIGHT_WINDOW..] else obs
  }

  /** The newest hundred observations, or all of them when there are fewer. */
  lemma WindowReads(obs: seq<Observation>)
    ensures |obs| <= 100 ==> Window(obs) == obs
    ensures |obs| > 100 ==> |Window(obs)| == 100 && Window(obs) == obs[|obs| - 100..]
  {
  }

  /** Where an agent was observed, or observed ok. */
  ghost function SeenAt(obs: seq<Observation>, agent: string, onlyOk: bool): set<nat> {
    set k: nat | k < |obs| && obs[k].agent == agent && (onlyOk ==> obs[k].ok)
  }

  lemma SeenNext(obs: seq<Observation>, agent: string, onlyOk: bool)
    requires obs != []
    ensures var m := |obs| - 1;
            |SeenAt(obs, agent, onlyOk)| ==
            |SeenAt(obs[..m], agent, onlyOk)| + if obs[m].agent == agent && (onlyOk ==> obs[m].ok) then 1 else 0
  {
    var m := |obs| - 1;
    var more := if obs[m].agent == agent && (onlyOk ==> obs[m].ok) then {m} else {};
    assert SeenAt(obs, agent, onlyOk) == SeenAt(obs[..m], agent, onlyOk) + more;
  }

  /** Trials are the observations of an agent, successes the ok ones among them. */
  lemma {:induction false} CountsRead(obs: seq<Observation>, agent: string)
    ensures Trials(obs, agent) == |SeenAt(obs, agent, false)| && Successes(obs, agent) == |SeenAt(obs, agent, true)|
  {
    hide SeenAt;
    if obs == [] {
      SeenNowhere(agent);
    } else {
      CountsRead(obs[..|obs| - 1], agent);
      SeenNext(obs, agent, false);
      SeenNext(obs, agent, true);
    }
  }

  lemma SeenNowhere(agent: string)
    ensures SeenAt([], agent, false) == SeenAt([], agent, true) == {}
  {
  }

  lemma RateReads(successes: nat, trials: nat)
    ensures Rate(successes, trials) * (trials as real + 2.0) == successes as real + 1.0
  {
  }

  type Totals = map<string, (nat, nat)>

  /** `totals` holds successes and trials of exactly the agents seen in `obs`. */
  ghost predicate Tallied(obs: seq<Observation>, totals: Totals) {
    forall a :: (a in totals <==> Trials(obs, a) > 0)
                && (a in totals ==> totals[a] == (Successes(obs, a), Trials(obs, a)))
  }

  function Tally(totals: Totals, o: Observation): Totals {
    var entry := if o.agent in totals then totals[o.agent] else (0, 0);
    totals[o.agent := (entry.0 + if o.ok then 1 else 0, entry.1 + 1)]
  }

  lemma TallyOne(obs: seq<Observation>, totals: Totals, o: Observation)
    requires Tallied(obs, totals)
    ensures Tallied(obs + [o], Tally(totals, o))
  {
    assert (obs + [o])[..|obs|] == obs;
    SuccessesAreTrials(obs, o.agent);
  }

  /** The smoothed rate of every agent seen in the last hundred observations, and of no other. */
  method SuccessRates(obs: seq<Observation>) returns (rates: Weights)
    ensures forall a :: a in rates <==> Trials(Window(obs), a) > 0
    ensures forall a | a in rates :: rates[a] == Rate(Successes(Window(obs), a), Trials(Window(obs), a))
    ensures var newest := if |obs| > 100 then obs[|obs| - 100..] else obs;
            forall a | a in rates :: Trials(newest, a) > 0
              && rates[a] * (Trials(newest, a) as real + 2.0) == Successes(newest, a) as real + 1.0
  {
    hide Rate, Trials, Successes, Tallied;
    var window := Window(obs);
    var totals: Totals := map[];
    TallyNothing();
    for k := 0 to |window|
      invariant Tallied(window[..k], totals)
    {
      assert window[..k + 1] == window[..k] + [window[k]];
      TallyOne(window[..k], totals, window[k]);
      totals := Tally(totals, window[k]);
    }
    assert window[..|window|] == window;
    rates := map a | a in totals :: Rate(totals[a].0, totals[a].1);
    RatesRead(window, totals, rates);
    WindowReads(obs);
  }

  lemma TallyNothing()
    ensures Tallied([], map[])
  {
  }

  lemma RatesRead(obs: seq<Observation>, totals: Totals, rates: Weights)
    requires Tallied(obs, totals) && rates == map a | a in totals :: Rate(totals[a].0, totals[a].1)
    ensures forall a :: a in rates <==> Trials(obs, a) > 0
    ensures forall a | a in rates :: rates[a] == Rate(Successes(obs, a), Trials(obs, a))
              && rates[a] * (Trials(obs, a) as real + 2.0) == Successes(obs, a) as real + 1.0
  {
    hide Rate, Trials, Successes;
    forall a | a in rates
      ensures rates[a] == Rate(Successes(obs, a), Trials(obs, a))
      ensures rates[a] * (Trials(obs, a) as real + 2.0) == Successes(obs, a) as real + 1.0
    {
      RateReads(Successes(obs, a), Trials(obs, a));
    }
  }

  lemma {:induction false} SuccessesAreTrials(obs: seq<Observation>, agent: string)
    ensures Successes(obs, agent) <= Trials(obs, agent)
  {
    if obs != [] {
      SuccessesAreTrials(obs[..|obs| - 1], agent);
    }
  }

  /** A rate lies strictly between 0 and 1, and beats an unknown agent exactly when successes outnumber failures. */
  lemma RateAgainstNeutral(obs: seq<Observation>, agent: string)
    ensures var s, t := Successes(obs, agent), Trials(obs, agent);
            0.0 < Rate(s, t) < 1.0 && (Rate(s, t) > NEUTRAL_WEIGHT <==> s > t - s)
  {
    SuccessesAreTrials(obs, agent);
    var s, t := Successes(obs, agent), Trials(obs, agent);
    Ratio(s as real + 1.0, t as real + 2.0, 0.5);
    Ratio(s as real + 1.0, t as real + 2.0, 0.0);
    Ratio(s as real + 1.0, t as real + 2.0, 1.0);
  }

  lemma Ratio(n: real, d: real, c: real)
    requires d > 0.0
    ensures (n / d > c <==> n > c * d) && (n / d < c <==> n < c * d)
  {
    var gap := n / d - c;
    assert gap * d == n - c * d;
    if gap > 0.0 {
      assert gap * d > 0.0;
    } else if gap < 0.0 {
      assert gap * d < 0.0;
    }
  }

  // ----- Ordering -----

  /** One result: the agent it names, if any, its place in the batch, and the rest. */
  datatype Value = Value(agent: Option<string>, taskIndex: Option<nat>, error: Option<string>, body: string)

  function WeightOf(v: Value, weights: Weights): real {
    if v.agent.Some? && v.agent.value in weights then weights[v.agent.value] else NEUTRAL_WEIGHT
  }

  /** A result weighs what its agent does, and a half when it names none or one without a rate. */
  lemma WeightReads(v: Value, weights: Weights)
    ensures v.agent.Some? && v.agent.value in weights ==> WeightOf(v, weights) == weights[v.agent.value]
    ensures v.agent.None? || v.agent.value !in weights ==> WeightOf(v, weights) == 0.5
  {
  }

  ghost predicate Descending(s: seq<Value>, weights: Weights) {
    forall i, j | 0 <= i < j < |s| :: WeightOf(s[i], weights) >= WeightOf(s[j], weights)
  }

  /** The results of one weight, in the order they appear. */
  ghost function OfWeight(s: seq<Value>, weights: Weights, w: real): seq<Value> {
    if s == [] then []
    else if WeightOf(s[0], weights) == w then [s[0]] + OfWeight(s[1..], weights, w)
    else OfWeight(s[1..], weights, w)
  }

  /** Sorted by descending weight, and results of equal weight keep their order. */
  ghost predicate StablySorted(input: seq<Value>, weights: Weights, output: seq<Value>) {
    Descending(output, weights) && forall w :: OfWeight(output, weights, w) == OfWeight(input, weights, w)
  }

  lemma {:induction false} OfWeightConcat(a: seq<Value>, b: seq<Value>, weights: Weights, w: real)
    ensures OfWeight(a + b, weights, w) == OfWeight(a, weights, w) + OfWeight(b, weights, w)
  {
    if a == [] {
      assert a + b == b;
    } else {
      assert (a + b)[1..] == a[1..] + b;
      OfWeightConcat(a[1..], b, weights, w);
    }
  }

  lemma {:induction false} OfWeightNone(s: seq<Value>, weights: Weights, w: real)
    requires forall v | v in s :: WeightOf(v, weights) != w
    ensures OfWeight(s, weights, w) == []
  {
    if s != [] {
      OfWeightNone(s[1..], weights, w);
    }
  }

  /** There is only one stably sorted order, so it does not matter which stable sort computes it. */
  lemma {:induction false} StableOrderUnique(input: seq<Value>, weights: Weights, a: seq<Value>, b: seq<Value>)
    requires StablySorted(input, weights, a) && StablySorted(input, weights, b)
    ensures a == b
  {
    SameClassesSameOrder(weights, a, b);
  }

  lemma EmptyIffNoClass(s: seq<Value>, weights: Weights)
    ensures s == [] <==> forall w :: OfWeight(s, weights, w) == []
  {
    if s != [] {
      assert OfWeight(s, weights, WeightOf(s[0], weights)) != [];
    }
  }

  lemma {:induction false} SameClassesSameOrder(weights: Weights, a: seq<Value>, b: seq<Value>)
    requires Descending(a, weights) && Descending(b, weights)
    requires forall w :: OfWeight(a, weights, w) == OfWeight(b, weights, w)
    ensures a == b
  {
    EmptyIffNoClass(a, weights);
    EmptyIffNoClass(b, weights);
    if a != [] {
      HeadWeight(weights, a, b);
      HeadWeight(weights, b, a);
      var w := WeightOf(a[0], weights);
      assert OfWeight(a, weights, w)[0] == a[0] && OfWeight(b, weights, w)[0] == b[0];
      forall v ensures OfWeight(a[1..], weights, v) == OfWeight(b[1..], weights, v) {
        assert v == w ==> OfWeight(a, weights, v)[1..] == OfWeight(a[1..], weights, v);
        assert v == w ==> OfWeight(b, weights, v)[1..] == OfWeight(b[1..], weights, v);
        assert OfWeight(a, weights, v) == OfWeight(b, weights, v);
      }
      SameClassesSameOrder(weights, a[1..], b[1..]);
    }
  }

  lemma HeadWeight(weights: Weights, a: seq<Value>, b: seq<Value>)
    requires a != [] && b != [] && Descending(b, weights)
    requires forall w :: OfWeight(a, weights, w) == OfWeight(b, weights, w)
    ensures WeightOf(a[0], weights) <= WeightOf(b[0], weights)
  {
    var w := WeightOf(a[0], weights);
    assert OfWeight(a, weights, w) != [];
    if forall v | v in b :: WeightOf(v, weights) != w {
      OfWeightNone(b, weights, w);
    }
  }

  /** Inserts into a sorted run after everything at least as heavy. */
  method Insert(sorted: seq<Value>, v: Value, weights: Weights) returns (r: seq<Value>)
    requires Descending(sorted, weights)
    ensures StablySorted(sorted + [v], weights, r)
    ensures Bag(r) == Bag(sorted + [v])
  {
    var k: nat := |sorted|;
    while k > 0 && WeightOf(sorted[k - 1], weights) < WeightOf(v, weights)
      invariant k <= |sorted|
      invariant forall j | k <= j < |sorted| :: WeightOf(sorted[j], weights) < WeightOf(v, weights)
    {
      k := k - 1;
    }
    r := sorted[..k] + [v] + sorted[k..];
    InsertedAt(sorted, k, v, weights);
  }

  lemma InsertedAt(sorted: seq<Value>, k: nat, v: Value, weights: Weights)
    requires Descending(sorted, weights) && k <= |sorted|
    requires forall j | k <= j < |sorted| :: WeightOf(sorted[j], weights) < WeightOf(v, weights)
    requires k > 0 ==> WeightOf(sorted[k - 1], weights) >= WeightOf(v, weights)
    ensures StablySorted(sorted + [v], weights, sorted[..k] + [v] + sorted[k..])
    ensures Bag(sorted[..k] + [v] + sorted[k..]) == Bag(sorted + [v])
  {
    hide Bag, WeightOf, OfWeight, Descending;
    StaysDescending(sorted, k, v, weights);
    assert sorted[..k] + sorted[k..] == sorted;
    forall w ensures OfWeight(sorted[..k] + [v] + sorted[k..], weights, w) == OfWeight(sorted + [v], weights, w) {
      ClassesInserted(sorted[..k], v, sorted[k..], weights, w);
    }
    BagConcat(sorted[..k] + [v], sorted[k..]);
    BagConcat(sorted[..k], [v]);
    BagConcat(sorted, [v]);
    BagConcat(sorted[..k], sorted[k..]);
  }

  lemma StaysDescending(sorted: seq<Value>, k: nat, v: Value, weights: Weights)
    requires Descending(sorted, weights) && k <= |sorted|
    requires forall j | k <= j < |sorted| :: WeightOf(sorted[j], weights) < WeightOf(v, weights)
    requires k > 0 ==> WeightOf(sorted[k - 1], weights) >= WeightOf(v, weights)
    ensures Descending(sorted[..k] + [v] + sorted[k..], weights)
  {
    hide WeightOf;
    var r := sorted[..k] + [v] + sorted[k..];
    forall i, j | 0 <= i < j < |r| ensures WeightOf(r[i], weights) >= WeightOf(r[j], weights) {
      var x := if i < k then sorted[i] else if i == k then v else sorted[i - 1];
      var y := if j < k then sorted[j] else if j == k then v else sorted[j - 1];
      assert r[i] == x && r[j] == y;
      assert i < k && k <= j ==> WeightOf(sorted[i], weights) >= WeightOf(sorted[k - 1], weights);
    }
  }

  lemma ClassesInserted(a: seq<Value>, v: Value, b: seq<Value>, weights: Weights, w: real)
    requires forall j | 0 <= j < |b| :: WeightOf(b[j], weights) < WeightOf(v, weights)
    ensures OfWeight(a + [v] + b, weights, w) == OfWeight(a + b + [v], weights, w)
  {
    hide WeightOf, OfWeight;
    OfWeightConcat(a + [v], b, weights, w);
    OfWeightConcat(a, [v], weights, w);
    OfWeightConcat(a + b, [v], weights, w);
    OfWeightConcat(a, b, weights, w);
    if w == WeightOf(v, weights) {
      OfWeightNone(b, weights, w);
    } else {
      OfWeightNone([v], weights, w);
    }
  }

  /** Reorders a batch by weight: nothing is dropped or rewritten, and with no weights nothing moves. */
  method OrderValuesByWeight(results: seq<Value>, weights: Weights) returns (ordered: seq<Value>)
    ensures StablySorted(results, weights, ordered) && Bag(ordered) == Bag(results)
  {
    if weights == map[] || |results| < 2 {
      return results;
    }
    ordered := [];
    for k := 0 to |results|
      invariant StablySorted(results[..k], weights, ordered) && Bag(ordered) == Bag(results[..k])
    {
      assert results[..k + 1] == results[..k] + [results[k]];
      ghost var before := ordered;
      ordered := Insert(ordered, results[k], weights);
      InsertKeepsOrder(results[..k], weights, before, results[k], ordered);
    }
    assert results[..|results|] == results;
  }

  lemma InsertKeepsOrder(input: seq<Value>, weights: Weights, before: seq<Value>, v: Value, after: seq<Value>)
    requires StablySorted(input, weights, before) && Bag(before) == Bag(input)
    requires StablySorted(before + [v], weights, after) && Bag(after) == Bag(before + [v])
    ensures StablySorted(input + [v], weights, after) && Bag(after) == Bag(input + [v])
  {
    hide Bag;
    forall w ensures OfWeight(after, weights, w) == OfWeight(input + [v], weights, w) {
      OfWeightConcat(before, [v], weights, w);
      OfWeightConcat(input, [v], weights, w);
    }
    BagConcat(before, [v]);
    BagConcat(input, [v]);
  }

  // ----- Ties follow the index in the batch -----

  ghost predicate Numbered(s: seq<Value>) {
    forall i | 0 <= i < |s| :: s[i].taskIndex == Some(i)
  }

  ghost predicate IndexAscending(s: seq<Value>) {
    && (forall i | 0 <= i < |s| :: s[i].taskIndex.Some?)
    && forall i, j | 0 <= i < j < |s| :: s[i].taskIndex.value < s[j].taskIndex.value
  }

  lemma {:induction false} ClassMembers(s: seq<Value>, weights: Weights, w: real)
    ensures forall v :: v in OfWeight(s, weights, w) <==> v in s && WeightOf(v, weights) == w
  {
    if s != [] {
      ClassMembers(s[1..], weights, w);
    }
  }

  lemma {:induction false} ClassesAscend(s: seq<Value>, weights: Weights, w: real)
    requires IndexAscending(s)
    ensures IndexAscending(OfWeight(s, weights, w))
  {
    if s != [] {
      ClassesAscend(s[1..], weights, w);
      ClassMembers(s[1..], weights, w);
      var rest := OfWeight(s[1..], weights, w);
      forall k | 0 <= k < |rest| ensures s[0].taskIndex.value < rest[k].taskIndex.value {
        assert rest[k] in s[1..];
      }
    }
  }

  lemma {:induction false} AscendsWithinClass(s: seq<Value>, weights: Weights, i: nat, j: nat)
    requires i < j < |s| && WeightOf(s[i], weights) == WeightOf(s[j], weights)
    requires IndexAscending(OfWeight(s, weights, WeightOf(s[i], weights)))
    ensures s[i].taskIndex.Some? && s[j].taskIndex.Some? && s[i].taskIndex.value < s[j].taskIndex.value
  {
    var w := WeightOf(s[i], weights);
    if i == 0 {
      ClassMembers(s[1..], weights, w);
      assert s[j] in s[1..];
      var rest := OfWeight(s[1..], weights, w);
      var k :| 0 <= k < |rest| && rest[k] == s[j];
      assert OfWeight(s, weights, w)[k + 1] == s[j] && OfWeight(s, weights, w)[0] == s[0];
    } else {
      var all, rest := OfWeight(s, weights, w), OfWeight(s[1..], weights, w);
      forall a, b | 0 <= a < b < |rest| ensures rest[a].taskIndex.Some? && rest[b].taskIndex.Some?
        && rest[a].taskIndex.value < rest[b].taskIndex.value
      {
        if WeightOf(s[0], weights) == w {
          assert rest[a] == all[a + 1] && rest[b] == all[b + 1];
        }
      }
      forall a | 0 <= a < |rest| ensures rest[a].taskIndex.Some? {
        if WeightOf(s[0], weights) == w {
          assert rest[a] == all[a + 1];
        }
      }
      AscendsWithinClass(s[1..], weights, i - 1, j - 1);
    }
  }

  /** In a ranked batch earlier means heavier, or equally heavy with a smaller task index. */
  lemma RankedByWeightThenIndex(slots: seq<Value>, weights: Weights, ordered: seq<Value>, i: nat, j: nat)
    requires Numbered(slots) && StablySorted(slots, weights, ordered) && i < j < |ordered|
    ensures WeightOf(ordered[i], weights) > WeightOf(ordered[j], weights)
            || (WeightOf(ordered[i], weights) == WeightOf(ordered[j], weights)
                && ordered[i].taskIndex.Some? && ordered[j].taskIndex.Some?
                && ordered[i].taskIndex.value < ordered[j].taskIndex.value)
  {
    if WeightOf(ordered[i], weights) == WeightOf(ordered[j], weights) {
      ClassesAscend(slots, weights, WeightOf(ordered[i], weights));
      AscendsWithinClass(ordered, weights, i, j);
    }
  }
}
