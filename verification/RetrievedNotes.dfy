/** Retrieved notes cut to a character budget, and the shrinking budgets of delegated sub-agents. */
module RetrievedNotes {
   const KNOWLEDGE_BUDGET_CHARS_MIN: nat := 512

  datatype Note = Note(path: string, content: string)

  ghost function Contents(notes: seq<Note>): string {
    if notes == [] then "" else notes[0].content + Contents(notes[1..])
  }

  function Min(a: nat, b: nat): nat {
    if a < b then a else b
  }

  /** Notes in rank order until the budget is used up; the last one may be cut. */
  ghost function Truncated(notes: seq<Note>, budget: nat): seq<Note> {
    if notes == [] || budget == 0 then []
    else
      var n := Min(|notes[0].content|, budget);
      [notes[0].(content := notes[0].content[..n])] + Truncated(notes[1..], budget - n)
  }

  method TruncateNotesToBudget(notes: seq<Note>, budget: nat) returns (truncated: seq<Note>, used: nat)
    ensures truncated == Truncated(notes, budget)
    ensures used == |Contents(truncated)| == Min(budget, |Contents(notes)|)
  {
    hide Contents, Truncated;
    truncated, used := [], 0;
    NothingTaken(notes, budget);
    var k := 0;
    while k < |notes|
      invariant k <= |notes| && used <= budget
      invariant truncated + Truncated(notes[k..], budget - used) == Truncated(notes, budget)
      invariant used == |Contents(truncated)|
    {
      var remaining := budget - used;
      if remaining == 0 {
        break;
      }
      var note := notes[k];
      var len := |note.content|;
      if len > remaining {
        note := note.(content := note.content[..remaining]);
      }
      TakeNote(notes, k, remaining, note, truncated);
      used := used + Min(len, remaining);
      truncated := truncated + [note];
      k := k + 1;
    }
    NothingLeft(notes[k..], budget - used);
    assert truncated + [] == truncated;
    PrefixExact(notes, budget);
  }

  lemma NothingTaken(notes: seq<Note>, budget: nat)
    ensures [] + Truncated(notes[0..], budget) == Truncated(notes, budget) && Contents([]) == ""
  {
    assert notes[0..] == notes;
  }

  lemma NothingLeft(notes: seq<Note>, budget: nat)
    requires notes == [] || budget == 0
    ensures Truncated(notes, budget) == []
  {
  }

  lemma TakeNote(notes: seq<Note>, k: nat, remaining: nat, note: Note, taken: seq<Note>)
    requires k < |notes| && remaining > 0
    requires note == notes[k].(content := notes[k].content[..Min(|notes[k].content|, remaining)])
    ensures taken + Truncated(notes[k..], remaining) ==
            taken + [note] + Truncated(notes[k + 1..], remaining - |note.content|)
    ensures |Contents(taken + [note])| == |Contents(taken)| + |note.content|
  {
    assert notes[k..][1..] == notes[k + 1..];
    assert Truncated(notes[k..], remaining) == [note] + Truncated(notes[k + 1..], remaining - |note.content|);
    ContentsAppend(taken, note);
  }

  lemma {:induction false} ContentsAppend(notes: seq<Note>, note: Note)
    ensures Contents(notes + [note]) == Contents(notes) + note.content
  {
    if notes == [] {
      assert notes + [note] == [note] && [note][1..] == [];
    } else {
      ContentsAppend(notes[1..], note);
      assert (notes + [note])[1..] == notes[1..] + [note];
    }
  }

  lemma HeadTaken(note: Note, rest: seq<Note>, budget: nat)
    requires budget > 0
    ensures var n := Min(|note.content|, budget);
            Truncated([note] + rest, budget) == [note.(content := note.content[..n])] + Truncated(rest, budget - n)
  {
    assert ([note] + rest)[1..] == rest;
  }

  lemma HeadContents(note: Note, rest: seq<Note>)
    ensures Contents([note] + rest) == note.content + Contents(rest)
  {
    assert ([note] + rest)[1..] == rest;
  }

  lemma CutPrefix(head: string, tail: string, budget: nat)
    ensures var n := Min(|head|, budget);
            head[..n] + tail[..Min(budget - n, |tail|)] == (head + tail)[..Min(budget, |head + tail|)]
  {
  }

  /** Exactly the first characters survive: as many as the budget allows, and all of them when it allows them all. */
  lemma {:induction false} PrefixExact(notes: seq<Note>, budget: nat)
    ensures Contents(Truncated(notes, budget)) == Contents(notes)[..Min(budget, |Contents(notes)|)]
  {
    if notes != [] && budget > 0 {
      hide Contents, Truncated;
      var note, rest := notes[0], notes[1..];
      var n := Min(|note.content|, budget);
      assert notes == [note] + rest;
      PrefixExact(rest, budget - n);
      HeadTaken(note, rest, budget);
      HeadContents(note, rest);
      HeadContents(note.(content := note.content[..n]), Truncated(rest, budget - n));
      CutPrefix(note.content, Contents(rest), budget);
    }
  }

  /** Exactly the notes with budget left at their turn are kept, each with as much of its content as that leaves. */
  lemma {:induction false} KeptReads(notes: seq<Note>, budget: nat, k: nat)
    requires k < |notes|
    ensures k < |Truncated(notes, budget)| <==> |Contents(notes[..k])| < budget
    ensures k < |Truncated(notes, budget)| ==>
              var left := budget - |Contents(notes[..k])|;
              Truncated(notes, budget)[k] == notes[k].(content := notes[k].content[..Min(|notes[k].content|, left)])
  {
    if k > 0 {
      var note, rest := notes[0], notes[1..];
      assert notes[..k] == [note] + rest[..k - 1];
      HeadContents(note, rest[..k - 1]);
      if budget > 0 {
        KeptReads(rest, budget - Min(|note.content|, budget), k - 1);
      }
    } else {
      assert notes[..0] == [];
    }
  }

  /** Nothing but contents changes, and notes keep their rank. */
  lemma {:induction false} RankKept(notes: seq<Note>, budget: nat)
    ensures |Truncated(notes, budget)| <= |notes|
    ensures forall k | 0 <= k < |Truncated(notes, budget)| ::
              && Truncated(notes, budget)[k].path == notes[k].path
              && Truncated(notes, budget)[k].content <= notes[k].content
  {
    if notes != [] && budget > 0 {
      RankKept(notes[1..], budget - Min(|notes[0].content|, budget));
    }
  }

  /** Truncating twice is truncating once to the smaller budget. */
  lemma {:induction false} TruncationComposes(notes: seq<Note>, first: nat, second: nat)
    ensures Truncated(Truncated(notes, first), second) == Truncated(notes, Min(first, second))
  {
    hide Truncated;
    if notes != [] && first > 0 && second > 0 {
      var note, rest := notes[0], notes[1..];
      var n := Min(|note.content|, first);
      var cut, m := note.(content := note.content[..n]), Min(n, second);
      assert notes == [note] + rest;
      HeadTaken(note, rest, first);
      HeadTaken(cut, Truncated(rest, first - n), second);
      HeadTaken(note, rest, Min(first, second));
      assert cut.content[..m] == note.content[..m];
      TruncationComposes(rest, first - n, second - m);
      assert Min(first - n, second - m) == Min(first, second) - m;
    } else {
      NothingComposes(notes, first, second);
    }
  }

  lemma NothingComposes(notes: seq<Note>, first: nat, second: nat)
    requires notes == [] || first == 0 || second == 0
    ensures Truncated(Truncated(notes, first), second) == [] == Truncated(notes, Min(first, second))
  {
  }

  // ----- Inheritance along a delegation chain -----

  function Halved(n: nat, times: nat): nat {
    if times == 0 then n else Halved(n, times - 1) / 2
  }

  /** The budget at a chain depth: the base halved once per hop (at most 31 times), but never below the minimum. */
  function InheritanceBudget(base: nat, depth: nat): nat {
    var shifted := Halved(base, Min(depth, 31));
    if shifted < KNOWLEDGE_BUDGET_CHARS_MIN then KNOWLEDGE_BUDGET_CHARS_MIN else shifted
  }

  ghost function Pow2(k: nat): (p: nat)
    ensures p > 0
  {
    if k == 0 then 1 else 2 * Pow2(k - 1)
  }

  lemma HalveOnce(n: nat, h: nat, p: nat)
    requires h * p <= n < (h + 1) * p
    ensures h / 2 * (2 * p) <= n < (h / 2 + 1) * (2 * p)
  {
    var half := h / 2;
    Scale(2 * half, h, p);
    Scale(h + 1, 2 * half + 2, p);
    Regroup(half, p);
    Regroup(half + 1, p);
  }

  lemma Regroup(a: nat, p: nat)
    ensures a * (2 * p) == 2 * a * p
  {
  }

  lemma {:induction false} HalvedReads(n: nat, times: nat)
    ensures Halved(n, times) * Pow2(times) <= n < (Halved(n, times) + 1) * Pow2(times)
  {
    if times > 0 {
      HalvedReads(n, times - 1);
      HalveOnce(n, Halved(n, times - 1), Pow2(times - 1));
    }
  }

  lemma Scale(a: nat, b: nat, p: nat)
    requires a <= b
    ensures a * p <= b * p
  {
  }

  /** At depth `d` the budget is the base divided by two to the `d` (31 at most), rounded down, and at least 512. */
  lemma BudgetReads(base: nat, depth: nat)
    ensures var p, budget := Pow2(if depth < 31 then depth else 31), InheritanceBudget(base, depth);
            && budget >= 512
            && (budget > 512 ==> budget * p <= base < (budget + 1) * p)
            && (base >= 512 * p ==> budget * p <= base < (budget + 1) * p)
            && (base < 512 * p ==> budget == 512)
  {
    var p, h := Pow2(Min(depth, 31)), Halved(base, Min(depth, 31));
    HalvedReads(base, Min(depth, 31));
    if h < 512 {
      Scale(h + 1, 512, p);
    } else {
      Scale(512, h, p);
    }
  }

  lemma {:induction false} HalvingShrinks(n: nat, a: nat, b: nat)
    requires a <= b
    ensures Halved(n, b) <= Halved(n, a)
  {
    if a < b {
      HalvingShrinks(n, a, b - 1);
    }
  }

  /** What a deeper sub-agent inherits is a prefix of what a shallower one inherits from the same notes, and inheriting
      again from the shallower one's notes makes no difference. */
  lemma DeeperInheritsLess(notes: seq<Note>, base: nat, depth: nat, deeper: nat)
    requires depth <= deeper
    ensures var shallow, deep := InheritanceBudget(base, depth), InheritanceBudget(base, deeper);
            && Contents(Truncated(notes, deep)) <= Contents(Truncated(notes, shallow))
            && Truncated(Truncated(notes, shallow), deep) == Truncated(notes, deep)
  {
    var shallow, deep := InheritanceBudget(base, depth), InheritanceBudget(base, deeper);
    HalvingShrinks(base, Min(depth, 31), Min(deeper, 31));
    PrefixExact(notes, shallow);
    PrefixExact(notes, deep);
    TruncationComposes(notes, shallow, deep);
  }
}
