/** The byte-capped history of tool results carried from round to round of one turn. */
module ToolHistory {
  import opened Prelude

  const TOOL_RESULTS_HISTORY_CAP_CHARS: nat := 16000

  ghost function Total(rounds: seq<Bytes>): nat {
    if rounds == [] then 0 else |rounds[0]| + Total(rounds[1..])
  }

  lemma {:induction false} TotalAppend(a: seq<Bytes>, b: seq<Bytes>)
    ensures Total(a + b) == Total(a) + Total(b)
  {
    if a == [] {
      assert a + b == b;
    } else {
      assert (a + b)[1..] == a[1..] + b;
      TotalAppend(a[1..], b);
    }
  }

  // ----- Cutting at a character boundary -----

  /** An offset between characters: an end of the text, or a byte that does not continue a character. */
  predicate IsCharBoundary(s: Bytes, i: nat) {
    i == 0 || i == |s| || (i < |s| && !(128 <= s[i] < 192))
  }

  /** The first boundary at or after `from`. */
  ghost function BoundaryFrom(s: Bytes, from: nat): (cut: nat)
    requires from <= |s|
    ensures from <= cut <= |s| && IsCharBoundary(s, cut)
    ensures forall i: nat | from <= i < cut :: !IsCharBoundary(s, i)
    decreases |s| - from
  {
    if IsCharBoundary(s, from) then from else BoundaryFrom(s, from + 1)
  }

  /** The newest part of an oversized round that the cap and the character boundaries allow; other rounds are kept. */
  ghost function Clip(s: Bytes): (tail: Bytes)
    ensures |tail| <= TOOL_RESULTS_HISTORY_CAP_CHARS
  {
    if |s| <= TOOL_RESULTS_HISTORY_CAP_CHARS then s else s[BoundaryFrom(s, |s| - TOOL_RESULTS_HISTORY_CAP_CHARS)..]
  }

  /** No four bytes in a row all continue a character, as in every UTF-8 text. */
  ghost predicate Utf8Shaped(s: Bytes) {
    forall i: nat | i + 3 < |s| :: BoundaryNear(s, i)
  }

  ghost predicate BoundaryNear(s: Bytes, i: nat) {
    exists j: nat :: i <= j <= i + 3 && j < |s| && !Continues(s[j])
  }

  /** A byte inside a character. */
  ghost predicate Continues(b: Byte) {
    128 <= b < 192
  }

  /** An oversized round keeps everything from the first byte that the cap allows and that starts a character. */
  lemma ClipReads(s: Bytes)
    ensures |s| <= 16000 ==> Clip(s) == s
    ensures |s| > 16000 ==>
              var cut := |s| - |Clip(s)|;
              && Clip(s) == s[cut..] && (cut == |s| || !Continues(s[cut]))
              && forall i | |s| - 16000 <= i < cut :: Continues(s[i])
  {
    if |s| > TOOL_RESULTS_HISTORY_CAP_CHARS {
      var cut := BoundaryFrom(s, |s| - TOOL_RESULTS_HISTORY_CAP_CHARS);
      assert IsCharBoundary(s, cut);
      forall i: nat | |s| - TOOL_RESULTS_HISTORY_CAP_CHARS <= i < cut ensures Continues(s[i]) {
        assert !IsCharBoundary(s, i);
      }
    }
  }

  /** Clipping UTF-8 text costs at most three bytes beyond the cap, and the rest starts on a character. */
  lemma ClipKeepsAlmostAll(s: Bytes)
    requires Utf8Shaped(s) && |s| > TOOL_RESULTS_HISTORY_CAP_CHARS
    ensures TOOL_RESULTS_HISTORY_CAP_CHARS - 3 <= |Clip(s)| && !(128 <= Clip(s)[0] < 192)
  {
    var from := |s| - TOOL_RESULTS_HISTORY_CAP_CHARS;
    var cut := BoundaryFrom(s, from);
    assert BoundaryNear(s, from);
    var j: nat :| from <= j <= from + 3 && j < |s| && !Continues(s[j]);
    assert IsCharBoundary(s, j);
    assert cut <= j;
  }

  // ----- Pushing a round -----

  /** The longest suffix of `rounds` that fits the cap. */
  ghost function LongestFit(rounds: seq<Bytes>): (kept: seq<Bytes>)
    ensures Total(kept) <= TOOL_RESULTS_HISTORY_CAP_CHARS
  {
    if Total(rounds) <= TOOL_RESULTS_HISTORY_CAP_CHARS then rounds else LongestFit(rounds[1..])
  }

  /** It is a suffix, and every suffix that fits is a suffix of it. */
  lemma {:induction false} LongestFitIsLongest(rounds: seq<Bytes>)
    ensures |LongestFit(rounds)| <= |rounds| && LongestFit(rounds) == rounds[|rounds| - |LongestFit(rounds)|..]
    ensures forall k: nat | k <= |rounds| && Total(rounds[k..]) <= TOOL_RESULTS_HISTORY_CAP_CHARS ::
              |rounds| - |LongestFit(rounds)| <= k
  {
    if Total(rounds) > TOOL_RESULTS_HISTORY_CAP_CHARS {
      var rest := rounds[1..];
      LongestFitIsLongest(rest);
      assert LongestFit(rounds) == rest[|rest| - |LongestFit(rest)|..];
      forall k: nat | k <= |rounds| && Total(rounds[k..]) <= TOOL_RESULTS_HISTORY_CAP_CHARS
        ensures |rounds| - |LongestFit(rounds)| <= k
      {
        assert k > 0 by {
          assert rounds[0..] == rounds;
        }
        assert rounds[k..] == rest[k - 1..];
      }
    }
  }

  /** What one push makes of the history. */
  ghost function Pushed(history: seq<Bytes>, round: Bytes): seq<Bytes> {
    if |round| <= TOOL_RESULTS_HISTORY_CAP_CHARS then LongestFit(history + [round]) else [Clip(round)]
  }

  /** Drops oldest rounds while the cap is exceeded; a newest round that exceeds it alone is cut. */
  method PushToolResultsHistory(history: seq<Bytes>, round: Bytes) returns (history': seq<Bytes>)
    ensures history' == Pushed(history, round)
  {
    history' := history + [round];
    ghost var all := history';
    var total := 0;
    for k := 0 to |history'|
      invariant total == Total(history'[..k])
    {
      assert history'[..k + 1] == history'[..k] + [history'[k]];
      TotalAppend(history'[..k], [history'[k]]);
      total := total + |history'[k]|;
    }
    assert history'[..|history'|] == history';
    while total > TOOL_RESULTS_HISTORY_CAP_CHARS && |history'| > 1
      invariant |history'| >= 1 && history'[|history'| - 1] == round
      invariant total == Total(history') && LongestFit(all) == LongestFit(history')
    {
      total := total - |history'[0]|;
      history' := history'[1..];
    }
    if total > TOOL_RESULTS_HISTORY_CAP_CHARS {
      assert history' == [round];
      var cut: nat := |round| - TOOL_RESULTS_HISTORY_CAP_CHARS;
      while cut < |round| && !IsCharBoundary(round, cut)
        invariant |round| - TOOL_RESULTS_HISTORY_CAP_CHARS <= cut <= |round|
        invariant forall i: nat | |round| - TOOL_RESULTS_HISTORY_CAP_CHARS <= i < cut :: !IsCharBoundary(round, i)
      {
        cut := cut + 1;
      }
      assert cut == BoundaryFrom(round, |round| - TOOL_RESULTS_HISTORY_CAP_CHARS);
      history' := [round[cut..]];
    } else {
      assert |round| <= total by {
        TotalAppend(history'[..|history'| - 1], [round]);
        assert history' == history'[..|history'| - 1] + [round];
      }
    }
  }

  // ----- Any sequence of pushes -----

  ghost function After(rounds: seq<Bytes>): seq<Bytes> {
    if rounds == [] then [] else Pushed(After(rounds[..|rounds| - 1]), rounds[|rounds| - 1])
  }

  /** The rounds that still matter: those since the last oversized one, which counts as what was kept of it. */
  ghost function Effective(rounds: seq<Bytes>): seq<Bytes> {
    if rounds == [] then []
    else
      var last := rounds[|rounds| - 1];
      if |last| > TOOL_RESULTS_HISTORY_CAP_CHARS then [Clip(last)] else Effective(rounds[..|rounds| - 1]) + [last]
  }

  lemma {:induction false} FitThenPush(rounds: seq<Bytes>, last: Bytes)
    requires |last| <= TOOL_RESULTS_HISTORY_CAP_CHARS
    ensures LongestFit(LongestFit(rounds) + [last]) == LongestFit(rounds + [last])
  {
    if Total(rounds) > TOOL_RESULTS_HISTORY_CAP_CHARS {
      FitThenPush(rounds[1..], last);
      TotalAppend(rounds, [last]);
      assert (rounds + [last])[1..] == rounds[1..] + [last];
    }
  }

  /** After any pushes the history is the longest suffix that fits of the rounds since the last oversized one. */
  lemma {:induction false} HistoryIsLongestFit(rounds: seq<Bytes>)
    ensures After(rounds) == LongestFit(Effective(rounds))
  {
    if rounds != [] {
      var early, last := rounds[..|rounds| - 1], rounds[|rounds| - 1];
      HistoryIsLongestFit(early);
      if |last| <= TOOL_RESULTS_HISTORY_CAP_CHARS {
        FitThenPush(Effective(early), last);
      }
    }
  }

  /** With no oversized round, the history is the longest suffix of everything pushed that fits. */
  lemma {:induction false} WithinCapNothingElseIsLost(rounds: seq<Bytes>)
    requires forall r | r in rounds :: |r| <= TOOL_RESULTS_HISTORY_CAP_CHARS
    ensures Effective(rounds) == rounds && After(rounds) == LongestFit(rounds)
  {
    HistoryIsLongestFit(rounds);
    if rounds != [] {
      WithinCapNothingElseIsLost(rounds[..|rounds| - 1]);
    }
  }

  // ----- A burst of lines on top of any history -----

  ghost function PushedAll(history: seq<Bytes>, lines: seq<Bytes>): seq<Bytes> {
    if lines == [] then history else Pushed(PushedAll(history, lines[..|lines| - 1]), lines[|lines| - 1])
  }

  ghost predicate EndsWith(s: seq<Bytes>, tail: seq<Bytes>) {
    |tail| <= |s| && s[|s| - |tail|..] == tail
  }

  lemma {:induction false} TotalOfTail(s: seq<Bytes>, tail: seq<Bytes>)
    requires EndsWith(s, tail)
    ensures Total(tail) <= Total(s)
  {
    assert s == s[..|s| - |tail|] + tail;
    TotalAppend(s[..|s| - |tail|], tail);
  }

  lemma FitKeepsTail(rounds: seq<Bytes>, tail: seq<Bytes>)
    requires EndsWith(rounds, tail) && Total(tail) <= TOOL_RESULTS_HISTORY_CAP_CHARS
    ensures EndsWith(LongestFit(rounds), tail)
  {
    LongestFitIsLongest(rounds);
    var kept := LongestFit(rounds);
    assert rounds[|rounds| - |tail|..] == tail;
    assert kept[|kept| - |tail|..] == rounds[|rounds| - |tail|..];
  }

  lemma EndsWithAppend(s: seq<Bytes>, tail: seq<Bytes>, x: Bytes)
    requires EndsWith(s, tail)
    ensures EndsWith(s + [x], tail + [x])
  {
    assert (s + [x])[|s| - |tail|..] == s[|s| - |tail|..] + [x];
  }

  lemma LastPush(history: seq<Bytes>, lines: seq<Bytes>)
    requires lines != [] && |lines[|lines| - 1]| <= TOOL_RESULTS_HISTORY_CAP_CHARS
    ensures var m := |lines| - 1;
            PushedAll(history, lines) == LongestFit(PushedAll(history, lines[..m]) + [lines[m]])
  {
  }

  lemma {:induction false} BurstKeepsTail(history: seq<Bytes>, lines: seq<Bytes>, j: nat)
    requires j < |lines| && Total(lines[j..]) <= TOOL_RESULTS_HISTORY_CAP_CHARS
    ensures EndsWith(PushedAll(history, lines), lines[j..])
  {
    hide LongestFit, Total, EndsWith, Clip, Pushed, PushedAll;
    var m := |lines| - 1;
    var before, last := PushedAll(history, lines[..m]), lines[m];
    assert lines[j..] == lines[j..m] + [last];
    TotalAppend(lines[j..m], [last]);
    TotalOfOne(last);
    LastPush(history, lines);
    if j < m {
      assert lines[..m][j..] == lines[j..m];
      BurstKeepsTail(history, lines[..m], j);
    } else {
      EndsWithNothing(before, lines[j..m]);
    }
    EndsWithAppend(before, lines[j..m], last);
    FitKeepsTail(before + [last], lines[j..]);
  }

  lemma EndsWithNothing(s: seq<Bytes>, tail: seq<Bytes>)
    requires tail == []
    ensures EndsWith(s, tail)
  {
  }

  lemma TotalOfOne(x: Bytes)
    ensures Total([x]) == |x|
  {
  }

  /** After a burst of lines, the lines from number `j` on are all intact exactly when together they fit the cap. */
  lemma IntactIffFits(history: seq<Bytes>, lines: seq<Bytes>, j: nat)
    requires j < |lines|
    ensures EndsWith(PushedAll(history, lines), lines[j..]) <==> Total(lines[j..]) <= TOOL_RESULTS_HISTORY_CAP_CHARS
  {
    if EndsWith(PushedAll(history, lines), lines[j..]) {
      TotalOfTail(PushedAll(history, lines), lines[j..]);
      PushedFits(PushedAll(history, lines[..|lines| - 1]), lines[|lines| - 1]);
    } else if Total(lines[j..]) <= TOOL_RESULTS_HISTORY_CAP_CHARS {
      BurstKeepsTail(history, lines, j);
    }
  }

  lemma PushedFits(history: seq<Bytes>, round: Bytes)
    ensures Total(Pushed(history, round)) <= TOOL_RESULTS_HISTORY_CAP_CHARS
  {
    assert |round| > TOOL_RESULTS_HISTORY_CAP_CHARS ==> Total([Clip(round)]) == |Clip(round)|;
  }
}
