/** Prompts composed by the plan engine against the length gate of delegation. */
module PromptSize {
  import opened Prelude
  import opened DependencyGraph
  import opened PlanTask
  import opened PlanRun
  import DelegateChain

  // ----- Text as bytes -----

  function Utf8Char(c: char): (b: Bytes)
    ensures 1 <= |b| <= 4
  {
    var x := c as int;
    if x < 0x80 then [x as Byte]
    else if x < 0x800 then [(0xC0 + x / 64) as Byte, (0x80 + x % 64) as Byte]
    else if x < 0x1_0000 then [(0xE0 + x / 4096) as Byte, (0x80 + x / 64 % 64) as Byte, (0x80 + x % 64) as Byte]
    else [(0xF0 + x / 262144) as Byte, (0x80 + x / 4096 % 64) as Byte, (0x80 + x / 64 % 64) as Byte,
          (0x80 + x % 64) as Byte]
  }

  /** The encoding takes one to four bytes by code point, and the code point can be read back from them. */
  lemma Utf8CharReads(c: char)
    ensures var x, b := c as int, Utf8Char(c);
            && |b| == (if x < 0x80 then 1 else if x < 0x800 then 2 else if x < 0x1_0000 then 3 else 4)
            && (|b| == 1 ==> b[0] as int == x)
            && (|b| == 2 ==> (b[0] as int - 0xC0) * 64 + (b[1] as int - 0x80) == x)
            && (|b| == 3 ==> (b[0] as int - 0xE0) * 4096 + (b[1] as int - 0x80) * 64 + (b[2] as int - 0x80) == x)
            && (|b| == 4 ==> (b[0] as int - 0xF0) * 262144 + (b[1] as int - 0x80) * 4096 + (b[2] as int - 0x80) * 64
                             + (b[3] as int - 0x80) == x)
            && forall k | 1 <= k < |b| :: 0x80 <= b[k] < 0xC0
  {
    var x := c as int;
    Split64(x);
    if x >= 0x1_0000 {
      LongChar(x, Utf8Char(c));
    }
  }

  /** A number from its digits to the base 64. */
  lemma Split64(x: nat)
    ensures x == x / 4096 * 4096 + x / 64 % 64 * 64 + x % 64
    ensures x / 4096 == x / 262144 * 64 + x / 4096 % 64
  {
    var y := x / 64;
    assert x == y * 64 + x % 64 && y == y / 64 * 64 + y % 64;
    assert y / 64 == x / 4096;
    assert x / 4096 / 64 == x / 262144;
  }

  lemma LongChar(x: nat, b: Bytes)
    requires x < 0x11_0000 && |b| == 4
    requires b[0] as int == 0xF0 + x / 262144 && b[1] as int == 0x80 + x / 4096 % 64
    requires b[2] as int == 0x80 + x / 64 % 64 && b[3] as int == 0x80 + x % 64
    ensures (b[0] as int - 0xF0) * 262144 + (b[1] as int - 0x80) * 4096 + (b[2] as int - 0x80) * 64
            + (b[3] as int - 0x80) == x
  {
    Split64(x);
  }

  function Utf8(s: string): Bytes {
    if s == "" then [] else Utf8(s[..|s| - 1]) + Utf8Char(s[|s| - 1])
  }

  lemma {:induction false} Utf8Concat(a: string, b: string)
    ensures Utf8(a + b) == Utf8(a) + Utf8(b)
  {
    if b == "" {
      assert a + b == a;
    } else {
      assert (a + b)[..|a + b| - 1] == a + b[..|b| - 1];
      Utf8Concat(a, b[..|b| - 1]);
    }
  }

  /** No character takes more than `w` bytes. */
  ghost predicate Narrow(s: string, w: nat) {
    forall k | 0 <= k < |s| :: |Utf8Char(s[k])| <= w
  }

  lemma OneMore(w: nat, n: nat)
    ensures w * (n + 1) == w * n + w
  {
  }

  lemma {:induction false} NarrowBytes(s: string, w: nat)
    requires Narrow(s, w)
    ensures |Utf8(s)| <= w * |s|
    ensures (forall k | 0 <= k < |s| :: |Utf8Char(s[k])| == w) ==> |Utf8(s)| == w * |s|
  {
    if s != "" {
      NarrowBytes(s[..|s| - 1], w);
      OneMore(w, |s| - 1);
    }
  }

  // ----- The largest prompt a task can get -----

  /** The text a snippet is cut from. */
  function AnswerText(p: Problem, v: Value): string {
    if v.response.Text? then v.response.text else p.oracle.render(v)
  }

  ghost function SnippetMost(words: Wording, w: nat): nat {
    w * UPSTREAM_SNIPPET_MAX_CHARS + |Utf8(words.truncated)|
  }

  lemma SnippetBytes(p: Problem, v: Value, w: nat)
    requires Narrow(AnswerText(p, v), w)
    ensures |Utf8(UpstreamSnippet(p, v))| <= SnippetMost(p.words, w)
    ensures |AnswerText(p, v)| > UPSTREAM_SNIPPET_MAX_CHARS
            && (forall k | 0 <= k < |AnswerText(p, v)| :: |Utf8Char(AnswerText(p, v)[k])| == w) ==>
              |Utf8(UpstreamSnippet(p, v))| == SnippetMost(p.words, w)
  {
    hide Utf8, Utf8Char;
    var text := AnswerText(p, v);
    if |text| > UPSTREAM_SNIPPET_MAX_CHARS {
      NarrowBytes(text[..UPSTREAM_SNIPPET_MAX_CHARS], w);
      Utf8Concat(text[..UPSTREAM_SNIPPET_MAX_CHARS], p.words.truncated);
    } else {
      NarrowBytes(text, w);
      Times(w, |text|, UPSTREAM_SNIPPET_MAX_CHARS);
    }
  }

  lemma Times(w: nat, m: nat, n: nat)
    requires m <= n
    ensures w * m <= w * n
  {
  }

  /** Bytes of a section apart from its snippet. */
  ghost function Frame(words: Wording, id: string): nat {
    |Utf8(words.sectionOpen)| + |Utf8(id)| + |Utf8(words.sectionBody)|
  }

  lemma SectionBytes(words: Wording, up: (string, string))
    ensures |Utf8(Section(words, up))| == Frame(words, up.0) + |Utf8(up.1)|
  {
    hide Utf8;
    Utf8Concat(words.sectionOpen, up.0);
    Utf8Concat(words.sectionOpen + up.0, words.sectionBody);
    Utf8Concat(words.sectionOpen + up.0 + words.sectionBody, up.1);
  }

  ghost function SectionsMost(words: Wording, ids: seq<string>, snippet: nat): nat {
    if ids == [] then 0
    else SectionsMost(words, ids[..|ids| - 1], snippet) + Frame(words, ids[|ids| - 1]) + snippet
  }

  lemma {:induction false} SectionsBytes(words: Wording, ups: seq<(string, string)>, ids: seq<string>, snippet: nat)
    requires |ups| == |ids| && forall k | 0 <= k < |ups| :: ups[k].0 == ids[k] && |Utf8(ups[k].1)| <= snippet
    ensures |Utf8(Sections(words, ups))| <= SectionsMost(words, ids, snippet)
    ensures (forall k | 0 <= k < |ups| :: |Utf8(ups[k].1)| == snippet) ==>
              |Utf8(Sections(words, ups))| == SectionsMost(words, ids, snippet)
  {
    hide Section, Frame;
    if ups == [] {
      assert Sections(words, ups) == "";
    } else {
      var m := |ups| - 1;
      SectionsBytes(words, ups[..m], ids[..m], snippet);
      SectionBytes(words, ups[m]);
      Utf8Concat(Sections(words, ups[..m]), Section(words, ups[m]));
    }
  }

  /** The ids of a task's dependencies, repetitions included. */
  ghost function InputIds(p: Problem, i: nat): (ids: seq<string>)
    requires InRange(p.deps) && |p.deps| == |p.plan.tasks| && i < |p.deps|
    ensures |ids| == |p.deps[i]|
  {
    var row := p.deps[i];
    seq(|row|, k requires 0 <= k < |row| =>
      assert row[k] in row;
      p.plan.tasks[row[k]].id)
  }

  /** The most bytes task `i` can be prompted with when its inputs use characters of at most `w` bytes. */
  ghost function PromptMost(p: Problem, i: nat, w: nat): nat
    requires InRange(p.deps) && |p.deps| == |p.plan.tasks| && i < |p.deps|
  {
    |Utf8(p.plan.tasks[i].prompt)| +
    if p.deps[i] == [] then 0
    else |Utf8(p.words.header)| + SectionsMost(p.words, InputIds(p, i), SnippetMost(p.words, w))
  }

  /** All of task `i`'s inputs are there, in characters of at most `w` bytes. */
  ghost predicate Feeds(p: Problem, outs: Outcomes, i: nat, w: nat) {
    && p.Fits(outs) && i < |outs| && Unblocked(p, outs, i)
    && forall d | d in p.deps[i] :: Narrow(AnswerText(p, outs[d].value.value), w)
  }

  /** All of them besides are overlong, in characters of exactly `w` bytes. */
  ghost predicate FeedsFully(p: Problem, outs: Outcomes, i: nat, w: nat) {
    && Feeds(p, outs, i, w)
    && forall d | d in p.deps[i] ::
         var text := AnswerText(p, outs[d].value.value);
         |text| > UPSTREAM_SNIPPET_MAX_CHARS && forall k | 0 <= k < |text| :: |Utf8Char(text[k])| == w
  }

  lemma PromptBytes(p: Problem, outs: Outcomes, i: nat, w: nat)
    requires Feeds(p, outs, i, w)
    ensures |Utf8(Prompt(p, outs, i))| <= PromptMost(p, i, w)
    ensures FeedsFully(p, outs, i, w) ==> |Utf8(Prompt(p, outs, i))| == PromptMost(p, i, w)
  {
    hide Utf8, Utf8Char, Narrow, Sections, SectionsMost, SnippetMost, UpstreamSnippet, AnswerText;
    var row, ups, words := p.deps[i], Upstream(p, outs, i), p.words;
    forall k | 0 <= k < |row|
      ensures ups[k].0 == InputIds(p, i)[k] && |Utf8(ups[k].1)| <= SnippetMost(words, w)
      ensures FeedsFully(p, outs, i, w) ==> |Utf8(ups[k].1)| == SnippetMost(words, w)
    {
      assert row[k] in row;
      SnippetBytes(p, outs[row[k]].value.value, w);
    }
    SectionsBytes(words, ups, InputIds(p, i), SnippetMost(words, w));
    Utf8Concat(p.plan.tasks[i].prompt, words.header);
    Utf8Concat(p.plan.tasks[i].prompt + words.header, Sections(words, ups));
  }

  // ----- The bound is reached -----

  function CharOfWidth(w: nat): (c: char)
    requires 1 <= w <= 4
    ensures |Utf8Char(c)| == w
  {
    if w == 1 then 'a' else if w == 2 then '\U{e9}' else if w == 3 then '\U{20ac}' else '\U{1f4bb}'
  }

  /** Every task answered with one character more than a snippet holds. */
  ghost function OverlongOutputs(p: Problem, w: nat): Outcomes
    requires 1 <= w <= 4
  {
    var text := seq(UPSTREAM_SNIPPET_MAX_CHARS + 1, _ => CharOfWidth(w));
    seq(|p.plan.tasks|, _ => Some(Outcome(Ok, Value(Text(text), Absent, Absent, Absent, ""))))
  }

  lemma OverlongFeeds(p: Problem, i: nat, w: nat)
    requires InRange(p.deps) && |p.deps| == |p.plan.tasks| && i < |p.deps| && 1 <= w <= 4
    ensures FeedsFully(p, OverlongOutputs(p, w), i, w)
  {
    hide Utf8Char, CharOfWidth;
  }

  // ----- The gate -----

  /** What the plan engine asks the gate about a task. */
  ghost function Asked(p: Problem, outs: Outcomes, i: nat): DelegateChain.Request
    requires p.Fits(outs) && i < |outs|
  {
    var task := p.plan.tasks[i];
    DelegateChain.Request(task.agent, Utf8(Prompt(p, outs, i)), task.artifact)
  }

  /** Nothing but length and artifact can still keep the agent of a task from being run from the root. */
  ghost predicate Reachable(ctx: DelegateChain.Context, agent: string) {
    && agent in ctx.builtins && ctx.maxDepth > 0
    && DelegateChain.SpawnAllowed(ctx, DelegateChain.DELEGATE_ROOT_PARENT, agent) == None
  }

  ghost predicate TooLong(ctx: DelegateChain.Context, p: Problem, outs: Outcomes, i: nat)
    requires p.Fits(outs) && i < |outs|
  {
    DelegateChain.ValidateTask(ctx, DelegateChain.DELEGATE_ROOT_PARENT, 0, Asked(p, outs, i))
    == Some(DelegateChain.Unbounded)
  }

  lemma TooLongMeans(ctx: DelegateChain.Context, p: Problem, outs: Outcomes, i: nat)
    requires p.Fits(outs) && i < |outs| && Reachable(ctx, p.plan.tasks[i].agent)
    ensures TooLong(ctx, p, outs, i) <==> |Utf8(Prompt(p, outs, i))| > DelegateChain.BOUNDED_PROMPT_CHARS
  {
    hide Utf8, Prompt;
  }

  /** A task whose inputs all succeeded is never refused for the length of its prompt, whatever they say in characters
      of at most `w` bytes, if and only if its largest possible prompt is within the limit. */
  lemma NeverTooLongIff(ctx: DelegateChain.Context, p: Problem, i: nat, w: nat)
    requires InRange(p.deps) && |p.deps| == |p.plan.tasks| && i < |p.deps| && 1 <= w <= 4
    requires Reachable(ctx, p.plan.tasks[i].agent)
    ensures (forall outs | Feeds(p, outs, i, w) :: !TooLong(ctx, p, outs, i)) <==>
            PromptMost(p, i, w) <= DelegateChain.BOUNDED_PROMPT_CHARS
  {
    hide TooLong, PromptMost, Utf8, Prompt, Reachable, OverlongOutputs, Narrow, AnswerText, Utf8Char;
    if PromptMost(p, i, w) <= DelegateChain.BOUNDED_PROMPT_CHARS {
      forall outs | Feeds(p, outs, i, w) ensures !TooLong(ctx, p, outs, i) {
        PromptBytes(p, outs, i, w);
        TooLongMeans(ctx, p, outs, i);
      }
    } else {
      var outs := OverlongOutputs(p, w);
      OverlongFeeds(p, i, w);
      PromptBytes(p, outs, i, w);
      TooLongMeans(ctx, p, outs, i);
      assert Feeds(p, outs, i, w) && TooLong(ctx, p, outs, i);
    }
  }

  // ----- In terms of the number of inputs -----

  lemma {:induction false} SectionsOfWidth(words: Wording, ids: seq<string>, snippet: nat, u: nat)
    requires forall k | 0 <= k < |ids| :: |Utf8(ids[k])| == u
    ensures var each := |Utf8(words.sectionOpen)| + u + |Utf8(words.sectionBody)| + snippet;
            SectionsMost(words, ids, snippet) == each * |ids|
  {
    hide Utf8;
    if ids != [] {
      SectionsOfWidth(words, ids[..|ids| - 1], snippet, u);
      OneMore(|Utf8(words.sectionOpen)| + u + |Utf8(words.sectionBody)| + snippet, |ids| - 1);
    }
  }

  lemma Quotient(each: nat, n: nat, room: nat)
    requires each > 0
    ensures each * n <= room <==> n <= room / each
  {
    var q, r := room / each, room % each;
    assert room == each * q + r;
    if n <= q {
      Times(each, n, q);
    } else {
      Times(each, q + 1, n);
      OneMore(each, q);
    }
  }

  /** Bytes one input can add, when ids take `u` bytes. */
  ghost function EachMost(words: Wording, w: nat, u: nat): (bytes: nat)
    requires w > 0
    ensures bytes > 0
  {
    |Utf8(words.sectionOpen)| + u + |Utf8(words.sectionBody)| + SnippetMost(words, w)
  }

  /** The largest fan-in that is never refused for length: what the brief and the header leave of the limit, divided by
      what one input can add. One input more can be refused after all of them succeeded. */
  lemma LargestFanIn(ctx: DelegateChain.Context, p: Problem, i: nat, w: nat, u: nat)
    requires InRange(p.deps) && |p.deps| == |p.plan.tasks| && i < |p.deps| && 1 <= w <= 4
    requires Reachable(ctx, p.plan.tasks[i].agent) && p.deps[i] != []
    requires forall k | 0 <= k < |p.deps[i]| :: |Utf8(InputIds(p, i)[k])| == u
    requires |Utf8(p.plan.tasks[i].prompt)| + |Utf8(p.words.header)| <= DelegateChain.BOUNDED_PROMPT_CHARS
    ensures var room := DelegateChain.BOUNDED_PROMPT_CHARS - |Utf8(p.plan.tasks[i].prompt)| - |Utf8(p.words.header)|;
            (forall outs | Feeds(p, outs, i, w) :: !TooLong(ctx, p, outs, i)) <==>
            |p.deps[i]| <= room / EachMost(p.words, w, u)
  {
    hide Utf8, TooLong, SectionsMost, Reachable, Feeds, InputIds;
    var room := DelegateChain.BOUNDED_PROMPT_CHARS - |Utf8(p.plan.tasks[i].prompt)| - |Utf8(p.words.header)|;
    var each := EachMost(p.words, w, u);
    NeverTooLongIff(ctx, p, i, w);
    SectionsOfWidth(p.words, InputIds(p, i), SnippetMost(p.words, w), u);
    Quotient(each, |p.deps[i]|, room);
  }

  /** Whatever the brief, a fan-in whose snippets alone fill the limit can be refused: two inputs in four-byte
      characters, or eight in one-byte characters. */
  lemma TooManyInputs(ctx: DelegateChain.Context, p: Problem, i: nat, w: nat)
    requires InRange(p.deps) && |p.deps| == |p.plan.tasks| && i < |p.deps| && 1 <= w <= 4
    requires Reachable(ctx, p.plan.tasks[i].agent) && p.words.header != ""
    requires w * |p.deps[i]| >= 8
    ensures exists outs :: Feeds(p, outs, i, w) && TooLong(ctx, p, outs, i)
  {
    hide Utf8, TooLong, SectionsMost, Reachable, Feeds, InputIds;
    SectionsAtLeast(p.words, InputIds(p, i), SnippetMost(p.words, w));
    HasBytes(p.words.header);
    assert p.deps[i] != [];
    FillsLimit(SnippetMost(p.words, w), w, |p.deps[i]|);
    NeverTooLongIff(ctx, p, i, w);
  }

  lemma FillsLimit(snippet: nat, w: nat, n: nat)
    requires snippet >= w * UPSTREAM_SNIPPET_MAX_CHARS && w * n >= 8
    ensures snippet * n >= DelegateChain.BOUNDED_PROMPT_CHARS
  {
    assert w * UPSTREAM_SNIPPET_MAX_CHARS * n == UPSTREAM_SNIPPET_MAX_CHARS * (w * n);
    Times(n, w * UPSTREAM_SNIPPET_MAX_CHARS, snippet);
  }

  lemma HasBytes(s: string)
    requires s != ""
    ensures |Utf8(s)| > 0
  {
  }

  lemma {:induction false} SectionsAtLeast(words: Wording, ids: seq<string>, snippet: nat)
    ensures SectionsMost(words, ids, snippet) >= snippet * |ids|
  {
    if ids != [] {
      SectionsAtLeast(words, ids[..|ids| - 1], snippet);
      OneMore(snippet, |ids| - 1);
    }
  }
}
