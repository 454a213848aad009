/** Background task notices: offered to every model round until a round that carried them succeeds. */
module BackgroundNotices {
  import opened Prelude
  import opened ToolHistory

  // ----- Tasks and the line that tells of one -----

  /** One character, as the bytes of its UTF-8 encoding. */
  type Char = b: Bytes | 1 <= |b| <= 4 witness [65]

  const DIGEST_MAX_CHARS: nat := 80

  type Digest = d: seq<Char> | |d| <= DIGEST_MAX_CHARS

  predicate IsHex(c: char) {
    '0' <= c <= '9' || 'a' <= c <= 'f'
  }

  /** A uuid in simple form. */
  type TaskId = s: string | |s| == 32 && forall c | c in s :: IsHex(c) witness seq(32, _ => '0')

  datatype Status = Running | Completed | Failed | Timeout | Killed | Orphaned {
    predicate Terminal() {
      this != Running
    }

    function Label(): string {
      match this
      case Running => "running"
      case Completed => "completed"
      case Failed => "failed"
      case Timeout => "timeout"
      case Killed => "killed"
      case Orphaned => "orphaned"
    }
  }

  /** A background task: its owner, its state, whether its owner was told, and the digest of its command. */
  datatype Entry = Entry(session: string, status: Status, notified: bool, digest: Digest)

  type Entries = map<TaskId, Entry>

  ghost function Joined(binary: seq<Char>, args: seq<seq<Char>>): seq<Char> {
    if args == [] then binary else Joined(binary, args[..|args| - 1]) + [[32]] + args[|args| - 1]
  }

  /** The command line, cut to its first 80 characters. */
  method MakeCommandDigest(binary: seq<Char>, args: seq<seq<Char>>) returns (digest: Digest)
    ensures var all := Joined(binary, args);
            digest == if |all| <= DIGEST_MAX_CHARS then all else all[..DIGEST_MAX_CHARS]
  {
    var all := binary;
    for k := 0 to |args|
      invariant all == Joined(binary, args[..k])
    {
      assert args[..k + 1][..k] == args[..k];
      all := all + [[32]] + args[k];
    }
    assert args[..|args|] == args;
    digest := if |all| <= DIGEST_MAX_CHARS then all else all[..DIGEST_MAX_CHARS];
  }

  /** Text of one-byte characters. */
  function Ascii(s: string): (b: Bytes)
    ensures |b| == |s|
  {
    seq(|s|, k requires 0 <= k < |s| => (s[k] as int % 256) as Byte)
  }

  function Encoded(chars: seq<Char>): Bytes {
    if chars == [] then [] else chars[0] + Encoded(chars[1..])
  }

  const GEAR: Bytes := [0xE2, 0x9A, 0x99]
  const DASH: Bytes := [0xE2, 0x80, 0x94]

  function NoticeHead(id: TaskId, digest: Digest, status: Status): Bytes {
    GEAR + Ascii(" background task ") + Ascii(id[..8]) + Ascii(" `") + Encoded(digest) + Ascii("` ")
    + Ascii(status.Label()) + Ascii(" ") + DASH + Ascii(" collect: shell.collect {\"task_id\":\"")
  }

  /** The line that tells the model of one ended task. */
  function NoticeLine(id: TaskId, digest: Digest, status: Status): Bytes {
    NoticeHead(id, digest, status) + (Ascii(id) + Ascii("\"}"))
  }

  const NOTICE_MAX_BYTES: nat := 435

  lemma {:induction false} EncodedBounded(chars: seq<Char>)
    ensures |Encoded(chars)| <= 4 * |chars|
  {
    if chars != [] {
      EncodedBounded(chars[1..]);
    }
  }

  lemma LineLength(id: TaskId, digest: Digest, status: Status)
    ensures |NoticeLine(id, digest, status)| == 106 + |Encoded(digest)| + |status.Label()|
  {
    hide Encoded, Ascii;
    assert |NoticeHead(id, digest, status)| == 72 + |Encoded(digest)| + |status.Label()|;
  }

  lemma LabelLength(status: Status)
    ensures |status.Label()| <= 9 && |Completed.Label()| == 9
  {
  }

  /** However long the command, a line has at most 435 bytes. */
  lemma NoticeLineBounded(id: TaskId, digest: Digest, status: Status)
    ensures |NoticeLine(id, digest, status)| <= NOTICE_MAX_BYTES
  {
    hide NoticeLine;
    EncodedBounded(digest);
    LabelLength(status);
    LineLength(id, digest, status);
  }

  lemma EncodedReads(c: Char, chars: seq<Char>)
    ensures Encoded([]) == [] && Encoded([c] + chars) == c + Encoded(chars)
  {
    assert ([c] + chars)[1..] == chars;
  }

  lemma JoinedReads(binary: seq<Char>, args: seq<seq<Char>>, arg: seq<Char>)
    ensures Joined(binary, []) == binary && Joined(binary, args + [arg]) == Joined(binary, args) + [[32]] + arg
  {
    assert (args + [arg])[..|args|] == args;
  }

  lemma LabelReads()
    ensures Completed.Label() == "completed" && Failed.Label() == "failed" && Timeout.Label() == "timeout"
    ensures Killed.Label() == "killed" && Orphaned.Label() == "orphaned" && Running.Label() == "running"
    ensures forall s: Status :: s.Terminal() <==> s != Running
  {
  }

  lemma PieceAt(before: Bytes, piece: Bytes, after: Bytes)
    ensures (before + piece + after)[|before|..|before| + |piece|] == piece
  {
  }

  lemma Regroup(a: Bytes, b: Bytes, c: Bytes)
    ensures a + b + c == a + (b + c)
  {
  }

  /** Four pieces of a text of nine. */
  lemma PiecesAt(a: Bytes, b: Bytes, c: Bytes, d: Bytes, e: Bytes, f: Bytes, g: Bytes, h: Bytes, i: Bytes)
    ensures var all, m, n := a + b + c + d + e + f + g + h + i, |a| + |b| + |c|, |a| + |b| + |c| + |d| + |e|;
            && all[|a|..|a| + |b|] == b && all[m..m + |d|] == d && all[n..n + |f|] == f
            && all[n + |f| + |g|..n + |f| + |g| + |h|] == h
  {
    var ab, abcd, abcdef, end := a + b, a + b + c + d, a + b + c + d + e + f, g + h + i;
    Regroup(abcdef, g, h);
    Regroup(abcdef, g + h, i);
    Regroup(abcd, e, f);
    Regroup(abcd, e + f, end);
    Regroup(ab, c, d);
    Regroup(ab, c + d, e + f + end);
    PieceAt(a, b, c + d + (e + f + end));
    PieceAt(a + b + c, d, e + f + end);
    PieceAt(abcd + e, f, end);
    PieceAt(abcdef + g, h, i);
  }

  /** Where the line names the task, its command and how it ended. */
  lemma LineReads(id: TaskId, digest: Digest, status: Status)
    ensures var line, e, l := NoticeLine(id, digest, status), |Encoded(digest)|, |status.Label()|;
            && |line| == 106 + e + l
            && line[20..28] == Ascii(id[..8])
            && line[30..30 + e] == Encoded(digest)
            && line[32 + e..32 + e + l] == Ascii(status.Label())
            && line[72 + e + l..104 + e + l] == Ascii(id)
  {
    hide Encoded, Ascii;
    LineLength(id, digest, status);
    var lead := GEAR + Ascii(" background task ");
    var gap := Ascii(" ") + DASH + Ascii(" collect: shell.collect {\"task_id\":\"");
    assert |lead| == 20 && |gap| == 40;
    PiecesAt(lead, Ascii(id[..8]), Ascii(" `"), Encoded(digest), Ascii("` "), Ascii(status.Label()), gap, Ascii(id),
             Ascii("\"}"));
    LineParts(id, digest, status, lead, gap);
    hide NoticeLine, NoticeHead;
  }

  lemma LineParts(id: TaskId, digest: Digest, status: Status, lead: Bytes, gap: Bytes)
    requires lead == GEAR + Ascii(" background task ")
    requires gap == Ascii(" ") + DASH + Ascii(" collect: shell.collect {\"task_id\":\"")
    ensures NoticeLine(id, digest, status) ==
            lead + Ascii(id[..8]) + Ascii(" `") + Encoded(digest) + Ascii("` ") + Ascii(status.Label()) + gap
            + Ascii(id) + Ascii("\"}")
  {
    hide Encoded, Ascii;
    var x := lead + Ascii(id[..8]) + Ascii(" `") + Encoded(digest) + Ascii("` ") + Ascii(status.Label());
    assert x + Ascii(" ") + DASH + Ascii(" collect: shell.collect {\"task_id\":\"") == x + gap;
  }

  lemma AsciiAt(s: string, k: nat)
    requires k < |s| && s[k] as int < 256
    ensures Ascii(s)[k] as int == s[k] as int
  {
  }

  lemma HexIsByte(id: TaskId, k: nat)
    requires k < 32
    ensures id[k] as int < 256
  {
    assert id[k] in id;
  }

  /** Two lines that end in an id and the same closer agree on the id. */
  lemma TailsAgree(a: Bytes, b: Bytes, x: Bytes, y: Bytes, closer: Bytes)
    requires a + (x + closer) == b + (y + closer) && |x| == |y|
    ensures x == y
  {
    var line, m := a + (x + closer), |a|;
    assert |line| == |a| + |x| + |closer| == |b| + |y| + |closer|;
    assert line[m..] == x + closer && line[m..] == y + closer;
    assert (x + closer)[..|x|] == x && (y + closer)[..|y|] == y;
  }

  /** The line names its task: different tasks have different lines. */
  lemma LineNamesTask(a: TaskId, b: TaskId, x: Digest, y: Digest, s: Status, t: Status)
    requires NoticeLine(a, x, s) == NoticeLine(b, y, t)
    ensures a == b
  {
    hide NoticeHead, Ascii;
    TailsAgree(NoticeHead(a, x, s), NoticeHead(b, y, t), Ascii(a), Ascii(b), Ascii("\"}"));
    forall k | 0 <= k < 32 ensures a[k] == b[k] {
      HexIsByte(a, k);
      HexIsByte(b, k);
      AsciiAt(a, k);
      AsciiAt(b, k);
    }
  }

  // ----- The registry -----

  ghost predicate Owes(entries: Entries, session: string, id: TaskId) {
    id in entries && entries[id].session == session && entries[id].status.Terminal() && !entries[id].notified
  }

  ghost function Marked(entries: Entries, session: string, ids: seq<TaskId>): Entries {
    map id | id in entries ::
      if id in ids && entries[id].session == session then entries[id].(notified := true) else entries[id]
  }

  /** `ids` lists once each, in no particular order, the ended tasks whose owner, this session, was not told. */
  ghost predicate Drains(entries: Entries, session: string, ids: seq<TaskId>) {
    NoDup(ids) && forall id :: id in ids <==> Owes(entries, session, id)
  }

  /** The process-wide registry; entries are never removed. */
  class TaskRegistry {
    var entries: Entries

    constructor ()
      ensures entries == map[]
    {
      entries := map[];
    }

    /** Lists what this session is owed. */
    method TakeStatusChanges(session: string) returns (ids: seq<TaskId>)
      ensures Drains(entries, session, ids)
      ensures forall id :: id in ids <==>
                id in entries && entries[id].session == session && entries[id].status != Running
                && !entries[id].notified
    {
      ids := [];
      var left := entries.Keys;
      while left != {}
        invariant left <= entries.Keys
        invariant NoDup(ids) && forall id :: id in ids <==> id !in left && Owes(entries, session, id)
        decreases left
      {
        var id :| id in left;
        left := left - {id};
        if entries[id].session == session && !entries[id].notified && entries[id].status.Terminal() {
          ids := ids + [id];
        }
      }
    }

    /** Marks exactly the listed tasks that belong to this session. */
    method MarkNotified(session: string, ids: seq<TaskId>)
      modifies this
      ensures entries == Marked(old(entries), session, ids)
    {
      for k := 0 to |ids|
        invariant entries == Marked(old(entries), session, ids[..k])
      {
        assert ids[..k + 1] == ids[..k] + [ids[k]];
        var id := ids[k];
        if id in entries && entries[id].session == session {
          entries := entries[id := entries[id].(notified := true)];
        }
      }
      assert ids[..|ids|] == ids;
    }
  }

  // ----- Runs: rounds of any sessions, overlapping in time, among anything else that happens -----

  /** A model round in flight: whose it is, and what it drained. */
  datatype Offer = Offer(session: string, drained: seq<TaskId>)

  datatype State = State(entries: Entries, inFlight: map<nat, Offer>)

  ghost function Lines(entries: Entries, ids: seq<TaskId>): seq<Bytes>
    requires forall id | id in ids :: id in entries
  {
    seq(|ids|, k requires 0 <= k < |ids| => NoticeLine(ids[k], entries[ids[k]].digest, entries[ids[k]].status))
  }

  /** Tasks move; a round drains, pushes and calls the model; or a call returns. */
  datatype Step =
    | Elsewhere
    | Offers(round: nat, session: string, drained: seq<TaskId>, history: seq<Bytes>, prompt: seq<Bytes>)
    | Returns(round: nat, succeeded: bool)

  /** Tasks may be spawned, and running ones may end; nothing is removed, and being told is not undone or pretended. */
  ghost predicate TasksMove(a: Entries, b: Entries) {
    && (forall id | id in a ::
          && id in b && b[id].session == a[id].session && b[id].notified == a[id].notified
          && b[id].digest == a[id].digest && (a[id].status.Terminal() ==> b[id].status.Terminal()))
    && (forall id | id in b && id !in a :: !b[id].notified)
  }

  /** A round drains what its session is owed and pushes the lines; when its call returns, whatever happened since, it
      marks them if the call succeeded. */
  ghost predicate Takes(a: State, step: Step, b: State) {
    match step
    case Elsewhere => TasksMove(a.entries, b.entries) && b.inFlight == a.inFlight
    case Offers(round, session, drained, history, prompt) =>
      && round !in a.inFlight && Drains(a.entries, session, drained)
      && prompt == PushedAll(history, Lines(a.entries, drained))
      && b == State(a.entries, a.inFlight[round := Offer(session, drained)])
    case Returns(round, succeeded) =>
      && round in a.inFlight && b.inFlight == a.inFlight - {round}
      && b.entries ==
         if succeeded then Marked(a.entries, a.inFlight[round].session, a.inFlight[round].drained) else a.entries
  }

  lemma PushNext(history: seq<Bytes>, lines: seq<Bytes>, k: nat)
    requires k < |lines|
    ensures PushedAll(history, lines[..k + 1]) == Pushed(PushedAll(history, lines[..k]), lines[k])
  {
    assert lines[..k + 1][..k] == lines[..k];
  }

  lemma PushNone(history: seq<Bytes>, lines: seq<Bytes>)
    ensures PushedAll(history, lines[..0]) == history && lines[..|lines|] == lines
  {
  }

  /** Pushes one line for each drained task. */
  method PushLines(entries: Entries, ids: seq<TaskId>, history: seq<Bytes>) returns (prompt: seq<Bytes>)
    requires forall id | id in ids :: id in entries
    ensures prompt == PushedAll(history, Lines(entries, ids))
  {
    hide NoticeLine, Pushed, PushedAll;
    prompt := history;
    ghost var lines := Lines(entries, ids);
    PushNone(history, lines);
    for k := 0 to |ids|
      invariant prompt == PushedAll(history, lines[..k])
    {
      PushNext(history, lines, k);
      prompt := PushToolResultsHistory(prompt, NoticeLine(ids[k], entries[ids[k]].digest, entries[ids[k]].status));
    }
  }

  /** What a round does before it calls the model. */
  method OfferNotices(registry: TaskRegistry, session: string, history: seq<Bytes>, ghost inFlight: map<nat, Offer>,
                      ghost round: nat)
    returns (prompt: seq<Bytes>, ids: seq<TaskId>)
    requires round !in inFlight
    ensures Takes(State(registry.entries, inFlight), Offers(round, session, ids, history, prompt),
                  State(registry.entries, inFlight[round := Offer(session, ids)]))
  {
    hide Lines, PushedAll;
    ids := registry.TakeStatusChanges(session);
    prompt := PushLines(registry.entries, ids, history);
  }

  /** What it does when the call returns: nothing at all unless it succeeded and had offered something. */
  method ConfirmNotices(registry: TaskRegistry, session: string, ids: seq<TaskId>, succeeded: bool,
                        ghost inFlight: map<nat, Offer>, ghost round: nat)
    requires round in inFlight && inFlight[round] == Offer(session, ids)
    modifies registry
    ensures Takes(State(old(registry.entries), inFlight), Returns(round, succeeded),
                  State(registry.entries, inFlight - {round}))
  {
    if succeeded && ids != [] {
      registry.MarkNotified(session, ids);
    }
    assert ids == [] ==> Marked(old(registry.entries), session, ids) == old(registry.entries);
  }

  datatype Run = Run(states: seq<State>, steps: seq<Step>)

  ghost predicate Happens(run: Run) {
    && |run.states| == |run.steps| + 1
    && forall k | 0 <= k < |run.steps| :: Takes(run.states[k], run.steps[k], run.states[k + 1])
  }

  /** Step `k` is the successful return of a round of the owner's session that had drained `id`. */
  ghost predicate Delivers(run: Run, k: nat, id: TaskId)
    requires Happens(run) && k < |run.steps|
  {
    var s, step := run.states[k], run.steps[k];
    && step.Returns? && step.succeeded && step.round in s.inFlight && id in s.inFlight[step.round].drained
    && id in s.entries && s.entries[id].session == s.inFlight[step.round].session
  }

  /** The round is still in flight at state `m`, as step `k` sent it. */
  ghost predicate SentAt(run: Run, k: nat, m: nat, round: nat)
    requires Happens(run) && m <= |run.steps|
  {
    && k < m && run.steps[k].Offers? && run.steps[k].round == round
    && round in run.states[m].inFlight
    && run.states[m].inFlight[round] == Offer(run.steps[k].session, run.steps[k].drained)
    && forall j | k < j < m && run.steps[j].Returns? :: run.steps[j].round != round
  }

  lemma {:induction false} RoundWasSent(run: Run, m: nat, round: nat) returns (k: nat)
    requires Happens(run) && m <= |run.steps| && run.states[0].inFlight == map[]
    requires round in run.states[m].inFlight
    ensures SentAt(run, k, m, round)
  {
    hide TasksMove, Drains, Marked;
    var a, step := run.states[m - 1], run.steps[m - 1];
    assert Takes(a, step, run.states[m]);
    if step.Offers? && step.round == round {
      k := m - 1;
    } else {
      k := RoundWasSent(run, m - 1, round);
    }
  }

  lemma {:induction false} SentStays(run: Run, k: nat, m: nat, round: nat)
    requires Happens(run) && k < m <= |run.steps| && run.steps[k].Offers? && run.steps[k].round == round
    requires forall j | k < j < m && run.steps[j].Returns? :: run.steps[j].round != round
    ensures SentAt(run, k, m, round)
  {
    hide TasksMove, Drains, Marked;
    assert Takes(run.states[m - 1], run.steps[m - 1], run.states[m]);
    if k < m - 1 {
      SentStays(run, k, m - 1, round);
    }
  }

  /** Nobody counts as told without a delivery: if a task's owner became told in a run, a round of the owner's own
      session had offered the task while it was owed, and that same round returned successfully. */
  lemma {:induction false} ToldOnlyByDelivery(run: Run, m: nat, id: TaskId)
    requires Happens(run) && m <= |run.steps| && run.states[0].inFlight == map[]
    requires id in run.states[m].entries && run.states[m].entries[id].notified
    requires id !in run.states[0].entries || !run.states[0].entries[id].notified
    ensures exists k, e :: 0 <= k < e < m && Delivers(run, e, id) && SentAt(run, k, e, run.steps[e].round)
                           && id in run.steps[k].drained && Owes(run.states[k].entries, run.steps[k].session, id)
  {
    var a, step := run.states[m - 1], run.steps[m - 1];
    assert Takes(a, step, run.states[m]);
    if id in a.entries && a.entries[id].notified {
      ToldOnlyByDelivery(run, m - 1, id);
    } else {
      assert Delivers(run, m - 1, id);
      var k := RoundWasSent(run, m - 1, step.round);
      assert Takes(run.states[k], run.steps[k], run.states[k + 1]);
      assert Owes(run.states[k].entries, run.steps[k].session, id);
    }
  }

  ghost predicate DeliveredBetween(run: Run, from: nat, m: nat, id: TaskId)
    requires Happens(run) && m <= |run.steps|
  {
    exists k :: from <= k < m && Delivers(run, k, id)
  }

  /** An owed notice stays owed until a round of its session delivers it, whatever else happens in between. */
  lemma {:induction false} OwedUntilDelivered(run: Run, session: string, from: nat, m: nat, id: TaskId)
    requires Happens(run) && from <= m <= |run.steps| && Owes(run.states[from].entries, session, id)
    ensures DeliveredBetween(run, from, m, id) || Owes(run.states[m].entries, session, id)
  {
    hide Drains;
    if from < m {
      OwedUntilDelivered(run, session, from, m - 1, id);
      var a, step := run.states[m - 1], run.steps[m - 1];
      assert Takes(a, step, run.states[m]);
      if Owes(a.entries, session, id) && step.Returns? && step.succeeded
         && id in a.inFlight[step.round].drained && a.inFlight[step.round].session == session {
        assert Delivers(run, m - 1, id);
      }
    }
  }

  /** Every round of the session offers an owed notice, unless another round has delivered it by then. */
  lemma OfferedUntilSuccess(run: Run, session: string, from: nat, k: nat, id: TaskId)
    requires Happens(run) && from <= k < |run.steps| && Owes(run.states[from].entries, session, id)
    requires run.steps[k].Offers? && run.steps[k].session == session
    ensures DeliveredBetween(run, from, k, id) || id in run.steps[k].drained
  {
    hide TasksMove, Marked;
    OwedUntilDelivered(run, session, from, k, id);
    assert Takes(run.states[k], run.steps[k], run.states[k + 1]);
  }

  /** At least once: when a round of the session sent after the task ended returns successfully, the notice has been
      delivered, however many other rounds failed, succeeded or are still in flight. */
  lemma SuccessDelivers(run: Run, session: string, from: nat, k: nat, e: nat, id: TaskId)
    requires Happens(run) && from <= k < e < |run.steps| && Owes(run.states[from].entries, session, id)
    requires run.steps[k].Offers? && run.steps[k].session == session
    requires run.steps[e] == Returns(run.steps[k].round, true)
    requires forall j | k < j < e && run.steps[j].Returns? :: run.steps[j].round != run.steps[k].round
    ensures DeliveredBetween(run, from, e + 1, id)
  {
    hide Drains, Marked;
    OfferedUntilSuccess(run, session, from, k, id);
    if DeliveredBetween(run, from, k, id) {
      var j :| from <= j < k && Delivers(run, j, id);
      assert j < e + 1;
    } else {
      SentStays(run, k, e, run.steps[k].round);
      KeepsOwner(run, from, e, id);
      assert Delivers(run, e, id);
    }
  }

  lemma {:induction false} KeepsOwner(run: Run, from: nat, m: nat, id: TaskId)
    requires Happens(run) && from <= m <= |run.steps| && id in run.states[from].entries
    ensures id in run.states[m].entries
    ensures run.states[m].entries[id].session == run.states[from].entries[id].session
    ensures run.states[from].entries[id].notified ==> run.states[m].entries[id].notified
  {
    hide Drains;
    if from < m {
      KeepsOwner(run, from, m - 1, id);
      assert Takes(run.states[m - 1], run.steps[m - 1], run.states[m]);
    }
  }

  /** A delivered notice is never offered again: only rounds already in flight can deliver it a second time. */
  lemma NotOfferedAgain(run: Run, e: nat, k: nat, id: TaskId)
    requires Happens(run) && e < k < |run.steps| && Delivers(run, e, id) && run.steps[k].Offers?
    ensures id !in run.steps[k].drained
  {
    assert Takes(run.states[e], run.steps[e], run.states[e + 1]);
    KeepsOwner(run, e + 1, k, id);
    assert Takes(run.states[k], run.steps[k], run.states[k + 1]);
  }

  /** A notice owed to `s`, and what two rounds of `s` make of it that overlap in time. */
  ghost function Overlap(id: TaskId, entry: Entry): Run {
    var owed, told: Entries := map[id := entry], map[id := entry.(notified := true)];
    var offer, prompt := Offer("s", [id]), PushedAll([], [NoticeLine(id, entry.digest, entry.status)]);
    Run([State(owed, map[]), State(owed, map[0 := offer]), State(owed, map[0 := offer, 1 := offer]),
         State(told, map[1 := offer]), State(told, map[])],
        [Offers(0, "s", [id], [], prompt), Offers(1, "s", [id], [], prompt), Returns(0, true), Returns(1, true)])
  }

  lemma OverlapOffers(id: TaskId, entry: Entry)
    requires entry.session == "s" && entry.status.Terminal() && !entry.notified
    ensures var run := Overlap(id, entry);
            && Takes(run.states[0], run.steps[0], run.states[1])
            && Takes(run.states[1], run.steps[1], run.states[2])
  {
    hide PushedAll, NoticeLine;
    var owed: Entries := map[id := entry];
    assert Drains(owed, "s", [id]);
    assert Lines(owed, [id]) == [NoticeLine(id, entry.digest, entry.status)];
  }

  lemma OverlapReturns(id: TaskId, entry: Entry)
    requires entry.session == "s"
    ensures var run := Overlap(id, entry);
            && Takes(run.states[2], run.steps[2], run.states[3])
            && Takes(run.states[3], run.steps[3], run.states[4])
  {
    hide PushedAll, NoticeLine;
    var owed, told: Entries := map[id := entry], map[id := entry.(notified := true)];
    assert Marked(owed, "s", [id]) == told && Marked(told, "s", [id]) == told;
  }

  /** Two overlapping rounds of one session do deliver one notice twice. */
  lemma ToldTwice(id: TaskId) returns (run: Run)
    ensures Happens(run) && run.states[0].inFlight == map[] && |run.steps| == 4
    ensures Delivers(run, 2, id) && Delivers(run, 3, id)
  {
    hide PushedAll, NoticeLine, Takes;
    var entry := Entry("s", Completed, false, []);
    OverlapOffers(id, entry);
    OverlapReturns(id, entry);
    run := Overlap(id, entry);
  }

  // ----- What reaches the prompt -----

  ghost predicate AllIn(entries: Entries, ids: seq<TaskId>) {
    forall id | id in ids :: id in entries
  }

  /** The prompt of a round that drained `ids` on top of `history`. */
  ghost function PromptOf(entries: Entries, ids: seq<TaskId>, history: seq<Bytes>): seq<Bytes>
    requires AllIn(entries, ids)
  {
    PushedAll(history, Lines(entries, ids))
  }

  lemma RoundsPrompt(a: State, step: Step, b: State)
    requires Takes(a, step, b) && step.Offers?
    ensures AllIn(a.entries, step.drained) && NoDup(step.drained)
    ensures step.prompt == PromptOf(a.entries, step.drained, step.history)
  {
    hide NoticeLine, PushedAll;
  }

  lemma LinesIntactIffFit(entries: Entries, ids: seq<TaskId>, history: seq<Bytes>, j: nat)
    requires AllIn(entries, ids) && j < |ids|
    ensures EndsWith(PromptOf(entries, ids, history), Lines(entries, ids)[j..]) <==>
            Total(Lines(entries, ids)[j..]) <= TOOL_RESULTS_HISTORY_CAP_CHARS
  {
    hide NoticeLine, PushedAll, Total, EndsWith;
    IntactIffFits(history, Lines(entries, ids), j);
  }

  /** In a round that drains these tasks, the lines from number `j` on reach the prompt intact exactly when together
      they fit the history cap. */
  lemma LinesReachPrompt(a: State, step: Step, b: State, j: nat)
    requires Takes(a, step, b) && step.Offers? && j < |step.drained|
    ensures EndsWith(step.prompt, Lines(a.entries, step.drained)[j..]) <==>
            Total(Lines(a.entries, step.drained)[j..]) <= TOOL_RESULTS_HISTORY_CAP_CHARS
  {
    hide PromptOf, Lines, Total, EndsWith;
    RoundsPrompt(a, step, b);
    LinesIntactIffFit(a.entries, step.drained, step.history, j);
  }

  lemma OneMoreTime(each: nat, n: nat)
    ensures each * (n + 1) == each * n + each
  {
  }

  lemma {:induction false} TotalBounded(lines: seq<Bytes>, each: nat)
    requires forall x | x in lines :: |x| <= each
    ensures Total(lines) <= each * |lines|
  {
    if lines != [] {
      TotalBounded(lines[1..], each);
      OneMoreTime(each, |lines[1..]|);
    }
  }

  const NOTICES_ALWAYS_INTACT: nat := 36

  lemma LineAtMost(entries: Entries, ids: seq<TaskId>)
    requires AllIn(entries, ids)
    ensures forall x | x in Lines(entries, ids) :: |x| <= NOTICE_MAX_BYTES
  {
    hide NoticeLine;
    var lines := Lines(entries, ids);
    forall x | x in lines ensures |x| <= NOTICE_MAX_BYTES {
      var k :| 0 <= k < |lines| && lines[k] == x;
      NoticeLineBounded(ids[k], entries[ids[k]].digest, entries[ids[k]].status);
    }
  }

  lemma FewLinesFit(entries: Entries, ids: seq<TaskId>, history: seq<Bytes>)
    requires AllIn(entries, ids) && |ids| <= NOTICES_ALWAYS_INTACT
    ensures EndsWith(PromptOf(entries, ids, history), Lines(entries, ids))
  {
    hide NoticeLine, PushedAll, Total;
    var lines := Lines(entries, ids);
    if lines == [] {
      EndsWithNothing(PromptOf(entries, ids, history), lines);
    } else {
      LineAtMost(entries, ids);
      TotalBounded(lines, NOTICE_MAX_BYTES);
      assert lines[0..] == lines;
      LinesIntactIffFit(entries, ids, history, 0);
    }
  }

  /** A round that drains at most 36 tasks carries all of their lines intact, whatever its history was. */
  lemma UpTo36Intact(a: State, step: Step, b: State)
    requires Takes(a, step, b) && step.Offers? && |step.drained| <= NOTICES_ALWAYS_INTACT
    ensures EndsWith(step.prompt, Lines(a.entries, step.drained))
  {
    hide PromptOf, Lines, EndsWith;
    RoundsPrompt(a, step, b);
    FewLinesFit(a.entries, step.drained, step.history);
  }

  lemma {:induction false} SameAsAfter(lines: seq<Bytes>)
    ensures PushedAll([], lines) == After(lines)
  {
    if lines != [] {
      SameAsAfter(lines[..|lines| - 1]);
    }
  }

  /** In a round with no history whose lines exceed the cap together, the line drained first is not in the prompt. */
  lemma FirstLineDropped(entries: Entries, ids: seq<TaskId>)
    requires AllIn(entries, ids) && NoDup(ids) && ids != []
    requires Total(Lines(entries, ids)) > TOOL_RESULTS_HISTORY_CAP_CHARS
    ensures Lines(entries, ids)[0] !in PromptOf(entries, ids, [])
  {
    hide NoticeLine, LongestFit, Total;
    var lines := Lines(entries, ids);
    LineAtMost(entries, ids);
    SameAsAfter(lines);
    WithinCapNothingElseIsLost(lines);
    LongestFitIsLongest(lines);
    var kept := LongestFit(lines);
    assert lines[0..] == lines;
    assert |kept| < |lines|;
    forall k | 0 < k < |lines| ensures lines[k] != lines[0] {
      if lines[k] == lines[0] {
        LineNamesTask(ids[k], ids[0], entries[ids[k]].digest, entries[ids[0]].digest,
                      entries[ids[k]].status, entries[ids[0]].status);
      }
    }
  }

  // ----- The bound of 36 is sharp -----

  function Hex(d: nat): char
    requires d < 16
  {
    "0123456789abcdef"[d]
  }

  lemma HexDistinct(d: nat, e: nat)
    requires d < 16 && e < 16 && Hex(d) == Hex(e)
    ensures d == e
  {
  }

  /** Task number `n` of a crowd of at most 256. */
  function Numbered(n: nat): TaskId
    requires n < 256
  {
    var id := seq(30, _ => '0') + [Hex(n / 16), Hex(n % 16)];
    assert forall c | c in id :: IsHex(c);
    id
  }

  lemma NumberedDistinct(m: nat, n: nat)
    requires m < 256 && n < 256 && Numbered(m) == Numbered(n)
    ensures m == n
  {
    assert Numbered(m)[30] == Hex(m / 16) && Numbered(n)[30] == Hex(n / 16);
    assert Numbered(m)[31] == Hex(m % 16) && Numbered(n)[31] == Hex(n % 16);
    HexDistinct(m / 16, n / 16);
    HexDistinct(m % 16, n % 16);
  }

  function LongDigest(): Digest {
    seq(DIGEST_MAX_CHARS, _ => [0xF0, 0x9F, 0x92, 0xBB])
  }

  lemma {:induction false} EncodedLong(chars: seq<Char>)
    requires forall c | c in chars :: |c| == 4
    ensures |Encoded(chars)| == 4 * |chars|
  {
    if chars != [] {
      EncodedLong(chars[1..]);
    }
  }

  lemma LongestLine(id: TaskId)
    ensures |NoticeLine(id, LongDigest(), Completed)| == NOTICE_MAX_BYTES
  {
    hide NoticeLine;
    EncodedLong(LongDigest());
    LabelLength(Completed);
    LineLength(id, LongDigest(), Completed);
  }

  lemma {:induction false} TotalExact(lines: seq<Bytes>, each: nat)
    requires forall x | x in lines :: |x| == each
    ensures Total(lines) == each * |lines|
  {
    if lines != [] {
      TotalExact(lines[1..], each);
      OneMoreTime(each, |lines[1..]|);
    }
  }

  ghost function Crowd(n: nat): (ids: seq<TaskId>)
    requires n <= 256
    ensures |ids| == n && NoDup(ids)
  {
    var ids := seq(n, k requires 0 <= k < n => Numbered(k));
    assert NoDup(ids) by {
      forall i, j | 0 <= i < j < n ensures ids[i] != ids[j] {
        if ids[i] == ids[j] {
          NumberedDistinct(i, j);
        }
      }
    }
    ids
  }

  /** With 37 tasks a notice can be marked as told although its line was dropped from the prompt that carried it. */
  lemma MarkedThoughDropped() returns (run: Run, id: TaskId)
    ensures Happens(run) && |run.steps| == 2 && run.states[0].inFlight == map[]
    ensures run.steps[0].Offers? && |run.steps[0].drained| == NOTICES_ALWAYS_INTACT + 1 && id in run.steps[0].drained
    ensures Delivers(run, 1, id) && run.states[2].entries[id].notified
    ensures Lines(run.states[0].entries, [id])[0] !in run.steps[0].prompt
  {
    hide Numbered, NoticeLine, PushedAll, LongDigest, Total;
    var ids := Crowd(37);
    var entry := Entry("s", Completed, false, LongDigest());
    var entries: Entries := map x | x in ids :: entry;
    var lines := Lines(entries, ids);
    var offer := Offers(0, "s", ids, [], PushedAll([], lines));
    var a, b := State(entries, map[]), State(entries, map[0 := Offer("s", ids)]);
    run := Run([a, b, State(Marked(entries, "s", ids), map[])], [offer, Returns(0, true)]);
    id := ids[0];
    assert Drains(entries, "s", ids);
    assert Takes(a, offer, b);
    forall x | x in lines ensures |x| == NOTICE_MAX_BYTES {
      var k :| 0 <= k < |lines| && lines[k] == x;
      LongestLine(ids[k]);
    }
    TotalExact(lines, NOTICE_MAX_BYTES);
    FirstLineDropped(entries, ids);
    assert b.inFlight - {0} == map[];
  }
}
