/** The token budget that turns and delegations share, as a state machine over interleaved reservations. */
module TokenBudget {
  import TurnDriver

   /** A reservation: live until it is dropped or its usage is recorded. */
  datatype Ticket = Live(tokens: nat) | Settled

  datatype Budget = Budget(capacity: nat, consumed: nat, tickets: seq<Ticket>)

  ghost function Held(tickets: seq<Ticket>): nat {
    if tickets == [] then 0
    else Held(tickets[..|tickets| - 1]) + if tickets[|tickets| - 1].Live? then tickets[|tickets| - 1].tokens else 0
  }

  ghost predicate Fits(b: Budget, tokens: nat) {
    Held(b.tickets) + b.consumed + tokens <= b.capacity
  }

  /** Anyone reserves, drops a reservation unused, or records what was really used under it. */
  datatype Step = Reserve(tokens: nat, granted: bool) | Drop(ticket: nat) | Record(ticket: nat, used: nat)

  ghost predicate Takes(a: Budget, step: Step, b: Budget) {
    match step
    case Reserve(tokens, granted) =>
      (granted <==> Fits(a, tokens)) && b == if granted then a.(tickets := a.tickets + [Live(tokens)]) else a
    case Drop(k) =>
      k < |a.tickets| && a.tickets[k].Live? && b == a.(tickets := a.tickets[k := Settled])
    case Record(k, used) =>
      && k < |a.tickets| && a.tickets[k].Live?
      && b == a.(consumed := a.consumed + used, tickets := a.tickets[k := Settled])
  }

  datatype Run = Run(states: seq<Budget>, steps: seq<Step>)

  ghost predicate Happens(run: Run) {
    && |run.states| == |run.steps| + 1 && run.states[0].consumed == 0 && run.states[0].tickets == []
    && forall k | 0 <= k < |run.steps| :: Takes(run.states[k], run.steps[k], run.states[k + 1])
  }

  /** By how much the first `m` steps recorded more than was reserved for it. */
  ghost function Overrun(run: Run, m: nat): nat
    requires Happens(run) && m <= |run.steps|
  {
    if m == 0 then 0
    else
      assert Takes(run.states[m - 1], run.steps[m - 1], run.states[m]);
      Overrun(run, m - 1) +
      match run.steps[m - 1]
      case Record(k, used) =>
        var reserved := run.states[m - 1].tickets[k].tokens;
        if used > reserved then used - reserved else 0
      case _ => 0
  }

  ghost function Recorded(run: Run, m: nat): nat
    requires Happens(run) && m <= |run.steps|
  {
    if m == 0 then 0 else Recorded(run, m - 1) + if run.steps[m - 1].Record? then run.steps[m - 1].used else 0
  }

  lemma {:induction false} SettleOne(tickets: seq<Ticket>, k: nat)
    requires k < |tickets| && tickets[k].Live?
    ensures Held(tickets[k := Settled]) + tickets[k].tokens == Held(tickets)
  {
    var m := |tickets| - 1;
    if k < m {
      assert tickets[k := Settled][..m] == tickets[..m][k := Settled];
      SettleOne(tickets[..m], k);
    } else {
      assert tickets[k := Settled][..m] == tickets[..m];
    }
  }

  lemma HeldOneMore(tickets: seq<Ticket>, tokens: nat)
    ensures Held(tickets + [Live(tokens)]) == Held(tickets) + tokens
  {
    assert (tickets + [Live(tokens)])[..|tickets|] == tickets;
  }

  /** Over any interleaving, what is held and consumed together exceeds the capacity by no more than what was recorded
      beyond its reservation; in particular never while every usage stays within what was reserved for it. */
  lemma {:induction false} NeverOvercommitted(run: Run, m: nat)
    requires Happens(run) && m <= |run.steps|
    ensures run.states[m].capacity == run.states[0].capacity && run.states[m].consumed == Recorded(run, m)
    ensures Held(run.states[m].tickets) + run.states[m].consumed <= run.states[0].capacity + Overrun(run, m)
  {
    if m > 0 {
      NeverOvercommitted(run, m - 1);
      var a, step := run.states[m - 1], run.steps[m - 1];
      assert Takes(a, step, run.states[m]);
      match step
      case Reserve(tokens, _) => HeldOneMore(a.tickets, tokens);
      case Drop(k) => SettleOne(a.tickets, k);
      case Record(k, _) => SettleOne(a.tickets, k);
    }
  }

  /** A dropped reservation is refunded in full: whatever happened since it was granted, dropping it makes room for
      exactly its tokens, and nothing is consumed. */
  lemma DropRefunds(a: Budget, k: nat, b: Budget, tokens: nat)
    requires Takes(a, Drop(k), b)
    ensures b.consumed == a.consumed && Held(b.tickets) + a.tickets[k].tokens == Held(a.tickets)
    ensures Fits(b, tokens + a.tickets[k].tokens) <==> Fits(a, tokens)
  {
    SettleOne(a.tickets, k);
  }

  ghost predicate AllSettled(tickets: seq<Ticket>) {
    forall k | 0 <= k < |tickets| :: tickets[k].Settled?
  }

  lemma {:induction false} NothingHeld(tickets: seq<Ticket>)
    requires AllSettled(tickets)
    ensures Held(tickets) == 0
  {
    if tickets != [] {
      NothingHeld(tickets[..|tickets| - 1]);
    }
  }

  /** When every reservation has been settled, only recorded usage is missing from the budget. */
  lemma NothingLeaks(run: Run, m: nat, tokens: nat)
    requires Happens(run) && m <= |run.steps| && AllSettled(run.states[m].tickets)
    ensures Fits(run.states[m], tokens) <==> Recorded(run, m) + tokens <= run.states[0].capacity
  {
    NeverOvercommitted(run, m);
    NothingHeld(run.states[m].tickets);
  }

  /** The live reservations of at least `tokens` each. */
  ghost function Calls(tickets: seq<Ticket>, tokens: nat): nat {
    if tickets == [] then 0
    else
      var last := tickets[|tickets| - 1];
      Calls(tickets[..|tickets| - 1], tokens) + if last.Live? && last.tokens >= tokens then 1 else 0
  }

  lemma OneMore(n: nat, tokens: nat)
    ensures (n + 1) * tokens == n * tokens + tokens
  {
  }

  lemma {:induction false} CallsHold(tickets: seq<Ticket>, tokens: nat)
    ensures Calls(tickets, tokens) * tokens <= Held(tickets)
  {
    if tickets != [] {
      CallsHold(tickets[..|tickets| - 1], tokens);
      OneMore(Calls(tickets[..|tickets| - 1], tokens), tokens);
    }
  }

  /** However many turns run at once, the calls they hold reservations for fit the budget together. */
  lemma TurnsShareCapacity(run: Run, m: nat, tokens: nat)
    requires Happens(run) && m <= |run.steps|
    ensures Calls(run.states[m].tickets, tokens) * tokens + Recorded(run, m) <= run.states[0].capacity + Overrun(run, m)
  {
    NeverOvercommitted(run, m);
    CallsHold(run.states[m].tickets, tokens);
  }

  // ----- The budget as one turn sees it -----

  /** Tokens held by the tickets that are not `mine`. */
  ghost function HeldByOthers(tickets: seq<Ticket>, mine: set<nat>): nat {
    if tickets == [] then 0
    else
      var m := |tickets| - 1;
      HeldByOthers(tickets[..m], mine) + if tickets[m].Live? && m !in mine then tickets[m].tokens else 0
  }

  /** `mine` are live tickets of this size. */
  ghost predicate Owns(tickets: seq<Ticket>, mine: set<nat>, tokens: nat) {
    forall k | k in mine :: k < |tickets| && tickets[k] == Live(tokens)
  }

  /** What a turn that owns `mine` must leave room for. */
  ghost function Others(b: Budget, mine: set<nat>): nat {
    HeldByOthers(b.tickets, mine) + b.consumed
  }

  lemma {:induction false} MineAndOthers(tickets: seq<Ticket>, mine: set<nat>, tokens: nat)
    requires Owns(tickets, mine, tokens)
    ensures |mine| * tokens + HeldByOthers(tickets, mine) == Held(tickets)
  {
    if tickets == [] {
      assert mine == {};
    } else {
      var m := |tickets| - 1;
      var rest := mine - {m};
      MineAndOthers(tickets[..m], rest, tokens);
      SameOthers(tickets[..m], mine, rest);
      if m in mine {
        OneMore(|rest|, tokens);
      } else {
        assert rest == mine;
      }
    }
  }

  lemma {:induction false} SameOthers(tickets: seq<Ticket>, a: set<nat>, b: set<nat>)
    requires forall k: nat | k < |tickets| :: k in a <==> k in b
    ensures HeldByOthers(tickets, a) == HeldByOthers(tickets, b)
  {
    if tickets != [] {
      SameOthers(tickets[..|tickets| - 1], a, b);
    }
  }

  /** In every interleaving, a turn that owns some reservations of one size is granted its next one exactly when the
      turn loop's own gate lets it through, the others being all other live reservations and everything consumed. */
  lemma TurnsGateIsBudgets(run: Run, m: nat, mine: set<nat>, tokens: nat)
    requires Happens(run) && m < |run.steps| && run.steps[m].Reserve? && run.steps[m].tokens == tokens
    requires Owns(run.states[m].tickets, mine, tokens)
    ensures run.steps[m].granted <==>
            TurnDriver.Granted(run.states[0].capacity, |mine| * tokens, Others(run.states[m], mine), tokens)
    ensures run.steps[m].granted ==> |run.states[m].tickets| !in mine
                                     && Owns(run.states[m + 1].tickets, mine + {|run.states[m].tickets|}, tokens)
  {
    assert Takes(run.states[m], run.steps[m], run.states[m + 1]);
    NeverOvercommitted(run, m);
    MineAndOthers(run.states[m].tickets, mine, tokens);
  }

  /** What others do in between leaves a turn its reservations. */
  lemma OwnedStays(run: Run, m: nat, mine: set<nat>, tokens: nat)
    requires Happens(run) && m < |run.steps| && Owns(run.states[m].tickets, mine, tokens)
    requires run.steps[m].Drop? || run.steps[m].Record? ==> run.steps[m].ticket !in mine
    ensures Owns(run.states[m + 1].tickets, mine, tokens)
  {
    assert Takes(run.states[m], run.steps[m], run.states[m + 1]);
  }

  /** A usage recorded beyond its reservation does overcommit a full budget. */
  lemma OverrunOvercommits(capacity: nat) returns (run: Run)
    ensures Happens(run) && run.states[0].capacity == capacity && |run.steps| == 2
    ensures Held(run.states[2].tickets) + run.states[2].consumed == capacity + 1 == capacity + Overrun(run, 2)
  {
    var empty, full := Budget(capacity, 0, []), Budget(capacity, 0, [Live(capacity)]);
    var over := Budget(capacity, capacity + 1, [Settled]);
    run := Run([empty, full, over], [Reserve(capacity, true), Record(0, capacity + 1)]);
    HeldOneMore([], capacity);
    assert [] + [Live(capacity)] == [Live(capacity)];
    assert Takes(empty, run.steps[0], full);
    NothingHeld(over.tickets);
    assert Overrun(run, 1) == 0;
  }
}
