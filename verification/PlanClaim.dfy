/** The claim that fences resumes of one plan. */
module PlanClaim {
  import opened Prelude

  const STALE_CLAIM_SECS: int := 3600

  /** The stored plan, as far as claims read it; times are seconds on the callers' clocks. */
  datatype PlanRow = PlanRow(running: bool, owner: Option<string>, updatedAt: int)

  predicate Claimable(row: PlanRow, owner: string, now: int) {
    row.running && (row.owner == None || row.owner == Some(owner) || row.updatedAt < now - STALE_CLAIM_SECS)
  }

  class WorkflowRepo {
    var plans: map<string, PlanRow>

    constructor ()
      ensures plans == map[]
    {
      plans := map[];
    }

    /** A new plan starts running and unowned; a known id is refused. */
    method CreatePlan(id: string, now: int) returns (ok: bool)
      modifies this
      ensures ok <==> id !in old(plans)
      ensures plans == if ok then old(plans)[id := PlanRow(true, None, now)] else old(plans)
    {
      ok := id !in plans;
      if ok {
        plans := plans[id := PlanRow(true, None, now)];
      }
    }

    /** Takes the claim when nobody else holds a fresh one, and touches nothing otherwise. */
    method ClaimPlan(id: string, owner: string, now: int) returns (granted: bool)
      modifies this
      ensures granted <==>
              id in old(plans) &&
              var row := old(plans)[id];
              row.running && (row.owner == None || row.owner == Some(owner) || row.updatedAt + 3600 < now)
      ensures plans == if granted then old(plans)[id := PlanRow(true, Some(owner), now)] else old(plans)
      ensures id in old(plans) ==> Takes(old(plans)[id], Claim(owner, now, granted), plans[id])
    {
      granted := id in plans && Claimable(plans[id], owner, now);
      if granted {
        plans := plans[id := PlanRow(true, Some(owner), now)];
      }
    }

    /** Ends a plan and clears its claim; an unknown id is ignored. */
    method CompletePlan(id: string, now: int)
      modifies this
      ensures plans == if id in old(plans) then old(plans)[id := PlanRow(false, None, now)] else old(plans)
      ensures id in old(plans) ==> Takes(old(plans)[id], Complete(now), plans[id])
    {
      if id in plans {
        plans := plans[id := PlanRow(false, None, now)];
      }
    }
  }

  datatype Admission = ReadFailed | Unknown | Terminal | ClaimFailed | Busy | Admitted

  /** What a resume is told before it replays anything: it goes on exactly when it got the claim. Reading the plan and
      claiming it may each fail in the store. */
  method AdmitResume(repo: WorkflowRepo, id: string, owner: string, now: int, readFails: bool, claimFails: bool)
    returns (a: Admission)
    modifies repo
    ensures a.ReadFailed? <==> readFails
    ensures a.Unknown? <==> !readFails && id !in old(repo.plans)
    ensures a.Terminal? <==> !readFails && id in old(repo.plans) && !old(repo.plans)[id].running
    ensures a.ClaimFailed? <==> !readFails && claimFails && id in old(repo.plans) && old(repo.plans)[id].running
    ensures a.Admitted? <==>
            !readFails && !claimFails && id in old(repo.plans) && Claimable(old(repo.plans)[id], owner, now)
    ensures repo.plans ==
            if a.Admitted? then old(repo.plans)[id := PlanRow(true, Some(owner), now)] else old(repo.plans)
  {
    if readFails {
      return ReadFailed;
    }
    if id !in repo.plans {
      return Unknown;
    }
    if !repo.plans[id].running {
      return Terminal;
    }
    if claimFails {
      return ClaimFailed;
    }
    var granted := repo.ClaimPlan(id, owner, now);
    a := if granted then Admitted else Busy;
  }

  // ----- The life of one plan, whoever works on it -----

  /** What anyone does about the plan; a checkpoint writes to another table. */
  datatype Step =
    | Claim(owner: string, now: int, granted: bool)
    | Checkpoint(owner: string, now: int)
    | Complete(now: int)

  ghost predicate Takes(a: PlanRow, step: Step, b: PlanRow) {
    match step
    case Claim(owner, now, granted) =>
      (granted <==> Claimable(a, owner, now)) && b == if granted then PlanRow(true, Some(owner), now) else a
    case Checkpoint(_, _) => b == a
    case Complete(now) => b == PlanRow(false, None, now)
  }

  datatype Life = Life(rows: seq<PlanRow>, steps: seq<Step>)

  ghost predicate Happens(life: Life) {
    && |life.rows| == |life.steps| + 1
    && life.rows[0].running && life.rows[0].owner == None
    && forall k | 0 <= k < |life.steps| :: Takes(life.rows[k], life.steps[k], life.rows[k + 1])
  }

  ghost predicate Grants(life: Life, k: nat) {
    k < |life.steps| && life.steps[k].Claim? && life.steps[k].granted
  }

  /** Step `k` grants a claim, and up to step `m` no other is granted and the plan is not completed. */
  ghost predicate HeldFrom(life: Life, k: nat, m: nat) {
    && k < m <= |life.steps| && Grants(life, k)
    && forall j | k < j < m :: !Grants(life, j) && !life.steps[j].Complete?
  }

  lemma {:induction false} ClaimStands(life: Life, k: nat, m: nat)
    requires Happens(life) && HeldFrom(life, k, m)
    ensures life.rows[m] == PlanRow(true, Some(life.steps[k].owner), life.steps[k].now)
  {
    assert Takes(life.rows[m - 1], life.steps[m - 1], life.rows[m]);
    if k < m - 1 {
      ClaimStands(life, k, m - 1);
    }
  }

  /** While a claim is held, another resume gets one exactly when more than an hour has passed since it was granted;
      checkpoints written in the meantime make no difference. */
  lemma StolenIffAnHourOld(life: Life, k: nat, m: nat)
    requires Happens(life) && HeldFrom(life, k, m) && m < |life.steps| && life.steps[m].Claim?
    requires life.steps[m].owner != life.steps[k].owner
    ensures Grants(life, m) <==> life.steps[m].now > life.steps[k].now + STALE_CLAIM_SECS
  {
    ClaimStands(life, k, m);
    assert Takes(life.rows[m], life.steps[m], life.rows[m + 1]);
  }

  /** Who holds the claim may always take it again, which starts the hour anew. */
  lemma HolderRenews(life: Life, k: nat, m: nat)
    requires Happens(life) && HeldFrom(life, k, m) && m < |life.steps| && life.steps[m].Claim?
    requires life.steps[m].owner == life.steps[k].owner
    ensures Grants(life, m) && life.rows[m + 1] == PlanRow(true, Some(life.steps[k].owner), life.steps[m].now)
  {
    ClaimStands(life, k, m);
    assert Takes(life.rows[m], life.steps[m], life.rows[m + 1]);
  }

  lemma {:induction false} CompletedStays(life: Life, c: nat, m: nat)
    requires Happens(life) && c < m <= |life.steps| && life.steps[c].Complete?
    ensures !life.rows[m].running
  {
    assert Takes(life.rows[m - 1], life.steps[m - 1], life.rows[m]);
    if c < m - 1 {
      CompletedStays(life, c, m - 1);
    }
  }

  ghost predicate NoGrantBefore(life: Life, m: nat) {
    forall j | 0 <= j < m :: !Grants(life, j)
  }

  /** A completed plan is never claimed again. */
  lemma NoClaimAfterCompletion(life: Life, c: nat, k: nat)
    requires Happens(life) && c < k < |life.steps| && life.steps[c].Complete?
    ensures !Grants(life, k)
  {
    CompletedStays(life, c, k);
    assert Takes(life.rows[k], life.steps[k], life.rows[k + 1]);
  }

  lemma {:induction false} Unowned(life: Life, m: nat)
    requires Happens(life) && m <= |life.steps| && NoGrantBefore(life, m)
    requires forall j | 0 <= j < m :: !life.steps[j].Complete?
    ensures life.rows[m] == life.rows[0]
  {
    if m > 0 {
      Unowned(life, m - 1);
      assert Takes(life.rows[m - 1], life.steps[m - 1], life.rows[m]);
      assert !Grants(life, m - 1);
    }
  }

  /** The run that created a plan takes no claim, so the first resume is granted one while the plan is not completed,
      whether or not that run is still at work. */
  lemma FirstClaimGranted(life: Life, m: nat)
    requires Happens(life) && m < |life.steps| && life.steps[m].Claim? && NoGrantBefore(life, m)
    ensures Grants(life, m) <==> forall j | 0 <= j < m :: !life.steps[j].Complete?
  {
    assert Takes(life.rows[m], life.steps[m], life.rows[m + 1]);
    if forall j | 0 <= j < m :: !life.steps[j].Complete? {
      Unowned(life, m);
    } else {
      var j :| 0 <= j < m && life.steps[j].Complete?;
      CompletedStays(life, j, m);
    }
  }

  /** A resume that writes a checkpoint a second before its hour is over loses its claim all the same. */
  lemma ProgressDoesNotRenew() returns (life: Life)
    ensures Happens(life) && |life.steps| == 3 && Grants(life, 0) && Grants(life, 2)
    ensures life.steps[1] == Checkpoint(life.steps[0].owner, 3600) && life.steps[2].now == 3601
    ensures life.steps[2].owner != life.steps[0].owner
  {
    var a, b := PlanRow(true, Some("a"), 0), PlanRow(true, Some("b"), 3601);
    life := Life([PlanRow(true, None, 0), a, a, b],
                 [Claim("a", 0, true), Checkpoint("a", 3600), Claim("b", 3601, true)]);
  }
}
