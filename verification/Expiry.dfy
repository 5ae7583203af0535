/**
 A plan that waits for an operator and expires. No decision on it is accepted
 any more, no reinvestigation starts from the wait, and the waiting incident
 blocks every revision and refresh of its application: it is parked for good,
 unless its policy gives a mandate, whose refused use would end the wait.
*/
module Expiry {
  import opened Model
  import opened Transactions
  import opened Pipeline
  import opened Invariants
  import opened Reachable
  import opened Repairs
  import opened Safety
  import opened Deliveries
  import opened Unaffected
  import opened Mandates

  /** The incident waits for a decision that only an operator can make. */
  predicate Parked(db: Database, k: IncKey) {
    k in db.incidents && db.incidents[k].state == AwaitingApproval && !Mandated(db.incidents[k])
  }

  /** A decision of the step on the incident's plan comes when the plan has expired. */
  predicate Tardy(step: Action, k: IncKey, plan: Option<Plan>) {
    step.DecideAction? && step.key == k && plan == Some(step.plan) ==> step.plan.expiresAt <= step.now
  }

  /** No step about a parked incident is applied, if its decisions come late. */
  lemma ParkedRefuses(policies: Policies, w: World, step: Action, k: IncKey)
    requires WorldInv(policies, w) && AskedRight(w.db, k)
    requires Parked(w.db, k) && Tardy(step, k, PlanOf(w.db.incidents[k]))
    requires About(w.db, step, k)
    ensures NextDatabase(policies, w, step).reply != Applied
  {
    match step
    case CommitAction(t) =>
      if CommitTask(policies, w.db, t).reply == Applied {
        CommitRecords(policies, w.db, t);
        ParkedHasNoEvent(policies, w.db, k, t.id);
      }
    case AuthorizeAction(id, now) =>
      if NextDatabase(policies, w, step).reply == Applied {
        NextInbox(policies, w, step);
        ParkedHasNoEvent(policies, w.db, k, id);
      }
    case DecideAction(_, plan, decision, now) => DecisionAccepted(policies, w.db, k, plan, decision, None, now);
    case ReinvestigateAction(_, _, _) =>
  }

  lemma ParkedHasNoEvent(policies: Policies, db: Database, k: IncKey, id: nat)
    requires Inv(policies, db) && AskedRight(db, k) && Parked(db, k)
    requires id < |db.outbox| && db.outbox[id].incident.Some? && KeyOf(db.outbox[id]) == k
    ensures !Live(db, id)
  {
    assert WellFormedEvent(db, db.outbox[id]);
    assert IncidentOk(policies, db, k) && StageOk(db, k);
    assert !LiveAuthorization(db, k, id);
  }

  lemma ParkedStays(policies: Policies, w: World, step: Action, k: IncKey)
    requires WorldInv(policies, w) && AskedRight(w.db, k)
    requires Parked(w.db, k) && Tardy(step, k, PlanOf(w.db.incidents[k]))
    ensures var w' := Next(policies, w, step); Parked(w'.db, k) && w'.db.incidents[k] == w.db.incidents[k]
  {
    if !Transactional(step) {
      OutsideKeepsDatabase(policies, w, step);
    } else if NextDatabase(policies, w, step).reply != Applied {
      OnlyAppliedWrites(policies, w, step);
    } else {
      if About(w.db, step, k) {
        ParkedRefuses(policies, w, step, k);
      } else {
        NextNoNews(policies, w, step, k);
      }
    }
  }

  lemma {:induction false} ParkedForever(policies: Policies, steps: seq<Action>, n: nat, k: IncKey)
    requires n <= |steps| && Parked(Run(policies, steps[..n]).db, k)
    requires forall m | n <= m < |steps| :: Tardy(steps[m], k, PlanOf(Run(policies, steps[..n]).db.incidents[k]))
    ensures Parked(Run(policies, steps).db, k)
    ensures Run(policies, steps).db.incidents[k] == Run(policies, steps[..n]).db.incidents[k]
  {
    if n == |steps| {
      assert steps[..n] == steps;
    } else {
      var before := steps[..|steps| - 1];
      assert before[..n] == steps[..n];
      ParkedForever(policies, before, n, k);
      RunNext(policies, steps);
      RunInv(policies, before);
      RunAsks(policies, before, k);
      ParkedStays(policies, Run(policies, before), steps[|steps| - 1], k);
    }
  }

  /** Once the plan of a parked incident has expired nothing moves the incident any more, and no revision or
      refresh of its application is ever applied. */
  lemma ExpiredPlanParks(policies: Policies, steps: seq<Action>, n: nat, k: IncKey, version: nat, config: Config)
    requires n <= |steps| && Parked(Run(policies, steps[..n]).db, k)
    requires forall m | n <= m < |steps| :: Tardy(steps[m], k, PlanOf(Run(policies, steps[..n]).db.incidents[k]))
    ensures k in Run(policies, steps).db.incidents
    ensures Run(policies, steps).db.incidents[k] == Run(policies, steps[..n]).db.incidents[k]
    ensures Revise(Run(policies, steps).db, k.app, version, config).reply != Applied
    ensures Refresh(Run(policies, steps).db, k.app).reply != Applied
  {
    ParkedForever(policies, steps, n, k);
    WaitingBlocks(Run(policies, steps).db, k, version, config);
  }

  lemma WaitingBlocks(db: Database, k: IncKey, version: nat, config: Config)
    requires k in db.incidents && db.incidents[k].state == AwaitingApproval
    ensures Revise(db, k.app, version, config).reply != Applied && Refresh(db, k.app).reply != Applied
  {
    assert HasIncidentIn(db, k.app, ACTIVE) && HasIncidentIn(db, k.app, ACTIVE - {WaitingForContext});
  }

  // ------------------------------------------------------------ the way out

  /** The steps that follow take the incident out of its wait without a timely decision. */
  ghost predicate Leaves(policies: Policies, steps: seq<Action>, more: seq<Action>, k: IncKey)
    requires k in Run(policies, steps).db.incidents
  {
    && (forall m | 0 <= m < |more| :: Tardy(more[m], k, PlanOf(Run(policies, steps).db.incidents[k])))
    && k in Run(policies, steps + more).db.incidents
    && Run(policies, steps + more).db.incidents[k].state != AwaitingApproval
  }

  /** A live authorization event is a way out: when its handler gives up, its failure is recorded. */
  lemma AuthorizationFrees(policies: Policies, steps: seq<Action>, k: IncKey, i: nat, reason: string)
    requires InState(Run(policies, steps).db, k, AwaitingApproval)
    requires LiveAuthorization(Run(policies, steps).db, k, i)
    ensures var seen := SeenBy(Run(policies, steps).db, i);
            Leaves(policies, steps, [ReadFailureAction(i, reason), CommitAction(FailTask(i, seen, reason))], k)
  {
    var db := Run(policies, steps).db;
    RunInv(policies, steps);
    GivingUp(policies, steps, i, reason);
    GivingUpEndsTheWait(policies, db, k, FailTask(i, SeenBy(db, i), reason));
  }

  lemma GivingUpEndsTheWait(policies: Policies, db: Database, k: IncKey, task: Task)
    requires Inv(policies, db) && k in db.incidents && db.incidents[k].state == AwaitingApproval
    requires task.FailTask? && LiveAuthorization(db, k, task.id)
    ensures var db' := CommitTask(policies, db, task).db;
            k in db'.incidents && db'.incidents[k].state == ResolutionFailed
  {
    assert WellFormedEvent(db, db.outbox[task.id]);
  }

  /** Without a timely decision an incident leaves its wait exactly if the policy of its plan gives a mandate. */
  lemma LeavesIff(policies: Policies, steps: seq<Action>, k: IncKey)
    requires InState(Run(policies, steps).db, k, AwaitingApproval)
    ensures (exists more :: Leaves(policies, steps, more, k)) <==>
            Mandated(Run(policies, steps).db.incidents[k])
  {
    OneLiveAuthorization(policies, steps, k);
    if i: nat :| LiveAuthorization(Run(policies, steps).db, k, i) {
      AuthorizationFrees(policies, steps, k, i, "");
    } else {
      forall more ensures !Leaves(policies, steps, more, k) {
        ParkedNeverLeaves(policies, steps, more, k);
      }
    }
  }

  lemma ParkedNeverLeaves(policies: Policies, steps: seq<Action>, more: seq<Action>, k: IncKey)
    requires Parked(Run(policies, steps).db, k)
    ensures !Leaves(policies, steps, more, k)
  {
    var all := steps + more;
    var plan := PlanOf(Run(policies, steps).db.incidents[k]);
    assert all[..|steps|] == steps;
    if forall m | 0 <= m < |more| :: Tardy(more[m], k, plan) {
      forall m | |steps| <= m < |all| ensures Tardy(all[m], k, plan) {
        assert all[m] == more[m - |steps|];
      }
      ParkedForever(policies, all, |steps|, k);
    }
  }
}
