/**
 When a repair is requested, and what a request carries: in time and
 under an approval, with the revision that the plan's diagnostic showed,
 so that an executor still in that state answers it with a receipt.
*/
module Requests {
  import opened Model
  import opened Executor
  import opened Pipeline
  import opened Invariants
  import opened Reachable
  import opened Repairs
  import opened Safety
  import opened Handlers

  /** The plan is approved and has not expired, and neither has the mandate if the approval rests on it. */
  predicate Timely(db: Database, key: ActionKey, now: Instant) {
    && (key.incident, key.plan) in db.approvals
    && var approval := db.approvals[(key.incident, key.plan)];
    && approval.decision == Approve
    && now < key.plan.expiresAt
    && (approval.authority == Preauthorized ==>
          key.plan.policy.automaticUntil.Some? && now < key.plan.policy.automaticUntil.value)
  }

  /** The request for the incident's plan, carrying the revision its diagnostic showed. */
  function RequestFor(k: IncKey, service: string, plan: Plan, id: nat): Post {
    Post(id, plan.policy.executionUrl, ActionKey(k, plan), RepairBody(plan.action, service, plan.diagnostic.revision))
  }

  /** A request that is new after a step is made for a live execution event, in time. */
  lemma RequestIsTimely(policies: Policies, steps: seq<Action>, id: nat, now: Instant, x: Post)
    requires x in Run(policies, steps + [RequestRepairAction(id, now)]).posts && x !in Run(policies, steps).posts
    ensures var db := Run(policies, steps).db;
            && x.id == id && InState(db, x.key.incident, ExecutionQueued) && StageEvent(db, x.key.incident, id)
            && Timely(db, x.key, now)
            && x == RequestFor(x.key.incident, ServiceOf(db, x.key.incident), x.key.plan, id)
  {
    var db := Run(policies, steps).db;
    RunThen(policies, steps, RequestRepairAction(id, now));
    RunInv(policies, steps);
    StageNeverWedged(policies, steps, id, ContextPrepared);
    LiveExecution(policies, db, id);
  }

  /** The live execution event names the incident's approved plan. */
  lemma LiveExecution(policies: Policies, db: Database, id: nat)
    requires Inv(policies, db) && StageId(db, id) && Live(db, id) && db.outbox[id].topic == ExecutionTopic
    ensures var k := KeyOf(db.outbox[id]);
            && InState(db, k, ExecutionQueued) && StageEvent(db, k, id)
            && |db.outbox[id].refs| == 1 && PlanOf(db.incidents[k]).Some?
            && ResolutionOf(db.outbox[id].refs[0]).plan == PlanOf(db.incidents[k])
            && IsDecided(db, k, PlanOf(db.incidents[k]), Approve)
  {
    var k := KeyOf(db.outbox[id]);
    assert IncidentOk(policies, db, k) && StageOk(db, k) && DecisionsOk(db, k) && RowOk(policies, db, k);
    assert StageEvent(db, k, id) && AtStage(db, k, db.outbox[id]);
  }

  /** For the live execution event of an incident a step makes exactly this request, and makes it exactly in time. */
  lemma RequestedIffTimely(policies: Policies, steps: seq<Action>, k: IncKey, id: nat, now: Instant)
    requires InState(Run(policies, steps).db, k, ExecutionQueued) && StageEvent(Run(policies, steps).db, k, id)
    ensures PlanOf(Run(policies, steps).db.incidents[k]).Some?
    ensures var w, w' := Run(policies, steps), Run(policies, steps + [RequestRepairAction(id, now)]);
            var plan := PlanOf(w.db.incidents[k]).value;
            var x := RequestFor(k, w.db.incidents[k].request.service, plan, id);
            w'.posts == w.posts + if Timely(w.db, ActionKey(k, plan), now) then {x} else {}
  {
    var db := Run(policies, steps).db;
    RunThen(policies, steps, RequestRepairAction(id, now));
    RunInv(policies, steps);
    OneLiveEvent(policies, steps, k);
    StageNeverWedged(policies, steps, id, ContextPrepared);
    LiveExecution(policies, db, id);
  }

  /** Every request of a run was made by a step in time. */
  lemma {:induction false} EveryRequestWasTimely(policies: Policies, steps: seq<Action>, x: Post)
    requires x in Run(policies, steps).posts
    ensures exists n | 0 <= n < |steps| ::
              && steps[n].RequestRepairAction? && steps[n].id == x.id
              && Timely(Run(policies, steps[..n]).db, x.key, steps[n].now)
  {
    var last := |steps| - 1;
    RunNext(policies, steps);
    var before := steps[..last];
    if x in Run(policies, before).posts {
      EveryRequestWasTimely(policies, before, x);
      var n :| 0 <= n < last && before[n].RequestRepairAction? && before[n].id == x.id
               && Timely(Run(policies, before[..n]).db, x.key, before[n].now);
      assert before[..n] == steps[..n];
    } else {
      assert steps == before + [steps[last]];
      RequestIsTimely(policies, before, steps[last].id, steps[last].now, x);
    }
  }

  // ------------------------------------------------- from diagnostic to receipt

  /** Step `n` plans the incident on this diagnostic. */
  ghost predicate PlansOn(policies: Policies, steps: seq<Action>, n: nat, k: IncKey, id: nat, sample: Observation,
                          now: Instant) {
    && n < |steps| && steps[n] == CommitAction(StageTask(id, Diagnosed(sample, now)))
    && steps[n].task in Run(policies, steps[..n]).tasks
    && var db := Run(policies, steps[..n]).db;
    && InState(db, k, ResolutionQueued) && StageEvent(db, k, id)
    && PolicyKey(k.app, db.incidents[k].request.service) in policies
    && Recent(sample, db.incidents[k].request.service, now)
    && !sample.healthy
    && sample.failureCode == Some(policies[PolicyKey(k.app, db.incidents[k].request.service)].failureCode)
  }

  lemma PlanStays(policies: Policies, steps: seq<Action>, n: nat, k: IncKey)
    requires n <= |steps| && InState(Run(policies, steps[..n]).db, k, AwaitingApproval)
    ensures var row := Run(policies, steps[..n]).db.incidents[k];
            && k in Run(policies, steps).db.incidents
            && Run(policies, steps).db.incidents[k].request == row.request
            && PlanOf(Run(policies, steps).db.incidents[k]) == PlanOf(row)
  {
    RunLater(policies, steps, n);
  }

  lemma PlanningSets(policies: Policies, db: Database, k: IncKey, id: nat, sample: Observation, now: Instant)
    requires Due(policies, db, k, ResolutionQueued, id)
    requires PolicyKey(k.app, db.incidents[k].request.service) in policies
    requires Recent(sample, db.incidents[k].request.service, now) && !sample.healthy
    requires sample.failureCode == Some(policies[PolicyKey(k.app, db.incidents[k].request.service)].failureCode)
    ensures var db' := CommitTask(policies, db, StageTask(id, Diagnosed(sample, now))).db;
            && k in db'.incidents && db'.incidents[k].request == db.incidents[k].request
            && db'.incidents[k].state == AwaitingApproval && PlanOf(db'.incidents[k]).Some?
            && var plan := PlanOf(db'.incidents[k]).value;
            && var policy := policies[PolicyKey(k.app, db.incidents[k].request.service)];
            plan.service == db.incidents[k].request.service && plan.policy == policy && plan.action == policy.action
            && plan.diagnostic == sample && plan.createdAt == now
  {
    PlanningDecides(policies, db, k, id, sample, now);
  }

  lemma PlannedOn(policies: Policies, steps: seq<Action>, n: nat, k: IncKey, id: nat, sample: Observation,
                  now: Instant)
    requires PlansOn(policies, steps, n, k, id, sample, now)
    ensures k in Run(policies, steps).db.incidents
    ensures var db := Run(policies, steps).db;
            var service := db.incidents[k].request.service;
            && PolicyKey(k.app, service) in policies
            && var policy := policies[PolicyKey(k.app, service)];
            && PlanOf(db.incidents[k]).Some?
            && var plan := PlanOf(db.incidents[k]).value;
            plan.service == service && plan.policy == policy && plan.action == policy.action
            && plan.diagnostic == sample && plan.createdAt == now
  {
    var before := steps[..n];
    PlanningSets(policies, Run(policies, before).db, k, id, sample, now);
    assert steps[..n + 1] == before + [steps[n]];
    RunThen(policies, before, steps[n]);
    PlanStays(policies, steps, n + 1, k);
  }

  /** Whenever the plan made on a diagnostic is requested later in the run, the request
      asks the policy's executor for the policy's action at the revision the diagnostic
      showed; and an executor of that service and action answers it with a receipt
      exactly if it is still faulty at that revision, or carried the action out before. */
  lemma DiagnosedIsAnswered(policies: Policies, steps: seq<Action>, n: nat, k: IncKey, id: nat, sample: Observation,
                            now: Instant, x: Post)
    requires PlansOn(policies, steps, n, k, id, sample, now)
    requires x in Run(policies, steps).posts && x.key.incident == k
    ensures k in Run(policies, steps).db.incidents
    ensures var w := Run(policies, steps);
            var service := w.db.incidents[k].request.service;
            && PolicyKey(k.app, service) in policies
            && var policy := policies[PolicyKey(k.app, service)];
            && x.url == policy.executionUrl && x.body == RepairBody(policy.action, service, sample.revision)
            && (x.url in w.targets ==>
                  var t := w.targets[x.url];
                  t.service == service && t.action == policy.action ==>
                    (Repair(t, x.key, x.body).1 == Receipt(service, x.key) <==>
                     HasRow(t, x.key) || (t.faulty && t.revision == sample.revision)))
  {
    PlannedOn(policies, steps, n, k, id, sample, now);
    NeverConflictsWith(policies, steps, x);
    RunInv(policies, steps);
    assert PostOk(Run(policies, steps).db, x);
    assert IncidentOk(policies, Run(policies, steps).db, k) && DecisionsOk(Run(policies, steps).db, k);
  }

  /** Delivering a request changes its executor's table and state exactly if the request is the executor's, its
      key is not recorded and the fault is the one it expects; then, and when the key is recorded, the receipt is
      left to be committed with the time it came. Nothing else ever is. */
  lemma DeliverExactly(policies: Policies, steps: seq<Action>, x: Post, now: Instant)
    ensures var w, w' := Run(policies, steps), Run(policies, steps + [DeliverRepairAction(x, now)]);
            if x !in w.posts || x.url !in w.targets then w' == w
            else
              var t := w.targets[x.url];
              var ours := x.body.service == t.service && x.body.action == t.action;
              var expected := t.faulty && t.revision == x.body.expectedRevision;
              var repaired := t.(faulty := false, revision := t.revision + 1, lastAction := Some(x.key),
                                 rows := t.rows + [ActionRow(x.key, x.body)]);
              w' == w.(targets := w.targets[x.url := if ours && !HasRow(t, x.key) && expected then repaired else t],
                       tasks := w.tasks + if ours && (HasRow(t, x.key) || expected)
                                          then {StageTask(x.id, Executed(now))} else {})
  {
    RunThen(policies, steps, DeliverRepairAction(x, now));
    var w := Run(policies, steps);
    if x in w.posts && x.url in w.targets {
      NeverConflicts(policies, steps, x);
      RepairExactly(w.targets[x.url], x.key, x.body);
    }
  }

  lemma NeverConflictsWith(policies: Policies, steps: seq<Action>, x: Post)
    requires x in Run(policies, steps).posts
    ensures x.url in Run(policies, steps).targets ==>
              Repair(Run(policies, steps).targets[x.url], x.key, x.body).1 != IdempotencyConflict
  {
    if x.url in Run(policies, steps).targets {
      NeverConflicts(policies, steps, x);
    }
  }
}
