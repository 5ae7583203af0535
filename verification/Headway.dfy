/**
 The way through: from every stage of a run there are steps that lead to the next one, so plans are
 made, approved, carried out and confirmed, and an incident can come to wait for an operator alone.
*/
module Headway {
  import opened Model
  import opened Transactions
  import opened Executor
  import opened Pipeline
  import opened Invariants
  import opened IncidentSteps
  import opened Entries
  import opened Reachable
  import opened Safety
  import opened Mandates
  import opened Expiry
  import opened Wakeup

  /** The steps go on to where the incident is in the state, for the same request. */
  ghost predicate ComesTo(policies: Policies, steps: seq<Action>, longer: seq<Action>, k: IncKey, s: IncState) {
    && steps <= longer
    && InState(Run(policies, longer).db, k, s)
    && k in Run(policies, steps).db.incidents
    && Run(policies, longer).db.incidents[k].request == Run(policies, steps).db.incidents[k].request
  }

  // ---------------------------------------------------------------- stages

  /** The live event of a queued incident, and what it carries. */
  lemma EventFor(policies: Policies, steps: seq<Action>, k: IncKey) returns (id: nat)
    requires k in Run(policies, steps).db.incidents && Queued(Run(policies, steps).db.incidents[k].state)
    ensures var db := Run(policies, steps).db;
            && StageEvent(db, k, id) && StageId(db, id) && AtStage(db, k, db.outbox[id])
            && RowShape(policies, k, db.incidents[k])
  {
    RunInv(policies, steps);
    OneLiveEvent(policies, steps, k);
    var db := Run(policies, steps).db;
    assert IncidentOk(policies, db, k) && RowOk(policies, db, k);
    id :| StageEvent(db, k, id);
  }

  /** A stage but execution is handled with an answer that fits. */
  lemma StageOn(policies: Policies, steps: seq<Action>, k: IncKey, id: nat, answer: Answer)
      returns (longer: seq<Action>)
    requires StageId(Run(policies, steps).db, id) && StageEvent(Run(policies, steps).db, k, id)
    requires var e := Run(policies, steps).db.outbox[id];
             && e.topic != ExecutionTopic && |e.refs| == 1
             && AnswerFits(e, ServiceOf(Run(policies, steps).db, k), answer)
    ensures steps <= longer && |longer| == |steps| + 2
    ensures Run(policies, longer).targets == Run(policies, steps).targets
    ensures var db := Run(policies, steps).db;
            var r := StageResult(policies, db.outbox[id], ServiceOf(db, k), answer);
            r.Ok? && Run(policies, longer).db.incidents ==
                       db.incidents[k := db.incidents[k].(state := r.value.next, result := Some(r.value.result))]
  {
    StageNeverWedged(policies, steps, id, answer);
    CommitNeverWedged(policies, steps, id, answer, None, "");
    longer := Handling(policies, steps, id, answer);
  }

  lemma CollectionOn(policies: Policies, steps: seq<Action>, k: IncKey) returns (longer: seq<Action>)
    requires InState(Run(policies, steps).db, k, CollectionQueued)
    ensures ComesTo(policies, steps, longer, k, AnalysisQueued)
    ensures Run(policies, longer).targets == Run(policies, steps).targets
  {
    var id := EventFor(policies, steps, k);
    longer := StageOn(policies, steps, k, id, Gathered([], []));
  }

  lemma AnalysisOn(policies: Policies, steps: seq<Action>, k: IncKey) returns (longer: seq<Action>)
    requires InState(Run(policies, steps).db, k, AnalysisQueued)
    requires PolicyKeyOf(k, ServiceOf(Run(policies, steps).db, k)) in policies
    ensures ComesTo(policies, steps, longer, k, ResolutionQueued)
    ensures Run(policies, longer).targets == Run(policies, steps).targets
  {
    var id := EventFor(policies, steps, k);
    longer := StageOn(policies, steps, k, id, Analysed(""));
  }

  /** A fresh diagnostic of the failure the policy is for. */
  function Failing(service: string, policy: Policy, now: Instant): Observation {
    Observation(service, false, Some(policy.failureCode), now, 0, None)
  }

  lemma PlanningOn(policies: Policies, steps: seq<Action>, k: IncKey, now: Instant) returns (longer: seq<Action>)
    requires InState(Run(policies, steps).db, k, ResolutionQueued)
    ensures ComesTo(policies, steps, longer, k, AwaitingApproval)
    ensures Run(policies, longer).targets == Run(policies, steps).targets
    ensures var row := Run(policies, longer).db.incidents[k];
            && PlanOf(row).Some? && PolicyKeyOf(k, row.request.service) in policies
            && PlanOf(row).value.policy == policies[PolicyKeyOf(k, row.request.service)]
            && PlanOf(row).value.createdAt == now
  {
    var id := EventFor(policies, steps, k);
    var service := ServiceOf(Run(policies, steps).db, k);
    var policy := policies[PolicyKeyOf(k, service)];
    longer := StageOn(policies, steps, k, id, Diagnosed(Failing(service, policy, now), now));
  }

  // --------------------------------------------------------- a plan is reached

  function Entered(k: IncKey, service: string): seq<Action> {
    [OnboardAction(k.app, Config([service], "")), AdmitAction(k, Request(service, 0, 1, ""), 1)]
  }

  lemma EnteredWaits(policies: Policies, k: IncKey, service: string)
    requires k.app.tenant != "" && k.app.application != "" && k.incident != "" && service != ""
    ensures var w := Run(policies, Entered(k, service));
            && w.targets == map[] && k in w.db.incidents
            && w.db.incidents[k] == Incident(Request(service, 0, 1, ""), WaitingForContext, None)
            && Current(w.db, k.app, 0) && w.db.outbox[0].topic == DiscoveryTopic
  {
    var onboard, admit := Entered(k, service)[0], Entered(k, service)[1];
    RunThen(policies, [], onboard);
    assert [] + [onboard] == [onboard];
    RunThen(policies, [onboard], admit);
    assert [onboard] + [admit] == Entered(k, service);
  }

  /** Whatever policy is configured, some run comes to wait for a decision on a plan made under it. */
  lemma PlanReachable(policies: Policies, k: IncKey, service: string, now: Instant) returns (steps: seq<Action>)
    requires k.app.tenant != "" && k.app.application != "" && k.incident != "" && service != ""
    requires PolicyKeyOf(k, service) in policies
    ensures var w := Run(policies, steps);
            && w.targets == map[] && k in w.db.incidents && w.db.incidents[k].state == AwaitingApproval
            && PlanOf(w.db.incidents[k]).Some?
            && PlanOf(w.db.incidents[k]).value.policy == policies[PolicyKeyOf(k, service)]
            && PlanOf(w.db.incidents[k]).value.createdAt == now
  {
    EnteredWaits(policies, k, service);
    steps := WaitCanSucceed(policies, Entered(k, service), k, 0);
    steps := CollectionOn(policies, steps, k);
    steps := AnalysisOn(policies, steps, k);
    steps := PlanningOn(policies, steps, k, now);
  }

  /** Under a policy without a mandate some run parks its incident. */
  lemma ParkingReachable(policies: Policies, k: IncKey, service: string)
    requires k.app.tenant != "" && k.app.application != "" && k.incident != "" && service != ""
    requires PolicyKeyOf(k, service) in policies && policies[PolicyKeyOf(k, service)].automaticUntil.None?
    ensures exists steps :: Parked(Run(policies, steps).db, k)
  {
    var steps := PlanReachable(policies, k, service, 0);
    assert Parked(Run(policies, steps).db, k);
  }

  // ------------------------------------------------------ a plan is carried out

  /** An operator in time approves. */
  lemma ApprovalOn(policies: Policies, steps: seq<Action>, k: IncKey) returns (longer: seq<Action>)
    requires InState(Run(policies, steps).db, k, AwaitingApproval)
    ensures ComesTo(policies, steps, longer, k, ExecutionQueued)
    ensures Run(policies, longer).targets == Run(policies, steps).targets
    ensures Run(policies, longer).db.incidents[k] == Run(policies, steps).db.incidents[k].(state := ExecutionQueued)
  {
    var approve := ApprovalAccepted(policies, steps, k);
    DecisionWrites(policies, steps, approve);
    longer := steps + [approve];
  }

  lemma ApprovalAccepted(policies: Policies, steps: seq<Action>, k: IncKey) returns (approve: Action)
    requires InState(Run(policies, steps).db, k, AwaitingApproval)
    ensures approve.DecideAction? && approve.key == k
    ensures var db := Run(policies, steps).db;
            Decide(policies, db, k, approve.plan, approve.decision, None, approve.now).db.incidents ==
              db.incidents[k := db.incidents[k].(state := ExecutionQueued)]
  {
    OneLiveAuthorization(policies, steps, k);
    var db := Run(policies, steps).db;
    var plan := PlanOf(db.incidents[k]).value;
    DecisionAcceptedIff(policies, steps, k, plan, Approve, plan.expiresAt - 1);
    approve := DecideAction(k, plan, Approve, plan.expiresAt - 1);
  }

  lemma DecisionWrites(policies: Policies, steps: seq<Action>, step: Action)
    requires step.DecideAction?
    ensures var w, w' := Run(policies, steps), Run(policies, steps + [step]);
            && w'.db == Decide(policies, w.db, step.key, step.plan, step.decision, None, step.now).db
            && w'.targets == w.targets
  {
    RunThen(policies, steps, step);
  }

  /** The approved plan is still in force at this instant. */
  function InTimeAt(plan: Plan): Instant {
    if plan.policy.automaticUntil.Some? && plan.policy.automaticUntil.value < plan.expiresAt
    then plan.policy.automaticUntil.value - 1 else plan.expiresAt - 1
  }

  /** The read phase of the live execution event comes to its request. */
  lemma ExecutionRequests(policies: Policies, steps: seq<Action>, k: IncKey, id: nat)
    requires InState(Run(policies, steps).db, k, ExecutionQueued)
    requires StageId(Run(policies, steps).db, id) && StageEvent(Run(policies, steps).db, k, id)
    ensures var db := Run(policies, steps).db;
            && PlanOf(db.incidents[k]).Some?
            && RequestsRepair(policies, db, id, InTimeAt(PlanOf(db.incidents[k]).value))
            && PostFor(db, id) == Post(id, PlanOf(db.incidents[k]).value.policy.executionUrl,
                                       ActionKey(k, PlanOf(db.incidents[k]).value),
                                       RepairBody(PlanOf(db.incidents[k]).value.action, ServiceOf(db, k),
                                                  PlanOf(db.incidents[k]).value.diagnostic.revision))
  {
    var db := Run(policies, steps).db;
    RunInv(policies, steps);
    RunEntries(policies, steps);
    assert IncidentOk(policies, db, k) && DecisionsOk(db, k) && RowOk(policies, db, k);
    OneLiveEvent(policies, steps, k);
    StageNeverWedged(policies, steps, id, ContextPrepared);
  }

  /** The repair request is made and answered with a receipt, where no executor had acted before. */
  lemma RepairOn(policies: Policies, steps: seq<Action>, k: IncKey, id: nat, now: Instant) returns (longer: seq<Action>)
    requires InState(Run(policies, steps).db, k, ExecutionQueued)
    requires StageId(Run(policies, steps).db, id) && StageEvent(Run(policies, steps).db, k, id)
    requires PlanOf(Run(policies, steps).db.incidents[k]).Some?
    requires PlanOf(Run(policies, steps).db.incidents[k]).value.policy.executionUrl !in Run(policies, steps).targets
    ensures steps <= longer && |longer| == |steps| + 3
    ensures Run(policies, longer).db == Run(policies, steps).db
    ensures StageTask(id, Executed(now)) in Run(policies, longer).tasks
  {
    var db := Run(policies, steps).db;
    var plan := PlanOf(db.incidents[k]).value;
    ExecutionRequests(policies, steps, k, id);
    var post := PostFor(db, id);
    var disturb := DisturbAction(post.url, post.body.service, plan.action, true, plan.diagnostic.revision);
    var request, deliver := RequestRepairAction(id, InTimeAt(plan)), DeliverRepairAction(post, now);
    RunThen(policies, steps, disturb);
    RunThen(policies, steps + [disturb], request);
    RunThen(policies, steps + [disturb] + [request], deliver);
    longer := steps + [disturb] + [request] + [deliver];
  }

  lemma ExecutionMoves(policies: Policies, steps: seq<Action>, k: IncKey, id: nat, now: Instant)
    requires StageId(Run(policies, steps).db, id) && StageEvent(Run(policies, steps).db, k, id)
    requires Run(policies, steps).db.outbox[id].topic == ExecutionTopic
    ensures var db := Run(policies, steps).db;
            var db' := CommitTask(policies, db, StageTask(id, Executed(now))).db;
            && k in db'.incidents && db'.incidents[k].state == VerificationQueued
            && db'.incidents[k].request == db.incidents[k].request
  {
    CommitNeverWedged(policies, steps, id, Executed(now), None, "");
  }

  /** An approved incident comes to verification in four steps, where no executor had acted before. */
  lemma ExecutionOn(policies: Policies, steps: seq<Action>, k: IncKey) returns (longer: seq<Action>)
    requires InState(Run(policies, steps).db, k, ExecutionQueued)
    requires var plan := PlanOf(Run(policies, steps).db.incidents[k]);
             plan.Some? ==> plan.value.policy.executionUrl !in Run(policies, steps).targets
    ensures ComesTo(policies, steps, longer, k, VerificationQueued) && |longer| == |steps| + 4
  {
    var id := EventFor(policies, steps, k);
    longer := RepairOn(policies, steps, k, id, 0);
    ExecutionMoves(policies, steps, k, id, 0);
    TaskCommits(policies, longer, StageTask(id, Executed(0)));
    longer := longer + [CommitAction(StageTask(id, Executed(0)))];
  }

  /** Two healthy samples after the acknowledgement confirm the recovery. */
  lemma VerificationOn(policies: Policies, steps: seq<Action>, k: IncKey) returns (longer: seq<Action>)
    requires InState(Run(policies, steps).db, k, VerificationQueued)
    ensures ComesTo(policies, steps, longer, k, Recovered) && |longer| == |steps| + 2
  {
    var id := EventFor(policies, steps, k);
    var db := Run(policies, steps).db;
    var r := ResolutionOf(db.outbox[id].refs[0]);
    var first := Observation(ServiceOf(db, k), true, None, r.executedAt.value, 0, r.actionId);
    var second := first.(observedAt := first.observedAt + 1);
    longer := StageOn(policies, steps, k, id, Sampled(first, first.observedAt, second, second.observedAt));
  }

  /** Whatever policy is configured, some run recovers the incident under it. */
  lemma RecoveryReachable(policies: Policies, k: IncKey, service: string)
    requires k.app.tenant != "" && k.app.application != "" && k.incident != "" && service != ""
    requires PolicyKeyOf(k, service) in policies
    ensures exists steps ::
              InState(Run(policies, steps).db, k, Recovered)
  {
    var steps := PlanReachable(policies, k, service, 0);
    steps := ApprovalOn(policies, steps, k);
    steps := ExecutionOn(policies, steps, k);
    steps := VerificationOn(policies, steps, k);
  }
}
