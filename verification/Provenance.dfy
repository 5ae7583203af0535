/**
 Where the facts of a resolution come from: the diagnostic of a plan, the time of an acknowledgement
 and the samples of a recovery were all told by the connectors, in steps of the same run.
*/
module Provenance {
  import opened Model
  import opened Transactions
  import opened Executor
  import opened Pipeline
  import opened Invariants
  import opened IncidentSteps
  import opened OperatorSteps
  import opened Reachable
  import opened Repairs
  import opened Deliveries
  import opened Unaffected
  import opened Safety
  import opened Handlers

  /** The executor answers the request with a receipt for it. */
  predicate AnsweredWithReceipt(w: World, x: Post) {
    && x in w.posts && x.url in w.targets
    && Repair(w.targets[x.url], x.key, x.body).1 == Receipt(x.body.service, x.key)
  }

  /** Step `n` gave the handler of the event this answer: an execution's is a receipt delivered then. */
  ghost predicate ToldAt(policies: Policies, steps: seq<Action>, n: int, id: nat, answer: Answer) {
    && 0 <= n < |steps|
    && if answer.Executed? then
         && steps[n].DeliverRepairAction? && steps[n].now == answer.now && steps[n].post.id == id
         && AnsweredWithReceipt(Run(policies, steps[..n]), steps[n].post)
       else steps[n] == ReadAction(id, answer)
  }

  ghost predicate Told(policies: Policies, steps: seq<Action>, id: nat, answer: Answer) {
    exists n :: ToldAt(policies, steps, n, id, answer)
  }

  lemma StillTold(policies: Policies, steps: seq<Action>, more: seq<Action>, id: nat, answer: Answer)
    requires Told(policies, steps, id, answer)
    ensures Told(policies, steps + more, id, answer)
  {
    var n :| ToldAt(policies, steps, n, id, answer);
    assert (steps + more)[..n] == steps[..n];
    assert ToldAt(policies, steps + more, n, id, answer);
  }

  /** Whatever is about to be committed was told. */
  lemma {:induction false} TasksWereTold(policies: Policies, steps: seq<Action>, id: nat, answer: Answer)
    requires StageTask(id, answer) in Run(policies, steps).tasks
    ensures Told(policies, steps, id, answer)
  {
    RunNext(policies, steps);
    var before, last := steps[..|steps| - 1], |steps| - 1;
    assert steps == before + [steps[last]];
    if StageTask(id, answer) in Run(policies, before).tasks {
      TasksWereTold(policies, before, id, answer);
      StillTold(policies, before, [steps[last]], id, answer);
    } else {
      NewTask(policies, Run(policies, before), steps[last], id, answer);
      assert ToldAt(policies, steps, last, id, answer);
    }
  }

  lemma NewTask(policies: Policies, w: World, step: Action, id: nat, answer: Answer)
    requires StageTask(id, answer) in Next(policies, w, step).tasks && StageTask(id, answer) !in w.tasks
    ensures if answer.Executed? then
              && step.DeliverRepairAction? && step.now == answer.now && step.post.id == id
              && AnsweredWithReceipt(w, step.post)
            else step == ReadAction(id, answer)
  {
  }

  // ------------------------------------------------------------------- facts

  /** The resolution the row holds, if it holds an assessment. */
  function Noted(row: Incident): Resolution {
    if row.result.Some? && row.result.value.Assessment? then row.result.value.resolution else NO_RESOLUTION
  }

  /** A delivery of the action's request at this time was answered with a receipt. */
  ghost predicate Acknowledges(policies: Policies, steps: seq<Action>, n: int, key: ActionKey, at: Instant) {
    && 0 <= n < |steps|
    && steps[n].DeliverRepairAction? && steps[n].now == at && steps[n].post.key == key
    && AnsweredWithReceipt(Run(policies, steps[..n]), steps[n].post)
  }

  /** Two samples a step told, in order, each recent when it was taken and of this service. */
  ghost predicate SampledBy(policies: Policies, steps: seq<Action>, service: string, v: seq<Observation>, id: nat,
                            firstNow: Instant, secondNow: Instant) {
    && |v| == 2 && Told(policies, steps, id, Sampled(v[0], firstNow, v[1], secondNow))
    && Recent(v[0], service, firstNow) && Recent(v[1], service, secondNow)
  }

  /** Everything the resolution notes was told in the run. */
  ghost predicate Sourced(policies: Policies, steps: seq<Action>, service: string, r: Resolution) {
    && (r.plan.Some? ==>
          exists id :: Told(policies, steps, id, Diagnosed(r.plan.value.diagnostic, r.plan.value.createdAt)))
    && (r.executedAt.Some? ==>
          r.actionId.Some? && exists n :: Acknowledges(policies, steps, n, r.actionId.value, r.executedAt.value))
    && (r.verification != [] ==>
          exists id, firstNow, secondNow ::
            SampledBy(policies, steps, service, r.verification, id, firstNow, secondNow))
  }

  lemma StillSourced(policies: Policies, steps: seq<Action>, more: seq<Action>, service: string, r: Resolution)
    requires Sourced(policies, steps, service, r)
    ensures Sourced(policies, steps + more, service, r)
  {
    if r.plan.Some? {
      var id :| Told(policies, steps, id, Diagnosed(r.plan.value.diagnostic, r.plan.value.createdAt));
      StillTold(policies, steps, more, id, Diagnosed(r.plan.value.diagnostic, r.plan.value.createdAt));
    }
    if r.executedAt.Some? {
      var n :| Acknowledges(policies, steps, n, r.actionId.value, r.executedAt.value);
      assert (steps + more)[..n] == steps[..n];
      assert Acknowledges(policies, steps + more, n, r.actionId.value, r.executedAt.value);
    }
    if r.verification != [] {
      var v := r.verification;
      var id, firstNow, secondNow :| SampledBy(policies, steps, service, v, id, firstNow, secondNow);
      StillTold(policies, steps, more, id, Sampled(v[0], firstNow, v[1], secondNow));
      assert SampledBy(policies, steps + more, service, v, id, firstNow, secondNow);
    }
  }

  /** Plan, acknowledgement and samples are the same, or there are none. */
  predicate SameFacts(r: Resolution, r': Resolution) {
    || (r'.plan == r.plan && r'.actionId == r.actionId && r'.executedAt == r.executedAt
        && r'.verification == r.verification)
    || (r'.plan == None && r'.executedAt == None && r'.verification == [])
  }

  lemma SameFactsSourced(policies: Policies, steps: seq<Action>, service: string, r: Resolution, r': Resolution)
    requires Sourced(policies, steps, service, r) && SameFacts(r, r')
    ensures Sourced(policies, steps, service, r')
  {
  }

  // -------------------------------------------------- steps that tell nothing

  /** A commit that notes no new fact. */
  lemma QuietCommit(policies: Policies, w: World, t: Task, k: IncKey)
    requires Inv(policies, w.db) && TaskOk(w, t) && CommitTask(policies, w.db, t).reply == Applied
    requires t.id < |w.db.outbox| && w.db.outbox[t.id].incident.Some? && KeyOf(w.db.outbox[t.id]) == k
    requires t.StageTask? ==> w.db.outbox[t.id].topic in {CollectionTopic, AnalysisTopic}
    ensures var db' := CommitTask(policies, w.db, t).db;
            k in w.db.incidents && k in db'.incidents
            && SameFacts(Noted(w.db.incidents[k]), Noted(db'.incidents[k]))
  {
    assert WellFormedEvent(w.db, w.db.outbox[t.id]);
    CommitRecords(policies, w.db, t);
    if t.StageTask? {
      LiveStage(policies, w.db, t.id);
      QuietResult(policies, w.db, t.id, t.answer);
    } else if StageId(w.db, t.id) {
      LiveStage(policies, w.db, t.id);
      QuietFailure(policies, w.db, t.id, t.seen, t.reason);
    } else {
      QuietAuthorization(policies, w.db, t.id, t.seen, t.reason);
    }
  }

  /** What the two early stages compute proposes nothing. */
  lemma QuietResult(policies: Policies, db: Database, id: nat, answer: Answer)
    requires Awaited(policies, db, id) && Live(db, id) && db.outbox[id].topic in {CollectionTopic, AnalysisTopic}
    requires CommitTask(policies, db, StageTask(id, answer)).reply == Applied
    ensures var db' := CommitTask(policies, db, StageTask(id, answer)).db;
            var k := KeyOf(db.outbox[id]);
            k in db'.incidents && Noted(db'.incidents[k]) == NO_RESOLUTION
  {
    var e := db.outbox[id];
    CommitWrites(policies, db, id, answer, StageResult(policies, e, ServiceOf(db, KeyOf(e)), answer));
  }

  lemma QuietFailure(policies: Policies, db: Database, id: nat, seen: Option<Content>, reason: string)
    requires Awaited(policies, db, id) && Live(db, id)
    requires db.outbox[id].topic !in {CollectionTopic, AnalysisTopic} ==> seen == Some(db.outbox[id].refs[0])
    ensures var db' := CommitTask(policies, db, FailTask(id, seen, reason)).db;
            var k := KeyOf(db.outbox[id]);
            k in db'.incidents && SameFacts(Noted(db.incidents[k]), Noted(db'.incidents[k]))
  {
    FailureWrites(policies, db, id, seen, reason);
  }

  lemma QuietAuthorization(policies: Policies, db: Database, id: nat, seen: Option<Content>, reason: string)
    requires AuthorizationId(db, id) && KeyOf(db.outbox[id]) in db.incidents
    requires CommitTask(policies, db, FailTask(id, seen, reason)).reply == Applied
    requires db.incidents[KeyOf(db.outbox[id])].state == AwaitingApproval ==>
               seen == db.incidents[KeyOf(db.outbox[id])].result
    ensures var db' := CommitTask(policies, db, FailTask(id, seen, reason)).db;
            var k := KeyOf(db.outbox[id]);
            k in db'.incidents && SameFacts(Noted(db.incidents[k]), Noted(db'.incidents[k]))
  {
    AuthorizationFailureCommits(policies, db, id, seen, reason);
  }

  lemma QuietReinvestigation(db: Database, k: IncKey, expected: Option<Content>, mode: Mode, policies: Policies)
    requires Inv(policies, db) && Reinvestigate(db, k, expected, mode).reply == Applied
    ensures var db' := Reinvestigate(db, k, expected, mode).db;
            k in db'.incidents && SameFacts(Noted(db.incidents[k]), Noted(db'.incidents[k]))
  {
    var db', sent := ReinvestigateMoves(db, k, expected, mode);
    assert IncidentOk(policies, db, k);
    StoredEvidenceOk(policies, db, k);
  }

  lemma QuietDecision(policies: Policies, db: Database, k: IncKey, plan: Plan, decision: Decision, event: Option<nat>,
                      now: Instant)
    requires event.Some? ==> event.value < |db.outbox| && db.outbox[event.value].topic == AuthorizationTopic
    requires Decide(policies, db, k, plan, decision, event, now).reply == Applied
    ensures var db' := Decide(policies, db, k, plan, decision, event, now).db;
            k in db.incidents && k in db'.incidents && db'.incidents[k].result == db.incidents[k].result
  {
  }

  /** Neither an admission nor a release writes a result. */
  lemma QuietElsewhere(policies: Policies, w: World, step: Action, k: IncKey)
    requires k in NextDatabase(policies, w, step).db.incidents && !About(w.db, step, k)
    requires NextDatabase(policies, w, step).reply == Applied && Inv(policies, w.db)
    ensures var row' := NextDatabase(policies, w, step).db.incidents[k];
            if k in w.db.incidents then row'.result == w.db.incidents[k].result else row'.result == None
  {
    match step
    case ReleaseAction(id, order) => QuietRelease(w.db, id, order, k);
    case CommitAction(t) =>
      CommitBeside(policies, w.db, t);
      CommitNoNews(policies, w.db, t, k);
    case _ =>
      if k in w.db.incidents {
        NextNoNews(policies, w, step, k);
      } else {
        OnlyAdmissionsAdd(policies, w, step, k);
      }
  }

  lemma QuietRelease(db: Database, id: nat, order: seq<IncKey>, k: IncKey)
    requires id < |db.outbox| && AdmissionTopic(db.outbox[id].topic) && forall k' | k' in order :: k' in db.incidents
    requires k in Release(db, id, order).db.incidents
    ensures k in db.incidents && Release(db, id, order).db.incidents[k].result == db.incidents[k].result
  {
  }

  lemma OnlyAdmissionsAdd(policies: Policies, w: World, step: Action, k: IncKey)
    requires k in NextDatabase(policies, w, step).db.incidents && k !in w.db.incidents && !About(w.db, step, k)
    requires !step.ReleaseAction? && !step.CommitAction?
    ensures NextDatabase(policies, w, step).db.incidents[k].result == None
  {
    match step
    case ReinvestigateAction(other, expected, mode) => ReinvestigationAddsNothing(w.db, other, expected, mode);
    case DecideAction(other, plan, decision, now) =>
      DecisionAddsNothing(policies, w.db, other, plan, decision, None, now);
    case AuthorizeAction(id, now) =>
      if AuthorizationId(w.db, id) && |w.db.outbox[id].refs| == 1 && ResolutionOf(w.db.outbox[id].refs[0]).plan.Some? {
        DecisionAddsNothing(policies, w.db, KeyOf(w.db.outbox[id]), ResolutionOf(w.db.outbox[id].refs[0]).plan.value,
                            Approve, Some(id), now);
      }
    case _ =>
  }

  lemma ReinvestigationAddsNothing(db: Database, k: IncKey, expected: Option<Content>, mode: Mode)
    ensures Reinvestigate(db, k, expected, mode).db.incidents.Keys == db.incidents.Keys
  {
  }

  lemma DecisionAddsNothing(policies: Policies, db: Database, k: IncKey, plan: Plan, decision: Decision,
                            event: Option<nat>, now: Instant)
    requires event.Some? ==> event.value < |db.outbox| && db.outbox[event.value].topic == AuthorizationTopic
    ensures Decide(policies, db, k, plan, decision, event, now).db.incidents.Keys == db.incidents.Keys
  {
  }

  // ---------------------------------------------------- commits that tell

  lemma PlanningSourced(policies: Policies, steps: seq<Action>, k: IncKey, id: nat, sample: Observation, now: Instant)
    requires StageTask(id, Diagnosed(sample, now)) in Run(policies, steps).tasks
    requires Due(policies, Run(policies, steps).db, k, ResolutionQueued, id)
    requires CommitTask(policies, Run(policies, steps).db, StageTask(id, Diagnosed(sample, now))).reply == Applied
    ensures var db' := CommitTask(policies, Run(policies, steps).db, StageTask(id, Diagnosed(sample, now))).db;
            k in db'.incidents && Sourced(policies, steps, db'.incidents[k].request.service, Noted(db'.incidents[k]))
  {
    PlanningDecides(policies, Run(policies, steps).db, k, id, sample, now);
    TasksWereTold(policies, steps, id, Diagnosed(sample, now));
  }

  lemma ExecutionSourced(policies: Policies, steps: seq<Action>, k: IncKey, id: nat, now: Instant)
    requires StageTask(id, Executed(now)) in Run(policies, steps).tasks
    requires Due(policies, Run(policies, steps).db, k, ExecutionQueued, id)
    requires Sourced(policies, steps, ServiceOf(Run(policies, steps).db, k),
                     Noted(Run(policies, steps).db.incidents[k]))
    ensures var db' := CommitTask(policies, Run(policies, steps).db, StageTask(id, Executed(now))).db;
            k in db'.incidents && Sourced(policies, steps, db'.incidents[k].request.service, Noted(db'.incidents[k]))
  {
    var db := Run(policies, steps).db;
    ExecutionStores(policies, db, k, id, now);
    TasksWereTold(policies, steps, id, Executed(now));
    var n :| ToldAt(policies, steps, n, id, Executed(now));
    DeliveredForPlan(policies, steps, n, k, id);
    assert Acknowledges(policies, steps, n, ActionKey(k, PlanOf(db.incidents[k]).value), now);
  }

  /** The request a step delivers for the incident's live execution event carries the key of its plan. */
  lemma DeliveredForPlan(policies: Policies, steps: seq<Action>, n: nat, k: IncKey, id: nat)
    requires Due(policies, Run(policies, steps).db, k, ExecutionQueued, id)
    requires n < |steps| && steps[n].DeliverRepairAction? && steps[n].post.id == id
    requires steps[n].post in Run(policies, steps[..n]).posts
    ensures PlanOf(Run(policies, steps).db.incidents[k]).Some?
    ensures steps[n].post.key == ActionKey(k, PlanOf(Run(policies, steps).db.incidents[k]).value)
  {
    var w := Run(policies, steps);
    RunLater(policies, steps, n);
    RunInv(policies, steps);
    assert PostOk(w.db, steps[n].post);
    assert IncidentOk(policies, w.db, k) && DecisionsOk(w.db, k);
  }

  lemma VerificationSourced(policies: Policies, steps: seq<Action>, k: IncKey, id: nat, first: Observation,
                            firstNow: Instant, second: Observation, secondNow: Instant)
    requires StageTask(id, Sampled(first, firstNow, second, secondNow)) in Run(policies, steps).tasks
    requires Due(policies, Run(policies, steps).db, k, VerificationQueued, id)
    requires Sourced(policies, steps, ServiceOf(Run(policies, steps).db, k),
                     Noted(Run(policies, steps).db.incidents[k]))
    requires var t := StageTask(id, Sampled(first, firstNow, second, secondNow));
             CommitTask(policies, Run(policies, steps).db, t).reply == Applied
    ensures var t := StageTask(id, Sampled(first, firstNow, second, secondNow));
            var db' := CommitTask(policies, Run(policies, steps).db, t).db;
            k in db'.incidents && Sourced(policies, steps, db'.incidents[k].request.service, Noted(db'.incidents[k]))
  {
    var db := Run(policies, steps).db;
    VerificationDecides(policies, db, k, id, first, firstNow, second, secondNow);
    TasksWereTold(policies, steps, id, Sampled(first, firstNow, second, secondNow));
    assert SampledBy(policies, steps, ServiceOf(db, k), [first, second], id, firstNow, secondNow);
  }

  /** A commit of a told answer leaves a resolution that was told. */
  lemma CommitSourced(policies: Policies, steps: seq<Action>, t: Task, k: IncKey)
    requires t in Run(policies, steps).tasks && CommitTask(policies, Run(policies, steps).db, t).reply == Applied
    requires t.id < |Run(policies, steps).db.outbox| && Run(policies, steps).db.outbox[t.id].incident.Some?
    requires KeyOf(Run(policies, steps).db.outbox[t.id]) == k && k in Run(policies, steps).db.incidents
    requires Sourced(policies, steps, ServiceOf(Run(policies, steps).db, k),
                     Noted(Run(policies, steps).db.incidents[k]))
    ensures var db' := CommitTask(policies, Run(policies, steps).db, t).db;
            k in db'.incidents && Sourced(policies, steps, db'.incidents[k].request.service, Noted(db'.incidents[k]))
  {
    var w := Run(policies, steps);
    RunInv(policies, steps);
    assert TaskOk(w, t);
    CommitBeside(policies, w.db, t);
    if t.StageTask? && w.db.outbox[t.id].topic !in {CollectionTopic, AnalysisTopic} {
      TellingCommit(policies, w.db, t);
      match t.answer
      case Diagnosed(sample, now) => PlanningSourced(policies, steps, k, t.id, sample, now);
      case Executed(now) => ExecutionSourced(policies, steps, k, t.id, now);
      case Sampled(first, firstNow, second, secondNow) =>
        VerificationSourced(policies, steps, k, t.id, first, firstNow, second, secondNow);
    } else {
      QuietCommit(policies, w, t, k);
      SameFactsSourced(policies, steps, ServiceOf(w.db, k), Noted(w.db.incidents[k]),
                       Noted(CommitTask(policies, w.db, t).db.incidents[k]));
    }
  }

  /** What the applied commit of a later stage was due for. */
  lemma TellingCommit(policies: Policies, db: Database, t: Task)
    requires Inv(policies, db) && t.StageTask? && CommitTask(policies, db, t).reply == Applied
    requires db.outbox[t.id].incident.Some? && db.outbox[t.id].topic !in {CollectionTopic, AnalysisTopic}
    ensures StageId(db, t.id) && StageEvent(db, KeyOf(db.outbox[t.id]), t.id)
    ensures t.answer.Diagnosed? || t.answer.Executed? || t.answer.Sampled?
    ensures db.incidents[KeyOf(db.outbox[t.id])].state ==
              if t.answer.Diagnosed? then ResolutionQueued
              else if t.answer.Executed? then ExecutionQueued else VerificationQueued
  {
    assert WellFormedEvent(db, db.outbox[t.id]);
    CommitRecords(policies, db, t);
    LiveStage(policies, db, t.id);
  }

  // --------------------------------------------------------------------- runs

  lemma OwnStepSourced(policies: Policies, steps: seq<Action>, step: Action, k: IncKey)
    requires About(Run(policies, steps).db, step, k) && k in Run(policies, steps).db.incidents
    requires NextDatabase(policies, Run(policies, steps), step).reply == Applied
    requires Sourced(policies, steps, ServiceOf(Run(policies, steps).db, k),
                     Noted(Run(policies, steps).db.incidents[k]))
    ensures var db' := NextDatabase(policies, Run(policies, steps), step).db;
            k in db'.incidents && Sourced(policies, steps, ServiceOf(Run(policies, steps).db, k),
                                          Noted(db'.incidents[k]))
  {
    var w := Run(policies, steps);
    RunInv(policies, steps);
    match step
    case CommitAction(t) =>
      CommitSourced(policies, steps, t, k);
      CommitBeside(policies, w.db, t);
    case ReinvestigateAction(_, expected, mode) => QuietReinvestigation(w.db, k, expected, mode, policies);
    case DecideAction(_, plan, decision, now) => QuietDecision(policies, w.db, k, plan, decision, None, now);
    case AuthorizeAction(id, now) =>
      QuietDecision(policies, w.db, k, ResolutionOf(w.db.outbox[id].refs[0]).plan.value, Approve, Some(id), now);
  }

  lemma StepSourced(policies: Policies, steps: seq<Action>, step: Action, k: IncKey)
    requires k in Next(policies, Run(policies, steps), step).db.incidents
    requires k in Run(policies, steps).db.incidents ==>
               Sourced(policies, steps, ServiceOf(Run(policies, steps).db, k),
                       Noted(Run(policies, steps).db.incidents[k]))
    ensures var db' := Next(policies, Run(policies, steps), step).db;
            Sourced(policies, steps, db'.incidents[k].request.service, Noted(db'.incidents[k]))
  {
    var w := Run(policies, steps);
    RunInv(policies, steps);
    NextInside(policies, w, step);
    if !Transactional(step) {
      OutsideKeepsDatabase(policies, w, step);
    } else if NextDatabase(policies, w, step).reply != Applied {
      OnlyAppliedWrites(policies, w, step);
    } else if About(w.db, step, k) {
      AboutKnown(policies, w, step, k);
      OwnStepSourced(policies, steps, step, k);
    } else {
      ElsewhereSourced(policies, steps, step, k);
    }
  }

  lemma ElsewhereSourced(policies: Policies, steps: seq<Action>, step: Action, k: IncKey)
    requires !About(Run(policies, steps).db, step, k)
    requires NextDatabase(policies, Run(policies, steps), step).reply == Applied
    requires k in NextDatabase(policies, Run(policies, steps), step).db.incidents
    requires Extends(Run(policies, steps).db, NextDatabase(policies, Run(policies, steps), step).db)
    requires k in Run(policies, steps).db.incidents ==>
               Sourced(policies, steps, ServiceOf(Run(policies, steps).db, k),
                       Noted(Run(policies, steps).db.incidents[k]))
    ensures var row' := NextDatabase(policies, Run(policies, steps), step).db.incidents[k];
            Sourced(policies, steps, row'.request.service, Noted(row'))
  {
    RunInv(policies, steps);
    QuietElsewhere(policies, Run(policies, steps), step, k);
  }

  /** An applied step about an incident is about a known one. */
  lemma AboutKnown(policies: Policies, w: World, step: Action, k: IncKey)
    requires Inv(policies, w.db) && NextDatabase(policies, w, step).reply == Applied && About(w.db, step, k)
    ensures k in w.db.incidents
  {
    if step.CommitAction? {
      assert WellFormedEvent(w.db, w.db.outbox[step.task.id]);
    }
  }

  /** In every run, whatever the resolution of an incident notes was told in it. */
  lemma {:induction false} RunSourced(policies: Policies, steps: seq<Action>, k: IncKey)
    requires k in Run(policies, steps).db.incidents
    ensures var row := Run(policies, steps).db.incidents[k];
            Sourced(policies, steps, row.request.service, Noted(row))
  {
    RunNext(policies, steps);
    var before, last := steps[..|steps| - 1], steps[|steps| - 1];
    if k in Run(policies, before).db.incidents {
      RunSourced(policies, before, k);
    }
    StepSourced(policies, before, last, k);
    assert steps == before + [last];
    StillSourced(policies, before, [last], Run(policies, steps).db.incidents[k].request.service,
                 Noted(Run(policies, steps).db.incidents[k]));
  }

  // ------------------------------------------------------------------ results

  /** The plan of an incident was made on a diagnostic that a step told its handler, at the time the plan gives. */
  lemma PlanFromDiagnostic(policies: Policies, steps: seq<Action>, k: IncKey)
    requires k in Run(policies, steps).db.incidents && PlanOf(Run(policies, steps).db.incidents[k]).Some?
    ensures var plan := PlanOf(Run(policies, steps).db.incidents[k]).value;
            exists id, n | 0 <= n < |steps| :: steps[n] == ReadAction(id, Diagnosed(plan.diagnostic, plan.createdAt))
  {
    RunSourced(policies, steps, k);
    var plan := PlanOf(Run(policies, steps).db.incidents[k]).value;
    var id :| Told(policies, steps, id, Diagnosed(plan.diagnostic, plan.createdAt));
    var n :| ToldAt(policies, steps, n, id, Diagnosed(plan.diagnostic, plan.createdAt));
  }

  /** The time an action was acknowledged is that of a delivery of its request that was answered with a receipt. */
  lemma AcknowledgedByReceipt(policies: Policies, steps: seq<Action>, k: IncKey)
    requires k in Run(policies, steps).db.incidents
    requires Run(policies, steps).db.incidents[k].state in {VerificationQueued, Recovered}
    ensures Acknowledged(k, Run(policies, steps).db.incidents[k])
    ensures var r := Noted(Run(policies, steps).db.incidents[k]);
            exists n :: Acknowledges(policies, steps, n, ActionKey(k, r.plan.value), r.executedAt.value)
  {
    RunSourced(policies, steps, k);
    RunInv(policies, steps);
    assert IncidentOk(policies, Run(policies, steps).db, k) && RowOk(policies, Run(policies, steps).db, k);
  }

  /** A recovered incident has an approval bound to the plan of its result, made under the
      configured policy. A delivery of exactly its action was answered with a receipt. And
      two samples that a step told the handler, in order and each recent when taken, show
      the service healthy under that action, neither from before the receipt. */
  lemma RecoveryJustified(policies: Policies, steps: seq<Action>, k: IncKey)
    requires InState(Run(policies, steps).db, k, Recovered)
    ensures var w := Run(policies, steps);
            var row := w.db.incidents[k];
            && Planned(policies, k, row)
            && var r := row.result.value.resolution;
            && IsDecided(w.db, k, r.plan, Approve)
            && Recorded(w.targets, ActionKey(k, r.plan.value))
            && |r.verification| == 2 && r.verification[0].observedAt < r.verification[1].observedAt
            && (exists id, firstNow, secondNow ::
                  SampledBy(policies, steps, row.request.service, r.verification, id, firstNow, secondNow))
            && (exists n, at ::
                  && Acknowledges(policies, steps, n, ActionKey(k, r.plan.value), at)
                  && forall o | o in r.verification ::
                       at <= o.observedAt && o.healthy && o.failureCode == None
                       && o.lastAction == Some(ActionKey(k, r.plan.value)))
  {
    RecoveryRecorded(policies, steps, k);
    SamplesTold(policies, steps, k);
    var r := Noted(Run(policies, steps).db.incidents[k]);
    AcknowledgedByReceipt(policies, steps, k);
    var n :| Acknowledges(policies, steps, n, ActionKey(k, r.plan.value), r.executedAt.value);
  }

  lemma SamplesTold(policies: Policies, steps: seq<Action>, k: IncKey)
    requires InState(Run(policies, steps).db, k, Recovered)
    ensures var row := Run(policies, steps).db.incidents[k];
            exists id, firstNow, secondNow ::
              SampledBy(policies, steps, row.request.service, Noted(row).verification, id, firstNow, secondNow)
  {
    RunSourced(policies, steps, k);
    RunInv(policies, steps);
    assert IncidentOk(policies, Run(policies, steps).db, k) && RowOk(policies, Run(policies, steps).db, k);
  }
}
