/**
 What every reachable database satisfies, one predicate per application and one per incident, and the
 frame lemmas that carry those predicates over a change elsewhere.
*/
module Invariants {
  import opened Model
  import opened Transactions

  // -------------------------------------------------------------- structure

  ghost predicate WellFormedEvent(db: Database, e: Envelope) {
    && e.app in db.apps
    && (ApplicationTopic(e.topic) <==> e.incident.None?)
    && (e.incident.Some? ==> KeyOf(e) in db.incidents)
    && (e.topic != DiscoveryTopic ==> |e.refs| == 1)
    && RefsStored(db, e.app, e.refs)
    && (e.previous.Some? ==> (e.app, e.previous.value) in db.artifacts)
    && (e.version.Some? ==> e.version.value <= db.apps[e.app].version)
    && (ApplicationTopic(e.topic) && e.topic != DiscoveryTopic ==> e.version.Some?)
    && (AdmissionTopic(e.topic) ==> e.refs[0].Context? && BaselineReady(e.refs[0]) == (e.topic == ReadyTopic))
    && (e.topic == ContextTopic ==> e.refs[0].Manifest?)
  }

  ghost predicate WellFormedEvents(db: Database) {
    forall i {:trigger WellFormedEvent(db, db.outbox[i])} | 0 <= i < |db.outbox| :: WellFormedEvent(db, db.outbox[i])
  }

  ghost predicate WellFormedRows(db: Database) {
    && (forall k | k in db.incidents :: k.app in db.apps)
    && db.baselines.Keys <= db.apps.Keys
    && (forall c, i | (c, i) in db.inbox :: i < |db.outbox| && c == ConsumerOf(db.outbox[i].topic))
  }

  // -------------------------------------------------------------- artifacts

  /** The manifest names a source and a document, and every required source was collected. */
  predicate FullyCollected(m: Content) {
    && m.Manifest? && m.sources != [] && m.documents != []
    && forall s | s in m.sources && s.required :: s.status == Collected
  }

  /** Whatever a stored artifact refers to is stored in the same application, down to the manifest. */
  ghost predicate SoundArtifact(arts: set<(AppId, Content)>, a: AppId, c: Content) {
    match c
    case Manifest(_, _) => true
    case Context(ready, manifest, _) =>
      && (manifest.Some? ==> (a, manifest.value) in arts)
      && (ready ==> manifest.Some? && FullyCollected(manifest.value))
    case Evidence(_, baseline, _, _, _) => BaselineReady(baseline) && (a, baseline) in arts
    case Assessment(evidence, _, _, r) =>
      && evidence.Evidence? && (a, evidence) in arts
      && (r.plan.Some? ==> (a, r.plan.value.assessment) in arts)
    case StageFailure(_, _) => true
    case Annotated(_, _) => false
  }

  ghost predicate ArtifactsSound(arts: set<(AppId, Content)>) {
    forall a, c {:trigger SoundArtifact(arts, a, c)} | (a, c) in arts :: SoundArtifact(arts, a, c)
  }

  /** An assessment of the evidence of this incident. */
  predicate OwnAssessment(k: IncKey, c: Content) {
    c.Assessment? && c.evidence.Evidence? && c.evidence.incident == k.incident
  }

  ghost predicate RerunsSound(db: Database) {
    forall i | 0 <= i < |db.runs| && db.runs[i].previousResult.Some? ::
      var c := db.runs[i].previousResult.value;
      (db.runs[i].incident.app, c) in db.artifacts && (c.Assessment? ==> OwnAssessment(db.runs[i].incident, c))
  }

  // ----------------------------------------------------------- applications

  /** A pending event of the application at its present version. */
  predicate Current(db: Database, a: AppId, i: int) {
    && a in db.apps
    && PendingAppEvent(db, a, i)
    && (db.outbox[i].version.None? || db.outbox[i].version.value == db.apps[a].version)
  }

  /** What a pending event of the present version says about the application. */
  ghost predicate CurrentOk(db: Database, a: AppId, e: Envelope)
    requires a in db.apps && ApplicationTopic(e.topic)
  {
    && a !in db.baselines
    && db.apps[a].state == ExpectedAppState(e.topic)
  }

  ghost predicate BaselineOk(db: Database, a: AppId)
    requires a in db.apps
  {
    a in db.baselines ==>
      && Settled(db.apps[a].state)
      && db.baselines[a].state == db.apps[a].state
      && db.baselines[a].ref.Context?
      && BaselineReady(db.baselines[a].ref) == (db.apps[a].state == ContextReady)
      && (a, db.baselines[a].ref) in db.artifacts
  }

  ghost predicate AppOk(db: Database, a: AppId)
    requires a in db.apps
  {
    && (a !in db.baselines ==> exists i :: Current(db, a, i))
    && (forall i | Current(db, a, i) :: CurrentOk(db, a, db.outbox[i]))
    && (forall i, j | Current(db, a, i) && Current(db, a, j) :: i == j)
    && (forall i | PendingAppEvent(db, a, i) :: Current(db, a, i) || AdmissionTopic(db.outbox[i].topic))
    && BaselineOk(db, a)
  }

  // -------------------------------------------------------------- incidents

  /** A stage event of the incident that its consumer has not recorded. */
  predicate StageEvent(db: Database, k: IncKey, i: int) {
    Live(db, i) && StageTopic(db.outbox[i].topic) && db.outbox[i].incident.Some? && KeyOf(db.outbox[i]) == k
  }

  /** The row is in the state the event is for and expects exactly the event's reference. */
  ghost predicate AtStage(db: Database, k: IncKey, e: Envelope)
    requires k in db.incidents && StageTopic(e.topic)
  {
    var row := db.incidents[k];
    && row.state == ExpectedState(e.topic)
    && |e.refs| == 1
    && (if e.topic == CollectionTopic then
          row.result.None? && k.app in db.baselines && db.baselines[k.app].ref == e.refs[0] && BaselineReady(e.refs[0])
        else row.result == Some(e.refs[0]))
  }

  ghost predicate StageOk(db: Database, k: IncKey)
    requires k in db.incidents
  {
    && (forall i | StageEvent(db, k, i) :: AtStage(db, k, db.outbox[i]))
    && (forall i, j | StageEvent(db, k, i) && StageEvent(db, k, j) :: i == j)
    && (Queued(db.incidents[k].state) ==> exists i :: StageEvent(db, k, i))
  }

  /** The incident waits only while nothing has told its application's
      outcome, and keeps its service registered while active. */
  ghost predicate ScopeOk(db: Database, k: IncKey)
    requires k in db.incidents
  {
    var row := db.incidents[k];
    && k.app in db.apps
    && (row.state == WaitingForContext ==> k.app !in db.baselines)
    && (Active(row.state) ==> row.request.service in db.apps[k.app].config.services)
  }

  function PlanOf(row: Incident): Option<Plan> {
    if row.result.Some? && row.result.value.Assessment? then row.result.value.resolution.plan else None
  }

  /** The states after a plan was proposed, or after planning failed: no reinvestigation starts from them. */
  predicate Late(s: IncState) {
    s in {AwaitingApproval, ExecutionQueued, VerificationQueued, Recovered, ResolutionRejected, ResolutionFailed}
  }

  /** The states an incident whose plan was approved can be in. */
  predicate Committed(row: Incident) {
    || row.state in {ExecutionQueued, VerificationQueued, Recovered}
    || (row.state == ResolutionFailed && row.result.Some?
        && ResolutionOf(row.result.value).failedStage in {Some(ExecutionWorker), Some(VerificationWorker)})
  }

  /** The plan answers a fresh diagnostic of its service that shows
      the failure its policy is for, and holds for ten minutes. */
  predicate Diagnosed(plan: Plan) {
    && plan.diagnostic.service == plan.service
    && !plan.diagnostic.healthy && plan.diagnostic.failureCode == Some(plan.policy.failureCode)
    && plan.createdAt - MINUTE <= plan.diagnostic.observedAt <= plan.createdAt + 5 * SECOND
    && plan.expiresAt == plan.createdAt + 10 * MINUTE
  }

  /** The result proposes one plan, made under the configured policy of the incident's service. */
  predicate Planned(policies: Policies, k: IncKey, row: Incident) {
    && row.result.Some? && row.result.value.Assessment?
    && var r := row.result.value.resolution;
    && r.plan.Some? && r.planDigest == r.plan
    && var plan := r.plan.value;
    && plan.service == row.request.service
    && PolicyKeyOf(k, plan.service) in policies
    && plan.policy == policies[PolicyKeyOf(k, plan.service)]
    && plan.action == plan.policy.action
    && Diagnosed(plan)
  }

  /** The result names the incident's own action and when it was acknowledged. */
  predicate Acknowledged(k: IncKey, row: Incident) {
    && row.result.Some? && row.result.value.Assessment?
    && var r := row.result.value.resolution;
    r.plan.Some? && r.actionId == Some(ActionKey(k, r.plan.value)) && r.executedAt.Some?
  }

  /** Two healthy samples in order, neither before the acknowledgement, both naming the incident's action. */
  predicate RecoverySampled(k: IncKey, row: Incident) {
    && Acknowledged(k, row)
    && var r := row.result.value.resolution;
    && r.status == RecoveryConfirmed
    && |r.verification| == 2
    && (forall o | o in r.verification ::
          o.healthy && o.failureCode.None? && o.service == row.request.service
          && r.executedAt.value <= o.observedAt && o.lastAction == r.actionId)
    && r.verification[0].observedAt < r.verification[1].observedAt
  }

  predicate FailureOk(policies: Policies, k: IncKey, row: Incident) {
    && row.result.Some?
    && var r := ResolutionOf(row.result.value);
    && r.failedStage.Some?
    && r.failedStage.value in {PlanningWorker, AuthorizationWorker, ExecutionWorker, VerificationWorker}
    && r.outcomeUncertain == (r.failedStage.value == ExecutionWorker)
    && (if r.failedStage.value == PlanningWorker then r.plan.None? else Planned(policies, k, row))
    && (r.failedStage.value == VerificationWorker ==> Acknowledged(k, row))
  }

  predicate HasAssessment(k: IncKey, row: Incident) {
    row.result.Some? && OwnAssessment(k, row.result.value)
  }

  predicate HasEvidence(k: IncKey, row: Incident) {
    row.result.Some? && row.result.value.Evidence? && row.result.value.incident == k.incident
  }

  /** What the row of an incident holds in each of its states. */
  predicate RowShape(policies: Policies, k: IncKey, row: Incident) {
    && (row.state in {WaitingForContext, BlockedByContext, CollectionQueued} ==> row.result.None?)
    && (row.state == AnalysisQueued ==> HasEvidence(k, row))
    && (row.state == Failed ==> row.result.Some? && row.result.value.StageFailure?)
    && (row.state in {Assessed, ResolutionQueued} || Late(row.state) ==> HasAssessment(k, row))
    && (row.state == ResolutionQueued ==> PlanOf(row).None? && PolicyKeyOf(k, row.request.service) in policies)
    && (Late(row.state) && row.state != ResolutionFailed ==> Planned(policies, k, row))
    && (row.state in {VerificationQueued, Recovered} ==> Acknowledged(k, row))
    && (row.state == Recovered ==> RecoverySampled(k, row))
    && (row.state == ResolutionFailed ==> FailureOk(policies, k, row))
  }

  ghost predicate RowOk(policies: Policies, db: Database, k: IncKey)
    requires k in db.incidents
  {
    && (db.incidents[k].result.Some? ==> (k.app, db.incidents[k].result.value) in db.artifacts)
    && RowShape(policies, k, db.incidents[k])
  }

  /** An approval row names the one plan of its incident and says what became of it. */
  ghost predicate DecisionsOk(db: Database, k: IncKey)
    requires k in db.incidents
  {
    var row := db.incidents[k];
    && (forall plan | (k, plan) in db.approvals ::
          && PlanOf(row) == Some(plan)
          && (db.approvals[(k, plan)].decision == Approve ==> Committed(row))
          && (db.approvals[(k, plan)].decision == Reject ==> row.state == ResolutionRejected))
    && (Committed(row) ==> IsDecided(db, k, PlanOf(row), Approve))
    && (row.state == ResolutionRejected ==> IsDecided(db, k, PlanOf(row), Reject))
  }

  predicate IsDecided(db: Database, k: IncKey, plan: Option<Plan>, d: Decision) {
    plan.Some? && (k, plan.value) in db.approvals && db.approvals[(k, plan.value)].decision == d
  }

  /** An event of the incident, consumed or not. */
  predicate EventOf(db: Database, k: IncKey, t: Topic, i: int) {
    0 <= i < |db.outbox| && db.outbox[i].topic == t && db.outbox[i].incident.Some? && KeyOf(db.outbox[i]) == k
  }

  function EventPlan(e: Envelope): Option<Plan> {
    if |e.refs| == 1 && e.refs[0].Assessment? then e.refs[0].resolution.plan else None
  }

  /** The event asks for the row's plan, and while the row waits for it names exactly the row's result. */
  predicate AsksFor(row: Incident, e: Envelope) {
    && Late(row.state) && EventPlan(e).Some? && EventPlan(e) == PlanOf(row)
    && (row.state == AwaitingApproval ==> row.result == Some(e.refs[0]))
  }

  /** Authorization, execution and verification events are bound to the incident's plan; execution is requested once. */
  ghost predicate LateEventsOk(db: Database, k: IncKey)
    requires k in db.incidents
  {
    && (forall i | EventOf(db, k, AuthorizationTopic, i) :: AsksFor(db.incidents[k], db.outbox[i]))
    && (forall i | EventOf(db, k, ExecutionTopic, i) :: IsDecided(db, k, EventPlan(db.outbox[i]), Approve))
    && (forall i | EventOf(db, k, VerificationTopic, i) :: IsDecided(db, k, EventPlan(db.outbox[i]), Approve))
    && (forall i, j | EventOf(db, k, ExecutionTopic, i) && EventOf(db, k, ExecutionTopic, j) :: i == j)
  }

  ghost predicate IncidentOk(policies: Policies, db: Database, k: IncKey)
    requires k in db.incidents
  {
    && StageOk(db, k)
    && ScopeOk(db, k)
    && RowOk(policies, db, k)
    && DecisionsOk(db, k)
    && LateEventsOk(db, k)
  }

  ghost predicate Inv(policies: Policies, db: Database) {
    && WellFormedEvents(db)
    && WellFormedRows(db)
    && ArtifactsSound(db.artifacts)
    && RerunsSound(db)
    && (forall a {:trigger AppOk(db, a)} | a in db.apps :: AppOk(db, a))
    && (forall k {:trigger IncidentOk(policies, db, k)} | k in db.incidents :: IncidentOk(policies, db, k))
    && (forall k, plan | (k, plan) in db.approvals :: k in db.incidents)
  }

  // ----------------------------------------------------------------- frames

  /** Tables only grow, and what identifies a row in them stays. */
  ghost predicate Extends(db: Database, db': Database) {
    && db.outbox <= db'.outbox
    && db.inbox <= db'.inbox
    && db.artifacts <= db'.artifacts
    && db.published <= db'.published
    && db.runs <= db'.runs
    && (forall k | k in db.incidents :: k in db'.incidents && db'.incidents[k].request == db.incidents[k].request)
    && (forall a | a in db.apps :: a in db'.apps && db.apps[a].version <= db'.apps[a].version)
    && (forall d | d in db.approvals :: d in db'.approvals && db'.approvals[d] == db.approvals[d])
    && (forall r | r in db.revisions :: r in db'.revisions && db'.revisions[r] == db.revisions[r])
  }

  /** Nothing changed that `IncidentOk` of `k` rests on in its present state. */
  ghost predicate SameIncident(db: Database, db': Database, k: IncKey) {
    && k in db.incidents && k in db'.incidents && db'.incidents[k] == db.incidents[k]
    && var row := db.incidents[k];
    && k.app in db'.apps
    && (Active(row.state) ==> row.request.service in db'.apps[k.app].config.services)
    && (row.state == WaitingForContext ==> k.app !in db'.baselines)
    && (Queued(row.state) && k.app in db.baselines ==>
          k.app in db'.baselines && db'.baselines[k.app] == db.baselines[k.app])
    && (forall i | |db.outbox| <= i < |db'.outbox| && db'.outbox[i].incident.Some? :: KeyOf(db'.outbox[i]) != k)
    && (forall i | StageEvent(db, k, i) && i < |db'.outbox| :: Live(db', i))
    && (forall plan | (k, plan) in db'.approvals :: (k, plan) in db.approvals)
  }

  /** Nothing that `AppOk` of `a` speaks of changed. */
  ghost predicate SameApp(db: Database, db': Database, a: AppId) {
    && a in db.apps && a in db'.apps && db'.apps[a] == db.apps[a]
    && (a in db.baselines <==> a in db'.baselines)
    && (a in db.baselines ==> db'.baselines[a] == db.baselines[a])
    && (forall i | |db.outbox| <= i < |db'.outbox| && ApplicationTopic(db'.outbox[i].topic) :: db'.outbox[i].app != a)
    && (forall i | PendingAppEvent(db, a, i) && i < |db'.outbox| :: Live(db', i))
  }

  /** How far an incident with a plan has come. */
  function LateRank(s: IncState): nat {
    match s
    case AwaitingApproval => 1
    case ExecutionQueued => 2
    case VerificationQueued => 3
    case _ => if Late(s) then 4 else 0
  }

  /** An incident with a plan only moves forward, under the same plan; an approved one stays approved. */
  predicate Progress(row: Incident, row': Incident) {
    row' == row
    || ((Late(row.state) ==>
           Late(row'.state) && LateRank(row.state) < LateRank(row'.state) && PlanOf(row') == PlanOf(row))
        && (Committed(row) ==> Committed(row')))
  }

  ghost predicate Progresses(db: Database, db': Database) {
    forall k {:trigger db'.incidents[k]} | k in db.incidents ::
      k in db'.incidents && Progress(db.incidents[k], db'.incidents[k])
  }

  /** What every write transaction ensures of the database it leaves. */
  ghost predicate Lawful(policies: Policies, db: Database, db': Database) {
    Inv(policies, db') && Extends(db, db') && Progresses(db, db')
  }

  lemma FrameStage(db: Database, db': Database, k: IncKey)
    requires Extends(db, db') && SameIncident(db, db', k) && StageOk(db, k)
    ensures StageOk(db', k)
  {
    forall i | StageEvent(db', k, i) ensures StageEvent(db, k, i) && AtStage(db, k, db.outbox[i]) {
    }
    if Queued(db.incidents[k].state) {
      var i :| StageEvent(db, k, i);
      assert StageEvent(db', k, i);
    }
  }

  lemma FrameIncident(policies: Policies, db: Database, db': Database, k: IncKey)
    requires Extends(db, db') && SameIncident(db, db', k) && IncidentOk(policies, db, k)
    ensures IncidentOk(policies, db', k)
  {
    FrameStage(db, db', k);
    FrameLateEvents(db, db', k);
  }

  lemma FrameLateEvents(db: Database, db': Database, k: IncKey)
    requires Extends(db, db') && SameIncident(db, db', k) && LateEventsOk(db, k)
    ensures LateEventsOk(db', k)
  {
    forall i, t | EventOf(db', k, t, i) ensures EventOf(db, k, t, i) && db'.outbox[i] == db.outbox[i] {
    }
  }

  lemma FrameApp(db: Database, db': Database, a: AppId)
    requires Extends(db, db') && SameApp(db, db', a) && AppOk(db, a)
    ensures AppOk(db', a)
  {
    forall i | PendingAppEvent(db', a, i) ensures PendingAppEvent(db, a, i) && db'.outbox[i] == db.outbox[i] {
    }
    if a !in db.baselines {
      var i :| Current(db, a, i);
      assert Current(db', a, i);
    }
  }

  /** Events of the database before stay well formed; only the new ones have to be looked at. */
  lemma FrameEvents(db: Database, db': Database)
    requires Extends(db, db') && WellFormedEvents(db)
    requires forall i | |db.outbox| <= i < |db'.outbox| :: WellFormedEvent(db', db'.outbox[i])
    ensures WellFormedEvents(db')
  {
    forall i | 0 <= i < |db'.outbox| ensures WellFormedEvent(db', db'.outbox[i]) {
      if i < |db.outbox| {
        assert WellFormedEvent(db, db.outbox[i]);
      }
    }
  }

  lemma StoreArtifact(arts: set<(AppId, Content)>, a: AppId, c: Content)
    requires ArtifactsSound(arts) && SoundArtifact(arts, a, c)
    ensures ArtifactsSound(arts + {(a, c)})
  {
    forall b, d | (b, d) in arts + {(a, c)} ensures SoundArtifact(arts + {(a, c)}, b, d) {
      if (b, d) != (a, c) {
        assert SoundArtifact(arts, b, d);
      }
    }
  }
}
