/**
 Whole runs of the pipeline. A handler reads the store and asks the outside world in one step and
 commits in a later one, so a run may put any other step between the two, deliver an event any number
 of times and in any order, or never commit what was read.
*/
module Pipeline {
  import opened Model
  import opened Transactions
  import opened Executor

  /** What a handler was told by the connector it called. */
  datatype Answer =
    | Discovered(manifest: Content)
    | ContextPrepared
    | Gathered(records: seq<Record>, outcomes: seq<SourceStatus>)
    | Analysed(findings: string)
    | Diagnosed(sample: Observation, now: Instant)
    | Executed(now: Instant)
    | Sampled(first: Observation, firstNow: Instant, second: Observation, secondNow: Instant)

  /** What a handler is about to commit. */
  datatype Commit = Commit(next: IncState, result: Content, topic: Option<Topic>)

  datatype AppCommit = AppCommit(next: AppState, topic: Topic, result: Content)

  // ---------------------------------------------- what the handlers compute

  /** `observation`: recent, in scope, and not before `after`. */
  predicate Fresh(o: Observation, service: string, now: Instant, after: Option<Instant>) {
    && o.service == service
    && now - MINUTE <= o.observedAt <= now + 5 * SECOND
    && (after.Some? ==> after.value <= o.observedAt)
  }

  function AppResult(e: Envelope, answer: Answer): Result<AppCommit>
    requires ApplicationTopic(e.topic)
  {
    if e.topic == DiscoveryTopic && answer.Discovered? && answer.manifest.Manifest? then
      Ok(AppCommit(ContextQueued, ContextTopic, answer.manifest))
    else if e.topic == ContextTopic && answer.ContextPrepared? then
      if |e.refs| != 1 then Err(Invalid)
      else
        var context := PrepareContext(e.refs[0]);
        Ok(if context.baselineReady then AppCommit(ContextReady, ReadyTopic, context)
           else AppCommit(ContextBlocked, BlockedTopic, context))
    else Err(Unavailable)
  }

  function CollectionResult(e: Envelope, records: seq<Record>, outcomes: seq<SourceStatus>): Commit
    requires e.incident.Some? && |e.refs| == 1
  {
    var prior := if records == [] && e.previous.Some? then EvidenceRef(e.previous.value) else None;
    var evidence :=
      if prior.Some? && prior.value.Evidence? then
        prior.value.(incident := e.incident.value, baseline := e.refs[0], retained := true)
      else Evidence(e.incident.value, e.refs[0], records, outcomes, false);
    Commit(AnalysisQueued, evidence, Some(AnalysisTopic))
  }

  function AnalysisResult(policies: Policies, e: Envelope, service: string, findings: string): Commit
    requires e.incident.Some? && |e.refs| == 1
  {
    var result := Assessment(e.refs[0], findings, None, NO_RESOLUTION);
    if PolicyKeyOf(KeyOf(e), service) in policies then Commit(ResolutionQueued, result, Some(ResolutionTopic))
    else Commit(Assessed, result, None)
  }

  function PlanningResult(policies: Policies, e: Envelope, service: string, sample: Observation,
                          now: Instant): Result<Commit>
    requires e.incident.Some? && |e.refs| == 1
  {
    var source := e.refs[0];
    var key := PolicyKeyOf(KeyOf(e), service);
    if key !in policies || !Fresh(sample, service, now, None) then Err(Unavailable)
    else if !source.Assessment? then Err(Invalid)
    else
      var policy := policies[key];
      if sample.healthy || sample.failureCode != Some(policy.failureCode) then
        Ok(Commit(Assessed, source.(resolution := NO_RESOLUTION.(diagnostic := Some(sample))), None))
      else
        var plan := Plan(service, policy.action, policy, source, sample, now + 10 * MINUTE, now);
        var proposed := NO_RESOLUTION.(status := Proposed, plan := Some(plan), planDigest := Some(plan));
        Ok(Commit(AwaitingApproval, source.(confirmedCause := Some(policy.cause), resolution := proposed),
                  if policy.automaticUntil.Some? then Some(AuthorizationTopic) else None))
  }

  function ExecutionResult(e: Envelope, now: Instant): Result<Commit>
    requires e.incident.Some? && |e.refs| == 1
  {
    var source := e.refs[0];
    var r := ResolutionOf(source);
    if r.plan.None? then Err(Invalid)
    else
      var action := ActionKey(KeyOf(e), r.plan.value);
      var acknowledged := r.(status := Verifying, actionId := Some(action), executedAt := Some(now));
      Ok(Commit(VerificationQueued, WithResolution(Some(source), acknowledged), Some(VerificationTopic)))
  }

  predicate Recovering(o: Observation, service: string, now: Instant, r: Resolution)
    requires r.executedAt.Some?
  {
    && Fresh(o, service, now, r.executedAt)
    && o.healthy
    && o.failureCode.None?
    && o.lastAction == r.actionId
  }

  function VerificationResult(e: Envelope, service: string, first: Observation, firstNow: Instant,
                              second: Observation, secondNow: Instant): Result<Commit>
    requires e.incident.Some? && |e.refs| == 1
  {
    var source := e.refs[0];
    var r := ResolutionOf(source);
    if r.executedAt.None? || r.actionId.None? then Err(Invalid)
    else if !Recovering(first, service, firstNow, r) || !Recovering(second, service, secondNow, r)
            || second.observedAt <= first.observedAt then Err(Unavailable)
    else
      var confirmed := r.(status := RecoveryConfirmed, verification := [first, second]);
      Ok(Commit(Recovered, WithResolution(Some(source), confirmed), None))
  }

  /** What the handler of a stage event commits, from the envelope, the incident's service and the answer alone. */
  function StageResult(policies: Policies, e: Envelope, service: string, answer: Answer): Result<Commit>
    requires !ApplicationTopic(e.topic) && e.incident.Some?
  {
    if |e.refs| != 1 then Err(Invalid)
    else if e.topic == CollectionTopic && answer.Gathered? then Ok(CollectionResult(e, answer.records, answer.outcomes))
    else if e.topic == AnalysisTopic && answer.Analysed? then Ok(AnalysisResult(policies, e, service, answer.findings))
    else if e.topic == ResolutionTopic && answer.Diagnosed? then
      PlanningResult(policies, e, service, answer.sample, answer.now)
    else if e.topic == ExecutionTopic && answer.Executed? then ExecutionResult(e, answer.now)
    else if e.topic == VerificationTopic && answer.Sampled? then
      VerificationResult(e, service, answer.first, answer.firstNow, answer.second, answer.secondNow)
    else Err(Unavailable)
  }

  /** `ResolutionWorker.fail` on the result it read from the row. */
  function FailedResolution(seen: Option<Content>, stage: Consumer): Content {
    var r := if seen.Some? then ResolutionOf(seen.value) else NO_RESOLUTION;
    WithResolution(seen, r.(status := ResolutionError, failedStage := Some(stage),
                            outcomeUncertain := stage == ExecutionWorker))
  }

  // ------------------------------------------------ the handlers' read phase

  /** The evidence `IncidentStore.get` takes an incident's baseline from. */
  function ShownEvidence(row: Incident): Option<Content> {
    if row.result.None? then None
    else if EvidenceRef(row.result.value).Some? then EvidenceRef(row.result.value) else row.result
  }

  /** The baseline `IncidentStore.get` shows. */
  function ShownBaseline(db: Database, k: IncKey): Option<Content>
    requires k in db.incidents
  {
    var evidence := ShownEvidence(db.incidents[k]);
    if evidence.Some? && evidence.value.Evidence? then Some(evidence.value.baseline)
    else if k.app in db.baselines then Some(db.baselines[k.app].ref) else None
  }

  /** Everything `IncidentStore.get` loads for the row is stored. */
  predicate Loadable(db: Database, k: IncKey)
    requires k in db.incidents
  {
    var row := db.incidents[k];
    var evidence := ShownEvidence(row);
    && (row.result.Some? ==> (k.app, row.result.value) in db.artifacts)
    && (evidence.Some? ==> (k.app, evidence.value) in db.artifacts)
    && (evidence.Some? && evidence.value.Evidence? ==> (k.app, evidence.value.baseline) in db.artifacts)
  }

  function CollectionCheck(db: Database, e: Envelope): Reply
    requires e.incident.Some? && KeyOf(e) in db.incidents && |e.refs| == 1
  {
    var k := KeyOf(e);
    if db.incidents[k].state != CollectionQueued || !BaselineReady(e.refs[0])
        || ShownBaseline(db, k) != Some(e.refs[0]) then
      Refused(Invalid)
    else if k.app !in db.apps then Refused(Unavailable)
    else if e.previous.Some? && (k.app, e.previous.value) !in db.artifacts then Refused(Unavailable)
    else if e.previous.Some? && EvidenceRef(e.previous.value).Some?
            && (k.app, EvidenceRef(e.previous.value).value) !in db.artifacts then Refused(Unavailable)
    else Applied
  }

  function AnalysisCheck(db: Database, e: Envelope): Reply
    requires e.incident.Some? && KeyOf(e) in db.incidents && |e.refs| == 1
  {
    var k := KeyOf(e);
    var source := e.refs[0];
    if !source.Evidence? || source.incident != k.incident || db.incidents[k].result != Some(source) then
      Refused(Invalid)
    else if (k.app, source.baseline) !in db.artifacts then Refused(Unavailable)
    else if source.baseline.Context? && source.baseline.manifest.Some?
            && (k.app, source.baseline.manifest.value) !in db.artifacts then Refused(Unavailable)
    else Applied
  }

  function ResolutionCheck(policies: Policies, db: Database, e: Envelope): Reply
    requires e.incident.Some? && KeyOf(e) in db.incidents && |e.refs| == 1 && !ApplicationTopic(e.topic)
  {
    var k := KeyOf(e);
    var row := db.incidents[k];
    var source := e.refs[0];
    if row.state != ExpectedState(e.topic) || row.result != Some(source) then Refused(Invalid)
    else
      var key := PolicyKeyOf(k, row.request.service);
      if key !in policies || k.app !in db.apps || row.request.service !in db.apps[k.app].config.services then
        Refused(Unavailable)
      else if e.topic == ResolutionTopic then if source.Assessment? then Applied else Refused(Invalid)
      else
        var r := ResolutionOf(source);
        if r.plan.None? || r.planDigest.None? then Refused(Invalid)
        else if r.plan != r.planDigest || policies[key] != r.plan.value.policy then Refused(Unavailable)
        else if e.topic == AuthorizationTopic then Applied
        else if (k, r.plan.value) !in db.approvals || db.approvals[(k, r.plan.value)].decision != Approve then
          Refused(Unavailable)
        else Applied
  }

  /** The checks of a handler before it calls its connector; `Unchanged` when the event was consumed before. */
  function ReadCheck(policies: Policies, db: Database, id: nat): Reply
    requires id < |db.outbox| && !AdmissionTopic(db.outbox[id].topic)
  {
    var e := db.outbox[id];
    if Consumed(db, id) then Unchanged
    else if ApplicationTopic(e.topic) then
      if e.app !in db.apps then Refused(Unavailable)
      else if e.topic == DiscoveryTopic then Applied
      else if |e.refs| != 1 then Refused(Invalid)
      else if (e.app, e.refs[0]) !in db.artifacts then Refused(Unavailable)
      else Applied
    else if e.incident.None? then Refused(Invalid)
    else if KeyOf(e) !in db.incidents || !Loadable(db, KeyOf(e)) then Refused(Unavailable)
    else if |e.refs| != 1 then Refused(Invalid)
    else if (e.app, e.refs[0]) !in db.artifacts then Refused(Unavailable)
    else if e.topic == CollectionTopic then CollectionCheck(db, e)
    else if e.topic == AnalysisTopic then AnalysisCheck(db, e)
    else ResolutionCheck(policies, db, e)
  }

  /** The two clock checks made right before a repair is requested. */
  predicate InTime(db: Database, k: IncKey, plan: Plan, now: Instant)
    requires (k, plan) in db.approvals
  {
    && (db.approvals[(k, plan)].authority == Preauthorized ==>
          plan.policy.automaticUntil.Some? && now < plan.policy.automaticUntil.value)
    && now < plan.expiresAt
  }

  // -------------------------------------------------------------- the world

  datatype Task =
    | StageTask(id: nat, answer: Answer)
    | FailTask(id: nat, seen: Option<Content>, reason: string)

  /** A repair request in the air. */
  datatype Post = Post(id: nat, url: string, key: ActionKey, body: RepairBody)

  /** `approving` are the authorization events whose handler has passed its checks and will ask for approval. */
  datatype World = World(
    db: Database,
    tasks: set<Task>,
    approving: set<nat>,
    posts: set<Post>,
    targets: map<string, Target>)

  datatype Action =
    | OnboardAction(app: AppId, config: Config)
    | ReviseAction(app: AppId, version: nat, config: Config)
    | RefreshAction(app: AppId)
    | PublishAction(ids: set<nat>)
    | AdmitAction(key: IncKey, request: Request, now: Instant)
    | ReinvestigateAction(key: IncKey, expected: Option<Content>, mode: Mode)
    | DecideAction(key: IncKey, plan: Plan, decision: Decision, now: Instant)
    | ReadAction(id: nat, answer: Answer)
    | ReadFailureAction(id: nat, reason: string)
    | CommitAction(task: Task)
    | ReleaseAction(id: nat, order: seq<IncKey>)
    | ReadAuthorizationAction(id: nat)
    | AuthorizeAction(id: nat, now: Instant)
    | RequestRepairAction(id: nat, now: Instant)
    | DeliverRepairAction(post: Post, now: Instant)
    | DisturbAction(url: string, service: string, action: string, faulty: bool, revision: int)

  const INITIAL: World := World(EMPTY, {}, {}, {}, map[])

  predicate StageId(db: Database, id: nat) {
    id < |db.outbox| && StageTopic(db.outbox[id].topic) && db.outbox[id].incident.Some?
        && KeyOf(db.outbox[id]) in db.incidents
  }

  predicate OnboardingId(db: Database, id: nat) {
    id < |db.outbox| && (db.outbox[id].topic == DiscoveryTopic || db.outbox[id].topic == ContextTopic)
  }

  predicate AuthorizationId(db: Database, id: nat) {
    id < |db.outbox| && db.outbox[id].topic == AuthorizationTopic && db.outbox[id].incident.Some?
  }

  function ServiceOf(db: Database, k: IncKey): string
    requires k in db.incidents
  {
    db.incidents[k].request.service
  }

  /** What a handler, or its `fail`, asks the store to commit. */
  datatype Change = AppChange(app: AppCommit) | IncChange(incident: Commit)

  function ChangeOf(policies: Policies, db: Database, t: Task): (r: Result<Change>)
    ensures r.Ok? ==> t.id < |db.outbox|
    ensures r.Ok? ==> (r.value.AppChange? <==> ApplicationTopic(db.outbox[t.id].topic))
    ensures r.Ok? && r.value.IncChange? ==> db.outbox[t.id].incident.Some?
  {
    if OnboardingId(db, t.id) then
      var e := db.outbox[t.id];
      match t
      case StageTask(_, answer) =>
        (match AppResult(e, answer)
         case Err(f) => Err(f)
         case Ok(c) => Ok(AppChange(c)))
      case FailTask(_, _, reason) =>
        Ok(AppChange(AppCommit(ContextBlocked, BlockedTopic, Context(false, None, reason))))
    else if StageId(db, t.id) then
      var e := db.outbox[t.id];
      match t
      case StageTask(_, answer) =>
        (match StageResult(policies, e, ServiceOf(db, KeyOf(e)), answer)
         case Err(f) => Err(f)
         case Ok(c) => Ok(IncChange(c)))
      case FailTask(_, seen, reason) =>
        if e.topic == CollectionTopic || e.topic == AnalysisTopic then
          Ok(IncChange(Commit(Failed, StageFailure(reason, ConsumerOf(e.topic)), None)))
        else
          Ok(IncChange(Commit(ResolutionFailed, FailedResolution(seen, ConsumerOf(e.topic)), None)))
    else if AuthorizationId(db, t.id) && t.FailTask? then
      Ok(IncChange(Commit(ResolutionFailed, FailedResolution(t.seen, AuthorizationWorker), None)))
    else Err(Invalid)
  }

  /** The commit phase of a handler, or of its `fail`. */
  function CommitTask(policies: Policies, db: Database, t: Task): Outcome {
    match ChangeOf(policies, db, t)
    case Err(f) => Refuse(db, f)
    case Ok(AppChange(c)) => CompleteApp(db, t.id, ExpectedAppState(db.outbox[t.id].topic), c.next, c.topic, c.result)
    case Ok(IncChange(c)) => Complete(db, t.id, ExpectedState(db.outbox[t.id].topic), c.next, c.result, c.topic)
  }

  /** The authorization handler's call of `approve`, for the plan its event names: what `approve` refuses as
      invalid the handler raises as unavailable. */
  function Approved(policies: Policies, db: Database, id: nat, now: Instant): Outcome
    requires AuthorizationId(db, id)
  {
    var e := db.outbox[id];
    if |e.refs| != 1 || ResolutionOf(e.refs[0]).plan.None? then Refuse(db, Unavailable)
    else
      var o := Decide(policies, db, KeyOf(e), ResolutionOf(e.refs[0]).plan.value, Approve, Some(id), now);
      if o.reply.Refused? then Refuse(db, Unavailable) else o
  }

  /** The whole authorization handler, when nothing comes between its reads and its approval. */
  function Authorize(policies: Policies, db: Database, id: nat, now: Instant): Outcome
    requires AuthorizationId(db, id)
  {
    var check := ReadCheck(policies, db, id);
    if check != Applied then Outcome(db, check) else Approved(policies, db, id, now)
  }

  function PostFor(db: Database, id: nat): Post
    requires StageId(db, id) && |db.outbox[id].refs| == 1 && ResolutionOf(db.outbox[id].refs[0]).plan.Some?
  {
    var e := db.outbox[id];
    var plan := ResolutionOf(e.refs[0]).plan.value;
    Post(id, plan.policy.executionUrl, ActionKey(KeyOf(e), plan),
         RepairBody(plan.action, ServiceOf(db, KeyOf(e)), plan.diagnostic.revision))
  }

  /** The read phase of the execution handler, up to its request. */
  predicate RequestsRepair(policies: Policies, db: Database, id: nat, now: Instant) {
    && StageId(db, id) && db.outbox[id].topic == ExecutionTopic
    && ReadCheck(policies, db, id) == Applied
    && InTime(db, KeyOf(db.outbox[id]), ResolutionOf(db.outbox[id].refs[0]).plan.value, now)
  }

  function Deliver(w: World, post: Post, now: Instant): World {
    if post !in w.posts || post.url !in w.targets then w
    else
      var (target, reply) := Repair(w.targets[post.url], post.key, post.body);
      var answered := w.(targets := w.targets[post.url := target]);
      if reply.Receipt? && reply.service == post.body.service && reply.actionId == post.key then
        answered.(tasks := w.tasks + {StageTask(post.id, Executed(now))})
      else answered
  }

  function Disturb(w: World, url: string, service: string, action: string, faulty: bool, revision: int): World {
    if url in w.targets then
      w.(targets := w.targets[url := w.targets[url].(faulty := faulty, revision := revision)])
    else
      w.(targets := w.targets[url := Target(service, action, faulty, revision, None, [])])
  }

  /** A read phase that gets as far as an answer leaves a task behind; execution does so only with a receipt. */
  predicate Reads(policies: Policies, db: Database, id: nat, answer: Answer) {
    || (OnboardingId(db, id) && ReadCheck(policies, db, id) == Applied && AppResult(db.outbox[id], answer).Ok?)
    || (StageId(db, id) && !answer.Executed? && ReadCheck(policies, db, id) == Applied
        && StageResult(policies, db.outbox[id], ServiceOf(db, KeyOf(db.outbox[id])), answer).Ok?)
  }

  /** What `fail` reads of the row. */
  function SeenBy(db: Database, id: nat): Option<Content>
    requires id < |db.outbox|
  {
    if db.outbox[id].incident.Some? && KeyOf(db.outbox[id]) in db.incidents then
      db.incidents[KeyOf(db.outbox[id])].result
    else None
  }

  /** The database after a step. */
  ghost function NextDatabase(policies: Policies, w: World, step: Action): Outcome {
    var db := w.db;
    match step
    case OnboardAction(a, config) => Onboard(db, a, config)
    case ReviseAction(a, version, config) => Revise(db, a, version, config)
    case RefreshAction(a) => Refresh(db, a)
    case PublishAction(ids) => Outcome(Publish(db, ids), Applied)
    case AdmitAction(k, request, now) => Admit(db, k, request, now)
    case ReinvestigateAction(k, expected, mode) => Reinvestigate(db, k, expected, mode)
    case DecideAction(k, plan, decision, now) => Decide(policies, db, k, plan, decision, None, now)
    case CommitAction(task) => if task in w.tasks then CommitTask(policies, db, task) else Outcome(db, Unchanged)
    case ReleaseAction(id, order) =>
      if id < |db.outbox| && AdmissionTopic(db.outbox[id].topic) && Enumerates(order, db, db.outbox[id].app) then
        Release(db, id, order)
      else Outcome(db, Unchanged)
    case AuthorizeAction(id, now) =>
      if id in w.approving && AuthorizationId(db, id) then Approved(policies, db, id, now) else Outcome(db, Unchanged)
    case _ => Outcome(db, Unchanged)
  }

  /** The steps that are write transactions; the others only read the store, or happen outside it. */
  predicate Transactional(step: Action) {
    !step.ReadAction? && !step.ReadFailureAction? && !step.ReadAuthorizationAction?
    && !step.RequestRepairAction? && !step.DeliverRepairAction? && !step.DisturbAction?
  }

  function NextOutside(policies: Policies, w: World, step: Action): World
    requires !Transactional(step)
  {
    match step
    case ReadAction(id, answer) =>
      if Reads(policies, w.db, id, answer) then w.(tasks := w.tasks + {StageTask(id, answer)}) else w
    case ReadFailureAction(id, reason) =>
      if id < |w.db.outbox| then w.(tasks := w.tasks + {FailTask(id, SeenBy(w.db, id), reason)}) else w
    case ReadAuthorizationAction(id) =>
      if AuthorizationId(w.db, id) && ReadCheck(policies, w.db, id) == Applied then
        w.(approving := w.approving + {id})
      else w
    case RequestRepairAction(id, now) =>
      if RequestsRepair(policies, w.db, id, now) then w.(posts := w.posts + {PostFor(w.db, id)}) else w
    case DeliverRepairAction(post, now) => Deliver(w, post, now)
    case DisturbAction(url, service, action, faulty, revision) => Disturb(w, url, service, action, faulty, revision)
  }

  /** One step of a run. */
  ghost function Next(policies: Policies, w: World, step: Action): World {
    if Transactional(step) then w.(db := NextDatabase(policies, w, step).db) else NextOutside(policies, w, step)
  }

  lemma OutsideKeepsDatabase(policies: Policies, w: World, step: Action)
    requires !Transactional(step)
    ensures Next(policies, w, step).db == w.db
  {
  }

  /** The world after a run. */
  ghost function Run(policies: Policies, steps: seq<Action>): World
    decreases |steps|, 2
  {
    if steps == [] then INITIAL else Advance(policies, steps)
  }

  /** The last step of a run: a write transaction, or something outside the store. */
  ghost function Advance(policies: Policies, steps: seq<Action>): World
    requires steps != []
    decreases |steps|, 1
  {
    if Transactional(steps[|steps| - 1]) then Write(policies, steps) else Happen(policies, steps)
  }

  ghost function Write(policies: Policies, steps: seq<Action>): World
    requires steps != []
    decreases |steps|, 0
  {
    var w := Run(policies, steps[..|steps| - 1]);
    w.(db := NextDatabase(policies, w, steps[|steps| - 1]).db)
  }

  ghost function Happen(policies: Policies, steps: seq<Action>): World
    requires steps != [] && !Transactional(steps[|steps| - 1])
    decreases |steps|, 0
  {
    NextOutside(policies, Run(policies, steps[..|steps| - 1]), steps[|steps| - 1])
  }

  /** A run is its first part followed by one step. */
  lemma RunNext(policies: Policies, steps: seq<Action>)
    requires steps != []
    ensures Run(policies, steps) == Next(policies, Run(policies, steps[..|steps| - 1]), steps[|steps| - 1])
  {
    var before, step := Run(policies, steps[..|steps| - 1]), steps[|steps| - 1];
    assert Advance(policies, steps) == if Transactional(step) then Write(policies, steps) else Happen(policies, steps);
    if Transactional(step) {
      assert Write(policies, steps) == before.(db := NextDatabase(policies, before, step).db);
    } else {
      assert Happen(policies, steps) == NextOutside(policies, before, step);
    }
  }

  /** One more step. */
  lemma RunThen(policies: Policies, steps: seq<Action>, step: Action)
    ensures Run(policies, steps + [step]) == Next(policies, Run(policies, steps), step)
  {
    RunNext(policies, steps + [step]);
    assert (steps + [step])[..|steps|] == steps;
  }

  /** What was read is left to be committed. */
  lemma ReadLeaves(policies: Policies, steps: seq<Action>, id: nat, answer: Answer)
    requires Reads(policies, Run(policies, steps).db, id, answer)
    ensures var w, w' := Run(policies, steps), Run(policies, steps + [ReadAction(id, answer)]);
            w'.db == w.db && w'.targets == w.targets && StageTask(id, answer) in w'.tasks
  {
    RunThen(policies, steps, ReadAction(id, answer));
  }

  lemma FailureReadLeaves(policies: Policies, steps: seq<Action>, id: nat, reason: string)
    requires id < |Run(policies, steps).db.outbox|
    ensures var w, w' := Run(policies, steps), Run(policies, steps + [ReadFailureAction(id, reason)]);
            w'.db == w.db && FailTask(id, SeenBy(w.db, id), reason) in w'.tasks
  {
    RunThen(policies, steps, ReadFailureAction(id, reason));
  }

  /** A task that is there commits. */
  lemma TaskCommits(policies: Policies, steps: seq<Action>, task: Task)
    requires task in Run(policies, steps).tasks
    ensures var w, w' := Run(policies, steps), Run(policies, steps + [CommitAction(task)]);
            w'.db == CommitTask(policies, w.db, task).db && w'.targets == w.targets
  {
    RunThen(policies, steps, CommitAction(task));
  }

  /** A worker that gives up on an event: it reads the row, and commits the failure. */
  lemma GivingUp(policies: Policies, steps: seq<Action>, id: nat, reason: string)
    requires id < |Run(policies, steps).db.outbox|
    ensures var db := Run(policies, steps).db;
            var task := FailTask(id, SeenBy(db, id), reason);
            var giving := [ReadFailureAction(id, reason), CommitAction(task)];
            Run(policies, steps + giving).db == CommitTask(policies, db, task).db
  {
    var read := ReadFailureAction(id, reason);
    var task := FailTask(id, SeenBy(Run(policies, steps).db, id), reason);
    FailureReadLeaves(policies, steps, id, reason);
    TaskCommits(policies, steps + [read], task);
    assert steps + [read] + [CommitAction(task)] == steps + [read, CommitAction(task)];
  }

  /** A handler reads with an answer that leads to a commit, and commits. */
  lemma Handling(policies: Policies, steps: seq<Action>, id: nat, answer: Answer) returns (longer: seq<Action>)
    requires Reads(policies, Run(policies, steps).db, id, answer)
    ensures longer == steps + [ReadAction(id, answer), CommitAction(StageTask(id, answer))]
    ensures Run(policies, longer).db == CommitTask(policies, Run(policies, steps).db, StageTask(id, answer)).db
    ensures Run(policies, longer).targets == Run(policies, steps).targets
  {
    var read, task := ReadAction(id, answer), StageTask(id, answer);
    ReadLeaves(policies, steps, id, answer);
    TaskCommits(policies, steps + [read], task);
    longer := steps + [read, CommitAction(task)];
    assert steps + [read] + [CommitAction(task)] == longer;
  }
}
