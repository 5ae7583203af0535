/**
 The rows, messages and artifacts of the durable incident pipeline.

 A SHA-256 reference is modelled by the content it is the digest of (an
 injective digest), an event id by the position of its row in the append-only
 outbox (a fresh name), and an instant by a number of microseconds.
*/
module Model {

  datatype Option<+T> = None | Some(value: T)

  /** `Invalid` stands for ValueError, KeyError and TypeError; `Unavailable` for every other exception. */
  datatype Fault = Invalid | Unavailable

  datatype Result<+T> = Ok(value: T) | Err(fault: Fault)

  type Instant = int

  const SECOND: int := 1_000_000
  const MINUTE: int := 60 * SECOND
  const HOUR: int := 60 * MINUTE

  datatype AppId = AppId(tenant: string, application: string)

  datatype IncKey = IncKey(app: AppId, incident: string)

  /** A registration: the services the pipeline reads, and the rest of the configuration. */
  datatype Config = Config(services: seq<string>, settings: string)

  datatype AppState = DiscoveryQueued | ContextQueued | ContextReady | ContextBlocked

  datatype Application = Application(config: Config, state: AppState, version: nat)

  datatype IncState =
    | WaitingForContext
    | BlockedByContext
    | CollectionQueued
    | AnalysisQueued
    | Assessed
    | Failed
    | ResolutionQueued
    | AwaitingApproval
    | ExecutionQueued
    | VerificationQueued
    | Recovered
    | ResolutionRejected
    | ResolutionFailed

  datatype Request = Request(service: string, windowStart: Instant, windowEnd: Instant, origin: string)

  datatype Incident = Incident(request: Request, state: IncState, result: Option<Content>)

  datatype Baseline = Baseline(state: AppState, ref: Content)

  datatype Topic =
    | DiscoveryTopic
    | ContextTopic
    | ReadyTopic
    | BlockedTopic
    | CollectionTopic
    | AnalysisTopic
    | ResolutionTopic
    | AuthorizationTopic
    | ExecutionTopic
    | VerificationTopic

  datatype Consumer =
    | DiscoveryWorker
    | ContextWorker
    | AdmissionWorker
    | CollectionWorker
    | AnalysisWorker
    | PlanningWorker
    | AuthorizationWorker
    | ExecutionWorker
    | VerificationWorker

  /** An outbox row without its `published` flag, which `Database.published` keeps. */
  datatype Envelope = Envelope(
    topic: Topic,
    app: AppId,
    incident: Option<string>,
    refs: seq<Content>,
    version: Option<nat>,
    previous: Option<Content>,
    cause: Option<nat>)

  datatype SourceStatus = Collected | Partial | NoMatches | NotConfigured | NotApplicable | TimedOut | Unreadable

  datatype DocumentSource = DocumentSource(required: bool, status: SourceStatus)

  datatype RecordKind = Metric | Log | Trace

  datatype Record = Record(kind: RecordKind, evidenceId: string)

  /** One stored artifact; an artifact that holds a reference holds the content referred to. */
  datatype Content =
    | Manifest(sources: seq<DocumentSource>, documents: seq<string>)
    | Context(baselineReady: bool, manifest: Option<Content>, reason: string)
    | Evidence(incident: string, baseline: Content, records: seq<Record>, outcomes: seq<SourceStatus>, retained: bool)
    | Assessment(evidence: Content, findings: string, confirmedCause: Option<string>, resolution: Resolution)
    | StageFailure(cause: string, stage: Consumer)
    | Annotated(base: Option<Content>, note: Resolution)

  datatype ResolutionStatus = Blocked | Proposed | Verifying | RecoveryConfirmed | ResolutionError

  /** `diagnostic` is the observation on which a plan was refused; one that a plan was made on is in the plan. */
  datatype Resolution = Resolution(
    status: ResolutionStatus,
    diagnostic: Option<Observation>,
    plan: Option<Plan>,
    planDigest: Option<Plan>,
    actionId: Option<ActionKey>,
    executedAt: Option<Instant>,
    verification: seq<Observation>,
    failedStage: Option<Consumer>,
    outcomeUncertain: bool)

  datatype Policy = Policy(
    action: string,
    description: string,
    cause: string,
    failureCode: string,
    executionUrl: string,
    automaticUntil: Option<Instant>)

  datatype PolicyKey = PolicyKey(app: AppId, service: string)

  type Policies = map<PolicyKey, Policy>

  datatype Observation = Observation(
    service: string,
    healthy: bool,
    failureCode: Option<string>,
    observedAt: Instant,
    revision: int,
    lastAction: Option<ActionKey>)

  datatype Plan = Plan(
    service: string,
    action: string,
    policy: Policy,
    assessment: Content,
    diagnostic: Observation,
    expiresAt: Instant,
    createdAt: Instant)

  /** The idempotency key: the digest of the incident's scope and of the plan's digest. */
  datatype ActionKey = ActionKey(incident: IncKey, plan: Plan)

  datatype Decision = Approve | Reject

  datatype Authority = Operator | Preauthorized

  datatype Approval = Approval(decision: Decision, authority: Authority)

  datatype Rerun = Rerun(incident: IncKey, previousResult: Option<Content>, previousState: IncState)

  /** Registrations by application and version. */
  type Revisions = map<(AppId, nat), Config>

  datatype Database = Database(
    apps: map<AppId, Application>,
    incidents: map<IncKey, Incident>,
    baselines: map<AppId, Baseline>,
    outbox: seq<Envelope>,
    published: set<nat>,
    inbox: set<(Consumer, nat)>,
    artifacts: set<(AppId, Content)>,
    approvals: map<(IncKey, Plan), Approval>,
    runs: seq<Rerun>,
    revisions: Revisions)

  const EMPTY: Database := Database(map[], map[], map[], [], {}, {}, {}, map[], [], map[])

  // ---------------------------------------------------------------- topics

  function ConsumerOf(t: Topic): Consumer {
    match t
    case DiscoveryTopic => DiscoveryWorker
    case ContextTopic => ContextWorker
    case ReadyTopic => AdmissionWorker
    case BlockedTopic => AdmissionWorker
    case CollectionTopic => CollectionWorker
    case AnalysisTopic => AnalysisWorker
    case ResolutionTopic => PlanningWorker
    case AuthorizationTopic => AuthorizationWorker
    case ExecutionTopic => ExecutionWorker
    case VerificationTopic => VerificationWorker
  }

  predicate ApplicationTopic(t: Topic) {
    t in {DiscoveryTopic, ContextTopic, ReadyTopic, BlockedTopic}
  }

  predicate AdmissionTopic(t: Topic) {
    t == ReadyTopic || t == BlockedTopic
  }

  /** The five topics that drive an incident; authorization is answered beside them. */
  predicate StageTopic(t: Topic) {
    !ApplicationTopic(t) && t != AuthorizationTopic
  }

  /** The incident state in which a handler accepts an event of this topic. */
  function ExpectedState(t: Topic): IncState
    requires !ApplicationTopic(t)
  {
    match t
    case CollectionTopic => CollectionQueued
    case AnalysisTopic => AnalysisQueued
    case ResolutionTopic => ResolutionQueued
    case AuthorizationTopic => AwaitingApproval
    case ExecutionTopic => ExecutionQueued
    case VerificationTopic => VerificationQueued
  }

  /** The application state in which an event of this topic is accepted. */
  function ExpectedAppState(t: Topic): AppState
    requires ApplicationTopic(t)
  {
    match t
    case DiscoveryTopic => DiscoveryQueued
    case ContextTopic => ContextQueued
    case ReadyTopic => ContextReady
    case BlockedTopic => ContextBlocked
  }

  function KeyOf(e: Envelope): IncKey
    requires e.incident.Some?
  {
    IncKey(e.app, e.incident.value)
  }

  predicate Settled(s: AppState) {
    s == ContextReady || s == ContextBlocked
  }

  /** The states whose incident is moved on by a stage event. */
  predicate Queued(s: IncState) {
    s in {CollectionQueued, AnalysisQueued, ResolutionQueued, ExecutionQueued, VerificationQueued}
  }

  /** The states in which a registration must not change under an incident. */
  predicate Active(s: IncState) {
    Queued(s) || s == WaitingForContext || s == AwaitingApproval
  }

  predicate InState(db: Database, k: IncKey, s: IncState) {
    k in db.incidents && db.incidents[k].state == s
  }

  // -------------------------------------------------------------- artifacts

  function BaselineReady(c: Content): bool {
    c.Context? && c.baselineReady
  }

  function EvidenceRef(c: Content): Option<Content> {
    if c.Assessment? then Some(c.evidence) else None
  }

  const NO_RESOLUTION: Resolution :=
    Resolution(Blocked, None, None, None, None, None, [], None, false)

  function ResolutionOf(c: Content): Resolution {
    if c.Assessment? then c.resolution else if c.Annotated? then c.note else NO_RESOLUTION
  }

  /** `result["resolution"] = r` on whatever result the row holds. */
  function WithResolution(c: Option<Content>, r: Resolution): Content {
    if c.Some? && c.value.Assessment? then c.value.(resolution := r) else Annotated(c, r)
  }

  /** What the context worker derives from a discovery manifest. */
  function PrepareContext(m: Content): Content {
    var requiredOk := m.Manifest? && m.sources != [] &&
                      forall s | s in m.sources && s.required :: s.status == Collected;
    if requiredOk && m.documents != []
    then Context(true, Some(m), "")
    else Context(false, Some(m), "document_baseline_incomplete")
  }

  function PolicyKeyOf(k: IncKey, service: string): PolicyKey {
    PolicyKey(k.app, service)
  }

  predicate Live(db: Database, i: int) {
    0 <= i < |db.outbox| && (ConsumerOf(db.outbox[i].topic), i) !in db.inbox
  }

  predicate Consumed(db: Database, i: nat) {
    i < |db.outbox| && (ConsumerOf(db.outbox[i].topic), i) in db.inbox
  }
}
