/**
 The write transactions of the pipeline as functions on the database:
 what each one checks, in order, and the database it leaves. A
 transaction that raises or returns False leaves the database as it was.
*/
module Transactions {
  import opened Model

  datatype Reply = Applied | Unchanged | Refused(fault: Fault)

  datatype Outcome = Outcome(db: Database, reply: Reply)

  function Refuse(db: Database, f: Fault): Outcome {
    Outcome(db, Refused(f))
  }

  // ------------------------------------------------------------ row changes

  /** One incident row, what was consumed, stored and sent with it: every incident transaction has this shape. */
  function Move(db: Database, k: IncKey, row: Incident, consumed: set<(Consumer, nat)>,
                stored: set<(AppId, Content)>, sent: seq<Envelope>): Database
  {
    db.(incidents := db.incidents[k := row], inbox := db.inbox + consumed,
        artifacts := db.artifacts + stored, outbox := db.outbox + sent)
  }

  /** One application row, what was consumed, stored and sent with it. */
  function MoveApp(db: Database, a: AppId, row: Application, consumed: set<(Consumer, nat)>,
                   stored: set<(AppId, Content)>, sent: seq<Envelope>): Database
  {
    db.(apps := db.apps[a := row], inbox := db.inbox + consumed,
        artifacts := db.artifacts + stored, outbox := db.outbox + sent)
  }

  /** `IncidentStore.emit`: a collection request also names the last result of the row it is sent for. */
  function Emit(k: IncKey, row: Incident, topic: Topic, ref: Content, cause: Option<nat>): Envelope {
    Envelope(topic, k.app, Some(k.incident), [ref], None,
             if topic == CollectionTopic then row.result else None, cause)
  }

  function AppEvent(a: AppId, topic: Topic, refs: seq<Content>, version: Option<nat>, cause: Option<nat>): Envelope {
    Envelope(topic, a, None, refs, version, None, cause)
  }

  predicate RefsStored(db: Database, a: AppId, refs: seq<Content>) {
    forall r | r in refs :: (a, r) in db.artifacts
  }

  // ----------------------------------------------------------- applications

  function Onboard(db: Database, a: AppId, config: Config): Outcome {
    if a.tenant == "" || a.application == "" then Refuse(db, Invalid)
    else if a in db.apps then
      if db.apps[a].config != config then Refuse(db, Invalid) else Outcome(db, Unchanged)
    else
      Outcome(MoveApp(db, a, Application(config, DiscoveryQueued, 1), {}, {},
                      [AppEvent(a, DiscoveryTopic, [], None, None)]),
              Applied)
  }

  /** The checks of `Handoff.complete` before it writes. */
  function AppStageCheck(db: Database, id: nat, expected: AppState): Reply
    requires id < |db.outbox|
  {
    var e := db.outbox[id];
    if e.app !in db.apps then Refused(Unavailable)
    else if Consumed(db, id) then Unchanged
    else if e.version.Some? && e.version.value != db.apps[e.app].version then Refused(Invalid)
    else if db.apps[e.app].state != expected then Refused(Invalid)
    else if !RefsStored(db, e.app, e.refs) then Refused(Invalid)
    else Applied
  }

  /** `Handoff.complete`: commit an application stage for event `id`. */
  function CompleteApp(db: Database, id: nat, expected: AppState, next: AppState, topic: Topic,
                       result: Content): Outcome
    requires id < |db.outbox|
  {
    var reply := AppStageCheck(db, id, expected);
    if reply != Applied then Outcome(db, reply)
    else
      var e := db.outbox[id];
      var version := db.apps[e.app].version + 1;
      Outcome(MoveApp(db, e.app, db.apps[e.app].(state := next, version := version),
                      {(ConsumerOf(e.topic), id)}, {(e.app, result)},
                      [AppEvent(e.app, topic, [result], Some(version), Some(id))]),
              Applied)
  }

  /** An event of the application that its consumer has not recorded. */
  predicate PendingAppEvent(db: Database, a: AppId, i: int) {
    Live(db, i) && ApplicationTopic(db.outbox[i].topic) && db.outbox[i].app == a
  }

  predicate HasPendingAppEvent(db: Database, a: AppId) {
    exists i | 0 <= i < |db.outbox| :: PendingAppEvent(db, a, i)
  }

  predicate HasIncidentIn(db: Database, a: AppId, states: set<IncState>) {
    exists k | k in db.incidents :: k.app == a && db.incidents[k].state in states
  }

  const ACTIVE: set<IncState> :=
    {CollectionQueued, AnalysisQueued, WaitingForContext, ResolutionQueued, AwaitingApproval, ExecutionQueued,
        VerificationQueued}

  function WithRevision(revisions: Revisions, a: AppId, version: nat, config: Config): Revisions {
    if (a, version) in revisions then revisions else revisions[(a, version) := config]
  }

  /** `revise`: replace a registration that no work depends on, and start discovery again. */
  function Revise(db: Database, a: AppId, expectedVersion: nat, config: Config): Outcome {
    if a !in db.apps then Refuse(db, Unavailable)
    else
      var row := db.apps[a];
      if row.version != expectedVersion then Refuse(db, Invalid)
      else if row.config == config then Outcome(db, Unchanged)
      else if !Settled(row.state) then Refuse(db, Invalid)
      else if HasIncidentIn(db, a, ACTIVE) then Refuse(db, Invalid)
      else if HasPendingAppEvent(db, a) then Refuse(db, Invalid)
      else
        var next := row.version + 1;
        var before := WithRevision(db.revisions, a, row.version, row.config);
        Outcome(MoveApp(db.(revisions := WithRevision(before, a, next, config), baselines := db.baselines - {a}),
                        a, Application(config, DiscoveryQueued, next), {}, {},
                        [AppEvent(a, DiscoveryTopic, [], Some(next), None)]),
                Applied)
  }

  predicate HasUnpublishedEvent(db: Database, a: AppId) {
    exists i | 0 <= i < |db.outbox| :: i !in db.published && db.outbox[i].app == a
  }

  /** `refresh_documents`: drop the baseline and start discovery again under the same registration. */
  function Refresh(db: Database, a: AppId): Outcome {
    if a !in db.apps then Refuse(db, Unavailable)
    else
      var row := db.apps[a];
      if !Settled(row.state) then Refuse(db, Invalid)
      else if HasIncidentIn(db, a, ACTIVE - {WaitingForContext}) then Refuse(db, Invalid)
      else if HasUnpublishedEvent(db, a) then Refuse(db, Invalid)
      else
        Outcome(MoveApp(db.(baselines := db.baselines - {a}), a,
                        row.(state := DiscoveryQueued, version := row.version + 1),
                        {}, {}, [AppEvent(a, DiscoveryTopic, [], None, None)]),
                Applied)
  }

  /** The publisher confirmed these rows. */
  function Publish(db: Database, ids: set<nat>): Database {
    db.(published := db.published + set i | i in ids && i < |db.outbox|)
  }

  // -------------------------------------------------------------- incidents

  function Admit(db: Database, k: IncKey, request: Request, now: Instant): Outcome {
    if k.incident == "" || request.service == "" || request.windowEnd <= request.windowStart
       || request.windowEnd - request.windowStart > 24 * HOUR then Refuse(db, Invalid)
    else if request.windowEnd > now + 5 * MINUTE then Refuse(db, Invalid)
    else if k.app !in db.apps then Refuse(db, Unavailable)
    else if request.service !in db.apps[k.app].config.services then Refuse(db, Invalid)
    else if k in db.incidents then
      if db.incidents[k].request != request then Refuse(db, Invalid) else Outcome(db, Unchanged)
    else
      var state := if k.app !in db.baselines then WaitingForContext
                   else if db.baselines[k.app].state == ContextReady then CollectionQueued else BlockedByContext;
      var row := Incident(request, state, None);
      var sent := if state == CollectionQueued
                  then [Emit(k, row, CollectionTopic, db.baselines[k.app].ref, None)] else [];
      Outcome(Move(db, k, row, {}, {}, sent), Applied)
  }

  datatype Mode = Recollect | Reanalyze | Unsupported

  /** The stored evidence has no trace and one of its sources matched nothing. */
  predicate Sparse(c: Content) {
    c.Evidence? && (forall r | r in c.records :: r.kind != Trace) && NoMatches in c.outcomes
  }

  function RecordsOf(c: Content): seq<Record> {
    if c.Evidence? then c.records else []
  }

  /** The evidence of the latest of the first `n` reruns of `k` whose evidence has records, if any. */
  function PriorEvidence(db: Database, k: IncKey, n: nat): Result<Option<Content>>
    requires n <= |db.runs|
  {
    if n == 0 then Ok(None)
    else
      var run := db.runs[n - 1];
      if run.incident != k || run.previousResult.None? then PriorEvidence(db, k, n - 1)
      else if (k.app, run.previousResult.value) !in db.artifacts then Err(Unavailable)
      else
        var ref := EvidenceRef(run.previousResult.value);
        if ref.None? then PriorEvidence(db, k, n - 1)
        else if (k.app, ref.value) !in db.artifacts then Err(Unavailable)
        else if RecordsOf(ref.value) != [] then Ok(ref)
        else PriorEvidence(db, k, n - 1)
  }

  /** The evidence a reanalysis of the row starts from. */
  function StoredEvidence(db: Database, k: IncKey, row: Incident): Result<Content> {
    if row.result.None? then Err(Invalid)
    else if (k.app, row.result.value) !in db.artifacts then Err(Unavailable)
    else
      var ref := EvidenceRef(row.result.value);
      if ref.None? then Err(Invalid)
      else if (k.app, ref.value) !in db.artifacts then Err(Unavailable)
      else if !Sparse(ref.value) then Ok(ref.value)
      else
        match PriorEvidence(db, k, |db.runs|)
        case Err(f) => Err(f)
        case Ok(None) => Ok(ref.value)
        case Ok(Some(prior)) => Ok(prior)
  }

  /** The investigation is over as the caller saw it, and its service and context still allow another round. */
  predicate Restartable(db: Database, k: IncKey, expected: Option<Content>)
    requires k.app in db.apps && k in db.incidents
  {
    var row := db.incidents[k];
    && row.result == expected
    && row.state in {Assessed, Failed, BlockedByContext}
    && row.request.service in db.apps[k.app].config.services
    && db.apps[k.app].state == ContextReady
    && k.app in db.baselines && db.baselines[k.app].state == ContextReady
  }

  function Reinvestigate(db: Database, k: IncKey, expected: Option<Content>, mode: Mode): Outcome {
    if k.app !in db.apps || k !in db.incidents then Refuse(db, Unavailable)
    else
      var row := db.incidents[k];
      if !Restartable(db, k, expected) then Refuse(db, Invalid)
      else if mode == Unsupported then Refuse(db, Invalid)
      else
        var logged := db.(runs := db.runs + [Rerun(k, row.result, row.state)]);
        if mode == Recollect then
          Outcome(Move(logged, k, row.(state := CollectionQueued, result := None), {}, {},
                       [Emit(k, row, CollectionTopic, db.baselines[k.app].ref, None)]),
                  Applied)
        else
          match StoredEvidence(db, k, row)
          case Err(f) => Refuse(db, f)
          case Ok(evidence) =>
            Outcome(Move(logged, k, row.(state := AnalysisQueued, result := Some(evidence)), {}, {},
                         [Emit(k, row, AnalysisTopic, evidence, None)]),
                    Applied)
  }

  /** The checks of `IncidentStore.complete` before it writes. */
  function StageCheck(db: Database, id: nat, expected: IncState): Reply
    requires id < |db.outbox| && db.outbox[id].incident.Some?
  {
    var e := db.outbox[id];
    var k := KeyOf(e);
    if k.app !in db.apps then Refused(Unavailable)
    else if Consumed(db, id) then Unchanged
    else if k !in db.incidents then Refused(Unavailable)
    else if db.incidents[k].state != expected then Refused(Invalid)
    else if !RefsStored(db, k.app, e.refs) then Refused(Invalid)
    else Applied
  }

  /** `IncidentStore.complete`: commit an incident stage for event `id`. */
  function Complete(db: Database, id: nat, expected: IncState, next: IncState, result: Content,
                    topic: Option<Topic>): Outcome
    requires id < |db.outbox| && db.outbox[id].incident.Some?
  {
    var reply := StageCheck(db, id, expected);
    if reply != Applied then Outcome(db, reply)
    else
      var e := db.outbox[id];
      var k := KeyOf(e);
      var row := db.incidents[k];
      Outcome(Move(db, k, row.(state := next, result := Some(result)),
                   {(ConsumerOf(e.topic), id)}, {(k.app, result)},
                   if topic.Some? then [Emit(k, row, topic.value, result, Some(id))] else []),
              Applied)
  }

  /** `order` lists the waiting incidents of the application, each once. */
  ghost predicate Enumerates(order: seq<IncKey>, db: Database, a: AppId) {
    && (forall k :: k in order <==> k in db.incidents && k.app == a && db.incidents[k].state == WaitingForContext)
    && (forall i, j | 0 <= i < j < |order| :: order[i] != order[j])
  }

  /** The waiting incidents of an application in some order. */
  ghost function WaitingOrder(db: Database, a: AppId): (order: seq<IncKey>)
    ensures Enumerates(order, db, a)
  {
    AnyOrder(set k | k in db.incidents && k.app == a && db.incidents[k].state == WaitingForContext)
  }

  ghost function AnyOrder(keys: set<IncKey>): (order: seq<IncKey>)
    ensures forall k :: k in order <==> k in keys
    ensures forall i, j | 0 <= i < j < |order| :: order[i] != order[j]
  {
    if keys == {} then []
    else
      var k :| k in keys;
      [k] + AnyOrder(keys - {k})
  }

  function Released(incidents: map<IncKey, Incident>, order: seq<IncKey>, next: IncState): map<IncKey, Incident> {
    map k | k in incidents :: if k in order then incidents[k].(state := next) else incidents[k]
  }

  function CollectionRequests(incidents: map<IncKey, Incident>, order: seq<IncKey>, ref: Content,
                              cause: nat): seq<Envelope>
    requires forall k | k in order :: k in incidents
  {
    seq(|order|, i requires 0 <= i < |order| =>
          assert order[i] in order;
          Emit(order[i], incidents[order[i]], CollectionTopic, ref, Some(cause)))
  }

  /** The checks of `release` before it writes. */
  function ReleaseCheck(db: Database, id: nat): Reply
    requires id < |db.outbox| && AdmissionTopic(db.outbox[id].topic)
  {
    var e := db.outbox[id];
    if |e.refs| != 1 then Refused(Invalid)
    else if (e.app, e.refs[0]) !in db.artifacts then Refused(Unavailable)
    else if BaselineReady(e.refs[0]) != (e.topic == ReadyTopic) then Refused(Invalid)
    else if e.app !in db.apps then Refused(Unavailable)
    else if Consumed(db, id) then Unchanged
    else if db.apps[e.app].state != ExpectedAppState(e.topic) then Refused(Invalid)
    else if e.version.Some? && e.version.value != db.apps[e.app].version then Refused(Invalid)
    else Applied
  }

  /** `release`: record the baseline and let the waiting incidents, read in `order`, go on. */
  function Release(db: Database, id: nat, order: seq<IncKey>): Outcome
    requires id < |db.outbox| && AdmissionTopic(db.outbox[id].topic)
    requires forall k | k in order :: k in db.incidents
  {
    var reply := ReleaseCheck(db, id);
    if reply != Applied then Outcome(db, reply)
    else
      var e := db.outbox[id];
      var ready := e.topic == ReadyTopic;
      Outcome(db.(baselines := if e.app in db.baselines then db.baselines
                               else db.baselines[e.app := Baseline(ExpectedAppState(e.topic), e.refs[0])],
                  incidents := Released(db.incidents, order, if ready then CollectionQueued else BlockedByContext),
                  outbox := db.outbox + if ready then CollectionRequests(db.incidents, order, e.refs[0], id) else [],
                  inbox := db.inbox + {(AdmissionWorker, id)}),
              Applied)
  }

  function StateAfter(decision: Decision): IncState {
    if decision == Approve then ExecutionQueued else ResolutionRejected
  }

  /** The writes of a decision that passed every check. */
  function Decided(db: Database, k: IncKey, plan: Plan, decision: Decision, event: Option<nat>): Database
    requires k in db.incidents && db.incidents[k].result.Some?
  {
    var row := db.incidents[k];
    var approval := Approval(decision, if event.Some? then Preauthorized else Operator);
    Move(db.(approvals := db.approvals[(k, plan) := approval]), k,
         row.(state := StateAfter(decision)),
         if event.Some? then {(AuthorizationWorker, event.value)} else {}, {},
         if decision == Approve then [Emit(k, row, ExecutionTopic, row.result.value, None)] else [])
  }

  /** `ResolutionWorker.approve`, called by an operator or, with `event`, by the authorization handler. */
  function Decide(policies: Policies, db: Database, k: IncKey, plan: Plan, decision: Decision,
                  event: Option<nat>, now: Instant): Outcome
    requires event.Some? ==> event.value < |db.outbox| && db.outbox[event.value].topic == AuthorizationTopic
  {
    if k.app !in db.apps || k !in db.incidents then Refuse(db, Unavailable)
    else if event.Some? && Consumed(db, event.value) then Outcome(db, Unchanged)
    else if (k, plan) in db.approvals then
      if db.approvals[(k, plan)].decision != decision then Refuse(db, Invalid) else Outcome(db, Unchanged)
    else
      var row := db.incidents[k];
      if row.state != AwaitingApproval then Refuse(db, Invalid)
      else if row.result.None? || (k.app, row.result.value) !in db.artifacts then Refuse(db, Unavailable)
      else if ResolutionOf(row.result.value).plan != Some(plan) then Refuse(db, Invalid)
      else if plan.expiresAt <= now then Refuse(db, Invalid)
      else
        var key := PolicyKeyOf(k, plan.service);
        if key !in policies || policies[key] != plan.policy then Refuse(db, Invalid)
        else if event.Some? && (plan.policy.automaticUntil.None? || plan.policy.automaticUntil.value <= now) then
          Refuse(db, Invalid)
        else Outcome(Decided(db, k, plan, decision, event), Applied)
  }
}
