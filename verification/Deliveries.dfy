/**
 Which delivery a step consumes: at most one event, and only when it is applied.
*/
module Deliveries {
  import opened Model
  import opened Transactions
  import opened Pipeline

  /** The event a step records in the inbox. */
  ghost function ConsumedBy(policies: Policies, w: World, step: Action): Option<nat> {
    if NextDatabase(policies, w, step).reply != Applied then None
    else
      match step
      case CommitAction(task) => Some(task.id)
      case ReleaseAction(id, _) => Some(id)
      case AuthorizeAction(id, _) => Some(id)
      case _ => None
  }

  /** The inbox grows by exactly the event the step consumes,
      which was live and is handled by that step's kind of worker. */
  ghost predicate Records(db: Database, o: Outcome, id: nat) {
    && id < |db.outbox| && Live(db, id)
    && o.db.inbox == db.inbox + {(ConsumerOf(db.outbox[id].topic), id)}
    && db.outbox <= o.db.outbox
  }

  lemma CompleteAppRecords(db: Database, id: nat, expected: AppState, next: AppState, topic: Topic, result: Content)
    requires id < |db.outbox| && CompleteApp(db, id, expected, next, topic, result).reply == Applied
    ensures Records(db, CompleteApp(db, id, expected, next, topic, result), id)
  {
  }

  lemma CompleteRecords(db: Database, id: nat, expected: IncState, next: IncState, result: Content,
                        topic: Option<Topic>)
    requires id < |db.outbox| && db.outbox[id].incident.Some?
        && Complete(db, id, expected, next, result, topic).reply == Applied
    ensures Records(db, Complete(db, id, expected, next, result, topic), id)
  {
  }

  lemma CommitRecords(policies: Policies, db: Database, t: Task)
    requires CommitTask(policies, db, t).reply == Applied
    ensures Records(db, CommitTask(policies, db, t), t.id)
    ensures !AdmissionTopic(db.outbox[t.id].topic)
  {
    var e := db.outbox[t.id];
    match ChangeOf(policies, db, t).value
    case AppChange(c) => CompleteAppRecords(db, t.id, ExpectedAppState(e.topic), c.next, c.topic, c.result);
    case IncChange(c) => CompleteRecords(db, t.id, ExpectedState(e.topic), c.next, c.result, c.topic);
  }

  lemma DecideRecords(policies: Policies, db: Database, k: IncKey, plan: Plan, decision: Decision, event: Option<nat>,
                      now: Instant)
    requires event.Some? ==> event.value < |db.outbox| && db.outbox[event.value].topic == AuthorizationTopic
    requires Decide(policies, db, k, plan, decision, event, now).reply == Applied
    ensures event.Some? ==> Records(db, Decide(policies, db, k, plan, decision, event, now), event.value)
    ensures event.None? ==> Decide(policies, db, k, plan, decision, event, now).db.inbox == db.inbox
  {
  }

  lemma ApprovedRecords(policies: Policies, db: Database, id: nat, now: Instant)
    requires AuthorizationId(db, id) && Approved(policies, db, id, now).reply == Applied
    ensures Records(db, Approved(policies, db, id, now), id)
  {
    var e := db.outbox[id];
    DecideRecords(policies, db, KeyOf(e), ResolutionOf(e.refs[0]).plan.value, Approve, Some(id), now);
  }

  lemma ReleaseRecords(db: Database, id: nat, order: seq<IncKey>)
    requires id < |db.outbox| && AdmissionTopic(db.outbox[id].topic) && forall k | k in order :: k in db.incidents
    requires Release(db, id, order).reply == Applied
    ensures Records(db, Release(db, id, order), id)
  {
  }

  lemma ReinvestigateRecordsNothing(db: Database, k: IncKey, expected: Option<Content>, mode: Mode)
    ensures Reinvestigate(db, k, expected, mode).db.inbox == db.inbox
  {
  }

  lemma OthersRecordNothing(policies: Policies, w: World, step: Action)
    requires !step.CommitAction? && !step.ReleaseAction? && !step.AuthorizeAction? && !step.DecideAction?
        && !step.ReinvestigateAction?
    ensures NextDatabase(policies, w, step).db.inbox == w.db.inbox
  {
  }

  /** A step consumes the one event it names if it is applied, and nothing otherwise. */
  lemma NextInbox(policies: Policies, w: World, step: Action)
    ensures var o := NextDatabase(policies, w, step);
            var c := ConsumedBy(policies, w, step);
            if c.Some? then Records(w.db, o, c.value) else o.db.inbox == w.db.inbox
  {
    if NextDatabase(policies, w, step).reply == Applied {
      match step
      case CommitAction(task) => CommitRecords(policies, w.db, task);
      case ReleaseAction(id, order) => ReleaseRecords(w.db, id, order);
      case AuthorizeAction(id, now) => ApprovedRecords(policies, w.db, id, now);
      case _ => OperatorsRecordNothing(policies, w, step);
    }
  }

  lemma OperatorsRecordNothing(policies: Policies, w: World, step: Action)
    requires !step.CommitAction? && !step.ReleaseAction? && !step.AuthorizeAction?
    ensures NextDatabase(policies, w, step).db.inbox == w.db.inbox
  {
    match step
    case DecideAction(k, plan, decision, now) =>
      if NextDatabase(policies, w, step).reply == Applied {
        DecideRecords(policies, w.db, k, plan, decision, None, now);
      }
    case ReinvestigateAction(k, expected, mode) => ReinvestigateRecordsNothing(w.db, k, expected, mode);
    case _ => OthersRecordNothing(policies, w, step);
  }

  // ------------------------------------------------- what a commit leaves alone

  /** A commit writes no approval, rerun, baseline, revision or publication mark. */
  predicate Beside(db: Database, db': Database) {
    && db'.baselines == db.baselines && db'.published == db.published && db'.approvals == db.approvals
    && db'.runs == db.runs && db'.revisions == db.revisions
  }

  /** At most the state and the version of one application change, and the version by one. */
  ghost predicate SameRegistrations(apps: map<AppId, Application>, apps': map<AppId, Application>) {
    forall a | a in apps ::
      && a in apps' && apps'[a].config == apps[a].config
      && (apps'[a] == apps[a] || apps'[a].version == apps[a].version + 1)
  }

  ghost predicate SameRequests(incidents: map<IncKey, Incident>, incidents': map<IncKey, Incident>) {
    && incidents'.Keys == incidents.Keys
    && forall k | k in incidents :: incidents'[k].request == incidents[k].request
  }

  lemma CompleteBeside(db: Database, id: nat, expected: IncState, next: IncState, result: Content, topic: Option<Topic>)
    requires id < |db.outbox| && db.outbox[id].incident.Some?
    ensures var db' := Complete(db, id, expected, next, result, topic).db;
            Beside(db, db') && db'.apps == db.apps && SameRequests(db.incidents, db'.incidents)
  {
  }

  lemma CompleteAppBeside(db: Database, id: nat, expected: AppState, next: AppState, topic: Topic, result: Content)
    requires id < |db.outbox|
    ensures var db' := CompleteApp(db, id, expected, next, topic, result).db;
            Beside(db, db') && SameRegistrations(db.apps, db'.apps) && db'.apps.Keys == db.apps.Keys
                && db'.incidents == db.incidents
  {
  }

  lemma CommitBeside(policies: Policies, db: Database, t: Task)
    requires CommitTask(policies, db, t).reply == Applied
    ensures var db' := CommitTask(policies, db, t).db;
            && Beside(db, db') && SameRegistrations(db.apps, db'.apps) && db'.apps.Keys == db.apps.Keys
            && SameRequests(db.incidents, db'.incidents)
  {
    var e := db.outbox[t.id];
    match ChangeOf(policies, db, t).value
    case AppChange(c) => CompleteAppBeside(db, t.id, ExpectedAppState(e.topic), c.next, c.topic, c.result);
    case IncChange(c) => CompleteBeside(db, t.id, ExpectedState(e.topic), c.next, c.result, c.topic);
  }
}
