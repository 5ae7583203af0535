/**
 The invariant of whole runs: the database's, and what tasks in flight, repair requests in the air
 and the executors' tables rest on.
*/
module Reachable {
  import opened Model
  import opened Transactions
  import opened Executor
  import opened Pipeline
  import opened Invariants
  import opened IncidentSteps
  import opened OperatorSteps
  import opened AppSteps
  import opened ReleaseStep

  /** Some executor recorded the action, the one its plan's policy names. */
  predicate Recorded(targets: map<string, Target>, key: ActionKey) {
    key.plan.policy.executionUrl in targets && HasRow(targets[key.plan.policy.executionUrl], key)
  }

  function ActionOf(row: Incident): Option<ActionKey> {
    if row.result.Some? && row.result.value.Assessment? then row.result.value.resolution.actionId else None
  }

  /** The action an execution event asks for. */
  function EventAction(e: Envelope): Option<ActionKey> {
    if e.incident.Some? && EventPlan(e).Some? then Some(ActionKey(KeyOf(e), EventPlan(e).value)) else None
  }

  /** A task may commit only what its event, or the row it failed on, allows. */
  ghost predicate TaskOk(w: World, t: Task) {
    match t
    case StageTask(id, answer) =>
      && id < |w.db.outbox|
      && (w.db.outbox[id].topic == ExecutionTopic ==>
            EventAction(w.db.outbox[id]).Some? && Recorded(w.targets, EventAction(w.db.outbox[id]).value))
    case FailTask(id, seen, _) =>
      && id < |w.db.outbox|
      && (StageId(w.db, id) && w.db.outbox[id].topic in {ResolutionTopic, ExecutionTopic, VerificationTopic}
          && Live(w.db, id) ==>
            |w.db.outbox[id].refs| == 1 && seen == Some(w.db.outbox[id].refs[0]))
      && (AuthorizationId(w.db, id) && KeyOf(w.db.outbox[id]) in w.db.incidents
          && w.db.incidents[KeyOf(w.db.outbox[id])].state == AwaitingApproval ==>
            seen == w.db.incidents[KeyOf(w.db.outbox[id])].result)
  }

  /** A repair request carries the key and body of an approved plan. */
  ghost predicate PostOk(db: Database, x: Post) {
    && StageId(db, x.id) && db.outbox[x.id].topic == ExecutionTopic
    && |db.outbox[x.id].refs| == 1 && ResolutionOf(db.outbox[x.id].refs[0]).plan.Some?
    && db.outbox[x.id].refs[0].Assessment?
    && x == PostFor(db, x.id)
    && IsDecided(db, x.key.incident, Some(x.key.plan), Approve)
  }

  /** A repair request asked the executor at `url` for the action of this row. */
  ghost predicate Requested(posts: set<Post>, url: string, row: ActionRow) {
    exists x :: x in posts && x.url == url && x.key == row.key && x.body == row.body
  }

  /** Every recorded action was requested, at the executor its plan names, and is recorded once. */
  ghost predicate TargetOk(posts: set<Post>, url: string, t: Target) {
    && (forall i | 0 <= i < |t.rows| :: Requested(posts, url, t.rows[i]))
    && (forall i, j | 0 <= i < |t.rows| && 0 <= j < |t.rows| && t.rows[i].key == t.rows[j].key :: i == j)
  }

  ghost predicate TasksOk(w: World) {
    forall t {:trigger TaskOk(w, t)} | t in w.tasks :: TaskOk(w, t)
  }

  ghost predicate PostsOk(w: World) {
    forall x {:trigger PostOk(w.db, x)} | x in w.posts :: PostOk(w.db, x)
  }

  ghost predicate TargetsOk(w: World) {
    forall url {:trigger TargetOk(w.posts, url, w.targets[url])} | url in w.targets ::
        TargetOk(w.posts, url, w.targets[url])
  }

  /** Whatever action a row names was recorded by the executor. */
  ghost predicate ActionsRecorded(w: World) {
    forall k | k in w.db.incidents && ActionOf(w.db.incidents[k]).Some? ::
        Recorded(w.targets, ActionOf(w.db.incidents[k]).value)
  }

  ghost predicate WorldInv(policies: Policies, w: World) {
    Inv(policies, w.db) && TasksOk(w) && PostsOk(w) && TargetsOk(w) && ActionsRecorded(w)
  }

  // ---------------------------------------------------- database transitions

  lemma Stutters(policies: Policies, db: Database)
    requires Inv(policies, db)
    ensures Lawful(policies, db, db)
  {
  }

  lemma CommitLawful(policies: Policies, w: World, t: Task)
    requires Inv(policies, w.db) && TaskOk(w, t)
    requires CommitTask(policies, w.db, t).reply == Applied
    ensures Lawful(policies, w.db, CommitTask(policies, w.db, t).db)
  {
    var db := w.db;
    if OnboardingId(db, t.id) {
      match t
      case StageTask(id, answer) => AppResultInv(policies, db, id, answer);
      case FailTask(id, seen, reason) => AppFailureInv(policies, db, id, seen, reason);
    } else if StageId(db, t.id) {
      match t
      case StageTask(id, answer) => StageResultInv(policies, db, id, answer);
      case FailTask(id, seen, reason) =>
        if db.outbox[id].topic in {CollectionTopic, AnalysisTopic} {
          EarlyFailureInv(policies, db, id, seen, reason);
        } else {
          ResolutionFailureInv(policies, db, id, seen, reason);
        }
    } else {
      assert WellFormedEvent(db, db.outbox[t.id]);
      AuthorizationFailureInv(policies, db, t.id, t.seen, t.reason);
    }
  }

  /** A transaction that does not report success leaves the database as it was. */
  lemma OnlyAppliedWrites(policies: Policies, w: World, step: Action)
    requires NextDatabase(policies, w, step).reply != Applied
    ensures NextDatabase(policies, w, step).db == w.db
  {
  }

  lemma NextLawful(policies: Policies, w: World, step: Action)
    requires Inv(policies, w.db) && TasksOk(w)
    ensures Lawful(policies, w.db, NextDatabase(policies, w, step).db)
  {
    var db := w.db;
    Stutters(policies, db);
    if NextDatabase(policies, w, step).reply != Applied {
      OnlyAppliedWrites(policies, w, step);
    } else {
      match step
      case OnboardAction(a, config) => OnboardInv(policies, db, a, config);
      case ReviseAction(a, version, config) => ReviseInv(policies, db, a, version, config);
      case RefreshAction(a) => RefreshInv(policies, db, a);
      case PublishAction(ids) => PublishInv(policies, db, ids);
      case AdmitAction(k, request, now) => AdmitInv(policies, db, k, request, now);
      case ReinvestigateAction(k, expected, mode) =>
        var db' := ReinvestigateInv(policies, db, k, expected, mode);
      case DecideAction(k, plan, decision, now) =>
        var db' := DecideInv(policies, db, k, plan, decision, None, now);
      case CommitAction(task) =>
        assert TaskOk(w, task);
        CommitLawful(policies, w, task);
      case ReleaseAction(id, order) =>
        var db' := ReleaseInv(policies, db, id, order);
      case AuthorizeAction(id, now) =>
        var plan := ResolutionOf(db.outbox[id].refs[0]).plan.value;
        var db' := DecideInv(policies, db, KeyOf(db.outbox[id]), plan, Approve, Some(id), now);
    }
  }

  // ---------------------------------------------------------------- actions

  /** The action a row names was named by the row before, or is the one whose receipt the step commits. */
  ghost predicate ActionKept(db: Database, db': Database, k: IncKey, committed: Option<ActionKey>)
    requires k in db'.incidents
  {
    ActionOf(db'.incidents[k]).Some? ==>
      || (k in db.incidents && ActionOf(db'.incidents[k]) == ActionOf(db.incidents[k]))
      || ActionOf(db'.incidents[k]) == committed
  }

  ghost predicate ActionsKept(db: Database, db': Database, committed: Option<ActionKey>) {
    forall k | k in db'.incidents :: ActionKept(db, db', k, committed)
  }

  lemma StageResultAction(policies: Policies, db: Database, id: nat, answer: Answer)
    requires Awaited(policies, db, id)
    ensures var e := db.outbox[id];
            var r := StageResult(policies, e, ServiceOf(db, KeyOf(e)), answer);
            r.Ok? ==>
              var action := ActionOf(db.incidents[KeyOf(e)].(result := Some(r.value.result)));
              || action.None?
              || action == ActionOf(db.incidents[KeyOf(e)])
              || (e.topic == ExecutionTopic && action == EventAction(e))
  {
  }

  /** What a commit may write as the action of its row. */
  function CommittedAction(db: Database, t: Task): Option<ActionKey> {
    if StageId(db, t.id) && t.StageTask? && db.outbox[t.id].topic == ExecutionTopic
    then EventAction(db.outbox[t.id])
    else None
  }

  lemma CompleteActions(db: Database, id: nat, expected: IncState, next: IncState, result: Content,
                        topic: Option<Topic>, committed: Option<ActionKey>)
    requires id < |db.outbox| && db.outbox[id].incident.Some?
        && Complete(db, id, expected, next, result, topic).reply == Applied
    requires var row := db.incidents[KeyOf(db.outbox[id])];
             var action := ActionOf(row.(result := Some(result)));
             action.None? || action == ActionOf(row) || action == committed
    ensures ActionsKept(db, Complete(db, id, expected, next, result, topic).db, committed)
  {
  }

  lemma StageTaskActions(policies: Policies, w: World, t: Task)
    requires Inv(policies, w.db) && StageId(w.db, t.id) && t.StageTask?
    requires CommitTask(policies, w.db, t).reply == Applied
    ensures ActionsKept(w.db, CommitTask(policies, w.db, t).db, CommittedAction(w.db, t))
  {
    var e := w.db.outbox[t.id];
    LiveStage(policies, w.db, t.id);
    StageResultAction(policies, w.db, t.id, t.answer);
    var c := StageResult(policies, e, ServiceOf(w.db, KeyOf(e)), t.answer).value;
    CompleteActions(w.db, t.id, ExpectedState(e.topic), c.next, c.result, c.topic, CommittedAction(w.db, t));
  }

  lemma FailTaskActions(policies: Policies, w: World, t: Task)
    requires Inv(policies, w.db) && TaskOk(w, t) && StageId(w.db, t.id) && t.FailTask?
    requires CommitTask(policies, w.db, t).reply == Applied
    ensures ActionsKept(w.db, CommitTask(policies, w.db, t).db, None)
  {
    var e := w.db.outbox[t.id];
    if e.topic == CollectionTopic || e.topic == AnalysisTopic {
      var result := StageFailure(t.reason, ConsumerOf(e.topic));
      CompleteActions(w.db, t.id, ExpectedState(e.topic), Failed, result, None, None);
    } else {
      LiveStage(policies, w.db, t.id);
      var result := FailedResolution(t.seen, ConsumerOf(e.topic));
      CompleteActions(w.db, t.id, ExpectedState(e.topic), ResolutionFailed, result, None, None);
    }
  }

  lemma CommitActions(policies: Policies, w: World, t: Task)
    requires Inv(policies, w.db) && TaskOk(w, t)
    requires CommitTask(policies, w.db, t).reply == Applied
    ensures ActionsKept(w.db, CommitTask(policies, w.db, t).db, CommittedAction(w.db, t))
  {
    if StageId(w.db, t.id) {
      match t
      case StageTask(_, _) => StageTaskActions(policies, w, t);
      case FailTask(_, _, _) => FailTaskActions(policies, w, t);
    } else if !OnboardingId(w.db, t.id) {
      var k := KeyOf(w.db.outbox[t.id]);
      var result := FailedResolution(t.seen, AuthorizationWorker);
      CompleteActions(w.db, t.id, AwaitingApproval, ResolutionFailed, result, None, None);
    }
  }

  lemma NextActions(policies: Policies, w: World, step: Action)
    requires Inv(policies, w.db) && TasksOk(w)
    ensures ActionsKept(w.db, NextDatabase(policies, w, step).db,
                        if step.CommitAction? then CommittedAction(w.db, step.task) else None)
  {
    var o := NextDatabase(policies, w, step);
    if o.reply != Applied {
      OnlyAppliedWrites(policies, w, step);
    } else if step.CommitAction? {
      assert TaskOk(w, step.task);
      CommitActions(policies, w, step.task);
    } else if step.ReinvestigateAction? {
      ReinvestigateActions(policies, w.db, step.key, step.expected, step.mode);
    } else {
      OtherActions(policies, w, step);
    }
  }

  /** No other transaction writes a result. */
  lemma OtherActions(policies: Policies, w: World, step: Action)
    requires !step.CommitAction? && !step.ReinvestigateAction?
    ensures ActionsKept(w.db, NextDatabase(policies, w, step).db, None)
  {
    match step
    case ReleaseAction(id, order) =>
      if id < |w.db.outbox| && AdmissionTopic(w.db.outbox[id].topic)
         && Enumerates(order, w.db, w.db.outbox[id].app) {
        ReleaseActions(w.db, id, order);
      }
    case DecideAction(k, plan, decision, now) => DecideActions(policies, w.db, k, plan, decision, None, now);
    case AuthorizeAction(id, now) =>
      if AuthorizationId(w.db, id) {
        ApprovedActions(policies, w.db, id, now);
      }
    case AdmitAction(k, request, now) => AdmitActions(w.db, k, request, now);
    case _ => RegistrationActions(policies, w, step);
  }

  lemma RegistrationActions(policies: Policies, w: World, step: Action)
    requires !step.CommitAction? && !step.ReinvestigateAction? && !step.ReleaseAction? && !step.DecideAction?
        && !step.AuthorizeAction? && !step.AdmitAction?
    ensures NextDatabase(policies, w, step).db.incidents == w.db.incidents
    ensures ActionsKept(w.db, NextDatabase(policies, w, step).db, None)
  {
  }

  lemma AdmitActions(db: Database, k: IncKey, request: Request, now: Instant)
    ensures ActionsKept(db, Admit(db, k, request, now).db, None)
  {
  }

  lemma ReleaseActions(db: Database, id: nat, order: seq<IncKey>)
    requires id < |db.outbox| && AdmissionTopic(db.outbox[id].topic) && forall k | k in order :: k in db.incidents
    ensures ActionsKept(db, Release(db, id, order).db, None)
  {
  }

  lemma DecideActions(policies: Policies, db: Database, k: IncKey, plan: Plan, decision: Decision,
                      event: Option<nat>, now: Instant)
    requires event.Some? ==> event.value < |db.outbox| && db.outbox[event.value].topic == AuthorizationTopic
    ensures ActionsKept(db, Decide(policies, db, k, plan, decision, event, now).db, None)
  {
  }

  lemma ApprovedActions(policies: Policies, db: Database, id: nat, now: Instant)
    requires AuthorizationId(db, id)
    ensures ActionsKept(db, Approved(policies, db, id, now).db, None)
  {
    var e := db.outbox[id];
    if |e.refs| == 1 && ResolutionOf(e.refs[0]).plan.Some? {
      DecideActions(policies, db, KeyOf(e), ResolutionOf(e.refs[0]).plan.value, Approve, Some(id), now);
    }
  }

  lemma ReinvestigateActions(policies: Policies, db: Database, k: IncKey, expected: Option<Content>, mode: Mode)
    requires Inv(policies, db) && Reinvestigate(db, k, expected, mode).reply == Applied
    ensures ActionsKept(db, Reinvestigate(db, k, expected, mode).db, None)
  {
    var db', sent := ReinvestigateMoves(db, k, expected, mode);
    assert IncidentOk(policies, db, k);
    StoredEvidenceOk(policies, db, k);
  }

  // ------------------------------------------------------- tasks and requests

  lemma TaskStable(policies: Policies, w: World, w': World, t: Task)
    requires Inv(policies, w.db) && TaskOk(w, t)
    requires Extends(w.db, w'.db) && Progresses(w.db, w'.db)
    requires forall key | Recorded(w.targets, key) :: Recorded(w'.targets, key)
    ensures TaskOk(w', t)
  {
    assert w'.db.outbox[t.id] == w.db.outbox[t.id];
    assert WellFormedEvent(w.db, w.db.outbox[t.id]);
    if t.FailTask? && AuthorizationId(w.db, t.id) {
      WaitKeepsResult(policies, w.db, w'.db, t.id);
    }
  }

  /** Whatever incident an authorization event is about: if it waits later, it waited before with the same result. */
  lemma WaitKeepsResult(policies: Policies, db: Database, db': Database, id: nat)
    requires Inv(policies, db) && Extends(db, db') && Progresses(db, db') && AuthorizationId(db, id)
    ensures var k := KeyOf(db.outbox[id]);
            && k in db.incidents && k in db'.incidents
            && (db'.incidents[k].state == AwaitingApproval ==> db.incidents[k] == db'.incidents[k])
  {
    var k := KeyOf(db.outbox[id]);
    assert WellFormedEvent(db, db.outbox[id]);
    assert IncidentOk(policies, db, k) && LateEventsOk(db, k);
    assert EventOf(db, k, AuthorizationTopic, id);
    assert Progress(db.incidents[k], db'.incidents[k]);
  }

  lemma PostStable(db: Database, db': Database, x: Post)
    requires Extends(db, db') && PostOk(db, x)
    ensures PostOk(db', x)
  {
    assert db'.outbox[x.id] == db.outbox[x.id];
  }

  lemma DatabaseStep(policies: Policies, w: World, step: Action)
    requires WorldInv(policies, w)
    ensures WorldInv(policies, w.(db := NextDatabase(policies, w, step).db))
  {
    var db' := NextDatabase(policies, w, step).db;
    NextLawful(policies, w, step);
    DatabaseKeepsTasks(policies, w, db');
    DatabaseKeepsPosts(w, db');
    StepKeepsActions(policies, w, step);
    DatabaseKeepsTargets(w, db');
  }

  lemma StepKeepsActions(policies: Policies, w: World, step: Action)
    requires Inv(policies, w.db) && TasksOk(w) && ActionsRecorded(w)
    ensures ActionsRecorded(w.(db := NextDatabase(policies, w, step).db))
  {
    if step.CommitAction? && step.task !in w.tasks {
      return;
    }
    NextActions(policies, w, step);
    if step.CommitAction? {
      assert TaskOk(w, step.task);
      DatabaseKeepsActions(w, NextDatabase(policies, w, step).db, CommittedAction(w.db, step.task));
    } else {
      DatabaseKeepsActions(w, NextDatabase(policies, w, step).db, None);
    }
  }

  lemma DatabaseKeepsActions(w: World, db': Database, committed: Option<ActionKey>)
    requires ActionsRecorded(w) && ActionsKept(w.db, db', committed)
    requires committed.Some? ==> Recorded(w.targets, committed.value)
    ensures ActionsRecorded(w.(db := db'))
  {
    forall k | k in db'.incidents && ActionOf(db'.incidents[k]).Some?
      ensures Recorded(w.targets, ActionOf(db'.incidents[k]).value)
    {
      assert ActionKept(w.db, db', k, committed);
    }
  }

  lemma DatabaseKeepsTargets(w: World, db': Database)
    requires TargetsOk(w)
    ensures TargetsOk(w.(db := db'))
  {
    forall url | url in w.targets ensures TargetOk(w.posts, url, w.targets[url]) {
    }
  }

  lemma DatabaseKeepsTasks(policies: Policies, w: World, db': Database)
    requires Inv(policies, w.db) && TasksOk(w) && Extends(w.db, db') && Progresses(w.db, db')
    ensures TasksOk(w.(db := db'))
  {
    forall t | t in w.tasks ensures TaskOk(w.(db := db'), t) {
      assert TaskOk(w, t);
      TaskStable(policies, w, w.(db := db'), t);
    }
  }

  lemma DatabaseKeepsPosts(w: World, db': Database)
    requires PostsOk(w) && Extends(w.db, db')
    ensures PostsOk(w.(db := db'))
  {
    forall x | x in w.posts ensures PostOk(db', x) {
      assert PostOk(w.db, x);
      PostStable(w.db, db', x);
    }
  }

  // -------------------------------------------------------- steps of the world

  /** New tasks and requests that are sound keep the world so. */
  lemma GrowsSoundly(policies: Policies, w: World, w': World)
    requires WorldInv(policies, w) && w'.db == w.db && w'.targets == w.targets && w.posts <= w'.posts
    requires forall t | t in w'.tasks && t !in w.tasks :: TaskOk(w', t)
    requires forall x | x in w'.posts && x !in w.posts :: PostOk(w.db, x)
    ensures WorldInv(policies, w')
  {
    forall t | t in w'.tasks ensures TaskOk(w', t) {
      if t in w.tasks {
        assert TaskOk(w, t);
      }
    }
    forall x | x in w'.posts ensures PostOk(w'.db, x) {
      assert x in w.posts ==> PostOk(w.db, x);
    }
    MorePostsKeepTargets(w, w'.posts);
  }

  lemma MorePostsKeepTargets(w: World, posts: set<Post>)
    requires TargetsOk(w) && w.posts <= posts
    ensures TargetsOk(w.(posts := posts))
  {
    forall url | url in w.targets ensures TargetOk(posts, url, w.targets[url]) {
      var t := w.targets[url];
      assert TargetOk(w.posts, url, t);
      forall i | 0 <= i < |t.rows| ensures Requested(posts, url, t.rows[i]) {
        assert Requested(w.posts, url, t.rows[i]);
      }
    }
  }

  lemma ReadStep(policies: Policies, w: World, id: nat, answer: Answer)
    requires WorldInv(policies, w)
    ensures WorldInv(policies, Next(policies, w, ReadAction(id, answer)))
  {
    GrowsSoundly(policies, w, Next(policies, w, ReadAction(id, answer)));
  }

  lemma SeenOk(policies: Policies, w: World, id: nat, reason: string)
    requires Inv(policies, w.db) && id < |w.db.outbox|
    ensures TaskOk(w, FailTask(id, SeenBy(w.db, id), reason))
  {
    if StageId(w.db, id) && Live(w.db, id) {
      LiveStage(policies, w.db, id);
    }
  }

  lemma ReadFailureStep(policies: Policies, w: World, id: nat, reason: string)
    requires WorldInv(policies, w)
    ensures WorldInv(policies, Next(policies, w, ReadFailureAction(id, reason)))
  {
    if id < |w.db.outbox| {
      SeenOk(policies, w, id, reason);
    }
    GrowsSoundly(policies, w, Next(policies, w, ReadFailureAction(id, reason)));
  }

  lemma ReadAuthorizationStep(policies: Policies, w: World, id: nat)
    requires WorldInv(policies, w)
    ensures WorldInv(policies, Next(policies, w, ReadAuthorizationAction(id)))
  {
    GrowsSoundly(policies, w, Next(policies, w, ReadAuthorizationAction(id)));
  }

  lemma RequestedOk(policies: Policies, w: World, id: nat, now: Instant)
    requires Inv(policies, w.db) && RequestsRepair(policies, w.db, id, now)
    ensures PostOk(w.db, PostFor(w.db, id))
  {
    assert WellFormedEvent(w.db, w.db.outbox[id]);
    LiveStage(policies, w.db, id);
  }

  lemma RequestStep(policies: Policies, w: World, id: nat, now: Instant)
    requires WorldInv(policies, w)
    ensures WorldInv(policies, Next(policies, w, RequestRepairAction(id, now)))
  {
    if RequestsRepair(policies, w.db, id, now) {
      RequestedOk(policies, w, id, now);
    }
    GrowsSoundly(policies, w, Next(policies, w, RequestRepairAction(id, now)));
  }

  /** Carrying out a request of the table's owner keeps the table sound and forgets nothing. */
  lemma RepairOk(posts: set<Post>, x: Post, t: Target)
    requires x in posts && TargetOk(posts, x.url, t)
    ensures var (t', reply) := Repair(t, x.key, x.body);
            && TargetOk(posts, x.url, t')
            && t.rows <= t'.rows
            && (reply.Receipt? ==> HasRow(t', x.key))
  {
    var (t', reply) := Repair(t, x.key, x.body);
    if t'.rows != t.rows {
      assert t'.rows[|t.rows|] == ActionRow(x.key, x.body);
    }
  }

  lemma RecordedMonotone(targets: map<string, Target>, targets': map<string, Target>, key: ActionKey)
    requires forall url | url in targets :: url in targets' && targets[url].rows <= targets'[url].rows
    requires Recorded(targets, key)
    ensures Recorded(targets', key)
  {
    var url := key.plan.policy.executionUrl;
    var i :| 0 <= i < |targets[url].rows| && targets[url].rows[i].key == key;
    assert targets'[url].rows[i].key == key;
  }

  lemma TargetsStep(policies: Policies, w: World, w': World)
    requires WorldInv(policies, w)
    requires w'.db == w.db && w'.posts == w.posts && TargetsOk(w')
    requires forall url | url in w.targets :: url in w'.targets && w.targets[url].rows <= w'.targets[url].rows
    requires forall t | t in w'.tasks && t !in w.tasks :: TaskOk(w', t)
    ensures WorldInv(policies, w')
  {
    forall key | Recorded(w.targets, key) ensures Recorded(w'.targets, key) {
      RecordedMonotone(w.targets, w'.targets, key);
    }
    forall t | t in w'.tasks ensures TaskOk(w', t) {
      if t in w.tasks {
        assert TaskOk(w, t);
        Stutters(policies, w.db);
        TaskStable(policies, w, w', t);
      }
    }
    forall x | x in w'.posts ensures PostOk(w'.db, x) {
      assert PostOk(w.db, x);
    }
  }

  lemma DeliverStep(policies: Policies, w: World, x: Post, now: Instant)
    requires WorldInv(policies, w)
    ensures WorldInv(policies, Deliver(w, x, now))
  {
    if x in w.posts && x.url in w.targets {
      assert PostOk(w.db, x);
      DeliverTargets(w, x, now);
      TargetsStep(policies, w, Deliver(w, x, now));
    }
  }

  /** The executors' tables after a request was carried out, and what its receipt leaves to commit. */
  lemma DeliverTargets(w: World, x: Post, now: Instant)
    requires x in w.posts && x.url in w.targets && TargetsOk(w) && PostOk(w.db, x)
    ensures var w' := Deliver(w, x, now);
            && TargetsOk(w')
            && (forall url | url in w.targets :: url in w'.targets && w.targets[url].rows <= w'.targets[url].rows)
            && (forall t | t in w'.tasks && t !in w.tasks :: TaskOk(w', t))
  {
    var w' := Deliver(w, x, now);
    assert TargetOk(w.posts, x.url, w.targets[x.url]);
    RepairOk(w.posts, x, w.targets[x.url]);
    forall url | url in w'.targets ensures TargetOk(w'.posts, url, w'.targets[url]) {
      assert url in w.targets;
      assert TargetOk(w.posts, url, w.targets[url]);
    }
  }

  lemma DisturbStep(policies: Policies, w: World, url: string, service: string, action: string, faulty: bool,
                    revision: int)
    requires WorldInv(policies, w)
    ensures WorldInv(policies, Disturb(w, url, service, action, faulty, revision))
  {
    var w' := Disturb(w, url, service, action, faulty, revision);
    forall other | other in w'.targets ensures TargetOk(w'.posts, other, w'.targets[other]) {
      if other in w.targets {
        assert TargetOk(w.posts, other, w.targets[other]);
        assert w'.targets[other].rows == w.targets[other].rows;
      }
    }
    TargetsStep(policies, w, w');
  }

  /** One step of a run keeps the invariant of the world. */
  lemma NextInv(policies: Policies, w: World, step: Action)
    requires WorldInv(policies, w)
    ensures WorldInv(policies, Next(policies, w, step))
  {
    if Transactional(step) {
      DatabaseStep(policies, w, step);
    } else {
      match step
      case ReadAction(id, answer) => ReadStep(policies, w, id, answer);
      case ReadFailureAction(id, reason) => ReadFailureStep(policies, w, id, reason);
      case ReadAuthorizationAction(id) => ReadAuthorizationStep(policies, w, id);
      case RequestRepairAction(id, now) => RequestStep(policies, w, id, now);
      case DeliverRepairAction(x, now) => DeliverStep(policies, w, x, now);
      case DisturbAction(url, service, action, faulty, revision) =>
        DisturbStep(policies, w, url, service, action, faulty, revision);
    }
  }

  /** Every reachable world satisfies the invariant. */
  lemma {:induction false} RunInv(policies: Policies, steps: seq<Action>)
    ensures WorldInv(policies, Run(policies, steps))
  {
    if steps != [] {
      RunNext(policies, steps);
      RunInv(policies, steps[..|steps| - 1]);
      NextInv(policies, Run(policies, steps[..|steps| - 1]), steps[|steps| - 1]);
    }
  }

  /** Some run leads to the database. */
  ghost predicate Reached(policies: Policies, db: Database) {
    exists steps :: db == Run(policies, steps).db
  }

  lemma ReachedInv(policies: Policies, db: Database)
    requires Reached(policies, db)
    ensures Inv(policies, db)
  {
    var steps :| db == Run(policies, steps).db;
    RunInv(policies, steps);
  }
}
