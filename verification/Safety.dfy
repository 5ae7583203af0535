/**
 What holds in every world a run can reach: events and states agree, no
 waiting incident is forgotten, no check of the pipeline's own refuses the
 work that is due, and a decision is accepted exactly once and in time.
*/
module Safety {
  import opened Model
  import opened Transactions
  import opened Pipeline
  import opened Invariants
  import opened IncidentSteps
  import opened ReleaseStep
  import opened Reachable

  // ------------------------------------------------- one live event per stage

  /** A queued incident has exactly one live event of its stage, carrying what the row expects; any other has none. */
  lemma OneLiveEvent(policies: Policies, steps: seq<Action>, k: IncKey)
    requires k in Run(policies, steps).db.incidents
    ensures var db := Run(policies, steps).db;
            && (Queued(db.incidents[k].state) <==> exists i :: StageEvent(db, k, i))
            && (forall i, j | StageEvent(db, k, i) && StageEvent(db, k, j) :: i == j)
            && (forall i | StageEvent(db, k, i) :: AtStage(db, k, db.outbox[i]))
  {
    RunInv(policies, steps);
    assert IncidentOk(policies, Run(policies, steps).db, k);
  }

  // ----------------------------------------------------------- no lost wakeup

  /** An application lacks a baseline exactly while one event of its
      present version is pending; a baseline agrees with its state. */
  lemma OnePendingOutcome(policies: Policies, steps: seq<Action>, a: AppId)
    requires a in Run(policies, steps).db.apps
    ensures var db := Run(policies, steps).db;
            && (a !in db.baselines <==> exists i :: Current(db, a, i))
            && (forall i, j | Current(db, a, i) && Current(db, a, j) :: i == j)
            && (forall i | Current(db, a, i) :: db.apps[a].state == ExpectedAppState(db.outbox[i].topic))
            && (a in db.baselines ==> db.baselines[a].state == db.apps[a].state
                                      && BaselineReady(db.baselines[a].ref) == (db.apps[a].state == ContextReady))
  {
    RunInv(policies, steps);
    assert AppOk(Run(policies, steps).db, a);
  }

  /** While an incident waits, the event that will release it, or lead to it, is pending. */
  lemma NoLostWakeup(policies: Policies, steps: seq<Action>, k: IncKey)
    requires InState(Run(policies, steps).db, k, WaitingForContext)
    ensures var db := Run(policies, steps).db;
            && k.app in db.apps && k.app !in db.baselines
            && (exists i :: Current(db, k.app, i))
  {
    RunInv(policies, steps);
    assert IncidentOk(policies, Run(policies, steps).db, k) && ScopeOk(Run(policies, steps).db, k);
    OnePendingOutcome(policies, steps, k.app);
  }

  /** A release finds no earlier baseline, records its own, and leaves no incident of the application waiting. */
  lemma ReleaseWakesAll(policies: Policies, steps: seq<Action>, id: nat, order: seq<IncKey>)
    requires var db := Run(policies, steps).db;
             id < |db.outbox| && AdmissionTopic(db.outbox[id].topic) && Enumerates(order, db, db.outbox[id].app)
             && Release(db, id, order).reply == Applied
    ensures var db := Run(policies, steps).db;
            var db' := Release(db, id, order).db;
            var a := db.outbox[id].app;
            && a !in db.baselines && a in db'.baselines
            && db'.baselines[a] == Baseline(ExpectedAppState(db.outbox[id].topic), db.outbox[id].refs[0])
            && (forall k | k in db'.incidents && k.app == a :: db'.incidents[k].state != WaitingForContext)
            && (forall k | k in order && db.outbox[id].topic == ReadyTopic :: exists i :: StageEvent(db', k, i))
  {
    RunInv(policies, steps);
    ReleaseWakes(policies, Run(policies, steps).db, id, order);
  }

  lemma ReleaseWakes(policies: Policies, db: Database, id: nat, order: seq<IncKey>)
    requires Inv(policies, db) && id < |db.outbox| && AdmissionTopic(db.outbox[id].topic)
    requires Enumerates(order, db, db.outbox[id].app) && Release(db, id, order).reply == Applied
    ensures var db' := Release(db, id, order).db;
            var a := db.outbox[id].app;
            && a !in db.baselines && a in db'.baselines
            && db'.baselines[a] == Baseline(ExpectedAppState(db.outbox[id].topic), db.outbox[id].refs[0])
            && (forall k | k in db'.incidents && k.app == a :: db'.incidents[k].state != WaitingForContext)
            && (forall k | k in order && db.outbox[id].topic == ReadyTopic :: exists i :: StageEvent(db', k, i))
  {
    assert WellFormedEvent(db, db.outbox[id]);
    assert AppOk(db, db.outbox[id].app);
    var moved := ReleaseMoves(policies, db, id, order);
    if db.outbox[id].topic == ReadyTopic {
      ReleasedAreQueued(policies, db, id, order);
    }
  }

  lemma ReleasedAreQueued(policies: Policies, db: Database, id: nat, order: seq<IncKey>)
    requires Inv(policies, db) && id < |db.outbox| && db.outbox[id].topic == ReadyTopic
    requires Enumerates(order, db, db.outbox[id].app) && Release(db, id, order).reply == Applied
    ensures forall k | k in order :: exists i :: StageEvent(Release(db, id, order).db, k, i)
  {
    var db' := ReleaseInv(policies, db, id, order);
    forall k | k in order ensures exists i :: StageEvent(db', k, i) {
      assert IncidentOk(policies, db', k);
    }
  }

  // ---------------------------------------------------------- no wedged stage

  /** A stored artifact loads with everything `get` follows from it. */
  lemma RowLoadable(policies: Policies, db: Database, k: IncKey)
    requires ArtifactsSound(db.artifacts) && k in db.incidents && RowOk(policies, db, k)
    ensures Loadable(db, k)
  {
    var row := db.incidents[k];
    if row.result.Some? {
      assert SoundArtifact(db.artifacts, k.app, row.result.value);
      if EvidenceRef(row.result.value).Some? {
        assert SoundArtifact(db.artifacts, k.app, EvidenceRef(row.result.value).value);
      }
    }
  }

  lemma AwaitedResolution(policies: Policies, db: Database, id: nat)
    requires Awaited(policies, db, id) && DecisionsOk(db, KeyOf(db.outbox[id]))
    requires db.outbox[id].topic in {ResolutionTopic, ExecutionTopic, VerificationTopic}
    ensures ResolutionCheck(policies, db, db.outbox[id]) == Applied
  {
  }

  lemma AwaitedCollection(policies: Policies, db: Database, id: nat)
    requires ArtifactsSound(db.artifacts) && Awaited(policies, db, id) && db.outbox[id].topic == CollectionTopic
    ensures CollectionCheck(db, db.outbox[id]) == Applied
  {
  }

  lemma AwaitedAnalysis(policies: Policies, db: Database, id: nat)
    requires ArtifactsSound(db.artifacts) && Awaited(policies, db, id) && db.outbox[id].topic == AnalysisTopic
    ensures AnalysisCheck(db, db.outbox[id]) == Applied
  {
    var source := db.outbox[id].refs[0];
    assert SoundArtifact(db.artifacts, db.outbox[id].app, source.baseline);
  }

  lemma LiveStageReads(policies: Policies, db: Database, id: nat)
    requires Inv(policies, db) && StageId(db, id) && Live(db, id)
    ensures ReadCheck(policies, db, id) == Applied
  {
    LiveStage(policies, db, id);
    var k := KeyOf(db.outbox[id]);
    assert IncidentOk(policies, db, k) && DecisionsOk(db, k);
    RowLoadable(policies, db, k);
    if db.outbox[id].topic == CollectionTopic {
      AwaitedCollection(policies, db, id);
    } else if db.outbox[id].topic == AnalysisTopic {
      AwaitedAnalysis(policies, db, id);
    } else {
      AwaitedResolution(policies, db, id);
    }
  }

  /** The connector's answer is of the kind the stage asked for, and shows what the stage needs of it: a fresh
      diagnostic to plan on, two recovering samples in order to confirm a recovery. */
  predicate AnswerFits(e: Envelope, service: string, answer: Answer)
    requires |e.refs| == 1
  {
    match e.topic
    case CollectionTopic => answer.Gathered?
    case AnalysisTopic => answer.Analysed?
    case ResolutionTopic => answer.Diagnosed? && Fresh(answer.sample, service, answer.now, None)
    case ExecutionTopic => answer.Executed?
    case VerificationTopic =>
      var r := ResolutionOf(e.refs[0]);
      && answer.Sampled? && r.executedAt.Some?
      && Recovering(answer.first, service, answer.firstNow, r)
      && Recovering(answer.second, service, answer.secondNow, r)
      && answer.first.observedAt < answer.second.observedAt
    case _ => false
  }

  /** What a stage's handler computes from an awaited event fails
      for the answer alone, never for what the store holds. */
  lemma AnswerDecides(policies: Policies, db: Database, id: nat, answer: Answer)
    requires Awaited(policies, db, id)
    ensures var e := db.outbox[id];
            var r := StageResult(policies, e, ServiceOf(db, KeyOf(e)), answer);
            if AnswerFits(e, ServiceOf(db, KeyOf(e)), answer) then r.Ok? else r == Err(Unavailable)
  {
  }

  /** No handler refuses the live event of a queued incident by a
      check of its own, before its connector's answer or after. */
  lemma StageNeverWedged(policies: Policies, steps: seq<Action>, id: nat, answer: Answer)
    requires StageId(Run(policies, steps).db, id)
    ensures var db := Run(policies, steps).db;
            && ReadCheck(policies, db, id) == (if Live(db, id) then Applied else Unchanged)
            && (Live(db, id) ==>
                  var e := db.outbox[id];
                  && |e.refs| == 1
                  && var r := StageResult(policies, e, ServiceOf(db, KeyOf(e)), answer);
                  if AnswerFits(e, ServiceOf(db, KeyOf(e)), answer) then r.Ok? else r == Err(Unavailable))
  {
    var db := Run(policies, steps).db;
    RunInv(policies, steps);
    if Live(db, id) {
      LiveStageReads(policies, db, id);
      LiveStage(policies, db, id);
      AnswerDecides(policies, db, id, answer);
    }
  }

  /** Nor does the store refuse a commit: for every answer it is
      applied exactly if the answer fits, and a failure always is. */
  lemma CommitNeverWedged(policies: Policies, steps: seq<Action>, id: nat, answer: Answer, seen: Option<Content>,
                          reason: string)
    requires StageId(Run(policies, steps).db, id) && Live(Run(policies, steps).db, id)
    ensures var db := Run(policies, steps).db;
            var e := db.outbox[id];
            && |e.refs| == 1
            && CommitTask(policies, db, StageTask(id, answer)).reply ==
                 (if AnswerFits(e, ServiceOf(db, KeyOf(e)), answer) then Applied else Refused(Unavailable))
            && CommitTask(policies, db, FailTask(id, seen, reason)).reply == Applied
  {
    RunInv(policies, steps);
    CommitAccepted(policies, Run(policies, steps).db, id, answer, seen, reason);
  }

  lemma CommitAccepted(policies: Policies, db: Database, id: nat, answer: Answer, seen: Option<Content>, reason: string)
    requires Inv(policies, db) && StageId(db, id) && Live(db, id)
    ensures var e := db.outbox[id];
            && |e.refs| == 1
            && CommitTask(policies, db, StageTask(id, answer)).reply ==
                 (if AnswerFits(e, ServiceOf(db, KeyOf(e)), answer) then Applied else Refused(Unavailable))
            && CommitTask(policies, db, FailTask(id, seen, reason)).reply == Applied
  {
    LiveStage(policies, db, id);
    AnswerDecides(policies, db, id, answer);
    assert WellFormedEvent(db, db.outbox[id]);
  }

  predicate AppAnswerFits(t: Topic, answer: Answer) {
    || (t == DiscoveryTopic && answer.Discovered? && answer.manifest.Manifest?)
    || (t == ContextTopic && answer.ContextPrepared?)
  }

  /** The pending onboarding event of an application is accepted as long as it is pending. */
  lemma OnboardingNeverWedged(policies: Policies, steps: seq<Action>, id: nat, seen: Option<Content>, reason: string)
    requires OnboardingId(Run(policies, steps).db, id) && Live(Run(policies, steps).db, id)
    ensures var db := Run(policies, steps).db;
            && ReadCheck(policies, db, id) == Applied
            && (forall answer ::
                  CommitTask(policies, db, StageTask(id, answer)).reply ==
                    if AppAnswerFits(db.outbox[id].topic, answer) then Applied else Refused(Unavailable))
            && CommitTask(policies, db, FailTask(id, seen, reason)).reply == Applied
  {
    var db := Run(policies, steps).db;
    RunInv(policies, steps);
    var e := db.outbox[id];
    assert WellFormedEvent(db, e) && AppOk(db, e.app);
    assert PendingAppEvent(db, e.app, id);
    assert Current(db, e.app, id);
    assert e.topic == ContextTopic ==> e.refs[0] in e.refs;
  }

  /** A context notification is accepted exactly while it is of
      the present version; a stale one is refused as invalid. */
  lemma AdmissionAcceptedIffCurrent(policies: Policies, steps: seq<Action>, id: nat)
    requires var db := Run(policies, steps).db; id < |db.outbox| && AdmissionTopic(db.outbox[id].topic)
    ensures var db := Run(policies, steps).db;
            ReleaseCheck(db, id) ==
              if !Live(db, id) then Unchanged
              else if Current(db, db.outbox[id].app, id) then Applied
              else Refused(Invalid)
  {
    var db := Run(policies, steps).db;
    RunInv(policies, steps);
    var e := db.outbox[id];
    assert WellFormedEvent(db, e) && AppOk(db, e.app);
    assert e.refs[0] in e.refs;
    if Live(db, id) {
      assert PendingAppEvent(db, e.app, id);
    }
  }

  // --------------------------------------------------------------- decisions

  /** A decision is accepted exactly for the plan the incident awaits one on, before it expires; nothing else the
      store holds can refuse it, and no second decision is ever accepted. */
  lemma DecisionAcceptedIff(policies: Policies, steps: seq<Action>, k: IncKey, plan: Plan, decision: Decision,
                            now: Instant)
    requires k in Run(policies, steps).db.incidents
    ensures var db := Run(policies, steps).db;
            Decide(policies, db, k, plan, decision, None, now).reply == Applied <==>
              db.incidents[k].state == AwaitingApproval && PlanOf(db.incidents[k]) == Some(plan) && now < plan.expiresAt
  {
    RunInv(policies, steps);
    DecisionAccepted(policies, Run(policies, steps).db, k, plan, decision, None, now);
  }

  /** What the authorization handler answers: it repeats nothing, refuses a moved incident as invalid, and
      otherwise approves unless the plan or the policy's mandate has expired. */
  lemma AuthorizationAcceptedIff(policies: Policies, steps: seq<Action>, id: nat, now: Instant)
    requires AuthorizationId(Run(policies, steps).db, id)
    ensures var db := Run(policies, steps).db;
            var e := db.outbox[id];
            && KeyOf(e) in db.incidents && EventPlan(e).Some?
            && Authorize(policies, db, id, now).reply ==
                 if !Live(db, id) then Unchanged
                 else if db.incidents[KeyOf(e)].state != AwaitingApproval then Refused(Invalid)
                 else if InForceAt(EventPlan(e).value, now) then Applied
                 else Refused(Unavailable)
  {
    var db := Run(policies, steps).db;
    RunInv(policies, steps);
    AuthorizationBound(policies, db, id);
    AuthorizationReads(policies, db, id);
    DecisionAccepted(policies, db, KeyOf(db.outbox[id]), EventPlan(db.outbox[id]).value, Approve, Some(id), now);
  }

  /** Neither the plan nor the mandate of its policy has expired. */
  predicate InForceAt(plan: Plan, now: Instant) {
    && now < plan.expiresAt
    && plan.policy.automaticUntil.Some? && now < plan.policy.automaticUntil.value
  }

  /** The handler's own checks pass exactly while its event is live and its incident waits. */
  lemma AuthorizationReads(policies: Policies, db: Database, id: nat)
    requires Inv(policies, db) && AuthorizationId(db, id)
    ensures KeyOf(db.outbox[id]) in db.incidents
    ensures ReadCheck(policies, db, id) ==
              if !Live(db, id) then Unchanged
              else if db.incidents[KeyOf(db.outbox[id])].state != AwaitingApproval then Refused(Invalid)
              else Applied
  {
    var e := db.outbox[id];
    AuthorizationLoads(policies, db, id);
    if db.incidents[KeyOf(e)].state == AwaitingApproval {
      AuthorizationBound(policies, db, id);
      assert IncidentOk(policies, db, KeyOf(e));
      AuthorizationChecks(policies, db, KeyOf(e), e);
    }
  }

  lemma AuthorizationLoads(policies: Policies, db: Database, id: nat)
    requires Inv(policies, db) && AuthorizationId(db, id)
    ensures var e := db.outbox[id];
            && KeyOf(e) in db.incidents && Loadable(db, KeyOf(e)) && |e.refs| == 1 && (e.app, e.refs[0]) in db.artifacts
  {
    var e := db.outbox[id];
    assert WellFormedEvent(db, e);
    assert IncidentOk(policies, db, KeyOf(e));
    RowLoadable(policies, db, KeyOf(e));
    assert e.refs[0] in e.refs;
  }

  lemma AuthorizationChecks(policies: Policies, db: Database, k: IncKey, e: Envelope)
    requires e.topic == AuthorizationTopic && e.incident.Some? && k == KeyOf(e) && k in db.incidents && |e.refs| == 1
    requires db.incidents[k].state == AwaitingApproval && AsksFor(db.incidents[k], e)
    requires RowOk(policies, db, k) && ScopeOk(db, k)
    ensures ResolutionCheck(policies, db, e) == Applied
  {
  }

  lemma AuthorizationBound(policies: Policies, db: Database, id: nat)
    requires Inv(policies, db) && AuthorizationId(db, id)
    ensures var e := db.outbox[id];
            && KeyOf(e) in db.incidents && |e.refs| == 1
            && AsksFor(db.incidents[KeyOf(e)], e)
            && ResolutionOf(e.refs[0]).plan == EventPlan(e)
  {
    var e := db.outbox[id];
    assert WellFormedEvent(db, e);
    assert IncidentOk(policies, db, KeyOf(e)) && LateEventsOk(db, KeyOf(e));
    assert EventOf(db, KeyOf(e), AuthorizationTopic, id);
  }

  lemma DecisionAccepted(policies: Policies, db: Database, k: IncKey, plan: Plan, decision: Decision,
                         event: Option<nat>, now: Instant)
    requires Inv(policies, db) && k in db.incidents
    requires event.Some? ==> event.value < |db.outbox| && db.outbox[event.value].topic == AuthorizationTopic
    ensures Decide(policies, db, k, plan, decision, event, now).reply == Applied <==>
              && db.incidents[k].state == AwaitingApproval
              && PlanOf(db.incidents[k]) == Some(plan)
              && now < plan.expiresAt
              && (event.Some? ==>
                    && Live(db, event.value)
                    && plan.policy.automaticUntil.Some? && now < plan.policy.automaticUntil.value)
    ensures db.incidents[k].state == AwaitingApproval && (event.Some? ==> Live(db, event.value)) ==>
              Decide(policies, db, k, plan, decision, event, now).reply != Unchanged
  {
    assert IncidentOk(policies, db, k) && RowOk(policies, db, k) && DecisionsOk(db, k) && ScopeOk(db, k);
  }
}
