/**
 What operators' transactions accept, and what they write, in any database a run reaches. Each answer
 is stated by what the tables show, and a transaction that is not applied writes nothing.
*/
module Operators {
  import opened Model
  import opened Transactions
  import opened Pipeline
  import opened Invariants
  import opened OperatorSteps
  import opened Reachable
  import opened Safety
  import opened History

  /** The transaction answers so: applied, a repetition, what it is about is missing, or else invalid; and it
      writes nothing unless it is applied. */
  predicate Answers(db: Database, o: Outcome, applied: bool, repeated: bool, missing: bool) {
    && (o.reply == Applied <==> applied)
    && (o.reply == Unchanged <==> repeated)
    && (o.reply == Refused(Unavailable) <==> missing)
    && (o.reply != Applied ==> o.db == db)
  }

  // ------------------------------------------------------------ applications

  /** A new application under two names is queued for discovery at
      its first version; the same registration again changes nothing. */
  lemma OnboardExactly(db: Database, a: AppId, config: Config)
    ensures var o := Onboard(db, a, config);
            var named := a.tenant != "" && a.application != "";
            && Answers(db, o, named && a !in db.apps, named && a in db.apps && db.apps[a].config == config, false)
            && (o.reply == Applied ==>
                  o.db == db.(apps := db.apps[a := Application(config, DiscoveryQueued, 1)],
                              outbox := db.outbox + [Envelope(DiscoveryTopic, a, None, [], None, None, None)]))
  {
  }

  /** No incident of the application is under way. */
  predicate AllDone(db: Database, a: AppId) {
    forall k | k in db.incidents && k.app == a ::
      db.incidents[k].state in
        {BlockedByContext, Assessed, Failed, Recovered, ResolutionRejected, ResolutionFailed}
  }

  predicate AllDoneOrWaiting(db: Database, a: AppId) {
    forall k | k in db.incidents && k.app == a ::
      db.incidents[k].state in
        {WaitingForContext, BlockedByContext, Assessed, Failed, Recovered, ResolutionRejected, ResolutionFailed}
  }

  /** Every event of the application's own was handled. */
  predicate AllHandled(db: Database, a: AppId) {
    forall i | 0 <= i < |db.outbox| && db.outbox[i].app == a && db.outbox[i].incident == None :: Consumed(db, i)
  }

  /** A revision is applied exactly to the version it names, with a new registration, between rounds: then the
      next version starts from discovery without a baseline, and both registrations are on record. */
  lemma ReviseExactly(policies: Policies, db: Database, a: AppId, version: nat, config: Config)
    requires Reached(policies, db)
    ensures var o := Revise(db, a, version, config);
            var expected := a in db.apps && db.apps[a].version == version;
            && Answers(db, o,
                       expected && db.apps[a].config != config
                       && db.apps[a].state in {ContextReady, ContextBlocked} && AllDone(db, a) && AllHandled(db, a),
                       expected && db.apps[a].config == config,
                       a !in db.apps)
            && (o.reply == Applied ==>
                  o.db == db.(apps := db.apps[a := Application(config, DiscoveryQueued, version + 1)],
                              baselines := db.baselines - {a},
                              revisions := db.revisions[(a, version) := db.apps[a].config][(a, version + 1) := config],
                              outbox := db.outbox + [Envelope(DiscoveryTopic, a, None, [], Some(version + 1), None,
                                                              None)]))
  {
    ReachedInv(policies, db);
    HandledMeansNonePending(policies, db, a);
    DoneMeansNoneActive(db, a);
    if Revise(db, a, version, config).reply == Applied {
      var steps :| db == Run(policies, steps).db;
      RevisionRecordsBoth(policies, steps, a, version, config);
    }
    RevisionAnswers(db, a, version, config, AllDone(db, a), AllHandled(db, a));
  }

  lemma RevisionAnswers(db: Database, a: AppId, version: nat, config: Config, done: bool, handled: bool)
    requires done <==> !HasIncidentIn(db, a, ACTIVE)
    requires handled <==> !HasPendingAppEvent(db, a)
    requires Revise(db, a, version, config).reply == Applied ==>
               && (a, version) !in db.revisions && (a, version + 1) !in db.revisions
    ensures var o := Revise(db, a, version, config);
            var expected := a in db.apps && db.apps[a].version == version;
            && Answers(db, o,
                       expected && db.apps[a].config != config
                       && db.apps[a].state in {ContextReady, ContextBlocked} && done && handled,
                       expected && db.apps[a].config == config,
                       a !in db.apps)
            && (o.reply == Applied ==>
                  o.db == db.(apps := db.apps[a := Application(config, DiscoveryQueued, version + 1)],
                              baselines := db.baselines - {a},
                              revisions := db.revisions[(a, version) := db.apps[a].config][(a, version + 1) := config],
                              outbox := db.outbox + [Envelope(DiscoveryTopic, a, None, [], Some(version + 1), None,
                                                              None)]))
  {
  }

  lemma HandledMeansNonePending(policies: Policies, db: Database, a: AppId)
    requires Inv(policies, db)
    ensures AllHandled(db, a) <==> !HasPendingAppEvent(db, a)
  {
    forall i | 0 <= i < |db.outbox| ensures ApplicationTopic(db.outbox[i].topic) <==> db.outbox[i].incident == None {
      assert WellFormedEvent(db, db.outbox[i]);
    }
    if !HasPendingAppEvent(db, a) {
      forall i | 0 <= i < |db.outbox| && db.outbox[i].app == a && db.outbox[i].incident == None
        ensures Consumed(db, i)
      {
        assert !PendingAppEvent(db, a, i);
      }
    }
  }

  lemma DoneMeansNoneActive(db: Database, a: AppId)
    ensures AllDone(db, a) <==> !HasIncidentIn(db, a, ACTIVE)
    ensures AllDoneOrWaiting(db, a) <==> !HasIncidentIn(db, a, ACTIVE - {WaitingForContext})
  {
    forall k | k in db.incidents && k.app == a
      ensures db.incidents[k].state in ACTIVE <==>
                db.incidents[k].state !in
                  {BlockedByContext, Assessed, Failed, Recovered, ResolutionRejected, ResolutionFailed}
    {
      ActiveOrDone(db.incidents[k].state);
    }
  }

  lemma ActiveOrDone(s: IncState)
    ensures s in ACTIVE <==>
              s !in {BlockedByContext, Assessed, Failed, Recovered, ResolutionRejected, ResolutionFailed}
  {
    match s
    case WaitingForContext =>
    case CollectionQueued =>
    case AnalysisQueued =>
    case ResolutionQueued =>
    case AwaitingApproval =>
    case ExecutionQueued =>
    case VerificationQueued =>
    case _ =>
  }

  /** A refresh is applied exactly between rounds, whatever waits for context,
      once every event of the application and its incidents is published: then
      the next version starts from discovery under the same registration. */
  lemma RefreshExactly(db: Database, a: AppId)
    ensures var o := Refresh(db, a);
            && Answers(db, o,
                       && a in db.apps && db.apps[a].state in {ContextReady, ContextBlocked}
                       && AllDoneOrWaiting(db, a)
                       && (forall i | 0 <= i < |db.outbox| && db.outbox[i].app == a :: i in db.published),
                       false,
                       a !in db.apps)
            && (o.reply == Applied ==>
                  var row := db.apps[a];
                  o.db == db.(apps := db.apps[a := Application(row.config, DiscoveryQueued, row.version + 1)],
                              baselines := db.baselines - {a},
                              outbox := db.outbox + [Envelope(DiscoveryTopic, a, None, [], None, None, None)]))
  {
    DoneMeansNoneActive(db, a);
  }

  // --------------------------------------------------------------- admission

  /** Named, positive, at most a day long, and over at most five minutes ahead of the clock. */
  predicate SoundWindow(k: IncKey, request: Request, now: Instant) {
    && k.incident != "" && request.service != ""
    && request.windowStart < request.windowEnd
    && request.windowEnd - request.windowStart <= 24 * 3600 * SECOND
    && request.windowEnd <= now + 300 * SECOND
  }

  /** A sound request for a registered service is admitted under a new
      key, and changes nothing under a key that holds the same request. */
  lemma AdmitExactly(policies: Policies, db: Database, k: IncKey, request: Request, now: Instant)
    requires Reached(policies, db)
    ensures var o := Admit(db, k, request, now);
            var welcome := SoundWindow(k, request, now) && k.app in db.apps
                           && request.service in db.apps[k.app].config.services;
            && Answers(db, o, welcome && k !in db.incidents,
                       welcome && k in db.incidents && db.incidents[k].request == request,
                       SoundWindow(k, request, now) && k.app !in db.apps)
            && (o.reply == Applied ==> Admitted(db, o.db, k, request))
  {
    ReachedInv(policies, db);
    assert k.app in db.apps ==> AppOk(db, k.app);
    AdmissionAnswers(db, k, request, now);
  }

  lemma AdmissionAnswers(db: Database, k: IncKey, request: Request, now: Instant)
    requires k.app in db.apps ==> BaselineOk(db, k.app)
    ensures var o := Admit(db, k, request, now);
            var welcome := SoundWindow(k, request, now) && k.app in db.apps
                           && request.service in db.apps[k.app].config.services;
            && Answers(db, o, welcome && k !in db.incidents,
                       welcome && k in db.incidents && db.incidents[k].request == request,
                       SoundWindow(k, request, now) && k.app !in db.apps)
            && (o.reply == Applied ==> Admitted(db, o.db, k, request))
  {
  }

  /** The incident waits while its application has no baseline; on a ready context its collection is requested
      with the baseline; on a blocked one it is blocked. */
  ghost predicate Admitted(db: Database, db': Database, k: IncKey, request: Request) {
    && k.app in db.apps
    && if k.app !in db.baselines then
         db' == db.(incidents := db.incidents[k := Incident(request, WaitingForContext, None)])
       else if db.apps[k.app].state == ContextReady then
         && db' == db.(incidents := db.incidents[k := Incident(request, CollectionQueued, None)],
                       outbox := db.outbox + [Envelope(CollectionTopic, k.app, Some(k.incident),
                                                       [db.baselines[k.app].ref], None, None, None)])
         && db.baselines[k.app].state == ContextReady && BaselineReady(db.baselines[k.app].ref)
       else
         && db.baselines[k.app].state == ContextBlocked
         && db' == db.(incidents := db.incidents[k := Incident(request, BlockedByContext, None)])
  }

  /** What an admission on a ready context sends is the incident's live event. */
  lemma AdmittedIsDue(policies: Policies, db: Database, k: IncKey, request: Request, now: Instant)
    requires Reached(policies, db) && Admit(db, k, request, now).reply == Applied
    requires k.app in db.baselines && db.apps[k.app].state == ContextReady
    ensures var db' := Admit(db, k, request, now).db;
            && InState(db', k, CollectionQueued) && StageEvent(db', k, |db.outbox|)
            && db'.outbox[|db.outbox|].refs == [db.baselines[k.app].ref]
  {
    ReachedInv(policies, db);
    AdmitExactly(policies, db, k, request, now);
    var db' := Admit(db, k, request, now).db;
    assert (CollectionWorker, |db.outbox|) !in db'.inbox;
  }

  // --------------------------------------------------------- reinvestigation

  /** An investigation that is over is taken up again, as the caller saw it, for a service still registered and
      on a ready context; on stored evidence only after an assessment. */
  lemma ReinvestigateExactly(policies: Policies, db: Database, k: IncKey, expected: Option<Content>, mode: Mode)
    requires Reached(policies, db)
    ensures var o := Reinvestigate(db, k, expected, mode);
            && Answers(db, o,
                       && k in db.incidents && k.app in db.apps
                       && db.incidents[k].result == expected
                       && db.incidents[k].state in {Assessed, Failed, BlockedByContext}
                       && db.incidents[k].request.service in db.apps[k.app].config.services
                       && k.app in db.baselines && db.apps[k.app].state == ContextReady
                       && (mode == Recollect || (mode == Reanalyze && db.incidents[k].state == Assessed)),
                       false,
                       k !in db.incidents)
            && (o.reply == Applied && mode == Recollect ==>
                  Requeued(db, o.db, k, CollectionQueued, None, CollectionTopic, db.baselines[k.app].ref,
                           db.incidents[k].result))
            && (o.reply == Applied && mode == Reanalyze ==>
                  exists evidence :: ReanalyzesOn(db, k, evidence)
                    && Requeued(db, o.db, k, AnalysisQueued, Some(evidence), AnalysisTopic, evidence, None))
  {
    ReachedInv(policies, db);
    if k in db.incidents {
      assert IncidentOk(policies, db, k) && AppOk(db, k.app);
      StoredEvidenceAnswers(policies, db, k);
    }
    ReinvestigationAnswers(db, k, expected, mode);
    if Reinvestigate(db, k, expected, mode).reply == Applied {
      ReinvestigationWrites(db, k, expected, mode);
      if mode == Reanalyze {
        FallsBackWhenSparse(policies, db, k);
        assert ReanalyzesOn(db, k, StoredEvidence(db, k, db.incidents[k]).value);
      }
    }
  }

  lemma StoredEvidenceAnswers(policies: Policies, db: Database, k: IncKey)
    requires Inv(policies, db) && k in db.incidents
    ensures db.incidents[k].state in {Assessed, Failed, BlockedByContext} ==>
              var r := StoredEvidence(db, k, db.incidents[k]);
              if db.incidents[k].state == Assessed then r.Ok? else r == Err(Invalid)
  {
    if db.incidents[k].state in {Assessed, Failed, BlockedByContext} {
      assert IncidentOk(policies, db, k);
      StoredEvidenceOk(policies, db, k);
    }
  }

  lemma ReinvestigationAnswers(db: Database, k: IncKey, expected: Option<Content>, mode: Mode)
    requires k in db.incidents ==> k.app in db.apps && BaselineOk(db, k.app)
    requires k in db.incidents && db.incidents[k].state in {Assessed, Failed, BlockedByContext} ==>
               var r := StoredEvidence(db, k, db.incidents[k]);
               if db.incidents[k].state == Assessed then r.Ok? else r == Err(Invalid)
    ensures Answers(db, Reinvestigate(db, k, expected, mode),
                    && k in db.incidents && k.app in db.apps
                    && db.incidents[k].result == expected
                    && db.incidents[k].state in {Assessed, Failed, BlockedByContext}
                    && db.incidents[k].request.service in db.apps[k.app].config.services
                    && k.app in db.baselines && db.apps[k.app].state == ContextReady
                    && (mode == Recollect || (mode == Reanalyze && db.incidents[k].state == Assessed)),
                    false,
                    k !in db.incidents)
  {
  }

  lemma ReinvestigationWrites(db: Database, k: IncKey, expected: Option<Content>, mode: Mode)
    requires Reinvestigate(db, k, expected, mode).reply == Applied
    ensures var o := Reinvestigate(db, k, expected, mode);
            && (mode == Recollect ==>
                  && k in db.incidents && k.app in db.baselines
                  && Requeued(db, o.db, k, CollectionQueued, None, CollectionTopic, db.baselines[k.app].ref,
                              db.incidents[k].result))
            && (mode == Reanalyze ==>
                  && k in db.incidents && StoredEvidence(db, k, db.incidents[k]).Ok?
                  && var evidence := StoredEvidence(db, k, db.incidents[k]).value;
                  Requeued(db, o.db, k, AnalysisQueued, Some(evidence), AnalysisTopic, evidence, None))
  {
  }

  /** The round before is logged, and the next one queued with its request. */
  ghost predicate Requeued(db: Database, db': Database, k: IncKey, state: IncState, result: Option<Content>,
                           topic: Topic, ref: Content, previous: Option<Content>)
  {
    && k in db.incidents
    && var row := db.incidents[k];
    && db' == db.(runs := db.runs + [Rerun(k, row.result, row.state)],
                  incidents := db.incidents[k := Incident(row.request, state, result)],
                  outbox := db.outbox + [Envelope(topic, k.app, Some(k.incident), [ref], None, previous, None)])
  }

  /** The evidence has no trace, and a source of it matched nothing. */
  predicate Thin(c: Content) {
    && c.Evidence? && (forall r | r in c.records :: r.kind in {Metric, Log})
    && exists s | s in c.outcomes :: s == NoMatches
  }

  /** A reanalysis rests on the assessment's own evidence, unless that is thin and an earlier round had records:
      then on the latest such round's. */
  ghost predicate ReanalyzesOn(db: Database, k: IncKey, evidence: Content) {
    && k in db.incidents && db.incidents[k].result.Some? && db.incidents[k].result.value.Assessment?
    && var own := db.incidents[k].result.value.evidence;
    && (!Thin(own) || (forall i :: !UsableRun(db, k, i)) ==> evidence == own)
    && (Thin(own) ==> forall i | UsableRun(db, k, i) && (forall j | j > i :: !UsableRun(db, k, j)) ::
          evidence == db.runs[i].previousResult.value.evidence)
  }

  lemma FallsBackWhenSparse(policies: Policies, db: Database, k: IncKey)
    requires Inv(policies, db) && InState(db, k, Assessed)
    ensures StoredEvidence(db, k, db.incidents[k]).Ok?
    ensures ReanalyzesOn(db, k, StoredEvidence(db, k, db.incidents[k]).value)
  {
    assert IncidentOk(policies, db, k);
    StoredEvidenceOk(policies, db, k);
    PriorEvidenceOk(db, k, |db.runs|);
    NoPriorEvidence(db, k, |db.runs|);
    forall i | UsableRun(db, k, i) && (forall j | j > i :: !UsableRun(db, k, j))
      ensures PriorEvidence(db, k, |db.runs|) == Ok(Some(db.runs[i].previousResult.value.evidence))
    {
      PriorEvidenceIsLatest(db, k, |db.runs|, i);
    }
  }

  // --------------------------------------------------------------- decisions

  /** The decision is on record under the authority, the incident goes on with its result as it is, and an
      approval requests the execution. */
  ghost predicate DecisionStored(db: Database, db': Database, k: IncKey, plan: Plan, decision: Decision,
                                 authority: Authority, recorded: set<(Consumer, nat)>)
  {
    && k in db.incidents && db.incidents[k].result.Some?
    && var row := db.incidents[k];
    var approved := decision == Approve;
    db' == db.(approvals := db.approvals[(k, plan) := Approval(decision, authority)],
               incidents := db.incidents[k := Incident(row.request,
                                                       if approved then ExecutionQueued else ResolutionRejected,
                                                       row.result)],
               inbox := db.inbox + recorded,
               outbox := db.outbox + if approved
                                     then [Envelope(ExecutionTopic, k.app, Some(k.incident), [row.result.value], None,
                                                    None, None)]
                                     else [])
  }

  /** An operator's decision is stored exactly on the plan awaited
      and in time; the same decision again changes nothing. */
  lemma DecideExactly(policies: Policies, db: Database, k: IncKey, plan: Plan, decision: Decision, now: Instant)
    requires Reached(policies, db)
    ensures var o := Decide(policies, db, k, plan, decision, None, now);
            && Answers(db, o,
                       InState(db, k, AwaitingApproval) && PlanOf(db.incidents[k]) == Some(plan)
                       && now < plan.expiresAt,
                       (k, plan) in db.approvals && db.approvals[(k, plan)].decision == decision,
                       k !in db.incidents)
            && (o.reply == Applied ==> DecisionStored(db, o.db, k, plan, decision, Operator, {}))
  {
    ReachedInv(policies, db);
    if k in db.incidents {
      assert IncidentOk(policies, db, k) && ScopeOk(db, k) && RowOk(policies, db, k);
      DecisionAccepted(policies, db, k, plan, decision, None, now);
      DecisionAnswers(policies, db, k, plan, decision, None, now);
    }
    DecisionWrites(policies, db, k, plan, decision, None, now);
  }

  lemma DecisionAnswers(policies: Policies, db: Database, k: IncKey, plan: Plan, decision: Decision, event: Option<nat>,
                        now: Instant)
    requires event.Some? ==> event.value < |db.outbox| && db.outbox[event.value].topic == AuthorizationTopic
    requires k in db.incidents && k.app in db.apps && RowOk(policies, db, k)
    ensures var o := Decide(policies, db, k, plan, decision, event, now);
            && (o.reply == Unchanged <==>
                  || (event.Some? && !Live(db, event.value))
                  || ((k, plan) in db.approvals && db.approvals[(k, plan)].decision == decision))
            && o.reply != Refused(Unavailable)
  {
  }

  lemma DecisionWrites(policies: Policies, db: Database, k: IncKey, plan: Plan, decision: Decision, event: Option<nat>,
                       now: Instant)
    requires event.Some? ==> event.value < |db.outbox| && db.outbox[event.value].topic == AuthorizationTopic
    ensures var o := Decide(policies, db, k, plan, decision, event, now);
            if o.reply != Applied then o.db == db
            else if event.None? then DecisionStored(db, o.db, k, plan, decision, Operator, {})
            else DecisionStored(db, o.db, k, plan, decision, Preauthorized, {(AuthorizationWorker, event.value)})
  {
  }

  /** An approval by the policy is stored as one, and consumes the event that asked for it: exactly on a live
      event of a waiting incident, while neither its plan nor its mandate has expired. It changes nothing once
      the event is recorded or its plan approved; whatever else refuses it may pass. */
  lemma AuthorizationExactly(policies: Policies, db: Database, id: nat, now: Instant)
    requires Reached(policies, db) && AuthorizationId(db, id)
    ensures KeyOf(db.outbox[id]) in db.incidents && EventPlan(db.outbox[id]).Some?
    ensures var o := Approved(policies, db, id, now);
            var k := KeyOf(db.outbox[id]);
            var plan := EventPlan(db.outbox[id]).value;
            var until := plan.policy.automaticUntil;
            var approved := (k, plan) in db.approvals && db.approvals[(k, plan)].decision == Approve;
            && (o.reply == Applied <==>
                  Live(db, id) && db.incidents[k].state == AwaitingApproval
                  && now < plan.expiresAt && until.Some? && now < until.value)
            && (o.reply == Unchanged <==> !Live(db, id) || approved)
            && o.reply != Refused(Invalid)
            && if o.reply == Applied
               then DecisionStored(db, o.db, k, plan, Approve, Preauthorized, {(AuthorizationWorker, id)})
               else o.db == db
  {
    ReachedInv(policies, db);
    AuthorizationBound(policies, db, id);
    var k := KeyOf(db.outbox[id]);
    assert IncidentOk(policies, db, k) && RowOk(policies, db, k) && ScopeOk(db, k);
    var plan := EventPlan(db.outbox[id]).value;
    DecisionAccepted(policies, db, k, plan, Approve, Some(id), now);
    DecisionAnswers(policies, db, k, plan, Approve, Some(id), now);
    DecisionWrites(policies, db, k, plan, Approve, Some(id), now);
  }
}
