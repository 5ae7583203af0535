/**
 What each handler makes of its event, in any database a run reaches: the row, the artifact and the
 following event that a commit leaves, from what the connector told and nothing else.
*/
module Handlers {
  import opened Model
  import opened Transactions
  import opened Pipeline
  import opened Invariants
  import opened IncidentSteps
  import opened ReleaseStep
  import opened Reachable
  import opened Safety

  /** One incident's row and result are written, its event is recorded for the worker, and these are sent. */
  ghost predicate Writes(db: Database, db': Database, k: IncKey, row: Incident, worker: Consumer, id: nat,
                         sent: seq<Envelope>) {
    && row.result.Some?
    && db' == db.(incidents := db.incidents[k := row],
                  artifacts := db.artifacts + {(k.app, row.result.value)},
                  inbox := db.inbox + {(worker, id)},
                  outbox := db.outbox + sent)
  }

  /** The event of the incident's next stage, about the result and caused by the event before. */
  function Following(k: IncKey, topic: Topic, result: Content, id: nat): Envelope {
    Envelope(topic, k.app, Some(k.incident), [result], None, None, Some(id))
  }

  /** A live event of the incident in this state. */
  ghost predicate Due(policies: Policies, db: Database, k: IncKey, s: IncState, id: nat) {
    Reached(policies, db) && InState(db, k, s) && StageEvent(db, k, id)
  }

  lemma DueIsAwaited(policies: Policies, db: Database, k: IncKey, s: IncState, id: nat)
    requires Due(policies, db, k, s, id)
    ensures Inv(policies, db) && StageId(db, id) && Live(db, id) && Awaited(policies, db, id)
    ensures KeyOf(db.outbox[id]) == k && ExpectedState(db.outbox[id].topic) == s
  {
    ReachedInv(policies, db);
    LiveStage(policies, db, id);
  }

  lemma CompleteWrites(db: Database, id: nat, expected: IncState, c: Commit)
    requires id < |db.outbox| && db.outbox[id].incident.Some? && StageCheck(db, id, expected) == Applied
    requires c.topic != Some(CollectionTopic)
    ensures var o := Complete(db, id, expected, c.next, c.result, c.topic);
            var k := KeyOf(db.outbox[id]);
            && o.reply == Applied
            && Writes(db, o.db, k, Incident(db.incidents[k].request, c.next, Some(c.result)),
                      ConsumerOf(db.outbox[id].topic), id,
                      if c.topic.Some? then [Following(k, c.topic.value, c.result, id)] else [])
  {
  }

  lemma AwaitedChecks(policies: Policies, db: Database, id: nat)
    requires Awaited(policies, db, id) && Live(db, id)
    ensures StageCheck(db, id, ExpectedState(db.outbox[id].topic)) == Applied
  {
  }

  /** Whatever is computed from an awaited event is written with it, or refused as it was. */
  lemma CommitWrites(policies: Policies, db: Database, id: nat, answer: Answer, r: Result<Commit>)
    requires Awaited(policies, db, id) && Live(db, id)
    requires r == StageResult(policies, db.outbox[id], ServiceOf(db, KeyOf(db.outbox[id])), answer)
    requires r.Ok? ==> r.value.topic != Some(CollectionTopic)
    ensures var o := CommitTask(policies, db, StageTask(id, answer));
            var k := KeyOf(db.outbox[id]);
            match r
            case Err(f) => o == Outcome(db, Refused(f))
            case Ok(c) =>
              && o.reply == Applied
              && Writes(db, o.db, k, Incident(db.incidents[k].request, c.next, Some(c.result)),
                        ConsumerOf(db.outbox[id].topic), id,
                        if c.topic.Some? then [Following(k, c.topic.value, c.result, id)] else [])
  {
    AwaitedChecks(policies, db, id);
    if r.Ok? {
      CompleteWrites(db, id, ExpectedState(db.outbox[id].topic), r.value);
      assert ChangeOf(policies, db, StageTask(id, answer)) == Ok(IncChange(r.value));
    }
  }

  /** What `fail` asks to be written of an awaited event: the reason of an early stage, the resolution of a late one. */
  lemma FailureWrites(policies: Policies, db: Database, id: nat, seen: Option<Content>, reason: string)
    requires Awaited(policies, db, id) && Live(db, id)
    ensures var o := CommitTask(policies, db, FailTask(id, seen, reason));
            var k := KeyOf(db.outbox[id]);
            var t := db.outbox[id].topic;
            && o.reply == Applied
            && if t == CollectionTopic || t == AnalysisTopic
               then Writes(db, o.db, k,
                           Incident(db.incidents[k].request, Failed, Some(StageFailure(reason, ConsumerOf(t)))),
                           ConsumerOf(t), id, [])
               else Writes(db, o.db, k,
                           Incident(db.incidents[k].request, ResolutionFailed,
                                    Some(FailedResolution(seen, ConsumerOf(t)))),
                           ConsumerOf(t), id, [])
  {
    AwaitedChecks(policies, db, id);
    var t := db.outbox[id].topic;
    var early := t == CollectionTopic || t == AnalysisTopic;
    var c := if early then Commit(Failed, StageFailure(reason, ConsumerOf(t)), None)
             else Commit(ResolutionFailed, FailedResolution(seen, ConsumerOf(t)), None);
    CompleteWrites(db, id, ExpectedState(t), c);
    assert ChangeOf(policies, db, FailTask(id, seen, reason)) == Ok(IncChange(c));
  }

  // ------------------------------------------------------------- collection

  /** The evidence of an earlier assessment, if the event names one. */
  function PriorOf(e: Envelope): Option<Content> {
    if e.previous.Some? && e.previous.value.Assessment? && e.previous.value.evidence.Evidence?
    then Some(e.previous.value.evidence) else None
  }

  /** What was gathered is stored under the incident and the baseline asked for, all of it; only when nothing was
      found are the records and outcomes of the evidence before stored again, marked as retained. */
  lemma CollectionStores(policies: Policies, db: Database, k: IncKey, id: nat, records: seq<Record>,
                         outcomes: seq<SourceStatus>)
    requires Due(policies, db, k, CollectionQueued, id)
    ensures k.app in db.baselines
    ensures var o := CommitTask(policies, db, StageTask(id, Gathered(records, outcomes)));
            var ref := db.baselines[k.app].ref;
            var prior := PriorOf(db.outbox[id]);
            var evidence := if records == [] && prior.Some?
                            then Evidence(k.incident, ref, prior.value.records, prior.value.outcomes, true)
                            else Evidence(k.incident, ref, records, outcomes, false);
            && o.reply == Applied
            && Writes(db, o.db, k, Incident(db.incidents[k].request, AnalysisQueued, Some(evidence)), CollectionWorker,
                      id, [Following(k, AnalysisTopic, evidence, id)])
  {
    DueIsAwaited(policies, db, k, CollectionQueued, id);
    var e, answer := db.outbox[id], Gathered(records, outcomes);
    CommitWrites(policies, db, id, answer, StageResult(policies, e, ServiceOf(db, k), answer));
  }

  // --------------------------------------------------------------- analysis

  /** The assessment rests on the evidence of the row, and planning follows exactly where a policy is configured. */
  lemma AnalysisStores(policies: Policies, db: Database, k: IncKey, id: nat, findings: string)
    requires Due(policies, db, k, AnalysisQueued, id)
    ensures db.incidents[k].result.Some?
    ensures var o := CommitTask(policies, db, StageTask(id, Analysed(findings)));
            var row := db.incidents[k];
            var unresolved := Resolution(Blocked, None, None, None, None, None, [], None, false);
            var result := Assessment(row.result.value, findings, None, unresolved);
            var configured := PolicyKey(k.app, row.request.service) in policies;
            && o.reply == Applied
            && Writes(db, o.db, k,
                      Incident(row.request, if configured then ResolutionQueued else Assessed, Some(result)),
                      AnalysisWorker, id, if configured then [Following(k, ResolutionTopic, result, id)] else [])
  {
    DueIsAwaited(policies, db, k, AnalysisQueued, id);
    var e, answer := db.outbox[id], Analysed(findings);
    CommitWrites(policies, db, id, answer, StageResult(policies, e, ServiceOf(db, k), answer));
  }

  // --------------------------------------------------------------- planning

  /** The diagnostic is of the service, not older than a minute and at most five seconds ahead of the clock. */
  predicate Recent(o: Observation, service: string, now: Instant) {
    o.service == service && now - 60 * SECOND <= o.observedAt <= now + 5 * SECOND
  }

  lemma PlanningComputes(policies: Policies, e: Envelope, service: string, sample: Observation, now: Instant)
    requires e.topic == ResolutionTopic && e.incident.Some? && |e.refs| == 1 && e.refs[0].Assessment?
    requires PolicyKey(e.app, service) in policies
    ensures var r := StageResult(policies, e, service, Diagnosed(sample, now));
            var source := e.refs[0];
            var policy := policies[PolicyKey(e.app, service)];
            var plan := Plan(service, policy.action, policy, source, sample, now + 600 * SECOND, now);
            var proposed := Resolution(Proposed, None, Some(plan), Some(plan), None, None, [], None, false);
            var blocked := Resolution(Blocked, Some(sample), None, None, None, None, [], None, false);
            r == if !Recent(sample, service, now) then Err(Unavailable)
                 else if !sample.healthy && sample.failureCode == Some(policy.failureCode) then
                   Ok(Commit(AwaitingApproval, source.(confirmedCause := Some(policy.cause), resolution := proposed),
                             if policy.automaticUntil.Some? then Some(AuthorizationTopic) else None))
                 else Ok(Commit(Assessed, source.(resolution := blocked), None))
  {
  }

  /** A diagnostic that is not recent plans nothing. A recent one that shows the failure the policy is for makes
      a plan on exactly that diagnostic, for ten minutes from now; any other is stored as the reason for none. */
  lemma PlanningDecides(policies: Policies, db: Database, k: IncKey, id: nat, sample: Observation, now: Instant)
    requires Due(policies, db, k, ResolutionQueued, id)
    ensures db.incidents[k].result.Some? && db.incidents[k].result.value.Assessment?
    ensures PolicyKey(k.app, db.incidents[k].request.service) in policies
    ensures var o := CommitTask(policies, db, StageTask(id, Diagnosed(sample, now)));
            var row := db.incidents[k];
            var source := row.result.value;
            var service := row.request.service;
            var policy := policies[PolicyKey(k.app, service)];
            var plan := Plan(service, policy.action, policy, source, sample, now + 600 * SECOND, now);
            var proposed := Resolution(Proposed, None, Some(plan), Some(plan), None, None, [], None, false);
            var blocked := Resolution(Blocked, Some(sample), None, None, None, None, [], None, false);
            if !Recent(sample, service, now) then o.reply == Refused(Unavailable) && o.db == db
            else if !sample.healthy && sample.failureCode == Some(policy.failureCode) then
              var planned := source.(confirmedCause := Some(policy.cause), resolution := proposed);
              && o.reply == Applied
              && Writes(db, o.db, k, Incident(row.request, AwaitingApproval, Some(planned)), PlanningWorker, id,
                        if policy.automaticUntil.Some? then [Following(k, AuthorizationTopic, planned, id)] else [])
            else
              var refused := source.(resolution := blocked);
              && o.reply == Applied
              && Writes(db, o.db, k, Incident(row.request, Assessed, Some(refused)), PlanningWorker, id, [])
  {
    DueIsAwaited(policies, db, k, ResolutionQueued, id);
    var e, answer := db.outbox[id], Diagnosed(sample, now);
    PlanningComputes(policies, e, ServiceOf(db, k), sample, now);
    CommitWrites(policies, db, id, answer, StageResult(policies, e, ServiceOf(db, k), answer));
  }

  // -------------------------------------------------------------- execution

  /** A receipt is stored with the action it acknowledges and the time it came. */
  lemma ExecutionStores(policies: Policies, db: Database, k: IncKey, id: nat, now: Instant)
    requires Due(policies, db, k, ExecutionQueued, id)
    ensures PlanOf(db.incidents[k]).Some?
    ensures var o := CommitTask(policies, db, StageTask(id, Executed(now)));
            var row := db.incidents[k];
            var source := row.result.value;
            var action := ActionKey(k, PlanOf(row).value);
            var acknowledged :=
              source.resolution.(status := Verifying, actionId := Some(action), executedAt := Some(now));
            var result := source.(resolution := acknowledged);
            && o.reply == Applied
            && Writes(db, o.db, k, Incident(row.request, VerificationQueued, Some(result)), ExecutionWorker, id,
                      [Following(k, VerificationTopic, result, id)])
  {
    DueIsAwaited(policies, db, k, ExecutionQueued, id);
    var e, answer := db.outbox[id], Executed(now);
    CommitWrites(policies, db, id, answer, StageResult(policies, e, ServiceOf(db, k), answer));
  }

  // ----------------------------------------------------------- verification

  /** The sample is recent, not from before the acknowledgement, and shows the service healthy under the action. */
  predicate Confirms(o: Observation, row: Incident, now: Instant)
    requires row.result.Some? && row.result.value.Assessment? && row.result.value.resolution.executedAt.Some?
  {
    var r := row.result.value.resolution;
    && Recent(o, row.request.service, now) && r.executedAt.value <= o.observedAt
    && o.healthy && o.failureCode == None && o.lastAction == r.actionId
  }

  /** Two samples in order that both confirm the action recover the incident; any others are refused. */
  lemma VerificationDecides(policies: Policies, db: Database, k: IncKey, id: nat, first: Observation,
                            firstNow: Instant, second: Observation, secondNow: Instant)
    requires Due(policies, db, k, VerificationQueued, id)
    ensures Acknowledged(k, db.incidents[k])
    ensures var o := CommitTask(policies, db, StageTask(id, Sampled(first, firstNow, second, secondNow)));
            var row := db.incidents[k];
            var source := row.result.value;
            var confirmed := source.resolution.(status := RecoveryConfirmed, verification := [first, second]);
            var result := source.(resolution := confirmed);
            if Confirms(first, row, firstNow) && Confirms(second, row, secondNow)
               && first.observedAt < second.observedAt
            then o.reply == Applied
                 && Writes(db, o.db, k, Incident(row.request, Recovered, Some(result)), VerificationWorker, id, [])
            else o.reply == Refused(Unavailable) && o.db == db
  {
    DueIsAwaited(policies, db, k, VerificationQueued, id);
    var e, answer := db.outbox[id], Sampled(first, firstNow, second, secondNow);
    CommitWrites(policies, db, id, answer, StageResult(policies, e, ServiceOf(db, k), answer));
  }

  // ---------------------------------------------------------------- failures

  /** What `fail` makes of a resolution: nothing of it is lost, the
      stage is named, and only an execution's outcome is uncertain. */
  function WithFailure(source: Content, worker: Consumer): Content
    requires source.Assessment?
  {
    source.(resolution := source.resolution.(status := ResolutionError, failedStage := Some(worker),
                                             outcomeUncertain := worker == ExecutionWorker))
  }

  /** A stage that fails ends the investigation: an early one with its reason, a later one with the resolution
      kept and the stage named. Nothing is sent. */
  lemma FailureStores(policies: Policies, db: Database, k: IncKey, id: nat, reason: string)
    requires k in db.incidents && Due(policies, db, k, db.incidents[k].state, id)
    ensures var o := CommitTask(policies, db, FailTask(id, SeenBy(db, id), reason));
            var row := db.incidents[k];
            match row.state
            case CollectionQueued =>
              Writes(db, o.db, k, Incident(row.request, Failed, Some(StageFailure(reason, CollectionWorker))),
                     CollectionWorker, id, [])
            case AnalysisQueued =>
              Writes(db, o.db, k, Incident(row.request, Failed, Some(StageFailure(reason, AnalysisWorker))),
                     AnalysisWorker, id, [])
            case ResolutionQueued => FailsLate(db, o.db, k, id, PlanningWorker)
            case ExecutionQueued => FailsLate(db, o.db, k, id, ExecutionWorker)
            case VerificationQueued => FailsLate(db, o.db, k, id, VerificationWorker)
            case _ => false
  {
    DueIsAwaited(policies, db, k, db.incidents[k].state, id);
    FailureWrites(policies, db, id, SeenBy(db, id), reason);
  }

  /** An authorization that fails ends the wait it was asked for, and nothing else. */
  lemma AuthorizationFailureStores(policies: Policies, db: Database, id: nat, reason: string)
    requires Reached(policies, db) && AuthorizationId(db, id)
    ensures KeyOf(db.outbox[id]) in db.incidents
    ensures var o := CommitTask(policies, db, FailTask(id, SeenBy(db, id), reason));
            var k := KeyOf(db.outbox[id]);
            if Live(db, id) && db.incidents[k].state == AwaitingApproval
            then o.reply == Applied && FailsLate(db, o.db, k, id, AuthorizationWorker)
            else o == Outcome(db, if Live(db, id) then Refused(Invalid) else Unchanged)
  {
    ReachedInv(policies, db);
    AuthorizationLoads(policies, db, id);
    assert IncidentOk(policies, db, KeyOf(db.outbox[id])) && RowOk(policies, db, KeyOf(db.outbox[id]));
    assert WellFormedEvent(db, db.outbox[id]);
  }

  /** A commit for an event handled before writes nothing, and is no fault unless nothing could be computed. */
  lemma RepeatedCommit(policies: Policies, db: Database, t: Task)
    requires Reached(policies, db) && t.id < |db.outbox| && !Live(db, t.id) && !AdmissionTopic(db.outbox[t.id].topic)
    ensures CommitTask(policies, db, t).db == db
    ensures t.FailTask? || ChangeOf(policies, db, t).Ok? ==> CommitTask(policies, db, t).reply == Unchanged
  {
    ReachedInv(policies, db);
    assert WellFormedEvent(db, db.outbox[t.id]);
  }

  ghost predicate FailsLate(db: Database, db': Database, k: IncKey, id: nat, worker: Consumer)
    requires k in db.incidents
  {
    var row := db.incidents[k];
    && row.result.Some? && row.result.value.Assessment?
    && Writes(db, db', k, Incident(row.request, ResolutionFailed, Some(WithFailure(row.result.value, worker))), worker,
              id, [])
  }

  // -------------------------------------------------------------- onboarding

  /** An application's row moves on by one version, its event is
      recorded, and its next event of that version names the result. */
  ghost predicate AppWrites(db: Database, db': Database, a: AppId, next: AppState, topic: Topic, result: Content,
                            worker: Consumer, id: nat) {
    && a in db.apps
    && var version := db.apps[a].version + 1;
    && db' == db.(apps := db.apps[a := Application(db.apps[a].config, next, version)],
                  artifacts := db.artifacts + {(a, result)},
                  inbox := db.inbox + {(worker, id)},
                  outbox := db.outbox + [Envelope(topic, a, None, [result], Some(version), None, Some(id))])
  }

  lemma AppCommitWrites(db: Database, a: AppId, id: nat, c: AppCommit)
    requires Current(db, a, id) && AppOk(db, a) && WellFormedEvent(db, db.outbox[id])
    ensures var topic := db.outbox[id].topic;
            var o := CompleteApp(db, id, ExpectedAppState(topic), c.next, c.topic, c.result);
            o.reply == Applied && AppWrites(db, o.db, a, c.next, c.topic, c.result, ConsumerOf(topic), id)
  {
    assert CurrentOk(db, a, db.outbox[id]);
  }

  /** A discovery stores its manifest and asks for the context; when it fails the context is blocked. */
  lemma DiscoveryStores(policies: Policies, db: Database, a: AppId, id: nat, manifest: Content, reason: string)
    requires Reached(policies, db) && Current(db, a, id) && db.outbox[id].topic == DiscoveryTopic && manifest.Manifest?
    ensures var o := CommitTask(policies, db, StageTask(id, Discovered(manifest)));
            o.reply == Applied && AppWrites(db, o.db, a, ContextQueued, ContextTopic, manifest, DiscoveryWorker, id)
    ensures var o := CommitTask(policies, db, FailTask(id, SeenBy(db, id), reason));
            && o.reply == Applied
            && AppWrites(db, o.db, a, ContextBlocked, BlockedTopic, Context(false, None, reason), DiscoveryWorker, id)
  {
    ReachedInv(policies, db);
    assert WellFormedEvent(db, db.outbox[id]) && AppOk(db, a);
    AppCommitWrites(db, a, id, AppCommit(ContextQueued, ContextTopic, manifest));
    AppCommitWrites(db, a, id, AppCommit(ContextBlocked, BlockedTopic, Context(false, None, reason)));
  }

  /** A context is ready exactly if its manifest names a source and a document and every required source was
      collected; otherwise, and when its worker fails, it is blocked. */
  lemma ContextDecides(policies: Policies, db: Database, a: AppId, id: nat, reason: string)
    requires Reached(policies, db) && Current(db, a, id) && db.outbox[id].topic == ContextTopic
    ensures |db.outbox[id].refs| == 1 && db.outbox[id].refs[0].Manifest?
    ensures var o := CommitTask(policies, db, StageTask(id, ContextPrepared));
            var m := db.outbox[id].refs[0];
            && o.reply == Applied
            && if m.sources != [] && m.documents != []
                  && forall s | s in m.sources && s.required :: s.status == Collected
               then AppWrites(db, o.db, a, ContextReady, ReadyTopic, Context(true, Some(m), ""), ContextWorker, id)
               else AppWrites(db, o.db, a, ContextBlocked, BlockedTopic,
                              Context(false, Some(m), "document_baseline_incomplete"), ContextWorker, id)
    ensures var o := CommitTask(policies, db, FailTask(id, SeenBy(db, id), reason));
            && o.reply == Applied
            && AppWrites(db, o.db, a, ContextBlocked, BlockedTopic, Context(false, None, reason), ContextWorker, id)
  {
    ReachedInv(policies, db);
    assert WellFormedEvent(db, db.outbox[id]) && AppOk(db, a);
    var context := PrepareContext(db.outbox[id].refs[0]);
    AppCommitWrites(db, a, id, AppCommit(ContextReady, ReadyTopic, context));
    AppCommitWrites(db, a, id, AppCommit(ContextBlocked, BlockedTopic, context));
    AppCommitWrites(db, a, id, AppCommit(ContextBlocked, BlockedTopic, Context(false, None, reason)));
  }

  /** Every ready context that is stored, and so every ready baseline, was made from such a manifest. */
  lemma ReadyIsFullyCollected(policies: Policies, db: Database, a: AppId, c: Content)
    requires Reached(policies, db) && c.Context? && c.baselineReady
    requires (a, c) in db.artifacts || (a in db.baselines && db.baselines[a].ref == c)
    ensures c.manifest.Some? && c.manifest.value.Manifest? && (a, c.manifest.value) in db.artifacts
    ensures var m := c.manifest.value;
            && m.sources != [] && m.documents != []
            && forall s | s in m.sources && s.required :: s.status == Collected
  {
    ReachedInv(policies, db);
    assert a in db.baselines ==> AppOk(db, a);
    assert SoundArtifact(db.artifacts, a, c);
  }

  // ----------------------------------------------------------------- releases

  /** The waiting incidents of the application go on to collection, or are blocked with it; every other row stays. */
  function After(db: Database, a: AppId, k: IncKey, ready: bool): Incident
    requires k in db.incidents
  {
    var row := db.incidents[k];
    if k.app != a || row.state != WaitingForContext then row
    else Incident(row.request, if ready then CollectionQueued else BlockedByContext, row.result)
  }

  /** The pending notification of a context records it as the baseline; on a ready one a collection is requested
      for each waiting incident, in the order they were read, and for no other. */
  lemma ReleaseStores(policies: Policies, db: Database, a: AppId, id: nat, order: seq<IncKey>)
    requires Reached(policies, db) && Current(db, a, id) && AdmissionTopic(db.outbox[id].topic)
    requires Enumerates(order, db, a)
    ensures |db.outbox[id].refs| == 1
    ensures Release(db, id, order).reply == Applied
    ensures var o := Release(db, id, order);
            var ref := db.outbox[id].refs[0];
            var ready := db.outbox[id].topic == ReadyTopic;
            && o.db.incidents.Keys == db.incidents.Keys
            && (forall k | k in db.incidents :: o.db.incidents[k] == After(db, a, k, ready))
            && |o.db.outbox| == |db.outbox| + (if ready then |order| else 0)
            && (forall i | 0 <= i < |db.outbox| :: o.db.outbox[i] == db.outbox[i])
            && (forall j | 0 <= j < |order| && ready ::
                  o.db.outbox[|db.outbox| + j] ==
                    Envelope(CollectionTopic, a, Some(order[j].incident), [ref], None, None, Some(id)))
            && var baseline := Baseline(if ready then ContextReady else ContextBlocked, ref);
            && o.db == db.(baselines := db.baselines[a := baseline],
                           incidents := o.db.incidents, outbox := o.db.outbox,
                           inbox := db.inbox + {(AdmissionWorker, id)})
  {
    ReachedInv(policies, db);
    assert WellFormedEvent(db, db.outbox[id]) && AppOk(db, a);
    NotificationPasses(db, a, id);
    WaitingWithoutResult(policies, db, id, order);
    var db' := ReleaseMoves(policies, db, id, order);
    ReleasedTo(db, db', id, order);
  }

  lemma NotificationPasses(db: Database, a: AppId, id: nat)
    requires Current(db, a, id) && AdmissionTopic(db.outbox[id].topic)
    requires AppOk(db, a) && WellFormedEvent(db, db.outbox[id])
    ensures ReleaseCheck(db, id) == Applied
  {
    assert db.outbox[id].refs[0] in db.outbox[id].refs;
    assert CurrentOk(db, a, db.outbox[id]);
  }

  lemma ReleasedTo(db: Database, db': Database, id: nat, order: seq<IncKey>)
    requires ReleasesTo(db, db', id, order)
    requires forall k | k in order :: k in db.incidents && db.incidents[k].result.None?
    ensures var a := db.outbox[id].app;
            var ref := db.outbox[id].refs[0];
            var ready := db.outbox[id].topic == ReadyTopic;
            && db'.incidents.Keys == db.incidents.Keys
            && (forall k | k in db.incidents :: db'.incidents[k] == After(db, a, k, ready))
            && (forall i | 0 <= i < |db.outbox| :: db'.outbox[i] == db.outbox[i])
            && (forall j | 0 <= j < |order| && ready ::
                  db'.outbox[|db.outbox| + j] ==
                    Envelope(CollectionTopic, a, Some(order[j].incident), [ref], None, None, Some(id)))
            && db'.baselines == db.baselines[a := Baseline(if ready then ContextReady else ContextBlocked, ref)]
  {
    forall j | 0 <= j < |order| && db.outbox[id].topic == ReadyTopic
      ensures db'.outbox[|db.outbox| + j] == Emit(order[j], db.incidents[order[j]], CollectionTopic,
                                                  db.outbox[id].refs[0], Some(id)) && order[j] in order
    {
      assert order[j] in order && order[|db.outbox| + j - |db.outbox|] == order[j];
    }
  }

  // -------------------------------------------------------------------- reads

  /** A read leaves its answer to be committed exactly if the commit would be applied at once; what an execution
      commits comes from its receipt only. */
  lemma ReadLeavesTask(policies: Policies, steps: seq<Action>, id: nat, answer: Answer)
    requires StageId(Run(policies, steps).db, id) || OnboardingId(Run(policies, steps).db, id)
    ensures var w, w' := Run(policies, steps), Run(policies, steps + [ReadAction(id, answer)]);
            var task := StageTask(id, answer);
            w' == w.(tasks := w.tasks + if !answer.Executed? && CommitTask(policies, w.db, task).reply == Applied
                                        then {task} else {})
  {
    var db := Run(policies, steps).db;
    RunThen(policies, steps, ReadAction(id, answer));
    if !Live(db, id) {
      RepeatedCommit(policies, db, StageTask(id, answer));
    } else if StageId(db, id) {
      StageNeverWedged(policies, steps, id, answer);
      CommitNeverWedged(policies, steps, id, answer, None, "");
    } else {
      OnboardingNeverWedged(policies, steps, id, None, "");
    }
  }

  /** Authorization is asked for exactly while its event is live and its incident waits. */
  lemma AuthorizationReadLeaves(policies: Policies, steps: seq<Action>, id: nat)
    requires AuthorizationId(Run(policies, steps).db, id)
    ensures var w, w' := Run(policies, steps), Run(policies, steps + [ReadAuthorizationAction(id)]);
            var asked := Live(w.db, id) && InState(w.db, KeyOf(w.db.outbox[id]), AwaitingApproval);
            w' == w.(approving := w.approving + if asked then {id} else {})
  {
    RunThen(policies, steps, ReadAuthorizationAction(id));
    RunInv(policies, steps);
    AuthorizationReads(policies, Run(policies, steps).db, id);
  }
}
