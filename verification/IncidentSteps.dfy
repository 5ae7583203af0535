/**
 Every transaction on one incident keeps the invariant.
*/
module IncidentSteps {
  import opened Model
  import opened Transactions
  import opened Pipeline
  import opened Invariants
  import opened Moves

  /** An event emitted for a stored incident with a stored reference is well formed. */
  lemma EmitWellFormed(db: Database, k: IncKey, row: Incident, topic: Topic, ref: Content, cause: Option<nat>)
    requires k.app in db.apps && k in db.incidents && (k.app, ref) in db.artifacts && !ApplicationTopic(topic)
    requires topic == CollectionTopic && row.result.Some? ==> (k.app, row.result.value) in db.artifacts
    ensures WellFormedEvent(db, Emit(k, row, topic, ref, cause))
  {
  }

  // --------------------------------------------------------- stage commits

  /** What a stage commit must get right about the row it replaces. */
  ghost predicate Continues(policies: Policies, k: IncKey, row: Incident, next: IncState, result: Content,
                            topic: Option<Topic>) {
    var row' := row.(state := next, result := Some(result));
    RowShape(policies, k, row') && Advances(row, row', topic)
  }

  /** The row goes forward, neither approved nor disowned by the commit, and is sent the event of its new state. */
  predicate Advances(row: Incident, row': Incident, topic: Option<Topic>) {
    && (Late(row.state) ==>
          Late(row'.state) && LateRank(row.state) < LateRank(row'.state) && PlanOf(row') == PlanOf(row))
    && (Committed(row') <==> Committed(row))
    && row'.state !in {ResolutionRejected, WaitingForContext, CollectionQueued, ExecutionQueued}
    && (if Queued(row'.state) then topic.Some? && StageTopic(topic.value) && ExpectedState(topic.value) == row'.state
        else topic.None? || (row'.state == AwaitingApproval && topic == Some(AuthorizationTopic)))
  }

  lemma CompleteDecisions(policies: Policies, db: Database, db': Database, k: IncKey, next: IncState, result: Content,
                          topic: Option<Topic>)
    requires k in db.incidents && k in db'.incidents
    requires DecisionsOk(db, k) && (Queued(db.incidents[k].state) || db.incidents[k].state == AwaitingApproval)
    requires db'.approvals == db.approvals
    requires db'.incidents[k] == db.incidents[k].(state := next, result := Some(result))
    requires Continues(policies, k, db.incidents[k], next, result, topic)
    ensures DecisionsOk(db', k)
  {
    var row, row' := db.incidents[k], db'.incidents[k];
    forall plan | (k, plan) in db'.approvals
      ensures PlanOf(row') == Some(plan) && db'.approvals[(k, plan)].decision == Approve
    {
      assert PlanOf(row) == Some(plan) && Committed(row);
    }
    if Committed(row') {
      assert IsDecided(db, k, PlanOf(row), Approve);
      assert IsDecided(db', k, PlanOf(row'), Approve);
    }
  }

  lemma CompleteVerifications(policies: Policies, db: Database, db': Database, k: IncKey, consumed: Option<nat>,
                              sent: Option<Envelope>, next: IncState, result: Content, topic: Option<Topic>)
    requires k in db.incidents && k in db'.incidents && LateEventsOk(db, k) && DecisionsOk(db', k)
    requires MovesTo(db, db', k, db'.incidents[k], consumed, sent)
    requires db'.incidents[k] == db.incidents[k].(state := next, result := Some(result))
    requires Continues(policies, k, db.incidents[k], next, result, topic)
    requires sent.Some? ==>
               topic == Some(sent.value.topic) && sent.value.refs == [result] && topic != Some(ExecutionTopic)
    ensures forall i | EventOf(db', k, VerificationTopic, i) :: IsDecided(db', k, EventPlan(db'.outbox[i]), Approve)
  {
    var row' := db'.incidents[k];
    forall i | EventOf(db', k, VerificationTopic, i) ensures IsDecided(db', k, EventPlan(db'.outbox[i]), Approve) {
      if i < |db.outbox| {
        assert EventOf(db, k, VerificationTopic, i);
        assert IsDecided(db, k, EventPlan(db.outbox[i]), Approve);
      } else {
        assert Committed(row');
        assert IsDecided(db', k, PlanOf(row'), Approve);
      }
    }
  }

  lemma CompleteAuthorizations(policies: Policies, db: Database, db': Database, k: IncKey, consumed: Option<nat>,
                               sent: Option<Envelope>, next: IncState, result: Content, topic: Option<Topic>)
    requires k in db.incidents && k in db'.incidents && LateEventsOk(db, k)
    requires MovesTo(db, db', k, db'.incidents[k], consumed, sent)
    requires db'.incidents[k] == db.incidents[k].(state := next, result := Some(result))
    requires Continues(policies, k, db.incidents[k], next, result, topic)
    requires sent.Some? ==> topic == Some(sent.value.topic) && sent.value.refs == [result]
    ensures forall i | EventOf(db', k, AuthorizationTopic, i) :: AsksFor(db'.incidents[k], db'.outbox[i])
  {
    forall i | EventOf(db', k, AuthorizationTopic, i) ensures AsksFor(db'.incidents[k], db'.outbox[i]) {
      if i < |db.outbox| {
        assert EventOf(db, k, AuthorizationTopic, i);
      }
    }
  }

  lemma CompleteLateEvents(policies: Policies, db: Database, db': Database, k: IncKey, consumed: Option<nat>,
                           sent: Option<Envelope>, next: IncState, result: Content, topic: Option<Topic>)
    requires k in db.incidents && k in db'.incidents && LateEventsOk(db, k) && DecisionsOk(db', k)
    requires MovesTo(db, db', k, db'.incidents[k], consumed, sent)
    requires db'.incidents[k] == db.incidents[k].(state := next, result := Some(result))
    requires Continues(policies, k, db.incidents[k], next, result, topic)
    requires sent.Some? ==>
               topic == Some(sent.value.topic) && sent.value.refs == [result] && topic != Some(ExecutionTopic)
    ensures LateEventsOk(db', k)
  {
    forall i | EventOf(db', k, ExecutionTopic, i)
      ensures EventOf(db, k, ExecutionTopic, i) && db'.outbox[i] == db.outbox[i]
    {
    }
    CompleteAuthorizations(policies, db, db', k, consumed, sent, next, result, topic);
    CompleteVerifications(policies, db, db', k, consumed, sent, next, result, topic);
  }

  /** `db'` is `db` after event `id` of incident `k`, awaited in its state, was completed. */
  ghost predicate Completes(db: Database, db': Database, id: nat, k: IncKey, sent: Option<Envelope>, next: IncState,
                            result: Content, topic: Option<Topic>) {
    && id < |db.outbox| && db.outbox[id].incident.Some? && KeyOf(db.outbox[id]) == k && k in db.incidents
    && Live(db, id) && !ApplicationTopic(db.outbox[id].topic)
    && db.incidents[k].state == ExpectedState(db.outbox[id].topic)
    && MovesTo(db, db', k, db.incidents[k].(state := next, result := Some(result)), Some(id), sent)
    && db'.artifacts == db.artifacts + {(k.app, result)}
    && db'.approvals == db.approvals && db'.runs == db.runs
    && sent == if topic.Some? then Some(Emit(k, db.incidents[k], topic.value, result, Some(id))) else None
  }

  /** Besides the event of its state the incident has no stage event. */
  lemma OnlyItsEvent(db: Database, k: IncKey, id: nat)
    requires id < |db.outbox| && db.outbox[id].incident.Some? && KeyOf(db.outbox[id]) == k && k in db.incidents
    requires Live(db, id) && !ApplicationTopic(db.outbox[id].topic) && StageOk(db, k)
    requires db.incidents[k].state == ExpectedState(db.outbox[id].topic)
    ensures forall i | StageEvent(db, k, i) :: i == id
  {
    forall i | StageEvent(db, k, i) ensures i == id {
      assert AtStage(db, k, db.outbox[i]);
      assert StageEvent(db, k, id);
    }
  }

  lemma CompleteStage(policies: Policies, db: Database, db': Database, id: nat, k: IncKey, sent: Option<Envelope>,
                      next: IncState, result: Content, topic: Option<Topic>)
    requires Completes(db, db', id, k, sent, next, result, topic) && WellFormedRows(db) && StageOk(db, k)
    requires Continues(policies, k, db.incidents[k], next, result, topic)
    ensures StageOk(db', k)
  {
    OnlyItsEvent(db, k, id);
    MovesStage(db, db', k, db'.incidents[k], Some(id), sent);
  }

  lemma CompleteDecided(policies: Policies, db: Database, db': Database, id: nat, k: IncKey, sent: Option<Envelope>,
                        next: IncState, result: Content, topic: Option<Topic>)
    requires Completes(db, db', id, k, sent, next, result, topic) && DecisionsOk(db, k) && LateEventsOk(db, k)
    requires Continues(policies, k, db.incidents[k], next, result, topic)
    ensures DecisionsOk(db', k) && LateEventsOk(db', k)
  {
    CompleteDecisions(policies, db, db', k, next, result, topic);
    CompleteLateEvents(policies, db, db', k, Some(id), sent, next, result, topic);
  }

  /** The moved incident keeps its invariant. */
  lemma CompleteIncidentOk(policies: Policies, db: Database, db': Database, id: nat, k: IncKey, sent: Option<Envelope>,
                           next: IncState, result: Content, topic: Option<Topic>)
    requires Completes(db, db', id, k, sent, next, result, topic) && WellFormedRows(db)
    requires IncidentOk(policies, db, k) && Continues(policies, k, db.incidents[k], next, result, topic)
    ensures IncidentOk(policies, db', k)
  {
    CompleteStage(policies, db, db', id, k, sent, next, result, topic);
    CompleteDecided(policies, db, db', id, k, sent, next, result, topic);
    CompleteRowOk(policies, db, db', k, Some(id), sent, next, result, topic);
  }

  lemma CompleteRowOk(policies: Policies, db: Database, db': Database, k: IncKey, consumed: Option<nat>,
                      sent: Option<Envelope>, next: IncState, result: Content, topic: Option<Topic>)
    requires k in db.incidents && Active(db.incidents[k].state) && ScopeOk(db, k)
    requires MovesTo(db, db', k, db.incidents[k].(state := next, result := Some(result)), consumed, sent)
    requires (k.app, result) in db'.artifacts && Continues(policies, k, db.incidents[k], next, result, topic)
    ensures k in db'.incidents && RowOk(policies, db', k) && ScopeOk(db', k)
  {
  }

  /** Committing a stage result that continues its row keeps the invariant. */
  lemma CompleteInv(policies: Policies, db: Database, id: nat, next: IncState, result: Content, topic: Option<Topic>)
    returns (db': Database)
    requires Inv(policies, db) && id < |db.outbox|
    requires db.outbox[id].incident.Some? && !ApplicationTopic(db.outbox[id].topic)
    requires Complete(db, id, ExpectedState(db.outbox[id].topic), next, result, topic).reply == Applied
    requires Continues(policies, KeyOf(db.outbox[id]), db.incidents[KeyOf(db.outbox[id])], next, result, topic)
    requires SoundArtifact(db.artifacts, db.outbox[id].app, result)
    ensures db' == Complete(db, id, ExpectedState(db.outbox[id].topic), next, result, topic).db
    ensures Lawful(policies, db, db')
  {
    var sent;
    db', sent := CompleteMoves(db, id, next, result, topic);
    CompleteMovesInv(policies, db, db', id, KeyOf(db.outbox[id]), sent, next, result, topic);
  }

  lemma CompleteMoves(db: Database, id: nat, next: IncState, result: Content, topic: Option<Topic>)
    returns (db': Database, sent: Option<Envelope>)
    requires id < |db.outbox| && db.outbox[id].incident.Some? && !ApplicationTopic(db.outbox[id].topic)
    requires topic.Some? ==> !ApplicationTopic(topic.value) && topic.value != CollectionTopic
    requires Complete(db, id, ExpectedState(db.outbox[id].topic), next, result, topic).reply == Applied
    ensures db' == Complete(db, id, ExpectedState(db.outbox[id].topic), next, result, topic).db
    ensures Completes(db, db', id, KeyOf(db.outbox[id]), sent, next, result, topic)
  {
    var k := KeyOf(db.outbox[id]);
    db' := Complete(db, id, ExpectedState(db.outbox[id].topic), next, result, topic).db;
    sent := if topic.Some? then Some(Emit(k, db.incidents[k], topic.value, result, Some(id))) else None;
  }

  lemma CompleteMovesInv(policies: Policies, db: Database, db': Database, id: nat, k: IncKey, sent: Option<Envelope>,
                         next: IncState, result: Content, topic: Option<Topic>)
    requires Inv(policies, db) && Completes(db, db', id, k, sent, next, result, topic)
    requires Continues(policies, k, db.incidents[k], next, result, topic)
    requires SoundArtifact(db.artifacts, k.app, result)
    ensures Lawful(policies, db, db')
  {
    StoreArtifact(db.artifacts, k.app, result);
    SameReruns(db, db');
    if sent.Some? {
      EmitWellFormed(db', k, db.incidents[k], sent.value.topic, result, Some(id));
    }
    assert IncidentOk(policies, db, k);
    CompleteIncidentOk(policies, db, db', id, k, sent, next, result, topic);
    MovesInv(policies, db, db', k, db'.incidents[k], Some(id), sent);
  }

  // ------------------------------------------------- results of the handlers

  /** A stage event whose incident stands in its stage. */
  ghost predicate Awaited(policies: Policies, db: Database, id: nat) {
    && StageId(db, id)
    && var e := db.outbox[id];
    && AtStage(db, KeyOf(e), e)
    && RowOk(policies, db, KeyOf(e)) && ScopeOk(db, KeyOf(e))
    && (e.app, e.refs[0]) in db.artifacts
    && SoundArtifact(db.artifacts, e.app, e.refs[0])
    && (e.previous.Some? ==> (e.app, e.previous.value) in db.artifacts)
    && (e.previous.Some? ==> SoundArtifact(db.artifacts, e.app, e.previous.value))
  }

  /** A live stage event is awaited by its incident. */
  lemma LiveStage(policies: Policies, db: Database, id: nat)
    requires Inv(policies, db) && StageId(db, id) && Live(db, id)
    ensures Awaited(policies, db, id)
  {
    var e := db.outbox[id];
    assert WellFormedEvent(db, e);
    assert IncidentOk(policies, db, KeyOf(e));
    assert StageEvent(db, KeyOf(e), id);
    assert e.refs[0] in e.refs;
    assert SoundArtifact(db.artifacts, e.app, e.refs[0]);
    assert e.previous.Some? ==> SoundArtifact(db.artifacts, e.app, e.previous.value);
  }

  lemma CollectionContinues(policies: Policies, db: Database, id: nat, records: seq<Record>,
                            outcomes: seq<SourceStatus>)
    requires Awaited(policies, db, id) && db.outbox[id].topic == CollectionTopic
    ensures var e := db.outbox[id]; var c := CollectionResult(e, records, outcomes);
            && Continues(policies, KeyOf(e), db.incidents[KeyOf(e)], c.next, c.result, c.topic)
            && SoundArtifact(db.artifacts, e.app, c.result)
  {
  }

  lemma AnalysisContinues(policies: Policies, db: Database, id: nat, findings: string)
    requires Awaited(policies, db, id) && db.outbox[id].topic == AnalysisTopic
    ensures var e := db.outbox[id]; var c := AnalysisResult(policies, e, ServiceOf(db, KeyOf(e)), findings);
            && Continues(policies, KeyOf(e), db.incidents[KeyOf(e)], c.next, c.result, c.topic)
            && SoundArtifact(db.artifacts, e.app, c.result)
  {
  }

  lemma PlanningContinues(policies: Policies, db: Database, id: nat, sample: Observation, now: Instant)
    requires Awaited(policies, db, id) && db.outbox[id].topic == ResolutionTopic
    ensures var e := db.outbox[id]; var r := PlanningResult(policies, e, ServiceOf(db, KeyOf(e)), sample, now);
            r.Ok? ==>
              && Continues(policies, KeyOf(e), db.incidents[KeyOf(e)], r.value.next, r.value.result, r.value.topic)
              && SoundArtifact(db.artifacts, e.app, r.value.result)
  {
  }

  lemma ExecutionContinues(policies: Policies, db: Database, id: nat, now: Instant)
    requires Awaited(policies, db, id) && db.outbox[id].topic == ExecutionTopic
    ensures var e := db.outbox[id]; var r := ExecutionResult(e, now);
            && r.Ok?
            && Continues(policies, KeyOf(e), db.incidents[KeyOf(e)], r.value.next, r.value.result, r.value.topic)
            && SoundArtifact(db.artifacts, e.app, r.value.result)
  {
  }

  lemma VerificationContinues(policies: Policies, db: Database, id: nat, answer: Answer)
    requires Awaited(policies, db, id) && db.outbox[id].topic == VerificationTopic && answer.Sampled?
    ensures var e := db.outbox[id];
            var r := VerificationResult(e, ServiceOf(db, KeyOf(e)),
                                        answer.first, answer.firstNow, answer.second, answer.secondNow);
            r.Ok? ==>
              && Continues(policies, KeyOf(e), db.incidents[KeyOf(e)], r.value.next, r.value.result, r.value.topic)
              && SoundArtifact(db.artifacts, e.app, r.value.result)
  {
  }

  lemma FailureContinues(policies: Policies, db: Database, id: nat, seen: Option<Content>)
    requires Awaited(policies, db, id)
    requires db.outbox[id].topic in {ResolutionTopic, ExecutionTopic, VerificationTopic}
    requires seen == Some(db.outbox[id].refs[0])
    ensures var e := db.outbox[id]; var result := FailedResolution(seen, ConsumerOf(e.topic));
            && Continues(policies, KeyOf(e), db.incidents[KeyOf(e)], ResolutionFailed, result, None)
            && SoundArtifact(db.artifacts, e.app, result)
  {
    FailureShape(policies, db, id, seen);
    FailureSound(policies, db, id, seen);
    FailureCommitted(policies, db, id, seen);
    ShapeContinues(policies, KeyOf(db.outbox[id]), db.incidents[KeyOf(db.outbox[id])],
                   FailedResolution(seen, ConsumerOf(db.outbox[id].topic)));
  }

  lemma ShapeContinues(policies: Policies, k: IncKey, row: Incident, result: Content)
    requires row.state in {ResolutionQueued, ExecutionQueued, VerificationQueued}
    requires var row' := row.(state := ResolutionFailed, result := Some(result));
             RowShape(policies, k, row') && PlanOf(row') == PlanOf(row) && (Committed(row') <==> Committed(row))
    ensures Continues(policies, k, row, ResolutionFailed, result, None)
  {
    FailureAdvances(row, row.(state := ResolutionFailed, result := Some(result)));
  }

  lemma FailureAdvances(row: Incident, row': Incident)
    requires row.state in {ResolutionQueued, ExecutionQueued, VerificationQueued} && row'.state == ResolutionFailed
    requires PlanOf(row') == PlanOf(row) && (Committed(row') <==> Committed(row))
    ensures Advances(row, row', None)
  {
    assert Late(row.state) ==> LateRank(row.state) < LateRank(ResolutionFailed);
  }

  lemma FailureCommitted(policies: Policies, db: Database, id: nat, seen: Option<Content>)
    requires Awaited(policies, db, id)
    requires db.outbox[id].topic in {ResolutionTopic, ExecutionTopic, VerificationTopic}
    requires seen == Some(db.outbox[id].refs[0])
    ensures var e := db.outbox[id];
            var row := db.incidents[KeyOf(e)];
            var row' := row.(state := ResolutionFailed, result := Some(FailedResolution(seen, ConsumerOf(e.topic))));
            PlanOf(row') == PlanOf(row) && (Committed(row') <==> Committed(row))
  {
  }

  lemma FailureSound(policies: Policies, db: Database, id: nat, seen: Option<Content>)
    requires Awaited(policies, db, id)
    requires db.outbox[id].topic in {ResolutionTopic, ExecutionTopic, VerificationTopic}
    requires seen == Some(db.outbox[id].refs[0])
    ensures SoundArtifact(db.artifacts, db.outbox[id].app, FailedResolution(seen, ConsumerOf(db.outbox[id].topic)))
  {
  }

  /** The row after a resolution stage failed. */
  lemma FailureShape(policies: Policies, db: Database, id: nat, seen: Option<Content>)
    requires Awaited(policies, db, id)
    requires db.outbox[id].topic in {ResolutionTopic, ExecutionTopic, VerificationTopic}
    requires seen == Some(db.outbox[id].refs[0])
    ensures var e := db.outbox[id];
            var result := FailedResolution(seen, ConsumerOf(e.topic));
            RowShape(policies, KeyOf(e),
                     db.incidents[KeyOf(e)].(state := ResolutionFailed, result := Some(result)))
  {
  }

  lemma StageResultContinues(policies: Policies, db: Database, id: nat, answer: Answer)
    requires Awaited(policies, db, id)
    ensures var e := db.outbox[id];
            var r := StageResult(policies, e, ServiceOf(db, KeyOf(e)), answer);
            r.Ok? ==>
              && Continues(policies, KeyOf(e), db.incidents[KeyOf(e)], r.value.next, r.value.result, r.value.topic)
              && SoundArtifact(db.artifacts, e.app, r.value.result)
  {
    match db.outbox[id].topic
    case CollectionTopic =>
      if answer.Gathered? {
        CollectionContinues(policies, db, id, answer.records, answer.outcomes);
      }
    case AnalysisTopic =>
      if answer.Analysed? {
        AnalysisContinues(policies, db, id, answer.findings);
      }
    case ResolutionTopic =>
      if answer.Diagnosed? {
        PlanningContinues(policies, db, id, answer.sample, answer.now);
      }
    case ExecutionTopic =>
      if answer.Executed? {
        ExecutionContinues(policies, db, id, answer.now);
      }
    case VerificationTopic =>
      if answer.Sampled? {
        VerificationContinues(policies, db, id, answer);
      }
  }

  /** Whatever a stage handler computed from a live event, committing it keeps the invariant. */
  lemma StageResultInv(policies: Policies, db: Database, id: nat, answer: Answer)
    requires Inv(policies, db) && StageId(db, id)
    requires CommitTask(policies, db, StageTask(id, answer)).reply == Applied
    ensures Lawful(policies, db, CommitTask(policies, db, StageTask(id, answer)).db)
  {
    var e := db.outbox[id];
    var r := StageResult(policies, e, ServiceOf(db, KeyOf(e)), answer);
    LiveStage(policies, db, id);
    StageResultContinues(policies, db, id, answer);
    var db' := CompleteInv(policies, db, id, r.value.next, r.value.result, r.value.topic);
  }

  lemma EarlyFailureInv(policies: Policies, db: Database, id: nat, seen: Option<Content>, reason: string)
    requires Inv(policies, db) && StageId(db, id) && db.outbox[id].topic in {CollectionTopic, AnalysisTopic}
    requires CommitTask(policies, db, FailTask(id, seen, reason)).reply == Applied
    ensures Lawful(policies, db, CommitTask(policies, db, FailTask(id, seen, reason)).db)
  {
    EarlyFailureFollows(policies, db, id, StageFailure(reason, ConsumerOf(db.outbox[id].topic)));
    var db' := CompleteInv(policies, db, id, Failed, StageFailure(reason, ConsumerOf(db.outbox[id].topic)), None);
  }

  lemma EarlyFailureFollows(policies: Policies, db: Database, id: nat, result: Content)
    requires Inv(policies, db) && StageId(db, id) && Live(db, id) && result.StageFailure?
    requires db.outbox[id].topic in {CollectionTopic, AnalysisTopic}
    ensures Continues(policies, KeyOf(db.outbox[id]), db.incidents[KeyOf(db.outbox[id])], Failed, result, None)
    ensures SoundArtifact(db.artifacts, db.outbox[id].app, result)
  {
    LiveStage(policies, db, id);
  }

  lemma ResolutionFailureInv(policies: Policies, db: Database, id: nat, seen: Option<Content>, reason: string)
    requires Inv(policies, db) && StageId(db, id)
    requires db.outbox[id].topic in {ResolutionTopic, ExecutionTopic, VerificationTopic}
    requires Live(db, id) ==> |db.outbox[id].refs| == 1 && seen == Some(db.outbox[id].refs[0])
    requires CommitTask(policies, db, FailTask(id, seen, reason)).reply == Applied
    ensures Lawful(policies, db, CommitTask(policies, db, FailTask(id, seen, reason)).db)
  {
    FailureCommits(policies, db, id, seen, reason);
    FailureFollows(policies, db, id, seen);
    var result := FailedResolution(seen, ConsumerOf(db.outbox[id].topic));
    var db' := CompleteInv(policies, db, id, ResolutionFailed, result, None);
  }

  lemma FailureCommits(policies: Policies, db: Database, id: nat, seen: Option<Content>, reason: string)
    requires StageId(db, id) && db.outbox[id].topic in {ResolutionTopic, ExecutionTopic, VerificationTopic}
    requires CommitTask(policies, db, FailTask(id, seen, reason)).reply == Applied
    ensures Live(db, id)
    ensures var e := db.outbox[id];
            var result := FailedResolution(seen, ConsumerOf(e.topic));
            var o := Complete(db, id, ExpectedState(e.topic), ResolutionFailed, result, None);
            o.reply == Applied && CommitTask(policies, db, FailTask(id, seen, reason)).db == o.db
  {
  }

  lemma FailureFollows(policies: Policies, db: Database, id: nat, seen: Option<Content>)
    requires Inv(policies, db) && StageId(db, id) && Live(db, id)
    requires db.outbox[id].topic in {ResolutionTopic, ExecutionTopic, VerificationTopic}
    requires |db.outbox[id].refs| == 1 && seen == Some(db.outbox[id].refs[0])
    ensures var e := db.outbox[id]; var result := FailedResolution(seen, ConsumerOf(e.topic));
            && Continues(policies, KeyOf(e), db.incidents[KeyOf(e)], ResolutionFailed, result, None)
            && SoundArtifact(db.artifacts, e.app, result)
  {
    LiveStage(policies, db, id);
    FailureContinues(policies, db, id, seen);
  }

  lemma AuthorizationFailureContinues(policies: Policies, db: Database, k: IncKey)
    requires k in db.incidents && RowOk(policies, db, k) && db.incidents[k].state == AwaitingApproval
    requires ArtifactsSound(db.artifacts)
    ensures var result := FailedResolution(db.incidents[k].result, AuthorizationWorker);
            && Continues(policies, k, db.incidents[k], ResolutionFailed, result, None)
            && SoundArtifact(db.artifacts, k.app, result)
  {
    assert SoundArtifact(db.artifacts, k.app, db.incidents[k].result.value);
  }

  lemma AuthorizationFailureFollows(policies: Policies, db: Database, k: IncKey)
    requires Inv(policies, db) && k in db.incidents && db.incidents[k].state == AwaitingApproval
    ensures var result := FailedResolution(db.incidents[k].result, AuthorizationWorker);
            && Continues(policies, k, db.incidents[k], ResolutionFailed, result, None)
            && SoundArtifact(db.artifacts, k.app, result)
  {
    assert IncidentOk(policies, db, k);
    AuthorizationFailureContinues(policies, db, k);
  }

  lemma AuthorizationFailureCommits(policies: Policies, db: Database, id: nat, seen: Option<Content>, reason: string)
    requires AuthorizationId(db, id) && KeyOf(db.outbox[id]) in db.incidents
    requires CommitTask(policies, db, FailTask(id, seen, reason)).reply == Applied
    ensures db.incidents[KeyOf(db.outbox[id])].state == AwaitingApproval
    ensures var o := Complete(db, id, AwaitingApproval, ResolutionFailed, FailedResolution(seen, AuthorizationWorker),
                              None);
            o.reply == Applied && CommitTask(policies, db, FailTask(id, seen, reason)).db == o.db
  {
  }

  lemma AuthorizationFailureInv(policies: Policies, db: Database, id: nat, seen: Option<Content>, reason: string)
    requires Inv(policies, db) && AuthorizationId(db, id) && KeyOf(db.outbox[id]) in db.incidents
    requires db.incidents[KeyOf(db.outbox[id])].state == AwaitingApproval ==>
        seen == db.incidents[KeyOf(db.outbox[id])].result
    requires CommitTask(policies, db, FailTask(id, seen, reason)).reply == Applied
    ensures Lawful(policies, db, CommitTask(policies, db, FailTask(id, seen, reason)).db)
  {
    AuthorizationFailureCommits(policies, db, id, seen, reason);
    AuthorizationFailureFollows(policies, db, KeyOf(db.outbox[id]));
    var db' := CompleteInv(policies, db, id, ResolutionFailed, FailedResolution(seen, AuthorizationWorker), None);
  }
}
