/**
 Admission, reinvestigation and the decision on a plan keep the invariant.
*/
module OperatorSteps {
  import opened Model
  import opened Transactions
  import opened Pipeline
  import opened Invariants
  import opened Moves
  import opened IncidentSteps

  // -------------------------------------------------------------- admission

  lemma AdmitIncidentOk(policies: Policies, db: Database, db': Database, k: IncKey, row: Incident,
                        sent: Option<Envelope>)
    requires WellFormedRows(db) && k !in db.incidents && k.app in db.apps && AppOk(db, k.app)
    requires forall i, t :: !EventOf(db, k, t, i)
    requires forall plan :: (k, plan) !in db.approvals
    requires MovesTo(db, db', k, row, None, sent) && db'.approvals == db.approvals
    requires row.result.None? && row.request.service in db.apps[k.app].config.services
    requires row.state == if k.app !in db.baselines then WaitingForContext
                          else if db.baselines[k.app].state == ContextReady then CollectionQueued else BlockedByContext
    requires sent == if row.state == CollectionQueued
                     then Some(Emit(k, row, CollectionTopic, db.baselines[k.app].ref, None)) else None
    ensures IncidentOk(policies, db', k)
  {
    forall i ensures !StageEvent(db, k, i) {
      assert 0 <= i < |db.outbox| ==> !EventOf(db, k, db.outbox[i].topic, i);
    }
    MovesStage(db, db', k, row, None, sent);
    forall i, t | EventOf(db', k, t, i) ensures i == |db.outbox| && t == CollectionTopic {
      assert i < |db.outbox| ==> !EventOf(db, k, t, i);
    }
  }

  lemma AdmitMoves(db: Database, k: IncKey, request: Request, now: Instant)
    returns (db': Database, row: Incident, sent: Option<Envelope>)
    requires Admit(db, k, request, now).reply == Applied
    ensures db' == Admit(db, k, request, now).db
    ensures k !in db.incidents && k.app in db.apps && request.service in db.apps[k.app].config.services
    ensures row.request == request && row.result.None?
    ensures row.state == if k.app !in db.baselines then WaitingForContext
                         else if db.baselines[k.app].state == ContextReady then CollectionQueued else BlockedByContext
    ensures sent == if row.state == CollectionQueued
                    then Some(Emit(k, row, CollectionTopic, db.baselines[k.app].ref, None)) else None
    ensures MovesTo(db, db', k, row, None, sent)
    ensures db'.artifacts == db.artifacts && db'.approvals == db.approvals && db'.runs == db.runs
  {
    db' := Admit(db, k, request, now).db;
    row := db'.incidents[k];
    sent := if row.state == CollectionQueued
            then Some(Emit(k, row, CollectionTopic, db.baselines[k.app].ref, None)) else None;
  }

  lemma AdmitInv(policies: Policies, db: Database, k: IncKey, request: Request, now: Instant)
    requires Inv(policies, db) && Admit(db, k, request, now).reply == Applied
    ensures Lawful(policies, db, Admit(db, k, request, now).db)
  {
    var db', row, sent := AdmitMoves(db, k, request, now);
    assert AppOk(db, k.app);
    forall i, t ensures !EventOf(db, k, t, i) {
      assert 0 <= i < |db.outbox| ==> WellFormedEvent(db, db.outbox[i]);
    }
    AdmitIncidentOk(policies, db, db', k, row, sent);
    if sent.Some? {
      EmitWellFormed(db', k, row, CollectionTopic, db.baselines[k.app].ref, None);
    }
    MovesInv(policies, db, db', k, row, None, sent);
  }

  // -------------------------------------------------------- reinvestigation

  lemma {:induction false} PriorEvidenceOk(db: Database, k: IncKey, n: nat)
    requires n <= |db.runs| && RerunsSound(db) && ArtifactsSound(db.artifacts)
    ensures var r := PriorEvidence(db, k, n);
            && r.Ok?
            && (r.value.Some? ==>
                  && r.value.value.Evidence? && r.value.value.incident == k.incident
                  && r.value.value.records != [] && (k.app, r.value.value) in db.artifacts)
  {
    if n > 0 {
      PriorEvidenceOk(db, k, n - 1);
      var run := db.runs[n - 1];
      if run.incident == k && run.previousResult.Some? {
        assert SoundArtifact(db.artifacts, k.app, run.previousResult.value);
      }
    }
  }

  /** A reanalysis starts from stored evidence of the same incident, and is refused only without an assessment. */
  lemma StoredEvidenceOk(policies: Policies, db: Database, k: IncKey)
    requires k in db.incidents && RowOk(policies, db, k) && RerunsSound(db) && ArtifactsSound(db.artifacts)
    requires db.incidents[k].state in {Assessed, Failed, BlockedByContext}
    ensures var r := StoredEvidence(db, k, db.incidents[k]);
            && (r.Ok? <==> db.incidents[k].state == Assessed)
            && (r.Ok? ==> r.value.Evidence? && r.value.incident == k.incident && (k.app, r.value) in db.artifacts)
  {
    var row := db.incidents[k];
    if row.result.Some? {
      assert SoundArtifact(db.artifacts, k.app, row.result.value);
    }
    PriorEvidenceOk(db, k, |db.runs|);
  }

  /** An incident that is neither queued nor decided has nothing pending, decided or in execution. */
  lemma Idle(policies: Policies, db: Database, k: IncKey)
    requires k in db.incidents && IncidentOk(policies, db, k)
    requires !Queued(db.incidents[k].state) && !Committed(db.incidents[k])
        && db.incidents[k].state != ResolutionRejected
    ensures forall i :: !StageEvent(db, k, i)
    ensures forall plan :: (k, plan) !in db.approvals
    ensures forall i :: !EventOf(db, k, ExecutionTopic, i) && !EventOf(db, k, VerificationTopic, i)
    ensures !Late(db.incidents[k].state) ==> forall i :: !EventOf(db, k, AuthorizationTopic, i)
  {
  }

  lemma ReinvestigateIncidentOk(policies: Policies, db: Database, db': Database, k: IncKey, row: Incident,
                                sent: Envelope)
    requires WellFormedRows(db) && k in db.incidents && IncidentOk(policies, db, k)
    requires db.incidents[k].state in {Assessed, Failed, BlockedByContext}
    requires MovesTo(db, db', k, row, None, Some(sent)) && db'.approvals == db.approvals
    requires row.state in {CollectionQueued, AnalysisQueued} && row.request.service in db.apps[k.app].config.services
    requires RowOk(policies, db', k) && StageTopic(sent.topic) && AtStage(db', k, sent)
    ensures IncidentOk(policies, db', k)
  {
    Idle(policies, db, k);
    MovesStage(db, db', k, row, None, Some(sent));
    RequeuedEvents(db, db', k, row, sent);
  }

  /** With nothing late before, a request for another round brings nothing late. */
  lemma RequeuedEvents(db: Database, db': Database, k: IncKey, row: Incident, sent: Envelope)
    requires MovesTo(db, db', k, row, None, Some(sent)) && k in db'.incidents
    requires forall i :: !EventOf(db, k, ExecutionTopic, i) && !EventOf(db, k, VerificationTopic, i)
    requires forall i :: !EventOf(db, k, AuthorizationTopic, i)
    requires StageTopic(sent.topic) && AtStage(db', k, sent) && row.state in {CollectionQueued, AnalysisQueued}
    ensures LateEventsOk(db', k)
  {
    forall i, t | EventOf(db', k, t, i) ensures t in {CollectionTopic, AnalysisTopic} || EventOf(db, k, t, i) {
    }
  }

  /** Run `i` of the incident ended in an assessment whose evidence has records. */
  predicate UsableRun(db: Database, k: IncKey, i: int) {
    && 0 <= i < |db.runs| && db.runs[i].incident == k
    && db.runs[i].previousResult.Some? && db.runs[i].previousResult.value.Assessment?
    && var evidence := db.runs[i].previousResult.value.evidence;
    evidence.Evidence? && evidence.records != []
  }

  /** The evidence taken from earlier rounds is that of the latest usable one, and none only if there is none. */
  lemma {:induction false} PriorEvidenceIsLatest(db: Database, k: IncKey, n: nat, i: nat)
    requires n <= |db.runs| && i < n && UsableRun(db, k, i) && forall j | i < j < n :: !UsableRun(db, k, j)
    requires PriorEvidence(db, k, n).Ok?
    ensures PriorEvidence(db, k, n) == Ok(Some(db.runs[i].previousResult.value.evidence))
  {
    if i < n - 1 {
      assert !UsableRun(db, k, n - 1);
      PriorEvidenceIsLatest(db, k, n - 1, i);
    }
  }

  lemma {:induction false} NoPriorEvidence(db: Database, k: IncKey, n: nat)
    requires n <= |db.runs| && PriorEvidence(db, k, n).Ok?
    ensures PriorEvidence(db, k, n).value.None? <==> forall i | 0 <= i < n :: !UsableRun(db, k, i)
  {
    if n > 0 {
      if !UsableRun(db, k, n - 1) {
        NoPriorEvidence(db, k, n - 1);
      }
    }
  }

  lemma ReinvestigateMoves(db: Database, k: IncKey, expected: Option<Content>, mode: Mode)
    returns (db': Database, sent: Envelope)
    requires Reinvestigate(db, k, expected, mode).reply == Applied
    ensures db' == Reinvestigate(db, k, expected, mode).db
    ensures k in db.incidents && k.app in db.apps && db.incidents[k].request.service in db.apps[k.app].config.services
    ensures db.incidents[k].state in {Assessed, Failed, BlockedByContext}
    ensures db.apps[k.app].state == ContextReady && k.app in db.baselines
    ensures mode == Recollect || (mode == Reanalyze && StoredEvidence(db, k, db.incidents[k]).Ok?)
    ensures sent == if mode == Recollect then Emit(k, db.incidents[k], CollectionTopic, db.baselines[k.app].ref, None)
                    else Emit(k, db.incidents[k], AnalysisTopic, StoredEvidence(db, k, db.incidents[k]).value, None)
    ensures var row := db.incidents[k];
            MovesTo(db, db', k,
                    if mode == Recollect then row.(state := CollectionQueued, result := None)
                    else row.(state := AnalysisQueued, result := Some(StoredEvidence(db, k, row).value)),
                    None, Some(sent))
    ensures db'.artifacts == db.artifacts && db'.approvals == db.approvals
    ensures db'.runs == db.runs + [Rerun(k, db.incidents[k].result, db.incidents[k].state)]
  {
    db' := Reinvestigate(db, k, expected, mode).db;
    sent := if mode == Recollect then Emit(k, db.incidents[k], CollectionTopic, db.baselines[k.app].ref, None)
            else Emit(k, db.incidents[k], AnalysisTopic, StoredEvidence(db, k, db.incidents[k]).value, None);
  }

  lemma ReinvestigateInv(policies: Policies, db: Database, k: IncKey, expected: Option<Content>, mode: Mode)
    returns (db': Database)
    requires Inv(policies, db) && Reinvestigate(db, k, expected, mode).reply == Applied
    ensures db' == Reinvestigate(db, k, expected, mode).db && Lawful(policies, db, db')
  {
    var sent;
    db', sent := ReinvestigateMoves(db, k, expected, mode);
    if mode == Recollect {
      Recollected(policies, db, db', k, sent);
    } else {
      Reanalyzed(policies, db, db', k, sent);
    }
    ReinvestigateMovesInv(policies, db, db', k, db'.incidents[k], sent);
  }

  /** The row and the request of a recollection fit each other. */
  lemma Recollected(policies: Policies, db: Database, db': Database, k: IncKey, sent: Envelope)
    requires Inv(policies, db) && k in db.incidents && k.app in db.apps && k.app in db.baselines
        && db.apps[k.app].state == ContextReady
    requires sent == Emit(k, db.incidents[k], CollectionTopic, db.baselines[k.app].ref, None)
    requires MovesTo(db, db', k, db.incidents[k].(state := CollectionQueued, result := None), None, Some(sent))
    ensures RowOk(policies, db', k) && AtStage(db', k, sent) && (k.app, db.baselines[k.app].ref) in db.artifacts
  {
    assert AppOk(db, k.app);
  }

  lemma Reanalyzed(policies: Policies, db: Database, db': Database, k: IncKey, sent: Envelope)
    requires Inv(policies, db) && k in db.incidents && StoredEvidence(db, k, db.incidents[k]).Ok?
    requires db.incidents[k].state in {Assessed, Failed, BlockedByContext}
    requires var evidence := StoredEvidence(db, k, db.incidents[k]).value;
             && sent == Emit(k, db.incidents[k], AnalysisTopic, evidence, None)
             && MovesTo(db, db', k, db.incidents[k].(state := AnalysisQueued, result := Some(evidence)),
                        None, Some(sent))
    ensures RowOk(policies, db', k) && AtStage(db', k, sent)
    ensures (k.app, StoredEvidence(db, k, db.incidents[k]).value) in db.artifacts
  {
    assert IncidentOk(policies, db, k);
    StoredEvidenceOk(policies, db, k);
  }

  lemma ReinvestigateMovesInv(policies: Policies, db: Database, db': Database, k: IncKey, row: Incident, sent: Envelope)
    requires Inv(policies, db) && k in db.incidents && db.incidents[k].state in {Assessed, Failed, BlockedByContext}
    requires MovesTo(db, db', k, row, None, Some(sent)) && db'.approvals == db.approvals
        && db'.artifacts == db.artifacts
    requires db'.runs == db.runs + [Rerun(k, db.incidents[k].result, db.incidents[k].state)]
    requires row.state in {CollectionQueued, AnalysisQueued} && row.request.service in db.apps[k.app].config.services
    requires RowOk(policies, db', k) && StageTopic(sent.topic) && AtStage(db', k, sent)
    requires exists topic, ref | StageTopic(topic) && (k.app, ref) in db.artifacts ::
        sent == Emit(k, db.incidents[k], topic, ref, None)
    ensures Lawful(policies, db, db')
  {
    assert IncidentOk(policies, db, k);
    RerunLogged(policies, db, db', k);
    ReinvestigateIncidentOk(policies, db, db', k, row, sent);
    EmitWellFormed(db', k, db.incidents[k], sent.topic, sent.refs[0], None);
    MovesInv(policies, db, db', k, row, None, Some(sent));
  }

  lemma RerunLogged(policies: Policies, db: Database, db': Database, k: IncKey)
    requires k in db.incidents && RowOk(policies, db, k) && RerunsSound(db)
    requires db.incidents[k].state in {Assessed, Failed, BlockedByContext}
    requires db'.runs == db.runs + [Rerun(k, db.incidents[k].result, db.incidents[k].state)]
        && db'.artifacts == db.artifacts
    ensures RerunsSound(db')
  {
  }

  // --------------------------------------------------------------- decision

  lemma DecideLateEvents(db: Database, db': Database, k: IncKey, plan: Plan, decision: Decision, sent: Option<Envelope>)
    requires k in db.incidents && LateEventsOk(db, k)
    requires k in db'.incidents && Late(db'.incidents[k].state) && db'.incidents[k].state != AwaitingApproval
    requires PlanOf(db'.incidents[k]) == PlanOf(db.incidents[k])
    requires db'.outbox == db.outbox + Sent(sent)
    requires forall i :: !EventOf(db, k, ExecutionTopic, i) && !EventOf(db, k, VerificationTopic, i)
    requires sent.Some? ==>
               sent.value.topic == ExecutionTopic && EventPlan(sent.value) == Some(plan) && decision == Approve
    requires IsDecided(db', k, Some(plan), decision)
    ensures LateEventsOk(db', k)
  {
    forall i, t | EventOf(db', k, t, i)
      ensures EventOf(db, k, t, i) || (i == |db.outbox| && t == ExecutionTopic && sent.Some?)
    {
    }
  }

  /** `db'` is `db` after a decision on the awaited plan of the incident. */
  ghost predicate Decides(db: Database, db': Database, k: IncKey, plan: Plan, decision: Decision,
                          consumed: Option<nat>, sent: Option<Envelope>) {
    && k in db.incidents && db.incidents[k].state == AwaitingApproval && db.incidents[k].result.Some?
    && (k.app, db.incidents[k].result.value) in db.artifacts
    && ResolutionOf(db.incidents[k].result.value).plan == Some(plan)
    && IsDecided(db', k, Some(plan), decision)
    && (forall d | d in db'.approvals && d != (k, plan) :: d in db.approvals)
    && MovesTo(db, db', k, db.incidents[k].(state := StateAfter(decision)), consumed, sent)
    && db'.artifacts == db.artifacts && db'.runs == db.runs
    && sent == if decision == Approve
               then Some(Emit(k, db.incidents[k], ExecutionTopic, db.incidents[k].result.value, None)) else None
  }

  lemma DecideIncidentOk(policies: Policies, db: Database, db': Database, k: IncKey, plan: Plan, decision: Decision,
                         consumed: Option<nat>, sent: Option<Envelope>)
    requires WellFormedRows(db) && Decides(db, db', k, plan, decision, consumed, sent) && IncidentOk(policies, db, k)
    ensures IncidentOk(policies, db', k)
  {
    Idle(policies, db, k);
    MovesStage(db, db', k, db'.incidents[k], consumed, sent);
    DecideLateEvents(db, db', k, plan, decision, sent);
    DecideDecisions(db, db', k, plan, decision);
    DecideRow(policies, db, db', k, decision, consumed, sent);
  }

  lemma DecideRow(policies: Policies, db: Database, db': Database, k: IncKey, decision: Decision,
                  consumed: Option<nat>, sent: Option<Envelope>)
    requires k in db.incidents && RowOk(policies, db, k) && ScopeOk(db, k) && db.incidents[k].state == AwaitingApproval
    requires MovesTo(db, db', k, db.incidents[k].(state := StateAfter(decision)), consumed, sent)
    ensures RowOk(policies, db', k) && ScopeOk(db', k)
  {
  }

  lemma DecideDecisions(db: Database, db': Database, k: IncKey, plan: Plan, decision: Decision)
    requires k in db.incidents && k in db'.incidents && PlanOf(db.incidents[k]) == Some(plan)
    requires db'.incidents[k] == db.incidents[k].(state := StateAfter(decision))
    requires forall other :: (k, other) !in db.approvals
    requires forall d | d in db'.approvals && d != (k, plan) :: d in db.approvals
    requires IsDecided(db', k, Some(plan), decision)
    ensures DecisionsOk(db', k)
  {
    forall other | (k, other) in db'.approvals ensures other == plan {
      assert (k, other) == (k, plan) || (k, other) in db.approvals;
    }
  }

  lemma DecideMoves(policies: Policies, db: Database, k: IncKey, plan: Plan, decision: Decision, event: Option<nat>,
                    now: Instant)
    returns (db': Database, sent: Option<Envelope>)
    requires event.Some? ==> AuthorizationId(db, event.value) && KeyOf(db.outbox[event.value]) == k
    requires Decide(policies, db, k, plan, decision, event, now).reply == Applied
    ensures db' == Decide(policies, db, k, plan, decision, event, now).db
    ensures Decides(db, db', k, plan, decision, event, sent)
  {
    db' := Decide(policies, db, k, plan, decision, event, now).db;
    var row := db.incidents[k];
    sent := if decision == Approve then Some(Emit(k, row, ExecutionTopic, row.result.value, None)) else None;
  }

  lemma DecideInv(policies: Policies, db: Database, k: IncKey, plan: Plan, decision: Decision, event: Option<nat>,
                  now: Instant)
    returns (db': Database)
    requires Inv(policies, db)
    requires event.Some? ==> AuthorizationId(db, event.value) && KeyOf(db.outbox[event.value]) == k
    requires Decide(policies, db, k, plan, decision, event, now).reply == Applied
    ensures db' == Decide(policies, db, k, plan, decision, event, now).db && Lawful(policies, db, db')
  {
    var sent;
    db', sent := DecideMoves(policies, db, k, plan, decision, event, now);
    DecideMovesInv(policies, db, db', k, plan, decision, event, sent);
  }

  lemma DecideMovesInv(policies: Policies, db: Database, db': Database, k: IncKey, plan: Plan, decision: Decision,
                       consumed: Option<nat>, sent: Option<Envelope>)
    requires Inv(policies, db) && Decides(db, db', k, plan, decision, consumed, sent)
    ensures Lawful(policies, db, db')
  {
    assert IncidentOk(policies, db, k);
    DecideIncidentOk(policies, db, db', k, plan, decision, consumed, sent);
    DecideSends(db, db', k, plan, decision, consumed, sent);
    SameReruns(db, db');
    MovesInv(policies, db, db', k, db'.incidents[k], consumed, sent);
  }

  lemma DecideSends(db: Database, db': Database, k: IncKey, plan: Plan, decision: Decision, consumed: Option<nat>,
                    sent: Option<Envelope>)
    requires Decides(db, db', k, plan, decision, consumed, sent)
    ensures sent.Some? ==> WellFormedEvent(db', sent.value)
    ensures Progress(db.incidents[k], db.incidents[k].(state := StateAfter(decision)))
  {
    if sent.Some? {
      EmitWellFormed(db', k, db.incidents[k], ExecutionTopic, sent.value.refs[0], None);
    }
  }
}
