/**
 Evidence is not erased: once an incident was assessed on records, every later assessment of it rests
 on records too, however empty later collections are, unless a stage fails before the assessment.
*/
module EvidenceKept {
  import opened Model
  import opened Transactions
  import opened Pipeline
  import opened Invariants
  import opened IncidentSteps
  import opened OperatorSteps
  import opened Reachable
  import opened Unaffected

  predicate HasRecords(c: Content) {
    c.Evidence? && c.records != []
  }

  predicate AssessedOnRecords(c: Option<Content>) {
    c.Some? && c.value.Assessment? && HasRecords(c.value.evidence)
  }

  /** Wherever the incident is in its rounds, the records it was assessed on are still at hand. */
  ghost predicate KeepsRecords(db: Database, k: IncKey) {
    && k in db.incidents
    && var row := db.incidents[k];
    && row.state !in {WaitingForContext, BlockedByContext, Failed}
    && (row.state == CollectionQueued ==> forall i | StageEvent(db, k, i) :: AssessedOnRecords(db.outbox[i].previous))
    && (row.state == AnalysisQueued ==> row.result.Some? && HasRecords(row.result.value))
    && (row.state in {Assessed, ResolutionQueued} || Late(row.state) ==> AssessedOnRecords(row.result))
  }

  lemma NoNewsKeeps(db: Database, db': Database, k: IncKey)
    requires KeepsRecords(db, k) && NoNews(db, db', k) && Extends(db, db')
    ensures KeepsRecords(db', k)
  {
    forall i | StageEvent(db', k, i) ensures StageEvent(db, k, i) && db'.outbox[i] == db.outbox[i] {
    }
  }

  // ------------------------------------------------------------ stage commits

  lemma StageResultKeeps(policies: Policies, db: Database, id: nat, answer: Answer)
    requires Awaited(policies, db, id) && Live(db, id) && KeepsRecords(db, KeyOf(db.outbox[id]))
    ensures var e := db.outbox[id];
            var r := StageResult(policies, e, ServiceOf(db, KeyOf(e)), answer);
            r.Ok? ==>
              if r.value.next == AnalysisQueued then HasRecords(r.value.result)
              else AssessedOnRecords(Some(r.value.result))
  {
    assert StageEvent(db, KeyOf(db.outbox[id]), id);
  }

  /** What a commit for the incident asks for still rests on records, or is a failed stage. */
  lemma ChangeKeeps(policies: Policies, w: World, t: Task)
    requires Inv(policies, w.db) && TaskOk(w, t) && CommitTask(policies, w.db, t).reply == Applied
    requires w.db.outbox[t.id].incident.Some? && KeepsRecords(w.db, KeyOf(w.db.outbox[t.id]))
    ensures ChangeOf(policies, w.db, t).Ok? && ChangeOf(policies, w.db, t).value.IncChange?
    ensures var c := ChangeOf(policies, w.db, t).value.incident;
            || c.next == Failed
            || (c.next == AnalysisQueued && HasRecords(c.result))
            || ((c.next in {Assessed, ResolutionQueued} || Late(c.next)) && AssessedOnRecords(Some(c.result)))
  {
    assert WellFormedEvent(w.db, w.db.outbox[t.id]);
    if StageId(w.db, t.id) {
      LiveStage(policies, w.db, t.id);
      if t.StageTask? {
        StageResultKeeps(policies, w.db, t.id, t.answer);
        NextOfStage(policies, w.db.outbox[t.id], ServiceOf(w.db, KeyOf(w.db.outbox[t.id])), t.answer);
      }
    }
  }

  /** No handler commits a failure or a wait. */
  lemma NextOfStage(policies: Policies, e: Envelope, service: string, answer: Answer)
    requires !ApplicationTopic(e.topic) && e.incident.Some?
    ensures var r := StageResult(policies, e, service, answer);
            r.Ok? ==> r.value.next in {AnalysisQueued, Assessed, ResolutionQueued} || Late(r.value.next)
  {
  }

  lemma CommitKeepsRecords(policies: Policies, w: World, t: Task)
    requires Inv(policies, w.db) && TaskOk(w, t) && CommitTask(policies, w.db, t).reply == Applied
    requires w.db.outbox[t.id].incident.Some? && KeepsRecords(w.db, KeyOf(w.db.outbox[t.id]))
    ensures var db' := CommitTask(policies, w.db, t).db;
            var k := KeyOf(w.db.outbox[t.id]);
            k in db'.incidents && (KeepsRecords(db', k) || db'.incidents[k].state == Failed)
  {
    ChangeKeeps(policies, w, t);
    var c := ChangeOf(policies, w.db, t).value.incident;
  }

  // ---------------------------------------------------------- reinvestigation

  lemma StoredEvidenceKeeps(policies: Policies, db: Database, k: IncKey)
    requires Inv(policies, db) && k in db.incidents && AssessedOnRecords(db.incidents[k].result)
    requires StoredEvidence(db, k, db.incidents[k]).Ok?
    ensures HasRecords(StoredEvidence(db, k, db.incidents[k]).value)
  {
    PriorEvidenceOk(db, k, |db.runs|);
  }

  lemma ReinvestigateKeepsRecords(policies: Policies, db: Database, k: IncKey, expected: Option<Content>, mode: Mode)
    requires Inv(policies, db) && KeepsRecords(db, k) && Reinvestigate(db, k, expected, mode).reply == Applied
    ensures KeepsRecords(Reinvestigate(db, k, expected, mode).db, k)
  {
    var db', sent := ReinvestigateMoves(db, k, expected, mode);
    assert IncidentOk(policies, db, k);
    Idle(policies, db, k);
    if mode == Reanalyze {
      StoredEvidenceKeeps(policies, db, k);
    }
    RequeuedKeeps(db, db', k, sent);
  }

  lemma RequeuedKeeps(db: Database, db': Database, k: IncKey, sent: Envelope)
    requires k in db'.incidents && db'.outbox == db.outbox + [sent] && db.inbox <= db'.inbox
    requires forall i :: !StageEvent(db, k, i)
    requires || (db'.incidents[k].state == CollectionQueued && AssessedOnRecords(sent.previous))
             || (db'.incidents[k].state == AnalysisQueued && db'.incidents[k].result.Some?
                 && HasRecords(db'.incidents[k].result.value))
    ensures KeepsRecords(db', k)
  {
    forall i | StageEvent(db', k, i) ensures db'.outbox[i] == sent {
      assert i < |db.outbox| ==> !StageEvent(db, k, i);
    }
  }

  // ---------------------------------------------------------------- decisions

  lemma DecideKeepsRecords(policies: Policies, db: Database, k: IncKey, plan: Plan, decision: Decision,
                           event: Option<nat>, now: Instant)
    requires event.Some? ==> event.value < |db.outbox| && db.outbox[event.value].topic == AuthorizationTopic
    requires KeepsRecords(db, k)
    ensures KeepsRecords(Decide(policies, db, k, plan, decision, event, now).db, k)
  {
  }

  // --------------------------------------------------------------------- runs

  lemma NextKeepsRecords(policies: Policies, w: World, step: Action, k: IncKey)
    requires WorldInv(policies, w) && KeepsRecords(w.db, k) && NextDatabase(policies, w, step).reply == Applied
    requires Extends(w.db, NextDatabase(policies, w, step).db)
    ensures var db' := NextDatabase(policies, w, step).db;
            k in db'.incidents && (KeepsRecords(db', k) || db'.incidents[k].state == Failed)
  {
    if !About(w.db, step, k) {
      NextNoNews(policies, w, step, k);
      NoNewsKeeps(w.db, NextDatabase(policies, w, step).db, k);
    } else {
      match step
      case CommitAction(t) =>
        assert TaskOk(w, t);
        CommitKeepsRecords(policies, w, t);
      case ReinvestigateAction(_, expected, mode) => ReinvestigateKeepsRecords(policies, w.db, k, expected, mode);
      case DecideAction(_, plan, decision, now) => DecideKeepsRecords(policies, w.db, k, plan, decision, None, now);
      case AuthorizeAction(id, now) =>
        DecideKeepsRecords(policies, w.db, k, ResolutionOf(w.db.outbox[id].refs[0]).plan.value, Approve, Some(id), now);
    }
  }

  lemma StepKeepsRecords(policies: Policies, w: World, step: Action, k: IncKey)
    requires WorldInv(policies, w) && KeepsRecords(w.db, k)
    ensures var db' := Next(policies, w, step).db;
            k in db'.incidents && (KeepsRecords(db', k) || db'.incidents[k].state == Failed)
  {
    if Transactional(step) {
      NextLawful(policies, w, step);
      if NextDatabase(policies, w, step).reply == Applied {
        NextKeepsRecords(policies, w, step, k);
      } else {
        OnlyAppliedWrites(policies, w, step);
      }
    } else {
      OutsideKeepsDatabase(policies, w, step);
    }
  }

  lemma {:induction false} RunKeepsRecords(policies: Policies, steps: seq<Action>, n: nat, k: IncKey)
    requires n <= |steps| && KeepsRecords(Run(policies, steps[..n]).db, k)
    requires forall m | n <= m <= |steps| ::
               k in Run(policies, steps[..m]).db.incidents ==> Run(policies, steps[..m]).db.incidents[k].state != Failed
    ensures KeepsRecords(Run(policies, steps).db, k)
  {
    if n == |steps| {
      assert steps[..n] == steps;
    } else {
      var before := steps[..|steps| - 1];
      assert forall m | n <= m <= |before| :: before[..m] == steps[..m];
      RunNext(policies, steps);
      RunKeepsRecords(policies, before, n, k);
      RunInv(policies, before);
      StepKeepsRecords(policies, Run(policies, before), steps[|steps| - 1], k);
      assert steps[..|steps|] == steps;
    }
  }

  /** From an assessment on records to any later assessment of
      a run in which no stage failed before one: records again. */
  lemma EvidenceNotErased(policies: Policies, steps: seq<Action>, n: nat, k: IncKey)
    requires n <= |steps| && InState(Run(policies, steps[..n]).db, k, Assessed)
    requires AssessedOnRecords(Run(policies, steps[..n]).db.incidents[k].result)
    requires forall m | n <= m <= |steps| ::
               k in Run(policies, steps[..m]).db.incidents ==> Run(policies, steps[..m]).db.incidents[k].state != Failed
    ensures k in Run(policies, steps).db.incidents
    ensures var row := Run(policies, steps).db.incidents[k];
            row.state == Assessed || Late(row.state) ==> AssessedOnRecords(row.result)
  {
    RunKeepsRecords(policies, steps, n, k);
  }
}
