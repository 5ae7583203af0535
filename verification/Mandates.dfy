/**
 Who is asked for a plan: while an incident waits for a decision, exactly one authorization event is
 live if the policy of its plan gives a mandate, and none if it does not.
*/
module Mandates {
  import opened Model
  import opened Transactions
  import opened Pipeline
  import opened Invariants
  import opened Moves
  import opened IncidentSteps
  import opened OperatorSteps
  import opened Reachable
  import opened Repairs
  import opened Deliveries
  import opened Unaffected

  predicate LiveAuthorization(db: Database, k: IncKey, i: int) {
    EventOf(db, k, AuthorizationTopic, i) && Live(db, i)
  }

  predicate Mandated(row: Incident) {
    PlanOf(row).Some? && PlanOf(row).value.policy.automaticUntil.Some?
  }

  /** While the incident waits, its policy is asked exactly if it gives a mandate, and asked once. */
  ghost predicate AskedRight(db: Database, k: IncKey) {
    k in db.incidents && db.incidents[k].state == AwaitingApproval ==>
      && (Mandated(db.incidents[k]) <==> exists i :: LiveAuthorization(db, k, i))
      && (forall i, j | LiveAuthorization(db, k, i) && LiveAuthorization(db, k, j) :: i == j)
  }

  // -------------------------------------------------- nothing about the incident

  /** What happens elsewhere consumes none of the incident's events. */
  lemma OthersLeaveEvents(policies: Policies, w: World, step: Action, k: IncKey, i: nat)
    requires LiveAuthorization(w.db, k, i) && !About(w.db, step, k)
    requires w.db.outbox <= NextDatabase(policies, w, step).db.outbox
    ensures LiveAuthorization(NextDatabase(policies, w, step).db, k, i)
  {
    NextInbox(policies, w, step);
  }

  lemma NoNewsAsks(policies: Policies, w: World, step: Action, k: IncKey)
    requires AskedRight(w.db, k) && !About(w.db, step, k)
    requires NoNews(w.db, NextDatabase(policies, w, step).db, k)
    requires Extends(w.db, NextDatabase(policies, w, step).db)
    ensures AskedRight(NextDatabase(policies, w, step).db, k)
  {
    var db' := NextDatabase(policies, w, step).db;
    forall i: nat | LiveAuthorization(w.db, k, i) ensures LiveAuthorization(db', k, i) {
      OthersLeaveEvents(policies, w, step, k, i);
    }
    forall i | LiveAuthorization(db', k, i) ensures LiveAuthorization(w.db, k, i) {
    }
  }

  // -------------------------------------------------------------- planning

  /** A row that starts to wait asks the policy by the event sent with it, if any. */
  lemma NewlyAsked(db: Database, db': Database, k: IncKey, row: Incident, consumed: Option<nat>, sent: Option<Envelope>)
    requires MovesTo(db, db', k, row, consumed, sent) && WellFormedRows(db)
    requires forall i :: !EventOf(db, k, AuthorizationTopic, i)
    requires sent.Some? ==> sent.value.topic == AuthorizationTopic
    requires sent.Some? <==> Mandated(row)
    ensures AskedRight(db', k)
  {
    var n := |db.outbox|;
    forall i | EventOf(db', k, AuthorizationTopic, i) ensures i == n && sent.Some? {
      assert i < n ==> !EventOf(db, k, AuthorizationTopic, i);
    }
    if sent.Some? {
      assert LiveAuthorization(db', k, n);
    }
  }

  lemma NotAskedBefore(policies: Policies, db: Database, id: nat)
    requires Inv(policies, db) && StageId(db, id) && Live(db, id) && db.outbox[id].topic == ResolutionTopic
    ensures forall i :: !EventOf(db, KeyOf(db.outbox[id]), AuthorizationTopic, i)
  {
    var k := KeyOf(db.outbox[id]);
    LiveStage(policies, db, id);
    assert IncidentOk(policies, db, k) && LateEventsOk(db, k);
  }

  /** Only the planning handler leads to the wait, and it asks the policy exactly if there is a mandate. */
  lemma PlannedBy(policies: Policies, db: Database, t: Task) returns (c: Commit)
    requires CommitTask(policies, db, t).reply == Applied
    requires db.outbox[t.id].incident.Some? && !ApplicationTopic(db.outbox[t.id].topic)
    requires var k := KeyOf(db.outbox[t.id]);
             k in CommitTask(policies, db, t).db.incidents
             && CommitTask(policies, db, t).db.incidents[k].state == AwaitingApproval
    ensures StageId(db, t.id) && db.outbox[t.id].topic == ResolutionTopic
    ensures ChangeOf(policies, db, t) == Ok(IncChange(c)) && c.next == AwaitingApproval
    ensures c.result.Assessment? && c.result.resolution.plan.Some?
    ensures c.topic == if c.result.resolution.plan.value.policy.automaticUntil.Some? then Some(AuthorizationTopic)
                       else None
  {
    c := ChangeOf(policies, db, t).value.incident;
  }

  lemma PlanningAsks(policies: Policies, db: Database, t: Task, k: IncKey)
    requires Inv(policies, db) && CommitTask(policies, db, t).reply == Applied
    requires t.id < |db.outbox| && db.outbox[t.id].incident.Some? && KeyOf(db.outbox[t.id]) == k
    ensures AskedRight(CommitTask(policies, db, t).db, k)
  {
    var db' := CommitTask(policies, db, t).db;
    if k in db'.incidents && db'.incidents[k].state == AwaitingApproval {
      assert WellFormedEvent(db, db.outbox[t.id]);
      var c := PlannedBy(policies, db, t);
      var moved, sent := CompleteMoves(db, t.id, c.next, c.result, c.topic);
      NotAskedBefore(policies, db, t.id);
      PlannedAsks(db, moved, t.id, k, sent, c);
    }
  }

  lemma PlannedAsks(db: Database, db': Database, id: nat, k: IncKey, sent: Option<Envelope>, c: Commit)
    requires Completes(db, db', id, k, sent, c.next, c.result, c.topic) && WellFormedRows(db)
    requires forall i :: !EventOf(db, k, AuthorizationTopic, i)
    requires c.result.Assessment? && c.result.resolution.plan.Some?
    requires c.topic == if c.result.resolution.plan.value.policy.automaticUntil.Some? then Some(AuthorizationTopic)
                        else None
    ensures AskedRight(db', k)
  {
    NewlyAsked(db, db', k, db'.incidents[k], Some(id), sent);
  }

  // --------------------------------------------------------------- all steps

  lemma DecidedWaitsNoMore(policies: Policies, db: Database, k: IncKey, plan: Plan, decision: Decision,
                           event: Option<nat>, now: Instant)
    requires event.Some? ==> event.value < |db.outbox| && db.outbox[event.value].topic == AuthorizationTopic
    requires Decide(policies, db, k, plan, decision, event, now).reply == Applied
    ensures k in db.incidents
    ensures Decide(policies, db, k, plan, decision, event, now).db.incidents[k].state != AwaitingApproval
  {
  }

  /** A step about the incident lets it wait only by planning it. */
  lemma OwnStepAsks(policies: Policies, w: World, step: Action, k: IncKey)
    requires Inv(policies, w.db) && NextDatabase(policies, w, step).reply == Applied && About(w.db, step, k)
    ensures AskedRight(NextDatabase(policies, w, step).db, k)
  {
    match step
    case CommitAction(t) => PlanningAsks(policies, w.db, t, k);
    case ReinvestigateAction(_, expected, mode) =>
      var db', sent := ReinvestigateMoves(w.db, k, expected, mode);
    case DecideAction(_, plan, decision, now) => DecidedWaitsNoMore(policies, w.db, k, plan, decision, None, now);
    case AuthorizeAction(id, now) =>
      DecidedWaitsNoMore(policies, w.db, k, ResolutionOf(w.db.outbox[id].refs[0]).plan.value, Approve, Some(id), now);
  }

  /** No release and no admission makes an incident wait for a decision. */
  lemma NoneStartsToWait(policies: Policies, w: World, step: Action, k: IncKey)
    requires k in NextDatabase(policies, w, step).db.incidents
    requires k !in w.db.incidents || (step.ReleaseAction? && w.db.incidents[k].state == WaitingForContext)
    requires NextDatabase(policies, w, step).reply == Applied
    ensures NextDatabase(policies, w, step).db.incidents[k].state != AwaitingApproval
  {
    match step
    case CommitAction(t) => CommitBeside(policies, w.db, t);
    case ReleaseAction(id, order) => ReleasedElsewhere(w.db, id, order, k);
    case AdmitAction(other, request, now) => AdmittedElsewhere(w.db, other, request, now, k);
    case _ => NobodyEnters(policies, w, step, k);
  }

  lemma NobodyEnters(policies: Policies, w: World, step: Action, k: IncKey)
    requires !step.CommitAction? && !step.ReleaseAction? && !step.AdmitAction? && k !in w.db.incidents
    ensures k !in NextDatabase(policies, w, step).db.incidents
  {
  }

  lemma ReleasedElsewhere(db: Database, id: nat, order: seq<IncKey>, k: IncKey)
    requires id < |db.outbox| && AdmissionTopic(db.outbox[id].topic) && forall q | q in order :: q in db.incidents
    requires k in db.incidents ==> db.incidents[k].state == WaitingForContext
    ensures var db' := Release(db, id, order).db;
            k in db'.incidents ==> db'.incidents[k].state != AwaitingApproval
  {
  }

  lemma AdmittedElsewhere(db: Database, other: IncKey, request: Request, now: Instant, k: IncKey)
    requires k !in db.incidents
    ensures var db' := Admit(db, other, request, now).db;
            k in db'.incidents ==> db'.incidents[k].state != AwaitingApproval
  {
  }

  lemma OtherStepAsks(policies: Policies, w: World, step: Action, k: IncKey)
    requires WorldInv(policies, w) && AskedRight(w.db, k) && !About(w.db, step, k)
    requires NextDatabase(policies, w, step).reply == Applied
    requires Extends(w.db, NextDatabase(policies, w, step).db)
    ensures AskedRight(NextDatabase(policies, w, step).db, k)
  {
    var db' := NextDatabase(policies, w, step).db;
    if k in db'.incidents {
      if k !in w.db.incidents || (step.ReleaseAction? && w.db.incidents[k].state == WaitingForContext) {
        NoneStartsToWait(policies, w, step, k);
      } else {
        NextNoNews(policies, w, step, k);
        NoNewsAsks(policies, w, step, k);
      }
    }
  }

  lemma NextAsks(policies: Policies, w: World, step: Action, k: IncKey)
    requires WorldInv(policies, w) && AskedRight(w.db, k)
    ensures AskedRight(Next(policies, w, step).db, k)
  {
    if !Transactional(step) {
      OutsideKeepsDatabase(policies, w, step);
    } else if NextDatabase(policies, w, step).reply != Applied {
      OnlyAppliedWrites(policies, w, step);
    } else if About(w.db, step, k) {
      OwnStepAsks(policies, w, step, k);
    } else {
      NextInside(policies, w, step);
      OtherStepAsks(policies, w, step, k);
    }
  }

  lemma {:induction false} RunAsks(policies: Policies, steps: seq<Action>, k: IncKey)
    ensures AskedRight(Run(policies, steps).db, k)
  {
    if steps != [] {
      var before := steps[..|steps| - 1];
      RunAsks(policies, before, k);
      RunInv(policies, before);
      RunNext(policies, steps);
      NextAsks(policies, Run(policies, before), steps[|steps| - 1], k);
    }
  }

  /** While an incident waits for a decision exactly one authorization event of it is live, carrying its result,
      if the policy of its plan gives a mandate; otherwise none is. */
  lemma OneLiveAuthorization(policies: Policies, steps: seq<Action>, k: IncKey)
    requires InState(Run(policies, steps).db, k, AwaitingApproval)
    ensures var db := Run(policies, steps).db;
            && PlanOf(db.incidents[k]).Some?
            && (Mandated(db.incidents[k]) <==> exists i :: LiveAuthorization(db, k, i))
            && (forall i, j | LiveAuthorization(db, k, i) && LiveAuthorization(db, k, j) :: i == j)
            && (forall i | LiveAuthorization(db, k, i) ::
                  |db.outbox[i].refs| == 1 && db.incidents[k].result == Some(db.outbox[i].refs[0]))
  {
    var db := Run(policies, steps).db;
    RunInv(policies, steps);
    RunAsks(policies, steps, k);
    assert IncidentOk(policies, db, k) && LateEventsOk(db, k) && RowOk(policies, db, k);
    forall i | LiveAuthorization(db, k, i)
      ensures |db.outbox[i].refs| == 1 && db.incidents[k].result == Some(db.outbox[i].refs[0])
    {
      assert AsksFor(db.incidents[k], db.outbox[i]);
    }
  }
}
