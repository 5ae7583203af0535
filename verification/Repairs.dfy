/**
 What a run may do to the outside world: one repair per incident at most, never disowned, and a
 recovery only with an approval, a receipt and two samples behind it.
*/
module Repairs {
  import opened Model
  import opened Executor
  import opened Pipeline
  import opened Invariants
  import opened Reachable

  // ------------------------------------------------------ a run goes forward

  /** From one world of a run to a later one: a plan, once proposed, stays, and its incident only moves forward. */
  predicate Forward(row: Incident, row': Incident) {
    && (Late(row.state) ==> Late(row'.state) && PlanOf(row') == PlanOf(row)
                            && (row' == row || LateRank(row.state) < LateRank(row'.state)))
    && (Committed(row) ==> Committed(row'))
    && row'.request == row.request
  }

  ghost predicate Later(w: World, w': World) {
    && Extends(w.db, w'.db)
    && (forall k {:trigger w'.db.incidents[k]} | k in w.db.incidents :: Forward(w.db.incidents[k], w'.db.incidents[k]))
    && w.posts <= w'.posts
    && (forall url | url in w.targets :: url in w'.targets && w.targets[url].rows <= w'.targets[url].rows)
  }

  lemma NextOthers(policies: Policies, w: World, step: Action)
    ensures var w' := Next(policies, w, step);
            && w.posts <= w'.posts
            && (forall url | url in w.targets :: url in w'.targets && w.targets[url].rows <= w'.targets[url].rows)
  {
  }

  lemma NextInside(policies: Policies, w: World, step: Action)
    requires Inv(policies, w.db) && TasksOk(w)
    ensures Lawful(policies, w.db, Next(policies, w, step).db)
  {
    Stutters(policies, w.db);
    if Transactional(step) {
      NextLawful(policies, w, step);
    } else {
      OutsideKeepsDatabase(policies, w, step);
    }
  }

  lemma LawfulForward(policies: Policies, db: Database, db': Database, k: IncKey)
    requires Lawful(policies, db, db') && k in db.incidents
    ensures k in db'.incidents && Forward(db.incidents[k], db'.incidents[k])
  {
    assert Progress(db.incidents[k], db'.incidents[k]);
  }

  lemma NextLater(policies: Policies, w: World, step: Action)
    requires WorldInv(policies, w)
    ensures Later(w, Next(policies, w, step))
  {
    var w' := Next(policies, w, step);
    NextOthers(policies, w, step);
    NextInside(policies, w, step);
    forall k | k in w.db.incidents ensures Forward(w.db.incidents[k], w'.db.incidents[k]) {
      LawfulForward(policies, w.db, w'.db, k);
    }
  }

  lemma LaterTransitive(w: World, w': World, w'': World)
    requires Later(w, w') && Later(w', w'')
    ensures Later(w, w'')
  {
    forall k | k in w.db.incidents ensures Forward(w.db.incidents[k], w''.db.incidents[k]) {
      assert Forward(w.db.incidents[k], w'.db.incidents[k]);
      assert Forward(w'.db.incidents[k], w''.db.incidents[k]);
    }
  }

  /** Any world of a run against any later one: rows, receipts and requests stay, and every plan only moves forward. */
  lemma {:induction false} RunLater(policies: Policies, steps: seq<Action>, n: nat)
    requires n <= |steps|
    ensures Later(Run(policies, steps[..n]), Run(policies, steps))
  {
    if n == |steps| {
      assert steps[..n] == steps;
    } else {
      var before := steps[..|steps| - 1];
      RunNext(policies, steps);
      assert before[..n] == steps[..n];
      RunLater(policies, before, n);
      RunInv(policies, before);
      NextLater(policies, Run(policies, before), steps[|steps| - 1]);
      LaterTransitive(Run(policies, steps[..n]), Run(policies, before), Run(policies, steps));
    }
  }

  /** Approval is awaited once: an incident that has left the wait, or reached any state past it, never waits again. */
  lemma ApprovalAwaitedOnce(policies: Policies, steps: seq<Action>, n: nat, k: IncKey)
    requires n <= |steps| && k in Run(policies, steps[..n]).db.incidents
    requires Late(Run(policies, steps[..n]).db.incidents[k].state)
    ensures var row := Run(policies, steps[..n]).db.incidents[k];
            && k in Run(policies, steps).db.incidents
            && var row' := Run(policies, steps).db.incidents[k];
            && PlanOf(row') == PlanOf(row)
            && (row'.state == AwaitingApproval ==> row' == row)
            && (row.state in {Recovered, ResolutionRejected, ResolutionFailed} ==> row' == row)
  {
    RunLater(policies, steps, n);
    assert Forward(Run(policies, steps[..n]).db.incidents[k], Run(policies, steps).db.incidents[k]);
  }

  // ---------------------------------------------------- at most one repair

  /** A recorded action belongs to an incident whose approved plan it is. */
  lemma RecordedIsApproved(policies: Policies, w: World, url: string, i: int)
    requires WorldInv(policies, w) && url in w.targets && 0 <= i < |w.targets[url].rows|
    ensures var key := w.targets[url].rows[i].key;
            && key.incident in w.db.incidents
            && PlanOf(w.db.incidents[key.incident]) == Some(key.plan)
            && Committed(w.db.incidents[key.incident])
            && url == key.plan.policy.executionUrl
            && w.targets[url].rows[i].body ==
                 RepairBody(key.plan.action, ServiceOf(w.db, key.incident), key.plan.diagnostic.revision)
            && IsDecided(w.db, key.incident, Some(key.plan), Approve)
  {
    assert TargetOk(w.posts, url, w.targets[url]);
    assert Requested(w.posts, url, w.targets[url].rows[i]);
    var x :| x in w.posts && x.url == url && x.key == w.targets[url].rows[i].key
        && x.body == w.targets[url].rows[i].body;
    assert PostOk(w.db, x);
    assert IncidentOk(policies, w.db, x.key.incident) && DecisionsOk(w.db, x.key.incident);
  }

  /** Over every run, whatever is redelivered, repeated, reordered or
      crashes, all executors together repair for one incident at most once. */
  lemma AtMostOneRepair(policies: Policies, steps: seq<Action>, url1: string, i1: int, url2: string, i2: int)
    requires var w := Run(policies, steps);
             && url1 in w.targets && 0 <= i1 < |w.targets[url1].rows|
             && url2 in w.targets && 0 <= i2 < |w.targets[url2].rows|
             && w.targets[url1].rows[i1].key.incident == w.targets[url2].rows[i2].key.incident
    ensures url1 == url2 && i1 == i2
  {
    var w := Run(policies, steps);
    RunInv(policies, steps);
    RecordedIsApproved(policies, w, url1, i1);
    RecordedIsApproved(policies, w, url2, i2);
    assert TargetOk(w.posts, url1, w.targets[url1]);
  }

  /** Every request for one incident carries the same key, body and address. */
  lemma RequestsAgree(policies: Policies, steps: seq<Action>, x: Post, y: Post)
    requires x in Run(policies, steps).posts && y in Run(policies, steps).posts && x.key.incident == y.key.incident
    ensures x == y
  {
    var w := Run(policies, steps);
    var k := x.key.incident;
    RunInv(policies, steps);
    assert PostOk(w.db, x) && PostOk(w.db, y);
    assert IncidentOk(policies, w.db, k) && DecisionsOk(w.db, k) && LateEventsOk(w.db, k);
    assert EventOf(w.db, k, ExecutionTopic, x.id) && EventOf(w.db, k, ExecutionTopic, y.id);
  }

  /** No executor ever reports a conflict: what is recorded under a request's key was asked for in the same words. */
  lemma NeverConflicts(policies: Policies, steps: seq<Action>, x: Post)
    requires x in Run(policies, steps).posts && x.url in Run(policies, steps).targets
    ensures Repair(Run(policies, steps).targets[x.url], x.key, x.body).1 != IdempotencyConflict
  {
    var w := Run(policies, steps);
    RunInv(policies, steps);
    assert PostOk(w.db, x);
    if HasRow(w.targets[x.url], x.key) {
      RecordedIsApproved(policies, w, x.url, RowIndex(w.targets[x.url].rows, x.key));
    }
  }

  /** Execution is requested by one event per incident at most. */
  lemma OneExecutionEvent(policies: Policies, steps: seq<Action>, k: IncKey, i: int, j: int)
    requires EventOf(Run(policies, steps).db, k, ExecutionTopic, i)
        && EventOf(Run(policies, steps).db, k, ExecutionTopic, j)
    ensures i == j
  {
    RunInv(policies, steps);
    var db := Run(policies, steps).db;
    assert WellFormedEvent(db, db.outbox[i]);
    assert IncidentOk(policies, db, k) && LateEventsOk(db, k);
  }

  // --------------------------------------------------------- nothing disowned

  /** The result says that the outcome of its action is uncertain, or names the action. */
  predicate Owns(row: Incident, key: ActionKey) {
    row.result.Some? && row.result.value.Assessment?
    && (row.result.value.resolution.outcomeUncertain || row.result.value.resolution.actionId == Some(key))
  }

  /** Once an executor acted for an incident, the incident is in execution or past it forever after, and a
      failure owns up to the action. */
  lemma EffectsNeverDisowned(policies: Policies, steps: seq<Action>, n: nat, url: string, i: int)
    requires n <= |steps|
    requires var w := Run(policies, steps[..n]); url in w.targets && 0 <= i < |w.targets[url].rows|
    ensures var key := Run(policies, steps[..n]).targets[url].rows[i].key;
            && key.incident in Run(policies, steps).db.incidents
            && var row := Run(policies, steps).db.incidents[key.incident];
            && row.state in {ExecutionQueued, VerificationQueued, Recovered, ResolutionFailed}
            && PlanOf(row) == Some(key.plan)
            && (row.state in {VerificationQueued, Recovered} ==> ActionOf(row) == Some(key))
            && (row.state == ResolutionFailed ==> Owns(row, key))
  {
    var w, w' := Run(policies, steps[..n]), Run(policies, steps);
    var key := w.targets[url].rows[i].key;
    RunLater(policies, steps, n);
    RunInv(policies, steps);
    assert w'.targets[url].rows[i].key == key;
    RecordedIsApproved(policies, w', url, i);
    assert IncidentOk(policies, w'.db, key.incident) && RowOk(policies, w'.db, key.incident);
  }

  /** A rejected incident never has an effect, before or after. */
  lemma RejectedHasNoEffect(policies: Policies, steps: seq<Action>, n: nat, k: IncKey, url: string, i: int)
    requires n <= |steps| && InState(Run(policies, steps[..n]).db, k, ResolutionRejected)
    requires url in Run(policies, steps).targets && 0 <= i < |Run(policies, steps).targets[url].rows|
    ensures Run(policies, steps).targets[url].rows[i].key.incident != k
  {
    ApprovalAwaitedOnce(policies, steps, n, k);
    RunInv(policies, steps);
    RecordedIsApproved(policies, Run(policies, steps), url, i);
  }

  // ------------------------------------------------------ justified recovery

  /** A recovered incident has an approval bound to the plan of its result, made
      under the configured policy; its executor recorded exactly its action; and two
      healthy samples in order, taken after the acknowledgement, name that action. */
  lemma RecoveryRecorded(policies: Policies, steps: seq<Action>, k: IncKey)
    requires InState(Run(policies, steps).db, k, Recovered)
    ensures var w := Run(policies, steps);
            var row := w.db.incidents[k];
            && Planned(policies, k, row)
            && var r := row.result.value.resolution;
            && IsDecided(w.db, k, r.plan, Approve)
            && r.actionId == Some(ActionKey(k, r.plan.value))
            && Recorded(w.targets, ActionKey(k, r.plan.value))
            && RecoverySampled(k, row)
            && (k.app, row.result.value) in w.db.artifacts
  {
    var w := Run(policies, steps);
    RunInv(policies, steps);
    assert IncidentOk(policies, w.db, k) && RowOk(policies, w.db, k) && DecisionsOk(w.db, k);
  }

  /** Nothing is repaired before its plan was approved: the request itself proves it. */
  lemma RepairNeedsApproval(policies: Policies, steps: seq<Action>, x: Post)
    requires x in Run(policies, steps).posts
    ensures var db := Run(policies, steps).db;
            && IsDecided(db, x.key.incident, Some(x.key.plan), Approve)
            && x.key.incident in db.incidents && Committed(db.incidents[x.key.incident])
  {
    var w := Run(policies, steps);
    RunInv(policies, steps);
    assert PostOk(w.db, x);
    assert IncidentOk(policies, w.db, x.key.incident) && DecisionsOk(w.db, x.key.incident);
  }
}
