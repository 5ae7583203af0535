/**
 What enters the store is sound for good: every registration, request and approval found in any world
 of a run passed the checks made when it was entered.
*/
module Entries {
  import opened Model
  import opened Transactions
  import opened Pipeline
  import opened Reachable
  import opened Deliveries

  /** The window is positive and at most a day long, and nothing that names the incident is empty. */
  predicate SoundRequest(k: IncKey, request: Request) {
    && k.incident != "" && request.service != ""
    && request.windowStart < request.windowEnd <= request.windowStart + 24 * HOUR
  }

  /** A decision by policy approves, under a policy that gives a mandate. */
  predicate SoundApproval(plan: Plan, approval: Approval) {
    approval.authority == Preauthorized ==> approval.decision == Approve && plan.policy.automaticUntil.Some?
  }

  ghost predicate EntriesSound(db: Database) {
    && (forall a | a in db.apps :: a.tenant != "" && a.application != "" && db.apps[a].version >= 1)
    && (forall k | k in db.incidents :: SoundRequest(k, db.incidents[k].request))
    && (forall k, plan | (k, plan) in db.approvals :: SoundApproval(plan, db.approvals[(k, plan)]))
  }

  lemma CommitEntries(policies: Policies, db: Database, t: Task)
    requires EntriesSound(db) && CommitTask(policies, db, t).reply == Applied
    ensures EntriesSound(CommitTask(policies, db, t).db)
  {
    CommitBeside(policies, db, t);
  }

  lemma DecideEntries(policies: Policies, db: Database, k: IncKey, plan: Plan, decision: Decision, event: Option<nat>,
                      now: Instant)
    requires EntriesSound(db) && (event.Some? ==> decision == Approve)
    requires event.Some? ==> event.value < |db.outbox| && db.outbox[event.value].topic == AuthorizationTopic
    requires Decide(policies, db, k, plan, decision, event, now).reply == Applied
    ensures EntriesSound(Decide(policies, db, k, plan, decision, event, now).db)
  {
  }

  lemma ReinvestigateEntries(db: Database, k: IncKey, expected: Option<Content>, mode: Mode)
    requires EntriesSound(db) && Reinvestigate(db, k, expected, mode).reply == Applied
    ensures EntriesSound(Reinvestigate(db, k, expected, mode).db)
  {
  }

  lemma ReleaseEntries(db: Database, id: nat, order: seq<IncKey>)
    requires id < |db.outbox| && AdmissionTopic(db.outbox[id].topic) && forall k | k in order :: k in db.incidents
    requires EntriesSound(db) && Release(db, id, order).reply == Applied
    ensures EntriesSound(Release(db, id, order).db)
  {
  }

  lemma OtherEntries(policies: Policies, w: World, step: Action)
    requires EntriesSound(w.db) && NextDatabase(policies, w, step).reply == Applied
    requires step.OnboardAction? || step.ReviseAction? || step.RefreshAction? || step.PublishAction?
        || step.AdmitAction?
    ensures EntriesSound(NextDatabase(policies, w, step).db)
  {
  }

  lemma NextEntries(policies: Policies, w: World, step: Action)
    requires EntriesSound(w.db) && NextDatabase(policies, w, step).reply == Applied
    ensures EntriesSound(NextDatabase(policies, w, step).db)
  {
    match step
    case CommitAction(t) => CommitEntries(policies, w.db, t);
    case DecideAction(k, plan, decision, now) => DecideEntries(policies, w.db, k, plan, decision, None, now);
    case AuthorizeAction(id, now) =>
      var e := w.db.outbox[id];
      DecideEntries(policies, w.db, KeyOf(e), ResolutionOf(e.refs[0]).plan.value, Approve, Some(id), now);
    case ReinvestigateAction(k, expected, mode) => ReinvestigateEntries(w.db, k, expected, mode);
    case ReleaseAction(id, order) => ReleaseEntries(w.db, id, order);
    case _ => OtherEntries(policies, w, step);
  }

  /** Whatever is found in the store of any run passed the checks of its entry. */
  lemma {:induction false} RunEntries(policies: Policies, steps: seq<Action>)
    ensures EntriesSound(Run(policies, steps).db)
  {
    if steps != [] {
      var before, step := steps[..|steps| - 1], steps[|steps| - 1];
      RunNext(policies, steps);
      RunEntries(policies, before);
      if !Transactional(step) {
        OutsideKeepsDatabase(policies, Run(policies, before), step);
      } else if NextDatabase(policies, Run(policies, before), step).reply == Applied {
        NextEntries(policies, Run(policies, before), step);
      } else {
        OnlyAppliedWrites(policies, Run(policies, before), step);
      }
    }
  }
}
