/**
 Which steps are about an incident, and that no other step is news to it.
*/
module Unaffected {
  import opened Model
  import opened Transactions
  import opened Pipeline
  import opened Invariants
  import opened ReleaseStep

  /** Nothing happened to the incident. */
  ghost predicate NoNews(db: Database, db': Database, k: IncKey) {
    && k in db.incidents && k in db'.incidents && db'.incidents[k] == db.incidents[k]
    && (forall i | |db.outbox| <= i < |db'.outbox| && db'.outbox[i].incident.Some? :: KeyOf(db'.outbox[i]) != k)
  }

  /** The step's transaction is about the incident itself. */
  predicate About(db: Database, step: Action, k: IncKey) {
    match step
    case CommitAction(t) => t.id < |db.outbox| && db.outbox[t.id].incident.Some? && KeyOf(db.outbox[t.id]) == k
    case ReinvestigateAction(other, _, _) => other == k
    case DecideAction(other, _, _, _) => other == k
    case AuthorizeAction(id, _) => id < |db.outbox| && db.outbox[id].incident.Some? && KeyOf(db.outbox[id]) == k
    case _ => false
  }

  lemma CompleteNoNews(db: Database, id: nat, expected: IncState, next: IncState, result: Content,
                       topic: Option<Topic>, k: IncKey)
    requires id < |db.outbox| && db.outbox[id].incident.Some? && KeyOf(db.outbox[id]) != k && k in db.incidents
    ensures NoNews(db, Complete(db, id, expected, next, result, topic).db, k)
  {
  }

  lemma CompleteAppNoNews(db: Database, id: nat, expected: AppState, next: AppState, topic: Topic, result: Content,
                          k: IncKey)
    requires id < |db.outbox| && k in db.incidents
    ensures NoNews(db, CompleteApp(db, id, expected, next, topic, result).db, k)
  {
  }

  /** A commit for another incident, or for an application, is no news. */
  lemma CommitNoNews(policies: Policies, db: Database, t: Task, k: IncKey)
    requires k in db.incidents && CommitTask(policies, db, t).reply == Applied
    requires t.id < |db.outbox| && db.outbox[t.id].incident.Some? ==> KeyOf(db.outbox[t.id]) != k
    ensures NoNews(db, CommitTask(policies, db, t).db, k)
  {
    var e := db.outbox[t.id];
    match ChangeOf(policies, db, t).value
    case AppChange(c) => CompleteAppNoNews(db, t.id, ExpectedAppState(e.topic), c.next, c.topic, c.result, k);
    case IncChange(c) => CompleteNoNews(db, t.id, ExpectedState(e.topic), c.next, c.result, c.topic, k);
  }

  lemma ReinvestigateNoNews(db: Database, other: IncKey, expected: Option<Content>, mode: Mode, k: IncKey)
    requires k in db.incidents && k != other
    ensures NoNews(db, Reinvestigate(db, other, expected, mode).db, k)
  {
  }

  lemma DecideNoNews(policies: Policies, db: Database, other: IncKey, plan: Plan, decision: Decision,
                     event: Option<nat>, now: Instant, k: IncKey)
    requires event.Some? ==> event.value < |db.outbox| && db.outbox[event.value].topic == AuthorizationTopic
    requires k in db.incidents && k != other
    ensures NoNews(db, Decide(policies, db, other, plan, decision, event, now).db, k)
  {
  }

  lemma ReleaseNoNews(policies: Policies, db: Database, id: nat, order: seq<IncKey>, k: IncKey)
    requires Inv(policies, db) && k in db.incidents && db.incidents[k].state != WaitingForContext
    requires id < |db.outbox| && AdmissionTopic(db.outbox[id].topic) && Enumerates(order, db, db.outbox[id].app)
    requires Release(db, id, order).reply == Applied
    ensures NoNews(db, Release(db, id, order).db, k)
  {
    assert WellFormedEvent(db, db.outbox[id]);
    assert AppOk(db, db.outbox[id].app);
    var db' := ReleaseMoves(policies, db, id, order);
    forall i | |db.outbox| <= i < |db'.outbox| && db'.outbox[i].incident.Some? ensures KeyOf(db'.outbox[i]) != k {
      assert order[i - |db.outbox|] in order;
    }
  }

  /** Registration, admission and publication are no news to an incident already admitted. */
  lemma OthersNoNews(policies: Policies, w: World, step: Action, k: IncKey)
    requires k in w.db.incidents
    requires step.OnboardAction? || step.ReviseAction? || step.RefreshAction? || step.PublishAction?
        || step.AdmitAction?
    ensures NoNews(w.db, NextDatabase(policies, w, step).db, k)
  {
    if step.AdmitAction? {
      AdmitNoNews(w.db, step.key, step.request, step.now, k);
    }
  }

  lemma AdmitNoNews(db: Database, other: IncKey, request: Request, now: Instant, k: IncKey)
    requires k in db.incidents
    ensures NoNews(db, Admit(db, other, request, now).db, k)
  {
  }

  /** Whatever is not about an incident is no news to it, unless a release finds it waiting. */
  lemma NextNoNews(policies: Policies, w: World, step: Action, k: IncKey)
    requires Inv(policies, w.db) && k in w.db.incidents
    requires step.ReleaseAction? ==> w.db.incidents[k].state != WaitingForContext
    requires NextDatabase(policies, w, step).reply == Applied && !About(w.db, step, k)
    ensures NoNews(w.db, NextDatabase(policies, w, step).db, k)
  {
    match step
    case CommitAction(t) => CommitNoNews(policies, w.db, t, k);
    case ReinvestigateAction(other, expected, mode) => ReinvestigateNoNews(w.db, other, expected, mode, k);
    case DecideAction(other, plan, decision, now) => DecideNoNews(policies, w.db, other, plan, decision, None, now, k);
    case AuthorizeAction(id, now) =>
      DecideNoNews(policies, w.db, KeyOf(w.db.outbox[id]), ResolutionOf(w.db.outbox[id].refs[0]).plan.value, Approve,
                   Some(id), now, k);
    case ReleaseAction(id, order) => ReleaseNoNews(policies, w.db, id, order, k);
    case _ => OthersNoNews(policies, w, step, k);
  }
}
