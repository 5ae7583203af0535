/**
 Whatever an incident waits for, its wait can end: from every world of a run in which an incident
 waits for context, a few steps of workers alone release it.
*/
module Wakeup {
  import opened Model
  import opened Transactions
  import opened Pipeline
  import opened Invariants
  import opened ReleaseStep
  import opened Reachable
  import opened Repairs
  import opened Safety
  import opened Deliveries
  import opened Unaffected
  import Handlers

  /** A step that workers take of their own accord. */
  predicate ByWorker(step: Action) {
    step.ReadAction? || step.ReadFailureAction? || step.CommitAction? || step.ReleaseAction?
  }

  predicate ByWorkers(steps: seq<Action>) {
    forall s | s in steps :: ByWorker(s)
  }

  ghost predicate Wakes(policies: Policies, steps: seq<Action>, more: seq<Action>, k: IncKey) {
    && |more| <= 3 && ByWorkers(more)
    && k in Run(policies, steps + more).db.incidents
    && Run(policies, steps + more).db.incidents[k].state != WaitingForContext
  }

  /** A pending notification of the present version is released, and the incident with it. */
  lemma ReleaseWakesOne(policies: Policies, steps: seq<Action>, k: IncKey, i: nat) returns (release: Action)
    requires k in Run(policies, steps).db.incidents && Current(Run(policies, steps).db, k.app, i)
    requires AdmissionTopic(Run(policies, steps).db.outbox[i].topic)
    ensures release.ReleaseAction?
    ensures var db' := Run(policies, steps + [release]).db;
            k in db'.incidents && db'.incidents[k].state != WaitingForContext
  {
    var db := Run(policies, steps).db;
    var order := WaitingOrder(db, k.app);
    release := ReleaseAction(i, order);
    AdmissionAcceptedIffCurrent(policies, steps, i);
    assert Release(db, i, order).reply == Applied;
    ReleaseWakesAll(policies, steps, i, order);
    RunThen(policies, steps, release);
  }

  /** A pending discovery or context event whose worker gives up is followed by a notification. */
  lemma GivingUpNotifies(policies: Policies, db: Database, a: AppId, i: nat, reason: string)
    requires Inv(policies, db) && Current(db, a, i) && !AdmissionTopic(db.outbox[i].topic)
    ensures var db' := CommitTask(policies, db, FailTask(i, SeenBy(db, i), reason)).db;
            && db'.incidents == db.incidents
            && a in db'.apps && db'.apps[a].state == ContextBlocked
  {
    assert WellFormedEvent(db, db.outbox[i]) && AppOk(db, a);
    var failed := AppCommit(ContextBlocked, BlockedTopic, Context(false, None, reason));
    Handlers.AppCommitWrites(db, a, i, failed);
    assert ChangeOf(policies, db, FailTask(i, SeenBy(db, i), reason)) == Ok(AppChange(failed));
  }

  lemma NotificationPends(policies: Policies, steps: seq<Action>, k: IncKey) returns (j: nat)
    requires InState(Run(policies, steps).db, k, WaitingForContext)
    requires k.app in Run(policies, steps).db.apps && Settled(Run(policies, steps).db.apps[k.app].state)
    ensures Current(Run(policies, steps).db, k.app, j) && AdmissionTopic(Run(policies, steps).db.outbox[j].topic)
  {
    NoLostWakeup(policies, steps, k);
    OnePendingOutcome(policies, steps, k.app);
    j :| Current(Run(policies, steps).db, k.app, j);
  }

  /** A pending discovery or context event comes to wake the incident: its worker gives up, records that, and the
      notification of it is released. */
  lemma GivingUpWakes(policies: Policies, steps: seq<Action>, k: IncKey, i: nat)
    requires InState(Run(policies, steps).db, k, WaitingForContext)
    requires Current(Run(policies, steps).db, k.app, i) && !AdmissionTopic(Run(policies, steps).db.outbox[i].topic)
    ensures exists more :: Wakes(policies, steps, more, k)
  {
    var db := Run(policies, steps).db;
    var failing := [ReadFailureAction(i, ""), CommitAction(FailTask(i, SeenBy(db, i), ""))];
    RunInv(policies, steps);
    GivingUp(policies, steps, i, "");
    GivingUpNotifies(policies, db, k.app, i, "");
    var j := NotificationPends(policies, steps + failing, k);
    var release := ReleaseWakesOne(policies, steps + failing, k, j);
    assert steps + failing + [release] == steps + (failing + [release]);
    assert Wakes(policies, steps, failing + [release], k);
  }

  /** Wherever an incident waits for context, at most three steps of workers release it. */
  lemma WaitCanEnd(policies: Policies, steps: seq<Action>, k: IncKey)
    requires InState(Run(policies, steps).db, k, WaitingForContext)
    ensures exists more :: Wakes(policies, steps, more, k)
  {
    NoLostWakeup(policies, steps, k);
    var i: nat :| Current(Run(policies, steps).db, k.app, i);
    if AdmissionTopic(Run(policies, steps).db.outbox[i].topic) {
      var release := ReleaseWakesOne(policies, steps, k, i);
      assert Wakes(policies, steps, [release], k);
    } else {
      GivingUpWakes(policies, steps, k, i);
    }
  }

  // ------------------------------------------------------------ the way on

  /** The pending event can still end in a ready context. */
  predicate Promising(e: Envelope) {
    || e.topic == DiscoveryTopic || e.topic == ReadyTopic
    || (e.topic == ContextTopic && |e.refs| == 1 && FullyCollected(e.refs[0]))
  }

  /** At most so many more steps, all of workers. */
  predicate GoesOn(steps: seq<Action>, longer: seq<Action>, n: nat) {
    && |steps| <= |longer| <= |steps| + n && longer[..|steps|] == steps
    && forall i | |steps| <= i < |longer| ::
         ByWorker(longer[i])
  }

  /** Workers' steps go on without touching an executor or an incident, and the event is pending after them. */
  ghost predicate LeadsTo(policies: Policies, steps: seq<Action>, longer: seq<Action>, a: AppId, i: nat) {
    && GoesOn(steps, longer, 4)
    && Run(policies, longer).targets == Run(policies, steps).targets
    && Run(policies, longer).db.incidents == Run(policies, steps).db.incidents
    && Current(Run(policies, longer).db, a, i)
  }

  /** What a commit for the application sends is its next pending event. */
  lemma AppStageMoves(policies: Policies, db: Database, a: AppId, t: Task)
    requires Inv(policies, db) && OnboardingId(db, t.id) && db.outbox[t.id].app == a
    requires CommitTask(policies, db, t).reply == Applied
    ensures Current(db, a, t.id) && ChangeOf(policies, db, t).Ok?
    ensures var db' := CommitTask(policies, db, t).db;
            var c := ChangeOf(policies, db, t).value.app;
            && db'.incidents == db.incidents && Current(db', a, |db.outbox|)
            && db'.outbox[|db.outbox|].topic == c.topic && db'.outbox[|db.outbox|].refs == [c.result]
  {
    CommitRecords(policies, db, t);
    assert WellFormedEvent(db, db.outbox[t.id]) && AppOk(db, a);
    assert PendingAppEvent(db, a, t.id);
  }

  /** The pending onboarding event is handled with an answer of its kind. */
  lemma OnboardingOn(policies: Policies, steps: seq<Action>, a: AppId, i: nat, answer: Answer)
      returns (longer: seq<Action>, j: nat)
    requires Current(Run(policies, steps).db, a, i) && OnboardingId(Run(policies, steps).db, i)
    requires AppAnswerFits(Run(policies, steps).db.outbox[i].topic, answer)
    ensures LeadsTo(policies, steps, longer, a, j) && GoesOn(steps, longer, 2)
    ensures var r := AppResult(Run(policies, steps).db.outbox[i], answer);
            var e := Run(policies, longer).db.outbox[j];
            r.Ok? && e.topic == r.value.topic && e.refs == [r.value.result]
  {
    var db := Run(policies, steps).db;
    RunInv(policies, steps);
    OnboardingNeverWedged(policies, steps, i, None, "");
    AppStageMoves(policies, db, a, StageTask(i, answer));
    longer := Handling(policies, steps, i, answer);
    j := |db.outbox|;
  }

  const COMPLETE: Content := Manifest([DocumentSource(true, Collected)], ["document"])

  /** From discovery or a complete manifest the application comes to a ready context. */
  lemma ReadyComes(policies: Policies, steps: seq<Action>, a: AppId, i: nat) returns (longer: seq<Action>, j: nat)
    requires Current(Run(policies, steps).db, a, i) && Promising(Run(policies, steps).db.outbox[i])
    ensures LeadsTo(policies, steps, longer, a, j) && Run(policies, longer).db.outbox[j].topic == ReadyTopic
  {
    longer, j := steps, i;
    if Run(policies, steps).db.outbox[i].topic == DiscoveryTopic {
      longer, j := OnboardingOn(policies, longer, a, j, Discovered(COMPLETE));
    }
    if Run(policies, longer).db.outbox[j].topic == ContextTopic {
      longer, j := OnboardingOn(policies, longer, a, j, ContextPrepared);
    }
  }

  /** A pending ready notification queues the incident's collection. */
  lemma ReadyQueues(policies: Policies, steps: seq<Action>, k: IncKey, i: nat) returns (longer: seq<Action>)
    requires InState(Run(policies, steps).db, k, WaitingForContext)
    requires Current(Run(policies, steps).db, k.app, i) && Run(policies, steps).db.outbox[i].topic == ReadyTopic
    ensures GoesOn(steps, longer, 1) && Run(policies, longer).targets == Run(policies, steps).targets
    ensures k in Run(policies, longer).db.incidents
    ensures Run(policies, longer).db.incidents[k] == Run(policies, steps).db.incidents[k].(state := CollectionQueued)
  {
    var db := Run(policies, steps).db;
    var order := WaitingOrder(db, k.app);
    var release := ReleaseAction(i, order);
    AdmissionAcceptedIffCurrent(policies, steps, i);
    RunThen(policies, steps, release);
    longer := steps + [release];
  }

  /** While the pending event can still end in a ready context, at most
      five steps of workers bring a waiting incident to collection. */
  lemma WaitCanSucceed(policies: Policies, steps: seq<Action>, k: IncKey, i: nat) returns (longer: seq<Action>)
    requires InState(Run(policies, steps).db, k, WaitingForContext)
    requires Current(Run(policies, steps).db, k.app, i) && Promising(Run(policies, steps).db.outbox[i])
    ensures GoesOn(steps, longer, 5) && Run(policies, longer).targets == Run(policies, steps).targets
    ensures k in Run(policies, longer).db.incidents
    ensures Run(policies, longer).db.incidents[k] == Run(policies, steps).db.incidents[k].(state := CollectionQueued)
  {
    var ready, j := ReadyComes(policies, steps, k.app, i);
    longer := ReadyQueues(policies, ready, k, j);
  }

  // ------------------------------------------------------------ no way on

  /** An operator starts another round for the incident or its application. */
  predicate Restarts(step: Action, k: IncKey) {
    || (step.ReviseAction? && step.app == k.app)
    || (step.RefreshAction? && step.app == k.app)
    || (step.ReinvestigateAction? && step.key == k)
  }

  /** The incident is blocked, or waits for what can only block it. */
  ghost predicate Hopeless(db: Database, k: IncKey) {
    && k in db.incidents
    && (|| db.incidents[k].state == BlockedByContext
        || (db.incidents[k].state == WaitingForContext
            && exists i :: Current(db, k.app, i) && !Promising(db.outbox[i])))
  }

  lemma HopelessRefuses(policies: Policies, w: World, step: Action, k: IncKey)
    requires Inv(policies, w.db) && Hopeless(w.db, k) && About(w.db, step, k) && !step.ReinvestigateAction?
    ensures NextDatabase(policies, w, step).reply != Applied
  {
    if step.CommitAction? && NextDatabase(policies, w, step).reply == Applied {
      var id := step.task.id;
      CommitRecords(policies, w.db, step.task);
      assert WellFormedEvent(w.db, w.db.outbox[id]);
      assert IncidentOk(policies, w.db, k) && StageOk(w.db, k) && LateEventsOk(w.db, k);
      assert StageTopic(w.db.outbox[id].topic) ==> StageEvent(w.db, k, id);
      assert !StageTopic(w.db.outbox[id].topic) ==> EventOf(w.db, k, AuthorizationTopic, id);
    }
  }

  /** Where row, application and pending event stay, hope does not come. */
  lemma HopelessStill(db: Database, db': Database, k: IncKey, i: nat)
    requires k in db.incidents && db.incidents[k].state == WaitingForContext
    requires Current(db, k.app, i) && !Promising(db.outbox[i])
    requires k in db'.incidents && db'.incidents[k] == db.incidents[k] && db.outbox <= db'.outbox
    requires k.app in db'.apps && db'.apps[k.app] == db.apps[k.app] && Live(db', i)
    ensures Hopeless(db', k)
  {
    assert Current(db', k.app, i);
  }

  /** The pending event is handled, or its worker gives up: either way a blocking notification follows. */
  lemma HopelessHandled(policies: Policies, db: Database, k: IncKey, t: Task)
    requires Inv(policies, db) && Hopeless(db, k) && OnboardingId(db, t.id) && db.outbox[t.id].app == k.app
    requires CommitTask(policies, db, t).reply == Applied
    ensures Hopeless(CommitTask(policies, db, t).db, k)
  {
    AppStageMoves(policies, db, k.app, t);
    var db' := CommitTask(policies, db, t).db;
    assert AppOk(db, k.app);
    if db.incidents[k].state == WaitingForContext {
      var i :| Current(db, k.app, i) && !Promising(db.outbox[i]);
      assert WellFormedEvent(db, db.outbox[i]) && i == t.id;
      assert db'.outbox[|db.outbox|].topic == BlockedTopic;
      assert Current(db', k.app, |db.outbox|);
    }
  }

  lemma HopelessReleased(policies: Policies, db: Database, k: IncKey, id: nat, order: seq<IncKey>)
    requires Inv(policies, db) && Hopeless(db, k) && id < |db.outbox| && AdmissionTopic(db.outbox[id].topic)
    requires Enumerates(order, db, db.outbox[id].app) && Release(db, id, order).reply == Applied
    ensures Hopeless(Release(db, id, order).db, k)
  {
    var a := db.outbox[id].app;
    assert WellFormedEvent(db, db.outbox[id]) && AppOk(db, a);
    var db' := ReleaseMoves(policies, db, id, order);
    if db.incidents[k].state == WaitingForContext {
      var i: nat :| Current(db, k.app, i) && !Promising(db.outbox[i]);
      if k.app == a {
        BlockedByRelease(db, db', k, id, order, i);
      } else {
        ReleasedElsewhere(db, db', k, id, order, i);
      }
    } else {
      assert k !in order;
    }
  }

  lemma BlockedByRelease(db: Database, db': Database, k: IncKey, id: nat, order: seq<IncKey>, i: nat)
    requires ReleasesTo(db, db', id, order) && k in db.incidents && db.incidents[k].state == WaitingForContext
    requires db.outbox[id].app == k.app && k.app in db.apps && AppOk(db, k.app)
    requires Current(db, k.app, id) && Current(db, k.app, i) && !Promising(db.outbox[i])
    ensures Hopeless(db', k)
  {
    assert i == id && k in order;
  }

  lemma ReleasedElsewhere(db: Database, db': Database, k: IncKey, id: nat, order: seq<IncKey>, i: nat)
    requires ReleasesTo(db, db', id, order) && k in db.incidents && db.incidents[k].state == WaitingForContext
    requires db.outbox[id].app != k.app && Current(db, k.app, i) && !Promising(db.outbox[i])
    ensures Hopeless(db', k)
  {
    assert k !in order;
    HopelessStill(db, db', k, i);
  }

  lemma CommitUntouched(policies: Policies, db: Database, t: Task, a: AppId)
    requires CommitTask(policies, db, t).reply == Applied
    requires OnboardingId(db, t.id) ==> db.outbox[t.id].app != a
    ensures var db' := CommitTask(policies, db, t).db;
            (a in db.apps <==> a in db'.apps) && (a in db.apps ==> db'.apps[a] == db.apps[a])
  {
    var e := db.outbox[t.id];
    match ChangeOf(policies, db, t).value
    case AppChange(c) =>
    case IncChange(c) => CompleteBeside(db, t.id, ExpectedState(e.topic), c.next, c.result, c.topic);
  }

  lemma AppUntouched(policies: Policies, w: World, step: Action, k: IncKey)
    requires NextDatabase(policies, w, step).reply == Applied && !Restarts(step, k) && k.app in w.db.apps
    requires step.CommitAction? && OnboardingId(w.db, step.task.id) ==> w.db.outbox[step.task.id].app != k.app
    ensures k.app in NextDatabase(policies, w, step).db.apps
    ensures NextDatabase(policies, w, step).db.apps[k.app] == w.db.apps[k.app]
  {
    if step.CommitAction? {
      CommitUntouched(policies, w.db, step.task, k.app);
    }
  }

  lemma StepHopeless(policies: Policies, w: World, step: Action, k: IncKey)
    requires WorldInv(policies, w) && Hopeless(w.db, k) && !Restarts(step, k)
    requires NextDatabase(policies, w, step).reply == Applied && !About(w.db, step, k)
    requires Extends(w.db, NextDatabase(policies, w, step).db)
    ensures Hopeless(NextDatabase(policies, w, step).db, k)
  {
    if step.ReleaseAction? {
      HopelessReleased(policies, w.db, k, step.id, step.order);
    } else if step.CommitAction? && OnboardingId(w.db, step.task.id) && w.db.outbox[step.task.id].app == k.app {
      HopelessHandled(policies, w.db, k, step.task);
    } else {
      ElsewhereHopeless(policies, w, step, k);
    }
  }

  /** What neither releases an incident nor handles an event of the application. */
  lemma ElsewhereHopeless(policies: Policies, w: World, step: Action, k: IncKey)
    requires Inv(policies, w.db) && Hopeless(w.db, k) && !Restarts(step, k) && !step.ReleaseAction?
    requires step.CommitAction? && OnboardingId(w.db, step.task.id) ==> w.db.outbox[step.task.id].app != k.app
    requires NextDatabase(policies, w, step).reply == Applied && !About(w.db, step, k)
    requires Extends(w.db, NextDatabase(policies, w, step).db)
    ensures Hopeless(NextDatabase(policies, w, step).db, k)
  {
    NextNoNews(policies, w, step, k);
    if w.db.incidents[k].state == WaitingForContext {
      var i: nat :| Current(w.db, k.app, i) && !Promising(w.db.outbox[i]);
      AppUntouched(policies, w, step, k);
      NextInbox(policies, w, step);
      HopelessStill(w.db, NextDatabase(policies, w, step).db, k, i);
    }
  }

  lemma {:induction false} HopelessForever(policies: Policies, steps: seq<Action>, more: seq<Action>, k: IncKey)
    requires Hopeless(Run(policies, steps).db, k) && forall s | s in more :: !Restarts(s, k)
    ensures Hopeless(Run(policies, steps + more).db, k)
    decreases |more|
  {
    if more == [] {
      assert steps + more == steps;
    } else {
      var before, step := more[..|more| - 1], more[|more| - 1];
      HopelessForever(policies, steps, before, k);
      assert steps + more == (steps + before) + [step];
      RunThen(policies, steps + before, step);
      RunInv(policies, steps + before);
      NextHopeless(policies, Run(policies, steps + before), step, k);
    }
  }

  lemma NextHopeless(policies: Policies, w: World, step: Action, k: IncKey)
    requires WorldInv(policies, w) && Hopeless(w.db, k) && !Restarts(step, k)
    ensures Hopeless(Next(policies, w, step).db, k)
  {
    if !Transactional(step) {
      OutsideKeepsDatabase(policies, w, step);
    } else if NextDatabase(policies, w, step).reply != Applied {
      OnlyAppliedWrites(policies, w, step);
    } else if About(w.db, step, k) {
      HopelessRefuses(policies, w, step, k);
    } else {
      NextInside(policies, w, step);
      StepHopeless(policies, w, step, k);
    }
  }

  /** Without an operator's new round the incident comes to collection after these steps. */
  ghost predicate Collects(policies: Policies, steps: seq<Action>, more: seq<Action>, k: IncKey) {
    && (forall s | s in more :: !Restarts(s, k))
    && k in Run(policies, steps + more).db.incidents
    && Run(policies, steps + more).db.incidents[k].state == CollectionQueued
  }

  /** A waiting incident can come to collection without an operator exactly if its pending event can still end in
      a ready context: it is the discovery's, a ready notification, or carries a complete manifest. */
  lemma WaitSucceedsIff(policies: Policies, steps: seq<Action>, k: IncKey, i: nat)
    requires InState(Run(policies, steps).db, k, WaitingForContext)
    requires Current(Run(policies, steps).db, k.app, i)
    ensures (exists more :: Collects(policies, steps, more, k)) <==> Promising(Run(policies, steps).db.outbox[i])
  {
    if Promising(Run(policies, steps).db.outbox[i]) {
      var longer := WaitCanSucceed(policies, steps, k, i);
      assert steps + longer[|steps|..] == longer;
      assert Collects(policies, steps, longer[|steps|..], k);
    } else {
      forall more ensures !Collects(policies, steps, more, k) {
        HopelessNeverCollects(policies, steps, more, k);
      }
    }
  }

  lemma HopelessNeverCollects(policies: Policies, steps: seq<Action>, more: seq<Action>, k: IncKey)
    requires Hopeless(Run(policies, steps).db, k)
    ensures !Collects(policies, steps, more, k)
  {
    if forall s | s in more :: !Restarts(s, k) {
      HopelessForever(policies, steps, more, k);
    }
  }
}
