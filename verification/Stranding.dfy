/**
 A document refresh issued while a context notification is published but not yet consumed makes that
 notification stale. It is never applied, and it is never consumed either: from then on no revision
 of the registration is accepted.
*/
module Stranding {
  import opened Model
  import opened Transactions
  import opened Pipeline
  import opened Invariants
  import opened Reachable
  import opened Repairs
  import opened Deliveries

  /** A pending event of the application that is not of its present version. */
  predicate Stale(db: Database, a: AppId, i: int) {
    a in db.apps && PendingAppEvent(db, a, i) && !Current(db, a, i)
  }

  ghost predicate Stranded(db: Database, a: AppId) {
    exists i :: Stale(db, a, i)
  }

  /** A stale event is a context notification of an earlier version. */
  lemma StaleIsPast(policies: Policies, db: Database, a: AppId, i: int)
    requires Inv(policies, db) && Stale(db, a, i)
    ensures AdmissionTopic(db.outbox[i].topic) && db.outbox[i].version.Some?
        && db.outbox[i].version.value < db.apps[a].version
  {
    assert AppOk(db, a);
    assert WellFormedEvent(db, db.outbox[i]);
  }

  /** Only its own release consumes a context notification. */
  lemma NotificationKept(policies: Policies, w: World, step: Action, i: nat)
    requires i < |w.db.outbox| && AdmissionTopic(w.db.outbox[i].topic) && Live(w.db, i)
    requires step.ReleaseAction? && step.id == i ==> NextDatabase(policies, w, step).reply != Applied
    requires w.db.outbox <= NextDatabase(policies, w, step).db.outbox
    ensures Live(NextDatabase(policies, w, step).db, i)
  {
    NextInbox(policies, w, step);
    if step.CommitAction? && NextDatabase(policies, w, step).reply == Applied {
      CommitRecords(policies, w.db, step.task);
    }
  }

  lemma StaleStays(policies: Policies, w: World, step: Action, a: AppId, i: nat)
    requires WorldInv(policies, w) && Stale(w.db, a, i)
    ensures Stale(Next(policies, w, step).db, a, i)
  {
    var db' := Next(policies, w, step).db;
    StaleIsPast(policies, w.db, a, i);
    NextInside(policies, w, step);
    if Transactional(step) {
      NotificationKept(policies, w, step, i);
    } else {
      OutsideKeepsDatabase(policies, w, step);
    }
  }

  lemma {:induction false} StaleForever(policies: Policies, steps: seq<Action>, n: nat, a: AppId, i: nat)
    requires n <= |steps| && Stale(Run(policies, steps[..n]).db, a, i)
    ensures Stale(Run(policies, steps).db, a, i)
  {
    if n == |steps| {
      assert steps[..n] == steps;
    } else {
      var before := steps[..|steps| - 1];
      RunNext(policies, steps);
      assert before[..n] == steps[..n];
      StaleForever(policies, before, n, a, i);
      RunInv(policies, before);
      StaleStays(policies, Run(policies, before), steps[|steps| - 1], a, i);
    }
  }

  /** Once an application is stranded, no later revision of it is ever applied. */
  lemma StrandedForever(policies: Policies, steps: seq<Action>, n: nat, a: AppId, version: nat, config: Config)
    requires n <= |steps| && Stranded(Run(policies, steps[..n]).db, a)
    ensures Stranded(Run(policies, steps).db, a)
    ensures Revise(Run(policies, steps).db, a, version, config).reply != Applied
  {
    var i :| Stale(Run(policies, steps[..n]).db, a, i);
    StaleForever(policies, steps, n, a, i);
    assert PendingAppEvent(Run(policies, steps).db, a, i);
  }

  /** A stale notification is refused as invalid whenever it is delivered. */
  lemma StaleIsRefused(policies: Policies, steps: seq<Action>, a: AppId, i: nat)
    requires Stale(Run(policies, steps).db, a, i)
    ensures var db := Run(policies, steps).db;
            AdmissionTopic(db.outbox[i].topic) && ReleaseCheck(db, i) == Refused(Invalid)
  {
    var db := Run(policies, steps).db;
    RunInv(policies, steps);
    StaleIsPast(policies, db, a, i);
    assert WellFormedEvent(db, db.outbox[i]);
    assert db.outbox[i].refs[0] in db.outbox[i].refs;
  }

  /** A refresh strands its application exactly when it finds no
      baseline recorded: a caller can look before refreshing. */
  lemma RefreshStrandsIff(policies: Policies, steps: seq<Action>, a: AppId)
    requires Refresh(Run(policies, steps).db, a).reply == Applied
    ensures var db := Run(policies, steps).db;
            Stranded(Refresh(db, a).db, a) <==> Stranded(db, a) || a !in db.baselines
  {
    RunInv(policies, steps);
    RefreshStrands(policies, Run(policies, steps).db, a);
  }

  lemma RefreshStrands(policies: Policies, db: Database, a: AppId)
    requires Inv(policies, db) && Refresh(db, a).reply == Applied
    ensures Stranded(Refresh(db, a).db, a) <==> Stranded(db, a) || a !in db.baselines
  {
    var db' := Refresh(db, a).db;
    assert AppOk(db, a);
    if Stranded(db, a) {
      var i :| Stale(db, a, i);
      StaleIsPast(policies, db, a, i);
      assert Stale(db', a, i);
    } else if a !in db.baselines {
      var i :| Current(db, a, i);
      assert WellFormedEvent(db, db.outbox[i]);
      assert Stale(db', a, i);
    } else {
      forall i ensures !Stale(db', a, i) {
        assert !Stale(db, a, i) && !Current(db, a, i);
      }
    }
  }

  /** A settled application with no active incident and a different registration can be revised exactly when its
      baseline is recorded and no refresh has stranded it. */
  lemma RevisableIff(policies: Policies, steps: seq<Action>, a: AppId, config: Config)
    requires a in Run(policies, steps).db.apps && Settled(Run(policies, steps).db.apps[a].state)
    requires Run(policies, steps).db.apps[a].config != config && !HasIncidentIn(Run(policies, steps).db, a, ACTIVE)
    ensures var db := Run(policies, steps).db;
            Revise(db, a, db.apps[a].version, config).reply == Applied <==> a in db.baselines && !Stranded(db, a)
  {
    var db := Run(policies, steps).db;
    RunInv(policies, steps);
    assert AppOk(db, a);
    if a in db.baselines && !Stranded(db, a) {
      forall i ensures !PendingAppEvent(db, a, i) {
        assert !Stale(db, a, i);
      }
    } else if a !in db.baselines {
      var i :| Current(db, a, i);
      assert PendingAppEvent(db, a, i);
    } else {
      var i :| Stale(db, a, i);
      assert PendingAppEvent(db, a, i);
    }
  }

  // ------------------------------------------------------------- an example

  const REASON: string := "unreadable"

  function FailedDiscovery(a: AppId, config: Config): seq<Action> {
    [OnboardAction(a, config), ReadFailureAction(0, REASON), CommitAction(FailTask(0, None, REASON))]
  }

  lemma DiscoveryGivenUp(policies: Policies, a: AppId, config: Config)
    requires a.tenant != "" && a.application != ""
    ensures var w := Run(policies, [OnboardAction(a, config), ReadFailureAction(0, REASON)]);
            && FailTask(0, None, REASON) in w.tasks
            && w.db == EMPTY.(apps := map[a := Application(config, DiscoveryQueued, 1)],
                              outbox := [AppEvent(a, DiscoveryTopic, [], None, None)])
  {
    var s1 := OnboardAction(a, config);
    RunThen(policies, [], s1);
    RunThen(policies, [s1], ReadFailureAction(0, REASON));
    assert [] + [s1] == [s1];
    assert [s1] + [ReadFailureAction(0, REASON)] == [s1, ReadFailureAction(0, REASON)];
  }

  lemma DiscoveryFails(policies: Policies, a: AppId, config: Config)
    requires a.tenant != "" && a.application != ""
    ensures var db := Run(policies, FailedDiscovery(a, config)).db;
            && a in db.apps && db.apps[a].state == ContextBlocked
            && db.incidents == map[] && db.baselines == map[]
            && |db.outbox| == 2
  {
    var begun := [OnboardAction(a, config), ReadFailureAction(0, REASON)];
    var task := FailTask(0, None, REASON);
    DiscoveryGivenUp(policies, a, config);
    assert begun + [CommitAction(task)] == FailedDiscovery(a, config);
    RunThen(policies, begun, CommitAction(task));
    var db := Run(policies, begun).db;
    assert db.outbox[0] == AppEvent(a, DiscoveryTopic, [], None, None);
    assert CommitTask(policies, db, task).reply == Applied;
  }

  lemma PublishedThenRefreshed(policies: Policies, a: AppId, config: Config, steps: seq<Action>)
    requires a.tenant != "" && a.application != "" && steps == FailedDiscovery(a, config)
    ensures Refresh(Run(policies, steps + [PublishAction({0, 1})]).db, a).reply == Applied
    ensures a !in Run(policies, steps + [PublishAction({0, 1})]).db.baselines
  {
    DiscoveryFails(policies, a, config);
    RunThen(policies, steps, PublishAction({0, 1}));
    assert Run(policies, steps + [PublishAction({0, 1})]).db.published >= {0, 1};
  }

  /** Onboard, fail discovery, publish, refresh: five steps are enough. */
  lemma RefreshCanStrand(policies: Policies, a: AppId, config: Config)
    requires a.tenant != "" && a.application != ""
    ensures Stranded(Run(policies, FailedDiscovery(a, config) + [PublishAction({0, 1})] + [RefreshAction(a)]).db, a)
  {
    var steps := FailedDiscovery(a, config) + [PublishAction({0, 1})];
    PublishedThenRefreshed(policies, a, config, FailedDiscovery(a, config));
    RunThen(policies, steps, RefreshAction(a));
    RefreshStrandsIff(policies, steps, a);
  }
}
