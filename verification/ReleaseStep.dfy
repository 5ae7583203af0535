/**
 Recording a baseline lets every waiting incident of its application go on at once.
*/
module ReleaseStep {
  import opened Model
  import opened Transactions
  import opened Invariants
  import opened Moves
  import opened IncidentSteps

  /** `db'` is `db` after `release` applied event `id` to the incidents in `order`. */
  ghost predicate ReleasesTo(db: Database, db': Database, id: nat, order: seq<IncKey>) {
    && id < |db.outbox| && AdmissionTopic(db.outbox[id].topic) && |db.outbox[id].refs| == 1
    && var e := db.outbox[id];
    && Enumerates(order, db, e.app)
    && db'.apps == db.apps
    && db'.baselines == db.baselines[e.app := Baseline(ExpectedAppState(e.topic), e.refs[0])]
    && (forall k :: k in db'.incidents <==> k in db.incidents)
    && (forall k | k in db.incidents && k !in order :: db'.incidents[k] == db.incidents[k])
    && (forall k | k in order ::
          db'.incidents[k] ==
            db.incidents[k].(state := if e.topic == ReadyTopic then CollectionQueued else BlockedByContext))
    && db'.inbox == db.inbox + {(AdmissionWorker, id)}
    && |db'.outbox| == |db.outbox| + (if e.topic == ReadyTopic then |order| else 0)
    && db.outbox <= db'.outbox
    && (forall j | |db.outbox| <= j < |db'.outbox| ::
          && var k := order[j - |db.outbox|];
          && k in db.incidents
          && db'.outbox[j] == Emit(k, db.incidents[k], CollectionTopic, e.refs[0], Some(id)))
    && db'.artifacts == db.artifacts && db'.published == db.published && db'.runs == db.runs
    && db'.approvals == db.approvals && db'.revisions == db.revisions
  }

  lemma ReleaseMoves(policies: Policies, db: Database, id: nat, order: seq<IncKey>) returns (db': Database)
    requires id < |db.outbox| && AdmissionTopic(db.outbox[id].topic) && Enumerates(order, db, db.outbox[id].app)
    requires db.outbox[id].app in db.apps ==> AppOk(db, db.outbox[id].app)
    requires WellFormedEvent(db, db.outbox[id])
    requires Release(db, id, order).reply == Applied
    ensures db' == Release(db, id, order).db
    ensures Current(db, db.outbox[id].app, id) && db.outbox[id].app !in db.baselines
    ensures db.apps[db.outbox[id].app].state == ExpectedAppState(db.outbox[id].topic)
    ensures db.outbox[id].refs[0].Context?
    ensures BaselineReady(db.outbox[id].refs[0]) == (db.outbox[id].topic == ReadyTopic)
    ensures (db.outbox[id].app, db.outbox[id].refs[0]) in db.artifacts
    ensures ReleasesTo(db, db', id, order)
  {
    NotificationCurrent(db, id);
    db' := ReleaseShape(db, id, order);
  }

  /** A notification that passes the checks is the pending one of the present version. */
  lemma NotificationCurrent(db: Database, id: nat)
    requires id < |db.outbox| && AdmissionTopic(db.outbox[id].topic) && ReleaseCheck(db, id) == Applied
    requires db.outbox[id].app in db.apps ==> AppOk(db, db.outbox[id].app)
    ensures Current(db, db.outbox[id].app, id) && db.outbox[id].app !in db.baselines
    ensures db.apps[db.outbox[id].app].state == ExpectedAppState(db.outbox[id].topic)
  {
    var a := db.outbox[id].app;
    assert Current(db, a, id);
    assert CurrentOk(db, a, db.outbox[id]);
  }

  lemma ReleaseShape(db: Database, id: nat, order: seq<IncKey>) returns (db': Database)
    requires id < |db.outbox| && AdmissionTopic(db.outbox[id].topic) && Enumerates(order, db, db.outbox[id].app)
    requires Release(db, id, order).reply == Applied && db.outbox[id].app !in db.baselines
    ensures db' == Release(db, id, order).db && ReleasesTo(db, db', id, order)
  {
    db' := Release(db, id, order).db;
    forall p | 0 <= p < |order| ensures order[p] in db.incidents {
      assert order[p] in order;
    }
  }

  lemma ReleaseExtends(db: Database, db': Database, id: nat, order: seq<IncKey>)
    requires ReleasesTo(db, db', id, order)
    ensures Extends(db, db')
  {
  }

  lemma ReleaseApps(db: Database, db': Database, id: nat, order: seq<IncKey>, a: AppId)
    requires ReleasesTo(db, db', id, order) && a in db.apps && AppOk(db, a)
    requires a == db.outbox[id].app ==> Current(db, a, id)
    requires a == db.outbox[id].app ==> db.apps[a].state == ExpectedAppState(db.outbox[id].topic)
                                        && db.outbox[id].refs[0].Context?
                                        && BaselineReady(db.outbox[id].refs[0]) == (db.outbox[id].topic == ReadyTopic)
                                        && (a, db.outbox[id].refs[0]) in db.artifacts
    ensures AppOk(db', a)
  {
    ReleaseExtends(db, db', id, order);
    if a != db.outbox[id].app {
      assert SameApp(db, db', a);
      FrameApp(db, db', a);
    } else {
      forall i | PendingAppEvent(db', a, i) ensures PendingAppEvent(db, a, i) && i != id {
      }
    }
  }

  lemma ReleaseOther(policies: Policies, db: Database, db': Database, id: nat, order: seq<IncKey>, k: IncKey)
    requires ReleasesTo(db, db', id, order) && db.outbox[id].app !in db.baselines
    requires k in db.incidents && k !in order && IncidentOk(policies, db, k)
    ensures k in db'.incidents && IncidentOk(policies, db', k)
  {
    ReleaseExtends(db, db', id, order);
    ReleaseSame(db, db', id, order, k);
    FrameIncident(policies, db, db', k);
  }

  lemma ReleaseSame(db: Database, db': Database, id: nat, order: seq<IncKey>, k: IncKey)
    requires ReleasesTo(db, db', id, order) && db.outbox[id].app !in db.baselines
    requires k in db.incidents && k !in order && ScopeOk(db, k) && StageOk(db, k)
    ensures SameIncident(db, db', k)
  {
    forall i | |db.outbox| <= i < |db'.outbox| && db'.outbox[i].incident.Some? ensures KeyOf(db'.outbox[i]) != k {
      assert order[i - |db.outbox|] in order;
    }
  }

  lemma WaitingHasNoEvent(db: Database, k: IncKey)
    requires k in db.incidents && StageOk(db, k) && db.incidents[k].state == WaitingForContext
    ensures forall i :: !StageEvent(db, k, i)
  {
    forall i ensures !StageEvent(db, k, i) {
    }
  }

  /** A released incident has the one collection request sent for it. */
  lemma ReleasedStage(db: Database, db': Database, id: nat, order: seq<IncKey>, k: IncKey)
    requires ReleasesTo(db, db', id, order) && k in order && k in db.incidents && StageOk(db, k)
    requires db.incidents[k].result.None? && WellFormedRows(db)
    requires BaselineReady(db.outbox[id].refs[0]) == (db.outbox[id].topic == ReadyTopic)
    ensures StageOk(db', k)
  {
    var n := |db.outbox|;
    WaitingHasNoEvent(db, k);
    forall i | StageEvent(db', k, i) ensures n <= i && order[i - n] == k && AtStage(db', k, db'.outbox[i]) {
      ReleasedEventAt(db, db', id, order, k, i);
    }
    if db.outbox[id].topic == ReadyTopic {
      var p :| 0 <= p < |order| && order[p] == k;
      RequestIsLive(db, db', id, order, p);
    }
  }

  /** Any stage event of the incident is the request sent for it, and finds its row. */
  lemma ReleasedEventAt(db: Database, db': Database, id: nat, order: seq<IncKey>, k: IncKey, i: int)
    requires ReleasesTo(db, db', id, order) && k in order && k in db.incidents && db.incidents[k].result.None?
    requires BaselineReady(db.outbox[id].refs[0]) == (db.outbox[id].topic == ReadyTopic)
    requires StageEvent(db', k, i) && !StageEvent(db, k, i)
    ensures |db.outbox| <= i && order[i - |db.outbox|] == k && AtStage(db', k, db'.outbox[i])
  {
  }

  lemma RequestIsLive(db: Database, db': Database, id: nat, order: seq<IncKey>, p: nat)
    requires ReleasesTo(db, db', id, order) && WellFormedRows(db) && p < |order| && db.outbox[id].topic == ReadyTopic
    ensures StageEvent(db', order[p], |db.outbox| + p)
  {
    assert order[p] in order;
    assert db'.outbox[|db.outbox| + p].topic == CollectionTopic;
  }

  lemma ReleasedIncident(policies: Policies, db: Database, db': Database, id: nat, order: seq<IncKey>, k: IncKey)
    requires ReleasesTo(db, db', id, order) && WellFormedRows(db)
    requires k in order && k in db.incidents && IncidentOk(policies, db, k)
    requires BaselineReady(db.outbox[id].refs[0]) == (db.outbox[id].topic == ReadyTopic)
    ensures k in db'.incidents && IncidentOk(policies, db', k)
  {
    assert ScopeOk(db, k) && RowOk(policies, db, k);
    ReleasedStage(db, db', id, order, k);
    ReleasedEvents(db, db', id, order, k);
    ReleasedDecisions(policies, db, db', id, order, k);
  }

  lemma ReleasedEvents(db: Database, db': Database, id: nat, order: seq<IncKey>, k: IncKey)
    requires ReleasesTo(db, db', id, order) && k in order && k in db.incidents && LateEventsOk(db, k)
    requires db.incidents[k].state == WaitingForContext
    ensures LateEventsOk(db', k)
  {
    forall i, t | EventOf(db', k, t, i) ensures t == CollectionTopic || EventOf(db, k, t, i) {
    }
  }

  lemma ReleasedDecisions(policies: Policies, db: Database, db': Database, id: nat, order: seq<IncKey>, k: IncKey)
    requires ReleasesTo(db, db', id, order) && k in order && k in db.incidents
    requires DecisionsOk(db, k) && ScopeOk(db, k) && RowOk(policies, db, k)
    ensures DecisionsOk(db', k) && ScopeOk(db', k) && RowOk(policies, db', k)
  {
  }

  lemma ReleaseStructure(db: Database, db': Database, id: nat, order: seq<IncKey>)
    requires ReleasesTo(db, db', id, order) && WellFormedEvents(db) && WellFormedRows(db)
    requires forall k | k in order :: k in db.incidents && db.incidents[k].result.None?
    ensures WellFormedEvents(db') && WellFormedRows(db')
  {
    ReleaseExtends(db, db', id, order);
    assert WellFormedEvent(db, db.outbox[id]);
    forall i | |db.outbox| <= i < |db'.outbox| ensures WellFormedEvent(db', db'.outbox[i]) {
      var k := order[i - |db.outbox|];
      assert k in order;
      assert db.outbox[id].refs[0] in db.outbox[id].refs;
      EmitWellFormed(db', k, db.incidents[k], CollectionTopic, db.outbox[id].refs[0], Some(id));
    }
    FrameEvents(db, db');
  }

  lemma ReleaseInv(policies: Policies, db: Database, id: nat, order: seq<IncKey>) returns (db': Database)
    requires Inv(policies, db)
    requires id < |db.outbox| && AdmissionTopic(db.outbox[id].topic) && Enumerates(order, db, db.outbox[id].app)
    requires Release(db, id, order).reply == Applied
    ensures db' == Release(db, id, order).db && Lawful(policies, db, db')
  {
    assert WellFormedEvent(db, db.outbox[id]);
    assert AppOk(db, db.outbox[id].app);
    db' := ReleaseMoves(policies, db, id, order);
    ReleaseMovesInv(policies, db, db', id, order);
  }

  lemma ReleaseMovesInv(policies: Policies, db: Database, db': Database, id: nat, order: seq<IncKey>)
    requires Inv(policies, db) && ReleasesTo(db, db', id, order)
    requires Current(db, db.outbox[id].app, id) && db.outbox[id].app !in db.baselines
    requires db.apps[db.outbox[id].app].state == ExpectedAppState(db.outbox[id].topic)
    requires db.outbox[id].refs[0].Context?
    requires BaselineReady(db.outbox[id].refs[0]) == (db.outbox[id].topic == ReadyTopic)
    requires (db.outbox[id].app, db.outbox[id].refs[0]) in db.artifacts
    ensures Lawful(policies, db, db')
  {
    ReleaseExtends(db, db', id, order);
    WaitingWithoutResult(policies, db, id, order);
    ReleaseStructure(db, db', id, order);
    SameReruns(db, db');
    assert forall a {:trigger AppOk(db', a)} | a in db'.apps :: AppOk(db', a) by {
      forall a | a in db'.apps ensures AppOk(db', a) {
        assert AppOk(db, a);
        ReleaseApps(db, db', id, order, a);
      }
    }
    ReleaseIncidents(policies, db, db', id, order);
    ReleaseProgresses(db, db', id, order);
  }

  lemma WaitingWithoutResult(policies: Policies, db: Database, id: nat, order: seq<IncKey>)
    requires id < |db.outbox| && Enumerates(order, db, db.outbox[id].app)
    requires forall k {:trigger IncidentOk(policies, db, k)} | k in db.incidents :: IncidentOk(policies, db, k)
    ensures forall k | k in order :: k in db.incidents && db.incidents[k].result.None?
  {
    forall k | k in order ensures k in db.incidents && db.incidents[k].result.None? {
      assert IncidentOk(policies, db, k) && RowOk(policies, db, k);
    }
  }

  lemma ReleaseProgresses(db: Database, db': Database, id: nat, order: seq<IncKey>)
    requires ReleasesTo(db, db', id, order)
    ensures Progresses(db, db')
  {
  }

  lemma ReleaseIncidents(policies: Policies, db: Database, db': Database, id: nat, order: seq<IncKey>)
    requires ReleasesTo(db, db', id, order) && WellFormedRows(db) && db.outbox[id].app !in db.baselines
    requires forall k {:trigger IncidentOk(policies, db, k)} | k in db.incidents :: IncidentOk(policies, db, k)
    requires BaselineReady(db.outbox[id].refs[0]) == (db.outbox[id].topic == ReadyTopic)
    ensures forall k {:trigger IncidentOk(policies, db', k)} | k in db'.incidents :: IncidentOk(policies, db', k)
  {
    forall k | k in db'.incidents ensures IncidentOk(policies, db', k) {
      assert IncidentOk(policies, db, k);
      if k in order {
        ReleasedIncident(policies, db, db', id, order, k);
      } else {
        ReleaseOther(policies, db, db', id, order, k);
      }
    }
  }
}
