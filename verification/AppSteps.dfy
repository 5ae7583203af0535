/**
 Every transaction on one application keeps the invariant.
*/
module AppSteps {
  import opened Model
  import opened Transactions
  import opened Pipeline
  import opened Invariants
  import opened Moves

  /** `db'` is `db` after the row of `a` became `row`, one of its events was recorded, if any, and one was enqueued. */
  ghost predicate AppMovesTo(db: Database, db': Database, a: AppId, row: Application, consumed: Option<nat>,
                             sent: Envelope) {
    && (a in db.apps ==> db.apps[a].version < row.version)
    && db'.apps == db.apps[a := row] && db'.incidents == db.incidents
    && (db'.baselines == db.baselines || db'.baselines == db.baselines - {a})
    && a !in db'.baselines
    && db'.inbox == db.inbox + Mark(db, consumed)
    && db'.outbox == db.outbox + [sent]
    && db.artifacts <= db'.artifacts
    && db'.published == db.published && db'.runs == db.runs && db'.approvals == db.approvals
    && (forall r | r in db.revisions :: r in db'.revisions && db'.revisions[r] == db.revisions[r])
    && (consumed.Some? ==> PendingAppEvent(db, a, consumed.value))
    && sent.app == a && ApplicationTopic(sent.topic) && sent.incident.None?
  }

  /** What the enqueued event must be for the new row, and what may be pending besides. */
  ghost predicate Hands(db: Database, a: AppId, row: Application, consumed: Option<nat>, sent: Envelope) {
    && ApplicationTopic(sent.topic)
    && row.state == ExpectedAppState(sent.topic)
    && (sent.version.None? ==> sent.topic == DiscoveryTopic)
    && (sent.version.Some? ==> sent.version.value == row.version)
    && sent.previous.None?
    && (sent.topic == DiscoveryTopic || |sent.refs| == 1)
    && (AdmissionTopic(sent.topic) ==>
          sent.refs[0].Context? && BaselineReady(sent.refs[0]) == (sent.topic == ReadyTopic))
    && (sent.topic == ContextTopic ==> sent.refs[0].Manifest?)
    && (forall i | Current(db, a, i) :: consumed == Some(i) || AdmissionTopic(db.outbox[i].topic))
  }

  /** An event of an application is pending only if the application exists. */
  ghost predicate NoStrangers(db: Database, a: AppId) {
    forall i | PendingAppEvent(db, a, i) :: WellFormedEvent(db, db.outbox[i])
  }

  lemma AppMovesExtends(db: Database, db': Database, a: AppId, row: Application, consumed: Option<nat>, sent: Envelope)
    requires AppMovesTo(db, db', a, row, consumed, sent)
    ensures Extends(db, db')
  {
  }

  lemma AppMovesApp(db: Database, db': Database, a: AppId, row: Application, consumed: Option<nat>, sent: Envelope)
    requires AppMovesTo(db, db', a, row, consumed, sent) && Hands(db, a, row, consumed, sent)
    requires a in db.apps ==> AppOk(db, a)
    requires NoStrangers(db, a) && WellFormedRows(db)
    ensures AppOk(db', a)
  {
    var n := |db.outbox|;
    assert Current(db', a, n);
    forall i | PendingAppEvent(db', a, i)
      ensures i == n || (PendingAppEvent(db, a, i) && !Current(db', a, i) && AdmissionTopic(db.outbox[i].topic))
    {
      if i < n {
        assert PendingAppEvent(db, a, i);
        assert WellFormedEvent(db, db.outbox[i]);
        assert Current(db, a, i) || AdmissionTopic(db.outbox[i].topic);
      }
    }
  }

  lemma AppMovesOthers(db: Database, db': Database, a: AppId, row: Application, consumed: Option<nat>, sent: Envelope,
                       other: AppId)
    requires AppMovesTo(db, db', a, row, consumed, sent)
    requires other in db.apps && other != a && AppOk(db, other)
    ensures other in db'.apps && AppOk(db', other)
  {
    AppMovesExtends(db, db', a, row, consumed, sent);
    assert SameApp(db, db', other);
    FrameApp(db, db', other);
  }

  /** The incidents of an application may see its baseline dropped only when none is queued, and its services
      changed only when none is active. */
  ghost predicate Undisturbed(db: Database, db': Database, a: AppId) {
    forall k | k in db.incidents && k.app == a ::
      && (Queued(db.incidents[k].state) ==> db'.baselines == db.baselines)
      && (Active(db.incidents[k].state) ==> a in db.apps && a in db'.apps && db'.apps[a].config == db.apps[a].config)
  }

  lemma AppMovesIncident(policies: Policies, db: Database, db': Database, a: AppId, row: Application,
                         consumed: Option<nat>, sent: Envelope, k: IncKey)
    requires AppMovesTo(db, db', a, row, consumed, sent) && Undisturbed(db, db', a)
    requires k in db.incidents && IncidentOk(policies, db, k)
    ensures IncidentOk(policies, db', k)
  {
    AppMovesExtends(db, db', a, row, consumed, sent);
    FrameIncident(policies, db, db', k);
  }

  lemma AppMovesInv(policies: Policies, db: Database, db': Database, a: AppId, row: Application, consumed: Option<nat>,
                    sent: Envelope)
    requires Inv(policies, db)
    requires AppMovesTo(db, db', a, row, consumed, sent) && Hands(db, a, row, consumed, sent) && Undisturbed(db, db', a)
    requires ArtifactsSound(db'.artifacts) && RefsStored(db', a, sent.refs)
    ensures Lawful(policies, db, db')
  {
    AppMovesExtends(db, db', a, row, consumed, sent);
    FrameEvents(db, db');
    SameReruns(db, db');
    assert a in db.apps ==> AppOk(db, a);
    forall i | PendingAppEvent(db, a, i) ensures WellFormedEvent(db, db.outbox[i]) {
    }
    AppMovesApp(db, db', a, row, consumed, sent);
    AppMovesAllApps(db, db', a, row, consumed, sent);
    AppMovesAllIncidents(policies, db, db', a, row, consumed, sent);
  }

  lemma AppMovesAllApps(db: Database, db': Database, a: AppId, row: Application, consumed: Option<nat>, sent: Envelope)
    requires AppMovesTo(db, db', a, row, consumed, sent) && a in db'.apps && AppOk(db', a)
    requires forall other {:trigger AppOk(db, other)} | other in db.apps :: AppOk(db, other)
    ensures forall other {:trigger AppOk(db', other)} | other in db'.apps :: AppOk(db', other)
  {
    forall other | other in db'.apps && other != a ensures AppOk(db', other) {
      AppMovesOthers(db, db', a, row, consumed, sent, other);
    }
  }

  lemma AppMovesAllIncidents(policies: Policies, db: Database, db': Database, a: AppId, row: Application,
                             consumed: Option<nat>, sent: Envelope)
    requires AppMovesTo(db, db', a, row, consumed, sent) && Undisturbed(db, db', a)
    requires forall k {:trigger IncidentOk(policies, db, k)} | k in db.incidents :: IncidentOk(policies, db, k)
    ensures forall k {:trigger IncidentOk(policies, db', k)} | k in db'.incidents :: IncidentOk(policies, db', k)
  {
    forall k | k in db'.incidents ensures IncidentOk(policies, db', k) {
      AppMovesIncident(policies, db, db', a, row, consumed, sent, k);
    }
  }

  // ------------------------------------------------------------ transactions

  lemma OnboardInv(policies: Policies, db: Database, a: AppId, config: Config)
    requires Inv(policies, db) && Onboard(db, a, config).reply == Applied
    ensures Lawful(policies, db, Onboard(db, a, config).db)
  {
    var db' := Onboard(db, a, config).db;
    assert db'.artifacts == db.artifacts;
    assert AppMovesTo(db, db', a, db'.apps[a], None, AppEvent(a, DiscoveryTopic, [], None, None));
    AppMovesInv(policies, db, db', a, db'.apps[a], None, AppEvent(a, DiscoveryTopic, [], None, None));
  }

  /** The pending event of an application outside its settled states is its only one. */
  lemma CompleteAppMoves(db: Database, id: nat, next: AppState, topic: Topic, result: Content)
    returns (db': Database, row: Application, sent: Envelope)
    requires OnboardingId(db, id) && ApplicationTopic(topic)
    requires db.outbox[id].app in db.apps ==> AppOk(db, db.outbox[id].app)
    requires CompleteApp(db, id, ExpectedAppState(db.outbox[id].topic), next, topic, result).reply == Applied
    ensures db' == CompleteApp(db, id, ExpectedAppState(db.outbox[id].topic), next, topic, result).db
    ensures row == Application(db.apps[db.outbox[id].app].config, next, db.apps[db.outbox[id].app].version + 1)
    ensures sent == AppEvent(db.outbox[id].app, topic, [result], Some(row.version), Some(id))
    ensures AppMovesTo(db, db', db.outbox[id].app, row, Some(id), sent)
    ensures db'.baselines == db.baselines
    ensures db'.artifacts == db.artifacts + {(db.outbox[id].app, result)}
    ensures forall i | Current(db, db.outbox[id].app, i) :: i == id
  {
    var a := db.outbox[id].app;
    db' := CompleteApp(db, id, ExpectedAppState(db.outbox[id].topic), next, topic, result).db;
    row := Application(db.apps[a].config, next, db.apps[a].version + 1);
    sent := AppEvent(a, topic, [result], Some(row.version), Some(id));
    assert Current(db, a, id);
  }

  lemma CompleteAppInv(policies: Policies, db: Database, id: nat, next: AppState, topic: Topic, result: Content)
    requires Inv(policies, db) && OnboardingId(db, id) && ApplicationTopic(topic)
    requires CompleteApp(db, id, ExpectedAppState(db.outbox[id].topic), next, topic, result).reply == Applied
    requires next == ExpectedAppState(topic) && SoundArtifact(db.artifacts, db.outbox[id].app, result)
    requires AdmissionTopic(topic) ==> result.Context? && BaselineReady(result) == (topic == ReadyTopic)
    requires topic == ContextTopic ==> result.Manifest?
    ensures Lawful(policies, db, CompleteApp(db, id, ExpectedAppState(db.outbox[id].topic), next, topic, result).db)
  {
    var a := db.outbox[id].app;
    assert a in db.apps ==> AppOk(db, a);
    var db', row, sent := CompleteAppMoves(db, id, next, topic, result);
    StoreArtifact(db.artifacts, a, result);
    assert sent.refs == [result];
    AppMovesInv(policies, db, db', a, row, Some(id), sent);
  }

  lemma AppResultInv(policies: Policies, db: Database, id: nat, answer: Answer)
    requires Inv(policies, db) && OnboardingId(db, id)
    requires CommitTask(policies, db, StageTask(id, answer)).reply == Applied
    ensures Lawful(policies, db, CommitTask(policies, db, StageTask(id, answer)).db)
  {
    var e := db.outbox[id];
    var c := AppResult(e, answer).value;
    assert WellFormedEvent(db, e);
    assert AppOk(db, e.app);
    if e.topic == ContextTopic {
      assert Current(db, e.app, id) && e.refs[0] in e.refs;
    }
    CompleteAppInv(policies, db, id, c.next, c.topic, c.result);
  }

  lemma AppFailureInv(policies: Policies, db: Database, id: nat, seen: Option<Content>, reason: string)
    requires Inv(policies, db) && OnboardingId(db, id)
    requires CommitTask(policies, db, FailTask(id, seen, reason)).reply == Applied
    ensures Lawful(policies, db, CommitTask(policies, db, FailTask(id, seen, reason)).db)
  {
    CompleteAppInv(policies, db, id, ContextBlocked, BlockedTopic, Context(false, None, reason));
  }

  lemma ReviseInv(policies: Policies, db: Database, a: AppId, version: nat, config: Config)
    requires Inv(policies, db) && Revise(db, a, version, config).reply == Applied
    ensures Lawful(policies, db, Revise(db, a, version, config).db)
  {
    var db' := Revise(db, a, version, config).db;
    var sent := AppEvent(a, DiscoveryTopic, [], Some(version + 1), None);
    assert db'.artifacts == db.artifacts;
    assert AppMovesTo(db, db', a, db'.apps[a], None, sent);
    forall k | k in db.incidents && k.app == a ensures !Active(db.incidents[k].state) {
    }
    forall i ensures !Current(db, a, i) {
      assert !PendingAppEvent(db, a, i);
    }
    AppMovesInv(policies, db, db', a, db'.apps[a], None, sent);
  }

  lemma RefreshInv(policies: Policies, db: Database, a: AppId)
    requires Inv(policies, db) && Refresh(db, a).reply == Applied
    ensures Lawful(policies, db, Refresh(db, a).db)
  {
    var db' := Refresh(db, a).db;
    var sent := AppEvent(a, DiscoveryTopic, [], None, None);
    assert db'.artifacts == db.artifacts;
    assert AppMovesTo(db, db', a, db'.apps[a], None, sent);
    forall k | k in db.incidents && k.app == a ensures !Queued(db.incidents[k].state) {
    }
    assert AppOk(db, a);
    AppMovesInv(policies, db, db', a, db'.apps[a], None, sent);
  }

  lemma PublishIncident(policies: Policies, db: Database, ids: set<nat>, k: IncKey)
    requires k in db.incidents && IncidentOk(policies, db, k)
    ensures IncidentOk(policies, Publish(db, ids), k)
  {
    assert SameIncident(db, Publish(db, ids), k) by {
      assert ScopeOk(db, k);
    }
    FrameIncident(policies, db, Publish(db, ids), k);
  }

  lemma PublishInv(policies: Policies, db: Database, ids: set<nat>)
    requires Inv(policies, db)
    ensures Lawful(policies, db, Publish(db, ids))
  {
    var db' := Publish(db, ids);
    FrameEvents(db, db');
    forall a | a in db'.apps ensures AppOk(db', a) {
      assert AppOk(db, a);
      FrameApp(db, db', a);
    }
    forall k | k in db'.incidents ensures IncidentOk(policies, db', k) {
      assert IncidentOk(policies, db, k);
      PublishIncident(policies, db, ids, k);
    }
  }
}
