/**
 One incident moves: the parts of the invariant that every incident transaction shares.
*/
module Moves {
  import opened Model
  import opened Invariants

  function Mark(db: Database, consumed: Option<nat>): set<(Consumer, nat)> {
    if consumed.Some? && consumed.value < |db.outbox|
    then {(ConsumerOf(db.outbox[consumed.value].topic), consumed.value)}
    else {}
  }

  function Sent(e: Option<Envelope>): seq<Envelope> {
    if e.Some? then [e.value] else []
  }

  /** `db'` is `db` after the row of `k` became `row`, one of its events was recorded and one was enqueued, if any. */
  ghost predicate MovesTo(db: Database, db': Database, k: IncKey, row: Incident, consumed: Option<nat>,
                          sent: Option<Envelope>) {
    && k.app in db.apps
    && (k in db.incidents ==> row.request == db.incidents[k].request)
    && db'.apps == db.apps && db'.baselines == db.baselines
    && db'.revisions == db.revisions && db'.published == db.published
    && db'.incidents == db.incidents[k := row]
    && db'.inbox == db.inbox + Mark(db, consumed)
    && db'.outbox == db.outbox + Sent(sent)
    && db.artifacts <= db'.artifacts
    && db.runs <= db'.runs
    && (forall d | d in db.approvals :: d in db'.approvals && db'.approvals[d] == db.approvals[d])
    && (forall other, plan | (other, plan) in db'.approvals && other != k :: (other, plan) in db.approvals)
    && (consumed.Some? ==> consumed.value < |db.outbox| && db.outbox[consumed.value].incident.Some?
                           && KeyOf(db.outbox[consumed.value]) == k
                           && !ApplicationTopic(db.outbox[consumed.value].topic))
    && (sent.Some? ==> sent.value.incident.Some? && KeyOf(sent.value) == k && !ApplicationTopic(sent.value.topic))
  }

  lemma MovesExtends(db: Database, db': Database, k: IncKey, row: Incident, consumed: Option<nat>,
                     sent: Option<Envelope>)
    requires MovesTo(db, db', k, row, consumed, sent)
    ensures Extends(db, db')
  {
  }

  lemma MovesOthers(policies: Policies, db: Database, db': Database, k: IncKey, row: Incident, consumed: Option<nat>,
                    sent: Option<Envelope>, other: IncKey)
    requires MovesTo(db, db', k, row, consumed, sent)
    requires other in db.incidents && other != k && IncidentOk(policies, db, other)
    ensures other in db'.incidents && IncidentOk(policies, db', other)
  {
    MovesExtends(db, db', k, row, consumed, sent);
    FrameIncident(policies, db, db', other);
  }

  lemma MovesApps(db: Database, db': Database, k: IncKey, row: Incident, consumed: Option<nat>, sent: Option<Envelope>,
                  a: AppId)
    requires MovesTo(db, db', k, row, consumed, sent)
    requires a in db.apps && AppOk(db, a)
    ensures a in db'.apps && AppOk(db', a)
  {
    MovesExtends(db, db', k, row, consumed, sent);
    assert SameApp(db, db', a);
    FrameApp(db, db', a);
  }

  /** The structural part of the invariant after a move. */
  lemma MovesStructure(policies: Policies, db: Database, db': Database, k: IncKey, row: Incident, consumed: Option<nat>,
                       sent: Option<Envelope>)
    requires WellFormedEvents(db) && WellFormedRows(db) && MovesTo(db, db', k, row, consumed, sent)
    requires sent.Some? ==> WellFormedEvent(db', sent.value)
    ensures WellFormedEvents(db') && WellFormedRows(db')
  {
    MovesExtends(db, db', k, row, consumed, sent);
    FrameEvents(db, db');
  }

  /** Everything but the moved incident itself keeps its invariant. */
  lemma MovesInv(policies: Policies, db: Database, db': Database, k: IncKey, row: Incident, consumed: Option<nat>,
                 sent: Option<Envelope>)
    requires Inv(policies, db) && MovesTo(db, db', k, row, consumed, sent)
    requires sent.Some? ==> WellFormedEvent(db', sent.value)
    requires ArtifactsSound(db'.artifacts) && RerunsSound(db')
    requires IncidentOk(policies, db', k)
    requires k in db.incidents ==> Progress(db.incidents[k], row)
    ensures Lawful(policies, db, db')
  {
    MovesExtends(db, db', k, row, consumed, sent);
    MovesStructure(policies, db, db', k, row, consumed, sent);
    MovesAllOthers(policies, db, db', k, row, consumed, sent);
    MovesAllApps(db, db', k, row, consumed, sent);
  }

  lemma MovesAllOthers(policies: Policies, db: Database, db': Database, k: IncKey, row: Incident,
                       consumed: Option<nat>, sent: Option<Envelope>)
    requires MovesTo(db, db', k, row, consumed, sent)
    requires forall other {:trigger IncidentOk(policies, db, other)} | other in db.incidents ::
        IncidentOk(policies, db, other)
    ensures forall other {:trigger IncidentOk(policies, db', other)} | other in db'.incidents && other != k ::
              IncidentOk(policies, db', other)
  {
    forall other | other in db'.incidents && other != k ensures IncidentOk(policies, db', other) {
      MovesOthers(policies, db, db', k, row, consumed, sent, other);
    }
  }

  lemma MovesAllApps(db: Database, db': Database, k: IncKey, row: Incident, consumed: Option<nat>,
                     sent: Option<Envelope>)
    requires MovesTo(db, db', k, row, consumed, sent)
    requires forall a {:trigger AppOk(db, a)} | a in db.apps :: AppOk(db, a)
    ensures forall a {:trigger AppOk(db', a)} | a in db'.apps :: AppOk(db', a)
  {
    forall a | a in db'.apps ensures AppOk(db', a) {
      MovesApps(db, db', k, row, consumed, sent, a);
    }
  }

  /** Reruns stay sound when none was logged. */
  lemma SameReruns(db: Database, db': Database)
    requires RerunsSound(db) && db'.runs == db.runs && db.artifacts <= db'.artifacts
    ensures RerunsSound(db')
  {
  }

  /** After a move the incident has exactly the stage event it was sent, and one only if its new state is queued. */
  lemma MovesStage(db: Database, db': Database, k: IncKey, row: Incident, consumed: Option<nat>, sent: Option<Envelope>)
    requires WellFormedRows(db) && MovesTo(db, db', k, row, consumed, sent)
    requires forall i | StageEvent(db, k, i) :: consumed == Some(i)
    requires sent.Some? && StageTopic(sent.value.topic) ==> AtStage(db', k, sent.value)
    requires Queued(row.state) ==> sent.Some? && StageTopic(sent.value.topic)
    ensures StageOk(db', k)
  {
    var n := |db.outbox|;
    forall i | StageEvent(db', k, i) ensures i == n && sent.Some? && db'.outbox[i] == sent.value {
      if i < n {
        assert StageEvent(db, k, i);
      }
    }
    if Queued(row.state) {
      assert StageEvent(db', k, n);
    }
  }
}
