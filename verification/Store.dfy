/**
 The store itself: the tables, and each write transaction as a method that updates them in place.
 Every method is proved to leave the tables and give the answer that its function in `Transactions`
 describes, so what is proved of runs of those functions holds of the store.
*/
module Store {
  import opened Model
  import opened Transactions

  class Store {
    var apps: map<AppId, Application>
    var incidents: map<IncKey, Incident>
    var baselines: map<AppId, Baseline>
    var outbox: seq<Envelope>
    var published: set<nat>
    var inbox: set<(Consumer, nat)>
    var artifacts: set<(AppId, Content)>
    var approvals: map<(IncKey, Plan), Approval>
    var runs: seq<Rerun>
    var revisions: Revisions

    /** What the tables hold together. */
    function View(): Database
      reads this
    {
      Database(apps, incidents, baselines, outbox, published, inbox, artifacts, approvals, runs, revisions)
    }

    constructor ()
      ensures View() == EMPTY
    {
      apps, incidents, baselines := map[], map[], map[];
      outbox, published, inbox := [], {}, {};
      artifacts, approvals, runs, revisions := {}, map[], [], map[];
    }

    // ---------------------------------------------------------- applications

    method Onboard(a: AppId, config: Config) returns (reply: Reply)
      modifies this`apps, this`outbox
      ensures View() == Transactions.Onboard(old(View()), a, config).db
      ensures reply == Transactions.Onboard(old(View()), a, config).reply
    {
      if a.tenant == "" || a.application == "" {
        return Refused(Invalid);
      }
      if a in apps {
        return if apps[a].config != config then Refused(Invalid) else Unchanged;
      }
      apps := apps[a := Application(config, DiscoveryQueued, 1)];
      outbox := outbox + [AppEvent(a, DiscoveryTopic, [], None, None)];
      reply := Applied;
    }

    /** Walk the references of an event for one that is not stored in the application. */
    method HoldsRefs(a: AppId, refs: seq<Content>) returns (held: bool)
      ensures held == RefsStored(View(), a, refs)
    {
      for i := 0 to |refs|
        invariant forall j | 0 <= j < i :: (a, refs[j]) in artifacts
      {
        if (a, refs[i]) !in artifacts {
          assert refs[i] in refs;
          return false;
        }
      }
      held := true;
    }

    /** What `complete` checks of an application before it writes. */
    method CheckAppStage(id: nat, expected: AppState) returns (reply: Reply)
      requires id < |outbox|
      ensures reply == AppStageCheck(View(), id, expected)
    {
      var e := outbox[id];
      if e.app !in apps {
        return Refused(Unavailable);
      }
      if (ConsumerOf(e.topic), id) in inbox {
        return Unchanged;
      }
      var row := apps[e.app];
      if (e.version.Some? && e.version.value != row.version) || row.state != expected {
        return Refused(Invalid);
      }
      var stored := HoldsRefs(e.app, e.refs);
      reply := if stored then Applied else Refused(Invalid);
    }

    method CompleteApp(id: nat, expected: AppState, next: AppState, topic: Topic,
                       result: Content) returns (reply: Reply)
      requires id < |outbox|
      modifies this`apps, this`artifacts, this`inbox, this`outbox
      ensures View() == Transactions.CompleteApp(old(View()), id, expected, next, topic, result).db
      ensures reply == Transactions.CompleteApp(old(View()), id, expected, next, topic, result).reply
    {
      reply := CheckAppStage(id, expected);
      if reply == Applied {
        var e := outbox[id];
        var version := apps[e.app].version + 1;
        AdvanceApp(e.app, apps[e.app].(state := next, version := version), (ConsumerOf(e.topic), id), result,
                   AppEvent(e.app, topic, [result], Some(version), Some(id)));
      }
    }

    /** The writes of an application stage. */
    method AdvanceApp(a: AppId, row: Application, consumed: (Consumer, nat), result: Content, following: Envelope)
      modifies this`apps, this`artifacts, this`inbox, this`outbox
      ensures View() == MoveApp(old(View()), a, row, {consumed}, {(a, result)}, [following])
    {
      artifacts := artifacts + {(a, result)};
      apps := apps[a := row];
      inbox := inbox + {consumed};
      outbox := outbox + [following];
    }

    /** Walk the outbox for an event of the application that its consumer has not recorded. */
    method PendsAppEvent(a: AppId) returns (found: bool)
      ensures found == HasPendingAppEvent(View(), a)
    {
      for i := 0 to |outbox|
        invariant forall j | 0 <= j < i :: !PendingAppEvent(View(), a, j)
      {
        var e := outbox[i];
        if ApplicationTopic(e.topic) && e.app == a && (ConsumerOf(e.topic), i) !in inbox {
          assert PendingAppEvent(View(), a, i);
          return true;
        }
      }
      found := false;
    }

    /** Insert a revision entry unless one is there. */
    method InsertRevision(a: AppId, version: nat, config: Config)
      modifies this`revisions
      ensures revisions == WithRevision(old(revisions), a, version, config)
    {
      if (a, version) !in revisions {
        revisions := revisions[(a, version) := config];
      }
    }

    method Revise(a: AppId, expectedVersion: nat, config: Config) returns (reply: Reply)
      modifies this`apps, this`revisions, this`baselines, this`outbox
      ensures View() == Transactions.Revise(old(View()), a, expectedVersion, config).db
      ensures reply == Transactions.Revise(old(View()), a, expectedVersion, config).reply
    {
      if a !in apps {
        return Refused(Unavailable);
      }
      var row := apps[a];
      if row.version != expectedVersion {
        return Refused(Invalid);
      }
      if row.config == config {
        return Unchanged;
      }
      if !Settled(row.state) || HasIncidentIn(View(), a, ACTIVE) {
        return Refused(Invalid);
      }
      var pending := PendsAppEvent(a);
      if pending {
        return Refused(Invalid);
      }
      apps := apps[a := Application(config, DiscoveryQueued, expectedVersion + 1)];
      InsertRevision(a, expectedVersion, row.config);
      InsertRevision(a, expectedVersion + 1, config);
      baselines := baselines - {a};
      outbox := outbox + [AppEvent(a, DiscoveryTopic, [], Some(expectedVersion + 1), None)];
      reply := Applied;
    }

    /** Walk the unpublished rows of the outbox for one of the application. */
    method HoldsUnpublishedEvent(a: AppId) returns (found: bool)
      ensures found == HasUnpublishedEvent(View(), a)
    {
      for i := 0 to |outbox|
        invariant forall j | 0 <= j < i :: j in published || outbox[j].app != a
      {
        if i !in published && outbox[i].app == a {
          return true;
        }
      }
      found := false;
    }

    method Refresh(a: AppId) returns (reply: Reply)
      modifies this`apps, this`baselines, this`outbox
      ensures View() == Transactions.Refresh(old(View()), a).db
      ensures reply == Transactions.Refresh(old(View()), a).reply
    {
      if a !in apps {
        return Refused(Unavailable);
      }
      var row := apps[a];
      if !Settled(row.state) || HasIncidentIn(View(), a, ACTIVE - {WaitingForContext}) {
        return Refused(Invalid);
      }
      var pending := HoldsUnpublishedEvent(a);
      if pending {
        return Refused(Invalid);
      }
      baselines := baselines - {a};
      apps := apps[a := row.(state := DiscoveryQueued, version := row.version + 1)];
      outbox := outbox + [AppEvent(a, DiscoveryTopic, [], None, None)];
      reply := Applied;
    }

    // -------------------------------------------------------------- dispatch

    /** The first `limit` unpublished rows, in the order they were written. */
    method Pending(limit: nat) returns (rows: seq<nat>)
      ensures rows == Unpublished(View(), 0, limit)
    {
      rows := [];
      var i := 0;
      while i < |outbox| && |rows| < limit
        invariant i <= |outbox| && |rows| <= limit
        invariant rows + Unpublished(View(), i, limit - |rows|) == Unpublished(View(), 0, limit)
      {
        if i !in published {
          rows := rows + [i];
        }
        i := i + 1;
      }
    }

    /** Publish one batch: each row is marked only after the
        broker confirmed it, and the first refusal ends the batch. */
    method Dispatch(limit: nat, confirms: nat -> bool) returns (sent: seq<nat>, all: bool)
      modifies this`published
      ensures sent == Confirmed(Unpublished(old(View()), 0, limit), confirms)
      ensures all == (sent == Unpublished(old(View()), 0, limit))
      ensures View() == Publish(old(View()), SetOf(sent))
      ensures forall i :: i in published <==> i in old(published) || i in sent
    {
      var pending := Pending(limit);
      sent, all := [], true;
      while all && |sent| < |pending|
        invariant |sent| <= |pending| && sent == pending[..|sent|]
        invariant all ==> Confirmed(pending, confirms) == sent + Confirmed(pending[|sent|..], confirms)
        invariant !all ==> Confirmed(pending, confirms) == sent && |sent| < |pending|
        invariant published == old(published) + SetOf(sent)
        decreases all, |pending| - |sent|
      {
        var row := pending[|sent|];
        NextSent(pending, sent);
        NextConfirmed(pending, sent, confirms);
        if confirms(row) {
          published := published + {row};
          sent := sent + [row];
        } else {
          all := false;
        }
      }
      UnpublishedRows(old(View()), 0, limit);
      PublishRows(old(View()), pending, sent);
    }

    // ------------------------------------------------------------- incidents

    method Admit(k: IncKey, request: Request, now: Instant) returns (reply: Reply)
      modifies this`incidents, this`outbox
      ensures View() == Transactions.Admit(old(View()), k, request, now).db
      ensures reply == Transactions.Admit(old(View()), k, request, now).reply
    {
      if k.incident == "" || request.service == "" || request.windowEnd <= request.windowStart
         || request.windowEnd - request.windowStart > 24 * HOUR || request.windowEnd > now + 5 * MINUTE {
        return Refused(Invalid);
      }
      if k.app !in apps {
        return Refused(Unavailable);
      }
      if request.service !in apps[k.app].config.services {
        return Refused(Invalid);
      }
      if k in incidents {
        return if incidents[k].request != request then Refused(Invalid) else Unchanged;
      }
      var row := Incident(request, WaitingForContext, None);
      if k.app in baselines {
        row := row.(state := if baselines[k.app].state == ContextReady then CollectionQueued else BlockedByContext);
      }
      incidents := incidents[k := row];
      if row.state == CollectionQueued {
        outbox := outbox + [Emit(k, row, CollectionTopic, baselines[k.app].ref, None)];
      }
      reply := Applied;
    }

    /** The latest rerun whose evidence has records: the loop of `reinvestigate` over the runs, newest first. */
    method LatestUsable(k: IncKey) returns (r: Result<Option<Content>>)
      ensures r == PriorEvidence(View(), k, |runs|)
    {
      var n: nat := |runs|;
      while n > 0
        invariant n <= |runs|
        invariant PriorEvidence(View(), k, n) == PriorEvidence(View(), k, |runs|)
      {
        n := n - 1;
        var run := runs[n];
        if run.incident != k || run.previousResult.None? {
          continue;
        }
        if (k.app, run.previousResult.value) !in artifacts {
          return Err(Unavailable);
        }
        var ref := EvidenceRef(run.previousResult.value);
        if ref.Some? {
          if (k.app, ref.value) !in artifacts {
            return Err(Unavailable);
          }
          if RecordsOf(ref.value) != [] {
            return Ok(ref);
          }
        }
      }
      r := Ok(None);
    }

    /** The evidence a reanalysis starts from: the row's own, or an earlier one when the row's came out empty. */
    method StartingEvidence(k: IncKey, row: Incident) returns (r: Result<Content>)
      ensures r == StoredEvidence(View(), k, row)
    {
      if row.result.None? {
        return Err(Invalid);
      }
      if (k.app, row.result.value) !in artifacts {
        return Err(Unavailable);
      }
      var ref := EvidenceRef(row.result.value);
      if ref.None? {
        return Err(Invalid);
      }
      if (k.app, ref.value) !in artifacts {
        return Err(Unavailable);
      }
      if Sparse(ref.value) {
        var prior := LatestUsable(k);
        if prior.Err? {
          return Err(prior.fault);
        }
        if prior.value.Some? {
          ref := prior.value;
        }
      }
      r := Ok(ref.value);
    }

    /** What a reinvestigation checks before it looks for evidence. */
    method MayRestart(k: IncKey, expected: Option<Content>) returns (ok: bool)
      requires k.app in apps && k in incidents
      ensures ok == Restartable(View(), k, expected)
    {
      var row := incidents[k];
      ok := row.result == expected && row.state in {Assessed, Failed, BlockedByContext}
            && row.request.service in apps[k.app].config.services
            && apps[k.app].state == ContextReady && k.app in baselines && baselines[k.app].state == ContextReady;
    }

    method Reinvestigate(k: IncKey, expected: Option<Content>, mode: Mode) returns (reply: Reply)
      modifies this`incidents, this`runs, this`outbox
      ensures View() == Transactions.Reinvestigate(old(View()), k, expected, mode).db
      ensures reply == Transactions.Reinvestigate(old(View()), k, expected, mode).reply
    {
      if k.app !in apps || k !in incidents {
        return Refused(Unavailable);
      }
      var restartable := MayRestart(k, expected);
      if !restartable {
        return Refused(Invalid);
      }
      var evidence: Option<Content> := None;
      if mode == Reanalyze {
        var start := StartingEvidence(k, incidents[k]);
        if start.Err? {
          return Refused(start.fault);
        }
        evidence := Some(start.value);
      } else if mode != Recollect {
        return Refused(Invalid);
      }
      StartRound(k, evidence, baselines[k.app].ref);
      reply := Applied;
    }

    /** The writes of a reinvestigation: log the round before, and queue the next one. */
    method StartRound(k: IncKey, evidence: Option<Content>, baseline: Content)
      requires k in incidents
      modifies this`incidents, this`runs, this`outbox
      ensures runs == old(runs) + [Rerun(k, old(incidents)[k].result, old(incidents)[k].state)]
      ensures var row := old(incidents)[k];
              if evidence.Some? then
                && incidents == old(incidents)[k := row.(state := AnalysisQueued, result := evidence)]
                && outbox == old(outbox) + [Emit(k, row, AnalysisTopic, evidence.value, None)]
              else
                && incidents == old(incidents)[k := row.(state := CollectionQueued, result := None)]
                && outbox == old(outbox) + [Emit(k, row, CollectionTopic, baseline, None)]
    {
      var row := incidents[k];
      runs := runs + [Rerun(k, row.result, row.state)];
      if evidence.Some? {
        incidents := incidents[k := row.(state := AnalysisQueued, result := evidence)];
        outbox := outbox + [Emit(k, row, AnalysisTopic, evidence.value, None)];
      } else {
        incidents := incidents[k := row.(state := CollectionQueued, result := None)];
        outbox := outbox + [Emit(k, row, CollectionTopic, baseline, None)];
      }
    }

    /** What `complete` checks of an incident before it writes. */
    method CheckStage(id: nat, expected: IncState) returns (reply: Reply)
      requires id < |outbox| && outbox[id].incident.Some?
      ensures reply == StageCheck(View(), id, expected)
      ensures reply == Applied ==> KeyOf(outbox[id]) in incidents
    {
      var e := outbox[id];
      var k := KeyOf(e);
      if k.app !in apps {
        return Refused(Unavailable);
      }
      if (ConsumerOf(e.topic), id) in inbox {
        return Unchanged;
      }
      if k !in incidents {
        return Refused(Unavailable);
      }
      var stored := HoldsRefs(k.app, e.refs);
      reply := if incidents[k].state == expected && stored then Applied else Refused(Invalid);
    }

    method Complete(id: nat, expected: IncState, next: IncState, result: Content, topic: Option<Topic>)
        returns (reply: Reply)
      requires id < |outbox| && outbox[id].incident.Some?
      modifies this`incidents, this`artifacts, this`inbox, this`outbox
      ensures View() == Transactions.Complete(old(View()), id, expected, next, result, topic).db
      ensures reply == Transactions.Complete(old(View()), id, expected, next, result, topic).reply
    {
      reply := CheckStage(id, expected);
      if reply != Applied {
        return;
      }
      var e := outbox[id];
      var k := KeyOf(e);
      var row := incidents[k];
      var following := if topic.Some? then [Emit(k, row, topic.value, result, Some(id))] else [];
      AdvanceIncident(k, row.(state := next, result := Some(result)), (ConsumerOf(e.topic), id), result, following);
    }

    /** The writes of an incident stage. */
    method AdvanceIncident(k: IncKey, row: Incident, consumed: (Consumer, nat), result: Content,
                           following: seq<Envelope>)
      modifies this`incidents, this`artifacts, this`inbox, this`outbox
      ensures View() == Move(old(View()), k, row, {consumed}, {(k.app, result)}, following)
    {
      artifacts := artifacts + {(k.app, result)};
      incidents := incidents[k := row];
      inbox := inbox + {consumed};
      outbox := outbox + following;
    }

    /** The loop of `release`: move the waiting incidents of the application on, one after the other. */
    method MoveWaiting(a: AppId, ready: bool, ref: Content, cause: nat) returns (ghost order: seq<IncKey>)
      modifies this`incidents, this`outbox
      ensures Enumerates(order, old(View()), a)
      ensures incidents == Released(old(incidents), order, if ready then CollectionQueued else BlockedByContext)
      ensures outbox == old(outbox) + if ready then CollectionRequests(old(incidents), order, ref, cause) else []
    {
      order := [];
      var next := if ready then CollectionQueued else BlockedByContext;
      var waiting := set k | k in incidents && k.app == a && incidents[k].state == WaitingForContext;
      ghost var all := waiting;
      while waiting != {}
        invariant Walked(order, all, waiting)
        invariant incidents == Released(old(incidents), order, next)
        invariant outbox == old(outbox) + if ready then CollectionRequests(old(incidents), order, ref, cause) else []
        decreases waiting
      {
        var k :| k in waiting;
        var row := incidents[k];
        WalkOn(order, all, waiting, k);
        ReleasedOneMore(old(incidents), order, k, next, ref, cause);
        incidents := incidents[k := row.(state := next)];
        if ready {
          outbox := outbox + [Emit(k, row, CollectionTopic, ref, Some(cause))];
        }
        waiting := waiting - {k};
        order := order + [k];
      }
    }

    /** What `release` checks before it writes. */
    method CheckRelease(id: nat) returns (reply: Reply)
      requires id < |outbox| && AdmissionTopic(outbox[id].topic)
      ensures reply == ReleaseCheck(View(), id)
    {
      var e := outbox[id];
      if |e.refs| != 1 {
        return Refused(Invalid);
      }
      if (e.app, e.refs[0]) !in artifacts {
        return Refused(Unavailable);
      }
      if BaselineReady(e.refs[0]) != (e.topic == ReadyTopic) {
        return Refused(Invalid);
      }
      if e.app !in apps {
        return Refused(Unavailable);
      }
      if (AdmissionWorker, id) in inbox {
        return Unchanged;
      }
      var app := apps[e.app];
      if app.state != ExpectedAppState(e.topic) || (e.version.Some? && e.version.value != app.version) {
        return Refused(Invalid);
      }
      reply := Applied;
    }

    /** Record the baseline and move the waiting incidents on. */
    method Release(id: nat) returns (reply: Reply, ghost order: seq<IncKey>)
      requires id < |outbox| && AdmissionTopic(outbox[id].topic)
      modifies this`baselines, this`incidents, this`inbox, this`outbox
      ensures Enumerates(order, old(View()), old(outbox[id].app))
      ensures View() == Transactions.Release(old(View()), id, order).db
      ensures reply == Transactions.Release(old(View()), id, order).reply
    {
      var e := outbox[id];
      reply := CheckRelease(id);
      if reply != Applied {
        order := WaitingOrder(View(), e.app);
        return;
      }
      if e.app !in baselines {
        baselines := baselines[e.app := Baseline(ExpectedAppState(e.topic), e.refs[0])];
      }
      order := MoveWaiting(e.app, e.topic == ReadyTopic, e.refs[0], id);
      inbox := inbox + {(AdmissionWorker, id)};
    }

    // ------------------------------------------------------------- approvals

    method Decide(policies: Policies, k: IncKey, plan: Plan, decision: Decision, event: Option<nat>,
                  now: Instant) returns (reply: Reply)
      requires event.Some? ==> event.value < |outbox| && outbox[event.value].topic == AuthorizationTopic
      modifies this`incidents, this`approvals, this`inbox, this`outbox
      ensures View() == Transactions.Decide(policies, old(View()), k, plan, decision, event, now).db
      ensures reply == Transactions.Decide(policies, old(View()), k, plan, decision, event, now).reply
    {
      if k.app !in apps || k !in incidents {
        return Refused(Unavailable);
      }
      var row := incidents[k];
      if event.Some? && (AuthorizationWorker, event.value) in inbox {
        return Unchanged;
      }
      if (k, plan) in approvals {
        return if approvals[(k, plan)].decision != decision then Refused(Invalid) else Unchanged;
      }
      if row.state != AwaitingApproval {
        return Refused(Invalid);
      }
      if row.result.None? || (k.app, row.result.value) !in artifacts {
        return Refused(Unavailable);
      }
      var key := PolicyKeyOf(k, plan.service);
      if ResolutionOf(row.result.value).plan != Some(plan) || plan.expiresAt <= now
         || key !in policies || policies[key] != plan.policy {
        return Refused(Invalid);
      }
      if event.Some? {
        var until := policies[key].automaticUntil;
        if until.None? || until.value <= now {
          return Refused(Invalid);
        }
      }
      RecordDecision(k, plan, decision, event);
      reply := Applied;
    }

    /** The writes of a decision that passed every check. */
    method RecordDecision(k: IncKey, plan: Plan, decision: Decision, event: Option<nat>)
      requires k in incidents && incidents[k].result.Some?
      modifies this`incidents, this`approvals, this`inbox, this`outbox
      ensures View() == Decided(old(View()), k, plan, decision, event)
    {
      var row := incidents[k];
      if event.Some? {
        inbox := inbox + {(AuthorizationWorker, event.value)};
      }
      approvals := approvals[(k, plan) := Approval(decision, if event.Some? then Preauthorized else Operator)];
      incidents := incidents[k := row.(state := StateAfter(decision))];
      if decision == Approve {
        outbox := outbox + [Emit(k, row, ExecutionTopic, row.result.value, None)];
      }
    }
  }

  // ------------------------------------------------------------------ batches

  /** At most `limit` unpublished rows from `from` on, in order. */
  function Unpublished(db: Database, from: nat, limit: nat): seq<nat>
    decreases |db.outbox| - from
  {
    if from >= |db.outbox| || limit == 0 then []
    else if from in db.published then Unpublished(db, from + 1, limit)
    else [from] + Unpublished(db, from + 1, limit - 1)
  }

  /** The rows before the first that the broker does not confirm. */
  function Confirmed(rows: seq<nat>, confirms: nat -> bool): seq<nat> {
    if rows == [] || !confirms(rows[0]) then [] else [rows[0]] + Confirmed(rows[1..], confirms)
  }

  lemma {:induction false} UnpublishedRows(db: Database, from: nat, limit: nat)
    ensures |Unpublished(db, from, limit)| <= limit
    ensures forall i | i in Unpublished(db, from, limit) :: from <= i < |db.outbox| && i !in db.published
    ensures forall x, y | 0 <= x < y < |Unpublished(db, from, limit)| ::
              Unpublished(db, from, limit)[x] < Unpublished(db, from, limit)[y]
    decreases |db.outbox| - from
  {
    if from < |db.outbox| && limit > 0 {
      if from in db.published {
        UnpublishedRows(db, from + 1, limit);
      } else {
        UnpublishedRows(db, from + 1, limit - 1);
        var rest := Unpublished(db, from + 1, limit - 1);
        assert forall x | 0 <= x < |rest| :: rest[x] in rest;
      }
    }
  }

  function SetOf(rows: seq<nat>): set<nat> {
    set i | i in rows
  }

  lemma NextSent(pending: seq<nat>, sent: seq<nat>)
    requires |sent| < |pending| && sent == pending[..|sent|]
    ensures sent + [pending[|sent|]] == pending[..|sent| + 1]
    ensures SetOf(sent + [pending[|sent|]]) == SetOf(sent) + {pending[|sent|]}
  {
  }

  lemma NextConfirmed(pending: seq<nat>, sent: seq<nat>, confirms: nat -> bool)
    requires |sent| < |pending| && Confirmed(pending, confirms) == sent + Confirmed(pending[|sent|..], confirms)
    ensures Confirmed(pending, confirms) ==
              if confirms(pending[|sent|])
              then sent + [pending[|sent|]] + Confirmed(pending[|sent| + 1..], confirms) else sent
  {
    assert pending[|sent|..][1..] == pending[|sent| + 1..];
  }

  lemma PublishRows(db: Database, pending: seq<nat>, sent: seq<nat>)
    requires forall i | i in pending :: i < |db.outbox|
    requires sent <= pending
    ensures Publish(db, SetOf(sent)) == db.(published := db.published + SetOf(sent))
  {
    assert forall i | i in sent :: i in pending;
  }

  /** A batch ends exactly before the first row the broker refuses. */
  lemma {:induction false} ConfirmedPrefix(rows: seq<nat>, confirms: nat -> bool)
    ensures Confirmed(rows, confirms) <= rows
    ensures forall i | i in Confirmed(rows, confirms) :: confirms(i)
    ensures |Confirmed(rows, confirms)| < |rows| ==> !confirms(rows[|Confirmed(rows, confirms)|])
  {
    if rows != [] && confirms(rows[0]) {
      ConfirmedPrefix(rows[1..], confirms);
    }
  }

  /** `order` lists, each once, the keys that are no longer waiting. */
  ghost predicate Walked(order: seq<IncKey>, all: set<IncKey>, waiting: set<IncKey>) {
    && waiting <= all
    && (forall k :: k in order <==> k in all && k !in waiting)
    && (forall i, j | 0 <= i < j < |order| :: order[i] != order[j])
  }

  lemma WalkOn(order: seq<IncKey>, all: set<IncKey>, waiting: set<IncKey>, k: IncKey)
    requires Walked(order, all, waiting) && k in waiting
    ensures Walked(order + [k], all, waiting - {k})
  {
  }

  /** One more incident released. */
  lemma ReleasedOneMore(incidents: map<IncKey, Incident>, order: seq<IncKey>, k: IncKey, next: IncState, ref: Content,
                        cause: nat)
    requires k in incidents && k !in order && forall q | q in order :: q in incidents
    ensures Released(incidents, order + [k], next) ==
              Released(incidents, order, next)[k := incidents[k].(state := next)]
    ensures CollectionRequests(incidents, order + [k], ref, cause) ==
              CollectionRequests(incidents, order, ref, cause)
              + [Emit(k, incidents[k], CollectionTopic, ref, Some(cause))]
  {
  }
}
