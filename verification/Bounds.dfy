/**
 Every run ends its work: each onboarding, revision and refresh causes at most three events, each
 admission and reinvestigation at most six, however often anything is delivered.
*/
module Bounds {
  import opened Model
  import opened Transactions
  import opened Pipeline
  import opened Invariants
  import opened Reachable
  import opened Deliveries

  // -------------------------------------------------------------------- sums

  ghost function Sum<K>(m: map<K, nat>): nat {
    if m == map[] then 0
    else
      var k :| k in m;
      m[k] + Sum(m - {k})
  }

  lemma {:induction false} SumRemove<K>(m: map<K, nat>, k: K)
    requires k in m
    ensures Sum(m) == m[k] + Sum(m - {k})
  {
    var first :| first in m && Sum(m) == m[first] + Sum(m - {first});
    if first != k {
      SumRemove(m - {first}, k);
      SumRemove(m - {k}, first);
      assert m - {first} - {k} == m - {k} - {first};
    }
  }

  lemma SumUpdate<K>(m: map<K, nat>, k: K, v: nat)
    ensures Sum(m[k := v]) == Sum(m) + v - if k in m then m[k] else 0
  {
    SumRemove(m[k := v], k);
    assert m[k := v] - {k} == m - {k};
    if k in m {
      SumRemove(m, k);
    } else {
      assert m - {k} == m;
    }
  }

  /** Lowering the entries of `order` by one each, and raising none, lowers the sum by the length of `order`. */
  lemma {:induction false} SumLowered<K>(m: map<K, nat>, m': map<K, nat>, order: seq<K>)
    requires m.Keys == m'.Keys
    requires forall k | k in order :: k in m && m'[k] + 1 <= m[k]
    requires forall k | k in m && k !in order :: m'[k] == m[k]
    requires forall i, j | 0 <= i < j < |order| :: order[i] != order[j]
    ensures Sum(m') + |order| <= Sum(m)
  {
    if order == [] {
      assert m == m';
    } else {
      var k, rest := order[0], order[1..];
      assert k in order;
      var between := m[k := m'[k]];
      assert forall j | 0 < j < |order| :: order[j] != order[0];
      assert forall j | 0 <= j < |rest| :: rest[j] == order[j + 1];
      assert forall q | q in order :: q == k || q in rest;
      SumLowered(between, m', rest);
      SumUpdate(m, k, m'[k]);
    }
  }

  // -------------------------------------------------------------- potentials

  /** How many more events the application's present round can send. */
  function AppRank(s: AppState): nat {
    match s
    case DiscoveryQueued => 2
    case ContextQueued => 1
    case _ => 0
  }

  /** How many more events the incident's present round can send. */
  function IncRank(s: IncState): nat {
    match s
    case WaitingForContext => 6
    case CollectionQueued => 5
    case AnalysisQueued => 4
    case ResolutionQueued => 3
    case AwaitingApproval => 2
    case ExecutionQueued => 1
    case _ => 0
  }

  function AppRanks(apps: map<AppId, Application>): map<AppId, nat> {
    map a | a in apps :: AppRank(apps[a].state)
  }

  function IncRanks(incidents: map<IncKey, Incident>): map<IncKey, nat> {
    map k | k in incidents :: IncRank(incidents[k].state)
  }

  ghost function Potential(db: Database): nat {
    Sum(AppRanks(db.apps)) + Sum(IncRanks(db.incidents))
  }

  lemma AppPotential(apps: map<AppId, Application>, a: AppId, row: Application)
    ensures Sum(AppRanks(apps[a := row])) ==
              Sum(AppRanks(apps)) + AppRank(row.state) - if a in apps then AppRank(apps[a].state) else 0
  {
    assert AppRanks(apps[a := row]) == AppRanks(apps)[a := AppRank(row.state)];
    SumUpdate(AppRanks(apps), a, AppRank(row.state));
  }

  lemma IncPotential(incidents: map<IncKey, Incident>, k: IncKey, row: Incident)
    ensures Sum(IncRanks(incidents[k := row])) ==
              Sum(IncRanks(incidents)) + IncRank(row.state) - if k in incidents then IncRank(incidents[k].state) else 0
  {
    assert IncRanks(incidents[k := row]) == IncRanks(incidents)[k := IncRank(row.state)];
    SumUpdate(IncRanks(incidents), k, IncRank(row.state));
  }

  // ------------------------------------------------------------ transactions

  /** The events a transaction adds, and the potential it leaves, exceed those before by at most `allowance`. */
  ghost predicate Costs(db: Database, db': Database, allowance: nat) {
    |db'.outbox| + Potential(db') <= |db.outbox| + Potential(db) + allowance
  }

  lemma OnboardCosts(db: Database, a: AppId, config: Config)
    requires Onboard(db, a, config).reply == Applied
    ensures Costs(db, Onboard(db, a, config).db, 3)
  {
    AppPotential(db.apps, a, Application(config, DiscoveryQueued, 1));
  }

  lemma ReviseCosts(db: Database, a: AppId, version: nat, config: Config)
    requires Revise(db, a, version, config).reply == Applied
    ensures Costs(db, Revise(db, a, version, config).db, 3)
  {
    AppPotential(db.apps, a, Application(config, DiscoveryQueued, version + 1));
  }

  lemma RefreshCosts(db: Database, a: AppId)
    requires Refresh(db, a).reply == Applied
    ensures Costs(db, Refresh(db, a).db, 3)
  {
    AppPotential(db.apps, a, db.apps[a].(state := DiscoveryQueued, version := db.apps[a].version + 1));
  }

  lemma CompleteAppCosts(db: Database, id: nat, expected: AppState, next: AppState, topic: Topic, result: Content)
    requires id < |db.outbox| && CompleteApp(db, id, expected, next, topic, result).reply == Applied
    requires AppRank(next) < AppRank(expected)
    ensures Costs(db, CompleteApp(db, id, expected, next, topic, result).db, 0)
  {
    var row := db.apps[db.outbox[id].app];
    AppPotential(db.apps, db.outbox[id].app, row.(state := next, version := row.version + 1));
  }

  lemma CompleteCosts(db: Database, id: nat, expected: IncState, next: IncState, result: Content, topic: Option<Topic>)
    requires id < |db.outbox| && db.outbox[id].incident.Some?
        && Complete(db, id, expected, next, result, topic).reply == Applied
    requires IncRank(next) + (if topic.Some? then 1 else 0) <= IncRank(expected)
    ensures Costs(db, Complete(db, id, expected, next, result, topic).db, 0)
  {
    var k := KeyOf(db.outbox[id]);
    IncPotential(db.incidents, k, db.incidents[k].(state := next, result := Some(result)));
  }

  lemma AdmitCosts(db: Database, k: IncKey, request: Request, now: Instant)
    requires Admit(db, k, request, now).reply == Applied
    ensures Costs(db, Admit(db, k, request, now).db, 6)
  {
    IncPotential(db.incidents, k, Admit(db, k, request, now).db.incidents[k]);
  }

  lemma ReinvestigateCosts(db: Database, k: IncKey, expected: Option<Content>, mode: Mode)
    requires Reinvestigate(db, k, expected, mode).reply == Applied
    ensures Costs(db, Reinvestigate(db, k, expected, mode).db, 6)
  {
    IncPotential(db.incidents, k, Reinvestigate(db, k, expected, mode).db.incidents[k]);
  }

  lemma DecideCosts(policies: Policies, db: Database, k: IncKey, plan: Plan, decision: Decision, event: Option<nat>,
                    now: Instant)
    requires event.Some? ==> event.value < |db.outbox| && db.outbox[event.value].topic == AuthorizationTopic
    requires Decide(policies, db, k, plan, decision, event, now).reply == Applied
    ensures Costs(db, Decide(policies, db, k, plan, decision, event, now).db, 0)
  {
    IncPotential(db.incidents, k, db.incidents[k].(state := StateAfter(decision)));
  }

  lemma ReleaseCosts(db: Database, id: nat, order: seq<IncKey>)
    requires id < |db.outbox| && AdmissionTopic(db.outbox[id].topic) && Enumerates(order, db, db.outbox[id].app)
    requires Release(db, id, order).reply == Applied
    ensures Costs(db, Release(db, id, order).db, 0)
  {
    SumLowered(IncRanks(db.incidents), IncRanks(Release(db, id, order).db.incidents), order);
  }

  /** A change never sends more than the rank it gives up. */
  lemma ChangeCosts(policies: Policies, db: Database, t: Task)
    requires ChangeOf(policies, db, t).Ok?
    ensures match ChangeOf(policies, db, t).value
            case AppChange(c) => AppRank(c.next) < AppRank(ExpectedAppState(db.outbox[t.id].topic))
            case IncChange(c) =>
              IncRank(c.next) + (if c.topic.Some? then 1 else 0) <= IncRank(ExpectedState(db.outbox[t.id].topic))
  {
  }

  lemma CommitCosts(policies: Policies, db: Database, t: Task)
    requires CommitTask(policies, db, t).reply == Applied
    ensures Costs(db, CommitTask(policies, db, t).db, 0)
  {
    ChangeCosts(policies, db, t);
    var e := db.outbox[t.id];
    match ChangeOf(policies, db, t).value
    case AppChange(c) => CompleteAppCosts(db, t.id, ExpectedAppState(e.topic), c.next, c.topic, c.result);
    case IncChange(c) => CompleteCosts(db, t.id, ExpectedState(e.topic), c.next, c.result, c.topic);
  }

  /** What a step is allowed: three events for an onboarding,
      revision or refresh, six for an admission or reinvestigation. */
  function Allowance(step: Action): nat {
    if step.OnboardAction? || step.ReviseAction? || step.RefreshAction? then 3
    else if step.AdmitAction? || step.ReinvestigateAction? then 6
    else 0
  }

  lemma NextCosts(policies: Policies, w: World, step: Action)
    requires NextDatabase(policies, w, step).reply == Applied
    ensures Costs(w.db, NextDatabase(policies, w, step).db, Allowance(step))
  {
    match step
    case OnboardAction(a, config) => OnboardCosts(w.db, a, config);
    case ReviseAction(a, version, config) => ReviseCosts(w.db, a, version, config);
    case RefreshAction(a) => RefreshCosts(w.db, a);
    case AdmitAction(k, request, now) => AdmitCosts(w.db, k, request, now);
    case ReinvestigateAction(k, expected, mode) => ReinvestigateCosts(w.db, k, expected, mode);
    case DecideAction(k, plan, decision, now) => DecideCosts(policies, w.db, k, plan, decision, None, now);
    case CommitAction(task) => CommitCosts(policies, w.db, task);
    case ReleaseAction(id, order) => ReleaseCosts(w.db, id, order);
    case AuthorizeAction(id, now) =>
      var e := w.db.outbox[id];
      DecideCosts(policies, w.db, KeyOf(e), ResolutionOf(e.refs[0]).plan.value, Approve, Some(id), now);
    case _ =>
  }

  // --------------------------------------------------------------------- runs

  /** Three for each onboarding, revision and refresh that was applied, six for each admission and reinvestigation. */
  ghost function Budget(policies: Policies, steps: seq<Action>): nat {
    if steps == [] then 0
    else
      var before, step := steps[..|steps| - 1], steps[|steps| - 1];
      Budget(policies, before)
      + if Transactional(step) && NextDatabase(policies, Run(policies, before), step).reply == Applied
          then Allowance(step) else 0
  }

  lemma {:induction false} RunCosts(policies: Policies, steps: seq<Action>)
    ensures |Run(policies, steps).db.outbox| + Potential(Run(policies, steps).db) <= Budget(policies, steps)
  {
    if steps == [] {
      assert AppRanks(EMPTY.apps) == map[] && IncRanks(EMPTY.incidents) == map[];
    } else {
      var before, step := steps[..|steps| - 1], steps[|steps| - 1];
      RunNext(policies, steps);
      RunCosts(policies, before);
      var w := Run(policies, before);
      if !Transactional(step) {
        OutsideKeepsDatabase(policies, w, step);
      } else if NextDatabase(policies, w, step).reply == Applied {
        NextCosts(policies, w, step);
      } else {
        OnlyAppliedWrites(policies, w, step);
      }
    }
  }

  /** The inbox entries of the events before `n`. */
  function Marks(outbox: seq<Envelope>, n: nat): set<(Consumer, nat)>
    requires n <= |outbox|
  {
    set i | 0 <= i < n :: (ConsumerOf(outbox[i].topic), i)
  }

  lemma {:induction false} MarksSize(outbox: seq<Envelope>, n: nat)
    requires n <= |outbox|
    ensures |Marks(outbox, n)| == n
  {
    if n == 0 {
      assert Marks(outbox, 0) == {};
    } else {
      MarksSize(outbox, n - 1);
      var last := (ConsumerOf(outbox[n - 1].topic), n - 1);
      assert Marks(outbox, n) == Marks(outbox, n - 1) + {last};
      assert last !in Marks(outbox, n - 1);
    }
  }

  lemma {:induction false} SubsetSize<T>(a: set<T>, b: set<T>)
    requires a <= b
    ensures |a| <= |b|
  {
    if a != {} {
      var x :| x in a;
      SubsetSize(a - {x}, b - {x});
    }
  }

  lemma InboxSize(db: Database)
    requires WellFormedRows(db)
    ensures |db.inbox| <= |db.outbox|
  {
    var marks := Marks(db.outbox, |db.outbox|);
    forall m | m in db.inbox ensures m in marks {
      assert (m.0, m.1) in db.inbox;
    }
    SubsetSize(db.inbox, marks);
    MarksSize(db.outbox, |db.outbox|);
  }

  lemma RunRowsWellFormed(policies: Policies, steps: seq<Action>)
    ensures WellFormedRows(Run(policies, steps).db)
  {
    RunInv(policies, steps);
  }

  /** Over every run no more events are consumed than were sent,
      and no more are sent than the operators' rounds allow. */
  lemma WorkIsBounded(policies: Policies, steps: seq<Action>)
    ensures |Run(policies, steps).db.inbox| <= |Run(policies, steps).db.outbox| <= Budget(policies, steps)
  {
    RunRowsWellFormed(policies, steps);
    InboxSize(Run(policies, steps).db);
    RunCosts(policies, steps);
  }

  /** What is left to do: events not yet handled, and those the present rounds may still send. */
  ghost function Remaining(db: Database): int {
    Potential(db) + |db.outbox| - |db.inbox|
  }

  /** Whenever a delivery takes effect there is strictly less
      left to do, and never less than nothing: deliveries end. */
  lemma DeliveriesEnd(policies: Policies, steps: seq<Action>)
    requires steps != [] && Run(policies, steps).db.inbox != Run(policies, steps[..|steps| - 1]).db.inbox
    ensures 0 <= Remaining(Run(policies, steps).db) < Remaining(Run(policies, steps[..|steps| - 1]).db)
  {
    var w, step := Run(policies, steps[..|steps| - 1]), steps[|steps| - 1];
    RunNext(policies, steps);
    if Transactional(step) {
      NextInbox(policies, w, step);
      DeliverySpends(policies, w, step);
    } else {
      OutsideKeepsDatabase(policies, w, step);
    }
    RunRowsWellFormed(policies, steps);
    InboxSize(Run(policies, steps).db);
  }

  lemma DeliverySpends(policies: Policies, w: World, step: Action)
    requires ConsumedBy(policies, w, step).Some?
    ensures Remaining(NextDatabase(policies, w, step).db) < Remaining(w.db)
  {
    NextInbox(policies, w, step);
    NextCosts(policies, w, step);
  }
}
