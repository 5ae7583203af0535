/**
 The registration of an application over a run: its versions, the revision log that gives back every
 configuration that was ever in force, and what a refresh may leave behind.
*/
module History {
  import opened Model
  import opened Transactions
  import opened Pipeline
  import opened Invariants
  import opened Reachable
  import opened Deliveries

  // ------------------------------------------------------------ revision log

  /** The entry with the greatest recorded version not above `v`. */
  function Below(revisions: Revisions, a: AppId, v: nat): Option<Config> {
    if (a, v) in revisions then Some(revisions[(a, v)]) else if v == 0 then None else Below(revisions, a, v - 1)
  }

  /** The first entry from `v` up to `bound`. */
  function Above(revisions: Revisions, a: AppId, v: nat, bound: nat): Option<Config>
    decreases bound + 1 - v
  {
    if v > bound then None
    else if (a, v) in revisions then Some(revisions[(a, v)])
    else Above(revisions, a, v + 1, bound)
  }

  /** The configuration the log gives for version `v`: the latest
      entry not after it, else the first one, else the present one. */
  function InForce(db: Database, a: AppId, v: nat): Config
    requires a in db.apps
  {
    match Below(db.revisions, a, v)
    case Some(c) => c
    case None =>
      match Above(db.revisions, a, v, db.apps[a].version)
      case Some(c) => c
      case None => db.apps[a].config
  }

  /** No entry is ahead of its application, and the latest one is the present configuration. */
  ghost predicate LogOk(db: Database, a: AppId) {
    && (forall v {:trigger (a, v) in db.revisions} | (a, v) in db.revisions ::
          a in db.apps && v <= db.apps[a].version && (Settled(db.apps[a].state) ==> v < db.apps[a].version))
    && (a in db.apps && Below(db.revisions, a, db.apps[a].version).Some? ==>
          Below(db.revisions, a, db.apps[a].version).value == db.apps[a].config)
  }

  lemma {:induction false} BelowSame(revisions: Revisions, revisions': Revisions, a: AppId, v: nat)
    requires forall u | u <= v :: (a, u) in revisions <==> (a, u) in revisions'
    requires forall u | u <= v && (a, u) in revisions :: revisions'[(a, u)] == revisions[(a, u)]
    ensures Below(revisions', a, v) == Below(revisions, a, v)
  {
    if v > 0 {
      BelowSame(revisions, revisions', a, v - 1);
    }
  }

  /** Past the last entry nothing is found; before it the bound does not matter. */
  lemma {:induction false} AboveBound(revisions: Revisions, a: AppId, v: nat, bound: nat, bound': nat)
    requires bound <= bound'
    requires forall u | bound < u <= bound' :: (a, u) !in revisions
    ensures Above(revisions, a, v, bound') == Above(revisions, a, v, bound)
    decreases bound' + 1 - v
  {
    if v <= bound' {
      AboveBound(revisions, a, v + 1, bound, bound');
    }
  }

  lemma {:induction false} BelowRange(revisions: Revisions, a: AppId, v: nat, w: nat)
    requires v <= w
    requires forall u | v < u <= w :: (a, u) !in revisions
    ensures Below(revisions, a, w) == Below(revisions, a, v)
    decreases w - v
  {
    if v < w {
      BelowRange(revisions, a, v, w - 1);
    }
  }

  /** Nothing recorded up to the version: the search upward from any version finds the first new entry. */
  lemma {:induction false} FirstNewEntry(revisions: Revisions, revisions': Revisions,
                                         a: AppId, v: nat, version: nat, bound: nat)
    requires v <= version < bound
    requires forall u | v <= u < version :: (a, u) in revisions <==> (a, u) in revisions'
    requires forall u | v <= u < version && (a, u) in revisions :: revisions'[(a, u)] == revisions[(a, u)]
    requires (a, version) !in revisions && (a, version) in revisions'
    ensures Above(revisions', a, v, bound) ==
              if Above(revisions, a, v, version).Some?
              then Above(revisions, a, v, version)
              else Some(revisions'[(a, version)])
    decreases version - v
  {
    if v < version {
      FirstNewEntry(revisions, revisions', a, v + 1, version, bound);
    }
  }

  /** A revision records both configurations under fresh versions and keeps every earlier answer of the log. */
  lemma ReviseLog(db: Database, a: AppId, version: nat, config: Config, v: nat)
    requires Revise(db, a, version, config).reply == Applied && LogOk(db, a) && v <= version
    ensures (a, version) !in db.revisions && (a, version + 1) !in db.revisions
    ensures InForce(Revise(db, a, version, config).db, a, v) == InForce(db, a, v)
    ensures LogOk(Revise(db, a, version, config).db, a)
  {
    var db' := Revise(db, a, version, config).db;
    assert (a, version) !in db.revisions && (a, version + 1) !in db.revisions;
    assert db'.revisions == db.revisions[(a, version) := db.apps[a].config][(a, version + 1) := config];
    if v < version {
      BelowSame(db.revisions, db'.revisions, a, v);
      FirstNewEntry(db.revisions, db'.revisions, a, v, version, version + 1);
    } else {
      assert Above(db.revisions, a, v, version).None?;
    }
  }

  /** The registration of `a` and its log are as before, and its version grew if its row changed. */
  ghost predicate RegistrationKept(db: Database, db': Database, a: AppId) {
    && (a in db.apps ==>
          && a in db'.apps
          && (db'.apps[a] == db.apps[a] || db.apps[a].version < db'.apps[a].version)
          && db'.apps[a].config == db.apps[a].config)
    && (forall u :: (a, u) in db'.revisions <==> (a, u) in db.revisions)
    && (forall u | (a, u) in db.revisions :: db'.revisions[(a, u)] == db.revisions[(a, u)])
  }

  /** A transaction that leaves the registration of the application alone keeps every answer of its log. */
  lemma KeptLog(db: Database, db': Database, a: AppId)
    requires LogOk(db, a) && RegistrationKept(db, db', a)
    ensures LogOk(db', a)
  {
    if a in db.apps {
      BelowRange(db.revisions, a, db.apps[a].version, db'.apps[a].version);
      BelowSame(db.revisions, db'.revisions, a, db'.apps[a].version);
    } else if a in db'.apps {
      BelowRange(db'.revisions, a, 0, db'.apps[a].version);
    }
  }

  lemma KeptAnswers(db: Database, db': Database, a: AppId, v: nat)
    requires LogOk(db, a) && RegistrationKept(db, db', a)
    requires a in db.apps && v <= db.apps[a].version
    ensures a in db'.apps && InForce(db', a, v) == InForce(db, a, v)
  {
    var n, n' := db.apps[a].version, db'.apps[a].version;
    BelowSame(db.revisions, db'.revisions, a, v);
    AboveBound(db.revisions, a, v, n, n');
    AboveSame(db.revisions, db'.revisions, a, v, n');
  }

  lemma {:induction false} AboveSame(revisions: Revisions, revisions': Revisions, a: AppId, v: nat, bound: nat)
    requires forall u :: (a, u) in revisions <==> (a, u) in revisions'
    requires forall u | (a, u) in revisions :: revisions'[(a, u)] == revisions[(a, u)]
    ensures Above(revisions', a, v, bound) == Above(revisions, a, v, bound)
    decreases bound + 1 - v
  {
    if v <= bound {
      AboveSame(revisions, revisions', a, v + 1, bound);
    }
  }

  lemma CommitKeeps(policies: Policies, db: Database, t: Task, a: AppId)
    ensures RegistrationKept(db, CommitTask(policies, db, t).db, a)
  {
    if CommitTask(policies, db, t).reply == Applied {
      CommitBeside(policies, db, t);
    }
  }

  lemma ReviseKeepsOthers(db: Database, b: AppId, version: nat, config: Config, a: AppId)
    requires a != b || Revise(db, b, version, config).reply != Applied
    ensures RegistrationKept(db, Revise(db, b, version, config).db, a)
  {
  }

  lemma DecideKeeps(policies: Policies, db: Database, k: IncKey, plan: Plan, decision: Decision, event: Option<nat>,
                    now: Instant, a: AppId)
    requires event.Some? ==> event.value < |db.outbox| && db.outbox[event.value].topic == AuthorizationTopic
    ensures RegistrationKept(db, Decide(policies, db, k, plan, decision, event, now).db, a)
  {
  }

  lemma ApprovedKeeps(policies: Policies, db: Database, id: nat, now: Instant, a: AppId)
    requires AuthorizationId(db, id)
    ensures RegistrationKept(db, Approved(policies, db, id, now).db, a)
  {
    var e := db.outbox[id];
    if |e.refs| == 1 && ResolutionOf(e.refs[0]).plan.Some? {
      DecideKeeps(policies, db, KeyOf(e), ResolutionOf(e.refs[0]).plan.value, Approve, Some(id), now, a);
    }
  }

  lemma ReinvestigateKeeps(db: Database, k: IncKey, expected: Option<Content>, mode: Mode, a: AppId)
    ensures RegistrationKept(db, Reinvestigate(db, k, expected, mode).db, a)
  {
  }

  /** Only an effective revision of the application changes its configuration or its log. */
  lemma NextRegistration(policies: Policies, w: World, step: Action, a: AppId)
    requires step.ReviseAction? && step.app == a ==> Revise(w.db, a, step.version, step.config).reply != Applied
    ensures RegistrationKept(w.db, NextDatabase(policies, w, step).db, a)
  {
    if step.CommitAction? || step.AuthorizeAction? {
      WorkersKeepRegistration(policies, w, step, a);
    } else if step.ReviseAction? || step.DecideAction? || step.ReinvestigateAction? {
      OperatorsKeepRegistration(policies, w, step, a);
    }
  }

  lemma WorkersKeepRegistration(policies: Policies, w: World, step: Action, a: AppId)
    requires step.CommitAction? || step.AuthorizeAction?
    ensures RegistrationKept(w.db, NextDatabase(policies, w, step).db, a)
  {
    if step.CommitAction? {
      CommitKeeps(policies, w.db, step.task, a);
    } else if AuthorizationId(w.db, step.id) {
      ApprovedKeeps(policies, w.db, step.id, step.now, a);
    }
  }

  lemma OperatorsKeepRegistration(policies: Policies, w: World, step: Action, a: AppId)
    requires step.ReviseAction? || step.DecideAction? || step.ReinvestigateAction?
    requires step.ReviseAction? && step.app == a ==> Revise(w.db, a, step.version, step.config).reply != Applied
    ensures RegistrationKept(w.db, NextDatabase(policies, w, step).db, a)
  {
    if step.ReviseAction? {
      ReviseKeepsOthers(w.db, step.app, step.version, step.config, a);
    } else if step.DecideAction? {
      DecideKeeps(policies, w.db, step.key, step.plan, step.decision, None, step.now, a);
    } else {
      ReinvestigateKeeps(w.db, step.key, step.expected, step.mode, a);
    }
  }

  predicate Revises(db: Database, step: Action, a: AppId) {
    step.ReviseAction? && step.app == a && Revise(db, a, step.version, step.config).reply == Applied
  }

  lemma NextLog(policies: Policies, w: World, step: Action, a: AppId)
    requires LogOk(w.db, a)
    ensures LogOk(NextDatabase(policies, w, step).db, a)
  {
    if Revises(w.db, step, a) {
      ReviseLog(w.db, a, step.version, step.config, 0);
    } else {
      NextRegistration(policies, w, step, a);
      KeptLog(w.db, NextDatabase(policies, w, step).db, a);
    }
  }

  lemma NextInForce(policies: Policies, w: World, step: Action, a: AppId, v: nat)
    requires LogOk(w.db, a) && a in w.db.apps && v <= w.db.apps[a].version
    ensures var db' := NextDatabase(policies, w, step).db;
            && a in db'.apps
            && InForce(db', a, v) == InForce(w.db, a, v)
            && (db'.apps[a] == w.db.apps[a] || w.db.apps[a].version < db'.apps[a].version)
  {
    if Revises(w.db, step, a) {
      ReviseLog(w.db, a, step.version, step.config, v);
    } else {
      NextRegistration(policies, w, step, a);
      KeptAnswers(w.db, NextDatabase(policies, w, step).db, a, v);
    }
  }

  /** Every step of the world is a database transaction or leaves the database alone. */
  lemma NextRegistry(policies: Policies, w: World, step: Action, a: AppId, v: nat)
    requires LogOk(w.db, a)
    ensures LogOk(Next(policies, w, step).db, a)
    ensures a in w.db.apps && v <= w.db.apps[a].version ==>
              var db' := Next(policies, w, step).db;
              && a in db'.apps
              && InForce(db', a, v) == InForce(w.db, a, v)
              && (db'.apps[a] == w.db.apps[a] || w.db.apps[a].version < db'.apps[a].version)
  {
    if Transactional(step) {
      NextLog(policies, w, step, a);
      if a in w.db.apps && v <= w.db.apps[a].version {
        NextInForce(policies, w, step, a, v);
      }
    } else {
      OutsideKeepsDatabase(policies, w, step);
    }
  }

  lemma {:induction false} RunLog(policies: Policies, steps: seq<Action>, a: AppId)
    ensures LogOk(Run(policies, steps).db, a)
  {
    if steps == [] {
    } else {
      RunNext(policies, steps);
      RunLog(policies, steps[..|steps| - 1], a);
      NextRegistry(policies, Run(policies, steps[..|steps| - 1]), steps[|steps| - 1], a, 0);
    }
  }

  lemma {:induction false} RunRegistry(policies: Policies, steps: seq<Action>, n: nat, a: AppId, v: nat)
    requires n <= |steps| && a in Run(policies, steps[..n]).db.apps && v <= Run(policies, steps[..n]).db.apps[a].version
    ensures var db, db' := Run(policies, steps[..n]).db, Run(policies, steps).db;
            && a in db'.apps
            && InForce(db', a, v) == InForce(db, a, v)
            && (db'.apps[a] == db.apps[a] || db.apps[a].version < db'.apps[a].version)
  {
    if n == |steps| {
      assert steps[..n] == steps;
    } else {
      var before := steps[..|steps| - 1];
      RunNext(policies, steps);
      assert before[..n] == steps[..n];
      RunRegistry(policies, before, n, a, v);
      RunLog(policies, before, a);
      NextRegistry(policies, Run(policies, before), steps[|steps| - 1], a, v);
    }
  }

  /** The revision log gives back the configuration of every version the application ever had, and a version
      number never stands for two different registrations. */
  lemma LogReconstructsHistory(policies: Policies, steps: seq<Action>, n: nat, a: AppId)
    requires n <= |steps| && a in Run(policies, steps[..n]).db.apps
    ensures var row := Run(policies, steps[..n]).db.apps[a];
            && a in Run(policies, steps).db.apps
            && InForce(Run(policies, steps).db, a, row.version) == row.config
            && (Run(policies, steps).db.apps[a].version == row.version ==> Run(policies, steps).db.apps[a] == row)
            && row.version <= Run(policies, steps).db.apps[a].version
  {
    var row := Run(policies, steps[..n]).db.apps[a];
    RunRegistry(policies, steps, n, a, row.version);
    RunLog(policies, steps[..n], a);
    PresentVersion(Run(policies, steps[..n]).db, a);
  }

  lemma PresentVersion(db: Database, a: AppId)
    requires a in db.apps && LogOk(db, a)
    ensures InForce(db, a, db.apps[a].version) == db.apps[a].config
  {
    if Below(db.revisions, a, db.apps[a].version).None? {
      assert Above(db.revisions, a, db.apps[a].version + 1, db.apps[a].version).None?;
    }
  }

  /** A revision never finds one of its two entries already recorded. */
  lemma RevisionRecordsBoth(policies: Policies, steps: seq<Action>, a: AppId, version: nat, config: Config)
    requires Revise(Run(policies, steps).db, a, version, config).reply == Applied
    ensures var db := Run(policies, steps).db;
            && (a, version) !in db.revisions && (a, version + 1) !in db.revisions
            && Revise(db, a, version, config).db.revisions ==
                 db.revisions[(a, version) := db.apps[a].config][(a, version + 1) := config]
  {
    RunLog(policies, steps, a);
  }

  /** While an incident is active, its service stays registered. */
  lemma ActiveServiceRegistered(policies: Policies, steps: seq<Action>, k: IncKey)
    requires k in Run(policies, steps).db.incidents && Active(Run(policies, steps).db.incidents[k].state)
    ensures var db := Run(policies, steps).db;
            k.app in db.apps && db.incidents[k].request.service in db.apps[k.app].config.services
  {
    RunInv(policies, steps);
    assert IncidentOk(policies, Run(policies, steps).db, k) && ScopeOk(Run(policies, steps).db, k);
  }
}
