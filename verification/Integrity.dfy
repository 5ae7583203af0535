/**
 Every reference resolves: whatever an event, a row, a baseline or the run history names is stored in
 the same application for the rest of the run, and an assessment leads back to its own incident's
 evidence, to a ready context and to the manifest that context was made from.
*/
module Integrity {
  import opened Model
  import opened Transactions
  import opened Pipeline
  import opened Invariants
  import opened Reachable
  import opened Repairs

  predicate Stored(db: Database, a: AppId, c: Option<Content>) {
    c.Some? ==> (a, c.value) in db.artifacts
  }

  /** What an event names. */
  lemma EventsResolve(policies: Policies, steps: seq<Action>, n: nat, i: nat)
    requires n <= |steps| && i < |Run(policies, steps[..n]).db.outbox|
    ensures var db, e := Run(policies, steps).db, Run(policies, steps[..n]).db.outbox[i];
            && i < |db.outbox| && db.outbox[i] == e
            && RefsStored(db, e.app, e.refs)
            && Stored(db, e.app, e.previous)
  {
    RunLater(policies, steps, n);
    RunInv(policies, steps);
    assert WellFormedEvent(Run(policies, steps).db, Run(policies, steps).db.outbox[i]);
  }

  /** What an incident's row, past or present, names. */
  lemma ResultsResolve(policies: Policies, steps: seq<Action>, n: nat, k: IncKey)
    requires n <= |steps| && k in Run(policies, steps[..n]).db.incidents
    ensures Stored(Run(policies, steps).db, k.app, Run(policies, steps[..n]).db.incidents[k].result)
  {
    RunLater(policies, steps, n);
    RunInv(policies, steps[..n]);
    assert IncidentOk(policies, Run(policies, steps[..n]).db, k) && RowOk(policies, Run(policies, steps[..n]).db, k);
  }

  /** What a baseline, past or present, names: a context, ready exactly if the baseline says so. */
  lemma BaselinesResolve(policies: Policies, steps: seq<Action>, n: nat, a: AppId)
    requires n <= |steps| && a in Run(policies, steps[..n]).db.baselines
    ensures var b := Run(policies, steps[..n]).db.baselines[a];
            && (a, b.ref) in Run(policies, steps).db.artifacts
            && b.ref.Context?
            && BaselineReady(b.ref) == (b.state == ContextReady)
  {
    RunLater(policies, steps, n);
    RunInv(policies, steps[..n]);
    BaselineSound(policies, Run(policies, steps[..n]).db, a);
  }

  lemma BaselineSound(policies: Policies, db: Database, a: AppId)
    requires Inv(policies, db) && a in db.baselines
    ensures var b := db.baselines[a];
            (a, b.ref) in db.artifacts && b.ref.Context? && BaselineReady(b.ref) == (b.state == ContextReady)
  {
    assert AppOk(db, a);
  }

  /** What the history of reinvestigations names, and that an assessment in it was the incident's own. */
  lemma RerunsResolve(policies: Policies, steps: seq<Action>, i: nat)
    requires i < |Run(policies, steps).db.runs|
    ensures var db := Run(policies, steps).db;
            var run := db.runs[i];
            && Stored(db, run.incident.app, run.previousResult)
            && (run.previousResult.Some? && run.previousResult.value.Assessment? ==>
                OwnAssessment(run.incident, run.previousResult.value))
  {
    RunInv(policies, steps);
  }

  /** Assessment, evidence, ready context and manifest are all stored in the application. */
  ghost predicate ChainStored(db: Database, a: AppId, c: Content) {
    && c.Assessment? && (a, c) in db.artifacts
    && c.evidence.Evidence? && (a, c.evidence) in db.artifacts
    && c.evidence.baseline.Context? && c.evidence.baseline.baselineReady && (a, c.evidence.baseline) in db.artifacts
    && c.evidence.baseline.manifest.Some?
    && var m := c.evidence.baseline.manifest.value;
    m.Manifest? && (a, m) in db.artifacts
  }

  lemma ChainOf(db: Database, a: AppId, c: Content)
    requires ArtifactsSound(db.artifacts) && (a, c) in db.artifacts && c.Assessment?
    ensures ChainStored(db, a, c)
  {
    assert SoundArtifact(db.artifacts, a, c);
    assert SoundArtifact(db.artifacts, a, c.evidence);
    assert SoundArtifact(db.artifacts, a, c.evidence.baseline);
  }

  /** Every assessment ever stored leads to its manifest, also at the end of the run. */
  lemma AssessmentChainStored(policies: Policies, steps: seq<Action>, n: nat, a: AppId, c: Content)
    requires n <= |steps| && (a, c) in Run(policies, steps[..n]).db.artifacts && c.Assessment?
    ensures ChainStored(Run(policies, steps).db, a, c)
  {
    RunLater(policies, steps, n);
    RunInv(policies, steps);
    ChainOf(Run(policies, steps).db, a, c);
  }

  /** An assessed incident is assessed on evidence collected for it, and so is the plan made for it. */
  lemma AssessedOnOwnEvidence(policies: Policies, steps: seq<Action>, k: IncKey)
    requires k in Run(policies, steps).db.incidents
    requires var s := Run(policies, steps).db.incidents[k].state; s in {Assessed, ResolutionQueued} || Late(s)
    ensures var db := Run(policies, steps).db;
            && db.incidents[k].result.Some?
            && var c := db.incidents[k].result.value;
            && ChainStored(db, k.app, c)
            && c.evidence.incident == k.incident
            && (c.resolution.plan.Some? ==> (k.app, c.resolution.plan.value.assessment) in db.artifacts)
  {
    var db := Run(policies, steps).db;
    RunInv(policies, steps);
    assert IncidentOk(policies, db, k) && RowOk(policies, db, k);
    ChainOf(db, k.app, db.incidents[k].result.value);
    assert SoundArtifact(db.artifacts, k.app, db.incidents[k].result.value);
  }
}
