/**
 Exactly-once handling: whatever a run interleaves, duplicates or delivers
 late, its database is that of a sequential run that handles each consumed
 event once, reading and committing with nothing in between.
*/
module Sequential {
  import opened Model
  import opened Transactions
  import opened Pipeline
  import opened Invariants
  import opened IncidentSteps
  import opened Reachable
  import opened Safety
  import opened Deliveries

  /** The failure handlers of these stages build on the row they read. */
  predicate ReadsRow(t: Topic) {
    t in {ResolutionTopic, AuthorizationTopic, ExecutionTopic, VerificationTopic}
  }

  /** What a handler reading `db` itself, with the same answer, would commit. */
  predicate ReadNow(policies: Policies, db: Database, t: Task) {
    && t.id < |db.outbox| && !AdmissionTopic(db.outbox[t.id].topic)
    && match t
       case StageTask(id, _) => ReadCheck(policies, db, id) == Applied
       case FailTask(id, seen, _) => ReadsRow(db.outbox[id].topic) ==> seen == SeenBy(db, id)
  }

  /** One step of the sequential pipeline: a transaction, or a handler that reads and commits at once. */
  ghost function NextAlone(policies: Policies, db: Database, step: Action): Outcome {
    if step.CommitAction? then
      if ReadNow(policies, db, step.task) then CommitTask(policies, db, step.task) else Outcome(db, Unchanged)
    else if step.AuthorizeAction? then
      if AuthorizationId(db, step.id) then Authorize(policies, db, step.id, step.now) else Outcome(db, Unchanged)
    else NextDatabase(policies, World(db, {}, {}, {}, map[]), step)
  }

  ghost function RunAlone(policies: Policies, steps: seq<Action>): Database {
    if steps == [] then EMPTY
    else NextAlone(policies, RunAlone(policies, steps[..|steps| - 1]), steps[|steps| - 1]).db
  }

  /** The steps of a run that wrote, in order. */
  ghost function Effective(policies: Policies, steps: seq<Action>): seq<Action> {
    if steps == [] then []
    else
      var before := steps[..|steps| - 1];
      var step := steps[|steps| - 1];
      if Transactional(step) && NextDatabase(policies, Run(policies, before), step).reply == Applied
      then Effective(policies, before) + [step] else Effective(policies, before)
  }

  /** The event a transaction records, when it applies. */
  function EventOfStep(step: Action): Option<nat> {
    match step
    case CommitAction(task) => Some(task.id)
    case ReleaseAction(id, _) => Some(id)
    case AuthorizeAction(id, _) => Some(id)
    case _ => None
  }

  /** A commit that applies commits what a handler would read at that very moment. */
  lemma CommitReadsNow(policies: Policies, w: World, t: Task)
    requires WorldInv(policies, w) && t in w.tasks && CommitTask(policies, w.db, t).reply == Applied
    ensures ReadNow(policies, w.db, t)
  {
    var db := w.db;
    assert TaskOk(w, t);
    CommitRecords(policies, db, t);
    var e := db.outbox[t.id];
    assert WellFormedEvent(db, e);
    if StageId(db, t.id) {
      LiveStageReads(policies, db, t.id);
      LiveStage(policies, db, t.id);
    } else if OnboardingId(db, t.id) {
      assert e.topic == ContextTopic ==> e.refs[0] in e.refs;
    }
  }

  /** A step of a run is the sequential step of its database. */
  lemma NextIsAlone(policies: Policies, w: World, step: Action)
    requires WorldInv(policies, w) && Transactional(step) && NextDatabase(policies, w, step).reply == Applied
    ensures NextAlone(policies, w.db, step) == NextDatabase(policies, w, step)
  {
    if step.CommitAction? {
      CommitReadsNow(policies, w, step.task);
    } else if step.AuthorizeAction? {
      ApprovalReadsNow(policies, w.db, step.id, step.now);
    }
  }

  /** An approval that applies would pass the handler's checks at that very moment. */
  lemma ApprovalReadsNow(policies: Policies, db: Database, id: nat, now: Instant)
    requires Inv(policies, db) && AuthorizationId(db, id) && Approved(policies, db, id, now).reply == Applied
    ensures Authorize(policies, db, id, now) == Approved(policies, db, id, now)
  {
    AuthorizationReads(policies, db, id);
  }

  lemma NextKeeps(policies: Policies, w: World, step: Action)
    requires !Transactional(step) || NextDatabase(policies, w, step).reply != Applied
    ensures Next(policies, w, step).db == w.db
  {
    if Transactional(step) {
      OnlyAppliedWrites(policies, w, step);
    } else {
      OutsideKeepsDatabase(policies, w, step);
    }
  }

  /** Every run is equivalent to the sequential run of its effective steps; every other step is a stutter. */
  lemma {:induction false} RunIsSequential(policies: Policies, steps: seq<Action>)
    ensures RunAlone(policies, Effective(policies, steps)) == Run(policies, steps).db
  {
    if steps != [] {
      var before, step := steps[..|steps| - 1], steps[|steps| - 1];
      RunNext(policies, steps);
      RunIsSequential(policies, before);
      RunInv(policies, before);
      var w := Run(policies, before);
      if Transactional(step) && NextDatabase(policies, w, step).reply == Applied {
        NextIsAlone(policies, w, step);
        var done := Effective(policies, before);
        assert (done + [step])[..|done|] == done;
      } else {
        NextKeeps(policies, w, step);
      }
    }
  }

  /** Every effective delivery is in the inbox. */
  lemma {:induction false} EffectiveConsumed(policies: Policies, steps: seq<Action>, i: int)
    requires 0 <= i < |Effective(policies, steps)| && EventOfStep(Effective(policies, steps)[i]).Some?
    ensures Consumed(Run(policies, steps).db, EventOfStep(Effective(policies, steps)[i]).value)
  {
    if steps != [] {
      var before, step := steps[..|steps| - 1], steps[|steps| - 1];
      RunNext(policies, steps);
      var w := Run(policies, before);
      if i < |Effective(policies, before)| {
        EffectiveConsumed(policies, before, i);
        ConsumedStays(policies, before, step, EventOfStep(Effective(policies, before)[i]).value);
      } else {
        NextInbox(policies, w, step);
        assert ConsumedBy(policies, w, step) == EventOfStep(step);
      }
    }
  }

  lemma ConsumedStays(policies: Policies, before: seq<Action>, step: Action, id: nat)
    requires Consumed(Run(policies, before).db, id)
    ensures Consumed(Next(policies, Run(policies, before), step).db, id)
  {
    var w := Run(policies, before);
    if Transactional(step) {
      RunInv(policies, before);
      NextLawful(policies, w, step);
      assert NextDatabase(policies, w, step).db.outbox[id] == w.db.outbox[id];
    } else {
      OutsideKeepsDatabase(policies, w, step);
    }
  }

  /** No event is handled by two effective steps: each delivery counts once, however often it arrives. */
  lemma {:induction false} HandledOnce(policies: Policies, steps: seq<Action>, i: int, j: int)
    requires 0 <= i < j < |Effective(policies, steps)|
    requires EventOfStep(Effective(policies, steps)[i]).Some?
    ensures EventOfStep(Effective(policies, steps)[i]) != EventOfStep(Effective(policies, steps)[j])
  {
    if steps != [] {
      var before, step := steps[..|steps| - 1], steps[|steps| - 1];
      RunNext(policies, steps);
      var w := Run(policies, before);
      if j < |Effective(policies, before)| {
        HandledOnce(policies, before, i, j);
      } else {
        EffectiveConsumed(policies, before, i);
        NextInbox(policies, w, step);
      }
    }
  }

  /** Every inbox entry was put there by an effective step. */
  lemma {:induction false} InboxIsHandled(policies: Policies, steps: seq<Action>, id: nat)
    requires Consumed(Run(policies, steps).db, id)
    ensures exists i :: 0 <= i < |Effective(policies, steps)| && EventOfStep(Effective(policies, steps)[i]) == Some(id)
  {
    if steps != [] {
      var before, step := steps[..|steps| - 1], steps[|steps| - 1];
      RunNext(policies, steps);
      var w := Run(policies, before);
      var done := Effective(policies, steps);
      if Consumed(w.db, id) {
        InboxIsHandled(policies, before, id);
        var i :| 0 <= i < |Effective(policies, before)| && EventOfStep(Effective(policies, before)[i]) == Some(id);
        assert done[i] == Effective(policies, before)[i];
      } else {
        RunInv(policies, before);
        InboxEntryFromStep(policies, w, step, id);
        assert done[|done| - 1] == step;
      }
    }
  }

  lemma InboxEntryFromStep(policies: Policies, w: World, step: Action, id: nat)
    requires WorldInv(policies, w) && !Consumed(w.db, id) && Consumed(Next(policies, w, step).db, id)
    ensures Transactional(step) && NextDatabase(policies, w, step).reply == Applied && EventOfStep(step) == Some(id)
  {
    if !Transactional(step) || NextDatabase(policies, w, step).reply != Applied {
      NextKeeps(policies, w, step);
    } else {
      NextInbox(policies, w, step);
      NextLawful(policies, w, step);
    }
  }
}
