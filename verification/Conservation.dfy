/**
 Messages and runs together: workers end their deliveries by what the store answered them,
 dispatchers publish and mark, and whatever stops anywhere, no event is lost.
*/
module Conservation {
  import opened Model
  import opened Transactions
  import opened Pipeline
  import opened Invariants
  import opened Reachable
  import opened Repairs
  import opened Deliveries
  import opened Broker

  /** The steps of the store and of the workers so far, the queues,
      and the rows whose publication a dispatcher saw confirmed. */
  datatype System = System(history: seq<Action>, queues: Queues, confirmed: set<nat>)

  /** How a worker's handler ended: it found its event recorded, its transaction replied, or it raised before that. */
  datatype Ending = FoundRecorded | Replied(action: Action) | Raised(fault: Fault)

  datatype SystemStep =
    | Work(action: Action)
    | Publishes(id: nat, confirmed: bool)
    | Marks(id: nat)
    | Ends(tag: nat, ending: Ending)
    | Fails(tag: nat, action: Action)
    | Moves(transfer: Transfer)

  const QUIET: System := System([], Queues(map[], 0), {})

  ghost function WorldOf(policies: Policies, s: System): World {
    Run(policies, s.history)
  }

  ghost function Db(policies: Policies, s: System): Database {
    WorldOf(policies, s).db
  }

  // ----------------------------------------------------------- workers' ends

  /** The transaction of a handler of event `id` whose reads are done. */
  ghost predicate WorksOn(w: World, action: Action, id: nat) {
    match action
    case CommitAction(t) => t.id == id && t.StageTask? && t in w.tasks
    case ReleaseAction(i, order) =>
      && i == id && id < |w.db.outbox| && AdmissionTopic(w.db.outbox[id].topic)
      && Enumerates(order, w.db, w.db.outbox[id].app)
    case AuthorizeAction(i, _) => i == id && i in w.approving && AuthorizationId(w.db, id)
    case _ => false
  }

  /** The transaction of `fail` for event `id`. */
  predicate FailsOn(w: World, action: Action, id: nat) {
    action.CommitAction? && action.task.id == id && action.task.FailTask? && action.task in w.tasks
  }

  ghost predicate CanEnd(w: World, id: nat, ending: Ending) {
    match ending
    case FoundRecorded => Consumed(w.db, id)
    case Replied(action) => WorksOn(w, action, id)
    case Raised(_) => true
  }

  function VerdictOn(reply: Reply): Verdict {
    match reply
    case Applied => Returns
    case Unchanged => Returns
    case Refused(Invalid) => RaisesInvalid
    case Refused(Unavailable) => RaisesOther
  }

  /** A handler that found its event recorded returns; else the
      store's answer decides, or the fault it raised before. */
  ghost function VerdictOf(policies: Policies, w: World, ending: Ending): Verdict {
    match ending
    case FoundRecorded => Returns
    case Replied(action) => VerdictOn(NextDatabase(policies, w, action).reply)
    case Raised(fault) => VerdictOn(Reply.Refused(fault))
  }

  ghost predicate Stores(policies: Policies, w: World, action: Action) {
    !NextDatabase(policies, w, action).reply.Refused?
  }

  /** The plan an authorization event asks for is decided already. */
  predicate AlreadyDecided(db: Database, id: nat) {
    && AuthorizationId(db, id)
    && EventPlan(db.outbox[id]).Some?
    && (KeyOf(db.outbox[id]), EventPlan(db.outbox[id]).value) in db.approvals
  }

  predicate Handled(db: Database, id: nat) {
    Consumed(db, id) || AlreadyDecided(db, id)
  }

  /** A commit that returns leaves its event recorded, a failure's too. */
  lemma CommitReturn(policies: Policies, db: Database, t: Task)
    requires !CommitTask(policies, db, t).reply.Refused?
    ensures Consumed(CommitTask(policies, db, t).db, t.id)
  {
    if CommitTask(policies, db, t).reply == Applied {
      CommitRecords(policies, db, t);
    }
  }

  lemma ReleaseReturn(db: Database, id: nat, order: seq<IncKey>)
    requires id < |db.outbox| && AdmissionTopic(db.outbox[id].topic) && forall k | k in order :: k in db.incidents
    requires !Release(db, id, order).reply.Refused?
    ensures Consumed(Release(db, id, order).db, id)
  {
    if Release(db, id, order).reply == Applied {
      ReleaseRecords(db, id, order);
    }
  }

  lemma ApprovalReturn(policies: Policies, db: Database, id: nat, now: Instant)
    requires Inv(policies, db) && AuthorizationId(db, id)
    requires !Approved(policies, db, id, now).reply.Refused?
    ensures Handled(Approved(policies, db, id, now).db, id)
  {
    var e := db.outbox[id];
    assert WellFormedEvent(db, e);
    assert IncidentOk(policies, db, KeyOf(e)) && LateEventsOk(db, KeyOf(e));
    assert EventOf(db, KeyOf(e), AuthorizationTopic, id);
    var plan := ResolutionOf(e.refs[0]).plan.value;
    if Decide(policies, db, KeyOf(e), plan, Approve, Some(id), now).reply == Applied {
      DecideRecords(policies, db, KeyOf(e), plan, Approve, Some(id), now);
    }
  }

  /** A worker that ends without an exception leaves its event recorded, or found its plan decided; one whose
      transaction was a commit, or whose failure was stored, leaves it recorded. */
  lemma ReturnMeansHandled(policies: Policies, w: World, action: Action, id: nat)
    requires WorldInv(policies, w) && (WorksOn(w, action, id) || FailsOn(w, action, id))
    requires !NextDatabase(policies, w, action).reply.Refused?
    ensures Handled(NextDatabase(policies, w, action).db, id)
    ensures action.CommitAction? || action.ReleaseAction? ==> Consumed(NextDatabase(policies, w, action).db, id)
  {
    match action
    case CommitAction(t) => CommitReturn(policies, w.db, t);
    case ReleaseAction(_, order) => ReleaseReturn(w.db, id, order);
    case AuthorizeAction(_, now) => ApprovalReturn(policies, w.db, id, now);
  }

  // ------------------------------------------------------------------- steps

  /** What a consumer, a relay or a lost connection does; the ends of workers are steps of their own. */
  predicate ByConsumer(t: Transfer) {
    !t.Arrive? && !t.Succeed? && !t.Refuse? && !t.Break? && !t.RecordFailure?
  }

  predicate ChangesStore(step: SystemStep) {
    step.Work? || step.Marks? || step.Ends? || step.Fails?
  }

  function Extended(history: seq<Action>, ending: Ending): seq<Action> {
    if ending.Replied? then history + [ending.action] else history
  }

  ghost function StoreNext(policies: Policies, max: nat, s: System, step: SystemStep): System
    requires ChangesStore(step)
  {
    match step
    case Work(action) => if action.PublishAction? then s else s.(history := s.history + [action])
    case Marks(id) => if id in s.confirmed then s.(history := s.history + [PublishAction({id})]) else s
    case Ends(tag, ending) =>
      if HeldAt(s.queues, tag, Fresh) && CanEnd(WorldOf(policies, s), s.queues.messages[tag].id, ending) then
        s.(history := Extended(s.history, ending),
           queues := QueuesNext(max, s.queues, EndOf(tag, VerdictOf(policies, WorldOf(policies, s), ending))))
      else s
    case Fails(tag, action) =>
      if HeldAt(s.queues, tag, Broken) && FailsOn(WorldOf(policies, s), action, s.queues.messages[tag].id) then
        s.(history := s.history + [action],
           queues := if Stores(policies, WorldOf(policies, s), action)
                     then QueuesNext(max, s.queues, RecordFailure(tag)) else s.queues)
      else s
  }

  ghost function TransferNext(policies: Policies, max: nat, s: System, step: SystemStep): System
    requires !ChangesStore(step)
  {
    match step
    case Publishes(id, confirmed) =>
      if id < |Db(policies, s).outbox| then
        s.(queues := QueuesNext(max, s.queues, Arrive(id)),
           confirmed := if confirmed then s.confirmed + {id} else s.confirmed)
      else s
    case Moves(t) => if ByConsumer(t) then s.(queues := QueuesNext(max, s.queues, t)) else s
  }

  ghost function SystemNext(policies: Policies, max: nat, s: System, step: SystemStep): System {
    if ChangesStore(step) then StoreNext(policies, max, s, step) else TransferNext(policies, max, s, step)
  }

  ghost function SystemRun(policies: Policies, max: nat, steps: seq<SystemStep>): System
    decreases |steps|, 2
  {
    if steps == [] then QUIET else SystemAdvance(policies, max, steps)
  }

  ghost function SystemAdvance(policies: Policies, max: nat, steps: seq<SystemStep>): System
    requires steps != []
    decreases |steps|, 1
  {
    if ChangesStore(steps[|steps| - 1])
    then SystemWrites(policies, max, steps)
    else SystemTransfers(policies, max, steps)
  }

  ghost function SystemWrites(policies: Policies, max: nat, steps: seq<SystemStep>): System
    requires steps != [] && ChangesStore(steps[|steps| - 1])
    decreases |steps|, 0
  {
    StoreNext(policies, max, SystemRun(policies, max, steps[..|steps| - 1]), steps[|steps| - 1])
  }

  ghost function SystemTransfers(policies: Policies, max: nat, steps: seq<SystemStep>): System
    requires steps != [] && !ChangesStore(steps[|steps| - 1])
    decreases |steps|, 0
  {
    TransferNext(policies, max, SystemRun(policies, max, steps[..|steps| - 1]), steps[|steps| - 1])
  }

  lemma SystemRunNext(policies: Policies, max: nat, steps: seq<SystemStep>)
    requires steps != []
    ensures SystemRun(policies, max, steps) ==
              SystemNext(policies, max, SystemRun(policies, max, steps[..|steps| - 1]), steps[|steps| - 1])
  {
    var before, step := SystemRun(policies, max, steps[..|steps| - 1]), steps[|steps| - 1];
    if ChangesStore(step) {
      assert SystemWrites(policies, max, steps) == StoreNext(policies, max, before, step);
    } else {
      assert SystemTransfers(policies, max, steps) == TransferNext(policies, max, before, step);
    }
  }

  // ------------------------------------------------------------- conservation

  /** A copy that no acknowledgement is about to remove. */
  predicate Solid(m: Message) {
    m.place != Held(Answered) && m.place != Retry(true)
  }

  predicate Carries(q: Queues, id: nat, tag: nat) {
    tag in q.messages && q.messages[tag].id == id && Solid(q.messages[tag])
  }

  ghost predicate Secured(db: Database, q: Queues, id: nat) {
    Handled(db, id) || exists tag :: Carries(q, id, tag)
  }

  predicate MessageOk(max: nat, db: Database, m: Message) {
    && m.id < |db.outbox|
    && 1 <= m.attempt <= max
    && (m.place == Dead(true) || m.place == Held(FailureRecorded) ==> Consumed(db, m.id) && m.attempt == max)
  }

  ghost predicate QueuesOk(max: nat, db: Database, q: Queues) {
    forall tag {:trigger q.messages[tag]} | tag in q.messages :: tag < q.next && MessageOk(max, db, q.messages[tag])
  }

  ghost predicate SystemOk(max: nat, db: Database, s: System) {
    && QueuesOk(max, db, s.queues)
    && (forall id {:trigger Secured(db, s.queues, id)} | id in s.confirmed || id in db.published ::
          Secured(db, s.queues, id))
  }

  /** What the database must show for a transfer to lose nothing. */
  predicate Allowed(db: Database, q: Queues, t: Transfer) {
    match t
    case Arrive(id) => id < |db.outbox|
    case Succeed(tag) => tag in q.messages ==> Handled(db, q.messages[tag].id)
    case RecordFailure(tag) => tag in q.messages ==> Consumed(db, q.messages[tag].id)
    case _ => true
  }

  /** A transfer keeps every event that is not handled on a solid copy. */
  lemma TransferSecures(max: nat, db: Database, q: Queues, t: Transfer, id: nat)
    requires QueuesOk(max, db, q) && Secured(db, q, id)
    requires Allowed(db, q, t)
    ensures Secured(db, QueuesNext(max, q, t), id)
  {
    if !Handled(db, id) {
      var tag: nat :| Carries(q, id, tag);
      var q' := QueuesNext(max, q, t);
      assert tag < q.next;
      assert Carries(q', id, tag) || Carries(q', id, q.next);
    }
  }

  lemma HandledStays(db: Database, db': Database, id: nat)
    requires Extends(db, db') && Handled(db, id)
    ensures Handled(db', id)
  {
    assert db'.outbox[id] == db.outbox[id];
  }

  lemma DatabaseKeepsQueues(max: nat, db: Database, db': Database, q: Queues)
    requires Extends(db, db') && QueuesOk(max, db, q)
    ensures QueuesOk(max, db', q)
  {
    forall tag | tag in q.messages ensures tag < q.next && MessageOk(max, db', q.messages[tag]) {
      assert MessageOk(max, db, q.messages[tag]);
    }
  }

  /** A longer history extends the database. */
  lemma HistoryExtends(policies: Policies, history: seq<Action>, action: Action)
    ensures Extends(Run(policies, history).db, Run(policies, history + [action]).db)
    ensures !action.PublishAction? ==>
              Run(policies, history + [action]).db.published == Run(policies, history).db.published
    ensures action.PublishAction? ==>
              Run(policies, history + [action]).db.published <= Run(policies, history).db.published + action.ids
  {
    RunThen(policies, history, action);
    RunInv(policies, history);
    NextInside(policies, Run(policies, history), action);
    NextPublished(policies, Run(policies, history), action);
  }

  lemma CommitPublished(policies: Policies, db: Database, t: Task)
    ensures CommitTask(policies, db, t).db.published == db.published
  {
    if CommitTask(policies, db, t).reply == Applied {
      CommitBeside(policies, db, t);
    }
  }

  lemma NextPublished(policies: Policies, w: World, action: Action)
    ensures !action.PublishAction? ==> Next(policies, w, action).db.published == w.db.published
    ensures action.PublishAction? ==> Next(policies, w, action).db.published <= w.db.published + action.ids
  {
    if !Transactional(action) {
      OutsideKeepsDatabase(policies, w, action);
    } else if action.CommitAction? {
      CommitPublished(policies, w.db, action.task);
    } else if action.AuthorizeAction? && AuthorizationId(w.db, action.id) {
      ApprovedPublished(policies, w.db, action.id, action.now);
    }
  }

  lemma ApprovedPublished(policies: Policies, db: Database, id: nat, now: Instant)
    requires AuthorizationId(db, id)
    ensures Approved(policies, db, id, now).db.published == db.published
  {
  }

  lemma HistoryKeeps(policies: Policies, max: nat, s: System, action: Action)
    requires SystemOk(max, Db(policies, s), s)
    requires action.PublishAction? ==> action.ids <= s.confirmed
    ensures SystemOk(max, Db(policies, s.(history := s.history + [action])), s.(history := s.history + [action]))
  {
    var db := Db(policies, s);
    var db' := Run(policies, s.history + [action]).db;
    HistoryExtends(policies, s.history, action);
    DatabaseKeepsQueues(max, db, db', s.queues);
    forall id | id in s.confirmed || id in db'.published ensures Secured(db', s.queues, id) {
      assert Secured(db, s.queues, id);
      if Handled(db, id) {
        HandledStays(db, db', id);
      }
    }
  }

  lemma TransferKeeps(policies: Policies, max: nat, s: System, t: Transfer, confirmed: set<nat>)
    requires max >= 1 && SystemOk(max, Db(policies, s), s)
    requires Allowed(Db(policies, s), s.queues, t)
    requires confirmed <= s.confirmed + if t.Arrive? then {t.id} else {}
    ensures SystemOk(max, Db(policies, s), s.(queues := QueuesNext(max, s.queues, t), confirmed := confirmed))
  {
    var db := Db(policies, s);
    var q' := QueuesNext(max, s.queues, t);
    forall id | id in confirmed || id in db.published ensures Secured(db, q', id) {
      if t.Arrive? && id == t.id {
        assert Carries(q', id, s.queues.next);
      } else {
        assert Secured(db, s.queues, id);
        TransferSecures(max, db, s.queues, t, id);
      }
    }
  }

  /** The database after a longer history is the one its last step leaves. */
  lemma HistoryDatabase(policies: Policies, s: System, action: Action)
    requires Transactional(action)
    ensures Db(policies, s.(history := s.history + [action])) == NextDatabase(policies, WorldOf(policies, s), action).db
  {
    RunThen(policies, s.history, action);
  }

  /** A worker's end makes only transfers that the database it leaves allows. */
  lemma EndAllowed(policies: Policies, s: System, tag: nat, ending: Ending)
    requires HeldAt(s.queues, tag, Fresh) && CanEnd(WorldOf(policies, s), s.queues.messages[tag].id, ending)
    ensures Allowed(Db(policies, s.(history := Extended(s.history, ending))), s.queues,
                    EndOf(tag, VerdictOf(policies, WorldOf(policies, s), ending)))
  {
    RunInv(policies, s.history);
    if ending.Replied? && VerdictOf(policies, WorldOf(policies, s), ending) == Returns {
      HistoryDatabase(policies, s, ending.action);
      ReturnMeansHandled(policies, WorldOf(policies, s), ending.action, s.queues.messages[tag].id);
    }
  }

  lemma EndKeeps(policies: Policies, max: nat, s: System, tag: nat, ending: Ending)
    requires max >= 1 && SystemOk(max, Db(policies, s), s)
    requires HeldAt(s.queues, tag, Fresh) && CanEnd(WorldOf(policies, s), s.queues.messages[tag].id, ending)
    ensures var s' := StoreNext(policies, max, s, Ends(tag, ending)); SystemOk(max, Db(policies, s'), s')
  {
    var longer := s.(history := Extended(s.history, ending));
    if ending.Replied? {
      HistoryKeeps(policies, max, s, ending.action);
    }
    EndAllowed(policies, s, tag, ending);
    TransferKeeps(policies, max, longer, EndOf(tag, VerdictOf(policies, WorldOf(policies, s), ending)), s.confirmed);
  }

  lemma FailureKeeps(policies: Policies, max: nat, s: System, tag: nat, action: Action)
    requires max >= 1 && SystemOk(max, Db(policies, s), s)
    requires HeldAt(s.queues, tag, Broken) && FailsOn(WorldOf(policies, s), action, s.queues.messages[tag].id)
    ensures var s' := StoreNext(policies, max, s, Fails(tag, action)); SystemOk(max, Db(policies, s'), s')
  {
    HistoryKeeps(policies, max, s, action);
    if Stores(policies, WorldOf(policies, s), action) {
      RunInv(policies, s.history);
      HistoryDatabase(policies, s, action);
      ReturnMeansHandled(policies, WorldOf(policies, s), action, s.queues.messages[tag].id);
      TransferKeeps(policies, max, s.(history := s.history + [action]), RecordFailure(tag), s.confirmed);
    }
  }

  lemma SystemNextOk(policies: Policies, max: nat, s: System, step: SystemStep)
    requires max >= 1 && SystemOk(max, Db(policies, s), s)
    ensures SystemOk(max, Db(policies, SystemNext(policies, max, s, step)), SystemNext(policies, max, s, step))
  {
    match step
    case Work(action) =>
      if !action.PublishAction? {
        HistoryKeeps(policies, max, s, action);
      }
    case Marks(id) =>
      if id in s.confirmed {
        HistoryKeeps(policies, max, s, PublishAction({id}));
      }
    case Publishes(id, confirmed) =>
      if id < |Db(policies, s).outbox| {
        TransferKeeps(policies, max, s, Arrive(id), if confirmed then s.confirmed + {id} else s.confirmed);
      }
    case Moves(t) =>
      if ByConsumer(t) {
        TransferKeeps(policies, max, s, t, s.confirmed);
      }
    case Ends(tag, ending) =>
      if HeldAt(s.queues, tag, Fresh) && CanEnd(WorldOf(policies, s), s.queues.messages[tag].id, ending) {
        EndKeeps(policies, max, s, tag, ending);
      }
    case Fails(tag, action) =>
      if HeldAt(s.queues, tag, Broken) && FailsOn(WorldOf(policies, s), action, s.queues.messages[tag].id) {
        FailureKeeps(policies, max, s, tag, action);
      }
  }

  lemma {:induction false} SystemRunOk(policies: Policies, max: nat, steps: seq<SystemStep>)
    requires max >= 1
    ensures SystemOk(max, Db(policies, SystemRun(policies, max, steps)), SystemRun(policies, max, steps))
  {
    if steps != [] {
      SystemRunNext(policies, max, steps);
      SystemRunOk(policies, max, steps[..|steps| - 1]);
      SystemNextOk(policies, max, SystemRun(policies, max, steps[..|steps| - 1]), steps[|steps| - 1]);
    }
  }

  /** Messages are conserved: at any moment of any run every event is still unpublished, or on a copy in some
      queue or hand that no acknowledgement is about to remove, or handled. */
  lemma EventsConserved(policies: Policies, max: nat, steps: seq<SystemStep>, id: nat)
    requires max >= 1 && id < |Db(policies, SystemRun(policies, max, steps)).outbox|
    ensures var s := SystemRun(policies, max, steps);
            var db := Db(policies, s);
            || id !in db.published
            || (exists tag :: Carries(s.queues, id, tag))
            || Consumed(db, id)
            || AlreadyDecided(db, id)
  {
    SystemRunOk(policies, max, steps);
    var s := SystemRun(policies, max, steps);
    if id in Db(policies, s).published {
      assert Secured(Db(policies, s), s.queues, id);
    }
  }

  /** No delivery is attempted more often than allowed, and what
      exhausted its attempts is recorded before it is put aside. */
  lemma AttemptsBounded(policies: Policies, max: nat, steps: seq<SystemStep>, tag: nat)
    requires max >= 1 && tag in SystemRun(policies, max, steps).queues.messages
    ensures var s := SystemRun(policies, max, steps);
            var m := s.queues.messages[tag];
            && 1 <= m.attempt <= max
            && (m.place == Dead(true) ==> m.attempt == max && Consumed(Db(policies, s), m.id))
  {
    SystemRunOk(policies, max, steps);
    var s := SystemRun(policies, max, steps);
    assert MessageOk(max, Db(policies, s), s.queues.messages[tag]);
  }

  // ------------------------------------------------- an undisturbed delivery

  /** A delivery from its worker's end to its acknowledgement with nothing in between; `failing` is the
      transaction `fail` got as far as, if any. */
  ghost function Delivered(policies: Policies, max: nat, s: System, tag: nat, ending: Ending, failing: Option<Action>,
                           moved: bool): System
    requires tag in s.queues.messages
  {
    Concluded(policies, max, SystemNext(policies, max, s, Ends(tag, ending)), tag, s.queues.messages[tag].attempt,
              VerdictOf(policies, WorldOf(policies, s), ending), failing, moved)
  }

  /** What the consumer makes of the worker's verdict. */
  ghost function Concluded(policies: Policies, max: nat, ended: System, tag: nat, attempt: nat, verdict: Verdict,
                           failing: Option<Action>, moved: bool): System
  {
    match verdict
    case Returns => SystemNext(policies, max, ended, Moves(Ack(tag)))
    case RaisesInvalid => PassedOn(policies, max, ended, tag, Bury(tag), moved)
    case RaisesOther =>
      if attempt < max then PassedOn(policies, max, ended, tag, RetryLater(tag), moved)
      else Exhausted(policies, max, ended, tag, failing, moved)
  }

  ghost function Exhausted(policies: Policies, max: nat, ended: System, tag: nat, failing: Option<Action>,
                           moved: bool): System
  {
    if failing.None? then SystemNext(policies, max, ended, Moves(Nack(tag)))
    else
      var failed := SystemNext(policies, max, ended, Fails(tag, failing.value));
      var stored := Stores(policies, WorldOf(policies, ended), failing.value);
      PassedOn(policies, max, failed, tag, Bury(tag), moved && stored)
  }

  /** The transfer and the acknowledgement, or the delivery handed back. */
  ghost function PassedOn(policies: Policies, max: nat, s: System, tag: nat, t: Transfer, moved: bool): System {
    if moved then SystemNext(policies, max, SystemNext(policies, max, s, Moves(t)), Moves(Ack(tag)))
    else SystemNext(policies, max, s, Moves(Nack(tag)))
  }

  /** The store's answers decide what an undisturbed delivery comes to: exactly what the consumer's method makes
      of the verdict and of whether the failure was stored. */
  lemma DeliveryIsTreatment(policies: Policies, max: nat, s: System, tag: nat, ending: Ending,
                            failing: Option<Action>, moved: bool)
    requires HeldAt(s.queues, tag, Fresh) && tag < s.queues.next
    requires CanEnd(WorldOf(policies, s), s.queues.messages[tag].id, ending)
    requires var ended := SystemNext(policies, max, s, Ends(tag, ending));
             failing.Some? ==> FailsOn(WorldOf(policies, ended), failing.value, s.queues.messages[tag].id)
    ensures var ended := SystemNext(policies, max, s, Ends(tag, ending));
            var stored := failing.Some? && Stores(policies, WorldOf(policies, ended), failing.value);
            Delivered(policies, max, s, tag, ending, failing, moved).queues ==
              QueuesRun(max, s.queues, Treatment(max, s.queues.messages[tag].attempt, tag,
                                                 VerdictOf(policies, WorldOf(policies, s), ending), stored, moved))
  {
    var verdict := VerdictOf(policies, WorldOf(policies, s), ending);
    var ended := SystemNext(policies, max, s, Ends(tag, ending));
    var stored := failing.Some? && Stores(policies, WorldOf(policies, ended), failing.value);
    var attempt := s.queues.messages[tag].attempt;
    RunFirst(max, s.queues, EndOf(tag, verdict), Aftermath(max, attempt, tag, verdict, stored, moved));
    ConcludedQueues(policies, max, ended, tag, attempt, verdict, failing, moved);
  }

  lemma ConcludedQueues(policies: Policies, max: nat, ended: System, tag: nat, attempt: nat, verdict: Verdict,
                        failing: Option<Action>, moved: bool)
    requires tag in ended.queues.messages && ended.queues.messages[tag].attempt == attempt
    requires verdict == RaisesOther ==> HeldAt(ended.queues, tag, Broken)
    requires failing.Some? ==> FailsOn(WorldOf(policies, ended), failing.value, ended.queues.messages[tag].id)
    ensures var stored := failing.Some? && Stores(policies, WorldOf(policies, ended), failing.value);
            Concluded(policies, max, ended, tag, attempt, verdict, failing, moved).queues ==
              QueuesRun(max, ended.queues, Aftermath(max, attempt, tag, verdict, stored, moved))
  {
    match verdict
    case Returns => RunFirst(max, ended.queues, Ack(tag), []);
    case RaisesInvalid => PassedQueues(policies, max, ended, tag, Bury(tag), moved);
    case RaisesOther =>
      if attempt < max {
        PassedQueues(policies, max, ended, tag, RetryLater(tag), moved);
      } else {
        ExhaustedQueues(policies, max, ended, tag, failing, moved);
      }
  }

  lemma PassedQueues(policies: Policies, max: nat, s: System, tag: nat, t: Transfer, moved: bool)
    requires ByConsumer(t)
    ensures PassedOn(policies, max, s, tag, t, moved).queues ==
              QueuesRun(max, s.queues, if moved then [t, Ack(tag)] else [Nack(tag)])
  {
    if moved {
      RunFirst(max, s.queues, t, [Ack(tag)]);
      RunFirst(max, QueuesNext(max, s.queues, t), Ack(tag), []);
    } else {
      RunFirst(max, s.queues, Nack(tag), []);
    }
  }

  /** The last attempt broke down: the failure is stored and the delivery put aside, or it is handed back. */
  lemma ExhaustedQueues(policies: Policies, max: nat, ended: System, tag: nat, failing: Option<Action>, moved: bool)
    requires HeldAt(ended.queues, tag, Broken) && ended.queues.messages[tag].attempt >= max
    requires failing.Some? ==> FailsOn(WorldOf(policies, ended), failing.value, ended.queues.messages[tag].id)
    ensures var stored := failing.Some? && Stores(policies, WorldOf(policies, ended), failing.value);
            var rest := Aftermath(max, ended.queues.messages[tag].attempt, tag, RaisesOther, stored, moved);
            Exhausted(policies, max, ended, tag, failing, moved).queues == QueuesRun(max, ended.queues, rest)
  {
    if failing.None? {
      RunFirst(max, ended.queues, Nack(tag), []);
    } else {
      var failed := SystemNext(policies, max, ended, Fails(tag, failing.value));
      var stored := Stores(policies, WorldOf(policies, ended), failing.value);
      RunFirst(max, ended.queues, RecordFailure(tag), if moved then [Bury(tag), Ack(tag)] else [Nack(tag)]);
      PassedQueues(policies, max, failed, tag, Bury(tag), moved && stored);
    }
  }
}
