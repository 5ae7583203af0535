/**
 The disposable validation target: one service whose only repair is recorded under an idempotency key
 in the same transaction that carries it out.
*/
module Executor {
  import opened Model

  datatype RepairBody = RepairBody(action: string, service: string, expectedRevision: int)

  /** A row of the `actions` table, in the order of insertion. */
  datatype ActionRow = ActionRow(key: ActionKey, body: RepairBody)

  datatype Target = Target(
    service: string,
    action: string,
    faulty: bool,
    revision: int,
    lastAction: Option<ActionKey>,
    rows: seq<ActionRow>)

  datatype HttpReply =
    | BadContract
    | IdempotencyConflict
    | TargetChanged
    | Receipt(service: string, actionId: ActionKey)

  predicate HasRow(t: Target, key: ActionKey) {
    exists i | 0 <= i < |t.rows| :: t.rows[i].key == key
  }

  function RowIndex(rows: seq<ActionRow>, key: ActionKey): (i: nat)
    requires exists j | 0 <= j < |rows| :: rows[j].key == key
    ensures i < |rows| && rows[i].key == key
  {
    if rows[0].key == key then 0 else RowIndex(rows[1..], key) + 1
  }

  function Repair(t: Target, key: ActionKey, body: RepairBody): (Target, HttpReply) {
    if body.action != t.action || body.service != t.service then (t, BadContract)
    else if HasRow(t, key) then
      (t, if t.rows[RowIndex(t.rows, key)].body != body then IdempotencyConflict else Receipt(t.service, key))
    else if !t.faulty || t.revision != body.expectedRevision then (t, TargetChanged)
    else
      (t.(faulty := false, revision := t.revision + 1, lastAction := Some(key),
          rows := t.rows + [ActionRow(key, body)]),
       Receipt(t.service, key))
  }

  /** The key was first recorded with this request. */
  predicate FirstAsked(t: Target, key: ActionKey, body: RepairBody) {
    exists i | 0 <= i < |t.rows| :: t.rows[i] == ActionRow(key, body) && forall j | 0 <= j < i :: t.rows[j].key != key
  }

  /** A request is the target's if it names its service and action. A known
      key is answered by whether the request is the one it was recorded with;
      a new one is carried out exactly on the fault and revision it expects. */
  lemma RepairExactly(t: Target, key: ActionKey, body: RepairBody)
    ensures var (t', reply) := Repair(t, key, body);
            var ours := body.action == t.action && body.service == t.service;
            var known := exists i | 0 <= i < |t.rows| :: t.rows[i].key == key;
            var expected := t.faulty && t.revision == body.expectedRevision;
            && (reply == BadContract <==> !ours)
            && (reply == IdempotencyConflict <==> ours && known && !FirstAsked(t, key, body))
            && (reply == TargetChanged <==> ours && !known && !expected)
            && (reply.Receipt? ==> reply == Receipt(t.service, key))
            && t' == if ours && !known && expected
                     then Target(t.service, t.action, false, t.revision + 1, Some(key), t.rows + [ActionRow(key, body)])
                     else t
  {
    if HasRow(t, key) {
      RowIndexFirst(t.rows, key);
    }
  }

  /** `/diagnostic`. */
  function Diagnose(t: Target, failureCode: string, now: Instant): Observation {
    Observation(t.service, !t.faulty, if t.faulty then Some(failureCode) else None, now, t.revision, t.lastAction)
  }

  // -------------------------------------------------------------- the server

  class ValidationTarget {
    const service: string
    const action: string
    const failureCode: string
    var faulty: bool
    var revision: int
    var lastAction: Option<ActionKey>
    var rows: seq<ActionRow>

    function View(): Target
      reads this
    {
      Target(service, action, faulty, revision, lastAction, rows)
    }

    /** A fresh database: faulty, at revision one, nothing recorded. */
    constructor (service: string, action: string, failureCode: string)
      ensures View() == Target(service, action, true, 1, None, []) && this.failureCode == failureCode
    {
      this.service, this.action, this.failureCode := service, action, failureCode;
      faulty, revision, lastAction, rows := true, 1, None, [];
    }

    method DoPost(key: ActionKey, body: RepairBody) returns (reply: HttpReply)
      modifies this`faulty, this`revision, this`lastAction, this`rows
      ensures (View(), reply) == Repair(old(View()), key, body)
    {
      if body.action != action || body.service != service {
        return BadContract;
      }
      var i := 0;
      while i < |rows| && rows[i].key != key
        invariant i <= |rows|
        invariant forall j | 0 <= j < i :: rows[j].key != key
      {
        i := i + 1;
      }
      if i < |rows| {
        FirstRow(rows, key, i);
        return if rows[i].body != body then IdempotencyConflict else Receipt(service, key);
      }
      if !faulty || revision != body.expectedRevision {
        return TargetChanged;
      }
      faulty, revision, lastAction := false, revision + 1, Some(key);
      rows := rows + [ActionRow(key, body)];
      reply := Receipt(service, key);
    }

    /** After any requests and faults since it was faulty, the diagnostic is healthy and names a key exactly if
        the target was repaired under that key and no fault has come since. */
    method Diagnostic(now: Instant, ghost start: Target, ghost events: seq<TargetEvent>) returns (o: Observation)
      requires start.faulty && View() == TargetAfter(start, events)
      ensures o == Diagnose(View(), failureCode, now)
      ensures o.service == start.service && o.failureCode.None? == o.healthy
      ensures forall key ::
                o.healthy && o.lastAction == Some(key) <==> StillRepaired(start, events, key)
    {
      TargetForgetsNothing(start, events);
      forall key ensures !faulty && lastAction == Some(key) <==> StillRepaired(start, events, key) {
        HealthyIffRepaired(start, events, key);
      }
      o := Observation(service, !faulty, if faulty then Some(failureCode) else None, now, revision, lastAction);
    }
  }

  lemma {:induction false} FirstRow(rows: seq<ActionRow>, key: ActionKey, i: nat)
    requires i < |rows| && rows[i].key == key
    requires forall j | 0 <= j < i :: rows[j].key != key
    ensures RowIndex(rows, key) == i
  {
    if i > 0 {
      FirstRow(rows[1..], key, i - 1);
    }
  }

  // ------------------------------------------------------- whole lifetimes

  /** What happens to a target: a request, or the fault coming back. */
  datatype TargetEvent = Posted(key: ActionKey, body: RepairBody) | Broke

  function TargetAfter(t: Target, events: seq<TargetEvent>): Target {
    if events == [] then t
    else
      var before := TargetAfter(t, events[..|events| - 1]);
      match events[|events| - 1]
      case Posted(key, body) => Repair(before, key, body).0
      case Broke => before.(faulty := true)
  }

  /** Each key is recorded once, each record is one repair and one revision, and the last one is the last action. */
  ghost predicate Bookkept(t: Target, first: int) {
    && (forall i, j | 0 <= i < |t.rows| && 0 <= j < |t.rows| && t.rows[i].key == t.rows[j].key :: i == j)
    && t.revision == first + |t.rows|
    && t.lastAction == (if t.rows == [] then None else Some(t.rows[|t.rows| - 1].key))
    && (forall i | 0 <= i < |t.rows| :: t.rows[i].body.expectedRevision == first + i)
  }

  /** The books are right after any requests and faults, in any order, with any repetition. */
  lemma {:induction false} TargetKeepsBooks(service: string, action: string, first: int, events: seq<TargetEvent>)
    ensures Bookkept(TargetAfter(Target(service, action, true, first, None, []), events), first)
  {
    if events != [] {
      TargetKeepsBooks(service, action, first, events[..|events| - 1]);
    }
  }

  /** A receipt is the answer to that request for ever after, and repeating it changes nothing. */
  lemma {:induction false} ReceiptRepeats(t: Target, key: ActionKey, body: RepairBody, events: seq<TargetEvent>)
    requires Repair(t, key, body).1.Receipt?
    ensures var later := TargetAfter(Repair(t, key, body).0, events);
            Repair(later, key, body) == (later, Receipt(t.service, key))
  {
    var after := Repair(t, key, body).0;
    if !HasRow(t, key) {
      assert after.rows[|t.rows|].key == key;
    }
    var i := RowIndex(after.rows, key);
    TargetForgetsNothing(after, events);
    var later := TargetAfter(after, events);
    assert later.rows[i] == after.rows[i];
    RowIndexFirst(after.rows, key);
    FirstRow(later.rows, key, i);
  }

  lemma {:induction false} RowIndexFirst(rows: seq<ActionRow>, key: ActionKey)
    requires exists j | 0 <= j < |rows| :: rows[j].key == key
    ensures forall j | 0 <= j < RowIndex(rows, key) :: rows[j].key != key
  {
    if rows[0].key != key {
      RowIndexFirst(rows[1..], key);
    }
  }

  lemma {:induction false} TargetForgetsNothing(t: Target, events: seq<TargetEvent>)
    ensures t.rows <= TargetAfter(t, events).rows
    ensures TargetAfter(t, events).service == t.service && TargetAfter(t, events).action == t.action
  {
    if events != [] {
      TargetForgetsNothing(t, events[..|events| - 1]);
    }
  }

  /** The event carries out a repair under the key. */
  predicate Acts(t: Target, e: TargetEvent, key: ActionKey) {
    e.Posted? && e.key == key && Repair(t, key, e.body).0 != t
  }

  /** Event `n` repaired under the key, and no fault has come since. */
  predicate RepairedAt(t: Target, events: seq<TargetEvent>, n: int, key: ActionKey) {
    && 0 <= n < |events|
    && Acts(TargetAfter(t, events[..n]), events[n], key)
    && (forall j | n < j < |events| :: !events[j].Broke?)
  }

  /** The last of the repairs and faults was a repair under the key. */
  predicate StillRepaired(t: Target, events: seq<TargetEvent>, key: ActionKey) {
    exists n | 0 <= n < |events| :: RepairedAt(t, events, n, key)
  }

  /** A target that was faulty is healthy with the key as its last action exactly if it was repaired under the
      key and no fault has come since. */
  lemma {:induction false} HealthyIffRepaired(t: Target, events: seq<TargetEvent>, key: ActionKey)
    requires t.faulty
    ensures var later := TargetAfter(t, events);
            !later.faulty && later.lastAction == Some(key) <==> StillRepaired(t, events, key)
  {
    if events != [] {
      var last := |events| - 1;
      var before := events[..last];
      HealthyIffRepaired(t, before, key);
      if events[last].Posted? {
        HealthyIffRepaired(t, before, events[last].key);
        RepairHeals(TargetAfter(t, before), events[last].key, events[last].body);
      }
      StillRepairedNext(t, events, key);
    }
  }

  /** One more event: it repairs under the key, or leaves an earlier repair standing. */
  lemma StillRepairedNext(t: Target, events: seq<TargetEvent>, key: ActionKey)
    requires events != []
    ensures var before, last := events[..|events| - 1], events[|events| - 1];
            StillRepaired(t, events, key) <==>
              Acts(TargetAfter(t, before), last, key) || (StillRepaired(t, before, key) && !last.Broke?)
  {
    var last := |events| - 1;
    var before := events[..last];
    forall n | 0 <= n < last
      ensures RepairedAt(t, events, n, key) <==> RepairedAt(t, before, n, key) && !events[last].Broke?
    {
      assert before[..n] == events[..n];
    }
    if StillRepaired(t, before, key) && !events[last].Broke? {
      var n :| 0 <= n < last && RepairedAt(t, before, n, key);
      assert RepairedAt(t, events, n, key);
    }
    if Acts(TargetAfter(t, before), events[last], key) {
      assert RepairedAt(t, events, last, key);
    }
  }

  /** A request changes the target only by healing it, under the request's key. */
  lemma RepairHeals(t: Target, key: ActionKey, body: RepairBody)
    ensures var t' := Repair(t, key, body).0;
            t' == t || (t.faulty && !t'.faulty && t'.lastAction == Some(key))
  {
  }
}
