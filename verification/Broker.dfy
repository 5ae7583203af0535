/**
 The messages on their way from the outbox to the workers: confirmed publication, deliveries that are
 acknowledged only after their outcome is stored or passed on, bounded retries, replay and
 quarantine, with a crash or a lost connection between any two of these.
*/
module Broker {

  /** What has become of a delivery in its consumer's hands: the worker is at it, raised invalid, or broke down;
      its failure is stored; or the outcome is stored or passed on and only the acknowledgement is missing. */
  datatype Stage = Fresh | Refused | Broken | FailureRecorded | Answered

  /** `copied`: the replayed copy was confirmed; `exhausted`: buried after the last attempt, not as invalid. */
  datatype Place = Main | Retry(copied: bool) | Dead(exhausted: bool) | Held(stage: Stage)

  datatype Message = Message(id: nat, attempt: nat, place: Place)

  /** The messages of all queues under delivery tags; `next` is the next fresh tag. */
  datatype Queues = Queues(messages: map<nat, Message>, next: nat)

  datatype Transfer =
    | Arrive(id: nat)
    | Take(tag: nat)
    | Succeed(tag: nat)
    | Refuse(tag: nat)
    | Break(tag: nat)
    | RecordFailure(tag: nat)
    | RetryLater(tag: nat)
    | Bury(tag: nat)
    | Ack(tag: nat)
    | Nack(tag: nat)
    | Replay(tag: nat)
    | AckReplay(tag: nat)
    | NackReplay(tag: nat)

  predicate HeldAt(q: Queues, tag: nat, stage: Stage) {
    tag in q.messages && q.messages[tag].place == Held(stage)
  }

  predicate RetriedAt(q: Queues, tag: nat, copied: bool) {
    tag in q.messages && q.messages[tag].place == Retry(copied)
  }

  function Put(q: Queues, tag: nat, place: Place): Queues
    requires tag in q.messages
  {
    q.(messages := q.messages[tag := q.messages[tag].(place := place)])
  }

  function Copy(q: Queues, m: Message): Queues {
    q.(messages := q.messages[q.next := m], next := q.next + 1)
  }

  function Drop(q: Queues, tag: nat): Queues {
    q.(messages := q.messages - {tag})
  }

  /** One confirmed transfer between queues, or an acknowledgement; nothing happens when it does not apply. */
  function QueuesNext(max: nat, q: Queues, t: Transfer): Queues {
    match t
    case Arrive(id) => Copy(q, Message(id, 1, Main))
    case Take(tag) => if tag in q.messages && q.messages[tag].place == Main then Put(q, tag, Held(Fresh)) else q
    case Succeed(tag) => if HeldAt(q, tag, Fresh) then Put(q, tag, Held(Answered)) else q
    case Refuse(tag) => if HeldAt(q, tag, Fresh) then Put(q, tag, Held(Refused)) else q
    case Break(tag) => if HeldAt(q, tag, Fresh) then Put(q, tag, Held(Broken)) else q
    case RecordFailure(tag) =>
      if HeldAt(q, tag, Broken) && q.messages[tag].attempt >= max then Put(q, tag, Held(FailureRecorded)) else q
    case RetryLater(tag) =>
      if HeldAt(q, tag, Broken) && q.messages[tag].attempt < max then
        Copy(Put(q, tag, Held(Answered)), Message(q.messages[tag].id, q.messages[tag].attempt + 1, Retry(false)))
      else q
    case Bury(tag) =>
      if HeldAt(q, tag, Refused) || HeldAt(q, tag, FailureRecorded) then
        var exhausted := q.messages[tag].place.stage == FailureRecorded;
        Copy(Put(q, tag, Held(Answered)), q.messages[tag].(place := Dead(exhausted)))
      else q
    case Ack(tag) => if HeldAt(q, tag, Answered) then Drop(q, tag) else q
    case Nack(tag) => if tag in q.messages && q.messages[tag].place.Held? then Put(q, tag, Main) else q
    case Replay(tag) =>
      if RetriedAt(q, tag, false) then Copy(Put(q, tag, Retry(true)), q.messages[tag].(place := Main)) else q
    case AckReplay(tag) => if RetriedAt(q, tag, true) then Drop(q, tag) else q
    case NackReplay(tag) => if RetriedAt(q, tag, true) then Put(q, tag, Retry(false)) else q
  }

  function QueuesRun(max: nat, q: Queues, ts: seq<Transfer>): Queues
    decreases |ts|
  {
    if ts == [] then q else QueuesRun(max, QueuesNext(max, q, ts[0]), ts[1..])
  }

  // -------------------------------------------------------------- the consumer

  /** How the worker's handler ended; `RaisesInvalid` are ValueError, KeyError and TypeError. */
  datatype Verdict = Returns | RaisesInvalid | RaisesOther

  /** What a worker's end means for its delivery. */
  function EndOf(tag: nat, verdict: Verdict): Transfer {
    match verdict
    case Returns => Succeed(tag)
    case RaisesInvalid => Refuse(tag)
    case RaisesOther => Break(tag)
  }

  /** What the consumer does after the worker's end. `stored` says whether `fail` returned, `moved` whether the
      transfer to the other queue was confirmed. */
  function Aftermath(max: nat, attempt: nat, tag: nat, verdict: Verdict, stored: bool, moved: bool): seq<Transfer> {
    match verdict
    case Returns => [Ack(tag)]
    case RaisesInvalid => if moved then [Bury(tag), Ack(tag)] else [Nack(tag)]
    case RaisesOther =>
      if attempt < max then if moved then [RetryLater(tag), Ack(tag)] else [Nack(tag)]
      else if !stored then [Nack(tag)]
      else if moved then [RecordFailure(tag), Bury(tag), Ack(tag)]
      else [RecordFailure(tag), Nack(tag)]
  }

  function Treatment(max: nat, attempt: nat, tag: nat, verdict: Verdict, stored: bool, moved: bool): seq<Transfer> {
    [EndOf(tag, verdict)] + Aftermath(max, attempt, tag, verdict, stored, moved)
  }

  class StageConsumer {
    const max: nat
    var messages: map<nat, Message>
    var next: nat

    function View(): Queues
      reads this
    {
      Queues(messages, next)
    }

    /** Every tag in use was handed out. */
    predicate Valid()
      reads this
    {
      forall tag | tag in messages :: tag < next
    }

    constructor (max: nat)
      requires max >= 1
      ensures Valid() && View() == Queues(map[], 0) && this.max == max
    {
      this.max, messages, next := max, map[], 0;
    }

    /** `transfer`: a copy to another queue, under a fresh tag; no other message is touched. */
    method Send(m: Message)
      requires Valid()
      modifies this`messages, this`next
      ensures Valid() && View() == Copy(old(View()), m)
      ensures old(next) !in old(messages) && messages.Keys == old(messages).Keys + {old(next)}
      ensures messages[old(next)] == m && forall tag | tag in old(messages) :: messages[tag] == old(messages)[tag]
    {
      messages, next := messages[next := m], next + 1;
    }

    /** `handle` and the `receive` around it: the delivery is acknowledged last, or handed back. */
    method Handle(tag: nat, verdict: Verdict, stored: bool, moved: bool)
      requires Valid() && HeldAt(View(), tag, Fresh)
      modifies this`messages, this`next
      ensures Valid()
      ensures View() ==
                QueuesRun(max, old(View()), Treatment(max, old(messages[tag].attempt), tag, verdict, stored, moved))
    {
      var m := messages[tag];
      TreatmentOutcome(max, View(), tag, verdict, stored, moved);
      var acknowledge := verdict == Returns || moved;
      if verdict == RaisesInvalid && moved {
        Send(m.(place := Dead(false)));
      } else if verdict == RaisesOther {
        if m.attempt < max {
          if moved {
            Send(m.(attempt := m.attempt + 1, place := Retry(false)));
          }
        } else if stored && moved {
          Send(m.(place := Dead(true)));
        } else {
          acknowledge := false;
        }
      }
      if acknowledge {
        messages := messages - {tag};
      } else {
        messages := messages[tag := m.(place := Main)];
      }
    }

    /** `replay`: a message of the retry queue goes back to its main queue as a copy before it is acknowledged. */
    method Relay(tag: nat, moved: bool)
      requires Valid() && RetriedAt(View(), tag, false)
      modifies this`messages, this`next
      ensures Valid()
      ensures View() == QueuesRun(max, old(View()), if moved then [Replay(tag), AckReplay(tag)] else [])
    {
      if moved {
        RunFirst(max, View(), Replay(tag), [AckReplay(tag)]);
        RunFirst(max, QueuesNext(max, View(), Replay(tag)), AckReplay(tag), []);
        Send(messages[tag].(place := Main));
        messages := messages - {tag};
      }
    }
  }

  /** What a treatment comes to: the delivery is gone, a copy or none is in another queue, or it is back in its own. */
  function Outcome(max: nat, q: Queues, tag: nat, verdict: Verdict, stored: bool, moved: bool): Queues
    requires tag in q.messages
  {
    var m := q.messages[tag];
    var back := Put(q, tag, Main);
    match verdict
    case Returns => Drop(q, tag)
    case RaisesInvalid => if moved then Drop(Copy(q, m.(place := Dead(false))), tag) else back
    case RaisesOther =>
      if !moved then back
      else if m.attempt < max then Drop(Copy(q, m.(attempt := m.attempt + 1, place := Retry(false))), tag)
      else if stored then Drop(Copy(q, m.(place := Dead(true))), tag)
      else back
  }

  lemma TreatmentOutcome(max: nat, q: Queues, tag: nat, verdict: Verdict, stored: bool, moved: bool)
    requires HeldAt(q, tag, Fresh) && tag < q.next
    ensures QueuesRun(max, q, Treatment(max, q.messages[tag].attempt, tag, verdict, stored, moved)) ==
              Outcome(max, q, tag, verdict, stored, moved)
  {
    var attempt := q.messages[tag].attempt;
    RunFirst(max, q, EndOf(tag, verdict), Aftermath(max, attempt, tag, verdict, stored, moved));
    match verdict
    case Returns =>
      RunFirst(max, Put(q, tag, Held(Answered)), Ack(tag), []);
    case RaisesInvalid =>
      PassingOn(max, q, Put(q, tag, Held(Refused)), tag, Bury(tag), q.messages[tag].(place := Dead(false)), moved);
    case RaisesOther =>
      BreakdownOutcome(max, q, tag, stored, moved);
  }

  lemma BreakdownOutcome(max: nat, q: Queues, tag: nat, stored: bool, moved: bool)
    requires tag in q.messages && tag < q.next
    ensures var rest := Aftermath(max, q.messages[tag].attempt, tag, RaisesOther, stored, moved);
            QueuesRun(max, Put(q, tag, Held(Broken)), rest) == Outcome(max, q, tag, RaisesOther, stored, moved)
  {
    var m := q.messages[tag];
    var broken := Put(q, tag, Held(Broken));
    if m.attempt < max {
      PassingOn(max, q, broken, tag, RetryLater(tag), m.(attempt := m.attempt + 1, place := Retry(false)), moved);
    } else if stored {
      RunFirst(max, broken, RecordFailure(tag), if moved then [Bury(tag), Ack(tag)] else [Nack(tag)]);
      assert QueuesNext(max, broken, RecordFailure(tag)) == Put(q, tag, Held(FailureRecorded));
      PassingOn(max, q, Put(q, tag, Held(FailureRecorded)), tag, Bury(tag), m.(place := Dead(true)), moved);
    } else {
      PassingOn(max, q, broken, tag, Bury(tag), m.(place := Dead(true)), false);
    }
  }

  /** A copy sent on and the delivery acknowledged, or the delivery handed back. */
  lemma PassingOn(max: nat, q: Queues, held: Queues, tag: nat, t: Transfer, copy: Message, moved: bool)
    requires tag in q.messages && tag < q.next
    requires held.messages.Keys == q.messages.Keys && tag in held.messages && held.messages[tag].place.Held?
    requires held == Put(q, tag, held.messages[tag].place)
    requires moved ==> QueuesNext(max, held, t) == Copy(Put(q, tag, Held(Answered)), copy)
    ensures QueuesRun(max, held, if moved then [t, Ack(tag)] else [Nack(tag)]) ==
              if moved then Drop(Copy(q, copy), tag) else Put(q, tag, Main)
  {
    if moved {
      RunFirst(max, held, t, [Ack(tag)]);
      RunFirst(max, QueuesNext(max, held, t), Ack(tag), []);
    } else {
      RunFirst(max, held, Nack(tag), []);
    }
  }

  /** A delivery without a copy sent on goes back to its queue as it is, unless its worker
      returned. A copy is sent on only when the broker confirms it: an invalid message is
      buried, one that broke down waits for its next attempt, and after the last attempt
      it is buried as exhausted once the failure is stored. Other messages stay. */
  lemma TreatmentExactly(max: nat, q: Queues, tag: nat, verdict: Verdict, stored: bool, moved: bool)
    requires HeldAt(q, tag, Fresh) && tag < q.next && q.next !in q.messages
    ensures var m := q.messages[tag];
            var q' := QueuesRun(max, q, Treatment(max, m.attempt, tag, verdict, stored, moved));
            var retried := verdict == RaisesOther && m.attempt < max;
            var exhausted := verdict == RaisesOther && m.attempt >= max && stored;
            var passed := moved && (verdict == RaisesInvalid || retried || exhausted);
            && (forall other | other != tag && other != q.next ::
                  && (other in q'.messages <==> other in q.messages)
                  && (other in q.messages ==> q'.messages[other] == q.messages[other]))
            && (tag in q'.messages <==> verdict != Returns && !passed)
            && (tag in q'.messages ==> q'.messages[tag] == Message(m.id, m.attempt, Main))
            && (q.next in q'.messages <==> passed)
            && (passed ==>
                  q'.messages[q.next] == if retried then Message(m.id, m.attempt + 1, Retry(false))
                                         else Message(m.id, m.attempt, Dead(exhausted)))
  {
    TreatmentOutcome(max, q, tag, verdict, stored, moved);
  }

  /** A replayed message is back in its queue, for the same event and attempt, and no longer in the retry queue;
      while its copy is not acknowledged it is in both. Other messages stay. */
  lemma RelayExactly(max: nat, q: Queues, tag: nat)
    requires RetriedAt(q, tag, false) && tag < q.next && q.next !in q.messages
    ensures var m := q.messages[tag];
            var back := Message(m.id, m.attempt, Main);
            var copied := QueuesNext(max, q, Replay(tag));
            && copied.messages == q.messages[tag := Message(m.id, m.attempt, Retry(true))][q.next := back]
            && QueuesRun(max, q, [Replay(tag), AckReplay(tag)]).messages == (q.messages - {tag})[q.next := back]
            && QueuesRun(max, q, [Replay(tag), NackReplay(tag)]).messages == q.messages[q.next := back]
  {
    var copied := QueuesNext(max, q, Replay(tag));
    RunFirst(max, q, Replay(tag), [AckReplay(tag)]);
    RunFirst(max, copied, AckReplay(tag), []);
    RunFirst(max, q, Replay(tag), [NackReplay(tag)]);
    RunFirst(max, copied, NackReplay(tag), []);
  }

  lemma RunFirst(max: nat, q: Queues, t: Transfer, rest: seq<Transfer>)
    ensures QueuesRun(max, q, [t] + rest) == QueuesRun(max, QueuesNext(max, q, t), rest)
    ensures rest == [] ==> QueuesRun(max, q, [t]) == QueuesNext(max, q, t)
    ensures |rest| == 1 ==> QueuesRun(max, q, [t, rest[0]]) == QueuesRun(max, QueuesNext(max, q, t), rest)
    ensures |rest| == 2 ==> QueuesRun(max, q, [t, rest[0], rest[1]]) == QueuesRun(max, QueuesNext(max, q, t), rest)
  {
    assert ([t] + rest)[1..] == rest;
    assert rest == [] ==> [t] + rest == [t];
    assert |rest| == 1 ==> [t] + rest == [t, rest[0]];
    assert |rest| == 2 ==> [t] + rest == [t, rest[0], rest[1]];
  }
}
