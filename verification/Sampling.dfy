/**
 The verification stage takes its two samples one after the other
 and gives up at the first that does not show the recovery.
*/
module Sampling {
  import opened Model
  import opened Executor
  import opened Pipeline

  const SAMPLES := 2

  /** The loop of the verification stage over the connector's answers and the times they came. */
  method Sample(r: Resolution, service: string, answers: nat -> (Observation, Instant))
      returns (observations: Result<seq<Observation>>)
    requires r.executedAt.Some?
    ensures observations.Ok? <==>
              && (forall i | 0 <= i < SAMPLES :: Recovering(answers(i).0, service, answers(i).1, r))
              && (forall i, j | 0 <= i < j < SAMPLES :: answers(i).0.observedAt < answers(j).0.observedAt)
    ensures observations.Ok? ==> observations.value == [answers(0).0, answers(1).0]
    ensures observations.Err? ==> observations.fault == Unavailable
  {
    var taken: seq<Observation> := [];
    while |taken| < SAMPLES
      invariant |taken| <= SAMPLES
      invariant forall i | 0 <= i < |taken| ::
                  taken[i] == answers(i).0 && Recovering(taken[i], service, answers(i).1, r)
      invariant forall i, j | 0 <= i < j < |taken| :: taken[i].observedAt < taken[j].observedAt
    {
      var (o, now) := answers(|taken|);
      if !Fresh(o, service, now, r.executedAt) {
        return Err(Unavailable);
      }
      if !o.healthy || o.failureCode.Some? || o.lastAction != r.actionId {
        return Err(Unavailable);
      }
      if taken != [] && o.observedAt <= taken[|taken| - 1].observedAt {
        return Err(Unavailable);
      }
      taken := taken + [o];
    }
    observations := Ok(taken);
  }

  /** What the handler commits after a successful round of samples, and that it commits nothing after any other. */
  method Verify(e: Envelope, service: string, answers: nat -> (Observation, Instant)) returns (r: Result<Commit>)
    requires e.incident.Some? && |e.refs| == 1
    ensures r == VerificationResult(e, service, answers(0).0, answers(0).1, answers(1).0, answers(1).1)
  {
    var note := ResolutionOf(e.refs[0]);
    if note.executedAt.None? || note.actionId.None? {
      return Err(Invalid);
    }
    var samples := Sample(note, service, answers);
    if samples.Err? {
      return Err(samples.fault);
    }
    note := note.(status := RecoveryConfirmed, verification := samples.value);
    r := Ok(Commit(Recovered, WithResolution(Some(e.refs[0]), note), None));
  }

  /** A sample taken from the validation target passes as a recovery exactly if the target was repaired under the
      action's key and no fault has come since. */
  lemma DiagnosticConfirmsRepair(t: Target, events: seq<TargetEvent>, failureCode: string, now: Instant, r: Resolution,
                                 key: ActionKey)
    requires t.faulty && r.actionId == Some(key) && r.executedAt.Some? && r.executedAt.value <= now
    ensures Recovering(Diagnose(TargetAfter(t, events), failureCode, now), t.service, now, r) <==>
              StillRepaired(t, events, key)
  {
    HealthyIffRepaired(t, events, key);
    TargetForgetsNothing(t, events);
  }
}
