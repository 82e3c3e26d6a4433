/**
 * src/operations.ts, waitForJob: ask for a job until it has ended, forgiving failed reads that do not
 * come five in a row. The server, the clock and the caller's signal are given as rounds of the loop.
 */
module WaitForJob {
  datatype Answer = Failed | Going | Ended

  /** One round: stopped (aborted or out of time) as it starts, while it asks, or while it sleeps. */
  datatype Round = Round(stopped: bool, answer: Answer, stoppedAsking: bool, stoppedAsleep: bool)

  datatype Outcome = Waiting | Stopped(round: nat) | GaveUp(round: nat) | Finished(round: nat)

  const PATIENCE: nat := 5

  /** The last five reads, up to this one, all failed. */
  predicate FiveFailed(rounds: seq<Round>, i: nat)
    requires i < |rounds|
  {
    i >= 4 && forall j | i - 4 <= j <= i :: rounds[j].answer.Failed?
  }

  /** What a round, once reached, decides. */
  function Verdict(rounds: seq<Round>, i: nat): Outcome
    requires i < |rounds|
  {
    var r := rounds[i];
    if r.stopped || r.stoppedAsking then Stopped(i)
    else if r.answer.Ended? then Finished(i)
    else if FiveFailed(rounds, i) then GaveUp(i)
    else if r.stoppedAsleep then Stopped(i)
    else Waiting
  }

  predicate FailedSince(rounds: seq<Round>, from: nat, i: nat)
    requires i <= |rounds|
  {
    forall j | from <= j < i :: rounds[j].answer.Failed?
  }

  /** The first round that decides anything decides the outcome. */
  method WaitForJob(rounds: seq<Round>) returns (outcome: Outcome)
    ensures outcome.Waiting? ==> forall i | 0 <= i < |rounds| :: Verdict(rounds, i).Waiting?
    ensures !outcome.Waiting? ==>
      && outcome.round < |rounds| && outcome == Verdict(rounds, outcome.round)
      && forall i | 0 <= i < outcome.round :: Verdict(rounds, i).Waiting?
  {
    var failures := 0;
    for i := 0 to |rounds|
      invariant failures <= i && failures < PATIENCE && FailedSince(rounds, i - failures, i)
      invariant failures < i ==> !rounds[i - failures - 1].answer.Failed?
      invariant forall j | 0 <= j < i :: Verdict(rounds, j).Waiting?
    {
      var r := rounds[i];
      if r.stopped || r.stoppedAsking { return Stopped(i); }
      if r.answer.Failed? {
        failures := failures + 1;
        assert FailedSince(rounds, i + 1 - failures, i + 1);
        if failures >= PATIENCE { return GaveUp(i); }
      } else {
        failures := 0;
        if r.answer.Ended? { return Finished(i); }
      }
      if r.stoppedAsleep { return Stopped(i); }
    }
    outcome := Waiting;
  }
}
