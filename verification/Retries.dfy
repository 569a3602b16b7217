/** How often a job is attempted (app/jobs/__init__.py): once, and again for each of its retries. */
module Retries {
  import opened SessionModel
  import opened Bookkeeping

  /** How many attempts are left; ids from the counter on are jobs still to come. */
  function Left(s: Sys, j: JobId): nat {
    if j >= s.nextJob then RETRIES + 1
    else if j !in s.jobs || !Active(s.jobs[j].status) then 0
    else if s.jobs[j].status.Started? then s.jobs[j].retriesLeft
    else s.jobs[j].retriesLeft + 1
  }

  /** The attempts of job `j` a run starts, whether their load succeeds or fails. */
  function Attempts(s: Sys, steps: seq<Step>, j: JobId): nat
    decreases steps
  {
    if steps == [] then 0
    else (if steps[0] == DoBegin(j) && Waiting(s, j) then 1 else 0) + Attempts(Next(s, steps[0]), steps[1..], j)
  }

  /** A worker step on another job changes nothing for `j`. */
  lemma OtherWorkerSteps(s: Sys, step: Step, j: JobId)
    requires IsWorkerStep(step) && step.job != j
    ensures Left(Next(s, step), j) <= Left(s, j)
  {
    WorkerFrame(s, step);
  }

  lemma OwnWorkerSteps(s: Sys, step: Step, j: JobId)
    requires Booked(s) && IsWorkerStep(step) && step.job == j
    ensures Left(Next(s, step), j) + (if step.DoBegin? && Waiting(s, j) then 1 else 0) <= Left(s, j)
  {}

  lemma HttpSteps(s: Sys, step: Step, j: JobId)
    requires Booked(s) && !IsWorkerStep(step)
    ensures Left(Next(s, step), j) <= Left(s, j)
  {}

  /**
   * Over every run, with any interleaving of any operations, a job is attempted at most four
   * times; how often is left never grows.
   */
  lemma {:induction false} AttemptsAreBounded(s: Sys, steps: seq<Step>, j: JobId)
    requires Booked(s)
    ensures Attempts(s, steps, j) + Left(Run(s, steps), j) <= Left(s, j)
    decreases steps
  {
    if steps != [] {
      StepKeepsBooked(s, steps[0]);
      if !IsWorkerStep(steps[0]) {
        HttpSteps(s, steps[0], j);
      } else if steps[0].job == j {
        OwnWorkerSteps(s, steps[0], j);
      } else {
        OtherWorkerSteps(s, steps[0], j);
      }
      AttemptsAreBounded(Next(s, steps[0]), steps[1..], j);
    }
  }

  lemma AtMostFourAttempts(mode: Mode, chunkMax: Limit, steps: seq<Step>, j: JobId)
    ensures Attempts(Init(mode, chunkMax), steps, j) <= 4
  {
    AttemptsAreBounded(Init(mode, chunkMax), steps, j);
  }

  // ----- All four can happen ------------------------------------------------------------

  function Failing(j: JobId, n: nat): seq<Step> {
    if n == 0 then [] else [DoBegin(j), DoFail(j, Transient)] + Failing(j, n - 1)
  }

  predicate Fetchable(s: Sys, j: JobId) {
    && Waiting(s, j) && s.jobs[j].kind.TranscriptionJob?
    && s.row.audio.Some? && !s.row.audio.value.purged
  }

  lemma OneFailure(s: Sys, j: JobId)
    requires Fetchable(s, j)
    ensures var t := Next(Next(s, DoBegin(j)), DoFail(j, Transient));
            s.jobs[j].retriesLeft > 0 ==> Fetchable(t, j) && t.jobs[j].retriesLeft == s.jobs[j].retriesLeft - 1
  {}

  /** A transcription that keeps failing with transient errors uses all of its attempts. */
  lemma {:induction false} FailingUsesAll(s: Sys, j: JobId, n: nat)
    requires Fetchable(s, j) && n <= s.jobs[j].retriesLeft + 1
    ensures Attempts(s, Failing(j, n), j) == n
    decreases n
  {
    if n > 0 {
      var steps := Failing(j, n);
      var t := Next(s, DoBegin(j));
      OneFailure(s, j);
      assert steps[1..] == [DoFail(j, Transient)] + Failing(j, n - 1);
      assert steps[1..][1..] == Failing(j, n - 1);
      if n > 1 {
        FailingUsesAll(Next(t, DoFail(j, Transient)), j, n - 1);
      } else {
        assert Attempts(Next(t, DoFail(j, Transient)), [], j) == 0;
      }
    }
  }
}
