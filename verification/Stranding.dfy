/**
 * Whether a session can still be transcribed: exactly which states no later run of operations,
 * jobs and retries leads out of.
 */
module Stranding {
  import opened Wrappers
  import opened SessionModel
  import opened Bookkeeping
  import opened Lifecycle
  import Retries

  /**
   * The audio is purged, or the session waits for a transcription that is not in the queue any
   * more: an upload, a restart and a recovery are all refused.
   */
  predicate Stranded(s: Sys) {
    && s.row.audio.Some?
    && (Purged(s.row) || ((s.row.state.AudioUploaded? || s.row.state.Created?) && NoTranscriptionLive(s)))
  }

  /** Some later run, with one live transcription job at a time, has the session transcribed. */
  ghost predicate CanComplete(s: Sys) {
    exists later :: Obeys(s, later, OneTranscription) && Run(s, later).row.state.Transcribed?
  }

  // ----- No way out ---------------------------------------------------------------------

  lemma WorkerKeepsWaiting(s: Sys, step: Step)
    requires Orderly(s) && NoTranscriptionLive(s) && IsWorkerStep(step)
    ensures NoTranscriptionLive(Next(s, step)) && Next(s, step).row.state == s.row.state
  {
    WorkerFrame(s, step);
    var t := Next(s, step);
    forall j: JobId | j in t.jobs ensures !LiveTranscription(t, j) {
      assert !LiveTranscription(s, j);
    }
    if step.job in s.jobs {
      assert !LiveTranscription(s, step.job);
      if IsArtifactJob(s.jobs[step.job].kind) { ArtifactJobsLeaveRows(s, step); }
    }
  }

  lemma StepKeepsStranded(s: Sys, step: Step)
    requires Orderly(s) && Stranded(s)
    ensures Stranded(Next(s, step)) && Orderly(Next(s, step))
  {
    assert !Restartable(s.row);
    StepKeepsOrderUnrestarted(s, step);
    if Purged(s.row) {
      StepKeepsPurge(s, step);
    } else if IsWorkerStep(step) {
      WorkerFrame(s, step);
      WorkerKeepsWaiting(s, step);
    } else {
      assert Next(s, step).jobs == s.jobs;
    }
  }

  lemma {:induction false} StrandedForever(s: Sys, later: seq<Step>)
    requires Orderly(s) && Stranded(s)
    ensures Stranded(Run(s, later)) && !Run(s, later).row.state.Transcribed?
    decreases later
  {
    if later != [] {
      StepKeepsStranded(s, later[0]);
      StrandedForever(Next(s, later[0]), later[1..]);
    }
  }

  // ----- A way out of everything else ---------------------------------------------------

  /** While the session is not transcribed, the job it tracks is a transcription if it is live at all. */
  ghost predicate Tracks(s: Sys) {
    !s.row.state.Transcribed? && !Purged(s.row) && s.row.currentJob.Some? && Live(s, s.row.currentJob.value) ==>
      s.jobs[s.row.currentJob.value].kind.TranscriptionJob?
  }

  lemma StepKeepsTracks(s: Sys, step: Step)
    requires Orderly(s) && Tracks(s)
    ensures Tracks(Next(s, step))
  {
    if IsWorkerStep(step) {
      WorkerFrame(s, step);
      if s.row.state.Transcribed? {
        forall j: JobId | j in s.jobs ensures !LiveTranscription(s, j) {}
        WorkerKeepsWaiting(s, step);
      }
    }
  }

  lemma {:induction false} RunKeepsTracks(s: Sys, steps: seq<Step>)
    requires Orderly(s) && Tracks(s) && Obeys(s, steps, OneTranscription)
    ensures Orderly(Run(s, steps)) && Tracks(Run(s, steps))
    decreases steps
  {
    if steps != [] {
      StepKeepsTracks(s, steps[0]);
      StepKeepsOrder(s, steps[0]);
      RunKeepsTracks(Next(s, steps[0]), steps[1..]);
    }
  }

  lemma StepFirst(s: Sys, step: Step)
    requires OneTranscription(s, step) && CanComplete(Next(s, step))
    ensures CanComplete(s)
  {
    var later :| Obeys(Next(s, step), later, OneTranscription) && Run(Next(s, step), later).row.state.Transcribed?;
    var all := [step] + later;
    assert all[0] == step && all[1..] == later;
    assert Obeys(s, all, OneTranscription) && Run(s, all).row.state.Transcribed?;
  }

  lemma DoneCompletes(s: Sys)
    requires s.row.state.Transcribed?
    ensures CanComplete(s)
  {
    assert Obeys(s, [], OneTranscription) && Run(s, []) == s;
  }

  lemma RunningCompletes(s: Sys, j: JobId)
    requires Orderly(s) && Running(s, j) && s.jobs[j].kind.TranscriptionJob?
    ensures CanComplete(s)
  {
    var commit := DoCommit(j, Transcript([]), "m");
    assert LiveTranscription(s, j);
    BulkInsertNeverClashes(s, j, Transcript([]), "m");
    assert Next(s, commit).row.state.Transcribed?;
    DoneCompletes(Next(s, commit));
    StepFirst(s, commit);
  }

  lemma LiveCompletes(s: Sys, j: JobId)
    requires Orderly(s) && LiveTranscription(s, j) && s.row.audio.Some? && !Purged(s.row)
    ensures CanComplete(s)
  {
    if Waiting(s, j) {
      StepKeepsOrder(s, DoBegin(j));
      assert Running(Next(s, DoBegin(j)), j) && Next(s, DoBegin(j)).jobs[j].kind.TranscriptionJob?;
      RunningCompletes(Next(s, DoBegin(j)), j);
      StepFirst(s, DoBegin(j));
    } else {
      RunningCompletes(s, j);
    }
  }

  lemma RestartCompletes(s: Sys)
    requires Orderly(s) && Restartable(s.row) && NoTranscriptionLive(s)
    ensures CanComplete(s)
  {
    var t := Next(s, DoRestart);
    StepKeepsOrder(s, DoRestart);
    assert LiveTranscription(t, s.nextJob) && t.row.audio == s.row.audio;
    LiveCompletes(t, s.nextJob);
    StepFirst(s, DoRestart);
  }

  lemma RecoverCompletes(s: Sys)
    requires Orderly(s) && Tracks(s) && s.row.state.Transcribing? && NoTranscriptionLive(s)
    ensures CanComplete(s)
  {
    forall j: JobId | s.row.currentJob == Some(j) ensures Live(s, j) ==> LiveTranscription(s, j) {}
    assert Recover(s).Success?;
    RecoverIsSafe(s);
    RestartCompletes(Next(s, DoRecover));
    StepFirst(s, DoRecover);
  }

  lemma UploadCompletes(s: Sys)
    requires Orderly(s) && s.row.audio.None?
    ensures CanComplete(s)
  {
    var t := Next(s, DoUpload);
    StepKeepsOrder(s, DoUpload);
    assert LiveTranscription(t, s.nextJob);
    LiveCompletes(t, s.nextJob);
    StepFirst(s, DoUpload);
  }

  lemma NotStrandedCompletes(s: Sys)
    requires Orderly(s) && Tracks(s) && !Stranded(s)
    ensures CanComplete(s)
  {
    if s.row.audio.None? {
      UploadCompletes(s);
    } else if s.row.state.Transcribed? {
      DoneCompletes(s);
    } else if j: JobId :| LiveTranscription(s, j) {
      LiveCompletes(s, j);
    } else if s.row.state.Transcribing? {
      RecoverCompletes(s);
    } else {
      RestartCompletes(s);
    }
  }

  /**
   * Main theorem: over every run, a session can still come to be transcribed if and only if it
   * is not stranded.
   */
  lemma TranscriptionReachableIff(mode: Mode, chunkMax: Limit, steps: seq<Step>)
    requires Obeys(Init(mode, chunkMax), steps, OneTranscription)
    ensures var s := Run(Init(mode, chunkMax), steps);
            CanComplete(s) <==> !Stranded(s)
  {
    RunKeepsTracks(Init(mode, chunkMax), steps);
    var s := Run(Init(mode, chunkMax), steps);
    if Stranded(s) {
      forall later | Obeys(s, later, OneTranscription) ensures !Run(s, later).row.state.Transcribed? {
        StrandedForever(s, later);
      }
    } else {
      NotStrandedCompletes(s);
    }
  }

  // ----- How a session gets stranded ----------------------------------------------------

  /**
   * Of all failures of a running transcription exactly one kind strands the session: a
   * transient error when no retry is left, which gives the session back to a retry that never
   * comes. A permanent error leaves it restartable, an unhandled exception recoverable.
   */
  lemma FailureStrandsIff(s: Sys, j: JobId, cause: Cause)
    requires Orderly(s) && Running(s, j) && s.jobs[j].kind.TranscriptionJob?
    ensures Stranded(Next(s, DoFail(j, cause))) <==> cause.Transient? && s.jobs[j].retriesLeft == 0
  {
    assert LiveTranscription(s, j);
    var t := Next(s, DoFail(j, cause));
    if s.jobs[j].retriesLeft > 0 {
      assert LiveTranscription(t, j);
    } else {
      forall i: JobId | i in t.jobs ensures !LiveTranscription(t, i) {
        assert i != j && LiveTranscription(t, i) ==> LiveTranscription(s, i);
      }
    }
  }

  lemma OneTransientError(s: Sys, j: JobId)
    requires Retries.Fetchable(s, j)
    ensures var t := Next(Next(s, DoBegin(j)), DoFail(j, Transient));
            && t.row.state.AudioUploaded? && t.row.audio == s.row.audio
            && (s.jobs[j].retriesLeft > 0 ==> Retries.Fetchable(t, j) && t.jobs[j].retriesLeft == s.jobs[j].retriesLeft - 1)
            && (s.jobs[j].retriesLeft == 0 ==> !Live(t, j))
            && (forall i | i in t.jobs && i != j :: i in s.jobs && t.jobs[i] == s.jobs[i])
  {}

  lemma {:induction false} TransientErrorsStrand(s: Sys, j: JobId)
    requires Retries.Fetchable(s, j) && forall i | i in s.jobs && i != j :: !LiveTranscription(s, i)
    ensures Stranded(Run(s, Retries.Failing(j, s.jobs[j].retriesLeft + 1)))
    decreases s.jobs[j].retriesLeft
  {
    var n := s.jobs[j].retriesLeft;
    var t := Next(Next(s, DoBegin(j)), DoFail(j, Transient));
    OneTransientError(s, j);
    RunAppend(s, [DoBegin(j), DoFail(j, Transient)], Retries.Failing(j, n));
    RunTwo(s, DoBegin(j), DoFail(j, Transient));
    if n > 0 {
      TransientErrorsStrand(t, j);
    } else {
      assert Run(t, Retries.Failing(j, 0)) == t;
    }
  }

  /** An upload whose transcription meets four transient errors in a row is stranded for good. */
  lemma FourTransientErrorsStrand(mode: Mode, chunkMax: Limit)
    ensures Stranded(Run(Init(mode, chunkMax), [DoUpload] + Retries.Failing(0, 4)))
  {
    var s := Next(Init(mode, chunkMax), DoUpload);
    assert s.jobs == map[0 := Job(TranscriptionJob, Queued, RETRIES, Nothing)];
    RunAppend(Init(mode, chunkMax), [DoUpload], Retries.Failing(0, 4));
    RunOne(Init(mode, chunkMax), DoUpload);
    TransientErrorsStrand(s, 0);
  }
}
