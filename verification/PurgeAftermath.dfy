/** Whether anything generated can turn up in a session after a purge. */
module PurgeAftermath {
  import opened SessionModel
  import opened Bookkeeping
  import opened Lifecycle

  predicate ArtifactRunning(s: Sys, j: JobId) {
    Running(s, j) && IsArtifactJob(s.jobs[j].kind)
  }

  predicate NoArtifactRunning(s: Sys) {
    forall j | j in s.jobs :: !ArtifactRunning(s, j)
  }

  /** Purged, without any artefact, and with no job that could still bring one. */
  ghost predicate Barren(s: Sys) {
    Orderly(s) && Purged(s.row) && s.row.artifacts == map[] && NoArtifactRunning(s)
  }

  /** In a purged session no job of any kind runs, and none can start. */
  lemma NothingRuns(s: Sys, j: JobId)
    requires Barren(s)
    ensures !Running(s, j)
  {
    if Running(s, j) {
      assert !ArtifactRunning(s, j);
      assert LiveTranscription(s, j);
    }
  }

  lemma NothingStarts(s: Sys, j: JobId)
    requires Barren(s)
    ensures NoArtifactRunning(Next(s, DoBegin(j))) && Next(s, DoBegin(j)).row == s.row
  {
    if Waiting(s, j) {
      assert LoadWork(s.row, s.jobs[j].kind, s.chunkMax).Failure?;
    }
    forall i: JobId | i in Next(s, DoBegin(j)).jobs ensures !ArtifactRunning(Next(s, DoBegin(j)), i) {
      WorkerFrame(s, DoBegin(j));
      NothingRuns(s, i);
    }
  }

  lemma WorkerKeepsBarren(s: Sys, step: Step)
    requires Barren(s) && IsWorkerStep(step)
    ensures Barren(Next(s, step))
  {
    StepKeepsOrderUnrestarted(s, step);
    NothingRuns(s, step.job);
    if step.DoBegin? { NothingStarts(s, step.job); }
  }

  lemma HttpKeepsBarren(s: Sys, step: Step)
    requires Barren(s) && !IsWorkerStep(step)
    ensures Barren(Next(s, step))
  {
    StepKeepsOrderUnrestarted(s, step);
    StepKeepsPurge(s, step);
    assert s.row.state.Created?;
    assert Next(s, step).jobs == s.jobs && Next(s, step).row.artifacts == map[];
  }

  lemma {:induction false} RunKeepsBarren(s: Sys, steps: seq<Step>)
    requires Barren(s)
    ensures Barren(Run(s, steps))
    decreases steps
  {
    if steps != [] {
      if IsWorkerStep(steps[0]) { WorkerKeepsBarren(s, steps[0]); } else { HttpKeepsBarren(s, steps[0]); }
      RunKeepsBarren(Next(s, steps[0]), steps[1..]);
    }
  }

  lemma CommitLeavesArtifact(s: Sys, j: JobId)
    requires ArtifactRunning(s, j) && WorkFits(s.jobs[j])
    ensures Next(s, DoCommit(j, ReplyTo(s.jobs[j].work), "m")).row.artifacts != map[]
  {
    var job := s.jobs[j];
    var after := Next(s, DoCommit(j, ReplyTo(job.work), "m")).row.artifacts;
    match job.kind
    case SummaryJob => assert Summary in after;
    case PovsJob => assert Pov(job.work.pjs[|job.work.pjs| - 1]) in after;
    case ElementsJob => assert Elements in after;
    case NarrativeJob => assert Narrative in after;
  }

  lemma PurgeMakesBarren(s: Sys)
    requires Orderly(s) && s.row.audio.Some? && !s.row.state.Transcribing? && NoArtifactRunning(s)
    ensures Barren(Next(s, DoPurge))
  {
    StepKeepsOrder(s, DoPurge);
    assert Next(s, DoPurge).jobs == s.jobs;
  }

  /**
   * After a purge no artefact ever appears again exactly when no artefact job was waiting for
   * its model at the purge: such a job commits into the purged session.
   */
  lemma PurgeKeepsNoArtifactIff(s: Sys)
    requires Orderly(s) && s.row.audio.Some? && !s.row.state.Transcribing?
    ensures NoArtifactRunning(s)
       <==> forall later: seq<Step> :: Run(Next(s, DoPurge), later).row.artifacts == map[]
  {
    var t := Next(s, DoPurge);
    if NoArtifactRunning(s) {
      PurgeMakesBarren(s);
      forall later: seq<Step> ensures Run(t, later).row.artifacts == map[] {
        RunKeepsBarren(t, later);
      }
    } else {
      var j :| j in s.jobs && ArtifactRunning(s, j);
      assert t.jobs == s.jobs && WorkFits(t.jobs[j]);
      var commit := DoCommit(j, ReplyTo(t.jobs[j].work), "m");
      CommitLeavesArtifact(t, j);
      RunOne(t, commit);
      assert Run(t, [commit]).row.artifacts != map[];
    }
  }
}
