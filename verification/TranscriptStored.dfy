/**
 * What a diarised transcription job stores (app/jobs/jdr.py): exactly the segments it was given,
 * which every later job reads until the session is purged, restarted or edited.
 */
module TranscriptStored {
  import opened Wrappers
  import opened SessionModel
  import opened Bookkeeping
  import opened Lifecycle

  /** A job that captured the diarised mode stores the segments it was given, and nothing else of the session changes. */
  lemma CommitStoresSegments(s: Sys, j: JobId, segments: seq<Segment>, model: string)
    requires Running(s, j) && s.jobs[j].work == Transcribe(Diarised)
    ensures var t := Next(s, DoCommit(j, Transcript(segments), model));
            && t.row == s.row.(transcription := Some(segments), state := Transcribed)
            && t.jobs[j].status.Finished?
            && (s.row.mode.Diarised? && s.row.edited.None? ==> LoadSource(t.row) == Success(Segments(segments)))
  {}

  predicate Discards(step: Step) {
    step.DoPurge? || step.DoRestart?
  }

  /** Nothing else takes the stored transcription away or changes it. */
  lemma StepKeepsTranscript(s: Sys, step: Step)
    requires Orderly(s) && s.row.state.Transcribed? && !Discards(step)
    ensures var t := Next(s, step);
            && t.row.state.Transcribed? && t.row.transcription == s.row.transcription && t.row.mode == s.row.mode
            && (!step.DoSaveEdit? ==> t.row.edited == s.row.edited)
  {
    if IsWorkerStep(step) {
      WorkerFrame(s, step);
      if step.job in s.jobs && IsArtifactJob(s.jobs[step.job].kind) {
        ArtifactJobsLeaveRows(s, step);
      } else if step.job in s.jobs {
        assert !LiveTranscription(s, step.job);
      }
    }
  }

  lemma {:induction false} RunKeepsTranscript(s: Sys, later: seq<Step>)
    requires Orderly(s) && s.row.state.Transcribed? && Obeys(s, later, OneTranscription)
    requires forall i | 0 <= i < |later| :: !Discards(later[i])
    ensures var t := Run(s, later);
            && t.row.state.Transcribed? && t.row.transcription == s.row.transcription && t.row.mode == s.row.mode
            && ((forall i | 0 <= i < |later| :: !later[i].DoSaveEdit?) ==> t.row.edited == s.row.edited)
    decreases later
  {
    if later != [] {
      StepKeepsOrder(s, later[0]);
      StepKeepsTranscript(s, later[0]);
      RunKeepsTranscript(Next(s, later[0]), later[1..]);
    }
  }

  /**
   * Main theorem: in every run with one live transcription job, a diarised job that commits
   * leaves exactly its segments, in every later state until a purge or a restart; and until an
   * edit is saved they are what every other job reads.
   */
  lemma TranscriptIsKept(chunkMax: Limit, before: seq<Step>, j: JobId, segments: seq<Segment>, model: string,
      later: seq<Step>)
    requires Obeys(Init(Diarised, chunkMax), before, OneTranscription)
    requires var s := Run(Init(Diarised, chunkMax), before); Running(s, j) && s.jobs[j].kind.TranscriptionJob?
    requires var t := Next(Run(Init(Diarised, chunkMax), before), DoCommit(j, Transcript(segments), model));
             Obeys(t, later, OneTranscription)
    requires forall i | 0 <= i < |later| :: !Discards(later[i])
    ensures var t := Next(Run(Init(Diarised, chunkMax), before), DoCommit(j, Transcript(segments), model));
            var last := Run(t, later);
            && last.row.state.Transcribed? && last.row.transcription == Some(segments)
            && ((forall i | 0 <= i < |later| :: !later[i].DoSaveEdit?) ==>
                  LoadSource(last.row) == Success(Segments(segments)))
  {
    var init := Init(Diarised, chunkMax);
    RunKeepsOrder(init, before);
    ModeStays(init, before);
    var s := Run(init, before);
    assert LiveTranscription(s, j);
    CommitStoresSegments(s, j, segments, model);
    var commit := DoCommit(j, Transcript(segments), model);
    StepKeepsOrder(s, commit);
    RunKeepsTranscript(Next(s, commit), later);
  }

  /**
   * A new transcription is asked for in a transcribed or failed session whose audio is still
   * there: it replaces the old one, and everything made from that is gone.
   */
  lemma RestartReplaces(s: Sys, segments: seq<Segment>, model: string)
    requires s.row.state.Transcribed? || s.row.state.TranscriptionFailed?
    requires s.row.audio == Some(Audio(false)) && s.row.mode.Diarised?
    ensures var n := s.nextJob; var t := Run(s, [DoRestart, DoBegin(n), DoCommit(n, Transcript(segments), model)]);
            && t.row == s.row.(state := Transcribed, transcription := Some(segments), chunks := [], edited := None,
                               mapping := [], artifacts := map[], currentJob := Some(n))
            && LoadSource(t.row) == Success(Segments(segments))
  {
    var n := s.nextJob;
    RunThree(s, DoRestart, DoBegin(n), DoCommit(n, Transcript(segments), model));
    assert Waiting(Next(s, DoRestart), n);
    CommitStoresSegments(Next(Next(s, DoRestart), DoBegin(n)), n, segments, model);
  }
}
