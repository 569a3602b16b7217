/**
 * Where transcription output can exist: over every run with one live transcription job, chunks,
 * transcriptions and edited text belong to the transcribed state, and a purge is final.
 */
module Lifecycle {
  import opened Wrappers
  import opened SessionModel
  import opened Bookkeeping
  import PyText
  import TextChunker

  predicate LiveTranscription(s: Sys, j: JobId) {
    Live(s, j) && s.jobs[j].kind.TranscriptionJob?
  }

  predicate NoTranscriptionLive(s: Sys) {
    forall j | j in s.jobs :: !LiveTranscription(s, j)
  }

  /**
   * A restart is only asked for while no transcription job is live. The service itself does
   * not check this: after a permanent error the session is restartable and the job still has
   * retries left.
   */
  predicate OneTranscription(s: Sys, step: Step) {
    step.DoRestart? ==> NoTranscriptionLive(s)
  }

  predicate Purged(row: Session) {
    row.audio.Some? && row.audio.value.purged
  }

  predicate NoOutput(row: Session) {
    row.chunks == [] && row.transcription.None? && row.edited.None?
  }

  /** Output exists in the transcribed state only, in the form of the session's mode, numbered from zero. */
  ghost predicate OutputsFit(row: Session) {
    && (!row.state.Transcribed? ==> NoOutput(row))
    && (row.chunks != [] ==> row.mode.NonDiarised?)
    && (row.transcription.Some? ==> row.mode.Diarised?)
    && (forall i | 0 <= i < |row.chunks| :: row.chunks[i].ordre == i)
    && (Purged(row) ==> row.state.Created? && row.currentJob.None?)
    && (row.mapping != [] ==> row.mode.Diarised? && (row.state.Transcribed? || Purged(row)))
    && (row.players != [] ==> row.mode.NonDiarised?)
  }

  /** The one live transcription job is tracked until a purge, and runs only in the transcribing state. */
  ghost predicate Followed(s: Sys) {
    forall j: JobId | LiveTranscription(s, j) ::
      && (forall i: JobId | LiveTranscription(s, i) :: i == j)
      && !s.row.state.Transcribed?
      && (Purged(s.row) || s.row.currentJob == Some(j))
      && (Running(s, j) ==> s.row.state.Transcribing? && s.jobs[j].work == Transcribe(s.row.mode))
  }

  ghost predicate Orderly(s: Sys) {
    Booked(s) && OutputsFit(s.row) && Followed(s)
  }

  // ----- The invariant over runs --------------------------------------------------------

  lemma EnqueueKeepsOrder(s: Sys, step: Step)
    requires Orderly(s) && OneTranscription(s, step) && (step.DoUpload? || step.DoRestart?)
    ensures Orderly(Next(s, step))
  {
    StepKeepsBooked(s, step);
    var s' := Next(s, step);
    if s' != s {
      forall j: JobId | LiveTranscription(s', j) ensures j == s.nextJob {
        if j != s.nextJob { assert LiveTranscription(s, j); }
      }
    }
  }

  lemma HttpKeepsOrder(s: Sys, step: Step)
    requires Orderly(s)
    requires step.DoPurge? || step.DoRecover? || step.DoSaveEdit? || step.DoSetMapping? || step.DoSetPlayers?
             || step.DoEditArtifact?
    ensures Orderly(Next(s, step))
  {
    StepKeepsBooked(s, step);
    var s' := Next(s, step);
    forall j: JobId | LiveTranscription(s', j)
      ensures forall i: JobId | LiveTranscription(s', i) :: i == j
    {
      forall i: JobId | LiveTranscription(s', i) ensures i == j { assert LiveTranscription(s, i) && LiveTranscription(s, j); }
    }
  }

  lemma PostKeepsOrder(s: Sys, step: Step)
    requires Orderly(s) && step.DoPost?
    ensures Orderly(Next(s, step))
  {
    StepKeepsBooked(s, step);
    var s' := Next(s, step);
    if s' != s {
      forall j: JobId | LiveTranscription(s', j) ensures LiveTranscription(s, j) {}
    }
  }

  predicate SameOutput(before: Session, after: Session) {
    && after.state == before.state && after.transcription == before.transcription && after.edited == before.edited
    && after.mapping == before.mapping && after.players == before.players
    && |after.chunks| == |before.chunks|
    && (forall i | 0 <= i < |after.chunks| :: after.chunks[i].ordre == before.chunks[i].ordre)
  }

  /** What an artefact job commits leaves every row a transcription writes in place. */
  lemma ArtifactCommitsLeaveRows(s: Sys, kind: JobKind, work: Work, reply: Reply, model: string)
    requires Answers(work, reply) && !work.Transcribe?
    ensures var done := Committed(s, kind, work, reply, model);
            done.Some? ==> SameOutput(s.row, done.value.row)
  {}

  /** A worker step of another job changes nothing a transcription depends on. */
  lemma ArtifactJobsLeaveRows(s: Sys, step: Step)
    requires Booked(s) && IsWorkerStep(step) && (step.job in s.jobs ==> IsArtifactJob(s.jobs[step.job].kind))
    ensures SameOutput(s.row, Next(s, step).row)
  {
    if step.DoCommit? {
      if Running(s, step.job) && Answers(s.jobs[step.job].work, step.reply) {
        ArtifactCommitsLeaveRows(s, s.jobs[step.job].kind, s.jobs[step.job].work, step.reply, step.model);
      }
    }
  }

  lemma ArtifactJobsKeepOrder(s: Sys, step: Step)
    requires Orderly(s) && IsWorkerStep(step) && (step.job in s.jobs ==> IsArtifactJob(s.jobs[step.job].kind))
    ensures Orderly(Next(s, step))
  {
    WorkerKeepsBooked(s, step);
    WorkerFrame(s, step);
    ArtifactJobsLeaveRows(s, step);
    var s' := Next(s, step);
    forall j: JobId | LiveTranscription(s', j) ensures LiveTranscription(s, j) && s'.jobs[j] == s.jobs[j] {}
  }

  /** In an orderly session the bulk insert of chunks never meets an existing row. */
  lemma BulkInsertNeverClashes(s: Sys, j: JobId, reply: Reply, model: string)
    requires Orderly(s) && Running(s, j) && s.jobs[j].kind.TranscriptionJob? && Answers(s.jobs[j].work, reply)
    ensures s.row.chunks == []
    ensures Committed(s, s.jobs[j].kind, s.jobs[j].work, reply, model).Some?
  {
    assert LiveTranscription(s, j);
  }

  lemma TranscriptionKeepsOutputs(s: Sys, step: Step)
    requires Orderly(s) && IsWorkerStep(step) && step.job in s.jobs && s.jobs[step.job].kind.TranscriptionJob?
    ensures OutputsFit(Next(s, step).row)
  {
    if Active(s.jobs[step.job].status) { assert LiveTranscription(s, step.job); }
  }

  lemma TranscriptionKeepsOrder(s: Sys, step: Step)
    requires Orderly(s) && IsWorkerStep(step) && step.job in s.jobs && s.jobs[step.job].kind.TranscriptionJob?
    ensures Orderly(Next(s, step))
  {
    WorkerKeepsBooked(s, step);
    WorkerFrame(s, step);
    TranscriptionKeepsOutputs(s, step);
    var s' := Next(s, step);
    forall j: JobId | LiveTranscription(s', j)
      ensures forall i: JobId | LiveTranscription(s', i) :: i == j
      ensures LiveTranscription(s, j)
    {
      forall i: JobId | LiveTranscription(s', i) ensures i == j { assert LiveTranscription(s, i) && LiveTranscription(s, j); }
    }
    if Active(s.jobs[step.job].status) { assert LiveTranscription(s, step.job); }
  }

  lemma StepKeepsOrder(s: Sys, step: Step)
    requires Orderly(s) && OneTranscription(s, step)
    ensures Orderly(Next(s, step))
  {
    if IsWorkerStep(step) {
      if step.job in s.jobs && s.jobs[step.job].kind.TranscriptionJob? {
        TranscriptionKeepsOrder(s, step);
      } else {
        ArtifactJobsKeepOrder(s, step);
      }
    } else if step.DoUpload? || step.DoRestart? {
      EnqueueKeepsOrder(s, step);
    } else if step.DoPost? {
      PostKeepsOrder(s, step);
    } else {
      HttpKeepsOrder(s, step);
    }
  }

  lemma {:induction false} RunKeepsOrder(s: Sys, steps: seq<Step>)
    requires Orderly(s) && Obeys(s, steps, OneTranscription)
    ensures Orderly(Run(s, steps))
    decreases steps
  {
    if steps != [] {
      StepKeepsOrder(s, steps[0]);
      RunKeepsOrder(Next(s, steps[0]), steps[1..]);
    }
  }

  /** Main theorem: where output may exist, over every run. */
  lemma OutputOnlyWhenTranscribed(mode: Mode, chunkMax: Limit, steps: seq<Step>)
    requires Obeys(Init(mode, chunkMax), steps, OneTranscription)
    ensures var row := Run(Init(mode, chunkMax), steps).row;
            && (!row.state.Transcribed? ==> NoOutput(row))
            && (row.chunks != [] ==> mode.NonDiarised?)
            && (row.transcription.Some? ==> mode.Diarised?)
            && (forall i | 0 <= i < |row.chunks| :: row.chunks[i].ordre == i)
            && (row.mapping != [] ==> mode.Diarised? && (row.state.Transcribed? || Purged(row)))
            && (row.players != [] ==> mode.NonDiarised?)
  {
    RunKeepsOrder(Init(mode, chunkMax), steps);
    ModeStays(Init(mode, chunkMax), steps);
  }

  lemma {:induction false} ModeStays(s: Sys, steps: seq<Step>)
    ensures Run(s, steps).row.mode == s.row.mode
    decreases steps
  {
    if steps != [] {
      if IsWorkerStep(steps[0]) { WorkerFrame(s, steps[0]); }
      ModeStays(Next(s, steps[0]), steps[1..]);
    }
  }

  // ----- The unique key on chunks -------------------------------------------------------

  /** No two chunk rows of the session have the same number. */
  ghost predicate OrdresDiffer(row: Session) {
    forall i, k | 0 <= i < k < |row.chunks| :: row.chunks[i].ordre != row.chunks[k].ordre
  }

  lemma NewChunksDiffer(s: Sys, texts: seq<string>)
    requires OrdresDiffer(s.row) && ChunksCommitted(s, texts).Some?
    ensures OrdresDiffer(ChunksCommitted(s, texts).value.row)
  {
    var chunks := ChunksCommitted(s, texts).value.row.chunks;
    forall i | 0 <= i < |chunks|
      ensures if i < |texts| then chunks[i].ordre == i else chunks[i] == s.row.chunks[i - |texts|] && chunks[i].ordre >= |texts|
    {}
  }

  lemma CommitsKeepKey(s: Sys, kind: JobKind, work: Work, reply: Reply, model: string)
    requires OrdresDiffer(s.row) && Answers(work, reply)
    ensures var done := Committed(s, kind, work, reply, model); done.Some? ==> OrdresDiffer(done.value.row)
  {
    var done := Committed(s, kind, work, reply, model);
    if done.Some? {
      if work.Transcribe? && work.mode.NonDiarised? {
        NewChunksDiffer(s, TextChunker.Chunks(Joined(reply.segments), s.chunkMax));
      } else {
        assert |done.value.row.chunks| == |s.row.chunks|;
        assert forall i | 0 <= i < |s.row.chunks| :: done.value.row.chunks[i].ordre == s.row.chunks[i].ordre;
      }
    }
  }

  lemma StepKeepsKey(s: Sys, step: Step)
    requires OrdresDiffer(s.row)
    ensures OrdresDiffer(Next(s, step).row)
  {
    if step.DoCommit? {
      if Running(s, step.job) && Answers(s.jobs[step.job].work, step.reply) {
        CommitsKeepKey(s, s.jobs[step.job].kind, s.jobs[step.job].work, step.reply, step.model);
      }
    } else {
      assert Next(s, step).row.chunks == s.row.chunks || Next(s, step).row.chunks == [];
    }
  }

  /** In every run whatsoever, two transcriptions at once included, no two chunks have the same number. */
  lemma {:induction false} RunKeepsKey(s: Sys, steps: seq<Step>)
    requires OrdresDiffer(s.row)
    ensures OrdresDiffer(Run(s, steps).row)
    decreases steps
  {
    if steps != [] {
      StepKeepsKey(s, steps[0]);
      RunKeepsKey(Next(s, steps[0]), steps[1..]);
    }
  }

  // ----- A purge is final ---------------------------------------------------------------

  lemma StepKeepsPurge(s: Sys, step: Step)
    requires Purged(s.row)
    ensures Purged(Next(s, step).row)
  {
    if IsWorkerStep(step) { WorkerFrame(s, step); }
  }

  /** A restart that is refused needs no policy. */
  lemma StepKeepsOrderUnrestarted(s: Sys, step: Step)
    requires Orderly(s) && !Restartable(s.row)
    ensures Orderly(Next(s, step))
  {
    if step.DoRestart? {
      assert Next(s, step) == s;
    } else {
      StepKeepsOrder(s, step);
    }
  }

  /**
   * Once the audio is purged, no output of a transcription ever appears again, whatever is asked
   * for and whatever jobs were queued; and a new upload is refused for good.
   */
  lemma {:induction false} PurgeIsFinal(s: Sys, later: seq<Step>)
    requires Orderly(s) && Purged(s.row)
    ensures var t := Run(s, later);
            && Orderly(t) && Purged(t.row) && NoOutput(t.row) && t.row.state.Created?
            && Upload(t) == Failure(AudioAlreadyUploaded)
    decreases later
  {
    if later != [] {
      StepKeepsOrderUnrestarted(s, later[0]);
      StepKeepsPurge(s, later[0]);
      PurgeIsFinal(Next(s, later[0]), later[1..]);
    }
  }

  lemma {:induction false} AudioStays(s: Sys, steps: seq<Step>)
    requires s.row.audio.Some?
    ensures Run(s, steps).row.audio.Some?
    decreases steps
  {
    if steps != [] {
      if IsWorkerStep(steps[0]) { WorkerFrame(s, steps[0]); }
      AudioStays(Next(s, steps[0]), steps[1..]);
    }
  }

  /** After an accepted purge a new upload goes through exactly if there never was any audio; else none ever does. */
  lemma UploadAfterPurgeIff(s: Sys)
    requires Purge(s).Success?
    ensures Upload(Next(s, DoPurge)).Success? <==> s.row.audio.None?
    ensures (exists later :: Upload(Run(Next(s, DoPurge), later)).Success?) <==> s.row.audio.None?
  {
    var t := Next(s, DoPurge);
    if s.row.audio.None? {
      var later: seq<Step> := [];
      RunNone(t, later, OneTranscription);
      assert Upload(Run(t, later)).Success?;
    } else {
      forall later ensures Upload(Run(t, later)).Failure? { AudioStays(t, later); }
    }
  }

  /**
   * A session is only ever recovered when no transcription of it is live any more, so the
   * restart this makes possible is a safe one.
   */
  lemma RecoverIsSafe(s: Sys)
    requires Orderly(s) && Recover(s).Success?
    ensures NoTranscriptionLive(s)
    ensures var t := Next(s, DoRecover); Orderly(t) && Restartable(t.row) && NoTranscriptionLive(t)
  {
    StepKeepsOrder(s, DoRecover);
    forall j: JobId | j in s.jobs
      ensures LiveTranscription(s, j) ==> s.row.currentJob == Some(j) && Live(s, j)
    {}
  }

  // ----- Exactly when a restart is safe -------------------------------------------------

  predicate PurgeHeld(s: Sys) {
    Purged(s.row) ==> s.row.chunks == [] && s.row.transcription.None?
  }

  lemma {:induction false} WithoutRestartObeys(s: Sys, steps: seq<Step>)
    requires forall i | 0 <= i < |steps| :: !steps[i].DoRestart?
    ensures Obeys(s, steps, OneTranscription)
    decreases steps
  {
    if steps != [] { WithoutRestartObeys(Next(s, steps[0]), steps[1..]); }
  }

  /** A permanent error makes the session restartable and leaves its job waiting for a retry. */
  lemma PermanentErrorInvitesRestart(s: Sys, j: JobId)
    requires Orderly(s) && Running(s, j) && s.jobs[j].kind.TranscriptionJob? && s.jobs[j].retriesLeft > 0
    ensures var t := Next(s, DoFail(j, Permanent));
            Orderly(t) && Restartable(t.row) && LiveTranscription(t, j)
  {
    assert LiveTranscription(s, j);
    StepKeepsOrder(s, DoFail(j, Permanent));
  }

  const ONE_WORD := Transcript([Segment("speaker_1", 0.0, 1.0, "x")])

  lemma OneWordMakesChunks(chunkMax: Limit)
    ensures TextChunker.Chunks(Joined(ONE_WORD.segments), chunkMax) != []
  {
    PyText.StripOfStripped("x");
    assert !PyText.IsSpace("x"[0]);
    assert Joined(ONE_WORD.segments[..0]) == "";
    assert Joined(ONE_WORD.segments) == "x";
    TextChunker.ChunksDecompose("x", chunkMax);
  }

  /** Both jobs of a premature restart get to run, side by side. */
  lemma BothBegin(s: Sys, j: JobId)
    requires Orderly(s) && Restartable(s.row) && LiveTranscription(s, j)
    ensures var t := Next(Next(Next(s, DoRestart), DoBegin(j)), DoBegin(s.nextJob));
            && Running(t, j) && Running(t, s.nextJob) && j != s.nextJob
            && t.jobs[j].work == Transcribe(s.row.mode) && t.jobs[s.nextJob].work == Transcribe(s.row.mode)
            && t.row.chunks == [] && t.row.audio == s.row.audio && t.row.mode == s.row.mode
  {
    var a := Next(s, DoRestart);
    assert Waiting(a, j) && Waiting(a, s.nextJob);
    var b := Next(a, DoBegin(j));
    assert Running(b, j) && Waiting(b, s.nextJob);
  }

  /** The first to finish makes a purge possible; the second then writes into the purged session. */
  lemma SecondCommitAfterPurge(t: Sys, j: JobId, n: JobId)
    requires Running(t, j) && Running(t, n) && j != n && t.row.chunks == [] && t.row.audio.Some?
    requires t.jobs[j].work == Transcribe(t.row.mode) && t.jobs[n].work == Transcribe(t.row.mode)
    ensures !PurgeHeld(Next(Next(Next(t, DoCommit(j, ONE_WORD, "m")), DoPurge), DoCommit(n, ONE_WORD, "m")))
  {
    OneWordMakesChunks(t.chunkMax);
    var a := Next(t, DoCommit(j, ONE_WORD, "m"));
    assert a.row.state.Transcribed? && a.jobs[n] == t.jobs[n];
    var b := Next(a, DoPurge);
    assert Purged(b.row) && b.row.chunks == [] && b.row.mode == t.row.mode && b.chunkMax == t.chunkMax;
  }

  /**
   * The purge stays final after a restart exactly when no transcription job was still live at
   * the restart: a live one, waiting for its retry, can write into the purged session.
   */
  lemma RestartIsSafeIff(s: Sys)
    requires Orderly(s) && Restartable(s.row)
    ensures NoTranscriptionLive(s)
       <==> forall later | Obeys(Next(s, DoRestart), later, OneTranscription) ::
              PurgeHeld(Run(Next(s, DoRestart), later))
  {
    var s1 := Next(s, DoRestart);
    if NoTranscriptionLive(s) {
      forall later | Obeys(s1, later, OneTranscription) ensures PurgeHeld(Run(s1, later)) {
        StepKeepsOrder(s, DoRestart);
        RunKeepsOrder(s1, later);
      }
    } else {
      var j :| j in s.jobs && LiveTranscription(s, j);
      var n := s.nextJob;
      var later := [DoBegin(j), DoBegin(n)] + [DoCommit(j, ONE_WORD, "m"), DoPurge, DoCommit(n, ONE_WORD, "m")];
      BothBegin(s, j);
      var t := Next(Next(s1, DoBegin(j)), DoBegin(n));
      SecondCommitAfterPurge(t, j, n);
      RunTwo(s1, DoBegin(j), DoBegin(n));
      RunThree(t, DoCommit(j, ONE_WORD, "m"), DoPurge, DoCommit(n, ONE_WORD, "m"));
      RunAppend(s1, [DoBegin(j), DoBegin(n)], [DoCommit(j, ONE_WORD, "m"), DoPurge, DoCommit(n, ONE_WORD, "m")]);
      WithoutRestartObeys(s1, later);
      assert !PurgeHeld(Run(s1, later));
    }
  }
}
