/**
 * Whenever a POST route accepts an artefact request, the worker finds its source: the checks
 * of the routes and the checks of the jobs agree in every reachable state.
 */
module Readiness {
  import opened Wrappers
  import opened SessionModel
  import opened Bookkeeping
  import opened Lifecycle
  import EditedArtifacts
  import TextChunker

  /** The source a non-diarised artefact job reads is there. */
  predicate Ready(row: Session) {
    || HasEditedText(row)
    || (row.chunks != [] && forall i | 0 <= i < |row.chunks| :: Summarised(row.chunks[i]))
  }

  predicate SummaryRunning(s: Sys, j: JobId) {
    Running(s, j) && s.jobs[j].kind.SummaryJob?
  }

  predicate NoSummaryRunning(s: Sys) {
    forall j | j in s.jobs :: !SummaryRunning(s, j)
  }

  predicate NonEmptyPartials(reply: Reply) {
    reply.Summaries? ==> forall i | 0 <= i < |reply.partials| :: reply.partials[i] != ""
  }

  /**
   * Models never return an empty partial summary, and the session is not restarted while a
   * summary job waits for its model.
   */
  predicate Steady(s: Sys, step: Step) {
    && OneTranscription(s, step)
    && (step.DoRestart? ==> NoSummaryRunning(s))
    && (step.DoCommit? ==> NonEmptyPartials(step.reply))
  }

  /**
   * Nor is it purged meanwhile. Runs in which a summary job loads and commits without anything
   * in between are the special case.
   */
  predicate Undisturbed(s: Sys, step: Step) {
    Steady(s, step) && (step.DoPurge? ==> NoSummaryRunning(s))
  }

  // ----- What a summary commit writes ---------------------------------------------------

  /** Some entry of the data a summary job read carries this chunk id. */
  ghost predicate Covers(data: seq<(Option<ChunkId>, string)>, id: ChunkId) {
    exists k | 0 <= k < |data| :: data[k].0 == Some(id)
  }

  lemma {:induction false} PartialForIff(id: ChunkId, data: seq<(Option<ChunkId>, string)>, partials: seq<string>)
    requires |data| == |partials|
    ensures PartialFor(id, data, partials).Some? <==> Covers(data, id)
    ensures PartialFor(id, data, partials).Some? ==> PartialFor(id, data, partials).value in partials
    decreases data
  {
    if data != [] {
      var n := |data| - 1;
      PartialForIff(id, data[..n], partials[..n]);
      if Covers(data, id) && data[n].0 != Some(id) {
        var k :| 0 <= k < |data| && data[k].0 == Some(id);
        assert data[..n][k].0 == Some(id);
      }
    }
  }

  /** The last entry with this chunk id, whose partial summary is the one stored, got a non-empty one. */
  ghost predicate Told(data: seq<(Option<ChunkId>, string)>, partials: seq<string>, id: ChunkId)
    requires |data| == |partials|
  {
    exists k | 0 <= k < |data| ::
      data[k].0 == Some(id) && partials[k] != "" && forall m | k < m < |data| :: data[m].0 != Some(id)
  }

  lemma {:induction false} PartialForIsLast(id: ChunkId, data: seq<(Option<ChunkId>, string)>, partials: seq<string>)
    requires |data| == |partials|
    ensures PartialFor(id, data, partials).Some? && PartialFor(id, data, partials).value != "" <==> Told(data, partials, id)
    decreases data
  {
    if data != [] {
      var n := |data| - 1;
      if data[n].0 != Some(id) {
        PartialForIsLast(id, data[..n], partials[..n]);
        if Told(data[..n], partials[..n], id) {
          var k :| 0 <= k < n && data[..n][k].0 == Some(id) && partials[..n][k] != ""
                   && forall m | k < m < n :: data[..n][m].0 != Some(id);
          forall m | k < m < |data| ensures data[m].0 != Some(id) { if m < n { assert data[m] == data[..n][m]; } }
          assert data[k].0 == Some(id);
        }
        if Told(data, partials, id) {
          var k :| 0 <= k < |data| && data[k].0 == Some(id) && partials[k] != ""
                   && forall m | k < m < |data| :: data[m].0 != Some(id);
          assert data[..n][k].0 == Some(id);
        }
      }
    }
  }

  /** With partial summaries that are not empty, every chunk the job has read is told. */
  lemma CoveredIsTold(data: seq<(Option<ChunkId>, string)>, reply: Reply, id: ChunkId)
    requires reply.Summaries? && |reply.partials| == |data| && NonEmptyPartials(reply)
    ensures Told(data, reply.partials, id) <==> Covers(data, id)
  {
    PartialForIff(id, data, reply.partials);
    PartialForIsLast(id, data, reply.partials);
  }

  /** After a summary commit the source is ready exactly when every chunk there is now got a non-empty partial summary. */
  lemma SummaryCommitReadyIff(s: Sys, data: seq<(Option<ChunkId>, string)>, reply: Reply, model: string)
    requires reply.Summaries? && |reply.partials| == |data|
    ensures Ready(Committed(s, SummaryJob, Summarise(data), reply, model).value.row)
       <==> HasEditedText(s.row)
            || (s.row.chunks != [] && forall i | 0 <= i < |s.row.chunks| :: Told(data, reply.partials, s.row.chunks[i].id))
  {
    var after := Committed(s, SummaryJob, Summarise(data), reply, model).value.row;
    forall i | 0 <= i < |s.row.chunks|
      ensures Summarised(after.chunks[i]) <==> Told(data, reply.partials, s.row.chunks[i].id)
    {
      PartialForIsLast(s.row.chunks[i].id, data, reply.partials);
    }
  }

  // ----- The invariant ------------------------------------------------------------------

  /** Chunk ids were handed out by the counter. */
  ghost predicate IdsOld(s: Sys, data: seq<(Option<ChunkId>, string)>) {
    forall i | 0 <= i < |data| :: data[i].0.Some? ==> data[i].0.value < s.nextChunk
  }

  /** A running summary job has read what it will be matched against. */
  ghost predicate Current(row: Session, data: seq<(Option<ChunkId>, string)>) {
    || HasEditedText(row)
    || (row.chunks != [] && forall i | 0 <= i < |row.chunks| :: Covers(data, row.chunks[i].id))
  }

  ghost predicate RowReady(s: Sys) {
    && (forall i | 0 <= i < |s.row.chunks| :: s.row.chunks[i].id < s.nextChunk)
    && (s.row.edited.Some? ==> HasEditedText(s.row))
    && (Summary in s.row.artifacts && s.row.mode.NonDiarised? ==> s.row.state.Transcribed? && Ready(s.row))
    && (s.row.state.Transcribed? && s.row.mode.Diarised? ==> s.row.transcription.Some?)
  }

  ghost predicate JobsReady(s: Sys) {
    forall j | SummaryRunning(s, j) && s.jobs[j].work.Summarise? ::
      && s.row.mode.NonDiarised? && s.row.state.Transcribed?
      && Current(s.row, s.jobs[j].work.data) && IdsOld(s, s.jobs[j].work.data)
  }

  ghost predicate Sound(s: Sys) {
    Orderly(s) && RowReady(s) && JobsReady(s)
  }

  lemma HttpKeepsSound(s: Sys, step: Step)
    requires Sound(s) && Undisturbed(s, step) && !IsWorkerStep(step)
    ensures Sound(Next(s, step))
  {
    StepKeepsOrder(s, step);
    var s' := Next(s, step);
    forall j | SummaryRunning(s', j) ensures SummaryRunning(s, j) && s'.jobs[j] == s.jobs[j] {}
  }

  /** Failing, losing or merely picking up a job leaves what the running summary jobs rely on. */
  lemma OtherJobsStay(s: Sys, step: Step)
    requires Booked(s) && IsWorkerStep(step)
    ensures forall j | j != step.job && SummaryRunning(Next(s, step), j) ::
              SummaryRunning(s, j) && Next(s, step).jobs[j] == s.jobs[j]
    ensures !step.DoBegin? && SummaryRunning(Next(s, step), step.job) ==> Next(s, step) == s
  {
    WorkerFrame(s, step);
  }

  /** While a transcription job runs there is no chunk and no edited text, hence no summary; and no summary job runs. */
  lemma NoSummaryBeside(s: Sys, j: JobId)
    requires Sound(s) && LiveTranscription(s, j)
    ensures s.row.mode.NonDiarised? ==> Summary !in s.row.artifacts
    ensures forall i | SummaryRunning(s, i) :: !s.jobs[i].work.Summarise?
  {}

  lemma TranscriptionKeepsRow(s: Sys, step: Step)
    requires Sound(s) && IsWorkerStep(step) && step.job in s.jobs && s.jobs[step.job].kind.TranscriptionJob?
    ensures RowReady(Next(s, step))
  {
    var s' := Next(s, step);
    if s'.row != s.row {
      assert LiveTranscription(s, step.job);
      NoSummaryBeside(s, step.job);
      ArtifactsUntouched(s, step);
    }
  }

  lemma TranscriptionKeepsSound(s: Sys, step: Step)
    requires Sound(s) && IsWorkerStep(step) && step.job in s.jobs && s.jobs[step.job].kind.TranscriptionJob?
    requires Undisturbed(s, step)
    ensures Sound(Next(s, step))
  {
    StepKeepsOrder(s, step);
    TranscriptionKeepsRow(s, step);
    OtherJobsStay(s, step);
    WorkerFrame(s, step);
    if Next(s, step).row != s.row {
      NoSummaryBeside(s, step.job);
    }
  }

  lemma ArtifactsUntouched(s: Sys, step: Step)
    requires Booked(s) && IsWorkerStep(step) && step.job in s.jobs && s.jobs[step.job].kind.TranscriptionJob?
    ensures Next(s, step).row.artifacts == s.row.artifacts
  {}

  /** What a summary job reads covers every chunk, or an edited text stands in for them. */
  lemma LoadIsCurrent(s: Sys)
    requires RowReady(s) && ChunkData(s.row, s.chunkMax) != []
    ensures Current(s.row, ChunkData(s.row, s.chunkMax)) && IdsOld(s, ChunkData(s.row, s.chunkMax))
  {
    var data := ChunkData(s.row, s.chunkMax);
    if !HasEditedText(s.row) {
      forall i | 0 <= i < |s.row.chunks| ensures Covers(data, s.row.chunks[i].id) {
        assert data[i].0 == Some(s.row.chunks[i].id);
      }
    }
  }

  /** A summary job starts in a transcribed, non-diarised session, with all of its chunks. */
  lemma SummaryBegins(s: Sys, j: JobId)
    requires Waiting(s, j) && s.jobs[j].kind.SummaryJob?
    ensures var s' := Next(s, DoBegin(j));
            && s'.row == s.row && s'.nextChunk == s.nextChunk
            && (SummaryRunning(s', j) ==>
                  && s'.jobs[j].work == Summarise(ChunkData(s.row, s.chunkMax)) && ChunkData(s.row, s.chunkMax) != []
                  && s.row.mode.NonDiarised? && s.row.state.Transcribed?)
  {}

  lemma SummaryBeginKeepsSound(s: Sys, j: JobId)
    requires Sound(s) && Waiting(s, j) && s.jobs[j].kind.SummaryJob?
    ensures Sound(Next(s, DoBegin(j)))
  {
    StepKeepsOrder(s, DoBegin(j));
    OtherJobsStay(s, DoBegin(j));
    SummaryBegins(s, j);
    if SummaryRunning(Next(s, DoBegin(j)), j) { LoadIsCurrent(s); }
  }

  /** The commit of a running summary job that the model answered. */
  predicate CommitsSummary(s: Sys, step: Step) {
    step.DoCommit? && SummaryRunning(s, step.job) && Answers(s.jobs[step.job].work, step.reply)
  }

  lemma ReadySummaryKeepsSound(s: Sys, step: Step)
    requires Sound(s) && CommitsSummary(s, step) && Ready(Next(s, step).row)
    ensures Sound(Next(s, step))
  {
    StepKeepsOrder(s, step);
    OtherJobsStay(s, step);
    var data := s.jobs[step.job].work.data;
    var s' := Next(s, step);
    assert s'.row == Committed(s, SummaryJob, Summarise(data), step.reply, step.model).value.row;
    assert forall i | 0 <= i < |s'.row.chunks| :: s'.row.chunks[i].id == s.row.chunks[i].id;
  }

  lemma SummaryCommitKeepsSound(s: Sys, step: Step)
    requires Sound(s) && CommitsSummary(s, step) && NonEmptyPartials(step.reply)
    ensures Sound(Next(s, step))
  {
    var data := s.jobs[step.job].work.data;
    forall i | 0 <= i < |s.row.chunks|
      ensures Told(data, step.reply.partials, s.row.chunks[i].id) <==> Covers(data, s.row.chunks[i].id)
    {
      CoveredIsTold(data, step.reply, s.row.chunks[i].id);
    }
    SummaryCommitReadyIff(s, data, step.reply, step.model);
    ReadySummaryKeepsSound(s, step);
  }

  /** The other artefact jobs write neither the summary nor anything the readiness depends on. */
  lemma OtherArtifactKeepsSound(s: Sys, step: Step)
    requires Sound(s) && IsWorkerStep(step) && Undisturbed(s, step)
    requires step.job in s.jobs ==> IsArtifactJob(s.jobs[step.job].kind)
    requires step.job in s.jobs && s.jobs[step.job].kind.SummaryJob? ==> step.DoFail? || step.DoLose?
    ensures Sound(Next(s, step))
  {
    StepKeepsOrder(s, step);
    OtherJobsStay(s, step);
    var s' := Next(s, step);
    if step.DoCommit? && Running(s, step.job) {
      EditedArtifacts.WritesInsideGuard(s, step.job, step.reply, step.model, Summary);
    }
    OnlyArtifactsChange(s, step);
  }

  lemma OnlyArtifactsChange(s: Sys, step: Step)
    requires Booked(s) && IsWorkerStep(step)
    requires step.job in s.jobs ==> IsArtifactJob(s.jobs[step.job].kind)
    requires step.job in s.jobs && s.jobs[step.job].kind.SummaryJob? ==> step.DoFail? || step.DoLose?
    ensures Next(s, step).row == s.row.(artifacts := Next(s, step).row.artifacts)
    ensures Next(s, step).nextChunk == s.nextChunk
  {}

  lemma StepKeepsSound(s: Sys, step: Step)
    requires Sound(s) && Undisturbed(s, step)
    ensures Sound(Next(s, step))
  {
    if !IsWorkerStep(step) {
      HttpKeepsSound(s, step);
    } else if step.job !in s.jobs {
    } else if s.jobs[step.job].kind.TranscriptionJob? {
      TranscriptionKeepsSound(s, step);
    } else if s.jobs[step.job].kind.SummaryJob? && step.DoBegin? {
      if Waiting(s, step.job) { SummaryBeginKeepsSound(s, step.job); }
    } else if s.jobs[step.job].kind.SummaryJob? && step.DoCommit? {
      if CommitsSummary(s, step) { SummaryCommitKeepsSound(s, step); }
    } else {
      OtherArtifactKeepsSound(s, step);
    }
  }

  lemma {:induction false} RunKeepsSound(s: Sys, steps: seq<Step>)
    requires Sound(s) && Obeys(s, steps, Undisturbed)
    ensures Sound(Run(s, steps))
    decreases steps
  {
    if steps != [] {
      StepKeepsSound(s, steps[0]);
      RunKeepsSound(Next(s, steps[0]), steps[1..]);
    }
  }

  // ----- The theorem --------------------------------------------------------------------

  /** The routes' checks and the jobs' checks on the same state. */
  ghost predicate ChecksAgree(s: Sys) {
    forall kind: JobKind :: PostRefusal(s.row, kind).None? ==> LoadWork(s.row, kind, s.chunkMax).Success?
  }

  lemma SourceIsThere(s: Sys)
    requires Sound(s) && s.row.state.Transcribed?
    requires s.row.mode.NonDiarised? ==> Summary in s.row.artifacts || HasEditedText(s.row)
    ensures LoadSource(s.row).Success?
  {}

  lemma SummarySourceIsThere(s: Sys)
    requires Sound(s) && PostRefusal(s.row, SummaryJob).None?
    ensures LoadWork(s.row, SummaryJob, s.chunkMax).Success?
  {
    if HasEditedText(s.row) {
      TextChunker.ChunksDecompose(s.row.edited.value, s.chunkMax);
    }
  }

  lemma SoundChecksAgree(s: Sys)
    requires Sound(s)
    ensures ChecksAgree(s)
  {
    forall kind: JobKind | PostRefusal(s.row, kind).None?
      ensures LoadWork(s.row, kind, s.chunkMax).Success?
    {
      if kind.SummaryJob? { SummarySourceIsThere(s); } else { SourceIsThere(s); }
    }
  }

  /** A saved edit is what the artefact jobs read from then on, in place of the transcription or the chunks. */
  lemma SavedEditIsRead(s: Sys, content: string)
    requires SaveEdit(s, content).Success?
    ensures LoadSource(Next(s, DoSaveEdit(content)).row) == Success(EditedText(content))
  {}

  /** A job that has just started holds the source of the session as it is now. */
  lemma StartedJobHoldsSource(s: Sys, j: JobId)
    requires Waiting(s, j) && Running(Next(s, DoBegin(j)), j)
    ensures var work := Next(s, DoBegin(j)).jobs[j].work;
            && (s.jobs[j].kind.NarrativeJob? || s.jobs[j].kind.ElementsJob? ==>
                  LoadSource(s.row).Success? && work == FromSource(LoadSource(s.row).value))
            && (s.jobs[j].kind.PovsJob? ==>
                  LoadSource(s.row).Success? && work.PovsFrom? && work.source == LoadSource(s.row).value)
            && (s.jobs[j].kind.TranscriptionJob? ==> work == Transcribe(s.row.mode))
  {}

  lemma EditedData(row: Session, chunkMax: Limit)
    requires HasEditedText(row)
    ensures var texts := TextChunker.Chunks(row.edited.value, chunkMax);
            && texts != [] && |ChunkData(row, chunkMax)| == |texts|
            && forall i | 0 <= i < |texts| :: ChunkData(row, chunkMax)[i] == (None, texts[i])
  {
    TextChunker.ChunksDecompose(row.edited.value, chunkMax);
  }

  /** And the summary job summarises its pieces, which stand for no chunk row. */
  lemma SavedEditIsSummarised(s: Sys, content: string)
    requires SaveEdit(s, content).Success? && s.row.mode.NonDiarised?
    ensures var load := LoadWork(Next(s, DoSaveEdit(content)).row, SummaryJob, s.chunkMax);
            var texts := TextChunker.Chunks(content, s.chunkMax);
            && load.Success? && load.value.Summarise? && |load.value.data| == |texts|
            && forall i | 0 <= i < |texts| :: load.value.data[i] == (None, texts[i])
  {
    EditedData(Next(s, DoSaveEdit(content)).row, s.chunkMax);
  }

  /** The POV job works through the PJs of the latest mapping, one text for each speaker, or of the latest players. */
  lemma LatestCastIsRead(s: Sys, mapping: seq<(string, PjId)>, players: seq<PjId>)
    ensures var row := Next(s, DoSetMapping(mapping)).row; var load := LoadWork(row, PovsJob, s.chunkMax);
            SetMapping(s, mapping).Success? && load.Success? ==>
              load.value.PovsFrom? && |load.value.pjs| == |mapping|
              && forall i | 0 <= i < |mapping| :: load.value.pjs[i] == mapping[i].1
    ensures var row := Next(s, DoSetPlayers(players)).row; var load := LoadWork(row, PovsJob, s.chunkMax);
            SetPlayers(s, players).Success? && load.Success? ==>
              load.value.PovsFrom? && forall p :: p in load.value.pjs <==> p in players
  {
    DeduplicatedKeepsAll(players);
  }

  /** A purge leaves no route that accepts an artefact request. */
  lemma PurgedChecksAgree(s: Sys)
    requires Orderly(s) && Purged(s.row)
    ensures ChecksAgree(s)
  {}

  ghost predicate SoundOrPurged(s: Sys) {
    Orderly(s) && (Purged(s.row) || Sound(s))
  }

  lemma SoundOrPurgedChecksAgree(s: Sys)
    requires SoundOrPurged(s)
    ensures ChecksAgree(s)
  {
    if Purged(s.row) { PurgedChecksAgree(s); } else { SoundChecksAgree(s); }
  }

  lemma StepKeepsSoundOrPurged(s: Sys, step: Step)
    requires SoundOrPurged(s) && Steady(s, step)
    ensures SoundOrPurged(Next(s, step))
  {
    StepKeepsOrder(s, step);
    if Purged(s.row) {
      StepKeepsPurge(s, step);
    } else if step.DoPurge? && !NoSummaryRunning(s) {
      var j :| j in s.jobs && SummaryRunning(s, j);
      assert s.row.audio.Some?;
    } else {
      StepKeepsSound(s, step);
    }
  }

  lemma {:induction false} RunKeepsSoundOrPurged(s: Sys, steps: seq<Step>)
    requires SoundOrPurged(s) && Obeys(s, steps, Steady)
    ensures SoundOrPurged(Run(s, steps))
    decreases steps
  {
    if steps != [] {
      StepKeepsSoundOrPurged(s, steps[0]);
      RunKeepsSoundOrPurged(Next(s, steps[0]), steps[1..]);
    }
  }

  /**
   * Main theorem: over every steady run, purges at any time included, a request that is
   * accepted finds its source; and a summary has its source until the session is purged.
   */
  lemma AcceptedJobsCanLoad(mode: Mode, chunkMax: Limit, steps: seq<Step>)
    requires Obeys(Init(mode, chunkMax), steps, Steady)
    ensures var s := Run(Init(mode, chunkMax), steps);
            && ChecksAgree(s)
            && (s.row.mode.NonDiarised? && Summary in s.row.artifacts ==> Ready(s.row) || Purged(s.row))
  {
    RunKeepsSoundOrPurged(Init(mode, chunkMax), steps);
    SoundOrPurgedChecksAgree(Run(Init(mode, chunkMax), steps));
  }

  // ----- And whatever finds its source is accepted --------------------------------------

  /** Partial summaries exist only beside a summary. */
  ghost predicate Backed(row: Session) {
    forall i | 0 <= i < |row.chunks| && row.chunks[i].summaryText.Some? :: Summary in row.artifacts
  }

  lemma CommitsKeepBacked(s: Sys, kind: JobKind, work: Work, reply: Reply, model: string)
    requires Backed(s.row) && Answers(work, reply)
    ensures var done := Committed(s, kind, work, reply, model); done.Some? ==> Backed(done.value.row)
  {
    var done := Committed(s, kind, work, reply, model);
    if done.Some? {
      match work
      case Transcribe(captured) =>
        forall i | 0 <= i < |done.value.row.chunks| && done.value.row.chunks[i].summaryText.Some?
          ensures Summary in s.row.artifacts
        {
          assert done.value.row.chunks[i] in s.row.chunks;
        }
      case PovsFrom(_, pjs) => PovsKeepKinds(s.row.artifacts, pjs, reply.texts, model);
      case _ =>
    }
  }

  lemma {:induction false} PovsKeepKinds(artifacts: map<Kind, Artifact>, pjs: seq<PjId>, texts: seq<string>, model: string)
    requires |pjs| == |texts|
    ensures artifacts.Keys <= PovsUpserted(artifacts, pjs, texts, model).Keys
    decreases pjs
  {
    if pjs != [] { PovsKeepKinds(artifacts, pjs[..|pjs| - 1], texts[..|pjs| - 1], model); }
  }

  lemma StepKeepsBacked(s: Sys, step: Step)
    requires Backed(s.row)
    ensures Backed(Next(s, step).row)
  {
    if step.DoCommit? {
      if Running(s, step.job) && Answers(s.jobs[step.job].work, step.reply) {
        CommitsKeepBacked(s, s.jobs[step.job].kind, s.jobs[step.job].work, step.reply, step.model);
      }
    } else {
      assert Next(s, step).row.chunks == s.row.chunks || Next(s, step).row.chunks == [];
    }
  }

  lemma {:induction false} RunKeepsBacked(s: Sys, steps: seq<Step>)
    requires Backed(s.row)
    ensures Backed(Run(s, steps).row)
    decreases steps
  {
    if steps != [] {
      StepKeepsBacked(s, steps[0]);
      RunKeepsBacked(Next(s, steps[0]), steps[1..]);
    }
  }

  /** The routes refuse nothing a job could have worked on. */
  lemma LoadableIsAccepted(s: Sys, kind: JobKind)
    requires Backed(s.row) && IsArtifactJob(kind) && LoadWork(s.row, kind, s.chunkMax).Success?
    ensures PostRefusal(s.row, kind).None?
  {
    if s.row.mode.NonDiarised? && !kind.SummaryJob? && !HasEditedText(s.row) {
      assert Summarised(s.row.chunks[0]);
    }
  }

  /**
   * Main theorem: over every steady run a route accepts a request if and only if the job would
   * find what it needs, and the request is forced or no edited artefact could be overwritten.
   */
  lemma AcceptedIff(mode: Mode, chunkMax: Limit, steps: seq<Step>, kind: JobKind, force: bool)
    requires Obeys(Init(mode, chunkMax), steps, Steady) && IsArtifactJob(kind)
    ensures var s := Run(Init(mode, chunkMax), steps);
            PostArtifact(s, kind, force).Success?
            <==> && LoadWork(s.row, kind, s.chunkMax).Success?
                 && (force || forall k | EditedArtifacts.Edited(s, k) :: !Guarded(kind, k))
  {
    AcceptedJobsCanLoad(mode, chunkMax, steps);
    RunKeepsBacked(Init(mode, chunkMax), steps);
    var s := Run(Init(mode, chunkMax), steps);
    if LoadWork(s.row, kind, s.chunkMax).Success? { LoadableIsAccepted(s, kind); }
  }

  predicate SummaryHasSource(row: Session) {
    row.mode.NonDiarised? && Summary in row.artifacts ==> Ready(row)
  }

  /** And a summary always has its source, over every undisturbed run. */
  lemma SummariesKeepTheirSource(mode: Mode, chunkMax: Limit, steps: seq<Step>)
    requires Obeys(Init(mode, chunkMax), steps, Undisturbed)
    ensures SummaryHasSource(Run(Init(mode, chunkMax), steps).row)
  {
    RunKeepsSound(Init(mode, chunkMax), steps);
  }

  // ----- Exactly when a purge is safe ---------------------------------------------------

  lemma PurgeThenSummary(s: Sys, j: JobId)
    requires Sound(s) && SummaryRunning(s, j) && s.row.mode.NonDiarised? && !s.row.state.Transcribing?
    ensures var t := Next(s, DoPurge); var reply := ReplyTo(t.jobs[j].work);
            NonEmptyPartials(reply) && !SummaryHasSource(Next(t, DoCommit(j, reply, "m")).row)
  {
    var t := Next(s, DoPurge);
    assert t.jobs == s.jobs && t.row.chunks == [] && t.row.edited.None? && WorkFits(t.jobs[j]);
  }

  /**
   * After a purge of a non-diarised session every summary has its source, in all later
   * undisturbed runs, exactly when no summary job was waiting for its model at the purge.
   */
  lemma PurgeKeepsSourceIff(s: Sys)
    requires Sound(s) && s.row.mode.NonDiarised? && !s.row.state.Transcribing?
    ensures NoSummaryRunning(s)
       <==> forall later | Obeys(Next(s, DoPurge), later, Undisturbed) :: SummaryHasSource(Run(Next(s, DoPurge), later).row)
  {
    var t := Next(s, DoPurge);
    if NoSummaryRunning(s) {
      forall later | Obeys(t, later, Undisturbed) ensures SummaryHasSource(Run(t, later).row) {
        StepKeepsSound(s, DoPurge);
        RunKeepsSound(t, later);
      }
    } else {
      var j :| j in s.jobs && SummaryRunning(s, j);
      PurgeThenSummary(s, j);
      var commit := DoCommit(j, ReplyTo(t.jobs[j].work), "m");
      RunOne(t, commit);
      QuietObeys(t, [commit]);
      assert !SummaryHasSource(Run(t, [commit]).row);
    }
  }

  // ----- Exactly when an empty partial summary is harmless ------------------------------

  lemma UnreadySummaryFails(s: Sys, step: Step)
    requires Sound(s) && CommitsSummary(s, step) && !Ready(Next(s, step).row)
    ensures !ChecksAgree(Next(s, step))
  {
    var after := Next(s, step);
    var data := s.jobs[step.job].work.data;
    assert after.row == Committed(s, SummaryJob, Summarise(data), step.reply, step.model).value.row;
    assert PostRefusal(after.row, NarrativeJob).None?;
    assert LoadWork(after.row, NarrativeJob, after.chunkMax).Failure?;
  }

  lemma ReadySummaryIff(s: Sys, step: Step)
    requires Sound(s) && CommitsSummary(s, step)
    ensures (forall later | Obeys(Next(s, step), later, Steady) :: ChecksAgree(Run(Next(s, step), later)))
       <==> Ready(Next(s, step).row)
  {
    var t := Next(s, step);
    if Ready(t.row) {
      ReadySummaryKeepsSound(s, step);
      forall later | Obeys(t, later, Steady) ensures ChecksAgree(Run(t, later)) {
        RunKeepsSoundOrPurged(t, later);
        SoundOrPurgedChecksAgree(Run(t, later));
      }
    } else {
      UnreadySummaryFails(s, step);
      var later: seq<Step> := [];
      RunNone(t, later, Steady);
      assert !ChecksAgree(Run(t, later));
    }
  }

  /**
   * Whatever partial summaries the model returns, after their commit every accepted request
   * keeps finding its source, in all later steady runs, exactly when there is an edited text
   * or every chunk got a partial summary that is not empty.
   */
  lemma PartialsKeepChecksIff(s: Sys, step: Step)
    requires Sound(s) && CommitsSummary(s, step) && s.jobs[step.job].work.Summarise?
    ensures (forall later | Obeys(Next(s, step), later, Steady) :: ChecksAgree(Run(Next(s, step), later)))
       <==> HasEditedText(s.row) || forall i | 0 <= i < |s.row.chunks| ::
              Told(s.jobs[step.job].work.data, step.reply.partials, s.row.chunks[i].id)
  {
    var data := s.jobs[step.job].work.data;
    ReadySummaryIff(s, step);
    SummaryCommitReadyIff(s, data, step.reply, step.model);
    assert Next(s, step).row == Committed(s, SummaryJob, Summarise(data), step.reply, step.model).value.row;
    assert Current(s.row, data);
  }

  // ----- Exactly when a restart is safe -------------------------------------------------

  function OneWordEach(n: nat): seq<string> {
    seq(n, _ => "x")
  }

  /** The old summary job commits into the re-transcribed session: a summary over chunks nobody read. */
  lemma StaleSummaryCommit(t: Sys, j: JobId)
    requires SummaryRunning(t, j) && t.jobs[j].work.Summarise? && t.row.mode.NonDiarised? && t.row.state.Transcribed?
    requires t.row.edited.None? && t.row.chunks != []
    requires !Covers(t.jobs[j].work.data, t.row.chunks[0].id)
    ensures var reply := Summaries(OneWordEach(|t.jobs[j].work.data|), "x");
            !ChecksAgree(Next(t, DoCommit(j, reply, "m")))
  {
    var data := t.jobs[j].work.data;
    var reply := Summaries(OneWordEach(|data|), "x");
    var after := Next(t, DoCommit(j, reply, "m"));
    PartialForIff(t.row.chunks[0].id, data, reply.partials);
    assert after.row == Committed(t, SummaryJob, Summarise(data), reply, "m").value.row;
    assert !Summarised(after.row.chunks[0]);
    assert PostRefusal(after.row, NarrativeJob).None?;
    assert LoadWork(after.row, NarrativeJob, after.chunkMax).Failure?;
  }

  lemma RestartedAndBegun(s: Sys)
    requires Sound(s) && Restartable(s.row)
    ensures var n := s.nextJob;
            var b := Next(Next(s, DoRestart), DoBegin(n));
            && Running(b, n) && b.jobs[n].work == Transcribe(s.row.mode)
            && (forall i | i in s.jobs :: i != n && i in b.jobs && b.jobs[i] == s.jobs[i])
            && b.row.chunks == [] && b.row.edited.None? && b.row.mode == s.row.mode
            && b.nextChunk == s.nextChunk && b.chunkMax == s.chunkMax
  {
    assert Waiting(Next(s, DoRestart), s.nextJob);
  }

  lemma OneWordTranscribed(b: Sys, n: JobId, j: JobId)
    requires Running(b, n) && b.jobs[n].work == Transcribe(NonDiarised) && b.row.mode.NonDiarised?
    requires b.row.chunks == [] && b.row.edited.None? && j in b.jobs && j != n
    ensures var t := Next(b, DoCommit(n, ONE_WORD, "m"));
            && j in t.jobs && t.jobs[j] == b.jobs[j] && t.row.mode.NonDiarised? && t.row.state.Transcribed?
            && t.row.edited.None? && t.row.chunks != [] && t.row.chunks[0].id == b.nextChunk
  {
    OneWordMakesChunks(b.chunkMax);
  }

  predicate NeitherRestartsNorPurges(step: Step) {
    !step.DoRestart? && !step.DoPurge? && (step.DoCommit? ==> NonEmptyPartials(step.reply))
  }

  lemma {:induction false} QuietObeys(s: Sys, steps: seq<Step>)
    requires forall i | 0 <= i < |steps| :: NeitherRestartsNorPurges(steps[i])
    ensures Obeys(s, steps, Undisturbed) && Obeys(s, steps, Steady)
    decreases steps
  {
    if steps != [] { QuietObeys(Next(s, steps[0]), steps[1..]); }
  }

  /**
   * After a restart of a non-diarised session every accepted request keeps finding its source
   * exactly when no summary job was waiting for its model at the restart.
   */
  lemma RestartKeepsChecksIff(s: Sys)
    requires Sound(s) && Restartable(s.row) && s.row.mode.NonDiarised? && NoTranscriptionLive(s)
    ensures NoSummaryRunning(s)
       <==> forall later | Obeys(Next(s, DoRestart), later, Steady) :: ChecksAgree(Run(Next(s, DoRestart), later))
  {
    var s1 := Next(s, DoRestart);
    if NoSummaryRunning(s) {
      forall later | Obeys(s1, later, Steady) ensures ChecksAgree(Run(s1, later)) {
        StepKeepsSound(s, DoRestart);
        RunKeepsSoundOrPurged(s1, later);
        SoundOrPurgedChecksAgree(Run(s1, later));
      }
    } else {
      var j :| j in s.jobs && SummaryRunning(s, j);
      assert WorkFits(s.jobs[j]) && IdsOld(s, s.jobs[j].work.data);
      var n := s.nextJob;
      var reply := Summaries(OneWordEach(|s.jobs[j].work.data|), "x");
      var later := [DoBegin(n), DoCommit(n, ONE_WORD, "m"), DoCommit(j, reply, "m")];
      RestartedAndBegun(s);
      var begun := Next(s1, DoBegin(n));
      OneWordTranscribed(begun, n, j);
      StaleSummaryCommit(Next(begun, DoCommit(n, ONE_WORD, "m")), j);
      RunThree(s1, DoBegin(n), DoCommit(n, ONE_WORD, "m"), DoCommit(j, reply, "m"));
      QuietObeys(s1, later);
      assert !ChecksAgree(Run(s1, later));
    }
  }
}
