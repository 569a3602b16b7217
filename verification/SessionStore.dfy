/**
 * The rows of one session as the service updates them in place: the operations of logic.py,
 * the repositories they use, and the transactions of the worker jobs, each proved against
 * the transition it stands for in SessionModel.
 */
module SessionStore {
  import opened Wrappers
  import opened PyText
  import M = SessionModel
  import opened SessionModel
  import TextChunker

  /** An operation either is refused and changes nothing, or makes its whole transition. */
  ghost predicate Does(before: Sys, outcome: Outcome, refusal: Option<Refusal>, after: Sys) {
    match outcome
    case Success(s) => refusal.None? && after == s
    case Failure(e) => refusal == Some(e) && after == before
  }

  class Store {
    const mode: Mode
    const chunkMax: Limit
    var state: SessionState
    var audio: Option<Audio>
    var chunks: seq<Chunk>
    var transcription: Option<seq<Segment>>
    var edited: Option<string>
    var artifacts: map<Kind, Artifact>
    var mapping: seq<(string, PjId)>
    var players: seq<PjId>
    var currentJob: Option<JobId>
    var jobs: map<JobId, Job>
    var nextJob: JobId
    var nextChunk: ChunkId

    function Row(): Session
      reads this
    {
      Session(mode, state, audio, chunks, transcription, edited, artifacts, mapping, players, currentJob)
    }

    ghost function View(): Sys
      reads this
    {
      Sys(Row(), jobs, nextJob, nextChunk, chunkMax)
    }

    constructor (mode: Mode, chunkMax: Limit)
      ensures View() == Init(mode, chunkMax)
    {
      this.mode, this.chunkMax := mode, chunkMax;
      state, audio, chunks, transcription, edited := Created, None, [], None, None;
      artifacts, mapping, players, currentJob := map[], [], [], None;
      jobs, nextJob, nextChunk := map[], 0, 0;
    }

    // ----- Jobs -------------------------------------------------------------------------

    predicate IsActive(j: JobId)
      reads this
    {
      j in jobs && Active(jobs[j].status)
    }

    method EnqueueJob(kind: JobKind)
      modifies this
      ensures View() == Enqueue(old(View()), kind)
    {
      var id := nextJob;
      jobs := jobs[id := Job(kind, Queued, RETRIES, Nothing)];
      nextJob := id + 1;
      currentJob := Some(id);
    }

    // ----- Repositories -----------------------------------------------------------------

    method UpsertArtifact(kind: Kind, content: string, model: string)
      modifies this`artifacts
      ensures artifacts == Upserted(old(artifacts), kind, content, model)
    {
      if kind in artifacts {
        var existing := artifacts[kind];
        existing := existing.(content := content, modelUsed := model);
        existing := existing.(isEdited := false, editedBy := None);
        artifacts := artifacts[kind := existing];
      } else {
        artifacts := artifacts[kind := Artifact(content, model, false, None)];
      }
    }

    /** A manual edit of an existing artefact: the model that generated it stays on record. */
    method UpdateContent(kind: Kind, content: string, editor: string) returns (found: bool)
      modifies this`artifacts
      ensures found <==> kind in old(artifacts)
      ensures !found ==> artifacts == old(artifacts)
      ensures found ==> artifacts == old(artifacts)[kind := Artifact(content, old(artifacts)[kind].modelUsed, true, Some(editor))]
    {
      if kind !in artifacts { return false; }
      var existing := artifacts[kind];
      artifacts := artifacts[kind := existing.(content := content, isEdited := true, editedBy := Some(editor))];
      return true;
    }

    method ResetSummaryTexts()
      modifies this`chunks
      ensures chunks == WithSummaries(old(chunks), [], [])
    {
      var rows: seq<Chunk> := [];
      for i := 0 to |chunks|
        invariant |rows| == i
        invariant forall k | 0 <= k < i :: rows[k] == chunks[k].(summaryText := None)
      {
        rows := rows + [chunks[i].(summaryText := None)];
      }
      chunks := rows;
    }

    method UpdateSummaryText(id: ChunkId, text: string)
      modifies this`chunks
      ensures |chunks| == |old(chunks)|
      ensures forall k | 0 <= k < |chunks| ::
                chunks[k] == if old(chunks)[k].id == id then old(chunks)[k].(summaryText := Some(text)) else old(chunks)[k]
    {
      var rows: seq<Chunk> := [];
      for i := 0 to |chunks|
        invariant |rows| == i
        invariant forall k | 0 <= k < i ::
                    rows[k] == if chunks[k].id == id then chunks[k].(summaryText := Some(text)) else chunks[k]
      {
        var c := chunks[i];
        rows := rows + [if c.id == id then c.(summaryText := Some(text)) else c];
      }
      chunks := rows;
    }

    /** One row per text, numbered from zero; refused as a whole when a number is taken. */
    method BulkCreate(texts: seq<string>) returns (ok: bool)
      modifies this`chunks, this`nextChunk
      ensures ok <==> !Clashes(old(chunks), |texts|)
      ensures !ok ==> chunks == old(chunks) && nextChunk == old(nextChunk)
      ensures ok ==> chunks == NewChunks(texts, old(nextChunk)) + old(chunks) && nextChunk == old(nextChunk) + |texts|
    {
      var rows: seq<Chunk> := [];
      for i := 0 to |texts|
        invariant rows == NewChunks(texts[..i], nextChunk)
      {
        rows := rows + [Chunk(nextChunk + i, i, texts[i], None)];
      }
      assert texts[..|texts|] == texts;
      if exists k | 0 <= k < |chunks| :: chunks[k].ordre < |texts| {
        return false;
      }
      chunks := rows + chunks;
      nextChunk := nextChunk + |texts|;
      return true;
    }

    method ReplacePlayers(pjIds: seq<PjId>)
      modifies this`players
      ensures players == Deduplicated(pjIds)
    {
      var seen: set<PjId> := {};
      var unique: seq<PjId> := [];
      for i := 0 to |pjIds|
        invariant unique == Deduplicated(pjIds[..i])
        invariant forall p :: p in seen <==> p in unique
      {
        assert pjIds[..i + 1][..i] == pjIds[..i];
        if pjIds[i] !in seen {
          seen := seen + {pjIds[i]};
          unique := unique + [pjIds[i]];
        }
      }
      assert pjIds[..|pjIds|] == pjIds;
      players := unique;
    }

    // ----- Operations -------------------------------------------------------------------

    method Upload() returns (refusal: Option<Refusal>)
      modifies this
      ensures Does(old(View()), M.Upload(old(View())), refusal, View())
    {
      if audio.Some? { return Some(AudioAlreadyUploaded); }
      audio := Some(Audio(false));
      state := AudioUploaded;
      EnqueueJob(TranscriptionJob);
      return None;
    }

    method Purge() returns (refusal: Option<Refusal>)
      modifies this
      ensures Does(old(View()), M.Purge(old(View())), refusal, View())
    {
      if state.Transcribing? { return Some(PurgeBlocked); }
      if audio.Some? && !audio.value.purged {
        audio := Some(Audio(true));
      }
      transcription := None;
      chunks := [];
      artifacts := map[];
      edited := None;
      currentJob := None;
      state := Created;
      return None;
    }

    method Restart() returns (refusal: Option<Refusal>)
      modifies this
      ensures Does(old(View()), M.Restart(old(View())), refusal, View())
    {
      if !state.TranscriptionFailed? && !state.Transcribed? { return Some(RestartNotAllowed); }
      if audio.None? || audio.value.purged { return Some(NoAudioToTranscribe); }
      transcription := None;
      chunks := [];
      mapping := [];
      artifacts := map[];
      edited := None;
      state := AudioUploaded;
      EnqueueJob(TranscriptionJob);
      return None;
    }

    method Recover() returns (refusal: Option<Refusal>)
      modifies this
      ensures Does(old(View()), M.Recover(old(View())), refusal, View())
    {
      if !state.Transcribing? { return Some(NotStuck); }
      if currentJob.Some? && IsActive(currentJob.value) { return Some(StillActive); }
      state := TranscriptionFailed;
      return None;
    }

    method SaveEdit(content: string) returns (refusal: Option<Refusal>)
      modifies this
      ensures Does(old(View()), M.SaveEdit(old(View()), content), refusal, View())
    {
      if Blank(content) { return Some(BlankText); }
      if !state.Transcribed? { return Some(NotTranscribed); }
      edited := Some(content);
      return None;
    }

    method SetMapping(rows: seq<(string, PjId)>) returns (refusal: Option<Refusal>)
      modifies this
      ensures Does(old(View()), M.SetMapping(old(View()), rows), refusal, View())
    {
      if mode.NonDiarised? { return Some(WrongMode); }
      if !state.Transcribed? { return Some(NotTranscribed); }
      mapping := rows;
      artifacts := map k | k in artifacts && !k.Pov? :: artifacts[k];
      return None;
    }

    method SetPlayers(pjIds: seq<PjId>) returns (refusal: Option<Refusal>)
      modifies this
      ensures Does(old(View()), M.SetPlayers(old(View()), pjIds), refusal, View())
    {
      if mode.Diarised? { return Some(WrongMode); }
      ReplacePlayers(pjIds);
      return None;
    }

    method EditArtifact(kind: Kind, content: string, editor: string, confirmEmpty: bool)
      returns (refusal: Option<Refusal>)
      modifies this
      ensures Does(old(View()), M.EditArtifact(old(View()), kind, content, editor, confirmEmpty), refusal, View())
    {
      if !kind.Elements? && Blank(content) { return Some(BlankText); }
      if currentJob.Some? && IsActive(currentJob.value) && IsArtifactJob(jobs[currentJob.value].kind) {
        return Some(ArtifactBusy);
      }
      if kind.Elements? && content == "" && !confirmEmpty { return Some(ClearUnconfirmed); }
      var found := UpdateContent(kind, content, editor);
      return if found then None else Some(ArtifactNotReady);
    }

    /** The edited artefacts a job of this kind would replace, in the order they are listed. */
    method EditedAmongGuarded(job: JobKind) returns (editedKinds: seq<Kind>)
      ensures forall k :: k in editedKinds <==> k in artifacts && artifacts[k].isEdited && Guarded(job, k)
    {
      editedKinds := [];
      var todo := artifacts.Keys;
      while todo != {}
        invariant todo <= artifacts.Keys
        invariant forall k :: k in editedKinds <==>
                    k in artifacts && k !in todo && artifacts[k].isEdited && Guarded(job, k)
        decreases todo
      {
        var k :| k in todo;
        if artifacts[k].isEdited && Guarded(job, k) {
          editedKinds := editedKinds + [k];
        }
        todo := todo - {k};
      }
    }

    method PostArtifact(job: JobKind, force: bool) returns (refusal: Option<Refusal>)
      modifies this
      ensures Does(old(View()), M.PostArtifact(old(View()), job, force), refusal, View())
    {
      var precondition := PostRefusal(Row(), job);
      if precondition.Some? { return precondition; }
      if !force {
        var editedKinds := EditedAmongGuarded(job);
        if editedKinds != [] {
          assert editedKinds[0] in editedKinds;
          return Some(ArtifactEdited);
        }
        assert forall k | k in artifacts && artifacts[k].isEdited && Guarded(job, k) :: k in editedKinds;
      }
      EnqueueJob(job);
      return None;
    }

    // ----- Worker transactions ----------------------------------------------------------

    method EndAttempt(j: JobId)
      requires j in jobs
      modifies this`jobs
      ensures jobs == old(jobs)[j := AttemptFailed(old(jobs)[j])]
    {
      var job := jobs[j];
      if job.retriesLeft > 0 {
        job := job.(status := Scheduled, retriesLeft := job.retriesLeft - 1);
      } else {
        job := job.(status := RqStatus.Failed);
      }
      jobs := jobs[j := job.(work := Nothing)];
    }

    method Begin(j: JobId)
      requires Waiting(View(), j)
      modifies this
      ensures M.Begin(old(View()), j) == Success(View())
    {
      var load := LoadWork(Row(), jobs[j].kind, chunkMax);
      if load.Failure? {
        EndAttempt(j);
        return;
      }
      if jobs[j].kind.TranscriptionJob? { state := Transcribing; }
      jobs := jobs[j := jobs[j].(status := Started, work := load.value)];
    }

    method Fail(j: JobId, cause: Cause)
      requires Running(View(), j)
      modifies this
      ensures M.Fail(old(View()), j, cause) == Success(View())
    {
      if jobs[j].kind.TranscriptionJob? {
        match cause
        case Transient => state := AudioUploaded;
        case Permanent => state := TranscriptionFailed;
        case Uncaught =>
      }
      EndAttempt(j);
    }

    method CommitChunks(texts: seq<string>) returns (ok: bool)
      modifies this
      ensures ChunksCommitted(old(View()), texts) == if ok then Some(View()) else None
      ensures !ok ==> View() == old(View())
    {
      ok := BulkCreate(texts);
      if ok { state := Transcribed; }
    }

    method CommitTranscript(captured: Mode, segments: seq<Segment>) returns (ok: bool)
      modifies this
      ensures TranscriptCommitted(old(View()), captured, segments) == if ok then Some(View()) else None
      ensures captured.Diarised? ==> ok && transcription == Some(segments) && state.Transcribed?
      ensures !ok ==> View() == old(View())
    {
      if captured.NonDiarised? {
        var cut := TextChunker.ChunkText(Joined(segments), chunkMax);
        ok := CommitChunks(cut.value);
      } else {
        transcription := Some(segments);
        state := Transcribed;
        ok := true;
      }
    }

    method CommitText(kind: JobKind, text: string, model: string)
      modifies this
      ensures View() == TextCommitted(old(View()), kind, text, model)
    {
      var artifact := if kind.ElementsJob? then Elements else Narrative;
      UpsertArtifact(artifact, text, model);
    }

    method CommitPovs(pjs: seq<PjId>, texts: seq<string>, model: string)
      requires |pjs| == |texts|
      modifies this
      ensures View() == PovsCommitted(old(View()), pjs, texts, model)
    {
      for i := 0 to |pjs|
        invariant View() == PovsCommitted(old(View()), pjs[..i], texts[..i], model)
      {
        assert pjs[..i + 1][..i] == pjs[..i] && texts[..i + 1][..i] == texts[..i];
        UpsertArtifact(Pov(pjs[i]), texts[i], model);
      }
      assert pjs[..|pjs|] == pjs && texts[..|texts|] == texts;
    }

    /** The atomic swap of a new summary: partial summaries, derived artefacts, the summary itself. */
    method CommitSummary(data: seq<(Option<ChunkId>, string)>, partials: seq<string>, final: string, model: string)
      requires |data| == |partials|
      modifies this
      ensures View() == SummaryCommitted(old(View()), data, partials, final, model)
    {
      ResetSummaryTexts();
      for i := 0 to |data|
        invariant View() == old(View()).(row := old(Row()).(chunks := chunks))
        invariant chunks == WithSummaries(old(chunks), data[..i], partials[..i])
      {
        assert data[..i + 1][..i] == data[..i] && partials[..i + 1][..i] == partials[..i];
        if data[i].0.Some? {
          UpdateSummaryText(data[i].0.value, partials[i]);
        }
      }
      assert data[..|data|] == data && partials[..|partials|] == partials;
      artifacts := map k | k in artifacts && !k.Narrative? && !k.Elements? :: artifacts[k];
      artifacts := map k | k in artifacts && !k.Pov? :: artifacts[k];
      UpsertArtifact(Summary, final, model);
    }

    /** The rows a finished job writes; a broken constraint rolls all of them back. */
    method CommitRows(kind: JobKind, work: Work, reply: Reply, model: string) returns (ok: bool)
      requires Answers(work, reply)
      modifies this
      ensures ok ==> Committed(old(View()), kind, work, reply, model) == Some(View())
      ensures !ok ==> Committed(old(View()), kind, work, reply, model).None? && View() == old(View())
    {
      ok := true;
      match work
      case Transcribe(captured) =>
        ok := CommitTranscript(captured, reply.segments);
      case FromSource(_) =>
        CommitText(kind, reply.text, model);
      case PovsFrom(_, pjs) =>
        CommitPovs(pjs, reply.texts, model);
      case Summarise(data) =>
        CommitSummary(data, reply.partials, reply.final, model);
    }

    method Commit(j: JobId, reply: Reply, model: string)
      requires Running(View(), j) && Answers(jobs[j].work, reply)
      modifies this
      ensures M.Commit(old(View()), j, reply, model) == Success(View())
    {
      var job := jobs[j];
      var ok := CommitRows(job.kind, job.work, reply, model);
      if ok {
        jobs := jobs[j := job.(status := Finished, work := Nothing)];
      } else {
        EndAttempt(j);
      }
    }
  }
}
