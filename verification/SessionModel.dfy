/**
 * One session, its rows and its queued jobs, as values: what every HTTP operation and every
 * phase of a worker job does to them (app/services/jdr/logic.py, router.py,
 * db/repositories.py, app/jobs/jdr.py).
 */
module SessionModel {
  import opened Wrappers
  import opened PyText
  import TextChunker

  // ----- Rows ---------------------------------------------------------------------------

  datatype SessionState = Created | AudioUploaded | Transcribing | TranscriptionFailed | Transcribed

  datatype Mode = Diarised | NonDiarised

  type PjId = nat
  type JobId = nat
  type ChunkId = nat
  type Limit = n: nat | 0 < n witness 1

  datatype Audio = Audio(purged: bool)

  datatype Segment = Segment(speaker: string, start: real, end: real, text: string)

  datatype Chunk = Chunk(id: ChunkId, ordre: nat, text: string, summaryText: Option<string>)

  datatype Kind = Summary | Narrative | Elements | Pov(pj: PjId)

  datatype Artifact = Artifact(content: string, modelUsed: string, isEdited: bool, editedBy: Option<string>)

  /** `chunks` are listed by `ordre`, `mapping` by speaker label. */
  datatype Session = Session(
    mode: Mode,
    state: SessionState,
    audio: Option<Audio>,
    chunks: seq<Chunk>,
    transcription: Option<seq<Segment>>,
    edited: Option<string>,
    artifacts: map<Kind, Artifact>,
    mapping: seq<(string, PjId)>,
    players: seq<PjId>,
    currentJob: Option<JobId>)

  // ----- Jobs ---------------------------------------------------------------------------

  datatype JobKind = TranscriptionJob | NarrativeJob | ElementsJob | PovsJob | SummaryJob

  datatype RqStatus = Queued | Deferred | Scheduled | Started | Finished | Failed | Stopped | Canceled

  /** What an artefact job read before it let go of the database. */
  datatype Source = EditedText(text: string) | PartialSummaries(texts: seq<string>) | Segments(segments: seq<Segment>)

  datatype Work =
    | Nothing
    | Transcribe(mode: Mode)
    | FromSource(source: Source)
    | PovsFrom(source: Source, pjs: seq<PjId>)
    | Summarise(data: seq<(Option<ChunkId>, string)>)

  datatype Job = Job(kind: JobKind, status: RqStatus, retriesLeft: nat, work: Work)

  const RETRIES: nat := 3

  /** The session with its jobs in the queue; `chunkMax` is a setting and never changes. */
  datatype Sys = Sys(row: Session, jobs: map<JobId, Job>, nextJob: JobId, nextChunk: ChunkId, chunkMax: Limit)

  function Init(mode: Mode, chunkMax: Limit): Sys {
    Sys(Session(mode, Created, None, [], None, None, map[], [], [], None), map[], 0, 0, chunkMax)
  }

  /** The statuses logic.py calls active; the router's projection calls every other one terminal. */
  predicate Active(status: RqStatus) {
    status.Queued? || status.Deferred? || status.Scheduled? || status.Started?
  }

  predicate Live(s: Sys, j: JobId) {
    j in s.jobs && Active(s.jobs[j].status)
  }

  predicate IsArtifactJob(kind: JobKind) {
    !kind.TranscriptionJob?
  }

  function Enqueue(s: Sys, kind: JobKind): Sys {
    s.(jobs := s.jobs[s.nextJob := Job(kind, Queued, RETRIES, Nothing)],
       nextJob := s.nextJob + 1,
       row := s.row.(currentJob := Some(s.nextJob)))
  }

  // ----- HTTP operations ----------------------------------------------------------------

  datatype Refusal =
    | AudioAlreadyUploaded | PurgeBlocked | RestartNotAllowed | NoAudioToTranscribe
    | NotStuck | StillActive | NotTranscribed | WrongMode | NoSummary | NoChunks | NoMapping
    | ArtifactEdited | ArtifactBusy | ArtifactNotReady | ClearUnconfirmed | BlankText
    | NotPossible

  type Outcome = Result<Sys, Refusal>

  function Upload(s: Sys): Outcome {
    if s.row.audio.Some? then Failure(AudioAlreadyUploaded)
    else Success(Enqueue(s.(row := s.row.(audio := Some(Audio(false)), state := AudioUploaded)), TranscriptionJob))
  }

  function Purge(s: Sys): Outcome {
    if s.row.state.Transcribing? then Failure(PurgeBlocked)
    else Success(s.(row := s.row.(
      audio := if s.row.audio.Some? then Some(Audio(true)) else None,
      transcription := None, chunks := [], artifacts := map[], edited := None,
      currentJob := None, state := Created)))
  }

  predicate Restartable(row: Session) {
    (row.state.TranscriptionFailed? || row.state.Transcribed?) && row.audio.Some? && !row.audio.value.purged
  }

  function Restart(s: Sys): Outcome {
    if !s.row.state.TranscriptionFailed? && !s.row.state.Transcribed? then Failure(RestartNotAllowed)
    else if s.row.audio.None? || s.row.audio.value.purged then Failure(NoAudioToTranscribe)
    else Success(Enqueue(s.(row := s.row.(
      transcription := None, chunks := [], mapping := [], artifacts := map[], edited := None,
      state := AudioUploaded)), TranscriptionJob))
  }

  function Recover(s: Sys): Outcome {
    if !s.row.state.Transcribing? then Failure(NotStuck)
    else if s.row.currentJob.Some? && Live(s, s.row.currentJob.value) then Failure(StillActive)
    else Success(s.(row := s.row.(state := TranscriptionFailed)))
  }

  function SaveEdit(s: Sys, content: string): Outcome {
    if Blank(content) then Failure(BlankText)
    else if !s.row.state.Transcribed? then Failure(NotTranscribed)
    else Success(s.(row := s.row.(edited := Some(content))))
  }

  function WithoutPovs(artifacts: map<Kind, Artifact>): map<Kind, Artifact> {
    map k | k in artifacts && !k.Pov? :: artifacts[k]
  }

  function SetMapping(s: Sys, mapping: seq<(string, PjId)>): Outcome {
    if s.row.mode.NonDiarised? then Failure(WrongMode)
    else if !s.row.state.Transcribed? then Failure(NotTranscribed)
    else Success(s.(row := s.row.(mapping := mapping, artifacts := WithoutPovs(s.row.artifacts))))
  }

  /** First occurrences only, in order of appearance. */
  function Deduplicated(ids: seq<PjId>): seq<PjId> {
    if ids == [] then []
    else
      var last := ids[|ids| - 1];
      var rest := Deduplicated(ids[..|ids| - 1]);
      if last in rest then rest else rest + [last]
  }

  /** Every PJ once and none lost. */
  lemma {:induction false} DeduplicatedKeepsAll(ids: seq<PjId>)
    ensures forall p :: p in Deduplicated(ids) <==> p in ids
    ensures forall i, k | 0 <= i < k < |Deduplicated(ids)| :: Deduplicated(ids)[i] != Deduplicated(ids)[k]
    decreases ids
  {
    if ids != [] {
      DeduplicatedKeepsAll(ids[..|ids| - 1]);
      assert ids == ids[..|ids| - 1] + [ids[|ids| - 1]];
    }
  }

  /** The position at which `p` first appears. */
  function FirstAt(ids: seq<PjId>, p: PjId): (i: nat)
    ensures i <= |ids| && (i < |ids| <==> p in ids) && (i < |ids| ==> ids[i] == p) && p !in ids[..i]
  {
    if ids == [] || ids[0] == p then 0 else 1 + FirstAt(ids[1..], p)
  }

  lemma {:induction false} FirstAtSnoc(ids: seq<PjId>, next: PjId, p: PjId)
    ensures FirstAt(ids + [next], p) == if p in ids then FirstAt(ids, p) else if p == next then |ids| else |ids| + 1
  {
    if ids == [] {
      assert (ids + [next])[1..] == [];
    } else {
      assert (ids + [next])[1..] == ids[1..] + [next];
      FirstAtSnoc(ids[1..], next, p);
    }
  }

  /** In order of first appearance. */
  lemma {:induction false} DeduplicatedKeepsOrder(ids: seq<PjId>)
    ensures forall i, k | 0 <= i < k < |Deduplicated(ids)| ::
              FirstAt(ids, Deduplicated(ids)[i]) < FirstAt(ids, Deduplicated(ids)[k])
    decreases ids
  {
    if ids != [] {
      var before, last := ids[..|ids| - 1], ids[|ids| - 1];
      assert ids == before + [last];
      DeduplicatedKeepsOrder(before);
      DeduplicatedKeepsAll(before);
      forall i | 0 <= i < |Deduplicated(before)|
        ensures FirstAt(ids, Deduplicated(before)[i]) == FirstAt(before, Deduplicated(before)[i]) < |before|
      {
        assert Deduplicated(before)[i] in before;
        FirstAtSnoc(before, last, Deduplicated(before)[i]);
      }
      FirstAtSnoc(before, last, last);
    }
  }

  function SetPlayers(s: Sys, pjIds: seq<PjId>): Outcome {
    if s.row.mode.Diarised? then Failure(WrongMode)
    else Success(s.(row := s.row.(players := Deduplicated(pjIds))))
  }

  /** Manual edits wait while the tracked job is an artefact job that has not ended. */
  predicate Busy(s: Sys) {
    && s.row.currentJob.Some? && Live(s, s.row.currentJob.value)
    && IsArtifactJob(s.jobs[s.row.currentJob.value].kind)
  }

  function EditArtifact(s: Sys, kind: Kind, content: string, editor: string, confirmEmpty: bool): Outcome {
    if !kind.Elements? && Blank(content) then Failure(BlankText)
    else if Busy(s) then Failure(ArtifactBusy)
    else if kind.Elements? && content == "" && !confirmEmpty then Failure(ClearUnconfirmed)
    else if kind !in s.row.artifacts then Failure(ArtifactNotReady)
    else
      var edited := s.row.artifacts[kind].(content := content, isEdited := true, editedBy := Some(editor));
      Success(s.(row := s.row.(artifacts := s.row.artifacts[kind := edited])))
  }

  predicate IsDownstream(kind: Kind) {
    !kind.Summary?
  }

  /** The artefacts whose manual edits a job of this kind must not silently replace. */
  predicate Guarded(job: JobKind, kind: Kind) {
    match job
    case TranscriptionJob => false
    case NarrativeJob => kind.Narrative?
    case ElementsJob => kind.Elements?
    case PovsJob => kind.Pov?
    case SummaryJob => kind.Summary? || IsDownstream(kind)
  }

  predicate HasEditedText(row: Session) {
    row.edited.Some? && !Blank(row.edited.value)
  }

  /** The checks of the POST routes before the regeneration guard. */
  function PostRefusal(row: Session, job: JobKind): Option<Refusal> {
    match job
    case TranscriptionJob => Some(NotPossible)
    case SummaryJob =>
      if row.mode.Diarised? then Some(WrongMode)
      else if !row.state.Transcribed? then Some(NotTranscribed)
      else if row.chunks == [] && !HasEditedText(row) then Some(NoChunks)
      else None
    case _ =>
      if !row.state.Transcribed? then Some(NotTranscribed)
      else if row.mode.NonDiarised? && Summary !in row.artifacts && !HasEditedText(row) then Some(NoSummary)
      else if job.PovsJob? && row.mode.NonDiarised? && row.players == [] then Some(NoMapping)
      else if job.PovsJob? && row.mode.Diarised? && row.mapping == [] then Some(NoMapping)
      else None
  }

  function PostArtifact(s: Sys, job: JobKind, force: bool): Outcome {
    var refusal := PostRefusal(s.row, job);
    if refusal.Some? then Failure(refusal.value)
    else if !force && exists k | k in s.row.artifacts :: s.row.artifacts[k].isEdited && Guarded(job, k)
    then Failure(ArtifactEdited)
    else Success(Enqueue(s, job))
  }

  // ----- Worker: the first transaction of an attempt ------------------------------------

  datatype LoadError = NoAudioRow | AudioPurged | NotYetTranscribed | NoChunkRows | SummariesMissing
      | NoTranscriptionRow | NoPj | NotNonDiarised

  predicate Summarised(c: Chunk) {
    c.summaryText.Some? && c.summaryText.value != ""
  }

  function LoadSource(row: Session): Result<Source, LoadError> {
    if !row.state.Transcribed? then Failure(NotYetTranscribed)
    else if HasEditedText(row) then Success(EditedText(row.edited.value))
    else if row.mode.NonDiarised? then
      if row.chunks == [] then Failure(NoChunkRows)
      else if exists i | 0 <= i < |row.chunks| :: !Summarised(row.chunks[i]) then Failure(SummariesMissing)
      else Success(PartialSummaries(seq(|row.chunks|, i requires 0 <= i < |row.chunks| =>
        if Summarised(row.chunks[i]) then row.chunks[i].summaryText.value else "")))
    else if row.transcription.None? then Failure(NoTranscriptionRow)
    else Success(Segments(row.transcription.value))
  }

  function ChunkData(row: Session, chunkMax: Limit): seq<(Option<ChunkId>, string)> {
    if HasEditedText(row) then
      var texts := TextChunker.Chunks(row.edited.value, chunkMax);
      seq(|texts|, i requires 0 <= i < |texts| => (None, texts[i]))
    else
      seq(|row.chunks|, i requires 0 <= i < |row.chunks| => (Some(row.chunks[i].id), row.chunks[i].text))
  }

  function LoadWork(row: Session, kind: JobKind, chunkMax: Limit): Result<Work, LoadError> {
    match kind
    case TranscriptionJob =>
      if row.audio.None? then Failure(NoAudioRow)
      else if row.audio.value.purged then Failure(AudioPurged)
      else Success(Transcribe(row.mode))
    case SummaryJob =>
      if row.mode.Diarised? then Failure(NotNonDiarised)
      else if !row.state.Transcribed? then Failure(NotYetTranscribed)
      else if ChunkData(row, chunkMax) == [] then Failure(NoChunkRows)
      else Success(Summarise(ChunkData(row, chunkMax)))
    case PovsJob =>
      if !row.state.Transcribed? then Failure(NotYetTranscribed)
      else
        var pjs := if row.mode.NonDiarised? then row.players
                   else seq(|row.mapping|, i requires 0 <= i < |row.mapping| => row.mapping[i].1);
        if pjs == [] then Failure(NoPj)
        else
          var source := LoadSource(row);
          if source.Failure? then Failure(source.error) else Success(PovsFrom(source.value, pjs))
    case _ =>
      var source := LoadSource(row);
      if source.Failure? then Failure(source.error) else Success(FromSource(source.value))
  }

  /** Any uncaught exception is retried while retries are left, whatever its class. */
  function AttemptFailed(job: Job): Job {
    if job.retriesLeft > 0
    then job.(status := Scheduled, retriesLeft := job.retriesLeft - 1, work := Nothing)
    else job.(status := RqStatus.Failed, work := Nothing)
  }

  predicate Waiting(s: Sys, j: JobId) {
    j in s.jobs && Active(s.jobs[j].status) && !s.jobs[j].status.Started?
  }

  predicate Running(s: Sys, j: JobId) {
    j in s.jobs && s.jobs[j].status.Started?
  }

  function Begin(s: Sys, j: JobId): Outcome {
    if !Waiting(s, j) then Failure(NotPossible)
    else
      var job := s.jobs[j];
      var load := LoadWork(s.row, job.kind, s.chunkMax);
      if load.Failure? then Success(s.(jobs := s.jobs[j := AttemptFailed(job)]))
      else
        var row := if job.kind.TranscriptionJob? then s.row.(state := Transcribing) else s.row;
        Success(s.(row := row, jobs := s.jobs[j := job.(status := Started, work := load.value)]))
  }

  // ----- Worker: the last transaction of an attempt -------------------------------------

  /** What the models returned. */
  datatype Reply =
    | Transcript(segments: seq<Segment>)
    | Text(text: string)
    | Texts(texts: seq<string>)
    | Summaries(partials: seq<string>, final: string)

  function Joined(segments: seq<Segment>): string {
    if segments == [] then ""
    else
      var rest := Joined(segments[..|segments| - 1]);
      var text := Strip(segments[|segments| - 1].text);
      if text == "" then rest else if rest == "" then text else rest + " " + text
  }

  function NewChunks(texts: seq<string>, firstId: ChunkId): seq<Chunk> {
    seq(|texts|, i requires 0 <= i < |texts| => Chunk(firstId + i, i, texts[i], None))
  }

  /** Inserting rows 0..n-1 breaks the unique key on (session, ordre). */
  predicate Clashes(chunks: seq<Chunk>, n: nat) {
    exists i | 0 <= i < |chunks| :: chunks[i].ordre < n
  }

  function Upserted(artifacts: map<Kind, Artifact>, kind: Kind, content: string, model: string): map<Kind, Artifact> {
    artifacts[kind := Artifact(content, model, false, None)]
  }

  function PovsUpserted(artifacts: map<Kind, Artifact>, pjs: seq<PjId>, texts: seq<string>, model: string)
    : map<Kind, Artifact>
    requires |pjs| == |texts|
  {
    if pjs == [] then artifacts
    else
      var n := |pjs| - 1;
      Upserted(PovsUpserted(artifacts, pjs[..n], texts[..n], model), Pov(pjs[n]), texts[n], model)
  }

  /** The partial summary written to the chunk with this id, if any. */
  function PartialFor(id: ChunkId, data: seq<(Option<ChunkId>, string)>, partials: seq<string>): Option<string>
    requires |data| == |partials|
  {
    if data == [] then None
    else
      var n := |data| - 1;
      if data[n].0 == Some(id) then Some(partials[n]) else PartialFor(id, data[..n], partials[..n])
  }

  function WithSummaries(chunks: seq<Chunk>, data: seq<(Option<ChunkId>, string)>, partials: seq<string>): seq<Chunk>
    requires |data| == |partials|
  {
    seq(|chunks|, i requires 0 <= i < |chunks| => chunks[i].(summaryText := PartialFor(chunks[i].id, data, partials)))
  }

  function WithoutDownstream(artifacts: map<Kind, Artifact>): map<Kind, Artifact> {
    map k | k in artifacts && !IsDownstream(k) :: artifacts[k]
  }

  /** The reply has the shape the work asked for. */
  predicate Answers(work: Work, reply: Reply) {
    match work
    case Nothing => false
    case Transcribe(_) => reply.Transcript?
    case FromSource(_) => reply.Text?
    case PovsFrom(_, pjs) => reply.Texts? && |reply.texts| == |pjs|
    case Summarise(data) => reply.Summaries? && |reply.partials| == |data|
  }

  /** New chunk rows; None when they collide with existing ones and the transaction is rolled back. */
  function ChunksCommitted(s: Sys, texts: seq<string>): Option<Sys> {
    if Clashes(s.row.chunks, |texts|) then None
    else Some(s.(row := s.row.(chunks := NewChunks(texts, s.nextChunk) + s.row.chunks, state := Transcribed),
                 nextChunk := s.nextChunk + |texts|))
  }

  function TranscriptCommitted(s: Sys, captured: Mode, segments: seq<Segment>): Option<Sys> {
    if captured.Diarised? then Some(s.(row := s.row.(transcription := Some(segments), state := Transcribed)))
    else ChunksCommitted(s, TextChunker.Chunks(Joined(segments), s.chunkMax))
  }

  function TextCommitted(s: Sys, kind: JobKind, text: string, model: string): Sys {
    s.(row := s.row.(artifacts := Upserted(s.row.artifacts, if kind.ElementsJob? then Elements else Narrative, text, model)))
  }

  function PovsCommitted(s: Sys, pjs: seq<PjId>, texts: seq<string>, model: string): Sys
    requires |pjs| == |texts|
  {
    s.(row := s.row.(artifacts := PovsUpserted(s.row.artifacts, pjs, texts, model)))
  }

  function SummaryCommitted(s: Sys, data: seq<(Option<ChunkId>, string)>, partials: seq<string>, final: string,
      model: string): Sys
    requires |data| == |partials|
  {
    s.(row := s.row.(
      chunks := WithSummaries(s.row.chunks, data, partials),
      artifacts := Upserted(WithoutDownstream(s.row.artifacts), Summary, final, model)))
  }

  /** The rows after the commit of finished work, or None when a constraint rolls it back. */
  function Committed(s: Sys, kind: JobKind, work: Work, reply: Reply, model: string): Option<Sys>
    requires Answers(work, reply)
  {
    match work
    case Transcribe(captured) => TranscriptCommitted(s, captured, reply.segments)
    case FromSource(_) => Some(TextCommitted(s, kind, reply.text, model))
    case PovsFrom(_, pjs) => Some(PovsCommitted(s, pjs, reply.texts, model))
    case Summarise(data) => Some(SummaryCommitted(s, data, reply.partials, reply.final, model))
    case Nothing => None
  }

  function Commit(s: Sys, j: JobId, reply: Reply, model: string): Outcome {
    if !Running(s, j) || !Answers(s.jobs[j].work, reply) then Failure(NotPossible)
    else
      var job := s.jobs[j];
      var done := Committed(s, job.kind, job.work, reply, model);
      if done.None? then Success(s.(jobs := s.jobs[j := AttemptFailed(job)]))
      else Success(done.value.(jobs := s.jobs[j := job.(status := Finished, work := Nothing)]))
  }

  // ----- Worker: failures ---------------------------------------------------------------

  /** A model error of either class, or an exception no handler of the job catches. */
  datatype Cause = Transient | Permanent | Uncaught

  function Fail(s: Sys, j: JobId, cause: Cause): Outcome {
    if !Running(s, j) then Failure(NotPossible)
    else
      var job := s.jobs[j];
      var row := if !job.kind.TranscriptionJob? || cause.Uncaught? then s.row
                 else s.row.(state := if cause.Transient? then AudioUploaded else TranscriptionFailed);
      Success(s.(row := row, jobs := s.jobs[j := AttemptFailed(job)]))
  }

  /** The queue forgets a job: its record expired, or the worker died and it vanished. */
  function Lose(s: Sys, j: JobId): Outcome {
    if j !in s.jobs then Failure(NotPossible)
    else Success(s.(jobs := s.jobs - {j}))
  }

  // ----- Runs ---------------------------------------------------------------------------

  datatype Step =
    | DoUpload
    | DoPurge
    | DoRestart
    | DoRecover
    | DoSaveEdit(content: string)
    | DoSetMapping(mapping: seq<(string, PjId)>)
    | DoSetPlayers(players: seq<PjId>)
    | DoEditArtifact(kind: Kind, text: string, editor: string, confirmEmpty: bool)
    | DoPost(jobKind: JobKind, force: bool)
    | DoBegin(job: JobId)
    | DoCommit(job: JobId, reply: Reply, model: string)
    | DoFail(job: JobId, cause: Cause)
    | DoLose(job: JobId)

  function Apply(s: Sys, step: Step): Outcome {
    match step
    case DoUpload => Upload(s)
    case DoPurge => Purge(s)
    case DoRestart => Restart(s)
    case DoRecover => Recover(s)
    case DoSaveEdit(content) => SaveEdit(s, content)
    case DoSetMapping(mapping) => SetMapping(s, mapping)
    case DoSetPlayers(players) => SetPlayers(s, players)
    case DoEditArtifact(kind, text, editor, confirm) => EditArtifact(s, kind, text, editor, confirm)
    case DoPost(kind, force) => PostArtifact(s, kind, force)
    case DoBegin(j) => Begin(s, j)
    case DoCommit(j, reply, model) => Commit(s, j, reply, model)
    case DoFail(j, cause) => Fail(s, j, cause)
    case DoLose(j) => Lose(s, j)
  }

  /** A refused operation changes nothing. */
  function Next(s: Sys, step: Step): Sys {
    var r := Apply(s, step);
    if r.Success? then r.value else s
  }

  function Run(s: Sys, steps: seq<Step>): Sys
    decreases steps
  {
    if steps == [] then s else Run(Next(s, steps[0]), steps[1..])
  }

  /** Every step of the run is allowed by the policy in the state it is taken in. */
  predicate Obeys(s: Sys, steps: seq<Step>, policy: (Sys, Step) -> bool)
    decreases steps
  {
    steps == [] || (policy(s, steps[0]) && Obeys(Next(s, steps[0]), steps[1..], policy))
  }

  lemma {:induction false} RunAppend(s: Sys, a: seq<Step>, b: seq<Step>)
    ensures Run(s, a + b) == Run(Run(s, a), b)
    decreases a
  {
    if a == [] {
      assert a + b == b;
    } else {
      assert (a + b)[1..] == a[1..] + b;
      RunAppend(Next(s, a[0]), a[1..], b);
    }
  }

  lemma RunNone(s: Sys, none: seq<Step>, policy: (Sys, Step) -> bool)
    requires none == []
    ensures Run(s, none) == s && Obeys(s, none, policy)
  {}

  lemma RunOne(s: Sys, a: Step)
    ensures Run(s, [a]) == Next(s, a)
  {
    assert Run(Next(s, a), [a][1..]) == Next(s, a);
  }

  lemma RunTwo(s: Sys, a: Step, b: Step)
    ensures Run(s, [a, b]) == Next(Next(s, a), b)
  {
    RunAppend(s, [a], [b]);
    assert [a, b] == [a] + [b];
    RunOne(s, a);
    RunOne(Next(s, a), b);
  }

  lemma RunThree(s: Sys, a: Step, b: Step, c: Step)
    ensures Run(s, [a, b, c]) == Next(Next(Next(s, a), b), c)
  {
    RunAppend(s, [a, b], [c]);
    assert [a, b, c] == [a, b] + [c];
    RunTwo(s, a, b);
    RunOne(Next(Next(s, a), b), c);
  }
}
