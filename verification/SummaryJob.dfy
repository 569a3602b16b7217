/**
 * The map-reduce summary job (app/jobs/jdr.py): all or nothing for any number of chunks and any
 * failing model call, and which rows its final transaction writes.
 */
module SummaryJob {
  import opened Wrappers
  import opened SessionModel
  import opened SessionStore
  import M = SessionModel
  import Bookkeeping
  import TextChunker

  type Data = seq<(Option<ChunkId>, string)>

  // ----- The model calls ----------------------------------------------------------------

  datatype Call = MapCall(text: string) | ReduceCall(partials: seq<string>)

  datatype Answer = Completed(text: string) | FailedWith(cause: Cause)

  datatype Ending = CouldNotLoad(error: LoadError) | CallFailed(cause: Cause)
      | Summarised(partials: seq<string>, final: string)

  /** One call per chunk, and one more to consolidate unless there is a single chunk. */
  function CallsNeeded(n: nat): nat {
    if n == 1 then 1 else n + 1
  }

  /** The calls a job makes, as far as it gets: every chunk in order, then all partial summaries together. */
  ghost predicate CallsFollow(calls: seq<Call>, data: Data, answer: nat -> Answer) {
    && |calls| <= CallsNeeded(|data|)
    && (forall i | 0 <= i < |calls| && i < |data| :: calls[i] == MapCall(data[i].1))
    && (forall i | 0 <= i < |calls| - 1 :: answer(i).Completed?)
    && (|calls| == |data| + 1 ==>
          && calls[|data|].ReduceCall? && |calls[|data|].partials| == |data|
          && forall i | 0 <= i < |data| :: answer(i) == Completed(calls[|data|].partials[i]))
  }

  /** What a finished job made of the answers. */
  ghost predicate MadeFrom(partials: seq<string>, final: string, n: nat, answer: nat -> Answer) {
    && |partials| == n
    && (forall i | 0 <= i < n :: answer(i) == Completed(partials[i]))
    && answer(CallsNeeded(n) - 1) == Completed(final)
  }

  /** Loading a summary job writes no row; it reads every chunk or every piece of the edited text. */
  lemma LoadingSummary(s: Sys, j: JobId)
    requires Waiting(s, j) && s.jobs[j].kind.SummaryJob?
    ensures M.Begin(s, j).Success? && M.Begin(s, j).value.row == s.row
    ensures LoadWork(s.row, SummaryJob, s.chunkMax).Success? ==>
              && Running(M.Begin(s, j).value, j) && M.Begin(s, j).value.jobs[j].kind.SummaryJob?
              && M.Begin(s, j).value.jobs[j].work == Summarise(ChunkData(s.row, s.chunkMax))
  {}

  lemma FailingSummary(s: Sys, j: JobId, cause: Cause)
    requires Running(s, j) && s.jobs[j].kind.SummaryJob?
    ensures M.Fail(s, j, cause).Success? && M.Fail(s, j, cause).value.row == s.row
  {}

  /** How one attempt that began in state `s` left the store. */
  ghost predicate Left(s: Sys, j: JobId, ending: Ending, calls: seq<Call>, answer: nat -> Answer, model: string,
      after: Sys)
    requires Waiting(s, j) && s.jobs[j].kind.SummaryJob?
  {
    var data := ChunkData(s.row, s.chunkMax);
    var loaded := M.Begin(s, j);
    match ending
    case CouldNotLoad(error) =>
      LoadWork(s.row, SummaryJob, s.chunkMax) == Failure(error) && calls == [] && loaded == Success(after)
    case CallFailed(cause) =>
      && calls != [] && CallsFollow(calls, data, answer) && answer(|calls| - 1) == FailedWith(cause)
      && loaded.Success? && M.Fail(loaded.value, j, cause) == Success(after)
    case Summarised(partials, final) =>
      && |calls| == CallsNeeded(|data|) && CallsFollow(calls, data, answer)
      && MadeFrom(partials, final, |data|, answer)
      && loaded.Success? && M.Commit(loaded.value, j, Summaries(partials, final), model) == Success(after)
  }

  /** The map phase: one call per chunk in order, until one fails. */
  method MapPhase(data: Data, answer: nat -> Answer)
    returns (partials: seq<string>, calls: seq<Call>, failed: Option<Cause>)
    ensures failed.Some? ==> calls != [] && CallsFollow(calls, data, answer) && answer(|calls| - 1) == FailedWith(failed.value)
    ensures failed.None? ==> |partials| == |calls| == |data|
    ensures failed.None? ==> forall k | 0 <= k < |data| :: calls[k] == MapCall(data[k].1) && answer(k) == Completed(partials[k])
  {
    partials, calls, failed := [], [], None;
    for i := 0 to |data|
      invariant |partials| == |calls| == i
      invariant forall k | 0 <= k < i :: calls[k] == MapCall(data[k].1) && answer(k) == Completed(partials[k])
    {
      calls := calls + [MapCall(data[i].1)];
      var reply := answer(i);
      if reply.FailedWith? {
        failed := Some(reply.cause);
        return;
      }
      partials := partials + [reply.text];
    }
  }

  /** Consolidation: no call for a single partial summary, one call for any other number. */
  method ReducePhase(data: Data, partials: seq<string>, mapped: seq<Call>, answer: nat -> Answer)
    returns (final: string, calls: seq<Call>, failed: Option<Cause>)
    requires |partials| == |mapped| == |data|
    requires forall k | 0 <= k < |data| :: mapped[k] == MapCall(data[k].1) && answer(k) == Completed(partials[k])
    ensures CallsFollow(calls, data, answer) && |calls| == CallsNeeded(|data|)
    ensures failed.Some? ==> answer(|calls| - 1) == FailedWith(failed.value)
    ensures failed.None? ==> MadeFrom(partials, final, |data|, answer)
  {
    calls, failed := mapped, None;
    if |partials| == 1 {
      final := partials[0];
      return;
    }
    calls := calls + [ReduceCall(partials)];
    var reply := answer(|data|);
    match reply
    case FailedWith(cause) => final, failed := "", Some(cause);
    case Completed(text) => final := text;
  }

  /**
   * One attempt with nothing in between, for any behaviour of the model: `answer(i)` is what
   * the call number `i` comes back with. The first failing call ends the attempt and every row
   * is as before; without one the job commits once, at the end.
   */
  method GenerateSummary(store: Store, j: JobId, answer: nat -> Answer, model: string)
    returns (ending: Ending, calls: seq<Call>)
    requires Waiting(store.View(), j) && store.jobs[j].kind.SummaryJob?
    modifies store
    ensures Left(old(store.View()), j, ending, calls, answer, model, store.View())
    ensures !ending.Summarised? ==> store.Row() == old(store.Row())
    ensures ending.Summarised? && |ending.partials| == 1 ==> |calls| == 1 && ending.final == ending.partials[0]
    ensures ending.Summarised? && |ending.partials| != 1 ==>
              && |calls| == |ending.partials| + 1 && calls[|ending.partials|] == ReduceCall(ending.partials)
              && answer(|ending.partials|) == Completed(ending.final)
  {
    ghost var s := store.View();
    LoadingSummary(s, j);
    var load := LoadWork(store.Row(), SummaryJob, store.chunkMax);
    store.Begin(j);
    if load.Failure? {
      assert store.View().row == s.row;
      return CouldNotLoad(load.error), [];
    }
    ghost var loaded := store.View();
    var data := store.jobs[j].work.data;
    var partials, mapped, failed := MapPhase(data, answer);
    var final := "";
    calls := mapped;
    if failed.None? {
      final, calls, failed := ReducePhase(data, partials, mapped, answer);
    }
    if failed.Some? {
      FailingSummary(loaded, j, failed.value);
      store.Fail(j, failed.value);
      assert store.View().row == s.row;
      return CallFailed(failed.value), calls;
    }
    store.Commit(j, Summaries(partials, final), model);
    ending := Summarised(partials, final);
  }

  // ----- What the commit writes ---------------------------------------------------------

  /** No chunk is read twice. */
  ghost predicate IdsDiffer(data: Data) {
    forall i, k | 0 <= i < k < |data| && data[i].0.Some? :: data[i].0 != data[k].0
  }

  lemma {:induction false} PartialForAt(data: Data, partials: seq<string>, k: nat, id: ChunkId)
    requires |data| == |partials| && k < |data| && IdsDiffer(data) && data[k].0 == Some(id)
    ensures PartialFor(id, data, partials) == Some(partials[k])
    decreases data
  {
    var n := |data| - 1;
    if k < n { PartialForAt(data[..n], partials[..n], k, id); }
  }

  lemma {:induction false} PartialForNone(data: Data, partials: seq<string>, id: ChunkId)
    requires |data| == |partials| && forall k | 0 <= k < |data| :: data[k].0 != Some(id)
    ensures PartialFor(id, data, partials).None?
    decreases data
  {
    if data != [] { PartialForNone(data[..|data| - 1], partials[..|data| - 1], id); }
  }

  /** After the swap a chunk carries the summary made from it, or none if this job did not read it. */
  ghost predicate SwapWrote(before: Session, after: Session, data: Data, partials: seq<string>, final: string,
      model: string)
    requires |data| == |partials|
  {
    && |after.chunks| == |before.chunks|
    && (forall i | 0 <= i < |before.chunks| ::
          && after.chunks[i] == before.chunks[i].(summaryText := after.chunks[i].summaryText)
          && (after.chunks[i].summaryText.Some? ==> exists k | 0 <= k < |data| :: data[k].0 == Some(before.chunks[i].id))
          && (forall k | 0 <= k < |data| && data[k].0 == Some(before.chunks[i].id) ::
                after.chunks[i].summaryText == Some(partials[k])))
    && (forall k :: k in after.artifacts <==> k == Summary)
    && after.artifacts[Summary] == Artifact(final, model, false, None)
    && after == before.(chunks := after.chunks, artifacts := after.artifacts)
  }

  lemma SwapWrites(s: Sys, data: Data, partials: seq<string>, final: string, model: string)
    requires |data| == |partials| && IdsDiffer(data)
    ensures SwapWrote(s.row, SummaryCommitted(s, data, partials, final, model).row, data, partials, final, model)
  {
    forall i, k | 0 <= i < |s.row.chunks| && 0 <= k < |data| && data[k].0 == Some(s.row.chunks[i].id)
      ensures PartialFor(s.row.chunks[i].id, data, partials) == Some(partials[k])
    {
      PartialForAt(data, partials, k, s.row.chunks[i].id);
    }
    forall i | 0 <= i < |s.row.chunks| && PartialFor(s.row.chunks[i].id, data, partials).Some?
      ensures exists k | 0 <= k < |data| :: data[k].0 == Some(s.row.chunks[i].id)
    {
      if forall k | 0 <= k < |data| :: data[k].0 != Some(s.row.chunks[i].id) {
        PartialForNone(data, partials, s.row.chunks[i].id);
      }
    }
  }

  // ----- Chunk ids over runs ------------------------------------------------------------

  /** Chunk ids are handed out once. */
  ghost predicate ChunkIdsOnce(s: Sys) {
    && (forall i | 0 <= i < |s.row.chunks| :: s.row.chunks[i].id < s.nextChunk)
    && (forall i, k | 0 <= i < k < |s.row.chunks| :: s.row.chunks[i].id != s.row.chunks[k].id)
  }

  /** A job has read each chunk once, and every chunk that still has an id it read has the text it read. */
  ghost predicate ReadRight(s: Sys, data: Data) {
    && IdsDiffer(data)
    && (forall k | 0 <= k < |data| && data[k].0.Some? :: data[k].0.value < s.nextChunk)
    && (forall i, k | 0 <= i < |s.row.chunks| && 0 <= k < |data| && data[k].0 == Some(s.row.chunks[i].id) ::
          s.row.chunks[i].text == data[k].1)
  }

  ghost predicate IdsOnce(s: Sys) {
    ChunkIdsOnce(s) && forall j: JobId | Running(s, j) && s.jobs[j].work.Summarise? :: ReadRight(s, s.jobs[j].work.data)
  }

  lemma ReadOnce(s: Sys)
    requires ChunkIdsOnce(s)
    ensures ReadRight(s, ChunkData(s.row, s.chunkMax))
  {}

  /** A chunk with this id and text was there already. */
  ghost predicate Known(row: Session, c: Chunk) {
    exists k | 0 <= k < |row.chunks| :: row.chunks[k].id == c.id && row.chunks[k].text == c.text
  }

  /** Every chunk after is a chunk of before with the same text, or has a new id. */
  ghost predicate ChunksAge(s: Sys, t: Sys) {
    && s.nextChunk <= t.nextChunk
    && forall i | 0 <= i < |t.row.chunks| :: t.row.chunks[i].id >= s.nextChunk || Known(s.row, t.row.chunks[i])
  }

  lemma NewChunksAge(s: Sys, texts: seq<string>)
    requires ChunkIdsOnce(s) && ChunksCommitted(s, texts).Some?
    ensures ChunkIdsOnce(ChunksCommitted(s, texts).value) && ChunksAge(s, ChunksCommitted(s, texts).value)
  {
    var t := ChunksCommitted(s, texts).value;
    forall i | 0 <= i < |t.row.chunks| ensures t.row.chunks[i].id >= s.nextChunk || Known(s.row, t.row.chunks[i]) {
      if i >= |texts| { assert t.row.chunks[i] == s.row.chunks[i - |texts|]; }
    }
  }

  /** Other work keeps every chunk in its place, with its id and text. */
  lemma SameChunksAge(s: Sys, t: Sys)
    requires ChunkIdsOnce(s) && t.nextChunk == s.nextChunk && |t.row.chunks| == |s.row.chunks|
    requires forall i | 0 <= i < |s.row.chunks| ::
               t.row.chunks[i].id == s.row.chunks[i].id && t.row.chunks[i].text == s.row.chunks[i].text
    ensures ChunkIdsOnce(t) && ChunksAge(s, t)
  {
    forall i | 0 <= i < |t.row.chunks| ensures Known(s.row, t.row.chunks[i]) {
      assert s.row.chunks[i].id == t.row.chunks[i].id;
    }
  }

  /** Committing the work of any job: new chunks have new ids, old ones keep id and text. */
  lemma RowsKeepIds(s: Sys, kind: JobKind, work: Work, reply: Reply, model: string)
    requires ChunkIdsOnce(s) && Answers(work, reply)
    ensures var done := Committed(s, kind, work, reply, model);
            done.Some? ==> ChunkIdsOnce(done.value) && ChunksAge(s, done.value)
  {
    var done := Committed(s, kind, work, reply, model);
    if done.Some? {
      if work.Transcribe? && work.mode.NonDiarised? {
        NewChunksAge(s, TextChunker.Chunks(Joined(reply.segments), s.chunkMax));
      } else {
        SameChunksAge(s, done.value);
      }
    }
  }

  lemma AgeingKeepsRead(s: Sys, t: Sys, data: Data)
    requires ReadRight(s, data) && ChunksAge(s, t)
    ensures ReadRight(t, data)
  {
    forall i, k | 0 <= i < |t.row.chunks| && 0 <= k < |data| && data[k].0 == Some(t.row.chunks[i].id)
      ensures t.row.chunks[i].text == data[k].1
    {
      assert Known(s.row, t.row.chunks[i]);
    }
  }

  lemma WorkerAges(s: Sys, step: Step)
    requires ChunkIdsOnce(s) && Bookkeeping.IsWorkerStep(step)
    ensures ChunkIdsOnce(Next(s, step)) && ChunksAge(s, Next(s, step))
  {
    if step.DoCommit? && Running(s, step.job) && Answers(s.jobs[step.job].work, step.reply) {
      RowsKeepIds(s, s.jobs[step.job].kind, s.jobs[step.job].work, step.reply, step.model);
    }
    if Next(s, step).row.chunks == s.row.chunks && Next(s, step).nextChunk == s.nextChunk {
      SameChunksAge(s, Next(s, step));
    }
  }

  lemma OnlyBeginLoads(s: Sys, step: Step, j: JobId)
    requires Bookkeeping.IsWorkerStep(step) && !step.DoBegin? && Running(Next(s, step), j)
    ensures Running(s, j) && Next(s, step).jobs[j] == s.jobs[j]
  {
    Bookkeeping.WorkerFrame(s, step);
  }

  lemma LoadsSummary(row: Session, kind: JobKind, chunkMax: Limit)
    requires LoadWork(row, kind, chunkMax).Success? && LoadWork(row, kind, chunkMax).value.Summarise?
    ensures LoadWork(row, kind, chunkMax).value.data == ChunkData(row, chunkMax)
  {}

  lemma BeginHolds(s: Sys, j: JobId)
    requires Waiting(s, j) && Running(Next(s, DoBegin(j)), j)
    ensures LoadWork(s.row, s.jobs[j].kind, s.chunkMax) == Success(Next(s, DoBegin(j)).jobs[j].work)
  {}

  lemma BeginLoads(s: Sys, i: JobId, j: JobId)
    requires Running(Next(s, DoBegin(i)), j) && Next(s, DoBegin(i)).jobs[j].work.Summarise?
    ensures || (Running(s, j) && Next(s, DoBegin(i)).jobs[j].work == s.jobs[j].work)
            || Next(s, DoBegin(i)).jobs[j].work.data == ChunkData(s.row, s.chunkMax)
  {
    if i != j {
      Bookkeeping.WorkerFrame(s, DoBegin(i));
    } else if Waiting(s, j) {
      BeginHolds(s, j);
      LoadsSummary(s.row, s.jobs[j].kind, s.chunkMax);
    }
  }

  /** A job runs after a worker step only if it ran before, or has just read the session. */
  lemma RunningWork(s: Sys, step: Step, j: JobId)
    requires Bookkeeping.IsWorkerStep(step) && Running(Next(s, step), j)
    ensures var work := Next(s, step).jobs[j].work;
            || (Running(s, j) && work == s.jobs[j].work)
            || (work.Summarise? ==> work.data == ChunkData(s.row, s.chunkMax))
  {
    if !step.DoBegin? {
      OnlyBeginLoads(s, step, j);
    } else if Next(s, step).jobs[j].work.Summarise? {
      BeginLoads(s, step.job, j);
    }
  }

  lemma WorkerKeepsIds(s: Sys, step: Step)
    requires IdsOnce(s) && Bookkeeping.IsWorkerStep(step)
    ensures IdsOnce(Next(s, step))
  {
    WorkerAges(s, step);
    ReadOnce(s);
    var t := Next(s, step);
    forall j: JobId | Running(t, j) && t.jobs[j].work.Summarise? ensures ReadRight(t, t.jobs[j].work.data) {
      RunningWork(s, step, j);
      AgeingKeepsRead(s, t, t.jobs[j].work.data);
    }
  }

  lemma HttpAges(s: Sys, step: Step)
    requires ChunkIdsOnce(s) && !Bookkeeping.IsWorkerStep(step)
    ensures ChunkIdsOnce(Next(s, step)) && ChunksAge(s, Next(s, step))
  {
    assert Next(s, step).row.chunks == s.row.chunks || Next(s, step).row.chunks == [];
    if Next(s, step).row.chunks == s.row.chunks { SameChunksAge(s, Next(s, step)); }
  }

  lemma StepKeepsIds(s: Sys, step: Step)
    requires IdsOnce(s)
    ensures IdsOnce(Next(s, step))
  {
    if Bookkeeping.IsWorkerStep(step) {
      WorkerKeepsIds(s, step);
    } else {
      HttpAges(s, step);
      var t := Next(s, step);
      forall j: JobId | Running(t, j) && t.jobs[j].work.Summarise? ensures ReadRight(t, t.jobs[j].work.data) {
        assert Running(s, j) && t.jobs[j] == s.jobs[j];
        AgeingKeepsRead(s, t, t.jobs[j].work.data);
      }
    }
  }

  lemma {:induction false} RunKeepsIds(s: Sys, steps: seq<Step>)
    requires IdsOnce(s)
    ensures IdsOnce(Run(s, steps))
    decreases steps
  {
    if steps != [] {
      StepKeepsIds(s, steps[0]);
      RunKeepsIds(Next(s, steps[0]), steps[1..]);
    }
  }

  /**
   * Main theorem: in every run whatsoever, when a summary job commits, each chunk gets the
   * summary made from its own text and any other chunk is cleared; every derived artefact
   * goes, the summary is a fresh one, and nothing else of the session changes.
   */
  lemma EverySwapWrites(mode: Mode, chunkMax: Limit, steps: seq<Step>, j: JobId, partials: seq<string>,
      final: string, model: string)
    requires var s := Run(Init(mode, chunkMax), steps);
             Running(s, j) && s.jobs[j].work.Summarise? && |partials| == |s.jobs[j].work.data|
    ensures var s := Run(Init(mode, chunkMax), steps); var data := s.jobs[j].work.data;
            && SwapWrote(s.row, Next(s, DoCommit(j, Summaries(partials, final), model)).row, data, partials, final, model)
            && (forall i, k | 0 <= i < |s.row.chunks| && 0 <= k < |data| && data[k].0 == Some(s.row.chunks[i].id) ::
                  s.row.chunks[i].text == data[k].1)
  {
    var s := Run(Init(mode, chunkMax), steps);
    RunKeepsIds(Init(mode, chunkMax), steps);
    SwapWrites(s, s.jobs[j].work.data, partials, final, model);
  }

  /** And what later jobs read instead of the chunks is, for each of them, the summary made from its text. */
  lemma SwapIsRead(mode: Mode, chunkMax: Limit, steps: seq<Step>, j: JobId, partials: seq<string>,
      final: string, model: string)
    requires var s := Run(Init(mode, chunkMax), steps);
             Running(s, j) && s.jobs[j].work.Summarise? && |partials| == |s.jobs[j].work.data|
    requires var t := Next(Run(Init(mode, chunkMax), steps), DoCommit(j, Summaries(partials, final), model));
             LoadSource(t.row).Success? && t.row.mode.NonDiarised? && !HasEditedText(t.row)
    ensures var s := Run(Init(mode, chunkMax), steps); var data := s.jobs[j].work.data;
            var source := LoadSource(Next(s, DoCommit(j, Summaries(partials, final), model)).row).value;
            && source.PartialSummaries? && |source.texts| == |s.row.chunks|
            && forall i, k | 0 <= i < |s.row.chunks| && 0 <= k < |data| && data[k].0 == Some(s.row.chunks[i].id) ::
                 source.texts[i] == partials[k]
  {
    EverySwapWrites(mode, chunkMax, steps, j, partials, final, model);
    var s := Run(Init(mode, chunkMax), steps);
    PartialsAreRead(Next(s, DoCommit(j, Summaries(partials, final), model)).row);
  }

  /** The partial summaries of all chunks, in their order. */
  lemma PartialsAreRead(row: Session)
    requires LoadSource(row).Success? && row.mode.NonDiarised? && !HasEditedText(row)
    ensures var source := LoadSource(row).value;
            && source.PartialSummaries? && |source.texts| == |row.chunks|
            && forall i | 0 <= i < |row.chunks| :: row.chunks[i].summaryText == Some(source.texts[i])
  {}

  /** Without anything in between: partial `i` on chunk `i`, or no partial at all when an edited text was summarised. */
  lemma PartialsInPlace(s: Sys, partials: seq<string>, final: string, model: string)
    requires IdsOnce(s) && |partials| == |ChunkData(s.row, s.chunkMax)|
    ensures var after := SummaryCommitted(s, ChunkData(s.row, s.chunkMax), partials, final, model).row.chunks;
            forall i | 0 <= i < |s.row.chunks| ::
              after[i].summaryText == if HasEditedText(s.row) then None else Some(partials[i])
  {
    var data := ChunkData(s.row, s.chunkMax);
    ReadOnce(s);
    forall i | 0 <= i < |s.row.chunks|
      ensures PartialFor(s.row.chunks[i].id, data, partials) == if HasEditedText(s.row) then None else Some(partials[i])
    {
      if HasEditedText(s.row) {
        PartialForNone(data, partials, s.row.chunks[i].id);
      } else {
        PartialForAt(data, partials, i, s.row.chunks[i].id);
      }
    }
  }
}
