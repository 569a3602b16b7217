/**
 * One attempt of the transcription job (app/jobs/jdr.py): cutting, transcribing and stitching,
 * the progress shown meanwhile, and what the session is left with.
 */
module Transcription {
  import opened Wrappers
  import opened Progress
  import opened SessionModel
  import opened SessionStore
  import opened Stitching
  import M = SessionModel

  // ----- Transcribing in pieces ---------------------------------------------------------

  ghost predicate AllUnderstood(answer: nat -> Answer, n: nat) {
    forall i | 0 <= i < n :: answer(i).Understood?
  }

  function Pieces(answer: nat -> Answer, n: nat): seq<Heard>
    requires AllUnderstood(answer, n)
  {
    seq(n, i requires 0 <= i < n && answer(i).Understood? => answer(i).heard)
  }

  lemma PieceOffset(done: nat, duration: nat)
    ensures (done * duration) as real == Offset(0.0, done, duration as real)
  {}

  /** A whole with one more piece, which starts at `offset`. */
  function Added(whole: Heard, heard: Heard, offset: real): Heard {
    Heard(whole.segments + Shifted(heard.segments, offset),
          if heard.language != "" then heard.language else whole.language,
          if heard.modelUsed != "" then heard.modelUsed else whole.modelUsed,
          if heard.provider != "" then heard.provider else whole.provider)
  }

  lemma OneMore(answer: nat -> Answer, done: nat, duration: nat)
    requires AllUnderstood(answer, done) && answer(done).Understood?
    ensures AllUnderstood(answer, done + 1)
    ensures Added(Whole(Pieces(answer, done), duration as real), answer(done).heard, (done * duration) as real)
         == Whole(Pieces(answer, done + 1), duration as real)
  {
    PieceOffset(done, duration);
    WholeSnoc(Pieces(answer, done), answer(done).heard, duration as real);
    assert Pieces(answer, done + 1) == Pieces(answer, done) + [answer(done).heard];
  }

  /** The progress after a piece: the rounded percentage of the pieces done, but never 100. */
  method OnChunk(reporter: ProgressReporter, done: nat, total: nat, saved: bool)
    requires 0 < done <= total && Rising(reporter.stored, Shown(done - 1, total))
    modifies reporter
    ensures reporter.meta == Meta(Some("transcribing"), Some(Shown(done, total)))
    ensures ShowsDone(reporter.meta, done, total)
    ensures Rising(reporter.stored, Shown(done, total)) && old(reporter.stored) <= reporter.stored
  {
    ShownIsRounded(done, total);
    ShownGrows(done - 1, total);
    RisingSnoc(reporter.stored, Shown(done - 1, total), Meta(Some("transcribing"), Some(Shown(done, total))));
    reporter.Report("transcribing", Some(Percent(done, total)), saved);
  }

  /** The loop over the pieces; the first piece that fails ends it. */
  method TranscribePieces(reporter: ProgressReporter, duration: nat, total: nat, answer: nat -> Answer,
      saves: nat -> bool)
    returns (result: Option<Heard>, done: nat, cause: Cause)
    requires reporter.meta.percent == Some(0) && Rising(reporter.stored, 0) && reporter.meta.phase.Some?
    modifies reporter
    ensures done <= total && AllUnderstood(answer, done)
    ensures result.Some? ==> done == total && result.value == Whole(Pieces(answer, total), duration as real)
    ensures result.None? ==> done < total && answer(done) == Broken(cause)
    ensures reporter.meta.phase == if done == 0 then old(reporter.meta.phase) else Some("transcribing")
    ensures reporter.meta.percent == Some(Shown(done, total)) && Rising(reporter.stored, Shown(done, total))
    ensures old(reporter.stored) <= reporter.stored
  {
    var whole := Heard([], "", "", "");
    result, done, cause := None, 0, Uncaught;
    assert Pieces(answer, 0) == [];
    while done < total
      invariant done <= total && AllUnderstood(answer, done)
      invariant whole == Whole(Pieces(answer, done), duration as real)
      invariant reporter.meta.phase == if done == 0 then old(reporter.meta.phase) else Some("transcribing")
      invariant reporter.meta.percent == Some(Shown(done, total)) && Rising(reporter.stored, Shown(done, total))
      invariant old(reporter.stored) <= reporter.stored
    {
      var offset := (done * duration) as real;
      var reply := answer(done);
      if reply.Broken? {
        cause := reply.cause;
        return;
      }
      OneMore(answer, done, duration);
      whole := Added(whole, reply.heard, offset);
      done := done + 1;
      OnChunk(reporter, done, total, saves(done));
    }
    result := Some(whole);
  }

  /** What became of the recognition, before anything is stored. */
  datatype Recognition = Recognised(heard: Heard) | Broke(after: nat, cause: Cause)

  /** `total` pieces, or none when the audio could not be cut; a duration of zero or less leaves it whole. */
  ghost predicate Recognises(r: Recognition, duration: int, total: nat, answer: nat -> Answer) {
    match r
    case Recognised(heard) =>
      if duration <= 0 then answer(0) == Understood(heard)
      else total > 0 && AllUnderstood(answer, total) && heard == Whole(Pieces(answer, total), duration as real)
    case Broke(after, cause) =>
      if duration <= 0 then after == 0 && answer(0) == Broken(cause)
      else if total == 0 then after == 0 && cause == Permanent
      else after < total && AllUnderstood(answer, after) && answer(after) == Broken(cause)
  }

  function FirstPhase(duration: int): string {
    if duration > 0 then "reducing" else "transcribing"
  }

  /** The phase in which the last piece left the reporter. */
  function LastPhase(duration: int, done: nat): string {
    if done == 0 then FirstPhase(duration) else "transcribing"
  }

  method TranscribeWithOptionalChunking(
    reporter: ProgressReporter, duration: int, total: nat, answer: nat -> Answer, saves: nat -> bool)
    returns (r: Recognition, done: nat)
    requires reporter.meta == Meta(Some(FirstPhase(duration)), Some(0)) && Rising(reporter.stored, 0)
    modifies reporter
    ensures Recognises(r, duration, total, answer)
    ensures done == if duration <= 0 then 0 else if r.Broke? then r.after else total
    ensures reporter.meta == Meta(Some(LastPhase(duration, done)), Some(Shown(done, total)))
    ensures Rising(reporter.stored, Shown(done, total)) && old(reporter.stored) <= reporter.stored
  {
    done := 0;
    if duration <= 0 {
      var reply := answer(0);
      r := if reply.Understood? then Recognised(reply.heard) else Broke(0, reply.cause);
      return;
    }
    if total == 0 {
      return Broke(0, Permanent), 0;
    }
    var whole, n, cause := TranscribePieces(reporter, duration, total, answer, saves);
    done := n;
    r := if whole.Some? then Recognised(whole.value) else Broke(n, cause);
  }

  // ----- The attempt --------------------------------------------------------------------

  datatype Ending = NotLoaded | NotPrepared | NoAdapter | Interrupted(after: nat, cause: Cause)
      | RolledBack(heard: Heard)
      | Complete(heard: Heard)

  /** What an attempt that began in state `s` made of the session. */
  ghost predicate Left(s: Sys, j: JobId, prepared: bool, adapter: bool, duration: int, total: nat,
      answer: nat -> Answer,
      ending: Ending, after: Sys)
    requires Waiting(s, j)
  {
    var loaded := M.Begin(s, j);
    loaded.Success? &&
    match ending
    case NotLoaded => LoadWork(s.row, TranscriptionJob, s.chunkMax).Failure? && after == loaded.value
    case NotPrepared => !prepared && M.Fail(loaded.value, j, Permanent) == Success(after)
    case NoAdapter => prepared && !adapter && M.Fail(loaded.value, j, Uncaught) == Success(after)
    case Interrupted(done, cause) =>
      prepared && adapter && Recognises(Broke(done, cause), duration, total, answer) && M.Fail(loaded.value, j, cause) == Success(after)
    case RolledBack(heard) =>
      && prepared && adapter && Recognises(Recognised(heard), duration, total, answer)
      && M.Commit(loaded.value, j, Transcript(heard.segments), heard.modelUsed) == Success(after)
      && j in after.jobs && !after.jobs[j].status.Finished?
    case Complete(heard) =>
      && prepared && adapter && Recognises(Recognised(heard), duration, total, answer)
      && M.Commit(loaded.value, j, Transcript(heard.segments), heard.modelUsed) == Success(after)
      && j in after.jobs && after.jobs[j].status.Finished?
  }

  /** The last progress an attempt leaves behind. */
  function Final(before: Meta, ending: Ending, duration: int, total: nat): Meta {
    match ending
    case NotLoaded => before
    case NotPrepared => before
    case NoAdapter => before
    case Interrupted(done, cause) =>
      Meta(Some(if cause.Uncaught? then LastPhase(duration, done) else "failed"), Some(Shown(done, total)))
    case RolledBack(_) => var done := if duration <= 0 then 0 else total; Meta(Some(LastPhase(duration, done)), Some(Shown(done, total)))
    case Complete(_) => Meta(Some("done"), Some(100))
  }

  /**
   * In the terms of a reader: done and 100 after a commit; else the rounded percentage of the
   * pieces that were transcribed, under "failed" for the errors of a model.
   */
  lemma FinalShows(before: Meta, ending: Ending, duration: int, total: nat)
    requires ending.Interrupted? ==> ending.after == 0 || ending.after < total
    ensures var last := Final(before, ending, duration, total);
            && (ending.Complete? ==> last == Meta(Some("done"), Some(100)))
            && (ending.RolledBack? && 0 < duration && 0 < total ==> last == Meta(Some("transcribing"), Some(99)))
            && (ending.Interrupted? && !ending.cause.Uncaught? ==> last.phase == Some("failed"))
            && (ending.Interrupted? && ending.after == 0 ==> last.percent == Some(0))
            && (ending.Interrupted? && 0 < ending.after ==> ShowsDone(last, ending.after, total))
            && (ending.NotLoaded? || ending.NotPrepared? || ending.NoAdapter? ==> last == before)
  {
    if ending.Interrupted? && 0 < ending.after { ShownIsRounded(ending.after, total); }
    if 0 < total { ShownIsRounded(total, total); }
  }

  lemma LoadingTranscription(s: Sys, j: JobId)
    requires Waiting(s, j) && s.jobs[j].kind.TranscriptionJob?
    ensures M.Begin(s, j).Success?
    ensures LoadWork(s.row, TranscriptionJob, s.chunkMax).Success? ==>
              && Running(M.Begin(s, j).value, j) && M.Begin(s, j).value.jobs[j].kind.TranscriptionJob?
              && M.Begin(s, j).value.jobs[j].work == Transcribe(s.row.mode)
  {}

  /** Progress of a reporter that has been at `shown` percent, before the last report. */
  ghost predicate Showing(reporter: ProgressReporter, phase: string, shown: nat)
    reads reporter
  {
    reporter.meta == Meta(Some(phase), Some(shown)) && shown <= 99 && Rising(reporter.stored, shown)
  }

  /** After a model error: the state of the session goes back or to failed, the percent stays. */
  method Break(store: Store, j: JobId, reporter: ProgressReporter, cause: Cause, saved: bool, ghost phase: string,
      ghost shown: nat)
    requires Running(store.View(), j) && Showing(reporter, phase, shown)
    modifies store, reporter
    ensures M.Fail(old(store.View()), j, cause) == Success(store.View())
    ensures Showing(reporter, if cause.Uncaught? then phase else "failed", shown) && old(reporter.stored) <= reporter.stored
  {
    store.Fail(j, cause);
    if !cause.Uncaught? {
      RisingSnoc(reporter.stored, shown, Meta(Some("failed"), Some(shown)));
      reporter.Report("failed", None, saved);
    }
  }

  /** Storing and reporting a whole transcription; 100 only once it is committed. */
  method Conclude(store: Store, j: JobId, reporter: ProgressReporter, heard: Heard, saved: bool, ghost phase: string,
      ghost shown: nat)
    returns (done: bool)
    requires Running(store.View(), j) && store.jobs[j].work.Transcribe? && Showing(reporter, phase, shown)
    modifies store, reporter
    ensures M.Commit(old(store.View()), j, Transcript(heard.segments), heard.modelUsed) == Success(store.View())
    ensures done <==> j in store.jobs && store.jobs[j].status.Finished?
    ensures old(reporter.stored) <= reporter.stored
    ensures done && old(store.jobs)[j].work == Transcribe(Diarised) ==> store.transcription == Some(heard.segments)
    ensures !done ==> j in store.jobs && Showing(reporter, phase, shown)
    ensures done ==> reporter.meta == Meta(Some("done"), Some(100)) && Rising(reporter.stored, 100)
  {
    store.Commit(j, Transcript(heard.segments), heard.modelUsed);
    done := store.jobs[j].status.Finished?;
    if done {
      RisingSnoc(reporter.stored, shown, Meta(Some("done"), Some(100)));
      reporter.Report("done", Some(100), saved);
    }
  }

  /**
   * One attempt with nothing in between. What readers see starts at zero, never falls, stays
   * below 100 unless the transcription is committed, and is shown by the API as it was stored; a
   * failure keeps the last percent. `adapter` tells whether an adapter could be built.
   */
  method TranscribeSession(
    store: Store, j: JobId, reporter: ProgressReporter, prepared: bool, adapter: bool, duration: int, total: nat,
    answer: nat -> Answer, saves: nat -> bool)
    returns (ending: Ending)
    requires Waiting(store.View(), j) && store.jobs[j].kind.TranscriptionJob?
    requires reporter.stored == []
    modifies store, reporter
    ensures Left(old(store.View()), j, prepared, adapter, duration, total, answer, ending, store.View())
    ensures reporter.meta == Final(old(reporter.meta), ending, duration, total)
    ensures Rising(reporter.stored, if ending.Complete? then 100 else 99)
    ensures AllShownAsStored(reporter.stored)
    ensures reporter.stored != [] && saves(0) ==>
              reporter.stored[0] == Meta(Some(if duration > 0 then "reducing" else "transcribing"), Some(0))
    ensures ending.Complete? && store.mode.Diarised? ==> store.transcription == Some(ending.heard.segments)
  {
    ghost var s := store.View();
    LoadingTranscription(s, j);
    var load := LoadWork(store.Row(), TranscriptionJob, store.chunkMax);
    store.Begin(j);
    if load.Failure? {
      return NotLoaded;
    }
    if !prepared {
      store.Fail(j, Permanent);
      return NotPrepared;
    }
    if !adapter {
      // no handler of the job catches what the adapter builder raises
      store.Fail(j, Uncaught);
      return NoAdapter;
    }
    reporter.Report(FirstPhase(duration), Some(0), saves(0));
    var r, done := TranscribeWithOptionalChunking(reporter, duration, total, answer, saves);
    ShownGrows(done, total);
    if r.Broke? {
      Break(store, j, reporter, r.cause, saves(total + 1), LastPhase(duration, done), Shown(done, total));
      RisingIsShown(reporter.stored, Shown(done, total));
      return Interrupted(r.after, r.cause);
    }
    var stored := Conclude(store, j, reporter, r.heard, saves(total + 1), LastPhase(duration, done), Shown(done, total));
    RisingIsShown(reporter.stored, if stored then 100 else Shown(done, total));
    ending := if stored then Complete(r.heard) else RolledBack(r.heard);
  }
}
