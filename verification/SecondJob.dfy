/**
 * A second regeneration while one is in flight: the service accepts it, and exactly when it can
 * cost a manual edit.
 */
module SecondJob {
  import opened Wrappers
  import opened SessionModel
  import opened Bookkeeping
  import opened EditedArtifacts
  import PyText
  import TextChunker

  // ----- Losing an edit -----------------------------------------------------------------

  /** A step nobody took to discard or replace artefact `k` changes or deletes its edited text. */
  ghost predicate Loses(s: Sys, step: Step, k: Kind) {
    && Edited(s, k) && !DiscardsOnPurpose(step, k)
    && !(k in Next(s, step).row.artifacts && Next(s, step).row.artifacts[k] == s.row.artifacts[k])
  }

  /** No later run, in which nobody starts yet another regeneration beside a live one, loses an edit. */
  ghost predicate KeepsEdits(s: Sys) {
    forall later, step: Step, k: Kind | Obeys(s, later, OneUnforcedJob) :: !Loses(Run(s, later), step, k)
  }

  lemma Through(s: Sys, step: Step)
    requires !step.DoPost?
    ensures KeepsEdits(s) ==> KeepsEdits(Next(s, step))
  {
    if KeepsEdits(s) {
      forall later, next: Step, k: Kind | Obeys(Next(s, step), later, OneUnforcedJob)
        ensures !Loses(Run(Next(s, step), later), next, k)
      {
        var all := [step] + later;
        assert all[0] == step && all[1..] == later;
        assert Obeys(s, all, OneUnforcedJob) && Run(s, all) == Run(Next(s, step), later);
      }
    }
  }

  lemma LostAtOnce(s: Sys, step: Step, k: Kind)
    requires Loses(s, step, k)
    ensures !KeepsEdits(s)
  {
    assert Obeys(s, [], OneUnforcedJob) && Run(s, []) == s;
  }

  // ----- The condition ------------------------------------------------------------------

  /**
   * The job in flight and the new one never write the same artefact, and there is no artefact yet
   * that the former may write: not with the work it holds or is going to read, nor after a retry.
   */
  predicate Compatible(s: Sys, j: JobId, kind: JobKind)
    requires j in s.jobs
  {
    Apart(s.jobs[j].kind, kind) && forall k | k in s.row.artifacts :: !MayWrite(s, j, k)
  }

  /** The regeneration is accepted while `j` is queued, waits for a retry or waits for its model. */
  ghost predicate Accepted(s: Sys, j: JobId, kind: JobKind) {
    && Protected(s) && LiveArtifactJob(s, j)
    && PostRefusal(s.row, kind).None? && forall k | Edited(s, k) :: !Guarded(kind, k)
  }

  lemma AcceptedEnqueues(s: Sys, j: JobId, kind: JobKind)
    requires Accepted(s, j, kind)
    ensures Next(s, DoPost(kind, false)) == Enqueue(s, kind)
    ensures IsArtifactJob(kind) && s.row.state.Transcribed? && (kind.SummaryJob? ==> s.row.mode.NonDiarised?)
  {}

  // ----- Enough -------------------------------------------------------------------------

  lemma CompatibleSettles(s: Sys, j: JobId, kind: JobKind)
    requires Accepted(s, j, kind) && Compatible(s, j, kind)
    ensures Settled(Enqueue(s, kind))
  {
    AcceptedEnqueues(s, j, kind);
    StepKeepsBooked(s, DoPost(kind, false));
    var t := Enqueue(s, kind);
    forall i: JobId | LiveArtifactJob(t, i) ensures i == j || i == s.nextJob {
      if i != s.nextJob { assert LiveArtifactJob(s, i); }
    }
    forall k | k in t.row.artifacts ensures !MayWrite(t, j, k) {
      assert !MayWrite(s, j, k);
    }
    forall k | Edited(t, k) ensures !Guarded(kind, k) { assert Edited(s, k); }
  }

  lemma SettledKeeps(t: Sys)
    requires Settled(t)
    ensures KeepsEdits(t)
  {
    forall later, step: Step, k: Kind | Obeys(t, later, OneUnforcedJob) ensures !Loses(Run(t, later), step, k) {
      RunKeepsSettled(t, later);
      if Edited(Run(t, later), k) && !DiscardsOnPurpose(step, k) { SettledKeepsEdits(Run(t, later), step, k); }
    }
  }

  // ----- And needed ---------------------------------------------------------------------

  /** The job, with the work it holds, writes or deletes artefact `k` when it commits. */
  predicate Hits(job: Job, k: Kind) {
    match job.kind
    case TranscriptionJob => false
    case NarrativeJob => k.Narrative?
    case ElementsJob => k.Elements?
    case SummaryJob => true
    case PovsJob => k.Pov? && job.work.PovsFrom? && k.pj in job.work.pjs
  }

  lemma CommitOverwrites(u: Sys, i: JobId, k: Kind)
    requires Running(u, i) && WorkFits(u.jobs[i]) && Hits(u.jobs[i], k) && Edited(u, k)
    ensures Loses(u, DoCommit(i, ReplyTo(u.jobs[i].work), "m"), k)
  {
    var job := u.jobs[i];
    if job.kind.PovsJob? {
      PovsWriteUnedited(u.row.artifacts, job.work.pjs, ReplyTo(job.work).texts, "m", k.pj);
    }
  }

  lemma EditAccepted(u: Sys, k: Kind)
    requires !Busy(u) && k in u.row.artifacts
    ensures var v := Next(u, DoEditArtifact(k, "x", "gm", false)); Edited(v, k) && v.jobs == u.jobs
  {
    assert !PyText.IsSpace("x"[0]);
  }

  /** Once the session is not busy, an edit of an artefact the running job hits is lost. */
  lemma EditThenOverwritten(u: Sys, i: JobId, k: Kind)
    requires !Busy(u) && k in u.row.artifacts
    requires Running(u, i) && WorkFits(u.jobs[i]) && Hits(u.jobs[i], k)
    ensures !KeepsEdits(u)
  {
    EditAccepted(u, k);
    var edit := DoEditArtifact(k, "x", "gm", false);
    var v := Next(u, edit);
    CommitOverwrites(v, i, k);
    LostAtOnce(v, DoCommit(i, ReplyTo(v.jobs[i].work), "m"), k);
    Through(u, edit);
  }

  /** A job that hits an artefact leaves it behind, unless it deletes it. */
  lemma CommitCreates(u: Sys, i: JobId, k: Kind)
    requires Running(u, i) && WorkFits(u.jobs[i]) && Hits(u.jobs[i], k) && (u.jobs[i].kind.SummaryJob? ==> k.Summary?)
    ensures var v := Next(u, DoCommit(i, ReplyTo(u.jobs[i].work), "m"));
            && k in v.row.artifacts && !Live(v, i) && v.row.currentJob == u.row.currentJob
            && forall o | o in u.jobs && o != i :: o in v.jobs && v.jobs[o] == u.jobs[o]
  {
    var job := u.jobs[i];
    if job.kind.PovsJob? {
      PovsWriteUnedited(u.row.artifacts, job.work.pjs, ReplyTo(job.work).texts, "m", k.pj);
    }
  }

  /** What stays the same while users prepare what a job will read. */
  predicate Beside(t: Sys, u: Sys) {
    && u.jobs == t.jobs && u.row.state == t.row.state && u.row.mode == t.row.mode
    && u.row.currentJob == t.row.currentJob && u.chunkMax == t.chunkMax
    && (forall k | k in t.row.artifacts && (k.Pov? ==> t.row.mode.NonDiarised?) :: k in u.row.artifacts)
  }

  const TEXT := "x"

  lemma TextIsNotBlank()
    ensures !PyText.Blank(TEXT)
  {
    assert !PyText.IsSpace(TEXT[0]);
  }

  /** A saved text gives every artefact job something to read. */
  lemma WithText(t: Sys) returns (u: Sys)
    requires t.row.state.Transcribed?
    ensures (KeepsEdits(t) ==> KeepsEdits(u)) && Beside(t, u) && u.row.artifacts == t.row.artifacts
    ensures u.row.edited == Some(TEXT) && u.row.mapping == t.row.mapping
  {
    TextIsNotBlank();
    u := Next(t, DoSaveEdit(TEXT));
    Through(t, DoSaveEdit(TEXT));
  }

  /** And a cast of one PJ. */
  lemma WithCast(t: Sys, p: PjId) returns (u: Sys)
    requires t.row.state.Transcribed? && t.row.edited == Some(TEXT)
    ensures (KeepsEdits(t) ==> KeepsEdits(u)) && Beside(t, u) && u.row.edited == Some(TEXT)
    ensures t.row.mode.NonDiarised? ==> u.row.players == [p]
    ensures t.row.mode.Diarised? ==> u.row.mapping == [("a", p)]
  {
    if t.row.mode.NonDiarised? {
      assert Deduplicated([p]) == [p];
      u := Next(t, DoSetPlayers([p]));
      Through(t, DoSetPlayers([p]));
    } else {
      u := Next(t, DoSetMapping([("a", p)]));
      Through(t, DoSetMapping([("a", p)]));
    }
  }

  lemma LoadSucceeds(row: Session, kind: JobKind, chunkMax: Limit)
    requires IsArtifactJob(kind) && row.state.Transcribed? && row.edited == Some(TEXT)
    requires kind.SummaryJob? ==> row.mode.NonDiarised?
    requires kind.PovsJob? ==> if row.mode.NonDiarised? then row.players != [] else row.mapping != []
    ensures LoadWork(row, kind, chunkMax).Success?
  {
    TextIsNotBlank();
    if kind.SummaryJob? { TextChunker.ChunksDecompose(TEXT, chunkMax); }
  }

  /** A waiting artefact job picks the session up. */
  lemma Starts(t: Sys, i: JobId)
    requires Waiting(t, i) && IsArtifactJob(t.jobs[i].kind) && LoadWork(t.row, t.jobs[i].kind, t.chunkMax).Success?
    ensures var u := Next(t, DoBegin(i));
            && Running(u, i) && u.jobs[i].kind == t.jobs[i].kind && WorkFits(u.jobs[i]) && u.row == t.row
            && Success(u.jobs[i].work) == LoadWork(t.row, t.jobs[i].kind, t.chunkMax)
            && (forall o | o in t.jobs && o != i :: o in u.jobs && u.jobs[o] == t.jobs[o])
            && (KeepsEdits(t) ==> KeepsEdits(u))
  {
    Through(t, DoBegin(i));
  }

  /** Users can bring a waiting job to run, on a cast of their choice. */
  lemma Prepared(t: Sys, n: JobId, p: PjId) returns (u: Sys)
    requires Waiting(t, n) && IsArtifactJob(t.jobs[n].kind) && t.row.state.Transcribed?
    requires t.jobs[n].kind.SummaryJob? ==> t.row.mode.NonDiarised?
    ensures Running(u, n) && u.jobs[n].kind == t.jobs[n].kind && WorkFits(u.jobs[n])
    ensures u.jobs[n].kind.PovsJob? ==> u.jobs[n].work.pjs == [p]
    ensures u.row.state.Transcribed? && u.row.mode == t.row.mode && u.row.currentJob == t.row.currentJob
    ensures forall o | o in t.jobs && o != n :: o in u.jobs && u.jobs[o] == t.jobs[o]
    ensures KeepsEdits(t) ==> KeepsEdits(u)
  {
    var a := WithText(t);
    var b := WithCast(a, p);
    LoadSucceeds(b.row, t.jobs[n].kind, b.chunkMax);
    Starts(b, n);
    u := Next(b, DoBegin(n));
  }

  /** An artefact there is already, which the running job hits as it is. */
  lemma ExistingIsLost(t: Sys, j: JobId, n: JobId, k: Kind)
    requires Running(t, j) && WorkFits(t.jobs[j]) && n in t.jobs && n != j && t.row.currentJob == Some(n)
    requires k in t.row.artifacts && Hits(t.jobs[j], k)
    ensures !KeepsEdits(t)
  {
    Through(t, DoLose(n));
    EditThenOverwritten(Next(t, DoLose(n)), j, k);
  }

  /** A failed attempt of an artefact job gives the job back to the queue. */
  lemma FailsBack(t: Sys, j: JobId)
    requires Running(t, j) && IsArtifactJob(t.jobs[j].kind) && t.jobs[j].retriesLeft > 0
    ensures var u := Next(t, DoFail(j, Transient));
            && Waiting(u, j) && u.jobs[j].kind == t.jobs[j].kind && u.jobs[j].work.Nothing?
            && u.row == t.row && u.chunkMax == t.chunkMax && u.jobs.Keys == t.jobs.Keys
            && (KeepsEdits(t) ==> KeepsEdits(u))
  {
    Through(t, DoFail(j, Transient));
  }

  /** Users can make a waiting POV job read this PJ, and keep the POV there is of it. */
  lemma MadeToRead(t: Sys, j: JobId, p: PjId) returns (u: Sys)
    requires Waiting(t, j) && t.jobs[j].kind.PovsJob? && t.row.state.Transcribed?
    requires Pov(p) in t.row.artifacts && MayBeCast(t.row, p)
    ensures Waiting(u, j) && u.jobs[j].kind.PovsJob? && Pov(p) in u.row.artifacts
    ensures LoadWork(u.row, PovsJob, u.chunkMax).Success?
    ensures if u.row.mode.NonDiarised? then u.row.players == [p] else MayBeCast(u.row, p)
    ensures u.row.currentJob == t.row.currentJob && u.jobs == t.jobs
    ensures KeepsEdits(t) ==> KeepsEdits(u)
  {
    u := WithText(t);
    if u.row.mode.NonDiarised? { u := WithCast(u, p); }
    LoadSucceeds(u.row, PovsJob, u.chunkMax);
  }

  /** An artefact there is already, which the job in flight hits once it has read the session. */
  lemma WaitingIsLost(t: Sys, j: JobId, n: JobId, k: Kind)
    requires Waiting(t, j) && IsArtifactJob(t.jobs[j].kind) && !t.jobs[j].kind.SummaryJob? && t.jobs[j].work.Nothing?
    requires n in t.jobs && n != j && t.row.currentJob == Some(n) && t.row.state.Transcribed?
    requires k in t.row.artifacts && MayWrite(t, j, k)
    ensures !KeepsEdits(t)
  {
    Through(t, DoLose(n));
    var lost, u := Next(t, DoLose(n)), t;
    if k.Pov? {
      u := MadeToRead(lost, j, k.pj);
      RereadsCast(u, j, k.pj);
    } else {
      u := WithText(lost);
      LoadSucceeds(u.row, u.jobs[j].kind, u.chunkMax);
    }
    Starts(u, j);
    EditThenOverwritten(Next(u, DoBegin(j)), j, k);
  }

  /** The POV of a PJ the job has not read, but finds when it is retried. */
  lemma RetryIsLost(t: Sys, j: JobId, n: JobId, p: PjId)
    requires Running(t, j) && t.jobs[j].kind.PovsJob? && t.jobs[j].retriesLeft > 0
    requires n in t.jobs && n != j && t.row.currentJob == Some(n) && t.row.state.Transcribed?
    requires Pov(p) in t.row.artifacts && MayBeCast(t.row, p)
    ensures !KeepsEdits(t)
  {
    FailsBack(t, j);
    WaitingIsLost(Next(t, DoFail(j, Transient)), j, n, Pov(p));
  }

  lemma RereadsCast(c: Sys, j: JobId, p: PjId)
    requires Waiting(c, j) && c.jobs[j].kind.PovsJob? && LoadWork(c.row, PovsJob, c.chunkMax).Success?
    requires if c.row.mode.NonDiarised? then c.row.players == [p] else MayBeCast(c.row, p)
    ensures Hits(Next(c, DoBegin(j)).jobs[j], Pov(p))
  {
    var pjs := LoadWork(c.row, PovsJob, c.chunkMax).value.pjs;
    if c.row.mode.Diarised? {
      var i :| 0 <= i < |c.row.mapping| && c.row.mapping[i].1 == p;
      assert pjs[i] == p;
    } else {
      assert pjs[0] == p;
    }
  }

  /** An artefact the new job makes, and the running one then hits. */
  lemma CreatedIsLost(t: Sys, j: JobId, n: JobId, k: Kind, p: PjId)
    requires Running(t, j) && WorkFits(t.jobs[j]) && Hits(t.jobs[j], k)
    requires Waiting(t, n) && n != j && IsArtifactJob(t.jobs[n].kind) && t.row.currentJob == Some(n)
    requires t.row.state.Transcribed? && (t.jobs[n].kind.SummaryJob? ==> t.row.mode.NonDiarised?)
    requires k == match t.jobs[n].kind
                  case ElementsJob => Elements
                  case PovsJob => Pov(p)
                  case SummaryJob => Summary
                  case _ => Narrative
    ensures !KeepsEdits(t)
  {
    var u := Prepared(t, n, p);
    var commit := DoCommit(n, ReplyTo(u.jobs[n].work), "m");
    CommitCreates(u, n, k);
    Through(u, commit);
    EditThenOverwritten(Next(u, commit), j, k);
  }

  lemma PurgesAway(u: Sys)
    requires u.row.state.Transcribed?
    ensures var v := Next(u, DoPurge); v.jobs == u.jobs && v.row.currentJob.None? && (KeepsEdits(u) ==> KeepsEdits(v))
  {
    Through(u, DoPurge);
  }

  /** A new summary job deletes what the running one makes after the session lost track of both. */
  lemma SummaryDeletes(t: Sys, j: JobId, n: JobId, k: Kind)
    requires Running(t, j) && WorkFits(t.jobs[j]) && Hits(t.jobs[j], k) && !t.jobs[j].kind.SummaryJob?
    requires Waiting(t, n) && n != j && t.jobs[n].kind.SummaryJob? && t.row.state.Transcribed? && t.row.mode.NonDiarised?
    ensures !KeepsEdits(t)
  {
    var u := Prepared(t, n, 0);
    PurgesAway(u);
    var v := Next(u, DoPurge);
    var commit := DoCommit(j, ReplyTo(v.jobs[j].work), "m");
    CommitCreates(v, j, k);
    Through(v, commit);
    EditThenOverwritten(Next(v, commit), n, k);
  }

  /** Some artefact a running artefact job hits. */
  function Target(job: Job): Kind
    requires WorkFits(job)
  {
    match job.kind
    case ElementsJob => Elements
    case PovsJob => Pov(job.work.pjs[0])
    case SummaryJob => Summary
    case _ => Narrative
  }

  /** Two jobs that can meet: the loss needs no artefact to begin with. */
  lemma MeetingIsLost(t: Sys, j: JobId, n: JobId)
    requires Running(t, j) && WorkFits(t.jobs[j]) && IsArtifactJob(t.jobs[j].kind)
    requires Waiting(t, n) && n != j && IsArtifactJob(t.jobs[n].kind) && t.row.currentJob == Some(n)
    requires t.row.state.Transcribed? && (t.jobs[n].kind.SummaryJob? ==> t.row.mode.NonDiarised?)
    requires !Apart(t.jobs[j].kind, t.jobs[n].kind)
    ensures !KeepsEdits(t)
  {
    var running, waiting := t.jobs[j], t.jobs[n].kind;
    if running.kind == waiting {
      var k := Target(running);
      CreatedIsLost(t, j, n, k, if k.Pov? then k.pj else 0);
    } else if running.kind.SummaryJob? {
      var k := match waiting case ElementsJob => Elements case PovsJob => Pov(0) case _ => Narrative;
      CreatedIsLost(t, j, n, k, 0);
    } else {
      SummaryDeletes(t, j, n, Target(running));
    }
  }

  /** A first job that still waits can be brought to run, and then the two meet. */
  lemma WaitingMeets(t: Sys, j: JobId, n: JobId)
    requires Waiting(t, j) && IsArtifactJob(t.jobs[j].kind) && (t.jobs[j].kind.SummaryJob? ==> t.row.mode.NonDiarised?)
    requires Waiting(t, n) && n != j && IsArtifactJob(t.jobs[n].kind) && t.row.currentJob == Some(n)
    requires t.row.state.Transcribed? && (t.jobs[n].kind.SummaryJob? ==> t.row.mode.NonDiarised?)
    requires !Apart(t.jobs[j].kind, t.jobs[n].kind)
    ensures !KeepsEdits(t)
  {
    var u := Prepared(t, j, 0);
    MeetingIsLost(u, j, n);
  }

  lemma IncompatibleLoses(s: Sys, j: JobId, kind: JobKind)
    requires Accepted(s, j, kind) && !Compatible(s, j, kind)
    ensures !KeepsEdits(Enqueue(s, kind))
  {
    AcceptedEnqueues(s, j, kind);
    var t, n := Enqueue(s, kind), s.nextJob;
    assert JobFits(s.row, s.jobs[j]);
    assert j != n && t.jobs[j] == s.jobs[j] && Waiting(t, n);
    if !Apart(s.jobs[j].kind, kind) {
      if Running(t, j) { MeetingIsLost(t, j, n); } else { WaitingMeets(t, j, n); }
    } else {
      var k :| k in s.row.artifacts && MayWrite(s, j, k);
      assert MayWrite(t, j, k);
      if Waiting(t, j) {
        WaitingIsLost(t, j, n, k);
      } else if Hits(s.jobs[j], k) {
        ExistingIsLost(t, j, n, k);
      } else {
        RetryIsLost(t, j, n, k.pj);
      }
    }
  }

  /**
   * Main theorem: a regeneration accepted beside a live job, queued, scheduled or running, costs
   * no edit in any later run if and only if the two jobs never write the same artefact, neither
   * is a summary job, and no artefact exists that the first job may write, on a retry included.
   */
  lemma SecondJobKeepsEditsIff(s: Sys, j: JobId, kind: JobKind)
    requires Accepted(s, j, kind)
    ensures KeepsEdits(Next(s, DoPost(kind, false))) <==> Compatible(s, j, kind)
  {
    AcceptedEnqueues(s, j, kind);
    if Compatible(s, j, kind) {
      CompatibleSettles(s, j, kind);
      SettledKeeps(Enqueue(s, kind));
    } else {
      IncompatibleLoses(s, j, kind);
    }
  }

  /**
   * What the running job holds is not all that counts: the POV of a PJ it has not read is in
   * danger too, because a retry reads the players again.
   */
  lemma CapturedWorkIsNotEnough(s: Sys, j: JobId, kind: JobKind, p: PjId)
    requires Accepted(s, j, kind) && Apart(s.jobs[j].kind, kind) && s.row.mode.NonDiarised?
    requires Running(s, j) && s.jobs[j].kind.PovsJob? && s.jobs[j].retriesLeft > 0
    requires Pov(p) in s.row.artifacts && forall k | k in s.row.artifacts :: !Hits(s.jobs[j], k)
    ensures !KeepsEdits(Next(s, DoPost(kind, false)))
  {
    assert MayWrite(s, j, Pov(p));
    SecondJobKeepsEditsIff(s, j, kind);
  }
}
