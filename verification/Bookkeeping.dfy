/** What every run keeps about job ids and the work of running jobs, and what worker steps leave alone. */
module Bookkeeping {
  import opened Wrappers
  import opened SessionModel

  /** A running job holds the kind of work its kind of load produces. */
  predicate WorkFits(job: Job) {
    match job.kind
    case TranscriptionJob => job.work.Transcribe?
    case NarrativeJob => job.work.FromSource?
    case ElementsJob => job.work.FromSource?
    case PovsJob => job.work.PovsFrom? && job.work.pjs != []
    case SummaryJob => job.work.Summarise?
  }

  /** A job holds work only while it runs, and a summary job is only queued for a session without speakers. */
  predicate JobFits(row: Session, job: Job) {
    && (if job.status.Started? then WorkFits(job) else job.work.Nothing?)
    && (job.kind.SummaryJob? ==> row.mode.NonDiarised?)
  }

  /** Job ids are fresh, jobs fit their session, and no job exists before the upload. */
  ghost predicate Booked(s: Sys) {
    && (forall j | j in s.jobs :: j < s.nextJob && s.row.audio.Some? && JobFits(s.row, s.jobs[j]))
    && (s.row.currentJob.Some? ==> s.row.currentJob.value < s.nextJob)
    && (!s.row.state.Created? ==> s.row.audio.Some?)
  }

  predicate IsWorkerStep(step: Step) {
    step.DoBegin? || step.DoCommit? || step.DoFail? || step.DoLose?
  }

  /** A worker step leaves tracking alone and never starts, revives or changes another job. */
  lemma WorkerFrame(s: Sys, step: Step)
    requires IsWorkerStep(step)
    ensures var s' := Next(s, step);
            && s'.row.currentJob == s.row.currentJob && s'.row.audio == s.row.audio && s'.nextJob == s.nextJob
            && s'.row.mode == s.row.mode
            && (s'.row.state != s.row.state ==> step.job in s.jobs)
            && (forall i | i in s'.jobs ::
                  && i in s.jobs && s'.jobs[i].kind == s.jobs[i].kind
                  && (Active(s'.jobs[i].status) ==> Active(s.jobs[i].status))
                  && (i != step.job ==> s'.jobs[i] == s.jobs[i]))
  {}

  /** What the operations that queue nothing leave as it is, and what those that queue a transcription start from. */
  lemma HttpFrame(s: Sys, step: Step)
    ensures step.DoUpload? && Upload(s).Success? ==>
              var t := Next(s, step);
              && t.row == s.row.(audio := Some(Audio(false)), state := AudioUploaded, currentJob := Some(s.nextJob))
              && t.jobs == s.jobs[s.nextJob := Job(TranscriptionJob, Queued, 3, Nothing)]
    ensures step.DoPurge? && Purge(s).Success? ==>
              var t := Next(s, step);
              && t.jobs == s.jobs && t.row.mode == s.row.mode && t.row.mapping == s.row.mapping && t.row.players == s.row.players
              && t.row.chunks == [] && t.row.transcription.None? && t.row.edited.None? && t.row.artifacts == map[]
              && t.row.currentJob.None? && t.row.state.Created? && (s.row.audio.Some? ==> t.row.audio == Some(Audio(true)))
    ensures step.DoRecover? && Recover(s).Success? ==> Next(s, step) == s.(row := s.row.(state := TranscriptionFailed))
    ensures step.DoSaveEdit? ==> Next(s, step) == s.(row := s.row.(edited := Next(s, step).row.edited))
    ensures step.DoSetMapping? || step.DoSetPlayers? || step.DoEditArtifact? ==>
              var t := Next(s, step);
              t == s.(row := s.row.(mapping := t.row.mapping, players := t.row.players, artifacts := t.row.artifacts))
    ensures step.DoSetMapping? && SetMapping(s, step.mapping).Success? ==> Next(s, step).row.mapping == step.mapping
  {}

  lemma WorkerKeepsBooked(s: Sys, step: Step)
    requires Booked(s) && IsWorkerStep(step)
    ensures Booked(Next(s, step))
  {
    WorkerFrame(s, step);
    var s' := Next(s, step);
    forall j | j in s'.jobs ensures JobFits(s'.row, s'.jobs[j]) {
      assert j in s.jobs && JobFits(s.row, s.jobs[j]);
    }
  }

  lemma StepKeepsBooked(s: Sys, step: Step)
    requires Booked(s)
    ensures Booked(Next(s, step))
  {
    if IsWorkerStep(step) {
      WorkerKeepsBooked(s, step);
    }
  }

  /** Some reply with which a running artefact job commits. */
  function ReplyTo(work: Work): Reply {
    match work
    case PovsFrom(_, pjs) => Texts(seq(|pjs|, _ => "x"))
    case Summarise(data) => Summaries(seq(|data|, _ => "x"), "x")
    case _ => Text("x")
  }
}
