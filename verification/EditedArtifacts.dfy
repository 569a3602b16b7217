/**
 * Manual edits are never lost to a job: the regeneration guard of the POST routes, the busy
 * guard of the edit routes and the commits of the workers, over every interleaving.
 */
module EditedArtifacts {
  import opened Wrappers
  import opened SessionModel
  import opened Bookkeeping
  import PyText

  predicate LiveArtifactJob(s: Sys, j: JobId) {
    Live(s, j) && IsArtifactJob(s.jobs[j].kind)
  }

  /** No forced regeneration, and a regeneration is only asked for while no artefact job is in flight. */
  predicate OneUnforcedJob(s: Sys, step: Step) {
    step.DoPost? ==> !step.force && forall j | j in s.jobs :: !LiveArtifactJob(s, j)
  }

  predicate Edited(s: Sys, k: Kind) {
    k in s.row.artifacts && s.row.artifacts[k].isEdited
  }

  /** No artefact that job `j` may write is edited. */
  ghost predicate Harmless(s: Sys, j: JobId)
    requires j in s.jobs
  {
    forall k | Edited(s, k) :: !Guarded(s.jobs[j].kind, k)
  }

  /** The PJ is, or may still become, one the POV job finds when it reads the session again. */
  predicate MayBeCast(row: Session, p: PjId) {
    row.mode.NonDiarised? || exists i | 0 <= i < |row.mapping| :: row.mapping[i].1 == p
  }

  /** The job waits to read the session, or has retries with which to read it again. */
  predicate MayReload(job: Job) {
    !job.status.Started? || job.retriesLeft > 0
  }

  /** Job `j` may write or delete artefact `k`: with the work it holds, or after a retry with the work it then reads. */
  predicate MayWrite(s: Sys, j: JobId, k: Kind)
    requires j in s.jobs
  {
    var job := s.jobs[j];
    match job.kind
    case TranscriptionJob => false
    case NarrativeJob => k.Narrative?
    case ElementsJob => k.Elements?
    case SummaryJob => true
    case PovsJob =>
      k.Pov? && ((job.work.PovsFrom? && k.pj in job.work.pjs) || (MayReload(job) && MayBeCast(s.row, k.pj)))
  }

  /** There is no artefact that job `j` may write or delete. */
  ghost predicate Idle(s: Sys, j: JobId)
    requires j in s.jobs
  {
    forall k | k in s.row.artifacts :: !MayWrite(s, j, k)
  }

  /** The session tracks the job, and no artefact it guards is edited; or there is nothing for it to overwrite. */
  ghost predicate Held(s: Sys, j: JobId)
    requires j in s.jobs
  {
    (s.row.currentJob == Some(j) && Harmless(s, j)) || Idle(s, j)
  }

  /** The two jobs never write the same artefact. */
  predicate Apart(a: JobKind, b: JobKind) {
    a != b && !a.SummaryJob? && !b.SummaryJob?
  }

  /** Every live artefact job is held, and no two of them can meet. */
  ghost predicate Watched(s: Sys) {
    && (forall j: JobId | LiveArtifactJob(s, j) :: Held(s, j))
    && (forall i: JobId, j: JobId | LiveArtifactJob(s, i) && LiveArtifactJob(s, j) && i != j :: Apart(s.jobs[i].kind, s.jobs[j].kind))
  }

  /** At most one artefact job is in flight. */
  ghost predicate OneLive(s: Sys) {
    forall i: JobId, j: JobId | LiveArtifactJob(s, i) && LiveArtifactJob(s, j) :: i == j
  }

  ghost predicate Settled(s: Sys) {
    Booked(s) && Watched(s)
  }

  ghost predicate Protected(s: Sys) {
    Settled(s) && OneLive(s)
  }

  // ----- What a commit writes -----------------------------------------------------------

  predicate Unchanged(before: map<Kind, Artifact>, after: map<Kind, Artifact>, k: Kind) {
    (k in after <==> k in before) && (k in after ==> after[k] == before[k])
  }

  /** A POV job leaves everything but the POVs of its PJs alone. */
  lemma {:induction false} PovsTouchOnlyPovs(
    artifacts: map<Kind, Artifact>, pjs: seq<PjId>, texts: seq<string>, model: string, k: Kind)
    requires |pjs| == |texts| && (k.Pov? ==> k.pj !in pjs)
    ensures Unchanged(artifacts, PovsUpserted(artifacts, pjs, texts, model), k)
    decreases pjs
  {
    if pjs != [] {
      var n := |pjs| - 1;
      PovsTouchOnlyPovs(artifacts, pjs[..n], texts[..n], model, k);
    }
  }

  /** What a commit writes or deletes, the job could write. */
  lemma CommitWritesWithin(s: Sys, j: JobId, reply: Reply, model: string, k: Kind)
    requires Running(s, j) && WorkFits(s.jobs[j]) && !MayWrite(s, j, k)
    ensures Unchanged(s.row.artifacts, Next(s, DoCommit(j, reply, model)).row.artifacts, k)
  {
    var work := s.jobs[j].work;
    if work.PovsFrom? && Answers(work, reply) {
      PovsTouchOnlyPovs(s.row.artifacts, work.pjs, reply.texts, model, k);
    }
  }

  /** And that lies inside what the guard of its POST route looks at. */
  lemma WritesInsideGuard(s: Sys, j: JobId, reply: Reply, model: string, k: Kind)
    requires Running(s, j) && WorkFits(s.jobs[j]) && !Guarded(s.jobs[j].kind, k)
    ensures var after := Next(s, DoCommit(j, reply, model)).row.artifacts;
            (k in after <==> k in s.row.artifacts) && (k in after ==> after[k] == s.row.artifacts[k])
  {
    CommitWritesWithin(s, j, reply, model, k);
  }

  /** Everything a commit writes is freshly generated, never hand-edited. */
  lemma {:induction false} PovsAreFresh(
    artifacts: map<Kind, Artifact>, pjs: seq<PjId>, texts: seq<string>, model: string, k: Kind)
    requires |pjs| == |texts|
    ensures var after := PovsUpserted(artifacts, pjs, texts, model);
            k in after && after[k].isEdited ==> k in artifacts && after[k] == artifacts[k]
    decreases pjs
  {
    if pjs != [] {
      var n := |pjs| - 1;
      PovsAreFresh(artifacts, pjs[..n], texts[..n], model, k);
    }
  }

  /** Every PJ of the job has a POV afterwards, and none of them is an edited one. */
  lemma {:induction false} PovsWriteUnedited(
    artifacts: map<Kind, Artifact>, pjs: seq<PjId>, texts: seq<string>, model: string, p: PjId)
    requires |pjs| == |texts| && p in pjs
    ensures var after := PovsUpserted(artifacts, pjs, texts, model);
            Pov(p) in after && !after[Pov(p)].isEdited
    decreases pjs
  {
    var n := |pjs| - 1;
    assert pjs == pjs[..n] + [pjs[n]];
    if p != pjs[n] { PovsWriteUnedited(artifacts, pjs[..n], texts[..n], model, p); }
  }

  /** Every PJ gets the text made for it; of several made for one PJ the last. */
  lemma {:induction false} PovsWriteLast(
    artifacts: map<Kind, Artifact>, pjs: seq<PjId>, texts: seq<string>, model: string, k: nat)
    requires |pjs| == |texts| && k < |pjs| && forall i | k < i < |pjs| :: pjs[i] != pjs[k]
    ensures var after := PovsUpserted(artifacts, pjs, texts, model);
            Pov(pjs[k]) in after && after[Pov(pjs[k])] == Artifact(texts[k], model, false, None)
    decreases pjs
  {
    var n := |pjs| - 1;
    if k < n { PovsWriteLast(artifacts, pjs[..n], texts[..n], model, k); }
  }

  lemma CommitEditsNothing(s: Sys, j: JobId, reply: Reply, model: string, k: Kind)
    requires Edited(Next(s, DoCommit(j, reply, model)), k)
    ensures Edited(s, k) && s.row.artifacts[k] == Next(s, DoCommit(j, reply, model)).row.artifacts[k]
  {
    if Running(s, j) && Answers(s.jobs[j].work, reply) && s.jobs[j].work.PovsFrom? {
      PovsAreFresh(s.row.artifacts, s.jobs[j].work.pjs, reply.texts, model, k);
    }
  }

  // ----- The invariant over runs --------------------------------------------------------

  /** Operations that queue a transcription or delete artefacts leave nothing to overwrite. */
  lemma EmptyingKeepsSettled(s: Sys, step: Step)
    requires Settled(s) && (step.DoUpload? || step.DoRestart? || step.DoPurge?)
    ensures Settled(Next(s, step))
  {
    StepKeepsBooked(s, step);
    var s' := Next(s, step);
    if s' != s {
      forall j: JobId | LiveArtifactJob(s', j) ensures LiveArtifactJob(s, j) && s'.jobs[j] == s.jobs[j] {
        assert j in s'.jobs;
      }
    }
  }

  /** The other operations but edits and regenerations leave the jobs alone and add no artefact. */
  lemma HttpKeepsSettled(s: Sys, step: Step)
    requires Settled(s)
    requires step.DoRecover? || step.DoSaveEdit? || step.DoSetMapping? || step.DoSetPlayers?
    ensures Settled(Next(s, step))
  {
    StepKeepsBooked(s, step);
    var s' := Next(s, step);
    assert s'.jobs == s.jobs && s'.row.currentJob == s.row.currentJob && s'.row.mode == s.row.mode;
    assert forall k | Edited(s', k) :: Edited(s, k);
    forall j: JobId | LiveArtifactJob(s', j) ensures Held(s', j) {
      assert LiveArtifactJob(s, j);
      forall k | k in s'.row.artifacts ensures MayWrite(s', j, k) ==> MayWrite(s, j, k) && k in s.row.artifacts {}
    }
  }

  /** An accepted edit finds no live artefact job that could overwrite anything. */
  lemma EditLeavesJobsIdle(s: Sys, step: Step)
    requires Settled(s) && step.DoEditArtifact?
    ensures Settled(Next(s, step))
    ensures Apply(s, step).Success? ==> forall j: JobId | LiveArtifactJob(Next(s, step), j) :: Idle(Next(s, step), j)
  {
    StepKeepsBooked(s, step);
    var s' := Next(s, step);
    if Apply(s, step).Success? {
      assert step.kind in s.row.artifacts && !Busy(s);
      assert s'.row.artifacts.Keys == s.row.artifacts.Keys;
      forall j: JobId | LiveArtifactJob(s', j) ensures Idle(s', j) {
        assert LiveArtifactJob(s, j) && Held(s, j);
        forall k | k in s'.row.artifacts ensures !MayWrite(s', j, k) {
          assert k in s.row.artifacts && !MayWrite(s, j, k);
        }
      }
    }
  }

  /** An accepted regeneration is the only live artefact job, and no artefact it guards is edited. */
  lemma PostIsHarmless(s: Sys, step: Step)
    requires Settled(s) && OneUnforcedJob(s, step) && step.DoPost?
    ensures Settled(Next(s, step))
    ensures Apply(s, step).Success? ==>
              var s', n := Next(s, step), s.nextJob;
              && s'.row.currentJob == Some(n) && LiveArtifactJob(s', n) && Harmless(s', n)
              && forall i: JobId | LiveArtifactJob(s', i) :: i == n
  {
    StepKeepsBooked(s, step);
    var s' := Next(s, step);
    if Apply(s, step).Success? {
      forall i: JobId | LiveArtifactJob(s', i) ensures i == s.nextJob {
        assert i != s.nextJob ==> LiveArtifactJob(s, i);
      }
      forall k | Edited(s', k) ensures !Guarded(step.jobKind, k) {
        assert k in s.row.artifacts && s.row.artifacts[k].isEdited;
      }
    }
  }

  /** Only a commit writes artefacts, and the job that does is then over. */
  lemma WorkerWrites(s: Sys, step: Step)
    requires Booked(s) && IsWorkerStep(step) && Next(s, step).row.artifacts != s.row.artifacts
    ensures LiveArtifactJob(s, step.job) && !LiveArtifactJob(Next(s, step), step.job)
    ensures step.DoCommit?
  {}

  /** No phase of a job widens what a job may write. */
  lemma PhasesNarrow(s: Sys, step: Step, j: JobId, k: Kind)
    requires Booked(s) && IsWorkerStep(step) && LiveArtifactJob(Next(s, step), j)
    ensures LiveArtifactJob(s, j) && Next(s, step).jobs[j].kind == s.jobs[j].kind
    ensures MayWrite(Next(s, step), j, k) ==> MayWrite(s, j, k)
  {
    WorkerFrame(s, step);
    if step == DoBegin(j) && Waiting(s, j) && s.jobs[j].kind.PovsJob? && k.Pov? { ReloadFindsCast(s, j, k.pj); }
  }

  lemma ReloadFindsCast(s: Sys, j: JobId, p: PjId)
    requires Waiting(s, j) && s.jobs[j].kind.PovsJob?
    ensures var work := Next(s, DoBegin(j)).jobs[j].work;
            work.PovsFrom? && p in work.pjs ==> MayBeCast(s.row, p)
  {}

  /** A commit adds nothing that another live job, apart from it, may write. */
  lemma CommitKeepsIdle(s: Sys, step: Step, j: JobId)
    requires Settled(s) && step.DoCommit? && LiveArtifactJob(s, step.job) && Running(s, step.job)
    requires LiveArtifactJob(Next(s, step), j) && j != step.job && LiveArtifactJob(s, j) && Idle(s, j)
    ensures Idle(Next(s, step), j)
  {
    var s' := Next(s, step);
    assert Apart(s.jobs[step.job].kind, s.jobs[j].kind);
    forall k | k in s'.row.artifacts ensures !MayWrite(s', j, k) {
      PhasesNarrow(s, step, j, k);
      if MayWrite(s, j, k) {
        assert !MayWrite(s, step.job, k);
        CommitWritesWithin(s, step.job, step.reply, step.model, k);
      }
    }
  }

  lemma WorkerEditsNothing(s: Sys, step: Step, k: Kind)
    requires IsWorkerStep(step) && Edited(Next(s, step), k)
    ensures Edited(s, k) && s.row.artifacts[k] == Next(s, step).row.artifacts[k]
  {
    if step.DoCommit? {
      CommitEditsNothing(s, step.job, step.reply, step.model, k);
    } else {
      assert Next(s, step).row.artifacts == s.row.artifacts;
    }
  }

  lemma WorkerKeepsIdle(s: Sys, step: Step, j: JobId)
    requires Settled(s) && IsWorkerStep(step) && LiveArtifactJob(Next(s, step), j)
    requires LiveArtifactJob(s, j) && Idle(s, j)
    ensures Idle(Next(s, step), j)
  {
    var s' := Next(s, step);
    if s'.row.artifacts != s.row.artifacts {
      WorkerWrites(s, step);
      CommitKeepsIdle(s, step, j);
    } else {
      forall k | k in s'.row.artifacts ensures !MayWrite(s', j, k) { PhasesNarrow(s, step, j, k); }
    }
  }

  lemma WorkerKeepsHeld(s: Sys, step: Step, j: JobId)
    requires Settled(s) && IsWorkerStep(step) && LiveArtifactJob(Next(s, step), j)
    ensures LiveArtifactJob(s, j) && Held(Next(s, step), j)
  {
    WorkerFrame(s, step);
    assert LiveArtifactJob(s, j) && Held(s, j);
    if Idle(s, j) {
      WorkerKeepsIdle(s, step, j);
    } else {
      assert Harmless(s, j) && Next(s, step).row.currentJob == Some(j);
      forall k | Edited(Next(s, step), k) ensures Edited(s, k) { WorkerEditsNothing(s, step, k); }
    }
  }

  lemma WorkerKeepsWatched(s: Sys, step: Step)
    requires Settled(s) && IsWorkerStep(step)
    ensures Watched(Next(s, step))
  {
    WorkerFrame(s, step);
    var s' := Next(s, step);
    forall j: JobId | LiveArtifactJob(s', j) ensures LiveArtifactJob(s, j) && Held(s', j) {
      WorkerKeepsHeld(s, step, j);
    }
  }

  lemma StepKeepsSettled(s: Sys, step: Step)
    requires Settled(s) && OneUnforcedJob(s, step)
    ensures Settled(Next(s, step))
  {
    if IsWorkerStep(step) {
      WorkerKeepsBooked(s, step);
      WorkerKeepsWatched(s, step);
    } else if step.DoEditArtifact? {
      EditLeavesJobsIdle(s, step);
    } else if step.DoPost? {
      PostIsHarmless(s, step);
    } else if step.DoUpload? || step.DoRestart? || step.DoPurge? {
      EmptyingKeepsSettled(s, step);
    } else {
      HttpKeepsSettled(s, step);
    }
  }

  lemma StepKeepsOneLive(s: Sys, step: Step)
    requires Booked(s) && OneLive(s) && OneUnforcedJob(s, step)
    ensures OneLive(Next(s, step))
  {
    if IsWorkerStep(step) { WorkerFrame(s, step); }
    var s' := Next(s, step);
    forall i: JobId | LiveArtifactJob(s', i)
      ensures LiveArtifactJob(s, i) || (step.DoPost? && i == s.nextJob && forall j | j in s.jobs :: !LiveArtifactJob(s, j))
    {
      assert i in s'.jobs;
    }
  }

  lemma {:induction false} RunKeepsSettled(s: Sys, steps: seq<Step>)
    requires Settled(s) && Obeys(s, steps, OneUnforcedJob)
    ensures Settled(Run(s, steps))
    decreases steps
  {
    if steps != [] {
      StepKeepsSettled(s, steps[0]);
      RunKeepsSettled(Next(s, steps[0]), steps[1..]);
    }
  }

  lemma {:induction false} RunKeepsProtected(s: Sys, steps: seq<Step>)
    requires Protected(s) && Obeys(s, steps, OneUnforcedJob)
    ensures Protected(Run(s, steps))
    decreases steps
  {
    if steps != [] {
      StepKeepsSettled(s, steps[0]);
      StepKeepsOneLive(s, steps[0]);
      RunKeepsProtected(Next(s, steps[0]), steps[1..]);
    }
  }

  /** The requests by which a user discards or replaces the edit of artefact `k`. */
  predicate DiscardsOnPurpose(step: Step, k: Kind) {
    step.DoPurge? || step.DoRestart? || (step.DoSetMapping? && k.Pov?) || (step.DoEditArtifact? && step.kind == k)
  }

  /** In such a state no step but a user's loses an edited artefact. */
  lemma SettledKeepsEdits(s: Sys, step: Step, k: Kind)
    requires Settled(s) && Edited(s, k) && !DiscardsOnPurpose(step, k)
    ensures k in Next(s, step).row.artifacts && Next(s, step).row.artifacts[k] == s.row.artifacts[k]
  {
    if step.DoCommit? && Running(s, step.job) {
      if IsArtifactJob(s.jobs[step.job].kind) {
        assert LiveArtifactJob(s, step.job) && Held(s, step.job);
        if MayWrite(s, step.job, k) {
          assert Harmless(s, step.job) && !Guarded(s.jobs[step.job].kind, k);
          WritesInsideGuard(s, step.job, step.reply, step.model, k);
        } else {
          CommitWritesWithin(s, step.job, step.reply, step.model, k);
        }
      } else {
        WritesInsideGuard(s, step.job, step.reply, step.model, k);
      }
    }
  }

  /**
   * Main theorem: in every run of unforced regenerations with at most one artefact job in
   * flight, whatever else happens in between, no job overwrites or deletes an edited
   * artefact; it stays as it is until a user asks for it to go.
   */
  lemma EditsSurviveJobs(mode: Mode, chunkMax: Limit, steps: seq<Step>, step: Step, k: Kind)
    requires Obeys(Init(mode, chunkMax), steps, OneUnforcedJob)
    requires Edited(Run(Init(mode, chunkMax), steps), k) && !DiscardsOnPurpose(step, k)
    ensures var s := Run(Init(mode, chunkMax), steps);
            k in Next(s, step).row.artifacts && Next(s, step).row.artifacts[k] == s.row.artifacts[k]
  {
    RunKeepsProtected(Init(mode, chunkMax), steps);
    SettledKeepsEdits(Run(Init(mode, chunkMax), steps), step, k);
  }

  /** An accepted edit is stored with its author, keeps the model on record, and changes no other artefact. */
  lemma EditIsStored(s: Sys, kind: Kind, content: string, editor: string, confirmEmpty: bool)
    requires SessionModel.EditArtifact(s, kind, content, editor, confirmEmpty).Success?
    ensures var before := s.row.artifacts; var after := Next(s, DoEditArtifact(kind, content, editor, confirmEmpty)).row.artifacts;
            && kind in before && after.Keys == before.Keys
            && after[kind] == Artifact(content, before[kind].modelUsed, true, Some(editor))
            && forall k | k in before && k != kind :: after[k] == before[k]
  {}

  /** A new mapping invalidates every POV and nothing else; a new list of players keeps them all. */
  lemma NewCastAndPovs(s: Sys, mapping: seq<(string, PjId)>, players: seq<PjId>)
    ensures SetMapping(s, mapping).Success? ==>
              var after := Next(s, DoSetMapping(mapping)).row.artifacts;
              forall k :: (k in after <==> k in s.row.artifacts && !k.Pov?) && (k in after ==> after[k] == s.row.artifacts[k])
    ensures Next(s, DoSetPlayers(players)).row.artifacts == s.row.artifacts
  {}

  /** What a narrative or elements job commits is the text of the model, as a generated artefact, and nothing else. */
  lemma TextIsStored(s: Sys, j: JobId, text: string, model: string)
    requires Booked(s) && Running(s, j) && (s.jobs[j].kind.NarrativeJob? || s.jobs[j].kind.ElementsJob?)
    ensures var t := Next(s, DoCommit(j, Text(text), model)); var k := if s.jobs[j].kind.NarrativeJob? then Narrative else Elements;
            && t.row == s.row.(artifacts := s.row.artifacts[k := Artifact(text, model, false, None)])
            && t.jobs[j].status.Finished?
  {}

  /** What a POV job commits is the last text made for each PJ it has read, and nothing else. */
  lemma PovsAreStored(s: Sys, j: JobId, texts: seq<string>, model: string, i: nat)
    requires Booked(s) && Running(s, j) && s.jobs[j].kind.PovsJob? && |texts| == |s.jobs[j].work.pjs| && i < |texts|
    requires var pjs := s.jobs[j].work.pjs; forall m | i < m < |pjs| :: pjs[m] != pjs[i]
    ensures var t := Next(s, DoCommit(j, Texts(texts), model)); var pjs := s.jobs[j].work.pjs;
            && t.row == s.row.(artifacts := t.row.artifacts)
            && Pov(pjs[i]) in t.row.artifacts && t.row.artifacts[Pov(pjs[i])] == Artifact(texts[i], model, false, None)
            && (forall k: Kind | !(k.Pov? && k.pj in pjs) :: Unchanged(s.row.artifacts, t.row.artifacts, k))
  {
    var pjs := s.jobs[j].work.pjs;
    PovsWriteLast(s.row.artifacts, pjs, texts, model, i);
    forall k: Kind | !(k.Pov? && k.pj in pjs)
      ensures Unchanged(s.row.artifacts, PovsUpserted(s.row.artifacts, pjs, texts, model), k)
    {
      PovsTouchOnlyPovs(s.row.artifacts, pjs, texts, model, k);
    }
  }

  // ----- Edits are never blank ----------------------------------------------------------

  /** An edited text is not blank, and an edited elements card is empty only if somebody confirmed that. */
  predicate Filled(k: Kind, content: string, cleared: bool) {
    if k.Elements? then cleared || content != "" else !PyText.Blank(content)
  }

  ghost predicate AllFilled(s: Sys, cleared: bool) {
    forall k | Edited(s, k) :: Filled(k, s.row.artifacts[k].content, cleared)
  }

  /** The request by which a user empties a card. */
  predicate Confirms(step: Step) {
    step.DoEditArtifact? && step.confirmEmpty
  }

  lemma StepKeepsFilled(s: Sys, step: Step, cleared: bool)
    requires AllFilled(s, cleared) && (Confirms(step) ==> cleared)
    ensures AllFilled(Next(s, step), cleared)
  {
    forall k | Edited(Next(s, step), k) ensures Filled(k, Next(s, step).row.artifacts[k].content, cleared) {
      if IsWorkerStep(step) { WorkerEditsNothing(s, step, k); }
      if k in s.row.artifacts && s.row.artifacts[k] == Next(s, step).row.artifacts[k] { assert Edited(s, k); }
    }
  }

  lemma {:induction false} RunKeepsFilled(s: Sys, steps: seq<Step>, cleared: bool)
    requires AllFilled(s, cleared) && (cleared || forall i | 0 <= i < |steps| :: !Confirms(steps[i]))
    ensures AllFilled(Run(s, steps), cleared)
    decreases steps
  {
    if steps != [] {
      StepKeepsFilled(s, steps[0], cleared);
      RunKeepsFilled(Next(s, steps[0]), steps[1..], cleared);
    }
  }

  /** In every run whatsoever no edit leaves a blank text, and no edited card is empty unless somebody confirmed that. */
  lemma EditsAreFilled(mode: Mode, chunkMax: Limit, steps: seq<Step>, k: Kind)
    requires Edited(Run(Init(mode, chunkMax), steps), k)
    ensures var content := Run(Init(mode, chunkMax), steps).row.artifacts[k].content;
            && (!k.Elements? ==> !PyText.Blank(content))
            && (k.Elements? && content == "" ==> exists i | 0 <= i < |steps| :: Confirms(steps[i]))
  {
    RunKeepsFilled(Init(mode, chunkMax), steps, exists i | 0 <= i < |steps| :: Confirms(steps[i]));
  }

  // ----- The guard is exact -------------------------------------------------------------

  /** Job `j` is of this kind, and with this reply its commit changes or deletes artefact `k`. */
  ghost predicate Changes(s: Sys, j: JobId, reply: Reply, kind: JobKind, k: Kind) {
    && Running(s, j) && s.jobs[j].kind == kind && WorkFits(s.jobs[j])
    && !Unchanged(s.row.artifacts, Next(s, DoCommit(j, reply, "m")).row.artifacts, k)
  }

  /** A session with the artefact, and a job of this kind that waits for its model. */
  function Scene(kind: JobKind, k: Kind): Sys {
    var source := EditedText("x");
    var work := match kind
      case PovsJob => PovsFrom(source, [if k.Pov? then k.pj else 0])
      case SummaryJob => Summarise([])
      case _ => FromSource(source);
    Init(NonDiarised, 1).(
      row := Init(NonDiarised, 1).row.(state := Transcribed, artifacts := map[k := Artifact("mine", "m", true, Some("gm"))]),
      jobs := map[0 := Job(kind, Started, 0, work)])
  }

  lemma SceneChanges(kind: JobKind, k: Kind)
    requires Guarded(kind, k)
    ensures Changes(Scene(kind, k), 0, ReplyTo(Scene(kind, k).jobs[0].work), kind, k)
  {
    var s := Scene(kind, k);
    if kind.PovsJob? {
      PovsWriteUnedited(s.row.artifacts, s.jobs[0].work.pjs, ReplyTo(s.jobs[0].work).texts, "m", k.pj);
    }
  }

  /** A route guards exactly the kinds that some job of it can change: no edit is unguarded, and none is in the way for nothing. */
  lemma GuardIsExact(kind: JobKind, k: Kind)
    ensures Guarded(kind, k) <==> exists s, j: JobId, reply :: Changes(s, j, reply, kind, k)
  {
    if Guarded(kind, k) {
      SceneChanges(kind, k);
    } else {
      forall s, j: JobId, reply ensures !Changes(s, j, reply, kind, k) {
        if Running(s, j) && s.jobs[j].kind == kind && WorkFits(s.jobs[j]) { WritesInsideGuard(s, j, reply, "m", k); }
      }
    }
  }

  // ----- Why one job at a time ----------------------------------------------------------

  /**
   * While a regeneration of the narrative waits for its model, a second regeneration is
   * accepted. Once that one is over the session is not busy any more, an edit of the
   * narrative goes through, and the first job overwrites it.
   */
  lemma {:induction false} SecondJobLosesEdit(s: Sys, j: JobId)
    requires Booked(s) && Running(s, j) && s.jobs[j].kind.NarrativeJob?
    requires Narrative in s.row.artifacts && forall k | k in s.row.artifacts :: !Edited(s, k)
    requires LoadSource(s.row).Success? && PostRefusal(s.row, ElementsJob).None?
    ensures var n := s.nextJob;
            var s1 := Run(s, [DoPost(ElementsJob, false), DoBegin(n), DoCommit(n, Text("e"), "m")]);
            var s2 := Next(s1, DoEditArtifact(Narrative, "mine", "gm", false));
            var s3 := Next(s2, DoCommit(j, Text("ai"), "m"));
            && Edited(s2, Narrative) && s2.row.artifacts[Narrative].content == "mine"
            && !Edited(s3, Narrative) && s3.row.artifacts[Narrative].content == "ai"
  {
    var n := s.nextJob;
    RunThree(s, DoPost(ElementsJob, false), DoBegin(n), DoCommit(n, Text("e"), "m"));
    SecondJobEnds(s, j);
    ThenEditAndCommit(Run(s, [DoPost(ElementsJob, false), DoBegin(n), DoCommit(n, Text("e"), "m")]), j);
  }

  lemma Posted(s: Sys, kind: JobKind)
    requires IsArtifactJob(kind) && PostRefusal(s.row, kind).None? && forall k | k in s.row.artifacts :: !Edited(s, k)
    ensures Next(s, DoPost(kind, false)) == Enqueue(s, kind)
  {}

  lemma LoadIgnoresJobs(row: Session, tracked: Option<JobId>, kind: JobKind, chunkMax: Limit)
    ensures LoadWork(row.(currentJob := tracked), kind, chunkMax) == LoadWork(row, kind, chunkMax)
  {}

  lemma Begun(s: Sys, j: JobId)
    requires Waiting(s, j) && IsArtifactJob(s.jobs[j].kind) && LoadWork(s.row, s.jobs[j].kind, s.chunkMax).Success?
    ensures Next(s, DoBegin(j))
         == s.(jobs := s.jobs[j := s.jobs[j].(status := Started, work := LoadWork(s.row, s.jobs[j].kind, s.chunkMax).value)])
  {}

  /** A regeneration that is accepted and picked up by a worker at once. */
  lemma PostedAndBegun(s: Sys, kind: JobKind)
    requires IsArtifactJob(kind) && PostRefusal(s.row, kind).None?
    requires LoadWork(s.row, kind, s.chunkMax).Success? && forall k | k in s.row.artifacts :: !Edited(s, k)
    ensures Next(Next(s, DoPost(kind, false)), DoBegin(s.nextJob))
         == s.(row := s.row.(currentJob := Some(s.nextJob)), nextJob := s.nextJob + 1,
               jobs := s.jobs[s.nextJob := Job(kind, Started, RETRIES, LoadWork(s.row, kind, s.chunkMax).value)])
  {
    Posted(s, kind);
    LoadIgnoresJobs(s.row, Some(s.nextJob), kind, s.chunkMax);
    Begun(Enqueue(s, kind), s.nextJob);
  }

  lemma SecondJobEnds(s: Sys, j: JobId)
    requires Booked(s) && Running(s, j) && s.jobs[j].kind.NarrativeJob?
    requires Narrative in s.row.artifacts && forall k | k in s.row.artifacts :: !Edited(s, k)
    requires LoadSource(s.row).Success? && PostRefusal(s.row, ElementsJob).None?
    ensures var n := s.nextJob;
            var c := Next(Next(Next(s, DoPost(ElementsJob, false)), DoBegin(n)), DoCommit(n, Text("e"), "m"));
            !Busy(c) && j in c.jobs && c.jobs[j] == s.jobs[j] && Narrative in c.row.artifacts
  {
    PostedAndBegun(s, ElementsJob);
  }

  lemma ThenEditAndCommit(c: Sys, j: JobId)
    requires !Busy(c) && Running(c, j) && c.jobs[j].kind.NarrativeJob? && WorkFits(c.jobs[j])
    requires Narrative in c.row.artifacts
    ensures var s2 := Next(c, DoEditArtifact(Narrative, "mine", "gm", false));
            var s3 := Next(s2, DoCommit(j, Text("ai"), "m"));
            && Edited(s2, Narrative) && s2.row.artifacts[Narrative].content == "mine"
            && !Edited(s3, Narrative) && s3.row.artifacts[Narrative].content == "ai"
  {
    assert !PyText.IsSpace("mine"[0]);
  }

  /** The situation of `SecondJobLosesEdit` arises without forcing anything. */
  lemma SecondJobCanHappen()
    ensures var s := Run(Init(Diarised, 1),
                         [DoUpload, DoBegin(0), DoCommit(0, Transcript([]), "m")] +
                         ([DoPost(NarrativeJob, false), DoBegin(1), DoCommit(1, Text("old"), "m")] +
                          [DoPost(NarrativeJob, false), DoBegin(2)]));
            && Booked(s) && Running(s, 2) && s.jobs[2].kind.NarrativeJob?
            && Narrative in s.row.artifacts && (forall k | k in s.row.artifacts :: !Edited(s, k))
            && LoadSource(s.row).Success? && PostRefusal(s.row, ElementsJob).None?
  {
    var one := [DoUpload, DoBegin(0), DoCommit(0, Transcript([]), "m")];
    var two := [DoPost(NarrativeJob, false), DoBegin(1), DoCommit(1, Text("old"), "m")];
    var three := [DoPost(NarrativeJob, false), DoBegin(2)];
    RunAppend(Init(Diarised, 1), one, two + three);
    FirstTranscription();
    var s3 := Run(Init(Diarised, 1), one);
    RunAppend(s3, two, three);
    FirstNarrative(s3);
    var s6 := Run(s3, two);
    SecondNarrative(s6);
  }

  lemma FirstTranscription()
    ensures Run(Init(Diarised, 1), [DoUpload, DoBegin(0), DoCommit(0, Transcript([]), "m")])
         == Sys(Session(Diarised, Transcribed, Some(Audio(false)), [], Some([]), None, map[], [], [], Some(0)),
                map[0 := Job(TranscriptionJob, Finished, RETRIES, Nothing)], 1, 0, 1)
  {
    RunThree(Init(Diarised, 1), DoUpload, DoBegin(0), DoCommit(0, Transcript([]), "m"));
    var s1 := Next(Init(Diarised, 1), DoUpload);
    assert s1.jobs == map[0 := Job(TranscriptionJob, Queued, RETRIES, Nothing)];
    var s2 := Next(s1, DoBegin(0));
    assert s2.jobs == map[0 := Job(TranscriptionJob, Started, RETRIES, Transcribe(Diarised))];
  }

  lemma FirstNarrative(s: Sys)
    requires Booked(s) && s.nextJob == 1 && s.row.mode.Diarised? && s.row.state.Transcribed?
    requires s.row.artifacts == map[] && s.row.transcription.Some? && s.row.edited.None?
    ensures var t := Run(s, [DoPost(NarrativeJob, false), DoBegin(1), DoCommit(1, Text("old"), "m")]);
            && Booked(t) && t.nextJob == 2 && t.chunkMax == s.chunkMax
            && t.row == s.row.(artifacts := map[Narrative := Artifact("old", "m", false, None)], currentJob := Some(1))
  {
    RunThree(s, DoPost(NarrativeJob, false), DoBegin(1), DoCommit(1, Text("old"), "m"));
    PostedAndBegun(s, NarrativeJob);
    CommitText(Next(Next(s, DoPost(NarrativeJob, false)), DoBegin(1)), 1, "old");
  }

  lemma SecondNarrative(s: Sys)
    requires Booked(s) && s.nextJob == 2 && s.row.mode.Diarised? && s.row.state.Transcribed?
    requires Narrative in s.row.artifacts && (forall k | k in s.row.artifacts :: !Edited(s, k))
    requires s.row.transcription.Some? && s.row.edited.None?
    ensures var t := Run(s, [DoPost(NarrativeJob, false), DoBegin(2)]);
            && Booked(t) && Running(t, 2) && t.jobs[2].kind.NarrativeJob? && t.row == s.row.(currentJob := Some(2))
  {
    RunTwo(s, DoPost(NarrativeJob, false), DoBegin(2));
    PostedAndBegun(s, NarrativeJob);
    StepKeepsBooked(s, DoPost(NarrativeJob, false));
    StepKeepsBooked(Next(s, DoPost(NarrativeJob, false)), DoBegin(2));
  }

  lemma CommitText(s: Sys, j: JobId, text: string)
    requires Booked(s) && Running(s, j) && s.jobs[j].kind.NarrativeJob?
    ensures var t := Next(s, DoCommit(j, Text(text), "m"));
            && Booked(t) && t.nextJob == s.nextJob && t.chunkMax == s.chunkMax
            && t.row == s.row.(artifacts := Upserted(s.row.artifacts, Narrative, text, "m"))
  {
    WorkerKeepsBooked(s, DoCommit(j, Text(text), "m"));
  }
}
