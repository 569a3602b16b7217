# Verification of the JDR service

A Dafny model of the game-session ("JDR") service: recorded sessions are uploaded, transcribed
by background jobs, summarised by language models, edited by hand, and shown to players. The
project models what these operations do to the rows of one session and to its queued jobs, and
proves what every run of them keeps; beside it stand models of the rate limiter, the text
chunker, transcription in pieces, the Markdown grouping, byte ranges, the elements migration,
local model settings, the player query, and users with their web sessions.

Run `dafny verify dfyconfig.toml`.

## How the model is laid out

- `SessionModel` gives one session, its rows and its jobs as a value, every HTTP operation and
  every phase of a job (load, commit, failure, loss) as a transition, and runs of transitions.
  `SessionStore` holds the same rows in a class whose methods update them in place, step by step
  as the service does; each method is proved to make exactly its transition or none.
- `Bookkeeping`, `EditedArtifacts`, `SecondJob`, `Lifecycle`, `PurgeAftermath`, `Readiness`,
  `SummaryJob`, `Retries` and `Stranding` prove invariants of all runs of that model, and exact
  conditions where a promise can fail; `TranscriptStored` and `TranscriptWords` follow a
  transcription into its row and its chunks.
- `Transcription` (with `Stitching` and `Progress`) and `SummaryJob` run a whole attempt of a job
  against any behaviour of the model it calls.
- `RateLimit`, `TextChunker`, `SpeakerGroups`, `ByteRange`, `Elements`, `ElementsMigration`,
  `LocalModels`, `PlayerSessions` and `Users` each stand alone; `PyText` has the parts of
  Python's `str` they need, `Wrappers` the usual option and result types.

## Assumptions

- HTTP operations and the transactions of a job are atomic steps; between the load and the
  commit of a job anything may happen. A job whose commit succeeded counts as finished. The load
  of the POV job, which takes two transactions in the code, is one step.
- The worker looks at neither its job id nor, for transcription, the session state when it
  starts, and every uncaught exception is retried. So "one live transcription job", "one artefact
  job in flight", "no restart, or purge, while a summary job waits for its model" and "no empty
  partial summary" are not facts of the code but explicit policies of a run. Exactly when a step
  against a policy does harm is proved for each: `Lifecycle.RestartIsSafeIff`,
  `SecondJob.SecondJobKeepsEditsIff`, `Readiness.RestartKeepsChecksIff`,
  `Readiness.PurgeKeepsSourceIff` and `Readiness.PartialsKeepChecksIff`.
- A job the queue has lost never commits; `Lifecycle.RecoverIsSafe` rests on it.
- The setup of the first user is one step up to its commit. The code releases its lock before the
  database session commits (app/core/users.py:173, app/core/db.py:90).
- A purged audio row still blocks an upload. Setting players does not delete POVs, while setting
  a mapping does.
- The read of the oldest entry of a rate-limit bucket belongs to the step of the check; all
  callers share one clock, and the random suffix makes members distinct.
- Times and percents are exact numbers, not floating point. Digests and password hashes are free
  of collisions; file paths resolve the same way at validation and at PATCH.
- Character strings are sequences of characters. Whitespace is exactly Python's; usernames are
  lowered in the ASCII range only.
- `str()` of a JSON value that is not a text is an uninterpreted function of that value.
- A header holds no control characters, which HTTP forbids there.

## Where code and documentation differ

- The chunker documents a cut at "whitespace"; the code looks for the space character only
  (`TextChunker.CutIsAsDocumentedIff`).
- The route that deletes the audio promises that a new upload can be sent; every upload after a
  purge of audio is refused, and only a session that never had any takes one
  (`Lifecycle.UploadAfterPurgeIff`).
- A transient error gives the session back "so the retry picks it up"; when no retry is left,
  none comes, and the session can neither be restarted, recovered nor uploaded again
  (`Stranding.FailureStrandsIff`, `Stranding.StrandedForever`).
- The rate limiter promises a delay after which a retry may pass; with concurrent callers the
  retry can be refused again although nobody was admitted meanwhile
  (`RateLimit.RetryCanFailWithTwoCallers`). `RateLimit.PatientRetryPassesIff` says exactly when a
  retry after that delay is sure to pass.
- The progress projection promises never to fail on malformed metadata; a phase without a hash
  makes it raise (`Progress.ProjectionRaisesIff`).
- The down migration is documented as best effort; up, down and up again loses custom categories
  (`ElementsMigration.UpDownUpIff`).
- A range unit other than "bytes" in lower case is answered with an error, where RFC 9110 has a
  server ignore an unknown unit and read the name in any case
  (`ByteRange.UnitFollowsTheStandardIff`).

## Model

| member | source | states |
|---|---|---|
| `EditedArtifacts.EditsSurviveJobs` | app/services/jdr/router.py:439-480 | In every run of unforced regenerations with at most one artefact job in flight, whatever uploads, purges, restarts, edits, retries and mapping changes come between, an edited artefact stays as it is until a user asks for it to go: no job overwrites or deletes it. |
| `EditedArtifacts.RunKeepsProtected` | app/services/jdr/router.py:619-645 | The invariant behind it, over every run: at most one artefact job is live, and either the session tracks it and no artefact it guards is edited, or no artefact exists that it may write, on a retry included. |
| `EditedArtifacts.PostIsHarmless` | app/services/jdr/router.py:452-480 | A regeneration accepted without force while no artefact job is live is tracked, the only live artefact job, and guards no edited artefact; the invariant is kept. |
| `EditedArtifacts.EditLeavesJobsIdle` | app/services/jdr/router.py:623-645 | After an accepted manual edit no artefact exists that any live artefact job may write or delete; the invariant is kept. |
| `EditedArtifacts.WritesInsideGuard` | app/jobs/jdr.py:927-954 | What the commit of a job changes or deletes lies inside the kinds its POST route guards, for all four artefact jobs. |
| `EditedArtifacts.CommitWritesWithin` | app/jobs/jdr.py:771-780 | And inside what the job could write: for a POV job the POVs of the PJs it has read. |
| `EditedArtifacts.CommitEditsNothing` | app/services/jdr/db/repositories.py:658-668 | Whatever a job writes is marked as generated, never as edited. |
| `EditedArtifacts.WorkerWrites` | app/jobs/jdr.py:615-622 | Only the commit of a live artefact job changes artefacts, and the job is then over. |
| `EditedArtifacts.GuardIsExact` | app/services/jdr/router.py:447-480 | A route guards exactly the kinds of artefact that the commit of some job of it can change or delete. |
| `EditedArtifacts.EditsAreFilled` | app/services/jdr/router.py:2336-2344 | In every run whatsoever, no edit leaves a blank text, and no edited elements card is empty unless somebody confirmed a clear. |
| `EditedArtifacts.TextIsStored` | app/jobs/jdr.py:614-622 | A narrative or elements job stores the text of the model as a generated artefact, and changes nothing else. |
| `EditedArtifacts.PovsAreStored` | app/jobs/jdr.py:771-780 | A POV job stores for each PJ the last text made for it, and changes nothing else. |
| `SecondJob.SecondJobKeepsEditsIff` | app/services/jdr/router.py:439-480 | For every protected state and every regeneration accepted while an artefact job is in flight, queued, scheduled for a retry or waiting for its model: no later run loses an edit if and only if the two jobs never write the same artefact, neither is a summary job, and no artefact exists that the first job may write, with the work it holds or with what it reads when it starts or is retried. |
| `SecondJob.CapturedWorkIsNotEnough` | app/jobs/jdr.py:705-724 | The POV of a PJ the running job has not read can be lost too, because a retry reads the players again. |
| `EditedArtifacts.RunKeepsSettled` | app/services/jdr/router.py:619-645 | Any number of live artefact jobs is harmless as long as each is held and no two can meet; every run without regenerations beside a live job keeps that. |
| `EditedArtifacts.SecondJobLosesEdit` | app/services/jdr/router.py:619-645 | A loss spelled out: with a second regeneration queued and finished while the first waits for its model, an accepted edit is overwritten by the first job. |
| `EditedArtifacts.SecondJobCanHappen` | app/services/jdr/router.py:1604-1626 | That situation is reached from a new session by unforced requests alone. |
| `Bookkeeping.WorkerFrame` | app/jobs/jdr.py:922-954 | A phase of one job leaves tracking, audio and mode alone and never starts, revives or changes another job. |
| `Bookkeeping.HttpFrame` | app/services/jdr/logic.py:1242-1273 | What upload, purge, recovery, saved edits and the cast change of a session, field by field, and that all else stays: a purge keeps mapping and players. |
| `Bookkeeping.StepKeepsBooked` | app/services/jdr/logic.py:704-721 | Job ids are never reused, a job holds work only while it runs and then of the kind its load produces, summary jobs belong to non_diarised sessions, and no job exists before an upload. |
| `EditedArtifacts.EditIsStored` | app/services/jdr/db/repositories.py:704-717 | An accepted edit is stored with its author, keeps the model on record, and changes no other artefact. |
| `EditedArtifacts.NewCastAndPovs` | app/services/jdr/logic.py:1199-1202 | A new mapping deletes every POV and nothing else, while a new list of players keeps them all. |
| `EditedArtifacts.PovsWriteLast` | app/jobs/jdr.py:771-780 | Every PJ gets the text made for it; of several made for one PJ the last. |
| `Retries.AtMostFourAttempts` | app/jobs/__init__.py:43-75 | Over every run a job is attempted at most four times: once, and once for each of its three retries. |
| `Retries.AttemptsAreBounded` | app/jobs/__init__.py:59-63 | The number of attempts left never grows, whatever other operations do, and every attempt uses one up. |
| `Retries.FailingUsesAll` | app/jobs/__init__.py:59-63 | A transcription that keeps failing with transient errors uses all of its attempts. |
| `Lifecycle.OutputOnlyWhenTranscribed` | app/jobs/jdr.py:467-498 | With one live transcription job, over every run: chunks, transcription and edited text exist only in the transcribed state; chunks only in non_diarised and transcriptions only in diarised mode; chunk numbers are exactly 0..n-1; mappings exist only in diarised sessions that are transcribed or purged. |
| `Lifecycle.BulkInsertNeverClashes` | app/services/jdr/db/repositories.py:804-818 | In every such state the bulk insert of chunks meets no existing row, so the unique key is never broken. |
| `Lifecycle.RunKeepsKey` | app/services/jdr/db/repositories.py:804-818 | In every run whatsoever, racing transcriptions included, no two chunks of the session have the same number. |
| `Lifecycle.PurgeIsFinal` | app/services/jdr/logic.py:1231-1273 | After a purge no chunk, transcription or edited text ever appears again, in every later run whatsoever, and every new upload is refused: for the audio row a purge leaves marked as purged. |
| `Lifecycle.UploadAfterPurgeIff` | app/services/jdr/logic.py:1231-1273 | After an accepted purge a new upload is accepted, at once or in any later run, if and only if the session never had any audio. |
| `Lifecycle.RecoverIsSafe` | app/services/jdr/logic.py:584-611 | A stuck session is recovered only when no transcription of it is live, so the restart this allows cannot race one. |
| `Lifecycle.PermanentErrorInvitesRestart` | app/jobs/jdr.py:453-457 | A permanent error with retries left makes the session restartable while its job is still live. |
| `Lifecycle.RestartIsSafeIff` | app/services/jdr/logic.py:645-668 | After a restart the purge stays final in all later runs if and only if no transcription job was live at the restart. |
| `Lifecycle.RunKeepsOrder` | app/jobs/jdr.py:346-370 | The invariant over runs: the live transcription job is the only one, is tracked, and runs in the transcribing state with the mode it captured. |
| `TranscriptStored.TranscriptIsKept` | app/jobs/jdr.py:483-498 | In every run with one live transcription job, a diarised job that commits leaves exactly its segments in every later state until a purge or a restart, and until an edit is saved every other job reads exactly them. |
| `TranscriptStored.CommitStoresSegments` | app/jobs/jdr.py:483-498 | The commit stores the segments it was given and changes nothing else but the state. |
| `TranscriptStored.RunKeepsTranscript` | app/services/jdr/logic.py:614-668 | Only a purge or a restart takes a stored transcription away, and only a saved edit stands in for it. |
| `TranscriptStored.RestartReplaces` | app/services/jdr/logic.py:645-681 | From a transcribed or failed session with its audio, a restart that runs through replaces the transcription and leaves nothing made from the old one. |
| `Stranding.TranscriptionReachableIff` | app/services/jdr/logic.py:614-668 | Over every run: some later run has the session transcribed if and only if it is not stranded, that is, purged, or in audio_uploaded with no transcription left in the queue. |
| `Stranding.StrandedForever` | app/services/jdr/logic.py:645-655 | From a stranded session no operation, job or retry leads out, in every later run whatsoever: upload, restart and recovery are all refused. |
| `Stranding.FailureStrandsIff` | app/jobs/jdr.py:444-462 | A failing transcription strands its session if and only if the error is transient and no retry is left. |
| `Stranding.FourTransientErrorsStrand` | app/jobs/jdr.py:444-452 | A concrete run: an upload whose transcription meets four transient errors in a row. |
| `PurgeAftermath.PurgeKeepsNoArtifactIff` | app/services/jdr/logic.py:1242-1273 | After a purge no artefact ever appears again, in all later runs, if and only if no artefact job was waiting for its model at the purge. |
| `PurgeAftermath.RunKeepsBarren` | app/jobs/jdr.py:695-699 | In a purged session without running artefact jobs no job of any kind ever runs again, in every later run whatsoever. |
| `Readiness.AcceptedJobsCanLoad` | app/services/jdr/router.py:1604-1619 | Over every run without empty partial summaries and without a restart while a summary job waits for its model, purges at any time included: whenever the checks of a POST route pass, the load of that job would succeed; and a non_diarised session with a summary has a non-blank edited text or chunks that are all summarised, unless it is purged. |
| `Readiness.AcceptedIff` | app/services/jdr/router.py:1604-1626 | Over every such run a route accepts a request if and only if the job would find all it needs, and the request is forced or no edited artefact of a guarded kind exists. |
| `Readiness.LoadableIsAccepted` | app/services/jdr/router.py:1604-1619 | The routes refuse nothing a job could have worked on. |
| `Readiness.RunKeepsBacked` | app/jobs/jdr.py:927-954 | In every run whatsoever partial summaries exist only beside a summary. |
| `Readiness.SummariesKeepTheirSource` | app/jobs/jdr.py:506-577 | If it is not purged meanwhile either, a non_diarised session with a summary always has its source. |
| `Readiness.PurgeKeepsSourceIff` | app/services/jdr/logic.py:1242-1273 | After a purge every summary has its source, in all later such runs, if and only if no summary job was waiting for its model at the purge. |
| `Readiness.SoundChecksAgree` | app/jobs/jdr.py:513-577 | The checks of all four POST routes imply the checks of all four job loads in every state with the invariant. |
| `Readiness.SummaryCommitReadyIff` | app/jobs/jdr.py:927-935 | After a summary commit, whatever the model returned, the source of later jobs is there if and only if there is an edited text, or there are chunks and each got a non-empty partial summary. |
| `Readiness.PartialsKeepChecksIff` | app/jobs/jdr.py:927-935 | After the commit of a summary job, with any partial summaries, every accepted request keeps finding its source, in all later runs, if and only if there is an edited text or every chunk got a non-empty partial summary. |
| `Readiness.RestartKeepsChecksIff` | app/services/jdr/logic.py:645-681 | After a restart every accepted request keeps finding its source, in all later runs, if and only if no summary job was waiting for its model at the restart. |
| `Readiness.StaleSummaryCommit` | app/jobs/jdr.py:927-954 | The failing case: a summary over chunks nobody read is accepted as a source by the route and refused by the job. |
| `Readiness.SavedEditIsRead` | app/jobs/jdr.py:506-511 | A saved edit is what narrative, elements and POV jobs read, in place of transcription or chunks. |
| `Readiness.StartedJobHoldsSource` | app/jobs/jdr.py:513-577 | A narrative, elements or POV job that has just started holds the source of the session as it is then. |
| `Readiness.SavedEditIsSummarised` | app/jobs/jdr.py:850-865 | The summary job summarises the pieces of a saved edit, which stand for no chunk row. |
| `Readiness.LatestCastIsRead` | app/jobs/jdr.py:705-724 | The POV job works through the PJs of the latest mapping, or of the latest players. |
| `TranscriptWords.ChunksSayTranscript` | app/jobs/jdr.py:467-482 | The chunks a transcription leaves say every word of its segments, whole and in order, if the joined text has no tight stretch (see the chunker); and, however the gaps between the chunks are chosen, exactly when none is empty. |
| `TranscriptWords.PlainTranscriptSurvivesIff` | app/jobs/jdr.py:467-482 | For segments without tabs and line breaks they say every word if and only if no spoken word is longer than a chunk may be. |
| `TranscriptWords.JoinedKeepsWords` | app/jobs/jdr.py:470-470 | Joining the stripped, non-empty texts of the segments keeps every word. |
| `TranscriptWords.JoinedFits` | app/jobs/jdr.py:470-470 | Exactly one character stands between two joined texts. |
| `TranscriptWords.SilenceLeavesNoChunk` | app/jobs/jdr.py:467-482 | A transcription without any word leaves a transcribed session without chunks. |
| `SessionModel.DeduplicatedKeepsAll` | app/services/jdr/db/repositories.py:880-886 | The player list keeps every PJ of the request exactly once. |
| `SessionModel.DeduplicatedKeepsOrder` | app/services/jdr/db/repositories.py:880-886 | The player list is in the order of first appearance. |
| `SessionStore.Store.constructor` | app/services/jdr/db/repositories.py:392-413 | A new session is the initial state of every run. |
| `SessionStore.Store.EnqueueJob` | app/services/jdr/logic.py:704-721 | The rows after enqueueing are the model transition: a fresh queued job, tracked by the session. |
| `SessionStore.Store.UpsertArtifact` | app/services/jdr/db/repositories.py:643-679 | Creates or regenerates one artefact with its provenance reset and touches no other. |
| `SessionStore.Store.UpdateContent` | app/services/jdr/db/repositories.py:689-717 | A manual edit needs an existing row, marks it edited and keeps the model on record. |
| `SessionStore.Store.ResetSummaryTexts` | app/services/jdr/db/repositories.py:838-849 | Clears every partial summary and nothing else. |
| `SessionStore.Store.UpdateSummaryText` | app/services/jdr/db/repositories.py:829-836 | Sets the partial summary of the chunk with this id and of no other. |
| `SessionStore.Store.BulkCreate` | app/services/jdr/db/repositories.py:804-818 | Inserts rows 0..n-1 with fresh ids, or nothing when a number is taken. |
| `SessionStore.Store.ReplacePlayers` | app/services/jdr/db/repositories.py:871-894 | The loop with its set of seen ids computes the deduplicated list. |
| `SessionStore.Store.Upload` | app/services/jdr/logic.py:771-830 | Refused for any existing audio row, purged or not; else one transition to audio_uploaded with a job. |
| `SessionStore.Store.Purge` | app/services/jdr/logic.py:1231-1273 | Refused while transcribing; else marks the audio purged and deletes every output, keeping mapping and players. |
| `SessionStore.Store.Restart` | app/services/jdr/logic.py:645-681 | Refused without usable audio or from another state; else deletes outputs and mapping and queues a transcription. |
| `SessionStore.Store.Recover` | app/services/jdr/logic.py:584-611 | Refused unless stuck in transcribing with no active tracked job. |
| `SessionStore.Store.SaveEdit` | app/services/jdr/logic.py:380-395 | Refused unless transcribed; replaces the edited text. |
| `SessionStore.Store.SetMapping` | app/services/jdr/logic.py:1219-1221 | Replaces the mapping and deletes exactly the POVs, in one transition. |
| `SessionStore.Store.SetPlayers` | app/services/jdr/logic.py:432-436 | Replaces the players and leaves POVs alone. |
| `SessionStore.Store.EditArtifact` | app/services/jdr/router.py:2336-2357 | Refused for blank text, a busy session, an unconfirmed clear or a missing row; else one edit. |
| `SessionStore.Store.EditedAmongGuarded` | app/services/jdr/router.py:458-470 | The accumulating loop finds exactly the edited artefacts the job guards. |
| `SessionStore.Store.PostArtifact` | app/services/jdr/router.py:1873-1914 | Preconditions, then the edit guard unless forced, then one enqueue; any refusal changes nothing. |
| `SessionStore.Store.EndAttempt` | app/jobs/__init__.py:43-75 | A failed attempt goes back to the queue while retries are left, whatever its cause. |
| `SessionStore.Store.Begin` | app/jobs/jdr.py:346-370 | The load transaction: what the job captures, and the state it leaves. |
| `SessionStore.Store.Fail` | app/jobs/jdr.py:444-462 | A transient error gives the session back to audio_uploaded, a permanent one marks it failed, another exception leaves it; artefact jobs touch no row. |
| `SessionStore.Store.CommitChunks` | app/jobs/jdr.py:471-482 | Chunks and state in one transaction, or neither. |
| `SessionStore.Store.CommitTranscript` | app/jobs/jdr.py:467-498 | Writes chunks of the joined text or the transcription, by the captured mode. |
| `SessionStore.Store.CommitText` | app/jobs/jdr.py:614-622 | Writes exactly the narrative or the elements card. |
| `SessionStore.Store.CommitPovs` | app/jobs/jdr.py:771-780 | Writes one POV per PJ of the captured list and nothing else. |
| `SessionStore.Store.CommitSummary` | app/jobs/jdr.py:927-954 | The whole atomic swap, with its reset, update and delete steps, is the model transition. |
| `SessionStore.Store.CommitRows` | app/jobs/jdr.py:467-498 | A broken constraint rolls every row of the transaction back. |
| `SessionStore.Store.Commit` | app/jobs/jdr.py:927-954 | Commit of any job kind: rows and job status together. |
| `SummaryJob.GenerateSummary` | app/jobs/jdr.py:838-954 | For any number of chunks and any behaviour of the model: the first failing call ends the attempt with every row as before; without one there are n calls if n is 1, else n + 1, and one commit of all partial summaries and the consolidated text. |
| `SummaryJob.MapPhase` | app/jobs/jdr.py:887-899 | One call per chunk in order, collecting the answers, until one fails. |
| `SummaryJob.ReducePhase` | app/jobs/jdr.py:901-916 | No call for a single partial summary, else one call with all of them in order. |
| `SummaryJob.EverySwapWrites` | app/jobs/jdr.py:927-954 | In every run whatsoever, a committing summary job puts each partial summary on the chunk it was made from, which still has the text that was read, clears every other chunk, removes exactly the derived artefacts, and leaves a fresh summary and the rest of the session unchanged. |
| `SummaryJob.SwapIsRead` | app/jobs/jdr.py:506-577 | In every run whatsoever, what later jobs read after such a commit is, for each chunk the job had read, the summary made from its text. |
| `SummaryJob.PartialsAreRead` | app/jobs/jdr.py:540-560 | The source of a non_diarised session without edit is the partial summaries of all chunks, in order. |
| `SummaryJob.PartialsInPlace` | app/jobs/jdr.py:929-935 | Without interleaving: partial i lies on chunk i, or all chunks are cleared when an edited text was summarised. |
| `SummaryJob.RunKeepsIds` | app/services/jdr/db/repositories.py:804-818 | Chunk ids are handed out once in every run; a summary job has read each chunk once, and a chunk with an id it read still has the text it read. |
| `Stitching.WholeSnoc` | app/jobs/jdr.py:1007-1025 | One more piece adds its segments, moved by its offset, and the last non-empty metadata wins. |
| `Stitching.StitchedAppend` | app/jobs/jdr.py:975-990 | Pieces do not influence each other: a bad piece changes its own stretch of the result only. |
| `Stitching.StitchedAt` | app/jobs/jdr.py:1007-1020 | Every segment of every piece is in its place, with the length of the pieces before it added to both its times, speaker and text unchanged. |
| `Stitching.OnePieceIsSingleShot` | app/jobs/jdr.py:992-996 | A recording that fits in one piece is transcribed as if it had not been cut. |
| `Stitching.StitchedInOrder` | app/jobs/jdr.py:1007-1020 | If every piece is in order and inside its own length, the whole is in order and every segment in the stretch of its piece. |
| `Stitching.StitchingUndoesCutting` | app/services/jdr/audio.py:156-159 | Round trip: stitching the pieces of any ordered recording, cut at multiples of the piece length, gives the recording back. |
| `Progress.HalfEvenIsNearest` | app/jobs/jdr.py:427-427 | The percent is a nearest integer to the exact one, and of two the even one. |
| `Progress.HalfEvenGrows` | app/jobs/jdr.py:427-427 | Half-even rounding of a growing fraction never falls. |
| `Progress.ShownGrows` | app/jobs/jdr.py:421-428 | The percent after each piece never falls and stays at most 99. |
| `Progress.ShownIsRounded` | app/jobs/jdr.py:426-428 | The percent shown after some of the pieces is the nearest integer to 100 times done by total, the even one of two, but at most 99; after all of them it is 99. |
| `Progress.ProgressReporter.Report` | app/jobs/jdr.py:232-241 | A failed save is not noticed, and no percent keeps the last one. |
| `Progress.ProjectionIsFaithful` | app/services/jdr/router.py:494-515 | The public projection shows a stored progress unchanged if and only if its phase is known and its percent between 0 and 100. |
| `Progress.ProjectionRaisesIff` | app/services/jdr/router.py:504-505 | The projection raises, for any percent, if and only if the stored phase is a list or an object, or a tuple that somewhere inside its tuples holds a list, an object or a set. |
| `Transcription.OnChunk` | app/jobs/jdr.py:421-428 | The percent reported after a piece is the rounded percentage of the pieces done, cut to 99; what readers have seen rises. |
| `Transcription.TranscribePieces` | app/jobs/jdr.py:1005-1034 | The stitching loop computes the whole of all pieces or stops at the first that fails, with the percent of the pieces done. |
| `Transcription.TranscribeWithOptionalChunking` | app/jobs/jdr.py:992-1034 | Single shot, failed cutting and pieces, each with its result and its progress. |
| `Transcription.Break` | app/jobs/jdr.py:444-462 | A failure keeps the last percent and reports the failed phase, except for an exception nobody handles. |
| `Transcription.Conclude` | app/jobs/jdr.py:467-503 | 100 is reported exactly when the commit went through. |
| `Transcription.TranscribeSession` | app/jobs/jdr.py:346-503 | One attempt: the session it leaves, for every failure point, an adapter that cannot be built included; stored percents start at 0, never fall, stay below 100 unless committed; and the API shows everything stored unchanged. |
| `Transcription.FinalShows` | app/jobs/jdr.py:444-503 | What a reader sees last: done and 100 after a commit; failed and the rounded percentage of the pieces done after a model error; 99 when the commit was rolled back. |
| `SpeakerGroups.GroupConsecutiveSpeakerSegments` | app/services/jdr/markdown.py:317-351 | The loop that rewrites the last group computes the recursive grouping. |
| `SpeakerGroups.GroupsPartition` | app/services/jdr/markdown.py:332-350 | The groups partition the input into consecutive runs of one speaker; each has the start of the first, the last end given, and the stripped texts with single spaces between them; a segment alone is unchanged. Exactly the silences shorter than the limit are bridged, whatever times are absent or null: those inside a run, not those between two groups of one speaker. |
| `SpeakerGroups.StoredSilences` | app/services/jdr/markdown.py:320-326 | In seconds, with all times given: within a run each segment starts less than the limit after the end of the one before it, and two neighbouring groups of one speaker are at least the limit apart. |
| `SpeakerGroups.GroupingKeepsWords` | app/services/jdr/markdown.py:343-348 | No word is lost, added or moved by grouping. |
| `SpeakerGroups.GroupingIsIdempotent` | app/services/jdr/markdown.py:333-350 | No two neighbours of the result can be merged, and grouping again changes nothing. |
| `SpeakerGroups.ShiftKeepsGroupingIff` | app/services/jdr/markdown.py:337-342 | Which segments are merged stays the same under every constant time shift if and only if no given time is ever compared with an absent one. |
| `SpeakerGroups.GroupingCommutesWithShift` | app/services/jdr/markdown.py:332-351 | As long as no given time is compared with an absent one, grouping commutes with every constant time shift. |
| `SpeakerGroups.StoredGroupingCommutesWithShift` | app/services/jdr/markdown.py:332-351 | So it does with all times given, as stored transcriptions have them. |
| `ByteRange.ParseRangeHeader` | app/services/jdr/batch/router.py:140-169 | An accepted range satisfies 0 <= start <= end < size; the whole file is selected exactly without a header or with a blank one. |
| `ByteRange.RangesFollowTheStandard` | app/services/jdr/batch/router.py:140-169 | Every range of section 14.1.2 of RFC 9110 (bounded, open, suffix), printed after the unit, is answered as the standard selects for every size; only numbers of more than 4300 digits are refused. |
| `ByteRange.PrintedBoundsComeBack` | app/services/jdr/batch/router.py:155-169 | A printed a-b with a < size and a <= b comes back as (a, min(b, size - 1)) if and only if its numbers are short enough to be read. |
| `ByteRange.UnitFollowsTheStandardIff` | app/services/jdr/batch/router.py:146-149 | Every range, under any unit, is answered as sections 14.1 and 14.2 of RFC 9110 prescribe if and only if the unit is bytes, in lower case and with numbers that can be read, or in any case if the range selects nothing. |
| `ByteRange.CapitalsAreRefused` | app/services/jdr/batch/router.py:146-147 | The bytes unit with capitals is refused, although unit names are the same in any case. |
| `ByteRange.SignsAreRead` | app/services/jdr/batch/router.py:155-161 | Numbers with a sign in front are read as the integer function of Python reads them. |
| `ByteRange.UnderscoresAreRead` | app/services/jdr/batch/router.py:155-161 | And an underscore between digits does not count. |
| `ByteRange.IterFileRange` | app/services/jdr/batch/router.py:172-181 | However short the non-empty reads are, the chunks put together are exactly the bytes of the range, as far as the file has them, and none is empty or too large. |
| `ByteRange.ServeRange` | app/services/jdr/batch/router.py:285-306 | An accepted request is answered with exactly the bytes asked for, as many as Content-Length announces. |
| `Elements.CollectRows` | app/services/jdr/elements.py:65-73 | The appending loop keeps the readable entries in order. |
| `Elements.FlattenElements` | app/services/jdr/elements.py:42-52 | Flattening the four buckets, including the bucket values a loop cannot run over. |
| `Elements.ElementsFromContent` | app/services/jdr/elements.py:55-74 | Reading a card in either form. |
| `Elements.CleanRowIsClean` | app/services/jdr/elements.py:29-39 | A row that is read has a non-empty name and category and no surrounding whitespace. |
| `Elements.ListedEntryReads` | app/services/jdr/elements.py:64-73 | A listed entry gives a row exactly if it has a name: its stripped fields, texts or not, under Autres if it has no category. |
| `Elements.BucketLabels` | app/services/jdr/elements.py:47-52 | The entries of the four buckets are read in their order, under PNJ, Lieux, Objets and Indices. |
| `Elements.ReadingFailsIff` | app/services/jdr/elements.py:47-48 | Reading fails if and only if the card is in the four-bucket form and a bucket is true or a number other than zero. |
| `ElementsMigration.UpgradeContent` | migrations/versions/0020_jdr_elements_freeform_category.py:72-93 | The loops of the upgrade compute the same rows as the reader of the service. |
| `ElementsMigration.DowngradeContent` | migrations/versions/0020_jdr_elements_freeform_category.py:96-116 | The loop of the downgrade files every row under its bucket in order. |
| `ElementsMigration.ElementsTable.Upgrade` | migrations/versions/0020_jdr_elements_freeform_category.py:72-93 | All rows of the table are migrated, or none when one of them cannot be read. |
| `ElementsMigration.ElementsTable.Downgrade` | migrations/versions/0020_jdr_elements_freeform_category.py:96-116 | All rows of the table are migrated back, or none when one of them is no object. |
| `ElementsMigration.ReadingCommutesWithUpgrade` | migrations/versions/0020_jdr_elements_freeform_category.py:74-93 | Whatever content is stored, decoded or as a text, the card reads the same before and after the upgrade, and the upgrade fails exactly where reading fails or the text is no object. |
| `ElementsMigration.MigratesWhatItStandsFor` | migrations/versions/0020_jdr_elements_freeform_category.py:45-116 | For a card stored as an object or as a text that decodes to one: the upgrade and the downgrade raise, leave it or write it by what it stands for; the upgrade writes a card that reads the same, the downgrade one that reads regrouped. |
| `ElementsMigration.UnreadableBecomesEmpty` | migrations/versions/0020_jdr_elements_freeform_category.py:45-52 | A text that does not decode, and a value that is neither text nor object, becomes the empty card. |
| `ElementsMigration.RegroupedRow` | migrations/versions/0020_jdr_elements_freeform_category.py:110-112 | A row of PNJ, Lieux or Objets keeps its category in the downgrade; any other comes back under Indices. |
| `ElementsMigration.UpgradeIsIdempotent` | migrations/versions/0020_jdr_elements_freeform_category.py:76-77 | Upgrading again leaves every content untouched. |
| `ElementsMigration.DowngradeIsRegrouping` | migrations/versions/0020_jdr_elements_freeform_category.py:103-116 | What a reader sees after a downgrade is what it saw before, stably regrouped by bucket. |
| `ElementsMigration.RegroupingKeepsPairs` | migrations/versions/0020_jdr_elements_freeform_category.py:104-115 | Regrouping keeps the multiset of names and descriptions, even under custom categories. |
| `ElementsMigration.UpDownUpIff` | migrations/versions/0020_jdr_elements_freeform_category.py:42-116 | For every stored content, decoded or as a text, that the upgrade does not refuse: up, down and up again reads back as up does, if and only if the content was in the four buckets, or flat and already exactly as the upgrade writes it. |
| `ElementsMigration.CustomCategoryIsLost` | migrations/versions/0020_jdr_elements_freeform_category.py:110-112 | The concrete content for which it fails: a card under a category of its own. |
| `LocalModels.WorkersAreServed` | app/jobs/jdr.py:134-201 | In every state reached by validation and PATCH requests of any users, the local branches of both adapter builders never raise, and a local adapter is built only on a path whose proof was issued to that user for that category. |
| `LocalModels.LocalPathsWereProbed` | app/services/jdr/local_model_validation.py:51-95 | Over every sequence of requests of any users: a worker loads a local model only from a path that was probed with success for that user and category. |
| `LocalModels.StoredHashIsLive` | app/services/jdr/local_model_validation.py:98-145 | A hash is stored only by a PATCH that brings the token of a successful probe of the same user and category before that proof expires. |
| `LocalModels.PatchAcceptedIff` | app/services/jdr/auth_router.py:578-625 | In every sound state a PATCH is accepted if and only if it brings a live proof for each category it makes local or gives another local path. |
| `LocalModels.PatchTakesEffect` | app/services/jdr/db/repositories.py:940-990 | After an accepted PATCH every field is what was asked for, or as before where nothing was asked. |
| `LocalModels.PatchIsServed` | app/jobs/jdr.py:134-193 | And the jobs get the adapters that belong to it: local, cloud with the own key, Ollama, or those of the operator. |
| `LocalModels.SlotStaysSound` | app/services/jdr/auth_router.py:578-625 | Whatever a payload gives, omits or sets to null, a local provider ends up with a non-blank path and a proof for it. |
| `LocalModels.RequiredHashIsProven` | app/services/jdr/local_model_validation.py:98-145 | A returned hash is that of a proof for the same user, category and normalised path. |
| `LocalModels.RequiredHashIff` | app/services/jdr/local_model_validation.py:98-145 | A hash is returned exactly for a proof that fits and has not expired at that moment. |
| `LocalModels.OtherCategoryStays` | app/services/jdr/auth_router.py:604-614 | In every reachable state a PATCH that leaves a category out needs no proof for it and does not change it. |
| `LocalModels.OtherUsersStay` | app/services/jdr/db/repositories.py:937-963 | No request touches the settings of another user. |
| `LocalModels.SettingsStore.CreateValidation` | app/services/jdr/local_model_validation.py:51-95 | A successful probe leaves a proof under a fresh token and keeps the invariant; a failed one changes nothing. |
| `LocalModels.SettingsStore.RequiredLocalValidationHash` | app/services/jdr/auth_router.py:578-625 | When a proof is needed and which error a missing, foreign or expired one gives. |
| `LocalModels.SettingsStore.UpsertForUser` | app/services/jdr/db/repositories.py:940-990 | Which fields a PATCH may set to null and which it keeps. |
| `LocalModels.SettingsStore.PatchModelSettings` | app/services/jdr/auth_router.py:514-575 | A refused PATCH changes nothing, an accepted one keeps the invariant of all users. |
| `PlayerSessions.ListedIffMapped` | app/services/jdr/logic.py:1061-1091 | For all contents of the three tables and every order the database may give rows of one instant: the list shows exactly the sessions the single check lets the player into, each once and by creation. |
| `PlayerSessions.MappedIff` | app/services/jdr/logic.py:1094-1128 | The single check looks at the mapping or the player list, by the mode of the session. |
| `PlayerSessions.QueryHasAnswer` | app/services/jdr/logic.py:1069-1091 | The query has an answer that is ordered and free of repetition. |
| `PlayerSessions.JoinHolds` | app/services/jdr/logic.py:1071-1072 | An outer join holds a matched pair exactly when both rows exist and match. |
| `PlayerSessions.JoinKeepsLeft` | app/services/jdr/logic.py:1071-1072 | An outer join loses no left row. |
| `Users.AfterSetup` | app/core/users.py:130-350 | After setup, over every run of user operations: an active administrator exists, setup stays closed, usernames are normalised and unique, and whoever is not active has only revoked sessions. |
| `Users.UpdateRefusedIff` | app/core/users.py:313-319 | A change is refused for the last administrator if and only if it would leave no active administrator. |
| `Users.DeleteRefusedIff` | app/core/users.py:339-344 | The same for a deletion. |
| `Users.CreateAcceptedIff` | app/core/users.py:130-164 | A new user is accepted if and only if the name is not blank, not taken in any spelling, and the password not empty. |
| `Users.UpdateAcceptedIff` | app/core/users.py:300-334 | A change is accepted if and only if the user is known, no empty password is set, and an active administrator is left. |
| `Users.DeleteAcceptedIff` | app/core/users.py:337-350 | A deletion is accepted if and only if the user is known and an active administrator is left. |
| `Users.UpdateTakesEffect` | app/core/users.py:321-334 | Role, status and password are what was asked for, or as before; no other user changes; exactly the sessions of a user made inactive or deleted are revoked. |
| `Users.DeleteTakesEffect` | app/core/users.py:345-350 | A deleted user stays on record as deleted, with every session revoked. |
| `Users.ReactivatedSignsIn` | app/core/users.py:321-334 | A reactivated user signs in again with the old password. |
| `Users.RunKeepsCredentials` | app/core/users.py:130-334 | Over every run no user has a blank name or an empty password. |
| `Users.SignsInOnlyItself` | app/core/users.py:184-198 | One name and password sign in one user only: the active one of that name with that password. |
| `Users.NormaliseTwice` | app/core/users.py:63-67 | A stored name is found under every spelling that normalises to it. |
| `Users.SignedOutForGood` | app/core/users.py:226-270 | A session that is or was revoked, or whose user stops being active, is never accepted again in any later run, even if the user is reactivated. |
| `Users.ExpiredForGood` | app/core/users.py:226-250 | After a sign-in, in every later run, the token is accepted for nobody but this user, and for nobody once it has expired. |
| `Users.OpenSessionKeepsIff` | app/core/users.py:201-223 | A session opened for a user keeps the invariant if and only if the user is active at that moment, so authentication and session must be one step. |
| `Users.CreatedCanLogin` | app/core/users.py:184-250 | A new user signs in under every spelling of the name, and the token is accepted until it expires. |
| `Users.NewPasswordSignsIn` | app/core/users.py:323-324 | After a change of password exactly the new one signs in. |
| `Users.UserStore.CreateUser` | app/core/users.py:130-164 | Refused for a blank, taken or passwordless user; else exactly one new active user. |
| `Users.UserStore.CreateFirstGm` | app/core/users.py:167-181 | Refused once a user exists. |
| `Users.UserStore.CountActiveAdmins` | app/core/users.py:285-294 | The number of active administrators. |
| `Users.UserStore.RevokeUserSessions` | app/core/users.py:261-270 | Revokes exactly the sessions of one user. |
| `Users.UserStore.UpdateUser` | app/core/users.py:300-334 | One transition of users and sessions, or a refusal without any change. |
| `Users.UserStore.DeleteUser` | app/core/users.py:337-350 | One transition of users and sessions, or a refusal without any change. |
| `Users.UserStore.Authenticate` | app/core/users.py:184-198 | Finds the active user of this name and password if and only if there is one. |
| `Users.UserStore.SignIn` | app/core/users.py:184-223 | Authentication and the new session as one step. |
| `Users.UserStore.ValidateWebSession` | app/core/users.py:226-250 | A token is accepted exactly for an unrevoked, unexpired session of an active user. |
| `Users.UserStore.RevokeWebSession` | app/core/users.py:253-258 | Revokes at most the session of this token. |
| `RateLimit.EveryWindowIsBounded` | app/core/rate_limit.py:44-67 | With at most N requests between their check and their insert on one clock, no half-open window ever holds more than limit + N - 1 admissions, over every interleaving. |
| `RateLimit.BoundIsReached` | app/core/rate_limit.py:41-42 | The bound is sharp for every limit, window and number of callers. |
| `RateLimit.RunKeepsBound` | app/core/rate_limit.py:44-67 | The pruned, expiring set together with the callers under way agrees with the full history in every reachable state. |
| `RateLimit.CheckCounts` | app/core/rate_limit.py:48-51 | The number a check compares with the limit is what the full history holds in the window, less the callers under way. |
| `RateLimit.IdleBucketIsForgotten` | app/core/rate_limit.py:63-66 | After every run, a bucket nobody uses for a whole window holds nothing any more. |
| `RateLimit.ClosedWindowsAreBounded` | app/core/rate_limit.py:44-67 | A closed window of positive length never holds more than twice that bound, over every interleaving. |
| `RateLimit.ClosedWindowHoldsMore` | app/core/rate_limit.py:45-65 | And twice the bound is reached, for every limit, positive window and number of callers. |
| `RateLimit.RetryBrackets` | app/core/rate_limit.py:57-57 | Retry-After r satisfies r - 1 <= oldest + W - now < r and 1 <= r <= W + 1. |
| `RateLimit.FirstIsOldest` | app/core/rate_limit.py:53-57 | The entry the delay is computed from is the oldest of all admissions ever that are still in the window. |
| `RateLimit.RefusalMeansFull` | app/core/rate_limit.py:53-56 | With one caller at a time a refusal happens only with exactly limit entries in the window. |
| `RateLimit.RetryPassesIff` | app/core/rate_limit.py:53-60 | After a refusal and no other event, a retry passes if and only if fewer than limit of the present entries are still in its window. |
| `RateLimit.QuietRetryPassesIff` | app/core/rate_limit.py:53-60 | After a refusal, a retry passes in every run in which nobody is admitted in between, callers under way recording themselves and others being refused, if and only if fewer than limit of all admissions so far, recorded or still to be recorded, are then in its window. |
| `RateLimit.PatientRetryPassesIff` | app/core/rate_limit.py:53-60 | So whoever waits exactly Retry-After seconds passes in every such run if and only if fewer than limit of all admissions so far are then still in the window. |
| `RateLimit.RetrySucceeds` | app/core/rate_limit.py:53-60 | If nobody else is under way at the refusal, whoever waits Retry-After seconds is admitted, in every run in which nobody is admitted in between. |
| `RateLimit.RetryCanFailWithTwoCallers` | app/core/rate_limit.py:53-60 | With two callers under way that promise fails: the concrete run. |
| `RateLimit.Bucket.CheckAndRecord` | app/core/rate_limit.py:31-67 | Sequential refinement: the bucket admits exactly when the full, never pruned history has room, and a refused caller learns the number of whole seconds until the oldest admission of the window has left it, after which it has room. |
| `TextChunker.ChunkText` | app/services/jdr/text_chunker.py:18-50 | The loop computes the recursive splitting, its test for an empty head never fails, and it always leaves through the short branch. |
| `TextChunker.ChunksDecompose` | app/services/jdr/text_chunker.py:18-50 | The stripped text is its chunks interleaved with whitespace; every chunk is non-empty, stripped and at most max_chars long; a gap is empty only after a full window without a boundary. |
| `TextChunker.WordsSurviveIffNoGapEmpty` | app/services/jdr/text_chunker.py:18-50 | However the gaps are chosen, the chunks say every word of the text, whole and in order, if and only if none of them is empty. |
| `TextChunker.WordsSurviveWithoutTightStretch` | app/services/jdr/text_chunker.py:38-48 | A condition on the input: if no stretch of max_chars characters starts with a non-whitespace, has no boundary, and ends inside a word, every word survives and no gap is empty. |
| `TextChunker.SurvivingWordsFit` | app/services/jdr/text_chunker.py:40-48 | For every text: if all words survive, none is longer than max_chars. |
| `TextChunker.PlainWordsSurviveIff` | app/services/jdr/text_chunker.py:18-50 | For every text whose only whitespace is the space: all words survive if and only if none is longer than max_chars. |
| `TextChunker.Round` | app/services/jdr/text_chunker.py:44-48 | In every round the head is not empty and what remains is strictly shorter and not empty. |
| `TextChunker.CutIsAtBestBoundary` | app/services/jdr/text_chunker.py:59-79 | The cut follows the rightmost boundary of the best kind in the window; it separates two non-whitespace characters only when the window has no boundary. |
| `TextChunker.LastSentenceEnd` | app/services/jdr/text_chunker.py:67-71 | The last non-overlapping match is the rightmost occurrence. |
| `TextChunker.FindCutPoint` | app/services/jdr/text_chunker.py:53-79 | The branches of the search, by priority, within 1..max_chars. |
| `TextChunker.CutIsAsDocumentedIff` | app/services/jdr/text_chunker.py:18-28 | The documented third boundary is any whitespace, the code looks for the space: for every text the cuts agree if and only if a better boundary decides, or the last whitespace of the window is a space, or none counts, or it ends a window without a space. |
| `TextChunker.TabIsNotABoundary` | app/services/jdr/text_chunker.py:73-79 | A concrete text for which they differ: a tab is passed over and a word is split. |

## Left out

- The `jdr_jobs` projection rows, timestamps such as `edited_at` or `generated_at`, audio paths, hashes, durations and the preparation of the audio file: no state the properties depend on.
- Ownership checks on PJ ids, campaigns and GM keys, and the listing of other users' rows.
- Deleting a session, its abort of an active job, and the audio size limit of an upload.
- Prompts, campaign context, Markdown headers and footers, and the parsing of the elements a language model returns.
- The skip of an unknown PJ in the POV job: foreign keys forbid deleting a PJ that is still referenced.
- Internal API keys, last-login times, TTL choice and password strength of users; case folding beyond ASCII.
- The check of cloud model ids against the catalogue and the probe of a cloud key: they only refuse a PATCH.
- Redis, RQ, SQLAlchemy and FastAPI internals; metrics, logging and health checks.
- Error texts, except where one is the whole result.
- SummaryJob.GenerateSummary: speaks of one attempt with nothing in between; what a commit does after an interleaving is `SummaryJob.EverySwapWrites`.
- Transcription.TranscribeSession: speaks of one attempt with nothing in between; interleavings are the subject of `Lifecycle`.
