# Project G media pipeline: a Dafny model

Project G turns registered news articles into narrated videos. This project models the part of it that has to
stay right under concurrency, and the selection algorithms in front of it.

**The lease and fencing protocol.** Narration-audio and video workers claim a durable row with a conditional
UPDATE that takes a lease, counts the attempt and may take over a stale lease; work with no transaction open;
and record success or failure only if they still own the attempt. A parent media production changes in the same
transactions. Artifacts go to a write-once file store. `MediaTransactions` gives every database transaction on
the rows of one production; `MediaDatabase` runs the same transactions write by write against tables, with
rollback, and `DatabaseSteps` shows that these runs are the protocol's steps;
`FileStorage`, `NarrationArtifact` and `RenderArtifact` do the same for the store and the services that use it.
`MediaProtocol` is the whole system as a transition system: any number of workers, each with a program
counter and its remembered claim, interleaved at every transaction, every file access, and between the read and
the conditional UPDATE of a video completion. Timestamps, tool results and failures are parameters of the steps,
so a run may use any clocks, may deliver a job any number of times, and may crash a worker anywhere. A `Run` is a
sequence of states and steps; the theorems hold for every state of every run.

The proof is rely-guarantee in shape. `ProtocolInvariants` states what the world, the files and each worker
satisfy, and a two-state relation every step guarantees; `ProtocolProof` shows step by step that both hold;
`ProtocolTheorems`, `RowChanges`, `RunHistory`, `Provenance`, `RenderedVideos`, `CanonicalAudio`, `VideoConflicts`,
`Completions` and `VideoJobs` draw the results, `NonOwners` those for workers that were overtaken, `MediaIntake` those
for the creation of productions and `ScriptRows` and `ScriptHistory` those for scripts. `ClaimGuards` gives the claims on
any rows, also ones no run reaches; `WorkerMoves` says what other workers cannot change. `Clocks` adds what one clock
that never goes back guarantees. `Recovery`, `NarrationRecovery`, `Publishing` and `RefusedCompletions` show the other
side, that runs exist: ones that finish from anywhere, one for every score the gates let through, and ones that are
refused.

**The stages before.** `NewsGate` models metadata, relevance, priority and script records, each stage creating
its record only after the one before reached a status it never leaves, and is part of the protocol's world.
`MetadataEnrichment` is the joint machine of an article's metadata and its processing job.

**Selection.** `Ranking`, `ScriptEnqueue`, `DisplayEvidence`, `SourceMatching`, `QueryCanonical` and
`VideoScheduling` prove the loops of the source against functions, and then what the source promises about those
functions. `BatchSteps` and `BatchJobs` put a scheduled batch into the runs of the protocol, and `DueProductions` says
which productions the schedulers offer there: exactly those whose next attempt a worker could claim.

Findings, each a lemma with its exact condition:

- A worker that completes an attempt it still owns may be refused; it raises, and the attempt stays running until it
  goes stale. A video success is recorded exactly when the attempt and the parent both started no later than the
  instant the worker took, the artifact and its duration are real and the key fits its column; the read refuses on
  the attempt and the artifact, the write on the parent (`Completions.VideoSuccessReadIff`,
  `Completions.VideoSuccessWrittenIff`, `Completions.VideoSuccessIff`). `Completions.VideoFailureIff`,
  `Completions.NarrationSuccessIff` and `Completions.NarrationFailureIff` give the conditions of the other three
  completions; a narration success is the only one that does not look at the parent. The conditions are on the state
  the completion is called in: the parent keeps its start while the attempt runs (`RowChanges.ParentStartKept`).
  `RefusedCompletions` has a run for each completion that is refused. When all timestamps come from one clock that
  never goes back, each taken at any time since the worker's last step, no completion is refused for its timestamp
  (`Clocks`).
- A claim of a narration row is refused exactly when the row is missing, or when the row is still pending and the
  clock is behind the parent's creation (`Provenance.AudioClaimOutcome`, `RefusedCompletions.NarrationClaimIsRefused`).
- The enrichment services can fail after the metadata was written exactly when another process had started the
  job later than the time the call works with; the transaction then rolls back (`MetadataEnrichment.HalfWrittenIff`).
  Starting the job by its own service with a clock ahead reaches this (`MetadataEnrichment.HalfWrittenHappens`); with
  one clock it is never reached (`MetadataEnrichment.NeverHalfWrittenInOrder`).
- A script job chosen before any script row existed meets the ranking-score mismatch exactly when a row of its
  article with another score was stored in between (`ScriptEnqueue.FreshScoreStandsIff`), which happens whenever two
  selections rank one article differently (`ScriptEnqueue.LaterScoreRefused`).
- A video worker runs into a storage conflict exactly when it checks a place where content with another digest lay
  before the run; its link never loses (`VideoConflicts.ConflictIff`, `VideoConflicts.NeverRechecks`).
  `RefusedCompletions.ConflictHappens` is a run that meets one.
- A narration can be finished from where it stands exactly when its key is acceptable and fits, its place holds no
  empty file, and it holds a file or the provider is the supported one (`NarrationRecovery.NarrationRecoverableIff`).
- A batch whose settings stay the same fails exactly when the settings are unusable and a candidate lacks its row;
  one production never blocks another (`BatchJobs.BatchSucceedsIff`).
- `record_generated()` alone may lower `updated_at`, exactly when it completes between the start and the last write;
  rows stamped by the repository's statements never have such an interval
  (`VideoRepository.SuccessLowersUpdatedAtIff`).
- A script may be GENERATED without a closing, and then never gets a media production, because the intake query asks for
  one (`MediaIntake.CreatedIff`).
- The script claim statement clears `character_dialogue`, which `start()` does not; the two agree on a row exactly
  when it stores none, which validity ensures (`ScriptGenerations.ClaimAgreesIffNoDialogue`).

Assumptions. Every `with factory.begin()` block commits or aborts whole, and transactions on the same production
do not interleave, except the video completion, which is split as described. SHA-256 is an arbitrary function into
64 hexadecimal digits. Instants are integers. The store may hold any files before a run. Every production has one
audio and one video version, as the scheduler runs it (`src/project_g/interfaces/scheduler/service.py`).

`dafny verify dfyconfig.toml` checks everything.

## Model

| member | source | states |
|---|---|---|
| ProtocolTheorems.JointState | src/project_g/interfaces/workers/jobs.py:1499-1757 | in every state of every run: parent READY iff video GENERATED; PROCESSING iff audio GENERATING, or GENERATED with the video absent, PENDING or GENERATING; FAILED iff a child FAILED; a video exists only after a GENERATED audio |
| ProtocolProof.RunKeeps | src/project_g/interfaces/workers/jobs.py:961-1250 | the full invariant of rows, files, claims and every worker's knowledge holds in every state of every run |
| ProtocolProof.StepKeeps | src/project_g/interfaces/workers/jobs.py:1521-1746 | each single step keeps the invariant and only moves rows, files, claims and outcomes forward |
| ProtocolProof.RunEvolves | src/project_g/interfaces/workers/jobs.py:1202-1241 | between any two states of a run nothing is taken back: decided stages, rows, files with their origin, claims, outcomes |
| ProtocolTheorems.RowsStayValid | src/project_g/domain/news/video_generation.py:228-425 | every reachable parent, audio and video row passes its own construction unchanged |
| ProtocolTheorems.RowsMoveForward | src/project_g/infrastructure/database/repositories/news_video_generations.py:283-336 | attempt numbers and updated_at never decrease, and a GENERATED row never changes again, under any clocks |
| ProtocolTheorems.RowsRefineDomain | src/project_g/infrastructure/database/repositories/news_video_generations.py:102-229 | whatever one step does to a video row is start, mark_failed followed by start, record_generated or mark_failed on the row as it is then |
| ProtocolTheorems.AudioRowsRefineDomain | src/project_g/infrastructure/database/repositories/news_narration_audio_generations.py:131-194 | the same for narration rows, whose completions are read and written in one transaction |
| ProtocolTheorems.ClaimsAreUnique | src/project_g/infrastructure/database/repositories/news_video_generations.py:263-336 | over a whole run an attempt is claimed by at most one worker |
| ProtocolTheorems.ClaimsAreKept | src/project_g/interfaces/workers/jobs.py:1521-1609 | a worker keeps its claim, and its outcome once it has one |
| ProtocolTheorems.OnlyClaimantEndsVideoAttempt | src/project_g/infrastructure/database/repositories/news_video_generations.py:137-168 | a video attempt becomes GENERATED or FAILED only by its claimant's own statement, on exactly the row it claimed, however many steps of others lie between its read and its write |
| ProtocolTheorems.OnlyClaimantEndsAudioAttempt | src/project_g/interfaces/workers/jobs.py:1137-1179 | a narration attempt becomes GENERATED only by a success and FAILED only by a failure statement of its claimant, on exactly the row it claimed and with its attempt number |
| ProtocolTheorems.OneSuccess | src/project_g/interfaces/workers/jobs.py:1715-1757 | at most one worker of a production ever reports a generated video, and at most one a generated audio |
| ProtocolTheorems.SuccessIsRecorded | src/project_g/interfaces/workers/jobs.py:1236-1250 | what a successful worker reported is what the record says, with the parent READY after a video |
| ProtocolTheorems.RecordsAgreeWithStorage | src/project_g/interfaces/workers/jobs.py:1087-1127 | a GENERATED row names its canonical key, and the stored bytes have the recorded digest and size |
| ProtocolTheorems.StoreIsWriteOnce | src/project_g/infrastructure/storage/local_video.py:48-109 | no stored file ever changes or disappears |
| ProtocolTheorems.NoVideoConflict | src/project_g/application/news/render_news_video_artifact.py:111-124 | no video worker finds its target taken, or sees any storage error other than empty renderer output, unless a file lay at its attempt's place before the run |
| VideoConflicts.ConflictIff | src/project_g/application/news/render_news_video_artifact.py:111-124 | a step takes a video worker to a storage conflict exactly when it is the worker's check, the worker brings content, and content with another digest lay at its attempt's place before the run |
| VideoConflicts.CheckOutcome | src/project_g/infrastructure/storage/local_video.py:65-75 | a video worker's check depends on the files before the run alone: failure for empty content, a free place, the stored artifact for equal content, a conflict for other content |
| VideoConflicts.NeverRechecks | src/project_g/infrastructure/storage/local_video.py:84-100 | a video worker's link never meets an existing file |
| RefusedCompletions.ConflictHappens | src/project_g/infrastructure/storage/local_video.py:132-152 | a run from a store with other content at the place of the first attempt, in which the video worker meets the conflict |
| RunHistory.VideoAttempts | src/project_g/infrastructure/database/repositories/news_video_generations.py:283-325 | attempt_count is 1 plus restarted failures plus takeovers counted over the run, and takeovers times the timeout fits between the first and the last start |
| RunHistory.AudioAttempts | src/project_g/infrastructure/database/repositories/news_narration_audio_generations.py:147-184 | the same accounting for narration rows |
| RunHistory.ParentAttempts | src/project_g/domain/news/media_production.py:85-140 | the parent's attempt_count is 1 plus the recorded audio and video failures that were restarted; takeovers never change it |
| RowChanges.StepChanges | src/project_g/interfaces/workers/jobs.py:1577-1609 | the complete list of what one step can do to an audio or a video row, including the preparation that adds it with the requested configuration, and which worker can do it |
| RowChanges.StepParent | src/project_g/domain/news/media_production.py:85-144 | the complete list of what one step can do to a parent row: intake creates it, a claim starts it, a completion of a worker of the production makes it READY or FAILED |
| Provenance.VideoIsTraced | src/project_g/application/news/render_news_video_artifact.py:65-124 | a GENERATED video was rendered in its own attempt from the stored audio bytes both records name by digest, and that audio was synthesised from the stripped narration of the GENERATED script, each unless its file lay there before the run |
| RenderedVideos.VideoWasRendered | src/project_g/application/news/render_news_video_artifact.py:96-131 | every GENERATED video names the digest and the duration of what the renderer gave the worker of that attempt in one earlier step of the run |
| Provenance.SourceGuardsNeverFire | src/project_g/application/news/render_news_video_artifact.py:49-94 | none of the renderer's checks of the claim, the source record or the source bytes can fail in a run |
| Provenance.AudioClaimOutcome | src/project_g/interfaces/workers/jobs.py:961-1055 | what a narration claim does in any reachable state; the guards on parent, script, narration and digest never fire |
| Provenance.VideoClaimOutcome | src/project_g/interfaces/workers/jobs.py:1531-1609 | what a video claim does in any reachable state; no guard on parent or source ever fires |
| ClaimGuards.NarrationHandedOutIff | src/project_g/interfaces/workers/jobs.py:961-1055 | on any rows, also ones no run reaches: a narration is handed out exactly when its row is free, the script is GENERATED and its stripped narration has the digest the row names, and the parent is PROCESSING or can start; otherwise no row is written |
| ClaimGuards.VideoHandedOutIff | src/project_g/interfaces/workers/jobs.py:1531-1609 | on any rows: a video is handed out exactly when its row is free and counts the attempt before, the narration it names is GENERATED with that id and digest, and the parent is PROCESSING or can start; otherwise no row is written |
| ClaimGuards.NewRowSpeaksScript | src/project_g/application/news/prepare_news_narration_audio_jobs.py:76-113 | the row a narration preparation adds is one a claim accepts for the same script, whatever space surrounds the narration |
| ClaimGuards.NoJobForGenerated | src/project_g/application/news/prepare_news_video_jobs.py:107-122 | on any rows a video job is for a row that is not GENERATED and for its next attempt |
| Completions.VideoSuccessReadIff | src/project_g/infrastructure/database/repositories/news_video_generations.py:102-135 | the read of an owner's success goes on exactly when the attempt started no later than its instant, the artifact and duration are positive and the key fits; otherwise it raises and changes nothing |
| Completions.VideoSuccessWrittenIff | src/project_g/interfaces/workers/jobs.py:1732-1746 | the write of an owner's success is recorded exactly when the parent started no later than its instant, and leaves the record computed at the read; otherwise it raises and changes nothing |
| Completions.VideoSuccessIff | src/project_g/interfaces/workers/jobs.py:1710-1746 | with any steps of others in between, an owner's read and write record the video exactly when, at the read, the attempt and the parent had started no later than the instant, the artifact and duration are positive and the key fits |
| Completions.VideoFailureIff | src/project_g/interfaces/workers/jobs.py:1658-1686 | an owner's video failure is recorded exactly when, at the read, the attempt and the parent had started no later than the instant and the reason fits |
| Completions.NarrationSuccessIff | src/project_g/interfaces/workers/jobs.py:1202-1241 | an owner's narration success is recorded exactly when the attempt started no later than the instant, the artifact is not empty and the key fits; the parent does not matter |
| Completions.NarrationFailureIff | src/project_g/interfaces/workers/jobs.py:1137-1179 | an owner's narration failure is recorded, with the parent FAILED and the worker's cause reported, exactly when the attempt and the parent started no later than the instant and the reason fits; otherwise it raises and changes nothing |
| NonOwners.NarrationSuccessTooLate | src/project_g/interfaces/workers/jobs.py:1210-1229 | a narration success of a worker that no longer owns its attempt changes nothing; it reports another attempt's narration exactly when the row is GENERATED, and otherwise that it was superseded |
| NonOwners.NarrationFailureTooLate | src/project_g/interfaces/workers/jobs.py:1137-1179 | a narration failure of a worker that no longer owns its attempt changes nothing and ends superseded, whatever the row has become |
| NonOwners.VideoSuccessReadTooLate | src/project_g/interfaces/workers/jobs.py:1710-1730 | the read of a video success, likewise |
| NonOwners.VideoSuccessWrittenTooLate | src/project_g/infrastructure/database/repositories/news_video_generations.py:137-168 | the statement of a video success whose attempt was taken over after its read, likewise; it never raises |
| NonOwners.VideoFailureReadTooLate | src/project_g/interfaces/workers/jobs.py:1658-1686 | the read of a video failure, likewise |
| NonOwners.VideoFailureWrittenTooLate | src/project_g/infrastructure/database/repositories/news_video_generations.py:197-229 | the statement of a video failure, likewise |
| NonOwners.CrashOnlyStops | src/project_g/interfaces/workers/jobs.py:1250-1253 | a worker may stop anywhere; its attempt and everything else stay as they are |
| RowChanges.ParentStartKept | src/project_g/domain/news/media_production.py:85-109 | between two states in which the same video or narration attempt runs, the parent keeps its start |
| RefusedCompletions.ReadIsRefused | src/project_g/infrastructure/database/repositories/news_video_generations.py:126-135 | a run in which an owner with a good film is refused by the read, because its clock is behind the attempt's start |
| RefusedCompletions.WriteIsRefused | src/project_g/interfaces/workers/jobs.py:1742-1746 | a run in which an owner with a good film is refused by the write, because its clock is behind the parent's start |
| RefusedCompletions.FailureIsRefused | src/project_g/interfaces/workers/jobs.py:1658-1686 | a run in which an owner cannot record its failure, because its clock is behind the parent's start |
| RefusedCompletions.NarrationSuccessIsRefused | src/project_g/interfaces/workers/jobs.py:1202-1241 | a run in which an owner with a stored narration is refused, because its clock is behind the attempt's start |
| RefusedCompletions.NarrationFailureIsRefused | src/project_g/interfaces/workers/jobs.py:1137-1179 | a run in which an owner cannot record that its narration failed |
| RefusedCompletions.NarrationClaimIsRefused | src/project_g/interfaces/workers/jobs.py:961-1055 | a run after which a narration claim raises, because its clock is behind the parent's creation |
| Clocks.StampsWithin | src/project_g/interfaces/workers/jobs.py:1521-1746 | when the instants come from one clock that never goes back, each taken at any time between its worker's last step and the step that uses it, no row of any production is stamped later than the clock |
| Clocks.NarrationClaimNeverLate | src/project_g/interfaces/workers/jobs.py:961-1055 | under such a clock a narration claim with the present time raises only when the row is missing |
| Clocks.VideoSuccessOnTime | src/project_g/interfaces/workers/jobs.py:1710-1746 | under such a clock an owner's video success is recorded exactly when its artifact and duration are positive and the key fits |
| Clocks.VideoFailureOnTime | src/project_g/interfaces/workers/jobs.py:1658-1686 | under such a clock an owner's video failure is recorded exactly when its reason fits |
| Clocks.NarrationSuccessOnTime | src/project_g/interfaces/workers/jobs.py:1202-1241 | likewise an owner's narration success exactly when its artifact is not empty and the key fits |
| Clocks.NarrationFailureOnTime | src/project_g/interfaces/workers/jobs.py:1137-1179 | likewise an owner's narration failure exactly when its reason fits |
| Clocks.JobClaimableOnTime | src/project_g/application/news/prepare_news_video_jobs.py:82-122 | under such a clock a prepared job can be claimed at any later time exactly while its row still counts the attempt before and is not GENERATED |
| MediaIntake.CreatedIff | src/project_g/infrastructure/database/repositories/news_media_intake_candidates.py:28-60 | in every state of every run a fresh id gets a production exactly for a GENERATED script with a closing and without a production of that version; the exact rows it starts with |
| MediaIntake.OneProductionEach | src/project_g/application/news/create_media_production_intakes.py:65-82 | no two productions of any run have one script and version |
| Provenance.OnlyGatedArticles | src/project_g/interfaces/workers/jobs.py:1286-1352 | every media production belongs to an article with EXTRACTED or MANUAL metadata, a title, a publication time, relevance at least 40, finished priority and a GENERATED script |
| Provenance.NothingForRejected | src/project_g/interfaces/workers/jobs.py:210-310 | once an article is rejected, no later state holds a priority record, a script or a media production for it |
| CanonicalAudio.OneCanonicalAudio | src/project_g/interfaces/workers/jobs.py:1087-1127 | at any two moments any two narration workers of a production that hold an artifact hold the same key, size and hash |
| CanonicalAudio.NeverSynthesizes | src/project_g/interfaces/workers/jobs.py:1096-1102 | an attempt that has not looked by the time the canonical file exists never calls the synthesiser |
| CanonicalAudio.LoserNeverSucceeds | src/project_g/infrastructure/storage/local_audio.py:82-130 | a worker whose link lost against other content can only record the conflict, be superseded or stop |
| Recovery.AlwaysRecoverable | src/project_g/interfaces/workers/jobs.py:1577-1757 | from every state of every run, whatever lay in the store before, an unfinished ffmpeg/mp4 video whose later keys fit can still be taken over, rendered and recorded, ending GENERATED with the parent READY |
| Recovery.RecoverableAt | src/project_g/interfaces/workers/jobs.py:1577-1757 | in particular at any later attempt whose key fits and whose place was free, after the attempts before it are abandoned |
| NarrationRecovery.NarrationAlwaysRecoverable | src/project_g/interfaces/workers/jobs.py:961-1250 | from every state of every run an unfinished narration whose key is acceptable and fits, whose place holds no empty file, and which has a file there or the supported provider, can still be taken over and ends GENERATED, with the stored file if there is one and a new one otherwise |
| NarrationRecovery.NarrationRecoverableIff | src/project_g/interfaces/workers/jobs.py:1079-1126 | these conditions are exact: if any of them fails, no continuation of the run ends with the narration GENERATED |
| Publishing.Publishes | src/project_g/interfaces/workers/jobs.py:934-1757 | for every score from 40 to 100, any outputs of the speech tool and the renderer, and any store in which the production's first two places are free, a run takes an article from registration to a GENERATED video |
| Publishing.ScoreDecides | src/project_g/application/news/relevance_policy.py:9-21 | some run ends with a GENERATED video of an article with a given relevance score iff that score lies in 40..100 |
| VideoJobs.JobClaimableIff | src/project_g/application/news/prepare_news_video_jobs.py:82-122 | a prepared job can be claimed later with its next_attempt_number exactly while the row still counts the attempt before, is not GENERATED, and the clock is not behind it |
| VideoJobs.OneWinner | src/project_g/infrastructure/database/repositories/news_video_generations.py:300-313 | of all workers holding a job the first successful claim keeps it; every later try with that number changes nothing |
| VideoJobs.ReprepareNeverMismatches | src/project_g/application/news/manage_news_video_generation.py:167-201 | with unchanged settings, preparing again never raises a configuration mismatch |
| VideoScheduling.VideoScheduler.ListCandidates | src/project_g/infrastructure/database/repositories/news_video_candidates.py:113-135 | the scan returns the first limit candidates by creation time and id, and refuses a limit outside 1..50; `DueProductions.ScanListsOldestDue` says which productions these are |
| VideoScheduling.VideoScheduler.Execute | src/project_g/application/news/prepare_news_video_jobs.py:54-128 | the scan and its batch are one transaction, all or nothing; its rows and jobs are those of preparing the candidates of the scan in turn |
| VideoScheduling.BatchSpec | src/project_g/application/news/prepare_news_video_jobs.py:82-122 | every candidate of a scan becomes one job in order, each production gets what its own preparation gives, all others stay, and the batch fails exactly when one preparation fails |
| VideoScheduling.OldestFirst | src/project_g/infrastructure/database/repositories/news_video_candidates.py:95-135 | a candidate left out for the limit is younger than every candidate taken |
| VideoScheduling.QueryOrderIsUnique | src/project_g/infrastructure/database/repositories/news_video_candidates.py:107-110 | creation time and id leave exactly one order of the productions |
| DueProductions.CandidateIff | src/project_g/infrastructure/database/repositories/news_video_candidates.py:65-101 | in every state of every run, unless the clock is behind the video row: a production is a candidate exactly when its narration is GENERATED and it has no video row yet or some attempt at its video can be claimed now |
| DueProductions.ScanListsOldestDue | src/project_g/infrastructure/database/repositories/news_video_candidates.py:77-135 | the scan of any state of a run lists the oldest productions whose video is due: none that is not, none left out but for the limit |
| DueProductions.ScanOnTime | src/project_g/infrastructure/database/repositories/news_video_candidates.py:77-135 | under one clock, at the present time, without any condition on the rows |
| DueProductions.VideoJobIff | src/project_g/application/news/manage_news_video_generation.py:31-98 | what preparing a video does in any state of a run: nothing unless it is due, otherwise a job for the next attempt; settings other than the stored ones in normal form are refused and change nothing |
| DueProductions.NarrationJobIff | src/project_g/application/news/manage_news_narration_audio_generation.py:58-117 | the same for a narration: due exactly when there is no row yet or a worker could claim it now; a different provider, model, voice or format is refused |
| BatchSteps.BatchIsSteps | src/project_g/application/news/prepare_news_video_jobs.py:54-128 | from any state of any run, a batch that succeeds is a stretch of preparation steps, one for each candidate of its scan, with the same rows and jobs |
| BatchJobs.BatchSucceedsIff | src/project_g/application/news/prepare_news_video_jobs.py:82-122 | as long as the settings stay the same, a batch succeeds exactly when they are usable or every candidate already has its row |
| BatchJobs.BatchJobClaimableIff | src/project_g/application/news/prepare_news_video_jobs.py:107-122 | every job of a batch can be claimed later exactly while its row still counts the attempt before, is not GENERATED, and the clock is not behind it |
| BatchJobs.BatchJobClaimableOnTime | src/project_g/application/news/prepare_news_video_jobs.py:107-122 | under one clock, exactly while its row still counts the attempt before and is not GENERATED |
| MediaDatabase.Database.ClaimAudio | src/project_g/interfaces/workers/jobs.py:961-1055 | the claim transaction commits or rolls back as specified and touches no other production |
| MediaDatabase.Database.ClaimVideo | src/project_g/interfaces/workers/jobs.py:1531-1609 | likewise for the video claim with its expected attempt |
| MediaDatabase.Database.RecordAudioSuccess | src/project_g/interfaces/workers/jobs.py:1202-1241 | success is recorded only for the running attempt; a GENERATED row answers already generated, any other row superseded, a missing one not found, and nothing is written then |
| MediaDatabase.Database.RecordAudioFailure | src/project_g/interfaces/workers/jobs.py:1137-1179 | a failure of the running attempt is recorded together with its parent's, or not at all; any other attempt is superseded |
| MediaDatabase.Database.RecordVideoSuccess | src/project_g/interfaces/workers/jobs.py:1710-1746 | GENERATED and READY are written together or not at all; an attempt that is not the running one is superseded |
| MediaDatabase.Database.RecordVideoFailure | src/project_g/interfaces/workers/jobs.py:1658-1686 | a video failure and its parent's are written together or not at all; an attempt that is not the running one is superseded |
| DatabaseSteps.ClaimAudioIsStep | src/project_g/interfaces/workers/jobs.py:961-1055 | a narration claim run against the tables leaves the tables of the protocol's next state, and a new worker holds exactly the claim it returned |
| DatabaseSteps.ClaimVideoIsStep | src/project_g/interfaces/workers/jobs.py:1531-1609 | the same for a video claim |
| DatabaseSteps.RecordAudioIsStep | src/project_g/interfaces/workers/jobs.py:1202-1241 | a narration success run against the tables is the protocol's step, outcome included |
| DatabaseSteps.FailAudioIsStep | src/project_g/interfaces/workers/jobs.py:1137-1179 | the same for a narration failure |
| DatabaseSteps.VideoSuccessIsSteps | src/project_g/interfaces/workers/jobs.py:1710-1746 | a video success run against the tables is the protocol's read and write with nothing in between |
| DatabaseSteps.VideoFailureIsSteps | src/project_g/interfaces/workers/jobs.py:1658-1686 | the same for a video failure |
| MediaInvariants.ClaimVideoKeeps | src/project_g/interfaces/workers/jobs.py:1577-1609 | a video claim keeps validity, the joint state and both accounts, and claims exactly the next attempt |
| MediaInvariants.UpdateSuccessKeeps | src/project_g/infrastructure/database/repositories/news_video_generations.py:137-168 | a success statement computed from an earlier read keeps all of it on the row it meets |
| MediaInvariants.UpdateFailureKeeps | src/project_g/infrastructure/database/repositories/news_video_generations.py:197-229 | likewise for the failure statement |
| VideoRepository.ClaimRefinesStart | src/project_g/infrastructure/database/repositories/news_video_generations.py:283-325 | a claim of a PENDING or FAILED row happens iff start() succeeds, with its result |
| VideoRepository.TakeoverRefinesFailThenStart | src/project_g/infrastructure/database/repositories/news_video_generations.py:283-325 | a running row is taken over iff it started no later than stale_before and was not written later than the claim; the takeover is mark_failed then start, for exactly the failure instants between the two starts |
| VideoRepository.SuccessRefinesRecordGenerated | src/project_g/infrastructure/database/repositories/news_video_generations.py:102-168 | a success statement that still matches writes record_generated() of the row as it is now |
| VideoRepository.FailureRefinesMarkFailed | src/project_g/infrastructure/database/repositories/news_video_generations.py:170-229 | a failure statement that still matches writes mark_failed() of the row as it is now |
| VideoRepository.SuccessLowersUpdatedAtIff | src/project_g/domain/news/video_generation.py:181-202 | exactly when the success transition would lower updated_at, and that stamped rows exclude it |
| VideoRepository.SameAttemptUnchanged | src/project_g/infrastructure/database/repositories/news_video_generations.py:137-139 | GENERATING seen twice with the same attempt means the row did not change in between |
| VideoRepository.VideoGenerationRepository.Add | src/project_g/infrastructure/database/repositories/news_video_generations.py:30-57 | one row per media version and per id; a clash changes nothing |
| VideoRepository.VideoGenerationRepository.ClaimByMediaProductionVersion | src/project_g/infrastructure/database/repositories/news_video_generations.py:263-336 | the claim changes the one claimable row it names |
| VideoRepository.VideoGenerationRepository.RecordGeneratedIfCurrent | src/project_g/infrastructure/database/repositories/news_video_generations.py:102-168 | success is written exactly for the current attempt and holds the domain transition's result |
| VideoRepository.VideoGenerationRepository.MarkFailedIfCurrent | src/project_g/infrastructure/database/repositories/news_video_generations.py:170-229 | failure likewise |
| AudioRepository.ClaimRefinesStart | src/project_g/infrastructure/database/repositories/news_narration_audio_generations.py:147-194 | a narration claim of a PENDING or FAILED row is start() |
| AudioRepository.TakeoverRefinesFailThenStart | src/project_g/infrastructure/database/repositories/news_narration_audio_generations.py:147-194 | the same for a narration row |
| AudioRepository.NarrationAudioRepository.ClaimByMediaProductionVersion | src/project_g/infrastructure/database/repositories/news_narration_audio_generations.py:131-194 | the claim changes the one claimable row it names |
| AudioRepository.NarrationAudioRepository.Update | src/project_g/infrastructure/database/repositories/news_narration_audio_generations.py:59-97 | the update replaces the row with that id, or reports it missing |
| ScriptGenerations.ClaimRefinesStart | src/project_g/infrastructure/database/repositories/news_script_generations.py:147-198 | a script claim of a PENDING or FAILED row is start(), although it also clears the dialogue |
| ScriptGenerations.TakeoverRefinesFailThenStart | src/project_g/infrastructure/database/repositories/news_script_generations.py:147-198 | the same for a script row |
| ScriptGenerations.ClaimAgreesIffNoDialogue | src/project_g/infrastructure/database/repositories/news_script_generations.py:163-189 | the statement and start() agree on a row iff it stores no dialogue, which validity gives outside GENERATED |
| ScriptGenerations.RecordGeneratedSpec | src/project_g/domain/news/script_generation.py:231-258 | a script is stored iff running since no later than the instant, with no blank text and one to six lines of dialogue if any; the exact record it leaves |
| ScriptGenerations.MarkFailedSpec | src/project_g/domain/news/script_generation.py:260-278 | a script fails iff running since no later than the instant, with a reason that fits; the exact record it leaves |
| ScriptRows.ClaimOutcome | src/project_g/infrastructure/database/repositories/news_script_generations.py:147-198 | the script transaction takes an article's row exactly when the ranking score is the stored one, the row is waiting, failed, or running for at least the timeout, and it was not written later; everything else stays |
| ScriptRows.FirstClaimOutcome | src/project_g/interfaces/workers/jobs.py:1340-1362 | without a row the transaction adds one with the requested score and takes it, unless it was prepared later than it is claimed |
| ScriptRows.ResultOutcome | src/project_g/application/news/manage_news_script_generation.py:127-165 | a script result is stored exactly while the row runs, no earlier than its start, with an output that fits; each text in its own column |
| ScriptRows.ScriptFailureOutcome | src/project_g/domain/news/script_generation.py:260-278 | a script failure is stored exactly while the row runs, no earlier than its start, with a reason that fits |
| ScriptRows.StageChange | src/project_g/interfaces/workers/jobs.py:1286-1475 | the complete list of what a step of any stage can do to a script row |
| ScriptHistory.ScriptAttempts | src/project_g/infrastructure/database/repositories/news_script_generations.py:147-198 | over whole runs, a script row counts 1 plus restarted failures plus takeovers, and takeovers times the timeout fits between the first and the last start |
| VideoGenerations.PostInitSpec | src/project_g/domain/news/video_generation.py:228-425 | construction returns valid records and leaves exactly the valid ones unchanged |
| VideoGenerations.StatusTells | src/project_g/domain/news/video_generation.py:228-425 | the status of a valid record decides which columns are set; its instants are in order |
| VideoGenerations.RecordGeneratedSpec | src/project_g/domain/news/video_generation.py:181-202 | success is accepted iff running, with a real artifact, not before the start |
| VideoGenerations.MarkFailedSpec | src/project_g/domain/news/video_generation.py:204-226 | failure is accepted iff running, with a reason, not before the start |
| VideoGenerations.NewPendingSpec | src/project_g/domain/news/video_generation.py:112-149 | a new record carries the requested settings in normal form, each in its own field, and counts no attempt |
| NarrationAudios.PostInitSpec | src/project_g/domain/news/narration_audio.py:220-417 | the same projection property for narration records |
| NarrationAudios.StatusTells | src/project_g/domain/news/narration_audio.py:220-417 | the same for narration records |
| NarrationAudios.NewPendingSpec | src/project_g/domain/news/narration_audio.py:112-145 | a new narration record carries provider, model, voice, format and text digest in normal form, each in its own field |
| MediaProductions.StartSpec | src/project_g/domain/news/media_production.py:85-109 | a parent starts iff PENDING or FAILED and not before its last change |
| MediaProductions.MarkReadySpec | src/project_g/domain/news/media_production.py:111-124 | a parent becomes READY iff PROCESSING and not before its start |
| MediaProductions.MarkFailedSpec | src/project_g/domain/news/media_production.py:126-144 | a parent fails iff PROCESSING, with a reason, not before its start |
| FileStorage.LocalFileStorage.Write | src/project_g/infrastructure/storage/local_video.py:48-109 | however other writers link files around it, a write leaves the store and reports the result that WriteSpec describes, and no temporary file |
| FileStorage.WriteSpec | src/project_g/infrastructure/storage/local_video.py:48-109 | whoever links the target first wins; no file is replaced, none appears that nobody linked whole; the write fails exactly on empty data, a bad key, or a winner with another digest, and otherwise reports the content that lies there; it never finds the target gone |
| FileStorage.WrittenIsFound | src/project_g/infrastructure/storage/local_audio.py:25-65 | what a write reported is what every lookup of the key finds from then on, whatever else is linked |
| RenderArtifact.Execute | src/project_g/application/news/render_news_video_artifact.py:37-131 | the sequential service refuses exactly where the protocol's steps do, writes the rendering under the attempt's key while others link files, and then fails exactly when the rendering is empty, the key is bad or the first to link stored other content |
| RenderArtifact.RendersIff | src/project_g/application/news/render_news_video_artifact.py:49-94 | on any records and files: rendering starts exactly for the running attempt of an ffmpeg video whose GENERATED narration is the one it names by id, production and digest, stored with that digest |
| NarrationArtifact.Execute | src/project_g/interfaces/workers/jobs.py:1087-1127 | the sequential narration service reuses a stored artifact without calling the speech tool, otherwise writes the speech and fails exactly when it is empty, the key is bad or the first to link stored other content; what it returns is what a later attempt finds |
| StorageKeys.TargetForKeyIff | src/project_g/infrastructure/storage/local_video.py:111-130 | a key is accepted iff, stripped, it is not empty, holds no backslash, does not begin with a slash and has no component `..`; the target's components are the key's without empty ones and `.`, so it never leaves the root |
| StorageKeys.VideoKeyInjective | src/project_g/application/news/render_news_video_artifact.py:115-119 | the printed key determines media, version, attempt and format |
| StorageKeys.TargetOfVideoKey | src/project_g/infrastructure/storage/local_video.py:111-130 | the printed mp4 key is accepted and names its own five-component path |
| StorageKeys.VideoPathInjective | src/project_g/application/news/render_news_video_artifact.py:115-119 | different media, versions or attempts never share a file |
| StorageKeys.AudioTargetPlace | src/project_g/interfaces/workers/jobs.py:1087-1093 | an accepted audio key stays in its media's own directory, away from every video file |
| NewsGate.StepKeeps | src/project_g/interfaces/workers/jobs.py:237-262 | every stage keeps the gates and never takes back a decision |
| NewsGate.EligibleIff | src/project_g/application/news/relevance_policy.py:9-21 | an article goes on iff its score lies in 40..100 |
| NewsGate.StepKeepsOneScript | src/project_g/application/news/manage_news_script_generation.py:68-101 | no step of any stage gives an article a second script row |
| NewsGate.StepKeepsFiled | src/project_g/interfaces/workers/jobs.py:210-310 | no step of any stage files a record under another article |
| NewsGate.RelevanceOutcome | src/project_g/interfaces/workers/jobs.py:210-310 | on any records: when a relevance score is recorded, with which decision, and that exactly a score from 40 on adds the priority record |
| NewsGate.PriorityOutcome | src/project_g/interfaces/workers/jobs.py:312-349 | on any records: when a priority is recorded, and what it leaves |
| NewsGate.IntakeOutcome | src/project_g/application/news/register_collected_item.py:139-151 | registration adds both records of an article that has neither; what a metadata step leaves |
| NewsGate.FailureOutcome | src/project_g/domain/news/relevance_analysis.py:113-131 | an analysis fails exactly while it is pending, with a reason that fits |
| ArticleMetadatas.ApplySpec | src/project_g/domain/news/article_metadata.py:90-164 | a metadata transition goes through iff allowed, not before the creation and with texts that fit; the exact record it leaves |
| RelevanceAnalyses.RecordAnalyzedSpec | src/project_g/domain/news/relevance_analysis.py:93-111 | a decision is recorded iff pending, with a score in 0..100 and a reason that fits; the exact record it leaves |
| ProcessingJobs.TransitionsSpec | src/project_g/domain/news/processing_job.py:65-121 | when a job starts, completes and fails, and the exact record each leaves |
| MetadataEnrichment.ReachablePairs | src/project_g/application/news/complete_metadata_enrichment.py:83-139 | registration followed by any calls reaches only the five joint states |
| MetadataEnrichment.StoresIff | src/project_g/application/news/complete_metadata_enrichment.py:84-139 | over all valid records a call goes through exactly when the metadata transition is allowed and the job is PENDING, or PROCESSING since no later than the call's time; entering data by hand for an unavailable article asks for a COMPLETED job instead |
| MetadataEnrichment.FirstCallStoresIff | src/project_g/application/news/complete_metadata_enrichment.py:101-139 | so the first call after registration goes through exactly when its metadata transition does |
| MetadataEnrichment.HalfWrittenIff | src/project_g/application/news/complete_metadata_enrichment.py:84-139 | exactly when the job update raises after the metadata was written |
| MetadataEnrichment.EventsKeepCoupled | src/project_g/application/news/manage_processing_jobs.py:20-111 | whatever enrichment calls and job services run after registration, finished metadata goes with a finished job |
| MetadataEnrichment.HalfWrittenHappens | src/project_g/application/news/manage_processing_jobs.py:20-40 | starting the job with a clock ahead of the enrichment call reaches the half-written case |
| MetadataEnrichment.NeverHalfWrittenInOrder | src/project_g/application/news/manage_processing_jobs.py:20-40 | with one clock for calls and job services it is never reached |
| MetadataEnrichment.EnrichmentServices.Execute | src/project_g/application/news/complete_metadata_enrichment.py:156-196 | both repositories end as the joint machine says, or unchanged |
| Ranking.ScoreRounds | src/project_g/domain/news/ranking.py:63-79 | the score exists iff the inputs lie in 0..100, stays there, and is within half a point of 15, 65 and 20 parts of relevance, priority and freshness in 100 |
| Ranking.ScoreMonotone | src/project_g/domain/news/ranking.py:63-79 | the score is monotone in each input |
| Ranking.FreshnessLimits | src/project_g/domain/news/ranking.py:26-60 | freshness is at least 100, 90, 75, 60, 30 exactly up to an age of 2, 6, 12, 24, 48 hours, and 0 for an undated article |
| Ranking.FreshnessMonotone | src/project_g/domain/news/ranking.py:26-60 | a later article is never less fresh, an undated one never fresher |
| Ranking.RankSpec | src/project_g/domain/news/ranking.py:82-122 | the ranking is a sorted permutation of the scored candidates and fails exactly on a score out of range |
| Ranking.RankOrder | src/project_g/domain/news/ranking.py:110-122 | of two entries of a ranking the first has the higher ranking score; with equal scores the higher priority; then the later publication, undated last; then the smaller id |
| Ranking.RankKeepsCandidates | src/project_g/domain/news/ranking.py:87-108 | without its scores a ranking is the given candidates, each as often; each score is that of the entry's own numbers |
| Ranking.RankIgnoresInputOrder | src/project_g/domain/news/ranking.py:110-122 | with distinct ids the ranking does not depend on the input order |
| Ranking.LaterComesFirst | src/project_g/domain/news/ranking.py:112-121 | with equal relevance and priority the later article comes first, undated ones last |
| Sorting.SortedUnique | src/project_g/domain/news/ranking.py:110-122 | under an antisymmetric order there is one sorted permutation |
| Sorting.StringLeSpec | src/project_g/domain/news/ranking.py:120 | the order of ids: the smaller character at the first difference, or a beginning of the other |
| ScriptEnqueue.Select | src/project_g/application/news/select_news_script_enqueue_candidates.py:36-90 | the loop returns the first limit qualifying entries in ranking order |
| ScriptEnqueue.ChosenIff | src/project_g/application/news/select_news_script_enqueue_candidates.py:55-88 | an entry of a ranking qualifies exactly when it scores enough, was published in the last 48 hours, and its script was never asked for, is PENDING or FAILED; the score it is enqueued with |
| ScriptEnqueue.ChosenIsFree | src/project_g/application/news/select_news_script_enqueue_candidates.py:77-88 | an article with a script row qualifies exactly when the script transaction would take that row without waiting for its lease |
| ScriptEnqueue.ChosenScoreStands | src/project_g/application/news/manage_news_script_generation.py:68-101 | a candidate chosen for an existing script row never meets the ranking-score mismatch later |
| ScriptEnqueue.FreshScoreStandsIff | src/project_g/application/news/manage_news_script_generation.py:185-199 | a candidate chosen without a row meets the mismatch exactly when a script row of its article with another score was stored since |
| ScriptEnqueue.LaterScoreRefused | src/project_g/application/news/manage_news_script_generation.py:185-199 | if two selections rank one article differently, the job that comes second meets the mismatch |
| DisplayEvidence.Select | src/project_g/application/news/select_script_display_evidence.py:5-59 | both branches return the first limit distinct facts of the turns of targets and comparisons followed by team context |
| DisplayEvidence.SelectionSize | src/project_g/application/news/select_script_display_evidence.py:22-59 | only given facts, none twice, as many as limit and distinct facts allow |
| DisplayEvidence.BothSidesShown | src/project_g/application/news/select_script_display_evidence.py:28-51 | a comparison shows both sides exactly when the limit is at least two |
| DisplayEvidence.SameRoleInOrder | src/project_g/application/news/select_script_display_evidence.py:22-59 | of two facts of one role the one given first is preferred: the other is shown only with it and after it |
| SourceMatching.MatchSource | src/project_g/application/news/manual_url.py:99-145 | the loop and the sort return what `Chosen` says: the one source with the longest matching path; no match and a tie are the only errors |
| SourceMatching.ChoiceIsUnique | src/project_g/application/news/manual_url.py:99-145 | the result is determined by the registered sources as a multiset, so their order does not matter |
| SourceMatching.ChosenIff | src/project_g/application/news/manual_url.py:99-145 | a URL is matched to a source exactly when it is registered once for the host, its path segments begin the URL's (or it is the Hochi exception), and every other source of the host that fits has a shorter path; unsupported exactly when none fits |
| SourceMatching.PathMatchesIff | src/project_g/application/news/manual_url.py:238-250 | the path test is a prefix test on whole path segments, and an empty source path matches all |
| SourceMatching.StripSlashesSpec | src/project_g/application/news/manual_url.py:243 | the source path loses exactly the slashes at its end |
| SourceMatching.HochiArticleIff | src/project_g/application/news/manual_url.py:17-20 | the exception is /articles/, eight digits, -OHT1T, one or more digits, .html |
| QueryCanonical.ParseEncode | src/project_g/application/news/manual_url.py:259-274 | reading a printed query gives back its pairs in order |
| QueryCanonical.CanonicalIdempotent | src/project_g/application/news/manual_url.py:253-277 | canonicalising twice changes nothing |
| QueryCanonical.CanonicalIff | src/project_g/application/news/manual_url.py:253-285 | two queries have one canonical form iff they carry the same multiset of non-tracking parameters |
| QueryCanonical.EscapeCaseIgnored | src/project_g/application/news/manual_url.py:259-274 | two queries that differ only in the case of escape digits have one canonical form |
| QueryCanonical.CanonicalInOrder | src/project_g/application/news/manual_url.py:267 | the canonical query lists its parameters by name, then by value, as strings |
| QueryCanonical.TrackingIgnored | src/project_g/application/news/manual_url.py:280-285 | one more parameter leaves the canonical query as it is exactly when its name, in any case, begins with utm_ or is one of the seven listed |
| Text.StripSpec | src/project_g/domain/news/video_generation.py:43-63 | normalisation takes off exactly the white space at either end |
| Text.LowerSpec | src/project_g/domain/news/video_generation.py:61 | lower case moves the letters A to Z by 32 and keeps everything else |
| Text.NormalizeSha256Iff | src/project_g/domain/news/video_generation.py:56-73 | a digest is accepted iff, stripped and in lower case, it is 64 of the sixteen hexadecimal digits |

## Left out

- Script generation fencing: `process_news_script` does not compare attempt numbers when it records a result, so a superseded worker may still record; when a claim takes a row, what else changes it and the attempt accounting are stated (`ScriptRows`, `ScriptHistory`).
- Isolation weaker than serialisable for the parent row and for narration completions: both are read and then written unconditionally, so the joint state rests on the atomicity assumption above.
- Several audio or video versions of one media production sharing a parent; the scheduler uses version 1 throughout.
- SQLAlchemy sessions, record mapping, migrations, unique-key races inside `prepare` beyond the existing-row path: library behaviour.
- Redis and RQ delivery, retries, job timeouts and locks: a worker may start any job at any time, any number of times.
- The speech, video, language-model and HTTP tools: their results and failures are step parameters.
- VideoScheduling.VideoScheduler.Execute: takes the new ids as an argument; a clash of ids and the foreign keys between the tables are not modelled.
- QueryCanonical.CanonicalIff: works on UTF-8 octets; the replacement of malformed UTF-8 and Unicode lower case are not modelled.
- SourceMatching.MatchSource: hosts come normalised; IDNA, ports, credentials and address checks of the URL are not modelled.
- Ranking.RankSpec: instants are whole microseconds rather than floating-point seconds and hours, and time zones are gone.
- FileStorage.LocalFileStorage.Write: symbolic links, directories in the place of a file, deletion of files from outside, and fsync are not modelled.
- DatabaseSteps.VideoSuccessIsSteps: the database runs a completion as one call; steps of others between its read and its write are covered in the protocol, not against the tables.
- Text normalisation uses ASCII white space and ASCII case.
- The intake loop of `create_media_production_intakes.py`, the narration scheduling loop and enqueueing counters: the single-production steps are in the protocol, the loops have the shape of the modelled video batch.
- Discovery, recovery jobs, the HTTP interface, CLI, settings and logging.
