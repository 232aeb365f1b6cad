// How one step of a run may change the rows of one production, and who may do it.

module RowChanges {
  import opened Wrappers
  import opened Text
  import opened FileStorage
  import opened MediaTransactions
  import opened MediaInvariants
  import opened MediaProtocol
  import opened ProtocolInvariants
  import opened ProtocolProof
  import opened RunHistory
  import Media = MediaProductions
  import Audio = NarrationAudios
  import Video = VideoGenerations
  import AudioTable = AudioRepository
  import VideoTable = VideoRepository

  // The worker's remembered claim is the row as it is now.
  predicate OwnsVideo(s: State, w: nat, m: string) {
    && w in s.workers && s.workers[w].media == m && s.workers[w].task.VideoTask?
    && VideoRow(s, m) == Some(s.workers[w].task.video)
    && s.workers[w].task.video.status.Generating? && s.workers[w].task.video.attemptCount == s.workers[w].attempt
  }

  predicate OwnsAudio(s: State, w: nat, m: string) {
    && w in s.workers && s.workers[w].media == m && s.workers[w].task.AudioTask?
    && AudioRow(s, m) == Some(s.workers[w].task.row)
    && s.workers[w].task.row.status.Generating? && s.workers[w].task.row.attemptCount == s.workers[w].attempt
  }

  // Everything a step can do to the video row of m, in the terms of the domain transitions.
  predicate VideoChange(env: Env, s: State, step: Step, s': State, m: string) {
    || VideoRow(s', m) == VideoRow(s, m)
    || (&& VideoRow(s, m).None? && VideoRow(s', m).Some?
        && step.PrepareVideoJob? && step.media == m && AudioRow(s, m).Some? && AudioRow(s, m).value.contentSha256.Some?
        && Video.NewPending(step.newId, m, SCHEDULED_VERSION, RequestFor(step.settings, AudioRow(s, m).value), step.at)
           == Ok(VideoRow(s', m).value))
    || (&& step.StartVideo? && step.media == m && VideoRow(s, m).Some?
        && VideoTable.Claimable(VideoRow(s, m).value, step.at, Some(step.at - env.timeout), Some(step.expected))
        && VideoRow(s', m) == Some(VideoTable.ClaimedRow(VideoRow(s, m).value, step.at)))
    || (&& step.WriteSuccess? && OwnsVideo(s, step.worker, m) && s.workers[step.worker].pc.Completing?
        && VideoRow(s', m).Some?
        && var pc := s.workers[step.worker].pc;
           Video.RecordGenerated(VideoRow(s, m).value, pc.artifact.storageKey, pc.artifact.byteSize,
                                 pc.artifact.contentSha256, pc.durationMs, pc.completedAt) == Ok(VideoRow(s', m).value))
    || (&& step.WriteFailure? && OwnsVideo(s, step.worker, m) && s.workers[step.worker].pc.RecordingFailure?
        && VideoRow(s', m).Some?
        && var pc := s.workers[step.worker].pc;
           Video.MarkFailed(VideoRow(s, m).value, pc.reason, pc.failedAt) == Ok(VideoRow(s', m).value))
  }

  predicate AudioChange(env: Env, s: State, step: Step, s': State, m: string) {
    || AudioRow(s', m) == AudioRow(s, m)
    || (&& AudioRow(s, m).None? && AudioRow(s', m).Some?
        && step.PrepareAudioJob? && step.media == m && m in s.world.entries && ScriptOf(s.world, m).Some?
        && NewAudio(env, s.world, step) == Ok(AudioRow(s', m).value))
    || (&& step.StartAudio? && step.media == m && AudioRow(s, m).Some?
        && AudioTable.Claimable(AudioRow(s, m).value, step.at, Some(step.at - env.timeout))
        && AudioRow(s', m) == Some(AudioTable.ClaimedRow(AudioRow(s, m).value, step.at)))
    || (&& step.RecordAudio? && OwnsAudio(s, step.worker, m) && s.workers[step.worker].pc.Stored?
        && AudioRow(s', m).Some?
        && var artifact := s.workers[step.worker].pc.artifact;
           Audio.RecordGenerated(AudioRow(s, m).value, artifact.storageKey, artifact.byteSize, artifact.contentSha256,
                                 step.at)
           == Ok(AudioRow(s', m).value))
    || (&& step.FailAudio? && OwnsAudio(s, step.worker, m) && AudioRow(s', m).Some?
        && Audio.MarkFailed(AudioRow(s, m).value, step.reason, step.at) == Ok(AudioRow(s', m).value))
  }

  // The narration record a preparation asks for: the requested settings and the digest of the script's narration.
  function NewAudio(env: Env, g: World, step: Step): Result<Audio.NarrationAudio, DomainError>
    requires step.PrepareAudioJob? && step.media in g.entries && ScriptOf(g, step.media).Some?
  {
    Audio.NewPending(step.newId, step.media, SCHEDULED_VERSION,
                     Audio.Configuration(step.provider, step.model, step.voice, step.audioFormat,
                                         env.textDigest(NarrationOf(ScriptOf(g, step.media).value))), step.at)
  }

  function MediaRow(s: State, m: string): Option<Media.MediaProduction> {
    if m in s.world.entries then Some(s.world.entries[m].rows.media) else None
  }

  // Everything a step can do to the parent row of m.
  predicate ParentChange(s: State, step: Step, s': State, m: string) {
    || MediaRow(s', m) == MediaRow(s, m)
    || (&& MediaRow(s, m).None? && MediaRow(s', m).Some? && step.CreateMedia? && step.media == m
        && Media.NewPending(m, step.scriptId, step.mediaVersion, step.at) == Ok(MediaRow(s', m).value))
    || (&& MediaRow(s, m).Some? && MediaRow(s', m).Some?
        && ParentTransition(s, step, m, MediaRow(s, m).value, MediaRow(s', m).value))
  }

  // A claim starts the parent; the completion of a worker of the production ends it.
  predicate ParentTransition(s: State, step: Step, m: string, before: Media.MediaProduction,
                             after: Media.MediaProduction)
  {
    || ((step.StartAudio? || step.StartVideo?) && step.media == m && Media.Start(before, step.at) == Ok(after))
    || (&& (step.FailAudio? || step.WriteSuccess? || step.WriteFailure?)
        && step.worker in s.workers && s.workers[step.worker].media == m
        && var pc := s.workers[step.worker].pc;
           || (step.FailAudio? && Media.MarkFailed(before, step.reason, step.at) == Ok(after))
           || (step.WriteSuccess? && pc.Completing? && Media.MarkReady(before, pc.completedAt) == Ok(after))
           || (step.WriteFailure? && pc.RecordingFailure?
               && Media.MarkFailed(before, pc.reason, pc.failedAt) == Ok(after)))
  }

  // ---- Preparation and claims ----

  // Intake adds productions without children; preparation adds a pending child or changes nothing.
  predicate NewChild(env: Env, g: World, step: Step, g': World, m: string) {
    && (m in g.entries ==>
          m in g'.entries && var rows, rows' := g.entries[m].rows, g'.entries[m].rows;
          || rows' == rows
          || (&& rows' == rows.(audio := rows'.audio) && rows.audio.None? && AudioIs(rows', Audio.Pending)
              && step.PrepareAudioJob? && step.media == m && ScriptOf(g, m).Some?
              && NewAudio(env, g, step) == Ok(rows'.audio.value))
          || (&& rows' == rows.(video := rows'.video) && rows.video.None? && VideoIs(rows', Video.Pending)
              && step.PrepareVideoJob? && step.media == m && rows.audio.Some? && rows.audio.value.contentSha256.Some?
              && Video.NewPending(step.newId, m, SCHEDULED_VERSION, RequestFor(step.settings, rows.audio.value),
                                  step.at)
                 == Ok(rows'.video.value)))
    && (m !in g.entries && m in g'.entries ==> g'.entries[m].rows.audio.None? && g'.entries[m].rows.video.None?)
  }

  lemma ScheduledNewChild(env: Env, g: World, step: Step, m: string)
    requires EnvOk(env) && WorldOk(env, g) && IsScheduling(step)
    ensures NewChild(env, g, step, Scheduled(env, g, step), m)
  {
    if m in g.entries && (step.PrepareAudioJob? || step.PrepareVideoJob?) && step.media == m {
      assert EntryOk(env, g, m);
      PreparedChange(env, g, step, m);
    } else {
      UnpreparedStays(env, g, step, m);
    }
  }

  lemma UnpreparedStays(env: Env, g: World, step: Step, m: string)
    requires IsScheduling(step)
    requires m in g.entries && (step.PrepareAudioJob? || step.PrepareVideoJob?) ==> step.media != m
    ensures NewChild(env, g, step, Scheduled(env, g, step), m)
  {
  }

  lemma ScheduledChange(env: Env, s: State, step: Step, m: string)
    requires EnvOk(env) && Inv(env, s) && IsScheduling(step)
    ensures var s' := s.(world := Scheduled(env, s.world, step));
      VideoChange(env, s, step, s', m) && AudioChange(env, s, step, s', m)
  {
    ScheduledNewChild(env, s.world, step, m);
    ScheduledWorld(env, s.world, step);
    assert EntryOk(env, Scheduled(env, s.world, step), m);
  }

  lemma PreparedChange(env: Env, g: World, step: Step, m: string)
    requires EnvOk(env) && m in g.entries && EntryOk(env, g, m)
    requires (step.PrepareAudioJob? || step.PrepareVideoJob?) && step.media == m
    ensures NewChild(env, g, step, Scheduled(env, g, step), m)
  {
    if step.PrepareAudioJob? { PreparedAudioChange(env, g, step, m); } else { PreparedVideoChange(env, g, step, m); }
  }

  lemma PreparedAudioChange(env: Env, g: World, step: Step, m: string)
    requires EnvOk(env) && m in g.entries && EntryOk(env, g, m) && step.PrepareAudioJob? && step.media == m
    ensures NewChild(env, g, step, Scheduled(env, g, step), m)
  {
    var e, script := g.entries[m], ScriptOf(g, m).value;
    PrepareAudioKeeps(env, script, m, e.rows, step.newId, step.provider, step.model, step.voice, step.audioFormat,
                      step.staleBefore, step.at, e.audioLedger, e.videoLedger);
  }

  lemma PreparedVideoChange(env: Env, g: World, step: Step, m: string)
    requires EnvOk(env) && m in g.entries && EntryOk(env, g, m) && step.PrepareVideoJob? && step.media == m
    ensures NewChild(env, g, step, Scheduled(env, g, step), m)
  {
    var e, script := g.entries[m], ScriptOf(g, m).value;
    PrepareVideoKeeps(env, script, m, e.rows, step.newId, step.settings, step.staleBefore, step.at, e.audioLedger,
                      e.videoLedger);
  }

  lemma StartAudioChange(env: Env, s: State, w: nat, media: string, at: int, m: string)
    ensures var s' := DoStartAudio(env, s, w, media, at);
      VideoChange(env, s, StartAudio(w, media, at), s', m) && AudioChange(env, s, StartAudio(w, media, at), s', m)
  {
  }

  lemma StartVideoChange(env: Env, s: State, w: nat, media: string, expected: nat, at: int, m: string)
    ensures var s' := DoStartVideo(env, s, w, media, expected, at);
      VideoChange(env, s, StartVideo(w, media, expected, at), s', m)
        && AudioChange(env, s, StartVideo(w, media, expected, at), s', m)
  {
  }

  // ---- Completions ----

  // A worker that still matches the row's attempt remembers the row as it is.
  lemma CurrentIsClaimed(env: Env, g: World, k: Worker)
    requires WorkerOk(env, g, k)
    ensures k.media in g.entries
    ensures var rows := g.entries[k.media].rows;
      if k.task.AudioTask?
      then rows.audio.Some? && (AudioTable.Current(rows.audio.value, k.attempt) ==> rows.audio.value == k.task.row)
      else rows.video.Some? && (VideoTable.Current(rows.video.value, k.attempt) ==> rows.video.value == k.task.video)
  {
  }

  lemma AudioSuccessChange(env: Env, s: State, w: nat, at: int, m: string)
    requires Inv(env, s) && w in s.workers && s.workers[w].media in s.world.entries
    requires s.workers[w].task.AudioTask? && s.workers[w].pc.Stored?
    ensures var s' := DoRecordAudio(s, w, at);
      VideoChange(env, s, RecordAudio(w, at), s', m) && AudioChange(env, s, RecordAudio(w, at), s', m)
  {
    var k := s.workers[w];
    assert WorkerOk(env, s.world, k);
    CurrentIsClaimed(env, s.world, k);
  }

  lemma AudioFailureChange(env: Env, s: State, w: nat, reason: string, at: int, m: string)
    requires Inv(env, s) && w in s.workers && s.workers[w].media in s.world.entries
    requires s.workers[w].task.AudioTask? && s.workers[w].pc.Failing?
    ensures var s' := DoFailAudio(s, w, reason, at);
      VideoChange(env, s, FailAudio(w, reason, at), s', m) && AudioChange(env, s, FailAudio(w, reason, at), s', m)
  {
    var k := s.workers[w];
    assert WorkerOk(env, s.world, k);
    CurrentIsClaimed(env, s.world, k);
  }

  lemma CompletingKnows(env: Env, g: World, k: Worker)
    requires WorkerOk(env, g, k) && k.task.VideoTask? && k.pc.Completing?
    ensures Video.Valid(k.task.video) && VideoTable.Stamped(k.task.video) && VideoTable.Current(k.task.video, k.attempt)
    ensures IsNormalText(k.pc.artifact.storageKey, Video.MAX_STORAGE_KEY)
    ensures Video.RecordGenerated(k.task.video, k.pc.artifact.storageKey, k.pc.artifact.byteSize,
              k.pc.artifact.contentSha256, k.pc.durationMs, k.pc.completedAt) == Ok(k.pc.generated)
    ensures exists data :: k.pc.artifact.contentSha256 == env.digest(data)
  {
  }

  // On the row the completion was read from, the success statement writes the object computed then.
  lemma UpdateSuccessChange(rows: Rows, row: Video.VideoGeneration, attempt: int, artifact: Artifact, durationMs: int,
                            completedAt: int, generated: Video.VideoGeneration)
    requires Video.Valid(row) && VideoTable.Stamped(row) && VideoTable.Current(row, attempt) && rows.video == Some(row)
    requires IsNormalText(artifact.storageKey, Video.MAX_STORAGE_KEY) && IsSha256Hex(artifact.contentSha256)
    requires Video.RecordGenerated(row, artifact.storageKey, artifact.byteSize, artifact.contentSha256, durationMs,
                                   completedAt)
             == Ok(generated)
    ensures var tx := UpdateSuccess(rows, attempt, generated);
      tx.Commit? ==> tx.rows.audio == rows.audio && tx.rows.video == Some(generated)
  {
    VideoTable.SuccessRefinesRecordGenerated(row, row, attempt, artifact.storageKey, artifact.byteSize,
      artifact.contentSha256, durationMs, completedAt);
  }

  lemma WriteSuccessChange(env: Env, g: World, k: Worker)
    requires EnvOk(env) && WorkerOk(env, g, k) && k.task.VideoTask? && k.pc.Completing? && k.media in g.entries
    ensures var rows, tx := g.entries[k.media].rows, UpdateSuccess(g.entries[k.media].rows, k.attempt, k.pc.generated);
      tx.Commit? ==>
        && tx.rows.audio == rows.audio
        && (tx.rows.video == rows.video || (rows.video == Some(k.task.video) && tx.rows.video == Some(k.pc.generated)))
  {
    CurrentIsClaimed(env, g, k);
    CompletingKnows(env, g, k);
    var rows := g.entries[k.media].rows;
    if VideoTable.Current(rows.video.value, k.attempt) {
      UpdateSuccessChange(rows, k.task.video, k.attempt, k.pc.artifact, k.pc.durationMs, k.pc.completedAt,
                          k.pc.generated);
    }
  }

  lemma WriteFailureChange(env: Env, g: World, k: Worker)
    requires WorkerOk(env, g, k) && k.task.VideoTask? && k.pc.RecordingFailure? && k.media in g.entries
    ensures var rows := g.entries[k.media].rows;
      var tx := UpdateFailure(rows, k.attempt, k.pc.failed, k.pc.reason, k.pc.failedAt);
      tx.Commit? ==>
        && tx.rows.audio == rows.audio && tx.rows.video.Some?
        && (|| tx.rows.video == rows.video
            || (&& rows.video == Some(k.task.video)
                && Video.MarkFailed(k.task.video, k.pc.reason, k.pc.failedAt) == Ok(tx.rows.video.value)))
  {
    CurrentIsClaimed(env, g, k);
    var rows := g.entries[k.media].rows;
    if VideoTable.Current(rows.video.value, k.attempt) {
      VideoTable.FailureRefinesMarkFailed(k.task.video, rows.video.value, k.attempt, k.pc.reason, k.pc.failedAt);
    }
  }

  // What a video worker knows of its own claim.
  lemma VideoClaimHeld(env: Env, g: World, k: Worker)
    requires WorkerOk(env, g, k) && k.task.VideoTask?
    ensures k.task.video.status.Generating? && k.task.video.attemptCount == k.attempt
  {
  }

  lemma SuccessChange(env: Env, s: State, w: nat, m: string)
    requires EnvOk(env) && Inv(env, s) && w in s.workers && s.workers[w].media in s.world.entries
    requires s.workers[w].task.VideoTask? && s.workers[w].pc.Completing?
    ensures var s' := DoWriteSuccess(s, w);
      VideoChange(env, s, WriteSuccess(w), s', m) && AudioChange(env, s, WriteSuccess(w), s', m)
  {
    var k := s.workers[w];
    assert WorkerOk(env, s.world, k);
    VideoClaimHeld(env, s.world, k);
    CompletingKnows(env, s.world, k);
    WriteSuccessChange(env, s.world, k);
  }

  lemma FailureChange(env: Env, s: State, w: nat, m: string)
    requires EnvOk(env) && Inv(env, s) && w in s.workers && s.workers[w].media in s.world.entries
    requires s.workers[w].task.VideoTask? && s.workers[w].pc.RecordingFailure?
    ensures var s' := DoWriteFailure(s, w);
      VideoChange(env, s, WriteFailure(w), s', m) && AudioChange(env, s, WriteFailure(w), s', m)
  {
    var k := s.workers[w];
    assert WorkerOk(env, s.world, k);
    VideoClaimHeld(env, s.world, k);
    WriteFailureChange(env, s.world, k);
  }

  // A step of a worker that does not settle leaves every row alone.
  lemma QuietChange(env: Env, s: State, w: nat, step: Step)
    requires w in s.workers
    requires !(s.workers[w].media in s.world.entries && !s.workers[w].pc.Done? && Settles(s.workers[w], step))
    ensures Work(env, s, w, step).world.entries == s.world.entries
  {
  }

  // Every change of a row in any run is a domain transition: a new record, a claim, or the result of the one
  // worker whose remembered claim is the row as it is at that moment.
  lemma StepChanges(env: Env, s: State, step: Step, m: string)
    requires EnvOk(env) && Inv(env, s)
    ensures VideoChange(env, s, step, Apply(env, s, step), m) && AudioChange(env, s, step, Apply(env, s, step), m)
  {
    if IsScheduling(step) { ScheduledChange(env, s, step, m); }
    else if step.StartAudio? { StartAudioChange(env, s, step.worker, step.media, step.at, m); }
    else if step.StartVideo? { StartVideoChange(env, s, step.worker, step.media, step.expected, step.at, m); }
    else if step.worker in s.workers { WorkChange(env, s, step.worker, step, m); }
  }

  lemma WorkChange(env: Env, s: State, w: nat, step: Step, m: string)
    requires EnvOk(env) && Inv(env, s) && !IsScheduling(step) && step.worker == w && w in s.workers
    ensures VideoChange(env, s, step, Work(env, s, w, step), m) && AudioChange(env, s, step, Work(env, s, w, step), m)
  {
    if s.workers[w].media in s.world.entries && !s.workers[w].pc.Done? && Settles(s.workers[w], step) {
      if step.RecordAudio? { AudioSuccessChange(env, s, w, step.at, m); }
      else if step.FailAudio? { AudioFailureChange(env, s, w, step.reason, step.at, m); }
      else {
        OnlyVideoCompletes(env, s, w);
        if step.WriteSuccess? { SuccessChange(env, s, w, m); } else { FailureChange(env, s, w, m); }
      }
    } else {
      QuietChange(env, s, w, step);
    }
  }

  lemma OnlyVideoCompletes(env: Env, s: State, w: nat)
    requires Inv(env, s) && w in s.workers && (s.workers[w].pc.Completing? || s.workers[w].pc.RecordingFailure?)
    ensures s.workers[w].task.VideoTask?
  {
    assert WorkerOk(env, s.world, s.workers[w]);
  }

  // ---- The parent ----

  lemma ScheduledParent(env: Env, s: State, step: Step, m: string)
    requires IsScheduling(step)
    ensures ParentChange(s, step, s.(world := Scheduled(env, s.world, step)), m)
  {
  }

  lemma StartAudioParent(env: Env, s: State, w: nat, media: string, at: int, m: string)
    ensures ParentChange(s, StartAudio(w, media, at), DoStartAudio(env, s, w, media, at), m)
  {
  }

  lemma StartVideoParent(env: Env, s: State, w: nat, media: string, expected: nat, at: int, m: string)
    ensures ParentChange(s, StartVideo(w, media, expected, at), DoStartVideo(env, s, w, media, expected, at), m)
  {
  }

  lemma SettleParent(env: Env, s: State, w: nat, step: Step, m: string)
    requires EnvOk(env) && Inv(env, s) && w in s.workers && s.workers[w].media in s.world.entries
    requires Settles(s.workers[w], step) && step.worker == w
    ensures ParentChange(s, step, Settle(s, w, step), m)
  {
    if step.WriteSuccess? {
      OnlyVideoCompletes(env, s, w);
      SuccessParent(env, s, w, m);
    }
  }

  lemma SuccessParent(env: Env, s: State, w: nat, m: string)
    requires EnvOk(env) && Inv(env, s) && w in s.workers && s.workers[w].media in s.world.entries
    requires s.workers[w].pc.Completing? && s.workers[w].task.VideoTask?
    ensures ParentChange(s, WriteSuccess(w), DoWriteSuccess(s, w), m)
  {
    var k := s.workers[w];
    assert WorkerOk(env, s.world, k);
    CompletingKnows(env, s.world, k);
    Video.RecordGeneratedSpec(k.task.video, k.pc.artifact.storageKey, k.pc.artifact.byteSize,
                              k.pc.artifact.contentSha256, k.pc.durationMs, k.pc.completedAt);
  }

  lemma StepParent(env: Env, s: State, step: Step, m: string)
    requires EnvOk(env) && Inv(env, s)
    ensures ParentChange(s, step, Apply(env, s, step), m)
  {
    if IsScheduling(step) { ScheduledParent(env, s, step, m); }
    else if step.StartAudio? { StartAudioParent(env, s, step.worker, step.media, step.at, m); }
    else if step.StartVideo? { StartVideoParent(env, s, step.worker, step.media, step.expected, step.at, m); }
    else if step.worker in s.workers { WorkParent(env, s, step.worker, step, m); }
  }

  lemma WorkParent(env: Env, s: State, w: nat, step: Step, m: string)
    requires EnvOk(env) && Inv(env, s) && !IsScheduling(step) && step.worker == w && w in s.workers
    ensures ParentChange(s, step, Work(env, s, w, step), m)
  {
    if s.workers[w].media in s.world.entries && !s.workers[w].pc.Done? && Settles(s.workers[w], step) {
      SettleParent(env, s, w, step, m);
    } else {
      QuietChange(env, s, w, step);
    }
  }

  lemma RunParentChanges(env: Env, run: Run, i: nat, m: string)
    requires EnvOk(env) && IsRun(env, run) && i < |run.steps|
    ensures ParentChange(run.states[i], run.steps[i], run.states[i + 1], m)
  {
    RunKeeps(env, run, i);
    assert StepAt(env, run, i);
    StepParent(env, run.states[i], run.steps[i], m);
  }

  lemma RunChanges(env: Env, run: Run, i: nat, m: string)
    requires EnvOk(env) && IsRun(env, run) && i < |run.steps|
    ensures VideoChange(env, run.states[i], run.steps[i], run.states[i + 1], m)
    ensures AudioChange(env, run.states[i], run.steps[i], run.states[i + 1], m)
  {
    RunKeeps(env, run, i);
    assert StepAt(env, run, i);
    StepChanges(env, run.states[i], run.steps[i], m);
  }

  // ---- While an attempt runs ----

  // The instants the parent's transitions leave.
  lemma MediaStamps(media: Media.MediaProduction, reason: string, at: int)
    ensures var r := Media.Start(media, at); r.Ok? ==> r.value.updatedAt == at && r.value.startedAt == Some(at)
    ensures var r := Media.MarkReady(media, at);
      r.Ok? ==> r.value.updatedAt == at && r.value.startedAt == media.startedAt
    ensures var r := Media.MarkFailed(media, reason, at);
      r.Ok? ==> r.value.updatedAt == at && r.value.startedAt == media.startedAt
  {
  }

  // While the parent is processing nothing restarts it.
  lemma ParentKeepsStart(t: State, step: Step, t': State, m: string)
    requires ParentChange(t, step, t', m) && MediaRow(t, m).Some? && MediaRow(t, m).value.status.Processing?
    ensures MediaRow(t', m).Some? ==> MediaRow(t', m).value.startedAt == MediaRow(t, m).value.startedAt
  {
    if MediaRow(t', m).Some? && MediaRow(t', m) != MediaRow(t, m) {
      var media := MediaRow(t, m).value;
      if step.FailAudio? { MediaStamps(media, step.reason, step.at); }
      else if !step.StartAudio? && !step.StartVideo? {
        if t.workers[step.worker].pc.Completing? { MediaStamps(media, "", t.workers[step.worker].pc.completedAt); }
        else { MediaStamps(media, t.workers[step.worker].pc.reason, t.workers[step.worker].pc.failedAt); }
      }
    }
  }

  predicate RunningVideo(t: State, m: string) {
    VideoRow(t, m).Some? && VideoRow(t, m).value.status.Generating?
  }

  predicate RunningAudio(t: State, m: string) {
    AudioRow(t, m).Some? && AudioRow(t, m).value.status.Generating?
  }

  // The same attempt of the video, or of the narration, runs in both states.
  predicate SameAttempt(t: State, t': State, m: string) {
    || (RunningVideo(t, m) && VideoRow(t', m) == VideoRow(t, m))
    || (RunningAudio(t, m) && AudioRow(t', m) == AudioRow(t, m))
  }

  lemma RunningParent(env: Env, g: World, m: string)
    requires EntryOk(env, g, m) && m in g.entries
    requires VideoIs(g.entries[m].rows, Video.Generating) || AudioIs(g.entries[m].rows, Audio.Generating)
    ensures var media := g.entries[m].rows.media;
      Media.Valid(media) && media.status.Processing? && media.startedAt.Some?
  {
  }

  // Rows never come back to what they were, so the attempt ran in between, too.
  lemma SameInBetween(t: State, u: State, v: State, m: string)
    requires EntryEvolves(t.world, u.world, m) && EntryEvolves(u.world, v.world, m) && SameAttempt(t, v, m)
    ensures SameAttempt(t, u, m) && SameAttempt(u, v, m)
  {
  }

  // A parent keeps its start as long as one attempt runs.
  lemma {:induction false} ParentStartKept(env: Env, run: Run, i: nat, j: nat, m: string)
    requires EnvOk(env) && IsRun(env, run) && i <= j < |run.states| && SameAttempt(run.states[i], run.states[j], m)
    ensures MediaRow(run.states[i], m).Some? && MediaRow(run.states[j], m).Some?
    ensures MediaRow(run.states[i], m).value.startedAt.Some?
    ensures MediaRow(run.states[j], m).value.startedAt == MediaRow(run.states[i], m).value.startedAt
    decreases j
  {
    hide Apply;
    if i == j {
      RunEntry(env, run, i, m);
      RunningParent(env, run.states[i].world, m);
    } else {
      StillRuns(env, run, i, j - 1, m);
      ParentStartKept(env, run, i, j - 1, m);
      StartKeptOnce(env, run, j - 1, m);
    }
  }

  lemma StillRuns(env: Env, run: Run, i: nat, k: nat, m: string)
    requires EnvOk(env) && IsRun(env, run) && i <= k && k + 1 < |run.states|
    requires SameAttempt(run.states[i], run.states[k + 1], m)
    ensures SameAttempt(run.states[i], run.states[k], m) && SameAttempt(run.states[k], run.states[k + 1], m)
  {
    hide Apply;
    RunEntryEvolves(env, run, i, k, m);
    RunEntryEvolves(env, run, k, k + 1, m);
    SameInBetween(run.states[i], run.states[k], run.states[k + 1], m);
  }

  lemma StartKeptOnce(env: Env, run: Run, k: nat, m: string)
    requires EnvOk(env) && IsRun(env, run) && k < |run.steps| && SameAttempt(run.states[k], run.states[k + 1], m)
    ensures MediaRow(run.states[k], m).Some? && MediaRow(run.states[k + 1], m).Some?
    ensures MediaRow(run.states[k + 1], m).value.startedAt == MediaRow(run.states[k], m).value.startedAt
  {
    hide Apply;
    RunEntry(env, run, k, m);
    RunningParent(env, run.states[k].world, m);
    RunParentChanges(env, run, k, m);
    ParentKeepsStart(run.states[k], run.steps[k], run.states[k + 1], m);
  }
}
