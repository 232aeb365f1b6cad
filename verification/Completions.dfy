// When a worker that still owns its attempt gets its result recorded. A completion that is refused raises, and
// the attempt stays running until it goes stale.

module Completions {
  import opened Wrappers
  import opened Text
  import opened FileStorage
  import opened MediaTransactions
  import opened MediaInvariants
  import opened MediaProtocol
  import opened ProtocolInvariants
  import opened ProtocolProof
  import opened RunHistory
  import opened RowChanges
  import Media = MediaProductions
  import Audio = NarrationAudios
  import Video = VideoGenerations
  import VideoTable = VideoRepository

  // ---- What each half of a completion accepts ----

  predicate Started(startedAt: Option<int>, at: int) {
    startedAt.Some? && startedAt.value <= at
  }

  predicate VideoArtifactAccepted(artifact: Artifact, durationMs: int) {
    artifact.byteSize >= 1 && durationMs >= 1 && |artifact.storageKey| <= Video.MAX_STORAGE_KEY
  }

  predicate ReasonAccepted(reason: string) {
    NormalizeRequired(reason, Media.MAX_FAILURE_REASON).Ok?
  }

  // ---- Video success ----

  lemma SuccessRead(env: Env, g: World, k: Worker, at: int)
    requires EnvOk(env) && EntryOk(env, g, k.media) && WorkerOk(env, g, k) && k.task.VideoTask? && k.pc.Stored?
    requires k.media in g.entries && g.entries[k.media].rows.video == Some(k.task.video)
    ensures var next := ReadForCompletion(g, k, at);
      if Started(k.task.video.startedAt, at) && VideoArtifactAccepted(k.pc.artifact, k.pc.durationMs)
      then next.Completing? && next.artifact == k.pc.artifact && next.durationMs == k.pc.durationMs
        && next.completedAt == at
      else next == Done(Raised)
  {
    StoredKnows(env, g, k);
    SuccessReadOf(k.task.video, k.attempt, k.pc.artifact, k.pc.durationMs, at);
  }

  lemma StoredKnows(env: Env, g: World, k: Worker)
    requires EnvOk(env) && EntryOk(env, g, k.media) && WorkerOk(env, g, k) && k.task.VideoTask? && k.pc.Stored?
    ensures Video.Valid(k.task.video) && VideoTable.Current(k.task.video, k.attempt)
    ensures var a := k.pc.artifact; Stripped(a.storageKey) && a.storageKey != "" && IsSha256Hex(a.contentSha256)
  {
    VideoTarget(env, g, k);
  }

  lemma SuccessReadOf(row: Video.VideoGeneration, attempt: int, a: Artifact, durationMs: int, at: int)
    requires Video.Valid(row) && VideoTable.Current(row, attempt)
    requires Stripped(a.storageKey) && a.storageKey != "" && IsSha256Hex(a.contentSha256)
    ensures var read := ReadForSuccess(Some(row), attempt, a, durationMs, at);
      if Started(row.startedAt, at) && VideoArtifactAccepted(a, durationMs) then read.Ok? && read.value.Some?
        else read.Err?
  {
    LongKeyRefused(a.storageKey);
    if IsNormalText(a.storageKey, Video.MAX_STORAGE_KEY) {
      Video.RecordGeneratedSpec(row, a.storageKey, a.byteSize, a.contentSha256, durationMs, at);
    }
  }

  // On the row the completion was read from, the statement's transaction commits exactly when the parent, which
  // is processing, did not start later.
  lemma SuccessWritten(env: Env, g: World, k: Worker)
    requires EnvOk(env) && EntryOk(env, g, k.media) && WorkerOk(env, g, k) && k.task.VideoTask? && k.pc.Completing?
    requires k.media in g.entries && g.entries[k.media].rows.video == Some(k.task.video)
    ensures var rows := g.entries[k.media].rows;
      var tx := UpdateSuccess(rows, k.attempt, k.pc.generated);
      && rows.media.status.Processing? && rows.media.startedAt.Some?
      && (tx.Commit? <==> rows.media.startedAt.value <= k.pc.completedAt)
      && (tx.Commit? ==> tx.value == Recorded && tx.rows.media.status.Ready? && tx.rows.video == Some(k.pc.generated)
                         && k.pc.generated.status.Generated?)
  {
    CompletingKnows(env, g, k);
    var rows, a := g.entries[k.media].rows, k.pc.artifact;
    Video.RecordGeneratedSpec(k.task.video, a.storageKey, a.byteSize, a.contentSha256, k.pc.durationMs,
                              k.pc.completedAt);
    Media.MarkReadySpec(rows.media, k.pc.completedAt);
    UpdateSuccessChange(rows, k.task.video, k.attempt, a, k.pc.durationMs, k.pc.completedAt, k.pc.generated);
  }

  lemma ReadStep(env: Env, t: State, w: nat, at: int)
    requires w in t.workers && t.workers[w].media in t.world.entries && t.workers[w].task.VideoTask?
    requires t.workers[w].pc.Stored?
    ensures Apply(env, t, ReadBeforeSuccess(w, at)) == At(t, w, ReadForCompletion(t.world, t.workers[w], at))
  {
  }

  lemma WriteStep(env: Env, t: State, w: nat)
    requires w in t.workers && t.workers[w].media in t.world.entries && t.workers[w].pc.Completing?
    ensures Apply(env, t, WriteSuccess(w)) == DoWriteSuccess(t, w)
  {
  }

  lemma RunReads(env: Env, run: Run, i: nat, w: nat, at: int)
    requires IsRun(env, run) && i < |run.steps| && run.steps[i] == ReadBeforeSuccess(w, at)
    requires w in run.states[i].workers && run.states[i].workers[w].media in run.states[i].world.entries
    requires run.states[i].workers[w].task.VideoTask? && run.states[i].workers[w].pc.Stored?
    ensures run.states[i + 1]
      == At(run.states[i], w, ReadForCompletion(run.states[i].world, run.states[i].workers[w], at))
  {
    assert StepAt(env, run, i);
    ReadStep(env, run.states[i], w, at);
  }

  // The read half of a success.
  lemma VideoSuccessReadIff(env: Env, run: Run, i: nat, w: nat, at: int)
    requires EnvOk(env) && IsRun(env, run) && i < |run.steps| && run.steps[i] == ReadBeforeSuccess(w, at)
    requires w in run.states[i].workers && run.states[i].workers[w].pc.Stored?
    requires run.states[i].workers[w].task.VideoTask? && OwnsVideo(run.states[i], w, run.states[i].workers[w].media)
    ensures run.states[i + 1].world == run.states[i].world && w in run.states[i + 1].workers
    ensures run.states[i + 1].workers[w] == run.states[i].workers[w].(pc := run.states[i + 1].workers[w].pc)
    ensures var k, next := run.states[i].workers[w], run.states[i + 1].workers[w].pc;
      if Started(k.task.video.startedAt, at) && VideoArtifactAccepted(k.pc.artifact, k.pc.durationMs)
      then next.Completing? && next.artifact == k.pc.artifact && next.durationMs == k.pc.durationMs
        && next.completedAt == at
      else next == Done(Raised)
  {
    hide Apply;
    RunWorker(env, run, i, w);
    SuccessRead(env, run.states[i].world, run.states[i].workers[w], at);
    RunReads(env, run, i, w, at);
  }

  lemma RunWrites(env: Env, run: Run, i: nat, w: nat)
    requires IsRun(env, run) && i < |run.steps| && run.steps[i] == WriteSuccess(w)
    requires w in run.states[i].workers && run.states[i].workers[w].media in run.states[i].world.entries
    requires run.states[i].workers[w].pc.Completing?
    ensures run.states[i + 1] == DoWriteSuccess(run.states[i], w)
  {
    assert StepAt(env, run, i);
    WriteStep(env, run.states[i], w);
  }

  // The write half: refused exactly when the worker's instant is behind the parent's last start.
  lemma VideoSuccessWrittenIff(env: Env, run: Run, j: nat, w: nat)
    requires EnvOk(env) && IsRun(env, run) && j < |run.steps| && run.steps[j] == WriteSuccess(w)
    requires w in run.states[j].workers && run.states[j].workers[w].pc.Completing?
    requires run.states[j].workers[w].task.VideoTask? && OwnsVideo(run.states[j], w, run.states[j].workers[w].media)
    ensures w in run.states[j + 1].workers && VideoRow(run.states[j + 1], run.states[j].workers[w].media).Some?
    ensures var k := run.states[j].workers[w];
      var media := MediaRow(run.states[j], k.media);
      && media.Some? && media.value.startedAt.Some?
      && if media.value.startedAt.value <= k.pc.completedAt
         then run.states[j + 1].workers[w].pc == Done(Generated(k.pc.artifact))
              && VideoRow(run.states[j + 1], k.media) == Some(k.pc.generated)
              && k.pc.generated.status.Generated?
         else run.states[j + 1].workers[w].pc == Done(Raised) && run.states[j + 1].world == run.states[j].world
  {
    hide Apply;
    RunWorker(env, run, j, w);
    SuccessWritten(env, run.states[j].world, run.states[j].workers[w]);
    RunWrites(env, run, j, w);
  }

  // Both halves, with any steps of others in between: an owner's success is recorded exactly when the attempt
  // and the parent started no later than the instant it took, and the artifact is a real one under a key that
  // fits.
  lemma VideoSuccessIff(env: Env, run: Run, i: nat, j: nat, w: nat, at: int)
    requires EnvOk(env) && IsRun(env, run) && i < j < |run.steps|
    requires run.steps[i] == ReadBeforeSuccess(w, at) && run.steps[j] == WriteSuccess(w)
    requires w in run.states[i].workers && run.states[i].workers[w].pc.Stored?
    requires run.states[i].workers[w].task.VideoTask?
    requires OwnsVideo(run.states[i], w, run.states[i].workers[w].media)
    requires w in run.states[i + 1].workers && w in run.states[j].workers
    requires run.states[j].workers[w] == run.states[i + 1].workers[w]
    requires OwnsVideo(run.states[j], w, run.states[i].workers[w].media)
    ensures var k, media := run.states[i].workers[w], MediaRow(run.states[i], run.states[i].workers[w].media);
      && VideoRow(run.states[j + 1], k.media).Some? && media.Some?
      && (VideoRow(run.states[j + 1], k.media).value.status.Generated? <==>
            && Started(k.task.video.startedAt, at) && Started(media.value.startedAt, at)
            && VideoArtifactAccepted(k.pc.artifact, k.pc.durationMs))
  {
    hide Apply;
    VideoSuccessReadIff(env, run, i, w, at);
    ParentStartKept(env, run, i, j, run.states[i].workers[w].media);
    if run.states[j].workers[w].pc.Completing? {
      VideoSuccessWrittenIff(env, run, j, w);
    } else {
      FinishedStays(env, run, j, w);
    }
  }

  // A worker that has stopped changes nothing.
  lemma FinishedStays(env: Env, run: Run, j: nat, w: nat)
    requires IsRun(env, run) && j < |run.steps| && w in run.states[j].workers && run.states[j].workers[w].pc.Done?
    requires run.steps[j] == WriteSuccess(w) || run.steps[j] == WriteFailure(w)
    ensures run.states[j + 1] == run.states[j]
  {
    assert StepAt(env, run, j);
  }

  // ---- Video failure ----

  lemma FailureRead(env: Env, g: World, k: Worker, reason: string, at: int)
    requires EntryOk(env, g, k.media) && WorkerOk(env, g, k) && k.task.VideoTask? && k.pc.Failing?
    requires k.media in g.entries && g.entries[k.media].rows.video == Some(k.task.video)
    ensures var next := ReadForRecordingFailure(g, k, reason, at);
      if Started(k.task.video.startedAt, at) && ReasonAccepted(reason)
      then next.RecordingFailure? && next.reason == reason && next.failedAt == at && next.cause == k.pc.cause
      else next == Done(Raised)
  {
    Video.MarkFailedSpec(k.task.video, reason, at);
  }

  lemma FailureWritten(env: Env, g: World, k: Worker)
    requires EntryOk(env, g, k.media) && WorkerOk(env, g, k) && k.task.VideoTask? && k.pc.RecordingFailure?
    requires k.media in g.entries && g.entries[k.media].rows.video == Some(k.task.video)
    ensures var rows := g.entries[k.media].rows;
      var tx := UpdateFailure(rows, k.attempt, k.pc.failed, k.pc.reason, k.pc.failedAt);
      && rows.media.status.Processing? && rows.media.startedAt.Some?
      && (tx.Commit? <==> rows.media.startedAt.value <= k.pc.failedAt)
      && (tx.Commit? ==> tx.value == Recorded && VideoIs(tx.rows, Video.Failed) && tx.rows.media.status.Failed?)
  {
    RecordingKnows(env, g, k);
    Media.MarkFailedSpec(g.entries[k.media].rows.media, k.pc.reason, k.pc.failedAt);
  }

  lemma RecordingKnows(env: Env, g: World, k: Worker)
    requires EntryOk(env, g, k.media) && WorkerOk(env, g, k) && k.task.VideoTask? && k.pc.RecordingFailure?
    requires k.media in g.entries && g.entries[k.media].rows.video == Some(k.task.video)
    ensures ReasonAccepted(k.pc.reason) && VideoTable.Current(k.task.video, k.attempt)
    ensures var media := g.entries[k.media].rows.media;
      Media.Valid(media) && media.status.Processing? && media.startedAt.Some?
  {
    RunningParent(env, g, k.media);
    RecordedReason(env, g, k);
  }

  lemma RecordedReason(env: Env, g: World, k: Worker)
    requires WorkerOk(env, g, k) && k.task.VideoTask? && k.pc.RecordingFailure?
    ensures ReasonAccepted(k.pc.reason) && VideoTable.Current(k.task.video, k.attempt)
  {
    Video.MarkFailedSpec(k.task.video, k.pc.reason, k.pc.failedAt);
  }

  lemma FailureReadStep(env: Env, t: State, w: nat, reason: string, at: int)
    requires w in t.workers && t.workers[w].media in t.world.entries && t.workers[w].task.VideoTask?
    requires t.workers[w].pc.Failing?
    ensures Apply(env, t, ReadBeforeFailure(w, reason, at))
      == At(t, w, ReadForRecordingFailure(t.world, t.workers[w], reason, at))
  {
  }

  lemma FailureWriteStep(env: Env, t: State, w: nat)
    requires w in t.workers && t.workers[w].media in t.world.entries && t.workers[w].pc.RecordingFailure?
    ensures Apply(env, t, WriteFailure(w)) == DoWriteFailure(t, w)
  {
  }

  lemma RunReadsFailure(env: Env, run: Run, i: nat, w: nat, reason: string, at: int)
    requires IsRun(env, run) && i < |run.steps| && run.steps[i] == ReadBeforeFailure(w, reason, at)
    requires w in run.states[i].workers && run.states[i].workers[w].media in run.states[i].world.entries
    requires run.states[i].workers[w].task.VideoTask? && run.states[i].workers[w].pc.Failing?
    ensures run.states[i + 1]
      == At(run.states[i], w, ReadForRecordingFailure(run.states[i].world, run.states[i].workers[w], reason, at))
  {
    assert StepAt(env, run, i);
    FailureReadStep(env, run.states[i], w, reason, at);
  }

  lemma VideoFailureReadIff(env: Env, run: Run, i: nat, w: nat, reason: string, at: int)
    requires EnvOk(env) && IsRun(env, run) && i < |run.steps| && run.steps[i] == ReadBeforeFailure(w, reason, at)
    requires w in run.states[i].workers && run.states[i].workers[w].pc.Failing?
    requires run.states[i].workers[w].task.VideoTask? && OwnsVideo(run.states[i], w, run.states[i].workers[w].media)
    ensures run.states[i + 1].world == run.states[i].world && w in run.states[i + 1].workers
    ensures run.states[i + 1].workers[w] == run.states[i].workers[w].(pc := run.states[i + 1].workers[w].pc)
    ensures var k, next := run.states[i].workers[w], run.states[i + 1].workers[w].pc;
      if Started(k.task.video.startedAt, at) && ReasonAccepted(reason)
      then next.RecordingFailure? && next.reason == reason && next.failedAt == at && next.cause == k.pc.cause
      else next == Done(Raised)
  {
    hide Apply;
    RunWorker(env, run, i, w);
    FailureRead(env, run.states[i].world, run.states[i].workers[w], reason, at);
    RunReadsFailure(env, run, i, w, reason, at);
  }

  lemma RunWritesFailure(env: Env, run: Run, i: nat, w: nat)
    requires IsRun(env, run) && i < |run.steps| && run.steps[i] == WriteFailure(w)
    requires w in run.states[i].workers && run.states[i].workers[w].media in run.states[i].world.entries
    requires run.states[i].workers[w].pc.RecordingFailure?
    ensures run.states[i + 1] == DoWriteFailure(run.states[i], w)
  {
    assert StepAt(env, run, i);
    FailureWriteStep(env, run.states[i], w);
  }

  lemma VideoFailureWrittenIff(env: Env, run: Run, j: nat, w: nat)
    requires EnvOk(env) && IsRun(env, run) && j < |run.steps| && run.steps[j] == WriteFailure(w)
    requires w in run.states[j].workers && run.states[j].workers[w].pc.RecordingFailure?
    requires run.states[j].workers[w].task.VideoTask? && OwnsVideo(run.states[j], w, run.states[j].workers[w].media)
    ensures w in run.states[j + 1].workers && VideoRow(run.states[j + 1], run.states[j].workers[w].media).Some?
    ensures var k := run.states[j].workers[w];
      var media := MediaRow(run.states[j], k.media);
      && media.Some? && media.value.startedAt.Some? && MediaRow(run.states[j + 1], k.media).Some?
      && if media.value.startedAt.value <= k.pc.failedAt
         then VideoRow(run.states[j + 1], k.media).value.status.Failed?
              && MediaRow(run.states[j + 1], k.media).value.status.Failed?
              && run.states[j + 1].workers[w].pc == Done(FailureRecorded(k.pc.cause))
         else run.states[j + 1].workers[w].pc == Done(Raised) && run.states[j + 1].world == run.states[j].world
  {
    hide Apply;
    RunWorker(env, run, j, w);
    FailureWritten(env, run.states[j].world, run.states[j].workers[w]);
    RunWritesFailure(env, run, j, w);
  }

  // An owner's failure is recorded exactly when the attempt and the parent started no later than the instant it
  // took, and the reason is a text the record can hold.
  lemma VideoFailureIff(env: Env, run: Run, i: nat, j: nat, w: nat, reason: string, at: int)
    requires EnvOk(env) && IsRun(env, run) && i < j < |run.steps|
    requires run.steps[i] == ReadBeforeFailure(w, reason, at) && run.steps[j] == WriteFailure(w)
    requires w in run.states[i].workers && run.states[i].workers[w].pc.Failing?
    requires run.states[i].workers[w].task.VideoTask?
    requires OwnsVideo(run.states[i], w, run.states[i].workers[w].media)
    requires w in run.states[i + 1].workers && w in run.states[j].workers
    requires run.states[j].workers[w] == run.states[i + 1].workers[w]
    requires OwnsVideo(run.states[j], w, run.states[i].workers[w].media)
    ensures var k, media := run.states[i].workers[w], MediaRow(run.states[i], run.states[i].workers[w].media);
      && VideoRow(run.states[j + 1], k.media).Some? && media.Some?
      && (VideoRow(run.states[j + 1], k.media).value.status.Failed? <==>
            Started(k.task.video.startedAt, at) && Started(media.value.startedAt, at) && ReasonAccepted(reason))
  {
    hide Apply;
    VideoFailureReadIff(env, run, i, w, reason, at);
    ParentStartKept(env, run, i, j, run.states[i].workers[w].media);
    if run.states[j].workers[w].pc.RecordingFailure? {
      VideoFailureWrittenIff(env, run, j, w);
    } else {
      FinishedStays(env, run, j, w);
    }
  }

  // ---- Narration ----

  predicate AudioArtifactAccepted(artifact: Artifact) {
    artifact.byteSize >= 1 && |artifact.storageKey| <= Audio.MAX_STORAGE_KEY
  }

  lemma AudioSuccess(env: Env, g: World, k: Worker, at: int)
    requires EnvOk(env) && EntryOk(env, g, k.media) && WorkerOk(env, g, k) && k.task.AudioTask? && k.pc.Stored?
    requires k.media in g.entries && g.entries[k.media].rows.audio == Some(k.task.row)
    ensures var tx := RecordAudioSuccess(g.entries[k.media].rows, k.attempt, k.pc.artifact, at);
      && (tx.Commit? <==> Started(k.task.row.startedAt, at) && AudioArtifactAccepted(k.pc.artifact))
      && (tx.Commit? ==> tx.value == Recorded && AudioIs(tx.rows, Audio.Generated))
  {
    var a := k.pc.artifact;
    AudioTarget(env, g, k);
    LongKeyRefused(a.storageKey);
    if IsNormalText(a.storageKey, Audio.MAX_STORAGE_KEY) {
      Audio.RecordGeneratedSpec(k.task.row, a.storageKey, a.byteSize, a.contentSha256, at);
    }
  }

  lemma AudioFailure(env: Env, g: World, k: Worker, reason: string, at: int)
    requires EntryOk(env, g, k.media) && WorkerOk(env, g, k) && k.task.AudioTask? && k.pc.Failing?
    requires k.media in g.entries && g.entries[k.media].rows.audio == Some(k.task.row)
    ensures var rows := g.entries[k.media].rows;
      var tx := RecordAudioFailure(rows, k.attempt, reason, at);
      && (tx.Commit?
          <==> Started(k.task.row.startedAt, at) && Started(rows.media.startedAt, at) && ReasonAccepted(reason))
      && (tx.Commit? ==> tx.value == Recorded && AudioIs(tx.rows, Audio.Failed) && tx.rows.media.status.Failed?)
  {
    Audio.MarkFailedSpec(k.task.row, reason, at);
    Media.MarkFailedSpec(g.entries[k.media].rows.media, reason, at);
  }

  lemma RecordAudioStep(env: Env, t: State, w: nat, at: int)
    requires w in t.workers && t.workers[w].media in t.world.entries && t.workers[w].task.AudioTask?
    requires t.workers[w].pc.Stored?
    ensures Apply(env, t, RecordAudio(w, at)) == DoRecordAudio(t, w, at)
  {
  }

  lemma FailAudioStep(env: Env, t: State, w: nat, reason: string, at: int)
    requires w in t.workers && t.workers[w].media in t.world.entries && t.workers[w].task.AudioTask?
    requires t.workers[w].pc.Failing?
    ensures Apply(env, t, FailAudio(w, reason, at)) == DoFailAudio(t, w, reason, at)
  {
  }

  lemma RunRecordsAudio(env: Env, run: Run, i: nat, w: nat, at: int)
    requires IsRun(env, run) && i < |run.steps| && run.steps[i] == RecordAudio(w, at)
    requires w in run.states[i].workers && run.states[i].workers[w].media in run.states[i].world.entries
    requires run.states[i].workers[w].task.AudioTask? && run.states[i].workers[w].pc.Stored?
    ensures run.states[i + 1] == DoRecordAudio(run.states[i], w, at)
  {
    assert StepAt(env, run, i);
    RecordAudioStep(env, run.states[i], w, at);
  }

  // A narration success does not look at the parent at all.
  lemma NarrationSuccessIff(env: Env, run: Run, i: nat, w: nat, at: int)
    requires EnvOk(env) && IsRun(env, run) && i < |run.steps| && run.steps[i] == RecordAudio(w, at)
    requires w in run.states[i].workers && run.states[i].workers[w].pc.Stored?
    requires run.states[i].workers[w].task.AudioTask?
    requires OwnsAudio(run.states[i], w, run.states[i].workers[w].media)
    ensures var k := run.states[i].workers[w];
      && AudioRow(run.states[i + 1], k.media).Some? && w in run.states[i + 1].workers
      && if Started(k.task.row.startedAt, at) && AudioArtifactAccepted(k.pc.artifact)
         then AudioRow(run.states[i + 1], k.media).value.status.Generated?
              && run.states[i + 1].workers[w].pc == Done(Generated(k.pc.artifact))
         else run.states[i + 1].world == run.states[i].world && run.states[i + 1].workers[w].pc == Done(Raised)
  {
    hide Apply;
    RunWorker(env, run, i, w);
    AudioSuccess(env, run.states[i].world, run.states[i].workers[w], at);
    RunRecordsAudio(env, run, i, w, at);
  }

  lemma RunFailsAudio(env: Env, run: Run, i: nat, w: nat, reason: string, at: int)
    requires IsRun(env, run) && i < |run.steps| && run.steps[i] == FailAudio(w, reason, at)
    requires w in run.states[i].workers && run.states[i].workers[w].media in run.states[i].world.entries
    requires run.states[i].workers[w].task.AudioTask? && run.states[i].workers[w].pc.Failing?
    ensures run.states[i + 1] == DoFailAudio(run.states[i], w, reason, at)
  {
    assert StepAt(env, run, i);
    FailAudioStep(env, run.states[i], w, reason, at);
  }

  lemma NarrationFailureIff(env: Env, run: Run, i: nat, w: nat, reason: string, at: int)
    requires EnvOk(env) && IsRun(env, run) && i < |run.steps| && run.steps[i] == FailAudio(w, reason, at)
    requires w in run.states[i].workers && run.states[i].workers[w].pc.Failing?
    requires run.states[i].workers[w].task.AudioTask?
    requires OwnsAudio(run.states[i], w, run.states[i].workers[w].media)
    ensures var k, media := run.states[i].workers[w], MediaRow(run.states[i], run.states[i].workers[w].media);
      && AudioRow(run.states[i + 1], k.media).Some? && w in run.states[i + 1].workers && media.Some?
      && MediaRow(run.states[i + 1], k.media).Some?
      && if Started(k.task.row.startedAt, at) && Started(media.value.startedAt, at) && ReasonAccepted(reason)
         then AudioRow(run.states[i + 1], k.media).value.status.Failed?
              && MediaRow(run.states[i + 1], k.media).value.status.Failed?
              && run.states[i + 1].workers[w].pc == Done(FailureRecorded(k.pc.cause))
         else run.states[i + 1].world == run.states[i].world && run.states[i + 1].workers[w].pc == Done(Raised)
  {
    hide Apply;
    RunWorker(env, run, i, w);
    AudioFailure(env, run.states[i].world, run.states[i].workers[w], reason, at);
    RunFailsAudio(env, run, i, w, reason, at);
  }
}
