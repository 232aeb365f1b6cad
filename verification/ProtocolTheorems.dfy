// What holds in every state of every run of the media pipeline: any number of workers, any interleaving,
// any clocks, crashes at any point.

module ProtocolTheorems {
  import opened Wrappers
  import opened Text
  import opened StorageKeys
  import opened FileStorage
  import opened MediaTransactions
  import opened MediaInvariants
  import opened MediaProtocol
  import opened ProtocolInvariants
  import opened ProtocolProof
  import opened RunHistory
  import opened RowChanges
  import opened Provenance
  import Media = MediaProductions
  import Audio = NarrationAudios
  import Video = VideoGenerations
  import AudioTable = AudioRepository
  import VideoTable = VideoRepository

  // ---- The joint state of parent, audio and video ----

  lemma JointState(env: Env, run: Run, i: nat, m: string)
    requires EnvOk(env) && IsRun(env, run) && i < |run.states| && m in run.states[i].world.entries
    ensures var rows := run.states[i].world.entries[m].rows;
      && (rows.media.status.Ready? <==> VideoIs(rows, Video.Generated))
      && (rows.media.status.Processing? <==>
            || AudioIs(rows, Audio.Generating)
            || (AudioIs(rows, Audio.Generated)
                && (rows.video.None? || VideoIs(rows, Video.Pending) || VideoIs(rows, Video.Generating))))
      && (rows.media.status.Failed? <==> AudioIs(rows, Audio.Failed) || VideoIs(rows, Video.Failed))
      && (rows.media.status.Pending? <==> rows.audio.None? || AudioIs(rows, Audio.Pending))
      && (rows.video.Some? ==> AudioIs(rows, Audio.Generated))
  {
    hide Apply;
    RunEntry(env, run, i, m);
  }

  // ---- Rows ----

  // Every row of every reachable state passes its own construction checks unchanged.
  lemma RowsStayValid(env: Env, run: Run, i: nat, m: string)
    requires EnvOk(env) && IsRun(env, run) && i < |run.states| && m in run.states[i].world.entries
    ensures var rows := run.states[i].world.entries[m].rows;
      && Media.PostInit(rows.media) == Ok(rows.media)
      && (rows.audio.Some? ==> Audio.PostInit(rows.audio.value) == Ok(rows.audio.value))
      && (rows.video.Some? ==> Video.PostInit(rows.video.value) == Ok(rows.video.value))
  {
    hide Apply;
    RunEntry(env, run, i, m);
    var rows := run.states[i].world.entries[m].rows;
    Media.PostInitSpec(rows.media);
    if rows.audio.Some? { Audio.PostInitSpec(rows.audio.value); }
    if rows.video.Some? { Video.PostInitSpec(rows.video.value); }
  }

  // Rows are never removed, attempt numbers and updated_at never decrease, and a generated row never
  // changes again, whatever the clocks say.
  lemma RowsMoveForward(env: Env, run: Run, i: nat, j: nat, m: string)
    requires EnvOk(env) && IsRun(env, run) && i <= j < |run.states| && m in run.states[i].world.entries
    ensures m in run.states[j].world.entries
    ensures var r, r' := run.states[i].world.entries[m].rows, run.states[j].world.entries[m].rows;
      && r.media.attemptCount <= r'.media.attemptCount && r.media.updatedAt <= r'.media.updatedAt
      && (r.audio.Some? ==>
            && r'.audio.Some? && r.audio.value.attemptCount <= r'.audio.value.attemptCount
            && r.audio.value.updatedAt <= r'.audio.value.updatedAt
            && (r.audio.value.status.Generated? ==> r'.audio == r.audio))
      && (r.video.Some? ==>
            && r'.video.Some? && r.video.value.attemptCount <= r'.video.value.attemptCount
            && r.video.value.updatedAt <= r'.video.value.updatedAt
            && (r.video.value.status.Generated? ==> r'.video == r.video))
  {
    hide Apply;
    RunEntryEvolves(env, run, i, j, m);
  }

  // ---- Fencing ----

  // Over the whole run an attempt is claimed by at most one worker: two workers with the same claim are one.
  lemma ClaimsAreUnique(env: Env, run: Run, i: nat, w: nat, v: nat)
    requires EnvOk(env) && IsRun(env, run) && i < |run.states|
    requires w in run.states[i].workers && v in run.states[i].workers
    requires SameClaim(run.states[i].workers[w], run.states[i].workers[v])
    ensures w == v
  {
    hide Apply;
    RunKeeps(env, run, i);
    assert ClaimsDiffer(run.states[i], w, v);
  }

  // A worker keeps its claim and, once it has one, its outcome.
  lemma ClaimsAreKept(env: Env, run: Run, i: nat, j: nat, w: nat)
    requires EnvOk(env) && IsRun(env, run) && i <= j < |run.states| && w in run.states[i].workers
    ensures w in run.states[j].workers
    ensures SameClaim(run.states[i].workers[w], run.states[j].workers[w])
    ensures run.states[i].workers[w].pc.Done? ==> run.states[j].workers[w] == run.states[i].workers[w]
  {
    hide Apply;
    RunEvolves(env, run, i, j);
    assert WorkerEvolves(run.states[i], run.states[j], w);
  }

  // Only the worker that claimed an attempt can end it, by its own completion statement, and at that moment
  // the row is exactly the one it claimed, however many steps of others lie between its read and its write.
  lemma OnlyClaimantEndsVideoAttempt(env: Env, run: Run, i: nat, m: string)
    requires EnvOk(env) && IsRun(env, run) && i < |run.steps|
    requires var t, t' := run.states[i], run.states[i + 1];
      && VideoRow(t, m).Some? && VideoRow(t', m).Some?
      && VideoRow(t', m).value.status != VideoRow(t, m).value.status
      && (VideoRow(t', m).value.status.Generated? || VideoRow(t', m).value.status.Failed?)
    ensures run.steps[i].WriteSuccess? || run.steps[i].WriteFailure?
    ensures VideoRow(run.states[i + 1], m).value.status.Generated? <==> run.steps[i].WriteSuccess?
    ensures OwnsVideo(run.states[i], run.steps[i].worker, m)
    ensures VideoRow(run.states[i + 1], m).value.attemptCount == run.states[i].workers[run.steps[i].worker].attempt
  {
    hide Apply;
    RunChanges(env, run, i, m);
    RunEntry(env, run, i, m);
    var t, step := run.states[i], run.steps[i];
    if step.WriteSuccess? && OwnsVideo(t, step.worker, m) && t.workers[step.worker].pc.Completing? {
      RunWorker(env, run, i, step.worker);
      CompletingKnows(env, t.world, t.workers[step.worker]);
      var pc := t.workers[step.worker].pc;
      Video.RecordGeneratedSpec(VideoRow(t, m).value, pc.artifact.storageKey, pc.artifact.byteSize,
                                pc.artifact.contentSha256, pc.durationMs, pc.completedAt);
    } else if step.WriteFailure? && OwnsVideo(t, step.worker, m) {
      Video.MarkFailedSpec(VideoRow(t, m).value, t.workers[step.worker].pc.reason, t.workers[step.worker].pc.failedAt);
    }
  }

  lemma OnlyClaimantEndsAudioAttempt(env: Env, run: Run, i: nat, m: string)
    requires EnvOk(env) && IsRun(env, run) && i < |run.steps|
    requires var t, t' := run.states[i], run.states[i + 1];
      && AudioRow(t, m).Some? && AudioRow(t', m).Some?
      && AudioRow(t', m).value.status != AudioRow(t, m).value.status
      && (AudioRow(t', m).value.status.Generated? || AudioRow(t', m).value.status.Failed?)
    ensures run.steps[i].RecordAudio? || run.steps[i].FailAudio?
    ensures AudioRow(run.states[i + 1], m).value.status.Generated? <==> run.steps[i].RecordAudio?
    ensures OwnsAudio(run.states[i], run.steps[i].worker, m)
    ensures AudioRow(run.states[i + 1], m).value.attemptCount == run.states[i].workers[run.steps[i].worker].attempt
  {
    hide Apply;
    RunChanges(env, run, i, m);
    var t, step := run.states[i], run.steps[i];
    if step.RecordAudio? && OwnsAudio(t, step.worker, m) && t.workers[step.worker].pc.Stored? {
      AudioOutcomes(AudioRow(t, m).value, t.workers[step.worker].pc.artifact, "", step.at);
    } else if step.FailAudio? && OwnsAudio(t, step.worker, m) {
      AudioOutcomes(AudioRow(t, m).value, Artifact("", 0, ""), step.reason, step.at);
    }
  }

  lemma AudioOutcomes(row: Audio.NarrationAudio, a: Artifact, reason: string, at: int)
    ensures var r := Audio.RecordGenerated(row, a.storageKey, a.byteSize, a.contentSha256, at);
      r.Ok? ==> r.value.status.Generated? && r.value.attemptCount == row.attemptCount
    ensures var r := Audio.MarkFailed(row, reason, at);
      r.Ok? ==> r.value.status.Failed? && r.value.attemptCount == row.attemptCount
  {
  }

  predicate Succeeded(k: Worker) {
    k.pc.Done? && k.pc.outcome.Generated?
  }

  // The record of a production says what its successful worker reported.
  predicate Recorded(rows: Rows, k: Worker)
    requires Succeeded(k)
  {
    if k.task.AudioTask? then
      && AudioIs(rows, Audio.Generated) && rows.audio.value.attemptCount == k.attempt
      && rows.audio.value.storageKey == Some(k.pc.outcome.artifact.storageKey)
      && rows.audio.value.byteSize == Some(k.pc.outcome.artifact.byteSize)
      && rows.audio.value.contentSha256 == Some(k.pc.outcome.artifact.contentSha256)
    else
      && VideoIs(rows, Video.Generated) && rows.video.value.attemptCount == k.attempt && rows.media.status.Ready?
      && rows.video.value.storageKey == Some(k.pc.outcome.artifact.storageKey)
      && rows.video.value.byteSize == Some(k.pc.outcome.artifact.byteSize)
      && rows.video.value.contentSha256 == Some(k.pc.outcome.artifact.contentSha256)
  }

  lemma SuccessOf(env: Env, g: World, k: Worker)
    requires EntryOk(env, g, k.media) && WorkerOk(env, g, k) && Succeeded(k)
    ensures k.media in g.entries && Recorded(g.entries[k.media].rows, k)
  {
    if k.task.VideoTask? { VideoSuccessOf(env, g, k); } else { AudioSuccessOf(env, g, k); }
  }

  lemma AudioSuccessOf(env: Env, g: World, k: Worker)
    requires EntryOk(env, g, k.media) && WorkerOk(env, g, k) && Succeeded(k) && k.task.AudioTask?
    ensures k.media in g.entries && Recorded(g.entries[k.media].rows, k)
  {
  }

  lemma VideoSuccessOf(env: Env, g: World, k: Worker)
    requires EntryOk(env, g, k.media) && WorkerOk(env, g, k) && Succeeded(k) && k.task.VideoTask?
    ensures k.media in g.entries && Recorded(g.entries[k.media].rows, k)
  {
    VideoKeyOfSuccess(env, g, k);
  }

  lemma VideoKeyOfSuccess(env: Env, g: World, k: Worker)
    requires EntryOk(env, g, k.media) && WorkerOk(env, g, k) && Succeeded(k) && k.task.VideoTask?
    ensures k.media in g.entries && VideoIs(g.entries[k.media].rows, Video.Generated)
    ensures g.entries[k.media].rows.video.value.storageKey == Some(KeyOf(k))
  {
    VideoOfSuccess(env, g, k);
    VideoKeyOfRow(env, g, k.media);
  }

  lemma VideoOfSuccess(env: Env, g: World, k: Worker)
    requires WorkerOk(env, g, k) && Succeeded(k) && k.task.VideoTask?
    ensures k.media in g.entries && VideoIs(g.entries[k.media].rows, Video.Generated)
    ensures var row := g.entries[k.media].rows.video.value;
      row.attemptCount == k.attempt && KeyOf(k) == VideoKey(k.media, SCHEDULED_VERSION, k.attempt, "mp4")
  {
  }

  lemma VideoKeyOfRow(env: Env, g: World, m: string)
    requires EntryOk(env, g, m) && m in g.entries && VideoIs(g.entries[m].rows, Video.Generated)
    ensures var row := g.entries[m].rows.video.value;
      row.storageKey == Some(VideoKey(m, SCHEDULED_VERSION, AsNat(row.attemptCount), "mp4"))
  {
  }

  lemma SuccessIsRecorded(env: Env, run: Run, i: nat, w: nat)
    requires EnvOk(env) && IsRun(env, run) && i < |run.states| && w in run.states[i].workers
    requires Succeeded(run.states[i].workers[w])
    ensures var t := run.states[i];
      && t.workers[w].media in t.world.entries
      && Recorded(t.world.entries[t.workers[w].media].rows, t.workers[w])
  {
    hide Apply;
    var t := run.states[i];
    RunWorker(env, run, i, w);
    SuccessOf(env, t.world, t.workers[w]);
  }

  // At most one worker of a production ever reports a generated video, and at most one a generated audio.
  lemma OneSuccess(env: Env, run: Run, i: nat, w: nat, v: nat)
    requires EnvOk(env) && IsRun(env, run) && i < |run.states| && w in run.states[i].workers
    requires v in run.states[i].workers
    requires var k, l := run.states[i].workers[w], run.states[i].workers[v];
      k.media == l.media && k.task.AudioTask? == l.task.AudioTask? && Succeeded(k) && Succeeded(l)
    ensures w == v
  {
    hide Apply;
    SuccessIsRecorded(env, run, i, w);
    SuccessIsRecorded(env, run, i, v);
    ClaimsAreUnique(env, run, i, w, v);
  }

  // ---- Every change of a video row is a transition of the domain object ----

  ghost predicate VideoTransition(row: Video.VideoGeneration, row': Video.VideoGeneration) {
    || row' == row
    || (exists at :: Video.Start(row, at) == Ok(row'))
    || (exists reason, failedAt, at :: FailThenStart(row, reason, failedAt, at) == Ok(row'))
    || (exists key, size, sha, duration, at :: Video.RecordGenerated(row, key, size, sha, duration, at) == Ok(row'))
    || (exists reason, at :: Video.MarkFailed(row, reason, at) == Ok(row'))
  }

  function FailThenStart(row: Video.VideoGeneration, reason: string, failedAt: int, at: int)
    : Result<Video.VideoGeneration, DomainError>
  {
    var failed :- Video.MarkFailed(row, reason, failedAt);
    Video.Start(failed, at)
  }

  lemma RowsRefineDomain(env: Env, run: Run, i: nat, m: string)
    requires EnvOk(env) && IsRun(env, run) && i < |run.steps| && VideoRow(run.states[i], m).Some?
    ensures VideoRow(run.states[i + 1], m).Some?
    ensures VideoTransition(VideoRow(run.states[i], m).value, VideoRow(run.states[i + 1], m).value)
  {
    hide Apply;
    RunChanges(env, run, i, m);
    var t, step := run.states[i], run.steps[i];
    var row := VideoRow(t, m).value;
    if step.StartVideo? && step.media == m
      && VideoTable.Claimable(row, step.at, Some(step.at - env.timeout), Some(step.expected)) {
      RunEntry(env, run, i, m);
      ClaimIsTransition(row, step.at, step.at - env.timeout, step.expected);
    }
  }

  lemma ClaimIsTransition(row: Video.VideoGeneration, at: int, staleBefore: int, expected: int)
    requires Video.Valid(row) && VideoTable.Claimable(row, at, Some(staleBefore), Some(expected)) && staleBefore <= at
    ensures VideoTransition(row, VideoTable.ClaimedRow(row, at))
  {
    if row.status.Generating? {
      NormalizeRequiredSpec("stale", Video.MAX_FAILURE_REASON);
      assert IsNormalText("stale", Video.MAX_FAILURE_REASON);
      VideoTable.TakeoverRefinesFailThenStart(row, at, staleBefore, "stale", row.startedAt.value);
      assert FailThenStart(row, "stale", row.startedAt.value, at) == Ok(VideoTable.ClaimedRow(row, at));
    } else {
      VideoTable.ClaimRefinesStart(row, at, Some(staleBefore));
    }
  }

  // The same for the narration rows.
  ghost predicate AudioTransition(row: Audio.NarrationAudio, row': Audio.NarrationAudio) {
    || row' == row
    || (exists at :: Audio.Start(row, at) == Ok(row'))
    || (exists reason, failedAt, at :: AudioFailThenStart(row, reason, failedAt, at) == Ok(row'))
    || (exists key, size, sha, at :: Audio.RecordGenerated(row, key, size, sha, at) == Ok(row'))
    || (exists reason, at :: Audio.MarkFailed(row, reason, at) == Ok(row'))
  }

  function AudioFailThenStart(row: Audio.NarrationAudio, reason: string, failedAt: int, at: int)
    : Result<Audio.NarrationAudio, DomainError>
  {
    var failed :- Audio.MarkFailed(row, reason, failedAt);
    Audio.Start(failed, at)
  }

  lemma AudioRowsRefineDomain(env: Env, run: Run, i: nat, m: string)
    requires EnvOk(env) && IsRun(env, run) && i < |run.steps| && AudioRow(run.states[i], m).Some?
    ensures AudioRow(run.states[i + 1], m).Some?
    ensures AudioTransition(AudioRow(run.states[i], m).value, AudioRow(run.states[i + 1], m).value)
  {
    hide Apply;
    RunChanges(env, run, i, m);
    var row, step := AudioRow(run.states[i], m).value, run.steps[i];
    if step.StartAudio? && step.media == m && AudioTable.Claimable(row, step.at, Some(step.at - env.timeout)) {
      RunEntry(env, run, i, m);
      AudioClaimIsTransition(row, step.at, step.at - env.timeout);
    }
  }

  lemma AudioClaimIsTransition(row: Audio.NarrationAudio, at: int, staleBefore: int)
    requires Audio.Valid(row) && AudioTable.Claimable(row, at, Some(staleBefore)) && staleBefore <= at
    ensures AudioTransition(row, AudioTable.ClaimedRow(row, at))
  {
    if row.status.Generating? {
      NormalizeRequiredSpec("stale", Audio.MAX_FAILURE_REASON);
      assert IsNormalText("stale", Audio.MAX_FAILURE_REASON);
      AudioTable.TakeoverRefinesFailThenStart(row, at, staleBefore, "stale", row.startedAt.value);
      assert AudioFailThenStart(row, "stale", row.startedAt.value, at) == Ok(AudioTable.ClaimedRow(row, at));
    } else {
      AudioTable.ClaimRefinesStart(row, at, Some(staleBefore));
    }
  }

  // ---- Records and storage ----

  ghost predicate AudioStored(env: Env, t: State, m: string) {
    AudioRow(t, m).Some? && AudioRow(t, m).value.status.Generated? ==>
      var a := AudioRow(t, m).value;
      && a.storageKey == Some(AudioKeyOf(a))
      && (exists data :: Read(t.world.files, AudioKeyOf(a)) == Ok(Some(data))
                         && a.contentSha256 == Some(env.digest(data)) && a.byteSize == Some(|data|))
  }

  ghost predicate VideoStored(env: Env, t: State, m: string) {
    VideoRow(t, m).Some? && VideoRow(t, m).value.status.Generated? ==>
      var v := VideoRow(t, m).value;
      && v.storageKey == Some(VideoKey(m, SCHEDULED_VERSION, AsNat(v.attemptCount), "mp4"))
      && (exists data :: Read(t.world.files, v.storageKey.value) == Ok(Some(data))
                         && v.contentSha256 == Some(env.digest(data)) && v.byteSize == Some(|data|))
  }

  // A generated record names its canonical key, and the bytes stored there have the recorded digest and size.
  lemma RecordsAgreeWithStorage(env: Env, run: Run, i: nat, m: string)
    requires EnvOk(env) && IsRun(env, run) && i < |run.states|
    ensures AudioStored(env, run.states[i], m) && VideoStored(env, run.states[i], m)
  {
    hide Apply;
    RunEntry(env, run, i, m);
    StoredAsRecorded(env, run.states[i], m);
  }

  lemma StoredAsRecorded(env: Env, t: State, m: string)
    requires EntryOk(env, t.world, m)
    ensures AudioStored(env, t, m) && VideoStored(env, t, m)
  {
  }

  // No file of the store ever changes or goes away, so what a generated record describes stays readable.
  lemma StoreIsWriteOnce(env: Env, run: Run, i: nat, j: nat, p: Path)
    requires EnvOk(env) && IsRun(env, run) && i <= j < |run.states| && p in run.states[i].world.files
    ensures p in run.states[j].world.files
    ensures run.states[j].world.files[p] == run.states[i].world.files[p]
  {
    hide Apply;
    RunWorldEvolves(env, run, i, j);
  }

  predicate NoConflict(pc: Pc) {
    && !pc.Rechecking?
    && (pc.Failing? && pc.cause.Storage? ==> pc.cause.error == EmptyData)
    && (pc.RecordingFailure? && pc.cause.Storage? ==> pc.cause.error == EmptyData)
    && (pc.Done? && pc.outcome.FailureRecorded? && pc.outcome.cause.Storage? ==> pc.outcome.cause.error == EmptyData)
  }

  lemma NoConflictNow(env: Env, g: World, k: Worker)
    requires WorkerOk(env, g, k) && k.task.VideoTask?
    ensures NoConflict(k.pc) || Foreign(g, k.media, k.attempt)
  {
  }

  // Unless a file lay at its place before the run, no video worker ever meets a file at its target, let alone one
  // with other content: of the storage errors it can only see the one for empty renderer output.
  lemma NoVideoConflict(env: Env, run: Run, i: nat, w: nat)
    requires EnvOk(env) && IsRun(env, run) && i < |run.states| && w in run.states[i].workers
    requires run.states[i].workers[w].task.VideoTask?
    ensures var k := run.states[i].workers[w];
      NoConflict(k.pc) || VideoPath(k.media, SCHEDULED_VERSION, k.attempt) in run.states[0].world.files
  {
    hide Apply;
    var k := run.states[i].workers[w];
    RunWorker(env, run, i, w);
    NoConflictNow(env, run.states[i].world, k);
    if VideoPath(k.media, SCHEDULED_VERSION, k.attempt) !in run.states[0].world.files {
      NotForeign(env, run, i, k.media, k.attempt);
    }
  }
}
