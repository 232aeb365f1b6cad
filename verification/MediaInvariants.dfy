// What every transaction keeps true of the rows of one media production, under any clocks.

module MediaInvariants {
  import opened Wrappers
  import opened Text
  import opened FileStorage
  import opened MediaTransactions
  import Media = MediaProductions
  import Audio = NarrationAudios
  import Video = VideoGenerations
  import Script = ScriptGenerations
  import AudioTable = AudioRepository
  import VideoTable = VideoRepository

  // ---- The joint state of the three records ----

  predicate AudioIs(rows: Rows, s: Audio.Status) {
    rows.audio.Some? && rows.audio.value.status == s
  }

  predicate VideoIs(rows: Rows, s: Video.Status) {
    rows.video.Some? && rows.video.value.status == s
  }

  // Parent and children agree, and a failed parent carries the stamp of the child that failed.
  predicate Joint(rows: Rows) {
    && (rows.media.status.Pending? <==> rows.audio.None? || AudioIs(rows, Audio.Pending))
    && (rows.media.status.Processing? <==>
        || AudioIs(rows, Audio.Generating)
        || (AudioIs(rows, Audio.Generated)
            && (rows.video.None? || VideoIs(rows, Video.Pending) || VideoIs(rows, Video.Generating))))
    && (rows.media.status.Ready? <==> VideoIs(rows, Video.Generated))
    && (rows.media.status.Failed? <==> AudioIs(rows, Audio.Failed) || VideoIs(rows, Video.Failed))
    && (rows.video.Some? ==> AudioIs(rows, Audio.Generated))
    && (AudioIs(rows, Audio.Failed) ==> rows.media.updatedAt == rows.audio.value.updatedAt)
    && (VideoIs(rows, Video.Failed) ==> rows.media.updatedAt == rows.video.value.updatedAt)
  }

  // The text a generated script asks to be read, as the workers take it.
  function NarrationOf(script: Script.ScriptGeneration): string {
    if script.fullNarration.Some? then Strip(script.fullNarration.value) else ""
  }

  predicate AudioOk(env: Env, script: Script.ScriptGeneration, id: string, audio: Audio.NarrationAudio) {
    && Audio.Valid(audio) && AudioTable.Stamped(audio)
    && audio.mediaProductionId == id && audio.audioVersion == SCHEDULED_VERSION
    && audio.sourceTextSha256 == env.textDigest(NarrationOf(script))
  }

  predicate VideoOk(id: string, audio: Audio.NarrationAudio, video: Video.VideoGeneration) {
    && Video.Valid(video) && VideoTable.Stamped(video)
    && video.mediaProductionId == id && video.videoVersion == SCHEDULED_VERSION
    && video.sourceAudioGenerationId == audio.audioGenerationId
    && audio.contentSha256 == Some(video.sourceAudioSha256)
  }

  predicate RowsOk(env: Env, script: Script.ScriptGeneration, id: string, rows: Rows) {
    && Script.Valid(script) && script.status.Generated?
    && Media.Valid(rows.media) && rows.media.mediaProductionId == id
    && (rows.media.status.Processing? ==> rows.media.startedAt == Some(rows.media.updatedAt))
    && (rows.audio.Some? ==> AudioOk(env, script, id, rows.audio.value))
    && (rows.video.Some? ==> rows.audio.Some? && VideoOk(id, rows.audio.value, rows.video.value))
    && Joint(rows)
  }

  // rows' is a later state of the same production.
  predicate RowsEvolve(rows: Rows, rows': Rows) {
    && rows.media.scriptGenerationId == rows'.media.scriptGenerationId
    && rows.media.attemptCount <= rows'.media.attemptCount && rows.media.updatedAt <= rows'.media.updatedAt
    && (rows.audio.Some? ==> rows'.audio.Some? && AudioTable.Evolves(rows.audio.value, rows'.audio.value))
    && (rows.video.Some? ==> rows'.video.Some? && VideoTable.Evolves(rows.video.value, rows'.video.value))
  }

  lemma RowsEvolveTransitive(r0: Rows, r1: Rows, r2: Rows)
    requires RowsEvolve(r0, r1) && RowsEvolve(r1, r2)
    ensures RowsEvolve(r0, r2)
  {
    if r0.audio.Some? { AudioTable.EvolvesTransitive(r0.audio.value, r1.audio.value, r2.audio.value); }
    if r0.video.Some? { VideoTable.EvolvesTransitive(r0.video.value, r1.video.value, r2.video.value); }
  }

  // ---- Counting attempts ----

  // When a child first started, how often it was restarted after a recorded failure, and how often a
  // running attempt was taken over.
  datatype Ledger = Ledger(firstStart: int, restarts: nat, takeovers: nat)

  const NO_ATTEMPTS := Ledger(0, 0, 0)

  function AudioTrack(l: Ledger, before: Option<Audio.NarrationAudio>, after: Option<Audio.NarrationAudio>): Ledger {
    if before.Some? && after.Some? && before.value.attemptCount < after.value.attemptCount then
      match before.value.status
      case Pending => Ledger(after.value.updatedAt, 0, 0)
      case Generating => l.(takeovers := l.takeovers + 1)
      case _ => l.(restarts := l.restarts + 1)
    else l
  }

  function VideoTrack(l: Ledger, before: Option<Video.VideoGeneration>, after: Option<Video.VideoGeneration>): Ledger {
    if before.Some? && after.Some? && before.value.attemptCount < after.value.attemptCount then
      match before.value.status
      case Pending => Ledger(after.value.updatedAt, 0, 0)
      case Generating => l.(takeovers := l.takeovers + 1)
      case _ => l.(restarts := l.restarts + 1)
    else l
  }

  predicate Accounts(timeout: int, attemptCount: int, startedAt: Option<int>, l: Ledger) {
    && (startedAt.None? ==> attemptCount == 0 && l.restarts == 0 && l.takeovers == 0)
    && (startedAt.Some? ==>
          && attemptCount == 1 + l.restarts + l.takeovers
          && l.takeovers * timeout <= startedAt.value - l.firstStart)
  }

  predicate LedgersOk(env: Env, rows: Rows, audio: Ledger, video: Ledger) {
    && (if rows.audio.None? then audio.restarts == 0 && audio.takeovers == 0
        else Accounts(env.timeout, rows.audio.value.attemptCount, rows.audio.value.startedAt, audio))
    && (if rows.video.None? then video.restarts == 0 && video.takeovers == 0
        else Accounts(env.timeout, rows.video.value.attemptCount, rows.video.value.startedAt, video))
    && (!rows.media.status.Pending? ==> rows.media.attemptCount == 1 + audio.restarts + video.restarts)
  }

  // What a transaction guarantees of a committed result.
  predicate Kept(env: Env, script: Script.ScriptGeneration, id: string, rows: Rows, rows': Rows, audio: Ledger,
                 video: Ledger)
  {
    && RowsOk(env, script, id, rows')
    && RowsEvolve(rows, rows')
    && LedgersOk(env, rows', AudioTrack(audio, rows.audio, rows'.audio), VideoTrack(video, rows.video, rows'.video))
  }

  // A claim moves the counts on by one: a first start, a restart, or a takeover that waited out the timeout.
  lemma AudioClaimAccounts(timeout: int, audio: Audio.NarrationAudio, startedAt: int, l: Ledger)
    requires Audio.Valid(audio) && AudioTable.Claimable(audio, startedAt, Some(startedAt - timeout))
    requires Accounts(timeout, audio.attemptCount, audio.startedAt, l)
    requires AudioTable.Stamped(audio)
    ensures var claimed := AudioTable.ClaimedRow(audio, startedAt);
      Accounts(timeout, claimed.attemptCount, claimed.startedAt, AudioTrack(l, Some(audio), Some(claimed)))
  {
    assert (l.takeovers + 1) * timeout == l.takeovers * timeout + timeout;
  }

  lemma VideoClaimAccounts(timeout: int, video: Video.VideoGeneration, startedAt: int, expected: int, l: Ledger)
    requires Video.Valid(video) && VideoTable.Claimable(video, startedAt, Some(startedAt - timeout), Some(expected))
    requires Accounts(timeout, video.attemptCount, video.startedAt, l)
    requires VideoTable.Stamped(video)
    ensures var claimed := VideoTable.ClaimedRow(video, startedAt);
      Accounts(timeout, claimed.attemptCount, claimed.startedAt, VideoTrack(l, Some(video), Some(claimed)))
  {
    assert (l.takeovers + 1) * timeout == l.takeovers * timeout + timeout;
  }

  // ---- Each transaction keeps all of it ----

  lemma ClaimAudioKeeps(env: Env, script: Script.ScriptGeneration, id: string, rows: Rows, startedAt: int, la: Ledger,
                        lv: Ledger)
    requires EnvOk(env) && RowsOk(env, script, id, rows) && LedgersOk(env, rows, la, lv)
    ensures var tx := ClaimAudio(env, Some(script), rows, startedAt);
      tx.Commit? ==>
        && Kept(env, script, id, rows, tx.rows, la, lv)
        && tx.rows.video == rows.video
        && (!tx.value.AudioClaimed? ==> tx.rows == rows)
        && (tx.value.AudioClaimed? ==> tx.rows.audio == Some(tx.value.row) && tx.value.row.status.Generating?
                                       && tx.value.narration == NarrationOf(script))
  {
    var tx := ClaimAudio(env, Some(script), rows, startedAt);
    if tx.Commit? && tx.value.AudioClaimed? {
      var audio := rows.audio.value;
      AudioTable.ClaimKeepsValid(audio, startedAt);
      Media.StartSpec(rows.media, startedAt);
      AudioClaimAccounts(env.timeout, audio, startedAt, la);
    }
  }

  lemma ClaimVideoKeeps(env: Env, script: Script.ScriptGeneration, id: string, rows: Rows, expected: int,
                        startedAt: int, la: Ledger, lv: Ledger)
    requires EnvOk(env) && RowsOk(env, script, id, rows) && LedgersOk(env, rows, la, lv)
    ensures var tx := ClaimVideo(env, rows, expected, startedAt);
      tx.Commit? ==>
        && Kept(env, script, id, rows, tx.rows, la, lv)
        && tx.rows.audio == rows.audio
        && (!tx.value.VideoClaimed? ==> tx.rows == rows)
        && (tx.value.VideoClaimed? ==>
              && tx.rows.video == Some(tx.value.row) && tx.value.row.status.Generating?
              && tx.value.row.attemptCount == expected && expected == rows.video.value.attemptCount + 1
              && rows.audio == Some(tx.value.source) && tx.value.source.status.Generated?)
  {
    ClaimVideoShape(env, rows, expected, startedAt);
    var tx := ClaimVideo(env, rows, expected, startedAt);
    if tx.Commit? && tx.value.VideoClaimed? {
      ClaimedVideoKept(env, script, id, rows, tx.rows.media, expected, startedAt, la, lv);
    }
  }

  // What a successful claim writes.
  lemma ClaimVideoShape(env: Env, rows: Rows, expected: int, startedAt: int)
    ensures var tx := ClaimVideo(env, rows, expected, startedAt);
      tx.Commit? ==>
        if tx.value.VideoClaimed? then
          && ClaimableVideo(env, rows, expected, startedAt)
          && tx.value == VideoClaimed(VideoTable.ClaimedRow(rows.video.value, startedAt), rows.audio.value)
          && StartedParent(rows.media, tx.rows.media, startedAt)
          && tx.rows == Rows(tx.rows.media, rows.audio, Some(VideoTable.ClaimedRow(rows.video.value, startedAt)))
        else
          tx.rows == rows
  {
  }

  predicate ClaimableVideo(env: Env, rows: Rows, expected: int, startedAt: int) {
    && rows.video.Some? && rows.audio.Some? && rows.audio.value.status.Generated?
    && VideoTable.Claimable(rows.video.value, startedAt, Some(startedAt - env.timeout), Some(expected))
  }

  predicate StartedParent(media: Media.MediaProduction, media': Media.MediaProduction, startedAt: int) {
    if media.status.Processing? then media' == media else Media.Start(media, startedAt) == Ok(media')
  }

  lemma ClaimedVideoKept(env: Env, script: Script.ScriptGeneration, id: string, rows: Rows,
                         media: Media.MediaProduction, expected: int, startedAt: int, la: Ledger, lv: Ledger)
    requires EnvOk(env) && RowsOk(env, script, id, rows) && LedgersOk(env, rows, la, lv)
    requires ClaimableVideo(env, rows, expected, startedAt) && StartedParent(rows.media, media, startedAt)
    ensures var rows' := Rows(media, rows.audio, Some(VideoTable.ClaimedRow(rows.video.value, startedAt)));
      Kept(env, script, id, rows, rows', la, lv)
  {
    VideoTable.ClaimKeepsValid(rows.video.value, startedAt);
    Media.StartSpec(rows.media, startedAt);
    VideoClaimAccounts(env.timeout, rows.video.value, startedAt, expected, lv);
  }

  lemma RecordAudioSuccessKeeps(env: Env, script: Script.ScriptGeneration, id: string, rows: Rows, attempt: int,
                                artifact: Artifact, completedAt: int, la: Ledger, lv: Ledger)
    requires EnvOk(env) && RowsOk(env, script, id, rows) && LedgersOk(env, rows, la, lv)
    requires Stripped(artifact.storageKey) && artifact.storageKey != "" && IsSha256Hex(artifact.contentSha256)
    ensures var tx := RecordAudioSuccess(rows, attempt, artifact, completedAt);
      tx.Commit? ==>
        && Kept(env, script, id, rows, tx.rows, la, lv)
        && tx.rows.video == rows.video
        && (tx.value != Recorded ==> tx.rows == rows)
        && (tx.value == Recorded ==>
              var before, after := rows.audio.value, tx.rows.audio.value;
              AudioTable.Current(before, attempt) && after.status.Generated? && after.attemptCount == attempt
              && after.storageKey == Some(artifact.storageKey) && after.byteSize == Some(artifact.byteSize)
              && after.contentSha256 == Some(artifact.contentSha256))
  {
    var tx := RecordAudioSuccess(rows, attempt, artifact, completedAt);
    if tx.Commit? && tx.value == Recorded {
      LongKeyRefused(artifact.storageKey);
      if IsNormalText(artifact.storageKey, Audio.MAX_STORAGE_KEY) {
        Audio.RecordGeneratedSpec(rows.audio.value, artifact.storageKey, artifact.byteSize, artifact.contentSha256,
                                  completedAt);
      }
    }
  }

  // A stripped, non-empty key that is too long is the only kind construction refuses.
  lemma LongKeyRefused(key: string)
    requires Stripped(key) && key != ""
    ensures NormalizeOptional(Some(key), Audio.MAX_STORAGE_KEY).Ok? <==> IsNormalText(key, Audio.MAX_STORAGE_KEY)
    ensures NormalizeOptional(Some(key), Video.MAX_STORAGE_KEY).Ok? <==> IsNormalText(key, Video.MAX_STORAGE_KEY)
  {
    StripIsNormal(key);
  }

  lemma RecordAudioFailureKeeps(env: Env, script: Script.ScriptGeneration, id: string, rows: Rows, attempt: int,
                                reason: string, failedAt: int, la: Ledger, lv: Ledger)
    requires EnvOk(env) && RowsOk(env, script, id, rows) && LedgersOk(env, rows, la, lv)
    ensures var tx := RecordAudioFailure(rows, attempt, reason, failedAt);
      tx.Commit? ==>
        && Kept(env, script, id, rows, tx.rows, la, lv)
        && tx.rows.video == rows.video
        && (tx.value != Recorded ==> tx.rows == rows)
        && (tx.value == Recorded ==> AudioTable.Current(rows.audio.value, attempt) && AudioIs(tx.rows, Audio.Failed)
                                     && tx.rows.audio.value.attemptCount == attempt)
  {
    if rows.audio.Some? {
      Audio.MarkFailedSpec(rows.audio.value, reason, failedAt);
      Media.MarkFailedSpec(rows.media, reason, failedAt);
    }
  }

  // The read before a completion statement, compared with the row the statement meets.
  lemma ReadForSuccessSpec(video: Video.VideoGeneration, attempt: int, artifact: Artifact, durationMs: int,
                           completedAt: int)
    requires Video.Valid(video)
    requires Stripped(artifact.storageKey) && artifact.storageKey != "" && IsSha256Hex(artifact.contentSha256)
    ensures var read := ReadForSuccess(Some(video), attempt, artifact, durationMs, completedAt);
      read.Ok? && read.value.Some? ==>
        && VideoTable.Current(video, attempt)
        && Video.RecordGenerated(video, artifact.storageKey, artifact.byteSize, artifact.contentSha256, durationMs,
                                 completedAt)
           == Ok(read.value.value)
        && IsNormalText(artifact.storageKey, Video.MAX_STORAGE_KEY)
        && read.value.value.completedAt == Some(completedAt)
  {
    LongKeyRefused(artifact.storageKey);
    if IsNormalText(artifact.storageKey, Video.MAX_STORAGE_KEY) {
      Video.RecordGeneratedSpec(video, artifact.storageKey, artifact.byteSize, artifact.contentSha256, durationMs,
                                completedAt);
    }
  }

  lemma UpdateSuccessKeeps(env: Env, script: Script.ScriptGeneration, id: string, rows: Rows,
                           read: Video.VideoGeneration, attempt: int, artifact: Artifact, durationMs: int,
                           completedAt: int, la: Ledger, lv: Ledger)
    requires EnvOk(env) && RowsOk(env, script, id, rows) && LedgersOk(env, rows, la, lv)
    requires Video.Valid(read) && VideoTable.Stamped(read) && rows.video.Some?
    requires VideoTable.Evolves(read, rows.video.value)
    requires VideoTable.Current(read, attempt)
    requires IsNormalText(artifact.storageKey, Video.MAX_STORAGE_KEY) && IsSha256Hex(artifact.contentSha256)
    requires Video.RecordGenerated(read, artifact.storageKey, artifact.byteSize, artifact.contentSha256, durationMs,
                                   completedAt).Ok?
    ensures var generated := Video.RecordGenerated(read, artifact.storageKey, artifact.byteSize, artifact.contentSha256,
                                                   durationMs, completedAt).value;
      var tx := UpdateSuccess(rows, attempt, generated);
      tx.Commit? ==>
        && Kept(env, script, id, rows, tx.rows, la, lv)
        && tx.rows.audio == rows.audio
        && (tx.value != Recorded ==> tx.rows == rows)
        && (tx.value == Recorded ==>
              && VideoTable.Current(rows.video.value, attempt) && tx.rows.video == Some(generated)
              && generated.status.Generated? && generated.attemptCount == attempt
              && generated.storageKey == Some(artifact.storageKey) && generated.byteSize == Some(artifact.byteSize)
              && generated.contentSha256 == Some(artifact.contentSha256))
  {
    if VideoTable.Current(rows.video.value, attempt) {
      VideoTable.SuccessRefinesRecordGenerated(read, rows.video.value, attempt, artifact.storageKey, artifact.byteSize,
                                               artifact.contentSha256, durationMs, completedAt);
      Video.RecordGeneratedSpec(read, artifact.storageKey, artifact.byteSize, artifact.contentSha256, durationMs,
                                completedAt);
      VideoTable.SameAttemptUnchanged(read, rows.video.value, attempt);
      Media.MarkReadySpec(rows.media, completedAt);
    }
  }

  lemma UpdateFailureKeeps(env: Env, script: Script.ScriptGeneration, id: string, rows: Rows,
                           read: Video.VideoGeneration, attempt: int, reason: string, failedAt: int, la: Ledger,
                           lv: Ledger)
    requires EnvOk(env) && RowsOk(env, script, id, rows) && LedgersOk(env, rows, la, lv)
    requires Video.Valid(read) && VideoTable.Stamped(read) && rows.video.Some?
    requires VideoTable.Evolves(read, rows.video.value)
    requires VideoTable.Current(read, attempt) && Video.MarkFailed(read, reason, failedAt).Ok?
    ensures var failed := Video.MarkFailed(read, reason, failedAt).value;
      var tx := UpdateFailure(rows, attempt, failed, reason, failedAt);
      tx.Commit? ==>
        && Kept(env, script, id, rows, tx.rows, la, lv)
        && tx.rows.audio == rows.audio
        && (tx.value != Recorded ==> tx.rows == rows)
        && (tx.value == Recorded ==> VideoTable.Current(rows.video.value, attempt) && tx.rows.video == Some(failed)
                                     && failed.status.Failed? && failed.attemptCount == attempt)
  {
    if VideoTable.Current(rows.video.value, attempt) {
      VideoTable.FailureRefinesMarkFailed(read, rows.video.value, attempt, reason, failedAt);
      Video.MarkFailedSpec(read, reason, failedAt);
      VideoTable.SameAttemptUnchanged(read, rows.video.value, attempt);
      Media.MarkFailedSpec(rows.media, reason, failedAt);
    }
  }

  // Preparation adds a pending row or changes nothing.
  lemma AddAudioKeeps(env: Env, script: Script.ScriptGeneration, id: string, rows: Rows, newId: string,
                      c: Audio.Configuration, preparedAt: int, la: Ledger, lv: Ledger)
    requires RowsOk(env, script, id, rows) && LedgersOk(env, rows, la, lv) && rows.audio.None?
    requires c.sourceTextSha256 == env.textDigest(NarrationOf(script)) && IsSha256Hex(c.sourceTextSha256)
    ensures var tx := AddAudio(rows, newId, c, preparedAt);
      tx.Commit? ==> Kept(env, script, id, rows, tx.rows, la, lv) && tx.rows == rows.(audio := tx.rows.audio)
                     && AudioIs(tx.rows, Audio.Pending)
  {
    Audio.NewPendingSpec(newId, id, SCHEDULED_VERSION, c, preparedAt);
    HexIsNormal(c.sourceTextSha256);
  }

  lemma PrepareAudioKeeps(env: Env, script: Script.ScriptGeneration, id: string, rows: Rows, newId: string,
                          provider: string, model: string, voice: string, audioFormat: string, staleBefore: int,
                          preparedAt: int, la: Ledger, lv: Ledger)
    requires EnvOk(env) && RowsOk(env, script, id, rows) && LedgersOk(env, rows, la, lv)
    ensures var tx := PrepareAudio(env, script, rows, newId, provider, model, voice, audioFormat, staleBefore,
                                   preparedAt);
      tx.Commit? ==> Kept(env, script, id, rows, tx.rows, la, lv)
                     && (tx.rows == rows
                         || (tx.rows == rows.(audio := tx.rows.audio) && AudioIs(tx.rows, Audio.Pending)))
  {
    NothingHappened(env, script, id, rows, la, lv);
    if AudioEligible(script, rows, staleBefore) && rows.audio.None? {
      AddAudioKeeps(env, script, id, rows, newId,
                    Audio.Configuration(provider, model, voice, audioFormat, env.textDigest(NarrationOf(script))),
                    preparedAt, la, lv);
    }
  }

  lemma NothingHappened(env: Env, script: Script.ScriptGeneration, id: string, rows: Rows, la: Ledger, lv: Ledger)
    requires RowsOk(env, script, id, rows) && LedgersOk(env, rows, la, lv)
    ensures Kept(env, script, id, rows, rows, la, lv)
  {
  }

  lemma AddVideoKeeps(env: Env, script: Script.ScriptGeneration, id: string, rows: Rows, newId: string,
                      c: Video.Configuration, preparedAt: int, la: Ledger, lv: Ledger)
    requires RowsOk(env, script, id, rows) && LedgersOk(env, rows, la, lv) && rows.video.None?
    requires AudioIs(rows, Audio.Generated) && c.sourceAudioGenerationId == rows.audio.value.audioGenerationId
    requires rows.audio.value.contentSha256 == Some(c.sourceAudioSha256)
    ensures var tx := AddVideo(rows, newId, c, preparedAt);
      tx.Commit? ==> Kept(env, script, id, rows, tx.rows, la, lv) && tx.rows == rows.(video := tx.rows.video)
                     && VideoIs(tx.rows, Video.Pending)
  {
    Video.NewPendingSpec(newId, id, SCHEDULED_VERSION, c, preparedAt);
    HexIsNormal(c.sourceAudioSha256);
  }

  lemma PrepareVideoKeeps(env: Env, script: Script.ScriptGeneration, id: string, rows: Rows, newId: string,
                          settings: RenderSettings, staleBefore: int, preparedAt: int, la: Ledger, lv: Ledger)
    requires EnvOk(env) && RowsOk(env, script, id, rows) && LedgersOk(env, rows, la, lv)
    ensures var tx := PrepareVideo(rows, newId, settings, staleBefore, preparedAt);
      tx.Commit? ==> Kept(env, script, id, rows, tx.rows, la, lv)
                     && (tx.rows == rows
                         || (tx.rows == rows.(video := tx.rows.video) && VideoIs(tx.rows, Video.Pending)))
  {
    NothingHappened(env, script, id, rows, la, lv);
    if VideoEligible(rows, staleBefore) && rows.video.None? {
      AddVideoKeeps(env, script, id, rows, newId, RequestFor(settings, rows.audio.value), preparedAt, la, lv);
    }
  }
}
