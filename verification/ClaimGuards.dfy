// The guards of the two claims on any rows at all, also rows no run reaches: when work is handed out, and that nothing
// is written otherwise.

module ClaimGuards {
  import opened Wrappers
  import opened Text
  import opened MediaTransactions
  import Media = MediaProductions
  import Audio = NarrationAudios
  import Video = VideoGenerations
  import Script = ScriptGenerations

  // The parent is processing, or can be started now.
  predicate ParentAllows(media: Media.MediaProduction, at: int) {
    media.status == Media.Processing
    || ((media.status == Media.Pending || media.status == Media.Failed) && media.updatedAt <= at)
  }

  // Waiting, failed, or running for at least the timeout; and not written later than the claim.
  predicate FreeAudio(row: Audio.NarrationAudio, timeout: int, at: int) {
    && (|| row.status == Audio.Pending || row.status == Audio.Failed
        || (row.status == Audio.Generating && row.startedAt.Some? && row.startedAt.value + timeout <= at))
    && row.updatedAt <= at
  }

  predicate FreeVideo(row: Video.VideoGeneration, timeout: int, at: int) {
    && (|| row.status == Video.Pending || row.status == Video.Failed
        || (row.status == Video.Generating && row.startedAt.Some? && row.startedAt.value + timeout <= at))
    && row.updatedAt <= at
  }

  // The script is generated, and its narration is the text the row was asked for.
  predicate SpeaksScript(env: Env, script: Option<Script.ScriptGeneration>, row: Audio.NarrationAudio) {
    && script.Some? && script.value.status == Script.Generated && script.value.fullNarration.Some?
    && Strip(script.value.fullNarration.value) != ""
    && row.sourceTextSha256 == env.textDigest(Strip(script.value.fullNarration.value))
  }

  lemma NarrationHandedOutIff(env: Env, script: Option<Script.ScriptGeneration>, rows: Rows, at: int)
    requires Media.Valid(rows.media)
    ensures var tx := ClaimAudio(env, script, rows, at);
      && (tx.Commit? && tx.value.AudioClaimed? <==>
            && rows.audio.Some? && FreeAudio(rows.audio.value, env.timeout, at)
            && SpeaksScript(env, script, rows.audio.value) && ParentAllows(rows.media, at))
      && (tx.Commit? && tx.value.AudioClaimed? ==>
            && tx.rows.audio == Some(tx.value.row) && tx.rows.video == rows.video
            && tx.rows.media.status == Media.Processing
            && tx.value.row.status == Audio.Generating
            && tx.value.row.attemptCount == rows.audio.value.attemptCount + 1 && tx.value.row.startedAt == Some(at)
            && tx.value.narration == Strip(script.value.fullNarration.value))
      && (tx.Commit? && !tx.value.AudioClaimed? ==> tx.rows == rows)
      && (tx.Commit? && tx.value == AudioAlreadyGenerated <==>
            rows.audio.Some? && rows.audio.value.status == Audio.Generated)
      && (tx.Commit? && tx.value != AudioAlreadyGenerated ==> rows.media.status != Media.Ready)
  {
    Media.StartSpec(rows.media, at);
  }

  // The row a preparation adds is one a claim accepts for the same script, whatever space the narration came with.
  lemma NewRowSpeaksScript(env: Env, script: Script.ScriptGeneration, rows: Rows, newId: string, provider: string,
                           model: string, voice: string, audioFormat: string, staleBefore: int, at: int)
    requires EnvOk(env) && rows.audio.None?
    ensures var tx := PrepareAudio(env, script, rows, newId, provider, model, voice, audioFormat, staleBefore, at);
      tx.Commit? && tx.value.Some? ==>
        tx.rows.audio.Some? && SpeaksScript(env, Some(script), tx.rows.audio.value)
  {
    if script.fullNarration.Some? {
      var digest := env.textDigest(Strip(script.fullNarration.value));
      assert IsSha256Hex(digest);
      HexIsNormal(digest);
      Audio.NewPendingSpec(newId, rows.media.mediaProductionId, SCHEDULED_VERSION,
                           Audio.Configuration(provider, model, voice, audioFormat, digest), at);
    }
  }

  // The narration the row was asked for is generated, of the same production and with the digest the row names.
  predicate ShowsNarration(rows: Rows)
    requires rows.video.Some?
  {
    && rows.audio.Some? && rows.audio.value.status == Audio.Generated
    && rows.audio.value.audioGenerationId == rows.video.value.sourceAudioGenerationId
    && rows.audio.value.mediaProductionId == rows.video.value.mediaProductionId
    && rows.audio.value.contentSha256 == Some(rows.video.value.sourceAudioSha256)
  }

  lemma VideoHandedOutIff(env: Env, rows: Rows, expected: int, at: int)
    requires Media.Valid(rows.media)
    ensures var tx := ClaimVideo(env, rows, expected, at);
      && (tx.Commit? && tx.value.VideoClaimed? <==>
            && expected >= 1 && rows.video.Some? && FreeVideo(rows.video.value, env.timeout, at)
            && rows.video.value.attemptCount + 1 == expected
            && ShowsNarration(rows) && ParentAllows(rows.media, at))
      && (tx.Commit? && tx.value.VideoClaimed? ==>
            && tx.rows.video == Some(tx.value.row) && tx.rows.audio == rows.audio == Some(tx.value.source)
            && tx.rows.media.status == Media.Processing
            && tx.value.row.status == Video.Generating && tx.value.row.attemptCount == expected
            && tx.value.row.startedAt == Some(at))
      && (tx.Commit? && !tx.value.VideoClaimed? ==> tx.rows == rows)
      && (tx.Commit? && tx.value == VideoAlreadyGenerated <==>
            expected >= 1 && rows.video.Some? && rows.video.value.status == Video.Generated)
      && (tx.Commit? && tx.value != VideoAlreadyGenerated ==> rows.media.status != Media.Ready)
  {
    Media.StartSpec(rows.media, at);
  }

  // Whatever the rows, a job is for a video that is not generated, and for its next attempt.
  lemma NoJobForGenerated(rows: Rows, newId: string, requested: Video.Configuration, at: int)
    ensures var tx := PrepareCandidate(rows, newId, requested, at);
      tx.Commit? && tx.value.Some? ==>
        && tx.rows.video.Some? && tx.rows.video.value.status != Video.Generated
        && tx.value.value.nextAttempt == tx.rows.video.value.attemptCount + 1
        && tx.value.value.generationId == tx.rows.video.value.videoGenerationId
  {
    if rows.video.None? {
      Video.NewPendingSpec(newId, rows.media.mediaProductionId, SCHEDULED_VERSION, requested, at);
    }
  }
}
