// The database transactions of the media workers, on the rows of one media production.
//
// The scheduler runs every media production with one audio and one video version, so the rows a
// transaction touches are the production, its audio row and its video row. A transaction either commits
// new rows with a result or aborts and leaves the rows as they were.

module MediaTransactions {
  import opened Wrappers
  import opened Text
  import opened FileStorage
  import Media = MediaProductions
  import Audio = NarrationAudios
  import Video = VideoGenerations
  import Script = ScriptGenerations
  import AudioTable = AudioRepository
  import VideoTable = VideoRepository

  const SCHEDULED_VERSION := 1

  // What the surroundings supply: the digests and the job timeout every worker is configured with.
  datatype Env = Env(digest: Digest, textDigest: string -> string, timeout: int)

  ghost predicate EnvOk(env: Env) {
    && env.timeout >= 1
    && (forall data {:trigger IsSha256Hex(env.digest(data))} :: IsSha256Hex(env.digest(data)))
    && (forall text {:trigger IsSha256Hex(env.textDigest(text))} :: IsSha256Hex(env.textDigest(text)))
  }

  datatype Rows = Rows(
    media: Media.MediaProduction,
    audio: Option<Audio.NarrationAudio>,
    video: Option<Video.VideoGeneration>)

  datatype TxError =
    | InvalidArgument
    | NotFound
    | ReadyWithUnfinishedChild
    | ScriptNotGenerated
    | EmptyNarration
    | SourceNotGenerated
    | SourceMismatch
    | ParentNotEligible
    | ConfigurationMismatch
    | Domain(error: DomainError)

  datatype Tx<+T> = Commit(rows: Rows, value: T) | Abort(error: TxError)

  // ---- Claims ----

  // A claim that succeeded starts its parent, unless the parent is already processing.
  function StartParent<T>(rows: Rows, startedAt: int, value: T): Tx<T> {
    if rows.media.status.Pending? || rows.media.status.Failed? then
      match Media.Start(rows.media, startedAt)
      case Ok(media) => Commit(rows.(media := media), value)
      case Err(e) => Abort(Domain(e))
    else if !rows.media.status.Processing? then Abort(ParentNotEligible)
    else Commit(rows, value)
  }

  datatype AudioClaim =
    | AudioAlreadyGenerated
    | AudioNotClaimed(status: Audio.Status)
    | AudioClaimed(row: Audio.NarrationAudio, narration: string)

  function ClaimAudio(env: Env, script: Option<Script.ScriptGeneration>, rows: Rows, startedAt: int): Tx<AudioClaim> {
    if rows.audio.None? then Abort(NotFound) else
    var audio := rows.audio.value;
    if audio.status.Generated? then Commit(rows, AudioAlreadyGenerated)
    else if rows.media.status.Ready? then Abort(ReadyWithUnfinishedChild)
    else if script.None? then Abort(NotFound)
    else if !script.value.status.Generated? then Abort(ScriptNotGenerated)
    else if script.value.fullNarration.None? || Strip(script.value.fullNarration.value) == "" then Abort(EmptyNarration)
    else
      var narration := Strip(script.value.fullNarration.value);
      if env.textDigest(narration) != audio.sourceTextSha256 then Abort(SourceMismatch)
      else if !AudioTable.Claimable(audio, startedAt, Some(startedAt - env.timeout)) then
        Commit(rows, AudioNotClaimed(audio.status))
      else
        var claimed := AudioTable.ClaimedRow(audio, startedAt);
        StartParent(rows.(audio := Some(claimed)), startedAt, AudioClaimed(claimed, narration))
  }

  datatype VideoClaim =
    | VideoAlreadyGenerated
    | VideoNotClaimed
    | VideoClaimed(row: Video.VideoGeneration, source: Audio.NarrationAudio)

  function ClaimVideo(env: Env, rows: Rows, expectedAttempt: int, startedAt: int): Tx<VideoClaim> {
    if expectedAttempt < 1 then Abort(InvalidArgument)
    else if rows.video.None? then Abort(NotFound)
    else
      var video := rows.video.value;
      if video.status.Generated? then Commit(rows, VideoAlreadyGenerated)
      else if rows.media.status.Ready? then Abort(ReadyWithUnfinishedChild)
      else if rows.audio.None? || rows.audio.value.audioGenerationId != video.sourceAudioGenerationId
        then Abort(NotFound)
      else
        var source := rows.audio.value;
        if !source.status.Generated? then Abort(SourceNotGenerated)
        else if source.mediaProductionId != video.mediaProductionId then Abort(SourceMismatch)
        else if source.contentSha256 != Some(video.sourceAudioSha256) then Abort(SourceMismatch)
        else if !VideoTable.Claimable(video, startedAt, Some(startedAt - env.timeout), Some(expectedAttempt)) then
          Commit(rows, VideoNotClaimed)
        else
          var claimed := VideoTable.ClaimedRow(video, startedAt);
          StartParent(rows.(video := Some(claimed)), startedAt, VideoClaimed(claimed, source))
  }

  // ---- Completions ----

  datatype Settlement = Recorded | AlreadyGenerated | Superseded

  function RecordAudioSuccess(rows: Rows, attempt: int, artifact: Artifact, completedAt: int): Tx<Settlement> {
    if rows.audio.None? then Abort(NotFound)
    else if rows.audio.value.status.Generated? then Commit(rows, AlreadyGenerated)
    else if !AudioTable.Current(rows.audio.value, attempt) then Commit(rows, Superseded)
    else
      match Audio.RecordGenerated(rows.audio.value, artifact.storageKey, artifact.byteSize, artifact.contentSha256,
                                  completedAt)
      case Ok(generated) => Commit(rows.(audio := Some(generated)), Recorded)
      case Err(e) => Abort(Domain(e))
  }

  // A recorded failure fails the parent, if the parent is processing.
  function FailParent(rows: Rows, reason: string, failedAt: int): Tx<Settlement> {
    if !rows.media.status.Processing? then Commit(rows, Recorded)
    else
      match Media.MarkFailed(rows.media, reason, failedAt)
      case Ok(media) => Commit(rows.(media := media), Recorded)
      case Err(e) => Abort(Domain(e))
  }

  function RecordAudioFailure(rows: Rows, attempt: int, reason: string, failedAt: int): Tx<Settlement> {
    if rows.audio.None? then Abort(NotFound)
    else if !AudioTable.Current(rows.audio.value, attempt) then Commit(rows, Superseded)
    else
      match Audio.MarkFailed(rows.audio.value, reason, failedAt)
      case Ok(failed) => FailParent(rows.(audio := Some(failed)), reason, failedAt)
      case Err(e) => Abort(Domain(e))
  }

  // The read that precedes the success statement: None when the attempt is no longer current, otherwise the
  // domain object the statement takes its columns from.
  function ReadForSuccess(video: Option<Video.VideoGeneration>, attempt: int, artifact: Artifact, durationMs: int,
                          completedAt: int): Result<Option<Video.VideoGeneration>, DomainError>
  {
    if video.None? || !VideoTable.Current(video.value, attempt) then Ok(None) else
    var generated :- Video.RecordGenerated(video.value, artifact.storageKey, artifact.byteSize, artifact.contentSha256,
                                           durationMs, completedAt);
    Ok(Some(generated))
  }

  // The success statement and the rest of its transaction.
  function UpdateSuccess(rows: Rows, attempt: int, generated: Video.VideoGeneration): Tx<Settlement> {
    if rows.video.None? || !VideoTable.Current(rows.video.value, attempt) then Commit(rows, Superseded)
    else
      var row := VideoTable.GeneratedRow(rows.video.value, generated);
      if !rows.media.status.Processing? || row.completedAt.None? then Abort(ParentNotEligible)
      else
        match Media.MarkReady(rows.media, row.completedAt.value)
        case Ok(media) => Commit(rows.(video := Some(row), media := media), Recorded)
        case Err(e) => Abort(Domain(e))
  }

  function ReadForFailure(video: Option<Video.VideoGeneration>, attempt: int, reason: string, failedAt: int)
    : Result<Option<Video.VideoGeneration>, DomainError>
  {
    if video.None? || !VideoTable.Current(video.value, attempt) then Ok(None) else
    var failed :- Video.MarkFailed(video.value, reason, failedAt);
    Ok(Some(failed))
  }

  function UpdateFailure(rows: Rows, attempt: int, failed: Video.VideoGeneration, reason: string, failedAt: int)
    : Tx<Settlement>
  {
    if rows.video.None? || !VideoTable.Current(rows.video.value, attempt) then Commit(rows, Superseded)
    else FailParent(rows.(video := Some(VideoTable.FailedRow(rows.video.value, failed))), reason, failedAt)
  }

  // ---- Preparation, for one candidate ----

  datatype Job = Job(generationId: string, mediaProductionId: string, nextAttempt: int)

  predicate StaleAudio(audio: Audio.NarrationAudio, staleBefore: int) {
    audio.status.Generating? && audio.startedAt.Some? && audio.startedAt.value <= staleBefore
  }

  predicate AudioEligible(script: Script.ScriptGeneration, rows: Rows, staleBefore: int) {
    && !rows.media.status.Ready?
    && script.status.Generated? && script.fullNarration.Some? && Strip(script.fullNarration.value) != ""
    && (rows.audio.Some? ==>
          rows.audio.value.status.Pending? || rows.audio.value.status.Failed?
            || StaleAudio(rows.audio.value, staleBefore))
  }

  function PrepareAudio(env: Env, script: Script.ScriptGeneration, rows: Rows, newId: string, provider: string,
                        model: string, voice: string, audioFormat: string, staleBefore: int, preparedAt: int)
    : Tx<Option<Job>>
  {
    if !AudioEligible(script, rows, staleBefore) then Commit(rows, None) else
    var requested := Audio.Configuration(provider, model, voice, audioFormat,
                                         env.textDigest(Strip(script.fullNarration.value)));
    if rows.audio.None? then AddAudio(rows, newId, requested, preparedAt) else ReuseAudio(rows, requested)
  }

  function AddAudio(rows: Rows, newId: string, requested: Audio.Configuration, preparedAt: int): Tx<Option<Job>> {
    match Audio.NewPending(newId, rows.media.mediaProductionId, SCHEDULED_VERSION, requested, preparedAt)
    case Ok(audio) =>
      Commit(rows.(audio := Some(audio)),
             Some(Job(audio.audioGenerationId, audio.mediaProductionId, audio.attemptCount + 1)))
    case Err(e) => Abort(Domain(e))
  }

  // The request is put in normal form by building a record from it.
  function ReuseAudio(rows: Rows, requested: Audio.Configuration): Tx<Option<Job>>
    requires rows.audio.Some?
  {
    var existing := rows.audio.value;
    match Audio.NewPending(existing.audioGenerationId, rows.media.mediaProductionId, SCHEDULED_VERSION, requested,
                           existing.createdAt)
    case Err(e) => Abort(Domain(e))
    case Ok(r) =>
      if (existing.provider, existing.model, existing.voice, existing.audioFormat, existing.sourceTextSha256)
         != (r.provider, r.model, r.voice, r.audioFormat, r.sourceTextSha256)
      then Abort(ConfigurationMismatch)
      else Commit(rows, Some(Job(existing.audioGenerationId, existing.mediaProductionId, existing.attemptCount + 1)))
  }

  predicate StaleVideo(video: Video.VideoGeneration, staleBefore: int) {
    video.status.Generating? && video.startedAt.Some? && video.startedAt.value <= staleBefore
  }

  predicate VideoEligible(rows: Rows, staleBefore: int) {
    && (rows.media.status.Processing? || rows.media.status.Failed?)
    && rows.audio.Some? && rows.audio.value.status.Generated?
    && rows.audio.value.storageKey.Some? && rows.audio.value.contentSha256.Some?
    && (rows.video.Some? ==>
          rows.video.value.status.Pending? || rows.video.value.status.Failed?
            || StaleVideo(rows.video.value, staleBefore))
  }

  // The requested configuration against the stored one, compared in normal form.
  predicate SameRequest(video: Video.VideoGeneration, c: Video.Configuration) {
    && Strip(c.renderer) == video.renderer
    && Lower(Strip(c.videoFormat)) == video.videoFormat
    && c.width == video.width && c.height == video.height && c.fps == video.fps
    && c.sourceAudioGenerationId == video.sourceAudioGenerationId
    && Lower(Strip(c.sourceAudioSha256)) == video.sourceAudioSha256
  }

  datatype RenderSettings = RenderSettings(renderer: string, videoFormat: string, width: int, height: int, fps: int)

  function RequestFor(settings: RenderSettings, audio: Audio.NarrationAudio): Video.Configuration
    requires audio.contentSha256.Some?
  {
    Video.Configuration(settings.renderer, settings.videoFormat, settings.width, settings.height, settings.fps,
                        audio.audioGenerationId, audio.contentSha256.value)
  }

  function PrepareVideo(rows: Rows, newId: string, settings: RenderSettings, staleBefore: int, preparedAt: int)
    : Tx<Option<Job>>
  {
    if !VideoEligible(rows, staleBefore) then Commit(rows, None)
    else PrepareCandidate(rows, newId, RequestFor(settings, rows.audio.value), preparedAt)
  }

  function PrepareCandidate(rows: Rows, newId: string, requested: Video.Configuration,
                            preparedAt: int): Tx<Option<Job>>
  {
    if rows.video.None? then AddVideo(rows, newId, requested, preparedAt)
    else if !SameRequest(rows.video.value, requested) then Abort(ConfigurationMismatch)
    else if rows.video.value.status.Generated? then Commit(rows, None)
    else Commit(rows, Some(JobFor(rows.video.value)))
  }

  function JobFor(video: Video.VideoGeneration): Job {
    Job(video.videoGenerationId, video.mediaProductionId, video.attemptCount + 1)
  }

  function AddVideo(rows: Rows, newId: string, requested: Video.Configuration, preparedAt: int): Tx<Option<Job>> {
    match Video.NewPending(newId, rows.media.mediaProductionId, SCHEDULED_VERSION, requested, preparedAt)
    case Ok(video) => Commit(rows.(video := Some(video)), Some(JobFor(video)))
    case Err(e) => Abort(Domain(e))
  }
}
