// The renderer's service as one sequential program: the protocol splits it into steps, and the two agree.

module RenderArtifact {
  import opened Wrappers
  import opened StorageKeys
  import opened FileStorage
  import opened MediaTransactions
  import opened MediaProtocol
  import Audio = NarrationAudios
  import Video = VideoGenerations

  // What the protocol's steps say the service starts writing, if it gets that far.
  function PayloadOf(env: Env, files: Files, k: Worker, video: Option<(Bytes, int)>): Result<Payload, Cause>
    requires k.task.VideoTask?
  {
    match SourceRead(env, files, k)
    case Rendering(data) =>
      (match Filmed(k, data, video)
       case Checking(p) => Ok(p)
       case Failing(c) => Err(c)
       case _ => Err(ToolFailure))
    case Failing(c) => Err(c)
    case _ => Err(SourceCheck)
  }

  // On any records and files, rendering starts exactly for the running attempt of an ffmpeg video whose narration is
  // GENERATED, is the one the video names by id, production and digest, and whose stored bytes have that digest.
  lemma RendersIff(env: Env, files: Files, k: Worker, data: Bytes)
    requires k.task.VideoTask?
    ensures SourceRead(env, files, k) == Rendering(data) <==>
      var video, source := k.task.video, k.task.source;
      && video.status == Video.Generating && video.attemptCount == k.attempt && video.renderer == "ffmpeg"
      && source.status == Audio.Generated && source.audioGenerationId == video.sourceAudioGenerationId
      && source.mediaProductionId == video.mediaProductionId
      && source.contentSha256 == Some(video.sourceAudioSha256) && source.storageKey.Some?
      && TargetForKey(source.storageKey.value).Ok? && TargetForKey(source.storageKey.value).value in files
      && files[TargetForKey(source.storageKey.value).value] == data && data != []
      && env.digest(data) == video.sourceAudioSha256
    ensures SourceRead(env, files, k).Rendering? || SourceRead(env, files, k).Failing?
  {
  }

  // A refused claim, source or rendering leaves the store alone. Otherwise the rendered content is written under
  // the attempt's own key while others link their files; the service then fails exactly when the rendering is
  // empty, the key is bad, or whoever linked the target first linked other content, and a success reports the
  // content that lies there.
  method Execute(env: Env, storage: LocalFileStorage, k: Worker, video: Option<(Bytes, int)>, nonce: string,
                 others: seq<Files>)
    returns (r: Result<(Artifact, int), Cause>)
    requires k.task.VideoTask? && storage.digest == env.digest && nonce !in storage.temporaries && |others| == 3
    modifies storage
    ensures storage.temporaries == old(storage.temporaries) && Preserves(old(storage.files), storage.files)
    ensures match PayloadOf(env, old(storage.files), k, video)
            case Err(c) => r == Err(c) && storage.files == old(storage.files)
            case Ok(p) =>
              var target, stores := TargetForKey(KeyOf(k)), [old(storage.files), others[0], others[1]];
              && storage.files == StoreAfter(old(storage.files), KeyOf(k), p.data, others)
              && (r.Err? <==>
                    || p.data == [] || target.Err?
                    || env.digest(Winner(stores, target.value, p.data)) != env.digest(p.data))
              && (r.Err? ==> r.error.Storage?)
              && (r.Ok? ==>
                    && target.value in storage.files && r.value.1 == p.durationMs
                    && r.value.0 == ArtifactOf(env.digest, KeyOf(k), storage.files[target.value])
                    && r.value.0.contentSha256 == env.digest(p.data))
  {
    var generation, source := k.task.video, k.task.source;
    if !generation.status.Generating? {
      return Err(SourceCheck);
    }
    if generation.attemptCount != k.attempt {
      return Err(SourceCheck);
    }
    if generation.renderer != "ffmpeg" {
      return Err(UnsupportedTool);
    }
    if !source.status.Generated? {
      return Err(SourceCheck);
    }
    if source.audioGenerationId != generation.sourceAudioGenerationId {
      return Err(SourceCheck);
    }
    if source.mediaProductionId != generation.mediaProductionId {
      return Err(SourceCheck);
    }
    if source.contentSha256 != Some(generation.sourceAudioSha256) {
      return Err(SourceCheck);
    }
    if source.storageKey.None? {
      return Err(SourceCheck);
    }
    var audioData := Read(storage.files, source.storageKey.value);
    if audioData.Err? {
      return Err(Storage(audioData.error));
    }
    if audioData.value.None? {
      return Err(SourceCheck);
    }
    if env.digest(audioData.value.value) != generation.sourceAudioSha256 {
      return Err(SourceCheck);
    }
    if generation.videoFormat != "mp4" || video.None? {
      return Err(ToolFailure);
    }
    WriteSpec(env.digest, storage.files, KeyOf(k), video.value.0, others);
    var written := storage.Write(KeyOf(k), video.value.0, nonce, others);
    if written.Err? {
      return Err(Storage(written.error));
    }
    return Ok((written.value, video.value.1));
  }
}
