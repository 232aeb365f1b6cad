// The video-generation record: its validity rules and its transitions.

module VideoGenerations {
  import opened Wrappers
  import opened Text

  datatype Status = Pending | Generating | Generated | Failed

  // Instants are integers on one time line.
  datatype VideoGeneration = VideoGeneration(
    videoGenerationId: string,
    mediaProductionId: string,
    videoVersion: int,
    status: Status,
    renderer: string,
    videoFormat: string,
    width: int,
    height: int,
    fps: int,
    sourceAudioGenerationId: string,
    sourceAudioSha256: string,
    attemptCount: int,
    storageKey: Option<string>,
    byteSize: Option<int>,
    contentSha256: Option<string>,
    durationMs: Option<int>,
    failureReason: Option<string>,
    createdAt: int,
    startedAt: Option<int>,
    completedAt: Option<int>,
    updatedAt: int)

  const MAX_RENDERER := 64
  const MAX_FORMAT := 16
  const MAX_STORAGE_KEY := 1024
  const MAX_FAILURE_REASON := 2000

  predicate HasArtifact(g: VideoGeneration) {
    g.storageKey.Some? || g.byteSize.Some? || g.contentSha256.Some? || g.durationMs.Some?
  }

  predicate HasCompleteArtifact(g: VideoGeneration) {
    g.storageKey.Some? && g.byteSize.Some? && g.contentSha256.Some? && g.durationMs.Some?
  }

  // The numeric and temporal rules that hold in every status.
  predicate NumbersConsistent(g: VideoGeneration) {
    && g.videoVersion >= 1
    && g.attemptCount >= 0
    && g.width >= 1 && g.height >= 1 && g.fps >= 1
    && (g.byteSize.Some? ==> g.byteSize.value >= 1)
    && (g.durationMs.Some? ==> g.durationMs.value >= 1)
    && g.updatedAt >= g.createdAt
    && (g.startedAt.Some? ==> g.startedAt.value >= g.createdAt)
    && (g.completedAt.Some? && g.startedAt.Some? ==> g.completedAt.value >= g.startedAt.value)
  }

  // The rules that depend on the status.
  predicate StatusConsistent(g: VideoGeneration) {
    if g.status.Pending? then
      g.attemptCount == 0 && g.startedAt.None? && g.completedAt.None? && g.failureReason.None? && !HasArtifact(g)
    else
      && g.attemptCount >= 1
      && g.startedAt.Some?
      && match g.status
         case Generating => g.completedAt.None? && g.failureReason.None? && !HasArtifact(g)
         case Generated => g.completedAt.Some? && g.failureReason.None? && HasCompleteArtifact(g)
         case _ => g.completedAt.Some? && g.failureReason.Some? && !HasArtifact(g)
  }

  predicate TextsNormal(g: VideoGeneration) {
    && IsNormalText(g.renderer, MAX_RENDERER)
    && IsNormalText(g.videoFormat, MAX_FORMAT) && IsLower(g.videoFormat)
    && IsSha256Hex(g.sourceAudioSha256)
    && IsNormalOptional(g.storageKey, MAX_STORAGE_KEY)
    && IsOptionalSha256(g.contentSha256)
    && IsNormalOptional(g.failureReason, MAX_FAILURE_REASON)
  }

  predicate Valid(g: VideoGeneration) {
    TextsNormal(g) && NumbersConsistent(g) && StatusConsistent(g)
  }

  // Construction: every text is normalised, then the whole record is validated.
  function PostInit(g: VideoGeneration): Result<VideoGeneration, DomainError> {
    var renderer :- NormalizeRequired(g.renderer, MAX_RENDERER);
    var videoFormat :- NormalizeRequired(g.videoFormat, MAX_FORMAT);
    var sourceSha :- NormalizeSha256(g.sourceAudioSha256);
    var storageKey :- NormalizeOptional(g.storageKey, MAX_STORAGE_KEY);
    var contentSha :- NormalizeOptionalSha256(g.contentSha256);
    var failureReason :- NormalizeOptional(g.failureReason, MAX_FAILURE_REASON);
    var normalized := g.(renderer := renderer, videoFormat := Lower(videoFormat), sourceAudioSha256 := sourceSha,
                         storageKey := storageKey, contentSha256 := contentSha, failureReason := failureReason);
    if NumbersConsistent(normalized) && StatusConsistent(normalized) then Ok(normalized) else Err(InvalidData)
  }

  // What a caller configures when it prepares a generation.
  datatype Configuration = Configuration(
    renderer: string, videoFormat: string, width: int, height: int, fps: int,
    sourceAudioGenerationId: string, sourceAudioSha256: string)

  function NewPending(id: string, mediaProductionId: string, videoVersion: int, c: Configuration, createdAt: int)
    : Result<VideoGeneration, DomainError>
  {
    PostInit(VideoGeneration(
      id, mediaProductionId, videoVersion, Pending, c.renderer, c.videoFormat, c.width, c.height, c.fps,
      c.sourceAudioGenerationId, c.sourceAudioSha256, 0, None, None, None, None, None,
      createdAt, None, None, createdAt))
  }

  lemma NewPendingSpec(id: string, mediaProductionId: string, videoVersion: int, c: Configuration, createdAt: int)
    ensures var r := NewPending(id, mediaProductionId, videoVersion, c, createdAt);
      r.Ok? ==>
        && Valid(r.value) && r.value.status.Pending? && r.value.updatedAt == r.value.createdAt == createdAt
        && r.value.videoGenerationId == id && r.value.mediaProductionId == mediaProductionId
        && r.value.videoVersion == videoVersion && r.value.sourceAudioGenerationId == c.sourceAudioGenerationId
        && r.value.attemptCount == 0
        && r.value.renderer == Strip(c.renderer) && r.value.videoFormat == Lower(Strip(c.videoFormat))
        && r.value.width == c.width && r.value.height == c.height && r.value.fps == c.fps
        && r.value.sourceAudioSha256 == Lower(Strip(c.sourceAudioSha256))
  {
    PostInitSpec(VideoGeneration(id, mediaProductionId, videoVersion, Pending, c.renderer, c.videoFormat, c.width,
                                 c.height,
      c.fps, c.sourceAudioGenerationId, c.sourceAudioSha256, 0, None, None, None, None, None,
      createdAt, None, None, createdAt));
  }

  // What a caller may configure for a source it knows.
  lemma NewPendingIff(id: string, mediaProductionId: string, videoVersion: int, c: Configuration, createdAt: int)
    requires IsSha256Hex(c.sourceAudioSha256) && videoVersion >= 1
    ensures NewPending(id, mediaProductionId, videoVersion, c, createdAt).Ok? <==>
      && NormalizeRequired(c.renderer, MAX_RENDERER).Ok? && NormalizeRequired(c.videoFormat, MAX_FORMAT).Ok?
      && c.width >= 1 && c.height >= 1 && c.fps >= 1
  {
    HexIsNormal(c.sourceAudioSha256);
  }

  function Start(g: VideoGeneration, startedAt: int): Result<VideoGeneration, DomainError> {
    if !(g.status.Pending? || g.status.Failed?) then Err(InvalidTransition)
    else if startedAt < g.updatedAt then Err(InvalidData)
    else PostInit(g.(status := Generating, attemptCount := g.attemptCount + 1,
                     storageKey := None, byteSize := None, contentSha256 := None, durationMs := None,
                     failureReason := None, startedAt := Some(startedAt), completedAt := None,
                     updatedAt := startedAt))
  }

  function RecordGenerated(g: VideoGeneration, storageKey: string, byteSize: int, contentSha256: string,
                           durationMs: int, completedAt: int): Result<VideoGeneration, DomainError>
  {
    if !g.status.Generating? then Err(InvalidTransition)
    else PostInit(g.(status := Generated, storageKey := Some(storageKey), byteSize := Some(byteSize),
                     contentSha256 := Some(contentSha256), durationMs := Some(durationMs),
                     failureReason := None, completedAt := Some(completedAt), updatedAt := completedAt))
  }

  function MarkFailed(g: VideoGeneration, reason: string, completedAt: int): Result<VideoGeneration, DomainError> {
    if !g.status.Generating? then Err(InvalidTransition) else
    var normalized :- NormalizeRequired(reason, MAX_FAILURE_REASON);
    PostInit(g.(status := Failed, storageKey := None, byteSize := None, contentSha256 := None, durationMs := None,
                failureReason := Some(normalized), completedAt := Some(completedAt), updatedAt := completedAt))
  }

  // Texts already in normal form reach the consistency checks unchanged.
  lemma TextsPassThrough(g: VideoGeneration)
    requires TextsNormal(g)
    ensures PostInit(g) == if NumbersConsistent(g) && StatusConsistent(g) then Ok(g) else Err(InvalidData)
  {
    NormalizeRequiredSpec(g.renderer, MAX_RENDERER);
    NormalizeRequiredSpec(g.videoFormat, MAX_FORMAT);
    LowerIdentity(g.videoFormat);
    HexIsNormal(g.sourceAudioSha256);
    NormalizeOptionalSpec(g.storageKey, MAX_STORAGE_KEY);
    NormalizeOptionalSha256Spec(g.contentSha256);
    NormalizeOptionalSpec(g.failureReason, MAX_FAILURE_REASON);
  }

  // Construction accepts exactly the records it would itself produce: its results are valid,
  // and a valid record passes through unchanged.
  lemma PostInitSpec(g: VideoGeneration)
    ensures PostInit(g).Ok? ==> Valid(PostInit(g).value)
    ensures Valid(g) <==> PostInit(g) == Ok(g)
  {
    NormalizeRequiredSpec(g.renderer, MAX_RENDERER);
    NormalizeRequiredSpec(g.videoFormat, MAX_FORMAT);
    var videoFormat := NormalizeRequired(g.videoFormat, MAX_FORMAT);
    if videoFormat.Ok? { LowerKeepsStripped(videoFormat.value); }
    NormalizeOptionalSpec(g.storageKey, MAX_STORAGE_KEY);
    NormalizeOptionalSha256Spec(g.contentSha256);
    NormalizeOptionalSpec(g.failureReason, MAX_FAILURE_REASON);
    if TextsNormal(g) { TextsPassThrough(g); }
  }

  // What the status of a valid record tells of its columns, and the order of its instants.
  lemma StatusTells(g: VideoGeneration)
    requires Valid(g)
    ensures g.status == Pending <==> g.startedAt.None?
    ensures g.status == Pending <==> g.attemptCount == 0
    ensures g.status == Generated || g.status == Failed <==> g.completedAt.Some?
    ensures g.status == Failed <==> g.failureReason.Some?
    ensures g.status == Generated <==> g.storageKey.Some?
    ensures g.status == Generated <==> g.byteSize.Some?
    ensures g.status == Generated <==> g.contentSha256.Some?
    ensures g.status == Generated <==> g.durationMs.Some?
    ensures g.status == Generated ==> g.byteSize.value >= 1 && g.durationMs.value >= 1
    ensures g.createdAt <= g.updatedAt && (g.startedAt.Some? ==> g.createdAt <= g.startedAt.value)
    ensures g.completedAt.Some? ==> g.startedAt.value <= g.completedAt.value
    ensures g.videoVersion >= 1 && g.attemptCount >= 0 && g.width >= 1 && g.height >= 1 && g.fps >= 1
  {
  }

  lemma StartSpec(g: VideoGeneration, startedAt: int)
    requires Valid(g)
    ensures Start(g, startedAt).Ok? <==> (g.status.Pending? || g.status.Failed?) && g.updatedAt <= startedAt
    ensures Start(g, startedAt).Ok? ==>
      var r := Start(g, startedAt).value;
      Valid(r) && r == g.(status := Generating, attemptCount := g.attemptCount + 1, storageKey := None,
        byteSize := None, contentSha256 := None, durationMs := None, failureReason := None,
        startedAt := Some(startedAt), completedAt := None, updatedAt := startedAt)
  {
    TextsPassThrough(g.(status := Generating, attemptCount := g.attemptCount + 1, storageKey := None,
      byteSize := None, contentSha256 := None, durationMs := None, failureReason := None,
      startedAt := Some(startedAt), completedAt := None, updatedAt := startedAt));
  }

  // A success is accepted exactly when it completes no earlier than the start and describes a real artifact.
  lemma RecordGeneratedSpec(g: VideoGeneration, storageKey: string, byteSize: int, contentSha256: string,
                            durationMs: int, completedAt: int)
    requires Valid(g) && IsNormalText(storageKey, MAX_STORAGE_KEY) && IsSha256Hex(contentSha256)
    ensures RecordGenerated(g, storageKey, byteSize, contentSha256, durationMs, completedAt).Ok? <==>
      g.status.Generating? && byteSize >= 1 && durationMs >= 1 && g.startedAt.value <= completedAt
    ensures RecordGenerated(g, storageKey, byteSize, contentSha256, durationMs, completedAt).Ok? ==>
      var r := RecordGenerated(g, storageKey, byteSize, contentSha256, durationMs, completedAt).value;
      Valid(r) && r == g.(status := Generated, storageKey := Some(storageKey), byteSize := Some(byteSize),
        contentSha256 := Some(contentSha256), durationMs := Some(durationMs),
        completedAt := Some(completedAt), updatedAt := completedAt)
  {
    TextsPassThrough(g.(status := Generated, storageKey := Some(storageKey), byteSize := Some(byteSize),
      contentSha256 := Some(contentSha256), durationMs := Some(durationMs),
      failureReason := None, completedAt := Some(completedAt), updatedAt := completedAt));
  }

  // A failure is accepted exactly when it has a reason and does not end before the start.
  lemma MarkFailedSpec(g: VideoGeneration, reason: string, completedAt: int)
    requires Valid(g)
    ensures MarkFailed(g, reason, completedAt).Ok? <==>
      g.status.Generating? && NormalizeRequired(reason, MAX_FAILURE_REASON).Ok? && g.startedAt.value <= completedAt
    ensures MarkFailed(g, reason, completedAt).Ok? ==>
      var r := MarkFailed(g, reason, completedAt).value;
      Valid(r) && r == g.(status := Failed,
        failureReason := Some(NormalizeRequired(reason, MAX_FAILURE_REASON).value),
        completedAt := Some(completedAt), updatedAt := completedAt)
  {
    NormalizeRequiredSpec(reason, MAX_FAILURE_REASON);
    var normalized := NormalizeRequired(reason, MAX_FAILURE_REASON);
    if normalized.Ok? {
      TextsPassThrough(g.(status := Failed, storageKey := None, byteSize := None, contentSha256 := None,
        durationMs := None, failureReason := Some(normalized.value), completedAt := Some(completedAt),
        updatedAt := completedAt));
    }
  }
}
