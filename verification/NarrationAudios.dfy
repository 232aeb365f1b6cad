// The narration-audio record: its validity rules and its transitions.

module NarrationAudios {
  import opened Wrappers
  import opened Text

  datatype Status = Pending | Generating | Generated | Failed

  // Instants are integers on one time line.
  datatype NarrationAudio = NarrationAudio(
    audioGenerationId: string,
    mediaProductionId: string,
    audioVersion: int,
    status: Status,
    provider: string,
    model: string,
    voice: string,
    audioFormat: string,
    sourceTextSha256: string,
    attemptCount: int,
    storageKey: Option<string>,
    byteSize: Option<int>,
    contentSha256: Option<string>,
    failureReason: Option<string>,
    createdAt: int,
    startedAt: Option<int>,
    completedAt: Option<int>,
    updatedAt: int)

  const MAX_PROVIDER := 64
  const MAX_MODEL := 128
  const MAX_VOICE := 128
  const MAX_FORMAT := 16
  const MAX_STORAGE_KEY := 1024
  const MAX_FAILURE_REASON := 2000

  predicate HasArtifact(g: NarrationAudio) {
    g.storageKey.Some? || g.byteSize.Some? || g.contentSha256.Some?
  }

  predicate HasCompleteArtifact(g: NarrationAudio) {
    g.storageKey.Some? && g.byteSize.Some? && g.contentSha256.Some?
  }

  // The numeric and temporal rules that hold in every status.
  predicate NumbersConsistent(g: NarrationAudio) {
    && g.audioVersion >= 1
    && g.attemptCount >= 0
    && (g.byteSize.Some? ==> g.byteSize.value >= 1)
    && g.updatedAt >= g.createdAt
    && (g.startedAt.Some? ==> g.startedAt.value >= g.createdAt)
    && (g.completedAt.Some? && g.startedAt.Some? ==> g.completedAt.value >= g.startedAt.value)
  }

  // The rules that depend on the status.
  predicate StatusConsistent(g: NarrationAudio) {
    if g.status.Pending? then
      g.attemptCount == 0 && g.startedAt.None? && g.completedAt.None? && g.failureReason.None? && !HasArtifact(g)
    else
      && g.attemptCount >= 1
      && g.startedAt.Some?
      && match g.status
         case Generating => g.completedAt.None? && g.failureReason.None? && !HasArtifact(g)
         case Generated => g.completedAt.Some? && g.failureReason.None? && HasCompleteArtifact(g)
         case _ => g.completedAt.Some? && g.failureReason.Some? && !HasArtifact(g)
  }

  predicate TextsNormal(g: NarrationAudio) {
    && IsNormalText(g.provider, MAX_PROVIDER)
    && IsNormalText(g.model, MAX_MODEL)
    && IsNormalText(g.voice, MAX_VOICE)
    && IsNormalText(g.audioFormat, MAX_FORMAT) && IsLower(g.audioFormat)
    && IsSha256Hex(g.sourceTextSha256)
    && IsNormalOptional(g.storageKey, MAX_STORAGE_KEY)
    && IsOptionalSha256(g.contentSha256)
    && IsNormalOptional(g.failureReason, MAX_FAILURE_REASON)
  }

  predicate Valid(g: NarrationAudio) {
    TextsNormal(g) && NumbersConsistent(g) && StatusConsistent(g)
  }

  // Construction: every text is normalised, then the whole record is validated.
  function PostInit(g: NarrationAudio): Result<NarrationAudio, DomainError> {
    var provider :- NormalizeRequired(g.provider, MAX_PROVIDER);
    var model :- NormalizeRequired(g.model, MAX_MODEL);
    var voice :- NormalizeRequired(g.voice, MAX_VOICE);
    var audioFormat :- NormalizeRequired(g.audioFormat, MAX_FORMAT);
    var sourceSha :- NormalizeSha256(g.sourceTextSha256);
    var storageKey :- NormalizeOptional(g.storageKey, MAX_STORAGE_KEY);
    var contentSha :- NormalizeOptionalSha256(g.contentSha256);
    var failureReason :- NormalizeOptional(g.failureReason, MAX_FAILURE_REASON);
    var normalized := g.(provider := provider, model := model, voice := voice, audioFormat := Lower(audioFormat),
                         sourceTextSha256 := sourceSha,
                         storageKey := storageKey, contentSha256 := contentSha, failureReason := failureReason);
    if NumbersConsistent(normalized) && StatusConsistent(normalized) then Ok(normalized) else Err(InvalidData)
  }

  // What a caller configures when it prepares a generation.
  datatype Configuration = Configuration(
    provider: string, model: string, voice: string, audioFormat: string, sourceTextSha256: string)

  function NewPending(id: string, mediaProductionId: string, audioVersion: int, c: Configuration, createdAt: int)
    : Result<NarrationAudio, DomainError>
  {
    PostInit(NarrationAudio(
      id, mediaProductionId, audioVersion, Pending, c.provider, c.model, c.voice, c.audioFormat,
      c.sourceTextSha256, 0, None, None, None, None,
      createdAt, None, None, createdAt))
  }

  lemma NewPendingSpec(id: string, mediaProductionId: string, audioVersion: int, c: Configuration, createdAt: int)
    ensures var r := NewPending(id, mediaProductionId, audioVersion, c, createdAt);
      r.Ok? ==>
        && Valid(r.value) && r.value.status.Pending? && r.value.updatedAt == r.value.createdAt == createdAt
        && r.value.audioGenerationId == id && r.value.mediaProductionId == mediaProductionId
        && r.value.audioVersion == audioVersion && r.value.attemptCount == 0
        && r.value.provider == Strip(c.provider) && r.value.model == Strip(c.model)
        && r.value.voice == Strip(c.voice) && r.value.audioFormat == Lower(Strip(c.audioFormat))
        && r.value.sourceTextSha256 == Lower(Strip(c.sourceTextSha256))
  {
    PostInitSpec(NarrationAudio(id, mediaProductionId, audioVersion, Pending, c.provider, c.model, c.voice,
                                c.audioFormat,
      c.sourceTextSha256, 0, None, None, None, None, createdAt, None, None, createdAt));
  }

  // What a caller may configure for a narration it knows.
  lemma NewPendingIff(id: string, mediaProductionId: string, audioVersion: int, c: Configuration, createdAt: int)
    requires IsSha256Hex(c.sourceTextSha256) && audioVersion >= 1
    ensures NewPending(id, mediaProductionId, audioVersion, c, createdAt).Ok? <==>
      && NormalizeRequired(c.provider, MAX_PROVIDER).Ok? && NormalizeRequired(c.model, MAX_MODEL).Ok?
      && NormalizeRequired(c.voice, MAX_VOICE).Ok? && NormalizeRequired(c.audioFormat, MAX_FORMAT).Ok?
  {
    HexIsNormal(c.sourceTextSha256);
  }

  function Start(g: NarrationAudio, startedAt: int): Result<NarrationAudio, DomainError> {
    if !(g.status.Pending? || g.status.Failed?) then Err(InvalidTransition)
    else if startedAt < g.updatedAt then Err(InvalidData)
    else PostInit(g.(status := Generating, attemptCount := g.attemptCount + 1,
                     storageKey := None, byteSize := None, contentSha256 := None,
                     failureReason := None, startedAt := Some(startedAt), completedAt := None,
                     updatedAt := startedAt))
  }

  function RecordGenerated(g: NarrationAudio, storageKey: string, byteSize: int, contentSha256: string,
                           completedAt: int): Result<NarrationAudio, DomainError>
  {
    if !g.status.Generating? then Err(InvalidTransition)
    else PostInit(g.(status := Generated, storageKey := Some(storageKey), byteSize := Some(byteSize),
                     contentSha256 := Some(contentSha256),
                     failureReason := None, completedAt := Some(completedAt), updatedAt := completedAt))
  }

  function MarkFailed(g: NarrationAudio, reason: string, completedAt: int): Result<NarrationAudio, DomainError> {
    if !g.status.Generating? then Err(InvalidTransition) else
    var normalized :- NormalizeRequired(reason, MAX_FAILURE_REASON);
    PostInit(g.(status := Failed, storageKey := None, byteSize := None, contentSha256 := None,
                failureReason := Some(normalized), completedAt := Some(completedAt), updatedAt := completedAt))
  }

  // Texts already in normal form reach the consistency checks unchanged.
  lemma TextsPassThrough(g: NarrationAudio)
    requires TextsNormal(g)
    ensures PostInit(g) == if NumbersConsistent(g) && StatusConsistent(g) then Ok(g) else Err(InvalidData)
  {
    NormalizeRequiredSpec(g.provider, MAX_PROVIDER);
    NormalizeRequiredSpec(g.model, MAX_MODEL);
    NormalizeRequiredSpec(g.voice, MAX_VOICE);
    NormalizeRequiredSpec(g.audioFormat, MAX_FORMAT);
    LowerIdentity(g.audioFormat);
    HexIsNormal(g.sourceTextSha256);
    NormalizeOptionalSpec(g.storageKey, MAX_STORAGE_KEY);
    NormalizeOptionalSha256Spec(g.contentSha256);
    NormalizeOptionalSpec(g.failureReason, MAX_FAILURE_REASON);
  }

  // Construction accepts exactly the records it would itself produce: its results are valid,
  // and a valid record passes through unchanged.
  lemma PostInitSpec(g: NarrationAudio)
    ensures PostInit(g).Ok? ==> Valid(PostInit(g).value)
    ensures Valid(g) <==> PostInit(g) == Ok(g)
  {
    NormalizeRequiredSpec(g.provider, MAX_PROVIDER);
    NormalizeRequiredSpec(g.model, MAX_MODEL);
    NormalizeRequiredSpec(g.voice, MAX_VOICE);
    NormalizeRequiredSpec(g.audioFormat, MAX_FORMAT);
    var audioFormat := NormalizeRequired(g.audioFormat, MAX_FORMAT);
    if audioFormat.Ok? { LowerKeepsStripped(audioFormat.value); }
    NormalizeOptionalSpec(g.storageKey, MAX_STORAGE_KEY);
    NormalizeOptionalSha256Spec(g.contentSha256);
    NormalizeOptionalSpec(g.failureReason, MAX_FAILURE_REASON);
    if TextsNormal(g) { TextsPassThrough(g); }
  }

  // What the status of a valid record tells of its columns, and the order of its instants.
  lemma StatusTells(g: NarrationAudio)
    requires Valid(g)
    ensures g.status == Pending <==> g.startedAt.None?
    ensures g.status == Pending <==> g.attemptCount == 0
    ensures g.status == Generated || g.status == Failed <==> g.completedAt.Some?
    ensures g.status == Failed <==> g.failureReason.Some?
    ensures g.status == Generated <==> g.storageKey.Some?
    ensures g.status == Generated <==> g.byteSize.Some?
    ensures g.status == Generated <==> g.contentSha256.Some?
    ensures g.status == Generated ==> g.byteSize.value >= 1
    ensures g.createdAt <= g.updatedAt && (g.startedAt.Some? ==> g.createdAt <= g.startedAt.value)
    ensures g.completedAt.Some? ==> g.startedAt.value <= g.completedAt.value
    ensures g.audioVersion >= 1 && g.attemptCount >= 0
  {
  }

  lemma StartSpec(g: NarrationAudio, startedAt: int)
    requires Valid(g)
    ensures Start(g, startedAt).Ok? <==> (g.status.Pending? || g.status.Failed?) && g.updatedAt <= startedAt
    ensures Start(g, startedAt).Ok? ==>
      var r := Start(g, startedAt).value;
      Valid(r) && r == g.(status := Generating, attemptCount := g.attemptCount + 1, storageKey := None,
        byteSize := None, contentSha256 := None, failureReason := None,
        startedAt := Some(startedAt), completedAt := None, updatedAt := startedAt)
  {
    TextsPassThrough(g.(status := Generating, attemptCount := g.attemptCount + 1, storageKey := None,
      byteSize := None, contentSha256 := None, failureReason := None,
      startedAt := Some(startedAt), completedAt := None, updatedAt := startedAt));
  }

  // A success is accepted exactly when it completes no earlier than the start and describes a real artifact.
  lemma RecordGeneratedSpec(g: NarrationAudio, storageKey: string, byteSize: int, contentSha256: string,
                            completedAt: int)
    requires Valid(g) && IsNormalText(storageKey, MAX_STORAGE_KEY) && IsSha256Hex(contentSha256)
    ensures RecordGenerated(g, storageKey, byteSize, contentSha256, completedAt).Ok? <==>
      g.status.Generating? && byteSize >= 1 && g.startedAt.value <= completedAt
    ensures RecordGenerated(g, storageKey, byteSize, contentSha256, completedAt).Ok? ==>
      var r := RecordGenerated(g, storageKey, byteSize, contentSha256, completedAt).value;
      Valid(r) && r == g.(status := Generated, storageKey := Some(storageKey), byteSize := Some(byteSize),
        contentSha256 := Some(contentSha256),
        completedAt := Some(completedAt), updatedAt := completedAt)
  {
    TextsPassThrough(g.(status := Generated, storageKey := Some(storageKey), byteSize := Some(byteSize),
      contentSha256 := Some(contentSha256),
      failureReason := None, completedAt := Some(completedAt), updatedAt := completedAt));
  }

  // A failure is accepted exactly when it has a reason and does not end before the start.
  lemma MarkFailedSpec(g: NarrationAudio, reason: string, completedAt: int)
    requires Valid(g)
    ensures MarkFailed(g, reason, completedAt).Ok? <==>
      g.status.Generating? && NormalizeRequired(reason, MAX_FAILURE_REASON).Ok? && g.startedAt.value <= completedAt
    ensures MarkFailed(g, reason, completedAt).Ok? ==>
      var r := MarkFailed(g, reason, completedAt).value;
      Valid(r) && r == g.(status := Failed,
        failureReason := Some(NormalizeRequired(reason, MAX_FAILURE_REASON).value),
        completedAt := Some(completedAt), updatedAt := completedAt)
  {
    NormalizeRequiredSpec(reason, MAX_FAILURE_REASON);
    var normalized := NormalizeRequired(reason, MAX_FAILURE_REASON);
    if normalized.Ok? {
      TextsPassThrough(g.(status := Failed, storageKey := None, byteSize := None, contentSha256 := None,
                          failureReason := Some(normalized.value), completedAt := Some(completedAt),
        updatedAt := completedAt));
    }
  }
}
