// The parent record of one media production: its validity rules and its transitions.

module MediaProductions {
  import opened Wrappers
  import opened Text

  datatype Status = Pending | Processing | Ready | Failed

  datatype MediaProduction = MediaProduction(
    mediaProductionId: string,
    scriptGenerationId: string,
    mediaVersion: int,
    status: Status,
    attemptCount: int,
    failureReason: Option<string>,
    createdAt: int,
    startedAt: Option<int>,
    completedAt: Option<int>,
    updatedAt: int)

  const MAX_FAILURE_REASON := 2000

  predicate NumbersConsistent(p: MediaProduction) {
    && p.mediaVersion >= 1
    && p.attemptCount >= 0
    && p.updatedAt >= p.createdAt
    && (p.startedAt.Some? ==> p.startedAt.value >= p.createdAt)
    && (p.completedAt.Some? && p.startedAt.Some? ==> p.completedAt.value >= p.startedAt.value)
  }

  predicate StatusConsistent(p: MediaProduction) {
    if p.status.Pending? then
      p.attemptCount == 0 && p.failureReason.None? && p.startedAt.None? && p.completedAt.None?
    else
      && p.attemptCount >= 1
      && p.startedAt.Some?
      && match p.status
         case Processing => p.failureReason.None? && p.completedAt.None?
         case Ready => p.completedAt.Some? && p.failureReason.None?
         case _ => p.completedAt.Some? && p.failureReason.Some?
  }

  predicate Valid(p: MediaProduction) {
    IsNormalOptional(p.failureReason, MAX_FAILURE_REASON) && NumbersConsistent(p) && StatusConsistent(p)
  }

  function PostInit(p: MediaProduction): Result<MediaProduction, DomainError> {
    var failureReason :- NormalizeOptional(p.failureReason, MAX_FAILURE_REASON);
    var normalized := p.(failureReason := failureReason);
    if NumbersConsistent(normalized) && StatusConsistent(normalized) then Ok(normalized) else Err(InvalidData)
  }

  function NewPending(id: string, scriptGenerationId: string, mediaVersion: int, createdAt: int)
    : Result<MediaProduction, DomainError>
  {
    PostInit(MediaProduction(id, scriptGenerationId, mediaVersion, Pending, 0, None, createdAt, None, None, createdAt))
  }

  function Start(p: MediaProduction, startedAt: int): Result<MediaProduction, DomainError> {
    if !(p.status.Pending? || p.status.Failed?) then Err(InvalidTransition)
    else if startedAt < p.updatedAt then Err(InvalidData)
    else PostInit(p.(status := Processing, attemptCount := p.attemptCount + 1, failureReason := None,
                     startedAt := Some(startedAt), completedAt := None, updatedAt := startedAt))
  }

  function MarkReady(p: MediaProduction, completedAt: int): Result<MediaProduction, DomainError> {
    if !p.status.Processing? then Err(InvalidTransition)
    else PostInit(p.(status := Ready, failureReason := None,
                     completedAt := Some(completedAt), updatedAt := completedAt))
  }

  function MarkFailed(p: MediaProduction, reason: string, completedAt: int): Result<MediaProduction, DomainError> {
    if !p.status.Processing? then Err(InvalidTransition) else
    var normalized :- NormalizeRequired(reason, MAX_FAILURE_REASON);
    PostInit(p.(status := Failed, failureReason := Some(normalized),
                completedAt := Some(completedAt), updatedAt := completedAt))
  }

  lemma PostInitSpec(p: MediaProduction)
    ensures PostInit(p).Ok? ==> Valid(PostInit(p).value)
    ensures Valid(p) <==> PostInit(p) == Ok(p)
  {
    NormalizeOptionalSpec(p.failureReason, MAX_FAILURE_REASON);
  }

  lemma NewPendingSpec(id: string, scriptGenerationId: string, mediaVersion: int, createdAt: int)
    ensures NewPending(id, scriptGenerationId, mediaVersion, createdAt) ==
      if mediaVersion >= 1
      then Ok(MediaProduction(id, scriptGenerationId, mediaVersion, Pending, 0, None, createdAt, None, None, createdAt))
      else Err(InvalidData)
  {
  }

  // What the status of a valid record tells of its columns, and the order of its instants.
  lemma StatusTells(p: MediaProduction)
    requires Valid(p)
    ensures p.status == Pending <==> p.startedAt.None?
    ensures p.status == Pending <==> p.attemptCount == 0
    ensures p.status == Ready || p.status == Failed <==> p.completedAt.Some?
    ensures p.status == Failed <==> p.failureReason.Some?
    ensures p.createdAt <= p.updatedAt && (p.startedAt.Some? ==> p.createdAt <= p.startedAt.value)
    ensures p.completedAt.Some? ==> p.startedAt.value <= p.completedAt.value
    ensures p.mediaVersion >= 1 && p.attemptCount >= 0
  {
  }

  lemma StartSpec(p: MediaProduction, startedAt: int)
    requires Valid(p)
    ensures Start(p, startedAt).Ok? <==> (p.status.Pending? || p.status.Failed?) && p.updatedAt <= startedAt
    ensures Start(p, startedAt).Ok? ==>
      var r := Start(p, startedAt).value;
      Valid(r) && r == p.(status := Processing, attemptCount := p.attemptCount + 1, failureReason := None,
        startedAt := Some(startedAt), completedAt := None, updatedAt := startedAt)
  {
    PostInitSpec(p.(status := Processing, attemptCount := p.attemptCount + 1, failureReason := None,
      startedAt := Some(startedAt), completedAt := None, updatedAt := startedAt));
  }

  lemma MarkReadySpec(p: MediaProduction, completedAt: int)
    requires Valid(p)
    ensures MarkReady(p, completedAt).Ok? <==> p.status.Processing? && p.startedAt.value <= completedAt
    ensures MarkReady(p, completedAt).Ok? ==>
      var r := MarkReady(p, completedAt).value;
      Valid(r) && r == p.(status := Ready, completedAt := Some(completedAt), updatedAt := completedAt)
  {
    PostInitSpec(p.(status := Ready, failureReason := None,
      completedAt := Some(completedAt), updatedAt := completedAt));
  }

  lemma MarkFailedSpec(p: MediaProduction, reason: string, completedAt: int)
    requires Valid(p)
    ensures MarkFailed(p, reason, completedAt).Ok? <==>
      p.status.Processing? && NormalizeRequired(reason, MAX_FAILURE_REASON).Ok? && p.startedAt.value <= completedAt
    ensures MarkFailed(p, reason, completedAt).Ok? ==>
      var r := MarkFailed(p, reason, completedAt).value;
      Valid(r) && r == p.(status := Failed,
        failureReason := Some(NormalizeRequired(reason, MAX_FAILURE_REASON).value),
        completedAt := Some(completedAt), updatedAt := completedAt)
  {
    NormalizeRequiredSpec(reason, MAX_FAILURE_REASON);
    var normalized := NormalizeRequired(reason, MAX_FAILURE_REASON);
    if normalized.Ok? {
      PostInitSpec(p.(status := Failed, failureReason := Some(normalized.value),
        completedAt := Some(completedAt), updatedAt := completedAt));
    }
  }
}
