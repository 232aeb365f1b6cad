// The records kept for one article before a script exists: metadata, its processing job, and the
// relevance and priority analyses.

module ArticleMetadatas {
  import opened Wrappers
  import opened Text

  datatype Status = Pending | Extracted | Manual | Unavailable | Failed

  datatype ArticleMetadata = ArticleMetadata(
    metadataId: string,
    intakeId: string,
    status: Status,
    title: Option<string>,
    publishedAt: Option<int>,
    description: Option<string>,
    failureReason: Option<string>,
    createdAt: int,
    updatedAt: int)

  const MAX_TITLE := 500
  const MAX_DESCRIPTION := 2000
  const MAX_FAILURE_REASON := 1000

  predicate StatusConsistent(m: ArticleMetadata) {
    match m.status
    case Pending => m.title.None? && m.publishedAt.None? && m.description.None? && m.failureReason.None?
    case Extracted => m.title.Some? && m.failureReason.None?
    case Manual => m.title.Some? && m.failureReason.None?
    case _ => m.title.None? && m.publishedAt.None? && m.description.None? && m.failureReason.Some?
  }

  predicate Valid(m: ArticleMetadata) {
    && IsNormalOptional(m.title, MAX_TITLE)
    && IsNormalOptional(m.description, MAX_DESCRIPTION)
    && IsNormalOptional(m.failureReason, MAX_FAILURE_REASON)
    && m.updatedAt >= m.createdAt
    && StatusConsistent(m)
  }

  function PostInit(m: ArticleMetadata): Result<ArticleMetadata, DomainError> {
    if m.updatedAt < m.createdAt then Err(InvalidData) else
    var title :- NormalizeBlank(m.title, MAX_TITLE);
    var description :- NormalizeBlank(m.description, MAX_DESCRIPTION);
    var failureReason :- NormalizeBlank(m.failureReason, MAX_FAILURE_REASON);
    var normalized := m.(title := title, description := description, failureReason := failureReason);
    if StatusConsistent(normalized) then Ok(normalized) else Err(InvalidData)
  }

  function NewPending(metadataId: string, intakeId: string, createdAt: int): ArticleMetadata {
    ArticleMetadata(metadataId, intakeId, Pending, None, None, None, None, createdAt, createdAt)
  }

  // The four transitions: extracted data, data entered by hand, and the two ways of having none.
  datatype Transition =
    | RecordExtracted(title: string, publishedAt: Option<int>, description: Option<string>)
    | RecordManual(title: string, publishedAt: Option<int>, description: Option<string>)
    | MarkUnavailable(reason: string)
    | MarkFailed(reason: string)

  predicate Allowed(m: ArticleMetadata, t: Transition) {
    m.status.Pending? || (m.status.Unavailable? && t.RecordManual?)
  }

  function Target(t: Transition): Status {
    match t
    case RecordExtracted(_, _, _) => Extracted
    case RecordManual(_, _, _) => Manual
    case MarkUnavailable(_) => Unavailable
    case MarkFailed(_) => Failed
  }

  function Apply(m: ArticleMetadata, t: Transition, updatedAt: int): Result<ArticleMetadata, DomainError> {
    if !Allowed(m, t) then Err(InvalidTransition)
    else if t.MarkUnavailable? || t.MarkFailed? then
      PostInit(m.(status := Target(t), title := None, publishedAt := None, description := None,
                  failureReason := Some(t.reason), updatedAt := updatedAt))
    else
      PostInit(m.(status := Target(t), title := Some(t.title), publishedAt := t.publishedAt,
                  description := t.description, failureReason := None, updatedAt := updatedAt))
  }

  lemma PostInitSpec(m: ArticleMetadata)
    ensures PostInit(m).Ok? ==> Valid(PostInit(m).value) && PostInit(m).value.status == m.status
                                && PostInit(m).value.intakeId == m.intakeId
                                && PostInit(m).value.createdAt == m.createdAt
    ensures Valid(m) <==> PostInit(m) == Ok(m)
  {
    NormalizeBlankSpec(m.title, MAX_TITLE);
    NormalizeBlankSpec(m.description, MAX_DESCRIPTION);
    NormalizeBlankSpec(m.failureReason, MAX_FAILURE_REASON);
  }

  // What a transition stores: the given texts without surrounding space, a blank description as none, and nothing left
  // of a failure beside data or of data beside a failure.
  function Stored(m: ArticleMetadata, t: Transition, updatedAt: int): ArticleMetadata {
    match t
    case RecordExtracted(title, publishedAt, description) =>
      ArticleMetadata(m.metadataId, m.intakeId, Extracted, Some(Strip(title)), publishedAt, WithoutBlank(description),
                      None, m.createdAt, updatedAt)
    case RecordManual(title, publishedAt, description) =>
      ArticleMetadata(m.metadataId, m.intakeId, Manual, Some(Strip(title)), publishedAt, WithoutBlank(description),
                      None, m.createdAt, updatedAt)
    case MarkUnavailable(reason) =>
      ArticleMetadata(m.metadataId, m.intakeId, Unavailable, None, None, None, Some(Strip(reason)), m.createdAt,
                      updatedAt)
    case MarkFailed(reason) =>
      ArticleMetadata(m.metadataId, m.intakeId, Failed, None, None, None, Some(Strip(reason)), m.createdAt, updatedAt)
  }

  function WithoutBlank(s: Option<string>): Option<string> {
    if s.Some? && Strip(s.value) != "" then Some(Strip(s.value)) else None
  }

  // The texts a transition brings are ones the record can hold.
  predicate TextsFit(t: Transition) {
    if t.MarkUnavailable? || t.MarkFailed? then 1 <= |Strip(t.reason)| <= MAX_FAILURE_REASON
    else
      && 1 <= |Strip(t.title)| <= MAX_TITLE
      && (t.description.Some? ==> |Strip(t.description.value)| <= MAX_DESCRIPTION)
  }

  // A transition goes through exactly from a pending record, or by hand from an unavailable one, with texts that fit
  // and no earlier than the record was created.
  lemma ApplySpec(m: ArticleMetadata, t: Transition, updatedAt: int)
    ensures Apply(m, t, updatedAt).Ok? <==>
      && (m.status.Pending? || (m.status.Unavailable? && t.RecordManual?))
      && TextsFit(t) && m.createdAt <= updatedAt
    ensures Apply(m, t, updatedAt).Ok? ==>
      var r := Apply(m, t, updatedAt).value;
      Valid(r) && r == Stored(m, t, updatedAt)
  {
    if t.MarkUnavailable? || t.MarkFailed? {
      PostInitSpec(m.(status := Target(t), title := None, publishedAt := None, description := None,
        failureReason := Some(t.reason), updatedAt := updatedAt));
    } else {
      PostInitSpec(m.(status := Target(t), title := Some(t.title), publishedAt := t.publishedAt,
        description := t.description, failureReason := None, updatedAt := updatedAt));
    }
  }
}

module ProcessingJobs {
  import opened Wrappers
  import opened Text

  datatype Status = Pending | Processing | Completed | Failed

  datatype ProcessingJob = ProcessingJob(
    jobId: string,
    intakeId: string,
    status: Status,
    attemptCount: int,
    lastError: Option<string>,
    createdAt: int,
    startedAt: Option<int>,
    completedAt: Option<int>,
    updatedAt: int)

  const MAX_ERROR := 2000

  // Construction validates and, unlike the other records, normalises nothing.
  predicate Valid(j: ProcessingJob) {
    && j.attemptCount >= 0
    && j.updatedAt >= j.createdAt
    && (j.startedAt.Some? ==> j.startedAt.value >= j.createdAt)
    && (j.completedAt.Some? && j.startedAt.Some? ==> j.completedAt.value >= j.startedAt.value)
    && if j.status.Pending? then
         j.attemptCount == 0 && j.startedAt.None? && j.completedAt.None? && j.lastError.None?
       else
         && j.attemptCount >= 1 && j.startedAt.Some?
         && match j.status
            case Processing => j.completedAt.None? && j.lastError.None?
            case Completed => j.completedAt.Some? && j.lastError.None?
            case _ => j.completedAt.Some? && j.lastError.Some? && Strip(j.lastError.value) != ""
  }

  function PostInit(j: ProcessingJob): Result<ProcessingJob, DomainError> {
    if Valid(j) then Ok(j) else Err(InvalidData)
  }

  function NewPending(jobId: string, intakeId: string, createdAt: int): ProcessingJob {
    ProcessingJob(jobId, intakeId, Pending, 0, None, createdAt, None, None, createdAt)
  }

  function Start(j: ProcessingJob, startedAt: int): Result<ProcessingJob, DomainError> {
    if !j.status.Pending? then Err(InvalidTransition)
    else PostInit(j.(status := Processing, attemptCount := j.attemptCount + 1, lastError := None,
                     startedAt := Some(startedAt), completedAt := None, updatedAt := startedAt))
  }

  function Complete(j: ProcessingJob, completedAt: int): Result<ProcessingJob, DomainError> {
    if !j.status.Processing? then Err(InvalidTransition)
    else PostInit(j.(status := Completed, lastError := None, completedAt := Some(completedAt),
                     updatedAt := completedAt))
  }

  function Fail(j: ProcessingJob, error: string, completedAt: int): Result<ProcessingJob, DomainError> {
    if !j.status.Processing? then Err(InvalidTransition) else
    var normalized :- NormalizeRequired(error, MAX_ERROR);
    PostInit(j.(status := Failed, lastError := Some(normalized), completedAt := Some(completedAt),
                updatedAt := completedAt))
  }

  // A job starts once, and ends no earlier than it started.
  lemma TransitionsSpec(j: ProcessingJob, error: string, at: int)
    requires Valid(j)
    ensures var r := Start(j, at);
      && (r.Ok? <==> j.status == Pending && j.createdAt <= at)
      && (r.Ok? ==> r.value == ProcessingJob(j.jobId, j.intakeId, Processing, 1, None, j.createdAt, Some(at), None, at))
    ensures var r := Complete(j, at);
      && (r.Ok? <==> j.status == Processing && j.startedAt.value <= at)
      && (r.Ok? ==> r.value == ProcessingJob(j.jobId, j.intakeId, Completed, j.attemptCount, None, j.createdAt,
                                             j.startedAt, Some(at), at))
    ensures var r := Fail(j, error, at);
      && (r.Ok? <==> j.status == Processing && j.startedAt.value <= at && 1 <= |Strip(error)| <= 2000)
      && (r.Ok? ==> r.value == ProcessingJob(j.jobId, j.intakeId, Failed, j.attemptCount, Some(Strip(error)),
                                             j.createdAt, j.startedAt, Some(at), at))
  {
    StripIsNormal(error);
    StripIsNormal(Strip(error));
  }
}

module RelevanceAnalyses {
  import opened Wrappers
  import opened Text

  datatype Status = Pending | Analyzed | Failed

  datatype Decision = Accepted | Review | Rejected

  datatype RelevanceAnalysis = RelevanceAnalysis(
    analysisId: string,
    intakeId: string,
    status: Status,
    relevanceScore: Option<int>,
    decision: Option<Decision>,
    reason: Option<string>,
    failureReason: Option<string>,
    createdAt: int,
    updatedAt: int)

  const ACCEPTED_MIN_SCORE := 70
  const REVIEW_MIN_SCORE := 40
  const MAX_REASON := 2000
  const MAX_FAILURE_REASON := 1000

  function DecideNewsRelevance(score: int): Result<Decision, DomainError> {
    if !(0 <= score <= 100) then Err(InvalidData)
    else if score >= ACCEPTED_MIN_SCORE then Ok(Accepted)
    else if score >= REVIEW_MIN_SCORE then Ok(Review)
    else Ok(Rejected)
  }

  // An article goes on exactly when its score is at least 40.
  predicate Eligible(d: Decision) {
    d.Accepted? || d.Review?
  }

  predicate Valid(a: RelevanceAnalysis) {
    && IsNormalOptional(a.reason, MAX_REASON)
    && IsNormalOptional(a.failureReason, MAX_FAILURE_REASON)
    && a.updatedAt >= a.createdAt
    && (a.relevanceScore.Some? ==> 0 <= a.relevanceScore.value <= 100)
    && StatusConsistent(a)
  }

  predicate StatusConsistent(a: RelevanceAnalysis) {
    match a.status
    case Pending => a.relevanceScore.None? && a.decision.None? && a.reason.None? && a.failureReason.None?
    case Analyzed => a.relevanceScore.Some? && a.decision.Some? && a.reason.Some? && a.failureReason.None?
    case _ => a.relevanceScore.None? && a.decision.None? && a.reason.None? && a.failureReason.Some?
  }

  function PostInit(a: RelevanceAnalysis): Result<RelevanceAnalysis, DomainError> {
    if a.updatedAt < a.createdAt || (a.relevanceScore.Some? && !(0 <= a.relevanceScore.value <= 100))
      then Err(InvalidData)
    else
      var reason :- NormalizeBlank(a.reason, MAX_REASON);
      var failureReason :- NormalizeBlank(a.failureReason, MAX_FAILURE_REASON);
      var normalized := a.(reason := reason, failureReason := failureReason);
      if StatusConsistent(normalized) then Ok(normalized) else Err(InvalidData)
  }

  function NewPending(analysisId: string, intakeId: string, createdAt: int): RelevanceAnalysis {
    RelevanceAnalysis(analysisId, intakeId, Pending, None, None, None, None, createdAt, createdAt)
  }

  function RecordAnalyzed(a: RelevanceAnalysis, score: int, decision: Decision, reason: string, updatedAt: int)
    : Result<RelevanceAnalysis, DomainError>
  {
    if !a.status.Pending? then Err(InvalidTransition)
    else PostInit(a.(status := Analyzed, relevanceScore := Some(score), decision := Some(decision),
                     reason := Some(reason), failureReason := None, updatedAt := updatedAt))
  }

  function MarkFailed(a: RelevanceAnalysis, reason: string, updatedAt: int): Result<RelevanceAnalysis, DomainError> {
    if !a.status.Pending? then Err(InvalidTransition)
    else PostInit(a.(status := Failed, relevanceScore := None, decision := None, reason := None,
                     failureReason := Some(reason), updatedAt := updatedAt))
  }

  // A decision is recorded exactly on a pending analysis, with a score in 0..100 and a reason that is not blank and
  // fits; what is stored is what was given.
  lemma RecordAnalyzedSpec(a: RelevanceAnalysis, score: int, decision: Decision, reason: string, updatedAt: int)
    ensures var r := RecordAnalyzed(a, score, decision, reason, updatedAt);
      && (r.Ok? <==>
            && a.status == Pending && a.createdAt <= updatedAt && 0 <= score <= 100
            && 1 <= |Strip(reason)| <= 2000)
      && (r.Ok? ==> r.value == RelevanceAnalysis(a.analysisId, a.intakeId, Analyzed, Some(score), Some(decision),
                                                 Some(Strip(reason)), None, a.createdAt, updatedAt))
  {
  }

  lemma MarkFailedSpec(a: RelevanceAnalysis, reason: string, updatedAt: int)
    ensures var r := MarkFailed(a, reason, updatedAt);
      && (r.Ok? <==> a.status == Pending && a.createdAt <= updatedAt && 1 <= |Strip(reason)| <= 1000)
      && (r.Ok? ==> r.value == RelevanceAnalysis(a.analysisId, a.intakeId, Failed, None, None, None,
                                                 Some(Strip(reason)), a.createdAt, updatedAt))
  {
  }
}

module PriorityAnalyses {
  import opened Wrappers
  import opened Text

  datatype Status = Pending | Analyzed | Failed

  datatype PriorityAnalysis = PriorityAnalysis(
    analysisId: string,
    intakeId: string,
    status: Status,
    priorityScore: Option<int>,
    reason: Option<string>,
    failureReason: Option<string>,
    createdAt: int,
    updatedAt: int)

  const MAX_REASON := 2000
  const MAX_FAILURE_REASON := 1000

  predicate StatusConsistent(a: PriorityAnalysis) {
    match a.status
    case Pending => a.priorityScore.None? && a.reason.None? && a.failureReason.None?
    case Analyzed => a.priorityScore.Some? && a.reason.Some? && a.failureReason.None?
    case _ => a.priorityScore.None? && a.reason.None? && a.failureReason.Some?
  }

  function PostInit(a: PriorityAnalysis): Result<PriorityAnalysis, DomainError> {
    if a.updatedAt < a.createdAt || (a.priorityScore.Some? && !(0 <= a.priorityScore.value <= 100))
      then Err(InvalidData)
    else
      var reason :- NormalizeBlank(a.reason, MAX_REASON);
      var failureReason :- NormalizeBlank(a.failureReason, MAX_FAILURE_REASON);
      var normalized := a.(reason := reason, failureReason := failureReason);
      if StatusConsistent(normalized) then Ok(normalized) else Err(InvalidData)
  }

  function NewPending(analysisId: string, intakeId: string, createdAt: int): PriorityAnalysis {
    PriorityAnalysis(analysisId, intakeId, Pending, None, None, None, createdAt, createdAt)
  }

  function RecordAnalyzed(a: PriorityAnalysis, score: int, reason: string, updatedAt: int)
    : Result<PriorityAnalysis, DomainError>
  {
    if !a.status.Pending? then Err(InvalidTransition)
    else PostInit(a.(status := Analyzed, priorityScore := Some(score), reason := Some(reason),
                     failureReason := None, updatedAt := updatedAt))
  }

  function MarkFailed(a: PriorityAnalysis, reason: string, updatedAt: int): Result<PriorityAnalysis, DomainError> {
    if !a.status.Pending? then Err(InvalidTransition)
    else PostInit(a.(status := Failed, priorityScore := None, reason := None,
                     failureReason := Some(reason), updatedAt := updatedAt))
  }

  lemma RecordAnalyzedSpec(a: PriorityAnalysis, score: int, reason: string, updatedAt: int)
    ensures var r := RecordAnalyzed(a, score, reason, updatedAt);
      && (r.Ok? <==>
            && a.status == Pending && a.createdAt <= updatedAt && 0 <= score <= 100
            && 1 <= |Strip(reason)| <= 2000)
      && (r.Ok? ==> r.value == PriorityAnalysis(a.analysisId, a.intakeId, Analyzed, Some(score), Some(Strip(reason)),
                                                None, a.createdAt, updatedAt))
  {
  }

  lemma MarkFailedSpec(a: PriorityAnalysis, reason: string, updatedAt: int)
    ensures var r := MarkFailed(a, reason, updatedAt);
      && (r.Ok? <==> a.status == Pending && a.createdAt <= updatedAt && 1 <= |Strip(reason)| <= 1000)
      && (r.Ok? ==> r.value == PriorityAnalysis(a.analysisId, a.intakeId, Failed, None, None, Some(Strip(reason)),
                                                a.createdAt, updatedAt))
  {
  }
}
