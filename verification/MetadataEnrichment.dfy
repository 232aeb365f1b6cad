// The enrichment services: each call changes an article's metadata and its processing job together.

module MetadataEnrichment {
  import opened Wrappers
  import opened Text
  import Metadata = ArticleMetadatas
  import Jobs = ProcessingJobs

  datatype Pair = Pair(metadata: Metadata.ArticleMetadata, job: Jobs.ProcessingJob)

  // HalfWritten: the metadata update was issued and then the job transition raised. The surrounding
  // transaction rolls both back.
  datatype Outcome =
    | Stored(pair: Pair)
    | Refused(error: DomainError)
    | HalfWritten(metadata: Metadata.ArticleMetadata, error: DomainError)

  function StartIfPending(job: Jobs.ProcessingJob, changedAt: int): Result<Jobs.ProcessingJob, DomainError> {
    if job.status.Pending? then Jobs.Start(job, changedAt)
    else if job.status.Processing? then Ok(job)
    else Err(InvalidTransition)
  }

  function FinishJob(job: Jobs.ProcessingJob, t: Metadata.Transition, changedAt: int)
    : Result<Jobs.ProcessingJob, DomainError>
  {
    if t.MarkFailed? then Jobs.Fail(job, t.reason, changedAt) else Jobs.Complete(job, changedAt)
  }

  function Store(metadata: Metadata.ArticleMetadata, job: Jobs.ProcessingJob, t: Metadata.Transition,
                 changedAt: int): Outcome
  {
    match FinishJob(job, t, changedAt)
    case Ok(finished) => Stored(Pair(metadata, finished))
    case Err(e) => HalfWritten(metadata, e)
  }

  // One service call. Entering data by hand looks at the metadata first and leaves the job of an
  // unavailable article alone; the other three look at the job first.
  function Enrich(p: Pair, t: Metadata.Transition, changedAt: int): Outcome {
    if t.RecordManual? then
      match Metadata.Apply(p.metadata, t, changedAt)
      case Err(e) => Refused(e)
      case Ok(metadata) =>
        if p.metadata.status.Unavailable? then
          if p.job.status.Completed? then Stored(Pair(metadata, p.job)) else Refused(InvalidTransition)
        else
          match StartIfPending(p.job, changedAt)
          case Err(e) => Refused(e)
          case Ok(job) => Store(metadata, job, t, changedAt)
    else
      match StartIfPending(p.job, changedAt)
      case Err(e) => Refused(e)
      case Ok(job) =>
        match Metadata.Apply(p.metadata, t, changedAt)
        case Err(e) => Refused(e)
        case Ok(metadata) => Store(metadata, job, t, changedAt)
  }

  function Registered(intakeId: string, metadataId: string, jobId: string, createdAt: int): Pair {
    Pair(Metadata.NewPending(metadataId, intakeId, createdAt), Jobs.NewPending(jobId, intakeId, createdAt))
  }

  datatype Call = Call(transition: Metadata.Transition, changedAt: int)

  // A call that did not store leaves the records as they were.
  function Run(p: Pair, calls: seq<Call>): Pair {
    if calls == [] then p else
    var before := Run(p, calls[..|calls| - 1]);
    var last := calls[|calls| - 1];
    match Enrich(before, last.transition, last.changedAt)
    case Stored(after) => after
    case _ => before
  }

  predicate Joint(p: Pair) {
    && Metadata.Valid(p.metadata) && Jobs.Valid(p.job)
    && match p.metadata.status
       case Pending => p.job.status.Pending?
       case Failed => p.job.status.Failed?
       case _ => p.job.status.Completed?
  }

  // Whatever is reported as failed also fits the job's error column.
  lemma FailureFits(p: Pair, t: Metadata.Transition, at: int)
    requires t.MarkFailed? && Metadata.Apply(p.metadata, t, at).Ok?
    ensures NormalizeRequired(t.reason, Jobs.MAX_ERROR).Ok?
    ensures NormalizeRequired(t.reason, Jobs.MAX_ERROR).value == Strip(t.reason)
    ensures Strip(Strip(t.reason)) != ""
  {
    StripIsNormal(t.reason);
  }

  lemma EnrichKeepsJoint(p: Pair, t: Metadata.Transition, at: int)
    requires Joint(p)
    ensures Enrich(p, t, at).Stored?
      ==> Joint(Enrich(p, t, at).pair) && Enrich(p, t, at).pair.metadata.status == Metadata.Target(t)
    ensures !Enrich(p, t, at).HalfWritten?
  {
    Metadata.ApplySpec(p.metadata, t, at);
    if t.MarkFailed? && Metadata.Apply(p.metadata, t, at).Ok? { FailureFits(p, t, at); }
  }

  // Registration followed by any calls reaches only five combinations of the two records.
  lemma {:induction false} ReachablePairs(intakeId: string, metadataId: string, jobId: string, createdAt: int,
                                          calls: seq<Call>)
    ensures var p := Run(Registered(intakeId, metadataId, jobId, createdAt), calls);
      Joint(p)
      && (p.metadata.status, p.job.status) in
         {(Metadata.Pending, Jobs.Pending), (Metadata.Extracted, Jobs.Completed), (Metadata.Manual, Jobs.Completed),
          (Metadata.Unavailable, Jobs.Completed), (Metadata.Failed, Jobs.Failed)}
  {
    if calls != [] {
      ReachablePairs(intakeId, metadataId, jobId, createdAt, calls[..|calls| - 1]);
      var before := Run(Registered(intakeId, metadataId, jobId, createdAt), calls[..|calls| - 1]);
      EnrichKeepsJoint(before, calls[|calls| - 1].transition, calls[|calls| - 1].changedAt);
    }
  }

  predicate WaitingOrRunning(job: Jobs.ProcessingJob, at: int)
    requires Jobs.Valid(job)
  {
    || (job.status.Pending? && job.createdAt <= at)
    || (job.status.Processing? && job.startedAt.value <= at)
  }

  // When a call goes through, whatever valid records it finds: the metadata transition must be allowed, and the
  // job must be waiting or running since no later than the call's time. Only entering data by hand for an
  // unavailable article asks for a completed job instead.
  lemma StoresIff(p: Pair, t: Metadata.Transition, at: int)
    requires Metadata.Valid(p.metadata) && Jobs.Valid(p.job)
    ensures Enrich(p, t, at).Stored? <==>
      && Metadata.Apply(p.metadata, t, at).Ok?
      && if t.RecordManual? && p.metadata.status.Unavailable? then p.job.status.Completed?
         else WaitingOrRunning(p.job, at)
  {
    Metadata.ApplySpec(p.metadata, t, at);
    if t.MarkFailed? && Metadata.Apply(p.metadata, t, at).Ok? { FailureFits(p, t, at); }
  }

  // So a registered article's first call goes through exactly when the metadata transition does.
  lemma FirstCallStoresIff(intakeId: string, metadataId: string, jobId: string, createdAt: int,
                           t: Metadata.Transition, at: int)
    ensures var p := Registered(intakeId, metadataId, jobId, createdAt);
      Enrich(p, t, at).Stored? <==> Metadata.Apply(p.metadata, t, at).Ok?
  {
    var p := Registered(intakeId, metadataId, jobId, createdAt);
    Metadata.ApplySpec(p.metadata, t, at);
    StoresIff(p, t, at);
  }

  // The job transition raises after the metadata was written exactly when another process had already
  // started the job, later than the time this call works with. From a pending job it never does.
  lemma HalfWrittenIff(p: Pair, t: Metadata.Transition, at: int)
    requires Metadata.Valid(p.metadata) && Jobs.Valid(p.job)
    ensures Enrich(p, t, at).HalfWritten? <==>
      && Metadata.Apply(p.metadata, t, at).Ok? && !p.metadata.status.Unavailable?
      && p.job.status.Processing? && at < p.job.startedAt.value
  {
    Metadata.ApplySpec(p.metadata, t, at);
    if t.MarkFailed? && Metadata.Apply(p.metadata, t, at).Ok? { FailureFits(p, t, at); }
  }

  // ---- With the services that move a job on its own ----

  datatype Event =
    | Enriched(call: Call)
    | JobStarted(changedAt: int)
    | JobCompleted(changedAt: int)
    | JobFailed(error: string, changedAt: int)

  function TimeOf(e: Event): int {
    if e.Enriched? then e.call.changedAt else e.changedAt
  }

  function MovedJob(p: Pair, moved: Result<Jobs.ProcessingJob, DomainError>): Pair {
    if moved.Ok? then p.(job := moved.value) else p
  }

  function After(p: Pair, e: Event): Pair {
    match e
    case Enriched(call) => Run(p, [call])
    case JobStarted(at) => MovedJob(p, Jobs.Start(p.job, at))
    case JobCompleted(at) => MovedJob(p, Jobs.Complete(p.job, at))
    case JobFailed(error, at) => MovedJob(p, Jobs.Fail(p.job, error, at))
  }

  function AfterAll(p: Pair, events: seq<Event>): Pair {
    if events == [] then p else After(AfterAll(p, events[..|events| - 1]), events[|events| - 1])
  }

  // The job of an article that is still waiting may stand anywhere; otherwise it has ended with the metadata.
  predicate Coupled(p: Pair) {
    && Metadata.Valid(p.metadata) && Jobs.Valid(p.job)
    && match p.metadata.status
       case Pending => true
       case Failed => p.job.status.Failed?
       case _ => p.job.status.Completed?
  }

  lemma OneCall(p: Pair, c: Call)
    ensures Run(p, [c]) == match Enrich(p, c.transition, c.changedAt)
                           case Stored(after) => after
                           case _ => p
  {
    assert [c][..0] == [];
  }

  lemma CallKeepsCoupled(p: Pair, t: Metadata.Transition, at: int)
    requires Coupled(p) && Enrich(p, t, at).Stored?
    ensures Coupled(Enrich(p, t, at).pair)
    ensures var job := Enrich(p, t, at).pair.job;
      job.startedAt.Some? && (job.startedAt == p.job.startedAt || job.startedAt == Some(at))
  {
    Metadata.ApplySpec(p.metadata, t, at);
    if t.MarkFailed? && Metadata.Apply(p.metadata, t, at).Ok? { FailureFits(p, t, at); }
  }

  lemma EventKeepsCoupled(p: Pair, e: Event)
    requires Coupled(p)
    ensures Coupled(After(p, e))
    ensures After(p, e).job.startedAt in {p.job.startedAt, Some(TimeOf(e))}
  {
    if e.Enriched? {
      OneCall(p, e.call);
      if Enrich(p, e.call.transition, e.call.changedAt).Stored? {
        CallKeepsCoupled(p, e.call.transition, e.call.changedAt);
      }
    } else if e.JobFailed? {
      StripIsNormal(e.error);
    }
  }

  // Whatever calls and job services run after registration, finished metadata goes with a finished job.
  lemma {:induction false} EventsKeepCoupled(intakeId: string, metadataId: string, jobId: string, createdAt: int,
                                             events: seq<Event>)
    ensures Coupled(AfterAll(Registered(intakeId, metadataId, jobId, createdAt), events))
  {
    if events != [] {
      var most := events[..|events| - 1];
      EventsKeepCoupled(intakeId, metadataId, jobId, createdAt, most);
      EventKeepsCoupled(AfterAll(Registered(intakeId, metadataId, jobId, createdAt), most), events[|events| - 1]);
    }
  }

  // The half-written case is reached when the job service starts the job with a clock ahead of the enrichment's.
  lemma HalfWrittenHappens(intakeId: string, metadataId: string, jobId: string, createdAt: int, at: int, later: int)
    requires createdAt <= at < later
    ensures var p := AfterAll(Registered(intakeId, metadataId, jobId, createdAt), [JobStarted(later)]);
      Enrich(p, Metadata.MarkFailed("x"), at).HalfWritten?
  {
    var r := Registered(intakeId, metadataId, jobId, createdAt);
    assert [JobStarted(later)][..0] == [];
    assert AfterAll(r, [JobStarted(later)]) == After(r, JobStarted(later));
    StripIsNormal("x");
    assert Stripped("x");
    HalfWrittenIff(After(r, JobStarted(later)), Metadata.MarkFailed("x"), at);
  }

  predicate InOrder(createdAt: int, events: seq<Event>, at: int) {
    && (forall i :: 0 <= i < |events| ==> createdAt <= TimeOf(events[i]) <= at)
    && (forall i, j :: 0 <= i < j < |events| ==> TimeOf(events[i]) <= TimeOf(events[j]))
  }

  lemma {:induction false} StartedInPast(intakeId: string, metadataId: string, jobId: string, createdAt: int,
                                         events: seq<Event>, at: int)
    requires InOrder(createdAt, events, at)
    ensures var job := AfterAll(Registered(intakeId, metadataId, jobId, createdAt), events).job;
      job.startedAt.Some? ==> job.startedAt.value <= at
  {
    if events != [] {
      var most := events[..|events| - 1];
      StartedInPast(intakeId, metadataId, jobId, createdAt, most, at);
      EventsKeepCoupled(intakeId, metadataId, jobId, createdAt, most);
      EventKeepsCoupled(AfterAll(Registered(intakeId, metadataId, jobId, createdAt), most), events[|events| - 1]);
    }
  }

  // With one clock for all of them it is never reached.
  lemma NeverHalfWrittenInOrder(intakeId: string, metadataId: string, jobId: string, createdAt: int,
                                events: seq<Event>, t: Metadata.Transition, at: int)
    requires InOrder(createdAt, events, at)
    ensures !Enrich(AfterAll(Registered(intakeId, metadataId, jobId, createdAt), events), t, at).HalfWritten?
  {
    EventsKeepCoupled(intakeId, metadataId, jobId, createdAt, events);
    StartedInPast(intakeId, metadataId, jobId, createdAt, events, at);
    HalfWrittenIff(AfterAll(Registered(intakeId, metadataId, jobId, createdAt), events), t, at);
  }

  // ---- The services as they run against their two repositories ----

  datatype ServiceError = MetadataNotFound | JobNotFound | Rejected(error: DomainError)

  class EnrichmentServices {
    var metadata: map<string, Metadata.ArticleMetadata>
    var jobs: map<string, Jobs.ProcessingJob>

    constructor ()
      ensures metadata == map[] && jobs == map[]
    {
      metadata, jobs := map[], map[];
    }

    // The records end as Enrich says; a call that raises leaves both repositories as they were, because
    // the caller's transaction rolls back.
    method Execute(intakeId: string, t: Metadata.Transition, changedAt: int) returns (r: Result<Pair, ServiceError>)
      modifies this
      ensures intakeId !in old(metadata) ==> r == Err(MetadataNotFound)
      ensures intakeId in old(metadata) && intakeId !in old(jobs) ==> r == Err(JobNotFound)
      ensures r.Err? ==> metadata == old(metadata) && jobs == old(jobs)
      ensures intakeId in old(metadata) && intakeId in old(jobs) ==>
        var outcome := Enrich(Pair(old(metadata)[intakeId], old(jobs)[intakeId]), t, changedAt);
        if outcome.Stored? then
          r == Ok(outcome.pair)
          && metadata == old(metadata)[intakeId := outcome.pair.metadata]
          && jobs == old(jobs)[intakeId := outcome.pair.job]
        else
          r == Err(Rejected(outcome.error))
    {
      if intakeId !in metadata {
        return Err(MetadataNotFound);
      }
      if intakeId !in jobs {
        return Err(JobNotFound);
      }
      var job := jobs[intakeId];
      if !t.RecordManual? {
        var started := StartIfPending(job, changedAt);
        if started.Err? {
          return Err(Rejected(started.error));
        }
        job := started.value;
      }
      var updated := Metadata.Apply(metadata[intakeId], t, changedAt);
      if updated.Err? {
        return Err(Rejected(updated.error));
      }
      if t.RecordManual? {
        if metadata[intakeId].status.Unavailable? {
          if !job.status.Completed? {
            return Err(Rejected(InvalidTransition));
          }
          metadata := metadata[intakeId := updated.value];
          jobs := jobs[intakeId := job];
          return Ok(Pair(updated.value, job));
        }
        var started := StartIfPending(job, changedAt);
        if started.Err? {
          return Err(Rejected(started.error));
        }
        job := started.value;
      }
      var before := metadata;
      metadata := metadata[intakeId := updated.value];
      var finished := FinishJob(job, t, changedAt);
      if finished.Err? {
        metadata := before;
        return Err(Rejected(finished.error));
      }
      jobs := jobs[intakeId := finished.value];
      return Ok(Pair(updated.value, finished.value));
    }
  }
}
