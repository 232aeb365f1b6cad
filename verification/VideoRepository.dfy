// The video_generations table: the conditional UPDATE statements row by row, how they relate to the
// domain transitions, and the repository that runs them.

module VideoRepository {
  import opened Wrappers
  import opened Text
  import opened VideoGenerations

  // ---- The conditional UPDATE statements, on one row ----

  predicate Claimable(g: VideoGeneration, startedAt: int, staleBefore: Option<int>, expectedAttempt: Option<int>) {
    && (|| g.status.Pending?
        || g.status.Failed?
        || (&& staleBefore.Some? && g.status.Generating?
            && g.startedAt.Some? && g.startedAt.value <= staleBefore.value))
    && (expectedAttempt.Some? ==> g.attemptCount == expectedAttempt.value - 1)
    && g.updatedAt <= startedAt
  }

  function ClaimedRow(g: VideoGeneration, startedAt: int): VideoGeneration {
    g.(status := Generating, attemptCount := g.attemptCount + 1, storageKey := None, byteSize := None,
       contentSha256 := None, durationMs := None, failureReason := None, startedAt := Some(startedAt),
       completedAt := None, updatedAt := startedAt)
  }

  // The ownership predicate of both completion statements.
  predicate Current(g: VideoGeneration, attempt: int) {
    g.status.Generating? && g.attemptCount == attempt
  }

  // The columns the success statement takes from the object computed on the row read before it.
  function GeneratedRow(g: VideoGeneration, generated: VideoGeneration): VideoGeneration {
    g.(status := Generated, storageKey := generated.storageKey, byteSize := generated.byteSize,
       contentSha256 := generated.contentSha256, durationMs := generated.durationMs, failureReason := None,
       completedAt := generated.completedAt, updatedAt := generated.updatedAt)
  }

  function FailedRow(g: VideoGeneration, failed: VideoGeneration): VideoGeneration {
    g.(status := Failed, storageKey := None, byteSize := None, contentSha256 := None, durationMs := None,
       failureReason := failed.failureReason, completedAt := failed.completedAt, updatedAt := failed.updatedAt)
  }

  // ---- How a row may change ----

  function Phase(s: Status): nat {
    match s
    case Pending => 0
    case Generating => 1
    case _ => 2
  }

  predicate SameConfiguration(g: VideoGeneration, h: VideoGeneration) {
    && g.videoGenerationId == h.videoGenerationId && g.mediaProductionId == h.mediaProductionId
    && g.videoVersion == h.videoVersion && g.renderer == h.renderer && g.videoFormat == h.videoFormat
    && g.width == h.width && g.height == h.height && g.fps == h.fps
    && g.sourceAudioGenerationId == h.sourceAudioGenerationId && g.sourceAudioSha256 == h.sourceAudioSha256
    && g.createdAt == h.createdAt
  }

  // h is g or a later value of the same row: the attempt number never drops, within one attempt the
  // status only moves forward, nothing follows GENERATED, and updated_at never decreases.
  predicate Evolves(g: VideoGeneration, h: VideoGeneration) {
    && SameConfiguration(g, h)
    && g.updatedAt <= h.updatedAt
    && (|| h == g
        || (&& !g.status.Generated?
            && (|| g.attemptCount < h.attemptCount
                || (g.attemptCount == h.attemptCount && Phase(g.status) < Phase(h.status)))))
  }

  // The stamp every statement leaves: a running row was last written when it started, a finished row when
  // it completed. Validity alone does not say this.
  predicate Stamped(g: VideoGeneration) {
    && (g.status.Generating? ==> g.startedAt == Some(g.updatedAt))
    && (g.status.Generated? || g.status.Failed? ==> g.completedAt == Some(g.updatedAt))
  }

  lemma EvolvesTransitive(g: VideoGeneration, h: VideoGeneration, k: VideoGeneration)
    requires Evolves(g, h) && Evolves(h, k)
    ensures Evolves(g, k)
  {
  }

  // A row never comes back to an earlier value: seeing GENERATING with the same attempt number
  // twice means the row did not change in between.
  lemma SameAttemptUnchanged(g: VideoGeneration, h: VideoGeneration, attempt: int)
    requires Evolves(g, h) && Current(g, attempt) && Current(h, attempt)
    ensures g == h
  {
  }

  // ---- The statements refine the domain transitions ----

  // On a row that is not running, a claim happens exactly when start() would succeed, with its result.
  lemma ClaimRefinesStart(g: VideoGeneration, startedAt: int, staleBefore: Option<int>)
    requires Valid(g) && !g.status.Generating?
    ensures Claimable(g, startedAt, staleBefore, None) <==> Start(g, startedAt).Ok?
    ensures Claimable(g, startedAt, staleBefore, None) ==> Start(g, startedAt) == Ok(ClaimedRow(g, startedAt))
  {
    StartSpec(g, startedAt);
  }

  // A running row is taken over exactly when it started no later than staleBefore and was not written later than the
  // claim. What the takeover writes is mark_failed() with any reason at any instant between the old start and the new
  // one, and at no other, followed by start().
  lemma TakeoverRefinesFailThenStart(g: VideoGeneration, startedAt: int, staleBefore: int, reason: string,
                                     failedAt: int)
    requires Valid(g) && g.status.Generating? && NormalizeRequired(reason, MAX_FAILURE_REASON).Ok?
    ensures Claimable(g, startedAt, Some(staleBefore), None)
      <==> g.startedAt.value <= staleBefore && g.updatedAt <= startedAt
    ensures (MarkFailed(g, reason, failedAt).Ok? && Start(MarkFailed(g, reason, failedAt).value, startedAt).Ok?)
      <==> g.startedAt.value <= failedAt <= startedAt
    ensures g.startedAt.value <= failedAt <= startedAt ==>
      Start(MarkFailed(g, reason, failedAt).value, startedAt) == Ok(ClaimedRow(g, startedAt))
  {
    MarkFailedSpec(g, reason, failedAt);
    if MarkFailed(g, reason, failedAt).Ok? {
      StartSpec(MarkFailed(g, reason, failedAt).value, startedAt);
    }
  }

  // Whatever happened since the row was read, a success statement that still matches writes exactly what
  // record_generated() gives on the row as it is now.
  lemma SuccessRefinesRecordGenerated(read: VideoGeneration, now: VideoGeneration, attempt: int, storageKey: string,
                                      byteSize: int, contentSha256: string, durationMs: int, completedAt: int)
    requires Valid(read) && Stamped(read) && Evolves(read, now) && Current(read, attempt) && Current(now, attempt)
    requires IsNormalText(storageKey, MAX_STORAGE_KEY) && IsSha256Hex(contentSha256)
    requires RecordGenerated(read, storageKey, byteSize, contentSha256, durationMs, completedAt).Ok?
    ensures var generated := RecordGenerated(read, storageKey, byteSize, contentSha256, durationMs, completedAt).value;
      RecordGenerated(now, storageKey, byteSize, contentSha256, durationMs, completedAt)
      == Ok(GeneratedRow(now, generated))
      && Valid(GeneratedRow(now, generated)) && Stamped(GeneratedRow(now, generated))
      && Evolves(now, GeneratedRow(now, generated))
  {
    RecordGeneratedSpec(read, storageKey, byteSize, contentSha256, durationMs, completedAt);
    SameAttemptUnchanged(read, now, attempt);
  }

  lemma FailureRefinesMarkFailed(read: VideoGeneration, now: VideoGeneration, attempt: int, reason: string,
                                 completedAt: int)
    requires Valid(read) && Stamped(read) && Evolves(read, now) && Current(read, attempt) && Current(now, attempt)
    requires MarkFailed(read, reason, completedAt).Ok?
    ensures var failed := MarkFailed(read, reason, completedAt).value;
      MarkFailed(now, reason, completedAt) == Ok(FailedRow(now, failed))
      && Valid(FailedRow(now, failed)) && Stamped(FailedRow(now, failed)) && Evolves(now, FailedRow(now, failed))
  {
    MarkFailedSpec(read, reason, completedAt);
    SameAttemptUnchanged(read, now, attempt);
  }

  // The transition itself only compares its instant with started_at: it lowers updated_at exactly when it completes
  // before the last write. On rows as the statements stamp them that cannot happen.
  lemma SuccessLowersUpdatedAtIff(g: VideoGeneration, storageKey: string, byteSize: int, contentSha256: string,
                                  durationMs: int, completedAt: int)
    requires Valid(g) && IsNormalText(storageKey, MAX_STORAGE_KEY) && IsSha256Hex(contentSha256)
    requires g.status.Generating? && byteSize >= 1 && durationMs >= 1
    ensures var r := RecordGenerated(g, storageKey, byteSize, contentSha256, durationMs, completedAt);
      r.Ok? && r.value.updatedAt < g.updatedAt <==> g.startedAt.value <= completedAt < g.updatedAt
    ensures var r := RecordGenerated(g, storageKey, byteSize, contentSha256, durationMs, completedAt);
      r.Ok? && Stamped(g) ==> g.updatedAt <= r.value.updatedAt
  {
    RecordGeneratedSpec(g, storageKey, byteSize, contentSha256, durationMs, completedAt);
  }

  lemma ClaimKeepsValid(g: VideoGeneration, startedAt: int)
    requires Valid(g) && !g.status.Generated? && g.updatedAt <= startedAt
    ensures Valid(ClaimedRow(g, startedAt)) && Stamped(ClaimedRow(g, startedAt)) && Evolves(g, ClaimedRow(g, startedAt))
  {
  }

  // ---- The repository ----

  datatype RepositoryError = AlreadyExists | NotFound | Invalid(error: DomainError)

  // The unique key of the table.
  type RowKey = (string, int)

  ghost predicate HasId(rows: map<RowKey, VideoGeneration>, key: RowKey, id: string) {
    key in rows && rows[key].videoGenerationId == id
  }

  class VideoGenerationRepository {
    var rows: map<RowKey, VideoGeneration>

    ghost predicate Valid()
      reads this
    {
      && (forall k :: k in rows ==> VideoGenerations.Valid(rows[k])
                                    && rows[k].mediaProductionId == k.0 && rows[k].videoVersion == k.1)
      && (forall k, l :: k in rows && l in rows && rows[k].videoGenerationId == rows[l].videoGenerationId ==> k == l)
    }

    constructor ()
      ensures Valid() && rows == map[]
    {
      rows := map[];
    }

    // A second generation for the same media and version is refused, and so is a reused id.
    method Add(generation: VideoGeneration) returns (r: Result<VideoGeneration, RepositoryError>)
      requires Valid() && VideoGenerations.Valid(generation)
      modifies this
      ensures Valid()
      ensures var key := (generation.mediaProductionId, generation.videoVersion);
        if key in old(rows) || (exists k :: HasId(old(rows), k, generation.videoGenerationId)) then
          r == Err(AlreadyExists) && rows == old(rows)
        else
          r == Ok(generation) && rows == old(rows)[key := generation]
    {
      var key := (generation.mediaProductionId, generation.videoVersion);
      if key in rows {
        return Err(AlreadyExists);
      }
      var clash := Find(generation.videoGenerationId);
      if clash.Some? {
        return Err(AlreadyExists);
      }
      forall k | k in rows ensures rows[k].videoGenerationId != generation.videoGenerationId {
        assert !HasId(rows, k, generation.videoGenerationId);
      }
      rows := rows[key := generation];
      return Ok(generation);
    }

    method Find(id: string) returns (r: Option<RowKey>)
      requires Valid()
      ensures r.Some? ==> HasId(rows, r.value, id)
      ensures r.None? ==> forall k :: !HasId(rows, k, id)
    {
      if k :| k in rows.Keys && rows[k].videoGenerationId == id {
        return Some(k);
      }
      return None;
    }

    // The claim changes the one row it names, and only if that row can be claimed.
    method ClaimByMediaProductionVersion(mediaProductionId: string, videoVersion: int, startedAt: int,
                                         staleBefore: Option<int>, expectedAttempt: Option<int>)
      returns (r: Result<Option<VideoGeneration>, RepositoryError>)
      requires Valid()
      modifies this
      ensures Valid()
      ensures var key := (mediaProductionId, videoVersion);
        if expectedAttempt.Some? && expectedAttempt.value < 1 then
          r == Err(Invalid(InvalidData)) && rows == old(rows)
        else if key in old(rows) && Claimable(old(rows)[key], startedAt, staleBefore, expectedAttempt) then
          r == Ok(Some(ClaimedRow(old(rows)[key], startedAt)))
          && rows == old(rows)[key := ClaimedRow(old(rows)[key], startedAt)]
        else
          r == Ok(None) && rows == old(rows)
    {
      if expectedAttempt.Some? && expectedAttempt.value < 1 {
        return Err(Invalid(InvalidData));
      }
      var key := (mediaProductionId, videoVersion);
      if key !in rows || !Claimable(rows[key], startedAt, staleBefore, expectedAttempt) {
        return Ok(None);
      }
      ClaimKeepsValid(rows[key], startedAt);
      rows := rows[key := ClaimedRow(rows[key], startedAt)];
      return Ok(Some(rows[key]));
    }

    // Success is recorded exactly when the named row is still running the expected attempt and
    // record_generated() accepts the artifact; the row then holds that transition's result.
    method RecordGeneratedIfCurrent(id: string, expectedAttempt: int, storageKey: string, byteSize: int,
                                    contentSha256: string, durationMs: int, completedAt: int)
      returns (r: Result<Option<VideoGeneration>, RepositoryError>)
      requires Valid()
      modifies this
      ensures Valid()
      ensures expectedAttempt < 1 ==> r == Err(Invalid(InvalidData))
      ensures expectedAttempt >= 1 && (forall k :: !HasId(old(rows), k, id)) ==> r == Ok(None)
      ensures forall k :: HasId(old(rows), k, id) && expectedAttempt >= 1 ==>
        var transition := RecordGenerated(old(rows)[k], storageKey, byteSize, contentSha256, durationMs, completedAt);
        if !Current(old(rows)[k], expectedAttempt) then r == Ok(None)
        else if transition.Err? then r == Err(Invalid(transition.error))
        else r == Ok(Some(transition.value)) && rows == old(rows)[k := transition.value]
      ensures !(r.Ok? && r.value.Some?) ==> rows == old(rows)
    {
      if expectedAttempt < 1 {
        return Err(Invalid(InvalidData));
      }
      var key := Find(id);
      if key.None? {
        return Ok(None);
      }
      var current := rows[key.value];
      if !Current(current, expectedAttempt) {
        return Ok(None);
      }
      var transition := RecordGenerated(current, storageKey, byteSize, contentSha256, durationMs, completedAt);
      if transition.Err? {
        return Err(Invalid(transition.error));
      }
      GeneratedKeepsIdentity(current, storageKey, byteSize, contentSha256, durationMs, completedAt);
      // Nothing else runs between the read and this statement here; the interleaved form is the protocol's.
      rows := rows[key.value := GeneratedRow(rows[key.value], transition.value)];
      return Ok(Some(rows[key.value]));
    }

    method MarkFailedIfCurrent(id: string, expectedAttempt: int, reason: string, completedAt: int)
      returns (r: Result<Option<VideoGeneration>, RepositoryError>)
      requires Valid()
      modifies this
      ensures Valid()
      ensures expectedAttempt < 1 ==> r == Err(Invalid(InvalidData))
      ensures expectedAttempt >= 1 && (forall k :: !HasId(old(rows), k, id)) ==> r == Ok(None)
      ensures forall k :: HasId(old(rows), k, id) && expectedAttempt >= 1 ==>
        var transition := MarkFailed(old(rows)[k], reason, completedAt);
        if !Current(old(rows)[k], expectedAttempt) then r == Ok(None)
        else if transition.Err? then r == Err(Invalid(transition.error))
        else r == Ok(Some(transition.value)) && rows == old(rows)[k := transition.value]
      ensures !(r.Ok? && r.value.Some?) ==> rows == old(rows)
    {
      if expectedAttempt < 1 {
        return Err(Invalid(InvalidData));
      }
      var key := Find(id);
      if key.None? {
        return Ok(None);
      }
      var current := rows[key.value];
      if !Current(current, expectedAttempt) {
        return Ok(None);
      }
      var transition := MarkFailed(current, reason, completedAt);
      if transition.Err? {
        return Err(Invalid(transition.error));
      }
      MarkFailedSpec(current, reason, completedAt);
      rows := rows[key.value := FailedRow(rows[key.value], transition.value)];
      return Ok(Some(rows[key.value]));
    }
  }

  // On a valid row a recorded success changes the completion columns only, also for texts that
  // construction still has to normalise.
  lemma GeneratedKeepsIdentity(g: VideoGeneration, storageKey: string, byteSize: int, contentSha256: string,
                               durationMs: int, completedAt: int)
    requires Valid(g) && RecordGenerated(g, storageKey, byteSize, contentSha256, durationMs, completedAt).Ok?
    ensures var r := RecordGenerated(g, storageKey, byteSize, contentSha256, durationMs, completedAt).value;
      Valid(r) && r == GeneratedRow(g, r) && SameConfiguration(g, r)
  {
    PostInitSpec(g.(status := Generated, storageKey := Some(storageKey), byteSize := Some(byteSize),
      contentSha256 := Some(contentSha256), durationMs := Some(durationMs),
      failureReason := None, completedAt := Some(completedAt), updatedAt := completedAt));
    TextsPassThrough(g);
  }
}
