// The narration_audio_generations table: the conditional UPDATE statements row by row, how they relate to the
// domain transitions, and the repository that runs them.

module AudioRepository {
  import opened Wrappers
  import opened Text
  import opened NarrationAudios

  // ---- The conditional UPDATE statements, on one row ----

  predicate Claimable(g: NarrationAudio, startedAt: int, staleBefore: Option<int>) {
    && (|| g.status.Pending?
        || g.status.Failed?
        || (&& staleBefore.Some? && g.status.Generating?
            && g.startedAt.Some? && g.startedAt.value <= staleBefore.value))
    && g.updatedAt <= startedAt
  }

  function ClaimedRow(g: NarrationAudio, startedAt: int): NarrationAudio {
    g.(status := Generating, attemptCount := g.attemptCount + 1, storageKey := None, byteSize := None,
       contentSha256 := None, failureReason := None, startedAt := Some(startedAt),
       completedAt := None, updatedAt := startedAt)
  }

  // The check a worker makes before it writes its result.
  predicate Current(g: NarrationAudio, attempt: int) {
    g.status.Generating? && g.attemptCount == attempt
  }

  // ---- How a row may change ----

  function Phase(s: Status): nat {
    match s
    case Pending => 0
    case Generating => 1
    case _ => 2
  }

  predicate SameConfiguration(g: NarrationAudio, h: NarrationAudio) {
    && g.audioGenerationId == h.audioGenerationId && g.mediaProductionId == h.mediaProductionId
    && g.audioVersion == h.audioVersion && g.provider == h.provider && g.model == h.model && g.voice == h.voice
    && g.audioFormat == h.audioFormat && g.sourceTextSha256 == h.sourceTextSha256
    && g.createdAt == h.createdAt
  }

  // h is g or a later value of the same row: the attempt number never drops, within one attempt the
  // status only moves forward, nothing follows GENERATED, and updated_at never decreases.
  predicate Evolves(g: NarrationAudio, h: NarrationAudio) {
    && SameConfiguration(g, h)
    && g.updatedAt <= h.updatedAt
    && (|| h == g
        || (&& !g.status.Generated?
            && (|| g.attemptCount < h.attemptCount
                || (g.attemptCount == h.attemptCount && Phase(g.status) < Phase(h.status)))))
  }

  // The stamp every statement leaves: a running row was last written when it started, a finished row when
  // it completed. Validity alone does not say this.
  predicate Stamped(g: NarrationAudio) {
    && (g.status.Generating? ==> g.startedAt == Some(g.updatedAt))
    && (g.status.Generated? || g.status.Failed? ==> g.completedAt == Some(g.updatedAt))
  }

  lemma EvolvesTransitive(g: NarrationAudio, h: NarrationAudio, k: NarrationAudio)
    requires Evolves(g, h) && Evolves(h, k)
    ensures Evolves(g, k)
  {
  }

  // A row never comes back to an earlier value: seeing GENERATING with the same attempt number
  // twice means the row did not change in between.
  lemma SameAttemptUnchanged(g: NarrationAudio, h: NarrationAudio, attempt: int)
    requires Evolves(g, h) && Current(g, attempt) && Current(h, attempt)
    ensures g == h
  {
  }

  // ---- The statements refine the domain transitions ----

  // On a row that is not running, a claim happens exactly when start() would succeed, with its result.
  lemma ClaimRefinesStart(g: NarrationAudio, startedAt: int, staleBefore: Option<int>)
    requires Valid(g) && !g.status.Generating?
    ensures Claimable(g, startedAt, staleBefore) <==> Start(g, startedAt).Ok?
    ensures Claimable(g, startedAt, staleBefore) ==> Start(g, startedAt) == Ok(ClaimedRow(g, startedAt))
  {
    StartSpec(g, startedAt);
  }

  // A running row is taken over exactly when it started no later than staleBefore and was not written later than the
  // claim. What the takeover writes is mark_failed() with any reason at any instant between the old start and the new
  // one, and at no other, followed by start().
  lemma TakeoverRefinesFailThenStart(g: NarrationAudio, startedAt: int, staleBefore: int, reason: string, failedAt: int)
    requires Valid(g) && g.status.Generating? && NormalizeRequired(reason, MAX_FAILURE_REASON).Ok?
    ensures Claimable(g, startedAt, Some(staleBefore))
      <==> g.startedAt.value <= staleBefore && g.updatedAt <= startedAt
    ensures (MarkFailed(g, reason, failedAt).Ok? && Start(MarkFailed(g, reason, failedAt).value, startedAt).Ok?)
      <==> g.startedAt.value <= failedAt <= startedAt
    ensures g.startedAt.value <= failedAt <= startedAt ==>
      Start(MarkFailed(g, reason, failedAt).value, startedAt) == Ok(ClaimedRow(g, startedAt))
  {
    MarkFailedSpec(g, reason, failedAt);
    if MarkFailed(g, reason, failedAt).Ok? {
      StartSpec(MarkFailed(g, reason, failedAt).value, startedAt);
    }
  }

  lemma ClaimKeepsValid(g: NarrationAudio, startedAt: int)
    requires Valid(g) && !g.status.Generated? && g.updatedAt <= startedAt
    ensures Valid(ClaimedRow(g, startedAt)) && Stamped(ClaimedRow(g, startedAt)) && Evolves(g, ClaimedRow(g, startedAt))
  {
  }

  // ---- The repository ----

  datatype RepositoryError = AlreadyExists | NotFound | Invalid(error: DomainError)

  // The unique key of the table.
  type RowKey = (string, int)

  ghost predicate HasId(rows: map<RowKey, NarrationAudio>, key: RowKey, id: string) {
    key in rows && rows[key].audioGenerationId == id
  }

  class NarrationAudioRepository {
    var rows: map<RowKey, NarrationAudio>

    ghost predicate Valid()
      reads this
    {
      && (forall k :: k in rows ==> NarrationAudios.Valid(rows[k])
                                    && rows[k].mediaProductionId == k.0 && rows[k].audioVersion == k.1)
      && (forall k, l :: k in rows && l in rows && rows[k].audioGenerationId == rows[l].audioGenerationId ==> k == l)
    }

    constructor ()
      ensures Valid() && rows == map[]
    {
      rows := map[];
    }

    // A second generation for the same media and version is refused, and so is a reused id.
    method Add(generation: NarrationAudio) returns (r: Result<NarrationAudio, RepositoryError>)
      requires Valid() && NarrationAudios.Valid(generation)
      modifies this
      ensures Valid()
      ensures var key := (generation.mediaProductionId, generation.audioVersion);
        if key in old(rows) || (exists k :: HasId(old(rows), k, generation.audioGenerationId)) then
          r == Err(AlreadyExists) && rows == old(rows)
        else
          r == Ok(generation) && rows == old(rows)[key := generation]
    {
      var key := (generation.mediaProductionId, generation.audioVersion);
      if key in rows {
        return Err(AlreadyExists);
      }
      var clash := Find(generation.audioGenerationId);
      if clash.Some? {
        return Err(AlreadyExists);
      }
      forall k | k in rows ensures rows[k].audioGenerationId != generation.audioGenerationId {
        assert !HasId(rows, k, generation.audioGenerationId);
      }
      rows := rows[key := generation];
      return Ok(generation);
    }

    method Find(id: string) returns (r: Option<RowKey>)
      requires Valid()
      ensures r.Some? ==> HasId(rows, r.value, id)
      ensures r.None? ==> forall k :: !HasId(rows, k, id)
    {
      if k :| k in rows.Keys && rows[k].audioGenerationId == id {
        return Some(k);
      }
      return None;
    }

    // update() writes every column of the named row, and only for the same media and version.
    method Update(generation: NarrationAudio) returns (r: Result<NarrationAudio, RepositoryError>)
      requires Valid() && NarrationAudios.Valid(generation)
      modifies this
      ensures Valid()
      ensures var key := (generation.mediaProductionId, generation.audioVersion);
        if HasId(old(rows), key, generation.audioGenerationId) then
          r == Ok(generation) && rows == old(rows)[key := generation]
        else
          r == Err(NotFound) && rows == old(rows)
    {
      var key := Find(generation.audioGenerationId);
      if key.None? || rows[key.value].mediaProductionId != generation.mediaProductionId
         || rows[key.value].audioVersion != generation.audioVersion {
        return Err(NotFound);
      }
      rows := rows[key.value := generation];
      return Ok(generation);
    }

    // The claim changes the one row it names, and only if that row can be claimed.
    method ClaimByMediaProductionVersion(mediaProductionId: string, audioVersion: int, startedAt: int,
                                         staleBefore: Option<int>)
      returns (r: Option<NarrationAudio>)
      requires Valid()
      modifies this
      ensures Valid()
      ensures var key := (mediaProductionId, audioVersion);
        if key in old(rows) && Claimable(old(rows)[key], startedAt, staleBefore) then
          r == Some(ClaimedRow(old(rows)[key], startedAt))
          && rows == old(rows)[key := ClaimedRow(old(rows)[key], startedAt)]
        else
          r == None && rows == old(rows)
    {
      var key := (mediaProductionId, audioVersion);
      if key !in rows || !Claimable(rows[key], startedAt, staleBefore) {
        return None;
      }
      ClaimKeepsValid(rows[key], startedAt);
      rows := rows[key := ClaimedRow(rows[key], startedAt)];
      return Some(rows[key]);
    }
  }
}
