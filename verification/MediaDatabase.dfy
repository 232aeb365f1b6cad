// The workers' transactions as they run against the tables: read, check, write row by row, and undo every
// write when the transaction raises. Each is proved against the transaction on the rows of one production.

module MediaDatabase {
  import opened Wrappers
  import opened Text
  import opened FileStorage
  import opened MediaTransactions
  import Media = MediaProductions
  import Audio = NarrationAudios
  import Video = VideoGenerations
  import Script = ScriptGenerations
  import AudioTable = AudioRepository
  import VideoTable = VideoRepository

  function At<T>(table: map<string, T>, m: string): Option<T> {
    if m in table then Some(table[m]) else None
  }

  // The three tables, each keyed by the media production; the scheduler uses one version of either child.
  datatype Tables = Tables(
    media: map<string, Media.MediaProduction>,
    audio: map<string, Audio.NarrationAudio>,
    video: map<string, Video.VideoGeneration>)
  {
    function RowsOf(m: string): Rows
      requires m in media
    {
      Rows(media[m], At(audio, m), At(video, m))
    }

    // Nothing but the rows of m differs.
    ghost predicate SameExcept(m: string, other: Tables) {
      && media.Keys == other.media.Keys
      && (forall n :: n in media && n != m ==> media[n] == other.media[n])
      && (forall n :: n != m ==> At(audio, n) == At(other.audio, n) && At(video, n) == At(other.video, n))
    }
  }

  // A committed transaction leaves its rows, an aborted one the old tables; other productions stay as they were.
  ghost predicate Ran<T>(before: Tables, after: Tables, m: string, tx: Tx<T>, r: Result<T, TxError>)
    requires m in before.media
  {
    match tx
    case Commit(rows, value) => r == Ok(value) && before.SameExcept(m, after) && after.RowsOf(m) == rows
    case Abort(e) => r == Err(e) && after == before
  }

  // A video completion reads, computes the new record and updates; a read that raises or finds the attempt
  // superseded writes nothing.
  ghost predicate SuccessRan(before: Tables, after: Tables, m: string, attempt: int, artifact: Artifact,
                             durationMs: int, completedAt: int, r: Result<Settlement, TxError>)
    requires m in before.media
  {
    var rows := before.RowsOf(m);
    match ReadForSuccess(rows.video, attempt, artifact, durationMs, completedAt)
    case Err(e) => r == Err(Domain(e)) && after == before
    case Ok(None) => r == Ok(Superseded) && after == before
    case Ok(Some(generated)) => Ran(before, after, m, UpdateSuccess(rows, attempt, generated), r)
  }

  ghost predicate FailureRan(before: Tables, after: Tables, m: string, attempt: int, reason: string, failedAt: int,
                             r: Result<Settlement, TxError>)
    requires m in before.media
  {
    var rows := before.RowsOf(m);
    match ReadForFailure(rows.video, attempt, reason, failedAt)
    case Err(e) => r == Err(Domain(e)) && after == before
    case Ok(None) => r == Ok(Superseded) && after == before
    case Ok(Some(failed)) => Ran(before, after, m, UpdateFailure(rows, attempt, failed, reason, failedAt), r)
  }

  predicate RunsAudio(row: Option<Audio.NarrationAudio>, attempt: int) {
    row.Some? && row.value.status == Audio.Generating && row.value.attemptCount == attempt
  }

  predicate RunsVideo(row: Option<Video.VideoGeneration>, attempt: int) {
    row.Some? && row.value.status == Video.Generating && row.value.attemptCount == attempt
  }

  class Database {
    var tables: Tables

    constructor (tables: Tables)
      ensures this.tables == tables
    {
      this.tables := tables;
    }

    // Writes the parent of a claim that succeeded.
    method StartParent(m: string, startedAt: int) returns (r: Result<(), TxError>)
      requires m in tables.media
      modifies this
      ensures tables.media.Keys == old(tables).media.Keys
      ensures match MediaTransactions.StartParent(old(tables).RowsOf(m), startedAt, ())
              case Commit(rows, _) => r.Ok? && tables == old(tables).(media := old(tables).media[m := rows.media])
              case Abort(e) => r == Err(e) && tables == old(tables)
    {
      var production := tables.media[m];
      if production.status.Pending? || production.status.Failed? {
        var started := Media.Start(production, startedAt);
        if started.Err? {
          return Err(Domain(started.error));
        }
        tables := tables.(media := tables.media[m := started.value]);
      } else if !production.status.Processing? {
        return Err(ParentNotEligible);
      } else {
        assert tables.media[m := production] == tables.media;
      }
      return Ok(());
    }

    // Transaction 1 of the narration worker.
    method ClaimAudio(env: Env, script: Option<Script.ScriptGeneration>, m: string, startedAt: int)
      returns (r: Result<AudioClaim, TxError>)
      requires m in tables.media
      modifies this
      ensures Ran(old(tables), tables, m, MediaTransactions.ClaimAudio(env, script, old(tables).RowsOf(m), startedAt),
                  r)
    {
      if m !in tables.audio {
        return Err(NotFound);
      }
      var generation := tables.audio[m];
      if generation.status.Generated? {
        return Ok(AudioAlreadyGenerated);
      }
      if tables.media[m].status.Ready? {
        return Err(ReadyWithUnfinishedChild);
      }
      if script.None? {
        return Err(NotFound);
      }
      if !script.value.status.Generated? {
        return Err(ScriptNotGenerated);
      }
      if script.value.fullNarration.None? || Strip(script.value.fullNarration.value) == "" {
        return Err(EmptyNarration);
      }
      var narration := Strip(script.value.fullNarration.value);
      if env.textDigest(narration) != generation.sourceTextSha256 {
        return Err(SourceMismatch);
      }
      if !AudioTable.Claimable(generation, startedAt, Some(startedAt - env.timeout)) {
        return Ok(AudioNotClaimed(generation.status));
      }
      var saved := tables;
      var claimed := AudioTable.ClaimedRow(generation, startedAt);
      tables := tables.(audio := tables.audio[m := claimed]);
      var started := StartParent(m, startedAt);
      if started.Err? {
        tables := saved;
        return Err(started.error);
      }
      return Ok(AudioClaimed(claimed, narration));
    }

    // Transaction 1 of the video worker.
    method ClaimVideo(env: Env, m: string, expectedAttempt: int, startedAt: int)
      returns (r: Result<VideoClaim, TxError>)
      requires m in tables.media
      modifies this
      ensures Ran(old(tables), tables, m,
                  MediaTransactions.ClaimVideo(env, old(tables).RowsOf(m), expectedAttempt, startedAt), r)
    {
      if expectedAttempt < 1 {
        return Err(InvalidArgument);
      }
      if m !in tables.video {
        return Err(NotFound);
      }
      var generation := tables.video[m];
      if generation.status.Generated? {
        return Ok(VideoAlreadyGenerated);
      }
      if tables.media[m].status.Ready? {
        return Err(ReadyWithUnfinishedChild);
      }
      if m !in tables.audio || tables.audio[m].audioGenerationId != generation.sourceAudioGenerationId {
        return Err(NotFound);
      }
      var source := tables.audio[m];
      if !source.status.Generated? {
        return Err(SourceNotGenerated);
      }
      if source.mediaProductionId != generation.mediaProductionId {
        return Err(SourceMismatch);
      }
      if source.contentSha256 != Some(generation.sourceAudioSha256) {
        return Err(SourceMismatch);
      }
      if !VideoTable.Claimable(generation, startedAt, Some(startedAt - env.timeout), Some(expectedAttempt)) {
        return Ok(VideoNotClaimed);
      }
      var saved := tables;
      var claimed := VideoTable.ClaimedRow(generation, startedAt);
      tables := tables.(video := tables.video[m := claimed]);
      var started := StartParent(m, startedAt);
      if started.Err? {
        tables := saved;
        return Err(started.error);
      }
      return Ok(VideoClaimed(claimed, source));
    }

    // Transaction 2b of the narration worker.
    method RecordAudioSuccess(m: string, attempt: int, artifact: Artifact, completedAt: int)
      returns (r: Result<Settlement, TxError>)
      requires m in tables.media
      modifies this
      ensures Ran(old(tables), tables, m,
                  MediaTransactions.RecordAudioSuccess(old(tables).RowsOf(m), attempt, artifact, completedAt), r)
      ensures var row := At(old(tables).audio, m);
        && (r == Ok(AlreadyGenerated) <==> row.Some? && row.value.status == Audio.Generated)
        && (r == Ok(Superseded) <==> row.Some? && row.value.status != Audio.Generated && !RunsAudio(row, attempt))
        && (r == Err(NotFound) <==> row.None?)
        && (r == Ok(Recorded) ==>
              RunsAudio(row, attempt) && m in tables.audio && tables.audio[m].status == Audio.Generated
              && tables.audio[m].storageKey == Some(Strip(artifact.storageKey))
              && tables.audio[m].contentSha256 == Some(Lower(Strip(artifact.contentSha256))))
        && (r != Ok(Recorded) ==> tables == old(tables))
    {
      if m !in tables.audio {
        return Err(NotFound);
      }
      var current := tables.audio[m];
      if current.status.Generated? {
        return Ok(AlreadyGenerated);
      }
      if !current.status.Generating? || current.attemptCount != attempt {
        return Ok(Superseded);
      }
      var generated := Audio.RecordGenerated(current, artifact.storageKey, artifact.byteSize, artifact.contentSha256,
                                             completedAt);
      if generated.Err? {
        return Err(Domain(generated.error));
      }
      tables := tables.(audio := tables.audio[m := generated.value]);
      return Ok(Recorded);
    }

    // Writes the parent of a child whose failure was recorded.
    method FailParent(m: string, reason: string, failedAt: int) returns (r: Result<Settlement, TxError>)
      requires m in tables.media
      modifies this
      ensures match MediaTransactions.FailParent(old(tables).RowsOf(m), reason, failedAt)
              case Commit(rows, value) => r == Ok(value)
                && tables == old(tables).(media := old(tables).media[m := rows.media])
              case Abort(e) => r == Err(e) && tables == old(tables)
    {
      var production := tables.media[m];
      if production.status.Processing? {
        var failed := Media.MarkFailed(production, reason, failedAt);
        if failed.Err? {
          return Err(Domain(failed.error));
        }
        tables := tables.(media := tables.media[m := failed.value]);
      } else {
        assert tables.media[m := production] == tables.media;
      }
      return Ok(Recorded);
    }

    // Transaction 2a of the narration worker.
    method RecordAudioFailure(m: string, attempt: int, reason: string, failedAt: int)
      returns (r: Result<Settlement, TxError>)
      requires m in tables.media
      modifies this
      ensures Ran(old(tables), tables, m,
                  MediaTransactions.RecordAudioFailure(old(tables).RowsOf(m), attempt, reason, failedAt), r)
      ensures var row := At(old(tables).audio, m);
        && (r == Ok(Superseded) <==> row.Some? && !RunsAudio(row, attempt))
        && (r == Err(NotFound) <==> row.None?)
        && (r == Ok(Recorded) ==> m in tables.audio && tables.audio[m].status == Audio.Failed)
        && (r != Ok(Recorded) ==> tables == old(tables))
    {
      if m !in tables.audio {
        return Err(NotFound);
      }
      var current := tables.audio[m];
      if !(current.status.Generating? && current.attemptCount == attempt) {
        return Ok(Superseded);
      }
      var failed := Audio.MarkFailed(current, reason, failedAt);
      if failed.Err? {
        return Err(Domain(failed.error));
      }
      var saved := tables;
      tables := tables.(audio := tables.audio[m := failed.value]);
      r := FailParent(m, reason, failedAt);
      if r.Err? {
        tables := saved;
      }
    }

    // Transaction 2b of the video worker, when nothing else runs between its read and its statement.
    method RecordVideoSuccess(m: string, attempt: int, artifact: Artifact, durationMs: int, completedAt: int)
      returns (r: Result<Settlement, TxError>)
      requires m in tables.media
      modifies this
      ensures SuccessRan(old(tables), tables, m, attempt, artifact, durationMs, completedAt, r)
      ensures r == Ok(Superseded) <==> !RunsVideo(At(old(tables).video, m), attempt)
      ensures r == Ok(Recorded) ==>
        && m in tables.video && tables.video[m].status == Video.Generated
        && m in tables.media && tables.media[m].status == Media.Ready
      ensures r != Ok(Recorded) ==> tables == old(tables)
    {
      if m !in tables.video || !tables.video[m].status.Generating? || tables.video[m].attemptCount != attempt {
        return Ok(Superseded);
      }
      var current := tables.video[m];
      var generated := Video.RecordGenerated(current, artifact.storageKey, artifact.byteSize, artifact.contentSha256,
                                             durationMs, completedAt);
      if generated.Err? {
        return Err(Domain(generated.error));
      }
      var saved := tables;
      var row := VideoTable.GeneratedRow(current, generated.value);
      tables := tables.(video := tables.video[m := row]);
      var production := tables.media[m];
      if !production.status.Processing? || row.completedAt.None? {
        tables := saved;
        return Err(ParentNotEligible);
      }
      var ready := Media.MarkReady(production, row.completedAt.value);
      if ready.Err? {
        tables := saved;
        return Err(Domain(ready.error));
      }
      tables := tables.(media := tables.media[m := ready.value]);
      return Ok(Recorded);
    }

    // Transaction 2a of the video worker, likewise.
    method RecordVideoFailure(m: string, attempt: int, reason: string, failedAt: int)
      returns (r: Result<Settlement, TxError>)
      requires m in tables.media
      modifies this
      ensures FailureRan(old(tables), tables, m, attempt, reason, failedAt, r)
      ensures r == Ok(Superseded) <==> !RunsVideo(At(old(tables).video, m), attempt)
      ensures r == Ok(Recorded) ==> m in tables.video && tables.video[m].status == Video.Failed
      ensures r != Ok(Recorded) ==> tables == old(tables)
    {
      if m !in tables.video || !tables.video[m].status.Generating? || tables.video[m].attemptCount != attempt {
        return Ok(Superseded);
      }
      var current := tables.video[m];
      var failed := Video.MarkFailed(current, reason, failedAt);
      if failed.Err? {
        return Err(Domain(failed.error));
      }
      var saved := tables;
      tables := tables.(video := tables.video[m := VideoTable.FailedRow(current, failed.value)]);
      r := FailParent(m, reason, failedAt);
      if r.Err? {
        tables := saved;
      }
    }
  }
}
