// Runs in which workers are refused. A worker that still owns its attempt raises at its completion, in each of the
// four ways; a narration claim raises; a video worker meets other content at its place. Completions, Provenance and
// VideoConflicts say exactly when these things happen; these runs show that they do.

module RefusedCompletions {
  import opened Wrappers
  import opened StorageKeys
  import opened FileStorage
  import opened MediaTransactions
  import opened MediaProtocol
  import opened ProtocolProof
  import opened RowChanges
  import opened Completions
  import opened Recovery
  import opened Publishing
  import opened Provenance
  import opened RunHistory
  import opened VideoConflicts
  import opened WorkerMoves
  import Audio = NarrationAudios
  import Video = VideoGenerations
  import VideoTable = VideoRepository

  // The last step was a completion of worker w, which owned the running attempt it was about; it raised and changed
  // no row and no file.
  ghost predicate Refused(env: Env, run: Run, w: nat) {
    && IsRun(env, run) && |run.steps| > 0
    && var before, after := run.states[|run.steps| - 1], Last(run);
    && w in before.workers
    && (OwnsVideo(before, w, before.workers[w].media) || OwnsAudio(before, w, before.workers[w].media))
    && w in after.workers && after.workers[w].pc == Done(Raised) && after.world == before.world
  }

  // Before its last step w held a film that fits.
  ghost predicate HadFilm(run: Run, w: nat) {
    && |run.steps| > 0 && |run.states| == |run.steps| + 1
    && w in run.states[|run.steps| - 1].workers && HasFilm(run.states[|run.steps| - 1].workers[w].pc)
  }

  predicate HasFilm(pc: Pc) {
    (pc.Stored? || pc.Completing?) && VideoArtifactAccepted(pc.artifact, pc.durationMs)
  }

  // A video claimed at `at` and stored, under a parent that has been processing since `parentAt`.
  lemma FilmStored(env: Env, m: string, parentAt: int, at: int)
    returns (run: Run, w: nat, row: Video.VideoGeneration, source: Audio.NarrationAudio, artifact: Artifact)
    requires EnvOk(env) && IsUuid(m) && parentAt >= 0 && at >= 0
    ensures IsRun(env, run) && Holds(Last(run), w, m, row, source, Stored(artifact, 1))
    ensures row.startedAt == Some(at) && VideoArtifactAccepted(artifact, 1)
    ensures MediaRow(Last(run), m).Some? && MediaRow(Last(run), m).value.startedAt == Some(parentAt)
  {
    hide Apply;
    var prepared := VideoPreparedOn(env, map[], "i", 100, m, parentAt, [1]);
    var claimed;
    claimed, w, source := ClaimedAgain(env, prepared, m, at);
    row := VideoTable.ClaimedRow(PendingVideo(env, m, [1]), at);
    run, artifact := RenderedAndStored(env, claimed, w, m, row, source, [1], 1);
    VideoKeyFits(m);
  }

  // A write behind its parent's start is refused.
  lemma WriteRefusedOn(env: Env, run: Run, w: nat, m: string, row: Video.VideoGeneration, source: Audio.NarrationAudio,
                       pc: Pc)
    returns (next: Run)
    requires EnvOk(env) && IsRun(env, run) && Holds(Last(run), w, m, row, source, pc) && pc.Completing? && HasFilm(pc)
    requires MediaRow(Last(run), m).Some? && MediaRow(Last(run), m).value.startedAt.Some?
    requires pc.completedAt < MediaRow(Last(run), m).value.startedAt.value
    ensures Refused(env, next, w) && HadFilm(next, w) && next.steps[|next.steps| - 1] == WriteSuccess(w)
  {
    hide Apply;
    next := Extend(env, run, WriteSuccess(w));
    VideoSuccessWrittenIff(env, next, |run.steps|, w);
  }

  // A read behind its attempt's start is refused.
  lemma ReadRefusedOn(env: Env, run: Run, w: nat, m: string, row: Video.VideoGeneration, source: Audio.NarrationAudio,
                      artifact: Artifact, at: int) returns (next: Run)
    requires EnvOk(env) && IsRun(env, run) && Holds(Last(run), w, m, row, source, Stored(artifact, 1))
    requires VideoArtifactAccepted(artifact, 1) && row.startedAt.Some? && at < row.startedAt.value
    ensures Refused(env, next, w) && HadFilm(next, w) && next.steps[|next.steps| - 1] == ReadBeforeSuccess(w, at)
  {
    hide Apply;
    next := Extend(env, run, ReadBeforeSuccess(w, at));
    VideoSuccessReadIff(env, next, |run.steps|, w, at);
  }

  // A parent that started at 0 and an attempt that started at 100: a worker whose clock says 50 is refused by the
  // read.
  lemma ReadIsRefused(env: Env, m: string) returns (run: Run, w: nat)
    requires EnvOk(env) && IsUuid(m)
    ensures Refused(env, run, w) && HadFilm(run, w) && run.steps[|run.steps| - 1] == ReadBeforeSuccess(w, 50)
  {
    hide Apply;
    var stored, row, source, artifact;
    stored, w, row, source, artifact := FilmStored(env, m, 0, 100);
    run := ReadRefusedOn(env, stored, w, m, row, source, artifact, 50);
  }

  // An attempt that started at 0 under a parent that started at 100: the read passes and the write is refused.
  lemma WriteIsRefused(env: Env, m: string) returns (run: Run, w: nat)
    requires EnvOk(env) && IsUuid(m)
    ensures Refused(env, run, w) && HadFilm(run, w) && run.steps[|run.steps| - 1] == WriteSuccess(w)
  {
    hide Apply;
    var stored, row, source, artifact;
    stored, w, row, source, artifact := FilmStored(env, m, 100, 0);
    var read, next := ReadRowOn(env, stored, w, m, row, source, artifact, 1, 50);
    run := WriteRefusedOn(env, read, w, m, row, source, next);
  }

  // ---- The other completions ----

  // A claimed video whose renderer failed, under a parent that has been processing since `parentAt`.
  lemma FilmFailed(env: Env, m: string, parentAt: int, at: int)
    returns (run: Run, w: nat, row: Video.VideoGeneration, source: Audio.NarrationAudio)
    requires EnvOk(env) && IsUuid(m) && parentAt >= 0 && at >= 0
    ensures IsRun(env, run) && Holds(Last(run), w, m, row, source, Failing(ToolFailure)) && row.startedAt == Some(at)
    ensures MediaRow(Last(run), m).Some? && MediaRow(Last(run), m).value.startedAt == Some(parentAt)
  {
    hide Apply;
    var prepared := VideoPreparedOn(env, map[], "i", 100, m, parentAt, [1]);
    var claimed, read, audioData;
    claimed, w, source := ClaimedAgain(env, prepared, m, at);
    row := VideoTable.ClaimedRow(PendingVideo(env, m, [1]), at);
    read, audioData := ReadOn(env, claimed, w, m, row, source);
    run := MoveOn(env, read, w, m, row, source, Rendering(audioData), Render(w, None), Failing(ToolFailure));
  }

  lemma FailureReadOn(env: Env, run: Run, w: nat, m: string, row: Video.VideoGeneration, source: Audio.NarrationAudio,
                      at: int) returns (next: Run, pc: Pc)
    requires EnvOk(env) && IsRun(env, run) && Holds(Last(run), w, m, row, source, Failing(ToolFailure))
    requires Started(row.startedAt, at)
    ensures IsRun(env, next) && Holds(Last(next), w, m, row, source, pc) && pc.RecordingFailure? && pc.failedAt == at
    ensures MediaRow(Last(next), m) == MediaRow(Last(run), m)
  {
    hide Apply;
    ShortReason();
    next := Extend(env, run, ReadBeforeFailure(w, "x", at));
    VideoFailureReadIff(env, next, |run.steps|, w, "x", at);
    pc := Last(next).workers[w].pc;
  }

  lemma ShortReason()
    ensures ReasonAccepted("x")
  {
    ShortText();
  }

  lemma FailureRefusedOn(env: Env, run: Run, w: nat, m: string, row: Video.VideoGeneration,
                         source: Audio.NarrationAudio, pc: Pc) returns (next: Run)
    requires EnvOk(env) && IsRun(env, run) && Holds(Last(run), w, m, row, source, pc) && pc.RecordingFailure?
    requires MediaRow(Last(run), m).Some? && MediaRow(Last(run), m).value.startedAt.Some?
    requires pc.failedAt < MediaRow(Last(run), m).value.startedAt.value
    ensures Refused(env, next, w) && next.steps[|next.steps| - 1] == WriteFailure(w)
  {
    hide Apply;
    next := Extend(env, run, WriteFailure(w));
    VideoFailureWrittenIff(env, next, |run.steps|, w);
  }

  // A failed attempt that started at 0 under a parent that started at 100: a worker whose clock says 50 cannot
  // even record its failure.
  lemma FailureIsRefused(env: Env, m: string) returns (run: Run, w: nat)
    requires EnvOk(env) && IsUuid(m)
    ensures Refused(env, run, w) && run.steps[|run.steps| - 1] == WriteFailure(w)
  {
    hide Apply;
    var failed, row, source;
    failed, w, row, source := FilmFailed(env, m, 100, 0);
    var read, pc := FailureReadOn(env, failed, w, m, row, source, 50);
    run := FailureRefusedOn(env, read, w, m, row, source, pc);
  }

  lemma NarratorOwns(env: Env, t: State, i: string, score: int, m: string, at: int, pc: Pc)
    requires Narrates(env, t, i, score, m, at, pc)
    ensures OwnsAudio(t, 0, m) && t.workers[0].task.row.startedAt == Some(at) && t.workers[0].pc == pc
  {
  }

  lemma SpeechRefusedOn(env: Env, run: Run, m: string, at: int) returns (next: Run)
    requires EnvOk(env) && IsRun(env, run) && OwnsAudio(Last(run), 0, m)
    requires Last(run).workers[0].pc.Stored? && !Started(Last(run).workers[0].task.row.startedAt, at)
    ensures Refused(env, next, 0) && next.steps[|next.steps| - 1] == RecordAudio(0, at)
  {
    hide Apply;
    next := Extend(env, run, RecordAudio(0, at));
    NarrationSuccessIff(env, next, |run.steps|, 0, at);
  }

  lemma SilenceRefusedOn(env: Env, run: Run, m: string, at: int) returns (next: Run)
    requires EnvOk(env) && IsRun(env, run) && OwnsAudio(Last(run), 0, m)
    requires Last(run).workers[0].pc.Failing? && !Started(Last(run).workers[0].task.row.startedAt, at)
    ensures Refused(env, next, 0) && next.steps[|next.steps| - 1] == FailAudio(0, "x", at)
  {
    hide Apply;
    next := Extend(env, run, FailAudio(0, "x", at));
    NarrationFailureIff(env, next, |run.steps|, 0, "x", at);
  }

  // A narration that started at 100 and is stored, recorded by a worker whose clock says 50.
  lemma NarrationSuccessIsRefused(env: Env, m: string) returns (run: Run)
    requires EnvOk(env) && IsUuid(m)
    ensures Refused(env, run, 0) && run.steps[|run.steps| - 1] == RecordAudio(0, 50)
  {
    hide Apply;
    var linked := LinkedOn(env, map[], "i", 100, m, 100, [1]);
    NarratorOwns(env, Last(linked), "i", 100, m, 100, Stored(SpokenArtifact(env, m, 100, [1]), 0));
    run := SpeechRefusedOn(env, linked, m, 50);
  }

  // A narration that started at 100 and failed, recorded by a worker whose clock says 50.
  lemma NarrationFailureIsRefused(env: Env, m: string) returns (run: Run)
    requires EnvOk(env) && IsUuid(m)
    ensures Refused(env, run, 0) && run.steps[|run.steps| - 1] == FailAudio(0, "x", 50)
  {
    hide Apply;
    var failed := SilentOn(env, m, 100);
    NarratorOwns(env, Last(failed), "i", 100, m, 100, Failing(ToolFailure));
    run := SilenceRefusedOn(env, failed, m, 50);
  }

  lemma SilentOn(env: Env, m: string, at: int) returns (run: Run)
    requires EnvOk(env) && IsUuid(m) && at >= 0
    ensures IsRun(env, run) && Narrates(env, Last(run), "i", 100, m, at, Failing(ToolFailure))
  {
    hide Apply;
    var looked := LookedUpOn(env, map[], "i", 100, m, at);
    SilentMoves(env, Last(looked), m, at);
    run := AudioMoveOn(env, map[], looked, "i", 100, m, at, Synthesizing, Synthesize(0, None), Failing(ToolFailure));
  }

  lemma SilentMoves(env: Env, t: State, m: string, at: int)
    requires Narrates(env, t, "i", 100, m, at, Synthesizing)
    ensures Moved(env, t.world, t.workers[0], Synthesize(0, None)) == Failing(ToolFailure)
  {
  }

  // ---- A claim ----

  // A production created at 0 whose narration was prepared at -2, by a clock that is behind: a claim at -1 raises.
  lemma NarrationClaimIsRefused(env: Env, m: string) returns (run: Run)
    requires EnvOk(env) && IsUuid(m)
    ensures IsRun(env, run) && AudioRow(Last(run), m).Some? && AudioRow(Last(run), m).value.status.Pending?
    ensures ClaimAudio(env, ScriptOf(Last(run).world, m), Last(run).world.entries[m].rows, -1)
      == Abort(Domain(InvalidData))
  {
    hide Apply;
    run := AudioPreparedOn(env, map[], "i", 100, m, -2);
    AudioClaimOutcome(env, run, |run.steps|, m, -1);
  }

  // ---- A conflict ----

  // A store that holds other content at the place of the first attempt before the run.
  lemma ConflictHappens(env: Env, m: string, other: Bytes, film: Bytes) returns (run: Run, w: nat)
    requires EnvOk(env) && IsUuid(m) && film != [] && env.digest(other) != env.digest(film)
    ensures IsRun(env, run) && |run.steps| > 0 && run.steps[|run.steps| - 1] == CheckTarget(w)
    ensures w in Last(run).workers && Last(run).workers[w].task.VideoTask? && Last(run).workers[w].pc == CONFLICT
  {
    hide Apply;
    var files := map[VideoPath(m, SCHEDULED_VERSION, 1) := other];
    PlacesDiffer(m);
    var prepared := VideoPreparedOn(env, files, "i", 100, m, 0, [1]);
    var claimed, source, read, audioData, rendered, p;
    claimed, w, source := ClaimedAgain(env, prepared, m, 0);
    var row := VideoTable.ClaimedRow(PendingVideo(env, m, [1]), 0);
    read, audioData := ReadOn(env, claimed, w, m, row, source);
    rendered, p := RenderOn(env, read, w, m, row, source, audioData, film, 1);
    assert rendered.states[0] == prepared.states[0];
    run := ClashOn(env, rendered, w, m, row, source, p);
  }

  lemma PlacesDiffer(m: string)
    ensures AudioPath(m) != VideoPath(m, SCHEDULED_VERSION, 1)
  {
    assert AudioPath(m)[1] != VideoPath(m, SCHEDULED_VERSION, 1)[1];
  }

  lemma ClashOn(env: Env, run: Run, w: nat, m: string, row: Video.VideoGeneration, source: Audio.NarrationAudio,
                p: Payload) returns (next: Run)
    requires EnvOk(env) && IsRun(env, run) && Holds(Last(run), w, m, row, source, Checking(p)) && p.data != []
    requires var path := VideoPath(m, SCHEDULED_VERSION, row.attemptCount);
      path in run.states[0].world.files && env.digest(run.states[0].world.files[path]) != env.digest(p.data)
    ensures IsRun(env, next) && |next.steps| == |run.steps| + 1 && next.steps[|run.steps|] == CheckTarget(w)
    ensures w in Last(next).workers && Last(next).workers[w].task.VideoTask? && Last(next).workers[w].pc == CONFLICT
  {
    hide Apply;
    next := Extend(env, run, CheckTarget(w));
    CheckOutcome(env, next, |run.steps|, w);
    RunKeepsTask(env, next, |run.steps|, w);
  }
}
