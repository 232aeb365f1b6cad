// No crash, takeover or failure is final: from every state of every run, an unfinished video can still be
// generated.

module Recovery {
  import opened Wrappers
  import opened StorageKeys
  import opened FileStorage
  import opened MediaTransactions
  import opened MediaProtocol
  import opened ProtocolInvariants
  import opened ProtocolProof
  import opened RunHistory
  import opened RowChanges
  import opened Completions
  import opened Provenance
  import Audio = NarrationAudios
  import Video = VideoGenerations
  import VideoTable = VideoRepository

  // Worker w holds the running attempt of m and stands at pc.
  predicate Holds(t: State, w: nat, m: string, row: Video.VideoGeneration, source: Audio.NarrationAudio, pc: Pc) {
    && w in t.workers && row.attemptCount >= 1
    && t.workers[w] == Worker(m, row.attemptCount, VideoTask(row, source), pc)
    && m in t.world.entries && VideoRow(t, m) == Some(row) && row.status.Generating?
  }

  lemma StartApplies(env: Env, t: State, w: nat, m: string, row: Video.VideoGeneration, at: int,
                     source: Audio.NarrationAudio)
    requires w !in t.workers && m in t.world.entries && row.attemptCount >= 0
    requires var tx := ClaimVideo(env, t.world.entries[m].rows, row.attemptCount + 1, at);
      && tx.Commit? && tx.value == VideoClaimed(VideoTable.ClaimedRow(row, at), source)
      && tx.rows.video == Some(VideoTable.ClaimedRow(row, at))
    ensures var t' := Apply(env, t, StartVideo(w, m, row.attemptCount + 1, at));
      && Holds(t', w, m, VideoTable.ClaimedRow(row, at), source, Claimed)
      && MediaRow(t', m) == Some(ClaimVideo(env, t.world.entries[m].rows, row.attemptCount + 1, at).rows.media)
  {
  }

  // A claim under a running parent leaves the parent alone.
  lemma ClaimKeepsParent(env: Env, rows: Rows, attempt: int, at: int)
    requires rows.media.status.Processing? && ClaimVideo(env, rows, attempt, at).Commit?
    ensures ClaimVideo(env, rows, attempt, at).rows.media == rows.media
  {
  }

  lemma ClaimSucceeds(env: Env, g: World, m: string, at: int) returns (source: Audio.NarrationAudio)
    requires EnvOk(env) && EntryOk(env, g, m) && m in g.entries && g.entries[m].rows.video.Some?
    requires var row := g.entries[m].rows.video.value;
      && !row.status.Generated? && row.updatedAt <= at && row.attemptCount >= 0
      && (row.startedAt.Some? ==> row.startedAt.value <= at - env.timeout)
    ensures var row, tx := g.entries[m].rows.video.value,
                           ClaimVideo(env, g.entries[m].rows, g.entries[m].rows.video.value.attemptCount + 1, at);
      && row.mediaProductionId == m && row.videoVersion == SCHEDULED_VERSION
      && tx.Commit? && tx.value == VideoClaimed(VideoTable.ClaimedRow(row, at), source)
      && tx.rows.video == Some(VideoTable.ClaimedRow(row, at))
  {
    VideoClaimOf(env, g, m, g.entries[m].rows.video.value.attemptCount + 1, at);
    source := g.entries[m].rows.audio.value;
  }

  lemma Move(env: Env, t: State, w: nat, m: string, row: Video.VideoGeneration, source: Audio.NarrationAudio, pc: Pc,
             step: Step, next: Pc)
    requires Holds(t, w, m, row, source, pc) && !pc.Done? && !IsScheduling(step) && !step.StartAudio?
    requires !step.StartVideo?
    requires step.worker == w && !Settles(t.workers[w], step) && !step.LinkTarget?
    requires Moved(env, t.world, t.workers[w], step) == next
    ensures Holds(Apply(env, t, step), w, m, row, source, next) && MediaRow(Apply(env, t, step), m) == MediaRow(t, m)
  {
  }

  lemma ReadMoves(env: Env, t: State, w: nat)
    requires Inv(env, t) && w in t.workers && t.workers[w].media in t.world.entries
    requires t.workers[w].task.VideoTask? && t.workers[w].pc.Claimed? && t.workers[w].task.video.renderer == "ffmpeg"
    ensures Moved(env, t.world, t.workers[w], ReadSource(w))
      == Rendering(SourceBytes(t.world.files, t.workers[w].task.source))
  {
    assert WorkerOk(env, t.world, t.workers[w]) && EntryOk(env, t.world, t.workers[w].media);
    SourceReadSpec(env, t.world, t.workers[w]);
  }

  lemma CheckMoves(env: Env, t: State, w: nat)
    requires Inv(env, t) && w in t.workers && t.workers[w].media in t.world.entries && t.workers[w].task.VideoTask?
    requires t.workers[w].pc.Checking? && t.workers[w].pc.payload.data != []
    requires t.workers[w].task.video.videoFormat == "mp4"
    requires !Foreign(t.world, t.workers[w].media, t.workers[w].attempt)
    ensures Moved(env, t.world, t.workers[w], CheckTarget(w)) == Writing(t.workers[w].pc.payload, [])
  {
    assert WorkerOk(env, t.world, t.workers[w]) && EntryOk(env, t.world, t.workers[w].media) && TargetFree(t, w);
    FreeTargetPasses(env, t.world, t.workers[w]);
  }

  lemma FreeTargetPasses(env: Env, g: World, k: Worker)
    requires EntryOk(env, g, k.media) && WorkerOk(env, g, k) && k.task.VideoTask? && k.pc.Checking?
    requires k.task.video.videoFormat == "mp4" && k.pc.payload.data != []
    requires VideoPath(k.media, SCHEDULED_VERSION, k.attempt) !in g.files
    ensures Checked(env, g.files, k, k.pc.payload) == Writing(k.pc.payload, [])
  {
    VideoTarget(env, g, k);
  }

  lemma LinkResult(env: Env, t: State, w: nat)
    requires Inv(env, t) && w in t.workers && t.workers[w].pc.Linking? && t.workers[w].task.VideoTask?
    ensures var k, t' := t.workers[w], DoLink(env, t, w);
      && t'.workers
          == t.workers[w := k.(pc := Stored(ArtifactOf(env.digest, KeyOf(k), k.pc.payload.data),
                                            k.pc.payload.durationMs))]
      && t'.world.entries == t.world.entries
  {
    assert WorkerOk(env, t.world, t.workers[w]) && EntryOk(env, t.world, t.workers[w].media) && TargetFree(t, w);
    VideoLinkSpec(env, t, w);
  }

  lemma LinkIt(env: Env, t: State, w: nat, m: string, row: Video.VideoGeneration, source: Audio.NarrationAudio,
               p: Payload)
    requires Inv(env, t) && Holds(t, w, m, row, source, Linking(p, p.data))
    ensures Holds(Apply(env, t, LinkTarget(w)), w, m, row, source,
                  Stored(ArtifactOf(env.digest, KeyOf(t.workers[w]), p.data), p.durationMs))
    ensures MediaRow(Apply(env, t, LinkTarget(w)), m) == MediaRow(t, m)
  {
    LinkResult(env, t, w);
    LinkApplies(env, t, w);
  }

  lemma LinkApplies(env: Env, t: State, w: nat)
    requires w in t.workers && t.workers[w].pc.Linking? && t.workers[w].media in t.world.entries
    ensures Apply(env, t, LinkTarget(w)) == DoLink(env, t, w)
  {
  }

  lemma SuccessReads(env: Env, t: State, w: nat, at: int) returns (next: Pc)
    requires EnvOk(env) && Inv(env, t) && w in t.workers && t.workers[w].media in t.world.entries
    requires t.workers[w].task.VideoTask? && t.workers[w].pc.Stored?
    requires VideoRow(t, t.workers[w].media) == Some(t.workers[w].task.video)
    requires VideoArtifactAccepted(t.workers[w].pc.artifact, t.workers[w].pc.durationMs)
    requires Started(t.workers[w].task.video.startedAt, at)
    ensures next.Completing? && next.completedAt == at && Apply(env, t, ReadBeforeSuccess(w, at)) == At(t, w, next)
    ensures next.artifact == t.workers[w].pc.artifact && next.durationMs == t.workers[w].pc.durationMs
  {
    assert WorkerOk(env, t.world, t.workers[w]) && EntryOk(env, t.world, t.workers[w].media);
    SuccessRead(env, t.world, t.workers[w], at);
    ReadStep(env, t, w, at);
    next := ReadForCompletion(t.world, t.workers[w], at);
  }

  lemma SuccessWrites(env: Env, t: State, w: nat)
    requires EnvOk(env) && Inv(env, t) && w in t.workers && t.workers[w].media in t.world.entries
    requires t.workers[w].task.VideoTask? && t.workers[w].pc.Completing?
    requires VideoRow(t, t.workers[w].media) == Some(t.workers[w].task.video)
    requires Started(t.world.entries[t.workers[w].media].rows.media.startedAt, t.workers[w].pc.completedAt)
    ensures var m, t' := t.workers[w].media, Apply(env, t, WriteSuccess(w));
      && m in t'.world.entries && t'.world.entries[m].rows.media.status.Ready?
      && VideoRow(t', m).Some? && VideoRow(t', m).value.status.Generated?
  {
    assert WorkerOk(env, t.world, t.workers[w]) && EntryOk(env, t.world, t.workers[w].media);
    SuccessWritten(env, t.world, t.workers[w]);
    SuccessLands(t, w);
    WriteStep(env, t, w);
  }

  lemma SuccessLands(t: State, w: nat)
    requires w in t.workers && t.workers[w].media in t.world.entries && t.workers[w].pc.Completing?
    requires var k := t.workers[w];
      var tx := UpdateSuccess(t.world.entries[k.media].rows, k.attempt, k.pc.generated);
      && tx.Commit? && tx.rows.media.status.Ready?
      && tx.rows.video == Some(k.pc.generated) && k.pc.generated.status.Generated?
    ensures var m, t' := t.workers[w].media, DoWriteSuccess(t, w);
      && m in t'.world.entries && t'.world.entries[m].rows.media.status.Ready?
      && VideoRow(t', m).Some? && VideoRow(t', m).value.status.Generated?
  {
  }

  // ---- One step of the recovery at a time ----

  lemma MoveOn(env: Env, run: Run, w: nat, m: string, row: Video.VideoGeneration, source: Audio.NarrationAudio, pc: Pc,
               step: Step, next: Pc) returns (further: Run)
    requires EnvOk(env) && IsRun(env, run) && Holds(Last(run), w, m, row, source, pc)
    requires !pc.Done? && !IsScheduling(step) && !step.StartAudio? && !step.StartVideo?
    requires step.worker == w && !Settles(Last(run).workers[w], step) && !step.LinkTarget?
    requires Moved(env, Last(run).world, Last(run).workers[w], step) == next
    ensures IsRun(env, further) && run.states <= further.states && Holds(Last(further), w, m, row, source, next)
    ensures MediaRow(Last(further), m) == MediaRow(Last(run), m)
  {
    hide Apply;
    Move(env, Last(run), w, m, row, source, pc, step, next);
    further := Extend(env, run, step);
  }

  lemma ReadOn(env: Env, run: Run, w: nat, m: string, row: Video.VideoGeneration, source: Audio.NarrationAudio)
    returns (further: Run, audioData: Bytes)
    requires EnvOk(env) && IsRun(env, run) && Holds(Last(run), w, m, row, source, Claimed) && row.renderer == "ffmpeg"
    ensures IsRun(env, further) && run.states <= further.states
    ensures Holds(Last(further), w, m, row, source, Rendering(audioData))
    ensures MediaRow(Last(further), m) == MediaRow(Last(run), m)
  {
    hide Apply;
    RunKeeps(env, run, |run.steps|);
    ReadMoves(env, Last(run), w);
    audioData := SourceBytes(Last(run).world.files, source);
    further := MoveOn(env, run, w, m, row, source, Claimed, ReadSource(w), Rendering(audioData));
  }

  lemma RenderOn(env: Env, run: Run, w: nat, m: string, row: Video.VideoGeneration, source: Audio.NarrationAudio,
                 audioData: Bytes, data: Bytes, durationMs: int) returns (further: Run, p: Payload)
    requires EnvOk(env) && IsRun(env, run) && Holds(Last(run), w, m, row, source, Rendering(audioData))
    requires row.videoFormat == "mp4"
    ensures IsRun(env, further) && run.states <= further.states && Holds(Last(further), w, m, row, source, Checking(p))
    ensures MediaRow(Last(further), m) == MediaRow(Last(run), m)
    ensures p.data == data && p.durationMs == durationMs
  {
    hide Apply;
    p := Payload(data, Rendered(m, row.attemptCount, audioData), durationMs);
    further := MoveOn(env, run, w, m, row, source, Rendering(audioData), Render(w, Some((data, durationMs))),
                      Checking(p));
  }

  lemma CheckOn(env: Env, run: Run, w: nat, m: string, row: Video.VideoGeneration, source: Audio.NarrationAudio,
                p: Payload)
    returns (further: Run)
    requires EnvOk(env) && IsRun(env, run) && Holds(Last(run), w, m, row, source, Checking(p))
    requires row.videoFormat == "mp4" && p.data != []
    requires VideoPath(m, SCHEDULED_VERSION, row.attemptCount) !in run.states[0].world.files
    ensures IsRun(env, further) && run.states <= further.states
    ensures Holds(Last(further), w, m, row, source, Writing(p, []))
    ensures MediaRow(Last(further), m) == MediaRow(Last(run), m)
  {
    hide Apply;
    RunKeeps(env, run, |run.steps|);
    NotForeign(env, run, |run.steps|, m, row.attemptCount);
    CheckMoves(env, Last(run), w);
    further := MoveOn(env, run, w, m, row, source, Checking(p), CheckTarget(w), Writing(p, []));
  }

  lemma WriteOn(env: Env, run: Run, w: nat, m: string, row: Video.VideoGeneration, source: Audio.NarrationAudio,
                p: Payload)
    returns (further: Run)
    requires EnvOk(env) && IsRun(env, run) && Holds(Last(run), w, m, row, source, Writing(p, []))
    ensures IsRun(env, further) && run.states <= further.states
    ensures Holds(Last(further), w, m, row, source, Linking(p, p.data))
    ensures MediaRow(Last(further), m) == MediaRow(Last(run), m)
  {
    hide Apply;
    further := MoveOn(env, run, w, m, row, source, Writing(p, []), WriteTemporary(w, |p.data|), Linking(p, p.data));
  }

  lemma LinkOn(env: Env, run: Run, w: nat, m: string, row: Video.VideoGeneration, source: Audio.NarrationAudio,
               p: Payload)
    returns (further: Run, artifact: Artifact)
    requires EnvOk(env) && IsRun(env, run) && Holds(Last(run), w, m, row, source, Linking(p, p.data))
    requires row.videoFormat == "mp4"
    ensures IsRun(env, further) && run.states <= further.states
    ensures Holds(Last(further), w, m, row, source, Stored(artifact, p.durationMs)) && artifact.byteSize == |p.data|
    ensures MediaRow(Last(further), m) == MediaRow(Last(run), m)
    ensures artifact.storageKey == VideoKey(row.mediaProductionId, AsNat(row.videoVersion), row.attemptCount, "mp4")
  {
    hide Apply;
    RunKeeps(env, run, |run.steps|);
    LinkIt(env, Last(run), w, m, row, source, p);
    artifact := ArtifactOf(env.digest, KeyOf(Last(run).workers[w]), p.data);
    further := Extend(env, run, LinkTarget(w));
  }

  lemma ReadRowOn(env: Env, run: Run, w: nat, m: string, row: Video.VideoGeneration, source: Audio.NarrationAudio,
                  artifact: Artifact, durationMs: int, at: int) returns (further: Run, next: Pc)
    requires EnvOk(env) && IsRun(env, run) && Holds(Last(run), w, m, row, source, Stored(artifact, durationMs))
    requires VideoArtifactAccepted(artifact, durationMs) && Started(row.startedAt, at)
    ensures IsRun(env, further) && run.states <= further.states && next.Completing? && next.completedAt == at
    ensures next.artifact == artifact && next.durationMs == durationMs
    ensures Holds(Last(further), w, m, row, source, next)
    ensures Last(further).world == Last(run).world
  {
    hide Apply;
    RunKeeps(env, run, |run.steps|);
    next := SuccessReads(env, Last(run), w, at);
    further := Extend(env, run, ReadBeforeSuccess(w, at));
  }

  lemma WriteRowOn(env: Env, run: Run, w: nat, m: string, row: Video.VideoGeneration, source: Audio.NarrationAudio,
                   pc: Pc)
    returns (further: Run)
    requires EnvOk(env) && IsRun(env, run) && Holds(Last(run), w, m, row, source, pc) && pc.Completing?
    requires Started(Last(run).world.entries[m].rows.media.startedAt, pc.completedAt)
    ensures IsRun(env, further) && run.states <= further.states
    ensures VideoRow(Last(further), m).Some? && VideoRow(Last(further), m).value.status.Generated?
    ensures m in Last(further).world.entries && Last(further).world.entries[m].rows.media.status.Ready?
  {
    hide Apply;
    RunKeeps(env, run, |run.steps|);
    SuccessWrites(env, Last(run), w);
    further := Extend(env, run, WriteSuccess(w));
  }

  // ---- The whole recovery ----

  lemma FreshWorker(workers: map<nat, Worker>) returns (w: nat)
    ensures w !in workers
  {
    w := Above(workers.Keys);
  }

  lemma {:induction false} Above(s: set<nat>) returns (w: nat)
    ensures forall x :: x in s ==> x < w
    decreases |s|
  {
    if s == {} {
      w := 0;
    } else {
      var x :| x in s;
      var rest := Above(s - {x});
      assert forall y :: y in s ==> y == x || y in s - {x};
      w := if rest > x then rest else x + 1;
    }
  }

  function Max(a: int, b: int): int {
    if a > b then a else b
  }

  // No earlier than this can a row be claimed whatever its status.
  function LateEnough(row: Video.VideoGeneration, timeout: int): int {
    Max(row.updatedAt, if row.startedAt.Some? then row.startedAt.value + timeout else row.updatedAt)
  }

  // Attempts can be claimed and abandoned until any later one comes next.
  lemma {:induction false} Abandoned(env: Env, run: Run, m: string, count: nat) returns (ready: Run)
    requires EnvOk(env) && IsRun(env, run) && VideoRow(Last(run), m).Some?
    requires !VideoRow(Last(run), m).value.status.Generated? && 0 <= VideoRow(Last(run), m).value.attemptCount <= count
    ensures IsRun(env, ready) && run.states <= ready.states && VideoRow(Last(ready), m).Some?
    ensures var before, after := VideoRow(Last(run), m).value, VideoRow(Last(ready), m).value;
      && !after.status.Generated? && after.attemptCount == count
      && after.renderer == before.renderer && after.videoFormat == before.videoFormat
    decreases count - VideoRow(Last(run), m).value.attemptCount
  {
    hide Apply;
    var row := VideoRow(Last(run), m).value;
    if row.attemptCount == count {
      ready := run;
    } else {
      var claimed, w, source := ClaimedAgain(env, run, m, LateEnough(row, env.timeout));
      ready := Abandoned(env, claimed, m, count);
    }
  }

  // The next attempt can be finished, when its key fits and no file lay at its place before the run.
  lemma NextFinished(env: Env, run: Run, m: string, data: Bytes, durationMs: int) returns (finished: Run)
    requires EnvOk(env) && IsRun(env, run) && VideoRow(Last(run), m).Some?
    requires !VideoRow(Last(run), m).value.status.Generated?
    requires var row := VideoRow(Last(run), m).value;
      && row.renderer == "ffmpeg" && row.videoFormat == "mp4" && row.attemptCount >= 0
      && |VideoKey(m, SCHEDULED_VERSION, row.attemptCount + 1, "mp4")| <= Video.MAX_STORAGE_KEY
      && VideoPath(m, SCHEDULED_VERSION, row.attemptCount + 1) !in run.states[0].world.files
    requires data != [] && durationMs >= 1
    ensures IsRun(env, finished) && run.states <= finished.states
    ensures VideoRow(Last(finished), m).Some? && VideoRow(Last(finished), m).value.status.Generated?
    ensures m in Last(finished).world.entries && Last(finished).world.entries[m].rows.media.status.Ready?
  {
    hide Apply;
    var last := VideoRow(Last(run), m).value;
    var at := LateEnough(last, env.timeout);
    var row := VideoTable.ClaimedRow(last, at);
    var claimed, w, source := ClaimedAgain(env, run, m, at);
    var stored, artifact := RenderedAndStored(env, claimed, w, m, row, source, data, durationMs);
    finished := Completed(env, stored, w, m, row, source, artifact, durationMs);
  }

  // So can any later attempt whose key fits and whose place was free.
  lemma RecoverableAt(env: Env, run: Run, m: string, attempt: nat, data: Bytes, durationMs: int) returns (finished: Run)
    requires EnvOk(env) && IsRun(env, run) && VideoRow(Last(run), m).Some?
    requires !VideoRow(Last(run), m).value.status.Generated?
    requires var row := VideoRow(Last(run), m).value;
      && row.renderer == "ffmpeg" && row.videoFormat == "mp4" && 0 <= row.attemptCount < attempt
      && |VideoKey(m, SCHEDULED_VERSION, attempt, "mp4")| <= Video.MAX_STORAGE_KEY
      && VideoPath(m, SCHEDULED_VERSION, attempt) !in run.states[0].world.files
    requires data != [] && durationMs >= 1
    ensures IsRun(env, finished) && run.states <= finished.states
    ensures VideoRow(Last(finished), m).Some? && VideoRow(Last(finished), m).value.status.Generated?
    ensures m in Last(finished).world.entries && Last(finished).world.entries[m].rows.media.status.Ready?
  {
    hide Apply;
    var ready := Abandoned(env, run, m, attempt - 1);
    assert ready.states[0] == run.states[0];
    finished := NextFinished(env, ready, m, data, durationMs);
  }

  // Files from before the run can stand in the way of finitely many attempts only.
  lemma {:induction false} FreeAttempt(taken: set<Path>, m: string, count: nat) returns (attempt: nat)
    ensures count < attempt <= count + |taken| + 1 && VideoPath(m, SCHEDULED_VERSION, attempt) !in taken
    decreases |taken|
  {
    attempt := count + 1;
    var path := VideoPath(m, SCHEDULED_VERSION, attempt);
    if path in taken {
      attempt := FreeAttempt(taken - {path}, m, count + 1);
      if VideoPath(m, SCHEDULED_VERSION, attempt) == path {
        VideoPathInjective(m, SCHEDULED_VERSION, attempt, m, SCHEDULED_VERSION, count + 1);
      }
    }
  }

  lemma {:induction false} LongerNumber(n: nat, later: nat)
    requires n <= later
    ensures |Decimal(n)| <= |Decimal(later)|
  {
    if later >= 10 { LongerNumber(n / 10, later / 10); }
  }

  lemma LongerKey(m: string, attempt: nat, later: nat)
    requires attempt <= later
    ensures |VideoKey(m, SCHEDULED_VERSION, attempt, "mp4")| <= |VideoKey(m, SCHEDULED_VERSION, later, "mp4")|
  {
    LongerNumber(attempt, later);
    var v := "v" + Decimal(SCHEDULED_VERSION);
    var a, b := "a" + Decimal(attempt) + "." + "mp4", "a" + Decimal(later) + "." + "mp4";
    JoinOfFive("media", "video", m, v, a);
    JoinOfFive("media", "video", m, v, b);
  }

  lemma JoinOfFive(a: string, b: string, c: string, d: string, e: string)
    ensures |Join([a, b, c, d, e])| == |a| + |b| + |c| + |d| + |e| + 4
  {
    assert [a, b, c, d, e][1..] == [b, c, d, e] && [b, c, d, e][1..] == [c, d, e];
    assert [c, d, e][1..] == [d, e] && [d, e][1..] == [e];
    assert Join([d, e]) == d + "/" + e && Join([c, d, e]) == c + "/" + Join([d, e]);
  }

  // From any state of any run an unfinished video can be finished, whatever lay in the store before: a worker that
  // starts late enough at an attempt whose place is free, renders and completes takes the production from wherever
  // earlier workers left it. The conditions are the settings the renderer supports and keys that fit.
  lemma AlwaysRecoverable(env: Env, run: Run, m: string, data: Bytes, durationMs: int) returns (finished: Run)
    requires EnvOk(env) && IsRun(env, run) && VideoRow(Last(run), m).Some?
    requires !VideoRow(Last(run), m).value.status.Generated?
    requires var row := VideoRow(Last(run), m).value;
      && row.renderer == "ffmpeg" && row.videoFormat == "mp4" && row.attemptCount >= 0
      && var latest := row.attemptCount + |run.states[0].world.files| + 1;
         |VideoKey(m, SCHEDULED_VERSION, latest, "mp4")| <= Video.MAX_STORAGE_KEY
    requires data != [] && durationMs >= 1
    ensures IsRun(env, finished) && run.states <= finished.states
    ensures VideoRow(Last(finished), m).Some? && VideoRow(Last(finished), m).value.status.Generated?
    ensures m in Last(finished).world.entries && Last(finished).world.entries[m].rows.media.status.Ready?
  {
    hide Apply;
    var count := VideoRow(Last(run), m).value.attemptCount;
    var attempt := FreeAttempt(run.states[0].world.files.Keys, m, count);
    LongerKey(m, attempt, count + |run.states[0].world.files| + 1);
    finished := RecoverableAt(env, run, m, attempt, data, durationMs);
  }

  lemma ClaimSucceedsIn(env: Env, run: Run, m: string, at: int) returns (source: Audio.NarrationAudio)
    requires EnvOk(env) && IsRun(env, run) && m in Last(run).world.entries
    requires Last(run).world.entries[m].rows.video.Some?
    requires var row := Last(run).world.entries[m].rows.video.value;
      && !row.status.Generated? && row.updatedAt <= at && row.attemptCount >= 0
      && (row.startedAt.Some? ==> row.startedAt.value <= at - env.timeout)
    ensures var row := Last(run).world.entries[m].rows.video.value;
      var tx := ClaimVideo(env, Last(run).world.entries[m].rows, row.attemptCount + 1, at);
      && row.mediaProductionId == m && row.videoVersion == SCHEDULED_VERSION
      && tx.Commit? && tx.value == VideoClaimed(VideoTable.ClaimedRow(row, at), source)
      && tx.rows.video == Some(VideoTable.ClaimedRow(row, at))
  {
    hide Apply;
    RunEntry(env, run, |run.steps|, m);
    source := ClaimSucceeds(env, Last(run).world, m, at);
  }

  lemma ClaimNext(env: Env, run: Run, m: string, w: nat, at: int) returns (step: Step, source: Audio.NarrationAudio)
    requires EnvOk(env) && IsRun(env, run) && w !in Last(run).workers
    requires VideoRow(Last(run), m).Some? && !VideoRow(Last(run), m).value.status.Generated?
    requires var row := VideoRow(Last(run), m).value;
      row.updatedAt <= at && row.attemptCount >= 0 && (row.startedAt.Some? ==> row.startedAt.value <= at - env.timeout)
    ensures var row := VideoRow(Last(run), m).value;
      var t' := Apply(env, Last(run), step);
      && row.mediaProductionId == m && row.videoVersion == SCHEDULED_VERSION
      && Holds(t', w, m, VideoTable.ClaimedRow(row, at), source, Claimed)
      && (MediaRow(Last(run), m).value.status.Processing? ==> MediaRow(t', m) == MediaRow(Last(run), m))
  {
    var row := VideoRow(Last(run), m).value;
    step := StartVideo(w, m, row.attemptCount + 1, at);
    source := ClaimSucceedsIn(env, run, m, at);
    StartApplies(env, Last(run), w, m, row, at, source);
    if MediaRow(Last(run), m).value.status.Processing? {
      ClaimKeepsParent(env, Last(run).world.entries[m].rows, row.attemptCount + 1, at);
    }
  }

  lemma ClaimedAgain(env: Env, run: Run, m: string, at: int)
    returns (claimed: Run, w: nat, source: Audio.NarrationAudio)
    requires EnvOk(env) && IsRun(env, run) && VideoRow(Last(run), m).Some?
    requires !VideoRow(Last(run), m).value.status.Generated?
    requires var row := VideoRow(Last(run), m).value;
      row.updatedAt <= at && row.attemptCount >= 0 && (row.startedAt.Some? ==> row.startedAt.value <= at - env.timeout)
    ensures IsRun(env, claimed) && run.states <= claimed.states
    ensures var row := VideoRow(Last(run), m).value;
      && row.mediaProductionId == m && row.videoVersion == SCHEDULED_VERSION
      && Holds(Last(claimed), w, m, VideoTable.ClaimedRow(row, at), source, Claimed)
    ensures MediaRow(Last(run), m).value.status.Processing? ==> MediaRow(Last(claimed), m) == MediaRow(Last(run), m)
  {
    hide Apply;
    w := FreshWorker(Last(run).workers);
    var step;
    step, source := ClaimNext(env, run, m, w, at);
    claimed := Extend(env, run, step);
  }

  lemma RenderedAndStored(env: Env, run: Run, w: nat, m: string, row: Video.VideoGeneration,
                          source: Audio.NarrationAudio, data: Bytes, durationMs: int)
    returns (stored: Run, artifact: Artifact)
    requires EnvOk(env) && IsRun(env, run) && Holds(Last(run), w, m, row, source, Claimed)
    requires row.renderer == "ffmpeg" && row.videoFormat == "mp4" && data != []
    requires VideoPath(m, SCHEDULED_VERSION, row.attemptCount) !in run.states[0].world.files
    ensures IsRun(env, stored) && run.states <= stored.states
    ensures Holds(Last(stored), w, m, row, source, Stored(artifact, durationMs))
    ensures MediaRow(Last(stored), m) == MediaRow(Last(run), m)
    ensures artifact.storageKey == VideoKey(row.mediaProductionId, AsNat(row.videoVersion), row.attemptCount, "mp4")
    ensures artifact.byteSize >= 1
  {
    hide Apply;
    var read, audioData := ReadOn(env, run, w, m, row, source);
    var rendered, p := RenderOn(env, read, w, m, row, source, audioData, data, durationMs);
    var checked := CheckOn(env, rendered, w, m, row, source, p);
    var written := WriteOn(env, checked, w, m, row, source, p);
    stored, artifact := LinkOn(env, written, w, m, row, source, p);
  }

  lemma Completed(env: Env, run: Run, w: nat, m: string, row: Video.VideoGeneration, source: Audio.NarrationAudio,
                  artifact: Artifact, durationMs: int) returns (finished: Run)
    requires EnvOk(env) && IsRun(env, run) && Holds(Last(run), w, m, row, source, Stored(artifact, durationMs))
    requires VideoArtifactAccepted(artifact, durationMs) && row.startedAt.Some?
    ensures IsRun(env, finished) && run.states <= finished.states
    ensures VideoRow(Last(finished), m).Some? && VideoRow(Last(finished), m).value.status.Generated?
    ensures m in Last(finished).world.entries && Last(finished).world.entries[m].rows.media.status.Ready?
  {
    hide Apply;
    ParentStarted(env, run, m);
    var media := Last(run).world.entries[m].rows.media;
    var at := Max(row.startedAt.value, media.startedAt.value);
    var read, next := ReadRowOn(env, run, w, m, row, source, artifact, durationMs, at);
    finished := WriteRowOn(env, read, w, m, row, source, next);
  }

  lemma ParentStarted(env: Env, run: Run, m: string)
    requires EnvOk(env) && IsRun(env, run) && VideoRow(Last(run), m).Some?
    requires VideoRow(Last(run), m).value.status.Generating?
    ensures m in Last(run).world.entries && Last(run).world.entries[m].rows.media.startedAt.Some?
  {
    hide Apply;
    RunEntry(env, run, |run.steps|, m);
  }
}
