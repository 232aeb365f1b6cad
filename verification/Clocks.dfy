// Runs whose steps take their timestamps from one clock that never goes back, each at any time since its worker's
// last step. In such a run no completion of an owned attempt is refused for its timestamp, and what can be claimed
// at the present time stays claimable until its row moves on.

module Clocks {
  import opened Wrappers
  import opened MediaTransactions
  import opened MediaInvariants
  import opened MediaProtocol
  import opened ProtocolInvariants
  import opened ProtocolProof
  import opened RunHistory
  import opened RowChanges
  import opened WorkerMoves
  import opened Completions
  import opened Provenance
  import opened VideoJobs
  import Media = MediaProductions
  import Audio = NarrationAudios
  import Video = VideoGenerations

  // The timestamp a step of the media pipeline takes.
  function StampOf(step: Step): Option<int> {
    match step
    case CreateMedia(_, _, _, at) => Some(at)
    case PrepareAudioJob(_, _, _, _, _, _, _, at) => Some(at)
    case PrepareVideoJob(_, _, _, _, at) => Some(at)
    case StartAudio(_, _, at) => Some(at)
    case StartVideo(_, _, _, at) => Some(at)
    case RecordAudio(_, at) => Some(at)
    case FailAudio(_, _, at) => Some(at)
    case ReadBeforeSuccess(_, at) => Some(at)
    case ReadBeforeFailure(_, _, at) => Some(at)
    case _ => None
  }

  // Whose step it is; the scheduler's steps are nobody's.
  function WorkerOf(step: Step): Option<nat> {
    if IsScheduling(step) then None else Some(step.worker)
  }

  predicate TickAt(clock: seq<int>, i: int) {
    0 <= i && i + 1 < |clock| ==> clock[i] <= clock[i + 1]
  }

  // A step may have taken its timestamp a while ago: not after the step itself, and not before the last step its
  // own worker made.
  predicate StampAt(run: Run, clock: seq<int>, i: int) {
    0 <= i < |run.steps| && i + 1 < |clock| && StampOf(run.steps[i]).Some? ==>
      && StampOf(run.steps[i]).value <= clock[i + 1]
      && forall j :: 0 <= j < i && WorkerOf(run.steps[j]).Some? && WorkerOf(run.steps[j]) == WorkerOf(run.steps[i]) ==>
           clock[j + 1] <= StampOf(run.steps[i]).value
  }

  // clock[i] is the time in state i. It never goes back.
  ghost predicate Timed(run: Run, clock: seq<int>) {
    |clock| == |run.states| && (forall i :: TickAt(clock, i)) && (forall i :: StampAt(run, clock, i))
  }

  // ---- Nothing is stamped later than the clock ----

  predicate Within(t: State, m: string, now: int) {
    && (MediaRow(t, m).Some? ==>
          MediaRow(t, m).value.updatedAt <= now
          && (MediaRow(t, m).value.startedAt.Some? ==> MediaRow(t, m).value.startedAt.value <= now))
    && (AudioRow(t, m).Some? ==> AudioRow(t, m).value.updatedAt <= now)
    && (VideoRow(t, m).Some? ==> VideoRow(t, m).value.updatedAt <= now)
  }

  // A worker about to write carries an instant of the past.
  predicate WorkerWithin(t: State, w: nat, now: int) {
    w in t.workers && AboutToWrite(t.workers[w].pc) ==> InstantOf(t.workers[w].pc) <= now
  }

  function InstantOf(pc: Pc): int
    requires AboutToWrite(pc)
  {
    if pc.Completing? then pc.completedAt else pc.failedAt
  }

  // The stamps the domain transitions leave.
  lemma VideoStamps(row: Video.VideoGeneration, key: string, size: int, sha: string, duration: int, reason: string,
                    at: int)
    ensures var r := Video.RecordGenerated(row, key, size, sha, duration, at); r.Ok? ==> r.value.updatedAt == at
    ensures var r := Video.MarkFailed(row, reason, at); r.Ok? ==> r.value.updatedAt == at
  {
  }

  lemma AudioStamps(row: Audio.NarrationAudio, key: string, size: int, sha: string, reason: string, at: int)
    ensures var r := Audio.RecordGenerated(row, key, size, sha, at); r.Ok? ==> r.value.updatedAt == at
    ensures var r := Audio.MarkFailed(row, reason, at); r.Ok? ==> r.value.updatedAt == at
  {
  }

  lemma NewStamps(id: string, m: string, version: int, a: Audio.Configuration, v: Video.Configuration, script: string,
                  at: int)
    ensures var r := Audio.NewPending(id, m, version, a, at); r.Ok? ==> r.value.updatedAt == at
    ensures var r := Video.NewPending(id, m, version, v, at); r.Ok? ==> r.value.updatedAt == at
    ensures var r := Media.NewPending(m, script, version, at);
      r.Ok? ==> r.value.updatedAt == at && r.value.startedAt.None?
  {
  }

  lemma VideoWithin(env: Env, t: State, step: Step, t': State, m: string, now: int, later: int)
    requires VideoChange(env, t, step, t', m) && Within(t, m, now) && now <= later
    requires StampOf(step).Some? ==> StampOf(step).value <= later
    requires (step.WriteSuccess? || step.WriteFailure?) ==> WorkerWithin(t, step.worker, now)
    ensures VideoRow(t', m).Some? ==> VideoRow(t', m).value.updatedAt <= later
  {
    if VideoRow(t, m).None? && step.PrepareVideoJob? && AudioRow(t, m).Some?
      && AudioRow(t, m).value.contentSha256.Some? {
      NewStamps(step.newId, m, SCHEDULED_VERSION, Audio.Configuration("", "", "", "", ""),
                RequestFor(step.settings, AudioRow(t, m).value), "", step.at);
    } else if VideoRow(t, m).Some? && (step.WriteSuccess? || step.WriteFailure?) && step.worker in t.workers {
      var pc := t.workers[step.worker].pc;
      if pc.Completing? {
        VideoStamps(VideoRow(t, m).value, pc.artifact.storageKey, pc.artifact.byteSize, pc.artifact.contentSha256,
                    pc.durationMs, "", pc.completedAt);
      } else if pc.RecordingFailure? {
        VideoStamps(VideoRow(t, m).value, "", 0, "", 0, pc.reason, pc.failedAt);
      }
    }
  }

  lemma AudioWithin(env: Env, t: State, step: Step, t': State, m: string, now: int, later: int)
    requires AudioChange(env, t, step, t', m) && Within(t, m, now) && now <= later
    requires StampOf(step).Some? ==> StampOf(step).value <= later
    ensures AudioRow(t', m).Some? ==> AudioRow(t', m).value.updatedAt <= later
  {
    if AudioRow(t, m).Some? && step.RecordAudio? && step.worker in t.workers && t.workers[step.worker].pc.Stored? {
      var a := t.workers[step.worker].pc.artifact;
      AudioStamps(AudioRow(t, m).value, a.storageKey, a.byteSize, a.contentSha256, "", step.at);
    } else if AudioRow(t, m).Some? && step.FailAudio? {
      AudioStamps(AudioRow(t, m).value, "", 0, "", step.reason, step.at);
    }
  }

  lemma ParentWithin(t: State, step: Step, t': State, m: string, now: int, later: int)
    requires ParentChange(t, step, t', m) && Within(t, m, now) && now <= later
    requires StampOf(step).Some? ==> StampOf(step).value <= later
    requires (step.WriteSuccess? || step.WriteFailure?) ==> WorkerWithin(t, step.worker, now)
    ensures MediaRow(t', m).Some? ==>
      MediaRow(t', m).value.updatedAt <= later
      && (MediaRow(t', m).value.startedAt.Some? ==> MediaRow(t', m).value.startedAt.value <= later)
  {
    if MediaRow(t, m).Some? && MediaRow(t', m).Some? && MediaRow(t', m) != MediaRow(t, m) {
      var media := MediaRow(t, m).value;
      if step.StartAudio? || step.StartVideo? { MediaStamps(media, "", step.at); }
      else if step.FailAudio? { MediaStamps(media, step.reason, step.at); }
      else if t.workers[step.worker].pc.Completing? { MediaStamps(media, "", t.workers[step.worker].pc.completedAt); }
      else { MediaStamps(media, t.workers[step.worker].pc.reason, t.workers[step.worker].pc.failedAt); }
    }
  }

  // ---- Over the run ----

  lemma {:induction false} StampsWithin(env: Env, run: Run, clock: seq<int>, i: nat, m: string)
    requires EnvOk(env) && IsRun(env, run) && Timed(run, clock) && i < |run.states|
    ensures Within(run.states[i], m, clock[i])
    decreases i, 0
  {
    hide Apply;
    if i > 0 {
      StampsWithin(env, run, clock, i - 1, m);
      var step := run.steps[i - 1];
      if step.WriteSuccess? || step.WriteFailure? { InstantsWithin(env, run, clock, i - 1, step.worker); }
      StepWithin(env, run, clock, i - 1, m);
    }
  }

  lemma StepWithin(env: Env, run: Run, clock: seq<int>, i: nat, m: string)
    requires EnvOk(env) && IsRun(env, run) && Timed(run, clock) && i < |run.steps| && Within(run.states[i], m, clock[i])
    requires run.steps[i].WriteSuccess? || run.steps[i].WriteFailure? ==>
      WorkerWithin(run.states[i], run.steps[i].worker, clock[i])
    ensures Within(run.states[i + 1], m, clock[i + 1])
  {
    hide Apply;
    assert TickAt(clock, i) && StampAt(run, clock, i);
    var t, step, t' := run.states[i], run.steps[i], run.states[i + 1];
    RunChanges(env, run, i, m);
    RunParentChanges(env, run, i, m);
    VideoWithin(env, t, step, t', m, clock[i], clock[i + 1]);
    AudioWithin(env, t, step, t', m, clock[i], clock[i + 1]);
    ParentWithin(t, step, t', m, clock[i], clock[i + 1]);
  }

  lemma {:induction false} InstantsWithin(env: Env, run: Run, clock: seq<int>, i: nat, w: nat)
    requires IsRun(env, run) && Timed(run, clock) && i < |run.states|
    ensures WorkerWithin(run.states[i], w, clock[i])
  {
    hide Apply;
    if i > 0 && w in run.states[i].workers && AboutToWrite(run.states[i].workers[w].pc) {
      assert TickAt(clock, i - 1) && StampAt(run, clock, i - 1);
      InstantsWithin(env, run, clock, i - 1, w);
      if w !in run.states[i - 1].workers || run.states[i - 1].workers[w] != run.states[i].workers[w] {
        RunNewlyAboutToWrite(env, run, i - 1, w);
      }
    }
  }

  lemma RunNewlyAboutToWrite(env: Env, run: Run, i: nat, w: nat)
    requires IsRun(env, run) && i < |run.steps|
    requires w in run.states[i + 1].workers && AboutToWrite(run.states[i + 1].workers[w].pc)
    requires w !in run.states[i].workers || run.states[i].workers[w] != run.states[i + 1].workers[w]
    ensures StampOf(run.steps[i]) == Some(InstantOf(run.states[i + 1].workers[w].pc))
    ensures run.states[i + 1].world == run.states[i].world
  {
    assert StepAt(env, run, i);
    NewlyAboutToWrite(env, run.states[i], run.steps[i], w);
  }

  // ---- Since the claim ----

  // A worker appears by its own claim, whose row it remembers for good.
  ghost predicate ClaimedAt(run: Run, c: nat, w: nat, task: Task) {
    && c < |run.steps| && |run.states| == |run.steps| + 1 && WorkerOf(run.steps[c]) == Some(w)
    && HoldsClaim(run.states[c + 1], w, task)
  }

  predicate HoldsClaim(t: State, w: nat, task: Task) {
    && w in t.workers && t.workers[w].task == task
    && if task.VideoTask? then VideoRow(t, t.workers[w].media) == Some(task.video)
       else AudioRow(t, t.workers[w].media) == Some(task.row)
  }

  lemma {:induction false} ClaimOf(env: Env, run: Run, i: nat, w: nat) returns (c: nat)
    requires IsRun(env, run) && i < |run.states| && w in run.states[i].workers
    ensures c < i && ClaimedAt(run, c, w, run.states[i].workers[w].task)
    ensures run.states[c + 1].workers[w].media == run.states[i].workers[w].media
  {
    hide Apply;
    if w in run.states[i - 1].workers {
      RunKeepsTask(env, run, i - 1, w);
      c := ClaimOf(env, run, i - 1, w);
    } else {
      c := i - 1;
      RunAppears(env, run, c, w);
    }
  }

  lemma RunAppears(env: Env, run: Run, i: nat, w: nat)
    requires IsRun(env, run) && i < |run.steps| && w !in run.states[i].workers && w in run.states[i + 1].workers
    ensures ClaimedAt(run, i, w, run.states[i + 1].workers[w].task)
  {
    assert StepAt(env, run, i);
    Appears(env, run.states[i], run.steps[i], w);
  }

  lemma Appears(env: Env, t: State, step: Step, w: nat)
    requires w !in t.workers && w in Apply(env, t, step).workers
    ensures WorkerOf(step) == Some(w) && HoldsClaim(Apply(env, t, step), w, Apply(env, t, step).workers[w].task)
  {
    if step.StartAudio? {
      AudioAppears(env, t, step.worker, step.media, step.at, w);
    } else if step.StartVideo? {
      VideoAppears(env, t, step.worker, step.media, step.expected, step.at, w);
    } else if !IsScheduling(step) && step.worker in t.workers {
      NobodyAppears(env, t, step.worker, step);
    }
  }

  lemma AudioAppears(env: Env, t: State, v: nat, m: string, at: int, w: nat)
    requires w !in t.workers && w in DoStartAudio(env, t, v, m, at).workers
    ensures var t' := DoStartAudio(env, t, v, m, at); v == w && HoldsClaim(t', w, t'.workers[w].task)
  {
  }

  lemma VideoAppears(env: Env, t: State, v: nat, m: string, expected: nat, at: int, w: nat)
    requires w !in t.workers && w in DoStartVideo(env, t, v, m, expected, at).workers
    ensures var t' := DoStartVideo(env, t, v, m, expected, at); v == w && HoldsClaim(t', w, t'.workers[w].task)
  {
  }

  // What an attempt of w started with is no later than any instant w takes after its claim.
  lemma StartsInPast(env: Env, run: Run, clock: seq<int>, i: nat, w: nat, at: int)
    requires EnvOk(env) && IsRun(env, run) && Timed(run, clock) && i < |run.steps|
    requires StampOf(run.steps[i]) == Some(at) && WorkerOf(run.steps[i]) == Some(w) && w in run.states[i].workers
    requires var m := run.states[i].workers[w].media;
      OwnsVideo(run.states[i], w, m) || OwnsAudio(run.states[i], w, m)
    ensures var k := run.states[i].workers[w];
      && (k.task.VideoTask? ==> Started(k.task.video.startedAt, at))
      && (k.task.AudioTask? ==> Started(k.task.row.startedAt, at))
      && MediaRow(run.states[i], k.media).Some? && Started(MediaRow(run.states[i], k.media).value.startedAt, at)
  {
    hide Apply;
    var c := ClaimOf(env, run, i, w);
    var m := run.states[i].workers[w].media;
    assert StampAt(run, clock, i);
    assert clock[c + 1] <= at;
    StampsWithin(env, run, clock, c + 1, m);
    RunEntry(env, run, c + 1, m);
    RunningStamp(env, run.states[c + 1].world, m);
    ParentStartKept(env, run, c + 1, i, m);
  }

  // ---- What the clock guarantees ----

  // A narration claim raises only when the row is missing.
  lemma NarrationClaimNeverLate(env: Env, run: Run, clock: seq<int>, i: nat, m: string, at: int)
    requires EnvOk(env) && IsRun(env, run) && Timed(run, clock) && i < |run.states| && m in run.states[i].world.entries
    requires clock[i] <= at
    ensures var tx := ClaimAudio(env, ScriptOf(run.states[i].world, m), run.states[i].world.entries[m].rows, at);
      tx.Abort? <==> AudioRow(run.states[i], m).None?
  {
    hide Apply;
    StampsWithin(env, run, clock, i, m);
    AudioClaimOutcome(env, run, i, m, at);
  }

  // An owner's video success is recorded exactly when its artifact is a real one under a key that fits.
  lemma VideoSuccessOnTime(env: Env, run: Run, clock: seq<int>, i: nat, j: nat, w: nat, at: int)
    requires EnvOk(env) && IsRun(env, run) && Timed(run, clock) && i < j < |run.steps|
    requires run.steps[i] == ReadBeforeSuccess(w, at) && run.steps[j] == WriteSuccess(w)
    requires w in run.states[i].workers && run.states[i].workers[w].pc.Stored?
    requires run.states[i].workers[w].task.VideoTask?
    requires OwnsVideo(run.states[i], w, run.states[i].workers[w].media)
    requires w in run.states[i + 1].workers && w in run.states[j].workers
    requires run.states[j].workers[w] == run.states[i + 1].workers[w]
    requires OwnsVideo(run.states[j], w, run.states[i].workers[w].media)
    ensures var k := run.states[i].workers[w];
      && VideoRow(run.states[j + 1], k.media).Some?
      && (VideoRow(run.states[j + 1], k.media).value.status.Generated?
          <==> VideoArtifactAccepted(k.pc.artifact, k.pc.durationMs))
  {
    hide Apply;
    StartsInPast(env, run, clock, i, w, at);
    VideoSuccessReadIff(env, run, i, w, at);
    VideoSuccessIff(env, run, i, j, w, at);
  }

  lemma RunningStamp(env: Env, g: World, m: string)
    requires EntryOk(env, g, m) && m in g.entries
    ensures VideoIs(g.entries[m].rows, Video.Generating) ==>
      g.entries[m].rows.video.value.startedAt == Some(g.entries[m].rows.video.value.updatedAt)
    ensures AudioIs(g.entries[m].rows, Audio.Generating) ==>
      g.entries[m].rows.audio.value.startedAt == Some(g.entries[m].rows.audio.value.updatedAt)
    ensures g.entries[m].rows.media.status.Processing? ==> g.entries[m].rows.media.startedAt.Some?
    ensures VideoIs(g.entries[m].rows, Video.Generating) || AudioIs(g.entries[m].rows, Audio.Generating) ==>
      g.entries[m].rows.media.status.Processing?
  {
  }

  // An owner's video failure is recorded exactly when its reason is a text the record can hold.
  lemma VideoFailureOnTime(env: Env, run: Run, clock: seq<int>, i: nat, j: nat, w: nat, reason: string, at: int)
    requires EnvOk(env) && IsRun(env, run) && Timed(run, clock) && i < j < |run.steps|
    requires run.steps[i] == ReadBeforeFailure(w, reason, at) && run.steps[j] == WriteFailure(w)
    requires w in run.states[i].workers && run.states[i].workers[w].pc.Failing?
    requires run.states[i].workers[w].task.VideoTask?
    requires OwnsVideo(run.states[i], w, run.states[i].workers[w].media)
    requires w in run.states[i + 1].workers && w in run.states[j].workers
    requires run.states[j].workers[w] == run.states[i + 1].workers[w]
    requires OwnsVideo(run.states[j], w, run.states[i].workers[w].media)
    ensures var k := run.states[i].workers[w];
      && VideoRow(run.states[j + 1], k.media).Some?
      && (VideoRow(run.states[j + 1], k.media).value.status.Failed? <==> ReasonAccepted(reason))
  {
    hide Apply;
    StartsInPast(env, run, clock, i, w, at);
    VideoFailureReadIff(env, run, i, w, reason, at);
    VideoFailureIff(env, run, i, j, w, reason, at);
  }

  lemma NarrationSuccessOnTime(env: Env, run: Run, clock: seq<int>, i: nat, w: nat, at: int)
    requires EnvOk(env) && IsRun(env, run) && Timed(run, clock) && i < |run.steps| && run.steps[i] == RecordAudio(w, at)
    requires w in run.states[i].workers && run.states[i].workers[w].pc.Stored?
    requires run.states[i].workers[w].task.AudioTask?
    requires OwnsAudio(run.states[i], w, run.states[i].workers[w].media)
    ensures var k := run.states[i].workers[w];
      && AudioRow(run.states[i + 1], k.media).Some?
      && (AudioRow(run.states[i + 1], k.media).value.status.Generated? <==> AudioArtifactAccepted(k.pc.artifact))
  {
    hide Apply;
    StartsInPast(env, run, clock, i, w, at);
    NarrationSuccessIff(env, run, i, w, at);
  }

  lemma NarrationFailureOnTime(env: Env, run: Run, clock: seq<int>, i: nat, w: nat, reason: string, at: int)
    requires EnvOk(env) && IsRun(env, run) && Timed(run, clock) && i < |run.steps|
    requires run.steps[i] == FailAudio(w, reason, at)
    requires w in run.states[i].workers && run.states[i].workers[w].pc.Failing?
    requires run.states[i].workers[w].task.AudioTask?
    requires OwnsAudio(run.states[i], w, run.states[i].workers[w].media)
    ensures var k := run.states[i].workers[w];
      && AudioRow(run.states[i + 1], k.media).Some?
      && (AudioRow(run.states[i + 1], k.media).value.status.Failed? <==> ReasonAccepted(reason))
  {
    hide Apply;
    StartsInPast(env, run, clock, i, w, at);
    NarrationFailureIff(env, run, i, w, reason, at);
  }

  // A prepared job can be claimed at any later time exactly while the row still counts the attempt before it and
  // is not generated.
  lemma JobClaimableOnTime(env: Env, run: Run, clock: seq<int>, i: nat, j: nat, m: string, newId: string,
                           settings: RenderSettings, preparedAt: int, job: Job, at: int)
    requires EnvOk(env) && IsRun(env, run) && Timed(run, clock) && i < j < |run.states| && clock[j] <= at
    requires run.steps[i] == PrepareVideoJob(m, newId, settings, preparedAt - env.timeout, preparedAt)
    requires m in run.states[i].world.entries
    requires var tx := PrepareVideo(run.states[i].world.entries[m].rows, newId, settings, preparedAt - env.timeout,
                                    preparedAt);
      tx.Commit? && tx.value == Some(job)
    ensures VideoRow(run.states[j], m).Some?
    ensures var row := VideoRow(run.states[j], m).value;
      Claims(env, run.states[j].world.entries[m].rows, job.nextAttempt, at) <==>
        row.attemptCount == job.nextAttempt - 1 && !row.status.Generated?
  {
    hide Apply;
    assert StampAt(run, clock, i);
    ClockGrows(run, clock, i + 1, j);
    StampsWithin(env, run, clock, j, m);
    JobClaimableIff(env, run, i, j, m, newId, settings, preparedAt, job, at);
  }

  lemma {:induction false} ClockGrows(run: Run, clock: seq<int>, i: nat, j: nat)
    requires Timed(run, clock) && |run.states| == |run.steps| + 1 && i <= j < |clock|
    ensures clock[i] <= clock[j]
    decreases j
  {
    if i < j {
      ClockGrows(run, clock, i, j - 1);
      assert TickAt(clock, j - 1);
    }
  }
}
