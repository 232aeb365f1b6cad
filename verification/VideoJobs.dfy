// What a scheduled video job is good for, over the rest of the run.

module VideoJobs {
  import opened Wrappers
  import opened MediaTransactions
  import opened MediaProtocol
  import opened ProtocolInvariants
  import opened ProtocolProof
  import opened RunHistory
  import opened RowChanges
  import opened ProtocolTheorems
  import opened Provenance
  import Video = VideoGenerations
  import VideoTable = VideoRepository

  // ---- When a job can still be claimed ----

  predicate Claims(env: Env, rows: Rows, attempt: int, at: int) {
    var tx := ClaimVideo(env, rows, attempt, at);
    tx.Commit? && tx.value.VideoClaimed?
  }

  // From the row a job was prepared for to any later value of it: the job can be claimed exactly while nobody
  // has claimed its attempt and the row is not generated.
  lemma LaterRowClaimable(prepared: Video.VideoGeneration, now: Video.VideoGeneration, timeout: int, preparedAt: int,
                          at: int)
    requires Video.Valid(prepared) && Video.Valid(now) && VideoTable.Evolves(prepared, now) && preparedAt <= at
    requires prepared.status.Pending? || prepared.status.Failed? || StaleVideo(prepared, preparedAt - timeout)
    ensures VideoTable.Claimable(now, at, Some(at - timeout), Some(prepared.attemptCount + 1)) && !now.status.Generated?
      <==> now.attemptCount == prepared.attemptCount && !now.status.Generated? && now.updatedAt <= at
  {
  }

  // A job prepared in a run can be claimed at any later point with its own attempt number, exactly as long as
  // the row still counts the attempt before and is not generated, and the clock is not behind the row.
  lemma JobClaimableIff(env: Env, run: Run, i: nat, j: nat, m: string, newId: string, settings: RenderSettings,
                        preparedAt: int, job: Job, at: int)
    requires EnvOk(env) && IsRun(env, run) && i < j < |run.states| && preparedAt <= at
    requires run.steps[i] == PrepareVideoJob(m, newId, settings, preparedAt - env.timeout, preparedAt)
    requires m in run.states[i].world.entries
    requires var tx := PrepareVideo(run.states[i].world.entries[m].rows, newId, settings, preparedAt - env.timeout,
                                    preparedAt);
      tx.Commit? && tx.value == Some(job)
    ensures VideoRow(run.states[j], m).Some?
    ensures var row := VideoRow(run.states[j], m).value;
      Claims(env, run.states[j].world.entries[m].rows, job.nextAttempt, at) <==>
        row.attemptCount == job.nextAttempt - 1 && !row.status.Generated? && row.updatedAt <= at
  {
    hide Apply;
    JobRow(env, run, i, m, newId, settings, preparedAt);
    LaterClaimable(env, run, i + 1, j, m, preparedAt, at);
  }

  lemma JobRow(env: Env, run: Run, i: nat, m: string, newId: string, settings: RenderSettings, preparedAt: int)
    requires IsRun(env, run) && i < |run.steps| && m in run.states[i].world.entries
    requires run.steps[i] == PrepareVideoJob(m, newId, settings, preparedAt - env.timeout, preparedAt)
    requires var tx := PrepareVideo(run.states[i].world.entries[m].rows, newId, settings, preparedAt - env.timeout,
                                    preparedAt);
      tx.Commit? && tx.value.Some?
    ensures var tx := PrepareVideo(run.states[i].world.entries[m].rows, newId, settings, preparedAt - env.timeout,
                                   preparedAt);
      && VideoRow(run.states[i + 1], m).Some?
      && tx.value.value.nextAttempt == VideoRow(run.states[i + 1], m).value.attemptCount + 1
      && Restartable(VideoRow(run.states[i + 1], m).value, preparedAt - env.timeout)
  {
    assert StepAt(env, run, i);
    PreparedRow(env, run.states[i], m, newId, settings, preparedAt);
  }

  lemma LaterClaimable(env: Env, run: Run, i: nat, j: nat, m: string, preparedAt: int, at: int)
    requires EnvOk(env) && IsRun(env, run) && i <= j < |run.states| && preparedAt <= at
    requires VideoRow(run.states[i], m).Some? && Restartable(VideoRow(run.states[i], m).value, preparedAt - env.timeout)
    ensures VideoRow(run.states[j], m).Some?
    ensures var prepared, row := VideoRow(run.states[i], m).value, VideoRow(run.states[j], m).value;
      Claims(env, run.states[j].world.entries[m].rows, prepared.attemptCount + 1, at) <==>
        row.attemptCount == prepared.attemptCount && !row.status.Generated? && row.updatedAt <= at
  {
    hide Apply;
    RunEntry(env, run, i, m);
    RunEntry(env, run, j, m);
    RunEntryEvolves(env, run, i, j, m);
    JobRowClaimable(env, run.states[i].world, run.states[j].world, m, preparedAt, at);
  }

  // The row a job names right after its preparation.
  lemma PreparedRow(env: Env, t: State, m: string, newId: string, settings: RenderSettings, preparedAt: int)
    requires m in t.world.entries
    requires var tx := PrepareVideo(t.world.entries[m].rows, newId, settings, preparedAt - env.timeout, preparedAt);
      tx.Commit? && tx.value.Some?
    ensures var tx := PrepareVideo(t.world.entries[m].rows, newId, settings, preparedAt - env.timeout, preparedAt);
      var u := Apply(env, t, PrepareVideoJob(m, newId, settings, preparedAt - env.timeout, preparedAt));
      && VideoRow(u, m).Some? && tx.value.value.nextAttempt == VideoRow(u, m).value.attemptCount + 1
      && Restartable(VideoRow(u, m).value, preparedAt - env.timeout)
  {
    var rows := t.world.entries[m].rows;
    if rows.audio.Some? && rows.audio.value.contentSha256.Some? {
      Video.NewPendingSpec(newId, rows.media.mediaProductionId, SCHEDULED_VERSION,
                           RequestFor(settings, rows.audio.value), preparedAt);
    }
  }

  predicate Restartable(video: Video.VideoGeneration, staleBefore: int) {
    video.status.Pending? || video.status.Failed? || StaleVideo(video, staleBefore)
  }

  lemma JobRowClaimable(env: Env, g: World, g': World, m: string, preparedAt: int, at: int)
    requires EnvOk(env) && EntryOk(env, g, m) && EntryOk(env, g', m) && EntryEvolves(g, g', m) && preparedAt <= at
    requires m in g.entries && g.entries[m].rows.video.Some?
    requires Restartable(g.entries[m].rows.video.value, preparedAt - env.timeout)
    ensures m in g'.entries && g'.entries[m].rows.video.Some?
    ensures var prepared, now := g.entries[m].rows.video.value, g'.entries[m].rows.video.value;
      Claims(env, g'.entries[m].rows, prepared.attemptCount + 1, at) <==>
        now.attemptCount == prepared.attemptCount && !now.status.Generated? && now.updatedAt <= at
  {
    var prepared, now := g.entries[m].rows.video.value, g'.entries[m].rows.video.value;
    VideoClaimOf(env, g', m, prepared.attemptCount + 1, at);
    LaterRowClaimable(prepared, now, env.timeout, preparedAt, at);
  }

  // ---- One winner ----

  // When several workers hold the same job, the first whose claim succeeds keeps it for ever: no other worker
  // ever has that claim, and every later try with that attempt number changes nothing.
  lemma OneWinner(env: Env, run: Run, i: nat, j: nat, m: string, attempt: nat, w: nat, at: int, v: nat, later: int)
    requires EnvOk(env) && IsRun(env, run) && i < j < |run.states|
    requires run.steps[i] == StartVideo(w, m, attempt, at) && w !in run.states[i].workers
    requires m in run.states[i].world.entries && Claims(env, run.states[i].world.entries[m].rows, attempt, at)
    ensures var t := run.states[j];
      && w in t.workers && t.workers[w].media == m && t.workers[w].attempt == attempt && t.workers[w].task.VideoTask?
      && (v in t.workers && SameClaim(t.workers[w], t.workers[v]) ==> v == w)
      && Apply(env, t, StartVideo(v, m, attempt, later)) == t
  {
    assert StepAt(env, run, i);
    StartedWorker(env, run.states[i], w, m, attempt, at);
    ClaimsAreKept(env, run, i + 1, j, w);
    var t := run.states[j];
    RunWorker(env, run, j, w);
    if v in t.workers && SameClaim(t.workers[w], t.workers[v]) { ClaimsAreUnique(env, run, j, w, v); }
    AttemptWithinCount(env, t.world, t.workers[w]);
    LateStart(env, t, v, m, attempt, later);
  }

  lemma StartedWorker(env: Env, t: State, w: nat, m: string, attempt: nat, at: int)
    requires w !in t.workers && m in t.world.entries && Claims(env, t.world.entries[m].rows, attempt, at)
    ensures var workers := Apply(env, t, StartVideo(w, m, attempt, at)).workers;
      w in workers && workers[w].media == m && workers[w].attempt == attempt && workers[w].task.VideoTask?
  {
  }

  lemma LateStart(env: Env, t: State, v: nat, m: string, attempt: nat, at: int)
    requires m in t.world.entries && t.world.entries[m].rows.video.Some?
    requires attempt <= t.world.entries[m].rows.video.value.attemptCount
    ensures Apply(env, t, StartVideo(v, m, attempt, at)) == t
  {
  }

  // ---- Preparing again ----

  predicate UsesSettings(steps: seq<Step>, settings: RenderSettings) {
    forall i :: 0 <= i < |steps| && steps[i].PrepareVideoJob? ==> steps[i].settings == settings
  }

  // The stored configuration is the requested one.
  predicate Configured(t: State, m: string, settings: RenderSettings) {
    VideoRow(t, m).Some? ==>
      && AudioRow(t, m).Some? && AudioRow(t, m).value.contentSha256.Some?
      && SameRequest(VideoRow(t, m).value, RequestFor(settings, AudioRow(t, m).value))
  }

  lemma NewRowConfigured(id: string, m: string, c: Video.Configuration, at: int)
    requires Video.NewPending(id, m, SCHEDULED_VERSION, c, at).Ok?
    ensures SameRequest(Video.NewPending(id, m, SCHEDULED_VERSION, c, at).value, c)
  {
  }

  lemma StaysConfigured(env: Env, t: State, t': State, m: string, settings: RenderSettings)
    requires EntryOk(env, t.world, m) && EntryEvolves(t.world, t'.world, m) && VideoRow(t, m).Some?
    requires Configured(t, m, settings)
    ensures Configured(t', m, settings)
  {
  }

  lemma StepConfigured(env: Env, t: State, step: Step, m: string, settings: RenderSettings)
    requires EnvOk(env) && Inv(env, t) && Configured(t, m, settings)
    requires step.PrepareVideoJob? ==> step.settings == settings
    ensures Configured(Apply(env, t, step), m, settings)
  {
    var t' := Apply(env, t, step);
    StepKeeps(env, t, step);
    assert EntryOk(env, t.world, m) && EntryEvolves(t.world, t'.world, m);
    if VideoRow(t, m).Some? {
      StaysConfigured(env, t, t', m, settings);
    } else if VideoRow(t', m).Some? {
      StepChanges(env, t, step, m);
      NewRowConfigured(step.newId, m, RequestFor(settings, AudioRow(t, m).value), step.at);
      NewRowAudio(env, t, step, m);
    }
  }

  // The step that adds a video leaves its audio alone.
  lemma NewRowAudio(env: Env, t: State, step: Step, m: string)
    requires EnvOk(env) && Inv(env, t) && step.PrepareVideoJob? && step.media == m
    requires VideoRow(t, m).None? && VideoRow(Apply(env, t, step), m).Some?
    ensures AudioRow(Apply(env, t, step), m) == AudioRow(t, m)
  {
    ScheduledNewChild(env, t.world, step, m);
  }

  lemma {:induction false} RunConfigured(env: Env, run: Run, i: nat, m: string, settings: RenderSettings)
    requires EnvOk(env) && IsRun(env, run) && i < |run.states| && UsesSettings(run.steps, settings)
    ensures Configured(run.states[i], m, settings)
  {
    hide Apply;
    if i > 0 {
      RunConfigured(env, run, i - 1, m, settings);
      RunStepConfigured(env, run, i - 1, m, settings);
    }
  }

  lemma RunStepConfigured(env: Env, run: Run, i: nat, m: string, settings: RenderSettings)
    requires EnvOk(env) && IsRun(env, run) && i < |run.steps| && UsesSettings(run.steps, settings)
    requires Configured(run.states[i], m, settings)
    ensures Configured(run.states[i + 1], m, settings)
  {
    RunKeeps(env, run, i);
    assert StepAt(env, run, i);
    StepConfigured(env, run.states[i], run.steps[i], m, settings);
  }

  // As long as the scheduler keeps its settings, preparing again never meets a configuration mismatch.
  lemma ReprepareNeverMismatches(env: Env, run: Run, i: nat, m: string, settings: RenderSettings, newId: string,
                                 staleBefore: int, at: int)
    requires EnvOk(env) && IsRun(env, run) && i < |run.states| && UsesSettings(run.steps, settings)
    requires m in run.states[i].world.entries
    ensures PrepareVideo(run.states[i].world.entries[m].rows, newId, settings, staleBefore,
                         at) != Abort(ConfigurationMismatch)
  {
    hide Apply;
    RunConfigured(env, run, i, m, settings);
  }
}
