// When a batch succeeds, and what its jobs are good for: what holds of a prepared job holds of every job of a
// batch.

module BatchJobs {
  import opened Wrappers
  import opened Text
  import opened MediaTransactions
  import opened MediaProtocol
  import opened ProtocolInvariants
  import opened ProtocolProof
  import opened RunHistory
  import opened VideoScheduling
  import opened VideoJobs
  import opened Clocks
  import opened BatchSteps
  import Video = VideoGenerations

  predicate SettingsUsable(settings: RenderSettings) {
    && NormalizeRequired(settings.renderer, Video.MAX_RENDERER).Ok?
    && NormalizeRequired(settings.videoFormat, Video.MAX_FORMAT).Ok?
    && settings.width >= 1 && settings.height >= 1 && settings.fps >= 1
  }

  lemma NewRowIff(env: Env, g: World, m: string, newId: string, settings: RenderSettings, staleBefore: int, at: int)
    requires EntryOk(env, g, m) && m in g.entries
    ensures var rows := g.entries[m].rows;
      VideoEligible(rows, staleBefore) && rows.video.None? ==>
        (PrepareVideo(rows, newId, settings, staleBefore, at).Abort? <==> !SettingsUsable(settings))
  {
    var rows := g.entries[m].rows;
    if VideoEligible(rows, staleBefore) {
      Video.NewPendingIff(newId, rows.media.mediaProductionId, SCHEDULED_VERSION,
                          RequestFor(settings, rows.audio.value), at);
    }
  }

  // As long as the scheduler keeps its settings, a preparation fails exactly when it has to add a row with settings
  // no record accepts.
  lemma PreparationFailsIff(env: Env, run: Run, i: nat, m: string, newId: string, settings: RenderSettings,
                            staleBefore: int, at: int)
    requires EnvOk(env) && IsRun(env, run) && i < |run.states| && UsesSettings(run.steps, settings)
    requires m in run.states[i].world.entries
    ensures var rows := run.states[i].world.entries[m].rows;
      PrepareVideo(rows, newId, settings, staleBefore, at).Abort? <==>
        VideoEligible(rows, staleBefore) && rows.video.None? && !SettingsUsable(settings)
  {
    hide Apply;
    ReprepareNeverMismatches(env, run, i, m, settings, newId, staleBefore, at);
    RunEntry(env, run, i, m);
    NewRowIff(env, run.states[i].world, m, newId, settings, staleBefore, at);
  }

  // So one production never blocks the batch of another: a batch of any state of the run succeeds unless the
  // settings are unusable and a candidate still lacks its row.
  lemma BatchSucceedsIff(env: Env, run: Run, i: nat, productions: Productions, candidates: seq<Candidate>,
                         newIds: seq<string>, settings: RenderSettings, staleBefore: int, preparedAt: int)
    requires EnvOk(env) && IsRun(env, run) && i < |run.states| && UsesSettings(run.steps, settings)
    requires productions == ProductionsOf(run.states[i].world) && |candidates| <= |newIds|
    requires IsBatch(productions, staleBefore, candidates)
    ensures PrepareAll(productions, candidates, newIds, settings, preparedAt).Ok? <==>
      SettingsUsable(settings) || forall k :: 0 <= k < |candidates| ==> productions[candidates[k].media].video.Some?
  {
    hide Apply;
    forall k | 0 <= k < |candidates|
      ensures Own(productions, staleBefore, candidates[k], newIds[k], settings, preparedAt).Abort?
        <==> productions[candidates[k].media].video.None? && !SettingsUsable(settings)
    {
      PreparationFailsIff(env, run, i, candidates[k].media, newIds[k], settings, staleBefore, preparedAt);
    }
    BatchSpec(productions, staleBefore, candidates, newIds, settings, preparedAt);
  }

  // Every job of a batch stays claimable as long as its row does not move on and the clock is not behind it.
  lemma BatchJobClaimableIff(env: Env, start: Run, run: Run, later: Run, candidates: seq<Candidate>,
                             newIds: seq<string>, settings: RenderSettings, preparedAt: int, jobs: seq<Job>, k: nat,
                             j: nat, at: int)
    requires EnvOk(env)
    requires Prepares(start, run, candidates, newIds, settings, preparedAt - env.timeout, preparedAt, jobs)
    requires IsRun(env, later) && run.states <= later.states && run.steps <= later.steps
    requires k < |candidates| && |run.steps| <= j < |later.states| && preparedAt <= at
    ensures VideoRow(later.states[j], candidates[k].media).Some?
    ensures var row := VideoRow(later.states[j], candidates[k].media).value;
      Claims(env, later.states[j].world.entries[candidates[k].media].rows, jobs[k].nextAttempt, at) <==>
        row.attemptCount == jobs[k].nextAttempt - 1 && !row.status.Generated? && row.updatedAt <= at
  {
    hide Apply;
    assert PreparesAt(run, |start.steps| + k, candidates[k], newIds[k], settings, preparedAt - env.timeout, preparedAt,
                      jobs[k]);
    JobClaimableIff(env, later, |start.steps| + k, j, candidates[k].media, newIds[k], settings, preparedAt, jobs[k],
                    at);
  }

  // Under one clock, exactly as long as its row does not move on.
  lemma BatchJobClaimableOnTime(env: Env, start: Run, run: Run, later: Run, clock: seq<int>, candidates: seq<Candidate>,
                                newIds: seq<string>, settings: RenderSettings, preparedAt: int, jobs: seq<Job>, k: nat,
                                j: nat, at: int)
    requires EnvOk(env)
    requires Prepares(start, run, candidates, newIds, settings, preparedAt - env.timeout, preparedAt, jobs)
    requires IsRun(env, later) && run.states <= later.states && run.steps <= later.steps && Timed(later, clock)
    requires k < |candidates| && |run.steps| <= j < |later.states| && clock[j] <= at
    ensures VideoRow(later.states[j], candidates[k].media).Some?
    ensures var row := VideoRow(later.states[j], candidates[k].media).value;
      Claims(env, later.states[j].world.entries[candidates[k].media].rows, jobs[k].nextAttempt, at) <==>
        row.attemptCount == jobs[k].nextAttempt - 1 && !row.status.Generated?
  {
    hide Apply;
    assert PreparesAt(run, |start.steps| + k, candidates[k], newIds[k], settings, preparedAt - env.timeout, preparedAt,
                      jobs[k]);
    JobClaimableOnTime(env, later, clock, |start.steps| + k, j, candidates[k].media, newIds[k], settings, preparedAt,
                       jobs[k], at);
  }
}
