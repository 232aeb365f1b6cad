// The scheduler's batch inside the protocol: one run of the batch transaction is a stretch of preparation steps,
// one for each candidate of the scan.

module BatchSteps {
  import opened Wrappers
  import opened MediaTransactions
  import opened MediaProtocol
  import opened ProtocolProof
  import opened VideoScheduling

  // The rows of every production in a state of the protocol.
  function ProductionsOf(g: World): Productions {
    map m | m in g.entries :: g.entries[m].rows
  }

  function StepFor(c: Candidate, newId: string, settings: RenderSettings, staleBefore: int, preparedAt: int): Step {
    PrepareVideoJob(c.media, newId, settings, staleBefore, preparedAt)
  }

  // Step i of the run prepares candidate c and hands out this job.
  predicate PreparesAt(run: Run, i: nat, c: Candidate, newId: string, settings: RenderSettings, staleBefore: int,
                       preparedAt: int, job: Job)
  {
    && i < |run.steps| && i < |run.states| && run.steps[i] == StepFor(c, newId, settings, staleBefore, preparedAt)
    && c.media in run.states[i].world.entries
    && var tx := PrepareVideo(run.states[i].world.entries[c.media].rows, newId, settings, staleBefore, preparedAt);
       tx.Commit? && tx.value == Some(job)
  }

  // The run goes on from `start` with one preparation step for each candidate, in order.
  predicate Prepares(start: Run, run: Run, candidates: seq<Candidate>, newIds: seq<string>,
                           settings: RenderSettings, staleBefore: int, preparedAt: int, jobs: seq<Job>)
  {
    && start.states <= run.states && start.steps <= run.steps
    && |jobs| == |candidates| <= |newIds| && |run.steps| == |start.steps| + |candidates|
    && forall k :: 0 <= k < |candidates| ==>
         PreparesAt(run, |start.steps| + k, candidates[k], newIds[k], settings, staleBefore, preparedAt, jobs[k])
  }

  // ---- One candidate ----

  lemma StepPrepares(env: Env, t: State, c: Candidate, newId: string, settings: RenderSettings, staleBefore: int,
                     preparedAt: int)
    requires c.media in t.world.entries
    requires PrepareVideo(t.world.entries[c.media].rows, newId, settings, staleBefore, preparedAt).Commit?
    ensures var tx := PrepareVideo(t.world.entries[c.media].rows, newId, settings, staleBefore, preparedAt);
      Apply(env, t, StepFor(c, newId, settings, staleBefore, preparedAt))
      == t.(world := WithRows(t.world, c.media, tx.rows))
  {
  }

  lemma TablesWithRows(g: World, m: string, rows: Rows)
    requires m in g.entries
    ensures ProductionsOf(WithRows(g, m, rows)) == ProductionsOf(g)[m := rows]
  {
  }

  lemma PrepareOn(env: Env, run: Run, c: Candidate, newId: string, settings: RenderSettings, staleBefore: int,
                  preparedAt: int)
    returns (next: Run)
    requires EnvOk(env) && IsRun(env, run) && c.media in Last(run).world.entries
    requires PrepareVideo(Last(run).world.entries[c.media].rows, newId, settings, staleBefore, preparedAt).Commit?
    ensures var tx := PrepareVideo(Last(run).world.entries[c.media].rows, newId, settings, staleBefore, preparedAt);
      && IsRun(env, next) && run.states <= next.states
      && next.steps == run.steps + [StepFor(c, newId, settings, staleBefore, preparedAt)]
      && Last(next) == Last(run).(world := WithRows(Last(run).world, c.media, tx.rows))
  {
    hide Apply;
    StepPrepares(env, Last(run), c, newId, settings, staleBefore, preparedAt);
    next := Extend(env, run, StepFor(c, newId, settings, staleBefore, preparedAt));
  }

  // ---- The whole batch ----

  // What a run did at its first steps, a longer one does there too.
  lemma PreparesStays(run: Run, next: Run, i: nat, c: Candidate, newId: string, settings: RenderSettings,
                      staleBefore: int, preparedAt: int, job: Job)
    requires PreparesAt(run, i, c, newId, settings, staleBefore, preparedAt, job)
    requires run.states <= next.states && run.steps <= next.steps
    ensures PreparesAt(next, i, c, newId, settings, staleBefore, preparedAt, job)
  {
  }

  lemma PreparesOneMore(start: Run, run: Run, next: Run, candidates: seq<Candidate>, newIds: seq<string>,
                        settings: RenderSettings, staleBefore: int, preparedAt: int, jobs: seq<Job>)
    requires |next.states| == |next.steps| + 1
    requires 0 < |candidates| == |jobs| <= |newIds|
    requires var last := |candidates| - 1;
      && Prepares(start, run, candidates[..last], newIds, settings, staleBefore, preparedAt, jobs[..last])
      && PreparesAt(next, |run.steps|, candidates[last], newIds[last], settings, staleBefore, preparedAt, jobs[last])
    requires run.states <= next.states && |next.steps| == |run.steps| + 1 && run.steps <= next.steps
    ensures Prepares(start, next, candidates, newIds, settings, staleBefore, preparedAt, jobs)
  {
    var last := |candidates| - 1;
    forall k | 0 <= k < |candidates|
      ensures PreparesAt(next, |start.steps| + k, candidates[k], newIds[k], settings, staleBefore, preparedAt, jobs[k])
    {
      if k < last {
        assert candidates[..last][k] == candidates[k] && jobs[..last][k] == jobs[k];
        PreparesStays(run, next, |start.steps| + k, candidates[k], newIds[k], settings, staleBefore, preparedAt,
                      jobs[k]);
      }
    }
  }

  lemma NothingPrepared(start: Run, newIds: seq<string>, settings: RenderSettings, staleBefore: int, preparedAt: int)
    requires |start.states| == |start.steps| + 1
    ensures Prepares(start, start, [], newIds, settings, staleBefore, preparedAt, [])
  {
  }

  // A batch that succeeds is a stretch of preparation steps: it hands out the same jobs and leaves the same rows.
  lemma {:induction false} BatchRuns(env: Env, start: Run, productions: Productions, staleBefore: int,
                                     candidates: seq<Candidate>, newIds: seq<string>, settings: RenderSettings,
                                     preparedAt: int) returns (run: Run)
    requires EnvOk(env) && IsRun(env, start) && productions == ProductionsOf(Last(start).world)
    requires |candidates| <= |newIds|
    requires IsBatch(productions, staleBefore, candidates)
    requires PrepareAll(productions, candidates, newIds, settings, preparedAt).Ok?
    ensures var all := PrepareAll(productions, candidates, newIds, settings, preparedAt).value;
      && IsRun(env, run) && Prepares(start, run, candidates, newIds, settings, staleBefore, preparedAt, all.1)
      && ProductionsOf(Last(run).world) == all.0
  {
    hide Apply;
    if candidates == [] {
      NothingPrepared(start, newIds, settings, staleBefore, preparedAt);
      run := start;
    } else {
      var last := |candidates| - 1;
      LastOfBatch(productions, staleBefore, candidates, newIds, settings, preparedAt);
      var before := BatchRuns(env, start, productions, staleBefore, candidates[..last], newIds, settings, preparedAt);
      var all := PrepareAll(productions, candidates[..last], newIds, settings, preparedAt).value;
      run := LastCandidate(env, start, before, productions, all.0, all.1, staleBefore, candidates, newIds, settings,
                           preparedAt);
    }
  }

  lemma LastCandidate(env: Env, start: Run, before: Run, productions: Productions, now: Productions, jobs: seq<Job>,
                      staleBefore: int, candidates: seq<Candidate>, newIds: seq<string>, settings: RenderSettings,
                      preparedAt: int)
    returns (run: Run)
    requires EnvOk(env) && 0 < |candidates| <= |newIds| && IsRun(env, before)
    requires var last := |candidates| - 1;
      var c := candidates[last];
      && Prepares(start, before, candidates[..last], newIds, settings, staleBefore, preparedAt, jobs)
      && Proper(productions, staleBefore, c) && c.media in now && now[c.media] == productions[c.media]
      && PrepareNext(now, jobs, c, newIds[last], settings, preparedAt).Ok?
    requires now == ProductionsOf(Last(before).world)
    ensures var last := |candidates| - 1;
      var next := PrepareNext(now, jobs, candidates[last], newIds[last], settings, preparedAt).value;
      && IsRun(env, run) && Prepares(start, run, candidates, newIds, settings, staleBefore, preparedAt, next.1)
      && ProductionsOf(Last(run).world) == next.0
  {
    hide Apply;
    var last := |candidates| - 1;
    var c, newId := candidates[last], newIds[last];
    NextIsOwn(productions, now, jobs, staleBefore, c, newId, settings, preparedAt);
    var tx := PrepareVideo(Last(before).world.entries[c.media].rows, newId, settings, staleBefore, preparedAt);
    run := PrepareOn(env, before, c, newId, settings, staleBefore, preparedAt);
    TablesWithRows(Last(before).world, c.media, tx.rows);
    PreparesOneMore(start, before, run, candidates, newIds, settings, staleBefore, preparedAt, jobs + [tx.value.value]);
  }

  // ---- From the scan to the jobs ----

  lemma RowsNameTheirMedia(env: Env, run: Run, i: nat, m: string)
    requires EnvOk(env) && IsRun(env, run) && i < |run.states|
    ensures var productions := ProductionsOf(run.states[i].world);
      m in productions && productions[m].audio.Some? ==>
        productions[m].audio.value.mediaProductionId == m
          && productions[m].audio.value.audioVersion == SCHEDULED_VERSION
  {
    hide Apply;
    RunEntry(env, run, i, m);
  }

  // From any state of any run the scheduler's transaction amounts to preparation steps, or to nothing: a batch that
  // succeeds prepares the candidates of its scan one by one, and its jobs are what those steps hand out.
  lemma BatchIsSteps(env: Env, start: Run, scan: seq<string>, limit: nat, newIds: seq<string>, settings: RenderSettings,
                     staleBefore: int, preparedAt: int) returns (run: Run)
    requires EnvOk(env) && IsRun(env, start) && limit <= |newIds|
    requires InQueryOrder(ProductionsOf(Last(start).world), scan)
    requires var productions := ProductionsOf(Last(start).world);
      PrepareAll(productions, Scanned(productions, scan, staleBefore, limit), newIds, settings, preparedAt).Ok?
    ensures var productions := ProductionsOf(Last(start).world);
      var candidates := Scanned(productions, scan, staleBefore, limit);
      var all := PrepareAll(productions, candidates, newIds, settings, preparedAt).value;
      && IsRun(env, run) && Prepares(start, run, candidates, newIds, settings, staleBefore, preparedAt, all.1)
      && ProductionsOf(Last(run).world) == all.0
  {
    hide Apply;
    var productions := ProductionsOf(Last(start).world);
    forall m | m in productions && productions[m].audio.Some?
      ensures productions[m].audio.value.mediaProductionId == m
      ensures productions[m].audio.value.audioVersion == SCHEDULED_VERSION
    {
      RowsNameTheirMedia(env, start, |start.steps|, m);
    }
    ScanIsProper(productions, scan, staleBefore, limit);
    run := BatchRuns(env, start, productions, staleBefore, Scanned(productions, scan, staleBefore, limit), newIds,
                     settings, preparedAt);
  }
}
