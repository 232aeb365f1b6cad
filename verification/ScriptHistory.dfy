// The script rows over whole runs, and the attempt numbers a run explains. The worker does not compare attempt numbers
// when it records a script, so there is no fencing to state.

module ScriptHistory {
  import opened Wrappers
  import opened MediaTransactions
  import opened MediaProtocol
  import opened ProtocolProof
  import opened ScriptRows
  import NewsGate
  import Script = ScriptGenerations

  // ---- Over a run ----

  // The one timeout the script workers are configured with.
  predicate ClaimsAfter(run: Run, timeout: int) {
    forall i :: 0 <= i < |run.steps| && run.steps[i].ChangeNews? && run.steps[i].news.ClaimScript? ==>
      run.steps[i].news.timeout == timeout
  }

  function ScriptRow(s: State, g: string): Option<Script.ScriptGeneration> {
    RowOf(s.world.news, g)
  }

  // Only the stages' own steps touch their records.
  lemma NewsAlone(env: Env, s: State, step: Step)
    requires !step.ChangeNews?
    ensures Apply(env, s, step).world.news == s.world.news
  {
    if !IsScheduling(step) && !step.StartAudio? && !step.StartVideo? && step.worker in s.workers {
      WorkLeavesNews(env, s, step.worker, step);
    }
  }

  lemma WorkLeavesNews(env: Env, s: State, w: nat, step: Step)
    requires w in s.workers
    ensures Work(env, s, w, step).world.news == s.world.news
  {
  }

  lemma NewsStep(env: Env, s: State, step: Step)
    requires step.ChangeNews?
    ensures Apply(env, s, step).world.news == NewsGate.Apply(s.world.news, step.news)
  {
  }

  lemma RunScript(env: Env, run: Run, i: nat, g: string)
    requires EnvOk(env) && IsRun(env, run) && i < |run.steps|
    ensures var n, n' := run.states[i].world.news, run.states[i + 1].world.news;
      if run.steps[i].ChangeNews? then ScriptChange(n, run.steps[i].news, n', g) else n' == n
  {
    hide Apply;
    RunWorld(env, run, i);
    assert StepAt(env, run, i);
    if run.steps[i].ChangeNews? {
      NewsStep(env, run.states[i], run.steps[i]);
      StageChange(run.states[i].world.news, run.steps[i].news, g);
    } else {
      NewsAlone(env, run.states[i], run.steps[i]);
    }
  }

  predicate ScriptClaimedFrom(s: State, s': State, g: string, status: Script.Status) {
    && ScriptRow(s, g).Some? && ScriptRow(s', g).Some? && ScriptRow(s, g).value.status == status
    && ScriptRow(s, g).value.attemptCount < ScriptRow(s', g).value.attemptCount
  }

  // How many of the first i steps of the run claimed the script from the given status.
  function ScriptClaims(run: Run, i: nat, g: string, status: Script.Status): nat
    requires i < |run.states|
  {
    if i == 0 then 0
    else ScriptClaims(run, i - 1, g, status)
         + if ScriptClaimedFrom(run.states[i - 1], run.states[i], g, status) then 1 else 0
  }

  predicate NeverStarted(s: State, g: string) {
    ScriptRow(s, g).None? || ScriptRow(s, g).value.startedAt.None?
  }

  // The stamp of the first claim; 0 before there is one.
  function FirstScriptStart(run: Run, i: nat, g: string): int
    requires i < |run.states|
  {
    if NeverStarted(run.states[i], g) || i == 0 then 0
    else if NeverStarted(run.states[i - 1], g) then ScriptRow(run.states[i], g).value.startedAt.value
    else FirstScriptStart(run, i - 1, g)
  }

  // What a row owes to its history; a started row was last written no earlier than it started.
  predicate Accounted(row: Option<Script.ScriptGeneration>, first: int, restarts: nat, takeovers: nat, timeout: int) {
    if row.None? || row.value.startedAt.None? then
      restarts == 0 && takeovers == 0 && (row.Some? ==> row.value.attemptCount == 0 && row.value.status.Pending?)
    else
      && row.value.attemptCount == 1 + restarts + takeovers && !row.value.status.Pending?
      && takeovers * timeout <= row.value.startedAt.value - first
      && row.value.startedAt.value <= row.value.updatedAt
  }

  lemma OneMoreTakeover(takeovers: nat, timeout: int)
    ensures (takeovers + 1) * timeout == takeovers * timeout + timeout
  {
  }

  lemma {:induction false} ScriptAccounted(env: Env, run: Run, timeout: int, i: nat, g: string)
    requires EnvOk(env) && IsRun(env, run) && ClaimsAfter(run, timeout) && i < |run.states|
    ensures Accounted(ScriptRow(run.states[i], g), FirstScriptStart(run, i, g),
                      ScriptClaims(run, i, g, Script.Failed), ScriptClaims(run, i, g, Script.Generating), timeout)
  {
    hide Apply;
    if i > 0 {
      ScriptAccounted(env, run, timeout, i - 1, g);
      RunScript(env, run, i - 1, g);
      OneMoreTakeover(ScriptClaims(run, i - 1, g, Script.Generating), timeout);
    }
  }

  // In every state of every run a script that was ever started counts one first claim, one attempt for every recorded
  // failure that was restarted and one for every takeover; and every takeover waited out the timeout, so takeovers
  // times the timeout fits between the first start and the last.
  lemma ScriptAttempts(env: Env, run: Run, timeout: int, i: nat, g: string)
    requires EnvOk(env) && IsRun(env, run) && ClaimsAfter(run, timeout) && i < |run.states|
    requires ScriptRow(run.states[i], g).Some? && ScriptRow(run.states[i], g).value.startedAt.Some?
    ensures var row, takeovers := ScriptRow(run.states[i], g).value, ScriptClaims(run, i, g, Script.Generating);
      && row.attemptCount == 1 + ScriptClaims(run, i, g, Script.Failed) + takeovers
      && takeovers * timeout <= row.startedAt.value - FirstScriptStart(run, i, g)
  {
    hide Apply;
    ScriptAccounted(env, run, timeout, i, g);
  }
}
