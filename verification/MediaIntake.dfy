// Which scripts get a media production, and that none gets two of one version.

module MediaIntake {
  import opened Wrappers
  import opened Text
  import opened StorageKeys
  import opened MediaTransactions
  import opened MediaInvariants
  import opened MediaProtocol
  import opened ProtocolInvariants
  import opened ProtocolProof
  import opened RowChanges
  import Media = MediaProductions
  import Script = ScriptGenerations
  import NewsGate

  // A production of the same script and version is there already.
  predicate HasProduction(g: World, scriptId: string, mediaVersion: int) {
    exists m :: m in g.entries && g.entries[m].rows.media.scriptGenerationId == scriptId
                && g.entries[m].rows.media.mediaVersion == mediaVersion
  }

  lemma GeneratedIsEligible(script: Script.ScriptGeneration)
    requires Script.Valid(script)
    ensures IntakeEligible(script) <==> script.status == Script.Generated && script.closing.Some?
  {
    StripEach(script);
    if script.status.Generated? && script.closing.Some? {
      var texts := [script.hook, script.mainNarration, script.projectGComment, script.closing, script.fullNarration];
      forall t | t in texts ensures t.Some? && Strip(t.value) != "" {
        var k :| 0 <= k < |texts| && texts[k] == t;
      }
    } else if script.closing.None? {
      assert script.closing in [script.hook, script.mainNarration, script.projectGComment, script.closing,
                                script.fullNarration];
    }
  }

  lemma StripEach(script: Script.ScriptGeneration)
    ensures forall t: Option<string> :: Script.IsNormal(t) && t.Some? ==> Strip(t.value) != ""
  {
    forall t: Option<string> | Script.IsNormal(t) && t.Some? ensures Strip(t.value) != "" { StripIsNormal(t.value); }
  }

  lemma IntakeOf(env: Env, t: State, m: string, scriptId: string, mediaVersion: int, at: int)
    requires WorldOk(env, t.world) && m !in t.world.entries
    ensures var g := t.world;
      var g' := DoCreateMedia(g, m, scriptId, mediaVersion, at);
      if IsUuid(m) && mediaVersion >= 1 && scriptId in g.news.scripts
         && g.news.scripts[scriptId].status == Script.Generated && g.news.scripts[scriptId].closing.Some?
         && !HasProduction(g, scriptId, mediaVersion)
      then g' == g.(entries := g.entries[m := Entry(Rows(NewMedia(m, scriptId, mediaVersion, at), None, None),
                                                    NO_ATTEMPTS, NO_ATTEMPTS)])
      else g' == g
  {
    if scriptId in t.world.news.scripts {
      assert NewsGate.ScriptOk(t.world.news, scriptId);
      GeneratedIsEligible(t.world.news.scripts[scriptId]);
    }
    Media.NewPendingSpec(m, scriptId, mediaVersion, at);
  }

  function NewMedia(m: string, scriptId: string, mediaVersion: int, at: int): Media.MediaProduction {
    Media.MediaProduction(m, scriptId, mediaVersion, Media.Pending, 0, None, at, None, None, at)
  }

  // In any state of any run a fresh id gets a production exactly for a GENERATED script that has a closing, and for
  // which there is no production of that version yet.
  lemma CreatedIff(env: Env, run: Run, i: nat, m: string, scriptId: string, mediaVersion: int, at: int)
    requires EnvOk(env) && IsRun(env, run) && i < |run.steps|
    requires run.steps[i] == CreateMedia(m, scriptId, mediaVersion, at) && m !in run.states[i].world.entries
    ensures var g, g' := run.states[i].world, run.states[i + 1].world;
      if IsUuid(m) && mediaVersion >= 1 && scriptId in g.news.scripts
         && g.news.scripts[scriptId].status == Script.Generated && g.news.scripts[scriptId].closing.Some?
         && !HasProduction(g, scriptId, mediaVersion)
      then g' == g.(entries := g.entries[m := Entry(Rows(NewMedia(m, scriptId, mediaVersion, at), None, None),
                                                    NO_ATTEMPTS, NO_ATTEMPTS)])
      else g' == g
  {
    hide Apply;
    RunWorld(env, run, i);
    assert StepAt(env, run, i);
    CreateStep(env, run.states[i], m, scriptId, mediaVersion, at);
    IntakeOf(env, run.states[i], m, scriptId, mediaVersion, at);
  }

  lemma CreateStep(env: Env, t: State, m: string, scriptId: string, mediaVersion: int, at: int)
    ensures Apply(env, t, CreateMedia(m, scriptId, mediaVersion, at))
      == t.(world := DoCreateMedia(t.world, m, scriptId, mediaVersion, at))
  {
  }

  // ---- One production for each script and version ----

  predicate SameScript(t: State, m: string, n: string) {
    && MediaRow(t, m).Some? && MediaRow(t, n).Some?
    && MediaRow(t, m).value.scriptGenerationId == MediaRow(t, n).value.scriptGenerationId
    && MediaRow(t, m).value.mediaVersion == MediaRow(t, n).value.mediaVersion
  }

  // A parent keeps its script and version.
  lemma ParentKeepsScript(t: State, step: Step, t': State, m: string)
    requires ParentChange(t, step, t', m) && MediaRow(t, m).Some? && MediaRow(t', m).Some?
    ensures MediaRow(t', m).value.scriptGenerationId == MediaRow(t, m).value.scriptGenerationId
    ensures MediaRow(t', m).value.mediaVersion == MediaRow(t, m).value.mediaVersion
  {
  }

  lemma {:induction false} OneProductionEach(env: Env, run: Run, i: nat, m: string, n: string)
    requires EnvOk(env) && IsRun(env, run) && i < |run.states| && SameScript(run.states[i], m, n)
    ensures m == n
  {
    hide Apply;
    if i > 0 {
      OneStepBack(env, run, i - 1, m, n);
      if SameScript(run.states[i - 1], m, n) { OneProductionEach(env, run, i - 1, m, n); }
    }
  }

  lemma OneStepBack(env: Env, run: Run, i: nat, m: string, n: string)
    requires EnvOk(env) && IsRun(env, run) && i < |run.steps| && SameScript(run.states[i + 1], m, n)
    ensures m == n || SameScript(run.states[i], m, n)
  {
    hide Apply;
    var t, t', step := run.states[i], run.states[i + 1], run.steps[i];
    RunParentChanges(env, run, i, m);
    RunParentChanges(env, run, i, n);
    if MediaRow(t, m).Some? { ParentKeepsScript(t, step, t', m); }
    if MediaRow(t, n).Some? { ParentKeepsScript(t, step, t', n); }
    if MediaRow(t, m).None? { CreatedIff(env, run, i, m, step.scriptId, step.mediaVersion, step.at); }
    if MediaRow(t, n).None? { CreatedIff(env, run, i, n, step.scriptId, step.mediaVersion, step.at); }
  }
}
