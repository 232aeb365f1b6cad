// The canonical audio of a production is decided once, by whichever file reaches the store first.

module CanonicalAudio {
  import opened Wrappers
  import opened StorageKeys
  import opened FileStorage
  import opened MediaTransactions
  import opened MediaProtocol
  import opened ProtocolInvariants
  import opened ProtocolProof
  import opened WorkerMoves

  // The artifact an audio worker holds, once it has stored or found one.
  predicate HoldsArtifact(k: Worker, a: Artifact) {
    k.task.AudioTask? && ((k.pc.Stored? && k.pc.artifact == a) || k.pc == Done(Generated(a)))
  }

  lemma SameKey(env: Env, g: World, k: Worker, l: Worker)
    requires WorkerOk(env, g, k) && WorkerOk(env, g, l) && k.task.AudioTask? && l.task.AudioTask? && k.media == l.media
    ensures KeyOf(k) == KeyOf(l)
  {
  }

  lemma HeldIsStored(env: Env, g: World, k: Worker, a: Artifact)
    requires WorkerOk(env, g, k) && HoldsArtifact(k, a)
    ensures TargetForKey(KeyOf(k)).Ok? && TargetForKey(KeyOf(k)).value in g.files
    ensures a == ArtifactOf(env.digest, KeyOf(k), g.files[TargetForKey(KeyOf(k)).value])
  {
  }

  // At any two moments of a run, any two audio workers of a production that hold an artifact hold the same
  // one: whoever succeeds reports the same key, size and hash.
  lemma OneCanonicalAudio(env: Env, run: Run, i: nat, j: nat, w: nat, v: nat, a: Artifact, b: Artifact)
    requires EnvOk(env) && IsRun(env, run) && i <= j < |run.states|
    requires w in run.states[i].workers && v in run.states[j].workers
    requires var k, l := run.states[i].workers[w], run.states[j].workers[v];
      k.media == l.media && HoldsArtifact(k, a) && HoldsArtifact(l, b)
    ensures a == b
  {
    hide Apply;
    RunWorker(env, run, i, w);
    RunWorker(env, run, j, v);
    RunWorldEvolves(env, run, i, j);
    var g, g' := run.states[i].world, run.states[j].world;
    var k, l := run.states[i].workers[w], run.states[j].workers[v];
    WorkerStands(env, g, g', k);
    SameKey(env, g', k, l);
    HeldIsStored(env, g', k, a);
    HeldIsStored(env, g', l, b);
  }

  // ---- A lookup after the file's appearance ----

  // An audio worker whose key names the target, where a file lies.
  predicate Finds(files: Files, k: Worker, key: string, target: Path) {
    k.task.AudioTask? && KeyOf(k) == key && target in files
  }

  // Once the file is there, an attempt that has not looked yet can only find it, fail on it, or stop.
  predicate WithoutSynthesis(k: Worker) {
    k.pc.Claimed? || k.pc.Stored? || k.pc.Failing? || k.pc.Done?
  }

  lemma WorkWithoutSynthesis(env: Env, s: State, w: nat, step: Step, key: string, target: Path)
    requires w in s.workers && TargetForKey(key) == Ok(target)
    requires Finds(s.world.files, s.workers[w], key, target) && WithoutSynthesis(s.workers[w])
    ensures var k := Work(env, s, w, step).workers[w]; k.task == s.workers[w].task && WithoutSynthesis(k)
  {
    if s.workers[w].media in s.world.entries { MovedWithoutSynthesis(env, s.world, s.workers[w], step, key, target); }
  }

  lemma MovedWithoutSynthesis(env: Env, g: World, k: Worker, step: Step, key: string, target: Path)
    requires k.media in g.entries && TargetForKey(key) == Ok(target)
    requires Finds(g.files, k, key, target) && WithoutSynthesis(k)
    ensures WithoutSynthesis(k.(pc := Moved(env, g, k, step)))
  {
  }

  lemma FilesPersist(env: Env, t: State, step: Step)
    requires EnvOk(env) && Inv(env, t)
    ensures Preserves(t.world.files, Apply(env, t, step).world.files)
  {
    StepKeeps(env, t, step);
  }

  lemma StepWithoutSynthesis(env: Env, t: State, w: nat, step: Step, key: string, target: Path)
    requires EnvOk(env) && Inv(env, t) && w in t.workers && TargetForKey(key) == Ok(target)
    requires Finds(t.world.files, t.workers[w], key, target) && WithoutSynthesis(t.workers[w])
    ensures var t' := Apply(env, t, step);
      w in t'.workers && Finds(t'.world.files, t'.workers[w], key, target) && WithoutSynthesis(t'.workers[w])
  {
    hide Apply;
    FilesPersist(env, t, step);
    if IsScheduling(step) || step.StartAudio? || step.StartVideo? || step.worker != w {
      OnlyOwnSteps(env, t, w, step);
    } else {
      OwnStep(env, t, w, step);
      WorkWithoutSynthesis(env, t, w, step, key, target);
    }
  }

  // An audio attempt that has not looked by the time the canonical file exists never calls the synthesiser.
  lemma {:induction false} NeverSynthesizes(env: Env, run: Run, i: nat, j: nat, w: nat, key: string, target: Path)
    requires EnvOk(env) && IsRun(env, run) && i <= j < |run.states| && w in run.states[i].workers
    requires TargetForKey(key) == Ok(target)
    requires Finds(run.states[i].world.files, run.states[i].workers[w], key, target)
    requires WithoutSynthesis(run.states[i].workers[w])
    ensures w in run.states[j].workers
    ensures Finds(run.states[j].world.files, run.states[j].workers[w], key, target)
    ensures WithoutSynthesis(run.states[j].workers[w])
    decreases j
  {
    hide Apply;
    if i < j {
      NeverSynthesizes(env, run, i, j - 1, w, key, target);
      RunStepWithoutSynthesis(env, run, j - 1, w, key, target);
    }
  }

  lemma RunStepWithoutSynthesis(env: Env, run: Run, i: nat, w: nat, key: string, target: Path)
    requires EnvOk(env) && IsRun(env, run) && i < |run.steps| && w in run.states[i].workers
    requires TargetForKey(key) == Ok(target)
    requires Finds(run.states[i].world.files, run.states[i].workers[w], key, target)
    requires WithoutSynthesis(run.states[i].workers[w])
    ensures w in run.states[i + 1].workers
    ensures Finds(run.states[i + 1].world.files, run.states[i + 1].workers[w], key, target)
    ensures WithoutSynthesis(run.states[i + 1].workers[w])
  {
    RunKeeps(env, run, i);
    assert StepAt(env, run, i);
    StepWithoutSynthesis(env, run.states[i], w, run.steps[i], key, target);
  }

  // ---- The loser of the link race ----

  // A worker whose link failed against other content, and what can become of it.
  predicate Lost(env: Env, k: Worker, found: Bytes) {
    || (k.pc.Rechecking? && env.digest(found) != env.digest(k.pc.payload.data))
    || k.pc == Failing(Storage(Conflict))
    || (k.pc.Done? && (k.pc.outcome == FailureRecorded(Storage(Conflict)) || k.pc.outcome.AttemptSuperseded?
                       || k.pc.outcome.Raised? || k.pc.outcome.Crashed?))
  }

  lemma WorkAfterLoss(env: Env, s: State, w: nat, step: Step, key: string, target: Path)
    requires w in s.workers && TargetForKey(key) == Ok(target)
    requires Finds(s.world.files, s.workers[w], key, target) && Lost(env, s.workers[w], s.world.files[target])
    ensures var k := Work(env, s, w, step).workers[w];
      k.task == s.workers[w].task && Lost(env, k, s.world.files[target])
  {
    if s.workers[w].media in s.world.entries && !s.workers[w].pc.Done? {
      MovedAfterLoss(env, s.world, s.workers[w], step, key, target);
    }
  }

  lemma MovedAfterLoss(env: Env, g: World, k: Worker, step: Step, key: string, target: Path)
    requires k.media in g.entries && TargetForKey(key) == Ok(target) && !k.pc.Done?
    requires Finds(g.files, k, key, target) && Lost(env, k, g.files[target])
    ensures Lost(env, k.(pc := Moved(env, g, k, step)), g.files[target])
  {
  }

  lemma StepAfterLoss(env: Env, t: State, w: nat, step: Step, key: string, target: Path)
    requires EnvOk(env) && Inv(env, t) && w in t.workers && TargetForKey(key) == Ok(target)
    requires Finds(t.world.files, t.workers[w], key, target) && Lost(env, t.workers[w], t.world.files[target])
    ensures var t' := Apply(env, t, step);
      && w in t'.workers && Finds(t'.world.files, t'.workers[w], key, target)
      && t'.world.files[target] == t.world.files[target] && Lost(env, t'.workers[w], t.world.files[target])
  {
    hide Apply;
    FilesPersist(env, t, step);
    if IsScheduling(step) || step.StartAudio? || step.StartVideo? || step.worker != w {
      OnlyOwnSteps(env, t, w, step);
    } else {
      OwnStep(env, t, w, step);
      WorkAfterLoss(env, t, w, step, key, target);
    }
  }

  // It can only record the conflict, find itself superseded, or stop; it never reports success, its own or
  // another's.
  lemma {:induction false} LoserNeverSucceeds(env: Env, run: Run, i: nat, j: nat, w: nat, key: string, target: Path)
    requires EnvOk(env) && IsRun(env, run) && i <= j < |run.states| && w in run.states[i].workers
    requires TargetForKey(key) == Ok(target) && Finds(run.states[i].world.files, run.states[i].workers[w], key, target)
    requires Lost(env, run.states[i].workers[w], run.states[i].world.files[target])
    ensures w in run.states[j].workers && Finds(run.states[j].world.files, run.states[j].workers[w], key, target)
    ensures Lost(env, run.states[j].workers[w], run.states[j].world.files[target])
    decreases j
  {
    hide Apply;
    if i < j {
      LoserNeverSucceeds(env, run, i, j - 1, w, key, target);
      RunStepAfterLoss(env, run, j - 1, w, key, target);
    }
  }

  lemma RunStepAfterLoss(env: Env, run: Run, i: nat, w: nat, key: string, target: Path)
    requires EnvOk(env) && IsRun(env, run) && i < |run.steps| && w in run.states[i].workers
    requires TargetForKey(key) == Ok(target) && Finds(run.states[i].world.files, run.states[i].workers[w], key, target)
    requires Lost(env, run.states[i].workers[w], run.states[i].world.files[target])
    ensures w in run.states[i + 1].workers
    ensures Finds(run.states[i + 1].world.files, run.states[i + 1].workers[w], key, target)
    ensures Lost(env, run.states[i + 1].workers[w], run.states[i + 1].world.files[target])
  {
    RunKeeps(env, run, i);
    assert StepAt(env, run, i);
    StepAfterLoss(env, run.states[i], w, run.steps[i], key, target);
  }
}
