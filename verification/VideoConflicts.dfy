// When a video worker meets a storage conflict: exactly when it checks a place where other content lay before the
// run.

module VideoConflicts {
  import opened StorageKeys
  import opened FileStorage
  import opened MediaTransactions
  import opened MediaProtocol
  import opened ProtocolInvariants
  import opened ProtocolProof
  import opened Provenance
  import opened WorkerMoves

  function PlaceOf(k: Worker): Path {
    VideoPath(k.media, SCHEDULED_VERSION, k.attempt)
  }

  // ---- The check ----

  lemma CheckedSpec(env: Env, g: World, k: Worker)
    requires EntryOk(env, g, k.media) && WorkerOk(env, g, k) && k.task.VideoTask? && k.pc.Checking?
    ensures Checked(env, g.files, k, k.pc.payload) == CheckedBy(env, g.files, k)
  {
    VideoTarget(env, g, k);
  }

  // What a video worker's check finds in these files.
  function CheckedBy(env: Env, files: Files, k: Worker): Pc
    requires k.pc.Checking?
  {
    var p := k.pc.payload;
    if p.data == [] then Failing(Storage(EmptyData))
    else if PlaceOf(k) !in files then Writing(p, [])
    else if env.digest(files[PlaceOf(k)]) != env.digest(p.data) then Failing(Storage(Conflict))
    else Stored(ArtifactOf(env.digest, KeyOf(k), files[PlaceOf(k)]), p.durationMs)
  }

  lemma CheckStep(env: Env, s: State, w: nat)
    requires w in s.workers && s.workers[w].pc.Checking? && s.workers[w].media in s.world.entries
    ensures Apply(env, s, CheckTarget(w))
      == At(s, w, Checked(env, s.world.files, s.workers[w], s.workers[w].pc.payload))
  {
  }

  lemma RunTargetFree(env: Env, run: Run, i: nat, w: nat)
    requires EnvOk(env) && IsRun(env, run) && i < |run.states|
    ensures TargetFree(run.states[i], w)
  {
    hide Apply;
    RunKeeps(env, run, i);
  }

  // A video worker that has not linked finds at its place what was there before the run, and nothing else.
  lemma PlaceAsBefore(env: Env, run: Run, i: nat, w: nat)
    requires EnvOk(env) && IsRun(env, run) && i < |run.states| && w in run.states[i].workers
    requires BeforeLink(run.states[i].workers[w])
    ensures var path, before, now := PlaceOf(run.states[i].workers[w]), run.states[0].world.files,
    run.states[i].world.files;
      (path in now <==> path in before) && (path in before ==> now[path] == before[path])
  {
    hide Apply;
    var k := run.states[i].workers[w];
    RunTargetFree(env, run, i, w);
    RunWorldEvolves(env, run, 0, i);
    if PlaceOf(k) !in run.states[0].world.files { NotForeign(env, run, i, k.media, k.attempt); }
  }

  lemma RunChecks(env: Env, run: Run, i: nat, w: nat)
    requires IsRun(env, run) && i < |run.steps| && run.steps[i] == CheckTarget(w)
    requires w in run.states[i].workers && run.states[i].workers[w].media in run.states[i].world.entries
    requires run.states[i].workers[w].pc.Checking?
    ensures var k, files := run.states[i].workers[w], run.states[i].world.files;
      run.states[i + 1] == At(run.states[i], w, Checked(env, files, k, k.pc.payload))
  {
    assert StepAt(env, run, i);
    CheckStep(env, run.states[i], w);
  }

  // The outcome of the check depends on the files before the run alone, whatever happened since.
  lemma CheckOutcome(env: Env, run: Run, i: nat, w: nat)
    requires EnvOk(env) && IsRun(env, run) && i < |run.steps| && run.steps[i] == CheckTarget(w)
    requires w in run.states[i].workers && run.states[i].workers[w].task.VideoTask?
    requires run.states[i].workers[w].pc.Checking?
    ensures w in run.states[i + 1].workers
    ensures run.states[i + 1].workers[w].pc == CheckedBy(env, run.states[0].world.files, run.states[i].workers[w])
  {
    hide Apply;
    RunWorker(env, run, i, w);
    PlaceAsBefore(env, run, i, w);
    CheckedSpec(env, run.states[i].world, run.states[i].workers[w]);
    RunChecks(env, run, i, w);
  }

  // ---- The only way to a conflict ----

  const CONFLICT := Failing(Storage(Conflict))

  // No other step of a video worker ends in a conflict.
  lemma OnlyChecksConflict(env: Env, g: World, k: Worker, step: Step)
    requires k.media in g.entries && WorkerOk(env, g, k) && k.task.VideoTask? && k.pc != CONFLICT
    requires !k.pc.Checking? || !step.CheckTarget?
    ensures Moved(env, g, k, step) != CONFLICT
  {
    if !k.pc.Checking? && !k.pc.Writing? && !k.pc.Rechecking? { FilmingWithoutConflict(env, g, k, step); }
  }

  lemma FilmingWithoutConflict(env: Env, g: World, k: Worker, step: Step)
    requires k.media in g.entries && k.task.VideoTask? && k.pc != CONFLICT
    ensures Filming(env, g, k, step) != CONFLICT
  {
    if k.pc.Claimed? { SourceWithoutConflict(env, g.files, k); }
  }

  lemma SourceWithoutConflict(env: Env, files: Files, k: Worker)
    requires k.task.VideoTask?
    ensures SourceRead(env, files, k) != CONFLICT
  {
  }

  lemma WorkWithoutConflict(env: Env, s: State, w: nat, step: Step)
    requires w in s.workers && s.workers[w].media in s.world.entries && s.workers[w].task.VideoTask?
    requires EntryOk(env, s.world, s.workers[w].media) && WorkerOk(env, s.world, s.workers[w]) && TargetFree(s, w)
    requires s.workers[w].pc != CONFLICT && (!s.workers[w].pc.Checking? || !step.CheckTarget?)
    ensures w in Work(env, s, w, step).workers && Work(env, s, w, step).workers[w].pc != CONFLICT
  {
    var k := s.workers[w];
    if k.pc.Linking? && step.LinkTarget? {
      VideoLinkSpec(env, s, w);
    } else if !k.pc.Done? && Settles(k, step) {
      SettledStops(s, w, step);
    } else if !k.pc.Done? {
      OnlyChecksConflict(env, s.world, k, step);
    }
  }

  lemma SettledStops(s: State, w: nat, step: Step)
    requires w in s.workers && s.workers[w].media in s.world.entries && Settles(s.workers[w], step)
    ensures w in Settle(s, w, step).workers && Settle(s, w, step).workers[w].pc.Done?
  {
  }

  lemma StepWithoutConflict(env: Env, s: State, w: nat, step: Step)
    requires Inv(env, s) && w in s.workers && s.workers[w].task.VideoTask? && s.workers[w].pc != CONFLICT
    requires !s.workers[w].pc.Checking? || step != CheckTarget(w)
    ensures w in Apply(env, s, step).workers && Apply(env, s, step).workers[w].pc != CONFLICT
  {
    hide Apply;
    if IsScheduling(step) || step.StartAudio? || step.StartVideo? || step.worker != w {
      OnlyOwnSteps(env, s, w, step);
    } else {
      assert WorkerOk(env, s.world, s.workers[w]) && EntryOk(env, s.world, s.workers[w].media) && TargetFree(s, w);
      OwnStep(env, s, w, step);
      WorkWithoutConflict(env, s, w, step);
    }
  }

  lemma RunStepWithoutConflict(env: Env, run: Run, i: nat, w: nat)
    requires EnvOk(env) && IsRun(env, run) && i < |run.steps| && w in run.states[i].workers
    requires run.states[i].workers[w].task.VideoTask? && run.states[i].workers[w].pc != CONFLICT
    requires !run.states[i].workers[w].pc.Checking? || run.steps[i] != CheckTarget(w)
    ensures w in run.states[i + 1].workers && run.states[i + 1].workers[w].pc != CONFLICT
  {
    RunKeeps(env, run, i);
    assert StepAt(env, run, i);
    StepWithoutConflict(env, run.states[i], w, run.steps[i]);
  }

  // The content this worker is about to write differs from what lay at its place before the run.
  predicate Clashes(env: Env, files: Files, k: Worker)
    requires k.pc.Checking?
  {
    k.pc.payload.data != [] && PlaceOf(k) in files && env.digest(files[PlaceOf(k)]) != env.digest(k.pc.payload.data)
  }

  // A video worker runs into a conflict in a step exactly when the step is its check, it brings content, and other
  // content lay at its attempt's place before the run.
  lemma ConflictIff(env: Env, run: Run, i: nat, w: nat)
    requires EnvOk(env) && IsRun(env, run) && i < |run.steps| && w in run.states[i].workers
    requires run.states[i].workers[w].task.VideoTask? && run.states[i].workers[w].pc != CONFLICT
    ensures w in run.states[i + 1].workers
    ensures var k := run.states[i].workers[w];
      run.states[i + 1].workers[w].pc == CONFLICT <==>
        run.steps[i] == CheckTarget(w) && k.pc.Checking? && Clashes(env, run.states[0].world.files, k)
  {
    hide Apply;
    if run.states[i].workers[w].pc.Checking? && run.steps[i] == CheckTarget(w) {
      CheckOutcome(env, run, i, w);
    } else {
      RunStepWithoutConflict(env, run, i, w);
    }
  }

  // In particular its link never loses: no video worker is ever sent to look again.
  lemma NeverRechecks(env: Env, run: Run, i: nat, w: nat)
    requires EnvOk(env) && IsRun(env, run) && i < |run.states| && w in run.states[i].workers
    requires run.states[i].workers[w].task.VideoTask?
    ensures !run.states[i].workers[w].pc.Rechecking?
  {
    hide Apply;
    RunWorker(env, run, i, w);
  }
}
