// A recorded video is what the renderer gave its own attempt: content and duration come from one step of the run.

module RenderedVideos {
  import opened Wrappers
  import opened FileStorage
  import opened MediaTransactions
  import opened MediaProtocol
  import opened ProtocolInvariants
  import opened ProtocolProof
  import opened RunHistory
  import opened RowChanges
  import opened ProtocolTheorems
  import opened WorkerMoves
  import Video = VideoGenerations

  // The digest and the duration of what a worker holds.
  datatype Film = Film(sha256: string, durationMs: int)

  function Held(env: Env, pc: Pc): Option<Film> {
    match pc
    case Checking(p) => Some(Film(env.digest(p.data), p.durationMs))
    case Writing(p, _) => Some(Film(env.digest(p.data), p.durationMs))
    case Linking(p, _) => Some(Film(env.digest(p.data), p.durationMs))
    case Rechecking(p) => Some(Film(env.digest(p.data), p.durationMs))
    case Stored(a, d) => Some(Film(a.contentSha256, d))
    case Completing(a, d, _, _) => Some(Film(a.contentSha256, d))
    case _ => None
  }

  // In step j the renderer gave this film to worker w, which held this attempt of m.
  predicate RenderedAt(env: Env, run: Run, j: nat, w: nat, m: string, attempt: int, film: Film) {
    && j < |run.steps| && j < |run.states| && run.steps[j].Render? && run.steps[j].worker == w
    && w in run.states[j].workers && run.states[j].workers[w].pc.Rendering?
    && run.states[j].workers[w].media == m && run.states[j].workers[w].attempt == attempt
    && run.steps[j].video.Some? && film == Film(env.digest(run.steps[j].video.value.0), run.steps[j].video.value.1)
  }

  // ---- One step ----

  predicate GotFilm(env: Env, k: Worker, step: Step, film: Film) {
    step.Render? && k.pc.Rendering? && step.video.Some?
    && film == Film(env.digest(step.video.value.0), step.video.value.1)
  }

  lemma LinkKeepsFilm(env: Env, t: State, w: nat)
    requires w in t.workers && t.workers[w].pc.Linking?
    ensures var film := Held(env, DoLink(env, t, w).workers[w].pc);
      film.Some? ==> film == Held(env, t.workers[w].pc)
  {
  }

  lemma SettleDropsFilm(env: Env, t: State, w: nat, step: Step)
    requires w in t.workers && t.workers[w].media in t.world.entries && Settles(t.workers[w], step)
    ensures Held(env, Settle(t, w, step).workers[w].pc).None?
  {
  }

  lemma StoringKeepsFilm(env: Env, files: Files, k: Worker, step: Step)
    ensures var film := Held(env, Storing(env, files, k, step)); film.Some? ==> film == Held(env, k.pc)
  {
  }

  lemma FilmingGetsFilm(env: Env, g: World, k: Worker, step: Step)
    requires k.task.VideoTask? && k.media in g.entries
    ensures var film := Held(env, Filming(env, g, k, step));
      film.Some? ==> film == Held(env, k.pc) || GotFilm(env, k, step, film.value)
  {
  }

  lemma WorkGetsFilm(env: Env, t: State, w: nat, step: Step)
    requires w in t.workers && t.workers[w].task.VideoTask?
    ensures w in Work(env, t, w, step).workers
    ensures var film := Held(env, Work(env, t, w, step).workers[w].pc);
      film.Some? ==> film == Held(env, t.workers[w].pc) || GotFilm(env, t.workers[w], step, film.value)
  {
    var k := t.workers[w];
    if k.media in t.world.entries && !k.pc.Done? {
      if k.pc.Linking? && step.LinkTarget? { LinkKeepsFilm(env, t, w); }
      else if Settles(k, step) { SettleDropsFilm(env, t, w, step); }
      else {
        StoringKeepsFilm(env, t.world.files, k, step);
        FilmingGetsFilm(env, t.world, k, step);
      }
    }
  }

  lemma NewWorkerHoldsNothing(env: Env, t: State, step: Step, w: nat)
    requires w !in t.workers && w in Apply(env, t, step).workers
    ensures Held(env, Apply(env, t, step).workers[w].pc).None?
  {
    if !IsScheduling(step) && !step.StartAudio? && !step.StartVideo? && step.worker in t.workers {
      NobodyAppears(env, t, step.worker, step);
    }
  }

  lemma StepGetsFilm(env: Env, t: State, step: Step, w: nat)
    requires w in t.workers && t.workers[w].task.VideoTask?
    ensures w in Apply(env, t, step).workers
    ensures var film := Held(env, Apply(env, t, step).workers[w].pc);
      film.Some? ==> film == Held(env, t.workers[w].pc)
                     || (!IsScheduling(step) && step.worker == w && GotFilm(env, t.workers[w], step, film.value))
  {
    hide Apply;
    if IsScheduling(step) || step.StartAudio? || step.StartVideo? || step.worker != w {
      OnlyOwnSteps(env, t, w, step);
    } else {
      OwnStep(env, t, w, step);
      WorkGetsFilm(env, t, w, step);
    }
  }

  // ---- Over a run ----

  lemma RunGetsFilm(env: Env, run: Run, i: nat, w: nat)
    requires EnvOk(env) && IsRun(env, run) && i < |run.steps| && w in run.states[i + 1].workers
    requires run.states[i + 1].workers[w].task.VideoTask? && Held(env, run.states[i + 1].workers[w].pc).Some?
    ensures w in run.states[i].workers && run.states[i].workers[w].task.VideoTask?
    ensures run.states[i].workers[w].media == run.states[i + 1].workers[w].media
    ensures run.states[i].workers[w].attempt == run.states[i + 1].workers[w].attempt
    ensures var k, film := run.states[i].workers[w], Held(env, run.states[i + 1].workers[w].pc);
      || film == Held(env, k.pc)
      || RenderedAt(env, run, i, w, k.media, k.attempt, film.value)
  {
    hide Apply;
    assert StepAt(env, run, i);
    if w !in run.states[i].workers { NewWorkerHoldsNothing(env, run.states[i], run.steps[i], w); }
    RunEvolves(env, run, i, i + 1);
    assert WorkerEvolves(run.states[i], run.states[i + 1], w);
    TaskStays(env, run.states[i], run.steps[i], w);
    StepGetsFilm(env, run.states[i], run.steps[i], w);
  }

  lemma {:induction false} HeldWasRendered(env: Env, run: Run, i: nat, w: nat) returns (j: nat)
    requires EnvOk(env) && IsRun(env, run) && i < |run.states| && w in run.states[i].workers
    requires run.states[i].workers[w].task.VideoTask? && Held(env, run.states[i].workers[w].pc).Some?
    ensures j < i
    ensures var k := run.states[i].workers[w];
      RenderedAt(env, run, j, w, k.media, k.attempt, Held(env, k.pc).value)
  {
    hide Apply;
    RunGetsFilm(env, run, i - 1, w);
    var k := run.states[i].workers[w];
    if RenderedAt(env, run, i - 1, w, k.media, k.attempt, Held(env, k.pc).value) {
      j := i - 1;
    } else {
      j := HeldWasRendered(env, run, i - 1, w);
    }
  }

  lemma CompletingHolds(env: Env, g: World, k: Worker, row: Video.VideoGeneration, row': Video.VideoGeneration)
    requires EnvOk(env) && WorkerOk(env, g, k) && k.task.VideoTask? && k.pc.Completing? && row == k.task.video
    requires Video.RecordGenerated(row, k.pc.artifact.storageKey, k.pc.artifact.byteSize, k.pc.artifact.contentSha256,
                                   k.pc.durationMs, k.pc.completedAt) == Ok(row')
    ensures Held(env, k.pc) == Some(Film(k.pc.artifact.contentSha256, k.pc.durationMs))
    ensures row'.contentSha256 == Some(k.pc.artifact.contentSha256) && row'.durationMs == Some(k.pc.durationMs)
  {
    CompletingKnows(env, g, k);
    Video.RecordGeneratedSpec(row, k.pc.artifact.storageKey, k.pc.artifact.byteSize, k.pc.artifact.contentSha256,
                              k.pc.durationMs, k.pc.completedAt);
  }

  lemma PreparedPending(t: State, step: Step, m: string, row: Video.VideoGeneration)
    requires step.PrepareVideoJob? && AudioRow(t, m).Some? && AudioRow(t, m).value.contentSha256.Some?
    requires Video.NewPending(step.newId, m, SCHEDULED_VERSION, RequestFor(step.settings, AudioRow(t, m).value),
                              step.at)
             == Ok(row)
    ensures row.status.Pending?
  {
    Video.NewPendingSpec(step.newId, m, SCHEDULED_VERSION, RequestFor(step.settings, AudioRow(t, m).value), step.at);
  }

  lemma BecameGenerated(env: Env, run: Run, i: nat, m: string)
    requires EnvOk(env) && IsRun(env, run) && i < |run.steps|
    requires VideoRow(run.states[i + 1], m).Some? && VideoRow(run.states[i + 1], m).value.status.Generated?
    requires VideoRow(run.states[i], m) != VideoRow(run.states[i + 1], m)
    ensures run.steps[i].WriteSuccess? && OwnsVideo(run.states[i], run.steps[i].worker, m)
    ensures VideoRow(run.states[i + 1], m).value.attemptCount == run.states[i].workers[run.steps[i].worker].attempt
  {
    hide Apply;
    RunEntryEvolves(env, run, i, i + 1, m);
    if VideoRow(run.states[i], m).Some? {
      OnlyClaimantEndsVideoAttempt(env, run, i, m);
    } else {
      RunChanges(env, run, i, m);
      PreparedPending(run.states[i], run.steps[i], m, VideoRow(run.states[i + 1], m).value);
    }
  }

  // What a success statement of an owner leaves in the row.
  lemma RecordedFilm(env: Env, run: Run, i: nat, m: string)
    requires EnvOk(env) && IsRun(env, run) && i < |run.steps|
    requires VideoRow(run.states[i + 1], m).Some? && VideoRow(run.states[i + 1], m).value.status.Generated?
    requires VideoRow(run.states[i], m) != VideoRow(run.states[i + 1], m)
    ensures run.steps[i].WriteSuccess? && OwnsVideo(run.states[i], run.steps[i].worker, m)
    ensures var row, k := VideoRow(run.states[i + 1], m).value, run.states[i].workers[run.steps[i].worker];
      && Held(env, k.pc).Some? && row.attemptCount == k.attempt
      && row.contentSha256 == Some(Held(env, k.pc).value.sha256)
      && row.durationMs == Some(Held(env, k.pc).value.durationMs)
  {
    hide Apply;
    BecameGenerated(env, run, i, m);
    RunChanges(env, run, i, m);
    var t, w := run.states[i], run.steps[i].worker;
    RunWorker(env, run, i, w);
    CompletingHolds(env, t.world, t.workers[w], VideoRow(t, m).value, VideoRow(run.states[i + 1], m).value);
  }

  // Every GENERATED video names the digest and the duration of what the renderer gave the worker of its attempt.
  lemma {:induction false} VideoWasRendered(env: Env, run: Run, i: nat, m: string) returns (j: nat, w: nat)
    requires EnvOk(env) && IsRun(env, run) && i < |run.states|
    requires VideoRow(run.states[i], m).Some? && VideoRow(run.states[i], m).value.status.Generated?
    ensures var row := VideoRow(run.states[i], m).value;
      && j < i && row.contentSha256.Some? && row.durationMs.Some?
      && RenderedAt(env, run, j, w, m, row.attemptCount, Film(row.contentSha256.value, row.durationMs.value))
  {
    hide Apply;
    if VideoRow(run.states[i - 1], m) == VideoRow(run.states[i], m) {
      j, w := VideoWasRendered(env, run, i - 1, m);
    } else {
      RecordedFilm(env, run, i - 1, m);
      w := run.steps[i - 1].worker;
      j := HeldWasRendered(env, run, i - 1, w);
    }
  }
}
