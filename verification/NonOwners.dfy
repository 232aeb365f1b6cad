// What a completion does for a worker that no longer owns its attempt: it changes nothing, and never raises.

module NonOwners {
  import opened Wrappers
  import opened MediaTransactions
  import opened MediaProtocol
  import opened ProtocolInvariants
  import opened ProtocolProof
  import opened RunHistory
  import opened RowChanges
  import opened Completions
  import Audio = NarrationAudios

  // The worker stops with this outcome, and nothing else happens.
  predicate OnlyStops(t: State, t': State, w: nat, outcome: Outcome) {
    && w in t.workers && t'.world == t.world
    && t'.workers == t.workers[w := t.workers[w].(pc := Done(outcome))]
  }

  // ---- Narration ----

  lemma AudioMovedOn(env: Env, t: State, w: nat)
    requires w in t.workers && WorkerOk(env, t.world, t.workers[w]) && t.workers[w].task.AudioTask?
    requires !OwnsAudio(t, w, t.workers[w].media)
    ensures AudioRow(t, t.workers[w].media).Some?
    ensures var row := AudioRow(t, t.workers[w].media).value;
      !row.status.Generating? || row.attemptCount != t.workers[w].attempt
  {
    CurrentIsClaimed(env, t.world, t.workers[w]);
  }

  lemma SameRows(g: World, m: string)
    requires m in g.entries
    ensures WithRows(g, m, g.entries[m].rows) == g
  {
  }

  lemma RecordedTooLate(env: Env, t: State, w: nat, at: int)
    requires w in t.workers && WorkerOk(env, t.world, t.workers[w]) && t.workers[w].media in t.world.entries
    requires t.workers[w].task.AudioTask? && t.workers[w].pc.Stored? && !OwnsAudio(t, w, t.workers[w].media)
    ensures AudioRow(t, t.workers[w].media).Some?
    ensures OnlyStops(t, DoRecordAudio(t, w, at), w,
                      if AudioRow(t, t.workers[w].media).value.status == Audio.Generated then GeneratedByAnother
                      else AttemptSuperseded)
  {
    AudioMovedOn(env, t, w);
    SameRows(t.world, t.workers[w].media);
  }

  // A narration success that comes too late: another attempt's narration is reported if there is one, otherwise that
  // the attempt was superseded.
  lemma NarrationSuccessTooLate(env: Env, run: Run, i: nat, w: nat, at: int)
    requires EnvOk(env) && IsRun(env, run) && i < |run.steps| && run.steps[i] == RecordAudio(w, at)
    requires w in run.states[i].workers && run.states[i].workers[w].pc.Stored?
    requires run.states[i].workers[w].task.AudioTask?
    requires !OwnsAudio(run.states[i], w, run.states[i].workers[w].media)
    ensures var row := AudioRow(run.states[i], run.states[i].workers[w].media);
      && row.Some?
      && OnlyStops(run.states[i], run.states[i + 1], w,
                   if row.value.status == Audio.Generated then GeneratedByAnother else AttemptSuperseded)
  {
    hide Apply;
    RunWorker(env, run, i, w);
    CurrentIsClaimed(env, run.states[i].world, run.states[i].workers[w]);
    RecordedTooLate(env, run.states[i], w, at);
    RunRecordsAudio(env, run, i, w, at);
  }

  lemma FailedTooLate(env: Env, t: State, w: nat, reason: string, at: int)
    requires w in t.workers && WorkerOk(env, t.world, t.workers[w]) && t.workers[w].media in t.world.entries
    requires t.workers[w].task.AudioTask? && t.workers[w].pc.Failing? && !OwnsAudio(t, w, t.workers[w].media)
    ensures OnlyStops(t, DoFailAudio(t, w, reason, at), w, AttemptSuperseded)
  {
    AudioMovedOn(env, t, w);
    SameRows(t.world, t.workers[w].media);
  }

  lemma NarrationFailureTooLate(env: Env, run: Run, i: nat, w: nat, reason: string, at: int)
    requires EnvOk(env) && IsRun(env, run) && i < |run.steps| && run.steps[i] == FailAudio(w, reason, at)
    requires w in run.states[i].workers && run.states[i].workers[w].pc.Failing?
    requires run.states[i].workers[w].task.AudioTask?
    requires !OwnsAudio(run.states[i], w, run.states[i].workers[w].media)
    ensures OnlyStops(run.states[i], run.states[i + 1], w, AttemptSuperseded)
  {
    hide Apply;
    RunWorker(env, run, i, w);
    CurrentIsClaimed(env, run.states[i].world, run.states[i].workers[w]);
    FailedTooLate(env, run.states[i], w, reason, at);
    RunFailsAudio(env, run, i, w, reason, at);
  }

  // ---- Video ----

  lemma VideoMovedOn(env: Env, t: State, w: nat)
    requires w in t.workers && WorkerOk(env, t.world, t.workers[w]) && t.workers[w].task.VideoTask?
    requires !OwnsVideo(t, w, t.workers[w].media)
    ensures VideoRow(t, t.workers[w].media).Some?
    ensures var row := VideoRow(t, t.workers[w].media).value;
      !row.status.Generating? || row.attemptCount != t.workers[w].attempt
  {
    VideoClaimHeld(env, t.world, t.workers[w]);
    CurrentIsClaimed(env, t.world, t.workers[w]);
  }

  // Both halves of a video success: the read, and the write of a worker that was overtaken after its read.
  lemma VideoSuccessReadTooLate(env: Env, run: Run, i: nat, w: nat, at: int)
    requires EnvOk(env) && IsRun(env, run) && i < |run.steps| && run.steps[i] == ReadBeforeSuccess(w, at)
    requires w in run.states[i].workers && run.states[i].workers[w].pc.Stored?
    requires run.states[i].workers[w].task.VideoTask?
    requires !OwnsVideo(run.states[i], w, run.states[i].workers[w].media)
    ensures OnlyStops(run.states[i], run.states[i + 1], w, AttemptSuperseded)
  {
    hide Apply;
    RunWorker(env, run, i, w);
    VideoMovedOn(env, run.states[i], w);
    RunReads(env, run, i, w, at);
  }

  lemma WrittenTooLate(env: Env, t: State, w: nat)
    requires w in t.workers && WorkerOk(env, t.world, t.workers[w]) && t.workers[w].media in t.world.entries
    requires t.workers[w].task.VideoTask? && t.workers[w].pc.Completing? && !OwnsVideo(t, w, t.workers[w].media)
    ensures OnlyStops(t, DoWriteSuccess(t, w), w, AttemptSuperseded)
  {
    VideoMovedOn(env, t, w);
    SameRows(t.world, t.workers[w].media);
  }

  lemma VideoSuccessWrittenTooLate(env: Env, run: Run, i: nat, w: nat)
    requires EnvOk(env) && IsRun(env, run) && i < |run.steps| && run.steps[i] == WriteSuccess(w)
    requires w in run.states[i].workers && run.states[i].workers[w].pc.Completing?
    requires !OwnsVideo(run.states[i], w, run.states[i].workers[w].media)
    ensures OnlyStops(run.states[i], run.states[i + 1], w, AttemptSuperseded)
  {
    hide Apply;
    RunWorker(env, run, i, w);
    VideoMovedOn(env, run.states[i], w);
    WrittenTooLate(env, run.states[i], w);
    RunWrites(env, run, i, w);
  }

  lemma VideoFailureReadTooLate(env: Env, run: Run, i: nat, w: nat, reason: string, at: int)
    requires EnvOk(env) && IsRun(env, run) && i < |run.steps| && run.steps[i] == ReadBeforeFailure(w, reason, at)
    requires w in run.states[i].workers && run.states[i].workers[w].pc.Failing?
    requires run.states[i].workers[w].task.VideoTask?
    requires !OwnsVideo(run.states[i], w, run.states[i].workers[w].media)
    ensures OnlyStops(run.states[i], run.states[i + 1], w, AttemptSuperseded)
  {
    hide Apply;
    RunWorker(env, run, i, w);
    VideoMovedOn(env, run.states[i], w);
    RunReadsFailure(env, run, i, w, reason, at);
  }

  lemma FailureWrittenTooLate(env: Env, t: State, w: nat)
    requires w in t.workers && WorkerOk(env, t.world, t.workers[w]) && t.workers[w].media in t.world.entries
    requires t.workers[w].task.VideoTask? && t.workers[w].pc.RecordingFailure?
    requires !OwnsVideo(t, w, t.workers[w].media)
    ensures OnlyStops(t, DoWriteFailure(t, w), w, AttemptSuperseded)
  {
    VideoMovedOn(env, t, w);
    SameRows(t.world, t.workers[w].media);
  }

  lemma VideoFailureWrittenTooLate(env: Env, run: Run, i: nat, w: nat)
    requires EnvOk(env) && IsRun(env, run) && i < |run.steps| && run.steps[i] == WriteFailure(w)
    requires w in run.states[i].workers && run.states[i].workers[w].pc.RecordingFailure?
    requires !OwnsVideo(run.states[i], w, run.states[i].workers[w].media)
    ensures OnlyStops(run.states[i], run.states[i + 1], w, AttemptSuperseded)
  {
    hide Apply;
    RunWorker(env, run, i, w);
    VideoMovedOn(env, run.states[i], w);
    FailureWrittenTooLate(env, run.states[i], w);
    RunWritesFailure(env, run, i, w);
  }

  // ---- Crashes ----

  lemma CrashStep(env: Env, t: State, w: nat)
    requires w in t.workers && t.workers[w].media in t.world.entries && !t.workers[w].pc.Done?
    ensures OnlyStops(t, Apply(env, t, Crash(w)), w, Crashed)
  {
  }

  // A worker that has not stopped may crash anywhere; its attempt stays as it is.
  lemma CrashOnlyStops(env: Env, run: Run, i: nat, w: nat)
    requires EnvOk(env) && IsRun(env, run) && i < |run.steps| && run.steps[i] == Crash(w)
    requires w in run.states[i].workers && !run.states[i].workers[w].pc.Done?
    ensures OnlyStops(run.states[i], run.states[i + 1], w, Crashed)
  {
    hide Apply;
    RunWorker(env, run, i, w);
    CurrentIsClaimed(env, run.states[i].world, run.states[i].workers[w]);
    assert StepAt(env, run, i);
    CrashStep(env, run.states[i], w);
  }
}
