// Which steps move a worker, and when one comes to write its result.

module WorkerMoves {
  import opened MediaTransactions
  import opened MediaProtocol

  // The steps of others leave a worker alone.
  lemma OnlyOwnSteps(env: Env, s: State, w: nat, step: Step)
    requires w in s.workers
    requires IsScheduling(step) || step.StartAudio? || step.StartVideo? || step.worker != w
    ensures w in Apply(env, s, step).workers && Apply(env, s, step).workers[w] == s.workers[w]
  {
    if !IsScheduling(step) && !step.StartAudio? && !step.StartVideo? && step.worker in s.workers {
      OthersStay(env, s, step.worker, w, step);
    }
  }

  // A worker's own step is its work.
  lemma OwnStep(env: Env, s: State, w: nat, step: Step)
    requires w in s.workers && !IsScheduling(step) && !step.StartAudio? && !step.StartVideo? && step.worker == w
    ensures Apply(env, s, step) == Work(env, s, w, step)
  {
  }

  lemma OthersStay(env: Env, s: State, v: nat, w: nat, step: Step)
    requires v in s.workers && w in s.workers && v != w
    ensures w in Work(env, s, v, step).workers && Work(env, s, v, step).workers[w] == s.workers[w]
  {
    if s.workers[v].media in s.world.entries && Settles(s.workers[v], step) { OthersSettled(s, v, w, step); }
  }

  lemma OthersSettled(s: State, v: nat, w: nat, step: Step)
    requires v in s.workers && w in s.workers && v != w
    requires s.workers[v].media in s.world.entries && Settles(s.workers[v], step)
    ensures w in Settle(s, v, step).workers && Settle(s, v, step).workers[w] == s.workers[w]
  {
  }

  // Where a completion statement is prepared.
  predicate AboutToWrite(pc: Pc) {
    pc.Completing? || pc.RecordingFailure?
  }

  // A worker comes to its completion statement only by reading its row at that instant, which changes nothing
  // else.
  lemma NewlyAboutToWrite(env: Env, t: State, step: Step, w: nat)
    requires w in Apply(env, t, step).workers && AboutToWrite(Apply(env, t, step).workers[w].pc)
    requires w !in t.workers || t.workers[w] != Apply(env, t, step).workers[w]
    ensures step.ReadBeforeSuccess? || step.ReadBeforeFailure?
    ensures step.worker == w && w in t.workers && Apply(env, t, step).world == t.world
    ensures var pc := Apply(env, t, step).workers[w].pc;
      if pc.Completing? then pc.completedAt == step.at else pc.failedAt == step.at
    ensures Apply(env, t, step).workers[w].media == t.workers[w].media
    ensures Apply(env, t, step).workers[w].task == t.workers[w].task
  {
    if IsScheduling(step) || step.StartAudio? || step.StartVideo? {
      NoneAboutToWrite(env, t, step, w);
    } else if step.worker in t.workers {
      if step.worker != w && w in t.workers { OthersStay(env, t, step.worker, w, step); }
      NewlyAtWork(env, t, step.worker, step, w);
    }
  }

  lemma NoneAboutToWrite(env: Env, t: State, step: Step, w: nat)
    requires IsScheduling(step) || step.StartAudio? || step.StartVideo?
    requires w in Apply(env, t, step).workers && AboutToWrite(Apply(env, t, step).workers[w].pc)
    ensures w in t.workers && Apply(env, t, step).workers[w] == t.workers[w]
  {
  }

  lemma NewlyAtWork(env: Env, t: State, v: nat, step: Step, w: nat)
    requires v in t.workers && w in Work(env, t, v, step).workers && AboutToWrite(Work(env, t, v, step).workers[w].pc)
    requires w !in t.workers || t.workers[w] != Work(env, t, v, step).workers[w]
    requires w in t.workers && w != v ==> Work(env, t, v, step).workers[w] == t.workers[w]
    ensures step.ReadBeforeSuccess? || step.ReadBeforeFailure?
    ensures w == v && Work(env, t, v, step).world == t.world
    ensures var pc := Work(env, t, v, step).workers[w].pc;
      if pc.Completing? then pc.completedAt == step.at else pc.failedAt == step.at
    ensures Work(env, t, v, step).workers[w].media == t.workers[w].media
    ensures Work(env, t, v, step).workers[w].task == t.workers[w].task
  {
    var k := t.workers[v];
    if k.media in t.world.entries && !k.pc.Done? {
      if k.pc.Linking? && step.LinkTarget? { LinkEndsElsewhere(env, t, v); }
      else if Settles(k, step) { SettleEndsElsewhere(t, v, step); }
      else { MovedToWrite(env, t.world, k, step); }
    }
  }

  lemma LinkEndsElsewhere(env: Env, t: State, v: nat)
    requires v in t.workers && t.workers[v].pc.Linking?
    ensures DoLink(env, t, v).workers.Keys == t.workers.Keys && !AboutToWrite(DoLink(env, t, v).workers[v].pc)
  {
  }

  lemma SettleEndsElsewhere(t: State, v: nat, step: Step)
    requires v in t.workers && t.workers[v].media in t.world.entries && Settles(t.workers[v], step)
    ensures Settle(t, v, step).workers.Keys == t.workers.Keys && !AboutToWrite(Settle(t, v, step).workers[v].pc)
  {
  }

  lemma MovedToWrite(env: Env, g: World, k: Worker, step: Step)
    requires k.media in g.entries && AboutToWrite(Moved(env, g, k, step))
    ensures Moved(env, g, k, step) == k.pc || step.ReadBeforeSuccess? || step.ReadBeforeFailure?
    ensures Moved(env, g, k, step) != k.pc ==>
      var pc := Moved(env, g, k, step); if pc.Completing? then pc.completedAt == step.at else pc.failedAt == step.at
  {
    if k.task.VideoTask? { FilmingToWrite(env, g, k, step); }
  }

  lemma FilmingToWrite(env: Env, g: World, k: Worker, step: Step)
    requires k.task.VideoTask? && k.media in g.entries && AboutToWrite(Filming(env, g, k, step))
    ensures Filming(env, g, k, step) == k.pc || step.ReadBeforeSuccess? || step.ReadBeforeFailure?
    ensures Filming(env, g, k, step) != k.pc ==>
      var pc := Filming(env, g, k, step); if pc.Completing? then pc.completedAt == step.at else pc.failedAt == step.at
  {
  }

  // No step changes what a worker's claim gave it.
  lemma TaskStays(env: Env, t: State, step: Step, w: nat)
    requires w in t.workers
    ensures w in Apply(env, t, step).workers
    ensures Apply(env, t, step).workers[w].task == t.workers[w].task
    ensures Apply(env, t, step).workers[w].media == t.workers[w].media
  {
    hide Apply;
    if IsScheduling(step) || step.StartAudio? || step.StartVideo? || step.worker != w {
      OnlyOwnSteps(env, t, w, step);
    } else {
      OwnStep(env, t, w, step);
      WorkKeepsTask(env, t, w, step);
    }
  }

  lemma WorkKeepsTask(env: Env, t: State, w: nat, step: Step)
    requires w in t.workers
    ensures w in Work(env, t, w, step).workers
    ensures Work(env, t, w, step).workers[w].task == t.workers[w].task
    ensures Work(env, t, w, step).workers[w].media == t.workers[w].media
  {
  }

  lemma RunKeepsTask(env: Env, run: Run, i: nat, w: nat)
    requires IsRun(env, run) && i < |run.steps| && w in run.states[i].workers && w in run.states[i + 1].workers
    ensures run.states[i + 1].workers[w].task == run.states[i].workers[w].task
    ensures run.states[i + 1].workers[w].media == run.states[i].workers[w].media
  {
    assert StepAt(env, run, i);
    TaskStays(env, run.states[i], run.steps[i], w);
  }

  // Only claims bring new workers.
  lemma NobodyAppears(env: Env, t: State, v: nat, step: Step)
    requires v in t.workers
    ensures Work(env, t, v, step).workers.Keys == t.workers.Keys
  {
  }
}
