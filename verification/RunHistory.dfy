// What a run has done to one production, counted over its steps, and the attempt numbers it explains.

module RunHistory {
  import opened Wrappers
  import opened MediaTransactions
  import opened MediaInvariants
  import opened MediaProtocol
  import opened ProtocolInvariants
  import opened ProtocolProof
  import Audio = NarrationAudios
  import Video = VideoGenerations

  function AudioRow(s: State, m: string): Option<Audio.NarrationAudio> {
    if m in s.world.entries then s.world.entries[m].rows.audio else None
  }

  function VideoRow(s: State, m: string): Option<Video.VideoGeneration> {
    if m in s.world.entries then s.world.entries[m].rows.video else None
  }

  predicate AudioClaimedFrom(s: State, s': State, m: string, status: Audio.Status) {
    && AudioRow(s, m).Some? && AudioRow(s', m).Some? && AudioRow(s, m).value.status == status
    && AudioRow(s, m).value.attemptCount < AudioRow(s', m).value.attemptCount
  }

  predicate VideoClaimedFrom(s: State, s': State, m: string, status: Video.Status) {
    && VideoRow(s, m).Some? && VideoRow(s', m).Some? && VideoRow(s, m).value.status == status
    && VideoRow(s, m).value.attemptCount < VideoRow(s', m).value.attemptCount
  }

  // How many of the first i steps of the run claimed the audio of m from the given status.
  function AudioClaims(run: Run, i: nat, m: string, status: Audio.Status): nat
    requires i < |run.states|
  {
    if i == 0 then 0
    else AudioClaims(run, i - 1, m, status) + if AudioClaimedFrom(run.states[i - 1], run.states[i], m, status) then 1
      else 0
  }

  function VideoClaims(run: Run, i: nat, m: string, status: Video.Status): nat
    requires i < |run.states|
  {
    if i == 0 then 0
    else VideoClaims(run, i - 1, m, status) + if VideoClaimedFrom(run.states[i - 1], run.states[i], m, status) then 1
      else 0
  }

  // The stamp of the first claim; 0 before there is one.
  function FirstAudioStart(run: Run, i: nat, m: string): int
    requires i < |run.states|
  {
    if i == 0 then 0
    else if AudioClaimedFrom(run.states[i - 1], run.states[i], m, Audio.Pending)
      then AudioRow(run.states[i], m).value.updatedAt
    else FirstAudioStart(run, i - 1, m)
  }

  function FirstVideoStart(run: Run, i: nat, m: string): int
    requires i < |run.states|
  {
    if i == 0 then 0
    else if VideoClaimedFrom(run.states[i - 1], run.states[i], m, Video.Pending)
      then VideoRow(run.states[i], m).value.updatedAt
    else FirstVideoStart(run, i - 1, m)
  }

  // ---- Every step keeps the ledgers of every production up to date ----

  predicate LedgersFollow(g: World, g': World, m: string) {
    && (m in g.entries ==>
          && m in g'.entries
          && g'.entries[m].audioLedger
              == AudioTrack(g.entries[m].audioLedger, g.entries[m].rows.audio, g'.entries[m].rows.audio)
          && g'.entries[m].videoLedger
              == VideoTrack(g.entries[m].videoLedger, g.entries[m].rows.video, g'.entries[m].rows.video))
    && (m !in g.entries && m in g'.entries ==>
          && g'.entries[m].audioLedger == NO_ATTEMPTS && g'.entries[m].videoLedger == NO_ATTEMPTS
          && g'.entries[m].rows.audio.None? && g'.entries[m].rows.video.None?)
  }

  lemma ScheduledFollows(env: Env, g: World, step: Step, m: string)
    requires IsScheduling(step)
    ensures LedgersFollow(g, Scheduled(env, g, step), m)
  {
  }

  lemma SettleFollows(s: State, w: nat, step: Step, m: string)
    requires w in s.workers && s.workers[w].media in s.world.entries && Settles(s.workers[w], step)
    ensures LedgersFollow(s.world, Settle(s, w, step).world, m)
  {
  }

  lemma WorkFollows(env: Env, s: State, w: nat, step: Step, m: string)
    requires w in s.workers
    ensures LedgersFollow(s.world, Work(env, s, w, step).world, m)
  {
    if s.workers[w].media in s.world.entries && Settles(s.workers[w], step) { SettleFollows(s, w, step, m); }
  }

  lemma StepFollows(env: Env, s: State, step: Step, m: string)
    ensures LedgersFollow(s.world, Apply(env, s, step).world, m)
  {
    if IsScheduling(step) { ScheduledFollows(env, s.world, step, m); }
    else if !step.StartAudio? && !step.StartVideo? && step.worker in s.workers {
      WorkFollows(env, s, step.worker, step, m);
    }
  }

  // ---- The ledgers are the counts over the run ----

  lemma {:induction false} LedgersCount(env: Env, run: Run, i: nat, m: string)
    requires EnvOk(env) && IsRun(env, run) && i < |run.states|
    ensures var entries := run.states[i].world.entries;
      if m in entries then
        && entries[m].audioLedger == Ledger(FirstAudioStart(run, i, m), AudioClaims(run, i, m, Audio.Failed),
                                            AudioClaims(run, i, m, Audio.Generating))
        && entries[m].videoLedger == Ledger(FirstVideoStart(run, i, m), VideoClaims(run, i, m, Video.Failed),
                                            VideoClaims(run, i, m, Video.Generating))
      else
        && FirstAudioStart(run, i, m) == 0 && FirstVideoStart(run, i, m) == 0
        && AudioClaims(run, i, m, Audio.Failed) == 0 && AudioClaims(run, i, m, Audio.Generating) == 0
        && VideoClaims(run, i, m, Video.Failed) == 0 && VideoClaims(run, i, m, Video.Generating) == 0
  {
    hide Apply;
    if i > 0 {
      LedgersCount(env, run, i - 1, m);
      OneMoreStep(env, run, i - 1, m);
    }
  }

  // A generated row is never claimed, and nothing was counted before a first claim.
  lemma OnlyUnfinishedClaimed(env: Env, t: State, t': State, m: string)
    requires EntryOk(env, t.world, m) && EntryEvolves(t.world, t'.world, m)
    ensures !AudioClaimedFrom(t, t', m, Audio.Generated) && !VideoClaimedFrom(t, t', m, Video.Generated)
    ensures AudioRow(t, m).Some? && AudioRow(t, m).value.status.Pending? ==>
      t.world.entries[m].audioLedger.restarts == 0 && t.world.entries[m].audioLedger.takeovers == 0
    ensures VideoRow(t, m).Some? && VideoRow(t, m).value.status.Pending? ==>
      t.world.entries[m].videoLedger.restarts == 0 && t.world.entries[m].videoLedger.takeovers == 0
  {
  }

  lemma OneMoreStep(env: Env, run: Run, i: nat, m: string)
    requires EnvOk(env) && IsRun(env, run) && i < |run.steps|
    ensures var t, t' := run.states[i], run.states[i + 1];
      && LedgersFollow(t.world, t'.world, m)
      && !AudioClaimedFrom(t, t', m, Audio.Generated) && !VideoClaimedFrom(t, t', m, Video.Generated)
      && (AudioRow(t, m).Some? && AudioRow(t, m).value.status.Pending? ==>
            t.world.entries[m].audioLedger.restarts == 0 && t.world.entries[m].audioLedger.takeovers == 0)
      && (VideoRow(t, m).Some? && VideoRow(t, m).value.status.Pending? ==>
            t.world.entries[m].videoLedger.restarts == 0 && t.world.entries[m].videoLedger.takeovers == 0)
  {
    hide Apply;
    var t, t' := run.states[i], run.states[i + 1];
    RunEntry(env, run, i, m);
    RunEntryEvolves(env, run, i, i + 1, m);
    RunStepFollows(env, run, i, m);
    OnlyUnfinishedClaimed(env, t, t', m);
  }

  lemma RunStepFollows(env: Env, run: Run, i: nat, m: string)
    requires IsRun(env, run) && i < |run.steps|
    ensures LedgersFollow(run.states[i].world, run.states[i + 1].world, m)
  {
    assert StepAt(env, run, i);
    StepFollows(env, run.states[i], run.steps[i], m);
  }

  // ---- Attempt accounting ----

  // In every state of every run, an audio row that was ever started counts one first claim, one attempt for
  // every recorded failure that was restarted and one for every takeover; and every takeover waited out the
  // timeout, so takeovers * timeout fits between the first start and the last.
  lemma AudioAttempts(env: Env, run: Run, i: nat, m: string)
    requires EnvOk(env) && IsRun(env, run) && i < |run.states|
    requires AudioRow(run.states[i], m).Some? && AudioRow(run.states[i], m).value.startedAt.Some?
    ensures var row, takeovers := AudioRow(run.states[i], m).value, AudioClaims(run, i, m, Audio.Generating);
      && row.attemptCount == 1 + AudioClaims(run, i, m, Audio.Failed) + takeovers
      && takeovers * env.timeout <= row.startedAt.value - FirstAudioStart(run, i, m)
  {
    hide Apply;
    RunEntry(env, run, i, m);
    LedgersCount(env, run, i, m);
  }

  lemma VideoAttempts(env: Env, run: Run, i: nat, m: string)
    requires EnvOk(env) && IsRun(env, run) && i < |run.states|
    requires VideoRow(run.states[i], m).Some? && VideoRow(run.states[i], m).value.startedAt.Some?
    ensures var row, takeovers := VideoRow(run.states[i], m).value, VideoClaims(run, i, m, Video.Generating);
      && row.attemptCount == 1 + VideoClaims(run, i, m, Video.Failed) + takeovers
      && takeovers * env.timeout <= row.startedAt.value - FirstVideoStart(run, i, m)
  {
    hide Apply;
    RunEntry(env, run, i, m);
    LedgersCount(env, run, i, m);
  }

  // The parent counts its first start and the recorded failures of either child that were restarted; a
  // takeover of a child never changes it.
  lemma ParentAttempts(env: Env, run: Run, i: nat, m: string)
    requires EnvOk(env) && IsRun(env, run) && i < |run.states| && m in run.states[i].world.entries
    ensures var media := run.states[i].world.entries[m].rows.media;
      media.attemptCount ==
        if media.status.Pending? then 0
        else 1 + AudioClaims(run, i, m, Audio.Failed) + VideoClaims(run, i, m, Video.Failed)
  {
    hide Apply;
    RunEntry(env, run, i, m);
    LedgersCount(env, run, i, m);
  }
}
