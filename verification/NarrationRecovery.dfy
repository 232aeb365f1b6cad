// The narration counterpart of the recovery: from every state of every run, an unfinished narration can still be
// generated, with the canonical file when there is one and a new one otherwise.

module NarrationRecovery {
  import opened Wrappers
  import opened StorageKeys
  import opened FileStorage
  import opened MediaTransactions
  import opened MediaInvariants
  import opened MediaProtocol
  import opened ProtocolInvariants
  import opened ProtocolProof
  import opened RunHistory
  import opened Completions
  import opened Provenance
  import opened Recovery
  import Audio = NarrationAudios
  import AudioTable = AudioRepository

  // Worker w holds the running attempt of m's narration and stands at pc.
  predicate Speaks(t: State, w: nat, m: string, row: Audio.NarrationAudio, narration: string, pc: Pc) {
    && w in t.workers && row.attemptCount >= 1
    && t.workers[w] == Worker(m, row.attemptCount, AudioTask(row, narration), pc)
    && m in t.world.entries && AudioRow(t, m) == Some(row) && row.status.Generating?
  }

  // The canonical place of the narration, and what a lookup needs of it.
  predicate PlaceUsable(files: Files, row: Audio.NarrationAudio) {
    var target := TargetForKey(AudioKeyOf(row));
    target.Ok? && (target.value in files ==> files[target.value] != [])
  }

  // What a narration needs to be finished: a key that fits, a usable place, and there a file, or the speech tool.
  predicate Finishable(files: Files, row: Audio.NarrationAudio) {
    && |AudioKeyOf(row)| <= Audio.MAX_STORAGE_KEY && PlaceUsable(files, row)
    && (TargetForKey(AudioKeyOf(row)).value in files || row.provider == "openai")
  }

  // ---- The claim ----

  lemma AudioClaimSucceeds(env: Env, g: World, m: string, at: int) returns (narration: string)
    requires EnvOk(env) && EntryOk(env, g, m) && m in g.entries && g.entries[m].rows.audio.Some?
    requires var row := g.entries[m].rows.audio.value;
      && !row.status.Generated? && row.updatedAt <= at && g.entries[m].rows.media.updatedAt <= at
      && (row.startedAt.Some? ==> row.startedAt.value <= at - env.timeout)
    ensures var row, tx := g.entries[m].rows.audio.value, ClaimAudio(env, ScriptOf(g, m), g.entries[m].rows, at);
      && row.attemptCount >= 0
      && tx.Commit? && tx.value == AudioClaimed(AudioTable.ClaimedRow(row, at), narration)
      && tx.rows.audio == Some(AudioTable.ClaimedRow(row, at))
  {
    AudioClaimOf(env, g, m, at);
    narration := NarrationOf(ScriptOf(g, m).value);
  }

  lemma AudioStartApplies(env: Env, t: State, w: nat, m: string, row: Audio.NarrationAudio, at: int, narration: string)
    requires w !in t.workers && m in t.world.entries && row.attemptCount >= 0
    requires var tx := ClaimAudio(env, ScriptOf(t.world, m), t.world.entries[m].rows, at);
      && tx.Commit? && tx.value == AudioClaimed(AudioTable.ClaimedRow(row, at), narration)
      && tx.rows.audio == Some(AudioTable.ClaimedRow(row, at))
    ensures var t' := Apply(env, t, StartAudio(w, m, at));
      Speaks(t', w, m, AudioTable.ClaimedRow(row, at), narration, Claimed) && t'.world.files == t.world.files
  {
  }

  // ---- One step at a time ----

  lemma AudioMoves(env: Env, t: State, w: nat, m: string, row: Audio.NarrationAudio, narration: string, pc: Pc,
                   step: Step, next: Pc)
    requires Speaks(t, w, m, row, narration, pc)
    requires !pc.Done? && !IsScheduling(step) && !step.StartAudio? && !step.StartVideo?
    requires step.worker == w && !Settles(t.workers[w], step) && !step.LinkTarget?
    requires Moved(env, t.world, t.workers[w], step) == next
    ensures var t' := Apply(env, t, step); Speaks(t', w, m, row, narration, next) && t'.world.files == t.world.files
  {
  }

  lemma SpeakOn(env: Env, run: Run, w: nat, m: string, row: Audio.NarrationAudio, narration: string, pc: Pc,
                step: Step, next: Pc)
    returns (further: Run)
    requires EnvOk(env) && IsRun(env, run) && Speaks(Last(run), w, m, row, narration, pc)
    requires !pc.Done? && !IsScheduling(step) && !step.StartAudio? && !step.StartVideo?
    requires step.worker == w && !Settles(Last(run).workers[w], step) && !step.LinkTarget?
    requires Moved(env, Last(run).world, Last(run).workers[w], step) == next
    ensures IsRun(env, further) && run.states <= further.states && Speaks(Last(further), w, m, row, narration, next)
    ensures Last(further).world.files == Last(run).world.files
  {
    hide Apply;
    AudioMoves(env, Last(run), w, m, row, narration, pc, step, next);
    further := Extend(env, run, step);
  }

  lemma LookUpOn(env: Env, run: Run, w: nat, m: string, row: Audio.NarrationAudio, narration: string)
    returns (further: Run, next: Pc)
    requires EnvOk(env) && IsRun(env, run) && Speaks(Last(run), w, m, row, narration, Claimed)
    requires PlaceUsable(Last(run).world.files, row)
    ensures IsRun(env, further) && run.states <= further.states && Speaks(Last(further), w, m, row, narration, next)
    ensures Last(further).world.files == Last(run).world.files
    ensures var target, files := TargetForKey(AudioKeyOf(row)).value, Last(run).world.files;
      if target in files then next == Stored(ArtifactOf(env.digest, AudioKeyOf(row), files[target]), 0)
        else next == Synthesizing
  {
    hide Apply;
    var target, files := TargetForKey(AudioKeyOf(row)).value, Last(run).world.files;
    next := if target in files then Stored(ArtifactOf(env.digest, AudioKeyOf(row), files[target]), 0) else Synthesizing;
    further := SpeakOn(env, run, w, m, row, narration, Claimed, LookUp(w), next);
  }

  lemma SynthesizeOn(env: Env, run: Run, w: nat, m: string, row: Audio.NarrationAudio, narration: string, data: Bytes)
    returns (further: Run, p: Payload)
    requires EnvOk(env) && IsRun(env, run) && Speaks(Last(run), w, m, row, narration, Synthesizing)
    requires row.provider == "openai"
    ensures IsRun(env, further) && run.states <= further.states
    ensures Speaks(Last(further), w, m, row, narration, Checking(p))
    ensures p.data == data && p.durationMs == 0 && Last(further).world.files == Last(run).world.files
  {
    hide Apply;
    p := Payload(data, Synthesised(narration), 0);
    further := SpeakOn(env, run, w, m, row, narration, Synthesizing, Synthesize(w, Some(data)), Checking(p));
  }

  lemma CheckAudioOn(env: Env, run: Run, w: nat, m: string, row: Audio.NarrationAudio, narration: string, p: Payload)
    returns (further: Run)
    requires EnvOk(env) && IsRun(env, run) && Speaks(Last(run), w, m, row, narration, Checking(p)) && p.data != []
    requires TargetForKey(AudioKeyOf(row)).Ok? && TargetForKey(AudioKeyOf(row)).value !in Last(run).world.files
    ensures IsRun(env, further) && run.states <= further.states
    ensures Speaks(Last(further), w, m, row, narration, Writing(p, []))
    ensures Last(further).world.files == Last(run).world.files
  {
    hide Apply;
    further := SpeakOn(env, run, w, m, row, narration, Checking(p), CheckTarget(w), Writing(p, []));
  }

  lemma WriteAudioOn(env: Env, run: Run, w: nat, m: string, row: Audio.NarrationAudio, narration: string, p: Payload)
    returns (further: Run)
    requires EnvOk(env) && IsRun(env, run) && Speaks(Last(run), w, m, row, narration, Writing(p, []))
    ensures IsRun(env, further) && run.states <= further.states
    ensures Speaks(Last(further), w, m, row, narration, Linking(p, p.data))
    ensures Last(further).world.files == Last(run).world.files
  {
    hide Apply;
    further := SpeakOn(env, run, w, m, row, narration, Writing(p, []), WriteTemporary(w, |p.data|), Linking(p, p.data));
  }

  lemma AudioLinks(env: Env, t: State, w: nat, m: string, row: Audio.NarrationAudio, narration: string, p: Payload)
    requires Speaks(t, w, m, row, narration, Linking(p, p.data))
    requires TargetForKey(AudioKeyOf(row)).Ok? && TargetForKey(AudioKeyOf(row)).value !in t.world.files
    ensures Speaks(Apply(env, t, LinkTarget(w)), w, m, row, narration,
                   Stored(ArtifactOf(env.digest, AudioKeyOf(row), p.data), p.durationMs))
  {
    LinkApplies(env, t, w);
  }

  lemma LinkAudioOn(env: Env, run: Run, w: nat, m: string, row: Audio.NarrationAudio, narration: string, p: Payload)
    returns (further: Run)
    requires EnvOk(env) && IsRun(env, run) && Speaks(Last(run), w, m, row, narration, Linking(p, p.data))
    requires TargetForKey(AudioKeyOf(row)).Ok? && TargetForKey(AudioKeyOf(row)).value !in Last(run).world.files
    ensures IsRun(env, further) && run.states <= further.states
    ensures Speaks(Last(further), w, m, row, narration,
                   Stored(ArtifactOf(env.digest, AudioKeyOf(row), p.data), p.durationMs))
  {
    hide Apply;
    AudioLinks(env, Last(run), w, m, row, narration, p);
    further := Extend(env, run, LinkTarget(w));
  }

  lemma RecordOn(env: Env, run: Run, w: nat, m: string, row: Audio.NarrationAudio, narration: string,
                 artifact: Artifact, durationMs: int) returns (further: Run)
    requires EnvOk(env) && IsRun(env, run) && Speaks(Last(run), w, m, row, narration, Stored(artifact, durationMs))
    requires row.startedAt.Some? && AudioArtifactAccepted(artifact)
    ensures IsRun(env, further) && run.states <= further.states
    ensures AudioRow(Last(further), m).Some? && AudioRow(Last(further), m).value.status.Generated?
  {
    hide Apply;
    further := Extend(env, run, RecordAudio(w, row.startedAt.value));
    var i := |run.steps|;
    assert further.states[i] == run.states[i];
    assert further.steps[i] == RecordAudio(w, row.startedAt.value);
    NarrationSuccessIff(env, further, i, w, row.startedAt.value);
  }

  // ---- The whole recovery ----

  // A worker that starts late enough finds the canonical file or makes it, and takes the narration from wherever
  // earlier workers left it to a generated one.
  lemma NarrationAlwaysRecoverable(env: Env, run: Run, m: string, data: Bytes) returns (finished: Run)
    requires EnvOk(env) && IsRun(env, run) && AudioRow(Last(run), m).Some?
    requires !AudioRow(Last(run), m).value.status.Generated?
    requires Finishable(Last(run).world.files, AudioRow(Last(run), m).value) && data != []
    ensures IsRun(env, finished) && run.states <= finished.states
    ensures AudioRow(Last(finished), m).Some? && AudioRow(Last(finished), m).value.status.Generated?
  {
    hide Apply;
    var last, media := AudioRow(Last(run), m).value, Last(run).world.entries[m].rows.media;
    var at := Max(Max(last.updatedAt, media.updatedAt),
                  if last.startedAt.Some? then last.startedAt.value + env.timeout else last.updatedAt);
    var row := AudioTable.ClaimedRow(last, at);
    var claimed, w, narration := NarrationClaimedAgain(env, run, m, at);
    var looked, next := LookUpOn(env, claimed, w, m, row, narration);
    if next.Synthesizing? {
      var stored := SpokenAndStored(env, looked, w, m, row, narration, data);
      finished := RecordOn(env, stored, w, m, row, narration, ArtifactOf(env.digest, AudioKeyOf(row), data), 0);
    } else {
      finished := RecordOn(env, looked, w, m, row, narration, next.artifact, 0);
    }
  }

  lemma NarrationClaimedAgain(env: Env, run: Run, m: string, at: int) returns (claimed: Run, w: nat, narration: string)
    requires EnvOk(env) && IsRun(env, run) && AudioRow(Last(run), m).Some?
    requires !AudioRow(Last(run), m).value.status.Generated?
    requires var row := AudioRow(Last(run), m).value;
      && row.updatedAt <= at && Last(run).world.entries[m].rows.media.updatedAt <= at
      && (row.startedAt.Some? ==> row.startedAt.value <= at - env.timeout)
    ensures IsRun(env, claimed) && run.states <= claimed.states
    ensures Speaks(Last(claimed), w, m, AudioTable.ClaimedRow(AudioRow(Last(run), m).value, at), narration, Claimed)
    ensures Last(claimed).world.files == Last(run).world.files
  {
    hide Apply;
    RunEntry(env, run, |run.steps|, m);
    w := FreshWorker(Last(run).workers);
    narration := AudioClaimSucceeds(env, Last(run).world, m, at);
    AudioStartApplies(env, Last(run), w, m, AudioRow(Last(run), m).value, at, narration);
    claimed := Extend(env, run, StartAudio(w, m, at));
  }

  lemma SpokenAndStored(env: Env, run: Run, w: nat, m: string, row: Audio.NarrationAudio, narration: string,
                        data: Bytes)
    returns (stored: Run)
    requires EnvOk(env) && IsRun(env, run) && Speaks(Last(run), w, m, row, narration, Synthesizing)
    requires row.provider == "openai" && data != []
    requires TargetForKey(AudioKeyOf(row)).Ok? && TargetForKey(AudioKeyOf(row)).value !in Last(run).world.files
    ensures IsRun(env, stored) && run.states <= stored.states
    ensures Speaks(Last(stored), w, m, row, narration, Stored(ArtifactOf(env.digest, AudioKeyOf(row), data), 0))
  {
    hide Apply;
    var spoken, p := SynthesizeOn(env, run, w, m, row, narration, data);
    var checked := CheckAudioOn(env, spoken, w, m, row, narration, p);
    var written := WriteAudioOn(env, checked, w, m, row, narration, p);
    stored := LinkAudioOn(env, written, w, m, row, narration, p);
  }

  // ---- Nothing else stands in its way ----

  ghost predicate Finishes(env: Env, run: Run, finished: Run, m: string) {
    && IsRun(env, finished) && run.states <= finished.states
    && AudioRow(Last(finished), m).Some? && AudioRow(Last(finished), m).value.status.Generated?
  }

  // The record of a generated narration and its file.
  lemma GeneratedFile(env: Env, g: World, m: string)
    requires EntryOk(env, g, m) && m in g.entries && AudioIs(g.entries[m].rows, Audio.Generated)
    ensures var row := g.entries[m].rows.audio.value;
      && |AudioKeyOf(row)| <= Audio.MAX_STORAGE_KEY && PlaceUsable(g.files, row)
      && TargetForKey(AudioKeyOf(row)).value in g.files
  {
  }

  lemma SameKeyLater(env: Env, g: World, g': World, m: string)
    requires EntryEvolves(g, g', m) && m in g.entries && g.entries[m].rows.audio.Some?
    ensures m in g'.entries && g'.entries[m].rows.audio.Some?
    ensures var row, row' := g.entries[m].rows.audio.value, g'.entries[m].rows.audio.value;
      AudioKeyOf(row') == AudioKeyOf(row) && row'.provider == row.provider
  {
  }

  // A narration that is generated later was finishable all along.
  lemma GeneratedWasFinishable(env: Env, run: Run, i: nat, j: nat, m: string)
    requires EnvOk(env) && IsRun(env, run) && i <= j < |run.states| && AudioRow(run.states[i], m).Some?
    requires AudioRow(run.states[j], m).Some? && AudioRow(run.states[j], m).value.status.Generated?
    ensures Finishable(run.states[i].world.files, AudioRow(run.states[i], m).value)
  {
    hide Apply;
    var g, g' := run.states[i].world, run.states[j].world;
    RunEntry(env, run, j, m);
    GeneratedFile(env, g', m);
    RunEntryEvolves(env, run, i, j, m);
    SameKeyLater(env, g, g', m);
    var target := TargetForKey(AudioKeyOf(AudioRow(run.states[i], m).value)).value;
    RunWorldEvolves(env, run, i, j);
    if target !in g.files {
      RunWorldEvolves(env, run, 0, i);
      RunWorld(env, run, j);
      AudioFileOrigin(env, g', m);
      if g'.origins[target] == Preexisting { OnlyInitialPreexist(env, run, j, target); }
    }
  }

  // Exactly the finishable narrations can be finished from where they stand.
  lemma NarrationRecoverableIff(env: Env, run: Run, m: string)
    requires EnvOk(env) && IsRun(env, run) && AudioRow(Last(run), m).Some?
    requires !AudioRow(Last(run), m).value.status.Generated?
    ensures (exists finished :: Finishes(env, run, finished, m))
      <==> Finishable(Last(run).world.files, AudioRow(Last(run), m).value)
  {
    hide Apply;
    if finished :| Finishes(env, run, finished, m) {
      assert finished.states[|run.steps|] == Last(run);
      GeneratedWasFinishable(env, finished, |run.steps|, |finished.steps|, m);
    }
    if Finishable(Last(run).world.files, AudioRow(Last(run), m).value) {
      var finished := NarrationAlwaysRecoverable(env, run, m, [1]);
      assert Finishes(env, run, finished, m);
    }
  }
}
