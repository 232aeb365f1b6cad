// Where a published video comes from: the bytes it was rendered from, the text they were spoken from, and
// the gates the article passed; and why the workers' own mismatch guards never fire.

module Provenance {
  import opened Wrappers
  import opened Text
  import opened StorageKeys
  import opened FileStorage
  import opened MediaTransactions
  import opened MediaInvariants
  import opened MediaProtocol
  import opened ProtocolInvariants
  import opened ProtocolProof
  import opened RunHistory
  import Media = MediaProductions
  import Audio = NarrationAudios
  import Video = VideoGenerations
  import Script = ScriptGenerations
  import Relevance = RelevanceAnalyses
  import AudioTable = AudioRepository
  import VideoTable = VideoRepository
  import NewsGate

  // ---- From the script to the video file ----

  // The file of a video attempt, unless it was there before the run, was rendered by that attempt from the
  // canonical audio bytes.
  lemma VideoFileOrigin(env: Env, g: World, m: string, attempt: nat)
    requires WorldOk(env, g) && VideoPath(m, SCHEDULED_VERSION, attempt) in g.files && !Foreign(g, m, attempt)
    ensures m in g.entries && AudioIs(g.entries[m].rows, Audio.Generated)
    ensures VideoPath(m, SCHEDULED_VERSION, attempt) in g.origins
    ensures g.origins[VideoPath(m, SCHEDULED_VERSION, attempt)]
      == Rendered(m, attempt, SourceBytes(g.files, g.entries[m].rows.audio.value))
  {
    var p := VideoPath(m, SCHEDULED_VERSION, attempt);
    assert OriginOk(env, g, p);
    if g.origins[p].Rendered? {
      VideoPathInjective(m, SCHEDULED_VERSION, attempt, g.origins[p].media, SCHEDULED_VERSION, g.origins[p].attempt);
    }
  }

  // A file that was not there at the start was written by a worker.
  lemma StepOrigins(env: Env, t: State, step: Step, p: Path)
    requires EnvOk(env) && Inv(env, t) && p !in t.world.origins && p in Apply(env, t, step).world.origins
    ensures Apply(env, t, step).world.origins[p] != Preexisting
  {
    if !IsScheduling(step) && !step.StartAudio? && !step.StartVideo? && step.worker in t.workers {
      assert WorkerOk(env, t.world, t.workers[step.worker]);
      LinkedOrigin(env, t, step.worker, step, p);
    }
  }

  lemma LinkedOrigin(env: Env, t: State, w: nat, step: Step, p: Path)
    requires w in t.workers && WorkerOk(env, t.world, t.workers[w])
    requires p !in t.world.origins && p in Work(env, t, w, step).world.origins
    ensures Work(env, t, w, step).world.origins[p] != Preexisting
  {
    OnlyLinksAddFiles(env, t, w, step, p);
    if t.workers[w].pc.Linking? { PayloadOrigin(env, t.world, t.workers[w]); }
  }

  lemma OnlyLinksAddFiles(env: Env, t: State, w: nat, step: Step, p: Path)
    requires w in t.workers
    requires p !in t.world.origins && p in Work(env, t, w, step).world.origins
    ensures t.workers[w].pc.Linking? && Work(env, t, w, step).world.origins[p] == t.workers[w].pc.payload.origin
  {
  }

  lemma PayloadOrigin(env: Env, g: World, k: Worker)
    requires WorkerOk(env, g, k) && k.pc.Linking?
    ensures k.pc.payload.origin != Preexisting
  {
  }

  lemma {:induction false} OnlyInitialPreexist(env: Env, run: Run, i: nat, p: Path)
    requires EnvOk(env) && IsRun(env, run) && i < |run.states|
    requires p in run.states[i].world.origins && run.states[i].world.origins[p] == Preexisting
    ensures p in run.states[0].world.files
  {
    hide Apply;
    if i > 0 {
      RunWorldEvolves(env, run, i - 1, i);
      if p in run.states[i - 1].world.origins { OnlyInitialPreexist(env, run, i - 1, p); }
      else { RunStepOrigins(env, run, i - 1, p); }
    }
  }

  lemma RunStepOrigins(env: Env, run: Run, i: nat, p: Path)
    requires EnvOk(env) && IsRun(env, run) && i < |run.steps|
    requires p !in run.states[i].world.origins && p in run.states[i + 1].world.origins
    ensures run.states[i + 1].world.origins[p] != Preexisting
  {
    RunKeeps(env, run, i);
    assert StepAt(env, run, i);
    StepOrigins(env, run.states[i], run.steps[i], p);
  }

  lemma NotForeign(env: Env, run: Run, i: nat, m: string, attempt: nat)
    requires EnvOk(env) && IsRun(env, run) && i < |run.states|
    requires VideoPath(m, SCHEDULED_VERSION, attempt) !in run.states[0].world.files
    ensures !Foreign(run.states[i].world, m, attempt)
  {
    hide Apply;
    if Foreign(run.states[i].world, m, attempt) {
      OnlyInitialPreexist(env, run, i, VideoPath(m, SCHEDULED_VERSION, attempt));
    }
  }

  // What the world says of a generated video.
  ghost predicate Traced(env: Env, g: World, m: string, narration: string, audioData: Bytes, videoData: Bytes) {
    && m in g.entries && AudioIs(g.entries[m].rows, Audio.Generated) && VideoIs(g.entries[m].rows, Video.Generated)
    && var audio, video := g.entries[m].rows.audio.value, g.entries[m].rows.video.value;
    // the script
    && ScriptReady(g, m) && narration == Strip(ScriptOf(g, m).value.fullNarration.value) && narration != ""
    && audio.sourceTextSha256 == env.textDigest(narration)
    // the audio
    && TargetForKey(AudioKeyOf(audio)).Ok? && TargetForKey(AudioKeyOf(audio)).value in g.files
    && g.files[TargetForKey(AudioKeyOf(audio)).value] == audioData
    && audio.contentSha256 == Some(env.digest(audioData))
    && video.sourceAudioGenerationId == audio.audioGenerationId && video.sourceAudioSha256 == env.digest(audioData)
    // the video
    && var path := VideoPath(m, SCHEDULED_VERSION, AsNat(video.attemptCount));
    && path in g.files && g.files[path] == videoData && video.contentSha256 == Some(env.digest(videoData))
  }

  lemma TracedNow(env: Env, g: World, m: string)
    requires WorldOk(env, g) && m in g.entries && VideoIs(g.entries[m].rows, Video.Generated)
    ensures ScriptReady(g, m)
    ensures var rows := g.entries[m].rows;
      && rows.audio.Some?
      && VideoPath(m, SCHEDULED_VERSION, AsNat(rows.video.value.attemptCount)) in g.files
      && Traced(env, g, m, NarrationOf(ScriptOf(g, m).value), SourceBytes(g.files, rows.audio.value),
                g.files[VideoPath(m, SCHEDULED_VERSION, AsNat(rows.video.value.attemptCount))])
  {
    assert EntryOk(env, g, m);
    var video := g.entries[m].rows.video.value;
    TargetOfVideoKey(m, SCHEDULED_VERSION, AsNat(video.attemptCount));
    NarrationIsThere(ScriptOf(g, m).value);
    SourceIsStored(env, g, m);
    SourceTarget(env, g, m);
  }

  lemma NarrationIsThere(script: Script.ScriptGeneration)
    requires Script.Valid(script) && script.status.Generated?
    ensures script.fullNarration.Some? && Strip(script.fullNarration.value) == script.fullNarration.value != ""
  {
    StripIsNormal(script.fullNarration.value);
  }

  lemma SourceTarget(env: Env, g: World, m: string)
    requires EntryOk(env, g, m) && m in g.entries && AudioIs(g.entries[m].rows, Audio.Generated)
    ensures var a := g.entries[m].rows.audio.value;
      TargetForKey(AudioKeyOf(a)).Ok? && TargetForKey(AudioKeyOf(a)).value in g.files
  {
  }

  // Every generated video of every run was rendered, in its own attempt, from the stored canonical audio, whose
  // record carries the digest of the script's narration; and that audio was synthesised from exactly that
  // narration. The files' own part of this is only as good as the store: it leaves out a file that lay at the
  // same place before the run.
  lemma VideoIsTraced(env: Env, run: Run, i: nat, m: string)
    requires EnvOk(env) && IsRun(env, run) && i < |run.states|
    requires VideoRow(run.states[i], m).Some? && VideoRow(run.states[i], m).value.status.Generated?
    ensures exists narration, audioData, videoData ::
      Traced(env, run.states[i].world, m, narration, audioData, videoData)
    ensures var g, initial := run.states[i].world, run.states[0].world.files;
      var target := TargetForKey(AudioKeyOf(AudioRow(run.states[i], m).value));
      && target.Ok? && target.value in g.origins
      && (target.value in initial || g.origins[target.value] == Synthesised(NarrationOf(ScriptOf(g, m).value)))
    ensures var g, initial := run.states[i].world, run.states[0].world.files;
      var attempt := AsNat(VideoRow(run.states[i], m).value.attemptCount);
      var path := VideoPath(m, SCHEDULED_VERSION, attempt);
      && path in g.origins
      && (path in initial
          || g.origins[path] == Rendered(m, attempt, SourceBytes(g.files, AudioRow(run.states[i], m).value)))
  {
    hide Apply;
    RunWorld(env, run, i);
    var g := run.states[i].world;
    TracedNow(env, g, m);
    AudioFileOrigin(env, g, m);
    var target := TargetForKey(AudioKeyOf(g.entries[m].rows.audio.value)).value;
    if g.origins[target] == Preexisting { OnlyInitialPreexist(env, run, i, target); }
    VideoOrigin(env, run, i, m);
  }

  lemma VideoOrigin(env: Env, run: Run, i: nat, m: string)
    requires EnvOk(env) && IsRun(env, run) && i < |run.states| && AudioRow(run.states[i], m).Some?
    requires VideoRow(run.states[i], m).Some?
    requires VideoPath(m, SCHEDULED_VERSION,
                       AsNat(VideoRow(run.states[i], m).value.attemptCount)) in run.states[i].world.files
    ensures var g, attempt := run.states[i].world, AsNat(VideoRow(run.states[i], m).value.attemptCount);
      var path := VideoPath(m, SCHEDULED_VERSION, attempt);
      && path in g.origins
      && (path in run.states[0].world.files
          || g.origins[path] == Rendered(m, attempt, SourceBytes(g.files, AudioRow(run.states[i], m).value)))
  {
    hide Apply;
    RunWorld(env, run, i);
    var attempt := AsNat(VideoRow(run.states[i], m).value.attemptCount);
    if VideoPath(m, SCHEDULED_VERSION, attempt) !in run.states[0].world.files {
      NotForeign(env, run, i, m, attempt);
      VideoFileOrigin(env, run.states[i].world, m, attempt);
    }
  }

  lemma AudioFileOrigin(env: Env, g: World, m: string)
    requires WorldOk(env, g) && m in g.entries && AudioIs(g.entries[m].rows, Audio.Generated)
    ensures ScriptReady(g, m)
    ensures var target := TargetForKey(AudioKeyOf(g.entries[m].rows.audio.value));
      && target.Ok? && target.value in g.origins
      && (g.origins[target.value] == Preexisting
          || (g.origins[target.value] == Synthesised(NarrationOf(ScriptOf(g, m).value))
              && g.entries[m].rows.audio.value.provider == "openai"))
  {
    assert EntryOk(env, g, m);
    var a := g.entries[m].rows.audio.value;
    SourceTarget(env, g, m);
    AudioTargetPlace(m, AsNat(a.audioVersion), a.audioFormat);
    assert OriginOk(env, g, TargetForKey(AudioKeyOf(a)).value);
  }

  // ---- The guards of the claim transactions ----

  // What a claim of the audio does in any reachable state: none of the guards on the parent, the script, the
  // narration or its digest can stop it. Only a missing row can, or a clock behind the parent's own creation.
  lemma AudioClaimOutcome(env: Env, run: Run, i: nat, m: string, at: int)
    requires EnvOk(env) && IsRun(env, run) && i < |run.states| && m in run.states[i].world.entries
    ensures var g := run.states[i].world;
      var rows, script := g.entries[m].rows, ScriptOf(g, m);
      var tx := ClaimAudio(env, script, rows, at);
      if rows.audio.None? then tx == Abort(NotFound)
      else if rows.audio.value.status.Generated? then tx == Commit(rows, AudioAlreadyGenerated)
      else if !AudioTable.Claimable(rows.audio.value, at, Some(at - env.timeout)) then
        tx == Commit(rows, AudioNotClaimed(rows.audio.value.status))
      else if rows.audio.value.status.Pending? && at < rows.media.updatedAt then tx == Abort(Domain(InvalidData))
      else tx.Commit? && script.Some?
           && tx.value == AudioClaimed(AudioTable.ClaimedRow(rows.audio.value, at), NarrationOf(script.value))
  {
    hide Apply;
    RunEntry(env, run, i, m);
    AudioClaimOf(env, run.states[i].world, m, at);
  }

  lemma AudioClaimOf(env: Env, g: World, m: string, at: int)
    requires EntryOk(env, g, m) && m in g.entries
    ensures var rows, script := g.entries[m].rows, ScriptOf(g, m);
      var tx := ClaimAudio(env, script, rows, at);
      if rows.audio.None? then tx == Abort(NotFound)
      else if rows.audio.value.status.Generated? then tx == Commit(rows, AudioAlreadyGenerated)
      else if !AudioTable.Claimable(rows.audio.value, at, Some(at - env.timeout)) then
        tx == Commit(rows, AudioNotClaimed(rows.audio.value.status))
      else if rows.audio.value.status.Pending? && at < rows.media.updatedAt then tx == Abort(Domain(InvalidData))
      else tx.Commit? && script.Some?
           && tx.value == AudioClaimed(AudioTable.ClaimedRow(rows.audio.value, at), NarrationOf(script.value))
  {
    NarrationIsThere(ScriptOf(g, m).value);
    Media.StartSpec(g.entries[m].rows.media, at);
  }

  // A claim of the video is refused by no guard at all: it finds the row missing, generated or not claimable,
  // or it claims.
  lemma VideoClaimOutcome(env: Env, run: Run, i: nat, m: string, expected: int, at: int)
    requires EnvOk(env) && IsRun(env, run) && i < |run.states| && m in run.states[i].world.entries && expected >= 1
    ensures var rows := run.states[i].world.entries[m].rows;
      var tx := ClaimVideo(env, rows, expected, at);
      if rows.video.None? then tx == Abort(NotFound)
      else if rows.video.value.status.Generated? then tx == Commit(rows, VideoAlreadyGenerated)
      else if !VideoTable.Claimable(rows.video.value, at, Some(at - env.timeout), Some(expected)) then
        tx == Commit(rows, VideoNotClaimed)
      else tx.Commit? && rows.audio.Some?
           && tx.value == VideoClaimed(VideoTable.ClaimedRow(rows.video.value, at), rows.audio.value)
  {
    hide Apply;
    RunEntry(env, run, i, m);
    VideoClaimOf(env, run.states[i].world, m, expected, at);
  }

  lemma VideoClaimOf(env: Env, g: World, m: string, expected: int, at: int)
    requires EntryOk(env, g, m) && m in g.entries && expected >= 1
    ensures var rows := g.entries[m].rows;
      var tx := ClaimVideo(env, rows, expected, at);
      if rows.video.None? then tx == Abort(NotFound)
      else if rows.video.value.status.Generated? then tx == Commit(rows, VideoAlreadyGenerated)
      else if !VideoTable.Claimable(rows.video.value, at, Some(at - env.timeout), Some(expected)) then
        tx == Commit(rows, VideoNotClaimed)
      else tx.Commit? && rows.audio.Some?
           && tx.value == VideoClaimed(VideoTable.ClaimedRow(rows.video.value, at), rows.audio.value)
  {
    Media.StartSpec(g.entries[m].rows.media, at);
  }

  // The renderer's checks of the claim, the source record and the source bytes never fail in a run.
  lemma SourceGuardsNeverFire(env: Env, run: Run, i: nat, w: nat)
    requires EnvOk(env) && IsRun(env, run) && i < |run.states|
    requires w in run.states[i].workers && run.states[i].workers[w].task.VideoTask?
    ensures var t := run.states[i];
      SourceRead(env, t.world.files, t.workers[w]) ==
        if t.workers[w].task.video.renderer != "ffmpeg" then Failing(UnsupportedTool)
        else Rendering(SourceBytes(t.world.files, t.workers[w].task.source))
  {
    hide Apply;
    RunWorker(env, run, i, w);
    var t := run.states[i];
    SourceReadSpec(env, t.world, t.workers[w]);
  }

  // ---- From the article to the media production ----

  // Every media production of every run, in particular every generated video, belongs to an article with
  // usable metadata, a title, a publication time, a relevance score of at least 40, a finished priority
  // analysis and a generated script.
  lemma OnlyGatedArticles(env: Env, run: Run, i: nat, m: string)
    requires EnvOk(env) && IsRun(env, run) && i < |run.states| && m in run.states[i].world.entries
    ensures var g := run.states[i].world;
      && g.entries[m].rows.media.scriptGenerationId in g.news.scripts
      && var script := g.news.scripts[g.entries[m].rows.media.scriptGenerationId];
      && script.status.Generated? && script.intakeId in g.news.metadata
      && script.intakeId in g.news.relevance && script.intakeId in g.news.priority
      && var metadata, relevance, priority := g.news.metadata[script.intakeId], g.news.relevance[script.intakeId],
                                              g.news.priority[script.intakeId];
      && (metadata.status.Extracted? || metadata.status.Manual?) && metadata.title.Some? && metadata.publishedAt.Some?
      && relevance.status.Analyzed? && relevance.relevanceScore.Some? && 40 <= relevance.relevanceScore.value <= 100
      && priority.status.Analyzed? && priority.priorityScore.Some?
  {
    hide Apply;
    RunWorld(env, run, i);
    var g := run.states[i].world;
    assert EntryOk(env, g, m);
    GatedScript(g.news, g.entries[m].rows.media.scriptGenerationId);
  }

  lemma GatedScript(n: NewsGate.News, id: string)
    requires NewsGate.NewsOk(n) && id in n.scripts
    ensures var i := n.scripts[id].intakeId;
      && NewsGate.MetadataReady(n, i) && n.metadata[i].publishedAt.Some? && NewsGate.PriorityReady(n, i)
      && i in n.relevance && n.relevance[i].status.Analyzed? && n.relevance[i].relevanceScore.Some?
      && 40 <= n.relevance[i].relevanceScore.value <= 100
  {
    assert NewsGate.ScriptOk(n, id);
    var i := n.scripts[id].intakeId;
    assert NewsGate.RelevanceOk(n, i);
    NewsGate.EligibleIff(n.relevance[i].relevanceScore.value);
  }

  // Once an article is rejected, no later state of the run holds a priority analysis, a script or a media
  // production for it.
  lemma NothingForRejected(env: Env, run: Run, i: nat, j: nat, intakeId: string)
    requires EnvOk(env) && IsRun(env, run) && i <= j < |run.states|
    requires var n := run.states[i].world.news;
      && intakeId in n.relevance && n.relevance[intakeId].status.Analyzed?
      && n.relevance[intakeId].decision == Some(Relevance.Rejected)
    ensures var g := run.states[j].world;
      && intakeId !in g.news.priority
      && (forall id :: id in g.news.scripts ==> g.news.scripts[id].intakeId != intakeId)
      && (forall m :: m in g.entries ==>
            && g.entries[m].rows.media.scriptGenerationId in g.news.scripts
            && g.news.scripts[g.entries[m].rows.media.scriptGenerationId].intakeId != intakeId)
  {
    hide Apply;
    RunWorldEvolves(env, run, i, j);
    RunWorld(env, run, j);
    var g := run.states[j].world;
    RejectedStays(run.states[i].world.news, g.news, intakeId);
    forall m | m in g.entries ensures g.entries[m].rows.media.scriptGenerationId in g.news.scripts {
      OnlyGatedArticles(env, run, j, m);
    }
  }

  lemma RejectedStays(n: NewsGate.News, n': NewsGate.News, i: string)
    requires NewsGate.NewsOk(n') && NewsGate.NewsEvolves(n, n')
    requires i in n.relevance && n.relevance[i].status.Analyzed? && n.relevance[i].decision == Some(Relevance.Rejected)
    ensures i !in n'.priority && forall id :: id in n'.scripts ==> n'.scripts[id].intakeId != i
  {
    assert n'.relevance[i] == n.relevance[i];
    forall id | id in n'.scripts ensures n'.scripts[id].intakeId != i {
      assert NewsGate.ScriptOk(n', id);
    }
  }
}
