// Every step of the media pipeline keeps the invariant and guarantees the two-state relation.

module ProtocolProof {
  import opened Wrappers
  import opened Text
  import opened StorageKeys
  import opened FileStorage
  import opened MediaTransactions
  import opened MediaInvariants
  import opened MediaProtocol
  import opened ProtocolInvariants
  import Media = MediaProductions
  import Audio = NarrationAudios
  import Video = VideoGenerations
  import VideoTable = VideoRepository
  import NewsGate

  // ---- Frames: how the world may change ----

  // A production whose rows did not change stays good in any later world.
  lemma EntryStands(env: Env, g: World, g': World, m: string)
    requires WorldEvolves(g, g') && EntryOk(env, g, m)
    requires m in g.entries && m in g'.entries && g'.entries[m] == g.entries[m]
    ensures EntryOk(env, g', m)
  {
    ScriptReadyStands(g, g', m);
    FilesAgreeStands(env, g.files, g'.files, g.entries[m].rows);
  }

  lemma FilesAgreeStands(env: Env, files: Files, files': Files, rows: Rows)
    requires FilesAgree(env, files, rows) && Preserves(files, files')
    ensures FilesAgree(env, files', rows)
  {
  }

  lemma FilesStand(env: Env, g: World, g': World)
    requires WorldOk(env, g) && WorldEvolves(g, g') && g'.files == g.files && g'.origins == g.origins
    ensures FilesOk(env, g')
  {
    forall p ensures OriginOk(env, g', p) {
      assert OriginOk(env, g, p);
      if p in g.origins { OriginStands(env, g, g', p); }
    }
  }

  // A transaction changes the rows of one production.
  lemma RowsWorldEvolves(g: World, m: string, rows: Rows)
    requires m in g.entries && RowsEvolve(g.entries[m].rows, rows)
    ensures WorldEvolves(g, WithRows(g, m, rows))
  {
    var g' := WithRows(g, m, rows);
    forall n ensures EntryEvolves(g, g', n) {
      if n in g.entries && n != m { RowsReflexive(g.entries[n].rows); }
    }
  }

  lemma RowsWorld(env: Env, g: World, m: string, rows: Rows)
    requires WorldOk(env, g) && m in g.entries && ScriptReady(g, m)
    requires Kept(env, ScriptOf(g, m).value, m, g.entries[m].rows, rows, g.entries[m].audioLedger,
                  g.entries[m].videoLedger)
    requires FilesAgree(env, g.files, rows)
    ensures WorldOk(env, WithRows(g, m, rows)) && WorldEvolves(g, WithRows(g, m, rows))
  {
    var g' := WithRows(g, m, rows);
    RowsWorldEvolves(g, m, rows);
    FilesStand(env, g, g');
    forall n ensures EntryOk(env, g', n) {
      assert EntryOk(env, g, n);
      if n == m { ScriptReadyStands(g, g', m); }
      else if n in g.entries { EntryStands(env, g, g', n); }
    }
  }

  lemma NewsWorld(env: Env, g: World, news: NewsGate.News)
    requires WorldOk(env, g) && NewsGate.NewsOk(news) && NewsGate.NewsEvolves(g.news, news)
    ensures WorldOk(env, g.(news := news)) && WorldEvolves(g, g.(news := news))
  {
    var g' := g.(news := news);
    forall n ensures EntryEvolves(g, g', n) {
      if n in g.entries { RowsReflexive(g.entries[n].rows); }
    }
    assert WorldEvolves(g, g');
    FilesStand(env, g, g');
    forall n ensures EntryOk(env, g', n) {
      assert EntryOk(env, g, n);
      if n in g.entries { EntryStands(env, g, g', n); }
    }
  }

  lemma NewEntryWorld(env: Env, g: World, m: string, e: Entry)
    requires WorldOk(env, g) && m !in g.entries
    requires EntryOk(env, g.(entries := g.entries[m := e]), m)
    ensures var g' := g.(entries := g.entries[m := e]); WorldOk(env, g') && WorldEvolves(g, g')
  {
    var g' := g.(entries := g.entries[m := e]);
    forall n ensures EntryEvolves(g, g', n) {
      if n in g.entries { RowsReflexive(g.entries[n].rows); }
    }
    assert WorldEvolves(g, g');
    FilesStand(env, g, g');
    forall n ensures EntryOk(env, g', n) {
      assert EntryOk(env, g, n);
      if n in g.entries { EntryStands(env, g, g', n); }
    }
  }

  // A link adds one file.
  lemma FileWorld(env: Env, g: World, target: Path, data: Bytes, origin: Origin)
    requires WorldOk(env, g) && target !in g.files
    requires OriginOk(env, WithFile(g, target, data, origin), target) && origin != Preexisting
    ensures var g' := WithFile(g, target, data, origin); WorldOk(env, g') && WorldEvolves(g, g')
  {
    var g' := WithFile(g, target, data, origin);
    assert target !in g.origins;
    forall n ensures EntryEvolves(g, g', n) {
      if n in g.entries { RowsReflexive(g.entries[n].rows); }
    }
    assert WorldEvolves(g, g');
    forall p ensures OriginOk(env, g', p) {
      assert OriginOk(env, g, p);
      if p in g.origins { OriginStands(env, g, g', p); }
    }
    forall n ensures EntryOk(env, g', n) {
      assert EntryOk(env, g, n);
      if n in g.entries { EntryStands(env, g, g', n); }
    }
  }

  // ---- Frames: how the workers may change ----

  // The world moves on under all workers.
  lemma WorldStep(env: Env, s: State, g: World)
    requires Inv(env, s) && WorldOk(env, g) && WorldEvolves(s.world, g) && g.files == s.world.files
    ensures Inv(env, s.(world := g)) && Evolves(s, s.(world := g))
  {
    var s' := s.(world := g);
    forall v | v in s.workers ensures WorkerOk(env, g, s.workers[v]) {
      assert EntryOk(env, s.world, s.workers[v].media);
      WorkerStands(env, s.world, g, s.workers[v]);
    }
    forall v ensures TargetFree(s', v) { assert TargetFree(s, v); }
    forall v, u ensures ClaimsDiffer(s', v, u) { assert ClaimsDiffer(s, v, u); }
  }

  // One worker moves and touches nothing else.
  lemma PcStep(env: Env, s: State, w: nat, pc: Pc)
    requires Inv(env, s) && w in s.workers && !s.workers[w].pc.Done?
    requires WorkerOk(env, s.world, s.workers[w].(pc := pc))
    requires PlaceFree(s.world, s.workers[w].(pc := pc))
    ensures Inv(env, At(s, w, pc)) && Evolves(s, At(s, w, pc))
  {
    PcWorkers(env, s, w, pc);
    PcClaims(env, s, w, pc);
    WorldReflexive(s.world);
  }

  lemma PcWorkers(env: Env, s: State, w: nat, pc: Pc)
    requires forall v :: v in s.workers ==> WorkerOk(env, s.world, s.workers[v])
    requires w in s.workers && WorkerOk(env, s.world, s.workers[w].(pc := pc))
    ensures forall v :: v in s.workers ==> WorkerOk(env, s.world, At(s, w, pc).workers[v])
  {
  }

  lemma PcClaims(env: Env, s: State, w: nat, pc: Pc)
    requires w in s.workers && !s.workers[w].pc.Done?
    requires PlaceFree(s.world, s.workers[w].(pc := pc))
    requires (forall v :: TargetFree(s, v)) && (forall v, u :: ClaimsDiffer(s, v, u))
    ensures (forall v :: TargetFree(At(s, w, pc), v)) && (forall v, u :: ClaimsDiffer(At(s, w, pc), v, u))
    ensures forall v :: WorkerEvolves(s, At(s, w, pc), v)
  {
    forall v ensures TargetFree(At(s, w, pc), v) { assert TargetFree(s, v); }
    forall v, u ensures ClaimsDiffer(At(s, w, pc), v, u) { assert ClaimsDiffer(s, v, u); }
  }

  // A transaction and the move of the worker that ran it are one step.
  lemma TxStep(env: Env, s: State, w: nat, g: World, pc: Pc)
    requires Inv(env, s) && w in s.workers && !s.workers[w].pc.Done?
    requires WorldOk(env, g) && WorldEvolves(s.world, g) && g.files == s.world.files
    requires WorkerOk(env, g, s.workers[w].(pc := pc)) && !BeforeLink(s.workers[w].(pc := pc))
    ensures var s' := At(s.(world := g), w, pc); Inv(env, s') && Evolves(s, s')
  {
    var mid := s.(world := g);
    WorldStep(env, s, g);
    PcStep(env, mid, w, pc);
    EvolvesTransitive(s, mid, At(mid, w, pc));
  }

  // A new worker enters with a claim no other worker holds.
  lemma NewWorker(env: Env, s: State, w: nat, k: Worker)
    requires Inv(env, s) && w !in s.workers && WorkerOk(env, s.world, k)
    requires forall v :: v in s.workers ==> !SameClaim(k, s.workers[v])
    requires PlaceFree(s.world, k)
    ensures var s' := s.(workers := s.workers[w := k]); Inv(env, s') && Evolves(s, s')
  {
    WorldReflexive(s.world);
    NewWorkerClaims(s, w, k);
  }

  lemma NewWorkerClaims(s: State, w: nat, k: Worker)
    requires w !in s.workers
    requires (forall v :: TargetFree(s, v)) && (forall v, u :: ClaimsDiffer(s, v, u))
    requires forall v :: v in s.workers ==> !SameClaim(k, s.workers[v])
    requires PlaceFree(s.world, k)
    ensures var s' := s.(workers := s.workers[w := k]);
      (forall v :: TargetFree(s', v)) && (forall v, u :: ClaimsDiffer(s', v, u))
        && (forall v :: WorkerEvolves(s, s', v))
  {
    var s' := s.(workers := s.workers[w := k]);
    forall v ensures TargetFree(s', v) { assert TargetFree(s, v); }
    forall v, u ensures ClaimsDiffer(s', v, u) { assert ClaimsDiffer(s, v, u); }
  }

  lemma ClaimStep(env: Env, s: State, w: nat, g: World, k: Worker)
    requires Inv(env, s) && w !in s.workers
    requires WorldOk(env, g) && WorldEvolves(s.world, g) && g.files == s.world.files
    requires WorkerOk(env, g, k)
    requires forall v :: v in s.workers ==> !SameClaim(k, s.workers[v])
    requires PlaceFree(s.world, k)
    ensures var s' := State(g, s.workers[w := k]); Inv(env, s') && Evolves(s, s')
  {
    var mid := s.(world := g);
    WorldStep(env, s, g);
    NewWorker(env, mid, w, k);
    EvolvesTransitive(s, mid, State(g, s.workers[w := k]));
  }

  lemma Stutter(s: State)
    ensures Evolves(s, s)
  {
    WorldReflexive(s.world);
  }

  // ---- Intake, preparation and the stages before ----

  lemma CreateMediaWorld(env: Env, g: World, m: string, scriptId: string, mediaVersion: int, at: int)
    requires EnvOk(env) && WorldOk(env, g)
    ensures var g' := DoCreateMedia(g, m, scriptId, mediaVersion, at);
      WorldOk(env, g') && WorldEvolves(g, g') && g'.files == g.files
  {
    WorldReflexive(g);
    var g' := DoCreateMedia(g, m, scriptId, mediaVersion, at);
    if g' != g {
      var media := Media.NewPending(m, scriptId, mediaVersion, at).value;
      NewMediaOk(env, g, m, media, scriptId, mediaVersion, at);
      NewEntryWorld(env, g, m, Entry(Rows(media, None, None), NO_ATTEMPTS, NO_ATTEMPTS));
    }
  }

  lemma NewMediaOk(env: Env, g: World, m: string, media: Media.MediaProduction, scriptId: string, mediaVersion: int,
                   at: int)
    requires WorldOk(env, g) && IsUuid(m) && scriptId in g.news.scripts && IntakeEligible(g.news.scripts[scriptId])
    requires Media.NewPending(m, scriptId, mediaVersion, at) == Ok(media)
    ensures EntryOk(env, g.(entries := g.entries[m := Entry(Rows(media, None, None), NO_ATTEMPTS, NO_ATTEMPTS)]), m)
  {
    Media.PostInitSpec(Media.MediaProduction(m, scriptId, mediaVersion, Media.Pending, 0, None, at, None, None, at));
    assert NewsGate.ScriptOk(g.news, scriptId);
  }

  lemma PreparedWorld(env: Env, g: World, m: string, tx: Tx<Option<Job>>)
    requires WorldOk(env, g) && m in g.entries && ScriptReady(g, m)
    requires var e := g.entries[m];
      tx.Commit? ==>
        && Kept(env, ScriptOf(g, m).value, m, e.rows, tx.rows, e.audioLedger, e.videoLedger)
        && (|| tx.rows == e.rows
            || (tx.rows == e.rows.(audio := tx.rows.audio) && AudioIs(tx.rows, Audio.Pending))
            || (tx.rows == e.rows.(video := tx.rows.video) && VideoIs(tx.rows, Video.Pending)))
    ensures var g' := Prepared(g, m, tx); WorldOk(env, g') && WorldEvolves(g, g') && g'.files == g.files
  {
    WorldReflexive(g);
    assert EntryOk(env, g, m);
    if tx.Commit? { RowsWorld(env, g, m, tx.rows); }
  }

  lemma PrepareAudioRows(env: Env, g: World, step: Step)
    requires EnvOk(env) && step.PrepareAudioJob? && step.media in g.entries && EntryOk(env, g, step.media)
    ensures ScriptReady(g, step.media)
    ensures var e, script := g.entries[step.media], ScriptOf(g, step.media).value;
      var tx := PrepareAudio(env, script, e.rows, step.newId, step.provider, step.model, step.voice, step.audioFormat,
                             step.staleBefore, step.at);
      && DoPrepareAudio(env, g, step) == Prepared(g, step.media, tx)
      && (tx.Commit? ==>
            && Kept(env, script, step.media, e.rows, tx.rows, e.audioLedger, e.videoLedger)
            && (tx.rows == e.rows
                || (tx.rows == e.rows.(audio := tx.rows.audio) && AudioIs(tx.rows, Audio.Pending))))
  {
    var e, script := g.entries[step.media], ScriptOf(g, step.media).value;
    PrepareAudioKeeps(env, script, step.media, e.rows, step.newId, step.provider, step.model, step.voice,
                      step.audioFormat, step.staleBefore, step.at, e.audioLedger, e.videoLedger);
  }

  lemma PrepareAudioWorld(env: Env, g: World, step: Step)
    requires EnvOk(env) && WorldOk(env, g) && step.PrepareAudioJob?
    ensures var g' := DoPrepareAudio(env, g, step);
      WorldOk(env, g') && WorldEvolves(g, g') && g'.files == g.files
  {
    WorldReflexive(g);
    var m := step.media;
    assert EntryOk(env, g, m);
    if m in g.entries {
      PrepareAudioRows(env, g, step);
      PreparedWorld(env, g, m, PrepareAudio(env, ScriptOf(g, m).value, g.entries[m].rows, step.newId, step.provider,
                                            step.model, step.voice, step.audioFormat, step.staleBefore, step.at));
    }
  }

  lemma PrepareVideoWorld(env: Env, g: World, m: string, newId: string, settings: RenderSettings, staleBefore: int,
                          at: int)
    requires EnvOk(env) && WorldOk(env, g)
    ensures var g' := DoPrepareVideo(g, m, newId, settings, staleBefore, at);
      WorldOk(env, g') && WorldEvolves(g, g') && g'.files == g.files
  {
    WorldReflexive(g);
    assert EntryOk(env, g, m);
    if m in g.entries {
      var e := g.entries[m];
      PrepareVideoKeeps(env, ScriptOf(g, m).value, m, e.rows, newId, settings, staleBefore, at, e.audioLedger,
                        e.videoLedger);
      PreparedWorld(env, g, m, PrepareVideo(e.rows, newId, settings, staleBefore, at));
    }
  }

  lemma ChangeNewsWorld(env: Env, g: World, news: NewsGate.Step)
    requires WorldOk(env, g)
    ensures var g' := g.(news := NewsGate.Apply(g.news, news)); WorldOk(env, g') && WorldEvolves(g, g')
  {
    NewsGate.StepKeeps(g.news, news);
    NewsWorld(env, g, NewsGate.Apply(g.news, news));
  }

  lemma ScheduledWorld(env: Env, g: World, step: Step)
    requires EnvOk(env) && WorldOk(env, g) && IsScheduling(step)
    ensures var g' := Scheduled(env, g, step); WorldOk(env, g') && WorldEvolves(g, g') && g'.files == g.files
  {
    match step
    case ChangeNews(news) => ChangeNewsWorld(env, g, news);
    case CreateMedia(m, scriptId, mediaVersion, at) => CreateMediaWorld(env, g, m, scriptId, mediaVersion, at);
    case PrepareAudioJob(_, _, _, _, _, _, _, _) => PrepareAudioWorld(env, g, step);
    case PrepareVideoJob(m, newId, settings, staleBefore, at) =>
      PrepareVideoWorld(env, g, m, newId, settings, staleBefore, at);
  }

  // ---- Claims ----

  lemma AudioClaimRows(env: Env, g: World, m: string, at: int)
    requires EnvOk(env) && EntryOk(env, g, m) && m in g.entries
    ensures ScriptReady(g, m)
    ensures var e, tx := g.entries[m], ClaimAudio(env, ScriptOf(g, m), g.entries[m].rows, at);
      tx.Commit? && tx.value.AudioClaimed? ==>
        && Kept(env, ScriptOf(g, m).value, m, e.rows, tx.rows, e.audioLedger, e.videoLedger)
        && FilesAgree(env, g.files, tx.rows)
        && tx.rows.audio == Some(tx.value.row) && tx.value.row.status.Generating?
        && tx.value.narration == NarrationOf(ScriptOf(g, m).value)
        && e.rows.audio.Some? && tx.value.row.attemptCount == e.rows.audio.value.attemptCount + 1
        && e.rows.audio.value.attemptCount >= 0
  {
    var e := g.entries[m];
    ClaimAudioKeeps(env, ScriptOf(g, m).value, m, e.rows, at, e.audioLedger, e.videoLedger);
  }

  lemma AudioClaimWorld(env: Env, g: World, m: string, at: int)
    requires EnvOk(env) && WorldOk(env, g) && m in g.entries
    ensures ScriptReady(g, m)
    ensures var tx := ClaimAudio(env, ScriptOf(g, m), g.entries[m].rows, at);
      tx.Commit? && tx.value.AudioClaimed? ==>
        var g' := WithRows(g, m, tx.rows);
        var k := AudioWorker(m, tx.value.row, tx.value.narration);
        && WorldOk(env, g') && WorldEvolves(g, g') && WorkerOk(env, g', k)
        && g.entries[m].rows.audio.Some? && k.attempt == g.entries[m].rows.audio.value.attemptCount + 1
  {
    assert EntryOk(env, g, m);
    AudioClaimRows(env, g, m, at);
    var tx := ClaimAudio(env, ScriptOf(g, m), g.entries[m].rows, at);
    if tx.Commit? && tx.value.AudioClaimed? {
      RowsWorld(env, g, m, tx.rows);
      var g' := WithRows(g, m, tx.rows);
      ScriptReadyStands(g, g', m);
      assert EntryOk(env, g', m);
      ClaimedAudioOk(env, g', m, tx.value.row, tx.value.narration);
    }
  }

  // Right after its claim a worker knows its row.
  lemma ClaimedAudioOk(env: Env, g: World, m: string, row: Audio.NarrationAudio, narration: string)
    requires EntryOk(env, g, m) && m in g.entries && g.entries[m].rows.audio == Some(row) && row.status.Generating?
    requires narration == NarrationOf(ScriptOf(g, m).value)
    ensures WorkerOk(env, g, AudioWorker(m, row, narration))
  {
  }

  // Nobody holds an attempt beyond the row's count.
  lemma NextAttemptUnclaimed(env: Env, s: State, k: Worker)
    requires Inv(env, s) && k.media in s.world.entries
    requires var rows := s.world.entries[k.media].rows;
      if k.task.AudioTask? then rows.audio.Some? && k.attempt > rows.audio.value.attemptCount
      else rows.video.Some? && k.attempt > rows.video.value.attemptCount
    ensures forall v :: v in s.workers ==> !SameClaim(k, s.workers[v])
  {
    forall v | v in s.workers ensures !SameClaim(k, s.workers[v]) {
      AttemptWithinCount(env, s.world, s.workers[v]);
    }
  }

  lemma AttemptWithinCount(env: Env, g: World, k: Worker)
    requires WorkerOk(env, g, k)
    ensures k.media in g.entries
    ensures var rows := g.entries[k.media].rows;
      if k.task.AudioTask? then rows.audio.Some? && k.attempt <= rows.audio.value.attemptCount
      else rows.video.Some? && k.attempt <= rows.video.value.attemptCount
  {
  }

  lemma StartAudioKeeps(env: Env, s: State, w: nat, m: string, at: int)
    requires EnvOk(env) && Inv(env, s)
    ensures var s' := DoStartAudio(env, s, w, m, at); Inv(env, s') && Evolves(s, s')
  {
    Stutter(s);
    if w !in s.workers && m in s.world.entries {
      AudioClaimWorld(env, s.world, m, at);
      var tx := ClaimAudio(env, ScriptOf(s.world, m), s.world.entries[m].rows, at);
      if tx.Commit? && tx.value.AudioClaimed? {
        var k := AudioWorker(m, tx.value.row, tx.value.narration);
        NextAttemptUnclaimed(env, s, k);
        ClaimStep(env, s, w, WithRows(s.world, m, tx.rows), k);
      }
    }
  }

  // No file lies at the place of an attempt nobody has claimed.
  lemma UnclaimedTargetFree(env: Env, g: World, m: string, attempt: nat)
    requires WorldOk(env, g) && m in g.entries && g.entries[m].rows.video.Some?
    requires attempt > g.entries[m].rows.video.value.attemptCount
    ensures VideoPath(m, SCHEDULED_VERSION, attempt) !in g.files || Foreign(g, m, attempt)
  {
    var p := VideoPath(m, SCHEDULED_VERSION, attempt);
    if p in g.files {
      assert OriginOk(env, g, p);
      if g.origins[p].Rendered? {
        VideoPathInjective(m, SCHEDULED_VERSION, attempt, g.origins[p].media, SCHEDULED_VERSION, g.origins[p].attempt);
      }
    }
  }

  lemma VideoClaimWorld(env: Env, g: World, m: string, expected: nat, at: int)
    requires EnvOk(env) && WorldOk(env, g) && m in g.entries
    ensures var tx := ClaimVideo(env, g.entries[m].rows, expected, at);
      tx.Commit? && tx.value.VideoClaimed? ==>
        var g' := WithRows(g, m, tx.rows);
        && WorldOk(env, g') && WorldEvolves(g, g')
        && WorkerOk(env, g', VideoWorker(m, expected, tx.value.row, tx.value.source))
        && g.entries[m].rows.video.Some? && expected == g.entries[m].rows.video.value.attemptCount + 1
  {
    assert EntryOk(env, g, m);
    var e := g.entries[m];
    ClaimVideoKeeps(env, ScriptOf(g, m).value, m, e.rows, expected, at, e.audioLedger, e.videoLedger);
    var tx := ClaimVideo(env, e.rows, expected, at);
    if tx.Commit? && tx.value.VideoClaimed? {
      RowsWorld(env, g, m, tx.rows);
      var g' := WithRows(g, m, tx.rows);
      assert EntryOk(env, g', m);
    }
  }

  lemma StartVideoKeeps(env: Env, s: State, w: nat, m: string, expected: nat, at: int)
    requires EnvOk(env) && Inv(env, s)
    ensures var s' := DoStartVideo(env, s, w, m, expected, at); Inv(env, s') && Evolves(s, s')
  {
    Stutter(s);
    if w !in s.workers && m in s.world.entries {
      VideoClaimWorld(env, s.world, m, expected, at);
      var tx := ClaimVideo(env, s.world.entries[m].rows, expected, at);
      if tx.Commit? && tx.value.VideoClaimed? {
        var k := VideoWorker(m, expected, tx.value.row, tx.value.source);
        NextAttemptUnclaimed(env, s, k);
        UnclaimedTargetFree(env, s.world, m, expected);
        ClaimStep(env, s, w, WithRows(s.world, m, tx.rows), k);
      }
    }
  }

  // ---- Work outside any transaction ----

  // The source file of a generated audio row is there, with the recorded digest.
  lemma SourceIsStored(env: Env, g: World, m: string)
    requires EntryOk(env, g, m) && m in g.entries && AudioIs(g.entries[m].rows, Audio.Generated)
    ensures var a := g.entries[m].rows.audio.value;
      && a.storageKey == Some(AudioKeyOf(a))
      && Read(g.files, AudioKeyOf(a))
          == (if SourceBytes(g.files, a) == [] then Err(EmptyContent) else Ok(Some(SourceBytes(g.files, a))))
      && SourceBytes(g.files, a) != []
      && a.contentSha256 == Some(env.digest(SourceBytes(g.files, a)))
  {
    var a := g.entries[m].rows.audio.value;
    assert Describes(env, g.files, AudioKeyOf(a),
                     Artifact(a.storageKey.value, a.byteSize.value, a.contentSha256.value));
  }

  lemma LookUpOk(env: Env, g: World, k: Worker)
    requires WorkerOk(env, g, k) && k.task.AudioTask?
    ensures WorkerOk(env, g, k.(pc := LookedUp(env, g.files, k)))
  {
  }

  lemma SynthesizeOk(env: Env, g: World, k: Worker, speech: Option<Bytes>)
    requires WorkerOk(env, g, k) && k.task.AudioTask?
    ensures WorkerOk(env, g, k.(pc := Spoken(k, speech)))
  {
  }

  // None of the renderer's source checks can fail: only its own configuration can stop it.
  lemma SourceReadSpec(env: Env, g: World, k: Worker)
    requires EntryOk(env, g, k.media) && WorkerOk(env, g, k) && k.task.VideoTask?
    ensures SourceRead(env, g.files, k) ==
      if k.task.video.renderer != "ffmpeg" then Failing(UnsupportedTool)
      else Rendering(SourceBytes(g.files, k.task.source))
  {
    SourceIsStored(env, g, k.media);
  }

  lemma ReadSourceOk(env: Env, g: World, k: Worker)
    requires EntryOk(env, g, k.media) && WorkerOk(env, g, k) && k.task.VideoTask?
    ensures WorkerOk(env, g, k.(pc := SourceRead(env, g.files, k)))
  {
    SourceReadSpec(env, g, k);
  }

  lemma RenderOk(env: Env, g: World, k: Worker, video: Option<(Bytes, int)>)
    requires WorkerOk(env, g, k) && k.task.VideoTask? && k.pc.Rendering?
    ensures WorkerOk(env, g, k.(pc := Filmed(k, k.pc.audioData, video)))
  {
  }

  // The printed key of a claimed video attempt names that attempt's own file.
  lemma VideoTarget(env: Env, g: World, k: Worker)
    requires EntryOk(env, g, k.media) && WorkerOk(env, g, k) && k.task.VideoTask? && k.task.video.videoFormat == "mp4"
    ensures TargetForKey(KeyOf(k)) == Ok(VideoPath(k.media, SCHEDULED_VERSION, k.attempt))
    ensures Stripped(KeyOf(k)) && KeyOf(k) != ""
  {
    TargetOfVideoKey(k.media, SCHEDULED_VERSION, k.attempt);
  }

  lemma CheckTargetOk(env: Env, g: World, k: Worker, step: Step)
    requires EntryOk(env, g, k.media) && WorkerOk(env, g, k) && k.pc.Checking?
    requires PlaceFree(g, k)
    ensures WorkerOk(env, g, k.(pc := Storing(env, g.files, k, step)))
  {
    if !step.CheckTarget? { assert k.(pc := k.pc) == k; }
    else if k.task.VideoTask? { CheckVideoTargetOk(env, g, k); }
    else { CheckAudioTargetOk(env, g, k); }
  }

  lemma CheckAudioTargetOk(env: Env, g: World, k: Worker)
    requires WorkerOk(env, g, k) && k.pc.Checking? && k.task.AudioTask?
    ensures WorkerOk(env, g, k.(pc := Checked(env, g.files, k, k.pc.payload)))
  {
  }

  lemma CheckVideoTargetOk(env: Env, g: World, k: Worker)
    requires EntryOk(env, g, k.media) && WorkerOk(env, g, k) && k.pc.Checking? && k.task.VideoTask?
    requires PlaceFree(g, k)
    ensures WorkerOk(env, g, k.(pc := Checked(env, g.files, k, k.pc.payload)))
  {
    VideoTarget(env, g, k);
  }

  lemma WriteTemporaryOk(env: Env, g: World, k: Worker, step: Step)
    requires WorkerOk(env, g, k) && k.pc.Writing?
    ensures WorkerOk(env, g, k.(pc := Storing(env, g.files, k, step)))
  {
    if !step.WriteTemporary? { assert k.(pc := k.pc) == k; }
  }

  lemma RecheckOk(env: Env, g: World, k: Worker, step: Step)
    requires EntryOk(env, g, k.media) && WorkerOk(env, g, k) && k.pc.Rechecking?
    ensures WorkerOk(env, g, k.(pc := Storing(env, g.files, k, step)))
  {
    RecheckMoves(env, g.files, k, step);
    if !step.RecheckTarget? {
      assert k.(pc := k.pc) == k;
    } else {
      RecheckAudioOk(env, g, k);
    }
  }

  lemma RecheckMoves(env: Env, files: Files, k: Worker, step: Step)
    requires k.pc.Rechecking?
    ensures Storing(env, files, k, step)
      == if step.RecheckTarget? then Rechecked(env, files, k, k.pc.payload) else k.pc
  {
  }

  lemma RecheckAudioOk(env: Env, g: World, k: Worker)
    requires WorkerOk(env, g, k) && k.pc.Rechecking? && k.task.AudioTask?
    ensures WorkerOk(env, g, k.(pc := Rechecked(env, g.files, k, k.pc.payload)))
  {
  }

  // ---- The link ----

  // The video workers other than w that have not linked yet aim elsewhere.
  predicate AimsElsewhere(s: State, w: nat, v: nat, target: Path) {
    v in s.workers && v != w && BeforeLink(s.workers[v]) ==>
      VideoPath(s.workers[v].media, SCHEDULED_VERSION, s.workers[v].attempt) != target
  }

  // The world gains a file at a place no other video worker is about to use, and its writer moves on.
  lemma FileStep(env: Env, s: State, w: nat, g: World, target: Path, pc: Pc)
    requires Inv(env, s) && w in s.workers && !s.workers[w].pc.Done?
    requires WorldOk(env, g) && WorldEvolves(s.world, g) && g.files.Keys <= s.world.files.Keys + {target}
    requires WorkerOk(env, g, s.workers[w].(pc := pc)) && !BeforeLink(s.workers[w].(pc := pc))
    requires forall v :: AimsElsewhere(s, w, v, target)
    ensures var s' := At(s.(world := g), w, pc); Inv(env, s') && Evolves(s, s')
  {
    WorkersStand(env, s, g);
    PcWorkers(env, s.(world := g), w, pc);
    FileClaims(s, w, g, target, pc);
  }

  lemma WorkersStand(env: Env, s: State, g: World)
    requires Inv(env, s) && WorldEvolves(s.world, g)
    ensures forall v :: v in s.workers ==> WorkerOk(env, g, s.workers[v])
  {
    forall v | v in s.workers ensures WorkerOk(env, g, s.workers[v]) {
      assert EntryOk(env, s.world, s.workers[v].media);
      WorkerStands(env, s.world, g, s.workers[v]);
    }
  }

  lemma FileClaims(s: State, w: nat, g: World, target: Path, pc: Pc)
    requires w in s.workers && !s.workers[w].pc.Done? && !BeforeLink(s.workers[w].(pc := pc))
    requires g.files.Keys <= s.world.files.Keys + {target}
    requires forall p :: p in s.world.origins ==> p in g.origins && g.origins[p] == s.world.origins[p]
    requires (forall v :: TargetFree(s, v)) && (forall v, u :: ClaimsDiffer(s, v, u))
    requires forall v :: AimsElsewhere(s, w, v, target)
    ensures var s' := At(s.(world := g), w, pc);
      (forall v :: TargetFree(s', v)) && (forall v, u :: ClaimsDiffer(s', v, u))
        && (forall v :: WorkerEvolves(s, s', v))
  {
    var s' := At(s.(world := g), w, pc);
    forall v ensures TargetFree(s', v) { assert TargetFree(s, v) && AimsElsewhere(s, w, v, target); }
    forall v, u ensures ClaimsDiffer(s', v, u) { assert ClaimsDiffer(s, v, u); }
  }

  lemma OthersAimElsewhere(env: Env, s: State, w: nat)
    requires Inv(env, s) && w in s.workers && s.workers[w].task.VideoTask?
    ensures forall v :: AimsElsewhere(s, w, v, VideoPath(s.workers[w].media, SCHEDULED_VERSION, s.workers[w].attempt))
  {
    var k := s.workers[w];
    forall v ensures AimsElsewhere(s, w, v, VideoPath(k.media, SCHEDULED_VERSION, k.attempt)) {
      assert ClaimsDiffer(s, w, v);
      if v in s.workers && VideoPath(s.workers[v].media, SCHEDULED_VERSION, s.workers[v].attempt)
                           == VideoPath(k.media, SCHEDULED_VERSION, k.attempt) {
        VideoPathInjective(s.workers[v].media, SCHEDULED_VERSION, s.workers[v].attempt, k.media, SCHEDULED_VERSION,
                           k.attempt);
      }
    }
  }

  lemma AudioTarget(env: Env, g: World, k: Worker)
    requires EntryOk(env, g, k.media) && WorkerOk(env, g, k) && k.task.AudioTask?
    ensures TargetForKey(KeyOf(k)).Ok? ==>
      var target := TargetForKey(KeyOf(k)).value;
      |target| >= 3 && target[1] == "audio" && target[2] == k.media
    ensures Stripped(KeyOf(k)) && KeyOf(k) != ""
  {
    AudioTargetPlace(k.media, AsNat(k.task.row.audioVersion), k.task.row.audioFormat);
  }

  lemma LinkAudioWorld(env: Env, g: World, k: Worker)
    requires WorldOk(env, g) && WorkerOk(env, g, k) && k.task.AudioTask? && k.pc.Linking?
    requires TargetForKey(KeyOf(k)).Ok? && TargetForKey(KeyOf(k)).value !in g.files
    ensures var g' := WithFile(g, TargetForKey(KeyOf(k)).value, k.pc.temporary, k.pc.payload.origin);
      && WorldOk(env, g') && WorldEvolves(g, g')
      && WorkerOk(env, g',
                  k.(pc := Stored(ArtifactOf(env.digest, KeyOf(k), k.pc.payload.data), k.pc.payload.durationMs)))
  {
    assert EntryOk(env, g, k.media);
    AudioTarget(env, g, k);
    FileWorld(env, g, TargetForKey(KeyOf(k)).value, k.pc.temporary, k.pc.payload.origin);
    WorkerStands(env, g, WithFile(g, TargetForKey(KeyOf(k)).value, k.pc.temporary, k.pc.payload.origin), k);
  }

  lemma LinkVideoWorld(env: Env, g: World, k: Worker)
    requires WorldOk(env, g) && WorkerOk(env, g, k) && k.task.VideoTask? && k.pc.Linking?
    requires VideoPath(k.media, SCHEDULED_VERSION, k.attempt) !in g.files
    ensures var g' := WithFile(g, VideoPath(k.media, SCHEDULED_VERSION, k.attempt), k.pc.temporary,
                               k.pc.payload.origin);
      && WorldOk(env, g') && WorldEvolves(g, g')
      && WorkerOk(env, g',
                  k.(pc := Stored(ArtifactOf(env.digest, KeyOf(k), k.pc.payload.data), k.pc.payload.durationMs)))
  {
    assert EntryOk(env, g, k.media);
    VideoTarget(env, g, k);
    AttemptWithinCount(env, g, k);
    var target := VideoPath(k.media, SCHEDULED_VERSION, k.attempt);
    var g' := WithFile(g, target, k.pc.temporary, k.pc.payload.origin);
    SourceIsStored(env, g, k.media);
    assert SourceBytes(g'.files, k.task.source) == SourceBytes(g.files, k.task.source);
    FileWorld(env, g, target, k.pc.temporary, k.pc.payload.origin);
    WorkerStands(env, g, g', k);
  }

  lemma LinkKeeps(env: Env, s: State, w: nat)
    requires Inv(env, s) && w in s.workers && s.workers[w].pc.Linking?
    ensures var s' := DoLink(env, s, w); Inv(env, s') && Evolves(s, s')
  {
    var k := s.workers[w];
    assert EntryOk(env, s.world, k.media) && TargetFree(s, w);
    if k.task.VideoTask? { LinkVideoKeeps(env, s, w); } else { LinkAudioKeeps(env, s, w); }
  }

  lemma LinkAudioKeeps(env: Env, s: State, w: nat)
    requires Inv(env, s) && w in s.workers && s.workers[w].pc.Linking? && s.workers[w].task.AudioTask?
    ensures var s' := DoLink(env, s, w); Inv(env, s') && Evolves(s, s')
  {
    var k := s.workers[w];
    assert EntryOk(env, s.world, k.media);
    AudioTarget(env, s.world, k);
    var target := TargetForKey(KeyOf(k));
    if target.Err? {
      PcStep(env, s, w, Failing(Storage(InvalidKey)));
    } else if target.value in s.world.files {
      PcStep(env, s, w, Rechecking(k.pc.payload));
    } else {
      LinkAudioWorld(env, s.world, k);
      FileStep(env, s, w, WithFile(s.world, target.value, k.pc.temporary, k.pc.payload.origin), target.value,
               Stored(ArtifactOf(env.digest, KeyOf(k), k.pc.payload.data), k.pc.payload.durationMs));
    }
  }

  // A video worker's link never loses.
  lemma VideoLinkSpec(env: Env, s: State, w: nat)
    requires w in s.workers && s.workers[w].pc.Linking? && s.workers[w].task.VideoTask? && TargetFree(s, w)
    requires EntryOk(env, s.world, s.workers[w].media) && WorkerOk(env, s.world, s.workers[w])
    ensures var k := s.workers[w];
      var target := VideoPath(k.media, SCHEDULED_VERSION, k.attempt);
      && target !in s.world.files
      && DoLink(env, s, w)
         == At(s.(world := WithFile(s.world, target, k.pc.temporary, k.pc.payload.origin)), w,
               Stored(ArtifactOf(env.digest, KeyOf(k), k.pc.payload.data), k.pc.payload.durationMs))
  {
    VideoTarget(env, s.world, s.workers[w]);
  }

  lemma LinkVideoStep(env: Env, s: State, w: nat, target: Path, pc: Pc)
    requires Inv(env, s) && w in s.workers && s.workers[w].pc.Linking? && s.workers[w].task.VideoTask?
    requires target == VideoPath(s.workers[w].media, SCHEDULED_VERSION, s.workers[w].attempt)
    requires target !in s.world.files
    requires var k := s.workers[w];
      pc == Stored(ArtifactOf(env.digest, KeyOf(k), k.pc.payload.data), k.pc.payload.durationMs)
    ensures var k := s.workers[w];
      var s' := At(s.(world := WithFile(s.world, target, k.pc.temporary, k.pc.payload.origin)), w, pc);
      Inv(env, s') && Evolves(s, s')
  {
    var k := s.workers[w];
    LinkVideoWorld(env, s.world, k);
    OthersAimElsewhere(env, s, w);
    FileStep(env, s, w, WithFile(s.world, target, k.pc.temporary, k.pc.payload.origin), target, pc);
  }

  lemma LinkVideoKeeps(env: Env, s: State, w: nat)
    requires Inv(env, s) && w in s.workers && s.workers[w].pc.Linking? && s.workers[w].task.VideoTask?
    ensures var s' := DoLink(env, s, w); Inv(env, s') && Evolves(s, s')
  {
    var k := s.workers[w];
    assert EntryOk(env, s.world, k.media) && WorkerOk(env, s.world, k) && TargetFree(s, w);
    VideoLinkSpec(env, s, w);
    LinkVideoStep(env, s, w, VideoPath(k.media, SCHEDULED_VERSION, k.attempt),
                  Stored(ArtifactOf(env.digest, KeyOf(k), k.pc.payload.data), k.pc.payload.durationMs));
  }

  // ---- Completions ----

  lemma RecordAudioWorld(env: Env, g: World, k: Worker, at: int)
    requires EnvOk(env) && WorldOk(env, g) && WorkerOk(env, g, k) && k.task.AudioTask? && k.pc.Stored?
    ensures k.media in g.entries
    ensures var tx := RecordAudioSuccess(g.entries[k.media].rows, k.attempt, k.pc.artifact, at);
      tx.Commit? ==>
        var g' := WithRows(g, k.media, tx.rows);
        && WorldOk(env, g') && WorldEvolves(g, g')
        && WorkerOk(env, g', k.(pc := Done(AudioOutcome(tx.value, k.pc.artifact))))
  {
    assert EntryOk(env, g, k.media);
    AudioTarget(env, g, k);
    var e := g.entries[k.media];
    RecordAudioSuccessKeeps(env, ScriptOf(g, k.media).value, k.media, e.rows, k.attempt, k.pc.artifact, at,
                            e.audioLedger, e.videoLedger);
    var tx := RecordAudioSuccess(e.rows, k.attempt, k.pc.artifact, at);
    if tx.Commit? {
      AudioArtifactAgrees(env, g, k, tx.rows, tx.value);
      RowsWorld(env, g, k.media, tx.rows);
      AudioWorkerStands(env, g, WithRows(g, k.media, tx.rows), k);
    }
  }

  // The recorded row describes the file its worker stored or found.
  lemma AudioArtifactAgrees(env: Env, g: World, k: Worker, rows: Rows, settlement: Settlement)
    requires EntryOk(env, g, k.media) && WorkerOk(env, g, k) && k.task.AudioTask? && k.pc.Stored?
    requires rows.video == g.entries[k.media].rows.video
    requires settlement != Recorded ==> rows == g.entries[k.media].rows
    requires settlement == Recorded ==>
      && RowsEvolve(g.entries[k.media].rows, rows) && rows.audio.Some?
      && g.entries[k.media].rows.video.None?
      && rows.audio.value.storageKey == Some(k.pc.artifact.storageKey)
      && rows.audio.value.byteSize == Some(k.pc.artifact.byteSize)
      && rows.audio.value.contentSha256 == Some(k.pc.artifact.contentSha256)
    ensures FilesAgree(env, g.files, rows)
  {
  }

  // A worker may stop at any time, whatever the reason.
  lemma StopOk(env: Env, g: World, k: Worker, o: Outcome)
    requires WorkerOk(env, g, k) && (o.Raised? || o.Crashed? || o.AttemptSuperseded? || o.GeneratedByAnother?)
    ensures WorkerOk(env, g, k.(pc := Done(o)))
  {
  }

  lemma StopKeeps(env: Env, s: State, w: nat, o: Outcome)
    requires Inv(env, s) && w in s.workers && !s.workers[w].pc.Done?
    requires o.Raised? || o.Crashed? || o.AttemptSuperseded? || o.GeneratedByAnother?
    ensures Inv(env, At(s, w, Done(o))) && Evolves(s, At(s, w, Done(o)))
  {
    StopOk(env, s.world, s.workers[w], o);
    PcStep(env, s, w, Done(o));
  }

  lemma RecordAudioKeeps(env: Env, s: State, w: nat, at: int)
    requires EnvOk(env) && Inv(env, s) && w in s.workers && s.workers[w].task.AudioTask? && s.workers[w].pc.Stored?
    requires s.workers[w].media in s.world.entries
    ensures var s' := DoRecordAudio(s, w, at); Inv(env, s') && Evolves(s, s')
  {
    var k := s.workers[w];
    RecordAudioWorld(env, s.world, k, at);
    var tx := RecordAudioSuccess(s.world.entries[k.media].rows, k.attempt, k.pc.artifact, at);
    if tx.Abort? { StopKeeps(env, s, w, Raised); }
    else { TxStep(env, s, w, WithRows(s.world, k.media, tx.rows), Done(AudioOutcome(tx.value, k.pc.artifact))); }
  }

  lemma FailAudioWorld(env: Env, g: World, k: Worker, reason: string, at: int)
    requires EnvOk(env) && WorldOk(env, g) && WorkerOk(env, g, k) && k.task.AudioTask? && k.pc.Failing?
    ensures k.media in g.entries
    ensures var tx := RecordAudioFailure(g.entries[k.media].rows, k.attempt, reason, at);
      tx.Commit? ==>
        var g' := WithRows(g, k.media, tx.rows);
        WorldOk(env, g') && WorldEvolves(g, g') && WorkerOk(env, g', k.(pc := Done(Settled(tx.value, k.pc.cause))))
  {
    assert EntryOk(env, g, k.media);
    var e := g.entries[k.media];
    RecordAudioFailureKeeps(env, ScriptOf(g, k.media).value, k.media, e.rows, k.attempt, reason, at, e.audioLedger,
                            e.videoLedger);
    var tx := RecordAudioFailure(e.rows, k.attempt, reason, at);
    if tx.Commit? {
      RowsWorld(env, g, k.media, tx.rows);
      AudioWorkerStands(env, g, WithRows(g, k.media, tx.rows), k);
    }
  }

  lemma FailAudioKeeps(env: Env, s: State, w: nat, reason: string, at: int)
    requires EnvOk(env) && Inv(env, s) && w in s.workers && s.workers[w].task.AudioTask? && s.workers[w].pc.Failing?
    requires s.workers[w].media in s.world.entries
    ensures var s' := DoFailAudio(s, w, reason, at); Inv(env, s') && Evolves(s, s')
  {
    var k := s.workers[w];
    FailAudioWorld(env, s.world, k, reason, at);
    var tx := RecordAudioFailure(s.world.entries[k.media].rows, k.attempt, reason, at);
    if tx.Abort? { StopKeeps(env, s, w, Raised); }
    else { TxStep(env, s, w, WithRows(s.world, k.media, tx.rows), Done(Settled(tx.value, k.pc.cause))); }
  }

  // The row read before a completion statement is the row the worker claimed.
  lemma ReadForCompletionOk(env: Env, g: World, k: Worker, at: int)
    requires EnvOk(env) && EntryOk(env, g, k.media) && WorkerOk(env, g, k)
    requires k.task.VideoTask? && k.pc.Stored?
    ensures k.media in g.entries && WorkerOk(env, g, k.(pc := ReadForCompletion(g, k, at)))
  {
    var now := g.entries[k.media].rows.video.value;
    VideoTarget(env, g, k);
    ReadForSuccessSpec(now, k.attempt, k.pc.artifact, k.pc.durationMs, at);
    if VideoTable.Current(now, k.attempt) {
      VideoTable.SameAttemptUnchanged(k.task.video, now, k.attempt);
    }
  }

  lemma ReadForRecordingFailureOk(env: Env, g: World, k: Worker, reason: string, at: int)
    requires EnvOk(env) && EntryOk(env, g, k.media) && WorkerOk(env, g, k)
    requires k.task.VideoTask? && k.pc.Failing?
    ensures k.media in g.entries && WorkerOk(env, g, k.(pc := ReadForRecordingFailure(g, k, reason, at)))
  {
    FailureReadSpec(env, g, k, reason, at);
  }

  lemma FailureReadSpec(env: Env, g: World, k: Worker, reason: string, at: int)
    requires EntryOk(env, g, k.media) && WorkerOk(env, g, k) && k.task.VideoTask? && k.pc.Failing?
    ensures k.media in g.entries
    ensures var next := ReadForRecordingFailure(g, k, reason, at);
      || next == Done(Raised) || next == Done(AttemptSuperseded)
      || (&& next.RecordingFailure? && next.cause == k.pc.cause
          && Video.MarkFailed(k.task.video, next.reason, next.failedAt) == Ok(next.failed))
  {
    var now := g.entries[k.media].rows.video.value;
    if VideoTable.Current(now, k.attempt) {
      VideoTable.SameAttemptUnchanged(k.task.video, now, k.attempt);
    }
  }

  lemma WriteSuccessWorld(env: Env, g: World, k: Worker)
    requires EnvOk(env) && WorldOk(env, g) && WorkerOk(env, g, k) && k.task.VideoTask? && k.pc.Completing?
    ensures k.media in g.entries
    ensures var tx := UpdateSuccess(g.entries[k.media].rows, k.attempt, k.pc.generated);
      tx.Commit? ==>
        var g' := WithRows(g, k.media, tx.rows);
        && WorldOk(env, g') && WorldEvolves(g, g')
        && WorkerOk(env, g', k.(pc := Done(if tx.value.Recorded? then Generated(k.pc.artifact) else AttemptSuperseded)))
  {
    assert EntryOk(env, g, k.media);
    var e := g.entries[k.media];
    UpdateSuccessKeeps(env, ScriptOf(g, k.media).value, k.media, e.rows, k.task.video, k.attempt, k.pc.artifact,
                       k.pc.durationMs, k.pc.completedAt, e.audioLedger, e.videoLedger);
    var tx := UpdateSuccess(e.rows, k.attempt, k.pc.generated);
    if tx.Commit? {
      VideoArtifactAgrees(env, g, k, tx.rows, tx.value);
      RowsWorld(env, g, k.media, tx.rows);
      VideoWorkerStands(env, g, WithRows(g, k.media, tx.rows), k);
    }
  }

  lemma VideoArtifactAgrees(env: Env, g: World, k: Worker, rows: Rows, settlement: Settlement)
    requires EntryOk(env, g, k.media) && WorkerOk(env, g, k) && k.task.VideoTask? && k.pc.Completing?
    requires rows.audio == g.entries[k.media].rows.audio
    requires settlement != Recorded ==> rows == g.entries[k.media].rows
    requires settlement == Recorded ==>
      && RowsEvolve(g.entries[k.media].rows, rows) && rows.video.Some?
      && rows.video.value.attemptCount == k.attempt
      && rows.video.value.storageKey == Some(k.pc.artifact.storageKey)
      && rows.video.value.byteSize == Some(k.pc.artifact.byteSize)
      && rows.video.value.contentSha256 == Some(k.pc.artifact.contentSha256)
    ensures FilesAgree(env, g.files, rows)
  {
  }

  lemma WriteFailureWorld(env: Env, g: World, k: Worker)
    requires EnvOk(env) && WorldOk(env, g) && WorkerOk(env, g, k) && k.task.VideoTask? && k.pc.RecordingFailure?
    ensures k.media in g.entries
    ensures var tx := UpdateFailure(g.entries[k.media].rows, k.attempt, k.pc.failed, k.pc.reason, k.pc.failedAt);
      tx.Commit? ==>
        var g' := WithRows(g, k.media, tx.rows);
        WorldOk(env, g') && WorldEvolves(g, g') && WorkerOk(env, g', k.(pc := Done(Settled(tx.value, k.pc.cause))))
  {
    assert EntryOk(env, g, k.media);
    var e := g.entries[k.media];
    UpdateFailureKeeps(env, ScriptOf(g, k.media).value, k.media, e.rows, k.task.video, k.attempt, k.pc.reason,
                       k.pc.failedAt, e.audioLedger, e.videoLedger);
    var tx := UpdateFailure(e.rows, k.attempt, k.pc.failed, k.pc.reason, k.pc.failedAt);
    if tx.Commit? {
      RowsWorld(env, g, k.media, tx.rows);
      VideoWorkerStands(env, g, WithRows(g, k.media, tx.rows), k);
    }
  }

  lemma WriteSuccessKeeps(env: Env, s: State, w: nat)
    requires EnvOk(env) && Inv(env, s) && w in s.workers && s.workers[w].pc.Completing?
    requires s.workers[w].media in s.world.entries
    ensures var s' := DoWriteSuccess(s, w); Inv(env, s') && Evolves(s, s')
  {
    var k := s.workers[w];
    WriteSuccessWorld(env, s.world, k);
    var tx := UpdateSuccess(s.world.entries[k.media].rows, k.attempt, k.pc.generated);
    if tx.Abort? { StopKeeps(env, s, w, Raised); }
    else {
      TxStep(env, s, w, WithRows(s.world, k.media, tx.rows),
             Done(if tx.value.Recorded? then Generated(k.pc.artifact) else AttemptSuperseded));
    }
  }

  lemma WriteFailureKeeps(env: Env, s: State, w: nat)
    requires EnvOk(env) && Inv(env, s) && w in s.workers && s.workers[w].pc.RecordingFailure?
    requires s.workers[w].media in s.world.entries
    ensures var s' := DoWriteFailure(s, w); Inv(env, s') && Evolves(s, s')
  {
    var k := s.workers[w];
    WriteFailureWorld(env, s.world, k);
    var tx := UpdateFailure(s.world.entries[k.media].rows, k.attempt, k.pc.failed, k.pc.reason, k.pc.failedAt);
    if tx.Abort? { StopKeeps(env, s, w, Raised); }
    else { TxStep(env, s, w, WithRows(s.world, k.media, tx.rows), Done(Settled(tx.value, k.pc.cause))); }
  }

  // ---- Every step, and every run ----

  // What a worker does without a transaction and without linking a file.
  lemma MovedOk(env: Env, g: World, k: Worker, step: Step)
    requires EnvOk(env) && EntryOk(env, g, k.media) && k.media in g.entries && WorkerOk(env, g, k)
    requires PlaceFree(g, k)
    ensures WorkerOk(env, g, k.(pc := Moved(env, g, k, step)))
  {
    if step.Crash? { StopOk(env, g, k, Crashed); }
    else if k.pc.Checking? || k.pc.Writing? || k.pc.Rechecking? { StoringOk(env, g, k, step); }
    else if k.task.AudioTask? { SpeakingOk(env, g, k, step); }
    else { FilmingOk(env, g, k, step); }
  }

  lemma StoringOk(env: Env, g: World, k: Worker, step: Step)
    requires EntryOk(env, g, k.media) && WorkerOk(env, g, k)
    requires PlaceFree(g, k)
    requires k.pc.Checking? || k.pc.Writing? || k.pc.Rechecking?
    ensures WorkerOk(env, g, k.(pc := Storing(env, g.files, k, step)))
  {
    if k.pc.Checking? { CheckTargetOk(env, g, k, step); }
    else if k.pc.Writing? { WriteTemporaryOk(env, g, k, step); }
    else { RecheckOk(env, g, k, step); }
  }

  lemma SpeakingOk(env: Env, g: World, k: Worker, step: Step)
    requires WorkerOk(env, g, k) && k.task.AudioTask?
    ensures WorkerOk(env, g, k.(pc := Speaking(env, g.files, k, step)))
  {
    var next := Speaking(env, g.files, k, step);
    if k.pc.Claimed? && step.LookUp? {
      LookUpOk(env, g, k);
      assert next == LookedUp(env, g.files, k);
    } else if k.pc.Synthesizing? && step.Synthesize? {
      SynthesizeOk(env, g, k, step.speech);
      assert next == Spoken(k, step.speech);
    } else {
      assert next == k.pc && k.(pc := k.pc) == k;
    }
  }

  lemma FilmingOk(env: Env, g: World, k: Worker, step: Step)
    requires EnvOk(env) && EntryOk(env, g, k.media) && k.media in g.entries && WorkerOk(env, g, k) && k.task.VideoTask?
    ensures WorkerOk(env, g, k.(pc := Filming(env, g, k, step)))
  {
    if k.pc.Claimed? || k.pc.Rendering? { RenderingOk(env, g, k, step); }
    else { CompletionReadOk(env, g, k, step); }
  }

  lemma RenderingOk(env: Env, g: World, k: Worker, step: Step)
    requires EnvOk(env) && EntryOk(env, g, k.media) && k.media in g.entries && WorkerOk(env, g, k) && k.task.VideoTask?
    requires k.pc.Claimed? || k.pc.Rendering?
    ensures WorkerOk(env, g, k.(pc := Filming(env, g, k, step)))
  {
    var next := Filming(env, g, k, step);
    if k.pc.Claimed? && step.ReadSource? {
      ReadSourceOk(env, g, k);
      assert next == SourceRead(env, g.files, k);
    } else if k.pc.Rendering? && step.Render? {
      RenderOk(env, g, k, step.video);
      assert next == Filmed(k, k.pc.audioData, step.video);
    } else {
      assert next == k.pc && k.(pc := k.pc) == k;
    }
  }

  lemma CompletionReadOk(env: Env, g: World, k: Worker, step: Step)
    requires EnvOk(env) && EntryOk(env, g, k.media) && k.media in g.entries && WorkerOk(env, g, k) && k.task.VideoTask?
    requires !k.pc.Claimed? && !k.pc.Rendering?
    ensures WorkerOk(env, g, k.(pc := Filming(env, g, k, step)))
  {
    if k.pc.Stored? { SuccessReadOk(env, g, k, step); }
    else if k.pc.Failing? { FailureReadOk(env, g, k, step); }
    else { assert k.(pc := k.pc) == k; }
  }

  lemma SuccessReadOk(env: Env, g: World, k: Worker, step: Step)
    requires EnvOk(env) && EntryOk(env, g, k.media) && k.media in g.entries && WorkerOk(env, g, k) && k.task.VideoTask?
    requires k.pc.Stored?
    ensures WorkerOk(env, g, k.(pc := Filming(env, g, k, step)))
  {
    if step.ReadBeforeSuccess? { ReadForCompletionOk(env, g, k, step.at); }
    else { assert k.(pc := k.pc) == k; }
  }

  lemma FailureReadOk(env: Env, g: World, k: Worker, step: Step)
    requires EnvOk(env) && EntryOk(env, g, k.media) && k.media in g.entries && WorkerOk(env, g, k) && k.task.VideoTask?
    requires k.pc.Failing?
    ensures WorkerOk(env, g, k.(pc := Filming(env, g, k, step)))
  {
    if step.ReadBeforeFailure? { ReadForRecordingFailureOk(env, g, k, step.reason, step.at); }
    else { assert k.(pc := k.pc) == k; }
  }

  // A quiet step never takes a worker back before its link.
  lemma MovedForward(env: Env, g: World, k: Worker, step: Step)
    requires k.media in g.entries && EntryOk(env, g, k.media) && WorkerOk(env, g, k) && PlaceFree(g, k)
    ensures PlaceFree(g, k.(pc := Moved(env, g, k, step)))
  {
    if k.task.VideoTask? {
      MovesBeforeLink(env, g, k, step);
      if k.pc.Checking? { CheckLeavesFree(env, g, k); }
      MovedStaysFree(env, g, k, Moved(env, g, k, step));
    }
  }

  lemma MovedStaysFree(env: Env, g: World, k: Worker, pc: Pc)
    requires PlaceFree(g, k)
    requires k.pc.Checking? ==> PlaceFree(g, k.(pc := Checked(env, g.files, k, k.pc.payload)))
    requires BeforeLinkKept(k, pc) || (k.pc.Checking? && pc == Checked(env, g.files, k, k.pc.payload))
    ensures PlaceFree(g, k.(pc := pc))
  {
  }

  lemma MovesBeforeLink(env: Env, g: World, k: Worker, step: Step)
    requires k.media in g.entries && k.task.VideoTask?
    ensures var pc := Moved(env, g, k, step);
      || BeforeLinkKept(k, pc)
      || (k.pc.Checking? && pc == Checked(env, g.files, k, k.pc.payload))
  {
    if !step.Crash? {
      if k.pc.Checking? || k.pc.Writing? || k.pc.Rechecking? {
        StoresBeforeLink(env, g.files, k, step);
      } else {
        FilmsBeforeLink(env, g, k, step);
      }
    }
  }

  lemma StoresBeforeLink(env: Env, files: Files, k: Worker, step: Step)
    requires k.task.VideoTask?
    ensures var pc := Storing(env, files, k, step);
      || BeforeLinkKept(k, pc)
      || (k.pc.Checking? && pc == Checked(env, files, k, k.pc.payload))
  {
  }

  lemma FilmsBeforeLink(env: Env, g: World, k: Worker, step: Step)
    requires k.media in g.entries && k.task.VideoTask?
    ensures BeforeLinkKept(k, Filming(env, g, k, step))
  {
  }

  // No worker gets closer to its link from this move, except by more writes.
  predicate BeforeLinkKept(k: Worker, pc: Pc) {
    && (BeforeLink(k.(pc := pc)) ==> BeforeLink(k))
    && (pc.Writing? || pc.Linking? ==> k.pc.Writing? || k.pc.Linking?)
  }

  // A video worker passes its check only when its place is free.
  lemma CheckLeavesFree(env: Env, g: World, k: Worker)
    requires EntryOk(env, g, k.media) && WorkerOk(env, g, k) && k.task.VideoTask? && k.pc.Checking?
    ensures PlaceFree(g, k.(pc := Checked(env, g.files, k, k.pc.payload)))
  {
    VideoTarget(env, g, k);
  }

  lemma MoveKeeps(env: Env, s: State, w: nat, step: Step)
    requires EnvOk(env) && Inv(env, s) && w in s.workers && !s.workers[w].pc.Done?
    requires s.workers[w].media in s.world.entries
    ensures var s' := At(s, w, Moved(env, s.world, s.workers[w], step)); Inv(env, s') && Evolves(s, s')
  {
    var k := s.workers[w];
    assert EntryOk(env, s.world, k.media) && TargetFree(s, w);
    MovedForward(env, s.world, k, step);
    MovedOk(env, s.world, k, step);
    PcStep(env, s, w, Moved(env, s.world, k, step));
  }

  lemma SettleKeeps(env: Env, s: State, w: nat, step: Step)
    requires EnvOk(env) && Inv(env, s) && w in s.workers && s.workers[w].media in s.world.entries
    requires Settles(s.workers[w], step)
    ensures var s' := Settle(s, w, step); Inv(env, s') && Evolves(s, s')
  {
    assert WorkerOk(env, s.world, s.workers[w]);
    if step.RecordAudio? { RecordAudioKeeps(env, s, w, step.at); }
    else if step.FailAudio? { FailAudioKeeps(env, s, w, step.reason, step.at); }
    else if step.WriteSuccess? { WriteSuccessKeeps(env, s, w); }
    else { WriteFailureKeeps(env, s, w); }
  }

  lemma WorkKeeps(env: Env, s: State, w: nat, step: Step)
    requires EnvOk(env) && Inv(env, s) && w in s.workers
    ensures var s' := Work(env, s, w, step); Inv(env, s') && Evolves(s, s')
  {
    var k := s.workers[w];
    if k.media !in s.world.entries || k.pc.Done? { Stutter(s); }
    else if k.pc.Linking? && step.LinkTarget? { LinkKeeps(env, s, w); }
    else if Settles(k, step) { SettleKeeps(env, s, w, step); }
    else { MoveKeeps(env, s, w, step); }
  }

  // Every step keeps the invariant and only moves the state forward.
  lemma StepKeeps(env: Env, s: State, step: Step)
    requires EnvOk(env) && Inv(env, s)
    ensures Inv(env, Apply(env, s, step)) && Evolves(s, Apply(env, s, step))
  {
    if IsScheduling(step) {
      ScheduledWorld(env, s.world, step);
      WorldStep(env, s, Scheduled(env, s.world, step));
    } else if step.StartAudio? {
      StartAudioKeeps(env, s, step.worker, step.media, step.at);
    } else if step.StartVideo? {
      StartVideoKeeps(env, s, step.worker, step.media, step.expected, step.at);
    } else if step.worker in s.workers {
      WorkKeeps(env, s, step.worker, step);
    } else {
      Stutter(s);
    }
  }

  lemma InitOk(env: Env, s: State)
    requires Init(s)
    ensures Inv(env, s)
  {
  }

  // A run may always go on with any step.
  lemma RunGoesOn(env: Env, run: Run, step: Step)
    requires IsRun(env, run)
    ensures IsRun(env, Run(run.states + [Apply(env, run.states[|run.steps|], step)], run.steps + [step]))
  {
    var next := Run(run.states + [Apply(env, run.states[|run.steps|], step)], run.steps + [step]);
    forall i ensures StepAt(env, next, i) { assert StepAt(env, run, i); }
  }

  // Every state of every run satisfies the invariant.
  lemma {:induction false} RunKeeps(env: Env, run: Run, i: nat)
    requires EnvOk(env) && IsRun(env, run) && i < |run.states|
    ensures Inv(env, run.states[i])
  {
    if i == 0 {
      InitOk(env, run.states[0]);
    } else {
      RunKeeps(env, run, i - 1);
      assert StepAt(env, run, i - 1);
      StepKeeps(env, run.states[i - 1], run.steps[i - 1]);
    }
  }

  // A run can be extended by any step.
  function Last(run: Run): State
    requires |run.states| > 0
  {
    run.states[|run.states| - 1]
  }

  lemma Extend(env: Env, run: Run, step: Step) returns (next: Run)
    requires EnvOk(env) && IsRun(env, run)
    ensures IsRun(env, next) && run.states <= next.states && Last(next) == Apply(env, Last(run), step)
    ensures next.steps == run.steps + [step] && Inv(env, Last(next))
  {
    RunGoesOn(env, run, step);
    next := Run(run.states + [Apply(env, run.states[|run.steps|], step)], run.steps + [step]);
    RunKeeps(env, next, |next.steps|);
  }

  lemma RunStepEvolves(env: Env, run: Run, i: nat)
    requires EnvOk(env) && IsRun(env, run) && i < |run.steps|
    ensures Evolves(run.states[i], run.states[i + 1])
  {
    RunKeeps(env, run, i);
    assert StepAt(env, run, i);
    StepKeeps(env, run.states[i], run.steps[i]);
  }

  // Whatever happens later, a run never takes anything back.
  lemma {:induction false} RunEvolves(env: Env, run: Run, i: nat, j: nat)
    requires EnvOk(env) && IsRun(env, run) && i <= j < |run.states|
    ensures Evolves(run.states[i], run.states[j])
    decreases j
  {
    hide Apply;
    if i == j {
      Stutter(run.states[i]);
    } else {
      var k := j - 1;
      RunEvolves(env, run, i, k);
      RunStepEvolves(env, run, k);
      EvolvesTransitive(run.states[i], run.states[k], run.states[k + 1]);
    }
  }

  // ---- The parts of the two results, for one production or one worker ----

  lemma RunEntry(env: Env, run: Run, i: nat, m: string)
    requires EnvOk(env) && IsRun(env, run) && i < |run.states|
    ensures EntryOk(env, run.states[i].world, m)
  {
    hide Apply;
    RunKeeps(env, run, i);
  }

  lemma RunWorker(env: Env, run: Run, i: nat, w: nat)
    requires EnvOk(env) && IsRun(env, run) && i < |run.states| && w in run.states[i].workers
    ensures WorkerOk(env, run.states[i].world, run.states[i].workers[w])
    ensures EntryOk(env, run.states[i].world, run.states[i].workers[w].media)
  {
    hide Apply;
    RunKeeps(env, run, i);
    assert WorkerOk(env, run.states[i].world, run.states[i].workers[w]);
  }

  lemma RunWorld(env: Env, run: Run, i: nat)
    requires EnvOk(env) && IsRun(env, run) && i < |run.states|
    ensures WorldOk(env, run.states[i].world)
  {
    hide Apply;
    RunKeeps(env, run, i);
  }

  lemma RunEntryEvolves(env: Env, run: Run, i: nat, j: nat, m: string)
    requires EnvOk(env) && IsRun(env, run) && i <= j < |run.states|
    ensures EntryEvolves(run.states[i].world, run.states[j].world, m)
  {
    hide Apply;
    RunEvolves(env, run, i, j);
  }

  lemma RunWorldEvolves(env: Env, run: Run, i: nat, j: nat)
    requires EnvOk(env) && IsRun(env, run) && i <= j < |run.states|
    ensures WorldEvolves(run.states[i].world, run.states[j].world)
  {
    hide Apply;
    RunEvolves(env, run, i, j);
  }
}
