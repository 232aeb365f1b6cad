// The invariant of the media pipeline and the two-state relation every step guarantees.
//
// The proof is rely-guarantee in shape: what a worker knows between its own steps (WorkerOk) survives any
// later state (Evolves), so a step only has to establish what its own worker learns.

module ProtocolInvariants {
  import opened Wrappers
  import opened Text
  import opened StorageKeys
  import opened FileStorage
  import opened MediaTransactions
  import opened MediaInvariants
  import opened MediaProtocol
  import Audio = NarrationAudios
  import Video = VideoGenerations
  import Script = ScriptGenerations
  import AudioTable = AudioRepository
  import VideoTable = VideoRepository
  import NewsGate

  // ---- Rows and files of one production ----

  // The stored bytes behind an artifact's key are the ones the artifact describes.
  predicate Describes(env: Env, files: Files, key: string, artifact: Artifact) {
    var target := TargetForKey(key);
    target.Ok? && target.value in files && artifact == ArtifactOf(env.digest, key, files[target.value])
  }

  // A generated record names its own canonical key and describes the file there.
  predicate FilesAgree(env: Env, files: Files, rows: Rows) {
    && (AudioIs(rows, Audio.Generated) ==>
          var a := rows.audio.value;
          && a.storageKey.Some? && a.byteSize.Some? && a.contentSha256.Some?
          && a.storageKey.value == AudioKeyOf(a)
          && Describes(env, files, AudioKeyOf(a),
                       Artifact(a.storageKey.value, a.byteSize.value, a.contentSha256.value)))
    && (VideoIs(rows, Video.Generated) ==>
          var v := rows.video.value;
          && v.storageKey.Some? && v.byteSize.Some? && v.contentSha256.Some?
          && v.storageKey.value == VideoKey(v.mediaProductionId, SCHEDULED_VERSION, AsNat(v.attemptCount), "mp4")
          && Describes(env, files, v.storageKey.value,
                       Artifact(v.storageKey.value, v.byteSize.value, v.contentSha256.value)))
  }

  predicate ScriptReady(g: World, m: string) {
    && m in g.entries
    && ScriptOf(g, m).Some? && Script.Valid(ScriptOf(g, m).value) && ScriptOf(g, m).value.status.Generated?
  }

  predicate EntryOk(env: Env, g: World, m: string) {
    m in g.entries ==>
      && IsUuid(m) && ScriptReady(g, m)
      && RowsOk(env, ScriptOf(g, m).value, m, g.entries[m].rows)
      && LedgersOk(env, g.entries[m].rows, g.entries[m].audioLedger, g.entries[m].videoLedger)
      && FilesAgree(env, g.files, g.entries[m].rows)
  }

  // ---- What a worker knows ----

  function SourceBytes(files: Files, source: Audio.NarrationAudio): Bytes {
    var target := TargetForKey(AudioKeyOf(source));
    if target.Ok? && target.value in files then files[target.value] else []
  }

  // The one speech tool there is spoke the worker's narration.
  predicate SpokenBy(k: Worker, p: Payload)
    requires k.task.AudioTask?
  {
    k.task.row.provider == "openai" && p.origin == Synthesised(k.task.narration)
  }

  predicate AudioWorkerOk(env: Env, g: World, k: Worker)
    requires k.task.AudioTask?
  {
    && ScriptReady(g, k.media) && g.entries[k.media].rows.audio.Some?
    && var row, current, key := k.task.row, g.entries[k.media].rows.audio.value, KeyOf(k);
    && Audio.Valid(row) && row.status.Generating? && row.attemptCount == k.attempt
    && row.mediaProductionId == k.media && AudioTable.Evolves(row, current)
    && k.task.narration == NarrationOf(ScriptOf(g, k.media).value)
    && match k.pc
       case Rendering(_) => false
       case Completing(_, _, _, _) => false
       case RecordingFailure(_, _, _, _) => false
       case Checking(p) => SpokenBy(k, p)
       case Writing(p, _) => SpokenBy(k, p) && p.data != []
       case Linking(p, t) => SpokenBy(k, p) && p.data != [] && t == p.data
       case Rechecking(p) => TargetForKey(key).Ok? && TargetForKey(key).value in g.files
       case Stored(a, _) => Describes(env, g.files, key, a)
       case Done(Generated(a)) => Describes(env, g.files, key, a) && current.status.Generated?
         && current.attemptCount == k.attempt
       case _ => true
  }

  // A file that was there before the run lies at the place of this video attempt.
  predicate Foreign(g: World, m: string, attempt: nat) {
    var path := VideoPath(m, SCHEDULED_VERSION, attempt);
    path in g.files && path in g.origins && g.origins[path] == Preexisting
  }

  // The only ways a video worker fails: its configured tool, the tool's failure, the tool's empty output, or a
  // foreign file at its place.
  predicate VideoCause(g: World, k: Worker, c: Cause) {
    c.UnsupportedTool? || c.ToolFailure? || c == Storage(EmptyData)
      || (c == Storage(Conflict) && Foreign(g, k.media, k.attempt))
  }

  predicate VideoWorkerOk(env: Env, g: World, k: Worker)
    requires k.task.VideoTask?
  {
    && k.media in g.entries && g.entries[k.media].rows.video.Some?
    && var row, current, key := k.task.video, g.entries[k.media].rows.video.value, KeyOf(k);
    && Video.Valid(row) && VideoTable.Stamped(row) && VideoTable.Current(row, k.attempt)
    && row.mediaProductionId == k.media && row.videoVersion == SCHEDULED_VERSION && VideoTable.Evolves(row, current)
    && g.entries[k.media].rows.audio == Some(k.task.source) && k.task.source.status.Generated?
    && (match k.pc
        case Synthesizing => false
        case Rechecking(_) => false
        case Rendering(data) => data == SourceBytes(g.files, k.task.source)
        case Checking(p) => FilmedFrom(g, k, p)
        case Writing(p, _) => FilmedFrom(g, k, p) && p.data != []
        case Linking(p, t) => FilmedFrom(g, k, p) && p.data != [] && t == p.data
        case Stored(a, _) => row.videoFormat == "mp4" && Describes(env, g.files, key, a)
        case Completing(a, d, at, made) =>
          && row.videoFormat == "mp4" && Describes(env, g.files, key, a)
          && IsNormalText(a.storageKey, Video.MAX_STORAGE_KEY)
          && Video.RecordGenerated(row, a.storageKey, a.byteSize, a.contentSha256, d, at) == Ok(made)
        case Failing(c) => VideoCause(g, k, c)
        case RecordingFailure(c, reason, at, f) => VideoCause(g, k, c) && Video.MarkFailed(row, reason, at) == Ok(f)
        case Done(Generated(a)) =>
          && row.videoFormat == "mp4" && Describes(env, g.files, key, a)
          && current.status.Generated? && current.attemptCount == k.attempt
        case Done(FailureRecorded(c)) => VideoCause(g, k, c)
        case _ => true)
  }

  predicate FilmedFrom(g: World, k: Worker, p: Payload)
    requires k.task.VideoTask?
  {
    k.task.video.videoFormat == "mp4" && p.origin == Rendered(k.media, k.attempt, SourceBytes(g.files, k.task.source))
  }

  predicate WorkerOk(env: Env, g: World, k: Worker) {
    && k.attempt >= 1
    && if k.task.AudioTask? then AudioWorkerOk(env, g, k) else VideoWorkerOk(env, g, k)
  }

  // ---- Files ----

  // A file that a worker linked lies at that worker's target and comes from that worker's input.
  predicate OriginOk(env: Env, g: World, p: Path) {
    p in g.origins ==>
      match g.origins[p]
      case Preexisting => true
      case Synthesised(narration) =>
        && |p| >= 3 && p[1] == "audio" && ScriptReady(g, p[2])
        && g.entries[p[2]].rows.audio.Some? && g.entries[p[2]].rows.audio.value.provider == "openai"
        && narration == NarrationOf(ScriptOf(g, p[2]).value)
      case Rendered(m, attempt, audio) =>
        && m in g.entries && g.entries[m].rows.video.Some? && AudioIs(g.entries[m].rows, Audio.Generated)
        && p == VideoPath(m, SCHEDULED_VERSION, attempt)
        && 1 <= attempt <= g.entries[m].rows.video.value.attemptCount
        && audio == SourceBytes(g.files, g.entries[m].rows.audio.value)
  }

  ghost predicate FilesOk(env: Env, g: World) {
    && (forall p :: p in g.files <==> p in g.origins)
    && (forall p :: OriginOk(env, g, p))
  }

  // A video worker that has not linked its file yet.
  predicate BeforeLink(k: Worker) {
    k.task.VideoTask? && (k.pc.Claimed? || k.pc.Rendering? || k.pc.Checking? || k.pc.Writing? || k.pc.Linking?)
  }

  // Its place is free; until it has checked, a file from before the run may lie there.
  predicate PlaceFree(g: World, k: Worker) {
    BeforeLink(k) ==>
      || VideoPath(k.media, SCHEDULED_VERSION, k.attempt) !in g.files
      || (Foreign(g, k.media, k.attempt) && !k.pc.Writing? && !k.pc.Linking?)
  }

  predicate TargetFree(s: State, w: nat) {
    w in s.workers ==> PlaceFree(s.world, s.workers[w])
  }

  // ---- Claims ----

  predicate SameClaim(k: Worker, l: Worker) {
    k.media == l.media && k.attempt == l.attempt && k.task.AudioTask? == l.task.AudioTask?
  }

  predicate ClaimsDiffer(s: State, w: nat, v: nat) {
    w in s.workers && v in s.workers && SameClaim(s.workers[w], s.workers[v]) ==> w == v
  }

  ghost predicate WorldOk(env: Env, g: World) {
    && NewsGate.NewsOk(g.news)
    && (forall m :: EntryOk(env, g, m))
    && FilesOk(env, g)
  }

  ghost predicate Inv(env: Env, s: State) {
    && WorldOk(env, s.world)
    && (forall w {:trigger WorkerOk(env, s.world, s.workers[w])} ::
          w in s.workers ==> WorkerOk(env, s.world, s.workers[w]))
    && (forall w :: TargetFree(s, w))
    && (forall w, v :: ClaimsDiffer(s, w, v))
  }

  // ---- The guarantee of every step ----

  predicate EntryEvolves(g: World, g': World, m: string) {
    m in g.entries ==> m in g'.entries && RowsEvolve(g.entries[m].rows, g'.entries[m].rows)
  }

  // g' is g or a later state of the same database and store: rows only move forward, files and their
  // origins stay.
  ghost predicate WorldEvolves(g: World, g': World) {
    && NewsGate.NewsEvolves(g.news, g'.news)
    && (forall m :: EntryEvolves(g, g', m))
    && Preserves(g.files, g'.files)
    && (forall p :: p in g.origins ==> p in g'.origins && g'.origins[p] == g.origins[p])
  }

  predicate WorkerEvolves(s: State, s': State, w: nat) {
    w in s.workers ==>
      && w in s'.workers && SameClaim(s.workers[w], s'.workers[w])
      && (s.workers[w].pc.Done? ==> s'.workers[w] == s.workers[w])
  }

  // Workers, too, keep their claims and their outcomes.
  ghost predicate Evolves(s: State, s': State) {
    WorldEvolves(s.world, s'.world) && forall w :: WorkerEvolves(s, s', w)
  }

  lemma WorldReflexive(g: World)
    ensures WorldEvolves(g, g)
  {
    forall m ensures EntryEvolves(g, g, m) {
      if m in g.entries { RowsReflexive(g.entries[m].rows); }
    }
  }

  lemma RowsReflexive(rows: Rows)
    ensures RowsEvolve(rows, rows)
  {
  }

  lemma NewsTransitive(n: NewsGate.News, n': NewsGate.News, n'': NewsGate.News)
    requires NewsGate.NewsEvolves(n, n') && NewsGate.NewsEvolves(n', n'')
    ensures NewsGate.NewsEvolves(n, n'')
  {
  }

  lemma WorldTransitive(g: World, h: World, i: World)
    requires WorldEvolves(g, h) && WorldEvolves(h, i)
    ensures WorldEvolves(g, i)
  {
    forall m ensures EntryEvolves(g, i, m) {
      assert EntryEvolves(g, h, m) && EntryEvolves(h, i, m);
      if m in g.entries { RowsEvolveTransitive(g.entries[m].rows, h.entries[m].rows, i.entries[m].rows); }
    }
    NewsTransitive(g.news, h.news, i.news);
  }

  lemma EvolvesTransitive(s: State, t: State, u: State)
    requires Evolves(s, t) && Evolves(t, u)
    ensures Evolves(s, u)
  {
    WorldTransitive(s.world, t.world, u.world);
    forall w ensures WorkerEvolves(s, u, w) {
      assert WorkerEvolves(s, t, w) && WorkerEvolves(t, u, w);
    }
  }

  // ---- What stays true in any later state ----

  lemma ScriptReadyStands(g: World, g': World, m: string)
    requires WorldEvolves(g, g') && ScriptReady(g, m)
    ensures ScriptReady(g', m) && ScriptOf(g', m) == ScriptOf(g, m)
  {
    assert EntryEvolves(g, g', m);
  }

  lemma AudioWorkerStands(env: Env, g: World, g': World, k: Worker)
    requires WorldEvolves(g, g') && k.task.AudioTask? && AudioWorkerOk(env, g, k)
    ensures AudioWorkerOk(env, g', k)
  {
    assert EntryEvolves(g, g', k.media);
    ScriptReadyStands(g, g', k.media);
    AudioTable.EvolvesTransitive(k.task.row, g.entries[k.media].rows.audio.value, g'.entries[k.media].rows.audio.value);
  }

  lemma VideoWorkerStands(env: Env, g: World, g': World, k: Worker)
    requires WorldEvolves(g, g') && k.task.VideoTask? && VideoWorkerOk(env, g, k) && EntryOk(env, g, k.media)
    ensures VideoWorkerOk(env, g', k)
  {
    assert EntryEvolves(g, g', k.media);
    VideoTable.EvolvesTransitive(k.task.video, g.entries[k.media].rows.video.value,
                                 g'.entries[k.media].rows.video.value);
    assert SourceBytes(g'.files, k.task.source) == SourceBytes(g.files, k.task.source);
  }

  // A worker's knowledge survives every later state in which it has not moved.
  lemma WorkerStands(env: Env, g: World, g': World, k: Worker)
    requires WorldEvolves(g, g') && WorkerOk(env, g, k) && EntryOk(env, g, k.media)
    ensures WorkerOk(env, g', k)
  {
    if k.task.AudioTask? { AudioWorkerStands(env, g, g', k); } else { VideoWorkerStands(env, g, g', k); }
  }

  lemma OriginStands(env: Env, g: World, g': World, p: Path)
    requires WorldEvolves(g, g') && OriginOk(env, g, p) && p in g.origins
    requires forall m :: EntryOk(env, g, m)
    ensures OriginOk(env, g', p)
  {
    match g.origins[p]
    case Preexisting =>
    case Synthesised(narration) =>
      assert EntryEvolves(g, g', p[2]);
      ScriptReadyStands(g, g', p[2]);
    case Rendered(m, attempt, audio) =>
      assert EntryEvolves(g, g', m);
      assert EntryOk(env, g, m);
  }
}
