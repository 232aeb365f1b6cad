// The gates are exact: an article can end as a generated video if and only if its relevance score lies
// between 40 and 100. One direction is Provenance.OnlyGatedArticles; this is the other, a run for every score.

module Publishing {
  import opened Wrappers
  import opened Text
  import opened StorageKeys
  import opened FileStorage
  import opened MediaTransactions
  import opened MediaProtocol
  import opened ProtocolInvariants
  import opened ProtocolProof
  import opened RunHistory
  import opened Completions
  import opened Recovery
  import opened Provenance
  import Media = MediaProductions
  import Audio = NarrationAudios
  import Video = VideoGenerations
  import Script = ScriptGenerations
  import Metadata = ArticleMetadatas
  import Relevance = RelevanceAnalyses
  import Priority = PriorityAnalyses
  import AudioTable = AudioRepository
  import NewsGate

  const NO_NEWS := NewsGate.News(map[], map[], map[], map[])

  // Nothing stored but these files.
  function Beginning(files: Files): State {
    State(World(NO_NEWS, map[], files, map p | p in files :: Preexisting), map[])
  }

  // ---- The article ----

  lemma ShortText()
    ensures IsNormalText("x", 1) && Strip("x") == "x"
    ensures NormalizeBlank(Some("x"), 500) == Ok(Some("x")) && NormalizeBlank(Some("x"), 2000) == Ok(Some("x"))
  {
    StripIsNormal("x");
  }

  function Decision(score: int): Relevance.Decision {
    if score >= Relevance.ACCEPTED_MIN_SCORE then Relevance.Accepted else Relevance.Review
  }

  function MetadataOf(i: string): Metadata.ArticleMetadata {
    Metadata.ArticleMetadata("m", i, Metadata.Extracted, Some("x"), Some(0), None, None, 0, 0)
  }

  function RelevanceOf(i: string, score: int): Relevance.RelevanceAnalysis {
    Relevance.RelevanceAnalysis("a", i, Relevance.Analyzed, Some(score), Some(Decision(score)), Some("x"), None, 0, 0)
  }

  function PriorityOf(i: string): Priority.PriorityAnalysis {
    Priority.PriorityAnalysis("p", i, Priority.Analyzed, Some(50), Some("x"), None, 0, 0)
  }

  function ScriptFor(i: string): Script.ScriptGeneration {
    Script.ScriptGeneration("g", i, NewsGate.SCRIPT_VERSION, Script.Generated, 50, 1, None, Some("x"), Some("x"),
                            Some("x"), Some("x"), Some("x"), Some([]), 0, Some(0), Some(0), 0, None)
  }

  // The article once its analyses are done.
  function Analysed(i: string, score: int): NewsGate.News {
    NewsGate.News(map[i := MetadataOf(i)], map[i := RelevanceOf(i, score)], map[i := PriorityOf(i)], map[])
  }

  function Scripted(i: string, score: int): NewsGate.News {
    Analysed(i, score).(scripts := map["g" := ScriptFor(i)])
  }

  lemma Extracts(i: string)
    ensures var n := NewsGate.Apply(NO_NEWS, NewsGate.Register(i, "m", "a", 0));
      NewsGate.Apply(n, NewsGate.ChangeMetadata(i, Metadata.RecordExtracted("x", Some(0), None), 0))
      == NewsGate.News(map[i := MetadataOf(i)], map[i := Relevance.NewPending("a", i, 0)], map[], map[])
  {
    ShortText();
    Metadata.PostInitSpec(MetadataOf(i));
  }

  lemma Analyses(i: string, score: int)
    requires 40 <= score <= 100
    ensures var n := NewsGate.News(map[i := MetadataOf(i)], map[i := Relevance.NewPending("a", i, 0)], map[], map[]);
      var n' := NewsGate.Apply(n, NewsGate.AnalyzeRelevance(i, score, "x", "p", 0));
      NewsGate.Apply(n', NewsGate.AnalyzePriority(i, 50, "x", 0)) == Analysed(i, score)
  {
    ShortText();
    var n := NewsGate.News(map[i := MetadataOf(i)], map[i := Relevance.NewPending("a", i, 0)], map[], map[]);
    assert Relevance.RecordAnalyzed(n.relevance[i], score, Decision(score), "x", 0) == Ok(RelevanceOf(i, score));
    var n' := NewsGate.Apply(n, NewsGate.AnalyzeRelevance(i, score, "x", "p", 0));
    assert n' == NewsGate.News(map[i := MetadataOf(i)], map[i := RelevanceOf(i, score)],
                               map[i := Priority.NewPending("p", i, 0)], map[]);
    assert Priority.RecordAnalyzed(n'.priority[i], 50, "x", 0) == Ok(PriorityOf(i));
  }

  const OUTPUT := Script.ScriptOutput("x", "x", "x", Some("x"), "x", [], None)

  lemma Scripts(i: string, score: int, timeout: int)
    requires 40 <= score <= 100
    ensures var n := NewsGate.Apply(Analysed(i, score), NewsGate.ClaimScript(i, "g", 50, 0, timeout, 0));
      NewsGate.Apply(n, NewsGate.RecordScript("g", OUTPUT, 0)) == Scripted(i, score)
  {
    ShortText();
    var pending := Script.ScriptGeneration("g", i, NewsGate.SCRIPT_VERSION, Script.Pending, 50, 0, None, None, None,
                                           None, None, None, None, 0, None, None, 0, None);
    Script.PostInitSpec(pending);
    assert Script.NewPending("g", i, NewsGate.SCRIPT_VERSION, 50, 0) == Ok(pending);
    var claimed := Script.ClaimedRow(pending, 0);
    var n := NewsGate.Apply(Analysed(i, score), NewsGate.ClaimScript(i, "g", 50, 0, timeout, 0));
    assert n == Analysed(i, score).(scripts := map["g" := claimed]);
    Script.PostInitSpec(ScriptFor(i));
    assert Script.Valid(ScriptFor(i));
    assert Script.RecordGenerated(claimed, OUTPUT, 0) == Ok(ScriptFor(i));
  }

  // A run of this module starts with these files and nothing else.
  ghost predicate From(env: Env, run: Run, files: Files) {
    IsRun(env, run) && run.states[0] == Beginning(files)
  }

  lemma Further(env: Env, files: Files, run: Run, step: Step) returns (next: Run)
    requires EnvOk(env) && From(env, run, files)
    ensures From(env, next, files) && Last(next) == Apply(env, Last(run), step)
  {
    next := Extend(env, run, step);
  }

  // A step of the stages before changes nothing else.
  lemma NewsStep(env: Env, files: Files, run: Run, step: NewsGate.Step) returns (next: Run)
    requires EnvOk(env) && From(env, run, files)
    ensures From(env, next, files)
    ensures Last(next) == Last(run).(world := Last(run).world.(news := NewsGate.Apply(Last(run).world.news, step)))
  {
    next := Further(env, files, run, ChangeNews(step));
  }

  lemma ArticleReady(env: Env, files: Files, i: string, score: int) returns (run: Run)
    requires EnvOk(env) && 40 <= score <= 100
    ensures From(env, run, files)
    ensures Last(run) == Beginning(files).(world := Beginning(files).world.(news := Scripted(i, score)))
  {
    hide Apply;
    run := Run([Beginning(files)], []);
    run := NewsStep(env, files, run, NewsGate.Register(i, "m", "a", 0));
    run := NewsStep(env, files, run, NewsGate.ChangeMetadata(i, Metadata.RecordExtracted("x", Some(0), None), 0));
    Extracts(i);
    run := NewsStep(env, files, run, NewsGate.AnalyzeRelevance(i, score, "x", "p", 0));
    run := NewsStep(env, files, run, NewsGate.AnalyzePriority(i, 50, "x", 0));
    Analyses(i, score);
    run := NewsStep(env, files, run, NewsGate.ClaimScript(i, "g", 50, 0, env.timeout, 0));
    run := NewsStep(env, files, run, NewsGate.RecordScript("g", OUTPUT, 0));
    Scripts(i, score, env.timeout);
  }

  // ---- Its narration, claimed and recorded at a given instant ----

  function PendingMedia(m: string): Media.MediaProduction {
    Media.MediaProduction(m, "g", 1, Media.Pending, 0, None, 0, None, None, 0)
  }

  function RunningMedia(m: string, at: int): Media.MediaProduction {
    Media.MediaProduction(m, "g", 1, Media.Processing, 1, None, 0, Some(at), None, at)
  }

  function PendingAudio(env: Env, m: string, at: int): Audio.NarrationAudio {
    Audio.NarrationAudio("n", m, SCHEDULED_VERSION, Audio.Pending, "openai", "x", "x", "mp3", env.textDigest("x"), 0,
                         None, None, None, None, at, None, None, at)
  }

  function RunningAudio(env: Env, m: string, at: int): Audio.NarrationAudio {
    AudioTable.ClaimedRow(PendingAudio(env, m, 0), at)
  }

  // The article is ready and its production has these rows.
  predicate Stage(t: State, i: string, score: int, m: string, rows: Rows) {
    t.world.news == Scripted(i, score) && m in t.world.entries && t.world.entries[m].rows == rows
  }

  lemma Created(env: Env, files: Files, i: string, score: int, m: string)
    requires IsUuid(m)
    ensures var t := Beginning(files).(world := Beginning(files).world.(news := Scripted(i, score)));
      var t' := Apply(env, t, CreateMedia(m, "g", 1, 0));
      Stage(t', i, score, m, Rows(PendingMedia(m), None, None)) && t'.workers == map[] && t'.world.files == files
  {
    ShortText();
    Media.PostInitSpec(PendingMedia(m));
    assert IntakeEligible(ScriptFor(i));
  }

  lemma CreatedOn(env: Env, files: Files, i: string, score: int, m: string) returns (run: Run)
    requires EnvOk(env) && IsUuid(m) && 40 <= score <= 100
    ensures From(env, run, files) && Stage(Last(run), i, score, m, Rows(PendingMedia(m), None, None))
    ensures Last(run).workers == map[] && Last(run).world.files == files
  {
    hide Apply;
    run := ArticleReady(env, files, i, score);
    Created(env, files, i, score, m);
    run := Further(env, files, run, CreateMedia(m, "g", 1, 0));
  }

  lemma AudioIsValid(env: Env, m: string, at: int)
    requires EnvOk(env)
    ensures Audio.Valid(PendingAudio(env, m, at))
    ensures Audio.NewPending("n", m, SCHEDULED_VERSION,
                             Audio.Configuration("openai", "x", "x", "mp3", env.textDigest("x")), at)
      == Ok(PendingAudio(env, m, at))
  {
    assert IsSha256Hex(env.textDigest("x"));
    Audio.PostInitSpec(PendingAudio(env, m, at));
  }

  function AudioJob(m: string, at: int): Step {
    PrepareAudioJob(m, "n", "openai", "x", "x", "mp3", at, at)
  }

  lemma AudioPrepared(env: Env, t: State, i: string, score: int, m: string, at: int)
    requires EnvOk(env) && Stage(t, i, score, m, Rows(PendingMedia(m), None, None))
    ensures var t' := Apply(env, t, AudioJob(m, at));
      && Stage(t', i, score, m, Rows(PendingMedia(m), Some(PendingAudio(env, m, at)), None))
      && t'.workers == t.workers && t'.world.files == t.world.files
  {
    ShortText();
    AudioIsValid(env, m, at);
  }

  lemma AudioPreparedOn(env: Env, files: Files, i: string, score: int, m: string, at: int) returns (run: Run)
    requires EnvOk(env) && IsUuid(m) && 40 <= score <= 100
    ensures From(env, run, files)
    ensures Stage(Last(run), i, score, m, Rows(PendingMedia(m), Some(PendingAudio(env, m, at)), None))
    ensures Last(run).workers == map[] && Last(run).world.files == files
  {
    hide Apply;
    run := CreatedOn(env, files, i, score, m);
    AudioPrepared(env, Last(run), i, score, m, at);
    run := Further(env, files, run, AudioJob(m, at));
  }

  // Worker 0 holds the narration attempt and stands at pc.
  predicate Narrates(env: Env, t: State, i: string, score: int, m: string, at: int, pc: Pc) {
    && Stage(t, i, score, m, Rows(RunningMedia(m, at), Some(RunningAudio(env, m, at)), None))
    && t.workers == map[0 := Worker(m, 1, AudioTask(RunningAudio(env, m, at), "x"), pc)]
  }

  lemma AudioStarted(env: Env, t: State, i: string, score: int, m: string, at: int)
    requires EnvOk(env) && at >= 0 && t.workers == map[]
    requires Stage(t, i, score, m, Rows(PendingMedia(m), Some(PendingAudio(env, m, 0)), None))
    ensures var t' := Apply(env, t, StartAudio(0, m, at));
      Narrates(env, t', i, score, m, at, Claimed) && t'.world.files == t.world.files
  {
    ShortText();
    Media.PostInitSpec(RunningMedia(m, at));
    assert Media.Start(PendingMedia(m), at) == Ok(RunningMedia(m, at));
  }

  lemma AudioStartedOn(env: Env, files: Files, i: string, score: int, m: string, at: int) returns (run: Run)
    requires EnvOk(env) && IsUuid(m) && 40 <= score <= 100 && at >= 0
    ensures From(env, run, files) && Narrates(env, Last(run), i, score, m, at, Claimed)
    ensures Last(run).world.files == files
  {
    hide Apply;
    run := AudioPreparedOn(env, files, i, score, m, 0);
    AudioStarted(env, Last(run), i, score, m, at);
    run := Further(env, files, run, StartAudio(0, m, at));
  }

  lemma AudioMove(env: Env, t: State, i: string, score: int, m: string, at: int, pc: Pc, step: Step, next: Pc)
    requires Narrates(env, t, i, score, m, at, pc) && !pc.Done? && !IsScheduling(step) && !step.StartAudio?
    requires !step.StartVideo?
    requires step.worker == 0 && !Settles(t.workers[0], step) && !step.LinkTarget?
    requires Moved(env, t.world, t.workers[0], step) == next
    ensures var t' := Apply(env, t, step); Narrates(env, t', i, score, m, at, next) && t'.world.files == t.world.files
  {
  }

  lemma AudioMoveOn(env: Env, files: Files, run: Run, i: string, score: int, m: string, at: int, pc: Pc, step: Step,
                    next: Pc)
    returns (further: Run)
    requires EnvOk(env) && From(env, run, files) && Narrates(env, Last(run), i, score, m, at, pc)
    requires Last(run).world.files == files
    requires !pc.Done? && !IsScheduling(step) && !step.StartAudio? && !step.StartVideo?
    requires step.worker == 0 && !Settles(Last(run).workers[0], step) && !step.LinkTarget?
    requires Moved(env, Last(run).world, Last(run).workers[0], step) == next
    ensures From(env, further, files) && Narrates(env, Last(further), i, score, m, at, next)
    ensures Last(further).world.files == files
  {
    hide Apply;
    AudioMove(env, Last(run), i, score, m, at, pc, step, next);
    further := Further(env, files, run, step);
  }

  function AudioPath(m: string): Path {
    ["media", "audio", m, "v1.mp3"]
  }

  lemma AudioKeyPlace(env: Env, m: string, at: int)
    requires IsUuid(m)
    ensures TargetForKey(AudioKeyOf(RunningAudio(env, m, at))) == Ok(AudioPath(m))
    ensures IsNormalText(AudioKeyOf(RunningAudio(env, m, at)), Audio.MAX_STORAGE_KEY)
  {
    assert Decimal(1) == "1";
    assert "v" + Decimal(1) + "." + "mp3" == "v1.mp3";
    PlainComponents(m, 1);
    TargetOfPlainKey(AudioPath(m));
    KeyLength(AudioPath(m), 36);
  }

  // A key of short components is short.
  lemma {:induction false} KeyLength(parts: seq<string>, most: nat)
    requires parts != [] && forall k :: 0 <= k < |parts| ==> |parts[k]| <= most
    ensures |Join(parts)| <= |parts| * (most + 1)
  {
    if |parts| > 1 { KeyLength(parts[1..], most); }
  }

  function Speech(data: Bytes): Payload {
    Payload(data, Synthesised("x"), 0)
  }

  lemma NarrationMoves(env: Env, files: Files, t: State, m: string, at: int, data: Bytes)
    requires IsUuid(m) && t.world.files == files && AudioPath(m) !in files && data != []
    requires 0 in t.workers && t.workers[0].media == m && m in t.world.entries
    requires t.workers[0].task == AudioTask(RunningAudio(env, m, at), "x")
    ensures t.workers[0].pc == Claimed ==> Moved(env, t.world, t.workers[0], LookUp(0)) == Synthesizing
    ensures t.workers[0].pc == Synthesizing ==>
      Moved(env, t.world, t.workers[0], Synthesize(0, Some(data))) == Checking(Speech(data))
    ensures t.workers[0].pc == Checking(Speech(data)) ==>
      Moved(env, t.world, t.workers[0], CheckTarget(0)) == Writing(Speech(data), [])
  {
    AudioKeyPlace(env, m, at);
  }

  lemma LookedUpOn(env: Env, files: Files, i: string, score: int, m: string, at: int) returns (run: Run)
    requires EnvOk(env) && IsUuid(m) && AudioPath(m) !in files && 40 <= score <= 100 && at >= 0
    ensures From(env, run, files) && Narrates(env, Last(run), i, score, m, at, Synthesizing)
    ensures Last(run).world.files == files
  {
    hide Apply;
    run := AudioStartedOn(env, files, i, score, m, at);
    NarrationMoves(env, files, Last(run), m, at, [1]);
    run := AudioMoveOn(env, files, run, i, score, m, at, Claimed, LookUp(0), Synthesizing);
  }

  lemma SpokenOn(env: Env, files: Files, i: string, score: int, m: string, at: int, data: Bytes) returns (run: Run)
    requires EnvOk(env) && IsUuid(m) && AudioPath(m) !in files && 40 <= score <= 100 && at >= 0 && data != []
    ensures From(env, run, files) && Narrates(env, Last(run), i, score, m, at, Checking(Speech(data)))
    ensures Last(run).world.files == files
  {
    hide Apply;
    run := LookedUpOn(env, files, i, score, m, at);
    NarrationMoves(env, files, Last(run), m, at, data);
    run := AudioMoveOn(env, files, run, i, score, m, at, Synthesizing, Synthesize(0, Some(data)),
                       Checking(Speech(data)));
  }

  lemma CheckedOn(env: Env, files: Files, i: string, score: int, m: string, at: int, data: Bytes) returns (run: Run)
    requires EnvOk(env) && IsUuid(m) && AudioPath(m) !in files && 40 <= score <= 100 && at >= 0 && data != []
    ensures From(env, run, files) && Narrates(env, Last(run), i, score, m, at, Writing(Speech(data), []))
    ensures Last(run).world.files == files
  {
    hide Apply;
    run := SpokenOn(env, files, i, score, m, at, data);
    NarrationMoves(env, files, Last(run), m, at, data);
    run := AudioMoveOn(env, files, run, i, score, m, at, Checking(Speech(data)), CheckTarget(0),
                       Writing(Speech(data), []));
  }

  lemma WrittenOn(env: Env, files: Files, i: string, score: int, m: string, at: int, data: Bytes) returns (run: Run)
    requires EnvOk(env) && IsUuid(m) && AudioPath(m) !in files && 40 <= score <= 100 && at >= 0 && data != []
    ensures From(env, run, files) && Narrates(env, Last(run), i, score, m, at, Linking(Speech(data), data))
    ensures Last(run).world.files == files
  {
    hide Apply;
    run := CheckedOn(env, files, i, score, m, at, data);
    run := AudioMoveOn(env, files, run, i, score, m, at, Writing(Speech(data), []), WriteTemporary(0, |data|),
                       Linking(Speech(data), data));
  }

  // The artifact the narration worker ends with.
  function SpokenArtifact(env: Env, m: string, at: int, data: Bytes): Artifact {
    ArtifactOf(env.digest, AudioKeyOf(RunningAudio(env, m, at)), data)
  }

  lemma AudioLinked(env: Env, files: Files, t: State, i: string, score: int, m: string, at: int, data: Bytes)
    requires IsUuid(m) && t.world.files == files && AudioPath(m) !in files
    requires Narrates(env, t, i, score, m, at, Linking(Speech(data), data))
    ensures Narrates(env, DoLink(env, t, 0), i, score, m, at, Stored(SpokenArtifact(env, m, at, data), 0))
  {
    AudioKeyPlace(env, m, at);
  }

  lemma LinkedOn(env: Env, files: Files, i: string, score: int, m: string, at: int, data: Bytes) returns (run: Run)
    requires EnvOk(env) && IsUuid(m) && AudioPath(m) !in files && 40 <= score <= 100 && at >= 0 && data != []
    ensures From(env, run, files)
    ensures Narrates(env, Last(run), i, score, m, at, Stored(SpokenArtifact(env, m, at, data), 0))
  {
    hide Apply;
    run := WrittenOn(env, files, i, score, m, at, data);
    AudioLinked(env, files, Last(run), i, score, m, at, data);
    LinkApplies(env, Last(run), 0);
    run := Further(env, files, run, LinkTarget(0));
  }

  function DoneAudio(env: Env, m: string, at: int, data: Bytes): Audio.NarrationAudio {
    RunningAudio(env, m, at).(status := Audio.Generated, storageKey := Some(AudioKeyOf(RunningAudio(env, m, at))),
      byteSize := Some(|data|), contentSha256 := Some(env.digest(data)), completedAt := Some(at), updatedAt := at)
  }

  lemma AudioCompletes(env: Env, m: string, at: int, data: Bytes)
    requires EnvOk(env) && IsUuid(m) && data != [] && at >= 0
    ensures Audio.RecordGenerated(RunningAudio(env, m, at), AudioKeyOf(RunningAudio(env, m, at)), |data|,
                                  env.digest(data), at)
      == Ok(DoneAudio(env, m, at, data))
  {
    AudioIsValid(env, m, 0);
    AudioKeyPlace(env, m, at);
    assert IsSha256Hex(env.digest(data));
    AudioTable.ClaimKeepsValid(PendingAudio(env, m, 0), at);
    Audio.RecordGeneratedSpec(RunningAudio(env, m, at), AudioKeyOf(RunningAudio(env, m, at)), |data|, env.digest(data),
                              at);
  }

  lemma AudioCommits(env: Env, m: string, at: int, data: Bytes)
    requires EnvOk(env) && IsUuid(m) && data != [] && at >= 0
    ensures RecordAudioSuccess(Rows(RunningMedia(m, at), Some(RunningAudio(env, m, at)), None), 1,
                               SpokenArtifact(env, m, at, data), at)
      == Commit(Rows(RunningMedia(m, at), Some(DoneAudio(env, m, at, data)), None), Recorded)
  {
    AudioCompletes(env, m, at, data);
  }

  lemma AudioRecorded(env: Env, t: State, i: string, score: int, m: string, at: int, data: Bytes)
    requires EnvOk(env) && IsUuid(m) && data != [] && at >= 0
    requires Narrates(env, t, i, score, m, at, Stored(SpokenArtifact(env, m, at, data), 0))
    ensures Stage(DoRecordAudio(t, 0, at), i, score, m,
                  Rows(RunningMedia(m, at), Some(DoneAudio(env, m, at, data)), None))
  {
    AudioCommits(env, m, at, data);
  }

  lemma RecordedOn(env: Env, files: Files, i: string, score: int, m: string, at: int, data: Bytes) returns (run: Run)
    requires EnvOk(env) && IsUuid(m) && AudioPath(m) !in files && 40 <= score <= 100 && data != [] && at >= 0
    ensures From(env, run, files)
    ensures Stage(Last(run), i, score, m, Rows(RunningMedia(m, at), Some(DoneAudio(env, m, at, data)), None))
  {
    hide Apply;
    run := LinkedOn(env, files, i, score, m, at, data);
    AudioRecorded(env, Last(run), i, score, m, at, data);
    RecordAudioStep(env, Last(run), 0, at);
    run := Further(env, files, run, RecordAudio(0, at));
  }

  // ---- Its video ----

  const SETTINGS := RenderSettings("ffmpeg", "mp4", 1080, 1920, 30)

  function PendingVideo(env: Env, m: string, data: Bytes): Video.VideoGeneration {
    Video.VideoGeneration("v", m, SCHEDULED_VERSION, Video.Pending, "ffmpeg", "mp4", 1080, 1920, 30, "n",
                          env.digest(data), 0, None, None, None, None, None, 0, None, None, 0)
  }

  lemma VideoCommits(env: Env, m: string, at: int, data: Bytes)
    requires EnvOk(env)
    ensures var rows := Rows(RunningMedia(m, at), Some(DoneAudio(env, m, at, data)), None);
      var tx := PrepareVideo(rows, "v", SETTINGS, 0, 0);
      tx.Commit? && tx.rows == rows.(video := Some(PendingVideo(env, m, data)))
  {
    assert IsSha256Hex(env.digest(data));
    Video.PostInitSpec(PendingVideo(env, m, data));
    assert Video.NewPending("v", m, SCHEDULED_VERSION, RequestFor(SETTINGS, DoneAudio(env, m, at, data)), 0)
      == Ok(PendingVideo(env, m, data));
  }

  lemma VideoPrepared(env: Env, t: State, i: string, score: int, m: string, at: int, data: Bytes)
    requires EnvOk(env) && Stage(t, i, score, m, Rows(RunningMedia(m, at), Some(DoneAudio(env, m, at, data)), None))
    ensures var t' := t.(world := DoPrepareVideo(t.world, m, "v", SETTINGS, 0, 0));
      Stage(t', i, score, m,
            Rows(RunningMedia(m, at), Some(DoneAudio(env, m, at, data)), Some(PendingVideo(env, m, data))))
  {
    VideoCommits(env, m, at, data);
  }

  lemma PreparationStep(env: Env, t: State, m: string, newId: string, settings: RenderSettings, staleBefore: int,
                        at: int)
    ensures Apply(env, t, PrepareVideoJob(m, newId, settings, staleBefore, at))
      == t.(world := DoPrepareVideo(t.world, m, newId, settings, staleBefore, at))
  {
  }

  lemma VideoPreparedOn(env: Env, files: Files, i: string, score: int, m: string, at: int, data: Bytes)
    returns (run: Run)
    requires EnvOk(env) && IsUuid(m) && AudioPath(m) !in files && 40 <= score <= 100 && data != [] && at >= 0
    ensures From(env, run, files)
    ensures Stage(Last(run), i, score, m,
                  Rows(RunningMedia(m, at), Some(DoneAudio(env, m, at, data)), Some(PendingVideo(env, m, data))))
  {
    hide Apply;
    run := RecordedOn(env, files, i, score, m, at, data);
    VideoPrepared(env, Last(run), i, score, m, at, data);
    PreparationStep(env, Last(run), m, "v", SETTINGS, 0, 0);
    run := Further(env, files, run, PrepareVideoJob(m, "v", SETTINGS, 0, 0));
  }

  lemma VideoKeyFits(m: string)
    requires IsUuid(m)
    ensures |VideoKey(m, SCHEDULED_VERSION, 1, "mp4")| <= Video.MAX_STORAGE_KEY
  {
    assert Decimal(1) == "1";
    assert "v" + Decimal(1) == "v1" && "a" + Decimal(1) + "." + "mp4" == "a1.mp4";
    KeyLength(["media", "video", m, "v1", "a1.mp4"], 36);
  }

  // ---- The whole run ----

  // The relevance score of the article behind a production.
  function ScoreOf(g: World, m: string): Option<int> {
    if m in g.entries && ScriptOf(g, m).Some? && ScriptOf(g, m).value.intakeId in g.news.relevance
    then g.news.relevance[ScriptOf(g, m).value.intakeId].relevanceScore
    else None
  }

  ghost predicate Published(env: Env, run: Run, m: string, score: int) {
    && IsRun(env, run)
    && VideoRow(Last(run), m).Some? && VideoRow(Last(run), m).value.status.Generated?
    && ScoreOf(Last(run).world, m) == Some(score)
  }

  // For every score from 40 to 100, every narration the speech tool returns and every film the renderer returns, a
  // run takes an article from its registration to a generated video, whatever else is stored, as long as the
  // production's first two places are free.
  lemma Publishes(env: Env, files: Files, i: string, score: int, m: string, speech: Bytes, film: Bytes, durationMs: int)
    returns (run: Run)
    requires EnvOk(env) && IsUuid(m) && 40 <= score <= 100 && speech != [] && film != [] && durationMs >= 1
    requires AudioPath(m) !in files && VideoPath(m, SCHEDULED_VERSION, 1) !in files
    ensures Published(env, run, m, score) && run.states[0] == Beginning(files)
  {
    var prepared := VideoPreparedOn(env, files, i, score, m, 0, speech);
    VideoKeyFits(m);
    run := NextFinished(env, prepared, m, film, durationMs);
    assert run.states[0] == prepared.states[0];
    ScoreStays(env, prepared, run, i, score, m);
  }

  lemma ScoreStays(env: Env, prepared: Run, run: Run, i: string, score: int, m: string)
    requires EnvOk(env) && IsRun(env, prepared) && IsRun(env, run) && prepared.states <= run.states
    requires Last(prepared).world.news == Scripted(i, score) && m in Last(prepared).world.entries
    requires Last(prepared).world.entries[m].rows.media.scriptGenerationId == "g"
    ensures ScoreOf(Last(run).world, m) == Some(score)
  {
    hide Apply;
    assert run.states[|prepared.steps|] == Last(prepared);
    RunWorldEvolves(env, run, |prepared.steps|, |run.steps|);
    assert EntryEvolves(Last(prepared).world, Last(run).world, m);
  }

  // The gate on relevance is exact.
  lemma ScoreDecides(env: Env, score: int)
    requires EnvOk(env)
    ensures (exists run, m :: Published(env, run, m, score)) <==> 40 <= score <= 100
  {
    if run, m :| Published(env, run, m, score) {
      OnlyGatedArticles(env, run, |run.steps|, m);
    }
    if 40 <= score <= 100 {
      var m := seq(36, _ => '0');
      var run := Publishes(env, map[], "i", score, m, [1], [1], 1);
      assert Published(env, run, m, score);
    }
  }
}
