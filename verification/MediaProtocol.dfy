// The media pipeline as a transition system: any number of workers, interleaved at every transaction and
// at every access to the file store, over the rows of every media production.
//
// Each step takes its timestamps as parameters, so a run may use any clocks. Whatever the speech and video
// tools return is a parameter too. Worker ids are never reused; a finished worker keeps its record, so the
// workers also tell the history of the run.

module MediaProtocol {
  import opened Wrappers
  import opened Text
  import opened StorageKeys
  import opened FileStorage
  import opened MediaTransactions
  import opened MediaInvariants
  import Media = MediaProductions
  import Audio = NarrationAudios
  import Video = VideoGenerations
  import Script = ScriptGenerations
  import NewsGate

  // Where the content of a file came from.
  datatype Origin =
    | Preexisting
    | Synthesised(narration: string)
    | Rendered(media: string, attempt: nat, audio: Bytes)

  datatype Payload = Payload(data: Bytes, origin: Origin, durationMs: int)

  // Why a worker failed.
  datatype Cause = UnsupportedTool | SourceCheck | ToolFailure | Storage(error: StorageError)

  datatype Outcome =
    | Generated(artifact: Artifact)
    | GeneratedByAnother
    | AttemptSuperseded
    | FailureRecorded(cause: Cause)
    | Raised
    | Crashed

  // Where a worker that claimed an attempt stands.
  datatype Pc =
    | Claimed
    | Synthesizing
    | Rendering(audioData: Bytes)
    | Checking(payload: Payload)
    | Writing(payload: Payload, temporary: Bytes)
    | Linking(payload: Payload, temporary: Bytes)
    | Rechecking(payload: Payload)
    | Stored(artifact: Artifact, durationMs: int)
    | Completing(artifact: Artifact, durationMs: int, completedAt: int, generated: Video.VideoGeneration)
    | Failing(cause: Cause)
    | RecordingFailure(cause: Cause, reason: string, failedAt: int, failed: Video.VideoGeneration)
    | Done(outcome: Outcome)

  // What the claim gave the worker.
  datatype Task =
    | AudioTask(row: Audio.NarrationAudio, narration: string)
    | VideoTask(video: Video.VideoGeneration, source: Audio.NarrationAudio)

  datatype Worker = Worker(media: string, attempt: nat, task: Task, pc: Pc)

  datatype Entry = Entry(rows: Rows, audioLedger: Ledger, videoLedger: Ledger)

  // The durable part: the database and the file store, with the origin of every file.
  datatype World = World(
    news: NewsGate.News,
    entries: map<string, Entry>,
    files: Files,
    origins: map<Path, Origin>)

  datatype State = State(world: World, workers: map<nat, Worker>)

  datatype Step =
    | ChangeNews(news: NewsGate.Step)
    | CreateMedia(media: string, scriptId: string, mediaVersion: int, at: int)
    | PrepareAudioJob(media: string, newId: string, provider: string, model: string, voice: string, audioFormat: string,
                      staleBefore: int, at: int)
    | PrepareVideoJob(media: string, newId: string, settings: RenderSettings, staleBefore: int, at: int)
    | StartAudio(worker: nat, media: string, at: int)
    | StartVideo(worker: nat, media: string, expected: nat, at: int)
    | LookUp(worker: nat)
    | Synthesize(worker: nat, speech: Option<Bytes>)
    | ReadSource(worker: nat)
    | Render(worker: nat, video: Option<(Bytes, int)>)
    | CheckTarget(worker: nat)
    | WriteTemporary(worker: nat, upTo: nat)
    | LinkTarget(worker: nat)
    | RecheckTarget(worker: nat)
    | RecordAudio(worker: nat, at: int)
    | FailAudio(worker: nat, reason: string, at: int)
    | ReadBeforeSuccess(worker: nat, at: int)
    | WriteSuccess(worker: nat)
    | ReadBeforeFailure(worker: nat, reason: string, at: int)
    | WriteFailure(worker: nat)
    | Crash(worker: nat)

  function AsNat(i: int): nat {
    if i < 0 then 0 else i
  }

  function AudioKeyOf(audio: Audio.NarrationAudio): string {
    AudioKey(audio.mediaProductionId, AsNat(audio.audioVersion), audio.audioFormat)
  }

  function KeyOf(k: Worker): string {
    match k.task
    case AudioTask(row, _) => AudioKeyOf(row)
    case VideoTask(video, _) => VideoKey(video.mediaProductionId, AsNat(video.videoVersion), k.attempt,
                                         video.videoFormat)
  }

  function At(s: State, w: nat, pc: Pc): State
    requires w in s.workers
  {
    s.(workers := s.workers[w := s.workers[w].(pc := pc)])
  }

  function Advance(e: Entry, rows: Rows): Entry {
    Entry(rows, AudioTrack(e.audioLedger, e.rows.audio, rows.audio),
          VideoTrack(e.videoLedger, e.rows.video, rows.video))
  }

  function WithRows(g: World, m: string, rows: Rows): World
    requires m in g.entries
  {
    g.(entries := g.entries[m := Advance(g.entries[m], rows)])
  }

  function ScriptOf(g: World, m: string): Option<Script.ScriptGeneration>
    requires m in g.entries
  {
    var id := g.entries[m].rows.media.scriptGenerationId;
    if id in g.news.scripts then Some(g.news.scripts[id]) else None
  }

  // ---- Intake and preparation ----

  // The scripts the intake query returns.
  predicate IntakeEligible(script: Script.ScriptGeneration) {
    && script.status.Generated? && script.attemptCount >= 1 && script.startedAt.Some? && script.completedAt.Some?
    && (forall t :: t in [script.hook, script.mainNarration, script.projectGComment, script.closing,
                          script.fullNarration] ==>
          t.Some? && Strip(t.value) != "")
    && script.evidenceSnapshot.Some?
  }

  function DoCreateMedia(g: World, m: string, scriptId: string, mediaVersion: int, at: int): World {
    if m in g.entries || !IsUuid(m) || scriptId !in g.news.scripts || !IntakeEligible(g.news.scripts[scriptId]) then g
    else if exists n :: n in g.entries && g.entries[n].rows.media.scriptGenerationId == scriptId
                        && g.entries[n].rows.media.mediaVersion == mediaVersion then g
    else
      match Media.NewPending(m, scriptId, mediaVersion, at)
      case Ok(media) => g.(entries := g.entries[m := Entry(Rows(media, None, None), NO_ATTEMPTS, NO_ATTEMPTS)])
      case Err(_) => g
  }

  function DoPrepareAudio(env: Env, g: World, step: Step): World
    requires step.PrepareAudioJob?
  {
    var m := step.media;
    if m !in g.entries || ScriptOf(g, m).None? then g else
    Prepared(g, m, PrepareAudio(env, ScriptOf(g, m).value, g.entries[m].rows, step.newId, step.provider, step.model,
                                step.voice, step.audioFormat, step.staleBefore, step.at))
  }

  function Prepared(g: World, m: string, tx: Tx<Option<Job>>): World
    requires m in g.entries
  {
    if tx.Abort? then g else WithRows(g, m, tx.rows)
  }

  function DoPrepareVideo(g: World, m: string, newId: string, settings: RenderSettings, staleBefore: int,
                          at: int): World
  {
    if m !in g.entries then g else Prepared(g, m, PrepareVideo(g.entries[m].rows, newId, settings, staleBefore, at))
  }

  // ---- Claims ----

  function DoStartAudio(env: Env, s: State, w: nat, m: string, at: int): State {
    if w in s.workers || m !in s.world.entries then s else
    var tx := ClaimAudio(env, ScriptOf(s.world, m), s.world.entries[m].rows, at);
    if tx.Abort? || !tx.value.AudioClaimed? then s
    else State(WithRows(s.world, m, tx.rows), s.workers[w := AudioWorker(m, tx.value.row, tx.value.narration)])
  }

  function AudioWorker(m: string, row: Audio.NarrationAudio, narration: string): Worker {
    Worker(m, AsNat(row.attemptCount), AudioTask(row, narration), Claimed)
  }

  function DoStartVideo(env: Env, s: State, w: nat, m: string, expected: nat, at: int): State {
    if w in s.workers || m !in s.world.entries then s else
    var tx := ClaimVideo(env, s.world.entries[m].rows, expected, at);
    if tx.Abort? || !tx.value.VideoClaimed? then s
    else State(WithRows(s.world, m, tx.rows), s.workers[w := VideoWorker(m, expected, tx.value.row, tx.value.source)])
  }

  function VideoWorker(m: string, expected: nat, row: Video.VideoGeneration, source: Audio.NarrationAudio): Worker {
    Worker(m, expected, VideoTask(row, source), Claimed)
  }

  // ---- Work outside any transaction ----

  // An audio worker first looks for the artifact a previous attempt may have left.
  function LookedUp(env: Env, files: Files, k: Worker): Pc {
    match Get(env.digest, files, KeyOf(k))
    case Err(e) => Failing(Storage(e))
    case Ok(Some(artifact)) => Stored(artifact, 0)
    case Ok(None) => Synthesizing
  }

  function Spoken(k: Worker, speech: Option<Bytes>): Pc
    requires k.task.AudioTask?
  {
    if k.task.row.provider != "openai" then Failing(UnsupportedTool)
    else if speech.None? then Failing(ToolFailure)
    else Checking(Payload(speech.value, Synthesised(k.task.narration), 0))
  }

  // The renderer's own checks of the claim, the source record and the source bytes.
  function SourceRead(env: Env, files: Files, k: Worker): Pc
    requires k.task.VideoTask?
  {
    var video, source := k.task.video, k.task.source;
    if !video.status.Generating? || video.attemptCount != k.attempt then Failing(SourceCheck)
    else if video.renderer != "ffmpeg" then Failing(UnsupportedTool)
    else if !source.status.Generated? || source.audioGenerationId != video.sourceAudioGenerationId
            || source.mediaProductionId != video.mediaProductionId
            || source.contentSha256 != Some(video.sourceAudioSha256) || source.storageKey.None?
                then Failing(SourceCheck)
    else
      match Read(files, source.storageKey.value)
      case Err(e) => Failing(Storage(e))
      case Ok(None) => Failing(SourceCheck)
      case Ok(Some(data)) =>
        if env.digest(data) != video.sourceAudioSha256 then Failing(SourceCheck) else Rendering(data)
  }

  // The renderer accepts one container format.
  function Filmed(k: Worker, audioData: Bytes, video: Option<(Bytes, int)>): Pc
    requires k.task.VideoTask?
  {
    if k.task.video.videoFormat != "mp4" || video.None? then Failing(ToolFailure)
    else Checking(Payload(video.value.0, Rendered(k.media, k.attempt, audioData), video.value.1))
  }

  function Checked(env: Env, files: Files, k: Worker, p: Payload): Pc {
    if p.data == [] then Failing(Storage(EmptyData)) else
    var target := TargetForKey(KeyOf(k));
    if target.Err? then Failing(Storage(InvalidKey)) else
    match ExistingArtifact(env.digest, files, KeyOf(k), target.value, env.digest(p.data))
    case Err(e) => Failing(Storage(e))
    case Ok(Some(artifact)) => Stored(artifact, p.durationMs)
    case Ok(None) => Writing(p, [])
  }

  // The temporary file grows in any number of writes; only a complete one is linked.
  function Written(p: Payload, upTo: nat): Pc {
    if upTo < |p.data| then Writing(p, p.data[..upTo]) else Linking(p, p.data)
  }

  function DoLink(env: Env, s: State, w: nat): State
    requires w in s.workers && s.workers[w].pc.Linking?
  {
    var k := s.workers[w];
    var target := TargetForKey(KeyOf(k));
    if target.Err? then At(s, w, Failing(Storage(InvalidKey)))
    else if target.value in s.world.files then At(s, w, Rechecking(k.pc.payload))
    else
      At(s.(world := WithFile(s.world, target.value, k.pc.temporary, k.pc.payload.origin)), w,
         Stored(ArtifactOf(env.digest, KeyOf(k), k.pc.payload.data), k.pc.payload.durationMs))
  }

  function WithFile(g: World, target: Path, data: Bytes, origin: Origin): World {
    g.(files := Link(g.files, target, data), origins := if target in g.files then g.origins
       else g.origins[target := origin])
  }

  function Rechecked(env: Env, files: Files, k: Worker, p: Payload): Pc {
    var target := TargetForKey(KeyOf(k));
    if target.Err? then Failing(Storage(InvalidKey)) else
    match ExistingArtifact(env.digest, files, KeyOf(k), target.value, env.digest(p.data))
    case Err(e) => Failing(Storage(e))
    case Ok(Some(artifact)) => Stored(artifact, p.durationMs)
    case Ok(None) => Failing(Storage(Disappeared))
  }

  // ---- Completions ----

  function DoRecordAudio(s: State, w: nat, at: int): State
    requires w in s.workers && s.workers[w].pc.Stored? && s.workers[w].media in s.world.entries
  {
    var k := s.workers[w];
    var tx := RecordAudioSuccess(s.world.entries[k.media].rows, k.attempt, k.pc.artifact, at);
    if tx.Abort? then At(s, w, Done(Raised))
    else At(s.(world := WithRows(s.world, k.media, tx.rows)), w, Done(AudioOutcome(tx.value, k.pc.artifact)))
  }

  function AudioOutcome(settlement: Settlement, artifact: Artifact): Outcome {
    match settlement
    case Recorded => Generated(artifact)
    case AlreadyGenerated => GeneratedByAnother
    case Superseded => AttemptSuperseded
  }

  function Settled(settlement: Settlement, cause: Cause): Outcome {
    if settlement.Recorded? then FailureRecorded(cause) else AttemptSuperseded
  }

  function DoFailAudio(s: State, w: nat, reason: string, at: int): State
    requires w in s.workers && s.workers[w].pc.Failing? && s.workers[w].media in s.world.entries
  {
    var k := s.workers[w];
    var tx := RecordAudioFailure(s.world.entries[k.media].rows, k.attempt, reason, at);
    if tx.Abort? then At(s, w, Done(Raised))
    else At(s.(world := WithRows(s.world, k.media, tx.rows)), w, Done(Settled(tx.value, k.pc.cause)))
  }

  function ReadForCompletion(g: World, k: Worker, at: int): Pc
    requires k.pc.Stored? && k.media in g.entries
  {
    match ReadForSuccess(g.entries[k.media].rows.video, k.attempt, k.pc.artifact, k.pc.durationMs, at)
    case Err(_) => Done(Raised)
    case Ok(None) => Done(AttemptSuperseded)
    case Ok(Some(generated)) => Completing(k.pc.artifact, k.pc.durationMs, at, generated)
  }

  function DoWriteSuccess(s: State, w: nat): State
    requires w in s.workers && s.workers[w].pc.Completing? && s.workers[w].media in s.world.entries
  {
    var k := s.workers[w];
    var tx := UpdateSuccess(s.world.entries[k.media].rows, k.attempt, k.pc.generated);
    if tx.Abort? then At(s, w, Done(Raised))
    else At(s.(world := WithRows(s.world, k.media, tx.rows)), w,
            Done(if tx.value.Recorded? then Generated(k.pc.artifact) else AttemptSuperseded))
  }

  function ReadForRecordingFailure(g: World, k: Worker, reason: string, at: int): Pc
    requires k.pc.Failing? && k.media in g.entries
  {
    match ReadForFailure(g.entries[k.media].rows.video, k.attempt, reason, at)
    case Err(_) => Done(Raised)
    case Ok(None) => Done(AttemptSuperseded)
    case Ok(Some(failed)) => RecordingFailure(k.pc.cause, reason, at, failed)
  }

  function DoWriteFailure(s: State, w: nat): State
    requires w in s.workers && s.workers[w].pc.RecordingFailure? && s.workers[w].media in s.world.entries
  {
    var k := s.workers[w];
    var tx := UpdateFailure(s.world.entries[k.media].rows, k.attempt, k.pc.failed, k.pc.reason, k.pc.failedAt);
    if tx.Abort? then At(s, w, Done(Raised))
    else At(s.(world := WithRows(s.world, k.media, tx.rows)), w, Done(Settled(tx.value, k.pc.cause)))
  }

  // ---- The transition function: a step that is not enabled changes nothing ----

  // Where a step that writes neither rows nor files takes its worker.
  function Moved(env: Env, g: World, k: Worker, step: Step): Pc
    requires k.media in g.entries
  {
    if step.Crash? then Done(Crashed)
    else if k.pc.Checking? || k.pc.Writing? || k.pc.Rechecking? then Storing(env, g.files, k, step)
    else if k.task.AudioTask? then Speaking(env, g.files, k, step)
    else Filming(env, g, k, step)
  }

  function Storing(env: Env, files: Files, k: Worker, step: Step): Pc {
    if k.pc.Checking? && step.CheckTarget? then Checked(env, files, k, k.pc.payload)
    else if k.pc.Writing? && step.WriteTemporary? then Written(k.pc.payload, step.upTo)
    else if k.pc.Rechecking? && step.RecheckTarget? then Rechecked(env, files, k, k.pc.payload)
    else k.pc
  }

  function Speaking(env: Env, files: Files, k: Worker, step: Step): Pc
    requires k.task.AudioTask?
  {
    if k.pc.Claimed? && step.LookUp? then LookedUp(env, files, k)
    else if k.pc.Synthesizing? && step.Synthesize? then Spoken(k, step.speech)
    else k.pc
  }

  function Filming(env: Env, g: World, k: Worker, step: Step): Pc
    requires k.task.VideoTask? && k.media in g.entries
  {
    if k.pc.Claimed? && step.ReadSource? then SourceRead(env, g.files, k)
    else if k.pc.Rendering? && step.Render? then Filmed(k, k.pc.audioData, step.video)
    else if k.pc.Stored? && step.ReadBeforeSuccess? then ReadForCompletion(g, k, step.at)
    else if k.pc.Failing? && step.ReadBeforeFailure? then ReadForRecordingFailure(g, k, step.reason, step.at)
    else k.pc
  }

  // The step of a worker that has claimed its attempt.
  function Work(env: Env, s: State, w: nat, step: Step): State
    requires w in s.workers
  {
    var k := s.workers[w];
    if k.media !in s.world.entries || k.pc.Done? then s
    else if k.pc.Linking? && step.LinkTarget? then DoLink(env, s, w)
    else if Settles(k, step) then Settle(s, w, step)
    else At(s, w, Moved(env, s.world, k, step))
  }

  // The steps that write a result to the database.
  predicate Settles(k: Worker, step: Step) {
    || (k.pc.Stored? && step.RecordAudio? && k.task.AudioTask?)
    || (k.pc.Failing? && step.FailAudio? && k.task.AudioTask?)
    || (k.pc.Completing? && step.WriteSuccess?)
    || (k.pc.RecordingFailure? && step.WriteFailure?)
  }

  function Settle(s: State, w: nat, step: Step): State
    requires w in s.workers && s.workers[w].media in s.world.entries && Settles(s.workers[w], step)
  {
    if step.RecordAudio? then DoRecordAudio(s, w, step.at)
    else if step.FailAudio? then DoFailAudio(s, w, step.reason, step.at)
    else if step.WriteSuccess? then DoWriteSuccess(s, w)
    else DoWriteFailure(s, w)
  }

  // Proofs about runs that do not look inside a step hide this function.
  function Apply(env: Env, s: State, step: Step): State {
    if IsScheduling(step) then s.(world := Scheduled(env, s.world, step))
    else if step.StartAudio? then DoStartAudio(env, s, step.worker, step.media, step.at)
    else if step.StartVideo? then DoStartVideo(env, s, step.worker, step.media, step.expected, step.at)
    else if step.worker in s.workers then Work(env, s, step.worker, step)
    else s
  }

  // The steps no media worker takes part in.
  predicate IsScheduling(step: Step) {
    step.ChangeNews? || step.CreateMedia? || step.PrepareAudioJob? || step.PrepareVideoJob?
  }

  function Scheduled(env: Env, g: World, step: Step): World
    requires IsScheduling(step)
  {
    match step
    case ChangeNews(news) => g.(news := NewsGate.Apply(g.news, news))
    case CreateMedia(m, scriptId, mediaVersion, at) => DoCreateMedia(g, m, scriptId, mediaVersion, at)
    case PrepareAudioJob(_, _, _, _, _, _, _, _) => DoPrepareAudio(env, g, step)
    case PrepareVideoJob(m, newId, settings, staleBefore, at) => DoPrepareVideo(g, m, newId, settings, staleBefore, at)
  }

  // A run starts from an empty database; the store may hold other files.
  ghost predicate Init(s: State) {
    && s.world.news == NewsGate.News(map[], map[], map[], map[])
    && s.world.entries == map[] && s.workers == map[]
    && (forall p :: p in s.world.files <==> p in s.world.origins)
    && (forall p :: p in s.world.files ==> s.world.origins[p] == Preexisting)
  }

  // The states a run goes through and the steps between them.
  datatype Run = Run(states: seq<State>, steps: seq<Step>)

  predicate StepAt(env: Env, run: Run, i: int) {
    0 <= i < |run.steps| && i + 1 < |run.states| ==> run.states[i + 1] == Apply(env, run.states[i], run.steps[i])
  }

  ghost predicate IsRun(env: Env, run: Run) {
    && |run.states| == |run.steps| + 1 && Init(run.states[0])
    && forall i :: StepAt(env, run, i)
  }
}
