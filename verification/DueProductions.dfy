// Which productions the schedulers offer in a run, and which of them get a job: exactly those whose next attempt a
// worker could claim at that moment.

module DueProductions {
  import opened Wrappers
  import opened Text
  import opened Sorting
  import opened Selection
  import opened MediaTransactions
  import opened MediaInvariants
  import opened MediaProtocol
  import opened ProtocolInvariants
  import opened ProtocolProof
  import opened RunHistory
  import opened RowChanges
  import opened Provenance
  import opened VideoScheduling
  import opened VideoJobs
  import opened Clocks
  import opened BatchSteps
  import opened BatchJobs
  import Audio = NarrationAudios
  import Video = VideoGenerations

  // ---- Videos ----

  // The narration is there, and a video is still to be asked for or some attempt at it can be claimed now.
  ghost predicate VideoDue(env: Env, t: State, m: string, at: int) {
    && AudioRow(t, m).Some? && AudioRow(t, m).value.status == Audio.Generated
    && (VideoRow(t, m).None? || exists attempt: nat :: Claims(env, t.world.entries[m].rows, attempt, at))
  }

  lemma DueIsEligible(env: Env, g: World, m: string, at: int)
    requires EntryOk(env, g, m) && m in g.entries
    requires g.entries[m].rows.video.Some? ==> g.entries[m].rows.video.value.updatedAt <= at
    ensures VideoEligible(g.entries[m].rows, at - env.timeout) <==>
      AudioIs(g.entries[m].rows, Audio.Generated)
      && (g.entries[m].rows.video.None? || exists attempt: nat :: Claims(env, g.entries[m].rows, attempt, at))
  {
    var rows := g.entries[m].rows;
    if rows.video.Some? {
      var next := rows.video.value.attemptCount + 1;
      VideoClaimOf(env, g, m, next, at);
      if attempt: nat :| Claims(env, rows, attempt, at) { VideoClaimOf(env, g, m, attempt, at); }
      assert Claims(env, rows, next, at) <==> VideoEligible(rows, at - env.timeout);
    }
  }

  lemma EligibleIsValid(env: Env, g: World, m: string, staleBefore: int)
    requires EntryOk(env, g, m) && m in g.entries
    ensures CandidateAt(ProductionsOf(g), staleBefore, m) ==
      if VideoEligible(g.entries[m].rows, staleBefore) then Some(Candidate(m, g.entries[m].rows.audio.value)) else None
  {
  }

  // In any state of any run a production is a candidate exactly when its video is due, unless the clock is behind the
  // video row.
  lemma CandidateIff(env: Env, run: Run, i: nat, m: string, at: int)
    requires EnvOk(env) && IsRun(env, run) && i < |run.states|
    requires VideoRow(run.states[i], m).Some? ==> VideoRow(run.states[i], m).value.updatedAt <= at
    ensures var c := CandidateAt(ProductionsOf(run.states[i].world), at - env.timeout, m);
      && (c.Some? <==> VideoDue(env, run.states[i], m, at))
      && (c.Some? ==> c.value.media == m && Some(c.value.audio) == AudioRow(run.states[i], m))
  {
    hide Apply;
    RunEntry(env, run, i, m);
    if m in run.states[i].world.entries {
      DueIsEligible(env, run.states[i].world, m, at);
      EligibleIsValid(env, run.states[i].world, m, at - env.timeout);
    }
  }

  // The clock is not behind any video row.
  ghost predicate NoVideoAhead(t: State, at: int) {
    forall m :: VideoRow(t, m).Some? ==> VideoRow(t, m).value.updatedAt <= at
  }

  predicate Lists(listed: seq<Candidate>, m: string) {
    exists k :: 0 <= k < |listed| && listed[k].media == m
  }

  // Created earlier; of two created at once, the one with the smaller id.
  predicate Older(t: State, m: string, n: string) {
    && MediaRow(t, m).Some? && MediaRow(t, n).Some? && m != n
    && var a, b := MediaRow(t, m).value.createdAt, MediaRow(t, n).value.createdAt;
       a < b || (a == b && StringLe(m, n))
  }

  // What a scan lists: due productions with their narration, the oldest first, and all that are due as long as there is
  // room.
  ghost predicate OldestDue(env: Env, t: State, at: int, limit: nat, listed: seq<Candidate>) {
    && |listed| <= limit
    && (forall k :: 0 <= k < |listed| ==>
          VideoDue(env, t, listed[k].media, at) && AudioRow(t, listed[k].media) == Some(listed[k].audio))
    && (forall k, l :: 0 <= k < l < |listed| ==> Older(t, listed[k].media, listed[l].media))
    && (forall m :: VideoDue(env, t, m, at) && !Lists(listed, m) ==>
          |listed| == limit && forall k :: 0 <= k < |listed| ==> Older(t, listed[k].media, m))
  }

  lemma CollectedIsCandidate(productions: Productions, scan: seq<string>, staleBefore: int, k: nat)
    requires k < |Collect(scan, Candidates(productions, staleBefore))|
    ensures var c := Collect(scan, Candidates(productions, staleBefore))[k];
      CandidateAt(productions, staleBefore, c.media) == Some(c)
  {
    var choice := Candidates(productions, staleBefore);
    CollectMembers(scan, choice, Collect(scan, choice)[k]);
    var m :| m in scan && choice(m) == Some(Collect(scan, choice)[k]);
    assert CandidateAt(productions, staleBefore, m) == choice(m);
  }

  lemma CandidateIsCollected(productions: Productions, scan: seq<string>, staleBefore: int, m: string) returns (l: nat)
    requires InQueryOrder(productions, scan) && CandidateAt(productions, staleBefore, m).Some?
    ensures var all := Collect(scan, Candidates(productions, staleBefore)); l < |all| && all[l].media == m
  {
    var choice := Candidates(productions, staleBefore);
    var c := CandidateAt(productions, staleBefore, m).value;
    CollectMembers(scan, choice, c);
    assert m in scan && choice(m) == Some(c);
    l :| 0 <= l < |Collect(scan, choice)| && Collect(scan, choice)[l] == c;
  }

  // Every production that is due, oldest first.
  ghost predicate AllDue(env: Env, t: State, at: int, all: seq<Candidate>) {
    && (forall k :: 0 <= k < |all| ==>
          VideoDue(env, t, all[k].media, at) && AudioRow(t, all[k].media) == Some(all[k].audio))
    && (forall k, l :: 0 <= k < l < |all| ==> Older(t, all[k].media, all[l].media))
    && (forall m :: VideoDue(env, t, m, at) ==> Lists(all, m))
  }

  lemma FirstOfAllDue(env: Env, t: State, at: int, all: seq<Candidate>, limit: nat)
    requires AllDue(env, t, at, all)
    ensures OldestDue(env, t, at, limit, Take(all, limit))
  {
    var listed := Take(all, limit);
    forall m | VideoDue(env, t, m, at) && !Lists(listed, m)
      ensures |listed| == limit && forall k :: 0 <= k < |listed| ==> Older(t, listed[k].media, m)
    {
      assert Lists(all, m);
      var l :| 0 <= l < |all| && all[l].media == m;
    }
  }

  lemma CollectedDue(env: Env, run: Run, i: nat, scan: seq<string>, at: int, k: nat)
    requires EnvOk(env) && IsRun(env, run) && i < |run.states| && NoVideoAhead(run.states[i], at)
    requires k < |Collect(scan, Candidates(ProductionsOf(run.states[i].world), at - env.timeout))|
    ensures var c := Collect(scan, Candidates(ProductionsOf(run.states[i].world), at - env.timeout))[k];
      VideoDue(env, run.states[i], c.media, at) && AudioRow(run.states[i], c.media) == Some(c.audio)
  {
    hide Apply;
    var productions, stale := ProductionsOf(run.states[i].world), at - env.timeout;
    CollectedIsCandidate(productions, scan, stale, k);
    CandidateIff(env, run, i, Collect(scan, Candidates(productions, stale))[k].media, at);
  }

  lemma DueIsCollected(env: Env, run: Run, i: nat, scan: seq<string>, at: int, m: string)
    requires EnvOk(env) && IsRun(env, run) && i < |run.states| && NoVideoAhead(run.states[i], at)
    requires InQueryOrder(ProductionsOf(run.states[i].world), scan) && VideoDue(env, run.states[i], m, at)
    ensures Lists(Collect(scan, Candidates(ProductionsOf(run.states[i].world), at - env.timeout)), m)
  {
    hide Apply;
    CandidateIff(env, run, i, m, at);
    var l := CandidateIsCollected(ProductionsOf(run.states[i].world), scan, at - env.timeout, m);
  }

  lemma CollectedOlder(t: State, scan: seq<string>, stale: int, k: nat, l: nat)
    requires InQueryOrder(ProductionsOf(t.world), scan)
    requires k < l < |Collect(scan, Candidates(ProductionsOf(t.world), stale))|
    ensures var all := Collect(scan, Candidates(ProductionsOf(t.world), stale)); Older(t, all[k].media, all[l].media)
  {
    CollectOrder(ProductionsOf(t.world), scan, stale, k, l);
  }

  // The scan of any state of a run, in the order of the query, lists the oldest productions whose video is due: none
  // that is not, and none left out but for the limit.
  lemma ScanListsOldestDue(env: Env, run: Run, i: nat, scan: seq<string>, limit: nat, at: int)
    requires EnvOk(env) && IsRun(env, run) && i < |run.states| && NoVideoAhead(run.states[i], at)
    requires InQueryOrder(ProductionsOf(run.states[i].world), scan)
    ensures OldestDue(env, run.states[i], at, limit,
                      Scanned(ProductionsOf(run.states[i].world), scan, at - env.timeout, limit))
  {
    hide Apply;
    hide VideoDue;
    var t, productions, stale := run.states[i], ProductionsOf(run.states[i].world), at - env.timeout;
    var all := Collect(scan, Candidates(productions, stale));
    forall k | 0 <= k < |all|
      ensures VideoDue(env, t, all[k].media, at) && AudioRow(t, all[k].media) == Some(all[k].audio)
    {
      CollectedDue(env, run, i, scan, at, k);
    }
    forall k, l | 0 <= k < l < |all| ensures Older(t, all[k].media, all[l].media) {
      CollectedOlder(t, scan, stale, k, l);
    }
    forall m | VideoDue(env, t, m, at) ensures Lists(all, m) { DueIsCollected(env, run, i, scan, at, m); }
    FirstOfAllDue(env, t, at, all, limit);
  }

  // With one clock for all, at the present time.
  lemma ScanOnTime(env: Env, run: Run, clock: seq<int>, i: nat, scan: seq<string>, limit: nat, at: int)
    requires EnvOk(env) && IsRun(env, run) && Timed(run, clock) && i < |run.states| && clock[i] <= at
    requires InQueryOrder(ProductionsOf(run.states[i].world), scan)
    ensures OldestDue(env, run.states[i], at, limit,
                      Scanned(ProductionsOf(run.states[i].world), scan, at - env.timeout, limit))
  {
    hide Apply;
    forall m | VideoRow(run.states[i], m).Some? ensures VideoRow(run.states[i], m).value.updatedAt <= at {
      StampsWithin(env, run, clock, i, m);
    }
    ScanListsOldestDue(env, run, i, scan, limit, at);
  }

  // The stored settings against the ones asked for, the way a record would store them.
  predicate SameVideoSettings(row: Video.VideoGeneration, s: RenderSettings) {
    && row.renderer == Strip(s.renderer) && row.videoFormat == Lower(Strip(s.videoFormat))
    && row.width == s.width && row.height == s.height && row.fps == s.fps
  }

  // A job for the next attempt, if the settings are the stored ones, or usable ones when there is no row yet; a refusal
  // otherwise.
  predicate GivesVideoJob(tx: Tx<Option<Job>>, rows: Rows, m: string, newId: string, settings: RenderSettings) {
    if rows.video.None? then
      && (tx.Commit? <==> SettingsUsable(settings))
      && (tx.Commit? ==>
            && VideoIs(tx.rows, Video.Pending) && SameVideoSettings(tx.rows.video.value, settings)
            && tx.rows == rows.(video := tx.rows.video) && tx.value == Some(Job(newId, m, 1)))
    else if SameVideoSettings(rows.video.value, settings)
      then tx == Commit(rows, Some(Job(rows.video.value.videoGenerationId, m, rows.video.value.attemptCount + 1)))
    else tx == Abort(ConfigurationMismatch)
  }

  lemma VideoJobOf(env: Env, g: World, m: string, newId: string, settings: RenderSettings, staleBefore: int, at: int)
    requires EntryOk(env, g, m) && m in g.entries
    ensures var rows := g.entries[m].rows;
      var tx := PrepareVideo(rows, newId, settings, staleBefore, at);
      if VideoEligible(rows, staleBefore) then GivesVideoJob(tx, rows, m, newId, settings) else tx == Commit(rows, None)
  {
    var rows := g.entries[m].rows;
    if VideoEligible(rows, staleBefore) {
      NewRowIff(env, g, m, newId, settings, staleBefore, at);
      var request := RequestFor(settings, rows.audio.value);
      HexIsNormal(request.sourceAudioSha256);
      if rows.video.None? { Video.NewPendingSpec(newId, m, SCHEDULED_VERSION, request, at); }
    }
  }

  // What preparing a video does in any state of any run: nothing unless the video is due, otherwise a job for the next
  // attempt. Settings other than the stored ones are refused and leave everything as it was.
  lemma VideoJobIff(env: Env, run: Run, i: nat, m: string, newId: string, settings: RenderSettings, at: int)
    requires EnvOk(env) && IsRun(env, run) && i < |run.states| && m in run.states[i].world.entries
    requires VideoRow(run.states[i], m).Some? ==> VideoRow(run.states[i], m).value.updatedAt <= at
    ensures var rows := run.states[i].world.entries[m].rows;
      var tx := PrepareVideo(rows, newId, settings, at - env.timeout, at);
      if VideoDue(env, run.states[i], m, at) then GivesVideoJob(tx, rows, m, newId, settings)
      else tx == Commit(rows, None)
  {
    hide Apply;
    hide PrepareVideo;
    hide VideoEligible;
    hide GivesVideoJob;
    RunEntry(env, run, i, m);
    DueIsEligible(env, run.states[i].world, m, at);
    VideoJobOf(env, run.states[i].world, m, newId, settings, at - env.timeout, at);
  }

  // ---- Narrations ----

  // The narration is still to be asked for, or a worker could claim it now.
  predicate NarrationDue(env: Env, t: State, m: string, at: int) {
    && m in t.world.entries
    && (|| AudioRow(t, m).None?
        || var tx := ClaimAudio(env, ScriptOf(t.world, m), t.world.entries[m].rows, at);
           tx.Commit? && tx.value.AudioClaimed?)
  }

  datatype SpeechSettings = SpeechSettings(provider: string, model: string, voice: string, audioFormat: string)

  predicate SpeechUsable(s: SpeechSettings) {
    && NormalizeRequired(s.provider, Audio.MAX_PROVIDER).Ok? && NormalizeRequired(s.model, Audio.MAX_MODEL).Ok?
    && NormalizeRequired(s.voice, Audio.MAX_VOICE).Ok? && NormalizeRequired(s.audioFormat, Audio.MAX_FORMAT).Ok?
  }

  predicate SameSpeechSettings(row: Audio.NarrationAudio, s: SpeechSettings) {
    && row.provider == Strip(s.provider) && row.model == Strip(s.model) && row.voice == Strip(s.voice)
    && row.audioFormat == Lower(Strip(s.audioFormat))
  }

  lemma DueNarrationIsEligible(env: Env, g: World, m: string, at: int)
    requires EntryOk(env, g, m) && m in g.entries && g.entries[m].rows.media.updatedAt <= at
    requires g.entries[m].rows.audio.Some? ==> g.entries[m].rows.audio.value.updatedAt <= at
    ensures var rows := g.entries[m].rows;
      var tx := ClaimAudio(env, ScriptOf(g, m), rows, at);
      AudioEligible(ScriptOf(g, m).value, rows, at - env.timeout)
      <==> rows.audio.None? || (tx.Commit? && tx.value.AudioClaimed?)
  {
    AudioClaimOf(env, g, m, at);
    NarrationIsThere(ScriptOf(g, m).value);
  }

  function NarrationTx(env: Env, g: World, m: string, newId: string, s: SpeechSettings, staleBefore: int, at: int)
    : Tx<Option<Job>>
    requires m in g.entries && ScriptOf(g, m).Some?
  {
    PrepareAudio(env, ScriptOf(g, m).value, g.entries[m].rows, newId, s.provider, s.model, s.voice, s.audioFormat,
                 staleBefore, at)
  }

  predicate GivesNarrationJob(tx: Tx<Option<Job>>, rows: Rows, m: string, newId: string, s: SpeechSettings) {
    if !SpeechUsable(s) then tx == Abort(Domain(InvalidData))
    else if rows.audio.None? then
      && tx.Commit? && AudioIs(tx.rows, Audio.Pending) && SameSpeechSettings(tx.rows.audio.value, s)
      && tx.rows == rows.(audio := tx.rows.audio) && tx.value == Some(Job(newId, m, 1))
    else if SameSpeechSettings(rows.audio.value, s)
      then tx == Commit(rows, Some(Job(rows.audio.value.audioGenerationId, m, rows.audio.value.attemptCount + 1)))
    else tx == Abort(ConfigurationMismatch)
  }

  lemma NarrationRequest(env: Env, g: World, m: string, id: string, s: SpeechSettings, at: int)
    requires EnvOk(env) && EntryOk(env, g, m) && m in g.entries
    ensures var c := Audio.Configuration(s.provider, s.model, s.voice, s.audioFormat,
                                         env.textDigest(NarrationOf(ScriptOf(g, m).value)));
      var r := Audio.NewPending(id, m, SCHEDULED_VERSION, c, at);
      && (if SpeechUsable(s) then r.Ok? else r == Err(InvalidData))
      && (r.Ok? ==> SameSpeechSettings(r.value, s) && r.value.sourceTextSha256 == c.sourceTextSha256
                    && r.value.status.Pending? && r.value.attemptCount == 0
                    && r.value.audioGenerationId == id && r.value.mediaProductionId == m)
  {
    var digest := env.textDigest(NarrationOf(ScriptOf(g, m).value));
    var c := Audio.Configuration(s.provider, s.model, s.voice, s.audioFormat, digest);
    assert IsSha256Hex(digest);
    HexIsNormal(digest);
    Audio.NewPendingIff(id, m, SCHEDULED_VERSION, c, at);
    Audio.NewPendingSpec(id, m, SCHEDULED_VERSION, c, at);
  }

  lemma NarrationJobOf(env: Env, g: World, m: string, newId: string, s: SpeechSettings, staleBefore: int, at: int)
    requires EnvOk(env) && EntryOk(env, g, m) && m in g.entries
    ensures var rows, tx := g.entries[m].rows, NarrationTx(env, g, m, newId, s, staleBefore, at);
      if AudioEligible(ScriptOf(g, m).value, rows, staleBefore) then GivesNarrationJob(tx, rows, m, newId, s)
      else tx == Commit(rows, None)
  {
    var rows := g.entries[m].rows;
    if rows.audio.None? {
      NarrationRequest(env, g, m, newId, s, at);
    } else {
      NarrationRequest(env, g, m, rows.audio.value.audioGenerationId, s, rows.audio.value.createdAt);
    }
  }

  // What preparing a narration does in any state of any run, likewise.
  lemma NarrationJobIff(env: Env, run: Run, i: nat, m: string, newId: string, s: SpeechSettings, at: int)
    requires EnvOk(env) && IsRun(env, run) && i < |run.states| && m in run.states[i].world.entries
    requires MediaRow(run.states[i], m).value.updatedAt <= at
    requires AudioRow(run.states[i], m).Some? ==> AudioRow(run.states[i], m).value.updatedAt <= at
    ensures ScriptOf(run.states[i].world, m).Some?
    ensures var rows := run.states[i].world.entries[m].rows;
      var tx := NarrationTx(env, run.states[i].world, m, newId, s, at - env.timeout, at);
      if NarrationDue(env, run.states[i], m, at) then GivesNarrationJob(tx, rows, m, newId, s)
      else tx == Commit(rows, None)
  {
    hide Apply;
    hide NarrationTx;
    hide AudioEligible;
    hide GivesNarrationJob;
    hide ClaimAudio;
    RunEntry(env, run, i, m);
    DueNarrationIsEligible(env, run.states[i].world, m, at);
    NarrationJobOf(env, run.states[i].world, m, newId, s, at - env.timeout, at);
  }
}
