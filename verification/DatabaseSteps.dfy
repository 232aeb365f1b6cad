// The transactions as they run against the tables are the steps of the protocol: what a transaction leaves in the
// tables is what the step leaves in the rows, and the worker learns what the transaction returned.

module DatabaseSteps {
  import opened Wrappers
  import opened MediaTransactions
  import opened MediaProtocol
  import opened MediaDatabase
  import opened Completions
  import Script = ScriptGenerations

  // The tables that hold the rows of a state.
  function TablesOf(g: World): Tables {
    Tables(map m | m in g.entries :: g.entries[m].rows.media,
           map m | m in g.entries && g.entries[m].rows.audio.Some? :: g.entries[m].rows.audio.value,
           map m | m in g.entries && g.entries[m].rows.video.Some? :: g.entries[m].rows.video.value)
  }

  lemma RowsOfTables(g: World, m: string)
    requires m in g.entries
    ensures TablesOf(g).RowsOf(m) == g.entries[m].rows
  {
  }

  function Committed<T>(g: World, m: string, tx: Tx<T>): World
    requires m in g.entries
  {
    if tx.Commit? then WithRows(g, m, tx.rows) else g
  }

  // A transaction that ran on one production leaves the tables of the world with that production's new rows.
  lemma RanIsCommit<T>(g: World, after: Tables, m: string, tx: Tx<T>, r: Result<T, TxError>)
    requires m in g.entries && Ran(TablesOf(g), after, m, tx, r)
    ensures after == TablesOf(Committed(g, m, tx))
  {
    var g' := Committed(g, m, tx);
    if tx.Commit? {
      assert after.RowsOf(m) == tx.rows && g'.entries.Keys == g.entries.Keys;
      forall n | n in g.entries ensures after.RowsOf(n) == g'.entries[n].rows {
        RowsOfTables(g, n);
      }
      ChildrenHaveParents(TablesOf(g), after, m);
      SameRowsSameTables(after, g');
    }
  }

  lemma ChildrenHaveParents(before: Tables, after: Tables, m: string)
    requires before.SameExcept(m, after) && m in before.media
    requires before.audio.Keys <= before.media.Keys && before.video.Keys <= before.media.Keys
    ensures after.audio.Keys <= before.media.Keys && after.video.Keys <= before.media.Keys
  {
    forall n | n in after.audio || n in after.video ensures n in before.media {
      if n != m {
        assert MediaDatabase.At(before.audio, n) == MediaDatabase.At(after.audio, n);
        assert MediaDatabase.At(before.video, n) == MediaDatabase.At(after.video, n);
      }
    }
  }

  lemma SameRowsSameTables(t: Tables, g: World)
    requires t.media.Keys == g.entries.Keys && t.audio.Keys <= g.entries.Keys && t.video.Keys <= g.entries.Keys
    requires forall n :: n in g.entries ==> t.RowsOf(n) == g.entries[n].rows
    ensures t == TablesOf(g)
  {
    forall n | n in g.entries ensures MediaDatabase.At(t.audio, n) == g.entries[n].rows.audio
      && MediaDatabase.At(t.video, n) == g.entries[n].rows.video {
      assert t.RowsOf(n) == g.entries[n].rows;
    }
    assert t.media == TablesOf(g).media;
    assert t.audio == TablesOf(g).audio;
    assert t.video == TablesOf(g).video;
  }

  // ---- Claims ----

  lemma StartAudioIsTransaction(env: Env, s: State, w: nat, m: string, at: int)
    requires w !in s.workers && m in s.world.entries
    ensures var tx := ClaimAudio(env, ScriptOf(s.world, m), s.world.entries[m].rows, at);
      var s' := Apply(env, s, StartAudio(w, m, at));
      && TablesOf(s'.world) == TablesOf(Committed(s.world, m, tx))
      && (if tx.Commit? && tx.value.AudioClaimed?
          then s'.workers == s.workers[w := AudioWorker(m, tx.value.row, tx.value.narration)]
          else s' == s)
  {
    UnclaimedAudioStays(env, ScriptOf(s.world, m), s.world.entries[m].rows, at);
    SameRows(s.world, m);
  }

  lemma UnclaimedAudioStays(env: Env, script: Option<Script.ScriptGeneration>, rows: Rows, at: int)
    ensures var tx := ClaimAudio(env, script, rows, at); tx.Commit? && !tx.value.AudioClaimed? ==> tx.rows == rows
  {
  }

  lemma SameRows(g: World, m: string)
    requires m in g.entries
    ensures TablesOf(WithRows(g, m, g.entries[m].rows)) == TablesOf(g)
  {
    RanIsCommit(g, TablesOf(g), m, Commit(g.entries[m].rows, ()), Ok(()));
  }

  // A narration claim against the tables is the protocol's step of a fresh worker.
  lemma ClaimAudioIsStep(env: Env, s: State, w: nat, m: string, at: int, after: Tables, r: Result<AudioClaim, TxError>)
    requires w !in s.workers && m in s.world.entries
    requires Ran(TablesOf(s.world), after, m, ClaimAudio(env, ScriptOf(s.world, m), TablesOf(s.world).RowsOf(m), at), r)
    ensures var s' := Apply(env, s, StartAudio(w, m, at));
      && after == TablesOf(s'.world)
      && (if r.Ok? && r.value.AudioClaimed?
          then s'.workers == s.workers[w := AudioWorker(m, r.value.row, r.value.narration)]
          else s' == s)
  {
    RowsOfTables(s.world, m);
    RanIsCommit(s.world, after, m, ClaimAudio(env, ScriptOf(s.world, m), s.world.entries[m].rows, at), r);
    StartAudioIsTransaction(env, s, w, m, at);
  }

  lemma StartVideoIsTransaction(env: Env, s: State, w: nat, m: string, expected: nat, at: int)
    requires w !in s.workers && m in s.world.entries
    ensures var tx := ClaimVideo(env, s.world.entries[m].rows, expected, at);
      var s' := Apply(env, s, StartVideo(w, m, expected, at));
      && TablesOf(s'.world) == TablesOf(Committed(s.world, m, tx))
      && (if tx.Commit? && tx.value.VideoClaimed?
          then s'.workers == s.workers[w := VideoWorker(m, expected, tx.value.row, tx.value.source)]
          else s' == s)
  {
    UnclaimedVideoStays(env, s.world.entries[m].rows, expected, at);
    SameRows(s.world, m);
  }

  lemma UnclaimedVideoStays(env: Env, rows: Rows, expected: int, at: int)
    ensures var tx := ClaimVideo(env, rows, expected, at); tx.Commit? && !tx.value.VideoClaimed? ==> tx.rows == rows
  {
  }

  lemma ClaimVideoIsStep(env: Env, s: State, w: nat, m: string, expected: nat, at: int, after: Tables,
                         r: Result<VideoClaim, TxError>)
    requires w !in s.workers && m in s.world.entries
    requires Ran(TablesOf(s.world), after, m, ClaimVideo(env, TablesOf(s.world).RowsOf(m), expected, at), r)
    ensures var s' := Apply(env, s, StartVideo(w, m, expected, at));
      && after == TablesOf(s'.world)
      && (if r.Ok? && r.value.VideoClaimed?
          then s'.workers == s.workers[w := VideoWorker(m, expected, r.value.row, r.value.source)]
          else s' == s)
  {
    RowsOfTables(s.world, m);
    RanIsCommit(s.world, after, m, ClaimVideo(env, s.world.entries[m].rows, expected, at), r);
    StartVideoIsTransaction(env, s, w, m, expected, at);
  }

  // ---- Narration results ----

  lemma RecordAudioIsStep(env: Env, s: State, w: nat, at: int, after: Tables, r: Result<Settlement, TxError>)
    requires w in s.workers && s.workers[w].media in s.world.entries && s.workers[w].task.AudioTask?
    requires s.workers[w].pc.Stored?
    requires var k := s.workers[w];
      Ran(TablesOf(s.world), after, k.media,
          RecordAudioSuccess(TablesOf(s.world).RowsOf(k.media), k.attempt, k.pc.artifact, at), r)
    ensures var k, s' := s.workers[w], Apply(env, s, RecordAudio(w, at));
      && after == TablesOf(s'.world)
      && s'.workers == s.workers[w := k.(pc := Done(if r.Ok? then AudioOutcome(r.value, k.pc.artifact) else Raised))]
  {
    var k := s.workers[w];
    RowsOfTables(s.world, k.media);
    RanIsCommit(s.world, after, k.media,
                RecordAudioSuccess(s.world.entries[k.media].rows, k.attempt, k.pc.artifact, at), r);
    RecordAudioStep(env, s, w, at);
  }

  lemma FailAudioIsStep(env: Env, s: State, w: nat, reason: string, at: int, after: Tables,
                        r: Result<Settlement, TxError>)
    requires w in s.workers && s.workers[w].media in s.world.entries && s.workers[w].task.AudioTask?
    requires s.workers[w].pc.Failing?
    requires var k := s.workers[w];
      Ran(TablesOf(s.world), after, k.media,
          RecordAudioFailure(TablesOf(s.world).RowsOf(k.media), k.attempt, reason, at), r)
    ensures var k, s' := s.workers[w], Apply(env, s, FailAudio(w, reason, at));
      && after == TablesOf(s'.world)
      && s'.workers
          == s.workers[w := k.(pc := Done(if r.Ok? then MediaProtocol.Settled(r.value, k.pc.cause) else Raised))]
  {
    var k := s.workers[w];
    RowsOfTables(s.world, k.media);
    RanIsCommit(s.world, after, k.media, RecordAudioFailure(s.world.entries[k.media].rows, k.attempt, reason, at), r);
    FailAudioStep(env, s, w, reason, at);
  }

  // ---- Video results: the read and the write of a completion, with nothing in between ----

  function FailureOutcome(k: Worker, r: Result<Settlement, TxError>): Outcome
    requires k.pc.Failing? || k.pc.RecordingFailure?
  {
    if r.Err? then Raised else MediaProtocol.Settled(r.value, k.pc.cause)
  }

  function SuccessOutcome(k: Worker, r: Result<Settlement, TxError>): Outcome
    requires k.pc.Stored?
  {
    if r.Err? then Raised else if r.value.Recorded? then Generated(k.pc.artifact) else AttemptSuperseded
  }

  // The result of an update that may commit.
  function ResultOf<T>(tx: Tx<T>): Result<T, TxError> {
    match tx
    case Commit(_, value) => Ok(value)
    case Abort(e) => Err(e)
  }

  lemma SuccessReadHalf(g: World, k: Worker, at: int, after: Tables, r: Result<Settlement, TxError>)
    requires k.media in g.entries && k.pc.Stored?
    requires SuccessRan(TablesOf(g), after, k.media, k.attempt, k.pc.artifact, k.pc.durationMs, at, r)
    ensures var read := ReadForCompletion(g, k, at);
      if read.Completing? then
        var tx := UpdateSuccess(g.entries[k.media].rows, k.attempt, read.generated);
        read.artifact == k.pc.artifact && after == TablesOf(Committed(g, k.media, tx)) && r == ResultOf(tx)
      else
        after == TablesOf(g) && read == Done(SuccessOutcome(k, r))
  {
    RowsOfTables(g, k.media);
    var read := ReadForCompletion(g, k, at);
    if read.Completing? {
      RanIsCommit(g, after, k.media, UpdateSuccess(g.entries[k.media].rows, k.attempt, read.generated), r);
    }
  }

  // Where the write takes a worker that has read.
  function SuccessEnd(s: State, w: nat, read: Pc): State
    requires w in s.workers && s.workers[w].media in s.world.entries
  {
    var s1 := MediaProtocol.At(s, w, read);
    if read.Completing? then DoWriteSuccess(s1, w) else s1
  }

  lemma SuccessTakesTwoSteps(env: Env, s: State, w: nat, at: int)
    requires w in s.workers && s.workers[w].media in s.world.entries && s.workers[w].task.VideoTask?
    requires s.workers[w].pc.Stored?
    ensures Apply(env, Apply(env, s, ReadBeforeSuccess(w, at)), WriteSuccess(w))
      == SuccessEnd(s, w, ReadForCompletion(s.world, s.workers[w], at))
  {
    ReadStep(env, s, w, at);
    var read := ReadForCompletion(s.world, s.workers[w], at);
    var s1 := MediaProtocol.At(s, w, read);
    if read.Completing? { WriteStep(env, s1, w); } else { StoppedStays(env, s1, w, WriteSuccess(w)); }
  }

  lemma SuccessEnds(s: State, w: nat, read: Pc, after: Tables, r: Result<Settlement, TxError>)
    requires w in s.workers && s.workers[w].media in s.world.entries && s.workers[w].pc.Stored?
    requires var k := s.workers[w];
      if read.Completing? then
        var tx := UpdateSuccess(s.world.entries[k.media].rows, k.attempt, read.generated);
        read.artifact == k.pc.artifact && after == TablesOf(Committed(s.world, k.media, tx)) && r == ResultOf(tx)
      else
        after == TablesOf(s.world) && read == Done(SuccessOutcome(k, r))
    ensures var k, s' := s.workers[w], SuccessEnd(s, w, read);
      after == TablesOf(s'.world) && s'.workers == s.workers[w := k.(pc := Done(SuccessOutcome(k, r)))]
  {
    if read.Completing? { SuccessWritesTables(MediaProtocol.At(s, w, read), w, after, r); }
  }

  lemma VideoSuccessIsSteps(env: Env, s: State, w: nat, at: int, after: Tables, r: Result<Settlement, TxError>)
    requires w in s.workers && s.workers[w].media in s.world.entries && s.workers[w].task.VideoTask?
    requires s.workers[w].pc.Stored?
    requires var k := s.workers[w];
      SuccessRan(TablesOf(s.world), after, k.media, k.attempt, k.pc.artifact, k.pc.durationMs, at, r)
    ensures var k := s.workers[w];
      var s' := Apply(env, Apply(env, s, ReadBeforeSuccess(w, at)), WriteSuccess(w));
      after == TablesOf(s'.world) && s'.workers == s.workers[w := k.(pc := Done(SuccessOutcome(k, r)))]
  {
    SuccessTakesTwoSteps(env, s, w, at);
    SuccessReadHalf(s.world, s.workers[w], at, after, r);
    SuccessEnds(s, w, ReadForCompletion(s.world, s.workers[w], at), after, r);
  }

  lemma SuccessWritesTables(s: State, w: nat, after: Tables, r: Result<Settlement, TxError>)
    requires w in s.workers && s.workers[w].media in s.world.entries && s.workers[w].pc.Completing?
    requires var k := s.workers[w];
      var tx := UpdateSuccess(s.world.entries[k.media].rows, k.attempt, k.pc.generated);
      after == TablesOf(Committed(s.world, k.media, tx)) && r == ResultOf(tx)
    ensures var k, s' := s.workers[w], DoWriteSuccess(s, w);
      && after == TablesOf(s'.world)
      && s'.workers == s.workers[w := k.(pc := Done(if r.Err? then Raised else if r.value.Recorded?
                                                    then Generated(k.pc.artifact) else AttemptSuperseded))]
  {
  }

  lemma StoppedStays(env: Env, s: State, w: nat, step: Step)
    requires w in s.workers && s.workers[w].pc.Done? && (step == WriteSuccess(w) || step == WriteFailure(w))
    ensures Apply(env, s, step) == s
  {
  }

  lemma FailureReadHalf(g: World, k: Worker, reason: string, at: int, after: Tables, r: Result<Settlement, TxError>)
    requires k.media in g.entries && k.pc.Failing? && FailureRan(TablesOf(g), after, k.media, k.attempt, reason, at, r)
    ensures var read := ReadForRecordingFailure(g, k, reason, at);
      if read.RecordingFailure? then
        var tx := UpdateFailure(g.entries[k.media].rows, k.attempt, read.failed, reason, at);
        && read.cause == k.pc.cause && read.reason == reason && read.failedAt == at
        && after == TablesOf(Committed(g, k.media, tx)) && r == ResultOf(tx)
      else
        after == TablesOf(g) && read == Done(FailureOutcome(k, r))
  {
    RowsOfTables(g, k.media);
    var read := ReadForRecordingFailure(g, k, reason, at);
    if read.RecordingFailure? {
      RanIsCommit(g, after, k.media, UpdateFailure(g.entries[k.media].rows, k.attempt, read.failed, reason, at), r);
    }
  }

  function FailureEnd(s: State, w: nat, read: Pc): State
    requires w in s.workers && s.workers[w].media in s.world.entries
  {
    var s1 := MediaProtocol.At(s, w, read);
    if read.RecordingFailure? then DoWriteFailure(s1, w) else s1
  }

  lemma FailureTakesTwoSteps(env: Env, s: State, w: nat, reason: string, at: int)
    requires w in s.workers && s.workers[w].media in s.world.entries && s.workers[w].task.VideoTask?
    requires s.workers[w].pc.Failing?
    ensures Apply(env, Apply(env, s, ReadBeforeFailure(w, reason, at)), WriteFailure(w))
      == FailureEnd(s, w, ReadForRecordingFailure(s.world, s.workers[w], reason, at))
  {
    FailureReadStep(env, s, w, reason, at);
    var read := ReadForRecordingFailure(s.world, s.workers[w], reason, at);
    var s1 := MediaProtocol.At(s, w, read);
    if read.RecordingFailure? { FailureWriteStep(env, s1, w); } else { StoppedStays(env, s1, w, WriteFailure(w)); }
  }

  lemma FailureEnds(s: State, w: nat, read: Pc, after: Tables, r: Result<Settlement, TxError>)
    requires w in s.workers && s.workers[w].media in s.world.entries && s.workers[w].pc.Failing?
    requires var k := s.workers[w];
      if read.RecordingFailure? then
        var tx := UpdateFailure(s.world.entries[k.media].rows, k.attempt, read.failed, read.reason, read.failedAt);
        read.cause == k.pc.cause && after == TablesOf(Committed(s.world, k.media, tx)) && r == ResultOf(tx)
      else
        after == TablesOf(s.world) && read == Done(FailureOutcome(k, r))
    ensures var k, s' := s.workers[w], FailureEnd(s, w, read);
      after == TablesOf(s'.world) && s'.workers == s.workers[w := k.(pc := Done(FailureOutcome(k, r)))]
  {
    if read.RecordingFailure? { FailureWritesTables(MediaProtocol.At(s, w, read), w, after, r); }
  }

  lemma VideoFailureIsSteps(env: Env, s: State, w: nat, reason: string, at: int, after: Tables,
                            r: Result<Settlement, TxError>)
    requires w in s.workers && s.workers[w].media in s.world.entries && s.workers[w].task.VideoTask?
    requires s.workers[w].pc.Failing?
    requires FailureRan(TablesOf(s.world), after, s.workers[w].media, s.workers[w].attempt, reason, at, r)
    ensures var k := s.workers[w];
      var s' := Apply(env, Apply(env, s, ReadBeforeFailure(w, reason, at)), WriteFailure(w));
      after == TablesOf(s'.world) && s'.workers == s.workers[w := k.(pc := Done(FailureOutcome(k, r)))]
  {
    FailureTakesTwoSteps(env, s, w, reason, at);
    FailureReadHalf(s.world, s.workers[w], reason, at, after, r);
    FailureEnds(s, w, ReadForRecordingFailure(s.world, s.workers[w], reason, at), after, r);
  }

  lemma FailureWritesTables(s: State, w: nat, after: Tables, r: Result<Settlement, TxError>)
    requires w in s.workers && s.workers[w].media in s.world.entries && s.workers[w].pc.RecordingFailure?
    requires var k := s.workers[w];
      var tx := UpdateFailure(s.world.entries[k.media].rows, k.attempt, k.pc.failed, k.pc.reason, k.pc.failedAt);
      after == TablesOf(Committed(s.world, k.media, tx)) && r == ResultOf(tx)
    ensures var k, s' := s.workers[w], DoWriteFailure(s, w);
      after == TablesOf(s'.world) && s'.workers == s.workers[w := k.(pc := Done(FailureOutcome(k, r)))]
  {
  }
}
