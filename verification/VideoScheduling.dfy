// Scheduling of video jobs: the bounded scan for candidates in query order and the preparation of a batch, all
// in one transaction.

module VideoScheduling {
  import opened Wrappers
  import opened Sorting
  import opened Selection
  import opened MediaTransactions
  import Media = MediaProductions
  import Audio = NarrationAudios

  type Productions = map<string, Rows>

  // ---- The scan ----

  datatype Candidate = Candidate(media: string, audio: Audio.NarrationAudio)

  // A joined row the query returns and both records of which can be read.
  function CandidateAt(productions: Productions, staleBefore: int, m: string): Option<Candidate> {
    if m in productions && VideoEligible(productions[m], staleBefore)
       && Media.Valid(productions[m].media) && Audio.Valid(productions[m].audio.value)
    then Some(Candidate(m, productions[m].audio.value))
    else None
  }

  function Candidates(productions: Productions, staleBefore: int): string -> Option<Candidate> {
    m => CandidateAt(productions, staleBefore, m)
  }

  function CreatedAt(productions: Productions, m: string): int {
    if m in productions then productions[m].media.createdAt else 0
  }

  // ORDER BY created_at, media_production_id.
  predicate NoLater(productions: Productions, m: string, n: string) {
    var a, b := CreatedAt(productions, m), CreatedAt(productions, n);
    a < b || (a == b && StringLe(m, n))
  }

  function Oldest(productions: Productions): (string, string) -> bool {
    (m, n) => NoLater(productions, m, n)
  }

  // Every production once, oldest first.
  ghost predicate InQueryOrder(productions: Productions, scan: seq<string>) {
    && (forall m :: m in productions <==> m in scan)
    && (forall i, j :: 0 <= i < j < |scan| ==> scan[i] != scan[j] && NoLater(productions, scan[i], scan[j]))
  }

  lemma OldestIsOrder(productions: Productions)
    ensures TotalPreorder(Oldest(productions))
  {
    forall m, n ensures NoLater(productions, m, n) || NoLater(productions, n, m) {
      StringLeTotal(m, n);
    }
    forall m, n, o | NoLater(productions, m, n) && NoLater(productions, n, o) ensures NoLater(productions, m, o) {
      if StringLe(m, n) && StringLe(n, o) { StringLeTransitive(m, n, o); }
    }
  }

  // The query has one order.
  lemma QueryOrderIsUnique(productions: Productions, s: seq<string>, t: seq<string>)
    requires InQueryOrder(productions, s) && InQueryOrder(productions, t)
    ensures s == t
  {
    OldestIsOrder(productions);
    forall m ensures multiset(s)[m] == multiset(t)[m] {
      OnceEach(s, m);
      OnceEach(t, m);
      assert m in s <==> m in t;
    }
    forall m, n | m in s && n in s && Oldest(productions)(m, n) && Oldest(productions)(n, m) ensures m == n {
      StringLeTotal(m, n);
    }
    SortedUnique(s, t, Oldest(productions));
  }

  lemma {:induction false} OnceEach(s: seq<string>, m: string)
    requires forall i, j :: 0 <= i < j < |s| ==> s[i] != s[j]
    ensures multiset(s)[m] == if m in s then 1 else 0
  {
    if s != [] {
      OnceEach(s[1..], m);
      assert s == [s[0]] + s[1..];
    }
  }

  function Scanned(productions: Productions, scan: seq<string>, staleBefore: int, limit: nat): seq<Candidate> {
    Take(Collect(scan, Candidates(productions, staleBefore)), limit)
  }

  // ---- The batch ----

  // The rows and jobs after the first candidates; an error undoes the whole batch.
  function PrepareAll(productions: Productions, candidates: seq<Candidate>, newIds: seq<string>,
                      settings: RenderSettings, preparedAt: int)
    : Result<(Productions, seq<Job>), TxError>
    requires |newIds| >= |candidates|
  {
    if candidates == [] then Ok((productions, [])) else
    var last := |candidates| - 1;
    var before :- PrepareAll(productions, candidates[..last], newIds, settings, preparedAt);
    PrepareNext(before.0, before.1, candidates[last], newIds[last], settings, preparedAt)
  }

  function PrepareNext(productions: Productions, jobs: seq<Job>, c: Candidate, newId: string, settings: RenderSettings,
                       preparedAt: int)
    : Result<(Productions, seq<Job>), TxError>
  {
    if c.media !in productions || !c.audio.status.Generated? || c.audio.mediaProductionId != c.media
       || c.audio.audioVersion != SCHEDULED_VERSION || c.audio.storageKey.None? || c.audio.contentSha256.None?
    then Ok((productions, jobs))
    else
      match PrepareCandidate(productions[c.media], newId, RequestFor(settings, c.audio), preparedAt)
      case Abort(e) => Err(e)
      case Commit(rows, job) => Ok((productions[c.media := rows], if job.Some? then jobs + [job.value] else jobs))
  }

  class VideoScheduler {
    var productions: Productions

    constructor (productions: Productions)
      ensures this.productions == productions
    {
      this.productions := productions;
    }

    // The joined rows as the database orders them.
    method Query() returns (scan: seq<string>)
      ensures InQueryOrder(productions, scan)
    {
      OldestIsOrder(productions);
      scan := [];
      var left := productions.Keys;
      while left != {}
        invariant left <= productions.Keys && SortedBy(scan, Oldest(productions))
        invariant forall m :: multiset(scan)[m] == if m in productions.Keys - left then 1 else 0
        decreases |left|
      {
        var m :| m in left;
        InsertSpec(m, scan, Oldest(productions));
        scan := Insert(m, scan, Oldest(productions));
        left := left - {m};
      }
      OrderedOnce(productions, scan);
    }

    // The first `limit` candidates in query order.
    method ListCandidates(staleBefore: int, limit: int)
      returns (r: Result<seq<Candidate>, TxError>, ghost scan: seq<string>)
      ensures InQueryOrder(productions, scan)
      ensures forall order :: InQueryOrder(productions, order) ==>
        r == if 1 <= limit <= 50 then Ok(Scanned(productions, order, staleBefore, limit)) else Err(InvalidArgument)
    {
      var rows := Query();
      scan := rows;
      forall order | InQueryOrder(productions, order) ensures order == rows {
        QueryOrderIsUnique(productions, order, rows);
      }
      if !(1 <= limit <= 50) {
        return Err(InvalidArgument), scan;
      }
      var candidates := Read(rows, staleBefore, limit);
      return Ok(candidates), scan;
    }

    // Reads the rows in order until it has enough; a row that cannot be read is passed over.
    method Read(rows: seq<string>, staleBefore: int, limit: nat) returns (candidates: seq<Candidate>)
      requires limit >= 1
      ensures candidates == Scanned(productions, rows, staleBefore, limit)
    {
      ghost var choice := Candidates(productions, staleBefore);
      candidates := [];
      var i := 0;
      while i < |rows|
        invariant 0 <= i <= |rows|
        invariant candidates == Collect(rows[..i], choice) && |candidates| < limit
      {
        var m := rows[i];
        CollectStep(rows, choice, i);
        i := i + 1;
        if m !in productions || !VideoEligible(productions[m], staleBefore) {
          continue;
        }
        if !Media.Valid(productions[m].media) || !Audio.Valid(productions[m].audio.value) {
          continue;
        }
        candidates := candidates + [Candidate(m, productions[m].audio.value)];
        if |candidates| >= limit {
          EnoughIsTaken(rows, choice, i, limit);
          return;
        }
      }
      assert rows[..i] == rows;
    }

    // One transaction: all candidates of the scan are prepared, or none. newIds are what the id factory returns.
    method Execute(staleBefore: int, limit: int, newIds: seq<string>, settings: RenderSettings, preparedAt: int)
      returns (r: Result<seq<Job>, TxError>, ghost scan: seq<string>)
      requires |newIds| >= limit
      modifies this
      ensures InQueryOrder(old(productions), scan)
      ensures limit < 1 || limit > 50 ==> r == Err(InvalidArgument) && productions == old(productions)
      ensures 1 <= limit <= 50 ==>
        var all := PrepareAll(old(productions), Scanned(old(productions), scan, staleBefore, limit), newIds, settings,
                              preparedAt);
        if all.Ok? then productions == all.value.0 && r == Ok(all.value.1)
        else productions == old(productions) && r == Err(all.error)
    {
      var listed;
      listed, scan := ListCandidates(staleBefore, limit);
      if listed.Err? {
        return Err(listed.error), scan;
      }
      r := PrepareEach(listed.value, newIds, settings, preparedAt);
    }

    method PrepareEach(candidates: seq<Candidate>, newIds: seq<string>, settings: RenderSettings, preparedAt: int)
      returns (r: Result<seq<Job>, TxError>)
      requires |newIds| >= |candidates|
      modifies this
      ensures var all := PrepareAll(old(productions), candidates, newIds, settings, preparedAt);
        if all.Ok? then productions == all.value.0 && r == Ok(all.value.1)
        else productions == old(productions) && r == Err(all.error)
    {
      ghost var start := productions;
      var saved := productions;
      var jobs: seq<Job> := [];
      var i := 0;
      while i < |candidates|
        invariant 0 <= i <= |candidates|
        invariant saved == start
        invariant PrepareAll(start, candidates[..i], newIds, settings, preparedAt) == Ok((productions, jobs))
      {
        var c := candidates[i];
        BatchStep(start, candidates, i, newIds, settings, preparedAt);
        i := i + 1;
        if c.media !in productions || !c.audio.status.Generated? || c.audio.mediaProductionId != c.media
           || c.audio.audioVersion != SCHEDULED_VERSION || c.audio.storageKey.None? || c.audio.contentSha256.None? {
          continue;
        }
        var prepared := PrepareCandidate(productions[c.media], newIds[i - 1], RequestFor(settings, c.audio),
                                         preparedAt);
        if prepared.Abort? {
          BatchFails(start, candidates, i, newIds, settings, preparedAt);
          productions := saved;
          return Err(prepared.error);
        }
        productions := productions[c.media := prepared.rows];
        if prepared.value.Some? {
          jobs := jobs + [prepared.value.value];
        }
      }
      assert candidates[..i] == candidates;
      return Ok(jobs);
    }
  }

  lemma OrderedOnce(productions: Productions, scan: seq<string>)
    requires SortedBy(scan, Oldest(productions)) && forall m :: multiset(scan)[m] == if m in productions then 1 else 0
    ensures InQueryOrder(productions, scan)
  {
    forall m ensures m in productions <==> m in scan {
      assert m in scan <==> m in multiset(scan);
    }
    forall i, j | 0 <= i < j < |scan| ensures scan[i] != scan[j] && NoLater(productions, scan[i], scan[j]) {
      assert Oldest(productions)(scan[i], scan[j]);
      if scan[i] == scan[j] { SeenTwice(scan, i, j); }
    }
  }

  lemma SeenTwice(s: seq<string>, i: nat, j: nat)
    requires i < j < |s| && s[i] == s[j]
    ensures multiset(s)[s[i]] >= 2
  {
    WithoutSpec(s, i);
    assert Without(s, i)[j - 1] == s[j];
  }

  lemma BatchStep(productions: Productions, candidates: seq<Candidate>, i: nat, newIds: seq<string>,
                  settings: RenderSettings, preparedAt: int)
    requires i < |candidates| <= |newIds|
    ensures var before := PrepareAll(productions, candidates[..i], newIds, settings, preparedAt);
      PrepareAll(productions, candidates[..i + 1], newIds, settings, preparedAt)
      == if before.Err? then before
         else PrepareNext(before.value.0, before.value.1, candidates[i], newIds[i], settings, preparedAt)
  {
    assert candidates[..i + 1][..i] == candidates[..i];
  }

  lemma {:induction false} BatchFails(productions: Productions, candidates: seq<Candidate>, i: nat, newIds: seq<string>,
                                      settings: RenderSettings, preparedAt: int)
    requires i <= |candidates| <= |newIds|
    requires PrepareAll(productions, candidates[..i], newIds, settings, preparedAt).Err?
    ensures PrepareAll(productions, candidates, newIds, settings, preparedAt)
      == Err(PrepareAll(productions, candidates[..i], newIds, settings, preparedAt).error)
    decreases |candidates| - i
  {
    if i == |candidates| {
      assert candidates[..i] == candidates;
    } else {
      BatchStep(productions, candidates, i, newIds, settings, preparedAt);
      BatchFails(productions, candidates, i + 1, newIds, settings, preparedAt);
    }
  }

  // ---- What a scan and its batch achieve ----

  // A candidate left out for the limit is younger than every candidate taken.
  lemma OldestFirst(productions: Productions, scan: seq<string>, staleBefore: int, limit: nat, c: Candidate,
                    left: string)
    requires InQueryOrder(productions, scan)
    requires c in Scanned(productions, scan, staleBefore, limit)
    requires CandidateAt(productions, staleBefore, left).Some?
    requires CandidateAt(productions, staleBefore, left).value !in Scanned(productions, scan, staleBefore, limit)
    ensures c.media in productions && left in productions && c.media != left && NoLater(productions, c.media, left)
  {
    var choice := Candidates(productions, staleBefore);
    var all := Collect(scan, choice);
    CollectMembers(scan, choice, CandidateAt(productions, staleBefore, left).value);
    assert choice(left) == CandidateAt(productions, staleBefore, left);
    var k :| 0 <= k < |all| && k < limit && all[k] == c;
    var l :| 0 <= l < |all| && all[l] == CandidateAt(productions, staleBefore, left).value;
    assert l >= limit;
    CollectOrder(productions, scan, staleBefore, k, l);
  }

  lemma {:induction false} CollectOrder(productions: Productions, scan: seq<string>, staleBefore: int, k: nat, l: nat)
    requires forall i, j :: 0 <= i < j < |scan| ==>
      scan[i] in productions && scan[j] in productions ==> scan[i] != scan[j] && NoLater(productions, scan[i], scan[j])
    requires k < l < |Collect(scan, Candidates(productions, staleBefore))|
    ensures var all := Collect(scan, Candidates(productions, staleBefore));
      && all[k].media in productions && all[l].media in productions
      && all[k].media != all[l].media && NoLater(productions, all[k].media, all[l].media)
  {
    var choice := Candidates(productions, staleBefore);
    var most := scan[..|scan| - 1];
    var before := Collect(most, choice);
    if l < |before| {
      CollectOrder(productions, most, staleBefore, k, l);
    } else {
      CollectMembers(most, choice, before[k]);
      var m :| m in most && choice(m) == Some(before[k]);
      assert CandidateAt(productions, staleBefore, m) == Some(before[k]);
    }
  }

  // What a candidate of the scan is.
  predicate Proper(productions: Productions, staleBefore: int, c: Candidate) {
    && c.media in productions && VideoEligible(productions[c.media], staleBefore)
    && productions[c.media].audio == Some(c.audio)
    && c.audio.mediaProductionId == c.media && c.audio.audioVersion == SCHEDULED_VERSION
  }

  // Proper candidates of different productions.
  predicate IsBatch(productions: Productions, staleBefore: int, candidates: seq<Candidate>) {
    && (forall i :: 0 <= i < |candidates| ==> Proper(productions, staleBefore, candidates[i]))
    && (forall i, j :: 0 <= i < j < |candidates| ==> candidates[i].media != candidates[j].media)
  }

  // The production's own preparation, as one transaction.
  function Own(productions: Productions, staleBefore: int, c: Candidate, newId: string, settings: RenderSettings,
               preparedAt: int)
    : Tx<Option<Job>>
  {
    if c.media in productions then PrepareVideo(productions[c.media], newId, settings, staleBefore, preparedAt)
      else Abort(NotFound)
  }

  lemma NextIsOwn(productions: Productions, now: Productions, jobs: seq<Job>, staleBefore: int, c: Candidate,
                  newId: string, settings: RenderSettings, preparedAt: int)
    requires Proper(productions, staleBefore, c) && c.media in now && now[c.media] == productions[c.media]
    ensures var own, next := Own(productions, staleBefore, c, newId, settings, preparedAt),
                             PrepareNext(now, jobs, c, newId, settings, preparedAt);
      match own
      case Abort(e) => next == Err(e)
      case Commit(rows, job) => job.Some? && next == Ok((now[c.media := rows], jobs + [job.value]))
  {
  }

  // The batch gave this candidate what its own preparation gives.
  predicate OwnAt(productions: Productions, staleBefore: int, c: Candidate, newId: string, settings: RenderSettings,
                  preparedAt: int, productions': Productions, job: Job)
  {
    && c.media in productions'
    && Own(productions, staleBefore, c, newId, settings, preparedAt) == Commit(productions'[c.media], Some(job))
  }

  predicate AllOwn(productions: Productions, staleBefore: int, candidates: seq<Candidate>, newIds: seq<string>,
                   settings: RenderSettings, preparedAt: int, productions': Productions, jobs: seq<Job>)
    requires |candidates| <= |newIds|
  {
    && productions'.Keys == productions.Keys && |jobs| == |candidates|
    && forall i :: 0 <= i < |candidates| ==>
         OwnAt(productions, staleBefore, candidates[i], newIds[i], settings, preparedAt, productions', jobs[i])
  }

  predicate IsOther(candidates: seq<Candidate>, m: string) {
    forall i :: 0 <= i < |candidates| ==> candidates[i].media != m
  }

  predicate OthersUntouched(productions: Productions, candidates: seq<Candidate>, productions': Productions) {
    forall m :: m in productions && m in productions' && IsOther(candidates, m) ==> productions'[m] == productions[m]
  }

  lemma OneMore(productions: Productions, staleBefore: int, candidates: seq<Candidate>, newIds: seq<string>,
                settings: RenderSettings, preparedAt: int, now: Productions, jobs: seq<Job>)
    requires 0 < |candidates| <= |newIds|
    requires forall i, j :: 0 <= i < j < |candidates| ==> candidates[i].media != candidates[j].media
    requires var last := |candidates| - 1;
      && AllOwn(productions, staleBefore, candidates[..last], newIds, settings, preparedAt, now, jobs)
      && OthersUntouched(productions, candidates[..last], now)
    requires var c := candidates[|candidates| - 1];
      var own := Own(productions, staleBefore, c, newIds[|candidates| - 1], settings, preparedAt);
      c.media in productions && own.Commit? && own.value.Some?
    ensures var c := candidates[|candidates| - 1];
      var own := Own(productions, staleBefore, c, newIds[|candidates| - 1], settings, preparedAt);
      && AllOwn(productions, staleBefore, candidates, newIds, settings, preparedAt, now[c.media := own.rows],
                jobs + [own.value.value])
      && OthersUntouched(productions, candidates, now[c.media := own.rows])
  {
    var last := |candidates| - 1;
    var c := candidates[last];
    var own := Own(productions, staleBefore, c, newIds[last], settings, preparedAt);
    OthersStayOthers(productions, candidates, now, own.rows);
    var now', jobs' := now[c.media := own.rows], jobs + [own.value.value];
    forall i | 0 <= i < |candidates|
      ensures OwnAt(productions, staleBefore, candidates[i], newIds[i], settings, preparedAt, now', jobs'[i])
    {
      if i < last {
        assert candidates[..last][i] == candidates[i];
        assert OwnAt(productions, staleBefore, candidates[i], newIds[i], settings, preparedAt, now, jobs[i]);
      }
    }
  }

  lemma OthersStayOthers(productions: Productions, candidates: seq<Candidate>, now: Productions, rows: Rows)
    requires candidates != [] && OthersUntouched(productions, candidates[..|candidates| - 1], now)
    ensures OthersUntouched(productions, candidates, now[candidates[|candidates| - 1].media := rows])
  {
    var last := |candidates| - 1;
    forall m | m in productions && IsOther(candidates, m)
      ensures m != candidates[last].media && IsOther(candidates[..last], m)
    {
    }
  }

  // Every candidate of a scan becomes one job, in order; the batch gives each production what its own
  // preparation gives and leaves all others alone; it fails exactly when one of them fails.
  lemma {:induction false} BatchSpec(productions: Productions, staleBefore: int, candidates: seq<Candidate>,
                                     newIds: seq<string>, settings: RenderSettings, preparedAt: int)
    requires |candidates| <= |newIds|
    requires IsBatch(productions, staleBefore, candidates)
    ensures var all := PrepareAll(productions, candidates, newIds, settings, preparedAt);
      if all.Ok? then
        && AllOwn(productions, staleBefore, candidates, newIds, settings, preparedAt, all.value.0, all.value.1)
        && OthersUntouched(productions, candidates, all.value.0)
      else
        exists i :: 0 <= i < |candidates|
          && Own(productions, staleBefore, candidates[i], newIds[i], settings, preparedAt) == Abort(all.error)
  {
    if candidates != [] {
      var last := |candidates| - 1;
      var most, c := candidates[..last], candidates[last];
      BatchSpec(productions, staleBefore, most, newIds, settings, preparedAt);
      var before := PrepareAll(productions, most, newIds, settings, preparedAt);
      if before.Ok? {
        assert before.value.0[c.media] == productions[c.media];
        NextIsOwn(productions, before.value.0, before.value.1, staleBefore, c, newIds[last], settings, preparedAt);
        if Own(productions, staleBefore, c, newIds[last], settings, preparedAt).Commit? {
          OneMore(productions, staleBefore, candidates, newIds, settings, preparedAt, before.value.0, before.value.1);
        }
      }
    }
  }

  // A batch that succeeds did so without its last candidate too, and then found that production's rows as they were.
  lemma LastOfBatch(productions: Productions, staleBefore: int, candidates: seq<Candidate>, newIds: seq<string>,
                    settings: RenderSettings, preparedAt: int)
    requires 0 < |candidates| <= |newIds|
    requires IsBatch(productions, staleBefore, candidates)
    requires PrepareAll(productions, candidates, newIds, settings, preparedAt).Ok?
    ensures var last := |candidates| - 1;
      var before, c := PrepareAll(productions, candidates[..last], newIds, settings, preparedAt), candidates[last];
      && IsBatch(productions, staleBefore, candidates[..last]) && Proper(productions, staleBefore, c)
      && before.Ok? && c.media in before.value.0 && c.media in productions
      && before.value.0[c.media] == productions[c.media]
      && PrepareNext(before.value.0, before.value.1, c, newIds[last], settings, preparedAt)
         == PrepareAll(productions, candidates, newIds, settings, preparedAt)
  {
    BatchSpec(productions, staleBefore, candidates[..|candidates| - 1], newIds, settings, preparedAt);
  }

  // The scan hands the batch what BatchSpec asks for, when every audio row is keyed by its own production.
  lemma ScanIsProper(productions: Productions, scan: seq<string>, staleBefore: int, limit: nat)
    requires InQueryOrder(productions, scan)
    requires forall m :: m in productions && productions[m].audio.Some? ==>
      productions[m].audio.value.mediaProductionId == m && productions[m].audio.value.audioVersion == SCHEDULED_VERSION
    ensures IsBatch(productions, staleBefore, Scanned(productions, scan, staleBefore, limit))
  {
    var choice := Candidates(productions, staleBefore);
    var all := Collect(scan, choice);
    forall i | 0 <= i < |all| ensures Proper(productions, staleBefore, all[i]) {
      CollectMembers(scan, choice, all[i]);
      var m :| m in scan && choice(m) == Some(all[i]);
      assert CandidateAt(productions, staleBefore, m) == Some(all[i]);
    }
    forall i, j | 0 <= i < j < |all| ensures all[i].media != all[j].media {
      CollectOrder(productions, scan, staleBefore, i, j);
    }
  }
}
