// The ranking of analysed articles. Instants are whole microseconds.

module Ranking {
  import opened Wrappers
  import opened Sorting

  datatype Candidate = Candidate(
    intakeId: string, title: string, publishedAt: Option<int>, relevanceScore: int, priorityScore: int)

  datatype Ranked = Ranked(
    intakeId: string, title: string, publishedAt: Option<int>, relevanceScore: int, priorityScore: int,
    freshnessScore: int, rankingScore: int)

  const HOUR := 3_600_000_000

  function FreshnessScore(publishedAt: Option<int>, now: int): int {
    if publishedAt.None? then 0 else
    var age := if now - publishedAt.value < 0 then 0 else now - publishedAt.value;
    if age <= 2 * HOUR then 100
    else if age <= 6 * HOUR then 90
    else if age <= 12 * HOUR then 75
    else if age <= 24 * HOUR then 60
    else if age <= 48 * HOUR then 30
    else 0
  }

  function WeightedTotal(relevance: int, priority: int, freshness: int): int {
    relevance * 15 + priority * 65 + freshness * 20
  }

  predicate InRange(score: int) {
    0 <= score <= 100
  }

  function RankingScore(relevance: int, priority: int, freshness: int): Result<int, DomainError> {
    if !InRange(relevance) || !InRange(priority) || !InRange(freshness) then Err(InvalidData)
    else Ok((WeightedTotal(relevance, priority, freshness) + 50) / 100)
  }

  function Scored(c: Candidate, now: int): Result<Ranked, DomainError> {
    var freshness := FreshnessScore(c.publishedAt, now);
    var score :- RankingScore(c.relevanceScore, c.priorityScore, freshness);
    Ok(Ranked(c.intakeId, c.title, c.publishedAt, c.relevanceScore, c.priorityScore, freshness, score))
  }

  function ScoredAll(candidates: seq<Candidate>, now: int): Result<seq<Ranked>, DomainError> {
    if candidates == [] then Ok([]) else
    var first :- Scored(candidates[0], now);
    var rest :- ScoredAll(candidates[1..], now);
    Ok([first] + rest)
  }

  // The later instant first; no instant comes after every instant.
  predicate NotEarlier(a: Option<int>, b: Option<int>) {
    b.None? || (a.Some? && a.value >= b.value)
  }

  // The sort key: ranking score, then priority, then publication time, all descending, then the printed id.
  predicate Precedes(a: Ranked, b: Ranked) {
    if a.rankingScore != b.rankingScore then a.rankingScore > b.rankingScore
    else if a.priorityScore != b.priorityScore then a.priorityScore > b.priorityScore
    else if a.publishedAt != b.publishedAt then NotEarlier(a.publishedAt, b.publishedAt)
    else StringLe(a.intakeId, b.intakeId)
  }

  function Rank(candidates: seq<Candidate>, now: int): Result<seq<Ranked>, DomainError> {
    var scored :- ScoredAll(candidates, now);
    Ok(Sort(scored, (a, b) => Precedes(a, b)))
  }

  // ---- The scores ----

  // The score weighs relevance 15, priority 65 and freshness 20 of 100, rounded to the nearest integer with halves
  // up; it is there exactly when all three lie in 0..100, and then lies there too.
  lemma ScoreRounds(relevance: int, priority: int, freshness: int)
    ensures RankingScore(relevance, priority, freshness).Ok?
      <==> 0 <= relevance <= 100 && 0 <= priority <= 100 && 0 <= freshness <= 100
    ensures var r := RankingScore(relevance, priority, freshness);
      r.Ok? ==>
        && 0 <= r.value <= 100
        && -50 < 100 * r.value - (15 * relevance + 65 * priority + 20 * freshness) <= 50
  {
  }

  // The age limits, in microseconds: 2, 6, 12, 24 and 48 hours. An undated article is not fresh at all, one dated in
  // the future is as fresh as a new one.
  lemma FreshnessLimits(publishedAt: Option<int>, now: int)
    ensures var f := FreshnessScore(publishedAt, now);
      && f in {0, 30, 60, 75, 90, 100}
      && (f > 0 <==> publishedAt.Some? && now - publishedAt.value <= 172_800_000_000)
      && (f >= 60 <==> publishedAt.Some? && now - publishedAt.value <= 86_400_000_000)
      && (f >= 75 <==> publishedAt.Some? && now - publishedAt.value <= 43_200_000_000)
      && (f >= 90 <==> publishedAt.Some? && now - publishedAt.value <= 21_600_000_000)
      && (f >= 100 <==> publishedAt.Some? && now - publishedAt.value <= 7_200_000_000)
  {
  }

  lemma ScoreMonotone(r: int, p: int, f: int, r': int, p': int, f': int)
    requires r <= r' && p <= p' && f <= f'
    requires RankingScore(r, p, f).Ok? && RankingScore(r', p', f').Ok?
    ensures RankingScore(r, p, f).value <= RankingScore(r', p', f').value
  {
    assert WeightedTotal(r, p, f) <= WeightedTotal(r', p', f');
  }

  // A later article is never less fresh, and an undated one never fresher.
  lemma FreshnessMonotone(a: Option<int>, b: Option<int>, now: int)
    ensures InRange(FreshnessScore(a, now))
    ensures NotEarlier(a, b) ==> FreshnessScore(a, now) >= FreshnessScore(b, now)
  {
  }

  // ---- The order ----

  lemma PrecedesIsOrder()
    ensures TotalPreorder((a: Ranked, b: Ranked) => Precedes(a, b))
  {
    forall a: Ranked, b: Ranked ensures Precedes(a, b) || Precedes(b, a) {
      StringLeTotal(a.intakeId, b.intakeId);
    }
    forall a: Ranked, b: Ranked, c: Ranked | Precedes(a, b) && Precedes(b, c) ensures Precedes(a, c) {
      if StringLe(a.intakeId, b.intakeId) && StringLe(b.intakeId, c.intakeId) {
        StringLeTransitive(a.intakeId, b.intakeId, c.intakeId);
      }
    }
  }

  // With equal relevance and priority the later article ranks first, and dated articles precede undated ones.
  lemma LaterRanksFirst(a: Candidate, b: Candidate, now: int)
    requires a.relevanceScore == b.relevanceScore && a.priorityScore == b.priorityScore
    requires a.publishedAt != b.publishedAt && NotEarlier(a.publishedAt, b.publishedAt)
    requires Scored(a, now).Ok? && Scored(b, now).Ok?
    ensures Precedes(Scored(a, now).value, Scored(b, now).value)
    ensures !Precedes(Scored(b, now).value, Scored(a, now).value)
  {
    FreshnessMonotone(a.publishedAt, b.publishedAt, now);
    var fa, fb := FreshnessScore(a.publishedAt, now), FreshnessScore(b.publishedAt, now);
    ScoreMonotone(b.relevanceScore, b.priorityScore, fb, a.relevanceScore, a.priorityScore, fa);
  }

  lemma {:induction false} ScoredAllSpec(candidates: seq<Candidate>, now: int)
    ensures ScoredAll(candidates, now).Ok?
      <==> forall c :: c in candidates ==> InRange(c.relevanceScore) && InRange(c.priorityScore)
    ensures ScoredAll(candidates, now).Err? ==> ScoredAll(candidates, now) == Err(InvalidData)
    ensures ScoredAll(candidates, now).Ok? ==>
      && |ScoredAll(candidates, now).value| == |candidates|
      && forall i :: 0 <= i < |candidates| ==> Scored(candidates[i], now) == Ok(ScoredAll(candidates, now).value[i])
  {
    if candidates != [] {
      ScoredAllSpec(candidates[1..], now);
      assert candidates == [candidates[0]] + candidates[1..];
      FreshnessMonotone(candidates[0].publishedAt, None, now);
    }
  }

  // The ranking fails exactly on a score out of range; otherwise it holds the scored candidates, each as
  // often as it was given, and every entry precedes all that follow.
  lemma RankSpec(candidates: seq<Candidate>, now: int)
    ensures Rank(candidates, now).Ok?
      <==> forall c :: c in candidates ==> InRange(c.relevanceScore) && InRange(c.priorityScore)
    ensures Rank(candidates, now).Ok? ==>
      && multiset(Rank(candidates, now).value) == multiset(ScoredAll(candidates, now).value)
      && forall i, j :: 0 <= i < j < |Rank(candidates, now).value| ==>
           Precedes(Rank(candidates, now).value[i], Rank(candidates, now).value[j])
  {
    ScoredAllSpec(candidates, now);
    PrecedesIsOrder();
    var scored := ScoredAll(candidates, now);
    if scored.Ok? { SortSpec(scored.value, (a: Ranked, b: Ranked) => Precedes(a, b)); }
  }

  // ---- What the order of a ranking means ----

  predicate BeforeInTime(a: Option<int>, b: Option<int>) {
    a.Some? && (b.None? || a.value > b.value)
  }

  // An entry comes before another exactly for the first of these that tells them apart: the higher ranking score, the
  // higher priority, the later publication with undated ones last, the id that is smaller as a string.
  lemma RankOrder(candidates: seq<Candidate>, now: int, i: nat, j: nat)
    requires Rank(candidates, now).Ok? && i < j < |Rank(candidates, now).value|
    ensures var a, b := Rank(candidates, now).value[i], Rank(candidates, now).value[j];
      || a.rankingScore > b.rankingScore
      || (a.rankingScore == b.rankingScore
          && (|| a.priorityScore > b.priorityScore
              || (a.priorityScore == b.priorityScore
                  && (|| BeforeInTime(a.publishedAt, b.publishedAt)
                      || (a.publishedAt == b.publishedAt
                          && (a.intakeId <= b.intakeId || exists k: nat :: SmallerAt(a.intakeId, b.intakeId, k)))))))
  {
    RankSpec(candidates, now);
    var a, b := Rank(candidates, now).value[i], Rank(candidates, now).value[j];
    assert Precedes(a, b);
    StringLeSpec(a.intakeId, b.intakeId);
  }

  // The candidate an entry scores.
  function Original(r: Ranked): Candidate {
    Candidate(r.intakeId, r.title, r.publishedAt, r.relevanceScore, r.priorityScore)
  }

  function Originals(s: seq<Ranked>): seq<Candidate> {
    if s == [] then [] else [Original(s[0])] + Originals(s[1..])
  }

  lemma {:induction false} InsertOriginals(x: Ranked, s: seq<Ranked>, le: (Ranked, Ranked) -> bool)
    ensures multiset(Originals(Insert(x, s, le))) == multiset(Originals(s)) + multiset{Original(x)}
  {
    if s == [] || le(x, s[0]) {
      assert ([x] + s)[1..] == s;
    } else {
      InsertOriginals(x, s[1..], le);
      var rest := Insert(x, s[1..], le);
      assert ([s[0]] + rest)[1..] == rest;
    }
  }

  lemma {:induction false} SortOriginals(s: seq<Ranked>, le: (Ranked, Ranked) -> bool)
    ensures multiset(Originals(Sort(s, le))) == multiset(Originals(s))
  {
    if s != [] {
      SortOriginals(s[1..], le);
      InsertOriginals(s[0], Sort(s[1..], le), le);
    }
  }

  lemma {:induction false} ScoredOriginals(candidates: seq<Candidate>, now: int)
    requires ScoredAll(candidates, now).Ok?
    ensures Originals(ScoredAll(candidates, now).value) == candidates
  {
    if candidates != [] {
      ScoredOriginals(candidates[1..], now);
      var first, rest := Scored(candidates[0], now).value, ScoredAll(candidates[1..], now).value;
      assert ([first] + rest)[1..] == rest;
      assert candidates == [candidates[0]] + candidates[1..];
    }
  }

  // Without its scores a ranking is the candidates, each as often as it was given; each score is the one of the
  // entry's own numbers.
  lemma RankKeepsCandidates(candidates: seq<Candidate>, now: int)
    requires Rank(candidates, now).Ok?
    ensures multiset(Originals(Rank(candidates, now).value)) == multiset(candidates)
    ensures forall r :: r in Rank(candidates, now).value ==>
      && r.freshnessScore == FreshnessScore(r.publishedAt, now)
      && Ok(r.rankingScore) == RankingScore(r.relevanceScore, r.priorityScore, r.freshnessScore)
  {
    ScoredOriginals(candidates, now);
    SortOriginals(ScoredAll(candidates, now).value, (a, b) => Precedes(a, b));
    var ranked := Rank(candidates, now).value;
    forall r | r in ranked
      ensures r.freshnessScore == FreshnessScore(r.publishedAt, now)
      ensures Ok(r.rankingScore) == RankingScore(r.relevanceScore, r.priorityScore, r.freshnessScore)
    {
      var i :| 0 <= i < |ranked| && ranked[i] == r;
      var c := EntryComesFrom(candidates, now, i);
    }
  }

  // In a ranking, of two entries with equal relevance and priority the later published one comes first, and an
  // undated one after every dated one.
  lemma LaterComesFirst(candidates: seq<Candidate>, now: int, i: nat, j: nat)
    requires Rank(candidates, now).Ok? && i < |Rank(candidates, now).value| && j < |Rank(candidates, now).value|
    requires var a, b := Rank(candidates, now).value[i], Rank(candidates, now).value[j];
      && a.relevanceScore == b.relevanceScore && a.priorityScore == b.priorityScore
      && a.publishedAt != b.publishedAt && NotEarlier(a.publishedAt, b.publishedAt)
    ensures i < j
  {
    RankSpec(candidates, now);
    var c := EntryComesFrom(candidates, now, i);
    var d := EntryComesFrom(candidates, now, j);
    LaterRanksFirst(c, d, now);
  }

  // Every entry of a ranking is a scored candidate.
  lemma EntryComesFrom(candidates: seq<Candidate>, now: int, i: nat) returns (c: Candidate)
    requires Rank(candidates, now).Ok? && i < |Rank(candidates, now).value|
    ensures c in candidates && Scored(c, now) == Ok(Rank(candidates, now).value[i])
  {
    RankSpec(candidates, now);
    ScoredAllSpec(candidates, now);
    var ranked, scored := Rank(candidates, now).value, ScoredAll(candidates, now).value;
    assert ranked[i] in multiset(scored);
    var k :| 0 <= k < |scored| && scored[k] == ranked[i];
    assert Scored(candidates[k], now) == Ok(scored[k]);
    c := candidates[k];
  }

  predicate DistinctIds(candidates: seq<Candidate>) {
    forall i, j :: 0 <= i < j < |candidates| ==> candidates[i].intakeId != candidates[j].intakeId
  }

  // The order in which the articles are read does not matter when their ids differ.
  lemma RankIgnoresInputOrder(cs: seq<Candidate>, ds: seq<Candidate>, now: int)
    requires multiset(cs) == multiset(ds) && DistinctIds(cs)
    ensures Rank(cs, now) == Rank(ds, now)
  {
    ScoredAllSpec(cs, now);
    ScoredAllSpec(ds, now);
    forall c | c in cs ensures c in ds { assert c in multiset(ds); }
    forall d | d in ds ensures d in cs { assert d in multiset(cs); }
    if ScoredAll(cs, now).Ok? {
      ScoredMultiset(cs, ds, now);
      SortsEqual(cs, ds, now);
    }
  }

  lemma SortsEqual(cs: seq<Candidate>, ds: seq<Candidate>, now: int)
    requires DistinctIds(cs) && ScoredAll(cs, now).Ok? && ScoredAll(ds, now).Ok?
    requires multiset(ScoredAll(cs, now).value) == multiset(ScoredAll(ds, now).value)
    ensures Rank(cs, now) == Rank(ds, now)
  {
    PrecedesIsOrder();
    var le := (a: Ranked, b: Ranked) => Precedes(a, b);
    SortSpec(ScoredAll(cs, now).value, le);
    SortSpec(ScoredAll(ds, now).value, le);
    var r := Sort(ScoredAll(cs, now).value, le);
    forall a, b | a in r && b in r && le(a, b) && le(b, a) ensures a == b {
      StringLeTotal(a.intakeId, b.intakeId);
      assert a in multiset(r) && b in multiset(r);
      IdDetermines(cs, now, a, b);
    }
    SortedUnique(r, Sort(ScoredAll(ds, now).value, le), le);
  }

  // An entry is determined by its id.
  lemma IdDetermines(cs: seq<Candidate>, now: int, a: Ranked, b: Ranked)
    requires DistinctIds(cs) && ScoredAll(cs, now).Ok? && a.intakeId == b.intakeId
    requires a in multiset(ScoredAll(cs, now).value) && b in multiset(ScoredAll(cs, now).value)
    ensures a == b
  {
    ScoredAllSpec(cs, now);
    var scored := ScoredAll(cs, now).value;
    var i :| 0 <= i < |scored| && scored[i] == a;
    var j :| 0 <= j < |scored| && scored[j] == b;
    assert Scored(cs[i], now) == Ok(scored[i]) && Scored(cs[j], now) == Ok(scored[j]);
  }

  // Scoring keeps the multiset.
  lemma {:induction false} ScoredMultiset(cs: seq<Candidate>, ds: seq<Candidate>, now: int)
    requires multiset(cs) == multiset(ds) && ScoredAll(cs, now).Ok? && ScoredAll(ds, now).Ok?
    ensures multiset(ScoredAll(cs, now).value) == multiset(ScoredAll(ds, now).value)
  {
    assert |cs| == |multiset(cs)| == |multiset(ds)| == |ds|;
    if cs != [] {
      assert cs[0] in multiset(ds);
      var i :| 0 <= i < |ds| && ds[i] == cs[0];
      WithoutEqual(cs, 0, ds, i);
      assert Without(cs, 0) == cs[1..];
      ScoredAllWithout(ds, i, now);
      ScoredAllSpec(cs, now);
      ScoredMultiset(cs[1..], Without(ds, i), now);
      assert ScoredAll(cs, now).value == [ScoredAll(cs, now).value[0]] + ScoredAll(cs[1..], now).value;
    }
  }

  lemma ScoredAllWithout(ds: seq<Candidate>, i: nat, now: int)
    requires i < |ds| && ScoredAll(ds, now).Ok?
    ensures ScoredAll(Without(ds, i), now).Ok? && Scored(ds[i], now).Ok?
    ensures multiset(ScoredAll(ds, now).value)
      == multiset(ScoredAll(Without(ds, i), now).value) + multiset{Scored(ds[i], now).value}
  {
    ScoredAllSpec(ds, now);
    var rest := Without(ds, i);
    ScoredAllSpec(rest, now);
    var all, left := ScoredAll(ds, now).value, ScoredAll(rest, now).value;
    forall k | 0 <= k < |rest| ensures left[k] == Without(all, i)[k] {
      var from := if k < i then k else k + 1;
      assert rest[k] == ds[from] && Scored(ds[from], now) == Ok(all[from]) && Scored(rest[k], now) == Ok(left[k]);
    }
    assert left == Without(all, i);
    WithoutSpec(all, i);
  }
}
