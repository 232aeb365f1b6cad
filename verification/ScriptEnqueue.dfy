// Which ranked articles get a script job, and why preparing that job cannot meet another ranking score.

module ScriptEnqueue {
  import opened Wrappers
  import opened Ranking
  import opened Selection
  import opened ScriptRows
  import Script = ScriptGenerations
  import NewsGate

  datatype EnqueueCandidate = EnqueueCandidate(intakeId: string, generationVersion: int, rankingScore: int)

  // Script rows by article and version.
  type Lookup = map<(string, int), Script.ScriptGeneration>

  datatype Options = Options(generationVersion: int, minRankingScore: int, limit: int)

  predicate OptionsOk(o: Options) {
    o.generationVersion >= 1 && 0 <= o.minRankingScore <= 100 && 1 <= o.limit <= 50
  }

  // The candidate an entry of the ranking gives, if it qualifies: with the current score when it has no script
  // row, with the stored score when its row is waiting or failed.
  function Chosen(lookup: Lookup, o: Options, r: Ranked): Option<EnqueueCandidate> {
    if r.rankingScore < o.minRankingScore || r.freshnessScore <= 0 then None
    else if (r.intakeId, o.generationVersion) !in lookup then
      Some(EnqueueCandidate(r.intakeId, o.generationVersion, r.rankingScore))
    else
      var generation := lookup[(r.intakeId, o.generationVersion)];
      if generation.status.Pending? || generation.status.Failed? then
        Some(EnqueueCandidate(r.intakeId, o.generationVersion, generation.rankingScore))
      else None
  }

  function Choice(lookup: Lookup, o: Options): Ranked -> Option<EnqueueCandidate> {
    r => Chosen(lookup, o, r)
  }

  // The first `limit` qualifying entries in ranking order.
  method Select(rankings: seq<Ranked>, lookup: Lookup, o: Options)
    returns (r: Result<seq<EnqueueCandidate>, DomainError>)
    ensures r == if OptionsOk(o) then Ok(Take(Collect(rankings, Choice(lookup, o)), o.limit)) else Err(InvalidData)
  {
    if o.generationVersion < 1 || !(0 <= o.minRankingScore <= 100) || !(1 <= o.limit <= 50) {
      return Err(InvalidData);
    }
    ghost var choice := Choice(lookup, o);
    var selected := [];
    var i := 0;
    while i < |rankings|
      invariant 0 <= i <= |rankings|
      invariant selected == Collect(rankings[..i], choice) && |selected| < o.limit
    {
      var ranking := rankings[i];
      CollectStep(rankings, choice, i);
      i := i + 1;
      if ranking.rankingScore < o.minRankingScore {
        continue;
      }
      if ranking.freshnessScore <= 0 {
        continue;
      }
      var key := (ranking.intakeId, o.generationVersion);
      if key !in lookup {
        selected := selected + [EnqueueCandidate(ranking.intakeId, o.generationVersion, ranking.rankingScore)];
      } else if lookup[key].status.Pending? || lookup[key].status.Failed? {
        selected := selected + [EnqueueCandidate(ranking.intakeId, o.generationVersion, lookup[key].rankingScore)];
      }
      if |selected| >= o.limit {
        EnoughIsTaken(rankings, choice, i, o.limit);
        return Ok(selected);
      }
    }
    assert rankings[..i] == rankings;
    return Ok(selected);
  }

  // ---- What is chosen ----

  // Of a ranking, an article is chosen exactly when it scores enough, was published in the last 48 hours (in
  // microseconds), and its script was never asked for, is waiting, or failed.
  lemma ChosenIff(candidates: seq<Candidate>, now: int, k: nat, lookup: Lookup, o: Options)
    requires Rank(candidates, now).Ok? && k < |Rank(candidates, now).value|
    ensures var r := Rank(candidates, now).value[k];
      var key := (r.intakeId, o.generationVersion);
      && (Chosen(lookup, o, r).Some? <==>
            && r.rankingScore >= o.minRankingScore
            && r.publishedAt.Some? && now - r.publishedAt.value <= 172_800_000_000
            && (key in lookup ==> lookup[key].status == Script.Pending || lookup[key].status == Script.Failed))
      && (Chosen(lookup, o, r).Some? ==>
            var c := Chosen(lookup, o, r).value;
            && c.intakeId == r.intakeId && c.generationVersion == o.generationVersion
            && c.rankingScore == if key in lookup then lookup[key].rankingScore else r.rankingScore)
  {
    RankKeepsCandidates(candidates, now);
    FreshnessLimits(Rank(candidates, now).value[k].publishedAt, now);
  }

  // An article whose script row exists is chosen exactly when a claim would take the row without waiting for its lease
  // to run out.
  lemma ChosenIsFree(n: NewsGate.News, lookup: Lookup, o: Options, r: Ranked, timeout: int, at: int)
    requires NewsGate.NewsOk(n) && Reads(lookup, n) && (r.intakeId, o.generationVersion) in lookup
    requires r.rankingScore >= o.minRankingScore && r.freshnessScore > 0
    requires var row := lookup[(r.intakeId, o.generationVersion)];
      row.updatedAt <= at && (row.startedAt.Some? ==> at < row.startedAt.value + timeout)
    ensures var row := lookup[(r.intakeId, o.generationVersion)];
      var claim := NewsGate.ClaimScript(r.intakeId, row.generationId, row.rankingScore, at, timeout, at);
      var row' := RowOf(NewsGate.Apply(n, claim), row.generationId);
      && row'.Some?
      && if Chosen(lookup, o, r).Some? then Taken(row, row'.value, at) else row' == Some(row)
  {
    var row := lookup[(r.intakeId, o.generationVersion)];
    assert NewsGate.ScriptOk(n, row.generationId);
    ClaimOutcome(n, r.intakeId, row.generationId, row.rankingScore, at, timeout, at);
  }

  // ---- The job's own preparation ----

  // The scripts of a state, as the selection looks them up.
  ghost predicate Reads(lookup: Lookup, n: NewsGate.News) {
    forall key :: key in lookup ==>
      key.1 == NewsGate.SCRIPT_VERSION && lookup[key].generationId in n.scripts
      && n.scripts[lookup[key].generationId] == lookup[key] && lookup[key].intakeId == key.0
  }

  // A candidate chosen for an existing script row never meets a mismatch, however much later its job runs.
  lemma ChosenScoreStands(n: NewsGate.News, n': NewsGate.News, lookup: Lookup, o: Options, r: Ranked, at: int)
    requires Reads(lookup, n) && NewsGate.NewsEvolves(n, n')
    requires (r.intakeId, o.generationVersion) in lookup && Chosen(lookup, o, r).Some?
    ensures var id := lookup[(r.intakeId, o.generationVersion)].generationId;
      && id in n'.scripts
      && NewsGate.Prepared(n', r.intakeId, id, Chosen(lookup, o, r).value.rankingScore, at) == Ok(n'.scripts[id])
  {
    var key := (r.intakeId, o.generationVersion);
    assert Script.SameIdentity(lookup[key], n'.scripts[lookup[key].generationId]);
  }

  // A candidate chosen without a script row meets a mismatch exactly when a row of its article with another score
  // has been stored since; NewsGate.StepKeepsOneScript says that there is never more than one.
  lemma FreshScoreStandsIff(n': NewsGate.News, lookup: Lookup, o: Options, r: Ranked, id: string, at: int)
    requires (r.intakeId, o.generationVersion) !in lookup && Chosen(lookup, o, r).Some? && InRange(r.rankingScore)
    requires NewsGate.NamesScriptOf(n', id, r.intakeId) && NewsGate.OneScriptEach(n')
    ensures NewsGate.Prepared(n', r.intakeId, id, Chosen(lookup, o, r).value.rankingScore, at).Ok?
      <==> forall g :: g in n'.scripts && n'.scripts[g].intakeId == r.intakeId ==>
             n'.scripts[g].rankingScore == r.rankingScore
  {
    NewRowAccepted(id, r, at);
    forall g | g in n'.scripts && n'.scripts[g].intakeId == r.intakeId ensures g == id {
      assert NewsGate.SameArticle(n', g, id);
    }
  }

  lemma NewRowAccepted(id: string, r: Ranked, at: int)
    requires InRange(r.rankingScore)
    ensures Script.NewPending(id, r.intakeId, NewsGate.SCRIPT_VERSION, r.rankingScore, at).Ok?
  {
    var pending := Script.ScriptGeneration(id, r.intakeId, NewsGate.SCRIPT_VERSION, Script.Pending, r.rankingScore, 0,
                                           None, None, None, None, None, None, None, at, None, None, at, None);
    Script.PostInitSpec(pending);
    assert Script.Valid(pending);
  }

  // That happens: whenever two selections rank one article differently, the job that comes second is refused.
  lemma LaterScoreRefused(n: NewsGate.News, lookup: Lookup, o: Options, first: Ranked, second: Ranked, id: string,
                          timeout: int, at: int, later: int)
    requires NewsGate.ScriptAllowed(n, first.intakeId) && NewsGate.NamesScriptOf(n, id, first.intakeId)
    requires id !in n.scripts
    requires second.intakeId == first.intakeId && InRange(first.rankingScore)
    requires second.rankingScore != first.rankingScore
    requires (first.intakeId, o.generationVersion) !in lookup && Chosen(lookup, o, first).Some?
    requires Chosen(lookup, o, second).Some?
    ensures var score := Chosen(lookup, o, first).value.rankingScore;
      var n' := NewsGate.Apply(n, NewsGate.ClaimScript(first.intakeId, id, score, at, timeout, at));
      && id in n'.scripts
      && NewsGate.Prepared(n', second.intakeId, id, Chosen(lookup, o, second).value.rankingScore, later).Err?
  {
    NewRowAccepted(id, first, at);
  }
}
