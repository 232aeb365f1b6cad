// The stages before media production: metadata, relevance, priority, script. Each stage's record is
// created only once the stage before it has reached a status it never leaves.

module NewsGate {
  import opened Wrappers
  import opened Text
  import Metadata = ArticleMetadatas
  import Relevance = RelevanceAnalyses
  import Priority = PriorityAnalyses
  import Script = ScriptGenerations

  const SCRIPT_VERSION := 1

  // Articles by intake id, scripts by generation id.
  datatype News = News(
    metadata: map<string, Metadata.ArticleMetadata>,
    relevance: map<string, Relevance.RelevanceAnalysis>,
    priority: map<string, Priority.PriorityAnalysis>,
    scripts: map<string, Script.ScriptGeneration>)

  datatype Step =
    | Register(intakeId: string, metadataId: string, analysisId: string, at: int)
    | ChangeMetadata(intakeId: string, transition: Metadata.Transition, at: int)
    | AnalyzeRelevance(intakeId: string, score: int, reason: string, priorityId: string, at: int)
    | FailRelevance(intakeId: string, reason: string, at: int)
    | AnalyzePriority(intakeId: string, score: int, reason: string, at: int)
    | FailPriority(intakeId: string, reason: string, at: int)
    | ClaimScript(intakeId: string, generationId: string, rankingScore: int, preparedAt: int, timeout: int,
                  startedAt: int)
    | RecordScript(generationId: string, output: Script.ScriptOutput, at: int)
    | FailScript(generationId: string, reason: string, at: int)

  predicate MetadataReady(n: News, intakeId: string) {
    && intakeId in n.metadata
    && (n.metadata[intakeId].status.Extracted? || n.metadata[intakeId].status.Manual?)
    && n.metadata[intakeId].title.Some?
  }

  predicate RelevanceReady(n: News, intakeId: string) {
    && intakeId in n.relevance
    && n.relevance[intakeId].status.Analyzed?
    && n.relevance[intakeId].relevanceScore.Some?
    && n.relevance[intakeId].decision.Some? && Relevance.Eligible(n.relevance[intakeId].decision.value)
  }

  predicate PriorityReady(n: News, intakeId: string) {
    && intakeId in n.priority
    && n.priority[intakeId].status.Analyzed?
    && n.priority[intakeId].priorityScore.Some?
  }

  // The checks script processing makes before it creates or claims a script.
  predicate ScriptAllowed(n: News, intakeId: string) {
    && MetadataReady(n, intakeId) && n.metadata[intakeId].publishedAt.Some?
    && RelevanceReady(n, intakeId)
    && PriorityReady(n, intakeId)
  }

  // The generation id names the article's script row, or is a fresh id when it has none.
  predicate NamesScriptOf(n: News, generationId: string, intakeId: string) {
    if generationId in n.scripts then n.scripts[generationId].intakeId == intakeId
    else forall g :: g in n.scripts ==> n.scripts[g].intakeId != intakeId
  }

  // One committed transaction of a stage; a step that raises changes nothing.
  function Apply(n: News, step: Step): News {
    match step
    case Register(i, metadataId, analysisId, at) =>
      if i in n.metadata || i in n.relevance then n
      else n.(metadata := n.metadata[i := Metadata.NewPending(metadataId, i, at)],
              relevance := n.relevance[i := Relevance.NewPending(analysisId, i, at)])
    case ChangeMetadata(i, t, at) =>
      if i !in n.metadata then n else
      (match Metadata.Apply(n.metadata[i], t, at)
       case Ok(m) => n.(metadata := n.metadata[i := m])
       case Err(_) => n)
    case AnalyzeRelevance(i, score, reason, priorityId, at) =>
      AfterRelevance(n, i, score, reason, priorityId, at)
    case FailRelevance(i, reason, at) =>
      if i !in n.relevance then n else
      (match Relevance.MarkFailed(n.relevance[i], reason, at)
       case Ok(a) => n.(relevance := n.relevance[i := a])
       case Err(_) => n)
    case AnalyzePriority(i, score, reason, at) =>
      if !MetadataReady(n, i) || !RelevanceReady(n, i) || i !in n.priority then n else
      (match Priority.RecordAnalyzed(n.priority[i], score, reason, at)
       case Ok(a) => n.(priority := n.priority[i := a])
       case Err(_) => n)
    case FailPriority(i, reason, at) =>
      if i !in n.priority then n else
      (match Priority.MarkFailed(n.priority[i], reason, at)
       case Ok(a) => n.(priority := n.priority[i := a])
       case Err(_) => n)
    case ClaimScript(i, generationId, rankingScore, preparedAt, timeout, startedAt) =>
      AfterScriptClaim(n, i, generationId, rankingScore, preparedAt, timeout, startedAt)
    case RecordScript(g, output, at) =>
      if g !in n.scripts then n else
      (match Script.RecordGenerated(n.scripts[g], output, at)
       case Ok(s) => n.(scripts := n.scripts[g := s])
       case Err(_) => n)
    case FailScript(g, reason, at) =>
      if g !in n.scripts then n else
      (match Script.MarkFailed(n.scripts[g], reason, at)
       case Ok(s) => n.(scripts := n.scripts[g := s])
       case Err(_) => n)
  }

  // The relevance transaction also hands an eligible article on to priority analysis.
  function AfterRelevance(n: News, i: string, score: int, reason: string, priorityId: string, at: int): News {
    if !MetadataReady(n, i) || i !in n.relevance then n else
    match Relevance.DecideNewsRelevance(score)
    case Err(_) => n
    case Ok(decision) =>
      match Relevance.RecordAnalyzed(n.relevance[i], score, decision, reason, at)
      case Err(_) => n
      case Ok(a) =>
        var stored := n.(relevance := n.relevance[i := a]);
        if Relevance.Eligible(decision) && i !in n.priority
        then stored.(priority := n.priority[i := Priority.NewPending(priorityId, i, at)])
        else stored
  }

  // Script processing's first transaction: check the article, prepare the row, claim it.
  function AfterScriptClaim(n: News, i: string, generationId: string, rankingScore: int, preparedAt: int, timeout: int,
                            startedAt: int): News
  {
    if !ScriptAllowed(n, i) || !NamesScriptOf(n, generationId, i) then n else
    match Prepared(n, i, generationId, rankingScore, preparedAt)
    case Err(_) => n
    case Ok(s) =>
      if s.status.Generated? then n
      else if Script.Claimable(s, startedAt, Some(startedAt - timeout))
      then n.(scripts := n.scripts[generationId := Script.ClaimedRow(s, startedAt)])
      else n.(scripts := n.scripts[generationId := s])
  }

  // The article's script row, which must carry the requested ranking score, or a new pending one.
  function Prepared(n: News, i: string, generationId: string, rankingScore: int, preparedAt: int)
    : Result<Script.ScriptGeneration, DomainError>
  {
    if generationId !in n.scripts then Script.NewPending(generationId, i, SCRIPT_VERSION, rankingScore, preparedAt)
    else if n.scripts[generationId].rankingScore != rankingScore then Err(InvalidData)
    else Ok(n.scripts[generationId])
  }

  // ---- What every stage keeps ----

  predicate ScriptOk(n: News, g: string) {
    g in n.scripts ==>
      && Script.Valid(n.scripts[g]) && n.scripts[g].generationId == g
      && ScriptAllowed(n, n.scripts[g].intakeId)
  }

  // The stored decision is the policy's decision on the stored score.
  predicate RelevanceOk(n: News, i: string) {
    i in n.relevance && n.relevance[i].status.Analyzed? ==>
      && n.relevance[i].relevanceScore.Some? && n.relevance[i].decision.Some?
      && Relevance.DecideNewsRelevance(n.relevance[i].relevanceScore.value) == Ok(n.relevance[i].decision.value)
  }

  ghost predicate NewsOk(n: News) {
    && (forall g :: ScriptOk(n, g))
    && (forall i :: RelevanceOk(n, i))
    && (forall i :: i in n.priority ==> RelevanceReady(n, i))
  }

  // n' is a later state: decided metadata, analyses and generated scripts stay exactly as they are, and
  // no script changes its article or its ranking score.
  ghost predicate NewsEvolves(n: News, n': News) {
    && (forall i :: i in n.metadata && (n.metadata[i].status.Extracted? || n.metadata[i].status.Manual?) ==>
          i in n'.metadata && n'.metadata[i] == n.metadata[i])
    && (forall i :: i in n.relevance && n.relevance[i].status.Analyzed? ==>
          i in n'.relevance && n'.relevance[i] == n.relevance[i])
    && (forall i :: i in n.priority && n.priority[i].status.Analyzed? ==>
          i in n'.priority && n'.priority[i] == n.priority[i])
    && (forall g :: g in n.scripts ==>
          && g in n'.scripts && Script.SameIdentity(n.scripts[g], n'.scripts[g])
          && (n.scripts[g].status.Generated? ==> n'.scripts[g] == n.scripts[g]))
  }

  // A script row may be added for an allowed article, or replaced while it is not generated.
  lemma ScriptChangeKeeps(n: News, g: string, s: Script.ScriptGeneration)
    requires NewsOk(n)
    requires Script.Valid(s) && s.generationId == g && ScriptAllowed(n, s.intakeId)
    requires g in n.scripts ==> !n.scripts[g].status.Generated? && Script.SameIdentity(n.scripts[g], s)
    ensures var n' := n.(scripts := n.scripts[g := s]); NewsOk(n') && NewsEvolves(n, n')
  {
    var n' := n.(scripts := n.scripts[g := s]);
    forall h ensures ScriptOk(n', h) { assert ScriptOk(n, h); }
    forall i ensures RelevanceOk(n', i) { assert RelevanceOk(n, i); }
  }

  lemma ClaimScriptKeeps(n: News, i: string, g: string, rankingScore: int, preparedAt: int, timeout: int,
                         startedAt: int)
    requires NewsOk(n)
    ensures var n' := AfterScriptClaim(n, i, g, rankingScore, preparedAt, timeout, startedAt);
      NewsOk(n') && NewsEvolves(n, n')
  {
    assert ScriptOk(n, g);
    var prepared := Prepared(n, i, g, rankingScore, preparedAt);
    if ScriptAllowed(n, i) && NamesScriptOf(n, g, i) && prepared.Ok? && !prepared.value.status.Generated? {
      var s := prepared.value;
      NewScriptSpec(g, i, rankingScore, preparedAt);
      ScriptClaimSpec(s, startedAt);
      ScriptChangeKeeps(n, g, if Script.Claimable(s, startedAt, Some(startedAt - timeout))
                        then Script.ClaimedRow(s, startedAt) else s);
    }
  }

  lemma NewScriptSpec(g: string, i: string, rankingScore: int, at: int)
    ensures var r := Script.NewPending(g, i, SCRIPT_VERSION, rankingScore, at);
      r.Ok? ==> Script.Valid(r.value) && r.value.generationId == g && r.value.intakeId == i && r.value.status.Pending?
  {
  }

  lemma RecordScriptKeeps(n: News, g: string, output: Script.ScriptOutput, at: int)
    requires NewsOk(n) && g in n.scripts && Script.RecordGenerated(n.scripts[g], output, at).Ok?
    ensures var n' := n.(scripts := n.scripts[g := Script.RecordGenerated(n.scripts[g], output, at).value]);
      NewsOk(n') && NewsEvolves(n, n')
  {
    assert ScriptOk(n, g);
    Script.TransitionsKeepIdentity(n.scripts[g], output, "", at);
    ScriptChangeKeeps(n, g, Script.RecordGenerated(n.scripts[g], output, at).value);
  }

  lemma FailScriptKeeps(n: News, g: string, reason: string, at: int)
    requires NewsOk(n) && g in n.scripts && Script.MarkFailed(n.scripts[g], reason, at).Ok?
    ensures var n' := n.(scripts := n.scripts[g := Script.MarkFailed(n.scripts[g], reason, at).value]);
      NewsOk(n') && NewsEvolves(n, n')
  {
    assert ScriptOk(n, g);
    Script.TransitionsKeepIdentity(n.scripts[g], Script.ScriptOutput("", "", "", None, "", [], None), reason, at);
    ScriptChangeKeeps(n, g, Script.MarkFailed(n.scripts[g], reason, at).value);
  }

  lemma MetadataChangeKeeps(n: News, i: string, m: Metadata.ArticleMetadata)
    requires NewsOk(n)
    requires i in n.metadata ==> !n.metadata[i].status.Extracted? && !n.metadata[i].status.Manual?
    ensures var n' := n.(metadata := n.metadata[i := m]); NewsOk(n') && NewsEvolves(n, n')
  {
    var n' := n.(metadata := n.metadata[i := m]);
    forall g ensures ScriptOk(n', g) { assert ScriptOk(n, g); }
    forall j ensures RelevanceOk(n', j) { assert RelevanceOk(n, j); }
  }

  lemma RelevanceChangeKeeps(n: News, i: string, a: Relevance.RelevanceAnalysis)
    requires NewsOk(n)
    requires i in n.relevance ==> !n.relevance[i].status.Analyzed?
    requires RelevanceOk(n.(relevance := n.relevance[i := a]), i)
    ensures var n' := n.(relevance := n.relevance[i := a]); NewsOk(n') && NewsEvolves(n, n')
  {
    var n' := n.(relevance := n.relevance[i := a]);
    forall g ensures ScriptOk(n', g) { assert ScriptOk(n, g); }
    forall j ensures RelevanceOk(n', j) { assert RelevanceOk(n, j); }
  }

  lemma PriorityChangeKeeps(n: News, i: string, a: Priority.PriorityAnalysis)
    requires NewsOk(n) && RelevanceReady(n, i)
    requires i in n.priority ==> !n.priority[i].status.Analyzed?
    ensures var n' := n.(priority := n.priority[i := a]); NewsOk(n') && NewsEvolves(n, n')
  {
    var n' := n.(priority := n.priority[i := a]);
    forall g ensures ScriptOk(n', g) { assert ScriptOk(n, g); }
    forall j ensures RelevanceOk(n', j) { assert RelevanceOk(n, j); }
  }

  lemma AnalysisSpecs(r: Relevance.RelevanceAnalysis, p: Priority.PriorityAnalysis, score: int, d: Relevance.Decision,
                      reason: string, at: int)
    ensures var a := Relevance.RecordAnalyzed(r, score, d, reason, at);
      a.Ok? ==>
        && r.status.Pending? && a.value.status.Analyzed?
        && a.value.relevanceScore == Some(score) && a.value.decision == Some(d)
    ensures var a := Relevance.MarkFailed(r, reason, at); a.Ok? ==> r.status.Pending? && a.value.status.Failed?
    ensures var a := Priority.RecordAnalyzed(p, score, reason, at); a.Ok? ==> p.status.Pending?
    ensures var a := Priority.MarkFailed(p, reason, at); a.Ok? ==> p.status.Pending?
  {
  }

  lemma RelevanceStepKeeps(n: News, i: string, score: int, reason: string, priorityId: string, at: int)
    requires NewsOk(n)
    ensures var n' := AfterRelevance(n, i, score, reason, priorityId, at); NewsOk(n') && NewsEvolves(n, n')
  {
    if MetadataReady(n, i) && i in n.relevance && Relevance.DecideNewsRelevance(score).Ok? {
      var decision := Relevance.DecideNewsRelevance(score).value;
      var a := Relevance.RecordAnalyzed(n.relevance[i], score, decision, reason, at);
      AnalysisSpecs(n.relevance[i], Priority.NewPending(priorityId, i, at), score, decision, reason, at);
      if a.Ok? {
        RelevanceChangeKeeps(n, i, a.value);
        var stored := n.(relevance := n.relevance[i := a.value]);
        if Relevance.Eligible(decision) && i !in n.priority {
          PriorityChangeKeeps(stored, i, Priority.NewPending(priorityId, i, at));
        }
      }
    }
  }

  lemma RegisterKeeps(n: News, i: string, metadataId: string, analysisId: string, at: int)
    requires NewsOk(n) && i !in n.metadata && i !in n.relevance
    ensures var n' := Apply(n, Register(i, metadataId, analysisId, at)); NewsOk(n') && NewsEvolves(n, n')
  {
    MetadataChangeKeeps(n, i, Metadata.NewPending(metadataId, i, at));
    RelevanceChangeKeeps(n.(metadata := n.metadata[i := Metadata.NewPending(metadataId, i, at)]), i,
                         Relevance.NewPending(analysisId, i, at));
  }

  lemma PriorityStepKeeps(n: News, i: string, score: int, reason: string, at: int)
    requires NewsOk(n) && i in n.priority
    ensures var a := Priority.RecordAnalyzed(n.priority[i], score, reason, at);
      a.Ok? ==> var n' := n.(priority := n.priority[i := a.value]); NewsOk(n') && NewsEvolves(n, n')
    ensures var a := Priority.MarkFailed(n.priority[i], reason, at);
      a.Ok? ==> var n' := n.(priority := n.priority[i := a.value]); NewsOk(n') && NewsEvolves(n, n')
  {
    AnalysisSpecs(n.relevance[i], n.priority[i], score, Relevance.Accepted, reason, at);
    var a, b := Priority.RecordAnalyzed(n.priority[i], score, reason, at),
        Priority.MarkFailed(n.priority[i], reason, at);
    if a.Ok? { PriorityChangeKeeps(n, i, a.value); }
    if b.Ok? { PriorityChangeKeeps(n, i, b.value); }
  }

  // Every stage keeps the gates and never takes back a decision.
  lemma StepKeeps(n: News, step: Step)
    requires NewsOk(n)
    ensures NewsOk(Apply(n, step)) && NewsEvolves(n, Apply(n, step))
  {
    if step.Register? || step.ChangeMetadata? {
      IntakeStepKeeps(n, step);
    } else if step.ClaimScript? || step.RecordScript? || step.FailScript? {
      ScriptStepKeeps(n, step);
    } else {
      AnalysisStepKeeps(n, step);
    }
  }

  lemma IntakeStepKeeps(n: News, step: Step)
    requires NewsOk(n) && (step.Register? || step.ChangeMetadata?)
    ensures NewsOk(Apply(n, step)) && NewsEvolves(n, Apply(n, step))
  {
    match step
    case Register(i, metadataId, analysisId, at) =>
      if i !in n.metadata && i !in n.relevance { RegisterKeeps(n, i, metadataId, analysisId, at); }
    case ChangeMetadata(i, t, at) =>
      if i in n.metadata {
        Metadata.ApplySpec(n.metadata[i], t, at);
        var m := Metadata.Apply(n.metadata[i], t, at);
        if m.Ok? { MetadataChangeKeeps(n, i, m.value); }
      }
  }

  lemma AnalysisStepKeeps(n: News, step: Step)
    requires NewsOk(n)
    requires step.AnalyzeRelevance? || step.FailRelevance? || step.AnalyzePriority? || step.FailPriority?
    ensures NewsOk(Apply(n, step)) && NewsEvolves(n, Apply(n, step))
  {
    match step
    case AnalyzeRelevance(i, score, reason, priorityId, at) =>
      RelevanceStepKeeps(n, i, score, reason, priorityId, at);
    case FailRelevance(i, reason, at) =>
      if i in n.relevance {
        AnalysisSpecs(n.relevance[i], Priority.NewPending("", i, at), 0, Relevance.Accepted, reason, at);
        var a := Relevance.MarkFailed(n.relevance[i], reason, at);
        if a.Ok? { RelevanceChangeKeeps(n, i, a.value); }
      }
    case AnalyzePriority(i, score, reason, at) =>
      if i in n.priority { PriorityStepKeeps(n, i, score, reason, at); }
    case FailPriority(i, reason, at) =>
      if i in n.priority { PriorityStepKeeps(n, i, 0, reason, at); }
  }

  lemma ScriptStepKeeps(n: News, step: Step)
    requires NewsOk(n) && (step.ClaimScript? || step.RecordScript? || step.FailScript?)
    ensures NewsOk(Apply(n, step)) && NewsEvolves(n, Apply(n, step))
  {
    match step
    case ClaimScript(i, g, rankingScore, preparedAt, timeout, startedAt) =>
      ClaimScriptKeeps(n, i, g, rankingScore, preparedAt, timeout, startedAt);
    case RecordScript(g, output, at) =>
      if g in n.scripts && Script.RecordGenerated(n.scripts[g], output, at).Ok? { RecordScriptKeeps(n, g, output, at); }
    case FailScript(g, reason, at) =>
      if g in n.scripts && Script.MarkFailed(n.scripts[g], reason, at).Ok? { FailScriptKeeps(n, g, reason, at); }
  }

  lemma ScriptClaimSpec(s: Script.ScriptGeneration, at: int)
    ensures Script.SameIdentity(s, Script.ClaimedRow(s, at))
    ensures Script.Valid(s) && !s.status.Generated? && s.updatedAt <= at ==> Script.Valid(Script.ClaimedRow(s, at))
  {
  }

  // An article goes on exactly when its score is at least 40 of 100.
  lemma EligibleIff(score: int)
    ensures var d := Relevance.DecideNewsRelevance(score);
      d.Ok? && Relevance.Eligible(d.value) <==> Relevance.REVIEW_MIN_SCORE <= score <= 100
  {
  }

  // ---- What the two analyses do, on any records ----

  // Title and status are there.
  predicate HasMetadata(n: News, i: string) {
    && i in n.metadata && (n.metadata[i].status == Metadata.Extracted || n.metadata[i].status == Metadata.Manual)
    && n.metadata[i].title.Some?
  }

  // A relevance score is recorded exactly for an article with metadata whose analysis is pending, and from 40 on the
  // article goes to priority analysis in the same transaction.
  lemma RelevanceOutcome(n: News, i: string, score: int, reason: string, priorityId: string, at: int)
    ensures var n' := Apply(n, AnalyzeRelevance(i, score, reason, priorityId, at));
      if HasMetadata(n, i) && i in n.relevance && n.relevance[i].status == Relevance.Pending
         && n.relevance[i].createdAt <= at && 0 <= score <= 100 && 1 <= |Strip(reason)| <= 2000
      then
        && n'.metadata == n.metadata && n'.scripts == n.scripts
        && n'.relevance == n.relevance[i := Relevance.RelevanceAnalysis(
             n.relevance[i].analysisId, n.relevance[i].intakeId, Relevance.Analyzed, Some(score),
             Some(if score >= 70 then Relevance.Accepted else if score >= 40 then Relevance.Review
                  else Relevance.Rejected),
             Some(Strip(reason)), None, n.relevance[i].createdAt, at)]
        && n'.priority ==
             if score >= 40 && i !in n.priority
             then n.priority[i := Priority.PriorityAnalysis(priorityId, i, Priority.Pending, None, None, None, at, at)]
             else n.priority
      else n' == n
  {
    if i in n.relevance && Relevance.DecideNewsRelevance(score).Ok? {
      Relevance.RecordAnalyzedSpec(n.relevance[i], score, Relevance.DecideNewsRelevance(score).value, reason, at);
    }
  }

  // A priority is recorded exactly for an article with metadata, found relevant, whose priority analysis is pending.
  lemma PriorityOutcome(n: News, i: string, score: int, reason: string, at: int)
    ensures var n' := Apply(n, AnalyzePriority(i, score, reason, at));
      if HasMetadata(n, i) && i in n.relevance && n.relevance[i].status == Relevance.Analyzed
         && n.relevance[i].relevanceScore.Some?
         && (n.relevance[i].decision == Some(Relevance.Accepted) || n.relevance[i].decision == Some(Relevance.Review))
         && i in n.priority && n.priority[i].status == Priority.Pending
         && n.priority[i].createdAt <= at && 0 <= score <= 100 && 1 <= |Strip(reason)| <= 2000
      then n' == n.(priority := n.priority[i := Priority.PriorityAnalysis(
             n.priority[i].analysisId, n.priority[i].intakeId, Priority.Analyzed, Some(score), Some(Strip(reason)),
             None, n.priority[i].createdAt, at)])
      else n' == n
  {
    if i in n.priority { Priority.RecordAnalyzedSpec(n.priority[i], score, reason, at); }
  }

  // Registration adds both records of an article that has neither; a metadata step stores exactly what
  // ArticleMetadatas.ApplySpec says.
  lemma IntakeOutcome(n: News, i: string, metadataId: string, analysisId: string, t: Metadata.Transition, at: int)
    ensures Apply(n, Register(i, metadataId, analysisId, at)) ==
      if i in n.metadata || i in n.relevance then n
      else n.(metadata := n.metadata[i := Metadata.ArticleMetadata(metadataId, i, Metadata.Pending, None, None, None,
                                                                   None, at, at)],
              relevance := n.relevance[i := Relevance.RelevanceAnalysis(analysisId, i, Relevance.Pending, None, None,
                                                                        None, None, at, at)])
    ensures Apply(n, ChangeMetadata(i, t, at)) ==
      if i in n.metadata && Metadata.TextsFit(t) && n.metadata[i].createdAt <= at
         && (n.metadata[i].status == Metadata.Pending
             || (n.metadata[i].status == Metadata.Unavailable && t.RecordManual?))
      then n.(metadata := n.metadata[i := Metadata.Stored(n.metadata[i], t, at)])
      else n
  {
    if i in n.metadata { Metadata.ApplySpec(n.metadata[i], t, at); }
  }

  // An analysis fails exactly while it is pending, with a reason that fits.
  lemma FailureOutcome(n: News, i: string, reason: string, at: int)
    ensures Apply(n, FailRelevance(i, reason, at)) ==
      if i in n.relevance && n.relevance[i].status == Relevance.Pending && n.relevance[i].createdAt <= at
         && 1 <= |Strip(reason)| <= 1000
      then n.(relevance := n.relevance[i := Relevance.RelevanceAnalysis(
             n.relevance[i].analysisId, n.relevance[i].intakeId, Relevance.Failed, None, None, None,
             Some(Strip(reason)), n.relevance[i].createdAt, at)])
      else n
    ensures Apply(n, FailPriority(i, reason, at)) ==
      if i in n.priority && n.priority[i].status == Priority.Pending && n.priority[i].createdAt <= at
         && 1 <= |Strip(reason)| <= 1000
      then n.(priority := n.priority[i := Priority.PriorityAnalysis(
             n.priority[i].analysisId, n.priority[i].intakeId, Priority.Failed, None, None, Some(Strip(reason)),
             n.priority[i].createdAt, at)])
      else n
  {
    if i in n.relevance { Relevance.MarkFailedSpec(n.relevance[i], reason, at); }
    if i in n.priority { Priority.MarkFailedSpec(n.priority[i], reason, at); }
  }

  // ---- Every record is filed under its own article ----

  predicate FiledAt(n: News, i: string) {
    && (i in n.metadata ==> n.metadata[i].intakeId == i)
    && (i in n.relevance ==> n.relevance[i].intakeId == i)
    && (i in n.priority ==> n.priority[i].intakeId == i)
    && (i in n.scripts ==> n.scripts[i].generationId == i)
  }

  ghost predicate Filed(n: News) {
    forall i :: FiledAt(n, i)
  }

  lemma StepKeepsFiled(n: News, step: Step)
    requires Filed(n)
    ensures Filed(Apply(n, step))
  {
    var n' := Apply(n, step);
    forall i ensures FiledAt(n', i) {
      assert FiledAt(n, i);
      if step.ChangeMetadata? && step.intakeId in n.metadata {
        assert FiledAt(n, step.intakeId);
        Metadata.ApplySpec(n.metadata[step.intakeId], step.transition, step.at);
      } else if step.ClaimScript? || step.RecordScript? || step.FailScript? {
        ScriptStaysFiled(n, step, i);
      }
    }
  }

  lemma ScriptStaysFiled(n: News, step: Step, g: string)
    requires FiledAt(n, g) && (step.ClaimScript? || step.RecordScript? || step.FailScript?)
    ensures FiledAt(Apply(n, step), g)
  {
    if step.ClaimScript? {
      NewScriptSpec(step.generationId, step.intakeId, step.rankingScore, step.preparedAt);
    } else if step.generationId in n.scripts {
      var o := if step.RecordScript? then step.output else Script.ScriptOutput("", "", "", None, "", [], None);
      Script.TransitionsKeepIdentity(n.scripts[step.generationId], o, if step.FailScript? then step.reason else "",
                                     step.at);
    }
  }

  // ---- One script row for each article ----

  predicate SameArticle(n: News, g: string, h: string) {
    g in n.scripts && h in n.scripts && n.scripts[g].intakeId == n.scripts[h].intakeId ==> g == h
  }

  ghost predicate OneScriptEach(n: News) {
    forall g, h :: SameArticle(n, g, h)
  }

  // A row that names its article's script, or the article's first row, keeps it the only one.
  lemma OneRowStays(n: News, g: string, s: Script.ScriptGeneration)
    requires OneScriptEach(n) && NamesScriptOf(n, g, s.intakeId)
    ensures OneScriptEach(n.(scripts := n.scripts[g := s]))
  {
    var n' := n.(scripts := n.scripts[g := s]);
    forall h, k ensures SameArticle(n', h, k) {
      assert SameArticle(n, h, k) && SameArticle(n, g, h) && SameArticle(n, g, k);
    }
  }

  // No step gives an article a second script row.
  lemma StepKeepsOneScript(n: News, step: Step)
    requires OneScriptEach(n)
    ensures OneScriptEach(Apply(n, step))
  {
    var n' := Apply(n, step);
    if n'.scripts == n.scripts {
      forall g, h ensures SameArticle(n', g, h) { assert SameArticle(n, g, h); }
    } else {
      match step
      case ClaimScript(i, g, rankingScore, preparedAt, timeout, startedAt) =>
        NewScriptSpec(g, i, rankingScore, preparedAt);
        OneRowStays(n, g, n'.scripts[g]);
      case RecordScript(g, output, at) =>
        Script.TransitionsKeepIdentity(n.scripts[g], output, "", at);
        OneRowStays(n, g, n'.scripts[g]);
      case FailScript(g, reason, at) =>
        Script.TransitionsKeepIdentity(n.scripts[g], Script.ScriptOutput("", "", "", None, "", [], None), reason, at);
        OneRowStays(n, g, n'.scripts[g]);
    }
  }
}
