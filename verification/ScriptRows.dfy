// The script rows one step at a time: when a claim takes a row, and what else may change it.

module ScriptRows {
  import opened Wrappers
  import opened Text
  import opened NewsGate
  import Script = ScriptGenerations

  // ---- What one claim leaves ----

  // The row as a claim at this instant leaves it: running, one attempt more, nothing of an earlier result.
  predicate Taken(row: Script.ScriptGeneration, row': Script.ScriptGeneration, at: int) {
    && Script.Valid(row') && Script.SameIdentity(row, row') && row'.status.Generating? && row'.closing.None?
    && row'.attemptCount == row.attemptCount + 1 && row'.startedAt == Some(at) && row'.updatedAt == at
  }

  // Free to take: waiting, failed, or running for at least the timeout; and not written later than the claim.
  predicate Free(row: Script.ScriptGeneration, timeout: int, at: int) {
    && (|| row.status.Pending? || row.status.Failed?
        || (row.status.Generating? && row.startedAt.Some? && row.startedAt.value + timeout <= at))
    && row.updatedAt <= at
  }

  // A claim of an article's script row takes it exactly when it is free, and changes nothing else; otherwise it
  // changes nothing at all.
  lemma ClaimOutcome(n: News, i: string, g: string, rankingScore: int, preparedAt: int, timeout: int, at: int)
    requires NewsOk(n) && ScriptAllowed(n, i) && g in n.scripts && n.scripts[g].intakeId == i
    ensures var n' := Apply(n, ClaimScript(i, g, rankingScore, preparedAt, timeout, at));
      if n.scripts[g].rankingScore == rankingScore && Free(n.scripts[g], timeout, at)
      then g in n'.scripts && Taken(n.scripts[g], n'.scripts[g], at)
           && n' == n.(scripts := n.scripts[g := n'.scripts[g]])
      else n' == n
  {
    var row := n.scripts[g];
    assert ScriptOk(n, g);
    ScriptClaimSpec(row, at);
    assert n.scripts[g := row] == n.scripts;
  }

  // Without a row the claim adds one, and takes it unless it was prepared later than it is claimed.
  lemma FirstClaimOutcome(n: News, i: string, g: string, rankingScore: int, preparedAt: int, timeout: int,
                          at: int)
    requires ScriptAllowed(n, i) && NamesScriptOf(n, g, i) && g !in n.scripts
    ensures var n' := Apply(n, ClaimScript(i, g, rankingScore, preparedAt, timeout, at));
      if 0 <= rankingScore <= 100 then
        && g in n'.scripts && n' == n.(scripts := n.scripts[g := n'.scripts[g]])
        && var row := n'.scripts[g];
        && Script.Valid(row) && row.generationId == g && row.intakeId == i && row.rankingScore == rankingScore
        && row.generationVersion == SCRIPT_VERSION && row.createdAt == preparedAt
        && (if preparedAt <= at then row.status.Generating? && row.attemptCount == 1 && row.startedAt == Some(at)
              && row.updatedAt == at
            else row.status.Pending? && row.updatedAt == preparedAt)
      else n' == n
  {
    var pending := Script.ScriptGeneration(g, i, SCRIPT_VERSION, Script.Pending, rankingScore, 0, None, None,
                                           None, None, None, None, None, preparedAt, None, None, preparedAt, None);
    Script.PostInitSpec(pending);
    ScriptClaimSpec(pending, at);
  }

  // ---- Everything a step can do to a script row ----

  function RowOf(n: News, g: string): Option<Script.ScriptGeneration> {
    if g in n.scripts then Some(n.scripts[g]) else None
  }

  predicate NewRow(step: Step, g: string, row: Script.ScriptGeneration) {
    && step.ClaimScript? && step.generationId == g && row.intakeId == step.intakeId
    && (|| (row.status.Pending? && row.startedAt.None? && row.attemptCount == 0)
        || (row.status.Generating? && row.attemptCount == 1 && row.startedAt == Some(step.startedAt)
            && row.updatedAt == step.startedAt))
  }

  // The worker that generates ends an attempt.
  predicate Ended(row: Script.ScriptGeneration, row': Script.ScriptGeneration, at: int) {
    && row.status.Generating? && (row'.status.Generated? || row'.status.Failed?) && Script.SameIdentity(row, row')
    && row'.attemptCount == row.attemptCount && row'.startedAt == row.startedAt && row'.updatedAt == at
    && (row.startedAt.Some? ==> row.startedAt.value <= at)
  }

  predicate ScriptChange(n: News, step: Step, n': News, g: string) {
    || RowOf(n', g) == RowOf(n, g)
    || (RowOf(n, g).None? && RowOf(n', g).Some? && NewRow(step, g, n'.scripts[g]))
    || (&& RowOf(n, g).Some? && RowOf(n', g).Some?
        && (|| (step.ClaimScript? && step.generationId == g && Free(n.scripts[g], step.timeout, step.startedAt)
                && Taken(n.scripts[g], n'.scripts[g], step.startedAt))
            || (step.RecordScript? && step.generationId == g && n'.scripts[g].status.Generated?
                && Ended(n.scripts[g], n'.scripts[g], step.at))
            || (step.FailScript? && step.generationId == g && n'.scripts[g].status.Failed?
                && Ended(n.scripts[g], n'.scripts[g], step.at))))
  }

  lemma EndedSpec(row: Script.ScriptGeneration, o: Script.ScriptOutput, reason: string, at: int)
    ensures Script.RecordGenerated(row, o, at).Ok? ==>
      Ended(row, Script.RecordGenerated(row, o, at).value, at)
      && Script.RecordGenerated(row, o, at).value.status.Generated?
    ensures Script.MarkFailed(row, reason, at).Ok? ==>
      Ended(row, Script.MarkFailed(row, reason, at).value, at)
      && Script.MarkFailed(row, reason, at).value.status.Failed?
  {
  }

  lemma ClaimChange(n: News, step: Step, g: string)
    requires NewsOk(n) && step.ClaimScript?
    ensures ScriptChange(n, step, Apply(n, step), g)
  {
    var i, id := step.intakeId, step.generationId;
    if ScriptAllowed(n, i) && NamesScriptOf(n, id, i) {
      if id in n.scripts {
        ClaimOutcome(n, i, id, step.rankingScore, step.preparedAt, step.timeout, step.startedAt);
      } else {
        FirstClaimOutcome(n, i, id, step.rankingScore, step.preparedAt, step.timeout, step.startedAt);
      }
    }
  }

  lemma StageChange(n: News, step: Step, g: string)
    requires NewsOk(n)
    ensures ScriptChange(n, step, Apply(n, step), g)
  {
    if step.ClaimScript? {
      ClaimChange(n, step, g);
    } else if step.RecordScript? && g in n.scripts {
      EndedSpec(n.scripts[g], step.output, "", step.at);
    } else if step.FailScript? && g in n.scripts {
      EndedSpec(n.scripts[g], Script.ScriptOutput("", "", "", None, "", [], None), step.reason, step.at);
    }
  }

  // The other two script transactions: a result is stored, and a failure, exactly while the row is running, no earlier
  // than it started, with an output or a reason that fits; nothing else changes.
  lemma ResultOutcome(n: News, g: string, o: Script.ScriptOutput, at: int)
    requires NewsOk(n) && g in n.scripts
    ensures var row, n' := n.scripts[g], Apply(n, RecordScript(g, o, at));
      if row.status == Script.Generating && row.startedAt.Some? && row.startedAt.value <= at
         && Script.OutputFits(o)
      then
        && g in n'.scripts && n' == n.(scripts := n.scripts[g := n'.scripts[g]])
        && Ended(row, n'.scripts[g], at) && n'.scripts[g].status == Script.Generated
        && n'.scripts[g].hook == Some(Strip(o.hook)) && n'.scripts[g].mainNarration == Some(Strip(o.mainNarration))
        && n'.scripts[g].projectGComment == Some(Strip(o.projectGComment))
        && n'.scripts[g].fullNarration == Some(Strip(o.fullNarration))
        && n'.scripts[g].evidenceSnapshot == Some(o.evidence) && n'.scripts[g].characterDialogue == o.dialogue
      else n' == n
  {
    assert ScriptOk(n, g);
    Script.RecordGeneratedSpec(n.scripts[g], o, at);
  }

  lemma ScriptFailureOutcome(n: News, g: string, reason: string, at: int)
    requires NewsOk(n) && g in n.scripts
    ensures var row, n' := n.scripts[g], Apply(n, FailScript(g, reason, at));
      if row.status == Script.Generating && row.startedAt.Some? && row.startedAt.value <= at
         && 1 <= |Strip(reason)| <= 2000
      then
        && g in n'.scripts && n' == n.(scripts := n.scripts[g := n'.scripts[g]])
        && Ended(row, n'.scripts[g], at) && n'.scripts[g].status == Script.Failed
        && n'.scripts[g].failureReason == Some(Strip(reason))
      else n' == n
  {
    assert ScriptOk(n, g);
    Script.MarkFailedSpec(n.scripts[g], reason, at);
  }
}
