// The script-generation record, its transitions, and the claim statement on its table.

module ScriptGenerations {
  import opened Wrappers
  import opened Text

  datatype Status = Pending | Generating | Generated | Failed

  // Dialogue lines and evidence facts are validated when they are built; the record only stores them.
  datatype DialogueLine = DialogueLine(character: string, emotion: string, intensity: int, breakCharacter: bool,
                                       text: string)
  datatype Evidence = Evidence(text: string, sourceId: string, sourceUrl: string, competitionLevel: string,
                               role: string)

  datatype ScriptGeneration = ScriptGeneration(
    generationId: string,
    intakeId: string,
    generationVersion: int,
    status: Status,
    rankingScore: int,
    attemptCount: int,
    failureReason: Option<string>,
    hook: Option<string>,
    mainNarration: Option<string>,
    projectGComment: Option<string>,
    closing: Option<string>,
    fullNarration: Option<string>,
    evidenceSnapshot: Option<seq<Evidence>>,
    createdAt: int,
    startedAt: Option<int>,
    completedAt: Option<int>,
    updatedAt: int,
    characterDialogue: Option<seq<DialogueLine>>)

  const MAX_FAILURE_REASON := 2000
  const MAX_DIALOGUE_LINES := 6

  // closing is not part of the output the status rules look at.
  predicate HasScriptOutput(g: ScriptGeneration) {
    || g.hook.Some? || g.mainNarration.Some? || g.projectGComment.Some? || g.fullNarration.Some?
    || g.characterDialogue.Some?
  }

  predicate HasCompleteScriptOutput(g: ScriptGeneration) {
    g.hook.Some? && g.mainNarration.Some? && g.projectGComment.Some? && g.fullNarration.Some?
  }

  predicate NumbersConsistent(g: ScriptGeneration) {
    && g.generationVersion >= 1
    && 0 <= g.rankingScore <= 100
    && g.attemptCount >= 0
    && g.updatedAt >= g.createdAt
    && (g.startedAt.Some? ==> g.startedAt.value >= g.createdAt)
    && (g.completedAt.Some? && g.startedAt.Some? ==> g.completedAt.value >= g.startedAt.value)
    && (g.characterDialogue.Some? ==> 1 <= |g.characterDialogue.value| <= MAX_DIALOGUE_LINES)
  }

  predicate StatusConsistent(g: ScriptGeneration) {
    if g.status.Pending? then
      g.attemptCount == 0 && g.failureReason.None? && g.startedAt.None? && g.completedAt.None?
      && !HasScriptOutput(g) && g.evidenceSnapshot.None?
    else
      && g.attemptCount >= 1
      && g.startedAt.Some?
      && match g.status
         case Generating =>
           g.failureReason.None? && g.completedAt.None? && !HasScriptOutput(g) && g.evidenceSnapshot.None?
         case Generated =>
           g.completedAt.Some? && g.failureReason.None? && HasCompleteScriptOutput(g) && g.evidenceSnapshot.Some?
         case _ =>
           g.completedAt.Some? && g.failureReason.Some? && !HasScriptOutput(g) && g.evidenceSnapshot.None?
  }

  function NormalizeText(s: Option<string>): Result<Option<string>, DomainError> {
    if s.Some? && Strip(s.value) == "" then Err(InvalidData)
    else if s.Some? then Ok(Some(Strip(s.value)))
    else Ok(None)
  }

  predicate IsNormal(s: Option<string>) {
    s.Some? ==> Stripped(s.value) && s.value != ""
  }

  predicate TextsNormal(g: ScriptGeneration) {
    && IsNormalOptional(g.failureReason, MAX_FAILURE_REASON)
    && IsNormal(g.hook) && IsNormal(g.mainNarration) && IsNormal(g.projectGComment)
    && IsNormal(g.closing) && IsNormal(g.fullNarration)
  }

  predicate Valid(g: ScriptGeneration) {
    TextsNormal(g) && NumbersConsistent(g) && StatusConsistent(g)
  }

  function PostInit(g: ScriptGeneration): Result<ScriptGeneration, DomainError> {
    var failureReason :- NormalizeOptional(g.failureReason, MAX_FAILURE_REASON);
    var hook :- NormalizeText(g.hook);
    var mainNarration :- NormalizeText(g.mainNarration);
    var projectGComment :- NormalizeText(g.projectGComment);
    var closing :- NormalizeText(g.closing);
    var fullNarration :- NormalizeText(g.fullNarration);
    var normalized := g.(failureReason := failureReason, hook := hook, mainNarration := mainNarration,
                         projectGComment := projectGComment, closing := closing, fullNarration := fullNarration);
    if NumbersConsistent(normalized) && StatusConsistent(normalized) then Ok(normalized) else Err(InvalidData)
  }

  function NewPending(generationId: string, intakeId: string, generationVersion: int, rankingScore: int, createdAt: int)
    : Result<ScriptGeneration, DomainError>
  {
    PostInit(ScriptGeneration(generationId, intakeId, generationVersion, Pending, rankingScore, 0, None,
                              None, None, None, None, None, None, createdAt, None, None, createdAt, None))
  }

  // start() leaves character_dialogue alone.
  function Start(g: ScriptGeneration, startedAt: int): Result<ScriptGeneration, DomainError> {
    if !(g.status.Pending? || g.status.Failed?) then Err(InvalidTransition)
    else if startedAt < g.updatedAt then Err(InvalidData)
    else PostInit(StartReplacement(g, startedAt))
  }

  function StartReplacement(g: ScriptGeneration, startedAt: int): ScriptGeneration {
    g.(status := Generating, attemptCount := g.attemptCount + 1, failureReason := None,
       hook := None, mainNarration := None, projectGComment := None, closing := None, fullNarration := None,
       evidenceSnapshot := None, startedAt := Some(startedAt), completedAt := None, updatedAt := startedAt)
  }

  datatype ScriptOutput = ScriptOutput(
    hook: string, mainNarration: string, projectGComment: string, closing: Option<string>, fullNarration: string,
    evidence: seq<Evidence>, dialogue: Option<seq<DialogueLine>>)

  function RecordGenerated(g: ScriptGeneration, o: ScriptOutput,
                           completedAt: int): Result<ScriptGeneration, DomainError>
  {
    if !g.status.Generating? then Err(InvalidTransition)
    else PostInit(g.(status := Generated, failureReason := None, hook := Some(o.hook),
                     mainNarration := Some(o.mainNarration), projectGComment := Some(o.projectGComment),
                     closing := o.closing, fullNarration := Some(o.fullNarration),
                     evidenceSnapshot := Some(o.evidence), characterDialogue := o.dialogue,
                     completedAt := Some(completedAt), updatedAt := completedAt))
  }

  function MarkFailed(g: ScriptGeneration, reason: string, completedAt: int): Result<ScriptGeneration, DomainError> {
    if !g.status.Generating? then Err(InvalidTransition) else
    var normalized :- NormalizeRequired(reason, MAX_FAILURE_REASON);
    PostInit(g.(status := Failed, failureReason := Some(normalized),
                hook := None, mainNarration := None, projectGComment := None, closing := None, fullNarration := None,
                evidenceSnapshot := None, completedAt := Some(completedAt), updatedAt := completedAt))
  }

  lemma NormalizeTextSpec(s: Option<string>)
    ensures NormalizeText(s).Ok? ==> IsNormal(NormalizeText(s).value)
    ensures IsNormal(s) ==> NormalizeText(s) == Ok(s)
  {
    if s.Some? { StripIsNormal(s.value); }
  }

  lemma PostInitSpec(g: ScriptGeneration)
    ensures PostInit(g).Ok? ==> Valid(PostInit(g).value)
    ensures Valid(g) <==> PostInit(g) == Ok(g)
  {
    NormalizeOptionalSpec(g.failureReason, MAX_FAILURE_REASON);
    NormalizeTextSpec(g.hook);
    NormalizeTextSpec(g.mainNarration);
    NormalizeTextSpec(g.projectGComment);
    NormalizeTextSpec(g.closing);
    NormalizeTextSpec(g.fullNarration);
  }

  // No text is blank, and there are one to six lines of dialogue if any.
  predicate OutputFits(o: ScriptOutput) {
    && Strip(o.hook) != "" && Strip(o.mainNarration) != "" && Strip(o.projectGComment) != ""
    && Strip(o.fullNarration) != "" && (o.closing.Some? ==> Strip(o.closing.value) != "")
    && (o.dialogue.Some? ==> 1 <= |o.dialogue.value| <= 6)
  }

  // A result is stored exactly when the row is running since no later than it and the output fits; the texts are stored
  // without surrounding space. Whose attempt it was does not matter.
  lemma RecordGeneratedSpec(g: ScriptGeneration, o: ScriptOutput, completedAt: int)
    requires Valid(g)
    ensures RecordGenerated(g, o, completedAt).Ok? <==>
      g.status == Generating && g.startedAt.value <= completedAt && OutputFits(o)
    ensures RecordGenerated(g, o, completedAt).Ok? ==>
      var r := RecordGenerated(g, o, completedAt).value;
      Valid(r) && r == g.(status := Generated, hook := Some(Strip(o.hook)),
        mainNarration := Some(Strip(o.mainNarration)), projectGComment := Some(Strip(o.projectGComment)),
        closing := if o.closing.Some? then Some(Strip(o.closing.value)) else None,
        fullNarration := Some(Strip(o.fullNarration)), evidenceSnapshot := Some(o.evidence),
        characterDialogue := o.dialogue, completedAt := Some(completedAt), updatedAt := completedAt)
  {
    PostInitSpec(g.(status := Generated, failureReason := None, hook := Some(o.hook),
      mainNarration := Some(o.mainNarration), projectGComment := Some(o.projectGComment),
      closing := o.closing, fullNarration := Some(o.fullNarration),
      evidenceSnapshot := Some(o.evidence), characterDialogue := o.dialogue,
      completedAt := Some(completedAt), updatedAt := completedAt));
  }

  lemma MarkFailedSpec(g: ScriptGeneration, reason: string, completedAt: int)
    requires Valid(g)
    ensures MarkFailed(g, reason, completedAt).Ok? <==>
      g.status == Generating && 1 <= |Strip(reason)| <= MAX_FAILURE_REASON && g.startedAt.value <= completedAt
    ensures MarkFailed(g, reason, completedAt).Ok? ==>
      var r := MarkFailed(g, reason, completedAt).value;
      Valid(r) && r == g.(status := Failed, failureReason := Some(Strip(reason)), closing := None,
        completedAt := Some(completedAt), updatedAt := completedAt)
  {
    NormalizeRequiredSpec(reason, MAX_FAILURE_REASON);
    var normalized := NormalizeRequired(reason, MAX_FAILURE_REASON);
    if normalized.Ok? {
      StripIsNormal(normalized.value);
      PostInitSpec(g.(status := Failed, failureReason := Some(normalized.value),
        hook := None, mainNarration := None, projectGComment := None, closing := None, fullNarration := None,
        evidenceSnapshot := None, completedAt := Some(completedAt), updatedAt := completedAt));
    }
  }

  // What the status of a valid record tells of its columns; a closing may be there in any status.
  lemma StatusTells(g: ScriptGeneration)
    requires Valid(g)
    ensures g.status == Pending <==> g.startedAt.None?
    ensures g.status == Pending <==> g.attemptCount == 0
    ensures g.status == Generated || g.status == Failed <==> g.completedAt.Some?
    ensures g.status == Failed <==> g.failureReason.Some?
    ensures g.status == Generated <==> g.hook.Some?
    ensures g.status == Generated <==> g.mainNarration.Some?
    ensures g.status == Generated <==> g.projectGComment.Some?
    ensures g.status == Generated <==> g.fullNarration.Some?
    ensures g.status == Generated <==> g.evidenceSnapshot.Some?
    ensures g.characterDialogue.Some? ==> g.status == Generated && 1 <= |g.characterDialogue.value| <= 6
    ensures g.createdAt <= g.updatedAt && (g.startedAt.Some? ==> g.createdAt <= g.startedAt.value)
    ensures g.completedAt.Some? ==> g.startedAt.value <= g.completedAt.value
    ensures g.generationVersion >= 1 && g.attemptCount >= 0 && 0 <= g.rankingScore <= 100
  {
  }

  // No transition touches the identity of the record, its ranking score or its creation time.
  predicate SameIdentity(g: ScriptGeneration, h: ScriptGeneration) {
    && g.generationId == h.generationId && g.intakeId == h.intakeId
    && g.generationVersion == h.generationVersion && g.rankingScore == h.rankingScore && g.createdAt == h.createdAt
  }

  lemma TransitionsKeepIdentity(g: ScriptGeneration, o: ScriptOutput, reason: string, at: int)
    ensures Start(g, at).Ok? ==> SameIdentity(g, Start(g, at).value) && Valid(Start(g, at).value)
                                 && Start(g, at).value.status.Generating?
    ensures RecordGenerated(g, o, at).Ok? ==>
      SameIdentity(g, RecordGenerated(g, o, at).value) && Valid(RecordGenerated(g, o, at).value)
      && RecordGenerated(g, o, at).value.status.Generated?
    ensures MarkFailed(g, reason, at).Ok? ==>
      SameIdentity(g, MarkFailed(g, reason, at).value) && Valid(MarkFailed(g, reason, at).value)
      && MarkFailed(g, reason, at).value.status.Failed?
  {
    PostInitSpec(StartReplacement(g, at));
    PostInitSpec(g.(status := Generated, failureReason := None, hook := Some(o.hook),
      mainNarration := Some(o.mainNarration), projectGComment := Some(o.projectGComment),
      closing := o.closing, fullNarration := Some(o.fullNarration),
      evidenceSnapshot := Some(o.evidence), characterDialogue := o.dialogue,
      completedAt := Some(at), updatedAt := at));
    var normalized := NormalizeRequired(reason, MAX_FAILURE_REASON);
    if normalized.Ok? {
      PostInitSpec(g.(status := Failed, failureReason := Some(normalized.value),
        hook := None, mainNarration := None, projectGComment := None, closing := None, fullNarration := None,
        evidenceSnapshot := None, completedAt := Some(at), updatedAt := at));
    }
  }

  // ---- The claim statement ----

  predicate Claimable(g: ScriptGeneration, startedAt: int, staleBefore: Option<int>) {
    && (|| g.status.Pending?
        || g.status.Failed?
        || (&& staleBefore.Some? && g.status.Generating?
            && g.startedAt.Some? && g.startedAt.value <= staleBefore.value))
    && g.updatedAt <= startedAt
  }

  // Unlike start(), the statement clears character_dialogue as well.
  function ClaimedRow(g: ScriptGeneration, startedAt: int): ScriptGeneration {
    g.(status := Generating, attemptCount := g.attemptCount + 1, failureReason := None,
       hook := None, mainNarration := None, projectGComment := None, closing := None, fullNarration := None,
       characterDialogue := None, evidenceSnapshot := None, startedAt := Some(startedAt), completedAt := None,
       updatedAt := startedAt)
  }

  // The two agree on a row exactly when it stores no dialogue, and validity gives that in every
  // status a claim can start from.
  lemma ClaimAgreesIffNoDialogue(g: ScriptGeneration, startedAt: int)
    ensures ClaimedRow(g, startedAt) == StartReplacement(g, startedAt) <==> g.characterDialogue.None?
    ensures Valid(g) && !g.status.Generated? ==> g.characterDialogue.None?
  {
    if ClaimedRow(g, startedAt) == StartReplacement(g, startedAt) {
      assert ClaimedRow(g, startedAt).characterDialogue == StartReplacement(g, startedAt).characterDialogue;
    }
  }

  // On a valid row that is not running, the claim happens exactly when start() would succeed, with its result.
  lemma ClaimRefinesStart(g: ScriptGeneration, startedAt: int, staleBefore: Option<int>)
    requires Valid(g) && !g.status.Generating?
    ensures Claimable(g, startedAt, staleBefore) <==> Start(g, startedAt).Ok?
    ensures Claimable(g, startedAt, staleBefore) ==> Start(g, startedAt) == Ok(ClaimedRow(g, startedAt))
  {
    ClaimAgreesIffNoDialogue(g, startedAt);
    PostInitSpec(StartReplacement(g, startedAt));
  }

  // A running row is taken over exactly when it started no later than staleBefore and was not written later than the
  // claim. What the takeover writes is mark_failed() with any reason at any instant between the old start and the new
  // one, and at no other, followed by start().
  lemma TakeoverRefinesFailThenStart(g: ScriptGeneration, startedAt: int, staleBefore: int, reason: string,
                                     failedAt: int)
    requires Valid(g) && g.status.Generating? && NormalizeRequired(reason, MAX_FAILURE_REASON).Ok?
    ensures Claimable(g, startedAt, Some(staleBefore))
      <==> g.startedAt.value <= staleBefore && g.updatedAt <= startedAt
    ensures (MarkFailed(g, reason, failedAt).Ok? && Start(MarkFailed(g, reason, failedAt).value, startedAt).Ok?)
      <==> g.startedAt.value <= failedAt <= startedAt
    ensures g.startedAt.value <= failedAt <= startedAt ==>
      Start(MarkFailed(g, reason, failedAt).value, startedAt) == Ok(ClaimedRow(g, startedAt))
  {
    NormalizeRequiredSpec(reason, MAX_FAILURE_REASON);
    var failed := g.(status := Failed, failureReason := Some(NormalizeRequired(reason, MAX_FAILURE_REASON).value),
      hook := None, mainNarration := None, projectGComment := None, closing := None, fullNarration := None,
      evidenceSnapshot := None, completedAt := Some(failedAt), updatedAt := failedAt);
    PostInitSpec(failed);
    assert TextsNormal(failed);
    if failedAt >= g.startedAt.value { ClaimRefinesStart(failed, startedAt, None); }
    else { NormalizeOptionalSpec(failed.failureReason, MAX_FAILURE_REASON); }
  }
}
