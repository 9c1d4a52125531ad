/** What happens to an iteration in which no tool ran
    (`_decide_no_tool_outcome` in app/streaming_tool_executor.py). */
module OutcomeDecider {

  const BLOCK_CONTINUE_STALL_CAP := 5
  const INTENT_CONTINUE_STALL_CAP := 3

  datatype StopReason = MaxTokens | Length | EndTurn | Stop | StopSequence | NoReason | OtherReason

  /** What the ladder reads off the assistant text. */
  datatype TextFacts = TextFacts(
    blank: bool,            // nothing but whitespace
    short: bool,            // fewer than 50 characters once stripped
    hasIntent: bool,        // contains one of the intent phrases
    yieldsToUser: bool,     // ends with a question mark
    wordsAfterBlock: nat,   // words after the last structured block
    sentenceEnd: bool,      // that tail ends with `.`, `!` or `?`
    colonEnd: bool,         // the last 200 characters end with `:`
    fenceEnd: bool          // the text ends with a fence
  )

  datatype Query = Query(
    text: TextFacts,
    supportsPrefill: bool,
    toolsExecuted: bool,
    stopReason: StopReason,
    iteration: nat,
    maxIterations: nat,
    continuationHappened: bool,
    codeBlockOpen: bool,
    blockedTools: nat,
    prevIsToolResult: bool,
    graceUsed: nat,
    emptyRetriesUsed: nat,
    blockStalls: nat,
    intentStalls: nat
  )

  datatype Reason =
    | RunawayLoop | NoPrefillEnd | ShortStable | CompleteResponse | StreamEnd
    | MaxIterations | NoActivity

  datatype Verdict =
    | End(reason: Reason)
    | Continue
    | SpendTextonly
    | InjectMaxTokens
    | InjectIntent
    | BlockContinue
    | Nudge
    | SpendEmptyRetry

  predicate CleanStop(r: StopReason) {
    r.EndTurn? || r.Stop? || r.StopSequence? || r.NoReason?
  }

  predicate Cutoff(r: StopReason) {
    r.MaxTokens? || r.Length?
  }

  function EmptyCap(r: StopReason): nat {
    if Cutoff(r) then 3 else 1
  }

  predicate NonPrefillGate(q: Query) {
    !q.supportsPrefill && !q.toolsExecuted
  }

  function DecideNonPrefill(q: Query): Verdict {
    if q.stopReason.MaxTokens? && q.iteration + 1 < q.maxIterations then InjectMaxTokens
    else if q.codeBlockOpen && CleanStop(q.stopReason) && q.blockStalls < BLOCK_CONTINUE_STALL_CAP then BlockContinue
    else if CleanStop(q.stopReason) && q.text.hasIntent && !q.text.yieldsToUser
            && q.intentStalls < INTENT_CONTINUE_STALL_CAP then InjectIntent
    else End(NoPrefillEnd)
  }

  function DecideText(q: Query): Verdict {
    if NonPrefillGate(q) then DecideNonPrefill(q)
    else if q.iteration >= 1 && q.text.short then
      if q.text.hasIntent && q.graceUsed < 3 then SpendTextonly else End(ShortStable)
    else if q.codeBlockOpen then Continue
    else if q.continuationHappened then Continue
    else if q.text.wordsAfterBlock >= 20 && q.text.sentenceEnd then
      if !q.toolsExecuted && q.text.hasIntent && q.graceUsed < 1 && q.iteration == 0 then SpendTextonly
      else End(CompleteResponse)
    else if (q.text.colonEnd || q.text.fenceEnd || (q.text.wordsAfterBlock < 20 && !q.text.sentenceEnd))
            && q.iteration < 2 then Continue
    else End(StreamEnd)
  }

  function DecideEmpty(q: Query): Verdict {
    if q.iteration >= 100 then End(MaxIterations)
    else if q.prevIsToolResult && q.graceUsed < EmptyCap(q.stopReason) then Nudge
    else if !q.prevIsToolResult && q.emptyRetriesUsed < 2 then SpendEmptyRetry
    else End(NoActivity)
  }

  /** No text and no tool, and the run is not over for its length. */
  predicate Retries(q: Query) {
    q.blockedTools < 3 && q.text.blank && q.iteration < 100
  }

  /** Text of a model that gets no prefill and ran no tool. */
  predicate Gated(q: Query) {
    q.blockedTools < 3 && !q.text.blank && !q.supportsPrefill && !q.toolsExecuted
  }

  /** Any other text. */
  predicate Free(q: Query) {
    q.blockedTools < 3 && !q.text.blank && (q.supportsPrefill || q.toolsExecuted)
  }

  /** A short text behind the first iteration. */
  predicate Stable(q: Query) {
    q.iteration >= 1 && q.text.short
  }

  /** Nothing but the shape of the text speaks for going on. */
  predicate ShapeDecides(q: Query) {
    Free(q) && !Stable(q) && !q.codeBlockOpen && !q.continuationHappened
  }

  /** A commentary of at least 20 words that ends a sentence. */
  predicate Commentary(t: TextFacts) {
    t.wordsAfterBlock >= 20 && t.sentenceEnd
  }

  /** The shape of the text speaks for going on. */
  predicate SuggestsMore(t: TextFacts) {
    if t.wordsAfterBlock >= 20 then !t.sentenceEnd && (t.colonEnd || t.fenceEnd)
    else t.colonEnd || t.fenceEnd || !t.sentenceEnd
  }

  /** The model was not cut off. */
  predicate Rested(r: StopReason) {
    r in {EndTurn, Stop, StopSequence, NoReason}
  }

  /** Exactly when each verdict is reached. */
  function Decide(q: Query): (v: Verdict)
    ensures v.Nudge? <==> Retries(q) && q.prevIsToolResult
                              && q.graceUsed < if q.stopReason in {MaxTokens, Length} then 3 else 1
    ensures v.SpendEmptyRetry? <==> Retries(q) && !q.prevIsToolResult && q.emptyRetriesUsed < 2
    ensures v.InjectMaxTokens? <==> Gated(q) && q.stopReason.MaxTokens? && q.iteration + 1 < q.maxIterations
    ensures v.BlockContinue? <==>
            Gated(q) && Rested(q.stopReason) && q.codeBlockOpen && q.blockStalls < 5
    ensures v.InjectIntent? <==>
            && Gated(q) && Rested(q.stopReason) && !v.BlockContinue?
            && q.text.hasIntent && !q.text.yieldsToUser && q.intentStalls < 3
    ensures v.SpendTextonly? <==>
            || (Free(q) && Stable(q) && q.text.hasIntent && q.graceUsed < 3)
            || (ShapeDecides(q) && Commentary(q.text) && q.text.hasIntent
                && q.graceUsed < 1 && q.iteration == 0 && !q.toolsExecuted)
    ensures v.Continue? <==>
            || (Free(q) && !Stable(q) && (q.codeBlockOpen || q.continuationHappened))
            || (ShapeDecides(q) && SuggestsMore(q.text) && q.iteration < 2)
    ensures v == End(RunawayLoop) <==> q.blockedTools >= 3
    ensures v == End(NoPrefillEnd) <==> Gated(q) && !v.InjectMaxTokens? && !v.BlockContinue? && !v.InjectIntent?
    ensures v == End(ShortStable) <==> Free(q) && Stable(q) && !(q.text.hasIntent && q.graceUsed < 3)
    ensures v == End(CompleteResponse) <==> ShapeDecides(q) && Commentary(q.text) && !v.SpendTextonly?
    ensures v == End(StreamEnd) <==>
            ShapeDecides(q) && !Commentary(q.text) && !(SuggestsMore(q.text) && q.iteration < 2)
    ensures v == End(MaxIterations) <==> q.blockedTools < 3 && q.text.blank && q.iteration >= 100
    ensures v == End(NoActivity) <==> Retries(q) && !v.Nudge? && !v.SpendEmptyRetry?
  {
    if q.blockedTools >= 3 then End(RunawayLoop)
    else if !q.text.blank then DecideText(q)
    else DecideEmpty(q)
  }

  /** `s` is `q` with more spent. */
  ghost predicate SpentMore(q: Query, s: Query) {
    && q.graceUsed <= s.graceUsed && q.emptyRetriesUsed <= s.emptyRetriesUsed
    && q.blockStalls <= s.blockStalls && q.intentStalls <= s.intentStalls && q.blockedTools <= s.blockedTools
    && s == q.(graceUsed := s.graceUsed, emptyRetriesUsed := s.emptyRetriesUsed, blockStalls := s.blockStalls,
               intentStalls := s.intentStalls, blockedTools := s.blockedTools)
  }

  /** Spending never brings a run back to life. */
  lemma SpendingEndsMore(q: Query, s: Query)
    requires SpentMore(q, s) && Decide(q).End?
    ensures Decide(s).End?
  {
  }

  predicate AllSpent(q: Query) {
    && q.graceUsed >= 3 && q.emptyRetriesUsed >= 2
    && q.blockStalls >= BLOCK_CONTINUE_STALL_CAP && q.intentStalls >= INTENT_CONTINUE_STALL_CAP
  }

  /** What needs no budget: with everything spent, only text goes on, and only
      a cut-off one where there is no prefill; where there is, only beside an
      open block, behind a continuation, or in the first two iterations. */
  lemma AllSpentGoesOnIff(q: Query)
    requires AllSpent(q)
    ensures !Decide(q).End? <==>
            && q.blockedTools < 3 && !q.text.blank
            && if NonPrefillGate(q) then q.stopReason.MaxTokens? && q.iteration + 1 < q.maxIterations
               else
                 && !(q.iteration >= 1 && q.text.short)
                 && (q.codeBlockOpen || q.continuationHappened || (q.iteration < 2 && SuggestsMore(q.text)))
  {
  }
}
