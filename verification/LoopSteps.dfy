/** What an iteration puts on record, message by message, for every way in which
    it can go: the request, what follows it after tools, after a fabricated
    result, after an error, and after an answer without tools; and the counters. */
module LoopSteps {
  import opened Strings
  import opened Messages
  import opened ToolLoop
  import opened LoopHistory
  import Backoff
  import Decider = OutcomeDecider
  import Feedback

  // ---- the request ------------------------------------------------------------

  /** The feedback an iteration begins with. */
  function Waiting(cfg: Config, st: LoopState, r: Round): seq<Feedback.Item> {
    if cfg.takesFeedback && st.iteration > 0 then r.before else []
  }

  /** `c` may be followed by a reminder: it is empty, or its last message is a
      text without the reminder's phrase. */
  ghost predicate MayBeReminded(cfg: Config, c: Conversation) {
    c == [] || match c[|c| - 1].content
               case Plain(text) => forall i: nat :: !At(text, cfg.texts.reminderPhrase, i)
               case Blocks(_) => false
  }

  /** The provider is called exactly if nobody cancels or stops the iteration and
      the guard lets it pass. */
  lemma CalledIff(cfg: Config, st: LoopState, r: Round)
    ensures Iterate(cfg, st, r).request.Some? <==>
            && !r.cancelled && (forall fb :: fb in Waiting(cfg, st, r) ==> !Feedback.Stops(fb))
            && !(st.iteration > 0 && !cfg.supportsPrefill && Waiting(cfg, st, r) == []
                 && st.conversation != [] && st.conversation[|st.conversation| - 1].role.Assistant?)
  {
    var w := Waiting(cfg, st, r);
    Feedback.AnyStopsIff(w);
    BehindEndsInUser(st.conversation, Spoken(Feedback.BeforeStop(w)));
  }

  lemma ReminderIff(cfg: Config, st: LoopState)
    ensures ReminderDue(cfg, st) <==>
            st.iteration > 0 && st.iteration % 15 == 0 && cfg.hasTools && MayBeReminded(cfg, st.conversation)
  {
    var c := st.conversation;
    if c != [] && c[|c| - 1].content.Plain? {
      FindSpec(c[|c| - 1].content.text, cfg.texts.reminderPhrase, 0);
    }
  }

  /** The request is the history, the feedback that waited as user turns, and in
      every fifteenth iteration a reminder. */
  lemma RequestIs(cfg: Config, st: LoopState, r: Round) returns (spoken: Conversation)
    requires Iterate(cfg, st, r).request.Some?
    ensures var w := Waiting(cfg, st, r);
            |spoken| == |w| && forall i :: 0 <= i < |w| ==> w[i].Directive? && spoken[i] == UserText(w[i].message)
    ensures Iterate(cfg, st, r).request.value
            == st.conversation + spoken
               + if st.iteration > 0 && st.iteration % 15 == 0 && cfg.hasTools
                    && MayBeReminded(cfg, st.conversation + spoken)
                 then [UserText(cfg.texts.reminder)] else []
  {
    IterateIs(cfg, st, r);
    var w := Waiting(cfg, st, r);
    Feedback.AnyStopsIff(w);
    spoken := UserTexts(Spoken(w));
    UserTextsLength(Spoken(w));
    Nil(st.conversation);
    ReminderIff(cfg, st.(conversation := st.conversation + spoken));
  }

  // ---- after tools -------------------------------------------------------------

  /** The answer in front of every third message. */
  function Woven(answer: Message, said: seq<string>): Conversation {
    if |said| <= 3 then (if said == [] then [] else [answer] + UserTexts(said))
    else [answer] + UserTexts(said[..3]) + Woven(answer, said[3..])
  }

  /** The answer is not among the last three messages. */
  predicate NotRecent(c: Conversation, answer: Message) {
    answer !in (if |c| < 3 then c else c[|c| - 3..])
  }

  lemma OneSaid(c: Conversation, text: string, s: string, more: seq<string>)
    ensures AppendBehind(c, text, [s] + more) == AppendBehind(WithAnswer(c, text) + [UserText(s)], text, more)
  {
    assert ([s] + more)[1..] == more;
  }

  /** Up to three messages follow one answer. */
  lemma {:induction false} ThreeSaid(c: Conversation, text: string, said: seq<string>, k: nat)
    requires k + |said| <= 3 && !Blank(text) && |c| >= k + 1 && c[|c| - k - 1] == AssistantText(text)
    ensures AppendBehind(c, text, said) == c + UserTexts(said)
    decreases |said|
  {
    if said == [] {
      Nil(c);
    } else {
      var recent := if |c| < 3 then c else c[|c| - 3..];
      assert recent[|recent| - k - 1] == AssistantText(text);
      OneSaid(c, text, said[0], said[1..]);
      assert [said[0]] + said[1..] == said;
      ThreeSaid(c + [UserText(said[0])], text, said[1..], k + 1);
      Assoc(c, [UserText(said[0])], UserTexts(said[1..]));
    }
  }

  lemma {:induction false} SaidInTwo(c: Conversation, text: string, a: seq<string>, b: seq<string>)
    ensures AppendBehind(c, text, a + b) == AppendBehind(AppendBehind(c, text, a), text, b)
    decreases |a|
  {
    if a == [] {
      Nil(b);
    } else {
      assert (a + b) == [a[0]] + (a[1..] + b);
      OneSaid(c, text, a[0], a[1..] + b);
      SaidInTwo(WithAnswer(c, text) + [UserText(a[0])], text, a[1..], b);
    }
  }

  /** The first messages go behind the answer, as it is not there yet. */
  lemma FirstSaid(c: Conversation, text: string, said: seq<string>)
    requires !Blank(text) && NotRecent(c, AssistantText(text)) && 1 <= |said| <= 3
    ensures AppendBehind(c, text, said) == c + ([AssistantText(text)] + UserTexts(said))
  {
    var a, s := AssistantText(text), UserText(said[0]);
    OneSaid(c, text, said[0], said[1..]);
    assert [said[0]] + said[1..] == said;
    ThreeSaid(c + [a] + [s], text, said[1..], 1);
    Assoc(c + [a], [s], UserTexts(said[1..]));
    Assoc(c, [a], UserTexts(said));
  }

  /** Feedback after a tool iteration: the answer is put in front of the first
      message, and again of every third one after it. */
  lemma {:induction false} FeedbackIsWoven(c: Conversation, text: string, said: seq<string>)
    requires !Blank(text) && NotRecent(c, AssistantText(text))
    ensures AppendBehind(c, text, said) == c + Woven(AssistantText(text), said)
    decreases |said|
  {
    var a := AssistantText(text);
    if said == [] {
      Nil(c);
    } else if |said| <= 3 {
      FirstSaid(c, text, said);
    } else {
      var first := said[..3];
      assert said == first + said[3..];
      SaidInTwo(c, text, first, said[3..]);
      FirstSaid(c, text, first);
      var c' := c + ([a] + UserTexts(first));
      Assoc(c, [a], UserTexts(first));
      LastThreeSaid(c + [a], first, a);
      FeedbackIsWoven(c', text, said[3..]);
      Assoc(c, [a] + UserTexts(first), Woven(a, said[3..]));
    }
  }

  lemma LastThreeSaid(c: Conversation, said: seq<string>, a: Message)
    requires |said| == 3 && a.role.Assistant?
    ensures NotRecent(c + UserTexts(said), a)
  {
    UserTextsLength(said);
    var users := UserTexts(said);
    assert (c + users)[|c + users| - 3..] == users;
  }

  /** A blank answer is not put in front of anything. */
  lemma {:induction false} BlankIsNotWoven(c: Conversation, text: string, said: seq<string>)
    requires Blank(text)
    ensures AppendBehind(c, text, said) == c + UserTexts(said)
    decreases |said|
  {
    if said == [] {
      Nil(c);
    } else {
      BlankIsNotWoven(c + [UserText(said[0])], text, said[1..]);
      Assoc(c, [UserText(said[0])], UserTexts(said[1..]));
    }
  }

  /** Behind the results: a last warning after five empty calls in a row, and
      the feedback up to the first message that stops. */
  lemma ToolsAppend(cfg: Config, st: LoopState, r: Round)
    requires RanTools(r) && Iterate(cfg, st, r).request.Some?
    ensures var s, t := Iterate(cfg, st, r), r.response.turn;
            var c := Assemble(cfg.texts, s.request.value, t)
                     + if t.emptyInARow >= 5 then [UserText(cfg.texts.noMoreTools)] else [];
            var said := Spoken(Feedback.BeforeStop(r.after));
            && (Blank(t.sanitized) ==> s.state.conversation == c + UserTexts(said))
            && (!Blank(t.sanitized) && NotRecent(c, AssistantText(t.sanitized)) ==>
                  s.state.conversation == c + Woven(AssistantText(t.sanitized), said))
            && s.outcome == (if Feedback.AnyStops(r.after) then Over(UserStop) else On(ToolsRan))
            && s.state.emptyCallsInARow == (if t.emptyHere == 0 then 0 else t.emptyInARow)
  {
    IterateIs(cfg, st, r);
    var t := r.response.turn;
    var assembled := Assemble(cfg.texts, Iterate(cfg, st, r).request.value, t);
    Nil(assembled);
    var c := assembled + if t.emptyInARow >= 5 then [UserText(cfg.texts.noMoreTools)] else [];
    var said := Spoken(Feedback.BeforeStop(r.after));
    if Blank(t.sanitized) {
      BlankIsNotWoven(c, t.sanitized, said);
    } else if NotRecent(c, AssistantText(t.sanitized)) {
      FeedbackIsWoven(c, t.sanitized, said);
    }
  }

  // ---- the other ways ------------------------------------------------------------

  /** After a fabricated result: one correction, or two, and the third time the end. */
  lemma HallucinationAppends(cfg: Config, st: LoopState, r: Round)
    requires r.response.Completed? && r.response.turn.hallucinated && Iterate(cfg, st, r).request.Some?
    ensures var s, t := Iterate(cfg, st, r), r.response.turn;
            var c := Assemble(cfg.texts, s.request.value, t);
            && s.state.hallucinations == st.hallucinations + 1
            && (if st.hallucinations >= 2 then s.outcome == Over(Hallucinating) && s.state.conversation == c
                else
                  && s.outcome == On(HallucinationRetry)
                  && s.state.conversation ==
                     c + if t.parroted then [UserText(cfg.texts.parroted)]
                         else [UserText(cfg.texts.corrective), UserText(cfg.texts.reinforcement)])
  {
    IterateIs(cfg, st, r);
  }

  /** An exception leaves the request as the history. */
  lemma ErrorAppendsNothing(cfg: Config, st: LoopState, r: Round)
    requires r.response.Raised? && Iterate(cfg, st, r).request.Some?
    ensures var s, f := Iterate(cfg, st, r), r.response.failure;
            && s.state.conversation == s.request.value && s.state.emptyCallsInARow == r.response.emptyInARow
            && s.outcome == (if Backoff.Retryable(f) && st.errors < 5 then On(ErrorRetry) else Over(GivenUp))
            && s.state.errors == st.errors +
                                 if !f.auth && (f.throttling || f.readTimeout || f.transient) then 1 else 0
  {
    IterateIs(cfg, st, r);
  }

  /** The answer, unless it is blank. */
  function Answer(t: Turn): Conversation {
    if Blank(FinalText(t)) then [] else [AssistantText(FinalText(t))]
  }

  lemma FeedbackGoes(cfg: Config, st: LoopState, iteration: nat, t: Turn, r: Round)
    ensures var (st', outcome) := AfterText(cfg, st, iteration, t, r);
            var said := if Directives(r.after) != [] then Directives(r.after) else Directives(r.later);
            && (outcome == On(FeedbackTurn) <==> said != [])
            && (said != [] ==> st'.conversation == st.conversation + Answer(t) + [UserText(JoinWith(said))])
  {
    Nil(st.conversation);
  }

  /** Directives that waited behind a text answer go on in one turn, joined by
      blanks, with the answer in front; the first ones that came, if any did. */
  lemma FeedbackIsDelivered(cfg: Config, st: LoopState, r: Round) returns (said: seq<string>)
    requires NoTools(r) && Iterate(cfg, st, r).request.Some?
    ensures var first := Chosen(r.after, IsDirective());
            Says(if first != [] then first else Chosen(r.later, IsDirective()), said)
    ensures var s, t := Iterate(cfg, st, r), r.response.turn;
            && (s.outcome == On(FeedbackTurn) <==> said != [])
            && (said != [] ==>
                  s.state.conversation ==
                  Assemble(cfg.texts, s.request.value, t) + Answer(t) + [UserText(JoinWith(said))])
  {
    IterateIs(cfg, st, r);
    DirectivesAre(r.after);
    DirectivesAre(r.later);
    said := if Directives(r.after) != [] then Directives(r.after) else Directives(r.later);
    var t := r.response.turn;
    var c := Assemble(cfg.texts, Iterate(cfg, st, r).request.value, t);
    FeedbackGoes(cfg, Sending(cfg, st, r).(conversation := c, emptyCallsInARow := t.emptyInARow), st.iteration, t, r);
  }

  /** What the decider is asked after an answer without tools. */
  ghost predicate Asked(cfg: Config, st: LoopState, r: Round, c: Conversation, q: Decider.Query)
    requires r.response.Completed?
  {
    var t := r.response.turn;
    var blank := Blank(FinalText(t));
    && q.text == t.facts.(blank := blank) && q.supportsPrefill == cfg.supportsPrefill && !q.toolsExecuted
    && q.stopReason == t.stopReason && q.iteration == st.iteration && q.maxIterations == cfg.maxIterations
    && q.continuationHappened == t.continued && q.codeBlockOpen == t.blockOpen && q.blockedTools == 0
    && (q.prevIsToolResult <==>
        && blank && c != [] && c[|c| - 1].content.Blocks?
        && exists b :: b in c[|c| - 1].content.blocks && b.ToolResult?)
    && q.graceUsed == st.graceUsed && q.emptyRetriesUsed == st.emptyRetries
    && (!blank ==> q.blockStalls == st.blockStalls && q.intentStalls == st.intentStalls)
    && (blank ==> q.blockStalls == 0 && q.intentStalls == 0)
  }

  /** The answer is repeated as plain text in front of a follow-up. */
  function FollowUp(cfg: Config, t: Turn): Conversation {
    Answer(t) + [UserText(cfg.texts.followThrough)]
  }

  /** How an iteration goes on from `c`, by the decider's verdict. */
  predicate GoesAs(
    cfg: Config, t: Turn, transitions: nat, v: Decider.Verdict, outcome: Outcome, c: Conversation, c': Conversation)
  {
    match v
    case End(reason) => outcome == Over(Verdict(reason)) && c' == c
    case Continue => outcome == On(PlainContinue) && c' == c
    case SpendTextonly => outcome == On(GraceContinue) && c' == c
    case SpendEmptyRetry => outcome == On(EmptyRetry) && c' == c
    case InjectMaxTokens => outcome == On(MaxTokensContinue) && c' == c + FollowUp(cfg, t)
    case InjectIntent => outcome == On(IntentContinue) && c' == c + FollowUp(cfg, t)
    case BlockContinue =>
      && outcome == On(if t.transitions > transitions || |FinalText(t)| >= 8000 then BlockProgress else BlockStall)
      && c' == c + FollowUp(cfg, t)
    case Nudge => outcome == On(NudgeContinue) && IsNudged(cfg, c, c')
  }

  lemma AfterTextGoes(cfg: Config, st: LoopState, iteration: nat, t: Turn, r: Round)
    requires Directives(r.after) == [] && Directives(r.later) == []
    ensures var (st', outcome) := AfterText(cfg, st, iteration, t, r);
            GoesAs(cfg, t, st.prevTransitions, Decider.Decide(QueryFor(cfg, st, iteration, t)), outcome,
                   st.conversation, st'.conversation)
  {
    var c := st.conversation;
    Assoc(c, [AssistantText(FinalText(t))], [UserText(cfg.texts.followThrough)]);
    Nil([UserText(cfg.texts.followThrough)]);
  }

  /** An answer without tools and without feedback goes as the decider says. */
  lemma VerdictIs(cfg: Config, st: LoopState, r: Round, q: Decider.Query)
    requires NoTools(r) && Iterate(cfg, st, r).request.Some?
    requires Chosen(r.after, IsDirective()) == [] && Chosen(r.later, IsDirective()) == []
    requires Asked(cfg, st, r, Assemble(cfg.texts, Iterate(cfg, st, r).request.value, r.response.turn), q)
    ensures var s, t := Iterate(cfg, st, r), r.response.turn;
            GoesAs(cfg, t, st.prevTransitions, Decider.Decide(q), s.outcome,
                   Assemble(cfg.texts, s.request.value, t), s.state.conversation)
  {
    IterateIs(cfg, st, r);
    DirectivesAre(r.after);
    DirectivesAre(r.later);
    var t := r.response.turn;
    var c := Assemble(cfg.texts, Iterate(cfg, st, r).request.value, t);
    var st1 := Sending(cfg, st, r).(conversation := c, emptyCallsInARow := t.emptyInARow);
    assert QueryFor(cfg, st1, st.iteration, t) == q;
    AfterTextGoes(cfg, st1, st.iteration, t, r);
  }

  /** The nudge is one more block of the last turn. */
  predicate IsNudged(cfg: Config, c: Conversation, c': Conversation) {
    c != [] && c[|c| - 1].content.Blocks? && |c'| == |c| && c'[..|c| - 1] == c[..|c| - 1]
    && c'[|c| - 1] == Message(c[|c| - 1].role, Blocks(c[|c| - 1].content.blocks + [TextBlock(cfg.texts.nudge)]))
  }

  // ---- the counters ----------------------------------------------------------------

  /** The counters after an iteration, by how it went. */
  predicate Counts(st: LoopState, st': LoopState, how: Outcome, ranTools: bool) {
    && st'.graceUsed == st.graceUsed + (if how == On(NudgeContinue) || how == On(GraceContinue) then 1 else 0)
    && st'.emptyRetries == st.emptyRetries + (if how == On(EmptyRetry) then 1 else 0)
    && st'.blockStalls == (if how == On(BlockProgress) then 0
                           else if how == On(BlockStall) then st.blockStalls + 1
                           else st.blockStalls)
    && st'.intentStalls == (if how != On(IntentContinue) then st.intentStalls
                            else if st.toolsSinceIntent then 0
                            else st.intentStalls + 1)
    && st'.toolsSinceIntent == (how != On(IntentContinue) && (st.toolsSinceIntent || ranTools))
  }

  lemma CountersAnswered(cfg: Config, st: LoopState, iteration: nat, r: Round)
    ensures var (st', how) := Answered(cfg, st, iteration, r);
            Counts(st, st', how, RanTools(r)) && st'.iteration == st.iteration
  {
    if NoTools(r) {
      var t := r.response.turn;
      CountersAfterText(cfg, st.(conversation := Assemble(cfg.texts, st.conversation, t),
                                 emptyCallsInARow := t.emptyInARow), iteration, t, r);
    }
  }

  lemma CountersAfterText(cfg: Config, st: LoopState, iteration: nat, t: Turn, r: Round)
    ensures var (st', how) := AfterText(cfg, st, iteration, t, r);
            Counts(st, st', how, false) && st'.iteration == st.iteration
  {
  }

  /** Every counter after an iteration that called the provider. */
  lemma CountersAre(cfg: Config, st: LoopState, r: Round)
    requires Iterate(cfg, st, r).request.Some?
    ensures var s := Iterate(cfg, st, r);
            Counts(st, s.state, s.outcome, RanTools(r)) && s.state.iteration == st.iteration + 1
  {
    IterateIs(cfg, st, r);
    CountersAnswered(cfg, Sending(cfg, st, r), st.iteration, r);
  }
}
