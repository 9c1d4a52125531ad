/** The iterations of `stream_with_tools`: what each adds to the conversation, when the loop goes on, and whole runs. */
module ToolLoop {
  import opened Strings
  import opened Messages
  import Backoff
  import Decider = OutcomeDecider
  import Feedback
  import Stream = ToolStream

  // One `Round` is what the outside world contributes to one iteration: the
  // feedback drained and the response read. `Iterate` is the iteration, and
  // `Run` the iterations of a run.

  /** The texts the loop injects. */
  datatype Prompts = Prompts(
    reminder: string, reminderPhrase: string, nudge: string, corrective: string, reinforcement: string,
    parroted: string, noMoreTools: string, followThrough: string, rejected: string, imageDelivered: string)

  datatype Config = Config(
    supportsPrefill: bool, maxIterations: nat, hasTools: bool, takesFeedback: bool, texts: Prompts)

  const BIG_OUTPUT := 8000

  /** The loop's own variables. `errors` is `throttle_state['retry_count']`. */
  datatype LoopState = LoopState(
    conversation: Conversation,
    iteration: nat,
    graceUsed: nat,
    emptyRetries: nat,
    hallucinations: nat,
    blockStalls: nat,
    prevTransitions: nat,
    intentStalls: nat,
    toolsSinceIntent: bool,
    emptyCallsInARow: nat,
    errors: nat
  )

  /** A response read to its end. `sanitized` is the text after
      `_sanitize_assistant_text`, `facts` describes it to the decider. */
  datatype Turn = Turn(
    text: string,
    sanitized: string,
    facts: Decider.TextFacts,
    calls: seq<Stream.Call>,
    results: seq<Stream.ToolResult>,
    executed: bool,
    emptyHere: nat,
    emptyInARow: nat,
    deferred: seq<string>,
    hallucinated: bool,
    parroted: bool,
    stopReason: Decider.StopReason,
    continued: bool,
    blockOpen: bool,
    transitions: nat
  )

  datatype Response = Returned | Raised(failure: Backoff.Failure, emptyInARow: nat) | Completed(turn: Turn)

  datatype Round = Round(
    cancelled: bool,
    before: seq<Feedback.Item>,     // drained at the start of the iteration
    response: Response,
    after: seq<Feedback.Item>,      // drained when the response is done
    later: seq<Feedback.Item>       // drained 0.3 s later if nothing came
  )

  datatype Went =
    | ToolsRan | HallucinationRetry | FeedbackTurn
    | MaxTokensContinue | IntentContinue | BlockProgress | BlockStall
    | GraceContinue | PlainContinue | NudgeContinue | EmptyRetry | ErrorRetry

  datatype Ending =
    | Cancelled | UserStop | PrefillGuard | StreamReturned | GivenUp | Hallucinating | Verdict(reason: Decider.Reason)

  datatype Outcome = On(how: Went) | Over(why: Ending)

  /** The state left, the conversation sent to the provider (if one was), and how it went on. */
  datatype Step = Step(state: LoopState, request: Option<Conversation>, outcome: Outcome)

  // ---- what an iteration appends ------------------------------------------

  function StripMcp(name: string): string {
    if "mcp_" <= name then name[4..] else name
  }

  function UseBlocks(calls: seq<Stream.Call>, results: seq<Stream.ToolResult>): seq<Block> {
    if results == [] then []
    else
      var args := Stream.ArgsFor(calls, results[0].id);
      [ToolUse(results[0].id, StripMcp(results[0].name), if args.Some? && args.value != "" then args.value else "{}")]
      + UseBlocks(calls, results[1..])
  }

  /** The provider's `build_assistant_message`. */
  function AssistantMessage(text: string, calls: seq<Stream.Call>, results: seq<Stream.ToolResult>): Message {
    var uses := UseBlocks(calls, results);
    Message(Assistant, Blocks(if Blank(text) then uses else [TextBlock(TrimRight(text))] + uses))
  }

  /** Lines that echo a shell prompt are dropped from results that show one. */
  function WithoutPrompts(lines: seq<string>): seq<string> {
    if lines == [] then []
    else if "$ " <= lines[0] then WithoutPrompts(lines[1..])
    else [lines[0]] + WithoutPrompts(lines[1..])
  }

  /** What history keeps of a result: images become a text summary, prompt lines go. */
  function Compact(texts: Prompts, r: Stream.RawResult): string {
    var text := match r
      case Rejected(_) => texts.rejected
      case Output(TextOutput(t)) => t
      case Output(ImageOutput(ts)) =>
        if JoinWith(ts) == "" then texts.imageDelivered else JoinWith(ts);
    if Find(text, "$ ", 0).Some? then Strip(Join(WithoutPrompts(Lines(text)))) else text
  }

  function ResultBlocks(texts: Prompts, results: seq<Stream.ToolResult>): seq<Block> {
    if results == [] then []
    else [ToolResult(results[0].id, Compact(texts, results[0].result))] + ResultBlocks(texts, results[1..])
  }

  function UserTexts(texts: seq<string>): Conversation {
    if texts == [] then [] else [UserText(texts[0])] + UserTexts(texts[1..])
  }

  /** `more` user turns are put behind `c`, if there are any. */
  function Behind(c: Conversation, more: seq<string>): Conversation {
    if more == [] then c else c + UserTexts(more)
  }

  /** Assistant answer, tool results and deferred feedback, in that order. */
  function Assemble(texts: Prompts, c: Conversation, t: Turn): Conversation {
    var answered :=
      if Blank(t.text) && !t.executed then c else c + [AssistantMessage(t.sanitized, t.calls, t.results)];
    var resulted :=
      if t.executed then answered + [Message(User, Blocks(ResultBlocks(texts, t.results)))] else answered;
    Behind(resulted, t.deferred)
  }

  /** The assistant text as later branches see it. */
  function FinalText(t: Turn): string {
    if Blank(t.text) && !t.executed then t.text else t.sanitized
  }

  function Spoken(fbs: seq<Feedback.Item>): seq<string>
    requires forall fb :: fb in fbs ==> fb.Directive?
  {
    seq(|fbs|, i requires 0 <= i < |fbs| => fbs[i].message)
  }

  function Directives(fbs: seq<Feedback.Item>): seq<string> {
    if fbs == [] then []
    else if fbs[0].Directive? then [fbs[0].message] + Directives(fbs[1..])
    else Directives(fbs[1..])
  }

  /** `c` with the assistant text at the end, unless it is blank or recent. */
  function WithAnswer(c: Conversation, text: string): Conversation {
    var recent := if |c| < 3 then c else c[|c| - 3..];
    if Blank(text) || AssistantText(text) in recent then c else c + [AssistantText(text)]
  }

  /** Feedback after a tool iteration, each message behind the assistant text
      unless that is among the last three messages already. */
  function AppendBehind(c: Conversation, text: string, fbs: seq<string>): Conversation
    decreases |fbs|
  {
    if fbs == [] then c
    else
      AppendBehind(WithAnswer(c, text) + [UserText(fbs[0])], text, fbs[1..])
  }

  predicate ReminderDue(cfg: Config, st: LoopState) {
    && st.iteration > 0 && st.iteration % 15 == 0 && cfg.hasTools
    && (st.conversation == [] ||
        (st.conversation[|st.conversation| - 1].content.Plain?
         && Find(st.conversation[|st.conversation| - 1].content.text, cfg.texts.reminderPhrase, 0).None?))
  }

  // ---- one iteration ---------------------------------------------------------

  function Heeded(cfg: Config, st: LoopState, r: Round): seq<Feedback.Item> {
    if cfg.takesFeedback && st.iteration > 0 then r.before else []
  }

  /** The state in which the provider is called: feedback and a reminder are behind the history. */
  function Sending(cfg: Config, st: LoopState, r: Round): LoopState {
    var st1 := st.(conversation := Behind(st.conversation, Spoken(Feedback.BeforeStop(Heeded(cfg, st, r)))));
    st1.(conversation := st1.conversation + if ReminderDue(cfg, st1) then [UserText(cfg.texts.reminder)] else [],
         iteration := st.iteration + 1)
  }

  function Iterate(cfg: Config, st: LoopState, r: Round): Step {
    if r.cancelled then Step(st, None, Over(Cancelled))
    else if Feedback.AnyStops(Heeded(cfg, st, r)) then Step(st, None, Over(UserStop))
    else
      var c := Behind(st.conversation, Spoken(Feedback.BeforeStop(Heeded(cfg, st, r))));
      if st.iteration > 0 && EndsInAssistant(c) && !cfg.supportsPrefill then Step(st, None, Over(PrefillGuard))
      else
        var sending := Sending(cfg, st, r);
        var (st', outcome) := Answered(cfg, sending, st.iteration, r);
        Step(st', Some(sending.conversation), outcome)
  }

  /** An iteration either ends the run before the provider is called, or is
      what comes of the provider's answer. */
  lemma IterateIs(cfg: Config, st: LoopState, r: Round)
    ensures var s := Iterate(cfg, st, r);
            match s.request
            case None => s.state == st && s.outcome.Over?
            case Some(c) =>
              && c == Sending(cfg, st, r).conversation
              && (s.state, s.outcome) == Answered(cfg, Sending(cfg, st, r), st.iteration, r)
  {
  }

  /** What the provider's response to `st.conversation` leads to. */
  function Answered(cfg: Config, st: LoopState, iteration: nat, r: Round): (LoopState, Outcome) {
    match r.response
    case Returned => (st, Over(StreamReturned))
    case Raised(f, emptyCalls) =>
      (st.(errors := if Backoff.Untracked(f) then st.errors else st.errors + 1, emptyCallsInARow := emptyCalls),
       if Backoff.Retries(f, st.errors) then On(ErrorRetry) else Over(GivenUp))
    case Completed(t) =>
      Finish(cfg, st.(conversation := Assemble(cfg.texts, st.conversation, t), emptyCallsInARow := t.emptyInARow),
             iteration, t, r)
  }

  function Finish(cfg: Config, st: LoopState, iteration: nat, t: Turn, r: Round): (LoopState, Outcome) {
    if t.hallucinated then AfterHallucination(cfg.texts, st, t)
    else if t.executed then AfterTools(cfg.texts, st, t, r)
    else AfterText(cfg, st, iteration, t, r)
  }

  function AfterHallucination(texts: Prompts, st: LoopState, t: Turn): (LoopState, Outcome) {
    var st' := st.(hallucinations := st.hallucinations + 1);
    if st'.hallucinations >= 3 then (st', Over(Hallucinating))
    else
      var c := if t.parroted then st.conversation + [UserText(texts.parroted)]
               else st.conversation + [UserText(texts.corrective)] + [UserText(texts.reinforcement)];
      (st'.(conversation := c), On(HallucinationRetry))
  }

  function AfterTools(texts: Prompts, st: LoopState, t: Turn, r: Round): (LoopState, Outcome) {
    var st1 := st.(
      toolsSinceIntent := true,
      conversation := if t.emptyInARow >= 5 then st.conversation + [UserText(texts.noMoreTools)] else st.conversation,
      emptyCallsInARow := if t.emptyHere == 0 then 0 else t.emptyInARow);
    var spoken := Spoken(Feedback.BeforeStop(r.after));
    var st2 := st1.(conversation := AppendBehind(st1.conversation, FinalText(t), spoken));
    (st2, if Feedback.AnyStops(r.after) then Over(UserStop) else On(ToolsRan))
  }

  /** No tool ran: pending feedback first, then the decider. Interrupts drained
      here are dropped. */
  function AfterText(cfg: Config, st: LoopState, iteration: nat, t: Turn, r: Round): (LoopState, Outcome) {
    var text := FinalText(t);
    var c := st.conversation;
    var answered := if Blank(text) then c else c + [AssistantText(text)];
    var said := if Directives(r.after) != [] then Directives(r.after) else Directives(r.later);
    if said != [] then
      (st.(conversation := answered + [UserText(JoinWith(said))]), On(FeedbackTurn))
    else
      match Decider.Decide(QueryFor(cfg, st, iteration, t))
      case End(reason) => (st, Over(Verdict(reason)))
      case Continue => (st, On(PlainContinue))
      case SpendTextonly => (st.(graceUsed := st.graceUsed + 1), On(GraceContinue))
      case InjectMaxTokens =>
        (st.(conversation := answered + [UserText(cfg.texts.followThrough)]), On(MaxTokensContinue))
      case InjectIntent =>
        (st.(conversation := answered + [UserText(cfg.texts.followThrough)],
             intentStalls := if st.toolsSinceIntent then 0 else st.intentStalls + 1,
             toolsSinceIntent := false), On(IntentContinue))
      case BlockContinue =>
        (st.(conversation := answered + [UserText(cfg.texts.followThrough)],
             blockStalls := if Progress(st, t) then 0 else st.blockStalls + 1,
             prevTransitions := t.transitions),
         On(if Progress(st, t) then BlockProgress else BlockStall))
      case Nudge =>
        (st.(graceUsed := st.graceUsed + 1, conversation := Nudged(cfg.texts.nudge, c)), On(NudgeContinue))
      case SpendEmptyRetry => (st.(emptyRetries := st.emptyRetries + 1), On(EmptyRetry))
  }

  function QueryFor(cfg: Config, st: LoopState, iteration: nat, t: Turn): Decider.Query {
    var blank := Blank(FinalText(t));
    var c := st.conversation;
    Decider.Query(
      t.facts.(blank := blank), cfg.supportsPrefill, t.executed, t.stopReason, iteration, cfg.maxIterations,
      t.continued, t.blockOpen, 0,
      blank && c != [] && HasToolResult(c[|c| - 1]),
      st.graceUsed, st.emptyRetries,
      if blank then 0 else st.blockStalls, if blank then 0 else st.intentStalls)
  }

  /** More fence transitions than in the previous such round, or a large one. */
  predicate Progress(st: LoopState, t: Turn) {
    t.transitions > st.prevTransitions || |FinalText(t)| >= BIG_OUTPUT
  }

  /** The nudge goes inside the tool-result turn, as one more text block. */
  function Nudged(nudge: string, c: Conversation): Conversation {
    if c == [] || !c[|c| - 1].content.Blocks? then c
    else c[..|c| - 1] + [c[|c| - 1].(content := Blocks(c[|c| - 1].content.blocks + [TextBlock(nudge)]))]
  }

  // ---- runs -------------------------------------------------------------------

  function Start(c: Conversation): LoopState {
    LoopState(c, 0, 0, 0, 0, 0, 0, 0, false, 0, 0)
  }

  /** The steps of a run from `st`. */
  function Run(cfg: Config, st: LoopState, rounds: seq<Round>): seq<Step>
    decreases |rounds|
  {
    if rounds == [] || st.iteration >= cfg.maxIterations then []
    else
      var s := Iterate(cfg, st, rounds[0]);
      [s] + if s.outcome.On? then Run(cfg, s.state, rounds[1..]) else []
  }

  /** The response bookkeeping never reports results without a tool having run. */
  ghost predicate Consistent(r: Round) {
    r.response.Completed? ==>
      && (r.response.turn.results != [] ==> r.response.turn.executed)
      && (r.response.turn.deferred != [] ==> r.response.turn.executed)
  }

  // ---- pairing ------------------------------------------------------------------

  lemma {:induction false} UseBlockIds(texts: Prompts, calls: seq<Stream.Call>, results: seq<Stream.ToolResult>)
    ensures UseIdsOf(UseBlocks(calls, results)) == ResultIdsOf(ResultBlocks(texts, results))
    ensures ResultIdsOf(UseBlocks(calls, results)) == []
  {
    if results != [] {
      UseBlockIds(texts, calls, results[1..]);
      assert UseBlocks(calls, results)[1..] == UseBlocks(calls, results[1..]);
      assert ResultBlocks(texts, results)[1..] == ResultBlocks(texts, results[1..]);
    }
  }

  lemma {:induction false} UseIdsAppend(a: seq<Block>, b: seq<Block>)
    ensures UseIdsOf(a + b) == UseIdsOf(a) + UseIdsOf(b)
  {
    if a == [] {
      assert a + b == b;
    } else {
      UseIdsAppend(a[1..], b);
      assert (a + b)[1..] == a[1..] + b;
    }
  }

  lemma {:induction false} ResultIdsAppend(a: seq<Block>, b: seq<Block>)
    ensures ResultIdsOf(a + b) == ResultIdsOf(a) + ResultIdsOf(b)
  {
    if a == [] {
      assert a + b == b;
    } else {
      ResultIdsAppend(a[1..], b);
      assert (a + b)[1..] == a[1..] + b;
    }
  }

  lemma AssistantIds(texts: Prompts, text: string, calls: seq<Stream.Call>, results: seq<Stream.ToolResult>)
    ensures UseIds(AssistantMessage(text, calls, results)) == ResultIdsOf(ResultBlocks(texts, results))
    ensures ResultIds(AssistantMessage(text, calls, results)) == []
  {
    UseBlockIds(texts, calls, results);
    UseIdsAppend([TextBlock(TrimRight(text))], UseBlocks(calls, results));
  }

  lemma PairedPlain(c: Conversation, m: Message)
    requires Paired(c) && m.content.Plain?
    ensures Paired(c + [m])
  {
    LinkedAppend(c, m);
  }

  lemma {:induction false} PairedBehindUsers(c: Conversation, more: seq<string>)
    requires Paired(c)
    ensures Paired(Behind(c, more))
    decreases |more|
  {
    if more != [] {
      PairedPlain(c, UserText(more[0]));
      PairedBehindUsers(c + [UserText(more[0])], more[1..]);
      if more[1..] != [] {
        Assoc(c, [UserText(more[0])], UserTexts(more[1..]));
      } else {
        assert UserTexts(more) == [UserText(more[0])];
      }
    }
  }

  lemma {:induction false} BehindEndsInUser(c: Conversation, more: seq<string>)
    ensures EndsInAssistant(Behind(c, more)) <==> more == [] && EndsInAssistant(c)
    decreases |more|
  {
    if more != [] {
      BehindEndsInUser(c + [UserText(more[0])], more[1..]);
      if more[1..] != [] {
        Assoc(c, [UserText(more[0])], UserTexts(more[1..]));
      } else {
        assert UserTexts(more) == [UserText(more[0])];
      }
    }
  }

  lemma PairedAssemble(texts: Prompts, c: Conversation, t: Turn)
    requires Paired(c) && (t.results != [] ==> t.executed)
    ensures Paired(Assemble(texts, c, t))
  {
    var m := AssistantMessage(t.sanitized, t.calls, t.results);
    AssistantIds(texts, t.sanitized, t.calls, t.results);
    var answered := if Blank(t.text) && !t.executed then c else c + [m];
    LinkedAppend(c, m);
    if t.executed {
      LinkedAppend(answered, Message(User, Blocks(ResultBlocks(texts, t.results))));
      PairedBehindUsers(answered + [Message(User, Blocks(ResultBlocks(texts, t.results)))], t.deferred);
    } else {
      PairedBehindUsers(answered, t.deferred);
    }
  }

  lemma {:induction false} PairedBehind(c: Conversation, text: string, fbs: seq<string>)
    requires Paired(c)
    ensures Paired(AppendBehind(c, text, fbs))
    decreases |fbs|
  {
    if fbs != [] {
      var c' := WithAnswer(c, text);
      PairedPlain(c, AssistantText(text));
      PairedPlain(c', UserText(fbs[0]));
      PairedBehind(c' + [UserText(fbs[0])], text, fbs[1..]);
    }
  }

  lemma PairedNudged(nudge: string, c: Conversation)
    requires Paired(c)
    ensures Paired(Nudged(nudge, c))
  {
    if c != [] && c[|c| - 1].content.Blocks? {
      var front, last := c[..|c| - 1], c[|c| - 1];
      LinkedInit(c);
      UseIdsAppend(last.content.blocks, [TextBlock(nudge)]);
      ResultIdsAppend(last.content.blocks, [TextBlock(nudge)]);
      LinkedAppend(front, last.(content := Blocks(last.content.blocks + [TextBlock(nudge)])));
    }
  }

  lemma PairedAfterTools(texts: Prompts, st: LoopState, t: Turn, r: Round)
    requires Paired(st.conversation)
    ensures Paired(AfterTools(texts, st, t, r).0.conversation)
  {
    PairedPlain(st.conversation, UserText(texts.noMoreTools));
    var c := if t.emptyInARow >= 5 then st.conversation + [UserText(texts.noMoreTools)] else st.conversation;
    PairedBehind(c, FinalText(t), Spoken(Feedback.BeforeStop(r.after)));
  }

  lemma PairedAfterText(cfg: Config, st: LoopState, iteration: nat, t: Turn, r: Round)
    requires Paired(st.conversation)
    ensures Paired(AfterText(cfg, st, iteration, t, r).0.conversation)
  {
    PairedNudged(cfg.texts.nudge, st.conversation);
    PairedWithAnswer(st.conversation, FinalText(t));
  }

  lemma PairedFinish(cfg: Config, st: LoopState, iteration: nat, t: Turn, r: Round)
    requires Paired(st.conversation)
    ensures Paired(Finish(cfg, st, iteration, t, r).0.conversation)
  {
    if t.hallucinated {
      PairedPlain(st.conversation, UserText(cfg.texts.parroted));
      PairedPlain(st.conversation, UserText(cfg.texts.corrective));
      PairedPlain(st.conversation + [UserText(cfg.texts.corrective)], UserText(cfg.texts.reinforcement));
    } else if t.executed {
      PairedAfterTools(cfg.texts, st, t, r);
    } else {
      PairedAfterText(cfg, st, iteration, t, r);
    }
  }

  lemma PairedWithAnswer(c: Conversation, text: string)
    requires Paired(c)
    ensures var answered := if Blank(text) then c else c + [AssistantText(text)];
            forall said: string :: Paired(answered + [UserText(said)])
  {
    PairedPlain(c, AssistantText(text));
    var answered := if Blank(text) then c else c + [AssistantText(text)];
    forall said: string
      ensures Paired(answered + [UserText(said)])
    {
      PairedPlain(answered, UserText(said));
    }
  }

  lemma PairedAnswered(cfg: Config, st: LoopState, iteration: nat, r: Round)
    requires Paired(st.conversation) && Consistent(r)
    ensures Paired(Answered(cfg, st, iteration, r).0.conversation)
  {
    if r.response.Completed? {
      var t := r.response.turn;
      PairedAssemble(cfg.texts, st.conversation, t);
      PairedFinish(cfg, st.(conversation := Assemble(cfg.texts, st.conversation, t), emptyCallsInARow := t.emptyInARow),
                   iteration, t, r);
    }
  }

  lemma PairedIterate(cfg: Config, st: LoopState, r: Round)
    requires Paired(st.conversation) && Consistent(r)
    ensures var s := Iterate(cfg, st, r);
            Paired(s.state.conversation) && (s.request.Some? ==> Paired(s.request.value))
  {
    var spoken := Spoken(Feedback.BeforeStop(Heeded(cfg, st, r)));
    PairedBehindUsers(st.conversation, spoken);
    PairedPlain(Behind(st.conversation, spoken), UserText(cfg.texts.reminder));
    IterateIs(cfg, st, r);
    PairedAnswered(cfg, Sending(cfg, st, r), st.iteration, r);
  }

  /** Pairing: from a paired history, every request of every run is paired,
      whatever executions, rejections, skips, retries and feedback came before. */
  lemma {:induction false} PairedRun(cfg: Config, st: LoopState, rounds: seq<Round>)
    requires Paired(st.conversation) && forall r :: r in rounds ==> Consistent(r)
    ensures forall s :: s in Run(cfg, st, rounds) ==>
              Paired(s.state.conversation) && (s.request.Some? ==> Paired(s.request.value))
    decreases |rounds|
  {
    if rounds != [] && st.iteration < cfg.maxIterations {
      PairedIterate(cfg, st, rounds[0]);
      PairedRun(cfg, Iterate(cfg, st, rounds[0]).state, rounds[1..]);
    }
  }

  lemma {:induction false} ResultBlockAt(texts: Prompts, results: seq<Stream.ToolResult>, k: nat)
    requires k < |results|
    ensures |ResultBlocks(texts, results)| == |results|
    ensures ResultBlocks(texts, results)[k] == ToolResult(results[k].id, Compact(texts, results[k].result))
    decreases |results|
  {
    if |results| > 1 {
      ResultBlockAt(texts, results[1..], if k == 0 then 0 else k - 1);
    } else {
      assert results[1..] == [];
    }
  }

  predicate NoPrompt(line: string) {
    !("$ " <= line)
  }

  lemma {:induction false} WithoutPromptsSnoc(lines: seq<string>, l: string)
    ensures WithoutPrompts(lines + [l]) == WithoutPrompts(lines) + if NoPrompt(l) then [l] else []
  {
    if lines == [] {
      assert [l][1..] == [];
      Nil([l]);
    } else {
      assert (lines + [l])[1..] == lines[1..] + [l];
      WithoutPromptsSnoc(lines[1..], l);
    }
  }

  lemma {:induction false} WithoutPromptsIs(lines: seq<string>)
    ensures WithoutPrompts(lines) == Chosen(lines, NoPrompt)
  {
    if lines != [] {
      var front, l := lines[..|lines| - 1], lines[|lines| - 1];
      assert front + [l] == lines;
      WithoutPromptsIs(front);
      WithoutPromptsSnoc(front, l);
      ChosenSnoc(front, l, NoPrompt);
    }
  }

  /** History keeps a text as it is, or, if it shows a shell prompt, its lines
      without those that begin with one, trimmed. */
  ghost predicate KeepsOf(text: string, kept: string) {
    if exists i: nat :: At(text, "$ ", i) then kept == Strip(Join(Chosen(Lines(text), NoPrompt))) else kept == text
  }

  /** What history keeps of a result. */
  ghost predicate ResultGoes(texts: Prompts, r: Stream.ToolResult, b: Block) {
    && b.ToolResult? && b.toolUseId == r.id
    && match r.result
       case Rejected(_) => KeepsOf(texts.rejected, b.output)
       case Output(TextOutput(s)) => KeepsOf(s, b.output)
       case Output(ImageOutput(ts)) =>
         KeepsOf(if JoinWith(ts) == "" then texts.imageDelivered else JoinWith(ts), b.output)
  }

  lemma CompactKeeps(texts: Prompts, r: Stream.ToolResult)
    ensures ResultGoes(texts, r, ToolResult(r.id, Compact(texts, r.result)))
  {
    var text := match r.result
      case Rejected(_) => texts.rejected
      case Output(TextOutput(s)) => s
      case Output(ImageOutput(ts)) => if JoinWith(ts) == "" then texts.imageDelivered else JoinWith(ts);
    FindSpec(text, "$ ", 0);
    WithoutPromptsIs(Lines(text));
  }

  /** The name goes without its prefix. */
  predicate NameGoes(name: string, shown: string) {
    if "mcp_" <= name then "mcp_" + shown == name else shown == name
  }

  /** The arguments of the first call with this id, or an empty object. */
  ghost predicate InputGoes(calls: seq<Stream.Call>, id: string, input: string) {
    && (forall i :: 0 <= i < |calls| && calls[i].id == id && (forall j :: 0 <= j < i ==> calls[j].id != id) ==>
          input == if calls[i].args != "" then calls[i].args else "{}")
    && ((forall i :: 0 <= i < |calls| ==> calls[i].id != id) ==> input == "{}")
  }

  lemma {:induction false} ArgsForIs(calls: seq<Stream.Call>, id: string)
    ensures match Stream.ArgsFor(calls, id)
            case None => forall i :: 0 <= i < |calls| ==> calls[i].id != id
            case Some(args) =>
              exists i :: 0 <= i < |calls| && calls[i].id == id && calls[i].args == args
                          && forall j :: 0 <= j < i ==> calls[j].id != id
  {
    if calls != [] && calls[0].id != id {
      ArgsForIs(calls[1..], id);
      assert forall i :: 1 <= i < |calls| ==> calls[i] == calls[1..][i - 1];
      if Stream.ArgsFor(calls, id).Some? {
        var i :| 0 <= i < |calls[1..]| && calls[1..][i].id == id
                 && calls[1..][i].args == Stream.ArgsFor(calls, id).value
                 && forall j :: 0 <= j < i ==> calls[1..][j].id != id;
        assert calls[i + 1].id == id;
      }
    }
  }

  lemma {:induction false} UseBlockAt(calls: seq<Stream.Call>, results: seq<Stream.ToolResult>, k: nat)
    requires k < |results|
    ensures |UseBlocks(calls, results)| == |results|
    ensures var b := UseBlocks(calls, results)[k];
            && b.ToolUse? && b.id == results[k].id && NameGoes(results[k].name, b.name)
            && InputGoes(calls, results[k].id, b.input)
    decreases |results|
  {
    if |results| > 1 {
      UseBlockAt(calls, results[1..], if k == 0 then 0 else k - 1);
    } else {
      assert results[1..] == [];
    }
    if k == 0 {
      ArgsForIs(calls, results[0].id);
    }
  }

  /** A response that ran tools goes on record right behind the request: the
      answer with every call, then the user turn with what history keeps of every
      result, then deferred feedback. */
  lemma ResponseIsRecorded(texts: Prompts, c: Conversation, t: Turn, k: nat)
    requires t.executed && k < |t.results|
    ensures var r := Assemble(texts, c, t);
            && |r| == |c| + 2 + |t.deferred| && r[..|c|] == c
            && r[|c|].role.Assistant? && r[|c| + 1].role.User?
            && (forall i :: 0 <= i < |t.deferred| ==> r[|c| + 2 + i] == UserText(t.deferred[i]))
            && ResponseBlocks(texts, t, r[|c|].content, r[|c| + 1].content, k)
  {
    UserTextsLength(t.deferred);
    BlocksGo(texts, t, k);
  }

  lemma BlocksGo(texts: Prompts, t: Turn, k: nat)
    requires k < |t.results|
    ensures ResponseBlocks(texts, t, AssistantMessage(t.sanitized, t.calls, t.results).content,
                           Blocks(ResultBlocks(texts, t.results)), k)
  {
    var uses := UseBlocks(t.calls, t.results);
    CallBlockGoes(t, k);
    BehindText([TextBlock(TrimRight(t.sanitized))], uses, k);
    ResultBlockGoes(texts, t.results, k);
  }

  lemma CallBlockGoes(t: Turn, k: nat)
    requires k < |t.results|
    ensures |UseBlocks(t.calls, t.results)| == |t.results| && CallGoes(t, UseBlocks(t.calls, t.results)[k], k)
  {
    UseBlockAt(t.calls, t.results, k);
  }

  lemma ResultBlockGoes(texts: Prompts, results: seq<Stream.ToolResult>, k: nat)
    requires k < |results|
    ensures |ResultBlocks(texts, results)| == |results|
    ensures ResultGoes(texts, results[k], ResultBlocks(texts, results)[k])
  {
    ResultBlockAt(texts, results, k);
    CompactKeeps(texts, results[k]);
  }

  lemma BehindText(text: seq<Block>, uses: seq<Block>, k: nat)
    requires k < |uses| && |text| == 1
    ensures (text + uses)[0] == text[0] && (text + uses)[1 + k] == uses[k] && |text + uses| == 1 + |uses|
  {
  }

  /** Answer and results, the call and the result numbered `k` in particular. */
  ghost predicate ResponseBlocks(texts: Prompts, t: Turn, answer: Content, results: Content, k: nat)
    requires k < |t.results|
  {
    var first := if Blank(t.sanitized) then 0 else 1;
    && answer.Blocks? && |answer.blocks| == first + |t.results|
    && (first == 1 ==> answer.blocks[0] == TextBlock(TrimRight(t.sanitized)))
    && CallGoes(t, answer.blocks[first + k], k)
    && results.Blocks? && |results.blocks| == |t.results| && ResultGoes(texts, t.results[k], results.blocks[k])
  }

  ghost predicate CallGoes(t: Turn, b: Block, k: nat)
    requires k < |t.results|
  {
    && b.ToolUse? && b.id == t.results[k].id
    && NameGoes(t.results[k].name, b.name) && InputGoes(t.calls, b.id, b.input)
  }

  lemma {:induction false} UserTextsLength(texts: seq<string>)
    ensures |UserTexts(texts)| == |texts|
    ensures forall i :: 0 <= i < |texts| ==> UserTexts(texts)[i] == UserText(texts[i])
  {
    if texts != [] {
      UserTextsLength(texts[1..]);
    }
  }

  // ---- history is kept -----------------------------------------------------

  /** The same message, possibly with further blocks at the end. */
  predicate Extended(m: Message, m': Message) {
    m == m' ||
    (m.role == m'.role && m.content.Blocks? && m'.content.Blocks? && m.content.blocks <= m'.content.blocks)
  }

  /** `c'` goes on from `c`: no message is changed, dropped or moved, except
      that the last one may have got further blocks. */
  ghost predicate Kept(c: Conversation, c': Conversation) {
    && |c| <= |c'|
    && (forall i :: 0 <= i < |c| - 1 ==> c'[i] == c[i])
    && (c != [] ==> Extended(c[|c| - 1], c'[|c| - 1]))
  }

  lemma KeptTwice(a: Conversation, b: Conversation, c: Conversation)
    requires Kept(a, b) && Kept(b, c)
    ensures Kept(a, c)
  {
    if a != [] {
      var n := |a| - 1;
      assert n < |b| - 1 ==> c[n] == b[n];
    }
  }

  lemma PrefixIsKept(c: Conversation, c': Conversation)
    requires c <= c'
    ensures Kept(c, c')
  {
    assert forall i :: 0 <= i < |c| ==> c'[i] == c[i];
  }

  lemma BehindExtends(c: Conversation, more: seq<string>)
    ensures c <= Behind(c, more)
  {
  }

  lemma AssembleExtends(texts: Prompts, c: Conversation, t: Turn)
    ensures c <= Assemble(texts, c, t)
  {
    var answered := if Blank(t.text) && !t.executed then c else c + [AssistantMessage(t.sanitized, t.calls, t.results)];
    var resulted := if t.executed then answered + [Message(User, Blocks(ResultBlocks(texts, t.results)))] else answered;
    BehindExtends(resulted, t.deferred);
  }

  lemma {:induction false} AppendBehindExtends(c: Conversation, text: string, fbs: seq<string>)
    ensures c <= AppendBehind(c, text, fbs)
    decreases |fbs|
  {
    if fbs != [] {
      AppendBehindExtends(WithAnswer(c, text) + [UserText(fbs[0])], text, fbs[1..]);
    }
  }

  lemma NudgedKeeps(nudge: string, c: Conversation)
    ensures Kept(c, Nudged(nudge, c))
  {
  }

  lemma AfterTextKeeps(cfg: Config, st: LoopState, iteration: nat, t: Turn, r: Round)
    ensures Kept(st.conversation, AfterText(cfg, st, iteration, t, r).0.conversation)
  {
    var c, c' := st.conversation, AfterText(cfg, st, iteration, t, r).0.conversation;
    NudgedKeeps(cfg.texts.nudge, c);
    assert c' == Nudged(cfg.texts.nudge, c) || c <= c';
    if c <= c' {
      PrefixIsKept(c, c');
    }
  }

  lemma FinishKeeps(cfg: Config, st: LoopState, iteration: nat, t: Turn, r: Round)
    ensures Kept(st.conversation, Finish(cfg, st, iteration, t, r).0.conversation)
  {
    var c, c' := st.conversation, Finish(cfg, st, iteration, t, r).0.conversation;
    if t.hallucinated {
      PrefixIsKept(c, c');
    } else if t.executed {
      var c1 := if t.emptyInARow >= 5 then c + [UserText(cfg.texts.noMoreTools)] else c;
      AppendBehindExtends(c1, FinalText(t), Spoken(Feedback.BeforeStop(r.after)));
      PrefixIsKept(c, c');
    } else {
      AfterTextKeeps(cfg, st, iteration, t, r);
    }
  }

  lemma AnsweredKeeps(cfg: Config, st: LoopState, iteration: nat, r: Round)
    ensures Kept(st.conversation, Answered(cfg, st, iteration, r).0.conversation)
  {
    match r.response
    case Returned => PrefixIsKept(st.conversation, st.conversation);
    case Raised(_, _) => PrefixIsKept(st.conversation, st.conversation);
    case Completed(t) =>
      var assembled := Assemble(cfg.texts, st.conversation, t);
      AssembleExtends(cfg.texts, st.conversation, t);
      PrefixIsKept(st.conversation, assembled);
      FinishKeeps(cfg, st.(conversation := assembled, emptyCallsInARow := t.emptyInARow), iteration, t, r);
      KeptTwice(st.conversation, assembled, Answered(cfg, st, iteration, r).0.conversation);
  }

  /** An iteration sends its conversation with at most more messages behind it,
      and leaves it so, but for a nudge inside the last message. */
  lemma IterateKeeps(cfg: Config, st: LoopState, r: Round)
    ensures var s := Iterate(cfg, st, r);
            && Kept(st.conversation, s.state.conversation)
            && (s.request.Some? ==> st.conversation <= s.request.value)
  {
    var sending := Sending(cfg, st, r);
    BehindExtends(st.conversation, Spoken(Feedback.BeforeStop(Heeded(cfg, st, r))));
    PrefixIsKept(st.conversation, st.conversation);
    PrefixIsKept(st.conversation, sending.conversation);
    IterateIs(cfg, st, r);
    AnsweredKeeps(cfg, sending, st.iteration, r);
    KeptTwice(st.conversation, sending.conversation, Answered(cfg, sending, st.iteration, r).0.conversation);
  }

  /** Over whole runs no turn already in the conversation is ever changed,
      dropped or moved, but for blocks added behind those of the last one. */
  lemma {:induction false} KeptRun(cfg: Config, st: LoopState, rounds: seq<Round>)
    ensures forall s :: s in Run(cfg, st, rounds) ==>
              && Kept(st.conversation, s.state.conversation)
              && (s.request.Some? ==> Kept(st.conversation, s.request.value))
    decreases |rounds|
  {
    if rounds != [] && st.iteration < cfg.maxIterations {
      var first := Iterate(cfg, st, rounds[0]);
      IterateKeeps(cfg, st, rounds[0]);
      if first.request.Some? {
        PrefixIsKept(st.conversation, first.request.value);
      }
      if first.outcome.On? {
        KeptRun(cfg, first.state, rounds[1..]);
        forall s | s in Run(cfg, first.state, rounds[1..])
          ensures Kept(st.conversation, s.state.conversation)
          ensures s.request.Some? ==> Kept(st.conversation, s.request.value)
        {
          KeptTwice(st.conversation, first.state.conversation, s.state.conversation);
          if s.request.Some? {
            KeptTwice(st.conversation, first.state.conversation, s.request.value);
          }
        }
      }
    }
  }

  // ---- runs of models without prefill -------------------------------------

  /** Sanitising turned an answer that showed something into nothing, and no tool ran. */
  predicate BlankedAnswer(r: Round) {
    r.response.Completed? &&
    var t := r.response.turn;
    !t.executed && !Blank(t.text) && Blank(t.sanitized)
  }

  /** Nobody said anything that would put a user turn behind the answer. */
  predicate Silent(r: Round) {
    Directives(r.after) == [] && Directives(r.later) == []
  }

  lemma {:induction false} AppendBehindEndsInUser(c: Conversation, text: string, fbs: seq<string>)
    requires !EndsInAssistant(c)
    ensures !EndsInAssistant(AppendBehind(c, text, fbs))
    decreases |fbs|
  {
    if fbs != [] {
      AppendBehindEndsInUser(WithAnswer(c, text) + [UserText(fbs[0])], text, fbs[1..]);
    }
  }

  lemma AfterTextEnds(cfg: Config, st: LoopState, iteration: nat, t: Turn, r: Round)
    requires !cfg.supportsPrefill && !t.executed
    requires Blank(FinalText(t)) || EndsInAssistant(st.conversation)
    requires AfterText(cfg, st, iteration, t, r).1.On?
    ensures EndsInAssistant(AfterText(cfg, st, iteration, t, r).0.conversation) <==>
            EndsInAssistant(st.conversation) && Blank(FinalText(t)) && Silent(r)
  {
    var q := QueryFor(cfg, st, iteration, t);
    assert !q.text.blank ==> Decider.NonPrefillGate(q);
  }

  lemma AssembleEnds(texts: Prompts, c: Conversation, t: Turn)
    requires !EndsInAssistant(c) && (t.deferred != [] ==> t.executed)
    ensures EndsInAssistant(Assemble(texts, c, t)) <==> !t.executed && !Blank(t.text)
  {
    var answered := if Blank(t.text) && !t.executed then c else c + [AssistantMessage(t.sanitized, t.calls, t.results)];
    if t.executed {
      BehindEndsInUser(answered + [Message(User, Blocks(ResultBlocks(texts, t.results)))], t.deferred);
    } else {
      BehindEndsInUser(answered, t.deferred);
    }
  }

  lemma FinishEnds(cfg: Config, st: LoopState, iteration: nat, t: Turn, r: Round, sent: Conversation)
    requires !cfg.supportsPrefill && !EndsInAssistant(sent) && st.conversation == Assemble(cfg.texts, sent, t)
    requires t.deferred != [] ==> t.executed
    requires Finish(cfg, st, iteration, t, r).1.On?
    ensures EndsInAssistant(Finish(cfg, st, iteration, t, r).0.conversation) <==>
            !t.executed && !Blank(t.text) && Blank(t.sanitized) && !t.hallucinated && Silent(r)
  {
    AssembleEnds(cfg.texts, sent, t);
    if t.hallucinated {
    } else if t.executed {
      var c := if t.emptyInARow >= 5 then st.conversation + [UserText(cfg.texts.noMoreTools)] else st.conversation;
      AppendBehindEndsInUser(c, FinalText(t), Spoken(Feedback.BeforeStop(r.after)));
    } else {
      AfterTextEnds(cfg, st, iteration, t, r);
    }
  }

  lemma OnlyTheGuardGuards(cfg: Config, st: LoopState, iteration: nat, r: Round)
    ensures Answered(cfg, st, iteration, r).1 != Over(PrefillGuard)
  {
  }

  /** What an iteration has put into the conversation before the provider is called. */
  lemma RequestEnds(cfg: Config, st: LoopState, r: Round)
    requires !EndsInAssistant(st.conversation)
    ensures Iterate(cfg, st, r).outcome != Over(PrefillGuard)
    ensures Iterate(cfg, st, r).request.Some? ==> !EndsInAssistant(Iterate(cfg, st, r).request.value)
  {
    BehindEndsInUser(st.conversation, Spoken(Feedback.BeforeStop(Heeded(cfg, st, r))));
    OnlyTheGuardGuards(cfg, Sending(cfg, st, r), st.iteration, r);
  }

  /** For a model without prefill, an iteration that goes on leaves a
      conversation ending in an assistant turn exactly when sanitising blanked
      its answer, no correction was due and the user was silent. */
  lemma AssistantLastIff(cfg: Config, st: LoopState, r: Round)
    requires !cfg.supportsPrefill && Consistent(r) && !EndsInAssistant(st.conversation)
    requires Iterate(cfg, st, r).outcome.On?
    ensures EndsInAssistant(Iterate(cfg, st, r).state.conversation) <==>
            BlankedAnswer(r) && !r.response.turn.hallucinated && Silent(r)
  {
    RequestEnds(cfg, st, r);
    IterateIs(cfg, st, r);
    var sending := Sending(cfg, st, r);
    if r.response.Completed? {
      var t := r.response.turn;
      var assembled := Assemble(cfg.texts, sending.conversation, t);
      FinishEnds(cfg, sending.(conversation := assembled, emptyCallsInARow := t.emptyInARow), st.iteration, t, r,
                 sending.conversation);
    }
  }

  /** If the initial conversation ends with a user turn and sanitising blanks
      no answer, no iteration of any run of a model without prefill starts
      with an assistant turn at the end, so the prefill guard never fires. */
  lemma {:induction false} NoPrefillRun(cfg: Config, st: LoopState, rounds: seq<Round>)
    requires !cfg.supportsPrefill && !EndsInAssistant(st.conversation)
    requires forall r :: r in rounds ==> Consistent(r) && !BlankedAnswer(r)
    ensures forall s :: s in Run(cfg, st, rounds) ==>
              && s.outcome != Over(PrefillGuard)
              && (s.outcome.On? ==> !EndsInAssistant(s.state.conversation))
              && (s.request.Some? ==> !EndsInAssistant(s.request.value))
    decreases |rounds|
  {
    if rounds != [] && st.iteration < cfg.maxIterations {
      var s := Iterate(cfg, st, rounds[0]);
      RequestEnds(cfg, st, rounds[0]);
      if s.outcome.On? {
        AssistantLastIff(cfg, st, rounds[0]);
        NoPrefillRun(cfg, s.state, rounds[1..]);
      }
    }
  }

  /** Otherwise the guard ends the run at the next iteration, with the answer lost. */
  lemma BlankedAnswerEndsRun(cfg: Config, st: LoopState, r: Round, next: Round)
    requires !cfg.supportsPrefill && Consistent(r) && !EndsInAssistant(st.conversation)
    requires Iterate(cfg, st, r).outcome.On?
    requires BlankedAnswer(r) && !r.response.turn.hallucinated && Silent(r)
    requires !next.cancelled && next.before == []
    ensures Iterate(cfg, Iterate(cfg, st, r).state, next).outcome == Over(PrefillGuard)
  {
    AssistantLastIff(cfg, st, r);
    var c := Iterate(cfg, st, r).state.conversation;
    assert Iterate(cfg, st, r).state.iteration > 0;
  }

  // ---- continuation budgets -----------------------------------------------

  function Count(steps: seq<Step>, how: set<Went>): nat {
    if steps == [] then 0
    else (if steps[0].outcome.On? && steps[0].outcome.how in how then 1 else 0) + Count(steps[1..], how)
  }

  /** `st'` is `st` after an iteration with this outcome, as far as the four
      run-wide budgets go. */
  ghost predicate Spends(st: LoopState, st': LoopState, outcome: Outcome) {
    && st'.graceUsed == st.graceUsed + (if outcome == On(NudgeContinue) || outcome == On(GraceContinue) then 1 else 0)
    && st'.emptyRetries == st.emptyRetries + (if outcome.On? && outcome.how.EmptyRetry? then 1 else 0)
    && st'.hallucinations >= st.hallucinations + (if outcome.On? && outcome.how.HallucinationRetry? then 1 else 0)
    && st'.errors >= st.errors + (if outcome.On? && outcome.how.ErrorRetry? then 1 else 0)
    && (outcome.On? && (outcome.how.NudgeContinue? || outcome.how.GraceContinue?) ==> st'.graceUsed <= 3)
    && (outcome.On? && outcome.how.EmptyRetry? ==> st'.emptyRetries <= 2)
    && (outcome.On? && outcome.how.HallucinationRetry? ==> st'.hallucinations <= 2)
    && (outcome.On? && outcome.how.ErrorRetry? ==> st'.errors <= Backoff.MAX_RETRIES)
  }

  lemma SpendsAfterText(cfg: Config, st: LoopState, iteration: nat, t: Turn, r: Round)
    ensures var (st', outcome) := AfterText(cfg, st, iteration, t, r); Spends(st, st', outcome)
  {
    var q := QueryFor(cfg, st, iteration, t);
    assert Decider.Decide(q).SpendTextonly? || Decider.Decide(q).Nudge? ==> q.graceUsed < 3;
  }

  lemma SpendsFinish(cfg: Config, st: LoopState, iteration: nat, t: Turn, r: Round)
    ensures var (st', outcome) := Finish(cfg, st, iteration, t, r); Spends(st, st', outcome)
  {
    if !t.hallucinated && !t.executed {
      SpendsAfterText(cfg, st, iteration, t, r);
    }
  }

  lemma SpendsAnswered(cfg: Config, st: LoopState, iteration: nat, r: Round)
    ensures var (st', outcome) := Answered(cfg, st, iteration, r); Spends(st, st', outcome)
  {
    if r.response.Completed? {
      var t := r.response.turn;
      SpendsFinish(cfg, st.(conversation := Assemble(cfg.texts, st.conversation, t), emptyCallsInARow := t.emptyInARow),
                   iteration, t, r);
    }
  }

  lemma SpendsIterate(cfg: Config, st: LoopState, r: Round)
    ensures Spends(st, Iterate(cfg, st, r).state, Iterate(cfg, st, r).outcome)
  {
    IterateIs(cfg, st, r);
    SpendsAnswered(cfg, Sending(cfg, st, r), st.iteration, r);
  }

  function Left(cap: nat, used: nat): nat {
    if used < cap then cap - used else 0
  }

  /** Over any run: at most 3 nudges and text-only graces together, 2 retries
      of empty completions, 2 hallucination retries that go on, and 5 error
      retries; less whatever was spent before. */
  lemma {:induction false} BudgetsOfRun(cfg: Config, st: LoopState, rounds: seq<Round>)
    ensures var steps := Run(cfg, st, rounds);
      && Count(steps, {NudgeContinue, GraceContinue}) <= Left(3, st.graceUsed)
      && Count(steps, {EmptyRetry}) <= Left(2, st.emptyRetries)
      && Count(steps, {HallucinationRetry}) <= Left(2, st.hallucinations)
      && Count(steps, {ErrorRetry}) <= Left(Backoff.MAX_RETRIES, st.errors)
    decreases |rounds|
  {
    if rounds != [] && st.iteration < cfg.maxIterations {
      var s := Iterate(cfg, st, rounds[0]);
      SpendsIterate(cfg, st, rounds[0]);
      if s.outcome.On? {
        BudgetsOfRun(cfg, s.state, rounds[1..]);
        assert Run(cfg, st, rounds)[1..] == Run(cfg, s.state, rounds[1..]);
      } else {
        assert Run(cfg, st, rounds) == [s];
      }
    }
  }

  /** What one iteration does to the two stall counters. */
  ghost predicate Stalls(st: LoopState, st': LoopState, outcome: Outcome) {
    && (outcome == On(IntentContinue) ==>
          && st.intentStalls < Decider.INTENT_CONTINUE_STALL_CAP && !st'.toolsSinceIntent
          && st'.intentStalls == if st.toolsSinceIntent then 0 else st.intentStalls + 1)
    && (outcome.On? && outcome != On(IntentContinue) ==>
          && st'.intentStalls == st.intentStalls
          && st'.toolsSinceIntent == (st.toolsSinceIntent || outcome == On(ToolsRan)))
    && (outcome == On(BlockStall) ==>
          st.blockStalls < Decider.BLOCK_CONTINUE_STALL_CAP && st'.blockStalls == st.blockStalls + 1)
    && (outcome == On(BlockProgress) ==> st.blockStalls < Decider.BLOCK_CONTINUE_STALL_CAP)
    && (outcome.On? && outcome != On(BlockStall) && outcome != On(BlockProgress) ==> st'.blockStalls == st.blockStalls)
  }

  lemma StallsFinish(cfg: Config, st: LoopState, iteration: nat, t: Turn, r: Round)
    ensures var (st', outcome) := Finish(cfg, st, iteration, t, r); Stalls(st, st', outcome)
  {
    if !t.hallucinated && !t.executed {
      var q := QueryFor(cfg, st, iteration, t);
      assert Decider.Decide(q).InjectIntent? || Decider.Decide(q).BlockContinue? ==> !q.text.blank;
    }
  }

  lemma StallsAnswered(cfg: Config, st: LoopState, iteration: nat, r: Round)
    ensures var (st', outcome) := Answered(cfg, st, iteration, r); Stalls(st, st', outcome)
  {
    if r.response.Completed? {
      var t := r.response.turn;
      StallsFinish(cfg, st.(conversation := Assemble(cfg.texts, st.conversation, t), emptyCallsInARow := t.emptyInARow),
                   iteration, t, r);
    }
  }

  lemma StallsIterate(cfg: Config, st: LoopState, r: Round)
    ensures Stalls(st, Iterate(cfg, st, r).state, Iterate(cfg, st, r).outcome)
  {
    IterateIs(cfg, st, r);
    StallsAnswered(cfg, Sending(cfg, st, r), st.iteration, r);
  }

  /** How many intent continuations are still possible before a tool runs. */
  function IntentsLeft(st: LoopState): nat {
    if st.intentStalls >= Decider.INTENT_CONTINUE_STALL_CAP then 0
    else if st.toolsSinceIntent then Decider.INTENT_CONTINUE_STALL_CAP + 1
    else Decider.INTENT_CONTINUE_STALL_CAP - st.intentStalls
  }

  /** In any stretch of a run without a tool iteration there are at most 4
      intent continuations, and none at all once the stall counter is at its cap. */
  lemma {:induction false} IntentsBetweenTools(cfg: Config, st: LoopState, rounds: seq<Round>)
    requires forall s :: s in Run(cfg, st, rounds) ==> s.outcome != On(ToolsRan)
    ensures Count(Run(cfg, st, rounds), {IntentContinue}) <= IntentsLeft(st) <= 4
    decreases |rounds|
  {
    if rounds != [] && st.iteration < cfg.maxIterations {
      var s := Iterate(cfg, st, rounds[0]);
      StallsIterate(cfg, st, rounds[0]);
      assert Run(cfg, st, rounds)[0] == s;
      if s.outcome.On? {
        assert Run(cfg, st, rounds)[1..] == Run(cfg, s.state, rounds[1..]);
        IntentsBetweenTools(cfg, s.state, rounds[1..]);
      } else {
        assert Run(cfg, st, rounds)[1..] == [];
      }
    }
  }

  /** Once the intent counter has reached its cap no run ever continues on
      intent again, however many tools run: the decider looks at the counter
      before the caller resets it. */
  lemma {:induction false} IntentCapIsFinal(cfg: Config, st: LoopState, rounds: seq<Round>)
    requires st.intentStalls >= Decider.INTENT_CONTINUE_STALL_CAP
    ensures forall s :: s in Run(cfg, st, rounds) ==> s.outcome != On(IntentContinue)
    decreases |rounds|
  {
    if rounds != [] && st.iteration < cfg.maxIterations {
      var s := Iterate(cfg, st, rounds[0]);
      StallsIterate(cfg, st, rounds[0]);
      if s.outcome.On? {
        IntentCapIsFinal(cfg, s.state, rounds[1..]);
      }
    }
  }

  /** Between any two intent continuations of `steps` a tool iteration occurs;
      `ready` says that one may come first. */
  predicate Spaced(steps: seq<Step>, ready: bool) {
    steps == [] ||
    if steps[0].outcome == On(IntentContinue) then ready && Spaced(steps[1..], false)
    else Spaced(steps[1..], ready || steps[0].outcome == On(ToolsRan))
  }

  /** Such a run keeps the stall counter at most 1, hence below its cap. */
  lemma {:induction false} SpacedRunNeverStalls(cfg: Config, st: LoopState, rounds: seq<Round>, ready: bool)
    requires Spaced(Run(cfg, st, rounds), ready)
    requires st.intentStalls <= 1 && (ready ==> st.toolsSinceIntent || st.intentStalls == 0)
    ensures forall s :: s in Run(cfg, st, rounds) && s.outcome.On? ==> s.state.intentStalls <= 1
    decreases |rounds|
  {
    if rounds != [] && st.iteration < cfg.maxIterations {
      var s := Iterate(cfg, st, rounds[0]);
      StallsIterate(cfg, st, rounds[0]);
      assert Run(cfg, st, rounds)[0] == s;
      if s.outcome.On? {
        assert Run(cfg, st, rounds)[1..] == Run(cfg, s.state, rounds[1..]);
        SpacedRunNeverStalls(cfg, s.state, rounds[1..],
          s.outcome != On(IntentContinue) && (ready || s.outcome == On(ToolsRan)));
      }
    }
  }

  /** In any stretch of a run without block continuations that make progress
      there are at most 5 block continuations. */
  lemma {:induction false} BlockStallsInARow(cfg: Config, st: LoopState, rounds: seq<Round>)
    requires forall s :: s in Run(cfg, st, rounds) ==> s.outcome != On(BlockProgress)
    ensures Count(Run(cfg, st, rounds), {BlockStall}) <= Left(Decider.BLOCK_CONTINUE_STALL_CAP, st.blockStalls)
    decreases |rounds|
  {
    if rounds != [] && st.iteration < cfg.maxIterations {
      var s := Iterate(cfg, st, rounds[0]);
      StallsIterate(cfg, st, rounds[0]);
      assert Run(cfg, st, rounds)[0] == s;
      if s.outcome.On? {
        assert Run(cfg, st, rounds)[1..] == Run(cfg, s.state, rounds[1..]);
        BlockStallsInARow(cfg, s.state, rounds[1..]);
      } else {
        assert Run(cfg, st, rounds)[1..] == [];
      }
    }
  }

  lemma IterationsCount(cfg: Config, st: LoopState, r: Round)
    ensures var s := Iterate(cfg, st, r);
            s.state.iteration == if s.request.Some? then st.iteration + 1 else st.iteration
  {
  }
}
