/** What decides an iteration's outcome, read off the steps of the run so far: the loop's counters are functions of
    these steps. */
module LoopHistory {
  import opened Strings
  import opened Messages
  import opened ToolLoop
  import Decider = OutcomeDecider
  import Feedback

  // ---- who ends a run -------------------------------------------------------------

  /** The response of this round ran no tool. */
  predicate NoTools(r: Round) {
    r.response.Completed? && !r.response.turn.hallucinated && !r.response.turn.executed
  }

  predicate RanTools(r: Round) {
    r.response.Completed? && !r.response.turn.hallucinated && r.response.turn.executed
  }

  lemma OnlyToolsHeedStops(cfg: Config, st: LoopState, iteration: nat, r: Round)
    ensures Answered(cfg, st, iteration, r).1 == Over(UserStop) <==> RanTools(r) && Feedback.AnyStops(r.after)
  {
  }

  /** When exactly the user's feedback between responses ends a run: a stop that
      is drained at the start of the iteration, or after a response that ran tools. */
  lemma UserStopIff(cfg: Config, st: LoopState, r: Round)
    ensures var s := Iterate(cfg, st, r);
            s.outcome == Over(UserStop) <==>
            !r.cancelled && (Feedback.AnyStops(Heeded(cfg, st, r))
                             || (s.request.Some? && RanTools(r) && Feedback.AnyStops(r.after)))
  {
    IterateIs(cfg, st, r);
    OnlyToolsHeedStops(cfg, Sending(cfg, st, r), st.iteration, r);
  }

  function IsDirective(): Feedback.Item -> bool {
    (fb: Feedback.Item) => fb.Directive?
  }

  lemma {:induction false} DirectivesSnoc(fbs: seq<Feedback.Item>, fb: Feedback.Item)
    ensures Directives(fbs + [fb]) == Directives(fbs) + if fb.Directive? then [fb.message] else []
  {
    if fbs == [] {
      Nil([fb]);
      assert [fb][1..] == [];
    } else {
      assert (fbs + [fb])[1..] == fbs[1..] + [fb];
      DirectivesSnoc(fbs[1..], fb);
    }
  }

  lemma {:induction false} DirectivesOnly(fbs: seq<Feedback.Item>)
    ensures Directives(Chosen(fbs, IsDirective())) == Directives(fbs)
  {
    if fbs != [] {
      var front, fb := fbs[..|fbs| - 1], fbs[|fbs| - 1];
      assert front + [fb] == fbs;
      DirectivesOnly(front);
      DirectivesSnoc(front, fb);
      ChosenSnoc(front, fb, IsDirective());
      if fb.Directive? {
        DirectivesSnoc(Chosen(front, IsDirective()), fb);
      } else {
        Nil(Chosen(front, IsDirective()));
        Nil(Directives(front));
      }
    }
  }

  function WithoutInterrupts(r: Round): Round {
    r.(after := Chosen(r.after, IsDirective()), later := Chosen(r.later, IsDirective()))
  }

  lemma AfterTextDrops(cfg: Config, st: LoopState, iteration: nat, t: Turn, r: Round)
    ensures AfterText(cfg, st, iteration, t, r) == AfterText(cfg, st, iteration, t, WithoutInterrupts(r))
  {
    DirectivesOnly(r.after);
    DirectivesOnly(r.later);
  }

  lemma AnsweredDrops(cfg: Config, st: LoopState, iteration: nat, r: Round)
    requires NoTools(r)
    ensures Answered(cfg, st, iteration, r) == Answered(cfg, st, iteration, WithoutInterrupts(r))
  {
    var t := r.response.turn;
    AfterTextDrops(cfg, st.(conversation := Assemble(cfg.texts, st.conversation, t), emptyCallsInARow := t.emptyInARow),
                   iteration, t, r);
  }

  /** After a response that ran no tool, interrupts make no difference at all:
      the iteration is the same as if they had never been sent. */
  lemma InterruptsDropped(cfg: Config, st: LoopState, r: Round)
    requires NoTools(r)
    ensures Iterate(cfg, st, r) == Iterate(cfg, st, WithoutInterrupts(r))
  {
    SendingDrops(cfg, st, r);
    AnsweredDrops(cfg, Sending(cfg, st, r), st.iteration, r);
    SameIterate(cfg, st, r, WithoutInterrupts(r));
  }

  lemma SendingDrops(cfg: Config, st: LoopState, r: Round)
    ensures Heeded(cfg, st, WithoutInterrupts(r)) == Heeded(cfg, st, r)
    ensures Sending(cfg, st, WithoutInterrupts(r)) == Sending(cfg, st, r)
    ensures WithoutInterrupts(r).cancelled == r.cancelled
  {
  }

  /** What an iteration comes to depends on what it sends and on what that leads to. */
  lemma SameIterate(cfg: Config, st: LoopState, r: Round, q: Round)
    requires r.cancelled == q.cancelled && Heeded(cfg, st, r) == Heeded(cfg, st, q)
    requires Sending(cfg, st, r) == Sending(cfg, st, q)
    requires Answered(cfg, Sending(cfg, st, r), st.iteration, r) == Answered(cfg, Sending(cfg, st, q), st.iteration, q)
    ensures Iterate(cfg, st, r) == Iterate(cfg, st, q)
  {
  }

  // ---- what a steps' history says ---------------------------------------------------

  predicate IsBlock(s: Step) {
    s.outcome == On(BlockProgress) || s.outcome == On(BlockStall)
  }

  /** Tools ran since the last intent continuation. */
  predicate ToolsSince(steps: seq<Step>) {
    if steps == [] then false
    else
      var s := steps[|steps| - 1];
      if s.outcome == On(ToolsRan) then true
      else if s.outcome == On(IntentContinue) then false
      else ToolsSince(steps[..|steps| - 1])
  }

  /** The intent continuations since the last one that followed a tool iteration. */
  function IntentsSince(steps: seq<Step>): nat {
    if steps == [] then 0
    else
      var front, s := steps[..|steps| - 1], steps[|steps| - 1];
      if s.outcome == On(IntentContinue) then (if ToolsSince(front) then 0 else IntentsSince(front) + 1)
      else IntentsSince(front)
  }

  /** The fence transitions of the last response that was continued for an open
      block; `n` if there was none. */
  function LastTransitions(n: nat, steps: seq<Step>, rounds: seq<Round>): nat
    requires |steps| <= |rounds|
  {
    if steps == [] then n
    else
      var r := rounds[|steps| - 1];
      if IsBlock(steps[|steps| - 1]) && r.response.Completed? then r.response.turn.transitions
      else LastTransitions(n, steps[..|steps| - 1], rounds)
  }

  /** The loop's counters are what the steps so far say. */
  ghost predicate Reflects(st: LoopState, steps: seq<Step>, rounds: seq<Round>)
    requires |steps| <= |rounds|
  {
    && st.intentStalls == IntentsSince(steps) && st.toolsSinceIntent == ToolsSince(steps)
    && st.prevTransitions == LastTransitions(0, steps, rounds)
  }

  /** What an iteration does to the transition counter it compares with. */
  ghost predicate Compares(st: LoopState, st': LoopState, outcome: Outcome, r: Round) {
    if outcome == On(BlockProgress) || outcome == On(BlockStall) then
      && r.response.Completed? && st'.prevTransitions == r.response.turn.transitions
      && (outcome == On(BlockStall) <==>
          r.response.turn.transitions <= st.prevTransitions && |FinalText(r.response.turn)| < BIG_OUTPUT)
    else
      st'.prevTransitions == st.prevTransitions
  }

  lemma ComparesAnswered(cfg: Config, st: LoopState, iteration: nat, r: Round)
    ensures var (st', outcome) := Answered(cfg, st, iteration, r); Compares(st, st', outcome, r)
  {
  }

  lemma ComparesIterate(cfg: Config, st: LoopState, r: Round)
    ensures Compares(st, Iterate(cfg, st, r).state, Iterate(cfg, st, r).outcome, r)
  {
    IterateIs(cfg, st, r);
    ComparesAnswered(cfg, Sending(cfg, st, r), st.iteration, r);
  }

  lemma ReflectsNext(cfg: Config, st: LoopState, steps: seq<Step>, rounds: seq<Round>)
    requires |steps| < |rounds| && Reflects(st, steps, rounds)
    requires Iterate(cfg, st, rounds[|steps|]).outcome.On?
    ensures var s := Iterate(cfg, st, rounds[|steps|]); Reflects(s.state, steps + [s], rounds)
  {
    var r := rounds[|steps|];
    var s := Iterate(cfg, st, r);
    StallsIterate(cfg, st, r);
    ComparesIterate(cfg, st, r);
    assert (steps + [s])[..|steps|] == steps;
  }

  /** The state in which iteration `i` of a run begins. */
  function StateAt(cfg: Config, st: LoopState, rounds: seq<Round>, i: nat): LoopState
    requires i < |Run(cfg, st, rounds)|
  {
    if i == 0 then st else Run(cfg, st, rounds)[i - 1].state
  }

  lemma {:induction false} RunAt(cfg: Config, st: LoopState, rounds: seq<Round>, i: nat)
    requires i < |Run(cfg, st, rounds)|
    ensures i < |rounds| && Run(cfg, st, rounds)[i] == Iterate(cfg, StateAt(cfg, st, rounds, i), rounds[i])
    ensures i > 0 ==> Run(cfg, st, rounds)[i - 1].outcome.On?
    decreases i
  {
    if i > 0 {
      var s := Iterate(cfg, st, rounds[0]);
      assert Run(cfg, st, rounds)[1..] == Run(cfg, s.state, rounds[1..]);
      RunAt(cfg, s.state, rounds[1..], i - 1);
    }
  }

  /** Over any run from the start the counters are what the steps say. */
  lemma {:induction false} RunReflects(cfg: Config, st: LoopState, rounds: seq<Round>, i: nat)
    requires i < |Run(cfg, st, rounds)| && Reflects(st, [], rounds)
    ensures i < |rounds| && Reflects(StateAt(cfg, st, rounds, i), Run(cfg, st, rounds)[..i], rounds)
  {
    RunAt(cfg, st, rounds, i);
    if i > 0 {
      var steps := Run(cfg, st, rounds);
      SliceLast(steps, i - 1);
      RunReflects(cfg, st, rounds, i - 1);
      RunAt(cfg, st, rounds, i - 1);
      ReflectsAfter(cfg, StateAt(cfg, st, rounds, i - 1), steps[..i - 1], steps[i - 1], steps[..i], rounds);
    }
  }

  lemma ReflectsAfter(cfg: Config, st: LoopState, front: seq<Step>, s: Step, longer: seq<Step>, rounds: seq<Round>)
    requires |front| < |rounds| && Reflects(st, front, rounds) && longer == front + [s]
    requires s == Iterate(cfg, st, rounds[|front|]) && s.outcome.On?
    ensures Reflects(s.state, longer, rounds)
  {
    ReflectsNext(cfg, st, front, rounds);
  }

  /** A block continuation counts as a stall exactly if its response changed
      fences no more often than the last continued one did, and was not large:
      also if it did open or close fences. */
  lemma BlockStallIff(cfg: Config, history: Conversation, rounds: seq<Round>, i: nat)
    requires i < |Run(cfg, Start(history), rounds)| && IsBlock(Run(cfg, Start(history), rounds)[i])
    ensures i < |rounds| && rounds[i].response.Completed?
    ensures var steps := Run(cfg, Start(history), rounds);
            var t := rounds[i].response.turn;
            steps[i].outcome == On(BlockStall) <==>
            t.transitions <= LastTransitions(0, steps[..i], rounds) && |FinalText(t)| < BIG_OUTPUT
  {
    var st := Start(history);
    RunAt(cfg, st, rounds, i);
    RunReflects(cfg, st, rounds, i);
    ComparesIterate(cfg, StateAt(cfg, st, rounds, i), rounds[i]);
  }

  // ---- intent ----------------------------------------------------------------------

  /** A response in which a model without prefill announces an action and does
      not take it, with nothing else to decide the iteration. */
  predicate Announces(cfg: Config, st: LoopState, r: Round) {
    && !cfg.supportsPrefill && NoTools(r) && Directives(r.after) == [] && Directives(r.later) == []
    && var t := r.response.turn;
       && !Blank(FinalText(t)) && Decider.CleanStop(t.stopReason) && t.facts.hasIntent && !t.facts.yieldsToUser
       && !(t.blockOpen && st.blockStalls < Decider.BLOCK_CONTINUE_STALL_CAP)
  }

  lemma AnnouncedAnswer(cfg: Config, st: LoopState, iteration: nat, r: Round)
    requires Announces(cfg, st, r)
    ensures var (st', outcome) := Answered(cfg, st, iteration, r);
            outcome == if st.intentStalls < Decider.INTENT_CONTINUE_STALL_CAP then On(IntentContinue)
                       else Over(Verdict(Decider.NoPrefillEnd))
  {
  }

  lemma AnnouncedIterate(cfg: Config, st: LoopState, r: Round)
    requires Announces(cfg, st, r) && Iterate(cfg, st, r).request.Some?
    ensures Iterate(cfg, st, r).outcome
            == if st.intentStalls < Decider.INTENT_CONTINUE_STALL_CAP then On(IntentContinue)
               else Over(Verdict(Decider.NoPrefillEnd))
  {
    IterateIs(cfg, st, r);
    AnnouncedAnswer(cfg, Sending(cfg, st, r), st.iteration, r);
  }

  /** An announced action is followed up exactly if fewer than three intent
      continuations came since the last one that followed a tool iteration;
      tools that ran after that one do not count. */
  lemma IntentFollowedIff(cfg: Config, history: Conversation, rounds: seq<Round>, i: nat)
    requires i < |Run(cfg, Start(history), rounds)| && i < |rounds|
    requires Announces(cfg, StateAt(cfg, Start(history), rounds, i), rounds[i])
    requires Run(cfg, Start(history), rounds)[i].request.Some?
    ensures var steps := Run(cfg, Start(history), rounds);
            steps[i].outcome == if IntentsSince(steps[..i]) < Decider.INTENT_CONTINUE_STALL_CAP then On(IntentContinue)
                                else Over(Verdict(Decider.NoPrefillEnd))
  {
    var st := Start(history);
    RunAt(cfg, st, rounds, i);
    RunReflects(cfg, st, rounds, i);
    AnnouncedIterate(cfg, StateAt(cfg, st, rounds, i), rounds[i]);
  }

  /** The count, spelled out: `late` are the steps behind the last intent
      continuation that followed a tool iteration. */
  lemma {:induction false} IntentsAreCounted(steps: seq<Step>) returns (early: seq<Step>, late: seq<Step>)
    ensures steps == early + late && IntentsSince(steps) == Count(late, {IntentContinue})
    ensures early == [] ||
            (early[|early| - 1].outcome == On(IntentContinue) && ToolsSince(early[..|early| - 1]))
    ensures forall i :: 0 <= i < |late| && late[i].outcome == On(IntentContinue) ==> !ToolsSince(early + late[..i])
  {
    early, late := [], [];
    if steps != [] {
      var front, s := steps[..|steps| - 1], steps[|steps| - 1];
      assert front + [s] == steps;
      if s.outcome == On(IntentContinue) && ToolsSince(front) {
        early := steps;
        Nil(steps);
      } else {
        early, late := IntentsAreCounted(front);
        CountOneMore(late, s);
        Assoc(early, late, [s]);
        assert (late + [s])[..|late|] == late;
        assert forall i :: 0 <= i < |late| ==> (late + [s])[..i] == late[..i];
        late := late + [s];
      }
    }
  }

  lemma {:induction false} CountOneMore(steps: seq<Step>, s: Step)
    ensures Count(steps + [s], {IntentContinue})
            == Count(steps, {IntentContinue}) + if s.outcome == On(IntentContinue) then 1 else 0
  {
    if steps == [] {
      Nil([s]);
      assert [s][1..] == [];
    } else {
      assert (steps + [s])[1..] == steps[1..] + [s];
      CountOneMore(steps[1..], s);
    }
  }

  // ---- the cap outlives tools -------------------------------------------------------

  /** Nobody interferes with this round. */
  predicate Undisturbed(r: Round) {
    !r.cancelled && r.before == [] && r.after == [] && r.later == []
  }

  /** A state in which a model without prefill can be called. */
  predicate Callable(cfg: Config, st: LoopState) {
    !cfg.supportsPrefill && !EndsInAssistant(st.conversation) && st.iteration < cfg.maxIterations
  }

  lemma UndisturbedCalls(cfg: Config, st: LoopState, r: Round)
    requires Callable(cfg, st) && Undisturbed(r) && Consistent(r) && !BlankedAnswer(r)
    ensures Iterate(cfg, st, r).request.Some? && Iterate(cfg, st, r).state.iteration == st.iteration + 1
    ensures Iterate(cfg, st, r).outcome.On? ==> !EndsInAssistant(Iterate(cfg, st, r).state.conversation)
  {
    RequestEnds(cfg, st, r);
    IterationsCount(cfg, st, r);
    BehindEndsInUser(st.conversation, Spoken(Feedback.BeforeStop(Heeded(cfg, st, r))));
    if Iterate(cfg, st, r).outcome.On? {
      AssistantLastIff(cfg, st, r);
    }
  }

  /** A round in which an action is announced, whatever the state. */
  predicate PlainIntent(r: Round) {
    && Undisturbed(r) && NoTools(r) && r.response.turn.results == [] && r.response.turn.deferred == []
    && var t := r.response.turn;
       && !Blank(t.text) && !Blank(t.sanitized) && Decider.CleanStop(t.stopReason)
       && t.facts.hasIntent && !t.facts.yieldsToUser && !t.blockOpen
  }

  predicate PlainTools(r: Round) {
    Undisturbed(r) && RanTools(r)
  }

  lemma PlainIntentAnnounces(cfg: Config, st: LoopState, r: Round)
    requires !cfg.supportsPrefill && PlainIntent(r)
    ensures Announces(cfg, st, r) && Consistent(r) && !BlankedAnswer(r)
  {
  }

  lemma IntentRound(cfg: Config, st: LoopState, r: Round)
    requires Callable(cfg, st) && PlainIntent(r)
    ensures var s := Iterate(cfg, st, r);
            if st.intentStalls < Decider.INTENT_CONTINUE_STALL_CAP then
              && s.outcome == On(IntentContinue) && !EndsInAssistant(s.state.conversation)
              && s.state.iteration == st.iteration + 1 && !s.state.toolsSinceIntent
              && s.state.intentStalls == if st.toolsSinceIntent then 0 else st.intentStalls + 1
            else s.outcome == Over(Verdict(Decider.NoPrefillEnd))
  {
    PlainIntentAnnounces(cfg, st, r);
    UndisturbedCalls(cfg, st, r);
    AnnouncedIterate(cfg, st, r);
    StallsIterate(cfg, st, r);
  }

  lemma ToolAnswer(cfg: Config, st: LoopState, iteration: nat, r: Round)
    requires PlainTools(r)
    ensures Answered(cfg, st, iteration, r).1 == On(ToolsRan)
  {
  }

  lemma ToolRound(cfg: Config, st: LoopState, r: Round)
    requires Callable(cfg, st) && PlainTools(r)
    ensures var s := Iterate(cfg, st, r);
            && s.outcome == On(ToolsRan) && !EndsInAssistant(s.state.conversation)
            && s.state.iteration == st.iteration + 1 && s.state.intentStalls == st.intentStalls
  {
    UndisturbedCalls(cfg, st, r);
    IterateIs(cfg, st, r);
    ToolAnswer(cfg, Sending(cfg, st, r), st.iteration, r);
    StallsIterate(cfg, st, r);
  }

  lemma RunFirst(cfg: Config, st: LoopState, r: Round, rest: seq<Round>)
    requires st.iteration < cfg.maxIterations
    ensures var s := Iterate(cfg, st, r);
            Run(cfg, st, [r] + rest) == [s] + if s.outcome.On? then Run(cfg, s.state, rest) else []
  {
    assert ([r] + rest)[1..] == rest;
  }

  /** With the cap reached, any number of tool iterations does not help: the
      next announcement ends the run. */
  lemma {:induction false} CapOutlivesTools(cfg: Config, st: LoopState, tools: seq<Round>, r: Round)
    requires Callable(cfg, st) && st.iteration + |tools| < cfg.maxIterations
    requires st.intentStalls >= Decider.INTENT_CONTINUE_STALL_CAP
    requires PlainIntent(r) && forall b :: b in tools ==> PlainTools(b)
    ensures var steps := Run(cfg, st, tools + [r]);
            && |steps| == |tools| + 1 && steps[|tools|].outcome == Over(Verdict(Decider.NoPrefillEnd))
            && forall i :: 0 <= i < |tools| ==> steps[i].outcome == On(ToolsRan)
    decreases |tools|
  {
    if tools == [] {
      Nil([r]);
      RunFirst(cfg, st, r, []);
      IntentRound(cfg, st, r);
    } else {
      var b := tools[0];
      assert tools + [r] == [b] + (tools[1..] + [r]);
      RunFirst(cfg, st, b, tools[1..] + [r]);
      ToolRound(cfg, st, b);
      CapOutlivesTools(cfg, Iterate(cfg, st, b).state, tools[1..], r);
    }
  }

  function Again(r: Round, n: nat): (rs: seq<Round>)
    ensures |rs| == n
  {
    if n == 0 then [] else [r] + Again(r, n - 1)
  }

  /** `n` announcements, tool iterations, and one announcement too many. */
  ghost predicate Refused(steps: seq<Step>, n: nat, m: nat) {
    && |steps| == n + m + 1
    && (forall i :: 0 <= i < n ==> steps[i].outcome == On(IntentContinue))
    && (forall i :: n <= i < n + m ==> steps[i].outcome == On(ToolsRan))
    && steps[n + m].outcome == Over(Verdict(Decider.NoPrefillEnd))
  }

  lemma RefusedLater(s: Step, steps: seq<Step>, n: nat, m: nat)
    requires s.outcome == On(IntentContinue) && Refused(steps, n, m)
    ensures Refused([s] + steps, n + 1, m)
  {
  }

  lemma {:induction false} CapIsReachedFrom(cfg: Config, st: LoopState, r: Round, tools: seq<Round>, n: nat)
    requires Callable(cfg, st) && st.iteration + n + |tools| < cfg.maxIterations && !st.toolsSinceIntent
    requires st.intentStalls + n == Decider.INTENT_CONTINUE_STALL_CAP
    requires PlainIntent(r) && forall b :: b in tools ==> PlainTools(b)
    ensures Refused(Run(cfg, st, Again(r, n) + (tools + [r])), n, |tools|)
    decreases n
  {
    if n == 0 {
      Nil(tools + [r]);
      CapOutlivesTools(cfg, st, tools, r);
    } else {
      var rest := Again(r, n - 1) + (tools + [r]);
      Assoc([r], Again(r, n - 1), tools + [r]);
      var s := FirstIntent(cfg, st, r, rest);
      CapIsReachedFrom(cfg, s.state, r, tools, n - 1);
      RefusedLater(s, Run(cfg, s.state, rest), n - 1, |tools|);
    }
  }

  lemma FirstIntent(cfg: Config, st: LoopState, r: Round, rest: seq<Round>) returns (s: Step)
    requires Callable(cfg, st) && PlainIntent(r) && !st.toolsSinceIntent
    requires st.intentStalls < Decider.INTENT_CONTINUE_STALL_CAP
    ensures Run(cfg, st, [r] + rest) == [s] + Run(cfg, s.state, rest)
    ensures s.outcome == On(IntentContinue) && !EndsInAssistant(s.state.conversation) && !s.state.toolsSinceIntent
    ensures s.state.iteration == st.iteration + 1 && s.state.intentStalls == st.intentStalls + 1
  {
    IntentRound(cfg, st, r);
    RunFirst(cfg, st, r, rest);
    s := Iterate(cfg, st, r);
  }

  /** From the start: three announcements reach the cap, and then any number of
      tool iterations followed by an announcement ends with a refusal. */
  lemma CapIsReached(cfg: Config, history: Conversation, r: Round, tools: seq<Round>)
    requires !cfg.supportsPrefill && !EndsInAssistant(history) && 3 + |tools| < cfg.maxIterations
    requires PlainIntent(r) && forall b :: b in tools ==> PlainTools(b)
    ensures Refused(Run(cfg, Start(history), Again(r, 3) + (tools + [r])), 3, |tools|)
  {
    CapIsReachedFrom(cfg, Start(history), r, tools, 3);
  }


  // ---- feedback after an answer ---------------------------------------------------

  /** `said` are the messages of `fbs`, all of them directives. */
  predicate Says(fbs: seq<Feedback.Item>, said: seq<string>) {
    |said| == |fbs| && forall i :: 0 <= i < |said| ==> fbs[i] == Feedback.Directive(said[i])
  }

  lemma SaysMore(fbs: seq<Feedback.Item>, said: seq<string>, m: string)
    requires Says(fbs, said)
    ensures Says(fbs + [Feedback.Directive(m)], said + [m]) && Says(fbs + [], said + [])
  {
    Nil(fbs);
    Nil(said);
  }

  /** The messages of the directives among `fbs`, in order. */
  lemma {:induction false} DirectivesAre(fbs: seq<Feedback.Item>)
    ensures Says(Chosen(fbs, IsDirective()), Directives(fbs))
  {
    if fbs != [] {
      var front, fb := fbs[..|fbs| - 1], fbs[|fbs| - 1];
      assert front + [fb] == fbs;
      DirectivesAre(front);
      DirectivesSnoc(front, fb);
      ChosenSnoc(front, fb, IsDirective());
      SaysMore(Chosen(front, IsDirective()), Directives(front), if fb.Directive? then fb.message else "");
    }
  }
}
