/** `stream_with_tools` as a whole: the responses of its iterations are read off
    the provider's events. */
module ProviderLoop {
  import opened Strings
  import opened Messages
  import opened ToolLoop
  import Backoff
  import Decider = OutcomeDecider
  import Feedback
  import Stream = ToolStream

  /** One response as the provider sends it; `items` are its tool events and
      what ends it. The other fields are what the engine makes of its text. */
  datatype Answer = Answer(
    items: seq<Stream.Item>, text: string, sanitized: string, facts: Decider.TextFacts, parroted: bool,
    stopReason: Decider.StopReason, continued: bool, blockOpen: bool, transitions: nat, failure: Backoff.Failure)

  /** What the outside world contributes to one iteration. */
  datatype Input = Input(
    cancelled: bool, before: seq<Feedback.Item>, answer: Answer, after: seq<Feedback.Item>, later: seq<Feedback.Item>)

  function TurnOf(a: Answer, m: Stream.Memory, hallucinated: bool): Turn {
    Turn(a.text, a.sanitized, a.facts, m.tables.calls, m.tables.results, m.executed, m.emptyHere, m.emptyInARow,
         m.tables.deferred, hallucinated, a.parroted, a.stopReason, a.continued, a.blockOpen, a.transitions)
  }

  /** A fatal error event only ends the reading; the turn counts as read. */
  function ResponseOf(a: Answer, last: Stream.Item, m: Stream.Memory): Response {
    match last
    case UserStops => Returned
    case Raises => Raised(a.failure, m.emptyInARow)
    case Hallucinates => Completed(TurnOf(a, m, true))
    case _ => Completed(TurnOf(a, m, false))
  }

  function RoundFrom(i: Input, last: Stream.Item, m: Stream.Memory): Round {
    Round(i.cancelled, i.before, ResponseOf(i.answer, last, m), i.after, i.later)
  }

  /** The round that an iteration in state `st` makes of its input. */
  function RoundOf(st: LoopState, i: Input): Round {
    var (last, m) := Stream.ReadAll(Stream.Nothing(st.emptyCallsInARow), i.answer.items);
    RoundFrom(i, last, m)
  }

  function RoundsOf(cfg: Config, st: LoopState, inputs: seq<Input>): (rounds: seq<Round>)
    ensures |rounds| <= |inputs|
    decreases |inputs|
  {
    if inputs == [] then []
    else
      var r := RoundOf(st, inputs[0]);
      var s := Iterate(cfg, st, r);
      [r] + if s.outcome.On? then RoundsOf(cfg, s.state, inputs[1..]) else []
  }

  lemma RoundIsConsistent(st: LoopState, i: Input)
    ensures Consistent(RoundOf(st, i))
  {
    Stream.ReadKeepsBooks(Stream.Nothing(st.emptyCallsInARow), i.answer.items);
  }

  /** The rounds of provider events are consistent, so that pairing holds over
      every run of them. */
  lemma {:induction false} RoundsAreConsistent(cfg: Config, st: LoopState, inputs: seq<Input>)
    ensures forall r :: r in RoundsOf(cfg, st, inputs) ==> Consistent(r)
    decreases |inputs|
  {
    if inputs != [] {
      RoundIsConsistent(st, inputs[0]);
      var s := Iterate(cfg, st, RoundOf(st, inputs[0]));
      if s.outcome.On? {
        RoundsAreConsistent(cfg, s.state, inputs[1..]);
      }
    }
  }

  /** Sanitising leaves something of a text that shows something. */
  predicate KeepsAnswer(i: Input) {
    Blank(i.answer.sanitized) ==> Blank(i.answer.text)
  }

  lemma {:induction false} RoundsKeepAnswers(cfg: Config, st: LoopState, inputs: seq<Input>)
    requires forall i :: i in inputs ==> KeepsAnswer(i)
    ensures forall r :: r in RoundsOf(cfg, st, inputs) ==> !BlankedAnswer(r)
    decreases |inputs|
  {
    if inputs != [] {
      assert inputs[0] in inputs;
      var r := RoundOf(st, inputs[0]);
      assert !BlankedAnswer(r);
      var s := Iterate(cfg, st, r);
      if s.outcome.On? {
        RoundsKeepAnswers(cfg, s.state, inputs[1..]);
      }
    }
  }

  // ---- the loop -----------------------------------------------------------------

  /** The conversations the provider is called with. */
  function Requests(steps: seq<Step>): seq<Conversation> {
    if steps == [] then []
    else
      var before, s := Requests(steps[..|steps| - 1]), steps[|steps| - 1];
      if s.request.Some? then before + [s.request.value] else before
  }

  lemma RequestsNext(steps: seq<Step>, s: Step)
    ensures Requests(steps + [s]) == if s.request.Some? then Requests(steps) + [s.request.value] else Requests(steps)
  {
    assert (steps + [s])[..|steps|] == steps;
  }

  function LastConversation(history: Conversation, steps: seq<Step>): Conversation {
    if steps == [] then history else steps[|steps| - 1].state.conversation
  }

  /** The loop: read a response, then iterate. */
  method Iterations(cfg: Config, history: Conversation, inputs: seq<Input>)
      returns (requests: seq<Conversation>, final: Conversation, ghost steps: seq<Step>)
    ensures steps == Run(cfg, Start(history), RoundsOf(cfg, Start(history), inputs))
    ensures requests == Requests(steps) && final == LastConversation(history, steps)
    ensures |requests| <= cfg.maxIterations
  {
    var st := Start(history);
    requests, steps := [], [];
    ghost var all := Run(cfg, st, RoundsOf(cfg, st, inputs));
    Nil(all);
    var more := true;
    var i := 0;
    while more && i < |inputs| && st.iteration < cfg.maxIterations
      invariant i <= |inputs| && |requests| <= st.iteration <= cfg.maxIterations
      invariant all == if more then steps + Run(cfg, st, RoundsOf(cfg, st, inputs[i..])) else steps
      invariant requests == Requests(steps) && st.conversation == LastConversation(history, steps)
      decreases |inputs| - i
    {
      var last, m := Stream.Read(inputs[i].answer.items, st.emptyCallsInARow);
      var r := RoundFrom(inputs[i], last, m);
      var s := Iterate(cfg, st, r);
      StepOfRun(cfg, st, inputs, i, steps);
      IterationsCount(cfg, st, r);
      RequestsNext(steps, s);
      if s.request.Some? {
        requests := requests + [s.request.value];
      }
      steps := steps + [s];
      more := s.outcome.On?;
      st := s.state;
      i := i + 1;
    }
    Nil(steps);
    final := st.conversation;
  }

  lemma StepOfRun(cfg: Config, st: LoopState, inputs: seq<Input>, i: nat, before: seq<Step>)
    requires i < |inputs| && st.iteration < cfg.maxIterations
    ensures var s := Iterate(cfg, st, RoundOf(st, inputs[i]));
            before + Run(cfg, st, RoundsOf(cfg, st, inputs[i..])) ==
            if s.outcome.On? then before + [s] + Run(cfg, s.state, RoundsOf(cfg, s.state, inputs[i + 1..]))
            else before + [s]
  {
    assert inputs[i..][1..] == inputs[i + 1..];
    var r := RoundOf(st, inputs[i]);
    var s := Iterate(cfg, st, r);
    var rest := if s.outcome.On? then RoundsOf(cfg, s.state, inputs[i + 1..]) else [];
    assert RoundsOf(cfg, st, inputs[i..]) == [r] + rest;
    assert ([r] + rest)[1..] == rest;
    if s.outcome.On? {
      Assoc(before, [s], Run(cfg, s.state, rest));
    }
  }

  /** `stream_with_tools` over the provider's events: `requests` are the
      conversations the provider was called with, `final` is what is left. */
  method StreamWithTools(cfg: Config, history: Conversation, inputs: seq<Input>)
      returns (requests: seq<Conversation>, final: Conversation, ghost steps: seq<Step>)
    requires Paired(history)
    ensures steps == Run(cfg, Start(history), RoundsOf(cfg, Start(history), inputs))
    ensures requests == Requests(steps) && final == LastConversation(history, steps)
    ensures |requests| <= cfg.maxIterations
    ensures forall c :: c in requests ==> Paired(c) && Kept(history, c)
    ensures Paired(final) && Kept(history, final)
    ensures !cfg.supportsPrefill && !EndsInAssistant(history) && (forall i :: i in inputs ==> KeepsAnswer(i)) ==>
            forall c :: c in requests ==> !EndsInAssistant(c)
  {
    var st := Start(history);
    RoundsAreConsistent(cfg, st, inputs);
    if forall i :: i in inputs ==> KeepsAnswer(i) {
      RoundsKeepAnswers(cfg, st, inputs);
    }
    RunIsSound(cfg, history, RoundsOf(cfg, st, inputs));
    requests, final, steps := Iterations(cfg, history, inputs);
  }

  lemma {:induction false} RequestsOfSteps(steps: seq<Step>)
    ensures forall c :: c in Requests(steps) ==> exists s :: s in steps && s.request == Some(c)
  {
    if steps != [] {
      RequestsOfSteps(steps[..|steps| - 1]);
      assert steps[|steps| - 1] in steps;
    }
  }

  lemma RunIsSound(cfg: Config, history: Conversation, rounds: seq<Round>)
    requires Paired(history) && forall r :: r in rounds ==> Consistent(r)
    ensures var steps := Run(cfg, Start(history), rounds);
            && (forall c :: c in Requests(steps) ==> Paired(c) && Kept(history, c))
            && Paired(LastConversation(history, steps)) && Kept(history, LastConversation(history, steps))
            && (!cfg.supportsPrefill && !EndsInAssistant(history) && (forall r :: r in rounds ==> !BlankedAnswer(r)) ==>
                  forall c :: c in Requests(steps) ==> !EndsInAssistant(c))
  {
    var st := Start(history);
    var steps := Run(cfg, st, rounds);
    PrefixIsKept(history, history);
    RequestsOfSteps(steps);
    PairedRun(cfg, st, rounds);
    KeptRun(cfg, st, rounds);
    assert steps != [] ==> steps[|steps| - 1] in steps;
    if !cfg.supportsPrefill && !EndsInAssistant(history) && forall r :: r in rounds ==> !BlankedAnswer(r) {
      NoPrefillRun(cfg, st, rounds);
    }
  }
}
