/** A run's text on its way from the model to the screen, over any number of responses. */
module TextPipeline {
  import opened Strings
  import opened FenceTracker
  import opened FenceSpacing
  import opened TextBuffering

  // `process_text_delta`, the thinking branch and the flush at a tool start of
  // `stream_with_tools`, and `handle_message_stop`. The optimizer and the
  // buffer for fence openings outlive a response.

  datatype Event =
    | Text(delta: string)
    | Think(content: string)
    | ToolStart
    | Stop
    | NextResponse
    | Retry            // an error is retried: both buffers are deleted

  /** `past` is what earlier responses recorded, `recorded` is `assistant_text`,
      `shown` all model text yielded so far. The last four fields are history:
      all text fed; what of it was recorded, in that order; what retries deleted
      from the optimizer and from the fence buffer. */
  datatype Pipe = Pipe(
    past: string, recorded: string, shown: string, opt: string, held: string, thinking: bool, tracker: Tracker,
    fed: string, passed: string, unshown: string, unrecorded: string)

  const EMPTY := Pipe("", "", "", "", "", false, FRESH, "", "", "", "")

  const OPEN_THINKING := "<thinking-data>"
  const CLOSE_THINKING := "</thinking-data>"

  predicate EndsSentence(text: string) {
    var t := TrimRight(text);
    t != "" && t[|t| - 1] in ".!?:\n"
  }

  /** How much of the optimizer's text goes out when `recorded` is on record. */
  function OutLength(all: string, recorded: string): (n: nat)
    ensures n <= |all|
  {
    var n := ReadyLength(all);
    if EndsSentence(recorded) && !Blank(all[n..]) then |all| else n
  }

  /** The tracker follows what goes out, in two pieces if the sentence ended. */
  function Tracked(t: Tracker, all: string, recorded: string): Tracker {
    var n := ReadyLength(all);
    Updated(Updated(t, all[..n]), if EndsSentence(recorded) && !Blank(all[n..]) then all[n..] else "")
  }

  // ---- the steps ---------------------------------------------------------------

  /** Recorded and shown at once, past both buffers. */
  function Emit(p: Pipe, x: string): Pipe {
    p.(recorded := p.recorded + x, shown := p.shown + x, passed := p.passed + x, fed := p.fed + x)
  }

  function Close(p: Pipe): Pipe {
    if p.thinking then Emit(p, CLOSE_THINKING).(thinking := false) else p
  }

  /** Handed to the optimizer, once recorded. */
  function Optimized(p: Pipe, spaced: string): Pipe {
    var all := p.opt + spaced;
    var n := OutLength(all, p.recorded);
    p.(shown := p.shown + all[..n], opt := all[n..], tracker := Tracked(p.tracker, all, p.recorded))
  }

  function Record(p: Pipe, text: string): Pipe {
    var spaced := Normalized(p.tracker.inBlock, text);
    Optimized(p.(recorded := p.recorded + spaced, passed := p.passed + text), spaced)
  }

  function TextStep(p: Pipe, delta: string): Pipe {
    var q := Close(p);
    match PassageOf(q.tracker.inBlock, q.held + delta)
    case Keep(h) => q.(held := h, fed := q.fed + delta)
    case Go(text, h) => Record(q.(held := h, fed := q.fed + delta), text)
  }

  function Thought(p: Pipe, content: string): string {
    if content == "" then "" else (if p.thinking then "" else OPEN_THINKING) + content
  }

  function ThinkStep(p: Pipe, content: string): Pipe {
    Emit(p, Thought(p, content)).(thinking := p.thinking || content != "")
  }

  /** What flushing leaves in the optimizer. */
  function Stuck(buffer: string): string {
    if Blank(buffer) then buffer else ""
  }

  function FlushOpt(p: Pipe, track: bool): Pipe {
    p.(shown := p.shown + Flushed(p.opt), opt := Stuck(p.opt),
       tracker := if track then Updated(p.tracker, Flushed(p.opt)) else p.tracker)
  }

  function FlushHeld(p: Pipe): Pipe {
    p.(recorded := p.recorded + p.held, shown := p.shown + p.held, passed := p.passed + p.held, held := "",
       tracker := Updated(p.tracker, p.held))
  }

  function NextStep(p: Pipe): Pipe {
    p.(past := p.past + p.recorded, recorded := "", thinking := false, tracker := FRESH)
  }

  function Step(p: Pipe, e: Event): Pipe {
    match e
    case Text(delta) => TextStep(p, delta)
    case Think(content) => ThinkStep(p, content)
    case ToolStart => FlushHeld(FlushOpt(p, false))
    case Stop => FlushHeld(FlushOpt(Close(p), true))
    case NextResponse => NextStep(p)
    case Retry =>
      NextStep(p).(opt := "", held := "", unshown := p.unshown + p.opt, unrecorded := p.unrecorded + p.held)
  }

  function Run(es: seq<Event>): Pipe {
    if es == [] then EMPTY else Step(Run(es[..|es| - 1]), es[|es| - 1])
  }

  // ---- the pipeline ----------------------------------------------------------------

  class Pipeline {
    const kinds: Kinds
    /** `_content_optimizer` and `_block_opening_buffer`, kept on the executor. */
    var optimizer: StreamingContentOptimizer
    var held: string
    /** The variables of one response. */
    var tracker: CodeBlockTracker
    var assistantText: string
    var thinkingOpen: bool
    /** Text yielded to the client. */
    var shown: string
    /** A text was met that takes another route. */
    var diverted: bool
    ghost var past: string
    ghost var fed: string
    ghost var passed: string
    ghost var unshown: string
    ghost var unrecorded: string

    ghost function Now(): Pipe
      reads this, optimizer, tracker
    {
      Pipe(past, assistantText, shown, optimizer.buffer, held, thinkingOpen, tracker.state, fed, passed, unshown,
           unrecorded)
    }

    constructor (kinds: Kinds)
      ensures Now() == EMPTY && !diverted && this.kinds == kinds
      ensures fresh(optimizer) && fresh(tracker)
    {
      this.kinds := kinds;
      optimizer := new StreamingContentOptimizer();
      tracker := new CodeBlockTracker();
      held, assistantText, thinkingOpen, shown, diverted := "", "", false, "", false;
      past, fed, passed, unshown, unrecorded := "", "", "", "", "";
    }

    method YieldDirect(x: string)
      modifies this`shown, this`assistantText, this`passed, this`fed
      ensures Now() == Emit(old(Now()), x)
    {
      assistantText, shown := assistantText + x, shown + x;
      passed, fed := passed + x, fed + x;
    }

    method CloseThinking()
      modifies this`shown, this`assistantText, this`passed, this`fed, this`thinkingOpen
      ensures Now() == Close(old(Now()))
    {
      if thinkingOpen {
        thinkingOpen := false;
        YieldDirect(CLOSE_THINKING);
      }
    }

    method FlushOptimizer(track: bool)
      modifies this`shown, optimizer, tracker
      ensures Now() == FlushOpt(old(Now()), track)
    {
      var leftover := optimizer.FlushRemaining();
      if leftover != "" {
        if track {
          tracker.Update(leftover);
        }
        shown := shown + leftover;
      } else {
        Nil(shown);
      }
    }

    method FlushFenceBuffer()
      modifies this`shown, this`assistantText, this`passed, this`held, tracker
      ensures Now() == FlushHeld(old(Now()))
    {
      if held != "" {
        assistantText := assistantText + held;
        tracker.Update(held);
        shown, passed := shown + held, passed + held;
        held := "";
      } else {
        Nil(assistantText);
        Nil(shown);
        Nil(passed);
      }
    }

    /** Records a spaced text and hands it to the optimizer. */
    method Accept(text: string)
      requires !diverted
      modifies this`shown, this`assistantText, this`passed, this`diverted, optimizer, tracker
      ensures diverted == Visualizes(kinds, Normalized(old(tracker.state.inBlock), text))
      ensures !diverted ==> Now() == Record(old(Now()), text)
    {
      var spaced := Normalized(tracker.state.inBlock, text);
      if Visualizes(kinds, spaced) {
        diverted := true;
        return;
      }
      passed, assistantText := passed + text, assistantText + spaced;
      Optimize(spaced);
    }

    /** The optimizer's turn, after a text was recorded. */
    method Optimize(spaced: string)
      modifies this`shown, optimizer, tracker
      ensures Now() == Optimized(old(Now()), spaced)
    {
      ghost var all, before := optimizer.buffer + spaced, shown;
      var chunk := optimizer.AddContent(spaced);
      if chunk != "" {
        tracker.Update(chunk);
      }
      shown := shown + chunk;
      if EndsSentence(assistantText) {
        OutInTwo(before, all);
        FlushOptimizer(true);
      }
    }

    /** `text_delta`. */
    method TextDelta(delta: string)
      requires !diverted
      modifies this`shown, this`assistantText, this`passed, this`fed, this`held, this`thinkingOpen, this`diverted,
               optimizer, tracker
      ensures diverted == Diverts(kinds, old(Now()), Text(delta))
      ensures !diverted ==> Now() == Step(old(Now()), Text(delta))
    {
      if ContainsAny(delta, kinds.reasoning) {
        diverted := true;
        return;
      }
      CloseThinking();
      var probe := held + delta;
      if FakeToolOpens(kinds, probe) {
        diverted := true;
        return;
      }
      fed := fed + delta;
      match PassageOf(tracker.state.inBlock, probe)
      case Keep(h) =>
        held := h;
      case Go(text, h) =>
        held := h;
        Accept(text);
    }

    /** `thinking_delta`: shown at once. */
    method ThinkingDelta(content: string)
      modifies this`shown, this`assistantText, this`passed, this`fed, this`thinkingOpen
      ensures Now() == Step(old(Now()), Think(content))
    {
      if content != "" {
        var out := (if thinkingOpen then "" else OPEN_THINKING) + content;
        thinkingOpen := true;
        YieldDirect(out);
      } else {
        Nil(assistantText);
        Nil(shown);
        Nil(passed);
        Nil(fed);
      }
    }

    method ToolUseStart()
      modifies this`shown, this`assistantText, this`passed, this`held, optimizer, tracker
      ensures Now() == Step(old(Now()), ToolStart)
    {
      FlushOptimizer(false);
      FlushFenceBuffer();
    }

    method MessageStop()
      modifies this`shown, this`assistantText, this`passed, this`fed, this`held, this`thinkingOpen, optimizer, tracker
      ensures Now() == Step(old(Now()), Stop)
    {
      CloseThinking();
      FlushOptimizer(true);
      FlushFenceBuffer();
    }

    /** The next iteration begins; the buffers stay. */
    method Begin()
      modifies this`assistantText, this`thinkingOpen, this`tracker, this`past
      ensures Now() == Step(old(Now()), NextResponse) && fresh(tracker)
    {
      past := past + assistantText;
      assistantText, thinkingOpen := "", false;
      tracker := new CodeBlockTracker();
    }

    method Handle(e: Event)
      requires !diverted
      modifies this, optimizer, tracker
      ensures diverted == Diverts(kinds, old(Now()), e)
      ensures !diverted ==> Now() == Step(old(Now()), e)
      ensures optimizer == old(optimizer) || fresh(optimizer)
      ensures tracker == old(tracker) || fresh(tracker)
    {
      match e
      case Text(delta) => TextDelta(delta);
      case Think(content) => ThinkingDelta(content);
      case ToolStart => ToolUseStart();
      case Stop => MessageStop();
      case NextResponse => Begin();
      case Retry => CleanUp();
    }

    /** `_cleanup_iteration_resources` before an error is retried. */
    method CleanUp()
      modifies this
      ensures Now() == Step(old(Now()), Event.Retry) && fresh(optimizer) && fresh(tracker)
      ensures diverted == old(diverted)
    {
      unshown, unrecorded := unshown + optimizer.buffer, unrecorded + held;
      optimizer := new StreamingContentOptimizer();
      held := "";
      Begin();
    }
  }

  lemma RunNext(es: seq<Event>, i: nat)
    requires i < |es|
    ensures Run(es[..i + 1]) == Step(Run(es[..i]), es[i])
  {
    assert es[..i + 1][..i] == es[..i];
  }

  /** A chunk and then the rest: everything. */
  lemma OutInTwo(shown: string, all: string)
    ensures var n := ReadyLength(all);
            && shown + all[..n] + all[n..] == shown + all && all[..|all|] == all && all[|all|..] == ""
            && shown + all[..n] + "" == shown + all[..n]
  {
    var n := ReadyLength(all);
    assert all[..n] + all[n..] == all;
    Assoc(shown, all[..n], all[n..]);
  }

  /** A run of events through one pipeline. */
  method Process(kinds: Kinds, es: seq<Event>)
      returns (shown: string, recorded: string, left: string, held: string, diverted: bool)
    ensures !Loud(kinds, Words(es)) ==> !diverted
    ensures !diverted ==>
              shown == Run(es).shown && recorded == Run(es).recorded && left == Run(es).opt && held == Run(es).held
  {
    var pipe := new Pipeline(kinds);
    for i := 0 to |es|
      invariant fresh(pipe) && fresh(pipe.optimizer) && fresh(pipe.tracker) && pipe.kinds == kinds
      invariant !pipe.diverted && pipe.Now() == Run(es[..i])
    {
      RunNext(es, i);
      pipe.Handle(es[i]);
      if pipe.diverted {
        DivertsIsLoud(kinds, Run(es[..i]), es[i].delta);
        QuietRun(kinds, es, i);
        return "", "", "", "", true;
      }
    }
    assert es[..|es|] == es;
    return pipe.shown, pipe.assistantText, pipe.optimizer.buffer, pipe.held, false;
  }

  // ---- order ---------------------------------------------------------------------

  /** What is shown, with what the optimizer holds, is what is recorded. */
  predicate ShownInOrder(p: Pipe) {
    p.shown + p.opt == p.past + p.recorded
  }

  /** What was recorded, with what waits for a fence, is what was fed. */
  predicate RecordedInOrder(p: Pipe) {
    p.passed + p.held == p.fed
  }

  predicate Commute(a: string, b: string) {
    a + b == b + a
  }

  /** The event shows nothing ahead of text that the optimizer holds. */
  predicate KeepsShown(p: Pipe, e: Event) {
    match e
    case Text(_) => p.thinking ==> Commute(p.opt, CLOSE_THINKING)
    case Think(content) => Commute(p.opt, Thought(p, content))
    case ToolStart => Stuck(p.opt) == "" || p.held == ""
    case Stop => (p.thinking ==> Commute(p.opt, CLOSE_THINKING)) && (Stuck(p.opt) == "" || p.held == "")
    case NextResponse => true
    case Retry => p.opt == ""
  }

  /** The event records nothing ahead of text that waits for a fence. */
  predicate KeepsRecorded(p: Pipe, e: Event) {
    match e
    case Text(_) => p.thinking ==> p.held == ""
    case Think(content) => Commute(p.held, Thought(p, content))
    case ToolStart => true
    case Stop => p.thinking ==> p.held == ""
    case NextResponse => true
    case Retry => p.held == ""
  }

  predicate HoldsTick(p: Pipe) {
    p.held != "" ==> '`' in p.held
  }

  /** `x` overtakes `b`: that is noticed unless the two can change places. */
  lemma Overtakes(a: string, b: string, c: string, x: string)
    requires a + b == c
    ensures a + x + b == c + x <==> Commute(b, x)
  {
    Assoc(a, x, b);
    Assoc(a, b, x);
    SameStart(a, x + b, b + x);
  }

  lemma SameStart(a: string, b: string, c: string)
    ensures a + b == a + c <==> b == c
  {
    assert (a + b)[|a|..] == b && (a + c)[|a|..] == c;
  }

  lemma SameEnd(a: string, b: string, c: string)
    ensures a + c == b + c <==> a == b
  {
    if a + c == b + c {
      assert |a| == |b|;
      assert (a + c)[..|a|] == a && (b + c)[..|b|] == b;
    }
  }

  lemma {:induction false} FirstMarked(h: string, mark: char -> bool, i: nat) returns (f: nat)
    requires i < |h| && mark(h[i])
    ensures f < |h| && mark(h[f]) && forall k :: 0 <= k < f ==> !mark(h[k])
  {
    if j :| 0 <= j < i && mark(h[j]) {
      f := FirstMarked(h, mark, j);
    } else {
      f := i;
    }
  }

  /** A text with a marked character changes places with one that has none only
      if that is empty. */
  lemma MarkedCommutes(b: string, h: string, mark: char -> bool, i: nat)
    requires (forall k :: 0 <= k < |b| ==> !mark(b[k])) && i < |h| && mark(h[i])
    ensures Commute(b, h) <==> b == ""
  {
    if b == "" {
      Nil(h);
    } else {
      var f := FirstMarked(h, mark, i);
      assert (h + b)[f] == h[f];
      assert (b + h)[f] == if f < |b| then b[f] else h[f - |b|];
    }
  }

  /** Held text and the closing tag, or white space: they change places only if
      one of them is empty. */
  lemma HeldCommutes(h: string, b: string)
    requires h != "" ==> '`' in h
    requires b == CLOSE_THINKING || Blank(b)
    ensures Commute(b, h) <==> b == "" || h == ""
  {
    if h == "" {
      Nil(b);
    } else {
      var i :| 0 <= i < |h| && h[i] == '`';
      if b == CLOSE_THINKING {
        MarkedCommutes(b, h, c => c == '`', i);
      } else {
        MarkedCommutes(b, h, c => !IsSpace(c), i);
      }
    }
  }

  lemma EmitOrder(p: Pipe, x: string)
    ensures ShownInOrder(p) ==> (ShownInOrder(Emit(p, x)) <==> Commute(p.opt, x))
    ensures RecordedInOrder(p) ==> (RecordedInOrder(Emit(p, x)) <==> Commute(p.held, x))
  {
    Assoc(p.past, p.recorded, x);
    if ShownInOrder(p) {
      Overtakes(p.shown, p.opt, p.past + p.recorded, x);
    }
    if RecordedInOrder(p) {
      Overtakes(p.passed, p.held, p.fed, x);
    }
  }

  lemma CloseOrder(p: Pipe)
    requires HoldsTick(p)
    ensures HoldsTick(Close(p))
    ensures ShownInOrder(p) ==> (ShownInOrder(Close(p)) <==> (p.thinking ==> Commute(p.opt, CLOSE_THINKING)))
    ensures RecordedInOrder(p) ==> (RecordedInOrder(Close(p)) <==> (p.thinking ==> p.held == ""))
  {
    EmitOrder(p, CLOSE_THINKING);
    HeldCommutes(p.held, CLOSE_THINKING);
  }

  lemma RecordOrder(p: Pipe, text: string)
    ensures ShownInOrder(Record(p, text)) <==> ShownInOrder(p)
    ensures Record(p, text).passed == p.passed + text && Record(p, text).held == p.held && Record(p, text).fed == p.fed
  {
    var spaced := Normalized(p.tracker.inBlock, text);
    var all := p.opt + spaced;
    var n := OutLength(all, p.recorded + spaced);
    assert all[..n] + all[n..] == all;
    Assoc(p.shown, all[..n], all[n..]);
    Assoc(p.shown, p.opt, spaced);
    Assoc(p.past, p.recorded, spaced);
    SameEnd(p.shown + p.opt, p.past + p.recorded, spaced);
  }

  lemma TextOrder(p: Pipe, delta: string)
    requires HoldsTick(p)
    ensures HoldsTick(TextStep(p, delta))
    ensures ShownInOrder(TextStep(p, delta)) <==> ShownInOrder(Close(p))
    ensures RecordedInOrder(TextStep(p, delta)) <==> RecordedInOrder(Close(p))
  {
    var q := Close(p);
    PassageKeeps(q.tracker.inBlock, q.held + delta);
    Assoc(q.passed, q.held, delta);
    SameEnd(q.passed + q.held, q.fed, delta);
    match PassageOf(q.tracker.inBlock, q.held + delta)
    case Keep(h) =>
    case Go(text, h) =>
      RecordOrder(q.(held := h, fed := q.fed + delta), text);
      Assoc(q.passed, text, h);
  }

  lemma FlushOptOrder(p: Pipe, track: bool)
    ensures ShownInOrder(FlushOpt(p, track)) <==> ShownInOrder(p)
  {
    Assoc(p.shown, Flushed(p.opt), Stuck(p.opt));
    Nil(p.opt);
  }

  lemma FlushHeldOrder(p: Pipe)
    requires HoldsTick(p) && Blank(p.opt)
    ensures ShownInOrder(p) ==> (ShownInOrder(FlushHeld(p)) <==> p.opt == "" || p.held == "")
    ensures RecordedInOrder(FlushHeld(p)) <==> RecordedInOrder(p)
  {
    Assoc(p.past, p.recorded, p.held);
    if ShownInOrder(p) {
      Overtakes(p.shown, p.opt, p.past + p.recorded, p.held);
    }
    HeldCommutes(p.held, p.opt);
    Nil(p.passed + p.held);
  }

  /** One event keeps the order exactly under its condition. */
  lemma StepOrder(p: Pipe, e: Event)
    requires HoldsTick(p)
    ensures HoldsTick(Step(p, e))
    ensures ShownInOrder(p) ==> (ShownInOrder(Step(p, e)) <==> KeepsShown(p, e))
    ensures RecordedInOrder(p) ==> (RecordedInOrder(Step(p, e)) <==> KeepsRecorded(p, e))
  {
    match e
    case Text(delta) =>
      CloseOrder(p);
      TextOrder(p, delta);
    case Think(content) =>
      EmitOrder(p, Thought(p, content));
    case ToolStart =>
      FlushOptOrder(p, false);
      FlushHeldOrder(FlushOpt(p, false));
    case Stop =>
      StopOrder(p);
    case NextResponse =>
      Nil(p.past + p.recorded);
    case Retry =>
      RetryOrder(p);
  }

  lemma StopOrder(p: Pipe)
    requires HoldsTick(p)
    ensures ShownInOrder(p) ==> (ShownInOrder(Step(p, Stop)) <==> KeepsShown(p, Stop))
    ensures RecordedInOrder(p) ==> (RecordedInOrder(Step(p, Stop)) <==> KeepsRecorded(p, Stop))
  {
    CloseOrder(p);
    FlushOptOrder(Close(p), true);
    FlushHeldOrder(FlushOpt(Close(p), true));
    if p.thinking && ShownInOrder(p) && p.opt != "" {
      StopOvertakes(p);
    }
  }

  /** A closing tag in front of text that waits is not made up for by the flush. */
  lemma StopOvertakes(p: Pipe)
    requires p.thinking && ShownInOrder(p) && p.opt != ""
    ensures ShownInOrder(Step(p, Stop)) ==> Commute(p.opt, CLOSE_THINKING)
  {
    var o, x, h := p.opt, CLOSE_THINKING, p.held;
    Assoc(p.past, p.recorded + x, h);
    Assoc(p.past, p.recorded, x);
    Assoc(p.past + p.recorded, x, h);
    if Blank(o) {
      Nil(p.shown + x);
      Assoc(p.shown, x, h);
      if ShownInOrder(Step(p, Stop)) {
        Overtakes(p.shown, o, p.past + p.recorded, x + h);
        assert x[0] == '<' && (x + h)[0] == '<';
        MarkedCommutes(o, x + h, c => !IsSpace(c), 0);
      }
    } else {
      Nil(p.shown + x + o + h);
      SameEnd(p.shown + x + o, p.past + p.recorded + x, h);
      Overtakes(p.shown, o, p.past + p.recorded, x);
    }
  }

  lemma RetryOrder(p: Pipe)
    ensures ShownInOrder(p) ==> (ShownInOrder(Step(p, Retry)) <==> p.opt == "")
    ensures RecordedInOrder(p) ==> (RecordedInOrder(Step(p, Retry)) <==> p.held == "")
  {
    Nil(p.past + p.recorded);
    Nil(p.shown);
    Nil(p.passed);
    SameStart(p.shown, p.opt, "");
    SameStart(p.passed, p.held, "");
  }

  /** Shown text is in order after every event of the run. */
  predicate AlwaysShown(es: seq<Event>) {
    es == [] || (AlwaysShown(es[..|es| - 1]) && ShownInOrder(Run(es)))
  }

  predicate AlwaysRecorded(es: seq<Event>) {
    es == [] || (AlwaysRecorded(es[..|es| - 1]) && RecordedInOrder(Run(es)))
  }

  /** Every event of the run finds the buffers as it should. */
  predicate AllKeepShown(es: seq<Event>) {
    es == [] || (AllKeepShown(es[..|es| - 1]) && KeepsShown(Run(es[..|es| - 1]), es[|es| - 1]))
  }

  predicate AllKeepRecorded(es: seq<Event>) {
    es == [] || (AllKeepRecorded(es[..|es| - 1]) && KeepsRecorded(Run(es[..|es| - 1]), es[|es| - 1]))
  }

  /** Shown text never departs from recorded text exactly if nothing is ever
      shown ahead of text the optimizer holds; and recorded text never departs
      from the order in which it was fed exactly if nothing is ever recorded
      ahead of text that waits for a fence. */
  lemma {:induction false} RunInOrderIff(es: seq<Event>)
    ensures AlwaysShown(es) <==> AllKeepShown(es)
    ensures AlwaysRecorded(es) <==> AllKeepRecorded(es)
    ensures HoldsTick(Run(es))
  {
    if es != [] {
      var front, e := es[..|es| - 1], es[|es| - 1];
      RunInOrderIff(front);
      StepOrder(Run(front), e);
      assert front == [] ==> Run(front) == EMPTY;
    }
  }

  /** What happens at once if only text arrives and buffers are empty when
      thoughts begin: such runs are in order whatever the cut. */
  predicate Calm(p: Pipe, e: Event) {
    match e
    case Think(content) => content == "" || p.thinking || (p.opt == "" && p.held == "")
    case ToolStart => Stuck(p.opt) == "" || p.held == ""
    case Stop => Stuck(p.opt) == "" || p.held == ""
    case Retry => p.opt == "" && p.held == ""
    case _ => true
  }

  predicate AllCalm(es: seq<Event>) {
    es == [] || (AllCalm(es[..|es| - 1]) && Calm(Run(es[..|es| - 1]), es[|es| - 1]))
  }

  /** It is enough to look at where thoughts begin, at tool starts, at stops and
      at retries. */
  lemma {:induction false} CalmRunInOrder(es: seq<Event>)
    requires AllCalm(es)
    ensures AllKeepShown(es) && AllKeepRecorded(es)
    ensures Run(es).thinking ==> Run(es).opt == "" && Run(es).held == ""
  {
    if es != [] {
      var p, e := Run(es[..|es| - 1]), es[|es| - 1];
      CalmRunInOrder(es[..|es| - 1]);
      if e.Think? {
        Nil(Thought(p, e.content));
      }
      Nil(CLOSE_THINKING);
    }
  }

  // ---- nothing is lost -------------------------------------------------------------

  /** Whatever the order: every character recorded is shown, waits in the
      optimizer or was deleted by a retry, and every character fed is recorded,
      waits for its fence or was deleted by a retry; and recorded text is what
      was passed on, with newlines put in. */
  ghost predicate Conserved(p: Pipe) {
    && multiset(p.shown) + multiset(p.opt) + multiset(p.unshown) == multiset(p.past) + multiset(p.recorded)
    && multiset(p.passed) + multiset(p.held) + multiset(p.unrecorded) == multiset(p.fed)
    && Spread(p.passed, p.past + p.recorded)
  }

  lemma Moves(a: multiset<char>, b: multiset<char>, c: multiset<char>, d: multiset<char>, x: multiset<char>)
    requires a + b + c == d
    ensures a + x + b + c == d + x
    ensures a + (b + x) + c == d + x
  {
  }

  lemma ThroughMoves(a: multiset<char>, b: multiset<char>, c: multiset<char>, d: multiset<char>, x: multiset<char>,
                     out: multiset<char>, left: multiset<char>)
    requires a + b + c == d && out + left == b + x
    ensures a + out + left + c == d + x
  {
    assert a + out + left + c == a + (out + left) + c;
  }

  lemma SameText(a: string, b: string, c: string, d: string)
    requires a + b == c + d
    ensures multiset(a) + multiset(b) == multiset(c) + multiset(d)
  {
    assert multiset(a + b) == multiset(c + d);
  }

  lemma SpreadMore(passed: string, past: string, recorded: string, x: string, y: string)
    requires Spread(passed, past + recorded) && Spread(x, y)
    ensures Spread(passed + x, past + (recorded + y))
  {
    SpreadAppend(passed, past + recorded, x, y);
    Assoc(past, recorded, y);
  }

  lemma EmitConserves(p: Pipe, x: string)
    requires Conserved(p)
    ensures Conserved(Emit(p, x))
  {
    SpreadSelf(x);
    SpreadMore(p.passed, p.past, p.recorded, x, x);
    var recorded := multiset(p.past) + multiset(p.recorded);
    Moves(multiset(p.shown), multiset(p.opt), multiset(p.unshown), recorded, multiset(x));
    Moves(multiset(p.passed), multiset(p.held), multiset(p.unrecorded), multiset(p.fed), multiset(x));
  }

  lemma RecordConserves(p: Pipe, text: string, held: string, delta: string)
    requires Conserved(p) && p.held + delta == text + held
    ensures Conserved(Record(p.(held := held, fed := p.fed + delta), text))
  {
    var spaced := Normalized(p.tracker.inBlock, text);
    var all := p.opt + spaced;
    var n := OutLength(all, p.recorded + spaced);
    NormalizedSpreads(p.tracker.inBlock, text);
    SpreadMore(p.passed, p.past, p.recorded, text, spaced);
    assert all[..n] + all[n..] == all;
    SameText(all[..n], all[n..], p.opt, spaced);
    ThroughMoves(multiset(p.shown), multiset(p.opt), multiset(p.unshown), multiset(p.past) + multiset(p.recorded),
                 multiset(spaced), multiset(all[..n]), multiset(all[n..]));
    SameText(text, held, p.held, delta);
    ThroughMoves(multiset(p.passed), multiset(p.held), multiset(p.unrecorded), multiset(p.fed),
                 multiset(delta), multiset(text), multiset(held));
  }

  lemma TextConserves(p: Pipe, delta: string)
    requires Conserved(p)
    ensures Conserved(TextStep(p, delta))
  {
    EmitConserves(p, CLOSE_THINKING);
    var q := Close(p);
    PassageKeeps(q.tracker.inBlock, q.held + delta);
    match PassageOf(q.tracker.inBlock, q.held + delta)
    case Keep(h) =>
      Moves(multiset(q.passed), multiset(q.held), multiset(q.unrecorded), multiset(q.fed), multiset(delta));
    case Go(text, h) =>
      RecordConserves(q, text, h, delta);
  }

  lemma FlushConserves(p: Pipe, track: bool)
    requires Conserved(p)
    ensures Conserved(FlushHeld(FlushOpt(p, track)))
  {
    SpreadSelf(p.held);
    SpreadMore(p.passed, p.past, p.recorded, p.held, p.held);
    var q := FlushOpt(p, track);
    assert multiset(q.shown) + multiset(q.opt) == multiset(p.shown) + multiset(p.opt);
    Moves(multiset(q.shown), multiset(q.opt), multiset(p.unshown), multiset(p.past) + multiset(p.recorded),
          multiset(p.held));
  }

  lemma StepConserves(p: Pipe, e: Event)
    requires Conserved(p)
    ensures Conserved(Step(p, e))
  {
    match e
    case Text(delta) =>
      TextConserves(p, delta);
    case Think(content) =>
      EmitConserves(p, Thought(p, content));
    case ToolStart =>
      FlushConserves(p, false);
    case Stop =>
      EmitConserves(p, CLOSE_THINKING);
      FlushConserves(Close(p), true);
    case NextResponse =>
      NextConserves(p);
    case Retry =>
      NextConserves(p);
      RetryConserves(NextStep(p));
  }

  lemma NextConserves(p: Pipe)
    requires Conserved(p)
    ensures Conserved(NextStep(p))
  {
    Nil(p.past + p.recorded);
    assert multiset(p.past + p.recorded) == multiset(p.past) + multiset(p.recorded) + multiset("");
  }

  lemma RetryConserves(p: Pipe)
    requires Conserved(p)
    ensures Conserved(p.(opt := "", held := "", unshown := p.unshown + p.opt, unrecorded := p.unrecorded + p.held))
  {
    assert multiset(p.opt) + multiset(p.unshown) == multiset("") + multiset(p.unshown + p.opt);
    assert multiset(p.held) + multiset(p.unrecorded) == multiset("") + multiset(p.unrecorded + p.held);
  }

  lemma {:induction false} RunConserves(es: seq<Event>)
    ensures Conserved(Run(es))
  {
    if es != [] {
      RunConserves(es[..|es| - 1]);
      StepConserves(Run(es[..|es| - 1]), es[|es| - 1]);
    }
  }

  // ---- no way back ---------------------------------------------------------------

  /** Out of order for good: the screen shows something that is not on record at
      that place, or text was deleted before it was shown. */
  predicate Departed(p: Pipe) {
    !(p.shown <= p.past + p.recorded) || p.unshown != ""
  }

  /** Thoughts begin where no `<` waits in the optimizer. */
  predicate PlainThoughts(es: seq<Event>) {
    es == [] || (PlainThoughts(es[..|es| - 1]) &&
                 (es[|es| - 1].Think? && !Run(es[..|es| - 1]).thinking ==> '<' !in Run(es[..|es| - 1]).opt))
  }

  lemma SizeIsKept(p: Pipe)
    requires Conserved(p)
    ensures |p.shown| + |p.opt| + |p.unshown| == |p.past| + |p.recorded|
  {
    assert |multiset(p.shown) + multiset(p.opt) + multiset(p.unshown)| == |p.shown| + |p.opt| + |p.unshown|;
    assert |multiset(p.past) + multiset(p.recorded)| == |p.past| + |p.recorded|;
  }

  lemma DepartedIsNotInOrder(p: Pipe)
    requires Conserved(p) && Departed(p)
    ensures !ShownInOrder(p)
  {
    SizeIsKept(p);
    assert |p.shown + p.opt| == |p.shown| + |p.opt| && |p.past + p.recorded| == |p.past| + |p.recorded|;
  }

  lemma TotalGrows(p: Pipe, e: Event)
    ensures p.past + p.recorded <= Step(p, e).past + Step(p, e).recorded
    ensures p.shown <= Step(p, e).shown && p.unshown <= Step(p, e).unshown
  {
    ShownGrows(p, e);
    Nil(p.past + p.recorded);
    if !e.NextResponse? && !e.Retry? {
      assert p.recorded <= Step(p, e).recorded;
    }
  }

  lemma PrefixOfShorter(a: string, b: string, c: string)
    requires a <= c && b <= c && |a| <= |b|
    ensures a <= b
  {
    assert forall i :: 0 <= i < |a| ==> a[i] == c[i] == b[i];
  }

  lemma DepartedStays(p: Pipe, e: Event)
    requires Conserved(p) && Departed(p)
    ensures Departed(Step(p, e))
  {
    var q := Step(p, e);
    SizeIsKept(p);
    TotalGrows(p, e);
    if q.shown <= q.past + q.recorded {
      PrefixOfShorter(p.shown, p.past + p.recorded, q.past + q.recorded);
    }
  }

  /** What overtakes waiting text and cannot change places with it is seen at once. */
  lemma OvertakingDeparts(s: string, b: string, x: string, i: nat, mark: char -> bool)
    requires i < |x| && mark(x[i]) && b != "" && forall k :: 0 <= k < |b| ==> !mark(b[k])
    ensures !(s + x <= s + b + x)
  {
    var f := FirstMarked(x, mark, i);
    assert (s + x)[|s| + f] == x[f];
    assert (s + b + x)[|s| + f] == if f < |b| then b[f] else x[f - |b|];
  }

  lemma BreakDeparts(p: Pipe, e: Event)
    requires HoldsTick(p) && ShownInOrder(p) && !KeepsShown(p, e) && (p.thinking ==> p.opt == "")
    requires e.Think? && !p.thinking ==> '<' !in p.opt
    ensures Departed(Step(p, e))
  {
    Nil(CLOSE_THINKING);
    match e
    case Think(content) =>
      Nil(Thought(p, content));
      var out := Thought(p, content);
      if out != "" {
        assert out[0] == '<';
        Assoc(p.past, p.recorded, out);
        OvertakingDeparts(p.shown, p.opt, out, 0, c => c == '<');
      }
      Nil(p.opt);
    case ToolStart => FlushDeparts(p, false);
    case Stop => StopDeparts(p);
    case Text(_) =>
    case NextResponse =>
    case Retry =>
  }

  lemma FlushDeparts(p: Pipe, track: bool)
    requires HoldsTick(p) && ShownInOrder(p) && Stuck(p.opt) != "" && p.held != ""
    ensures Departed(FlushHeld(FlushOpt(p, track)))
  {
    var i :| 0 <= i < |p.held| && p.held[i] == '`';
    Nil(p.shown);
    Assoc(p.past, p.recorded, p.held);
    OvertakingDeparts(p.shown, p.opt, p.held, i, c => !IsSpace(c));
  }

  lemma StopDeparts(p: Pipe)
    requires HoldsTick(p) && ShownInOrder(p) && !KeepsShown(p, Stop) && (p.thinking ==> p.opt == "")
    ensures Departed(Step(p, Stop))
  {
    Nil(CLOSE_THINKING);
    CloseOrder(p);
    FlushDeparts(Close(p), true);
  }

  lemma {:induction false} OpenThoughtWaitsForNothing(es: seq<Event>)
    requires AllKeepShown(es) && PlainThoughts(es)
    ensures var p := Run(es); p.thinking ==> p.opt == ""
  {
    if es != [] {
      var p, e := Run(es[..|es| - 1]), es[|es| - 1];
      OpenThoughtWaitsForNothing(es[..|es| - 1]);
      if e.Think? && e.content != "" && !p.thinking {
        var out := Thought(p, e.content);
        assert out[0] == '<';
        MarkedCommutes(p.opt, out, c => c == '<', 0);
      }
    }
  }

  /** At any point of any run in which no thought begins where a `<` waits, what
      is shown and what the optimizer holds is what is recorded exactly if
      every event so far kept the order: there is no way back. */
  lemma {:induction false} InOrderNowIff(es: seq<Event>)
    requires PlainThoughts(es)
    ensures ShownInOrder(Run(es)) <==> AllKeepShown(es)
    ensures !AllKeepShown(es) ==> Departed(Run(es))
  {
    RunInOrderIff(es);
    if es != [] {
      var front, e := es[..|es| - 1], es[|es| - 1];
      var p := Run(front);
      InOrderNowIff(front);
      RunInOrderIff(front);
      RunConserves(front);
      RunConserves(es);
      if AllKeepShown(front) {
        OpenThoughtWaitsForNothing(front);
        if !KeepsShown(p, e) {
          BreakDeparts(p, e);
          DepartedIsNotInOrder(Run(es));
        }
      } else {
        DepartedStays(p, e);
        DepartedIsNotInOrder(Run(es));
      }
    }
  }

  /** After a stop, in an ordered run: everything recorded is shown exactly if
      the optimizer is left with nothing; it is left with white space at most,
      and nothing waits for a fence. */
  lemma AfterStop(es: seq<Event>)
    requires es != [] && es[|es| - 1] == Stop && AllKeepShown(es)
    ensures var p := Run(es);
            && (p.shown == p.past + p.recorded <==> p.opt == "")
            && Blank(p.opt) && p.held == "" && !p.thinking && p.shown + p.opt == p.past + p.recorded
  {
    RunInOrderIff(es);
    var p := Run(es);
    SameStart(p.shown, p.opt, "");
    Nil(p.shown);
  }

  predicate OneResponse(es: seq<Event>) {
    forall e :: e in es ==> !e.NextResponse? && !e.Retry?
  }

  lemma {:induction false} PastStays(before: seq<Event>, es: seq<Event>)
    requires OneResponse(es)
    ensures Run(before + es).past == Run(before).past
    ensures Run(before).shown <= Run(before + es).shown
  {
    if es == [] {
      Nil(before);
    } else {
      assert (before + es)[..|before + es| - 1] == before + es[..|es| - 1];
      assert es[|es| - 1] in es;
      PastStays(before, es[..|es| - 1]);
      ShownGrows(Run(before + es[..|es| - 1]), es[|es| - 1]);
    }
  }

  lemma ShownGrows(p: Pipe, e: Event)
    ensures p.shown <= Step(p, e).shown
  {
  }

  /** What a response shows: it begins with the white space the response before
      left in the optimizer, and lacks what it leaves there itself. */
  lemma ResponseShows(before: seq<Event>, es: seq<Event>)
    requires before != [] && before[|before| - 1] == NextResponse && OneResponse(es) && AllKeepShown(before + es)
    ensures Run(before).shown <= Run(before + es).shown
    ensures var start, end := Run(before), Run(before + es);
            end.shown[|start.shown|..] + end.opt == start.opt + end.recorded
  {
    PastStays(before, es);
    RunInOrderIff(before + es);
    KeepPrefix(before, es);
    RunInOrderIff(before);
    var start, end := Run(before), Run(before + es);
    var here := end.shown[|start.shown|..];
    assert end.shown == start.shown + here;
    Nil(start.past);
    assert start.recorded == "";
    Assoc(start.shown, here, end.opt);
    Assoc(start.shown, start.opt, end.recorded);
    SameStart(start.shown, here + end.opt, start.opt + end.recorded);
  }

  lemma {:induction false} KeepPrefix(before: seq<Event>, es: seq<Event>)
    requires AllKeepShown(before + es)
    ensures AllKeepShown(before)
  {
    if es == [] {
      Nil(before);
    } else {
      assert (before + es)[..|before + es| - 1] == before + es[..|es| - 1];
      KeepPrefix(before, es[..|es| - 1]);
    }
  }

  // ---- special texts ------------------------------------------------------------------

  /** A text that takes another route: reasoning tags, an imitated tool call or
      a visualization fence. */
  predicate Diverts(k: Kinds, p: Pipe, e: Event) {
    e.Text? &&
    (|| ContainsAny(e.delta, k.reasoning) || FakeToolOpens(k, p.held + e.delta)
     || match PassageOf(p.tracker.inBlock, p.held + e.delta)
        case Keep(_) => false
        case Go(text, _) => Visualizes(k, Normalized(p.tracker.inBlock, text)))
  }

  lemma DivertsIsLoud(k: Kinds, p: Pipe, delta: string)
    requires Diverts(k, p, Text(delta))
    ensures Loud(k, p.held + delta)
  {
    var all := p.held + delta;
    if ContainsAny(delta, k.reasoning) {
      LoudWord(k, delta, k.reasoning);
      assert all[|p.held|..|all|] == delta;
      LoudPart(k, all, |p.held|, |all|);
    } else if FakeToolOpens(k, all) {
      LoudFakeTool(k, all);
    } else {
      PassageKeeps(p.tracker.inBlock, all);
      var text := PassageOf(p.tracker.inBlock, all).text;
      NormalizedSpreads(p.tracker.inBlock, text);
      LoudVisualization(k, Normalized(p.tracker.inBlock, text));
      LoudSpread(k, text, Normalized(p.tracker.inBlock, text));
      assert all[0..|text|] == text;
      LoudPart(k, all, 0, |text|);
    }
  }

  /** All text of a run, thoughts left out. */
  function Words(es: seq<Event>): string {
    if es == [] then ""
    else Words(es[..|es| - 1]) + if es[|es| - 1].Text? then es[|es| - 1].delta else ""
  }

  /** `a` ends with `b`. */
  predicate EndsWith(a: string, b: string) {
    |b| <= |a| && a[|a| - |b|..] == b
  }

  lemma EndMore(a: string, h: string, delta: string, t: string, h': string)
    requires EndsWith(a, h) && h + delta == t + h'
    ensures EndsWith(a + delta, h') && EndsWith(a + delta, h + delta)
  {
    var a0 := a[..|a| - |h|];
    assert a == a0 + h;
    Assoc(a0, h, delta);
    Assoc(a0, t, h');
    assert (a0 + (h + delta))[|a0|..] == h + delta;
    assert (a0 + t + h')[|a0 + t|..] == h';
  }

  /** What waits for a fence is the end of the text so far, even across
      thoughts and responses. */
  lemma {:induction false} HeldIsEnd(es: seq<Event>)
    ensures EndsWith(Words(es), Run(es).held)
  {
    if es != [] {
      var front, e := es[..|es| - 1], es[|es| - 1];
      HeldIsEnd(front);
      Nil(Words(front));
      if e.Text? {
        var p := Run(front);
        PassageKeeps(p.tracker.inBlock, p.held + e.delta);
        match PassageOf(p.tracker.inBlock, p.held + e.delta)
        case Keep(h) =>
          Nil(h);
          EndMore(Words(front), p.held, e.delta, "", h);
        case Go(text, h) =>
          EndMore(Words(front), p.held, e.delta, text, h);
      }
    }
  }

  lemma {:induction false} WordsGrow(es: seq<Event>, n: nat)
    requires n <= |es|
    ensures Words(es[..n]) <= Words(es)
  {
    if n == |es| {
      assert es[..n] == es;
    } else {
      assert es[..|es| - 1][..n] == es[..n];
      WordsGrow(es[..|es| - 1], n);
    }
  }

  /** What a text delta is tested for stands together in the text of the run. */
  lemma PartOfWords(es: seq<Event>, i: nat) returns (a: nat, b: nat)
    requires i < |es| && es[i].Text?
    ensures a <= b <= |Words(es)| && Words(es)[a..b] == Run(es[..i]).held + es[i].delta
  {
    var h, delta := Run(es[..i]).held, es[i].delta;
    HeldIsEnd(es[..i]);
    Nil(h + delta);
    EndMore(Words(es[..i]), h, delta, "", h + delta);
    assert es[..i + 1][..i] == es[..i];
    WordsGrow(es, i + 1);
    b := |Words(es[..i]) + delta|;
    a := b - |h + delta|;
    PrefixPart(Words(es), Words(es[..i]) + delta, a, b);
  }

  lemma PrefixPart(w: string, v: string, a: nat, b: nat)
    requires v <= w && a <= b == |v|
    ensures w[a..b] == v[a..]
  {
  }

  /** Without special text in it, no run is diverted. */
  lemma QuietRun(k: Kinds, es: seq<Event>, i: nat)
    requires i < |es| && es[i].Text? && Loud(k, Run(es[..i]).held + es[i].delta)
    ensures Loud(k, Words(es))
  {
    var a, b := PartOfWords(es, i);
    LoudPart(k, Words(es), a, b);
  }

  // ---- three runs ---------------------------------------------------------------------

  /** A thought begins while plain text waits: exactly then it overtakes it. */
  lemma ThoughtOvertakesIff(p: Pipe, content: string)
    requires content != "" && !p.thinking && '<' !in p.opt && '<' !in p.held
    ensures KeepsShown(p, Think(content)) <==> p.opt == ""
    ensures KeepsRecorded(p, Think(content)) <==> p.held == ""
  {
    var out := Thought(p, content);
    assert out[0] == '<';
    MarkedCommutes(p.opt, out, c => c == '<', 0);
    MarkedCommutes(p.held, out, c => c == '<', 0);
  }

  lemma NoTicks(p: Pipe, t: string)
    requires !p.thinking && p.held == "" && '`' !in t
    ensures TextStep(p, t) == Record(p.(fed := p.fed + t), t) && Normalized(p.tracker.inBlock, t) == t
  {
    assert "" + t == t;
    forall j: nat
      ensures !At(t, FENCE, j)
    {
      AtStarts(t, FENCE, j);
    }
    FindNone(t, FENCE, 0);
    assert t != "" ==> t[|t| - 1] in t;
  }

  lemma AtStarts(s: string, pat: string, i: nat)
    requires pat != ""
    ensures At(s, pat, i) ==> pat[0] in s
  {
    if At(s, pat, i) {
      assert s[i + 0] == pat[0];
    }
  }

  lemma {:induction false} BlankTrims(b: string)
    requires Blank(b)
    ensures TrimRight(b) == "" && AfterLastBreak(b) == |b|
  {
    if b != "" {
      BlankTrims(b[..|b| - 1]);
    }
  }

  lemma WhiteSpaceWaits(b: string)
    requires Blank(b)
    ensures var p := Step(EMPTY, Text(b));
            p.recorded == b && p.shown == "" && p.opt == b && p.past == "" && p.held == "" && !p.thinking
  {
    BlankTrims(b);
    Nil(b);
    assert '`' !in b;
    NoTicks(EMPTY, b);
    assert b[..0] == "" && b[0..] == b;
  }

  lemma NothingToFlush(p: Pipe, e: Event)
    requires Blank(p.opt) && p.held == "" && !p.thinking && (e == ToolStart || e == Stop)
    ensures var q := Step(p, e);
            && q.recorded == p.recorded && q.shown == p.shown && q.opt == p.opt && q.past == p.past
            && q.held == "" && !q.thinking
  {
    Nil(p.recorded);
    Nil(p.shown);
  }

  /** White space alone is recorded and not shown, by no flush either. */
  lemma WhiteSpaceStays(b: string)
    requires Blank(b)
    ensures var p := Step(Step(Step(EMPTY, Text(b)), ToolStart), Stop);
            p.recorded == b && p.shown == "" && p.opt == b && p.past == "" && p.held == "" && !p.thinking
  {
    WhiteSpaceWaits(b);
    var p := Step(EMPTY, Text(b));
    NothingToFlush(p, ToolStart);
    NothingToFlush(Step(p, ToolStart), Stop);
  }

  /** And the next response shows it, in front of its own text: a sentence takes
      along what the optimizer holds. */
  lemma WhiteSpaceComesLater(p: Pipe, t: string)
    requires p == NextStep(Step(Step(Step(EMPTY, Text(p.opt)), ToolStart), Stop)) && Blank(p.opt)
    requires '`' !in t && EndsWell(t)
    ensures var q := Step(p, Text(t));
            q.recorded == t && q.shown == p.opt + t && q.opt == "" && q.past == p.opt
  {
    WhiteSpaceStays(p.opt);
    Nil(p.opt);
    SentenceGoesOut(p, t, p.opt + t);
  }

  lemma SentenceGoesOut(p: Pipe, t: string, out: string)
    requires !p.thinking && p.held == "" && p.recorded == "" && p.shown == "" && '`' !in t && EndsWell(t)
    requires out == p.opt + t
    ensures var q := TextStep(p, t);
            q.recorded == t && q.shown == out && q.opt == "" && q.past == p.past
  {
    NoTicks(p, t);
    Nil(t);
    Nil(out);
    EndGoesOut(out, t);
  }

  predicate EndsWell(t: string) {
    t != "" && (t[|t| - 1] == '.' || t[|t| - 1] == '!' || t[|t| - 1] == '?' || t[|t| - 1] == ':')
  }

  lemma EndGoesOut(all: string, recorded: string)
    requires EndsWell(all) && EndsWell(recorded)
    ensures OutLength(all, recorded) == |all| && all[..|all|] == all && all[|all|..] == ""
  {
    var m, n := |all| - 1, ReadyLength(all);
    BreakIsLast(all);
    assert !IsSpace(all[m]) && n <= m;
    assert all[n..][m - n] == all[m];
    assert TrimRight(recorded) == recorded;
  }

  // ---- what one text sends ----------------------------------------------------------

  /** `text` ends a sentence, white space behind it aside. */
  ghost predicate SentenceBehind(text: string) {
    exists front, c, space: string ::
      text == front + [c] + space && Blank(space) && (c == '.' || c == '!' || c == '?' || c == ':')
  }

  lemma EndsSentenceIff(text: string)
    ensures EndsSentence(text) <==> SentenceBehind(text)
  {
    TrimRightSpec(text);
    var t := TrimRight(text);
    if EndsSentence(text) {
      var n := |t| - 1;
      assert text == t[..n] + [t[n]] + text[|t|..];
    }
    if SentenceBehind(text) {
      var front, c, space: string :|
        text == front + [c] + space && Blank(space) && (c == '.' || c == '!' || c == '?' || c == ':');
      TrimRightIs(front + [c], space);
    }
  }

  /** What the optimizer keeps of its text when more was put on record: at the
      end of a sentence nothing but white space, otherwise what words leave. */
  lemma OptimizedKeeps(p: Pipe, spaced: string)
    ensures var all, q := p.opt + spaced, Optimized(p, spaced);
            && q.shown + q.opt == p.shown + all
            && (SentenceBehind(p.recorded) ==> Blank(q.opt))
            && (!SentenceBehind(p.recorded) ==> q.opt == all[ReadyLength(all)..])
  {
    EndsSentenceIff(p.recorded);
    var all := p.opt + spaced;
    var n := OutLength(all, p.recorded);
    assert all[..n] + all[n..] == all;
    Assoc(p.shown, all[..n], all[n..]);
  }

  /** What a thought shows and records: itself, the first one behind an opening tag. */
  lemma ThoughtShows(p: Pipe, content: string)
    ensures var q := Step(p, Think(content));
            var out := if content == "" then "" else if p.thinking then content else "<thinking-data>" + content;
            && q.shown == p.shown + out && q.recorded == p.recorded + out
            && (q.thinking <==> p.thinking || content != "")
            && q.opt == p.opt && q.held == p.held && q.tracker == p.tracker
  {
  }

  /** An open thought is closed by the next text and by the end of the response. */
  lemma ThoughtCloses(p: Pipe, delta: string)
    ensures !Step(p, Text(delta)).thinking && !Step(p, Stop).thinking
    ensures p.shown + (if p.thinking then "</thinking-data>" else "") <= Step(p, Text(delta)).shown
    ensures p.recorded + (if p.thinking then "</thinking-data>" else "") <= Step(p, Text(delta)).recorded
    ensures p.shown + (if p.thinking then "</thinking-data>" else "") <= Step(p, Stop).shown
    ensures Step(p, Stop).recorded == p.recorded + (if p.thinking then "</thinking-data>" else "") + p.held
  {
    Nil(p.shown);
    Nil(p.recorded);
  }
}
