/** One tool call (`execute_single_tool` in app/tool_execution.py) as a sequence
    of events: feedback before, the call, its result, the delay, feedback after.
    What the tool does and what the user sends are arbitrary. */
module ToolExecution {
  import opened Strings
  import opened Feedback
  import Backoff
  import ToolStream

  type Output = ToolStream.ToolOutput

  /** Where something still raises once the result is there: while it is shown,
      in the delay, or after so many items of feedback. */
  datatype Trouble =
    | Nowhere
    | Showing(error: string)
    | Waiting(error: string)
    | Draining(error: string, handled: nat)

  /** The call fails (a timeout or an exception), or returns. */
  datatype Attempt = Fails(error: string) | Returns(result: Output, trouble: Trouble)

  /** The feedback gone through before the trouble. */
  function Drained(w: Trouble, after: seq<Item>): seq<Item> {
    match w
    case Nowhere => after
    case Showing(_) => []
    case Waiting(_) => []
    case Draining(_, n) => if n <= |after| then after[..n] else after
  }

  /** What is raised, if the call gets that far. */
  function Raised(w: Trouble, after: seq<Item>): Option<string> {
    match w
    case Nowhere => None
    case Showing(e) => Some(e)
    case Waiting(e) => Some(e)
    case Draining(e, n) => if n <= |after| && !AnyStops(after[..n]) then Some(e) else None
  }

  datatype Event =
    | Processing
    | Started
    | Notice
    | Delivered(message: string)
    | StreamEnd
    | Result(id: string, output: Output)
    | Display
    | ForModel(id: string, output: Output)

  /** The texts put into results. */
  datatype Texts = Texts(skipped: string, advice: string)

  function ErrorOutput(t: Texts, error: string): Output {
    ToolStream.TextOutput("ERROR: " + error + t.advice)
  }

  const SHORT := 80

  function Shortened(s: string): (r: string)
    ensures r <= s && |r| == if |s| < 80 then |s| else 80
  {
    if |s| > SHORT then s[..SHORT] else s
  }

  function Messages(fbs: seq<Item>): seq<string> {
    if fbs == [] then []
    else if fbs[0].Directive? then [fbs[0].message] + Messages(fbs[1..])
    else Messages(fbs[1..])
  }

  // ---- the events of a call -----------------------------------------------------------

  /** What handling feedback yields. */
  function DrainScript(fbs: seq<Item>): seq<Event> {
    if fbs == [] then []
    else if Stops(fbs[0]) then [Notice, StreamEnd]
    else [Notice, Delivered(Shortened(fbs[0].message))] + DrainScript(fbs[1..])
  }

  function ErrorScript(id: string, o: Output): seq<Event> {
    [Result(id, o), Display, ForModel(id, o)]
  }

  function SentScript(id: string, result: Output, w: Trouble): seq<Event> {
    if w.Showing? then [] else [Display, ForModel(id, result)]
  }

  function RaisedScript(id: string, t: Texts, error: Option<string>): seq<Event> {
    match error case None => [] case Some(e) => ErrorScript(id, ErrorOutput(t, e))
  }

  /** What running the tool yields. */
  function RunScript(id: string, t: Texts, attempt: Attempt, after: seq<Item>): seq<Event> {
    match attempt
    case Fails(error) => ErrorScript(id, ErrorOutput(t, error))
    case Returns(result, w) =>
      [Result(id, result)] + SentScript(id, result, w) + DrainScript(Drained(w, after)) +
      RaisedScript(id, t, Raised(w, after))
  }

  /** All that a call yields, in order. */
  function Script(id: string, t: Texts, before: seq<Item>, attempt: Attempt, after: seq<Item>): seq<Event> {
    [Processing, Started] + DrainScript(before) +
    if AnyStops(before) then []
    else if before != [] then [Result(id, ToolStream.TextOutput(t.skipped))]
    else RunScript(id, t, attempt, after)
  }

  class ToolExecContext {
    const id: string
    const texts: Texts
    var deferredFeedback: seq<string>
    var feedbackReceived: bool
    var shouldStopStream: bool
    var delay: real
    /** What has been yielded. */
    var events: seq<Event>

    constructor (id: string, texts: Texts, delay: real)
      ensures this.id == id && this.texts == texts && this.delay == delay
      ensures deferredFeedback == [] && !feedbackReceived && !shouldStopStream && events == []
    {
      this.id, this.texts, this.delay := id, texts, delay;
      deferredFeedback, feedbackReceived, shouldStopStream, events := [], false, false, [];
    }

    method Yield(e: Event)
      modifies this`events
      ensures events == old(events) + [e]
    {
      events := events + [e];
    }

    /** Goes through drained feedback up to the first item that stops; what
        comes after that one is dropped. */
    method Drain(fbs: seq<Item>)
      requires !shouldStopStream
      modifies this`events, this`deferredFeedback, this`feedbackReceived, this`shouldStopStream
      ensures shouldStopStream == AnyStops(fbs)
      ensures deferredFeedback == old(deferredFeedback) + Messages(BeforeStop(fbs))
      ensures feedbackReceived == (old(feedbackReceived) || BeforeStop(fbs) != [])
      ensures events == old(events) + DrainScript(fbs)
    {
      ghost var script := events + DrainScript(fbs);
      ghost var deferred := deferredFeedback + Messages(BeforeStop(fbs));
      for i := 0 to |fbs|
        invariant !shouldStopStream && AnyStops(fbs) == AnyStops(fbs[i..])
        invariant events + DrainScript(fbs[i..]) == script
        invariant deferredFeedback + Messages(BeforeStop(fbs[i..])) == deferred
        invariant (feedbackReceived || BeforeStop(fbs[i..]) != []) == (old(feedbackReceived) || BeforeStop(fbs) != [])
      {
        var fb := fbs[i];
        DrainNext(events, deferredFeedback, fbs, i);
        Yield(Notice);
        if Stops(fb) {
          Yield(StreamEnd);
          shouldStopStream := true;
          return;
        }
        deferredFeedback := deferredFeedback + [fb.message];
        Yield(Delivered(Shortened(fb.message)));
        feedbackReceived := true;
      }
      Nil(events);
      Nil(deferredFeedback);
    }

    /** The three events of an error. */
    method Fail(error: string)
      modifies this`events
      ensures events == old(events) + ErrorScript(id, ErrorOutput(texts, error))
    {
      var o := ErrorOutput(texts, error);
      Yield(Result(id, o));
      Yield(Display);
      Yield(ForModel(id, o));
    }

    /** The whole call; `before` is drained if there is a conversation, `after`
        once a result was shown. */
    method ExecuteSingleTool(conversation: bool, before: seq<Item>, attempt: Attempt, after: seq<Item>)
      requires events == [] && deferredFeedback == [] && !feedbackReceived && !shouldStopStream
      modifies this
      ensures var first := if conversation then before else [];
              var p := Plan(id, texts, first, attempt, after);
              && events == Script(id, texts, first, attempt, after)
              && deferredFeedback == p.deferred && shouldStopStream == p.stop
              && feedbackReceived == (p.deferred != [])
              && delay == (if p.waited then Backoff.Decay(old(delay)) else old(delay))
    {
      var first := if conversation then before else [];
      Yield(Processing);
      Yield(Started);
      assert events == [Processing, Started];
      Nil(Messages(BeforeStop(first)));
      Drain(first);
      Go(first, attempt, after);
    }

    /** Feedback that came first stops the call or takes its place. */
    method Go(first: seq<Item>, attempt: Attempt, after: seq<Item>)
      requires events == [Processing, Started] + DrainScript(first)
      requires deferredFeedback == Messages(BeforeStop(first)) && shouldStopStream == AnyStops(first)
      requires feedbackReceived == (BeforeStop(first) != [])
      modifies this
      ensures var p := Plan(id, texts, first, attempt, after);
              && events == Script(id, texts, first, attempt, after)
              && deferredFeedback == p.deferred && shouldStopStream == p.stop
              && feedbackReceived == (p.deferred != [])
              && delay == (if p.waited then Backoff.Decay(old(delay)) else old(delay))
    {
      MessagesAreAll(first);
      if shouldStopStream {
        Nil(events);
      } else if feedbackReceived {
        Yield(Result(id, ToolStream.TextOutput(texts.skipped)));
      } else {
        RunTool(attempt, after);
      }
    }

    method RunTool(attempt: Attempt, after: seq<Item>)
      requires deferredFeedback == [] && !feedbackReceived && !shouldStopStream
      modifies this
      ensures var p := Plan(id, texts, [], attempt, after);
              && events == old(events) + RunScript(id, texts, attempt, after)
              && deferredFeedback == p.deferred && shouldStopStream == p.stop
              && feedbackReceived == (p.deferred != [])
              && delay == (if p.waited then Backoff.Decay(old(delay)) else old(delay))
    {
      match attempt
      case Fails(error) =>
        Fail(error);
      case Returns(result, w) =>
        Nil(Messages(BeforeStop(Drained(w, after))));
        Show(result, w, after);
        if Raised(w, after).Some? {
          Fail(Raised(w, after).value);
        } else {
          Nil(events);
        }
    }

    /** The result, and what follows it until something raises. */
    method Show(result: Output, w: Trouble, after: seq<Item>)
      requires deferredFeedback == [] && !feedbackReceived && !shouldStopStream
      modifies this
      ensures var drained := Drained(w, after);
              && events == old(events)
                 + ([Result(id, result)] + SentScript(id, result, w) + DrainScript(drained))
              && deferredFeedback == Messages(BeforeStop(drained)) && shouldStopStream == AnyStops(drained)
              && feedbackReceived == (deferredFeedback != [])
      ensures delay == if w.Showing? || w.Waiting? then old(delay) else Backoff.Decay(old(delay))
    {
      ghost var es := events;
      Yield(Result(id, result));
      ShownSoFar(es, id, result, w, Drained(w, after));
      if w.Showing? {
        return;
      }
      Yield(Display);
      Yield(ForModel(id, result));
      if w.Waiting? {
        return;
      }
      delay := Backoff.Decay(delay);
      MessagesAreAll(Drained(w, after));
      Nil(Messages(BeforeStop(Drained(w, after))));
      Drain(Drained(w, after));
    }
  }

  lemma ShownSoFar(es: seq<Event>, id: string, result: Output, w: Trouble, drained: seq<Item>)
    ensures var script := [Result(id, result)] + SentScript(id, result, w) + DrainScript(drained);
            && (w.Showing? && drained == [] ==> es + script == es + [Result(id, result)])
            && (!w.Showing? ==>
                  es + script == es + [Result(id, result)] + [Display] + [ForModel(id, result)] + DrainScript(drained))
  {
    if !w.Showing? {
      Assoc(es, [Result(id, result), Display, ForModel(id, result)], DrainScript(drained));
    }
  }

  lemma DrainNext(es: seq<Event>, deferred: seq<string>, fbs: seq<Item>, i: nat)
    requires i < |fbs|
    ensures AnyStops(fbs[i..]) <==> Stops(fbs[i]) || AnyStops(fbs[i + 1..])
    ensures Stops(fbs[i]) ==>
              && es + DrainScript(fbs[i..]) == es + [Notice] + [StreamEnd]
              && deferred + Messages(BeforeStop(fbs[i..])) == deferred && BeforeStop(fbs[i..]) == []
    ensures !Stops(fbs[i]) ==>
              && es + DrainScript(fbs[i..])
                 == es + [Notice] + [Delivered(Shortened(fbs[i].message))] + DrainScript(fbs[i + 1..])
              && deferred + Messages(BeforeStop(fbs[i..]))
                 == deferred + [fbs[i].message] + Messages(BeforeStop(fbs[i + 1..]))
              && BeforeStop(fbs[i..]) != []
  {
    var rest := fbs[i..];
    assert rest[0] == fbs[i] && rest[1..] == fbs[i + 1..];
    if !Stops(fbs[i]) {
      var b := BeforeStop(rest);
      assert b == [fbs[i]] + BeforeStop(rest[1..]);
      assert b[0] == fbs[i] && b[1..] == BeforeStop(rest[1..]);
    }
  }

  lemma MessagesAreAll(fbs: seq<Item>)
    ensures |Messages(BeforeStop(fbs))| == |BeforeStop(fbs)|
    ensures !AnyStops(fbs) ==> BeforeStop(fbs) == fbs
  {
    AllDirectives(BeforeStop(fbs));
  }

  lemma {:induction false} AllDirectives(fbs: seq<Item>)
    requires forall fb :: fb in fbs ==> fb.Directive?
    ensures |Messages(fbs)| == |fbs|
  {
    if fbs != [] {
      assert fbs[0] in fbs;
      AllDirectives(fbs[1..]);
    }
  }

  // ---- what comes of a call ---------------------------------------------------------

  /** Something raises behind the result: while it is shown, in the delay, or
      in the drain before any message that stops. */
  predicate GoesWrong(w: Trouble, after: seq<Item>) {
    || w.Showing? || w.Waiting?
    || (w.Draining? && w.handled <= |after| && forall fb :: fb in after[..w.handled] ==> !Stops(fb))
  }

  /** Deferred is the feedback up to the first message that stops, as far as the
      drain comes; without a drain there is none. */
  predicate IsDeferred(attempt: Attempt, after: seq<Item>, deferred: seq<string>, stop: bool) {
    if attempt.Returns? && (attempt.trouble.Nowhere? || attempt.trouble.Draining?) then
      var w := attempt.trouble;
      var n := if w.Nowhere? || w.handled > |after| then |after| else w.handled;
      deferred == Messages(BeforeStop(after[..n])) && stop == AnyStops(after[..n])
    else deferred == [] && !stop
  }

  lemma GoesWrongIff(w: Trouble, after: seq<Item>)
    ensures GoesWrong(w, after) <==> Raised(w, after).Some?
    ensures GoesWrong(w, after) ==> Raised(w, after) == Some(w.error)
    ensures after[..|after|] == after
  {
    if w.Draining? && w.handled <= |after| {
      AnyStopsIff(after[..w.handled]);
    }
  }

  datatype Effect = Effect(
    results: seq<(string, Output)>, sent: seq<(string, Output)>, deferred: seq<string>, stop: bool, waited: bool)

  /** Exactly one result is recorded, unless the user stopped the call first or
      something raised behind the result: then there is none, or two for one
      call. If the call was made at all, the model is sent every result, except
      one whose showing raised. */
  function Plan(id: string, t: Texts, before: seq<Item>, attempt: Attempt, after: seq<Item>): (p: Effect)
    ensures p.results == [] <==> AnyStops(before)
    ensures |p.results| <= 2
    ensures |p.results| == 2 <==> before == [] && attempt.Returns? && GoesWrong(attempt.trouble, after)
    ensures before == [] ==>
              && p.results != []
              && p.results[0] == (id, if attempt.Fails? then ErrorOutput(t, attempt.error) else attempt.result)
              && (|p.results| == 2 ==> p.results[1] == (id, ErrorOutput(t, attempt.trouble.error)))
              && p.sent == if attempt.Returns? && attempt.trouble.Showing? then p.results[1..] else p.results
    ensures before != [] ==> p.sent == [] && p.deferred == Messages(BeforeStop(before)) && p.stop == AnyStops(before)
    ensures before == [] ==> IsDeferred(attempt, after, p.deferred, p.stop)
  {
    var first := Messages(BeforeStop(before));
    if AnyStops(before) then Effect([], [], first, true, false)
    else if before != [] then Effect([(id, ToolStream.TextOutput(t.skipped))], [], first, false, false)
    else match attempt
      case Fails(error) => Effect([(id, ErrorOutput(t, error))], [(id, ErrorOutput(t, error))], [], false, false)
      case Returns(result, w) =>
        GoesWrongIff(w, after);
        var failed := match Raised(w, after) case None => [] case Some(e) => [(id, ErrorOutput(t, e))];
        var drained := Drained(w, after);
        Effect([(id, result)] + failed, (if w.Showing? then [] else [(id, result)]) + failed,
               Messages(BeforeStop(drained)), AnyStops(drained), !w.Showing? && !w.Waiting?)
  }

  function AllShortened(ss: seq<string>): seq<string> {
    if ss == [] then [] else [Shortened(ss[0])] + AllShortened(ss[1..])
  }

  /** `Broken`: something was yielded after the end of the stream. */
  datatype Phase = Running | Ended | Broken

  /** What events add up to: the results recorded, what goes to the model, the
      feedback confirmed to the user, and where the stream is. */
  datatype Log = Log(results: seq<(string, Output)>, sent: seq<(string, Output)>, delivered: seq<string>, phase: Phase)

  function Add(l: Log, e: Event): Log {
    var l := if l.phase.Running? then l else l.(phase := Broken);
    match e
    case Result(id, output) => l.(results := l.results + [(id, output)])
    case ForModel(id, output) => l.(sent := l.sent + [(id, output)])
    case Delivered(m) => l.(delivered := l.delivered + [m])
    case StreamEnd => if l.phase.Running? then l.(phase := Ended) else l
    case _ => l
  }

  function AddAll(l: Log, es: seq<Event>): Log
    decreases |es|
  {
    if es == [] then l else AddAll(Add(l, es[0]), es[1..])
  }

  lemma {:induction false} AddAllAppend(l: Log, a: seq<Event>, b: seq<Event>)
    ensures AddAll(l, a + b) == AddAll(AddAll(l, a), b)
    decreases |a|
  {
    if a == [] {
      Nil(b);
    } else {
      assert (a + b)[0] == a[0] && (a + b)[1..] == a[1..] + b;
      AddAllAppend(Add(l, a[0]), a[1..], b);
    }
  }

  lemma AddOne(l: Log, a: Event)
    ensures AddAll(l, [a]) == Add(l, a)
  {
    assert [a][1..] == [];
    assert AddAll(Add(l, a), []) == Add(l, a);
  }

  lemma AddTwo(l: Log, a: Event, b: Event)
    ensures AddAll(l, [a, b]) == Add(Add(l, a), b)
  {
    assert [a, b][1..] == [b];
    AddOne(Add(l, a), b);
  }

  lemma AddThree(l: Log, a: Event, b: Event, c: Event)
    ensures AddAll(l, [a, b, c]) == Add(Add(Add(l, a), b), c)
  {
    assert [a, b, c][1..] == [b, c];
    AddTwo(Add(l, a), b, c);
  }

  lemma {:induction false} DrainAddsUp(l: Log, fbs: seq<Item>)
    requires l.phase.Running?
    ensures AddAll(l, DrainScript(fbs))
            == l.(delivered := l.delivered + AllShortened(Messages(BeforeStop(fbs))),
                  phase := if AnyStops(fbs) then Ended else Running)
    decreases |fbs|
  {
    if fbs == [] {
      Nil(l.delivered);
    } else if Stops(fbs[0]) {
      AddTwo(l, Notice, StreamEnd);
      Nil(l.delivered);
    } else {
      var m := Shortened(fbs[0].message);
      AddAllAppend(l, [Notice, Delivered(m)], DrainScript(fbs[1..]));
      AddTwo(l, Notice, Delivered(m));
      DrainAddsUp(l.(delivered := l.delivered + [m]), fbs[1..]);
      var b := BeforeStop(fbs);
      assert b[0] == fbs[0] && b[1..] == BeforeStop(fbs[1..]);
      Assoc(l.delivered, [m], AllShortened(Messages(BeforeStop(fbs[1..]))));
      AllShortenedNext(fbs[0].message, Messages(BeforeStop(fbs[1..])));
    }
  }

  lemma AllShortenedNext(s: string, ss: seq<string>)
    ensures AllShortened([s] + ss) == [Shortened(s)] + AllShortened(ss)
  {
    assert ([s] + ss)[1..] == ss;
  }

  lemma ErrorAddsUp(l: Log, id: string, o: Output)
    requires l.phase.Running?
    ensures AddAll(l, ErrorScript(id, o)) == l.(results := l.results + [(id, o)], sent := l.sent + [(id, o)])
  {
    AddThree(l, Result(id, o), Display, ForModel(id, o));
  }

  lemma ShownAddsUp(l: Log, id: string, result: Output, w: Trouble)
    requires l == Log([], [], [], Running)
    ensures AddAll(l, [Result(id, result)] + SentScript(id, result, w))
            == Log([(id, result)], if w.Showing? then [] else [(id, result)], [], Running)
  {
    Nil([(id, result)]);
    if w.Showing? {
      AddOne(l, Result(id, result));
      Nil([Result(id, result)]);
    } else {
      AddThree(l, Result(id, result), Display, ForModel(id, result));
    }
  }

  lemma RaisedAddsUp(l: Log, id: string, t: Texts, error: Option<string>)
    requires error.Some? ==> l.phase.Running?
    ensures var failed := match error case None => [] case Some(e) => [(id, ErrorOutput(t, e))];
            AddAll(l, RaisedScript(id, t, error)) == l.(results := l.results + failed, sent := l.sent + failed)
  {
    if error.Some? {
      ErrorAddsUp(l, id, ErrorOutput(t, error.value));
    } else {
      Nil(l.results);
      Nil(l.sent);
    }
  }

  lemma NoStopIfRaised(w: Trouble, after: seq<Item>)
    ensures Raised(w, after).Some? ==> !AnyStops(Drained(w, after))
  {
  }

  lemma ReturnedAddsUp(l: Log, id: string, t: Texts, result: Output, w: Trouble, after: seq<Item>)
    requires l == Log([], [], [], Running)
    ensures var p := Plan(id, t, [], Returns(result, w), after);
            AddAll(l, RunScript(id, t, Returns(result, w), after))
            == Log(p.results, p.sent, AllShortened(p.deferred), if p.stop then Ended else Running)
  {
    var drained := Drained(w, after);
    var shown := [Result(id, result)] + SentScript(id, result, w);
    var l1 := Log([(id, result)], if w.Showing? then [] else [(id, result)], [], Running);
    var l2 := l1.(delivered := AllShortened(Messages(BeforeStop(drained))),
                  phase := if AnyStops(drained) then Ended else Running);
    AddAllAppend(l, shown + DrainScript(drained), RaisedScript(id, t, Raised(w, after)));
    AddAllAppend(l, shown, DrainScript(drained));
    ShownAddsUp(l, id, result, w);
    DrainAddsUp(l1, drained);
    Nil(AllShortened(Messages(BeforeStop(drained))));
    NoStopIfRaised(w, after);
    RaisedAddsUp(l2, id, t, Raised(w, after));
  }

  lemma RunAddsUp(l: Log, id: string, t: Texts, attempt: Attempt, after: seq<Item>)
    requires l == Log([], [], [], Running)
    ensures var p := Plan(id, t, [], attempt, after);
            AddAll(l, RunScript(id, t, attempt, after))
            == Log(p.results, p.sent, AllShortened(p.deferred), if p.stop then Ended else Running)
  {
    match attempt
    case Fails(error) =>
      ErrorAddsUp(l, id, ErrorOutput(t, error));
      Nil([(id, ErrorOutput(t, error))]);
    case Returns(result, w) =>
      ReturnedAddsUp(l, id, t, result, w, after);
  }

  /** What a call yields adds up to its plan: confirmed feedback is deferred
      feedback, shortened, and nothing follows the end of the stream. */
  lemma ScriptAddsUp(id: string, t: Texts, before: seq<Item>, attempt: Attempt, after: seq<Item>)
    ensures var p := Plan(id, t, before, attempt, after);
            AddAll(Log([], [], [], Running), Script(id, t, before, attempt, after))
            == Log(p.results, p.sent, AllShortened(p.deferred), if p.stop then Ended else Running)
  {
    var l := Log([], [], [], Running);
    var head, drained := [Processing, Started], DrainScript(before);
    var rest := Script(id, t, before, attempt, after)[|head + drained|..];
    assert Script(id, t, before, attempt, after) == head + drained + rest;
    AddAllAppend(l, head + drained, rest);
    AddAllAppend(l, head, drained);
    AddTwo(l, Processing, Started);
    DrainAddsUp(l, before);
    Nil(AllShortened(Messages(BeforeStop(before))));
    MessagesAreAll(before);
    if before == [] {
      assert rest == RunScript(id, t, attempt, after);
      RunAddsUp(l, id, t, attempt, after);
    } else if !AnyStops(before) {
      assert rest == [Result(id, ToolStream.TextOutput(t.skipped))];
    }
  }

  /** The call as the streamed response sees it (module ToolStream). */
  function OutcomeOf(args: string, p: Effect): ToolStream.EndOutcome {
    if p.results == [] then ToolStream.StoppedBefore
    else ToolStream.Ran(args, p.results[0].1, p.deferred, p.deferred != [], p.stop)
  }

  /** As long as nothing raises behind the result, a call records what its
      outcome stands for, and only then; and it passes on its feedback. */
  lemma OutcomeIsExact(id: string, args: string, t: Texts, before: seq<Item>, attempt: Attempt, after: seq<Item>)
    requires Blank(args) || ToolStream.Braced(args)
    ensures var p := Plan(id, t, before, attempt, after);
            var o := OutcomeOf(args, p);
            var r := ToolStream.EndResult(args, false, o);
            && (p.results == (match r case Some(Output(output)) => [(id, output)] case _ => [])
                <==> before != [] || attempt.Fails? || !GoesWrong(attempt.trouble, after))
            && (AnyStops(before) ==> o.StoppedBefore?)
            && (!AnyStops(before) ==>
                  && o.Ran? && o.args == args && o.deferred == p.deferred && o.stopAfter == p.stop
                  && (o.gotFeedback <==> |p.deferred| > 0))
  {
    ToolStream.CompleteIff(args);
    if attempt.Returns? {
      GoesWrongIff(attempt.trouble, after);
    }
  }
}
