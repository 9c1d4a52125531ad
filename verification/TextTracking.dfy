/** The tracker follows the text a run shows: it sees text in pieces as it goes
    out, and some text not at all. Which pieces it sees, and what that means for
    the text that comes next, holds for any run of the pipeline. */
module TextTracking {
  import opened Strings
  import opened FenceTracker
  import opened FenceSpacing
  import opened TextBuffering
  import opened TextPipeline

  /** What a run shows, in pieces: `Seen` by the tracker, `Unseen`, and the ends of responses. */
  datatype Piece = Seen(text: string) | Unseen(text: string) | Fresh

  function ShownText(ps: seq<Piece>): string {
    if ps == [] then ""
    else
      var front, p := ShownText(ps[..|ps| - 1]), ps[|ps| - 1];
      if p.Fresh? then front else front + p.text
  }

  function UnseenText(ps: seq<Piece>): string {
    if ps == [] then ""
    else
      var front, p := UnseenText(ps[..|ps| - 1]), ps[|ps| - 1];
      if p.Unseen? then front + p.text else front
  }

  /** The tracker of the pieces seen since the last response began. */
  function TrackerOf(ps: seq<Piece>): Tracker {
    if ps == [] then FRESH
    else
      var front, p := TrackerOf(ps[..|ps| - 1]), ps[|ps| - 1];
      if p.Seen? then Updated(front, p.text) else if p.Unseen? then front else FRESH
  }

  lemma OnePieceMore(ps: seq<Piece>, p: Piece)
    ensures ShownText(ps + [p]) == if p.Fresh? then ShownText(ps) else ShownText(ps) + p.text
    ensures UnseenText(ps + [p]) == if p.Unseen? then UnseenText(ps) + p.text else UnseenText(ps)
    ensures TrackerOf(ps + [p]) ==
            if p.Seen? then Updated(TrackerOf(ps), p.text) else if p.Unseen? then TrackerOf(ps) else FRESH
  {
    assert (ps + [p])[..|ps|] == ps;
  }

  /** What an event shows past the tracker: thoughts and their tags, and what a
      tool start flushes out of the optimizer. */
  function PastTracker(p: Pipe, e: Event): string {
    match e
    case Text(_) => if p.thinking then CLOSE_THINKING else ""
    case Think(content) => Thought(p, content)
    case ToolStart => Flushed(p.opt)
    case Stop => if p.thinking then CLOSE_THINKING else ""
    case NextResponse => ""
    case Retry => ""
  }

  function AllPastTracker(es: seq<Event>): string {
    if es == [] then ""
    else AllPastTracker(es[..|es| - 1]) + PastTracker(Run(es[..|es| - 1]), es[|es| - 1])
  }

  /** The tracker sees everything else, in at most two pieces. */
  ghost predicate TracksAs(p: Pipe, e: Event, q: Pipe, a: string, b: string) {
    && q.shown == p.shown + PastTracker(p, e) + a + b
    && q.tracker == if e.NextResponse? || e.Retry? then FRESH else Updated(Updated(p.tracker, a), b)
  }

  lemma RecordTracks(p: Pipe, text: string) returns (a: string, b: string)
    ensures Record(p, text).shown == p.shown + a + b
    ensures Record(p, text).tracker == Updated(Updated(p.tracker, a), b)
  {
    var spaced := Normalized(p.tracker.inBlock, text);
    var all, recorded := p.opt + spaced, p.recorded + spaced;
    var n := ReadyLength(all);
    a := all[..n];
    b := if EndsSentence(recorded) && !Blank(all[n..]) then all[n..] else "";
    OutInTwo(p.shown, all);
  }

  lemma TextTracks(p: Pipe, delta: string) returns (a: string, b: string)
    ensures TracksAs(p, Text(delta), TextStep(p, delta), a, b)
  {
    var q := Close(p);
    match PassageOf(q.tracker.inBlock, q.held + delta)
    case Keep(h) =>
      a, b := "", "";
      Nil(p.shown);
      Nil(q.shown);
    case Go(text, h) =>
      a, b := RecordTracks(q.(held := h, fed := q.fed + delta), text);
      Nil(p.shown);
  }

  /** One event: the tracker sees what is newly shown, thoughts and text flushed
      by a tool start apart. */
  lemma StepTracks(p: Pipe, e: Event) returns (a: string, b: string)
    ensures TracksAs(p, e, Step(p, e), a, b)
  {
    a, b := "", "";
    Nil(p.shown);
    match e
    case Text(delta) => a, b := TextTracks(p, delta);
    case Think(content) => Nil(p.shown + Thought(p, content));
    case ToolStart =>
      b := p.held;
      Nil(p.shown + Flushed(p.opt));
    case Stop =>
      a, b := Flushed(p.opt), p.held;
    case NextResponse =>
    case Retry =>
  }

  /** Over any run, the tracker is the tracker of the shown pieces it sees, and
      the pieces it does not see are the thoughts and what tool starts flush. */
  lemma {:induction false} RunTracks(es: seq<Event>) returns (ps: seq<Piece>)
    ensures Run(es).shown == ShownText(ps) && Run(es).tracker == TrackerOf(ps)
    ensures UnseenText(ps) == AllPastTracker(es)
  {
    ps := [];
    if es != [] {
      var front, e := es[..|es| - 1], es[|es| - 1];
      var before := RunTracks(front);
      var a, b := StepTracks(Run(front), e);
      var x := PastTracker(Run(front), e);
      OnePieceMore(before, Unseen(x));
      OnePieceMore(before + [Unseen(x)], Seen(a));
      OnePieceMore(before + [Unseen(x)] + [Seen(a)], Seen(b));
      ps := before + [Unseen(x)] + [Seen(a)] + [Seen(b)];
      if e.NextResponse? || e.Retry? {
        OnePieceMore(ps, Fresh);
        ps := ps + [Fresh];
      }
    }
  }

  predicate OnlyText(es: seq<Event>) {
    forall e :: e in es ==> e.Text? || e.Stop?
  }

  lemma {:induction false} TextIsSeen(es: seq<Event>)
    requires OnlyText(es)
    ensures AllPastTracker(es) == "" && !Run(es).thinking
  {
    if es != [] {
      TextIsSeen(es[..|es| - 1]);
      assert es[|es| - 1] in es;
    }
  }

  /** Without thoughts and tools the tracker sees all that a response shows. */
  lemma TextRunTracks(es: seq<Event>) returns (ps: seq<Piece>)
    requires OnlyText(es)
    ensures Run(es).shown == ShownText(ps) && Run(es).tracker == TrackerOf(ps) && UnseenText(ps) == ""
  {
    ps := RunTracks(es);
    TextIsSeen(es);
  }

  /** So text that arrives while shown text ends in an open block is recorded as
      it came, with what waited for a fence, and nothing waits any more. */
  lemma InBlockUnchanged(es: seq<Event>, delta: string) returns (ps: seq<Piece>)
    ensures Run(es).tracker == TrackerOf(ps) && Run(es).shown == ShownText(ps) && UnseenText(ps) == AllPastTracker(es)
    ensures TrackerOf(ps).inBlock ==>
              var p := Run(es);
              && Step(p, Text(delta)).recorded
                 == p.recorded + (if p.thinking then CLOSE_THINKING else "") + (p.held + delta)
              && Step(p, Text(delta)).held == ""
  {
    ps := RunTracks(es);
    Nil(Run(es).recorded);
  }
}
