/** The live repetition detector (app/streaming_tool_executor.py): text is cut
    into sentences as it streams, and a sentence already twice in the window of
    recent ones suppresses everything after it. */
module Repetition {
  import opened Strings

  const SHORTEST := 20
  const WINDOW := 50
  const KEEP := 30

  predicate IsEnd(w: string, j: nat) {
    j + 1 < |w| && (w[j] == '.' || w[j] == '!' || w[j] == '?') && IsSpace(w[j + 1])
  }

  /** Where the sentence starting at `i` ends: the first `[.!?]\s`. */
  function Cut(w: string, i: nat): (e: Option<nat>)
    requires i <= |w|
    ensures e.Some? ==> i + 2 <= e.value <= |w|
    decreases |w| - i
  {
    if IsEnd(w, i) then Some(i + 2)
    else if i == |w| then None
    else Cut(w, i + 1)
  }

  /** A full stop, `!` or `?` at `j` with white space behind it. */
  predicate Punctuated(w: string, j: nat) {
    j + 1 < |w| && w[j] in ".!?" && IsSpace(w[j + 1])
  }

  /** The first sentence ends with the white space behind the first punctuation. */
  lemma {:induction false} CutIs(w: string, i: nat)
    requires i <= |w|
    ensures match Cut(w, i)
            case Some(e) => Punctuated(w, e - 2) && forall j: nat :: i <= j < e - 2 ==> !Punctuated(w, j)
            case None => forall j: nat :: i <= j ==> !Punctuated(w, j)
    decreases |w| - i
  {
    if !IsEnd(w, i) && i < |w| {
      CutIs(w, i + 1);
    }
  }

  lemma {:induction false} CutExtend(w: string, w': string, i: nat)
    requires w <= w' && i <= |w| && Cut(w, i).Some?
    ensures Cut(w', i) == Cut(w, i)
    decreases |w| - i
  {
    if !IsEnd(w, i) {
      CutExtend(w, w', i + 1);
    }
  }

  lemma {:induction false} CutShift(w: string, i: nat, j: nat)
    requires i + j <= |w|
    ensures Cut(w[i..], j) == match Cut(w, i + j) case Some(e) => Some(e - i) case None => None
    decreases |w| - i - j
  {
    assert IsEnd(w[i..], j) <==> IsEnd(w, i + j);
    if !IsEnd(w, i + j) && i + j < |w| {
      CutShift(w, i, j + 1);
    }
  }

  // ---- the window ---------------------------------------------------------------

  datatype Watch = Watch(recent: seq<string>, suppressed: bool)

  function Count(s: string, ss: seq<string>): (n: nat)
    ensures n <= |ss|
  {
    if ss == [] then 0
    else if ss[|ss| - 1] == s then Count(s, ss[..|ss| - 1]) + 1
    else Count(s, ss[..|ss| - 1])
  }

  function Remember(recent: seq<string>, s: string): (r: seq<string>)
    ensures |recent| <= WINDOW ==> |r| <= WINDOW
  {
    var longer := recent + [s];
    if |longer| > WINDOW then longer[|longer| - KEEP..] else longer
  }

  function See(h: Watch, s: string): Watch {
    if Count(s, h.recent) >= 2 then h.(suppressed := true) else h.(recent := Remember(h.recent, s))
  }

  function SeeAll(h: Watch, ss: seq<string>): Watch
    decreases |ss|
  {
    if ss == [] || h.suppressed then h else SeeAll(See(h, ss[0]), ss[1..])
  }

  /** Length of the window after `n` sentences. */
  function WindowLength(n: nat): (m: nat)
    ensures (if n < 30 then n else 30) <= m <= (if n < 50 then n else 50)
  {
    if n == 0 then 0
    else if WindowLength(n - 1) == WINDOW then KEEP
    else WindowLength(n - 1) + 1
  }

  function WindowOf(ss: seq<string>): seq<string> {
    ss[|ss| - WindowLength(|ss|)..]
  }

  /** The window is an ending of the sentences counted so far. */
  lemma RememberIsWindow(ss: seq<string>, s: string)
    ensures Remember(WindowOf(ss), s) == WindowOf(ss + [s])
  {
    var n := WindowLength(|ss|);
    assert WindowLength(|ss| + 1) == if n == WINDOW then KEEP else n + 1;
  }

  predicate SameThree(ss: seq<string>, i: int, j: int, n: nat) {
    0 <= i < j < n < |ss| && ss[i] == ss[j] == ss[n]
  }

  /** Sentence `n` is the third of three equal ones within the window. */
  ghost predicate Triple(ss: seq<string>, n: nat) {
    n < |ss| && exists i, j :: n - WindowLength(n) <= i && SameThree(ss, i, j, n)
  }

  lemma {:induction false} CountOne(s: string, ss: seq<string>)
    ensures Count(s, ss) >= 1 <==> exists i :: 0 <= i < |ss| && ss[i] == s
  {
    if ss != [] {
      CountOne(s, ss[..|ss| - 1]);
    }
  }

  predicate TwoAt(s: string, ss: seq<string>, i: int, j: int) {
    0 <= i < j < |ss| && ss[i] == s && ss[j] == s
  }

  lemma {:induction false} CountTwo(s: string, ss: seq<string>)
    ensures Count(s, ss) >= 2 <==> exists i: int, j: int :: TwoAt(s, ss, i, j)
  {
    if ss != [] {
      var n := |ss| - 1;
      CountOne(s, ss[..n]);
      CountTwo(s, ss[..n]);
      if i: int, j: int :| TwoAt(s, ss[..n], i, j) {
        assert TwoAt(s, ss, i, j);
      }
      if i :| 0 <= i < n && ss[..n][i] == s && ss[n] == s {
        assert TwoAt(s, ss, i, n);
      }
      if i: int, j: int :| TwoAt(s, ss, i, j) {
        assert j < n ==> TwoAt(s, ss[..n], i, j);
        assert ss[..n][i] == s;
      }
    }
  }

  lemma TripleIffCount(ss: seq<string>, n: nat)
    requires n < |ss|
    ensures Triple(ss, n) <==> Count(ss[n], WindowOf(ss[..n])) >= 2
  {
    var window := WindowOf(ss[..n]);
    var from := n - WindowLength(n);
    CountTwo(ss[n], window);
    assert forall k :: 0 <= k < |window| ==> window[k] == ss[from + k];
    if i: int, j: int :| from <= i && SameThree(ss, i, j, n) {
      assert TwoAt(ss[n], window, i - from, j - from);
    }
    if a: int, b: int :| TwoAt(ss[n], window, a, b) {
      assert SameThree(ss, from + a, from + b, n);
    }
  }

  ghost predicate TripleFrom(ss: seq<string>, n: nat) {
    exists k: nat :: n <= k && Triple(ss, k)
  }

  lemma TripleStep(ss: seq<string>, n: nat)
    ensures TripleFrom(ss, n) <==> Triple(ss, n) || TripleFrom(ss, n + 1)
  {
  }

  lemma SeeNext(ss: seq<string>, n: nat)
    requires n < |ss|
    ensures See(Watch(WindowOf(ss[..n]), false), ss[n])
            == if Triple(ss, n) then Watch(WindowOf(ss[..n]), true) else Watch(WindowOf(ss[..n + 1]), false)
    ensures ss[n..] == [ss[n]] + ss[n + 1..]
  {
    TripleIffCount(ss, n);
    RememberIsWindow(ss[..n], ss[n]);
    assert ss[..n] + [ss[n]] == ss[..n + 1];
  }

  lemma {:induction false} SeeAllFrom(ss: seq<string>, n: nat)
    requires n <= |ss|
    ensures var h := SeeAll(Watch(WindowOf(ss[..n]), false), ss[n..]);
            && (h.suppressed <==> TripleFrom(ss, n))
            && (!h.suppressed ==> h.recent == WindowOf(ss))
    decreases |ss| - n
  {
    if n == |ss| {
      assert ss[..n] == ss;
    } else {
      SeeNext(ss, n);
      TripleStep(ss, n);
      SeeAllFrom(ss, n + 1);
    }
  }

  const FRESH := Watch([], false)

  /** Suppression, exactly: some sentence is the third within the window. */
  lemma SuppressedIff(ss: seq<string>)
    ensures var h := SeeAll(FRESH, ss);
            && (h.suppressed <==> TripleFrom(ss, 0))
            && (!h.suppressed ==> h.recent == WindowOf(ss))
  {
    assert WindowOf(ss[..0]) == [] && ss[0..] == ss;
    SeeAllFrom(ss, 0);
  }

  /** A third copy within thirty sentences always suppresses. */
  lemma ThirdCopySuppresses(ss: seq<string>, i: nat, j: nat, n: nat)
    requires SameThree(ss, i, j, n) && n - i <= 30
    ensures SeeAll(FRESH, ss).suppressed
  {
    assert Triple(ss, n);
    SuppressedIff(ss);
  }

  /** Suppression means three copies among some fifty-one sentences in a row. */
  lemma SuppressionHasThreeCopies(ss: seq<string>)
    requires SeeAll(FRESH, ss).suppressed
    ensures exists i: int, j: int, n: nat :: n - i <= 50 && SameThree(ss, i, j, n)
  {
    SuppressedIff(ss);
    var n: nat :| Triple(ss, n);
    var i: int, j: int :| n - WindowLength(n) <= i && SameThree(ss, i, j, n);
    assert n - i <= 50 && SameThree(ss, i, j, n);
  }

  // ---- sentences of a stream ------------------------------------------------------

  /** The sentences counted in `w` from `i` on, each brought to its normal form. */
  function Counted(norm: string -> string, w: string, i: nat): seq<string>
    requires i <= |w|
    decreases |w| - i
  {
    match Cut(w, i)
    case None => []
    case Some(e) =>
      var s := Strip(w[i..e]);
      if |s| >= SHORTEST then [norm(s)] + Counted(norm, w, e) else Counted(norm, w, e)
  }

  /** Sentences of at least twenty characters count, white space aside. */
  lemma CountedIs(norm: string -> string, w: string, i: nat)
    requires i <= |w|
    ensures match Cut(w, i)
            case None => Counted(norm, w, i) == []
            case Some(e) =>
              var s := Strip(w[i..e]);
              Counted(norm, w, i) == (if |s| >= 20 then [norm(s)] else []) + Counted(norm, w, e)
  {
    if Cut(w, i).Some? {
      Nil(Counted(norm, w, Cut(w, i).value));
    }
  }

  /** A watch and the position up to which text has been cut into sentences. */
  datatype Reader = Reader(start: nat, watch: Watch)

  function ReadOn(norm: string -> string, w: string, r: Reader): (r': Reader)
    requires r.start <= |w|
    ensures r.start <= r'.start <= |w|
    decreases |w| - r.start
  {
    if r.watch.suppressed then r
    else
      match Cut(w, r.start)
      case None => r
      case Some(e) => ReadOn(norm, w, Reader(e, Heed(norm, r.watch, w[r.start..e])))
  }

  /** What one sentence does. */
  function Heed(norm: string -> string, h: Watch, sentence: string): Watch {
    var s := Strip(sentence);
    if |s| >= SHORTEST then See(h, norm(s)) else h
  }

  lemma {:induction false} ReadOnExtend(norm: string -> string, w: string, w': string, r: Reader)
    requires w <= w' && r.start <= |w|
    ensures ReadOn(norm, w', ReadOn(norm, w, r)) == ReadOn(norm, w', r)
    decreases |w| - r.start
  {
    if !r.watch.suppressed && Cut(w, r.start).Some? {
      CutExtend(w, w', r.start);
      var e := Cut(w, r.start).value;
      assert w[r.start..e] == w'[r.start..e];
      ReadOnExtend(norm, w, w', Reader(e, Heed(norm, r.watch, w[r.start..e])));
    }
  }

  lemma {:induction false} ReadOnSeesAll(norm: string -> string, w: string, r: Reader)
    requires r.start <= |w|
    ensures ReadOn(norm, w, r).watch == SeeAll(r.watch, Counted(norm, w, r.start))
    decreases |w| - r.start
  {
    if !r.watch.suppressed && Cut(w, r.start).Some? {
      var e := Cut(w, r.start).value;
      ReadOnSeesAll(norm, w, Reader(e, Heed(norm, r.watch, w[r.start..e])));
    }
  }

  /** The first sentence, seen from the rest of the text. */
  lemma NextCut(w: string, start: nat)
    requires start <= |w|
    ensures match Cut(w[start..], 0)
            case None => Cut(w, start).None?
            case Some(e) =>
              && Cut(w, start) == Some(start + e)
              && w[start..][e..] == w[start + e..] && w[start..][..e] == w[start..start + e]
  {
    CutShift(w, start, 0);
    if Cut(w, start).Some? {
      DropTwice(w, start, Cut(w, start).value - start);
    }
  }

  /** One step of reading: the next sentence, if the text has one. */
  function ReadStep(norm: string -> string, w: string, r: Reader): (r': Option<Reader>)
    requires r.start <= |w|
    ensures r'.Some? ==> r.start < r'.value.start <= |w|
  {
    match Cut(w, r.start)
    case None => None
    case Some(e) => Some(Reader(e, Heed(norm, r.watch, w[r.start..e])))
  }

  lemma ReadOnStep(norm: string -> string, w: string, r: Reader)
    requires r.start <= |w| && !r.watch.suppressed
    ensures ReadOn(norm, w, r)
            == match ReadStep(norm, w, r) case None => r case Some(r') => ReadOn(norm, w, r')
  {
  }

  class Detector {
    var buffer: string
    var recent: seq<string>
    var suppressed: bool
    const norm: string -> string
    /** All text streamed so far. */
    ghost var fed: string
    /** Where `buffer` begins in it. */
    ghost var start: nat

    ghost predicate Valid()
      reads this
    {
      Aligned() && ReadOn(norm, fed, Reader(0, FRESH)) == State()
    }

    constructor (norm: string -> string)
      ensures Valid() && fed == "" && this.norm == norm
    {
      buffer, recent, suppressed := "", [], false;
      this.norm := norm;
      fed, start := "", 0;
    }

    /** One sentence is trimmed, weighed and remembered. */
    method Take(text: string)
      requires !suppressed
      modifies this`recent, this`suppressed
      ensures Watch(recent, suppressed) == Heed(norm, Watch(old(recent), false), text)
    {
      var sentence := Strip(text);
      if |sentence| >= SHORTEST {
        var n := norm(sentence);
        if Count(n, recent) >= 2 {
          suppressed := true;
          return;
        }
        recent := recent + [n];
        if |recent| > WINDOW {
          recent := recent[|recent| - KEEP..];
        }
      }
    }

    /** The state of reading, with `start` for the buffer. */
    ghost function State(): Reader
      reads this
    {
      Reader(start, Watch(recent, suppressed))
    }

    ghost predicate Aligned()
      reads this
    {
      start <= |fed| && (!suppressed ==> buffer == fed[start..])
    }

    /** Takes the first sentence off the buffer, if there is one. */
    method Next() returns (more: bool)
      requires Aligned() && !suppressed
      modifies this`buffer, this`start, this`recent, this`suppressed
      ensures Aligned()
      ensures match ReadStep(norm, fed, old(State()))
              case None => !more && State() == old(State())
              case Some(r) => more && State() == r
    {
      NextCut(fed, start);
      var m := Cut(buffer, 0);
      if m.None? {
        return false;
      }
      TakeFirst(m.value);
      more := true;
    }

    /** The buffer's first sentence ends at `end`. */
    method TakeFirst(end: nat)
      requires Aligned() && !suppressed && 0 < end <= |buffer| && buffer[end..] == fed[start + end..]
      modifies this`buffer, this`start, this`recent, this`suppressed
      ensures Aligned()
      ensures State() == Reader(old(start) + end, Heed(norm, Watch(old(recent), false), old(buffer)[..end]))
    {
      var text := buffer[..end];
      buffer := buffer[end..];
      start := start + end;
      Take(text);
    }

    /** Cuts the buffer into sentences for as long as there is one. */
    method Drain()
      requires Aligned() && !suppressed
      modifies this`buffer, this`start, this`recent, this`suppressed
      ensures Aligned() && State() == ReadOn(norm, fed, old(State()))
    {
      while !suppressed
        invariant Aligned()
        invariant ReadOn(norm, fed, State()) == ReadOn(norm, fed, old(State()))
        decreases |fed| - start
      {
        ReadOnStep(norm, fed, State());
        var more := Next();
        if !more {
          return;
        }
      }
    }

    /** However the text was cut into deltas, the detector is in the state its
        sentences lead to. */
    method Feed(delta: string)
      requires Valid()
      modifies this
      ensures Valid() && fed == old(fed) + delta
      ensures suppressed == SeeAll(FRESH, Counted(norm, fed, 0)).suppressed
      ensures recent == SeeAll(FRESH, Counted(norm, fed, 0)).recent
    {
      ReadOnExtend(norm, fed, fed + delta, Reader(0, FRESH));
      ReadOnSeesAll(norm, fed + delta, Reader(0, FRESH));
      DropOfAppend(fed, delta, start);
      fed := fed + delta;
      if suppressed {
        return;
      }
      buffer := buffer + delta;
      Drain();
    }
  }
}
