/** The stateful filter that strips meta tags from a live delta stream (`_DeltaFilter` in app/cli_card_runner.py). */
module DeltaFilter {
  import opened Strings

  // A scan is a pass over everything fed so far, from a position on; what the
  // class holds back is the text from the position where the scan stops.
  // `StripAll` is the one-shot stripper of a complete text: it knows nothing of
  // held-back text.

  datatype TagSet = TagSet(open: string, close: string, sa: string)

  /** `_THINK_OPEN`, `_THINK_CLOSE` and `_SA`. */
  const META := TagSet("<thinking-data>", "</thinking-data>", "<self_assessment")

  type Tags = g: TagSet |
    && |g.open| > 1 && |g.close| > 1 && |g.sa| > 1
    && g.open[1] != g.sa[1] && g.open[1] != g.close[1]
    witness META

  /** Text shown, the position where held-back text begins, whether a thinking block is open. */
  datatype Pass = Pass(shown: string, stop: nat, inThink: bool)

  function Prepend(out: string, p: Pass): Pass {
    p.(shown := out + p.shown)
  }

  lemma PrependTwice(a: string, b: string, p: Pass)
    ensures Prepend(a + b, p) == Prepend(a, Prepend(b, p))
    ensures Prepend("", p) == p
  {
    assert a + b + p.shown == a + (b + p.shown);
    assert "" + p.shown == p.shown;
  }

  /** The text from `i` to the end could still become `tag`, or just has. */
  predicate Begins(w: string, i: nat, tag: string) {
    i <= |w| <= i + |tag| && forall k :: 0 <= k < |w| - i ==> w[i + k] == tag[k]
  }

  /** Where the longest ending of `w`, from `i` on, that begins `tag` starts. */
  function TailStart(w: string, tag: string, i: nat): (h: nat)
    requires i <= |w|
    ensures i <= h <= |w| && Begins(w, h, tag)
    decreases |w| - i
  {
    if Begins(w, i, tag) then i else TailStart(w, tag, i + 1)
  }

  lemma {:induction false} TailStartFirst(w: string, tag: string, i: nat)
    requires i <= |w|
    ensures forall j :: i <= j < TailStart(w, tag, i) ==> !Begins(w, j, tag)
    decreases |w| - i
  {
    if !Begins(w, i, tag) {
      TailStartFirst(w, tag, i + 1);
    }
  }

  function Scan(g: Tags, w: string, i: nat, inThink: bool): (p: Pass)
    requires i <= |w|
    ensures i <= p.stop <= |w|
    decreases |w| - i
  {
    if i == |w| then Pass("", i, inThink)
    else if inThink then
      match Find(w, g.close, i)
      case Some(c) => Scan(g, w, c + |g.close|, false)
      case None => Pass("", TailStart(w, g.close, i), true)
    else if At(w, g.open, i) then Scan(g, w, i + |g.open|, true)
    else if At(w, g.sa, i) then
      match Find(w, ">", i)
      case Some(e) => Scan(g, w, e + 1, false)
      case None => Pass("", i, false)
    else if Begins(w, i, g.open) || Begins(w, i, g.sa) then Pass("", i, false)
    else Prepend([w[i]], Scan(g, w, i + 1, false))
  }

  // ---- chunk invariance -------------------------------------------------

  predicate Extends(w: string, w': string) {
    |w| <= |w'| && forall k :: 0 <= k < |w| ==> w'[k] == w[k]
  }

  lemma AtExtend(w: string, w': string, tag: string, i: nat)
    requires Extends(w, w')
    ensures At(w, tag, i) ==> At(w', tag, i)
    ensures i + |tag| <= |w| && At(w', tag, i) ==> At(w, tag, i)
    ensures i <= |w| && (At(w', tag, i) || Begins(w', i, tag)) ==> At(w, tag, i) || Begins(w, i, tag)
  {
  }

  lemma AtChar(w: string, tag: string, i: nat, k: nat)
    requires k < |tag|
    ensures At(w, tag, i) ==> i + k < |w| && w[i + k] == tag[k]
  {
  }

  lemma OneTagAt(g: Tags, w: string, w': string, i: nat)
    requires Extends(w, w') && At(w, g.sa, i)
    ensures !At(w', g.open, i)
  {
    AtChar(w, g.sa, i, 1);
    AtChar(w', g.open, i, 1);
  }

  lemma FindExtend(w: string, w': string, tag: string, i: nat)
    requires Extends(w, w') && i <= |w| && Find(w, tag, i).Some?
    ensures Find(w', tag, i) == Find(w, tag, i)
  {
    FindSpec(w, tag, i);
    var f := Find(w, tag, i).value;
    forall j: nat | i <= j <= f
      ensures At(w', tag, j) <==> At(w, tag, j)
    {
      AtExtend(w, w', tag, j);
    }
    FindIs(w', tag, i, f);
  }

  /** Border lemma: with no match in `w`, the position kept decides every later
      match and every later tail. */
  lemma BorderLemma(w: string, w': string, tag: string, i: nat)
    requires tag != "" && Extends(w, w') && i <= |w| && Find(w, tag, i).None?
    ensures Find(w', tag, i) == Find(w', tag, TailStart(w, tag, i))
    ensures TailStart(w', tag, i) == TailStart(w', tag, TailStart(w, tag, i))
  {
    var h := TailStart(w, tag, i);
    FindSpec(w, tag, i);
    TailStartFirst(w, tag, i);
    forall j: nat | i <= j < h
      ensures !At(w', tag, j) && !Begins(w', j, tag)
    {
      AtExtend(w, w', tag, j);
    }
    SkipTo(w', tag, i, h);
  }

  lemma {:induction false} SkipTo(w: string, tag: string, i: nat, h: nat)
    requires i <= h <= |w| && forall j :: i <= j < h ==> !At(w, tag, j) && !Begins(w, j, tag)
    ensures Find(w, tag, i) == Find(w, tag, h) && TailStart(w, tag, i) == TailStart(w, tag, h)
    decreases h - i
  {
    if i < h {
      SkipTo(w, tag, i + 1, h);
    }
  }

  /** A scan of `w'` is a scan of `w` continued. */
  ghost predicate Continues(g: Tags, w: string, w': string, i: nat, inThink: bool)
    requires Extends(w, w') && i <= |w|
  {
    var p := Scan(g, w, i, inThink);
    Scan(g, w', i, inThink) == Prepend(p.shown, Scan(g, w', p.stop, p.inThink))
  }

  /** Chunk invariance: scanning on from where a scan of less text stopped is
      scanning all of it. */
  lemma {:induction false} ScanExtend(g: Tags, w: string, w': string, i: nat, inThink: bool)
    requires Extends(w, w') && i <= |w|
    ensures Continues(g, w, w', i, inThink)
    decreases |w| - i, 2
  {
    if i == |w| {
      WaitsHere(g, w, w', i, inThink);
    } else if inThink {
      ScanThinkExtend(g, w, w', i);
    } else if At(w, g.open, i) {
      EnteredInBoth(g, w, w', i);
      ScanOnward(g, w, w', i, false, i + |g.open|, true);
    } else if At(w, g.sa, i) {
      ScanTagExtend(g, w, w', i);
    } else if Begins(w, i, g.open) || Begins(w, i, g.sa) {
      WaitsHere(g, w, w', i, inThink);
    } else {
      ScanCharExtend(g, w, w', i);
    }
  }

  // ---- normal forms and the one-shot stripper ----------------------------

  /** What may be held back between two feeds. */
  ghost predicate Normal(g: Tags, w: string, p: Pass) {
    if p.inThink then
      Begins(w, p.stop, g.close) && |w| < p.stop + |g.close|
    else
      || p.stop == |w|
      || (Begins(w, p.stop, g.open) && |w| < p.stop + |g.open|)
      || (Begins(w, p.stop, g.sa) && |w| < p.stop + |g.sa|)
      || (At(w, g.sa, p.stop) && forall k :: p.stop <= k < |w| ==> w[k] != '>')
  }

  /** After every feed the held-back text is a proper beginning of the closing
      tag inside a thinking block; outside, it is empty, a proper beginning of
      an opening tag, or a self-assessment tag without its '>'. */
  lemma {:induction false} ScanLeavesNormal(g: Tags, w: string, i: nat, inThink: bool)
    requires i <= |w|
    ensures Normal(g, w, Scan(g, w, i, inThink))
    decreases |w| - i, 1
  {
    if i == |w| {
    } else if inThink {
      if Find(w, g.close, i).Some? {
        Left(g, w, i);
        NormalOnward(g, w, i, true, Find(w, g.close, i).value + |g.close|, false);
      } else {
        NormalInThink(g, w, i);
      }
    } else if At(w, g.open, i) {
      Entered(g, w, i);
      NormalOnward(g, w, i, false, i + |g.open|, true);
    } else if At(w, g.sa, i) {
      if Find(w, ">", i).Some? {
        TagSkipped(g, w, i);
        NormalOnward(g, w, i, false, Find(w, ">", i).value + 1, false);
      } else {
        NormalTag(g, w, i);
      }
    } else if Begins(w, i, g.open) || Begins(w, i, g.sa) {
      NormalBeginning(g, w, i);
    } else {
      NormalChar(g, w, i);
    }
  }

  lemma NormalBeginning(g: Tags, w: string, i: nat)
    requires i < |w| && !At(w, g.open, i) && !At(w, g.sa, i) && (Begins(w, i, g.open) || Begins(w, i, g.sa))
    ensures Normal(g, w, Scan(g, w, i, false))
  {
  }

  lemma {:induction false} NormalChar(g: Tags, w: string, i: nat)
    requires i < |w|
    requires !At(w, g.open, i) && !At(w, g.sa, i) && !Begins(w, i, g.open) && !Begins(w, i, g.sa)
    ensures Normal(g, w, Scan(g, w, i, false))
    decreases |w| - i, 0
  {
    ScanLeavesNormal(g, w, i + 1, false);
  }

  lemma {:induction false} NormalOnward(g: Tags, w: string, i: nat, a: bool, j: nat, b: bool)
    requires i < j <= |w| && Scan(g, w, i, a) == Scan(g, w, j, b)
    ensures Normal(g, w, Scan(g, w, i, a))
    decreases |w| - i, 0
  {
    ScanLeavesNormal(g, w, j, b);
  }

  lemma NormalInThink(g: Tags, w: string, i: nat)
    requires i <= |w| && Find(w, g.close, i).None?
    ensures Normal(g, w, Scan(g, w, i, true))
  {
    FindSpec(w, g.close, i);
    StoppedInThink(g, w, i);
    var h := TailStart(w, g.close, i);
    assert !At(w, g.close, h);
  }

  lemma NormalTag(g: Tags, w: string, i: nat)
    requires i < |w| && At(w, g.sa, i) && !At(w, g.open, i) && Find(w, ">", i).None?
    ensures Normal(g, w, Scan(g, w, i, false))
  {
    TagWaits(g, w, i);
    FindSpec(w, ">", i);
    NoneFound(w, '>', i);
  }

  lemma NoneFound(w: string, c: char, i: nat)
    requires forall j: nat :: i <= j ==> !At(w, [c], j)
    ensures forall k :: i <= k < |w| ==> w[k] != c
  {
    forall k | i <= k < |w|
      ensures w[k] != c
    {
      assert !At(w, [c], k);
    }
  }

  /** What the end of the stream shows of the held-back text. */
  function FlushText(w: string, p: Pass): string
    requires p.stop <= |w|
  {
    if p.inThink then "" else From(w, p.stop)
  }

  /** The one-shot stripper of the complete text `w`, from `i` on. */
  function StripAll(g: Tags, w: string, i: nat): (r: string)
    requires i <= |w|
    ensures |r| <= |w| - i
    decreases |w| - i
  {
    if i == |w| then ""
    else if At(w, g.open, i) then
      match Find(w, g.close, i + |g.open|)
      case Some(c) => StripAll(g, w, c + |g.close|)
      case None => ""
    else if At(w, g.sa, i) then
      match Find(w, ">", i)
      case Some(e) => StripAll(g, w, e + 1)
      case None => From(w, i)
    else [w[i]] + StripAll(g, w, i + 1)
  }

  /** `<` opens each of the three tags and occurs nowhere else in them. */
  ghost predicate Bracketed(g: Tags) {
    OneBracket(g.open) && OneBracket(g.close) && OneBracket(g.sa)
  }

  ghost predicate OneBracket(tag: string) {
    tag != "" && tag[0] == '<' && forall k :: 1 <= k < |tag| ==> tag[k] != '<'
  }

  lemma {:induction false} StripPlain(g: Tags, w: string, i: nat)
    requires Bracketed(g) && i <= |w| && forall k :: i <= k < |w| ==> w[k] != '<'
    ensures StripAll(g, w, i) == From(w, i)
    decreases |w| - i
  {
    if i < |w| {
      AtChar(w, g.open, i, 0);
      AtChar(w, g.sa, i, 0);
      StripPlain(g, w, i + 1);
    }
  }

  lemma StripBeginning(g: Tags, w: string, i: nat, tag: string)
    requires Bracketed(g) && (tag == g.open || tag == g.sa)
    requires i < |w| && Begins(w, i, tag) && !At(w, g.open, i) && !At(w, g.sa, i)
    ensures StripAll(g, w, i) == From(w, i)
  {
    forall k | i + 1 <= k < |w|
      ensures w[k] != '<'
    {
      assert w[i + (k - i)] == tag[k - i];
    }
    StripPlain(g, w, i + 1);
  }

  /** What a scan from `i` on shows in the end. */
  function Whole(g: Tags, w: string, i: nat): string
    requires i <= |w|
  {
    var p := Scan(g, w, i, false);
    p.shown + FlushText(w, p)
  }

  ghost predicate Strips(g: Tags, w: string, i: nat)
    requires i <= |w|
  {
    Whole(g, w, i) == StripAll(g, w, i)
  }

  lemma {:induction false} ScanIsStrip(g: Tags, w: string, i: nat)
    requires Bracketed(g) && i <= |w|
    ensures Strips(g, w, i)
    decreases |w| - i, 2
  {
    if i == |w| {
      StripsEnd(g, w);
    } else if At(w, g.open, i) {
      var j := BehindBlock(g, w, i);
      if j.Some? {
        StripsOnward(g, w, i, j.value);
      }
    } else if At(w, g.sa, i) {
      StripsAssessment(g, w, i);
    } else if Begins(w, i, g.open) || Begins(w, i, g.sa) {
      StripsTag(g, w, i, if Begins(w, i, g.open) then g.open else g.sa);
    } else {
      StripsChar(g, w, i);
    }
  }

  // ---- what stripping does to a text ------------------------------------

  /** `a` is a subsequence of `w[i..]`. */
  predicate Subsequence(a: string, w: string, i: nat)
    decreases |w| - i
  {
    a == "" || (i < |w| && ((a[0] == w[i] && Subsequence(a[1..], w, i + 1)) || Subsequence(a, w, i + 1)))
  }

  lemma {:induction false} SubsequenceEarlier(a: string, w: string, i: nat, j: nat)
    requires i <= j <= |w| && Subsequence(a, w, j)
    ensures Subsequence(a, w, i)
    decreases j - i
  {
    if i < j {
      SubsequenceEarlier(a, w, i + 1, j);
    }
  }

  lemma {:induction false} SubsequenceSuffix(w: string, i: nat)
    requires i <= |w|
    ensures Subsequence(From(w, i), w, i)
    decreases |w| - i
  {
    if i < |w| {
      assert From(w, i)[1..] == From(w, i + 1);
      SubsequenceSuffix(w, i + 1);
    }
  }

  /** Nothing is invented and nothing is reordered. */
  lemma {:induction false} StripIsSubsequence(g: Tags, w: string, i: nat)
    requires i <= |w|
    ensures Subsequence(StripAll(g, w, i), w, i)
    decreases |w| - i
  {
    if i == |w| {
    } else if At(w, g.open, i) {
      match Find(w, g.close, i + |g.open|)
      case Some(c) =>
        StripIsSubsequence(g, w, c + |g.close|);
        SubsequenceEarlier(StripAll(g, w, i), w, i, c + |g.close|);
      case None =>
    } else if At(w, g.sa, i) {
      match Find(w, ">", i)
      case Some(e) =>
        StripIsSubsequence(g, w, e + 1);
        SubsequenceEarlier(StripAll(g, w, i), w, i, e + 1);
      case None =>
        SubsequenceSuffix(w, i);
    } else {
      StripIsSubsequence(g, w, i + 1);
      assert StripAll(g, w, i)[1..] == StripAll(g, w, i + 1);
    }
  }

  /** The stripper acts at `i`: a thinking opener, or a self-assessment tag that is closed. */
  predicate ActsAt(g: Tags, w: string, i: nat) {
    i <= |w| && (At(w, g.open, i) || (At(w, g.sa, i) && Find(w, ">", i).Some?))
  }

  ghost predicate ActsFrom(g: Tags, w: string, i: nat) {
    exists j: nat :: i <= j && ActsAt(g, w, j)
  }

  /** Text passes unchanged exactly when the stripper acts nowhere in it. */
  lemma {:induction false} StripKeepsIff(g: Tags, w: string, i: nat)
    requires i <= |w| && g.open[|g.open| - 1] == '>'
    ensures StripAll(g, w, i) == From(w, i) <==> !ActsFrom(g, w, i)
    decreases |w| - i
  {
    if i == |w| {
    } else if At(w, g.open, i) {
      ActsShortens(g, w, i);
    } else if At(w, g.sa, i) {
      FindSpec(w, ">", i);
      match Find(w, ">", i)
      case Some(_) => ActsShortens(g, w, i);
      case None => NeverActs(g, w, i);
    } else {
      StripKeepsIff(g, w, i + 1);
      ActsStep(g, w, i);
      SameHead(w[i], StripAll(g, w, i + 1), From(w, i + 1));
    }
  }

  /** `_THINK_BLOCK_RE.sub("", w[i..])`: from the leftmost opener that has a
      closer after it up to its first closer, again and again. */
  function ReSub(g: Tags, w: string, i: nat): string
    requires i <= |w|
    decreases |w| - i
  {
    if i == |w| then ""
    else if At(w, g.open, i) && Find(w, g.close, i + |g.open|).Some? then
      ReSub(g, w, Find(w, g.close, i + |g.open|).value + |g.close|)
    else [w[i]] + ReSub(g, w, i + 1)
  }

  /** An opener at `j` with no closing tag after it. */
  predicate UnclosedAt(g: Tags, w: string, j: nat) {
    At(w, g.open, j) && Find(w, g.close, j + |g.open|).None?
  }

  ghost predicate UnclosedFrom(g: Tags, w: string, i: nat) {
    exists j: nat :: i <= j && UnclosedAt(g, w, j)
  }

  ghost predicate NoAssessment(g: Tags, w: string, i: nat) {
    forall j: nat :: i <= j ==> !At(w, g.sa, j)
  }

  /** Without self-assessment tags, the stream shows what the regular
      expression leaves of the whole text exactly when every opener is closed;
      otherwise it shows less. */
  lemma {:induction false} StripVersusReSub(g: Tags, w: string, i: nat)
    requires Bracketed(g) && i <= |w| && NoAssessment(g, w, i)
    ensures StripAll(g, w, i) == ReSub(g, w, i) <==> !UnclosedFrom(g, w, i)
    ensures StripAll(g, w, i) != ReSub(g, w, i) ==> |StripAll(g, w, i)| < |ReSub(g, w, i)|
    decreases |w| - i
  {
    if i == |w| {
    } else if At(w, g.open, i) && Find(w, g.close, i + |g.open|).Some? {
      var c := Find(w, g.close, i + |g.open|).value;
      FindSpec(w, g.close, i + |g.open|);
      StripVersusReSub(g, w, c + |g.close|);
      UnclosedBehind(g, w, i, c);
    } else if At(w, g.open, i) {
      NeverClosedDiffers(g, w, i);
    } else {
      assert !At(w, g.sa, i);
      StripVersusReSub(g, w, i + 1);
      UnclosedStep(g, w, i);
      SameHead(w[i], StripAll(g, w, i + 1), ReSub(g, w, i + 1));
    }
  }

  lemma NeverClosedDiffers(g: Tags, w: string, i: nat)
    requires i < |w| && UnclosedAt(g, w, i)
    ensures StripAll(g, w, i) == "" != ReSub(g, w, i) && UnclosedFrom(g, w, i)
  {
  }

  // ---- a task's stream --------------------------------------------------------

  function Concat(chunks: seq<string>): string {
    if chunks == [] then "" else Concat(chunks[..|chunks| - 1]) + chunks[|chunks| - 1]
  }

  /** One task's delta stream as the terminal sink renders it: a fresh filter,
      one `Feed` per delta, `Flush` when the task ends. */
  method RenderTask(deltas: seq<string>) returns (shown: string)
    ensures shown == StripAll(META, Concat(deltas), 0)
  {
    var f := new DeltaFilter();
    shown := "";
    for i := 0 to |deltas|
      invariant fresh(f) && f.g == META && f.Valid() && f.seen == Concat(deltas[..i])
      invariant shown == Scan(META, f.seen, 0, false).shown
    {
      assert deltas[..i + 1][..i] == deltas[..i];
      var visible := f.Feed(deltas[i]);
      shown := shown + visible;
    }
    assert deltas[..|deltas|] == deltas;
    var tail := f.Flush();
    shown := shown + tail;
  }

  // ---- the class ---------------------------------------------------------

  class DeltaFilter {
    const g: Tags
    var buf: string
    var inThink: bool
    /** All text fed so far. */
    ghost var seen: string

    ghost predicate Valid()
      reads this
    {
      var p := Scan(g, seen, 0, false);
      Bracketed(g) && buf == seen[p.stop..] && inThink == p.inThink
    }

    constructor ()
      ensures Valid() && g == META && seen == ""
    {
      g, buf, inThink, seen := META, "", false, "";
    }

    /** The largest `k` such that the last `k` characters of `buf` begin one of `cands`. */
    static method TailPrefixLen(buf: string, cands: seq<string>) returns (k: nat)
      ensures k <= |buf|
      ensures k == 0 || exists c :: c in cands && Ending(buf, c, k)
      ensures forall j: nat, c :: k < j && c in cands ==> !Ending(buf, c, j)
    {
      var maxLen: nat := 0;
      for i := 0 to |cands|
        invariant forall c :: c in cands[..i] ==> |c| <= maxLen
      {
        maxLen := if |cands[i]| > maxLen then |cands[i]| else maxLen;
      }
      assert forall c :: c in cands ==> c in cands[..|cands|];
      k := if |buf| < maxLen then |buf| else maxLen;
      while k > 0
        invariant k <= |buf|
        invariant forall j: nat, c :: k < j && c in cands ==> !Ending(buf, c, j)
      {
        if exists c :: c in cands && Ending(buf, c, k) {
          return;
        }
        k := k - 1;
      }
    }

    /** The same for one tag. */
    static method TailPrefixOf(buf: string, tag: string) returns (k: nat)
      ensures k <= |buf| && (k == 0 || Ending(buf, tag, k))
      ensures forall j: nat :: k < j ==> !Ending(buf, tag, j)
    {
      k := TailPrefixLen(buf, [tag]);
      assert tag in [tag];
    }

    /** One round of the loop of `Feed` inside a thinking block; `i` is where
        `buf` begins in the text `w` fed so far, `j` where it begins afterwards. */
    method StepInThink(ghost w: string, ghost i: nat) returns (more: bool, ghost j: nat)
      requires i < |w| && buf == w[i..] && inThink
      modifies this`buf, this`inThink
      ensures i <= j <= |w| && buf == w[j..] && (more ==> i < j)
      ensures Scan(g, w, i, true) == Scan(g, w, j, inThink)
      ensures !more ==> Scan(g, w, j, inThink) == Pass("", j, inThink)
    {
      var idx := Find(buf, g.close, 0);
      FindShift(w, i, g.close, 0);
      if idx.Some? {
        j := i + idx.value + |g.close|;
        DropTwice(w, i, idx.value + |g.close|);
        buf := buf[idx.value + |g.close|..];
        inThink := false;
        return true, j;
      }
      j := KeepTail(w, i);
      more := false;
    }

    /** Without a closing tag in sight only its possible beginning is kept. */
    method KeepTail(ghost w: string, ghost i: nat) returns (ghost j: nat)
      requires i < |w| && buf == w[i..] && Find(w, g.close, i).None?
      modifies this`buf
      ensures i <= j <= |w| && buf == w[j..]
      ensures Scan(g, w, i, true) == Scan(g, w, j, true) == Pass("", j, true)
    {
      var keep := TailPrefixOf(buf, g.close);
      j := |w| - keep;
      KeptTail(g, w, i, keep);
      buf := if keep > 0 then buf[|buf| - keep..] else "";
    }

    /** The text up to the next `<` is shown at once. */
    method StepInText(ghost w: string, ghost i: nat) returns (out: string, ghost j: nat)
      requires Bracketed(g) && i < |w| && buf == w[i..] && !inThink
      modifies this`buf
      ensures i <= j <= |w| && buf == w[j..] && (j == |w| || w[j] == '<')
      ensures Scan(g, w, i, false) == Prepend(out, Scan(g, w, j, false))
    {
      var lt := Find(buf, "<", 0);
      j := NextBracket(w, i);
      ScanPlain(g, w, i, j);
      SplitOff(w, i, j);
      if lt.None? {
        out := buf;
        buf := "";
      } else {
        out := buf[..lt.value];
        buf := buf[lt.value..];
      }
    }

    /** At a `<`: enter a thinking block, skip a closed self-assessment tag,
        wait for more text, or show a real `<`. */
    method StepAtBracket(ghost w: string, ghost i: nat) returns (out: string, more: bool, ghost j: nat)
      requires i < |w| && buf == w[i..] && w[i] == '<' && !inThink
      modifies this`buf, this`inThink
      ensures i <= j <= |w| && buf == w[j..] && (more ==> i < j)
      ensures Scan(g, w, i, false) == Prepend(out, Scan(g, w, j, inThink))
      ensures !more ==> Scan(g, w, j, inThink) == Pass("", j, inThink)
    {
      Shift(w, i, g.open, 0);
      Shift(w, i, g.sa, 0);
      FindShift(w, i, ">", 0);
      out, more := "", true;
      var n: nat := 0;
      if At(buf, g.open, 0) {
        n := |g.open|;
        inThink := true;
      } else if At(buf, g.sa, 0) {
        var gt := Find(buf, ">", 0);
        if gt.Some? {
          n := gt.value + 1;
        } else {
          more := false;
        }
      } else if Begins(buf, 0, g.open) || Begins(buf, 0, g.sa) {
        more := false;
      } else {
        out := "<";
        n := 1;
      }
      j := i + n;
      AtBracket(g, w, i, out, j, inThink);
      DropTwice(w, i, n);
      buf := buf[n..];
    }

    /** Feeding shows exactly what the text adds to the scan of everything fed. */
    method Feed(text: string) returns (shown: string)
      requires Valid()
      modifies this
      ensures Valid() && seen == old(seen) + text
      ensures Scan(g, seen, 0, false).shown == Scan(g, old(seen), 0, false).shown + shown
    {
      ghost var before := Scan(g, seen, 0, false);
      ghost var w := seen + text;
      ghost var i: nat := before.stop;
      ScanExtend(g, seen, w, 0, false);
      DropOfAppend(seen, text, i);
      buf := buf + text;
      seen := w;
      shown := "";
      ghost var target := Scan(g, w, i, inThink);
      PrependTwice("", "", target);
      var more := true;
      while more && buf != ""
        invariant seen == w && i <= |w| && buf == w[i..]
        invariant target == Prepend(shown, Scan(g, w, i, inThink))
        invariant more || Scan(g, w, i, inThink) == Pass("", i, inThink)
        decreases more, |w| - i
      {
        if inThink {
          more, i := StepInThink(w, i);
        } else {
          var out;
          ghost var j;
          out, j := StepInText(w, i);
          PrependTwice(shown, out, Scan(g, w, j, false));
          shown := shown + out;
          if buf != "" {
            out, more, i := StepAtBracket(w, j);
            PrependTwice(shown, out, Scan(g, w, i, inThink));
            shown := shown + out;
          } else {
            i := j;
          }
        }
      }
    }

    /** End of stream: an unclosed thinking block is dropped, anything else is
        shown, and the whole stream has shown its one-shot stripping. */
    method Flush() returns (shown: string)
      requires Valid()
      modifies this
      ensures Scan(g, seen, 0, false).shown + shown == StripAll(g, seen, 0)
      ensures buf == "" && inThink == old(inThink) && seen == old(seen)
    {
      ScanIsStrip(g, seen, 0);
      FromIsDrop(seen, Scan(g, seen, 0, false).stop);
      if inThink {
        buf := "";
        return "";
      }
      shown := buf;
      buf := "";
    }
  }

  // ---- what the class relies on ---------------------------------------------

  lemma Shift(w: string, i: nat, tag: string, j: nat)
    requires i + j <= |w|
    ensures At(w[i..], tag, j) <==> At(w, tag, i + j)
    ensures Begins(w[i..], j, tag) <==> Begins(w, i + j, tag)
  {
  }

  lemma {:induction false} FindShift(w: string, i: nat, tag: string, j: nat)
    requires i + j <= |w|
    ensures Find(w, tag, i + j) ==
            match Find(w[i..], tag, j) case Some(f) => Some(i + f) case None => None
    decreases |w| - j
  {
    Shift(w, i, tag, j);
    if i + j < |w| {
      FindShift(w, i, tag, j + 1);
    }
  }

  lemma SplitOff(w: string, i: nat, j: nat)
    requires i <= j <= |w|
    ensures w[i..][..j - i] == w[i..j] && w[i..][j - i..] == w[j..]
    ensures j == |w| ==> w[i..j] == w[i..] && w[j..] == ""
  {
  }

  /** Where `buf.find("<")` finds the next `<`, in the whole text. */
  lemma NextBracket(w: string, i: nat) returns (j: nat)
    requires i <= |w|
    ensures j == (match Find(w[i..], "<", 0) case Some(f) => i + f case None => |w|)
    ensures i <= j <= |w| && (j == |w| || w[j] == '<') && forall k :: i <= k < j ==> w[k] != '<'
  {
    FindShift(w, i, "<", 0);
    FindChar(w, '<', i);
    j := match Find(w, "<", i) case Some(f) => f case None => |w|;
  }

  /** `buf.find(c)` splits off a part without `c`. */
  lemma FindChar(w: string, c: char, i: nat)
    requires i <= |w|
    ensures match Find(w, [c], i)
            case Some(f) => f < |w| && w[f] == c && forall k :: i <= k < f ==> w[k] != c
            case None => forall k :: i <= k < |w| ==> w[k] != c
  {
    FindSpec(w, [c], i);
    match Find(w, [c], i)
    case Some(f) =>
      AtChar(w, [c], f, 0);
      forall k | i <= k < f
        ensures w[k] != c
      {
        assert !At(w, [c], k);
      }
    case None =>
      NoneFound(w, c, i);
  }

  lemma BeginsChar(w: string, tag: string, i: nat)
    requires i < |w| && tag != ""
    ensures Begins(w, i, tag) ==> w[i] == tag[0]
  {
    if Begins(w, i, tag) {
      assert w[i + 0] == tag[0];
    }
  }

  lemma {:induction false} ScanPlain(g: Tags, w: string, i: nat, j: nat)
    requires Bracketed(g) && i <= j <= |w| && forall k :: i <= k < j ==> w[k] != '<'
    ensures Scan(g, w, i, false) == Prepend(w[i..j], Scan(g, w, j, false))
    decreases j - i
  {
    PrependTwice("", "", Scan(g, w, j, false));
    if i < j {
      AtChar(w, g.open, i, 0);
      AtChar(w, g.sa, i, 0);
      BeginsChar(w, g.open, i);
      BeginsChar(w, g.sa, i);
      ScanPlain(g, w, i + 1, j);
      PrependTwice([w[i]], w[i + 1..j], Scan(g, w, j, false));
      assert [w[i]] + w[i + 1..j] == w[i..j];
    }
  }

  lemma {:induction false} TailStartIs(w: string, tag: string, i: nat, h: nat)
    requires i <= h <= |w| && Begins(w, h, tag) && forall j :: i <= j < h ==> !Begins(w, j, tag)
    ensures TailStart(w, tag, i) == h
    decreases h - i
  {
    if i < h {
      TailStartIs(w, tag, i + 1, h);
    }
  }

  /** The last `k` characters of `buf` begin `tag`. */
  predicate Ending(buf: string, tag: string, k: nat) {
    k <= |buf| && Begins(buf, |buf| - k, tag)
  }

  lemma KeptIsTail(w: string, i: nat, tag: string, keep: nat)
    requires i <= |w| && keep <= |w| - i
    requires keep == 0 || Ending(w[i..], tag, keep)
    requires forall k: nat :: keep < k ==> !Ending(w[i..], tag, k)
    ensures TailStart(w, tag, i) == |w| - keep
  {
    forall j | i <= j < |w| - keep
      ensures !Begins(w, j, tag)
    {
      assert !Ending(w[i..], tag, |w| - j);
      Shift(w, i, tag, j - i);
    }
    Shift(w, i, tag, |w| - i - keep);
    TailStartIs(w, tag, i, |w| - keep);
  }

  /** The four things that can happen at a `<`. */
  lemma AtBracket(g: Tags, w: string, i: nat, out: string, j: nat, inThink: bool)
    requires i < |w| && w[i] == '<'
    requires
      if At(w, g.open, i) then out == "" && j == i + |g.open| && inThink
      else
        && !inThink
        && if At(w, g.sa, i) then
             out == "" && match Find(w, ">", i) case Some(e) => j == e + 1 case None => j == i
           else if Begins(w, i, g.open) || Begins(w, i, g.sa) then out == "" && j == i
           else out == "<" && j == i + 1
    ensures Scan(g, w, i, false) == Prepend(out, Scan(g, w, j, inThink))
    ensures j == i ==> Scan(g, w, i, false) == Pass("", i, false)
  {
    PrependTwice("", "", Scan(g, w, j, inThink));
    assert "<" == [w[i]];
  }

  lemma KeptTail(g: Tags, w: string, i: nat, keep: nat)
    requires i < |w| && keep <= |w| - i && Find(w, g.close, i).None?
    requires keep == 0 || Ending(w[i..], g.close, keep)
    requires forall k: nat :: keep < k ==> !Ending(w[i..], g.close, k)
    ensures w[|w| - keep..] == if keep > 0 then w[i..][|w| - i - keep..] else ""
    ensures Scan(g, w, i, true) == Scan(g, w, |w| - keep, true) == Pass("", |w| - keep, true)
  {
    KeptIsTail(w, i, g.close, keep);
    DropTwice(w, i, |w| - keep - i);
    StoppedInThink(g, w, i);
  }

  lemma StoppedInThink(g: Tags, w: string, i: nat)
    requires i <= |w| && Find(w, g.close, i).None?
    ensures var h := TailStart(w, g.close, i);
            Scan(g, w, i, true) == Scan(g, w, h, true) == Pass("", h, true)
  {
    var h := TailStart(w, g.close, i);
    TailStartFirst(w, g.close, i);
    FindSpec(w, g.close, i);
    FindNone(w, g.close, h);
    TailStartIs(w, g.close, h, h);
    TailStartIs(w, g.close, |w|, |w|);
  }

  // ---- the cases of the main lemmas ------------------------------------------

  lemma WaitsHere(g: Tags, w: string, w': string, i: nat, inThink: bool)
    requires Extends(w, w') && i <= |w| && Scan(g, w, i, inThink) == Pass("", i, inThink)
    ensures Continues(g, w, w', i, inThink)
  {
    PrependTwice("", "", Scan(g, w', i, inThink));
  }

  /** Both scans go on from `j`. */
  lemma {:induction false} ScanOnward(g: Tags, w: string, w': string, i: nat, a: bool, j: nat, b: bool)
    requires Extends(w, w') && i < j <= |w|
    requires Scan(g, w, i, a) == Scan(g, w, j, b) && Scan(g, w', i, a) == Scan(g, w', j, b)
    ensures Continues(g, w, w', i, a)
    decreases |w| - i, 0
  {
    ScanExtend(g, w, w', j, b);
  }

  lemma EnteredInBoth(g: Tags, w: string, w': string, i: nat)
    requires Extends(w, w') && i < |w| && At(w, g.open, i)
    ensures var j := i + |g.open|;
            Scan(g, w, i, false) == Scan(g, w, j, true) && Scan(g, w', i, false) == Scan(g, w', j, true)
  {
    AtExtend(w, w', g.open, i);
    Entered(g, w, i);
    Entered(g, w', i);
  }

  lemma {:induction false} ScanThinkExtend(g: Tags, w: string, w': string, i: nat)
    requires Extends(w, w') && i < |w|
    ensures Continues(g, w, w', i, true)
    decreases |w| - i, 1
  {
    if Find(w, g.close, i).Some? {
      LeftInBoth(g, w, w', i);
      ScanOnward(g, w, w', i, true, Find(w, g.close, i).value + |g.close|, false);
    } else {
      ThinkWaits(g, w, w', i);
    }
  }

  lemma LeftInBoth(g: Tags, w: string, w': string, i: nat)
    requires Extends(w, w') && i < |w| && Find(w, g.close, i).Some?
    ensures var j := Find(w, g.close, i).value + |g.close|;
            Scan(g, w, i, true) == Scan(g, w, j, false) && Scan(g, w', i, true) == Scan(g, w', j, false)
  {
    FindExtend(w, w', g.close, i);
    Left(g, w, i);
    Left(g, w', i);
  }

  lemma ThinkWaits(g: Tags, w: string, w': string, i: nat)
    requires Extends(w, w') && i < |w| && Find(w, g.close, i).None?
    ensures Continues(g, w, w', i, true)
  {
    BorderLemma(w, w', g.close, i);
    PrependTwice("", "", Scan(g, w', TailStart(w, g.close, i), true));
  }

  lemma TagSkipped(g: Tags, w: string, i: nat)
    requires At(w, g.sa, i) && !At(w, g.open, i) && i < |w| && Find(w, ">", i).Some?
    ensures Scan(g, w, i, false) == Scan(g, w, Find(w, ">", i).value + 1, false)
  {
  }

  lemma {:induction false} ScanTagExtend(g: Tags, w: string, w': string, i: nat)
    requires Extends(w, w') && i < |w| && At(w, g.sa, i) && !At(w, g.open, i)
    ensures Continues(g, w, w', i, false)
    decreases |w| - i, 1
  {
    if Find(w, ">", i).Some? {
      TagSkippedInBoth(g, w, w', i);
      ScanOnward(g, w, w', i, false, Find(w, ">", i).value + 1, false);
    } else {
      TagWaits(g, w, i);
      WaitsHere(g, w, w', i, false);
    }
  }

  lemma TagSkippedInBoth(g: Tags, w: string, w': string, i: nat)
    requires Extends(w, w') && i < |w| && At(w, g.sa, i) && !At(w, g.open, i) && Find(w, ">", i).Some?
    ensures var j := Find(w, ">", i).value + 1;
            Scan(g, w, i, false) == Scan(g, w, j, false) && Scan(g, w', i, false) == Scan(g, w', j, false)
  {
    AtExtend(w, w', g.sa, i);
    OneTagAt(g, w, w', i);
    FindExtend(w, w', ">", i);
    TagSkipped(g, w, i);
    TagSkipped(g, w', i);
  }

  lemma TagWaits(g: Tags, w: string, i: nat)
    requires At(w, g.sa, i) && !At(w, g.open, i) && i < |w| && Find(w, ">", i).None?
    ensures Scan(g, w, i, false) == Pass("", i, false)
  {
  }

  lemma {:induction false} ScanCharExtend(g: Tags, w: string, w': string, i: nat)
    requires Extends(w, w') && i < |w|
    requires !At(w, g.open, i) && !At(w, g.sa, i) && !Begins(w, i, g.open) && !Begins(w, i, g.sa)
    ensures Continues(g, w, w', i, false)
    decreases |w| - i, 0
  {
    AtExtend(w, w', g.open, i);
    AtExtend(w, w', g.sa, i);
    ScanExtend(g, w, w', i + 1, false);
    var p := Scan(g, w, i + 1, false);
    PrependTwice([w[i]], p.shown, Scan(g, w', p.stop, p.inThink));
  }

  lemma StripsHeld(g: Tags, w: string, i: nat)
    requires i <= |w| && Scan(g, w, i, false) == Pass("", i, false) && StripAll(g, w, i) == From(w, i)
    ensures Strips(g, w, i)
  {
    Nil(From(w, i));
  }

  lemma {:induction false} StripsOnward(g: Tags, w: string, i: nat, j: nat)
    requires Bracketed(g) && i < j <= |w|
    requires Scan(g, w, i, false) == Scan(g, w, j, false) && StripAll(g, w, i) == StripAll(g, w, j)
    ensures Strips(g, w, i)
    decreases |w| - i, 0
  {
    ScanIsStrip(g, w, j);
  }

  /** Where the scan goes on after the block opened at `i`, if the block is closed. */
  lemma BehindBlock(g: Tags, w: string, i: nat) returns (j: Option<nat>)
    requires i < |w| && At(w, g.open, i)
    ensures match j
            case Some(n) => i < n <= |w| && Scan(g, w, i, false) == Scan(g, w, n, false)
                            && StripAll(g, w, i) == StripAll(g, w, n)
            case None => Strips(g, w, i)
  {
    var c := Find(w, g.close, i + |g.open|);
    if c.Some? {
      BlockSkipped(g, w, i);
      return Some(c.value + |g.close|);
    }
    BlockDropped(g, w, i);
    return None;
  }

  lemma BlockSkipped(g: Tags, w: string, i: nat)
    requires i < |w| && At(w, g.open, i) && Find(w, g.close, i + |g.open|).Some?
    ensures var j := Find(w, g.close, i + |g.open|).value + |g.close|;
            Scan(g, w, i, false) == Scan(g, w, j, false) && StripAll(g, w, i) == StripAll(g, w, j)
  {
    Entered(g, w, i);
    Left(g, w, i + |g.open|);
  }

  /** A thinking block that is never closed shows nothing. */
  lemma BlockDropped(g: Tags, w: string, i: nat)
    requires i < |w| && At(w, g.open, i) && Find(w, g.close, i + |g.open|).None?
    ensures Strips(g, w, i) && Whole(g, w, i) == ""
  {
    Entered(g, w, i);
    NeverClosed(g, w, i + |g.open|);
    Nil("");
  }

  lemma NeverClosed(g: Tags, w: string, i: nat)
    requires i <= |w| && Find(w, g.close, i).None?
    ensures var p := Scan(g, w, i, true); p.shown == "" && p.inThink
  {
  }

  lemma Entered(g: Tags, w: string, i: nat)
    requires i < |w| && At(w, g.open, i)
    ensures Scan(g, w, i, false) == Scan(g, w, i + |g.open|, true)
  {
  }

  lemma Left(g: Tags, w: string, i: nat)
    requires i <= |w| && Find(w, g.close, i).Some?
    ensures Scan(g, w, i, true) == Scan(g, w, Find(w, g.close, i).value + |g.close|, false)
  {
  }

  lemma {:induction false} StripsAssessment(g: Tags, w: string, i: nat)
    requires Bracketed(g) && i < |w| && At(w, g.sa, i) && !At(w, g.open, i)
    ensures Strips(g, w, i)
    decreases |w| - i, 1
  {
    if Find(w, ">", i).Some? {
      AssessmentSkipped(g, w, i);
      StripsOnward(g, w, i, Find(w, ">", i).value + 1);
    } else {
      AssessmentKept(g, w, i);
    }
  }

  lemma AssessmentSkipped(g: Tags, w: string, i: nat)
    requires i < |w| && At(w, g.sa, i) && !At(w, g.open, i) && Find(w, ">", i).Some?
    ensures var j := Find(w, ">", i).value + 1;
            Scan(g, w, i, false) == Scan(g, w, j, false) && StripAll(g, w, i) == StripAll(g, w, j)
  {
    TagSkipped(g, w, i);
  }

  lemma AssessmentKept(g: Tags, w: string, i: nat)
    requires i < |w| && At(w, g.sa, i) && !At(w, g.open, i) && Find(w, ">", i).None?
    ensures Strips(g, w, i)
  {
    TagWaits(g, w, i);
    StripsHeld(g, w, i);
  }

  lemma {:induction false} StripsChar(g: Tags, w: string, i: nat)
    requires Bracketed(g) && i < |w|
    requires !At(w, g.open, i) && !At(w, g.sa, i) && !Begins(w, i, g.open) && !Begins(w, i, g.sa)
    ensures Strips(g, w, i)
    decreases |w| - i, 0
  {
    ScanIsStrip(g, w, i + 1);
    var p := Scan(g, w, i + 1, false);
    assert Scan(g, w, i, false) == Prepend([w[i]], p);
    Assoc([w[i]], p.shown, FlushText(w, p));
  }

  lemma StripsEnd(g: Tags, w: string)
    ensures Strips(g, w, |w|)
  {
    StripsHeld(g, w, |w|);
  }

  lemma StripsTag(g: Tags, w: string, i: nat, tag: string)
    requires Bracketed(g) && i < |w| && (tag == g.open || tag == g.sa) && Begins(w, i, tag)
    requires !At(w, g.open, i) && !At(w, g.sa, i)
    ensures Strips(g, w, i)
  {
    StripBeginning(g, w, i, tag);
    StripsHeld(g, w, i);
  }

  lemma ActsStep(g: Tags, w: string, i: nat)
    ensures ActsFrom(g, w, i) <==> ActsAt(g, w, i) || ActsFrom(g, w, i + 1)
  {
  }

  lemma ActsShortens(g: Tags, w: string, i: nat)
    requires ActsAt(g, w, i) && i < |w|
    ensures |StripAll(g, w, i)| < |From(w, i)| && ActsFrom(g, w, i)
  {
  }

  lemma NeverActs(g: Tags, w: string, i: nat)
    requires g.open[|g.open| - 1] == '>' && forall j: nat :: i <= j ==> !At(w, ">", j)
    ensures !ActsFrom(g, w, i)
  {
    NoneFound(w, '>', i);
    forall j: nat | i <= j <= |w|
      ensures !ActsAt(g, w, j)
    {
      FindSpec(w, ">", j);
      AtChar(w, g.open, j, |g.open| - 1);
    }
  }

  lemma NoOverlap(g: Tags, w: string, j: nat, c: nat)
    requires Bracketed(g) && At(w, g.open, j) && At(w, g.close, c)
    ensures j + |g.open| <= c || c + |g.close| <= j
  {
    AtChar(w, g.open, j, 0);
    AtChar(w, g.open, j, 1);
    AtChar(w, g.close, c, 0);
    AtChar(w, g.close, c, 1);
    if j < c && c - j < |g.open| {
      AtChar(w, g.open, j, c - j);
    } else if c < j && j - c < |g.close| {
      AtChar(w, g.close, c, j - c);
    }
  }

  lemma ClosedBefore(g: Tags, w: string, i: nat, c: nat)
    requires Bracketed(g) && At(w, g.close, c)
    ensures forall j: nat :: j < c + |g.close| ==> !UnclosedAt(g, w, j)
  {
    forall j: nat | j < c + |g.close|
      ensures !UnclosedAt(g, w, j)
    {
      if At(w, g.open, j) {
        NoOverlap(g, w, j, c);
        FindSpec(w, g.close, j + |g.open|);
      }
    }
  }

  lemma UnclosedStep(g: Tags, w: string, i: nat)
    ensures UnclosedFrom(g, w, i) <==> UnclosedAt(g, w, i) || UnclosedFrom(g, w, i + 1)
  {
  }

  lemma UnclosedBehind(g: Tags, w: string, i: nat, c: nat)
    requires Bracketed(g) && At(w, g.close, c) && i <= c
    ensures UnclosedFrom(g, w, i) <==> UnclosedFrom(g, w, c + |g.close|)
  {
    ClosedBefore(g, w, i, c);
  }
}
