/** Where text waits between the model and the screen: texts that take another
    route in `process_text_delta`, the word optimizer, and the buffer for fence
    openings. */
module TextBuffering {
  import opened Strings
  import opened FenceTracker
  import opened FenceSpacing

  // ---- texts that take another route ----------------------------------------------

  predicate OneLine(s: string) {
    '\n' !in s
  }

  type Word = s: string | OneLine(s)

  type Words = ws: seq<string> | forall w :: w in ws ==> OneLine(w)

  datatype Kinds = Kinds(reasoning: Words, tool: Word, patterns: Words, types: Words)

  const REASONING: Words := ["<reasoning>", "</reasoning>"]
  const VIZ_PATTERNS: Words :=
    ["```vega-lite", "```mermaid", "```graphviz", "```d3", "```html-mockup", "```drawio", "```packet", "```plotly"]
  const VIZ_TYPES: Words :=
    ["mermaid", "graphviz", "vega-lite", "vega", "drawio", "designinspector", "packet", "html-mockup", "plotly"]

  /** The lists of text_delta_processor.py. */
  const ZIYA := Kinds(REASONING, "```tool:", VIZ_PATTERNS, VIZ_TYPES)

  predicate ContainsAny(s: string, words: seq<string>) {
    exists w :: w in words && Find(s, w, 0).Some?
  }

  /** `[^\s|`]*` from `i` on. */
  function ToolNameRun(s: string, i: nat): (n: nat)
    requires i <= |s|
    ensures i + n <= |s|
    decreases |s| - i
  {
    if i < |s| && !IsSpace(s[i]) && s[i] != '|' && s[i] != '`' then 1 + ToolNameRun(s, i + 1) else 0
  }

  predicate FakeToolAt(k: Kinds, s: string, i: nat) {
    At(s, k.tool, i) &&
      var n := ToolNameRun(s, i + |k.tool|);
      n > 0 && At(s, "|", i + |k.tool| + n)
  }

  /** `_FAKE_TOOL_OPEN_RE.search`. */
  predicate FakeToolOpens(k: Kinds, s: string) {
    exists i: nat :: i < |s| && FakeToolAt(k, s, i)
  }

  /** A line that opens a visualization fence (`_FENCE_OPEN_RE` with a known type). */
  predicate VizLine(k: Kinds, line: string) {
    var n := RunLength(line, 0, '`');
    n >= 3 && Lower(Strip(line[n..])) in k.types
  }

  predicate Visualizes(k: Kinds, text: string) {
    ContainsAny(text, k.patterns) || exists l :: l in Lines(text) && VizLine(k, l)
  }

  predicate Special(k: Kinds, u: string) {
    u in k.reasoning || u == k.tool || u in k.patterns || (OneLine(u) && VizLine(k, u))
  }

  predicate SpecialPart(k: Kinds, s: string, i: nat, j: nat) {
    i <= j <= |s| && Special(k, s[i..j])
  }

  /** Some part of `s` calls for another route. */
  ghost predicate Loud(k: Kinds, s: string) {
    exists i: nat, j: nat :: SpecialPart(k, s, i, j)
  }

  lemma SpecialHere(k: Kinds, s: string, i: nat, j: nat, u: string)
    requires i <= j <= |s| && s[i..j] == u && Special(k, u)
    ensures Loud(k, s)
  {
    assert SpecialPart(k, s, i, j);
  }

  lemma LoudPart(k: Kinds, s: string, a: nat, b: nat)
    requires a <= b <= |s|
    ensures Loud(k, s[a..b]) ==> Loud(k, s)
  {
    if Loud(k, s[a..b]) {
      var part := s[a..b];
      var i: nat, j: nat :| SpecialPart(k, part, i, j);
      SlicePart(s, a, b, i, j);
      SpecialHere(k, s, a + i, a + j, part[i..j]);
    }
  }

  lemma LoudSpread(k: Kinds, a: string, b: string)
    requires Spread(a, b)
    ensures Loud(k, b) ==> Loud(k, a)
  {
    if Loud(k, b) {
      var i: nat, j: nat :| SpecialPart(k, b, i, j);
      assert OneLine(b[i..j]);
      SpreadPart(a, b, i, j);
      var m, n :| 0 <= m <= n <= |a| && a[m..n] == b[i..j];
      SpecialHere(k, a, m, n, b[i..j]);
    }
  }

  lemma LoudAt(k: Kinds, s: string, w: string, i: nat)
    requires At(s, w, i) && Special(k, w)
    ensures Loud(k, s)
  {
    assert s[i..i + |w|] == w;
    SpecialHere(k, s, i, i + |w|, w);
  }

  lemma LoudWord(k: Kinds, s: string, words: seq<string>)
    requires forall w :: w in words ==> Special(k, w)
    ensures ContainsAny(s, words) ==> Loud(k, s)
  {
    if ContainsAny(s, words) {
      var w :| w in words && Find(s, w, 0).Some?;
      FindSpec(s, w, 0);
      LoudAt(k, s, w, Find(s, w, 0).value);
    }
  }

  lemma LoudFakeTool(k: Kinds, s: string)
    ensures FakeToolOpens(k, s) ==> Loud(k, s)
  {
    if FakeToolOpens(k, s) {
      var i: nat :| i < |s| && FakeToolAt(k, s, i);
      LoudAt(k, s, k.tool, i);
    }
  }

  lemma {:induction false} LineIsPart(text: string, i: nat)
    requires i < |Lines(text)|
    ensures exists a, b :: 0 <= a <= b <= |text| && text[a..b] == Lines(text)[i] && (i == 0 ==> a == 0)
  {
    if text == "" {
      assert text[0..0] == Lines(text)[i];
    } else {
      var rest := Lines(text[1..]);
      if i == 0 && text[0] == '\n' {
        assert text[0..0] == Lines(text)[i];
      } else {
        var k := if text[0] == '\n' then i - 1 else i;
        LineIsPart(text[1..], k);
        var a, b :| 0 <= a <= b <= |text[1..]| && text[1..][a..b] == rest[k] && (k == 0 ==> a == 0);
        if i == 0 {
          assert text[0..b + 1] == [text[0]] + rest[0];
        } else {
          assert text[a + 1..b + 1] == rest[k];
        }
      }
    }
  }

  lemma LoudVisualization(k: Kinds, text: string)
    ensures Visualizes(k, text) ==> Loud(k, text)
  {
    LoudWord(k, text, k.patterns);
    if l :| l in Lines(text) && VizLine(k, l) {
      var i :| 0 <= i < |Lines(text)| && Lines(text)[i] == l;
      LineIsPart(text, i);
      var a: nat, b: nat :| a <= b <= |text| && text[a..b] == l;
      SpecialHere(k, text, a, b, l);
    }
  }

  // ---- the optimizer --------------------------------------------------------------

  const MIN_CHUNK := 15
  const CODE_VALVE := 5000

  const FENCE := "```"

  /** `s.count('```')` from `i` on. */
  function CountFences(s: string, i: nat): nat
    requires i <= |s|
    decreases |s| - i
  {
    if i + 3 > |s| then 0
    else if At(s, FENCE, i) then 1 + CountFences(s, i + 3)
    else CountFences(s, i + 1)
  }

  /** The position after the last white space, or 0. */
  function AfterLastBreak(s: string): (n: nat)
    ensures n <= |s|
  {
    if s == "" || IsSpace(s[|s| - 1]) then |s| else AfterLastBreak(s[..|s| - 1])
  }

  /** How much of the buffer goes out. */
  function ReadyLength(s: string): (n: nat)
    ensures n <= |s|
  {
    var n := AfterLastBreak(s);
    var due := if CountFences(s, 0) % 2 == 1 then |s| > CODE_VALVE else |s| >= MIN_CHUNK;
    if due && !Blank(s[..n]) then n else 0
  }

  /** No word is cut: what goes out ends in white space and what stays has none. */
  lemma {:induction false} BreakIsLast(s: string)
    ensures var n := AfterLastBreak(s);
            (n > 0 ==> IsSpace(s[n - 1])) && forall k :: n <= k < |s| ==> !IsSpace(s[k])
  {
    if s != "" && !IsSpace(s[|s| - 1]) {
      BreakIsLast(s[..|s| - 1]);
    }
  }

  /** Fences are counted one behind the other, as `count` does. */
  lemma {:induction false} FencesOneByOne(s: string, i: nat)
    requires i <= |s|
    ensures match Find(s, FENCE, i)
            case None => CountFences(s, i) == 0
            case Some(f) => CountFences(s, i) == 1 + CountFences(s, f + |FENCE|)
    decreases |s| - i
  {
    if i + |FENCE| > |s| {
      FindSpec(s, FENCE, i);
    } else if !At(s, FENCE, i) {
      FencesOneByOne(s, i + 1);
    }
  }

  /** A word and white space behind it. */
  predicate WordEnds(s: string) {
    exists i, j :: 0 <= i < j < |s| && !IsSpace(s[i]) && IsSpace(s[j])
  }

  /** Enough text for sending: 15 characters, or more than 5000 inside a code block. */
  predicate Due(s: string) {
    if CountFences(s, 0) % 2 == 1 then |s| > 5000 else |s| >= 15
  }

  /** Words are sent exactly if there is enough text and a word has ended, and
      then up to the last white space. */
  lemma ReadyIff(s: string)
    ensures var n := ReadyLength(s);
            && (n > 0 <==> Due(s) && WordEnds(s))
            && (n > 0 ==> IsSpace(s[n - 1]) && forall k :: n <= k < |s| ==> !IsSpace(s[k]))
  {
    BreakIsLast(s);
    var n := AfterLastBreak(s);
    if !Blank(s[..n]) {
      var i :| 0 <= i < n && !IsSpace(s[..n][i]);
      assert s[..n][i] == s[i];
    }
    if WordEnds(s) {
      var i, j :| 0 <= i < j < |s| && !IsSpace(s[i]) && IsSpace(s[j]);
      assert s[..n][i] == s[i];
    }
  }

  /** What flushing lets out. */
  function Flushed(buffer: string): string {
    if Blank(buffer) then "" else buffer
  }

  class StreamingContentOptimizer {
    var buffer: string
    var inCodeBlock: bool

    constructor ()
      ensures buffer == ""
    {
      buffer, inCodeBlock := "", false;
    }

    method AddContent(content: string) returns (chunk: string)
      modifies this
      ensures var all := old(buffer) + content;
              chunk == all[..ReadyLength(all)] && buffer == all[ReadyLength(all)..]
              && inCodeBlock == (CountFences(all, 0) % 2 == 1)
    {
      buffer := buffer + content;
      inCodeBlock := CountFences(buffer, 0) % 2 == 1;
      if (if inCodeBlock then |buffer| > CODE_VALVE else |buffer| >= MIN_CHUNK) {
        var n := AfterLastBreak(buffer);
        if !Blank(buffer[..n]) {
          chunk := buffer[..n];
          buffer := buffer[n..];
          return;
        }
      }
      chunk := "";
    }

    /** White space alone is never flushed. */
    method FlushRemaining() returns (chunk: string)
      modifies this`buffer
      ensures buffer == if Blank(old(buffer)) then old(buffer) else ""
      ensures chunk == Flushed(old(buffer)) && chunk + buffer == old(buffer)
    {
      if Strip(buffer) != "" {
        StripSpec(buffer);
        chunk := buffer;
        buffer := "";
      } else {
        StripSpec(buffer);
        chunk := "";
      }
    }
  }

  // ---- fence openings that wait -----------------------------------------------------

  /** Either all text waits, or some goes on and the rest waits. */
  datatype Passage = Keep(held: string) | Go(text: string, held: string)

  /** Where the last line starts. */
  function LastLine(text: string): (p: nat)
    ensures p <= |text|
  {
    if text == "" || text[|text| - 1] == '\n' then |text| else LastLine(text[..|text| - 1])
  }

  function PassageOf(inBlock: bool, text: string): Passage {
    if !inBlock && text != "" && text[|text| - 1] == '`' then Keep(text)
    else
      var p := LastLine(text);
      var last := Strip(text[p..]);
      if inBlock || Find(text, FENCE, 0).None? || !At(last, FENCE, 0) || At(last, FENCE, |last| - 3) then Go(text, "")
      else if p > 0 then Go(text[..p], text[p..])
      else Keep(text)
  }

  /** Nothing is lost, and what waits holds a backtick. */
  lemma PassageKeeps(inBlock: bool, text: string)
    ensures match PassageOf(inBlock, text)
            case Keep(h) => h == text && '`' in h
            case Go(t, h) => t + h == text && (h != "" ==> '`' in h)
  {
    var p := LastLine(text);
    var last := text[p..];
    assert text[..p] + last == text;
    Nil(text);
    if At(Strip(last), FENCE, 0) {
      FenceHasTick(last);
    }
  }

  lemma FenceHasTick(s: string)
    requires At(Strip(s), FENCE, 0)
    ensures '`' in s
  {
    StripMember(s, '`');
    assert Strip(s)[0 + 0] == FENCE[0];
  }

  predicate EndsInTick(s: string) {
    s != "" && s[|s| - 1] == '`'
  }

  /** A fence opening that may go on: a fence in front and none at the end. */
  predicate MayGoOn(line: string) {
    var l := Strip(line);
    FENCE <= l && l[|l| - |FENCE|..] != FENCE
  }

  lemma {:induction false} LastLineIs(front: string, line: string)
    requires '\n' !in line && (front == "" || front[|front| - 1] == '\n')
    ensures LastLine(front + line) == |front|
  {
    var text := front + line;
    if line == "" {
      Nil(front);
    } else {
      assert text[|text| - 1] == line[|line| - 1];
      assert text[..|text| - 1] == front + line[..|line| - 1];
      LastLineIs(front, line[..|line| - 1]);
    }
  }

  lemma FenceAtEnds(l: string)
    ensures At(l, FENCE, 0) <==> FENCE <= l
    ensures FENCE <= l ==> (At(l, FENCE, |l| - |FENCE|) <==> l[|l| - |FENCE|..] == FENCE)
  {
    if At(l, FENCE, 0) {
      assert forall k :: 0 <= k < |FENCE| ==> l[0 + k] == FENCE[k];
    }
    if FENCE <= l {
      var e := l[|l| - |FENCE|..];
      assert forall k :: 0 <= k < |FENCE| ==> l[|l| - |FENCE| + k] == e[k];
    }
  }

  lemma FenceInside(front: string, line: string)
    requires FENCE <= Strip(line)
    ensures Find(front + line, FENCE, 0).Some?
  {
    StripSpec(line);
    var i, j :| 0 <= i <= j <= |line| && Strip(line) == line[i..j];
    assert forall k :: 0 <= k < |FENCE| ==> (front + line)[|front| + i + k] == line[i..j][k];
    FindSpec(front + line, FENCE, 0);
    assert At(front + line, FENCE, |front| + i);
  }

  /** What waits, with `line` for the last line of the text: inside a block
      nothing; outside, all of a text that ends in a backtick, and otherwise a
      last line that is a fence opening and may go on. */
  lemma PassageIs(inBlock: bool, front: string, line: string)
    requires '\n' !in line && (front == "" || front[|front| - 1] == '\n')
    ensures PassageOf(inBlock, front + line) ==
            if inBlock || !(EndsInTick(line) || MayGoOn(line)) then Go(front + line, "")
            else if EndsInTick(line) || front == "" then Keep(front + line)
            else Go(front, line)
  {
    LastLineIs(front, line);
    Halves(front, line);
    OpeningOf(front, line);
  }

  lemma Halves(front: string, line: string)
    requires front == "" || front[|front| - 1] == '\n'
    ensures (front + line)[..|front|] == front && (front + line)[|front|..] == line
    ensures front == "" ==> front + line == line
    ensures EndsInTick(front + line) <==> EndsInTick(line)
  {
    var text := front + line;
    if line == "" {
      assert text == front;
    } else {
      assert text[|text| - 1] == line[|line| - 1];
    }
  }

  /** The source's three tests of the last line. */
  lemma OpeningOf(front: string, line: string)
    ensures var last := Strip(line);
            MayGoOn(line) <==>
            Find(front + line, FENCE, 0).Some? && At(last, FENCE, 0) && !At(last, FENCE, |last| - |FENCE|)
  {
    FenceAtEnds(Strip(line));
    if FENCE <= Strip(line) {
      FenceInside(front, line);
    }
  }
}
