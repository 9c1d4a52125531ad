/** The line-by-line fence tracker of the streaming engine
    (`_update_code_block_tracker`) and its comparison with the fenced code
    blocks of section 4.5 of the CommonMark Spec 0.31.2. */
module FenceTracker {
  import opened Strings

  datatype Tracker = Tracker(
    inBlock: bool, blockType: Option<string>, width: nat, transitions: nat, accumulated: string)

  const FRESH := Tracker(false, None, 3, 0, "")

  /** How many `c` follow one another from `i` on. */
  function RunLength(s: string, i: nat, c: char): (n: nat)
    requires i <= |s|
    ensures i + n <= |s|
    decreases |s| - i
  {
    if i < |s| && s[i] == c then 1 + RunLength(s, i + 1, c) else 0
  }

  lemma {:induction false} RunLengthSpec(s: string, i: nat, c: char)
    requires i <= |s|
    ensures var n := RunLength(s, i, c);
            (forall k :: i <= k < i + n ==> s[k] == c) && (i + n < |s| ==> s[i + n] != c)
    decreases |s| - i
  {
    if i < |s| && s[i] == c {
      RunLengthSpec(s, i + 1, c);
    }
  }

  lemma {:induction false} RunLengthIs(s: string, i: nat, c: char, n: nat)
    requires i + n <= |s|
    requires (forall k :: i <= k < i + n ==> s[k] == c) && (i + n < |s| ==> s[i + n] != c)
    ensures RunLength(s, i, c) == n
    decreases n
  {
    if n > 0 {
      RunLengthIs(s, i + 1, c, n - 1);
    }
  }

  /** A fence as the tracker sees it: its width and what follows it. */
  datatype Fence = Fence(width: nat, tag: string)

  function FenceOf(line: string): (f: Option<Fence>)
    ensures f.Some? ==> f.value.width >= 3
  {
    var stripped := Strip(line);
    var n := RunLength(stripped, 0, '`');
    if n >= 3 then Some(Fence(n, Strip(stripped[n..]))) else None
  }

  predicate IsLetter(c: char) {
    'a' <= c <= 'z' || 'A' <= c <= 'Z'
  }

  predicate IsTagChar(c: char) {
    IsLetter(c) || '0' <= c <= '9' || c == '+' || c == '#' || c == '_' || c == '-'
  }

  /** `_LANG_TAG_RE`. */
  predicate PlausibleTag(tag: string) {
    1 <= |tag| <= 31 && IsLetter(tag[0]) && forall i :: 0 <= i < |tag| ==> IsTagChar(tag[i])
  }

  function Opened(t: Tracker, line: string, width: nat, blockType: Option<string>): Tracker {
    Tracker(true, blockType, width, t.transitions + 1, line + "\n")
  }

  function LineStep(t: Tracker, line: string): Tracker {
    match FenceOf(line)
    case None => t
    case Some(Fence(n, tag)) =>
      if tag != "" then
        if ' ' in tag && !t.inBlock then t
        else if t.inBlock && n < t.width then t
        else Opened(t, line, n, if PlausibleTag(tag) then Some(tag) else None)
      else if t.inBlock then
        if n < t.width then t else t.(inBlock := false, blockType := None, width := 0, transitions := t.transitions + 1)
      else Opened(t, line, n, None)
  }

  function AfterLines(t: Tracker, lines: seq<string>): Tracker
    decreases |lines|
  {
    if lines == [] then t else AfterLines(LineStep(t, lines[0]), lines[1..])
  }

  function Updated(t: Tracker, text: string): Tracker {
    if text == "" then t else AfterLines(t, Lines(text))
  }

  class CodeBlockTracker {
    var state: Tracker

    constructor ()
      ensures state == FRESH
    {
      state := FRESH;
    }

    method Update(text: string)
      modifies this
      ensures state == Updated(old(state), text)
    {
      if text == "" {
        return;
      }
      var lines := Lines(text);
      for i := 0 to |lines|
        invariant AfterLines(old(state), lines) == AfterLines(state, lines[i..])
      {
        assert lines[i..][1..] == lines[i + 1..];
        var fence := FenceOf(lines[i]);
        if fence.Some? {
          var (n, tag) := (fence.value.width, fence.value.tag);
          if tag != "" {
            if !(' ' in tag && !state.inBlock) && !(state.inBlock && n < state.width) {
              state := Opened(state, lines[i], n, if PlausibleTag(tag) then Some(tag) else None);
            }
          } else if state.inBlock {
            if n >= state.width {
              state := state.(inBlock := false, blockType := None, width := 0, transitions := state.transitions + 1);
            }
          } else {
            state := Opened(state, lines[i], n, None);
          }
        }
      }
    }
  }

  // ---- splitting and skipping ---------------------------------------------

  lemma {:induction false} AfterLinesAppend(t: Tracker, a: seq<string>, b: seq<string>)
    ensures AfterLines(t, a + b) == AfterLines(AfterLines(t, a), b)
    decreases |a|
  {
    if a == [] {
      assert a + b == b;
    } else {
      assert (a + b)[1..] == a[1..] + b;
      AfterLinesAppend(LineStep(t, a[0]), a[1..], b);
    }
  }

  lemma EmptyLine(t: Tracker)
    ensures AfterLines(t, [""]) == t
  {
    assert LineStep(t, "") == t;
    assert AfterLines(t, [""]) == AfterLines(LineStep(t, ""), [""][1..]);
  }

  /** Text may be cut at any newline. */
  lemma UpdateSplits(t: Tracker, a: string, b: string)
    ensures Updated(t, a + "\n" + b) == Updated(Updated(t, a), b)
  {
    LinesAppend(a, b);
    AfterLinesAppend(t, Lines(a), Lines(b));
    EmptyLine(t);
    EmptyLine(Updated(t, a));
  }

  /** A run of lines leaves an open tracker as it is exactly when none of them
      is a fence as wide as the opener. */
  lemma {:induction false} NarrowLinesKeep(t: Tracker, lines: seq<string>)
    requires t.inBlock
    ensures AfterLines(t, lines) == t <==>
            forall l :: l in lines ==> FenceOf(l).Some? ==> FenceOf(l).value.width < t.width
  {
    if lines != [] {
      var t' := LineStep(t, lines[0]);
      TransitionsGrow(t', lines[1..]);
      if t' == t {
        NarrowLinesKeep(t, lines[1..]);
      }
    }
  }

  /** The transition counter never falls, and only stays put if nothing changed. */
  lemma {:induction false} TransitionsGrow(t: Tracker, lines: seq<string>)
    ensures AfterLines(t, lines).transitions >= t.transitions
    ensures AfterLines(t, lines).transitions == t.transitions <==> AfterLines(t, lines) == t
    decreases |lines|
  {
    if lines != [] {
      TransitionsGrow(LineStep(t, lines[0]), lines[1..]);
    }
  }

  /** No prose ever becomes a block type, and there is none outside a block. */
  lemma {:induction false} BlockTypeIsPlausible(t: Tracker, lines: seq<string>)
    requires t.blockType.Some? ==> t.inBlock && PlausibleTag(t.blockType.value)
    ensures var t' := AfterLines(t, lines);
            t'.blockType.Some? ==> t'.inBlock && PlausibleTag(t'.blockType.value)
    decreases |lines|
  {
    if lines != [] {
      BlockTypeIsPlausible(LineStep(t, lines[0]), lines[1..]);
    }
  }

  // ---- CommonMark, section 4.5 ----------------------------------------------

  /** The fence character and width of the open block. */
  type Reference = Option<(char, nat)>

  /** Leading spaces, then a run of `c` of this length. */
  function Indent(line: string): (i: nat)
    ensures i <= |line|
  {
    RunLength(line, 0, ' ')
  }

  predicate OpensFence(line: string, c: char) {
    var i := Indent(line);
    var n := RunLength(line, i, c);
    i <= 3 && n >= 3 && (c == '`' ==> '`' !in line[i + n..])
  }

  predicate OnlySpacesAndTabs(s: string) {
    forall i :: 0 <= i < |s| ==> s[i] == ' ' || s[i] == '\t'
  }

  predicate ClosesFence(line: string, c: char, width: nat) {
    var i := Indent(line);
    var n := RunLength(line, i, c);
    i <= 3 && n >= 3 && n >= width && OnlySpacesAndTabs(line[i + n..])
  }

  function ReferenceStep(r: Reference, line: string): Reference {
    match r
    case None =>
      if OpensFence(line, '`') then Some(('`', RunLength(line, Indent(line), '`')))
      else if OpensFence(line, '~') then Some(('~', RunLength(line, Indent(line), '~')))
      else None
    case Some((c, w)) => if ClosesFence(line, c, w) then None else r
  }

  predicate Same(t: Tracker, r: Reference) {
    r == if t.inBlock then Some(('`', t.width)) else None
  }

  /** At most three spaces of indentation and nothing else before the text. */
  predicate PlainIndent(line: string) {
    Indent(line) <= 3 && (Indent(line) < |line| ==> !IsSpace(line[Indent(line)]))
  }

  /** What follows the fence, in case it is blank, is spaces and tabs. */
  predicate PlainTail(line: string) {
    OnlySpacesAndTabs(line[Indent(line) + RunLength(line, Indent(line), '`')..])
  }

  /** Where the tracker reads a line as CommonMark does. */
  predicate Faithful(t: Tracker, line: string) {
    match FenceOf(line)
    case None => t.inBlock || !OpensFence(line, '~')
    case Some(Fence(n, tag)) =>
      if !t.inBlock then ' ' !in tag <==> (PlainIndent(line) && '`' !in tag)
      else n < t.width || (if tag == "" then PlainIndent(line) && PlainTail(line) else n == t.width)
  }

  /** Where the text of a line begins. */
  function TextStart(line: string): (k: nat)
    ensures k <= |line|
  {
    |line| - |TrimLeft(line)|
  }

  /** The tracker's view of a line in terms of the raw line. */
  lemma FenceInLine(line: string)
    ensures var k := TextStart(line); var n := RunLength(line, k, '`');
      match FenceOf(line)
      case None => n < 3
      case Some(Fence(width, tag)) =>
        && n == width && (tag == "" <==> Blank(line[k + n..])) && ('`' in tag <==> '`' in line[k + n..])
  {
    StripInLine(line);
    var stripped := Strip(line);
    var k, n := TextStart(line), RunLength(stripped, 0, '`');
    WidthInLine(line, k, stripped);
    TailInLine(line, k, stripped, n);
    TagIs(stripped[n..]);
  }

  lemma TagIs(tail: string)
    ensures (Strip(tail) == "" <==> Blank(tail)) && ('`' in Strip(tail) <==> '`' in tail)
  {
    StripSpec(tail);
    StripMember(tail, '`');
  }

  /** `s` is what lies between the white space at both ends of `line`. */
  ghost predicate Core(line: string, k: nat, s: string) {
    k + |s| <= |line| && line[k..k + |s|] == s && Blank(line[k + |s|..])
  }

  lemma StripInLine(line: string)
    ensures Core(line, TextStart(line), Strip(line))
  {
    var k := TextStart(line);
    TrimLeftSpec(line);
    TrimRightSpec(line[k..]);
    DropTwice(line, k, |Strip(line)|);
  }

  lemma WidthInLine(line: string, k: nat, s: string)
    requires Core(line, k, s)
    ensures RunLength(line, k, '`') == RunLength(s, 0, '`')
  {
    var n := RunLength(s, 0, '`');
    RunLengthSpec(s, 0, '`');
    assert forall i :: k <= i < k + n ==> line[i] == s[i - k];
    if k + n < |line| {
      assert n < |s| ==> line[k + n] == s[n];
      assert n == |s| ==> line[k + n] == line[k + |s|..][0];
    }
    RunLengthIs(line, k, '`', n);
  }

  lemma TailInLine(line: string, k: nat, s: string, n: nat)
    requires Core(line, k, s) && n <= |s|
    ensures Blank(s[n..]) <==> Blank(line[k + n..])
    ensures '`' in s[n..] <==> '`' in line[k + n..]
  {
    assert line[k + n..] == s[n..] + line[k + |s|..];
    BlankAppend(s[n..], line[k + |s|..]);
    assert '`' !in line[k + |s|..];
  }

  lemma {:induction false} TrimLeftMember(s: string, c: char)
    requires !IsSpace(c)
    ensures c in TrimLeft(s) <==> c in s
  {
    if s != "" && IsSpace(s[0]) {
      TrimLeftMember(s[1..], c);
      assert s == [s[0]] + s[1..];
    }
  }

  lemma {:induction false} TrimRightMember(s: string, c: char)
    requires !IsSpace(c)
    ensures c in TrimRight(s) <==> c in s
  {
    if s != "" && IsSpace(s[|s| - 1]) {
      TrimRightMember(s[..|s| - 1], c);
      assert s == s[..|s| - 1] + [s[|s| - 1]];
    }
  }

  lemma StripMember(s: string, c: char)
    requires !IsSpace(c)
    ensures c in Strip(s) <==> c in s
  {
    TrimLeftMember(s, c);
    TrimRightMember(TrimLeft(s), c);
  }

  lemma IndentInLine(line: string)
    ensures PlainIndent(line) ==> Indent(line) == TextStart(line)
    ensures !PlainIndent(line) ==> Indent(line) > 3 || RunLength(line, Indent(line), '`') == 0
  {
    IndentBeforeText(line);
  }

  /** The leading spaces end where the text begins, or at other white space before it. */
  lemma IndentBeforeText(line: string)
    ensures var i, k := Indent(line), TextStart(line);
            && i <= k && (k < |line| ==> !IsSpace(line[k]))
            && (i < k ==> IsSpace(line[i]) && line[i] != ' ')
  {
    TrimLeftSpec(line);
    RunLengthSpec(line, 0, ' ');
    var i, k := Indent(line), TextStart(line);
    if k < |line| {
      assert line[k] == TrimLeft(line)[0];
    }
    if i < k {
      assert line[..k][i] == line[i];
    }
  }

  /** Opening and closing backtick fences of CommonMark, as the tracker sees the line. */
  lemma CommonMarkFences(line: string, width: nat)
    requires width >= 3
    ensures OpensFence(line, '`') <==>
            PlainIndent(line) && FenceOf(line).Some? && '`' !in FenceOf(line).value.tag
    ensures ClosesFence(line, '`', width) <==>
            && PlainIndent(line) && PlainTail(line) && FenceOf(line).Some?
            && FenceOf(line).value.width >= width && FenceOf(line).value.tag == ""
    ensures PlainIndent(line) && FenceOf(line).Some? ==>
            RunLength(line, Indent(line), '`') == FenceOf(line).value.width
    ensures FenceOf(line).Some? ==> !OpensFence(line, '~')
  {
    FenceInLine(line);
    IndentInLine(line);
    TildeElsewhere(line);
  }

  lemma TildeElsewhere(line: string)
    ensures FenceOf(line).Some? ==> !OpensFence(line, '~')
  {
    FenceInLine(line);
    IndentBeforeText(line);
    RunLengthSpec(line, TextStart(line), '`');
  }

  /** The tracker and CommonMark agree after a line exactly when the line is
      one the tracker reads faithfully. */
  lemma LineAgreesIff(t: Tracker, r: Reference, line: string)
    requires Same(t, r) && (t.inBlock ==> t.width >= 3)
    ensures Same(LineStep(t, line), ReferenceStep(r, line)) <==> Faithful(t, line)
  {
    CommonMarkFences(line, if t.inBlock then t.width else 3);
  }

  /** Agreement after every line of a document. */
  predicate Agree(t: Tracker, r: Reference, lines: seq<string>)
    decreases |lines|
  {
    lines == [] ||
    var t', r' := LineStep(t, lines[0]), ReferenceStep(r, lines[0]);
    Same(t', r') && Agree(t', r', lines[1..])
  }

  /** Every line is read faithfully in the state the tracker reaches it in. */
  predicate AllFaithful(t: Tracker, lines: seq<string>)
    decreases |lines|
  {
    lines == [] || (Faithful(t, lines[0]) && AllFaithful(LineStep(t, lines[0]), lines[1..]))
  }

  /** On any document the tracker follows CommonMark through every line exactly
      when it reads every line faithfully. */
  lemma {:induction false} DocumentAgreesIff(t: Tracker, r: Reference, lines: seq<string>)
    requires Same(t, r) && (t.inBlock ==> t.width >= 3)
    ensures Agree(t, r, lines) <==> AllFaithful(t, lines)
    decreases |lines|
  {
    if lines != [] {
      LineAgreesIff(t, r, lines[0]);
      if Faithful(t, lines[0]) {
        DocumentAgreesIff(LineStep(t, lines[0]), ReferenceStep(r, lines[0]), lines[1..]);
      }
    }
  }

  /** A line as models usually write it, in a document whose fences all have width `w`. */
  predicate Usual(line: string, w: nat) {
    match FenceOf(line)
    case None => !OpensFence(line, '~')
    case Some(Fence(n, tag)) =>
      && n == w && PlainIndent(line) && ' ' !in tag && '`' !in tag && (tag == "" ==> PlainTail(line))
  }

  /** Documents whose fences all have one width, little indentation and
      single-word tags are followed through every line, missing closers
      included. */
  lemma {:induction false} UniformDocumentAgrees(t: Tracker, r: Reference, lines: seq<string>, w: nat)
    requires w >= 3 && Same(t, r) && (t.inBlock ==> t.width == w)
    requires forall l :: l in lines ==> Usual(l, w)
    ensures Agree(t, r, lines)
    decreases |lines|
  {
    if lines != [] {
      assert Usual(lines[0], w);
      LineAgreesIff(t, r, lines[0]);
      UniformDocumentAgrees(LineStep(t, lines[0]), ReferenceStep(r, lines[0]), lines[1..], w);
    }
  }


  // ---- the lines that change the tracker ------------------------------------------

  function Ticks(n: nat): (s: string)
    ensures |s| == n && forall i :: 0 <= i < n ==> s[i] == '`'
  {
    seq(n, i => '`')
  }

  lemma FenceIs(n: nat, tag: string)
    requires n >= 3 && (tag == "" || (tag[0] != '`' && !IsSpace(tag[0]) && !IsSpace(tag[|tag| - 1])))
    ensures FenceOf(Ticks(n) + tag) == Some(Fence(n, tag))
  {
    var line := Ticks(n) + tag;
    assert line[|line| - 1] == if tag == "" then '`' else tag[|tag| - 1];
    Nil(line);
    StripIs("", line, "");
    RunLengthIs(line, 0, '`', n);
    assert line[n..] == tag;
    Nil(tag);
    if tag != "" {
      StripIs("", tag, "");
    }
  }

  /** Fence lines outside a block: a plausible tag opens a block of that type, no
      tag an untyped one, and an info string with a blank none. */
  lemma OpenerIs(t: Tracker, n: nat, tag: string)
    requires !t.inBlock && n >= 3
    requires tag == "" || (tag[0] != '`' && !IsSpace(tag[0]) && !IsSpace(tag[|tag| - 1]))
    ensures var line := Ticks(n) + tag;
            var typed := Tracker(true, Some(tag), n, t.transitions + 1, line + "\n");
            LineStep(t, line) ==
            if tag == "" then typed.(blockType := None)
            else if ' ' in tag then t
            else if PlausibleTag(tag) then typed
            else typed.(blockType := None)
  {
    FenceIs(n, tag);
  }

  /** Fence lines inside a block: a narrower one is content; otherwise one with a
      tag opens the next block at once, and one without closes. */
  lemma InsideIs(t: Tracker, n: nat, tag: string)
    requires t.inBlock && n >= 3
    requires tag == "" || (tag[0] != '`' && !IsSpace(tag[0]) && !IsSpace(tag[|tag| - 1]))
    ensures var line := Ticks(n) + tag;
            LineStep(t, line) ==
            if n < t.width then t
            else if tag == "" then Tracker(false, None, 0, t.transitions + 1, t.accumulated)
            else Tracker(true, if PlausibleTag(tag) then Some(tag) else None, n, t.transitions + 1, line + "\n")
  {
    FenceIs(n, tag);
  }
}
