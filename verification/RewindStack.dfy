/** The CLI's fence stack, a reduced word of fences, and its use when a stream is rewound (app/cli.py). */
module RewindStack {
  import opened Strings

  datatype Entry = Entry(fence: char, language: string)

  type Stack = seq<Entry>

  function RunOf(s: string, c: char): (n: nat)
    ensures n <= |s|
  {
    if s != "" && s[0] == c then 1 + RunOf(s[1..], c) else 0
  }

  predicate IsWordChar(c: char) {
    'a' <= c <= 'z' || 'A' <= c <= 'Z' || '0' <= c <= '9' || c == '_'
  }

  function WordOf(s: string): string {
    if s != "" && IsWordChar(s[0]) then [s[0]] + WordOf(s[1..]) else ""
  }

  /** The fence at the start of a line, if there is one. */
  function FenceLine(line: string): Option<Entry> {
    var trimmed := TrimLeft(line);
    var ticks, tildes := RunOf(trimmed, '`'), RunOf(trimmed, '~');
    if ticks >= 3 then Some(Entry('`', WordOf(trimmed[ticks..])))
    else if tildes >= 3 then Some(Entry('~', WordOf(trimmed[tildes..])))
    else None
  }

  function StackStep(st: Stack, line: string): Stack {
    match FenceLine(line)
    case None => st
    case Some(e) => if st != [] && st[|st| - 1].fence == e.fence then st[..|st| - 1] else st + [e]
  }

  function StackOf(lines: seq<string>): Stack {
    if lines == [] then [] else StackStep(StackOf(lines[..|lines| - 1]), lines[|lines| - 1])
  }

  /** The loop of `_parse_markdown_state`. */
  method ParseMarkdownState(content: string) returns (stack: Stack)
    ensures stack == StackOf(Lines(content))
  {
    var lines := Lines(content);
    stack := [];
    for i := 0 to |lines|
      invariant stack == StackOf(lines[..i])
    {
      assert lines[..i + 1][..i] == lines[..i];
      var fence := FenceLine(lines[i]);
      if fence.Some? {
        if stack != [] && stack[|stack| - 1].fence == fence.value.fence {
          stack := stack[..|stack| - 1];
        } else {
          stack := stack + [fence.value];
        }
      }
    }
    assert lines[..|lines|] == lines;
  }

  // ---- words of fence characters -------------------------------------------

  function Fences(st: Stack): (w: string)
    ensures |w| == |st| && forall i :: 0 <= i < |w| ==> w[i] == st[i].fence
  {
    if st == [] then "" else Fences(st[..|st| - 1]) + [st[|st| - 1].fence]
  }

  /** The fence characters of a document, one for each fence line. */
  function Word(lines: seq<string>): string {
    if lines == [] then ""
    else
      var before, last := Word(lines[..|lines| - 1]), FenceLine(lines[|lines| - 1]);
      if last.Some? then before + [last.value.fence] else before
  }

  predicate Alternating(w: string) {
    forall i :: 0 < i < |w| ==> w[i] != w[i - 1]
  }

  function Push(w: string, c: char): string {
    if w != "" && w[|w| - 1] == c then w[..|w| - 1] else w + [c]
  }

  function Reduce(w: string): string {
    if w == "" then "" else Push(Reduce(w[..|w| - 1]), w[|w| - 1])
  }

  /** The stack is the reduced word of the document's fences. */
  lemma {:induction false} StackIsReducedWord(lines: seq<string>)
    ensures Fences(StackOf(lines)) == Reduce(Word(lines))
  {
    if lines != [] {
      var before, last := lines[..|lines| - 1], FenceLine(lines[|lines| - 1]);
      StackIsReducedWord(before);
      if last.Some? {
        assert (Word(before) + [last.value.fence])[..|Word(before)|] == Word(before);
      }
    }
  }

  lemma {:induction false} ReducedAlternates(w: string)
    ensures Alternating(Reduce(w))
  {
    if w != "" {
      ReducedAlternates(w[..|w| - 1]);
    }
  }

  /** Alternating words are the reduced ones. */
  lemma {:induction false} ReducedIff(w: string)
    ensures Reduce(w) == w <==> Alternating(w)
  {
    ReducedAlternates(w);
    if w != "" && Alternating(w) {
      var before := w[..|w| - 1];
      assert Alternating(before) by {
        assert forall i :: 0 <= i < |before| ==> before[i] == w[i];
      }
      ReducedIff(before);
      assert w == before + [w[|w| - 1]];
    }
  }

  lemma PushTwice(w: string, c: char)
    requires Alternating(w)
    ensures Push(Push(w, c), c) == w
  {
    var p := Push(w, c);
    if w != "" && w[|w| - 1] == c {
      assert p != "" ==> p[|p| - 1] == w[|w| - 2];
      assert p + [c] == w;
    } else {
      assert p[..|p| - 1] == w;
    }
  }

  /** Adjacent equal fences may be put in or taken out anywhere. */
  lemma {:induction false} PairCancels(u: string, c: char, v: string)
    ensures Reduce(u + [c, c] + v) == Reduce(u + v)
    decreases |v|
  {
    if v == "" {
      assert u + [c, c] + v == u + [c] + [c] && u + v == u;
      assert (u + [c] + [c])[..|u| + 1] == u + [c] && (u + [c])[..|u|] == u;
      ReducedAlternates(u);
      PushTwice(Reduce(u), c);
    } else {
      var front, last := v[..|v| - 1], v[|v| - 1];
      PairCancels(u, c, front);
      assert u + [c, c] + v == u + [c, c] + front + [last] && u + v == u + front + [last];
      assert (u + [c, c] + front + [last])[..|u + [c, c] + front|] == u + [c, c] + front;
      assert (u + front + [last])[..|u + front|] == u + front;
    }
  }

  /** `b` is `a` without one adjacent equal pair. */
  ghost predicate Cancels(a: string, b: string) {
    exists i :: 0 <= i && i + 1 < |a| && a[i] == a[i + 1] && b == a[..i] + a[i + 2..]
  }

  ghost predicate Related(ws: seq<string>) {
    ws != [] && forall i :: 0 < i < |ws| ==> Cancels(ws[i - 1], ws[i]) || Cancels(ws[i], ws[i - 1])
  }

  lemma CancelKeepsReduced(a: string, b: string)
    requires Cancels(a, b)
    ensures Reduce(a) == Reduce(b)
  {
    var i :| 0 <= i && i + 1 < |a| && a[i] == a[i + 1] && b == a[..i] + a[i + 2..];
    assert a == a[..i] + [a[i], a[i]] + a[i + 2..];
    PairCancels(a[..i], a[i], a[i + 2..]);
  }

  /** Uniqueness: whatever pairs are inserted or deleted on the way, an
      alternating word reached from `w` is its reduced word. */
  lemma {:induction false} ReducedWordIsUnique(ws: seq<string>)
    requires Related(ws) && Alternating(ws[|ws| - 1])
    ensures ws[|ws| - 1] == Reduce(ws[0])
    decreases |ws|
  {
    if |ws| == 1 {
      ReducedIff(ws[0]);
    } else {
      var rest := ws[1..];
      assert forall i :: 0 <= i < |rest| ==> rest[i] == ws[i + 1];
      ReducedWordIsUnique(rest);
      assert Cancels(ws[1 - 1], ws[1]) || Cancels(ws[1], ws[1 - 1]);
      if Cancels(ws[0], ws[1]) {
        CancelKeepsReduced(ws[0], ws[1]);
      } else {
        CancelKeepsReduced(ws[1], ws[0]);
      }
    }
  }

  /** Existence: the reduced word is reached by deletions alone. */
  lemma {:induction false} ReducedWordIsReached(w: string) returns (ws: seq<string>)
    ensures ws != [] && ws[0] == w && ws[|ws| - 1] == Reduce(w)
    ensures forall i :: 0 < i < |ws| ==> Cancels(ws[i - 1], ws[i])
  {
    if w == "" {
      ws := [w];
    } else {
      var before, c := w[..|w| - 1], w[|w| - 1];
      assert before + [c] == w;
      var xs := ReducedWordIsReached(before);
      ws := InFront(xs, c);
      var r := Reduce(before);
      if r != "" && r[|r| - 1] == c {
        LastPairCancels(r, c);
        ws := ws + [Push(r, c)];
      }
    }
  }

  lemma InFront(xs: seq<string>, c: char) returns (ws: seq<string>)
    requires xs != [] && forall i :: 0 < i < |xs| ==> Cancels(xs[i - 1], xs[i])
    ensures |ws| == |xs| && ws[0] == xs[0] + [c] && ws[|ws| - 1] == xs[|xs| - 1] + [c]
    ensures forall i :: 0 < i < |ws| ==> Cancels(ws[i - 1], ws[i])
  {
    ws := seq(|xs|, i requires 0 <= i < |xs| => xs[i] + [c]);
    forall i | 0 < i < |ws|
      ensures Cancels(ws[i - 1], ws[i])
    {
      CancelsInFront(xs[i - 1], xs[i], c);
    }
  }

  lemma LastPairCancels(r: string, c: char)
    requires r != "" && r[|r| - 1] == c
    ensures Cancels(r + [c], Push(r, c))
  {
    var i := |r| - 1;
    assert (r + [c])[i] == (r + [c])[i + 1];
    assert Push(r, c) == (r + [c])[..i] + (r + [c])[i + 2..];
  }

  lemma CancelsInFront(a: string, b: string, c: char)
    requires Cancels(a, b)
    ensures Cancels(a + [c], b + [c])
  {
    var i :| 0 <= i && i + 1 < |a| && a[i] == a[i + 1] && b == a[..i] + a[i + 2..];
    assert (a + [c])[i] == (a + [c])[i + 1];
    assert b + [c] == (a + [c])[..i] + (a + [c])[i + 2..];
  }

  // ---- rewinding -------------------------------------------------------------

  predicate Marked(line: string, marker: string): (r: bool)
    ensures r <==> exists i: nat :: At(line, marker, i)
  {
    FindSpec(line, marker, 0);
    Find(line, marker, 0).Some?
  }

  /** The index of the last marked line, or -1. */
  function LastMarked(lines: seq<string>, marker: string): (i: int)
    ensures -1 <= i < |lines| && (i >= 0 ==> Marked(lines[i], marker))
    ensures forall j :: i < j < |lines| ==> !Marked(lines[j], marker)
  {
    if lines == [] then -1
    else if Marked(lines[|lines| - 1], marker) then |lines| - 1
    else LastMarked(lines[..|lines| - 1], marker)
  }

  function Closer(st: Stack): string
    requires st != []
  {
    var f := st[|st| - 1].fence;
    "\n" + [f, f, f] + "\n"
  }

  function Rewound(lines: seq<string>): string {
    var st := StackOf(lines);
    if st == [] then Join(lines) else Join(lines) + Closer(st)
  }

  const CLOSE := " -->"
  const SPAN := "</span>"

  /** `[^\s]*` from `i` on. */
  function InkRun(w: string, i: nat): (n: nat)
    requires i <= |w|
    ensures i + n <= |w|
    decreases |w| - i
  {
    if i < |w| && !IsSpace(w[i]) then 1 + InkRun(w, i + 1) else 0
  }

  /** Where a complete marker at `i` ends, a closing span tag included. */
  function MarkerEnd(w: string, i: nat, marker: string): (e: Option<nat>)
    ensures e.Some? ==> i < e.value <= |w|
  {
    var j := i + |marker| + 1;
    if !(At(w, marker, i) && At(w, " ", j - 1)) then None
    else
      var n := InkRun(w, j);
      if n == 0 || !At(w, CLOSE, j + n) then None
      else Some(j + n + |CLOSE| + if At(w, SPAN, j + n + |CLOSE|) then |SPAN| else 0)
  }

  /** `w` from `i` on without its complete markers. */
  function Unmarked(w: string, i: nat, marker: string): (r: string)
    requires i <= |w|
    ensures |r| <= |w| - i
    decreases |w| - i
  {
    if i == |w| then ""
    else match MarkerEnd(w, i, marker)
      case Some(e) => Unmarked(w, e, marker)
      case None => [w[i]] + Unmarked(w, i + 1, marker)
  }

  ghost predicate MarkerFrom(w: string, i: nat, marker: string) {
    exists j: nat :: i <= j && MarkerEnd(w, j, marker).Some?
  }

  /** Stripping changes a text exactly if it has a complete marker. */
  lemma {:induction false} UnmarkedKeepsIff(w: string, i: nat, marker: string)
    requires i <= |w|
    ensures Unmarked(w, i, marker) == From(w, i) <==> !MarkerFrom(w, i, marker)
    decreases |w| - i
  {
    if i < |w| && MarkerEnd(w, i, marker).None? {
      UnmarkedKeepsIff(w, i + 1, marker);
      SameHead(w[i], Unmarked(w, i + 1, marker), From(w, i + 1));
      assert MarkerFrom(w, i, marker) <==> MarkerFrom(w, i + 1, marker);
    }
  }

  /** Everything before the last marked line, with the innermost block closed;
      and the whole text without its markers. The marker is `<!-- REWIND_MARKER:`. */
  method HandleRewindMarker(content: string, marker: string) returns (kept: string, stripped: string)
    ensures var i := LastMarked(Lines(content), marker);
            if !Marked(content, marker) || i < 0 then kept == stripped == content
            else kept == Rewound(Lines(content)[..i]) && stripped == Unmarked(content, 0, marker)
  {
    if !Marked(content, marker) {
      return content, content;
    }
    var lines := Lines(content);
    var i := |lines| - 1;
    assert lines[..i + 1] == lines;
    while i >= 0 && !Marked(lines[i], marker)
      invariant -1 <= i < |lines|
      invariant LastMarked(lines, marker) == LastMarked(lines[..i + 1], marker)
    {
      assert lines[..i + 1][..i] == lines[..i];
      i := i - 1;
    }
    if i < 0 {
      return content, content;
    }
    kept := CloseInnermost(lines, i);
    stripped := Unmarked(content, 0, marker);
  }

  method CloseInnermost(lines: seq<string>, i: nat) returns (kept: string)
    requires i <= |lines| && forall l :: l in lines ==> '\n' !in l
    ensures kept == Rewound(lines[..i])
  {
    kept := Join(lines[..i]);
    JoinedStack(lines, i);
    var stack := ParseMarkdownState(kept);
    if stack != [] {
      kept := kept + Closer(stack);
    }
  }

  lemma JoinedStack(lines: seq<string>, i: nat)
    requires i <= |lines| && forall l :: l in lines ==> '\n' !in l
    ensures StackOf(Lines(Join(lines[..i]))) == StackOf(lines[..i])
  {
    if i == 0 {
      assert Lines("") == [""] && FenceLine("").None?;
    } else {
      LinesOfJoin(lines[..i]);
    }
  }

  lemma FenceLineOfRun(c: char)
    requires c == '`' || c == '~'
    ensures FenceLine([c, c, c]) == Some(Entry(c, ""))
  {
    assert [c][1..] == [] && RunOf([c], c) == 1;
    assert [c, c][1..] == [c] && RunOf([c, c], c) == 2;
    assert [c, c, c][1..] == [c, c] && RunOf([c, c, c], c) == 3;
    assert c == '~' ==> RunOf([c, c, c], '`') == 0;
    assert TrimLeft([c, c, c]) == [c, c, c];
  }

  lemma {:induction false} OnlyTwoFences(lines: seq<string>)
    ensures forall e :: e in StackOf(lines) ==> e.fence == '`' || e.fence == '~'
  {
    if lines != [] {
      OnlyTwoFences(lines[..|lines| - 1]);
    }
  }

  /** The appended fence pops exactly the innermost block. */
  lemma RewindPopsInnermost(lines: seq<string>)
    requires lines != [] && forall l :: l in lines ==> '\n' !in l
    ensures var st, st' := StackOf(lines), StackOf(Lines(Rewound(lines)));
            st' == if st == [] then [] else st[..|st| - 1]
  {
    LinesOfJoin(lines);
    var st := StackOf(lines);
    if st != [] {
      var f := st[|st| - 1].fence;
      OnlyTwoFences(lines);
      assert st[|st| - 1] in st;
      LinesOfRewound(lines, f);
      FenceLineOfRun(f);
      assert FenceLine("").None?;
      OneMoreLine(lines, [f, f, f]);
      OneMoreLine(lines + [[f, f, f]], "");
    }
  }

  lemma OneMoreLine(lines: seq<string>, line: string)
    ensures StackOf(lines + [line]) == StackStep(StackOf(lines), line)
  {
    assert (lines + [line])[..|lines|] == lines;
  }

  lemma LinesOfRewound(lines: seq<string>, f: char)
    requires lines != [] && (forall l :: l in lines ==> '\n' !in l) && f != '\n'
    ensures Lines(Join(lines) + ("\n" + [f, f, f] + "\n")) == lines + [[f, f, f]] + [""]
  {
    LinesOfJoin(lines);
    assert Join(lines) + ("\n" + [f, f, f] + "\n") == Join(lines) + "\n" + ([f, f, f] + "\n" + "");
    LinesAppend(Join(lines), [f, f, f] + "\n" + "");
    LinesAppend([f, f, f], "");
    LinesOfLine([f, f, f]);
    Assoc(lines, [[f, f, f]], [""]);
  }

  /** So rewound text is outside any block exactly when at most one was open;
      in particular whenever all fences use one character. */
  lemma RewindClosesIff(lines: seq<string>)
    requires lines != [] && forall l :: l in lines ==> '\n' !in l
    ensures StackOf(Lines(Rewound(lines))) == [] <==> |StackOf(lines)| <= 1
    ensures (forall i, j :: 0 <= i < |Word(lines)| && 0 <= j < |Word(lines)| ==> Word(lines)[i] == Word(lines)[j]) ==>
            |StackOf(lines)| <= 1
  {
    RewindPopsInnermost(lines);
    StackIsReducedWord(lines);
    var w := Word(lines);
    if forall i, j :: 0 <= i < |w| && 0 <= j < |w| ==> w[i] == w[j] {
      OneCharacter(w);
    }
  }

  lemma {:induction false} OneCharacter(w: string)
    requires forall i, j :: 0 <= i < |w| && 0 <= j < |w| ==> w[i] == w[j]
    ensures |Reduce(w)| <= 1 && forall i, j :: 0 <= i < |Reduce(w)| && 0 <= j < |w| ==> Reduce(w)[i] == w[j]
  {
    if w != "" {
      OneCharacter(w[..|w| - 1]);
    }
  }

  /** `n` characters from `i` on that are not white space. */
  predicate Ink(w: string, i: nat, n: nat) {
    n > 0 && i + n <= |w| && forall k :: i <= k < i + n ==> !IsSpace(w[k])
  }

  /** A complete marker: the marker, a blank, a word of `n` characters, and the
      end of the comment. */
  predicate CompleteAt(w: string, i: nat, marker: string, n: nat) {
    && At(w, marker, i) && At(w, " ", i + |marker|) && Ink(w, i + |marker| + 1, n)
    && At(w, " -->", i + |marker| + 1 + n)
  }

  lemma {:induction false} InkRunIs(w: string, i: nat, n: nat)
    requires Ink(w, i, n) && i + n < |w| && IsSpace(w[i + n])
    ensures InkRun(w, i) == n
    decreases n
  {
    if n > 1 {
      InkRunIs(w, i + 1, n - 1);
    }
  }

  lemma {:induction false} InkRunSpec(w: string, i: nat)
    requires i <= |w|
    ensures InkRun(w, i) > 0 ==> Ink(w, i, InkRun(w, i))
    decreases |w| - i
  {
    if i < |w| && !IsSpace(w[i]) {
      InkRunSpec(w, i + 1);
    }
  }

  /** What is stripped at `i`: a complete marker and a closing span behind it. */
  lemma MarkerEndIs(w: string, i: nat, marker: string, n: nat)
    ensures CompleteAt(w, i, marker, n) ==>
              var e := i + |marker| + 1 + n + 4;
              MarkerEnd(w, i, marker) == Some(e + if At(w, "</span>", e) then 7 else 0)
    ensures MarkerEnd(w, i, marker).Some? ==> exists m: nat :: CompleteAt(w, i, marker, m)
  {
    var j := i + |marker| + 1;
    if CompleteAt(w, i, marker, n) {
      AtOne(w, ' ', j - 1);
      assert w[j + n + 0] == CLOSE[0];
      InkRunIs(w, j, n);
    }
    if MarkerEnd(w, i, marker).Some? {
      AtOne(w, ' ', j - 1);
      InkRunSpec(w, j);
      assert CompleteAt(w, i, marker, InkRun(w, j));
    }
  }

  // ---- the lines that are fences --------------------------------------------------

  function Repeated(c: char, n: nat): (s: string)
    ensures |s| == n && forall i :: 0 <= i < n ==> s[i] == c
  {
    seq(n, i => c)
  }

  predicate InWord(c: char) {
    'a' <= c <= 'z' || 'A' <= c <= 'Z' || '0' <= c <= '9' || c == '_'
  }

  lemma {:induction false} RunOfIs(n: nat, c: char, rest: string)
    requires rest == "" || rest[0] != c
    ensures RunOf(Repeated(c, n) + rest, c) == n
    decreases n
  {
    if n == 0 {
      assert Repeated(c, n) + rest == rest;
    } else {
      assert (Repeated(c, n) + rest)[1..] == Repeated(c, n - 1) + rest;
      RunOfIs(n - 1, c, rest);
    }
  }

  lemma {:induction false} WordOfIs(word: string, rest: string)
    requires (forall k :: 0 <= k < |word| ==> InWord(word[k])) && (rest == "" || !InWord(rest[0]))
    ensures WordOf(word + rest) == word
  {
    if word == "" {
      Nil(rest);
    } else {
      assert (word + rest)[1..] == word[1..] + rest;
      WordOfIs(word[1..], rest);
    }
  }

  /** A fence line: white space, three or more backticks or tildes, a word of a
      language, and anything. */
  lemma FenceLineIs(space: string, c: char, n: nat, word: string, rest: string)
    requires Blank(space) && n >= 3 && (c == '`' || c == '~') && (forall k :: 0 <= k < |word| ==> InWord(word[k]))
    requires (rest == "" || !InWord(rest[0])) && (word + rest == "" || (word + rest)[0] != c)
    ensures FenceLine(space + (Repeated(c, n) + (word + rest))) == Some(Entry(c, word))
  {
    var trimmed := Repeated(c, n) + (word + rest);
    TrimLeftIs(space, trimmed);
    RunOfIs(n, c, word + rest);
    assert trimmed[n..] == word + rest;
    WordOfIs(word, rest);
  }

  /** Every other line is none. */
  lemma FenceLineNeeds(line: string)
    requires FenceLine(line).Some?
    ensures exists space, c, rest: string ::
              line == space + ([c, c, c] + rest) && Blank(space) && (c == '`' || c == '~')
  {
    TrimLeftSpec(line);
    var t := TrimLeft(line);
    var c := FenceLine(line).value.fence;
    ThreeAhead(t, c);
    assert line == line[..|line| - |t|] + ([c, c, c] + t[3..]);
  }

  lemma ThreeAhead(t: string, c: char)
    requires RunOf(t, c) >= 3
    ensures |t| >= 3 && t == [c, c, c] + t[3..]
  {
    assert RunOf(t[1..], c) >= 2 && RunOf(t[1..][1..], c) >= 1;
    assert t[1..][0] == t[1] && t[1..][1..][0] == t[2];
  }
}
