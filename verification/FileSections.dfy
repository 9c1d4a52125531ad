/** File sections of the system prompt (`_extract_file_contents_from_messages`
    and `_record_calibration` in app/streaming_tool_executor.py) against the
    printer that writes them (app/agents/agent.py and
    app/utils/file_state_manager.py).

    A Python dictionary is the sequence of its entries in insertion order. */
module FileSections {
  import opened Strings

  datatype Entry = Entry(path: string, content: string)

  type Dict = seq<Entry>

  /** `d[path] = content`. */
  function Put(d: Dict, path: string, content: string): Dict {
    if d == [] then [Entry(path, content)]
    else if d[0].path == path then [Entry(path, content)] + d[1..]
    else [d[0]] + Put(d[1..], path, content)
  }

  const HEADER := "File: "

  predicate IsHeader(line: string) {
    |line| >= 6 && line[..6] == HEADER
  }

  predicate IsDigits(s: string) {
    forall k :: 0 <= k < |s| ==> '0' <= s[k] <= '9'
  }

  predicate IsState(c: char) {
    c == ' ' || c == '+' || c == '*'
  }

  /** `line[1:b]` is a line number of three digits or more and a state. */
  predicate IsLabel(line: string, b: nat) {
    5 <= b <= 8 && b < |line| && IsDigits(line[1..b - 1]) && IsState(line[b - 1])
  }

  /** A content line without its label. */
  function LineContent(line: string): string {
    if |line| >= 6 && line[0] == '[' then
      match Find(line, "]", 1)
      case Some(b) =>
        if IsLabel(line, b) then (if b + 2 < |line| then line[b + 2..] else "") else line
      case None => line
    else line
  }

  datatype Parse = Parse(files: Dict, path: string, content: seq<string>)

  function Saved(p: Parse): Dict {
    if p.path != "" && p.content != [] then Put(p.files, p.path, Join(p.content)) else p.files
  }

  function Step(p: Parse, line: string): Parse {
    if IsHeader(line) then Parse(Saved(p), Strip(line[6..]), [])
    else if p.path != "" then p.(content := p.content + [LineContent(line)])
    else p
  }

  function Steps(p: Parse, lines: seq<string>): Parse {
    if lines == [] then p else Step(Steps(p, lines[..|lines| - 1]), lines[|lines| - 1])
  }

  const NOTHING := Parse([], "", [])

  function Sections(text: string): Dict {
    Saved(Steps(NOTHING, Lines(text)))
  }

  method ExtractSections(text: string) returns (files: Dict)
    ensures files == Sections(text)
  {
    files := [];
    if Find(text, HEADER, 0).None? {
      NoHeaderNoSections(text);
      return;
    }
    var lines := Lines(text);
    var path := "";
    var content: seq<string> := [];
    for i := 0 to |lines|
      invariant Parse(files, path, content) == Steps(NOTHING, lines[..i])
    {
      assert lines[..i + 1][..i] == lines[..i];
      var line := lines[i];
      if IsHeader(line) {
        if path != "" && content != [] {
          files := Put(files, path, Join(content));
        }
        path := Strip(line[6..]);
        content := [];
      } else if path != "" {
        var actual := line;
        if |line| >= 6 && line[0] == '[' {
          var bracket := Find(line, "]", 1);
          if bracket.Some? && IsLabel(line, bracket.value) {
            actual := if bracket.value + 2 < |line| then line[bracket.value + 2..] else "";
          }
        }
        content := content + [actual];
      }
    }
    assert lines[..|lines|] == lines;
    if path != "" && content != [] {
      files := Put(files, path, Join(content));
    }
  }

  lemma {:induction false} HeaderInText(text: string, i: nat)
    requires i < |Lines(text)| && IsHeader(Lines(text)[i])
    ensures exists j: nat :: At(text, HEADER, j) && (i == 0 ==> j == 0)
  {
    if text != "" {
      var rest := Lines(text[1..]);
      if text[0] == '\n' || i > 0 {
        var k := if text[0] == '\n' then i - 1 else i;
        assert rest[k] == Lines(text)[i];
        HeaderInText(text[1..], k);
        var j: nat :| At(text[1..], HEADER, j);
        assert At(text, HEADER, j + 1);
      } else {
        FirstLineStarts(text);
        assert At(text, HEADER, 0);
      }
    }
  }

  lemma {:induction false} FirstLineStarts(text: string)
    ensures Lines(text)[0] <= text
  {
    if text != "" {
      FirstLineStarts(text[1..]);
    }
  }

  lemma {:induction false} NoHeaderStays(lines: seq<string>)
    requires forall l :: l in lines ==> !IsHeader(l)
    ensures Steps(NOTHING, lines) == NOTHING
  {
    if lines != [] {
      assert lines[|lines| - 1] in lines;
      NoHeaderStays(lines[..|lines| - 1]);
    }
  }

  lemma NoHeaderNoSections(text: string)
    requires Find(text, HEADER, 0).None?
    ensures Sections(text) == []
  {
    FindSpec(text, HEADER, 0);
    forall l | l in Lines(text)
      ensures !IsHeader(l)
    {
      var i :| 0 <= i < |Lines(text)| && Lines(text)[i] == l;
      if IsHeader(l) {
        HeaderInText(text, i);
      }
    }
    NoHeaderStays(Lines(text));
  }

  // ---- the printer ------------------------------------------------------------

  datatype Line = Line(text: string, state: char)

  /** A printed file; `gap` counts the blank lines after it. */
  datatype File = File(path: string, lines: seq<Line>, gap: nat)

  /** Python's `f"{n:03d}"`. */
  function Padded(n: nat): string {
    if n < 10 then "00" + Decimal(n) else if n < 100 then "0" + Decimal(n) else Decimal(n)
  }

  function Annotated(n: nat, l: Line): string {
    ['['] + Padded(n) + [l.state, ']', ' '] + l.text
  }

  function AnnotatedLines(ls: seq<Line>): seq<string> {
    if ls == [] then [] else AnnotatedLines(ls[..|ls| - 1]) + [Annotated(|ls|, ls[|ls| - 1])]
  }

  function Blanks(n: nat): (r: seq<string>)
    ensures |r| == n
  {
    if n == 0 then [] else Blanks(n - 1) + [""]
  }

  function FileLines(f: File): seq<string> {
    [HEADER + f.path] + AnnotatedLines(f.lines) + Blanks(f.gap)
  }

  function DocumentLines(fs: seq<File>): seq<string> {
    if fs == [] then [] else DocumentLines(fs[..|fs| - 1]) + FileLines(fs[|fs| - 1])
  }

  predicate PrintableLine(l: Line) {
    IsState(l.state) && '\n' !in l.text
  }

  predicate Printable(f: File) {
    '\n' !in f.path && forall l :: l in f.lines ==> PrintableLine(l)
  }

  const LAST_LABEL := 999999

  /** What is read back from line `n`: past six digits the label stays on. */
  function ReadBack(n: nat, l: Line): string {
    if n <= LAST_LABEL then l.text else Annotated(n, l)
  }

  function ReadBackLines(ls: seq<Line>): (r: seq<string>)
    ensures |r| == |ls|
  {
    if ls == [] then [] else ReadBackLines(ls[..|ls| - 1]) + [ReadBack(|ls|, ls[|ls| - 1])]
  }

  function Body(f: File): seq<string> {
    ReadBackLines(f.lines) + Blanks(f.gap)
  }

  /** What reading a printed document gives back. */
  function Table(fs: seq<File>): Dict {
    if fs == [] then []
    else
      var before, f := Table(fs[..|fs| - 1]), fs[|fs| - 1];
      if Strip(f.path) != "" && Body(f) != [] then Put(before, Strip(f.path), Join(Body(f))) else before
  }

  function Pow10(k: nat): (r: nat)
    ensures r > 0
  {
    if k == 0 then 1 else 10 * Pow10(k - 1)
  }

  lemma {:induction false} DecimalLength(n: nat, k: nat)
    requires k > 0
    ensures |Decimal(n)| <= k <==> n < Pow10(k)
  {
    if n >= 10 && k > 1 {
      DecimalLength(n / 10, k - 1);
    }
  }

  lemma PaddedSpec(n: nat)
    ensures |Padded(n)| >= 3 && IsDigits(Padded(n))
    ensures |Padded(n)| <= 6 <==> n <= LAST_LABEL
  {
    DecimalLength(n, 1);
    DecimalLength(n, 2);
    DecimalLength(n, 6);
    assert Pow10(1) == 10;
    assert Pow10(2) == 100;
    assert Pow10(4) == 10000;
    assert Pow10(6) == 1000000;
    assert forall k :: 0 <= k < |Decimal(n)| ==> Decimal(n)[k] in Decimal(n);
  }

  /** A label is cut off exactly up to line 999999. */
  lemma AnnotatedReadsBack(n: nat, l: Line)
    requires PrintableLine(l)
    ensures LineContent(Annotated(n, l)) == ReadBack(n, l)
    ensures LineContent(Annotated(n, l)) == l.text <==> n <= LAST_LABEL
    ensures !IsHeader(Annotated(n, l)) && '\n' !in Annotated(n, l)
  {
    var line, d := Annotated(n, l), Padded(n);
    PaddedSpec(n);
    var b := |d| + 2;
    assert line == ['['] + d + [l.state, ']', ' '] + l.text;
    assert line[1..b - 1] == d && line[b - 1] == l.state && line[b] == ']' && line[b + 2..] == l.text;
    forall j: nat | 1 <= j < b
      ensures !At(line, "]", j)
    {
      assert j < b - 1 ==> line[j] == d[j - 1];
      assert line[j] != ']';
      AtOne(line, ']', j);
    }
    FindIs(line, "]", 1, b);
    assert forall k :: 0 <= k < |line| ==> line[k] != '\n' by {
      assert forall k :: 1 <= k < b - 1 ==> line[k] == d[k - 1];
      assert forall k :: b + 2 <= k < |line| ==> line[k] == l.text[k - b - 2];
    }
    assert line[..6][0] == '[';
  }

  lemma {:induction false} StepsAppend(p: Parse, a: seq<string>, b: seq<string>)
    ensures Steps(p, a + b) == Steps(Steps(p, a), b)
  {
    if b == [] {
      assert a + b == a;
    } else {
      assert (a + b)[..|a + b| - 1] == a + b[..|b| - 1];
      StepsAppend(p, a, b[..|b| - 1]);
    }
  }

  function WithContent(p: Parse, lines: seq<string>): Parse {
    if p.path == "" then p else p.(content := p.content + lines)
  }

  lemma {:induction false} AnnotatedSteps(p: Parse, ls: seq<Line>)
    requires forall l :: l in ls ==> PrintableLine(l)
    ensures Steps(p, AnnotatedLines(ls)) == WithContent(p, ReadBackLines(ls))
  {
    if ls == [] {
      assert p.content + [] == p.content;
    } else {
      var front, l := ls[..|ls| - 1], ls[|ls| - 1];
      AnnotatedSteps(p, front);
      assert l in ls;
      AnnotatedReadsBack(|ls|, l);
      var printed := AnnotatedLines(front);
      assert (printed + [Annotated(|ls|, l)])[..|printed|] == printed;
      Assoc(p.content, ReadBackLines(front), [ReadBack(|ls|, l)]);
    }
  }

  lemma {:induction false} BlankSteps(p: Parse, n: nat)
    ensures Steps(p, Blanks(n)) == WithContent(p, Blanks(n))
  {
    if n == 0 {
      assert p.content + [] == p.content;
    } else {
      BlankSteps(p, n - 1);
      assert Blanks(n)[..n - 1] == Blanks(n - 1);
      Assoc(p.content, Blanks(n - 1), [""]);
    }
  }

  lemma NoneBefore(l: string)
    ensures [l][..0] == []
  {
  }

  lemma HeaderStep(p: Parse, path: string)
    ensures Steps(p, [HEADER + path]) == Parse(Saved(p), Strip(path), [])
  {
    var head := HEADER + path;
    NoneBefore(head);
    assert head[6..] == path && head[..6] == HEADER;
  }

  lemma FileSteps(p: Parse, f: File)
    requires Printable(f)
    ensures Steps(p, FileLines(f)) == WithContent(Parse(Saved(p), Strip(f.path), []), Body(f))
  {
    var head := [HEADER + f.path];
    var begun := Parse(Saved(p), Strip(f.path), []);
    HeaderStep(p, f.path);
    StepsAppend(p, head, AnnotatedLines(f.lines));
    AnnotatedSteps(begun, f.lines);
    StepsAppend(p, head + AnnotatedLines(f.lines), Blanks(f.gap));
    BlankSteps(WithContent(begun, ReadBackLines(f.lines)), f.gap);
    WithContentTwice(begun, ReadBackLines(f.lines), Blanks(f.gap));
  }

  lemma WithContentTwice(p: Parse, a: seq<string>, b: seq<string>)
    ensures WithContent(WithContent(p, a), b) == WithContent(p, a + b)
  {
    Assoc(p.content, a, b);
  }

  lemma SavedBody(files: Dict, path: string, body: seq<string>)
    ensures Saved(WithContent(Parse(files, path, []), body))
            == if path != "" && body != [] then Put(files, path, Join(body)) else files
  {
    assert [] + body == body;
  }

  lemma DocumentGrows(p: Parse, fs: seq<File>)
    requires fs != [] && Printable(fs[|fs| - 1])
    requires Saved(Steps(p, DocumentLines(fs[..|fs| - 1]))) == Table(fs[..|fs| - 1])
    ensures Saved(Steps(p, DocumentLines(fs))) == Table(fs)
  {
    var front, f := fs[..|fs| - 1], fs[|fs| - 1];
    StepsAppend(p, DocumentLines(front), FileLines(f));
    FileSteps(Steps(p, DocumentLines(front)), f);
    SavedBody(Table(front), Strip(f.path), Body(f));
  }

  lemma {:induction false} DocumentSteps(p: Parse, fs: seq<File>)
    requires p == NOTHING && forall f :: f in fs ==> Printable(f)
    ensures Saved(Steps(p, DocumentLines(fs))) == Table(fs)
  {
    if fs != [] {
      var front, f := fs[..|fs| - 1], fs[|fs| - 1];
      assert f in fs;
      DocumentSteps(p, front);
      DocumentGrows(p, fs);
    }
  }

  lemma {:induction false} DocumentHasLines(fs: seq<File>)
    requires forall f :: f in fs ==> Printable(f)
    ensures forall l :: l in DocumentLines(fs) ==> '\n' !in l
  {
    if fs != [] {
      var f := fs[|fs| - 1];
      assert f in fs;
      DocumentHasLines(fs[..|fs| - 1]);
      AnnotatedHaveNoBreak(f.lines);
      BlanksAreBlank(f.gap);
    }
  }

  lemma {:induction false} AnnotatedHaveNoBreak(ls: seq<Line>)
    requires forall l :: l in ls ==> PrintableLine(l)
    ensures forall l :: l in AnnotatedLines(ls) ==> '\n' !in l
  {
    if ls != [] {
      AnnotatedHaveNoBreak(ls[..|ls| - 1]);
      assert ls[|ls| - 1] in ls;
      AnnotatedReadsBack(|ls|, ls[|ls| - 1]);
    }
  }

  lemma {:induction false} BlanksAreBlank(n: nat)
    ensures forall l :: l in Blanks(n) ==> l == ""
  {
    if n > 0 {
      BlanksAreBlank(n - 1);
    }
  }

  /** Printing and reading back: whatever stands before the first header, and
      even where a line of a file itself begins with `File: `. */
  lemma PrintThenRead(intro: seq<string>, fs: seq<File>)
    requires forall l :: l in intro ==> '\n' !in l && !IsHeader(l)
    requires forall f :: f in fs ==> Printable(f)
    ensures Sections(Join(intro + DocumentLines(fs))) == Table(fs)
  {
    var lines := intro + DocumentLines(fs);
    DocumentHasLines(fs);
    StepsAppend(NOTHING, intro, DocumentLines(fs));
    NoHeaderStays(intro);
    DocumentSteps(NOTHING, fs);
    if lines == [] {
      NoneBefore("");
      assert Steps(NOTHING, [""]) == NOTHING;
    } else {
      LinesOfJoin(lines);
    }
  }

  /** The entry of a file that comes back whole. */
  function EntryOf(f: File): (e: Entry)
    ensures e.path == f.path
  {
    Entry(f.path, Join(Texts(f.lines) + Blanks(f.gap)))
  }

  predicate Regular(f: File) {
    f.path != "" && Strip(f.path) == f.path && 1 <= |f.lines| <= LAST_LABEL
  }

  lemma {:induction false} TableOneMore(fs: seq<File>)
    requires fs != [] && Regular(fs[|fs| - 1])
    ensures var f := fs[|fs| - 1]; Table(fs) == Put(Table(fs[..|fs| - 1]), f.path, EntryOf(f).content)
  {
    ReadBackIsText(fs[|fs| - 1].lines);
  }

  /** The entries of files that come back whole, in order. */
  function Entries(fs: seq<File>): Dict {
    if fs == [] then [] else Entries(fs[..|fs| - 1]) + [EntryOf(fs[|fs| - 1])]
  }

  predicate DistinctPaths(fs: seq<File>) {
    forall i, j :: 0 <= i < j < |fs| ==> fs[i].path != fs[j].path
  }

  lemma {:induction false} EntriesHaveOtherPaths(fs: seq<File>, path: string)
    requires forall i :: 0 <= i < |fs| ==> fs[i].path != path
    ensures forall e :: e in Entries(fs) ==> e.path != path
  {
    if fs != [] {
      EntriesHaveOtherPaths(fs[..|fs| - 1], path);
    }
  }

  /** Distinct trimmed paths with at least one line each come back as they were
      printed, in order. */
  lemma {:induction false} TableIsExact(fs: seq<File>)
    requires DistinctPaths(fs) && forall f :: f in fs ==> Regular(f)
    ensures Table(fs) == Entries(fs)
  {
    if fs != [] {
      var front, f := fs[..|fs| - 1], fs[|fs| - 1];
      assert f in fs;
      TableIsExact(front);
      TableOneMore(fs);
      EntriesHaveOtherPaths(front, f.path);
      PutAtEnd(Entries(front), f.path, EntryOf(f).content);
    }
  }

  function Texts(ls: seq<Line>): seq<string> {
    seq(|ls|, i requires 0 <= i < |ls| => ls[i].text)
  }

  lemma {:induction false} ReadBackIsText(ls: seq<Line>)
    requires |ls| <= LAST_LABEL
    ensures ReadBackLines(ls) == Texts(ls)
  {
    if ls != [] {
      ReadBackIsText(ls[..|ls| - 1]);
    }
  }

  lemma {:induction false} PutAtEnd(d: Dict, path: string, content: string)
    requires forall e :: e in d ==> e.path != path
    ensures Put(d, path, content) == d + [Entry(path, content)]
  {
    if d != [] {
      assert d[0] in d;
      PutAtEnd(d[1..], path, content);
    }
  }

  /** The prompt's file part as it is put together, file after file. */
  function Combined(fs: seq<File>): string {
    if fs == [] then "" else Combined(fs[..|fs| - 1]) + FileText(fs[|fs| - 1])
  }

  function FileText(f: File): string {
    HEADER + f.path + "\n" + Join(EscapedAll(AnnotatedLines(f.lines))) + "\n\n"
  }

  /** `escape_backticks_for_llm`. */
  function Escaped(s: string): (r: string)
    ensures |s| <= |r|
  {
    if s == "" then "" else (if s[0] == '`' then "\\`" else [s[0]]) + Escaped(s[1..])
  }

  function EscapedAll(ls: seq<string>): seq<string> {
    if ls == [] then [] else EscapedAll(ls[..|ls| - 1]) + [Escaped(ls[|ls| - 1])]
  }

  /** A text passes unchanged exactly if it has no backtick. */
  lemma {:induction false} EscapedKeepsIff(s: string)
    ensures Escaped(s) == s <==> '`' !in s
    ensures '\n' in Escaped(s) <==> '\n' in s
  {
    if s != "" {
      EscapedKeepsIff(s[1..]);
      if s[0] == '`' {
        assert |Escaped(s)| > |s|;
      } else {
        SameHead(s[0], Escaped(s[1..]), s[1..]);
        assert s == [s[0]] + s[1..];
      }
    }
  }

  lemma {:induction false} EscapedAppend(a: string, b: string)
    ensures Escaped(a + b) == Escaped(a) + Escaped(b)
  {
    if a == "" {
      Nil(b);
      Nil(Escaped(b));
    } else {
      assert (a + b)[1..] == a[1..] + b;
      EscapedAppend(a[1..], b);
      Assoc(if a[0] == '`' then "\\`" else [a[0]], Escaped(a[1..]), Escaped(b));
    }
  }

  function EscapedLine(l: Line): Line {
    l.(text := Escaped(l.text))
  }

  function EscapedFile(f: File): File {
    f.(lines := seq(|f.lines|, i requires 0 <= i < |f.lines| => EscapedLine(f.lines[i])))
  }

  function EscapedFiles(fs: seq<File>): (r: seq<File>)
    ensures |r| == |fs|
  {
    if fs == [] then [] else EscapedFiles(fs[..|fs| - 1]) + [EscapedFile(fs[|fs| - 1])]
  }

  /** A label has no backtick, so the label of an escaped line is its own. */
  lemma EscapedLabel(n: nat, l: Line)
    requires PrintableLine(l)
    ensures Escaped(Annotated(n, l)) == Annotated(n, EscapedLine(l))
  {
    var mark := ['['] + Padded(n) + [l.state, ']', ' '];
    PaddedSpec(n);
    assert '`' !in mark;
    EscapedKeepsIff(mark);
    EscapedAppend(mark, l.text);
  }

  lemma {:induction false} EscapedLabels(f: File)
    requires forall l :: l in f.lines ==> PrintableLine(l)
    ensures EscapedAll(AnnotatedLines(f.lines)) == AnnotatedLines(EscapedFile(f).lines)
    decreases |f.lines|
  {
    if f.lines != [] {
      var n := |f.lines| - 1;
      var front := f.(lines := f.lines[..n]);
      assert f.lines[n] in f.lines;
      EscapedLabels(front);
      EscapedLabel(n + 1, f.lines[n]);
      assert EscapedFile(f).lines[..n] == EscapedFile(front).lines;
      var printed := AnnotatedLines(front.lines);
      assert (printed + [Annotated(n + 1, f.lines[n])])[..|printed|] == printed;
    }
  }

  lemma EscapedPrintable(f: File)
    requires Printable(f)
    ensures Printable(EscapedFile(f))
  {
    forall l | l in EscapedFile(f).lines
      ensures PrintableLine(l)
    {
      var i :| 0 <= i < |f.lines| && l == EscapedLine(f.lines[i]);
      assert f.lines[i] in f.lines;
      EscapedKeepsIff(f.lines[i].text);
    }
  }

  lemma {:induction false} EscapedArePrintable(fs: seq<File>)
    requires forall f :: f in fs ==> Printable(f)
    ensures forall f :: f in EscapedFiles(fs) ==> Printable(f)
  {
    if fs != [] {
      EscapedArePrintable(fs[..|fs| - 1]);
      assert fs[|fs| - 1] in fs;
      EscapedPrintable(fs[|fs| - 1]);
    }
  }

  /** The same without escaping. */
  function Plain(fs: seq<File>): string {
    if fs == [] then "" else Plain(fs[..|fs| - 1]) + PlainText(fs[|fs| - 1])
  }

  function PlainText(f: File): string {
    HEADER + f.path + "\n" + Join(AnnotatedLines(f.lines)) + "\n\n"
  }

  /** Printing with escaping is printing escaped files. */
  lemma {:induction false} EscapingMoves(fs: seq<File>)
    requires forall f :: f in fs ==> Printable(f)
    ensures Combined(fs) == Plain(EscapedFiles(fs))
  {
    if fs != [] {
      var n := |fs| - 1;
      assert fs[n] in fs;
      EscapingMoves(fs[..n]);
      EscapedLabels(fs[n]);
      assert EscapedFiles(fs)[..n] == EscapedFiles(fs[..n]);
    }
  }

  /** An empty file still prints an empty line. */
  function Gapped(fs: seq<File>): (r: seq<File>)
    ensures |r| == |fs|
    ensures forall i :: 0 <= i < |fs| ==> r[i] == fs[i].(gap := if fs[i].lines == [] then 2 else 1)
  {
    seq(|fs|, i requires 0 <= i < |fs| => fs[i].(gap := if fs[i].lines == [] then 2 else 1))
  }

  lemma {:induction false} JoinAppend(a: seq<string>, b: seq<string>)
    requires a != [] && b != []
    ensures Join(a + b) == Join(a) + "\n" + Join(b)
  {
    if |a| == 1 {
      assert (a + b)[1..] == b;
    } else {
      assert (a + b)[1..] == a[1..] + b;
      JoinAppend(a[1..], b);
    }
  }

  lemma PlainTextIsJoined(f: File)
    requires f.gap == if f.lines == [] then 2 else 1
    ensures PlainText(f) == Join(FileLines(f)) + "\n"
  {
    var head, ls := [HEADER + f.path], AnnotatedLines(f.lines);
    assert Blanks(1) == [""];
    if f.lines == [] {
      assert Blanks(2) == [""] + [""];
      assert head + ls + Blanks(2) == head + [""] + [""];
      JoinAppend(head, [""]);
      JoinAppend(head + [""], [""]);
    } else {
      JoinAppend(head, ls);
      JoinAppend(head + ls, [""]);
    }
  }

  lemma {:induction false} PlainIsJoined(g: seq<File>)
    requires g != [] && forall f :: f in g ==> f.gap == if f.lines == [] then 2 else 1
    ensures Plain(g) == Join(DocumentLines(g)) + "\n"
  {
    var front, f := g[..|g| - 1], g[|g| - 1];
    assert f in g;
    PlainTextIsJoined(f);
    if front != [] {
      PlainIsJoined(front);
      assert DocumentLines(front) != [];
    }
    JoinOneMore(Plain(front), DocumentLines(front), FileLines(f));
  }

  lemma {:induction false} GapsDoNotMatter(fs: seq<File>)
    ensures Plain(Gapped(fs)) == Plain(fs)
  {
    if fs != [] {
      var n := |fs| - 1;
      GapsDoNotMatter(fs[..n]);
      assert Gapped(fs)[..n] == Gapped(fs[..n]);
    }
  }

  lemma JoinOneMore(c: string, a: seq<string>, b: seq<string>)
    requires b != [] && c == if a == [] then "" else Join(a) + "\n"
    ensures c + (Join(b) + "\n") == Join(a + b) + "\n"
  {
    if a == [] {
      assert a + b == b;
    } else {
      JoinAppend(a, b);
      Assoc(Join(a) + "\n", Join(b), "\n");
    }
  }

  function OneMoreBlank(g: seq<File>): (h: seq<File>)
    requires g != []
  {
    g[..|g| - 1] + [g[|g| - 1].(gap := g[|g| - 1].gap + 1)]
  }

  lemma FileOneMore(f: File)
    ensures FileLines(f.(gap := f.gap + 1)) == FileLines(f) + [""]
  {
    Assoc([HEADER + f.path] + AnnotatedLines(f.lines), Blanks(f.gap), [""]);
  }

  lemma OneMoreLine(g: seq<File>)
    requires g != []
    ensures DocumentLines(OneMoreBlank(g)) == DocumentLines(g) + [""]
  {
    var n := |g| - 1;
    var h := OneMoreBlank(g);
    assert h[..n] == g[..n] && |h| == n + 1;
    FileOneMore(g[n]);
    Assoc(DocumentLines(g[..n]), FileLines(g[n]), [""]);
  }

  lemma OneMorePrintable(fs: seq<File>)
    requires fs != [] && forall f :: f in fs ==> Printable(f)
    ensures forall f :: f in OneMoreBlank(Gapped(fs)) ==> Printable(f)
  {
    var h := OneMoreBlank(Gapped(fs));
    forall f | f in h
      ensures Printable(f)
    {
      var i :| 0 <= i < |h| && h[i] == f;
      assert Printable(fs[i]);
    }
  }

  lemma PlainThenRead(fs: seq<File>)
    requires fs != [] && forall f :: f in fs ==> Printable(f)
    ensures Sections(Plain(fs)) == Table(OneMoreBlank(Gapped(fs)))
  {
    var g := Gapped(fs);
    GapsDoNotMatter(fs);
    PlainIsJoined(g);
    OneMoreLine(g);
    OneMorePrintable(fs);
    JoinPlusNothing(DocumentLines(g));
    NoIntro(OneMoreBlank(g));
  }

  /** Read back from the real prompt, every file has its backticks escaped and
      has grown by one empty line, and the last by two. */
  lemma CombinedThenRead(fs: seq<File>)
    requires fs != [] && forall f :: f in fs ==> Printable(f)
    ensures Sections(Combined(fs)) == Table(OneMoreBlank(Gapped(EscapedFiles(fs))))
  {
    EscapingMoves(fs);
    EscapedArePrintable(fs);
    PlainThenRead(EscapedFiles(fs));
  }

  lemma JoinPlusNothing(a: seq<string>)
    requires a != []
    ensures Join(a + [""]) == Join(a) + "\n"
  {
    JoinAppend(a, [""]);
  }

  lemma NoIntro(fs: seq<File>)
    requires forall f :: f in fs ==> Printable(f)
    ensures Sections(Join(DocumentLines(fs))) == Table(fs)
  {
    PrintThenRead([], fs);
    assert [] + DocumentLines(fs) == DocumentLines(fs);
  }

  // ---- how much is extracted ----------------------------------------------------

  function Total(d: Dict): nat {
    if d == [] then 0 else |d[0].content| + Total(d[1..])
  }

  /** Characters of the lines and their ends. */
  function Size(lines: seq<string>): nat {
    if lines == [] then 0 else Size(lines[..|lines| - 1]) + |lines[|lines| - 1]| + 1
  }

  lemma {:induction false} PutAddsAtMost(d: Dict, path: string, content: string)
    ensures Total(Put(d, path, content)) <= Total(d) + |content|
  {
    if d != [] && d[0].path != path {
      PutAddsAtMost(d[1..], path, content);
    }
  }

  lemma {:induction false} SizeAppend(a: seq<string>, b: seq<string>)
    ensures Size(a + b) == Size(a) + Size(b)
  {
    if b == [] {
      assert a + b == a;
    } else {
      assert (a + b)[..|a + b| - 1] == a + b[..|b| - 1];
      SizeAppend(a, b[..|b| - 1]);
    }
  }

  lemma {:induction false} JoinSize(lines: seq<string>)
    requires lines != []
    ensures |Join(lines)| + 1 == Size(lines)
  {
    if |lines| > 1 {
      JoinSize(lines[1..]);
      assert lines == [lines[0]] + lines[1..];
      SizeAppend([lines[0]], lines[1..]);
    }
    NoneBefore(lines[0]);
    assert Size([lines[0]]) == |lines[0]| + 1;
  }

  lemma {:induction false} LinesSize(text: string)
    ensures Size(Lines(text)) == |text| + 1
  {
    if text == "" {
      NoneBefore("");
      assert Size([""]) == 1;
    } else {
      LinesSize(text[1..]);
      var rest, ls := Lines(text[1..]), Lines(text);
      SizeAppend([rest[0]], rest[1..]);
      assert rest == [rest[0]] + rest[1..];
      SizeOne(rest[0]);
      if text[0] == '\n' {
        SizeAppend([""], rest);
        SizeOne("");
      } else {
        SizeAppend([[text[0]] + rest[0]], rest[1..]);
        SizeOne([text[0]] + rest[0]);
      }
    }
  }

  lemma SizeOne(l: string)
    ensures Size([l]) == |l| + 1
  {
    NoneBefore(l);
  }

  lemma SavedSize(p: Parse)
    ensures Total(Saved(p)) <= Total(p.files) + Size(p.content)
  {
    if p.path != "" && p.content != [] {
      PutAddsAtMost(p.files, p.path, Join(p.content));
      JoinSize(p.content);
    }
  }

  lemma StepSize(p: Parse, line: string)
    ensures Total(Step(p, line).files) + Size(Step(p, line).content)
         <= Total(p.files) + Size(p.content) + |line| + 1
  {
    if IsHeader(line) {
      SavedSize(p);
      assert Size([]) == 0;
    } else {
      assert |LineContent(line)| <= |line|;
      SizeAppend(p.content, [LineContent(line)]);
      SizeOne(LineContent(line));
    }
  }

  lemma {:induction false} StepsSize(lines: seq<string>)
    ensures var p := Steps(NOTHING, lines);
            p == NOTHING || Total(p.files) + Size(p.content) + |HEADER| <= Size(lines)
  {
    if lines != [] {
      var front, line := lines[..|lines| - 1], lines[|lines| - 1];
      StepsSize(front);
      StepSize(Steps(NOTHING, front), line);
    }
  }

  /** No more is extracted than there was. */
  lemma ExtractedAtMost(text: string)
    ensures Total(Sections(text)) <= |text|
  {
    var p := Steps(NOTHING, Lines(text));
    StepsSize(Lines(text));
    LinesSize(text);
    if p.path != "" && p.content != [] {
      PutAddsAtMost(p.files, p.path, Join(p.content));
      JoinSize(p.content);
    }
  }

  // ---- attributing the tokens ---------------------------------------------------

  /** A system prompt or message body: text, or parts of which some hold text
      (`None`: a part of another kind). */
  datatype Prompt = Whole(text: string) | Parts(parts: seq<Option<string>>)

  /** A message; `shown` is the length of `str(content)`. */
  datatype Message = Message(role: string, body: Prompt, shown: nat)

  predicate Truthy(b: Prompt) {
    match b
    case Whole(s) => s != ""
    case Parts(ps) => ps != []
  }

  /** `' '.join` of the text parts. */
  function Flat(ps: seq<Option<string>>): string {
    if ps == [] then ""
    else
      var before, p := Flat(ps[..|ps| - 1]), ps[|ps| - 1];
      if p.None? then before
      else if forall q :: q in ps[..|ps| - 1] ==> q.None? then p.value
      else before + " " + p.value
  }

  function TextOf(b: Prompt): string {
    match b
    case Whole(s) => s
    case Parts(ps) => Flat(ps)
  }

  function FirstSystem(ms: seq<Message>): Prompt {
    if ms == [] then Whole("")
    else if ms[0].role == "system" then ms[0].body
    else FirstSystem(ms[1..])
  }

  /** What is searched for file sections. */
  function Source(system: Prompt, ms: seq<Message>): Prompt {
    if Truthy(system) then system else FirstSystem(ms)
  }

  method ExtractFileContents(ms: seq<Message>, system: Prompt) returns (files: Dict)
    ensures files == Sections(TextOf(Source(system, ms)))
  {
    var source := Whole("");
    if Truthy(system) {
      source := system;
    } else {
      for i := 0 to |ms|
        invariant source == Whole("") && FirstSystem(ms) == FirstSystem(ms[i..])
      {
        if ms[i].role == "system" {
          source := ms[i].body;
          break;
        }
      }
    }
    if !Truthy(source) {
      NoHeaderNoSections("");
      return [];
    }
    files := ExtractSections(TextOf(source));
  }

  /** `len(system_content or '')`: characters of a text, but parts of a list. */
  function SystemChars(system: Prompt): nat {
    match system
    case Whole(s) => |s|
    case Parts(ps) => |ps|
  }

  function ShownChars(ms: seq<Message>): nat {
    if ms == [] then 0 else ms[0].shown + ShownChars(ms[1..])
  }

  /** `max(1, int(effective * (file_chars / total)))`, without rounding. */
  function Attributed(effective: nat, fileChars: nat, total: nat): (r: nat)
    requires total > 0
    ensures if effective * fileChars < total then r == 1
            else r * total <= effective * fileChars < r * total + total
  {
    var share := (effective * fileChars) / total;
    if share < 1 then 1 else share
  }

  datatype Usage = Usage(totalInput: nat, cached: nat, cacheWritten: nat) {
    function Sent(): nat {
      totalInput + cacheWritten
    }
  }

  /** The characters the share of the files is taken of. */
  function Counted(ms: seq<Message>, system: Prompt): (n: nat)
    ensures n > 0
  {
    var chars := SystemChars(system) + ShownChars(ms);
    if chars < 1 then 1 else chars
  }

  /** The tokens recorded for the files, if any are. */
  function Recorded(u: Usage, ms: seq<Message>, system: Prompt): (r: Option<nat>)
  {
    var files := Sections(TextOf(Source(system, ms)));
    if u.cached > 0 || files == [] || u.totalInput == 0 then None
    else Some(Attributed(u.Sent(), Total(files), Counted(ms, system)))
  }

  lemma AttributedAtMost(effective: nat, fileChars: nat, total: nat)
    requires total > 0 && effective > 0
    ensures Attributed(effective, fileChars, total) <= effective <==> effective * fileChars < (effective + 1) * total
    ensures fileChars <= total ==> 1 <= Attributed(effective, fileChars, total) <= effective
  {
    var x := effective * fileChars;
    assert x / total <= effective <==> x < (effective + 1) * total by {
      DivisionAtMost(x, total, effective);
    }
    if fileChars <= total {
      assert x <= effective * total;
      assert (effective + 1) * total == effective * total + total;
    }
  }

  lemma DivisionAtMost(x: nat, d: nat, q: nat)
    requires d > 0
    ensures x / d <= q <==> x < (q + 1) * d
  {
    assert x == (x / d) * d + x % d;
    if x / d <= q {
      assert (x / d) * d <= q * d;
    } else {
      assert (x / d) * d >= (q + 1) * d;
    }
  }

  /** `str` of a text is the text, and `str` of a list shows at least its texts. */
  predicate ShowsItsText(m: Message) {
    m.shown >= |TextOf(m.body)|
  }

  lemma {:induction false} FirstSystemIsShown(ms: seq<Message>)
    requires forall m :: m in ms ==> ShowsItsText(m)
    ensures |TextOf(FirstSystem(ms))| <= ShownChars(ms)
  {
    if ms != [] {
      assert ms[0] in ms;
      FirstSystemIsShown(ms[1..]);
    }
  }

  /** With a text as system prompt, or none, the files never get more tokens
      than the request had. */
  lemma RecordedAtMost(u: Usage, ms: seq<Message>, system: Prompt)
    requires system.Whole? || !Truthy(system)
    requires forall m :: m in ms ==> ShowsItsText(m)
    requires Recorded(u, ms, system).Some?
    ensures 1 <= Recorded(u, ms, system).value <= u.Sent()
  {
    var text := TextOf(Source(system, ms));
    ExtractedAtMost(text);
    FirstSystemIsShown(ms);
    assert |text| <= Counted(ms, system);
    AttributedAtMost(u.Sent(), Total(Sections(text)), Counted(ms, system));
  }

  /** With any prompt: when exactly the files get no more than there was. */
  lemma RecordedAtMostIff(u: Usage, ms: seq<Message>, system: Prompt)
    requires Recorded(u, ms, system).Some?
    ensures Recorded(u, ms, system).value <= u.Sent() <==>
            u.Sent() * Total(Sections(TextOf(Source(system, ms)))) < (u.Sent() + 1) * Counted(ms, system)
  {
    AttributedAtMost(u.Sent(), Total(Sections(TextOf(Source(system, ms)))), Counted(ms, system));
  }

  /** However many tokens are sent, the files get no more than that. */
  ghost predicate NeverOverflows(ms: seq<Message>, system: Prompt) {
    forall u: Usage :: var r := Recorded(u, ms, system); r.Some? ==> r.value <= u.Sent()
  }

  /** That is so exactly if no more characters are extracted than are counted. */
  lemma NeverOverflowsIff(ms: seq<Message>, system: Prompt)
    ensures NeverOverflows(ms, system) <==> Total(Sections(TextOf(Source(system, ms)))) <= Counted(ms, system)
  {
    var files := Sections(TextOf(Source(system, ms)));
    var n := Counted(ms, system);
    if Total(files) <= n {
      forall u: Usage | Recorded(u, ms, system).Some?
        ensures Recorded(u, ms, system).value <= u.Sent()
      {
        AttributedAtMost(u.Sent(), Total(files), n);
      }
    } else {
      WholeShare(n, Total(files));
      assert Recorded(Usage(n, 0, 0), ms, system) == Some(Total(files));
    }
  }

  lemma WholeShare(n: nat, fileChars: nat)
    requires 0 < n < fileChars
    ensures Attributed(n, fileChars, n) == fileChars
  {
    Quotient(n * fileChars, n, fileChars);
  }

  lemma Quotient(x: nat, d: nat, q: nat)
    requires d > 0 && x == d * q
    ensures x / d == q
  {
    DivisionAtMost(x, d, q);
    if q > 0 {
      DivisionAtMost(x, d, q - 1);
    }
  }

  lemma OneSection(path: string, line: string)
    requires path != "" && Strip(path) == path && '\n' !in path
    requires '\n' !in line && |line| < |HEADER|
    ensures Sections(HEADER + path + "\n" + line) == [Entry(path, line)]
  {
    var head := HEADER + path;
    LinesOfLine(head);
    LinesOfLine(line);
    LinesAppend(head, line);
    assert [head] + [line] == [head, line];
    assert head[..6] == HEADER && head[6..] == path;
    HeaderThenLine(head, line);
  }

  lemma HeaderThenLine(head: string, line: string)
    requires IsHeader(head) && Strip(head[6..]) != "" && |line| < |HEADER|
    ensures Saved(Steps(NOTHING, [head, line])) == [Entry(Strip(head[6..]), line)]
  {
    assert [head, line][..1] == [head];
    NoneBefore(head);
    assert Steps(NOTHING, [head]) == Parse([], Strip(head[6..]), []);
    assert [] + [line] == [line];
  }

  lemma FlatOne(text: string)
    ensures Flat([Some(text)]) == text
  {
    assert [Some(text)][..0] == [];
  }

  /** With a list as system prompt they can get more: its length counts parts. */
  lemma ListPromptOverflows()
    ensures var system := Parts([Some(HEADER + "a" + "\n" + "four")]);
            Recorded(Usage(10, 0, 0), [], system) == Some(40)
  {
    var text := HEADER + "a" + "\n" + "four";
    OneSection("a", "four");
    FlatOne(text);
    assert Total([Entry("a", "four")]) == 4;
  }

  // ---- any text -----------------------------------------------------------------

  /** A label at the start of `line`, with `tail` behind its bracket. */
  ghost predicate Labelled(line: string, tail: string) {
    exists digits: string, state: char ::
      && 3 <= |digits| <= 6 && IsDigits(digits) && IsState(state)
      && line == "[" + digits + [state] + "]" + tail
  }

  lemma LabelBracket(digits: string, state: char, tail: string)
    requires 3 <= |digits| <= 6 && IsDigits(digits) && IsState(state)
    ensures var line := "[" + digits + [state] + "]" + tail;
            var b := |digits| + 2;
            Find(line, "]", 1) == Some(b) && line[1..b - 1] == digits && line[b - 1] == state && line[b + 1..] == tail
  {
    var line := "[" + digits + [state] + "]" + tail;
    var b := |digits| + 2;
    assert line[1..b - 1] == digits;
    forall j: nat | 1 <= j < b
      ensures !At(line, "]", j)
    {
      assert j < b - 1 ==> line[j] == digits[j - 1];
      AtOne(line, ']', j);
    }
    AtOne(line, ']', b);
    FindIs(line, "]", 1, b);
  }

  lemma LabelGoes(digits: string, state: char, tail: string)
    requires 3 <= |digits| <= 6 && IsDigits(digits) && IsState(state)
    ensures LineContent("[" + digits + [state] + "]" + tail) == if tail == "" then "" else tail[1..]
  {
    var line := "[" + digits + [state] + "]" + tail;
    var b := |digits| + 2;
    LabelBracket(digits, state, tail);
    DropTwice(line, b + 1, if tail == "" then 0 else 1);
  }

  lemma LabelFound(line: string, b: nat)
    requires |line| >= 6 && line[0] == '[' && Find(line, "]", 1) == Some(b) && IsLabel(line, b)
    ensures Labelled(line, line[b + 1..])
  {
    FindSpec(line, "]", 1);
    AtOne(line, ']', b);
    assert line == "[" + line[1..b - 1] + [line[b - 1]] + "]" + line[b + 1..];
  }

  /** A label goes, with the character behind its bracket; every other line stays. */
  lemma LineContentIs(line: string, tail: string)
    ensures Labelled(line, tail) ==> LineContent(line) == if tail == "" then "" else tail[1..]
    ensures (forall t :: !Labelled(line, t)) ==> LineContent(line) == line
  {
    if Labelled(line, tail) {
      var digits: string, state: char :|
        && 3 <= |digits| <= 6 && IsDigits(digits) && IsState(state)
        && line == "[" + digits + [state] + "]" + tail;
      LabelGoes(digits, state, tail);
    }
    if |line| >= 6 && line[0] == '[' && Find(line, "]", 1).Some? && IsLabel(line, Find(line, "]", 1).value) {
      LabelFound(line, Find(line, "]", 1).value);
    }
  }

  /** The lines of a section without their labels. */
  function Contents(lines: seq<string>): (r: seq<string>)
    ensures |r| == |lines| && forall i :: 0 <= i < |r| ==> r[i] == LineContent(lines[i])
  {
    seq(|lines|, i requires 0 <= i < |lines| => LineContent(lines[i]))
  }

  lemma {:induction false} BodySteps(p: Parse, body: seq<string>)
    requires p.path != "" && forall l :: l in body ==> !IsHeader(l)
    ensures Steps(p, body) == p.(content := p.content + Contents(body))
  {
    if body == [] {
      assert p.content + Contents(body) == p.content;
    } else {
      var front, l := body[..|body| - 1], body[|body| - 1];
      assert l in body;
      BodySteps(p, front);
      assert Contents(body) == Contents(front) + [LineContent(l)];
      Assoc(p.content, Contents(front), [LineContent(l)]);
    }
  }

  lemma {:induction false} NamelessSteps(p: Parse, body: seq<string>)
    requires p.path == "" && forall l :: l in body ==> !IsHeader(l)
    ensures Steps(p, body) == p
  {
    if body != [] {
      assert body[|body| - 1] in body;
      NamelessSteps(p, body[..|body| - 1]);
    }
  }

  /** Any text: its last section, from the last header on, is entered under the
      trimmed path if both are there, and the rest is read as before. */
  lemma LastSection(before: seq<string>, path: string, body: seq<string>)
    requires forall l :: l in body ==> !IsHeader(l)
    ensures Saved(Steps(NOTHING, before + [HEADER + path] + body)) ==
            var files := Saved(Steps(NOTHING, before));
            if Strip(path) != "" && body != [] then Put(files, Strip(path), Join(Contents(body))) else files
  {
    StepsAppend(NOTHING, before + [HEADER + path], body);
    StepsAppend(NOTHING, before, [HEADER + path]);
    HeaderStep(Steps(NOTHING, before), path);
    var p := Parse(Saved(Steps(NOTHING, before)), Strip(path), []);
    if p.path == "" {
      NamelessSteps(p, body);
    } else {
      BodySteps(p, body);
      Nil(Contents(body));
    }
  }

  /** The content entered under `path`. */
  function Content(d: Dict, path: string): Option<string> {
    if d == [] then None else if d[0].path == path then Some(d[0].content) else Content(d[1..], path)
  }

  function Paths(d: Dict): seq<string> {
    if d == [] then [] else [d[0].path] + Paths(d[1..])
  }

  /** Entering changes one path, and keeps its place if it was there. */
  lemma {:induction false} PutIs(d: Dict, path: string, content: string, q: string)
    ensures Content(Put(d, path, content), q) == if q == path then Some(content) else Content(d, q)
    ensures Paths(Put(d, path, content)) == if path in Paths(d) then Paths(d) else Paths(d) + [path]
  {
    if d != [] && d[0].path != path {
      PutIs(d[1..], path, content, q);
    }
  }

  // ---- which text is searched ---------------------------------------------------

  /** The first system message's body, or an empty text. */
  lemma {:induction false} FirstSystemIs(ms: seq<Message>)
    ensures (exists i :: 0 <= i < |ms| && ms[i].role == "system" && FirstSystem(ms) == ms[i].body
                         && forall j :: 0 <= j < i ==> ms[j].role != "system")
            || (FirstSystem(ms) == Whole("") && forall m :: m in ms ==> m.role != "system")
  {
    if ms != [] && ms[0].role != "system" {
      FirstSystemIs(ms[1..]);
      if i :| 0 <= i < |ms[1..]| && ms[1..][i].role == "system" && FirstSystem(ms) == ms[1..][i].body
              && forall j :: 0 <= j < i ==> ms[1..][j].role != "system" {
        assert ms[i + 1] == ms[1..][i];
        assert forall j :: 1 <= j < i + 1 ==> ms[j] == ms[1..][j - 1];
      }
    }
  }

  function IsText(): Option<string> -> bool {
    (p: Option<string>) => p.Some?
  }

  lemma JoinOne(texts: seq<string>, t: string)
    ensures JoinWith(texts + [t]) == if texts == [] then t else JoinWith(texts) + " " + t
  {
    JoinWithSplits(texts, [t], t);
    Nil([t]);
  }

  /** `texts` are the texts of `parts`. */
  predicate TextsAre(parts: seq<Option<string>>, texts: seq<string>) {
    |texts| == |parts| && forall i :: 0 <= i < |texts| ==> parts[i] == Some(texts[i])
  }

  lemma OneText(parts: seq<Option<string>>, texts: seq<string>, t: string)
    requires TextsAre(parts, texts)
    ensures TextsAre(parts + [Some(t)], texts + [t]) && TextsAre(parts + [], texts)
  {
  }

  predicate NoText(ps: seq<Option<string>>) {
    forall q :: q in ps ==> q.None?
  }

  lemma NoTextSnoc(ps: seq<Option<string>>, p: Option<string>)
    ensures NoText(ps + [p]) <==> NoText(ps) && p.None?
  {
    assert p in ps + [p];
  }

  lemma FlatSnoc(ps: seq<Option<string>>, p: Option<string>, texts: seq<string>)
    requires Flat(ps) == JoinWith(texts) && (texts == [] <==> NoText(ps))
    ensures Flat(ps + [p]) == JoinWith(texts + if p.Some? then [p.value] else [])
  {
    assert (ps + [p])[..|ps|] == ps;
    if p.Some? {
      JoinOne(texts, p.value);
    } else {
      Nil(texts);
    }
  }

  /** A list's text: its text parts, joined by blanks. */
  lemma {:induction false} FlatIsJoined(ps: seq<Option<string>>) returns (texts: seq<string>)
    ensures TextsAre(Chosen(ps, IsText()), texts) && Flat(ps) == JoinWith(texts)
    ensures texts == [] <==> NoText(ps)
  {
    if ps == [] {
      return [];
    }
    var front, p := ps[..|ps| - 1], ps[|ps| - 1];
    assert front + [p] == ps;
    texts := FlatIsJoined(front);
    NoTextSnoc(front, p);
    ChosenSnoc(front, p, IsText());
    FlatSnoc(front, p, texts);
    OneText(Chosen(front, IsText()), texts, if p.Some? then p.value else "");
    texts := texts + if p.Some? then [p.value] else [];
  }
}
