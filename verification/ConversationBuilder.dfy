/** Input sanitising (`_build_conversation_from_messages` and `_is_empty_content`): roles are mapped, empty turns
    dropped, and neighbours of one role merged. */
module ConversationBuilder {
  import opened Strings

  /** A text block, an element that is not a dictionary, or any other block. */
  datatype Block = Text(text: string) | Raw(shown: string) | Other(data: string)

  datatype Content = Missing | Plain(text: string) | Blocks(blocks: seq<Block>)

  /** A message as handed in; LangChain's `human` is already `user`. */
  datatype Input = Input(role: string, content: Content)

  datatype Turn = Turn(assistant: bool, content: Content)

  predicate Relevant(m: Input) {
    m.role == "user" || m.role == "assistant" || m.role == "ai"
  }

  function IsEmpty(c: Content): bool {
    match c
    case Missing => true
    case Plain(s) => Strip(s) == ""
    case Blocks(bs) => forall b :: b in bs ==> EmptyBlock(b)
  }

  predicate EmptyBlock(b: Block) {
    match b
    case Text(s) => Strip(s) == ""
    case Raw(s) => Strip(s) == ""
    case Other(_) => false
  }

  function AsBlocks(c: Content): seq<Block> {
    match c
    case Missing => []
    case Plain(s) => [Text(s)]
    case Blocks(bs) => bs
  }

  function MergedContent(prev: Content, cur: Content): Content {
    if prev.Plain? && cur.Plain? then Plain(prev.text + "\n\n" + cur.text)
    else Blocks(AsBlocks(prev) + AsBlocks(cur))
  }

  /** The turns that survive, with their provider role. */
  function Kept(ms: seq<Input>): seq<Turn> {
    if ms == [] then []
    else
      var before, m := Kept(ms[..|ms| - 1]), ms[|ms| - 1];
      if Relevant(m) && !IsEmpty(m.content) then before + [Turn(m.role != "user", m.content)] else before
  }

  function AddTurn(ts: seq<Turn>, t: Turn): seq<Turn> {
    if ts != [] && ts[|ts| - 1].assistant == t.assistant then
      ts[..|ts| - 1] + [Turn(t.assistant, MergedContent(ts[|ts| - 1].content, t.content))]
    else ts + [t]
  }

  function Merged(ts: seq<Turn>): seq<Turn> {
    if ts == [] then [] else AddTurn(Merged(ts[..|ts| - 1]), ts[|ts| - 1])
  }

  function SystemOf(ms: seq<Input>): Option<Content> {
    if ms == [] then None
    else if ms[|ms| - 1].role == "system" then Some(ms[|ms| - 1].content)
    else SystemOf(ms[..|ms| - 1])
  }

  function Built(ms: seq<Input>): seq<Turn> {
    Merged(Kept(ms))
  }

  method BuildConversation(ms: seq<Input>) returns (merged: seq<Turn>, system: Option<Content>)
    ensures merged == Built(ms) && system == SystemOf(ms)
  {
    var conversation := [];
    system := None;
    for i := 0 to |ms|
      invariant conversation == Kept(ms[..i]) && system == SystemOf(ms[..i])
    {
      assert ms[..i + 1][..i] == ms[..i];
      var m := ms[i];
      if m.role == "system" {
        system := Some(m.content);
      } else if Relevant(m) {
        if IsEmpty(m.content) {
          continue;
        }
        conversation := conversation + [Turn(m.role != "user", m.content)];
      }
    }
    assert ms[..|ms|] == ms;
    merged := [];
    for i := 0 to |conversation|
      invariant merged == Merged(conversation[..i])
    {
      assert conversation[..i + 1][..i] == conversation[..i];
      var t := conversation[i];
      if merged != [] && merged[|merged| - 1].assistant == t.assistant {
        var prev := merged[|merged| - 1].content;
        merged := merged[|merged| - 1 := Turn(t.assistant, MergedContent(prev, t.content))];
      } else {
        merged := merged + [t];
      }
    }
    assert conversation[..|conversation|] == conversation;
  }

  // ---- what is kept -----------------------------------------------------------

  /** What of a conversation must not get lost: every character that is not
      white space and every block that is not text, with its speaker. */
  datatype Atom = Char(assistant: bool, c: char) | Whole(assistant: bool, data: string)

  function TextAtoms(a: bool, s: string): seq<Atom> {
    if s == "" then []
    else if IsSpace(s[0]) then TextAtoms(a, s[1..])
    else [Char(a, s[0])] + TextAtoms(a, s[1..])
  }

  function BlockAtoms(a: bool, b: Block): seq<Atom> {
    match b
    case Text(s) => TextAtoms(a, s)
    case Raw(s) => TextAtoms(a, s)
    case Other(d) => [Whole(a, d)]
  }

  function BlocksAtoms(a: bool, bs: seq<Block>): seq<Atom> {
    if bs == [] then [] else BlockAtoms(a, bs[0]) + BlocksAtoms(a, bs[1..])
  }

  function Atoms(a: bool, c: Content): seq<Atom> {
    match c
    case Missing => []
    case Plain(s) => TextAtoms(a, s)
    case Blocks(bs) => BlocksAtoms(a, bs)
  }

  function TurnsAtoms(ts: seq<Turn>): seq<Atom> {
    if ts == [] then []
    else TurnsAtoms(ts[..|ts| - 1]) + Atoms(ts[|ts| - 1].assistant, ts[|ts| - 1].content)
  }

  function InputAtoms(ms: seq<Input>): seq<Atom> {
    if ms == [] then []
    else
      var m := ms[|ms| - 1];
      InputAtoms(ms[..|ms| - 1]) + if Relevant(m) then Atoms(m.role != "user", m.content) else []
  }

  lemma {:induction false} TextAtomsAppend(a: bool, x: string, y: string)
    ensures TextAtoms(a, x + y) == TextAtoms(a, x) + TextAtoms(a, y)
  {
    if x == "" {
      assert x + y == y;
    } else {
      assert (x + y)[1..] == x[1..] + y;
      TextAtomsAppend(a, x[1..], y);
    }
  }

  lemma {:induction false} BlocksAtomsAppend(a: bool, x: seq<Block>, y: seq<Block>)
    ensures BlocksAtoms(a, x + y) == BlocksAtoms(a, x) + BlocksAtoms(a, y)
  {
    if x == [] {
      assert x + y == y;
    } else {
      assert (x + y)[1..] == x[1..] + y;
      BlocksAtomsAppend(a, x[1..], y);
      Assoc(BlockAtoms(a, x[0]), BlocksAtoms(a, x[1..]), BlocksAtoms(a, y));
    }
  }

  lemma {:induction false} BlankIffNoAtoms(a: bool, s: string)
    ensures Blank(s) <==> TextAtoms(a, s) == []
  {
    if s != "" {
      BlankIffNoAtoms(a, s[1..]);
      BlankAppend([s[0]], s[1..]);
      assert [s[0]] + s[1..] == s;
    }
  }

  lemma EmptyBlockIff(a: bool, b: Block)
    ensures EmptyBlock(b) <==> BlockAtoms(a, b) == []
  {
    if !b.Other? {
      var s := if b.Text? then b.text else b.shown;
      StripSpec(s);
      BlankIffNoAtoms(a, s);
    }
  }

  lemma {:induction false} EmptyBlocksIff(a: bool, bs: seq<Block>)
    ensures (forall b :: b in bs ==> EmptyBlock(b)) <==> BlocksAtoms(a, bs) == []
  {
    if bs != [] {
      EmptyBlockIff(a, bs[0]);
      EmptyBlocksIff(a, bs[1..]);
      EmptyTail(bs);
    }
  }

  lemma EmptyTail(bs: seq<Block>)
    requires bs != []
    ensures (forall b :: b in bs ==> EmptyBlock(b)) <==>
            EmptyBlock(bs[0]) && forall b :: b in bs[1..] ==> EmptyBlock(b)
  {
    forall b ensures b in bs <==> b == bs[0] || b in bs[1..] {
      assert bs == [bs[0]] + bs[1..];
    }
  }

  /** A turn is empty exactly when it holds nothing to keep. */
  lemma EmptyIffNoAtoms(a: bool, c: Content)
    ensures IsEmpty(c) <==> Atoms(a, c) == []
  {
    match c
    case Missing =>
    case Plain(s) =>
      StripSpec(s);
      BlankIffNoAtoms(a, s);
    case Blocks(bs) =>
      EmptyBlocksIff(a, bs);
  }

  lemma MergedContentAtoms(a: bool, prev: Content, cur: Content)
    ensures Atoms(a, MergedContent(prev, cur)) == Atoms(a, prev) + Atoms(a, cur)
  {
    if prev.Plain? && cur.Plain? {
      TextAtomsAppend(a, prev.text + "\n\n", cur.text);
      TextAtomsAppend(a, prev.text, "\n\n");
      assert "\n\n"[1..] == "\n" && "\n"[1..] == "";
      assert TextAtoms(a, "\n") == [];
      assert TextAtoms(a, "\n\n") == [];
    } else {
      BlocksAtomsAppend(a, AsBlocks(prev), AsBlocks(cur));
      AsBlocksAtoms(a, prev);
      AsBlocksAtoms(a, cur);
    }
  }

  lemma AsBlocksAtoms(a: bool, c: Content)
    ensures BlocksAtoms(a, AsBlocks(c)) == Atoms(a, c)
  {
    if c.Plain? {
      assert [Text(c.text)][1..] == [];
      assert BlocksAtoms(a, [Text(c.text)]) == TextAtoms(a, c.text) + [];
    }
  }

  lemma {:induction false} KeptAtoms(ms: seq<Input>)
    ensures TurnsAtoms(Kept(ms)) == InputAtoms(ms)
  {
    if ms != [] {
      var before, m := Kept(ms[..|ms| - 1]), ms[|ms| - 1];
      KeptAtoms(ms[..|ms| - 1]);
      EmptyIffNoAtoms(m.role != "user", m.content);
      var t := Turn(m.role != "user", m.content);
      assert (before + [t])[..|before|] == before;
    }
  }

  lemma AddTurnAtoms(ts: seq<Turn>, t: Turn)
    ensures TurnsAtoms(AddTurn(ts, t)) == TurnsAtoms(ts) + Atoms(t.assistant, t.content)
  {
    var r := AddTurn(ts, t);
    if ts != [] && ts[|ts| - 1].assistant == t.assistant {
      var front, last := ts[..|ts| - 1], ts[|ts| - 1];
      assert r[..|r| - 1] == front;
      MergedContentAtoms(t.assistant, last.content, t.content);
      Assoc(TurnsAtoms(front), Atoms(t.assistant, last.content), Atoms(t.assistant, t.content));
    } else {
      assert r[..|r| - 1] == ts;
    }
  }

  lemma {:induction false} MergedAtoms(ts: seq<Turn>)
    ensures TurnsAtoms(Merged(ts)) == TurnsAtoms(ts)
  {
    if ts != [] {
      MergedAtoms(ts[..|ts| - 1]);
      AddTurnAtoms(Merged(ts[..|ts| - 1]), ts[|ts| - 1]);
    }
  }

  /** Nothing of the user and assistant turns is lost, doubled, moved or
      given to the other speaker. */
  lemma BuiltKeepsEverything(ms: seq<Input>)
    ensures TurnsAtoms(Built(ms)) == InputAtoms(ms)
  {
    KeptAtoms(ms);
    MergedAtoms(Kept(ms));
  }

  /** The two speakers take turns and nobody's turn is empty. */
  ghost predicate Clean(ts: seq<Turn>) {
    && (forall i :: 0 < i < |ts| ==> ts[i].assistant != ts[i - 1].assistant)
    && forall t :: t in ts ==> !IsEmpty(t.content)
  }

  lemma AddTurnClean(ts: seq<Turn>, t: Turn)
    requires Clean(ts) && !IsEmpty(t.content)
    ensures Clean(AddTurn(ts, t))
  {
    if ts != [] && ts[|ts| - 1].assistant == t.assistant {
      var prev := ts[|ts| - 1].content;
      MergedContentAtoms(t.assistant, prev, t.content);
      EmptyIffNoAtoms(t.assistant, t.content);
      EmptyIffNoAtoms(t.assistant, MergedContent(prev, t.content));
    }
  }

  lemma {:induction false} MergedClean(ts: seq<Turn>)
    requires forall t :: t in ts ==> !IsEmpty(t.content)
    ensures Clean(Merged(ts))
  {
    if ts != [] {
      MergedClean(ts[..|ts| - 1]);
      assert ts[|ts| - 1] in ts;
      AddTurnClean(Merged(ts[..|ts| - 1]), ts[|ts| - 1]);
    }
  }

  lemma {:induction false} KeptNotEmpty(ms: seq<Input>)
    ensures forall t :: t in Kept(ms) ==> !IsEmpty(t.content)
  {
    if ms != [] {
      KeptNotEmpty(ms[..|ms| - 1]);
    }
  }

  lemma BuiltIsClean(ms: seq<Input>)
    ensures Clean(Built(ms))
  {
    KeptNotEmpty(ms);
    MergedClean(Kept(ms));
  }

  /** A conversation fed back in. */
  function AsInput(ts: seq<Turn>): (ms: seq<Input>)
    ensures |ms| == |ts|
  {
    if ts == [] then []
    else
      var t := ts[|ts| - 1];
      AsInput(ts[..|ts| - 1]) + [Input(if t.assistant then "assistant" else "user", t.content)]
  }

  lemma BuiltOneMore(ms: seq<Input>, t: Turn)
    requires !IsEmpty(t.content)
    ensures Built(ms + [Input(if t.assistant then "assistant" else "user", t.content)]) == AddTurn(Built(ms), t)
  {
    var longer := ms + [Input(if t.assistant then "assistant" else "user", t.content)];
    assert longer[..|ms|] == ms;
    assert (Kept(ms) + [t])[..|Kept(ms)|] == Kept(ms);
  }

  lemma {:induction false} CleanIsFixed(ts: seq<Turn>)
    requires Clean(ts)
    ensures Built(AsInput(ts)) == ts
  {
    if ts != [] {
      var front, t := ts[..|ts| - 1], ts[|ts| - 1];
      CleanFront(ts);
      CleanIsFixed(front);
      BuiltOneMore(AsInput(front), t);
    }
  }

  lemma CleanFront(ts: seq<Turn>)
    requires Clean(ts) && ts != []
    ensures var front, t := ts[..|ts| - 1], ts[|ts| - 1];
            Clean(front) && !IsEmpty(t.content) && AddTurn(front, t) == ts
  {
    var front, t := ts[..|ts| - 1], ts[|ts| - 1];
    assert forall i :: 0 <= i < |front| ==> front[i] == ts[i];
    assert t in ts;
    assert front + [t] == ts;
  }

  /** A second application changes nothing. */
  lemma BuildTwice(ms: seq<Input>)
    ensures Built(AsInput(Built(ms))) == Built(ms)
  {
    BuiltIsClean(ms);
    CleanIsFixed(Built(ms));
  }

  function JoinTexts(ts: seq<Turn>): string {
    if ts == [] then ""
    else
      var t := ts[|ts| - 1];
      var text := if t.content.Plain? then t.content.text else "";
      if |ts| == 1 then text else JoinTexts(ts[..|ts| - 1]) + "\n\n" + text
  }

  /** A run of plain turns of one speaker becomes one turn holding the texts as
      they are, a blank line between them. */
  lemma {:induction false} PlainRunIsJoined(before: seq<Turn>, run: seq<Turn>, a: bool)
    requires run != [] && forall t :: t in run ==> t.assistant == a && t.content.Plain?
    requires Merged(before) != [] ==> Merged(before)[|Merged(before)| - 1].assistant != a
    ensures Merged(before + run) == Merged(before) + [Turn(a, Plain(JoinTexts(run)))]
  {
    var n := |run| - 1;
    var t := run[n];
    assert t in run && t == Turn(a, t.content);
    Assoc(before, run[..n], [t]);
    assert run[..n] + [t] == run;
    MergedOneMore(before + run[..n], t);
    if n == 0 {
      Nil(before);
    } else {
      PlainRunIsJoined(before, run[..n], a);
      AddPlain(Merged(before), JoinTexts(run[..n]), t);
    }
  }

  lemma MergedOneMore(ts: seq<Turn>, t: Turn)
    ensures Merged(ts + [t]) == AddTurn(Merged(ts), t)
  {
    assert (ts + [t])[..|ts|] == ts;
  }

  lemma AddPlain(ts: seq<Turn>, text: string, t: Turn)
    requires t.content.Plain?
    ensures AddTurn(ts + [Turn(t.assistant, Plain(text))], t)
            == ts + [Turn(t.assistant, Plain(text + "\n\n" + t.content.text))]
  {
    var longer := ts + [Turn(t.assistant, Plain(text))];
    assert longer[..|longer| - 1] == ts;
  }


  /** The system prompt is the content of the last system message. */
  lemma {:induction false} SystemIsLast(ms: seq<Input>)
    ensures match SystemOf(ms)
            case None => forall m :: m in ms ==> m.role != "system"
            case Some(c) =>
              exists i :: 0 <= i < |ms| && ms[i] == Input("system", c)
                          && forall j :: i < j < |ms| ==> ms[j].role != "system"
  {
    if ms != [] {
      var n := |ms| - 1;
      SystemIsLast(ms[..n]);
      if ms[n].role == "system" {
        assert ms[n] == Input("system", ms[n].content);
      } else if SystemOf(ms).Some? {
        var i :| 0 <= i < n && ms[..n][i] == Input("system", SystemOf(ms).value)
                 && forall j :: i < j < n ==> ms[..n][j].role != "system";
        assert ms[i] == ms[..n][i];
        assert forall j :: i < j < n ==> ms[j] == ms[..n][j];
      }
    }
  }
}
