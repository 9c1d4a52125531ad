/** Fence spacing (`_normalize_fence_spacing` in app/streaming_tool_executor.py).

    The first substitution puts a blank line between a tagged fence and a
    character before it on its line, the second doubles a single newline before
    a tagged fence. Each is modelled as a scan of the text from a position on,
    which goes on behind a match as `re.sub` does. */
module FenceSpacing {
  import opened Strings
  import opened FenceTracker

  /** `b` is `a` with newlines put in. */
  predicate Spread(a: string, b: string)
    decreases |b|
  {
    if b == [] then a == []
    else (a != [] && a[0] == b[0] && Spread(a[1..], b[1..])) || (b[0] == '\n' && Spread(a, b[1..]))
  }

  lemma {:induction false} SpreadSelf(a: string)
    ensures Spread(a, a)
  {
    if a != [] {
      SpreadSelf(a[1..]);
    }
  }

  lemma {:induction false} SpreadAppend(a: string, b: string, c: string, d: string)
    requires Spread(a, b) && Spread(c, d)
    ensures Spread(a + c, b + d)
    decreases |b|
  {
    if b == [] {
      assert a + c == c && b + d == d;
    } else {
      assert (b + d)[1..] == b[1..] + d;
      if a != [] && a[0] == b[0] && Spread(a[1..], b[1..]) {
        SpreadAppend(a[1..], b[1..], c, d);
        assert (a + c)[1..] == a[1..] + c;
      } else {
        SpreadAppend(a, b[1..], c, d);
      }
    }
  }

  lemma {:induction false} SpreadTwice(a: string, b: string, c: string)
    requires Spread(a, b) && Spread(b, c)
    ensures Spread(a, c)
    decreases |c|
  {
    if c != [] {
      if b != [] && b[0] == c[0] && Spread(b[1..], c[1..]) {
        if a != [] && a[0] == b[0] && Spread(a[1..], b[1..]) {
          SpreadTwice(a[1..], b[1..], c[1..]);
        } else {
          SpreadTwice(a, b[1..], c[1..]);
        }
      } else {
        SpreadTwice(a, b, c[1..]);
      }
    }
  }

  function WithoutNewlines(s: string): string {
    if s == [] then []
    else if s[0] == '\n' then WithoutNewlines(s[1..])
    else [s[0]] + WithoutNewlines(s[1..])
  }

  lemma {:induction false} SpreadErases(a: string, b: string)
    requires Spread(a, b)
    ensures WithoutNewlines(a) == WithoutNewlines(b)
    decreases |b|
  {
    if b != [] {
      if a != [] && a[0] == b[0] && Spread(a[1..], b[1..]) {
        SpreadErases(a[1..], b[1..]);
      } else {
        SpreadErases(a, b[1..]);
      }
    }
  }

  lemma {:induction false} SpreadStart(a: string, b: string, u: string)
    requires Spread(a, b) && u <= b && '\n' !in u
    ensures u <= a
    decreases |u|
  {
    if u != [] {
      assert u[0] != '\n';
      assert u == [u[0]] + u[1..];
      SpreadStart(a[1..], b[1..], u[1..]);
    }
  }

  /** Text on one line of the result is also in the original. */
  lemma {:induction false} SpreadPart(a: string, b: string, i: nat, j: nat)
    requires Spread(a, b) && i <= j <= |b| && '\n' !in b[i..j]
    ensures exists m, n :: 0 <= m <= n <= |a| && a[m..n] == b[i..j]
    decreases |b|
  {
    if i == 0 {
      SpreadStart(a, b, b[..j]);
      assert a[0..j] == b[i..j];
    } else {
      assert b[1..][i - 1..j - 1] == b[i..j];
      if a != [] && a[0] == b[0] && Spread(a[1..], b[1..]) {
        SpreadPart(a[1..], b[1..], i - 1, j - 1);
        var m, n :| 0 <= m <= n <= |a[1..]| && a[1..][m..n] == b[i..j];
        assert a[m + 1..n + 1] == b[i..j];
      } else {
        SpreadPart(a, b[1..], i - 1, j - 1);
      }
    }
  }

  // ---- the two substitutions ------------------------------------------------------

  /** `[\w-]`. */
  predicate IsNameChar(c: char) {
    IsLetter(c) || '0' <= c <= '9' || c == '_' || c == '-'
  }

  function NameRun(w: string, i: nat): (n: nat)
    requires i <= |w|
    ensures i + n <= |w|
    decreases |w| - i
  {
    if i < |w| && IsNameChar(w[i]) then 1 + NameRun(w, i + 1) else 0
  }

  /** The end of a tagged fence that starts at `i`: three backticks or more, a
      letter, further name characters, then white space or the end of the text. */
  function FenceEnd(w: string, i: nat): (e: Option<nat>)
    requires i <= |w|
    ensures e.Some? ==> i + 4 <= e.value <= |w|
  {
    var j := i + RunLength(w, i, '`');
    if j < i + 3 || j == |w| || !IsLetter(w[j]) then None
    else
      var e := j + 1 + NameRun(w, j + 1);
      if e == |w| || IsSpace(w[e]) then Some(e) else None
  }

  /** `_FENCE_GLUED_RE.sub(r'\1\n\n\2', w)` from `i` on. */
  function Unglue(w: string, i: nat): string
    requires i <= |w|
    decreases |w| - i
  {
    if i == |w| then ""
    else if w[i] != '\n' && FenceEnd(w, i + 1).Some? then
      var e := FenceEnd(w, i + 1).value;
      [w[i]] + "\n\n" + w[i + 1..e] + Unglue(w, e)
    else [w[i]] + Unglue(w, i + 1)
  }

  /** `_FENCE_SINGLE_NL_RE.sub(r'\n\n\1', w)` from `i` on. */
  function Promote(w: string, i: nat): string
    requires i <= |w|
    decreases |w| - i
  {
    if i == |w| then ""
    else if w[i] == '\n' && (i == 0 || w[i - 1] != '\n') && FenceEnd(w, i + 1).Some? then
      var e := FenceEnd(w, i + 1).value;
      "\n\n" + w[i + 1..e] + Promote(w, e)
    else [w[i]] + Promote(w, i + 1)
  }

  function Normalized(inBlock: bool, text: string): string {
    if inBlock || '`' !in text then text else Promote(Unglue(text, 0), 0)
  }

  lemma SpreadPiece(w: string, i: nat, e: nat, before: string, rest: string)
    requires i < e <= |w| && Spread(w[e..], rest) && Spread([w[i]], before)
    ensures Spread(w[i..], before + w[i + 1..e] + rest)
  {
    SpreadSelf(w[i + 1..e]);
    SpreadAppend([w[i]], before, w[i + 1..e], w[i + 1..e]);
    SpreadAppend([w[i]] + w[i + 1..e], before + w[i + 1..e], w[e..], rest);
    assert [w[i]] + w[i + 1..e] + w[e..] == w[i..];
  }

  lemma {:induction false} UnglueSpreads(w: string, i: nat)
    requires i <= |w|
    ensures Spread(w[i..], Unglue(w, i))
    decreases |w| - i
  {
    if i < |w| {
      if w[i] != '\n' && FenceEnd(w, i + 1).Some? {
        var e := FenceEnd(w, i + 1).value;
        UnglueSpreads(w, e);
        TwoNewlines(w[i]);
        SpreadPiece(w, i, e, [w[i]] + "\n\n", Unglue(w, e));
      } else {
        UnglueSpreads(w, i + 1);
        assert w[i..][1..] == w[i + 1..];
      }
    }
  }

  lemma TwoNewlines(c: char)
    ensures Spread([c], [c] + "\n\n")
    ensures Spread("\n", "\n\n")
  {
    var b := [c] + "\n\n";
    assert b[1..] == "\n\n" && "\n\n"[1..] == "\n" && "\n"[1..] == "" && [c][1..] == "";
    assert Spread("", "\n");
    assert Spread("", "\n\n");
    assert Spread("\n"[1..], "\n\n"[1..]);
  }

  lemma {:induction false} PromoteSpreads(w: string, i: nat)
    requires i <= |w|
    ensures Spread(w[i..], Promote(w, i))
    decreases |w| - i
  {
    if i < |w| {
      if w[i] == '\n' && (i == 0 || w[i - 1] != '\n') && FenceEnd(w, i + 1).Some? {
        var e := FenceEnd(w, i + 1).value;
        PromoteSpreads(w, e);
        TwoNewlines(w[i]);
        assert [w[i]] == "\n";
        SpreadPiece(w, i, e, "\n\n", Promote(w, e));
      } else {
        PromoteSpreads(w, i + 1);
        assert w[i..][1..] == w[i + 1..];
      }
    }
  }

  /** Normalising only ever puts newlines in. */
  lemma NormalizedSpreads(inBlock: bool, text: string)
    ensures Spread(text, Normalized(inBlock, text))
  {
    SpreadSelf(text);
    UnglueSpreads(text, 0);
    assert text[0..] == text;
    var u := Unglue(text, 0);
    PromoteSpreads(u, 0);
    assert u[0..] == u;
    SpreadTwice(text, u, Promote(u, 0));
  }

  lemma {:induction false} UnglueKeeps(w: string, i: nat, e: nat)
    requires i <= e <= |w| && forall k :: i < k <= e ==> FenceEnd(w, k).None?
    ensures Unglue(w, i) == w[i..e] + Unglue(w, e)
    decreases e - i
  {
    if i < e {
      UnglueKeeps(w, i + 1, e);
      SliceHead(w, i, e);
      Assoc([w[i]], w[i + 1..e], Unglue(w, e));
    } else {
      assert w[i..e] == [];
      Nil(Unglue(w, e));
    }
  }

  lemma {:induction false} NameRunIsNames(w: string, i: nat)
    requires i <= |w|
    ensures forall k :: i <= k < i + NameRun(w, i) ==> IsNameChar(w[k])
    decreases |w| - i
  {
    if i < |w| && IsNameChar(w[i]) {
      NameRunIsNames(w, i + 1);
    }
  }

  lemma NoFenceInside(w: string, i: nat, k: nat)
    requires i <= |w| && FenceEnd(w, i).Some? && RunLength(w, i, '`') == 3
    requires i < k <= FenceEnd(w, i).value
    ensures FenceEnd(w, k).None?
  {
    RunLengthSpec(w, i, '`');
    if k < i + 3 {
      RunLengthIs(w, k, '`', i + 3 - k);
    } else {
      NameRunIsNames(w, i + 4);
      assert k < FenceEnd(w, i).value ==> IsNameChar(w[k]);
    }
  }

  /** A run of backticks begins at `p`. */
  predicate RunStarts(w: string, p: nat) {
    p < |w| && w[p] == '`' && (p > 0 ==> w[p - 1] != '`')
  }

  /** A substitution never ends inside or at a run that begins later. */
  lemma FenceEndsBefore(w: string, i: nat, p: nat)
    requires i + 1 < p && RunStarts(w, p) && FenceEnd(w, i + 1).Some?
    ensures FenceEnd(w, i + 1).value < p
  {
    var e := FenceEnd(w, i + 1).value;
    var j := i + 1 + RunLength(w, i + 1, '`');
    RunLengthSpec(w, i + 1, '`');
    NameRunIsNames(w, j + 1);
    assert forall k :: i + 1 <= k < j ==> w[k] == '`';
    assert forall k :: j <= k < e ==> w[k] != '`';
    assert e < |w| ==> w[e] != '`';
  }

  /** The scan stands right before every run of backticks. */
  lemma {:induction false} ScanReaches(w: string, i: nat, p: nat) returns (x: string)
    requires i < p && RunStarts(w, p)
    ensures Unglue(w, i) == x + Unglue(w, p - 1) && Spread(w[i..p - 1], x)
    decreases p - i
  {
    if i == p - 1 {
      x := "";
      Nil(Unglue(w, i));
    } else if w[i] != '\n' && FenceEnd(w, i + 1).Some? {
      var e := FenceEnd(w, i + 1).value;
      FenceEndsBefore(w, i, p);
      var rest := ScanReaches(w, e, p);
      x := [w[i]] + "\n\n" + w[i + 1..e] + rest;
      Assoc([w[i]] + "\n\n" + w[i + 1..e], rest, Unglue(w, p - 1));
      TwoNewlines(w[i]);
      SpreadPart3(w, i, e, p - 1, rest);
    } else {
      var rest := ScanReaches(w, i + 1, p);
      x := [w[i]] + rest;
      Assoc([w[i]], rest, Unglue(w, p - 1));
      SliceHead(w, i, p - 1);
      SpreadSelf([w[i]]);
      SpreadAppend([w[i]], [w[i]], w[i + 1..p - 1], rest);
    }
  }

  lemma SpreadPart3(w: string, i: nat, e: nat, p: nat, rest: string)
    requires i < e <= p <= |w| && Spread(w[e..p], rest)
    ensures Spread(w[i..p], [w[i]] + "\n\n" + w[i + 1..e] + rest)
  {
    TwoNewlines(w[i]);
    SpreadSelf(w[i + 1..e]);
    SpreadAppend([w[i]], [w[i]] + "\n\n", w[i + 1..e], w[i + 1..e]);
    SpreadAppend([w[i]] + w[i + 1..e], [w[i]] + "\n\n" + w[i + 1..e], w[e..p], rest);
    assert [w[i]] + w[i + 1..e] + w[e..p] == w[i..p];
  }

  /** How a fence that starts at `p` fares: a three backticks wide one and one
      behind a character on its line stay whole, a wider one loses its first
      backtick. */
  predicate StaysWhole(w: string, p: nat)
    requires p <= |w|
  {
    RunLength(w, p, '`') == 3 || (p > 0 && w[p - 1] != '\n')
  }

  /** `out` is `w` up to `p`, spaced, then `piece`, then something. */
  ghost predicate Shows(w: string, p: nat, piece: string, out: string)
    requires p <= |w|
  {
    exists x, y :: Splits(w, p, piece, out, x, y)
  }

  ghost predicate Splits(w: string, p: nat, piece: string, out: string, x: string, y: string)
    requires p <= |w|
  {
    out == x + piece + y && Spread(w[..p], x)
  }

  const LOST := ['`'] + "\n\n"

  /** What stands for the fence at `p` when the scan stands there. */
  function Piece(w: string, p: nat): string
    requires p <= |w| && FenceEnd(w, p).Some?
  {
    if RunLength(w, p, '`') == 3 then w[p..FenceEnd(w, p).value] else LOST
  }

  lemma NarrowHere(w: string, p: nat)
    requires p <= |w| && FenceEnd(w, p).Some? && RunLength(w, p, '`') == 3
    ensures Unglue(w, p) == w[p..FenceEnd(w, p).value] + Unglue(w, FenceEnd(w, p).value)
  {
    var e := FenceEnd(w, p).value;
    forall k | p < k <= e
      ensures FenceEnd(w, k).None?
    {
      NoFenceInside(w, p, k);
    }
    UnglueKeeps(w, p, e);
  }

  lemma WideHere(w: string, p: nat)
    requires p <= |w| && FenceEnd(w, p).Some? && RunLength(w, p, '`') > 3
    ensures FenceEnd(w, p + 1) == FenceEnd(w, p)
    ensures var e := FenceEnd(w, p).value; Unglue(w, p) == LOST + w[p + 1..e] + Unglue(w, e)
  {
    RunLengthSpec(w, p, '`');
    RunLengthIs(w, p + 1, '`', RunLength(w, p, '`') - 1);
  }

  lemma FenceHere(w: string, p: nat) returns (y: string)
    requires p <= |w| && FenceEnd(w, p).Some?
    ensures Unglue(w, p) == Piece(w, p) + y
    ensures RunLength(w, p, '`') == 3 ==> y == Unglue(w, FenceEnd(w, p).value)
  {
    var e := FenceEnd(w, p).value;
    if RunLength(w, p, '`') == 3 {
      NarrowHere(w, p);
      y := Unglue(w, e);
    } else {
      WideHere(w, p);
      y := w[p + 1..e] + Unglue(w, e);
      Assoc(LOST, w[p + 1..e], Unglue(w, e));
    }
  }

  /** Appends one more scanned character to what was scanned before. */
  lemma Joined(w: string, p: nat, before: string, piece: string, y: string, x': string, out: string)
    requires 0 < p <= |w| && Spread(w[0..p - 1], before) && Spread([w[p - 1]], x') && out == before + (x' + piece + y)
    ensures Splits(w, p, piece, out, before + x', y)
  {
    SpreadAppend(w[0..p - 1], before, [w[p - 1]], x');
    assert w[0..p - 1] + [w[p - 1]] == w[..p];
    Regroup(before, x', piece, y);
  }

  /** The first substitution, seen at one fence of a whole text. */
  lemma UnglueAt(w: string, p: nat) returns (x: string, y: string)
    requires RunStarts(w, p) && FenceEnd(w, p).Some?
    ensures Splits(w, p, if StaysWhole(w, p) then w[p..FenceEnd(w, p).value] else LOST, Unglue(w, 0), x, y)
    ensures StaysWhole(w, p) ==> y == Unglue(w, FenceEnd(w, p).value)
    ensures if p == 0 then x == "" else x != "" && x[|x| - 1] == '\n'
  {
    if p == 0 {
      y := FenceHere(w, 0);
      x := "";
      assert w[..0] == "";
      Nil(Unglue(w, 0));
      Nil(Piece(w, 0));
    } else if w[p - 1] != '\n' {
      x, y := GluedAt(w, p);
    } else {
      var before := ScanReaches(w, 0, p);
      y := FenceHere(w, p);
      SpreadSelf([w[p - 1]]);
      Assoc([w[p - 1]], Piece(w, p), y);
      Joined(w, p, before, Piece(w, p), y, [w[p - 1]], Unglue(w, 0));
      x := before + [w[p - 1]];
    }
  }

  lemma GluedAt(w: string, p: nat) returns (x: string, y: string)
    requires RunStarts(w, p) && FenceEnd(w, p).Some? && p > 0 && w[p - 1] != '\n'
    ensures Splits(w, p, w[p..FenceEnd(w, p).value], Unglue(w, 0), x, y)
    ensures y == Unglue(w, FenceEnd(w, p).value) && x != "" && x[|x| - 1] == '\n'
  {
    var e, c := FenceEnd(w, p).value, w[p - 1];
    var before := ScanReaches(w, 0, p);
    TwoNewlines(c);
    Joined(w, p, before, w[p..e], Unglue(w, e), [c] + "\n\n", Unglue(w, 0));
    x, y := before + ([c] + "\n\n"), Unglue(w, e);
  }

  lemma Regroup(a: string, b: string, c: string, d: string)
    ensures a + (b + c + d) == a + b + c + d
    ensures a + (b + (c + d)) == a + b + c + d
  {
    Assoc(a, b, c);
    Assoc(a + b, c, d);
    Assoc(a, b + c, d);
    Assoc(b, c, d);
  }

  // ---- both substitutions on a whole text ------------------------------------------

  /** `v` is `u` with some newlines doubled. */
  predicate Doubled(u: string, v: string)
    decreases |u|
  {
    if u == [] then v == []
    else
      && v != [] && v[0] == u[0]
      && (Doubled(u[1..], v[1..]) || (u[0] == '\n' && |v| > 1 && v[1] == '\n' && Doubled(u[1..], v[2..])))
  }

  lemma {:induction false} DoubledBehind(c: string, u: string, v: string)
    requires Doubled(u, v)
    ensures Doubled(c + u, c + v)
  {
    if c == [] {
      Nil(u);
      Nil(v);
    } else {
      DoubledBehind(c[1..], u, v);
      assert (c + u)[1..] == c[1..] + u && (c + v)[1..] == c[1..] + v;
    }
  }

  lemma {:induction false} PromoteDoubles(w: string, i: nat)
    requires i <= |w|
    ensures Doubled(w[i..], Promote(w, i))
    decreases |w| - i
  {
    if i < |w| {
      assert w[i..][1..] == w[i + 1..];
      if w[i] == '\n' && (i == 0 || w[i - 1] != '\n') && FenceEnd(w, i + 1).Some? {
        var e := FenceEnd(w, i + 1).value;
        PromoteDoubles(w, e);
        DoubledBehind(w[i + 1..e], w[e..], Promote(w, e));
        assert w[i + 1..e] + w[e..] == w[i + 1..];
        Assoc("\n\n", w[i + 1..e], Promote(w, e));
        assert Promote(w, i)[2..] == w[i + 1..e] + Promote(w, e);
      } else {
        PromoteDoubles(w, i + 1);
        assert Promote(w, i)[1..] == Promote(w, i + 1);
      }
    }
  }

  lemma {:induction false} DoubledSplit(a: string, b: string, v: string) returns (y: string, z: string)
    requires Doubled(a + b, v)
    ensures v == y + z && Doubled(a, y) && Doubled(b, z)
    ensures a != "" ==> y != "" && y[0] == a[0]
    decreases |a|
  {
    if a == [] {
      y, z := "", v;
      Nil(b);
      Nil(v);
    } else {
      assert (a + b)[1..] == a[1..] + b;
      if Doubled(a[1..] + b, v[1..]) {
        y, z := DoubledSplit(a[1..], b, v[1..]);
        OneHead(a, v, y, z);
        y := [v[0]] + y;
      } else {
        y, z := DoubledSplit(a[1..], b, v[2..]);
        TwoHeads(a, v, y, z);
        y := [v[0], v[1]] + y;
      }
    }
  }

  lemma OneHead(a: string, v: string, y: string, z: string)
    requires a != [] && v != [] && v[0] == a[0] && Doubled(a[1..], y) && v[1..] == y + z
    ensures v == [v[0]] + y + z && Doubled(a, [v[0]] + y)
  {
    assert ([v[0]] + y)[1..] == y;
    Assoc([v[0]], y, z);
  }

  lemma TwoHeads(a: string, v: string, y: string, z: string)
    requires a != [] && |v| > 1 && v[0] == a[0] == '\n' == v[1] && Doubled(a[1..], y) && v[2..] == y + z
    ensures v == [v[0], v[1]] + y + z && Doubled(a, [v[0], v[1]] + y)
  {
    assert ([v[0], v[1]] + y)[2..] == y;
    Assoc([v[0], v[1]], y, z);
  }

  lemma {:induction false} DoubledSame(a: string, v: string)
    requires Doubled(a, v) && '\n' !in a
    ensures v == a
  {
    if a != [] {
      assert a[0] in a;
      DoubledSame(a[1..], v[1..]);
    }
  }

  lemma {:induction false} DoubledSpreads(a: string, v: string)
    requires Doubled(a, v)
    ensures Spread(a, v)
    decreases |a|
  {
    if a != [] {
      if Doubled(a[1..], v[1..]) {
        DoubledSpreads(a[1..], v[1..]);
      } else {
        DoubledSpreads(a[1..], v[2..]);
        assert v[1..][1..] == v[2..];
        assert Spread(a[1..], v[1..]);
      }
    }
  }

  /** A piece of the text comes through a doubling at the same place. */
  lemma DoubledShows(w: string, p: nat, piece: string, u: string, v: string, x: string, y: string)
      returns (x': string, piece': string, y': string)
    requires p <= |w| && Splits(w, p, piece, u, x, y) && Doubled(u, v)
    ensures Splits(w, p, piece', v, x', y') && Doubled(piece, piece')
  {
    Assoc(x, piece, y);
    var rest;
    x', rest := DoubledSplit(x, piece + y, v);
    piece', y' := DoubledSplit(piece, y, rest);
    DoubledSpreads(x, x');
    SpreadTwice(w[..p], x, x');
    Assoc(x', piece', y');
  }

  lemma {:induction false} WithoutNewlinesAppend(a: string, b: string)
    ensures WithoutNewlines(a + b) == WithoutNewlines(a) + WithoutNewlines(b)
  {
    if a == [] {
      Nil(b);
    } else {
      assert (a + b)[1..] == a[1..] + b;
      WithoutNewlinesAppend(a[1..], b);
    }
  }

  /** Only one place in the result follows `w[..p]` and goes on with ink. */
  lemma OnePlace(w: string, out: string, a: string, b: string)
    requires Spread(w, a) && Spread(w, b) && a <= out && b <= out && |a| < |out| && out[|a|] != '\n'
    ensures |b| <= |a|
  {
    if |a| < |b| {
      var more := b[|a|..];
      assert b == a + more && more[0] == out[|a|];
      WithoutNewlinesAppend(a, more);
      SpreadErases(w, a);
      SpreadErases(w, b);
    }
  }

  lemma SamePlace(w: string, out: string, a: string, b: string)
    requires Spread(w, a) && Spread(w, b) && a <= out && b <= out && |a| < |out| && |b| < |out|
    requires out[|a|] != '\n' && out[|b|] != '\n'
    ensures a == b
  {
    OnePlace(w, out, a, b);
    OnePlace(w, out, b, a);
  }

  lemma NotBoth(w: string, p: nat, fence: string, lost: string, out: string, x: string, y: string)
    requires p <= |w| && Splits(w, p, lost, out, x, y)
    requires |lost| > 1 && |fence| > 1 && lost[0] == fence[0] != '\n' && lost[1] != fence[1]
    ensures !Shows(w, p, fence, out)
  {
    forall a, b | Splits(w, p, fence, out, a, b)
      ensures false
    {
      assert out[|a|] == fence[0] && out[|x|] == lost[0];
      assert out[|a| + 1] == fence[1] && out[|x| + 1] == lost[1];
      SamePlace(w[..p], out, a, x);
    }
  }

  /** In a text outside a block, a tagged fence comes through whole exactly if it
      is three backticks wide or follows another character on its line. Any
      other one loses its first backtick to the line before. */
  lemma FenceWholeIff(w: string, p: nat)
    requires RunStarts(w, p) && FenceEnd(w, p).Some?
    ensures Shows(w, p, w[p..FenceEnd(w, p).value], Normalized(false, w)) <==> StaysWhole(w, p)
  {
    var fence, u, out := w[p..FenceEnd(w, p).value], Unglue(w, 0), Normalized(false, w);
    PromoteDoubles(u, 0);
    assert u[0..] == u;
    var x, y := UnglueAt(w, p);
    if StaysWhole(w, p) {
      var x', piece, y' := DoubledShows(w, p, fence, u, out, x, y);
      FenceOnOneLine(w, p);
      DoubledSame(fence, piece);
      assert Splits(w, p, fence, out, x', y');
    } else {
      var x', piece, y' := DoubledShows(w, p, LOST, u, out, x, y);
      LostShows(piece);
      RunLengthSpec(w, p, '`');
      assert fence[0] == w[p] && fence[1] == w[p + 1];
      NotBoth(w, p, fence, piece, out, x', y');
    }
  }

  lemma LostShows(v: string)
    requires Doubled(LOST, v)
    ensures |v| > 1 && v[0] == '`' && v[1] == '\n'
  {
    assert LOST[0] == '`' && LOST[1..] == "\n\n";
    assert Doubled("\n\n", v[1..]);
  }

  lemma FenceOnOneLine(w: string, p: nat)
    requires p <= |w| && FenceEnd(w, p).Some?
    ensures '\n' !in w[p..FenceEnd(w, p).value]
  {
    var e := FenceEnd(w, p).value;
    var j := p + RunLength(w, p, '`');
    RunLengthSpec(w, p, '`');
    NameRunIsNames(w, j + 1);
    forall k | p <= k < e
      ensures w[k] != '\n'
    {
      assert k < j ==> w[k] == '`';
      assert j < k ==> IsNameChar(w[k]);
    }
  }

  // ---- the blank line in front ------------------------------------------------------

  /** A tagged fence from `i` to `e`, `n` backticks wide. */
  predicate TaggedFence(w: string, i: nat, n: nat, e: nat) {
    && n >= 3 && i + n < e <= |w|
    && (forall k :: i <= k < i + n ==> w[k] == '`')
    && IsLetter(w[i + n]) && (forall k :: i + n < k < e ==> IsNameChar(w[k]))
    && (e == |w| || IsSpace(w[e]))
  }

  lemma {:induction false} NameRunIs(w: string, i: nat, e: nat)
    requires i <= e <= |w| && (forall k :: i <= k < e ==> IsNameChar(w[k])) && (e == |w| || !IsNameChar(w[e]))
    ensures NameRun(w, i) == e - i
    decreases e - i
  {
    if i < e {
      NameRunIs(w, i + 1, e);
    }
  }

  /** `FenceEnd` finds tagged fences, and nothing else. */
  lemma FenceEndIff(w: string, i: nat, n: nat, e: nat)
    requires i <= |w|
    ensures TaggedFence(w, i, n, e) ==> FenceEnd(w, i) == Some(e) && RunLength(w, i, '`') == n
    ensures FenceEnd(w, i) == Some(e) ==> TaggedFence(w, i, RunLength(w, i, '`'), e)
  {
    if TaggedFence(w, i, n, e) {
      RunLengthIs(w, i, '`', n);
      NameRunIs(w, i + n + 1, e);
    }
    if FenceEnd(w, i) == Some(e) {
      RunLengthSpec(w, i, '`');
      NameRunIsNames(w, i + RunLength(w, i, '`') + 1);
    }
  }

  /** A tagged fence is one wherever it stands, if white space or nothing follows. */
  lemma FenceMoves(w: string, p: nat, x: string, y: string)
    requires p <= |w| && FenceEnd(w, p).Some? && (y == "" || IsSpace(y[0]))
    ensures var fence := w[p..FenceEnd(w, p).value];
            FenceEnd(x + fence + y, |x|) == Some(|x| + |fence|)
  {
    var e := FenceEnd(w, p).value;
    var fence := w[p..e];
    var u := x + fence + y;
    var n := RunLength(w, p, '`');
    FenceEndIff(w, p, n, e);
    assert forall k :: 0 <= k < |fence| ==> u[|x| + k] == fence[k] == w[p + k];
    assert forall k :: |x| <= k < |x| + |fence| ==> u[k] == w[p + (k - |x|)];
    assert y != "" ==> u[|x| + |fence|] == y[0];
    assert TaggedFence(u, |x|, n, |x| + |fence|);
    FenceEndIff(u, |x|, n, |x| + |fence|);
  }

  /** The second scan stands at every newline. */
  lemma {:induction false} PromoteReaches(u: string, i: nat, q: nat) returns (x: string)
    requires i <= q < |u| && u[q] == '\n'
    ensures Promote(u, i) == x + Promote(u, q) && Spread(u[i..q], x)
    decreases q - i
  {
    if i == q {
      x := "";
      Nil(Promote(u, i));
    } else if u[i] == '\n' && (i == 0 || u[i - 1] != '\n') && FenceEnd(u, i + 1).Some? {
      var e := FenceEnd(u, i + 1).value;
      FenceOnOneLine(u, i + 1);
      if q < e {
        InSlice(u, i + 1, e, q);
      }
      var rest := PromoteReaches(u, e, q);
      x := "\n\n" + u[i + 1..e] + rest;
      Assoc("\n\n" + u[i + 1..e], rest, Promote(u, q));
      SpreadPromoted(u, i, e, q, rest);
    } else {
      var rest := PromoteReaches(u, i + 1, q);
      x := [u[i]] + rest;
      Assoc([u[i]], rest, Promote(u, q));
      SliceHead(u, i, q);
      SpreadSelf([u[i]]);
      SpreadAppend([u[i]], [u[i]], u[i + 1..q], rest);
    }
  }

  lemma InSlice(u: string, a: nat, e: nat, q: nat)
    requires a <= q < e <= |u|
    ensures u[q] in u[a..e]
  {
    assert u[a..e][q - a] == u[q];
  }

  lemma SpreadPromoted(u: string, i: nat, e: nat, q: nat, rest: string)
    requires i < e <= q <= |u| && u[i] == '\n' && Spread(u[e..q], rest)
    ensures Spread(u[i..q], "\n\n" + u[i + 1..e] + rest)
  {
    TwoNewlines(u[i]);
    assert [u[i]] == "\n";
    SpreadSelf(u[i + 1..e]);
    SpreadAppend("\n", "\n\n", u[i + 1..e], u[i + 1..e]);
    SpreadAppend("\n" + u[i + 1..e], "\n\n" + u[i + 1..e], u[e..q], rest);
    assert [u[i]] + u[i + 1..e] + u[e..q] == u[i..q];
  }

  lemma {:induction false} PromoteKeeps(u: string, i: nat, e: nat)
    requires i <= e <= |u| && '\n' !in u[i..e]
    ensures Promote(u, i) == u[i..e] + Promote(u, e)
    decreases e - i
  {
    if i < e {
      SliceHead(u, i, e);
      assert u[i] in u[i..e];
      PromoteKeeps(u, i + 1, e);
      Assoc([u[i]], u[i + 1..e], Promote(u, e));
    } else {
      assert u[i..e] == [];
      Nil(Promote(u, e));
    }
  }

  /** `x` is followed by a blank line. */
  predicate EndsBlank(x: string) {
    |x| >= 2 && x[|x| - 1] == '\n' && x[|x| - 2] == '\n'
  }

  /** One newline in front of a fence is doubled. */
  lemma OneNewline(u: string, s: nat) returns (x: string, y: string)
    requires 0 < s <= |u| && u[s - 1] == '\n' && (s == 1 || u[s - 2] != '\n') && FenceEnd(u, s).Some?
    ensures Promote(u, 0) == x + u[s..FenceEnd(u, s).value] + y && Spread(u[..s], x) && EndsBlank(x)
  {
    var before := PromoteReaches(u, 0, s - 1);
    var fence := u[s..FenceEnd(u, s).value];
    y := Promote(u, FenceEnd(u, s).value);
    x := before + "\n\n";
    Regroup(before, "\n\n", fence, y);
    TwoNewlines(u[s - 1]);
    assert [u[s - 1]] == "\n";
    SpreadAppend(u[0..s - 1], before, "\n", "\n\n");
    assert u[0..s - 1] + [u[s - 1]] == u[..s];
  }

  lemma NewlineCopied(u: string, i: nat)
    requires i < |u| && (FenceEnd(u, i + 1).None? || (i > 0 && u[i - 1] == '\n'))
    ensures Promote(u, i) == [u[i]] + Promote(u, i + 1)
  {
  }

  lemma TwoCopied(u: string, s: nat)
    requires 1 < s <= |u| && u[s - 1] == '\n' && u[s - 2] == '\n'
    ensures Promote(u, s - 2) == "\n\n" + Promote(u, s)
  {
    assert RunLength(u, s - 1, '`') == 0;
    NewlineCopied(u, s - 2);
    NewlineCopied(u, s - 1);
    Assoc([u[s - 2]], [u[s - 1]], Promote(u, s));
  }

  lemma SpreadCopied(u: string, s: nat, before: string)
    requires 1 < s <= |u| && u[s - 1] == '\n' && u[s - 2] == '\n' && Spread(u[0..s - 2], before)
    ensures Spread(u[..s], before + "\n\n")
  {
    SpreadSelf("\n\n");
    SpreadAppend(u[0..s - 2], before, "\n\n", "\n\n");
    assert u[0..s - 2] + "\n\n" == u[..s];
  }

  /** Two newlines in front of a fence stay. */
  lemma MoreNewlines(u: string, s: nat) returns (x: string, y: string)
    requires 1 < s <= |u| && u[s - 1] == '\n' && u[s - 2] == '\n' && FenceEnd(u, s).Some?
    ensures Promote(u, 0) == x + u[s..FenceEnd(u, s).value] + y && Spread(u[..s], x) && EndsBlank(x)
  {
    var e := FenceEnd(u, s).value;
    var before := PromoteReaches(u, 0, s - 2);
    FenceOnOneLine(u, s);
    PromoteKeeps(u, s, e);
    y := Promote(u, e);
    x := before + "\n\n";
    TwoCopied(u, s);
    Regroup(before, "\n\n", u[s..e], y);
    Assoc("\n\n", u[s..e], y);
    SpreadCopied(u, s, before);
  }

  lemma UnglueHead(w: string, e: nat)
    requires e <= |w| && (e == |w| || IsSpace(w[e]))
    ensures var y := Unglue(w, e); y == "" || IsSpace(y[0])
  {
  }

  /** A tagged fence that comes through whole does so behind a blank line, or at
      the very start. */
  lemma WholeFenceIsSpaced(w: string, p: nat) returns (x: string, y: string)
    requires RunStarts(w, p) && FenceEnd(w, p).Some? && StaysWhole(w, p)
    ensures Splits(w, p, w[p..FenceEnd(w, p).value], Normalized(false, w), x, y)
    ensures if p == 0 then x == "" else EndsBlank(x)
  {
    var e := FenceEnd(w, p).value;
    var fence := w[p..e];
    var u := Unglue(w, 0);
    var before, after := UnglueAt(w, p);
    FenceEndIff(w, p, 3, e);
    UnglueHead(w, e);
    FenceMoves(w, p, before, after);
    var s := |before|;
    assert u[s..s + |fence|] == fence && u[..s] == before;
    if p == 0 {
      FenceOnOneLine(u, 0);
      PromoteKeeps(u, 0, |fence|);
      x, y := "", Promote(u, |fence|);
      Nil(fence);
    } else {
      assert u[s - 1] == before[s - 1];
      if s > 1 && u[s - 2] == '\n' {
        x, y := MoreNewlines(u, s);
      } else {
        x, y := OneNewline(u, s);
      }
      SpreadTwice(w[..p], before, x);
    }
  }

  lemma {:induction false} PromoteIdle(w: string, i: nat)
    requires i <= |w| && forall k :: i < k <= |w| ==> FenceEnd(w, k).None?
    ensures Promote(w, i) == From(w, i)
    decreases |w| - i
  {
    if i < |w| {
      PromoteIdle(w, i + 1);
    }
  }

  /** Text without a tagged fence stays as it is. */
  lemma PlainStays(w: string)
    requires forall k :: 0 <= k <= |w| ==> FenceEnd(w, k).None?
    ensures Normalized(false, w) == w
  {
    UnglueKeeps(w, 0, |w|);
    assert w[0..|w|] == w;
    Nil(w);
    PromoteIdle(w, 0);
    FromIsDrop(w, 0);
  }
}
