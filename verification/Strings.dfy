/** String vocabulary shared by the streaming modules.

    White space is Python's notion of it. `strip`, `find`, `split('\n')` and
    `'\n'.join` are functions of positions or of the text's head, so that
    proofs can follow them; `Lower` lowers ASCII letters only.

    The lemmas about sequences say once what slices and concatenations have in
    common, so that other proofs need not take sequences apart. */
module Strings {

  datatype Option<+T> = None | Some(value: T)

  /** `str.isspace` of a single character. */
  predicate IsSpace(c: char) {
    var n := c as int;
    || 0x09 <= n <= 0x0D || 0x1C <= n <= 0x20 || n == 0x85 || n == 0xA0
    || n == 0x1680 || 0x2000 <= n <= 0x200A || n == 0x2028 || n == 0x2029
    || n == 0x202F || n == 0x205F || n == 0x3000
  }

  function TrimLeft(s: string): (r: string)
    ensures |r| <= |s|
  {
    if s != [] && IsSpace(s[0]) then TrimLeft(s[1..]) else s
  }

  function TrimRight(s: string): (r: string)
    ensures |r| <= |s|
  {
    if s != [] && IsSpace(s[|s| - 1]) then TrimRight(s[..|s| - 1]) else s
  }

  /** Python's `s.strip()`. */
  function Strip(s: string): (r: string)
    ensures |r| <= |s|
  {
    TrimRight(TrimLeft(s))
  }

  /** Python's `not s.strip()`. */
  predicate Blank(s: string) {
    forall i :: 0 <= i < |s| ==> IsSpace(s[i])
  }

  lemma {:induction false} TrimLeftSpec(s: string)
    ensures var r := TrimLeft(s);
            r == s[|s| - |r|..] && Blank(s[..|s| - |r|]) && (r == [] || !IsSpace(r[0]))
  {
    if s != [] && IsSpace(s[0]) {
      TrimLeftSpec(s[1..]);
      var n := |s| - |TrimLeft(s)|;
      assert s[..n] == [s[0]] + s[1..][..n - 1];
    }
  }

  lemma {:induction false} TrimRightSpec(s: string)
    ensures var r := TrimRight(s);
            r == s[..|r|] && Blank(s[|r|..]) && (r == [] || !IsSpace(r[|r| - 1]))
  {
    if s != [] && IsSpace(s[|s| - 1]) {
      TrimRightSpec(s[..|s| - 1]);
      var n := |TrimRight(s)|;
      assert s[n..] == s[..|s| - 1][n..] + [s[|s| - 1]];
    }
  }

  lemma BlankAppend(a: string, b: string)
    ensures Blank(a + b) <==> Blank(a) && Blank(b)
  {
    assert forall i :: 0 <= i < |a| ==> (a + b)[i] == a[i];
    assert forall i :: 0 <= i < |b| ==> (a + b)[|a| + i] == b[i];
  }

  /** `strip` cuts blank ends off, and all of a blank string. */
  lemma StripSpec(s: string)
    ensures var r := Strip(s);
            && (r == "" <==> Blank(s))
            && (r != "" ==> !IsSpace(r[0]) && !IsSpace(r[|r| - 1]))
            && exists i, j :: 0 <= i <= j <= |s| && r == s[i..j] && Blank(s[..i]) && Blank(s[j..])
  {
    var l := TrimLeft(s);
    TrimLeftSpec(s);
    TrimRightSpec(l);
    var i := |s| - |l|;
    var j := i + |Strip(s)|;
    assert s[i..j] == l[..|Strip(s)|] && s[j..] == l[|Strip(s)|..];
    assert s == s[..i] + s[i..j] + s[j..];
    BlankAppend(s[..i] + s[i..j], s[j..]);
    BlankAppend(s[..i], s[i..j]);
  }

  lemma {:induction false} TrimLeftIs(pre: string, ink: string)
    requires Blank(pre) && ink != "" && !IsSpace(ink[0])
    ensures TrimLeft(pre + ink) == ink
  {
    if pre == "" {
      Nil(ink);
    } else {
      assert (pre + ink)[1..] == pre[1..] + ink;
      TrimLeftIs(pre[1..], ink);
    }
  }

  lemma {:induction false} TrimRightIs(ink: string, post: string)
    requires Blank(post) && ink != "" && !IsSpace(ink[|ink| - 1])
    ensures TrimRight(ink + post) == ink
  {
    if post == "" {
      Nil(ink);
    } else {
      var n := |post| - 1;
      assert (ink + post)[..|ink + post| - 1] == ink + post[..n];
      assert (ink + post)[|ink + post| - 1] == post[n];
      TrimRightIs(ink, post[..n]);
    }
  }

  /** What is left of a text with blank ends. */
  lemma StripIs(pre: string, ink: string, post: string)
    requires Blank(pre) && Blank(post) && ink != "" && !IsSpace(ink[0]) && !IsSpace(ink[|ink| - 1])
    ensures Strip(pre + ink + post) == ink
  {
    Assoc(pre, ink, post);
    TrimLeftIs(pre, ink + post);
    TrimRightIs(ink, post);
  }

  lemma Assoc<T>(a: seq<T>, b: seq<T>, c: seq<T>)
    ensures a + b + c == a + (b + c)
  {
  }

  lemma Nil<T>(a: seq<T>)
    ensures [] + a == a && a + [] == a
  {
  }

  lemma SameHead<T>(x: T, a: seq<T>, b: seq<T>)
    ensures [x] + a == [x] + b <==> a == b
  {
    assert ([x] + a)[1..] == a && ([x] + b)[1..] == b;
  }

  lemma FromHere<T>(a: seq<T>, i: nat)
    requires i < |a|
    ensures a[i..] == [a[i]] + a[i + 1..]
  {
  }

  /** `a[i..]`, element by element. */
  function From<T>(a: seq<T>, i: nat): (r: seq<T>)
    requires i <= |a|
    ensures |r| == |a| - i
    decreases |a| - i
  {
    if i == |a| then [] else [a[i]] + From(a, i + 1)
  }

  lemma {:induction false} FromIsDrop<T>(a: seq<T>, i: nat)
    requires i <= |a|
    ensures From(a, i) == a[i..]
    decreases |a| - i
  {
    if i < |a| {
      FromIsDrop(a, i + 1);
      FromHere(a, i);
    }
  }

  /** The slice from `i` to `j` begins with element `i`. */
  lemma SliceHead<T>(a: seq<T>, i: nat, j: nat)
    requires i < j <= |a|
    ensures a[i..j] == [a[i]] + a[i + 1..j]
  {
  }

  lemma SliceLast<T>(a: seq<T>, i: nat)
    requires i < |a|
    ensures a[..i + 1] == a[..i] + [a[i]]
  {
  }

  lemma DropOfAppend<T>(a: seq<T>, b: seq<T>, n: nat)
    requires n <= |a|
    ensures (a + b)[n..] == a[n..] + b
  {
  }

  lemma DropTwice<T>(a: seq<T>, m: nat, n: nat)
    requires m + n <= |a|
    ensures a[m..][n..] == a[m + n..]
    ensures a[m..][..n] == a[m..m + n]
  {
  }

  lemma SlicePart<T>(a: seq<T>, b: nat, c: nat, i: nat, j: nat)
    requires b <= c <= |a| && i <= j <= c - b
    ensures a[b..c][i..j] == a[b + i..b + j]
  {
    var part := a[b..c];
    assert forall k :: 0 <= k < j - i ==> part[i..j][k] == a[b + i..b + j][k];
  }

  /** Where the elements of `all` with `p` stand, in order. */
  function Places<T>(all: seq<T>, p: T -> bool): (at: seq<nat>)
    ensures forall i :: 0 <= i < |at| ==> at[i] < |all| && p(all[at[i]])
    ensures forall i, j :: 0 <= i < j < |at| ==> at[i] < at[j]
    ensures forall k: nat :: k < |all| && p(all[k]) ==> k in at
  {
    if all == [] then []
    else
      var n := |all| - 1;
      Places(all[..n], p) + if p(all[n]) then [n] else []
  }

  /** The elements of `all` with `p`, in order. */
  function Chosen<T>(all: seq<T>, p: T -> bool): (some: seq<T>)
    ensures var at := Places(all, p);
            |some| == |at| && forall i :: 0 <= i < |at| ==> some[i] == all[at[i]]
  {
    var at := Places(all, p);
    seq(|at|, i requires 0 <= i < |at| => all[at[i]])
  }

  lemma ChosenSnoc<T>(all: seq<T>, x: T, p: T -> bool)
    ensures Chosen(all + [x], p) == Chosen(all, p) + if p(x) then [x] else []
  {
    assert (all + [x])[..|all|] == all;
  }

  /** `pat` occurs in `s` at position `i`. */
  predicate At(s: string, pat: string, i: nat) {
    i + |pat| <= |s| && forall k :: 0 <= k < |pat| ==> s[i + k] == pat[k]
  }

  lemma AtOne(s: string, c: char, i: nat)
    ensures At(s, [c], i) <==> i < |s| && s[i] == c
  {
    if i < |s| && s[i] == c {
      assert forall k :: 0 <= k < |[c]| ==> s[i + k] == [c][k];
    } else if i < |s| {
      assert s[i + 0] != [c][0];
    }
  }

  /** Python's `s.find(pat, i)`, with `None` for -1. */
  function Find(s: string, pat: string, i: nat): (r: Option<nat>)
    requires i <= |s|
    ensures r.Some? ==> i <= r.value && r.value + |pat| <= |s|
    decreases |s| - i
  {
    if At(s, pat, i) then Some(i)
    else if i == |s| then None
    else Find(s, pat, i + 1)
  }

  /** `Find` is the first occurrence from `i` on, and `None` means there is none. */
  lemma {:induction false} FindSpec(s: string, pat: string, i: nat)
    requires i <= |s|
    ensures match Find(s, pat, i)
            case Some(f) => At(s, pat, f) && forall j: nat :: i <= j < f ==> !At(s, pat, j)
            case None => forall j: nat :: i <= j ==> !At(s, pat, j)
    decreases |s| - i
  {
    if !At(s, pat, i) && i < |s| {
      FindSpec(s, pat, i + 1);
    }
  }

  lemma FindIs(s: string, pat: string, i: nat, f: nat)
    requires i <= f <= |s| && At(s, pat, f) && forall j: nat :: i <= j < f ==> !At(s, pat, j)
    ensures Find(s, pat, i) == Some(f)
  {
    FindSpec(s, pat, i);
  }

  lemma FindNone(s: string, pat: string, i: nat)
    requires i <= |s| && forall j: nat :: i <= j ==> !At(s, pat, j)
    ensures Find(s, pat, i).None?
  {
    FindSpec(s, pat, i);
  }

  /** `lower()` of ASCII letters. */
  function Lower(s: string): (r: string)
    ensures |r| == |s|
  {
    seq(|s|, i requires 0 <= i < |s| =>
      if 'A' <= s[i] <= 'Z' then (s[i] as int + 32) as char else s[i])
  }

  const DIGITS := "0123456789"

  /** Python's `str(n)`. */
  function Decimal(n: nat): (r: string)
    ensures r != "" && forall c :: c in r ==> '0' <= c <= '9'
  {
    if n < 10 then [DIGITS[n]] else Decimal(n / 10) + [DIGITS[n % 10]]
  }

  /** Puts `c` in front of the first line, or in front of all lines if it is a newline. */
  function ConsLine(c: char, lines: seq<string>): (r: seq<string>)
    requires |lines| > 0
    ensures |r| > 0
    ensures (forall l :: l in lines ==> '\n' !in l) ==> forall l :: l in r ==> '\n' !in l
  {
    if c == '\n' then [""] + lines else [[c] + lines[0]] + lines[1..]
  }

  /** Python's `text.split('\n')`. */
  function Lines(text: string): (r: seq<string>)
    ensures |r| > 0
    ensures forall l :: l in r ==> '\n' !in l
  {
    if text == [] then [""]
    else ConsLine(text[0], Lines(text[1..]))
  }

  /** Python's `'\n'.join(lines)`. */
  function Join(lines: seq<string>): string {
    if lines == [] then ""
    else if |lines| == 1 then lines[0]
    else lines[0] + "\n" + Join(lines[1..])
  }

  lemma {:induction false} LinesOfLine(a: string)
    requires '\n' !in a
    ensures Lines(a) == [a]
  {
    if a != [] {
      LinesOfLine(a[1..]);
      assert [a[0]] + a[1..] == a;
    }
  }

  lemma ConsLineAppend(c: char, x: seq<string>, y: seq<string>)
    requires |x| > 0
    ensures ConsLine(c, x + y) == ConsLine(c, x) + y
  {
  }

  lemma {:induction false} LinesAppend(a: string, b: string)
    ensures Lines(a + "\n" + b) == Lines(a) + Lines(b)
  {
    if a == [] {
      assert (a + "\n" + b)[1..] == b;
    } else {
      LinesAppend(a[1..], b);
      assert (a + "\n" + b)[1..] == a[1..] + "\n" + b;
      ConsLineAppend(a[0], Lines(a[1..]), Lines(b));
    }
  }

  lemma {:induction false} LinesOfJoin(lines: seq<string>)
    requires lines != [] && forall l :: l in lines ==> '\n' !in l
    ensures Lines(Join(lines)) == lines
  {
    LinesOfLine(lines[0]);
    if |lines| > 1 {
      LinesAppend(lines[0], Join(lines[1..]));
      LinesOfJoin(lines[1..]);
      assert Join(lines) == lines[0] + "\n" + Join(lines[1..]);
      assert [lines[0]] + lines[1..] == lines;
    }
  }

  /** Python's `' '.join(parts)`. */
  function JoinWith(parts: seq<string>): string {
    if parts == [] then "" else if |parts| == 1 then parts[0] else parts[0] + " " + JoinWith(parts[1..])
  }

  /** `parts` with one blank between every two: these three equations say it all. */
  lemma {:induction false} JoinWithSplits(a: seq<string>, b: seq<string>, x: string)
    ensures JoinWith([]) == "" && JoinWith([x]) == x
    ensures a != [] && b != [] ==> JoinWith(a + b) == JoinWith(a) + " " + JoinWith(b)
  {
    if |a| == 1 && b != [] {
      assert (a + b)[1..] == b;
    } else if a != [] && b != [] {
      assert (a + b)[1..] == a[1..] + b;
      JoinWithSplits(a[1..], b, x);
      Assoc(a[0] + " ", JoinWith(a[1..]), " " + JoinWith(b));
    }
  }
}
