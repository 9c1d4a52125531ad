/** Rendering of the bead tree (`cmd_beads` in app/cli.py).

    Beads name their parents, and parent links may be missing, dangling or
    cyclic: what is printed are the trees below the roots, siblings in the order
    in which they were created. */
module BeadForest {
  import opened Strings

  datatype Bead = Bead(id: string, parent: Option<string>, createdAt: int, content: string, status: string)

  /** One printed bead and its indentation depth. */
  datatype Line = Line(bead: Bead, depth: nat)

  ghost predicate DistinctIds(beads: seq<Bead>) {
    forall i, j :: 0 <= i < j < |beads| ==> beads[i].id != beads[j].id
  }

  predicate HasId(beads: seq<Bead>, id: string) {
    exists b :: b in beads && b.id == id
  }

  /** Beads with a missing, empty or dangling parent are roots. */
  predicate IsRoot(beads: seq<Bead>, b: Bead) {
    !(b.parent.Some? && b.parent.value != "" && HasId(beads, b.parent.value))
  }

  predicate IsChildOf(beads: seq<Bead>, b: Bead, id: string) {
    !IsRoot(beads, b) && b.parent.value == id
  }

  function Roots(all: seq<Bead>, beads: seq<Bead>): (r: seq<Bead>)
    ensures forall b :: b in r <==> b in beads && IsRoot(all, b)
  {
    if beads == [] then []
    else
      var before, last := Roots(all, beads[..|beads| - 1]), beads[|beads| - 1];
      if IsRoot(all, last) then before + [last] else before
  }

  function ChildrenOf(all: seq<Bead>, beads: seq<Bead>, id: string): (r: seq<Bead>)
    ensures forall b :: b in r <==> b in beads && IsChildOf(all, b, id)
  {
    if beads == [] then []
    else
      var before, last := ChildrenOf(all, beads[..|beads| - 1], id), beads[|beads| - 1];
      if IsChildOf(all, last, id) then before + [last] else before
  }

  /** The two tables filled before rendering. */
  method BuildForest(beads: seq<Bead>) returns (childrenOf: map<string, seq<Bead>>, roots: seq<Bead>)
    ensures roots == Roots(beads, beads)
    ensures forall id :: (if id in childrenOf then childrenOf[id] else []) == ChildrenOf(beads, beads, id)
    ensures forall b :: b in roots <==> b in beads && !exists p :: p in beads && p.id != "" && b.parent == Some(p.id)
    ensures forall id, b :: id in childrenOf && b in childrenOf[id] ==> b in beads && b.parent == Some(id)
    ensures forall b, p :: b in beads && p in beads && p.id != "" && b.parent == Some(p.id) ==>
              p.id in childrenOf && b in childrenOf[p.id]
  {
    childrenOf, roots := map[], [];
    for i := 0 to |beads|
      invariant roots == Roots(beads, beads[..i])
      invariant forall id :: (if id in childrenOf then childrenOf[id] else []) == ChildrenOf(beads, beads[..i], id)
    {
      var b := beads[i];
      assert beads[..i + 1][..i] == beads[..i];
      if b.parent.Some? && b.parent.value != "" && HasId(beads, b.parent.value) {
        var p := b.parent.value;
        childrenOf := childrenOf[p := (if p in childrenOf then childrenOf[p] else []) + [b]];
      } else {
        roots := roots + [b];
      }
    }
    assert beads[..|beads|] == beads;
    TablesAre(beads, childrenOf, roots);
  }

  lemma RootIff(beads: seq<Bead>, b: Bead)
    ensures IsRoot(beads, b) <==> !exists p :: p in beads && p.id != "" && b.parent == Some(p.id)
    ensures forall id :: IsChildOf(beads, b, id) <==>
                         b.parent == Some(id) && exists p :: p in beads && p.id != "" && p.id == id
  {
  }

  /** What the two tables hold: beads whose parent is none of the beads, and
      under every id the beads that name it. */
  lemma TablesAre(beads: seq<Bead>, childrenOf: map<string, seq<Bead>>, roots: seq<Bead>)
    requires roots == Roots(beads, beads)
    requires forall id :: (if id in childrenOf then childrenOf[id] else []) == ChildrenOf(beads, beads, id)
    ensures forall b :: b in roots <==> b in beads && !exists p :: p in beads && p.id != "" && b.parent == Some(p.id)
    ensures forall id, b :: id in childrenOf && b in childrenOf[id] ==> b in beads && b.parent == Some(id)
    ensures forall b, p :: b in beads && p in beads && p.id != "" && b.parent == Some(p.id) ==>
              p.id in childrenOf && b in childrenOf[p.id]
  {
    forall b
      ensures b in roots <==> b in beads && !exists p :: p in beads && p.id != "" && b.parent == Some(p.id)
    {
      RootIff(beads, b);
    }
    forall id, b | id in childrenOf && b in childrenOf[id]
      ensures b in beads && b.parent == Some(id)
    {
      assert b in ChildrenOf(beads, beads, id);
    }
    forall b, p | b in beads && p in beads && p.id != "" && b.parent == Some(p.id)
      ensures p.id in childrenOf && b in childrenOf[p.id]
    {
      assert IsChildOf(beads, b, p.id);
      assert b in ChildrenOf(beads, beads, p.id);
    }
  }

  /** Python's stable `sorted(..., key=created_at)`. */
  function Sorted(beads: seq<Bead>): seq<Bead> {
    if beads == [] then [] else Insert(Sorted(beads[..|beads| - 1]), beads[|beads| - 1])
  }

  function Insert(sorted: seq<Bead>, b: Bead): seq<Bead> {
    if sorted != [] && sorted[|sorted| - 1].createdAt > b.createdAt then
      Insert(sorted[..|sorted| - 1], b) + [sorted[|sorted| - 1]]
    else sorted + [b]
  }

  predicate InOrder(beads: seq<Bead>) {
    forall i, j :: 0 <= i < j < |beads| ==> beads[i].createdAt <= beads[j].createdAt
  }

  lemma {:induction false} InsertPermutes(sorted: seq<Bead>, b: Bead)
    ensures multiset(Insert(sorted, b)) == multiset(sorted) + multiset{b}
  {
    if sorted != [] && sorted[|sorted| - 1].createdAt > b.createdAt {
      InsertPermutes(sorted[..|sorted| - 1], b);
      assert sorted == sorted[..|sorted| - 1] + [sorted[|sorted| - 1]];
    }
  }

  lemma {:induction false} InsertOrders(sorted: seq<Bead>, b: Bead)
    requires InOrder(sorted)
    ensures InOrder(Insert(sorted, b))
  {
    if sorted != [] && sorted[|sorted| - 1].createdAt > b.createdAt {
      var front, last := sorted[..|sorted| - 1], sorted[|sorted| - 1];
      InsertOrders(front, b);
      InsertedFrom(front, b);
      assert forall x :: x in front ==> x.createdAt <= last.createdAt;
      assert forall i :: 0 <= i < |Insert(front, b)| ==> Insert(front, b)[i] in Insert(front, b);
    }
  }

  lemma {:induction false} InsertedFrom(sorted: seq<Bead>, b: Bead)
    ensures forall x :: x in Insert(sorted, b) ==> x == b || x in sorted
  {
    if sorted != [] {
      InsertedFrom(sorted[..|sorted| - 1], b);
    }
  }

  lemma {:induction false} SortedKeeps(beads: seq<Bead>)
    ensures multiset(Sorted(beads)) == multiset(beads)
    ensures InOrder(Sorted(beads))
  {
    if beads != [] {
      SortedKeeps(beads[..|beads| - 1]);
      InsertPermutes(Sorted(beads[..|beads| - 1]), beads[|beads| - 1]);
      InsertOrders(Sorted(beads[..|beads| - 1]), beads[|beads| - 1]);
      assert beads == beads[..|beads| - 1] + [beads[|beads| - 1]];
    }
  }

  function CreatedAt(t: int): Bead -> bool {
    (b: Bead) => b.createdAt == t
  }

  lemma {:induction false} InsertIsStable(sorted: seq<Bead>, b: Bead, t: int)
    ensures Chosen(Insert(sorted, b), CreatedAt(t)) ==
            Chosen(sorted, CreatedAt(t)) + if b.createdAt == t then [b] else []
  {
    var p := CreatedAt(t);
    ChosenSnoc(sorted, b, p);
    if sorted != [] && sorted[|sorted| - 1].createdAt > b.createdAt {
      var front, last := sorted[..|sorted| - 1], sorted[|sorted| - 1];
      assert front + [last] == sorted;
      InsertIsStable(front, b, t);
      ChosenSnoc(front, last, p);
      ChosenSnoc(Insert(front, b), last, p);
      NotBoth(Chosen(front, p), if b.createdAt == t then [b] else [], if last.createdAt == t then [last] else []);
    }
  }

  lemma NotBoth(a: seq<Bead>, b: seq<Bead>, c: seq<Bead>)
    requires b == [] || c == []
    ensures a + b + c == a + c + b
  {
  }

  /** Beads created at the same time keep their order. */
  lemma {:induction false} SortedIsStable(beads: seq<Bead>, t: int)
    ensures Chosen(Sorted(beads), CreatedAt(t)) == Chosen(beads, CreatedAt(t))
  {
    if beads != [] {
      var front, last := beads[..|beads| - 1], beads[|beads| - 1];
      assert front + [last] == beads;
      SortedIsStable(front, t);
      InsertIsStable(Sorted(front), last, t);
      ChosenSnoc(front, last, CreatedAt(t));
    }
  }

  // ---- paths from roots -------------------------------------------------------

  /** `path` leads from a root down parent links, within `beads`. */
  ghost predicate IsPath(beads: seq<Bead>, path: seq<Bead>) {
    && path != []
    && (forall i :: 0 <= i < |path| ==> path[i] in beads)
    && IsRoot(beads, path[0])
    && forall i :: 0 < i < |path| ==> IsChildOf(beads, path[i], path[i - 1].id)
  }

  lemma SameId(beads: seq<Bead>, a: Bead, b: Bead)
    requires DistinctIds(beads) && a in beads && b in beads && a.id == b.id
    ensures a == b
  {
    var i :| 0 <= i < |beads| && beads[i] == a;
    var j :| 0 <= j < |beads| && beads[j] == b;
    assert i == j;
  }

  /** Two paths to the same bead are the same. */
  lemma {:induction false} PathUnique(beads: seq<Bead>, p: seq<Bead>, q: seq<Bead>)
    requires DistinctIds(beads) && IsPath(beads, p) && IsPath(beads, q) && p[|p| - 1] == q[|q| - 1]
    ensures p == q
    decreases |p|
  {
    var m, n := |p| - 1, |q| - 1;
    if m > 0 && n > 0 {
      assert IsChildOf(beads, p[m], p[m - 1].id) && IsChildOf(beads, q[n], q[n - 1].id);
      SameId(beads, p[m - 1], q[n - 1]);
      PathUnique(beads, p[..m], q[..n]);
      assert p == p[..m] + [p[m]] && q == q[..n] + [q[n]];
    } else {
      assert m > 0 ==> IsChildOf(beads, p[m], p[m - 1].id);
      assert n > 0 ==> IsChildOf(beads, q[n], q[n - 1].id);
    }
  }

  /** No bead occurs twice on a path, so paths are no longer than there are beads. */
  lemma PathIsShort(beads: seq<Bead>, path: seq<Bead>)
    requires DistinctIds(beads) && IsPath(beads, path)
    ensures |path| <= |beads|
  {
    forall i, j | 0 <= i < j < |path|
      ensures path[i] != path[j]
    {
      if path[i] == path[j] {
        PathUnique(beads, path[..i + 1], path[..j + 1]);
      }
    }
    DistinctIsShort(path, beads);
  }

  lemma {:induction false} DistinctIsShort(xs: seq<Bead>, ys: seq<Bead>)
    requires forall i, j :: 0 <= i < j < |xs| ==> xs[i] != xs[j]
    requires forall x :: x in xs ==> x in ys
    ensures |xs| <= |ys|
  {
    if xs != [] {
      var last := xs[|xs| - 1];
      assert last in xs;
      var k :| 0 <= k < |ys| && ys[k] == last;
      var rest := ys[..k] + ys[k + 1..];
      forall x | x in xs[..|xs| - 1]
        ensures x in rest
      {
        assert x in xs;
        var j :| 0 <= j < |ys| && ys[j] == x;
        assert j != k;
        assert if j < k then rest[j] == x else rest[j - 1] == x;
      }
      DistinctIsShort(xs[..|xs| - 1], rest);
    }
  }

  lemma ChildExtendsPath(beads: seq<Bead>, path: seq<Bead>, child: Bead)
    requires IsPath(beads, path) && child in beads && IsChildOf(beads, child, path[|path| - 1].id)
    ensures IsPath(beads, path + [child])
  {
  }

  // ---- rendering -----------------------------------------------------------------

  /** The recursive `render`. `path` is the way from a root to the bead; it only
      serves to show that the recursion ends. */
  function Render(beads: seq<Bead>, bead: Bead, depth: nat, ghost path: seq<Bead>): seq<Line>
    requires DistinctIds(beads) && IsPath(beads, path) && path[|path| - 1] == bead && |path| == depth + 1
    decreases |beads| - |path|, 1, 0
  {
    var children := Sorted(ChildrenOf(beads, beads, bead.id));
    SortedKeeps(ChildrenOf(beads, beads, bead.id));
    assert forall c :: c in children ==> c in multiset(children);
    [Line(bead, depth)] + RenderAll(beads, children, depth, path)
  }

  function RenderAll(beads: seq<Bead>, children: seq<Bead>, depth: nat, ghost path: seq<Bead>): seq<Line>
    requires DistinctIds(beads) && IsPath(beads, path) && |path| == depth + 1
    requires forall c :: c in children ==> c in beads && IsChildOf(beads, c, path[|path| - 1].id)
    decreases |beads| - |path|, 0, |children|
  {
    if children == [] then []
    else
      ChildExtendsPath(beads, path, children[0]);
      PathIsShort(beads, path + [children[0]]);
      Render(beads, children[0], depth + 1, path + [children[0]]) + RenderAll(beads, children[1..], depth, path)
  }

  function RenderRoots(beads: seq<Bead>, roots: seq<Bead>): seq<Line>
    requires DistinctIds(beads) && forall r :: r in roots ==> r in beads && IsRoot(beads, r)
  {
    if roots == [] then []
    else Render(beads, roots[0], 0, [roots[0]]) + RenderRoots(beads, roots[1..])
  }

  /** What `/beads` prints below its heading. */
  function Printed(beads: seq<Bead>): seq<Line>
    requires DistinctIds(beads)
  {
    var roots := Sorted(Roots(beads, beads));
    SortedKeeps(Roots(beads, beads));
    assert forall r :: r in roots ==> r in multiset(roots);
    RenderRoots(beads, roots)
  }

  function Count(lines: seq<Line>, b: Bead): nat {
    if lines == [] then 0 else (if lines[0].bead == b then 1 else 0) + Count(lines[1..], b)
  }

  lemma {:induction false} CountAppend(x: seq<Line>, y: seq<Line>, b: Bead)
    ensures Count(x + y, b) == Count(x, b) + Count(y, b)
  {
    if x == [] {
      assert x + y == y;
    } else {
      assert (x + y)[1..] == x[1..] + y;
      CountAppend(x[1..], y, b);
    }
  }

  /** The parent chain of `b` reaches a root. */
  ghost predicate ReachesRoot(beads: seq<Bead>, b: Bead) {
    exists path :: IsPath(beads, path) && path[|path| - 1] == b
  }

  /** The one path to a bead whose chain reaches a root, else nothing. */
  ghost function PathTo(beads: seq<Bead>, b: Bead): (path: seq<Bead>)
    ensures path != [] <==> ReachesRoot(beads, b)
    ensures path != [] ==> IsPath(beads, path) && path[|path| - 1] == b
  {
    if ReachesRoot(beads, b) then
      var path :| IsPath(beads, path) && path[|path| - 1] == b;
      path
    else []
  }

  /** How often rendering below `path` prints `b`: once if its path goes through there. */
  ghost function Through(beads: seq<Bead>, path: seq<Bead>, b: Bead): nat {
    if path <= PathTo(beads, b) then 1 else 0
  }

  /** ... and through one of these children of its end. */
  ghost function ThroughChildren(beads: seq<Bead>, path: seq<Bead>, children: seq<Bead>, b: Bead): nat {
    var q := PathTo(beads, b);
    if path < q && q[|path|] in children then 1 else 0
  }

  predicate NoRepeats(xs: seq<Bead>) {
    forall i, j :: 0 <= i < j < |xs| ==> xs[i] != xs[j]
  }

  lemma {:induction false} RenderCounts(beads: seq<Bead>, bead: Bead, depth: nat, path: seq<Bead>, b: Bead)
    requires DistinctIds(beads) && IsPath(beads, path) && path[|path| - 1] == bead && |path| == depth + 1
    ensures Count(Render(beads, bead, depth, path), b) == Through(beads, path, b)
    decreases |beads| - |path|, 1, 0
  {
    var children := Sorted(ChildrenOf(beads, beads, bead.id));
    SortedChildren(beads, bead.id);
    RenderAllCounts(beads, children, depth, path, b);
    assert Count(Render(beads, bead, depth, path), b) ==
           (if bead == b then 1 else 0) + ThroughChildren(beads, path, children, b) by {
      var lines := RenderAll(beads, children, depth, path);
      CountAppend([Line(bead, depth)], lines, b);
      assert Count([Line(bead, depth)], b) == if bead == b then 1 else 0;
    }
    ThroughSelf(beads, path, b);
  }

  /** A path that goes on behind `path` does so through a child. */
  lemma GoesOn(beads: seq<Bead>, path: seq<Bead>, q: seq<Bead>)
    requires path != [] && IsPath(beads, q) && path < q
    ensures q[|path|] in beads && IsChildOf(beads, q[|path|], path[|path| - 1].id)
  {
    assert q[|path| - 1] == path[|path| - 1];
    assert IsChildOf(beads, q[|path|], q[|path| - 1].id);
  }

  lemma PathToIs(beads: seq<Bead>, b: Bead)
    ensures var q := PathTo(beads, b); q == [] || (IsPath(beads, q) && q[|q| - 1] == b)
  {
  }

  /** A path through `path` ends there or goes on through a child. */
  lemma ThroughSelf(beads: seq<Bead>, path: seq<Bead>, b: Bead)
    requires DistinctIds(beads) && IsPath(beads, path)
    ensures var last := path[|path| - 1]; var children := Sorted(ChildrenOf(beads, beads, last.id));
            Through(beads, path, b) == (if last == b then 1 else 0) + ThroughChildren(beads, path, children, b)
  {
    var last := path[|path| - 1];
    var q := PathTo(beads, b);
    PathToIs(beads, b);
    if last == b {
      PathUnique(beads, path, q);
    } else if path < q {
      GoesOn(beads, path, q);
      SortedChildren(beads, last.id);
    }
  }

  lemma SortedChildren(beads: seq<Bead>, id: string)
    requires DistinctIds(beads)
    ensures var children := Sorted(ChildrenOf(beads, beads, id));
            && NoRepeats(children)
            && forall c :: c in children <==> c in beads && IsChildOf(beads, c, id)
  {
    var kids := ChildrenOf(beads, beads, id);
    SortedKeeps(kids);
    ChildrenDistinct(beads, beads, id);
    PermutedDistinct(kids, Sorted(kids));
    assert forall c :: c in Sorted(kids) <==> c in multiset(Sorted(kids));
  }

  lemma {:induction false} RenderAllCounts(beads: seq<Bead>, children: seq<Bead>, depth: nat, path: seq<Bead>, b: Bead)
    requires DistinctIds(beads) && IsPath(beads, path) && |path| == depth + 1 && NoRepeats(children)
    requires forall c :: c in children ==> c in beads && IsChildOf(beads, c, path[|path| - 1].id)
    ensures Count(RenderAll(beads, children, depth, path), b) == ThroughChildren(beads, path, children, b)
    decreases |beads| - |path|, 0, |children|
  {
    if children != [] {
      var c, rest := children[0], children[1..];
      ChildExtendsPath(beads, path, c);
      PathIsShort(beads, path + [c]);
      RenderCounts(beads, c, depth + 1, path + [c], b);
      RenderAllCounts(beads, rest, depth, path, b);
      CountAppend(Render(beads, c, depth + 1, path + [c]), RenderAll(beads, rest, depth, path), b);
      ThroughSplits(beads, path, children, b);
    }
  }

  lemma ThroughSplits(beads: seq<Bead>, path: seq<Bead>, children: seq<Bead>, b: Bead)
    requires children != [] && NoRepeats(children)
    ensures ThroughChildren(beads, path, children, b) ==
            Through(beads, path + [children[0]], b) + ThroughChildren(beads, path, children[1..], b)
  {
    var q, c := PathTo(beads, b), children[0];
    assert path + [c] <= q <==> path < q && q[|path|] == c;
    assert forall x :: x in children <==> x == c || x in children[1..];
  }

  lemma {:induction false} ChildrenDistinct(all: seq<Bead>, beads: seq<Bead>, id: string)
    requires DistinctIds(beads)
    ensures NoRepeats(ChildrenOf(all, beads, id)) && NoRepeats(Roots(all, beads))
  {
    if beads != [] {
      ChildrenDistinct(all, beads[..|beads| - 1], id);
      assert beads[|beads| - 1] !in beads[..|beads| - 1];
    }
  }

  lemma PermutedDistinct(xs: seq<Bead>, ys: seq<Bead>)
    requires NoRepeats(xs) && multiset(xs) == multiset(ys)
    ensures NoRepeats(ys)
  {
    forall i, j | 0 <= i < j < |ys|
      ensures ys[i] != ys[j]
    {
      OnceInMultiset(xs, ys[i]);
      assert ys == ys[..i] + [ys[i]] + ys[i + 1..j] + [ys[j]] + ys[j + 1..];
    }
  }

  lemma {:induction false} OnceInMultiset(xs: seq<Bead>, x: Bead)
    requires NoRepeats(xs)
    ensures multiset(xs)[x] <= 1
  {
    if xs != [] {
      OnceInMultiset(xs[..|xs| - 1], x);
      assert xs == xs[..|xs| - 1] + [xs[|xs| - 1]];
    }
  }

  lemma {:induction false} RootsCount(beads: seq<Bead>, roots: seq<Bead>, b: Bead)
    requires DistinctIds(beads) && NoRepeats(roots) && forall r :: r in roots ==> r in beads && IsRoot(beads, r)
    ensures var q := PathTo(beads, b);
            Count(RenderRoots(beads, roots), b) == if q != [] && q[0] in roots then 1 else 0
  {
    if roots != [] {
      var r, rest := roots[0], roots[1..];
      RootsCount(beads, rest, b);
      RenderCounts(beads, r, 0, [r], b);
      CountAppend(Render(beads, r, 0, [r]), RenderRoots(beads, rest), b);
      assert r !in rest;
      assert forall x :: x in roots <==> x == r || x in rest;
    }
  }

  /** Every bead whose parent chain reaches a root is printed exactly once, any
      other bead never. */
  lemma PrintedOnceIff(beads: seq<Bead>, b: Bead)
    requires DistinctIds(beads)
    ensures Count(Printed(beads), b) == if ReachesRoot(beads, b) then 1 else 0
  {
    var roots := Sorted(Roots(beads, beads));
    SortedKeeps(Roots(beads, beads));
    assert forall r :: r in roots <==> r in multiset(roots);
    ChildrenDistinct(beads, beads, "");
    PermutedDistinct(Roots(beads, beads), roots);
    RootsCount(beads, roots, b);
    var q := PathTo(beads, b);
    assert q != [] ==> q[0] in Roots(beads, beads);
    assert forall r :: r in Roots(beads, beads) ==> r in multiset(roots);
  }

  /** Each line is indented by the length of the bead's chain of ancestors,
      which is less than the number of beads. */
  ghost predicate RightDepth(beads: seq<Bead>, l: Line) {
    ReachesRoot(beads, l.bead) && |PathTo(beads, l.bead)| == l.depth + 1 <= |beads|
  }

  lemma {:induction false} RenderDepths(beads: seq<Bead>, bead: Bead, depth: nat, path: seq<Bead>)
    requires DistinctIds(beads) && IsPath(beads, path) && path[|path| - 1] == bead && |path| == depth + 1
    ensures forall l :: l in Render(beads, bead, depth, path) ==> RightDepth(beads, l)
    decreases |beads| - |path|, 1, 0
  {
    SortedChildren(beads, bead.id);
    RenderAllDepths(beads, Sorted(ChildrenOf(beads, beads, bead.id)), depth, path);
    PathUnique(beads, path, PathTo(beads, bead));
    PathIsShort(beads, path);
  }

  lemma {:induction false} RenderAllDepths(beads: seq<Bead>, children: seq<Bead>, depth: nat, path: seq<Bead>)
    requires DistinctIds(beads) && IsPath(beads, path) && |path| == depth + 1
    requires forall c :: c in children ==> c in beads && IsChildOf(beads, c, path[|path| - 1].id)
    ensures forall l :: l in RenderAll(beads, children, depth, path) ==> RightDepth(beads, l)
    decreases |beads| - |path|, 0, |children|
  {
    if children != [] {
      ChildExtendsPath(beads, path, children[0]);
      PathIsShort(beads, path + [children[0]]);
      RenderDepths(beads, children[0], depth + 1, path + [children[0]]);
      RenderAllDepths(beads, children[1..], depth, path);
    }
  }

  lemma {:induction false} RootsDepths(beads: seq<Bead>, roots: seq<Bead>)
    requires DistinctIds(beads) && forall r :: r in roots ==> r in beads && IsRoot(beads, r)
    ensures forall l :: l in RenderRoots(beads, roots) ==> RightDepth(beads, l)
  {
    if roots != [] {
      RenderDepths(beads, roots[0], 0, [roots[0]]);
      RootsDepths(beads, roots[1..]);
    }
  }

  lemma PrintedDepths(beads: seq<Bead>)
    requires DistinctIds(beads)
    ensures forall l :: l in Printed(beads) ==>
              ReachesRoot(beads, l.bead) && |PathTo(beads, l.bead)| == l.depth + 1 && l.depth < |beads|
  {
    var roots := Sorted(Roots(beads, beads));
    SortedKeeps(Roots(beads, beads));
    assert forall r :: r in roots ==> r in multiset(roots);
    RootsDepths(beads, roots);
  }

  // ---- cycles --------------------------------------------------------------------

  /** Each bead is the parent of the one before it. */
  ghost predicate UpChain(beads: seq<Bead>, c: seq<Bead>) {
    && c != []
    && (forall i :: 0 <= i < |c| ==> c[i] in beads)
    && forall i :: 0 < i < |c| ==> IsChildOf(beads, c[i - 1], c[i].id)
  }

  /** Going up from `b` one visits more beads than there are, so one goes round in a cycle. */
  ghost predicate EndsInCycle(beads: seq<Bead>, b: Bead) {
    exists c :: UpChain(beads, c) && c[0] == b && |c| > |beads|
  }

  lemma {:induction false} PathCoversChain(beads: seq<Bead>, path: seq<Bead>, c: seq<Bead>)
    requires DistinctIds(beads) && IsPath(beads, path) && UpChain(beads, c) && path[|path| - 1] == c[0]
    ensures |c| <= |path|
    decreases |c|
  {
    if |c| > 1 {
      assert IsChildOf(beads, c[1 - 1], c[1].id);
      var n := |path| - 1;
      assert n > 0;
      assert IsChildOf(beads, path[n], path[n - 1].id);
      SameId(beads, path[n - 1], c[1]);
      var rest := c[1..];
      assert forall i :: 0 <= i < |rest| ==> rest[i] == c[i + 1];
      PathCoversChain(beads, path[..n], rest);
    }
  }

  /** From any bead one either reaches a root or can go up `n` steps. */
  lemma {:induction false} ClimbOrReach(beads: seq<Bead>, b: Bead, n: nat) returns (c: seq<Bead>)
    requires DistinctIds(beads) && b in beads && !ReachesRoot(beads, b)
    ensures UpChain(beads, c) && c[0] == b && |c| == n + 1
  {
    if n == 0 {
      c := [b];
    } else {
      var d := ClimbOrReach(beads, b, n - 1);
      c := OneUp(beads, d);
    }
  }

  lemma OneUp(beads: seq<Bead>, d: seq<Bead>) returns (c: seq<Bead>)
    requires UpChain(beads, d) && !ReachesRoot(beads, d[0])
    ensures UpChain(beads, c) && c[0] == d[0] && |c| == |d| + 1
  {
    var top := d[|d| - 1];
    RootAbove(beads, d);
    var p :| p in beads && p.id == top.parent.value;
    c := d + [p];
  }

  lemma RootAbove(beads: seq<Bead>, d: seq<Bead>)
    requires UpChain(beads, d)
    ensures IsRoot(beads, d[|d| - 1]) ==> ReachesRoot(beads, d[0])
  {
    if IsRoot(beads, d[|d| - 1]) {
      ReversedIsPath(beads, d);
      assert Reversed(d)[|d| - 1] == d[0];
    }
  }

  function Reversed(c: seq<Bead>): (r: seq<Bead>)
    ensures |r| == |c| && forall i :: 0 <= i < |r| ==> r[i] == c[|c| - 1 - i]
  {
    seq(|c|, i requires 0 <= i < |c| => c[|c| - 1 - i])
  }

  lemma ReversedIsPath(beads: seq<Bead>, c: seq<Bead>)
    requires UpChain(beads, c) && IsRoot(beads, c[|c| - 1])
    ensures IsPath(beads, Reversed(c))
  {
    var r := Reversed(c);
    forall i | 0 < i < |r|
      ensures IsChildOf(beads, r[i], r[i - 1].id)
    {
      var j := |c| - i;
      assert IsChildOf(beads, c[j - 1], c[j].id);
    }
  }

  /** The beads not printed are exactly those whose parent chain ends in a cycle. */
  lemma ReachesRootIff(beads: seq<Bead>, b: Bead)
    requires DistinctIds(beads) && b in beads
    ensures ReachesRoot(beads, b) <==> !EndsInCycle(beads, b)
  {
    if ReachesRoot(beads, b) {
      var path := PathTo(beads, b);
      PathIsShort(beads, path);
      forall c | UpChain(beads, c) && c[0] == b
        ensures |c| <= |beads|
      {
        PathCoversChain(beads, path, c);
      }
    } else {
      var c := ClimbOrReach(beads, b, |beads|);
    }
  }

  // ---- the order of the lines ------------------------------------------------------

  /** The ancestors of the line just read, itself last, as a reader of the
      indentation would track them. */
  function Ancestors(above: seq<Bead>, l: Line): seq<Bead>
    requires l.depth <= |above|
  {
    above[..l.depth] + [l.bead]
  }

  /** Reading `lines` below `above`: every line is indented at most one step
      further than the one before, its parent is the nearest line above with one
      step less, and it is not older than the sibling printed before it. */
  ghost predicate Nested(beads: seq<Bead>, lines: seq<Line>, above: seq<Bead>)
    decreases |lines|
  {
    lines == [] ||
    var l := lines[0];
    && l.depth <= |above|
    && (if l.depth == 0 then IsRoot(beads, l.bead) else IsChildOf(beads, l.bead, above[l.depth - 1].id))
    && (l.depth < |above| ==> above[l.depth].createdAt <= l.bead.createdAt)
    && Nested(beads, lines[1..], Ancestors(above, l))
  }

  function AncestorsAfter(lines: seq<Line>, above: seq<Bead>): seq<Bead>
    decreases |lines|
  {
    if lines == [] || lines[0].depth > |above| then above
    else AncestorsAfter(lines[1..], Ancestors(above, lines[0]))
  }

  lemma {:induction false} NestedAppend(beads: seq<Bead>, x: seq<Line>, y: seq<Line>, above: seq<Bead>)
    requires Nested(beads, x, above) && Nested(beads, y, AncestorsAfter(x, above))
    ensures Nested(beads, x + y, above)
    ensures AncestorsAfter(x + y, above) == AncestorsAfter(y, AncestorsAfter(x, above))
    decreases |x|
  {
    if x == [] {
      assert x + y == y;
    } else {
      assert (x + y)[0] == x[0] && (x + y)[1..] == x[1..] + y;
      NestedAppend(beads, x[1..], y, Ancestors(above, x[0]));
    }
  }

  /** `above` ends a line that is printed under `path`. */
  predicate Under(above: seq<Bead>, path: seq<Bead>) {
    path <= above
  }

  lemma {:induction false} RenderNests(beads: seq<Bead>, bead: Bead, depth: nat, path: seq<Bead>, above: seq<Bead>)
    requires DistinctIds(beads) && IsPath(beads, path) && path[|path| - 1] == bead && |path| == depth + 1
    requires Under(above, path[..depth]) && (depth < |above| ==> above[depth].createdAt <= bead.createdAt)
    ensures Nested(beads, Render(beads, bead, depth, path), above)
    ensures Under(AncestorsAfter(Render(beads, bead, depth, path), above), path)
    decreases |beads| - |path|, 1, 0
  {
    var children := Sorted(ChildrenOf(beads, beads, bead.id));
    SortedChildren(beads, bead.id);
    SortedKeeps(ChildrenOf(beads, beads, bead.id));
    var line := [Line(bead, depth)];
    var rest := RenderAll(beads, children, depth, path);
    assert Ancestors(above, line[0]) == path;
    OneLineNests(beads, bead, depth, path, above);
    RenderAllNests(beads, children, depth, path, path);
    NestedAppend(beads, line, rest, above);
  }

  lemma OneLineNests(beads: seq<Bead>, bead: Bead, depth: nat, path: seq<Bead>, above: seq<Bead>)
    requires IsPath(beads, path) && path[|path| - 1] == bead && |path| == depth + 1
    requires Under(above, path[..depth]) && (depth < |above| ==> above[depth].createdAt <= bead.createdAt)
    ensures Nested(beads, [Line(bead, depth)], above)
    ensures AncestorsAfter([Line(bead, depth)], above) == path
  {
    var line := Line(bead, depth);
    assert [line][1..] == [];
    assert above[..depth] == path[..depth];
    assert Ancestors(above, line) == path;
    assert depth > 0 ==> above[depth - 1] == path[depth - 1];
  }

  lemma {:induction false} RenderAllNests(
    beads: seq<Bead>, children: seq<Bead>, depth: nat, path: seq<Bead>, above: seq<Bead>)
    requires DistinctIds(beads) && IsPath(beads, path) && |path| == depth + 1
    requires forall c :: c in children ==> c in beads && IsChildOf(beads, c, path[|path| - 1].id)
    requires InOrder(children) && Under(above, path)
    requires children != [] && depth + 1 < |above| ==> above[depth + 1].createdAt <= children[0].createdAt
    ensures Nested(beads, RenderAll(beads, children, depth, path), above)
    ensures Under(AncestorsAfter(RenderAll(beads, children, depth, path), above), path)
    decreases |beads| - |path|, 0, |children|
  {
    if children != [] {
      var c := children[0];
      ChildExtendsPath(beads, path, c);
      PathIsShort(beads, path + [c]);
      assert (path + [c])[..depth + 1] == path;
      RenderNests(beads, c, depth + 1, path + [c], above);
      var first := Render(beads, c, depth + 1, path + [c]);
      var after := AncestorsAfter(first, above);
      assert Under(after, path) && after[depth + 1] == c;
      assert |children| > 1 ==> children[1..][0] == children[1];
      RenderAllNests(beads, children[1..], depth, path, after);
      NestedAppend(beads, first, RenderAll(beads, children[1..], depth, path), above);
    }
  }

  lemma {:induction false} RootsNest(beads: seq<Bead>, roots: seq<Bead>, above: seq<Bead>)
    requires DistinctIds(beads) && forall r :: r in roots ==> r in beads && IsRoot(beads, r)
    requires InOrder(roots) && (roots != [] && above != [] ==> above[0].createdAt <= roots[0].createdAt)
    ensures Nested(beads, RenderRoots(beads, roots), above)
  {
    if roots != [] {
      var r := roots[0];
      RenderNests(beads, r, 0, [r], above);
      var first := Render(beads, r, 0, [r]);
      var after := AncestorsAfter(first, above);
      assert after[0] == r;
      assert |roots| > 1 ==> roots[1..][0] == roots[1];
      RootsNest(beads, roots[1..], after);
      NestedAppend(beads, first, RenderRoots(beads, roots[1..]), above);
    }
  }

  /** The printed indentation is the tree: parents stand above their children,
      nearest with one step less, and siblings come in order of creation. */
  lemma PrintedNests(beads: seq<Bead>)
    requires DistinctIds(beads)
    ensures Nested(beads, Printed(beads), [])
  {
    var roots := Sorted(Roots(beads, beads));
    SortedKeeps(Roots(beads, beads));
    assert forall r :: r in roots ==> r in multiset(roots);
    RootsNest(beads, roots, []);
  }
}
