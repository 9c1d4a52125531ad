/** Splicing task-card results into the chat history (`_inject_task_results`
    in app/server.py). */
module TaskSplice {
  import opened Strings

  /** A message of the history: its persisted id and its timestamp, if known. */
  datatype Entry = Original(text: string, timestamp: Option<int>) | Synthetic(text: string)

  /** A binding whose run exists, with the note made from it. */
  datatype Binding = Binding(anchor: Option<string>, createdAt: int, note: string)

  datatype Insertion = Insertion(index: nat, entry: Entry)

  // ---- where a note goes ----------------------------------------------------

  /** Later ids win, as in the map built by the source. */
  function IndexOfId(ids: seq<Option<string>>, id: string): (r: Option<nat>)
    ensures r.Some? ==> r.value < |ids| && ids[r.value] == Some(id)
    ensures r.Some? ==> forall j :: r.value < j < |ids| ==> ids[j] != Some(id)
    ensures r.None? ==> Some(id) !in ids
  {
    if ids == [] then None
    else if ids[|ids| - 1] == Some(id) then Some(|ids| - 1)
    else IndexOfId(ids[..|ids| - 1], id)
  }

  /** Just behind the last message not younger than `at`; at the front if all are. */
  function IndexByTime(history: seq<Entry>, at: int): (k: nat)
    ensures k <= |history|
    ensures k > 0 ==> history[k - 1].Original? && history[k - 1].timestamp.Some? && history[k - 1].timestamp.value <= at
    ensures forall j :: k <= j < |history| && history[j].Original? && history[j].timestamp.Some? ==>
              history[j].timestamp.value > at
  {
    if history == [] then 0
    else
      var last := history[|history| - 1];
      if last.Original? && last.timestamp.Some? && last.timestamp.value <= at then |history|
      else IndexByTime(history[..|history| - 1], at)
  }

  /** `ids` are the persisted ids, usable only if they line up with the history. */
  function IndexFor(history: seq<Entry>, ids: seq<Option<string>>, b: Binding): (k: nat)
    ensures k <= |history|
  {
    if |ids| == |history| && b.anchor.Some? && b.anchor.value != "" && IndexOfId(ids, b.anchor.value).Some? then
      IndexOfId(ids, b.anchor.value).value + 1
    else IndexByTime(history, b.createdAt)
  }

  function InsertionsFor(history: seq<Entry>, ids: seq<Option<string>>, bindings: seq<Binding>): (r: seq<Insertion>)
    ensures |r| == |bindings|
    ensures forall i :: 0 <= i < |r| ==>
              r[i] == Insertion(IndexFor(history, ids, bindings[i]), Synthetic(bindings[i].note))
  {
    seq(|bindings|, i requires 0 <= i < |bindings| =>
      Insertion(IndexFor(history, ids, bindings[i]), Synthetic(bindings[i].note)))
  }

  // ---- the simultaneous insertion ---------------------------------------------

  /** The entries to go to index `k`, the latest binding first. */
  function Bucket(ins: seq<Insertion>, k: nat): seq<Entry> {
    if ins == [] then []
    else if ins[|ins| - 1].index == k then [ins[|ins| - 1].entry] + Bucket(ins[..|ins| - 1], k)
    else Bucket(ins[..|ins| - 1], k)
  }

  /** Notes of later bindings come before those of earlier ones. */
  lemma {:induction false} BucketReverses(a: seq<Insertion>, b: seq<Insertion>, k: nat)
    ensures Bucket(a + b, k) == Bucket(b, k) + Bucket(a, k)
    decreases |b|
  {
    if b == [] {
      assert a + b == a;
    } else {
      assert (a + b)[..|a + b| - 1] == a + b[..|b| - 1];
      BucketReverses(a, b[..|b| - 1], k);
    }
  }

  /** `history` from `k` on with every insertion at its index. */
  function SplicedFrom(history: seq<Entry>, ins: seq<Insertion>, k: nat): seq<Entry>
    requires k <= |history|
    decreases |history| - k
  {
    if k == |history| then Bucket(ins, k)
    else Bucket(ins, k) + ([history[k]] + SplicedFrom(history, ins, k + 1))
  }

  function Spliced(history: seq<Entry>, ins: seq<Insertion>): seq<Entry> {
    SplicedFrom(history, ins, 0)
  }

  // ---- insertion one by one -----------------------------------------------------

  /** Python's `list.insert`. */
  function InsertAt(xs: seq<Entry>, k: nat, x: Entry): seq<Entry>
    requires k <= |xs|
  {
    xs[..k] + [x] + xs[k..]
  }

  /** Python's stable `sorted(..., key=index, reverse=True)`. */
  function Descending(ins: seq<Insertion>): (r: seq<Insertion>)
    ensures |r| == |ins|
  {
    if ins == [] then [] else Place(Descending(ins[..|ins| - 1]), ins[|ins| - 1])
  }

  function Place(sorted: seq<Insertion>, x: Insertion): (r: seq<Insertion>)
    ensures |r| == |sorted| + 1
  {
    if sorted != [] && sorted[|sorted| - 1].index < x.index then
      Place(sorted[..|sorted| - 1], x) + [sorted[|sorted| - 1]]
    else sorted + [x]
  }

  predicate IsDescending(ins: seq<Insertion>) {
    forall i, j :: 0 <= i < j < |ins| ==> ins[i].index >= ins[j].index
  }

  lemma {:induction false} PlaceFrom(sorted: seq<Insertion>, x: Insertion)
    ensures forall y :: y in Place(sorted, x) ==> y == x || y in sorted
  {
    if sorted != [] {
      PlaceFrom(sorted[..|sorted| - 1], x);
    }
  }

  lemma {:induction false} PlaceSorts(sorted: seq<Insertion>, x: Insertion)
    requires IsDescending(sorted)
    ensures IsDescending(Place(sorted, x))
  {
    if sorted != [] && sorted[|sorted| - 1].index < x.index {
      var front, last := sorted[..|sorted| - 1], sorted[|sorted| - 1];
      PlaceSorts(front, x);
      PlaceFrom(front, x);
      assert forall y :: y in front ==> y.index >= last.index;
      assert forall i :: 0 <= i < |Place(front, x)| ==> Place(front, x)[i] in Place(front, x);
    }
  }

  lemma BucketSnoc(ins: seq<Insertion>, x: Insertion, k: nat)
    ensures Bucket(ins + [x], k) == if x.index == k then [x.entry] + Bucket(ins, k) else Bucket(ins, k)
  {
    assert (ins + [x])[..|ins|] == ins;
  }

  /** Sorting is stable, so it leaves every bucket as it is. */
  lemma {:induction false} PlaceKeepsBuckets(sorted: seq<Insertion>, x: Insertion, k: nat)
    ensures Bucket(Place(sorted, x), k) == Bucket(sorted + [x], k)
  {
    BucketSnoc(sorted, x, k);
    if sorted != [] && sorted[|sorted| - 1].index < x.index {
      var front, last := sorted[..|sorted| - 1], sorted[|sorted| - 1];
      PlaceKeepsBuckets(front, x, k);
      BucketSnoc(Place(front, x), last, k);
      BucketSnoc(front, x, k);
    }
  }

  lemma {:induction false} DescendingSpec(ins: seq<Insertion>, k: nat)
    ensures IsDescending(Descending(ins)) && Bucket(Descending(ins), k) == Bucket(ins, k)
    ensures forall x :: x in Descending(ins) ==> x in ins
  {
    if ins != [] {
      var front, last := ins[..|ins| - 1], ins[|ins| - 1];
      DescendingSpec(front, k);
      PlaceSorts(Descending(front), last);
      PlaceFrom(Descending(front), last);
      PlaceKeepsBuckets(Descending(front), last, k);
      BucketSnoc(Descending(front), last, k);
    }
  }

  /** Behind index `k`, nothing changes when all insertions are at `k` or later. */
  lemma {:induction false} SplicedPrefix(history: seq<Entry>, ins: seq<Insertion>, j: nat, k: nat)
    requires j <= k <= |history| && forall x :: x in ins ==> x.index >= k
    ensures SplicedFrom(history, ins, j) == history[j..k] + SplicedFrom(history, ins, k)
    decreases k - j
  {
    if j < k {
      EmptyBucket(ins, j);
      SplicedPrefix(history, ins, j + 1, k);
      var rest := SplicedFrom(history, ins, k);
      Nil([history[j]] + SplicedFrom(history, ins, j + 1));
      Assoc([history[j]], history[j + 1..k], rest);
      SliceHead(history, j, k);
    } else {
      assert history[j..k] == [];
      Nil(SplicedFrom(history, ins, k));
    }
  }

  lemma {:induction false} EmptyBucket(ins: seq<Insertion>, k: nat)
    requires forall x :: x in ins ==> x.index != k
    ensures Bucket(ins, k) == []
  {
    if ins != [] {
      assert ins[|ins| - 1] in ins;
      EmptyBucket(ins[..|ins| - 1], k);
    }
  }

  lemma {:induction false} SplicedBeyond(history: seq<Entry>, ins: seq<Insertion>, x: Insertion, k: nat)
    requires x.index < k <= |history|
    ensures SplicedFrom(history, ins + [x], k) == SplicedFrom(history, ins, k)
    decreases |history| - k
  {
    BucketSnoc(ins, x, k);
    if k < |history| {
      SplicedBeyond(history, ins, x, k + 1);
    }
  }

  /** Inserting at an index no greater than all before it adds to the splice. */
  lemma InsertIsSplice(history: seq<Entry>, ins: seq<Insertion>, x: Insertion)
    requires x.index <= |history| && forall y :: y in ins ==> y.index >= x.index
    ensures x.index <= |Spliced(history, ins)|
    ensures InsertAt(Spliced(history, ins), x.index, x.entry) == Spliced(history, ins + [x])
  {
    var k := x.index;
    var rest, rest' := SplicedFrom(history, ins, k), SplicedFrom(history, ins + [x], k);
    SplicedPrefix(history, ins, 0, k);
    SplicedPrefix(history, ins + [x], 0, k);
    BucketSnoc(ins, x, k);
    if k < |history| {
      SplicedBeyond(history, ins, x, k + 1);
      Assoc([x.entry], Bucket(ins, k), [history[k]] + SplicedFrom(history, ins, k + 1));
    }
    assert rest' == [x.entry] + rest;
    assert (history[..k] + rest)[..k] == history[..k] && (history[..k] + rest)[k..] == rest;
    Assoc(history[..k], [x.entry], rest);
  }

  ghost predicate SameBuckets(a: seq<Insertion>, b: seq<Insertion>) {
    forall j: nat :: Bucket(a, j) == Bucket(b, j)
  }

  lemma {:induction false} SplicedByBuckets(history: seq<Entry>, a: seq<Insertion>, b: seq<Insertion>, k: nat)
    requires k <= |history| && SameBuckets(a, b)
    ensures SplicedFrom(history, a, k) == SplicedFrom(history, b, k)
    decreases |history| - k
  {
    assert Bucket(a, k) == Bucket(b, k);
    if k < |history| {
      SplicedByBuckets(history, a, b, k + 1);
    }
  }

  method CollectInserts(history: seq<Entry>, ids: seq<Option<string>>, bindings: seq<Binding>)
      returns (inserts: seq<Insertion>)
    ensures inserts == InsertionsFor(history, ids, bindings)
  {
    inserts := [];
    for i := 0 to |bindings|
      invariant inserts == InsertionsFor(history, ids, bindings[..i])
    {
      inserts := inserts + [Insertion(IndexFor(history, ids, bindings[i]), Synthetic(bindings[i].note))];
    }
    assert bindings[..|bindings|] == bindings;
  }

  /** Insertions into the growing list, largest index first; the range test never fails. */
  method ApplyInserts(history: seq<Entry>, sorted: seq<Insertion>) returns (result: seq<Entry>)
    requires IsDescending(sorted) && forall x :: x in sorted ==> x.index <= |history|
    ensures result == Spliced(history, sorted)
  {
    result := history;
    NothingSpliced(history, 0);
    for i := 0 to |sorted|
      invariant result == Spliced(history, sorted[..i])
    {
      StepDown(sorted, i);
      InsertIsSplice(history, sorted[..i], sorted[i]);
      if sorted[i].index <= |result| {
        result := InsertAt(result, sorted[i].index, sorted[i].entry);
      }
    }
    assert sorted[..|sorted|] == sorted;
  }

  lemma StepDown(sorted: seq<Insertion>, i: nat)
    requires IsDescending(sorted) && i < |sorted|
    ensures sorted[i] in sorted && sorted[..i + 1] == sorted[..i] + [sorted[i]]
    ensures forall y :: y in sorted[..i] ==> y.index >= sorted[i].index
  {
  }

  /** The whole function: indices, sort, insertions. */
  method InjectTaskResults(history: seq<Entry>, ids: seq<Option<string>>, bindings: seq<Binding>)
      returns (result: seq<Entry>)
    ensures result == Spliced(history, InsertionsFor(history, ids, bindings))
    ensures (forall e :: e in history ==> e.Original?) ==>
              forall b :: b in bindings ==> InPlace(history, ids, b, result)
  {
    var inserts := CollectInserts(history, ids, bindings);
    var sorted := Descending(inserts);
    DescendingSpec(inserts, 0);
    result := ApplyInserts(history, sorted);
    SortedSplicesAlike(history, inserts);
    if forall e :: e in history ==> e.Original? {
      NotesStand(history, ids, bindings);
    }
  }

  lemma SortedSplicesAlike(history: seq<Entry>, inserts: seq<Insertion>)
    ensures Spliced(history, Descending(inserts)) == Spliced(history, inserts)
  {
    forall k: nat
      ensures Bucket(Descending(inserts), k) == Bucket(inserts, k)
    {
      DescendingSpec(inserts, k);
    }
    SplicedByBuckets(history, Descending(inserts), inserts, 0);
  }

  lemma {:induction false} NothingSpliced(history: seq<Entry>, k: nat)
    requires k <= |history|
    ensures SplicedFrom(history, [], k) == history[k..]
    decreases |history| - k
  {
    if k < |history| {
      NothingSpliced(history, k + 1);
    }
  }

  // ---- what the result is ---------------------------------------------------------

  function Erased(xs: seq<Entry>): seq<Entry> {
    if xs == [] then []
    else if xs[0].Synthetic? then Erased(xs[1..])
    else [xs[0]] + Erased(xs[1..])
  }

  lemma {:induction false} ErasedAppend(a: seq<Entry>, b: seq<Entry>)
    ensures Erased(a + b) == Erased(a) + Erased(b)
  {
    if a == [] {
      assert a + b == b;
    } else {
      assert (a + b)[1..] == a[1..] + b;
      ErasedAppend(a[1..], b);
    }
  }

  ghost predicate AllSynthetic(ins: seq<Insertion>) {
    forall x :: x in ins ==> x.entry.Synthetic?
  }

  lemma {:induction false} BucketErased(ins: seq<Insertion>, k: nat)
    requires AllSynthetic(ins)
    ensures Erased(Bucket(ins, k)) == []
  {
    if ins != [] {
      assert ins[|ins| - 1] in ins;
      BucketErased(ins[..|ins| - 1], k);
      if ins[|ins| - 1].index == k {
        assert Bucket(ins, k)[1..] == Bucket(ins[..|ins| - 1], k);
      }
    }
  }

  /** Erasing the notes gives back the history. */
  lemma {:induction false} SpliceErases(history: seq<Entry>, ins: seq<Insertion>, k: nat)
    requires k <= |history| && AllSynthetic(ins) && forall e :: e in history ==> e.Original?
    ensures Erased(SplicedFrom(history, ins, k)) == history[k..]
    decreases |history| - k
  {
    BucketErased(ins, k);
    if k < |history| {
      SpliceErases(history, ins, k + 1);
      var rest := SplicedFrom(history, ins, k + 1);
      ErasedAppend(Bucket(ins, k), [history[k]] + rest);
      assert history[k] in history;
      assert ([history[k]] + rest)[1..] == rest;
    }
  }

  /** The notes at index `k` stand behind exactly `k` original messages, in
      reverse order of their bindings, and nothing else stands among them. */
  lemma {:induction false} BucketInPlace(history: seq<Entry>, ins: seq<Insertion>, j: nat, k: nat)
      returns (before: seq<Entry>, after: seq<Entry>)
    requires j <= k <= |history| && AllSynthetic(ins) && forall e :: e in history ==> e.Original?
    ensures SplicedFrom(history, ins, j) == before + Bucket(ins, k) + after
    ensures Erased(before) == history[j..k]
    ensures after == [] || after[0].Original?
    decreases k - j
  {
    assert j < k ==> history[j] in history;
    if j == k {
      before := [];
      after := if k == |history| then [] else [history[k]] + SplicedFrom(history, ins, k + 1);
      assert k < |history| ==> history[k] in history;
    } else {
      var mid;
      mid, after := BucketInPlace(history, ins, j + 1, k);
      before := Bucket(ins, j) + ([history[j]] + mid);
      OneMoreErased(history, ins, j, mid);
      assert history[j..k] == [history[j]] + history[j + 1..k];
      Regroup(Bucket(ins, j), [history[j]], mid, Bucket(ins, k), after);
    }
  }

  lemma OneMoreErased(history: seq<Entry>, ins: seq<Insertion>, j: nat, mid: seq<Entry>)
    requires j < |history| && history[j].Original? && AllSynthetic(ins)
    ensures Erased(Bucket(ins, j) + ([history[j]] + mid)) == [history[j]] + Erased(mid)
  {
    BucketErased(ins, j);
    ErasedAppend(Bucket(ins, j), [history[j]] + mid);
    assert ([history[j]] + mid)[1..] == mid;
  }

  lemma Regroup(a: seq<Entry>, b: seq<Entry>, c: seq<Entry>, d: seq<Entry>, e: seq<Entry>)
    ensures a + (b + (c + d + e)) == a + (b + c) + d + e
  {
  }

  // ---- where every note stands ----------------------------------------------------

  /** The binding's message, `j`, is known: the last one with its id. */
  predicate AnchoredAt(history: seq<Entry>, ids: seq<Option<string>>, b: Binding, j: nat) {
    && |ids| == |history| && j < |ids| && b.anchor.Some? && b.anchor.value != "" && ids[j] == b.anchor
    && forall i :: j < i < |ids| ==> ids[i] != b.anchor
  }

  predicate NotYounger(e: Entry, at: int) {
    e.Original? && e.timestamp.Some? && e.timestamp.value <= at
  }

  /** The note of `b` belongs behind the first `k` messages: the last of these
      is its message, or, if that is not known, the last one not younger. */
  ghost predicate BelongsBehind(history: seq<Entry>, ids: seq<Option<string>>, b: Binding, k: nat) {
    k <= |history| &&
    if exists j: nat :: AnchoredAt(history, ids, b, j) then k > 0 && AnchoredAt(history, ids, b, k - 1)
    else
      && (k > 0 ==> NotYounger(history[k - 1], b.createdAt))
      && forall i :: k <= i < |history| ==> !NotYounger(history[i], b.createdAt)
  }

  /** `note` stands in `result` with exactly `before` for the messages of the history before it. */
  ghost predicate StandsBehind(result: seq<Entry>, note: Entry, before: seq<Entry>) {
    exists n :: 0 <= n < |result| && result[n] == note && Erased(result[..n]) == before
  }

  lemma IndexBelongs(history: seq<Entry>, ids: seq<Option<string>>, b: Binding)
    ensures BelongsBehind(history, ids, b, IndexFor(history, ids, b))
  {
    if j: nat :| AnchoredAt(history, ids, b, j) {
      assert ids[j] in ids;
      var i := IndexOfId(ids, b.anchor.value).value;
      assert i == j;
    } else if |ids| == |history| && b.anchor.Some? && b.anchor.value != "" {
      var r := IndexOfId(ids, b.anchor.value);
      assert r.Some? ==> AnchoredAt(history, ids, b, r.value);
    }
  }

  lemma {:induction false} InBucket(ins: seq<Insertion>, x: Insertion) returns (n: nat)
    requires x in ins
    ensures n < |Bucket(ins, x.index)| && Bucket(ins, x.index)[n] == x.entry
  {
    var last := ins[|ins| - 1];
    if last == x {
      n := 0;
    } else {
      assert x in ins[..|ins| - 1];
      n := InBucket(ins[..|ins| - 1], x);
      n := if last.index == x.index then n + 1 else n;
    }
  }

  lemma {:induction false} BucketEntries(ins: seq<Insertion>, k: nat)
    requires AllSynthetic(ins)
    ensures forall e :: e in Bucket(ins, k) ==> e.Synthetic?
  {
    if ins != [] {
      assert ins[|ins| - 1] in ins;
      BucketEntries(ins[..|ins| - 1], k);
    }
  }

  lemma {:induction false} NothingLeft(xs: seq<Entry>)
    requires forall e :: e in xs ==> e.Synthetic?
    ensures Erased(xs) == []
  {
    if xs != [] {
      assert xs[0] in xs;
      NothingLeft(xs[1..]);
    }
  }

  lemma InsertionStands(history: seq<Entry>, ins: seq<Insertion>, x: Insertion)
    requires AllSynthetic(ins) && x in ins && x.index <= |history| && forall e :: e in history ==> e.Original?
    ensures StandsBehind(Spliced(history, ins), x.entry, history[..x.index])
  {
    var k := x.index;
    var before, after := BucketInPlace(history, ins, 0, k);
    var n := InBucket(ins, x);
    var bucket := Bucket(ins, k);
    BucketEntries(ins, k);
    NothingLeft(bucket[..n]);
    ErasedAppend(before, bucket[..n]);
    Nil(Erased(before));
    var result := before + bucket + after;
    assert result[..|before| + n] == before + bucket[..n];
    assert result[|before| + n] == bucket[n];
  }

  ghost predicate InPlace(history: seq<Entry>, ids: seq<Option<string>>, b: Binding, result: seq<Entry>) {
    exists k: nat :: BelongsBehind(history, ids, b, k) && StandsBehind(result, Synthetic(b.note), history[..k])
  }

  /** Every note stands where it belongs: right behind its message as far as
      messages of the history go, or behind those that are not younger. */
  lemma NotesStand(history: seq<Entry>, ids: seq<Option<string>>, bindings: seq<Binding>)
    requires forall e :: e in history ==> e.Original?
    ensures forall b :: b in bindings ==>
              InPlace(history, ids, b, Spliced(history, InsertionsFor(history, ids, bindings)))
  {
    var ins := InsertionsFor(history, ids, bindings);
    forall b | b in bindings
      ensures InPlace(history, ids, b, Spliced(history, ins))
    {
      var i :| 0 <= i < |bindings| && bindings[i] == b;
      assert ins[i] in ins;
      IndexBelongs(history, ids, b);
      InsertionStands(history, ins, ins[i]);
    }
  }
}
