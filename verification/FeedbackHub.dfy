/** The feedback websocket's registry of connections and their bounded queues
    (`feedback_websocket` in app/server.py), with the monitor that consumes from
    the oldest connection (app/streaming_tool_executor.py). */
module FeedbackHub {
  import opened Strings

  const CAPACITY := 100

  /** What a client sends; `kind` is its type field. */
  datatype Incoming = Incoming(kind: string, data: string)

  datatype Message = ToolFeedback(data: string) | Interrupt

  type Socket = nat

  datatype Connection = Connection(socket: Socket, queue: seq<Message>)

  type Registry = map<string, seq<Connection>>

  function Accepted(m: Incoming): (r: seq<Message>)
    ensures |r| <= 1
  {
    if m.kind == "tool_feedback" then [ToolFeedback(m.data)]
    else if m.kind == "interrupt" then [Interrupt]
    else []
  }

  /** Drop the oldest message if the queue is full, then put. */
  function Push(q: seq<Message>, m: Message): (r: seq<Message>) {
    (if |q| >= CAPACITY then q[1..] else q) + [m]
  }

  function PushAll(cs: seq<Connection>, m: Message): (r: seq<Connection>)
    ensures |r| == |cs|
  {
    seq(|cs|, i requires 0 <= i < |cs| => cs[i].(queue := Push(cs[i].queue, m)))
  }

  function Without(cs: seq<Connection>, s: Socket): (r: seq<Connection>) {
    if cs == [] then []
    else if cs[|cs| - 1].socket != s then Without(cs[..|cs| - 1], s) + [cs[|cs| - 1]]
    else Without(cs[..|cs| - 1], s)
  }

  datatype Op =
    | Connect(conv: string, socket: Socket)
    | Receive(conv: string, incoming: Incoming)
    | Take(conv: string)
    | Disconnect(conv: string, socket: Socket)

  function TakeFirst(cs: seq<Connection>): seq<Connection> {
    if cs != [] && cs[0].queue != [] then cs[0 := cs[0].(queue := cs[0].queue[1..])] else cs
  }

  /** What an operation of one conversation does to its connections. */
  function Next(cs: seq<Connection>, op: Op): seq<Connection> {
    match op
    case Connect(_, s) => cs + [Connection(s, [])]
    case Receive(_, m) => if Accepted(m) == [] then cs else PushAll(cs, Accepted(m)[0])
    case Take(_) => TakeFirst(cs)
    case Disconnect(_, s) => Without(cs, s)
  }

  /** The connections of conversation `k` after `ops`. */
  function ConnectionsOf(ops: seq<Op>, k: string): seq<Connection> {
    if ops == [] then []
    else
      var before, op := ConnectionsOf(ops[..|ops| - 1], k), ops[|ops| - 1];
      if op.conv == k then Next(before, op) else before
  }

  /** A key is there exactly as long as its conversation has a connection, and
      lists those connections. */
  ghost predicate Mirrors(r: Registry, ops: seq<Op>) {
    forall k: string ::
      && (k in r <==> ConnectionsOf(ops, k) != [])
      && (k in r ==> r[k] == ConnectionsOf(ops, k))
  }

  /** Each websocket connects once. */
  ghost predicate Fresh(ops: seq<Op>) {
    forall i, j :: 0 <= i < j < |ops| && ops[i].Connect? && ops[j].Connect? ==> ops[i].socket != ops[j].socket
  }

  class Hub {
    var registry: Registry
    ghost var ops: seq<Op>

    ghost predicate Valid()
      reads this
    {
      Mirrors(registry, ops)
    }

    constructor ()
      ensures Valid() && ops == []
    {
      registry, ops := map[], [];
    }

    method Register(conv: string, socket: Socket)
      requires Valid()
      modifies this
      ensures Valid() && ops == old(ops) + [Connect(conv, socket)]
    {
      if conv !in registry {
        registry := registry[conv := []];
      }
      registry := registry[conv := registry[conv] + [Connection(socket, [])]];
      ops := ops + [Connect(conv, socket)];
    }

    method HandleMessage(conv: string, m: Incoming)
      requires Valid()
      modifies this
      ensures Valid() && ops == old(ops) + [Receive(conv, m)]
    {
      ops := ops + [Receive(conv, m)];
      var accepted := Accepted(m);
      if accepted == [] || conv !in registry {
        return;
      }
      var cs := registry[conv];
      ghost var was := cs;
      for i := 0 to |cs|
        invariant |cs| == |was|
        invariant forall j :: 0 <= j < i ==> cs[j] == was[j].(queue := Push(was[j].queue, accepted[0]))
        invariant forall j :: i <= j < |cs| ==> cs[j] == was[j]
      {
        var q := cs[i].queue;
        if |q| >= CAPACITY {
          q := q[1..];
        }
        q := q + [accepted[0]];
        cs := cs[i := cs[i].(queue := q)];
      }
      assert cs == PushAll(was, accepted[0]);
      registry := registry[conv := cs];
    }

    /** The monitor of `conv` takes from the connection that came first. */
    method Consume(conv: string) returns (taken: seq<Message>)
      requires Valid()
      modifies this
      ensures Valid() && ops == old(ops) + [Take(conv)]
      ensures taken == TakenBy(old(ops), Take(conv), conv)
    {
      ops := ops + [Take(conv)];
      if conv !in registry || registry[conv][0].queue == [] {
        return [];
      }
      var first := registry[conv][0];
      taken := [first.queue[0]];
      registry := registry[conv := registry[conv][0 := first.(queue := first.queue[1..])]];
    }

    method Unregister(conv: string, socket: Socket)
      requires Valid()
      modifies this
      ensures Valid() && ops == old(ops) + [Disconnect(conv, socket)]
    {
      ops := ops + [Disconnect(conv, socket)];
      if conv !in registry {
        return;
      }
      var cs := registry[conv];
      var kept := [];
      for i := 0 to |cs|
        invariant kept == Without(cs[..i], socket)
      {
        assert cs[..i + 1][..i] == cs[..i];
        if cs[i].socket != socket {
          kept := kept + [cs[i]];
        }
      }
      assert cs[..|cs|] == cs;
      registry := registry[conv := kept];
      if registry[conv] == [] {
        registry := map c | c in registry && c != conv :: registry[c];
      }
    }
  }

  // ---- what holds after any operations ------------------------------------------

  /** The queue of `s`, or nothing. */
  function QueueOf(cs: seq<Connection>, s: Socket): seq<Message> {
    if cs == [] then []
    else if cs[|cs| - 1].socket == s then cs[|cs| - 1].queue
    else QueueOf(cs[..|cs| - 1], s)
  }

  /** `s` has registered for `k` and not left. */
  predicate Live(ops: seq<Op>, k: string, s: Socket) {
    if ops == [] then false
    else
      var op := ops[|ops| - 1];
      if op == Connect(k, s) then true
      else if op == Disconnect(k, s) then false
      else Live(ops[..|ops| - 1], k, s)
  }

  /** The messages broadcast in `k` since `s` registered. */
  function Heard(ops: seq<Op>, k: string, s: Socket): seq<Message> {
    if ops == [] then []
    else
      var before, op := Heard(ops[..|ops| - 1], k, s), ops[|ops| - 1];
      if op == Connect(k, s) then []
      else if op.Receive? && op.conv == k then before + Accepted(op.incoming)
      else before
  }

  /** What `op` consumes in conversation `k`. */
  function TakenBy(ops: seq<Op>, op: Op, k: string): seq<Message> {
    var cs := ConnectionsOf(ops, k);
    if op == Take(k) && cs != [] && cs[0].queue != [] then [cs[0].queue[0]] else []
  }

  /** What `op` removes from the queue of `s`: a message consumed, or one
      dropped to make room. */
  function RemovedBy(ops: seq<Op>, op: Op, k: string, s: Socket): seq<Message> {
    var cs := ConnectionsOf(ops, k);
    if op == Take(k) then (if cs != [] && cs[0].socket == s then TakenBy(ops, op, k) else [])
    else if op.Receive? && op.conv == k && Accepted(op.incoming) != [] && |QueueOf(cs, s)| >= CAPACITY then
      [QueueOf(cs, s)[0]]
    else []
  }

  function Removed(ops: seq<Op>, k: string, s: Socket): seq<Message> {
    if ops == [] then []
    else
      var front, op := ops[..|ops| - 1], ops[|ops| - 1];
      if op == Connect(k, s) then [] else Removed(front, k, s) + RemovedBy(front, op, k, s)
  }

  predicate Has(cs: seq<Connection>, s: Socket) {
    exists i :: 0 <= i < |cs| && cs[i].socket == s
  }

  predicate Distinct(cs: seq<Connection>) {
    forall i, j :: 0 <= i < j < |cs| ==> cs[i].socket != cs[j].socket
  }

  lemma {:induction false} QueueAt(cs: seq<Connection>, i: nat)
    requires i < |cs| && Distinct(cs)
    ensures QueueOf(cs, cs[i].socket) == cs[i].queue
  {
    if i < |cs| - 1 {
      QueueAt(cs[..|cs| - 1], i);
    }
  }

  lemma {:induction false} WithoutSpec(cs: seq<Connection>, s: Socket, t: Socket)
    ensures Has(Without(cs, s), t) <==> Has(cs, t) && t != s
    ensures t != s ==> QueueOf(Without(cs, s), t) == QueueOf(cs, t)
    ensures Distinct(cs) ==> Distinct(Without(cs, s))
  {
    if cs != [] {
      var front, c := cs[..|cs| - 1], cs[|cs| - 1];
      WithoutSpec(front, s, t);
      HasAppend(front, c, t);
      assert front + [c] == cs;
      HasAppend(Without(front, s), c, t);
      if Distinct(cs) {
        WithoutKeeps(front, s);
      }
    }
  }

  lemma HasAppend(cs: seq<Connection>, c: Connection, t: Socket)
    ensures Has(cs + [c], t) <==> Has(cs, t) || c.socket == t
    ensures QueueOf(cs + [c], t) == if c.socket == t then c.queue else QueueOf(cs, t)
  {
    assert (cs + [c])[..|cs|] == cs;
    assert (cs + [c])[|cs|] == c;
    if Has(cs, t) {
      var i :| 0 <= i < |cs| && cs[i].socket == t;
      assert (cs + [c])[i].socket == t;
    }
  }

  lemma {:induction false} WithoutKeeps(cs: seq<Connection>, s: Socket)
    ensures forall i :: 0 <= i < |Without(cs, s)| ==> Without(cs, s)[i] in cs
  {
    if cs != [] {
      WithoutKeeps(cs[..|cs| - 1], s);
    }
  }

  lemma PushAllSockets(cs: seq<Connection>, m: Message, t: Socket)
    ensures Has(PushAll(cs, m), t) <==> Has(cs, t)
    ensures Distinct(cs) ==> Distinct(PushAll(cs, m))
  {
    var ps := PushAll(cs, m);
    assert forall i :: 0 <= i < |cs| ==> ps[i].socket == cs[i].socket;
  }

  lemma {:induction false} PushAllQueues(cs: seq<Connection>, m: Message, t: Socket)
    requires Has(cs, t)
    ensures QueueOf(PushAll(cs, m), t) == Push(QueueOf(cs, t), m)
  {
    var n := |cs| - 1;
    var front, c := cs[..n], cs[n];
    assert front + [c] == cs;
    HasAppend(front, c, t);
    PushAllOneMore(front, c, m);
    HasAppend(PushAll(front, m), c.(queue := Push(c.queue, m)), t);
    if c.socket != t {
      PushAllQueues(front, m, t);
    }
  }

  lemma PushAllOneMore(cs: seq<Connection>, c: Connection, m: Message)
    ensures PushAll(cs + [c], m) == PushAll(cs, m) + [c.(queue := Push(c.queue, m))]
  {
  }

  lemma TakeFirstSpec(cs: seq<Connection>, t: Socket)
    requires Distinct(cs)
    ensures Has(TakeFirst(cs), t) <==> Has(cs, t)
    ensures Distinct(TakeFirst(cs))
    ensures QueueOf(TakeFirst(cs), t)
            == if cs != [] && cs[0].socket == t && QueueOf(cs, t) != [] then QueueOf(cs, t)[1..] else QueueOf(cs, t)
  {
    var after := TakeFirst(cs);
    if cs != [] {
      QueueAt(cs, 0);
    }
    assert forall i :: 0 <= i < |cs| ==> after[i].socket == cs[i].socket;
    if Has(cs, t) {
      var i :| 0 <= i < |cs| && cs[i].socket == t;
      QueueAt(cs, i);
      QueueAt(after, i);
    } else {
      NoQueue(cs, t);
      NoQueue(after, t);
    }
  }

  lemma {:induction false} NoQueue(cs: seq<Connection>, t: Socket)
    requires !Has(cs, t)
    ensures QueueOf(cs, t) == []
  {
    if cs != [] {
      assert cs[|cs| - 1].socket != t;
      NoQueue(cs[..|cs| - 1], t);
    }
  }

  lemma {:induction false} LiveConnected(ops: seq<Op>, k: string, s: Socket)
    requires Live(ops, k, s)
    ensures exists i :: 0 <= i < |ops| && ops[i].Connect? && ops[i].socket == s
  {
    var n := |ops| - 1;
    if ops[n] != Connect(k, s) {
      LiveConnected(ops[..n], k, s);
      var i :| 0 <= i < n && ops[..n][i].Connect? && ops[..n][i].socket == s;
      assert ops[i].socket == s;
    }
  }

  lemma FreshFront(ops: seq<Op>, k: string)
    requires Fresh(ops) && ops != []
    ensures Fresh(ops[..|ops| - 1])
    ensures var op := ops[|ops| - 1]; op.Connect? ==> !Live(ops[..|ops| - 1], k, op.socket)
  {
    var n := |ops| - 1;
    var op := ops[n];
    if op.Connect? && Live(ops[..n], k, op.socket) {
      LiveConnected(ops[..n], k, op.socket);
    }
  }

  /** Exactly the sockets that registered and have not left are listed, each once. */
  lemma {:induction false} ListedIffLive(ops: seq<Op>, k: string, s: Socket)
    requires Fresh(ops)
    ensures Has(ConnectionsOf(ops, k), s) <==> Live(ops, k, s)
    ensures Distinct(ConnectionsOf(ops, k))
  {
    if ops != [] {
      var front, op := ops[..|ops| - 1], ops[|ops| - 1];
      var cs := ConnectionsOf(front, k);
      FreshFront(ops, k);
      ListedIffLive(front, k, s);
      if op.conv == k {
        match op
        case Connect(_, t) =>
          ListedIffLive(front, k, t);
          HasAppend(cs, Connection(t, []), s);
        case Receive(_, m) =>
          if Accepted(m) != [] {
            PushAllSockets(cs, Accepted(m)[0], s);
          }
        case Take(_) =>
          TakeFirstSpec(cs, s);
        case Disconnect(_, t) =>
          WithoutSpec(cs, t, s);
      }
    }
  }

  lemma PushIs(q: seq<Message>, accepted: seq<Message>)
    requires |accepted| == 1
    ensures Push(q, accepted[0]) == (if |q| >= CAPACITY then q[1..] else q[0..]) + accepted
  {
    assert accepted == [accepted[0]] && q[0..] == q;
  }

  /** What one operation does to the queue of a socket that stays. */
  lemma QueueStep(ops: seq<Op>, op: Op, k: string, s: Socket)
    requires Fresh(ops + [op]) && Live(ops + [op], k, s) && op != Connect(k, s)
    ensures Live(ops, k, s)
    ensures var q := QueueOf(ConnectionsOf(ops, k), s);
            && RemovedBy(ops, op, k, s) <= q
            && QueueOf(ConnectionsOf(ops + [op], k), s)
               == q[|RemovedBy(ops, op, k, s)|..]
                  + if op.Receive? && op.conv == k then Accepted(op.incoming) else []
  {
    var longer := ops + [op];
    assert longer[..|longer| - 1] == ops;
    FreshFront(longer, k);
    ListedIffLive(ops, k, s);
    var cs := ConnectionsOf(ops, k);
    var q := QueueOf(cs, s);
    assert q[0..] + [] == q;
    if op.conv == k {
      match op
      case Connect(_, t) =>
        HasAppend(cs, Connection(t, []), s);
      case Receive(_, m) =>
        if Accepted(m) != [] {
          PushAllQueues(cs, Accepted(m)[0], s);
          PushIs(q, Accepted(m));
        }
      case Take(_) =>
        TakeFirstSpec(cs, s);
        if cs != [] && cs[0].socket == s {
          QueueAt(cs, 0);
        }
      case Disconnect(_, t) =>
        WithoutSpec(cs, t, s);
    }
  }

  /** What was consumed or dropped, followed by what waits in the queue, is what
      was broadcast since the socket registered; the queue is bounded. */
  lemma {:induction false} NothingIsLost(ops: seq<Op>, k: string, s: Socket)
    requires Fresh(ops) && Live(ops, k, s)
    ensures Removed(ops, k, s) + QueueOf(ConnectionsOf(ops, k), s) == Heard(ops, k, s)
    ensures |QueueOf(ConnectionsOf(ops, k), s)| <= 100
  {
    var front, op := ops[..|ops| - 1], ops[|ops| - 1];
    assert front + [op] == ops;
    if op == Connect(k, s) {
      FreshFront(ops, k);
      HasAppend(ConnectionsOf(front, k), Connection(s, []), s);
    } else {
      QueueStep(front, op, k, s);
      NothingIsLost(front, k, s);
      Passes(Removed(front, k, s), QueueOf(ConnectionsOf(front, k), s), RemovedBy(front, op, k, s),
             if op.Receive? && op.conv == k then Accepted(op.incoming) else []);
      Nil(Heard(front, k, s));
    }
  }

  /** From the queue's front to what was removed, and from outside to its end. */
  lemma Passes(removed: seq<Message>, q: seq<Message>, gone: seq<Message>, more: seq<Message>)
    requires gone <= q
    ensures (removed + gone) + (q[|gone|..] + more) == removed + q + more
  {
    assert gone + q[|gone|..] == q;
    Assoc(removed, gone, q[|gone|..] + more);
    Assoc(gone, q[|gone|..], more);
    Assoc(removed, q, more);
  }

  /** Whether the monitor has consumed anything from `s` since it registered. */
  predicate Untouched(ops: seq<Op>, k: string, s: Socket) {
    ops != [] ==>
      var front, op := ops[..|ops| - 1], ops[|ops| - 1];
      op == Connect(k, s) || (Untouched(front, k, s) && (op == Take(k) ==> RemovedBy(front, op, k, s) == []))
  }

  /** A connection behind the first keeps the last hundred messages, also those
      the monitor has meanwhile consumed from the first one. */
  lemma {:induction false} UntouchedKeepsAll(ops: seq<Op>, k: string, s: Socket)
    requires Fresh(ops) && Live(ops, k, s) && Untouched(ops, k, s)
    ensures var heard := Heard(ops, k, s);
            QueueOf(ConnectionsOf(ops, k), s) == if |heard| <= 100 then heard else heard[|heard| - 100..]
  {
    var front, op := ops[..|ops| - 1], ops[|ops| - 1];
    assert front + [op] == ops;
    if op == Connect(k, s) {
      FreshFront(ops, k);
      HasAppend(ConnectionsOf(front, k), Connection(s, []), s);
    } else {
      QueueStep(front, op, k, s);
      UntouchedKeepsAll(front, k, s);
    }
  }

  // ---- broadcasts by number ---------------------------------------------------------

  /** The broadcasts of conversation `k`, the first one being number 0. */
  function Broadcasts(ops: seq<Op>, k: string): seq<Message> {
    if ops == [] then []
    else
      var before, op := Broadcasts(ops[..|ops| - 1], k), ops[|ops| - 1];
      if op.Receive? && op.conv == k then before + Accepted(op.incoming) else before
  }

  /** The number of the oldest broadcast that waits for connection `c`. */
  function Oldest(n: nat, c: Connection): int {
    n - |c.queue|
  }

  predicate IsEnding(q: seq<Message>, all: seq<Message>) {
    |q| <= |all| && all[|all| - |q|..] == q
  }

  /** Every queue is an ending of the broadcasts, and is bounded. */
  predicate AllEndings(cs: seq<Connection>, all: seq<Message>) {
    forall i :: 0 <= i < |cs| ==> IsEnding(cs[i].queue, all) && |cs[i].queue| <= CAPACITY
  }

  lemma PushEnding(q: seq<Message>, all: seq<Message>, m: Message)
    requires IsEnding(q, all)
    ensures IsEnding(Push(q, m), all + [m])
  {
    assert all == all[..|all| - |q|] + q;
    assert (all + [m])[|all| - |q|..] == q + [m];
  }

  lemma NextEndings(cs: seq<Connection>, op: Op, all: seq<Message>)
    requires AllEndings(cs, all)
    ensures AllEndings(Next(cs, op), if op.Receive? then all + Accepted(op.incoming) else all)
  {
    match op
    case Connect(_, _) =>
    case Receive(_, m) =>
      if Accepted(m) != [] {
        assert Accepted(m) == [Accepted(m)[0]];
        forall i | 0 <= i < |cs|
          ensures IsEnding(Push(cs[i].queue, Accepted(m)[0]), all + Accepted(m))
        {
          PushEnding(cs[i].queue, all, Accepted(m)[0]);
        }
      }
    case Take(_) =>
    case Disconnect(_, s) =>
      WithoutKeeps(cs, s);
  }

  lemma {:induction false} QueuesAreEndings(ops: seq<Op>, k: string)
    ensures AllEndings(ConnectionsOf(ops, k), Broadcasts(ops, k))
  {
    if ops != [] {
      QueuesAreEndings(ops[..|ops| - 1], k);
      NextEndings(ConnectionsOf(ops[..|ops| - 1], k), ops[|ops| - 1], Broadcasts(ops[..|ops| - 1], k));
    }
  }

  /** The number `op` consumes, if it consumes anything. */
  function NumberTaken(ops: seq<Op>, op: Op, k: string): seq<int> {
    var cs := ConnectionsOf(ops, k);
    if op == Take(k) && cs != [] && cs[0].queue != [] then [Oldest(|Broadcasts(ops, k)|, cs[0])] else []
  }

  /** The numbers of the broadcasts the monitor of `k` has consumed, in order. */
  function NumbersTaken(ops: seq<Op>, k: string): seq<int> {
    if ops == [] then []
    else NumbersTaken(ops[..|ops| - 1], k) + NumberTaken(ops[..|ops| - 1], ops[|ops| - 1], k)
  }

  /** One more than the largest number consumed. */
  function High(ops: seq<Op>, k: string): (h: int)
    ensures h >= 0
  {
    if ops == [] then 0
    else
      var before, n := High(ops[..|ops| - 1], k), NumberTaken(ops[..|ops| - 1], ops[|ops| - 1], k);
      if n != [] && n[0] >= before then n[0] + 1 else before
  }

  /** What waits and lies below the high mark has been consumed before, and an
      earlier connection is not behind a later one, except below that mark. */
  ghost predicate Orderly(cs: seq<Connection>, n: nat, taken: seq<int>, high: int) {
    && (forall x :: x in taken ==> x < high) && high <= n
    && (forall i, x :: 0 <= i < |cs| && Oldest(n, cs[i]) <= x < high ==> x in taken)
    && (forall i, j :: 0 <= i < j < |cs| ==> Oldest(n, cs[i]) <= Oldest(n, cs[j]) || Oldest(n, cs[i]) <= high)
  }

  lemma ConnectOrderly(cs: seq<Connection>, n: nat, taken: seq<int>, high: int, s: Socket)
    requires Orderly(cs, n, taken, high)
    ensures Orderly(cs + [Connection(s, [])], n, taken, high)
  {
  }

  lemma ReceiveOrderly(cs: seq<Connection>, n: nat, taken: seq<int>, high: int, m: Message)
    requires Orderly(cs, n, taken, high) && forall i :: 0 <= i < |cs| ==> |cs[i].queue| <= CAPACITY
    ensures Orderly(PushAll(cs, m), n + 1, taken, high)
  {
    var cs' := PushAll(cs, m);
    forall i | 0 <= i < |cs|
      ensures Oldest(n + 1, cs'[i])
              == if Oldest(n, cs[i]) < n + 1 - CAPACITY then n + 1 - CAPACITY else Oldest(n, cs[i])
    {
    }
  }

  lemma TakeOrderly(cs: seq<Connection>, n: nat, taken: seq<int>, high: int)
    requires Orderly(cs, n, taken, high) && cs != [] && cs[0].queue != []
    ensures var x := Oldest(n, cs[0]);
            Orderly(TakeFirst(cs), n, taken + [x], if x >= high then x + 1 else high)
  {
    var x := Oldest(n, cs[0]);
    var cs', taken', high' := TakeFirst(cs), taken + [x], if x >= high then x + 1 else high;
    assert Oldest(n, cs'[0]) == x + 1;
    forall i, y | 0 <= i < |cs'| && Oldest(n, cs'[i]) <= y < high'
      ensures y in taken'
    {
      assert y == x ==> taken'[|taken|] == y;
      assert i > 0 ==> Oldest(n, cs[0]) <= Oldest(n, cs[i]) || Oldest(n, cs[0]) <= high;
      assert y < high && Oldest(n, cs[i]) <= y ==> y in taken;
    }
  }

  lemma {:induction false} WithoutOrderly(cs: seq<Connection>, n: nat, taken: seq<int>, high: int, s: Socket)
    requires Orderly(cs, n, taken, high)
    ensures Orderly(Without(cs, s), n, taken, high)
  {
    if cs != [] {
      var front, c := cs[..|cs| - 1], cs[|cs| - 1];
      WithoutOrderly(front, n, taken, high, s);
      WithoutKeeps(front, s);
    }
  }

  /** The monitor's state over any operations. */
  ghost predicate OrderlyRun(ops: seq<Op>, k: string) {
    Orderly(ConnectionsOf(ops, k), |Broadcasts(ops, k)|, NumbersTaken(ops, k), High(ops, k))
  }

  lemma {:induction false} RunIsOrderly(ops: seq<Op>, k: string)
    ensures OrderlyRun(ops, k)
  {
    if ops != [] {
      RunIsOrderly(ops[..|ops| - 1], k);
      StepOrderly(ops[..|ops| - 1], ops[|ops| - 1], k);
      assert ops[..|ops| - 1] + [ops[|ops| - 1]] == ops;
    }
  }

  lemma StepOrderly(ops: seq<Op>, op: Op, k: string)
    requires OrderlyRun(ops, k)
    ensures OrderlyRun(ops + [op], k)
  {
    var longer := ops + [op];
    assert longer[..|longer| - 1] == ops && longer[|longer| - 1] == op;
    var cs, n, taken, high := ConnectionsOf(ops, k), |Broadcasts(ops, k)|, NumbersTaken(ops, k), High(ops, k);
    assert taken + [] == taken;
    if op.conv == k {
      match op
      case Connect(_, s) =>
        ConnectOrderly(cs, n, taken, high, s);
      case Receive(_, m) =>
        QueuesAreEndings(ops, k);
        if Accepted(m) != [] {
          ReceiveOrderly(cs, n, taken, high, Accepted(m)[0]);
        }
      case Take(_) =>
        if cs != [] && cs[0].queue != [] {
          TakeOrderly(cs, n, taken, high);
        }
      case Disconnect(_, s) =>
        WithoutOrderly(cs, n, taken, high, s);
    }
  }

  /** Over any operations: the monitor takes a broadcast it has taken before
      exactly if its number lies below the high mark. */
  lemma TakenAgainIff(ops: seq<Op>, k: string)
    requires ConnectionsOf(ops, k) != [] && ConnectionsOf(ops, k)[0].queue != []
    ensures var x := Oldest(|Broadcasts(ops, k)|, ConnectionsOf(ops, k)[0]);
            && 0 <= x < |Broadcasts(ops, k)| && TakenBy(ops, Take(k), k) == [Broadcasts(ops, k)[x]]
            && (x in NumbersTaken(ops, k) <==> x < High(ops, k))
  {
    RunIsOrderly(ops, k);
    QueuesAreEndings(ops, k);
    var q, all := ConnectionsOf(ops, k)[0].queue, Broadcasts(ops, k);
    assert q[0] == all[|all| - |q|..][0];
  }

  /** When the connection that now comes first was not read from before: it
      delivers something again exactly if one of the last hundred broadcasts
      since it registered has been taken already. */
  lemma SuccessorRepeatsIff(ops: seq<Op>, k: string, s: Socket)
    requires Fresh(ops) && Live(ops, k, s) && Untouched(ops, k, s)
    requires ConnectionsOf(ops, k) != [] && ConnectionsOf(ops, k)[0] == Connection(s, ConnectionsOf(ops, k)[0].queue)
    requires ConnectionsOf(ops, k)[0].queue != []
    ensures var n, heard := |Broadcasts(ops, k)|, |Heard(ops, k, s)|;
            var kept := if heard <= CAPACITY then heard else CAPACITY;
            && NumberTaken(ops, Take(k), k) == [n - kept]
            && (n - kept in NumbersTaken(ops, k) <==> n - kept < High(ops, k))
  {
    var cs := ConnectionsOf(ops, k);
    ListedIffLive(ops, k, s);
    QueueAt(cs, 0);
    UntouchedKeepsAll(ops, k, s);
    TakenAgainIff(ops, k);
  }

  predicate NoRepeats(xs: seq<int>) {
    forall i, j :: 0 <= i < j < |xs| ==> xs[i] != xs[j]
  }

  /** Some take of the run found a broadcast below the high mark. */
  predicate TakesBelow(ops: seq<Op>, k: string) {
    ops != [] &&
    (|| TakesBelow(ops[..|ops| - 1], k)
     || var n := NumberTaken(ops[..|ops| - 1], ops[|ops| - 1], k); n != [] && n[0] < High(ops[..|ops| - 1], k))
  }

  /** No broadcast is consumed twice exactly if no take finds one below the mark. */
  lemma {:induction false} NothingTwiceIff(ops: seq<Op>, k: string)
    ensures NoRepeats(NumbersTaken(ops, k)) <==> !TakesBelow(ops, k)
  {
    if ops != [] {
      var front, op := ops[..|ops| - 1], ops[|ops| - 1];
      NothingTwiceIff(front, k);
      var taken, n := NumbersTaken(front, k), NumberTaken(front, op, k);
      if n != [] {
        TakenAgainIff(front, k);
        assert n == [n[0]];
        OneMoreNumber(taken, n[0]);
      } else {
        assert taken + n == taken;
      }
    }
  }

  lemma OneMoreNumber(xs: seq<int>, x: int)
    ensures NoRepeats(xs + [x]) <==> NoRepeats(xs) && x !in xs
  {
    var longer := xs + [x];
    assert forall i :: 0 <= i < |xs| ==> longer[i] == xs[i];
    assert longer[|xs|] == x;
  }

  lemma OneMore(ops: seq<Op>, op: Op, k: string)
    requires op.conv == k
    ensures ConnectionsOf(ops + [op], k) == Next(ConnectionsOf(ops, k), op)
    ensures NumbersTaken(ops + [op], k) == NumbersTaken(ops, k) + NumberTaken(ops, op, k)
    ensures Broadcasts(ops + [op], k) == Broadcasts(ops, k) + if op.Receive? then Accepted(op.incoming) else []
  {
    assert (ops + [op])[..|ops|] == ops;
    assert Broadcasts(ops, k) + [] == Broadcasts(ops, k);
  }

  lemma WithoutFirst(a: Connection, b: Connection)
    requires a.socket != b.socket
    ensures Without([a, b], a.socket) == [b]
  {
    assert [a, b][..1] == [a] && [a][..0] == [];
    assert Without([a], a.socket) == [];
    assert [] + [b] == [b];
  }

  lemma TakeStep(ops: seq<Op>, k: string, first: Connection, others: seq<Connection>)
    requires ConnectionsOf(ops, k) == [first] + others && first.queue != []
    ensures ConnectionsOf(ops + [Take(k)], k) == [first.(queue := first.queue[1..])] + others
    ensures NumbersTaken(ops + [Take(k)], k) == NumbersTaken(ops, k) + [Oldest(|Broadcasts(ops, k)|, first)]
    ensures |Broadcasts(ops + [Take(k)], k)| == |Broadcasts(ops, k)|
  {
    OneMore(ops, Take(k), k);
    var taken := first.(queue := first.queue[1..]);
    assert ([first] + others)[0 := taken] == [taken] + others;
  }

  lemma LeaveStep(ops: seq<Op>, k: string, first: Connection, second: Connection)
    requires ConnectionsOf(ops, k) == [first] + [second] && first.socket != second.socket
    ensures var longer := ops + [Disconnect(k, first.socket)];
            && ConnectionsOf(longer, k) == [second] + [] && NumbersTaken(longer, k) == NumbersTaken(ops, k)
            && |Broadcasts(longer, k)| == |Broadcasts(ops, k)|
  {
    OneMore(ops, Disconnect(k, first.socket), k);
    assert [first] + [second] == [first, second] && [second] + [] == [second];
    WithoutFirst(first, second);
    assert NumbersTaken(ops, k) + [] == NumbersTaken(ops, k);
  }

  lemma TakeAndLeave(ops: seq<Op>, k: string, first: Connection, second: Connection, longer: seq<Op>)
    requires ConnectionsOf(ops, k) == [first] + [second] && first.socket != second.socket && first.queue != []
    requires longer == ops + [Take(k)] + [Disconnect(k, first.socket)]
    ensures ConnectionsOf(longer, k) == [second] + [] && |Broadcasts(longer, k)| == |Broadcasts(ops, k)|
    ensures NumbersTaken(longer, k) == NumbersTaken(ops, k) + [Oldest(|Broadcasts(ops, k)|, first)]
  {
    TakeStep(ops, k, first, [second]);
    LeaveStep(ops + [Take(k)], k, first.(queue := first.queue[1..]), second);
  }

  /** With two connections that wait for the same broadcasts: taking one, the
      first connection leaving, and taking again delivers it twice. */
  lemma TakeoverRepeats(ops: seq<Op>, k: string, first: Connection, second: Connection)
    requires ConnectionsOf(ops, k) == [first] + [second] && first.socket != second.socket
    requires first.queue != [] && |first.queue| == |second.queue|
    ensures var x := Oldest(|Broadcasts(ops, k)|, second);
            NumbersTaken(ops + [Take(k)] + [Disconnect(k, first.socket)] + [Take(k)], k)
            == NumbersTaken(ops, k) + [x] + [x]
  {
    var longer := ops + [Take(k)] + [Disconnect(k, first.socket)];
    TakeAndLeave(ops, k, first, second, longer);
    TakeAgain(longer, k, second, |Broadcasts(ops, k)|, NumbersTaken(ops, k));
  }

  lemma TakeAgain(longer: seq<Op>, k: string, second: Connection, n: nat, taken: seq<int>)
    requires ConnectionsOf(longer, k) == [second] + [] && |Broadcasts(longer, k)| == n && second.queue != []
    requires NumbersTaken(longer, k) == taken + [Oldest(n, second)]
    ensures NumbersTaken(longer + [Take(k)], k) == taken + [Oldest(n, second)] + [Oldest(n, second)]
  {
    TakeStep(longer, k, second, []);
  }

  // ---- what is broadcast --------------------------------------------------------

  /** A message to the queues of `k`. */
  function IsFor(k: string): Op -> bool {
    (op: Op) => op.Receive? && op.conv == k && (op.incoming.kind == "tool_feedback" || op.incoming.kind == "interrupt")
  }

  /** The broadcasts are what clients sent as feedback or interrupts, in order,
      feedback with its data, and nothing else. */
  lemma {:induction false} BroadcastsAre(ops: seq<Op>, k: string)
    ensures |Broadcasts(ops, k)| == |Chosen(ops, IsFor(k))|
    ensures forall i :: 0 <= i < |Broadcasts(ops, k)| ==>
              Broadcasts(ops, k)[i] ==
              var m := Chosen(ops, IsFor(k))[i].incoming;
              if m.kind == "interrupt" then Interrupt else ToolFeedback(m.data)
  {
    if ops != [] {
      var front, op := ops[..|ops| - 1], ops[|ops| - 1];
      assert front + [op] == ops;
      BroadcastsAre(front, k);
      ChosenSnoc(front, op, IsFor(k));
    }
  }

  /** A connection has heard the latest broadcasts. */
  lemma {:induction false} HeardIsEnding(ops: seq<Op>, k: string, s: Socket)
    ensures IsEnding(Heard(ops, k, s), Broadcasts(ops, k))
  {
    if ops != [] {
      HeardIsEnding(ops[..|ops| - 1], k, s);
    }
  }
}
