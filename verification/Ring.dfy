/**
  The ring buffer inside `Channel`: N slots and two wrapping counters, with one producer and
  one consumer whose loads, slot accesses and counter stores interleave.  Counters live
  modulo `m` (2^64 for `usize`); slot i of the history is `(i mod m) mod n`.
 */
module Ring {
  import opened Prelude
  import opened Arith

  type Item = int

  /** Between the producer's check and its store of `tail`, and likewise for the consumer and `head`. */
  datatype ProdStage = NoSend | Writing(v: Item) | Publishing(v: Item)
  datatype ConsStage = NoRecv | Reading | Storing(v: Item)

  /** A slot holds `Some` exactly while it owns a value: writing fills it and the consumer's read moves the value out. */
  datatype State = State(
    n: nat,
    m: nat,
    head: nat,
    tail: nat,
    buf: seq<Option<Item>>,
    p: ProdStage,
    c: ConsStage,
    sent: seq<Item>,
    received: seq<Item>)

  function Init(n: nat, m: nat): State {
    State(n, m, 0, 0, seq(n, _ => None), NoSend, NoRecv, [], [])
  }

  /** `a.wrapping_sub(b)` on counters modulo `m`. */
  function WrappingSub(a: nat, b: nat, m: nat): nat
    requires b <= m && m > 0
  {
    (a + (m - b)) % m
  }

  predicate Sized(r: State) {
    r.n < r.m && |r.buf| == r.n && r.head < r.m && r.tail < r.m
  }

  predicate HasRoom(r: State)
    requires r.head <= r.m && r.m > 0
  {
    WrappingSub(r.tail, r.head, r.m) < r.n
  }

  /** `try_send` up to the check: the value is returned when the ring is full. */
  function BeginSend(r: State, v: Item): State
    requires r.head <= r.m && r.m > 0
  {
    if HasRoom(r) then r.(p := Writing(v)) else r
  }

  function WriteSlot(r: State): State
    requires r.p.Writing? && 0 < r.n == |r.buf|
  {
    r.(buf := r.buf[r.tail % r.n := Some(r.p.v)], p := Publishing(r.p.v))
  }

  function StoreTail(r: State): State
    requires r.p.Publishing? && r.m > 0
  {
    r.(tail := (r.tail + 1) % r.m, sent := r.sent + [r.p.v], p := NoSend)
  }

  /** `try_recv` up to the check. */
  function BeginRecv(r: State): State {
    if r.head == r.tail then r else r.(c := Reading)
  }

  function ReadSlot(r: State): State
    requires r.c.Reading? && 0 < r.n == |r.buf|
  {
    var slot := r.buf[r.head % r.n];
    r.(buf := r.buf[r.head % r.n := None], c := Storing(if slot.Some? then slot.value else 0))
  }

  function StoreHead(r: State): State
    requires r.c.Storing? && r.m > 0
  {
    r.(head := (r.head + 1) % r.m, received := r.received + [r.c.v], c := NoRecv)
  }

  // ------------------------------------------------------------------ slots

  function Slot(n: nat, m: nat, i: nat): nat
    requires 0 < n && 0 < m
  {
    (i % m) % n
  }

  /** Index `i` is numbered consistently with its neighbours: N divides the counter range, or no wrap has happened yet. */
  predicate Regular(n: nat, m: nat, i: nat)
    requires 0 < n
  {
    m % n == 0 || i < m
  }

  lemma RegularSlot(n: nat, m: nat, i: nat)
    requires 0 < n && 0 < m && Regular(n, m, i)
    ensures Slot(n, m, i) == i % n
  {
    if m % n == 0 {
      ModOfMultiple(i, n, m, m / n, i / m, i % m);
    } else {
      ModSmall(i, m);
    }
  }

  lemma SlotsDistinct(n: nat, m: nat, i: nat, j: nat)
    requires 0 < n && 0 < m && i < j < i + n && Regular(n, m, j)
    ensures Slot(n, m, i) != Slot(n, m, j)
  {
    RegularSlot(n, m, i);
    RegularSlot(n, m, j);
    if i % n == j % n {
      var a := j / n - i / n;
      Distribute(j / n, i / n, n);
      assert a * n == j - i;
      if a >= 1 {
        MulAtLeast(a, n);
      } else {
        MulNonNegative(-a, n);
      }
    }
  }

  lemma SlotPeriodic(n: nat, m: nat, i: nat)
    requires 0 < n && 0 < m && Regular(n, m, i + n)
    ensures Slot(n, m, i + n) == Slot(n, m, i)
  {
    RegularSlot(n, m, i);
    RegularSlot(n, m, i + n);
    Distribute(i / n, 1, n);
    DivModUnique(i + n, n, i / n + 1, i % n);
  }

  lemma CounterStep(i: nat, m: nat)
    requires 0 < m
    ensures (i % m + 1) % m == (i + 1) % m
  {
    ModStep(i, m, i / m, i % m);
  }

  lemma WrappedDifference(s: nat, r: nat, m: nat)
    requires 0 < m && r <= s < r + m
    ensures WrappingSub(s % m, r % m, m) == s - r
  {
    var a := r / m - s / m + 1;
    var x := s % m + (m - r % m);
    Distribute(r / m + 1, s / m, m);
    Distribute(r / m, 1, m);
    assert x == a * m + (s - r);
    DivModUnique(x, m, a, s - r);
  }

  lemma WrappedOvershoot(s: nat, r: nat, m: nat)
    requires 0 < m && s < r < s + m
    ensures WrappingSub(s % m, r % m, m) == m - (r - s)
  {
    Distribute(s / m, 1, m);
    DivModUnique(s + m, m, s / m + 1, s % m);
    WrappedDifference(s + m, r, m);
  }

  // ------------------------------------------------------------------ invariant

  function Bit(b: bool): nat { if b then 1 else 0 }

  /** The slots of history indices `Lo .. Hi` own values; those of the rest of the window are free. */
  function Lo(r: State): nat { |r.received| + Bit(r.c.Storing?) }
  function Hi(r: State): nat { |r.sent| + Bit(r.p.Publishing?) }

  function ItemAt(r: State, i: nat): Item
    requires i < Hi(r)
  {
    if i < |r.sent| then r.sent[i] else r.p.v
  }

  ghost predicate CountersOk(r: State) {
    && Sized(r)
    && r.head == |r.received| % r.m
    && r.tail == |r.sent| % r.m
    && |r.received| <= |r.sent| <= |r.received| + r.n
    && (!r.p.NoSend? ==> |r.sent| - |r.received| < r.n)
    && (!r.c.NoRecv? ==> |r.received| < |r.sent|)
  }

  /** The indices used so far are numbered consistently. */
  predicate AllRegular(r: State)
    requires 0 < r.n
  {
    r.m % r.n == 0 || Hi(r) <= r.m
  }

  ghost predicate BufferOk(r: State)
    requires CountersOk(r) && 0 < r.n
  {
    && (forall i :: Lo(r) <= i < Hi(r) ==> r.buf[Slot(r.n, r.m, i)] == Some(ItemAt(r, i)))
    && (forall i :: Hi(r) <= i < Lo(r) + r.n && Regular(r.n, r.m, i) ==> r.buf[Slot(r.n, r.m, i)] == None)
    && (r.c.Storing? ==> r.c.v == r.sent[|r.received|])
    && r.received == r.sent[..|r.received|]
  }

  ghost predicate Inv(r: State) {
    && CountersOk(r)
    && (0 < r.n && AllRegular(r) ==> BufferOk(r))
    && (r.n == 0 ==> r.received == r.sent)
  }

  lemma InitKeepsInv(n: nat, m: nat)
    requires n < m
    ensures Inv(Init(n, m))
  {
  }

  /** The checks compare counters; what they find out is whether the history has room or has an item. */
  lemma ChecksAreExact(r: State)
    requires CountersOk(r)
    ensures HasRoom(r) <==> |r.sent| - |r.received| < r.n
    ensures r.head == r.tail <==> |r.sent| == |r.received|
  {
    WrappedDifference(|r.sent|, |r.received|, r.m);
    if r.head == r.tail {
      WrappedDifference(|r.received|, |r.received|, r.m);
    }
  }

  lemma BeginKeepsInv(r: State, v: Item)
    requires Inv(r)
    ensures r.p.NoSend? ==> Inv(BeginSend(r, v))
    ensures r.c.NoRecv? ==> Inv(BeginRecv(r))
  {
    ChecksAreExact(r);
  }

  lemma WriteKeepsInv(r: State)
    requires Inv(r) && r.p.Writing?
    ensures Inv(WriteSlot(r))
  {
    var r' := WriteSlot(r);
    var at := |r.sent|;
    if AllRegular(r') {
      forall i | Lo(r) <= i < at
        ensures r'.buf[Slot(r.n, r.m, i)] == Some(ItemAt(r', i))
      {
        SlotsDistinct(r.n, r.m, i, at);
      }
      forall i | at < i < Lo(r) + r.n && Regular(r.n, r.m, i)
        ensures r'.buf[Slot(r.n, r.m, i)] == None
      {
        SlotsDistinct(r.n, r.m, at, i);
      }
    }
  }

  lemma StoreTailKeepsInv(r: State)
    requires Inv(r) && r.p.Publishing?
    ensures Inv(StoreTail(r))
  {
    var r' := StoreTail(r);
    CounterStep(|r.sent|, r.m);
    assert r'.sent[..|r.received|] == r.sent[..|r.received|];
    assert forall i: nat :: i < Hi(r) ==> ItemAt(r', i) == ItemAt(r, i);
  }

  lemma ReadKeepsInv(r: State)
    requires Inv(r) && r.c.Reading?
    ensures Inv(ReadSlot(r))
  {
    var r' := ReadSlot(r);
    var at := |r.received|;
    if AllRegular(r) {
      assert r.buf[Slot(r.n, r.m, at)] == Some(ItemAt(r, at));
      forall i | at < i < Hi(r)
        ensures r'.buf[Slot(r.n, r.m, i)] == Some(ItemAt(r', i))
      {
        SlotsDistinct(r.n, r.m, at, i);
      }
      if Regular(r.n, r.m, at + r.n) { SlotPeriodic(r.n, r.m, at); }
    }
  }

  lemma StoreHeadKeepsInv(r: State)
    requires Inv(r) && r.c.Storing?
    ensures Inv(StoreHead(r))
  {
    CounterStep(|r.received|, r.m);
    assert r.sent[..|r.received| + 1] == r.sent[..|r.received|] + [r.sent[|r.received|]];
  }

  // ------------------------------------------------------------------ runs

  datatype Op = Send(v: Item) | Recv | ProdStep | ConsStep

  predicate Enabled(r: State, op: Op) {
    match op
    case Send(_) => r.p.NoSend?
    case Recv => r.c.NoRecv?
    case ProdStep => !r.p.NoSend?
    case ConsStep => !r.c.NoRecv?
  }

  function Exec(r: State, op: Op): State
    requires Sized(r) && 0 < r.n && Enabled(r, op)
  {
    match op
    case Send(v) => BeginSend(r, v)
    case Recv => BeginRecv(r)
    case ProdStep => if r.p.Writing? then WriteSlot(r) else StoreTail(r)
    case ConsStep => if r.c.Reading? then ReadSlot(r) else StoreHead(r)
  }

  lemma StepKeepsInv(r: State, op: Op)
    requires Inv(r) && 0 < r.n && Enabled(r, op)
    ensures Inv(Exec(r, op))
  {
    match op
    case Send(v) => BeginKeepsInv(r, v);
    case Recv => BeginKeepsInv(r, 0);
    case ProdStep => if r.p.Writing? { WriteKeepsInv(r); } else { StoreTailKeepsInv(r); }
    case ConsStep => if r.c.Reading? { ReadKeepsInv(r); } else { StoreHeadKeepsInv(r); }
  }

  /** `script` interleaves the producer's and the consumer's operations from `r` to `last`. */
  ghost predicate Runs(r: State, script: seq<Op>, last: State)
    decreases |script|
  {
    if script == [] then r == last
    else Sized(r) && 0 < r.n && Enabled(r, script[0]) && Runs(Exec(r, script[0]), script[1..], last)
  }

  lemma {:induction false} RunKeepsInv(r: State, script: seq<Op>, last: State)
    requires Inv(r) && 0 < r.n && Runs(r, script, last)
    ensures Inv(last) && last.n == r.n && last.m == r.m
    decreases |script|
  {
    if script != [] {
      StepKeepsInv(r, script[0]);
      RunKeepsInv(Exec(r, script[0]), script[1..], last);
    }
  }

  ghost predicate Reachable(n: nat, m: nat, r: State) {
    exists script :: Runs(Init(n, m), script, r)
  }

  lemma ReachableKeepsInv(n: nat, m: nat, r: State)
    requires 0 < n < m && Reachable(n, m, r)
    ensures Inv(r) && r.n == n && r.m == m
  {
    var script :| Runs(Init(n, m), script, r);
    InitKeepsInv(n, m);
    RunKeepsInv(Init(n, m), script, r);
  }

  /**
    The ring is a FIFO queue.  In every interleaving, as long as the counters have not wrapped
    or the capacity divides their range: what was received is a prefix of what was sent, at
    most N values are in between, a write finds a free slot, a read finds the oldest value not
    yet received, and the two never touch one slot at once.
   */
  lemma RefinesFifo(n: nat, m: nat, r: State)
    requires 0 < n < m && Reachable(n, m, r)
    requires m % n == 0 || |r.sent| < m
    ensures Sized(r) && r.n == n
    ensures r.received <= r.sent && |r.sent| - |r.received| <= n
    ensures r.p.Writing? ==> r.buf[r.tail % n] == None
    ensures r.c.Reading? ==> |r.received| < |r.sent| && r.buf[r.head % n] == Some(r.sent[|r.received|])
    ensures r.p.Writing? && r.c.Reading? ==> r.tail % n != r.head % n
  {
    ReachableKeepsInv(n, m, r);
    if r.c.Reading? {
      assert r.buf[Slot(n, m, |r.received|)] == Some(ItemAt(r, |r.received|));
    }
    if r.p.Writing? {
      assert r.buf[Slot(n, m, |r.sent|)] == None;
    }
  }

  // ------------------------------------------------------------------ when the capacity does not divide the range

  lemma {:induction false} RunsThen(r: State, script: seq<Op>, last: State, op: Op)
    requires Runs(r, script, last) && Sized(last) && 0 < last.n && Enabled(last, op)
    ensures Runs(r, script + [op], Exec(last, op))
    decreases |script|
  {
    if script == [] {
      assert (script + [op])[1..] == [];
    } else {
      RunsThen(Exec(r, script[0]), script[1..], last, op);
      assert (script + [op])[1..] == script[1..] + [op];
    }
  }

  lemma ReachableThen(n: nat, m: nat, r: State, op: Op)
    requires 0 < n < m && Reachable(n, m, r) && Enabled(r, op)
    ensures Sized(r) && 0 < r.n && Reachable(n, m, Exec(r, op))
  {
    ReachableKeepsInv(n, m, r);
    var script :| Runs(Init(n, m), script, r);
    RunsThen(Init(n, m), script, r, op);
  }

  ghost predicate AtRest(r: State) {
    r.p.NoSend? && r.c.NoRecv?
  }

  /** Values are sent in counting order, so that each one tells where it belongs. */
  ghost predicate Counting(s: seq<Item>) {
    forall i :: 0 <= i < |s| ==> s[i] == i
  }

  lemma SendOne(n: nat, m: nat, r: State) returns (r': State)
    requires 0 < n < m && Reachable(n, m, r) && AtRest(r) && Counting(r.sent)
    requires |r.sent| - |r.received| < n
    ensures Reachable(n, m, r') && AtRest(r') && Counting(r'.sent)
    ensures |r'.sent| == |r.sent| + 1 && r'.received == r.received
    ensures |r.buf| == n && r'.buf == r.buf[r.tail % n := Some(|r.sent|)]
  {
    ReachableKeepsInv(n, m, r);
    ChecksAreExact(r);
    var v := |r.sent|;
    ReachableThen(n, m, r, Send(v));
    var writing := BeginSend(r, v);
    ReachableThen(n, m, writing, ProdStep);
    var publishing := WriteSlot(writing);
    ReachableThen(n, m, publishing, ProdStep);
    r' := StoreTail(publishing);
  }

  lemma RecvOne(n: nat, m: nat, r: State) returns (r': State)
    requires 0 < n < m && Reachable(n, m, r) && AtRest(r) && |r.received| < |r.sent|
    ensures Reachable(n, m, r') && AtRest(r') && r'.sent == r.sent
    ensures r.head % n < |r.buf|
    ensures r.buf[r.head % n].Some? ==> r'.received == r.received + [r.buf[r.head % n].value]
    ensures |r'.received| == |r.received| + 1
  {
    ReachableKeepsInv(n, m, r);
    ChecksAreExact(r);
    ReachableThen(n, m, r, Recv);
    var reading := BeginRecv(r);
    ReachableThen(n, m, reading, ConsStep);
    var storing := ReadSlot(reading);
    ReachableThen(n, m, storing, ConsStep);
    r' := StoreHead(storing);
  }

  /** Alternating sends and receives reach an empty ring after any number of values. */
  lemma {:induction false} ReachEmptyAt(n: nat, m: nat, k: nat) returns (r: State)
    requires 0 < n < m
    ensures Reachable(n, m, r) && AtRest(r) && Counting(r.sent) && |r.sent| == |r.received| == k
  {
    if k == 0 {
      r := Init(n, m);
      assert Runs(Init(n, m), [], r);
    } else {
      var r0 := ReachEmptyAt(n, m, k - 1);
      var r1 := SendOne(n, m, r0);
      r := RecvOne(n, m, r1);
    }
  }

  lemma {:induction false} Fill(n: nat, m: nat, r: State, j: nat) returns (r': State)
    requires 0 < n < m && Reachable(n, m, r) && AtRest(r) && Counting(r.sent) && |r.sent| - |r.received| + j <= n
    ensures Reachable(n, m, r') && AtRest(r') && Counting(r'.sent)
    ensures |r'.sent| == |r.sent| + j && r'.received == r.received
    decreases j
  {
    r' := r;
    if j > 0 {
      var r1 := SendOne(n, m, r);
      r' := Fill(n, m, r1, j - 1);
    }
  }

  /** With a capacity that does not divide the counter range, the first wrap overwrites a value not yet received. */
  lemma WrapBreaksFifo(n: nat, m: nat) returns (r: State)
    requires 0 < n < m && m % n != 0
    ensures Reachable(n, m, r) && !(r.received <= r.sent)
  {
    var over := m % n;
    var base := m - over;
    DivModUnique(base, n, m / n, 0);
    var empty := ReachEmptyAt(n, m, base);
    var full := Fill(n, m, empty, over);
    r := OverwriteAndReceive(n, m, full, base);
    assert r.received[base] == m;
  }

  lemma OverwriteAndReceive(n: nat, m: nat, full: State, base: nat) returns (r: State)
    requires 0 < n < m && Reachable(n, m, full) && AtRest(full) && Counting(full.sent)
    requires |full.sent| == m && |full.received| == base && base < m < base + n && base % n == 0
    ensures Reachable(n, m, r) && |r.received| == base + 1 && r.received[base] == m
    ensures |r.sent| == m + 1 && r.sent[base] == base
  {
    CountersAt(n, m, full, base);
    var wrapped := SendOne(n, m, full);
    CountersAt(n, m, wrapped, base);
    r := RecvOne(n, m, wrapped);
  }

  /** The counters of an unwrapped consumer at a multiple of N, and of a producer at the wrap. */
  lemma CountersAt(n: nat, m: nat, r: State, base: nat)
    requires 0 < n < m && Reachable(n, m, r) && |r.received| == base < m && base % n == 0
    ensures r.head % n == 0
    ensures |r.sent| == m ==> r.tail % n == 0
  {
    ReachableKeepsInv(n, m, r);
    DivModUnique(base, m, 0, base);
    DivModUnique(m, m, 1, 0);
    DivModUnique(0, n, 0, 0);
  }

  /** Through any number of wraps the ring is FIFO if and only if its capacity divides the counter range. */
  lemma FifoIffCapacityDividesRange(n: nat, m: nat)
    requires 0 < n < m
    ensures m % n == 0 <==> forall r :: Reachable(n, m, r) ==> r.received <= r.sent
  {
    if m % n == 0 {
      forall r | Reachable(n, m, r)
        ensures r.received <= r.sent
      {
        RefinesFifo(n, m, r);
      }
    } else {
      var r := WrapBreaksFifo(n, m);
    }
  }

  // ------------------------------------------------------------------ len

  lemma {:induction false} RunsOnlyAdd(r: State, script: seq<Op>, last: State)
    requires Runs(r, script, last)
    ensures r.sent <= last.sent && r.received <= last.received
    decreases |script|
  {
    if script != [] {
      RunsOnlyAdd(Exec(r, script[0]), script[1..], last);
    }
  }

  lemma WrappedWhole(s: nat, x: nat, m: nat)
    requires 0 < m
    ensures (s + x) % m == (s + x % m) % m
  {
    var k := s + x % m;
    Distribute(x / m, k / m, m);
    DivModUnique(s + x, m, x / m + k / m, k % m);
  }

  /**
    `len` loads `tail`, in state `r`, and later `head`.  What it returns is at most N if and
    only if the consumer has not, in between, passed the tail that was loaded; or if it has
    passed it by so much that the counters hide it.
   */
  lemma LenIsBoundedIffHeadHasNotPassed(r: State, script: seq<Op>, later: State)
    requires Inv(r) && 0 < r.n && Runs(r, script, later)
    ensures later.head <= r.m
    ensures var passed := |later.received| - |r.sent|;
            WrappingSub(r.tail, later.head, r.m) <= r.n
            <==> passed <= 0 || passed % r.m == 0 || passed % r.m >= r.m - r.n
  {
    RunKeepsInv(r, script, later);
    RunsOnlyAdd(r, script, later);
    if |later.received| <= |r.sent| {
      WrappedDifference(|r.sent|, |later.received|, r.m);
    } else {
      var passed := |later.received| - |r.sent|;
      WrappedWhole(|r.sent|, passed, r.m);
      if passed % r.m == 0 {
        WrappedDifference(|r.sent|, |r.sent|, r.m);
      } else {
        WrappedOvershoot(|r.sent|, |r.sent| + passed % r.m, r.m);
      }
    }
  }

  // ------------------------------------------------------------------ the rely conditions

  /** What the consumer may do between two operations of the producer ... */
  ghost predicate ProducerRely(r: State, r': State) {
    && Inv(r') && r'.n == r.n && r'.m == r.m
    && r'.p == r.p && r'.sent == r.sent && r.received <= r'.received
  }

  /** ... and the producer between two operations of the consumer. */
  ghost predicate ConsumerRely(r: State, r': State) {
    && Inv(r') && r'.n == r.n && r'.m == r.m
    && r'.c == r.c && r'.received == r.received && r.sent <= r'.sent
  }

  predicate OfProducer(op: Op) { op.Send? || op.ProdStep? }

  lemma {:induction false} ConsumerSatisfiesRely(r: State, script: seq<Op>, last: State)
    requires Inv(r) && 0 < r.n && Runs(r, script, last)
    requires forall i :: 0 <= i < |script| ==> !OfProducer(script[i])
    ensures ProducerRely(r, last)
    decreases |script|
  {
    if script != [] {
      StepKeepsInv(r, script[0]);
      ConsumerSatisfiesRely(Exec(r, script[0]), script[1..], last);
    }
  }

  lemma {:induction false} ProducerSatisfiesRely(r: State, script: seq<Op>, last: State)
    requires Inv(r) && 0 < r.n && Runs(r, script, last)
    requires forall i :: 0 <= i < |script| ==> OfProducer(script[i])
    ensures ConsumerRely(r, last)
    decreases |script|
  {
    if script != [] {
      StepKeepsInv(r, script[0]);
      ProducerSatisfiesRely(Exec(r, script[0]), script[1..], last);
    }
  }

  // ------------------------------------------------------------------ len, by who asks

  /** Asked by the producer, which does nothing between the two loads, `len` is exact at the second. */
  lemma LenIsExactForProducer(r: State, script: seq<Op>, later: State)
    requires Inv(r) && 0 < r.n && Runs(r, script, later)
    requires forall i :: 0 <= i < |script| ==> !OfProducer(script[i])
    ensures later.head <= r.m
    ensures WrappingSub(r.tail, later.head, r.m) == |later.sent| - |later.received| <= r.n
  {
    ConsumerSatisfiesRely(r, script, later);
    WrappedDifference(|r.sent|, |later.received|, r.m);
  }

  /** Asked by the consumer, `len` is exact at the first load. */
  lemma LenIsExactForConsumer(r: State, script: seq<Op>, later: State)
    requires Inv(r) && 0 < r.n && Runs(r, script, later)
    requires forall i :: 0 <= i < |script| ==> OfProducer(script[i])
    ensures later.head <= r.m
    ensures WrappingSub(r.tail, later.head, r.m) == |r.sent| - |r.received| <= r.n
  {
    ProducerSatisfiesRely(r, script, later);
    WrappedDifference(|r.sent|, |later.received|, r.m);
  }

  /** One value sent and received on a new ring. */
  lemma OneValuePasses(n: nat, m: nat) returns (script: seq<Op>, later: State)
    requires 0 < n < m
    ensures Runs(Init(n, m), script, later) && later.head == 1 % m
  {
    var r0 := Init(n, m);
    InitKeepsInv(n, m);
    ChecksAreExact(r0);
    assert Runs(r0, [], r0);
    var r1 := Exec(r0, Send(0));
    RunsThen(r0, [], r0, Send(0));
    var r2 := Exec(r1, ProdStep);
    RunsThen(r0, [] + [Send(0)], r1, ProdStep);
    var r3 := Exec(r2, ProdStep);
    RunsThen(r0, [] + [Send(0)] + [ProdStep], r2, ProdStep);
    var r4 := Exec(r3, Recv);
    RunsThen(r0, [] + [Send(0)] + [ProdStep] + [ProdStep], r3, Recv);
    var r5 := Exec(r4, ConsStep);
    RunsThen(r0, [] + [Send(0)] + [ProdStep] + [ProdStep] + [Recv], r4, ConsStep);
    later := Exec(r5, ConsStep);
    script := [] + [Send(0)] + [ProdStep] + [ProdStep] + [Recv] + [ConsStep];
    RunsThen(r0, script, r5, ConsStep);
    script := script + [ConsStep];
  }

  /** `len`, asked while both ends run between its loads, has returned more than N. */
  ghost predicate LenExceeds(n: nat, m: nat, r: State, script: seq<Op>, later: State) {
    Reachable(n, m, r) && Runs(r, script, later) && r.m == m && later.head <= m && m > 0
    && WrappingSub(r.tail, later.head, m) > n
  }

  /**
    Asked by anyone else, `len` can be failed, by a value that passes between its two loads,
    except in the one case in which no counter difference is larger than the capacity.
   */
  lemma LenExceedsForOthersIff(n: nat, m: nat)
    requires 0 < n < m
    ensures (exists r, script, later :: LenExceeds(n, m, r, script, later)) <==> m > n + 1
  {
    if m > n + 1 {
      var script, later := OneValuePasses(n, m);
      assert Runs(Init(n, m), [], Init(n, m));
      assert WrappingSub(0, 1, m) == m - 1;
      assert LenExceeds(n, m, Init(n, m), script, later);
    }
  }

  // ------------------------------------------------------------------ the code, under interference

  // ------------------------------------------------------------------ an operation of the other side, seen at its end

  /** The consumer has finished one receive, whatever stage it was at. */
  function Taken(r: State): State
    requires CountersOk(r) && 0 < r.n && |r.received| < |r.sent|
  {
    r.(buf := r.buf[r.head % r.n := None], head := (r.head + 1) % r.m,
       received := r.received + [r.sent[|r.received|]], c := NoRecv)
  }

  lemma TakenKeepsInv(r: State)
    requires Inv(r) && 0 < r.n && |r.received| < |r.sent|
    ensures Inv(Taken(r))
  {
    var r', at := Taken(r), |r.received|;
    CounterStep(at, r.m);
    if AllRegular(r') {
      assert r.sent[..at + 1] == r.sent[..at] + [r.sent[at]];
      forall i | at < i < Hi(r)
        ensures r'.buf[Slot(r.n, r.m, i)] == Some(ItemAt(r', i))
      {
        SlotsDistinct(r.n, r.m, at, i);
      }
      if Regular(r.n, r.m, at + r.n) { SlotPeriodic(r.n, r.m, at); }
    }
  }

  /** The producer has finished one send of `v`. */
  function Given(r: State, v: Item): State
    requires CountersOk(r) && 0 < r.n
  {
    r.(buf := r.buf[r.tail % r.n := Some(v)], tail := (r.tail + 1) % r.m, sent := r.sent + [v], p := NoSend)
  }

  lemma GivenKeepsInv(r: State, v: Item)
    requires Inv(r) && 0 < r.n && |r.sent| < |r.received| + r.n
    ensures Inv(Given(r, v))
  {
    var r', at := Given(r, v), |r.sent|;
    CounterStep(at, r.m);
    if AllRegular(r') {
      assert r'.sent[..|r.received|] == r.sent[..|r.received|];
      forall i | Lo(r) <= i < at
        ensures r'.buf[Slot(r.n, r.m, i)] == Some(ItemAt(r', i))
      {
        SlotsDistinct(r.n, r.m, i, at);
        assert r.buf[Slot(r.n, r.m, i)] == Some(ItemAt(r, i));
      }
      forall i | at < i < Lo(r) + r.n && Regular(r.n, r.m, i)
        ensures r'.buf[Slot(r.n, r.m, i)] == None
      {
        SlotsDistinct(r.n, r.m, at, i);
      }
    }
  }

  // ------------------------------------------------------------------ the code, under interference

  /**
    The data half of `Channel<T, N>`: the slots and the two counters, mutated in place one
    operation at a time.  The ghost `ring` is the transition system above.  Module Channels
    puts the operations together, with the two wakers.
   */
  class Channel {
    const n: nat
    const m: nat
    const buf: array<Option<Item>>
    var head: nat
    var tail: nat
    ghost var ring: State

    ghost predicate Valid()
      reads this, buf
    {
      && Inv(ring)
      && ring.n == n && ring.m == m
      && ring.head == head && ring.tail == tail && ring.buf == buf[..]
    }

    constructor (n: nat, m: nat)
      requires n < m
      ensures Valid() && fresh(buf) && ring == Init(n, m)
    {
      this.n, this.m, head, tail := n, m, 0, 0;
      buf := new Option<Item>[n](_ => None);
      ring := Init(n, m);
      new;
      assert buf[..] == Init(n, m).buf;
      InitKeepsInv(n, m);
    }

    /** Operations of the consumer, any number of them. */
    method ConsumerRuns()
      requires Valid()
      modifies this, buf
      ensures Valid() && ProducerRely(old(ring), ring)
    {
    }

    /** Operations of the producer. */
    method ProducerRuns()
      requires Valid()
      modifies this, buf
      ensures Valid() && ConsumerRely(old(ring), ring)
    {
    }

    /** Acts for the consumer: at least one value has been received by it. */
    method ConsumerTakes()
      requires Valid() && 0 < n && |ring.received| < |ring.sent|
      modifies this, buf
      ensures Valid() && ProducerRely(old(ring), ring) && |ring.received| > |old(ring).received|
    {
      TakenKeepsInv(ring);
      ring := Taken(ring);
      buf[head % n] := None;
      head := (head + 1) % m;
    }

    /** Acts for the producer: at least one value has been sent by it. */
    method ProducerGives()
      requires Valid() && 0 < n && |ring.sent| < |ring.received| + n
      modifies this, buf
      ensures Valid() && ConsumerRely(old(ring), ring) && |ring.sent| > |old(ring).sent|
    {
      GivenKeepsInv(ring, 0);
      ring := Given(ring, 0);
      buf[tail % n] := Some(0);
      tail := (tail + 1) % m;
    }

    /** Whether the counters leave room. */
    method HasSpace() returns (room: bool)
      requires Valid()
      ensures room <==> |ring.sent| < |ring.received| + n
    {
      ChecksAreExact(ring);
      room := WrappingSub(tail, head, m) < n;
    }

    /** Whether the counters differ. */
    method HasItem() returns (some: bool)
      requires Valid()
      ensures some <==> |ring.received| < |ring.sent|
    {
      ChecksAreExact(ring);
      some := head != tail;
    }

    /** The check of `try_send`. */
    method StartSend(ghost v: Item) returns (room: bool)
      requires Valid() && ring.p.NoSend?
      modifies this`ring
      ensures Valid() && (room <==> |old(ring).sent| < |old(ring).received| + n)
      ensures ring == old(ring).(p := if room then Writing(v) else NoSend)
    {
      ChecksAreExact(ring);
      BeginKeepsInv(ring, v);
      ring := BeginSend(ring, v);
      room := WrappingSub(tail, head, m) < n;
    }

    method Write(v: Item)
      requires Valid() && ring.p == Writing(v)
      modifies this, buf
      ensures Valid() && ring == WriteSlot(old(ring))
    {
      WriteKeepsInv(ring);
      ring := WriteSlot(ring);
      buf[tail % n] := Some(v);
    }

    method Publish()
      requires Valid() && ring.p.Publishing?
      modifies this
      ensures Valid() && ring == StoreTail(old(ring))
    {
      StoreTailKeepsInv(ring);
      ring := StoreTail(ring);
      tail := (tail + 1) % m;
    }

    /** The check of `try_recv`. */
    method StartRecv() returns (some: bool)
      requires Valid() && ring.c.NoRecv?
      modifies this`ring
      ensures Valid() && (some <==> |old(ring).received| < |old(ring).sent|)
      ensures ring == old(ring).(c := if some then Reading else NoRecv)
    {
      ChecksAreExact(ring);
      BeginKeepsInv(ring, 0);
      ring := BeginRecv(ring);
      some := head != tail;
    }

    method Read() returns (v: Item)
      requires Valid() && ring.c.Reading?
      modifies this, buf
      ensures Valid() && ring == ReadSlot(old(ring)) && ring.c == Storing(v)
    {
      ReadKeepsInv(ring);
      ring := ReadSlot(ring);
      var slot := buf[head % n];
      buf[head % n] := None;
      v := if slot.Some? then slot.value else 0;
    }

    method Consume(ghost v: Item)
      requires Valid() && ring.c == Storing(v)
      modifies this
      ensures Valid() && ring == StoreHead(old(ring))
    {
      StoreHeadKeepsInv(ring);
      ring := StoreHead(ring);
      head := (head + 1) % m;
    }

    /**
      `len`, asked by the producer or by the consumer, with the other side running between its
      two loads: exact at one of them, and never more than N.
     */
    method Len(byProducer: bool) returns (len: nat, ghost seen: State)
      requires Valid()
      modifies this, buf
      ensures Valid() && len == |seen.sent| - |seen.received| <= n
      ensures byProducer ==> seen == ring && ProducerRely(old(ring), ring)
      ensures !byProducer ==> seen == old(ring) && ConsumerRely(old(ring), ring)
    {
      seen := ring;
      var loaded := tail;
      if byProducer {
        ConsumerRuns();
        WrappedDifference(|seen.sent|, |ring.received|, m);
        seen := ring;
      } else {
        ProducerRuns();
        WrappedDifference(|seen.sent|, |ring.received|, m);
      }
      len := WrappingSub(loaded, head, m);
    }

    /** `try_recv` on the ring when there is no other side. */
    method TakeOne() returns (result: Option<Item>)
      requires Valid() && AtRest(ring)
      modifies this, buf
      ensures Valid() && AtRest(ring) && ring.sent == old(ring).sent
      ensures result.Some? <==> |old(ring).received| < |ring.sent|
      ensures ring.received == old(ring).received + if result.Some? then [result.value] else []
    {
      var some := StartRecv();
      if !some {
        return None;
      }
      var v := Read();
      Consume(v);
      return Some(v);
    }

    /** `Drop`: with no contender left, every value still owned by the ring is taken out, once and in order. */
    method Drop() returns (dropped: seq<Item>)
      requires Valid() && AtRest(ring)
      modifies this, buf
      ensures Valid() && AtRest(ring)
      ensures ring.sent == old(ring).sent && ring.received == old(ring).received + dropped
      ensures |ring.received| == |ring.sent|
      ensures 0 < n && AllRegular(ring) ==> ring.received == ring.sent
    {
      dropped := [];
      var v := TakeOne();
      while v.Some?
        invariant Valid() && AtRest(ring)
        invariant ring.sent == old(ring).sent
        invariant ring.received == old(ring).received + dropped + if v.Some? then [v.value] else []
        invariant v.None? ==> |ring.received| == |ring.sent|
        decreases |ring.sent| - |ring.received|, v.Some?
      {
        dropped := dropped + [v.value];
        v := TakeOne();
      }
    }
  }
}
