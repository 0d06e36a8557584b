/** DataQueue: records of bytes, taken out in pieces no larger than the caller's buffer. */
module DataQueues {
  import opened Bytes

  const UINT16_LIMIT := 0x1_0000

  /** A record: its bytes, and how much of it is left from which offset on */
  datatype Rec = Rec(data: seq<Byte>, len: nat, offset: nat)

  /** The lengths of a record fit their 16 bits, and what was taken and what is left make up the record. */
  predicate Sound(r: Rec) { r.offset + r.len == |r.data| < UINT16_LIMIT && r.len > 0 }

  function Left(r: Rec): seq<Byte>
    requires Sound(r)
  {
    r.data[r.offset..]
  }

  ghost predicate AllSound(q: seq<Rec>) { forall r <- q :: Sound(r) }

  /** enqueue; nothing is kept of an empty record, or without memory. */
  function Enqueue(q: seq<Rec>, data: seq<Byte>, memory: bool): seq<Rec> {
    if |data| == 0 || !memory then q else q + [Rec(data, |data|, 0)]
  }

  /** dequeue into a buffer of `max` bytes: the bytes, and the queue after */
  function Dequeue(q: seq<Rec>, max: nat): (seq<Byte>, seq<Rec>)
    requires q != [] && Sound(q[0])
  {
    if q[0].len <= max then (Left(q[0]), q[1..])
    else (Left(q[0])[..max], [q[0].(len := q[0].len - max, offset := q[0].offset + max)] + q[1..])
  }

  class Header {
    const data: seq<Byte>
    var dataLen: nat
    var offset: nat

    constructor (data: seq<Byte>)
      ensures Value() == Rec(data, |data|, 0)
    {
      this.data := data;
      dataLen, offset := |data|, 0;
    }

    function Value(): Rec
      reads this
    {
      Rec(data, dataLen, offset)
    }
  }

  class DataQueue {
    var queue: seq<Header>

    ghost predicate Valid()
      reads this, queue
    {
      && (forall i, j :: 0 <= i < j < |queue| ==> queue[i] != queue[j])
      && (forall h <- queue :: Sound(h.Value()))
    }

    ghost function Value(): (q: seq<Rec>)
      reads this, queue
      ensures |q| == |queue| && forall i :: 0 <= i < |q| ==> q[i] == queue[i].Value()
    {
      Values(queue)
    }

    static ghost function Values(hs: seq<Header>): (q: seq<Rec>)
      reads hs
      ensures |q| == |hs| && forall i :: 0 <= i < |q| ==> q[i] == hs[i].Value()
    {
      if hs == [] then [] else [hs[0].Value()] + Values(hs[1..])
    }

    constructor ()
      ensures Valid() && Value() == []
    {
      queue := [];
    }

    method IsEmpty() returns (empty: bool)
      ensures empty <==> Value() == []
    {
      empty := |queue| == 0;
    }

    method Append(data: seq<Byte>, memory: bool) returns (ok: bool)
      requires Valid() && |data| < UINT16_LIMIT
      modifies this
      ensures Valid() && ok == (|data| > 0 && memory) && Value() == Enqueue(old(Value()), data, memory)
      ensures forall h <- queue :: h in old(queue) || fresh(h)
    {
      if |data| == 0 {
        return false;
      }
      if !memory {
        return false;
      }
      var h := new Header(data);
      queue := queue + [h];
      return true;
    }

    /** Nothing is taken without a buffer, or into one of no bytes.  The lengths are 16-bit: the sums are taken
        modulo 2^16, and never reach it.  The queue's front must exist. */
    method Take(buffer: bool, max: nat) returns (ok: bool, bytes: seq<Byte>)
      requires Valid() && |queue| > 0 && max < UINT16_LIMIT
      modifies this, queue
      ensures Valid() && ok == (buffer && max > 0)
      ensures (bytes, Value()) == if ok then Dequeue(old(Value()), max) else ([], old(Value()))
      ensures forall h <- queue :: h in old(queue)
    {
      ok, bytes := buffer && max > 0, [];
      if ok {
        bytes := TakeFront(max);
      }
    }

    method TakeFront(max: nat) returns (bytes: seq<Byte>)
      requires Valid() && |queue| > 0 && 0 < max < UINT16_LIMIT
      modifies this, queue
      ensures Valid() && (bytes, Value()) == Dequeue(old(Value()), max)
      ensures forall h <- queue :: h in old(queue)
    {
      var h := queue[0];
      assert Sound(h.Value()) && Value()[0] == h.Value();
      if h.dataLen <= max {
        bytes := h.data[h.offset..h.offset + h.dataLen];
        assert bytes == Left(h.Value());
        queue := queue[1..];
        assert Value() == old(Value())[1..];
      } else {
        bytes := TakePart(h, max);
        assert Value() == [h.Value()] + old(Value())[1..];
      }
    }

    static method TakePart(h: Header, max: nat) returns (bytes: seq<Byte>)
      requires Sound(h.Value()) && 0 < max < h.dataLen
      modifies h
      ensures Sound(h.Value())
      ensures h.Value() == old(h.Value()).(len := old(h.dataLen) - max, offset := old(h.offset) + max)
      ensures bytes == Left(old(h.Value()))[..max]
    {
      bytes := h.data[h.offset..h.offset + max];
      h.dataLen := (h.dataLen - max) % UINT16_LIMIT;
      h.offset := (h.offset + max) % UINT16_LIMIT;
    }
  }

  // ---- runs ----

  datatype Op = Put(data: seq<Byte>) | Get(max: nat)

  /** The queue, the records put so far, and every piece taken with the number of the record that was at the
      front. */
  datatype Run = Run(q: seq<Rec>, records: seq<seq<Byte>>, taken: seq<(nat, seq<Byte>)>)

  const EMPTY := Run([], [], [])

  /** Successful operations: a record of one byte at least, and a buffer of one byte on a queue not empty */
  ghost predicate Can(s: Run, op: Op) {
    match op
    case Put(data) => 0 < |data| < UINT16_LIMIT
    case Get(max) => 0 < max < UINT16_LIMIT && s.q != [] && Sound(s.q[0]) && |s.q| <= |s.records|
  }

  function Do(s: Run, op: Op): Run
    requires op.Get? ==> s.q != [] && Sound(s.q[0]) && |s.q| <= |s.records|
  {
    match op
    case Put(data) => Run(Enqueue(s.q, data, true), s.records + [data], s.taken)
    case Get(max) =>
      var (bytes, q) := Dequeue(s.q, max);
      Run(q, s.records, s.taken + [(|s.records| - |s.q|, bytes)])
  }

  ghost predicate Legal(s: Run, ops: seq<Op>)
    decreases ops
  {
    ops == [] || (Can(s, ops[0]) && Legal(Do(s, ops[0]), ops[1..]))
  }

  ghost function After(s: Run, ops: seq<Op>): Run
    requires Legal(s, ops)
    decreases ops
  {
    if ops == [] then s else After(Do(s, ops[0]), ops[1..])
  }

  /** The bytes taken from record i, in order */
  function From(taken: seq<(nat, seq<Byte>)>, i: nat): seq<Byte> {
    if taken == [] then []
    else From(taken[..|taken| - 1], i) + (if taken[|taken| - 1].0 == i then taken[|taken| - 1].1 else [])
  }

  /** The bytes of record i still in the queue */
  function Remaining(s: Run, i: nat): seq<Byte>
    requires |s.q| <= |s.records| && forall r <- s.q :: Sound(r)
  {
    var done := |s.records| - |s.q|;
    if done <= i < |s.records| then Left(s.q[i - done]) else []
  }

  /** Each record is what was taken from it followed by what is left of it. */
  ghost predicate Accounted(s: Run) {
    && |s.q| <= |s.records| && AllSound(s.q)
    && (forall i: nat :: i < |s.records| ==> From(s.taken, i) + Remaining(s, i) == s.records[i])
    && (forall k :: 0 <= k < |s.taken| ==> s.taken[k].0 <= |s.records| - |s.q| && s.taken[k].0 < |s.records|)
    && (forall k, l :: 0 <= k < l < |s.taken| ==> s.taken[k].0 <= s.taken[l].0)
  }

  lemma {:induction false} PutKeepsAccount(s: Run, data: seq<Byte>)
    requires Accounted(s) && 0 < |data| < UINT16_LIMIT
    ensures Accounted(Do(s, Put(data)))
  {
    var t := Do(s, Put(data));
    forall i: nat | i < |t.records| ensures From(t.taken, i) + Remaining(t, i) == t.records[i] {
      if i < |s.records| {
        assert Remaining(t, i) == Remaining(s, i);
      } else {
        NothingFrom(s.taken, i);
      }
    }
  }

  lemma {:induction false} NothingFrom(taken: seq<(nat, seq<Byte>)>, i: nat)
    requires forall k :: 0 <= k < |taken| ==> taken[k].0 != i
    ensures From(taken, i) == []
    decreases |taken|
  {
    if taken == [] {
    } else {
      NothingFrom(taken[..|taken| - 1], i);
    }
  }

  lemma {:induction false} GetKeepsAccount(s: Run, max: nat)
    requires Accounted(s) && Can(s, Get(max))
    ensures Accounted(Do(s, Get(max)))
  {
    var t, done := Do(s, Get(max)), |s.records| - |s.q|;
    assert t.taken[..|t.taken| - 1] == s.taken;
    forall i: nat | i < |t.records| ensures From(t.taken, i) + Remaining(t, i) == t.records[i] {
      if i == done {
        assert t.taken[|t.taken| - 1].1 + Remaining(t, i) == Remaining(s, i);
        assert From(s.taken, i) + (t.taken[|t.taken| - 1].1 + Remaining(t, i)) == t.records[i];
      } else {
        assert Remaining(t, i) == Remaining(s, i);
      }
    }
  }

  lemma {:induction false} AfterKeepsAccount(s: Run, ops: seq<Op>)
    requires Accounted(s) && Legal(s, ops)
    ensures Accounted(After(s, ops))
    decreases ops
  {
    if ops == [] {
    } else {
      match ops[0] {
        case Put(data) => PutKeepsAccount(s, data);
        case Get(max) => GetKeepsAccount(s, max);
      }
      AfterKeepsAccount(Do(s, ops[0]), ops[1..]);
    }
  }

  /** Over any sequence of operations every piece comes from one record, the records come in order, and what
      was taken from a record followed by what is left of it is the record; offset and length always add up to
      the record's length, so neither overflows its 16 bits. */
  lemma {:induction false} NoPieceMixesRecords(ops: seq<Op>)
    requires Legal(EMPTY, ops)
    ensures Accounted(After(EMPTY, ops))
  {
    AfterKeepsAccount(EMPTY, ops);
  }

  function Joined(pieces: seq<seq<Byte>>): seq<Byte> {
    if pieces == [] then [] else Joined(pieces[..|pieces| - 1]) + pieces[|pieces| - 1]
  }

  function AllTaken(taken: seq<(nat, seq<Byte>)>): seq<Byte> {
    if taken == [] then [] else AllTaken(taken[..|taken| - 1]) + taken[|taken| - 1].1
  }

  function AllLeft(q: seq<Rec>): seq<Byte>
    requires forall r <- q :: Sound(r)
  {
    if q == [] then [] else AllLeft(q[..|q| - 1]) + Left(q[|q| - 1])
  }

  lemma {:induction false} LeftFromTheFront(q: seq<Rec>)
    requires AllSound(q) && q != []
    ensures AllLeft(q) == Left(q[0]) + AllLeft(q[1..])
    decreases |q|
  {
    if |q| > 1 {
      LeftFromTheFront(q[..|q| - 1]);
      assert q[1..][..|q| - 2] == q[..|q| - 1][1..];
    }
  }

  ghost predicate BytesKept(s: Run) {
    AllSound(s.q) && AllTaken(s.taken) + AllLeft(s.q) == Joined(s.records)
  }

  lemma {:induction false} OneMoreLeft(q: seq<Rec>, data: seq<Byte>)
    requires AllSound(q) && 0 < |data| < UINT16_LIMIT
    ensures AllSound(q + [Rec(data, |data|, 0)]) && AllLeft(q + [Rec(data, |data|, 0)]) == AllLeft(q) + data
  {
    assert (q + [Rec(data, |data|, 0)])[..|q|] == q;
    assert data[0..] == data;
  }

  lemma {:induction false} OneMoreJoined(records: seq<seq<Byte>>, data: seq<Byte>)
    ensures Joined(records + [data]) == Joined(records) + data
  {
    assert (records + [data])[..|records|] == records;
  }

  lemma {:induction false} PutKeepsBytes(s: Run, data: seq<Byte>)
    requires BytesKept(s) && 0 < |data| < UINT16_LIMIT
    ensures BytesKept(Do(s, Put(data)))
  {
    OneMoreLeft(s.q, data);
    OneMoreJoined(s.records, data);
    assert AllTaken(s.taken) + (AllLeft(s.q) + data) == AllTaken(s.taken) + AllLeft(s.q) + data;
  }

  lemma {:induction false} GetKeepsBytes(s: Run, max: nat)
    requires BytesKept(s) && Can(s, Get(max))
    ensures BytesKept(Do(s, Get(max)))
  {
    var t := Do(s, Get(max));
    var bytes := Dequeue(s.q, max).0;
    DequeueSplits(s.q, max);
    assert t.taken[..|t.taken| - 1] == s.taken;
    assert AllTaken(s.taken) + (bytes + AllLeft(t.q)) == Joined(s.records);
  }

  lemma {:induction false} DequeueSplits(q: seq<Rec>, max: nat)
    requires AllSound(q) && q != [] && max > 0
    ensures AllSound(Dequeue(q, max).1)
    ensures Dequeue(q, max).0 + AllLeft(Dequeue(q, max).1) == AllLeft(q)
  {
    var (bytes, rest) := Dequeue(q, max);
    assert Sound(q[0]);
    LeftFromTheFront(q);
    if q[0].len > max {
      assert Sound(rest[0]) && forall i :: 1 <= i < |rest| ==> rest[i] == q[i];
      LeftFromTheFront(rest);
      assert rest[1..] == q[1..];
      assert bytes + Left(rest[0]) == Left(q[0]);
      assert bytes + (Left(rest[0]) + AllLeft(q[1..])) == Left(q[0]) + AllLeft(q[1..]);
    }
  }

  lemma {:induction false} AfterKeepsBytes(s: Run, ops: seq<Op>)
    requires BytesKept(s) && Legal(s, ops)
    ensures BytesKept(After(s, ops))
    decreases ops
  {
    if ops == [] {
    } else {
      match ops[0] {
        case Put(data) => PutKeepsBytes(s, data);
        case Get(max) => GetKeepsBytes(s, max);
      }
      AfterKeepsBytes(Do(s, ops[0]), ops[1..]);
    }
  }

  /** Over any sequence of operations the bytes taken out, followed by the bytes still queued, are the bytes put
      in. */
  lemma {:induction false} BytesAreConserved(ops: seq<Op>)
    requires Legal(EMPTY, ops)
    ensures var t := After(EMPTY, ops);
            AllSound(t.q) && AllTaken(t.taken) + AllLeft(t.q) == Joined(t.records)
  {
    AfterKeepsBytes(EMPTY, ops);
  }

  // ---- draining ----

  function Pieces(len: nat, m: nat): nat
    requires m > 0
  {
    (len + m - 1) / m
  }

  function TotalPieces(q: seq<Rec>, m: nat): nat
    requires m > 0
  {
    if q == [] then 0 else Pieces(q[0].len, m) + TotalPieces(q[1..], m)
  }

  /** How many dequeues empty the queue */
  ghost function Calls(q: seq<Rec>, m: nat): nat
    requires AllSound(q) && m > 0
    decreases |q|, if q == [] then 0 else q[0].len
  {
    if q == [] then 0 else 1 + Calls(Dequeue(q, m).1, m)
  }

  /** Emptying the queue with a buffer of m bytes takes one call for every m bytes of a record, begun or full,
      record by record. */
  lemma {:induction false} DrainingTakesThePieces(q: seq<Rec>, m: nat)
    requires AllSound(q) && m > 0
    ensures Calls(q, m) == TotalPieces(q, m)
    decreases |q|, if q == [] then 0 else q[0].len
  {
    if q == [] {
    } else {
      var rest := Dequeue(q, m).1;
      DrainingTakesThePieces(rest, m);
      if q[0].len <= m {
        OnePiece(q[0].len, m);
      } else {
        assert rest[1..] == q[1..];
        OneMorePiece(q[0].len, m);
      }
    }
  }

  lemma {:induction false} OnePiece(len: nat, m: nat)
    requires 0 < len <= m
    ensures Pieces(len, m) == 1
  {
    assert (len + m - 1) == m + (len - 1);
  }

  lemma {:induction false} OneMorePiece(len: nat, m: nat)
    requires len > m > 0
    ensures Pieces(len, m) == 1 + Pieces(len - m, m)
  {
    var x := len - 1;
    MulGrows(x / m, m);
    DivUnique(x + m, m, x / m + 1, x % m);
  }

  lemma {:induction false} MulGrows(q: nat, m: nat)
    ensures (q + 1) * m == q * m + m
  {
  }

  lemma {:induction false} MulMonotone(a: nat, b: nat, m: nat)
    requires a <= b
    ensures a * m <= b * m
  {
    assert b * m == a * m + (b - a) * m;
  }

  lemma {:induction false} DivUnique(x: nat, m: nat, q: nat, r: nat)
    requires m > 0 && x == q * m + r && r < m
    ensures x / m == q
  {
    var p := x / m;
    assert x == p * m + x % m;
    if p < q {
      MulGrows(p, m);
      MulMonotone(p + 1, q, m);
    } else if q < p {
      MulGrows(q, m);
      MulMonotone(q + 1, p, m);
    }
  }
}
