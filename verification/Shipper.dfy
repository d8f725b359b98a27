/** The runner-side log shipper: buffering, sealing into numbered chunks, batching and acknowledgement. */
module Shippers {
  import opened Model
  import opened Ingest

  datatype ShipConfig = ShipConfig(flushBytes: int, maxPostBytes: int, maxBuffered: int)

  const DEFAULT_FLUSH_BYTES := 64 * 1024
  const DEFAULT_MAX_POST_BYTES := 512 * 1024
  const DEFAULT_MAX_BUFFERED := 16 * 1024 * 1024

  /** `New`'s defaults; a post always has room for a chunk. */
  function WithShipDefaults(c: ShipConfig): (r: ShipConfig)
    ensures ConfigOk(r)
  {
    var flush := if c.flushBytes <= 0 then DEFAULT_FLUSH_BYTES else c.flushBytes;
    var post := if c.maxPostBytes >= flush then c.maxPostBytes
                else if DEFAULT_MAX_POST_BYTES >= flush then DEFAULT_MAX_POST_BYTES else flush;
    ShipConfig(flush, post, if c.maxBuffered <= 0 then DEFAULT_MAX_BUFFERED else c.maxBuffered)
  }

  /** Usable settings are kept as they are. */
  lemma ShipSettingsKept(c: ShipConfig)
    ensures ConfigOk(c) ==> WithShipDefaults(c) == c
    ensures var r := WithShipDefaults(c);
      && r.flushBytes == (if c.flushBytes > 0 then c.flushBytes else 65_536)
      && r.maxBuffered == (if c.maxBuffered > 0 then c.maxBuffered else 16_777_216)
      && (c.maxPostBytes >= r.flushBytes ==> r.maxPostBytes == c.maxPostBytes)
      && (c.maxPostBytes < r.flushBytes <= 524_288 ==> r.maxPostBytes == 524_288)
      && (c.maxPostBytes < r.flushBytes && r.flushBytes > 524_288 ==> r.maxPostBytes == r.flushBytes)
  {}

  predicate ConfigOk(c: ShipConfig) { 0 < c.flushBytes <= c.maxPostBytes && 0 < c.maxBuffered }

  /** The fields behind the shipper's mutex. */
  datatype Ship = Ship(
    cur: Bytes, pending: seq<Chunk>, buffered: int, dropped: nat, nextSeq: int,
    closed: bool, stale: bool, rejected: bool)

  const EMPTY := Ship([], [], 0, 0, 1, false, false, false)

  // The loss marker.

  function Digits(n: nat): (d: Bytes)
    ensures |d| > 0
  {
    if n < 10 then [(48 + n) as byte] else Digits(n / 10) + [(48 + n % 10) as byte]
  }

  function Ascii(s: string): (b: Bytes)
    ensures |b| == |s|
  {
    seq(|s|, i requires 0 <= i < |s| => (s[i] as int % 256) as byte)
  }

  function Marker(n: nat): Bytes { Ascii("[quarry] log shipper dropped ") + Digits(n) + Ascii(" bytes\n") }

  /** Reading decimal digits back. */
  function ValueOf(d: Bytes): int {
    if d == [] then 0 else 10 * ValueOf(d[..|d| - 1]) + (d[|d| - 1] as int - 48)
  }

  /** The marker's number is the number of bytes dropped, in decimal without leading zeros. */
  lemma {:induction false} DigitsRead(n: nat)
    ensures ValueOf(Digits(n)) == n && (forall i :: 0 <= i < |Digits(n)| ==> 48 <= Digits(n)[i] <= 57)
    ensures Digits(n)[0] == 48 <==> n == 0
  {
    if n >= 10 {
      DigitsRead(n / 10);
      var d := Digits(n);
      assert d[..|d| - 1] == Digits(n / 10);
    } else {
      assert Digits(n)[..0] == [];
    }
  }

  // The operations.

  /** The first `n` bytes of `cur` become the next chunk. */
  function Seal(s: Ship, n: nat): Ship
    requires n <= |s.cur|
  {
    s.(cur := s.cur[n..], pending := s.pending + [Chunk(s.nextSeq, s.cur[..n])], nextSeq := s.nextSeq + 1)
  }

  function SealFull(c: ShipConfig, s: Ship): Ship
    requires ConfigOk(c)
    decreases |s.cur|
  {
    if |s.cur| >= c.flushBytes then SealFull(c, Seal(s, c.flushBytes)) else s
  }

  function Append(c: ShipConfig, s: Ship, p: Bytes): Ship
    requires ConfigOk(c)
  {
    SealFull(c, s.(cur := s.cur + p, buffered := s.buffered + |p|))
  }

  /** The buffer after any pending loss has been noted. */
  function Noted(c: ShipConfig, s: Ship): Ship
    requires ConfigOk(c)
  {
    if s.dropped > 0 && s.buffered < c.maxBuffered then Append(c, s, Marker(s.dropped)).(dropped := 0) else s
  }

  /** How much of a write of `n` bytes fits. */
  function Kept(c: ShipConfig, s: Ship, n: nat): nat {
    var room := c.maxBuffered - s.buffered;
    if s.closed || s.stale || room <= 0 then 0 else if n > room then room else n
  }

  /** Keep the first `k` bytes of `p` and count the rest as dropped. */
  function Retain(c: ShipConfig, s: Ship, p: Bytes, k: nat): Ship
    requires ConfigOk(c) && k <= |p|
  {
    Append(c, s.(dropped := s.dropped + (|p| - k)), p[..k])
  }

  /** The shipper after a write, and the count the write reports. */
  function WriteTo(c: ShipConfig, s: Ship, p: Bytes): (Ship, nat)
    requires ConfigOk(c)
  {
    if s.closed || s.stale then (s, |p|)
    else if s.buffered >= c.maxBuffered then (s.(dropped := s.dropped + |p|), |p|)
    else
      var k := Kept(c, s, |p|);
      (Retain(c, Noted(c, s), p, k), k)
  }

  /** How many pending chunks fit one post: at least one, then as long as the total stays within the bound. */
  function BatchLen(pending: seq<Chunk>, max: int, n: nat): (r: nat)
    requires n <= |pending|
    ensures n <= r <= |pending|
    decreases |pending| - n
  {
    if n < |pending| && (n == 0 || |Concat(pending[..n])| + |pending[n].data| <= max)
      then BatchLen(pending, max, n + 1) else n
  }

  function Sealed(s: Ship): Ship { if |s.cur| > 0 then Seal(s, |s.cur|) else s }

  function Batch(c: ShipConfig, s: Ship): seq<Chunk> { s.pending[..BatchLen(s.pending, c.maxPostBytes, 0)] }

  function Ack(s: Ship, n: nat): Ship
    requires n <= |s.pending|
  {
    s.(buffered := s.buffered - |Concat(s.pending[..n])|, pending := s.pending[n..])
  }

  function GoneStale(s: Ship): Ship { s.(stale := true, cur := [], pending := [], buffered := 0, dropped := 0) }

  datatype CloseResult = ClosedOk | ClosedStale | ClosedRejected | ClosedUnsent(bytes: int) | ClosedDropped(bytes: int)

  function CloseVerdict(s: Ship): CloseResult {
    if s.stale then ClosedStale
    else if s.rejected then ClosedRejected
    else if s.buffered > 0 then ClosedUnsent(s.buffered)
    else if s.dropped > 0 then ClosedDropped(s.dropped)
    else ClosedOk
  }

  // Accounting.

  /** Numbered 1, 2, 3, ... */
  ghost predicate Numbered(cs: seq<Chunk>) { forall i :: 0 <= i < |cs| ==> cs[i].no == i + 1 }

  /**
   The books of a shipper that is not stale: the acknowledged chunks, the pending ones and the unsealed
   bytes together are exactly the accepted stream, numbered without a gap, and `buffered` is exact.
   */
  ghost predicate Books(c: ShipConfig, s: Ship, acked: seq<Chunk>, stream: Bytes) {
    && Concat(acked + s.pending) + s.cur == stream
    && Numbered(acked + s.pending)
    && s.nextSeq == |acked| + |s.pending| + 1
    && s.buffered == |Concat(s.pending)| + |s.cur|
    && (forall i :: 0 <= i < |s.pending| ==> 0 < |s.pending[i].data| <= c.flushBytes)
  }

  lemma ConcatLast(cs: seq<Chunk>, x: Chunk)
    ensures Concat(cs + [x]) == Concat(cs) + x.data
  {
    assert (cs + [x])[..|cs|] == cs;
  }

  lemma Snoc(a: seq<Chunk>, b: seq<Chunk>, x: Chunk)
    ensures a + (b + [x]) == (a + b) + [x]
  {}

  lemma {:induction false} ConcatSplit(a: seq<Chunk>, b: seq<Chunk>)
    ensures Concat(a + b) == Concat(a) + Concat(b)
  {
    if b == [] {
      assert a + b == a;
    } else {
      var front, last := b[..|b| - 1], b[|b| - 1];
      assert b == front + [last];
      ConcatSplit(a, front);
      Snoc(a, front, last);
      ConcatLast(a + front, last);
      JoinBytes(Concat(a), Concat(front), last.data);
    }
  }

  lemma JoinBytes(a: Bytes, b: Bytes, c: Bytes)
    ensures a + b + c == a + (b + c)
  {}

  /** The next chunk takes the first bytes of the unsealed rest. */
  lemma SealStream(sealed: seq<Chunk>, cur: Bytes, n: nat, x: Chunk)
    requires n <= |cur| && x.data == cur[..n]
    ensures Concat(sealed + [x]) + cur[n..] == Concat(sealed) + cur
  {
    ConcatLast(sealed, x);
    assert cur == cur[..n] + cur[n..];
    JoinBytes(Concat(sealed), cur[..n], cur[n..]);
  }

  lemma SealBooks(c: ShipConfig, s: Ship, n: nat, acked: seq<Chunk>, stream: Bytes)
    requires Books(c, s, acked, stream) && 0 < n <= |s.cur| && n <= c.flushBytes
    ensures Books(c, Seal(s, n), acked, stream)
  {
    var x := Chunk(s.nextSeq, s.cur[..n]);
    Snoc(acked, s.pending, x);
    SealStream(acked + s.pending, s.cur, n, x);
    ConcatLast(s.pending, x);
  }

  lemma {:induction false} SealFullBooks(c: ShipConfig, s: Ship, acked: seq<Chunk>, stream: Bytes)
    requires ConfigOk(c) && Books(c, s, acked, stream)
    ensures var r := SealFull(c, s);
      && Books(c, r, acked, stream) && |r.cur| < c.flushBytes
      && r.buffered == s.buffered && r.dropped == s.dropped && r.closed == s.closed && r.stale == s.stale
         && r.rejected == s.rejected
      && s.pending <= r.pending
    decreases |s.cur|
  {
    if |s.cur| >= c.flushBytes {
      SealBooks(c, s, c.flushBytes, acked, stream);
      SealFullBooks(c, Seal(s, c.flushBytes), acked, stream);
    }
  }

  /** Writing seals only full chunks. */
  lemma {:induction false} SealsFull(c: ShipConfig, s: Ship)
    requires ConfigOk(c)
    ensures var r := SealFull(c, s);
      s.pending <= r.pending && forall i :: |s.pending| <= i < |r.pending| ==> |r.pending[i].data| == c.flushBytes
    decreases |s.cur|
  {
    if |s.cur| >= c.flushBytes { SealsFull(c, Seal(s, c.flushBytes)); }
  }

  lemma WriteSealsFull(c: ShipConfig, s: Ship, p: Bytes)
    requires ConfigOk(c)
    ensures var r := WriteTo(c, s, p).0;
      s.pending <= r.pending && forall i :: |s.pending| <= i < |r.pending| ==> |r.pending[i].data| == c.flushBytes
  {
    if !s.closed && !s.stale && s.buffered < c.maxBuffered {
      SealsFull(c, s.(cur := s.cur + Marker(s.dropped), buffered := s.buffered + |Marker(s.dropped)|));
      var t, k := Noted(c, s), Kept(c, s, |p|);
      SealsFull(c, t.(dropped := t.dropped + (|p| - k), cur := t.cur + p[..k], buffered := t.buffered + k));
    }
  }

  lemma AppendBooks(c: ShipConfig, s: Ship, p: Bytes, acked: seq<Chunk>, stream: Bytes)
    requires ConfigOk(c) && Books(c, s, acked, stream)
    ensures var r := Append(c, s, p);
      && Books(c, r, acked, stream + p) && |r.cur| < c.flushBytes
      && r.buffered == s.buffered + |p| && r.dropped == s.dropped && r.closed == s.closed && r.stale == s.stale
         && r.rejected == s.rejected
      && s.pending <= r.pending
  {
    var s1 := s.(cur := s.cur + p, buffered := s.buffered + |p|);
    assert Concat(acked + s.pending) + (s.cur + p) == stream + p;
    SealFullBooks(c, s1, acked, stream + p);
  }

  /** The loss marker a write begins with, if one is due. */
  function Mark(c: ShipConfig, s: Ship): Bytes {
    if !s.closed && !s.stale && s.dropped > 0 && s.buffered < c.maxBuffered then Marker(s.dropped) else []
  }

  /** What a write adds to the accepted stream: any due loss marker, then the bytes that fit. */
  function Contribution(c: ShipConfig, s: Ship, p: Bytes): Bytes { Mark(c, s) + p[..Kept(c, s, |p|)] }

  /** The switches a write leaves alone. */
  predicate SameSwitches(s: Ship, r: Ship) { r.closed == s.closed && r.stale == s.stale && r.rejected == s.rejected }

  lemma NotedBooks(c: ShipConfig, s: Ship, acked: seq<Chunk>, stream: Bytes)
    requires ConfigOk(c) && Books(c, s, acked, stream) && !s.closed && !s.stale
    ensures var r := Noted(c, s);
      && Books(c, r, acked, stream + Mark(c, s)) && s.pending <= r.pending && SameSwitches(s, r)
      && r.buffered == s.buffered + |Mark(c, s)| && r.dropped == if Mark(c, s) == [] then s.dropped else 0
  {
    if s.dropped > 0 && s.buffered < c.maxBuffered {
      AppendBooks(c, s, Marker(s.dropped), acked, stream);
    } else {
      assert stream + [] == stream;
    }
  }

  /** Counting lost bytes does not disturb the books. */
  lemma CountBooks(c: ShipConfig, s: Ship, n: nat, acked: seq<Chunk>, stream: Bytes)
    requires Books(c, s, acked, stream)
    ensures Books(c, s.(dropped := n), acked, stream)
  {}

  lemma RetainBooks(c: ShipConfig, s: Ship, p: Bytes, k: nat, acked: seq<Chunk>, stream: Bytes, mark: Bytes)
    requires ConfigOk(c) && Books(c, s, acked, stream + mark) && k <= |p|
    ensures var r := Retain(c, s, p, k);
      && Books(c, r, acked, stream + (mark + p[..k])) && |r.cur| < c.flushBytes && s.pending <= r.pending
         && SameSwitches(s, r)
      && r.buffered == s.buffered + k && r.dropped == s.dropped + |p| - k
  {
    var s2 := s.(dropped := s.dropped + (|p| - k));
    CountBooks(c, s, s2.dropped, acked, stream + mark);
    AppendBooks(c, s2, p[..k], acked, stream + mark);
    JoinBytes(stream, mark, p[..k]);
  }

  lemma WriteOpenBooks(c: ShipConfig, s: Ship, p: Bytes, acked: seq<Chunk>, stream: Bytes)
    requires ConfigOk(c) && Books(c, s, acked, stream) && !s.closed && !s.stale && s.buffered < c.maxBuffered
    ensures var r, k := WriteTo(c, s, p).0, Kept(c, s, |p|);
      && Books(c, r, acked, stream + Contribution(c, s, p)) && |r.cur| < c.flushBytes
      && s.pending <= r.pending && SameSwitches(s, r)
      && r.buffered == s.buffered + |Mark(c, s)| + k
      && r.dropped == (if Mark(c, s) == [] then s.dropped else 0) + |p| - k
  {
    NotedBooks(c, s, acked, stream);
    RetainBooks(c, Noted(c, s), p, Kept(c, s, |p|), acked, stream, Mark(c, s));
  }

  /**
   A write keeps the books: the stream grows by the marker and the retained bytes; while the shipper is
   open every offered byte is either retained or counted as dropped; and a write takes the buffer past
   its cap by at most one marker.
   */
  lemma WriteBooks(c: ShipConfig, s: Ship, p: Bytes, acked: seq<Chunk>, stream: Bytes)
    requires ConfigOk(c) && Books(c, s, acked, stream)
    ensures var r := WriteTo(c, s, p).0;
      && Books(c, r, acked, stream + Contribution(c, s, p)) && (|s.cur| < c.flushBytes ==> |r.cur| < c.flushBytes)
      && s.pending <= r.pending && SameSwitches(s, r)
      && (!s.closed && !s.stale ==> |p| == Kept(c, s, |p|) + r.dropped - if Mark(c, s) == [] then s.dropped else 0)
      && (r.buffered == s.buffered || r.buffered <= c.maxBuffered + |Mark(c, s)|)
      && (s.closed || s.stale ==> r == s)
  {
    if !s.closed && !s.stale && s.buffered < c.maxBuffered {
      WriteOpenBooks(c, s, p, acked, stream);
    } else {
      assert stream + Contribution(c, s, p) == stream;
      CountBooks(c, s, WriteTo(c, s, p).0.dropped, acked, stream);
    }
  }

  /**
   What a write adds, in bytes: if bytes were dropped before and there is room again, a line that says how many;
   then the first bytes of the write, as many as there was room for.
   */
  lemma WriteAdds(c: ShipConfig, s: Ship, p: Bytes, acked: seq<Chunk>, stream: Bytes)
    requires ConfigOk(c) && Books(c, s, acked, stream) && !s.closed && !s.stale
    ensures var r, room := WriteTo(c, s, p).0, c.maxBuffered - s.buffered;
      if room <= 0 then r == s.(dropped := s.dropped + |p|)
      else
        var note := if s.dropped == 0 then []
                    else Ascii("[quarry] log shipper dropped ") + Digits(s.dropped) + Ascii(" bytes\n");
        var kept := if |p| <= room then p else p[..room];
        && Books(c, r, acked, stream + (note + kept)) && r.dropped == |p| - |kept|
        && r.buffered == s.buffered + |note| + |kept|
  {
    if s.buffered < c.maxBuffered {
      WriteOpenBooks(c, s, p, acked, stream);
      var k := Kept(c, s, |p|);
      if k == |p| { assert p[..k] == p; }
      MarkerLines(s.dropped);
    }
  }

  lemma MarkerLines(n: nat)
    ensures Marker(n) == Ascii("[quarry] log shipper dropped ") + Digits(n) + Ascii(" bytes\n") && Marker(n) != []
  {}

  /**
   The count a write reports. The documentation promises the whole of `p`; the code reports less exactly
   when the shipper is open and the buffer has some room but not enough.
   */
  lemma WriteReports(c: ShipConfig, s: Ship, p: Bytes)
    requires ConfigOk(c)
    ensures WriteTo(c, s, p).1 == |p| <==> !(!s.closed && !s.stale && 0 < c.maxBuffered - s.buffered < |p|)
    ensures WriteTo(c, s, p).1 != |p| ==> WriteTo(c, s, p).1 == c.maxBuffered - s.buffered == Kept(c, s, |p|)
  {}

  /** It does happen: three bytes written into room for two are reported as two. */
  lemma WriteMayReportLess()
    ensures exists c: ShipConfig, p: Bytes :: ConfigOk(c) && WriteTo(c, EMPTY, p).1 != |p|
  {
    var c, p: Bytes := ShipConfig(1, 1, 2), [1, 2, 3];
    WriteReports(c, EMPTY, p);
    assert ConfigOk(c) && WriteTo(c, EMPTY, p).1 != |p|;
  }

  lemma SealedBooks(c: ShipConfig, s: Ship, acked: seq<Chunk>, stream: Bytes)
    requires Books(c, s, acked, stream) && |s.cur| <= c.flushBytes
    ensures Books(c, Sealed(s), acked, stream) && Sealed(s).cur == [] && s.pending <= Sealed(s).pending
    ensures Concat(acked + Sealed(s).pending) == stream
  {
    if |s.cur| > 0 { SealBooks(c, s, |s.cur|, acked, stream); }
  }

  lemma JoinChunks(a: seq<Chunk>, b: seq<Chunk>, c: seq<Chunk>)
    ensures a + b + c == a + (b + c)
  {}

  lemma AckConcat(pending: seq<Chunk>, n: nat)
    requires n <= |pending|
    ensures |Concat(pending)| == |Concat(pending[..n])| + |Concat(pending[n..])|
  {
    assert pending == pending[..n] + pending[n..];
    ConcatSplit(pending[..n], pending[n..]);
  }

  lemma AckBooks(c: ShipConfig, s: Ship, n: nat, acked: seq<Chunk>, stream: Bytes)
    requires Books(c, s, acked, stream) && n <= |s.pending|
    ensures Books(c, Ack(s, n), acked + s.pending[..n], stream)
  {
    AckConcat(s.pending, n);
    JoinChunks(acked, s.pending[..n], s.pending[n..]);
    assert s.pending[..n] + s.pending[n..] == s.pending;
  }

  // Batches.

  lemma {:induction false} BatchBound(pending: seq<Chunk>, max: int, n: nat)
    requires n <= |pending| && (forall i :: 0 <= i < |pending| ==> |pending[i].data| <= max)
      && |Concat(pending[..n])| <= max
    ensures |Concat(pending[..BatchLen(pending, max, n)])| <= max
    decreases |pending| - n
  {
    if n < |pending| && (n == 0 || |Concat(pending[..n])| + |pending[n].data| <= max) {
      assert pending[..n + 1] == pending[..n] + [pending[n]];
      ConcatLast(pending[..n], pending[n]);
      BatchBound(pending, max, n + 1);
    }
  }

  /** One post never exceeds its bound, and is empty only when nothing is pending. */
  lemma BatchFits(c: ShipConfig, s: Ship, acked: seq<Chunk>, stream: Bytes)
    requires ConfigOk(c) && Books(c, s, acked, stream)
    ensures |Concat(Batch(c, s))| <= c.maxPostBytes
    ensures Batch(c, s) == [] <==> s.pending == []
  {
    assert s.pending[..0] == [];
    BatchBound(s.pending, c.maxPostBytes, 0);
  }

  /** On a longer list the batch loop gets at least as far, and goes on from there. */
  lemma {:induction false} BatchReaches(p: seq<Chunk>, q: seq<Chunk>, max: int, n: nat)
    requires p <= q && n <= |p|
    ensures BatchLen(q, max, n) == BatchLen(q, max, BatchLen(p, max, n))
    decreases |p| - n
  {
    assert p[..n] == q[..n];
    if n < |p| && (n == 0 || |Concat(p[..n])| + |p[n].data| <= max) { BatchReaches(p, q, max, n + 1); }
  }

  /**
   Until it is acknowledged, every later batch extends an earlier one: a retry repeats the same chunks, perhaps
   followed by new ones.
   */
  lemma RetryExtends(c: ShipConfig, s: Ship, s': Ship)
    requires s.pending <= s'.pending
    ensures Batch(c, s) <= Batch(c, s')
  {
    BatchReaches(s.pending, s'.pending, c.maxPostBytes, 0);
  }

  /** The batch loop stops after the first `k` chunks: there are no more, or the next one does not fit. */
  predicate StopsAfter(c: ShipConfig, pending: seq<Chunk>, k: nat)
    requires k <= |pending|
  {
    k == |pending| || (k > 0 && |Concat(pending[..k])| + |pending[k].data| > c.maxPostBytes)
  }

  /** The retry is the identical batch exactly when the loop still stops where it stopped before. */
  lemma RetrySameIff(c: ShipConfig, s: Ship, s': Ship)
    requires s.pending <= s'.pending
    ensures Batch(c, s') == Batch(c, s) <==> StopsAfter(c, s'.pending, |Batch(c, s)|)
  {
    BatchReaches(s.pending, s'.pending, c.maxPostBytes, 0);
    var k := |Batch(c, s)|;
    assert s'.pending[..k] == s.pending[..k];
  }

  /** A retry need not be identical: output written meanwhile joins it. */
  lemma RetryMayDiffer()
    ensures exists c: ShipConfig, s: Ship, p: Bytes ::
      ConfigOk(c) && Books(c, s, [], Concat(s.pending)) && s.cur == [] && Batch(c, s) != []
        && Batch(c, s) != Batch(c, Sealed(WriteTo(c, s, p).0))
  {
    var c := ShipConfig(2, 4, 100);
    var one: Bytes := [1];
    var s := EMPTY.(pending := [Chunk(1, one)], buffered := 1, nextSeq := 2);
    assert Concat([Chunk(1, one)]) == one by {
      ConcatLast([], Chunk(1, one));
      assert [] + [Chunk(1, one)] == [Chunk(1, one)];
    }
    assert [] + s.pending == s.pending;
    assert Books(c, s, [], Concat(s.pending));
    var s' := Sealed(WriteTo(c, s, one).0);
    assert s'.pending == [Chunk(1, one), Chunk(2, one)];
    assert s.pending[..0] == [] && s'.pending[..0] == [] && s'.pending[..1] == s.pending && s.pending[..1] == s.pending;
    assert BatchLen(s.pending, 4, 0) == 1 by { assert BatchLen(s.pending, 4, 1) == 1; }
    assert BatchLen(s'.pending, 4, 0) == 2 by {
      assert BatchLen(s'.pending, 4, 1) == 2 by { assert BatchLen(s'.pending, 4, 2) == 2; }
    }
    assert |Batch(c, s)| == 1 && |Batch(c, s')| == 2;
  }

  lemma {:induction false} NonemptyChunks(cs: seq<Chunk>)
    requires forall i :: 0 <= i < |cs| ==> 0 < |cs[i].data|
    ensures |Concat(cs)| >= |cs|
  {
    if cs != [] { NonemptyChunks(cs[..|cs| - 1]); }
  }

  /** Closing cleanly means everything accepted was acknowledged and nothing was lost unnoted. */
  lemma CleanCloseMeansDelivered(c: ShipConfig, s: Ship, acked: seq<Chunk>, stream: Bytes)
    requires Books(c, s, acked, stream) && CloseVerdict(s).ClosedOk?
    ensures Concat(acked) == stream && s.pending == [] && s.dropped == 0 && !s.stale && !s.rejected
  {
    NonemptyChunks(s.pending);
    assert acked + [] == acked;
  }

  /**
   What closing says, on the stream: stale or rejected if that happened; else how many accepted bytes were not
   acknowledged; else how many bytes were dropped without a note; and clean exactly if there is nothing to say.
   */
  lemma CloseTells(c: ShipConfig, s: Ship, acked: seq<Chunk>, stream: Bytes)
    requires Books(c, s, acked, stream)
    ensures var v, lost := CloseVerdict(s), |stream| - |Concat(acked)|;
      && lost >= 0 && (lost == 0 <==> Concat(acked) == stream)
      && (v.ClosedStale? <==> s.stale)
      && (v.ClosedRejected? <==> !s.stale && s.rejected)
      && (v.ClosedUnsent? <==> !s.stale && !s.rejected && lost > 0) && (v.ClosedUnsent? ==> v.bytes == lost)
      && (v.ClosedDropped? <==> !s.stale && !s.rejected && lost == 0 && s.dropped > 0)
      && (v.ClosedDropped? ==> v.bytes == s.dropped)
      && (v.ClosedOk? <==> !s.stale && !s.rejected && lost == 0 && s.dropped == 0)
  {
    ConcatSplit(acked, s.pending);
    JoinBytes(Concat(acked), Concat(s.pending), s.cur);
    var rest := Concat(s.pending) + s.cur;
    assert stream == Concat(acked) + rest && |rest| == s.buffered;
    if rest == [] { assert stream == Concat(acked); }
  }

  // Draining.

  /** How the sink answers one send. */
  datatype Outcome = Sent | Stale | Rejected | Failed

  /**
   The flush loop against a sink that answers `outcomes` in turn; the context ends when they run out.
   A failed send is retried; a rejected batch is given up. The second result is every batch sent.
   */
  function DrainTo(c: ShipConfig, s: Ship, outcomes: seq<Outcome>): (Ship, seq<seq<Chunk>>)
    decreases |outcomes|
  {
    if outcomes == [] then (s, [])
    else
      var s1 := Sealed(s);
      var batch := Batch(c, s1);
      if batch == [] then (s1, [])
      else
        match outcomes[0]
        case Sent => Onward(DrainTo(c, Ack(s1, |batch|), outcomes[1..]), [batch])
        case Stale => (GoneStale(s1), [batch])
        case Rejected => Onward(DrainTo(c, Ack(s1, |batch|).(rejected := true), outcomes[1..]), [batch])
        case Failed => Onward(DrainTo(c, s1, outcomes[1..]), [batch])
  }

  /** The shipper after the answer to a post of `k` chunks. */
  function Answered(s: Ship, k: nat, o: Outcome): Ship
    requires k <= |s.pending|
  {
    match o
    case Sent => Ack(s, k)
    case Rejected => Ack(s, k).(rejected := true)
    case Stale => GoneStale(s)
    case Failed => s
  }

  lemma DrainToFirst(c: ShipConfig, s: Ship, outcomes: seq<Outcome>)
    requires outcomes != [] && Batch(c, Sealed(s)) != []
    ensures var s1 := Sealed(s); var batch := Batch(c, s1); var s' := Answered(s1, |batch|, outcomes[0]);
      DrainTo(c, s, outcomes) == if outcomes[0].Stale? then (s', [batch])
        else Onward(DrainTo(c, s', outcomes[1..]), [batch])
  {}

  /** A drain's result with the batches sent before it. */
  function Onward(d: (Ship, seq<seq<Chunk>>), before: seq<seq<Chunk>>): (Ship, seq<seq<Chunk>>) { (d.0, before + d.1) }

  lemma OnwardJoins(d: (Ship, seq<seq<Chunk>>), a: seq<seq<Chunk>>, b: seq<seq<Chunk>>)
    ensures Onward(d, []) == d && Onward(Onward(d, b), a) == Onward(d, a + b)
  {
    assert [] + d.1 == d.1 && a + (b + d.1) == a + b + d.1;
  }

  /** Sealing and acknowledging keep the unsealed rest within one chunk. */
  ghost predicate Tidy(c: ShipConfig, s: Ship, acked: seq<Chunk>, stream: Bytes) {
    ConfigOk(c) && Books(c, s, acked, stream) && |s.cur| < c.flushBytes
  }

  /** Every post is a non-empty batch within the bound. */
  ghost predicate Posts(c: ShipConfig, sent: seq<seq<Chunk>>) {
    forall i :: 0 <= i < |sent| ==> sent[i] != [] && |Concat(sent[i])| <= c.maxPostBytes
  }

  lemma PostsOn(c: ShipConfig, batch: seq<Chunk>, sent: seq<seq<Chunk>>)
    requires Posts(c, sent) && batch != [] && |Concat(batch)| <= c.maxPostBytes
    ensures Posts(c, [batch] + sent)
  {}

  lemma SealedTidy(c: ShipConfig, s: Ship, acked: seq<Chunk>, stream: Bytes)
    requires Tidy(c, s, acked, stream)
    ensures Tidy(c, Sealed(s), acked, stream) && SameSwitches(s, Sealed(s)) && Sealed(s).dropped == s.dropped
  {
    SealedBooks(c, s, acked, stream);
  }

  lemma AckTidy(c: ShipConfig, s: Ship, n: nat, acked: seq<Chunk>, stream: Bytes)
    requires Tidy(c, s, acked, stream) && n <= |s.pending|
    ensures Tidy(c, Ack(s, n), acked + s.pending[..n], stream)
  {
    AckBooks(c, s, n, acked, stream);
  }

  lemma RejectedTidy(c: ShipConfig, s: Ship, acked: seq<Chunk>, stream: Bytes)
    requires Tidy(c, s, acked, stream)
    ensures Tidy(c, s.(rejected := true), acked, stream)
  {}

  lemma TakeTidy(c: ShipConfig, s: Ship, acked: seq<Chunk>, stream: Bytes, s1: Ship, batch: seq<Chunk>)
    requires Tidy(c, s, acked, stream) && s1 == Sealed(s) && batch == Batch(c, s1)
    ensures Tidy(c, s1, acked, stream) && SameSwitches(s, s1) && s1.dropped == s.dropped
    ensures |Concat(batch)| <= c.maxPostBytes && (batch == [] <==> s1.pending == [])
    ensures Tidy(c, Ack(s1, |batch|), acked + batch, stream)
    ensures Tidy(c, Ack(s1, |batch|).(rejected := true), acked + batch, stream)
  {
    SealedTidy(c, s, acked, stream);
    BatchFits(c, s1, acked, stream);
    AckTidy(c, s1, |batch|, acked, stream);
    RejectedTidy(c, Ack(s1, |batch|), acked + batch, stream);
  }

  /** What the answers let the shipper forget of what it sent: the batches accepted, and those given up. */
  function Forgotten(sent: seq<seq<Chunk>>, outcomes: seq<Outcome>): seq<Chunk> {
    if sent == [] || outcomes == [] then []
    else (if outcomes[0].Sent? || outcomes[0].Rejected? then sent[0] else []) + Forgotten(sent[1..], outcomes[1..])
  }

  lemma ForgottenFirst(acked: seq<Chunk>, batch: seq<Chunk>, rest: seq<seq<Chunk>>, outcomes: seq<Outcome>)
    requires outcomes != []
    ensures var kept := if outcomes[0].Sent? || outcomes[0].Rejected? then acked + batch else acked;
      acked + Forgotten([batch] + rest, outcomes) == kept + Forgotten(rest, outcomes[1..])
  {
    assert ([batch] + rest)[0] == batch && ([batch] + rest)[1..] == rest;
    JoinChunks(acked, batch, Forgotten(rest, outcomes[1..]));
    NothingJoined(Forgotten(rest, outcomes[1..]));
  }

  lemma NothingJoined(a: seq<Chunk>)
    ensures [] + a == a
  {}

  /**
   A drain's result: every batch sent fits one post and, unless it went stale, exactly the batches answered
   with acceptance or rejection have been forgotten and the books still balance.
   */
  ghost predicate Balanced(
      c: ShipConfig, dropped: nat, acked: seq<Chunk>, outcomes: seq<Outcome>, stream: Bytes,
      d: (Ship, seq<seq<Chunk>>))
  {
    && Posts(c, d.1)
    && (!d.0.stale ==> Tidy(c, d.0, acked + Forgotten(d.1, outcomes), stream) && d.0.dropped == dropped)
  }

  lemma NothingSent(c: ShipConfig, s: Ship, acked: seq<Chunk>, outcomes: seq<Outcome>, stream: Bytes)
    requires Tidy(c, s, acked, stream)
    ensures Balanced(c, s.dropped, acked, outcomes, stream, (s, []))
  {
    assert acked + [] == acked;
  }

  lemma SentStale(c: ShipConfig, s: Ship, acked: seq<Chunk>, outcomes: seq<Outcome>, stream: Bytes, batch: seq<Chunk>)
    requires batch != [] && |Concat(batch)| <= c.maxPostBytes
    ensures Balanced(c, s.dropped, acked, outcomes, stream, (GoneStale(s), [batch]))
  {}

  /** Draining against any sink keeps the balance. */
  lemma {:induction false} DrainBooks(c: ShipConfig, s: Ship, outcomes: seq<Outcome>, acked: seq<Chunk>, stream: Bytes)
    requires Tidy(c, s, acked, stream) && !s.stale
    ensures Balanced(c, s.dropped, acked, outcomes, stream, DrainTo(c, s, outcomes))
    decreases |outcomes|
  {
    var s1 := Sealed(s);
    var batch := Batch(c, s1);
    TakeTidy(c, s, acked, stream, s1, batch);
    if outcomes == [] {
      NothingSent(c, s, acked, outcomes, stream);
    } else if batch == [] {
      NothingSent(c, s1, acked, outcomes, stream);
    } else {
      match outcomes[0] {
        case Sent => DrainOn(c, Ack(s1, |batch|), outcomes, acked, acked + batch, batch, stream);
        case Rejected =>
          DrainOn(c, Ack(s1, |batch|).(rejected := true), outcomes, acked, acked + batch, batch, stream);
        case Failed => DrainOn(c, s1, outcomes, acked, acked, batch, stream);
        case Stale => SentStale(c, s1, acked, outcomes, stream, batch);
      }
    }
  }

  /** The drain after its first post was answered and `kept` is what has been forgotten. */
  lemma {:induction false} DrainOn(
      c: ShipConfig, s: Ship, outcomes: seq<Outcome>, acked: seq<Chunk>, kept: seq<Chunk>, batch: seq<Chunk>,
      stream: Bytes)
    requires Tidy(c, s, kept, stream) && !s.stale && outcomes != [] && batch != [] && |Concat(batch)| <= c.maxPostBytes
    requires kept == if outcomes[0].Sent? || outcomes[0].Rejected? then acked + batch else acked
    ensures Balanced(c, s.dropped, acked, outcomes, stream, Onward(DrainTo(c, s, outcomes[1..]), [batch]))
    decreases |outcomes|, 0
  {
    var sent := DrainTo(c, s, outcomes[1..]).1;
    DrainBooks(c, s, outcomes[1..], kept, stream);
    PostsOn(c, batch, sent);
    ForgottenFirst(acked, batch, sent, outcomes);
  }

  /** The answers that settle a batch: accepted, or rejected for good. */
  function Settling(outcomes: seq<Outcome>): nat {
    if outcomes == [] then 0
      else (if outcomes[0].Sent? || outcomes[0].Rejected? then 1 else 0) + Settling(outcomes[1..])
  }

  /** Nothing left to send. */
  predicate Emptied(s: Ship, r: Ship) {
    && r.pending == [] && r.cur == [] && r.buffered == 0 && r.dropped == s.dropped && r.closed == s.closed
    && r.stale == s.stale
  }

  /** After an answer that settles its batch there is less to send; after any other, as much. */
  lemma AnswerLeaves(c: ShipConfig, s: Ship, acked: seq<Chunk>, stream: Bytes, s1: Ship, batch: seq<Chunk>, o: Outcome)
    returns (acked': seq<Chunk>)
    requires Tidy(c, s, acked, stream) && s1 == Sealed(s) && batch == Batch(c, s1) && batch != [] && !o.Stale?
    ensures var t := Answered(s1, |batch|, o);
      && Tidy(c, t, acked', stream) && t.dropped == s.dropped && t.closed == s.closed && t.stale == s.stale
      && |Sealed(t).pending| <= |s1.pending| - if o.Sent? || o.Rejected? then 1 else 0
  {
    TakeTidy(c, s, acked, stream, s1, batch);
    acked' := if o.Failed? then acked else acked + batch;
    assert s1.cur == [];
  }

  /**
   Failures only delay: a sink that answers enough batches, with any number of transient failures in between,
   empties the buffer.
   */
  lemma {:induction false} HealthyDrainEmpties(
      c: ShipConfig, s: Ship, outcomes: seq<Outcome>, acked: seq<Chunk>, stream: Bytes)
    requires Tidy(c, s, acked, stream) && (forall i :: 0 <= i < |outcomes| ==> !outcomes[i].Stale?)
    requires Settling(outcomes) >= |Sealed(s).pending|
    ensures Emptied(s, DrainTo(c, s, outcomes).0)
    decreases |outcomes|
  {
    var s1 := Sealed(s);
    var batch := Batch(c, s1);
    if batch == [] {
      TakeTidy(c, s, acked, stream, s1, batch);
      EmptyIsEmptied(c, s, outcomes, acked, stream, s1);
    } else {
      var acked' := AnswerLeaves(c, s, acked, stream, s1, batch, outcomes[0]);
      DrainToFirst(c, s, outcomes);
      HealthyDrainEmpties(c, Answered(s1, |batch|, outcomes[0]), outcomes[1..], acked', stream);
    }
  }

  lemma EmptyIsEmptied(c: ShipConfig, s: Ship, outcomes: seq<Outcome>, acked: seq<Chunk>, stream: Bytes, s1: Ship)
    requires Tidy(c, s, acked, stream) && Tidy(c, s1, acked, stream) && s1 == Sealed(s) && s1.pending == []
    ensures Emptied(s, DrainTo(c, s, outcomes).0)
  {
    assert Concat([]) == [];
  }

  ghost predicate Among(outcomes: seq<Outcome>, n: nat, o: Outcome)
    requires n <= |outcomes|
  {
    exists i :: 0 <= i < n && outcomes[i] == o
  }

  lemma AmongFirst(outcomes: seq<Outcome>, n: nat, o: Outcome)
    requires outcomes != [] && n < |outcomes|
    ensures Among(outcomes, n + 1, o) <==> outcomes[0] == o || Among(outcomes[1..], n, o)
  {
    if Among(outcomes, n + 1, o) {
      var i :| 0 <= i < n + 1 && outcomes[i] == o;
      if i > 0 { assert outcomes[1..][i - 1] == o; }
    }
    if Among(outcomes[1..], n, o) {
      var i :| 0 <= i < n && outcomes[1..][i] == o;
      assert outcomes[i + 1] == o;
    }
  }

  /** One answer per post; a rejection or a refusal among them is remembered, and nothing else is. */
  lemma {:induction false} DrainRemembers(c: ShipConfig, s: Ship, outcomes: seq<Outcome>)
    ensures var (r, sent) := DrainTo(c, s, outcomes);
      && |sent| <= |outcomes| && r.closed == s.closed
      && (r.rejected <==> s.rejected || Among(outcomes, |sent|, Rejected))
      && (r.stale <==> s.stale || Among(outcomes, |sent|, Stale))
    decreases |outcomes|
  {
    var s1 := Sealed(s);
    var batch := Batch(c, s1);
    if outcomes != [] && batch != [] {
      var t := match outcomes[0]
        case Sent => Ack(s1, |batch|)
        case Rejected => Ack(s1, |batch|).(rejected := true)
        case Failed => s1
        case Stale => GoneStale(s1);
      if outcomes[0].Stale? {
        AmongFirst(outcomes, 0, Rejected);
        AmongFirst(outcomes, 0, Stale);
      } else {
        DrainRemembers(c, t, outcomes[1..]);
        var n := |DrainTo(c, t, outcomes[1..]).1|;
        AmongFirst(outcomes, n, Rejected);
        AmongFirst(outcomes, n, Stale);
      }
    }
  }

  /** The shipper itself. */
  class Shipper {
    const c: ShipConfig
    var cur: Bytes
    var pending: seq<Chunk>
    var buffered: int
    var dropped: nat
    var nextSeq: int
    var closed: bool
    var stale: bool
    var rejected: bool
    const watched: bool  // an OnStale callback was given
    var staleOnce: bool
    var notices: nat     // calls of OnStale

    ghost function View(): Ship
      reads this
    {
      Ship(cur, pending, buffered, dropped, nextSeq, closed, stale, rejected)
    }

    /** OnStale has been called once if the attempt went stale, and not before. */
    ghost predicate Notified()
      reads this
    {
      staleOnce == stale && notices == if stale && watched then 1 else 0
    }

    constructor (config: ShipConfig, onStale: bool)
      ensures ConfigOk(c) && c == WithShipDefaults(config) && View() == EMPTY && watched == onStale && Notified()
      ensures Books(c, View(), [], [])
    {
      c := WithShipDefaults(config);
      cur, pending, buffered, dropped, nextSeq := [], [], 0, 0, 1;
      closed, stale, rejected := false, false, false;
      watched, staleOnce, notices := onStale, false, 0;
    }

    method SealFirst(n: nat)
      requires n <= |cur|
      modifies `cur, `pending, `nextSeq
      ensures View() == Seal(old(View()), n)
    {
      var data := cur[..n];
      cur := cur[n..];
      pending := pending + [Chunk(nextSeq, data)];
      nextSeq := nextSeq + 1;
    }

    method AppendBytes(p: Bytes)
      requires ConfigOk(c)
      modifies `cur, `pending, `nextSeq, `buffered
      ensures View() == Append(c, old(View()), p)
    {
      cur := cur + p;
      buffered := buffered + |p|;
      while |cur| >= c.flushBytes
        invariant SealFull(c, View()) == Append(c, old(View()), p)
        decreases |cur|
      {
        SealFirst(c.flushBytes);
      }
    }

    method Write(p: Bytes) returns (n: nat)
      requires ConfigOk(c)
      modifies `cur, `pending, `nextSeq, `buffered, `dropped
      ensures (View(), n) == WriteTo(c, old(View()), p)
    {
      if closed || stale { return |p|; }
      var room := c.maxBuffered - buffered;
      if dropped > 0 && room > 0 {
        AppendBytes(Marker(dropped));
        dropped := 0;
      }
      if room <= 0 {
        dropped := dropped + |p|;
        return |p|;
      }
      var kept := p;
      if |p| > room {
        dropped := dropped + (|p| - room);
        kept := p[..room];
      }
      assert kept == p[..Kept(c, old(View()), |p|)];
      AppendBytes(kept);
      n := |kept|;
    }

    method Take() returns (batch: seq<Chunk>)
      modifies `cur, `pending, `nextSeq
      ensures View() == Sealed(old(View())) && batch == Batch(c, View())
    {
      if |cur| > 0 { SealFirst(|cur|); }
      var ready, n, size := pending, 0, 0;
      while n < |ready| && (n == 0 || size + |ready[n].data| <= c.maxPostBytes)
        invariant n <= |ready| && size == |Concat(ready[..n])|
        invariant View() == Sealed(old(View())) && pending == ready
        invariant BatchLen(ready, c.maxPostBytes, n) == BatchLen(ready, c.maxPostBytes, 0)
      {
        assert ready[..n + 1] == ready[..n] + [ready[n]];
        ConcatLast(ready[..n], ready[n]);
        size := size + |ready[n].data|;
        n := n + 1;
      }
      batch := ready[..n];
    }

    method Acknowledge(n: nat)
      requires n <= |pending|
      modifies `pending, `buffered
      ensures View() == Ack(old(View()), n)
    {
      var i := 0;
      while i < n
        invariant i <= n && View() == old(View()).(buffered := old(buffered) - |Concat(old(pending)[..i])|)
      {
        assert pending[..i + 1] == pending[..i] + [pending[i]];
        ConcatLast(pending[..i], pending[i]);
        buffered := buffered - |pending[i].data|;
        i := i + 1;
      }
      pending := pending[n..];
    }

    method MarkStale()
      requires Notified()
      modifies this
      ensures View() == GoneStale(old(View())) && Notified()
    {
      stale := true;
      cur, pending, buffered, dropped := [], [], 0, 0;
      if !staleOnce {
        staleOnce := true;
        if watched { notices := notices + 1; }
      }
    }

    method Drain(outcomes: seq<Outcome>) returns (sent: seq<seq<Chunk>>)
      requires Notified()
      modifies this
      ensures (View(), sent) == DrainTo(c, old(View()), outcomes) && closed == old(closed) && Notified()
    {
      sent := [];
      var i := 0;
      assert outcomes[0..] == outcomes;
      OnwardJoins(DrainTo(c, View(), outcomes), [], []);
      while i < |outcomes|
        invariant i <= |outcomes| && closed == old(closed) && Notified()
        invariant Onward(DrainTo(c, View(), outcomes[i..]), sent) == DrainTo(c, old(View()), outcomes)
      {
        ghost var s, before := View(), sent;
        var batch := Take();
        if batch == [] {
          assert DrainTo(c, s, outcomes[i..]) == (View(), []);
          assert sent + [] == sent;
          return;
        }
        assert outcomes[i..][0] == outcomes[i] && outcomes[i..][1..] == outcomes[i + 1..];
        sent := sent + [batch];
        match outcomes[i] {
          case Sent => Acknowledge(|batch|);
          case Stale =>
            MarkStale();
            assert DrainTo(c, s, outcomes[i..]) == (View(), [batch]);
            return;
          case Rejected => Acknowledge(|batch|); rejected := true;
          case Failed =>
        }
        assert DrainTo(c, s, outcomes[i..]) == Onward(DrainTo(c, View(), outcomes[i + 1..]), [batch]);
        OnwardJoins(DrainTo(c, View(), outcomes[i + 1..]), before, [batch]);
        i := i + 1;
      }
      assert sent + [] == sent;
    }

    /** Closing flushes what is left, once, and reports what became of the stream. */
    method Close(outcomes: seq<Outcome>) returns (verdict: CloseResult)
      requires Notified()
      modifies this
      ensures closed && Notified()
      ensures View() == if old(closed) then old(View()) else DrainTo(c, old(View()).(closed := true), outcomes).0
      ensures verdict == CloseVerdict(View())
    {
      if !closed {
        closed := true;
        var _ := Drain(outcomes);
      }
      verdict := if stale then ClosedStale
      else if rejected then ClosedRejected
      else if buffered > 0 then ClosedUnsent(buffered)
      else if dropped > 0 then ClosedDropped(dropped)
      else ClosedOk;
    }
  }
}
