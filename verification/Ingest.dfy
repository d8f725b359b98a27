/**
 The server's log table for one attempt: insert-or-ignore on the chunk number, under a byte cap.
 `rows` is the table in insertion order.
 */
module Ingest {
  import opened Model

  predicate Has(rows: seq<Chunk>, no: int) { exists i :: 0 <= i < |rows| && rows[i].no == no }

  /** The numbers are distinct, as the table's key makes them. */
  ghost predicate Keyed(rows: seq<Chunk>) { forall i, k :: 0 <= i < k < |rows| ==> rows[i].no != rows[k].no }

  function Concat(rows: seq<Chunk>): Bytes {
    if rows == [] then [] else Concat(rows[..|rows| - 1]) + rows[|rows| - 1].data
  }

  /** What fits of `data` when `room` bytes are left; a negative room is no room. */
  function Clip(data: Bytes, room: int): Bytes {
    if |data| <= room then data else if room <= 0 then [] else data[..room]
  }

  /** One chunk against the table: a known number is ignored, a new one is cut to fit and stored. */
  function Put(rows: seq<Chunk>, cap: nat, c: Chunk): seq<Chunk> {
    if Has(rows, c.no) then rows else rows + [Chunk(c.no, Clip(c.data, cap - |Concat(rows)|))]
  }

  predicate PutLoses(rows: seq<Chunk>, cap: nat, c: Chunk) {
    !Has(rows, c.no) && |Concat(rows)| + |c.data| > cap && c.data != []
  }

  /** A batch, chunk by chunk. */
  function Absorb(rows: seq<Chunk>, cap: nat, cs: seq<Chunk>): seq<Chunk> {
    if cs == [] then rows else Put(Absorb(rows, cap, cs[..|cs| - 1]), cap, cs[|cs| - 1])
  }

  /** Whether storing the batch cut any chunk. */
  predicate Loses(rows: seq<Chunk>, cap: nat, cs: seq<Chunk>) {
    cs != [] && (Loses(rows, cap, cs[..|cs| - 1]) || PutLoses(Absorb(rows, cap, cs[..|cs| - 1]), cap, cs[|cs| - 1]))
  }

  // The reference: the first delivery of every number, cut cumulatively at the cap.

  /** The deliveries that are the first of their number, in order of arrival. */
  function Firsts(cs: seq<Chunk>): seq<Chunk> {
    if cs == [] then []
    else
      var f := Firsts(cs[..|cs| - 1]);
      if Has(f, cs[|cs| - 1].no) then f else f + [cs[|cs| - 1]]
  }

  /** `cs` with every chunk cut where the running total passes `cap`. */
  function Capped(cap: nat, cs: seq<Chunk>): (r: seq<Chunk>)
    ensures |r| == |cs| && forall i :: 0 <= i < |cs| ==> r[i].no == cs[i].no
  {
    if cs == [] then []
    else
      var front := cs[..|cs| - 1];
      Capped(cap, front) + [Chunk(cs[|cs| - 1].no, Clip(cs[|cs| - 1].data, cap - |Concat(front)|))]
  }

  function Min(a: nat, b: nat): nat { if a < b then a else b }

  lemma ClipJoins(cap: nat, a: Bytes, b: Bytes)
    ensures a[..Min(cap, |a|)] + Clip(b, cap - |a|) == (a + b)[..Min(cap, |a + b|)]
  {}

  /** Cutting chunk by chunk keeps exactly the first `cap` bytes of the whole. */
  lemma {:induction false} CappedConcat(cap: nat, cs: seq<Chunk>)
    ensures Concat(Capped(cap, cs)) == Concat(cs)[..Min(cap, |Concat(cs)|)]
  {
    if cs != [] {
      var front, last := cs[..|cs| - 1], cs[|cs| - 1];
      CappedConcat(cap, front);
      var r := Capped(cap, cs);
      assert r[..|r| - 1] == Capped(cap, front);
      ClipJoins(cap, Concat(front), last.data);
    }
  }

  /** Every stored chunk is a prefix of the delivery it came from. */
  lemma {:induction false} CappedIsPrefix(cap: nat, cs: seq<Chunk>, i: nat)
    requires i < |cs|
    ensures Capped(cap, cs)[i].data <= cs[i].data
  {
    if i < |cs| - 1 { CappedIsPrefix(cap, cs[..|cs| - 1], i); }
  }

  lemma {:induction false} CappedHas(cap: nat, cs: seq<Chunk>, no: int)
    ensures Has(Capped(cap, cs), no) <==> Has(cs, no)
  {
    forall i | 0 <= i < |cs| ensures Capped(cap, cs)[i].no == cs[i].no {}
    if Has(cs, no) { var i :| 0 <= i < |cs| && cs[i].no == no; assert Capped(cap, cs)[i].no == no; }
  }

  lemma ClipRoom(data: Bytes, cap: nat, n: nat)
    ensures Clip(data, cap - Min(cap, n)) == Clip(data, cap - n)
  {}

  /** Room left by the cut rows is the room the uncut total leaves, floored at zero. */
  lemma ClipSame(cap: nat, cs: seq<Chunk>, data: Bytes)
    ensures Clip(data, cap - |Concat(Capped(cap, cs))|) == Clip(data, cap - |Concat(cs)|)
  {
    assert |Concat(Capped(cap, cs))| == Min(cap, |Concat(cs)|) by { CappedConcat(cap, cs); }
    ClipRoom(data, cap, |Concat(cs)|);
  }

  /**
   Ingest in closed form: for any deliveries, in any order and with any repeats, the table holds the
   first delivery of each number cut at the cap.
   */
  lemma {:induction false} AbsorbClosedForm(cap: nat, cs: seq<Chunk>)
    ensures Absorb([], cap, cs) == Capped(cap, Firsts(cs))
  {
    if cs != [] {
      AbsorbClosedForm(cap, cs[..|cs| - 1]);
      CappedPut(cap, Firsts(cs[..|cs| - 1]), cs[|cs| - 1]);
    }
  }

  lemma CappedLast(cap: nat, f: seq<Chunk>, c: Chunk)
    ensures Capped(cap, f + [c]) == Capped(cap, f) + [Chunk(c.no, Clip(c.data, cap - |Concat(f)|))]
  {
    assert (f + [c])[..|f|] == f;
  }

  lemma PutCases(rows: seq<Chunk>, cap: nat, c: Chunk)
    ensures Has(rows, c.no) ==> Put(rows, cap, c) == rows
    ensures !Has(rows, c.no) ==> Put(rows, cap, c) == rows + [Chunk(c.no, Clip(c.data, cap - |Concat(rows)|))]
  {}

  lemma CappedPut(cap: nat, f: seq<Chunk>, c: Chunk)
    ensures Has(f, c.no) ==> Put(Capped(cap, f), cap, c) == Capped(cap, f)
    ensures !Has(f, c.no) ==> Put(Capped(cap, f), cap, c) == Capped(cap, f + [c])
  {
    CappedHas(cap, f, c.no);
    PutCases(Capped(cap, f), cap, c);
    ClipSame(cap, f, c.data);
    CappedLast(cap, f, c);
  }

  lemma PutLosesIff(cap: nat, f: seq<Chunk>, c: Chunk)
    ensures Has(f, c.no) ==> !PutLoses(Capped(cap, f), cap, c)
    ensures !Has(f, c.no) ==> (|Concat(f)| > cap || PutLoses(Capped(cap, f), cap, c) <==> |Concat(f + [c])| > cap)
  {
    CappedHas(cap, f, c.no);
    CappedConcat(cap, f);
    assert (f + [c])[..|f|] == f;
  }

  /** Bytes are lost exactly when the first deliveries together exceed the cap. */
  lemma {:induction false} LosesClosedForm(cap: nat, cs: seq<Chunk>)
    ensures Loses([], cap, cs) <==> |Concat(Firsts(cs))| > cap
  {
    if cs != [] {
      var front, last := cs[..|cs| - 1], cs[|cs| - 1];
      LosesClosedForm(cap, front);
      AbsorbClosedForm(cap, front);
      PutLosesIff(cap, Firsts(front), last);
    }
  }

  /** Batch boundaries do not matter to the rows... */
  lemma {:induction false} AbsorbSplit(rows: seq<Chunk>, cap: nat, a: seq<Chunk>, b: seq<Chunk>)
    ensures Absorb(rows, cap, a + b) == Absorb(Absorb(rows, cap, a), cap, b)
  {
    if b == [] {
      assert a + b == a;
    } else {
      var ab := a + b;
      assert ab[..|ab| - 1] == a + b[..|b| - 1];
      AbsorbSplit(rows, cap, a, b[..|b| - 1]);
    }
  }

  /** ...nor to whether bytes were lost. */
  lemma {:induction false} LosesSplit(rows: seq<Chunk>, cap: nat, a: seq<Chunk>, b: seq<Chunk>)
    ensures Loses(rows, cap, a + b) <==> Loses(rows, cap, a) || Loses(Absorb(rows, cap, a), cap, b)
  {
    if b == [] {
      assert a + b == a;
    } else {
      var ab := a + b;
      assert ab[..|ab| - 1] == a + b[..|b| - 1];
      LosesSplit(rows, cap, a, b[..|b| - 1]);
      AbsorbSplit(rows, cap, a, b[..|b| - 1]);
    }
  }

  /** Ingest only appends rows. */
  /** A table keeps one row per number. */
  lemma {:induction false} AbsorbKeyed(rows: seq<Chunk>, cap: nat, cs: seq<Chunk>)
    requires Keyed(rows)
    ensures Keyed(Absorb(rows, cap, cs))
  {
    if cs != [] { AbsorbKeyed(rows, cap, cs[..|cs| - 1]); }
  }

  lemma {:induction false} AbsorbExtends(rows: seq<Chunk>, cap: nat, cs: seq<Chunk>)
    ensures rows <= Absorb(rows, cap, cs)
    ensures forall i :: 0 <= i < |cs| ==> Has(Absorb(rows, cap, cs), cs[i].no)
  {
    if cs != [] {
      var front, last := cs[..|cs| - 1], cs[|cs| - 1];
      AbsorbExtends(rows, cap, front);
      PutExtends(Absorb(rows, cap, front), cap, last, Absorb(rows, cap, cs));
    }
  }

  lemma PutExtends(r: seq<Chunk>, cap: nat, c: Chunk, r': seq<Chunk>)
    requires r' == Put(r, cap, c)
    ensures r <= r' && Has(r', c.no) && forall no :: Has(r, no) ==> Has(r', no)
  {
    PutCases(r, cap, c);
    if !Has(r, c.no) { assert r'[|r|].no == c.no; }
    HasGrows(r, r');
  }

  lemma HasGrows(r: seq<Chunk>, r': seq<Chunk>)
    requires r <= r'
    ensures forall no :: Has(r, no) ==> Has(r', no)
  {
    forall no | Has(r, no) ensures Has(r', no) {
      var i :| 0 <= i < |r| && r[i].no == no;
      assert r'[i].no == no;
    }
  }

  /** Redelivery of anything already stored, in any arrangement, changes nothing and loses nothing. */
  lemma {:induction false} RedeliveryIsIdentity(rows: seq<Chunk>, cap: nat, cs: seq<Chunk>)
    requires forall i :: 0 <= i < |cs| ==> Has(rows, cs[i].no)
    ensures Absorb(rows, cap, cs) == rows && !Loses(rows, cap, cs)
  {
    if cs != [] { RedeliveryIsIdentity(rows, cap, cs[..|cs| - 1]); }
  }

  // The same under a cap that changes between deliveries.

  /** A delivery with the cap in force when it arrived. */
  datatype Arrival = Arrival(chunk: Chunk, cap: nat)

  function At(cs: seq<Chunk>, cap: nat): (r: seq<Arrival>)
    ensures |r| == |cs| && forall i :: 0 <= i < |cs| ==> r[i] == Arrival(cs[i], cap)
  {
    seq(|cs|, i requires 0 <= i < |cs| => Arrival(cs[i], cap))
  }

  predicate Arrives(arrivals: seq<Arrival>, no: int) { exists i :: 0 <= i < |arrivals| && arrivals[i].chunk.no == no }

  /** The arrivals that are the first of their number. */
  function FirstArrivals(arrivals: seq<Arrival>): seq<Arrival> {
    if arrivals == [] then []
    else
      var f, last := FirstArrivals(arrivals[..|arrivals| - 1]), arrivals[|arrivals| - 1];
      if Arrives(f, last.chunk.no) then f else f + [last]
  }

  /** Every arrival cut to what its own cap leaves beside the rows before it. */
  function Filled(arrivals: seq<Arrival>): (r: seq<Chunk>)
    ensures |r| == |arrivals| && forall i :: 0 <= i < |arrivals| ==> r[i].no == arrivals[i].chunk.no
  {
    if arrivals == [] then []
    else
      var rows, last := Filled(arrivals[..|arrivals| - 1]), arrivals[|arrivals| - 1];
      rows + [Chunk(last.chunk.no, Clip(last.chunk.data, last.cap - |Concat(rows)|))]
  }

  /** Some row is not the whole of its arrival. */
  ghost predicate Shortened(rows: seq<Chunk>, arrivals: seq<Arrival>)
    requires |rows| == |arrivals|
  {
    exists i :: 0 <= i < |rows| && rows[i].data != arrivals[i].chunk.data
  }

  ghost predicate Cut(arrivals: seq<Arrival>) { Shortened(Filled(arrivals), arrivals) }

  lemma ShortenedLast(rows: seq<Chunk>, f: seq<Arrival>, r: Chunk, a: Arrival)
    requires |rows| == |f|
    ensures Shortened(rows + [r], f + [a]) <==> Shortened(rows, f) || r.data != a.chunk.data
  {
    var rows', f' := rows + [r], f + [a];
    assert rows'[|f|] == r && f'[|f|] == a;
    if Shortened(rows, f) {
      var i :| 0 <= i < |rows| && rows[i].data != f[i].chunk.data;
      assert rows'[i] == rows[i] && f'[i] == f[i];
    }
  }

  lemma {:induction false} FilledIsPrefix(arrivals: seq<Arrival>, i: nat)
    requires i < |arrivals|
    ensures Filled(arrivals)[i].data <= arrivals[i].chunk.data
  {
    if i < |arrivals| - 1 { FilledIsPrefix(arrivals[..|arrivals| - 1], i); }
  }

  lemma FilledLast(f: seq<Arrival>, a: Arrival, f': seq<Arrival>, rows: seq<Chunk>)
    requires f' == f + [a] && rows == Filled(f)
    ensures Filled(f') == rows + [Chunk(a.chunk.no, Clip(a.chunk.data, a.cap - |Concat(rows)|))]
  {
    assert f'[..|f'| - 1] == f;
  }

  lemma FilledHas(f: seq<Arrival>, no: int)
    ensures Has(Filled(f), no) <==> Arrives(f, no)
  {
    if Arrives(f, no) { var i :| 0 <= i < |f| && f[i].chunk.no == no; assert Filled(f)[i].no == no; }
  }

  lemma ClipLoses(data: Bytes, cap: nat, used: nat)
    ensures Clip(data, cap - used) != data <==> used + |data| > cap && data != []
  {}

  lemma CutLast(f: seq<Arrival>, a: Arrival, f': seq<Arrival>)
    requires !Arrives(f, a.chunk.no) && f' == f + [a]
    ensures Cut(f') <==> Cut(f) || PutLoses(Filled(f), a.cap, a.chunk)
  {
    var rows := Filled(f);
    FilledLast(f, a, f', rows);
    FilledHas(f, a.chunk.no);
    ClipLoses(a.chunk.data, a.cap, |Concat(rows)|);
    ShortenedLast(rows, f, Chunk(a.chunk.no, Clip(a.chunk.data, a.cap - |Concat(rows)|)), a);
  }

  function OneMore(f: seq<Arrival>, a: Arrival): seq<Arrival> { if Arrives(f, a.chunk.no) then f else f + [a] }

  lemma FirstArrivalsLast(arrivals: seq<Arrival>, a: Arrival)
    ensures FirstArrivals(arrivals + [a]) == OneMore(FirstArrivals(arrivals), a)
  {
    assert (arrivals + [a])[..|arrivals|] == arrivals;
  }

  lemma FillOne(f: seq<Arrival>, a: Arrival, f': seq<Arrival>)
    requires f' == OneMore(f, a)
    ensures Filled(f') == Put(Filled(f), a.cap, a.chunk)
    ensures Cut(f') <==> Cut(f) || PutLoses(Filled(f), a.cap, a.chunk)
  {
    FilledHas(f, a.chunk.no);
    PutCases(Filled(f), a.cap, a.chunk);
    if !Arrives(f, a.chunk.no) {
      FilledLast(f, a, f', Filled(f));
      CutLast(f, a, f');
    }
  }

  /** From `f` to `f'` the table absorbs `cs`, and is cut further exactly if that loses bytes. */
  ghost predicate Fills(f: seq<Arrival>, cap: nat, cs: seq<Chunk>, f': seq<Arrival>) {
    Filled(f') == Absorb(Filled(f), cap, cs) && (Cut(f') <==> Cut(f) || Loses(Filled(f), cap, cs))
  }

  lemma FillsLast(f: seq<Arrival>, cap: nat, cs: seq<Chunk>, f': seq<Arrival>)
    requires cs != [] && Fills(f, cap, cs[..|cs| - 1], f')
    ensures Fills(f, cap, cs, OneMore(f', Arrival(cs[|cs| - 1], cap)))
  {
    var last := Arrival(cs[|cs| - 1], cap);
    FillOne(f', last, OneMore(f', last));
  }

  /** A batch, whatever caps were in force before it. */
  lemma {:induction false} FillBatch(arrivals: seq<Arrival>, cap: nat, cs: seq<Chunk>)
    ensures Fills(FirstArrivals(arrivals), cap, cs, FirstArrivals(arrivals + At(cs, cap)))
  {
    if cs == [] {
      assert arrivals + At(cs, cap) == arrivals;
    } else {
      var front, last := cs[..|cs| - 1], Arrival(cs[|cs| - 1], cap);
      FillBatch(arrivals, cap, front);
      AtLast(arrivals, cap, cs);
      FirstArrivalsLast(arrivals + At(front, cap), last);
      FillsLast(FirstArrivals(arrivals), cap, cs, FirstArrivals(arrivals + At(front, cap)));
    }
  }

  lemma AtLast(arrivals: seq<Arrival>, cap: nat, cs: seq<Chunk>)
    requires cs != []
    ensures arrivals + At(cs, cap) == arrivals + At(cs[..|cs| - 1], cap) + [Arrival(cs[|cs| - 1], cap)]
  {}
}
