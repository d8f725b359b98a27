/**
 End-to-end log delivery: one attempt's shipper, a channel that may deliver any batch ever sent at any
 time and any number of times, and the server's transactional ingest.
 */
module Delivery {
  import opened Model
  import opened Ingest
  import opened System
  import opened Shippers
  import Logs
  import opened Follower
  import Following

  /** A batch as posted, with the number of chunks the shipper had already let go of. */
  datatype Post = Post(start: nat, chunks: seq<Chunk>)

  /**
   The runner's side. `sealed` is every chunk ever sealed, the first `gone` of which left the shipper;
   `stream` is every accepted byte; `heard` are the posts the server accepted at least once. Every byte
   written while the shipper is open counts as `offered`, and ends up `retained`, `noted` in a marker or
   in the shipper's running count of drops; `mark` is the length of the longest marker so far.
   */
  datatype Channel = Channel(
    ship: Ship, sealed: seq<Chunk>, gone: nat, stream: Bytes,
    wire: seq<Post>, inflight: Option<nat>, heard: set<nat>,
    offered: nat, retained: nat, noted: nat, mark: nat)

  const NEW_CHANNEL := Channel(EMPTY, [], 0, [], [], None, {}, 0, 0, 0, 0)

  function Max(a: nat, b: nat): nat { if a < b then b else a }

  // The runner's moves.

  /** What a shipper step sealed. */
  function NewlySealed(s: Ship, r: Ship): seq<Chunk> {
    if |s.pending| <= |r.pending| then r.pending[|s.pending|..] else []
  }

  function Produce(c: ShipConfig, ch: Channel, p: Bytes): Channel
    requires ConfigOk(c)
  {
    var s, r := ch.ship, WriteTo(c, ch.ship, p).0;
    var open := !s.closed && !s.stale;
    ch.(ship := r, sealed := ch.sealed + NewlySealed(s, r), stream := ch.stream + Contribution(c, s, p),
    offered := ch.offered + (if open then |p| else 0), retained := ch.retained + Kept(c, s, |p|),
    noted := ch.noted + (if Mark(c, s) == [] then 0 else s.dropped), mark := Max(ch.mark, |Mark(c, s)|))
  }

  /** Take a batch and post it; anything not confirmed before is posted again. */
  function Send(c: ShipConfig, ch: Channel): Channel {
    var r := Sealed(ch.ship);
    var ch1 := ch.(ship := r, sealed := ch.sealed + NewlySealed(ch.ship, r));
    if Batch(c, r) == [] then ch1
    else ch1.(wire := ch.wire + [Post(ch.gone, Batch(c, r))], inflight := Some(|ch.wire|))
  }

  /** The batch in flight leaves the shipper. */
  function LetGo(ch: Channel): Channel
    requires ch.inflight.Some? && ch.inflight.value < |ch.wire|
      && |ch.wire[ch.inflight.value].chunks| <= |ch.ship.pending|
  {
    var k := |ch.wire[ch.inflight.value].chunks|;
    ch.(ship := Ack(ch.ship, k), gone := ch.gone + k, inflight := None)
  }

  function Rejected(ch: Channel): Channel { ch.(ship := ch.ship.(rejected := true)) }

  function Dropped(ch: Channel): Channel { ch.(ship := GoneStale(ch.ship), inflight := None) }

  // The runner's invariant.

  ghost predicate ShipOk(c: ShipConfig, ch: Channel) {
    && ConfigOk(c) && ch.gone <= |ch.sealed| && Numbered(ch.sealed)
    && (!ch.ship.stale ==>
          && Tidy(c, ch.ship, ch.sealed[..ch.gone], ch.stream)
          && ch.ship.pending == ch.sealed[ch.gone..]
          && Concat(ch.sealed) + ch.ship.cur == ch.stream)
    && (ch.ship.stale ==> ch.ship.pending == [] && ch.ship.cur == [])
    && Concat(ch.sealed) <= ch.stream
  }

  ghost predicate PostOk(ch: Channel, post: Post) {
    post.start + |post.chunks| <= |ch.sealed| && post.chunks == ch.sealed[post.start..post.start + |post.chunks|]
  }

  ghost predicate WireOk(ch: Channel) {
    && (forall i :: 0 <= i < |ch.wire| ==> PostOk(ch, ch.wire[i]))
    && (forall i :: i in ch.heard ==> i < |ch.wire|)
    && (ch.inflight.Some? && !ch.ship.stale ==>
          && ch.inflight.value < |ch.wire|
          && ch.wire[ch.inflight.value].start == ch.gone
          && [] != ch.wire[ch.inflight.value].chunks <= ch.ship.pending)
  }

  /** Conservation of bytes, and the bound on the buffer. */
  ghost predicate Accounts(c: ShipConfig, ch: Channel) {
    && (!ch.ship.stale ==> ch.offered == ch.retained + ch.noted + ch.ship.dropped)
    && ch.ship.buffered <= c.maxBuffered + ch.mark
  }

  /** Every post starts within the first `k` chunks, and every accepted one ends there. */
  ghost predicate Covered(ch: Channel, k: nat) {
    && (forall i :: 0 <= i < |ch.wire| ==> ch.wire[i].start <= k)
    && (forall i :: 0 <= i < |ch.wire| && i in ch.heard ==> ch.wire[i].start + |ch.wire[i].chunks| <= k)
  }

  /** The server holds the first chunks of the stream, cut at its cap, and all it ever confirmed. */
  ghost predicate Stored(ch: Channel, cap: nat, rows: seq<Chunk>) {
    && ch.gone <= |rows| <= |ch.sealed|
    && rows == Capped(cap, ch.sealed[..|rows|])
    && Covered(ch, |rows|)
  }

  /** The channel's invariant; a rejected batch leaves a gap nothing is promised about. */
  ghost predicate ChannelOk(c: ShipConfig, ch: Channel, cap: nat, rows: seq<Chunk>) {
    ShipOk(c, ch) && WireOk(ch) && Accounts(c, ch) && (!ch.ship.rejected ==> Stored(ch, cap, rows))
  }

  /** Sealing more chunks disturbs neither the posts nor the server's rows. */
  lemma SealedGrows(ch: Channel, ch': Channel)
    requires ch.sealed <= ch'.sealed && ch'.wire == ch.wire
    ensures forall i :: 0 <= i < |ch.wire| && PostOk(ch, ch.wire[i]) ==> PostOk(ch', ch'.wire[i])
  {
    forall i | 0 <= i < |ch.wire| && PostOk(ch, ch.wire[i]) ensures PostOk(ch', ch'.wire[i]) {
      var p := ch.wire[i];
      assert ch'.sealed[p.start..p.start + |p.chunks|] == ch.sealed[p.start..p.start + |p.chunks|];
    }
  }

  lemma StoredGrows(ch: Channel, ch': Channel, cap: nat, rows: seq<Chunk>)
    requires Stored(ch, cap, rows) && ch.sealed <= ch'.sealed && ch'.wire == ch.wire && ch'.gone == ch.gone
      && ch'.heard == ch.heard
    ensures Stored(ch', cap, rows)
  {
    assert ch'.sealed[..|rows|] == ch.sealed[..|rows|];
  }

  /** A shipper step that keeps the books, seen from the channel. */
  lemma BooksToShip(c: ShipConfig, ch: Channel, r: Ship, stream: Bytes)
    requires ShipOk(c, ch) && !ch.ship.stale && !r.stale && ch.ship.pending <= r.pending
    requires Tidy(c, r, ch.sealed[..ch.gone], stream)
    ensures ShipOk(c, ch.(ship := r, sealed := ch.sealed + NewlySealed(ch.ship, r), stream := stream))
  {
    var sealed' := ch.sealed + NewlySealed(ch.ship, r);
    assert sealed' == ch.sealed[..ch.gone] + r.pending;
    assert sealed'[..ch.gone] == ch.sealed[..ch.gone];
  }

  lemma ProduceShip(c: ShipConfig, ch: Channel, p: Bytes)
    requires ShipOk(c, ch)
    ensures ShipOk(c, Produce(c, ch, p))
  {
    var ch' := Produce(c, ch, p);
    if ch.ship.stale {
      assert ch'.sealed == ch.sealed && ch'.stream == ch.stream;
    } else {
      WriteBooks(c, ch.ship, p, ch.sealed[..ch.gone], ch.stream);
      BooksToShip(c, ch, ch'.ship, ch'.stream);
    }
  }

  lemma ProduceAccounts(c: ShipConfig, ch: Channel, p: Bytes)
    requires ShipOk(c, ch) && Accounts(c, ch)
    ensures Accounts(c, Produce(c, ch, p))
  {
    if !ch.ship.stale { WriteBooks(c, ch.ship, p, ch.sealed[..ch.gone], ch.stream); }
  }

  lemma SendWire(ch: Channel, ch': Channel, batch: seq<Chunk>)
    requires WireOk(ch) && ch.sealed <= ch'.sealed && ch.gone <= |ch.sealed| && ch'.gone == ch.gone && !ch'.ship.stale
    requires ch'.ship.pending == ch'.sealed[ch.gone..] && [] != batch <= ch'.ship.pending
    requires ch'.wire == ch.wire + [Post(ch.gone, batch)] && ch'.inflight == Some(|ch.wire|) && ch'.heard == ch.heard
    ensures WireOk(ch')
  {
    SealedGrows(ch, ch'.(wire := ch.wire));
    assert PostOk(ch', Post(ch.gone, batch));
    forall i | 0 <= i < |ch'.wire| ensures PostOk(ch', ch'.wire[i]) {
      if i < |ch.wire| { assert PostOk(ch, ch.wire[i]); }
    }
  }

  lemma IdleWire(ch: Channel, ch': Channel)
    requires WireOk(ch) && ch.sealed <= ch'.sealed && ch'.gone == ch.gone && ch'.ship.stale == ch.ship.stale
    requires ch.ship.pending <= ch'.ship.pending && ch'.wire == ch.wire && ch'.inflight == ch.inflight
      && ch'.heard == ch.heard
    ensures WireOk(ch')
  {
    SealedGrows(ch, ch');
  }

  lemma SendShip(c: ShipConfig, ch: Channel)
    requires ShipOk(c, ch) && !ch.ship.stale
    ensures var ch' := Send(c, ch);
      && ShipOk(c, ch') && ch.sealed <= ch'.sealed && ch.ship.pending <= ch'.ship.pending
         && SameSwitches(ch.ship, ch'.ship)
      && ch'.ship.dropped == ch.ship.dropped && ch'.ship.buffered == ch.ship.buffered
  {
    TakeTidy(c, ch.ship, ch.sealed[..ch.gone], ch.stream, Sealed(ch.ship), Batch(c, Sealed(ch.ship)));
    SealedBooks(c, ch.ship, ch.sealed[..ch.gone], ch.stream);
    BooksToShip(c, ch, Sealed(ch.ship), ch.stream);
  }

  lemma SendCovered(ch: Channel, ch': Channel, k: nat, batch: seq<Chunk>)
    requires Covered(ch, k) && ch.gone <= k && ch'.wire == ch.wire + [Post(ch.gone, batch)] && ch'.heard == ch.heard
    requires forall i :: i in ch.heard ==> i < |ch.wire|
    ensures Covered(ch', k)
  {}

  /** A stale shipper has nothing to send. */
  lemma StaleSendsNothing(c: ShipConfig, ch: Channel)
    requires ShipOk(c, ch) && ch.ship.stale
    ensures Send(c, ch) == ch && Batch(c, Sealed(ch.ship)) == [] && Sealed(ch.ship) == ch.ship
  {
    assert ch.sealed + [] == ch.sealed;
  }

  lemma FlushOk(c: ShipConfig, ch: Channel, cap: nat, rows: seq<Chunk>)
    requires ChannelOk(c, ch, cap, rows)
    ensures ChannelOk(c, Send(c, ch), cap, rows)
  {
    if ch.ship.stale { StaleSendsNothing(c, ch); } else { SendOk(c, ch, cap, rows); }
  }

  lemma SendOk(c: ShipConfig, ch: Channel, cap: nat, rows: seq<Chunk>)
    requires ChannelOk(c, ch, cap, rows) && !ch.ship.stale
    ensures ChannelOk(c, Send(c, ch), cap, rows)
  {
    var ch' := Send(c, ch);
    SendShip(c, ch);
    var batch := Batch(c, ch'.ship);
    if batch == [] {
      IdleWire(ch, ch');
      if !ch.ship.rejected { StoredGrows(ch, ch', cap, rows); }
    } else {
      SendWire(ch, ch', batch);
      if !ch.ship.rejected {
        StoredGrows(ch, ch'.(wire := ch.wire), cap, rows);
        SendCovered(ch, ch', |rows|, batch);
      }
    }
  }

  lemma LetGoBooks(c: ShipConfig, ch: Channel, k: nat)
    requires ShipOk(c, ch) && !ch.ship.stale && k <= |ch.ship.pending|
    ensures Tidy(c, Ack(ch.ship, k), ch.sealed[..ch.gone + k], ch.stream)
      && Ack(ch.ship, k).pending == ch.sealed[ch.gone + k..]
    ensures Ack(ch.ship, k).buffered <= ch.ship.buffered
  {
    var acked := ch.sealed[..ch.gone];
    AckBooks(c, ch.ship, k, acked, ch.stream);
    assert acked + ch.ship.pending[..k] == ch.sealed[..ch.gone + k];
    assert ch.ship.pending[k..] == ch.sealed[ch.gone + k..];
  }

  lemma LetGoShip(c: ShipConfig, ch: Channel)
    requires ShipOk(c, ch) && WireOk(ch) && !ch.ship.stale && ch.inflight.Some?
    ensures var ch' := LetGo(ch); ShipOk(c, ch') && WireOk(ch') && ch'.ship.buffered <= ch.ship.buffered
  {
    LetGoBooks(c, ch, |ch.wire[ch.inflight.value].chunks|);
    SealedGrows(ch, LetGo(ch));
  }

  lemma ConfirmOk(c: ShipConfig, ch: Channel, cap: nat, rows: seq<Chunk>)
    requires ChannelOk(c, ch, cap, rows) && !ch.ship.stale && ch.inflight.Some? && ch.inflight.value in ch.heard
    ensures ChannelOk(c, LetGo(ch), cap, rows)
  {
    LetGoShip(c, ch);
    assert PostOk(ch, ch.wire[ch.inflight.value]);
  }

  lemma RejectOk(c: ShipConfig, ch: Channel, cap: nat, rows: seq<Chunk>)
    requires ChannelOk(c, ch, cap, rows) && !ch.ship.stale && ch.inflight.Some?
    ensures ChannelOk(c, Rejected(LetGo(ch)), cap, rows)
  {
    LetGoShip(c, ch);
    SealedGrows(LetGo(ch), Rejected(LetGo(ch)));
  }

  lemma StaleOk(c: ShipConfig, ch: Channel, cap: nat, rows: seq<Chunk>)
    requires ChannelOk(c, ch, cap, rows)
    ensures ChannelOk(c, Dropped(ch), cap, rows)
  {
    SealedGrows(ch, Dropped(ch));
    if !ch.ship.rejected { StoredGrows(ch, Dropped(ch), cap, rows); }
  }

  lemma ShutOk(c: ShipConfig, ch: Channel, cap: nat, rows: seq<Chunk>)
    requires ChannelOk(c, ch, cap, rows)
    ensures ChannelOk(c, ch.(ship := ch.ship.(closed := true)), cap, rows)
  {
    var ch' := ch.(ship := ch.ship.(closed := true));
    IdleWire(ch, ch');
    if !ch.ship.rejected { StoredGrows(ch, ch', cap, rows); }
  }

  lemma OutputOk(c: ShipConfig, ch: Channel, cap: nat, rows: seq<Chunk>, p: Bytes)
    requires ChannelOk(c, ch, cap, rows)
    ensures ChannelOk(c, Produce(c, ch, p), cap, rows)
  {
    ProduceShip(c, ch, p);
    ProduceAccounts(c, ch, p);
    ProduceGrows(c, ch, p);
    IdleWire(ch, Produce(c, ch, p));
    if !ch.ship.rejected { StoredGrows(ch, Produce(c, ch, p), cap, rows); }
  }

  lemma ProduceGrows(c: ShipConfig, ch: Channel, p: Bytes)
    requires ShipOk(c, ch)
    ensures var ch' := Produce(c, ch, p);
      ch.sealed <= ch'.sealed && ch.ship.pending <= ch'.ship.pending && SameSwitches(ch.ship, ch'.ship)
  {
    if !ch.ship.stale { WriteBooks(c, ch.ship, p, ch.sealed[..ch.gone], ch.stream); }
  }

  // The server's side.

  lemma PrefixHas(sealed: seq<Chunk>, m: nat, i: nat)
    requires Numbered(sealed) && m <= |sealed| && i < |sealed|
    ensures Has(sealed[..m], sealed[i].no) <==> i < m
  {
    if i < m { assert sealed[..m][i].no == sealed[i].no; }
    forall a | 0 <= a < m ensures sealed[..m][a].no == a + 1 { assert sealed[a].no == a + 1; }
  }

  /** The next chunk of the stream on top of its first `m`; an earlier one changes nothing. */
  lemma PutNext(sealed: seq<Chunk>, cap: nat, m: nat, i: nat)
    requires Numbered(sealed) && m <= |sealed| && i < |sealed| && i <= m
    ensures Put(Capped(cap, sealed[..m]), cap, sealed[i]) == Capped(cap, sealed[..Max(m, i + 1)])
  {
    PrefixHas(sealed, m, i);
    if i < m {
      PutKnown(sealed[..m], cap, sealed[i]);
    } else {
      PutNew(sealed[..m], cap, sealed[i], sealed[..i + 1]);
    }
  }

  lemma PutKnown(f: seq<Chunk>, cap: nat, c: Chunk)
    requires Has(f, c.no)
    ensures Put(Capped(cap, f), cap, c) == Capped(cap, f)
  {
    CappedPut(cap, f, c);
  }

  lemma PutNew(f: seq<Chunk>, cap: nat, c: Chunk, f': seq<Chunk>)
    requires !Has(f, c.no) && |f'| == |f| + 1 && f'[..|f|] == f && f'[|f|] == c
    ensures Put(Capped(cap, f), cap, c) == Capped(cap, f')
  {
    CappedPut(cap, f, c);
    assert f' == f + [c];
  }

  /**
   `tables[k]` is the table after the first `k` chunks, and a chunk the table has reached takes it one on or
   leaves it.
   */
  ghost predicate Ladder(tables: seq<seq<Chunk>>, sealed: seq<Chunk>, cap: nat) {
    && |tables| == |sealed| + 1
    && forall m, i :: 0 <= i <= m < |tables| && i < |sealed| ==> Put(tables[m], cap, sealed[i]) == tables[Max(m, i + 1)]
  }

  lemma {:induction false} Climb(tables: seq<seq<Chunk>>, sealed: seq<Chunk>, cap: nat, k: nat, cs: seq<Chunk>, lo: nat)
    requires Ladder(tables, sealed, cap) && lo <= k <= |sealed| && lo + |cs| <= |sealed|
    requires forall t :: 0 <= t < |cs| ==> cs[t] == sealed[lo + t]
    ensures Absorb(tables[k], cap, cs) == tables[Max(k, lo + |cs|)]
    decreases |cs|
  {
    if cs != [] {
      Climb(tables, sealed, cap, k, cs[..|cs| - 1], lo);
      var m, i := Max(k, lo + |cs| - 1), lo + |cs| - 1;
      assert Put(tables[m], cap, sealed[i]) == tables[Max(m, i + 1)];
    }
  }

  /** A window of the stream absorbed on top of a prefix it does not jump over. */
  lemma AbsorbWindow(sealed: seq<Chunk>, cap: nat, k: nat, cs: seq<Chunk>, lo: nat)
    requires Numbered(sealed) && lo <= k <= |sealed| && lo + |cs| <= |sealed|
    requires forall t :: 0 <= t < |cs| ==> cs[t] == sealed[lo + t]
    ensures Absorb(Capped(cap, sealed[..k]), cap, cs) == Capped(cap, sealed[..Max(k, lo + |cs|)])
  {
    var tables := seq(|sealed| + 1, k requires 0 <= k <= |sealed| => Capped(cap, sealed[..k]));
    forall m, i | 0 <= i <= m < |tables| && i < |sealed|
      ensures Put(tables[m], cap, sealed[i]) == tables[Max(m, i + 1)]
    {
      PutNext(sealed, cap, m, i);
    }
    Climb(tables, sealed, cap, k, cs, lo);
  }

  lemma CoveredGrows(ch: Channel, k: nat, k': nat, i: nat)
    requires Covered(ch, k) && k <= k' && i < |ch.wire| && ch.wire[i].start + |ch.wire[i].chunks| <= k'
    ensures Covered(ch.(heard := ch.heard + {i}), k')
  {}

  /** Any post, delivered at any time, leaves the server with a prefix of the stream. */
  lemma ArriveStored(c: ShipConfig, ch: Channel, cap: nat, rows: seq<Chunk>, i: nat)
    requires ShipOk(c, ch) && WireOk(ch) && Stored(ch, cap, rows) && i < |ch.wire|
    ensures Stored(ch.(heard := ch.heard + {i}), cap, Absorb(rows, cap, ch.wire[i].chunks))
  {
    var lo, hi := ch.wire[i].start, ch.wire[i].start + |ch.wire[i].chunks|;
    assert PostOk(ch, ch.wire[i]);
    AbsorbWindow(ch.sealed, cap, |rows|, ch.wire[i].chunks, lo);
    CoveredGrows(ch, |rows|, Max(|rows|, hi), i);
  }

  // The whole.

  datatype Pipe = Pipe(w: World, ch: Channel)

  datatype Move =
    | Output(p: Bytes)
    | Flush
    | Arrive(post: nat)
    | Confirm
    | Reject
    | GoStale
    | Shut
    | Elsewhere(s: Step)

  /**
   What may happen next. A confirmation follows an accepted delivery, a stale answer an attempt the
   scheduler no longer recognises. Anything may happen elsewhere in the system, except that only this
   shipper posts to its own attempt and the cap stays put.
   */
  ghost predicate Possible(x: Pipe, m: Move, j: JobId, n: nat, cap: nat) {
    match m
    case Output(_) => true
    case Flush => true
    case Arrive(i) => i < |x.ch.wire|
    case Confirm => !x.ch.ship.stale && x.ch.inflight.Some? && x.ch.inflight.value in x.ch.heard
    case Reject => !x.ch.ship.stale && x.ch.inflight.Some?
    case GoStale => x.ch.inflight.Some? && !x.w.db.Live(j, n)
    case Shut => true
    case Elsewhere(s) =>
      && !(s.AppendLogs? && s.job == j && s.attempt == n)
      && (s.Restart? ==> WithDefaultConfig(s.config).logCap == cap)
  }

  ghost function Next(c: ShipConfig, x: Pipe, m: Move, j: JobId, n: nat, cap: nat): Pipe
    requires Ok(x.w) && ShipOk(c, x.ch) && WireOk(x.ch) && Possible(x, m, j, n, cap)
  {
    var ch := x.ch;
    match m
    case Output(p) => x.(ch := Produce(c, ch, p))
    case Flush => x.(ch := Send(c, ch))
    case Arrive(i) =>
      var (w, reply) := Apply(x.w, AppendLogs(j, n, ch.wire[i].chunks));
      Pipe(w, if reply.Accepted? then ch.(heard := ch.heard + {i}) else ch)
    case Confirm => x.(ch := LetGo(ch))
    case Reject => x.(ch := Rejected(LetGo(ch)))
    case GoStale => x.(ch := Dropped(ch))
    case Shut => x.(ch := ch.(ship := ch.ship.(closed := true)))
    case Elsewhere(s) => x.(w := Apply(x.w, s).0)
  }

  ghost predicate PipeOk(c: ShipConfig, x: Pipe, j: JobId, n: nat, cap: nat) {
    Ok(x.w) && x.w.cfg.logCap == cap && ChannelOk(c, x.ch, cap, x.w.db.Log(AttemptKey(j, n)))
  }

  lemma ElsewhereMove(c: ShipConfig, x: Pipe, s: Step, j: JobId, n: nat, cap: nat)
    requires PipeOk(c, x, j, n, cap) && Possible(x, Elsewhere(s), j, n, cap)
    ensures PipeOk(c, Next(c, x, Elsewhere(s), j, n, cap), j, n, cap)
  {
    StepOk(x.w, s);
    Logs.StepExtendsLog(x.w, s, AttemptKey(j, n));
  }

  lemma HeardWire(ch: Channel, i: nat)
    requires WireOk(ch) && i < |ch.wire|
    ensures WireOk(ch.(heard := ch.heard + {i}))
  {
    SealedGrows(ch, ch.(heard := ch.heard + {i}));
  }

  lemma ArriveMove(c: ShipConfig, x: Pipe, i: nat, j: JobId, n: nat, cap: nat)
    requires PipeOk(c, x, j, n, cap) && Possible(x, Arrive(i), j, n, cap)
    ensures PipeOk(c, Next(c, x, Arrive(i), j, n, cap), j, n, cap)
  {
    StepOk(x.w, AppendLogs(j, n, x.ch.wire[i].chunks));
    Logs.AppendEffect(x.w, j, n, x.ch.wire[i].chunks);
    HeardWire(x.ch, i);
    if !x.ch.ship.rejected { ArriveStored(c, x.ch, cap, x.w.db.Log(AttemptKey(j, n)), i); }
  }

  lemma MoveOk(c: ShipConfig, x: Pipe, m: Move, j: JobId, n: nat, cap: nat)
    requires PipeOk(c, x, j, n, cap) && Possible(x, m, j, n, cap)
    ensures PipeOk(c, Next(c, x, m, j, n, cap), j, n, cap)
  {
    var ch, rows := x.ch, x.w.db.Log(AttemptKey(j, n));
    match m {
      case Output(p) => OutputOk(c, ch, cap, rows, p);
      case Flush => FlushOk(c, ch, cap, rows);
      case Arrive(i) => ArriveMove(c, x, i, j, n, cap);
      case Confirm => ConfirmOk(c, ch, cap, rows);
      case Reject => RejectOk(c, ch, cap, rows);
      case GoStale => StaleOk(c, ch, cap, rows);
      case Shut => ShutOk(c, ch, cap, rows);
      case Elsewhere(s) => ElsewhereMove(c, x, s, j, n, cap);
    }
  }

  // Whole runs.

  /** `moves` lead from `x` to `y`. */
  ghost predicate Runs(c: ShipConfig, x: Pipe, moves: seq<Move>, y: Pipe, j: JobId, n: nat, cap: nat)
    requires PipeOk(c, x, j, n, cap)
    decreases |moves|
  {
    if moves == [] then x == y
    else
      && Possible(x, moves[0], j, n, cap)
      && (MoveOk(c, x, moves[0], j, n, cap);
          Runs(c, Next(c, x, moves[0], j, n, cap), moves[1..], y, j, n, cap))
  }

  /** An attempt that starts: a fresh shipper, and a server that has stored nothing of it. */
  ghost predicate Fresh(c: ShipConfig, x: Pipe, j: JobId, n: nat, cap: nat) {
    ConfigOk(c) && Ok(x.w) && x.w.cfg.logCap == cap && x.w.db.Log(AttemptKey(j, n)) == [] && x.ch == NEW_CHANNEL
  }

  lemma NewChannelOk(c: ShipConfig, cap: nat)
    requires ConfigOk(c)
    ensures ShipOk(c, NEW_CHANNEL) && WireOk(NEW_CHANNEL) && Accounts(c, NEW_CHANNEL) && Stored(NEW_CHANNEL, cap, [])
  {
    var none: seq<Chunk> := [];
    assert none[..0] == none && none[0..] == none && none + none == none;
    assert Books(c, EMPTY, none, []);
  }

  /** A fresh attempt meets the invariant, so asking for it beside `Fresh` asks for nothing more. */
  lemma FreshOk(c: ShipConfig, x: Pipe, j: JobId, n: nat, cap: nat)
    requires Fresh(c, x, j, n, cap)
    ensures PipeOk(c, x, j, n, cap)
  {
    NewChannelOk(c, cap);
  }

  /** Every attempt starts fresh: in any reachable state, what a claim grants has no output stored yet. */
  lemma GrantStartsFresh(c: ShipConfig, w: World, runner: RunnerId, labels: Labels)
    requires ConfigOk(c) && Reachable(w) && Ok(w) && Apply(w, Poll(runner, labels)).1.Granted?
    ensures var (w', g) := Apply(w, Poll(runner, labels));
      Fresh(c, Pipe(w', NEW_CHANNEL), g.job, g.attempt, w.cfg.logCap)
  {
    Logs.ReachableLogsBelong(w);
    var s := Poll(runner, labels);
    var g := Apply(w, s).1;
    StepOk(w, s);
    Logs.StepExtendsLog(w, s, AttemptKey(g.job, g.attempt));
    assert Logs.Belongs(w.db, AttemptKey(g.job, g.attempt));
  }

  lemma {:induction false} RunsOk(c: ShipConfig, x: Pipe, moves: seq<Move>, y: Pipe, j: JobId, n: nat, cap: nat)
    requires PipeOk(c, x, j, n, cap) && Runs(c, x, moves, y, j, n, cap)
    ensures PipeOk(c, y, j, n, cap)
    decreases |moves|
  {
    if moves != [] {
      MoveOk(c, x, moves[0], j, n, cap);
      RunsOk(c, Next(c, x, moves[0], j, n, cap), moves[1..], y, j, n, cap);
    }
  }

  lemma {:induction false} ConcatPrefix(cs: seq<Chunk>, k: nat)
    requires k <= |cs|
    ensures Concat(cs[..k]) <= Concat(cs)
  {
    assert cs == cs[..k] + cs[k..];
    ConcatSplit(cs[..k], cs[k..]);
  }

  lemma StoredBytes(c: ShipConfig, ch: Channel, cap: nat, rows: seq<Chunk>)
    requires ShipOk(c, ch) && Stored(ch, cap, rows)
    ensures forall i :: 0 <= i < |rows| ==> rows[i].no == i + 1
    ensures Concat(rows) == Concat(ch.sealed[..|rows|])[..Min(cap, |Concat(ch.sealed[..|rows|])|)]
    ensures Concat(rows) <= ch.stream
  {
    var first := ch.sealed[..|rows|];
    CappedConcat(cap, first);
    ConcatPrefix(ch.sealed, |rows|);
    forall i | 0 <= i < |rows| ensures rows[i].no == i + 1 {
      assert rows[i].no == first[i].no == ch.sealed[i].no;
    }
  }

  /**
   At every moment of every run without a rejected batch - any losses, repeats, reorderings and retries
   on the way, any activity elsewhere - the server's table for the attempt is numbered 1..k without a gap
   and its bytes are a prefix of the accepted stream: exactly the first k chunks, cut at the cap.
   */
  lemma StoredIsPrefix(c: ShipConfig, x: Pipe, moves: seq<Move>, y: Pipe, j: JobId, n: nat, cap: nat)
    requires Fresh(c, x, j, n, cap) && PipeOk(c, x, j, n, cap) && Runs(c, x, moves, y, j, n, cap) && !y.ch.ship.rejected
    ensures var rows := y.w.db.Log(AttemptKey(j, n));
      && |rows| <= |y.ch.sealed|
      && (forall i :: 0 <= i < |rows| ==> rows[i].no == i + 1)
      && Concat(rows) == Concat(y.ch.sealed[..|rows|])[..Min(cap, |Concat(y.ch.sealed[..|rows|])|)]
      && Concat(rows) <= y.ch.stream
  {
    RunsOk(c, x, moves, y, j, n, cap);
    StoredBytes(c, y.ch, cap, y.w.db.Log(AttemptKey(j, n)));
  }

  /** So what one shipper fills is in order, as a follower of the log relies on. */
  lemma ShippedInOrder(c: ShipConfig, x: Pipe, moves: seq<Move>, y: Pipe, j: JobId, n: nat, cap: nat)
    requires Fresh(c, x, j, n, cap) && PipeOk(c, x, j, n, cap) && Runs(c, x, moves, y, j, n, cap) && !y.ch.ship.rejected
    ensures Ascending(y.w.db.Log(AttemptKey(j, n)))
  {
    StoredIsPrefix(c, x, moves, y, j, n, cap);
  }

  /**
   Every byte the job wrote while the shipper was open is stored in the stream, noted there as lost, or counted
   by the shipper.
   */
  lemma BytesAreConserved(c: ShipConfig, x: Pipe, moves: seq<Move>, y: Pipe, j: JobId, n: nat, cap: nat)
    requires Fresh(c, x, j, n, cap) && PipeOk(c, x, j, n, cap) && Runs(c, x, moves, y, j, n, cap)
    ensures !y.ch.ship.stale ==> y.ch.offered == y.ch.retained + y.ch.noted + y.ch.ship.dropped
    ensures y.ch.ship.buffered <= c.maxBuffered + y.ch.mark
  {
    RunsOk(c, x, moves, y, j, n, cap);
  }

  /** A clean close: the server stores the whole stream up to its cap, and every lost byte is noted in it. */
  lemma CleanCloseStored(c: ShipConfig, x: Pipe, j: JobId, n: nat, cap: nat)
    requires PipeOk(c, x, j, n, cap) && CloseVerdict(x.ch.ship).ClosedOk?
    ensures var rows := x.w.db.Log(AttemptKey(j, n));
      && rows == Capped(cap, x.ch.sealed) && x.ch.gone == |rows| == |x.ch.sealed|
      && Concat(rows) == x.ch.stream[..Min(cap, |x.ch.stream|)]
      && x.ch.offered == x.ch.retained + x.ch.noted
  {
    var ch := x.ch;
    CleanCloseMeansDelivered(c, ch.ship, ch.sealed[..ch.gone], ch.stream);
    assert ch.sealed[..|ch.sealed|] == ch.sealed;
    CappedConcat(cap, ch.sealed);
  }

  ghost predicate ClosedCleanly(x: Pipe) { x.ch.ship.closed && CloseVerdict(x.ch.ship).ClosedOk? }

  // What the job wrote.

  /** Everything written before the shipper was closed. */
  function Outputs(moves: seq<Move>): Bytes {
    if moves == [] || moves[0].Shut? then []
    else (if moves[0].Output? then moves[0].p else []) + Outputs(moves[1..])
  }

  /** Bytes lost so far, noted or not. */
  function Loss(ch: Channel): nat { ch.noted + ch.ship.dropped }

  /** What a move adds to the stream while nothing has been lost. */
  function Adds(ch: Channel, m: Move): Bytes { if m.Output? && !ch.ship.closed then m.p else [] }

  lemma WriteWhole(c: ShipConfig, ch: Channel, p: Bytes)
    requires ConfigOk(c) && !ch.ship.stale
    ensures var ch' := Produce(c, ch, p);
      && !ch'.ship.stale && ch'.ship.closed == ch.ship.closed && Loss(ch) <= Loss(ch')
      && (Loss(ch') == 0 ==> ch'.stream == ch.stream + if ch.ship.closed then [] else p)
  {
    AppendSwitches(c, ch.ship, p);
    var k := Kept(c, ch.ship, |p|);
    if k == |p| { assert p[..k] == p; }
    assert [] + p[..k] == p[..k];
  }

  /** A write leaves the switches, and counts what it does not keep. */
  lemma AppendSwitches(c: ShipConfig, s: Ship, p: Bytes)
    requires ConfigOk(c)
    ensures SameSwitches(s, WriteTo(c, s, p).0)
    ensures !s.closed && !s.stale ==>
      WriteTo(c, s, p).0.dropped == (if Mark(c, s) == [] then s.dropped else 0) + |p| - Kept(c, s, |p|)
  {
    SealsAlone(c, s.(cur := s.cur + Marker(s.dropped), buffered := s.buffered + |Marker(s.dropped)|));
    var t, k := Noted(c, s), Kept(c, s, |p|);
    SealsAlone(c, t.(dropped := t.dropped + (|p| - k), cur := t.cur + p[..k], buffered := t.buffered + k));
  }

  lemma {:induction false} SealsAlone(c: ShipConfig, s: Ship)
    requires ConfigOk(c)
    ensures SameSwitches(s, SealFull(c, s)) && SealFull(c, s).dropped == s.dropped
    decreases |s.cur|
  {
    if |s.cur| >= c.flushBytes { SealsAlone(c, Seal(s, c.flushBytes)); }
  }

  lemma MoveWrites(c: ShipConfig, x: Pipe, m: Move, j: JobId, n: nat, cap: nat)
    requires PipeOk(c, x, j, n, cap) && Possible(x, m, j, n, cap) && !Next(c, x, m, j, n, cap).ch.ship.stale
    ensures var ch' := Next(c, x, m, j, n, cap).ch;
      && !x.ch.ship.stale && ch'.ship.closed == (x.ch.ship.closed || m.Shut?) && Loss(x.ch) <= Loss(ch')
      && (Loss(ch') == 0 ==> ch'.stream == x.ch.stream + Adds(x.ch, m))
  {
    if m.Output? {
      if !x.ch.ship.stale { WriteWhole(c, x.ch, m.p); } else { AppendSwitches(c, x.ch.ship, m.p); }
    } else {
      MoveWritesNothing(c, x, m, j, n, cap);
      NothingAdded(x.ch.stream);
    }
  }

  lemma NothingAdded(b: Bytes)
    ensures b + [] == b
  {}

  lemma MoveWritesNothing(c: ShipConfig, x: Pipe, m: Move, j: JobId, n: nat, cap: nat)
    requires PipeOk(c, x, j, n, cap) && Possible(x, m, j, n, cap) && !m.Output?
    requires !Next(c, x, m, j, n, cap).ch.ship.stale
    ensures var ch' := Next(c, x, m, j, n, cap).ch;
      && !x.ch.ship.stale && ch'.ship.closed == (x.ch.ship.closed || m.Shut?) && Loss(ch') == Loss(x.ch)
      && ch'.stream == x.ch.stream
  {
    if m.Flush? {
      SendQuiet(c, x.ch);
    } else if m.Confirm? || m.Reject? {
      LetGoQuiet(x.ch);
    } else {
      OtherMoveQuiet(c, x, m, j, n, cap);
    }
  }

  lemma OtherMoveQuiet(c: ShipConfig, x: Pipe, m: Move, j: JobId, n: nat, cap: nat)
    requires PipeOk(c, x, j, n, cap) && Possible(x, m, j, n, cap)
      && (m.Arrive? || m.Shut? || m.Elsewhere? || m.GoStale?)
    ensures var ch' := Next(c, x, m, j, n, cap).ch;
      && (m.GoStale? ==> ch'.ship.stale)
      && (!m.GoStale? ==> ch'.ship.closed == (x.ch.ship.closed || m.Shut?)
                          && SameOutput(x.ch, ch'.(ship := ch'.ship.(closed := x.ch.ship.closed))))
  {}

  /** Nothing was written, lost or switched. */
  predicate SameOutput(ch: Channel, ch': Channel) {
    && ch'.stream == ch.stream && ch'.noted == ch.noted && ch'.ship.dropped == ch.ship.dropped
    && ch'.ship.closed == ch.ship.closed && ch'.ship.stale == ch.ship.stale
  }

  lemma SendQuiet(c: ShipConfig, ch: Channel)
    ensures SameOutput(ch, Send(c, ch))
  {}

  lemma LetGoQuiet(ch: Channel)
    requires ch.inflight.Some? && ch.inflight.value < |ch.wire|
      && |ch.wire[ch.inflight.value].chunks| <= |ch.ship.pending|
    ensures SameOutput(ch, LetGo(ch)) && SameOutput(ch, Rejected(LetGo(ch)))
  {}

  /** As long as nothing is lost, the accepted stream is everything that was written. */
  lemma {:induction false} RunWrites(c: ShipConfig, x: Pipe, moves: seq<Move>, y: Pipe, j: JobId, n: nat, cap: nat)
    requires PipeOk(c, x, j, n, cap) && Runs(c, x, moves, y, j, n, cap) && !y.ch.ship.stale
    ensures !x.ch.ship.stale && Loss(x.ch) <= Loss(y.ch)
    ensures Loss(y.ch) == 0 ==> y.ch.stream == x.ch.stream + if x.ch.ship.closed then [] else Outputs(moves)
    decreases |moves|
  {
    if moves != [] {
      var x1 := RunsFirst(c, x, moves, y, j, n, cap);
      RunWrites(c, x1, moves[1..], y, j, n, cap);
      MoveWrites(c, x, moves[0], j, n, cap);
      JoinBytes(x.ch.stream, Adds(x.ch, moves[0]), if x1.ch.ship.closed then [] else Outputs(moves[1..]));
    }
  }

  /** A write that fits what the buffer may hold in all loses nothing. */
  lemma WriteFits(c: ShipConfig, ch: Channel, p: Bytes)
    requires ShipOk(c, ch) && !ch.ship.stale && Loss(ch) == 0
    requires !ch.ship.closed ==> |ch.stream| + |p| <= c.maxBuffered
    ensures Loss(Produce(c, ch, p)) == 0
  {
    AppendSwitches(c, ch.ship, p);
    ConcatSplit(ch.sealed[..ch.gone], ch.ship.pending);
  }

  lemma MoveFits(c: ShipConfig, x: Pipe, m: Move, j: JobId, n: nat, cap: nat)
    requires PipeOk(c, x, j, n, cap) && Possible(x, m, j, n, cap) && !Next(c, x, m, j, n, cap).ch.ship.stale
    requires Loss(x.ch) == 0 && (!x.ch.ship.closed && m.Output? ==> |x.ch.stream| + |m.p| <= c.maxBuffered)
    ensures Loss(Next(c, x, m, j, n, cap).ch) == 0
  {
    if m.Output? && !x.ch.ship.stale { WriteFits(c, x.ch, m.p); }
  }

  lemma {:induction false} RunFits(c: ShipConfig, x: Pipe, moves: seq<Move>, y: Pipe, j: JobId, n: nat, cap: nat)
    requires PipeOk(c, x, j, n, cap) && Runs(c, x, moves, y, j, n, cap) && !y.ch.ship.stale && Loss(x.ch) == 0
    requires !x.ch.ship.closed ==> |x.ch.stream| + |Outputs(moves)| <= c.maxBuffered
    ensures Loss(y.ch) == 0
    decreases |moves|
  {
    if moves != [] {
      var x1 := RunsFirst(c, x, moves, y, j, n, cap);
      RunWrites(c, x1, moves[1..], y, j, n, cap);
      MoveWrites(c, x, moves[0], j, n, cap);
      MoveFits(c, x, moves[0], j, n, cap);
      RunFits(c, x1, moves[1..], y, j, n, cap);
    }
  }

  /**
   A job whose output fits the shipper's buffer loses none of it: whatever the network and the server do, once
   the shipper has closed cleanly the server holds exactly what the job wrote, up to the cap.
   */
  lemma OutputIsStored(c: ShipConfig, x: Pipe, moves: seq<Move>, y: Pipe, j: JobId, n: nat, cap: nat)
    requires PipeOk(c, x, j, n, cap) && Unused(x.ch) && Runs(c, x, moves, y, j, n, cap)
    requires CloseVerdict(y.ch.ship).ClosedOk? && (|Outputs(moves)| <= c.maxBuffered || y.ch.noted == 0)
    ensures Concat(y.w.db.Log(AttemptKey(j, n))) == Outputs(moves)[..Min(cap, |Outputs(moves)|)]
  {
    RunsOk(c, x, moves, y, j, n, cap);
    CleanLosesNothing(c, y, j, n, cap);
    StreamIsOutput(c, x, moves, y, j, n, cap);
  }

  /** Nothing written yet. */
  predicate Unused(ch: Channel) { Loss(ch) == 0 && ch.stream == [] && !ch.ship.closed }

  lemma FreshIsUnused(c: ShipConfig, x: Pipe, j: JobId, n: nat, cap: nat)
    requires Fresh(c, x, j, n, cap)
    ensures Unused(x.ch) && PipeOk(c, x, j, n, cap)
  {
    FreshOk(c, x, j, n, cap);
  }

  lemma CleanLosesNothing(c: ShipConfig, y: Pipe, j: JobId, n: nat, cap: nat)
    requires PipeOk(c, y, j, n, cap) && CloseVerdict(y.ch.ship).ClosedOk?
    ensures !y.ch.ship.stale && Loss(y.ch) == y.ch.noted
    ensures Concat(y.w.db.Log(AttemptKey(j, n))) == y.ch.stream[..Min(cap, |y.ch.stream|)]
  {
    CleanCloseStored(c, y, j, n, cap);
  }

  lemma StreamIsOutput(c: ShipConfig, x: Pipe, moves: seq<Move>, y: Pipe, j: JobId, n: nat, cap: nat)
    requires PipeOk(c, x, j, n, cap) && Runs(c, x, moves, y, j, n, cap) && !y.ch.ship.stale
    requires Unused(x.ch)
    requires |Outputs(moves)| <= c.maxBuffered || Loss(y.ch) == 0
    ensures y.ch.stream == Outputs(moves)
  {
    NothingBefore(Outputs(moves));
    if |Outputs(moves)| <= c.maxBuffered { RunFits(c, x, moves, y, j, n, cap); }
    RunWrites(c, x, moves, y, j, n, cap);
  }

  lemma NothingBefore(b: Bytes)
    ensures [] + b == b
  {}

  /**
   The log carries the start of what the shipper accepted; all of it, up to the cap, once the shipper closed
   cleanly.
   */
  ghost predicate CarriesStream(log: seq<Chunk>, y: Pipe, cap: nat) {
    && (forall i :: 0 <= i < |log| ==> log[i].no == i + 1)
    && Concat(log) <= y.ch.stream
    && (ClosedCleanly(y) ==> Concat(log) == y.ch.stream[..Min(cap, |y.ch.stream|)])
  }

  lemma LogCarriesStream(c: ShipConfig, x: Pipe, moves: seq<Move>, y: Pipe, j: JobId, n: nat, cap: nat)
    requires Fresh(c, x, j, n, cap) && PipeOk(c, x, j, n, cap) && Runs(c, x, moves, y, j, n, cap) && !y.ch.ship.rejected
    ensures CarriesStream(y.w.db.Log(AttemptKey(j, n)), y, cap)
  {
    StoredIsPrefix(c, x, moves, y, j, n, cap);
    RunsOk(c, x, moves, y, j, n, cap);
    if ClosedCleanly(y) { CleanCloseStored(c, y, j, n, cap); }
  }

  lemma PrintedAsStored(
      out: seq<Line>, before: seq<Line>, lines: seq<Chunk>, shown: seq<seq<Chunk>>,
      w: World, j: JobId, named: Option<nat>, n: nat)
    requires Following.EndsWithLog(out, before, lines, shown, w, j, named) && n == Following.Asked(w.db, j, named)
    requires Ascending(w.db.Log(AttemptKey(j, n)))
    ensures Below(before, n) && lines == w.db.Log(AttemptKey(j, n)) && out == before + Tag(n, lines)
  {}

  /**
   From the job's output to the reader's screen: one shipper for the attempt, none of its batches rejected,
   and a follower of the job's log, each with anything else going on. Once the follower has stopped at this
   attempt, what it printed of it is what the shipper accepted.
   */
  lemma FollowerShowsStream(
      c: ShipConfig, x: Pipe, moves: seq<Move>, y: Pipe, j: JobId, n: nat, cap: nat,
      w: World, gaps: seq<Following.Gap>, named: Option<nat>, later: seq<Step>)
    returns (before: seq<Line>, lines: seq<Chunk>)
    requires Fresh(c, x, j, n, cap) && PipeOk(c, x, j, n, cap) && Runs(c, x, moves, y, j, n, cap) && !y.ch.ship.rejected
    requires Reachable(w) && Ok(w) && w.db.HasJob(j) && y.w == Exec(Following.AfterAll(w, gaps), later)
    requires y.w.db.HasJob(j) && Following.Asked(y.w.db, j, named) == n
    requires ReadAll(START, Following.Views(w, gaps, j, named)).1
    ensures var out := ReadAll(START, Following.Views(w, gaps, j, named)).0.out;
      Below(before, n) && out == before + Tag(n, lines) && CarriesStream(lines, y, cap)
  {
    var views := Following.Views(w, gaps, j, named);
    var (r, stopped, k) := ReadAll(START, views);
    before, lines := Following.FollowPrintsFinalLog(w, gaps, j, named, later);
    ShippedInOrder(c, x, moves, y, j, n, cap);
    PrintedAsStored(r.out, before, lines, Shown(0, [], views[..k]), y.w, j, named, n);
    LogCarriesStream(c, x, moves, y, j, n, cap);
  }

  /** A cleanly closed channel has nothing in flight, nothing to seal and nothing to send. */
  lemma CleanIsEmpty(c: ShipConfig, ch: Channel)
    requires ShipOk(c, ch) && WireOk(ch) && CloseVerdict(ch.ship).ClosedOk?
    ensures ch.inflight.None? && ch.ship.pending == [] && ch.ship.cur == [] && Sealed(ch.ship) == ch.ship
      && Batch(c, ch.ship) == []
  {
    CleanCloseMeansDelivered(c, ch.ship, ch.sealed[..ch.gone], ch.stream);
  }

  lemma CleanOutput(c: ShipConfig, ch: Channel, p: Bytes)
    requires ConfigOk(c) && ch.ship.closed && ch.ship.dropped == 0
    ensures var y := Produce(c, ch, p);
      y.ship == ch.ship && y.stream == ch.stream && y.sealed == ch.sealed && y.gone == ch.gone
  {
    assert ch.stream + [] == ch.stream && ch.sealed + [] == ch.sealed;
  }

  lemma CleanFlush(c: ShipConfig, ch: Channel)
    requires Sealed(ch.ship) == ch.ship && Batch(c, ch.ship) == []
    ensures Send(c, ch) == ch
  {
    assert ch.sealed + [] == ch.sealed;
  }

  lemma CleanIsStill(c: ShipConfig, x: Pipe, m: Move, j: JobId, n: nat, cap: nat)
    requires PipeOk(c, x, j, n, cap) && ClosedCleanly(x) && Possible(x, m, j, n, cap)
    ensures var y := Next(c, x, m, j, n, cap).ch;
      y.ship == x.ch.ship && y.stream == x.ch.stream && y.sealed == x.ch.sealed && y.gone == x.ch.gone
  {
    CleanIsEmpty(c, x.ch);
    if m.Output? { CleanOutput(c, x.ch, m.p); }
    if m.Flush? { CleanFlush(c, x.ch); }
  }

  /** What a clean close stored is final: nothing that happens afterwards, on the wire or elsewhere, changes the log. */
  lemma {:induction false} CleanCloseIsFinal(
      c: ShipConfig, x: Pipe, moves: seq<Move>, y: Pipe, j: JobId, n: nat, cap: nat)
    requires PipeOk(c, x, j, n, cap) && ClosedCleanly(x) && Runs(c, x, moves, y, j, n, cap)
    ensures y.w.db.Log(AttemptKey(j, n)) == x.w.db.Log(AttemptKey(j, n)) && y.ch.stream == x.ch.stream
      && ClosedCleanly(y)
    decreases |moves|
  {
    if moves != [] {
      var x1 := Next(c, x, moves[0], j, n, cap);
      MoveOk(c, x, moves[0], j, n, cap);
      CleanIsStill(c, x, moves[0], j, n, cap);
      CleanCloseStored(c, x, j, n, cap);
      CleanCloseStored(c, x1, j, n, cap);
      CleanCloseIsFinal(c, x1, moves[1..], y, j, n, cap);
    }
  }

  // Retries.

  /** No answer reaches the shipper. */
  ghost predicate Unanswered(moves: seq<Move>) {
    forall i :: 0 <= i < |moves| ==> !moves[i].Confirm? && !moves[i].Reject? && !moves[i].GoStale?
  }

  lemma UnansweredRest(moves: seq<Move>)
    requires Unanswered(moves) && moves != []
    ensures Unanswered(moves[1..])
  {}

  /** Since `first` was posted nothing left the shipper, and every post from `from` on begins with that batch. */
  ghost predicate Retrying(c: ShipConfig, ch: Channel, first: Ship, from: nat) {
    && !ch.ship.stale && first.pending <= ch.ship.pending
    && PostsBegin(ch.wire, from, Batch(c, first))
  }

  ghost predicate PostsBegin(wire: seq<Post>, from: nat, batch: seq<Chunk>) {
    forall k :: from <= k < |wire| ==> batch <= wire[k].chunks
  }

  lemma FlushExtends(c: ShipConfig, ch: Channel, first: Ship, from: nat)
    requires ShipOk(c, ch) && Retrying(c, ch, first, from)
    ensures Retrying(c, Send(c, ch), first, from)
  {
    SendShip(c, ch);
    RetryExtends(c, first, Send(c, ch).ship);
  }

  lemma MoveExtends(c: ShipConfig, x: Pipe, m: Move, j: JobId, n: nat, cap: nat, first: Ship, from: nat)
    requires PipeOk(c, x, j, n, cap) && Possible(x, m, j, n, cap) && !m.Confirm? && !m.Reject? && !m.GoStale?
    requires Retrying(c, x.ch, first, from)
    ensures Retrying(c, Next(c, x, m, j, n, cap).ch, first, from)
  {
    if m.Output? { ProduceGrows(c, x.ch, m.p); }
    if m.Flush? { FlushExtends(c, x.ch, first, from); }
  }

  lemma RunsFirst(c: ShipConfig, x: Pipe, moves: seq<Move>, y: Pipe, j: JobId, n: nat, cap: nat) returns (x1: Pipe)
    requires PipeOk(c, x, j, n, cap) && Runs(c, x, moves, y, j, n, cap) && moves != []
    ensures Possible(x, moves[0], j, n, cap) && x1 == Next(c, x, moves[0], j, n, cap)
    ensures PipeOk(c, x1, j, n, cap) && Runs(c, x1, moves[1..], y, j, n, cap)
  {
    x1 := Next(c, x, moves[0], j, n, cap);
    MoveOk(c, x, moves[0], j, n, cap);
  }

  lemma {:induction false} RunExtends(
      c: ShipConfig, x: Pipe, moves: seq<Move>, y: Pipe, j: JobId, n: nat, cap: nat, first: Ship, from: nat)
    requires PipeOk(c, x, j, n, cap) && Runs(c, x, moves, y, j, n, cap) && Unanswered(moves)
      && Retrying(c, x.ch, first, from)
    ensures Retrying(c, y.ch, first, from)
    decreases |moves|
  {
    if moves != [] {
      var x1 := RunsFirst(c, x, moves, y, j, n, cap);
      MoveExtends(c, x, moves[0], j, n, cap, first, from);
      UnansweredRest(moves);
      RunExtends(c, x1, moves[1..], y, j, n, cap, first, from);
    }
  }

  /** A flush that posts starts a retry of its own batch. */
  lemma FlushStarts(c: ShipConfig, ch: Channel)
    requires ShipOk(c, ch) && |ch.wire| < |Send(c, ch).wire|
    ensures var ch' := Send(c, ch);
      Retrying(c, ch', ch'.ship, |ch.wire|) && Batch(c, ch'.ship) == ch'.wire[|ch.wire|].chunks
  {
    if ch.ship.stale { StaleSendsNothing(c, ch); } else { SendShip(c, ch); }
  }

  /**
   A retry extends what it retries: as long as no answer reaches the shipper, whatever else is written,
   delivered or done, every later post begins with the chunks of an earlier one.
   */
  lemma RetriesExtend(c: ShipConfig, x: Pipe, x1: Pipe, moves: seq<Move>, y: Pipe, j: JobId, n: nat, cap: nat)
    requires PipeOk(c, x, j, n, cap) && |x.ch.wire| < |Send(c, x.ch).wire| && Unanswered(moves)
    requires PipeOk(c, x1, j, n, cap) && x1 == Next(c, x, Flush, j, n, cap) && Runs(c, x1, moves, y, j, n, cap)
    ensures PostsBegin(y.ch.wire, |x.ch.wire|, x1.ch.wire[|x.ch.wire|].chunks)
  {
    FlushStarts(c, x.ch);
    RunExtends(c, x1, moves, y, j, n, cap, x1.ch.ship, |x.ch.wire|);
  }

  /** After a flush that posted, with nothing let go since `first`, another flush posts too. */
  lemma RetryPosts(c: ShipConfig, ch: Channel, first: Ship, from: nat)
    requires ShipOk(c, ch) && Retrying(c, ch, first, from) && Batch(c, first) != []
    ensures var ch' := Send(c, ch);
      && first.pending <= ch'.ship.pending && |ch'.wire| == |ch.wire| + 1
      && ch'.wire[|ch.wire|].chunks == Batch(c, ch'.ship)
  {
    SendShip(c, ch);
    RetryExtends(c, first, Send(c, ch).ship);
  }

  /**
   When a retry is the identical batch. Between a post and a later one no answer reaches the shipper,
   whatever else is written, delivered or done: the later post is the same exactly when by then either
   nothing more is pending, or the chunk that follows the first post would not have fitted into it.
   */
  lemma RetriesSameIff(
      c: ShipConfig, x: Pipe, x1: Pipe, moves: seq<Move>, y: Pipe, y1: Pipe, j: JobId, n: nat, cap: nat)
    requires PipeOk(c, x, j, n, cap) && |x.ch.wire| < |Send(c, x.ch).wire| && Unanswered(moves)
    requires PipeOk(c, x1, j, n, cap) && x1 == Next(c, x, Flush, j, n, cap) && Runs(c, x1, moves, y, j, n, cap)
    requires PipeOk(c, y, j, n, cap) && y1 == Next(c, y, Flush, j, n, cap)
    ensures |x.ch.wire| < |x1.ch.wire| && |y.ch.wire| < |y1.ch.wire|
    ensures SameIffNoRoom(c, x1.ch.wire[|x.ch.wire|].chunks, y1.ch.wire[|y.ch.wire|].chunks, y1.ch.ship.pending)
  {
    var first := x1.ch.ship;
    FlushStarts(c, x.ch);
    FlushPosted(c, x.ch);
    RunExtends(c, x1, moves, y, j, n, cap, first, |x.ch.wire|);
    RetryPosts(c, y.ch, first, |x.ch.wire|);
    RetryIsSame(c, first, y1.ch.ship);
  }

  /** The later batch `q` is the earlier one `p` iff nothing else is pending or the next chunk would not fit `p`. */
  ghost predicate SameIffNoRoom(c: ShipConfig, p: seq<Chunk>, q: seq<Chunk>, pending: seq<Chunk>) {
    && p <= pending
    && (q == p <==> |pending| == |p| || |Concat(p)| + |pending[|p|].data| > c.maxPostBytes)
  }

  lemma RetryIsSame(c: ShipConfig, first: Ship, later: Ship)
    requires first.pending <= later.pending && Batch(c, first) != []
    ensures SameIffNoRoom(c, Batch(c, first), Batch(c, later), later.pending)
  {
    RetrySameIff(c, first, later);
    assert later.pending[..|Batch(c, first)|] == Batch(c, first);
  }

  /** What a flush posts is not empty and is the beginning of what is pending. */
  lemma FlushPosted(c: ShipConfig, ch: Channel)
    requires |ch.wire| < |Send(c, ch).wire|
    ensures var ch' := Send(c, ch); [] != ch'.wire[|ch.wire|].chunks <= ch'.ship.pending
  {}

  // The drain.

  /** Moves that do not touch a closed shipper: late output, deliveries and everything elsewhere. */
  ghost predicate Idle(moves: seq<Move>) {
    forall i :: 0 <= i < |moves| ==> IsIdle(moves[i])
  }

  predicate IsIdle(m: Move) { m.Output? || m.Arrive? || m.Elsewhere? || m.Shut? }

  lemma IdleRest(moves: seq<Move>)
    requires Idle(moves) && moves != []
    ensures IsIdle(moves[0]) && Idle(moves[1..])
  {}

  /** The channel as a closed shipper sees it: only the set of posts heard may grow. */
  ghost predicate SameShip(ch: Channel, ch': Channel) {
    ch'.ship == ch.ship && ch'.wire == ch.wire && ch'.inflight == ch.inflight
  }

  lemma IdleMove(c: ShipConfig, x: Pipe, m: Move, j: JobId, n: nat, cap: nat)
    requires PipeOk(c, x, j, n, cap) && Possible(x, m, j, n, cap) && IsIdle(m) && x.ch.ship.closed
    ensures SameShip(x.ch, Next(c, x, m, j, n, cap).ch)
  {}

  lemma {:induction false} IdleRun(c: ShipConfig, x: Pipe, moves: seq<Move>, y: Pipe, j: JobId, n: nat, cap: nat)
    requires PipeOk(c, x, j, n, cap) && Runs(c, x, moves, y, j, n, cap) && Idle(moves) && x.ch.ship.closed
    ensures SameShip(x.ch, y.ch) && PipeOk(c, y, j, n, cap)
    decreases |moves|
  {
    if moves != [] {
      var x1 := RunsFirst(c, x, moves, y, j, n, cap);
      IdleRest(moves);
      IdleMove(c, x, moves[0], j, n, cap);
      IdleRun(c, x1, moves[1..], y, j, n, cap);
    }
  }

  /** `moves` lead from `x`, which meets the invariant, to `y`. */
  ghost predicate Reaches(c: ShipConfig, x: Pipe, moves: seq<Move>, y: Pipe, j: JobId, n: nat, cap: nat) {
    PipeOk(c, x, j, n, cap) && Runs(c, x, moves, y, j, n, cap)
  }

  /** One move from `x`, which meets the invariant, to `y`. */
  ghost predicate Moves(c: ShipConfig, x: Pipe, m: Move, y: Pipe, j: JobId, n: nat, cap: nat) {
    PipeOk(c, x, j, n, cap) && Possible(x, m, j, n, cap) && y == Next(c, x, m, j, n, cap)
  }

  function AnswerMove(o: Outcome): Option<Move> {
    match o
    case Sent => Some(Confirm)
    case Rejected => Some(Reject)
    case Stale => Some(GoStale)
    case Failed => None
  }

  /** The sink's answer to the post in flight, as the system gives it. */
  ghost predicate Answers(c: ShipConfig, x: Pipe, o: Outcome, y: Pipe, j: JobId, n: nat, cap: nat) {
    if AnswerMove(o).None? then y == x else Moves(c, x, AnswerMove(o).value, y, j, n, cap)
  }

  /**
   The final drain, closed shipper and live system together: each round posts a batch, anything idle
   happens, and the sink's answer is the one the system gives - accepted only after a delivery was,
   stale only when the attempt is no longer live. It ends with nothing to send, stale, or out of time.
   */
  ghost predicate Drains(c: ShipConfig, x: Pipe, outcomes: seq<Outcome>, y: Pipe, j: JobId, n: nat, cap: nat)
    decreases |outcomes|
  {
    if outcomes == [] then y == x
    else if Batch(c, Sealed(x.ch.ship)) == [] then Moves(c, x, Flush, y, j, n, cap)
    else
      exists x3 ::
        && PostAnswered(c, x, outcomes[0], x3, j, n, cap)
        && if outcomes[0].Stale? then y == x3 else Drains(c, x3, outcomes[1..], y, j, n, cap)
  }

  /** A round of the drain: a post and its answer. */
  ghost predicate PostAnswered(c: ShipConfig, x: Pipe, o: Outcome, x3: Pipe, j: JobId, n: nat, cap: nat) {
    exists x1, idle, x2 :: Posting(c, x, x1, idle, x2, j, n, cap) && Answers(c, x2, o, x3, j, n, cap)
  }

  /** A post, and what happens until its answer. */
  ghost predicate Posting(c: ShipConfig, x: Pipe, x1: Pipe, idle: seq<Move>, x2: Pipe, j: JobId, n: nat, cap: nat) {
    Moves(c, x, Flush, x1, j, n, cap) && Idle(idle) && Reaches(c, x1, idle, x2, j, n, cap)
  }

  lemma RunsCons(c: ShipConfig, x: Pipe, m: Move, x1: Pipe, moves: seq<Move>, y: Pipe, j: JobId, n: nat, cap: nat)
    requires Moves(c, x, m, x1, j, n, cap) && Reaches(c, x1, moves, y, j, n, cap)
    ensures Reaches(c, x, [m] + moves, y, j, n, cap)
  {
    assert ([m] + moves)[1..] == moves;
  }

  lemma {:induction false} RunsJoin(
      c: ShipConfig, x: Pipe, a: seq<Move>, y: Pipe, b: seq<Move>, z: Pipe, j: JobId, n: nat, cap: nat)
    requires Reaches(c, x, a, y, j, n, cap) && Reaches(c, y, b, z, j, n, cap)
    ensures Reaches(c, x, a + b, z, j, n, cap)
    decreases |a|
  {
    if a == [] {
      assert a + b == b;
    } else {
      var x1 := RunsFirst(c, x, a, y, j, n, cap);
      RunsJoin(c, x1, a[1..], y, b, z, j, n, cap);
      RunsCons(c, x, a[0], x1, a[1..] + b, z, j, n, cap);
      MovesFirst(a, b);
    }
  }

  lemma MovesFirst(a: seq<Move>, b: seq<Move>)
    requires a != []
    ensures a + b == [a[0]] + (a[1..] + b)
  {}

  lemma RunsOne(c: ShipConfig, x: Pipe, m: Move, y: Pipe, j: JobId, n: nat, cap: nat)
    requires Moves(c, x, m, y, j, n, cap)
    ensures Reaches(c, x, [m], y, j, n, cap) && PipeOk(c, y, j, n, cap)
  {
    MoveOk(c, x, m, j, n, cap);
    assert [m][1..] == [];
  }

  lemma Posted(c: ShipConfig, x: Pipe, x1: Pipe, idle: seq<Move>, x2: Pipe, j: JobId, n: nat, cap: nat)
    requires x.ch.ship.closed && Batch(c, Sealed(x.ch.ship)) != [] && Posting(c, x, x1, idle, x2, j, n, cap)
    ensures Reaches(c, x, [Flush] + idle, x2, j, n, cap) && PipeOk(c, x2, j, n, cap)
    ensures x2.ch.ship == Sealed(x.ch.ship) && x2.ch.inflight == Some(|x.ch.wire|)
    ensures x2.ch.wire == x.ch.wire + [Post(x.ch.gone, Batch(c, Sealed(x.ch.ship)))]
  {
    IdleRun(c, x1, idle, x2, j, n, cap);
    RunsCons(c, x, Flush, x1, idle, x2, j, n, cap);
  }

  /** The batch in flight is what the shipper would forget. */
  ghost predicate InFlight(ch: Channel, batch: seq<Chunk>) {
    && |ch.wire| > 0 && ch.inflight == Some(|ch.wire| - 1)
    && ch.wire[|ch.wire| - 1].chunks == batch && |batch| <= |ch.ship.pending|
  }

  /** The system's answer has on the shipper the effect the drain gives it. */
  lemma AnswerEffect(c: ShipConfig, x: Pipe, o: Outcome, y: Pipe, batch: seq<Chunk>, j: JobId, n: nat, cap: nat)
    requires PipeOk(c, x, j, n, cap) && InFlight(x.ch, batch) && Answers(c, x, o, y, j, n, cap)
    ensures y.ch.ship == Answered(x.ch.ship, |batch|, o) && y.ch.wire == x.ch.wire
  {
    AnswerChannel(c, x, o, y, j, n, cap);
    AnsweredShip(x.ch, batch, o);
  }

  lemma ConfirmChannel(c: ShipConfig, x: Pipe, y: Pipe, j: JobId, n: nat, cap: nat)
    requires Moves(c, x, Confirm, y, j, n, cap)
    ensures y.ch == LetGo(x.ch)
  {}

  lemma RejectChannel(c: ShipConfig, x: Pipe, y: Pipe, j: JobId, n: nat, cap: nat)
    requires Moves(c, x, Reject, y, j, n, cap)
    ensures y.ch == Rejected(LetGo(x.ch))
  {}

  lemma StaleChannel(c: ShipConfig, x: Pipe, y: Pipe, j: JobId, n: nat, cap: nat)
    requires Moves(c, x, GoStale, y, j, n, cap)
    ensures y.ch == Dropped(x.ch)
  {}

  lemma AnswerChannel(c: ShipConfig, x: Pipe, o: Outcome, y: Pipe, j: JobId, n: nat, cap: nat)
    requires x.ch.inflight.Some? && x.ch.inflight.value < |x.ch.wire|
    requires |x.ch.wire[x.ch.inflight.value].chunks| <= |x.ch.ship.pending| && Answers(c, x, o, y, j, n, cap)
    ensures y.ch == AnsweredChannel(x.ch, o)
  {
    match o {
      case Sent => ConfirmChannel(c, x, y, j, n, cap);
      case Rejected => RejectChannel(c, x, y, j, n, cap);
      case Stale => StaleChannel(c, x, y, j, n, cap);
      case Failed =>
    }
  }

  /** The channel after the answer. */
  function AnsweredChannel(ch: Channel, o: Outcome): Channel
    requires ch.inflight.Some? && ch.inflight.value < |ch.wire|
    requires |ch.wire[ch.inflight.value].chunks| <= |ch.ship.pending|
  {
    match o
    case Sent => LetGo(ch)
    case Rejected => Rejected(LetGo(ch))
    case Stale => Dropped(ch)
    case Failed => ch
  }

  lemma AnsweredShip(ch: Channel, batch: seq<Chunk>, o: Outcome)
    requires InFlight(ch, batch)
    ensures AnsweredChannel(ch, o).ship == Answered(ch.ship, |batch|, o) && AnsweredChannel(ch, o).wire == ch.wire
  {}

  lemma AnswerMoves(c: ShipConfig, x: Pipe, o: Outcome, y: Pipe, j: JobId, n: nat, cap: nat) returns (moves: seq<Move>)
    requires PipeOk(c, x, j, n, cap) && Answers(c, x, o, y, j, n, cap)
    ensures Reaches(c, x, moves, y, j, n, cap) && PipeOk(c, y, j, n, cap)
  {
    moves := [];
    if AnswerMove(o).Some? {
      moves := [AnswerMove(o).value];
      RunsOne(c, x, AnswerMove(o).value, y, j, n, cap);
    }
  }

  /** What a round of the drain does to the shipper and the wire. */
  ghost predicate RoundDone(c: ShipConfig, ch: Channel, o: Outcome, ch3: Channel) {
    var s1 := Sealed(ch.ship);
    var batch := Batch(c, s1);
    && ch3.ship == Answered(s1, |batch|, o) && ch3.wire == ch.wire + [Post(ch.gone, batch)]
    && ch3.ship.closed == ch.ship.closed
  }

  lemma AnsweredStaysClosed(c: ShipConfig, s: Ship, o: Outcome)
    ensures Answered(Sealed(s), |Batch(c, Sealed(s))|, o).closed == s.closed
  {}

  lemma RoundEffect(
      c: ShipConfig, x: Pipe, x1: Pipe, idle: seq<Move>, x2: Pipe, o: Outcome, x3: Pipe, j: JobId, n: nat, cap: nat)
    returns (moves: seq<Move>)
    requires PipeOk(c, x, j, n, cap) && x.ch.ship.closed && Batch(c, Sealed(x.ch.ship)) != []
    requires Posting(c, x, x1, idle, x2, j, n, cap) && Answers(c, x2, o, x3, j, n, cap)
    ensures Reaches(c, x, moves, x3, j, n, cap) && PipeOk(c, x3, j, n, cap) && RoundDone(c, x.ch, o, x3.ch)
  {
    Posted(c, x, x1, idle, x2, j, n, cap);
    AnswerEffect(c, x2, o, x3, Batch(c, Sealed(x.ch.ship)), j, n, cap);
    AnsweredStaysClosed(c, x.ch.ship, o);
    var last := AnswerMoves(c, x2, o, x3, j, n, cap);
    RunsJoin(c, x, [Flush] + idle, x2, last, x3, j, n, cap);
    moves := [Flush] + idle + last;
  }

  /** One round of the drain, as moves and as what it does to the shipper. */
  lemma DrainRound(c: ShipConfig, x: Pipe, o: Outcome, x3: Pipe, j: JobId, n: nat, cap: nat) returns (moves: seq<Move>)
    requires PipeOk(c, x, j, n, cap) && x.ch.ship.closed && Batch(c, Sealed(x.ch.ship)) != []
    requires PostAnswered(c, x, o, x3, j, n, cap)
    ensures Reaches(c, x, moves, x3, j, n, cap) && PipeOk(c, x3, j, n, cap) && RoundDone(c, x.ch, o, x3.ch)
  {
    var x1, idle, x2 :| Posting(c, x, x1, idle, x2, j, n, cap) && Answers(c, x2, o, x3, j, n, cap);
    moves := RoundEffect(c, x, x1, idle, x2, o, x3, j, n, cap);
  }

  /** The chunks of the posts from `from` on. */
  function PostsFrom(wire: seq<Post>, from: nat): seq<seq<Chunk>>
    requires from <= |wire|
  {
    seq(|wire| - from, k requires 0 <= k < |wire| - from => wire[from + k].chunks)
  }

  lemma PostsFromFirst(wire: seq<Post>, from: nat)
    requires from < |wire|
    ensures PostsFrom(wire, from) == [wire[from].chunks] + PostsFrom(wire, from + 1)
  {}

  /** What a drain has done to the shipper and the wire. */
  ghost predicate Drained(ch: Channel, r: Ship, sent: seq<seq<Chunk>>, ch': Channel) {
    ch'.ship == r && ch.wire <= ch'.wire && PostsFrom(ch'.wire, |ch.wire|) == sent
  }

  lemma DrainedOn(ch: Channel, ch3: Channel, post: Post, r: Ship, sent: seq<seq<Chunk>>, ch': Channel)
    requires ch3.wire == ch.wire + [post] && Drained(ch3, r, sent, ch')
    ensures Drained(ch, r, [post.chunks] + sent, ch')
  {
    PostsFromFirst(ch'.wire, |ch.wire|);
    assert ch'.wire[|ch.wire|] == ch3.wire[|ch.wire|];
  }

  /** A drain with nothing left to send. */
  lemma DrainEnds(c: ShipConfig, x: Pipe, y: Pipe, j: JobId, n: nat, cap: nat)
    requires PipeOk(c, x, j, n, cap) && Batch(c, Sealed(x.ch.ship)) == [] && Moves(c, x, Flush, y, j, n, cap)
    ensures Drained(x.ch, Sealed(x.ch.ship), [], y.ch) && Reaches(c, x, [Flush], y, j, n, cap)
      && PipeOk(c, y, j, n, cap)
  {
    RunsOne(c, x, Flush, y, j, n, cap);
  }

  /** `moves` drain the closed shipper from `x` to `y` with these answers. */
  ghost predicate DrainedBy(
      c: ShipConfig, x: Pipe, outcomes: seq<Outcome>, moves: seq<Move>, y: Pipe, j: JobId, n: nat, cap: nat)
  {
    && Reaches(c, x, moves, y, j, n, cap) && PipeOk(c, y, j, n, cap)
    && Drained(x.ch, DrainTo(c, x.ch.ship, outcomes).0, DrainTo(c, x.ch.ship, outcomes).1, y.ch)
  }

  lemma DrainGoesStale(
      c: ShipConfig, x: Pipe, outcomes: seq<Outcome>, moves: seq<Move>, y: Pipe, j: JobId, n: nat, cap: nat)
    requires outcomes != [] && outcomes[0].Stale? && Batch(c, Sealed(x.ch.ship)) != []
    requires Reaches(c, x, moves, y, j, n, cap) && PipeOk(c, y, j, n, cap) && RoundDone(c, x.ch, outcomes[0], y.ch)
    ensures DrainedBy(c, x, outcomes, moves, y, j, n, cap)
  {
    DrainToFirst(c, x.ch.ship, outcomes);
    assert PostsFrom(y.ch.wire, |y.ch.wire|) == [];
    DrainedOn(x.ch, y.ch, Post(x.ch.gone, Batch(c, Sealed(x.ch.ship))), y.ch.ship, [], y.ch);
  }

  lemma DrainGoesOn(
      c: ShipConfig, x: Pipe, outcomes: seq<Outcome>, a: seq<Move>, x3: Pipe, b: seq<Move>, y: Pipe,
      j: JobId, n: nat, cap: nat)
    requires outcomes != [] && !outcomes[0].Stale? && Batch(c, Sealed(x.ch.ship)) != []
    requires Reaches(c, x, a, x3, j, n, cap) && RoundDone(c, x.ch, outcomes[0], x3.ch)
    requires DrainedBy(c, x3, outcomes[1..], b, y, j, n, cap)
    ensures DrainedBy(c, x, outcomes, a + b, y, j, n, cap)
  {
    var d := DrainTo(c, x3.ch.ship, outcomes[1..]);
    DrainToFirst(c, x.ch.ship, outcomes);
    DrainedOn(x.ch, x3.ch, Post(x.ch.gone, Batch(c, Sealed(x.ch.ship))), d.0, d.1, y.ch);
    RunsJoin(c, x, a, x3, b, y, j, n, cap);
  }

  /**
   The drain of a closed shipper is a run of the system, and what it leaves of the shipper and puts on
   the wire is what the drain loop computes from the answers.
   */
  lemma {:induction false} DrainIsRun(
      c: ShipConfig, x: Pipe, outcomes: seq<Outcome>, y: Pipe, j: JobId, n: nat, cap: nat)
    returns (moves: seq<Move>)
    requires PipeOk(c, x, j, n, cap) && x.ch.ship.closed && Drains(c, x, outcomes, y, j, n, cap)
    ensures DrainedBy(c, x, outcomes, moves, y, j, n, cap)
    decreases |outcomes|
  {
    if outcomes == [] {
      moves := [];
      assert PostsFrom(y.ch.wire, |x.ch.wire|) == [];
    } else if Batch(c, Sealed(x.ch.ship)) == [] {
      moves := [Flush];
      DrainEnds(c, x, y, j, n, cap);
    } else {
      var x3 :|
        && PostAnswered(c, x, outcomes[0], x3, j, n, cap)
        && if outcomes[0].Stale? then y == x3 else Drains(c, x3, outcomes[1..], y, j, n, cap);
      var first := DrainRound(c, x, outcomes[0], x3, j, n, cap);
      if outcomes[0].Stale? {
        moves := first;
        DrainGoesStale(c, x, outcomes, first, y, j, n, cap);
      } else {
        var rest := DrainIsRun(c, x3, outcomes[1..], y, j, n, cap);
        moves := first + rest;
        DrainGoesOn(c, x, outcomes, first, x3, rest, y, j, n, cap);
      }
    }
  }

  /**
   Closing delivers: the shipper is shut and drained against the live system. What `Close` reports is
   then the verdict on the drained shipper; and when it reports nothing wrong, the server holds the
   whole accepted stream up to its cap, with every lost byte noted in it.
   */
  lemma CloseDelivers(c: ShipConfig, x: Pipe, x0: Pipe, outcomes: seq<Outcome>, y: Pipe, j: JobId, n: nat, cap: nat)
    requires Moves(c, x, Shut, x0, j, n, cap) && Drains(c, x0, outcomes, y, j, n, cap)
    ensures PipeOk(c, y, j, n, cap) && y.ch.ship == DrainTo(c, x.ch.ship.(closed := true), outcomes).0
    ensures CloseVerdict(y.ch.ship).ClosedOk? ==>
      var rows := y.w.db.Log(AttemptKey(j, n));
      && rows == Capped(cap, y.ch.sealed) && Concat(rows) == y.ch.stream[..Min(cap, |y.ch.stream|)]
      && y.ch.offered == y.ch.retained + y.ch.noted
  {
    RunsOne(c, x, Shut, x0, j, n, cap);
    var _ := DrainIsRun(c, x0, outcomes, y, j, n, cap);
    if CloseVerdict(y.ch.ship).ClosedOk? { CleanCloseStored(c, y, j, n, cap); }
  }
}
