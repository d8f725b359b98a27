/** The log table over whole runs of the system: what it holds of each attempt, and when it stops changing. */
module Logs {
  import opened Model
  import opened Ingest
  import opened Ops
  import opened Invariants
  import opened Transactions
  import opened System
  import opened Lifecycle

  function Truncations(events: seq<Event>, j: JobId, n: nat): nat {
    if events == [] then 0
    else
      var e := events[|events| - 1];
      Truncations(events[..|events| - 1], j, n) + if e.LogsTruncated? && e.job == j && e.attempt == n then 1 else 0
  }

  lemma TruncationsLast(events: seq<Event>, e: Event, j: JobId, n: nat)
    ensures Truncations(events + [e], j, n) == Truncations(events, j, n) + if e.LogsTruncated? && e.job == j
      && e.attempt == n then 1 else 0
  {
    assert (events + [e])[..|events|] == events;
  }

  lemma {:induction false} HasTruncationCounts(events: seq<Event>, j: JobId, n: nat)
    ensures HasTruncation(events, j, n) <==> Truncations(events, j, n) > 0
  {
    if events != [] {
      var front, e := events[..|events| - 1], events[|events| - 1];
      HasTruncationCounts(front, j, n);
      if HasTruncation(front, j, n) {
        var i :| 0 <= i < |front| && front[i].LogsTruncated? && front[i].job == j && front[i].attempt == n;
        assert events[i] == front[i];
      }
    }
  }

  // Changes that leave logs alone.

  lemma SilentDo(db: Db, now: Time, op: Op, j: JobId, n: nat)
    requires Inv(db) && Enabled(db, op) && !op.AppendLog?
    ensures Do(db, now, op).logs == db.logs && Truncations(Do(db, now, op).events, j, n) == Truncations(db.events, j, n)
  {
    var db' := Do(db, now, op);
    EventRunOpen(db, now, op);
    if db'.events != db.events {
      var e := db'.events[|db.events|];
      assert db'.events == db.events + [e];
      TruncationsLast(db.events, e, j, n);
    }
  }

  lemma {:induction false} SilentDoAll(db: Db, now: Time, ops: seq<Op>, j: JobId, n: nat)
    requires Inv(db) && now != NEVER && Silent(ops) && EnabledAll(db, now, ops)
    ensures var db' := DoAll(db, now, ops);
      db'.logs == db.logs && Truncations(db'.events, j, n) == Truncations(db.events, j, n)
    decreases |ops|
  {
    if ops != [] {
      InvDo(db, now, ops[0]);
      SilentDo(db, now, ops[0], j, n);
      SilentDoAll(Do(db, now, ops[0]), now, ops[1..], j, n);
    }
  }

  lemma StepSilent(w: World, s: Step, j: JobId, n: nat)
    requires Ok(w) && !s.AppendLogs?
    ensures var db' := Apply(w, s).0.db;
      db'.logs == w.db.logs && Truncations(db'.events, j, n) == Truncations(w.db.events, j, n)
  {
    StepLeads(w, s);
    var ops :| Silent(ops) && EnabledAll(w.db, w.now, ops) && DoAll(w.db, w.now, ops) == Apply(w, s).0.db;
    SilentDoAll(w.db, w.now, ops, j, n);
  }

  // What was delivered.

  /** The chunks of attempt (j, n) that got past the fence along `steps`, in order of arrival. */
  ghost function Delivered(w: World, steps: seq<Step>, j: JobId, n: nat): seq<Chunk>
    requires Ok(w)
    decreases |steps|
  {
    if steps == [] then []
    else
      StepOk(w, steps[0]);
      Brings(w, steps[0], j, n) + Delivered(Apply(w, steps[0]).0, steps[1..], j, n)
  }

  ghost predicate IsDelivery(w: World, s: Step, j: JobId, n: nat)
    requires Ok(w)
  {
    s.AppendLogs? && s.job == j && s.attempt == n && Apply(w, s).1.Accepted?
  }

  /** The log cap does not change over a restart. */
  ghost predicate FixedCap(w: World, steps: seq<Step>, cap: nat) {
    w.cfg.logCap == cap && forall i ::
      0 <= i < |steps| && steps[i].Restart? ==> WithDefaultConfig(steps[i].config).logCap == cap
  }

  /** The table holds what the deliveries `ds` leave, and records their loss once. */
  ghost predicate Ingested(db: Db, cap: nat, j: JobId, n: nat, ds: seq<Chunk>) {
    && db.Log(AttemptKey(j, n)) == Absorb([], cap, ds)
    && Truncations(db.events, j, n) == if Loses([], cap, ds) then 1 else 0
  }

  /** The chunks a step delivers to attempt (j, n). */
  ghost function Brings(w: World, s: Step, j: JobId, n: nat): seq<Chunk>
    requires Ok(w)
  {
    if IsDelivery(w, s, j, n) then s.chunks else []
  }

  lemma AppendIngests(db: Db, now: Time, cap: nat, j: JobId, n: nat, ds: seq<Chunk>, chunks: seq<Chunk>)
    requires db.Live(j, n) && Ingested(db, cap, j, n, ds)
    ensures Ingested(Do(db, now, AppendLog(j, cap, chunks)), cap, j, n, ds + chunks)
  {
    AbsorbSplit([], cap, ds, chunks);
    LosesSplit([], cap, ds, chunks);
    HasTruncationCounts(db.events, j, n);
    TruncationsLast(db.events, LogsTruncated(db.jobs[j].run, j, n), j, n);
  }

  lemma StepIngests(w: World, s: Step, cap: nat, j: JobId, n: nat, ds: seq<Chunk>)
    requires Ok(w) && w.cfg.logCap == cap && Ingested(w.db, cap, j, n, ds)
    ensures Ingested(Apply(w, s).0.db, cap, j, n, ds + Brings(w, s, j, n))
  {
    if IsDelivery(w, s, j, n) {
      AppendIngests(w.db, w.now, cap, j, n, ds, s.chunks);
    } else {
      assert ds + [] == ds;
      if s.AppendLogs? { OtherDelivery(w, s, j, n); } else { StepSilent(w, s, j, n); }
    }
  }

  lemma OtherDelivery(w: World, s: Step, j: JobId, n: nat)
    requires Ok(w) && s.AppendLogs? && !IsDelivery(w, s, j, n)
    ensures var db' := Apply(w, s).0.db;
      db'.Log(AttemptKey(j, n)) == w.db.Log(AttemptKey(j, n))
        && Truncations(db'.events, j, n) == Truncations(w.db.events, j, n)
  {
    if Apply(w, s).1.Accepted? {
      var e := LogsTruncated(w.db.jobs[s.job].run, s.job, w.db.jobs[s.job].attempt);
      TruncationsLast(w.db.events, e, j, n);
    }
  }

  lemma {:induction false} DeliveriesIngest(
      w: World, steps: seq<Step>, cap: nat, j: JobId, n: nat, ds: seq<Chunk>, all: seq<Chunk>)
    requires Ok(w) && FixedCap(w, steps, cap) && Ingested(w.db, cap, j, n, ds) && all == ds + Delivered(w, steps, j, n)
    ensures Ingested(Exec(w, steps).db, cap, j, n, all)
    decreases |steps|
  {
    if steps == [] {
      assert all == ds;
    } else {
      var w1, d := Apply(w, steps[0]).0, Brings(w, steps[0], j, n);
      StepOk(w, steps[0]);
      StepIngests(w, steps[0], cap, j, n, ds);
      CapStays(w, steps, cap);
      DeliveredFirst(w, steps, j, n);
      Regroup(ds, d, Delivered(w1, steps[1..], j, n));
      DeliveriesIngest(w1, steps[1..], cap, j, n, ds + d, all);
    }
  }

  lemma DeliveredFirst(w: World, steps: seq<Step>, j: JobId, n: nat)
    requires Ok(w) && steps != [] && Ok(Apply(w, steps[0]).0)
    ensures Delivered(w, steps, j, n) == Brings(w, steps[0], j, n) + Delivered(Apply(w, steps[0]).0, steps[1..], j, n)
  {}

  lemma Regroup(a: seq<Chunk>, b: seq<Chunk>, c: seq<Chunk>)
    ensures a + (b + c) == (a + b) + c
  {}

  lemma CapStays(w: World, steps: seq<Step>, cap: nat)
    requires Ok(w) && FixedCap(w, steps, cap) && steps != []
    ensures FixedCap(Apply(w, steps[0]).0, steps[1..], cap)
  {}

  /**
   Log ingest over any run: for any batches in any order and with any repeats, an attempt's table holds the
   first delivery of every number cut at the cap; its bytes are the first `cap` bytes of those deliveries;
   and exactly one truncation event exists iff bytes were lost.
   */
  lemma LogIsFirstDeliveriesCapped(w0: World, steps: seq<Step>, cap: nat, j: JobId, n: nat)
    requires Initial(w0) && Ok(w0) && FixedCap(w0, steps, cap)
    ensures var first := Firsts(Delivered(w0, steps, j, n)); var db := Exec(w0, steps).db;
      && db.Log(AttemptKey(j, n)) == Capped(cap, first)
      && Concat(db.Log(AttemptKey(j, n))) == Concat(first)[..Min(cap, |Concat(first)|)]
      && Truncations(db.events, j, n) == if |Concat(first)| > cap then 1 else 0
  {
    var ds := Delivered(w0, steps, j, n);
    assert [] + ds == ds;
    DeliveriesIngest(w0, steps, cap, j, n, [], ds);
    AbsorbClosedForm(cap, ds);
    LosesClosedForm(cap, ds);
    CappedConcat(cap, Firsts(ds));
  }

  // The same when a restart changes the cap.

  /** The chunks delivered to attempt (j, n) along `steps`, each with the cap in force. */
  ghost function Arrived(w: World, steps: seq<Step>, j: JobId, n: nat): seq<Arrival>
    requires Ok(w)
    decreases |steps|
  {
    if steps == [] then []
    else
      StepOk(w, steps[0]);
      At(Brings(w, steps[0], j, n), w.cfg.logCap) + Arrived(Apply(w, steps[0]).0, steps[1..], j, n)
  }

  /** The table holds what the arrivals leave, and records their loss once. */
  ghost predicate IngestedAll(db: Db, j: JobId, n: nat, arrivals: seq<Arrival>) {
    && db.Log(AttemptKey(j, n)) == Filled(FirstArrivals(arrivals))
    && Truncations(db.events, j, n) == if Cut(FirstArrivals(arrivals)) then 1 else 0
  }

  lemma AppendArrives(db: Db, now: Time, cap: nat, j: JobId, n: nat, before: seq<Arrival>, chunks: seq<Chunk>)
    requires db.Live(j, n) && IngestedAll(db, j, n, before)
    ensures IngestedAll(Do(db, now, AppendLog(j, cap, chunks)), j, n, before + At(chunks, cap))
  {
    FillBatch(before, cap, chunks);
    HasTruncationCounts(db.events, j, n);
    TruncationsLast(db.events, LogsTruncated(db.jobs[j].run, j, n), j, n);
  }

  lemma StepArrives(w: World, s: Step, j: JobId, n: nat, before: seq<Arrival>)
    requires Ok(w) && IngestedAll(w.db, j, n, before)
    ensures IngestedAll(Apply(w, s).0.db, j, n, before + At(Brings(w, s, j, n), w.cfg.logCap))
  {
    if IsDelivery(w, s, j, n) {
      AppendArrives(w.db, w.now, w.cfg.logCap, j, n, before, s.chunks);
    } else {
      assert before + At([], w.cfg.logCap) == before;
      if s.AppendLogs? { OtherDelivery(w, s, j, n); } else { StepSilent(w, s, j, n); }
    }
  }

  lemma {:induction false} ArrivalsIngest(
      w: World, steps: seq<Step>, j: JobId, n: nat, before: seq<Arrival>, all: seq<Arrival>)
    requires Ok(w) && IngestedAll(w.db, j, n, before) && all == before + Arrived(w, steps, j, n)
    ensures IngestedAll(Exec(w, steps).db, j, n, all)
    decreases |steps|
  {
    if steps == [] {
      assert all == before;
    } else {
      StepOk(w, steps[0]);
      StepArrives(w, steps[0], j, n, before);
      var w1, d := Apply(w, steps[0]).0, At(Brings(w, steps[0], j, n), w.cfg.logCap);
      ArrivedFirst(w, steps, j, n, before, w1, d);
      ArrivalsIngest(w1, steps[1..], j, n, before + d, all);
    }
  }

  lemma ArrivedFirst(w: World, steps: seq<Step>, j: JobId, n: nat, before: seq<Arrival>, w1: World, d: seq<Arrival>)
    requires Ok(w) && steps != [] && w1 == Apply(w, steps[0]).0 && Ok(w1)
    requires d == At(Brings(w, steps[0], j, n), w.cfg.logCap)
    ensures before + Arrived(w, steps, j, n) == before + d + Arrived(w1, steps[1..], j, n)
  {}

  /**
   Log ingest over any run, restarts with other caps included: one row per number, from its first delivery,
   cut to what the cap in force then leaves beside the earlier rows; and one truncation event exactly when
   some row is shorter than its first delivery.
   */
  lemma LogIsFirstDeliveriesCut(w0: World, steps: seq<Step>, j: JobId, n: nat)
    requires Initial(w0) && Ok(w0)
    ensures var first := FirstArrivals(Arrived(w0, steps, j, n)); var db := Exec(w0, steps).db;
      var rows := db.Log(AttemptKey(j, n));
      && rows == Filled(first)
      && (forall i :: 0 <= i < |rows| ==> rows[i].no == first[i].chunk.no && rows[i].data <= first[i].chunk.data)
      && Truncations(db.events, j, n)
        == if exists i :: 0 <= i < |rows| && |rows[i].data| < |first[i].chunk.data| then 1 else 0
  {
    var all := Arrived(w0, steps, j, n);
    assert [] + all == all;
    ArrivalsIngest(w0, steps, j, n, [], all);
    var first := FirstArrivals(all);
    forall i | 0 <= i < |first| ensures Filled(first)[i].data <= first[i].chunk.data { FilledIsPrefix(first, i); }
  }

  /** A granted attempt's log is frozen once it is no longer the running one, whatever is redelivered. */
  lemma {:induction false} LogIsFrozen(w: World, steps: seq<Step>, j: JobId, n: nat)
    requires Ok(w) && w.db.HasJob(j) && n <= w.db.jobs[j].attempt && !w.db.Live(j, n)
    ensures Exec(w, steps).db.Log(AttemptKey(j, n)) == w.db.Log(AttemptKey(j, n))
    decreases |steps|
  {
    if steps != [] {
      StepOk(w, steps[0]);
      StepLater(w, steps[0]);
      var w1 := Apply(w, steps[0]).0;
      if steps[0].AppendLogs? { OtherDelivery(w, steps[0], j, n); } else { StepSilent(w, steps[0], j, n); }
      assert Later(w.db.jobs[j], w1.db.jobs[j]);
      LogIsFrozen(w1, steps[1..], j, n);
    }
  }

  /** Nothing but a delivery to the live attempt changes a log, and that only appends rows. */
  lemma StepExtendsLog(w: World, s: Step, k: AttemptKey)
    requires Ok(w)
    ensures w.db.Log(k) <= Apply(w, s).0.db.Log(k)
    ensures !IsDelivery(w, s, k.job, k.attempt) ==> Apply(w, s).0.db.Log(k) == w.db.Log(k)
  {
    if IsDelivery(w, s, k.job, k.attempt) {
      AbsorbExtends(w.db.Log(k), w.cfg.logCap, s.chunks);
    } else if s.AppendLogs? {
      OtherDelivery(w, s, k.job, k.attempt);
    } else {
      StepSilent(w, s, k.job, k.attempt);
    }
  }

  lemma AppendEffect(w: World, j: JobId, n: nat, chunks: seq<Chunk>)
    requires Ok(w)
    ensures var (w', reply) := Apply(w, AppendLogs(j, n, chunks)); var k := AttemptKey(j, n);
      && w'.cfg == w.cfg
      && w'.db.Log(k) == if reply.Accepted? then Absorb(w.db.Log(k), w.cfg.logCap, chunks) else w.db.Log(k)
  {
    StepExtendsLog(w, AppendLogs(j, n, chunks), AttemptKey(j, n));
  }

  // What every table looks like.

  /** Only granted attempts have output stored, under distinct positive numbers. */
  ghost predicate LogsBelong(db: Db) {
    forall k: AttemptKey :: Belongs(db, k)
  }

  ghost predicate Belongs(db: Db, k: AttemptKey) {
    && (db.Log(k) != [] ==> db.HasJob(k.job) && 0 < k.attempt <= db.jobs[k.job].attempt)
    && ValidChunks(db.Log(k)) && Keyed(db.Log(k))
  }

  lemma {:induction false} AbsorbValid(rows: seq<Chunk>, cap: nat, cs: seq<Chunk>)
    requires ValidChunks(rows) && ValidChunks(cs)
    ensures ValidChunks(Absorb(rows, cap, cs))
  {
    if cs != [] { AbsorbValid(rows, cap, cs[..|cs| - 1]); }
  }

  lemma StepBelongs(w: World, s: Step, k: AttemptKey)
    requires Ok(w) && Belongs(w.db, k)
    ensures Belongs(Apply(w, s).0.db, k)
  {
    var db' := Apply(w, s).0.db;
    StepExtendsLog(w, s, k);
    StepLater(w, s);
    if IsDelivery(w, s, k.job, k.attempt) {
      assert JobOk(w.db.jobs[k.job]);
      AbsorbValid(w.db.Log(k), w.cfg.logCap, s.chunks);
      AbsorbKeyed(w.db.Log(k), w.cfg.logCap, s.chunks);
    }
    if w.db.HasJob(k.job) { assert Later(w.db.jobs[k.job], db'.jobs[k.job]); }
  }

  lemma {:induction false} ExecLogsBelong(w: World, steps: seq<Step>)
    requires Ok(w) && LogsBelong(w.db)
    ensures LogsBelong(Exec(w, steps).db)
    decreases |steps|
  {
    if steps != [] {
      StepOk(w, steps[0]);
      forall k: AttemptKey ensures Belongs(Apply(w, steps[0]).0.db, k) { StepBelongs(w, steps[0], k); }
      ExecLogsBelong(Apply(w, steps[0]).0, steps[1..]);
    }
  }

  lemma ReachableLogsBelong(w: World)
    requires Reachable(w)
    ensures Ok(w) && LogsBelong(w.db)
  {
    var w0, steps :| Initial(w0) && Ok(w0) && Exec(w0, steps) == w;
    ExecLogsBelong(w0, steps);
  }
}
