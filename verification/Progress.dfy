/**
 What `advance` computes, and what that gives every committed state: no run can get stuck, and a run's
 verdict is the verdict of its jobs.
 */
module Progress {
  import opened Model
  import opened Ops
  import opened Invariants
  import opened Transactions
  import opened System
  import opened Pipelines
  import Graphs

  /** No pending job of the run could be decided. */
  ghost predicate Settled(db: Db, r: RunId)
    requires db.WellFormed()
  {
    forall j :: 0 <= j < |db.jobs| && db.jobs[j].run == r && db.jobs[j].state.Pending? ==>
      !AnyDead(db.jobs, db.deps[j]) && !AllSucceeded(db.jobs, db.deps[j])
  }

  /** A run whose jobs are all over is over. */
  ghost predicate Finalized(db: Db, r: RunId)
    requires r < |db.runs|
  {
    AllTerminal(db.jobs, r) ==> db.runs[r].state.Terminal()
  }

  ghost predicate Quiet(db: Db) {
    db.WellFormed() && forall r :: 0 <= r < |db.runs| ==> Settled(db, r) && Finalized(db, r)
  }

  // advance reaches a fixpoint and touches only its run.

  /** `db'` differs from `db` only in rows of run `r`, its state, the events and the logs. */
  ghost predicate OnlyRun(db: Db, db': Db, r: RunId) {
    && |db'.jobs| == |db.jobs| && db'.deps == db.deps && |db'.runs| == |db.runs|
    && (forall j :: 0 <= j < |db.jobs| ==>
          db'.jobs[j].run == db.jobs[j].run && (db.jobs[j].run != r ==> db'.jobs[j] == db.jobs[j]))
    && (forall q :: 0 <= q < |db.runs| && q != r ==> db'.runs[q] == db.runs[q])
  }

  lemma OnlyRunOn(a: Db, b: Db, c: Db, r: RunId)
    requires OnlyRun(a, b, r) && OnlyRun(b, c, r)
    ensures OnlyRun(a, c, r)
  {}

  lemma VisitOnlyRun(db: Db, now: Time, r: RunId, i: JobId)
    requires db.WellFormed() && i < |db.jobs|
    ensures OnlyRun(db, Visit(db, now, r, i), r) && Visit(db, now, r, i).runs == db.runs
  {}

  lemma {:induction false} PassOnlyRun(db: Db, now: Time, r: RunId, i: nat)
    requires db.WellFormed() && i <= |db.jobs|
    ensures OnlyRun(db, Pass(db, now, r, i), r) && Pass(db, now, r, i).runs == db.runs
    decreases |db.jobs| - i
  {
    if i < |db.jobs| {
      var d := Visit(db, now, r, i);
      VisitOnlyRun(db, now, r, i);
      PassOnlyRun(d, now, r, i + 1);
      OnlyRunOn(db, d, Pass(d, now, r, i + 1), r);
    }
  }

  lemma {:induction false} SettleOnlyRun(db: Db, now: Time, r: RunId)
    requires db.WellFormed()
    ensures OnlyRun(db, Settle(db, now, r), r) && Settle(db, now, r).runs == db.runs
    decreases PendingIds(db.jobs)
  {
    PassShrinks(db, now, r, 0);
    PassOnlyRun(db, now, r, 0);
    var d := Pass(db, now, r, 0);
    if d != db { SettleOnlyRun(d, now, r); }
  }

  /** Visits in any order, with any repeats. */
  function VisitAll(db: Db, now: Time, r: RunId, order: seq<JobId>): (db': Db)
    requires db.WellFormed() && Within(order, |db.jobs|)
    ensures db'.WellFormed() && |db'.jobs| == |db.jobs| && |db'.runs| == |db.runs|
    decreases |order|
  {
    if order == [] then db else VisitAll(Visit(db, now, r, order[0]), now, r, order[1..])
  }

  lemma {:induction false} VisitAllShrinks(db: Db, now: Time, r: RunId, order: seq<JobId>)
    requires db.WellFormed() && Within(order, |db.jobs|)
    ensures VisitAll(db, now, r, order) == db || PendingIds(VisitAll(db, now, r, order).jobs) < PendingIds(db.jobs)
    decreases |order|
  {
    if order != [] {
      VisitShrinks(db, now, r, order[0]);
      VisitAllShrinks(Visit(db, now, r, order[0]), now, r, order[1..]);
    }
  }

  lemma IdleFirst(db: Db, now: Time, r: RunId, order: seq<JobId>)
    requires db.WellFormed() && Within(order, |db.jobs|) && order != [] && VisitAll(db, now, r, order) == db
    ensures Visit(db, now, r, order[0]) == db && VisitAll(db, now, r, order[1..]) == db
  {
    VisitShrinks(db, now, r, order[0]);
    VisitAllShrinks(Visit(db, now, r, order[0]), now, r, order[1..]);
  }

  lemma {:induction false} IdleVisits(db: Db, now: Time, r: RunId, order: seq<JobId>, k: nat)
    requires db.WellFormed() && Within(order, |db.jobs|) && k < |order| && VisitAll(db, now, r, order) == db
    ensures Visit(db, now, r, order[k]) == db
    decreases |order|
  {
    IdleFirst(db, now, r, order);
    if k > 0 { IdleVisits(db, now, r, order[1..], k - 1); }
  }

  /** The ids from `i` up to `n`. */
  function Upward(i: nat, n: nat): (ids: seq<JobId>)
    requires i <= n
    ensures |ids| == n - i && forall k :: 0 <= k < |ids| ==> ids[k] == i + k
    decreases n - i
  {
    if i == n then [] else [i] + Upward(i + 1, n)
  }

  /** A sweep and the visits in ascending order make the same first step. */
  lemma SweepFirst(db: Db, now: Time, r: RunId, i: nat, order: seq<JobId>, d: Db)
    requires db.WellFormed() && i < |db.jobs| && order == Upward(i, |db.jobs|) && d == Visit(db, now, r, i)
    ensures d.WellFormed() && |d.jobs| == |db.jobs| && Pass(db, now, r, i) == Pass(d, now, r, i + 1)
    ensures order[1..] == Upward(i + 1, |d.jobs|) && Within(order, |db.jobs|) && Within(order[1..], |d.jobs|)
    ensures VisitAll(db, now, r, order) == VisitAll(d, now, r, order[1..])
  {}

  /** A sweep visits the jobs in ascending order. */
  lemma {:induction false} PassIsVisits(db: Db, now: Time, r: RunId, i: nat, order: seq<JobId>)
    requires db.WellFormed() && i <= |db.jobs| && order == Upward(i, |db.jobs|) && Within(order, |db.jobs|)
    ensures Pass(db, now, r, i) == VisitAll(db, now, r, order)
    decreases |db.jobs| - i
  {
    if i < |db.jobs| {
      var d := Visit(db, now, r, i);
      SweepFirst(db, now, r, i, order, d);
      PassIsVisits(d, now, r, i + 1, order[1..]);
    }
  }

  lemma {:induction false} SettleReachesFixpoint(db: Db, now: Time, r: RunId)
    requires db.WellFormed()
    ensures Settled(Settle(db, now, r), r)
    decreases PendingIds(db.jobs)
  {
    PassShrinks(db, now, r, 0);
    var d := Pass(db, now, r, 0);
    if d == db {
      forall j | 0 <= j < |db.jobs| && db.jobs[j].run == r && db.jobs[j].state.Pending?
        ensures !AnyDead(db.jobs, db.deps[j]) && !AllSucceeded(db.jobs, db.deps[j])
      {
        PassIsVisits(db, now, r, 0, Upward(0, |db.jobs|));
        IdleVisits(db, now, r, Upward(0, |db.jobs|), j);
        VisitIdle(db, now, r, j);
      }
    } else {
      SettleReachesFixpoint(d, now, r);
    }
  }

  lemma VisitIdle(db: Db, now: Time, r: RunId, j: JobId)
    requires db.WellFormed() && j < |db.jobs| && Visit(db, now, r, j) == db
    requires db.jobs[j].run == r && db.jobs[j].state.Pending?
    ensures !AnyDead(db.jobs, db.deps[j]) && !AllSucceeded(db.jobs, db.deps[j])
  {
    assert Visit(db, now, r, j).jobs[j].state.Pending?;
  }

  lemma AdvanceQuiets(db: Db, now: Time, r: RunId)
    requires db.WellFormed() && r < |db.runs|
    ensures var db' := Advance(db, now, r);
      db'.WellFormed() && OnlyRun(db, db', r) && Settled(db', r) && Finalized(db', r)
  {
    SettleReachesFixpoint(db, now, r);
    SettleOnlyRun(db, now, r);
    var d := Settle(db, now, r);
    if Enabled(d, FinishRun(r)) { WellFormedDo(d, now, FinishRun(r)); }
  }

  // The closed form of advance.

  /** A chain of at most `n` pending needs leads from `j` to a failed, cancelled or skipped job. */
  ghost predicate Doomed(db: Db, j: JobId, n: nat)
    requires db.WellFormed() && j < |db.jobs|
    decreases n
  {
    && db.jobs[j].state.Pending?
    && (AnyDead(db.jobs, db.deps[j])
          || (n > 0 && exists k :: 0 <= k < |db.deps[j]| && Doomed(db, db.deps[j][k], n - 1)))
  }

  ghost predicate IsDoomed(db: Db, j: JobId)
    requires db.WellFormed() && j < |db.jobs|
  {
    exists n: nat :: Doomed(db, j, n)
  }

  /** The row `advance` gives job `j`: a function of the starting state alone, whatever the order of visits. */
  ghost function Decided(db: Db, now: Time, r: RunId, j: JobId): Job
    requires db.WellFormed() && j < |db.jobs|
  {
    if db.jobs[j].run != r || !db.jobs[j].state.Pending? then db.jobs[j]
    else if IsDoomed(db, j) then MadeSkipped(db.jobs[j], now)
    else if AllSucceeded(db.jobs, db.deps[j]) then MadeReady(db.jobs[j], now)
    else db.jobs[j]
  }

  lemma DoomedNotReady(db: Db, j: JobId, n: nat)
    requires db.WellFormed() && j < |db.jobs| && Doomed(db, j, n)
    ensures !AllSucceeded(db.jobs, db.deps[j])
  {
    if AnyDead(db.jobs, db.deps[j]) {
      var k :| 0 <= k < |db.deps[j]| && db.jobs[db.deps[j][k]].state.Dead();
      assert !db.jobs[db.deps[j][k]].state.Succeeded?;
    } else {
      var k :| 0 <= k < |db.deps[j]| && Doomed(db, db.deps[j][k], n - 1);
      assert !db.jobs[db.deps[j][k]].state.Succeeded?;
    }
  }

  /** Part of the way to the closed form: every row is either as it was or as it will be. */
  ghost predicate Deciding(db: Db, now: Time, r: RunId, d: Db)
    requires db.WellFormed()
  {
    && |d.jobs| == |db.jobs| && d.deps == db.deps
    && forall j :: 0 <= j < |db.jobs| ==> d.jobs[j] == db.jobs[j] || d.jobs[j] == Decided(db, now, r, j)
  }

  lemma VisitDecides(db: Db, now: Time, r: RunId, d: Db, i: JobId)
    requires db.WellFormed() && d.WellFormed() && Deciding(db, now, r, d) && i < |d.jobs|
    ensures Deciding(db, now, r, Visit(d, now, r, i))
  {
    if d.jobs[i].run == r && d.jobs[i].state.Pending? {
      assert d.jobs[i] == db.jobs[i];
      if AnyDead(d.jobs, d.deps[i]) {
        DeadNeedDooms(db, now, r, d, i);
      } else if AllSucceeded(d.jobs, d.deps[i]) {
        SucceededNeedsWere(db, now, r, d, i);
        if n: nat :| Doomed(db, i, n) { DoomedNotReady(db, i, n); }
      }
    }
  }

  lemma DeadNeedDooms(db: Db, now: Time, r: RunId, d: Db, i: JobId)
    requires db.WellFormed() && d.WellFormed() && Deciding(db, now, r, d) && i < |d.jobs|
    requires db.jobs[i].state.Pending? && AnyDead(d.jobs, d.deps[i])
    ensures IsDoomed(db, i)
  {
    var k :| 0 <= k < |d.deps[i]| && d.jobs[d.deps[i][k]].state.Dead();
    var n := d.deps[i][k];
    if db.jobs[n].state.Dead() {
      assert AnyDead(db.jobs, db.deps[i]);
      assert Doomed(db, i, 0);
    } else {
      assert IsDoomed(db, n);
      var m: nat :| Doomed(db, n, m);
      assert Doomed(db, db.deps[i][k], m);
      assert Doomed(db, i, m + 1);
    }
  }

  lemma SucceededNeedsWere(db: Db, now: Time, r: RunId, d: Db, i: JobId)
    requires db.WellFormed() && d.WellFormed() && Deciding(db, now, r, d) && i < |d.jobs|
      && AllSucceeded(d.jobs, d.deps[i])
    ensures AllSucceeded(db.jobs, db.deps[i])
  {
    forall k | 0 <= k < |db.deps[i]| ensures db.jobs[db.deps[i][k]].state.Succeeded? {
      assert d.jobs[d.deps[i][k]].state.Succeeded?;
    }
  }

  lemma {:induction false} PassDecides(db: Db, now: Time, r: RunId, d: Db, i: nat)
    requires db.WellFormed() && d.WellFormed() && Deciding(db, now, r, d) && i <= |d.jobs|
    ensures Deciding(db, now, r, Pass(d, now, r, i))
    decreases |d.jobs| - i
  {
    if i < |d.jobs| {
      VisitDecides(db, now, r, d, i);
      PassDecides(db, now, r, Visit(d, now, r, i), i + 1);
    }
  }

  lemma {:induction false} SettleDecides(db: Db, now: Time, r: RunId, d: Db)
    requires db.WellFormed() && d.WellFormed() && Deciding(db, now, r, d)
    ensures Deciding(db, now, r, Settle(d, now, r))
    decreases PendingIds(d.jobs)
  {
    PassShrinks(d, now, r, 0);
    PassDecides(db, now, r, d, 0);
    var d' := Pass(d, now, r, 0);
    if d' != d { SettleDecides(db, now, r, d'); }
  }

  /** At the fixpoint nothing doomed is still pending. */
  lemma {:induction false} DoomedIsDecided(db: Db, now: Time, r: RunId, d: Db, j: JobId, n: nat)
    requires db.WellFormed() && d.WellFormed() && Deciding(db, now, r, d) && Settled(d, r) && OnlyRun(db, d, r)
    requires j < |db.jobs| && db.jobs[j].run == r && Doomed(db, j, n)
    ensures d.jobs[j] == Decided(db, now, r, j) && d.jobs[j].state.Skipped?
    decreases n
  {
    if AnyDead(db.jobs, db.deps[j]) {
      var k :| 0 <= k < |db.deps[j]| && db.jobs[db.deps[j][k]].state.Dead();
      assert d.jobs[d.deps[j][k]].state.Dead();
    } else {
      var k :| 0 <= k < |db.deps[j]| && Doomed(db, db.deps[j][k], n - 1);
      DoomedIsDecided(db, now, r, d, db.deps[j][k], n - 1);
      assert d.jobs[d.deps[j][k]].state.Dead();
    }
    assert AnyDead(d.jobs, d.deps[j]);
    assert IsDoomed(db, j);
  }

  /** On the way to the closed form, whoever reaches a state where nothing more can be decided has reached it. */
  lemma SettledIsDecided(db: Db, now: Time, r: RunId, d: Db, j: JobId)
    requires db.WellFormed() && d.WellFormed() && Deciding(db, now, r, d) && Settled(d, r) && OnlyRun(db, d, r)
      && j < |db.jobs|
    ensures d.jobs[j] == Decided(db, now, r, j)
  {
    if db.jobs[j].run == r && db.jobs[j].state.Pending? {
      if n: nat :| Doomed(db, j, n) {
        DoomedIsDecided(db, now, r, d, j, n);
      } else if AllSucceeded(db.jobs, db.deps[j]) {
        NeedsSucceededStays(db, now, r, d, j);
      }
    }
  }

  /**
   `advance` in closed form: a pending job of the run is skipped iff a chain of pending needs leads to a
   dead job, queued iff all its needs succeeded, and otherwise left; nothing else changes.
   */
  lemma AdvanceClosedForm(db: Db, now: Time, r: RunId, j: JobId)
    requires db.WellFormed() && r < |db.runs| && j < |db.jobs|
    ensures |Advance(db, now, r).jobs| == |db.jobs| && Advance(db, now, r).jobs[j] == Decided(db, now, r, j)
  {
    SettleDecides(db, now, r, db);
    SettleReachesFixpoint(db, now, r);
    SettleOnlyRun(db, now, r);
    SettledIsDecided(db, now, r, Settle(db, now, r), j);
  }

  // The order of visits does not matter.

  lemma {:induction false} VisitAllDecides(db: Db, now: Time, r: RunId, d: Db, order: seq<JobId>)
    requires db.WellFormed() && d.WellFormed() && Deciding(db, now, r, d) && OnlyRun(db, d, r)
      && Within(order, |d.jobs|)
    ensures Deciding(db, now, r, VisitAll(d, now, r, order)) && OnlyRun(db, VisitAll(d, now, r, order), r)
    decreases |order|
  {
    if order != [] {
      var d1 := Visit(d, now, r, order[0]);
      VisitDecides(db, now, r, d, order[0]);
      VisitOnlyRun(d, now, r, order[0]);
      OnlyRunOn(db, d, d1, r);
      VisitAllDecides(db, now, r, d1, order[1..]);
    }
  }

  /** `rows` are the rows of the closed form. */
  ghost predicate AllDecided(db: Db, now: Time, r: RunId, rows: seq<Job>)
    requires db.WellFormed()
  {
    |rows| == |db.jobs| && forall j :: 0 <= j < |rows| ==> rows[j] == Decided(db, now, r, j)
  }

  lemma AdvanceDecides(db: Db, now: Time, r: RunId)
    requires db.WellFormed() && r < |db.runs|
    ensures AllDecided(db, now, r, Advance(db, now, r).jobs)
  {
    SettleOnlyRun(db, now, r);
    forall j | 0 <= j < |db.jobs| ensures Advance(db, now, r).jobs[j] == Decided(db, now, r, j) {
      AdvanceClosedForm(db, now, r, j);
    }
  }

  lemma VisitsDecide(db: Db, now: Time, r: RunId, order: seq<JobId>)
    requires db.WellFormed() && Within(order, |db.jobs|) && Settled(VisitAll(db, now, r, order), r)
    ensures AllDecided(db, now, r, VisitAll(db, now, r, order).jobs)
  {
    var d := VisitAll(db, now, r, order);
    VisitAllDecides(db, now, r, db, order);
    forall j | 0 <= j < |db.jobs| ensures d.jobs[j] == Decided(db, now, r, j) { SettledIsDecided(db, now, r, d, j); }
  }

  lemma DecidedOnce(db: Db, now: Time, r: RunId, a: seq<Job>, b: seq<Job>)
    requires db.WellFormed() && AllDecided(db, now, r, a) && AllDecided(db, now, r, b)
    ensures a == b
  {}

  /** Any visits at all that leave nothing to decide give every job the row `advance` gives it. */
  lemma AnyOrderDecides(db: Db, now: Time, r: RunId, order: seq<JobId>)
    requires db.WellFormed() && r < |db.runs| && Within(order, |db.jobs|) && Settled(VisitAll(db, now, r, order), r)
    ensures VisitAll(db, now, r, order).jobs == Advance(db, now, r).jobs
  {
    VisitsDecide(db, now, r, order);
    AdvanceDecides(db, now, r);
    DecidedOnce(db, now, r, VisitAll(db, now, r, order).jobs, Advance(db, now, r).jobs);
  }

  /** The order lists every job of the run. */
  predicate Covers(jobs: seq<Job>, r: RunId, order: seq<JobId>) {
    Within(order, |jobs|) && forall j: JobId :: j < |jobs| && jobs[j].run == r ==> j in order
  }

  /** Enough sweeps in one and the same order: the visits made. */
  lemma {:induction false} SweepsSettle(db: Db, now: Time, r: RunId, order: seq<JobId>) returns (visits: seq<JobId>)
    requires db.WellFormed() && Covers(db.jobs, r, order)
    ensures Within(visits, |db.jobs|) && Settled(VisitAll(db, now, r, visits), r)
    ensures exists k: nat :: visits == Times(order, k)
    decreases PendingIds(db.jobs)
  {
    VisitAllShrinks(db, now, r, order);
    var d := VisitAll(db, now, r, order);
    if d == db {
      visits := [];
      assert visits == Times(order, 0);
      forall j | 0 <= j < |db.jobs| && db.jobs[j].run == r && db.jobs[j].state.Pending?
        ensures !AnyDead(db.jobs, db.deps[j]) && !AllSucceeded(db.jobs, db.deps[j])
      {
        assert j in order;
        var k :| 0 <= k < |order| && order[k] == j;
        IdleVisits(db, now, r, order, k);
        VisitIdle(db, now, r, j);
      }
    } else {
      VisitAllOnlyRun(db, now, r, order);
      var rest := SweepsSettle(d, now, r, order);
      var k: nat :| rest == Times(order, k);
      visits := order + rest;
      VisitAllJoins(db, now, r, order, rest);
      assert visits == Times(order, k + 1);
    }
  }

  function Times(order: seq<JobId>, k: nat): seq<JobId> { if k == 0 then [] else order + Times(order, k - 1) }

  lemma {:induction false} VisitAllOnlyRun(db: Db, now: Time, r: RunId, order: seq<JobId>)
    requires db.WellFormed() && Within(order, |db.jobs|)
    ensures OnlyRun(db, VisitAll(db, now, r, order), r)
    decreases |order|
  {
    if order != [] {
      var d := Visit(db, now, r, order[0]);
      VisitOnlyRun(db, now, r, order[0]);
      VisitAllOnlyRun(d, now, r, order[1..]);
      OnlyRunOn(db, d, VisitAll(d, now, r, order[1..]), r);
    }
  }

  lemma {:induction false} VisitAllJoins(db: Db, now: Time, r: RunId, a: seq<JobId>, b: seq<JobId>)
    requires db.WellFormed() && Within(a, |db.jobs|) && Within(b, |db.jobs|)
    ensures VisitAll(db, now, r, a + b) == VisitAll(VisitAll(db, now, r, a), now, r, b)
    decreases |a|
  {
    if a == [] {
      assert a + b == b;
    } else {
      assert (a + b)[0] == a[0] && (a + b)[1..] == a[1..] + b;
      VisitAllJoins(Visit(db, now, r, a[0]), now, r, a[1..], b);
    }
  }

  /** Sweeping in any order that covers the run ends, and with the rows the ascending sweep ends with. */
  lemma AnyOrderSettlesAlike(db: Db, now: Time, r: RunId, order: seq<JobId>) returns (k: nat)
    requires db.WellFormed() && r < |db.runs| && Covers(db.jobs, r, order)
    ensures Within(Times(order, k), |db.jobs|) && Settled(VisitAll(db, now, r, Times(order, k)), r)
    ensures VisitAll(db, now, r, Times(order, k)).jobs == Advance(db, now, r).jobs
  {
    var visits := SweepsSettle(db, now, r, order);
    k :| visits == Times(order, k);
    AnyOrderDecides(db, now, r, visits);
  }

  /** A valid report of the live attempt leaves its row exactly as the settlement does, whatever else advances. */
  lemma CompleteSettles(w: World, j: JobId, n: int, res: Result)
    requires Ok(w) && w.db.Live(j, n) && ValidResult(res)
    ensures var op := Settlement(w.db.jobs[j], j, res); var (w', reply) := Apply(w, Complete(j, n, res));
      && Enabled(w.db, op) && reply.Accepted?
      && j < |w'.db.jobs| && w'.db.jobs[j] == Do(w.db, w.now, op).jobs[j]
  {
    var op := Settlement(w.db.jobs[j], j, res);
    WellFormedDo(w.db, w.now, op);
    AdvanceClosedForm(Do(w.db, w.now, op), w.now, w.db.jobs[j].run, j);
  }

  lemma NeedsSucceededStays(db: Db, now: Time, r: RunId, d: Db, j: JobId)
    requires db.WellFormed() && d.WellFormed() && Deciding(db, now, r, d) && Settled(d, r) && OnlyRun(db, d, r)
    requires j < |db.jobs| && db.jobs[j].run == r && db.jobs[j].state.Pending? && AllSucceeded(db.jobs, db.deps[j])
    ensures d.jobs[j] == Decided(db, now, r, j)
  {
    forall k | 0 <= k < |d.deps[j]| ensures d.jobs[d.deps[j][k]].state.Succeeded? {
      assert db.jobs[db.deps[j][k]].state.Succeeded?;
    }
    assert AllSucceeded(d.jobs, d.deps[j]);
  }

  // Every committed state is quiet.

  /** Being settled and final depends only on which jobs are pending, dead or succeeded. */
  ghost predicate SameClasses(db: Db, db': Db) {
    && |db'.jobs| == |db.jobs| && db'.deps == db.deps && |db'.runs| == |db.runs|
    && (forall j ::
          0 <= j < |db.jobs| ==> db'.jobs[j].run == db.jobs[j].run && SameClass(db.jobs[j].state, db'.jobs[j].state))
    && (forall q :: 0 <= q < |db.runs| ==> db'.runs[q].state.Terminal() == db.runs[q].state.Terminal())
  }

  predicate SameClass(a: JobState, b: JobState) {
    a.Pending? == b.Pending? && a.Dead() == b.Dead() && a.Succeeded? == b.Succeeded?
  }

  lemma SameClassesQuiet(db: Db, db': Db)
    requires Quiet(db) && SameClasses(db, db') && db'.WellFormed()
    ensures Quiet(db')
  {
    forall r | 0 <= r < |db'.runs| ensures Settled(db', r) && Finalized(db', r) {
      assert Settled(db, r) && Finalized(db, r);
      forall j | 0 <= j < |db'.jobs| && db'.jobs[j].run == r && db'.jobs[j].state.Pending?
        ensures !AnyDead(db'.jobs, db'.deps[j]) && !AllSucceeded(db'.jobs, db'.deps[j])
      {
        SameNeeds(db, db', j);
      }
      assert AllTerminal(db'.jobs, r) ==> AllTerminal(db.jobs, r) by {
        if AllTerminal(db'.jobs, r) {
          forall j | 0 <= j < |db.jobs| && db.jobs[j].run == r ensures db.jobs[j].state.Terminal() {
            assert db'.jobs[j].state.Terminal();
          }
        }
      }
    }
  }

  lemma SameNeeds(db: Db, db': Db, j: JobId)
    requires db.WellFormed() && db'.WellFormed() && j < |db.jobs| && SameClasses(db, db')
    ensures AnyDead(db'.jobs, db'.deps[j]) == AnyDead(db.jobs, db.deps[j])
    ensures AllSucceeded(db'.jobs, db'.deps[j]) == AllSucceeded(db.jobs, db.deps[j])
  {
    forall k | 0 <= k < |db.deps[j]| ensures SameClass(db.jobs[db.deps[j][k]].state, db'.jobs[db.deps[j][k]].state) {}
    if AnyDead(db.jobs, db.deps[j]) {
      var k :| 0 <= k < |db.deps[j]| && db.jobs[db.deps[j][k]].state.Dead();
      assert db'.jobs[db'.deps[j][k]].state.Dead();
    }
  }

  /** Work on one run does not disturb the others. */
  lemma OnlyRunQuiet(db: Db, db': Db, r: RunId)
    requires Quiet(db) && db'.WellFormed() && OnlyRun(db, db', r) && r < |db.runs| && Settled(db', r)
      && Finalized(db', r)
    ensures Quiet(db')
  {
    forall q | 0 <= q < |db'.runs| && q != r ensures Settled(db', q) && Finalized(db', q) {
      assert Settled(db, q) && Finalized(db, q);
      forall j | 0 <= j < |db'.jobs| && db'.jobs[j].run == q && db'.jobs[j].state.Pending?
        ensures !AnyDead(db'.jobs, db'.deps[j]) && !AllSucceeded(db'.jobs, db'.deps[j])
      {
        OtherNeeds(db, db', r, j);
      }
      assert AllTerminal(db'.jobs, q) ==> AllTerminal(db.jobs, q) by {
        if AllTerminal(db'.jobs, q) {
          forall j | 0 <= j < |db.jobs| && db.jobs[j].run == q ensures db.jobs[j].state.Terminal() {
            assert db'.jobs[j].state.Terminal();
          }
        }
      }
    }
  }

  lemma OtherNeeds(db: Db, db': Db, r: RunId, j: JobId)
    requires db.WellFormed() && db'.WellFormed() && OnlyRun(db, db', r) && j < |db.jobs| && db.jobs[j].run != r
    ensures AnyDead(db'.jobs, db'.deps[j]) == AnyDead(db.jobs, db.deps[j])
    ensures AllSucceeded(db'.jobs, db'.deps[j]) == AllSucceeded(db.jobs, db.deps[j])
  {
    forall k | 0 <= k < |db.deps[j]| ensures db'.jobs[db.deps[j][k]] == db.jobs[db.deps[j][k]] {}
  }

  lemma ResolvedQuiet(db: Db, now: Time, op: Op)
    requires Quiet(db) && Enabled(db, op) && (op.Finish? || op.Requeue?)
    ensures Quiet(Resolved(db, now, op))
  {
    var r := db.jobs[op.j].run;
    var d := Do(db, now, op);
    WellFormedDo(db, now, op);
    AdvanceQuiets(d, now, r);
    assert OnlyRun(db, d, r);
    OnlyRunOn(db, d, Advance(d, now, r), r);
    OnlyRunQuiet(db, Advance(d, now, r), r);
  }

  lemma DoSameClasses(db: Db, now: Time, op: Op)
    requires Quiet(db) && Enabled(db, op)
    requires op.StartRun? || op.Claim? || op.Renew? || op.Requeue? || op.AskCancel? || op.AppendLog?
    ensures Quiet(Do(db, now, op))
  {
    WellFormedDo(db, now, op);
    SameClassesQuiet(db, Do(db, now, op));
  }

  lemma CreateQuiet(db: Db, now: Time, op: Op)
    requires Quiet(db) && Enabled(db, op) && op.Create?
    ensures Quiet(Do(db, now, op))
  {
    var db' := Do(db, now, op);
    WellFormedDo(db, now, op);
    forall r | 0 <= r < |db'.runs| ensures Settled(db', r) && Finalized(db', r) {
      forall j | 0 <= j < |db'.jobs| && db'.jobs[j].run == r && db'.jobs[j].state.Pending?
        ensures !AnyDead(db'.jobs, db'.deps[j]) && !AllSucceeded(db'.jobs, db'.deps[j])
      {
        if j < |db.jobs| { OldNeeds(db, db', j); assert Settled(db, r); } else { FreshNeeds(db, now, op, j); }
      }
      if r < |db.runs| {
        assert Finalized(db, r);
        assert AllTerminal(db'.jobs, r) ==> AllTerminal(db.jobs, r) by {
          forall j | 0 <= j < |db.jobs| ensures db'.jobs[j] == db.jobs[j] {}
        }
      } else {
        assert !db'.jobs[|db.jobs|].state.Terminal();
      }
    }
  }

  lemma OldNeeds(db: Db, db': Db, j: JobId)
    requires db.WellFormed() && db'.WellFormed() && db.jobs <= db'.jobs && db.deps <= db'.deps && j < |db.jobs|
    ensures AnyDead(db'.jobs, db'.deps[j]) == AnyDead(db.jobs, db.deps[j])
    ensures AllSucceeded(db'.jobs, db'.deps[j]) == AllSucceeded(db.jobs, db.deps[j])
  {
    forall k | 0 <= k < |db.deps[j]| ensures db'.jobs[db.deps[j][k]] == db.jobs[db.deps[j][k]] {}
  }

  lemma FreshNeeds(db: Db, now: Time, op: Op, j: JobId)
    requires db.WellFormed() && Enabled(db, op) && op.Create? && Do(db, now, op).WellFormed()
    requires |db.jobs| <= j < |Do(db, now, op).jobs| && Do(db, now, op).jobs[j].state.Pending?
    ensures var db' := Do(db, now, op); !AnyDead(db'.jobs, db'.deps[j]) && !AllSucceeded(db'.jobs, db'.deps[j])
  {
    var db' := Do(db, now, op);
    assert db'.deps[j] == Shift(NeedsOf(op.items), |db.jobs|)[j - |db.jobs|];
    forall k | 0 <= k < |db'.deps[j]| ensures !db'.jobs[db'.deps[j][k]].state.Terminal() {}
    assert !db'.jobs[db'.deps[j][0]].state.Succeeded?;
  }

  lemma {:induction false} BeatQuiet(db: Db, now: Time, ttl: Time, runner: RunnerId, refs: seq<JobRef>)
    requires Quiet(db) && now != NEVER
    ensures Quiet(Beat(db, now, ttl, runner, refs).0)
  {
    if refs != [] {
      var ref := refs[|refs| - 1];
      BeatQuiet(db, now, ttl, runner, refs[..|refs| - 1]);
      var d := Beat(db, now, ttl, runner, refs[..|refs| - 1]).0;
      if Holds(d, runner, ref) { DoSameClasses(d, now, Renew(ref.job, now + ttl)); }
    }
  }

  lemma {:induction false} CancelJobsFrame(db: Db, now: Time, r: RunId, n: nat, d: Db)
    requires db.WellFormed() && n <= |db.jobs| && d == CancelJobs(db, now, r, n)
    ensures d.deps == db.deps && d.runs == db.runs
  {
    if n > 0 { CancelJobsFrame(db, now, r, n - 1, CancelJobs(db, now, r, n - 1)); }
  }

  lemma CancelJobsOnlyRun(db: Db, now: Time, r: RunId, n: nat)
    requires db.WellFormed() && n <= |db.jobs|
    ensures OnlyRun(db, CancelJobs(db, now, r, n), r)
  {
    var d := CancelJobs(db, now, r, n);
    CancelJobsFrame(db, now, r, n, d);
    forall j | 0 <= j < |db.jobs|
      ensures d.jobs[j].run == db.jobs[j].run && (db.jobs[j].run != r ==> d.jobs[j] == db.jobs[j])
    {
      CancelJobsRow(db, now, r, n, d, j);
    }
  }

  lemma CancelQuiet(db: Db, now: Time, r: RunId)
    requires Quiet(db) && now != NEVER
    ensures Quiet(CancelTx(db, now, r).0)
  {
    if r < |db.runs| && !db.runs[r].state.Terminal() && !CancelRequested(db, r) {
      var d := CancelJobs(db, now, r, |db.jobs|);
      CancelJobsWindsDown(db, now, r, |db.jobs|);
      CancelJobsOnlyRun(db, now, r, |db.jobs|);
      var d' := Do(d, now, AskRunCancel(r));
      WellFormedDo(d, now, AskRunCancel(r));
      AdvanceQuiets(d', now, r);
      OnlyRunOn(db, d', Advance(d', now, r), r);
      OnlyRunQuiet(db, Advance(d', now, r), r);
    }
  }

  lemma {:induction false} ExpireQuiet(db: Db, now: Time, ids: seq<JobId>)
    requires Quiet(db) && Within(ids, |db.jobs|)
    ensures Quiet(ExpireAll(db, now, ids))
  {
    if ids != [] {
      ExpireQuiet(db, now, ids[..|ids| - 1]);
      var d, i := ExpireAll(db, now, ids[..|ids| - 1]), ids[|ids| - 1];
      if Selects(ListExpired(now), d.jobs[i]) {
        if MayRetry(d.jobs[i], LostRunner) { DoSameClasses(d, now, Requeue(i, LostRunner)); }
        else { ResolvedQuiet(d, now, Finish(i, Failed, LostRunner, None)); }
      }
    }
  }

  lemma {:induction false} BackstopQuiet(db: Db, now: Time, grace: Time, ids: seq<JobId>)
    requires Quiet(db) && Within(ids, |db.jobs|)
    ensures Quiet(BackstopAll(db, now, grace, ids))
  {
    if ids != [] {
      BackstopQuiet(db, now, grace, ids[..|ids| - 1]);
      var d, i := BackstopAll(db, now, grace, ids[..|ids| - 1]), ids[|ids| - 1];
      if Selects(ListUncancelled, d.jobs[i]) && Overdue(d.jobs[i], now, grace) {
        DoSameClasses(d, now, AskCancel(i, ByTimeout));
      }
    }
  }

  lemma ClaimQuiet(db: Db, now: Time, ttl: Time, runner: RunnerId, labels: Labels)
    requires Inv(db) && Quiet(db) && now != NEVER
    ensures Quiet(ClaimTx(db, now, ttl, runner, labels).0)
  {
    var c := Candidate(db, labels);
    if runner != NO_RUNNER && c.Some? {
      var r := db.jobs[c.value].run;
      QueuedRunOpen(db, now, c.value, runner, now + ttl);
      if db.runs[r].state.RunPending? { DoSameClasses(db, now, StartRun(r)); }
      DoSameClasses(MarkStarted(db, now, r), now, Claim(c.value, runner, now + ttl));
    }
  }

  lemma SubmitQuiet(db: Db, now: Time, maxAttempts: nat, spec: Spec)
    requires Inv(db) && Quiet(db) && maxAttempts > 0 && now != NEVER
    ensures Quiet(SubmitTx(db, now, maxAttempts, spec).0)
  {
    if Accepts(spec) {
      AcceptedIsEnabled(db, spec, maxAttempts);
      CreateQuiet(db, now, Create(ItemsOf(spec), maxAttempts));
    }
  }

  lemma CompleteQuiet(db: Db, now: Time, j: JobId, n: int, res: Result)
    requires Inv(db) && Quiet(db) && now != NEVER
    ensures Quiet(CompleteTx(db, now, j, n, res).0)
  {
    if ValidResult(res) && db.Live(j, n) { ResolvedQuiet(db, now, Settlement(db.jobs[j], j, res)); }
  }

  lemma TickQuiet(db: Db, now: Time, graceUntil: Time, grace: Time)
    requires Inv(db) && Quiet(db) && now != NEVER
    ensures Quiet(TickTx(db, now, graceUntil, grace))
  {
    var ids := Lost(db, now, graceUntil);
    ExpireQuiet(db, now, ids);
    var d := ExpireAll(db, now, ids);
    BackstopQuiet(d, now, grace, Select(ListUncancelled, d.jobs, |d.jobs|));
  }

  /** Every step takes a quiet state to a quiet state. */
  lemma StepQuiet(w: World, s: Step)
    requires Ok(w) && Quiet(w.db)
    ensures Quiet(Apply(w, s).0.db)
  {
    match s
    case Submit(spec) => SubmitQuiet(w.db, w.now, w.cfg.maxAttempts, spec);
    case Poll(runner, labels) => ClaimQuiet(w.db, w.now, w.cfg.ttl, runner, labels);
    case Heartbeat(runner, refs) => BeatQuiet(w.db, w.now, w.cfg.ttl, runner, refs);
    case Complete(j, n, res) => CompleteQuiet(w.db, w.now, j, n, res);
    case CancelRun(r) => CancelQuiet(w.db, w.now, r);
    case Tick => TickQuiet(w.db, w.now, w.graceUntil, w.cfg.timeoutGrace);
    case AppendLogs(j, n, chunks) =>
      if ValidChunks(chunks) && w.db.Live(j, n) { DoSameClasses(w.db, w.now, AppendLog(j, w.cfg.logCap, chunks)); }
    case Wait(_) =>
    case Restart(_) =>
  }

  lemma {:induction false} ExecQuiet(w: World, steps: seq<Step>)
    requires Ok(w) && Quiet(w.db)
    ensures Quiet(Exec(w, steps).db)
    decreases |steps|
  {
    if steps != [] {
      StepOk(w, steps[0]);
      StepQuiet(w, steps[0]);
      ExecQuiet(Apply(w, steps[0]).0, steps[1..]);
    }
  }

  lemma ReachableQuiet(w: World)
    requires Reachable(w)
    ensures Ok(w) && Quiet(w.db)
  {
    var w0, steps :| Initial(w0) && Ok(w0) && Exec(w0, steps) == w;
    ExecQuiet(w0, steps);
  }

  // The two consequences.

  /** Deadlock freedom: in every reachable state an unfinished run has a job that is queued or running. */
  lemma NoDeadlock(w: World, r: RunId)
    requires Reachable(w) && r < |w.db.runs| && !w.db.runs[r].state.Terminal()
    ensures exists j ::
      0 <= j < |w.db.jobs| && w.db.jobs[j].run == r && (w.db.jobs[j].state.Queued? || w.db.jobs[j].state.Running?)
  {
    ReachableQuiet(w);
    var db := w.db;
    assert Settled(db, r) && Finalized(db, r);
    var i :| 0 <= i < |db.jobs| && db.jobs[i].run == r && !db.jobs[i].state.Terminal();
    var S := set j | 0 <= j < |db.jobs| && db.jobs[j].run == r && db.jobs[j].state.Pending?;
    if i in S {
      assert Graphs.HasMinimal(db.deps, S);
      var m :| m in S && m < |db.deps| && forall k :: 0 <= k < |db.deps[m]| ==> db.deps[m][k] !in S;
      WaitingForSomething(db, r, m, S);
    }
  }

  /** A pending job none of whose needs is pending waits for one that is queued or running. */
  lemma WaitingForSomething(db: Db, r: RunId, m: JobId, S: set<JobId>)
    requires db.WellFormed() && Settled(db, r) && m < |db.jobs| && db.jobs[m].run == r && db.jobs[m].state.Pending?
    requires S == set j | 0 <= j < |db.jobs| && db.jobs[j].run == r && db.jobs[j].state.Pending?
    requires forall k :: 0 <= k < |db.deps[m]| ==> db.deps[m][k] !in S
    ensures exists j ::
      0 <= j < |db.jobs| && db.jobs[j].run == r && (db.jobs[j].state.Queued? || db.jobs[j].state.Running?)
  {
    assert !AllSucceeded(db.jobs, db.deps[m]) && !AnyDead(db.jobs, db.deps[m]);
    var k :| 0 <= k < |db.deps[m]| && !db.jobs[db.deps[m][k]].state.Succeeded?;
    var n := db.deps[m][k];
    assert db.jobs[n].run == r && n !in S && !db.jobs[n].state.Dead();
  }

  predicate SomeJob(jobs: seq<Job>, r: RunId, s: JobState) {
    exists j :: 0 <= j < |jobs| && jobs[j].run == r && jobs[j].state == s
  }

  /**
   The verdict: in every reachable state a run is over exactly when its jobs are; it failed iff a job
   failed, was cancelled iff none failed and one was cancelled, and succeeded iff every job succeeded,
   although `advance` never looks at skipped jobs.
   */
  lemma RunVerdict(w: World, r: RunId)
    requires Reachable(w) && r < |w.db.runs|
    ensures w.db.runs[r].state.Terminal() <==> AllTerminal(w.db.jobs, r)
    ensures w.db.runs[r].state.RunFailed? <==> AllTerminal(w.db.jobs, r) && SomeJob(w.db.jobs, r, Failed)
    ensures w.db.runs[r].state.RunCancelled? <==>
              AllTerminal(w.db.jobs, r) && !SomeJob(w.db.jobs, r, Failed) && SomeJob(w.db.jobs, r, Cancelled)
    ensures w.db.runs[r].state.RunSucceeded? <==>
              (forall j :: 0 <= j < |w.db.jobs| && w.db.jobs[j].run == r ==> w.db.jobs[j].state.Succeeded?)
  {
    ReachableQuiet(w);
    assert Finalized(w.db, r) && RunOk(w.db, r);
    if SomeJob(w.db.jobs, r, Skipped) { SkipHasCause(w.db, r); }
  }

  /** A skip has a cause in the same run: a least skipped job needs one that failed or was cancelled. */
  lemma SkipHasCause(db: Db, r: RunId)
    requires Inv(db) && SomeJob(db.jobs, r, Skipped)
    ensures SomeJob(db.jobs, r, Failed) || SomeJob(db.jobs, r, Cancelled)
  {
    var S := set j | 0 <= j < |db.jobs| && db.jobs[j].run == r && db.jobs[j].state.Skipped?;
    var j :| 0 <= j < |db.jobs| && db.jobs[j].run == r && db.jobs[j].state == Skipped;
    assert j in S;
    assert Graphs.HasMinimal(db.deps, S);
    var m :| m in S && m < |db.deps| && forall k :: 0 <= k < |db.deps[m]| ==> db.deps[m][k] !in S;
    assert NeedsOk(db, m);
    var k :| 0 <= k < |db.deps[m]| && db.jobs[db.deps[m][k]].state.Dead();
    var n := db.deps[m][k];
    assert db.jobs[n].run == r && n !in S;
  }
}
