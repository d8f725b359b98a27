/** Leases: exactly which attempts a tick takes, across restarts, and that a second tick takes nothing more. */
module Lease {
  import opened Model
  import opened Ops
  import opened Invariants
  import opened Transactions
  import opened System
  import opened Lifecycle
  import opened Progress

  /** What an expired lease does to its row. */
  function Expired(row: Job, now: Time): Job {
    if MayRetry(row, LostRunner) then Requeued(row, now) else Finished(row, Failed, LostRunner, None, now)
  }

  /** What the timeout backstop does to a row. */
  function Backstopped(row: Job, now: Time, grace: Time): Job {
    if Selects(ListUncancelled, row) && Overdue(row, now, grace) then CancelAsked(row, ByTimeout, now) else row
  }

  lemma ExpireOneRow(db: Db, now: Time, i: JobId, j: JobId)
    requires db.WellFormed() && i < |db.jobs| && j < |db.jobs|
    ensures var row := ExpireOne(db, now, i).jobs[j];
      && (!db.jobs[j].state.Pending? ==>
            row == if j == i && Selects(ListExpired(now), db.jobs[j]) then Expired(db.jobs[j], now) else db.jobs[j])
      && (db.jobs[j].state.Pending? ==> !row.state.Running?)
  {
    if Selects(ListExpired(now), db.jobs[i]) && !MayRetry(db.jobs[i], LostRunner) {
      var op := Finish(i, Failed, LostRunner, None);
      WellFormedDo(db, now, op);
      AdvanceClosedForm(Do(db, now, op), now, db.jobs[i].run, j);
    }
  }

  lemma {:induction false} ExpireAllRow(db: Db, now: Time, ids: seq<JobId>, j: JobId)
    requires db.WellFormed() && Within(ids, |db.jobs|) && j < |db.jobs|
    ensures var row := ExpireAll(db, now, ids).jobs[j];
      && (!db.jobs[j].state.Pending? ==>
            row == if j in ids && Selects(ListExpired(now), db.jobs[j]) then Expired(db.jobs[j], now) else db.jobs[j])
      && (db.jobs[j].state.Pending? ==> !row.state.Running?)
  {
    if ids != [] {
      var front, i := ids[..|ids| - 1], ids[|ids| - 1];
      ExpireAllRow(db, now, front, j);
      assert ids == front + [i];
      var d := ExpireAll(db, now, front);
      ExpireOneRow(d, now, i, j);
    }
  }

  lemma {:induction false} BackstopAllRow(db: Db, now: Time, grace: Time, ids: seq<JobId>, j: JobId)
    requires db.WellFormed() && Within(ids, |db.jobs|) && j < |db.jobs| && now != NEVER
    ensures BackstopAll(db, now, grace, ids).jobs[j] == if j in ids then Backstopped(db.jobs[j], now, grace)
      else db.jobs[j]
  {
    if ids != [] {
      BackstopAllRow(db, now, grace, ids[..|ids| - 1], j);
      assert ids == ids[..|ids| - 1] + [ids[|ids| - 1]];
    }
  }

  /** A tick in closed form on every job that is not pending. */
  lemma TickRow(db: Db, now: Time, graceUntil: Time, grace: Time, j: JobId)
    requires db.WellFormed() && j < |db.jobs| && now != NEVER
    ensures var row := TickTx(db, now, graceUntil, grace).jobs[j];
      && (!db.jobs[j].state.Pending? ==>
            row == if now >= graceUntil && Selects(ListExpired(now), db.jobs[j]) then Expired(db.jobs[j], now)
                   else Backstopped(db.jobs[j], now, grace))
      && (db.jobs[j].state.Pending? ==> !row.state.Running?)
  {
    var ids := Lost(db, now, graceUntil);
    SelectMembers(ListExpired(now), db.jobs, |db.jobs|);
    ExpireAllRow(db, now, ids, j);
    var d := ExpireAll(db, now, ids);
    SelectMembers(ListUncancelled, d.jobs, |d.jobs|);
    BackstopAllRow(d, now, grace, Select(ListUncancelled, d.jobs, |d.jobs|), j);
  }

  /**
   A tick ends a running attempt exactly when the lease is over and so is the boot's grace: it goes back to
   the queue below the attempt cap with no cancel pending, and fails as lost_runner otherwise.
   */
  lemma TickTakesExactlyTheLost(w: World, j: JobId, n: nat)
    requires Ok(w) && w.db.Live(j, n)
    ensures var w' := Apply(w, Tick).0; var row := w.db.jobs[j];
      && w'.db.HasJob(j)
      && (!w'.db.Live(j, n) <==> w.now >= w.graceUntil && row.lease < w.now)
      && (!w'.db.Live(j, n) ==> w'.db.jobs[j] == Expired(row, w.now))
      && (!w'.db.Live(j, n) ==> (w'.db.jobs[j].state.Queued? <==> n < row.maxAttempts && row.cancelAt == NEVER))
      && (!w'.db.Live(j, n) && !w'.db.jobs[j].state.Queued? ==>
            w'.db.jobs[j].state.Failed? && w'.db.jobs[j].failure.LostRunner?)
  {
    TickRow(w.db, w.now, w.graceUntil, w.cfg.timeoutGrace, j);
    StepLater(w, Tick);
    assert JobOk(w.db.jobs[j]);
  }

  // Idempotence.

  lemma NothingSelected(l: Listing, jobs: seq<Job>, n: nat)
    requires n <= |jobs| && forall i :: 0 <= i < n ==> !Selects(l, jobs[i])
    ensures Select(l, jobs, n) == []
  {}

  lemma {:induction false} NothingOverdue(db: Db, now: Time, grace: Time, ids: seq<JobId>)
    requires db.WellFormed() && Within(ids, |db.jobs|)
    requires forall i :: 0 <= i < |db.jobs| ==> Backstopped(db.jobs[i], now, grace) == db.jobs[i]
    requires now != NEVER
    ensures BackstopAll(db, now, grace, ids) == db
  {
    if ids != [] { NothingOverdue(db, now, grace, ids[..|ids| - 1]); }
  }

  /** What a tick leaves of a row, a second tick at the same clock would leave too. */
  lemma TickSettlesRow(w: World, j: JobId)
    requires Ok(w) && j < |w.db.jobs|
    ensures var d := Apply(w, Tick).0.db;
      && j < |d.jobs|
      && Backstopped(d.jobs[j], w.now, w.cfg.timeoutGrace) == d.jobs[j]
      && (w.now >= w.graceUntil ==> !Selects(ListExpired(w.now), d.jobs[j]))
  {
    TickRow(w.db, w.now, w.graceUntil, w.cfg.timeoutGrace, j);
  }

  lemma IdleTick(db: Db, now: Time, graceUntil: Time, grace: Time)
    requires db.WellFormed() && now != NEVER
    requires forall j :: 0 <= j < |db.jobs| ==> Backstopped(db.jobs[j], now, grace) == db.jobs[j]
    requires now >= graceUntil ==> forall j :: 0 <= j < |db.jobs| ==> !Selects(ListExpired(now), db.jobs[j])
    ensures TickTx(db, now, graceUntil, grace) == db
  {
    if now >= graceUntil { NothingSelected(ListExpired(now), db.jobs, |db.jobs|); }
    assert ExpireAll(db, now, []) == db;
    NothingOverdue(db, now, grace, Select(ListUncancelled, db.jobs, |db.jobs|));
  }

  /** A second tick at the same clock reading changes nothing: no row, no event. */
  lemma TickIsIdempotent(w: World)
    requires Ok(w)
    ensures Ok(Apply(w, Tick).0) && Apply(Apply(w, Tick).0, Tick).0 == Apply(w, Tick).0
  {
    StepOk(w, Tick);
    var d := Apply(w, Tick).0.db;
    assert |d.jobs| == |w.db.jobs|;
    forall j | 0 <= j < |d.jobs|
      ensures Backstopped(d.jobs[j], w.now, w.cfg.timeoutGrace) == d.jobs[j]
      ensures w.now >= w.graceUntil ==> !Selects(ListExpired(w.now), d.jobs[j])
    {
      TickSettlesRow(w, j);
    }
    IdleTick(d, w.now, w.graceUntil, w.cfg.timeoutGrace);
  }

  // A diligent runner is never robbed.

  /** When the attempt was last renewed, under which TTL, and when the server last booted. */
  datatype Watch = Watch(renewedAt: Time, ttl: Time, bootAt: Time)

  ghost predicate Watching(w: World, j: JobId, n: nat, v: Watch) {
    && w.db.Live(j, n)
    && w.db.jobs[j].lease == v.renewedAt + v.ttl
    && w.graceUntil == v.bootAt + w.cfg.ttl
  }

  ghost function Watched(w: World, s: Step, j: JobId, n: nat, v: Watch): Watch
    requires Ok(w) && w.db.HasJob(j)
  {
    match s
    case Heartbeat(runner, refs) =>
      if runner == w.db.jobs[j].runner && runner != NO_RUNNER && JobRef(j, n) in refs
        then v.(renewedAt := w.now, ttl := w.cfg.ttl) else v
    case Restart(_) => v.(bootAt := w.now)
    case _ => v
  }

  /**
   The runner's side of the bargain, along `steps`: at every tick the last renewal is at most its TTL ago,
   unless the tick falls within one TTL of the boot; and the attempt is not completed on the way.
   */
  ghost predicate Diligent(w: World, steps: seq<Step>, j: JobId, n: nat, v: Watch)
    requires Ok(w) && w.db.HasJob(j)
    decreases |steps|
  {
    steps == [] ||
    (var s := steps[0];
     StepOk(w, s); StepLater(w, s);
     && (s.Tick? ==> w.now <= v.renewedAt + v.ttl || w.now < v.bootAt + w.cfg.ttl)
     && !(s.Complete? && s.job == j && s.attempt == n)
     && Diligent(Apply(w, s).0, steps[1..], j, n, Watched(w, s, j, n, v)))
  }

  /** A claim puts its attempt under watch. */
  lemma GrantStartsWatch(w: World, runner: RunnerId, labels: Labels, bootAt: Time)
    requires Ok(w) && w.graceUntil == bootAt + w.cfg.ttl && Apply(w, Poll(runner, labels)).1.Granted?
    ensures var (w', g) := Apply(w, Poll(runner, labels));
      Watching(w', g.job, g.attempt, Watch(w.now, w.cfg.ttl, bootAt)) && w'.db.jobs[g.job].runner == runner
  {}

  /** However long the outages, a diligent attempt is still the running one, under the same runner. */
  lemma {:induction false} DiligentKeepsLease(w: World, steps: seq<Step>, j: JobId, n: nat, v: Watch)
    requires Ok(w) && Watching(w, j, n, v) && Diligent(w, steps, j, n, v)
    ensures Exec(w, steps).db.Live(j, n) && Exec(w, steps).db.jobs[j].runner == w.db.jobs[j].runner
    decreases |steps|
  {
    if steps != [] {
      var s := steps[0];
      StepOk(w, s);
      StepLater(w, s);
      StepKeepsWatch(w, s, j, n, v);
      DiligentKeepsLease(Apply(w, s).0, steps[1..], j, n, Watched(w, s, j, n, v));
    }
  }

  lemma StepKeepsWatch(w: World, s: Step, j: JobId, n: nat, v: Watch)
    requires Ok(w) && Watching(w, j, n, v)
    requires s.Tick? ==> w.now <= v.renewedAt + v.ttl || w.now < v.bootAt + w.cfg.ttl
    requires !(s.Complete? && s.job == j && s.attempt == n)
    ensures Watching(Apply(w, s).0, j, n, Watched(w, s, j, n, v))
    ensures Apply(w, s).0.db.jobs[j].runner == w.db.jobs[j].runner
  {
    StepLater(w, s);
    match s
    case Submit(_) =>
    case Poll(runner, labels) => PollRow(w.db, w.now, w.cfg.ttl, runner, labels, j);
    case Heartbeat(runner, refs) => BeatRow(w.db, w.now, w.cfg.ttl, runner, refs, j, n);
    case Complete(i, m, res) => CompleteRow(w.db, w.now, i, m, res, j);
    case CancelRun(r) => CancelRow(w.db, w.now, r, j);
    case Tick =>
      TickRow(w.db, w.now, w.graceUntil, w.cfg.timeoutGrace, j);
    case AppendLogs(_, _, _) =>
    case Wait(_) =>
    case Restart(_) =>
  }

  lemma PollRow(db: Db, now: Time, ttl: Time, runner: RunnerId, labels: Labels, j: JobId)
    requires Inv(db) && now != NEVER && j < |db.jobs| && db.jobs[j].state.Running?
    ensures j < |ClaimTx(db, now, ttl, runner, labels).0.jobs|
      && ClaimTx(db, now, ttl, runner, labels).0.jobs[j] == db.jobs[j]
  {}

  lemma {:induction false} BeatRow(db: Db, now: Time, ttl: Time, runner: RunnerId, refs: seq<JobRef>, j: JobId, n: nat)
    requires now != NEVER && db.Live(j, n)
    ensures var d := Beat(db, now, ttl, runner, refs).0;
      d.HasJob(j) && d.jobs[j] == if runner == db.jobs[j].runner && JobRef(j, n) in refs
        then Renewed(db.jobs[j], now + ttl) else db.jobs[j]
  {
    if refs != [] {
      BeatRow(db, now, ttl, runner, refs[..|refs| - 1], j, n);
      assert refs == refs[..|refs| - 1] + [refs[|refs| - 1]];
    }
  }

  lemma CompleteRow(db: Db, now: Time, i: JobId, m: int, res: Result, j: JobId)
    requires db.WellFormed() && now != NEVER && j < |db.jobs| && db.jobs[j].state.Running?
      && !(i == j && db.jobs[j].attempt == m)
    ensures var d := CompleteTx(db, now, i, m, res).0; j < |d.jobs| && d.jobs[j] == db.jobs[j]
  {
    if ValidResult(res) && db.Live(i, m) {
      var op := Settlement(db.jobs[i], i, res);
      WellFormedDo(db, now, op);
      AdvanceClosedForm(Do(db, now, op), now, db.jobs[i].run, j);
    }
  }

  ghost predicate PerhapsAsked(o: Job, n: Job, now: Time) {
    n == o || (o.cancelAt == NEVER && n == CancelAsked(o, ByUser, now))
  }

  lemma CancelRow(db: Db, now: Time, r: RunId, j: JobId)
    requires db.WellFormed() && now != NEVER && j < |db.jobs| && db.jobs[j].state.Running?
    ensures var d := CancelTx(db, now, r).0;
      j < |d.jobs| && PerhapsAsked(db.jobs[j], d.jobs[j], now)
  {
    if r < |db.runs| && !db.runs[r].state.Terminal() && !CancelRequested(db, r) {
      CancelJobsRow(db, now, r, |db.jobs|, CancelJobs(db, now, r, |db.jobs|), j);
      CancelJobsWindsDown(db, now, r, |db.jobs|);
      var d := CancelJobs(db, now, r, |db.jobs|);
      WellFormedDo(d, now, AskRunCancel(r));
      AdvanceClosedForm(Do(d, now, AskRunCancel(r)), now, r, j);
    }
  }
}
