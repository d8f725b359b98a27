/** How one job's row can change over whole runs of the system. */
module Lifecycle {
  import opened Model
  import opened Ops
  import opened Invariants
  import opened Transactions
  import opened System

  /** Strictly decreasing along every transition of a job. */
  function Rank(j: Job): int {
    match j.state
    case Pending => 2 * j.maxAttempts + 1
    case Queued => 2 * (j.maxAttempts - j.attempt)
    case Running => 2 * (j.maxAttempts - j.attempt) + 1
    case _ => 0
  }

  /** `n` is a later version of the row `o`. */
  ghost predicate Later(o: Job, n: Job) {
    && n.run == o.run && n.maxAttempts == o.maxAttempts && n.labels == o.labels && n.timeout == o.timeout
    && o.attempt <= n.attempt
    && (o.state.Terminal() ==> n == o)
    && (o.attempt == n.attempt && n.state.Running? ==> o.state.Running?)
    && (o.state.Running? && n.state.Running? && o.attempt == n.attempt ==>
          n.runner == o.runner && n.startedAt == o.startedAt)
    && (o.cancelAt != NEVER ==>
          n.cancelAt == o.cancelAt && n.reason == o.reason && n.attempt == o.attempt
          && (n.state.Running? || n.state.Terminal()))
    && Rank(n) <= Rank(o)
    && (n.state != o.state || n.attempt != o.attempt ==> Rank(n) < Rank(o))
  }

  lemma StepIsLater(o: Job, n: Job, now: Time)
    requires JobOk(o) && JobStep(o, n, now)
    ensures Later(o, n)
  {}

  lemma LaterIsTransitive(a: Job, b: Job, c: Job)
    requires Later(a, b) && Later(b, c)
    ensures Later(a, c)
  {}

  ghost predicate AllLater(db: Db, db': Db) {
    |db.jobs| <= |db'.jobs| && forall j :: 0 <= j < |db.jobs| ==> Later(db.jobs[j], db'.jobs[j])
  }

  lemma {:induction false} DoAllLater(db: Db, now: Time, ops: seq<Op>)
    requires Inv(db) && now != NEVER && EnabledAll(db, now, ops)
    ensures AllLater(db, DoAll(db, now, ops))
    decreases |ops|
  {
    if ops != [] {
      var d := Do(db, now, ops[0]);
      InvDo(db, now, ops[0]);
      DoAllLater(d, now, ops[1..]);
      RowsFollow(db, now, ops[0]);
      forall j | 0 <= j < |db.jobs| ensures Later(db.jobs[j], DoAll(db, now, ops).jobs[j]) {
        if d.jobs[j] != db.jobs[j] { StepIsLater(db.jobs[j], d.jobs[j], now); }
        LaterIsTransitive(db.jobs[j], d.jobs[j], DoAll(d, now, ops[1..]).jobs[j]);
      }
    }
  }

  lemma StepLater(w: World, s: Step)
    requires Ok(w)
    ensures AllLater(w.db, Apply(w, s).0.db)
  {
    StepFollows(w, s);
    var ops :| EnabledAll(w.db, w.now, ops) && DoAll(w.db, w.now, ops) == Apply(w, s).0.db;
    DoAllLater(w.db, w.now, ops);
  }

  /** Over any run of the system every row only moves forward. */
  lemma {:induction false} ExecLater(w: World, steps: seq<Step>)
    requires Ok(w)
    ensures AllLater(w.db, Exec(w, steps).db)
    decreases |steps|
  {
    if steps != [] {
      StepLater(w, steps[0]);
      StepOk(w, steps[0]);
      var w1 := Apply(w, steps[0]).0;
      ExecLater(w1, steps[1..]);
      forall j | 0 <= j < |w.db.jobs| ensures Later(w.db.jobs[j], Exec(w, steps).db.jobs[j]) {
        LaterIsTransitive(w.db.jobs[j], w1.db.jobs[j], Exec(w1, steps[1..]).db.jobs[j]);
      }
    }
  }

  // Termination.

  /** The event records a transition of job `j`. */
  predicate IsTransition(e: Event, j: JobId) {
    && (e.JobQueued? || e.JobSkipped? || e.JobClaimed? || e.JobRequeued? || e.JobSucceeded? || e.JobFailed?
          || e.JobCancelled?)
    && e.job == j
  }

  /** How many transitions of job `j` the event log records. */
  function Transitions(events: seq<Event>, j: JobId): nat {
    if events == [] then 0
    else Transitions(events[..|events| - 1], j) + if IsTransition(events[|events| - 1], j) then 1 else 0
  }

  lemma TransitionsLast(events: seq<Event>, e: Event, j: JobId)
    ensures Transitions(events + [e], j) == Transitions(events, j) + if IsTransition(e, j) then 1 else 0
  {
    assert (events + [e])[..|events|] == events;
  }

  predicate Moved(o: Job, n: Job) { n.state != o.state || n.attempt != o.attempt }

  /** An elementary change moves a job exactly when it records a transition of it. */
  lemma MovedIffRecorded(db: Db, now: Time, op: Op, j: JobId)
    requires Inv(db) && Enabled(db, op) && j < |db.jobs|
    ensures var db' := Do(db, now, op);
      && db.events <= db'.events && |db'.events| <= |db.events| + 1
      && (Moved(db.jobs[j], db'.jobs[j]) <==> |db'.events| > |db.events| && IsTransition(db'.events[|db.events|], j))
  {
    EventRunOpen(db, now, op);
  }

  lemma TransitionsCount(db: Db, now: Time, op: Op, j: JobId)
    requires Inv(db) && Enabled(db, op) && j < |db.jobs|
    ensures var db' := Do(db, now, op);
      Transitions(db'.events, j) == Transitions(db.events, j) + if Moved(db.jobs[j], db'.jobs[j]) then 1 else 0
  {
    var db' := Do(db, now, op);
    MovedIffRecorded(db, now, op, j);
    if |db'.events| > |db.events| {
      assert db'.events == db.events + [db'.events[|db.events|]];
      TransitionsLast(db.events, db'.events[|db.events|], j);
    }
  }

  /** Every transition of the job since `db` cost at least one unit of its rank. */
  ghost predicate Paid(db: Db, db': Db, j: JobId) {
    && j < |db.jobs| <= |db'.jobs|
    && Transitions(db'.events, j) + Rank(db'.jobs[j]) <= Transitions(db.events, j) + Rank(db.jobs[j])
  }

  lemma DoPays(db: Db, now: Time, op: Op, j: JobId)
    requires Inv(db) && Enabled(db, op) && j < |db.jobs|
    ensures Paid(db, Do(db, now, op), j)
  {
    var o, n := db.jobs[j], Do(db, now, op).jobs[j];
    TransitionsCount(db, now, op, j);
    RowsFollow(db, now, op);
    if n != o { StepIsLater(o, n, now); }
  }

  lemma {:induction false} DoAllPays(db: Db, now: Time, ops: seq<Op>, j: JobId)
    requires Inv(db) && now != NEVER && EnabledAll(db, now, ops) && j < |db.jobs|
    ensures Paid(db, DoAll(db, now, ops), j)
    decreases |ops|
  {
    if ops != [] {
      InvDo(db, now, ops[0]);
      DoPays(db, now, ops[0], j);
      DoAllPays(Do(db, now, ops[0]), now, ops[1..], j);
    }
  }

  /** Over any run of the system, the transitions a job makes cost at least as much rank as there are. */
  lemma {:induction false} TransitionsCostRank(w: World, steps: seq<Step>, j: JobId)
    requires Ok(w) && w.db.HasJob(j)
    ensures Paid(w.db, Exec(w, steps).db, j)
    decreases |steps|
  {
    if steps != [] {
      StepOk(w, steps[0]);
      StepFollows(w, steps[0]);
      var w1 := Apply(w, steps[0]).0;
      var ops :| EnabledAll(w.db, w.now, ops) && DoAll(w.db, w.now, ops) == w1.db;
      DoAllPays(w.db, w.now, ops, j);
      TransitionsCostRank(w1, steps[1..], j);
    }
  }

  /**
   From any state on, and whatever happens, a job makes at most 2·max_attempts+1 further transitions and
   never exceeds max_attempts attempts.
   */
  lemma JobsTerminate(w: World, steps: seq<Step>, j: JobId)
    requires Ok(w) && w.db.HasJob(j)
    ensures Exec(w, steps).db.HasJob(j)
    ensures var w' := Exec(w, steps); var max := w.db.jobs[j].maxAttempts;
      Transitions(w'.db.events, j) - Transitions(w.db.events, j) <= 2 * max + 1 && w'.db.jobs[j].attempt <= max
  {
    TransitionsCostRank(w, steps, j);
    ExecLater(w, steps);
    assert Later(w.db.jobs[j], Exec(w, steps).db.jobs[j]);
    assert JobOk(Exec(w, steps).db.jobs[j]) && JobOk(w.db.jobs[j]);
  }

  // Attempts.

  /** An attempt that has been granted and is not the running one is never the running one again. */
  lemma DeadAttemptsStayDead(w: World, steps: seq<Step>, j: JobId, n: nat)
    requires Ok(w) && w.db.HasJob(j) && n <= w.db.jobs[j].attempt && !w.db.Live(j, n)
    ensures !Exec(w, steps).db.Live(j, n)
  {
    ExecLater(w, steps);
    assert Later(w.db.jobs[j], Exec(w, steps).db.jobs[j]);
  }

  /**
   Redelivery is harmless: once a completion at (j, n) was accepted, any later completion at (j, n), with
   any result and after any steps, changes neither a row nor the event log.
   */
  lemma CompletionIsFinal(w: World, res: Result, steps: seq<Step>, j: JobId, n: nat, res': Result)
    requires Ok(w) && Apply(w, Complete(j, n, res)).1.Accepted?
    ensures var w1 := Apply(w, Complete(j, n, res)).0;
      Ok(w1) && var w2 := Exec(w1, steps); Apply(w2, Complete(j, n, res')).0 == w2
  {
    var w1 := Apply(w, Complete(j, n, res)).0;
    StepOk(w, Complete(j, n, res));
    StepLater(w, Complete(j, n, res));
    CompletionEndsAttempt(w, res, j, n);
    DeadAttemptsStayDead(w1, steps, j, n);
  }

  lemma AdvanceLater(db: Db, now: Time, r: RunId)
    requires Inv(db) && now != NEVER && r < |db.runs|
    ensures AllLater(db, Advance(db, now, r)) && |Advance(db, now, r).jobs| == |db.jobs|
  {
    AdvanceLeads(db, now, r);
    var ops :| EnabledAll(db, now, ops) && DoAll(db, now, ops) == Advance(db, now, r);
    DoAllLater(db, now, ops);
  }

  lemma SettlementEndsAttempt(row: Job, j: JobId, res: Result, db: Db, now: Time)
    requires j < |db.jobs| && db.jobs[j] == row && row.state.Running? && Enabled(db, Settlement(row, j, res))
    ensures var d := Do(db, now, Settlement(row, j, res));
      j < |d.jobs| && !d.jobs[j].state.Running? && d.jobs[j].attempt == row.attempt
  {}

  lemma CompletionEndsAttempt(w: World, res: Result, j: JobId, n: nat)
    requires Ok(w) && w.db.HasJob(j) && ValidResult(res)
    ensures !Apply(w, Complete(j, n, res)).0.db.Live(j, n)
  {
    if w.db.Live(j, n) {
      var op := Settlement(w.db.jobs[j], j, res);
      var d := Do(w.db, w.now, op);
      SettlementEndsAttempt(w.db.jobs[j], j, res, w.db, w.now);
      InvDo(w.db, w.now, op);
      AdvanceLater(d, w.now, w.db.jobs[j].run);
      assert Later(d.jobs[j], Advance(d, w.now, w.db.jobs[j].run).jobs[j]);
    }
  }

  // Cancellation.

  /** A job with a cancel request never gets another attempt: it stays at this one until it ends. */
  lemma CancelledNeverRetried(w: World, steps: seq<Step>, j: JobId)
    requires Ok(w) && w.db.HasJob(j) && w.db.jobs[j].cancelAt != NEVER
    ensures Exec(w, steps).db.HasJob(j)
    ensures var row := Exec(w, steps).db.jobs[j];
      row.attempt == w.db.jobs[j].attempt && (row.state.Running? || row.state.Terminal())
  {
    ExecLater(w, steps);
    assert Later(w.db.jobs[j], Exec(w, steps).db.jobs[j]);
  }

  lemma CancelJobsOk(db: Db, now: Time, r: RunId)
    requires Inv(db) && now != NEVER && r < |db.runs| && !db.runs[r].state.Terminal()
    ensures var d := CancelJobs(db, now, r, |db.jobs|);
      Enabled(d, AskRunCancel(r)) && Inv(Do(d, now, AskRunCancel(r))) && WoundDown(d.jobs, r)
  {
    var d := CancelJobs(db, now, r, |db.jobs|);
    CancelJobsWindsDown(db, now, r, |db.jobs|);
    CancelJobsLeads(db, now, r, |db.jobs|);
    InvLeads(db, now, d);
    InvDo(d, now, AskRunCancel(r));
  }

  lemma CancelWindsDown(db: Db, now: Time, r: RunId)
    requires Inv(db) && now != NEVER && r < |db.runs| && !db.runs[r].state.Terminal()
    ensures var d := CancelJobs(db, now, r, |db.jobs|);
      && Enabled(d, AskRunCancel(r))
      && var d1 := Do(d, now, AskRunCancel(r)); d1.WellFormed() && WoundDown(Advance(d1, now, r).jobs, r)
  {
    CancelJobsOk(db, now, r);
    var d1 := Do(CancelJobs(db, now, r, |db.jobs|), now, AskRunCancel(r));
    AdvanceLater(d1, now, r);
    LaterKeepsWoundDown(d1, Advance(d1, now, r), r);
  }

  /** A committed CancelRun leaves every job of the run over or running with a cancel pending. */
  lemma CancelRunWindsDown(w: World, r: RunId)
    requires Ok(w) && Apply(w, CancelRun(r)).1.Accepted?
    ensures WoundDown(Apply(w, CancelRun(r)).0.db.jobs, r)
  {
    if CancelRequested(w.db, r) {
      var i :| 0 <= i < |w.db.events| && w.db.events[i] == RunCancelAsked(r);
    } else {
      CancelWindsDown(w.db, w.now, r);
    }
  }

  lemma LaterKeepsWoundDown(db: Db, db': Db, r: RunId)
    requires AllLater(db, db') && |db'.jobs| == |db.jobs| && WoundDown(db.jobs, r)
    ensures WoundDown(db'.jobs, r)
  {
    forall j | 0 <= j < |db'.jobs| && db'.jobs[j].run == r ensures Winding(db'.jobs[j]) {
      assert Later(db.jobs[j], db'.jobs[j]);
    }
  }

  /** A run gets all its jobs when it is created. */
  lemma {:induction false} RunsKeepTheirJobs(w: World, steps: seq<Step>, r: RunId)
    requires Ok(w) && r < |w.db.runs|
    ensures var w' := Exec(w, steps);
      |w.db.runs| <= |w'.db.runs| && forall j :: |w.db.jobs| <= j < |w'.db.jobs| ==> w'.db.jobs[j].run != r
    decreases |steps|
  {
    if steps != [] {
      StepOk(w, steps[0]);
      var w1 := Apply(w, steps[0]).0;
      StepFollows(w, steps[0]);
      var ops :| EnabledAll(w.db, w.now, ops) && DoAll(w.db, w.now, ops) == w1.db;
      OpsKeepRunJobs(w.db, w.now, ops, r);
      RunsKeepTheirJobs(w1, steps[1..], r);
      ExecLater(w1, steps[1..]);
      forall j | |w.db.jobs| <= j < |Exec(w, steps).db.jobs| ensures Exec(w, steps).db.jobs[j].run != r {
        if j < |w1.db.jobs| { assert Later(w1.db.jobs[j], Exec(w1, steps[1..]).db.jobs[j]); }
      }
    }
  }

  lemma {:induction false} OpsKeepRunJobs(db: Db, now: Time, ops: seq<Op>, r: RunId)
    requires Inv(db) && now != NEVER && EnabledAll(db, now, ops) && r < |db.runs|
    ensures var db' := DoAll(db, now, ops);
      |db.runs| <= |db'.runs| && |db.jobs| <= |db'.jobs| && forall j ::
        |db.jobs| <= j < |db'.jobs| ==> db'.jobs[j].run != r
    decreases |ops|
  {
    if ops != [] {
      var d := Do(db, now, ops[0]);
      InvDo(db, now, ops[0]);
      RowsFollow(db, now, ops[0]);
      RunsFollow(db, now, ops[0]);
      OpsKeepRunJobs(d, now, ops[1..], r);
      DoAllLater(d, now, ops[1..]);
      forall j | |db.jobs| <= j < |d.jobs| ensures DoAll(d, now, ops[1..]).jobs[j].run != r {
        assert Later(d.jobs[j], DoAll(d, now, ops[1..]).jobs[j]);
      }
    }
  }

  /** After CancelRun commits, in every later state no job of the run is claimable, so none is ever claimed again. */
  lemma CancelIsFinal(w: World, r: RunId, steps: seq<Step>)
    requires Ok(w) && Apply(w, CancelRun(r)).1.Accepted?
    ensures var w1 := Apply(w, CancelRun(r)).0;
      Ok(w1) && WoundDown(Exec(w1, steps).db.jobs, r)
  {
    StepOk(w, CancelRun(r));
    CancelRunWindsDown(w, r);
    var w1 := Apply(w, CancelRun(r)).0;
    StepLater(w, CancelRun(r));
    WoundDownForever(w1, r, steps);
  }

  lemma WoundDownForever(w: World, r: RunId, steps: seq<Step>)
    requires Ok(w) && r < |w.db.runs| && WoundDown(w.db.jobs, r)
    ensures WoundDown(Exec(w, steps).db.jobs, r)
  {
    var w' := Exec(w, steps);
    ExecLater(w, steps);
    RunsKeepTheirJobs(w, steps, r);
    forall j | 0 <= j < |w'.db.jobs| && w'.db.jobs[j].run == r
      ensures Winding(w'.db.jobs[j])
    {
      assert Later(w.db.jobs[j], w'.db.jobs[j]);
    }
  }
}
