/** What each request does to the columns of the rows, whatever functions it is built from. */
module Effects {
  import opened Model
  import opened Ops
  import opened Invariants
  import opened Transactions
  import opened Pipelines
  import opened System
  import opened Progress
  import L = Lease
  import Lc = Lifecycle

  // Events are only appended.

  lemma {:induction false} DoAllRecords(db: Db, now: Time, ops: seq<Op>)
    requires Inv(db) && now != NEVER && EnabledAll(db, now, ops)
    ensures db.events <= DoAll(db, now, ops).events
    decreases |ops|
  {
    if ops != [] {
      InvDo(db, now, ops[0]);
      EventRunOpen(db, now, ops[0]);
      DoAllRecords(Do(db, now, ops[0]), now, ops[1..]);
    }
  }

  lemma AdvanceRecords(db: Db, now: Time, r: RunId)
    requires Inv(db) && now != NEVER && r < |db.runs|
    ensures db.events <= Advance(db, now, r).events
  {
    AdvanceLeads(db, now, r);
    var ops :| Silent(ops) && EnabledAll(db, now, ops) && DoAll(db, now, ops) == Advance(db, now, r);
    DoAllRecords(db, now, ops);
  }

  // Complete.

  /** What is accepted, what is refused and why; nothing but a report of the running attempt changes anything. */
  lemma CompleteReply(w: World, j: JobId, n: int, res: Result)
    requires Ok(w)
    ensures var (w', reply) := Apply(w, Complete(j, n, res));
      var valid := res.status.StatusSucceeded?
        || (res.status.StatusFailed? && res.kind != NoFailure && res.kind != LostRunner);
      var row := if j < |w.db.jobs| then Some(w.db.jobs[j]) else None;
      && (reply.Invalid? <==> !valid)
      && (reply.NotFound? <==> valid && row.None?)
      && (reply.Accepted? <==> valid && row.Some? && row.value.attempt == n
                               && !row.value.state.Pending? && !row.value.state.Queued?)
      && (reply.Fenced? <==> valid && row.Some? && !reply.Accepted?)
      && (!(reply.Accepted? && row.value.state.Running?) ==> w' == w)
  {}

  /** The row of a live attempt after a valid report. */
  ghost predicate SettledAs(row: Job, res: Result, now: Time, row': Job) {
    && (row'.state.Succeeded? <==> res.status.StatusSucceeded?)
    && (row'.state.Cancelled? <==> res.status.StatusFailed? && res.kind.CancelKind? && !row.reason.ByTimeout?)
    && (row'.state.Queued? <==>
          res.status.StatusFailed? && res.kind.Infra? && row.attempt < row.maxAttempts && row.cancelAt == NEVER)
    && (row'.state.Failed? <==> !row'.state.Succeeded? && !row'.state.Cancelled? && !row'.state.Queued?)
    && (row'.state.Failed? ==> row'.failure == if res.kind.CancelKind? then TimedOut else res.kind)
    && (row'.state.Succeeded? ==> row'.failure.NoFailure?)
    && (row'.state.Cancelled? ==> row'.failure.CancelKind?)
    && (!row'.state.Queued? ==>
          row' == row.(state := row'.state, failure := row'.failure, exitCode := res.exitCode, lease := NEVER,
                       finishedAt := now))
    && (row'.state.Queued? ==>
          row' == row.(state := Queued, runner := NO_RUNNER, lease := NEVER, startedAt := NEVER, queuedAt := now))
  }

  /** The event recorded with it. */
  function SettledEvent(j: JobId, n: nat, res: Result, row': Job): Event {
    match row'.state
    case Succeeded => JobSucceeded(row'.run, j, n)
    case Cancelled => JobCancelled(row'.run, j, n)
    case Queued => JobRequeued(row'.run, j, n, res.kind)
    case _ => JobFailed(row'.run, j, n, row'.failure)
  }

  /**
   A valid report of the live attempt: success exactly on a success report, cancelled exactly on a cancel
   report the backstop did not cause, back in the queue exactly on a runner failure with attempts left and
   no cancel pending, and failed with the reported kind otherwise; and the first event recorded says so.
   */
  lemma CompleteSettlesRow(w: World, j: JobId, n: nat, res: Result)
    requires Ok(w) && w.db.Live(j, n) && Apply(w, Complete(j, n, res)).1 != Invalid
    ensures var d := Apply(w, Complete(j, n, res)).0.db;
      && j < |d.jobs| && SettledAs(w.db.jobs[j], res, w.now, d.jobs[j])
      && w.db.events + [SettledEvent(j, n, res, d.jobs[j])] <= d.events
  {
    CompleteSettles(w, j, n, res);
    SettlementIs(w.db, w.now, j, res);
    ResolvedRecords(w.db, w.now, Settlement(w.db.jobs[j], j, res));
  }

  lemma SettlementIs(db: Db, now: Time, j: JobId, res: Result)
    requires j < |db.jobs| && db.jobs[j].state.Running? && JobOk(db.jobs[j]) && ValidResult(res)
    requires Enabled(db, Settlement(db.jobs[j], j, res))
    ensures var d := Do(db, now, Settlement(db.jobs[j], j, res));
      && SettledAs(db.jobs[j], res, now, d.jobs[j])
      && d.events == db.events + [SettledEvent(j, db.jobs[j].attempt, res, d.jobs[j])]
  {}

  lemma ResolvedRecords(db: Db, now: Time, op: Op)
    requires Inv(db) && now != NEVER && Enabled(db, op) && (op.Finish? || op.Requeue?)
    ensures Do(db, now, op).events <= Resolved(db, now, op).events
  {
    InvDo(db, now, op);
    assert Do(db, now, op).runs == db.runs;
    AdvanceRecords(Do(db, now, op), now, db.jobs[op.j].run);
  }

  // Claim.

  /** The grant of attempt `n` of job `j`: the attempt starts, and its run if it was pending; nothing else changes. */
  ghost predicate GrantedAs(w: World, runner: RunnerId, j: JobId, n: nat, db': Db) {
    && j < |w.db.jobs| && w.db.jobs[j].run < |w.db.runs| && n == w.db.jobs[j].attempt + 1
    && var row, r := w.db.jobs[j], w.db.jobs[j].run;
       var first := w.db.runs[r].state.RunPending?;
       db' == w.db.(
         jobs := w.db.jobs[j := row.(state := Running, runner := runner, attempt := n, lease := w.now + w.cfg.ttl,
                                     startedAt := w.now)],
         runs := if first then w.db.runs[r := w.db.runs[r].(state := RunRunning, startedAt := w.now)] else w.db.runs,
         events := w.db.events + (if first then [RunStarted(r)] else []) + [JobClaimed(r, j, runner, n)])
  }

  /** A poll grants one attempt or changes nothing. */
  lemma ClaimStarts(w: World, runner: RunnerId, labels: Labels)
    requires Ok(w)
    ensures var (w', reply) := Apply(w, Poll(runner, labels));
      && (reply.Invalid? <==> runner == NO_RUNNER) && (reply.Invalid? || reply.NothingToDo? || reply.Granted?)
      && (!reply.Granted? ==> w' == w)
      && (reply.Granted? ==> w' == w.(db := w'.db) && GrantedAs(w, runner, reply.job, reply.attempt, w'.db))
  {
    var c := Candidate(w.db, labels);
    if runner != NO_RUNNER && c.Some? { QueuedRunOpen(w.db, w.now, c.value, runner, w.now + w.cfg.ttl); }
  }

  // Heartbeat.

  /** The reference names the running attempt of a job that this runner holds. */
  predicate Names(jobs: seq<Job>, runner: RunnerId, ref: JobRef) {
    && ref.job < |jobs| && jobs[ref.job].state.Running? && jobs[ref.job].attempt == ref.attempt
    && jobs[ref.job].runner == runner
  }

  function Answer(jobs: seq<Job>, runner: RunnerId, ref: JobRef): Directive {
    if !Names(jobs, runner, ref) then Abort else if jobs[ref.job].cancelAt != NEVER then CancelIt else Continue
  }

  /** Renewing what the references name. */
  ghost predicate Renews(db: Db, lease: Time, runner: RunnerId, refs: seq<JobRef>, d: Db) {
    && d == db.(jobs := d.jobs) && |d.jobs| == |db.jobs|
    && forall j :: 0 <= j < |db.jobs| ==>
         d.jobs[j] == if Names(db.jobs, runner, JobRef(j, db.jobs[j].attempt)) && JobRef(j, db.jobs[j].attempt) in refs
                      then db.jobs[j].(lease := lease) else db.jobs[j]
  }

  lemma RenewsOne(db: Db, lease: Time, runner: RunnerId, refs: seq<JobRef>, d: Db, ref: JobRef, d': Db)
    requires Renews(db, lease, runner, refs, d)
    requires d' == if Names(d.jobs, runner, ref) then d.(jobs := d.jobs[ref.job := d.jobs[ref.job].(lease := lease)])
      else d
    ensures Renews(db, lease, runner, refs + [ref], d') && Answer(d.jobs, runner, ref) == Answer(db.jobs, runner, ref)
  {}

  lemma {:induction false} BeatRenews(db: Db, now: Time, ttl: Time, runner: RunnerId, refs: seq<JobRef>)
    requires now != NEVER
    ensures var (d, ds) := Beat(db, now, ttl, runner, refs);
      && Renews(db, now + ttl, runner, refs, d) && |ds| == |refs|
      && forall i :: 0 <= i < |refs| ==> ds[i] == Answer(db.jobs, runner, refs[i])
  {
    if refs != [] {
      var front, ref := refs[..|refs| - 1], refs[|refs| - 1];
      BeatRenews(db, now, ttl, runner, front);
      var d := Beat(db, now, ttl, runner, front).0;
      RenewsOne(db, now + ttl, runner, front, d, ref, BeatOne(d, now, ttl, runner, ref).0);
      assert refs == front + [ref];
    }
  }

  /**
   A heartbeat renews for one TTL exactly the running attempts it names that its runner holds, and answers each
   reference: abort if it does not hold it, cancel if a cancel is pending, continue otherwise.
   */
  lemma HeartbeatRenews(w: World, runner: RunnerId, refs: seq<JobRef>)
    requires Ok(w)
    ensures var (w', reply) := Apply(w, Heartbeat(runner, refs));
      && (runner == NO_RUNNER ==> reply.Invalid? && w' == w)
      && (runner != NO_RUNNER ==>
            && w'.db == w.db.(jobs := w'.db.jobs) && Renews(w.db, w.now + w.cfg.ttl, runner, refs, w'.db)
            && reply.Directives? && |reply.all| == |refs|
            && forall i :: 0 <= i < |refs| ==> reply.all[i] == Answer(w.db.jobs, runner, refs[i]))
  {
    BeatRenews(w.db, w.now, w.cfg.ttl, runner, refs);
  }

  // CancelRun.

  /** What cancelling its run leaves of a row. */
  ghost predicate CancelledAs(row: Job, now: Time, row': Job) {
    if row.state.Pending? || row.state.Queued? then
      row' == row.(state := Cancelled, failure := CancelKind, finishedAt := now)
    else if row.state.Running? && row.cancelAt == NEVER then row' == row.(cancelAt := now, reason := ByUser)
    else row' == row
  }

  /** A cancel ends the run's waiting jobs and asks its running ones to stop; the repeat of one changes nothing. */
  lemma CancelStops(w: World, r: RunId, j: JobId)
    requires Ok(w) && j < |w.db.jobs|
    ensures var (w', reply) := Apply(w, CancelRun(r));
      && (reply.NotFound? <==> r >= |w.db.runs|)
      && (reply.RunOver? <==> r < |w.db.runs| && !w.db.runs[r].state.RunPending? && !w.db.runs[r].state.RunRunning?)
      && (reply.Accepted? <==> !reply.NotFound? && !reply.RunOver?)
      && (reply.Accepted? && RunCancelAsked(r) !in w.db.events ==>
            && j < |w'.db.jobs| && RunCancelAsked(r) in w'.db.events
            && if w.db.jobs[j].run == r then CancelledAs(w.db.jobs[j], w.now, w'.db.jobs[j])
               else w'.db.jobs[j] == w.db.jobs[j])
      && (!reply.Accepted? || RunCancelAsked(r) in w.db.events ==> w' == w)
  {
    assert CancelRequested(w.db, r) <==> RunCancelAsked(r) in w.db.events;
    if r < |w.db.runs| && !w.db.runs[r].state.Terminal() && !CancelRequested(w.db, r) { CancelsNow(w.db, w.now, r, j); }
  }

  lemma CancelsNow(db: Db, now: Time, r: RunId, j: JobId)
    requires Inv(db) && now != NEVER && j < |db.jobs|
    requires r < |db.runs| && !db.runs[r].state.Terminal() && !CancelRequested(db, r)
    ensures var d := CancelTx(db, now, r).0;
      && j < |d.jobs| && RunCancelAsked(r) in d.events
      && if db.jobs[j].run == r then CancelledAs(db.jobs[j], now, d.jobs[j]) else d.jobs[j] == db.jobs[j]
  {
    var d := CancelJobs(db, now, r, |db.jobs|);
    Lc.CancelJobsOk(db, now, r);
    CancelJobsRow(db, now, r, |db.jobs|, d, j);
    CancelJobsWindsDown(db, now, r, |db.jobs|);
    var d1 := Do(d, now, AskRunCancel(r));
    AdvanceClosedForm(d1, now, r, j);
    AdvanceRecords(d1, now, r);
    assert d1.events[|d.events|] == RunCancelAsked(r);
  }

  // Tick.

  /**
   A tick on a running attempt. Its lease is over, and so is the boot's grace: back to the queue below the
   attempt cap with no cancel pending, otherwise failed for a lost runner. If not: asked to stop exactly if
   no cancel is pending and it is past its own timeout and the grace. Else untouched.
   */
  ghost predicate TickedAs(row: Job, w: World, row': Job) {
    if w.now >= w.graceUntil && row.lease < w.now then
      if row.attempt < row.maxAttempts && row.cancelAt == NEVER then
        row' == row.(state := Queued, runner := NO_RUNNER, lease := NEVER, startedAt := NEVER, queuedAt := w.now)
      else
        row' == row.(state := Failed, failure := LostRunner, exitCode := None, lease := NEVER, finishedAt := w.now)
    else if row.cancelAt == NEVER && row.timeout > 0 && row.startedAt + row.timeout + w.cfg.timeoutGrace < w.now then
      row' == row.(cancelAt := w.now, reason := ByTimeout)
    else row' == row
  }

  lemma TickTakesOrAsks(w: World, j: JobId)
    requires Ok(w) && j < |w.db.jobs| && !w.db.jobs[j].state.Pending?
    ensures var d := Apply(w, Tick).0.db;
      && j < |d.jobs|
      && if w.db.jobs[j].state.Running? then TickedAs(w.db.jobs[j], w, d.jobs[j]) else d.jobs[j] == w.db.jobs[j]
  {
    assert JobOk(w.db.jobs[j]);
    L.TickRow(w.db, w.now, w.graceUntil, w.cfg.timeoutGrace, j);
  }

  function LostEvent(row: Job, j: JobId): Event {
    if row.attempt < row.maxAttempts && row.cancelAt == NEVER then JobRequeued(row.run, j, row.attempt, LostRunner)
    else JobFailed(row.run, j, row.attempt, LostRunner)
  }

  lemma ExpireOneRecords(db: Db, now: Time, i: JobId)
    requires Inv(db) && now != NEVER && i < |db.jobs|
    ensures Inv(ExpireOne(db, now, i)) && db.events <= ExpireOne(db, now, i).events
    ensures Selects(ListExpired(now), db.jobs[i]) ==> LostEvent(db.jobs[i], i) in ExpireOne(db, now, i).events
  {
    if Selects(ListExpired(now), db.jobs[i]) {
      var op := if MayRetry(db.jobs[i], LostRunner) then Requeue(i, LostRunner)
        else Finish(i, Failed, LostRunner, None);
      InvDo(db, now, op);
      assert Do(db, now, op).events == db.events + [LostEvent(db.jobs[i], i)];
      assert LostEvent(db.jobs[i], i) in Do(db, now, op).events;
      if op.Finish? {
        ResolvedRecords(db, now, op);
        ResolvedLeads(db, now, op);
        InvLeads(db, now, Resolved(db, now, op));
      }
    }
  }

  lemma {:induction false} ExpireAllRecords(db: Db, now: Time, ids: seq<JobId>, j: JobId)
    requires Inv(db) && now != NEVER && Within(ids, |db.jobs|) && j < |db.jobs| && Selects(ListExpired(now), db.jobs[j])
    ensures Inv(ExpireAll(db, now, ids))
    ensures j in ids ==> LostEvent(db.jobs[j], j) in ExpireAll(db, now, ids).events
  {
    if ids != [] {
      var front, i := ids[..|ids| - 1], ids[|ids| - 1];
      ExpireAllRecords(db, now, front, j);
      L.ExpireAllRow(db, now, front, j);
      var d := ExpireAll(db, now, front);
      assert ids == front + [i];
      ExpireOneRecords(d, now, i);
    }
  }

  lemma {:induction false} BackstopAllRecords(db: Db, now: Time, grace: Time, ids: seq<JobId>)
    requires db.WellFormed() && Within(ids, |db.jobs|)
    ensures db.events <= BackstopAll(db, now, grace, ids).events
  {
    if ids != [] { BackstopAllRecords(db, now, grace, ids[..|ids| - 1]); }
  }

  /**
   An attempt a tick takes is recorded as lost: requeued below the attempt cap with no cancel pending, else
   failed.
   */
  lemma TickRecordsLost(w: World, j: JobId, n: nat)
    requires Ok(w) && w.db.Live(j, n) && !Apply(w, Tick).0.db.Live(j, n)
    ensures LostEvent(w.db.jobs[j], j) in Apply(w, Tick).0.db.events
  {
    TickTakesOrAsks(w, j);
    assert JobOk(w.db.jobs[j]);
    TickRecords(w.db, w.now, w.graceUntil, w.cfg.timeoutGrace, j);
  }

  lemma TickRecords(db: Db, now: Time, graceUntil: Time, grace: Time, j: JobId)
    requires Inv(db) && now != NEVER && now >= graceUntil && j < |db.jobs| && Selects(ListExpired(now), db.jobs[j])
    ensures LostEvent(db.jobs[j], j) in TickTx(db, now, graceUntil, grace).events
  {
    var ids := Lost(db, now, graceUntil);
    SelectMembers(ListExpired(now), db.jobs, |db.jobs|);
    ExpireAllRecords(db, now, ids, j);
    var d := ExpireAll(db, now, ids);
    BackstopAllRecords(d, now, grace, Select(ListUncancelled, d.jobs, |d.jobs|));
  }

  /** The backstop, on a running attempt the tick leaves running: asked to stop iff it is overdue. */
  lemma BackstopAsksIff(w: World, j: JobId, n: nat)
    requires Ok(w) && w.db.Live(j, n) && w.db.jobs[j].cancelAt == NEVER && Apply(w, Tick).0.db.Live(j, n)
    ensures var row, row' := w.db.jobs[j], Apply(w, Tick).0.db.jobs[j];
      && (row'.cancelAt != NEVER <==> row.timeout > 0 && row.startedAt + row.timeout + w.cfg.timeoutGrace < w.now)
      && (row'.cancelAt != NEVER ==> row'.reason.ByTimeout? && row'.cancelAt == w.now)
      && (row'.cancelAt == NEVER ==> row' == row)
  {
    TickTakesOrAsks(w, j);
  }

  // Submit.

  predicate Inside(ids: seq<JobId>, lo: nat, hi: nat) { forall k :: 0 <= k < |ids| ==> lo <= ids[k] < hi }

  /** The stored edges of job `i`: one per declared need, and exactly the declared needs. */
  ghost predicate EdgesOf(spec: Spec, base: JobId, i: nat, edges: seq<JobId>)
    requires i < |spec|
  {
    && |edges| == |spec[i].needs| && Inside(edges, base, base + |spec|)
    && forall a :: 0 <= a < |spec| ==> (base + a in edges <==> spec[a].name in spec[i].needs)
  }

  lemma ResolveNames(spec: Spec, i: nat, a: nat)
    requires WellFormed(spec) && i < |spec| && a < |spec|
    ensures a in Resolve(spec)[i] <==> spec[a].name in spec[i].needs
  {
    var g, needs := Resolve(spec)[i], spec[i].needs;
    IndexOfName(spec, a);
    if a in g {
      var k :| 0 <= k < |g| && g[k] == a;
      assert EdgeOk(spec, i, k) && g[k] == IndexOf(spec, needs[k]);
    }
    if spec[a].name in needs {
      var k :| 0 <= k < |needs| && needs[k] == spec[a].name;
      assert g[k] == a;
    }
  }

  lemma ShiftNames(g: seq<seq<nat>>, base: nat, i: nat, a: nat)
    requires i < |g|
    ensures base + a in Shift(g, base)[i] <==> a in g[i]
  {
    var h := Shift(g, base)[i];
    if base + a in h { var k :| 0 <= k < |h| && h[k] == base + a; assert g[i][k] == a; }
    if a in g[i] { var k :| 0 <= k < |g[i]| && g[i][k] == a; assert h[k] == base + a; }
  }

  /** The row of a newly submitted job. */
  ghost predicate SubmittedAs(job: JobSpec, w: World, row: Job) {
    row == Job(|w.db.runs|, job.labels, if job.timeout == 0 then 1_800_000 else job.timeout, w.cfg.maxAttempts,
               if job.needs == [] then Queued else Pending, 0, NO_RUNNER, NEVER, NoFailure, None,
               w.now, NEVER, NEVER, NEVER, NoReason)
  }

  /**
   An accepted submission adds one pending run, one row per declared job and one edge per declared need, and
   touches nothing else; any other is refused.
   */
  lemma SubmitStores(w: World, spec: Spec)
    requires Ok(w)
    ensures var (w', reply) := Apply(w, Submit(spec));
      && (reply.Accepted? <==> Accepts(spec)) && (!reply.Accepted? ==> reply.Invalid? && w' == w)
      && (reply.Accepted? ==> StoredAs(spec, w, w'.db))
  {
    if Accepts(spec) {
      var base, d := |w.db.jobs|, Apply(w, Submit(spec)).0.db;
      AcceptedIsEnabled(w.db, spec, w.cfg.maxAttempts);
      assert d == Do(w.db, w.now, Create(ItemsOf(spec), w.cfg.maxAttempts));
      StoresRows(spec, w, d);
    }
  }

  ghost predicate StoredAs(spec: Spec, w: World, db': Db) {
    var base := |w.db.jobs|;
    && db'.runs == w.db.runs + [Run(RunPending, w.now, NEVER, NEVER)] && db'.logs == w.db.logs
    && |db'.jobs| == |db'.deps| == base + |spec| && w.db.jobs <= db'.jobs && w.db.deps <= db'.deps
    && forall i :: 0 <= i < |spec| ==>
         SubmittedAs(spec[i], w, db'.jobs[base + i]) && EdgesOf(spec, base, i, db'.deps[base + i])
  }

  lemma StoresRows(spec: Spec, w: World, db': Db)
    requires Inv(w.db) && WellFormed(spec) && Enabled(w.db, Create(ItemsOf(spec), w.cfg.maxAttempts))
    requires db' == Do(w.db, w.now, Create(ItemsOf(spec), w.cfg.maxAttempts))
    ensures StoredAs(spec, w, db')
  {
    var rows := NewRows(ItemsOf(spec), |w.db.runs|, w.cfg.maxAttempts, w.now);
    assert NeedsOf(ItemsOf(spec)) == Resolve(spec);
    assert db'.jobs == w.db.jobs + rows && db'.deps == w.db.deps + Shift(Resolve(spec), |w.db.jobs|);
    RowsStored(spec, w, rows, db'.jobs, db'.deps);
  }

  lemma RowsStored(spec: Spec, w: World, rows: seq<Job>, jobs: seq<Job>, deps: seq<seq<JobId>>)
    requires WellFormed(spec) && rows == NewRows(ItemsOf(spec), |w.db.runs|, w.cfg.maxAttempts, w.now)
    requires |w.db.deps| == |w.db.jobs| && jobs == w.db.jobs + rows
      && deps == w.db.deps + Shift(Resolve(spec), |w.db.jobs|)
    ensures forall i :: 0 <= i < |spec| ==>
      SubmittedAs(spec[i], w, jobs[|w.db.jobs| + i]) && EdgesOf(spec, |w.db.jobs|, i, deps[|w.db.jobs| + i])
  {
    forall i | 0 <= i < |spec|
      ensures SubmittedAs(spec[i], w, jobs[|w.db.jobs| + i])
        && EdgesOf(spec, |w.db.jobs|, i, deps[|w.db.jobs| + i])
    {
      RowStored(spec, w, i, jobs[|w.db.jobs| + i], deps[|w.db.jobs| + i]);
    }
  }

  lemma RowStored(spec: Spec, w: World, i: nat, row: Job, edges: seq<JobId>)
    requires WellFormed(spec) && i < |spec|
    requires row == NewRow(ItemsOf(spec)[i], |w.db.runs|, w.cfg.maxAttempts, w.now)
      && edges == Shift(Resolve(spec), |w.db.jobs|)[i]
    ensures SubmittedAs(spec[i], w, row) && EdgesOf(spec, |w.db.jobs|, i, edges)
  {
    SubmittedRow(spec, w, i, row);
    SubmittedEdges(spec, |w.db.jobs|, i, edges);
  }

  lemma SubmittedRow(spec: Spec, w: World, i: nat, row: Job)
    requires i < |spec| && row == NewRow(ItemsOf(spec)[i], |w.db.runs|, w.cfg.maxAttempts, w.now)
    ensures SubmittedAs(spec[i], w, row)
  {
    assert ItemsOf(spec)[i].needs == [] <==> spec[i].needs == [];
  }

  lemma SubmittedEdges(spec: Spec, base: JobId, i: nat, edges: seq<JobId>)
    requires WellFormed(spec) && i < |spec| && edges == Shift(Resolve(spec), base)[i]
    ensures EdgesOf(spec, base, i, edges)
  {
    forall a | 0 <= a < |spec| ensures base + a in edges <==> spec[a].name in spec[i].needs {
      ResolveNames(spec, i, a);
      ShiftNames(Resolve(spec), base, i, a);
    }
    forall k | 0 <= k < |edges| ensures base <= edges[k] < base + |spec| { assert EdgeOk(spec, i, k); }
  }

  // AppendLogs.

  /** A batch is taken exactly if its numbers are positive and it is for the running attempt; rows never change. */
  lemma AppendTakes(w: World, j: JobId, n: int, chunks: seq<Chunk>)
    requires Ok(w)
    ensures var (w', reply) := Apply(w, AppendLogs(j, n, chunks));
      var valid := forall i :: 0 <= i < |chunks| ==> chunks[i].no >= 1;
      && (reply.Invalid? <==> !valid) && (reply.NotFound? <==> valid && j >= |w.db.jobs|)
      && (reply.Accepted? <==>
            valid && j < |w.db.jobs| && w.db.jobs[j].state.Running? && w.db.jobs[j].attempt == n)
      && (reply.Fenced? <==> valid && j < |w.db.jobs| && !reply.Accepted?)
      && (!reply.Accepted? ==> w' == w)
      && w'.db.jobs == w.db.jobs && w'.db.runs == w.db.runs && w'.db.deps == w.db.deps
  {}

  // Boot.

  /** Zero settings take the defaults, others are kept; no lease expires before one TTL has passed. */
  lemma RestartKeepsSettings(w: World, cfg: Config)
    requires Ok(w)
    ensures var w' := Apply(w, Restart(cfg)).0;
      && w'.db == w.db && w'.now == w.now && w'.graceUntil == w.now + w'.cfg.ttl
      && w'.cfg.ttl == (if cfg.ttl == 0 then 30_000 else cfg.ttl)
      && w'.cfg.logCap == (if cfg.logCap == 0 then 10_485_760 else cfg.logCap)
      && w'.cfg.maxAttempts == (if cfg.maxAttempts == 0 then 3 else cfg.maxAttempts)
      && w'.cfg.timeoutGrace == (if cfg.timeoutGrace == 0 then 30_000 else cfg.timeoutGrace)
  {}

  // Waiting rows.

  /** What advancing its run may make of a pending row: nothing, or queued or skipped as of now. */
  ghost predicate DecidedAs(row: Job, now: Time, row': Job) {
    || row' == row
    || row' == row.(state := Queued, queuedAt := now)
    || row' == row.(state := Skipped, finishedAt := now)
  }

  lemma ResolvedWaits(db: Db, now: Time, op: Op, j: JobId)
    requires db.WellFormed() && Enabled(db, op) && (op.Finish? || op.Requeue?)
    requires j < |db.jobs| && db.jobs[j].state.Pending?
    ensures var rows := Resolved(db, now, op).jobs; j < |rows| && DecidedAs(db.jobs[j], now, rows[j])
  {
    var d := Do(db, now, op);
    WellFormedDo(db, now, op);
    assert d.jobs[j] == db.jobs[j] && d.runs == db.runs;
    AdvanceClosedForm(d, now, db.jobs[op.j].run, j);
  }

  lemma ExpireOneWaits(db: Db, now: Time, i: JobId, j: JobId)
    requires db.WellFormed() && i < |db.jobs| && j < |db.jobs| && db.jobs[j].state.Pending?
    ensures DecidedAs(db.jobs[j], now, ExpireOne(db, now, i).jobs[j])
  {
    if Selects(ListExpired(now), db.jobs[i]) && !MayRetry(db.jobs[i], LostRunner) {
      ResolvedWaits(db, now, Finish(i, Failed, LostRunner, None), j);
    }
  }

  lemma {:induction false} ExpireAllWaits(db: Db, now: Time, ids: seq<JobId>, j: JobId)
    requires db.WellFormed() && Within(ids, |db.jobs|) && j < |db.jobs| && db.jobs[j].state.Pending?
    ensures DecidedAs(db.jobs[j], now, ExpireAll(db, now, ids).jobs[j])
  {
    if ids != [] {
      var front, i := ids[..|ids| - 1], ids[|ids| - 1];
      ExpireAllWaits(db, now, front, j);
      var d := ExpireAll(db, now, front);
      if d.jobs[j].state.Pending? { ExpireOneWaits(d, now, i, j); } else { L.ExpireOneRow(d, now, i, j); }
    }
  }

  lemma TickWaits(db: Db, now: Time, graceUntil: Time, grace: Time, j: JobId)
    requires db.WellFormed() && now != NEVER && j < |db.jobs| && db.jobs[j].state.Pending?
    ensures var rows := TickTx(db, now, graceUntil, grace).jobs; j < |rows| && DecidedAs(db.jobs[j], now, rows[j])
  {
    var ids := Lost(db, now, graceUntil);
    ExpireAllWaits(db, now, ids, j);
    var d := ExpireAll(db, now, ids);
    L.BackstopAllRow(d, now, grace, Select(ListUncancelled, d.jobs, |d.jobs|), j);
  }

  lemma CompleteWaits(db: Db, now: Time, i: JobId, n: int, res: Result, j: JobId)
    requires Inv(db) && now != NEVER && j < |db.jobs| && db.jobs[j].state.Pending?
    ensures var rows := CompleteTx(db, now, i, n, res).0.jobs; j < |rows| && DecidedAs(db.jobs[j], now, rows[j])
  {
    if ValidResult(res) && db.Live(i, n) { ResolvedWaits(db, now, Settlement(db.jobs[i], i, res), j); }
  }

  /**
   In one step a pending row is left alone, queued, skipped or - only by cancelling its run - cancelled, as of
   now.
   */
  lemma PendingMoves(w: World, s: Step, j: JobId)
    requires Ok(w) && j < |w.db.jobs| && w.db.jobs[j].state.Pending?
    ensures var d, row := Apply(w, s).0.db, w.db.jobs[j];
      && j < |d.jobs|
      && (DecidedAs(row, w.now, d.jobs[j])
          || (s == CancelRun(row.run)
                && d.jobs[j] == row.(state := Cancelled, failure := CancelKind, finishedAt := w.now)))
  {
    match s
    case Submit(spec) => SubmitStores(w, spec);
    case Poll(runner, labels) => ClaimStarts(w, runner, labels); QueuedOnly(w, runner, labels);
    case Heartbeat(runner, refs) => HeartbeatRenews(w, runner, refs);
    case Complete(i, n, res) => CompleteWaits(w.db, w.now, i, n, res, j);
    case CancelRun(r) => CancelStops(w, r, j);
    case Tick => TickWaits(w.db, w.now, w.graceUntil, w.cfg.timeoutGrace, j);
    case AppendLogs(i, n, chunks) => AppendTakes(w, i, n, chunks);
    case Wait(_) =>
    case Restart(_) =>
  }

  lemma QueuedOnly(w: World, runner: RunnerId, labels: Labels)
    requires Ok(w)
    ensures var reply := Apply(w, Poll(runner, labels)).1;
      reply.Granted? ==> reply.job < |w.db.jobs| && w.db.jobs[reply.job].state.Queued?
  {}

  // Runs.

  /** What one step at clock `now` may make of a run: it starts once, it ends once, and each time is kept. */
  ghost predicate RunMovedAs(run: Run, now: Time, run': Run) {
    && run'.createdAt == run.createdAt
    && (run.state.Terminal() ==> run' == run)
    && (run.state.RunRunning? ==> !run'.state.RunPending? && run'.startedAt == run.startedAt)
    && (run.state.RunPending? ==>
          run'.startedAt == run.startedAt || (run'.startedAt == now && !run'.state.RunPending?))
    && (run'.state.RunRunning? && run.state.RunPending? ==> run'.startedAt == now)
    && run'.finishedAt == if !run.state.Terminal() && run'.state.Terminal() then now else run.finishedAt
  }

  lemma RunMovesOn(a: Run, now: Time, b: Run, c: Run)
    requires RunMovedAs(a, now, b) && RunMovedAs(b, now, c)
    ensures RunMovedAs(a, now, c)
  {}

  lemma DoMovesRun(db: Db, now: Time, op: Op, r: RunId)
    requires Enabled(db, op) && r < |db.runs|
    ensures r < |Do(db, now, op).runs| && RunMovedAs(db.runs[r], now, Do(db, now, op).runs[r])
  {}

  lemma {:induction false} DoAllMovesRun(db: Db, now: Time, ops: seq<Op>, r: RunId)
    requires EnabledAll(db, now, ops) && r < |db.runs|
    ensures r < |DoAll(db, now, ops).runs| && RunMovedAs(db.runs[r], now, DoAll(db, now, ops).runs[r])
    decreases |ops|
  {
    if ops != [] {
      var d := Do(db, now, ops[0]);
      DoMovesRun(db, now, ops[0], r);
      DoAllMovesRun(d, now, ops[1..], r);
      RunMovesOn(db.runs[r], now, d.runs[r], DoAll(d, now, ops[1..]).runs[r]);
    }
  }

  /** Every step moves a run's state and times together. */
  lemma RunMoves(w: World, s: Step, r: RunId)
    requires Ok(w) && r < |w.db.runs|
    ensures r < |Apply(w, s).0.db.runs| && RunMovedAs(w.db.runs[r], w.now, Apply(w, s).0.db.runs[r])
  {
    StepFollows(w, s);
    var ops :| EnabledAll(w.db, w.now, ops) && DoAll(w.db, w.now, ops) == Apply(w, s).0.db;
    DoAllMovesRun(w.db, w.now, ops, r);
  }
}
