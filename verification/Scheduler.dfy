/**
 The scheduler as it runs: loops over rows through the store's guarded primitives, proved to perform the
 transactions of `Transactions`.
 */
module Schedulers {
  import opened Model
  import opened Ingest
  import opened Ops
  import opened Invariants
  import opened Transactions
  import opened System
  import opened Stores
  import opened Lease

  // advance's loops, step by step.

  /** The flags `advance` computes from the needs of a job. */
  method Flags(state: map<JobId, JobState>, needs: seq<JobId>) returns (blocked: bool, waiting: bool)
    requires forall k :: 0 <= k < |needs| ==> needs[k] in state
    ensures blocked <==> exists k :: 0 <= k < |needs| && state[needs[k]].Dead()
    ensures waiting <==> exists k :: 0 <= k < |needs| && !state[needs[k]].Dead() && !state[needs[k]].Succeeded?
  {
    blocked, waiting := false, false;
    for i := 0 to |needs|
      invariant blocked <==> exists k :: 0 <= k < i && state[needs[k]].Dead()
      invariant waiting <==> exists k :: 0 <= k < i && !state[needs[k]].Dead() && !state[needs[k]].Succeeded?
    {
      match state[needs[i]]
      case Succeeded =>
      case Failed => blocked := true;
      case Cancelled => blocked := true;
      case Skipped => blocked := true;
      case _ => waiting := true;
    }
  }

  /** `state` mirrors the rows of the run. */
  ghost predicate Mirrors(state: map<JobId, JobState>, jobs: seq<Job>, r: RunId) {
    && (forall j :: j in state ==> j < |jobs| && jobs[j].run == r && state[j] == jobs[j].state)
    && (forall j: JobId :: j < |jobs| && jobs[j].run == r ==> j in state)
  }

  /** The run's verdict, scanning the states in whatever order the map yields them; `None` if some job is not over. */
  method Tally(state: map<JobId, JobState>, ghost jobs: seq<Job>, ghost r: RunId) returns (final: Option<RunState>)
    requires Mirrors(state, jobs, r)
    ensures final == if AllTerminal(jobs, r) then Some(Verdict(jobs, r)) else None
  {
    var todo, v := state.Keys, RunSucceeded;
    while todo != {}
      invariant todo <= state.Keys && TallyOk(state, todo, v)
      decreases todo
    {
      var j :| j in todo;
      match state[j] {
        case Pending => return None;
        case Queued => return None;
        case Running => return None;
        case Failed => v := RunFailed;
        case Cancelled => if !v.RunFailed? { v := RunCancelled; }
        case _ =>
      }
      todo := todo - {j};
    }
    TallyIsVerdict(state, jobs, r, v);
    final := Some(v);
  }

  ghost predicate TallyOk(state: map<JobId, JobState>, todo: set<JobId>, v: RunState) {
    && (forall j :: j in state && j !in todo ==> state[j].Terminal())
    && (v.RunFailed? || v.RunCancelled? || v.RunSucceeded?)
    && (v.RunFailed? <==> exists j :: j in state && j !in todo && state[j].Failed?)
    && (v.RunSucceeded? <==> forall j :: j in state && j !in todo ==> !state[j].Failed? && !state[j].Cancelled?)
  }

  lemma TallyIsVerdict(state: map<JobId, JobState>, jobs: seq<Job>, r: RunId, v: RunState)
    requires Mirrors(state, jobs, r) && TallyOk(state, {}, v)
    ensures AllTerminal(jobs, r) && v == Verdict(jobs, r)
  {}

  class Scheduler {
    const st: Store
    const cfg: Config
    const leaseGraceUntil: Time

    constructor (st: Store, cfg: Config)
      ensures this.st == st && this.cfg == WithDefaultConfig(cfg) && leaseGraceUntil == st.clock + this.cfg.ttl
    {
      this.st := st;
      var c := cfg;
      if c.ttl == 0 { c := c.(ttl := DEFAULT_LEASE_TTL); }
      if c.logCap == 0 { c := c.(logCap := DEFAULT_LOG_CAP); }
      if c.maxAttempts == 0 { c := c.(maxAttempts := DEFAULT_MAX_ATTEMPTS); }
      if c.timeoutGrace == 0 { c := c.(timeoutGrace := DEFAULT_TIMEOUT_GRACE); }
      this.cfg := c;
      leaseGraceUntil := st.clock + c.ttl;
    }

    /** Between transactions: the store satisfies its invariant and time has started. */
    ghost predicate Ready()
      reads st
    {
      Inv(st.View()) && st.clock != NEVER && cfg.maxAttempts > 0
    }

    /** Hand the runner the oldest queued job whose labels it satisfies. */
    method Claim(runner: RunnerId, labels: Labels) returns (reply: Reply)
      requires Ready()
      modifies st`jobs, st`runs, st`events
      ensures (st.View(), reply) == ClaimTx(old(st.View()), st.clock, cfg.ttl, runner, labels)
    {
      if runner == NO_RUNNER { return Invalid; }
      ghost var db := st.View();
      var queued := Select(ListQueued, st.jobs, |st.jobs|);
      for i := 0 to |queued|
        invariant st.View() == db && FirstFit(db.jobs, queued, labels) == FirstFit(db.jobs, queued[i..], labels)
      {
        if LabelsSubset(st.jobs[queued[i]].labels, labels) {
          assert Candidate(db, labels) == Some(queued[i]);
          var ok;
          ok, reply := Grant(queued[i], runner);
          if ok { return; }
        }
      }
      reply := NothingToDo;
    }

    /** The guarded claim of one candidate, with its run's start and both events. */
    method Grant(j: JobId, runner: RunnerId) returns (ok: bool, reply: Reply)
      requires Ready() && runner != NO_RUNNER && j < |st.jobs| && st.jobs[j].state.Queued?
      modifies st`jobs, st`runs, st`events
      ensures ok && reply == Granted(j, old(st.jobs)[j].attempt + 1)
      ensures var db := old(st.View());
        && !RunOf(db, j).Terminal() && db.jobs[j].run < |db.runs|
        && Enabled(MarkStarted(db, st.clock, db.jobs[j].run), Ops.Claim(j, runner, st.clock + cfg.ttl))
        && st.View() ==
           Do(MarkStarted(db, st.clock, db.jobs[j].run), st.clock, Ops.Claim(j, runner, st.clock + cfg.ttl))
    {
      QueuedRunOpen(st.View(), st.clock, j, runner, st.clock + cfg.ttl);
      var r := st.jobs[j].run;
      var attempt;
      attempt, ok := st.ClaimJob(j, runner, st.clock + cfg.ttl);
      var started := st.SetRunState(r, RunPending, RunRunning);
      if started { st.AppendEvent(RunStarted(r)); }
      st.AppendEvent(JobClaimed(r, j, runner, attempt));
      reply := Granted(j, attempt);
    }

    /** Extend the lease of every listed attempt the runner still holds and say what to do with each. */
    method Heartbeat(runner: RunnerId, refs: seq<JobRef>) returns (reply: Reply)
      requires Ready()
      modifies st`jobs
      ensures (st.View(), reply) == HeartbeatTx(old(st.View()), st.clock, cfg.ttl, runner, refs)
    {
      if runner == NO_RUNNER { return Invalid; }
      ghost var db := st.View();
      var out: seq<Directive> := [];
      for i := 0 to |refs|
        invariant (st.View(), out) == Beat(db, st.clock, cfg.ttl, runner, refs[..i])
      {
        assert refs[..i + 1][..i] == refs[..i];
        var ok := st.ExtendLease(refs[i].job, refs[i].attempt, runner, st.clock + cfg.ttl);
        var d := Abort;
        if ok { d := if st.jobs[refs[i].job].cancelAt != NEVER then CancelIt else Continue; }
        out := out + [d];
      }
      assert refs[..|refs|] == refs;
      reply := Directives(out);
    }

    /** `advance` looks at one job. */
    method Decide(r: RunId, i: JobId, state0: map<JobId, JobState>) returns (state: map<JobId, JobState>, changed: bool)
      requires st.View().WellFormed() && i < |st.jobs| && Mirrors(state0, st.jobs, r)
      modifies st`jobs, st`events
      ensures st.View() == Visit(old(st.View()), st.clock, r, i) && changed == (st.View() != old(st.View()))
      ensures Mirrors(state, st.jobs, r)
    {
      state, changed := state0, false;
      if st.jobs[i].run == r && state[i].Pending? {
        var blocked, waiting := NeedFlags(r, i, state);
        if blocked || !waiting {
          var next := if blocked then Skipped else Queued;
          MirrorsNext(state, st.jobs, r, i, next);
          var ok, supported := st.TransitionPendingJob(i, next);
          assert ok && supported; // neither "left pending under us" nor an unsupported target can happen
          state := state[i := next];
          changed := true;
          st.AppendEvent(if blocked then JobSkipped(r, i) else JobQueued(r, i));
        }
      }
    }

    /** Whether a need of the pending job is dead, and whether one is still open. */
    method NeedFlags(r: RunId, i: JobId, state: map<JobId, JobState>) returns (blocked: bool, waiting: bool)
      requires st.View().WellFormed() && i < |st.jobs| && st.jobs[i].run == r && st.jobs[i].state.Pending?
        && Mirrors(state, st.jobs, r)
      ensures VisitIs(st.View(), st.clock, r, i, blocked, waiting)
    {
      NeedsMirrored(st.View(), state, r, i);
      blocked, waiting := Flags(state, st.deps[i]);
      FlagsDecide(st.View(), state, r, i, blocked, waiting);
    }

    /** One sweep of `advance` over the jobs; `changed` says whether it decided any. */
    method Sweep(r: RunId, state0: map<JobId, JobState>) returns (state: map<JobId, JobState>, changed: bool)
      requires st.View().WellFormed() && Mirrors(state0, st.jobs, r)
      modifies st`jobs, st`events
      ensures st.View() == Pass(old(st.View()), st.clock, r, 0) && changed == (st.View() != old(st.View()))
      ensures Mirrors(state, st.jobs, r)
    {
      ghost var db := st.View();
      state, changed := state0, false;
      for i := 0 to |st.jobs|
        invariant |st.jobs| == |db.jobs| && Sweeping(db, st.View(), st.clock, r, i, changed)
        invariant Mirrors(state, st.jobs, r)
      {
        SweepNext(db, st.View(), st.clock, r, i, changed);
        var moved;
        state, moved := Decide(r, i, state);
        if moved { changed := true; }
      }
    }

    /** Sweeps until one changes nothing. */
    method SettleRun(r: RunId) returns (state: map<JobId, JobState>)
      requires st.View().WellFormed()
      modifies st`jobs, st`events
      ensures st.View() == Settle(old(st.View()), st.clock, r) && Mirrors(state, st.jobs, r)
    {
      ghost var db := st.View();
      state := map j: JobId | 0 <= j < |st.jobs| && st.jobs[j].run == r :: st.jobs[j].state;
      var changed := true;
      while changed
        invariant st.View().WellFormed() && Mirrors(state, st.jobs, r)
        invariant Settle(st.View(), st.clock, r) == Settle(db, st.clock, r)
        invariant !changed ==> st.View() == Settle(db, st.clock, r)
        decreases PendingIds(st.jobs), changed
      {
        PassShrinks(st.View(), st.clock, r, 0);
        state, changed := Sweep(r, state);
      }
    }

    /** Decide pending jobs to a fixpoint, then finish the run if no job of it can still change. */
    method Advance(r: RunId)
      requires st.View().WellFormed() && r < |st.runs|
      modifies st`jobs, st`runs, st`events
      ensures st.View() == Transactions.Advance(old(st.View()), st.clock, r)
    {
      ghost var db := st.View();
      var state := SettleRun(r);
      var final := Tally(state, st.jobs, r);
      if final.Some? { FinishRun(r, final.value); }
      assert st.View() == Conclude(Settle(db, st.clock, r), st.clock, r);
    }

    /** Record the verdict of a run none of whose jobs can still change, unless it has one. */
    method FinishRun(r: RunId, verdict: RunState)
      requires r < |st.runs| && AllTerminal(st.jobs, r) && verdict == Verdict(st.jobs, r)
      modifies st`runs, st`events
      ensures st.View() == Conclude(old(st.View()), st.clock, r)
    {
      var run := st.runs[r];
      if run.state.RunPending? || run.state.RunRunning? {
        var ok := st.SetRunState(r, run.state, verdict);
        st.AppendEvent(RunFinished(r, verdict));
      }
    }

    /** Record an attempt's result, advance its run's jobs and finish the run, all or nothing. */
    method Complete(j: JobId, n: int, res: Result) returns (reply: Reply)
      requires Ready()
      modifies st`jobs, st`runs, st`events
      ensures (st.View(), reply) == CompleteTx(old(st.View()), st.clock, j, n, res)
    {
      if !ValidResult(res) { return Invalid; }
      if j >= |st.jobs| { return NotFound; }
      var job := st.jobs[j];
      if !job.state.Running? || job.attempt != n {
        if job.attempt == n && job.state.Terminal() { return Accepted; }
        return Fenced;
      }
      WellFormedDo(st.View(), st.clock, Settlement(job, j, res));
      Record(j, n, job, res);
      Advance(job.run);
      reply := Accepted;
    }

    /** The switch of `Complete`: one guarded update of the live attempt and its event. */
    method Record(j: JobId, n: int, job: Job, res: Result)
      requires j < |st.jobs| && job == st.jobs[j] && job.Live(n) && ValidResult(res)
      modifies st`jobs, st`events
      ensures st.View() == Do(old(st.View()), st.clock, Settlement(job, j, res))
    {
      var ok;
      if res.status.StatusSucceeded? {
        ok := st.FinishJob(j, n, Succeeded, NoFailure, res.exitCode);
        st.AppendEvent(JobSucceeded(job.run, j, job.attempt));
      } else if res.kind.CancelKind? {
        if job.reason.ByTimeout? {
          ok := st.FinishJob(j, n, Failed, TimedOut, res.exitCode);
          st.AppendEvent(JobFailed(job.run, j, job.attempt, TimedOut));
        } else {
          ok := st.FinishJob(j, n, Cancelled, CancelKind, res.exitCode);
          st.AppendEvent(JobCancelled(job.run, j, job.attempt));
        }
      } else if Retryable(res.kind) && n < job.maxAttempts && job.cancelAt == NEVER {
        ok := st.RequeueJob(j, n);
        st.AppendEvent(JobRequeued(job.run, j, job.attempt, res.kind));
      } else {
        ok := st.FinishJob(j, n, Failed, res.kind, res.exitCode);
        st.AppendEvent(JobFailed(job.run, j, job.attempt, res.kind));
      }
      assert ok; // the discarded row count is always one
    }

    /** Cancel a run: unstarted jobs end at once, running ones get a request. */
    method CancelRun(r: RunId) returns (reply: Reply)
      requires Ready()
      modifies st`jobs, st`runs, st`events
      ensures (st.View(), reply) == CancelTx(old(st.View()), st.clock, r)
    {
      ghost var db := st.View();
      if r >= |st.runs| { return NotFound; }
      if st.runs[r].state.Terminal() { return RunOver; }
      var asked := AlreadyAsked(r);
      if asked { return Accepted; }
      CancelAll(r);
      CancelJobsWindsDown(db, st.clock, r, |db.jobs|);
      WellFormedDo(st.View(), st.clock, AskRunCancel(r));
      st.AppendEvent(RunCancelAsked(r));
      Advance(r);
      reply := Accepted;
    }

    method AlreadyAsked(r: RunId) returns (asked: bool)
      ensures asked == CancelRequested(st.View(), r)
    {
      asked := false;
      for i := 0 to |st.events|
        invariant asked <==> exists k :: 0 <= k < i && st.events[k] == RunCancelAsked(r)
      {
        if st.events[i] == RunCancelAsked(r) { asked := true; }
      }
    }

    method CancelAll(r: RunId)
      requires st.View().WellFormed()
      modifies st`jobs, st`events
      ensures st.View() == CancelJobs(old(st.View()), st.clock, r, |old(st.jobs)|)
    {
      ghost var db := st.View();
      for i := 0 to |st.jobs|
        invariant |st.jobs| == |db.jobs| && st.View() == CancelJobs(db, st.clock, r, i)
      {
        CancelEach(r, i);
      }
    }

    method CancelEach(r: RunId, i: JobId)
      requires st.View().WellFormed() && i < |st.jobs|
      modifies st`jobs, st`events
      ensures st.View() == CancelOne(old(st.View()), st.clock, r, i)
    {
      var job := st.jobs[i];
      if job.run == r {
        match job.state
        case Pending => var ok := st.CancelJob(i); if ok { st.AppendEvent(JobCancelled(r, i, job.attempt)); }
        case Queued => var ok := st.CancelJob(i); if ok { st.AppendEvent(JobCancelled(r, i, job.attempt)); }
        case Running =>
          var ok := st.RequestJobCancel(i, ByUser);
          if ok { st.AppendEvent(JobCancelAsked(r, i, job.attempt, job.runner, ByUser)); }
        case _ =>
      }
    }

    /** One pass of the lease monitor, and exactly what it requeued, failed and asked to cancel. */
    method Tick() returns (requeued: seq<JobId>, failed: seq<JobId>, timedOut: seq<JobId>)
      requires Ready()
      modifies st`jobs, st`runs, st`events
      ensures st.View() == TickTx(old(st.View()), st.clock, leaseGraceUntil, cfg.timeoutGrace)
      ensures TickReport(old(st.View()), st.View(), requeued, failed, timedOut)
    {
      ghost var db := st.View();
      requeued, failed := ExpireLeases();
      timedOut := Backstop();
      TickReportOk(db, st.clock, leaseGraceUntil, cfg.timeoutGrace, requeued, failed, timedOut);
    }

    method ExpireLeases() returns (requeued: seq<JobId>, failed: seq<JobId>)
      requires st.View().WellFormed() && st.clock != NEVER
      modifies st`jobs, st`runs, st`events
      ensures var db := old(st.View()); var ids := Lost(db, st.clock, leaseGraceUntil);
        st.View() == ExpireAll(db, st.clock, ids) && Reported(db, ids, requeued, failed)
    {
      ghost var db := st.View();
      var snapshot := st.jobs;
      var ids := if st.clock >= leaseGraceUntil then Select(ListExpired(st.clock), st.jobs, |st.jobs|) else [];
      ExpiryListOk(db, st.clock, ids, leaseGraceUntil);
      requeued, failed := [], [];
      ExpiredStart(db, st.clock, ids);
      for i := 0 to |ids|
        invariant ExpiredUpto(db, st.clock, ids, i, st.View(), requeued, failed)
      {
        var j := ids[i];
        ghost var d := st.View();
        ExpireNext(db, st.clock, ids, i);
        var again := ExpireJob(j, snapshot[j]);
        ExpiredNext(db, st.clock, ids, i, d, requeued, failed);
        var one: seq<JobId> := [j];
        if again { requeued := requeued + one; } else { failed := failed + one; }
      }
      assert ids[..|ids|] == ids;
    }

    /** One expired lease, from the row the listing returned. */
    method ExpireJob(j: JobId, job: Job) returns (again: bool)
      requires st.View().WellFormed() && j < |st.jobs| && st.jobs[j] == job && Selects(ListExpired(st.clock), job)
      modifies st`jobs, st`runs, st`events
      ensures st.View() == ExpireOne(old(st.View()), st.clock, j) && again == MayRetry(job, LostRunner)
    {
      var ok;
      again := Retryable(LostRunner) && job.attempt < job.maxAttempts && job.cancelAt == NEVER;
      if again {
        ok := st.RequeueJob(j, job.attempt);
        st.AppendEvent(JobRequeued(job.run, j, job.attempt, LostRunner));
      } else {
        WellFormedDo(st.View(), st.clock, Finish(j, Failed, LostRunner, None));
        ok := st.FinishJob(j, job.attempt, Failed, LostRunner, None);
        st.AppendEvent(JobFailed(job.run, j, job.attempt, LostRunner));
        Advance(job.run);
      }
      assert ok; // the discarded row count is always one
    }

    /** The timeout backstop over every running job with no cancel pending. */
    method Backstop() returns (timedOut: seq<JobId>)
      requires st.View().WellFormed() && st.clock != NEVER
      modifies st`jobs, st`events
      ensures var db := old(st.View());
        && st.View() == BackstopAll(db, st.clock, cfg.timeoutGrace, Select(ListUncancelled, db.jobs, |db.jobs|))
        && BackstopReported(db, st.clock, cfg.timeoutGrace, Select(ListUncancelled, db.jobs, |db.jobs|), timedOut)
    {
      ghost var db := st.View();
      var ids := Select(ListUncancelled, st.jobs, |st.jobs|);
      var snapshot := st.jobs;
      BackstopListOk(db);
      timedOut := [];
      for i := 0 to |ids|
        invariant BackstopUpto(db, st.clock, cfg.timeoutGrace, ids, i, st.View(), timedOut)
      {
        var j := ids[i];
        ghost var d := st.View();
        BackstopNext(db, st.clock, cfg.timeoutGrace, ids, i);
        var asked := BackstopJob(j, snapshot[j]);
        BackstoppedNext(db, st.clock, cfg.timeoutGrace, ids, i, d, timedOut);
        var one: seq<JobId> := [j];
        if asked { timedOut := timedOut + one; }
      }
      assert ids[..|ids|] == ids;
    }

    /** One running job, from the row the listing returned. */
    method BackstopJob(j: JobId, job: Job) returns (asked: bool)
      requires st.View().WellFormed() && st.clock != NEVER && j < |st.jobs| && st.jobs[j] == job
        && Selects(ListUncancelled, job)
      modifies st`jobs, st`events
      ensures st.View() == BackstopOne(old(st.View()), st.clock, cfg.timeoutGrace, j)
        && asked == Overdue(job, st.clock, cfg.timeoutGrace)
    {
      asked := false;
      if !(job.timeout <= 0 || job.startedAt == NEVER || job.startedAt + job.timeout + cfg.timeoutGrace >= st.clock) {
        asked := st.RequestJobCancel(j, ByTimeout);
        if asked { st.AppendEvent(JobCancelAsked(job.run, j, job.attempt, job.runner, ByTimeout)); }
      }
    }

    /** Store a batch for the live attempt under the cap, recording the first loss of output. */
    method AppendLogs(j: JobId, n: int, chunks: seq<Chunk>) returns (reply: Reply)
      requires Ready()
      modifies st`logs, st`events
      ensures (st.View(), reply) == AppendLogsTx(old(st.View()), st.clock, cfg.logCap, j, n, chunks)
    {
      if !ValidChunks(chunks) { return Invalid; }
      if j >= |st.jobs| { return NotFound; }
      if !st.jobs[j].state.Running? || st.jobs[j].attempt != n { return Fenced; }
      var lost := InsertAll(AttemptKey(j, n), chunks);
      if lost && !HasTruncation(st.events, j, n) { st.AppendEvent(LogsTruncated(st.jobs[j].run, j, n)); }
      reply := Accepted;
    }

    method InsertAll(k: AttemptKey, chunks: seq<Chunk>) returns (lost: bool)
      modifies st`logs
      ensures var rows := Absorb(old(st.View().Log(k)), cfg.logCap, chunks);
        st.logs == if rows == old(st.View().Log(k)) then old(st.logs) else old(st.logs)[k := rows]
      ensures lost == Loses(old(st.View().Log(k)), cfg.logCap, chunks)
    {
      ghost var rows0, logs0 := st.View().Log(k), st.logs;
      var total := |Concat(if k in st.logs then st.logs[k] else [])|;
      lost := false;
      for i := 0 to |chunks|
        invariant TableIs(logs0, st.logs, k, rows0, Absorb(rows0, cfg.logCap, chunks[..i]))
        invariant total == |Concat(Absorb(rows0, cfg.logCap, chunks[..i]))|
        invariant lost == Loses(rows0, cfg.logCap, chunks[..i])
      {
        ghost var rows := Absorb(rows0, cfg.logCap, chunks[..i]);
        AbsorbNext(rows0, cfg.logCap, chunks, i);
        StoredNext(logs0, st.logs, k, rows0, rows, Put(rows, cfg.logCap, chunks[i]));
        var cut;
        total, cut := InsertOne(k, chunks[i], total);
        if cut { lost := true; }
      }
      assert chunks[..|chunks|] == chunks;
    }

    /** One chunk: cut to the room left, inserted or ignored, and counted. */
    method InsertOne(k: AttemptKey, c: Chunk, total: nat) returns (total': nat, cut: bool)
      requires total == |Concat(st.View().Log(k))|
      modifies st`logs
      ensures var rows := old(st.View().Log(k)); var rows' := Put(rows, cfg.logCap, c);
        && st.logs == (if rows' == rows then old(st.logs) else old(st.logs)[k := rows'])
        && total' == |Concat(rows')| && cut == PutLoses(rows, cfg.logCap, c)
    {
      ghost var rows := st.View().Log(k);
      var data := c.data;
      var room := cfg.logCap - total;
      if |data| > room {
        if room < 0 { room := 0; }
        data := data[..room];
      }
      PutParts(rows, cfg.logCap, c, data);
      var inserted := st.InsertLogChunk(k, c.no, data);
      total', cut := total, false;
      if inserted { total', cut := total + |data|, |data| < |c.data|; }
    }
  }

  lemma PutParts(rows: seq<Chunk>, cap: nat, c: Chunk, data: Bytes)
    requires data == Clip(c.data, cap - |Concat(rows)|)
    ensures Has(rows, c.no) ==> Put(rows, cap, c) == rows && !PutLoses(rows, cap, c)
    ensures !Has(rows, c.no) ==>
      && Put(rows, cap, c) == rows + [Chunk(c.no, data)]
      && |Concat(Put(rows, cap, c))| == |Concat(rows)| + |data|
      && (PutLoses(rows, cap, c) <==> |data| < |c.data|)
  {
    assert (rows + [Chunk(c.no, data)])[..|rows|] == rows;
  }

  lemma AbsorbNext(rows0: seq<Chunk>, cap: nat, chunks: seq<Chunk>, i: nat)
    requires i < |chunks|
    ensures var rows := Absorb(rows0, cap, chunks[..i]);
      && Absorb(rows0, cap, chunks[..i + 1]) == Put(rows, cap, chunks[i]) && rows <= Put(rows, cap, chunks[i])
      && Loses(rows0, cap, chunks[..i + 1]) == (Loses(rows0, cap, chunks[..i]) || PutLoses(rows, cap, chunks[i]))
  {
    assert chunks[..i + 1][..i] == chunks[..i];
  }

  /** The log table holds `rows` for `k` and is otherwise as it was. */
  ghost predicate TableIs(
      logs0: map<AttemptKey, seq<Chunk>>, logs: map<AttemptKey, seq<Chunk>>, k: AttemptKey, rows0: seq<Chunk>,
      rows: seq<Chunk>)
  {
    && rows0 == (if k in logs0 then logs0[k] else [])
    && rows0 <= rows
    && logs == if rows == rows0 then logs0 else logs0[k := rows]
  }

  lemma StoredNext(
      logs0: map<AttemptKey, seq<Chunk>>, logs: map<AttemptKey, seq<Chunk>>, k: AttemptKey, rows0: seq<Chunk>,
      rows: seq<Chunk>, rows': seq<Chunk>)
    requires TableIs(logs0, logs, k, rows0, rows) && rows <= rows'
    ensures (if k in logs then logs[k] else []) == rows
    ensures TableIs(logs0, if rows' == rows then logs else logs[k := rows'], k, rows0, rows')
  {}

  // The monitor's report.

  /** Distinct jobs, each with an expired lease. */
  ghost predicate ExpiryList(db: Db, now: Time, ids: seq<JobId>) {
    && Within(ids, |db.jobs|)
    && (forall k :: 0 <= k < |ids| ==> Selects(ListExpired(now), db.jobs[ids[k]]))
    && (forall a, b :: 0 <= a < b < |ids| ==> ids[a] != ids[b])
  }

  lemma ExpiryListOk(db: Db, now: Time, ids: seq<JobId>, graceUntil: Time)
    requires ids == Lost(db, now, graceUntil)
    ensures ExpiryList(db, now, ids)
  {
    SelectOrdered(ListExpired(now), db.jobs, |db.jobs|);
    SelectMembers(ListExpired(now), db.jobs, |db.jobs|);
    forall k | 0 <= k < |ids| ensures Selects(ListExpired(now), db.jobs[ids[k]]) { assert ids[k] in ids; }
    forall a, b | 0 <= a < b < |ids| ensures ids[a] != ids[b] {
      assert Before(ListExpired(now), db.jobs, ids[a], ids[b]);
    }
  }

  /** The row of the next expired job is still the one the listing returned. */
  lemma ExpireNext(db: Db, now: Time, ids: seq<JobId>, i: nat)
    requires db.WellFormed() && ExpiryList(db, now, ids) && i < |ids|
    ensures Within(ids[..i], |db.jobs|) && ids[..i + 1] == ids[..i] + [ids[i]]
    ensures ExpireAll(db, now, ids[..i]).jobs[ids[i]] == db.jobs[ids[i]]
    ensures ExpireAll(db, now, ids[..i + 1]) == ExpireOne(ExpireAll(db, now, ids[..i]), now, ids[i])
  {
    ExpireAllRow(db, now, ids[..i], ids[i]);
    assert ids[..i + 1][..i] == ids[..i];
  }

  ghost predicate Reported(db: Db, ids: seq<JobId>, requeued: seq<JobId>, failed: seq<JobId>)
    requires Within(ids, |db.jobs|)
  {
    && (forall j: JobId :: j in requeued <==> j in ids && j < |db.jobs| && MayRetry(db.jobs[j], LostRunner))
    && (forall j: JobId :: j in failed <==> j in ids && j < |db.jobs| && !MayRetry(db.jobs[j], LostRunner))
  }

  /** The first `i` expired leases have been dealt with. */
  ghost predicate ExpiredUpto(
      db: Db, now: Time, ids: seq<JobId>, i: nat, d: Db, requeued: seq<JobId>, failed: seq<JobId>)
    requires db.WellFormed() && Within(ids, |db.jobs|) && i <= |ids|
  {
    d == ExpireAll(db, now, ids[..i]) && Reported(db, ids[..i], requeued, failed)
  }

  lemma ExpiredStart(db: Db, now: Time, ids: seq<JobId>)
    requires db.WellFormed() && Within(ids, |db.jobs|)
    ensures ExpiredUpto(db, now, ids, 0, db, [], [])
  {
    assert ids[..0] == [];
  }

  lemma ReportedNext(db: Db, ids: seq<JobId>, j: JobId, requeued: seq<JobId>, failed: seq<JobId>)
    requires Within(ids, |db.jobs|) && j < |db.jobs| && Reported(db, ids, requeued, failed)
    ensures if MayRetry(db.jobs[j], LostRunner) then Reported(db, ids + [j], requeued + [j], failed)
      else Reported(db, ids + [j], requeued, failed + [j])
  {}

  lemma ExpiredNext(db: Db, now: Time, ids: seq<JobId>, i: nat, d: Db, requeued: seq<JobId>, failed: seq<JobId>)
    requires db.WellFormed() && ExpiryList(db, now, ids) && i < |ids|
      && ExpiredUpto(db, now, ids, i, d, requeued, failed)
    ensures ids[i] < |d.jobs| && d.WellFormed()
    ensures var again, d' := MayRetry(db.jobs[ids[i]], LostRunner), ExpireOne(d, now, ids[i]);
      ExpiredUpto(db, now, ids, i + 1, d',
                  if again then requeued + [ids[i]] else requeued,
                  if again then failed else failed + [ids[i]])
  {
    ExpireNext(db, now, ids, i);
    ReportedNext(db, ids[..i], ids[i], requeued, failed);
  }

  ghost predicate BackstopList(db: Db, ids: seq<JobId>) {
    && Within(ids, |db.jobs|)
    && (forall k :: 0 <= k < |ids| ==> Selects(ListUncancelled, db.jobs[ids[k]]))
    && (forall a, b :: 0 <= a < b < |ids| ==> ids[a] != ids[b])
  }

  lemma BackstopListOk(db: Db)
    ensures BackstopList(db, Select(ListUncancelled, db.jobs, |db.jobs|))
  {
    var ids := Select(ListUncancelled, db.jobs, |db.jobs|);
    SelectOrdered(ListUncancelled, db.jobs, |db.jobs|);
    SelectMembers(ListUncancelled, db.jobs, |db.jobs|);
    forall k | 0 <= k < |ids| ensures Selects(ListUncancelled, db.jobs[ids[k]]) { assert ids[k] in ids; }
    forall a, b | 0 <= a < b < |ids| ensures ids[a] != ids[b] {
      assert Before(ListUncancelled, db.jobs, ids[a], ids[b]);
    }
  }

  lemma BackstopNext(db: Db, now: Time, grace: Time, ids: seq<JobId>, i: nat)
    requires db.WellFormed() && BackstopList(db, ids) && i < |ids| && now != NEVER
    ensures Within(ids[..i], |db.jobs|) && ids[..i + 1] == ids[..i] + [ids[i]] && ids[i] !in ids[..i]
    ensures BackstopAll(db, now, grace, ids[..i]).jobs[ids[i]] == db.jobs[ids[i]]
    ensures BackstopAll(db, now, grace, ids[..i + 1]) ==
      BackstopOne(BackstopAll(db, now, grace, ids[..i]), now, grace, ids[i])
  {
    BackstopAllRow(db, now, grace, ids[..i], ids[i]);
    assert ids[..i + 1][..i] == ids[..i];
  }

  ghost predicate BackstopReported(db: Db, now: Time, grace: Time, ids: seq<JobId>, timedOut: seq<JobId>) {
    forall j: JobId :: j in timedOut <==> j in ids && j < |db.jobs| && Overdue(db.jobs[j], now, grace)
  }

  ghost predicate BackstopUpto(db: Db, now: Time, grace: Time, ids: seq<JobId>, i: nat, d: Db, timedOut: seq<JobId>)
    requires db.WellFormed() && Within(ids, |db.jobs|) && i <= |ids|
  {
    d == BackstopAll(db, now, grace, ids[..i]) && BackstopReported(db, now, grace, ids[..i], timedOut)
  }

  lemma BackstopReportedNext(db: Db, now: Time, grace: Time, ids: seq<JobId>, j: JobId, timedOut: seq<JobId>)
    requires j < |db.jobs| && BackstopReported(db, now, grace, ids, timedOut)
    ensures BackstopReported(db, now, grace, ids + [j],
                             if Overdue(db.jobs[j], now, grace) then timedOut + [j] else timedOut)
  {}

  lemma BackstoppedNext(db: Db, now: Time, grace: Time, ids: seq<JobId>, i: nat, d: Db, timedOut: seq<JobId>)
    requires db.WellFormed() && BackstopList(db, ids) && i < |ids| && now != NEVER
      && BackstopUpto(db, now, grace, ids, i, d, timedOut)
    ensures ids[i] < |d.jobs| && d.WellFormed()
    ensures var asked := Overdue(db.jobs[ids[i]], now, grace);
      BackstopUpto(db, now, grace, ids, i + 1, BackstopOne(d, now, grace, ids[i]),
                   if asked then timedOut + [ids[i]] else timedOut)
  {
    BackstopNext(db, now, grace, ids, i);
    BackstopReportedNext(db, now, grace, ids[..i], ids[i], timedOut);
  }

  /** The report against the rows before and after the tick. */
  ghost predicate TickReport(db: Db, db': Db, requeued: seq<JobId>, failed: seq<JobId>, timedOut: seq<JobId>) {
    && |db'.jobs| == |db.jobs|
    && (forall j: JobId :: j in requeued <==> j < |db.jobs| && db.jobs[j].state.Running? && db'.jobs[j].state.Queued?)
    && (forall j: JobId :: j in failed <==> j < |db.jobs| && db.jobs[j].state.Running? && db'.jobs[j].state.Failed?)
    && (forall j: JobId :: j in timedOut <==>
          j < |db.jobs| && db'.jobs[j].state.Running? && db.jobs[j].cancelAt == NEVER && db'.jobs[j].cancelAt != NEVER)
  }

  lemma TickReportOk(
      db: Db, now: Time, graceUntil: Time, grace: Time, requeued: seq<JobId>, failed: seq<JobId>, timedOut: seq<JobId>)
    requires db.WellFormed() && now != NEVER
    requires var ids := Lost(db, now, graceUntil); var d := ExpireAll(db, now, ids);
      Reported(db, ids, requeued, failed)
        && BackstopReported(d, now, grace, Select(ListUncancelled, d.jobs, |d.jobs|), timedOut)
    ensures TickReport(db, TickTx(db, now, graceUntil, grace), requeued, failed, timedOut)
  {
    var ids := Lost(db, now, graceUntil);
    var d := ExpireAll(db, now, ids);
    SelectMembers(ListExpired(now), db.jobs, |db.jobs|);
    SelectMembers(ListUncancelled, d.jobs, |d.jobs|);
    forall j: JobId | j < |db.jobs|
      ensures var row := TickTx(db, now, graceUntil, grace).jobs[j];
        && (j in requeued <==> db.jobs[j].state.Running? && row.state.Queued?)
        && (j in failed <==> db.jobs[j].state.Running? && row.state.Failed?)
        && (j in timedOut <==> row.state.Running? && db.jobs[j].cancelAt == NEVER && row.cancelAt != NEVER)
    {
      TickRow(db, now, graceUntil, grace, j);
      ExpireAllRow(db, now, ids, j);
    }
  }

  // The sweep's invariant.

  /** The sweep has visited the jobs below `i`. */
  ghost predicate Sweeping(db: Db, cur: Db, now: Time, r: RunId, i: nat, changed: bool)
    requires db.WellFormed()
  {
    && cur.WellFormed() && i <= |cur.jobs|
    && Pass(cur, now, r, i) == Pass(db, now, r, 0)
    && |db.events| <= |cur.events|
    && (changed <==> |cur.events| > |db.events|)
    && (!changed ==> cur == db)
  }

  lemma SweepNext(db: Db, cur: Db, now: Time, r: RunId, i: nat, changed: bool)
    requires db.WellFormed() && Sweeping(db, cur, now, r, i, changed) && i < |cur.jobs|
    ensures var d := Visit(cur, now, r, i);
      Sweeping(db, d, now, r, i + 1, changed || d != cur) && (d != cur ==> |d.events| == |cur.events| + 1)
  {}

  /** What a visit does, by what the flags say of the job's needs. */
  ghost predicate VisitIs(db: Db, now: Time, r: RunId, i: JobId, blocked: bool, waiting: bool)
    requires db.WellFormed() && i < |db.jobs|
  {
    Visit(db, now, r, i) ==
    if blocked then PutJob(db, i, MadeSkipped(db.jobs[i], now), JobSkipped(r, i))
    else if waiting then db
    else PutJob(db, i, MadeReady(db.jobs[i], now), JobQueued(r, i))
  }

  lemma MirrorsNext(state: map<JobId, JobState>, jobs: seq<Job>, r: RunId, i: JobId, next: JobState)
    requires Mirrors(state, jobs, r) && i < |jobs| && jobs[i].run == r
    ensures forall row: Job :: row.run == r && row.state == next ==> Mirrors(state[i := next], jobs[i := row], r)
  {}

  lemma NeedsMirrored(db: Db, state: map<JobId, JobState>, r: RunId, i: JobId)
    requires db.WellFormed() && i < |db.jobs| && db.jobs[i].run == r && Mirrors(state, db.jobs, r)
    ensures forall k ::
      0 <= k < |db.deps[i]| ==> db.deps[i][k] in state && state[db.deps[i][k]] == db.jobs[db.deps[i][k]].state
  {}

  lemma FlagsDecide(db: Db, state: map<JobId, JobState>, r: RunId, i: JobId, blocked: bool, waiting: bool)
    requires db.WellFormed() && i < |db.jobs| && db.jobs[i].run == r && Mirrors(state, db.jobs, r)
    requires forall k ::
      0 <= k < |db.deps[i]| ==> db.deps[i][k] in state && state[db.deps[i][k]] == db.jobs[db.deps[i][k]].state
    requires blocked <==> exists k :: 0 <= k < |db.deps[i]| && state[db.deps[i][k]].Dead()
    requires waiting <==> exists k ::
      0 <= k < |db.deps[i]| && !state[db.deps[i][k]].Dead() && !state[db.deps[i][k]].Succeeded?
    ensures blocked <==> AnyDead(db.jobs, db.deps[i])
    ensures !blocked && !waiting <==> AllSucceeded(db.jobs, db.deps[i]) && !AnyDead(db.jobs, db.deps[i])
  {
    if blocked {
      var k :| 0 <= k < |db.deps[i]| && state[db.deps[i][k]].Dead();
      assert db.jobs[db.deps[i][k]].state.Dead();
    }
    if !blocked && !waiting {
      forall k | 0 <= k < |db.deps[i]| ensures db.jobs[db.deps[i][k]].state.Succeeded? {
        assert state[db.deps[i][k]].Succeeded?;
      }
    }
  }
}
