/**
 The control plane as a transition system: the store, the clock and the scheduler built at the last boot.
 One step is one transaction, a clock advance or a restart.
 */
module System {
  import opened Model
  import opened Ops
  import opened Invariants
  import opened Transactions
  import opened Pipelines

  datatype Config = Config(ttl: Time, logCap: nat, maxAttempts: nat, timeoutGrace: Time)

  const DEFAULT_LEASE_TTL: Time := 30_000
  const DEFAULT_LOG_CAP: nat := 10 * 1024 * 1024
  const DEFAULT_MAX_ATTEMPTS: nat := 3
  const DEFAULT_TIMEOUT_GRACE: Time := 30_000

  /** Zero values take the defaults. */
  function WithDefaultConfig(c: Config): Config {
    Config(if c.ttl == 0 then DEFAULT_LEASE_TTL else c.ttl,
           if c.logCap == 0 then DEFAULT_LOG_CAP else c.logCap,
           if c.maxAttempts == 0 then DEFAULT_MAX_ATTEMPTS else c.maxAttempts,
           if c.timeoutGrace == 0 then DEFAULT_TIMEOUT_GRACE else c.timeoutGrace)
  }

  /** `graceUntil` is the boot's lease grace: no lease expires before it. */
  datatype World = World(db: Db, now: Time, cfg: Config, graceUntil: Time)

  datatype Step =
    | Submit(spec: Spec)
    | Poll(runner: RunnerId, labels: Labels)
    | Heartbeat(runner: RunnerId, refs: seq<JobRef>)
    | Complete(job: JobId, attempt: int, res: Result)
    | CancelRun(run: RunId)
    | Tick
    | AppendLogs(job: JobId, attempt: int, chunks: seq<Chunk>)
    | Wait(ms: Time)
    | Restart(config: Config)

  ghost predicate Ok(w: World) { Inv(w.db) && w.now != NEVER && w.cfg.maxAttempts > 0 }

  /** A new scheduler over the same store: nothing is recovered from memory. */
  function Boot(db: Db, now: Time, cfg: Config): World {
    var c := WithDefaultConfig(cfg);
    World(db, now, c, now + c.ttl)
  }

  /** The step's effect and reply. */
  ghost function Apply(w: World, s: Step): (World, Reply)
    requires Ok(w)
  {
    match s
    case Wait(ms) => (w.(now := w.now + ms), NothingToDo)
    case Restart(cfg) => (Boot(w.db, w.now, cfg), NothingToDo)
    case _ => var (db, reply) := Transact(w, s); (w.(db := db), reply)
  }

  /** The transaction a request runs. */
  ghost function Transact(w: World, s: Step): (Db, Reply)
    requires Ok(w)
  {
    match s
    case Submit(spec) => SubmitTx(w.db, w.now, w.cfg.maxAttempts, spec)
    case Poll(runner, labels) => ClaimTx(w.db, w.now, w.cfg.ttl, runner, labels)
    case Heartbeat(runner, refs) => HeartbeatTx(w.db, w.now, w.cfg.ttl, runner, refs)
    case Complete(j, n, res) => CompleteTx(w.db, w.now, j, n, res)
    case CancelRun(r) => CancelTx(w.db, w.now, r)
    case Tick => (TickTx(w.db, w.now, w.graceUntil, w.cfg.timeoutGrace), NothingToDo)
    case AppendLogs(j, n, chunks) => AppendLogsTx(w.db, w.now, w.cfg.logCap, j, n, chunks)
    case _ => (w.db, NothingToDo)
  }

  // Every transaction is a sequence of elementary changes.

  lemma VisitLeads(db: Db, now: Time, r: RunId, i: JobId)
    requires db.WellFormed() && i < |db.jobs|
    ensures Leads(db, now, Visit(db, now, r, i))
  {
    LeadsNowhere(db, now);
    if Enabled(db, Skip(i)) { LeadsByOne(db, now, Skip(i)); }
    if Enabled(db, Release(i)) { LeadsByOne(db, now, Release(i)); }
  }

  lemma {:induction false} PassLeads(db: Db, now: Time, r: RunId, i: nat)
    requires db.WellFormed() && i <= |db.jobs|
    ensures Leads(db, now, Pass(db, now, r, i))
    decreases |db.jobs| - i
  {
    if i == |db.jobs| {
      LeadsNowhere(db, now);
    } else {
      var d := Visit(db, now, r, i);
      VisitLeads(db, now, r, i);
      PassLeads(d, now, r, i + 1);
      LeadsOn(db, now, d, Pass(d, now, r, i + 1));
    }
  }

  lemma {:induction false} SettleLeads(db: Db, now: Time, r: RunId)
    requires db.WellFormed()
    ensures Leads(db, now, Settle(db, now, r))
    decreases PendingIds(db.jobs)
  {
    PassShrinks(db, now, r, 0);
    PassLeads(db, now, r, 0);
    var d := Pass(db, now, r, 0);
    if d != db {
      SettleLeads(d, now, r);
      LeadsOn(db, now, d, Settle(d, now, r));
    }
  }

  lemma AdvanceLeads(db: Db, now: Time, r: RunId)
    requires db.WellFormed() && r < |db.runs|
    ensures Leads(db, now, Advance(db, now, r))
  {
    SettleLeads(db, now, r);
    var d := Settle(db, now, r);
    if Enabled(d, FinishRun(r)) { LeadsOnByOne(db, now, d, FinishRun(r)); }
  }

  lemma ResolvedLeads(db: Db, now: Time, op: Op)
    requires db.WellFormed() && Enabled(db, op) && (op.Finish? || op.Requeue?)
    ensures Leads(db, now, Resolved(db, now, op))
  {
    LeadsByOne(db, now, op);
    WellFormedDo(db, now, op);
    AdvanceLeads(Do(db, now, op), now, db.jobs[op.j].run);
    LeadsOn(db, now, Do(db, now, op), Resolved(db, now, op));
  }

  lemma ClaimLeads(db: Db, now: Time, ttl: Time, runner: RunnerId, labels: Labels)
    requires Inv(db) && now != NEVER
    ensures Leads(db, now, ClaimTx(db, now, ttl, runner, labels).0)
  {
    LeadsNowhere(db, now);
    var c := Candidate(db, labels);
    if runner != NO_RUNNER && c.Some? {
      var r := db.jobs[c.value].run;
      QueuedRunOpen(db, now, c.value, runner, now + ttl);
      var d := MarkStarted(db, now, r);
      if db.runs[r].state.RunPending? { LeadsByOne(db, now, StartRun(r)); }
      LeadsOnByOne(db, now, d, Claim(c.value, runner, now + ttl));
    }
  }

  lemma {:induction false} BeatLeads(db: Db, now: Time, ttl: Time, runner: RunnerId, refs: seq<JobRef>)
    requires now != NEVER
    ensures Leads(db, now, Beat(db, now, ttl, runner, refs).0)
  {
    if refs == [] {
      LeadsNowhere(db, now);
    } else {
      var ref := refs[|refs| - 1];
      BeatLeads(db, now, ttl, runner, refs[..|refs| - 1]);
      var d := Beat(db, now, ttl, runner, refs[..|refs| - 1]).0;
      if Holds(d, runner, ref) { LeadsOnByOne(db, now, d, Renew(ref.job, now + ttl)); }
    }
  }

  lemma CancelOneLeads(db: Db, now: Time, r: RunId, i: JobId)
    requires db.WellFormed() && i < |db.jobs|
    ensures Leads(db, now, CancelOne(db, now, r, i))
  {
    LeadsNowhere(db, now);
    if Enabled(db, CancelEarly(i)) { LeadsByOne(db, now, CancelEarly(i)); }
    if Enabled(db, AskCancel(i, ByUser)) { LeadsByOne(db, now, AskCancel(i, ByUser)); }
  }

  lemma LeadsOnToCancel(db: Db, now: Time, d: Db, r: RunId, i: JobId)
    requires Leads(db, now, d) && d.WellFormed() && i < |d.jobs|
    ensures Leads(db, now, CancelOne(d, now, r, i))
  {
    CancelOneLeads(d, now, r, i);
    LeadsOn(db, now, d, CancelOne(d, now, r, i));
  }

  lemma {:induction false} CancelJobsLeadTo(db: Db, now: Time, r: RunId, n: nat, d: Db)
    requires db.WellFormed() && n <= |db.jobs| && d == CancelJobs(db, now, r, n)
    ensures Leads(db, now, d)
  {
    if n == 0 {
      LeadsNowhere(db, now);
    } else {
      var front := CancelJobs(db, now, r, n - 1);
      CancelJobsLeadTo(db, now, r, n - 1, front);
      LeadsOnToCancel(db, now, front, r, n - 1);
    }
  }

  lemma CancelJobsLeads(db: Db, now: Time, r: RunId, n: nat)
    requires db.WellFormed() && n <= |db.jobs|
    ensures Leads(db, now, CancelJobs(db, now, r, n))
  {
    CancelJobsLeadTo(db, now, r, n, CancelJobs(db, now, r, n));
  }

  lemma CancelLeads(db: Db, now: Time, r: RunId)
    requires db.WellFormed() && now != NEVER
    ensures Leads(db, now, CancelTx(db, now, r).0)
  {
    LeadsNowhere(db, now);
    if r < |db.runs| && !db.runs[r].state.Terminal() && !CancelRequested(db, r) {
      var d := CancelJobs(db, now, r, |db.jobs|);
      CancelJobsLeads(db, now, r, |db.jobs|);
      CancelJobsWindsDown(db, now, r, |db.jobs|);
      LeadsOnByOne(db, now, d, AskRunCancel(r));
      var d' := Do(d, now, AskRunCancel(r));
      AdvanceLeads(d', now, r);
      LeadsOn(db, now, d', Advance(d', now, r));
    }
  }

  lemma {:induction false} ExpireLeads(db: Db, now: Time, ids: seq<JobId>)
    requires db.WellFormed() && Within(ids, |db.jobs|)
    ensures Leads(db, now, ExpireAll(db, now, ids))
  {
    if ids == [] {
      LeadsNowhere(db, now);
    } else {
      ExpireLeads(db, now, ids[..|ids| - 1]);
      var d, i := ExpireAll(db, now, ids[..|ids| - 1]), ids[|ids| - 1];
      if Selects(ListExpired(now), d.jobs[i]) {
        if MayRetry(d.jobs[i], LostRunner) {
          LeadsOnByOne(db, now, d, Requeue(i, LostRunner));
        } else {
          ResolvedLeads(d, now, Finish(i, Failed, LostRunner, None));
          LeadsOn(db, now, d, ExpireOne(d, now, i));
        }
      }
    }
  }

  lemma {:induction false} BackstopLeads(db: Db, now: Time, grace: Time, ids: seq<JobId>)
    requires db.WellFormed() && Within(ids, |db.jobs|)
    ensures Leads(db, now, BackstopAll(db, now, grace, ids))
  {
    if ids == [] {
      LeadsNowhere(db, now);
    } else {
      BackstopLeads(db, now, grace, ids[..|ids| - 1]);
      var d, i := BackstopAll(db, now, grace, ids[..|ids| - 1]), ids[|ids| - 1];
      if Selects(ListUncancelled, d.jobs[i]) { LeadsOnByOne(db, now, d, AskCancel(i, ByTimeout)); }
    }
  }

  lemma TickLeads(db: Db, now: Time, graceUntil: Time, grace: Time)
    requires db.WellFormed()
    ensures Leads(db, now, TickTx(db, now, graceUntil, grace))
  {
    var ids := Lost(db, now, graceUntil);
    ExpireLeads(db, now, ids);
    var d := ExpireAll(db, now, ids);
    BackstopLeads(d, now, grace, Select(ListUncancelled, d.jobs, |d.jobs|));
    LeadsOn(db, now, d, TickTx(db, now, graceUntil, grace));
  }

  lemma StepLeads(w: World, s: Step)
    requires Ok(w) && !s.AppendLogs?
    ensures Leads(w.db, w.now, Apply(w, s).0.db)
  {
    LeadsNowhere(w.db, w.now);
    match s
    case Submit(spec) =>
      if Accepts(spec) {
        AcceptedIsEnabled(w.db, spec, w.cfg.maxAttempts);
        LeadsByOne(w.db, w.now, Create(ItemsOf(spec), w.cfg.maxAttempts));
      }
    case Poll(runner, labels) => ClaimLeads(w.db, w.now, w.cfg.ttl, runner, labels);
    case Heartbeat(runner, refs) => BeatLeads(w.db, w.now, w.cfg.ttl, runner, refs);
    case Complete(j, n, res) =>
      if ValidResult(res) && w.db.Live(j, n) { ResolvedLeads(w.db, w.now, Settlement(w.db.jobs[j], j, res)); }
    case CancelRun(r) => CancelLeads(w.db, w.now, r);
    case Tick => TickLeads(w.db, w.now, w.graceUntil, w.cfg.timeoutGrace);
    case Wait(_) =>
    case Restart(_) =>
  }

  /** Every step changes the store by a sequence of elementary changes, each enabled when it is made. */
  lemma StepFollows(w: World, s: Step)
    requires Ok(w)
    ensures Follows(w.db, w.now, Apply(w, s).0.db)
  {
    if s.AppendLogs? && Apply(w, s).1.Accepted? {
      FollowsByOne(w.db, w.now, AppendLog(s.job, w.cfg.logCap, s.chunks));
    } else if s.AppendLogs? {
      LeadsNowhere(w.db, w.now);
      LeadsFollows(w.db, w.now, w.db);
    } else {
      StepLeads(w, s);
      LeadsFollows(w.db, w.now, Apply(w, s).0.db);
    }
  }

  lemma StepOk(w: World, s: Step)
    requires Ok(w)
    ensures Ok(Apply(w, s).0)
  {
    StepFollows(w, s);
    InvFollows(w.db, w.now, Apply(w, s).0.db);
  }

  // Whole runs of the system.

  ghost predicate Initial(w: World) {
    w.db == Db([], [], [], [], map[]) && w.now != NEVER && exists cfg :: w == Boot(w.db, w.now, cfg)
  }

  lemma InitialOk(w: World)
    requires Initial(w)
    ensures Ok(w)
  {}

  /** The world after `steps`, in order. */
  ghost function Exec(w: World, steps: seq<Step>): (w': World)
    requires Ok(w)
    ensures Ok(w')
    decreases |steps|
  {
    if steps == [] then w
    else
      StepOk(w, steps[0]);
      Exec(Apply(w, steps[0]).0, steps[1..])
  }

  ghost predicate Reachable(w: World) {
    exists w0, steps :: Initial(w0) && Ok(w0) && Exec(w0, steps) == w
  }

  lemma {:induction false} ExecSplit(w: World, a: seq<Step>, b: seq<Step>)
    requires Ok(w)
    ensures Exec(w, a + b) == Exec(Exec(w, a), b)
    decreases |a|
  {
    if a == [] {
      assert a + b == b;
    } else {
      StepOk(w, a[0]);
      assert (a + b)[0] == a[0] && (a + b)[1..] == a[1..] + b;
      ExecSplit(Apply(w, a[0]).0, a[1..], b);
    }
  }
}
