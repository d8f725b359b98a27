/** The event log as an audit trail: replaying it reproduces the store, and it accounts for every claim. */
module Audit {
  import opened Model
  import opened Ops
  import opened Invariants
  import opened System

  /** What the events say of a job. */
  datatype JobEntry = JobEntry(run: RunId, state: JobState, attempt: nat, runner: RunnerId, failure: FailureKind,
    reason: CancelReason)

  datatype Ledger = Ledger(runs: seq<RunState>, jobs: seq<JobEntry>)

  function Opening(run: RunId, count: nat, roots: set<nat>): (s: seq<JobEntry>)
    ensures |s| == count
    ensures forall i ::
      0 <= i < count ==>
      s[i] == JobEntry(run, if i in roots then Queued else Pending, 0, NO_RUNNER, NoFailure, NoReason)
  {
    seq(count, i => JobEntry(run, if i in roots then Queued else Pending, 0, NO_RUNNER, NoFailure, NoReason))
  }

  function Amend(l: Ledger, j: JobId, e: JobEntry): Ledger {
    if j < |l.jobs| then l.(jobs := l.jobs[j := e]) else l
  }

  function Entry(l: Ledger, j: JobId): JobEntry {
    if j < |l.jobs| then l.jobs[j] else JobEntry(0, Pending, 0, NO_RUNNER, NoFailure, NoReason)
  }

  /** One event, applied to the ledger. */
  function Post(l: Ledger, e: Event): Ledger {
    match e
    case RunCreated(r, count, roots) => Ledger(l.runs + [RunPending], l.jobs + Opening(r, count, roots))
    case RunStarted(r) => if r < |l.runs| then l.(runs := l.runs[r := RunRunning]) else l
    case RunCancelAsked(_) => l
    case RunFinished(r, verdict) => if r < |l.runs| then l.(runs := l.runs[r := verdict]) else l
    case JobQueued(_, j) => Amend(l, j, Entry(l, j).(state := Queued))
    case JobSkipped(_, j) => Amend(l, j, Entry(l, j).(state := Skipped))
    case JobClaimed(_, j, runner, attempt) => Amend(l, j,
      Entry(l, j).(state := Running, runner := runner, attempt := attempt))
    case JobRequeued(_, j, attempt, _) => Amend(l, j,
      Entry(l, j).(state := Queued, runner := NO_RUNNER, attempt := attempt))
    case JobSucceeded(_, j, attempt) => Amend(l, j, Entry(l, j).(state := Succeeded, attempt := attempt))
    case JobFailed(_, j, attempt, kind) => Amend(l, j,
      Entry(l, j).(state := Failed, attempt := attempt, failure := kind))
    case JobCancelled(_, j, attempt) => Amend(l, j,
      Entry(l, j).(state := Cancelled, attempt := attempt, failure := CancelKind))
    case JobCancelAsked(_, j, attempt, runner, reason) =>
      Amend(l, j, Entry(l, j).(attempt := attempt, runner := runner, reason := reason))
    case LogsTruncated(_, _, _) => l
  }

  function Replay(events: seq<Event>): Ledger {
    if events == [] then Ledger([], []) else Post(Replay(events[..|events| - 1]), events[|events| - 1])
  }

  function EntryOf(j: Job): JobEntry { JobEntry(j.run, j.state, j.attempt, j.runner, j.failure, j.reason) }

  /** The ledger and the store agree on every run and job. */
  ghost predicate Agrees(l: Ledger, db: Db) {
    && |l.runs| == |db.runs| && (forall r :: 0 <= r < |db.runs| ==> l.runs[r] == db.runs[r].state)
    && |l.jobs| == |db.jobs| && (forall j :: 0 <= j < |db.jobs| ==> l.jobs[j] == EntryOf(db.jobs[j]))
  }

  lemma ReplayLast(events: seq<Event>, e: Event)
    ensures Replay(events + [e]) == Post(Replay(events), e)
  {
    assert (events + [e])[..|events|] == events;
  }

  lemma PutJobAgrees(db: Db, j: JobId, row: Job, e: Event, l: Ledger)
    requires Agrees(l, db) && j < |db.jobs| && Post(l, e) == Amend(l, j, EntryOf(row))
    ensures Agrees(Post(l, e), PutJob(db, j, row, e))
  {}

  lemma RunAgrees(db: Db, now: Time, op: Op, l: Ledger)
    requires Enabled(db, op) && Agrees(l, db) && (op.StartRun? || op.AskRunCancel? || op.FinishRun?)
    ensures var db' := Do(db, now, op); |db'.events| == |db.events| + 1 && Agrees(Post(l, db'.events[|db.events|]), db')
  {}

  /** A change to a job and its event say the same thing. */
  lemma JobAgrees(db: Db, now: Time, op: Op, l: Ledger)
    requires Enabled(db, op) && Agrees(l, db) && Target(op).Some? && !op.Renew? && !op.AppendLog?
      && JobOk(db.jobs[op.j])
    ensures var db' := Do(db, now, op); |db'.events| == |db.events| + 1 && Agrees(Post(l, db'.events[|db.events|]), db')
  {
    var db' := Do(db, now, op);
    PutJobAgrees(db, op.j, db'.jobs[op.j], db'.events[|db.events|], l);
  }

  lemma PostAgrees(db: Db, now: Time, op: Op, l: Ledger)
    requires Inv(db) && Enabled(db, op) && Agrees(l, db)
    ensures var db' := Do(db, now, op);
      if db'.events == db.events then Agrees(l, db')
      else |db'.events| == |db.events| + 1 && Agrees(Post(l, db'.events[|db.events|]), db')
  {
    if op.Create? {
      CreateAgrees(db, now, op, l);
    } else if op.StartRun? || op.AskRunCancel? || op.FinishRun? {
      RunAgrees(db, now, op, l);
    } else if !op.Renew? && !op.AppendLog? {
      assert JobOk(db.jobs[op.j]);
      JobAgrees(db, now, op, l);
    }
  }

  lemma CreateAgrees(db: Db, now: Time, op: Op, l: Ledger)
    requires Enabled(db, op) && op.Create? && Agrees(l, db)
    ensures Agrees(Post(l, RunCreated(|db.runs|, |op.items|, RootsOf(op.items))), Do(db, now, op))
  {}

  lemma AgreesDo(db: Db, now: Time, op: Op)
    requires Inv(db) && Enabled(db, op) && Agrees(Replay(db.events), db)
    ensures Agrees(Replay(Do(db, now, op).events), Do(db, now, op))
  {
    var db' := Do(db, now, op);
    PostAgrees(db, now, op, Replay(db.events));
    EventRunOpen(db, now, op);
    if db'.events != db.events {
      assert db'.events == db.events + [db'.events[|db.events|]];
      ReplayLast(db.events, db'.events[|db.events|]);
    }
  }

  // Claims and requeues.

  /** The attempts named by the job's `job.claimed` events, in order. */
  function Claims(events: seq<Event>, j: JobId): seq<nat> {
    if events == [] then []
    else
      var e := events[|events| - 1];
      Claims(events[..|events| - 1], j) + if e.JobClaimed? && e.job == j then [e.attempt] else []
  }

  function Requeues(events: seq<Event>, j: JobId): nat {
    if events == [] then 0
    else
      var e := events[|events| - 1];
      Requeues(events[..|events| - 1], j) + if e.JobRequeued? && e.job == j then 1 else 0
  }

  /**
   Claims carry exactly the attempts 1..attempt; each but the last ended in a requeue, and the last one too
   unless it ran on.
   */
  ghost predicate Accounted(db: Db, j: JobId)
    requires j < |db.jobs|
  {
    && |Claims(db.events, j)| == db.jobs[j].attempt
    && (forall i :: 0 <= i < db.jobs[j].attempt ==> Claims(db.events, j)[i] == i + 1)
    && |Claims(db.events, j)| == Requeues(db.events, j) + if db.jobs[j].startedAt != NEVER then 1 else 0
  }

  lemma CountsLast(events: seq<Event>, e: Event, j: JobId)
    ensures Claims(events + [e], j) == Claims(events, j) + if e.JobClaimed? && e.job == j then [e.attempt] else []
    ensures Requeues(events + [e], j) == Requeues(events, j) + if e.JobRequeued? && e.job == j then 1 else 0
  {
    assert (events + [e])[..|events|] == events;
  }

  /** No event names a job before it exists. */
  ghost predicate NamesOnlyRows(db: Db) {
    forall j :: j >= |db.jobs| ==> Claims(db.events, j) == [] && Requeues(db.events, j) == 0
  }

  ghost predicate AllAccounted(db: Db) {
    NamesOnlyRows(db) && forall j :: 0 <= j < |db.jobs| ==> Accounted(db, j)
  }

  predicate Counts(e: Event, j: JobId) { (e.JobClaimed? || e.JobRequeued?) && e.job == j }

  /** What an elementary change records of one job: its next claim, the requeue of the claim it holds, or neither. */
  lemma AccountRow(db: Db, now: Time, op: Op, j: JobId)
    requires Inv(db) && Enabled(db, op) && now != NEVER && j < |db.jobs|
    ensures var db' := Do(db, now, op); var o, n := db.jobs[j], db'.jobs[j];
      if op.Claim? && op.j == j then
        db'.events == db.events + [JobClaimed(o.run, j, op.runner, n.attempt)] && n.attempt == o.attempt + 1
          && o.startedAt == NEVER && n.startedAt != NEVER
      else if op.Requeue? && op.j == j then
        db'.events == db.events + [JobRequeued(o.run, j, o.attempt, op.kind)] && n.attempt == o.attempt
          && o.startedAt != NEVER && n.startedAt == NEVER
      else
        && n.attempt == o.attempt && (n.startedAt == NEVER <==> o.startedAt == NEVER)
        && (db'.events == db.events
              || (|db'.events| == |db.events| + 1 && db'.events == db.events + [db'.events[|db.events|]]
                    && !Counts(db'.events[|db.events|], j)))
  {
    assert JobOk(db.jobs[j]);
    EventRunOpen(db, now, op);
  }

  lemma AccountStep(db: Db, now: Time, op: Op, j: JobId)
    requires Inv(db) && Enabled(db, op) && now != NEVER && j < |db.jobs| && Accounted(db, j)
    ensures Accounted(Do(db, now, op), j)
  {
    var db' := Do(db, now, op);
    AccountRow(db, now, op, j);
    if db'.events != db.events { CountsLast(db.events, db'.events[|db.events|], j); }
  }

  /** No change records a claim or a requeue of a row that does not exist yet. */
  lemma FreshAccount(db: Db, now: Time, op: Op, j: JobId)
    requires Inv(db) && Enabled(db, op) && j >= |db.jobs| && Claims(db.events, j) == [] && Requeues(db.events, j) == 0
    ensures var db' := Do(db, now, op); Claims(db'.events, j) == [] && Requeues(db'.events, j) == 0
  {
    var db' := Do(db, now, op);
    EventRunOpen(db, now, op);
    if db'.events != db.events {
      var e := db'.events[|db.events|];
      assert db'.events == db.events + [e];
      CountsLast(db.events, e, j);
    }
  }

  lemma FreshRow(db: Db, now: Time, op: Op, j: JobId)
    requires Enabled(db, op) && |db.jobs| <= j < |Do(db, now, op).jobs|
    ensures Do(db, now, op).jobs[j].attempt == 0 && Do(db, now, op).jobs[j].startedAt == NEVER
  {}

  lemma AccountedDo(db: Db, now: Time, op: Op)
    requires Inv(db) && Enabled(db, op) && now != NEVER && AllAccounted(db)
    ensures AllAccounted(Do(db, now, op))
  {
    var db' := Do(db, now, op);
    RowsFollow(db, now, op);
    forall j | 0 <= j < |db'.jobs| ensures Accounted(db', j) {
      if j < |db.jobs| {
        AccountStep(db, now, op, j);
      } else {
        FreshAccount(db, now, op, j);
        FreshRow(db, now, op, j);
      }
    }
    forall j | j >= |db'.jobs| ensures Claims(db'.events, j) == [] && Requeues(db'.events, j) == 0 {
      FreshAccount(db, now, op, j);
    }
  }

  // Over whole runs.

  ghost predicate Audited(db: Db) { Agrees(Replay(db.events), db) && AllAccounted(db) }

  lemma {:induction false} AuditedDoAll(db: Db, now: Time, ops: seq<Op>)
    requires Inv(db) && now != NEVER && EnabledAll(db, now, ops) && Audited(db)
    ensures Audited(DoAll(db, now, ops))
    decreases |ops|
  {
    if ops != [] {
      InvDo(db, now, ops[0]);
      AgreesDo(db, now, ops[0]);
      AccountedDo(db, now, ops[0]);
      AuditedDoAll(Do(db, now, ops[0]), now, ops[1..]);
    }
  }

  lemma {:induction false} ExecAudited(w: World, steps: seq<Step>)
    requires Ok(w) && Audited(w.db)
    ensures Audited(Exec(w, steps).db)
    decreases |steps|
  {
    if steps != [] {
      StepOk(w, steps[0]);
      StepFollows(w, steps[0]);
      var w1 := Apply(w, steps[0]).0;
      var ops :| EnabledAll(w.db, w.now, ops) && DoAll(w.db, w.now, ops) == w1.db;
      AuditedDoAll(w.db, w.now, ops);
      ExecAudited(w1, steps[1..]);
    }
  }

  lemma ReachableAudited(w: World)
    requires Reachable(w)
    ensures Ok(w) && Audited(w.db)
  {
    var w0, steps :| Initial(w0) && Ok(w0) && Exec(w0, steps) == w;
    ExecAudited(w0, steps);
  }

  /**
   The audit trail: in every reachable state, replaying the events reproduces every run's state and every
   job's state, attempt, runner, failure kind and cancel reason; `run.finished` occurs at most once per
   run and nothing of the run is recorded after it.
   */
  lemma ReplayReproducesStore(w: World)
    requires Reachable(w)
    ensures var l := Replay(w.db.events);
      && |l.runs| == |w.db.runs| && (forall r :: 0 <= r < |w.db.runs| ==> l.runs[r] == w.db.runs[r].state)
      && |l.jobs| == |w.db.jobs| && (forall j :: 0 <= j < |w.db.jobs| ==> l.jobs[j] == EntryOf(w.db.jobs[j]))
    ensures FinishedIsLast(w.db.events)
  {
    ReachableAudited(w);
  }

  /**
   Claim conservation: in every reachable state a job's `job.claimed` events carry exactly the attempts
   1..attempt in order, and there is one more claim than requeues iff the job is running or ended from running.
   */
  lemma ClaimsAreConserved(w: World, j: JobId)
    requires Reachable(w) && w.db.HasJob(j)
    ensures var row := w.db.jobs[j]; var claims := Claims(w.db.events, j);
      && |claims| == row.attempt <= row.maxAttempts && (forall i :: 0 <= i < |claims| ==> claims[i] == i + 1)
      && |claims| == Requeues(w.db.events, j) + if row.startedAt != NEVER then 1 else 0
    ensures var row := w.db.jobs[j];
      && (row.state.Pending? || row.state.Queued? || row.state.Skipped? ==> row.startedAt == NEVER)
      && (row.state.Running? || row.state.Succeeded? || row.state.Failed? ==> row.startedAt != NEVER)
  {
    ReachableAudited(w);
    assert Accounted(w.db, j) && JobOk(w.db.jobs[j]);
  }

  // What an event names.

  /** The job an event is about. */
  function JobOf(e: Event): Option<JobId> {
    if e.RunCreated? || e.RunStarted? || e.RunCancelAsked? || e.RunFinished? then None else Some(e.job)
  }

  /** An event of a job names the job's own run; only runner failures are given another attempt. */
  ghost predicate EventTrue(jobs: seq<Job>, e: Event) {
    && (JobOf(e).Some? ==> e.job < |jobs| && e.run == jobs[e.job].run)
    && (e.JobRequeued? ==> e.kind.Infra? || e.kind.LostRunner?)
  }

  ghost predicate EventsTrue(db: Db) { forall i :: 0 <= i < |db.events| ==> EventTrue(db.jobs, db.events[i]) }

  lemma NewEventTrue(db: Db, now: Time, op: Op)
    requires Enabled(db, op)
    ensures var d := Do(db, now, op);
      d.events == db.events
        || (d.events == db.events + [d.events[|db.events|]] && EventTrue(d.jobs, d.events[|db.events|]))
  {}

  lemma RowsStay(db: Db, now: Time, op: Op, j: JobId)
    requires Enabled(db, op) && j < |db.jobs|
    ensures j < |Do(db, now, op).jobs| && Do(db, now, op).jobs[j].run == db.jobs[j].run
  {}

  lemma TrueDo(db: Db, now: Time, op: Op)
    requires Enabled(db, op) && EventsTrue(db)
    ensures EventsTrue(Do(db, now, op))
  {
    var d := Do(db, now, op);
    NewEventTrue(db, now, op);
    forall i | 0 <= i < |db.events| ensures EventTrue(d.jobs, db.events[i]) {
      assert EventTrue(db.jobs, db.events[i]);
      if JobOf(db.events[i]).Some? { RowsStay(db, now, op, db.events[i].job); }
    }
  }

  lemma {:induction false} TrueDoAll(db: Db, now: Time, ops: seq<Op>)
    requires Inv(db) && now != NEVER && EnabledAll(db, now, ops) && EventsTrue(db)
    ensures EventsTrue(DoAll(db, now, ops))
    decreases |ops|
  {
    if ops != [] {
      InvDo(db, now, ops[0]);
      TrueDo(db, now, ops[0]);
      TrueDoAll(Do(db, now, ops[0]), now, ops[1..]);
    }
  }

  lemma {:induction false} ExecTrue(w: World, steps: seq<Step>)
    requires Ok(w) && EventsTrue(w.db)
    ensures EventsTrue(Exec(w, steps).db)
    decreases |steps|
  {
    if steps != [] {
      StepFollows(w, steps[0]);
      var ops :| EnabledAll(w.db, w.now, ops) && DoAll(w.db, w.now, ops) == Apply(w, steps[0]).0.db;
      TrueDoAll(w.db, w.now, ops);
      StepOk(w, steps[0]);
      ExecTrue(Apply(w, steps[0]).0, steps[1..]);
    }
  }

  /** In every reachable state every event of a job names the run the job belongs to. */
  lemma EventsNameTheirRun(w: World)
    requires Reachable(w)
    ensures EventsTrue(w.db)
  {
    var w0, steps :| Initial(w0) && Ok(w0) && Exec(w0, steps) == w;
    ExecTrue(w0, steps);
  }
}
