/** What every elementary change keeps true of the store. */
module Invariants {
  import opened Model
  import opened Ops
  import Graphs

  /** The transitions of one job row. */
  ghost predicate JobStep(o: Job, n: Job, now: Time) {
    || (o.state.Queued? && n == Claimed(o, n.runner, n.lease, now) && n.runner != NO_RUNNER && n.lease != NEVER)
    || (o.state.Running? && n == Renewed(o, n.lease) && n.lease != NEVER)
    || (o.state.Running? && n == Finished(o, n.state, n.failure, n.exitCode, now) && FinishKind(n.state, n.failure))
    || (o.state.Running? && o.attempt < o.maxAttempts && o.cancelAt == NEVER && n == Requeued(o, now))
    || (o.state.Pending? && (n == MadeReady(o, now) || n == MadeSkipped(o, now)))
    || ((o.state.Pending? || o.state.Queued?) && n == CancelledEarly(o, now))
    || (o.state.Running? && o.cancelAt == NEVER && n == CancelAsked(o, n.reason, now) && n.reason != NoReason)
  }

  /** The rows of `db'` are those of `db`, each unchanged or moved by one transition, and perhaps new ones. */
  ghost predicate RowsStep(db: Db, now: Time, db': Db) {
    && |db.jobs| <= |db'.jobs|
    && forall j :: 0 <= j < |db.jobs| ==> db'.jobs[j] == db.jobs[j] || JobStep(db.jobs[j], db'.jobs[j], now)
  }

  lemma RowsFollow(db: Db, now: Time, op: Op)
    requires Enabled(db, op)
    ensures RowsStep(db, now, Do(db, now, op))
    ensures !op.Create? ==> |Do(db, now, op).jobs| == |db.jobs| && Do(db, now, op).deps == db.deps
    ensures op.Create? ==> forall j :: 0 <= j < |db.jobs| ==> Do(db, now, op).jobs[j] == db.jobs[j]
  {}

  // One row.

  ghost predicate JobOk(j: Job) {
    && j.attempt <= j.maxAttempts && 1 <= j.maxAttempts
    && (j.cancelAt != NEVER <==> j.reason != NoReason)
    && (j.startedAt != NEVER ==> j.attempt > 0 && j.runner != NO_RUNNER)
    && (j.startedAt == NEVER ==> j.runner == NO_RUNNER && j.cancelAt == NEVER)
    && (j.lease != NEVER <==> j.state.Running?)
    && match j.state
       case Pending => j.attempt == 0 && j.startedAt == NEVER && j.failure == NoFailure
       case Queued => j.attempt < j.maxAttempts && j.startedAt == NEVER && j.failure == NoFailure
       case Running => j.startedAt != NEVER && j.failure == NoFailure
       case Succeeded => j.startedAt != NEVER && j.failure == NoFailure
       case Failed => j.startedAt != NEVER && FinishKind(Failed, j.failure)
       case Cancelled => j.failure == CancelKind
       case Skipped => j.attempt == 0 && j.startedAt == NEVER && j.failure == NoFailure
  }

  lemma JobStepKeepsOk(o: Job, n: Job, now: Time)
    requires JobOk(o) && JobStep(o, n, now) && now != NEVER
    ensures JobOk(n)
  {}

  // A row and its needs.

  /** A job past pending had every need succeed; a skipped one has a need that cannot. */
  ghost predicate NeedsOk(db: Db, j: JobId)
    requires db.WellFormed() && j < |db.jobs|
  {
    match db.jobs[j].state
    case Pending => true
    case Cancelled => true
    case Skipped => AnyDead(db.jobs, db.deps[j])
    case _ => AllSucceeded(db.jobs, db.deps[j])
  }

  // A run and its jobs.

  ghost predicate RunOk(db: Db, r: RunId)
    requires r < |db.runs|
  {
    match db.runs[r].state
    case RunPending => forall j :: 0 <= j < |db.jobs| && db.jobs[j].run == r ==> db.jobs[j].attempt == 0
    case RunRunning => true
    case _ => AllTerminal(db.jobs, r) && db.runs[r].state == Verdict(db.jobs, r)
  }

  // The event log.

  ghost predicate EventsOk(db: Db) {
    && (forall i :: 0 <= i < |db.events| ==> db.events[i].run < |db.runs|)
    && FinishesHold(db.events, db.runs)
    && (forall i :: 0 <= i < |db.events| && db.events[i].RunCancelAsked? ==> WoundDown(db.jobs, db.events[i].run))
    && FinishedIsLast(db.events)
  }

  /** A recorded verdict is the run's state. */
  ghost predicate FinishesHold(events: seq<Event>, runs: seq<Run>) {
    forall i :: 0 <= i < |events| && events[i].RunFinished? ==>
      && events[i].run < |runs|
      && runs[events[i].run].state == events[i].verdict && events[i].verdict.Terminal()
  }

  /** Nothing of a run is recorded after its `run.finished`, so there is at most one. */
  ghost predicate FinishedIsLast(events: seq<Event>) {
    forall i, k :: 0 <= i < k < |events| && events[i].RunFinished? ==> events[k].run != events[i].run
  }

  ghost predicate Inv(db: Db) {
    && db.WellFormed()
    && Graphs.Acyclic(db.deps)
    && (forall j :: 0 <= j < |db.jobs| ==> JobOk(db.jobs[j]))
    && (forall j :: 0 <= j < |db.jobs| ==> NeedsOk(db, j))
    && (forall r :: 0 <= r < |db.runs| ==> RunOk(db, r))
    && EventsOk(db)
  }

  // Preservation, clause by clause.

  lemma CreateWellFormed(db: Db, now: Time, op: Op)
    requires db.WellFormed() && Enabled(db, op) && op.Create?
    ensures Do(db, now, op).WellFormed()
  {
    var db' := Do(db, now, op);
    var g := NeedsOf(op.items);
    forall j | |db.jobs| <= j < |db'.jobs| ensures db'.deps[j] == Shift(g, |db.jobs|)[j - |db.jobs|] {}
    forall j | 0 <= j < |db.jobs| ensures db'.deps[j] == db.deps[j] && db'.jobs[j] == db.jobs[j] {}
  }

  lemma WellFormedDo(db: Db, now: Time, op: Op)
    requires db.WellFormed() && Enabled(db, op)
    ensures Do(db, now, op).WellFormed()
  {
    if op.Create? { CreateWellFormed(db, now, op); } else { RowsFollow(db, now, op); }
  }

  /** Placing one acyclic graph beside another keeps the whole acyclic. */
  lemma AcyclicBeside(g: Graphs.Graph, h: Graphs.Graph)
    requires Graphs.Valid(g) && Graphs.Acyclic(g) && Graphs.Valid(h) && Graphs.Acyclic(h)
    ensures Graphs.Acyclic(g + Shift(h, |g|))
  {
    var all := g + Shift(h, |g|);
    forall S: set<nat> | S != {} && (forall i :: i in S ==> i < |all|) ensures Graphs.HasMinimal(all, S) {
      var T := set s | s in S && s >= |g| :: s - |g|;
      if T != {} {
        assert Graphs.HasMinimal(h, T);
        var i :| i in T && i < |h| && forall k :: 0 <= k < |h[i]| ==> h[i][k] !in T;
        var x := i + |g|;
        var needs := all[x];
        assert needs == Shift(h, |g|)[i];
        forall k | 0 <= k < |needs| ensures needs[k] !in S {
          assert h[i][k] !in T;
          assert needs[k] - |g| == h[i][k];
        }
        assert x in S;
      } else {
        forall i | i in S ensures i < |g| { assert i < |g| || i - |g| in T; }
        assert Graphs.HasMinimal(g, S);
        var i :| i in S && i < |g| && forall k :: 0 <= k < |g[i]| ==> g[i][k] !in S;
        assert all[i] == g[i];
      }
    }
  }

  lemma AcyclicDo(db: Db, now: Time, op: Op)
    requires db.WellFormed() && Enabled(db, op) && Graphs.Acyclic(db.deps)
    ensures Graphs.Acyclic(Do(db, now, op).deps)
  {
    if op.Create? { AcyclicBeside(db.deps, NeedsOf(op.items)); } else { RowsFollow(db, now, op); }
  }

  lemma JobsOkDo(db: Db, now: Time, op: Op)
    requires Enabled(db, op) && now != NEVER && forall j :: 0 <= j < |db.jobs| ==> JobOk(db.jobs[j])
    ensures forall j :: 0 <= j < |Do(db, now, op).jobs| ==> JobOk(Do(db, now, op).jobs[j])
  {
    var db' := Do(db, now, op);
    RowsFollow(db, now, op);
    forall j | 0 <= j < |db'.jobs| ensures JobOk(db'.jobs[j]) {
      if j < |db.jobs| && db'.jobs[j] != db.jobs[j] { JobStepKeepsOk(db.jobs[j], db'.jobs[j], now); }
    }
  }

  /** Succeeded needs stay succeeded and dead ones dead. */
  lemma NeedsStick(jobs: seq<Job>, jobs': seq<Job>, needs: seq<JobId>)
    requires |jobs| <= |jobs'| && Within(needs, |jobs|)
    requires forall j :: 0 <= j < |jobs| && jobs[j].state.Terminal() ==> jobs'[j].state == jobs[j].state
    ensures AllSucceeded(jobs, needs) ==> AllSucceeded(jobs', needs)
    ensures AnyDead(jobs, needs) ==> AnyDead(jobs', needs)
  {
    if AnyDead(jobs, needs) {
      var k :| 0 <= k < |needs| && jobs[needs[k]].state.Dead();
      assert jobs'[needs[k]].state.Dead();
    }
  }

  lemma NeedsOkDo(db: Db, now: Time, op: Op)
    requires db.WellFormed() && Enabled(db, op) && Do(db, now, op).WellFormed()
    requires forall j :: 0 <= j < |db.jobs| ==> NeedsOk(db, j)
    ensures forall j :: 0 <= j < |Do(db, now, op).jobs| ==> NeedsOk(Do(db, now, op), j)
  {
    var db' := Do(db, now, op);
    RowsFollow(db, now, op);
    forall j | 0 <= j < |db'.jobs| ensures NeedsOk(db', j) {
      if j < |db.jobs| {
        assert db'.deps[j] == db.deps[j];
        NeedsStick(db.jobs, db'.jobs, db.deps[j]);
        if op.Create? { assert db'.jobs[j] == db.jobs[j] && NeedsOk(db, j); } else { NeedsOkAt(db, now, op, j); }
      } else {
        assert db'.deps[j] == Shift(NeedsOf(op.items), |db.jobs|)[j - |db.jobs|];
      }
    }
  }

  lemma NeedsOkAt(db: Db, now: Time, op: Op, j: JobId)
    requires db.WellFormed() && Enabled(db, op) && j < |db.jobs| && NeedsOk(db, j) && !op.Create?
    ensures var s := Do(db, now, op).jobs[j].state;
      && (s.Skipped? ==> AnyDead(db.jobs, db.deps[j]))
      && (!s.Pending? && !s.Cancelled? && !s.Skipped? ==> AllSucceeded(db.jobs, db.deps[j]))
  {}

  lemma VerdictSame(jobs: seq<Job>, jobs': seq<Job>, r: RunId)
    requires |jobs| <= |jobs'| && AllTerminal(jobs, r)
    requires forall j :: 0 <= j < |jobs| && jobs[j].run == r ==> jobs'[j] == jobs[j]
    requires forall j :: 0 <= j < |jobs| ==> jobs'[j].run == jobs[j].run
    requires forall j :: |jobs| <= j < |jobs'| ==> jobs'[j].run != r
    ensures AllTerminal(jobs', r) && Verdict(jobs', r) == Verdict(jobs, r)
  {
    forall j | 0 <= j < |jobs| && jobs[j].run == r ensures jobs'[j].run == r && jobs'[j].state == jobs[j].state {}
    if j :| 0 <= j < |jobs| && jobs[j].run == r && jobs[j].state.Failed? { assert jobs'[j].state.Failed?; }
    if j :| 0 <= j < |jobs| && jobs[j].run == r && jobs[j].state.Cancelled? { assert jobs'[j].state.Cancelled?; }
  }

  lemma RunsOkDo(db: Db, now: Time, op: Op)
    requires db.WellFormed() && Enabled(db, op) && forall r :: 0 <= r < |db.runs| ==> RunOk(db, r)
    ensures forall r :: 0 <= r < |Do(db, now, op).runs| ==> RunOk(Do(db, now, op), r)
  {
    var db' := Do(db, now, op);
    RowsFollow(db, now, op);
    forall r | 0 <= r < |db'.runs| ensures RunOk(db', r) {
      if r < |db.runs| && db'.runs[r].state == db.runs[r].state {
        assert RunOk(db, r);
        if db.runs[r].state.Terminal() { VerdictSame(db.jobs, db'.jobs, r); }
        else if db.runs[r].state.RunPending? { UnclaimedStays(db, now, op, r); }
      }
    }
  }

  lemma UnclaimedStays(db: Db, now: Time, op: Op, r: RunId)
    requires db.WellFormed() && Enabled(db, op) && r < |db.runs| && db.runs[r].state.RunPending? && RunOk(db, r)
    ensures forall j ::
      0 <= j < |Do(db, now, op).jobs| && Do(db, now, op).jobs[j].run == r ==> Do(db, now, op).jobs[j].attempt == 0
  {}

  lemma WoundDownStays(db: Db, now: Time, op: Op, r: RunId)
    requires db.WellFormed() && Enabled(db, op) && r < |db.runs| && WoundDown(db.jobs, r) && now != NEVER
    ensures WoundDown(Do(db, now, op).jobs, r)
  {
    RowsFollow(db, now, op);
  }

  /** The run an elementary change records an event for is not finished. */
  lemma EventRunOpen(db: Db, now: Time, op: Op)
    requires Inv(db) && Enabled(db, op)
    ensures var db' := Do(db, now, op);
      db'.events == db.events ||
      (|db'.events| == |db.events| + 1 && db.events <= db'.events &&
       db'.events[|db.events|].run < |db'.runs| &&
       (db'.events[|db.events|].run < |db.runs| ==> !db.runs[db'.events[|db.events|].run].state.Terminal()))
  {
    if Target(op).Some? { assert RunOk(db, db.jobs[op.j].run); }
  }

  /** What a change records: nothing, or one event of a run that was not over before it. */
  ghost predicate Records(db: Db, db': Db) {
    && |db.runs| <= |db'.runs| && db.events <= db'.events && |db'.events| <= |db.events| + 1
    && (forall r :: 0 <= r < |db.runs| && db.runs[r].state.Terminal() ==> db'.runs[r] == db.runs[r])
    && forall i :: |db.events| <= i < |db'.events| ==>
         && db'.events[i].run < |db'.runs|
         && (db'.events[i].run < |db.runs| ==> !db.runs[db'.events[i].run].state.Terminal())
  }

  lemma RecordsDo(db: Db, now: Time, op: Op)
    requires Inv(db) && Enabled(db, op)
    ensures Records(db, Do(db, now, op))
  {
    EventRunOpen(db, now, op);
    RunsFollow(db, now, op);
  }

  lemma FinishedStaysLast(db: Db, db': Db)
    requires EventsOk(db) && Records(db, db')
    ensures FinishedIsLast(db'.events)
  {
    forall i | 0 <= i < |db.events| ensures db'.events[i] == db.events[i] {}
  }

  lemma FinishesHoldDo(db: Db, now: Time, op: Op)
    requires EventsOk(db) && Enabled(db, op) && Records(db, Do(db, now, op))
    ensures FinishesHold(Do(db, now, op).events, Do(db, now, op).runs)
  {
    var db' := Do(db, now, op);
    forall i | 0 <= i < |db.events| ensures db'.events[i] == db.events[i] {}
  }

  lemma EventsOkDo(db: Db, now: Time, op: Op)
    requires Inv(db) && Enabled(db, op) && now != NEVER
    ensures EventsOk(Do(db, now, op))
  {
    var db' := Do(db, now, op);
    RecordsDo(db, now, op);
    FinishedStaysLast(db, db');
    FinishesHoldDo(db, now, op);
    forall i | 0 <= i < |db'.events| && db'.events[i].RunCancelAsked? ensures WoundDown(db'.jobs, db'.events[i].run) {
      if i < |db.events| { assert db'.events[i] == db.events[i]; WoundDownStays(db, now, op, db.events[i].run); }
    }
  }

  lemma RunsFollow(db: Db, now: Time, op: Op)
    requires Enabled(db, op)
    ensures |db.runs| <= |Do(db, now, op).runs|
    ensures forall r :: 0 <= r < |db.runs| && db.runs[r].state.Terminal() ==> Do(db, now, op).runs[r] == db.runs[r]
  {}

  /** Every elementary change keeps the whole invariant. */
  lemma InvDo(db: Db, now: Time, op: Op)
    requires Inv(db) && Enabled(db, op) && now != NEVER
    ensures Inv(Do(db, now, op))
  {
    WellFormedDo(db, now, op);
    AcyclicDo(db, now, op);
    JobsOkDo(db, now, op);
    NeedsOkDo(db, now, op);
    RunsOkDo(db, now, op);
    EventsOkDo(db, now, op);
  }

  lemma {:induction false} InvDoAll(db: Db, now: Time, ops: seq<Op>)
    requires Inv(db) && now != NEVER && EnabledAll(db, now, ops)
    ensures Inv(DoAll(db, now, ops))
    decreases |ops|
  {
    if ops != [] {
      InvDo(db, now, ops[0]);
      InvDoAll(Do(db, now, ops[0]), now, ops[1..]);
    }
  }

  lemma InvFollows(db: Db, now: Time, db': Db)
    requires Inv(db) && now != NEVER && Follows(db, now, db')
    ensures Inv(db')
  {
    var ops :| EnabledAll(db, now, ops) && DoAll(db, now, ops) == db';
    InvDoAll(db, now, ops);
  }

  lemma InvLeads(db: Db, now: Time, db': Db)
    requires Inv(db) && now != NEVER && Leads(db, now, db')
    ensures Inv(db')
  {
    LeadsFollows(db, now, db');
    InvFollows(db, now, db');
  }
}
