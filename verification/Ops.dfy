/**
 The elementary changes every transaction is built from: one guarded UPDATE together with the event the
 scheduler records beside it. `Enabled` is the guard, `Do` the effect at clock `now`.
 */
module Ops {
  import opened Model
  import opened Ingest
  import Graphs

  /** One declared job of a submission; `needs` are declaration indices. */
  datatype Item = Item(labels: Labels, timeout: int, needs: seq<nat>)

  datatype Op =
    | Create(items: seq<Item>, maxAttempts: nat)
    | StartRun(r: RunId)
    | AskRunCancel(r: RunId)
    | FinishRun(r: RunId)
    | Claim(j: JobId, runner: RunnerId, lease: Time)
    | Renew(j: JobId, lease: Time)
    | Finish(j: JobId, to: JobState, kind: FailureKind, exitCode: Option<int>)
    | Requeue(j: JobId, kind: FailureKind)
    | Release(j: JobId)
    | Skip(j: JobId)
    | CancelEarly(j: JobId)
    | AskCancel(j: JobId, reason: CancelReason)
    | AppendLog(j: JobId, cap: nat, chunks: seq<Chunk>)

  /** The job an elementary change is about. */
  function Target(op: Op): Option<JobId> {
    match op
    case Create(_, _) => None
    case StartRun(_) => None
    case AskRunCancel(_) => None
    case FinishRun(_) => None
    case _ => Some(op.j)
  }

  function NeedsOf(items: seq<Item>): (g: Graphs.Graph)
    ensures |g| == |items| && forall i :: 0 <= i < |items| ==> g[i] == items[i].needs
  {
    seq(|items|, i requires 0 <= i < |items| => items[i].needs)
  }

  function NewRow(item: Item, r: RunId, maxAttempts: nat, now: Time): Job {
    Job(r, item.labels, item.timeout, maxAttempts, if item.needs == [] then Queued else Pending, 0, NO_RUNNER, NEVER,
        NoFailure, None, now, NEVER, NEVER, NEVER, NoReason)
  }

  function NewRows(items: seq<Item>, r: RunId, maxAttempts: nat, now: Time): (rows: seq<Job>)
    ensures |rows| == |items| && forall i :: 0 <= i < |items| ==> rows[i] == NewRow(items[i], r, maxAttempts, now)
  {
    seq(|items|, i requires 0 <= i < |items| => NewRow(items[i], r, maxAttempts, now))
  }

  /** Declaration indices become row ids. */
  function Shift(g: Graphs.Graph, base: nat): (h: seq<seq<JobId>>)
    ensures |h| == |g| && forall i :: 0 <= i < |g| ==> |h[i]| == |g[i]|
    ensures forall i, k :: 0 <= i < |g| && 0 <= k < |g[i]| ==> h[i][k] == base + g[i][k]
  {
    seq(|g|, i requires 0 <= i < |g| => seq(|g[i]|, k requires 0 <= k < |g[i]| => base + g[i][k]))
  }

  function RootsOf(items: seq<Item>): set<nat> { set i | 0 <= i < |items| && items[i].needs == [] }

  /** Whether the attempt already has its truncation event. */
  predicate HasTruncation(events: seq<Event>, j: JobId, n: nat) {
    exists i :: 0 <= i < |events| && events[i].LogsTruncated? && events[i].job == j && events[i].attempt == n
  }

  /** Over, or running with a cancel pending. */
  predicate Winding(row: Job) { row.state.Terminal() || (row.state.Running? && row.cancelAt != NEVER) }

  /** Every job of the run is over or has a cancel waiting for its runner. */
  predicate WoundDown(jobs: seq<Job>, r: RunId) {
    forall j :: 0 <= j < |jobs| && jobs[j].run == r ==> Winding(jobs[j])
  }

  ghost predicate Enabled(db: Db, op: Op) {
    match op
    case Create(items, max) =>
      |items| > 0 && max > 0 && Graphs.Valid(NeedsOf(items)) && Graphs.Acyclic(NeedsOf(items))
    case StartRun(r) => r < |db.runs| && db.runs[r].state.RunPending?
    case AskRunCancel(r) => r < |db.runs| && !db.runs[r].state.Terminal() && WoundDown(db.jobs, r)
    case FinishRun(r) => r < |db.runs| && !db.runs[r].state.Terminal() && AllTerminal(db.jobs, r)
    case Claim(j, runner, lease) =>
      db.HasJob(j) && db.jobs[j].state.Queued? && runner != NO_RUNNER && lease != NEVER && RunOf(db, j).RunRunning?
    case Renew(j, lease) => db.HasJob(j) && db.jobs[j].state.Running? && lease != NEVER
    case Finish(j, to, kind, _) => db.HasJob(j) && db.jobs[j].state.Running? && FinishKind(to, kind)
    case Requeue(j, kind) => db.HasJob(j) && db.jobs[j].state.Running? && db.jobs[j].attempt < db.jobs[j].maxAttempts
      && db.jobs[j].cancelAt == NEVER && (kind.Infra? || kind.LostRunner?)
    case Release(j) => Undecided(db, j) && AllSucceeded(db.jobs, db.deps[j])
    case Skip(j) => Undecided(db, j) && AnyDead(db.jobs, db.deps[j])
    case CancelEarly(j) => db.HasJob(j) && (db.jobs[j].state.Pending? || db.jobs[j].state.Queued?)
    case AskCancel(j, reason) => db.HasJob(j) && db.jobs[j].state.Running? && db.jobs[j].cancelAt == NEVER
      && reason != NoReason
    case AppendLog(j, _, _) => db.HasJob(j) && db.jobs[j].state.Running?
  }

  function RunOf(db: Db, j: JobId): RunState
    requires db.HasJob(j)
  {
    if db.jobs[j].run < |db.runs| then db.runs[db.jobs[j].run].state else RunPending
  }

  predicate Undecided(db: Db, j: JobId) {
    j < |db.jobs| && j < |db.deps| && db.jobs[j].state.Pending? && Within(db.deps[j], |db.jobs|)
  }

  /** The failure kind each terminal state of a claimed job carries. */
  predicate FinishKind(to: JobState, kind: FailureKind) {
    match to
    case Succeeded => kind == NoFailure
    case Cancelled => kind == CancelKind
    case Failed => kind != NoFailure && kind != CancelKind
    case _ => false
  }

  function PutJob(db: Db, j: JobId, row: Job, e: Event): Db
    requires db.HasJob(j)
  {
    db.(jobs := db.jobs[j := row], events := db.events + [e])
  }

  function FinishEvent(row: Job, j: JobId, to: JobState, kind: FailureKind): Event {
    if to.Succeeded? then JobSucceeded(row.run, j, row.attempt)
    else if to.Cancelled? then JobCancelled(row.run, j, row.attempt)
    else JobFailed(row.run, j, row.attempt, kind)
  }

  function Do(db: Db, now: Time, op: Op): Db
    requires Enabled(db, op)
  {
    match op
    case Create(items, max) =>
      var r := |db.runs|;
      db.(runs := db.runs + [Run(RunPending, now, NEVER, NEVER)],
          jobs := db.jobs + NewRows(items, r, max, now),
          deps := db.deps + Shift(NeedsOf(items), |db.jobs|),
          events := db.events + [RunCreated(r, |items|, RootsOf(items))])
    case StartRun(r) =>
      db.(runs := db.runs[r := RunMoved(db.runs[r], RunRunning, now)], events := db.events + [RunStarted(r)])
    case AskRunCancel(r) => db.(events := db.events + [RunCancelAsked(r)])
    case FinishRun(r) =>
      var v := Verdict(db.jobs, r);
      db.(runs := db.runs[r := RunMoved(db.runs[r], v, now)], events := db.events + [RunFinished(r, v)])
    case Claim(j, runner, lease) =>
      var row := Claimed(db.jobs[j], runner, lease, now);
      PutJob(db, j, row, JobClaimed(row.run, j, runner, row.attempt))
    case Renew(j, lease) => db.(jobs := db.jobs[j := Renewed(db.jobs[j], lease)])
    case Finish(j, to, kind, exitCode) =>
      PutJob(db, j, Finished(db.jobs[j], to, kind, exitCode, now), FinishEvent(db.jobs[j], j, to, kind))
    case Requeue(j, kind) =>
      PutJob(db, j, Requeued(db.jobs[j], now), JobRequeued(db.jobs[j].run, j, db.jobs[j].attempt, kind))
    case Release(j) => PutJob(db, j, MadeReady(db.jobs[j], now), JobQueued(db.jobs[j].run, j))
    case Skip(j) => PutJob(db, j, MadeSkipped(db.jobs[j], now), JobSkipped(db.jobs[j].run, j))
    case CancelEarly(j) =>
      PutJob(db, j, CancelledEarly(db.jobs[j], now), JobCancelled(db.jobs[j].run, j, db.jobs[j].attempt))
    case AskCancel(j, reason) =>
      PutJob(db, j, CancelAsked(db.jobs[j], reason, now),
             JobCancelAsked(db.jobs[j].run, j, db.jobs[j].attempt, db.jobs[j].runner, reason))
    case AppendLog(j, cap, chunks) =>
      var n := db.jobs[j].attempt;
      var k := AttemptKey(j, n);
      var rows := Absorb(db.Log(k), cap, chunks);
      db.(logs := if rows == db.Log(k) then db.logs else db.logs[k := rows],
          events := if Loses(db.Log(k), cap, chunks) && !HasTruncation(db.events, j, n)
                    then db.events + [LogsTruncated(db.jobs[j].run, j, n)] else db.events)
  }

  // Sequences of elementary changes at one clock reading.

  ghost predicate EnabledAll(db: Db, now: Time, ops: seq<Op>)
    decreases |ops|
  {
    ops == [] || (Enabled(db, ops[0]) && EnabledAll(Do(db, now, ops[0]), now, ops[1..]))
  }

  ghost function DoAll(db: Db, now: Time, ops: seq<Op>): Db
    requires EnabledAll(db, now, ops)
    decreases |ops|
  {
    if ops == [] then db else DoAll(Do(db, now, ops[0]), now, ops[1..])
  }

  /** `db'` follows from `db` by elementary changes at clock `now`. */
  ghost predicate Follows(db: Db, now: Time, db': Db) {
    exists ops :: EnabledAll(db, now, ops) && DoAll(db, now, ops) == db'
  }

  predicate Silent(ops: seq<Op>) { forall i :: 0 <= i < |ops| ==> !ops[i].AppendLog? }

  /** ...none of which touches a log. */
  ghost predicate Leads(db: Db, now: Time, db': Db) {
    exists ops :: Silent(ops) && EnabledAll(db, now, ops) && DoAll(db, now, ops) == db'
  }

  lemma LeadsFollows(db: Db, now: Time, db': Db)
    requires Leads(db, now, db')
    ensures Follows(db, now, db')
  {}

  lemma LeadsNowhere(db: Db, now: Time)
    ensures Leads(db, now, db)
  {
    assert Silent([]) && EnabledAll(db, now, []) && DoAll(db, now, []) == db;
  }

  lemma DoOne(db: Db, now: Time, op: Op)
    requires Enabled(db, op)
    ensures EnabledAll(db, now, [op]) && DoAll(db, now, [op]) == Do(db, now, op)
  {
    assert [op][1..] == [];
    assert EnabledAll(Do(db, now, op), now, []);
  }

  lemma FollowsByOne(db: Db, now: Time, op: Op)
    requires Enabled(db, op)
    ensures Follows(db, now, Do(db, now, op))
  {
    DoOne(db, now, op);
  }

  lemma LeadsByOne(db: Db, now: Time, op: Op)
    requires Enabled(db, op) && !op.AppendLog?
    ensures Leads(db, now, Do(db, now, op))
  {
    DoOne(db, now, op);
    assert Silent([op]);
  }

  lemma {:induction false} DoAllAppends(db: Db, now: Time, a: seq<Op>, b: seq<Op>)
    requires EnabledAll(db, now, a) && EnabledAll(DoAll(db, now, a), now, b)
    ensures EnabledAll(db, now, a + b) && DoAll(db, now, a + b) == DoAll(DoAll(db, now, a), now, b)
    decreases |a|
  {
    if a == [] {
      assert a + b == b;
    } else {
      assert (a + b)[0] == a[0] && (a + b)[1..] == a[1..] + b;
      DoAllAppends(Do(db, now, a[0]), now, a[1..], b);
    }
  }

  lemma LeadsOn(db: Db, now: Time, db1: Db, db2: Db)
    requires Leads(db, now, db1) && Leads(db1, now, db2)
    ensures Leads(db, now, db2)
  {
    var a :| Silent(a) && EnabledAll(db, now, a) && DoAll(db, now, a) == db1;
    var b :| Silent(b) && EnabledAll(db1, now, b) && DoAll(db1, now, b) == db2;
    DoAllAppends(db, now, a, b);
    assert Silent(a + b);
  }

  lemma LeadsOnByOne(db: Db, now: Time, db1: Db, op: Op)
    requires Leads(db, now, db1) && Enabled(db1, op) && !op.AppendLog?
    ensures Leads(db, now, Do(db1, now, op))
  {
    LeadsByOne(db1, now, op);
    LeadsOn(db, now, db1, Do(db1, now, op));
  }
}
