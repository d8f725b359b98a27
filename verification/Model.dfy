/**
 Rows, states and events of Quarry's control plane.

 Identifiers are the rowids SQLite assigns: job `j` is `db.jobs[j]` and run `r` is `db.runs[r]`.
 As in the Go structs, zero stands for "absent": runner 0 is the empty runner id and time 0 is NULL.
 */
module Model {

  datatype Option<+T> = None | Some(value: T)

  newtype byte = x: int | 0 <= x < 256
  type Bytes = seq<byte>

  type RunId = nat
  type JobId = nat
  type RunnerId = nat
  type Time = nat
  type Labels = map<string, string>

  const NO_RUNNER: RunnerId := 0
  const NEVER: Time := 0

  datatype JobState = Pending | Queued | Running | Succeeded | Failed | Cancelled | Skipped {
    predicate Terminal() { Succeeded? || Failed? || Cancelled? || Skipped? }

    /** A need in one of these states can never be satisfied. */
    predicate Dead() { Failed? || Cancelled? || Skipped? }
  }

  datatype RunState = RunPending | RunRunning | RunSucceeded | RunFailed | RunCancelled {
    predicate Terminal() { !RunPending? && !RunRunning? }
  }

  datatype FailureKind = NoFailure | ExitCode | TimedOut | Infra | LostRunner | CancelKind

  datatype CancelReason = NoReason | ByUser | ByTimeout

  /** A row of `jobs`; `labels` and `timeout` are the decoded parts of its spec the scheduler reads. */
  datatype Job = Job(
    run: RunId, labels: Labels, timeout: int, maxAttempts: nat,
    state: JobState, attempt: nat, runner: RunnerId, lease: Time,
    failure: FailureKind, exitCode: Option<int>,
    queuedAt: Time, startedAt: Time, finishedAt: Time,
    cancelAt: Time, reason: CancelReason)
  {
    /** The fence: attempt `n` is the one now running. */
    predicate Live(n: int) { state.Running? && attempt == n }
  }

  datatype Run = Run(state: RunState, createdAt: Time, startedAt: Time, finishedAt: Time)

  /** A stored or shipped piece of an attempt's output. */
  datatype Chunk = Chunk(no: int, data: Bytes)

  datatype AttemptKey = AttemptKey(job: JobId, attempt: nat)

  datatype Event =
    | RunCreated(run: RunId, count: nat, roots: set<nat>)
    | RunStarted(run: RunId)
    | RunCancelAsked(run: RunId)
    | RunFinished(run: RunId, verdict: RunState)
    | JobQueued(run: RunId, job: JobId)
    | JobSkipped(run: RunId, job: JobId)
    | JobClaimed(run: RunId, job: JobId, runner: RunnerId, attempt: nat)
    | JobRequeued(run: RunId, job: JobId, attempt: nat, kind: FailureKind)
    | JobSucceeded(run: RunId, job: JobId, attempt: nat)
    | JobFailed(run: RunId, job: JobId, attempt: nat, kind: FailureKind)
    | JobCancelled(run: RunId, job: JobId, attempt: nat)
    | JobCancelAsked(run: RunId, job: JobId, attempt: nat, runner: RunnerId, reason: CancelReason)
    | LogsTruncated(run: RunId, job: JobId, attempt: nat)

  /** The store: `deps[j]` are the jobs `j` needs, `logs[k]` the chunks of attempt `k` in insertion order. */
  datatype Db = Db(
    runs: seq<Run>, jobs: seq<Job>, deps: seq<seq<JobId>>,
    events: seq<Event>, logs: map<AttemptKey, seq<Chunk>>)
  {
    predicate HasJob(j: JobId) { j < |jobs| }

    predicate Live(j: JobId, n: int) { j < |jobs| && jobs[j].Live(n) }

    function Log(k: AttemptKey): seq<Chunk> { if k in logs then logs[k] else [] }

    /** Every edge joins two jobs of one run, and every job belongs to a run. */
    ghost predicate WellFormed() {
      && |deps| == |jobs|
      && (forall j :: 0 <= j < |jobs| ==> jobs[j].run < |runs|)
      && (forall j :: 0 <= j < |jobs| ==> Within(deps[j], |jobs|))
      && (forall j, k :: 0 <= j < |jobs| && 0 <= k < |deps[j]| ==> jobs[deps[j][k]].run == jobs[j].run)
    }
  }

  // The guarded UPDATEs of the store, as functions on one row.

  function Claimed(j: Job, runner: RunnerId, lease: Time, now: Time): Job {
    j.(state := Running, runner := runner, attempt := j.attempt + 1, lease := lease, startedAt := now)
  }

  function Renewed(j: Job, lease: Time): Job { j.(lease := lease) }

  function Finished(j: Job, state: JobState, kind: FailureKind, exitCode: Option<int>, now: Time): Job {
    j.(state := state, failure := kind, exitCode := exitCode, lease := NEVER, finishedAt := now)
  }

  function Requeued(j: Job, now: Time): Job {
    j.(state := Queued, runner := NO_RUNNER, lease := NEVER, startedAt := NEVER, queuedAt := now)
  }

  function MadeReady(j: Job, now: Time): Job { j.(state := Queued, queuedAt := now) }

  function MadeSkipped(j: Job, now: Time): Job { j.(state := Skipped, finishedAt := now) }

  function CancelledEarly(j: Job, now: Time): Job {
    j.(state := Cancelled, failure := CancelKind, finishedAt := now)
  }

  function CancelAsked(j: Job, reason: CancelReason, now: Time): Job { j.(cancelAt := now, reason := reason) }

  function RunMoved(r: Run, to: RunState, now: Time): Run {
    r.(state := to,
       startedAt := if to == RunRunning then now else r.startedAt,
       finishedAt := if to.Terminal() then now else r.finishedAt)
  }

  // The needs of a job, as `advance` reads them.

  predicate Within(ids: seq<nat>, n: nat) { forall k :: 0 <= k < |ids| ==> ids[k] < n }

  predicate AnyDead(jobs: seq<Job>, needs: seq<JobId>)
    requires Within(needs, |jobs|)
  {
    exists k :: 0 <= k < |needs| && jobs[needs[k]].state.Dead()
  }

  predicate AllSucceeded(jobs: seq<Job>, needs: seq<JobId>)
    requires Within(needs, |jobs|)
  {
    forall k :: 0 <= k < |needs| ==> jobs[needs[k]].state.Succeeded?
  }

  /** The state `advance` gives a finished run: any failure wins over any cancellation. */
  function Verdict(jobs: seq<Job>, r: RunId): RunState {
    if exists j :: 0 <= j < |jobs| && jobs[j].run == r && jobs[j].state.Failed? then RunFailed
    else if exists j :: 0 <= j < |jobs| && jobs[j].run == r && jobs[j].state.Cancelled? then RunCancelled
    else RunSucceeded
  }

  predicate AllTerminal(jobs: seq<Job>, r: RunId) {
    forall j :: 0 <= j < |jobs| && jobs[j].run == r ==> jobs[j].state.Terminal()
  }

  // The ordered SELECTs of the store.

  datatype Listing = ListQueued | ListExpired(now: Time) | ListUncancelled

  predicate Selects(l: Listing, j: Job) {
    match l
    case ListQueued => j.state.Queued?
    case ListExpired(now) => j.state.Running? && j.lease != NEVER && j.lease < now
    case ListUncancelled => j.state.Running? && j.cancelAt == NEVER
  }

  function SortKey(l: Listing, j: Job): Time {
    match l
    case ListQueued => j.queuedAt
    case ListExpired(_) => j.lease
    case ListUncancelled => j.startedAt
  }

  /** Where a row with the greatest rowid so far goes: after every row whose key is no larger. */
  function Slot(l: Listing, jobs: seq<Job>, ids: seq<JobId>, id: JobId): (p: nat)
    requires id < |jobs| && Within(ids, |jobs|)
    ensures p <= |ids| && (p > 0 ==> SortKey(l, jobs[ids[p - 1]]) <= SortKey(l, jobs[id]))
    ensures forall k :: p <= k < |ids| ==> SortKey(l, jobs[id]) < SortKey(l, jobs[ids[k]])
  {
    if ids == [] || SortKey(l, jobs[ids[|ids| - 1]]) <= SortKey(l, jobs[id]) then |ids|
    else Slot(l, jobs, ids[..|ids| - 1], id)
  }

  function InsertId(l: Listing, jobs: seq<Job>, ids: seq<JobId>, id: JobId): (r: seq<JobId>)
    requires id < |jobs| && Within(ids, |jobs|)
    ensures Within(r, |jobs|)
  {
    var p := Slot(l, jobs, ids, id);
    ids[..p] + [id] + ids[p..]
  }

  /** The ids below `n` that the listing selects, ORDER BY its key and then rowid. */
  function Select(l: Listing, jobs: seq<Job>, n: nat): (r: seq<JobId>)
    requires n <= |jobs|
    ensures Within(r, |jobs|)
  {
    if n == 0 then []
    else if Selects(l, jobs[n - 1]) then InsertId(l, jobs, Select(l, jobs, n - 1), n - 1)
    else Select(l, jobs, n - 1)
  }

  predicate Before(l: Listing, jobs: seq<Job>, i: JobId, k: JobId)
    requires i < |jobs| && k < |jobs|
  {
    SortKey(l, jobs[i]) < SortKey(l, jobs[k]) || (SortKey(l, jobs[i]) == SortKey(l, jobs[k]) && i < k)
  }

  /** A strictly increasing (key, rowid) order, so no id repeats. */
  ghost predicate Ordered(l: Listing, jobs: seq<Job>, ids: seq<JobId>)
    requires Within(ids, |jobs|)
  {
    forall a, b :: 0 <= a < b < |ids| ==> Before(l, jobs, ids[a], ids[b])
  }

  lemma InsertIdPair(l: Listing, jobs: seq<Job>, ids: seq<JobId>, id: JobId, p: nat, a: nat, b: nat)
    requires id < |jobs| && Within(ids, id) && Ordered(l, jobs, ids) && p <= |ids| && a < b <= |ids|
    requires (p > 0 ==> SortKey(l, jobs[ids[p - 1]]) <= SortKey(l, jobs[id]))
      && (p < |ids| ==> SortKey(l, jobs[id]) < SortKey(l, jobs[ids[p]]))
    ensures var r := ids[..p] + [id] + ids[p..]; r[a] < |jobs| && r[b] < |jobs| && Before(l, jobs, r[a], r[b])
  {
    var r := ids[..p] + [id] + ids[p..];
    if b < p {
      assert r[a] == ids[a] && r[b] == ids[b];
    } else if b == p {
      assert r[a] == ids[a] && r[b] == id;
      if a < p - 1 { assert Before(l, jobs, ids[a], ids[p - 1]); }
    } else if a < p {
      assert r[a] == ids[a] && r[b] == ids[b - 1];
      assert Before(l, jobs, ids[a], ids[b - 1]);
    } else if a == p {
      assert r[a] == id && r[b] == ids[b - 1];
      if p < b - 1 { assert Before(l, jobs, ids[p], ids[b - 1]); }
    } else {
      assert r[a] == ids[a - 1] && r[b] == ids[b - 1];
    }
  }

  lemma InsertIdOrdered(l: Listing, jobs: seq<Job>, ids: seq<JobId>, id: JobId)
    requires id < |jobs| && Within(ids, id) && Ordered(l, jobs, ids)
    ensures Ordered(l, jobs, InsertId(l, jobs, ids, id)) && Within(InsertId(l, jobs, ids, id), id + 1)
  {
    var p, r := Slot(l, jobs, ids, id), InsertId(l, jobs, ids, id);
    forall a, b | 0 <= a < b < |r| ensures Before(l, jobs, r[a], r[b]) {
      InsertIdPair(l, jobs, ids, id, p, a, b);
    }
  }

  lemma {:induction false} InsertIdMembers(l: Listing, jobs: seq<Job>, ids: seq<JobId>, id: JobId)
    requires id < |jobs| && Within(ids, |jobs|)
    ensures forall i: nat :: i in InsertId(l, jobs, ids, id) <==> i in ids || i == id
  {
    var p := Slot(l, jobs, ids, id);
    assert ids == ids[..p] + ids[p..];
  }

  /** The listings return exactly the selected rows... */
  lemma {:induction false} SelectMembers(l: Listing, jobs: seq<Job>, n: nat)
    requires n <= |jobs|
    ensures forall i: nat :: i in Select(l, jobs, n) <==> i < n && Selects(l, jobs[i])
  {
    if n > 0 {
      SelectMembers(l, jobs, n - 1);
      InsertIdMembers(l, jobs, Select(l, jobs, n - 1), n - 1);
    }
  }

  /** ...each once, in (key, rowid) order. */
  lemma {:induction false} SelectOrdered(l: Listing, jobs: seq<Job>, n: nat)
    requires n <= |jobs|
    ensures Within(Select(l, jobs, n), n) && Ordered(l, jobs, Select(l, jobs, n))
  {
    if n > 0 {
      SelectOrdered(l, jobs, n - 1);
      var ids := Select(l, jobs, n - 1);
      InsertIdOrdered(l, jobs, ids, n - 1);
      assert Within(ids, n);
    }
  }

  /**
   The three listings on the columns: the queue by the time of queueing, expired leases by lease, jobs to
   watch for their timeout by the time they started; ties by row id.
   */
  lemma ListingOrders(jobs: seq<Job>, now: Time, queued: seq<JobId>, expired: seq<JobId>, watched: seq<JobId>)
    requires queued == Select(ListQueued, jobs, |jobs|) && expired == Select(ListExpired(now), jobs, |jobs|)
      && watched == Select(ListUncancelled, jobs, |jobs|)
    ensures forall a, b :: 0 <= a < b < |queued| ==>
      var x, y := jobs[queued[a]], jobs[queued[b]];
      x.queuedAt < y.queuedAt || (x.queuedAt == y.queuedAt && queued[a] < queued[b])
    ensures forall a, b :: 0 <= a < b < |expired| ==>
      var x, y := jobs[expired[a]], jobs[expired[b]];
      x.lease < y.lease || (x.lease == y.lease && expired[a] < expired[b])
    ensures forall a, b :: 0 <= a < b < |watched| ==>
      var x, y := jobs[watched[a]], jobs[watched[b]];
      x.startedAt < y.startedAt || (x.startedAt == y.startedAt && watched[a] < watched[b])
  {
    OrderedPairs(ListQueued, jobs, queued);
    OrderedPairs(ListExpired(now), jobs, expired);
    OrderedPairs(ListUncancelled, jobs, watched);
  }

  lemma OrderedPairs(l: Listing, jobs: seq<Job>, ids: seq<JobId>)
    requires ids == Select(l, jobs, |jobs|)
    ensures forall a, b :: 0 <= a < b < |ids| ==> Before(l, jobs, ids[a], ids[b])
  {
    SelectOrdered(l, jobs, |jobs|);
  }

  /** The listings' conditions on the columns. */
  lemma ListingSelects(jobs: seq<Job>, now: Time, i: JobId)
    requires i < |jobs|
    ensures i in Select(ListQueued, jobs, |jobs|) <==> jobs[i].state.Queued?
    ensures i in Select(ListExpired(now), jobs, |jobs|) <==>
              jobs[i].state.Running? && jobs[i].lease != NEVER && jobs[i].lease < now
    ensures i in Select(ListUncancelled, jobs, |jobs|) <==> jobs[i].state.Running? && jobs[i].cancelAt == NEVER
  {
    SelectMembers(ListQueued, jobs, |jobs|);
    SelectMembers(ListExpired(now), jobs, |jobs|);
    SelectMembers(ListUncancelled, jobs, |jobs|);
  }
}
