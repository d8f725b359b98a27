/**
 The scheduler's transactions as functions on the store. Each is composed of the elementary changes of
 `Ops`; an error leaves the store as it was.
 */
module Transactions {
  import opened Model
  import opened Ops
  import opened Invariants
  import opened Pipelines

  // advance: decide pending jobs to a fixpoint, then finish the run.

  /** One visit of `advance` to job `i`: a dead need decides it; otherwise every need must have succeeded. */
  function Visit(db: Db, now: Time, r: RunId, i: JobId): (db': Db)
    requires db.WellFormed() && i < |db.jobs|
    ensures db'.WellFormed() && |db'.jobs| == |db.jobs| && |db'.runs| == |db.runs|
  {
    if db.jobs[i].run != r || !db.jobs[i].state.Pending? then db
    else if AnyDead(db.jobs, db.deps[i]) then PutJob(db, i, MadeSkipped(db.jobs[i], now), JobSkipped(r, i))
    else if AllSucceeded(db.jobs, db.deps[i]) then PutJob(db, i, MadeReady(db.jobs[i], now), JobQueued(r, i))
    else db
  }

  /** One sweep over the jobs from `i` on. */
  function Pass(db: Db, now: Time, r: RunId, i: nat): (db': Db)
    requires db.WellFormed() && i <= |db.jobs|
    ensures db'.WellFormed() && |db'.jobs| == |db.jobs| && |db'.runs| == |db.runs|
    decreases |db.jobs| - i
  {
    if i == |db.jobs| then db else Pass(Visit(db, now, r, i), now, r, i + 1)
  }

  ghost function PendingIds(jobs: seq<Job>): set<JobId> { set i | 0 <= i < |jobs| && jobs[i].state.Pending? }

  lemma VisitShrinks(db: Db, now: Time, r: RunId, i: JobId)
    requires db.WellFormed() && i < |db.jobs|
    ensures var d := Visit(db, now, r, i); d == db || PendingIds(d.jobs) < PendingIds(db.jobs)
  {
    var d := Visit(db, now, r, i);
    if d != db {
      assert i in PendingIds(db.jobs) && i !in PendingIds(d.jobs);
      forall k | k in PendingIds(d.jobs) ensures k in PendingIds(db.jobs) { assert d.jobs[k] == db.jobs[k]; }
    }
  }

  lemma {:induction false} PassShrinks(db: Db, now: Time, r: RunId, i: nat)
    requires db.WellFormed() && i <= |db.jobs|
    ensures Pass(db, now, r, i) == db || PendingIds(Pass(db, now, r, i).jobs) < PendingIds(db.jobs)
    decreases |db.jobs| - i
  {
    if i < |db.jobs| {
      VisitShrinks(db, now, r, i);
      PassShrinks(Visit(db, now, r, i), now, r, i + 1);
    }
  }

  /** Sweep until a sweep changes nothing. */
  function Settle(db: Db, now: Time, r: RunId): (db': Db)
    requires db.WellFormed()
    ensures db'.WellFormed() && |db'.jobs| == |db.jobs| && |db'.runs| == |db.runs|
    decreases PendingIds(db.jobs)
  {
    PassShrinks(db, now, r, 0);
    var d := Pass(db, now, r, 0);
    if d == db then db else Settle(d, now, r)
  }

  /** Finish the run if no job of it can still change. */
  function Conclude(db: Db, now: Time, r: RunId): Db
    requires r < |db.runs|
  {
    if AllTerminal(db.jobs, r) && !db.runs[r].state.Terminal() then Do(db, now, FinishRun(r)) else db
  }

  function Advance(db: Db, now: Time, r: RunId): Db
    requires db.WellFormed() && r < |db.runs|
  {
    Conclude(Settle(db, now, r), now, r)
  }

  // Replies.

  datatype Directive = Continue | CancelIt | Abort

  datatype JobRef = JobRef(job: JobId, attempt: int)

  datatype Reply =
    | Accepted
    | Granted(job: JobId, attempt: nat)
    | NothingToDo
    | Directives(all: seq<Directive>)
    | Fenced
    | NotFound
    | Invalid
    | RunOver

  // Claim.

  /** Every required label has the runner's value; a label the runner lacks reads as empty. */
  predicate LabelsSubset(need: Labels, have: Labels) {
    forall k :: k in need ==> (if k in have then have[k] else "") == need[k]
  }

  function FirstFit(jobs: seq<Job>, ids: seq<JobId>, labels: Labels): (r: Option<JobId>)
    requires Within(ids, |jobs|)
    ensures r.Some? ==> r.value in ids && r.value < |jobs|
  {
    if ids == [] then None
    else if LabelsSubset(jobs[ids[0]].labels, labels) then Some(ids[0])
    else FirstFit(jobs, ids[1..], labels)
  }

  function Candidate(db: Db, labels: Labels): (r: Option<JobId>)
    ensures r.Some? ==> db.HasJob(r.value) && db.jobs[r.value].state.Queued?
  {
    SelectMembers(ListQueued, db.jobs, |db.jobs|);
    FirstFit(db.jobs, Select(ListQueued, db.jobs, |db.jobs|), labels)
  }

  /** A queued job's run is not over, so after `run.started` it is running. */
  lemma QueuedRunOpen(db: Db, now: Time, j: JobId, runner: RunnerId, lease: Time)
    requires Inv(db) && db.HasJob(j) && db.jobs[j].state.Queued? && runner != NO_RUNNER && lease != NEVER
    ensures !RunOf(db, j).Terminal() && db.jobs[j].run < |db.runs|
    ensures Enabled(MarkStarted(db, now, db.jobs[j].run), Claim(j, runner, lease))
  {
    assert RunOk(db, db.jobs[j].run);
  }

  function MarkStarted(db: Db, now: Time, r: RunId): Db
    requires r < |db.runs|
  {
    if db.runs[r].state.RunPending? then Do(db, now, StartRun(r)) else db
  }

  function ClaimTx(db: Db, now: Time, ttl: Time, runner: RunnerId, labels: Labels): (Db, Reply)
    requires Inv(db) && now != NEVER
  {
    if runner == NO_RUNNER then (db, Invalid)
    else
      match Candidate(db, labels)
      case None => (db, NothingToDo)
      case Some(j) =>
        QueuedRunOpen(db, now, j, runner, now + ttl);
        (Do(MarkStarted(db, now, db.jobs[j].run), now, Claim(j, runner, now + ttl)), Granted(j, db.jobs[j].attempt + 1))
  }

  // Heartbeat.

  predicate Holds(db: Db, runner: RunnerId, ref: JobRef) {
    db.Live(ref.job, ref.attempt) && db.jobs[ref.job].runner == runner
  }

  function BeatOne(db: Db, now: Time, ttl: Time, runner: RunnerId, ref: JobRef): (Db, Directive)
    requires now != NEVER
  {
    if Holds(db, runner, ref)
    then (Do(db, now, Renew(ref.job, now + ttl)), if db.jobs[ref.job].cancelAt != NEVER then CancelIt else Continue)
    else (db, Abort)
  }

  function Beat(db: Db, now: Time, ttl: Time, runner: RunnerId, refs: seq<JobRef>): (Db, seq<Directive>)
    requires now != NEVER
  {
    if refs == [] then (db, [])
    else
      var (d, ds) := Beat(db, now, ttl, runner, refs[..|refs| - 1]);
      var (d', last) := BeatOne(d, now, ttl, runner, refs[|refs| - 1]);
      (d', ds + [last])
  }

  function HeartbeatTx(db: Db, now: Time, ttl: Time, runner: RunnerId, refs: seq<JobRef>): (Db, Reply)
    requires now != NEVER
  {
    if runner == NO_RUNNER then (db, Invalid)
    else var (d, ds) := Beat(db, now, ttl, runner, refs); (d, Directives(ds))
  }

  // Complete.

  datatype Status = StatusSucceeded | StatusFailed | StatusOther

  datatype Result = Result(status: Status, kind: FailureKind, exitCode: Option<int>)

  predicate ValidResult(res: Result) {
    res.status.StatusSucceeded? ||
    (res.status.StatusFailed? && (res.kind.ExitCode? || res.kind.TimedOut? || res.kind.Infra? || res.kind.CancelKind?))
  }

  predicate Retryable(kind: FailureKind) { kind.Infra? || kind.LostRunner? }

  /** May this attempt's failure send the job back to the queue? */
  predicate MayRetry(row: Job, kind: FailureKind) {
    Retryable(kind) && row.attempt < row.maxAttempts && row.cancelAt == NEVER
  }

  /** What a valid report of the live attempt does to its row. */
  function Settlement(row: Job, j: JobId, res: Result): Op {
    if res.status.StatusSucceeded? then Finish(j, Succeeded, NoFailure, res.exitCode)
    else if res.kind.CancelKind? then
      if row.reason.ByTimeout? then Finish(j, Failed, TimedOut, res.exitCode)
      else Finish(j, Cancelled, CancelKind, res.exitCode)
    else if MayRetry(row, res.kind) then Requeue(j, res.kind)
    else Finish(j, Failed, res.kind, res.exitCode)
  }

  /** One elementary change on a job, then `advance` of its run. */
  function Resolved(db: Db, now: Time, op: Op): Db
    requires db.WellFormed() && Enabled(db, op) && (op.Finish? || op.Requeue?)
  {
    WellFormedDo(db, now, op);
    Advance(Do(db, now, op), now, db.jobs[op.j].run)
  }

  function CompleteTx(db: Db, now: Time, j: JobId, n: int, res: Result): (Db, Reply)
    requires db.WellFormed()
  {
    if !ValidResult(res) then (db, Invalid)
    else if !db.HasJob(j) then (db, NotFound)
    else if !db.jobs[j].Live(n) then
      (db, if db.jobs[j].attempt == n && db.jobs[j].state.Terminal() then Accepted else Fenced)
    else (Resolved(db, now, Settlement(db.jobs[j], j, res)), Accepted)
  }

  // CancelRun.

  function CancelOne(db: Db, now: Time, r: RunId, i: JobId): (db': Db)
    requires db.WellFormed() && i < |db.jobs|
    ensures db'.WellFormed() && |db'.jobs| == |db.jobs| && |db'.runs| == |db.runs|
  {
    var row := db.jobs[i];
    if row.run != r then db
    else if row.state.Pending? || row.state.Queued? then
      PutJob(db, i, CancelledEarly(row, now), JobCancelled(row.run, i, row.attempt))
    else if row.state.Running? && row.cancelAt == NEVER then
      PutJob(db, i, CancelAsked(row, ByUser, now), JobCancelAsked(row.run, i, row.attempt, row.runner, ByUser))
    else db
  }

  function CancelJobs(db: Db, now: Time, r: RunId, n: nat): (db': Db)
    requires db.WellFormed() && n <= |db.jobs|
    ensures db'.WellFormed() && |db'.jobs| == |db.jobs| && |db'.runs| == |db.runs|
  {
    if n == 0 then db else CancelOne(CancelJobs(db, now, r, n - 1), now, r, n - 1)
  }

  /** What cancelling its run does to a row. */
  function CancelledBy(row: Job, now: Time): Job {
    if row.state.Pending? || row.state.Queued? then CancelledEarly(row, now)
    else if row.state.Running? && row.cancelAt == NEVER then CancelAsked(row, ByUser, now)
    else row
  }

  lemma CancelOneRow(db: Db, now: Time, r: RunId, i: JobId, j: JobId)
    requires db.WellFormed() && i < |db.jobs| && j < |db.jobs|
    ensures CancelOne(db, now, r, i).jobs[j] == if i == j && db.jobs[j].run == r then CancelledBy(db.jobs[j], now)
      else db.jobs[j]
  {}

  lemma {:induction false} CancelJobsRow(db: Db, now: Time, r: RunId, n: nat, d: Db, j: JobId)
    requires db.WellFormed() && n <= |db.jobs| && j < |db.jobs| && d == CancelJobs(db, now, r, n)
    ensures d.jobs[j] == if j < n && db.jobs[j].run == r then CancelledBy(db.jobs[j], now)
      else db.jobs[j]
  {
    if n > 0 {
      var front := CancelJobs(db, now, r, n - 1);
      CancelJobsRow(db, now, r, n - 1, front, j);
      CancelOneRow(front, now, r, n - 1, j);
    }
  }

  predicate CancelRequested(db: Db, r: RunId) {
    exists i :: 0 <= i < |db.events| && db.events[i] == RunCancelAsked(r)
  }

  lemma CancelOneWinds(db: Db, now: Time, r: RunId, i: JobId)
    requires db.WellFormed() && i < |db.jobs| && now != NEVER
    ensures var db' := CancelOne(db, now, r, i);
      && db'.runs == db.runs && db'.jobs[i].run == db.jobs[i].run
      && (forall j :: 0 <= j < |db.jobs| && j != i ==> db'.jobs[j] == db.jobs[j])
      && (db.jobs[i].run == r ==> Winding(db'.jobs[i]))
  {}

  lemma {:induction false} CancelJobsWindsDown(db: Db, now: Time, r: RunId, n: nat)
    requires db.WellFormed() && n <= |db.jobs| && now != NEVER
    ensures var db' := CancelJobs(db, now, r, n);
      && db'.runs == db.runs
      && (forall j :: 0 <= j < |db.jobs| ==> db'.jobs[j].run == db.jobs[j].run)
      && (forall j :: 0 <= j < n && db'.jobs[j].run == r ==> Winding(db'.jobs[j]))
  {
    if n > 0 {
      CancelJobsWindsDown(db, now, r, n - 1);
      CancelOneWinds(CancelJobs(db, now, r, n - 1), now, r, n - 1);
    }
  }

  function CancelTx(db: Db, now: Time, r: RunId): (Db, Reply)
    requires db.WellFormed() && now != NEVER
  {
    if r >= |db.runs| then (db, NotFound)
    else if db.runs[r].state.Terminal() then (db, RunOver)
    else if CancelRequested(db, r) then (db, Accepted)
    else
      var d := CancelJobs(db, now, r, |db.jobs|);
      CancelJobsWindsDown(db, now, r, |db.jobs|);
      (Advance(Do(d, now, AskRunCancel(r)), now, r), Accepted)
  }

  // Tick.

  /** An expired lease: requeue below the attempt cap with no cancel pending, else fail and advance. */
  function ExpireOne(db: Db, now: Time, i: JobId): (db': Db)
    requires db.WellFormed() && i < |db.jobs|
    ensures db'.WellFormed() && |db'.jobs| == |db.jobs| && |db'.runs| == |db.runs|
  {
    if !Selects(ListExpired(now), db.jobs[i]) then db
    else if MayRetry(db.jobs[i], LostRunner) then WellFormedDo(db, now, Requeue(i, LostRunner));
      Do(db, now, Requeue(i, LostRunner))
    else
      AdvanceShape(db, now, Finish(i, Failed, LostRunner, None));
      Resolved(db, now, Finish(i, Failed, LostRunner, None))
  }

  lemma AdvanceShape(db: Db, now: Time, op: Op)
    requires db.WellFormed() && Enabled(db, op) && (op.Finish? || op.Requeue?)
    ensures var db' := Resolved(db, now, op); db'.WellFormed() && |db'.jobs| == |db.jobs| && |db'.runs| == |db.runs|
  {
    WellFormedDo(db, now, op);
    var d := Settle(Do(db, now, op), now, db.jobs[op.j].run);
    var r := db.jobs[op.j].run;
    if AllTerminal(d.jobs, r) && !d.runs[r].state.Terminal() { WellFormedDo(d, now, FinishRun(r)); }
  }

  function ExpireAll(db: Db, now: Time, ids: seq<JobId>): (db': Db)
    requires db.WellFormed() && Within(ids, |db.jobs|)
    ensures db'.WellFormed() && |db'.jobs| == |db.jobs| && |db'.runs| == |db.runs|
  {
    if ids == [] then db else ExpireOne(ExpireAll(db, now, ids[..|ids| - 1]), now, ids[|ids| - 1])
  }

  /** The timeout backstop for one job. */
  predicate Overdue(row: Job, now: Time, grace: Time) {
    row.timeout > 0 && row.startedAt != NEVER && row.startedAt + row.timeout + grace < now
  }

  function BackstopOne(db: Db, now: Time, grace: Time, i: JobId): (db': Db)
    requires db.WellFormed() && i < |db.jobs|
    ensures db'.WellFormed() && |db'.jobs| == |db.jobs| && |db'.runs| == |db.runs|
  {
    if Selects(ListUncancelled, db.jobs[i]) && Overdue(db.jobs[i], now, grace)
    then WellFormedDo(db, now, AskCancel(i, ByTimeout)); Do(db, now, AskCancel(i, ByTimeout))
    else db
  }

  function BackstopAll(db: Db, now: Time, grace: Time, ids: seq<JobId>): (db': Db)
    requires db.WellFormed() && Within(ids, |db.jobs|)
    ensures db'.WellFormed() && |db'.jobs| == |db.jobs| && |db'.runs| == |db.runs|
  {
    if ids == [] then db else BackstopOne(BackstopAll(db, now, grace, ids[..|ids| - 1]), now, grace, ids[|ids| - 1])
  }

  /** The jobs a tick considers lost: none before the boot's lease grace is over. */
  function Lost(db: Db, now: Time, graceUntil: Time): (ids: seq<JobId>)
    ensures Within(ids, |db.jobs|)
  {
    if now >= graceUntil then Select(ListExpired(now), db.jobs, |db.jobs|) else []
  }

  function TickTx(db: Db, now: Time, graceUntil: Time, timeoutGrace: Time): Db
    requires db.WellFormed()
  {
    var d := ExpireAll(db, now, Lost(db, now, graceUntil));
    BackstopAll(d, now, timeoutGrace, Select(ListUncancelled, d.jobs, |d.jobs|))
  }

  // AppendLogs.

  predicate ValidChunks(chunks: seq<Chunk>) { forall i :: 0 <= i < |chunks| ==> chunks[i].no >= 1 }

  function AppendLogsTx(db: Db, now: Time, cap: nat, j: JobId, n: int, chunks: seq<Chunk>): (Db, Reply) {
    if !ValidChunks(chunks) then (db, Invalid)
    else if !db.HasJob(j) then (db, NotFound)
    else if !db.jobs[j].Live(n) then (db, Fenced)
    else (Do(db, now, AppendLog(j, cap, chunks)), Accepted)
  }

  // Submission.

  function ItemsOf(spec: Spec): (items: seq<Item>)
    ensures |items| == |spec|
    ensures forall i ::
      0 <= i < |spec| ==> items[i] == Item(spec[i].labels, Defaulted(spec[i]).timeout, Resolve(spec)[i])
  {
    seq(|spec|, i requires 0 <= i < |spec| => Item(spec[i].labels, Defaulted(spec[i]).timeout, Resolve(spec)[i]))
  }

  lemma AcceptedIsEnabled(db: Db, spec: Spec, maxAttempts: nat)
    requires Accepts(spec) && maxAttempts > 0
    ensures Enabled(db, Create(ItemsOf(spec), maxAttempts))
  {
    ResolveValid(spec);
    assert NeedsOf(ItemsOf(spec)) == Resolve(spec);
  }

  ghost function SubmitTx(db: Db, now: Time, maxAttempts: nat, spec: Spec): (Db, Reply)
    requires maxAttempts > 0
  {
    if Accepts(spec) then AcceptedIsEnabled(db, spec, maxAttempts);
      (Do(db, now, Create(ItemsOf(spec), maxAttempts)), Accepted)
    else (db, Invalid)
  }
}
