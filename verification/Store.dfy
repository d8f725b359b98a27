/**
 The store's tables and its guarded primitives: each UPDATE states the row it expects and reports whether it
 found it.
 */
module Stores {
  import opened Model
  import opened Ingest

  class Store {
    var runs: seq<Run>
    var jobs: seq<Job>
    var deps: seq<seq<JobId>>
    var events: seq<Event>
    var logs: map<AttemptKey, seq<Chunk>>
    var clock: Time

    constructor (clock: Time)
      ensures View() == Db([], [], [], [], map[]) && this.clock == clock
    {
      runs, jobs, deps, events, logs := [], [], [], [], map[];
      this.clock := clock;
    }

    function View(): Db
      reads this
    {
      Db(runs, jobs, deps, events, logs)
    }

    method ClaimJob(j: JobId, runner: RunnerId, lease: Time) returns (attempt: nat, ok: bool)
      modifies this`jobs
      ensures ok == (j < |old(jobs)| && old(jobs)[j].state.Queued?)
      ensures ok ==>
        jobs == old(jobs)[j := Claimed(old(jobs)[j], runner, lease, clock)] && attempt == old(jobs)[j].attempt + 1
      ensures !ok ==> jobs == old(jobs)
    {
      if j < |jobs| && jobs[j].state.Queued? {
        jobs := jobs[j := jobs[j].(
                            state := Running, runner := runner, attempt := jobs[j].attempt + 1,
                            lease := lease, startedAt := clock)];
        return jobs[j].attempt, true;
      }
      return 0, false;
    }

    method ExtendLease(j: JobId, attempt: int, runner: RunnerId, lease: Time) returns (ok: bool)
      modifies this`jobs
      ensures ok == (j < |old(jobs)| && old(jobs)[j].Live(attempt) && old(jobs)[j].runner == runner)
      ensures jobs == if ok then old(jobs)[j := Renewed(old(jobs)[j], lease)] else old(jobs)
    {
      ok := j < |jobs| && jobs[j].state.Running? && jobs[j].attempt == attempt && jobs[j].runner == runner;
      if ok { jobs := jobs[j := jobs[j].(lease := lease)]; }
    }

    method FinishJob(j: JobId, attempt: int, to: JobState, kind: FailureKind, exitCode: Option<int>) returns (ok: bool)
      modifies this`jobs
      ensures ok == (j < |old(jobs)| && old(jobs)[j].Live(attempt))
      ensures jobs == if ok then old(jobs)[j := Finished(old(jobs)[j], to, kind, exitCode, clock)] else old(jobs)
    {
      ok := j < |jobs| && jobs[j].state.Running? && jobs[j].attempt == attempt;
      if ok {
        jobs := jobs[j := jobs[j].(
                            state := to, failure := kind, exitCode := exitCode, lease := NEVER, finishedAt := clock)];
      }
    }

    method RequeueJob(j: JobId, attempt: int) returns (ok: bool)
      modifies this`jobs
      ensures ok == (j < |old(jobs)| && old(jobs)[j].Live(attempt))
      ensures jobs == if ok then old(jobs)[j := Requeued(old(jobs)[j], clock)] else old(jobs)
    {
      ok := j < |jobs| && jobs[j].state.Running? && jobs[j].attempt == attempt;
      if ok {
        jobs := jobs[j := jobs[j].(
                            state := Queued, runner := NO_RUNNER, lease := NEVER, startedAt := NEVER, queuedAt :=
                              clock)];
      }
    }

    method TransitionPendingJob(j: JobId, to: JobState) returns (ok: bool, supported: bool)
      modifies this`jobs
      ensures supported == (to.Queued? || to.Skipped?)
      ensures ok == (supported && j < |old(jobs)| && old(jobs)[j].state.Pending?)
      ensures jobs == if !ok then old(jobs)
                      else old(jobs)[j := if to.Queued? then MadeReady(old(jobs)[j], clock)
                        else MadeSkipped(old(jobs)[j], clock)]
    {
      supported, ok := true, false;
      var pending := j < |jobs| && jobs[j].state.Pending?;
      match to {
        case Queued => if pending { jobs := jobs[j := jobs[j].(state := Queued, queuedAt := clock)]; }
        case Skipped => if pending { jobs := jobs[j := jobs[j].(state := Skipped, finishedAt := clock)]; }
        case _ => supported := false;
      }
      ok := supported && pending;
    }

    method CancelJob(j: JobId) returns (ok: bool)
      modifies this`jobs
      ensures ok == (j < |old(jobs)| && (old(jobs)[j].state.Pending? || old(jobs)[j].state.Queued?))
      ensures jobs == if ok then old(jobs)[j := CancelledEarly(old(jobs)[j], clock)] else old(jobs)
    {
      ok := j < |jobs| && (jobs[j].state.Pending? || jobs[j].state.Queued?);
      if ok { jobs := jobs[j := jobs[j].(state := Cancelled, failure := CancelKind, finishedAt := clock)]; }
    }

    method RequestJobCancel(j: JobId, reason: CancelReason) returns (ok: bool)
      modifies this`jobs
      ensures ok == (j < |old(jobs)| && old(jobs)[j].state.Running? && old(jobs)[j].cancelAt == NEVER)
      ensures jobs == if ok then old(jobs)[j := CancelAsked(old(jobs)[j], reason, clock)] else old(jobs)
    {
      ok := j < |jobs| && jobs[j].state.Running? && jobs[j].cancelAt == NEVER;
      if ok { jobs := jobs[j := jobs[j].(cancelAt := clock, reason := reason)]; }
    }

    method SetRunState(r: RunId, from: RunState, to: RunState) returns (ok: bool)
      modifies this`runs
      ensures ok == (r < |old(runs)| && old(runs)[r].state == from)
      ensures runs == if ok then old(runs)[r := RunMoved(old(runs)[r], to, clock)] else old(runs)
    {
      ok := r < |runs| && runs[r].state == from;
      if ok {
        var row := runs[r].(state := to);
        if to.RunRunning? { row := row.(startedAt := clock); }
        if !to.RunRunning? && !to.RunPending? { row := row.(finishedAt := clock); }
        runs := runs[r := row];
      }
    }

    method AppendEvent(e: Event)
      modifies this`events
      ensures events == old(events) + [e]
    {
      events := events + [e];
    }

    /** INSERT OR IGNORE on (job, attempt, seq). */
    method InsertLogChunk(k: AttemptKey, no: int, data: Bytes) returns (inserted: bool)
      modifies this`logs
      ensures inserted == !Has(old(View().Log(k)), no)
      ensures logs == if inserted then old(logs)[k := old(View().Log(k)) + [Chunk(no, data)]] else old(logs)
    {
      var rows := if k in logs then logs[k] else [];
      inserted := forall i :: 0 <= i < |rows| ==> rows[i].no != no;
      if inserted { logs := logs[k := rows + [Chunk(no, data)]]; }
    }
  }
}
