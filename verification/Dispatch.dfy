/** Which job a claim takes, and two places where the code is more lenient than its description. */
module Dispatch {
  import opened Model
  import opened Ops
  import opened Invariants
  import opened Transactions
  import opened Pipelines
  import Graphs
  import opened System
  import opened Progress

  // Claim order.

  /** Job `j` was queued before job `i`; ties by row id. */
  predicate QueuedBefore(jobs: seq<Job>, j: JobId, i: JobId)
    requires j < |jobs| && i < |jobs|
  {
    jobs[j].queuedAt < jobs[i].queuedAt || (jobs[j].queuedAt == jobs[i].queuedAt && j < i)
  }

  predicate Fits(db: Db, labels: Labels, j: JobId)
    requires db.HasJob(j)
  {
    db.jobs[j].state.Queued? && LabelsSubset(db.jobs[j].labels, labels)
  }

  lemma {:induction false} FirstFitIsFirst(jobs: seq<Job>, ids: seq<JobId>, labels: Labels)
    requires Within(ids, |jobs|)
    ensures match FirstFit(jobs, ids, labels)
      case None => forall k :: 0 <= k < |ids| ==> !LabelsSubset(jobs[ids[k]].labels, labels)
      case Some(j) => exists k :: 0 <= k < |ids| && ids[k] == j && LabelsSubset(jobs[j].labels, labels)
                                  && forall i :: 0 <= i < k ==> !LabelsSubset(jobs[ids[i]].labels, labels)
  {
    if ids != [] {
      if LabelsSubset(jobs[ids[0]].labels, labels) {
        assert ids[0] == FirstFit(jobs, ids, labels).value;
      } else {
        FirstFitIsFirst(jobs, ids[1..], labels);
        var rest := FirstFit(jobs, ids[1..], labels);
        if rest.Some? {
          var k :| 0 <= k < |ids[1..]| && ids[1..][k] == rest.value && forall i ::
            0 <= i < k ==> !LabelsSubset(jobs[ids[1..][i]].labels, labels);
          forall i | 0 <= i < k + 1 ensures !LabelsSubset(jobs[ids[i]].labels, labels) {
            if i > 0 { assert ids[i] == ids[1..][i - 1]; }
          }
          assert ids[k + 1] == rest.value;
        } else {
          forall k | 0 <= k < |ids| ensures !LabelsSubset(jobs[ids[k]].labels, labels) {
            if k > 0 { assert ids[k] == ids[1..][k - 1]; }
          }
        }
      }
    }
  }

  /** The first fitting entry of the queue is queued before every other fitting job. */
  lemma CandidateIsOldest(db: Db, labels: Labels, j: JobId, i: JobId)
    requires Candidate(db, labels) == Some(j) && i < |db.jobs| && i != j && Fits(db, labels, i)
    ensures QueuedBefore(db.jobs, j, i)
  {
    var ids := Select(ListQueued, db.jobs, |db.jobs|);
    SelectMembers(ListQueued, db.jobs, |db.jobs|);
    ListingOrders(db.jobs, 0, ids, Select(ListExpired(0), db.jobs, |db.jobs|),
      Select(ListUncancelled, db.jobs, |db.jobs|));
    FirstFitIsFirst(db.jobs, ids, labels);
    var k :| 0 <= k < |ids| && ids[k] == j && forall i :: 0 <= i < k ==> !LabelsSubset(db.jobs[ids[i]].labels, labels);
    assert i in ids;
    var a :| 0 <= a < |ids| && ids[a] == i;
    assert k < a && db.jobs[ids[k]] == db.jobs[j] && db.jobs[ids[a]] == db.jobs[i];
  }

  lemma CandidateFits(db: Db, labels: Labels, j: JobId)
    requires Candidate(db, labels) == Some(j)
    ensures db.HasJob(j) && Fits(db, labels, j)
  {
    FirstFitIsFirst(db.jobs, Select(ListQueued, db.jobs, |db.jobs|), labels);
  }

  lemma NoCandidateNoFit(db: Db, labels: Labels, i: JobId)
    requires Candidate(db, labels).None? && i < |db.jobs|
    ensures !Fits(db, labels, i)
  {
    var ids := Select(ListQueued, db.jobs, |db.jobs|);
    SelectMembers(ListQueued, db.jobs, |db.jobs|);
    FirstFitIsFirst(db.jobs, ids, labels);
    if db.jobs[i].state.Queued? {
      assert i in ids;
      var a :| 0 <= a < |ids| && ids[a] == i;
    }
  }

  /** No other job that fits was queued before `j`. */
  ghost predicate OldestFit(db: Db, labels: Labels, j: JobId) {
    && db.HasJob(j) && Fits(db, labels, j)
    && forall i :: 0 <= i < |db.jobs| && i != j && Fits(db, labels, i) ==> QueuedBefore(db.jobs, j, i)
  }

  lemma CandidateIsOldestFit(db: Db, labels: Labels)
    ensures match Candidate(db, labels)
      case Some(j) => OldestFit(db, labels, j)
      case None => forall i :: 0 <= i < |db.jobs| ==> !Fits(db, labels, i)
  {
    var c := Candidate(db, labels);
    if c.Some? {
      CandidateFits(db, labels, c.value);
      forall i | 0 <= i < |db.jobs| && i != c.value && Fits(db, labels, i)
        ensures QueuedBefore(db.jobs, c.value, i)
      {
        CandidateIsOldest(db, labels, c.value, i);
      }
    } else {
      forall i | 0 <= i < |db.jobs| ensures !Fits(db, labels, i) { NoCandidateNoFit(db, labels, i); }
    }
  }

  /**
   A claim takes the queued job the runner fits that was queued first, ties by age, and starts its next
   attempt; it comes back empty only when none fits.
   */
  lemma ClaimTakesOldestFit(w: World, runner: RunnerId, labels: Labels)
    requires Ok(w) && runner != NO_RUNNER
    ensures match Apply(w, Poll(runner, labels)).1
      case Granted(j, n) => OldestFit(w.db, labels, j) && n == w.db.jobs[j].attempt + 1
      case _ => forall i :: 0 <= i < |w.db.jobs| ==> !Fits(w.db, labels, i)
  {
    CandidateIsOldestFit(w.db, labels);
  }

  // Labels.

  /** Every required label is there with its value, as the function's description has it. */
  predicate Carries(have: Labels, need: Labels) { forall k :: k in need ==> k in have && have[k] == need[k] }

  /** A label required to be empty that the runner does not have. */
  predicate WantsBlank(have: Labels, need: Labels) { exists k :: k in need && need[k] == "" && k !in have }

  /** The description holds exactly when the code accepts and no blank is wanted that the runner lacks. */
  lemma LabelsAgreeIff(have: Labels, need: Labels)
    ensures Carries(have, need) <==> LabelsSubset(need, have) && !WantsBlank(have, need)
  {}

  lemma BlankLabelMatchesAnyone()
    ensures exists have: Labels, need: Labels :: LabelsSubset(need, have) && !Carries(have, need)
  {
    var have: Labels, need: Labels := map[], map["gpu" := ""];
    assert LabelsSubset(need, have);
    assert "gpu" in need && "gpu" !in have;
  }

  // Late reports.

  /** The attempt ran to an end of its own. */
  predicate EndedRunning(row: Job, n: nat) { row.attempt == n && row.state.Terminal() && row.startedAt != NEVER }

  /**
   A report at a granted attempt that is not the running one is answered as a duplicate of a finished one
   exactly when it is one - except for an attempt that was requeued and whose job was then cancelled in
   the queue, which is answered the same way.
   */
  lemma DuplicateAnswerIff(w: World, j: JobId, n: nat, res: Result)
    requires Ok(w) && w.db.HasJob(j) && 0 < n <= w.db.jobs[j].attempt && !w.db.Live(j, n) && ValidResult(res)
    ensures var (w', reply) := Apply(w, Complete(j, n, res)); var row := w.db.jobs[j];
      && w' == w && (reply.Accepted? || reply.Fenced?)
      && (reply.Accepted? <==>
            EndedRunning(row, n) || (row.attempt == n && row.state.Cancelled? && row.startedAt == NEVER))
  {
    assert JobOk(w.db.jobs[j]);
  }

  lemma CancelQueued(db: Db, now: Time, r: RunId, j: JobId)
    requires Inv(db) && now != NEVER && j < |db.jobs| && db.jobs[j].run == r && db.jobs[j].state.Queued?
    ensures var d := CancelTx(db, now, r).0; j < |d.jobs| && d.jobs[j] == CancelledEarly(db.jobs[j], now)
  {
    StillOpen(db, r, j);
    CancelJobsRow(db, now, r, |db.jobs|, CancelJobs(db, now, r, |db.jobs|), j);
    CancelJobsWindsDown(db, now, r, |db.jobs|);
    var d := CancelJobs(db, now, r, |db.jobs|);
    WellFormedDo(d, now, AskRunCancel(r));
    AdvanceClosedForm(Do(d, now, AskRunCancel(r)), now, r, j);
  }

  /** A run with a queued job is neither over nor being cancelled. */
  lemma StillOpen(db: Db, r: RunId, j: JobId)
    requires Inv(db) && j < |db.jobs| && db.jobs[j].run == r && db.jobs[j].state.Queued?
    ensures r < |db.runs| && !db.runs[r].state.Terminal() && !CancelRequested(db, r)
  {
    assert RunOk(db, r);
  }

  lemma GivenBack(w: World, j: JobId, n: nat, res: Result)
    requires Ok(w) && w.db.Live(j, n) && MayRetry(w.db.jobs[j], res.kind) && res.status.StatusFailed? && res.kind.Infra?
    ensures var d := Apply(w, Complete(j, n, res)).0.db; j < |d.jobs| && d.jobs[j] == Requeued(w.db.jobs[j], w.now)
  {
    CompleteSettles(w, j, n, res);
  }

  /**
   A report that the attempt was cancelled ends the job as cancelled whether or not anyone asked for it;
   only a request by the timeout backstop makes it a timeout instead.
   */
  lemma CancelReportNeedsNoRequest(w: World, j: JobId, n: nat, res: Result)
    requires Ok(w) && w.db.Live(j, n) && res.status.StatusFailed? && res.kind.CancelKind?
    ensures var d := Apply(w, Complete(j, n, res)).0.db;
      && j < |d.jobs| && d.jobs[j].state.Terminal()
      && (d.jobs[j].state.Cancelled? <==> !w.db.jobs[j].reason.ByTimeout?)
      && (d.jobs[j].failure.TimedOut? <==> w.db.jobs[j].reason.ByTimeout?)
  {
    CompleteSettles(w, j, n, res);
  }

  lemma LateAnswer(w: World, j: JobId, n: nat, late: Result)
    requires Ok(w) && w.db.HasJob(j) && w.db.jobs[j].attempt == n && w.db.jobs[j].state.Cancelled?
      && w.db.jobs[j].startedAt == NEVER && ValidResult(late)
    ensures Apply(w, Complete(j, n, late)) == (w, Accepted) && !EndedRunning(w.db.jobs[j], n)
  {}

  lemma CancelledInQueue(w: World, j: JobId) returns (w': World)
    requires Ok(w) && w.db.HasJob(j) && w.db.jobs[j].state.Queued?
    ensures w' == Apply(w, CancelRun(w.db.jobs[j].run)).0 && Ok(w')
    ensures w'.db.HasJob(j) && w'.db.jobs[j] == CancelledEarly(w.db.jobs[j], w.now)
  {
    w' := Apply(w, CancelRun(w.db.jobs[j].run)).0;
    StepOk(w, CancelRun(w.db.jobs[j].run));
    CancelQueued(w.db, w.now, w.db.jobs[j].run, j);
  }

  /** Such attempts exist: whenever a live attempt is given back and its run is cancelled before anyone claims it. */
  lemma RequeuedThenCancelled(w: World, j: JobId, n: nat, res: Result, late: Result) returns (w1: World, w2: World)
    requires Ok(w) && w.db.Live(j, n) && MayRetry(w.db.jobs[j], res.kind) && res.status.StatusFailed?
      && res.kind.Infra? && ValidResult(late)
    ensures w1 == Apply(w, Complete(j, n, res)).0 && Ok(w1)
    ensures w1.db.HasJob(j) && w2 == Apply(w1, CancelRun(w1.db.jobs[j].run)).0 && Ok(w2)
    ensures w2.db.HasJob(j) && w2.db.jobs[j].attempt == n && !EndedRunning(w2.db.jobs[j], n)
    ensures Apply(w2, Complete(j, n, late)) == (w2, Accepted)
  {
    StepOk(w, Complete(j, n, res));
    GivenBack(w, j, n, res);
    w1 := Apply(w, Complete(j, n, res)).0;
    w2 := CancelledInQueue(w1, j);
    LateAnswer(w2, j, n, late);
  }

  // A live attempt that may be retried does arise.

  lemma OneJobAccepted(d: JobSpec)
    requires d.name.text != "" && d.needs == [] && DetailsOk(d)
    ensures Accepts([d]) && Resolve([d]) == [[]]
  {
    var spec := [d];
    assert DeclarationOk(spec, 0);
    forall S: set<nat> | S != {} && (forall i :: i in S ==> i < |Resolve(spec)|)
      ensures Graphs.HasMinimal(Resolve(spec), S)
    {
      var i :| i in S;
      assert Resolve(spec)[i] == [];
    }
  }

  lemma OneJobSubmitted(w0: World, d: JobSpec) returns (w1: World)
    requires Initial(w0) && Ok(w0) && d.name.text != "" && d.needs == [] && DetailsOk(d)
    ensures w1 == Apply(w0, Submit([d])).0 && Ok(w1) && w1.cfg == w0.cfg
    ensures |w1.db.jobs| == 1 && w1.db.jobs[0].state.Queued? && w1.db.jobs[0].labels == d.labels
      && w1.db.jobs[0].attempt == 0 && w1.db.jobs[0].maxAttempts == w0.cfg.maxAttempts
      && w1.db.jobs[0].cancelAt == NEVER
  {
    OneJobAccepted(d);
    StepOk(w0, Submit([d]));
    w1 := Apply(w0, Submit([d])).0;
    assert ItemsOf([d])[0].needs == [];
  }

  lemma OnlyJobClaimed(w1: World, runner: RunnerId) returns (w: World)
    requires Ok(w1) && |w1.db.jobs| == 1 && w1.db.jobs[0].state.Queued? && runner != NO_RUNNER
    ensures w == Apply(w1, Poll(runner, w1.db.jobs[0].labels)).0 && Ok(w)
    ensures w.db.jobs == [Claimed(w1.db.jobs[0], runner, w1.now + w1.cfg.ttl, w1.now)]
  {
    var labels := w1.db.jobs[0].labels;
    StepOk(w1, Poll(runner, labels));
    CandidateIsOldestFit(w1.db, labels);
    assert Fits(w1.db, labels, 0);
    w := Apply(w1, Poll(runner, labels)).0;
  }

  /** In every deployment that allows retries: submit any valid job without needs, and let any runner that fits poll. */
  lemma RetryableAttemptExists(w0: World, d: JobSpec, runner: RunnerId) returns (w: World)
    requires Initial(w0) && Ok(w0) && w0.cfg.maxAttempts > 1
    requires d.name.text != "" && d.needs == [] && DetailsOk(d) && runner != NO_RUNNER
    ensures w == Exec(w0, [Submit([d]), Poll(runner, d.labels)]) && Reachable(w) && Ok(w)
    ensures w.db.Live(0, 1) && w.db.jobs[0].runner == runner && MayRetry(w.db.jobs[0], Infra)
  {
    var w1 := OneJobSubmitted(w0, d);
    w := OnlyJobClaimed(w1, runner);
    var steps := [Submit([d]), Poll(runner, d.labels)];
    assert steps[1..] == [Poll(runner, d.labels)] && steps[1..][1..] == [];
    assert Exec(w, []) == w && Exec(w1, steps[1..]) == w;
  }
}
