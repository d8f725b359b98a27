/** What the requests promise together, over whole runs of the system. */
module Promises {
  import opened Model
  import opened Ops
  import opened Invariants
  import opened Transactions
  import opened Pipelines
  import opened System
  import opened Lifecycle
  import opened Effects
  import P = Progress
  import Dispatch

  // Declared needs.

  lemma {:induction false} DoAllKeepsEdges(db: Db, now: Time, ops: seq<Op>)
    requires EnabledAll(db, now, ops)
    ensures db.deps <= DoAll(db, now, ops).deps
    decreases |ops|
  {
    if ops != [] {
      RowsFollow(db, now, ops[0]);
      DoAllKeepsEdges(Do(db, now, ops[0]), now, ops[1..]);
    }
  }

  /** Edges stay as stored. */
  lemma {:induction false} ExecKeepsEdges(w: World, steps: seq<Step>)
    requires Ok(w)
    ensures w.db.deps <= Exec(w, steps).db.deps
    decreases |steps|
  {
    if steps != [] {
      StepFollows(w, steps[0]);
      var ops :| EnabledAll(w.db, w.now, ops) && DoAll(w.db, w.now, ops) == Apply(w, steps[0]).0.db;
      DoAllKeepsEdges(w.db, w.now, ops);
      StepOk(w, steps[0]);
      ExecKeepsEdges(Apply(w, steps[0]).0, steps[1..]);
    }
  }

  /** Every job that job `i` of the submission names in `needs` has succeeded. */
  ghost predicate NeedsMet(spec: Spec, base: JobId, jobs: seq<Job>, i: nat)
    requires i < |spec| && base + |spec| <= |jobs|
  {
    forall a :: 0 <= a < |spec| && spec[a].name in spec[i].needs ==> jobs[base + a].state.Succeeded?
  }

  /** One of them never will. */
  ghost predicate NeedLost(spec: Spec, base: JobId, jobs: seq<Job>, i: nat)
    requires i < |spec| && base + |spec| <= |jobs|
  {
    exists a :: 0 <= a < |spec| && spec[a].name in spec[i].needs
                && (jobs[base + a].state.Failed? || jobs[base + a].state.Cancelled? || jobs[base + a].state.Skipped?)
  }

  /** What a job's state says of the jobs it needs, unless it was cancelled. */
  ghost predicate FollowsNeeds(spec: Spec, base: JobId, jobs: seq<Job>, i: nat)
    requires i < |spec| && base + |spec| <= |jobs|
  {
    match jobs[base + i].state
    case Cancelled => true
    case Pending => !NeedsMet(spec, base, jobs, i) && !NeedLost(spec, base, jobs, i)
    case Skipped => NeedLost(spec, base, jobs, i)
    case _ => NeedsMet(spec, base, jobs, i)
  }

  lemma MetIffSucceeded(spec: Spec, base: JobId, jobs: seq<Job>, i: nat, edges: seq<JobId>)
    requires i < |spec| && base + |spec| <= |jobs| && EdgesOf(spec, base, i, edges)
    ensures Within(edges, |jobs|) && (NeedsMet(spec, base, jobs, i) <==> AllSucceeded(jobs, edges))
  {
    if AllSucceeded(jobs, edges) {
      forall a | 0 <= a < |spec| && spec[a].name in spec[i].needs ensures jobs[base + a].state.Succeeded? {
        var k :| 0 <= k < |edges| && edges[k] == base + a;
      }
    }
    if NeedsMet(spec, base, jobs, i) {
      forall k | 0 <= k < |edges| ensures jobs[edges[k]].state.Succeeded? { EdgeNames(spec, base, i, edges, k); }
    }
  }

  lemma EdgeNames(spec: Spec, base: JobId, i: nat, edges: seq<JobId>, k: nat)
    requires i < |spec| && EdgesOf(spec, base, i, edges) && k < |edges|
    ensures base <= edges[k] < base + |spec| && spec[edges[k] - base].name in spec[i].needs
  {
    assert base + (edges[k] - base) in edges;
  }

  lemma LostIffDead(spec: Spec, base: JobId, jobs: seq<Job>, i: nat, edges: seq<JobId>)
    requires i < |spec| && base + |spec| <= |jobs| && EdgesOf(spec, base, i, edges)
    ensures Within(edges, |jobs|) && (NeedLost(spec, base, jobs, i) <==> AnyDead(jobs, edges))
  {
    if NeedLost(spec, base, jobs, i) {
      var a :| 0 <= a < |spec| && spec[a].name in spec[i].needs
        && (jobs[base + a].state.Failed? || jobs[base + a].state.Cancelled? || jobs[base + a].state.Skipped?);
      var k :| 0 <= k < |edges| && edges[k] == base + a;
      assert jobs[edges[k]].state.Dead();
    }
    if AnyDead(jobs, edges) {
      var k :| 0 <= k < |edges| && jobs[edges[k]].state.Dead();
      EdgeNames(spec, base, i, edges, k);
    }
  }

  /**
   Submit anything acceptable in any reachable state, and let anything at all happen: as long as a job is not
   cancelled it is pending exactly while its declared needs are undecided, skipped exactly when one of them
   failed or was cancelled or skipped, and past pending - queued, running or over - exactly when all of them
   succeeded.
   */
  lemma JobsFollowDeclaredNeeds(w: World, spec: Spec, steps: seq<Step>, i: nat)
    requires Reachable(w) && Ok(w) && Accepts(spec) && i < |spec|
    ensures Ok(Apply(w, Submit(spec)).0)
    ensures var base, jobs := |w.db.jobs|, Exec(Apply(w, Submit(spec)).0, steps).db.jobs;
      base + |spec| <= |jobs| && FollowsNeeds(spec, base, jobs, i)
  {
    SubmitStores(w, spec);
    SubmittedQuiet(w, spec);
    var w1 := Apply(w, Submit(spec)).0;
    FollowsFrom(w, spec, w1, steps, i, Exec(w1, steps).db);
  }

  lemma FollowsFrom(w: World, spec: Spec, w1: World, steps: seq<Step>, i: nat, db: Db)
    requires Ok(w1) && P.Quiet(w1.db) && StoredAs(spec, w, w1.db) && i < |spec| && db == Exec(w1, steps).db
    ensures |w.db.jobs| + |spec| <= |db.jobs| && FollowsNeeds(spec, |w.db.jobs|, db.jobs, i)
  {
    var edges := EdgesLast(w, spec, w1, steps, i, db);
    QuietLast(w1, steps, db);
    FollowsWhenQuiet(spec, |w.db.jobs|, db, i, edges);
  }

  lemma SubmittedQuiet(w: World, spec: Spec)
    requires Reachable(w)
    ensures Ok(w) && Ok(Apply(w, Submit(spec)).0) && P.Quiet(Apply(w, Submit(spec)).0.db)
  {
    P.ReachableQuiet(w);
    StepOk(w, Submit(spec));
    P.StepQuiet(w, Submit(spec));
  }

  lemma EdgesLast(w: World, spec: Spec, w1: World, steps: seq<Step>, i: nat, db: Db) returns (edges: seq<JobId>)
    requires Ok(w1) && StoredAs(spec, w, w1.db) && i < |spec| && db == Exec(w1, steps).db
    ensures var base := |w.db.jobs|;
      base + |spec| <= |db.jobs| && |db.deps| == |db.jobs| && db.deps[base + i] == edges
        && EdgesOf(spec, base, i, edges)
  {
    edges := w1.db.deps[|w.db.jobs| + i];
    ExecKeepsEdges(w1, steps);
    ExecLater(w1, steps);
  }

  lemma QuietLast(w1: World, steps: seq<Step>, db: Db)
    requires Ok(w1) && P.Quiet(w1.db) && db == Exec(w1, steps).db
    ensures Inv(db) && P.Quiet(db)
  {
    P.ExecQuiet(w1, steps);
  }

  lemma FollowsWhenQuiet(spec: Spec, base: JobId, db: Db, i: nat, edges: seq<JobId>)
    requires Inv(db) && P.Quiet(db) && i < |spec| && base + |spec| <= |db.jobs|
    requires EdgesOf(spec, base, i, edges) && edges == db.deps[base + i]
    ensures FollowsNeeds(spec, base, db.jobs, i)
  {
    MetIffSucceeded(spec, base, db.jobs, i, edges);
    LostIffDead(spec, base, db.jobs, i, edges);
    assert NeedsOk(db, base + i) && P.Settled(db, db.jobs[base + i].run);
  }

  // The queue.

  /** How a row relates to the queue from clock `t` on. */
  ghost predicate LineUp(o: Job, n: Job, t: Time) {
    && (n.queuedAt == o.queuedAt || n.queuedAt >= t)
    && (!o.state.Queued? && n.state.Queued? ==> n.queuedAt >= t)
    && (o.state.Queued? && n.state.Queued? && n.attempt == o.attempt ==> n == o)
    && (o.state.Queued? && n.attempt == o.attempt ==> n == o || n.state.Terminal())
    && (o.state.Terminal() ==> n == o) && o.attempt <= n.attempt
  }

  lemma StepLinesUp(o: Job, n: Job, now: Time, t: Time)
    requires JobStep(o, n, now) && t <= now
    ensures LineUp(o, n, t)
  {}

  lemma LineUpOn(a: Job, b: Job, c: Job, t: Time, t': Time)
    requires LineUp(a, b, t) && LineUp(b, c, t') && t <= t'
    ensures LineUp(a, c, t)
  {}

  lemma LineUpSame(o: Job, t: Time)
    ensures LineUp(o, o, t)
  {}

  ghost predicate RowsLineUp(db: Db, t: Time, db': Db) {
    && |db.jobs| <= |db'.jobs|
    && (forall j :: 0 <= j < |db.jobs| ==> LineUp(db.jobs[j], db'.jobs[j], t))
    && (forall j :: |db.jobs| <= j < |db'.jobs| ==> db'.jobs[j].queuedAt >= t)
  }

  lemma RowsLineUpOn(a: Db, b: Db, c: Db, t: Time, t': Time)
    requires RowsLineUp(a, t, b) && RowsLineUp(b, t', c) && t <= t'
    ensures RowsLineUp(a, t, c)
  {
    forall j | 0 <= j < |a.jobs| ensures LineUp(a.jobs[j], c.jobs[j], t) {
      LineUpOn(a.jobs[j], b.jobs[j], c.jobs[j], t, t');
    }
    forall j | |a.jobs| <= j < |c.jobs| ensures c.jobs[j].queuedAt >= t {
      if j < |b.jobs| { assert LineUp(b.jobs[j], c.jobs[j], t'); }
    }
  }

  lemma DoLinesUp(db: Db, now: Time, op: Op)
    requires Enabled(db, op)
    ensures RowsLineUp(db, now, Do(db, now, op))
  {
    RowsFollow(db, now, op);
    var d := Do(db, now, op);
    forall j | 0 <= j < |db.jobs| ensures LineUp(db.jobs[j], d.jobs[j], now) {
      if d.jobs[j] != db.jobs[j] { StepLinesUp(db.jobs[j], d.jobs[j], now, now); }
    }
  }

  lemma {:induction false} DoAllLinesUp(db: Db, now: Time, ops: seq<Op>)
    requires EnabledAll(db, now, ops)
    ensures RowsLineUp(db, now, DoAll(db, now, ops))
    decreases |ops|
  {
    if ops != [] {
      DoLinesUp(db, now, ops[0]);
      DoAllLinesUp(Do(db, now, ops[0]), now, ops[1..]);
      RowsLineUpOn(db, Do(db, now, ops[0]), DoAll(db, now, ops), now, now);
    }
  }

  lemma StepLinesUpAll(w: World, s: Step)
    requires Ok(w)
    ensures RowsLineUp(w.db, w.now, Apply(w, s).0.db) && w.now <= Apply(w, s).0.now
  {
    StepFollows(w, s);
    var ops :| EnabledAll(w.db, w.now, ops) && DoAll(w.db, w.now, ops) == Apply(w, s).0.db;
    DoAllLinesUp(w.db, w.now, ops);
  }

  /** Whoever joins the queue later joins behind: it is stamped with the clock of that moment or a later one. */
  lemma {:induction false} ExecLinesUp(w: World, steps: seq<Step>)
    requires Ok(w)
    ensures RowsLineUp(w.db, w.now, Exec(w, steps).db) && w.now <= Exec(w, steps).now
    decreases |steps|
  {
    if steps == [] {
      forall j | 0 <= j < |w.db.jobs| ensures LineUp(w.db.jobs[j], w.db.jobs[j], w.now) {
        LineUpSame(w.db.jobs[j], w.now);
      }
    } else {
      StepOk(w, steps[0]);
      StepLinesUpAll(w, steps[0]);
      var w1 := Apply(w, steps[0]).0;
      ExecLinesUp(w1, steps[1..]);
      RowsLineUpOn(w.db, w1.db, Exec(w, steps).db, w.now, w1.now);
    }
  }

  /**
   No overtaking. Job `i` waits in the queue, queued before the present moment, and job `j` does not wait there -
   it is pending, running or not even submitted. Whatever happens: as long as `i` still waits for the same attempt,
   no poll whose labels fit `i` is granted `j`.
   */
  lemma NoOvertaking(w: World, steps: seq<Step>, i: JobId, j: JobId, runner: RunnerId, labels: Labels)
    requires Ok(w) && i < |w.db.jobs| && w.db.jobs[i].state.Queued? && w.db.jobs[i].queuedAt < w.now
    requires i != j && (j < |w.db.jobs| ==> !w.db.jobs[j].state.Queued?)
    requires LabelsSubset(w.db.jobs[i].labels, labels)
    ensures var w2 := Exec(w, steps);
      && i < |w2.db.jobs|
      && (w2.db.jobs[i].state.Queued? && w2.db.jobs[i].attempt == w.db.jobs[i].attempt ==>
            var reply := Apply(w2, Poll(runner, labels)).1; !(reply.Granted? && reply.job == j))
  {
    var w2 := Exec(w, steps);
    ExecLinesUp(w, steps);
    var reply := Apply(w2, Poll(runner, labels)).1;
    if w2.db.jobs[i].state.Queued? && w2.db.jobs[i].attempt == w.db.jobs[i].attempt && reply.Granted? {
      assert LineUp(w.db.jobs[i], w2.db.jobs[i], w.now);
      ClaimStarts(w2, runner, labels);
      Dispatch.ClaimTakesOldestFit(w2, runner, labels);
      if reply.job == j && j < |w.db.jobs| { assert LineUp(w.db.jobs[j], w2.db.jobs[j], w.now); }
      assert Dispatch.Fits(w2.db, labels, i);
    }
  }

  // The timeout.

  /** Any report of an attempt the backstop asked to stop ends its job; a report of the cancel ends it as timed out. */
  ghost predicate EndsAsTimeout(row': Job, res: Result) {
    && row'.state.Terminal()
    && (res.status.StatusFailed? && res.kind.CancelKind? ==> row'.state.Failed? && row'.failure.TimedOut?)
  }

  /** What a tick does to an attempt past its timeout and the grace lasts until the attempt ends. */
  lemma OverdueIsAsked(w: World, j: JobId, n: nat, steps: seq<Step>)
    requires Ok(w) && w.db.Live(j, n) && w.db.jobs[j].cancelAt == NEVER && w.db.jobs[j].timeout > 0
    requires w.db.jobs[j].startedAt + w.db.jobs[j].timeout + w.cfg.timeoutGrace < w.now
    requires w.now < w.graceUntil || w.now <= w.db.jobs[j].lease
    ensures var w1 := Apply(w, Tick).0; Ok(w1) && w1.db.Live(j, n)
    ensures var w2 := Exec(Apply(w, Tick).0, steps);
      w2.db.Live(j, n) ==> w2.db.jobs[j].cancelAt == w.now && w2.db.jobs[j].reason.ByTimeout?
  {
    TickTakesOrAsks(w, j);
    StepOk(w, Tick);
    ExecLater(Apply(w, Tick).0, steps);
  }

  /**
   A timeout is enforced. A tick finds a running attempt past its own timeout and the grace. From then on, whatever
   happens, as long as the attempt runs: every heartbeat of its runner that names it is answered with cancel; and any
   valid report of it ends the job for good, as timed out if the report is of the cancel.
   */
  lemma TimeoutIsEnforced(w: World, j: JobId, n: nat, steps: seq<Step>, refs: seq<JobRef>, i: nat, res: Result)
    requires Ok(w) && w.db.Live(j, n) && w.db.jobs[j].cancelAt == NEVER && w.db.jobs[j].timeout > 0
    requires w.db.jobs[j].startedAt + w.db.jobs[j].timeout + w.cfg.timeoutGrace < w.now
    requires w.now < w.graceUntil || w.now <= w.db.jobs[j].lease
    requires i < |refs| && refs[i] == JobRef(j, n)
    ensures Ok(Apply(w, Tick).0)
    ensures var w2 := Exec(Apply(w, Tick).0, steps);
      w2.db.Live(j, n) ==>
        var beat := Apply(w2, Heartbeat(w2.db.jobs[j].runner, refs)).1;
        var (w3, reply) := Apply(w2, Complete(j, n, res));
        && beat.Directives? && i < |beat.all| && beat.all[i].CancelIt?
        && (!reply.Invalid? ==> j < |w3.db.jobs| && EndsAsTimeout(w3.db.jobs[j], res))
  {
    OverdueIsAsked(w, j, n, steps);
    var w2 := Exec(Apply(w, Tick).0, steps);
    if w2.db.Live(j, n) {
      assert JobOk(w2.db.jobs[j]);
      HeartbeatRenews(w2, w2.db.jobs[j].runner, refs);
      assert Answer(w2.db.jobs, w2.db.jobs[j].runner, refs[i]) == CancelIt;
      if !Apply(w2, Complete(j, n, res)).1.Invalid? { CompleteSettlesRow(w2, j, n, res); }
    }
  }
}
