/** One attempt on the runner: what ends it, what is reported about it, and what the server makes of that. */
module Agents {
  import opened Model
  import opened Ops
  import opened Transactions
  import opened System
  import opened Lifecycle
  import opened Progress
  import opened Effects
  import opened Shippers
  import opened Ingest
  import D = Delivery
  import F = Fencing

  /** What can end an attempt's context. Only the first one counts. */
  datatype Signal = AbortSignal | CancelSignal | TimeUp | Shutdown

  datatype Execution = Ran(exitCode: int) | Broke

  /** A fenced upload aborts the attempt itself; `after` signals had reached it by then. */
  datatype Upload = NothingToUpload | Uploaded | UploadFenced(after: nat) | UploadFailed

  /** Everything that happened to an attempt before its verdict, the signals in order of arrival. */
  datatype Attempt =
    | NeverStarted
    | Started(signals: seq<Signal>, execution: Execution, upload: Upload)

  /** The directive's effect on the attempt it names. */
  function SignalOf(d: Directive): Option<Signal> {
    match d
    case Abort => Some(AbortSignal)
    case CancelIt => Some(CancelSignal)
    case Continue => None
  }

  /** What has reached the attempt once it is told `d`, after `earlier`. */
  function Told(earlier: seq<Signal>, d: Directive): seq<Signal> {
    match SignalOf(d)
    case Some(sig) => earlier + [sig]
    case None => earlier
  }

  /** Uploads happen only after a clean exit. */
  predicate Uploads(a: Attempt)
    requires a.Started?
  {
    a.execution == Ran(0) && !a.upload.NothingToUpload?
  }

  /** Everything that cancelled the context, in order: the signals, and the abort of a fenced upload in its place. */
  function Causes(a: Attempt): seq<Signal>
    requires a.Started?
  {
    if Uploads(a) && a.upload.UploadFenced? then
      var k := Min(a.upload.after, |a.signals|);
      a.signals[..k] + [AbortSignal] + a.signals[k..]
    else a.signals
  }

  /** The context's cause is the first of them. */
  function CauseOf(a: Attempt): Option<Signal>
    requires a.Started?
  {
    if Causes(a) == [] then None else Some(Causes(a)[0])
  }

  /** The execution, or the upload after it, failed on the runner's side. */
  predicate Errs(a: Attempt)
    requires a.Started?
  {
    a.execution.Broke? || (Uploads(a) && !a.upload.Uploaded?)
  }

  predicate Aborted(a: Attempt)
    requires a.Started?
  {
    Errs(a) && CauseOf(a) == Some(AbortSignal)
  }

  const INFRA := Result(StatusFailed, Infra, None)

  /** The report, if any: decided by the cause first and the execution second. */
  function Verdict(a: Attempt): Option<Result> {
    if a.NeverStarted? then Some(INFRA)
    else if CauseOf(a) == Some(TimeUp) then Some(Result(StatusFailed, TimedOut, None))
    else if CauseOf(a) == Some(CancelSignal) then Some(Result(StatusFailed, CancelKind, None))
    else if !Errs(a) then
      if a.execution.exitCode == 0 then Some(Result(StatusSucceeded, NoFailure, None))
      else Some(Result(StatusFailed, ExitCode, Some(a.execution.exitCode)))
    else if Aborted(a) then None
    else Some(INFRA)
  }

  /** A runner's report is always one the server takes, and never claims a lost runner. */
  lemma ReportsAreValid(a: Attempt)
    ensures Verdict(a).Some? ==> ValidResult(Verdict(a).value) && !Verdict(a).value.kind.LostRunner?
  {}

  /**
   What is reported, by what happened: silence exactly when the server's refusal cut the work short;
   success exactly when the process exited 0, every upload went through and neither a timeout nor a
   cancel came first - an abort that lost the race against a finished process changes nothing; a timeout or a
   cancel exactly when it came first; the exit code exactly when the process ended by itself with one.
   */
  lemma VerdictByCause(a: Attempt)
    requires a.Started?
    ensures Verdict(a).None? <==> CauseOf(a) == Some(AbortSignal) && Errs(a)
    ensures Verdict(a) == Some(Result(StatusSucceeded, NoFailure, None)) <==>
            a.execution == Ran(0) && (a.upload.NothingToUpload? || a.upload.Uploaded?) &&
            (a.signals == [] || a.signals[0].AbortSignal? || a.signals[0].Shutdown?)
    ensures Verdict(a) == Some(Result(StatusFailed, Infra, None)) <==>
              Errs(a) && (CauseOf(a).None? || CauseOf(a).value.Shutdown?)
    ensures Verdict(a) == Some(Result(StatusFailed, TimedOut, None)) <==> CauseOf(a) == Some(TimeUp)
    ensures Verdict(a) == Some(Result(StatusFailed, CancelKind, None)) <==> CauseOf(a) == Some(CancelSignal)
    ensures forall code :: Verdict(a) == Some(Result(StatusFailed, ExitCode, Some(code))) <==>
              a.execution == Ran(code) && code != 0 && CauseOf(a) != Some(TimeUp) && CauseOf(a) != Some(CancelSignal)
  {}

  /** An abort directive that reaches the attempt first, and cuts it short, silences it. */
  lemma FirstAbortSilences(d: Directive, a: Attempt)
    requires d.Abort? && a.Started? && Told([], d) <= Causes(a) && Errs(a)
    ensures Verdict(a).None?
  {
    assert Causes(a)[0] == AbortSignal;
  }

  /** What goes wrong on the runner's side: the execution broke, or an upload after a clean exit did not go through. */
  lemma ErrsIff(a: Attempt)
    requires a.Started?
    ensures Errs(a) <==>
      a.execution.Broke? || (a.execution == Ran(0) && (a.upload.UploadFenced? || a.upload.UploadFailed?))
    ensures Verdict(NeverStarted) == Some(Result(StatusFailed, Infra, None))
  {}

  /**
   The runner's part, with its shipper: the verdict is fixed, the shipper is closed, and only then is
   the report made. An aborted attempt discards its buffer: nothing is sent.
   */
  method RunAttempt(shipper: Shipper, a: Attempt, outcomes: seq<Outcome>)
    returns (report: Option<Result>, flushed: CloseResult)
    requires a.Started? && !shipper.closed && shipper.Notified()
    modifies shipper
    ensures report == Verdict(a)
    ensures shipper.closed && shipper.Notified() && flushed == CloseVerdict(shipper.View())
    ensures shipper.View() == DrainTo(shipper.c, old(shipper.View()).(closed := true), FlushOf(a, outcomes)).0
  {
    var errs := a.execution.Broke?;
    var cause := if a.signals != [] then Some(a.signals[0]) else None;
    if !errs && a.execution.exitCode == 0 && !a.upload.NothingToUpload? {
      if !a.upload.Uploaded? {
        if a.upload.UploadFenced? && (a.upload.after == 0 || cause.None?) { cause := Some(AbortSignal); }
        errs := true;
      }
    }
    var aborted := errs && cause == Some(AbortSignal);
    flushed := shipper.Close(if aborted then [] else outcomes);
    if cause == Some(TimeUp) {
      report := Some(Result(StatusFailed, TimedOut, None));
    } else if cause == Some(CancelSignal) {
      report := Some(Result(StatusFailed, CancelKind, None));
    } else if !errs {
      report := if a.execution.exitCode == 0 then Some(Result(StatusSucceeded, NoFailure, None))
                else Some(Result(StatusFailed, ExitCode, Some(a.execution.exitCode)));
    } else if aborted {
      report := None;
    } else {
      report := Some(INFRA);
    }
  }

  // What the server makes of it.

  /**
   A report of the live attempt sends the job back to the queue exactly when the runner failed it,
   attempts remain and no cancel is pending; otherwise the job is over.
   */
  lemma RetriedIff(w: World, j: JobId, n: nat, a: Attempt)
    requires Ok(w) && w.db.Live(j, n) && Verdict(a).Some?
    ensures var d := Apply(w, Complete(j, n, Verdict(a).value)).0.db; var row := w.db.jobs[j];
      && j < |d.jobs| && d.jobs[j].attempt == n
      && (d.jobs[j].state.Queued? <==> Verdict(a) == Some(INFRA) && n < row.maxAttempts && row.cancelAt == NEVER)
      && (!d.jobs[j].state.Queued? ==> d.jobs[j].state.Terminal())
  {
    CompleteSettles(w, j, n, Verdict(a).value);
    SettledRow(w.db, w.now, j, Verdict(a).value);
  }

  /**
   From the runner to the row: what the attempt's end makes of its job. Success stays success; a timeout is
   recorded as one, a cancel as one unless the backstop asked for it, a non-zero exit with its code.
   */
  lemma ReportIsRecorded(w: World, j: JobId, n: nat, a: Attempt)
    requires Ok(w) && w.db.Live(j, n) && a.Started? && Verdict(a).Some?
    ensures var d := Apply(w, Complete(j, n, Verdict(a).value)).0.db; var cause := CauseOf(a);
      && j < |d.jobs| && var row, row' := w.db.jobs[j], d.jobs[j];
      && (cause == Some(TimeUp) ==> row'.state.Failed? && row'.failure.TimedOut?)
      && (cause == Some(CancelSignal) ==>
            if row.reason.ByTimeout? then row'.state.Failed? && row'.failure.TimedOut? else row'.state.Cancelled?)
      && (cause != Some(TimeUp) && cause != Some(CancelSignal) && !Errs(a) ==>
            if a.execution == Ran(0) then row'.state.Succeeded?
            else row'.state.Failed? && row'.failure.ExitCode? && row'.exitCode == Some(a.execution.exitCode))
      && (Errs(a) && (cause.None? || cause == Some(Shutdown)) ==>
            if n < row.maxAttempts && row.cancelAt == NEVER then row'.state.Queued?
            else row'.state.Failed? && row'.failure.Infra?)
  {
    ReportsAreValid(a);
    CompleteSettlesRow(w, j, n, Verdict(a).value);
  }

  /** A settlement queues the row again or ends it. */
  lemma SettledRow(db: Db, now: Time, j: JobId, res: Result)
    requires db.HasJob(j) && Enabled(db, Settlement(db.jobs[j], j, res))
    ensures var op := Settlement(db.jobs[j], j, res); var row := Do(db, now, op).jobs[j];
      && row.attempt == db.jobs[j].attempt
      && (if op.Requeue? then row.state.Queued? else row.state.Terminal())
  {}

  lemma {:induction false} BeatCancels(db: Db, now: Time, ttl: Time, runner: RunnerId, refs: seq<JobRef>, i: nat)
    requires now != NEVER && i < |refs|
    ensures var ds := Beat(db, now, ttl, runner, refs).1;
      |ds| == |refs| && (ds[i].CancelIt? <==> Holds(db, runner, refs[i]) && db.jobs[refs[i].job].cancelAt != NEVER)
  {
    F.BeatKeepsHolds(db, now, ttl, runner, refs[..|refs| - 1]);
    if i < |refs| - 1 { BeatCancels(db, now, ttl, runner, refs[..|refs| - 1], i); }
  }

  /** The attempts that end because of a cancel directive. */
  predicate EndedByCancel(a: Attempt) { a.Started? && CauseOf(a) == Some(CancelSignal) }

  /** A cancel that reaches the attempt first is what it reports. */
  lemma FirstCancelIsReported(d: Directive, a: Attempt)
    requires d.CancelIt? && a.Started? && Told([], d) <= Causes(a)
    ensures EndedByCancel(a) && Verdict(a) == Some(Result(StatusFailed, CancelKind, None))
  {
    assert Causes(a)[0] == CancelSignal;
  }

  /** How a job with a cancel request ends when its attempt reports `res`. */
  predicate EndedAsAsked(row: Job, before: Job, a: Attempt) {
    && row.attempt == before.attempt && row.state.Terminal()
    && (EndedByCancel(a) ==>
          if before.reason.ByTimeout? then row.state.Failed? && row.failure.TimedOut? else row.state.Cancelled?)
  }

  lemma ReportEnds(w: World, j: JobId, n: nat, a: Attempt)
    requires Ok(w) && w.db.Live(j, n) && w.db.jobs[j].cancelAt != NEVER && Verdict(a).Some?
    ensures var d := Apply(w, Complete(j, n, Verdict(a).value)).0.db;
      j < |d.jobs| && EndedAsAsked(d.jobs[j], w.db.jobs[j], a)
  {
    CompleteSettles(w, j, n, Verdict(a).value);
  }

  /** A cancel directive is given only for a job whose cancel was requested, and the request stays. */
  lemma CancelStays(w: World, runner: RunnerId, refs: seq<JobRef>, i: nat, steps: seq<Step>)
    requires Ok(w) && i < |refs| && CancelTold(w, runner, refs, i)
    ensures var w1, j := Apply(w, Heartbeat(runner, refs)).0, refs[i].job;
      && w.db.HasJob(j) && w.db.jobs[j].cancelAt != NEVER && Ok(w1)
      && Exec(w1, steps).db.HasJob(j) && Exec(w1, steps).db.jobs[j].cancelAt != NEVER
  {
    var s, j := Heartbeat(runner, refs), refs[i].job;
    BeatCancels(w.db, w.now, w.cfg.ttl, runner, refs, i);
    StepOk(w, s);
    StepLater(w, s);
    var w1 := Apply(w, s).0;
    ExecLater(w1, steps);
    assert Later(w.db.jobs[j], w1.db.jobs[j]);
    assert Later(w1.db.jobs[j], Exec(w1, steps).db.jobs[j]);
  }

  /** The heartbeat answers cancel for its i-th reference. */
  ghost predicate CancelTold(w: World, runner: RunnerId, refs: seq<JobRef>, i: nat)
    requires Ok(w)
  {
    var reply := Apply(w, Heartbeat(runner, refs)).1;
    runner != NO_RUNNER && reply.Directives? && i < |reply.all| && reply.all[i].CancelIt?
  }

  /**
   A cancel directive is honoured. It is given only for a job whose cancel was requested. The attempt it
   reaches, after `earlier` signals and before any others, reports the cancel if it was the first; and
   whatever it reports, any time later and after anything else, if the attempt is still live the job ends
   there and is never retried - as cancelled on a report of the cancel, or as timed out if the backstop asked.
   */
  lemma CancelIsHonoured(
      w: World, runner: RunnerId, refs: seq<JobRef>, i: nat, n: nat, earlier: seq<Signal>, a: Attempt, steps: seq<Step>)
    requires Ok(w) && i < |refs| && refs[i].attempt == n && CancelTold(w, runner, refs, i)
    requires a.Started? && Told(earlier, Apply(w, Heartbeat(runner, refs)).1.all[i]) <= Causes(a)
    ensures earlier == [] ==> EndedByCancel(a) && Verdict(a).Some?
    ensures var w1, j := Apply(w, Heartbeat(runner, refs)).0, refs[i].job;
      && w.db.HasJob(j) && w.db.jobs[j].cancelAt != NEVER && Ok(w1)
      && var w2 := Exec(w1, steps);
         w2.db.Live(j, n) && Verdict(a).Some? ==>
           var d := Apply(w2, Complete(j, n, Verdict(a).value)).0.db;
           j < |d.jobs| && EndedAsAsked(d.jobs[j], w2.db.jobs[j], a)
  {
    var w1, j := Apply(w, Heartbeat(runner, refs)).0, refs[i].job;
    CancelStays(w, runner, refs, i, steps);
    var w2 := Exec(w1, steps);
    if w2.db.Live(j, n) && Verdict(a).Some? { ReportEnds(w2, j, n, a); }
    if earlier == [] { FirstCancelIsReported(CancelIt, a); }
  }

  /**
   Silence loses nothing: when the server refused the attempt - an abort directive or a fenced batch -
   a report made at any later time would have changed nothing.
   */
  lemma SilenceIsHarmless(net: F.Net, m: F.Message, j: JobId, n: nat, steps: seq<F.NetStep>, res: Result)
    requires F.NetOk(net) && m in net.sent && F.Mentions(m, j, n) && F.Refused(net.w, m, j, n)
    ensures var net1 := F.NetApply(net, F.Deliver(m));
      F.NetOk(net1) && (F.History(net1, steps) ==>
        var w2 := F.NetExec(net1, steps).w; Apply(w2, Complete(j, n, res)).0 == w2)
  {
    F.RefusalIsFinal(net, m, j, n, steps);
  }

  /** What `RunAttempt` drains: an aborted attempt sends nothing. */
  function FlushOf(a: Attempt, outcomes: seq<Outcome>): seq<Outcome> { if Verdict(a).None? then [] else outcomes }

  /** An attempt that stays silent posts nothing more when its shipper closes; any other flushes what is left. */
  lemma FlushUnlessSilent(c: ShipConfig, s: Ship, a: Attempt, outcomes: seq<Outcome>)
    ensures Verdict(a).None? ==> DrainTo(c, s, FlushOf(a, outcomes)) == (s, [])
    ensures Verdict(a).Some? ==> DrainTo(c, s, FlushOf(a, outcomes)) == DrainTo(c, s, outcomes)
  {}

  /**
   Output before the report. The attempt's shipper `x.ch.ship` is closed and drained against the live
   system, which is what `RunAttempt` does before it reports. When the close found nothing wrong, the server
   already holds the whole accepted stream up to its cap; and neither the report nor anything after it
   changes that.
   */
  lemma OutputBeforeReport(
      c: ShipConfig, x: D.Pipe, x0: D.Pipe, a: Attempt, outcomes: seq<Outcome>, y: D.Pipe,
      moves: seq<D.Move>, z: D.Pipe, j: JobId, n: nat, cap: nat)
    requires a.Started? && D.Moves(c, x, D.Shut, x0, j, n, cap) && D.Drains(c, x0, FlushOf(a, outcomes), y, j, n, cap)
    requires CloseVerdict(DrainTo(c, x.ch.ship.(closed := true), FlushOf(a, outcomes)).0).ClosedOk?
    requires D.Reaches(c, y, moves, z, j, n, cap)
    ensures Concat(y.w.db.Log(AttemptKey(j, n))) == y.ch.stream[..Min(cap, |y.ch.stream|)]
    ensures z.w.db.Log(AttemptKey(j, n)) == y.w.db.Log(AttemptKey(j, n)) && z.ch.stream == y.ch.stream
  {
    D.CloseDelivers(c, x, x0, FlushOf(a, outcomes), y, j, n, cap);
    DrainRemembers(c, x.ch.ship.(closed := true), FlushOf(a, outcomes));
    D.CleanCloseIsFinal(c, y, moves, z, j, n, cap);
  }

  /** The report itself is one of those later moves. */
  lemma ReportIsAMove(c: ShipConfig, y: D.Pipe, a: Attempt, j: JobId, n: nat, cap: nat) returns (z: D.Pipe)
    requires D.PipeOk(c, y, j, n, cap) && Verdict(a).Some?
    ensures D.Reaches(c, y, [D.Elsewhere(Complete(j, n, Verdict(a).value))], z, j, n, cap)
    ensures z.w == Apply(y.w, Complete(j, n, Verdict(a).value)).0
  {
    var m := D.Elsewhere(Complete(j, n, Verdict(a).value));
    z := D.Next(c, y, m, j, n, cap);
    D.RunsOne(c, y, m, z, j, n, cap);
  }
}
