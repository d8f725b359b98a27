/** The client following a job's log while the system runs. */
module Following {
  import opened Model
  import opened Transactions
  import opened System
  import opened Lifecycle
  import opened Ingest
  import opened Follower
  import Logs
  import Progress

  // The system's reads are such a trace.

  lemma {:induction false} ExecExtendsLog(w: World, steps: seq<Step>, k: AttemptKey)
    requires Ok(w)
    ensures w.db.Log(k) <= Exec(w, steps).db.Log(k)
    decreases |steps|
  {
    if steps != [] {
      StepOk(w, steps[0]);
      Logs.StepExtendsLog(w, steps[0], k);
      ExecExtendsLog(Apply(w, steps[0]).0, steps[1..], k);
    }
  }

  lemma OverStep(w: World, s: Step, k: AttemptKey)
    requires Ok(w) && w.db.HasJob(k.job) && w.db.jobs[k.job].state.Terminal()
    ensures var w1 := Apply(w, s).0;
      && Ok(w1) && w1.db.Log(k) == w.db.Log(k) && w1.db.HasJob(k.job) && w1.db.jobs[k.job] == w.db.jobs[k.job]
  {
    StepOk(w, s);
    Logs.StepExtendsLog(w, s, k);
    StepLater(w, s);
    assert Later(w.db.jobs[k.job], Apply(w, s).0.db.jobs[k.job]);
  }

  /** Once a job is over none of its logs changes. */
  lemma {:induction false} OverMeansFrozen(w: World, steps: seq<Step>, k: AttemptKey)
    requires Ok(w) && w.db.HasJob(k.job) && w.db.jobs[k.job].state.Terminal()
    ensures var w' := Exec(w, steps);
      && w'.db.Log(k) == w.db.Log(k) && w'.db.HasJob(k.job) && w'.db.jobs[k.job] == w.db.jobs[k.job]
    decreases |steps|
  {
    if steps != [] {
      OverStep(w, steps[0], k);
      OverMeansFrozen(Apply(w, steps[0]).0, steps[1..], k);
    }
  }

  /** The attempt a request asks for: the named one, or the job's current one. */
  function Asked(db: Db, j: JobId, named: Option<nat>): nat
    requires db.HasJob(j)
  {
    if named.Some? then named.value else db.jobs[j].attempt
  }

  /** One round of reads: the job's state in `a`, the attempt in `b`, the chunks in `c`. */
  ghost function Look(a: World, b: World, c: World, j: JobId, named: Option<nat>): View
    requires a.db.HasJob(j) && b.db.HasJob(j)
  {
    var n := Asked(b.db, j, named);
    View(a.db.jobs[j].state.Terminal(), n, c.db.Log(AttemptKey(j, n)))
  }

  lemma HasJobStays(w: World, steps: seq<Step>, j: JobId)
    requires Ok(w) && w.db.HasJob(j)
    ensures Exec(w, steps).db.HasJob(j) && Later(w.db.jobs[j], Exec(w, steps).db.jobs[j])
  {
    ExecLater(w, steps);
  }

  /** Any two rounds, with anything at all going on between one read and the next, are in flow. */
  lemma ReadsFlow(
      a: World, s1: seq<Step>, s2: seq<Step>, s3: seq<Step>, s4: seq<Step>, s5: seq<Step>, j: JobId, named: Option<nat>)
    requires Ok(a) && a.db.HasJob(j)
    ensures var b := Exec(a, s1); var c := Exec(b, s2); var a' := Exec(c, s3); var b' := Exec(a', s4);
      var c' := Exec(b', s5);
      && b.db.HasJob(j) && a'.db.HasJob(j) && b'.db.HasJob(j)
      && Flows(Look(a, b, c, j, named), Look(a', b', c', j, named))
  {
    var b := Exec(a, s1);
    var c := Exec(b, s2);
    var a' := Exec(c, s3);
    var b' := Exec(a', s4);
    HasJobStays(a, s1, j);
    HasJobStays(b, s2, j);
    HasJobStays(c, s3, j);
    HasJobStays(a', s4, j);
    var k := AttemptKey(j, Asked(b.db, j, named));
    ExecExtendsLog(c, s3, k);
    ExecExtendsLog(a', s4, k);
    ExecExtendsLog(b', s5, k);
    if a.db.jobs[j].state.Terminal() {
      OverMeansFrozen(a, s1, k);
      OverMeansFrozen(b, s2, k);
      OverMeansFrozen(c, s3, k);
      OverMeansFrozen(a', s4, k);
      OverMeansFrozen(b', s5, k);
    }
  }

  /** What the system does before each of the three reads of a round. */
  datatype Gap = Gap(beforeState: seq<Step>, beforeAttempt: seq<Step>, beforeChunks: seq<Step>)

  /** The system after a round's last read. */
  ghost function AfterGap(w: World, g: Gap): (w': World)
    requires Ok(w)
    ensures Ok(w')
  {
    Exec(Exec(Exec(w, g.beforeState), g.beforeAttempt), g.beforeChunks)
  }

  ghost function AfterAll(w: World, gaps: seq<Gap>): (w': World)
    requires Ok(w)
    ensures Ok(w')
    decreases |gaps|
  {
    if gaps == [] then w else AfterAll(AfterGap(w, gaps[0]), gaps[1..])
  }

  lemma GapHasJob(w: World, g: Gap, j: JobId)
    requires Ok(w) && w.db.HasJob(j)
    ensures Exec(w, g.beforeState).db.HasJob(j) && Exec(Exec(w, g.beforeState), g.beforeAttempt).db.HasJob(j)
    ensures AfterGap(w, g).db.HasJob(j)
  {
    HasJobStays(w, g.beforeState, j);
    HasJobStays(Exec(w, g.beforeState), g.beforeAttempt, j);
    HasJobStays(Exec(Exec(w, g.beforeState), g.beforeAttempt), g.beforeChunks, j);
  }

  /** What one round reads. */
  ghost function LookAfter(w: World, g: Gap, j: JobId, named: Option<nat>): View
    requires Ok(w) && w.db.HasJob(j)
  {
    GapHasJob(w, g, j);
    Look(Exec(w, g.beforeState), Exec(Exec(w, g.beforeState), g.beforeAttempt), AfterGap(w, g), j, named)
  }

  /** Everything the follower is shown, with anything at all going on between any two reads. */
  ghost function Views(w: World, gaps: seq<Gap>, j: JobId, named: Option<nat>): (views: seq<View>)
    requires Ok(w) && w.db.HasJob(j)
    ensures |views| == |gaps|
    decreases |gaps|
  {
    if gaps == [] then []
    else
      GapHasJob(w, gaps[0], j);
      [LookAfter(w, gaps[0], j, named)] + Views(AfterGap(w, gaps[0]), gaps[1..], j, named)
  }

  /** A round flows into any round that starts any number of steps later. */
  lemma GapsFlow(w: World, g: Gap, between: seq<Step>, g': Gap, j: JobId, named: Option<nat>)
    requires Ok(w) && w.db.HasJob(j)
    ensures Exec(AfterGap(w, g), between).db.HasJob(j)
    ensures Flows(LookAfter(w, g, j, named), LookAfter(Exec(AfterGap(w, g), between), g', j, named))
  {
    var a, c := Exec(w, g.beforeState), AfterGap(w, g);
    GapHasJob(w, g, j);
    HasJobStays(c, between, j);
    GapHasJob(Exec(c, between), g', j);
    ReadsFlow(a, g.beforeAttempt, g.beforeChunks,
              between + g'.beforeState, g'.beforeAttempt, g'.beforeChunks, j, named);
    ExecSplit(c, between, g'.beforeState);
  }

  lemma GapIsExec(w: World, between: seq<Step>, g: Gap) returns (steps: seq<Step>)
    requires Ok(w)
    ensures AfterGap(Exec(w, between), g) == Exec(w, steps)
  {
    ExecSplit(w, between, g.beforeState);
    ExecSplit(w, between + g.beforeState, g.beforeAttempt);
    ExecSplit(w, between + g.beforeState + g.beforeAttempt, g.beforeChunks);
    steps := between + g.beforeState + g.beforeAttempt + g.beforeChunks;
  }

  lemma ViewsFirst(w: World, gaps: seq<Gap>, j: JobId, named: Option<nat>) returns (w1: World, rest: seq<View>)
    requires Ok(w) && w.db.HasJob(j) && gaps != []
    ensures w1 == AfterGap(w, gaps[0]) && Ok(w1) && w1.db.HasJob(j) && AfterAll(w, gaps) == AfterAll(w1, gaps[1..])
    ensures rest == Views(w1, gaps[1..], j, named)
      && Views(w, gaps, j, named) == [LookAfter(w, gaps[0], j, named)] + rest
  {
    w1 := AfterGap(w, gaps[0]);
    GapHasJob(w, gaps[0], j);
    rest := Views(w1, gaps[1..], j, named);
  }

  ghost predicate FlowsInto(v: View, views: seq<View>) { forall k :: 0 <= k < |views| ==> Flows(v, views[k]) }

  lemma FlowsCons(v: View, first: View, rest: seq<View>)
    requires Flows(v, first) && FlowsInto(v, rest)
    ensures FlowsInto(v, [first] + rest)
  {}

  lemma {:induction false} HeadFlows(
      w: World, g: Gap, v: View, between: seq<Step>, w': World, gaps: seq<Gap>, j: JobId, named: Option<nat>)
    requires Ok(w) && w.db.HasJob(j) && v == LookAfter(w, g, j, named)
    requires Ok(w') && w' == Exec(AfterGap(w, g), between) && w'.db.HasJob(j)
    ensures FlowsInto(v, Views(w', gaps, j, named))
    decreases |gaps|
  {
    if gaps != [] {
      var w1, rest := ViewsFirst(w', gaps, j, named);
      GapsFlow(w, g, between, gaps[0], j, named);
      var steps := GapIsExec(AfterGap(w, g), between, gaps[0]);
      HeadFlows(w, g, v, steps, w1, gaps[1..], j, named);
      FlowsCons(v, LookAfter(w', gaps[0], j, named), rest);
    }
  }

  lemma {:induction false} AfterAllIsExec(w: World, gaps: seq<Gap>) returns (steps: seq<Step>)
    requires Ok(w)
    ensures AfterAll(w, gaps) == Exec(w, steps)
    decreases |gaps|
  {
    steps := [];
    if gaps != [] {
      var first := GapIsExec(w, [], gaps[0]);
      var rest := AfterAllIsExec(AfterGap(w, gaps[0]), gaps[1..]);
      ExecSplit(w, first, rest);
      steps := first + rest;
    }
  }

  lemma LookIsProper(w: World, g: Gap, j: JobId, named: Option<nat>)
    requires Ok(w) && w.db.HasJob(j) && Logs.LogsBelong(w.db)
    ensures Proper(LookAfter(w, g, j, named)) && Logs.LogsBelong(AfterGap(w, g).db)
  {
    GapHasJob(w, g, j);
    Logs.ExecLogsBelong(w, g.beforeState);
    Logs.ExecLogsBelong(Exec(w, g.beforeState), g.beforeAttempt);
    Logs.ExecLogsBelong(Exec(Exec(w, g.beforeState), g.beforeAttempt), g.beforeChunks);
    var v := LookAfter(w, g, j, named);
    assert Logs.Belongs(AfterGap(w, g).db, AttemptKey(j, v.attempt));
  }

  /** The system's answers always form a trace the follower can rely on. */
  lemma {:induction false} ViewsAreTrace(w: World, gaps: seq<Gap>, j: JobId, named: Option<nat>)
    requires Ok(w) && w.db.HasJob(j) && Logs.LogsBelong(w.db)
    ensures Trace(Views(w, gaps, j, named))
    decreases |gaps|
  {
    if gaps != [] {
      var w1, rest := ViewsFirst(w, gaps, j, named);
      LookIsProper(w, gaps[0], j, named);
      ViewsAreTrace(w1, gaps[1..], j, named);
      assert Exec(w1, []) == w1;
      HeadFlows(w, gaps[0], LookAfter(w, gaps[0], j, named), [], w1, gaps[1..], j, named);
      TraceCons(LookAfter(w, gaps[0], j, named), rest);
    }
  }

  lemma TraceCons(v: View, views: seq<View>)
    requires Proper(v) && Trace(views) && FlowsInto(v, views)
    ensures Trace([v] + views)
  {}

  /** What a round that saw the job over read is what every later state holds. */
  lemma LookIsFinal(w: World, g: Gap, j: JobId, named: Option<nat>, steps: seq<Step>)
    requires Ok(w) && w.db.HasJob(j) && LookAfter(w, g, j, named).terminal
    ensures Final(LookAfter(w, g, j, named), Exec(AfterGap(w, g), steps), j, named)
  {
    var a := Exec(w, g.beforeState);
    var b := Exec(a, g.beforeAttempt);
    var v := LookAfter(w, g, j, named);
    GapHasJob(w, g, j);
    OverMeansFrozen(a, g.beforeAttempt, AttemptKey(j, v.attempt));
    OverMeansFrozen(b, g.beforeChunks, AttemptKey(j, v.attempt));
    OverMeansFrozen(AfterGap(w, g), steps, AttemptKey(j, v.attempt));
  }

  /** In `w` the job is over and `v` shows the attempt asked for and the whole of its log. */
  ghost predicate Final(v: View, w: World, j: JobId, named: Option<nat>) {
    && w.db.HasJob(j) && w.db.jobs[j].state.Terminal()
    && v.attempt == Asked(w.db, j, named)
    && v.table == w.db.Log(AttemptKey(j, v.attempt))
  }

  /** Where a view was read: the state before it, and the steps from it to the end. */
  ghost predicate ReadAt(v: View, at: World, g: Gap, steps: seq<Step>, end: World, j: JobId, named: Option<nat>) {
    Ok(at) && at.db.HasJob(j) && v == LookAfter(at, g, j, named) && end == Exec(AfterGap(at, g), steps)
  }

  /** The view was read by some round before `end`. */
  ghost predicate ReadSomewhere(v: View, end: World, j: JobId, named: Option<nat>) {
    exists at, g, steps :: ReadAt(v, at, g, steps, end, j, named)
  }

  lemma FirstAt(w: World, g: Gap, gaps: seq<Gap>, w1: World, j: JobId, named: Option<nat>)
    requires Ok(w) && w.db.HasJob(j) && w1 == AfterGap(w, g)
    ensures ReadSomewhere(LookAfter(w, g, j, named), AfterAll(w1, gaps), j, named)
  {
    var steps := AfterAllIsExec(w1, gaps);
    assert ReadAt(LookAfter(w, g, j, named), w, g, steps, AfterAll(w1, gaps), j, named);
  }

  ghost predicate AllReadSomewhere(views: seq<View>, end: World, j: JobId, named: Option<nat>) {
    forall i :: 0 <= i < |views| ==> ReadSomewhere(views[i], end, j, named)
  }

  lemma ReadSomewhereCons(v: View, rest: seq<View>, end: World, j: JobId, named: Option<nat>)
    requires ReadSomewhere(v, end, j, named) && AllReadSomewhere(rest, end, j, named)
    ensures AllReadSomewhere([v] + rest, end, j, named)
  {}

  lemma {:induction false} ViewsWereRead(w: World, gaps: seq<Gap>, end: World, j: JobId, named: Option<nat>)
    requires Ok(w) && w.db.HasJob(j) && end == AfterAll(w, gaps)
    ensures AllReadSomewhere(Views(w, gaps, j, named), end, j, named)
    decreases |gaps|
  {
    if gaps != [] {
      var w1, rest := ViewsFirst(w, gaps, j, named);
      FirstAt(w, gaps[0], gaps[1..], w1, j, named);
      ViewsWereRead(w1, gaps[1..], end, j, named);
      ReadSomewhereCons(LookAfter(w, gaps[0], j, named), rest, end, j, named);
    }
  }

  /** A round that saw the job over read what every state after the last round holds. */
  lemma ViewsAreFinal(
      w: World, gaps: seq<Gap>, views: seq<View>, end: World, j: JobId, named: Option<nat>, i: nat, later: seq<Step>)
    requires Ok(w) && w.db.HasJob(j) && views == Views(w, gaps, j, named) && end == AfterAll(w, gaps)
    requires i < |views| && views[i].terminal
    ensures Final(views[i], Exec(end, later), j, named)
  {
    ViewsWereRead(w, gaps, end, j, named);
    assert ReadSomewhere(views[i], end, j, named);
    var at, g, steps :| ReadAt(views[i], at, g, steps, end, j, named);
    ExecSplit(AfterGap(at, g), steps, later);
    LookIsFinal(at, g, j, named, steps + later);
  }

  /** Whatever a round read is still the beginning of the log at the end. */
  lemma ViewsAreStored(w: World, gaps: seq<Gap>, views: seq<View>, end: World, j: JobId, named: Option<nat>, i: nat)
    requires Ok(w) && w.db.HasJob(j) && views == Views(w, gaps, j, named) && end == AfterAll(w, gaps) && i < |views|
    ensures views[i].table <= end.db.Log(AttemptKey(j, views[i].attempt))
  {
    ViewsWereRead(w, gaps, end, j, named);
    assert ReadSomewhere(views[i], end, j, named);
    var at, g, steps :| ReadAt(views[i], at, g, steps, end, j, named);
    ExecExtendsLog(AfterGap(at, g), steps, AttemptKey(j, views[i].attempt));
  }

  /** Every printed line is a stored row of its attempt. */
  ghost predicate Genuine(out: seq<Line>, db: Db, j: JobId) {
    forall i :: 0 <= i < |out| ==> out[i].chunk in db.Log(AttemptKey(j, out[i].attempt))
  }

  lemma PrintedIsGenuine(w: World, gaps: seq<Gap>, views: seq<View>, j: JobId, named: Option<nat>)
    requires Ok(w) && w.db.HasJob(j) && views == Views(w, gaps, j, named)
    ensures Genuine(ReadAll(START, views).0.out, AfterAll(w, gaps).db, j)
  {
    PrintedWasRead(START, views);
    var out := ReadAll(START, views).0.out;
    forall i | 0 <= i < |out| ensures out[i].chunk in AfterAll(w, gaps).db.Log(AttemptKey(j, out[i].attempt)) {
      assert WasRead(out[i], views);
      var k :| 0 <= k < |views| && views[k].attempt == out[i].attempt && out[i].chunk in views[k].table;
      ViewsAreStored(w, gaps, views, AfterAll(w, gaps), j, named, k);
    }
  }

  /**
   The job is over and `out` ends with lines of the attempt asked for, `before` being lines of earlier ones:
   exactly the rows of its log that did not come late. If none did, that is the whole log by number; and a
   log filled in ascending order is printed as it stands.
   */
  ghost predicate EndsWithLog(
      out: seq<Line>, before: seq<Line>, lines: seq<Chunk>, shown: seq<seq<Chunk>>, w: World, j: JobId,
        named: Option<nat>)
  {
    && w.db.HasJob(j) && w.db.jobs[j].state.Terminal()
    && var n := Asked(w.db, j, named); var log := w.db.Log(AttemptKey(j, n));
       && Below(before, n) && out == before + Tag(n, lines) && AllButLate(lines, log, shown)
       && (lines == ChunksAfter(log, 0) <==> forall c :: c in log ==> !Late(shown, c))
       && (Ascending(log) ==> lines == log)
  }

  /**
   Following a log of the running system, with anything going on between any two reads: only stored rows
   are printed, none twice or out of order; and once the follower has stopped, then in every later state
   the job is over and what was printed of the attempt asked for is its log but for the rows that came late.
   */
  lemma FollowPrintsFinalLog(w: World, gaps: seq<Gap>, j: JobId, named: Option<nat>, later: seq<Step>)
    returns (before: seq<Line>, lines: seq<Chunk>)
    requires Reachable(w) && Ok(w) && w.db.HasJob(j)
    ensures var views := Views(w, gaps, j, named); var (r, stopped, n) := ReadAll(START, views);
      && InOrder(r.out) && Genuine(r.out, AfterAll(w, gaps).db, j) && n <= |views|
      && (stopped ==>
            EndsWithLog(r.out, before, lines, Shown(0, [], views[..n]), Exec(AfterAll(w, gaps), later), j, named))
  {
    Logs.ReachableLogsBelong(w);
    before, lines := ViewsPrintFinalLog(w, gaps, Views(w, gaps, j, named), j, named, later);
  }

  lemma ViewsPrintFinalLog(w: World, gaps: seq<Gap>, views: seq<View>, j: JobId, named: Option<nat>, later: seq<Step>)
    returns (before: seq<Line>, lines: seq<Chunk>)
    requires Ok(w) && w.db.HasJob(j) && views == Views(w, gaps, j, named) && Logs.LogsBelong(w.db)
    ensures var (r, stopped, n) := ReadAll(START, views);
      && InOrder(r.out) && Genuine(r.out, AfterAll(w, gaps).db, j) && n <= |views|
      && (stopped ==>
            EndsWithLog(r.out, before, lines, Shown(0, [], views[..n]), Exec(AfterAll(w, gaps), later), j, named))
  {
    var end := AfterAll(w, gaps);
    ViewsAreTrace(w, gaps, j, named);
    PrintedIsGenuine(w, gaps, views, j, named);
    before, lines := FollowIsExact(views);
    var (r, stopped, n) := ReadAll(START, views);
    if stopped {
      ViewsAreFinal(w, gaps, views, end, j, named, n - 1, later);
      FinalEnds(r.out, before, lines, views[n - 1], Shown(0, [], views[..n]), Exec(end, later), j, named);
    }
  }

  lemma FinalEnds(
      out: seq<Line>, before: seq<Line>, lines: seq<Chunk>, v: View, shown: seq<seq<Chunk>>,
      w: World, j: JobId, named: Option<nat>)
    requires Final(v, w, j, named) && Proper(v) && Stopped(out, before, lines, v, shown)
    ensures EndsWithLog(out, before, lines, shown, w, j, named)
  {
    CompleteIffNoneLate(lines, v.table, shown);
    if Ascending(v.table) { InOrderPrintedWhole(lines, v.table, shown); }
  }

  /** And it does stop: two rounds after one that found the job over, at the latest. */
  lemma FollowEnds(w: World, gaps: seq<Gap>, j: JobId, named: Option<nat>, i: nat)
    requires Reachable(w) && Ok(w) && w.db.HasJob(j)
    requires i + 2 < |gaps| && Views(w, gaps, j, named)[i].terminal
    ensures var (_, stopped, n) := ReadAll(START, Views(w, gaps, j, named)); stopped && n <= i + 3
  {
    var views := Views(w, gaps, j, named);
    Logs.ReachableLogsBelong(w);
    ViewsAreTrace(w, gaps, j, named);
    StartCaught(views);
    FollowStops(START, [], [], [], views, i);
  }

  // A row does come late on some run.

  /** An empty chunk nobody has sent yet is stored as it is. */
  lemma AppendOne(w: World, j: JobId, n: nat, c: Chunk) returns (w': World)
    requires Ok(w) && w.db.Live(j, n) && c.no > 0 && c.data == [] && !Has(w.db.Log(AttemptKey(j, n)), c.no)
    ensures w' == Apply(w, AppendLogs(j, n, [c])).0 && Ok(w') && w'.db.Live(j, n)
    ensures w'.db.Log(AttemptKey(j, n)) == w.db.Log(AttemptKey(j, n)) + [c]
  {
    StepOk(w, AppendLogs(j, n, [c]));
    Logs.AppendEffect(w, j, n, [c]);
    w' := Apply(w, AppendLogs(j, n, [c])).0;
    assert [c][..0] == [] && [c][0] == c;
    assert Absorb(w.db.Log(AttemptKey(j, n)), w.cfg.logCap, [c]) == Put(w.db.Log(AttemptKey(j, n)), w.cfg.logCap, c);
  }

  lemma SucceedsNow(w: World, j: JobId, n: nat) returns (w': World)
    requires Ok(w) && w.db.Live(j, n)
    ensures w' == Apply(w, Complete(j, n, Result(StatusSucceeded, NoFailure, None))).0 && Ok(w')
    ensures w'.db.HasJob(j) && w'.db.jobs[j].state.Terminal() && w'.db.jobs[j].attempt == n
    ensures w'.db.Log(AttemptKey(j, n)) == w.db.Log(AttemptKey(j, n))
  {
    var res := Result(StatusSucceeded, NoFailure, None);
    StepOk(w, Complete(j, n, res));
    Progress.CompleteSettles(w, j, n, res);
    Logs.StepExtendsLog(w, Complete(j, n, res), AttemptKey(j, n));
    w' := Apply(w, Complete(j, n, res)).0;
  }

  /**
   From any live attempt without output: chunk 2 is stored, a reader prints it, chunk 1 is stored and the
   attempt succeeds. The reader stops, and has missed chunk 1.
   */
  lemma LateRowArises(w: World, j: JobId, n: nat) returns (gaps: seq<Gap>)
    requires Ok(w) && w.db.Live(j, n) && n > 0 && w.db.Log(AttemptKey(j, n)) == []
    ensures var (r, stopped, _) := ReadAll(START, Views(w, gaps, j, None));
      && stopped && Chunk(1, []) in AfterAll(w, gaps).db.Log(AttemptKey(j, n))
      && Line(n, Chunk(1, [])) !in r.out
  {
    var g1, w1 := EarlyRound(w, j, n);
    var g2, w2 := LastRound(w1, j, n);
    gaps := [g1, g2];
    TwoViews(w, g1, g2, w1, w2, j);
    LateRowIsMissed([LookAfter(w, g1, j, None), LookAfter(w1, g2, j, None)], n);
  }

  lemma EarlyRound(w: World, j: JobId, n: nat) returns (g: Gap, w1: World)
    requires Ok(w) && w.db.Live(j, n) && w.db.Log(AttemptKey(j, n)) == []
    ensures w1 == AfterGap(w, g) && LookAfter(w, g, j, None) == View(false, n, [Chunk(2, [])])
    ensures w1.db.Live(j, n) && w1.db.Log(AttemptKey(j, n)) == [Chunk(2, [])]
  {
    g := Gap([AppendLogs(j, n, [Chunk(2, [])])], [], []);
    w1 := AppendOne(w, j, n, Chunk(2, []));
    ExecOne(w, g.beforeState[0]);
    var _ := LookAt(w, g, w1, j);
  }

  lemma LastRound(w: World, j: JobId, n: nat) returns (g: Gap, w2: World)
    requires Ok(w) && w.db.Live(j, n) && w.db.Log(AttemptKey(j, n)) == [Chunk(2, [])]
    ensures w2 == AfterGap(w, g) && LookAfter(w, g, j, None) == View(true, n, [Chunk(2, []), Chunk(1, [])])
    ensures w2.db.Log(AttemptKey(j, n)) == [Chunk(2, []), Chunk(1, [])]
  {
    var done := Complete(j, n, Result(StatusSucceeded, NoFailure, None));
    g := Gap([AppendLogs(j, n, [Chunk(1, [])]), done], [], []);
    var w1 := AppendOne(w, j, n, Chunk(1, []));
    w2 := SucceedsNow(w1, j, n);
    ExecTwo(w, g.beforeState[0], done);
    var _ := LookAt(w, g, w2, j);
  }

  lemma ExecOne(w: World, s: Step)
    requires Ok(w)
    ensures Exec(w, [s]) == Apply(w, s).0
  {
    StepOk(w, s);
    assert [s][1..] == [];
  }

  lemma ExecTwo(w: World, s: Step, t: Step)
    requires Ok(w) && Ok(Apply(w, s).0)
    ensures Exec(w, [s, t]) == Apply(Apply(w, s).0, t).0
  {
    assert [s, t][1..] == [t];
    ExecOne(Apply(w, s).0, t);
  }

  lemma LookAt(w: World, g: Gap, w': World, j: JobId) returns (v: View)
    requires Ok(w) && w.db.HasJob(j) && Exec(w, g.beforeState) == w' && g.beforeAttempt == [] && g.beforeChunks == []
    ensures AfterGap(w, g) == w' && w'.db.HasJob(j) && v == LookAfter(w, g, j, None)
    ensures v == View(w'.db.jobs[j].state.Terminal(), w'.db.jobs[j].attempt,
                      w'.db.Log(AttemptKey(j, w'.db.jobs[j].attempt)))
  {
    GapHasJob(w, g, j);
    v := LookAfter(w, g, j, None);
  }

  lemma TwoViews(w: World, g1: Gap, g2: Gap, w1: World, w2: World, j: JobId)
    requires Ok(w) && w.db.HasJob(j) && w1 == AfterGap(w, g1) && w1.db.HasJob(j) && w2 == AfterGap(w1, g2)
    ensures AfterAll(w, [g1, g2]) == w2
    ensures Views(w, [g1, g2], j, None) == [LookAfter(w, g1, j, None), LookAfter(w1, g2, j, None)]
  {
    var gaps := [g1, g2];
    var x, rest := ViewsFirst(w, gaps, j, None);
    assert gaps[1..] == [g2];
    var y, none := ViewsFirst(w1, [g2], j, None);
    assert [g2][1..] == [];
  }
}
