/**
 Fencing over an unreliable network: honest runners name only attempts a claim granted them, and their
 messages may be lost, delayed, duplicated and reordered between ticks, cancellations and restarts.
 */
module Fencing {
  import opened Model
  import opened Ops
  import opened Invariants
  import opened Transactions
  import opened System
  import opened Lifecycle

  // Grants are the claims on record.

  ghost predicate GrantedTo(db: Db, runner: RunnerId, j: JobId, n: int) {
    exists i :: 0 <= i < |db.events| && IsGrant(db.events[i], runner, j, n)
  }

  predicate IsGrant(e: Event, runner: RunnerId, j: JobId, n: int) {
    e.JobClaimed? && e.job == j && e.attempt == n && e.runner == runner
  }

  /** A recorded claim names a row that has reached its attempt. */
  ghost predicate ClaimsBounded(events: seq<Event>, jobs: seq<Job>) {
    forall i :: 0 <= i < |events| && events[i].JobClaimed? ==>
      events[i].job < |jobs| && events[i].attempt <= jobs[events[i].job].attempt
  }

  /** A job's claims are on record in increasing order of attempt. */
  ghost predicate ClaimsSorted(events: seq<Event>) {
    forall i, k ::
      0 <= i < k < |events| && events[i].JobClaimed? && events[k].JobClaimed? && events[i].job == events[k].job ==>
      events[i].attempt < events[k].attempt
  }

  /** The current claim is on record with the runner its row names. */
  ghost predicate ClaimsCurrent(db: Db) {
    forall j :: 0 <= j < |db.jobs| && db.jobs[j].startedAt != NEVER ==>
      GrantedTo(db, db.jobs[j].runner, j, db.jobs[j].attempt)
  }

  ghost predicate ClaimsOk(db: Db) { ClaimsBounded(db.events, db.jobs) && ClaimsSorted(db.events) && ClaimsCurrent(db) }

  lemma GrantsGrow(db: Db, db': Db)
    requires db.events <= db'.events
    ensures forall r, j, n :: GrantedTo(db, r, j, n) ==> GrantedTo(db', r, j, n)
  {
    forall r, j, n | GrantedTo(db, r, j, n) ensures GrantedTo(db', r, j, n) {
      var i :| 0 <= i < |db.events| && IsGrant(db.events[i], r, j, n);
      assert IsGrant(db'.events[i], r, j, n);
    }
  }

  /** What a change does to the record: nothing, one event that is no claim, or the next claim of a job. */
  lemma ClaimRecorded(db: Db, now: Time, op: Op)
    requires Inv(db) && Enabled(db, op)
    ensures var db' := Do(db, now, op);
      && db.events <= db'.events && |db'.events| <= |db.events| + 1
      && |db.jobs| <= |db'.jobs| && (forall j :: 0 <= j < |db.jobs| ==> db.jobs[j].attempt <= db'.jobs[j].attempt)
      && forall i :: |db.events| <= i < |db'.events| && db'.events[i].JobClaimed? ==>
           var e := db'.events[i]; e.job < |db.jobs| && db.jobs[e.job].attempt < e.attempt == db'.jobs[e.job].attempt
  {
    EventRunOpen(db, now, op);
    RowsFollow(db, now, op);
  }

  lemma ClaimsStay(db: Db, db': Db)
    requires ClaimsBounded(db.events, db.jobs) && ClaimsSorted(db.events)
    requires db.events <= db'.events && |db'.events| <= |db.events| + 1
    requires |db.jobs| <= |db'.jobs| && (forall j :: 0 <= j < |db.jobs| ==> db.jobs[j].attempt <= db'.jobs[j].attempt)
    requires forall i :: |db.events| <= i < |db'.events| && db'.events[i].JobClaimed? ==>
               var e := db'.events[i];
                 e.job < |db.jobs| && db.jobs[e.job].attempt < e.attempt == db'.jobs[e.job].attempt
    ensures ClaimsBounded(db'.events, db'.jobs) && ClaimsSorted(db'.events)
  {
    forall i | 0 <= i < |db.events| ensures db'.events[i] == db.events[i] {}
  }

  lemma ClaimsHeld(db: Db, now: Time, op: Op, j: JobId)
    requires Inv(db) && Enabled(db, op) && ClaimsCurrent(db) && db.events <= Do(db, now, op).events
    requires j < |Do(db, now, op).jobs| && Do(db, now, op).jobs[j].startedAt != NEVER
    ensures var db' := Do(db, now, op); GrantedTo(db', db'.jobs[j].runner, j, db'.jobs[j].attempt)
  {
    var db' := Do(db, now, op);
    if op.Claim? && op.j == j {
      assert IsGrant(db'.events[|db.events|], db'.jobs[j].runner, j, db'.jobs[j].attempt);
    } else {
      HoldsOver(db, now, op, j);
      GrantsGrow(db, db');
    }
  }

  lemma ClaimsOkDo(db: Db, now: Time, op: Op)
    requires Inv(db) && Enabled(db, op) && ClaimsOk(db)
    ensures ClaimsOk(Do(db, now, op)) && db.events <= Do(db, now, op).events
  {
    var db' := Do(db, now, op);
    ClaimRecorded(db, now, op);
    ClaimsStay(db, db');
    forall j | 0 <= j < |db'.jobs| && db'.jobs[j].startedAt != NEVER
      ensures GrantedTo(db', db'.jobs[j].runner, j, db'.jobs[j].attempt)
    {
      ClaimsHeld(db, now, op, j);
    }
  }

  lemma HoldsOver(db: Db, now: Time, op: Op, j: JobId)
    requires Enabled(db, op) && !(op.Claim? && op.j == j) && j < |Do(db, now, op).jobs|
      && Do(db, now, op).jobs[j].startedAt != NEVER
    ensures var db' := Do(db, now, op);
      j < |db.jobs| && db.jobs[j].startedAt != NEVER && db'.jobs[j].runner == db.jobs[j].runner
        && db'.jobs[j].attempt == db.jobs[j].attempt
  {}

  lemma {:induction false} ClaimsOkDoAll(db: Db, now: Time, ops: seq<Op>)
    requires Inv(db) && now != NEVER && EnabledAll(db, now, ops) && ClaimsOk(db)
    ensures ClaimsOk(DoAll(db, now, ops)) && db.events <= DoAll(db, now, ops).events
    decreases |ops|
  {
    if ops != [] {
      InvDo(db, now, ops[0]);
      ClaimsOkDo(db, now, ops[0]);
      ClaimsOkDoAll(Do(db, now, ops[0]), now, ops[1..]);
    }
  }

  lemma ClaimsOkStep(w: World, s: Step)
    requires Ok(w) && ClaimsOk(w.db)
    ensures ClaimsOk(Apply(w, s).0.db) && w.db.events <= Apply(w, s).0.db.events
  {
    StepFollows(w, s);
    var ops :| EnabledAll(w.db, w.now, ops) && DoAll(w.db, w.now, ops) == Apply(w, s).0.db;
    ClaimsOkDoAll(w.db, w.now, ops);
  }

  // The network.

  datatype Message =
    | PollMsg(runner: RunnerId, labels: Labels)
    | BeatMsg(runner: RunnerId, refs: seq<JobRef>)
    | ReportMsg(runner: RunnerId, job: JobId, attempt: int, res: Result)
    | LogsMsg(runner: RunnerId, job: JobId, attempt: int, chunks: seq<Chunk>)

  /** `sent` is everything ever sent: any of it may arrive at any time, any number of times, or never. */
  datatype Net = Net(w: World, sent: set<Message>)

  datatype NetStep = Send(m: Message) | Deliver(m: Message) | Server(s: Step)

  function RequestOf(m: Message): Step {
    match m
    case PollMsg(runner, labels) => Poll(runner, labels)
    case BeatMsg(runner, refs) => Heartbeat(runner, refs)
    case ReportMsg(_, j, n, res) => Complete(j, n, res)
    case LogsMsg(_, j, n, chunks) => AppendLogs(j, n, chunks)
  }

  /** An honest runner names only attempts it was granted. */
  ghost predicate Honest(db: Db, m: Message) {
    match m
    case PollMsg(_, _) => true
    case BeatMsg(runner, refs) => forall i :: 0 <= i < |refs| ==> GrantedTo(db, runner, refs[i].job, refs[i].attempt)
    case ReportMsg(runner, j, n, _) => GrantedTo(db, runner, j, n)
    case LogsMsg(runner, j, n, _) => GrantedTo(db, runner, j, n)
  }

  ghost predicate Allowed(net: Net, s: NetStep) {
    match s
    case Send(m) => Honest(net.w.db, m)
    case Deliver(m) => m in net.sent
    case Server(s) => s.Submit? || s.CancelRun? || s.Tick? || s.Wait? || s.Restart?
  }

  ghost predicate NetOk(net: Net) {
    Ok(net.w) && ClaimsOk(net.w.db) && forall m :: m in net.sent ==> Honest(net.w.db, m)
  }

  ghost function NetApply(net: Net, s: NetStep): Net
    requires Ok(net.w)
  {
    match s
    case Send(m) => net.(sent := net.sent + {m})
    case Deliver(m) => net.(w := Apply(net.w, RequestOf(m)).0)
    case Server(s) => net.(w := Apply(net.w, s).0)
  }

  lemma HonestStays(db: Db, db': Db, m: Message)
    requires db.events <= db'.events && Honest(db, m)
    ensures Honest(db', m)
  {
    GrantsGrow(db, db');
  }

  lemma NetStepOk(net: Net, s: NetStep)
    requires NetOk(net) && Allowed(net, s)
    ensures NetOk(NetApply(net, s))
  {
    if s.Deliver? || s.Server? {
      var step := if s.Deliver? then RequestOf(s.m) else s.s;
      StepOk(net.w, step);
      ClaimsOkStep(net.w, step);
      forall m | m in net.sent ensures Honest(NetApply(net, s).w.db, m) {
        HonestStays(net.w.db, NetApply(net, s).w.db, m);
      }
    }
  }

  /** `steps` is a history the network and the server can produce from `net`. */
  ghost predicate History(net: Net, steps: seq<NetStep>)
    requires NetOk(net)
    decreases |steps|
  {
    steps == [] || (Allowed(net, steps[0]) && (NetStepOk(net, steps[0]); History(NetApply(net, steps[0]), steps[1..])))
  }

  ghost function NetExec(net: Net, steps: seq<NetStep>): (net': Net)
    requires NetOk(net) && History(net, steps)
    ensures NetOk(net')
    decreases |steps|
  {
    if steps == [] then net
    else
      NetStepOk(net, steps[0]);
      NetExec(NetApply(net, steps[0]), steps[1..])
  }

  /** What the server saw of a history. */
  ghost function Seen(steps: seq<NetStep>): seq<Step> {
    if steps == [] then []
    else
      match steps[0]
      case Send(_) => Seen(steps[1..])
      case Deliver(m) => [RequestOf(m)] + Seen(steps[1..])
      case Server(s) => [s] + Seen(steps[1..])
  }

  lemma {:induction false} NetExecIsExec(net: Net, steps: seq<NetStep>)
    requires NetOk(net) && History(net, steps)
    ensures NetExec(net, steps).w == Exec(net.w, Seen(steps))
    decreases |steps|
  {
    if steps != [] {
      NetStepOk(net, steps[0]);
      NetExecIsExec(NetApply(net, steps[0]), steps[1..]);
      var rest := Seen(steps[1..]);
      if !steps[0].Send? { assert Seen(steps)[1..] == rest; }
    }
  }

  ghost predicate Produces(net0: Net, steps: seq<NetStep>, net: Net) {
    NetOk(net0) && History(net0, steps) && NetExec(net0, steps) == net
  }

  /** The states the system can get into from the empty store, with an arbitrary network. */
  ghost predicate NetReachable(net: Net) {
    exists net0: Net, steps :: Initial(net0.w) && net0.sent == {} && Produces(net0, steps, net)
  }

  lemma InitialNetOk(net: Net)
    requires Initial(net.w) && net.sent == {}
    ensures NetOk(net)
  {}

  lemma ProducesOk(net0: Net, steps: seq<NetStep>, net: Net)
    requires Produces(net0, steps, net)
    ensures NetOk(net)
  {}

  /** `NetOk` holds of all of them, so what follows from `NetOk` holds in every reachable state. */
  lemma ReachableNetOk(net: Net)
    requires NetReachable(net)
    ensures NetOk(net)
  {
    var net0: Net, steps :| Initial(net0.w) && net0.sent == {} && Produces(net0, steps, net);
    ProducesOk(net0, steps, net);
  }

  // What fencing guarantees.

  /** Each attempt is granted to at most one runner, by exactly one claim. */
  lemma GrantedOnce(net: Net, j: JobId, n: int, i: nat, k: nat, r1: RunnerId, r2: RunnerId)
    requires NetOk(net) && i < |net.w.db.events| && k < |net.w.db.events|
    requires IsGrant(net.w.db.events[i], r1, j, n) && IsGrant(net.w.db.events[k], r2, j, n)
    ensures i == k && r1 == r2
  {
  }

  /** The runner an attempt was granted to is the one its row names while it runs. */
  lemma HolderIsGrantee(db: Db, runner: RunnerId, j: JobId, n: int)
    requires Inv(db) && ClaimsOk(db) && GrantedTo(db, runner, j, n) && db.Live(j, n)
    ensures db.jobs[j].runner == runner
  {
    assert JobOk(db.jobs[j]);
    var i :| 0 <= i < |db.events| && IsGrant(db.events[i], runner, j, n);
    var k :| 0 <= k < |db.events| && IsGrant(db.events[k], db.jobs[j].runner, j, db.jobs[j].attempt);
    assert i == k;
  }

  /** The message was taken: a log batch accepted, or a report that is no duplicate of an earlier one. */
  ghost predicate Taken(w: World, m: Message)
    requires Ok(w)
  {
    var (w', reply) := Apply(w, RequestOf(m));
    (m.LogsMsg? && reply.Accepted?) || (m.ReportMsg? && w' != w)
  }

  /**
   Whatever report or log batch is taken came from the runner holding the attempt, although neither check looks
   at the runner.
   */
  lemma AcceptedFromHolder(net: Net, m: Message)
    requires NetOk(net) && m in net.sent && Taken(net.w, m)
    ensures net.w.db.Live(m.job, m.attempt) && net.w.db.jobs[m.job].runner == m.runner
  {
    HolderIsGrantee(net.w.db, m.runner, m.job, m.attempt);
  }

  lemma {:induction false} BeatAnswers(db: Db, now: Time, ttl: Time, runner: RunnerId, refs: seq<JobRef>, i: nat)
    requires now != NEVER && i < |refs|
    ensures var (d, ds) := Beat(db, now, ttl, runner, refs);
      |ds| == |refs| && (ds[i].Abort? <==> !Holds(db, runner, refs[i]))
        && (forall ref :: Holds(d, runner, ref) <==> Holds(db, runner, ref))
  {
    BeatKeepsHolds(db, now, ttl, runner, refs);
    var front := refs[..|refs| - 1];
    BeatKeepsHolds(db, now, ttl, runner, front);
    if i < |refs| - 1 { BeatAnswers(db, now, ttl, runner, front, i); }
  }

  lemma {:induction false} BeatKeepsHolds(db: Db, now: Time, ttl: Time, runner: RunnerId, refs: seq<JobRef>)
    requires now != NEVER
    ensures var (d, ds) := Beat(db, now, ttl, runner, refs);
      && |ds| == |refs| && |d.jobs| == |db.jobs|
      && (forall ref :: Holds(d, runner, ref) <==> Holds(db, runner, ref))
      && (forall j :: 0 <= j < |db.jobs| ==> d.jobs[j].cancelAt == db.jobs[j].cancelAt)
  {
    if refs != [] { BeatKeepsHolds(db, now, ttl, runner, refs[..|refs| - 1]); }
  }

  /** An honest heartbeat's answer tells exactly whether the attempt is live: abort iff it is not. */
  lemma AbortIffNotLive(net: Net, m: Message, i: nat)
    requires NetOk(net) && m in net.sent && m.BeatMsg? && i < |m.refs| && m.runner != NO_RUNNER
    ensures var reply := Apply(net.w, RequestOf(m)).1;
      reply.Directives? && |reply.all| == |m.refs|
        && (reply.all[i].Abort? <==> !net.w.db.Live(m.refs[i].job, m.refs[i].attempt))
  {
    BeatAnswers(net.w.db, net.w.now, net.w.cfg.ttl, m.runner, m.refs, i);
    if net.w.db.Live(m.refs[i].job, m.refs[i].attempt) {
      HolderIsGrantee(net.w.db, m.runner, m.refs[i].job, m.refs[i].attempt);
    }
  }

  /** The attempts a message names. */
  ghost predicate Mentions(m: Message, j: JobId, n: int) {
    match m
    case PollMsg(_, _) => false
    case BeatMsg(_, refs) => JobRef(j, n) in refs
    case ReportMsg(_, i, a, _) => i == j && a == n
    case LogsMsg(_, i, a, _) => i == j && a == n
  }

  /** The server's answer about (j, n) was abort or fenced. */
  ghost predicate Refused(w: World, m: Message, j: JobId, n: int)
    requires Ok(w)
  {
    Mentions(m, j, n) &&
    match Apply(w, RequestOf(m)).1
    case Fenced => true
    case Directives(ds) => m.BeatMsg? && |ds| == |m.refs| && exists i ::
      0 <= i < |ds| && m.refs[i] == JobRef(j, n) && ds[i].Abort?
    case _ => false
  }

  /**
   A refusal is final: once a granted attempt has been answered abort or fenced, it is not the running
   attempt in any later state of any history.
   */
  lemma RefusalIsFinal(net: Net, m: Message, j: JobId, n: nat, steps: seq<NetStep>)
    requires NetOk(net) && m in net.sent && Mentions(m, j, n) && Refused(net.w, m, j, n)
    ensures var net1 := NetApply(net, Deliver(m));
      NetOk(net1) && (History(net1, steps) ==> !NetExec(net1, steps).w.db.Live(j, n))
  {
    NetStepOk(net, Deliver(m));
    var net1 := NetApply(net, Deliver(m));
    GrantWasMade(net, m, j, n);
    RefusedNotLive(net, m, j, n);
    StepLater(net.w, RequestOf(m));
    assert Later(net.w.db.jobs[j], net1.w.db.jobs[j]);
    if History(net1, steps) {
      NetExecIsExec(net1, steps);
      DeadAttemptsStayDead(net1.w, Seen(steps), j, n);
    }
  }

  lemma GrantWasMade(net: Net, m: Message, j: JobId, n: nat)
    requires NetOk(net) && m in net.sent && Mentions(m, j, n)
    ensures GrantedTo(net.w.db, m.runner, j, n) && net.w.db.HasJob(j) && n <= net.w.db.jobs[j].attempt
  {
    assert Honest(net.w.db, m);
    if m.BeatMsg? { var i :| 0 <= i < |m.refs| && m.refs[i] == JobRef(j, n); }
    var i :| 0 <= i < |net.w.db.events| && IsGrant(net.w.db.events[i], m.runner, j, n);
  }

  lemma RefusedNotLive(net: Net, m: Message, j: JobId, n: nat)
    requires NetOk(net) && m in net.sent && Refused(net.w, m, j, n)
    ensures !net.w.db.Live(j, n)
  {
    if m.BeatMsg? && m.runner != NO_RUNNER {
      BeatKeepsHolds(net.w.db, net.w.now, net.w.cfg.ttl, m.runner, m.refs);
      var ds := Apply(net.w, RequestOf(m)).1.all;
      var i :| 0 <= i < |ds| && m.refs[i] == JobRef(j, n) && ds[i].Abort?;
      AbortIffNotLive(net, m, i);
    }
  }
}
