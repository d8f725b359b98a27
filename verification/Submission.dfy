/** Submission: parse and validate, then insert the run, its jobs and their edges in one transaction. */
module Submission {
  import opened Model
  import opened Ops
  import opened Transactions
  import opened Pipelines
  import opened Stores

  /** Row ids by name, and one row per declared job: roots queued, the rest pending. */
  method BuildRows(jobs: Spec, base: JobId, r: RunId, maxAttempts: nat, now: Time)
    returns (ids: map<Name, JobId>, rows: seq<Job>, roots: set<nat>)
    requires WellFormed(jobs)
    ensures forall i :: 0 <= i < |jobs| ==> jobs[i].name in ids && ids[jobs[i].name] == base + i
    ensures |rows| == |jobs| && roots == set i | 0 <= i < |jobs| && jobs[i].needs == []
    ensures forall i :: 0 <= i < |jobs| ==> rows[i] == RowFor(jobs[i], r, maxAttempts, now)
  {
    ids, rows, roots := map[], [], {};
    for i := 0 to |jobs|
      invariant forall x :: 0 <= x < i ==> jobs[x].name in ids && ids[jobs[x].name] == base + x
      invariant |rows| == i && forall x :: 0 <= x < i ==> rows[x] == RowFor(jobs[x], r, maxAttempts, now)
      invariant roots == set x | 0 <= x < i && jobs[x].needs == []
    {
      assert DeclarationOk(jobs, i);
      ids := ids[jobs[i].name := base + i];
      var state := Pending;
      if jobs[i].needs == [] { state := Queued; roots := roots + {i}; }
      rows := rows +
        [Job(r, jobs[i].labels, jobs[i].timeout, maxAttempts, state, 0, NO_RUNNER, NEVER, NoFailure, None, now, NEVER,
        NEVER, NEVER, NoReason)];
    }
  }

  function RowFor(j: JobSpec, r: RunId, maxAttempts: nat, now: Time): Job {
    NewRow(Item(j.labels, j.timeout, if j.needs == [] then [] else [0]), r, maxAttempts, now)
  }

  /** The dependency edges, by row id. */
  method BuildDeps(jobs: Spec, base: JobId, ids: map<Name, JobId>) returns (deps: seq<seq<JobId>>)
    requires WellFormed(jobs) && forall i :: 0 <= i < |jobs| ==> jobs[i].name in ids && ids[jobs[i].name] == base + i
    ensures deps == Shift(Resolve(jobs), base)
  {
    deps := [];
    for i := 0 to |jobs|
      invariant |deps| == i && forall x :: 0 <= x < i ==> deps[x] == Shift(Resolve(jobs), base)[x]
    {
      var row: seq<JobId> := [];
      for k := 0 to |jobs[i].needs|
        invariant |row| == k && forall b :: 0 <= b < k ==> row[b] == Shift(Resolve(jobs), base)[i][b]
      {
        assert EdgeOk(jobs, i, k);
        var a := IndexOf(jobs, jobs[i].needs[k]);
        row := row + [ids[jobs[i].needs[k]]];
      }
      deps := deps + [row];
    }
  }

  /** The whole submission: rejected untouched, or committed as one new run. */
  method Submit(st: Store, spec: Spec, maxAttempts: nat) returns (reply: Reply)
    requires maxAttempts > 0
    modifies st
    ensures (st.View(), reply) == SubmitTx(old(st.View()), old(st.clock), maxAttempts, spec)
      && st.clock == old(st.clock)
  {
    var p := new Pipeline(spec);
    var problems := p.Finalize();
    if problems != [] { return Invalid; }
    var base, r := |st.jobs|, |st.runs|;
    var ids, rows, roots := BuildRows(p.jobs, base, r, maxAttempts, st.clock);
    var deps := BuildDeps(p.jobs, base, ids);
    SameItems(spec, p.jobs, r, maxAttempts, st.clock, rows, roots);
    st.runs := st.runs + [Run(RunPending, st.clock, NEVER, NEVER)];
    st.jobs := st.jobs + rows;
    st.deps := st.deps + deps;
    st.events := st.events + [RunCreated(r, |rows|, roots)];
    reply := Accepted;
  }

  lemma SameItems(spec: Spec, jobs: Spec, r: RunId, maxAttempts: nat, now: Time, rows: seq<Job>, roots: set<nat>)
    requires WellFormed(spec) && jobs == WithDefaults(spec) && |rows| == |jobs|
    requires forall i :: 0 <= i < |jobs| ==> rows[i] == RowFor(jobs[i], r, maxAttempts, now)
    requires roots == set i | 0 <= i < |jobs| && jobs[i].needs == []
    ensures rows == NewRows(ItemsOf(spec), r, maxAttempts, now) && roots == RootsOf(ItemsOf(spec))
    ensures NeedsOf(ItemsOf(spec)) == Resolve(jobs)
  {
    var items := ItemsOf(spec);
    assert SameShape(jobs, spec);
    SameResolve(spec, jobs);
    forall i | 0 <= i < |spec| ensures items[i].needs == [] <==> jobs[i].needs == [] {
      assert |Resolve(spec)[i]| == |spec[i].needs|;
    }
  }
}
