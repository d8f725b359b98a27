/** The command line's index-based job ordering, and its agreement with the server's. */
module Render {
  import opened Model
  import opened Graphs
  import opened Walk
  import opened Pipelines

  /** A job as the API returns it, with the needs decoded from its spec. */
  datatype CliJob = CliJob(id: JobId, name: Name, needs: seq<Name>)

  /** Where the last of the first `n` jobs called `name` stands: later declarations overwrite earlier ones. */
  function LastIndex(jobs: seq<CliJob>, n: nat, name: Name): Option<nat>
    requires n <= |jobs|
  {
    if n == 0 then None
    else if jobs[n - 1].name == name then Some(n - 1)
    else LastIndex(jobs, n - 1, name)
  }

  /** The positions of the first `k` needs that name a listed job; the rest are ignored. */
  function Known(jobs: seq<CliJob>, needs: seq<Name>, k: nat): (r: seq<nat>)
    requires k <= |needs|
  {
    if k == 0 then []
    else
      match LastIndex(jobs, |jobs|, needs[k - 1])
      case Some(j) => Known(jobs, needs, k - 1) + [j]
      case None => Known(jobs, needs, k - 1)
  }

  lemma {:induction false} LastIndexBound(jobs: seq<CliJob>, n: nat, name: Name)
    requires n <= |jobs|
    ensures var i := LastIndex(jobs, n, name); i.Some? ==> i.value < n && jobs[i.value].name == name
    ensures LastIndex(jobs, n, name).None? ==> forall a :: 0 <= a < n ==> jobs[a].name != name
  {
    if n > 0 { LastIndexBound(jobs, n - 1, name); }
  }

  function CliGraph(jobs: seq<CliJob>): (g: Graph)
    ensures |g| == |jobs| && forall i :: 0 <= i < |jobs| ==> g[i] == Known(jobs, jobs[i].needs, |jobs[i].needs|)
  {
    seq(|jobs|, i requires 0 <= i < |jobs| => Known(jobs, jobs[i].needs, |jobs[i].needs|))
  }

  /** The positions below `n` that `out` leaves over, ascending. */
  function Rest(out: seq<nat>, n: nat): seq<nat> {
    if n == 0 then [] else Rest(out, n - 1) + if n - 1 in out then [] else [n - 1]
  }

  /** The order `dagOrder` lists positions in: the walk, then whatever it could not take. */
  function DagIndices(g: Graph): seq<nat> { Kahn(g, []) + Rest(Kahn(g, []), |g|) }

  ghost predicate IsPermutation(p: seq<nat>, n: nat) { |p| == n && Distinct(p) && Within(p, n) }

  lemma {:induction false} RestMembers(out: seq<nat>, n: nat)
    ensures Distinct(Rest(out, n)) && Within(Rest(out, n), n)
    ensures forall i: nat :: i in Rest(out, n) <==> i < n && i !in out
  {
    if n > 0 { RestMembers(out, n - 1); }
  }

  /** On any input, cyclic or not, every job is listed exactly once. */
  lemma DagOrderIsPermutation(g: Graph)
    ensures IsPermutation(DagIndices(g), |g|)
  {
    var out := Kahn(g, []);
    RestMembers(out, |g|);
    var p := DagIndices(g);
    forall a, b | 0 <= a < b < |p| ensures p[a] != p[b] {
      if a < |out| <= b { assert p[b] == Rest(out, |g|)[b - |out|] && p[b] in Rest(out, |g|) && p[a] in out; }
    }
    DistinctBound(p, |g|);
    forall i | 0 <= i < |g| ensures i in p { assert i in out || i in Rest(out, |g|); }
    CoversAll(g, p);
  }

  // The reverse edges by position.

  ghost predicate ReversedUpto(g: Graph, deps: map<nat, seq<nat>>, i: nat, row: seq<nat>) {
    && (forall j: nat :: Within(DependentsOf<nat>(deps, j), |g|))
    && (forall j: nat, x: nat :: x < |g| ==> multiset(DependentsOf<nat>(deps, j))[x] == SeenEdges(g, x, j, i, row))
  }

  function SeenEdges(g: Graph, x: nat, j: nat, i: nat, row: seq<nat>): nat
    requires x < |g|
  {
    if x < i then multiset(g[x])[j] else if x == i then multiset(row)[j] else 0
  }

  lemma EdgeAdded(g: Graph, deps: map<nat, seq<nat>>, i: nat, row: seq<nat>, j: nat, j': nat, x: nat)
    requires x < |g| && multiset(DependentsOf<nat>(deps, j'))[x] == SeenEdges(g, x, j', i, row)
    ensures multiset(DependentsOf<nat>(deps[j := DependentsOf<nat>(deps, j) + [i]], j'))[x] ==
      SeenEdges(g, x, j', i, row + [j])
  {
    if j' == j {
      assert DependentsOf<nat>(deps[j := DependentsOf<nat>(deps, j) + [i]], j') == DependentsOf<nat>(deps, j') + [i];
    }
  }

  lemma ReverseEdge(g: Graph, deps: map<nat, seq<nat>>, i: nat, row: seq<nat>, j: nat)
    requires i < |g| && ReversedUpto(g, deps, i, row)
    ensures ReversedUpto(g, deps[j := DependentsOf<nat>(deps, j) + [i]], i, row + [j])
  {
    var deps' := deps[j := DependentsOf<nat>(deps, j) + [i]];
    forall j': nat ensures Within(DependentsOf<nat>(deps', j'), |g|) {
      assert Within(DependentsOf<nat>(deps, j'), |g|);
    }
    forall j': nat, x: nat | x < |g|
      ensures multiset(DependentsOf<nat>(deps', j'))[x] == SeenEdges(g, x, j', i, row + [j])
    {
      EdgeAdded(g, deps, i, row, j, j', x);
    }
  }

  lemma ReverseStart(g: Graph)
    ensures ReversedUpto(g, map[], 0, [])
  {
    forall j: nat, x: nat | x < |g| ensures multiset(DependentsOf<nat>(map[], j))[x] == SeenEdges(g, x, j, 0, []) {
      assert DependentsOf<nat>(map[], j) == [];
    }
  }

  lemma ReverseRow(g: Graph, deps: map<nat, seq<nat>>, i: nat)
    requires i < |g| && ReversedUpto(g, deps, i, g[i])
    ensures ReversedUpto(g, deps, i + 1, [])
  {
    forall j: nat, x: nat | x < |g| ensures multiset(DependentsOf<nat>(deps, j))[x] == SeenEdges(g, x, j, i + 1, []) {
      assert multiset(DependentsOf<nat>(deps, j))[x] == SeenEdges(g, x, j, i, g[i]);
    }
  }

  function Iota(n: nat): (r: seq<nat>)
    ensures |r| == n && forall i :: 0 <= i < n ==> r[i] == i
  {
    seq(n, i => i)
  }

  lemma ReversedIsDepsOk(g: Graph, deps: map<nat, seq<nat>>)
    requires ReversedUpto(g, deps, |g|, [])
    ensures DepsOk<nat>(Iota(|g|), g, deps)
  {
    var names := Iota(|g|);
    forall a | 0 <= a < |g| ensures DependentList<nat>(names, g, a, DependentsOf<nat>(deps, a)) {
      var ds := DependentsOf<nat>(deps, a);
      assert Within(ds, |g|);
      forall k | 0 <= k < |ds| ensures ds[k] in names { assert names[ds[k]] == ds[k]; }
      forall x | 0 <= x < |g| ensures multiset(ds)[names[x]] == multiset(g[x])[a] {
        assert multiset(ds)[x] == SeenEdges(g, x, a, |g|, []);
      }
    }
  }

  method BuildIndex(jobs: seq<CliJob>) returns (index: map<Name, nat>)
    ensures forall n :: LastIndex(jobs, |jobs|, n) == if n in index then Some(index[n]) else None
  {
    index := map[];
    for i := 0 to |jobs|
      invariant forall n :: LastIndex(jobs, i, n) == if n in index then Some(index[n]) else None
    {
      index := index[jobs[i].name := i];
    }
  }

  method BuildEdges(jobs: seq<CliJob>, index: map<Name, nat>) returns (indeg: map<nat, int>, deps: map<nat, seq<nat>>)
    requires forall n :: LastIndex(jobs, |jobs|, n) == if n in index then Some(index[n]) else None
    ensures ReversedUpto(CliGraph(jobs), deps, |jobs|, [])
    ensures forall x :: 0 <= x < |jobs| ==> x in indeg && indeg[x] == |CliGraph(jobs)[x]|
  {
    ghost var g := CliGraph(jobs);
    indeg, deps := map[], map[];
    ReverseStart(g);
    for i := 0 to |jobs|
      invariant ReversedUpto(g, deps, i, [])
      invariant forall x :: 0 <= x < i ==> x in indeg && indeg[x] == |g[x]|
    {
      var d := 0;
      var needs := jobs[i].needs;
      for k := 0 to |needs|
        invariant ReversedUpto(g, deps, i, Known(jobs, needs, k)) && d == |Known(jobs, needs, k)|
      {
        if needs[k] in index {
          ReverseEdge(g, deps, i, Known(jobs, needs, k), index[needs[k]]);
          d := d + 1;
          deps := deps[index[needs[k]] := DependentsOf<nat>(deps, index[needs[k]]) + [i]];
        }
      }
      ReverseRow(g, deps, i);
      indeg := indeg[i := d];
    }
  }

  /** `dagOrder`: the jobs in walk order, then those whose needs never resolve, in the server's order. */
  method DagOrder(jobs: seq<CliJob>) returns (out: seq<CliJob>)
    ensures Within(DagIndices(CliGraph(jobs)), |jobs|)
    ensures out == Pick(jobs, DagIndices(CliGraph(jobs)))
  {
    ghost var g, names := CliGraph(jobs), Iota(|jobs|);
    var index := BuildIndex(jobs);
    var indeg, deps := BuildEdges(jobs, index);
    ReversedIsDepsOk(g, deps);
    var ready: seq<nat> := [];
    for i := 0 to |jobs|
      invariant Distinct<nat>(ready) && (forall k :: 0 <= k < |ready| ==> ready[k] < i)
      invariant forall x :: 0 <= x < i ==> (x in ready <==> |g[x]| == 0)
    {
      if indeg[i] == 0 { ready := ready + [i]; }
    }
    StartOk(g, indeg, ready);
    var taken;
    taken, indeg := TakeAll<nat>(deps, indeg, ready, i => i, names, g);
    assert taken == Kahn(g, []);
    DagOrderIsPermutation(g);
    out := Arrange(jobs, taken);
  }

  /** The taken jobs, then the jobs not done, in order. */
  method Arrange(jobs: seq<CliJob>, taken: seq<nat>) returns (out: seq<CliJob>)
    requires Within(taken, |jobs|)
    ensures Within(taken + Rest(taken, |jobs|), |jobs|)
    ensures out == Pick(jobs, taken + Rest(taken, |jobs|))
  {
    RestMembers(taken, |jobs|);
    out := [];
    for k := 0 to |taken|
      invariant |out| == k && forall a :: 0 <= a < k ==> out[a] == jobs[taken[a]]
    {
      out := out + [jobs[taken[k]]];
    }
    ghost var order := taken;
    for i := 0 to |jobs|
      invariant order == taken + Rest(taken, i) && |out| == |order|
      invariant forall a :: 0 <= a < |order| ==> order[a] < |jobs| && out[a] == jobs[order[a]]
    {
      if i !in taken { out := out + [jobs[i]]; order := order + [i]; }
    }
  }

  lemma StartOk(g: Graph, indeg: map<nat, int>, ready: seq<nat>)
    requires forall x :: 0 <= x < |g| ==> x in indeg && indeg[x] == |g[x]|
    requires Distinct<nat>(ready) && (forall k :: 0 <= k < |ready| ==> ready[k] < |g|)
    requires forall x :: 0 <= x < |g| ==> (x in ready <==> |g[x]| == 0)
    ensures Named<nat>(Iota(|g|), g) && Degrees<nat>(Iota(|g|), g, [], indeg) && ReadyList<nat>(Iota(|g|), g, [], ready)
  {
    forall x | 0 <= x < |g| ensures Missing(g[x], []) == |g[x]| { MissingAll(g[x]); }
    forall k | 0 <= k < |ready| ensures ready[k] in Iota(|g|) { assert Iota(|g|)[ready[k]] == ready[k]; }
  }

  // Agreement with the server.

  /** The jobs of a run as the API lists them: one per declaration, in declaration order. */
  ghost predicate Lists(jobs: seq<CliJob>, spec: Spec) {
    |jobs| == |spec| && forall i :: 0 <= i < |spec| ==> jobs[i].name == spec[i].name && jobs[i].needs == spec[i].needs
  }

  lemma SameResolution(jobs: seq<CliJob>, spec: Spec, needs: seq<Name>, k: nat)
    requires WellFormed(spec) && Lists(jobs, spec) && k <= |needs| && forall a :: 0 <= a < k ==> Names(spec, needs[a])
    ensures |Known(jobs, needs, k)| == k && forall a ::
      0 <= a < k ==> Known(jobs, needs, k)[a] == IndexOf(spec, needs[a])
  {
    if k > 0 {
      SameResolution(jobs, spec, needs, k - 1);
      LastIndexBound(jobs, |jobs|, needs[k - 1]);
      var i := IndexOf(spec, needs[k - 1]);
      assert jobs[i].name == needs[k - 1];
      NamesAreUnique(spec, i, LastIndex(jobs, |jobs|, needs[k - 1]).value);
    }
  }

  /** On every pipeline the server accepts, the command line shows the server's own topological order. */
  lemma DagOrderAgrees(jobs: seq<CliJob>, spec: Spec)
    requires Accepts(spec) && Lists(jobs, spec)
    ensures CliGraph(jobs) == Resolve(spec) && DagIndices(CliGraph(jobs)) == Kahn(Resolve(spec), [])
    ensures IsOrder(Resolve(spec), DagIndices(CliGraph(jobs)))
  {
    var g := Resolve(spec);
    forall i | 0 <= i < |spec| ensures CliGraph(jobs)[i] == g[i] {
      forall k | 0 <= k < |spec[i].needs| ensures Names(spec, spec[i].needs[k]) { assert EdgeOk(spec, i, k); }
      SameResolution(jobs, spec, spec[i].needs, |spec[i].needs|);
    }
    ResolveValid(spec);
    KahnCompleteIffAcyclic(g);
    CompleteHasAll(g, Kahn(g, []));
    RestEmpty(Kahn(g, []), |g|);
  }

  lemma {:induction false} RestEmpty(out: seq<nat>, n: nat)
    requires forall i :: 0 <= i < n ==> i in out
    ensures Rest(out, n) == []
  {
    if n > 0 { RestEmpty(out, n - 1); }
  }
}
