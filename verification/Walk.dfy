/**
 One step of Kahn's algorithm as the code performs it: in-degrees in a map, a list of ready names and
 lists of dependents. Vertex `x` of the needs graph `g` is called `names[x]`.
 */
module Walk {
  import opened Graphs
  import opened Model

  // Unmet needs, counted with multiplicity: the in-degree of the walk.

  function Missing(needs: seq<nat>, out: seq<nat>): nat {
    if needs == [] then 0
    else Missing(needs[..|needs| - 1], out) + if needs[|needs| - 1] in out then 0 else 1
  }

  lemma {:induction false} MissingZero(needs: seq<nat>, out: seq<nat>)
    ensures Missing(needs, out) == 0 <==> forall k :: 0 <= k < |needs| ==> needs[k] in out
  {
    if needs != [] {
      MissingZero(needs[..|needs| - 1], out);
      if Missing(needs, out) == 0 {
        forall k | 0 <= k < |needs| ensures needs[k] in out {
          if k < |needs| - 1 { assert needs[..|needs| - 1][k] in out; }
        }
      }
    }
  }

  /** Taking `a` meets exactly its occurrences among the needs. */
  lemma {:induction false} MissingTake(needs: seq<nat>, out: seq<nat>, a: nat)
    requires a !in out
    ensures Missing(needs, out + [a]) + multiset(needs)[a] == Missing(needs, out)
  {
    if needs != [] {
      MissingTake(needs[..|needs| - 1], out, a);
      assert needs == needs[..|needs| - 1] + [needs[|needs| - 1]];
    }
  }

  // Sorting the ready list, as sort.Ints and sort.Slice do.

  ghost predicate Ascending<T>(s: seq<T>, rank: T -> int) {
    forall a, b :: 0 <= a < b < |s| ==> rank(s[a]) <= rank(s[b])
  }

  ghost predicate SameMembers<T>(s: seq<T>, t: seq<T>) {
    (forall x :: x in s ==> x in t) && (forall x :: x in t ==> x in s)
  }

  method SortBy<T>(s: seq<T>, rank: T -> int) returns (r: seq<T>)
    requires Distinct(s)
    ensures |r| == |s| && Distinct(r) && SameMembers(r, s) && Ascending(r, rank)
  {
    r := [];
    for i := 0 to |s|
      invariant |r| == i && Distinct(r) && SameMembers(r, s[..i]) && Ascending(r, rank)
    {
      var p := i;
      while p > 0 && rank(r[p - 1]) > rank(s[i])
        invariant 0 <= p <= i && forall b :: p <= b < |r| ==> rank(s[i]) < rank(r[b])
      {
        p := p - 1;
      }
      assert s[i] !in r;
      InsertKeeps(r, s[i], p, rank, s[..i]);
      assert s[..i + 1] == s[..i] + [s[i]];
      r := r[..p] + [s[i]] + r[p..];
    }
    assert s[..|s|] == s;
  }

  lemma InsertKeeps<T>(r: seq<T>, x: T, p: nat, rank: T -> int, s: seq<T>)
    requires Distinct(r) && x !in r && Ascending(r, rank) && SameMembers(r, s)
    requires p <= |r| && (p > 0 ==> rank(r[p - 1]) <= rank(x)) && forall b :: p <= b < |r| ==> rank(x) < rank(r[b])
    ensures var r' := r[..p] + [x] + r[p..]; Distinct(r') && Ascending(r', rank) && SameMembers(r', s + [x])
  {
    InsertAscending(r, x, p, rank);
    InsertDistinct(r, x, p);
    InsertMembers(r, x, p, s);
  }

  lemma InsertDistinct<T>(r: seq<T>, x: T, p: nat)
    requires Distinct(r) && x !in r && p <= |r|
    ensures Distinct(r[..p] + [x] + r[p..])
  {}

  lemma InsertMembers<T>(r: seq<T>, x: T, p: nat, s: seq<T>)
    requires SameMembers(r, s) && p <= |r|
    ensures SameMembers(r[..p] + [x] + r[p..], s + [x])
  {
    assert r == r[..p] + r[p..];
  }

  lemma InsertAscending<T>(r: seq<T>, x: T, p: nat, rank: T -> int)
    requires Ascending(r, rank)
    requires p <= |r| && (p > 0 ==> rank(r[p - 1]) <= rank(x)) && forall b :: p <= b < |r| ==> rank(x) < rank(r[b])
    ensures Ascending(r[..p] + [x] + r[p..], rank)
  {
    var r' := r[..p] + [x] + r[p..];
    forall a, b | 0 <= a < b < |r'| ensures rank(r'[a]) <= rank(r'[b]) {
      var a', b' := if a <= p then a else a - 1, if b <= p then b else b - 1;
      assert (a == p || r'[a] == r[a']) && (b == p || r'[b] == r[b']);
    }
  }

  ghost predicate Named<T>(names: seq<T>, g: Graph) { |names| == |g| && Distinct(names) }

  /** `indeg` counts the needs of every job still untaken. */
  ghost predicate Degrees<T(!new)>(names: seq<T>, g: Graph, out: seq<nat>, indeg: map<T, int>)
    requires |names| == |g|
  {
    forall x :: 0 <= x < |g| ==> names[x] in indeg && indeg[names[x]] == Missing(g[x], out)
  }

  /** `ready` lists, once each, the jobs that could be taken next. */
  ghost predicate ReadyList<T>(names: seq<T>, g: Graph, out: seq<nat>, ready: seq<T>)
    requires |names| == |g|
  {
    && Distinct(ready)
    && (forall k :: 0 <= k < |ready| ==> ready[k] in names)
    && (forall x :: 0 <= x < |g| ==> (names[x] in ready <==> Ready(g, out, x)))
  }

  /** `ds` lists every job as often as it needs `a`. */
  ghost predicate DependentList<T(!new)>(names: seq<T>, g: Graph, a: nat, ds: seq<T>)
    requires |names| == |g|
  {
    && (forall k :: 0 <= k < |ds| ==> ds[k] in names)
    && (forall x :: 0 <= x < |g| ==> multiset(ds)[names[x]] == multiset(g[x])[a])
  }

  lemma ReadyIffNoneMissing(g: Graph, out: seq<nat>, x: nat)
    requires x < |g|
    ensures Ready(g, out, x) <==> x !in out && Missing(g[x], out) == 0
  {
    MissingZero(g[x], out);
  }

  /** A job that needs the ready job `a` has not been taken, and is not `a`. */
  lemma DependentUntaken(g: Graph, out: seq<nat>, a: nat, x: nat)
    requires a < |g| && x < |g| && Partial(g, out) && Ready(g, out, a) && a in g[x]
    ensures x !in out + [a]
  {
    var k :| 0 <= k < |g[x]| && g[x][k] == a;
    if x in out { NeedsTaken(g, out, x, k); }
  }

  lemma LeastInReadyList<T(!new)>(names: seq<T>, g: Graph, out: seq<nat>, ready: seq<T>, rank: T -> int)
    requires |names| == |g| && ReadyList(names, g, out, ready) && ready != [] && Ascending(ready, rank)
    requires forall x :: 0 <= x < |g| ==> rank(names[x]) == x
    ensures var i := LeastReady(g, out, 0); i < |g| && names[i] == ready[0]
  {
    assert ready[0] in names;
    var j :| 0 <= j < |names| && names[j] == ready[0];
    var i := LeastReady(g, out, 0);
    assert i <= j;
    assert names[i] in ready;
    var k :| 0 <= k < |ready| && ready[k] == names[i];
    assert rank(ready[0]) == j && rank(ready[k]) == i;
  }

  // Taking job `a`: the dependents in `done` have had their count lowered.

  ghost predicate Lowered<T(!new)>(names: seq<T>, g: Graph, out: seq<nat>, done: seq<T>, indeg: map<T, int>)
    requires |names| == |g|
  {
    forall x :: 0 <= x < |g| ==>
      names[x] in indeg && indeg[names[x]] == Missing(g[x], out) - multiset(done)[names[x]]
  }

  ghost predicate ListsZeros<T(!new)>(names: seq<T>, taken: seq<nat>, indeg: map<T, int>, ready: seq<T>) {
    && Distinct(ready)
    && (forall k :: 0 <= k < |ready| ==> ready[k] in names)
    && (forall x ::
          0 <= x < |names| ==> (names[x] in ready <==> x !in taken && names[x] in indeg && indeg[names[x]] == 0))
  }

  lemma ReleaseStart<T(!new)>(
      names: seq<T>, g: Graph, out: seq<nat>, a: nat, ds: seq<T>, indeg: map<T, int>, ready: seq<T>)
    requires Named(names, g) && a < |g| && Degrees(names, g, out, indeg)
    requires ready != [] && ready[0] == names[a] && ReadyList(names, g, out, ready)
    ensures Releasing(names, g, out, a, ds, 0, indeg, ready[1..])
  {
    assert ready == [ready[0]] + ready[1..] && ds[..0] == [];
    forall x | 0 <= x < |g| ensures names[x] in ready[1..] <==> x !in out + [a] && indeg[names[x]] == 0 {
      ReadyIffNoneMissing(g, out, x);
    }
  }

  lemma PrefixCount<T>(ds: seq<T>, k: nat)
    requires k < |ds|
    ensures ds[..k + 1] == ds[..k] + [ds[k]] && multiset(ds[..k])[ds[k]] < multiset(ds)[ds[k]]
  {
    assert ds == ds[..k] + [ds[k]] + ds[k + 1..];
  }

  lemma LoweredNext<T(!new)>(names: seq<T>, g: Graph, out: seq<nat>, ds: seq<T>, k: nat, indeg: map<T, int>)
    requires Named(names, g) && k < |ds| && ds[k] in names && Lowered(names, g, out, ds[..k], indeg)
    ensures ds[k] in indeg && Lowered(names, g, out, ds[..k + 1], indeg[ds[k] := indeg[ds[k]] - 1])
  {
    PrefixCount(ds, k);
  }

  /**
   A dependent still to be released has a positive count, so it is not listed yet and is listed when it reaches
   zero.
   */
  lemma ListNext<T(!new)>(
      names: seq<T>, g: Graph, out: seq<nat>, a: nat, ds: seq<T>, k: nat, indeg: map<T, int>, ready: seq<T>)
    requires Named(names, g) && a < |g| && Partial(g, out) && Ready(g, out, a) && DependentList(names, g, a, ds)
      && k < |ds|
    requires Lowered(names, g, out, ds[..k], indeg) && ListsZeros(names, out + [a], indeg, ready) && ds[k] in indeg
    ensures var indeg' := indeg[ds[k] := indeg[ds[k]] - 1];
      ListsZeros(names, out + [a], indeg', if indeg'[ds[k]] == 0 then ready + [ds[k]] else ready)
  {
    var y :| 0 <= y < |names| && names[y] == ds[k];
    PrefixCount(ds, k);
    assert multiset(g[y])[a] > 0;
    assert a in g[y];
    DependentUntaken(g, out, a, y);
    MissingTake(g[y], out, a);
    ZeroListed(names, out + [a], y, indeg, ready);
  }

  lemma ZeroListed<T(!new)>(names: seq<T>, taken: seq<nat>, y: nat, indeg: map<T, int>, ready: seq<T>)
    requires Distinct(names) && y < |names| && y !in taken && names[y] in indeg && indeg[names[y]] > 0
    requires ListsZeros(names, taken, indeg, ready)
    ensures var indeg' := indeg[names[y] := indeg[names[y]] - 1];
      ListsZeros(names, taken, indeg', if indeg'[names[y]] == 0 then ready + [names[y]] else ready)
  {
    assert names[y] !in ready;
  }

  lemma ReleasedAt<T(!new)>(names: seq<T>, g: Graph, out: seq<nat>, a: nat, indeg: map<T, int>, ready: seq<T>, x: nat)
    requires |names| == |g| && a < |g| && a !in out && x < |g| && names[x] in indeg
      && indeg[names[x]] == Missing(g[x], out) - multiset(g[x])[a]
    requires names[x] in ready <==> x !in out + [a] && indeg[names[x]] == 0
    ensures indeg[names[x]] == Missing(g[x], out + [a]) && (names[x] in ready <==> Ready(g, out + [a], x))
  {
    MissingTake(g[x], out, a);
    ReadyIffNoneMissing(g, out + [a], x);
  }

  lemma ReleaseEnd<T(!new)>(
      names: seq<T>, g: Graph, out: seq<nat>, a: nat, ds: seq<T>, indeg: map<T, int>, ready: seq<T>)
    requires Named(names, g) && a < |g| && a !in out && DependentList(names, g, a, ds)
    requires Releasing(names, g, out, a, ds, |ds|, indeg, ready)
    ensures Degrees(names, g, out + [a], indeg) && ReadyList(names, g, out + [a], ready)
  {
    assert ds[..|ds|] == ds;
    forall x | 0 <= x < |g|
      ensures indeg[names[x]] == Missing(g[x], out + [a])
      ensures names[x] in ready <==> Ready(g, out + [a], x)
    {
      ReleasedAt(names, g, out, a, indeg, ready, x);
    }
  }

  /** The first `k` dependents have been released. */
  ghost predicate Releasing<T(!new)>(
      names: seq<T>, g: Graph, out: seq<nat>, a: nat, ds: seq<T>, k: nat, indeg: map<T, int>, ready: seq<T>)
    requires |names| == |g| && k <= |ds|
  {
    Lowered(names, g, out, ds[..k], indeg) && ListsZeros(names, out + [a], indeg, ready)
  }

  lemma ReleaseNext<T(!new)>(
      names: seq<T>, g: Graph, out: seq<nat>, a: nat, ds: seq<T>, k: nat, indeg: map<T, int>, ready: seq<T>)
    requires Named(names, g) && a < |g| && Partial(g, out) && Ready(g, out, a) && DependentList(names, g, a, ds)
      && k < |ds|
    requires Releasing(names, g, out, a, ds, k, indeg, ready)
    ensures ds[k] in indeg
    ensures var indeg' := indeg[ds[k] := indeg[ds[k]] - 1];
      Releasing(names, g, out, a, ds, k + 1, indeg', if indeg'[ds[k]] == 0 then ready + [ds[k]] else ready)
  {
    LoweredNext(names, g, out, ds, k, indeg);
    ListNext(names, g, out, a, ds, k, indeg, ready);
  }

  /** `indeg[d]--` for every dependent `d` of the job just taken, queueing those that reach zero. */
  method Release<T(!new,==)>(
      ds: seq<T>, indeg: map<T, int>, ready: seq<T>, ghost names: seq<T>, ghost g: Graph, ghost out: seq<nat>,
      ghost a: nat)
    returns (indeg': map<T, int>, ready': seq<T>)
    requires Named(names, g) && a < |g| && Partial(g, out) && Ready(g, out, a) && DependentList(names, g, a, ds)
    requires Releasing(names, g, out, a, ds, 0, indeg, ready)
    ensures Degrees(names, g, out + [a], indeg') && ReadyList(names, g, out + [a], ready')
  {
    indeg', ready' := indeg, ready;
    for k := 0 to |ds|
      invariant Releasing(names, g, out, a, ds, k, indeg', ready')
    {
      var d := ds[k];
      ReleaseNext(names, g, out, a, ds, k, indeg', ready');
      indeg' := indeg'[d := indeg'[d] - 1];
      if indeg'[d] == 0 { ready' := ready' + [d]; }
    }
    ReleaseEnd(names, g, out, a, ds, indeg', ready');
  }

  /** When the walk has ended, an unmet need is what every leftover job has and no taken job has. */
  lemma StuckByDegree(g: Graph, i: nat)
    requires Valid(g) && i < |g|
    ensures Missing(g[i], Kahn(g, [])) > 0 <==> ReachesCycle(g, i)
  {
    var out := Kahn(g, []);
    KahnWalks(g, []);
    StuckIffReachesCycle(g, i);
    ReadyIffNoneMissing(g, out, i);
    MissingZero(g[i], out);
    if i in out {
      forall k | 0 <= k < |g[i]| ensures g[i][k] in out { NeedsTaken(g, out, i, k); }
    }
  }

  function DependentsOf<T>(deps: map<T, seq<T>>, name: T): seq<T> { if name in deps then deps[name] else [] }

  /** `deps` lists, for every job, the jobs that need it. */
  ghost predicate DepsOk<T(!new)>(names: seq<T>, g: Graph, deps: map<T, seq<T>>)
    requires |names| == |g|
  {
    forall a :: 0 <= a < |g| ==> DependentList(names, g, a, DependentsOf(deps, names[a]))
  }

  function Pick<T>(names: seq<T>, ids: seq<nat>): (r: seq<T>)
    requires Within(ids, |names|)
    ensures |r| == |ids| && forall k :: 0 <= k < |ids| ==> r[k] == names[ids[k]]
  {
    seq(|ids|, k requires 0 <= k < |ids| => names[ids[k]])
  }

  lemma NoneReady<T(!new)>(names: seq<T>, g: Graph, out: seq<nat>)
    requires |names| == |g| && Partial(g, out) && ReadyList(names, g, out, [])
    ensures Kahn(g, out) == out
  {
    forall i | 0 <= i < |g| ensures !Ready(g, out, i) { assert names[i] !in []; }
  }

  /** The loop of the walk: take the first ready job by declaration, release its dependents, until none is ready. */
  method TakeAll<T(!new,==)>(
      deps: map<T, seq<T>>, indeg0: map<T, int>, ready0: seq<T>, rank: T -> int, ghost names: seq<T>, ghost g: Graph)
    returns (out: seq<T>, indeg: map<T, int>)
    requires Named(names, g) && DepsOk(names, g, deps) && Degrees(names, g, [], indeg0)
      && ReadyList(names, g, [], ready0)
    requires forall x :: 0 <= x < |g| ==> rank(names[x]) == x
    ensures out == Pick(names, Kahn(g, [])) && Degrees(names, g, Kahn(g, []), indeg)
  {
    var ready: seq<T>;
    indeg, ready, out := indeg0, ready0, [];
    ghost var taken: seq<nat> := [];
    while ready != []
      invariant Partial(g, taken) && Kahn(g, taken) == Kahn(g, []) && out == Pick(names, taken)
      invariant Degrees(names, g, taken, indeg) && ReadyList(names, g, taken, ready)
      decreases |g| - |taken|
    {
      var sorted := SortBy(ready, rank);
      ghost var i := TakeLeast(names, g, taken, ready, sorted, rank);
      ReleaseStart(names, g, taken, i, DependentsOf(deps, sorted[0]), indeg, sorted);
      out := out + [sorted[0]];
      indeg, ready := Release(DependentsOf(deps, sorted[0]), indeg, sorted[1..], names, g, taken, i);
      taken := taken + [i];
    }
    NoneReady(names, g, taken);
  }

  /** The head of the sorted ready list is the vertex the walk takes next. */
  lemma TakeLeast<T(!new)>(names: seq<T>, g: Graph, out: seq<nat>, ready: seq<T>, sorted: seq<T>, rank: T -> int)
    returns (i: nat)
    requires Named(names, g) && Partial(g, out) && ReadyList(names, g, out, ready) && ready != []
    requires |sorted| == |ready| && Distinct(sorted) && SameMembers(sorted, ready) && Ascending(sorted, rank)
    requires forall x :: 0 <= x < |g| ==> rank(names[x]) == x
    ensures i < |g| && names[i] == sorted[0] && Ready(g, out, i) && ReadyList(names, g, out, sorted)
    ensures Partial(g, out + [i]) && Kahn(g, out + [i]) == Kahn(g, out) && |out| < |g|
    ensures Pick(names, out + [i]) == Pick(names, out) + [sorted[0]]
  {
    assert ReadyList(names, g, out, sorted) by {
      forall k | 0 <= k < |sorted| ensures sorted[k] in names { assert sorted[k] in ready; }
    }
    LeastInReadyList(names, g, out, sorted, rank);
    i := LeastReady(g, out, 0);
    PartialExtends(g, out, i);
    DistinctBound(out + [i], |g|);
  }

  /** In declaration order, those of the first `n` jobs from which needs lead into a cycle. */
  ghost function Cyclic<T>(names: seq<T>, g: Graph, n: nat): seq<T>
    requires n <= |names|
  {
    if n == 0 then [] else Cyclic(names, g, n - 1) + if ReachesCycle(g, n - 1) then [names[n - 1]] else []
  }

  method Leftover<T(!new,==)>(names: seq<T>, indeg: map<T, int>, ghost g: Graph) returns (stuck: seq<T>)
    requires |names| == |g| && Valid(g) && Degrees(names, g, Kahn(g, []), indeg)
    ensures stuck == Cyclic(names, g, |names|)
  {
    stuck := [];
    for i := 0 to |names|
      invariant stuck == Cyclic(names, g, i)
    {
      StuckByDegree(g, i);
      if indeg[names[i]] > 0 { stuck := stuck + [names[i]]; }
    }
  }
}
