/**
 Needs graphs: vertex `i` needs the vertices `g[i]`. Acyclicity, the declaration-order Kahn walk as a
 specification, and what that walk computes.
 */
module Graphs {

  type Graph = seq<seq<nat>>

  ghost predicate Valid(g: Graph) {
    forall i, k :: 0 <= i < |g| && 0 <= k < |g[i]| ==> g[i][k] < |g|
  }

  ghost predicate Distinct<T>(s: seq<T>) { forall a, b :: 0 <= a < b < |s| ==> s[a] != s[b] }

  /** Some member of `S` needs nothing in `S`. */
  ghost predicate HasMinimal(g: Graph, S: set<nat>) {
    exists i :: i in S && i < |g| && forall k :: 0 <= k < |g[i]| ==> g[i][k] !in S
  }

  /** Well-foundedness of "needs": every nonempty set of vertices has a minimal member. */
  ghost predicate Acyclic(g: Graph) {
    forall S: set<nat> :: S != {} && (forall i :: i in S ==> i < |g|) ==> HasMinimal(g, S)
  }

  /** A walk along needs. */
  ghost predicate Walk(g: Graph, p: seq<nat>) {
    && |p| > 0
    && (forall a :: 0 <= a < |p| ==> p[a] < |g|)
    && (forall a :: 0 <= a < |p| - 1 ==> p[a + 1] in g[p[a]])
  }

  /** Following needs from `i` can come back to a vertex already passed. */
  ghost predicate ReachesCycle(g: Graph, i: nat) {
    exists p: seq<nat> :: Walk(g, p) && p[0] == i && !Distinct(p)
  }

  // The walk: always take the lowest-numbered vertex whose needs are all taken.

  predicate Ready(g: Graph, out: seq<nat>, i: nat)
    requires i < |g|
  {
    i !in out && forall k :: 0 <= k < |g[i]| ==> g[i][k] in out
  }

  function LeastReady(g: Graph, out: seq<nat>, from: nat): (r: nat)
    requires from <= |g|
    ensures from <= r <= |g| && (r < |g| ==> Ready(g, out, r))
    ensures forall i :: from <= i < r ==> !Ready(g, out, i)
    decreases |g| - from
  {
    if from == |g| || Ready(g, out, from) then from else LeastReady(g, out, from + 1)
  }

  ghost predicate Partial(g: Graph, out: seq<nat>) {
    && Distinct(out)
    && (forall a :: 0 <= a < |out| ==> out[a] < |g|)
    && (forall a, k :: 0 <= a < |out| && 0 <= k < |g[out[a]]| ==> g[out[a]][k] in out[..a])
  }

  /** A topological order of the whole graph. */
  ghost predicate IsOrder(g: Graph, p: seq<nat>) { Partial(g, p) && |p| == |g| }

  function Kahn(g: Graph, out: seq<nat>): (r: seq<nat>)
    requires Partial(g, out)
    ensures Partial(g, r)
    decreases |g| - |out|
  {
    var i := LeastReady(g, out, 0);
    if i == |g| then out
    else
      PartialExtends(g, out, i);
      DistinctBound(out + [i], |g|);
      Kahn(g, out + [i])
  }

  /** The walk extends what it was given, takes the least ready vertex each time, and stops when none is. */
  lemma {:induction false} KahnWalks(g: Graph, out: seq<nat>)
    requires Partial(g, out)
    ensures var r := Kahn(g, out);
      && Partial(g, r) && out <= r
      && (forall i :: 0 <= i < |g| ==> !Ready(g, r, i))
      && (forall a :: |out| <= a < |r| ==> r[a] == LeastReady(g, r[..a], 0))
    decreases |g| - |out|
  {
    var i := LeastReady(g, out, 0);
    if i < |g| {
      PartialExtends(g, out, i);
      DistinctBound(out + [i], |g|);
      KahnWalks(g, out + [i]);
      KahnStep(g, out, i, Kahn(g, out + [i]));
    }
  }

  lemma KahnStep(g: Graph, out: seq<nat>, i: nat, r: seq<nat>)
    requires out + [i] <= r && i == LeastReady(g, out, 0)
    requires forall a :: |out + [i]| <= a < |r| ==> r[a] == LeastReady(g, r[..a], 0)
    ensures out <= r && forall a :: |out| <= a < |r| ==> r[a] == LeastReady(g, r[..a], 0)
  {
    assert r[..|out|] == out && r[|out|] == i;
  }

  lemma PartialExtends(g: Graph, out: seq<nat>, i: nat)
    requires Partial(g, out) && i < |g| && Ready(g, out, i)
    ensures Partial(g, out + [i])
  {
    var r := out + [i];
    forall a, k | 0 <= a < |r| && 0 <= k < |g[r[a]]| ensures g[r[a]][k] in r[..a] {
      assert r[..a] == if a < |out| then out[..a] else out;
    }
  }

  /** What has been taken has had its needs taken. */
  lemma NeedsTaken(g: Graph, out: seq<nat>, x: nat, k: nat)
    requires Partial(g, out) && x in out && x < |g| && k < |g[x]|
    ensures g[x][k] in out
  {
    var b :| 0 <= b < |out| && out[b] == x;
    assert g[out[b]][k] in out[..b];
  }

  /** Distinct numbers below `n` are at most `n`. */
  lemma {:induction false} DistinctBound(s: seq<nat>, n: nat)
    requires Distinct(s) && forall a :: 0 <= a < |s| ==> s[a] < n
    ensures |s| <= n
  {
    var S := set a | 0 <= a < |s| :: s[a];
    SetSize(s);
    RangeSize(S, n);
  }

  lemma {:induction false} SetSize(s: seq<nat>)
    requires Distinct(s)
    ensures |set a | 0 <= a < |s| :: s[a]| == |s|
  {
    if s != [] {
      var t := s[..|s| - 1];
      SetSize(t);
      var S, T := set a | 0 <= a < |s| :: s[a], set a | 0 <= a < |t| :: t[a];
      assert S == T + {s[|s| - 1]};
    }
  }

  lemma {:induction false} RangeSize(S: set<nat>, n: nat)
    requires forall x :: x in S ==> x < n
    ensures |S| <= n
  {
    if n > 0 {
      RangeSize(S - {n - 1}, n - 1);
      assert S <= (S - {n - 1}) + {n - 1};
    } else {
      assert S == {};
    }
  }

  /** What the walk never takes: each such vertex needs another one. */
  ghost function Stuck(g: Graph): set<nat> {
    set i | 0 <= i < |g| && i !in Kahn(g, [])
  }

  lemma StuckNeedsStuck(g: Graph, i: nat)
    requires Valid(g) && i in Stuck(g)
    ensures exists k :: 0 <= k < |g[i]| && g[i][k] in Stuck(g)
  {
    KahnWalks(g, []);
    assert !Ready(g, Kahn(g, []), i);
  }

  lemma {:induction false} CompleteHasAll(g: Graph, p: seq<nat>)
    requires IsOrder(g, p)
    ensures forall i :: 0 <= i < |g| ==> i in p
  {
    forall i | 0 <= i < |g| ensures i in p {
      if i !in p { DistinctBound(p + [i], |g|); }
    }
  }

  /** The walk is a topological order of the whole graph exactly when the graph is acyclic. */
  lemma KahnCompleteIffAcyclic(g: Graph)
    requires Valid(g)
    ensures Acyclic(g) <==> IsOrder(g, Kahn(g, []))
  {
    var out := Kahn(g, []);
    KahnWalks(g, []);
    if Acyclic(g) && |out| != |g| {
      DistinctBound(out, |g|);
      assert Stuck(g) != {} by {
        if Stuck(g) == {} {
          forall i | 0 <= i < |g| ensures i in out { assert i !in Stuck(g); }
          CoversAll(g, out);
        }
      }
      assert HasMinimal(g, Stuck(g));
      var i :| i in Stuck(g) && i < |g| && forall k :: 0 <= k < |g[i]| ==> g[i][k] !in Stuck(g);
      StuckNeedsStuck(g, i);
    }
    if IsOrder(g, out) { OrderMeansAcyclic(g, out); }
  }

  lemma CoversAll(g: Graph, out: seq<nat>)
    requires forall i :: 0 <= i < |g| ==> i in out
    ensures |out| >= |g|
  {
    var S := set a | 0 <= a < |out| :: out[a];
    forall i | 0 <= i < |g| ensures i in S { assert i in out; }
    RangeCover(S, |g|);
    ImageSize(out);
  }

  lemma {:induction false} RangeCover(S: set<nat>, n: nat)
    requires forall i :: 0 <= i < n ==> i in S
    ensures |S| >= n
  {
    if n > 0 { RangeCover(S - {n - 1}, n - 1); }
  }

  lemma {:induction false} ImageSize(s: seq<nat>)
    ensures |set a | 0 <= a < |s| :: s[a]| <= |s|
  {
    if s != [] {
      var t := s[..|s| - 1];
      ImageSize(t);
      var S, T := set a | 0 <= a < |s| :: s[a], set a | 0 <= a < |t| :: t[a];
      assert S == T + {s[|s| - 1]};
    }
  }

  lemma MinimalIn(g: Graph, p: seq<nat>, S: set<nat>, i: nat)
    requires IsOrder(g, p) && i in S && i in p
    ensures HasMinimal(g, S)
  {
    var a :| 0 <= a < |p| && p[a] == i;
    var b := FirstIn(p, S, a);
    var x := p[b];
    forall k | 0 <= k < |g[x]| ensures g[x][k] !in S { assert g[x][k] in p[..b]; }
    assert x in S && x < |g| && forall k :: 0 <= k < |g[x]| ==> g[x][k] !in S;
  }

  /** Any topological order gives every set a minimal member: its first one in the order. */
  lemma OrderMeansAcyclic(g: Graph, p: seq<nat>)
    requires IsOrder(g, p)
    ensures Acyclic(g)
  {
    CompleteHasAll(g, p);
    forall S: set<nat> | S != {} && forall i :: i in S ==> i < |g| ensures HasMinimal(g, S) {
      var i :| i in S;
      MinimalIn(g, p, S, i);
    }
  }

  lemma {:induction false} FirstIn(p: seq<nat>, S: set<nat>, a: nat) returns (b: nat)
    requires a < |p| && p[a] in S
    ensures b <= a && p[b] in S && forall c :: 0 <= c < b ==> p[c] !in S
  {
    b := 0;
    while p[b] !in S
      invariant b <= a && forall c :: 0 <= c < b ==> p[c] !in S
      decreases a - b
    {
      b := b + 1;
    }
  }

  /**
   Of all topological orders the walk is the lexicographically least: wherever another order first differs it is
   larger.
   */
  lemma KahnIsLeast(g: Graph, q: seq<nat>, t: nat)
    requires Valid(g) && IsOrder(g, Kahn(g, [])) && IsOrder(g, q)
    requires t < |g| && q[..t] == Kahn(g, [])[..t]
    ensures Kahn(g, [])[t] <= q[t]
  {
    var out := Kahn(g, []);
    KahnWalks(g, []);
    assert out[t] == LeastReady(g, out[..t], 0);
    assert Ready(g, q[..t], q[t]);
  }

  /** The vertices left over are exactly those from which needs lead into a cycle. */
  lemma StuckIffReachesCycle(g: Graph, i: nat)
    requires Valid(g) && i < |g|
    ensures i in Stuck(g) <==> ReachesCycle(g, i)
  {
    if i in Stuck(g) {
      var p := StuckWalk(g, i, |g|);
      if Distinct(p) { DistinctBound(p, |g|); }
    }
    if ReachesCycle(g, i) && i !in Stuck(g) {
      var p: seq<nat> :| Walk(g, p) && p[0] == i && !Distinct(p);
      TakenWalkDistinct(g, p);
    }
  }

  /** From a leftover vertex one can walk any number of steps among leftover vertices. */
  lemma {:induction false} StuckWalk(g: Graph, i: nat, n: nat) returns (p: seq<nat>)
    requires Valid(g) && i in Stuck(g)
    ensures Walk(g, p) && |p| == n + 1 && p[0] == i
    decreases n
  {
    if n == 0 {
      p := [i];
    } else {
      StuckNeedsStuck(g, i);
      var k :| 0 <= k < |g[i]| && g[i][k] in Stuck(g);
      var q := StuckWalk(g, g[i][k], n - 1);
      p := [i] + q;
      forall a | 0 <= a < |p| - 1 ensures p[a + 1] in g[p[a]] {
        if a > 0 { assert p[a + 1] == q[a] && p[a] == q[a - 1]; }
      }
    }
  }

  ghost function Position(out: seq<nat>, i: nat): (a: nat)
    requires i in out
    ensures a < |out| && out[a] == i
  {
    var a :| 0 <= a < |out| && out[a] == i; a
  }

  /** Along needs, positions in the walk's output strictly decrease, so nothing repeats. */
  lemma {:induction false} TakenWalkDistinct(g: Graph, p: seq<nat>)
    requires Valid(g) && Walk(g, p) && p[0] in Kahn(g, [])
    ensures Distinct(p)
    ensures forall a ::
      0 <= a < |p| ==> p[a] in Kahn(g, []) && Position(Kahn(g, []), p[a]) <= Position(Kahn(g, []), p[0])
  {
    var out := Kahn(g, []);
    KahnWalks(g, []);
    if |p| > 1 {
      var q := p[1..];
      assert q[0] == p[1] && p[1] in g[p[0]];
      var k :| 0 <= k < |g[p[0]]| && g[p[0]][k] == p[1];
      var x := Position(out, p[0]);
      assert g[out[x]][k] in out[..x];
      assert p[1] in out;
      assert Position(out, p[1]) < x by {
        var y :| 0 <= y < x && out[y] == p[1];
        assert y == Position(out, p[1]);
      }
      TailWalk(g, p);
      TakenWalkDistinct(g, q);
      forall a | 1 <= a < |p| ensures p[a] in out && Position(out, p[a]) < x { assert p[a] == q[a - 1]; }
      forall a, b | 0 <= a < b < |p| ensures p[a] != p[b] {
        if a > 0 { assert q[a - 1] != q[b - 1]; }
      }
    }
  }

  lemma TailWalk(g: Graph, p: seq<nat>)
    requires Walk(g, p) && |p| > 1
    ensures Walk(g, p[1..])
  {
    var q := p[1..];
    forall a | 0 <= a < |q| - 1 ensures q[a + 1] in g[q[a]] {
      assert p[a + 2] in g[p[a + 1]];
    }
  }

  /** A vertex from which needs lead back to itself. */
  ghost predicate OnCycle(g: Graph, i: nat) {
    exists p :: Walk(g, p) && |p| > 1 && p[0] == i && p[|p| - 1] == i
  }

  /** Reaching a cycle is wider than lying on one: a job may need two that need each other. */
  lemma StuckOffCycle(g: Graph)
    requires g == [[1], [0], [0]]
    ensures ReachesCycle(g, 2) && !OnCycle(g, 2)
  {
    var p: seq<nat> := [2, 0, 1, 0];
    assert p[1] in g[p[0]] && p[2] in g[p[1]] && p[3] in g[p[2]];
    assert Walk(g, p) && p[0] == 2 && p[1] == p[3];
    forall q | Walk(g, q) && |q| > 1 ensures q[|q| - 1] != 2 {
      assert q[|q| - 2 + 1] in g[q[|q| - 2]];
    }
  }
}
