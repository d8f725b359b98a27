/**
 Validation and ordering of a decoded `.quarry.yml`: the edge checks, the reverse edges and Kahn's
 algorithm over job names, proved to accept exactly the acyclic specs and to compute `Graphs.Kahn`.
 */
module Pipelines {
  import opened Model
  import opened Graphs
  import opened Walk

  const DEFAULT_TIMEOUT := 30 * 60 * 1000

  /** A job name, compared whole. */
  datatype Name = Name(text: string)

  /** What the job runs; validated, and otherwise only passed on. */
  datatype Work = Work(image: string, steps: seq<string>, cpu: real)

  datatype JobSpec = JobSpec(name: Name, needs: seq<Name>, labels: Labels, timeout: int, work: Work)

  type Spec = seq<JobSpec>

  datatype Problem =
    | NoJobs
    | Unnamed(at: nat)
    | DuplicateName(name: Name)
    | NoImage(name: Name)
    | NoSteps(name: Name)
    | EmptyStep(name: Name, step: nat)
    | NegativeTimeout(name: Name)
    | NegativeCpu(name: Name)
    | NeedsItself(name: Name)
    | NeedsTwice(name: Name, need: Name)
    | NeedsUnknown(name: Name, need: Name)
    | Cycle(names: seq<Name>)

  // What a well-formed spec is.

  predicate Names(spec: Spec, name: Name) { exists i :: 0 <= i < |spec| && spec[i].name == name }

  /** Unicode white space. */
  predicate IsSpace(c: char) {
    var n := c as int;
    || 9 <= n <= 13 || n == 0x20 || n == 0x85 || n == 0xA0 || n == 0x1680 || 0x2000 <= n <= 0x200a
    || n == 0x2028 || n == 0x2029 || n == 0x202f || n == 0x205f || n == 0x3000
  }

  /** Nothing is left of the text when white space is trimmed. */
  predicate IsBlank(text: string) { forall k :: 0 <= k < |text| ==> IsSpace(text[k]) }

  predicate DetailsOk(j: JobSpec) {
    && j.work.image != "" && |j.work.steps| > 0 && (forall k :: 0 <= k < |j.work.steps| ==> !IsBlank(j.work.steps[k]))
    && j.timeout >= 0 && j.work.cpu >= 0.0
  }

  /** The job is named and the first of its name: the one the name refers to. */
  predicate Primary(spec: Spec, i: nat)
    requires i < |spec|
  {
    spec[i].name.text != "" && forall a :: 0 <= a < i ==> spec[a].name != spec[i].name
  }

  predicate DeclarationOk(spec: Spec, i: nat)
    requires i < |spec|
  {
    Primary(spec, i) && DetailsOk(spec[i])
  }

  predicate EdgeOk(spec: Spec, i: nat, k: nat)
    requires i < |spec| && k < |spec[i].needs|
  {
    var need := spec[i].needs[k];
    need != spec[i].name && need !in spec[i].needs[..k] && need.text != "" && Names(spec, need)
  }

  predicate WellFormed(spec: Spec) {
    && |spec| > 0
    && (forall i :: 0 <= i < |spec| ==> DeclarationOk(spec, i))
    && (forall i, k :: 0 <= i < |spec| && 0 <= k < |spec[i].needs| ==> EdgeOk(spec, i, k))
  }

  /** The first job called `name`, or `|spec|`. */
  function IndexOf(spec: Spec, name: Name): (i: nat)
    ensures i <= |spec| && (i < |spec| ==> spec[i].name == name)
    ensures i < |spec| <==> Names(spec, name)
    ensures forall a :: 0 <= a < i ==> spec[a].name != name
  {
    if spec == [] then 0
    else
      var i := IndexOf(spec[..|spec| - 1], name);
      assert spec == spec[..|spec| - 1] + [spec[|spec| - 1]];
      if i < |spec| - 1 then i
      else if spec[|spec| - 1].name == name then i
      else |spec|
  }

  /** The needs of a spec by declaration index. */
  function Resolve(spec: Spec): (g: Graph)
    ensures |g| == |spec|
    ensures forall i :: 0 <= i < |spec| ==> |g[i]| == |spec[i].needs|
    ensures forall i, k :: 0 <= i < |spec| && 0 <= k < |g[i]| ==> g[i][k] == IndexOf(spec, spec[i].needs[k])
  {
    seq(|spec|, i requires 0 <= i < |spec| =>
      seq(|spec[i].needs|, k requires 0 <= k < |spec[i].needs| => IndexOf(spec, spec[i].needs[k])))
  }

  /** What `Parse` accepts. */
  ghost predicate Accepts(spec: Spec) { WellFormed(spec) && Acyclic(Resolve(spec)) }

  lemma NamesAreUnique(spec: Spec, i: nat, j: nat)
    requires WellFormed(spec) && i < |spec| && j < |spec| && spec[i].name == spec[j].name
    ensures i == j
  {
    assert DeclarationOk(spec, i) && DeclarationOk(spec, j);
  }

  lemma IndexOfName(spec: Spec, i: nat)
    requires WellFormed(spec) && i < |spec|
    ensures IndexOf(spec, spec[i].name) == i
  {
    assert Names(spec, spec[i].name);
    NamesAreUnique(spec, i, IndexOf(spec, spec[i].name));
  }

  lemma ResolveValid(spec: Spec)
    requires WellFormed(spec)
    ensures Valid(Resolve(spec))
    ensures forall i :: 0 <= i < |spec| ==> Distinct(Resolve(spec)[i])
  {
    var g := Resolve(spec);
    forall i, k | 0 <= i < |g| && 0 <= k < |g[i]| ensures g[i][k] < |g| { assert EdgeOk(spec, i, k); }
    forall i, a, b | 0 <= i < |spec| && 0 <= a < b < |g[i]| ensures g[i][a] != g[i][b] {
      assert EdgeOk(spec, i, b) && EdgeOk(spec, i, a);
      assert spec[i].needs[..b][a] == spec[i].needs[a];
    }
  }

  // Names and reverse edges.

  function NameList(spec: Spec): (r: seq<Name>)
    ensures |r| == |spec| && forall i :: 0 <= i < |spec| ==> r[i] == spec[i].name
  {
    seq(|spec|, i requires 0 <= i < |spec| => spec[i].name)
  }

  lemma NameListNamed(spec: Spec)
    requires WellFormed(spec)
    ensures Named(NameList(spec), Resolve(spec))
  {
    forall a, b | 0 <= a < b < |spec| ensures spec[a].name != spec[b].name { assert DeclarationOk(spec, b); }
  }

  lemma {:induction false} MissingAll(needs: seq<nat>)
    ensures Missing(needs, []) == |needs|
  {
    if needs != [] { MissingAll(needs[..|needs| - 1]); }
  }

  // The edges seen so far, reversed.

  /** How often job `x` is a dependent of `n` after the jobs before `i` and the first `k` needs of job `i`. */
  function Seen(spec: Spec, x: nat, n: Name, i: nat, k: nat): nat
    requires x < |spec|
  {
    if x < i then multiset(spec[x].needs)[n]
    else if x == i && k <= |spec[x].needs| then multiset(spec[x].needs[..k])[n]
    else 0
  }

  /** `deps` holds exactly the edges seen so far. */
  ghost predicate DepsUpto(spec: Spec, deps: map<Name, seq<Name>>, i: nat, k: nat) {
    && (forall n, d :: d in DependentsOf(deps, n) ==> d in NameList(spec))
    && (forall n, x :: 0 <= x < |spec| ==> multiset(DependentsOf(deps, n))[spec[x].name] == Seen(spec, x, n, i, k))
  }

  lemma SeenNext(spec: Spec, x: nat, n: Name, i: nat, k: nat)
    requires x < |spec| && i < |spec| && k < |spec[i].needs|
    ensures Seen(spec, x, n, i, k + 1) == Seen(spec, x, n, i, k) + if x == i && n == spec[i].needs[k] then 1 else 0
  {
    if x == i { assert spec[i].needs[..k + 1] == spec[i].needs[..k] + [spec[i].needs[k]]; }
  }

  lemma DepsNext(spec: Spec, deps: map<Name, seq<Name>>, i: nat, k: nat)
    requires JobsOk(spec) && i < |spec| && k < |spec[i].needs| && DepsUpto(spec, deps, i, k)
    ensures var need := spec[i].needs[k];
      DepsUpto(spec, deps[need := DependentsOf(deps, need) + [spec[i].name]], i, k + 1)
  {
    var need := spec[i].needs[k];
    var deps' := deps[need := DependentsOf(deps, need) + [spec[i].name]];
    forall n, d | d in DependentsOf(deps', n) ensures d in NameList(spec) {
      if n == need && d == spec[i].name { assert NameList(spec)[i] == d; } else { assert d in DependentsOf(deps, n); }
    }
    forall n, x | 0 <= x < |spec|
      ensures multiset(DependentsOf(deps', n))[spec[x].name] == Seen(spec, x, n, i, k + 1)
    {
      SeenNext(spec, x, n, i, k);
      assert DeclarationOk(spec, x) && DeclarationOk(spec, i);
      if n == need { assert DependentsOf(deps', n) == DependentsOf(deps, n) + [spec[i].name]; }
    }
  }

  lemma DepsRow(spec: Spec, deps: map<Name, seq<Name>>, i: nat)
    requires i < |spec| && DepsUpto(spec, deps, i, |spec[i].needs|)
    ensures DepsUpto(spec, deps, i + 1, 0)
  {
    assert spec[i].needs[..|spec[i].needs|] == spec[i].needs;
    forall n, x | 0 <= x < |spec| ensures Seen(spec, x, n, i + 1, 0) == Seen(spec, x, n, i, |spec[i].needs|) {}
  }

  lemma {:induction false} SameCounts(needs: seq<Name>, ix: seq<nat>, n: Name, a: nat)
    requires |needs| == |ix| && forall k :: 0 <= k < |ix| ==> (ix[k] == a <==> needs[k] == n)
    ensures multiset(needs)[n] == multiset(ix)[a]
  {
    if needs != [] {
      var m := |needs| - 1;
      SameCounts(needs[..m], ix[..m], n, a);
      assert needs == needs[..m] + [needs[m]] && ix == ix[..m] + [ix[m]];
    }
  }

  lemma NeedCounts(spec: Spec, x: nat, a: nat)
    requires WellFormed(spec) && x < |spec| && a < |spec|
    ensures multiset(spec[x].needs)[spec[a].name] == multiset(Resolve(spec)[x])[a]
  {
    var g := Resolve(spec);
    forall k | 0 <= k < |g[x]| ensures g[x][k] == a <==> spec[x].needs[k] == spec[a].name {
      assert EdgeOk(spec, x, k);
      IndexOfName(spec, a);
    }
    SameCounts(spec[x].needs, g[x], spec[a].name, a);
  }

  lemma DependentsComplete(spec: Spec, deps: map<Name, seq<Name>>, a: nat, ds: seq<Name>)
    requires WellFormed(spec) && DepsUpto(spec, deps, |spec|, 0) && a < |spec| && ds == DependentsOf(deps, spec[a].name)
    ensures DependentList(NameList(spec), Resolve(spec), a, ds)
  {
    forall x | 0 <= x < |spec| ensures multiset(ds)[spec[x].name] == multiset(Resolve(spec)[x])[a] {
      NeedCounts(spec, x, a);
      assert multiset(ds)[spec[x].name] == Seen(spec, x, spec[a].name, |spec|, 0);
    }
  }

  lemma DepsComplete(spec: Spec, deps: map<Name, seq<Name>>)
    requires WellFormed(spec) && DepsUpto(spec, deps, |spec|, 0)
    ensures DepsOk(NameList(spec), Resolve(spec), deps)
  {
    forall a | 0 <= a < |spec|
      ensures DependentList(NameList(spec), Resolve(spec), a, DependentsOf(deps, spec[a].name))
    {
      DependentsComplete(spec, deps, a, DependentsOf(deps, spec[a].name));
    }
  }

  predicate EdgesOk(spec: Spec, i: nat, k: nat)
    requires i < |spec| ==> k <= |spec[i].needs|
  {
    && (forall x, b :: 0 <= x < i && x < |spec| && 0 <= b < |spec[x].needs| ==> EdgeOk(spec, x, b))
    && (i < |spec| ==> forall b :: 0 <= b < k ==> EdgeOk(spec, i, b))
  }

  function Defaulted(j: JobSpec): JobSpec { if j.timeout == 0 then j.(timeout := DEFAULT_TIMEOUT) else j }

  /** The spec with every omitted timeout filled in. */
  function WithDefaults(spec: Spec): (r: Spec)
    ensures |r| == |spec| && forall i :: 0 <= i < |spec| ==> r[i] == Defaulted(spec[i])
  {
    seq(|spec|, i requires 0 <= i < |spec| => Defaulted(spec[i]))
  }

  ghost predicate DefaultedUpto(spec: Spec, jobs: Spec, n: nat, all: bool) {
    && |jobs| == |spec|
    && (forall x :: n <= x < |spec| ==> jobs[x] == spec[x])
    && (all ==> forall x :: 0 <= x < n && x < |spec| ==> jobs[x] == Defaulted(spec[x]))
  }

  ghost predicate SameShape(a: Spec, b: Spec) {
    |a| == |b| && forall i :: 0 <= i < |a| ==> a[i].name == b[i].name && a[i].needs == b[i].needs
  }

  predicate JobsOkUpto(spec: Spec, n: nat)
    requires n <= |spec|
  {
    |spec| > 0 && forall i :: 0 <= i < n ==> DeclarationOk(spec, i)
  }

  predicate JobsOk(spec: Spec) { JobsOkUpto(spec, |spec|) }

  ghost predicate Indexes(spec: Spec, n: nat, byName: map<Name, nat>)
    requires n <= |spec|
  {
    && (forall x :: 0 <= x < n && spec[x].name.text != "" ==> spec[x].name in byName)
    && (forall m :: m in byName ==> byName[m] < n && spec[byName[m]].name == m && m.text != "")
    && (forall m, x :: m in byName && 0 <= x < byName[m] ==> spec[x].name != m)
  }

  lemma IndexesNext(spec: Spec, i: nat, byName: map<Name, nat>)
    requires i < |spec| && Indexes(spec, i, byName)
    ensures spec[i].name.text == "" || spec[i].name in byName ==> Indexes(spec, i + 1, byName)
    ensures spec[i].name.text != "" && spec[i].name !in byName ==> Indexes(spec, i + 1, byName[spec[i].name := i])
    ensures JobsOkUpto(spec, i + 1) <==>
      JobsOkUpto(spec, i) && spec[i].name.text != "" && spec[i].name !in byName && DetailsOk(spec[i])
    ensures Primary(spec, i) <==> spec[i].name.text != "" && spec[i].name !in byName
  {
    assert Primary(spec, i) <==> spec[i].name.text != "" && spec[i].name !in byName by {
      if spec[i].name in byName { assert spec[byName[spec[i].name]].name == spec[i].name; }
    }
    assert DeclarationOk(spec, i) <==> Primary(spec, i) && DetailsOk(spec[i]);
  }

  lemma EdgesNext(spec: Spec, i: nat, k: nat, byName: map<Name, nat>)
    requires i < |spec| && k < |spec[i].needs| && Indexes(spec, |spec|, byName)
    ensures var need := spec[i].needs[k];
      EdgesOk(spec, i, k + 1) <==>
        EdgesOk(spec, i, k) && need != spec[i].name && need !in spec[i].needs[..k] && need in byName
  {
    var need := spec[i].needs[k];
    assert EdgeOk(spec, i, k) <==> need != spec[i].name && need !in spec[i].needs[..k] && need in byName by {
      if need in byName { assert spec[byName[need]].name == need; }
    }
  }

  lemma EdgesRow(spec: Spec, i: nat)
    requires i < |spec|
    ensures EdgesOk(spec, i + 1, 0) <==> EdgesOk(spec, i, |spec[i].needs|)
  {}

  /**
   With the names settled, the edges up to (i, k) were fine iff `clean`, in which case they are reversed in
   `deps`.
   */
  ghost predicate EdgesSeen(spec: Spec, i: nat, k: nat, clean: bool, deps: map<Name, seq<Name>>)
    requires i < |spec| ==> k <= |spec[i].needs|
  {
    JobsOk(spec) ==> (clean <==> EdgesOk(spec, i, k)) && (clean ==> DepsUpto(spec, deps, i, k))
  }

  lemma EdgesSeenNext(spec: Spec, i: nat, k: nat, byName: map<Name, nat>, clean: bool, deps: map<Name, seq<Name>>)
    requires i < |spec| && k < |spec[i].needs| && Indexes(spec, |spec|, byName) && EdgesSeen(spec, i, k, clean, deps)
    ensures var need := spec[i].needs[k];
      if need != spec[i].name && need !in spec[i].needs[..k] && need in byName
      then EdgesSeen(spec, i, k + 1, clean, deps[need := DependentsOf(deps, need) + [spec[i].name]])
      else EdgesSeen(spec, i, k + 1, false, deps)
  {
    EdgesNext(spec, i, k, byName);
    if JobsOk(spec) && clean { DepsNext(spec, deps, i, k); }
  }

  lemma EdgesSeenRow(spec: Spec, i: nat, clean: bool, deps: map<Name, seq<Name>>)
    requires i < |spec| && EdgesSeen(spec, i, |spec[i].needs|, clean, deps)
    ensures EdgesSeen(spec, i + 1, 0, clean, deps)
  {
    EdgesRow(spec, i);
    if JobsOk(spec) && clean { DepsRow(spec, deps, i); }
  }

  /** After the first `n` declarations: `clean` iff all were fine, in which case they are defaulted. */
  ghost predicate Passed(spec: Spec, n: nat, clean: bool, jobs: Spec, byName: map<Name, nat>)
    requires n <= |spec|
  {
    && SameShape(jobs, spec)
    && Indexes(spec, n, byName)
    && (clean <==> JobsOkUpto(spec, n))
    && DefaultedUpto(spec, jobs, n, clean)
  }

  lemma PassNext(spec: Spec, i: nat, clean: bool, jobs: Spec, byName: map<Name, nat>)
    requires i < |spec| && Passed(spec, i, clean, jobs, byName)
    ensures spec[i].name.text == "" || spec[i].name in byName ==> Passed(spec, i + 1, false, jobs, byName)
    ensures spec[i].name.text != "" && spec[i].name !in byName ==>
      Passed(spec, i + 1, clean && DetailsOk(spec[i]), jobs[i := Defaulted(spec[i])], byName[spec[i].name := i])
    ensures Primary(spec, i) <==> spec[i].name.text != "" && spec[i].name !in byName
  {
    IndexesNext(spec, i, byName);
  }

  // The problems reported.

  /** A problem with the job's own settings. */
  predicate DetailProblem(j: JobSpec, p: Problem) {
    match p
    case NoImage(name) => name == j.name && j.work.image == ""
    case NoSteps(name) => name == j.name && |j.work.steps| == 0
    case EmptyStep(name, k) => name == j.name && k < |j.work.steps| && IsBlank(j.work.steps[k])
    case NegativeTimeout(name) => name == j.name && j.timeout < 0
    case NegativeCpu(name) => name == j.name && j.work.cpu < 0.0
    case _ => false
  }

  /** A problem with the i-th declaration. A job without a name of its own is not looked at further. */
  predicate ProblemAt(spec: Spec, i: nat, p: Problem)
    requires i < |spec|
  {
    if spec[i].name.text == "" then p == Unnamed(i)
    else if !Primary(spec, i) then p == DuplicateName(spec[i].name)
    else DetailProblem(spec[i], p)
  }

  /** A problem found among the first `n` declarations. */
  ghost predicate NameProblem(spec: Spec, n: nat, p: Problem)
    requires n <= |spec|
  {
    (p.NoJobs? && |spec| == 0) || exists i :: 0 <= i < n && ProblemAt(spec, i, p)
  }

  /** A problem with the k-th need of a job: the first that applies of itself, a repeat, and a name no job has. */
  predicate NeedProblem(spec: Spec, i: nat, k: nat, p: Problem)
    requires i < |spec| && k < |spec[i].needs|
  {
    var name, need := spec[i].name, spec[i].needs[k];
    if need == name then p == NeedsItself(name)
    else if need in spec[i].needs[..k] then p == NeedsTwice(name, need)
    else !(need.text != "" && Names(spec, need)) && p == NeedsUnknown(name, need)
  }

  /** A problem found among the first `k` needs of job `i`. */
  ghost predicate NeedsProblem(spec: Spec, i: nat, k: nat, p: Problem)
    requires i < |spec| && k <= |spec[i].needs|
  {
    exists b :: 0 <= b < k && NeedProblem(spec, i, b, p)
  }

  /** A problem found among the edges of the first `n` jobs. */
  ghost predicate EdgeProblem(spec: Spec, n: nat, p: Problem)
    requires n <= |spec|
  {
    exists i :: 0 <= i < n && Primary(spec, i) && NeedsProblem(spec, i, |spec[i].needs|, p)
  }

  /** The settings of one job. */
  method CheckDetails(j: JobSpec) returns (found: seq<Problem>)
    ensures forall p :: p in found <==> DetailProblem(j, p)
  {
    found := [];
    if j.work.image == "" { found := found + [NoImage(j.name)]; }
    if |j.work.steps| == 0 { found := found + [NoSteps(j.name)]; }
    for k := 0 to |j.work.steps|
      invariant forall p ::
        p in found <==> DetailProblem(j, p) && (p.NoImage? || p.NoSteps? || (p.EmptyStep? && p.step < k))
    {
      if IsBlank(j.work.steps[k]) { found := found + [EmptyStep(j.name, k)]; }
    }
    if j.timeout < 0 { found := found + [NegativeTimeout(j.name)]; }
    if j.work.cpu < 0.0 { found := found + [NegativeCpu(j.name)]; }
  }

  lemma NoDetailProblem(j: JobSpec, found: seq<Problem>)
    requires forall p :: p in found <==> DetailProblem(j, p)
    ensures found == [] <==> DetailsOk(j)
  {
    if found == [] {
      assert NoImage(j.name) !in found && NoSteps(j.name) !in found && NegativeTimeout(j.name) !in found
        && NegativeCpu(j.name) !in found;
      forall k | 0 <= k < |j.work.steps| ensures !IsBlank(j.work.steps[k]) { assert EmptyStep(j.name, k) !in found; }
    } else {
      assert found[0] in found;
    }
  }

  /** One pass over the declarations: the problems found, the defaulted jobs and the name index. */
  method NamePass(spec: Spec) returns (problems: seq<Problem>, jobs: Spec, byName: map<Name, nat>)
    ensures Passed(spec, |spec|, problems == [], jobs, byName)
    ensures forall p :: p in problems <==> NameProblem(spec, |spec|, p)
  {
    problems, jobs, byName := if |spec| == 0 then [NoJobs] else [], spec, map[];
    for i := 0 to |spec|
      invariant Passed(spec, i, problems == [], jobs, byName)
      invariant forall p :: p in problems <==> NameProblem(spec, i, p)
    {
      var found;
      found, jobs, byName := NameOne(spec, i, problems == [], jobs, byName);
      NameProblemNext(spec, i, problems, found);
      problems := problems + found;
    }
  }

  lemma NameProblemNext(spec: Spec, i: nat, problems: seq<Problem>, found: seq<Problem>)
    requires i < |spec| && (forall p :: p in problems <==> NameProblem(spec, i, p))
      && (forall p :: p in found <==> ProblemAt(spec, i, p))
    ensures forall p :: p in problems + found <==> NameProblem(spec, i + 1, p)
  {
    forall p ensures p in problems + found <==> NameProblem(spec, i + 1, p) {
      if NameProblem(spec, i, p) && !(p.NoJobs? && |spec| == 0) { var x :| 0 <= x < i && ProblemAt(spec, x, p); }
    }
  }

  method NameOne(spec: Spec, i: nat, ghost clean: bool, jobs: Spec, byName: map<Name, nat>)
    returns (found: seq<Problem>, jobs': Spec, byName': map<Name, nat>)
    requires i < |spec| && Passed(spec, i, clean, jobs, byName)
    ensures Passed(spec, i + 1, clean && found == [], jobs', byName')
    ensures forall p :: p in found <==> ProblemAt(spec, i, p)
  {
    jobs', byName' := jobs, byName;
    var j := spec[i];
    PassNext(spec, i, clean, jobs, byName);
    if j.name.text == "" {
      found := [Unnamed(i)];
    } else if j.name in byName {
      found := [DuplicateName(j.name)];
    } else {
      byName' := byName[j.name := i];
      found := CheckDetails(j);
      NoDetailProblem(j, found);
      jobs' := jobs[i := Defaulted(j)];
    }
  }

  /** The first `n` jobs' in-degrees and declaration indices. */
  ghost predicate Counted(names: seq<Name>, g: Graph, n: nat, indeg: map<Name, int>, declared: map<Name, int>)
    requires |names| == |g|
  {
    forall x :: 0 <= x < n && x < |g| ==>
      names[x] in indeg && indeg[names[x]] == |g[x]| && names[x] in declared && declared[names[x]] == x
  }

  lemma CountNext(names: seq<Name>, g: Graph, i: nat, indeg: map<Name, int>, declared: map<Name, int>)
    requires Named(names, g) && i < |g| && Counted(names, g, i, indeg, declared)
    ensures Counted(names, g, i + 1, indeg[names[i] := |g[i]|], declared[names[i] := i])
  {}

  method CountNeeds(jobs: Spec, ghost names: seq<Name>, ghost g: Graph)
    returns (indeg: map<Name, int>, declared: map<Name, int>)
    requires Named(names, g) && |jobs| == |g|
    requires forall x :: 0 <= x < |g| ==> jobs[x].name == names[x] && |jobs[x].needs| == |g[x]|
    ensures Counted(names, g, |g|, indeg, declared)
  {
    indeg, declared := map[], map[];
    for i := 0 to |jobs|
      invariant Counted(names, g, i, indeg, declared)
    {
      CountNext(names, g, i, indeg, declared);
      indeg := indeg[jobs[i].name := |jobs[i].needs|];
      declared := declared[jobs[i].name := i];
    }
  }

  /** The roots among the first `n` jobs, once each. */
  ghost predicate Rooted(names: seq<Name>, g: Graph, n: nat, ready: seq<Name>)
    requires |names| == |g|
  {
    && Distinct(ready)
    && (forall k :: 0 <= k < |ready| ==> exists x :: 0 <= x < n && x < |names| && names[x] == ready[k])
    && (forall x :: 0 <= x < n && x < |g| ==> (names[x] in ready <==> |g[x]| == 0))
  }

  lemma RootNext(names: seq<Name>, g: Graph, i: nat, ready: seq<Name>)
    requires Named(names, g) && i < |g| && Rooted(names, g, i, ready)
    ensures Rooted(names, g, i + 1, if |g[i]| == 0 then ready + [names[i]] else ready)
  {
    var ready' := if |g[i]| == 0 then ready + [names[i]] else ready;
    assert names[i] !in ready by { assert forall x :: 0 <= x < i ==> names[x] != names[i]; }
    forall k | 0 <= k < |ready'| ensures exists x :: 0 <= x < i + 1 && x < |names| && names[x] == ready'[k] {
      if k < |ready| {
        var x :| 0 <= x < i && x < |names| && names[x] == ready[k];
        assert names[x] == ready'[k];
      } else {
        assert names[i] == ready'[k];
      }
    }
  }

  method ListRoots(jobs: Spec, indeg: map<Name, int>, ghost names: seq<Name>, ghost g: Graph) returns (ready: seq<Name>)
    requires Named(names, g) && |jobs| == |g|
    requires forall x :: 0 <= x < |g| ==> jobs[x].name == names[x] && names[x] in indeg && indeg[names[x]] == |g[x]|
    ensures Rooted(names, g, |g|, ready)
  {
    ready := [];
    for i := 0 to |jobs|
      invariant Rooted(names, g, i, ready)
    {
      RootNext(names, g, i, ready);
      if indeg[jobs[i].name] == 0 { ready := ready + [jobs[i].name]; }
    }
  }

  lemma SetupDone(names: seq<Name>, g: Graph, indeg: map<Name, int>, declared: map<Name, int>, ready: seq<Name>)
    requires Named(names, g) && Counted(names, g, |g|, indeg, declared) && Rooted(names, g, |g|, ready)
    ensures Degrees(names, g, [], indeg) && ReadyList(names, g, [], ready)
  {
    forall x | 0 <= x < |g| ensures Missing(g[x], []) == |g[x]| { MissingAll(g[x]); }
    forall x | 0 <= x < |g| ensures Ready(g, [], x) <==> |g[x]| == 0 {
      if |g[x]| > 0 { assert g[x][0] !in []; }
    }
  }

  lemma PrimaryIndexed(spec: Spec, i: nat, byName: map<Name, nat>)
    requires i < |spec| && Indexes(spec, |spec|, byName)
    ensures Primary(spec, i) <==> spec[i].name in byName && byName[spec[i].name] == i
    ensures JobsOk(spec) ==> Primary(spec, i)
  {
    if JobsOk(spec) { assert DeclarationOk(spec, i); }
    if spec[i].name in byName { assert spec[byName[spec[i].name]].name == spec[i].name; }
  }

  lemma KnownIndexed(spec: Spec, need: Name, byName: map<Name, nat>)
    requires Indexes(spec, |spec|, byName)
    ensures need in byName <==> need.text != "" && Names(spec, need)
  {
    if need in byName { assert spec[byName[need]].name == need; }
  }

  lemma NeedsProblemNext(spec: Spec, i: nat, k: nat, found: seq<Problem>, one: seq<Problem>)
    requires i < |spec| && k < |spec[i].needs| && forall p :: p in found <==> NeedsProblem(spec, i, k, p)
    requires forall p :: p in one <==> NeedProblem(spec, i, k, p)
    ensures forall p :: p in found + one <==> NeedsProblem(spec, i, k + 1, p)
  {
    forall p ensures p in found + one <==> NeedsProblem(spec, i, k + 1, p) {
      if NeedsProblem(spec, i, k, p) { var b :| 0 <= b < k && NeedProblem(spec, i, b, p); }
    }
  }

  lemma EdgeProblemNext(spec: Spec, i: nat, problems: seq<Problem>, found: seq<Problem>)
    requires i < |spec| && forall p :: p in problems <==> EdgeProblem(spec, i, p)
    requires forall p :: p in found <==> Primary(spec, i) && NeedsProblem(spec, i, |spec[i].needs|, p)
    ensures forall p :: p in problems + found <==> EdgeProblem(spec, i + 1, p)
  {
    forall p ensures p in problems + found <==> EdgeProblem(spec, i + 1, p) {
      if EdgeProblem(spec, i, p) {
        var x :| 0 <= x < i && Primary(spec, x) && NeedsProblem(spec, x, |spec[x].needs|, p);
      }
    }
  }

  class Pipeline {
    var jobs: Spec
    var byName: map<Name, nat>
    var deps: map<Name, seq<Name>>

    constructor (spec: Spec)
      ensures jobs == spec
    {
      jobs, byName, deps := spec, map[], map[];
    }

    /** A pipeline whose edges have been checked and reversed. */
    ghost predicate Valid()
      reads this
    {
      WellFormed(jobs) && DepsOk(NameList(jobs), Resolve(jobs), deps)
    }

    /** The in-degrees, declaration indices and roots the walk starts from. */
    method Setup() returns (indeg: map<Name, int>, declared: map<Name, int>, ready: seq<Name>)
      requires WellFormed(jobs)
      ensures Degrees(NameList(jobs), Resolve(jobs), [], indeg) && ReadyList(NameList(jobs), Resolve(jobs), [], ready)
      ensures Counted(NameList(jobs), Resolve(jobs), |jobs|, indeg, declared)
    {
      ghost var names, g := NameList(jobs), Resolve(jobs);
      NameListNamed(jobs);
      indeg, declared := CountNeeds(jobs, names, g);
      ready := ListRoots(jobs, indeg, names, g);
      SetupDone(names, g, indeg, declared, ready);
    }

    /**
     Kahn's algorithm. It succeeds exactly on acyclic needs, with the declaration-order walk; otherwise
     it names, in declaration order, every job from which needs lead into a cycle.
     */
    method Topo() returns (order: Option<seq<Name>>, stuck: seq<Name>)
      requires Valid()
      ensures order.Some? <==> Acyclic(Resolve(jobs))
      ensures order.Some? ==> order.value == Pick(NameList(jobs), Kahn(Resolve(jobs), []))
      ensures order.None? ==> stuck == Cyclic(NameList(jobs), Resolve(jobs), |jobs|)
    {
      ghost var g := Resolve(jobs);
      var indeg, declared, ready := Setup();
      NameListNamed(jobs);
      var out;
      out, indeg := TakeAll(deps, indeg, ready, n => if n in declared then declared[n] else 0, NameList(jobs), g);
      ResolveValid(jobs);
      KahnCompleteIffAcyclic(g);
      if |out| == |jobs| { return Some(out), []; }
      stuck := Leftover(NameList(jobs), indeg, g);
      order := None;
    }
 
    /** The second loop of `finalize`: every edge, checked and reversed. */
    method CheckEdges() returns (problems: seq<Problem>)
      requires Indexes(jobs, |jobs|, byName)
      modifies this`deps
      ensures forall p :: p in problems <==> EdgeProblem(jobs, |jobs|, p)
      ensures JobsOk(jobs) ==> (problems == [] <==> WellFormed(jobs))
      ensures JobsOk(jobs) && problems == [] ==> DepsOk(NameList(jobs), Resolve(jobs), deps)
    {
      problems, deps := [], map[];
      for i := 0 to |jobs|
        invariant EdgesSeen(jobs, i, 0, problems == [], deps)
        invariant forall p :: p in problems <==> EdgeProblem(jobs, i, p)
      {
        PrimaryIndexed(jobs, i, byName);
        if jobs[i].name in byName && byName[jobs[i].name] == i {
          var found := CheckNeeds(i, problems == []);
          EdgeProblemNext(jobs, i, problems, found);
          problems := problems + found;
          EdgesSeenRow(jobs, i, problems == [], deps);
        } else {
          EdgeProblemNext(jobs, i, problems, []);
          assert problems + [] == problems;
        }
      }
      if JobsOk(jobs) && problems == [] { DepsComplete(jobs, deps); }
    }

    /** The needs of one job. */
    method CheckNeeds(i: nat, ghost clean: bool) returns (found: seq<Problem>)
      requires Indexes(jobs, |jobs|, byName) && i < |jobs| && EdgesSeen(jobs, i, 0, clean, deps)
      modifies this`deps
      ensures EdgesSeen(jobs, i, |jobs[i].needs|, clean && found == [], deps)
      ensures forall p :: p in found <==> NeedsProblem(jobs, i, |jobs[i].needs|, p)
    {
      found := [];
      var seen: set<Name> := {};
      for k := 0 to |jobs[i].needs|
        invariant forall n :: n in seen <==> n in jobs[i].needs[..k]
        invariant EdgesSeen(jobs, i, k, clean && found == [], deps)
        invariant forall p :: p in found <==> NeedsProblem(jobs, i, k, p)
      {
        var need := jobs[i].needs[k];
        EdgesSeenNext(jobs, i, k, byName, clean && found == [], deps);
        KnownIndexed(jobs, need, byName);
        var one: seq<Problem> := [];
        if need == jobs[i].name {
          one := [NeedsItself(need)];
        } else if need in seen {
          one := [NeedsTwice(jobs[i].name, need)];
        } else if need !in byName {
          one := [NeedsUnknown(jobs[i].name, need)];
        } else {
          deps := deps[need := DependentsOf(deps, need) + [jobs[i].name]];
        }
        NeedsProblemNext(jobs, i, k, found, one);
        found := found + one;
        seen := seen + {need};
      }
    }

    /**
     `finalize`: a spec is accepted exactly when it is well formed and its needs are acyclic. A well
     formed but cyclic spec gets one problem, naming every job from which needs lead into a cycle.
     */
    method Finalize() returns (problems: seq<Problem>)
      modifies this
      ensures problems == [] <==> Accepts(old(jobs))
      ensures problems == [] ==> Valid() && jobs == WithDefaults(old(jobs))
      ensures WellFormed(old(jobs)) && problems != [] ==>
                problems == [Cycle(Cyclic(NameList(old(jobs)), Resolve(old(jobs)), |old(jobs)|))]
      ensures !WellFormed(old(jobs)) ==> forall p :: p in problems <==>
                NameProblem(old(jobs), |old(jobs)|, p) || EdgeProblem(old(jobs), |old(jobs)|, p)
    {
      ghost var spec := jobs;
      problems, jobs, byName := NamePass(jobs);
      SameShapeKeeps(spec, jobs, byName);
      SameEdgeProblems(spec, jobs);
      var more := CheckEdges();
      problems := problems + more;
      if problems == [] {
        var order, stuck := Topo();
        if order.None? { problems := [Cycle(stuck)]; }
      }
    }
  }

  lemma SameResolve(spec: Spec, jobs: Spec)
    requires SameShape(jobs, spec)
    ensures Resolve(jobs) == Resolve(spec)
  {
    forall i | 0 <= i < |spec| ensures Resolve(jobs)[i] == Resolve(spec)[i] {
      forall k | 0 <= k < |spec[i].needs| ensures Resolve(jobs)[i][k] == Resolve(spec)[i][k] {
        SameIndex(jobs, spec, spec[i].needs[k]);
      }
    }
  }

  lemma SameShapeKeeps(spec: Spec, jobs: Spec, byName: map<Name, nat>)
    requires SameShape(jobs, spec) && Indexes(spec, |spec|, byName)
    ensures Indexes(jobs, |jobs|, byName) && NameList(jobs) == NameList(spec) && Resolve(jobs) == Resolve(spec)
    ensures jobs == WithDefaults(spec) ==> (JobsOk(jobs) <==> JobsOk(spec)) && (WellFormed(jobs) <==> WellFormed(spec))
  {
    forall name ensures IndexOf(jobs, name) == IndexOf(spec, name) { SameIndex(jobs, spec, name); }
    SameResolve(spec, jobs);
    if jobs == WithDefaults(spec) {
      forall i | 0 <= i < |spec| ensures DeclarationOk(jobs, i) <==> DeclarationOk(spec, i) {}
      forall i, k | 0 <= i < |spec| && 0 <= k < |spec[i].needs| ensures EdgeOk(jobs, i, k) <==> EdgeOk(spec, i, k) {
        assert IndexOf(jobs, spec[i].needs[k]) == IndexOf(spec, spec[i].needs[k]);
      }
    }
  }

  /** Defaulting changes no edge problem. */
  lemma SameEdgeProblems(spec: Spec, jobs: Spec)
    requires SameShape(jobs, spec)
    ensures forall p :: EdgeProblem(jobs, |jobs|, p) <==> EdgeProblem(spec, |spec|, p)
  {
    forall i | 0 <= i < |spec| ensures Primary(jobs, i) <==> Primary(spec, i) {
      SamePrimary(jobs, spec, i);
      SamePrimary(spec, jobs, i);
    }
    forall p, i, k | 0 <= i < |spec| && 0 <= k < |spec[i].needs|
      ensures NeedProblem(jobs, i, k, p) <==> NeedProblem(spec, i, k, p)
    {
      SameIndex(jobs, spec, spec[i].needs[k]);
    }
    forall p ensures EdgeProblem(jobs, |jobs|, p) <==> EdgeProblem(spec, |spec|, p) {
      EdgeProblemOver(spec, jobs, p);
      EdgeProblemOver(jobs, spec, p);
    }
  }

  lemma SamePrimary(jobs: Spec, spec: Spec, i: nat)
    requires SameShape(jobs, spec) && i < |spec|
    ensures Primary(spec, i) ==> Primary(jobs, i)
  {}

  lemma EdgeProblemOver(a: Spec, b: Spec, p: Problem)
    requires SameShape(b, a) && (forall i :: 0 <= i < |a| && Primary(a, i) ==> Primary(b, i))
    requires forall i, k ::
      0 <= i < |a| && 0 <= k < |a[i].needs| ==> (NeedProblem(a, i, k, p) ==> NeedProblem(b, i, k, p))
    ensures EdgeProblem(a, |a|, p) ==> EdgeProblem(b, |b|, p)
  {
    if EdgeProblem(a, |a|, p) {
      var i :| 0 <= i < |a| && Primary(a, i) && NeedsProblem(a, i, |a[i].needs|, p);
      var k :| 0 <= k < |a[i].needs| && NeedProblem(a, i, k, p);
      assert Primary(b, i) && NeedProblem(b, i, k, p);
      assert NeedsProblem(b, i, |b[i].needs|, p);
    }
  }

  lemma SameIndex(jobs: Spec, spec: Spec, name: Name)
    requires SameShape(jobs, spec)
    ensures IndexOf(jobs, name) == IndexOf(spec, name)
  {
    var a, b := IndexOf(jobs, name), IndexOf(spec, name);
    assert a < |jobs| ==> Names(spec, name) by { if a < |jobs| { assert spec[a].name == name; } }
    assert b < |spec| ==> Names(jobs, name) by { if b < |spec| { assert jobs[b].name == name; } }
  }
}
