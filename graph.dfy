/** The dependency-graph engine: the fixed stage graph of the pipeline, a
    depth-first topological sort with three-colour cycle detection, a
    validator that collects every error, and a transitive dependency query. */
module Graph {
  import opened Common

  type Name = string

  /** Each stage name maps to the names of the stages it depends on. */
  type DepGraph = map<Name, seq<Name>>

  /** The two ways `topoSort` throws. */
  datatype SortError =
    | Cycle(node: Name)                       // "DAG CYCLE DETECTED: <node> ..."
    | UnknownDependency(dep: Name, node: Name) // "DAG ERROR: Unknown dependency ..."

  /** One entry of the list `validateGraph` returns. */
  datatype ValidationError =
    | MissingDependency(node: Name, dep: Name) // "Node '<node>' depends on unknown node '<dep>'"
    | SortFailed(error: SortError)            // the message of the error `topoSort` threw

  datatype Validation = Validation(valid: bool, errors: seq<ValidationError>)

  // ---------------------------------------------------------------------------
  // The shipped graph
  // ---------------------------------------------------------------------------

  const GRAPH: DepGraph := map[
    "runway" := [],
    "metrics" := [],
    "trajectory" := ["metrics"],
    "goalTrajectory" := ["metrics", "trajectory"],
    "health" := ["runway"],
    "issues" := ["runway", "trajectory", "goalTrajectory"],
    "preissues" := ["runway", "goalTrajectory", "trajectory", "metrics"],
    "ripple" := ["issues"],
    "introOpportunity" := ["goalTrajectory", "issues"],
    "actionCandidates" := ["issues", "preissues", "goalTrajectory", "introOpportunity"],
    "actionImpact" := ["actionCandidates", "ripple"],
    "valueVector" := ["actionImpact"],
    "actionRanker" := ["valueVector"],
    "weeklyValue" := ["actionRanker"],
    "priority" := ["actionRanker", "weeklyValue"]
  ]

  // ---------------------------------------------------------------------------
  // Graph vocabulary
  // ---------------------------------------------------------------------------

  /** `graph[a] || []`: a name that is not a key has no dependencies. */
  function Deps(g: DepGraph, n: Name): seq<Name>
  {
    if n in g then g[n] else []
  }

  /** `a` lists `b` among its dependencies. */
  predicate Edge(g: DepGraph, a: Name, b: Name)
  {
    a in g && b in g[a]
  }

  /** Each name of `p` depends on the one after it. */
  ghost predicate EdgesAlong(g: DepGraph, p: seq<Name>)
  {
    forall i, j :: 0 <= i && j == i + 1 && j < |p| ==> Edge(g, p[i], p[j])
  }

  /** A non-empty walk along dependency edges. */
  ghost predicate IsPath(g: DepGraph, p: seq<Name>)
  {
    |p| > 0 && EdgesAlong(g, p)
  }

  /** `b` is reachable from `a` (in zero or more steps). */
  ghost predicate Reaches(g: DepGraph, a: Name, b: Name)
  {
    exists p :: IsPath(g, p) && p[0] == a && p[|p| - 1] == b
  }

  /** `n` lies on a cycle: a walk of at least one edge leads from `n` back to `n`. */
  ghost predicate OnCycle(g: DepGraph, n: Name)
  {
    exists p :: IsPath(g, p) && |p| >= 2 && p[0] == n && p[|p| - 1] == n
  }

  ghost predicate Acyclic(g: DepGraph)
  {
    forall n :: !OnCycle(g, n)
  }

  /** Every dependency is itself a key of the graph. */
  predicate Closed(g: DepGraph)
  {
    forall n, d :: n in g && d in g[n] ==> d in g
  }

  /** Every dependency of `o[i]` occurs strictly before position `i`. */
  predicate DepsBefore(g: DepGraph, o: seq<Name>)
  {
    forall i :: 0 <= i < |o| ==> o[i] in g && forall d :: d in g[o[i]] ==> d in o[..i]
  }

  /** `o` lists every key exactly once, nothing else, and dependencies first. */
  predicate IsTopoOrder(g: DepGraph, o: seq<Name>)
  {
    && Distinct(o)
    && (forall n :: n in o ==> n in g)
    && (forall n :: n in g ==> n in o)
    && DepsBefore(g, o)
  }

  /** What each thrown error says is true of the graph. */
  ghost predicate ErrorSound(g: DepGraph, e: SortError)
  {
    match e
    case Cycle(n) => OnCycle(g, n)
    case UnknownDependency(d, n) => n in g && d in g[n] && d !in g
  }

  /** `x` occurs before `y` in `o`. */
  predicate Precedes(o: seq<Name>, x: Name, y: Name)
  {
    exists i, j :: 0 <= i < j < |o| && o[i] == x && o[j] == y
  }

  // ---------------------------------------------------------------------------
  // JavaScript's default string order, used by `Array.prototype.sort`
  // ---------------------------------------------------------------------------

  /** Lexicographic order on characters; a proper prefix comes first. */
  predicate Less(a: string, b: string)
  {
    if |a| == 0 then |b| > 0
    else if |b| == 0 then false
    else if a[0] != b[0] then a[0] < b[0]
    else Less(a[1..], b[1..])
  }

  lemma {:induction false} LessIrreflexive(a: string)
    ensures !Less(a, a)
  {
    if |a| > 0 {
      LessIrreflexive(a[1..]);
    }
  }

  lemma {:induction false} LessTransitive(a: string, b: string, c: string)
    requires Less(a, b) && Less(b, c)
    ensures Less(a, c)
  {
    if |a| > 0 && |b| > 0 && |c| > 0 && a[0] == b[0] && b[0] == c[0] {
      LessTransitive(a[1..], b[1..], c[1..]);
    }
  }

  lemma {:induction false} LessTotal(a: string, b: string)
    requires a != b
    ensures Less(a, b) || Less(b, a)
  {
    if |a| > 0 && |b| > 0 && a[0] == b[0] {
      assert a == [a[0]] + a[1..] && b == [b[0]] + b[1..];
      LessTotal(a[1..], b[1..]);
    }
  }

  predicate StrictlySorted(s: seq<Name>)
  {
    forall i, j :: 0 <= i < j < |s| ==> Less(s[i], s[j])
  }

  /** Inserts a new name into a strictly sorted list at its place. */
  method InsertSorted(s: seq<Name>, x: Name) returns (t: seq<Name>)
    requires StrictlySorted(s) && x !in s
    ensures StrictlySorted(t)
    ensures |t| == |s| + 1
    ensures forall n :: n in t <==> n in s || n == x
  {
    var i := 0;
    while i < |s| && Less(s[i], x)
      invariant 0 <= i <= |s|
      invariant forall k :: 0 <= k < i ==> Less(s[k], x)
    {
      i := i + 1;
    }
    if i < |s| {
      LessTotal(s[i], x);
      forall k | i < k < |s|
        ensures Less(x, s[k])
      {
        LessTransitive(x, s[i], s[k]);
      }
    }
    t := s[..i] + [x] + s[i..];
    assert forall k :: 0 <= k < |t| ==> t[k] == if k < i then s[k] else if k == i then x else s[k - 1];
  }

  /** `Object.keys(graph).sort()`: every key once, in ascending string order. */
  method SortedKeys(g: DepGraph) returns (keys: seq<Name>)
    ensures StrictlySorted(keys)
    ensures |keys| == |g|
    ensures forall n :: n in keys <==> n in g
  {
    var rest := g.Keys;
    keys := [];
    while rest != {}
      invariant rest <= g.Keys
      invariant StrictlySorted(keys)
      invariant |keys| + |rest| == |g|
      invariant forall n :: n in keys <==> n in g && n !in rest
      decreases |rest|
    {
      var n :| n in rest;
      keys := InsertSorted(keys, n);
      rest := rest - {n};
    }
  }

  /** The sorted root order is a function of the key set alone: two strictly
      sorted lists holding the same names are equal. */
  lemma {:induction false} SortedUnique(a: seq<Name>, b: seq<Name>)
    requires StrictlySorted(a) && StrictlySorted(b)
    requires |a| == |b| && forall n :: n in a <==> n in b
    ensures a == b
  {
    if |a| > 0 {
      assert a[0] in b;
      assert b[0] in a;
      var k :| 0 <= k < |b| && b[k] == a[0];
      var m :| 0 <= m < |a| && a[m] == b[0];
      if a[0] != b[0] {
        assert k > 0 && m > 0;
        LessTransitive(a[0], a[m], a[0]);
        LessIrreflexive(a[0]);
      }
      forall n
        ensures n in a[1..] <==> n in b[1..]
      {
        LessIrreflexive(a[0]);
        if n in a[1..] {
          var i :| 1 <= i < |a| && a[i] == n;
          assert Less(a[0], a[i]);
          assert n in a && n in b;
          var j :| 0 <= j < |b| && b[j] == n;
          assert j != 0;
        }
        if n in b[1..] {
          var i :| 1 <= i < |b| && b[i] == n;
          assert Less(b[0], b[i]);
          assert n in b && n in a;
          var j :| 0 <= j < |a| && a[j] == n;
          assert j != 0;
        }
      }
      SortedUnique(a[1..], b[1..]);
      assert a == [a[0]] + a[1..] && b == [b[0]] + b[1..];
    }
  }

  // ---------------------------------------------------------------------------
  // topoSort
  // ---------------------------------------------------------------------------

  /** The state the recursive `visit` closure of `topoSort` shares with its
      caller: the `visited` and `visiting` sets and the output list `order`. */
  datatype Search = Search(visited: set<Name>, visiting: set<Name>, order: seq<Name>)

  /** What `visit(node)` does to the search state, as a function: the state
      after the call and the error it throws, if any. On success the calls
      in progress are as before. */
  function VisitOf(g: DepGraph, node: Name, s: Search): (r: (Search, Option<SortError>))
    requires node in g
    ensures r.1.None? ==> r.0.visiting == s.visiting
    decreases 2 * |g.Keys - s.visiting| + 1
  {
    if node in s.visited then (s, None)
    else if node in s.visiting then (s, Some(Cycle(node)))
    else
      FewerUnvisited(g.Keys, s.visiting, node);
      var (s1, e) := DependenciesOf(g, node, Search(s.visited, s.visiting + {node}, s.order), 0);
      if e.Some? then (s1, e)
      else (Search(s1.visited + {node}, s1.visiting - {node}, s1.order + [node]), None)
  }

  /** The loop of `visit(node)` from the `i`-th dependency on, as a function. */
  function DependenciesOf(g: DepGraph, node: Name, s: Search, i: nat): (r: (Search, Option<SortError>))
    requires node in g && i <= |g[node]|
    ensures r.1.None? ==> r.0.visiting == s.visiting
    decreases 2 * |g.Keys - s.visiting| + 2, |g[node]| - i
  {
    if i == |g[node]| then (s, None)
    else
      var dep := g[node][i];
      if dep !in g then (s, Some(UnknownDependency(dep, node)))
      else
        var (s1, e) := VisitOf(g, dep, s);
        if e.Some? then (s1, e) else DependenciesOf(g, node, s1, i + 1)
  }

  /** The root loop of `topoSort` over `roots`, as a function: the order
      built, or the first error thrown. */
  function RootsOf(g: DepGraph, roots: seq<Name>, s: Search): Result<seq<Name>, SortError>
    requires forall n :: n in roots ==> n in g
  {
    if roots == [] then Ok(s.order)
    else
      var (s1, e) := VisitOf(g, roots[0], s);
      if e.Some? then Err(e.value) else RootsOf(g, roots[1..], s1)
  }

  /** The invariant of that state; the ghost `path` is the chain of `visit`
      calls in progress, whose names `visiting` holds. */
  ghost predicate SearchOk(g: DepGraph, s: Search, path: seq<Name>)
  {
    && OrderOk(g, s.visited, s.order)
    && StackOk(g, s.visiting, path)
    && s.visited !! s.visiting
  }

  /** The `visit(node)` closure. On success `node` and everything it depends
      on are in `order`, and the calls in progress are as before; an error
      says what it found. */
  method Visit(g: DepGraph, node: Name, s: Search, ghost path: seq<Name>)
    returns (s': Search, err: Option<SortError>)
    requires SearchOk(g, s, path) && node in g
    requires |path| > 0 ==> Edge(g, path[|path| - 1], node)
    decreases 2 * |g.Keys - s.visiting| + 1
    ensures (s', err) == VisitOf(g, node, s)
    ensures err.None? ==> SearchOk(g, s', path) && node in s'.visited
    ensures err.None? ==> s'.visiting == s.visiting && s.visited <= s'.visited
    ensures err.Some? ==> ErrorSound(g, err.value)
  {
    s', err := s, None;
    if node in s.visited {
      return;
    }
    if node in s.visiting {
      CycleThroughPath(g, s.visiting, path, node);
      return s, Some(Cycle(node));
    }
    PushKeepsStack(g, s.visiting, path, node);
    FewerUnvisited(g.Keys, s.visiting, node);
    s' := Search(s.visited, s.visiting + {node}, s.order);
    s', err := VisitDependencies(g, node, s', path + [node]);
    if err.Some? {
      return;
    }
    assert (path + [node])[..|path|] == path;
    assert s'.visiting - {node} == s.visiting;
    FinishKeepsOrder(g, s'.visited, s'.order, node);
    s' := Search(s'.visited + {node}, s'.visiting - {node}, s'.order + [node]);
  }

  /** The loop of `visit(node)` over `graph[node]`, run while `node` is on top
      of the chain of calls in progress. */
  method VisitDependencies(g: DepGraph, node: Name, s: Search, ghost path: seq<Name>)
    returns (s': Search, err: Option<SortError>)
    requires SearchOk(g, s, path) && node in g && node !in s.visited
    requires |path| > 0 && path[|path| - 1] == node
    decreases 2 * |g.Keys - s.visiting| + 2
    ensures err.None? ==> SearchOk(g, s', path) && node !in s'.visited
    ensures err.None? ==> s'.visiting == s.visiting && s.visited <= s'.visited
    ensures (s', err) == DependenciesOf(g, node, s, 0)
    ensures err.None? ==> forall d :: d in g[node] ==> d in s'.visited
    ensures err.Some? ==> ErrorSound(g, err.value)
  {
    s', err := s, None;
    var deps := g[node];
    var i := 0;
    while i < |deps|
      invariant 0 <= i <= |deps|
      invariant DependenciesOf(g, node, s, 0) == DependenciesOf(g, node, s', i)
      invariant SearchOk(g, s', path) && node !in s'.visited
      invariant s'.visiting == s.visiting && s.visited <= s'.visited
      invariant forall k :: 0 <= k < i ==> deps[k] in s'.visited
      invariant err.None?
    {
      var dep := deps[i];
      if dep !in g {
        return s', Some(UnknownDependency(dep, node));
      }
      ghost var before := s';
      s', err := Visit(g, dep, s', path);
      if err.Some? {
        return;
      }
      assert DependenciesOf(g, node, before, i) == DependenciesOf(g, node, s', i + 1);
      forall k | 0 <= k < i + 1
        ensures deps[k] in s'.visited
      {
        if k < i {
          assert deps[k] in before.visited;
        }
      }
      i := i + 1;
    }
  }

  /** Re-entering a node that is still being visited closes a cycle. */
  lemma CycleThroughPath(g: DepGraph, visiting: set<Name>, path: seq<Name>, node: Name)
    requires StackOk(g, visiting, path) && node in visiting
    requires |path| > 0 && Edge(g, path[|path| - 1], node)
    ensures OnCycle(g, node)
  {
    assert node in path;
    var start :| 0 <= start < |path| && path[start] == node;
    var c := path[start..] + [node];
    forall i, j | 0 <= i && j == i + 1 && j < |c|
      ensures Edge(g, c[i], c[j])
    {
      if j < |c| - 1 {
        assert c[i] == path[start + i] && c[j] == path[start + j];
      } else {
        assert c[i] == path[|path| - 1];
      }
    }
    assert IsPath(g, c) && |c| >= 2 && c[0] == node && c[|c| - 1] == node;
  }

  /** The part of the search state built by finished visits. */
  ghost predicate OrderOk(g: DepGraph, visited: set<Name>, order: seq<Name>)
  {
    && visited <= g.Keys
    && (forall n :: n in order <==> n in visited)
    && Distinct(order)
    && DepsBefore(g, order)
  }

  /** The chain of visits in progress: `visiting` holds exactly the names on
      `path`, and each one depends on the next. */
  ghost predicate StackOk(g: DepGraph, visiting: set<Name>, path: seq<Name>)
  {
    && (forall n :: n in visiting <==> n in path)
    && visiting <= g.Keys
    && EdgesAlong(g, path)
  }

  lemma FewerUnvisited(keys: set<Name>, visiting: set<Name>, node: Name)
    requires node in keys && node !in visiting
    ensures |keys - (visiting + {node})| < |keys - visiting|
  {
    assert keys - (visiting + {node}) == (keys - visiting) - {node};
  }

  lemma PushKeepsStack(g: DepGraph, visiting: set<Name>, path: seq<Name>, node: Name)
    requires StackOk(g, visiting, path) && node in g
    requires |path| > 0 ==> Edge(g, path[|path| - 1], node)
    ensures StackOk(g, visiting + {node}, path + [node])
  {
    var p := path + [node];
    forall i, j | 0 <= i && j == i + 1 && j < |p|
      ensures Edge(g, p[i], p[j])
    {
      if j < |path| {
        assert p[i] == path[i] && p[j] == path[j];
      }
    }
  }

  /** Pushing a node whose dependencies are all finished keeps the order valid. */
  lemma FinishKeepsOrder(g: DepGraph, visited: set<Name>, order: seq<Name>, node: Name)
    requires OrderOk(g, visited, order) && node in g && node !in visited
    requires forall d :: d in g[node] ==> d in visited
    ensures OrderOk(g, visited + {node}, order + [node])
  {
    var o := order + [node];
    assert o[..|order|] == order;
    forall i | 0 <= i < |o|
      ensures o[i] in g && forall d :: d in g[o[i]] ==> d in o[..i]
    {
      if i < |order| {
        assert o[..i] == order[..i];
      }
    }
  }

  /** `topoSort(graph)`: roots in sorted key order, each visited depth first.
      The result is `RootsOf` over the keys in sorted order, which
      `SortedUnique` shows to be fixed by the key set: the order returned,
      or the error thrown first, is a function of the graph alone. */
  method TopoSort(g: DepGraph) returns (r: Result<seq<Name>, SortError>, ghost roots: seq<Name>)
    ensures StrictlySorted(roots) && |roots| == |g| && (forall n :: n in roots <==> n in g)
    ensures r == RootsOf(g, roots, Search({}, {}, []))
    ensures r.Ok? ==> IsTopoOrder(g, r.value)
    ensures r.Err? ==> ErrorSound(g, r.error)
    ensures r.Ok? <==> Closed(g) && Acyclic(g)
  {
    var keys := SortedKeys(g);
    roots := keys;
    var search := Search({}, {}, []);
    var i := 0;
    while i < |keys|
      invariant 0 <= i <= |keys|
      invariant RootsOf(g, keys, Search({}, {}, [])) == RootsOf(g, keys[i..], search)
      invariant SearchOk(g, search, []) && search.visiting == {}
      invariant forall k :: 0 <= k < i ==> keys[k] in search.visited
    {
      var e;
      assert keys[i..][1..] == keys[i + 1..];
      search, e := Visit(g, keys[i], search, []);
      if e.Some? {
        ErrorRefutes(g, e.value);
        r := Err(e.value);
        return;
      }
      i := i + 1;
    }
    r := Ok(search.order);
    TopoOrderClosed(g, search.order);
    TopoOrderAcyclic(g, search.order);
  }

  /** "Produces stable ordering": any two lists of the keys in sorted order
      give the same result, so which order comes back, or which error is
      thrown first, depends on the graph alone. */
  lemma SortResultUnique(g: DepGraph, a: seq<Name>, b: seq<Name>)
    requires StrictlySorted(a) && |a| == |g| && forall n :: n in a <==> n in g
    requires StrictlySorted(b) && |b| == |g| && forall n :: n in b <==> n in g
    ensures RootsOf(g, a, Search({}, {}, [])) == RootsOf(g, b, Search({}, {}, []))
  {
    SortedUnique(a, b);
  }

  lemma ErrorRefutes(g: DepGraph, e: SortError)
    requires ErrorSound(g, e)
    ensures !(Closed(g) && Acyclic(g))
  {
    if e.UnknownDependency? {
      assert e.node in g && e.dep in g[e.node];
    }
  }

  lemma TopoOrderClosed(g: DepGraph, o: seq<Name>)
    requires IsTopoOrder(g, o)
    ensures Closed(g)
  {
    forall n, d | n in g && d in g[n]
      ensures d in g
    {
      var i :| 0 <= i < |o| && o[i] == n;
      assert d in o[..i];
    }
  }

  /** Along any walk, positions in a topological order strictly decrease. */
  lemma {:induction false} WalkGoesEarlier(g: DepGraph, o: seq<Name>, p: seq<Name>, i: nat)
    requires IsTopoOrder(g, o) && IsPath(g, p) && |p| >= 2
    requires i < |o| && o[i] == p[0]
    ensures p[|p| - 1] in o[..i]
  {
    assert Edge(g, p[0], p[1]);
    assert p[1] in o[..i];
    var i' :| 0 <= i' < i && o[i'] == p[1];
    if |p| > 2 {
      var q := p[1..];
      forall i, j | 0 <= i && j == i + 1 && j < |q|
        ensures Edge(g, q[i], q[j])
      {
        assert q[i] == p[i + 1] && q[j] == p[j + 1];
      }
      WalkGoesEarlier(g, o, q, i');
      assert o[..i'] <= o[..i];
    }
  }

  /** A graph that has a topological order has no cycle. */
  lemma TopoOrderAcyclic(g: DepGraph, o: seq<Name>)
    requires IsTopoOrder(g, o)
    ensures Acyclic(g)
  {
    forall n
      ensures !OnCycle(g, n)
    {
      if OnCycle(g, n) {
        var p :| IsPath(g, p) && |p| >= 2 && p[0] == n && p[|p| - 1] == n;
        assert Edge(g, p[0], p[1]);
        var i :| 0 <= i < |o| && o[i] == n;
        WalkGoesEarlier(g, o, p, i);
        assert false;
      }
    }
  }

  // ---------------------------------------------------------------------------
  // validateGraph
  // ---------------------------------------------------------------------------

  /** What a reported error says is true of the graph. */
  ghost predicate ReportSound(g: DepGraph, e: ValidationError)
  {
    match e
    case MissingDependency(n, d) => n in g && d in g[n] && d !in g
    case SortFailed(err) => ErrorSound(g, err)
  }

  /** The errors the inner loop reports for `node`: one per listed
      dependency that is not a key, in list order, repeats included. */
  function MissingOf(g: DepGraph, node: Name, deps: seq<Name>): seq<ValidationError>
  {
    if deps == [] then []
    else
      var last := deps[|deps| - 1];
      MissingOf(g, node, deps[..|deps| - 1]) + (if last !in g then [MissingDependency(node, last)] else [])
  }

  /** Each error `MissingOf` reports is about `node` and a listed dependency
      that is not a key, and each such dependency is reported. */
  lemma {:induction false} MissingOfMembers(g: DepGraph, node: Name, deps: seq<Name>)
    ensures forall e :: e in MissingOf(g, node, deps) ==>
      e.MissingDependency? && e.node == node && e.dep in deps && e.dep !in g
    ensures forall d :: MissingDependency(node, d) in MissingOf(g, node, deps) <==> d in deps && d !in g
  {
    if deps != [] {
      var init, last := deps[..|deps| - 1], deps[|deps| - 1];
      MissingOfMembers(g, node, init);
      assert deps == init + [last];
    }
  }

  /** The errors the whole dependency loop reports, walking `nodes` in turn. */
  function MissingOver(g: DepGraph, nodes: seq<Name>): seq<ValidationError>
    requires forall n :: n in nodes ==> n in g
  {
    if nodes == [] then []
    else
      var last := nodes[|nodes| - 1];
      assert last in nodes;
      MissingOver(g, nodes[..|nodes| - 1]) + MissingOf(g, last, g[last])
  }

  /** Every error the loop reports is a true missing dependency of a node
      walked, and every missing dependency of a node walked is reported. */
  lemma {:induction false} MissingOverMembers(g: DepGraph, nodes: seq<Name>)
    requires forall n :: n in nodes ==> n in g
    ensures forall e :: e in MissingOver(g, nodes) ==> e.MissingDependency? && e.node in nodes && ReportSound(g, e)
    ensures forall n, d :: n in nodes && d in g[n] && d !in g ==> MissingDependency(n, d) in MissingOver(g, nodes)
  {
    if nodes != [] {
      var init, last := nodes[..|nodes| - 1], nodes[|nodes| - 1];
      assert nodes == init + [last];
      MissingOverMembers(g, init);
      MissingOfMembers(g, last, g[last]);
    }
  }

  /** A missing dependency is reported once per time the node lists it. */
  lemma {:induction false} MissingOfCount(g: DepGraph, node: Name, deps: seq<Name>, d: Name)
    ensures multiset(MissingOf(g, node, deps))[MissingDependency(node, d)] ==
      if d in g then 0 else multiset(deps)[d]
  {
    if deps != [] {
      var init, last := deps[..|deps| - 1], deps[|deps| - 1];
      MissingOfCount(g, node, init, d);
      assert deps == init + [last];
      assert multiset(deps)[d] == multiset(init)[d] + if last == d then 1 else 0;
      var target := MissingDependency(node, d);
      if last in g {
        assert MissingOf(g, node, deps) == MissingOf(g, node, init);
      } else {
        var e := MissingDependency(node, last);
        assert MissingOf(g, node, deps) == MissingOf(g, node, init) + [e];
        assert multiset(MissingOf(g, node, deps))[target] ==
          multiset(MissingOf(g, node, init))[target] + if last == d then 1 else 0;
      }
    }
  }

  /** Over a list of distinct nodes, the error for `(n, d)` appears once per
      time `n` lists the missing `d`, and never for a node not walked. */
  lemma {:induction false} MissingOverCount(g: DepGraph, nodes: seq<Name>, n: Name, d: Name)
    requires (forall m :: m in nodes ==> m in g) && Distinct(nodes)
    ensures multiset(MissingOver(g, nodes))[MissingDependency(n, d)] ==
      if n in nodes && d !in g then multiset(g[n])[d] else 0
  {
    if nodes != [] {
      var init, last := nodes[..|nodes| - 1], nodes[|nodes| - 1];
      assert nodes == init + [last];
      assert Distinct(init);
      MissingOverCount(g, init, n, d);
      if n == last {
        MissingOfCount(g, last, g[last], d);
        assert n !in init;
      } else {
        MissingOfMembers(g, last, g[last]);
        assert MissingDependency(n, d) !in MissingOf(g, last, g[last]);
        assert n in nodes <==> n in init;
      }
    }
  }

  lemma MissingOfSnoc(g: DepGraph, node: Name, deps: seq<Name>, j: nat)
    requires j < |deps|
    ensures MissingOf(g, node, deps[..j + 1]) ==
      MissingOf(g, node, deps[..j]) + (if deps[j] !in g then [MissingDependency(node, deps[j])] else [])
  {
    assert deps[..j + 1][..j] == deps[..j];
  }

  lemma MissingOverSnoc(g: DepGraph, entries: seq<Name>, i: nat)
    requires i < |entries| && forall n :: n in entries ==> n in g
    ensures MissingOver(g, entries[..i + 1]) == MissingOver(g, entries[..i]) + MissingOf(g, entries[i], g[entries[i]])
  {
    assert entries[..i + 1][..i] == entries[..i];
  }

  /** The dependency loop of `validateGraph` over `Object.entries(graph)`,
      whose keys come in the order `entries`. */
  method MissingDependencies(g: DepGraph, entries: seq<Name>) returns (errors: seq<ValidationError>)
    requires forall n :: n in entries ==> n in g
    ensures errors == MissingOver(g, entries)
  {
    errors := [];
    var i := 0;
    while i < |entries|
      invariant 0 <= i <= |entries|
      invariant errors == MissingOver(g, entries[..i])
    {
      var node := entries[i];
      var deps := g[node];
      var j := 0;
      while j < |deps|
        invariant 0 <= j <= |deps|
        invariant errors == MissingOver(g, entries[..i]) + MissingOf(g, node, deps[..j])
      {
        MissingOfSnoc(g, node, deps, j);
        if deps[j] !in g {
          errors := errors + [MissingDependency(node, deps[j])];
        }
        j := j + 1;
      }
      assert deps[..j] == deps;
      MissingOverSnoc(g, entries, i);
      i := i + 1;
    }
    assert entries[..i] == entries;
  }

  /** What `topoSort` throws, as a list of at most one error. */
  function SortFailure(result: Result<seq<Name>, SortError>): (r: seq<ValidationError>)
    ensures |r| <= 1 && (r == [] <==> result.Ok?)
    ensures forall e :: e in r ==> e == SortFailed(result.error)
  {
    if result.Err? then [SortFailed(result.error)] else []
  }

  /** Missing-dependency errors followed by at most one sort failure: the
      failure can only be last, and the counts of missing-dependency errors
      are those of the first part. */
  lemma ErrorListShape(missing: seq<ValidationError>, failure: seq<ValidationError>)
    requires forall e :: e in missing ==> e.MissingDependency?
    requires |failure| <= 1 && forall e :: e in failure ==> e.SortFailed?
    ensures var errors := missing + failure;
      && (forall i :: 0 <= i < |errors| && errors[i].SortFailed? ==> i == |errors| - 1)
      && (forall n, d :: multiset(errors)[MissingDependency(n, d)] == multiset(missing)[MissingDependency(n, d)])
  {
    var errors := missing + failure;
    forall i | 0 <= i < |missing|
      ensures errors[i].MissingDependency?
    {
      assert errors[i] == missing[i] && missing[i] in missing;
    }
    forall n, d
      ensures multiset(errors)[MissingDependency(n, d)] == multiset(missing)[MissingDependency(n, d)]
    {
      assert MissingDependency(n, d) !in failure;
    }
  }

  /** The counts of missing-dependency errors over the entries: one per
      listing of a missing dependency. */
  lemma MissingCounts(g: DepGraph, entries: seq<Name>)
    requires (forall n :: n in entries <==> n in g) && Distinct(entries)
    ensures forall n, d :: (multiset(MissingOver(g, entries))[MissingDependency(n, d)] ==
      if n in g && d !in g then multiset(g[n])[d] else 0)
  {
    forall n, d
      ensures multiset(MissingOver(g, entries))[MissingDependency(n, d)] ==
        if n in g && d !in g then multiset(g[n])[d] else 0
    {
      MissingOverCount(g, entries, n, d);
    }
  }

  /** `validateGraph(graph)`, where `entries` is the order of
      `Object.entries(graph)`: the missing-dependency errors node by node,
      then the error `topoSort` throws, if it throws. */
  method ValidateGraph(g: DepGraph, entries: seq<Name>) returns (r: Validation, ghost roots: seq<Name>)
    requires (forall n :: n in entries <==> n in g) && Distinct(entries)
    ensures StrictlySorted(roots) && |roots| == |g| && (forall n :: n in roots <==> n in g)
    ensures r.errors == MissingOver(g, entries) + SortFailure(RootsOf(g, roots, Search({}, {}, [])))
    ensures r.valid <==> r.errors == []
    ensures r.valid <==> Closed(g) && Acyclic(g)
    ensures forall e :: e in r.errors ==> ReportSound(g, e)
    ensures forall n, d :: multiset(r.errors)[MissingDependency(n, d)] == if n in g && d !in g then multiset(g[n])[d] else 0
    ensures forall i :: 0 <= i < |r.errors| && r.errors[i].SortFailed? ==> i == |r.errors| - 1
    ensures !(Closed(g) && Acyclic(g)) ==> r.errors[|r.errors| - 1].SortFailed?
  {
    var missing := MissingDependencies(g, entries);
    var sorted;
    sorted, roots := TopoSort(g);
    var failure := SortFailure(sorted);
    r := Validation(|missing + failure| == 0, missing + failure);
    MissingOverMembers(g, entries);
    ErrorListShape(missing, failure);
    MissingCounts(g, entries);
    if |missing| > 0 {
      assert missing[0] in missing;
      assert !Closed(g);
    }
  }

  // ---------------------------------------------------------------------------
  // getExecutionOrder and getDependencies
  // ---------------------------------------------------------------------------

  /** A dependency comes before the name that lists it in any topological order. */
  lemma DependencyPrecedes(g: DepGraph, o: seq<Name>, n: Name, d: Name)
    requires IsTopoOrder(g, o) && Edge(g, n, d)
    ensures Precedes(o, d, n)
  {
    var j :| 0 <= j < |o| && o[j] == n;
    assert d in o[..j];
    var i :| 0 <= i < j && o[i] == d;
  }

  /** A layering of the shipped graph: every name sits above its dependencies. */
  function Level(n: Name): nat
  {
    match n
    case "runway" => 0
    case "metrics" => 0
    case "trajectory" => 1
    case "health" => 1
    case "goalTrajectory" => 2
    case "issues" => 3
    case "preissues" => 3
    case "ripple" => 4
    case "introOpportunity" => 4
    case "actionCandidates" => 5
    case "actionImpact" => 6
    case "valueVector" => 7
    case "actionRanker" => 8
    case "weeklyValue" => 9
    case "priority" => 10
    case _ => 0
  }

  lemma ShippedClosed()
    ensures Closed(GRAPH)
  {
  }

  lemma ShippedEdgesDescend()
    ensures forall a, b :: Edge(GRAPH, a, b) ==> Level(b) < Level(a)
  {
  }

  /** Levels strictly fall along every walk of at least one edge. */
  lemma {:induction false} WalkDescends(p: seq<Name>)
    requires IsPath(GRAPH, p) && |p| >= 2
    requires forall a, b :: Edge(GRAPH, a, b) ==> Level(b) < Level(a)
    ensures Level(p[|p| - 1]) < Level(p[0])
  {
    assert Edge(GRAPH, p[0], p[1]);
    if |p| > 2 {
      var q := p[1..];
      forall i, j | 0 <= i && j == i + 1 && j < |q|
        ensures Edge(GRAPH, q[i], q[j])
      {
        assert q[i] == p[i + 1] && q[j] == p[j + 1];
      }
      WalkDescends(q);
    }
  }

  /** The shipped graph is closed and acyclic. */
  lemma ShippedGraphIsDag()
    ensures Closed(GRAPH) && Acyclic(GRAPH)
  {
    ShippedClosed();
    ShippedEdgesDescend();
    forall n
      ensures !OnCycle(GRAPH, n)
    {
      if OnCycle(GRAPH, n) {
        var p :| IsPath(GRAPH, p) && |p| >= 2 && p[0] == n && p[|p| - 1] == n;
        WalkDescends(p);
        assert false;
      }
    }
  }

  /** `getExecutionOrder()`: `topoSort(GRAPH)`, which cannot throw. */
  method GetExecutionOrder() returns (order: seq<Name>)
    ensures IsTopoOrder(GRAPH, order)
    ensures Precedes(order, "valueVector", "actionRanker")
    ensures Precedes(order, "actionRanker", "weeklyValue")
  {
    ShippedGraphIsDag();
    var r, _ := TopoSort(GRAPH);
    order := r.value;
    DependencyPrecedes(GRAPH, order, "actionRanker", "valueVector");
    DependencyPrecedes(GRAPH, order, "weeklyValue", "actionRanker");
  }

  /** `getDependencies(node)`: `GRAPH[node] || []`. */
  function GetDependencies(node: Name): (r: seq<Name>)
    ensures forall d :: d in r <==> Edge(GRAPH, node, d)
    ensures node !in GRAPH ==> r == []
  {
    Deps(GRAPH, node)
  }

  // ---------------------------------------------------------------------------
  // dependsOn
  // ---------------------------------------------------------------------------

  /** Every name the graph mentions, as a key or as a dependency. */
  ghost function Names(g: DepGraph): set<Name>
  {
    g.Keys + set n, d | n in g && d in g[n] :: d
  }

  /** `universe` holds every name listed as a dependency. */
  ghost predicate Covers(g: DepGraph, universe: set<Name>)
  {
    forall n, d :: n in g && d in g[n] ==> d in universe
  }

  /** Every visited name that is not an unfinished call has all its
      dependencies visited. */
  ghost predicate ClosedExcept(g: DepGraph, visited: set<Name>, active: set<Name>)
  {
    forall v, d :: v in visited && v !in active && d in Deps(g, v) ==> d in visited
  }

  /** The invariant of the `check` closure's state. */
  ghost predicate CheckOk(g: DepGraph, target: Name, visited: set<Name>, active: set<Name>, universe: set<Name>)
  {
    && visited <= universe
    && active <= visited
    && target !in visited
    && ClosedExcept(g, visited, active)
  }

  lemma FewerUnchecked(universe: set<Name>, before: set<Name>, after: set<Name>, x: Name)
    requires before <= after <= universe && x in after && x !in before
    ensures |universe - after| < |universe - before|
  {
    var smaller := (universe - before) - {x};
    assert universe - after <= smaller;
    SubsetNoLarger(universe - after, smaller);
  }

  lemma {:induction false} SubsetNoLarger(a: set<Name>, b: set<Name>)
    requires a <= b
    ensures |a| <= |b|
    decreases b
  {
    if a != {} {
      var x :| x in a;
      SubsetNoLarger(a - {x}, b - {x});
    }
  }

  /** A dependency edge in front of a walk is a walk. */
  lemma ReachesThrough(g: DepGraph, a: Name, b: Name, c: Name)
    requires Edge(g, a, b) && Reaches(g, b, c)
    ensures Reaches(g, a, c)
  {
    var p :| IsPath(g, p) && p[0] == b && p[|p| - 1] == c;
    var q := [a] + p;
    forall i, j | 0 <= i && j == i + 1 && j < |q|
      ensures Edge(g, q[i], q[j])
    {
      if i > 0 {
        assert q[i] == p[i - 1] && q[j] == p[j - 1];
      }
    }
    assert IsPath(g, q) && q[0] == a && q[|q| - 1] == c;
  }

  /** The `check(current)` closure of `dependsOn`; `active` holds the calls
      in progress and `universe` every name the search can meet. */
  method Check(g: DepGraph, target: Name, current: Name, visited: set<Name>,
               ghost active: set<Name>, ghost universe: set<Name>)
    returns (found: bool, visited': set<Name>)
    requires CheckOk(g, target, visited, active, universe)
    requires Covers(g, universe) && current in universe
    decreases |universe - visited|
    ensures found ==> Reaches(g, current, target)
    ensures !found ==> CheckOk(g, target, visited', active, universe)
    ensures !found ==> visited <= visited' && current in visited'
  {
    if current == target {
      assert IsPath(g, [current]);
      return true, visited;
    }
    if current in visited {
      return false, visited;
    }
    visited' := visited + {current};
    var deps := Deps(g, current);
    var i := 0;
    while i < |deps|
      invariant 0 <= i <= |deps|
      invariant CheckOk(g, target, visited', active + {current}, universe)
      invariant visited <= visited' && current in visited'
      invariant forall k :: 0 <= k < i ==> deps[k] in visited'
    {
      assert current in g && deps[i] in g[current];
      FewerUnchecked(universe, visited, visited', current);
      ghost var before := visited';
      var sub;
      sub, visited' := Check(g, target, deps[i], visited', active + {current}, universe);
      if sub {
        ReachesThrough(g, current, deps[i], target);
        return true, visited';
      }
      forall k | 0 <= k < i + 1
        ensures deps[k] in visited'
      {
        if k < i {
          assert deps[k] in before;
        }
      }
      i := i + 1;
    }
    found := false;
  }

  /** If the visited set is closed under dependencies, every walk from a
      visited name stays inside it. */
  lemma {:induction false} ClosedWalk(g: DepGraph, visited: set<Name>, p: seq<Name>)
    requires ClosedExcept(g, visited, {}) && IsPath(g, p) && p[0] in visited
    ensures p[|p| - 1] in visited
  {
    if |p| > 1 {
      assert Edge(g, p[0], p[1]);
      var q := p[1..];
      forall i, j | 0 <= i && j == i + 1 && j < |q|
        ensures Edge(g, q[i], q[j])
      {
        assert q[i] == p[i + 1] && q[j] == p[j + 1];
      }
      ClosedWalk(g, visited, q);
    }
  }

  /** `dependsOn(nodeA, nodeB)`: whether `nodeB` is `nodeA` or reachable from it
      in `GRAPH`. */
  method DependsOn(a: Name, b: Name) returns (found: bool)
    ensures found <==> Reaches(GRAPH, a, b)
  {
    ghost var universe := Names(GRAPH) + {a};
    var visited;
    found, visited := Check(GRAPH, b, a, {}, {}, universe);
    if !found && Reaches(GRAPH, a, b) {
      var p :| IsPath(GRAPH, p) && p[0] == a && p[|p| - 1] == b;
      ClosedWalk(GRAPH, visited, p);
      assert false;
    }
  }
}
