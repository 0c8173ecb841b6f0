/** Breadth-first search over the import graph, and the sorted duplicate-free import lists it runs on. */
module ImportGraph {
  import opened Ordering

  type Graph = map<string, seq<string>>

  function Imports(g: Graph, x: string): seq<string> {
    if x in g then g[x] else []
  }

  /** A chain of imports from `root` to `x`. */
  predicate IsPath(g: Graph, p: seq<string>, root: string, x: string) {
    && |p| > 0 && p[0] == root && p[|p| - 1] == x
    && forall i | 0 <= i < |p| - 1 :: p[i + 1] in Imports(g, p[i])
  }

  ghost predicate Reaches(g: Graph, root: string, x: string) {
    exists p :: IsPath(g, p, root, x)
  }

  predicate MatchesPrefix(value: string, prefix: string) {
    value == prefix || (|prefix| < |value| && value[..|prefix|] == prefix && value[|prefix|] == '/')
  }

  predicate MatchesAny(value: string, prefixes: seq<string>) {
    exists i | 0 <= i < |prefixes| :: MatchesPrefix(value, prefixes[i])
  }

  ghost function Nodes(g: Graph, root: string): set<string> {
    {root} + set k, i | k in g && 0 <= i < |g[k]| :: g[k][i]
  }

  // ---------- The search tree ----------

  /** `paths` gives every discovered package the path along its parents. */
  ghost predicate Tree(g: Graph, root: string, parent: map<string, string>, paths: map<string, seq<string>>) {
    && paths.Keys == parent.Keys && root in parent && parent[root] == "" && paths[root] == [root]
    && (forall x | x in parent :: IsPath(g, paths[x], root, x))
    && (forall x | x in parent && x != root :: parent[x] in parent && paths[x] == paths[parent[x]] + [x])
  }

  /** The queue holds discovered packages once each, nearest first. */
  ghost predicate Frontier(paths: map<string, seq<string>>, queue: seq<string>) {
    && NoDuplicates(queue) && (forall i | 0 <= i < |queue| :: queue[i] in paths)
    && (forall i, j | 0 <= i < j < |queue| :: |paths[queue[i]]| <= |paths[queue[j]]|)
  }

  /** Nothing discovered lies more than one step beyond distance `d`. */
  ghost predicate Near(paths: map<string, seq<string>>, d: nat) {
    forall x | x in paths :: |paths[x]| <= d + 1
  }

  /** The first `n` imports of `x` are discovered, no farther than one step beyond it. */
  ghost predicate Expanded(g: Graph, paths: map<string, seq<string>>, x: string, n: nat)
    requires x in paths && n <= |Imports(g, x)|
  {
    forall k | 0 <= k < n :: Imports(g, x)[k] in paths && |paths[Imports(g, x)[k]]| <= |paths[x]| + 1
  }

  ghost predicate Finished(g: Graph, paths: map<string, seq<string>>, open: set<string>) {
    forall x | x in paths && x !in open :: Expanded(g, paths, x, |Imports(g, x)|)
  }

  /** Along any path from the root, a package is discovered within its distance or an open package comes before it. */
  lemma {:induction false} PathsAreCovered(g: Graph, root: string, paths: map<string, seq<string>>, open: set<string>,
        p: seq<string>, x: string)
    requires root in paths && paths[root] == [root] && Finished(g, paths, open) && IsPath(g, p, root, x)
    ensures (x in paths && |paths[x]| <= |p|) || exists i ::
        0 <= i < |p| - 1 && p[i] in open && p[i] in paths && |paths[p[i]]| <= i + 1
    decreases |p|
  {
    if |p| > 1 {
      var q := p[..|p| - 1];
      var y := q[|q| - 1];
      assert IsPath(g, q, root, y);
      PathsAreCovered(g, root, paths, open, q, y);
      if y in paths && |paths[y]| <= |q| {
        if y in open {
          assert p[|p| - 2] == y;
        } else {
          assert Expanded(g, paths, y, |Imports(g, y)|);
          var k :| 0 <= k < |Imports(g, y)| && Imports(g, y)[k] == x;
        }
      } else {
        var i :| 0 <= i < |q| - 1 && q[i] in open && q[i] in paths && |paths[q[i]]| <= i + 1;
        assert p[i] == q[i];
      }
    }
  }

  lemma ExtendPath(g: Graph, p: seq<string>, root: string, x: string, y: string)
    requires IsPath(g, p, root, x) && y in Imports(g, x)
    ensures IsPath(g, p + [y], root, y)
  {
  }

  // ---------- buildPath ----------

  function Reverse<T>(s: seq<T>): seq<T> {
    seq(|s|, i requires 0 <= i < |s| => s[|s| - 1 - i])
  }

  /** Swap from both ends towards the middle. */
  method ReverseInPlace(a: array<string>)
    modifies a
    ensures a[..] == Reverse(old(a[..]))
  {
    var left, right := 0, a.Length - 1;
    while left < right
      invariant 0 <= left <= a.Length && left + right == a.Length - 1
      invariant forall k | 0 <= k < left || right < k < a.Length :: a[k] == old(a[a.Length - 1 - k])
      invariant forall k | left <= k <= right :: a[k] == old(a[k])
    {
      a[left], a[right] := a[right], a[left];
      left, right := left + 1, right - 1;
    }
  }

  /** The names met on the way up from `x`, until a parent is the empty name. */
  ghost function Climb(g: Graph, root: string, parent: map<string, string>, paths: map<string, seq<string>>,
        x: string): (up: seq<string>)
    requires Tree(g, root, parent, paths) && x in parent
    ensures |up| > 0 && up[0] == x
    decreases |paths[x]|
  {
    if parent[x] == "" then [x] else [x] + Climb(g, root, parent, paths, parent[x])
  }

  lemma ReverseOnto<T>(x: T, s: seq<T>)
    ensures Reverse([x] + s) == Reverse(s) + [x]
  {
  }

  /** The packages of `p` after the last one before its end that has the empty name. */
  predicate ReportedFrom(p: seq<string>, k: int, path: seq<string>) {
    0 <= k < |p| && path == p[k..] && "" !in p[k..|p| - 1] && (k == 0 || p[k - 1] == "")
  }

  lemma ReverseOne<T>(x: T)
    ensures Reverse([x]) == [x]
  {
  }

  lemma LastOfPath(g: Graph, p: seq<string>, root: string, x: string)
    requires IsPath(g, p, root, x)
    ensures |p| > 0 && p[|p| - 1] == x
  {
  }

  /** A path reported from its end alone: its last package but one has the empty name, or there is none. */
  lemma ReportStarts(p: seq<string>, x: string)
    requires p != [] ==> p[|p| - 1] == ""
    ensures ReportedFrom(p + [x], |p|, [x])
  {
  }

  lemma ReportExtends(p: seq<string>, k: nat, path: seq<string>, x: string)
    requires ReportedFrom(p, k, path) && p[|p| - 1] != ""
    ensures ReportedFrom(p + [x], k, path + [x])
  {
    var q := p + [x];
    assert q[k..] == p[k..] + [x] && q[k..|q| - 1] == p[k..|p| - 1] + [p[|p| - 1]];
  }

  /** The climb finds the path from its last empty-named package on. */
  lemma {:induction false} ClimbReports(g: Graph, root: string, parent: map<string, string>,
        paths: map<string, seq<string>>, x: string)
    returns (k: nat)
    requires Tree(g, root, parent, paths) && x in parent
    ensures ReportedFrom(paths[x], k, Reverse(Climb(g, root, parent, paths, x)))
    decreases |paths[x]|
  {
    hide Reverse, ReportedFrom, IsPath;
    k := 0;
    if x == root {
      ReportStarts([], x);
      ReverseOne(x);
    } else {
      var y := parent[x];
      assert paths[x] == paths[y] + [x];
      LastOfPath(g, paths[y], root, y);
      if y == "" {
        k := |paths[y]|;
        ReverseOne(x);
        ReportStarts(paths[y], x);
      } else {
        k := ClimbReports(g, root, parent, paths, y);
        ReverseOnto(x, Climb(g, root, parent, paths, y));
        ReportExtends(paths[y], k, Reverse(Climb(g, root, parent, paths, y)), x);
      }
    }
  }

  /** So it finds the whole path exactly when no package before the last has the empty name. */
  lemma ClimbIsThePath(g: Graph, root: string, parent: map<string, string>, paths: map<string, seq<string>>, x: string)
    requires Tree(g, root, parent, paths) && x in parent
    ensures Reverse(Climb(g, root, parent, paths, x)) == paths[x] <==> "" !in paths[x][..|paths[x]| - 1]
  {
    hide Climb, Reverse;
    var k := ClimbReports(g, root, parent, paths, x);
    var p := paths[x];
    if k == 0 {
      assert p[0..] == p && p[0..|p| - 1] == p[..|p| - 1];
    } else {
      assert p[..|p| - 1][k - 1] == "" && |p[k..]| < |p|;
    }
  }

  /** With a package named by the empty string the climb stops early: of root, "" and leaf only leaf is reported. */
  lemma EmptyNameCutsPath()
    ensures var g: Graph := map["root" := [""], "" := ["leaf"]];
            var parent := map["root" := "", "" := "root", "leaf" := ""];
            var paths := map["root" := ["root"], "" := ["root", ""], "leaf" := ["root", "", "leaf"]];
            Tree(g, "root", parent, paths) && Reverse(Climb(g, "root", parent, paths, "leaf")) == ["leaf"]
  {
    var g: Graph := map["root" := [""], "" := ["leaf"]];
    var paths := map["root" := ["root"], "" := ["root", ""], "leaf" := ["root", "", "leaf"]];
    assert IsPath(g, paths[""], "root", "") && IsPath(g, paths["leaf"], "root", "leaf");
    assert paths["leaf"] == paths[""] + ["leaf"] && paths[""] == paths["root"] + [""];
  }

  lemma ClimbStep(g: Graph, root: string, parent: map<string, string>, paths: map<string, seq<string>>, x: string,
        below: seq<string>)
    requires Tree(g, root, parent, paths) && x in parent
    ensures parent[x] == "" ==> below + Climb(g, root, parent, paths, x) == below + [x]
    ensures parent[x] != "" ==>
              && parent[x] in parent && |paths[parent[x]]| < |paths[x]|
              && below + Climb(g, root, parent, paths, x) == below + [x] + Climb(g, root, parent, paths, parent[x])
  {
    hide IsPath;
  }

  /** Follow the parents up to the empty name, then turn the list around. */
  method BuildPath(g: Graph, root: string, parent: map<string, string>, ghost paths: map<string, seq<string>>,
        x: string) returns (path: seq<string>)
    requires Tree(g, root, parent, paths) && x in parent
    ensures path == Reverse(Climb(g, root, parent, paths, x))
  {
    hide Reverse, Tree, Climb;
    var last := x;
    var up := [x];
    assert TreeKeys(parent, paths) by { TreeHasKeys(g, root, parent, paths); }
    assert [] + Climb(g, root, parent, paths, x) == Climb(g, root, parent, paths, x);
    ClimbStep(g, root, parent, paths, x, []);
    while parent[last] != ""
      invariant last in parent && |up| > 0 && up[|up| - 1] == last
      invariant Climb(g, root, parent, paths, x) == up[..|up| - 1] + Climb(g, root, parent, paths, last)
      decreases if last in paths then |paths[last]| else 0
    {
      ClimbStep(g, root, parent, paths, last, up[..|up| - 1]);
      ghost var below := up;
      last := parent[last];
      up := up + [last];
      assert up[..|up| - 1] == below == below[..|below| - 1] + [below[|below| - 1]];
    }
    ClimbStep(g, root, parent, paths, last, up[..|up| - 1]);
    assert up == up[..|up| - 1] + [last];
    var a := new string[|up|](i requires 0 <= i < |up| => up[i]);
    assert a[..] == up;
    ReverseInPlace(a);
    return a[..];
  }

  ghost predicate TreeKeys(parent: map<string, string>, paths: map<string, seq<string>>) {
    paths.Keys == parent.Keys
  }

  lemma TreeHasKeys(g: Graph, root: string, parent: map<string, string>, paths: map<string, seq<string>>)
    requires Tree(g, root, parent, paths)
    ensures TreeKeys(parent, paths)
  {
  }

  // ---------- firstForbiddenPath ----------

  predicate Forbidden(root: string, forbidden: seq<string>, x: string) {
    x != root && MatchesAny(x, forbidden)
  }

  /** `p` leads to a forbidden package and no path to any forbidden package is shorter. */
  ghost predicate Shortest(g: Graph, root: string, forbidden: seq<string>, p: seq<string>) {
    && |p| > 0 && IsPath(g, p, root, p[|p| - 1]) && Forbidden(root, forbidden, p[|p| - 1])
    && forall q, y | IsPath(g, q, root, y) && Forbidden(root, forbidden, y) :: |p| <= |q|
  }

  /** No discovered package outside the queue is forbidden. */
  ghost predicate Clean(root: string, forbidden: seq<string>, paths: map<string, seq<string>>, open: set<string>) {
    forall x | x in paths && x !in open :: !Forbidden(root, forbidden, x)
  }

  ghost function Elements(queue: seq<string>): set<string> {
    set x | x in queue
  }

  /** What the search knows between two packages: everything outside `open` is expanded and allowed. */
  ghost predicate Searching(g: Graph, root: string, forbidden: seq<string>, parent: map<string, string>,
        paths: map<string, seq<string>>, queue: seq<string>) {
    && Tree(g, root, parent, paths) && Frontier(paths, queue) && parent.Keys <= Nodes(g, root)
    && Finished(g, paths, Elements(queue)) && Clean(root, forbidden, paths, Elements(queue))
    && (queue != [] ==> Near(paths, |paths[queue[0]]|))
  }

  /** What it knows while the imports of `current` are being scanned. */
  ghost predicate Scanning(g: Graph, root: string, forbidden: seq<string>, parent: map<string, string>,
        paths: map<string, seq<string>>, queue: seq<string>, current: string, n: nat)
    requires n <= |Imports(g, current)|
  {
    && Tree(g, root, parent, paths) && Frontier(paths, queue) && parent.Keys <= Nodes(g, root)
    && Finished(g, paths, Elements(queue) + {current}) && Clean(root, forbidden, paths, Elements(queue))
    && current in paths && current !in queue && Expanded(g, paths, current, n)
    && Near(paths, |paths[current]|) && (forall i | 0 <= i < |queue| :: |paths[current]| <= |paths[queue[i]]|)
  }

  lemma StartSearching(g: Graph, root: string, forbidden: seq<string>)
    ensures Searching(g, root, forbidden, map[root := ""], map[root := [root]], [root])
  {
  }

  lemma StartScanning(g: Graph, root: string, forbidden: seq<string>, parent: map<string, string>, paths: map<string,
        seq<string>>, queue: seq<string>)
    requires Searching(g, root, forbidden, parent, paths, queue) && queue != [] && !Forbidden(root, forbidden, queue[0])
    ensures Scanning(g, root, forbidden, parent, paths, queue[1..], queue[0], 0)
  {
    hide Tree, Forbidden, Expanded, Near, Nodes;
    var rest := queue[1..];
    assert forall i | 0 <= i < |rest| :: rest[i] == queue[i + 1];
    assert Elements(queue) == Elements(rest) + {queue[0]};
    NothingExpanded(g, paths, queue[0]);
    TreeHasKeys(g, root, parent, paths);
  }

  lemma NothingExpanded(g: Graph, paths: map<string, seq<string>>, x: string)
    requires x in paths
    ensures Expanded(g, paths, x, 0)
  {
  }

  lemma StopScanning(g: Graph, root: string, forbidden: seq<string>, parent: map<string, string>, paths: map<string,
        seq<string>>, queue: seq<string>, current: string)
    requires Scanning(g, root, forbidden, parent, paths, queue, current, |Imports(g, current)|)
    ensures Searching(g, root, forbidden, parent, paths, queue)
  {
    hide Tree, Forbidden, Clean;
  }

  lemma SkipKnown(g: Graph, root: string, forbidden: seq<string>, parent: map<string, string>, paths: map<string,
        seq<string>>, queue: seq<string>, current: string, n: nat)
    requires n < |Imports(g, current)| && Scanning(g, root, forbidden, parent, paths, queue, current, n)
        && Imports(g, current)[n] in parent
    ensures Scanning(g, root, forbidden, parent, paths, queue, current, n + 1)
  {
    hide Tree, Forbidden, Clean, Frontier, Finished, Nodes;
    TreeHasKeys(g, root, parent, paths);
  }

  lemma DiscoverTree(g: Graph, root: string, parent: map<string, string>, paths: map<string, seq<string>>, x: string,
        y: string)
    requires Tree(g, root, parent, paths) && parent.Keys <= Nodes(g, root) && x in parent && y in Imports(g, x)
        && y !in parent
    ensures Tree(g, root, parent[y := x], paths[y := paths[x] + [y]]) && parent[y := x].Keys <= Nodes(g, root)
  {
    hide IsPath;
    ExtendPath(g, paths[x], root, x, y);
    var k :| 0 <= k < |g[x]| && g[x][k] == y;
  }

  lemma DiscoverFrontier(paths: map<string, seq<string>>, queue: seq<string>, x: string, y: string)
    requires Frontier(paths, queue) && x in paths && y !in paths && Near(paths, |paths[x]|)
        && forall i | 0 <= i < |queue| :: |paths[x]| <= |paths[queue[i]]|
    ensures var paths' := paths[y := paths[x] + [y]];
            Frontier(paths', queue + [y]) && Near(paths', |paths'[x]|) && forall i | 0 <= i < |queue + [y]| ::
                |paths'[x]| <= |paths'[(queue + [y])[i]]|
  {
  }

  lemma DiscoverFinished(g: Graph, paths: map<string, seq<string>>, open: set<string>, x: string, y: string)
    requires x in paths && y !in paths && Finished(g, paths, open)
    ensures Finished(g, paths[y := paths[x] + [y]], open + {y})
  {
    var paths' := paths[y := paths[x] + [y]];
    forall z | z in paths' && z !in open + {y} ensures Expanded(g, paths', z, |Imports(g, z)|) {
        assert Expanded(g, paths, z, |Imports(g, z)|); }
  }

  lemma Discover(g: Graph, root: string, forbidden: seq<string>, parent: map<string, string>, paths: map<string,
        seq<string>>, queue: seq<string>, current: string, n: nat)
    requires n < |Imports(g, current)| && Scanning(g, root, forbidden, parent, paths, queue, current, n)
        && Imports(g, current)[n] !in parent
    ensures var y := Imports(g, current)[n];
            Scanning(g, root, forbidden, parent[y := current], paths[y := paths[current] + [y]], queue + [y], current,
                n + 1)
  {
    hide Forbidden, Tree, Frontier, Finished, Near, Nodes;
    var y := Imports(g, current)[n];
    TreeHasKeys(g, root, parent, paths);
    DiscoverTree(g, root, parent, paths, current, y);
    DiscoverFrontier(paths, queue, current, y);
    DiscoverFinished(g, paths, Elements(queue) + {current}, current, y);
    assert Elements(queue + [y]) == Elements(queue) + {y};
    assert Elements(queue) + {current} + {y} == Elements(queue + [y]) + {current};
  }

  /** The head of the queue is the first forbidden package met, and none is nearer. */
  lemma HeadIsShortest(g: Graph, root: string, forbidden: seq<string>, parent: map<string, string>, paths: map<string,
        seq<string>>, queue: seq<string>)
    requires Searching(g, root, forbidden, parent, paths, queue) && queue != [] && Forbidden(root, forbidden, queue[0])
    ensures queue[0] in paths && Shortest(g, root, forbidden, paths[queue[0]])
  {
    hide Forbidden, Near;
    var p := paths[queue[0]];
    forall q, y | IsPath(g, q, root, y) && Forbidden(root, forbidden, y) ensures |p| <= |q| {
      PathsAreCovered(g, root, paths, Elements(queue), q, y);
    }
  }

  /** An empty queue means every reachable package was looked at. */
  lemma NothingForbidden(g: Graph, root: string, forbidden: seq<string>, parent: map<string, string>,
        paths: map<string, seq<string>>, y: string)
    requires Searching(g, root, forbidden, parent, paths, []) && Reaches(g, root, y)
    ensures !Forbidden(root, forbidden, y)
  {
    hide Forbidden;
    var p :| IsPath(g, p, root, y);
    PathsAreCovered(g, root, paths, {}, p, y);
    assert Elements([]) == {};
  }

  /**
    nil exactly when no forbidden package other than the root is reachable; otherwise a shortest path to one, from
    the last of its packages before the end that is named by the empty string, or from the root when there is none.
   */
  method FirstForbiddenPath(g: Graph, root: string, forbidden: seq<string>) returns (path: seq<string>)
    ensures path == [] <==> forall y | Reaches(g, root, y) :: !Forbidden(root, forbidden, y)
    ensures path != [] ==> exists p, k :: Shortest(g, root, forbidden, p) && ReportedFrom(p, k, path)
  {
    hide Searching, Scanning, Forbidden, Tree, Climb, Reverse, Shortest, Nodes;
    var queue := [root];
    var parent := map[root := ""];
    ghost var paths := map[root := [root]];
    StartSearching(g, root, forbidden);
    while queue != []
      invariant Searching(g, root, forbidden, parent, paths, queue)
      decreases Nodes(g, root) - parent.Keys, |queue|
    {
      var current := queue[0];
      ghost var before := Nodes(g, root) - parent.Keys;
      if current != root && MatchesAny(current, forbidden) {
        assert Forbidden(root, forbidden, current) by { ForbiddenIs(root, forbidden, current); }
        HeadIsShortest(g, root, forbidden, parent, paths, queue);
        SearchingHasTree(g, root, forbidden, parent, paths, queue);
        path := BuildPath(g, root, parent, paths, current);
        ghost var k := ClimbReports(g, root, parent, paths, current);
        ReachedForbidden(g, root, forbidden, paths[current]);
        ReverseLength(Climb(g, root, parent, paths, current));
        return;
      }
      assert !Forbidden(root, forbidden, current) by { ForbiddenIs(root, forbidden, current); }
      StartScanning(g, root, forbidden, parent, paths, queue);
      SearchingHasTree(g, root, forbidden, parent, paths, queue);
      TreeHasKeys(g, root, parent, paths);
      queue := queue[1..];
      ghost var waiting := |queue|;
      var imports := Imports(g, current);
      for n := 0 to |imports|
        invariant current in paths && Scanning(g, root, forbidden, parent, paths, queue, current, n)
        invariant Nodes(g, root) - parent.Keys < before
            || (Nodes(g, root) - parent.Keys == before && |queue| == waiting)
      {
        var next := imports[n];
        if next in parent {
          SkipKnown(g, root, forbidden, parent, paths, queue, current, n);
          continue;
        }
        Discover(g, root, forbidden, parent, paths, queue, current, n);
        DiscoveredIsNode(g, root, current, next);
        ghost var unknown := Nodes(g, root) - parent.Keys;
        parent := parent[next := current];
        assert next in unknown && Nodes(g, root) - parent.Keys == unknown - {next};
        paths := paths[next := paths[current] + [next]];
        queue := queue + [next];
      }
      StopScanning(g, root, forbidden, parent, paths, queue, current);
    }
    forall y | Reaches(g, root, y) ensures !Forbidden(root, forbidden,
        y) { NothingForbidden(g, root, forbidden, parent, paths, y); }
    return [];
  }

  lemma ForbiddenIs(root: string, forbidden: seq<string>, x: string)
    ensures Forbidden(root, forbidden, x) <==> x != root && MatchesAny(x, forbidden)
  {
  }

  lemma SearchingHasTree(g: Graph, root: string, forbidden: seq<string>, parent: map<string, string>,
        paths: map<string, seq<string>>, queue: seq<string>)
    requires Searching(g, root, forbidden, parent, paths, queue) && queue != []
    ensures Tree(g, root, parent, paths) && queue[0] in parent
  {
  }

  lemma ReachedForbidden(g: Graph, root: string, forbidden: seq<string>, p: seq<string>)
    requires Shortest(g, root, forbidden, p)
    ensures p != [] && Reaches(g, root, p[|p| - 1]) && Forbidden(root, forbidden, p[|p| - 1])
  {
  }

  lemma ReverseLength<T>(s: seq<T>)
    ensures |Reverse(s)| == |s|
  {
  }

  lemma DiscoveredIsNode(g: Graph, root: string, x: string, y: string)
    requires y in Imports(g, x)
    ensures y in Nodes(g, root)
  {
    var k :| 0 <= k < |g[x]| && g[x][k] == y;
  }

  // ---------- reachable ----------

  /** Everything seen is reachable, and everything seen outside the queue has its imports seen and does not match. */
  ghost predicate Visiting(g: Graph, root: string, target: string, seen: set<string>, open: set<string>) {
    && root in seen && open <= seen && seen <= Nodes(g, root)
    && (forall x | x in seen :: Reaches(g, root, x))
    && (forall x | x in seen && x !in open :: !MatchesPrefix(x, target) && forall k | 0 <= k < |Imports(g, x)| ::
        Imports(g, x)[k] in seen)
  }

  lemma {:induction false} SeenIsClosed(g: Graph, root: string, target: string, seen: set<string>, p: seq<string>,
        x: string)
    requires Visiting(g, root, target, seen, {}) && IsPath(g, p, root, x)
    ensures x in seen
    decreases |p|
  {
    if |p| > 1 {
      var q := p[..|p| - 1];
      assert IsPath(g, q, root, q[|q| - 1]);
      SeenIsClosed(g, root, target, seen, q, q[|q| - 1]);
    }
  }

  lemma SeeImport(g: Graph, root: string, x: string, y: string)
    requires Reaches(g, root, x) && y in Imports(g, x)
    ensures Reaches(g, root, y) && y in Nodes(g, root)
  {
    var p :| IsPath(g, p, root, x);
    ExtendPath(g, p, root, x, y);
    DiscoveredIsNode(g, root, x, y);
  }

  /** Agrees with graph reachability, the root itself included. */
  method Reachable(g: Graph, root: string, target: string) returns (found: bool)
    ensures found <==> exists x :: Reaches(g, root, x) && MatchesPrefix(x, target)
  {
    hide IsPath, MatchesPrefix, Nodes, Reaches;
    var queue := [root];
    var seen := {root};
    RootIsReached(g, root);
    while queue != []
      invariant NoDuplicates(queue) && Visiting(g, root, target, seen, Elements(queue))
      decreases Nodes(g, root) - seen, |queue|
    {
      var current := queue[0];
      assert current in Elements(queue);
      queue := queue[1..];
      if MatchesPrefix(current, target) { return true; }
      assert Elements([current] + queue) == Elements(queue) + {current};
      ghost var before, waiting := Nodes(g, root) - seen, |queue|;
      var imports := Imports(g, current);
      for n := 0 to |imports|
        invariant NoDuplicates(queue) && current in seen && current !in queue
            && Visiting(g, root, target, seen, Elements(queue) + {current})
        invariant forall k | 0 <= k < n :: imports[k] in seen
        invariant Nodes(g, root) - seen < before || (Nodes(g, root) - seen == before && |queue| == waiting)
      {
        var next := imports[n];
        if next !in seen {
          SeeImport(g, root, current, next);
          ghost var unknown := Nodes(g, root) - seen;
          seen := seen + {next};
          assert Nodes(g, root) - seen == unknown - {next};
          assert Elements(queue + [next]) == Elements(queue) + {next};
          queue := queue + [next];
        }
      }
    }
    assert Elements([]) == {};
    forall x | Reaches(g, root, x) ensures !MatchesPrefix(x, target) { EverythingSeen(g, root, target, seen, x); }
    return false;
  }

  lemma RootIsReached(g: Graph, root: string)
    ensures Reaches(g, root, root) && root in Nodes(g, root)
  {
    assert IsPath(g, [root], root, root);
  }

  lemma EverythingSeen(g: Graph, root: string, target: string, seen: set<string>, x: string)
    requires Visiting(g, root, target, seen, {}) && Reaches(g, root, x)
    ensures !MatchesPrefix(x, target)
  {
    var p :| IsPath(g, p, root, x);
    SeenIsClosed(g, root, target, seen, p, x);
  }

  // ---------- uniqueSorted ----------

  /** A sorted sequence without its repetitions. */
  function Compact(s: seq<string>): seq<string> {
    if s == [] then []
    else
      var before := Compact(s[..|s| - 1]);
      if before != [] && before[|before| - 1] == s[|s| - 1] then before else before + [s[|s| - 1]]
  }

  lemma {:induction false} CompactIsSet(s: seq<string>)
    requires Sorted(StringLess, s)
    ensures Ascending(StringLess, Compact(s)) && (forall x :: x in Compact(s) <==> x in s)
    ensures s != [] ==> Compact(s) != [] && Compact(s)[|Compact(s)| - 1] == s[|s| - 1]
  {
    hide StringLess;
    if s != [] {
      var rest := s[..|s| - 1];
      var last := s[|s| - 1];
      CompactIsSet(rest);
      StringLessIsTotal();
      assert s == rest + [last];
      if rest != [] {
        assert rest[|rest| - 1] == s[|s| - 2];
        assert !StringLess(last, rest[|rest| - 1]);
        LastIsLargest(Compact(rest), last);
      }
    }
  }

  lemma LastIsLargest(s: seq<string>, last: string)
    requires Ascending(StringLess, s) && s != [] && StrictTotal(StringLess) && !StringLess(last, s[|s| - 1])
    ensures s[|s| - 1] != last ==> Ascending(StringLess, s + [last])
  {
    hide StringLess;
  }

  /** sort.Strings. */
  method SortStrings(a: array<string>)
    modifies a
    ensures a[..] == Sort(StringLess, old(a[..]))
  {
    hide StringLess, Sort;
    var sorted := Sort(StringLess, a[..]);
    SortPermutes(StringLess, a[..]);
    assert |multiset(sorted)| == |multiset(a[..])|;
    for i := 0 to a.Length
      invariant forall k | 0 <= k < i :: a[k] == sorted[k]
    {
      a[i] := sorted[i];
    }
  }

  /** A write index follows the read index through the same slice. */
  method CompactInPlace(a: array<string>) returns (n: nat)
    modifies a
    ensures n <= a.Length && a[..n] == Compact(old(a[..]))
  {
    ghost var given := a[..];
    n := 0;
    for r := 0 to a.Length
      invariant n <= r && a[..n] == Compact(given[..r])
      invariant forall k | r <= k < a.Length :: a[k] == given[k]
    {
      var value := a[r];
      assert given[..r + 1][..r] == given[..r];
      if n == 0 || a[n - 1] != value {
        a[n] := value;
        n := n + 1;
      }
    }
    assert given[..a.Length] == given;
  }

  lemma SortedSet(s: seq<string>)
    ensures Ascending(StringLess, Compact(Sort(StringLess, s))) && forall x ::
        x in Compact(Sort(StringLess, s)) <==> x in s
  {
    hide StringLess, Sort, Compact;
    SortPermutes(StringLess, s);
    StringLessIsTotal();
    SortSorts(StringLess, s);
    CompactIsSet(Sort(StringLess, s));
    forall x ensures x in Sort(StringLess, s)
        <==> x in s { assert x in multiset(Sort(StringLess, s)) <==> x in multiset(s); }
  }

  /** The sorted duplicate-free set of the given values, in the first `n` places of their own slice. */
  method UniqueSorted(a: array<string>) returns (n: nat)
    modifies a
    ensures n <= a.Length && Ascending(StringLess, a[..n])
    ensures forall x :: x in a[..n] <==> x in old(a[..])
  {
    hide StringLess, Sort, Compact, Ascending;
    ghost var given := a[..];
    SortStrings(a);
    n := CompactInPlace(a);
    SortedSet(given);
  }
}
