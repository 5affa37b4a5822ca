// Finite dependency graphs: paths, cycles, and the iterative three-colour
// depth-first search that decides whether a graph has a cycle.
module Graph {
  import opened Base

  // Every node with its dependency list; lists may repeat a dependency or name the node itself.
  type Graph = map<string, seq<string>>

  ghost predicate Closed(g: Graph) {
    forall x, d :: x in g && d in g[x] ==> d in g
  }

  ghost predicate Edge(g: Graph, x: string, y: string) {
    x in g && y in g[x]
  }

  ghost predicate Path(g: Graph, p: seq<string>) {
    |p| > 0 && forall i :: 0 <= i < |p| - 1 ==> Edge(g, p[i], p[i + 1])
  }

  ghost predicate Cycle(g: Graph, p: seq<string>) {
    Path(g, p) && |p| > 1 && p[0] == p[|p| - 1]
  }

  ghost predicate Acyclic(g: Graph) {
    forall p :: !Cycle(g, p)
  }

  // Reflexive and transitive reachability along dependencies.
  ghost predicate Reaches(g: Graph, x: string, y: string) {
    exists p :: Path(g, p) && p[0] == x && p[|p| - 1] == y
  }

  // Every dependency of an element stands strictly before it.
  ghost predicate Topological(g: Graph, order: seq<string>) {
    && (forall i, j :: 0 <= i < j < |order| ==> order[i] != order[j])
    && (forall i :: 0 <= i < |order| ==> order[i] in g)
    && (forall i, d :: 0 <= i < |order| && d in g[order[i]] ==> d in order[..i])
  }

  lemma JoinPaths(g: Graph, p: seq<string>, q: seq<string>)
    requires Path(g, p) && Path(g, q) && p[|p| - 1] == q[0]
    ensures Path(g, p + q[1..])
    ensures (p + q[1..])[0] == p[0]
    ensures (p + q[1..])[|p + q[1..]| - 1] == q[|q| - 1]
  {
    var r := p + q[1..];
    forall i | 0 <= i < |r| - 1 ensures Edge(g, r[i], r[i + 1]) {
      if i < |p| - 1 {
        assert Edge(g, p[i], p[i + 1]);
      } else {
        var k := i - (|p| - 1);
        assert Edge(g, q[k], q[k + 1]);
        assert r[i + 1] == q[k + 1];
        assert r[i] == q[k];
      }
    }
  }

  lemma ReachesTransitive(g: Graph, x: string, y: string, z: string)
    requires Reaches(g, x, y) && Reaches(g, y, z)
    ensures Reaches(g, x, z)
  {
    var p :| Path(g, p) && p[0] == x && p[|p| - 1] == y;
    var q :| Path(g, q) && q[0] == y && q[|q| - 1] == z;
    JoinPaths(g, p, q);
  }

  lemma ReachesSelf(g: Graph, x: string)
    ensures Reaches(g, x, x)
  {
    assert Path(g, [x]);
  }

  lemma ReachesByEdge(g: Graph, x: string, y: string)
    requires Edge(g, x, y)
    ensures Reaches(g, x, y)
  {
    assert Path(g, [x, y]);
  }

  // A path that can be closed by an edge back to its start is a cycle.
  lemma EdgeBackIsCycle(g: Graph, x: string, y: string)
    requires Reaches(g, x, y) && Edge(g, y, x)
    ensures !Acyclic(g)
  {
    var p :| Path(g, p) && p[0] == x && p[|p| - 1] == y;
    assert Path(g, [y, x]);
    JoinPaths(g, p, [y, x]);
    assert Cycle(g, p + [y, x][1..]);
  }

  // Along a path inside a topologically ordered set, positions strictly fall.
  lemma {:induction false} PathFalls(g: Graph, order: seq<string>, p: seq<string>, at: nat) returns (k: nat)
    requires Topological(g, order) && Path(g, p)
    requires at < |order| && order[at] == p[0]
    ensures k <= at && k < |order| && order[k] == p[|p| - 1]
    ensures |p| > 1 ==> k < at
    decreases |p|
  {
    if |p| == 1 {
      k := at;
    } else {
      assert Edge(g, p[0], p[1]);
      var next :| 0 <= next < at && order[next] == p[1];
      SuffixPath(g, p, 1);
      k := PathFalls(g, order, p[1..], next);
    }
  }

  // A complete topological order rules out every cycle.
  lemma TopologicalIsAcyclic(g: Graph, order: seq<string>)
    requires Topological(g, order)
    requires forall x :: x in g ==> x in order
    ensures Acyclic(g)
  {
    forall p ensures !Cycle(g, p) {
      if Cycle(g, p) {
        assert Edge(g, p[0], p[1]);
        var at :| 0 <= at < |order| && order[at] == p[0];
        var k := PathFalls(g, order, p, at);
      }
    }
  }

  lemma SuffixPath(g: Graph, p: seq<string>, k: nat)
    requires Path(g, p) && k < |p|
    ensures Path(g, p[k..])
    ensures Reaches(g, p[k], p[|p| - 1])
  {
    var q := p[k..];
    forall i | 0 <= i < |q| - 1 ensures Edge(g, q[i], q[i + 1]) {
      assert Edge(g, p[k + i], p[k + i + 1]);
    }
    assert Path(g, q) && q[0] == p[k] && q[|q| - 1] == p[|p| - 1];
  }

  ghost predicate DependsInto(g: Graph, x: string, s: set<string>) {
    exists d :: Edge(g, x, d) && d in s
  }

  // In a finite set where every member depends on some member, walking along those
  // dependencies must revisit a node.
  lemma {:induction false} WalkFindsCycle(g: Graph, s: set<string>, walk: seq<string>)
    requires Path(g, walk)
    requires forall x :: x in s ==> DependsInto(g, x, s)
    requires forall x :: x in walk ==> x in s
    requires forall i, j :: 0 <= i < j < |walk| ==> walk[i] != walk[j]
    ensures !Acyclic(g)
    decreases |s| - |walk|
  {
    DistinctFits(walk, s);
    var last := walk[|walk| - 1];
    assert DependsInto(g, last, s);
    var d :| Edge(g, last, d) && d in s;
    if d in walk {
      var i :| 0 <= i < |walk| && walk[i] == d;
      var loop := walk[i..];
      SuffixPath(g, walk, i);
      EdgeBackIsCycle(g, d, last);
    } else {
      var longer := walk + [d];
      forall i | 0 <= i < |longer| - 1 ensures Edge(g, longer[i], longer[i + 1]) {
        if i < |walk| - 1 {
          assert Edge(g, walk[i], walk[i + 1]);
        }
      }
      DistinctFits(longer, s);
      WalkFindsCycle(g, s, longer);
    }
  }

  // The well-founded argument used for scheduling: a nonempty set of nodes of an
  // acyclic graph has a member none of whose dependencies is in the set.
  lemma AcyclicHasBottom(g: Graph, s: set<string>) returns (x: string)
    requires Acyclic(g) && s != {}
    ensures x in s && !DependsInto(g, x, s)
  {
    if forall y :: y in s ==> DependsInto(g, y, s) {
      var y :| y in s;
      WalkFindsCycle(g, s, [y]);
      assert false;
    }
    x :| x in s && !DependsInto(g, x, s);
  }

  // A path that ends in x, cut at the first visit to x.
  lemma {:induction false} FirstVisit(g: Graph, p: seq<string>, x: string) returns (q: seq<string>)
    requires Path(g, p) && x in p
    ensures Path(g, q) && q[0] == p[0] && q[|q| - 1] == x
    ensures forall i :: 0 <= i < |q| - 1 ==> q[i] != x
    ensures q <= p
  {
    if p[0] == x {
      q := [x];
    } else {
      SuffixPath(g, p, 1);
      var tail := FirstVisit(g, p[1..], x);
      assert Edge(g, p[0], p[1]);
      assert Path(g, [p[0], p[1]]);
      JoinPaths(g, [p[0], p[1]], tail);
      q := [p[0]] + tail;
      assert q == [p[0], p[1]] + tail[1..];
    }
  }

  // A path none of whose steps leaves x is a path of g whatever x depends on.
  lemma PathAvoiding(g: Graph, h: Graph, x: string, p: seq<string>)
    requires Path(g, p)
    requires forall y :: y in g && y != x ==> y in h && h[y] == g[y]
    requires forall i :: 0 <= i < |p| - 1 ==> p[i] != x
    ensures Path(h, p)
  {
    forall i | 0 <= i < |p| - 1 ensures Edge(h, p[i], p[i + 1]) {
      assert Edge(g, p[i], p[i + 1]);
    }
  }

  // A cycle that visits x can be turned round to start there.
  lemma RotateCycle(g: Graph, c: seq<string>, x: string) returns (r: seq<string>)
    requires Cycle(g, c) && x in c
    ensures Cycle(g, r) && r[0] == x
  {
    var i :| 0 <= i < |c| && c[i] == x;
    if i == |c| - 1 {
      r := c;
    } else {
      var front, back := c[..i + 1], c[i..];
      forall k | 0 <= k < |front| - 1 ensures Edge(g, front[k], front[k + 1]) {
        assert Edge(g, c[k], c[k + 1]);
      }
      SuffixPath(g, c, i);
      JoinPaths(g, back, front);
      r := back + front[1..];
    }
  }

  // Replacing the dependencies of one node of an acyclic graph closes a cycle exactly
  // when one of the new dependencies already reaches (or is) that node.
  lemma RepointCycle(g: Graph, x: string, deps: seq<string>)
    requires Acyclic(g)
    ensures !Acyclic(g[x := deps]) <==> exists d :: d in deps && Reaches(g, d, x)
  {
    var h := g[x := deps];
    if exists d :: d in deps && Reaches(g, d, x) {
      var d :| d in deps && Reaches(g, d, x);
      var p :| Path(g, p) && p[0] == d && p[|p| - 1] == x;
      var q := FirstVisit(g, p, x);
      PathAvoiding(g, h, x, q);
      assert Edge(h, x, d);
      EdgeBackIsCycle(h, d, x);
    }
    if !Acyclic(h) {
      var c :| Cycle(h, c);
      if x !in c {
        PathAvoiding(h, g, x, c);
        assert Cycle(g, c);
      }
      var r := RotateCycle(h, c, x);
      SuffixPath(h, r, 1);
      assert r[1..][|r| - 2] == x;
      var q := FirstVisit(h, r[1..], x);
      PathAvoiding(h, g, x, q);
      assert Edge(h, r[0], r[1]);
      assert r[1] in deps && Reaches(g, r[1], x);
    }
  }

  // A node nothing depends on cannot lie on a cycle, whatever it depends on.
  lemma AppendKeepsAcyclic(g: Graph, n: string, deps: seq<string>)
    requires Acyclic(g) && Closed(g) && n !in g && n !in deps
    ensures Acyclic(g[n := deps])
  {
    RepointCycle(g, n, deps);
    forall d | d in deps ensures !Reaches(g, d, n) {
      StrangerUnreached(g, d, n);
    }
  }

  lemma StrangerUnreached(g: Graph, d: string, n: string)
    requires Closed(g) && n !in g && d != n
    ensures !Reaches(g, d, n)
  {
    forall p | Path(g, p) && p[0] == d ensures p[|p| - 1] != n {
      if |p| > 1 {
        assert Edge(g, p[|p| - 2], p[|p| - 1]);
      }
    }
  }

  // Inserting a new node in front of an existing one closes a cycle exactly when a
  // dependency of the new node already reaches (or is) the node it is put in front of.
  lemma InsertBeforeCycle(g: Graph, n: string, deps: seq<string>, t: string, tdeps: seq<string>)
    requires Acyclic(g) && Closed(g) && n !in g && t in g
    requires forall d :: d in deps ==> d in g
    requires forall d :: d in tdeps <==> d in g[t] || d == n
    ensures !Acyclic(g[n := deps][t := tdeps]) <==> exists d :: d in deps && Reaches(g, d, t)
  {
    var h := g[n := deps];
    AppendKeepsAcyclic(g, n, deps);
    RepointCycle(h, t, tdeps);
    forall d | d in g[t] ensures !Reaches(h, d, t) {
      if Reaches(h, d, t) {
        assert Edge(h, t, d);
        EdgeBackIsCycle(h, d, t);
      }
    }
    forall d | d in deps && Reaches(g, d, t) ensures Reaches(h, n, t) {
      var p :| Path(g, p) && p[0] == d && p[|p| - 1] == t;
      PathGrows(g, h, p);
      assert Edge(h, n, d);
      ReachesByEdge(h, n, d);
      ReachesTransitive(h, n, d, t);
    }
    if Reaches(h, n, t) {
      var p :| Path(h, p) && p[0] == n && p[|p| - 1] == t;
      assert Edge(h, p[0], p[1]);
      SuffixPath(h, p, 1);
      StaysInside(g, h, n, p[1..]);
      PathAvoiding(h, g, n, p[1..]);
      assert p[1] in deps && Reaches(g, p[1], t);
    }
  }

  lemma PathGrows(g: Graph, h: Graph, p: seq<string>)
    requires Path(g, p)
    requires forall y :: y in g ==> y in h && h[y] == g[y]
    ensures Path(h, p)
  {
    forall i | 0 <= i < |p| - 1 ensures Edge(h, p[i], p[i + 1]) {
      assert Edge(g, p[i], p[i + 1]);
    }
  }

  // A path that starts in a closed part of the graph never leaves it.
  lemma {:induction false} StaysInside(g: Graph, h: Graph, n: string, p: seq<string>)
    requires Closed(g) && n !in g
    requires h.Keys == g.Keys + {n} && forall y :: y in g ==> h[y] == g[y]
    requires Path(h, p) && p[0] in g
    ensures forall i :: 0 <= i < |p| ==> p[i] in g
  {
    if |p| > 1 {
      var init := p[..|p| - 1];
      forall i | 0 <= i < |init| - 1 ensures Edge(h, init[i], init[i + 1]) {
        assert Edge(h, p[i], p[i + 1]);
      }
      StaysInside(g, h, n, init);
      assert Edge(h, p[|p| - 2], p[|p| - 1]);
      assert p[|p| - 2] == init[|p| - 2];
    }
  }

  // One entry of the explicit stack: a node and what is left of its dependency iterator.
  datatype Frame = Frame(id: string, left: seq<string>)

  ghost predicate OnStack(stack: seq<Frame>, x: string) {
    exists i :: 0 <= i < |stack| && stack[i].id == x
  }

  // A stack entry names a node, what is left to try are its own dependencies, and every
  // dependency already taken is finished or is the next entry of the stack.
  ghost predicate FrameOk(g: Graph, stack: seq<Frame>, visited: set<string>, i: nat)
    requires i < |stack|
  {
    && stack[i].id in g
    && (forall d :: d in stack[i].left ==> d in g[stack[i].id])
    && (forall d :: d in g[stack[i].id] ==>
         d in stack[i].left || d in visited || (i + 1 < |stack| && d == stack[i + 1].id))
    && (i + 1 < |stack| ==> Edge(g, stack[i].id, stack[i + 1].id))
  }

  // The state of the search: the stack spells out a path of distinct grey nodes, and the
  // black nodes, in finishing order, form a topological order.
  ghost predicate SearchState(g: Graph, stack: seq<Frame>, visiting: set<string>, visited: set<string>, done: seq<string>) {
    && Topological(g, done)
    && (forall x :: x in visited <==> x in done)
    && (forall x :: x in visiting ==> OnStack(stack, x))
    && (forall i :: 0 <= i < |stack| ==> stack[i].id in visiting)
    && (forall i, j :: 0 <= i < j < |stack| ==> stack[i].id != stack[j].id)
    && visiting !! visited
    && (forall i :: 0 <= i < |stack| ==> FrameOk(g, stack, visited, i))
  }

  lemma {:induction false} StackReaches(g: Graph, stack: seq<Frame>, visited: set<string>, k: nat)
    requires k < |stack|
    requires forall i :: 0 <= i < |stack| ==> FrameOk(g, stack, visited, i)
    ensures Reaches(g, stack[k].id, stack[|stack| - 1].id)
    decreases |stack| - k
  {
    if k == |stack| - 1 {
      ReachesSelf(g, stack[k].id);
    } else {
      StackReaches(g, stack, visited, k + 1);
      assert FrameOk(g, stack, visited, k);
      ReachesByEdge(g, stack[k].id, stack[k + 1].id);
      ReachesTransitive(g, stack[k].id, stack[k + 1].id, stack[|stack| - 1].id);
    }
  }

  // The iterator of the top node is exhausted: the node turns black.
  lemma PopKeepsState(g: Graph, stack: seq<Frame>, visiting: set<string>, visited: set<string>, done: seq<string>)
    requires SearchState(g, stack, visiting, visited, done)
    requires stack != [] && stack[|stack| - 1].left == []
    ensures var id := stack[|stack| - 1].id;
            SearchState(g, stack[..|stack| - 1], visiting - {id}, visited + {id}, done + [id])
  {
    var n := |stack| - 1;
    var id := stack[n].id;
    var rest := stack[..n];
    assert FrameOk(g, stack, visited, n);
    forall x | x in visiting - {id} ensures OnStack(rest, x) {
      assert OnStack(stack, x);
      var i :| 0 <= i < |stack| && stack[i].id == x;
      assert rest[i].id == x;
    }
    forall i | 0 <= i < n ensures FrameOk(g, rest, visited + {id}, i) {
      assert FrameOk(g, stack, visited, i);
    }
    BlackenTop(g, done, id);
  }

  lemma BlackenTop(g: Graph, done: seq<string>, id: string)
    requires Topological(g, done) && id in g && id !in done
    requires forall d :: d in g[id] ==> d in done
    ensures Topological(g, done + [id])
  {
    var next := done + [id];
    forall i, d | 0 <= i < |next| && d in g[next[i]] ensures d in next[..i] {
      assert next[..i] == done[..i];
    }
  }

  // The top iterator yields a black dependency: nothing to descend into.
  lemma SkipKeepsState(g: Graph, stack: seq<Frame>, visiting: set<string>, visited: set<string>, done: seq<string>)
    requires SearchState(g, stack, visiting, visited, done)
    requires stack != [] && stack[|stack| - 1].left != [] && stack[|stack| - 1].left[0] in visited
    ensures var top := stack[|stack| - 1];
            SearchState(g, stack[|stack| - 1 := Frame(top.id, top.left[1..])], visiting, visited, done)
  {
    var n := |stack| - 1;
    var top := stack[n];
    var next := stack[n := Frame(top.id, top.left[1..])];
    assert top.left == [top.left[0]] + top.left[1..];
    forall x | x in visiting ensures OnStack(next, x) {
      assert OnStack(stack, x);
      var i :| 0 <= i < |stack| && stack[i].id == x;
      assert next[i].id == x;
    }
    forall i | 0 <= i < |next| ensures FrameOk(g, next, visited, i) {
      assert FrameOk(g, stack, visited, i);
    }
  }

  // The top iterator yields a white dependency: it turns grey and is pushed.
  lemma PushKeepsState(g: Graph, stack: seq<Frame>, visiting: set<string>, visited: set<string>, done: seq<string>)
    requires Closed(g) && SearchState(g, stack, visiting, visited, done)
    requires stack != [] && stack[|stack| - 1].left != []
    requires stack[|stack| - 1].left[0] !in visiting + visited
    ensures var top := stack[|stack| - 1];
            var d := top.left[0];
            d in g && SearchState(g, stack[|stack| - 1 := Frame(top.id, top.left[1..])] + [Frame(d, g[d])],
                                  visiting + {d}, visited, done)
  {
    var n := |stack| - 1;
    var top := stack[n];
    var d := top.left[0];
    assert FrameOk(g, stack, visited, n);
    var next := stack[n := Frame(top.id, top.left[1..])] + [Frame(d, g[d])];
    assert top.left == [d] + top.left[1..];
    assert next[n + 1].id == d;
    forall x | x in visiting + {d} ensures OnStack(next, x) {
      if x in visiting {
        assert OnStack(stack, x);
        var i :| 0 <= i < |stack| && stack[i].id == x;
        assert next[i].id == x;
      }
    }
    forall i | 0 <= i < |next| ensures FrameOk(g, next, visited, i) {
      if i <= n {
        assert FrameOk(g, stack, visited, i);
      }
    }
    forall i, j | 0 <= i < j < |next| ensures next[i].id != next[j].id {
      assert next[i].id == stack[i].id;
    }
  }

  // The top iterator yields a grey dependency: it lies on a cycle.
  lemma GreyIsCycle(g: Graph, stack: seq<Frame>, visiting: set<string>, visited: set<string>, done: seq<string>)
    requires SearchState(g, stack, visiting, visited, done)
    requires stack != [] && stack[|stack| - 1].left != [] && stack[|stack| - 1].left[0] in visiting
    ensures exists p :: Cycle(g, p) && p[0] == stack[|stack| - 1].left[0]
  {
    var top := stack[|stack| - 1];
    var d := top.left[0];
    assert OnStack(stack, d);
    var k :| 0 <= k < |stack| && stack[k].id == d;
    StackReaches(g, stack, visited, k);
    assert FrameOk(g, stack, visited, |stack| - 1);
    var p :| Path(g, p) && p[0] == d && p[|p| - 1] == top.id;
    assert Path(g, [top.id, d]);
    JoinPaths(g, p, [top.id, d]);
    assert Cycle(g, p + [top.id, d][1..]);
  }

  // `_validate_acyclic`: returns a node on a cycle when there is one.
  method FindCycle(g: Graph, roots: seq<string>) returns (found: Option<string>)
    requires Closed(g)
    requires forall x :: x in roots <==> x in g
    ensures found.None? <==> Acyclic(g)
    ensures found.Some? ==> exists p :: Cycle(g, p) && p[0] == found.value
  {
    var visited: set<string> := {};
    ghost var done: seq<string> := [];
    for r := 0 to |roots|
      invariant SearchState(g, [], {}, visited, done)
      invariant forall i :: 0 <= i < r ==> roots[i] in visited
    {
      if roots[r] in visited {
        continue;
      }
      found, visited, done := SearchFrom(g, roots[r], visited, done);
      if found.Some? {
        return;
      }
    }
    TopologicalIsAcyclic(g, done);
    return None;
  }

  // The inner loop of `_validate_acyclic`: everything reachable from one root.
  method SearchFrom(g: Graph, root: string, black: set<string>, ghost order: seq<string>)
    returns (found: Option<string>, visited: set<string>, ghost done: seq<string>)
    requires Closed(g) && root in g && root !in black
    requires SearchState(g, [], {}, black, order)
    ensures found.Some? ==> exists p :: Cycle(g, p) && p[0] == found.value
    ensures found.None? ==> SearchState(g, [], {}, visited, done)
    ensures found.None? ==> black <= visited && root in visited
  {
    visited, done := black, order;
    var visiting := {root};
    var stack := [Frame(root, g[root])];
    assert stack[0].id == root;
    while stack != []
      invariant SearchState(g, stack, visiting, visited, done)
      invariant black <= visited && root in visiting + visited
      decreases g.Keys - visiting - visited, |stack|, if stack == [] then 0 else |stack[|stack| - 1].left|
    {
      var top := stack[|stack| - 1];
      if top.left == [] {
        PopKeepsState(g, stack, visiting, visited, done);
        assert g.Keys - (visiting - {top.id}) - (visited + {top.id}) == g.Keys - visiting - visited;
        stack := stack[..|stack| - 1];
        visiting := visiting - {top.id};
        visited := visited + {top.id};
        done := done + [top.id];
        continue;
      }
      var dependency := top.left[0];
      if dependency in visiting {
        GreyIsCycle(g, stack, visiting, visited, done);
        return Some(dependency), visited, done;
      }
      if dependency !in visited {
        PushKeepsState(g, stack, visiting, visited, done);
        assert dependency in g.Keys - visiting - visited;
        visiting := visiting + {dependency};
        stack := stack[|stack| - 1 := Frame(top.id, top.left[1..])] + [Frame(dependency, g[dependency])];
      } else {
        SkipKeepsState(g, stack, visiting, visited, done);
        stack := stack[|stack| - 1 := Frame(top.id, top.left[1..])];
      }
    }
    return None, visited, done;
  }
}
