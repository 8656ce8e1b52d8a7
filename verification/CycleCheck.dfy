/** The two depth-first cycle checks: parameter dependencies inside one
    transition, where an unknown name is skipped, and extension dependencies,
    where it is an error. */
module CycleCheck {
  import opened Base

  type Graph = map<string, seq<string>>

  datatype Outcome = Clean | Cycle(node: string) | Unavailable(node: string, dependency: string)

  ghost predicate Edge(g: Graph, a: string, b: string) {
    a in g && b in g && b in g[a]
  }

  ghost predicate IsWalk(g: Graph, p: seq<string>) {
    |p| > 0 && forall i :: 0 <= i < |p| - 1 ==> Edge(g, p[i], p[i + 1])
  }

  ghost predicate ClosedWalk(g: Graph, p: seq<string>, n: string) {
    IsWalk(g, p) && |p| >= 2 && p[0] == n && p[|p| - 1] == n
  }

  ghost predicate OnCycle(g: Graph, n: string) {
    exists p :: ClosedWalk(g, p, n)
  }

  ghost predicate Acyclic(g: Graph) {
    forall n :: !OnCycle(g, n)
  }

  ghost predicate AllKnown(g: Graph) {
    forall n, d :: n in g && d in g[n] ==> d in g
  }

  /** Every edge out of an entry leads to an earlier entry. */
  ghost predicate Topological(g: Graph, order: seq<string>) {
    forall i, d :: 0 <= i < |order| && Edge(g, order[i], d) ==> d in order[..i]
  }

  lemma {:induction false} WalkDescends(g: Graph, order: seq<string>, p: seq<string>, i: nat) returns (j: nat)
    requires Topological(g, order) && IsWalk(g, p) && |p| >= 2
    requires i < |order| && order[i] == p[0]
    ensures j < i && order[j] == p[|p| - 1]
    decreases |p|
  {
    assert Edge(g, p[0], p[0 + 1]);
    var k :| 0 <= k < i && order[k] == p[1];
    if |p| == 2 {
      j := k;
    } else {
      var rest := p[1..];
      forall m | 0 <= m < |rest| - 1 ensures Edge(g, rest[m], rest[m + 1]) {
        assert Edge(g, p[m + 1], p[m + 1 + 1]);
      }
      j := WalkDescends(g, order, rest, k);
    }
  }

  /** A finish order of all nodes leaves no cycle. */
  lemma TopologicalAcyclic(g: Graph, order: seq<string>)
    requires Topological(g, order) && Distinct(order)
    requires forall n :: n in g ==> n in order
    ensures Acyclic(g)
  {
    forall n | OnCycle(g, n) ensures false {
      var p :| ClosedWalk(g, p, n);
      assert Edge(g, p[0], p[0 + 1]);
      var i :| 0 <= i < |order| && order[i] == n;
      var j := WalkDescends(g, order, p, i);
    }
  }

  class CycleFinder {
    const graph: Graph
    const strict: bool
    var visiting: set<string>
    var visited: set<string>
    /** The visited nodes in the order their visits ended. */
    ghost var finished: seq<string>

    constructor (graph: Graph, strict: bool)
      ensures this.graph == graph && this.strict == strict
      ensures visiting == {} && Inv()
    {
      this.graph, this.strict := graph, strict;
      visiting, visited, finished := {}, {}, [];
    }

    ghost predicate Inv()
      reads this
    {
      && visited == (set n | n in finished)
      && Distinct(finished) && Topological(graph, finished)
      && visiting !! visited && visiting <= graph.Keys && visited <= graph.Keys
      && (strict ==> forall n, d :: n in visited && d in graph[n] ==> d in graph)
    }

    /** The open calls, outermost first, form a walk that ends at `node`. */
    ghost predicate OpenCalls(stack: seq<string>, node: string)
      reads this
    {
      && visiting == (set n | n in stack)
      && IsWalk(graph, stack + [node])
    }

    method Visit(node: string, ghost stack: seq<string>) returns (r: Outcome)
      requires Inv() && node in graph && OpenCalls(stack, node)
      modifies this
      ensures r.Clean? ==> Inv() && visiting == old(visiting) && old(visited) + {node} <= visited
      ensures r.Cycle? ==> OnCycle(graph, r.node)
      ensures r.Unavailable? ==> strict && r.node in graph && r.dependency in graph[r.node] && r.dependency !in graph
      decreases graph.Keys - visiting
    {
      if node in visiting {
        ghost var k :| 0 <= k < |stack| && stack[k] == node;
        ghost var open := stack + [node];
        ghost var walk := open[k..];
        forall i | 0 <= i < |walk| - 1 ensures Edge(graph, walk[i], walk[i + 1]) {
          assert Edge(graph, open[k + i], open[k + i + 1]);
        }
        assert ClosedWalk(graph, walk, node);
        return Cycle(node);
      }
      if node in visited { return Clean; }
      visiting := visiting + {node};
      ghost var inner := stack + [node];
      var dependencies := graph[node];
      var i := 0;
      while i < |dependencies|
        invariant 0 <= i <= |dependencies|
        invariant Inv() && visiting == old(visiting) + {node} && old(visited) <= visited
        invariant visiting == set n | n in inner
        invariant forall k :: 0 <= k < i && dependencies[k] in graph ==> dependencies[k] in visited
        invariant strict ==> forall k :: 0 <= k < i ==> dependencies[k] in graph
      {
        var dependency := dependencies[i];
        if dependency in graph {
          assert Edge(graph, node, dependency);
          ExtendWalk(graph, inner, dependency);
          r := Visit(dependency, inner);
          if !r.Clean? { return; }
        } else if strict {
          return Unavailable(node, dependency);
        }
        i := i + 1;
      }
      Finish(node);
      r := Clean;
    }

    /** Closes a visit whose local dependencies are all visited. */
    method Finish(node: string)
      requires Inv() && node in visiting
      requires forall d :: d in graph[node] && d in graph ==> d in visited
      requires strict ==> forall d :: d in graph[node] ==> d in graph
      modifies this
      ensures Inv() && visiting == old(visiting) - {node} && visited == old(visited) + {node}
    {
      visiting, visited := visiting - {node}, visited + {node};
      ghost var before := finished;
      finished := finished + [node];
      assert forall n :: n in finished <==> n in before || n == node;
      forall i, d | 0 <= i < |finished| && Edge(graph, finished[i], d) ensures d in finished[..i] {
        if i < |before| {
          assert before[i] == finished[i] && before[..i] == finished[..i];
        } else {
          assert finished[..i] == before;
        }
      }
    }

    /** Visits every node, in an order the program does not fix. */
    method Run() returns (r: Outcome)
      requires Inv() && visiting == {}
      modifies this
      ensures r.Clean? ==> Acyclic(graph) && (strict ==> AllKnown(graph))
      ensures r.Cycle? ==> OnCycle(graph, r.node)
      ensures r.Unavailable? ==> strict && r.node in graph && r.dependency in graph[r.node] && r.dependency !in graph
    {
      var remaining := graph.Keys;
      while remaining != {}
        invariant Inv() && visiting == {} && remaining <= graph.Keys
        invariant graph.Keys - remaining <= visited
      {
        var node :| node in remaining;
        r := Visit(node, []);
        if !r.Clean? { return; }
        remaining := remaining - {node};
      }
      assert graph.Keys - remaining == graph.Keys;
      assert forall n :: n in graph ==> n in graph.Keys - remaining;
      TopologicalAcyclic(graph, finished);
      r := Clean;
    }
  }

  lemma ExtendWalk(g: Graph, p: seq<string>, d: string)
    requires IsWalk(g, p) && Edge(g, p[|p| - 1], d)
    ensures IsWalk(g, p + [d])
  {
    var q := p + [d];
    forall i | 0 <= i < |q| - 1 ensures Edge(g, q[i], q[i + 1]) {
      if i < |p| - 1 { assert Edge(g, p[i], p[i + 1]); }
    }
  }

  /** The empty string means no cycle; parameter names are never empty. */
  method ParameterDependencyCycle(graph: Graph) returns (node: string)
    ensures "" !in graph ==> (node == "" <==> Acyclic(graph))
    ensures node != "" ==> OnCycle(graph, node)
  {
    var finder := new CycleFinder(graph, false);
    var r := finder.Run();
    if r.Cycle? {
      if "" !in graph {
        ghost var p :| ClosedWalk(graph, p, r.node);
        assert Edge(graph, p[0], p[0 + 1]);
      }
      return r.node;
    }
    return "";
  }

  /** Accepts exactly the acyclic graphs whose every dependency is known. */
  method ValidateDependencies(graph: Graph) returns (r: Outcome)
    ensures r.Clean? <==> Acyclic(graph) && AllKnown(graph)
    ensures r.Cycle? ==> OnCycle(graph, r.node)
    ensures r.Unavailable? ==> r.node in graph && r.dependency in graph[r.node] && r.dependency !in graph
  {
    var finder := new CycleFinder(graph, true);
    r := finder.Run();
  }
}
