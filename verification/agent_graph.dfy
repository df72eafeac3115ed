/**
 * Cycle detection over the agent-reference graph (`_has_cycle` inside
 * `ProjectConfig.validate_project`, ezagent/config.py:62-81).
 *
 * The graph maps each agent to its configured tool names; an edge runs to
 * every tool name that is itself an agent. The depth-first search is the
 * source's, with the `visited` set threaded through as a value: when a
 * search returns false the `stack` is back to what it was, so only
 * `visited` needs returning. The source walks a Python set of agent names,
 * whose iteration order is unspecified, so the order is a parameter.
 */
module AgentGraph {
  import opened Wrappers

  type Graph = map<string, seq<string>>

  function Elems(p: seq<string>): set<string> {
    set x | x in p
  }

  /** `p[k] -> p[k + 1]` is an edge of `g`. */
  predicate Linked(g: Graph, p: seq<string>, k: int) {
    0 <= k < |p| - 1 && p[k] in g && p[k + 1] in g && p[k + 1] in g[p[k]]
  }

  predicate IsPath(g: Graph, p: seq<string>) {
    (forall k :: 0 <= k < |p| ==> p[k] in g) &&
    (forall k :: 0 <= k < |p| - 1 ==> Linked(g, p, k))
  }

  /** A closed walk of at least one edge. */
  predicate IsCycle(g: Graph, p: seq<string>) {
    |p| >= 2 && p[0] == p[|p| - 1] && IsPath(g, p)
  }

  ghost predicate HasCycle(g: Graph) {
    exists p :: IsCycle(g, p)
  }

  // ----- the search -----

  /** `_has_cycle(u, visited, stack)`: marks `u`, then scans its tools. */
  function Visit(g: Graph, u: string, visited: set<string>, stack: set<string>): (r: (bool, set<string>))
    requires u in g && u !in visited
    requires stack <= visited <= g.Keys
    ensures visited + {u} <= r.1 <= g.Keys
    decreases |g.Keys - visited|, 0
  {
    assert g.Keys - (visited + {u}) < g.Keys - visited by {
      assert u in g.Keys - visited;
    }
    VisitTools(g, u, g[u], 0, visited + {u}, stack + {u})
  }

  /** The `for tool in ...` loop of `_has_cycle`, from position `i`. */
  function VisitTools(g: Graph, u: string, tools: seq<string>, i: nat, visited: set<string>, stack: set<string>): (r: (bool, set<string>))
    requires i <= |tools|
    requires stack <= visited <= g.Keys
    ensures visited <= r.1 <= g.Keys
    decreases |g.Keys - visited|, 1, |tools| - i
  {
    if i == |tools| then (false, visited)
    else
      var v := tools[i];
      if v !in g then VisitTools(g, u, tools, i + 1, visited, stack)
      else if v in stack then (true, visited)
      else if v !in visited then
        var r := Visit(g, v, visited, stack);
        if r.0 then r
        else
          assert g.Keys - r.1 <= g.Keys - visited;
          CardSubset(g.Keys - r.1, g.Keys - visited);
          VisitTools(g, u, tools, i + 1, r.1, stack)
      else VisitTools(g, u, tools, i + 1, visited, stack)
  }

  lemma CardSubset<T>(a: set<T>, b: set<T>)
    requires a <= b
    ensures |a| <= |b|
  {
    if a != {} {
      var x :| x in a;
      CardSubset(a - {x}, b - {x});
    }
  }

  /** The outer loop: searches from every not yet visited agent, in `order`; yields the root that hit a cycle. */
  function FindCycleRoot(g: Graph, order: seq<string>, i: nat, visited: set<string>): (r: Option<string>)
    requires i <= |order|
    requires Elems(order) <= g.Keys && visited <= g.Keys
    ensures r.Some? ==> r.value in order
    decreases |order| - i
  {
    if i == |order| then None
    else if order[i] in visited then FindCycleRoot(g, order, i + 1, visited)
    else
      var r := Visit(g, order[i], visited, {});
      if r.0 then Some(order[i]) else FindCycleRoot(g, order, i + 1, r.1)
  }

  // ----- soundness: a reported cycle exists -----

  lemma PathSnoc(g: Graph, p: seq<string>, u: string)
    requires IsPath(g, p) && u in g
    requires p == [] || u in g[p[|p| - 1]]
    ensures IsPath(g, p + [u])
  {
    var q := p + [u];
    forall k | 0 <= k < |q| - 1 ensures Linked(g, q, k) {
      if k < |p| - 1 {
        assert Linked(g, p, k);
        assert q[k] == p[k] && q[k + 1] == p[k + 1];
      }
    }
  }

  /** The stack as a path: `p` lists the stack in push order and ends at the node being scanned. */
  lemma {:induction false} VisitSound(g: Graph, u: string, visited: set<string>, stack: set<string>, p: seq<string>)
    requires u in g && u !in visited && stack <= visited <= g.Keys
    requires IsPath(g, p) && Elems(p) == stack
    requires p == [] || u in g[p[|p| - 1]]
    requires Visit(g, u, visited, stack).0
    ensures HasCycle(g)
    decreases |g.Keys - visited|, 0
  {
    var q := p + [u];
    PathSnoc(g, p, u);
    assert Elems(q) == stack + {u};
    assert g.Keys - (visited + {u}) < g.Keys - visited by {
      assert u in g.Keys - visited;
    }
    VisitToolsSound(g, u, g[u], 0, visited + {u}, stack + {u}, q);
  }

  lemma {:induction false} VisitToolsSound(g: Graph, u: string, tools: seq<string>, i: nat, visited: set<string>, stack: set<string>, p: seq<string>)
    requires i <= |tools| && stack <= visited <= g.Keys
    requires u in g && tools == g[u]
    requires IsPath(g, p) && |p| > 0 && p[|p| - 1] == u && Elems(p) == stack
    requires VisitTools(g, u, tools, i, visited, stack).0
    ensures HasCycle(g)
    decreases |g.Keys - visited|, 1, |tools| - i
  {
    var v := tools[i];
    if v !in g {
      VisitToolsSound(g, u, tools, i + 1, visited, stack, p);
    } else if v in stack {
      var j :| 0 <= j < |p| && p[j] == v;
      var c := p[j..] + [v];
      assert IsCycle(g, c) by {
        forall k | 0 <= k < |c| ensures c[k] in g {
          if k < |c| - 1 { assert c[k] == p[j + k]; }
        }
        forall k | 0 <= k < |c| - 1 ensures Linked(g, c, k) {
          if k < |c| - 2 {
            assert Linked(g, p, j + k);
            assert c[k] == p[j + k] && c[k + 1] == p[j + k + 1];
          } else {
            assert c[k] == u;
          }
        }
      }
    } else if v !in visited {
      var r := Visit(g, v, visited, stack);
      if r.0 {
        VisitSound(g, v, visited, stack, p);
      } else {
        CardSubset(g.Keys - r.1, g.Keys - visited);
        VisitToolsSound(g, u, tools, i + 1, r.1, stack, p);
      }
    } else {
      VisitToolsSound(g, u, tools, i + 1, visited, stack, p);
    }
  }

  lemma FindCycleRootSound(g: Graph, order: seq<string>, i: nat, visited: set<string>)
    requires i <= |order| && Elems(order) <= g.Keys && visited <= g.Keys
    requires FindCycleRoot(g, order, i, visited).Some?
    ensures HasCycle(g)
    decreases |order| - i
  {
    if order[i] in visited {
      FindCycleRootSound(g, order, i + 1, visited);
    } else {
      assert order[i] in Elems(order);
      var r := Visit(g, order[i], visited, {});
      if r.0 {
        VisitSound(g, order[i], visited, {}, []);
      } else {
        FindCycleRootSound(g, order, i + 1, r.1);
      }
    }
  }

  // ----- completeness: a finished search rules out cycles -----

  /**
   * `fin` lists finished nodes in finishing order; every successor of a
   * finished node finished earlier.
   */
  predicate Ranked(g: Graph, fin: seq<string>) {
    forall i, v :: 0 <= i < |fin| && fin[i] in g && v in g[fin[i]] && v in g ==> v in fin[..i]
  }

  lemma RankedSnoc(g: Graph, fin: seq<string>, u: string)
    requires Ranked(g, fin)
    requires u in g ==> forall v :: v in g[u] && v in g ==> v in fin
    ensures Ranked(g, fin + [u])
  {
    var f := fin + [u];
    forall i, v | 0 <= i < |f| && f[i] in g && v in g[f[i]] && v in g ensures v in f[..i] {
      if i < |fin| {
        assert f[i] == fin[i] && f[..i] == fin[..i];
      } else {
        assert f[..i] == fin;
      }
    }
  }

  lemma {:induction false} VisitComplete(g: Graph, u: string, visited: set<string>, stack: set<string>, fin: seq<string>) returns (fin': seq<string>)
    requires u in g && u !in visited && stack <= visited <= g.Keys
    requires Ranked(g, fin) && Elems(fin) == visited - stack
    requires !Visit(g, u, visited, stack).0
    ensures Ranked(g, fin') && Elems(fin') == Visit(g, u, visited, stack).1 - stack
    decreases |g.Keys - visited|, 0
  {
    assert g.Keys - (visited + {u}) < g.Keys - visited by {
      assert u in g.Keys - visited;
    }
    assert Visit(g, u, visited, stack) == VisitTools(g, u, g[u], 0, visited + {u}, stack + {u});
    var f2 := VisitToolsComplete(g, u, g[u], 0, visited + {u}, stack + {u}, fin);
    fin' := FinishNode(g, u, f2);
  }

  /** Appending a node once all its successors have finished keeps the ranking. */
  lemma FinishNode(g: Graph, u: string, fin: seq<string>) returns (fin': seq<string>)
    requires u in g && Ranked(g, fin)
    requires forall v :: v in g[u] && v in g ==> v in Elems(fin)
    ensures fin' == fin + [u] && Ranked(g, fin') && Elems(fin') == Elems(fin) + {u}
  {
    forall v | v in g[u] && v in g ensures v in fin {
      assert v in Elems(fin);
    }
    RankedSnoc(g, fin, u);
    fin' := fin + [u];
    assert Elems(fin') == Elems(fin) + {u};
  }

  lemma {:induction false} VisitToolsComplete(g: Graph, u: string, tools: seq<string>, i: nat, visited: set<string>, stack: set<string>, fin: seq<string>) returns (fin': seq<string>)
    requires i <= |tools| && stack <= visited <= g.Keys
    requires u in stack
    requires Ranked(g, fin) && Elems(fin) == visited - stack
    requires forall k :: 0 <= k < i && tools[k] in g ==> tools[k] in Elems(fin)
    requires !VisitTools(g, u, tools, i, visited, stack).0
    ensures Ranked(g, fin') && Elems(fin') == VisitTools(g, u, tools, i, visited, stack).1 - stack
    ensures forall v :: v in tools && v in g ==> v in Elems(fin')
    decreases |g.Keys - visited|, 1, |tools| - i
  {
    if i == |tools| {
      fin' := fin;
      forall v | v in tools && v in g ensures v in Elems(fin') {
        var k :| 0 <= k < |tools| && tools[k] == v;
      }
    } else {
      var v := tools[i];
      if v !in g {
        fin' := VisitToolsComplete(g, u, tools, i + 1, visited, stack, fin);
      } else if v !in visited {
        var r := Visit(g, v, visited, stack);
        var f2 := VisitComplete(g, v, visited, stack, fin);
        CardSubset(g.Keys - r.1, g.Keys - visited);
        fin' := VisitToolsComplete(g, u, tools, i + 1, r.1, stack, f2);
      } else {
        fin' := VisitToolsComplete(g, u, tools, i + 1, visited, stack, fin);
      }
    }
  }

  lemma {:induction false} FindCycleRootComplete(g: Graph, order: seq<string>, i: nat, visited: set<string>, fin: seq<string>)
    requires i <= |order| && Elems(order) == g.Keys && visited <= g.Keys
    requires Ranked(g, fin) && Elems(fin) == visited
    requires forall k :: 0 <= k < i ==> order[k] in visited
    requires FindCycleRoot(g, order, i, visited).None?
    ensures !HasCycle(g)
    decreases |order| - i
  {
    if i == |order| {
      CoveredAcyclic(g, order, fin);
    } else if order[i] in visited {
      FindCycleRootComplete(g, order, i + 1, visited, fin);
    } else {
      assert order[i] in Elems(order);
      var r := Visit(g, order[i], visited, {});
      assert !r.0 && FindCycleRoot(g, order, i + 1, r.1).None?;
      var f2 := VisitComplete(g, order[i], visited, {}, fin);
      assert forall k :: 0 <= k < i + 1 ==> order[k] in r.1;
      FindCycleRootComplete(g, order, i + 1, r.1, f2);
    }
  }

  /** Once every root of the search order has finished, the ranking covers the graph. */
  lemma CoveredAcyclic(g: Graph, order: seq<string>, fin: seq<string>)
    requires Elems(order) == g.Keys && Ranked(g, fin)
    requires forall k :: 0 <= k < |order| ==> order[k] in Elems(fin)
    ensures !HasCycle(g)
  {
    forall x | x in g ensures x in Elems(fin) {
      assert x in Elems(order);
      var k :| 0 <= k < |order| && order[k] == x;
    }
    RankedAcyclic(g, fin);
  }

  /** A ranking that covers every node leaves no room for a cycle. */
  lemma RankedAcyclic(g: Graph, fin: seq<string>)
    requires Ranked(g, fin) && g.Keys <= Elems(fin)
    ensures !HasCycle(g)
  {
    if p :| IsCycle(g, p) {
      var k :| 0 <= k < |fin| && fin[k] == p[0];
      assert p[0] in p[..|p| - 1];
      NotOnCycle(g, fin, p, k);
    }
  }

  lemma {:induction false} NotOnCycle(g: Graph, fin: seq<string>, p: seq<string>, i: nat)
    requires Ranked(g, fin) && IsCycle(g, p) && i < |fin|
    ensures fin[i] !in p[..|p| - 1]
    decreases i
  {
    if fin[i] in p[..|p| - 1] {
      var k :| 0 <= k < |p| - 1 && p[k] == fin[i];
      assert Linked(g, p, k);
      var y := p[k + 1];
      assert y in fin[..i];
      var j :| 0 <= j < i && fin[j] == y;
      if k + 1 < |p| - 1 {
        assert y in p[..|p| - 1];
      } else {
        assert y == p[0] && p[0] in p[..|p| - 1];
      }
      NotOnCycle(g, fin, p, j);
    }
  }

  /** The search reports a cycle exactly when the graph has one, whatever order the roots are tried in. */
  lemma FindCycleRootDecides(g: Graph, order: seq<string>)
    requires Elems(order) == g.Keys
    ensures FindCycleRoot(g, order, 0, {}).Some? <==> HasCycle(g)
  {
    if FindCycleRoot(g, order, 0, {}).Some? {
      FindCycleRootSound(g, order, 0, {});
    } else {
      assert Elems([]) == {};
      FindCycleRootComplete(g, order, 0, {}, []);
    }
  }
}
