/**
 * The visiting/visited depth-first search that both the unit graph
 * (src/tokenshare/core/task_graph.py:103-123) and the proposal's child graph
 * (src/tokenshare/core/expansion.py:777-793) use to reject cycles.
 */
module Graphs {
  import opened Basics

  /** Successor lists: every node is a key, every listed successor is a node. */
  type Adjacency<N> = map<N, seq<N>>

  ghost predicate Closed<N(!new)>(g: Adjacency<N>) {
    forall a, b :: Edge(g, a, b) ==> b in g
  }

  predicate Edge<N(==)>(g: Adjacency<N>, a: N, b: N) {
    a in g && b in g[a]
  }

  ghost predicate Path<N>(g: Adjacency<N>, p: seq<N>) {
    |p| >= 1 && forall i :: 0 <= i < |p| - 1 ==> Edge(g, p[i], p[i + 1])
  }

  ghost predicate Cycle<N>(g: Adjacency<N>, p: seq<N>) {
    |p| >= 2 && Path(g, p) && p[0] == p[|p| - 1]
  }

  ghost predicate Acyclic<N(!new)>(g: Adjacency<N>) {
    forall p: seq<N> :: !Cycle(g, p)
  }

  /** A finishing order: every successor of a node stands before it. */
  ghost predicate FinishingOrder<N(!new)>(g: Adjacency<N>, order: seq<N>) {
    && Distinct(order)
    && forall i, b :: 0 <= i < |order| && Edge(g, order[i], b) ==> b in order[..i]
  }

  lemma {:induction false} PathDescends<N(!new)>(g: Adjacency<N>, order: seq<N>, p: seq<N>, i: nat)
    requires FinishingOrder(g, order) && i < |order|
    requires |p| >= 2 && Path(g, p) && p[0] == order[i]
    ensures p[|p| - 1] in order[..i]
  {
    assert Edge(g, p[0], p[1]);
    var k :| 0 <= k < i && order[k] == p[1];
    if |p| > 2 {
      forall j | 0 <= j < |p[1..]| - 1 ensures Edge(g, p[1..][j], p[1..][j + 1]) {
        assert Edge(g, p[j + 1], p[j + 1 + 1]);
      }
      PathDescends(g, order, p[1..], k);
    }
  }

  lemma {:induction false} FinishedIsAcyclic<N(!new)>(g: Adjacency<N>, order: seq<N>)
    requires FinishingOrder(g, order) && g.Keys <= Elements(order)
    ensures Acyclic(g)
  {
    forall p: seq<N> ensures !Cycle(g, p) {
      if Cycle(g, p) {
        assert Edge(g, p[0], p[1]);
        assert p[0] in Elements(order);
        var i :| 0 <= i < |order| && order[i] == p[0];
        PathDescends(g, order, p, i);
      }
    }
  }

  lemma {:induction false} FinishNode<N(!new)>(g: Adjacency<N>, order: seq<N>, node: N)
    requires FinishingOrder(g, order) && node !in order
    requires node in g && forall j :: 0 <= j < |g[node]| ==> g[node][j] in order
    ensures FinishingOrder(g, order + [node])
    ensures Elements(order + [node]) == Elements(order) + {node}
  {
    var longer := order + [node];
    forall i, b | 0 <= i < |longer| && Edge(g, longer[i], b) ensures b in longer[..i] {
      if i < |order| {
        assert b in order[..i] && longer[..i] == order[..i];
      } else {
        assert longer[..i] == order;
      }
    }
    assert forall x :: x in longer <==> x in order || x == node;
  }

  /** The two sets the nested `visit` function updates; the call stack and finishing order are their ghosts. */
  class CycleSearch<N(==,!new)> {
    var visiting: set<N>
    var visited: set<N>
    ghost var stack: seq<N>
    ghost var finished: seq<N>

    ghost predicate Valid(g: Adjacency<N>)
      reads this
    {
      && Elements(stack) == visiting && Elements(finished) == visited
      && visiting !! visited && visiting <= g.Keys
      && (stack != [] ==> Path(g, stack))
      && FinishingOrder(g, finished)
    }

    constructor (g: Adjacency<N>)
      ensures Valid(g) && visiting == {} && stack == [] && visited == {}
    {
      visiting, visited, stack, finished := {}, {}, [], [];
    }

    /** Raises (`ok` false) exactly when it meets a node it is still visiting. */
    method Visit(g: Adjacency<N>, node: N) returns (ok: bool)
      requires Closed(g) && node in g && Valid(g)
      requires stack != [] ==> Edge(g, stack[|stack| - 1], node)
      modifies this
      ensures ok ==> Valid(g) && visiting == old(visiting) && stack == old(stack)
      ensures ok ==> node in visited && old(visited) <= visited
      ensures !ok ==> !Acyclic(g)
      decreases g.Keys - visiting
    {
      if node in visiting {
        ghost var k :| 0 <= k < |stack| && stack[k] == node;
        assert Cycle(g, stack[k..] + [node]);
        return false;
      }
      if node in visited { return true; }
      visiting := visiting + {node};
      stack := stack + [node];
      ghost var entered := stack;
      for i := 0 to |g[node]|
        invariant Valid(g) && visiting == old(visiting) + {node} && stack == entered && node !in visited
        invariant old(visited) <= visited
        invariant forall j :: 0 <= j < i ==> g[node][j] in visited
      {
        assert Edge(g, node, g[node][i]);
        ok := Visit(g, g[node][i]);
        if !ok { return; }
      }
      visiting := visiting - {node};
      stack := stack[..|stack| - 1];
      assert stack == old(stack);
      FinishNode(g, finished, node);
      visited := visited + {node};
      finished := finished + [node];
      ok := true;
    }
  }

  /** `_validate_acyclic`: visits every node; succeeds exactly on graphs without a cycle. */
  method IsAcyclic<N(==,!new)>(g: Adjacency<N>, nodes: seq<N>) returns (ok: bool)
    requires Closed(g) && Elements(nodes) == g.Keys
    ensures ok <==> Acyclic(g)
  {
    var search := new CycleSearch(g);
    for i := 0 to |nodes|
      invariant search.Valid(g) && search.stack == []
      invariant forall j :: 0 <= j < i ==> nodes[j] in search.visited
    {
      assert nodes[i] in Elements(nodes);
      ok := search.Visit(g, nodes[i]);
      if !ok { return; }
    }
    FinishedIsAcyclic(g, search.finished);
    ok := true;
  }

  /** In an acyclic graph every non-empty set of nodes has one with no predecessor in the set. */
  lemma {:induction false} SourceExists<N(!new)>(g: Adjacency<N>, some: set<N>) returns (source: N)
    requires Acyclic(g) && some != {}
    ensures source in some && forall q :: q in some ==> !Edge(g, q, source)
  {
    var first :| first in some;
    source := WalkBack(g, some, [first]);
  }

  lemma {:induction false} WalkBack<N(!new)>(g: Adjacency<N>, some: set<N>, p: seq<N>) returns (source: N)
    requires Acyclic(g) && Path(g, p) && Distinct(p) && Elements(p) <= some
    ensures source in some && forall q :: q in some ==> !Edge(g, q, source)
    decreases some - Elements(p)
  {
    assert p[0] in Elements(p);
    if q :| q in some && Edge(g, q, p[0]) {
      if k :| 0 <= k < |p| && p[k] == q {
        assert Cycle(g, [q] + p[..k + 1]);
      }
      var longer := [q] + p;
      assert q in Elements(longer) && q !in Elements(p);
      assert forall x :: x in Elements(longer) ==> x == q || x in Elements(p);
      assert Elements(p) <= Elements(longer) by {
        forall x | x in Elements(p) ensures x in longer {
          var i :| 0 <= i < |p| && p[i] == x;
          assert longer[i + 1] == x;
        }
      }
      source := WalkBack(g, some, longer);
    } else {
      source := p[0];
    }
  }

  // ---------------------------------------------------------------- graphs given by arrows

  function Heads<N(==)>(arrows: seq<(N, N)>, tail: N): seq<N> {
    if arrows == [] then []
    else
      var before := Heads(arrows[..|arrows| - 1], tail);
      var last := arrows[|arrows| - 1];
      if last.0 == tail then before + [last.1] else before
  }

  function FromArrows<N(==)>(nodes: set<N>, arrows: seq<(N, N)>): Adjacency<N> {
    map n | n in nodes :: Heads(arrows, n)
  }

  lemma {:induction false} HeadMembers<N(!new)>(arrows: seq<(N, N)>, tail: N)
    ensures forall head :: head in Heads(arrows, tail) <==> (tail, head) in arrows
  {
    if arrows != [] {
      HeadMembers(arrows[..|arrows| - 1], tail);
      assert arrows == arrows[..|arrows| - 1] + [arrows[|arrows| - 1]];
    }
  }

  lemma {:induction false} ArrowEdges<N(!new)>(nodes: set<N>, arrows: seq<(N, N)>)
    ensures forall a, b :: Edge(FromArrows(nodes, arrows), a, b) <==> a in nodes && (a, b) in arrows
  {
    forall a, b ensures Edge(FromArrows(nodes, arrows), a, b) <==> a in nodes && (a, b) in arrows {
      HeadMembers(arrows, a);
    }
  }

  /** `back` maps every edge of `h` to an edge of `g`. */
  ghost predicate MapsInto<M(!new), N(!new)>(h: Adjacency<M>, g: Adjacency<N>, back: map<M, N>) {
    forall a, b :: Edge(h, a, b) ==> a in back && b in back && Edge(g, back[a], back[b])
  }

  /** A graph that maps into an acyclic one is acyclic. */
  lemma {:induction false} MappedIsAcyclic<M(!new), N(!new)>(h: Adjacency<M>, g: Adjacency<N>, back: map<M, N>)
    requires MapsInto(h, g, back) && Acyclic(g)
    ensures Acyclic(h)
  {
    forall p: seq<M> ensures !Cycle(h, p) {
      if Cycle(h, p) {
        forall i | 0 <= i < |p| ensures p[i] in back {
          if i > 0 { assert Edge(h, p[i - 1], p[i]); } else { assert Edge(h, p[0], p[1]); }
        }
        var q := seq(|p|, i requires 0 <= i < |p| => back[p[i]]);
        forall i | 0 <= i < |q| - 1 ensures Edge(g, q[i], q[i + 1]) {
          assert Edge(h, p[i], p[i + 1]);
        }
        assert Cycle(g, q);
      }
    }
  }

  lemma {:induction false} PathStays<N(!new)>(u: Adjacency<N>, g: Adjacency<N>, h: Adjacency<N>, p: seq<N>)
    requires forall a, b :: Edge(u, a, b) ==> Edge(g, a, b) || Edge(h, a, b)
    requires Closed(g) && g.Keys !! h.Keys
    requires Path(u, p) && p[0] in g
    ensures Path(g, p)
  {
    if |p| > 1 {
      assert Edge(u, p[0], p[1]);
      forall i | 0 <= i < |p[1..]| - 1 ensures Edge(u, p[1..][i], p[1..][i + 1]) {
        assert Edge(u, p[i + 1], p[i + 1 + 1]);
      }
      PathStays(u, g, h, p[1..]);
      forall i | 0 <= i < |p| - 1 ensures Edge(g, p[i], p[i + 1]) {
        if i > 0 { assert Edge(g, p[1..][i - 1], p[1..][i]); }
      }
    }
  }

  lemma {:induction false} PathIsOpen<N(!new)>(g: Adjacency<N>, p: seq<N>)
    requires Acyclic(g) && Path(g, p) && |p| >= 2
    ensures p[0] != p[|p| - 1]
  {
    assert !Cycle(g, p);
  }

  /** Two acyclic graphs on different nodes stay acyclic side by side. */
  lemma {:induction false} UnionIsAcyclic<N(!new)>(u: Adjacency<N>, g: Adjacency<N>, h: Adjacency<N>)
    requires forall a, b :: Edge(u, a, b) ==> Edge(g, a, b) || Edge(h, a, b)
    requires Closed(g) && Closed(h) && g.Keys !! h.Keys && Acyclic(g) && Acyclic(h)
    ensures Acyclic(u)
  {
    forall p: seq<N> ensures !Cycle(u, p) {
      if Cycle(u, p) {
        assert Edge(u, p[0], p[1]);
        if p[0] in g {
          PathStays(u, g, h, p);
          PathIsOpen(g, p);
        } else {
          PathStays(u, h, g, p);
          PathIsOpen(h, p);
        }
      }
    }
  }
}
