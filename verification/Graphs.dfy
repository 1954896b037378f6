/**
 The dependency graph as petgraph stores it, its topological orders, and the levels of its nodes
 (`src/scheduler/dependencies.rs`).
 */
module Graphs {
  import opened Wrappers
  import opened Plans

  type TriggerId = nat

  const STARTUP: TriggerId := 0
  const SHUTDOWN: TriggerId := 1
  const FIRST_REGULAR: TriggerId := 2

  datatype NodeKind = Special | MultiportUpstream | Port | Action | Timer | Reaction
  datatype GraphId = TriggerNode(trigger: TriggerId) | ReactionNode(reaction: ReactionId)
  datatype Node = Node(kind: NodeKind, id: GraphId)
  datatype EdgeWeight = Default | Use
  datatype Edge = Edge(src: nat, dst: nat, weight: EdgeWeight)
  datatype Graph = Graph(nodes: seq<Node>, edges: seq<Edge>)

  ghost predicate InRange(g: Graph) {
    forall e | e in g.edges :: e.src < |g.nodes| && e.dst < |g.nodes|
  }

  ghost predicate HasEdge(g: Graph, u: nat, v: nat) {
    exists e :: e in g.edges && e.src == u && e.dst == v
  }

  ghost predicate IsPath(g: Graph, p: seq<nat>) {
    && p != []
    && (forall i | 0 <= i < |p| :: p[i] < |g.nodes|)
    && forall i | 0 < i < |p| :: HasEdge(g, p[i - 1], p[i])
  }

  ghost predicate HasCycle(g: Graph) {
    exists p :: IsPath(g, p) && |p| > 1 && p[0] == p[|p| - 1]
  }

  /** Every node is listed once, and no edge goes back or stays in place. */
  ghost predicate IsTopological(g: Graph, order: seq<nat>) {
    && (forall i | 0 <= i < |order| :: order[i] < |g.nodes|)
    && (forall i, j | 0 <= i < j < |order| :: order[i] != order[j])
    && (forall n: nat | n < |g.nodes| :: n in order)
    && |order| == |g.nodes|
    && forall i, j | 0 <= i <= j < |order| :: !HasEdge(g, order[j], order[i])
  }

  /** What petgraph's `toposort` promises: some topological order, or an error if there is a cycle. */
  ghost predicate IsToposort(g: Graph, result: Option<seq<nat>>) {
    match result
    case Some(order) => IsTopological(g, order)
    case None => HasCycle(g)
  }

  /** Some path with `d` edges ends in `n`. */
  ghost predicate EndsPath(g: Graph, n: nat, d: nat) {
    exists p :: IsPath(g, p) && p[|p| - 1] == n && |p| == d + 1
  }

  /** The longest path that ends in `n` has `d` edges. */
  ghost predicate IsDepth(g: Graph, n: nat, d: nat) {
    && EndsPath(g, n, d)
    && forall p | IsPath(g, p) && p[|p| - 1] == n :: |p| <= d + 1
  }

  ghost predicate StrictlyIncreasing(g: Graph, f: nat -> int) {
    forall e | e in g.edges :: f(e.src) < f(e.dst)
  }

  function LevelOf(levels: map<nat, nat>, n: nat): nat {
    if n in levels then levels[n] else 0
  }

  // ---------------------------------------------------------------------------------------------- paths

  lemma ExtendedPath(g: Graph, p: seq<nat>, v: nat)
    requires IsPath(g, p) && v < |g.nodes| && HasEdge(g, p[|p| - 1], v)
    ensures IsPath(g, p + [v])
  {}

  lemma DeeperPath(g: Graph, u: nat, k: nat, v: nat)
    requires EndsPath(g, u, k) && v < |g.nodes| && HasEdge(g, u, v)
    ensures EndsPath(g, v, k + 1)
  {
    var p :| IsPath(g, p) && p[|p| - 1] == u && |p| == k + 1;
    ExtendedPath(g, p, v);
    assert (p + [v])[|p + [v]| - 1] == v;
  }

  /** A function that grows along edges grows along paths at least as fast as their length. */
  lemma {:induction false} GrowsAlongPath(g: Graph, f: nat -> int, p: seq<nat>)
    requires StrictlyIncreasing(g, f) && IsPath(g, p)
    ensures f(p[|p| - 1]) >= f(p[0]) + |p| - 1
  {
    if |p| > 1 {
      var q := p[..|p| - 1];
      assert IsPath(g, q);
      GrowsAlongPath(g, f, q);
      assert HasEdge(g, p[|p| - 2], p[|p| - 1]);
    }
  }

  function PositionIn(order: seq<nat>, n: nat): (i: nat)
    requires n in order
    ensures i < |order| && order[i] == n
  {
    if order[0] == n then 0 else 1 + PositionIn(order[1..], n)
  }

  ghost function Rank(order: seq<nat>): nat -> int {
    n => if n in order then PositionIn(order, n) else -1
  }

  lemma PositionsIncrease(g: Graph, order: seq<nat>)
    requires InRange(g) && IsTopological(g, order)
    ensures StrictlyIncreasing(g, Rank(order))
  {
    forall e | e in g.edges
      ensures Rank(order)(e.src) < Rank(order)(e.dst)
    {
      var i, j := PositionIn(order, e.src), PositionIn(order, e.dst);
      assert HasEdge(g, order[i], order[j]);
    }
  }

  /** `toposort` can report only one of its two outcomes: an ordered graph has no cycle. */
  lemma OrderedIsAcyclic(g: Graph, order: seq<nat>)
    requires InRange(g) && IsTopological(g, order)
    ensures !HasCycle(g)
  {
    PositionsIncrease(g, order);
    forall p | IsPath(g, p) && |p| > 1
      ensures p[0] != p[|p| - 1]
    {
      GrowsAlongPath(g, Rank(order), p);
    }
  }

  // ---------------------------------------------------------------------------------------------- levels

  /** The inner loop of the relaxation: the successors of `u`, last edge first as petgraph lists them. */
  method RelaxSuccessors(g: Graph, u: nat, before: map<nat, nat>) returns (levels: map<nat, nat>)
    requires u in before && !HasEdge(g, u, u)
    ensures before.Keys <= levels.Keys
    ensures forall n: nat | !HasEdge(g, u, n) :: LevelOf(levels, n) == LevelOf(before, n)
    ensures forall n: nat | HasEdge(g, u, n) ::
              LevelOf(levels, n) == if before[u] + 1 > LevelOf(before, n) then before[u] + 1 else LevelOf(before, n)
  {
    levels := before;
    var k := |g.edges|;
    while k > 0
      invariant 0 <= k <= |g.edges|
      invariant before.Keys <= levels.Keys && levels[u] == before[u]
      invariant forall n: nat | !HasEdge(g, u, n) :: LevelOf(levels, n) == LevelOf(before, n)
      invariant forall n: nat :: LevelOf(levels, n) == LevelOf(before, n)
                                 || LevelOf(levels, n) == before[u] + 1 > LevelOf(before, n)
      invariant forall i | k <= i < |g.edges| && g.edges[i].src == u :: before[u] + 1 <= LevelOf(levels, g.edges[i].dst)
    {
      k := k - 1;
      var e := g.edges[k];
      if e.src == u {
        assert HasEdge(g, u, e.dst);
        var level := LevelOf(levels, e.dst);
        levels := levels[e.dst := if levels[u] + 1 > level then levels[u] + 1 else level];
      }
    }
    forall n: nat | HasEdge(g, u, n)
      ensures before[u] + 1 <= LevelOf(levels, n)
    {
      var e :| e in g.edges && e.src == u && e.dst == n;
      var i :| 0 <= i < |g.edges| && g.edges[i] == e;
    }
  }

  ghost predicate Witnessed(g: Graph, levels: map<nat, nat>) {
    forall n: nat | n < |g.nodes| :: EndsPath(g, n, LevelOf(levels, n))
  }

  lemma StaysWitnessed(g: Graph, u: nat, before: map<nat, nat>, levels: map<nat, nat>)
    requires u < |g.nodes| && Witnessed(g, before)
    requires forall n: nat | n < |g.nodes| ::
               || LevelOf(levels, n) == LevelOf(before, n)
               || (HasEdge(g, u, n) && LevelOf(levels, n) == LevelOf(before, u) + 1)
    ensures Witnessed(g, levels)
  {
    forall n: nat | n < |g.nodes|
      ensures EndsPath(g, n, LevelOf(levels, n))
    {
      if LevelOf(levels, n) != LevelOf(before, n) {
        var p :| IsPath(g, p) && p[|p| - 1] == u && |p| == LevelOf(before, u) + 1;
        ExtendedPath(g, p, n);
        assert (p + [n])[|p + [n]| - 1] == n;
      }
    }
  }

  lemma NoPathYet(g: Graph)
    ensures Witnessed(g, map[])
  {
    forall n: nat | n < |g.nodes|
      ensures EndsPath(g, n, LevelOf(map[], n))
    {
      assert IsPath(g, [n]);
    }
  }

  /** The nodes before position `k` have their final level, and it is below that of their successors. */
  ghost predicate Settled(g: Graph, order: seq<nat>, k: nat, levels: map<nat, nat>)
    requires k <= |order|
  {
    forall i, v | 0 <= i < k && HasEdge(g, order[i], v) :: LevelOf(levels, order[i]) < LevelOf(levels, v)
  }

  /** The relaxation over a topological order: each node gets the length of the longest path that ends in it. */
  method NumberNodes(g: Graph, order: seq<nat>) returns (levels: map<nat, nat>)
    requires InRange(g) && IsTopological(g, order)
    ensures forall n: nat | n < |g.nodes| :: n in levels && IsDepth(g, n, levels[n])
  {
    levels := map[];
    NoPathYet(g);
    var k := 0;
    while k < |order|
      invariant 0 <= k <= |order|
      invariant forall i | 0 <= i < k :: order[i] in levels
      invariant Witnessed(g, levels)
      invariant Settled(g, order, k, levels)
    {
      var u := order[k];
      ghost var before := levels;
      levels := levels[u := LevelOf(levels, u)];
      assert forall n: nat :: LevelOf(levels, n) == LevelOf(before, n);
      levels := RelaxSuccessors(g, u, levels);
      StaysWitnessed(g, u, before, levels);
      StaysSettled(g, order, k, before, levels);
      k := k + 1;
    }
    SettledIsDepth(g, order, levels);
    forall n: nat | n < |g.nodes|
      ensures n in levels && IsDepth(g, n, levels[n])
    {
      assert order[PositionIn(order, n)] in levels && IsDepth(g, n, LevelOf(levels, n));
    }
  }

  lemma StaysSettled(g: Graph, order: seq<nat>, k: nat, before: map<nat, nat>, levels: map<nat, nat>)
    requires IsTopological(g, order) && k < |order| && Settled(g, order, k, before)
    requires forall n: nat | !HasEdge(g, order[k], n) :: LevelOf(levels, n) == LevelOf(before, n)
    requires forall n: nat | HasEdge(g, order[k], n) ::
               LevelOf(levels, n) >= LevelOf(before, n) && LevelOf(levels, n) > LevelOf(before, order[k])
    ensures Settled(g, order, k + 1, levels)
  {
    forall i, v: nat | 0 <= i < k + 1 && HasEdge(g, order[i], v)
      ensures LevelOf(levels, order[i]) < LevelOf(levels, v)
    {
      assert !HasEdge(g, order[k], order[i]);
    }
  }

  lemma SettledIsDepth(g: Graph, order: seq<nat>, levels: map<nat, nat>)
    requires InRange(g) && IsTopological(g, order)
    requires Witnessed(g, levels) && Settled(g, order, |order|, levels)
    ensures forall n: nat | n < |g.nodes| :: IsDepth(g, n, LevelOf(levels, n))
  {
    var f: nat -> int := (n: nat) => LevelOf(levels, n);
    forall e | e in g.edges
      ensures f(e.src) < f(e.dst)
    {
      assert HasEdge(g, order[PositionIn(order, e.src)], e.dst);
    }
    forall n: nat, p | n < |g.nodes| && IsPath(g, p) && p[|p| - 1] == n
      ensures |p| <= LevelOf(levels, n) + 1
    {
      GrowsAlongPath(g, f, p);
    }
  }

  // ---------------------------------------------------------------------------------------------- what a depth is

  /** Depths do not depend on the topological order that was used. */
  lemma DepthIsUnique(g: Graph, n: nat, c: nat, d: nat)
    requires IsDepth(g, n, c) && IsDepth(g, n, d)
    ensures c == d
  {
    var p :| IsPath(g, p) && p[|p| - 1] == n && |p| == c + 1;
    var q :| IsPath(g, q) && q[|q| - 1] == n && |q| == d + 1;
  }

  /** Depths are the least assignment of naturals that grows along every edge. */
  lemma DepthIsLeast(g: Graph, n: nat, d: nat, f: nat -> int)
    requires IsDepth(g, n, d) && StrictlyIncreasing(g, f)
    requires forall m: nat | m < |g.nodes| :: 0 <= f(m)
    ensures d <= f(n)
  {
    var p :| IsPath(g, p) && p[|p| - 1] == n && |p| == d + 1;
    GrowsAlongPath(g, f, p);
  }

  /** A numbering that grows along edges and is reached by paths gives the depths. */
  lemma DepthFromNumbering(g: Graph, n: nat, d: nat, f: nat -> int)
    requires StrictlyIncreasing(g, f) && EndsPath(g, n, d) && f(n) == d
    requires forall m: nat | m < |g.nodes| :: 0 <= f(m)
    ensures IsDepth(g, n, d)
  {
    forall p | IsPath(g, p) && p[|p| - 1] == n
      ensures |p| <= d + 1
    {
      GrowsAlongPath(g, f, p);
    }
  }

  lemma DepthGrows(g: Graph, u: nat, v: nat, c: nat, d: nat)
    requires IsDepth(g, u, c) && IsDepth(g, v, d) && v < |g.nodes| && HasEdge(g, u, v)
    ensures c < d
  {
    var p :| IsPath(g, p) && p[|p| - 1] == u && |p| == c + 1;
    ExtendedPath(g, p, v);
    assert (p + [v])[|p + [v]| - 1] == v;
  }

  /** A level is below the number of nodes. */
  lemma DepthIsBounded(g: Graph, order: seq<nat>, n: nat, d: nat)
    requires InRange(g) && IsTopological(g, order) && IsDepth(g, n, d)
    ensures d < |g.nodes|
  {
    PositionsIncrease(g, order);
    assert forall m: nat | m < |g.nodes| :: 0 <= Rank(order)(m) < |g.nodes|;
    DepthIsLeast(g, n, d, Rank(order));
    var p :| IsPath(g, p) && p[|p| - 1] == n && |p| == d + 1;
  }
}
