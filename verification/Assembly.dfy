/**
 Assembly (`src/scheduler/assembly_impl.rs`, and the recording half of `src/scheduler/dependencies.rs`): the calls that
 build the dependency graph, and what they keep true of it.
 */
module Assembly {
  import opened Wrappers
  import opened Plans
  import opened Graphs
  import opened Dataflow

  /** Without wide ids, trigger ids have 32 bits, and reactor and local reaction ids have 16. */
  const MAX_TRIGGER: nat := 0xFFFF_FFFF
  const HALF: nat := 0x1_0000

  /** A call returns normally, or with an error, or it panics. */
  datatype Outcome<+T> = Done(value: T) | Rejected(error: AssemblyError) | Panic

  /** The first id of a range and the first one after it. */
  datatype Range = Range(start: TriggerId, end: TriggerId)

  /** `GlobalReactionId`: two halves of one number. */
  function Global(reactor: nat, local: nat): ReactionId
    requires reactor < HALF && local < HALF
  {
    local * HALF + reactor
  }

  lemma GlobalIsInjective(reactor: nat, local: nat, otherReactor: nat, otherLocal: nat)
    requires reactor < HALF && local < HALF && otherReactor < HALF && otherLocal < HALF
    requires Global(reactor, local) == Global(otherReactor, otherLocal)
    ensures reactor == otherReactor && local == otherLocal
  {}

  lemma GlobalParts(reactor: nat, local: nat)
    requires reactor < HALF && local < HALF
    ensures Global(reactor, local) % HALF == reactor && Global(reactor, local) / HALF == local
  {}

  /** `next`: the successor, if it fits. */
  function Next(id: TriggerId): Option<TriggerId> {
    if id + 1 <= MAX_TRIGGER then Some(id + 1) else None
  }

  /**
   `next_range`: the `len` ids after `id`, if they and the id after them fit. The length is cast to 32 bits; the
   addition wraps around where overflow checks are off.
   */
  function NextRange(id: TriggerId, len: nat): Option<Range> {
    var upper := id + (1 + len % (MAX_TRIGGER + 1)) % (MAX_TRIGGER + 1);
    if upper <= MAX_TRIGGER then Some(Range(id + 1, upper)) else None
  }

  // ------------------------------------------------------------------------------------------ what assembly keeps true

  type Index = map<GraphId, nat>

  /** `ix_by_id` gives exactly the nodes of the graph. */
  ghost predicate Indexed(g: Graph, ix: Index) {
    && (forall n: nat | n < |g.nodes| :: g.nodes[n].id in ix && ix[g.nodes[n].id] == n)
    && forall id | id in ix :: ix[id] < |g.nodes| && g.nodes[ix[id]].id == id
  }

  ghost predicate HasKind(g: Graph, ix: Index, id: GraphId, kind: NodeKind) {
    id in ix && ix[id] < |g.nodes| && g.nodes[ix[id]] == Node(kind, id)
  }

  ghost predicate IsChannel(g: Graph, ix: Index, b: TriggerId, c: TriggerId) {
    && HasKind(g, ix, TriggerNode(b), MultiportUpstream) && HasKind(g, ix, TriggerNode(c), NodeKind.Port)
    && HasEdge(g, ix[TriggerNode(b)], ix[TriggerNode(c)])
  }

  ghost predicate InRangeOf(ranges: map<TriggerId, Range>, b: TriggerId, c: TriggerId) {
    b in ranges && ranges[b].start <= c < ranges[b].end
  }

  /** Every bank but the one under construction has its channels, at the ids of its range. */
  ghost predicate BanksAreFull(g: Graph, ix: Index, ranges: map<TriggerId, Range>, open: set<TriggerId>) {
    forall b, c | b in ranges && b !in open && ranges[b].start <= c < ranges[b].end :: IsChannel(g, ix, b, c)
  }

  /** Nothing but the channels of a bank comes after the bank. */
  ghost predicate BanksAreProper(g: Graph, ranges: map<TriggerId, Range>)
    requires InRange(g)
  {
    && (forall n: nat | n < |g.nodes| && g.nodes[n].kind == MultiportUpstream ::
          g.nodes[n].id.TriggerNode? && g.nodes[n].id.trigger in ranges)
    && forall e | e in g.edges && g.nodes[e.src].kind == MultiportUpstream ::
         && g.nodes[e.dst].id.TriggerNode?
         && ranges[g.nodes[e.src].id.trigger].start <= g.nodes[e.dst].id.trigger < ranges[g.nodes[e.src].id.trigger].end
  }

  /** Reactions belong to reactors that have their id. */
  ghost predicate ReactionsAreOwned(ix: Index, reactors: nat) {
    forall id: GraphId | id in ix && id.ReactionNode? :: id.reaction % HALF < reactors
  }

  ghost predicate Consistent(g: Graph, ix: Index, ranges: map<TriggerId, Range>, open: set<TriggerId>, cur: nat) {
    && WellFormed(g) && (forall b | b in ranges :: TriggerNode(b) in ix)
    && Indexed(g, ix) && cur == TriggersBefore(g.nodes, |g.nodes|)
    && BanksAreFull(g, ix, ranges, open) && BanksAreProper(g, ranges)
  }

  function WithNode(g: Graph, node: Node): Graph {
    Graph(g.nodes + [node], g.edges)
  }

  function WithEdge(g: Graph, e: Edge): Graph {
    Graph(g.nodes, g.edges + [e])
  }

  lemma {:induction false} TriggersBeforePrefix(nodes: seq<Node>, more: seq<Node>, k: nat)
    requires k <= |nodes|
    ensures TriggersBefore(nodes + more, k) == TriggersBefore(nodes, k)
  {
    if k > 0 {
      TriggersBeforePrefix(nodes, more, k - 1);
    }
  }

  lemma NodeKeepsWellFormed(g: Graph, ix: Index, node: Node)
    requires WellFormed(g) && Indexed(g, ix) && node.id !in ix && (node.kind == Reaction <==> node.id.ReactionNode?)
    requires node.id.TriggerNode? ==> node.id.trigger == TriggersBefore(g.nodes, |g.nodes|)
    ensures WellFormed(WithNode(g, node)) && Indexed(WithNode(g, node), ix[node.id := |g.nodes|])
    ensures TriggersBefore(g.nodes + [node], |g.nodes| + 1) ==
            TriggersBefore(g.nodes, |g.nodes|) + if node.id.TriggerNode? then 1 else 0
  {
    var h := WithNode(g, node);
    assert TriggersBefore(h.nodes, |g.nodes| + 1) == TriggersBefore(h.nodes, |g.nodes|) +
        if node.id.TriggerNode? then 1 else 0;
    hide NodesAreProper, TriggersBefore;
    TriggersBeforePrefix(g.nodes, [node], |g.nodes|);
    NodesStayProper(g.nodes, node);
    assert WellFormed(h) by { hide Indexed; }
    hide WellFormed;
  }

  lemma NodesStayProper(nodes: seq<Node>, node: Node)
    requires NodesAreProper(nodes) && (node.kind == Reaction <==> node.id.ReactionNode?)
    requires node.id.TriggerNode? ==> node.id.trigger == TriggersBefore(nodes, |nodes|)
    requires forall n: nat | n < |nodes| :: nodes[n].id != node.id
    ensures NodesAreProper(nodes + [node])
  {
    forall n: nat | n <= |nodes|
      ensures TriggersBefore(nodes + [node], n) == TriggersBefore(nodes, n)
    {
      TriggersBeforePrefix(nodes, [node], n);
    }
  }

  lemma EdgeKeepsWellFormed(g: Graph, ix: Index, e: Edge)
    requires WellFormed(g) && Indexed(g, ix) && e.src < |g.nodes| && e.dst < |g.nodes|
    requires g.nodes[e.src].id.TriggerNode? ==> g.nodes[e.dst].kind in {NodeKind.Port, NodeKind.Reaction}
    ensures WellFormed(WithEdge(g, e)) && Indexed(WithEdge(g, e), ix)
  {
    hide NodesAreProper;
  }

  /** The graph and its index have grown. */
  ghost predicate Extends(g: Graph, ix: Index, h: Graph, jx: Index) {
    && g.nodes <= h.nodes && g.edges <= h.edges
    && forall id | id in ix :: id in jx && jx[id] == ix[id]
  }

  lemma EdgeStays(g: Graph, h: Graph, u: nat, v: nat)
    requires HasEdge(g, u, v) && g.edges <= h.edges
    ensures HasEdge(h, u, v)
  {
    var e :| e in g.edges && e.src == u && e.dst == v;
    assert e in h.edges;
  }

  lemma KindStays(g: Graph, ix: Index, h: Graph, jx: Index, id: GraphId, kind: NodeKind)
    requires HasKind(g, ix, id, kind) && Extends(g, ix, h, jx)
    ensures HasKind(h, jx, id, kind)
  {
    assert h.nodes[ix[id]] == g.nodes[ix[id]];
  }

  lemma ChannelStays(g: Graph, ix: Index, h: Graph, jx: Index, b: TriggerId, c: TriggerId)
    requires IsChannel(g, ix, b, c) && Extends(g, ix, h, jx)
    ensures IsChannel(h, jx, b, c)
  {
    KindStays(g, ix, h, jx, TriggerNode(b), MultiportUpstream);
    KindStays(g, ix, h, jx, TriggerNode(c), NodeKind.Port);
    EdgeStays(g, h, ix[TriggerNode(b)], ix[TriggerNode(c)]);
  }

  lemma BanksStayFull(g: Graph, ix: Index, h: Graph, jx: Index, ranges: map<TriggerId, Range>, open: set<TriggerId>)
    requires BanksAreFull(g, ix, ranges, open) && Extends(g, ix, h, jx)
    ensures BanksAreFull(h, jx, ranges, open)
  {
    forall b, c | b in ranges && b !in open && ranges[b].start <= c < ranges[b].end
      ensures IsChannel(h, jx, b, c)
    {
      ChannelStays(g, ix, h, jx, b, c);
    }
  }

  lemma BankIsFull(g: Graph, ix: Index, ranges: map<TriggerId, Range>, b: TriggerId, channels: seq<TriggerId>)
    requires BanksAreFull(g, ix, ranges, {b}) && b in ranges && ranges[b] == Range(b + 1, b + 1 + |channels|)
    requires forall i | 0 <= i < |channels| :: channels[i] == b + 1 + i && IsChannel(g, ix, b, channels[i])
    ensures BanksAreFull(g, ix, ranges, {})
  {
    hide IsChannel;
    forall c | b + 1 <= c < b + 1 + |channels|
      ensures IsChannel(g, ix, b, c)
    {
      assert channels[c - b - 1] == c;
    }
  }

  lemma NodeKeepsProper(g: Graph, ranges: map<TriggerId, Range>, node: Node)
    requires InRange(g) && BanksAreProper(g, ranges)
    requires node.kind == MultiportUpstream ==> node.id.TriggerNode? && node.id.trigger in ranges
    ensures BanksAreProper(WithNode(g, node), ranges)
  {}

  lemma EdgeKeepsProper(g: Graph, ranges: map<TriggerId, Range>, e: Edge)
    requires InRange(g) && BanksAreProper(g, ranges) && e.src < |g.nodes| && e.dst < |g.nodes|
    requires g.nodes[e.src].kind == MultiportUpstream ==>
      && g.nodes[e.dst].id.TriggerNode?
      && ranges[g.nodes[e.src].id.trigger].start <= g.nodes[e.dst].id.trigger < ranges[g.nodes[e.src].id.trigger].end
    ensures BanksAreProper(WithEdge(g, e), ranges)
  {}

  lemma RangeKeepsProper(g: Graph, ranges: map<TriggerId, Range>, b: TriggerId, range: Range)
    requires InRange(g) && BanksAreProper(g, ranges) && b !in ranges
    ensures BanksAreProper(g, ranges[b := range])
  {}

  lemma OpenBank(g: Graph, ix: Index, ranges: map<TriggerId, Range>, b: TriggerId, range: Range)
    requires BanksAreFull(g, ix, ranges, {})
    ensures BanksAreFull(g, ix, ranges[b := range], {b})
  {
    hide IsChannel;
  }

  lemma ChannelOf(g: Graph, ix: Index, ranges: map<TriggerId, Range>, b: TriggerId, c: TriggerId)
    requires BanksAreFull(g, ix, ranges, {}) && b in ranges && ranges[b].start <= c < ranges[b].end
    ensures IsChannel(g, ix, b, c) && HasKind(g, ix, TriggerNode(c), NodeKind.Port)
  {
    assert IsChannel(g, ix, b, c);
  }

  /** A trigger that has not been allocated has no node. */
  lemma CurrentIsFresh(g: Graph, ix: Index, id: TriggerId)
    requires WellFormed(g) && Indexed(g, ix) && id >= TriggersBefore(g.nodes, |g.nodes|)
    ensures TriggerNode(id) !in ix
  {
    if TriggerNode(id) in ix {
      var n := ix[TriggerNode(id)];
      TriggersBeforeGrows(g.nodes, n, |g.nodes|);
    }
  }

  lemma ReactionHasKind(g: Graph, ix: Index, reaction: ReactionId)
    requires WellFormed(g) && Indexed(g, ix) && ReactionNode(reaction) in ix
    ensures HasKind(g, ix, ReactionNode(reaction), Reaction)
  {}

  /** Recording a component that is not a bank, or a reaction. */
  lemma NodeRecorded(g: Graph, ix: Index, ranges: map<TriggerId, Range>, open: set<TriggerId>, cur: nat, node: Node)
    requires Consistent(g, ix, ranges, open, cur) && node.id !in ix && node.kind != MultiportUpstream
    requires node.kind == Reaction <==> node.id.ReactionNode?
    requires node.id.TriggerNode? ==> node.id.trigger == cur
    ensures Consistent(WithNode(g, node), ix[node.id := |g.nodes|], ranges, open,
        if node.id.TriggerNode? then cur + 1 else cur)
    ensures Extends(g, ix, WithNode(g, node), ix[node.id := |g.nodes|])
  {
    assert InRange(g);
    hide WellFormed, Indexed, BanksAreFull, BanksAreProper, TriggersBefore;
    var h, jx := WithNode(g, node), ix[node.id := |g.nodes|];
    NodeKeepsWellFormed(g, ix, node);
    BanksStayFull(g, ix, h, jx, ranges, open);
    NodeKeepsProper(g, ranges, node);
  }

  /** Recording a bank, which has no channels yet. */
  lemma BankRecorded(g: Graph, ix: Index, ranges: map<TriggerId, Range>, cur: nat, range: Range)
    requires Consistent(g, ix, ranges, {}, cur)
    ensures TriggerNode(cur) !in ix
    ensures var node := Node(MultiportUpstream, TriggerNode(cur));
            && Consistent(WithNode(g, node), ix[node.id := |g.nodes|], ranges[cur := range], {cur}, cur + 1)
            && Extends(g, ix, WithNode(g, node), ix[node.id := |g.nodes|])
  {
    assert InRange(g);
    hide WellFormed, Indexed, BanksAreFull, BanksAreProper, TriggersBefore, IsChannel;
    CurrentIsFresh(g, ix, cur);
    assert cur !in ranges;
    var node := Node(MultiportUpstream, TriggerNode(cur));
    var h, jx := WithNode(g, node), ix[node.id := |g.nodes|];
    NodeKeepsWellFormed(g, ix, node);
    BanksStayFull(g, ix, h, jx, ranges, {});
    RangeKeepsProper(g, ranges, cur, range);
    NodeKeepsProper(g, ranges[cur := range], node);
    OpenBank(h, jx, ranges, cur, range);
  }

  lemma EdgeRecorded(g: Graph, ix: Index, ranges: map<TriggerId, Range>, open: set<TriggerId>, cur: nat, e: Edge)
    requires Consistent(g, ix, ranges, open, cur) && e.src < |g.nodes| && e.dst < |g.nodes|
    requires g.nodes[e.src].id.TriggerNode? ==> g.nodes[e.dst].kind in {NodeKind.Port, NodeKind.Reaction}
    requires g.nodes[e.src].kind == MultiportUpstream ==>
      && g.nodes[e.dst].id.TriggerNode?
      && ranges[g.nodes[e.src].id.trigger].start <= g.nodes[e.dst].id.trigger < ranges[g.nodes[e.src].id.trigger].end
    ensures Consistent(WithEdge(g, e), ix, ranges, open, cur) && Extends(g, ix, WithEdge(g, e), ix)
    ensures HasEdge(WithEdge(g, e), e.src, e.dst)
  {
    EdgeKeepsWellFormed(g, ix, e);
    BanksStayFull(g, ix, WithEdge(g, e), ix, ranges, open);
    EdgeKeepsProper(g, ranges, e);
    assert e in WithEdge(g, e).edges;
    hide WellFormed, Indexed, BanksAreFull, BanksAreProper, TriggersBefore;
  }

  // ------------------------------------------------------------------------------------------------- dependencies

  /** The edges by which a reaction depends on a trigger; a dependency on a bank is one on each of its channels. */
  ghost function DependencyEdges(g: Graph, ix: Index, ranges: map<TriggerId, Range>, trigger: TriggerId,
                                 reaction: ReactionId, weight: EdgeWeight): seq<Edge>
    requires TriggerNode(trigger) in ix && ReactionNode(reaction) in ix && ix[TriggerNode(trigger)] < |g.nodes|
  {
    if g.nodes[ix[TriggerNode(trigger)]].kind == MultiportUpstream then
      if trigger in ranges then ChannelEdges(ix, ranges[trigger].start, ranges[trigger].end, reaction, weight) else []
    else
      [Edge(ix[TriggerNode(trigger)], ix[ReactionNode(reaction)], weight)]
  }

  ghost function ChannelEdges(ix: Index, start: nat, end: nat, reaction: ReactionId, weight: EdgeWeight): seq<Edge>
    requires ReactionNode(reaction) in ix
  {
    seq(if start <= end then end - start else 0, i requires i >= 0 =>
      Edge(if TriggerNode(start + i) in ix then ix[TriggerNode(start + i)] else 0, ix[ReactionNode(reaction)], weight))
  }

  /** The trigger itself, or for a bank any of its channels. */
  ghost predicate IsSource(g: Graph, ix: Index, ranges: map<TriggerId, Range>, trigger: TriggerId, c: TriggerId) {
    if TriggerNode(trigger) in ix && ix[TriggerNode(trigger)] < |g.nodes|
       && g.nodes[ix[TriggerNode(trigger)]].kind == MultiportUpstream
    then InRangeOf(ranges, trigger, c) else c == trigger
  }

  /** What sets off `m` sets off `n`, through ports. */
  ghost predicate LeadsTo(g: Graph, m: nat, n: nat) {
    exists p :: IsPath(g, p) && p[0] == m && p[|p| - 1] == n
                && forall i | 0 < i < |p| :: g.nodes[p[i]].kind == NodeKind.Port
  }

  lemma TriggersStill(g: Graph, es: seq<Edge>, m: nat, n: nat)
    requires Triggers(g, m, n)
    ensures Triggers(Graph(g.nodes, g.edges + es), m, n)
  {
    var h := Graph(g.nodes, g.edges + es);
    var p :| IsTriggerPath(g, p) && p[0] == m && p[|p| - 1] == n;
    assert IsTriggerPath(h, p);
  }

  lemma TriggersByNewEdge(g: Graph, es: seq<Edge>, e: Edge, m: nat)
    requires e in es && e.weight != Use && IsReaction(g, e.dst) && LeadsTo(g, m, e.src)
    ensures Triggers(Graph(g.nodes, g.edges + es), m, e.dst)
  {
    var h := Graph(g.nodes, g.edges + es);
    var q :| IsPath(g, q) && q[0] == m && q[|q| - 1] == e.src
             && forall i | 0 < i < |q| :: g.nodes[q[i]].kind == NodeKind.Port;
    var p := q + [e.dst];
    forall i | 0 < i < |p| - 1
      ensures HasEdge(h, p[i - 1], p[i]) && h.nodes[p[i]].kind == NodeKind.Port
    {
      assert p[i] == q[i] && p[i - 1] == q[i - 1] && HasEdge(g, q[i - 1], q[i]);
    }
    assert e in h.edges && TriggerEdge(h, p[|p| - 2], p[|p| - 1]);
    hide HasEdge;
    assert IsTriggerPath(h, p) && p[0] == m && p[|p| - 1] == e.dst;
  }

  /** The inner edges of a trigger path lead to ports, so they are old ones. */
  lemma InnerEdgesStay(g: Graph, es: seq<Edge>, r: nat, p: seq<nat>)
    requires IsReaction(g, r) && g.nodes[r].kind != NodeKind.Port && forall e | e in es :: e.dst == r
    requires IsTriggerPath(Graph(g.nodes, g.edges + es), p)
    ensures forall i | 0 < i < |p| - 1 :: HasEdge(g, p[i - 1], p[i]) && g.nodes[p[i]].kind == NodeKind.Port
  {
    var h := Graph(g.nodes, g.edges + es);
    forall i | 0 < i < |p| - 1
      ensures HasEdge(g, p[i - 1], p[i])
    {
      assert HasEdge(h, p[i - 1], p[i]);
    }
  }

  lemma OldOrNewEdge(g: Graph, es: seq<Edge>, r: nat, m: nat, n: nat)
    requires IsReaction(g, r) && g.nodes[r].kind != NodeKind.Port && forall e | e in es :: e.dst == r
    requires Triggers(Graph(g.nodes, g.edges + es), m, n)
    ensures Triggers(g, m, n) || (n == r && exists e :: e in es && e.weight != Use && LeadsTo(g, m, e.src))
  {
    var h := Graph(g.nodes, g.edges + es);
    var p :| IsTriggerPath(h, p) && p[0] == m && p[|p| - 1] == n;
    InnerEdgesStay(g, es, r, p);
    var e :| e in h.edges && e.src == p[|p| - 2] && e.dst == n && e.weight != Use;
    if e in g.edges {
      assert TriggerEdge(g, p[|p| - 2], p[|p| - 1]);
      hide HasEdge, TriggerEdge;
      assert IsTriggerPath(g, p);
    } else {
      hide HasEdge, TriggerEdge, Triggers;
      var q := p[..|p| - 1];
      assert IsPath(g, q) && q[0] == m && q[|q| - 1] == e.src;
      assert e in es && LeadsTo(g, m, e.src);
    }
  }

  /** New edges to a reaction make it triggered by what leads to their sources, unless they are uses. */
  lemma EdgesToReaction(g: Graph, es: seq<Edge>, r: nat, weight: EdgeWeight, m: nat, n: nat)
    requires IsReaction(g, r) && g.nodes[r].kind != NodeKind.Port
    requires forall e | e in es :: e.dst == r && e.weight == weight
    ensures Triggers(Graph(g.nodes, g.edges + es), m, n) <==>
            Triggers(g, m, n) || (weight != Use && n == r && exists e :: e in es && LeadsTo(g, m, e.src))
  {
    hide Triggers, LeadsTo;
    var h := Graph(g.nodes, g.edges + es);
    if Triggers(h, m, n) {
      OldOrNewEdge(g, es, r, m, n);
    }
    if Triggers(g, m, n) {
      TriggersStill(g, es, m, n);
    } else if weight != Use && n == r && exists e :: e in es && LeadsTo(g, m, e.src) {
      var e :| e in es && LeadsTo(g, m, e.src);
      TriggersByNewEdge(g, es, e, m);
    }
  }

  /** The edges of a dependency: one from each source to the reaction, with the weight that was asked for. */
  lemma DependencyEdge(g: Graph, ix: Index, ranges: map<TriggerId, Range>, trigger: TriggerId, reaction: ReactionId,
                       weight: EdgeWeight, e: Edge)
    requires BanksAreFull(g, ix, ranges, {}) && Indexed(g, ix)
    requires TriggerNode(trigger) in ix && ReactionNode(reaction) in ix && ix[TriggerNode(trigger)] < |g.nodes|
    ensures e in DependencyEdges(g, ix, ranges, trigger, reaction, weight) <==>
            exists c :: IsSource(g, ix, ranges, trigger, c) && TriggerNode(c) in ix
                        && e == Edge(ix[TriggerNode(c)], ix[ReactionNode(reaction)], weight)
  {
    if g.nodes[ix[TriggerNode(trigger)]].kind == MultiportUpstream {
      if trigger in ranges {
        var range := ranges[trigger];
        var es := ChannelEdges(ix, range.start, range.end, reaction, weight);
        if e in es {
          var i :| 0 <= i < |es| && es[i] == e;
          assert IsChannel(g, ix, trigger, range.start + i);
          assert IsSource(g, ix, ranges, trigger, range.start + i);
        }
        if c: TriggerId :| IsSource(g, ix, ranges, trigger, c) && TriggerNode(c) in ix
                           && e == Edge(ix[TriggerNode(c)], ix[ReactionNode(reaction)], weight) {
          assert es[c - range.start] == e;
        }
      }
    } else {
      assert IsSource(g, ix, ranges, trigger, trigger);
    }
  }

  ghost predicate LeadsToSource(g: Graph, ix: Index, ranges: map<TriggerId, Range>, trigger: TriggerId, m: nat) {
    exists c :: IsSource(g, ix, ranges, trigger, c) && TriggerNode(c) in ix && LeadsTo(g, m, ix[TriggerNode(c)])
  }

  /** What triggers what after a dependency was added: a use changes nothing, any other one exactly what it should. */
  ghost predicate Depends(g: Graph, h: Graph, ix: Index, ranges: map<TriggerId, Range>, trigger: TriggerId,
                          reaction: ReactionId, weight: EdgeWeight)
    requires ReactionNode(reaction) in ix
  {
    && h.nodes == g.nodes
    && (forall c | IsSource(g, ix, ranges, trigger, c) ::
          TriggerNode(c) in ix && HasEdge(h, ix[TriggerNode(c)], ix[ReactionNode(reaction)]))
    && forall m: nat, n: nat :: Triggers(h, m, n) <==>
      || Triggers(g, m, n)
      || (weight != Use && n == ix[ReactionNode(reaction)] && LeadsToSource(g, ix, ranges, trigger, m))
  }

  lemma DependencyTriggers(g: Graph, ix: Index, ranges: map<TriggerId, Range>, trigger: TriggerId,
                           reaction: ReactionId, weight: EdgeWeight, m: nat, n: nat)
    requires BanksAreFull(g, ix, ranges, {}) && Indexed(g, ix) && InRange(g)
    requires TriggerNode(trigger) in ix && ReactionNode(reaction) in ix && IsReaction(g, ix[ReactionNode(reaction)])
    ensures ix[TriggerNode(trigger)] < |g.nodes|
    ensures var h := Graph(g.nodes, g.edges + DependencyEdges(g, ix, ranges, trigger, reaction, weight));
            Triggers(h, m, n) <==>
            || Triggers(g, m, n)
            || (weight != Use && n == ix[ReactionNode(reaction)] && LeadsToSource(g, ix, ranges, trigger, m))
  {
    var r := ix[ReactionNode(reaction)];
    var es := DependencyEdges(g, ix, ranges, trigger, reaction, weight);
    forall e
      ensures e in es ==> e.src < |g.nodes| && e.dst == r && e.weight == weight
      ensures e in es && LeadsTo(g, m, e.src) ==> LeadsToSource(g, ix, ranges, trigger, m)
    {
      DependencyEdge(g, ix, ranges, trigger, reaction, weight, e);
      hide IsSource, LeadsTo, DependencyEdges, BanksAreFull;
    }
    if LeadsToSource(g, ix, ranges, trigger, m) {
      hide IsSource, LeadsTo, DependencyEdges, BanksAreFull;
      var c :| IsSource(g, ix, ranges, trigger, c) && TriggerNode(c) in ix && LeadsTo(g, m, ix[TriggerNode(c)]);
      DependencyEdge(g, ix, ranges, trigger, reaction, weight, Edge(ix[TriggerNode(c)], r, weight));
      assert exists e :: e in es && LeadsTo(g, m, e.src);
    }
    hide IsSource, LeadsTo, DependencyEdges, BanksAreFull, Triggers, LeadsToSource;
    EdgesToReaction(g, es, r, weight, m, n);
  }

  lemma SourceHasEdge(g: Graph, ix: Index, ranges: map<TriggerId, Range>, trigger: TriggerId,
                      reaction: ReactionId, weight: EdgeWeight, c: TriggerId)
    requires BanksAreFull(g, ix, ranges, {}) && Indexed(g, ix)
    requires TriggerNode(trigger) in ix && ReactionNode(reaction) in ix && IsSource(g, ix, ranges, trigger, c)
    ensures ix[TriggerNode(trigger)] < |g.nodes| && TriggerNode(c) in ix
    ensures HasEdge(Graph(g.nodes, g.edges + DependencyEdges(g, ix, ranges, trigger, reaction, weight)),
                    ix[TriggerNode(c)], ix[ReactionNode(reaction)])
  {
    assert c != trigger ==> IsChannel(g, ix, trigger, c);
    var e := Edge(ix[TriggerNode(c)], ix[ReactionNode(reaction)], weight);
    DependencyEdge(g, ix, ranges, trigger, reaction, weight, e);
    hide DependencyEdges;
    assert e in g.edges + DependencyEdges(g, ix, ranges, trigger, reaction, weight);
  }

  lemma DependencyAdded(g: Graph, ix: Index, ranges: map<TriggerId, Range>, cur: nat, trigger: TriggerId,
                        reaction: ReactionId, weight: EdgeWeight)
    requires Consistent(g, ix, ranges, {}, cur) && TriggerNode(trigger) in ix && ReactionNode(reaction) in ix
    ensures ix[TriggerNode(trigger)] < |g.nodes|
    ensures Depends(g, Graph(g.nodes, g.edges + DependencyEdges(g, ix, ranges, trigger, reaction, weight)), ix, ranges,
                    trigger, reaction, weight)
  {
    assert IsReaction(g, ix[ReactionNode(reaction)]) && InRange(g);
    hide Consistent, WellFormed, BanksAreFull, IsSource, DependencyEdges, LeadsToSource, Triggers, IsReaction, HasEdge;
    var h := Graph(g.nodes, g.edges + DependencyEdges(g, ix, ranges, trigger, reaction, weight));
    forall c | IsSource(g, ix, ranges, trigger, c)
      ensures TriggerNode(c) in ix && HasEdge(h, ix[TriggerNode(c)], ix[ReactionNode(reaction)])
    {
      SourceHasEdge(g, ix, ranges, trigger, reaction, weight, c);
    }
    forall m: nat, n: nat
      ensures Triggers(h, m, n) <==>
        || Triggers(g, m, n)
        || (weight != Use && n == ix[ReactionNode(reaction)] && LeadsToSource(g, ix, ranges, trigger, m))
    {
      DependencyTriggers(g, ix, ranges, trigger, reaction, weight, m, n);
    }
  }

  /** A dependency that is not a use: the trigger, and with it each channel of a bank, triggers the reaction. */
  lemma SourceTriggers(g: Graph, h: Graph, ix: Index, ranges: map<TriggerId, Range>, trigger: TriggerId,
                       reaction: ReactionId, c: TriggerId)
    requires InRange(g) && Indexed(g, ix) && ReactionNode(reaction) in ix && BanksAreFull(g, ix, ranges, {})
    requires Depends(g, h, ix, ranges, trigger, reaction, Default) && IsSource(g, ix, ranges, trigger, c)
    ensures TriggerNode(c) in ix && Triggers(h, ix[TriggerNode(c)], ix[ReactionNode(reaction)])
    ensures TriggerNode(trigger) in ix ==> Triggers(h, ix[TriggerNode(trigger)], ix[ReactionNode(reaction)])
  {
    hide Triggers;
    var m := ix[TriggerNode(c)];
    assert IsPath(g, [m]) && LeadsTo(g, m, m);
    assert LeadsToSource(g, ix, ranges, trigger, m);
    if c != trigger {
      var b := ix[TriggerNode(trigger)];
      assert IsChannel(g, ix, trigger, c);
      assert IsPath(g, [b, m]) && LeadsTo(g, b, m);
      assert LeadsToSource(g, ix, ranges, trigger, b);
    }
  }

  function ReactionNodes(reactor: nat, n: nat): (nodes: seq<Node>)
    requires reactor < HALF && n <= HALF
  {
    seq(n, i requires 0 <= i < HALF => Node(Reaction, ReactionNode(Global(reactor, i))))
  }

  /** Consecutive nodes from `first` on, each linked to the next. */
  function PriorityEdges(first: nat, n: nat): (es: seq<Edge>)
    ensures |es| == n
  {
    seq(n, i requires i >= 0 => Edge(first + i, first + i + 1, Default))
  }

  /** The locals of a reactor's recorded reactions are below `n`. */
  ghost predicate LocalsBelow(ix: Index, reactor: nat, n: nat) {
    forall id: GraphId | id in ix && id.ReactionNode? && id.reaction % HALF == reactor :: id.reaction / HALF < n
  }

  ghost predicate Precedes(g: Graph, ix: Index, r: ReactionId, s: ReactionId) {
    && ReactionNode(r) in ix && ReactionNode(s) in ix && HasEdge(g, ix[ReactionNode(r)], ix[ReactionNode(s)])
  }

  /** `n` user-declared reactions of a reactor take precedence in the order of their declaration. */
  ghost predicate Prioritised(g: Graph, ix: Index, reactor: nat, n: nat) {
    && reactor < HALF && n <= HALF
    && forall i, j | 0 <= i < n && j == i + 1 && j < n :: Precedes(g, ix, Global(reactor, i), Global(reactor, j))
  }

  datatype Declared = Declared(user: nat, all: nat)

  /** The reactor has the reactions `0..n`, and the first `k` of them are declared by the user. */
  ghost predicate RecordsReactor(g: Graph, ix: Index, reactor: nat, k: nat, n: nat) {
    && k <= n && Prioritised(g, ix, reactor, k) && n <= HALF && LocalsBelow(ix, reactor, n)
    && forall i | 0 <= i < n :: ReactionNode(Global(reactor, i)) in ix
  }

  ghost predicate AllRecorded(g: Graph, ix: Index, reactors: map<nat, Declared>) {
    forall r | r in reactors :: RecordsReactor(g, ix, r, reactors[r].user, reactors[r].all)
  }

  lemma PriorityStays(g: Graph, ix: Index, h: Graph, jx: Index, reactor: nat, n: nat)
    requires Prioritised(g, ix, reactor, n) && Extends(g, ix, h, jx)
    ensures Prioritised(h, jx, reactor, n)
  {
    forall i, j | 0 <= i < n && j == i + 1 && j < n
      ensures Precedes(h, jx, Global(reactor, i), Global(reactor, j))
    {
      assert Precedes(g, ix, Global(reactor, i), Global(reactor, j));
      EdgeStays(g, h, ix[ReactionNode(Global(reactor, i))], ix[ReactionNode(Global(reactor, j))]);
    }
  }

  /** Whatever is added, the reactors that were recorded stay so, as long as they get no further reactions. */
  lemma RecordsStay(g: Graph, ix: Index, h: Graph, jx: Index, reactors: map<nat, Declared>)
    requires AllRecorded(g, ix, reactors) && Extends(g, ix, h, jx)
    requires forall id | id in jx && id !in ix && id.ReactionNode? :: id.reaction % HALF !in reactors
    ensures AllRecorded(h, jx, reactors)
  {
    hide Prioritised, Global;
    forall r | r in reactors
      ensures RecordsReactor(h, jx, r, reactors[r].user, reactors[r].all)
    {
      PriorityStays(g, ix, h, jx, r, reactors[r].user);
      assert RecordsReactor(g, ix, r, reactors[r].user, reactors[r].all);
    }
  }

  lemma ChainIsPriority(g: Graph, ix: Index, reactor: nat, n: nat, before: seq<Edge>, first: nat)
    requires reactor < HALF && n <= HALF
    requires g.edges == before + PriorityEdges(first, if n > 0 then n - 1 else 0)
    requires forall k | 0 <= k < n :: IsNumbered(ix, Global(reactor, k), first + k)
    ensures Prioritised(g, ix, reactor, n)
  {
    hide Global;
    forall i, j | 0 <= i < n && j == i + 1 && j < n
      ensures Precedes(g, ix, Global(reactor, i), Global(reactor, j))
    {
      assert IsNumbered(ix, Global(reactor, i), first + i) && IsNumbered(ix, Global(reactor, j), first + j);
      assert g.edges[|before| + i] == Edge(first + i, first + j, Default);
    }
  }

  /** How many of the first `i` reactions are linked to the one before them, if the first `k` are user-declared. */
  function LinksAmong(i: nat, k: nat): nat {
    if i == 0 || k == 0 then 0 else if i < k then i - 1 else k - 1
  }

  ghost predicate IsNumbered(ix: Index, r: ReactionId, n: nat) {
    ReactionNode(r) in ix && ix[ReactionNode(r)] == n
  }

  /** After the first `i` reactions of `new_reactions`. */
  ghost predicate HasGrown(g: Graph, ix: Index, h: Graph, jx: Index, reactor: nat, i: nat, k: nat,
                           result: seq<ReactionId>)
    requires reactor < HALF && i <= HALF
  {
    && Extends(g, ix, h, jx) && |result| == i
    && (forall n | 0 <= n < i :: result[n] == Global(reactor, n) && IsNumbered(jx, result[n], |g.nodes| + n))
    && h.nodes == g.nodes + ReactionNodes(reactor, i)
    && h.edges == g.edges + PriorityEdges(|g.nodes|, LinksAmong(i, k))
  }

  lemma NoReactionYet(g: Graph, ix: Index, reactor: nat, k: nat)
    requires reactor < HALF
    ensures HasGrown(g, ix, g, ix, reactor, 0, k, [])
  {}

  lemma OneMoreLocal(ix: Index, jx: Index, reactor: nat, i: nat, next: nat, r: ReactionId, n: nat)
    requires LocalsBelow(ix, reactor, i) && next == i + 1 && r % HALF == reactor && r / HALF == i
    requires jx == ix[ReactionNode(r) := n]
    ensures LocalsBelow(jx, reactor, next)
  {}

  lemma PreviousIsNumbered(g: Graph, ix: Index, h: Graph, jx: Index, reactor: nat, i: nat, k: nat,
                           result: seq<ReactionId>, r: ReactionId)
    requires reactor < HALF && 0 < i <= HALF && HasGrown(g, ix, h, jx, reactor, i, k, result)
    ensures |result| == i && ReactionNode(result[i - 1]) in jx[ReactionNode(r) := |h.nodes|]
  {
    hide Global, ReactionNodes, PriorityEdges, Extends;
    assert IsNumbered(jx, result[i - 1], |g.nodes| + (i - 1));
  }

  lemma OneMoreReaction(g: Graph, ix: Index, h: Graph, jx: Index, last: Graph, kx: Index, reactor: nat, i: nat,
                        next: nat, k: nat, result: seq<ReactionId>, r: ReactionId)
    requires reactor < HALF && i < HALF && next == i + 1 && r == Global(reactor, i) && ReactionNode(r) !in jx
    requires HasGrown(g, ix, h, jx, reactor, i, k, result) && kx == jx[ReactionNode(r) := |h.nodes|]
    requires last.nodes == h.nodes + [Node(Reaction, ReactionNode(r))]
    requires last.edges == h.edges + if i < k && i > 0 then [Edge(|g.nodes| + (i - 1), |g.nodes| + i, Default)] else []
    ensures HasGrown(g, ix, last, kx, reactor, next, k, result + [r])
  {
    hide Global;
    assert ReactionNodes(reactor, next) == ReactionNodes(reactor, i) + [Node(Reaction, ReactionNode(r))];
    if i < k && i > 0 {
      assert PriorityEdges(|g.nodes|, i) == PriorityEdges(|g.nodes|, i - 1)
                                            + [Edge(|g.nodes| + (i - 1), |g.nodes| + i, Default)];
    }
  }

  lemma FewerRecorded(g: Graph, ix: Index, reactors: map<nat, Declared>, reactor: nat)
    requires AllRecorded(g, ix, reactors)
    ensures AllRecorded(g, ix, reactors - {reactor})
  {
    hide RecordsReactor;
  }

  lemma OneMoreRecorded(g: Graph, ix: Index, reactors: map<nat, Declared>, reactor: nat, k: nat, n: nat,
      ids: seq<ReactionId>)
    requires AllRecorded(g, ix, reactors) && k <= n <= HALF && LocalsBelow(ix, reactor, n) && |ids| == n
    requires Prioritised(g, ix, reactor, k)
    requires forall i | 0 <= i < n :: ids[i] == Global(reactor, i) && ReactionNode(ids[i]) in ix
    ensures AllRecorded(g, ix, reactors[reactor := Declared(k, n)])
  {
    hide Prioritised, LocalsBelow, Global;
    assert RecordsReactor(g, ix, reactor, k, n);
    hide RecordsReactor;
  }

  lemma ChannelAdded(g: Graph, ix: Index, h: Graph, jx: Index, bank: TriggerId, c: TriggerId, e: Edge, k: Graph)
    requires WellFormed(g) && Indexed(g, ix) && HasKind(g, ix, TriggerNode(bank), MultiportUpstream)
        && TriggerNode(c) !in ix
    requires h == WithNode(g, Node(NodeKind.Port, TriggerNode(c))) && jx == ix[TriggerNode(c) := |g.nodes|]
    requires WellFormed(h) && Indexed(h, jx)
    requires e == Edge(ix[TriggerNode(bank)], |g.nodes|, Default) && k == WithEdge(h, e)
    ensures WellFormed(k) && Indexed(k, jx) && Extends(g, ix, k, jx) && IsChannel(k, jx, bank, c)
  {
    EdgeKeepsWellFormed(h, jx, e);
    hide WellFormed, Indexed;
    assert e in k.edges;
    assert HasEdge(k, e.src, e.dst);
  }

  /** What `ValidBut` says of the graph, for a graph that has grown by a channel of the bank under construction. */
  lemma ComponentAdded(g: Graph, ix: Index, ranges: map<TriggerId, Range>, bank: TriggerId, c: TriggerId, e: Edge,
                       reactors: map<nat, Declared>)
    requires Consistent(g, ix, ranges, {bank}, c) && HasKind(g, ix, TriggerNode(bank), MultiportUpstream)
    requires InRangeOf(ranges, bank, c) && e == Edge(ix[TriggerNode(bank)], |g.nodes|, Default)
    requires AllRecorded(g, ix, reactors)
    requires HasKind(g, ix, TriggerNode(STARTUP), Special) && HasKind(g, ix, TriggerNode(SHUTDOWN), Special)
    ensures var h, jx := WithEdge(WithNode(g, Node(NodeKind.Port, TriggerNode(c))), e), ix[TriggerNode(c) := |g.nodes|];
            && Consistent(h, jx, ranges, {bank}, c + 1) && AllRecorded(h, jx, reactors)
            && HasKind(h, jx, TriggerNode(STARTUP), Special) && HasKind(h, jx, TriggerNode(SHUTDOWN), Special)
  {
    hide WellFormed, Indexed, BanksAreFull, BanksAreProper, TriggersBefore, RecordsReactor, AllRecorded;
    CurrentIsFresh(g, ix, c);
    var node := Node(NodeKind.Port, TriggerNode(c));
    var h, jx := WithNode(g, node), ix[node.id := |g.nodes|];
    NodeRecorded(g, ix, ranges, {bank}, c, node);
    KindStays(g, ix, h, jx, TriggerNode(bank), MultiportUpstream);
    EdgeRecorded(h, jx, ranges, {bank}, c + 1, e);
    var k := WithEdge(h, e);
    assert Extends(g, ix, k, jx);
    KindStays(g, ix, k, jx, TriggerNode(STARTUP), Special);
    KindStays(g, ix, k, jx, TriggerNode(SHUTDOWN), Special);
    RecordsStay(g, ix, k, jx, reactors);
  }

  lemma BankAdded(g: Graph, ix: Index, ranges: map<TriggerId, Range>, b: TriggerId, range: Range,
                  reactors: map<nat, Declared>)
    requires Consistent(g, ix, ranges, {}, b) && AllRecorded(g, ix, reactors)
    requires HasKind(g, ix, TriggerNode(STARTUP), Special) && HasKind(g, ix, TriggerNode(SHUTDOWN), Special)
    ensures TriggerNode(b) !in ix
    ensures var h, jx := WithNode(g, Node(MultiportUpstream, TriggerNode(b))), ix[TriggerNode(b) := |g.nodes|];
            && Consistent(h, jx, ranges[b := range], {b}, b + 1) && AllRecorded(h, jx, reactors)
                && Extends(g, ix, h, jx)
            && HasKind(h, jx, TriggerNode(STARTUP), Special) && HasKind(h, jx, TriggerNode(SHUTDOWN), Special)
            && HasKind(h, jx, TriggerNode(b), MultiportUpstream)
  {
    hide WellFormed, Indexed, BanksAreFull, BanksAreProper, TriggersBefore, RecordsReactor, AllRecorded;
    BankRecorded(g, ix, ranges, b, range);
    var h, jx := WithNode(g, Node(MultiportUpstream, TriggerNode(b))), ix[TriggerNode(b) := |g.nodes|];
    KindStays(g, ix, h, jx, TriggerNode(STARTUP), Special);
    KindStays(g, ix, h, jx, TriggerNode(SHUTDOWN), Special);
    RecordsStay(g, ix, h, jx, reactors);
  }

  /** The channels of a bank have the ids after its own. */
  ghost predicate AreChannels(g: Graph, ix: Index, b: TriggerId, channels: seq<TriggerId>) {
    forall i | 0 <= i < |channels| :: channels[i] == b + 1 + i && IsChannel(g, ix, b, channels[i])
  }

  lemma NoChannels(g: Graph, ix: Index, b: TriggerId)
    ensures AreChannels(g, ix, b, [])
  {}

  lemma OneMoreChannel(g: Graph, ix: Index, h: Graph, jx: Index, b: TriggerId, channels: seq<TriggerId>, c: TriggerId)
    requires AreChannels(g, ix, b, channels) && Extends(g, ix, h, jx) && c == b + 1 + |channels|
        && IsChannel(h, jx, b, c)
    ensures AreChannels(h, jx, b, channels + [c])
  {
    forall i | 0 <= i < |channels|
      ensures IsChannel(h, jx, b, channels[i])
    {
      ChannelStays(g, ix, h, jx, b, channels[i]);
    }
    hide IsChannel;
  }

  lemma BankClosed(g: Graph, ix: Index, ranges: map<TriggerId, Range>, b: TriggerId, channels: seq<TriggerId>, cur: nat)
    requires Consistent(g, ix, ranges, {b}, cur) && b in ranges && ranges[b] == Range(b + 1, b + 1 + |channels|)
    requires AreChannels(g, ix, b, channels)
    ensures Consistent(g, ix, ranges, {}, cur)
  {
    BankIsFull(g, ix, ranges, b, channels);
  }

  class RootAssembler {
    var reactorId: nat
    var graph: Graph
    var ixById: Index
    var multiportRanges: map<TriggerId, Range>
    var curTrigger: TriggerId
    /** How many reactor ids were handed out, and the reactors whose reactions were recorded. */
    ghost var handedOut: nat
    ghost var reactors: map<nat, Declared>

    /** What holds even while the channels of a bank are created. */
    ghost predicate Dense()
      reads this
    {
      WellFormed(graph) && Indexed(graph, ixById)
          && curTrigger == TriggersBefore(graph.nodes, |graph.nodes|) <= MAX_TRIGGER
    }

    ghost predicate ValidBut(open: set<TriggerId>)
      reads this
    {
      && reactorId == handedOut % HALF && curTrigger <= MAX_TRIGGER
      && Consistent(graph, ixById, multiportRanges, open, curTrigger)
      && ReactionsAreOwned(ixById, handedOut) && AllRecorded(graph, ixById, reactors)
      && HasKind(graph, ixById, TriggerNode(STARTUP), Special) && HasKind(graph, ixById, TriggerNode(SHUTDOWN), Special)
    }

    ghost predicate Valid()
      reads this
    {
      ValidBut({})
    }

    constructor ()
      ensures Valid() && curTrigger == FIRST_REGULAR && reactorId == handedOut == 0 && reactors == map[]
      ensures graph == Graph([Node(Special, TriggerNode(STARTUP)), Node(Special, TriggerNode(SHUTDOWN))], [])
    {
      reactorId := 0;
      graph := Graph([], []);
      ixById := map[];
      multiportRanges := map[];
      curTrigger := FIRST_REGULAR;
      handedOut, reactors := 0, map[];
      new;
      NodeRecorded(graph, ixById, multiportRanges, {}, 0, Node(Special, TriggerNode(STARTUP)));
      var _ := Record(TriggerNode(STARTUP), Special);
      NodeRecorded(graph, ixById, multiportRanges, {}, 1, Node(Special, TriggerNode(SHUTDOWN)));
      var _ := Record(TriggerNode(SHUTDOWN), Special);
    }

    /** A second node with the same id makes the source panic. */
    method Record(id: GraphId, kind: NodeKind) returns (n: nat)
      requires id !in ixById
      modifies this`graph, this`ixById
      ensures n == |old(graph).nodes|
      ensures graph == WithNode(old(graph), Node(kind, id)) && ixById == old(ixById)[id := n]
    {
      n := |graph.nodes|;
      graph := Graph(graph.nodes + [Node(kind, id)], graph.edges);
      ixById := ixById[id := n];
    }

    method AddEdge(src: nat, dst: nat, weight: EdgeWeight)
      modifies this`graph
      ensures graph == WithEdge(old(graph), Edge(src, dst, weight))
    {
      graph := Graph(graph.nodes, graph.edges + [Edge(src, dst, weight)]);
    }

    /** `get_and_incr`, whose overflow makes the caller panic. */
    method NextCompId() returns (r: Option<TriggerId>)
      modifies this`curTrigger
      ensures r.Some? <==> old(curTrigger) < MAX_TRIGGER
      ensures r.Some? ==> r.value == old(curTrigger) && curTrigger == old(curTrigger) + 1
      ensures r.None? ==> curTrigger == old(curTrigger)
    {
      var id := curTrigger;
      var next := Next(id);
      if next.None? {
        return None;
      }
      curTrigger := next.value;
      r := Some(id);
    }

    /** `new_port`, `new_logical_action`, `new_physical_action`, `new_timer`. */
    method NewComponent(kind: NodeKind) returns (r: Outcome<TriggerId>)
      requires Valid() && kind in {NodeKind.Port, Action, Timer}
      modifies this
      ensures r == if old(curTrigger) < MAX_TRIGGER then Done(old(curTrigger)) else Panic
      ensures r.Done? ==> Valid() && graph == WithNode(old(graph), Node(kind, TriggerNode(r.value)))
      ensures r.Done? ==> Extends(old(graph), old(ixById), graph, ixById)
      ensures r.Done? ==> HasKind(graph, ixById, TriggerNode(r.value), kind)
      ensures multiportRanges == old(multiportRanges) && reactorId == old(reactorId)
      ensures handedOut == old(handedOut) && reactors == old(reactors)
    {
      hide WellFormed, Indexed, BanksAreFull, BanksAreProper, TriggersBefore, RecordsReactor;
      var id := NextCompId();
      if id.None? {
        return Panic;
      }
      CurrentIsFresh(graph, ixById, id.value);
      NodeRecorded(graph, ixById, multiportRanges, {}, id.value, Node(kind, TriggerNode(id.value)));
      ghost var h, jx := WithNode(graph, Node(kind, TriggerNode(id.value))),
          ixById[TriggerNode(id.value) := |graph.nodes|];
      KindStays(graph, ixById, h, jx, TriggerNode(STARTUP), Special);
      KindStays(graph, ixById, h, jx, TriggerNode(SHUTDOWN), Special);
      RecordsStay(graph, ixById, h, jx, reactors);
      hide Consistent, Extends, AllRecorded;
      var _ := Record(TriggerNode(id.value), kind);
      r := Done(id.value);
    }

    /** `new_port_bank_component` */
    method NewPortBankComponent(bank: TriggerId) returns (r: Option<TriggerId>)
      requires Dense() && HasKind(graph, ixById, TriggerNode(bank), MultiportUpstream)
      modifies this`graph, this`ixById, this`curTrigger
      ensures r == if old(curTrigger) < MAX_TRIGGER then Some(old(curTrigger)) else None
      ensures r.Some? ==> Dense() && curTrigger == old(curTrigger) + 1
      ensures r.Some? ==> graph == WithEdge(WithNode(old(graph), Node(NodeKind.Port, TriggerNode(r.value))),
                                            Edge(old(ixById)[TriggerNode(bank)], |old(graph).nodes|, Default))
      ensures r.Some? ==> Extends(old(graph), old(ixById), graph, ixById) && IsChannel(graph, ixById, bank, r.value)
      ensures r.Some? && old(ValidBut({bank})) && InRangeOf(multiportRanges, bank, r.value) ==> ValidBut({bank})
    {
      hide WellFormed, Indexed, BanksAreFull, BanksAreProper, TriggersBefore, RecordsReactor, AllRecorded;
      r := NextCompId();
      if r.None? {
        return;
      }
      var node := Node(NodeKind.Port, TriggerNode(r.value));
      ghost var g, ix := graph, ixById;
      ghost var h, jx := WithNode(g, node), ix[node.id := |g.nodes|];
      CurrentIsFresh(g, ix, r.value);
      NodeKeepsWellFormed(g, ix, node);
      var n := Record(node.id, node.kind);
      ghost var e := Edge(ixById[TriggerNode(bank)], n, Default);
      AddEdge(ixById[TriggerNode(bank)], n, Default);
      ChannelAdded(g, ix, h, jx, bank, r.value, e, graph);
      if old(ValidBut({bank})) && InRangeOf(multiportRanges, bank, r.value) {
        ComponentAdded(g, ix, multiportRanges, bank, r.value, e, reactors);
        hide Consistent, HasKind;
      }
    }

    /** The loop of `new_multiport`. */
    method NewChannels(b: TriggerId, len: nat, ghost range: Range) returns (r: Option<seq<TriggerId>>)
      requires Dense() && HasKind(graph, ixById, TriggerNode(b), MultiportUpstream) && curTrigger == b + 1
      requires range == Range(b + 1, b + 1 + len) ==>
          ValidBut({b}) && b in multiportRanges && multiportRanges[b] == range
      modifies this`graph, this`ixById, this`curTrigger
      ensures r.Some? <==> b + 1 + len <= MAX_TRIGGER
      ensures r.Some? ==> Extends(old(graph), old(ixById), graph, ixById) && curTrigger == b + 1 + len
      ensures r.Some? ==> |r.value| == len && AreChannels(graph, ixById, b, r.value)
      ensures r.Some? && range == Range(b + 1, b + 1 + len) ==> ValidBut({b})
      ensures r.Some? ==> |graph.nodes| == |old(graph).nodes| + len && |graph.edges| == |old(graph).edges| + len
    {
      hide WellFormed, Indexed, BanksAreFull, BanksAreProper, TriggersBefore, RecordsReactor, AllRecorded, Consistent,
        HasKind, AreChannels;
      var channels := [];
      NoChannels(graph, ixById, b);
      while |channels| < len
        invariant |channels| <= len && Dense() && curTrigger == b + 1 + |channels|
        invariant range == Range(b + 1, b + 1 + len) ==> ValidBut({b})
        invariant HasKind(graph, ixById, TriggerNode(b), MultiportUpstream)
        invariant Extends(old(graph), old(ixById), graph, ixById) && AreChannels(graph, ixById, b, channels)
        invariant |graph.nodes| == |old(graph).nodes| + |channels| && |graph.edges| == |old(graph).edges| + |channels|
      {
        ghost var before, jx := graph, ixById;
        var channel := NewPortBankComponent(b);
        if channel.None? {
          return None;
        }
        OneMoreChannel(before, jx, graph, ixById, b, channels, channel.value);
        KindStays(before, jx, graph, ixById, TriggerNode(b), MultiportUpstream);
        channels := channels + [channel.value];
      }
      r := Some(channels);
    }

    /** `new_multiport`, with `record_port_bank`. */
    method NewMultiport(len: nat) returns (r: Outcome<(TriggerId, seq<TriggerId>)>)
      requires Valid()
      modifies this
      ensures r.Done? <==> 0 < len && old(curTrigger) + 1 + len <= MAX_TRIGGER
      ensures r.Rejected? <==>
        && 0 < len && old(curTrigger) < MAX_TRIGGER
        && old(curTrigger) + (1 + len % (MAX_TRIGGER + 1)) % (MAX_TRIGGER + 1) > MAX_TRIGGER
      ensures r.Rejected? ==> r.error == IdOverflow
      ensures r.Done? ==> Valid() && Extends(old(graph), old(ixById), graph, ixById)
      ensures r.Done? ==> r.value.0 == old(curTrigger) && curTrigger == r.value.0 + 1 + len
      ensures r.Done? ==> |r.value.1| == len && AreChannels(graph, ixById, r.value.0, r.value.1)
      ensures r.Done? ==>
          multiportRanges == old(multiportRanges)[r.value.0 := Range(r.value.0 + 1, r.value.0 + 1 + len)]
      ensures r.Done? ==> |graph.nodes| == |old(graph).nodes| + 1 + len && |graph.edges| == |old(graph).edges| + len
      ensures handedOut == old(handedOut) && reactors == old(reactors)
    {
      hide WellFormed, Indexed, BanksAreFull, BanksAreProper, TriggersBefore, RecordsReactor, AllRecorded, AreChannels;
      var bank := NextCompId();
      if bank.None? || len == 0 {
        return Panic;
      }
      var b, range := bank.value, NextRange(bank.value, len);
      BankAdded(graph, ixById, multiportRanges, b, range.GetOr(Range(0, 0)), reactors);
      var _ := Record(TriggerNode(b), MultiportUpstream);
      if range.None? {
        return Rejected(IdOverflow);
      }
      multiportRanges := multiportRanges[b := range.value];
      assert ValidBut({b}) && Dense();
      var channels := NewChannels(b, len, range.value);
      if channels.None? {
        return Panic;
      }
      BankClosed(graph, ixById, multiportRanges, b, channels.value, curTrigger);
      hide Consistent, HasKind;
      r := Done((b, channels.value));
    }

    /** An edge from a trigger that is not a bank. */
    method AddDependency(trigger: TriggerId, reaction: ReactionId, weight: EdgeWeight)
      requires Valid() && TriggerNode(trigger) in ixById && ReactionNode(reaction) in ixById
      requires graph.nodes[ixById[TriggerNode(trigger)]].kind != MultiportUpstream
      modifies this`graph
      ensures Valid()
      ensures graph == WithEdge(old(graph), Edge(ixById[TriggerNode(trigger)], ixById[ReactionNode(reaction)], weight))
    {
      hide WellFormed, BanksAreProper, BanksAreFull, TriggersBefore, AllRecorded, RecordsReactor;
      ReactionHasKind(graph, ixById, reaction);
      var e := Edge(ixById[TriggerNode(trigger)], ixById[ReactionNode(reaction)], weight);
      EdgeRecorded(graph, ixById, multiportRanges, {}, curTrigger, e);
      RecordsStay(graph, ixById, WithEdge(graph, e), ixById, reactors);
      AddEdge(e.src, e.dst, e.weight);
    }

    /** The loop of `trigger_to_reaction_edge` over the channels of a bank. */
    method AddChannelDependencies(range: Range, reaction: ReactionId, weight: EdgeWeight)
      requires Valid() && ReactionNode(reaction) in ixById
      requires forall c | range.start <= c < range.end :: HasKind(graph, ixById, TriggerNode(c), NodeKind.Port)
      modifies this`graph
      ensures Valid() && graph.nodes == old(graph).nodes
      ensures graph.edges == old(graph).edges + ChannelEdges(ixById, range.start, range.end, reaction, weight)
    {
      hide Consistent;
      var channel := range.start;
      while channel < range.end
        invariant range.start <= channel && (channel <= range.end || channel == range.start)
        invariant Valid() && graph.nodes == old(graph).nodes
        invariant graph.edges == old(graph).edges + ChannelEdges(ixById, range.start, channel, reaction, weight)
      {
        assert old(HasKind(graph, ixById, TriggerNode(channel), NodeKind.Port));
        AddDependency(channel, reaction, weight);
        channel := channel + 1;
      }
    }

    /** `trigger_to_reaction_edge`; ids that were not recorded make the source panic. */
    method TriggerToReactionEdge(trigger: TriggerId, reaction: ReactionId, weight: EdgeWeight)
      requires Valid() && TriggerNode(trigger) in ixById && ReactionNode(reaction) in ixById
      modifies this`graph
      ensures Valid() && graph.nodes == old(graph).nodes
      ensures graph.edges == old(graph).edges +
          DependencyEdges(old(graph), ixById, multiportRanges, trigger, reaction, weight)
      ensures Depends(old(graph), graph, ixById, multiportRanges, trigger, reaction, weight)
    {
      hide Depends;
      DependencyAdded(graph, ixById, multiportRanges, curTrigger, trigger, reaction, weight);
      var triggerIx := ixById[TriggerNode(trigger)];
      if graph.nodes[triggerIx].kind == MultiportUpstream {
        BankHasRange(graph, ixById, multiportRanges, trigger);
        hide WellFormed, TriggersBefore, BanksAreProper, BanksAreFull, Extends;
        var range := multiportRanges[trigger];
        forall c | range.start <= c < range.end
          ensures HasKind(graph, ixById, TriggerNode(c), NodeKind.Port)
        {
          ChannelOf(graph, ixById, multiportRanges, trigger, c);
        }
        AddChannelDependencies(range, reaction, weight);
      } else {
        AddDependency(trigger, reaction, weight);
      }
    }

    /** `reaction_effects` */
    method ReactionEffects(reaction: ReactionId, trigger: TriggerId)
      requires Valid() && TriggerNode(trigger) in ixById && ReactionNode(reaction) in ixById
      modifies this`graph
      ensures Valid()
      ensures graph == WithEdge(old(graph), Edge(ixById[ReactionNode(reaction)], ixById[TriggerNode(trigger)], Default))
    {
      var e := Edge(ixById[ReactionNode(reaction)], ixById[TriggerNode(trigger)], Default);
      EdgeRecorded(graph, ixById, multiportRanges, {}, curTrigger, e);
      RecordsStay(graph, ixById, WithEdge(graph, e), ixById, reactors);
      hide Consistent, AllRecorded, Extends;
      AddEdge(e.src, e.dst, e.weight);
    }

    /** `port_bind` */
    method PortBind(p: TriggerId, q: TriggerId)
      requires Valid() && HasKind(graph, ixById, TriggerNode(p), NodeKind.Port)
      requires HasKind(graph, ixById, TriggerNode(q), NodeKind.Port)
      modifies this`graph
      ensures Valid()
      ensures graph == WithEdge(old(graph), Edge(ixById[TriggerNode(p)], ixById[TriggerNode(q)], Default))
    {
      var e := Edge(ixById[TriggerNode(p)], ixById[TriggerNode(q)], Default);
      EdgeRecorded(graph, ixById, multiportRanges, {}, curTrigger, e);
      RecordsStay(graph, ixById, WithEdge(graph, e), ixById, reactors);
      hide Consistent, AllRecorded, Extends;
      AddEdge(e.src, e.dst, e.weight);
    }

    /** `get_and_incr` of a reactor id, which wraps around where overflow checks are off. */
    method NextReactorId() returns (id: nat)
      requires Valid()
      modifies this`reactorId, this`handedOut
      ensures Valid() && id == old(reactorId) && handedOut == old(handedOut) + 1 && id < HALF && id < handedOut
      ensures old(handedOut) < HALF ==> LocalsBelow(ixById, id, 0)
    {
      hide Consistent, AllRecorded;
      id := reactorId;
      reactorId := (reactorId + 1) % HALF;
      handedOut := handedOut + 1;
    }

    /** `record_reaction` */
    method RecordReaction(r: ReactionId)
      requires Valid() && ReactionNode(r) !in ixById && r % HALF < handedOut && r % HALF !in reactors
      modifies this`graph, this`ixById
      ensures Valid() && ixById == old(ixById)[ReactionNode(r) := |old(graph).nodes|]
      ensures graph == WithNode(old(graph), Node(Reaction, ReactionNode(r)))
    {
      hide WellFormed, Indexed, BanksAreFull, BanksAreProper, TriggersBefore;
      NodeRecorded(graph, ixById, multiportRanges, {}, curTrigger, Node(Reaction, ReactionNode(r)));
      ghost var h, jx := WithNode(graph, Node(Reaction, ReactionNode(r))), ixById[ReactionNode(r) := |graph.nodes|];
      KindStays(graph, ixById, h, jx, TriggerNode(STARTUP), Special);
      KindStays(graph, ixById, h, jx, TriggerNode(SHUTDOWN), Special);
      RecordsStay(graph, ixById, h, jx, reactors);
      hide Consistent, Extends, AllRecorded;
      var _ := Record(ReactionNode(r), Reaction);
    }

    /** `reaction_priority` */
    method ReactionPriority(r: ReactionId, s: ReactionId)
      requires Valid() && ReactionNode(r) in ixById && ReactionNode(s) in ixById
      modifies this`graph
      ensures Valid()
      ensures graph == WithEdge(old(graph), Edge(ixById[ReactionNode(r)], ixById[ReactionNode(s)], Default))
    {
      hide WellFormed, Indexed, BanksAreFull, BanksAreProper, TriggersBefore;
      ReactionHasKind(graph, ixById, r);
      ReactionHasKind(graph, ixById, s);
      var e := Edge(ixById[ReactionNode(r)], ixById[ReactionNode(s)], Default);
      EdgeRecorded(graph, ixById, multiportRanges, {}, curTrigger, e);
      RecordsStay(graph, ixById, WithEdge(graph, e), ixById, reactors);
      AddEdge(e.src, e.dst, e.weight);
    }

    /** `new_reactions` */
    method NewReactions(myId: nat, numNonSynthetic: nat, n: nat) returns (result: seq<ReactionId>)
      requires Valid() && myId < HALF && myId < handedOut && LocalsBelow(ixById, myId, 0)
          && numNonSynthetic <= n <= HALF
      modifies this`graph, this`ixById, this`reactors
      ensures Valid() && Extends(old(graph), old(ixById), graph, ixById)
      ensures graph == Graph(old(graph).nodes + ReactionNodes(myId, n),
                             old(graph).edges + PriorityEdges(|old(graph).nodes|,
                                 if numNonSynthetic > 0 then numNonSynthetic - 1 else 0))
      ensures |result| == n && forall i | 0 <= i < n ::
          result[i] == Global(myId, i) && ReactionNode(result[i]) in ixById
      ensures reactors == old(reactors)[myId := Declared(numNonSynthetic, n)]
    {
      hide Consistent, Global, AllRecorded;
      FewerRecorded(graph, ixById, reactors, myId);
      reactors := reactors - {myId};
      result := [];
      var prev: Option<ReactionId> := None;
      var i := 0;
      assert LinksAmong(n, numNonSynthetic) == if numNonSynthetic > 0 then numNonSynthetic - 1 else 0;
      hide ReactionNodes, PriorityEdges, LinksAmong, LocalsBelow;
      NoReactionYet(graph, ixById, myId, numNonSynthetic);
      while i < n
        invariant 0 <= i <= n && Valid() && LocalsBelow(ixById, myId, i) && reactors == old(reactors) - {myId}
        invariant HasGrown(old(graph), old(ixById), graph, ixById, myId, i, numNonSynthetic, result)
        invariant prev == if i == 0 then None else Some(result[i - 1])
      {
        ghost var g, ix, next := graph, ixById, i + 1;
        var r := Global(myId, i);
        GlobalParts(myId, i);
        hide HasGrown;
        RecordReaction(r);
        OneMoreLocal(ix, ixById, myId, i, next, r, |g.nodes|);
        if i < numNonSynthetic && prev.Some? {
          PreviousIsNumbered(old(graph), old(ixById), g, ix, myId, i, numNonSynthetic, result, r);
          ReactionPriority(prev.value, r);
        }
        OneMoreReaction(old(graph), old(ixById), g, ix, graph, ixById, myId, i, next, numNonSynthetic, result, r);
        prev := Some(r);
        result := result + [r];
        i := i + 1;
      }
      assert forall k | 0 <= k < n :: IsNumbered(ixById, result[k], |old(graph).nodes| + k);
      ChainIsPriority(graph, ixById, myId, numNonSynthetic, old(graph).edges, |old(graph).nodes|);
      OneMoreRecorded(graph, ixById, reactors, myId, numNonSynthetic, n, result);
      reactors := reactors[myId := Declared(numNonSynthetic, n)];
    }
  }

  // ------------------------------------------------------------------------------------------------- what follows

  lemma BankHasRange(g: Graph, ix: Index, ranges: map<TriggerId, Range>, b: TriggerId)
    requires InRange(g) && BanksAreProper(g, ranges) && HasKind(g, ix, TriggerNode(b), MultiportUpstream)
    ensures b in ranges
  {
    assert g.nodes[ix[TriggerNode(b)]].id.trigger in ranges;
  }

  /** What an edge out of a bank leads to. */
  lemma EdgeOfBank(g: Graph, ix: Index, ranges: map<TriggerId, Range>, b: TriggerId, e: Edge) returns (c: TriggerId)
    requires InRange(g) && Indexed(g, ix) && BanksAreProper(g, ranges)
    requires HasKind(g, ix, TriggerNode(b), MultiportUpstream) && e in g.edges && e.src == ix[TriggerNode(b)]
    ensures b in ranges && ranges[b].start <= c < ranges[b].end && TriggerNode(c) in ix && ix[TriggerNode(c)] == e.dst
  {
    BankHasRange(g, ix, ranges, b);
    c := g.nodes[e.dst].id.trigger;
  }

  /** A dependency on a bank adds the edges that dependencies on its channels would add. */
  lemma BankIsItsChannels(g: Graph, ix: Index, ranges: map<TriggerId, Range>, b: TriggerId, c: TriggerId,
                          reaction: ReactionId, weight: EdgeWeight)
    requires BanksAreFull(g, ix, ranges, {}) && HasKind(g, ix, TriggerNode(b), MultiportUpstream)
    requires InRangeOf(ranges, b, c) && ReactionNode(reaction) in ix
    ensures HasKind(g, ix, TriggerNode(c), NodeKind.Port)
    ensures |DependencyEdges(g, ix, ranges, b, reaction, weight)| == ranges[b].end - ranges[b].start
    ensures [DependencyEdges(g, ix, ranges, b, reaction, weight)[c - ranges[b].start]] ==
            DependencyEdges(g, ix, ranges, c, reaction, weight)
  {
    assert IsChannel(g, ix, b, c);
    var range := ranges[b];
    var e := Edge(ix[TriggerNode(c)], ix[ReactionNode(reaction)], weight);
    assert DependencyEdges(g, ix, ranges, c, reaction, weight) == [e];
    assert ChannelEdges(ix, range.start, range.end, reaction, weight)[c - range.start] == e;
  }

  lemma ChannelTriggers(g: Graph, ix: Index, b: TriggerId, c: TriggerId, r: nat)
    requires InRange(g) && IsChannel(g, ix, b, c) && Triggers(g, ix[TriggerNode(c)], r)
    ensures Triggers(g, ix[TriggerNode(b)], r)
  {
    var e :| e in g.edges && e.src == ix[TriggerNode(b)] && e.dst == ix[TriggerNode(c)];
    EdgeStartsTriggerPath(g, e, r);
  }

  lemma BankTriggersChannel(g: Graph, ix: Index, ranges: map<TriggerId, Range>, b: TriggerId, r: nat)
      returns (c: TriggerId)
    requires InRange(g) && Indexed(g, ix) && BanksAreProper(g, ranges) && BanksAreFull(g, ix, ranges, {})
    requires HasKind(g, ix, TriggerNode(b), MultiportUpstream) && Triggers(g, ix[TriggerNode(b)], r)
    ensures b in ranges && ranges[b].start <= c < ranges[b].end && HasKind(g, ix, TriggerNode(c), NodeKind.Port)
    ensures Triggers(g, ix[TriggerNode(c)], r)
  {
    hide Triggers;
    FirstEdgeOfTriggerPath(g, ix[TriggerNode(b)], r);
    var e :| e in g.edges && e.src == ix[TriggerNode(b)] && Via(g, e, r);
    c := EdgeOfBank(g, ix, ranges, b, e);
    assert IsChannel(g, ix, b, c);
  }

  lemma PlanOf(g: Graph, ix: Index, lvl: map<ReactionId, nat>, plans: seq<Plan>, t: TriggerId)
    requires Indexed(g, ix) && Compiled(g, lvl, plans) && TriggerNode(t) in ix
    ensures ix[TriggerNode(t)] < |g.nodes| && t < |plans|
    ensures Slots(plans[t]) == TriggeredSlots(g, lvl, ix[TriggerNode(t)])
  {
    assert IsTrigger(g, ix[TriggerNode(t)]);
    assert IsPlanOf(g, lvl, ix[TriggerNode(t)], plans[t]);
  }

  /** In the compiled tables the plan of a bank is the union of the plans of its channels. */
  lemma BankPlan(g: Graph, ix: Index, ranges: map<TriggerId, Range>, cur: nat, lvl: map<ReactionId, nat>,
                 plans: seq<Plan>, b: TriggerId, s: Slot)
    requires Consistent(g, ix, ranges, {}, cur) && HasKind(g, ix, TriggerNode(b), MultiportUpstream)
    requires Compiled(g, lvl, plans)
    ensures b < |plans|
    ensures s in Slots(plans[b]) <==> exists c: nat :: c < |plans| && InRangeOf(ranges, b, c) && s in Slots(plans[c])
  {
    assert InRange(g) && Numbered(g, lvl);
    hide IsChannel, Triggers, Indexed, BanksAreProper, BanksAreFull, WellFormed, Compiled;
    PlanOf(g, ix, lvl, plans, b);
    if s in Slots(plans[b]) {
      var r: nat :| r < |g.nodes| && IsReaction(g, r) && Triggers(g, ix[TriggerNode(b)], r) && s == SlotOf(g, lvl, r);
      var c := BankTriggersChannel(g, ix, ranges, b, r);
      PlanOf(g, ix, lvl, plans, c);
      assert InRangeOf(ranges, b, c) && s in Slots(plans[c]);
    }
    if c: nat :| c < |plans| && InRangeOf(ranges, b, c) && s in Slots(plans[c]) {
      ChannelOf(g, ix, ranges, b, c);
      PlanOf(g, ix, lvl, plans, c);
      var r: nat :| r < |g.nodes| && IsReaction(g, r) && Triggers(g, ix[TriggerNode(c)], r) && s == SlotOf(g, lvl, r);
      ChannelTriggers(g, ix, b, c, r);
    }
  }

  lemma LevelOfReaction(g: Graph, ix: Index, lvl: map<ReactionId, nat>, r: ReactionId)
    requires WellFormed(g) && Indexed(g, ix) && Numbered(g, lvl) && ReactionNode(r) in ix
    ensures ix[ReactionNode(r)] < |g.nodes| && r in lvl && IsDepth(g, ix[ReactionNode(r)], lvl[r])
  {
    assert IsReaction(g, ix[ReactionNode(r)]);
  }

  /** User-declared reactions of one reactor have levels in the order of their declaration, so no two share a level. */
  lemma {:induction false} DeclarationOrder(g: Graph, ix: Index, reactor: nat, n: nat, lvl: map<ReactionId, nat>,
      i: nat, j: nat)
    requires WellFormed(g) && Indexed(g, ix) && Prioritised(g, ix, reactor, n) && Numbered(g, lvl) && i < j < n
    ensures Global(reactor, i) in lvl && Global(reactor, j) in lvl && lvl[Global(reactor, i)] < lvl[Global(reactor, j)]
    decreases j
  {
    hide Global, WellFormed, Indexed, Numbered, IsDepth;
    var k := j - 1;
    assert Precedes(g, ix, Global(reactor, k), Global(reactor, j));
    LevelOfReaction(g, ix, lvl, Global(reactor, k));
    LevelOfReaction(g, ix, lvl, Global(reactor, j));
    var u, v := ix[ReactionNode(Global(reactor, k))], ix[ReactionNode(Global(reactor, j))];
    DepthGrows(g, u, v, lvl[Global(reactor, k)], lvl[Global(reactor, j)]);
    if i < k {
      DeclarationOrder(g, ix, reactor, n, lvl, i, k);
    }
  }
}
