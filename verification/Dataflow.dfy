/**
 `DataflowInfo` of `src/scheduler/dependencies.rs`: the levels of the reactions, and for each trigger the plan of the
 reactions it triggers, found by a recursive walk through ports.
 */
module Dataflow {
  import opened Wrappers
  import opened VecMaps
  import opened Plans
  import opened Graphs

  datatype AssemblyError = CyclicDependencyGraph | IdOverflow

  ghost predicate IsReaction(g: Graph, n: nat) {
    n < |g.nodes| && g.nodes[n].kind == Reaction && g.nodes[n].id.ReactionNode?
  }

  ghost predicate IsTrigger(g: Graph, n: nat) {
    n < |g.nodes| && g.nodes[n].id.TriggerNode?
  }

  function TriggersBefore(nodes: seq<Node>, k: nat): nat
    requires k <= |nodes|
  {
    if k == 0 then 0 else TriggersBefore(nodes, k - 1) + if nodes[k - 1].id.TriggerNode? then 1 else 0
  }

  ghost predicate NodesAreProper(nodes: seq<Node>) {
    && (forall n: nat | n < |nodes| :: nodes[n].kind == Reaction <==> nodes[n].id.ReactionNode?)
    && (forall m: nat, n: nat | m < n < |nodes| :: nodes[m].id != nodes[n].id)
       // trigger ids are allocated densely, in the order in which the triggers are recorded
    && (forall n: nat | n < |nodes| && nodes[n].id.TriggerNode? :: nodes[n].id.trigger == TriggersBefore(nodes, n))
  }

  /** What assembly guarantees of the finished graph. */
  ghost predicate WellFormed(g: Graph) {
    && InRange(g) && NodesAreProper(g.nodes)
       // what a trigger leads to is a port or a reaction
    && (forall e | e in g.edges && IsTrigger(g, e.src) :: g.nodes[e.dst].kind in {NodeKind.Port, NodeKind.Reaction})
  }

  /** The edge makes its source trigger its target, rather than let the target use it. */
  ghost predicate TriggerEdge(g: Graph, u: nat, v: nat) {
    exists e :: e in g.edges && e.src == u && e.dst == v && e.weight != Use
  }

  /** A path from a trigger to a reaction that passes only through ports and does not end in a `Use` edge. */
  ghost predicate IsTriggerPath(g: Graph, p: seq<nat>) {
    && |p| >= 2
    && (forall i | 0 <= i < |p| :: p[i] < |g.nodes|)
    && (forall i | 0 < i < |p| - 1 :: HasEdge(g, p[i - 1], p[i]) && g.nodes[p[i]].kind == NodeKind.Port)
    && IsReaction(g, p[|p| - 1])
    && TriggerEdge(g, p[|p| - 2], p[|p| - 1])
  }

  ghost predicate Triggers(g: Graph, t: nat, r: nat) {
    exists p :: IsTriggerPath(g, p) && p[0] == t && p[|p| - 1] == r
  }

  /** What one edge out of a trigger contributes. */
  ghost predicate Via(g: Graph, e: Edge, r: nat)
    requires e.dst < |g.nodes|
  {
    || (g.nodes[e.dst].kind == NodeKind.Port && Triggers(g, e.dst, r))
    || (e.weight != Use && e.dst == r && IsReaction(g, r))
  }

  ghost predicate Numbered(g: Graph, lvl: map<ReactionId, nat>) {
    forall n: nat | IsReaction(g, n) :: g.nodes[n].id.reaction in lvl && IsDepth(g, n, lvl[g.nodes[n].id.reaction])
  }

  ghost function SlotOf(g: Graph, lvl: map<ReactionId, nat>, r: nat): Slot
    requires Numbered(g, lvl) && IsReaction(g, r)
  {
    Slot(lvl[g.nodes[r].id.reaction], g.nodes[r].id.reaction)
  }

  /** The plan a trigger must have: the reactions it triggers, each at its own level. */
  ghost function TriggeredSlots(g: Graph, lvl: map<ReactionId, nat>, t: nat): set<Slot>
    requires Numbered(g, lvl)
  {
    set r: nat | r < |g.nodes| && IsReaction(g, r) && Triggers(g, t, r) :: SlotOf(g, lvl, r)
  }

  ghost function ViaSlots(g: Graph, lvl: map<ReactionId, nat>, e: Edge): set<Slot>
    requires Numbered(g, lvl) && e.dst < |g.nodes|
  {
    set r: nat | r < |g.nodes| && IsReaction(g, r) && Via(g, e, r) :: SlotOf(g, lvl, r)
  }

  /** The part of `TriggeredSlots` that the edges from index `k` on contribute. */
  ghost function PartialSlots(g: Graph, lvl: map<ReactionId, nat>, t: nat, k: nat): set<Slot>
    requires InRange(g) && Numbered(g, lvl) && k <= |g.edges|
    decreases |g.edges| - k
  {
    if k == |g.edges| then {}
    else PartialSlots(g, lvl, t, k + 1) + if g.edges[k].src == t then ViaSlots(g, lvl, g.edges[k]) else {}
  }

  // ---------------------------------------------------------------------------------------------- trigger paths

  lemma FirstEdgeOfTriggerPath(g: Graph, t: nat, r: nat)
    requires InRange(g) && t < |g.nodes| && Triggers(g, t, r)
    ensures exists e :: e in g.edges && e.src == t && Via(g, e, r)
  {
    var p :| IsTriggerPath(g, p) && p[0] == t && p[|p| - 1] == r;
    if |p| == 2 {
      var e :| e in g.edges && e.src == t && e.dst == r && e.weight != Use;
      assert Via(g, e, r);
    } else {
      var e :| e in g.edges && e.src == t && e.dst == p[1];
      var q := p[1..];
      assert IsTriggerPath(g, q) && q[0] == e.dst && q[|q| - 1] == r;
      assert Via(g, e, r);
    }
  }

  lemma EdgeStartsTriggerPath(g: Graph, e: Edge, r: nat)
    requires InRange(g) && e in g.edges && Via(g, e, r)
    ensures Triggers(g, e.src, r)
  {
    var t := e.src;
    if g.nodes[e.dst].kind == NodeKind.Port && Triggers(g, e.dst, r) {
      var q :| IsTriggerPath(g, q) && q[0] == e.dst && q[|q| - 1] == r;
      var p := [t] + q;
      assert HasEdge(g, t, e.dst);
      assert forall i | 0 < i < |p| :: p[i] == q[i - 1];
      assert IsTriggerPath(g, p) && p[0] == t && p[|p| - 1] == r;
    } else {
      assert TriggerEdge(g, t, r);
      assert IsTriggerPath(g, [t, r]);
    }
  }

  lemma InPartialSlots(g: Graph, lvl: map<ReactionId, nat>, t: nat, k: nat, s: Slot)
    requires InRange(g) && Numbered(g, lvl) && k <= |g.edges|
    ensures s in PartialSlots(g, lvl, t, k) <==>
            exists i :: k <= i < |g.edges| && g.edges[i].src == t && s in ViaSlots(g, lvl, g.edges[i])
    decreases |g.edges| - k
  {
    if k < |g.edges| {
      InPartialSlots(g, lvl, t, k + 1, s);
    }
  }

  lemma TriggeredIsTaken(g: Graph, lvl: map<ReactionId, nat>, t: nat, r: nat)
    requires InRange(g) && Numbered(g, lvl) && t < |g.nodes| && IsReaction(g, r) && Triggers(g, t, r)
    ensures SlotOf(g, lvl, r) in PartialSlots(g, lvl, t, 0)
  {
    FirstEdgeOfTriggerPath(g, t, r);
    var e :| e in g.edges && e.src == t && Via(g, e, r);
    var i :| 0 <= i < |g.edges| && g.edges[i] == e;
    assert SlotOf(g, lvl, r) in ViaSlots(g, lvl, g.edges[i]);
    InPartialSlots(g, lvl, t, 0, SlotOf(g, lvl, r));
  }

  lemma TakenIsTriggered(g: Graph, lvl: map<ReactionId, nat>, t: nat, s: Slot)
    requires InRange(g) && Numbered(g, lvl) && t < |g.nodes| && s in PartialSlots(g, lvl, t, 0)
    ensures s in TriggeredSlots(g, lvl, t)
  {
    InPartialSlots(g, lvl, t, 0, s);
    var i :| 0 <= i < |g.edges| && g.edges[i].src == t && s in ViaSlots(g, lvl, g.edges[i]);
    var r: nat :| r < |g.nodes| && IsReaction(g, r) && Via(g, g.edges[i], r) && s == SlotOf(g, lvl, r);
    EdgeStartsTriggerPath(g, g.edges[i], r);
  }

  lemma AllEdgesTaken(g: Graph, lvl: map<ReactionId, nat>, t: nat)
    requires InRange(g) && Numbered(g, lvl) && t < |g.nodes|
    ensures PartialSlots(g, lvl, t, 0) == TriggeredSlots(g, lvl, t)
  {
    forall r: nat | r < |g.nodes| && IsReaction(g, r) && Triggers(g, t, r)
      ensures SlotOf(g, lvl, r) in PartialSlots(g, lvl, t, 0)
    {
      TriggeredIsTaken(g, lvl, t, r);
    }
    forall s | s in PartialSlots(g, lvl, t, 0)
      ensures s in TriggeredSlots(g, lvl, t)
    {
      TakenIsTriggered(g, lvl, t, s);
    }
  }

  // ---------------------------------------------------------------------------------------------- the walk

  /** `collect_reactions_rec`; an acyclic graph makes it end, because it only walks forward in any order. */
  method CollectReactionsRec(g: Graph, ghost order: seq<nat>, lvl: map<ReactionId, nat>, trigger: nat,
                             reactions: ExecutableReactions)
    requires WellFormed(g) && IsTopological(g, order) && Numbered(g, lvl)
    requires IsTrigger(g, trigger) && reactions.Valid()
    modifies reactions.levels
    ensures reactions.Valid()
    ensures Slots(reactions.levels.v) == old(Slots(reactions.levels.v)) + TriggeredSlots(g, lvl, trigger)
    ensures old(Compact(reactions.levels.v)) ==> Compact(reactions.levels.v)
    decreases |order| - PositionIn(order, trigger), 1
  {
    var k := |g.edges|;
    ghost var before := Slots(reactions.levels.v);
    while k > 0
      invariant 0 <= k <= |g.edges| && reactions.Valid()
      invariant Slots(reactions.levels.v) == before + PartialSlots(g, lvl, trigger, k)
      invariant old(Compact(reactions.levels.v)) ==> Compact(reactions.levels.v)
    {
      ghost var j, w := k, Slots(reactions.levels.v);
      k := k - 1;
      if g.edges[k].src == trigger {
        CollectDownstream(g, order, lvl, trigger, g.edges[k], reactions);
      }
      OneMoreEdge(g, lvl, trigger, j, k, before, w, Slots(reactions.levels.v));
    }
    AllEdgesTaken(g, lvl, trigger);
  }

  /** The body of the loop of `collect_reactions_rec`. */
  method CollectDownstream(g: Graph, ghost order: seq<nat>, lvl: map<ReactionId, nat>, trigger: nat, downstream: Edge,
                           reactions: ExecutableReactions)
    requires WellFormed(g) && IsTopological(g, order) && Numbered(g, lvl)
    requires IsTrigger(g, trigger) && downstream in g.edges && downstream.src == trigger && reactions.Valid()
    modifies reactions.levels
    ensures reactions.Valid()
    ensures Slots(reactions.levels.v) == old(Slots(reactions.levels.v)) + ViaSlots(g, lvl, downstream)
    ensures old(Compact(reactions.levels.v)) ==> Compact(reactions.levels.v)
    decreases |order| - PositionIn(order, trigger), 0
  {
    var node := g.nodes[downstream.dst];
    if node.kind == NodeKind.Port {
      ViaPort(g, lvl, downstream);
      ForwardInOrder(g, order, trigger, downstream.dst);
      CollectReactionsRec(g, order, lvl, downstream.dst, reactions);
    } else if node.kind == Reaction {
      ViaReaction(g, lvl, downstream);
      if downstream.weight != Use {
        reactions.Insert(node.id.reaction, lvl[node.id.reaction]);
      }
    } else {
      assert false; // panic!("malformed dependency graph")
    }
  }

  lemma OneMoreEdge(g: Graph, lvl: map<ReactionId, nat>, t: nat, j: nat, k: nat,
                    before: set<Slot>, w: set<Slot>, next: set<Slot>)
    requires InRange(g) && Numbered(g, lvl) && j == k + 1 <= |g.edges|
    requires w == before + PartialSlots(g, lvl, t, j)
    requires next == w + if g.edges[k].src == t then ViaSlots(g, lvl, g.edges[k]) else {}
    ensures next == before + PartialSlots(g, lvl, t, k)
  {}

  lemma ForwardInOrder(g: Graph, order: seq<nat>, u: nat, v: nat)
    requires InRange(g) && IsTopological(g, order)
    requires exists e :: e in g.edges && e.src == u && e.dst == v
    ensures u in order && v in order && PositionIn(order, u) < PositionIn(order, v)
  {
    var e :| e in g.edges && e.src == u && e.dst == v;
    PositionsIncrease(g, order);
  }

  lemma ViaPort(g: Graph, lvl: map<ReactionId, nat>, e: Edge)
    requires WellFormed(g) && Numbered(g, lvl) && e in g.edges && IsTrigger(g, e.src) && IsTrigger(g, e.dst)
    ensures ViaSlots(g, lvl, e) == TriggeredSlots(g, lvl, e.dst)
  {
    assert g.nodes[e.dst].kind == NodeKind.Port;
    assert forall r: nat | IsReaction(g, r) :: r != e.dst;
    assert forall r: nat | IsReaction(g, r) :: Via(g, e, r) <==> Triggers(g, e.dst, r);
  }

  lemma ViaReaction(g: Graph, lvl: map<ReactionId, nat>, e: Edge)
    requires WellFormed(g) && Numbered(g, lvl) && e in g.edges && g.nodes[e.dst].id.ReactionNode?
    ensures IsReaction(g, e.dst)
    ensures ViaSlots(g, lvl, e) == if e.weight != Use then {SlotOf(g, lvl, e.dst)} else {}
  {
    assert forall r: nat | IsReaction(g, r) :: Via(g, e, r) <==> e.weight != Use && r == e.dst;
  }

  // ---------------------------------------------------------------------------------------------- the tables

  /** `plans[t]` is the plan of the trigger with id `t`. */
  ghost predicate Compiled(g: Graph, lvl: map<ReactionId, nat>, plans: seq<Plan>)
  {
    && Numbered(g, lvl)
    && |plans| == TriggersBefore(g.nodes, |g.nodes|)
    && forall n: nat | IsTrigger(g, n) ::
         && g.nodes[n].id.trigger < |plans|
         && IsPlanOf(g, lvl, n, plans[g.nodes[n].id.trigger])
  }

  ghost predicate IsPlanOf(g: Graph, lvl: map<ReactionId, nat>, n: nat, plan: Plan)
    requires Numbered(g, lvl)
  {
    ValidPlan(plan) && Compact(plan) && Slots(plan) == TriggeredSlots(g, lvl, n)
  }

  lemma {:induction false} TriggersBeforeGrows(nodes: seq<Node>, j: nat, k: nat)
    requires j <= k <= |nodes|
    ensures TriggersBefore(nodes, j) <= TriggersBefore(nodes, k)
    ensures j < k && nodes[j].id.TriggerNode? ==> TriggersBefore(nodes, j) < TriggersBefore(nodes, k)
  {
    if j < k {
      TriggersBeforeGrows(nodes, j, k - 1);
    }
  }

  lemma {:induction false} TriggerWithId(nodes: seq<Node>, k: nat, t: TriggerId) returns (n: nat)
    requires k <= |nodes| && t < TriggersBefore(nodes, k)
    ensures n < k && nodes[n].id.TriggerNode? && TriggersBefore(nodes, n) == t
  {
    if t < TriggersBefore(nodes, k - 1) {
      n := TriggerWithId(nodes, k - 1, t);
    } else {
      n := k - 1;
    }
  }

  /** `number_reactions_by_level`. */
  method NumberReactionsByLevel(g: Graph, toposort: Option<seq<nat>>)
    returns (r: Result<map<ReactionId, nat>, AssemblyError>)
    requires WellFormed(g) && IsToposort(g, toposort)
    ensures r.Failure? <==> HasCycle(g)
    ensures r.Success? ==> Numbered(g, r.value)
  {
    match toposort
    case None =>
      r := Failure(CyclicDependencyGraph);
    case Some(toposorted) =>
      OrderedIsAcyclic(g, toposorted);
      var levels := NumberNodes(g, toposorted);
      var reactionLevels: map<ReactionId, nat> := map[];
      var k := 0;
      while k < |toposorted|
        invariant 0 <= k <= |toposorted|
        invariant forall i | 0 <= i < k && IsReaction(g, toposorted[i]) ::
                    && g.nodes[toposorted[i]].id.reaction in reactionLevels
                    && reactionLevels[g.nodes[toposorted[i]].id.reaction] == levels[toposorted[i]]
      {
        var ix := toposorted[k];
        match g.nodes[ix].id {
          case ReactionNode(id) => reactionLevels := reactionLevels[id := levels[ix]];
          case TriggerNode(_) =>
        }
        k := k + 1;
      }
      forall n: nat | IsReaction(g, n)
        ensures g.nodes[n].id.reaction in reactionLevels && IsDepth(g, n, reactionLevels[g.nodes[n].id.reaction])
      {
        assert toposorted[PositionIn(toposorted, n)] == n;
      }
      r := Success(reactionLevels);
  }

  /** `collect_trigger_to_plan`: each plan is inserted at the index that is its trigger's id. */
  method CollectTriggerToPlan(g: Graph, ghost order: seq<nat>, lvl: map<ReactionId, nat>) returns (plans: seq<Plan>)
    requires WellFormed(g) && IsTopological(g, order) && Numbered(g, lvl)
    ensures Compiled(g, lvl, plans)
  {
    plans := [];
    var n := 0;
    while n < |g.nodes|
      invariant 0 <= n <= |g.nodes|
      invariant |plans| == TriggersBefore(g.nodes, n)
      invariant forall m: nat | m < n && IsTrigger(g, m) ::
                  && g.nodes[m].id.trigger < |plans|
                  && IsPlanOf(g, lvl, m, plans[g.nodes[m].id.trigger])
    {
      match g.nodes[n].id {
        case TriggerNode(id) =>
          assert IsTrigger(g, n) && id == |plans|;
          hide NodesAreProper;
          var reactions := new ExecutableReactions();
          CollectReactionsRec(g, order, lvl, n, reactions);
          ghost var before, plan := plans, reactions.levels.v;
          plans := plans[..id] + [reactions.levels.v] + plans[id..]; // IndexVec::insert
          assert plans == before + [plan];
        case ReactionNode(_) =>
      }
      n := n + 1;
    }
  }

  /** `DataflowInfo::new`. The levels are returned beside the table; the source drops them. */
  method NewDataflowInfo(g: Graph, toposort: Option<seq<nat>>)
    returns (r: Result<(map<ReactionId, nat>, seq<Plan>), AssemblyError>)
    requires WellFormed(g) && IsToposort(g, toposort)
    ensures r.Failure? <==> HasCycle(g)
    ensures r.Success? ==> Compiled(g, r.value.0, r.value.1)
  {
    var levels := NumberReactionsByLevel(g, toposort);
    match levels
    case Failure(e) => r := Failure(e);
    case Success(lvl) =>
      var plans := CollectTriggerToPlan(g, toposort.value, lvl);
      r := Success((lvl, plans));
  }
}
