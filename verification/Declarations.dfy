/**
 Declaring dependencies between components (`DependencyDeclarator` in `src/scheduler/assembly_impl.rs`): port bindings
 change both the shared cells and the graph, and the two must agree.
 */
module Declarations {
  import opened Wrappers
  import opened Plans
  import opened Graphs
  import opened Dataflow
  import opened Ports
  import opened Assembly

  /** Every binding has its edge, from a port to a port. */
  ghost predicate Mirrors(g: Graph, ix: Index, up: Bindings) {
    forall q | q in up ::
      && HasKind(g, ix, TriggerNode(q), NodeKind.Port) && HasKind(g, ix, TriggerNode(up[q]), NodeKind.Port)
      && HasEdge(g, ix[TriggerNode(up[q])], ix[TriggerNode(q)])
  }

  lemma MirrorStays(g: Graph, h: Graph, ix: Index, up: Bindings, p: PortId, q: PortId)
    requires Mirrors(g, ix, up) && HasKind(g, ix, TriggerNode(p), NodeKind.Port)
        && HasKind(g, ix, TriggerNode(q), NodeKind.Port)
    requires h == WithEdge(g, Edge(ix[TriggerNode(p)], ix[TriggerNode(q)], Default))
    ensures Mirrors(h, ix, up[q := p])
  {
    assert h.edges[|g.edges|] in h.edges;
    forall r | r in up
      ensures HasEdge(h, ix[TriggerNode(up[r])], ix[TriggerNode(r)])
    {
      EdgeStays(g, h, ix[TriggerNode(up[r])], ix[TriggerNode(r)]);
    }
  }

  /** `bind_ports`: the edge is recorded only if the cells could be bound. */
  method BindPorts(assembler: RootAssembler, ghost ports: map<PortId, Port>, ghost up: Bindings, ghost w: Wiring,
                   upstream: Port, downstream: Port) returns (r: Result<(), BindError>)
    requires assembler.Valid() && IsNetwork(ports) && Represents(ports, up, w) && upstream.id != downstream.id
    requires upstream.id in ports && ports[upstream.id] == upstream
    requires downstream.id in ports && ports[downstream.id] == downstream
    requires HasKind(assembler.graph, assembler.ixById, TriggerNode(upstream.id), NodeKind.Port)
    requires HasKind(assembler.graph, assembler.ixById, TriggerNode(downstream.id), NodeKind.Port)
    requires Mirrors(assembler.graph, assembler.ixById, up)
    modifies assembler`graph, downstream`bound, Refs(ports), Cells(ports)`downstreams
    ensures assembler.Valid() && IsWired(w, upstream.id) && IsWired(w, downstream.id)
    ensures r.Failure? ==> assembler.graph == old(assembler.graph)
    ensures r.Success? ==> Represents(ports, up[downstream.id := upstream.id], Forwarded(w, upstream.id, downstream.id))
    ensures r.Success? ==> Mirrors(assembler.graph, assembler.ixById, up[downstream.id := upstream.id])
    ensures r.Success? ==> assembler.graph == WithEdge(old(assembler.graph),
      Edge(assembler.ixById[TriggerNode(upstream.id)], assembler.ixById[TriggerNode(downstream.id)], Default))
  {
    hide IsNetwork, Represents, Mirrors, Forwarded, Consistent, HasKind;
    r := Bind(ports, up, w, upstream, downstream);
    if r.Failure? {
      return;
    }
    label bound:
    assembler.PortBind(upstream.id, downstream.id);
    assert unchanged@bound(Objects(ports)) && unchanged@bound(Refs(ports)) && unchanged@bound(Cells(ports));
    MirrorStays(old(assembler.graph), assembler.graph, assembler.ixById, up, upstream.id, downstream.id);
  }

  lemma {:induction false} RecordedAbove(g: Graph, ix: Index, up: Bindings, p: PortId, n: nat)
    requires Mirrors(g, ix, up) && TriggerNode(p) in ix
    ensures TriggerNode(Climb(up, p, n)) in ix
    decreases n
  {
    if n > 0 && p in up {
      RecordedAbove(g, ix, up, up[p], n - 1);
    }
  }

  /** What a bound port triggers, the port it is bound below triggers, however far up. */
  lemma {:induction false} TriggersFromAbove(g: Graph, ix: Index, up: Bindings, p: PortId, n: nat, r: nat)
    requires InRange(g) && Mirrors(g, ix, up) && TriggerNode(p) in ix && Triggers(g, ix[TriggerNode(p)], r)
    ensures TriggerNode(Climb(up, p, n)) in ix && Triggers(g, ix[TriggerNode(Climb(up, p, n))], r)
    decreases n
  {
    if n > 0 && p in up {
      var e :| e in g.edges && e.src == ix[TriggerNode(up[p])] && e.dst == ix[TriggerNode(p)];
      EdgeStartsTriggerPath(g, e, r);
      TriggersFromAbove(g, ix, up, up[p], n - 1, r);
    }
  }

  /** Setting the root of a tree of ports makes everything due that any port of the tree triggers. */
  lemma RootTriggersTree(g: Graph, ix: Index, up: Bindings, root: Bindings, lvl: map<ReactionId, nat>, plans: seq<Plan>,
      p: PortId)
    requires InRange(g) && Indexed(g, ix) && Compiled(g, lvl, plans)
    requires Mirrors(g, ix, up) && Rooted(up, root) && p in root && TriggerNode(p) in ix
    ensures p < |plans| && root[p] < |plans| && Slots(plans[p]) <= Slots(plans[root[p]])
  {
    assert IsRoot(up, p, root[p]);
    var n: nat :| Climb(up, p, n) == root[p];
    assert Numbered(g, lvl);
    hide Indexed, Compiled, Mirrors, Rooted, Triggers, Climb;
    PlanOf(g, ix, lvl, plans, p);
    forall s | s in Slots(plans[p])
      ensures TriggerNode(root[p]) in ix && s in TriggeredSlots(g, lvl, ix[TriggerNode(root[p])])
    {
      var r: nat :| r < |g.nodes| && IsReaction(g, r) && Triggers(g, ix[TriggerNode(p)], r) && s == SlotOf(g, lvl, r);
      TriggersFromAbove(g, ix, up, p, n, r);
    }
    RecordedAbove(g, ix, up, p, n);
    PlanOf(g, ix, lvl, plans, root[p]);
  }
}
