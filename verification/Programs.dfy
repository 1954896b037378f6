/**
 A whole program: the graph that assembly built is compiled, and the scheduler runs it on the compiled tables
 (`run_main` in `src/scheduler/scheduler_impl.rs`).
 */
module Programs {
  import opened Wrappers
  import opened Plans
  import opened Graphs
  import opened Dataflow
  import opened Context
  import opened Wave
  import opened Effects
  import opened Machine
  import opened Runs
  import opened Scheduler
  import opened Assembly

  /** The reactions mention only triggers that were recorded, and set off only their declared effects. */
  ghost predicate KeepsToGraph(g: Graph, out: Behaviour) {
    && WithinEffects(g, out)
    && forall r, c | c in out(r) && Mentions(c).Some? :: Mentions(c).value < TriggersBefore(g.nodes, |g.nodes|)
  }

  ghost predicate EventKeepsToGraph(g: Graph, p: PhysicalEvent) {
    p.trigger.Some? ==> p.trigger.value < TriggersBefore(g.nodes, |g.nodes|)
  }

  ghost predicate InputKeepsToGraph(g: Graph, i: Input) {
    && (forall p | p in i.flushed :: EventKeepsToGraph(g, p))
    && (i.interrupt.Some? ==> EventKeepsToGraph(g, i.interrupt.value))
    && (i.received.Some? ==> EventKeepsToGraph(g, i.received.value))
    && KeepsToGraph(g, i.out)
  }

  /** The compiled tables are fit for the scheduler. */
  lemma TablesFit(g: Graph, ix: Index, lvl: map<ReactionId, nat>, plans: seq<Plan>)
    requires WellFormed(g) && Indexed(g, ix) && Compiled(g, lvl, plans)
        && HasKind(g, ix, TriggerNode(SHUTDOWN), Special)
    ensures ProperTables(lvl, plans) && |plans| > SHUTDOWN
  {
    TablesAreProper(g, lvl, plans);
    PlanOf(g, ix, lvl, plans, SHUTDOWN);
  }

  /** The scheduler accepts whatever keeps to the graph. */
  lemma BehaviourFits(g: Graph, lvl: map<ReactionId, nat>, plans: seq<Plan>, out: Behaviour)
    requires WellFormed(g) && Compiled(g, lvl, plans) && KeepsToGraph(g, out)
    ensures KnownBehaviour(plans, out) && Causal(lvl, plans, out)
  {
    assert KnownBehaviour(plans, out);
    EffectsAreCausal(g, lvl, plans, out);
  }

  lemma InputFits(g: Graph, lvl: map<ReactionId, nat>, plans: seq<Plan>, i: Input)
    requires WellFormed(g) && Compiled(g, lvl, plans) && InputKeepsToGraph(g, i)
    ensures KnownInput(plans, i) && KnownBehaviour(plans, i.out) && Causal(lvl, plans, i.out)
  {
    BehaviourFits(g, lvl, plans, i.out);
  }

  /** A program whose graph has no cycle runs as the abstract machine prescribes; one with a cycle is rejected. */
  method RunMain(assembler: RootAssembler, toposort: Option<seq<nat>>, runtime: Runtime, timeout: Option<nat>,
                 startup: Behaviour, inputs: seq<Input>)
    returns (r: Result<SyncScheduler, AssemblyError>, ghost lvl: map<ReactionId, nat>, ghost states: seq<State>)
    requires assembler.Valid() && IsToposort(assembler.graph, toposort) && ValidRuntime(runtime)
    requires KeepsToGraph(assembler.graph, startup)
    requires forall i | i in inputs :: InputKeepsToGraph(assembler.graph, i)
    ensures r.Failure? <==> HasCycle(assembler.graph)
    ensures r.Success? ==> var plans := r.value.plans;
      && Compiled(assembler.graph, lvl, plans) && |plans| > SHUTDOWN && 0 < |states| <= |inputs| + 1
      && IsRun(lvl, plans, timeout, startup, states, inputs[..|states| - 1])
      && (|states| == |inputs| + 1 || states[|states| - 1].terminated)
      && r.value.Valid() && r.value.lvl == lvl && states[|states| - 1] == r.value.View()
  {
    ghost var g, ix := assembler.graph, assembler.ixById;
    lvl, states := map[], [];
    hide WellFormed, Indexed, HasKind, Compiled, BanksAreFull, BanksAreProper, IsToposort, HasCycle, IsRun,
      ProperTables, Causal, InputKeepsToGraph, KeepsToGraph, KnownInput, KnownBehaviour;
    var info := NewDataflowInfo(assembler.graph, toposort);
    if info.Failure? {
      return Failure(info.error), lvl, states;
    }
    var plans := info.value.1;
    lvl := info.value.0;
    TablesFit(g, ix, lvl, plans);
    BehaviourFits(g, lvl, plans, startup);
    forall i | i in inputs
      ensures KnownInput(plans, i) && KnownBehaviour(plans, i.out) && Causal(lvl, plans, i.out)
    {
      InputFits(g, lvl, plans, i);
    }
    var scheduler := new SyncScheduler(plans, lvl, runtime, timeout);
    states := scheduler.LaunchEventLoop(timeout, startup, inputs);
    r := Success(scheduler);
  }
}
