/**
 Whether two reactions of one reactor can meet in a batch (`new_reactions` in `src/scheduler/assembly_impl.rs`, and the
 comments on plans and on parallel batches).
 */
module Batches {
  import opened Wrappers
  import opened VecMaps
  import opened Plans
  import opened Graphs
  import opened Dataflow
  import opened Assembly

  /** What assembly and compilation leave: the graph with its index and banks, the levels and the plans. */
  datatype Tables = Tables(graph: Graph, ix: Index, ranges: map<TriggerId, Range>, cur: nat, lvl: map<ReactionId, nat>,
                           plans: seq<Plan>)

  /** Tables of any program in which the reactor has `n` reactions, the first `k` of them declared by the user. */
  ghost predicate IsProgram(t: Tables, reactor: nat, k: nat, n: nat) {
    && Consistent(t.graph, t.ix, t.ranges, {}, t.cur) && RecordsReactor(t.graph, t.ix, reactor, k, n)
    && Compiled(t.graph, t.lvl, t.plans)
  }

  /** No level of the two plans, taken together, holds two reactions of the reactor. */
  ghost predicate KeptApart(p: Plan, q: Plan, reactor: nat) {
    forall r: ReactionId, s: ReactionId, level | Slot(level, r) in Slots(p) && Slot(level, s) in Slots(q)
        && r % HALF == reactor == s % HALF ::
      r == s
  }

  /** No plan holds two reactions of the reactor in one level. */
  ghost predicate PlansKeepApart(t: Tables, reactor: nat) {
    forall p | p in t.plans :: KeptApart(p, p, reactor)
  }

  /** No batch does: batches are levels of merged plans. */
  ghost predicate BatchesKeepApart(t: Tables, reactor: nat) {
    forall p, q | p in t.plans && q in t.plans :: KeptApart(p, q, reactor)
  }

  // ------------------------------------------------------------------------------------------------ declared reactions

  /** Each slot of a compiled plan is a recorded reaction at its level. */
  lemma SlotIsReaction(t: Tables, p: Plan, s: Slot) returns (n: nat)
    requires WellFormed(t.graph) && Compiled(t.graph, t.lvl, t.plans) && p in t.plans && s in Slots(p)
    ensures IsReaction(t.graph, n) && t.graph.nodes[n].id == ReactionNode(s.reaction)
    ensures s.reaction in t.lvl && s.level == t.lvl[s.reaction]
  {
    var i :| 0 <= i < |t.plans| && t.plans[i] == p;
    var m := TriggerWithId(t.graph.nodes, |t.graph.nodes|, i);
    assert IsTrigger(t.graph, m) && IsPlanOf(t.graph, t.lvl, m, p);
    n :| n < |t.graph.nodes| && IsReaction(t.graph, n) && Triggers(t.graph, m, n) && s == SlotOf(t.graph, t.lvl, n);
  }

  lemma LocalOf(r: ReactionId)
    requires r / HALF < HALF
    ensures r == Global(r % HALF, r / HALF)
  {}

  /** Reactions of one level are the same if all reactions of the reactor are declared, or there is only one. */
  lemma DeclaredKeptApart(t: Tables, reactor: nat, k: nat, n: nat, p: Plan, q: Plan)
    requires IsProgram(t, reactor, k, n) && (k == n || n <= 1) && p in t.plans && q in t.plans
    ensures KeptApart(p, q, reactor)
  {
    hide Numbered, Prioritised, BanksAreFull, BanksAreProper, Global;
    forall r: ReactionId, s: ReactionId, level | Slot(level, r) in Slots(p) && Slot(level, s) in Slots(q)
        && r % HALF == reactor == s % HALF
      ensures r == s
    {
      var u := SlotIsReaction(t, p, Slot(level, r));
      var v := SlotIsReaction(t, q, Slot(level, s));
      hide Compiled, WellFormed;
      assert ReactionNode(r) in t.ix && ReactionNode(s) in t.ix;
      var i, j := r / HALF, s / HALF;
      assert i < n && j < n;
      LocalOf(r);
      LocalOf(s);
      if i != j {
        DeclaredDiffer(t, reactor, n, i, j);
      }
    }
  }

  lemma DeclaredDiffer(t: Tables, reactor: nat, n: nat, i: nat, j: nat)
    requires IsProgram(t, reactor, n, n) && i < n && j < n && i != j
    ensures Global(reactor, i) in t.lvl && Global(reactor, j) in t.lvl
    ensures t.lvl[Global(reactor, i)] != t.lvl[Global(reactor, j)]
  {
    hide Global, WellFormed, Indexed, Numbered, Prioritised, BanksAreFull, BanksAreProper;
    if i < j {
      DeclarationOrder(t.graph, t.ix, reactor, n, t.lvl, i, j);
    } else {
      DeclarationOrder(t.graph, t.ix, reactor, n, t.lvl, j, i);
    }
  }

  // ------------------------------------------------------------------------------------------------ a startup trigger

  /** `n` reactions of one reactor, the first `k` declared by the user, the first and the last triggered at startup. */
  ghost function StartupGraph(reactor: nat, k: nat, n: nat): Graph
    requires reactor < HALF && n <= HALF
  {
    Graph([Node(Special, TriggerNode(STARTUP)), Node(Special, TriggerNode(SHUTDOWN))] + ReactionNodes(reactor, n),
          PriorityEdges(2, if k > 0 then k - 1 else 0) + [Edge(0, 2, Default), Edge(0, n + 1, Default)])
  }

  ghost function IndexOf(nodes: seq<Node>): Index
    requires NodesAreProper(nodes)
  {
    map n: nat | n < |nodes| :: nodes[n].id := n
  }

  /** The level of the `i`-th reaction. */
  function StartupLevel(k: nat, n: nat, i: nat): nat {
    if i == 0 || i + 1 == n then 1 else if i < k then i + 1 else 0
  }

  ghost function LevelOfNode(k: nat, n: nat): nat -> int {
    m => if m < 2 then 0 else StartupLevel(k, n, m - 2)
  }

  lemma {:induction false} TwoTriggers(reactor: nat, n: nat, m: nat)
    requires reactor < HALF && n <= HALF && m <= n
    ensures var nodes := StartupGraph(reactor, 0, n).nodes; |nodes| == n + 2 && TriggersBefore(nodes, m + 2) == 2
  {
    var nodes := StartupGraph(reactor, 0, n).nodes;
    if m == 0 {
      assert TriggersBefore(nodes, 0) == 0 && TriggersBefore(nodes, 1) == 1;
    } else {
      TwoTriggers(reactor, n, m - 1);
      assert nodes[m + 1] == ReactionNodes(reactor, n)[m - 1];
    }
  }

  lemma StartupNodesAreProper(reactor: nat, k: nat, n: nat)
    requires reactor < HALF && n <= HALF
    ensures NodesAreProper(StartupGraph(reactor, k, n).nodes)
  {
    var nodes := StartupGraph(reactor, k, n).nodes;
    forall i, j | 0 <= i < j < n
      ensures Global(reactor, i) != Global(reactor, j)
    {
      if Global(reactor, i) == Global(reactor, j) {
        GlobalIsInjective(reactor, i, reactor, j);
      }
    }
    hide Global;
    assert TriggersBefore(nodes, 0) == 0 && TriggersBefore(nodes, 1) == 1;
  }

  lemma StartupNode(reactor: nat, k: nat, n: nat, i: nat)
    requires reactor < HALF && n <= HALF && i < n
    ensures |StartupGraph(reactor, k, n).nodes| == n + 2
    ensures StartupGraph(reactor, k, n).nodes[i + 2] == Node(Reaction, ReactionNode(Global(reactor, i)))
  {
    hide Global;
  }

  lemma StartupIndexed(g: Graph)
    requires NodesAreProper(g.nodes)
    ensures Indexed(g, IndexOf(g.nodes))
  {
    hide TriggersBefore;
  }

  lemma StartupEdge(reactor: nat, k: nat, n: nat, e: Edge)
    requires reactor < HALF && k < n && 2 <= n <= HALF && e in StartupGraph(reactor, k, n).edges
    ensures e.src < n + 2 && 2 <= e.dst < n + 2
  {
    hide Global;
    var g := StartupGraph(reactor, k, n);
    var i :| 0 <= i < |g.edges| && g.edges[i] == e;
  }

  lemma StartupWellFormed(reactor: nat, k: nat, n: nat)
    requires reactor < HALF && k < n && 2 <= n <= HALF && NodesAreProper(StartupGraph(reactor, k, n).nodes)
    ensures WellFormed(StartupGraph(reactor, k, n)) && BanksAreProper(StartupGraph(reactor, k, n), map[])
  {
    var g := StartupGraph(reactor, k, n);
    assert g.nodes[0].kind == Special && g.nodes[1].kind == Special;
    hide NodesAreProper, Global, StartupGraph;
    forall m: nat | 2 <= m < |g.nodes|
      ensures g.nodes[m].kind == Reaction
    {
      StartupNode(reactor, k, n, 0);
      StartupNode(reactor, k, n, m - 2);
    }
    forall e | e in g.edges
      ensures e.src < |g.nodes| && 2 <= e.dst < |g.nodes|
    {
      StartupEdge(reactor, k, n, e);
      StartupNode(reactor, k, n, 0);
    }
  }

  lemma StartupRecords(reactor: nat, k: nat, n: nat, g: Graph, ix: Index)
    requires reactor < HALF && k < n && 2 <= n <= HALF && g == StartupGraph(reactor, k, n) && Indexed(g, ix)
    ensures RecordsReactor(g, ix, reactor, k, n)
  {
    hide Global;
    forall i | 0 <= i < n
      ensures IsNumbered(ix, Global(reactor, i), i + 2)
    {
      StartupNode(reactor, k, n, i);
    }
    StartupPriority(reactor, k, n, g, ix);
    hide Prioritised;
    forall id: GraphId | id in ix && id.ReactionNode?
      ensures id.reaction % HALF == reactor && id.reaction / HALF < n
    {
      var i := ix[id] - 2;
      StartupNode(reactor, k, n, i);
      GlobalParts(reactor, i);
    }
  }

  lemma StartupGraphIsConsistent(reactor: nat, k: nat, n: nat)
    requires reactor < HALF && k < n && 2 <= n <= HALF
    ensures NodesAreProper(StartupGraph(reactor, k, n).nodes)
    ensures var g, ix := StartupGraph(reactor, k, n), IndexOf(StartupGraph(reactor, k, n).nodes);
            Consistent(g, ix, map[], {}, 2) && RecordsReactor(g, ix, reactor, k, n)
  {
    hide StartupGraph, WellFormed, Indexed, RecordsReactor, TriggersBefore, BanksAreProper, NodesAreProper, Consistent,
        IndexOf;
    var g := StartupGraph(reactor, k, n);
    StartupNodesAreProper(reactor, k, n);
    StartupIndexed(g);
    StartupWellFormed(reactor, k, n);
    StartupRecords(reactor, k, n, g, IndexOf(g.nodes));
    StartupTriggerNodes(reactor, k, n, 0);
    WithoutBanks(g, IndexOf(g.nodes), 2);
  }

  lemma WithoutBanks(g: Graph, ix: Index, cur: nat)
    requires WellFormed(g) && Indexed(g, ix) && cur == TriggersBefore(g.nodes, |g.nodes|) && BanksAreProper(g, map[])
    ensures Consistent(g, ix, map[], {}, cur)
  {
    hide WellFormed, Indexed, TriggersBefore, BanksAreProper;
  }

  lemma StartupPriority(reactor: nat, k: nat, n: nat, g: Graph, ix: Index)
    requires reactor < HALF && k < n <= HALF && g == StartupGraph(reactor, k, n)
    requires forall i | 0 <= i < n :: IsNumbered(ix, Global(reactor, i), i + 2)
    ensures Prioritised(g, ix, reactor, k)
  {
    hide Global;
    forall i, j | 0 <= i < k && j == i + 1 && j < k
      ensures Precedes(g, ix, Global(reactor, i), Global(reactor, j))
    {
      assert IsNumbered(ix, Global(reactor, i), i + 2) && IsNumbered(ix, Global(reactor, j), j + 2);
      assert g.edges[i] == Edge(i + 2, j + 2, Default);
    }
  }

  lemma StartupLevelsIncrease(reactor: nat, k: nat, n: nat)
    requires reactor < HALF && k < n && 2 <= n <= HALF
    ensures StrictlyIncreasing(StartupGraph(reactor, k, n), LevelOfNode(k, n))
  {}

  lemma {:induction false} StartupPath(reactor: nat, k: nat, n: nat, i: nat)
    requires reactor < HALF && k < n && 2 <= n <= HALF && i < n
    ensures EndsPath(StartupGraph(reactor, k, n), i + 2, StartupLevel(k, n, i))
    decreases i
  {
    var g := StartupGraph(reactor, k, n);
    if i == 0 || i + 1 == n {
      var m := if k > 0 then k - 1 else 0;
      assert g.edges[m] == Edge(0, 2, Default) && g.edges[m + 1] == Edge(0, n + 1, Default);
      assert IsPath(g, [0, i + 2]);
    } else if i < k {
      StartupPath(reactor, k, n, i - 1);
      assert g.edges[i - 1] == Edge(i + 1, i + 2, Default);
      DeeperPath(g, i + 1, i, i + 2);
    } else {
      assert IsPath(g, [i + 2]);
    }
  }

  ghost function StartupLevels(reactor: nat, k: nat, n: nat): (lvl: map<ReactionId, nat>)
    requires reactor < HALF && n <= HALF
    ensures forall i | 0 <= i < n :: Global(reactor, i) in lvl && lvl[Global(reactor, i)] == StartupLevel(k, n, i)
  {
    map r: ReactionId | r in (set i | 0 <= i < n :: Global(reactor, i)) :: StartupLevel(k, n, r / HALF)
  }

  lemma StartupDepth(reactor: nat, k: nat, n: nat, i: nat)
    requires reactor < HALF && k < n && 2 <= n <= HALF && i < n
    ensures IsDepth(StartupGraph(reactor, k, n), i + 2, StartupLevel(k, n, i))
  {
    StartupLevelsIncrease(reactor, k, n);
    StartupPath(reactor, k, n, i);
    hide StartupGraph;
    DepthFromNumbering(StartupGraph(reactor, k, n), i + 2, StartupLevel(k, n, i), LevelOfNode(k, n));
  }

  lemma StartupNumbered(reactor: nat, k: nat, n: nat)
    requires reactor < HALF && k < n && 2 <= n <= HALF
    ensures Numbered(StartupGraph(reactor, k, n), StartupLevels(reactor, k, n))
  {
    var g, lvl := StartupGraph(reactor, k, n), StartupLevels(reactor, k, n);
    hide IsDepth, StartupLevels, Global, StartupLevel;
    forall m: nat | IsReaction(g, m)
      ensures g.nodes[m].id.reaction in lvl && IsDepth(g, m, lvl[g.nodes[m].id.reaction])
    {
      assert m >= 2;
      StartupNode(reactor, k, n, m - 2);
      StartupDepth(reactor, k, n, m - 2);
    }
  }

  ghost function StartupPlans(reactor: nat, n: nat): seq<Plan>
    requires reactor < HALF && 1 <= n <= HALF
  {
    [[Mapping(1, [Global(reactor, 0), Global(reactor, n - 1)])], []]
  }

  lemma StartupTriggers(reactor: nat, k: nat, n: nat, t: nat, r: nat)
    requires reactor < HALF && k < n && 2 <= n <= HALF && t < 2
    ensures IsReaction(StartupGraph(reactor, k, n), r) ==>
      (Triggers(StartupGraph(reactor, k, n), t, r) <==> t == 0 && (r == 2 || r == n + 1))
  {
    var g := StartupGraph(reactor, k, n);
    if IsReaction(g, r) {
      if Triggers(g, t, r) {
        FirstEdgeOfTriggerPath(g, t, r);
        var e :| e in g.edges && e.src == t && Via(g, e, r);
      } else if t == 0 && (r == 2 || r == n + 1) {
        var m := if k > 0 then k - 1 else 0;
        var e := Edge(0, r, Default);
        assert g.edges[m] == Edge(0, 2, Default) && g.edges[m + 1] == Edge(0, n + 1, Default);
        assert e in g.edges && Via(g, e, r);
        EdgeStartsTriggerPath(g, e, r);
      }
    }
  }

  lemma StartupSlotOf(reactor: nat, k: nat, n: nat)
    requires reactor < HALF && k < n && 2 <= n <= HALF
    requires Numbered(StartupGraph(reactor, k, n), StartupLevels(reactor, k, n))
    ensures var g, lvl := StartupGraph(reactor, k, n), StartupLevels(reactor, k, n);
            && IsReaction(g, 2) && SlotOf(g, lvl, 2) == Slot(1, Global(reactor, 0))
            && IsReaction(g, n + 1) && SlotOf(g, lvl, n + 1) == Slot(1, Global(reactor, n - 1))
            && |g.nodes| == n + 2
  {
    hide StartupGraph, Numbered, Global, StartupLevels;
    StartupNode(reactor, k, n, 0);
    StartupNode(reactor, k, n, n - 1);
  }

  lemma StartupSlots(reactor: nat, k: nat, n: nat, s: Slot)
    requires reactor < HALF && k < n && 2 <= n <= HALF
    requires Numbered(StartupGraph(reactor, k, n), StartupLevels(reactor, k, n))
    ensures s !in TriggeredSlots(StartupGraph(reactor, k, n), StartupLevels(reactor, k, n), 1)
    ensures s in TriggeredSlots(StartupGraph(reactor, k, n), StartupLevels(reactor, k, n), 0) <==>
            s == Slot(1, Global(reactor, 0)) || s == Slot(1, Global(reactor, n - 1))
  {
    var g, lvl := StartupGraph(reactor, k, n), StartupLevels(reactor, k, n);
    StartupSlotOf(reactor, k, n);
    var last := n + 1;
    hide StartupGraph, Numbered, Global, StartupLevels, Triggers, IsReaction, SlotOf;
    forall t: nat, r: nat | t < 2 && IsReaction(g, r)
      ensures Triggers(g, t, r) <==> t == 0 && (r == 2 || r == last)
    {
      StartupTriggers(reactor, k, n, t, r);
    }
    assert Triggers(g, 0, 2) && Triggers(g, 0, last);
  }

  lemma StartupPlanSlots(reactor: nat, n: nat)
    requires reactor < HALF && 2 <= n <= HALF
    ensures |StartupPlans(reactor, n)| == 2 && StartupPlans(reactor, n)[1] == []
    ensures var p := StartupPlans(reactor, n)[0];
            && ValidPlan(p) && Compact(p)
            && Slots(p) == {Slot(1, Global(reactor, 0)), Slot(1, Global(reactor, n - 1))}
  {
    var p, x, y := StartupPlans(reactor, n)[0], Global(reactor, 0), Global(reactor, n - 1);
    assert x < y;
    hide Global;
    assert p == [Mapping(1, [x, y])];
    forall s
      ensures s in Slots(p) <==> s == Slot(1, x) || s == Slot(1, y)
    {
      assert p[0] in p && x in p[0].value && y in p[0].value;
    }
  }

  lemma EmptyPlanOf(g: Graph, lvl: map<ReactionId, nat>, m: nat)
    requires Numbered(g, lvl) && TriggeredSlots(g, lvl, m) == {}
    ensures IsPlanOf(g, lvl, m, [])
  {
    hide Numbered, TriggeredSlots;
  }

  lemma StartupPlanOf(reactor: nat, k: nat, n: nat)
    requires reactor < HALF && k < n && 2 <= n <= HALF
    requires Numbered(StartupGraph(reactor, k, n), StartupLevels(reactor, k, n)) && |StartupPlans(reactor, n)| == 2
    ensures IsPlanOf(StartupGraph(reactor, k, n), StartupLevels(reactor, k, n), 0, StartupPlans(reactor, n)[0])
    ensures IsPlanOf(StartupGraph(reactor, k, n), StartupLevels(reactor, k, n), 1, StartupPlans(reactor, n)[1])
  {
    hide StartupGraph, Numbered, StartupLevels, Global, TriggeredSlots, StartupPlans, Slots, ValidPlan, Compact;
    var g, lvl, plan := StartupGraph(reactor, k, n), StartupLevels(reactor, k, n), StartupPlans(reactor, n)[0];
    StartupPlanSlots(reactor, n);
    forall s
      ensures s in TriggeredSlots(g, lvl, 0) <==> s in Slots(plan)
      ensures s !in TriggeredSlots(g, lvl, 1)
    {
      StartupSlots(reactor, k, n, s);
    }
    assert TriggeredSlots(g, lvl, 0) == Slots(plan);
    EmptyPlanOf(g, lvl, 1);
  }

  lemma StartupTriggerNodes(reactor: nat, k: nat, n: nat, m: nat)
    requires reactor < HALF && k < n && 2 <= n <= HALF
    ensures var nodes := StartupGraph(reactor, k, n).nodes; TriggersBefore(nodes, |nodes|) == 2
    ensures IsTrigger(StartupGraph(reactor, k, n), m) ==>
        m < 2 && StartupGraph(reactor, k, n).nodes[m].id == TriggerNode(m)
  {
    TwoTriggers(reactor, n, n);
    assert StartupGraph(reactor, k, n).nodes == StartupGraph(reactor, 0, n).nodes;
    if 2 <= m < n + 2 {
      StartupNode(reactor, k, n, m - 2);
    }
    hide Global, TriggersBefore;
  }

  lemma StartupCompiled(reactor: nat, k: nat, n: nat)
    requires reactor < HALF && k < n && 2 <= n <= HALF
    ensures Compiled(StartupGraph(reactor, k, n), StartupLevels(reactor, k, n), StartupPlans(reactor, n))
  {
    hide StartupGraph, Numbered, StartupLevels, StartupPlans, TriggersBefore, IsPlanOf;
    var g := StartupGraph(reactor, k, n);
    StartupPlanSlots(reactor, n);
    StartupNumbered(reactor, k, n);
    StartupPlanOf(reactor, k, n);
    StartupTriggerNodes(reactor, k, n, 0);
    forall m: nat | IsTrigger(g, m)
      ensures m < 2 && g.nodes[m].id == TriggerNode(m)
    {
      StartupTriggerNodes(reactor, k, n, m);
    }
  }

  /**
    A program whose startup sets off two reactions of a reactor in one level, if not all of them are declared by the
    user.
  */
  lemma StartupMeets(reactor: nat, k: nat, n: nat) returns (t: Tables)
    requires reactor < HALF && k < n && 2 <= n <= HALF
    ensures IsProgram(t, reactor, k, n) && |t.plans| == 2
    ensures Slot(1, Global(reactor, 0)) in Slots(t.plans[STARTUP])
        && Slot(1, Global(reactor, n - 1)) in Slots(t.plans[STARTUP])
    ensures !KeptApart(t.plans[STARTUP], t.plans[STARTUP], reactor)
  {
    StartupGraphIsConsistent(reactor, k, n);
    StartupCompiled(reactor, k, n);
    var g := StartupGraph(reactor, k, n);
    t := Tables(g, IndexOf(g.nodes), map[], 2, StartupLevels(reactor, k, n), StartupPlans(reactor, n));
    hide StartupGraph, Compiled, Consistent, RecordsReactor;
    var m := t.plans[STARTUP][0];
    assert m in t.plans[STARTUP] && Global(reactor, 0) in m.value && Global(reactor, n - 1) in m.value;
    GlobalParts(reactor, 0);
    GlobalParts(reactor, n - 1);
  }

  // ----------------------------------------------------------------------------------------------- the exact condition

  /**
   In every program, no plan and no batch holds two reactions of a reactor in one level, exactly if all reactions of the
   reactor are declared by the user, or it has at most one.
   */
  lemma KeptApartIfDeclared(reactor: nat, k: nat, n: nat)
    requires reactor < HALF && k <= n <= HALF
    ensures (forall t | IsProgram(t, reactor, k, n) :: PlansKeepApart(t, reactor)) <==> k == n || n <= 1
    ensures (forall t | IsProgram(t, reactor, k, n) :: BatchesKeepApart(t, reactor)) <==> k == n || n <= 1
  {
    hide IsProgram, KeptApart;
    if k == n || n <= 1 {
      forall t, p, q | IsProgram(t, reactor, k, n) && p in t.plans && q in t.plans
        ensures KeptApart(p, q, reactor)
      {
        DeclaredKeptApart(t, reactor, k, n, p, q);
      }
    } else {
      var t := StartupMeets(reactor, k, n);
      assert t.plans[STARTUP] in t.plans;
      assert !PlansKeepApart(t, reactor) && !BatchesKeepApart(t, reactor);
    }
  }

  /** After any sequence of assembler calls, the declared reactions of every reactor have levels in their order. */
  lemma DeclaredInOrder(assembler: RootAssembler, reactor: nat, lvl: map<ReactionId, nat>, i: nat, j: nat)
    requires assembler.Valid() && reactor in assembler.reactors && Numbered(assembler.graph, lvl)
    requires i < j < assembler.reactors[reactor].user
    ensures reactor < HALF && j < HALF && Global(reactor, i) in lvl && Global(reactor, j) in lvl
    ensures lvl[Global(reactor, i)] < lvl[Global(reactor, j)]
  {
    var d := assembler.reactors[reactor];
    assert RecordsReactor(assembler.graph, assembler.ixById, reactor, d.user, d.all);
    hide Numbered, Global, WellFormed, Indexed, AllRecorded, BanksAreFull, BanksAreProper, Prioritised;
    DeclarationOrder(assembler.graph, assembler.ixById, reactor, d.user, lvl, i, j);
  }

  /** And each of these reactors is in the scope of `KeptApartIfDeclared`. */
  lemma AssembledIsProgram(assembler: RootAssembler, reactor: nat, lvl: map<ReactionId, nat>, plans: seq<Plan>)
    requires assembler.Valid() && reactor in assembler.reactors && Compiled(assembler.graph, lvl, plans)
    ensures var d := assembler.reactors[reactor];
            IsProgram(Tables(assembler.graph, assembler.ixById, assembler.multiportRanges, assembler.curTrigger, lvl,
                      plans), reactor, d.user, d.all)
  {
    hide Compiled, Consistent, RecordsReactor;
  }
}
