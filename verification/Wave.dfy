/**
 The wave of a tag: the loop of `process_tag` (`src/scheduler/scheduler_impl.rs`), with the sequential and the parallel
 execution of a batch.
 */
module Wave {
  import opened Wrappers
  import opened VecMaps
  import opened Plans
  import opened Graphs
  import opened Events
  import opened Context

  // ---------------------------------------------------------------------------------------------- what must run

  /** Whatever an element of `s` makes due is in `s`. */
  ghost predicate Closed(plans: seq<Plan>, out: Behaviour, s: set<ReactionId>)
    requires KnownBehaviour(plans, out)
  {
    forall r, d | r in s && d in Demand(plans, out(r)) :: d.reaction in s
  }

  /** `ran` is the least set that contains `roots` and is closed under what its elements make due. */
  ghost predicate IsClosure(plans: seq<Plan>, out: Behaviour, roots: set<ReactionId>, ran: set<ReactionId>)
    requires KnownBehaviour(plans, out)
  {
    && roots <= ran
    && Closed(plans, out, ran)
    && forall s: set<ReactionId> | roots <= s && Closed(plans, out, s) :: ran <= s
  }

  /** A reaction makes only reactions of higher levels due. */
  ghost predicate Causal(lvl: map<ReactionId, nat>, plans: seq<Plan>, out: Behaviour)
    requires KnownBehaviour(plans, out)
  {
    forall r, d | r in lvl && d in Demand(plans, out(r)) :: lvl[r] < d.level
  }

  ghost predicate Distinct(s: seq<ReactionId>) {
    forall i, j | 0 <= i < j < |s| :: s[i] != s[j]
  }

  ghost predicate InLevelOrder(lvl: map<ReactionId, nat>, s: seq<ReactionId>) {
    && (forall i | 0 <= i < |s| :: s[i] in lvl)
    && forall i, j | 0 <= i < j < |s| :: lvl[s[i]] <= lvl[s[j]]
  }

  // ---------------------------------------------------------------------------------------------- parallel batches

  /**
   How Rayon may run a batch: forks that each run some of its reactions, and a tree of merges over them. `Idle` is the
   default value that an empty part of the reduction starts from.
   */
  datatype Fork = Idle | Run(batch: seq<ReactionId>) | Merge(left: Fork, right: Fork)

  function Leaves(f: Fork): seq<ReactionId> {
    match f
    case Idle => []
    case Run(batch) => batch
    case Merge(left, right) => Leaves(left) + Leaves(right)
  }

  /** A fork that is somewhere in the tree of merges. */
  ghost predicate IsPart(part: Fork, f: Fork) {
    part == f || (f.Merge? && (IsPart(part, f.left) || IsPart(part, f.right)))
  }

  /** No fork is dropped: what any of them runs is among the leaves of the tree, and nothing else is. */
  lemma {:induction false} LeavesAreAll(f: Fork, r: ReactionId)
    ensures r in Leaves(f) <==> exists batch :: IsPart(Run(batch), f) && r in batch
  {
    match f
    case Idle =>
    case Run(batch) =>
      assert IsPart(Run(batch), f);
    case Merge(left, right) =>
      LeavesAreAll(left, r);
      LeavesAreAll(right, r);
      if batch :| IsPart(Run(batch), f) && r in batch {
        assert IsPart(Run(batch), left) || IsPart(Run(batch), right);
      }
  }

  /** The parallel runtime may split the batch of any level of any tag in any way. */
  datatype Runtime = Sequential | Parallel(split: (EventTag, int, seq<ReactionId>) -> Fork)

  const PARALLEL_THRESHOLD := 3

  ghost predicate ValidRuntime(runtime: Runtime) {
    runtime.Parallel? ==> forall tag, level, batch: seq<ReactionId> ::
      multiset(Leaves(runtime.split(tag, level, batch))) == multiset(batch)
  }

  function RunsOf(runtime: Runtime, tag: EventTag, level: int, batch: seq<ReactionId>): seq<ReactionId> {
    if runtime.Parallel? && |batch| >= PARALLEL_THRESHOLD then Leaves(runtime.split(tag, level, batch)) else batch
  }

  lemma SameElements(a: seq<ReactionId>, b: seq<ReactionId>)
    requires multiset(a) == multiset(b)
    ensures Elements(a) == Elements(b)
  {
    assert forall r :: r in a <==> r in multiset(a);
    assert forall r :: r in b <==> r in multiset(b);
  }

  /** One subtree of the reduction. The forks reach the same reactors, so the action values pass through them. */
  method RunFork(ctx: ReactionCtx, fork: Fork, out: Behaviour, ghost min: nat) returns (r: Insides)
    requires ctx.Valid() && KnownBehaviour(ctx.plans, out) && min == ctx.curLevel + 1
    modifies ctx`values
    ensures ctx.Valid() && ProperInsides(ctx.lvl, r)
    ensures YieldOf(r, min) == BatchYield(ctx.plans, ctx.tag, out, Elements(Leaves(fork)), min)
    ensures ctx.values == StoredBy(old(ctx.values), ctx.tag, out, Leaves(fork))
  {
    match fork {
      case Idle =>
        r := NOTHING;
        IdleYield(ctx.plans, ctx.tag, out, min);
      case Run(batch) =>
        var forked := new ReactionCtx(ctx.plans, ctx.tag, ctx.curLevel, ctx.values, ctx.lvl);
        forked.ExecuteBatch(batch, out);
        ctx.values := forked.values;
        r := forked.insides;
        FromNothing(YieldOf(r, min), ctx.plans, ctx.tag, out, batch, min);
      case Merge(left, right) =>
        ghost var values := ctx.values;
        var l := RunFork(ctx, left, out, min);
        var m := RunFork(ctx, right, out, min);
        r := MergeInsides(l, m, ctx.lvl, min);
        StoredSplits(values, ctx.tag, out, Leaves(left), Leaves(right));
        MergedYield(YieldOf(l, min), YieldOf(m, min), YieldOf(r, min),
                    ctx.plans, ctx.tag, out, Leaves(left), Leaves(right), min);
    }
  }

  lemma IdleYield(plans: seq<Plan>, tag: EventTag, out: Behaviour, min: int)
    requires KnownBehaviour(plans, out)
    ensures YieldOf(NOTHING, min) == BatchYield(plans, tag, out, Elements([]), min)
  {
    NothingYielded(min);
    NoReaction(plans, tag, out, [], Yield({}, {}), min);
    PlusNothing(BatchYield(plans, tag, out, Elements([]), min));
    var none: seq<ReactionId> := [];
    assert none[..0] == none;
  }

  lemma FromNothing(y: Yield, plans: seq<Plan>, tag: EventTag, out: Behaviour, batch: seq<ReactionId>, min: int)
    requires KnownBehaviour(plans, out)
    requires y == Plus(YieldOf(NOTHING, min), BatchYield(plans, tag, out, Elements(batch), min))
    ensures y == BatchYield(plans, tag, out, Elements(batch), min)
  {
    NothingYielded(min);
    PlusNothing(BatchYield(plans, tag, out, Elements(batch), min));
  }

  lemma MergedYield(x: Yield, y: Yield, z: Yield, plans: seq<Plan>, tag: EventTag, out: Behaviour,
                    a: seq<ReactionId>, b: seq<ReactionId>, min: int)
    requires KnownBehaviour(plans, out)
    requires x == BatchYield(plans, tag, out, Elements(a), min) && y == BatchYield(plans, tag, out, Elements(b), min)
    requires z == Plus(x, y)
    ensures z == BatchYield(plans, tag, out, Elements(a + b), min)
  {
    assert Elements(a + b) == Elements(a) + Elements(b);
    BatchSplits(plans, tag, out, Elements(a), Elements(b), min);
  }

  /** `parallel_rt_impl::process_batch`: whatever the forks and merges, it yields what the sequential loop yields. */
  method ProcessBatch(ctx: ReactionCtx, batch: seq<ReactionId>, fork: Fork, out: Behaviour)
    requires ctx.Valid() && KnownBehaviour(ctx.plans, out)
    requires multiset(Leaves(fork)) == multiset(batch)
    modifies ctx`insides, ctx`values
    ensures ctx.Valid()
    ensures ctx.Yielded() ==
            Plus(old(ctx.Yielded()), BatchYield(ctx.plans, ctx.tag, out, Elements(batch), ctx.curLevel + 1))
    ensures ctx.values == StoredBy(old(ctx.values), ctx.tag, out, Leaves(fork))
  {
    hide Slots, YieldOf, BatchYield, Plus, StoredBy, Elements, KnownBehaviour, Leaves, ProperInsides, ProperTables;
    ghost var min, before := ctx.curLevel + 1, ctx.Yielded();
    var r := RunFork(ctx, fork, out, min);
    var merged := MergeInsides(ctx.insides, r, ctx.lvl, min);
    ctx.insides := merged;
    AbsorbedFork(before, YieldOf(r, min), ctx.Yielded(), ctx.plans, ctx.tag, out, Leaves(fork), batch, min);
  }

  lemma AbsorbedFork(before: Yield, fork: Yield, after: Yield, plans: seq<Plan>, tag: EventTag, out: Behaviour,
                     a: seq<ReactionId>, b: seq<ReactionId>, min: int)
    requires KnownBehaviour(plans, out) && multiset(a) == multiset(b)
    requires fork == BatchYield(plans, tag, out, Elements(a), min)
    requires after == Plus(before, fork)
    ensures after == Plus(before, BatchYield(plans, tag, out, Elements(b), min))
  {
    SameElements(a, b);
  }

  // ---------------------------------------------------------------------------------------------- one level

  /** `next` designates the least level of the plan that is not below `floor`. */
  ghost predicate IsNextLevel(plan: Plan, floor: int, next: Option<KeyRef>) {
    match next
    case None => Above(Slots(plan), floor) == {}
    case Some(kr) => IsExact(plan, kr) && floor <= kr.key && forall s | s in Above(Slots(plan), floor) ::
        kr.key <= s.level
  }

  lemma FoundNextLevel(plan: Plan, level: int, next: Option<KeyRef>)
    requires Ascending(plan)
    requires next.None? ==> Above(Slots(plan), level + 1) == {}
    requires next.Some? ==> IsFirstAfter(plan, level, true, next.value)
    ensures IsNextLevel(plan, level + 1, next)
  {
    if next.Some? {
      forall m | m in plan && level < m.key
        ensures next.value.key <= m.key
      {
        var i :| 0 <= i < |plan| && plan[i] == m;
      }
    }
  }

  lemma FoundFirstLevel(plan: Plan, next: Option<KeyRef>)
    requires ValidPlan(plan)
    requires next.None? <==> plan == []
    requires next.Some? ==> next.value == KeyRef(plan[0].key, 0)
    ensures IsNextLevel(plan, 0, next)
  {
    if next.Some? {
      assert plan[0] in plan;
      forall m | m in plan
        ensures next.value.key <= m.key
      {
        var i :| 0 <= i < |plan| && plan[i] == m;
      }
    }
  }

  /** The reactions of the level that a cursor designates are those the plan has at that level. */
  lemma BatchAt(plan: Plan, kr: KeyRef, r: ReactionId)
    requires Ascending(plan) && IsExact(plan, kr)
    ensures r in plan[kr.minIdx].value <==> Slot(kr.key, r) in Slots(plan)
  {
    var m := plan[kr.minIdx];
    assert m in plan;
    if Slot(kr.key, r) in Slots(plan) {
      var n :| n in plan && r in n.value && n.key == kr.key;
      var i :| 0 <= i < |plan| && plan[i] == n;
    }
  }

  lemma MergedLevels(x: set<Slot>, todo: set<Slot>, merged: set<Slot>, demand: set<Slot>, min: int)
    requires From(merged, min) == From(x + todo, min)
    requires From(todo, min) == From(demand, min)
    ensures From(merged, min) == From(x + demand, min)
  {
    AboveUnion(x, todo, min);
    AboveUnion(x, demand, min);
  }

  lemma LevelYield(before: Insides, after: Insides, plans: seq<Plan>, tag: EventTag, out: Behaviour,
                   batch: seq<ReactionId>, ran: seq<ReactionId>, min: int)
    requires before.todoNow.None? && KnownBehaviour(plans, out) && multiset(ran) == multiset(batch)
    requires YieldOf(after, min) == Plus(YieldOf(before, min), BatchYield(plans, tag, out, Elements(batch), min))
    ensures From(SlotsOf(after.todoNow), min) == From(DemandOf(plans, out, Elements(ran)), min)
    ensures Members(after.futureEvents) == Members(before.futureEvents) + ScheduledBy(plans, tag, out, Elements(ran))
  {
    SameElements(ran, batch);
  }

  /** The two ways to execute a batch. */
  method ExecuteAll(ctx: ReactionCtx, batch: seq<ReactionId>, out: Behaviour, runtime: Runtime)
    requires ctx.Valid() && KnownBehaviour(ctx.plans, out) && ValidRuntime(runtime)
    modifies ctx`insides, ctx`values
    ensures ctx.Valid()
    ensures ctx.Yielded() ==
            Plus(old(ctx.Yielded()), BatchYield(ctx.plans, ctx.tag, out, Elements(batch), ctx.curLevel + 1))
    ensures ctx.values == StoredBy(old(ctx.values), ctx.tag, out, RunsOf(runtime, ctx.tag, ctx.curLevel, batch))
  {
    if runtime.Parallel? && |batch| >= PARALLEL_THRESHOLD {
      ProcessBatch(ctx, batch, runtime.split(ctx.tag, ctx.curLevel, batch), out);
    } else {
      ctx.ExecuteBatch(batch, out);
    }
  }

  /** Executes a batch at its level and takes what is now due out of the context. */
  method ExecuteLevel(ctx: ReactionCtx, level: nat, batch: seq<ReactionId>, out: Behaviour, runtime: Runtime)
    returns (todo: ReactionPlan, ran: seq<ReactionId>)
    requires ctx.Valid() && ctx.insides.todoNow.None? && KnownBehaviour(ctx.plans, out) && ValidRuntime(runtime)
    modifies ctx`curLevel, ctx`insides, ctx`values
    ensures ctx.Valid() && ctx.insides.todoNow.None? && ProperPlan(ctx.lvl, todo)
    ensures ran == RunsOf(runtime, ctx.tag, level, batch)
    ensures From(SlotsOf(todo), level + 1) == From(DemandOf(ctx.plans, out, Elements(ran)), level + 1)
    ensures Members(ctx.insides.futureEvents) ==
            old(Members(ctx.insides.futureEvents)) + ScheduledBy(ctx.plans, ctx.tag, out, Elements(ran))
    ensures ctx.values == StoredBy(old(ctx.values), ctx.tag, out, ran)
  {
    hide Slots, DemandOf, ScheduledBy, StoredBy;
    ghost var before := ctx.insides;
    ctx.curLevel := level;
    ExecuteAll(ctx, batch, out, runtime);
    ran := RunsOf(runtime, ctx.tag, level, batch);
    LevelYield(before, ctx.insides, ctx.plans, ctx.tag, out, batch, ran, level + 1);
    todo := ctx.insides.todoNow;
    ctx.insides := ctx.insides.(todoNow := None);
  }

  method MergeDue(reactions: ReactionPlan, todo: ReactionPlan, min: int,
                  ghost lvl: map<ReactionId, nat>, ghost demand: set<Slot>) returns (merged: ReactionPlan)
    requires ProperPlan(lvl, reactions) && ProperPlan(lvl, todo) && From(SlotsOf(todo), min) == From(demand, min)
    ensures ProperPlan(lvl, merged) && From(SlotsOf(merged), min) == From(SlotsOf(reactions) + demand, min)
  {
    merged := MergePlansAfter(reactions, todo, min);
    MergedLevels(SlotsOf(reactions), SlotsOf(todo), SlotsOf(merged), demand, min);
  }

  /**
    The body of the loop of `process_tag`: executes the level `at`, merges what is now due, and moves the cursor on.
  */
  method ProcessLevel(ctx: ReactionCtx, reactions: ReactionPlan, at: KeyRef, out: Behaviour, runtime: Runtime)
    returns (merged: ReactionPlan, next: Option<KeyRef>, ran: seq<ReactionId>)
    requires ctx.Valid() && ctx.insides.todoNow.None? && KnownBehaviour(ctx.plans, out) && ValidRuntime(runtime)
    requires ProperPlan(ctx.lvl, reactions) && IsExact(Contents(reactions), at) && at.key >= 0
    modifies ctx`curLevel, ctx`insides, ctx`values
    ensures ctx.Valid() && ctx.insides.todoNow.None? && ProperPlan(ctx.lvl, merged)
    ensures ran == RunsOf(runtime, ctx.tag, at.key, Contents(reactions)[at.minIdx].value)
    ensures From(SlotsOf(merged), at.key + 1) ==
            From(SlotsOf(reactions) + DemandOf(ctx.plans, out, Elements(ran)), at.key + 1)
    ensures IsNextLevel(Contents(merged), at.key + 1, next)
    ensures Members(ctx.insides.futureEvents) ==
            old(Members(ctx.insides.futureEvents)) + ScheduledBy(ctx.plans, ctx.tag, out, Elements(ran))
    ensures ctx.values == StoredBy(old(ctx.values), ctx.tag, out, ran)
  {
    hide Slots, DemandOf, ScheduledBy, StoredBy;
    var todo;
    todo, ran := ExecuteLevel(ctx, at.key, Contents(reactions)[at.minIdx].value, out, runtime);
    merged := MergeDue(reactions, todo, at.key + 1, ctx.lvl, DemandOf(ctx.plans, out, Elements(ran)));
    next := NextLevel(merged, at);
  }

  /** `next_batch` on a plan; the cursor may come from the plan before the merge. */
  method NextLevel(plan: ReactionPlan, at: KeyRef) returns (next: Option<KeyRef>)
    requires ValidPlan(Contents(plan))
    ensures IsNextLevel(Contents(plan), at.key + 1, next)
  {
    var reactions := new ExecutableReactions.Clone(Contents(plan));
    next := reactions.NextBatch(at);
    FoundNextLevel(Contents(plan), at.key, next);
  }

  /** `first_batch` on a plan. */
  method FirstLevel(plan: ReactionPlan) returns (next: Option<KeyRef>)
    requires ValidPlan(Contents(plan))
    ensures IsNextLevel(Contents(plan), 0, next)
    ensures next.None? <==> Contents(plan) == []
  {
    var reactions := new ExecutableReactions.Clone(Contents(plan));
    next := reactions.FirstBatch();
    FoundFirstLevel(Contents(plan), next);
  }

  // ---------------------------------------------------------------------------------------------- the whole wave

  /** All that is or was due: the roots and what the reactions that ran have made due. */
  ghost function AllDue(plans: seq<Plan>, out: Behaviour, roots: set<Slot>, ran: set<ReactionId>): set<Slot>
    requires KnownBehaviour(plans, out)
  {
    roots + DemandOf(plans, out, ran)
  }

  ghost predicate LeveledSlots(lvl: map<ReactionId, nat>, slots: set<Slot>) {
    forall s | s in slots :: s.reaction in lvl && s.level == lvl[s.reaction]
  }

  /** The levels below `floor` are done: what was due there has run, and nothing that did not have to run. */
  ghost predicate DoneBelow(lvl: map<ReactionId, nat>, plans: seq<Plan>, out: Behaviour, roots: set<Slot>,
                            ran: set<ReactionId>, floor: int)
    requires KnownBehaviour(plans, out)
  {
    && (forall r | r in ran :: r in lvl && lvl[r] < floor)
    && (forall s | s in AllDue(plans, out, roots, ran) && s.level < floor :: s.reaction in ran)
    && (forall s: set<ReactionId> | (forall d | d in roots :: d.reaction in s) && Closed(plans, out, s) :: ran <= s)
  }

  lemma DemandIsLeveled(lvl: map<ReactionId, nat>, plans: seq<Plan>, out: Behaviour, ran: set<ReactionId>)
    requires ProperTables(lvl, plans) && KnownBehaviour(plans, out)
    ensures LeveledSlots(lvl, DemandOf(plans, out, ran))
  {
    forall r, s | r in ran && s in Demand(plans, out(r))
      ensures s.reaction in lvl && s.level == lvl[s.reaction]
    {
      var c :| c in out(r) && s in NowSlots(plans, c);
      assert ProperPlan(lvl, Some(Borrowed(plans[TriggerNow(c).value])));
    }
  }

  /** Running the whole batch of the next level gets that level done. */
  lemma OneMoreLevel(lvl: map<ReactionId, nat>, plans: seq<Plan>, out: Behaviour, roots: set<Slot>,
                     ran: set<ReactionId>, floor: int, level: int, batch: set<ReactionId>)
    requires KnownBehaviour(plans, out) && ProperTables(lvl, plans) && LeveledSlots(lvl, roots)
        && Causal(lvl, plans, out)
    requires DoneBelow(lvl, plans, out, roots, ran, floor) && floor <= level
    requires forall s | s in AllDue(plans, out, roots, ran) && floor <= s.level :: level <= s.level
    requires forall r :: r in batch <==> Slot(level, r) in AllDue(plans, out, roots, ran)
    ensures DoneBelow(lvl, plans, out, roots, ran + batch, level + 1)
    ensures batch !! ran && forall r | r in batch :: r in lvl && lvl[r] == level
  {
    DemandIsLeveled(lvl, plans, out, ran);
    assert forall r | r in batch :: r in lvl && lvl[r] == level;
    assert forall r, d | r in batch && d in Demand(plans, out(r)) :: level < d.level;
    assert forall s | s in AllDue(plans, out, roots, ran + batch) && s.level <= level ::
        s in AllDue(plans, out, roots, ran);
    forall s: set<ReactionId> | (forall d | d in roots :: d.reaction in s) && Closed(plans, out, s)
      ensures ran + batch <= s
    {
      forall r | r in batch
        ensures r in s
      {
        assert Slot(level, r) in AllDue(plans, out, roots, ran);
      }
    }
  }

  lemma AllLevelsDone(lvl: map<ReactionId, nat>, plans: seq<Plan>, out: Behaviour, roots: Plan,
                      ran: set<ReactionId>, floor: int)
    requires KnownBehaviour(plans, out) && DoneBelow(lvl, plans, out, Slots(roots), ran, floor)
    requires Above(AllDue(plans, out, Slots(roots), ran), floor) == {}
    ensures IsClosure(plans, out, Due(roots), ran)
  {
    forall s | s in AllDue(plans, out, Slots(roots), ran)
      ensures s.reaction in ran
    {
      assert s !in Above(AllDue(plans, out, Slots(roots), ran), floor);
    }
    forall r, d | r in ran && d in Demand(plans, out(r))
      ensures d.reaction in ran
    {
      assert d in AllDue(plans, out, Slots(roots), ran);
    }
    forall s: set<ReactionId> | Due(roots) <= s && Closed(plans, out, s)
      ensures ran <= s
    {
      assert forall d | d in Slots(roots) :: d.reaction in Due(roots);
    }
  }

  ghost function SlotsIn(plans: seq<Plan>): set<Slot> {
    set p, s | p in plans && s in Slots(p) :: s
  }

  /** The state of the loop of `process_tag` between two levels. */
  ghost predicate BetweenLevels(lvl: map<ReactionId, nat>, plans: seq<Plan>, out: Behaviour, roots: set<Slot>,
                                ran: seq<ReactionId>, floor: int, reactions: Plan, next: Option<KeyRef>)
    requires KnownBehaviour(plans, out)
  {
    && DoneBelow(lvl, plans, out, roots, Elements(ran), floor)
    && From(Slots(reactions), floor) == From(AllDue(plans, out, roots, Elements(ran)), floor)
    && IsNextLevel(reactions, floor, next)
    && Distinct(ran) && InLevelOrder(lvl, ran)
  }

  lemma BeforeFirstLevel(lvl: map<ReactionId, nat>, plans: seq<Plan>, out: Behaviour, roots: Plan, next: Option<KeyRef>)
    requires KnownBehaviour(plans, out) && ValidPlan(roots) && IsNextLevel(roots, 0, next)
    ensures BetweenLevels(lvl, plans, out, Slots(roots), [], 0, roots, next)
  {
    assert DemandOf(plans, out, Elements([])) == {};
    assert AllDue(plans, out, Slots(roots), Elements([])) == Slots(roots);
    AllAbove(roots);
  }

  /** The order of the reactions after one more level. */
  lemma StaysInOrder(lvl: map<ReactionId, nat>, ran: seq<ReactionId>, batch: seq<ReactionId>, level: int)
    requires Distinct(ran) && InLevelOrder(lvl, ran) && Distinct(batch)
    requires forall r | r in ran :: r in lvl && lvl[r] < level
    requires forall r | r in batch :: r in lvl && lvl[r] == level
    ensures Distinct(ran + batch) && InLevelOrder(lvl, ran + batch)
  {
    var s := ran + batch;
    forall i | 0 <= i < |s|
      ensures s[i] in lvl && (i < |ran| ==> lvl[s[i]] < level) && (i >= |ran| ==> lvl[s[i]] == level)
    {
      assert i < |ran| ==> s[i] in ran;
      assert i >= |ran| ==> s[i] in batch;
    }
  }

  /** A permutation of a strictly ascending level has no duplicates. */
  lemma PermutationIsDistinct(a: seq<ReactionId>, b: seq<ReactionId>)
    requires Strict(b) && multiset(a) == multiset(b)
    ensures Distinct(a)
  {
    forall i, j | 0 <= i < j < |a|
      ensures a[i] != a[j]
    {
      if a[i] == a[j] {
        assert a == a[..i] + [a[i]] + a[i + 1..j] + [a[j]] + a[j + 1..];
        assert multiset(a)[a[i]] >= 2;
        OncePerLevel(b, a[i]);
      }
    }
  }

  lemma {:induction false} OncePerLevel(b: Level, r: ReactionId)
    requires Strict(b)
    ensures multiset(b)[r] <= 1
  {
    if b != [] {
      var rest := b[..|b| - 1];
      assert b == rest + [b[|b| - 1]];
      OncePerLevel(rest, r);
      if r == b[|b| - 1] {
        assert r !in rest;
      }
    }
  }

  lemma RunsAll(runtime: Runtime, tag: EventTag, level: int, batch: seq<ReactionId>)
    requires ValidRuntime(runtime)
    ensures multiset(RunsOf(runtime, tag, level, batch)) == multiset(batch)
  {}

  /** The batch at the cursor is exactly what is due at the next level. */
  lemma BatchIsDue(lvl: map<ReactionId, nat>, plans: seq<Plan>, out: Behaviour, roots: set<Slot>,
                   ran: seq<ReactionId>, floor: int, reactions: Plan, at: KeyRef)
    requires KnownBehaviour(plans, out) && ValidPlan(reactions)
    requires BetweenLevels(lvl, plans, out, roots, ran, floor, reactions, Some(at))
    ensures forall s | s in AllDue(plans, out, roots, Elements(ran)) && floor <= s.level :: at.key <= s.level
    ensures forall r :: r in reactions[at.minIdx].value <==> Slot(at.key, r) in AllDue(plans, out, roots, Elements(ran))
  {
    var due := AllDue(plans, out, roots, Elements(ran));
    assert Above(due, floor) == From(due, floor).slots == From(Slots(reactions), floor).slots ==
        Above(Slots(reactions), floor);
    forall s | s in due && floor <= s.level
      ensures at.key <= s.level
    {
      assert s in Above(due, floor);
    }
    forall r
      ensures r in reactions[at.minIdx].value <==> Slot(at.key, r) in due
    {
      BatchAt(reactions, at, r);
      assert Slot(at.key, r) in Above(due, floor) <==> Slot(at.key, r) in due;
      assert Slot(at.key, r) in Above(Slots(reactions), floor) <==> Slot(at.key, r) in Slots(reactions);
    }
  }

  lemma DueUnion(plans: seq<Plan>, out: Behaviour, roots: set<Slot>, ran: set<ReactionId>, batch: set<ReactionId>)
    requires KnownBehaviour(plans, out)
    ensures AllDue(plans, out, roots, ran + batch) == AllDue(plans, out, roots, ran) + DemandOf(plans, out, batch)
  {}

  lemma AboveAbove(a: set<Slot>, b: set<Slot>, demand: set<Slot>, merged: set<Slot>, floor: int, min: int)
    requires floor <= min
    requires From(a, floor) == From(b, floor) && From(merged, min) == From(a + demand, min)
    ensures From(merged, min) == From(b + demand, min)
  {
    assert Above(a, floor) == Above(b, floor);
    assert Above(Above(a, floor), min) == Above(a, min) && Above(Above(b, floor), min) == Above(b, min);
    AboveUnion(a, demand, min);
    AboveUnion(b, demand, min);
  }

  /** One turn of the loop of `process_tag` keeps the state right. */
  lemma AfterLevel(lvl: map<ReactionId, nat>, plans: seq<Plan>, out: Behaviour, roots: set<Slot>,
                   ran: seq<ReactionId>, floor: int, reactions: Plan, at: KeyRef,
                   batch: seq<ReactionId>, merged: Plan, next: Option<KeyRef>)
    requires KnownBehaviour(plans, out) && ProperTables(lvl, plans) && LeveledSlots(lvl, roots)
        && Causal(lvl, plans, out)
    requires ValidPlan(reactions) && BetweenLevels(lvl, plans, out, roots, ran, floor, reactions, Some(at))
    requires multiset(batch) == multiset(reactions[at.minIdx].value)
    requires From(Slots(merged), at.key + 1) ==
        From(Slots(reactions) + DemandOf(plans, out, Elements(batch)), at.key + 1)
    requires IsNextLevel(merged, at.key + 1, next)
    ensures BetweenLevels(lvl, plans, out, roots, ran + batch, at.key + 1, merged, next)
  {
    hide Slots, DemandOf, AllDue, LeveledSlots, Causal, ProperTables, Distinct, InLevelOrder;
    BatchIsDue(lvl, plans, out, roots, ran, floor, reactions, at);
    SameElements(batch, reactions[at.minIdx].value);
    OneMoreLevel(lvl, plans, out, roots, Elements(ran), floor, at.key, Elements(batch));
    assert Elements(ran + batch) == Elements(ran) + Elements(batch);
    assert reactions[at.minIdx] in reactions;
    PermutationIsDistinct(batch, reactions[at.minIdx].value);
    StaysInOrder(lvl, ran, batch, at.key);
    DueUnion(plans, out, roots, Elements(ran), Elements(batch));
    AboveAbove(Slots(reactions), AllDue(plans, out, roots, Elements(ran)), DemandOf(plans, out, Elements(batch)),
               Slots(merged), floor, at.key + 1);
  }

  /** What a wave hands back: the reactions in the order in which they ran, the events to come, the action values. */
  datatype Outcome = Outcome(ran: seq<ReactionId>, events: seq<Event>, values: ReactorValues)

  ghost predicate IsOutcome(lvl: map<ReactionId, nat>, plans: seq<Plan>, tag: EventTag, out: Behaviour,
                            roots: set<ReactionId>, values: ReactorValues, o: Outcome)
    requires KnownBehaviour(plans, out)
  {
    && IsClosure(plans, out, roots, Elements(o.ran))
    && Distinct(o.ran) && InLevelOrder(lvl, o.ran)
    && Members(o.events) == ScheduledBy(plans, tag, out, Elements(o.ran))
    && o.values == StoredBy(values, tag, out, o.ran)
  }

  /**
   The wave of a tag, for any roots, any behaviour of the reactions within their declared effects, and any way to run
   batches in parallel: the reactions that run are the least set that contains the roots and what its elements make due,
   each once, in ascending order of levels.
   */
  method RunWave(plans: seq<Plan>, tag: EventTag, reactions: ReactionPlan, out: Behaviour, runtime: Runtime,
                 values: ReactorValues, ghost lvl: map<ReactionId, nat>) returns (o: Outcome)
    requires ProperTables(lvl, plans) && ProperPlan(lvl, reactions)
    requires KnownBehaviour(plans, out) && Causal(lvl, plans, out) && ValidRuntime(runtime)
    ensures IsOutcome(lvl, plans, tag, out, DueOf(reactions), values, o)
    ensures forall e | e in o.events :: ProperPlan(lvl, e.reactions)
    ensures Contents(reactions) == [] ==> o == Outcome([], [], values)
  {
    hide Slots, SlotsIn, DemandOf, ScheduledBy, StoredBy, AllDue, DoneBelow, Causal, Distinct, InLevelOrder,
        ProperTables, KnownBehaviour, Closed, Leaves;
    var todo, ran := reactions, [];
    ghost var roots, floor := Contents(reactions), 0;
    var next := FirstLevel(todo);
    BeforeFirstLevel(lvl, plans, out, roots, next);
    var ctx := new ReactionCtx(plans, tag, 0, values, lvl);
    NoneScheduled(plans, tag, out);
    RootsAreLeveled(lvl, roots);
    while next.Some?
      invariant ctx.Valid() && ctx.insides.todoNow.None? && ProperPlan(lvl, todo) && floor >= 0
      invariant BetweenLevels(lvl, plans, out, Slots(roots), ran, floor, Contents(todo), next)
      invariant Members(ctx.insides.futureEvents) == ScheduledBy(plans, tag, out, Elements(ran))
      invariant ctx.values == StoredBy(values, tag, out, ran)
      invariant roots == [] ==> next.None? && ran == [] && ctx.insides.futureEvents == []
      decreases Above(Slots(roots) + SlotsIn(plans), floor)
    {
      ghost var before, reached := todo, ran;
      var level, batch := next.value, [];
      todo, next, batch := ProcessLevel(ctx, todo, level, out, runtime);
      ran := ran + batch;
      RunsAll(runtime, tag, level.key, Contents(before)[level.minIdx].value);
      AfterLevel(lvl, plans, out, Slots(roots), reached, floor, Contents(before), level, batch, Contents(todo), next);
      StoredSplits(values, tag, out, reached, batch);
      MoreScheduled(plans, tag, out, reached, batch);
      LevelsRunOut(plans, out, Slots(roots), reached, floor, Contents(before), level);
      floor := level.key + 1;
    }
    AllLevelsDone(lvl, plans, out, roots, Elements(ran), floor);
    o := Outcome(ran, ctx.insides.futureEvents, ctx.values);
  }

  lemma NoneScheduled(plans: seq<Plan>, tag: EventTag, out: Behaviour)
    requires KnownBehaviour(plans, out)
    ensures ScheduledBy(plans, tag, out, Elements([])) == Members([])
    ensures forall values :: StoredBy(values, tag, out, []) == values
  {}

  lemma RootsAreLeveled(lvl: map<ReactionId, nat>, roots: Plan)
    requires Leveled(lvl, roots)
    ensures LeveledSlots(lvl, Slots(roots))
  {}

  lemma MoreScheduled(plans: seq<Plan>, tag: EventTag, out: Behaviour, a: seq<ReactionId>, b: seq<ReactionId>)
    requires KnownBehaviour(plans, out)
    ensures ScheduledBy(plans, tag, out, Elements(a + b)) ==
            ScheduledBy(plans, tag, out, Elements(a)) + ScheduledBy(plans, tag, out, Elements(b))
  {
    assert Elements(a + b) == Elements(a) + Elements(b);
  }

  /** Every turn leaves fewer slots above the floor, so the loop ends. */
  lemma LevelsRunOut(plans: seq<Plan>, out: Behaviour, roots: set<Slot>, ran: seq<ReactionId>, floor: int,
                     reactions: Plan, at: KeyRef)
    requires KnownBehaviour(plans, out) && Compact(reactions) && IsNextLevel(reactions, floor, Some(at))
    requires From(Slots(reactions), floor) == From(AllDue(plans, out, roots, Elements(ran)), floor)
    ensures Above(roots + SlotsIn(plans), at.key + 1) < Above(roots + SlotsIn(plans), floor)
  {
    var m := reactions[at.minIdx];
    assert m in reactions;
    var s := Slot(at.key, m.value[0]);
    assert s in Above(Slots(reactions), floor);
    assert s in From(Slots(reactions), floor).slots;
    assert s in AllDue(plans, out, roots, Elements(ran));
    DemandIsInTables(plans, out, Elements(ran));
    assert s in Above(roots + SlotsIn(plans), floor);
  }

  lemma DemandIsInTables(plans: seq<Plan>, out: Behaviour, ran: set<ReactionId>)
    requires KnownBehaviour(plans, out)
    ensures DemandOf(plans, out, ran) <= SlotsIn(plans)
  {
    forall r, s | r in ran && s in Demand(plans, out(r))
      ensures s in SlotsIn(plans)
    {
      var c :| c in out(r) && s in NowSlots(plans, c);
      assert plans[TriggerNow(c).value] in plans;
    }
  }
}
