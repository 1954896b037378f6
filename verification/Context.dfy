/**
 The context in which reactions run (`src/scheduler/context.rs`).

 A reaction is user code. All the scheduler sees of it is the sequence of calls it makes on its context, here a sequence
 of commands.
 */
module Context {
  import opened Wrappers
  import opened VecMaps
  import opened Plans
  import opened Graphs
  import opened Events
  import opened Timers

  /** Values carried by ports and actions. */
  type Value = int

  datatype Offset = After(duration: nat) | Asap {
    function ToDuration(): nat {
      match this
      case After(d) => d
      case Asap => 0
    }
  }

  datatype Command =
    | SetPort(port: TriggerId, portValue: Value)
    | BootstrapTimer(timer: Timer)
    | RescheduleTimer(timer: Timer)
    | ScheduleLogical(action: TriggerId, minDelay: nat, actionValue: Option<Value>, offset: Offset)
      // `clock` is the physical time at the call, since the start
    | SchedulePhysical(action: TriggerId, minDelay: nat, actionValue: Option<Value>, offset: Offset, clock: nat)
    | RequestStop(offset: Offset)

  type Behaviour = ReactionId -> seq<Command>

  /** The values that actions hold for the tags they were scheduled for. */
  datatype ActionKey = ActionKey(action: TriggerId, tag: EventTag)
  type ActionValues = map<ActionKey, Option<Value>>

  /** The values that the cells of ports hold during a tag. */
  type PortValues = map<TriggerId, Value>

  /** What the reactors hold, and reactions reach through their arguments. */
  datatype ReactorValues = ReactorValues(actions: ActionValues, ports: PortValues)

  const NO_VALUES := ReactorValues(map[], map[])

  /** What reactions hand over to the scheduler: `RContextForwardableStuff`. */
  datatype Insides = Insides(todoNow: ReactionPlan, futureEvents: seq<Event>)

  // ---------------------------------------------------------------------------------------------- what a command does

  /** The trigger that a command sets off at the current tag. */
  function TriggerNow(c: Command): Option<TriggerId> {
    match c
    case SetPort(port, _) => Some(port)
    case BootstrapTimer(timer) => if timer.offset == 0 then Some(timer.id) else None
    case _ => None
  }

  /** The trigger a command mentions; the tables must know it. */
  function Mentions(c: Command): Option<TriggerId> {
    match c
    case SetPort(port, _) => Some(port)
    case BootstrapTimer(timer) => Some(timer.id)
    case RescheduleTimer(timer) => Some(timer.id)
    case ScheduleLogical(action, _, _, _) => Some(action)
    case SchedulePhysical(action, _, _, _, _) => Some(action)
    case RequestStop(_) => None
  }

  predicate Known(plans: seq<Plan>, c: Command) {
    Mentions(c).Some? ==> Mentions(c).value < |plans|
  }

  predicate AllKnown(plans: seq<Plan>, cmds: seq<Command>) {
    forall c | c in cmds :: Known(plans, c)
  }

  /** The slots that a command makes due at the current tag. */
  ghost function NowSlots(plans: seq<Plan>, c: Command): set<Slot>
    requires Known(plans, c)
  {
    if TriggerNow(c).Some? then Slots(plans[TriggerNow(c).value]) else {}
  }

  /** The tag that a reaction schedules a physical action for: the offset is added to the clock. */
  function PhysicalTag(offset: Offset, clock: nat): EventTag {
    EventTag(clock + offset.ToDuration(), 0)
  }

  /** The tag that is documented: the action's own delay is added as well. */
  function DocumentedTag(minDelay: nat, offset: Offset, clock: nat): EventTag {
    EventTag(clock + minDelay + offset.ToDuration(), 0)
  }

  /** The event that a command schedules from `tag`, if any. */
  function Later(plans: seq<Plan>, tag: EventTag, c: Command): (r: Option<Event>)
    requires Known(plans, c)
  {
    match c
    case BootstrapTimer(timer) =>
      if timer.offset == 0 then None
      else Some(Event(tag.Successor(timer.offset), Some(Borrowed(plans[timer.id])), false))
    case RescheduleTimer(timer) =>
      if timer.IsPeriodic() then Some(Event(timer.Reschedule(tag), Some(Borrowed(plans[timer.id])), false)) else None
    case ScheduleLogical(action, minDelay, _, offset) =>
      Some(Event(tag.Successor(minDelay + offset.ToDuration()), Some(Borrowed(plans[action])), false))
    case SchedulePhysical(action, _, _, offset, clock) =>
      Some(Event(PhysicalTag(offset, clock), Some(Borrowed(plans[action])), false))
    case RequestStop(offset) =>
      Some(Event(tag.Successor(offset.ToDuration()), None, true))
    case SetPort(_, _) => None
  }

  /** What the reactors hold after a command. */
  function Stored(values: ReactorValues, tag: EventTag, c: Command): ReactorValues {
    match c
    case SetPort(port, value) => values.(ports := values.ports[port := value])
    case ScheduleLogical(action, minDelay, value, offset) =>
      values.(actions := values.actions[ActionKey(action, tag.Successor(minDelay + offset.ToDuration())) := value])
    case SchedulePhysical(action, _, value, offset, clock) =>
      values.(actions := values.actions[ActionKey(action, PhysicalTag(offset, clock)) := value])
    case _ => values
  }

  /** The logical delay of a command that schedules something; physical actions go by the clock instead. */
  function DelayOf(c: Command): nat {
    match c
    case BootstrapTimer(timer) => timer.offset
    case RescheduleTimer(timer) => timer.period
    case ScheduleLogical(_, minDelay, _, offset) => minDelay + offset.ToDuration()
    case RequestStop(offset) => offset.ToDuration()
    case _ => 0
  }

  /**
   What is scheduled by delay is later than the current tag, unless the last microstep overflows; what is scheduled
   by the clock is so if the clock, with the offset, is ahead of the current tag.
   */
  lemma ScheduledIsLater(plans: seq<Plan>, tag: EventTag, c: Command)
    requires Known(plans, c) && Later(plans, tag, c).Some?
    ensures tag.Before(Later(plans, tag, c).value.tag) <==>
            if c.SchedulePhysical? then tag.offset < c.clock + c.offset.ToDuration()
            else DelayOf(c) > 0 || tag.microstep != LAST_MICROSTEP
  {
    SuccessorIsLater(tag, DelayOf(c));
  }

  /** A physical action is scheduled for the documented tag exactly if it has no delay of its own. */
  lemma PhysicalDelayIsIgnored(plans: seq<Plan>, tag: EventTag, c: Command)
    requires Known(plans, c) && c.SchedulePhysical?
    ensures Later(plans, tag, c).Some?
    ensures Later(plans, tag, c).value.tag == DocumentedTag(c.minDelay, c.offset, c.clock) <==> c.minDelay == 0
  {}

  ghost function Demand(plans: seq<Plan>, cmds: seq<Command>): set<Slot>
    requires AllKnown(plans, cmds)
  {
    set c, s | c in cmds && s in NowSlots(plans, c) :: s
  }

  ghost function Scheduled(plans: seq<Plan>, tag: EventTag, cmds: seq<Command>): set<Event>
    requires AllKnown(plans, cmds)
  {
    set c | c in cmds && Later(plans, tag, c).Some? :: Later(plans, tag, c).value
  }

  function StoredAll(values: ReactorValues, tag: EventTag, cmds: seq<Command>): ReactorValues
    decreases cmds
  {
    if cmds == [] then values else StoredAll(Stored(values, tag, cmds[0]), tag, cmds[1..])
  }

  // ---------------------------------------------------------------------------------------------- what a batch does

  ghost predicate KnownBehaviour(plans: seq<Plan>, out: Behaviour) {
    forall r :: AllKnown(plans, out(r))
  }

  ghost function DemandOf(plans: seq<Plan>, out: Behaviour, batch: set<ReactionId>): set<Slot>
    requires KnownBehaviour(plans, out)
  {
    set r, s | r in batch && s in Demand(plans, out(r)) :: s
  }

  ghost function ScheduledBy(plans: seq<Plan>, tag: EventTag, out: Behaviour, batch: set<ReactionId>): set<Event>
    requires KnownBehaviour(plans, out)
  {
    set r, e | r in batch && e in Scheduled(plans, tag, out(r)) :: e
  }

  function StoredBy(values: ReactorValues, tag: EventTag, out: Behaviour, batch: seq<ReactionId>): ReactorValues
    decreases batch
  {
    if batch == [] then values else StoredBy(StoredAll(values, tag, out(batch[0])), tag, out, batch[1..])
  }

  lemma {:induction false} StoredSplits(values: ReactorValues, tag: EventTag, out: Behaviour,
                                        a: seq<ReactionId>, b: seq<ReactionId>)
    ensures StoredBy(values, tag, out, a + b) == StoredBy(StoredBy(values, tag, out, a), tag, out, b)
    decreases a
  {
    if a == [] {
      assert a + b == b;
    } else {
      assert (a + b)[0] == a[0] && (a + b)[1..] == a[1..] + b;
      StoredSplits(StoredAll(values, tag, out(a[0])), tag, out, a[1..], b);
    }
  }

  /**
   What executing reactions has brought about: the slots from level `min` on that are now due, and the events to come.
   The part of a plan below `min` is not looked at any more.
   */
  datatype Yield = Yield(due: set<Slot>, events: set<Event>)

  ghost function Plus(a: Yield, b: Yield): Yield {
    Yield(a.due + b.due, a.events + b.events)
  }

  ghost function YieldOf(i: Insides, min: int): Yield {
    Yield(Above(SlotsOf(i.todoNow), min), Members(i.futureEvents))
  }

  ghost function CommandYield(plans: seq<Plan>, tag: EventTag, c: Command, min: int): Yield
    requires Known(plans, c)
  {
    Yield(Above(NowSlots(plans, c), min), if Later(plans, tag, c).Some? then {Later(plans, tag, c).value} else {})
  }

  ghost function ReactionYield(plans: seq<Plan>, tag: EventTag, cmds: seq<Command>, min: int): Yield
    requires AllKnown(plans, cmds)
  {
    Yield(Above(Demand(plans, cmds), min), Scheduled(plans, tag, cmds))
  }

  ghost function BatchYield(plans: seq<Plan>, tag: EventTag, out: Behaviour, batch: set<ReactionId>, min: int): Yield
    requires KnownBehaviour(plans, out)
  {
    Yield(Above(DemandOf(plans, out, batch), min), ScheduledBy(plans, tag, out, batch))
  }

  /** What the single calls come to. */
  lemma CommandYields(plans: seq<Plan>, tag: EventTag, c: Command, min: int)
    requires Known(plans, c)
    ensures CommandYield(plans, tag, c, min) ==
      if c.SetPort? then Yield(Above(Slots(plans[c.port]), min), {})
      else if c.BootstrapTimer? && c.timer.offset == 0 then Yield(Above(Slots(plans[c.timer.id]), min), {})
      else if c.RescheduleTimer? && c.timer.period == 0 then Yield({}, {})
      else Yield({}, {Later(plans, tag, c).value})
  {
    assert Above({}, min) == {};
  }

  const NOTHING := Insides(None, [])

  lemma NothingYielded(min: int)
    ensures YieldOf(NOTHING, min) == Yield({}, {})
  {}

  lemma PlusIsAssociative(a: Yield, b: Yield, c: Yield)
    ensures Plus(Plus(a, b), c) == Plus(a, Plus(b, c))
  {}

  lemma PlusNothing(a: Yield)
    ensures Plus(a, Yield({}, {})) == a == Plus(Yield({}, {}), a)
  {}

  lemma AboveUnion(a: set<Slot>, b: set<Slot>, min: int)
    ensures Above(a + b, min) == Above(a, min) + Above(b, min)
  {}

  lemma FirstCommand(plans: seq<Plan>, tag: EventTag, cmds: seq<Command>, min: int)
    requires AllKnown(plans, cmds) && cmds != []
    ensures ReactionYield(plans, tag, cmds, min) ==
            Plus(CommandYield(plans, tag, cmds[0], min), ReactionYield(plans, tag, cmds[1..], min))
  {
    assert cmds == [cmds[0]] + cmds[1..];
    assert Demand(plans, cmds) == NowSlots(plans, cmds[0]) + Demand(plans, cmds[1..]);
    AboveUnion(NowSlots(plans, cmds[0]), Demand(plans, cmds[1..]), min);
  }

  lemma OneReaction(plans: seq<Plan>, tag: EventTag, out: Behaviour, r: ReactionId, min: int)
    requires KnownBehaviour(plans, out)
    ensures BatchYield(plans, tag, out, {r}, min) == ReactionYield(plans, tag, out(r), min)
  {
    assert DemandOf(plans, out, {r}) == Demand(plans, out(r));
    assert ScheduledBy(plans, tag, out, {r}) == Scheduled(plans, tag, out(r));
  }

  /** What a batch yields does not depend on how it is split. */
  lemma BatchSplits(plans: seq<Plan>, tag: EventTag, out: Behaviour, a: set<ReactionId>, b: set<ReactionId>, min: int)
    requires KnownBehaviour(plans, out)
    ensures BatchYield(plans, tag, out, a + b, min) ==
            Plus(BatchYield(plans, tag, out, a, min), BatchYield(plans, tag, out, b, min))
  {
    assert DemandOf(plans, out, a + b) == DemandOf(plans, out, a) + DemandOf(plans, out, b);
    AboveUnion(DemandOf(plans, out, a), DemandOf(plans, out, b), min);
    assert ScheduledBy(plans, tag, out, a + b) == ScheduledBy(plans, tag, out, a) + ScheduledBy(plans, tag, out, b);
  }

  // ---------------------------------------------------------------------------------------------- the context

  /** The tables of a program: every plan is proper. */
  ghost predicate ProperTables(lvl: map<ReactionId, nat>, plans: seq<Plan>) {
    forall p | p in plans :: ProperPlan(lvl, Some(Borrowed(p)))
  }

  ghost predicate ProperInsides(lvl: map<ReactionId, nat>, i: Insides) {
    ProperPlan(lvl, i.todoNow) && forall e | e in i.futureEvents :: ProperPlan(lvl, e.reactions)
  }

  lemma EnqueuedYield(i: Insides, evt: Event, min: int)
    ensures YieldOf(i.(futureEvents := i.futureEvents + [evt]), min) == Plus(YieldOf(i, min), Yield({}, {evt}))
  {}

  lemma AbsorbedYield(i: Insides, j: Insides, downstream: set<Slot>, min: int)
    requires j.futureEvents == i.futureEvents
    requires SlotsOf(j.todoNow) == SlotsOf(i.todoNow) + Above(downstream, min)
             || (i.todoNow.None? && SlotsOf(j.todoNow) == downstream)
    ensures YieldOf(j, min) == Plus(YieldOf(i, min), Yield(Above(downstream, min), {}))
  {
    assert Slots([]) == {};
    AboveUnion(SlotsOf(i.todoNow), Above(downstream, min), min);
  }

  /** `RContextForwardableStuff::merge`. */
  method MergeInsides(a: Insides, b: Insides, ghost lvl: map<ReactionId, nat>, ghost min: nat) returns (r: Insides)
    requires ProperInsides(lvl, a) && ProperInsides(lvl, b)
    ensures ProperInsides(lvl, r)
    ensures YieldOf(r, min) == Plus(YieldOf(a, min), YieldOf(b, min))
  {
    var todo := MergeCows(a.todoNow, b.todoNow);
    AboveUnion(SlotsOf(a.todoNow), SlotsOf(b.todoNow), min);
    r := Insides(todo, a.futureEvents + b.futureEvents);
  }

  class ReactionCtx {
    const plans: seq<Plan>
    const tag: EventTag
    ghost const lvl: map<ReactionId, nat>
    var curLevel: nat
    var insides: Insides
    var values: ReactorValues

    ghost predicate Valid()
      reads this
    {
      ProperTables(lvl, plans) && ProperInsides(lvl, insides)
    }

    ghost function Yielded(): Yield
      reads this
    {
      YieldOf(insides, curLevel + 1)
    }

    constructor (plans: seq<Plan>, tag: EventTag, curLevel: nat, values: ReactorValues, ghost lvl: map<ReactionId, nat>)
      requires ProperTables(lvl, plans)
      ensures Valid() && this.plans == plans && this.tag == tag && this.lvl == lvl
      ensures this.curLevel == curLevel && this.values == values && insides == NOTHING
    {
      this.plans, this.tag, this.lvl, this.curLevel, this.values := plans, tag, lvl, curLevel, values;
      insides := NOTHING;
    }

    method EnqueueNow(downstream: Plan)
      requires Valid() && downstream in plans
      modifies this`insides
      ensures Valid() && Yielded() == Plus(old(Yielded()), Yield(Above(Slots(downstream), curLevel + 1), {}))
    {
      assert ProperPlan(lvl, Some(Borrowed(downstream)));
      ghost var before := insides;
      if insides.todoNow.Some? {
        var doNext := new ExecutableReactions.Clone(insides.todoNow.value.plan);
        var more := new ExecutableReactions.Clone(downstream);
        doNext.AbsorbAfter(more, curLevel + 1);
        insides := insides.(todoNow := Some(Owned(doNext.levels.v)));
      } else {
        insides := insides.(todoNow := Some(Borrowed(downstream)));
      }
      AbsorbedYield(before, insides, Slots(downstream), curLevel + 1);
    }

    /** The end of `enqueue_later` and of `request_stop`. */
    method EnqueueEvent(evt: Event)
      requires Valid() && ProperPlan(lvl, evt.reactions)
      modifies this`insides
      ensures Valid() && Yielded() == Plus(old(Yielded()), Yield({}, {evt}))
    {
      EnqueuedYield(insides, evt, curLevel + 1);
      insides := insides.(futureEvents := insides.futureEvents + [evt]);
    }

    /** `set`: the value goes to the port's cell, and what the port triggers becomes due. */
    method Set(port: TriggerId, value: Value)
      requires Valid() && port < |plans|
      modifies this`insides, this`values
      ensures Valid() && values == old(values).(ports := old(values).ports[port := value])
      ensures Yielded() == Plus(old(Yielded()), Yield(Above(Slots(plans[port]), curLevel + 1), {}))
    {
      values := values.(ports := values.ports[port := value]);
      EnqueueNow(plans[port]);
    }

    method BootstrapTimer(timer: Timer)
      requires Valid() && timer.id < |plans|
      modifies this`insides
      ensures Valid()
      ensures Yielded() == Plus(old(Yielded()),
        if timer.offset == 0 then Yield(Above(Slots(plans[timer.id]), curLevel + 1), {})
        else Yield({}, {Event(tag.Successor(timer.offset), Some(Borrowed(plans[timer.id])), false)}))
    {
      var downstream := plans[timer.id];
      assert ProperPlan(lvl, Some(Borrowed(downstream)));
      if timer.offset == 0 {
        EnqueueNow(downstream);
      } else {
        EnqueueEvent(Event(tag.Successor(timer.offset), Some(Borrowed(downstream)), false));
      }
    }

    method RescheduleTimer(timer: Timer)
      requires Valid() && timer.id < |plans|
      modifies this`insides
      ensures Valid()
      ensures timer.period == 0 ==> Yielded() == old(Yielded())
      ensures timer.period != 0 ==>
        var evt := Event(tag.Successor(timer.period), Some(Borrowed(plans[timer.id])), false);
        Yielded() == Plus(old(Yielded()), Yield({}, {evt}))
    {
      PlusNothing(Yielded());
      if timer.IsPeriodic() {
        var downstream := plans[timer.id];
        assert ProperPlan(lvl, Some(Borrowed(downstream)));
        EnqueueEvent(Event(tag.Successor(timer.period), Some(Borrowed(downstream)), false));
      }
    }

    /** `LogicalAction::schedule_with_v`. */
    method ScheduleLogical(action: TriggerId, minDelay: nat, value: Option<Value>, offset: Offset)
      requires Valid() && action < |plans|
      modifies this`insides, this`values
      ensures Valid()
      ensures var eta := tag.Successor(minDelay + offset.ToDuration());
              && Yielded() == Plus(old(Yielded()), Yield({}, {Event(eta, Some(Borrowed(plans[action])), false)}))
              && values == old(values).(actions := old(values).actions[ActionKey(action, eta) := value])
    {
      hide Slots, ValidPlan, Compact, Leveled;
      var eta := tag.Successor(minDelay + offset.ToDuration());
      values := values.(actions := values.actions[ActionKey(action, eta) := value]);
      var downstream := plans[action];
      assert ProperPlan(lvl, Some(Borrowed(downstream)));
      EnqueueEvent(Event(eta, Some(Borrowed(downstream)), false));
    }

    /** `PhysicalActionRef::schedule_with_v`. */
    method SchedulePhysical(action: TriggerId, minDelay: nat, value: Option<Value>, offset: Offset, clock: nat)
      requires Valid() && action < |plans|
      modifies this`insides, this`values
      ensures Valid()
      ensures var at := EventTag(clock + offset.ToDuration(), 0);
              && Yielded() == Plus(old(Yielded()), Yield({}, {Event(at, Some(Borrowed(plans[action])), false)}))
              && values == old(values).(actions := old(values).actions[ActionKey(action, at) := value])
    {
      hide Slots, ValidPlan, Compact, Leveled;
      var at := PhysicalTag(offset, clock);
      values := values.(actions := values.actions[ActionKey(action, at) := value]);
      var downstream := plans[action];
      assert ProperPlan(lvl, Some(Borrowed(downstream)));
      EnqueueEvent(Event(at, Some(Borrowed(downstream)), false));
    }

    method RequestStop(offset: Offset)
      requires Valid()
      modifies this`insides
      ensures Valid()
      ensures Yielded() ==
        Plus(old(Yielded()), Yield({}, {Event(tag.Successor(offset.ToDuration()), None, true)}))
    {
      assert Slots([]) == {};
      EnqueueEvent(Event(tag.Successor(offset.ToDuration()), None, true));
    }

    /** One call of a reaction on its context. */
    method Perform(c: Command)
      requires Valid() && Known(plans, c)
      modifies this`insides, this`values
      ensures Valid() && Yielded() == Plus(old(Yielded()), CommandYield(plans, tag, c, curLevel + 1))
      ensures values == Stored(old(values), tag, c)
    {
      ghost var before := Yielded();
      CommandYields(plans, tag, c, curLevel + 1);
      PlusNothing(before);
      hide Slots, ProperInsides, ProperTables, ProperPlan, Usable, YieldOf, Above, NowSlots, CommandYield, Plus;
      match c {
        case SetPort(port, value) => Set(port, value);
        case BootstrapTimer(timer) => BootstrapTimer(timer);
        case RescheduleTimer(timer) => RescheduleTimer(timer);
        case ScheduleLogical(action, minDelay, value, offset) => ScheduleLogical(action, minDelay, value, offset);
        case SchedulePhysical(action, minDelay, value, offset, clock) =>
          SchedulePhysical(action, minDelay, value, offset, clock);
        case RequestStop(offset) => RequestStop(offset);
      }
    }

    /** `execute`: the reaction makes its calls one after the other. */
    method Execute(cmds: seq<Command>)
      requires Valid() && AllKnown(plans, cmds)
      modifies this`insides, this`values
      ensures Valid() && Yielded() == Plus(old(Yielded()), ReactionYield(plans, tag, cmds, curLevel + 1))
      ensures values == StoredAll(old(values), tag, cmds)
      decreases cmds
    {
      ghost var before := Yielded();
      if cmds == [] {
        NoCommand(plans, tag, before, curLevel + 1);
      } else {
        Perform(cmds[0]);
        ghost var next := Yielded();
        Execute(cmds[1..]);
        OneMoreCommand(plans, tag, cmds, before, next, Yielded(), curLevel + 1);
      }
    }

    /** The loop that executes a batch. */
    method ExecuteBatch(batch: seq<ReactionId>, out: Behaviour)
      requires Valid() && KnownBehaviour(plans, out)
      modifies this`insides, this`values
      ensures Valid() && Yielded() == Plus(old(Yielded()), BatchYield(plans, tag, out, Elements(batch), curLevel + 1))
      ensures values == StoredBy(old(values), tag, out, batch)
    {
      ghost var before, old_values := Yielded(), values;
      NoReaction(plans, tag, out, batch, before, curLevel + 1);
      var i := 0;
      while i < |batch|
        invariant 0 <= i <= |batch| && Valid()
        invariant Yielded() == Plus(before, BatchYield(plans, tag, out, Elements(batch[..i]), curLevel + 1))
        invariant values == StoredBy(old_values, tag, out, batch[..i])
      {
        var next := i + 1;
        ghost var yielded := Yielded();
        Execute(out(batch[i]));
        OneMoreReaction(plans, tag, out, batch, i, next, before, yielded, Yielded(), curLevel + 1);
        OneMoreStore(old_values, tag, out, batch, i, next);
        i := next;
      }
      assert batch[..i] == batch;
    }
  }

  lemma NoCommand(plans: seq<Plan>, tag: EventTag, before: Yield, min: int)
    ensures before == Plus(before, ReactionYield(plans, tag, [], min))
  {
    assert ReactionYield(plans, tag, [], min) == Yield({}, {});
    PlusNothing(before);
  }

  lemma OneMoreCommand(plans: seq<Plan>, tag: EventTag, cmds: seq<Command>, before: Yield, next: Yield, after: Yield,
      min: int)
    requires AllKnown(plans, cmds) && cmds != []
    requires next == Plus(before, CommandYield(plans, tag, cmds[0], min))
    requires after == Plus(next, ReactionYield(plans, tag, cmds[1..], min))
    ensures after == Plus(before, ReactionYield(plans, tag, cmds, min))
  {
    FirstCommand(plans, tag, cmds, min);
    PlusIsAssociative(before, CommandYield(plans, tag, cmds[0], min), ReactionYield(plans, tag, cmds[1..], min));
  }

  lemma NoReaction(plans: seq<Plan>, tag: EventTag, out: Behaviour, batch: seq<ReactionId>, before: Yield, min: int)
    requires KnownBehaviour(plans, out)
    ensures before == Plus(before, BatchYield(plans, tag, out, Elements(batch[..0]), min))
  {
    assert BatchYield(plans, tag, out, Elements(batch[..0]), min) == Yield({}, {});
    PlusNothing(before);
  }

  lemma OneMoreReaction(plans: seq<Plan>, tag: EventTag, out: Behaviour, batch: seq<ReactionId>, i: nat, j: nat,
                        before: Yield, next: Yield, after: Yield, min: int)
    requires KnownBehaviour(plans, out) && i < |batch| && j == i + 1
    requires next == Plus(before, BatchYield(plans, tag, out, Elements(batch[..i]), min))
    requires after == Plus(next, ReactionYield(plans, tag, out(batch[i]), min))
    ensures after == Plus(before, BatchYield(plans, tag, out, Elements(batch[..j]), min))
  {
    var done, r := Elements(batch[..i]), batch[i];
    assert batch[..j] == batch[..i] + [r];
    assert Elements(batch[..j]) == done + {r};
    OneReaction(plans, tag, out, r, min);
    BatchSplits(plans, tag, out, done, {r}, min);
    PlusIsAssociative(before, BatchYield(plans, tag, out, done, min), BatchYield(plans, tag, out, {r}, min));
  }

  lemma OneMoreStore(values: ReactorValues, tag: EventTag, out: Behaviour, batch: seq<ReactionId>, i: nat, j: nat)
    requires i < |batch| && j == i + 1
    ensures StoredBy(values, tag, out, batch[..j]) ==
        StoredAll(StoredBy(values, tag, out, batch[..i]), tag, out(batch[i]))
  {
    assert batch[..j] == batch[..i] + [batch[i]];
    StoredSplits(values, tag, out, batch[..i], [batch[i]]);
    var v := StoredBy(values, tag, out, batch[..i]);
    assert [batch[i]][1..] == [];
  }
}
