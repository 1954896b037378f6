/**
 The scheduler as an abstract machine, without levels, plans or sorted lists: what is pending is a set of jobs, and a
 step runs the closure of the jobs of the least tag (`src/scheduler/scheduler_impl.rs`).
 */
module Machine {
  import opened Wrappers
  import opened Plans
  import opened Graphs
  import opened Events
  import opened Context
  import opened Wave

  /** An event that an asynchronous thread sends. */
  datatype PhysicalEvent = PhysicalEvent(tag: EventTag, trigger: Option<TriggerId>, terminate: bool)

  predicate KnownEvent(plans: seq<Plan>, p: PhysicalEvent) {
    p.trigger.Some? ==> p.trigger.value < |plans|
  }

  function MakeExecutable(plans: seq<Plan>, p: PhysicalEvent): Event
    requires KnownEvent(plans, p)
  {
    Event(p.tag, if p.trigger.Some? then Some(Borrowed(plans[p.trigger.value])) else None, p.terminate)
  }

  /** A tag that was processed, and the reactions that ran at it, in their order. */
  datatype Processed = Processed(tag: EventTag, ran: seq<ReactionId>, isShutdown: bool)

  /**
   `pushed`, `scheduled` and `log` only record history: all that was ever pending, all values ever stored, and
   the tags processed.
   */
  datatype State = State(
    latest: Option<EventTag>,
    shutdown: Option<EventTag>,
    agenda: Agenda,
    values: ReactorValues,
    terminated: bool,
    log: seq<Processed>,
    pushed: Agenda,
    scheduled: ReactorValues)

  /**
   What the environment contributes to one turn of the loop: the events waiting in the channel, the event that
   interrupts the sleep, the event received while nothing is pending, the clock at the end, and what the reactions
   do.
   */
  datatype Input = Input(
    flushed: seq<PhysicalEvent>,
    interrupt: Option<PhysicalEvent>,
    received: Option<PhysicalEvent>,
    now: EventTag,
    out: Behaviour)

  ghost predicate KnownInput(plans: seq<Plan>, i: Input) {
    && (forall p | p in i.flushed :: KnownEvent(plans, p))
    && (i.interrupt.Some? ==> KnownEvent(plans, i.interrupt.value))
    && (i.received.Some? ==> KnownEvent(plans, i.received.value))
    && KnownBehaviour(plans, i.out)
  }

  const NO_AGENDA := Agenda({}, {}, {})

  function Initial(timeout: Option<nat>): State {
    State(None, if timeout.Some? then Some(ORIGIN.Successor(timeout.value)) else None,
          NO_AGENDA, NO_VALUES, false, [], NO_AGENDA, NO_VALUES)
  }

  // ---------------------------------------------------------------------------------------------- steps

  ghost function Push(s: State, events: set<Event>): State {
    s.(agenda := Join(s.agenda, AgendaOf(events)), pushed := Join(s.pushed, AgendaOf(events)))
  }

  ghost function Arrived(plans: seq<Plan>, events: seq<PhysicalEvent>): set<Event>
    requires forall p | p in events :: KnownEvent(plans, p)
  {
    set p | p in events :: MakeExecutable(plans, p)
  }

  /** `cleanup_tag` of every reactor: ports lose their values, and actions those for the tag. */
  function Forget(values: ReactorValues, tag: EventTag): ReactorValues {
    ReactorValues(map k | k in values.actions && k.tag != tag :: values.actions[k], map[])
  }

  /** The state after a wave in which `ran` ran. */
  ghost function AfterWave(plans: seq<Plan>, s: State, tag: EventTag, out: Behaviour, ran: seq<ReactionId>): State
    requires KnownBehaviour(plans, out)
  {
    Push(s, ScheduledBy(plans, tag, out, Elements(ran)))
    .(values := Forget(StoredBy(s.values, tag, out, ran), tag), scheduled := StoredBy(s.scheduled, tag, out, ran))
  }

  /** `process_tag`; a tag at which nothing is due is processed without the cleanup. */
  ghost predicate ProcessesTag(lvl: map<ReactionId, nat>, plans: seq<Plan>, s: State, tag: EventTag,
                               roots: set<ReactionId>, out: Behaviour, isShutdown: bool, t: State)
    requires KnownBehaviour(plans, out)
  {
    if roots == {} then
      t == s.(latest := Some(tag), log := s.log + [Processed(tag, [], isShutdown)])
    else
      exists ran ::
        && IsClosure(plans, out, roots, Elements(ran)) && Distinct(ran) && InLevelOrder(lvl, ran)
        && t == AfterWave(plans, s, tag, out, ran).(latest := Some(tag),
            log := s.log + [Processed(tag, ran, isShutdown)])
  }

  /** `shutdown`. */
  ghost predicate ShutsDown(lvl: map<ReactionId, nat>, plans: seq<Plan>, s: State, tag: EventTag,
                            roots: set<ReactionId>, out: Behaviour, t: State)
    requires KnownBehaviour(plans, out) && |plans| > SHUTDOWN
  {
    && t.terminated
    && ProcessesTag(lvl, plans, s.(shutdown := Some(tag)), tag, roots + Due(plans[SHUTDOWN]), out, true,
                    t.(terminated := s.terminated))
  }

  ghost predicate IsLeast(tags: set<EventTag>, tag: EventTag) {
    tag in tags && forall t | t in tags :: tag.AtMost(t)
  }

  /** The loop body once `tag` is the least pending tag. */
  ghost predicate TakesTag(lvl: map<ReactionId, nat>, plans: seq<Plan>, s: State, tag: EventTag, i: Input, t: State)
    requires KnownInput(plans, i) && |plans| > SHUTDOWN
  {
    var rest := s.(agenda := Without(s.agenda, tag));
    var roots := WorkAt(s.agenda, tag);
    if s.shutdown.Some? && s.shutdown.value.Before(tag) then
      ShutsDown(lvl, plans, rest, s.shutdown.value, {}, i.out, t)
    else if i.interrupt.Some? && i.interrupt.value.tag.Before(tag) then
      t == Push(s, {MakeExecutable(plans, i.interrupt.value)})
    else
      var next := if i.interrupt.Some? then Push(rest, {MakeExecutable(plans, i.interrupt.value)}) else rest;
      if tag in s.agenda.stops || s.shutdown == Some(tag) then
        ShutsDown(lvl, plans, next, tag, roots, i.out, t)
      else
        ProcessesTag(lvl, plans, next, tag, roots, i.out, false, t)
  }

  /** One turn of the event loop. */
  ghost predicate Turn(lvl: map<ReactionId, nat>, plans: seq<Plan>, s: State, i: Input, t: State)
    requires KnownInput(plans, i) && |plans| > SHUTDOWN
  {
    && !s.terminated
    && var ready := Push(s, Arrived(plans, i.flushed));
       if ready.agenda.tags == {} then
         if i.received.Some? then t == Push(ready, {MakeExecutable(plans, i.received.value)})
         else ShutsDown(lvl, plans, ready, ready.shutdown.GetOr(i.now), {}, i.out, t)
       else
         exists tag :: IsLeast(ready.agenda.tags, tag) && TakesTag(lvl, plans, ready, tag, i, t)
  }
}
