/**
 Action values and events agree: the scheduler never loses an action's event, and a reaction finds the value that was
 scheduled last for the tag (`schedule_with_v` in `src/scheduler/context.rs`, cleanup in
 `src/scheduler/scheduler_impl.rs`).
 */
module Values {
  import opened Wrappers
  import opened Plans
  import opened Graphs
  import opened Events
  import opened Context
  import opened Wave
  import opened Places
  import opened Machine
  import opened Runs

  /** The event that an action needs in order to be noticed is pending. */
  ghost predicate HasEvent(plans: seq<Plan>, a: Agenda, k: ActionKey) {
    k.action < |plans| && k.tag in a.tags && forall r | r in Due(plans[k.action]) :: Job(k.tag, r) in a.work
  }

  /**
   For tags after the latest processed one, the actions hold what was scheduled last for the tag, and there is an event
   for it.
   */
  ghost predicate ValuesAgree(plans: seq<Plan>, s: State) {
    s.latest.Some? && forall k: ActionKey | s.latest.value.Before(k.tag) ::
      SameAt(s.values, s.scheduled, OfAction(k)) && (k in s.values.actions ==> HasEvent(plans, s.agenda, k))
  }

  /** Whoever schedules an action also schedules its event. */
  lemma WritesWithEvent(plans: seq<Plan>, tag: EventTag, out: Behaviour, r: ReactionId, batch: set<ReactionId>,
      k: ActionKey)
    requires KnownBehaviour(plans, out) && r in batch && Writes(tag, out(r), OfAction(k))
    ensures HasEvent(plans, AgendaOf(ScheduledBy(plans, tag, out, batch)), k)
    ensures exists e :: e in Scheduled(plans, tag, out(r)) && e.tag == k.tag
  {
    var c :| c in out(r) && WriteOf(tag, c).Some? && WriteOf(tag, c).value.place == OfAction(k);
    var e := Later(plans, tag, c).value;
    assert e in Scheduled(plans, tag, out(r));
    assert e in ScheduledBy(plans, tag, out, batch);
    assert e.tag == k.tag && Contents(e.reactions) == plans[k.action];
  }

  // ---------------------------------------------------------------------------------------------- waves

  lemma HasEventStays(plans: seq<Plan>, a: Agenda, b: Agenda, k: ActionKey)
    requires HasEvent(plans, a, k) || HasEvent(plans, b, k)
    ensures HasEvent(plans, Join(a, b), k)
  {}

  lemma HasEventAfter(plans: seq<Plan>, a: Agenda, tag: EventTag, k: ActionKey)
    requires HasEvent(plans, a, k) && k.tag != tag
    ensures HasEvent(plans, Without(a, tag), k)
  {}

  lemma PushKeepsValues(plans: seq<Plan>, s: State, events: set<Event>)
    requires ValuesAgree(plans, s)
    ensures ValuesAgree(plans, Push(s, events))
  {
    forall k: ActionKey | s.latest.value.Before(k.tag) && k in s.values.actions
      ensures HasEvent(plans, Push(s, events).agenda, k)
    {
      HasEventStays(plans, s.agenda, AgendaOf(events), k);
    }
  }

  /** Agreement for the tags after `tag`, once the events at `tag` have been taken. */
  ghost predicate AgreeAfter(plans: seq<Plan>, s: State, tag: EventTag) {
    forall k: ActionKey | tag.Before(k.tag) ::
      SameAt(s.values, s.scheduled, OfAction(k)) && (k in s.values.actions ==> HasEvent(plans, s.agenda, k))
  }

  lemma TakenAgrees(plans: seq<Plan>, s: State, tag: EventTag)
    requires ValuesAgree(plans, s) && s.latest.value.Before(tag)
    ensures AgreeAfter(plans, s.(agenda := Without(s.agenda, tag)), tag)
  {
    forall k: ActionKey | tag.Before(k.tag) && k in s.values.actions
      ensures HasEvent(plans, Without(s.agenda, tag), k)
    {
      HasEventAfter(plans, s.agenda, tag, k);
    }
  }

  lemma WaveAgrees(plans: seq<Plan>, s: State, tag: EventTag, out: Behaviour, ran: seq<ReactionId>, k: ActionKey)
    requires KnownBehaviour(plans, out) && AgreeAfter(plans, s, tag) && tag.Before(k.tag)
    ensures var t := AfterWave(plans, s, tag, out, ran);
            SameAt(t.values, t.scheduled, OfAction(k)) && (k in t.values.actions ==> HasEvent(plans, t.agenda, k))
  {
    var t := AfterWave(plans, s, tag, out, ran);
    StoredBySame(s.values, s.scheduled, tag, out, ran, OfAction(k));
    var events := AgendaOf(ScheduledBy(plans, tag, out, Elements(ran)));
    if k in t.values.actions {
      if r :| r in ran && Writes(tag, out(r), OfAction(k)) {
        WritesWithEvent(plans, tag, out, r, Elements(ran), k);
      } else {
        StoredByElsewhere(s.values, tag, out, ran, OfAction(k));
      }
      HasEventStays(plans, s.agenda, events, k);
    }
  }

  lemma ProcessingAgrees(lvl: map<ReactionId, nat>, plans: seq<Plan>, s: State, tag: EventTag, roots: set<ReactionId>,
                         out: Behaviour, isShutdown: bool, t: State)
    requires KnownBehaviour(plans, out) && ProcessesTag(lvl, plans, s, tag, roots, out, isShutdown, t)
    requires AgreeAfter(plans, s, tag)
    ensures ValuesAgree(plans, t)
  {
    hide AfterWave, IsClosure, HasEvent;
    if roots != {} {
      var ran :| && IsClosure(plans, out, roots, Elements(ran)) && Distinct(ran) && InLevelOrder(lvl, ran)
                 && t == AfterWave(plans, s, tag, out, ran).(latest := Some(tag),
                     log := s.log + [Processed(tag, ran, isShutdown)]);
      forall k: ActionKey | tag.Before(k.tag)
        ensures SameAt(t.values, t.scheduled, OfAction(k)) && (k in t.values.actions ==> HasEvent(plans, t.agenda, k))
      {
        WaveAgrees(plans, s, tag, out, ran, k);
      }
    }
  }

  /** The agreement holds between the turns of every run. */
  lemma TurnKeepsValues(lvl: map<ReactionId, nat>, plans: seq<Plan>, timeout: Option<EventTag>, s: State, i: Input,
      t: State)
    requires KnownInput(plans, i) && |plans| > SHUTDOWN
    requires Running(timeout, s) && Turn(lvl, plans, s, i, t) && Fair(plans, s, i, t) && !t.terminated
    requires ValuesAgree(plans, s)
    ensures ValuesAgree(plans, t)
  {
    hide ProcessesTag, HasEvent, AgreeAfter, LaterThan, AllRan, Coherent, GoodLog, AgendaOf;
    var ready := Push(s, Arrived(plans, i.flushed));
    PushKeepsValues(plans, s, Arrived(plans, i.flushed));
    ArrivedLater(plans, i.flushed, s.latest.value);
    PushKeepsRunning(timeout, s, Arrived(plans, i.flushed));
    if ready.agenda.tags == {} {
      PushKeepsValues(plans, ready, {MakeExecutable(plans, i.received.value)});
    } else {
      var tag :| IsLeast(ready.agenda.tags, tag) && TakesTag(lvl, plans, ready, tag, i, t);
      LeastIsLater(timeout, ready, tag);
      if i.interrupt.Some? && i.interrupt.value.tag.Before(tag) {
        PushKeepsValues(plans, ready, {MakeExecutable(plans, i.interrupt.value)});
      } else {
        var events := if i.interrupt.Some? then {MakeExecutable(plans, i.interrupt.value)} else {};
        var rest := ready.(agenda := Without(ready.agenda, tag));
        TakenAgrees(plans, ready, tag);
        NoEvents(rest);
        PushKeepsAgreement(plans, rest, events, tag);
        ProcessingAgrees(lvl, plans, Push(rest, events), tag, WorkAt(ready.agenda, tag), i.out, false, t);
      }
    }
  }

  lemma PushKeepsAgreement(plans: seq<Plan>, s: State, events: set<Event>, tag: EventTag)
    requires AgreeAfter(plans, s, tag)
    ensures AgreeAfter(plans, Push(s, events), tag)
  {
    forall k: ActionKey | tag.Before(k.tag) && k in s.values.actions
      ensures HasEvent(plans, Push(s, events).agenda, k)
    {
      HasEventStays(plans, s.agenda, AgendaOf(events), k);
    }
  }

  /** At every point of every fair run, until the shutdown. */
  lemma {:induction false} RunKeepsValues(lvl: map<ReactionId, nat>, plans: seq<Plan>, timeout: Option<nat>,
                                          startup: Behaviour, states: seq<State>, inputs: seq<Input>, k: nat)
    requires |plans| > SHUTDOWN && IsRun(lvl, plans, timeout, startup, states, inputs)
    requires IsFairRun(lvl, plans, timeout, startup, states, inputs) && k < |states| && !states[k].terminated
    ensures ValuesAgree(plans, states[k])
  {
    hide ProcessesTag, TakesTag, Fair, Running, Ended, ValuesAgree;
    if k == 0 {
      assert AgreeAfter(plans, Initial(timeout), ORIGIN);
      ProcessingAgrees(lvl, plans, Initial(timeout), ORIGIN, Due(plans[STARTUP]), startup, false, states[0]);
    } else {
      RunIsSafe(lvl, plans, timeout, startup, states, inputs, k - 1);
      assert Turn(lvl, plans, states[k - 1], inputs[k - 1], states[k]);
      EndedIsFinal(lvl, plans, Initial(timeout).shutdown, states[k - 1], inputs[k - 1], states[k]);
      RunKeepsValues(lvl, plans, timeout, startup, states, inputs, k - 1);
      TurnKeepsValues(lvl, plans, Initial(timeout).shutdown, states[k - 1], inputs[k - 1], states[k]);
    }
  }

  // ---------------------------------------------------------------------------------------------- at a tag

  /**
   While a tag executes, whatever has run of it so far, an action is present exactly if it was scheduled for the tag,
   with the value scheduled last.
   */
  lemma PresentIffScheduled(plans: seq<Plan>, s: State, tag: EventTag, out: Behaviour, ran: seq<ReactionId>,
      action: TriggerId)
    requires ValuesAgree(plans, s) && s.latest.value.Before(tag)
    requires KnownBehaviour(plans, out) && SchedulesLater(plans, tag, out)
    ensures SameAt(StoredBy(s.values, tag, out, ran), s.scheduled, OfAction(ActionKey(action, tag)))
  {
    var k := ActionKey(action, tag);
    forall r | r in ran
      ensures !Writes(tag, out(r), OfAction(k))
    {
      if Writes(tag, out(r), OfAction(k)) {
        WritesWithEvent(plans, tag, out, r, {r}, k);
      }
    }
    StoredByElsewhere(s.values, tag, out, ran, OfAction(k));
  }

  /** Values for a processed tag stay behind only if nothing was due at it: then the cleanup is skipped. */
  lemma LeftBehind(lvl: map<ReactionId, nat>, plans: seq<Plan>, s: State, tag: EventTag, roots: set<ReactionId>,
                   out: Behaviour, isShutdown: bool, t: State, action: TriggerId)
    requires KnownBehaviour(plans, out) && ProcessesTag(lvl, plans, s, tag, roots, out, isShutdown, t)
    ensures ActionKey(action, tag) in t.values.actions <==> roots == {} && ActionKey(action, tag) in s.values.actions
  {}

  /**
   That happens: an action without reactions is scheduled, values and events agree, and the value is still there after
   the tag.
   */
  lemma LeftBehindHappens(tag: EventTag, value: Option<Value>) returns (s: State, i: Input, t: State)
    requires ORIGIN.Before(tag)
    ensures KnownInput([[], [], []], i) && Running(None, s) && ValuesAgree([[], [], []], s)
    ensures Turn(map[], [[], [], []], s, i, t) && Fair([[], [], []], s, i, t) && t.latest == Some(tag)
    ensures ActionKey(FIRST_REGULAR, tag) in t.values.actions
        && t.values.actions[ActionKey(FIRST_REGULAR, tag)] == value
  {
    var plans: seq<Plan> := [[], [], []];
    var out: Behaviour := _ => [];
    var key := ActionKey(FIRST_REGULAR, tag);
    var evt := Event(tag, Some(Borrowed(plans[FIRST_REGULAR])), false);
    var values := ReactorValues(map[key := value], map[]);
    var start := Initial(None).(latest := Some(ORIGIN), log := [Processed(ORIGIN, [], false)], values := values,
        scheduled := values);
    assert start.agenda == LaterThan(start.pushed, ORIGIN);
    PushKeepsRunning(None, start, {evt});
    s := Push(start, {evt});
    assert AgendaOf({evt}) == Agenda({tag}, {}, {}) by { SingletonAgenda(evt); assert Slots([]) == {}; }
    i := Input([], None, None, tag, out);
    assert Arrived(plans, i.flushed) == {};
    NoEvents(s);
    var rest := s.(agenda := Without(s.agenda, tag));
    t := rest.(latest := Some(tag), log := s.log + [Processed(tag, [], false)]);
    assert WorkAt(s.agenda, tag) == {};
    assert ProcessesTag(map[], plans, rest, tag, {}, out, false, t);
    assert IsLeast(s.agenda.tags, tag) && TakesTag(map[], plans, s, tag, i, t);
  }

  // ---------------------------------------------------------------------------------------------- ports

  lemma ProcessingClearsPorts(lvl: map<ReactionId, nat>, plans: seq<Plan>, s: State, tag: EventTag,
                              roots: set<ReactionId>, out: Behaviour, isShutdown: bool, t: State)
    requires KnownBehaviour(plans, out) && ProcessesTag(lvl, plans, s, tag, roots, out, isShutdown, t)
    requires s.values.ports == map[]
    ensures t.values.ports == map[]
  {
    hide IsClosure, Distinct, InLevelOrder, StoredBy, ScheduledBy;
  }

  lemma TurnClearsPorts(lvl: map<ReactionId, nat>, plans: seq<Plan>, s: State, i: Input, t: State)
    requires KnownInput(plans, i) && |plans| > SHUTDOWN && Turn(lvl, plans, s, i, t) && s.values.ports == map[]
    ensures t.values.ports == map[]
  {
    hide ProcessesTag, AgendaOf, Join, Without, WorkAt;
    var ready := Push(s, Arrived(plans, i.flushed));
    if ready.agenda.tags == {} {
      if i.received.None? {
        var stop := ready.shutdown.GetOr(i.now);
        ProcessingClearsPorts(lvl, plans, ready.(shutdown := Some(stop)), stop, {} + Due(plans[SHUTDOWN]), i.out, true,
                              t.(terminated := ready.terminated));
      }
    } else {
      var tag :| IsLeast(ready.agenda.tags, tag) && TakesTag(lvl, plans, ready, tag, i, t);
      TakingClearsPorts(lvl, plans, ready, tag, i, t);
    }
  }

  lemma TakingClearsPorts(lvl: map<ReactionId, nat>, plans: seq<Plan>, s: State, tag: EventTag, i: Input, t: State)
    requires KnownInput(plans, i) && |plans| > SHUTDOWN && TakesTag(lvl, plans, s, tag, i, t) && s.values.ports == map[]
    ensures t.values.ports == map[]
  {
    hide ProcessesTag, AgendaOf, Join, Without, WorkAt;
    var rest, roots := s.(agenda := Without(s.agenda, tag)), WorkAt(s.agenda, tag);
    if s.shutdown.Some? && s.shutdown.value.Before(tag) {
      ProcessingClearsPorts(lvl, plans, rest.(shutdown := Some(s.shutdown.value)), s.shutdown.value,
                            {} + Due(plans[SHUTDOWN]), i.out, true, t.(terminated := s.terminated));
    } else if !(i.interrupt.Some? && i.interrupt.value.tag.Before(tag)) {
      var next := if i.interrupt.Some? then Push(rest, {MakeExecutable(plans, i.interrupt.value)}) else rest;
      if tag in s.agenda.stops || s.shutdown == Some(tag) {
        ProcessingClearsPorts(lvl, plans, next.(shutdown := Some(tag)), tag, roots + Due(plans[SHUTDOWN]), i.out, true,
                              t.(terminated := next.terminated));
      } else {
        ProcessingClearsPorts(lvl, plans, next, tag, roots, i.out, false, t);
      }
    }
  }

  /** Between the turns of every run, in any environment, no port holds a value. */
  lemma {:induction false} RunClearsPorts(lvl: map<ReactionId, nat>, plans: seq<Plan>, timeout: Option<nat>,
                                          startup: Behaviour, states: seq<State>, inputs: seq<Input>, k: nat)
    requires |plans| > SHUTDOWN && IsRun(lvl, plans, timeout, startup, states, inputs) && k < |states|
    ensures states[k].values.ports == map[]
  {
    hide ProcessesTag, Turn;
    if k == 0 {
      ProcessingClearsPorts(lvl, plans, Initial(timeout), ORIGIN, Due(plans[STARTUP]), startup, false, states[0]);
    } else {
      RunClearsPorts(lvl, plans, timeout, startup, states, inputs, k - 1);
      TurnClearsPorts(lvl, plans, states[k - 1], inputs[k - 1], states[k]);
    }
  }
}
