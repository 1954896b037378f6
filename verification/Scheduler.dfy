/**
 The scheduler of `src/scheduler/scheduler_impl.rs`: sorted event list, levelled plans, cursors and parallel batches.
 Each of its operations takes the step that the abstract machine prescribes.
 */
module Scheduler {
  import opened Wrappers
  import opened Plans
  import opened Graphs
  import opened Events
  import opened Context
  import opened Wave
  import opened Machine
  import opened Runs

  class SyncScheduler {
    /** The table of plans of the compiled program and, for the specification, the levels of its reactions. */
    const plans: seq<Plan>
    ghost const lvl: map<ReactionId, nat>
    const runtime: Runtime
    const eventQueue: EventQueue
    var latestProcessedTag: Option<EventTag>
    var shutdownTime: Option<EventTag>
    var wasTerminated: bool
    /** The values of all actions and ports, which the reactors own. */
    var values: ReactorValues
    ghost var log: seq<Processed>
    ghost var pushed: Agenda
    ghost var scheduled: ReactorValues

    ghost predicate Valid()
      reads this, eventQueue
    {
      && eventQueue.Valid() && eventQueue.lvl == lvl && ProperTables(lvl, plans) && |plans| > SHUTDOWN
      && ValidRuntime(runtime)
    }

    /** The state of the abstract machine. */
    ghost function View(): State
      reads this, eventQueue
    {
      State(latestProcessedTag, shutdownTime, eventQueue.Pending(), values, wasTerminated, log, pushed, scheduled)
    }

    ghost predicate Accepts(out: Behaviour) {
      KnownBehaviour(plans, out) && Causal(lvl, plans, out)
    }

    constructor (plans: seq<Plan>, ghost lvl: map<ReactionId, nat>, runtime: Runtime, timeout: Option<nat>)
      requires ProperTables(lvl, plans) && |plans| > SHUTDOWN && ValidRuntime(runtime)
      ensures Valid() && fresh(eventQueue) && this.plans == plans && this.lvl == lvl
      ensures View() == Initial(timeout)
    {
      this.plans, this.lvl, this.runtime := plans, lvl, runtime;
      eventQueue := new EventQueue(lvl);
      latestProcessedTag, wasTerminated, values := None, false, NO_VALUES;
      shutdownTime := if timeout.Some? then Some(ORIGIN.Successor(timeout.value)) else None;
      log, pushed, scheduled := [], NO_AGENDA, NO_VALUES;
    }

    /** `push_event!`. */
    method PushEvent(evt: Event)
      requires Valid() && ProperPlan(lvl, evt.reactions)
      modifies this`pushed, eventQueue
      ensures Valid() && View() == Push(old(View()), {evt})
    {
      pushed := Join(pushed, AgendaOf({evt}));
      eventQueue.Push(evt);
    }

    method PushPhysical(p: PhysicalEvent)
      requires Valid() && KnownEvent(plans, p)
      modifies this`pushed, eventQueue
      ensures Valid() && View() == Push(old(View()), {MakeExecutable(plans, p)})
    {
      MadeProper(p);
      PushEvent(MakeExecutable(plans, p));
    }

    lemma MadeProper(p: PhysicalEvent)
      requires ProperTables(lvl, plans) && KnownEvent(plans, p)
      ensures ProperPlan(lvl, MakeExecutable(plans, p).reactions)
    {
      if p.trigger.Some? {
        assert ProperPlan(lvl, Some(Borrowed(plans[p.trigger.value])));
      } else {
        assert Slots([]) == {};
      }
    }

    /** Pushes events one after the other; only their set matters. */
    method PushAll(events: seq<Event>)
      requires Valid() && forall e | e in events :: ProperPlan(lvl, e.reactions)
      modifies this`pushed, eventQueue
      ensures Valid() && View() == Push(old(View()), Members(events))
    {
      ghost var before := View();
      PushNone(before);
      var i := 0;
      while i < |events|
        invariant 0 <= i <= |events| && Valid()
        invariant View() == Push(before, Members(events[..i]))
      {
        var next := i + 1;
        ghost var mid := View();
        PushEvent(events[i]);
        PushOneMore(before, events, i, next, mid, View());
        i := next;
      }
      assert events[..i] == events;
    }

    /** `self.rx.try_iter()`. */
    method Flush(events: seq<PhysicalEvent>)
      requires Valid() && forall p | p in events :: KnownEvent(plans, p)
      modifies this`pushed, eventQueue
      ensures Valid() && View() == Push(old(View()), Arrived(plans, events))
    {
      ghost var before := View();
      PushNone(before);
      assert Arrived(plans, events[..0]) == Members([]);
      var i := 0;
      while i < |events|
        invariant 0 <= i <= |events| && Valid()
        invariant View() == Push(before, Arrived(plans, events[..i]))
      {
        var next := i + 1;
        ghost var mid := View();
        PushPhysical(events[i]);
        ArrivedOneMore(plans, before, events, i, next, mid, View());
        i := next;
      }
      assert events[..i] == events;
    }

    /** `process_tag`. */
    method ProcessTag(isShutdown: bool, tag: EventTag, reactions: ReactionPlan, out: Behaviour)
      requires Valid() && ProperPlan(lvl, reactions) && Accepts(out)
      modifies this, eventQueue
      ensures Valid() && ProcessesTag(lvl, plans, old(View()), tag, DueOf(reactions), out, isShutdown, View())
    {
      ghost var before := View();
      latestProcessedTag := Some(tag);
      NothingDue(Contents(reactions));
      var first := FirstLevel(reactions);
      if first.None? {
        log := log + [Processed(tag, [], isShutdown)];
        return;
      }
      var o := RunWave(plans, tag, reactions, out, runtime, values, lvl);
      log := log + [Processed(tag, o.ran, isShutdown)];
      scheduled := StoredBy(scheduled, tag, out, o.ran);
      PushAll(o.events);
      // cleanup_tag of every reactor
      values := Forget(o.values, tag);
      assert View() == AfterWave(plans, before, tag, out, o.ran)
                       .(latest := Some(tag), log := before.log + [Processed(tag, o.ran, isShutdown)]);
    }

    /** `startup`. */
    method Startup(out: Behaviour)
      requires Valid() && Accepts(out)
      modifies this, eventQueue
      ensures Valid()
      ensures ProcessesTag(lvl, plans, old(View()), ORIGIN, Due(plans[STARTUP]), out, false, View())
    {
      assert ProperPlan(lvl, Some(Borrowed(plans[STARTUP])));
      ProcessTag(false, ORIGIN, Some(Borrowed(plans[STARTUP])), out);
    }

    /** `shutdown`. */
    method Shutdown(tag: EventTag, reactions: ReactionPlan, out: Behaviour)
      requires Valid() && ProperPlan(lvl, reactions) && Accepts(out)
      modifies this, eventQueue
      ensures Valid() && ShutsDown(lvl, plans, old(View()), tag, DueOf(reactions), out, View())
    {
      ghost var before := View();
      shutdownTime := Some(tag);
      var defaultPlan := Some(Borrowed(plans[SHUTDOWN]));
      assert ProperPlan(lvl, defaultPlan);
      var merged := MergeCows(reactions, defaultPlan);
      MergedDue(Contents(reactions), plans[SHUTDOWN], Contents(merged));
      ProcessTag(true, tag, merged, out);
      ghost var after := View();
      wasTerminated := true;
      assert after == View().(terminated := before.terminated);
    }

    /** `is_after_shutdown`. */
    predicate IsAfterShutdown(t: EventTag)
      reads this`shutdownTime
    {
      shutdownTime.Some? && shutdownTime.value.Before(t)
    }

    /**
     One turn of `launch_event_loop`, for whatever the channel, the sleep, the clock and the reactions contribute. It
     takes the step that the abstract machine prescribes.
     */
    method LoopTurn(i: Input)
      requires Valid() && !wasTerminated && KnownInput(plans, i) && Accepts(i.out)
      modifies this, eventQueue
      ensures Valid() && Turn(lvl, plans, old(View()), i, View())
    {
      Flush(i.flushed);
      ghost var ready := View();
      var next := eventQueue.TakeEarliest();
      if next.Some? {
        TakeTag(next.value, i, ready);
        assert IsLeast(ready.agenda.tags, next.value.tag) && TakesTag(lvl, plans, ready, next.value.tag, i, View());
      } else if i.received.Some? {
        PushPhysical(i.received.value);
      } else {
        NothingDue([]);
        Shutdown(shutdownTime.GetOr(i.now), None, i.out);
      }
    }

    /**
     `launch_event_loop` on the inputs of an environment, up to their end or the shutdown: what the scheduler does is a
     run of the abstract machine.
     */
    method LaunchEventLoop(timeout: Option<nat>, startup: Behaviour, inputs: seq<Input>)
        returns (ghost states: seq<State>)
      requires Valid() && View() == Initial(timeout) && Accepts(startup)
      requires forall i | i in inputs :: KnownInput(plans, i) && Accepts(i.out)
      modifies this, eventQueue
      ensures Valid() && 0 < |states| <= |inputs| + 1
      ensures IsRun(lvl, plans, timeout, startup, states, inputs[..|states| - 1])
      ensures states[|states| - 1] == View() && (|states| == |inputs| + 1 || wasTerminated)
    {
      Startup(startup);
      states := [View()];
      var n := 0;
      while n < |inputs| && !wasTerminated
        invariant 0 <= n <= |inputs| && |states| == n + 1 && Valid()
        invariant IsRun(lvl, plans, timeout, startup, states, inputs[..n]) && states[n] == View()
      {
        var next := n + 1;
        LoopTurn(inputs[n]);
        OneMoreTurn(lvl, plans, timeout, startup, states, inputs, n, next, View());
        states := states + [View()];
        n := next;
      }
    }

    /** The part of the turn after an event was taken from the queue. */
    method TakeTag(evt: Event, i: Input, ghost ready: State)
      requires Valid() && KnownInput(plans, i) && Accepts(i.out) && ProperPlan(lvl, evt.reactions)
      requires IsEarliest(ready.agenda, evt) && View() == ready.(agenda := Without(ready.agenda, evt.tag))
      modifies this, eventQueue
      ensures Valid() && TakesTag(lvl, plans, ready, evt.tag, i, View())
    {
      if IsAfterShutdown(evt.tag) {
        NothingDue([]);
        Shutdown(shutdownTime.value, None, i.out);
        return;
      }
      if i.interrupt.Some? {
        var asyncEvent := i.interrupt.value;
        if asyncEvent.tag.Before(evt.tag) {
          PutBack(ready.agenda, evt);
          eventQueue.Push(evt);
          assert View() == ready;
          PushPhysical(asyncEvent);
          return;
        }
        PushPhysical(asyncEvent);
      }
      if evt.terminate || shutdownTime == Some(evt.tag) {
        Shutdown(evt.tag, evt.reactions, i.out);
      } else {
        ProcessTag(false, evt.tag, evt.reactions, i.out);
      }
    }
  }

  lemma OneMoreTurn(lvl: map<ReactionId, nat>, plans: seq<Plan>, timeout: Option<nat>, startup: Behaviour,
                    states: seq<State>, inputs: seq<Input>, n: nat, m: nat, t: State)
    requires |plans| > SHUTDOWN && n < |inputs| && m == n + 1
    requires IsRun(lvl, plans, timeout, startup, states, inputs[..n])
    requires KnownInput(plans, inputs[n]) && Turn(lvl, plans, states[n], inputs[n], t)
    ensures IsRun(lvl, plans, timeout, startup, states + [t], inputs[..m])
  {
    hide ProcessesTag, Turn;
    var next, taken := states + [t], inputs[..m];
    forall k | 0 <= k < |taken|
      ensures KnownInput(plans, taken[k]) && Turn(lvl, plans, next[k], taken[k], next[k + 1])
    {
      if k < n {
        assert taken[k] == inputs[..n][k] && next[k] == states[k] && next[k + 1] == states[k + 1];
      }
    }
  }

  /** The event that was taken says all that the agenda said about its tag, so putting it back restores the agenda. */
  lemma PutBack(a: Agenda, evt: Event)
    requires IsEarliest(a, evt)
    ensures Join(Without(a, evt.tag), AgendaOf({evt})) == a
  {
    SingletonAgenda(evt);
    forall j | j in a.work && j.tag == evt.tag
      ensures j in JobsAt(evt.tag, DueOf(evt.reactions))
    {
      assert j.reaction in WorkAt(a, evt.tag);
    }
    forall j | j in JobsAt(evt.tag, DueOf(evt.reactions))
      ensures j in a.work
    {
      assert j.reaction in WorkAt(a, evt.tag);
    }
  }

  lemma NothingDue(plan: Plan)
    requires Compact(plan)
    ensures plan == [] <==> Due(plan) == {}
  {
    NoSlots(plan);
    assert forall s | s in Slots(plan) :: s.reaction in Due(plan);
  }

  lemma PushNone(s: State)
    ensures s == Push(s, Members([]))
  {
    assert Members([]) == {};
  }

  lemma PushTwice(s: State, a: set<Event>, b: set<Event>)
    ensures Push(Push(s, a), b) == Push(s, a + b)
  {
    JoinedAgenda(a, b);
    JoinIsAssociative(s.agenda, AgendaOf(a), AgendaOf(b));
    JoinIsAssociative(s.pushed, AgendaOf(a), AgendaOf(b));
  }

  lemma PushOneMore(before: State, events: seq<Event>, i: nat, j: nat, mid: State, after: State)
    requires i < |events| && j == i + 1
    requires mid == Push(before, Members(events[..i])) && after == Push(mid, {events[i]})
    ensures after == Push(before, Members(events[..j]))
  {
    assert events[..j] == events[..i] + [events[i]];
    assert Members(events[..j]) == Members(events[..i]) + {events[i]};
    PushTwice(before, Members(events[..i]), {events[i]});
  }

  lemma ArrivedOneMore(plans: seq<Plan>, before: State, events: seq<PhysicalEvent>, i: nat, j: nat, mid: State,
      after: State)
    requires i < |events| && j == i + 1 && forall p | p in events :: KnownEvent(plans, p)
    requires mid == Push(before, Arrived(plans, events[..i])) && after == Push(mid, {MakeExecutable(plans, events[i])})
    ensures after == Push(before, Arrived(plans, events[..j]))
  {
    var evt := MakeExecutable(plans, events[i]);
    assert events[..j] == events[..i] + [events[i]];
    assert Arrived(plans, events[..j]) == Arrived(plans, events[..i]) + {evt};
    PushTwice(before, Arrived(plans, events[..i]), {evt});
  }
}
