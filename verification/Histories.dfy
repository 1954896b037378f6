/**
 The values of actions over whole runs: for a tag to come, an action holds the value of the call that scheduled it last
 (`schedule_with_v` in `src/scheduler/context.rs`).
 */
module Histories {
  import opened Wrappers
  import opened Plans
  import opened Graphs
  import opened Events
  import opened Context
  import opened Wave
  import opened Places
  import opened Machine
  import opened Runs
  import opened Requests
  import opened Values

  /** The call, made at `tag`, schedules the action for the tag of the key. */
  ghost predicate Schedules(tag: EventTag, c: Command, k: ActionKey) {
    (c.ScheduleLogical? || c.SchedulePhysical?) && Asks(tag, c, PhysicalEvent(k.tag, Some(k.action), false))
  }

  predicate Gives(c: Command, value: Option<Value>) {
    (c.ScheduleLogical? || c.SchedulePhysical?) && c.actionValue == value
  }

  /** The calls of reactions, in the order in which they are made. */
  function CallsOf(out: Behaviour, ran: seq<ReactionId>): seq<Command> {
    if ran == [] then [] else out(ran[0]) + CallsOf(out, ran[1..])
  }

  /**
    Of these calls, made at `tag`, the last one that schedules the action for the tag of the key gives it the value.
  */
  ghost predicate IsLast(tag: EventTag, cmds: seq<Command>, k: ActionKey, value: Option<Value>) {
    exists i :: && 0 <= i < |cmds| && Schedules(tag, cmds[i], k) && Gives(cmds[i], value)
                && forall j | i < j < |cmds| :: !Schedules(tag, cmds[j], k)
  }

  ghost predicate NoneSchedules(tag: EventTag, cmds: seq<Command>, k: ActionKey) {
    forall c | c in cmds :: !Schedules(tag, c, k)
  }

  /** Of all calls up to some point of a run, the last one that schedules the action for the tag gives it the value. */
  ghost predicate LastOfRun(log: seq<Processed>, outs: seq<Behaviour>, k: ActionKey, value: Option<Value>) {
    exists n :: && 0 <= n < |log| && n < |outs| && IsLast(log[n].tag, CallsOf(outs[n], log[n].ran), k, value)
                && forall m | n < m < |log| && m < |outs| :: NoneSchedules(log[m].tag, CallsOf(outs[m], log[m].ran), k)
  }

  // ---------------------------------------------------------------------------------------------- calls

  ghost predicate AllLaterCalls(plans: seq<Plan>, tag: EventTag, cmds: seq<Command>) {
    forall c | c in cmds :: Known(plans, c)
        && (Later(plans, tag, c).Some? ==> tag.Before(Later(plans, tag, c).value.tag))
  }

  lemma WriteIfSchedules(plans: seq<Plan>, tag: EventTag, c: Command, k: ActionKey)
    requires Known(plans, c) && (Later(plans, tag, c).Some? ==> tag.Before(Later(plans, tag, c).value.tag))
    ensures Schedules(tag, c, k) <==> WriteOf(tag, c).Some? && WriteOf(tag, c).value.place == OfAction(k)
    ensures Schedules(tag, c, k) ==> Gives(c, WriteOf(tag, c).value.value)
  {
    CallIsServed(plans, tag, c);
    if c.ScheduleLogical? || c.SchedulePhysical? {
      var p :| Asks(tag, c, p) && KnownEvent(plans, p) && Later(plans, tag, c).value == MakeExecutable(plans, p)
               && forall q | Asks(tag, c, q) :: q == p;
    }
  }

  lemma {:induction false} StoredIsLast(plans: seq<Plan>, v: ReactorValues, tag: EventTag, cmds: seq<Command>,
                                        k: ActionKey)
    requires AllLaterCalls(plans, tag, cmds)
    ensures NoneSchedules(tag, cmds, k) ==> At(StoredAll(v, tag, cmds), OfAction(k)) == At(v, OfAction(k))
    ensures forall value | IsLast(tag, cmds, k, value) :: At(StoredAll(v, tag, cmds), OfAction(k)) == Some(value)
    ensures NoneSchedules(tag, cmds, k) || exists value :: IsLast(tag, cmds, k, value)
    decreases cmds
  {
    hide Schedules;
    if cmds != [] {
      var head, rest := cmds[0], cmds[1..];
      var w := Stored(v, tag, head);
      StoredAt(v, tag, head, OfAction(k));
      WriteIfSchedules(plans, tag, head, k);
      StoredIsLast(plans, w, tag, rest, k);
      FirstOrRest(tag, cmds, k);
    }
  }

  lemma FirstOrRest(tag: EventTag, cmds: seq<Command>, k: ActionKey)
    requires cmds != []
    ensures NoneSchedules(tag, cmds, k) <==> !Schedules(tag, cmds[0], k) && NoneSchedules(tag, cmds[1..], k)
    ensures forall value :: IsLast(tag, cmds, k, value) <==>
      || IsLast(tag, cmds[1..], k, value)
      || (NoneSchedules(tag, cmds[1..], k) && Schedules(tag, cmds[0], k) && Gives(cmds[0], value))
  {
    hide Schedules;
    var rest := cmds[1..];
    assert forall i | 0 <= i < |rest| :: rest[i] == cmds[i + 1];
    forall value
      ensures IsLast(tag, cmds, k, value) <==>
        IsLast(tag, rest, k, value)
        || (NoneSchedules(tag, rest, k) && Schedules(tag, cmds[0], k) && Gives(cmds[0], value))
    {
      if IsLast(tag, cmds, k, value) {
        var i :| && 0 <= i < |cmds| && Schedules(tag, cmds[i], k) && Gives(cmds[i], value)
                 && forall j | i < j < |cmds| :: !Schedules(tag, cmds[j], k);
        if i > 0 {
          assert rest[i - 1] == cmds[i];
        }
      }
      if IsLast(tag, rest, k, value) {
        var i :| && 0 <= i < |rest| && Schedules(tag, rest[i], k) && Gives(rest[i], value)
                 && forall j | i < j < |rest| :: !Schedules(tag, rest[j], k);
        assert cmds[i + 1] == rest[i];
      }
    }
  }

  lemma {:induction false} StoredAllSplits(v: ReactorValues, tag: EventTag, a: seq<Command>, b: seq<Command>)
    ensures StoredAll(v, tag, a + b) == StoredAll(StoredAll(v, tag, a), tag, b)
    decreases a
  {
    if a == [] {
      assert a + b == b;
    } else {
      assert (a + b)[0] == a[0] && (a + b)[1..] == a[1..] + b;
      StoredAllSplits(Stored(v, tag, a[0]), tag, a[1..], b);
    }
  }

  lemma {:induction false} StoredCalls(v: ReactorValues, tag: EventTag, out: Behaviour, ran: seq<ReactionId>)
    ensures StoredBy(v, tag, out, ran) == StoredAll(v, tag, CallsOf(out, ran))
    decreases ran
  {
    if ran != [] {
      StoredAllSplits(v, tag, out(ran[0]), CallsOf(out, ran[1..]));
      StoredCalls(StoredAll(v, tag, out(ran[0])), tag, out, ran[1..]);
    }
  }

  lemma {:induction false} CallsAreLater(plans: seq<Plan>, tag: EventTag, out: Behaviour, ran: seq<ReactionId>)
    requires KnownBehaviour(plans, out) && SchedulesLater(plans, tag, out)
    ensures AllLaterCalls(plans, tag, CallsOf(out, ran))
    decreases ran
  {
    hide SchedulesLater, KnownBehaviour, Later;
    if ran != [] {
      CallsAreLater(plans, tag, out, ran[1..]);
      forall c | c in out(ran[0])
        ensures Known(plans, c) && (Later(plans, tag, c).Some? ==> tag.Before(Later(plans, tag, c).value.tag))
      {
        SchedulesNoneEarlier(plans, tag, out, ran[0], c);
      }
    }
  }

  // ---------------------------------------------------------------------------------------------- turns

  /** What the reactions of the turn have stored is stored: after a turn that processes a tag, and only then. */
  ghost predicate HasStored(s: State, out: Behaviour, t: State) {
    if |t.log| > |s.log| then t.scheduled == StoredBy(s.scheduled, t.log[|s.log|].tag, out, t.log[|s.log|].ran)
    else t.scheduled == s.scheduled
  }

  lemma ProcessingStores(lvl: map<ReactionId, nat>, plans: seq<Plan>, s: State, tag: EventTag, roots: set<ReactionId>,
                         out: Behaviour, isShutdown: bool, t: State)
    requires KnownBehaviour(plans, out) && ProcessesTag(lvl, plans, s, tag, roots, out, isShutdown, t)
    ensures HasStored(s, out, t)
  {
    hide IsClosure, ScheduledBy, AgendaOf;
  }

  lemma ShutdownStores(lvl: map<ReactionId, nat>, plans: seq<Plan>, s: State, tag: EventTag, roots: set<ReactionId>,
                       out: Behaviour, t: State)
    requires KnownBehaviour(plans, out) && |plans| > SHUTDOWN && ShutsDown(lvl, plans, s, tag, roots, out, t)
    ensures HasStored(s, out, t)
  {
    hide ProcessesTag;
    ProcessingStores(lvl, plans, s.(shutdown := Some(tag)), tag, roots + Due(plans[SHUTDOWN]), out, true,
                     t.(terminated := s.terminated));
  }

  lemma TurnStores(lvl: map<ReactionId, nat>, plans: seq<Plan>, s: State, i: Input, t: State)
    requires KnownInput(plans, i) && |plans| > SHUTDOWN && Turn(lvl, plans, s, i, t)
    ensures HasStored(s, i.out, t)
  {
    hide ProcessesTag, ShutsDown, StoredBy, AgendaOf, Join, Without, WorkAt, Arrived;
    var ready := Push(s, Arrived(plans, i.flushed));
    if ready.agenda.tags == {} {
      if i.received.None? {
        ShutdownStores(lvl, plans, ready, ready.shutdown.GetOr(i.now), {}, i.out, t);
      }
    } else {
      var tag :| IsLeast(ready.agenda.tags, tag) && TakesTag(lvl, plans, ready, tag, i, t);
      var rest, roots := ready.(agenda := Without(ready.agenda, tag)), WorkAt(ready.agenda, tag);
      if ready.shutdown.Some? && ready.shutdown.value.Before(tag) {
        ShutdownStores(lvl, plans, rest, ready.shutdown.value, {}, i.out, t);
      } else if !(i.interrupt.Some? && i.interrupt.value.tag.Before(tag)) {
        var next := if i.interrupt.Some? then Push(rest, {MakeExecutable(plans, i.interrupt.value)}) else rest;
        if tag in ready.agenda.stops || ready.shutdown == Some(tag) {
          ShutdownStores(lvl, plans, next, tag, roots, i.out, t);
        } else {
          ProcessingStores(lvl, plans, next, tag, roots, i.out, false, t);
        }
      }
    }
  }

  // ---------------------------------------------------------------------------------------------- runs

  /** The history of scheduled values gives the last value of each action and tag. */
  ghost predicate HoldsLast(scheduled: ReactorValues, log: seq<Processed>, outs: seq<Behaviour>, k: ActionKey) {
    forall value :: At(scheduled, OfAction(k)) == Some(value) <==> LastOfRun(log, outs, k, value)
  }

  lemma OneMoreWave(log: seq<Processed>, outs: seq<Behaviour>, p: Processed, out: Behaviour, k: ActionKey,
                    value: Option<Value>)
    requires |outs| == |log|
    ensures LastOfRun(log + [p], outs + [out], k, value) <==>
      || IsLast(p.tag, CallsOf(out, p.ran), k, value)
      || (NoneSchedules(p.tag, CallsOf(out, p.ran), k) && LastOfRun(log, outs, k, value))
  {
    hide IsLast, NoneSchedules;
    var next, more := log + [p], outs + [out];
    assert forall n | 0 <= n < |log| :: next[n] == log[n] && more[n] == outs[n];
    assert next[|log|] == p && more[|log|] == out;
    if LastOfRun(log, outs, k, value) && NoneSchedules(p.tag, CallsOf(out, p.ran), k) {
      var n :| && 0 <= n < |log| && n < |outs| && IsLast(log[n].tag, CallsOf(outs[n], log[n].ran), k, value)
               && forall m | n < m < |log| && m < |outs| :: NoneSchedules(log[m].tag, CallsOf(outs[m], log[m].ran), k);
      assert IsLast(next[n].tag, CallsOf(more[n], next[n].ran), k, value);
    }
    if IsLast(p.tag, CallsOf(out, p.ran), k, value) {
      assert IsLast(next[|log|].tag, CallsOf(more[|log|], next[|log|].ran), k, value);
    }
  }

  lemma WaveHoldsLast(plans: seq<Plan>, v: ReactorValues, log: seq<Processed>, outs: seq<Behaviour>, p: Processed,
                      out: Behaviour, k: ActionKey)
    requires |outs| == |log| && KnownBehaviour(plans, out) && SchedulesLater(plans, p.tag, out)
    requires HoldsLast(v, log, outs, k)
    ensures HoldsLast(StoredBy(v, p.tag, out, p.ran), log + [p], outs + [out], k)
  {
    var cmds := CallsOf(out, p.ran);
    StoredCalls(v, p.tag, out, p.ran);
    CallsAreLater(plans, p.tag, out, p.ran);
    StoredIsLast(plans, v, p.tag, cmds, k);
    hide CallsOf, NoneSchedules, IsLast, LastOfRun, StoredBy, StoredAll, SchedulesLater, KnownBehaviour, AllLaterCalls;
    forall value
      ensures At(StoredBy(v, p.tag, out, p.ran), OfAction(k)) == Some(value)
              <==> LastOfRun(log + [p], outs + [out], k, value)
    {
      OneMoreWave(log, outs, p, out, k, value);
      LastExcludesNone(p.tag, cmds, k, value);
    }
  }

  lemma LastExcludesNone(tag: EventTag, cmds: seq<Command>, k: ActionKey, value: Option<Value>)
    ensures !(IsLast(tag, cmds, k, value) && NoneSchedules(tag, cmds, k))
  {
    hide Schedules;
  }

  /** In every fair run: what was scheduled last for an action and a tag is what the last call for them says. */
  lemma {:induction false} RunHoldsLast(lvl: map<ReactionId, nat>, plans: seq<Plan>, timeout: Option<nat>,
                                        startup: Behaviour, states: seq<State>, inputs: seq<Input>, n: nat,
                                        k: ActionKey)
    requires |plans| > SHUTDOWN && IsRun(lvl, plans, timeout, startup, states, inputs)
    requires IsFairRun(lvl, plans, timeout, startup, states, inputs) && n < |states|
    ensures HoldsLast(states[n].scheduled, states[n].log, Behaviours(startup, states, inputs, n), k)
  {
    hide ProcessesTag, Turn, Running, HoldsLast, StoredBy;
    if n == 0 {
      var start := Initial(timeout);
      assert HoldsLast(start.scheduled, start.log, [], k) by { NothingHeld(k); }
      ProcessingStores(lvl, plans, start, ORIGIN, Due(plans[STARTUP]), startup, false, states[0]);
      ProcessedNext(lvl, plans, start, ORIGIN, Due(plans[STARTUP]), startup, false, states[0]);
      WaveHoldsLast(plans, start.scheduled, [], [], states[0].log[0], startup, k);
      assert states[0].log == [] + [states[0].log[0]] && [startup] == [] + [startup];
    } else {
      var j := n - 1;
      var s, t, outs := states[j], states[n], Behaviours(startup, states, inputs, j);
      LogStep(lvl, plans, timeout, startup, states, inputs, j, n);
      RunHoldsLast(lvl, plans, timeout, startup, states, inputs, j, k);
      TurnStores(lvl, plans, s, inputs[j], t);
      RunIsExplained(lvl, plans, timeout, startup, states, inputs, j);
      ExplainedLength(lvl, plans, s, outs);
      if t.log != s.log {
        RunIsSafe(lvl, plans, timeout, startup, states, inputs, n);
        LatestIsLast(plans, Initial(timeout).shutdown, t);
        WaveHoldsLast(plans, s.scheduled, s.log, outs, t.log[|s.log|], inputs[j].out, k);
        assert t.log == s.log + [t.log[|s.log|]];
      }
    }
  }

  lemma NothingHeld(k: ActionKey)
    ensures HoldsLast(NO_VALUES, [], [], k)
  {}

  lemma LatestIsLast(plans: seq<Plan>, timeout: Option<EventTag>, s: State)
    requires |plans| > SHUTDOWN && (Running(timeout, s) || Ended(plans, timeout, s))
    ensures s.log != [] && s.latest == Some(s.log[|s.log| - 1].tag)
  {}

  /**
   For a tag to come, an action holds a value if and only if it was scheduled for the tag, and the value is that of the
   last call that did so.
   */
  lemma ActionHoldsLast(lvl: map<ReactionId, nat>, plans: seq<Plan>, timeout: Option<nat>, startup: Behaviour,
                        states: seq<State>, inputs: seq<Input>, n: nat, k: ActionKey, value: Option<Value>)
    requires |plans| > SHUTDOWN && IsRun(lvl, plans, timeout, startup, states, inputs)
    requires IsFairRun(lvl, plans, timeout, startup, states, inputs) && n < |states| && !states[n].terminated
    requires states[n].latest.Some? && states[n].latest.value.Before(k.tag)
    ensures (k in states[n].values.actions && states[n].values.actions[k] == value) <==>
            LastOfRun(states[n].log, Behaviours(startup, states, inputs, n), k, value)
  {
    RunKeepsValues(lvl, plans, timeout, startup, states, inputs, n);
    RunHoldsLast(lvl, plans, timeout, startup, states, inputs, n, k);
    hide IsRun, IsFairRun, LastOfRun, HasEvent;
    assert SameAt(states[n].values, states[n].scheduled, OfAction(k));
    assert At(states[n].scheduled, OfAction(k)) == Some(value) <==>
           LastOfRun(states[n].log, Behaviours(startup, states, inputs, n), k, value);
  }
}
