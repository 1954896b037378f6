/**
 Timers over whole runs. For each timer a reaction is synthesized that starts it at startup, and one that the timer
 triggers and that schedules the timer again (`bootstrap_timer` and `reschedule_timer` in `src/scheduler/context.rs`).
 */
module Ticks {
  import opened Wrappers
  import opened Plans
  import opened Graphs
  import opened Events
  import opened Timers
  import opened Context
  import opened Wave
  import opened Machine
  import opened Runs
  import opened Requests
  import opened Services

  // ------------------------------------------------------------------------------------------- what sets a trigger off

  /** The call sets off the trigger at the same tag. */
  ghost predicate SetsOff(c: Command, trigger: TriggerId) {
    || (c.SetPort? && c.port == trigger)
    || (c.BootstrapTimer? && c.timer.offset == 0 && c.timer.id == trigger)
  }

  ghost predicate IsRequestedAt(asked: iset<Request>, trigger: TriggerId, tag: EventTag) {
    exists p :: p in asked && p.trigger == Some(trigger) && p.tag == tag
  }

  ghost predicate SomeSetsOff(out: Behaviour, ran: seq<ReactionId>, trigger: TriggerId) {
    exists r, c :: r in ran && c in out(r) && SetsOff(c, trigger)
  }

  /** The trigger is set off at the tag, by a request for it or by a call at it. */
  ghost predicate IsSetOff(asked: iset<Request>, p: Processed, out: Behaviour, trigger: TriggerId) {
    IsRequestedAt(asked, trigger, p.tag) || SomeSetsOff(out, p.ran, trigger)
  }

  /** Once it is, all that it triggers runs. */
  lemma AllRunIfSetOff(plans: seq<Plan>, asked: iset<Request>, p: Processed, isStartup: bool, out: Behaviour,
                       trigger: TriggerId)
    requires |plans| > SHUTDOWN && KnownBehaviour(plans, out) && trigger < |plans|
    requires IsCascade(plans, out, RootsRequested(plans, asked, p, isStartup), Elements(p.ran))
    requires IsSetOff(asked, p, out, trigger)
    ensures Due(plans[trigger]) <= Elements(p.ran)
  {
    var roots, ran := RootsRequested(plans, asked, p, isStartup), Elements(p.ran);
    if IsRequestedAt(asked, trigger, p.tag) {
      var q :| q in asked && q.trigger == Some(trigger) && q.tag == p.tag;
      forall r | r in Due(plans[trigger])
        ensures r in ran
      {
        assert Wants(plans, q, Job(p.tag, r));
        assert r in roots;
      }
    } else {
      var s, c :| s in p.ran && c in out(s) && SetsOff(c, trigger);
      assert RunsNow(plans, c, ran);
    }
  }

  lemma RestsIfNotSetOff(plans: seq<Plan>, asked: iset<Request>, p: Processed, isStartup: bool, out: Behaviour,
                         trigger: TriggerId, r: ReactionId)
    requires |plans| > SHUTDOWN && KnownBehaviour(plans, out) && FIRST_REGULAR <= trigger < |plans|
    requires IsCascade(plans, out, RootsRequested(plans, asked, p, isStartup), Elements(p.ran))
    requires forall t | 0 <= t < |plans| && t != trigger :: r !in Due(plans[t])
    requires !IsSetOff(asked, p, out, trigger)
    ensures r !in p.ran
  {
    var roots, ran := RootsRequested(plans, asked, p, isStartup), Elements(p.ran);
    OthersCascade(plans, out, p.ran, trigger, r);
    NotRequested(plans, asked, p, isStartup, trigger, r);
    hide RootsRequested, Cascades;
    var others := ran - {r};
    assert forall s | s in roots :: s in others;
    assert ran <= others;
  }

  /** A reaction that only one trigger triggers runs exactly when that is set off. */
  lemma RunsIfSetOff(plans: seq<Plan>, asked: iset<Request>, p: Processed, isStartup: bool, out: Behaviour,
                     trigger: TriggerId, r: ReactionId)
    requires |plans| > SHUTDOWN && KnownBehaviour(plans, out) && FIRST_REGULAR <= trigger < |plans|
    requires IsCascade(plans, out, RootsRequested(plans, asked, p, isStartup), Elements(p.ran))
    requires r in Due(plans[trigger]) && forall t | 0 <= t < |plans| && t != trigger :: r !in Due(plans[t])
    ensures IsSetOff(asked, p, out, trigger) <==> r in p.ran
  {
    hide IsCascade, IsSetOff, KnownBehaviour;
    if IsSetOff(asked, p, out, trigger) {
      AllRunIfSetOff(plans, asked, p, isStartup, out, trigger);
    } else {
      RestsIfNotSetOff(plans, asked, p, isStartup, out, trigger, r);
    }
  }

  lemma NotRequested(plans: seq<Plan>, asked: iset<Request>, p: Processed, isStartup: bool, trigger: TriggerId,
                     r: ReactionId)
    requires |plans| > SHUTDOWN && FIRST_REGULAR <= trigger < |plans| && !IsRequestedAt(asked, trigger, p.tag)
    requires forall t | 0 <= t < |plans| && t != trigger :: r !in Due(plans[t])
    ensures r !in RootsRequested(plans, asked, p, isStartup)
  {}

  lemma OthersCascade(plans: seq<Plan>, out: Behaviour, ran: seq<ReactionId>, trigger: TriggerId, r: ReactionId)
    requires KnownBehaviour(plans, out) && Cascades(plans, out, Elements(ran)) && !SomeSetsOff(out, ran, trigger)
    requires forall t | 0 <= t < |plans| && t != trigger :: r !in Due(plans[t])
    ensures Cascades(plans, out, Elements(ran) - {r})
  {
    forall s, c | s in Elements(ran) - {r} && c in out(s)
      ensures RunsNow(plans, c, Elements(ran) - {r})
    {
      assert RunsNow(plans, c, Elements(ran)) && !SetsOff(c, trigger);
    }
  }

  // --------------------------------------------------------------------------------------------- the timer's reactions

  /** Only the synthesized reactions deal with the timer, `tick` whenever it runs. */
  ghost predicate Minds(out: Behaviour, timer: Timer, tick: ReactionId, isStartup: bool) {
    && RescheduleTimer(timer) in out(tick)
    && forall r, c | c in out(r) ::
      && (c.SetPort? ==> c.port != timer.id) && (c.ScheduleLogical? || c.SchedulePhysical? ==> c.action != timer.id)
      && (c.BootstrapTimer? && c.timer.id == timer.id ==> isStartup && c.timer == timer)
      && (c.RescheduleTimer? && c.timer.id == timer.id ==> c.timer == timer && r == tick)
  }

  /** `tick` is triggered by the timer and by nothing else. */
  ghost predicate IsTick(plans: seq<Plan>, timer: Timer, tick: ReactionId) {
    && FIRST_REGULAR <= timer.id < |plans| && tick in Due(plans[timer.id])
    && forall t | 0 <= t < |plans| && t != timer.id :: tick !in Due(plans[t])
  }

  /** The timer is started at startup, by `boot`, and no thread sends events for it. */
  ghost predicate IsWired(plans: seq<Plan>, timer: Timer, boot: ReactionId, tick: ReactionId, startup: Behaviour,
                          inputs: seq<Input>)
  {
    && IsTick(plans, timer, tick) && boot in Due(plans[STARTUP]) && BootstrapTimer(timer) in startup(boot)
    && Minds(startup, timer, tick, true) && (forall i | i in inputs :: Minds(i.out, timer, tick, false))
    && forall i | i in inputs ::
      && (forall p | p in i.flushed :: p.trigger != Some(timer.id))
      && (i.interrupt.Some? ==> i.interrupt.value.trigger != Some(timer.id))
      && (i.received.Some? ==> i.received.value.trigger != Some(timer.id))
  }

  /** What has happened up to some point of a run, as far as the timer is concerned. */
  ghost predicate Keeps(plans: seq<Plan>, timer: Timer, tick: ReactionId, asked: iset<Request>, log: seq<Processed>,
                        outs: seq<Behaviour>)
  {
    && IsTick(plans, timer, tick)
    && RanRequested(plans, asked, log, outs) && Increasing(log) && log != [] && log[0].tag == ORIGIN
    && (forall n | 0 <= n < |outs| :: Minds(outs[n], timer, tick, n == 0))
    && (exists r :: r in log[0].ran && BootstrapTimer(timer) in outs[0](r))
    && (forall p | p in asked && p.tag.AtMost(log[|log| - 1].tag) :: IsProcessed(log, p.tag))
    && (forall p | IsAskedFor(log, outs, p) :: p in asked)
    && (forall p | p in asked && p.trigger == Some(timer.id) :: IsAskedFor(log, outs, p))
  }

  /** The tag of the timer's first event, or that of the event it schedules at `u`. */
  ghost predicate Follows(timer: Timer, tick: ReactionId, log: seq<Processed>, n: nat, u: EventTag) {
    || (timer.offset != 0 && n == 0 && IsNext(ORIGIN, timer.offset, u))
    || (timer.period != 0 && n < |log| && tick in log[n].ran && IsNext(log[n].tag, timer.period, u))
  }

  lemma RequestFollows(plans: seq<Plan>, timer: Timer, tick: ReactionId, asked: iset<Request>, log: seq<Processed>,
                       outs: seq<Behaviour>, u: EventTag) returns (n: nat)
    requires Keeps(plans, timer, tick, asked, log, outs) && IsRequestedAt(asked, timer.id, u)
    ensures n < |log| && Follows(timer, tick, log, n, u) && log[n].tag.Before(u)
  {
    hide RanRequested, IsNext, IsTick, Increasing, IsProcessed;
    var p :| p in asked && p.trigger == Some(timer.id) && p.tag == u;
    n :| 0 <= n < |log| && n < |outs| && SomeAsks(log[n].tag, outs[n], log[n].ran, p);
    var r, c :| r in log[n].ran && c in outs[n](r) && Asks(log[n].tag, c, p);
    NextIsLater(log[n].tag, timer, u);
  }

  lemma NextIsLater(t: EventTag, timer: Timer, u: EventTag)
    ensures IsNext(t, timer.offset, u) || IsNext(t, timer.period, u) ==> t.Before(u)
  {}

  lemma NextTick(timer: Timer, k: nat, u: EventTag)
    requires timer.period != 0 && IsNext(timer.Tick(k), timer.period, u)
    ensures u == timer.Tick(k + 1)
  {
    SuccessorIsNext(timer.Tick(k), timer.period);
    NextIsUnique(timer.Tick(k), timer.period, u, timer.Tick(k + 1));
  }

  lemma FirstTick(timer: Timer, u: EventTag)
    requires timer.offset != 0
    ensures IsNext(ORIGIN, timer.offset, u) <==> u == timer.Tick(0)
  {
    SuccessorIsNext(ORIGIN, timer.offset);
    if IsNext(ORIGIN, timer.offset, u) {
      NextIsUnique(ORIGIN, timer.offset, u, timer.Tick(0));
    }
  }

  lemma TickRuns(plans: seq<Plan>, timer: Timer, tick: ReactionId, asked: iset<Request>, log: seq<Processed>,
                 outs: seq<Behaviour>, n: nat)
    requires Keeps(plans, timer, tick, asked, log, outs) && n < |log|
    ensures n < |outs| && (IsSetOff(asked, log[n], outs[n], timer.id) <==> tick in log[n].ran)
  {
    hide IsCascade, KnownBehaviour, Minds, IsSetOff;
    RunsIfSetOff(plans, asked, log[n], n == 0, outs[n], timer.id, tick);
  }

  /** Whenever the timer is set off, it fires. */
  lemma {:induction false} FiresIfSetOff(plans: seq<Plan>, timer: Timer, tick: ReactionId, asked: iset<Request>,
                                         log: seq<Processed>, outs: seq<Behaviour>, n: nat)
    requires Keeps(plans, timer, tick, asked, log, outs) && n < |log| && tick in log[n].ran
    ensures timer.Fires(log[n].tag)
    decreases n
  {
    TickRuns(plans, timer, tick, asked, log, outs, n);
    if IsRequestedAt(asked, timer.id, log[n].tag) {
      var m := RequestFollows(plans, timer, tick, asked, log, outs, log[n].tag);
      assert m < n by { Earlier(log, m, n); }
      hide Keeps, IsNext;
      if timer.offset != 0 && m == 0 && IsNext(ORIGIN, timer.offset, log[n].tag) {
        FirstTick(timer, log[n].tag);
      } else {
        FiresIfSetOff(plans, timer, tick, asked, log, outs, m);
        var k: nat :| (k == 0 || timer.IsPeriodic()) && timer.Tick(k) == log[m].tag;
        NextTick(timer, k, log[n].tag);
      }
    } else {
      var r, c :| r in log[n].ran && c in outs[n](r) && SetsOff(c, timer.id);
      assert Minds(outs[n], timer, tick, n == 0);
      assert timer.Tick(0) == log[n].tag;
    }
  }

  lemma Earlier(log: seq<Processed>, m: nat, n: nat)
    requires Increasing(log) && m < |log| && n < |log| && log[m].tag.Before(log[n].tag)
    ensures m < n
  {}

  /** A request for the timer is served once its tag is reached. */
  lemma TickServed(plans: seq<Plan>, timer: Timer, tick: ReactionId, asked: iset<Request>, log: seq<Processed>,
                   outs: seq<Behaviour>, m: nat, r: ReactionId, c: Command, u: EventTag) returns (n: nat)
    requires Keeps(plans, timer, tick, asked, log, outs) && m < |log| && m < |outs|
    requires r in log[m].ran && c in outs[m](r) && Asks(log[m].tag, c, PhysicalEvent(u, Some(timer.id), false))
    requires u.AtMost(log[|log| - 1].tag)
    ensures n < |log| && log[n].tag == u && tick in log[n].ran
  {
    hide RanRequested, Minds, Asks, Increasing, IsTick;
    var p := PhysicalEvent(u, Some(timer.id), false);
    assert SomeAsks(log[m].tag, outs[m], log[m].ran, p);
    assert p in asked;
    assert IsProcessed(log, p.tag);
    n :| 0 <= n < |log| && log[n].tag == p.tag;
    TickRuns(plans, timer, tick, asked, log, outs, n);
    assert IsRequestedAt(asked, timer.id, log[n].tag);
  }

  /** Whenever the timer fires, it is set off. */
  lemma {:induction false} TickIsServed(plans: seq<Plan>, timer: Timer, tick: ReactionId, asked: iset<Request>,
                                        log: seq<Processed>, outs: seq<Behaviour>, k: nat) returns (n: nat)
    requires Keeps(plans, timer, tick, asked, log, outs) && (k == 0 || timer.IsPeriodic())
    requires timer.Tick(k).AtMost(log[|log| - 1].tag)
    ensures n < |log| && log[n].tag == timer.Tick(k) && tick in log[n].ran
    decreases k
  {
    assert |outs| == |log|;
    hide RanRequested, Increasing, IsTick, IsProcessed;
    if k == 0 {
      var r :| r in log[0].ran && BootstrapTimer(timer) in outs[0](r);
      if timer.offset == 0 {
        n := 0;
        TickRuns(plans, timer, tick, asked, log, outs, n);
        assert SetsOff(BootstrapTimer(timer), timer.id);
      } else {
        FirstTick(timer, timer.Tick(0));
        n := TickServed(plans, timer, tick, asked, log, outs, 0, r, BootstrapTimer(timer), timer.Tick(0));
      }
    } else {
      SuccessorIsNext(timer.Tick(k - 1), timer.period);
      var m := TickIsServed(plans, timer, tick, asked, log, outs, k - 1);
      assert Minds(outs[m], timer, tick, m == 0);
      n := TickServed(plans, timer, tick, asked, log, outs, m, tick, RescheduleTimer(timer), timer.Tick(k));
    }
  }

  // ---------------------------------------------------------------------------------------------- runs

  lemma {:induction false} BehavioursMind(plans: seq<Plan>, timer: Timer, boot: ReactionId, tick: ReactionId,
                                          startup: Behaviour, states: seq<State>, inputs: seq<Input>, k: nat, n: nat)
    requires IsWired(plans, timer, boot, tick, startup, inputs) && |plans| > SHUTDOWN
    requires k < |states| == |inputs| + 1 && n < |Behaviours(startup, states, inputs, k)|
    ensures Minds(Behaviours(startup, states, inputs, k)[n], timer, tick, n == 0)
    ensures Behaviours(startup, states, inputs, k)[0] == startup
    decreases k
  {
    hide Minds;
    if k > 0 {
      var before := Behaviours(startup, states, inputs, k - 1);
      if n < |before| {
        BehavioursMind(plans, timer, boot, tick, startup, states, inputs, k - 1, n);
      } else {
        assert inputs[k - 1] in inputs;
      }
    }
  }

  lemma DeliveredByOthers(plans: seq<Plan>, timer: Timer, boot: ReactionId, tick: ReactionId, startup: Behaviour,
                          states: seq<State>, inputs: seq<Input>, k: nat, p: Request)
    requires IsWired(plans, timer, boot, tick, startup, inputs) && |plans| > SHUTDOWN
    requires IsDelivered(states, inputs, k, p)
    ensures p.trigger != Some(timer.id)
  {
    hide Minds, Waits, HasPending, IsTick;
    var j :| 0 <= j < k && j < |states| && j < |inputs| && p in Delivered(states[j], inputs[j]);
    assert inputs[j] in inputs;
  }

  lemma RunKeeps(lvl: map<ReactionId, nat>, plans: seq<Plan>, timeout: Option<nat>, startup: Behaviour,
                 states: seq<State>, inputs: seq<Input>, k: nat, timer: Timer, boot: ReactionId, tick: ReactionId)
    requires |plans| > SHUTDOWN && IsRun(lvl, plans, timeout, startup, states, inputs)
    requires IsFairRun(lvl, plans, timeout, startup, states, inputs) && k < |states|
    requires IsWired(plans, timer, boot, tick, startup, inputs)
    ensures Keeps(plans, timer, tick, Requested(startup, states, inputs, k), states[k].log,
                  Behaviours(startup, states, inputs, k))
    ensures states[k].latest == Some(states[k].log[|states[k].log| - 1].tag)
  {
    var asked, log, outs := Requested(startup, states, inputs, k), states[k].log,
        Behaviours(startup, states, inputs, k);
    RunSafety(lvl, plans, timeout, startup, states, inputs, k);
    RunRunsRequests(lvl, plans, timeout, startup, states, inputs, k);
    RunServesTags(lvl, plans, timeout, startup, states, inputs, k);
    BootRuns(plans, asked, log, outs, boot);
    assert |outs| == |log|;
    hide IsRun, IsFairRun, RanRequested, Increasing, IsProcessed, TagsAreServed, Minds, IsDelivered, IsAskedFor, IsTick;
    forall n | 0 <= n < |outs|
      ensures Minds(outs[n], timer, tick, n == 0)
    {
      BehavioursMind(plans, timer, boot, tick, startup, states, inputs, k, n);
    }
    forall p | p in asked && p.trigger == Some(timer.id)
      ensures IsAskedFor(log, outs, p)
    {
      if IsDelivered(states, inputs, k, p) {
        DeliveredByOthers(plans, timer, boot, tick, startup, states, inputs, k, p);
      }
    }
    forall p | p in asked && p.tag.AtMost(log[|log| - 1].tag)
      ensures IsProcessed(log, p.tag)
    {
      var n := RequestIsServed(lvl, plans, timeout, startup, states, inputs, k, p);
      assert IsProcessed(log, p.tag) by { ProcessedAt(log, n); }
    }
  }

  lemma ProcessedAt(log: seq<Processed>, n: nat)
    requires n < |log|
    ensures IsProcessed(log, log[n].tag)
  {}

  lemma BootRuns(plans: seq<Plan>, asked: iset<Request>, log: seq<Processed>, outs: seq<Behaviour>, boot: ReactionId)
    requires |plans| > SHUTDOWN && RanRequested(plans, asked, log, outs) && log != [] && boot in Due(plans[STARTUP])
    ensures boot in log[0].ran
  {
    hide Cascades, Wants;
    assert boot in RootsRequested(plans, asked, log[0], true);
  }

  /** At each processed tag the timer is set off if and only if it fires then. */
  lemma SetOffIffFires(lvl: map<ReactionId, nat>, plans: seq<Plan>, timeout: Option<nat>, startup: Behaviour,
                       states: seq<State>, inputs: seq<Input>, k: nat, timer: Timer, boot: ReactionId,
                       tick: ReactionId, n: nat)
    requires |plans| > SHUTDOWN && IsRun(lvl, plans, timeout, startup, states, inputs)
    requires IsFairRun(lvl, plans, timeout, startup, states, inputs) && k < |states|
    requires IsWired(plans, timer, boot, tick, startup, inputs) && n < |states[k].log|
    ensures tick in states[k].log[n].ran <==> timer.Fires(states[k].log[n].tag)
  {
    hide ProcessesTag, Turn, Fair, Minds, Requested, KnownBehaviour, IsWired, IsTick;
    var asked, log, outs := Requested(startup, states, inputs, k), states[k].log,
        Behaviours(startup, states, inputs, k);
    RunKeeps(lvl, plans, timeout, startup, states, inputs, k, timer, boot, tick);
    RunSafety(lvl, plans, timeout, startup, states, inputs, k);
    hide IsRun, IsFairRun, Keeps, IsWired;
    if tick in log[n].ran {
      FiresIfSetOff(plans, timer, tick, asked, log, outs, n);
    }
    if timer.Fires(log[n].tag) {
      var i: nat :| (i == 0 || timer.IsPeriodic()) && timer.Tick(i) == log[n].tag;
      var m := TickIsServed(plans, timer, tick, asked, log, outs, i);
      assert m == n;
    }
  }

  /** All reactions to the timer have run at every tag at which it fires, up to the latest one. */
  lemma TimerIsServed(lvl: map<ReactionId, nat>, plans: seq<Plan>, timeout: Option<nat>, startup: Behaviour,
                      states: seq<State>, inputs: seq<Input>, k: nat, timer: Timer, boot: ReactionId,
                      tick: ReactionId, u: EventTag) returns (n: nat)
    requires |plans| > SHUTDOWN && IsRun(lvl, plans, timeout, startup, states, inputs)
    requires IsFairRun(lvl, plans, timeout, startup, states, inputs) && k < |states|
    requires IsWired(plans, timer, boot, tick, startup, inputs)
    requires timer.Fires(u) && states[k].latest.Some? && u.AtMost(states[k].latest.value)
    ensures n < |states[k].log| && states[k].log[n].tag == u && Due(plans[timer.id]) <= Elements(states[k].log[n].ran)
  {
    var asked, log, outs := Requested(startup, states, inputs, k), states[k].log,
        Behaviours(startup, states, inputs, k);
    RunKeeps(lvl, plans, timeout, startup, states, inputs, k, timer, boot, tick);
    var i: nat :| (i == 0 || timer.IsPeriodic()) && timer.Tick(i) == u;
    n := TickIsServed(plans, timer, tick, asked, log, outs, i);
    TickRuns(plans, timer, tick, asked, log, outs, n);
    AllRunIfSetOff(plans, asked, log[n], n == 0, outs[n], timer.id);
  }
}
