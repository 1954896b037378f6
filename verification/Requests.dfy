/**
 What runs is what was asked for. A request is made by an asynchronous thread, which sends an event, or by a call that a
 reaction makes on its context. Here requests are read off the inputs of a run and the calls themselves, and fair runs
 are shown to serve exactly these: nothing is lost between the channel, the queue and the waves, and nothing is added
 (`src/scheduler/scheduler_impl.rs`, `src/scheduler/context.rs`).
 */
module Requests {
  import opened Wrappers
  import opened Plans
  import opened Graphs
  import opened Events
  import opened Timers
  import opened Context
  import opened Wave
  import opened Machine
  import opened Runs

  // ---------------------------------------------------------------------------------------------- requests of calls

  ghost predicate Lasts(offset: Offset, duration: nat) {
    offset == Offset.After(duration) || (offset == Asap && duration == 0)
  }

  /** A request in the form of the event that a thread would send for it. */
  type Request = PhysicalEvent

  ghost predicate IsFor(p: Request, trigger: TriggerId, tag: EventTag) {
    p == PhysicalEvent(tag, Some(trigger), false)
  }

  /** The call, made at `tag`, asks for `p`. */
  ghost predicate Asks(tag: EventTag, c: Command, p: Request) {
    match c
    case SetPort(_, _) => false
    case BootstrapTimer(timer) =>
      timer.offset != 0 && IsFor(p, timer.id, p.tag) && IsNext(tag, timer.offset, p.tag)
    case RescheduleTimer(timer) =>
      timer.period != 0 && IsFor(p, timer.id, p.tag) && IsNext(tag, timer.period, p.tag)
    case ScheduleLogical(action, minDelay, _, offset) =>
      exists d: nat :: Lasts(offset, d) && IsFor(p, action, p.tag) && IsNext(tag, minDelay + d, p.tag)
    case SchedulePhysical(action, _, _, offset, clock) =>
      exists d: nat :: Lasts(offset, d) && IsFor(p, action, EventTag(clock + d, 0))
    case RequestStop(offset) =>
      exists d: nat :: Lasts(offset, d) && p == PhysicalEvent(p.tag, None, true) && IsNext(tag, d, p.tag)
  }

  /** The reaction must run because of `p`. */
  ghost predicate Wants(plans: seq<Plan>, p: Request, j: Job) {
    p.tag == j.tag && p.trigger.Some? && p.trigger.value < |plans| && j.reaction in Due(plans[p.trigger.value])
  }

  /** The agenda lists exactly what was asked for. */
  ghost predicate Lists(plans: seq<Plan>, a: Agenda, asked: iset<Request>) {
    && (forall p | p in asked :: KnownEvent(plans, p))
    && (forall u: EventTag :: u in a.tags <==> exists p :: p in asked && p.tag == u)
    && (forall j: Job :: j in a.work <==> exists p :: p in asked && Wants(plans, p, j))
    && (forall u: EventTag :: u in a.stops <==> exists p :: p in asked && p.tag == u && p.terminate)
  }

  /** The event for later that a call leads to is the one it asks for, if it is later at all. */
  lemma CallIsServed(plans: seq<Plan>, tag: EventTag, c: Command)
    requires Known(plans, c) && (Later(plans, tag, c).Some? ==> tag.Before(Later(plans, tag, c).value.tag))
    ensures Later(plans, tag, c).None? ==> forall p :: !Asks(tag, c, p)
    ensures Later(plans, tag, c).Some? ==>
      exists p :: Asks(tag, c, p) && KnownEvent(plans, p) && Later(plans, tag, c).value == MakeExecutable(plans, p)
                  && forall q | Asks(tag, c, q) :: q == p
  {
    var e := Later(plans, tag, c);
    if e.Some? {
      var u := e.value.tag;
      ScheduledLater(plans, tag, c);
      var p := PhysicalEvent(u, Mentions(c), c.RequestStop?);
      if c.ScheduleLogical? || c.SchedulePhysical? || c.RequestStop? {
        assert Lasts(c.offset, c.offset.ToDuration());
      }
      assert Asks(tag, c, p);
      forall q | Asks(tag, c, q)
        ensures q == p
      {
        if !c.SchedulePhysical? {
          NextIsUnique(tag, DelayOf(c), u, q.tag);
        }
      }
    }
  }

  lemma ScheduledLater(plans: seq<Plan>, tag: EventTag, c: Command)
    requires Known(plans, c) && Later(plans, tag, c).Some? && tag.Before(Later(plans, tag, c).value.tag)
    ensures c.SchedulePhysical? || IsNext(tag, DelayOf(c), Later(plans, tag, c).value.tag)
  {
    SuccessorIsLater(tag, DelayOf(c));
    SuccessorIsNext(tag, DelayOf(c));
  }

  lemma SchedulesNoneEarlier(plans: seq<Plan>, tag: EventTag, out: Behaviour, r: ReactionId, c: Command)
    requires KnownBehaviour(plans, out) && SchedulesLater(plans, tag, out) && c in out(r)
    ensures Known(plans, c) && (Later(plans, tag, c).Some? ==> tag.Before(Later(plans, tag, c).value.tag))
  {
    assert AllKnown(plans, out(r));
    if Later(plans, tag, c).Some? {
      assert Later(plans, tag, c).value in Scheduled(plans, tag, out(r));
    }
  }

  // ---------------------------------------------------------------------------------------------- agendas

  /** The events are those that the requests make. */
  ghost predicate AreMadeOf(plans: seq<Plan>, events: set<Event>, asked: iset<Request>) {
    && (forall p | p in asked :: KnownEvent(plans, p) && MakeExecutable(plans, p) in events)
    && forall e | e in events :: exists p :: p in asked && KnownEvent(plans, p) && e == MakeExecutable(plans, p)
  }

  lemma MadeJob(plans: seq<Plan>, p: Request, j: Job)
    requires KnownEvent(plans, p)
    ensures Wants(plans, p, j) <==>
            MakeExecutable(plans, p).tag == j.tag && j.reaction in DueOf(MakeExecutable(plans, p).reactions)
    ensures MakeExecutable(plans, p).tag == p.tag && MakeExecutable(plans, p).terminate == p.terminate
  {
    assert Slots([]) == {};
  }

  /** Making requests executable adds nothing to them and takes nothing away. */
  lemma MadeIsListed(plans: seq<Plan>, events: set<Event>, asked: iset<Request>)
    requires AreMadeOf(plans, events, asked)
    ensures Lists(plans, AgendaOf(events), asked)
  {
    var a := AgendaOf(events);
    forall p, j | p in asked
      ensures Wants(plans, p, j) ==> j in a.work
      ensures p.tag in a.tags && (p.terminate ==> p.tag in a.stops)
    {
      MadeJob(plans, p, j);
    }
    forall e, j: Job | e in events && j.tag == e.tag && j.reaction in DueOf(e.reactions)
      ensures exists p :: p in asked && Wants(plans, p, j)
    {
      var p :| p in asked && KnownEvent(plans, p) && e == MakeExecutable(plans, p);
      MadeJob(plans, p, j);
    }
    hide DueOf, KnownEvent, Wants;
    forall e | e in events
      ensures exists p :: p in asked && p.tag == e.tag && (e.terminate ==> p.terminate)
    {
      var p :| p in asked && KnownEvent(plans, p) && e == MakeExecutable(plans, p);
    }
  }

  lemma NothingIsListed(plans: seq<Plan>)
    ensures Lists(plans, NO_AGENDA, iset{})
  {}

  lemma JoinIsListed(plans: seq<Plan>, a: Agenda, b: Agenda, x: iset<Request>, y: iset<Request>)
    requires Lists(plans, a, x) && Lists(plans, b, y)
    ensures Lists(plans, Join(a, b), x + y)
  {
    hide Wants, KnownEvent;
    var z := x + y;
    assert forall p | p in x || p in y :: p in z;
  }

  // ---------------------------------------------------------------------------------------------- requests of waves

  /** What the reactions `ran` ask for at `tag`. */
  ghost function AskedBy(tag: EventTag, out: Behaviour, ran: seq<ReactionId>): iset<Request> {
    iset p: Request | SomeAsks(tag, out, ran, p)
  }

  ghost predicate SomeAsks(tag: EventTag, out: Behaviour, ran: seq<ReactionId>, p: Request) {
    exists r, c :: r in ran && c in out(r) && Asks(tag, c, p)
  }

  /** All that the reactions of a wave ask for is scheduled, and nothing else. */
  lemma WaveIsServed(plans: seq<Plan>, tag: EventTag, out: Behaviour, ran: seq<ReactionId>)
    requires KnownBehaviour(plans, out) && SchedulesLater(plans, tag, out)
    ensures Lists(plans, AgendaOf(ScheduledBy(plans, tag, out, Elements(ran))), AskedBy(tag, out, ran))
  {
    hide Asks, MakeExecutable, Later, Lists;
    var events, asked := ScheduledBy(plans, tag, out, Elements(ran)), AskedBy(tag, out, ran);
    forall r, c, p | r in ran && c in out(r) && Asks(tag, c, p)
      ensures KnownEvent(plans, p) && MakeExecutable(plans, p) in events
    {
      SchedulesNoneEarlier(plans, tag, out, r, c);
      CallIsServed(plans, tag, c);
      assert Later(plans, tag, c).value in Scheduled(plans, tag, out(r));
    }
    forall e | e in events
      ensures exists p :: p in asked && KnownEvent(plans, p) && e == MakeExecutable(plans, p)
    {
      var r :| r in ran && e in Scheduled(plans, tag, out(r));
      assert AllKnown(plans, out(r));
      var c :| c in out(r) && Later(plans, tag, c).Some? && e == Later(plans, tag, c).value;
      SchedulesNoneEarlier(plans, tag, out, r, c);
      CallIsServed(plans, tag, c);
    }
    MadeIsListed(plans, events, asked);
  }

  // ---------------------------------------------------------------------------------------------- deliveries

  /** Something is pending once the channel has been emptied. */
  ghost predicate HasPending(s: State, i: Input) {
    s.agenda.tags != {} || i.flushed != []
  }

  /** The first pending tag is not after the shutdown, so the loop waits for it. */
  ghost predicate Waits(s: State, i: Input) {
    exists u :: && (u in s.agenda.tags || exists p :: p in i.flushed && p.tag == u)
                && (s.shutdown.Some? ==> u.AtMost(s.shutdown.value))
  }

  /** The events that reach the scheduler in a turn. */
  ghost function Delivered(s: State, i: Input): iset<Request> {
    (iset p | p in i.flushed)
    + (if i.received.Some? && !HasPending(s, i) then iset{i.received.value} else iset{})
    + (if i.interrupt.Some? && Waits(s, i) then iset{i.interrupt.value} else iset{})
  }

  /** What the reactions of the turn ask for, if a tag is processed. */
  ghost function AskedIn(s: State, out: Behaviour, t: State): iset<Request> {
    if |t.log| > |s.log| then AskedBy(t.log[|s.log|].tag, out, t.log[|s.log|].ran) else iset{}
  }

  lemma ProcessingIsServed(lvl: map<ReactionId, nat>, plans: seq<Plan>, s: State, tag: EventTag, roots: set<ReactionId>,
                           out: Behaviour, isShutdown: bool, t: State, asked: iset<Request>)
    requires KnownBehaviour(plans, out) && ProcessesTag(lvl, plans, s, tag, roots, out, isShutdown, t)
    requires SchedulesLater(plans, tag, out) && Lists(plans, s.pushed, asked)
    ensures Lists(plans, t.pushed, asked + AskedIn(s, out, t)) && |t.log| == |s.log| + 1
  {
    hide ScheduledBy, StoredBy, AgendaOf, SchedulesLater, Lists, Asks;
    if roots == {} {
      assert AskedIn(s, out, t) == iset{};
      assert asked + iset{} == asked;
    } else {
      var ran :| && IsClosure(plans, out, roots, Elements(ran)) && Distinct(ran) && InLevelOrder(lvl, ran)
                 && t == AfterWave(plans, s, tag, out, ran)
                         .(latest := Some(tag), log := s.log + [Processed(tag, ran, isShutdown)]);
      hide IsClosure, AskedBy;
      WaveIsServed(plans, tag, out, ran);
      JoinIsListed(plans, s.pushed, AgendaOf(ScheduledBy(plans, tag, out, Elements(ran))), asked,
                   AskedBy(tag, out, ran));
    }
  }

  lemma ShutdownIsServed(lvl: map<ReactionId, nat>, plans: seq<Plan>, s: State, tag: EventTag, roots: set<ReactionId>,
                         out: Behaviour, t: State, asked: iset<Request>)
    requires KnownBehaviour(plans, out) && |plans| > SHUTDOWN && ShutsDown(lvl, plans, s, tag, roots, out, t)
    requires SchedulesLater(plans, tag, out) && Lists(plans, s.pushed, asked)
    ensures Lists(plans, t.pushed, asked + AskedIn(s, out, t))
  {
    hide ProcessesTag, SchedulesLater, Lists, AskedBy;
    var before, after := s.(shutdown := Some(tag)), t.(terminated := s.terminated);
    ProcessingIsServed(lvl, plans, before, tag, roots + Due(plans[SHUTDOWN]), out, true, after, asked);
    assert AskedIn(before, out, after) == AskedIn(s, out, t);
  }

  lemma PushIsServed(plans: seq<Plan>, s: State, p: Request, asked: iset<Request>)
    requires KnownEvent(plans, p) && Lists(plans, s.pushed, asked)
    ensures Lists(plans, Push(s, {MakeExecutable(plans, p)}).pushed, asked + iset{p})
  {
    var events := {MakeExecutable(plans, p)};
    assert AreMadeOf(plans, events, iset{p});
    MadeIsListed(plans, events, iset{p});
    JoinIsListed(plans, s.pushed, AgendaOf(events), asked, iset{p});
  }

  lemma FlushIsServed(plans: seq<Plan>, s: State, events: seq<PhysicalEvent>, asked: iset<Request>)
    requires (forall p | p in events :: KnownEvent(plans, p)) && Lists(plans, s.pushed, asked)
    ensures Lists(plans, Push(s, Arrived(plans, events)).pushed, asked + iset p | p in events)
  {
    var arrived := iset p | p in events;
    assert AreMadeOf(plans, Arrived(plans, events), arrived);
    MadeIsListed(plans, Arrived(plans, events), arrived);
    JoinIsListed(plans, s.pushed, AgendaOf(Arrived(plans, events)), asked, arrived);
  }

  lemma WaitsForLeast(s: State, i: Input, ready: State, tag: EventTag, plans: seq<Plan>)
    requires forall p | p in i.flushed :: KnownEvent(plans, p)
    requires ready == Push(s, Arrived(plans, i.flushed))
    ensures ready.agenda.tags == {} <==> !HasPending(s, i)
    ensures IsLeast(ready.agenda.tags, tag) ==>
      (Waits(s, i) <==> !(s.shutdown.Some? && s.shutdown.value.Before(tag)))
  {
    forall u
      ensures u in ready.agenda.tags <==> u in s.agenda.tags || exists p | p in i.flushed :: p.tag == u
    {
      ArrivedTags(plans, i.flushed, u);
    }
    hide AgendaOf, Arrived;
    if i.flushed != [] {
      assert i.flushed[0] in i.flushed && i.flushed[0].tag in ready.agenda.tags;
    }
  }

  /** The same, once `tag` is taken. */
  lemma TakingIsServed(lvl: map<ReactionId, nat>, plans: seq<Plan>, s: State, tag: EventTag, i: Input, t: State,
                       asked: iset<Request>) returns (more: iset<Request>)
    requires KnownInput(plans, i) && |plans| > SHUTDOWN && TakesTag(lvl, plans, s, tag, i, t)
    requires t.latest.Some? && t.log != s.log ==> SchedulesLater(plans, t.latest.value, i.out)
    requires Lists(plans, s.pushed, asked)
    ensures more == if i.interrupt.Some? && !(s.shutdown.Some? && s.shutdown.value.Before(tag))
                    then iset{i.interrupt.value} else iset{}
    ensures Lists(plans, t.pushed, asked + more + AskedIn(s, i.out, t))
  {
    hide ProcessesTag, ShutsDown, SchedulesLater, Lists, AskedBy, AgendaOf, Join, Without, WorkAt, KnownBehaviour;
    var rest, roots := s.(agenda := Without(s.agenda, tag)), WorkAt(s.agenda, tag);
    more := iset{};
    assert asked + more == asked;
    if s.shutdown.Some? && s.shutdown.value.Before(tag) {
      ShutLog(lvl, plans, rest, s.shutdown.value, {}, i.out, t);
      ShutdownIsServed(lvl, plans, rest, s.shutdown.value, {}, i.out, t, asked);
      assert AskedIn(rest, i.out, t) == AskedIn(s, i.out, t);
    } else if i.interrupt.Some? && i.interrupt.value.tag.Before(tag) {
      more := iset{i.interrupt.value};
      PushIsServed(plans, s, i.interrupt.value, asked);
      assert asked + more + AskedIn(s, i.out, t) == asked + more;
    } else {
      var next := rest;
      if i.interrupt.Some? {
        more := iset{i.interrupt.value};
        next := Push(rest, {MakeExecutable(plans, i.interrupt.value)});
        PushIsServed(plans, rest, i.interrupt.value, asked);
      }
      if tag in s.agenda.stops || s.shutdown == Some(tag) {
        ShutLog(lvl, plans, next, tag, roots, i.out, t);
        ShutdownIsServed(lvl, plans, next, tag, roots, i.out, t, asked + more);
      } else {
        TagLog(lvl, plans, next, tag, roots, i.out, false, t);
        ProcessingIsServed(lvl, plans, next, tag, roots, i.out, false, t, asked + more);
      }
      assert AskedIn(next, i.out, t) == AskedIn(s, i.out, t);
    }
  }

  lemma TagLog(lvl: map<ReactionId, nat>, plans: seq<Plan>, s: State, tag: EventTag, roots: set<ReactionId>,
               out: Behaviour, isShutdown: bool, t: State)
    requires KnownBehaviour(plans, out) && ProcessesTag(lvl, plans, s, tag, roots, out, isShutdown, t)
    ensures t.latest == Some(tag) && t.log != s.log
  {
    ProcessedNext(lvl, plans, s, tag, roots, out, isShutdown, t);
    ProcessedLatest(lvl, plans, s, tag, roots, out, isShutdown, t);
  }

  lemma ShutLog(lvl: map<ReactionId, nat>, plans: seq<Plan>, s: State, tag: EventTag, roots: set<ReactionId>,
                out: Behaviour, t: State)
    requires KnownBehaviour(plans, out) && |plans| > SHUTDOWN && ShutsDown(lvl, plans, s, tag, roots, out, t)
    ensures t.latest == Some(tag) && t.log != s.log
  {
    hide ProcessesTag;
    TagLog(lvl, plans, s.(shutdown := Some(tag)), tag, roots + Due(plans[SHUTDOWN]), out, true,
           t.(terminated := s.terminated));
  }

  /**
   Nothing that reaches the scheduler in a turn is lost, nor anything that its reactions ask for, and nothing else is
   ever pending.
   */
  lemma TurnIsServed(lvl: map<ReactionId, nat>, plans: seq<Plan>, s: State, i: Input, t: State, asked: iset<Request>)
    requires KnownInput(plans, i) && |plans| > SHUTDOWN && Turn(lvl, plans, s, i, t)
    requires t.latest.Some? && t.log != s.log ==> SchedulesLater(plans, t.latest.value, i.out)
    requires Lists(plans, s.pushed, asked)
    ensures Lists(plans, t.pushed, asked + Delivered(s, i) + AskedIn(s, i.out, t))
  {
    hide ProcessesTag, ShutsDown, TakesTag, SchedulesLater, Lists, AskedBy, AgendaOf, Join, Without, WorkAt, Arrived,
      HasPending, Waits, KnownBehaviour;
    var ready := Push(s, Arrived(plans, i.flushed));
    var flushed := asked + iset p | p in i.flushed;
    FlushIsServed(plans, s, i.flushed, asked);
    WaitsForLeast(s, i, ready, ORIGIN, plans);
    if ready.agenda.tags == {} {
      assert !Waits(s, i) by { NothingToWaitFor(s, i); }
      if i.received.Some? {
        PushIsServed(plans, ready, i.received.value, flushed);
        assert flushed + iset{i.received.value} == asked + Delivered(s, i) + AskedIn(s, i.out, t);
      } else {
        var stop := ready.shutdown.GetOr(i.now);
        ShutLog(lvl, plans, ready, stop, {}, i.out, t);
        ShutdownIsServed(lvl, plans, ready, stop, {}, i.out, t, flushed);
        assert flushed + AskedIn(ready, i.out, t) == asked + Delivered(s, i) + AskedIn(s, i.out, t);
      }
    } else {
      var tag :| IsLeast(ready.agenda.tags, tag) && TakesTag(lvl, plans, ready, tag, i, t);
      WaitsForLeast(s, i, ready, tag, plans);
      var more := TakingIsServed(lvl, plans, ready, tag, i, t, flushed);
      assert flushed + more + AskedIn(ready, i.out, t) == asked + Delivered(s, i) + AskedIn(s, i.out, t);
    }
  }

  lemma NothingToWaitFor(s: State, i: Input)
    requires !HasPending(s, i)
    ensures !Waits(s, i)
  {}

  // ---------------------------------------------------------------------------------------------- requests of runs

  ghost predicate IsDelivered(states: seq<State>, inputs: seq<Input>, k: nat, p: Request) {
    exists j :: 0 <= j < k && j < |states| && j < |inputs| && p in Delivered(states[j], inputs[j])
  }

  ghost predicate IsAskedFor(log: seq<Processed>, outs: seq<Behaviour>, p: Request) {
    exists n :: 0 <= n < |log| && n < |outs| && SomeAsks(log[n].tag, outs[n], log[n].ran, p)
  }

  /**
    All requests up to the `k`-th state: the events that have reached the scheduler, and what reactions have asked
    for.
  */
  ghost function Requested(startup: Behaviour, states: seq<State>, inputs: seq<Input>, k: nat): iset<Request>
    requires k < |states| == |inputs| + 1
  {
    iset p: Request |
      IsDelivered(states, inputs, k, p) || IsAskedFor(states[k].log, Behaviours(startup, states, inputs, k), p)
  }

  lemma OneMoreAsked(log: seq<Processed>, outs: seq<Behaviour>, next: seq<Processed>, out: Behaviour, p: Request)
    requires |outs| == |log| && |next| == |log| + 1 && next[..|log|] == log
    ensures IsAskedFor(next, outs + [out], p) <==>
            IsAskedFor(log, outs, p) || SomeAsks(next[|log|].tag, out, next[|log|].ran, p)
  {
    hide SomeAsks;
    assert forall n | 0 <= n < |log| :: next[n] == log[n] && (outs + [out])[n] == outs[n];
    assert (outs + [out])[|log|] == out;
    if IsAskedFor(log, outs, p) {
      var n :| 0 <= n < |log| && n < |outs| && SomeAsks(log[n].tag, outs[n], log[n].ran, p);
      assert SomeAsks(next[n].tag, (outs + [out])[n], next[n].ran, p);
    }
  }

  lemma OneMoreDelivered(states: seq<State>, inputs: seq<Input>, j: nat, k: nat, p: Request)
    requires k == j + 1 && j < |states| && j < |inputs|
    ensures IsDelivered(states, inputs, k, p) <==>
            IsDelivered(states, inputs, j, p) || p in Delivered(states[j], inputs[j])
  {
    hide Delivered;
  }

  lemma OneMoreRequested(startup: Behaviour, states: seq<State>, inputs: seq<Input>, j: nat, k: nat)
    requires k == j + 1 && k < |states| == |inputs| + 1
    requires |Behaviours(startup, states, inputs, j)| == |states[j].log|
    requires states[k].log == states[j].log
             || (|states[k].log| == |states[j].log| + 1 && states[k].log[..|states[j].log|] == states[j].log)
    ensures Requested(startup, states, inputs, k) ==
            Requested(startup, states, inputs, j) + Delivered(states[j], inputs[j])
            + AskedIn(states[j], inputs[j].out, states[k])
  {
    hide Delivered, IsDelivered, IsAskedFor, SomeAsks;
    var s, t, outs := states[j], states[k], Behaviours(startup, states, inputs, j);
    forall p
      ensures p in Requested(startup, states, inputs, k) <==>
              || p in Requested(startup, states, inputs, j) || p in Delivered(s, inputs[j])
              || p in AskedIn(s, inputs[j].out, t)
    {
      OneMoreDelivered(states, inputs, j, k, p);
      if t.log != s.log {
        OneMoreAsked(s.log, outs, t.log, inputs[j].out, p);
      }
    }
  }

  lemma StartupRequested(startup: Behaviour, states: seq<State>, inputs: seq<Input>, start: State)
    requires 0 < |states| == |inputs| + 1 && start.log == [] && |states[0].log| == 1
    ensures Requested(startup, states, inputs, 0) == AskedIn(start, startup, states[0])
  {
    hide SomeAsks;
    forall p
      ensures p in Requested(startup, states, inputs, 0) <==> p in AskedIn(start, startup, states[0])
    {
      var log := states[0].log;
      assert IsAskedFor(log, [startup], p) <==> SomeAsks(log[0].tag, startup, log[0].ran, p);
      assert !IsDelivered(states, inputs, 0, p);
    }
  }

  /** The log grows by whole entries, one in each turn at the most. */
  lemma LogStep(lvl: map<ReactionId, nat>, plans: seq<Plan>, timeout: Option<nat>, startup: Behaviour,
                states: seq<State>, inputs: seq<Input>, j: nat, k: nat)
    requires |plans| > SHUTDOWN && IsRun(lvl, plans, timeout, startup, states, inputs)
    requires IsFairRun(lvl, plans, timeout, startup, states, inputs) && k == j + 1 && k < |states|
    ensures KnownInput(plans, inputs[j]) && Turn(lvl, plans, states[j], inputs[j], states[k])
    ensures Fair(plans, states[j], inputs[j], states[k]) && Running(Initial(timeout).shutdown, states[j])
    ensures states[k].log == states[j].log
            || (|states[k].log| == |states[j].log| + 1 && states[k].log[..|states[j].log|] == states[j].log)
  {
    hide ProcessesTag, Turn, Fair, Running, Ended, RanItsRoots;
    RunIsSafe(lvl, plans, timeout, startup, states, inputs, j);
    EndedIsFinal(lvl, plans, Initial(timeout).shutdown, states[j], inputs[j], states[k]);
    TurnRunsItsRoots(lvl, plans, Initial(timeout).shutdown, states[j], inputs[j], states[k]);
  }

  /** At every point of every fair run, all that was ever pending is exactly what was requested. */
  lemma {:induction false} RunIsServed(lvl: map<ReactionId, nat>, plans: seq<Plan>, timeout: Option<nat>,
                                       startup: Behaviour, states: seq<State>, inputs: seq<Input>, k: nat)
    requires |plans| > SHUTDOWN && IsRun(lvl, plans, timeout, startup, states, inputs)
    requires IsFairRun(lvl, plans, timeout, startup, states, inputs) && k < |states|
    ensures Lists(plans, states[k].pushed, Requested(startup, states, inputs, k))
  {
    hide ProcessesTag, Turn, Running, Lists, Requested, Delivered, AskedIn, Explained;
    if k == 0 {
      var start := Initial(timeout);
      NothingIsListed(plans);
      ProcessingIsServed(lvl, plans, start, ORIGIN, Due(plans[STARTUP]), startup, false, states[0], iset{});
      ProcessedLatest(lvl, plans, start, ORIGIN, Due(plans[STARTUP]), startup, false, states[0]);
      StartupRequested(startup, states, inputs, start);
      assert iset{} + AskedIn(start, startup, states[0]) == AskedIn(start, startup, states[0]);
    } else {
      var j := k - 1;
      LogStep(lvl, plans, timeout, startup, states, inputs, j, k);
      RunIsServed(lvl, plans, timeout, startup, states, inputs, j);
      TurnIsServed(lvl, plans, states[j], inputs[j], states[k], Requested(startup, states, inputs, j));
      RunIsExplained(lvl, plans, timeout, startup, states, inputs, j);
      ExplainedLength(lvl, plans, states[j], Behaviours(startup, states, inputs, j));
      OneMoreRequested(startup, states, inputs, j, k);
    }
  }

  lemma ExplainedLength(lvl: map<ReactionId, nat>, plans: seq<Plan>, s: State, outs: seq<Behaviour>)
    requires |plans| > SHUTDOWN && Explained(lvl, plans, s, outs)
    ensures |outs| == |s.log|
  {}
}
