/**
 What fair runs do about the requests made in them: what runs at each tag, which tags are processed, and when the
 program stops.
 */
module Services {
  import opened Wrappers
  import opened Plans
  import opened Graphs
  import opened Dataflow
  import opened Events
  import opened Context
  import opened Wave
  import opened Machine
  import opened Runs
  import opened Requests

  // ---------------------------------------------------------------------------------------------- what runs at a tag

  /** Setting a port, or starting a timer that has no offset, makes what it triggers run at the same tag. */
  ghost predicate Cascades(plans: seq<Plan>, out: Behaviour, s: set<ReactionId>)
    requires KnownBehaviour(plans, out)
  {
    forall r, c | r in s && c in out(r) :: RunsNow(plans, c, s)
  }

  ghost predicate RunsNow(plans: seq<Plan>, c: Command, s: set<ReactionId>) {
    && (c.SetPort? && c.port < |plans| ==> Due(plans[c.port]) <= s)
    && (c.BootstrapTimer? && c.timer.offset == 0 && c.timer.id < |plans| ==> Due(plans[c.timer.id]) <= s)
  }

  /**
    The least set of reactions that contains the roots, and with each reaction those that its calls make run at
    once.
  */
  ghost predicate IsCascade(plans: seq<Plan>, out: Behaviour, roots: iset<ReactionId>, ran: set<ReactionId>)
    requires KnownBehaviour(plans, out)
  {
    && (forall r | r in roots :: r in ran) && Cascades(plans, out, ran)
    && forall s: set<ReactionId> | (forall r | r in roots :: r in s) && Cascades(plans, out, s) :: ran <= s
  }

  lemma ClosedIfCascades(plans: seq<Plan>, out: Behaviour, s: set<ReactionId>)
    requires KnownBehaviour(plans, out)
    ensures Cascades(plans, out, s) <==> Closed(plans, out, s)
  {
    if Cascades(plans, out, s) {
      forall r, d | r in s && d in Demand(plans, out(r))
        ensures d.reaction in s
      {
        var c :| c in out(r) && d in NowSlots(plans, c);
        assert RunsNow(plans, c, s);
        assert d.reaction in Due(plans[TriggerNow(c).value]);
      }
    }
    if Closed(plans, out, s) {
      forall r, c | r in s && c in out(r)
        ensures RunsNow(plans, c, s)
      {
        assert AllKnown(plans, out(r));
        assert forall d | d in NowSlots(plans, c) :: d in Demand(plans, out(r));
      }
    }
  }

  /** The closure that a wave runs is the cascade of the calls. */
  lemma ClosureIsCascade(plans: seq<Plan>, out: Behaviour, roots: set<ReactionId>, all: iset<ReactionId>,
                         ran: set<ReactionId>)
    requires KnownBehaviour(plans, out) && forall r :: r in roots <==> r in all
    ensures IsClosure(plans, out, roots, ran) <==> IsCascade(plans, out, all, ran)
  {
    hide Closed, Cascades;
    forall s
      ensures Cascades(plans, out, s) <==> Closed(plans, out, s)
      ensures roots <= s <==> forall r | r in all :: r in s
    {
      ClosedIfCascades(plans, out, s);
    }
  }

  /** What a request for the tag wants, and the reactions to startup and shutdown. */
  ghost function RootsRequested(plans: seq<Plan>, asked: iset<Request>, p: Processed, isStartup: bool): iset<ReactionId>
    requires |plans| > SHUTDOWN
  {
    iset r: ReactionId |
      || (exists q :: q in asked && Wants(plans, q, Job(p.tag, r)))
      || (isStartup && r in Due(plans[STARTUP]))
      || (p.isShutdown && r in Due(plans[SHUTDOWN]))
  }

  lemma RootsAreRequested(plans: seq<Plan>, pushed: Agenda, asked: iset<Request>, p: Processed, isStartup: bool,
                          r: ReactionId)
    requires |plans| > SHUTDOWN && Lists(plans, pushed, asked)
    ensures r in RootsOf(plans, pushed, p, isStartup) <==> r in RootsRequested(plans, asked, p, isStartup)
  {
    hide Wants;
    assert r in WorkAt(pushed, p.tag) <==> Job(p.tag, r) in pushed.work;
  }

  /** At each tag exactly the cascade of what was requested for it has run. */
  ghost predicate RanRequested(plans: seq<Plan>, asked: iset<Request>, log: seq<Processed>, outs: seq<Behaviour>)
    requires |plans| > SHUTDOWN
  {
    && |outs| == |log|
    && forall n | 0 <= n < |log| ::
      && KnownBehaviour(plans, outs[n])
      && IsCascade(plans, outs[n], RootsRequested(plans, asked, log[n], n == 0), Elements(log[n].ran))
  }

  /**
   In every fair run, at every processed tag, exactly that has run which was requested for the tag, by asynchronous
   events or by calls of reactions, with all that this sets off.
   */
  lemma RunRunsRequests(lvl: map<ReactionId, nat>, plans: seq<Plan>, timeout: Option<nat>, startup: Behaviour,
                        states: seq<State>, inputs: seq<Input>, k: nat)
    requires |plans| > SHUTDOWN && IsRun(lvl, plans, timeout, startup, states, inputs)
    requires IsFairRun(lvl, plans, timeout, startup, states, inputs) && k < |states|
    ensures RanRequested(plans, Requested(startup, states, inputs, k), states[k].log,
                         Behaviours(startup, states, inputs, k))
  {
    RunIsExplained(lvl, plans, timeout, startup, states, inputs, k);
    RunIsServed(lvl, plans, timeout, startup, states, inputs, k);
    var asked, outs, s := Requested(startup, states, inputs, k), Behaviours(startup, states, inputs, k), states[k];
    hide Lists, IsRun, IsFairRun, Requested, RootsRequested, RootsOf, IsClosure, IsCascade, KnownBehaviour;
    forall n | 0 <= n < |s.log|
      ensures KnownBehaviour(plans, outs[n])
      ensures IsCascade(plans, outs[n], RootsRequested(plans, asked, s.log[n], n == 0), Elements(s.log[n].ran))
    {
      assert KnownBehaviour(plans, outs[n]) && RanItsRoots(lvl, plans, s.pushed, s.log[n], n == 0, outs[n]);
      var roots := RootsOf(plans, s.pushed, s.log[n], n == 0);
      var all := RootsRequested(plans, asked, s.log[n], n == 0);
      forall r
        ensures r in roots <==> r in all
      {
        RootsAreRequested(plans, s.pushed, asked, s.log[n], n == 0, r);
      }
      ClosureIsCascade(plans, outs[n], roots, all, Elements(s.log[n].ran));
    }
  }

  // ------------------------------------------------------------------------------------------ which tags are processed

  ghost predicate IsProcessed(log: seq<Processed>, tag: EventTag) {
    exists n :: 0 <= n < |log| && log[n].tag == tag
  }

  /**
    All tags that were ever pending, up to the latest, are processed; and no other tag, but for the first and the
    last.
  */
  ghost predicate TagsAreServed(s: State) {
    && s.latest.Some? && s.log != [] && s.log[0].tag == EventTag(0, 0)
    && (forall u | u in s.pushed.tags && u.AtMost(s.latest.value) :: IsProcessed(s.log, u))
    && forall n | 0 < n < |s.log| :: s.log[n].tag in s.pushed.tags || s.log[n].isShutdown
  }

  lemma ProcessedTags(lvl: map<ReactionId, nat>, plans: seq<Plan>, s: State, tag: EventTag, roots: set<ReactionId>,
                      out: Behaviour, isShutdown: bool, t: State)
    requires KnownBehaviour(plans, out) && ProcessesTag(lvl, plans, s, tag, roots, out, isShutdown, t)
    requires SchedulesLater(plans, tag, out)
    ensures s.pushed.tags <= t.pushed.tags && t.latest == Some(tag)
    ensures forall u | u in t.pushed.tags && u.AtMost(tag) :: u in s.pushed.tags
    ensures |t.log| == |s.log| + 1 && t.log[..|s.log|] == s.log
    ensures t.log[|s.log|].tag == tag && t.log[|s.log|].isShutdown == isShutdown
  {
    hide ScheduledBy, StoredBy, SchedulesLater;
    if roots != {} {
      var ran :| && IsClosure(plans, out, roots, Elements(ran)) && Distinct(ran) && InLevelOrder(lvl, ran)
                 && t == AfterWave(plans, s, tag, out, ran)
                         .(latest := Some(tag), log := s.log + [Processed(tag, ran, isShutdown)]);
      hide IsClosure;
      Runs.ScheduledIsLater(plans, tag, out, Elements(ran));
    }
  }

  lemma ShutdownTags(lvl: map<ReactionId, nat>, plans: seq<Plan>, s: State, tag: EventTag, roots: set<ReactionId>,
                     out: Behaviour, t: State)
    requires KnownBehaviour(plans, out) && |plans| > SHUTDOWN && ShutsDown(lvl, plans, s, tag, roots, out, t)
    requires SchedulesLater(plans, tag, out)
    ensures s.pushed.tags <= t.pushed.tags && t.latest == Some(tag)
    ensures forall u | u in t.pushed.tags && u.AtMost(tag) :: u in s.pushed.tags
    ensures |t.log| == |s.log| + 1 && t.log[..|s.log|] == s.log
    ensures t.log[|s.log|].tag == tag && t.log[|s.log|].isShutdown
  {
    hide ProcessesTag, SchedulesLater;
    ProcessedTags(lvl, plans, s.(shutdown := Some(tag)), tag, roots + Due(plans[SHUTDOWN]), out, true,
                  t.(terminated := s.terminated));
  }

  /** A state after `s` whose log has one more tag, the first one that was pending, or the last one of the program. */
  ghost predicate ServesNext(s: State, t: State, tag: EventTag, isLast: bool) {
    && s.latest.Some? && t.latest == Some(tag) && s.pushed.tags <= t.pushed.tags
    && (forall u | u in t.pushed.tags && u.AtMost(tag) :: u in s.pushed.tags && (s.latest.value.Before(u) ==> u == tag))
    && |t.log| == |s.log| + 1 && t.log[..|s.log|] == s.log && t.log[|s.log|].tag == tag
    && (tag in s.pushed.tags || (isLast && t.log[|s.log|].isShutdown))
  }

  lemma NextIsServed(s: State, t: State, tag: EventTag, isLast: bool)
    requires s.latest.Some? && TagsAreServed(s) && ServesNext(s, t, tag, isLast)
    ensures TagsAreServed(t)
  {
    var n := |s.log|;
    assert forall i | 0 <= i < n :: t.log[i] == s.log[i];
    assert IsProcessed(t.log, tag);
    forall u | u in t.pushed.tags && u.AtMost(tag)
      ensures IsProcessed(t.log, u)
    {
      if u != tag {
        var i :| 0 <= i < n && s.log[i].tag == u;
        assert t.log[i].tag == u;
      }
    }
  }

  lemma LaterTagsOnly(timeout: Option<EventTag>, s: State, u: EventTag)
    requires Running(timeout, s)
    ensures u in s.agenda.tags <==> u in s.pushed.tags && s.latest.value.Before(u)
  {}

  lemma PushedTags(s: State, events: set<Event>, tag: EventTag)
    requires AllLater(events, tag)
    ensures s.pushed.tags <= Push(s, events).pushed.tags
    ensures forall u | u in Push(s, events).pushed.tags && u.AtMost(tag) :: u in s.pushed.tags
  {
    assert forall e | e in events :: tag.Before(e.tag);
  }

  lemma PushServes(s: State, events: set<Event>)
    requires TagsAreServed(s) && AllLater(events, s.latest.value)
    ensures TagsAreServed(Push(s, events))
  {
    PushedTags(s, events, s.latest.value);
    hide Join, AgendaOf, IsProcessed;
  }

  /** Exactly what is pending lies after the latest tag. */
  ghost predicate AheadIsPending(s: State) {
    s.latest.Some? && forall u :: u in s.agenda.tags <==> u in s.pushed.tags && s.latest.value.Before(u)
  }

  lemma RunningAhead(timeout: Option<EventTag>, s: State)
    requires Running(timeout, s)
    ensures AheadIsPending(s)
  {
    forall u
      ensures u in s.agenda.tags <==> u in s.pushed.tags && s.latest.value.Before(u)
    {
      LaterTagsOnly(timeout, s, u);
    }
  }

  lemma ServesPending(s: State, next: State, t: State, tag: EventTag, stop: EventTag, isLast: bool)
    requires AheadIsPending(s) && IsLeast(s.agenda.tags, tag) && next.log == s.log && stop.AtMost(tag)
    requires s.pushed.tags <= next.pushed.tags <= t.pushed.tags
    requires forall u | u in next.pushed.tags && u.AtMost(stop) :: u in s.pushed.tags
    requires forall u | u in t.pushed.tags && u.AtMost(stop) :: u in next.pushed.tags
    requires t.latest == Some(stop) && |t.log| == |s.log| + 1 && t.log[..|s.log|] == s.log
    requires t.log[|s.log|].tag == stop && (stop == tag || (isLast && t.log[|s.log|].isShutdown))
    ensures ServesNext(s, t, stop, isLast)
  {}

  lemma TakingServes(lvl: map<ReactionId, nat>, plans: seq<Plan>, timeout: Option<EventTag>, s: State, tag: EventTag,
                     i: Input, t: State)
    requires KnownInput(plans, i) && |plans| > SHUTDOWN
    requires Running(timeout, s) && IsLeast(s.agenda.tags, tag) && TakesTag(lvl, plans, s, tag, i, t)
    requires i.interrupt.Some? ==> Runs.After(s.latest, i.interrupt.value.tag) && i.interrupt.value.tag != tag
    requires t.latest.Some? ==> SchedulesLater(plans, t.latest.value, i.out)
    requires TagsAreServed(s)
    ensures TagsAreServed(t)
  {
    RunningAhead(timeout, s);
    assert s.latest.Some?;
    hide ProcessesTag, ShutsDown, Running, AgendaOf, Join, Without, WorkAt, SchedulesLater, TagsAreServed, IsProcessed,
      KnownBehaviour, AheadIsPending, ServesNext, KnownInput, KnownEvent;
    var rest := s.(agenda := Without(s.agenda, tag));
    if s.shutdown.Some? && s.shutdown.value.Before(tag) {
      var stop := s.shutdown.value;
      ShutLatest(lvl, plans, rest, stop, {}, i.out, t);
      ShutdownTags(lvl, plans, rest, stop, {}, i.out, t);
      ServesPending(s, rest, t, tag, stop, true);
      NextIsServed(s, t, stop, true);
    } else if i.interrupt.Some? && i.interrupt.value.tag.Before(tag) {
      PushServes(s, {MakeExecutable(plans, i.interrupt.value)});
    } else {
      var events := if i.interrupt.Some? then {MakeExecutable(plans, i.interrupt.value)} else {};
      NoEvents(rest);
      var next := Push(rest, events);
      PushedTags(rest, events, tag);
      if tag in s.agenda.stops || s.shutdown == Some(tag) {
        ShutLatest(lvl, plans, next, tag, WorkAt(s.agenda, tag), i.out, t);
        ShutdownTags(lvl, plans, next, tag, WorkAt(s.agenda, tag), i.out, t);
      } else {
        ProcessedLatest(lvl, plans, next, tag, WorkAt(s.agenda, tag), i.out, false, t);
        ProcessedTags(lvl, plans, next, tag, WorkAt(s.agenda, tag), i.out, false, t);
      }
      ServesPending(s, next, t, tag, tag, false);
      NextIsServed(s, t, tag, false);
    }
  }

  lemma TurnServes(lvl: map<ReactionId, nat>, plans: seq<Plan>, timeout: Option<EventTag>, s: State, i: Input, t: State)
    requires KnownInput(plans, i) && |plans| > SHUTDOWN
    requires Running(timeout, s) && Turn(lvl, plans, s, i, t) && Fair(plans, s, i, t) && TagsAreServed(s)
    ensures TagsAreServed(t)
  {
    hide ProcessesTag, ShutsDown, Running, AgendaOf, Join, TakesTag, SchedulesLater, TagsAreServed, ServesNext;
    assert s.latest.Some? by { RunningHasLog(timeout, s); }
    var ready := Push(s, Arrived(plans, i.flushed));
    ArrivedLater(plans, i.flushed, s.latest.value);
    PushKeepsRunning(timeout, s, Arrived(plans, i.flushed));
    PushServes(s, Arrived(plans, i.flushed));
    if ready.agenda.tags == {} {
      if i.received.Some? {
        PushServes(ready, {MakeExecutable(plans, i.received.value)});
      } else {
        var stop := ready.shutdown.GetOr(i.now);
        ShutLatest(lvl, plans, ready, stop, {}, i.out, t);
        ShutdownTags(lvl, plans, ready, stop, {}, i.out, t);
        forall u | u in ready.pushed.tags
          ensures u.AtMost(ready.latest.value)
        {
          LaterTagsOnly(timeout, ready, u);
        }
        assert ServesNext(ready, t, stop, true) by { ServesLast(ready, t, stop); }
        NextIsServed(ready, t, stop, true);
      }
    } else {
      var tag :| IsLeast(ready.agenda.tags, tag) && TakesTag(lvl, plans, ready, tag, i, t);
      TakingServes(lvl, plans, timeout, ready, tag, i, t);
    }
  }

  lemma ServesLast(s: State, t: State, tag: EventTag)
    requires s.latest.Some? && forall u | u in s.pushed.tags :: u.AtMost(s.latest.value)
    requires t.latest == Some(tag) && s.pushed.tags <= t.pushed.tags
    requires forall u | u in t.pushed.tags && u.AtMost(tag) :: u in s.pushed.tags
    requires |t.log| == |s.log| + 1 && t.log[..|s.log|] == s.log && t.log[|s.log|].tag == tag
    requires t.log[|s.log|].isShutdown
    ensures ServesNext(s, t, tag, true)
  {}

  /** In every fair run, exactly the requested tags are processed, apart from the first and the last. */
  lemma {:induction false} RunServesTags(lvl: map<ReactionId, nat>, plans: seq<Plan>, timeout: Option<nat>,
                                         startup: Behaviour, states: seq<State>, inputs: seq<Input>, k: nat)
    requires |plans| > SHUTDOWN && IsRun(lvl, plans, timeout, startup, states, inputs)
    requires IsFairRun(lvl, plans, timeout, startup, states, inputs) && k < |states|
    ensures TagsAreServed(states[k])
  {
    hide ProcessesTag, Turn, Running, Fair;
    if k == 0 {
      ProcessedTags(lvl, plans, Initial(timeout), ORIGIN, Due(plans[STARTUP]), startup, false, states[0]);
    } else {
      LogStep(lvl, plans, timeout, startup, states, inputs, k - 1, k);
      RunServesTags(lvl, plans, timeout, startup, states, inputs, k - 1);
      TurnServes(lvl, plans, Initial(timeout).shutdown, states[k - 1], inputs[k - 1], states[k]);
    }
  }

  // ---------------------------------------------------------------------------------------------- single requests

  /** The tag of a request is processed once it is reached, and what the request is for runs at it. */
  lemma RequestIsServed(lvl: map<ReactionId, nat>, plans: seq<Plan>, timeout: Option<nat>, startup: Behaviour,
                        states: seq<State>, inputs: seq<Input>, k: nat, p: Request) returns (n: nat)
    requires |plans| > SHUTDOWN && IsRun(lvl, plans, timeout, startup, states, inputs)
    requires IsFairRun(lvl, plans, timeout, startup, states, inputs) && k < |states|
    requires p in Requested(startup, states, inputs, k)
    requires states[k].latest.Some? && p.tag.AtMost(states[k].latest.value)
    ensures n < |states[k].log| && states[k].log[n].tag == p.tag
    ensures p.trigger.Some? ==>
      p.trigger.value < |plans| && Due(plans[p.trigger.value]) <= Elements(states[k].log[n].ran)
  {
    RunIsServed(lvl, plans, timeout, startup, states, inputs, k);
    RunServesTags(lvl, plans, timeout, startup, states, inputs, k);
    RunRunsRequests(lvl, plans, timeout, startup, states, inputs, k);
    var asked, log := Requested(startup, states, inputs, k), states[k].log;
    hide IsRun, IsFairRun, Requested, KnownBehaviour, Cascades;
    n :| 0 <= n < |log| && log[n].tag == p.tag;
    if p.trigger.Some? {
      assert KnownEvent(plans, p);
      forall r | r in Due(plans[p.trigger.value])
        ensures r in log[n].ran
      {
        assert Wants(plans, p, Job(log[n].tag, r));
        assert r in RootsRequested(plans, asked, log[n], n == 0);
      }
    }
  }

  /** Every event that reaches the scheduler has run at its tag once the tag is reached. */
  lemma DeliveredIsServed(lvl: map<ReactionId, nat>, plans: seq<Plan>, timeout: Option<nat>, startup: Behaviour,
                          states: seq<State>, inputs: seq<Input>, j: nat, k: nat, p: PhysicalEvent) returns (n: nat)
    requires |plans| > SHUTDOWN && IsRun(lvl, plans, timeout, startup, states, inputs)
    requires IsFairRun(lvl, plans, timeout, startup, states, inputs) && k < |states|
    requires j < k && p in Delivered(states[j], inputs[j])
    requires states[k].latest.Some? && p.tag.AtMost(states[k].latest.value)
    ensures n < |states[k].log| && states[k].log[n].tag == p.tag
    ensures p.trigger.Some? ==>
      p.trigger.value < |plans| && Due(plans[p.trigger.value]) <= Elements(states[k].log[n].ran)
  {
    assert |states| == |inputs| + 1;
    hide IsRun, IsFairRun, Delivered;
    assert IsDelivered(states, inputs, k, p);
    n := RequestIsServed(lvl, plans, timeout, startup, states, inputs, k, p);
  }

  /** What a reaction has asked for is a request of the run. */
  lemma CallIsRequest(startup: Behaviour, states: seq<State>, inputs: seq<Input>, k: nat, n: nat, r: ReactionId,
                      c: Command, p: Request)
    requires k < |states| == |inputs| + 1 && n < |states[k].log| && n < |Behaviours(startup, states, inputs, k)|
    requires r in states[k].log[n].ran && c in Behaviours(startup, states, inputs, k)[n](r)
    requires Asks(states[k].log[n].tag, c, p)
    ensures p in Requested(startup, states, inputs, k)
  {
    hide Asks, IsDelivered;
    assert SomeAsks(states[k].log[n].tag, Behaviours(startup, states, inputs, k)[n], states[k].log[n].ran, p);
  }

  // ---------------------------------------------------------------------------------------------- ports

  /** What a plan of the compiled tables makes due: the reactions that the graph says its trigger triggers. */
  lemma DueIfTriggered(g: Graph, lvl: map<ReactionId, nat>, plans: seq<Plan>, t: nat, r: ReactionId)
    requires Compiled(g, lvl, plans) && IsTrigger(g, t)
    ensures g.nodes[t].id.trigger < |plans|
    ensures r in Due(plans[g.nodes[t].id.trigger]) <==>
            exists q: nat :: IsReaction(g, q) && Triggers(g, t, q) && g.nodes[q].id.reaction == r
  {
    hide Triggers;
    assert IsPlanOf(g, lvl, t, plans[g.nodes[t].id.trigger]);
    if q: nat :| IsReaction(g, q) && Triggers(g, t, q) && g.nodes[q].id.reaction == r {
      InRangeIfReaction(g, q);
      assert SlotOf(g, lvl, q) in TriggeredSlots(g, lvl, t);
    }
  }

  lemma InRangeIfReaction(g: Graph, q: nat)
    requires IsReaction(g, q)
    ensures q < |g.nodes|
  {}

  /** At the tag at which a port is set, every reaction runs that the graph says the port triggers. */
  lemma SetPortTriggers(g: Graph, lvl: map<ReactionId, nat>, plans: seq<Plan>, timeout: Option<nat>, startup: Behaviour,
                        states: seq<State>, inputs: seq<Input>, k: nat, n: nat, r: ReactionId, c: Command, t: nat,
                            q: nat)
    requires |plans| > SHUTDOWN && IsRun(lvl, plans, timeout, startup, states, inputs)
    requires IsFairRun(lvl, plans, timeout, startup, states, inputs) && k < |states|
    requires Compiled(g, lvl, plans) && n < |states[k].log| && n < |Behaviours(startup, states, inputs, k)|
    requires r in states[k].log[n].ran && c in Behaviours(startup, states, inputs, k)[n](r) && c.SetPort?
    requires IsTrigger(g, t) && g.nodes[t].id == TriggerNode(c.port) && IsReaction(g, q) && Triggers(g, t, q)
    ensures g.nodes[q].id.reaction in states[k].log[n].ran
  {
    hide Triggers, IsRun, IsFairRun, Compiled;
    RunRunsRequests(lvl, plans, timeout, startup, states, inputs, k);
    DueIfTriggered(g, lvl, plans, t, g.nodes[q].id.reaction);
    assert RunsNow(plans, c, Elements(states[k].log[n].ran));
  }

  // ---------------------------------------------------------------------------------------------- stops

  /** The tags at which the program is to stop: those of requests to stop, and that of the timeout. */
  ghost predicate IsStop(timeout: Option<nat>, asked: iset<Request>, u: EventTag) {
    || (exists p :: p in asked && p.terminate && p.tag == u)
    || (timeout.Some? && IsNext(EventTag(0, 0), timeout.value, u))
  }

  ghost predicate NoStop(timeout: Option<nat>, asked: iset<Request>) {
    forall u :: !IsStop(timeout, asked, u)
  }

  lemma TimeoutTag(timeout: Option<nat>, u: EventTag)
    ensures timeout.Some? && IsNext(EventTag(0, 0), timeout.value, u) <==> Initial(timeout).shutdown == Some(u)
  {
    if timeout.Some? {
      SuccessorIsNext(ORIGIN, timeout.value);
      if IsNext(ORIGIN, timeout.value, u) {
        NextIsUnique(ORIGIN, timeout.value, u, ORIGIN.Successor(timeout.value));
      }
    }
  }

  lemma StopsUntil(plans: seq<Plan>, timeout: Option<EventTag>, s: State)
    requires |plans| > SHUTDOWN && (Running(timeout, s) || Ended(plans, timeout, s))
    ensures s.latest.Some? && (s.terminated <==> Ended(plans, timeout, s))
    ensures forall u | u in s.pushed.stops || timeout == Some(u) ::
      if s.terminated then s.latest.value.AtMost(u) else s.latest.value.Before(u)
  {}

  /** Until the program stops, all stops lie ahead; and it stops no later than at the first of them. */
  lemma StopsLieAhead(lvl: map<ReactionId, nat>, plans: seq<Plan>, timeout: Option<nat>, startup: Behaviour,
                      states: seq<State>, inputs: seq<Input>, k: nat, u: EventTag)
    requires |plans| > SHUTDOWN && IsRun(lvl, plans, timeout, startup, states, inputs)
    requires IsFairRun(lvl, plans, timeout, startup, states, inputs) && k < |states|
    requires IsStop(timeout, Requested(startup, states, inputs, k), u)
    ensures states[k].latest.Some?
    ensures if states[k].terminated then states[k].latest.value.AtMost(u) else states[k].latest.value.Before(u)
  {
    hide IsRun, IsFairRun, Requested, Running, Ended, IsNext, Initial;
    RunIsSafe(lvl, plans, timeout, startup, states, inputs, k);
    RunIsServed(lvl, plans, timeout, startup, states, inputs, k);
    StopsUntil(plans, Initial(timeout).shutdown, states[k]);
    TimeoutTag(timeout, u);
  }

  /**
   The program stops at the first tag at which it is to stop. Only if there is none, it may stop because nothing is
   pending and no event can arrive any more, at the tag of the clock.
   */
  lemma {:induction false} StopsAtFirst(lvl: map<ReactionId, nat>, plans: seq<Plan>, timeout: Option<nat>,
                                        startup: Behaviour, states: seq<State>, inputs: seq<Input>, k: nat)
    requires |plans| > SHUTDOWN && IsRun(lvl, plans, timeout, startup, states, inputs)
    requires IsFairRun(lvl, plans, timeout, startup, states, inputs) && k < |states|
    requires states[k].terminated && states[k].latest.Some?
    ensures k > 0
    ensures IsStop(timeout, Requested(startup, states, inputs, k), states[k].latest.value)
            || (timeout.None? && states[k].latest.value == inputs[k - 1].now
                && NoStop(timeout, Requested(startup, states, inputs, k - 1)))
  {
    if k == 0 {
      NotAtStartup(lvl, plans, timeout, startup, states[0]);
    } else {
      var j := k - 1;
      var s, i, t := states[j], inputs[j], states[k];
      var asked := Requested(startup, states, inputs, j);
      LogStep(lvl, plans, timeout, startup, states, inputs, j, k);
      RunIsServed(lvl, plans, timeout, startup, states, inputs, j);
      RunIsExplained(lvl, plans, timeout, startup, states, inputs, j);
      ExplainedLength(lvl, plans, s, Behaviours(startup, states, inputs, j));
      OneMoreRequested(startup, states, inputs, j, k);
      hide IsRun, IsFairRun, Requested, Running, Turn, Fair, IsNext, AskedIn, Lists;
      LastTurn(lvl, plans, timeout, s, i, t, asked);
      MoreStops(timeout, asked + Delivered(s, i), Requested(startup, states, inputs, k), t.latest.value);
    }
  }

  lemma MoreStops(timeout: Option<nat>, asked: iset<Request>, more: iset<Request>, u: EventTag)
    requires asked <= more
    ensures IsStop(timeout, asked, u) ==> IsStop(timeout, more, u)
  {
    hide IsNext;
  }

  lemma LastTurn(lvl: map<ReactionId, nat>, plans: seq<Plan>, timeout: Option<nat>, s: State, i: Input, t: State,
                 asked: iset<Request>)
    requires KnownInput(plans, i) && |plans| > SHUTDOWN && Lists(plans, s.pushed, asked)
    requires Turn(lvl, plans, s, i, t) && Running(Initial(timeout).shutdown, s) && Fair(plans, s, i, t) && t.terminated
    ensures t.latest.Some?
    ensures IsStop(timeout, asked + Delivered(s, i), t.latest.value)
            || (timeout.None? && t.latest.value == i.now && NoStop(timeout, asked))
  {
    FlushIsServed(plans, s, i.flushed, asked);
    EarliestStop(lvl, plans, Initial(timeout).shutdown, s, i, t);
    hide Running, Turn, Fair, IsNext, AgendaOf, Arrived, KnownInput, Join, HasPending, Waits, KnownEvent, Wants, Lists;
    var flushed := iset p | p in i.flushed;
    var ready := Push(s, Arrived(plans, i.flushed));
    TimeoutTag(timeout, t.latest.value);
    if ready.pushed.stops == {} && timeout.None? {
      forall u
        ensures !IsStop(timeout, asked, u)
      {
        if p :| p in asked && p.terminate && p.tag == u {
          StopIsListed(plans, ready.pushed, asked + flushed, p);
        }
      }
    } else if t.latest.value in ready.pushed.stops {
      var p := ListedStop(plans, ready.pushed, asked + flushed, t.latest.value);
      assert p in asked + Delivered(s, i);
    }
  }

  lemma StopIsListed(plans: seq<Plan>, a: Agenda, asked: iset<Request>, p: Request)
    requires Lists(plans, a, asked) && p in asked && p.terminate
    ensures p.tag in a.stops
  {
    hide Wants, KnownEvent;
  }

  lemma ListedStop(plans: seq<Plan>, a: Agenda, asked: iset<Request>, u: EventTag) returns (p: Request)
    requires Lists(plans, a, asked) && u in a.stops
    ensures p in asked && p.terminate && p.tag == u
  {
    hide Wants, KnownEvent;
    p :| p in asked && p.tag == u && p.terminate;
  }

  lemma NotAtStartup(lvl: map<ReactionId, nat>, plans: seq<Plan>, timeout: Option<nat>, out: Behaviour, t: State)
    requires KnownBehaviour(plans, out) && |plans| > SHUTDOWN
    requires ProcessesTag(lvl, plans, Initial(timeout), ORIGIN, Due(plans[STARTUP]), out, false, t)
    ensures !t.terminated
  {
    hide IsClosure, ScheduledBy, StoredBy;
  }

  /** A request to stop is kept: nothing runs later than the offset after the call. */
  lemma StopRequestIsKept(lvl: map<ReactionId, nat>, plans: seq<Plan>, timeout: Option<nat>, startup: Behaviour,
                          states: seq<State>, inputs: seq<Input>, k: nat, n: nat, r: ReactionId, c: Command,
                          duration: nat, u: EventTag)
    requires |plans| > SHUTDOWN && IsRun(lvl, plans, timeout, startup, states, inputs)
    requires IsFairRun(lvl, plans, timeout, startup, states, inputs) && k < |states|
    requires n < |states[k].log| && n < |Behaviours(startup, states, inputs, k)|
    requires r in states[k].log[n].ran && c in Behaviours(startup, states, inputs, k)[n](r) && c.RequestStop?
    requires Lasts(c.offset, duration) && IsNext(states[k].log[n].tag, duration, u)
    ensures states[k].latest.Some? && u in states[k].pushed.stops
    ensures if states[k].terminated then states[k].latest.value.AtMost(u) else states[k].latest.value.Before(u)
  {
    assert |states| == |inputs| + 1;
    hide IsRun, IsFairRun, IsNext;
    var p := PhysicalEvent(u, None, true);
    assert Asks(states[k].log[n].tag, c, p);
    CallIsRequest(startup, states, inputs, k, n, r, c, p);
    RunIsServed(lvl, plans, timeout, startup, states, inputs, k);
    assert IsStop(timeout, Requested(startup, states, inputs, k), u);
    StopsLieAhead(lvl, plans, timeout, startup, states, inputs, k, u);
  }

  /** No tag is later than the timeout: without a microstep to spare, but for a timeout of zero, which allows one. */
  lemma TimeoutIsKept(lvl: map<ReactionId, nat>, plans: seq<Plan>, timeout: Option<nat>, startup: Behaviour,
                      states: seq<State>, inputs: seq<Input>, k: nat, n: nat)
    requires |plans| > SHUTDOWN && IsRun(lvl, plans, timeout, startup, states, inputs)
    requires IsFairRun(lvl, plans, timeout, startup, states, inputs) && k < |states|
    requires timeout.Some? && n < |states[k].log|
    ensures states[k].log[n].tag.AtMost(EventTag(timeout.value, if timeout.value == 0 then 1 else 0))
    ensures states[k].log[n].tag == EventTag(timeout.value, if timeout.value == 0 then 1 else 0) ==>
        states[k].terminated
  {
    var u := EventTag(timeout.value, if timeout.value == 0 then 1 else 0);
    assert IsNext(EventTag(0, 0), timeout.value, u);
    StopsLieAhead(lvl, plans, timeout, startup, states, inputs, k, u);
    RunIsSafe(lvl, plans, timeout, startup, states, inputs, k);
    LogUpToLatest(plans, Initial(timeout).shutdown, states[k], n);
  }

  lemma LogUpToLatest(plans: seq<Plan>, timeout: Option<EventTag>, s: State, n: nat)
    requires |plans| > SHUTDOWN && (Running(timeout, s) || Ended(plans, timeout, s)) && n < |s.log|
    ensures s.latest.Some? && s.log[n].tag.AtMost(s.latest.value)
  {}
}
