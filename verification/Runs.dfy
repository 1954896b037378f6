/** Safety of whole runs of the machine, for any environment that keeps its promises. */
module Runs {
  import opened Wrappers
  import opened Plans
  import opened Graphs
  import opened Events
  import opened Context
  import opened Wave
  import opened Machine

  // ---------------------------------------------------------------------------------------------- agendas

  /** The part of an agenda that is later than a tag. */
  ghost function LaterThan(a: Agenda, tag: EventTag): Agenda {
    Agenda((set t | t in a.tags && tag.Before(t)),
           (set j | j in a.work && tag.Before(j.tag)),
           (set t | t in a.stops && tag.Before(t)))
  }

  /** What an agenda lists is at one of its tags. */
  ghost predicate Coherent(a: Agenda) {
    (forall j | j in a.work :: j.tag in a.tags) && a.stops <= a.tags
  }

  ghost predicate AllLater(events: set<Event>, tag: EventTag) {
    forall e | e in events :: tag.Before(e.tag)
  }

  lemma JoinIsCoherent(a: Agenda, events: set<Event>)
    requires Coherent(a)
    ensures Coherent(Join(a, AgendaOf(events)))
  {}

  lemma JoinLater(a: Agenda, events: set<Event>, tag: EventTag)
    requires AllLater(events, tag)
    ensures LaterThan(Join(a, AgendaOf(events)), tag) == Join(LaterThan(a, tag), AgendaOf(events))
  {
    var b := AgendaOf(events);
    assert forall j | j in b.work :: tag.Before(j.tag);
    assert forall t | t in b.tags :: tag.Before(t);
    assert forall t | t in b.stops :: tag.Before(t);
  }

  /** Taking the least pending tag leaves what is later than it. */
  lemma WithoutLeast(pushed: Agenda, latest: EventTag, tag: EventTag)
    requires Coherent(pushed) && IsLeast(LaterThan(pushed, latest).tags, tag)
    ensures Without(LaterThan(pushed, latest), tag) == LaterThan(pushed, tag)
  {
    var a := LaterThan(pushed, latest);
    assert forall j | j in a.work :: j.tag in a.tags;
    assert forall t | t in a.stops :: t in a.tags;
  }

  // ---------------------------------------------------------------------------------------------- history

  ghost predicate Ran(log: seq<Processed>, j: Job) {
    exists p :: p in log && p.tag == j.tag && j.reaction in p.ran
  }

  ghost predicate Increasing(log: seq<Processed>) {
    forall i, j | 0 <= i < j < |log| :: log[i].tag.Before(log[j].tag)
  }

  /** The log lists the processed tags in strictly ascending order, the latest last. */
  ghost predicate GoodLog(s: State) {
    && Increasing(s.log)
    && s.latest == if s.log == [] then None else Some(s.log[|s.log| - 1].tag)
  }

  ghost predicate After(latest: Option<EventTag>, tag: EventTag) {
    latest.Some? ==> latest.value.Before(tag)
  }

  /** Every job ever pushed for a tag up to `tag` has run at it. */
  ghost predicate AllRan(s: State, tag: EventTag) {
    forall j | j in s.pushed.work && j.tag.AtMost(tag) :: Ran(s.log, j)
  }

  ghost predicate RanBefore(s: State, tag: EventTag) {
    forall j | j in s.pushed.work && j.tag.Before(tag) :: Ran(s.log, j)
  }

  ghost predicate SchedulesLater(plans: seq<Plan>, tag: EventTag, out: Behaviour)
    requires KnownBehaviour(plans, out)
  {
    forall r, e | e in Scheduled(plans, tag, out(r)) :: tag.Before(e.tag)
  }

  lemma LogGrows(log: seq<Processed>, p: Processed)
    requires Increasing(log) && (log != [] ==> log[|log| - 1].tag.Before(p.tag))
    ensures Increasing(log + [p])
    ensures forall j | Ran(log, j) :: Ran(log + [p], j)
    ensures forall r | r in p.ran :: Ran(log + [p], Job(p.tag, r))
  {
    var next := log + [p];
    forall i, j | 0 <= i < j < |next|
      ensures next[i].tag.Before(next[j].tag)
    {
      assert j == |log| && i < |log| - 1 ==> log[i].tag.Before(log[|log| - 1].tag);
    }
    assert p in next;
    forall j | Ran(log, j)
      ensures Ran(next, j)
    {
      var q :| q in log && q.tag == j.tag && j.reaction in q.ran;
      assert q in next;
    }
  }

  /** Processing a tag that is later than all before, with all the work that was pushed for it. */
  lemma Processing(lvl: map<ReactionId, nat>, plans: seq<Plan>, s: State, tag: EventTag, roots: set<ReactionId>,
                   out: Behaviour, isShutdown: bool, t: State)
    requires KnownBehaviour(plans, out) && ProcessesTag(lvl, plans, s, tag, roots, out, isShutdown, t)
    requires GoodLog(s) && After(s.latest, tag) && SchedulesLater(plans, tag, out)
    requires Coherent(s.pushed) && RanBefore(s, tag) && WorkAt(s.pushed, tag) <= roots
    ensures GoodLog(t) && t.latest == Some(tag) && t.shutdown == s.shutdown && t.terminated == s.terminated
    ensures Coherent(t.pushed) && AllRan(t, tag)
    ensures t.log[|t.log| - 1].isShutdown == isShutdown && |t.log| == |s.log| + 1 && t.log[..|s.log|] == s.log
    ensures s.agenda == LaterThan(s.pushed, tag) ==> t.agenda == LaterThan(t.pushed, tag)
    ensures forall u | u in t.pushed.stops && !tag.Before(u) :: u in s.pushed.stops
    ensures s.pushed.stops <= t.pushed.stops
  {
    hide ScheduledBy, StoredBy, AgendaOf, LaterThan, Coherent, RanBefore, AllRan, Closed, Distinct, InLevelOrder, Ran;
    var ran: seq<ReactionId>;
    if roots == {} {
      ran := [];
    } else {
      ran :| && IsClosure(plans, out, roots, Elements(ran)) && Distinct(ran) && InLevelOrder(lvl, ran)
             && t == AfterWave(plans, s, tag, out, ran).(latest := Some(tag),
                 log := s.log + [Processed(tag, ran, isShutdown)]);
      var events := ScheduledBy(plans, tag, out, Elements(ran));
      ScheduledIsLater(plans, tag, out, Elements(ran));
      JoinLater(s.pushed, events, tag);
      JoinIsCoherent(s.pushed, events);
    }
    LogGrows(s.log, Processed(tag, ran, isShutdown));
    NewJobsAreLater(plans, s, tag, roots, out, ran, t);
  }

  lemma ScheduledIsLater(plans: seq<Plan>, tag: EventTag, out: Behaviour, batch: set<ReactionId>)
    requires KnownBehaviour(plans, out) && SchedulesLater(plans, tag, out)
    ensures AllLater(ScheduledBy(plans, tag, out, batch), tag)
  {}

  lemma NewJobsAreLater(plans: seq<Plan>, s: State, tag: EventTag, roots: set<ReactionId>, out: Behaviour,
                        ran: seq<ReactionId>, t: State)
    requires KnownBehaviour(plans, out) && SchedulesLater(plans, tag, out)
    requires t.pushed == s.pushed || t.pushed == Join(s.pushed, AgendaOf(ScheduledBy(plans, tag, out, Elements(ran))))
    requires RanBefore(s, tag) && WorkAt(s.pushed, tag) <= roots <= Elements(ran)
    requires forall j | Ran(s.log, j) :: Ran(t.log, j)
    requires forall r | r in ran :: Ran(t.log, Job(tag, r))
    ensures AllRan(t, tag)
    ensures forall u | u in t.pushed.stops && !tag.Before(u) :: u in s.pushed.stops
  {
    forall j | j in t.pushed.work && j.tag.AtMost(tag)
      ensures Ran(t.log, j)
    {
      assert j in s.pushed.work;
      if j.tag == tag {
        assert j.reaction in WorkAt(s.pushed, tag);
      }
    }
  }

  // ---------------------------------------------------------------------------------------------- safe states

  /** A state between two turns of the loop. */
  ghost predicate Running(timeout: Option<EventTag>, s: State) {
    && !s.terminated && s.latest.Some? && GoodLog(s) && Coherent(s.pushed)
       // what is pending is exactly what was pushed for later tags, and what was pushed for the others has run
    && s.agenda == LaterThan(s.pushed, s.latest.value)
    && AllRan(s, s.latest.value)
       // no stop was due yet
    && s.shutdown == timeout && (timeout.Some? ==> s.latest.value.Before(timeout.value))
    && (forall u | u in s.pushed.stops :: s.latest.value.Before(u))
    && forall p | p in s.log :: !p.isShutdown
  }

  /** The state after the loop: the last tag is the shutdown tag, and no stop was due before it. */
  ghost predicate Ended(plans: seq<Plan>, timeout: Option<EventTag>, s: State)
    requires |plans| > SHUTDOWN
  {
    && s.terminated && s.latest.Some? && s.shutdown == s.latest && GoodLog(s)
    && AllRan(s, s.latest.value)
    && (timeout.Some? ==> s.latest.value.AtMost(timeout.value))
    && (forall u | u in s.pushed.stops :: s.latest.value.AtMost(u))
    && s.log != [] && s.log[|s.log| - 1].isShutdown
       // the shutdown reactions have run at the last tag
    && Due(plans[SHUTDOWN]) <= Elements(s.log[|s.log| - 1].ran)
    && forall i | 0 <= i < |s.log| - 1 :: !s.log[i].isShutdown
  }

  /** The promises of the environment for one turn from `s` to `t`. */
  ghost predicate Fair(plans: seq<Plan>, s: State, i: Input, t: State)
    requires KnownInput(plans, i)
  {
       // asynchronous events are later than the latest processed tag
    && (forall p | p in i.flushed :: After(s.latest, p.tag))
    && (i.received.Some? ==> After(s.latest, i.received.value.tag))
    && (i.interrupt.Some? ==> After(s.latest, i.interrupt.value.tag))
       // an event that interrupts the sleep is not for the tag that is waited for
    && (i.interrupt.Some? ==> !IsLeast(Push(s, Arrived(plans, i.flushed)).agenda.tags, i.interrupt.value.tag))
       // the clock at the end is past the latest tag
    && After(s.latest, i.now)
       // reactions schedule for later tags
    && (t.latest.Some? ==> SchedulesLater(plans, t.latest.value, i.out))
  }

  lemma PushKeepsRunning(timeout: Option<EventTag>, s: State, events: set<Event>)
    requires Running(timeout, s) && AllLater(events, s.latest.value)
    ensures Running(timeout, Push(s, events))
  {
    JoinLater(s.pushed, events, s.latest.value);
    JoinIsCoherent(s.pushed, events);
    var p := Join(s.pushed, AgendaOf(events));
    assert forall j | j in AgendaOf(events).work :: s.latest.value.Before(j.tag);
    assert forall u | u in AgendaOf(events).stops :: s.latest.value.Before(u);
  }

  lemma ArrivedLater(plans: seq<Plan>, events: seq<PhysicalEvent>, latest: EventTag)
    requires forall p | p in events :: KnownEvent(plans, p) && latest.Before(p.tag)
    ensures AllLater(Arrived(plans, events), latest)
  {}

  /** A tag that no pending tag precedes is ready to be processed. */
  lemma NothingBefore(timeout: Option<EventTag>, s: State, tag: EventTag)
    requires Running(timeout, s) && After(s.latest, tag)
    requires forall u | u in s.agenda.tags :: tag.AtMost(u)
    ensures RanBefore(s, tag)
    ensures WorkAt(s.pushed, tag) == WorkAt(s.agenda, tag)
    ensures forall u | u in s.pushed.stops :: tag.AtMost(u)
    ensures tag !in s.agenda.tags ==> WorkAt(s.agenda, tag) == {}
  {
    forall j | j in s.pushed.work && j.tag.Before(tag)
      ensures Ran(s.log, j)
    {
      assert s.latest.value.Before(j.tag) ==> j.tag in s.agenda.tags;
    }
    forall u | u in s.pushed.stops
      ensures tag.AtMost(u)
    {
      assert u in s.agenda.tags;
    }
    assert forall j | j in s.agenda.work :: j.tag in s.agenda.tags;
    assert forall j | j in s.pushed.work && j.tag == tag :: j in s.agenda.work;
  }

  /** What `Processing` needs of a state, and what makes a shutdown at `tag` the right one. */
  ghost predicate Poised(timeout: Option<EventTag>, s: State, tag: EventTag) {
    && !s.terminated && GoodLog(s) && After(s.latest, tag) && Coherent(s.pushed) && RanBefore(s, tag)
    && (timeout.Some? ==> tag.AtMost(timeout.value))
    && (forall u | u in s.pushed.stops :: tag.AtMost(u))
    && forall p | p in s.log :: !p.isShutdown
  }

  lemma ShutdownEnds(lvl: map<ReactionId, nat>, plans: seq<Plan>, timeout: Option<EventTag>, s: State, tag: EventTag,
                     roots: set<ReactionId>, out: Behaviour, t: State)
    requires KnownBehaviour(plans, out) && |plans| > SHUTDOWN && ShutsDown(lvl, plans, s, tag, roots, out, t)
    requires Poised(timeout, s, tag) && WorkAt(s.pushed, tag) <= roots && SchedulesLater(plans, tag, out)
    ensures Ended(plans, timeout, t) && t.latest == Some(tag) && s.pushed.stops <= t.pushed.stops
    ensures forall u | u in t.pushed.stops && !tag.Before(u) :: u in s.pushed.stops
  {
    var before := s.(shutdown := Some(tag));
    var after := t.(terminated := s.terminated);
    Processing(lvl, plans, before, tag, roots + Due(plans[SHUTDOWN]), out, true, after);
    RootsRun(lvl, plans, before, tag, roots + Due(plans[SHUTDOWN]), out, true, after);
    LogStays(s.log, after.log);
  }

  lemma RootsRun(lvl: map<ReactionId, nat>, plans: seq<Plan>, s: State, tag: EventTag, roots: set<ReactionId>,
                 out: Behaviour, isShutdown: bool, t: State)
    requires KnownBehaviour(plans, out) && ProcessesTag(lvl, plans, s, tag, roots, out, isShutdown, t)
    ensures t.log != [] && roots <= Elements(t.log[|t.log| - 1].ran)
  {}

  lemma LogStays(log: seq<Processed>, next: seq<Processed>)
    requires |next| == |log| + 1 && next[..|log|] == log
    requires forall p | p in log :: !p.isShutdown
    ensures forall i | 0 <= i < |next| - 1 :: !next[i].isShutdown
  {
    forall i | 0 <= i < |next| - 1
      ensures !next[i].isShutdown
    {
      assert next[i] == next[..|log|][i] == log[i];
    }
  }

  // ---------------------------------------------------------------------------------------------- one turn

  lemma TakingLeast(timeout: Option<EventTag>, s: State, tag: EventTag, next: State, events: set<Event>)
    requires Running(timeout, s) && IsLeast(s.agenda.tags, tag) && AllLater(events, tag)
    requires next == Push(s.(agenda := Without(s.agenda, tag)), events)
    requires s.shutdown.Some? ==> tag.AtMost(s.shutdown.value)
    ensures Poised(timeout, next, tag) && WorkAt(next.pushed, tag) == WorkAt(s.agenda, tag)
    ensures next.agenda == LaterThan(next.pushed, tag)
    ensures forall u | u in next.pushed.stops && !tag.Before(u) :: u in s.agenda.stops
  {
    var latest := s.latest.value;
    assert latest.Before(tag);
    NothingBefore(timeout, s, tag);
    WithoutLeast(s.pushed, latest, tag);
    JoinLater(s.pushed, events, tag);
    JoinIsCoherent(s.pushed, events);
    var new_jobs := AgendaOf(events);
    assert forall j | j in new_jobs.work :: tag.Before(j.tag);
    assert forall u | u in new_jobs.stops :: tag.Before(u);
  }

  lemma ProcessedLatest(lvl: map<ReactionId, nat>, plans: seq<Plan>, s: State, tag: EventTag, roots: set<ReactionId>,
                        out: Behaviour, isShutdown: bool, t: State)
    requires KnownBehaviour(plans, out) && ProcessesTag(lvl, plans, s, tag, roots, out, isShutdown, t)
    ensures t.latest == Some(tag)
  {}

  lemma ShutLatest(lvl: map<ReactionId, nat>, plans: seq<Plan>, s: State, tag: EventTag, roots: set<ReactionId>,
                   out: Behaviour, t: State)
    requires KnownBehaviour(plans, out) && |plans| > SHUTDOWN && ShutsDown(lvl, plans, s, tag, roots, out, t)
    ensures t.latest == Some(tag)
  {}

  lemma NoEvents(s: State)
    ensures Push(s, {}) == s
  {}

  lemma NotYet(timeout: Option<EventTag>, s: State, tag: EventTag, rest: State)
    requires Running(timeout, s) && After(s.latest, tag) && tag !in s.agenda.tags
    requires forall u | u in s.agenda.tags :: tag.AtMost(u)
    requires timeout.Some? ==> tag.AtMost(timeout.value)
    requires rest == s.(agenda := rest.agenda)
    ensures Poised(timeout, rest, tag) && WorkAt(rest.pushed, tag) == {}
  {
    NothingBefore(timeout, s, tag);
  }

  /** A turn in which the least pending tag is taken. */
  lemma TagTaken(lvl: map<ReactionId, nat>, plans: seq<Plan>, timeout: Option<EventTag>,
                 s: State, tag: EventTag, i: Input, t: State)
    requires KnownInput(plans, i) && |plans| > SHUTDOWN
    requires Running(timeout, s) && IsLeast(s.agenda.tags, tag) && TakesTag(lvl, plans, s, tag, i, t)
    requires i.interrupt.Some? ==> After(s.latest, i.interrupt.value.tag) && i.interrupt.value.tag != tag
    requires t.latest.Some? ==> SchedulesLater(plans, t.latest.value, i.out)
    ensures Running(timeout, t) || Ended(plans, timeout, t)
  {
    hide ProcessesTag, ShutsDown, LaterThan, Coherent, RanBefore, AllRan, AgendaOf, Join, Without, WorkAt, GoodLog;
    var rest := s.(agenda := Without(s.agenda, tag));
    if s.shutdown.Some? && s.shutdown.value.Before(tag) {
      var stop := s.shutdown.value;
      NothingBefore(timeout, s, stop);
      NotYet(timeout, s, stop, rest);
      ShutLatest(lvl, plans, rest, stop, {}, i.out, t);
      ShutdownEnds(lvl, plans, timeout, rest, stop, {}, i.out, t);
    } else if i.interrupt.Some? && i.interrupt.value.tag.Before(tag) {
      PushKeepsRunning(timeout, s, {MakeExecutable(plans, i.interrupt.value)});
    } else {
      var events := if i.interrupt.Some? then {MakeExecutable(plans, i.interrupt.value)} else {};
      NoEvents(rest);
      var next := Push(rest, events);
      TakingLeast(timeout, s, tag, next, events);
      if tag in s.agenda.stops || s.shutdown == Some(tag) {
        ShutLatest(lvl, plans, next, tag, WorkAt(s.agenda, tag), i.out, t);
        ShutdownEnds(lvl, plans, timeout, next, tag, WorkAt(s.agenda, tag), i.out, t);
      } else {
        ProcessedLatest(lvl, plans, next, tag, WorkAt(s.agenda, tag), i.out, false, t);
        Processing(lvl, plans, next, tag, WorkAt(s.agenda, tag), i.out, false, t);
        StillRunning(timeout, s, next, tag, t);
      }
    }
  }

  lemma StillRunning(timeout: Option<EventTag>, s: State, next: State, tag: EventTag, t: State)
    requires Poised(timeout, next, tag) && next.shutdown == timeout && timeout != Some(tag)
    requires tag !in s.agenda.stops
    requires forall u | u in next.pushed.stops && !tag.Before(u) :: u in s.agenda.stops
    requires GoodLog(t) && t.latest == Some(tag) && t.shutdown == next.shutdown && !t.terminated
    requires Coherent(t.pushed) && AllRan(t, tag) && t.agenda == LaterThan(t.pushed, tag)
    requires |t.log| == |next.log| + 1 && t.log[..|next.log|] == next.log && !t.log[|t.log| - 1].isShutdown
    requires forall u | u in t.pushed.stops && !tag.Before(u) :: u in next.pushed.stops
    ensures Running(timeout, t)
  {
    LogStays(next.log, t.log);
    forall u | u in t.pushed.stops
      ensures tag.Before(u)
    {
      assert !tag.Before(u) ==> u in next.pushed.stops && tag.AtMost(u) && u == tag && u in s.agenda.stops;
    }
    forall p | p in t.log
      ensures !p.isShutdown
    {
      var k :| 0 <= k < |t.log| && t.log[k] == p;
    }
  }

  /** A turn of the loop in a fair environment leads to another state between turns, or ends the run in order. */
  lemma TurnIsSafe(lvl: map<ReactionId, nat>, plans: seq<Plan>, timeout: Option<EventTag>, s: State, i: Input, t: State)
    requires KnownInput(plans, i) && |plans| > SHUTDOWN
    requires Running(timeout, s) && Turn(lvl, plans, s, i, t) && Fair(plans, s, i, t)
    ensures Running(timeout, t) || Ended(plans, timeout, t)
  {
    hide ProcessesTag, LaterThan, Coherent, RanBefore, AllRan, AgendaOf, Join, Without, WorkAt, GoodLog, TakesTag;
    var ready := Push(s, Arrived(plans, i.flushed));
    ArrivedLater(plans, i.flushed, s.latest.value);
    PushKeepsRunning(timeout, s, Arrived(plans, i.flushed));
    if ready.agenda.tags == {} {
      if i.received.Some? {
        PushKeepsRunning(timeout, ready, {MakeExecutable(plans, i.received.value)});
      } else {
        var stop := ready.shutdown.GetOr(i.now);
        NotYet(timeout, ready, stop, ready);
        ShutLatest(lvl, plans, ready, stop, {}, i.out, t);
        ShutdownEnds(lvl, plans, timeout, ready, stop, {}, i.out, t);
      }
    } else {
      var tag :| IsLeast(ready.agenda.tags, tag) && TakesTag(lvl, plans, ready, tag, i, t);
      TagTaken(lvl, plans, timeout, ready, tag, i, t);
    }
  }

  lemma EmptyIsCoherent()
    ensures Coherent(NO_AGENDA)
  {}

  lemma StartupIsSafe(lvl: map<ReactionId, nat>, plans: seq<Plan>, timeout: Option<nat>, out: Behaviour, t: State)
    requires KnownBehaviour(plans, out) && |plans| > SHUTDOWN && SchedulesLater(plans, ORIGIN, out)
    requires ProcessesTag(lvl, plans, Initial(timeout), ORIGIN, Due(plans[STARTUP]), out, false, t)
    ensures Running(Initial(timeout).shutdown, t)
  {
    hide ProcessesTag, AgendaOf, Coherent;
    var s := Initial(timeout);
    assert Coherent(s.pushed) by { EmptyIsCoherent(); }
    assert WorkAt(s.pushed, ORIGIN) == {};
    assert s.agenda == LaterThan(s.pushed, ORIGIN);
    Processing(lvl, plans, s, ORIGIN, Due(plans[STARTUP]), out, false, t);
    assert forall p | p in t.log :: p == t.log[0];
  }

  // ---------------------------------------------------------------------------------------------- what runs at a tag

  /** What sets off the wave of a processed tag: what was pushed for it, and at startup and shutdown their reactions. */
  ghost function RootsOf(plans: seq<Plan>, pushed: Agenda, p: Processed, isStartup: bool): set<ReactionId>
    requires |plans| > SHUTDOWN
  {
    WorkAt(pushed, p.tag) + (if isStartup then Due(plans[STARTUP]) else {})
    + (if p.isShutdown then Due(plans[SHUTDOWN]) else {})
  }

  /** What ran at a tag is exactly the closure of its roots, each reaction once, in ascending order of levels. */
  ghost predicate RanItsRoots(lvl: map<ReactionId, nat>, plans: seq<Plan>, pushed: Agenda, p: Processed,
                              isStartup: bool, out: Behaviour)
    requires |plans| > SHUTDOWN && KnownBehaviour(plans, out)
  {
    && IsClosure(plans, out, RootsOf(plans, pushed, p, isStartup), Elements(p.ran))
    && Distinct(p.ran) && InLevelOrder(lvl, p.ran)
  }

  /** Both agendas list the same work up to `tag`. */
  ghost predicate SameUpTo(a: Agenda, b: Agenda, tag: EventTag) {
    forall u: EventTag | u.AtMost(tag) :: WorkAt(a, u) == WorkAt(b, u)
  }

  lemma LaterJobsAdded(a: Agenda, events: set<Event>, tag: EventTag)
    requires AllLater(events, tag)
    ensures SameUpTo(a, Join(a, AgendaOf(events)), tag)
  {
    var b := AgendaOf(events);
    assert forall j | j in b.work :: tag.Before(j.tag);
  }

  lemma ProcessedItsRoots(lvl: map<ReactionId, nat>, plans: seq<Plan>, s: State, tag: EventTag, roots: set<ReactionId>,
                          out: Behaviour, isShutdown: bool, t: State) returns (p: Processed)
    requires KnownBehaviour(plans, out) && ProcessesTag(lvl, plans, s, tag, roots, out, isShutdown, t)
    requires SchedulesLater(plans, tag, out)
    ensures t.log == s.log + [p] && p.tag == tag && p.isShutdown == isShutdown
    ensures IsClosure(plans, out, roots, Elements(p.ran)) && Distinct(p.ran) && InLevelOrder(lvl, p.ran)
    ensures SameUpTo(s.pushed, t.pushed, tag)
  {
    hide ScheduledBy, StoredBy, AgendaOf, SchedulesLater;
    if roots == {} {
      p := Processed(tag, [], isShutdown);
      assert IsClosure(plans, out, {}, Elements([]));
    } else {
      var ran :| && IsClosure(plans, out, roots, Elements(ran)) && Distinct(ran) && InLevelOrder(lvl, ran)
                 && t == AfterWave(plans, s, tag, out, ran)
                         .(latest := Some(tag), log := s.log + [Processed(tag, ran, isShutdown)]);
      hide IsClosure;
      p := Processed(tag, ran, isShutdown);
      ScheduledIsLater(plans, tag, out, Elements(ran));
      LaterJobsAdded(s.pushed, ScheduledBy(plans, tag, out, Elements(ran)), tag);
    }
  }

  /** The log has grown by one processed tag, at which the closure of its roots ran. */
  ghost predicate Advanced(lvl: map<ReactionId, nat>, plans: seq<Plan>, s: State, isStartup: bool, out: Behaviour,
      t: State)
    requires |plans| > SHUTDOWN && KnownBehaviour(plans, out)
  {
    && |t.log| == |s.log| + 1 && t.log[..|s.log|] == s.log
    && RanItsRoots(lvl, plans, t.pushed, t.log[|s.log|], isStartup, out)
  }

  lemma RootsAreExact(lvl: map<ReactionId, nat>, plans: seq<Plan>, s: State, next: State, tag: EventTag,
                      roots: set<ReactionId>, out: Behaviour, isShutdown: bool, t: State)
    requires KnownBehaviour(plans, out) && ProcessesTag(lvl, plans, next, tag, roots, out, isShutdown, t)
    requires |plans| > SHUTDOWN && SchedulesLater(plans, tag, out) && next.log == s.log
    requires roots == WorkAt(next.pushed, tag) + if isShutdown then Due(plans[SHUTDOWN]) else {}
    ensures Advanced(lvl, plans, s, false, out, t) && SameUpTo(next.pushed, t.pushed, tag)
  {
    hide IsClosure, ProcessesTag, SchedulesLater;
    var p := ProcessedItsRoots(lvl, plans, next, tag, roots, out, isShutdown, t);
    assert tag.AtMost(tag);
    assert RootsOf(plans, t.pushed, p, false) == roots;
  }

  lemma ShutdownRoots(lvl: map<ReactionId, nat>, plans: seq<Plan>, s: State, next: State, tag: EventTag,
                      roots: set<ReactionId>, out: Behaviour, t: State)
    requires KnownBehaviour(plans, out) && |plans| > SHUTDOWN && ShutsDown(lvl, plans, next, tag, roots, out, t)
    requires SchedulesLater(plans, tag, out) && next.log == s.log && roots == WorkAt(next.pushed, tag)
    ensures Advanced(lvl, plans, s, false, out, t) && SameUpTo(next.pushed, t.pushed, tag)
  {
    hide IsClosure, ProcessesTag, SchedulesLater;
    var before := next.(shutdown := Some(tag));
    var after := t.(terminated := next.terminated);
    RootsAreExact(lvl, plans, s, before, tag, roots + Due(plans[SHUTDOWN]), out, true, after);
  }

  lemma SameUpToBoth(a: Agenda, b: Agenda, c: Agenda, early: EventTag, late: EventTag)
    requires SameUpTo(a, b, early) && SameUpTo(b, c, late) && early.AtMost(late)
    ensures SameUpTo(a, c, early)
  {}

  /** The same, for a turn in which the least pending tag is taken. */
  lemma TakenItsRoots(lvl: map<ReactionId, nat>, plans: seq<Plan>, timeout: Option<EventTag>,
                      s: State, tag: EventTag, i: Input, t: State)
    requires KnownInput(plans, i) && |plans| > SHUTDOWN
    requires Running(timeout, s) && IsLeast(s.agenda.tags, tag) && TakesTag(lvl, plans, s, tag, i, t)
    requires i.interrupt.Some? ==> After(s.latest, i.interrupt.value.tag) && i.interrupt.value.tag != tag
    requires t.latest.Some? ==> SchedulesLater(plans, t.latest.value, i.out)
    ensures SameUpTo(s.pushed, t.pushed, s.latest.value)
    ensures t.log == s.log || Advanced(lvl, plans, s, false, i.out, t)
  {
    hide ProcessesTag, ShutsDown, LaterThan, Coherent, RanBefore, AllRan, AgendaOf, Join, Without, WorkAt, GoodLog,
      Advanced, SameUpTo, SchedulesLater;
    LeastIsLater(timeout, s, tag);
    var rest := s.(agenda := Without(s.agenda, tag));
    var latest := s.latest.value;
    if s.shutdown.Some? && s.shutdown.value.Before(tag) {
      var stop := s.shutdown.value;
      NothingBefore(timeout, s, stop);
      NotYet(timeout, s, stop, rest);
      ShutLatest(lvl, plans, rest, stop, {}, i.out, t);
      ShutdownRoots(lvl, plans, s, rest, stop, {}, i.out, t);
      SameToItself(s.pushed, latest);
      SameUpToBoth(s.pushed, rest.pushed, t.pushed, latest, stop);
    } else if i.interrupt.Some? && i.interrupt.value.tag.Before(tag) {
      LaterJobsAdded(s.pushed, {MakeExecutable(plans, i.interrupt.value)}, latest);
    } else {
      var events := if i.interrupt.Some? then {MakeExecutable(plans, i.interrupt.value)} else {};
      NoEvents(rest);
      var next := Push(rest, events);
      TakingLeast(timeout, s, tag, next, events);
      LaterJobsAdded(s.pushed, events, latest);
      if tag in s.agenda.stops || s.shutdown == Some(tag) {
        ShutLatest(lvl, plans, next, tag, WorkAt(s.agenda, tag), i.out, t);
        ShutdownRoots(lvl, plans, s, next, tag, WorkAt(s.agenda, tag), i.out, t);
      } else {
        ProcessedLatest(lvl, plans, next, tag, WorkAt(s.agenda, tag), i.out, false, t);
        RootsAreExact(lvl, plans, s, next, tag, WorkAt(s.agenda, tag), i.out, false, t);
      }
      SameUpToBoth(s.pushed, next.pushed, t.pushed, latest, tag);
    }
  }

  lemma SameToItself(a: Agenda, tag: EventTag)
    ensures SameUpTo(a, a, tag)
  {}

  /**
   In a fair turn nothing is added to what was pushed up to the latest tag, and if a tag is processed, then exactly the
   closure of all that was pushed for it runs.
   */
  lemma TurnRunsItsRoots(lvl: map<ReactionId, nat>, plans: seq<Plan>, timeout: Option<EventTag>, s: State, i: Input,
      t: State)
    requires KnownInput(plans, i) && |plans| > SHUTDOWN
    requires Running(timeout, s) && Turn(lvl, plans, s, i, t) && Fair(plans, s, i, t)
    ensures SameUpTo(s.pushed, t.pushed, s.latest.value)
    ensures t.log == s.log || Advanced(lvl, plans, s, false, i.out, t)
  {
    hide ProcessesTag, LaterThan, Coherent, RanBefore, AllRan, AgendaOf, Join, Without, WorkAt, GoodLog, TakesTag,
      Advanced, SameUpTo, ShutsDown;
    var latest := s.latest.value;
    var ready := Push(s, Arrived(plans, i.flushed));
    ArrivedLater(plans, i.flushed, latest);
    PushKeepsRunning(timeout, s, Arrived(plans, i.flushed));
    LaterJobsAdded(s.pushed, Arrived(plans, i.flushed), latest);
    if ready.agenda.tags == {} {
      if i.received.Some? {
        LaterJobsAdded(ready.pushed, {MakeExecutable(plans, i.received.value)}, latest);
        SameUpToBoth(s.pushed, ready.pushed, t.pushed, latest, latest);
      } else {
        var stop := ready.shutdown.GetOr(i.now);
        NotYet(timeout, ready, stop, ready);
        ShutLatest(lvl, plans, ready, stop, {}, i.out, t);
        ShutdownRoots(lvl, plans, s, ready, stop, {}, i.out, t);
        SameUpToBoth(s.pushed, ready.pushed, t.pushed, latest, stop);
      }
    } else {
      var tag :| IsLeast(ready.agenda.tags, tag) && TakesTag(lvl, plans, ready, tag, i, t);
      TakenItsRoots(lvl, plans, timeout, ready, tag, i, t);
      SameUpToBoth(s.pushed, ready.pushed, t.pushed, latest, latest);
      AdvancedFrom(lvl, plans, s, ready, i.out, t);
    }
  }

  lemma AdvancedFrom(lvl: map<ReactionId, nat>, plans: seq<Plan>, s: State, ready: State, out: Behaviour, t: State)
    requires |plans| > SHUTDOWN && KnownBehaviour(plans, out) && ready.log == s.log
    ensures Advanced(lvl, plans, ready, false, out, t) == Advanced(lvl, plans, s, false, out, t)
  {}

  /** Each processed tag is explained by one of the behaviours of the reactions, `outs`. */
  ghost predicate Explained(lvl: map<ReactionId, nat>, plans: seq<Plan>, s: State, outs: seq<Behaviour>)
    requires |plans| > SHUTDOWN
  {
    && |outs| == |s.log|
    && forall n | 0 <= n < |s.log| ::
      KnownBehaviour(plans, outs[n]) && RanItsRoots(lvl, plans, s.pushed, s.log[n], n == 0, outs[n])
  }

  lemma StillExplained(lvl: map<ReactionId, nat>, plans: seq<Plan>, s: State, outs: seq<Behaviour>, i: Input, t: State)
    returns (next: seq<Behaviour>)
    requires KnownInput(plans, i) && |plans| > SHUTDOWN && Explained(lvl, plans, s, outs) && s.log != []
    requires GoodLog(s) && SameUpTo(s.pushed, t.pushed, s.latest.value)
    requires t.log == s.log || Advanced(lvl, plans, s, false, i.out, t)
    ensures Explained(lvl, plans, t, next) && next == if t.log == s.log then outs else outs + [i.out]
  {
    next := if t.log == s.log then outs else outs + [i.out];
    hide IsClosure, Distinct, InLevelOrder, KnownBehaviour, WorkAt;
    forall n | 0 <= n < |s.log|
      ensures t.log[n] == s.log[n]
          && RootsOf(plans, t.pushed, t.log[n], n == 0) == RootsOf(plans, s.pushed, s.log[n], n == 0)
    {
      assert t.log[n] == t.log[..|s.log|][n];
      assert n < |s.log| - 1 ==> s.log[n].tag.Before(s.log[|s.log| - 1].tag);
      assert s.log[n].tag.AtMost(s.latest.value);
    }
  }

  // ---------------------------------------------------------------------------------------------- runs

  /** The states between the turns of a run, from the one after startup on. */
  ghost predicate IsRun(lvl: map<ReactionId, nat>, plans: seq<Plan>, timeout: Option<nat>, startup: Behaviour,
                        states: seq<State>, inputs: seq<Input>)
    requires |plans| > SHUTDOWN
  {
    && |states| == |inputs| + 1
    && KnownBehaviour(plans, startup)
    && ProcessesTag(lvl, plans, Initial(timeout), ORIGIN, Due(plans[STARTUP]), startup, false, states[0])
    && forall k | 0 <= k < |inputs| ::
        KnownInput(plans, inputs[k]) && Turn(lvl, plans, states[k], inputs[k], states[k + 1])
  }

  ghost predicate IsFairRun(lvl: map<ReactionId, nat>, plans: seq<Plan>, timeout: Option<nat>, startup: Behaviour,
                            states: seq<State>, inputs: seq<Input>)
    requires |plans| > SHUTDOWN && IsRun(lvl, plans, timeout, startup, states, inputs)
  {
    && SchedulesLater(plans, ORIGIN, startup)
    && forall k | 0 <= k < |inputs| :: Fair(plans, states[k], inputs[k], states[k + 1])
  }

  lemma {:induction false} RunIsSafe(lvl: map<ReactionId, nat>, plans: seq<Plan>, timeout: Option<nat>,
                                     startup: Behaviour, states: seq<State>, inputs: seq<Input>, k: nat)
    requires |plans| > SHUTDOWN && IsRun(lvl, plans, timeout, startup, states, inputs)
    requires IsFairRun(lvl, plans, timeout, startup, states, inputs) && k < |states|
    ensures Running(Initial(timeout).shutdown, states[k]) || Ended(plans, Initial(timeout).shutdown, states[k])
  {
    hide ProcessesTag, Turn, Fair, Running, Ended;
    if k == 0 {
      StartupIsSafe(lvl, plans, timeout, startup, states[0]);
    } else {
      RunIsSafe(lvl, plans, timeout, startup, states, inputs, k - 1);
      assert Turn(lvl, plans, states[k - 1], inputs[k - 1], states[k]);
      EndedIsFinal(lvl, plans, Initial(timeout).shutdown, states[k - 1], inputs[k - 1], states[k]);
      TurnIsSafe(lvl, plans, Initial(timeout).shutdown, states[k - 1], inputs[k - 1], states[k]);
    }
  }

  lemma EndedIsFinal(lvl: map<ReactionId, nat>, plans: seq<Plan>, timeout: Option<EventTag>, s: State, i: Input,
      t: State)
    requires KnownInput(plans, i) && |plans| > SHUTDOWN && Turn(lvl, plans, s, i, t)
    ensures !Ended(plans, timeout, s)
  {}

  /** What the reactions did at each of the tags processed up to the `k`-th state: at startup, and in later turns. */
  ghost function Behaviours(startup: Behaviour, states: seq<State>, inputs: seq<Input>, k: nat): (outs: seq<Behaviour>)
    requires k < |states| == |inputs| + 1
    ensures outs != [] && outs[0] == startup
  {
    if k == 0 then [startup]
    else if states[k].log == states[k - 1].log then Behaviours(startup, states, inputs, k - 1)
    else Behaviours(startup, states, inputs, k - 1) + [inputs[k - 1].out]
  }

  lemma StartupExplained(lvl: map<ReactionId, nat>, plans: seq<Plan>, timeout: Option<nat>, out: Behaviour, t: State)
    requires KnownBehaviour(plans, out) && |plans| > SHUTDOWN && SchedulesLater(plans, ORIGIN, out)
    requires ProcessesTag(lvl, plans, Initial(timeout), ORIGIN, Due(plans[STARTUP]), out, false, t)
    ensures Explained(lvl, plans, t, [out])
  {
    hide ProcessesTag, IsClosure, Distinct, InLevelOrder, SchedulesLater;
    var s := Initial(timeout);
    var p := ProcessedItsRoots(lvl, plans, s, ORIGIN, Due(plans[STARTUP]), out, false, t);
    assert ORIGIN.AtMost(ORIGIN) && WorkAt(s.pushed, ORIGIN) == {};
    assert RootsOf(plans, t.pushed, p, true) == Due(plans[STARTUP]);
  }

  /**
   At every processed tag of every fair run, the startup and the shutdown included, exactly the closure of all that was
   ever pushed for it has run, each reaction once and in ascending order of levels.
   */
  lemma {:induction false} RunIsExplained(lvl: map<ReactionId, nat>, plans: seq<Plan>, timeout: Option<nat>,
                                          startup: Behaviour, states: seq<State>, inputs: seq<Input>, k: nat)
    requires |plans| > SHUTDOWN && IsRun(lvl, plans, timeout, startup, states, inputs)
    requires IsFairRun(lvl, plans, timeout, startup, states, inputs) && k < |states|
    ensures Explained(lvl, plans, states[k], Behaviours(startup, states, inputs, k))
  {
    hide ProcessesTag, Turn, Fair, Running, Ended, Explained, GoodLog;
    if k == 0 {
      StartupExplained(lvl, plans, timeout, startup, states[0]);
    } else {
      var s, t := states[k - 1], states[k];
      RunIsExplained(lvl, plans, timeout, startup, states, inputs, k - 1);
      RunIsSafe(lvl, plans, timeout, startup, states, inputs, k - 1);
      assert Turn(lvl, plans, s, inputs[k - 1], t);
      EndedIsFinal(lvl, plans, Initial(timeout).shutdown, s, inputs[k - 1], t);
      TurnRunsItsRoots(lvl, plans, Initial(timeout).shutdown, s, inputs[k - 1], t);
      RunningHasLog(Initial(timeout).shutdown, s);
      var next := StillExplained(lvl, plans, s, Behaviours(startup, states, inputs, k - 1), inputs[k - 1], t);
    }
  }

  lemma RunningHasLog(timeout: Option<EventTag>, s: State)
    requires Running(timeout, s)
    ensures s.log != [] && GoodLog(s) && s.latest.Some?
  {}

  lemma ExplainedInOrder(lvl: map<ReactionId, nat>, plans: seq<Plan>, s: State, outs: seq<Behaviour>)
    requires |plans| > SHUTDOWN && Explained(lvl, plans, s, outs)
    ensures forall n | 0 <= n < |s.log| :: Distinct(s.log[n].ran) && InLevelOrder(lvl, s.log[n].ran)
  {
    hide IsClosure, Distinct, InLevelOrder, RootsOf;
  }

  /**
   What safety means, at any point of any fair run: the processed tags strictly increase; what is pending is later
   than all of them; all that was pushed for a processed tag has run at it; nothing runs after the shutdown tag,
   which is the last tag and the only one marked as a shutdown, all shutdown reactions have run at it, and whatever
   was pushed up to it has run.
   */
  lemma RunSafety(lvl: map<ReactionId, nat>, plans: seq<Plan>, timeout: Option<nat>, startup: Behaviour,
                  states: seq<State>, inputs: seq<Input>, k: nat)
    requires |plans| > SHUTDOWN && IsRun(lvl, plans, timeout, startup, states, inputs)
    requires IsFairRun(lvl, plans, timeout, startup, states, inputs) && k < |states|
    ensures var s := states[k];
            && s.log != [] && Increasing(s.log) && s.latest == Some(s.log[|s.log| - 1].tag)
            && (forall j | j in s.pushed.work && j.tag.AtMost(s.latest.value) :: Ran(s.log, j))
            && (!s.terminated ==> forall u | u in s.agenda.tags :: s.latest.value.Before(u))
            && (!s.terminated ==> forall j | j in s.pushed.work :: j in s.agenda.work || Ran(s.log, j))
            && (s.terminated ==> s.shutdown == s.latest && forall p | p in s.log :: p.tag.AtMost(s.shutdown.value))
            && (forall n | 0 <= n < |s.log| :: s.log[n].isShutdown <==> s.terminated && n == |s.log| - 1)
            && (s.terminated ==> Due(plans[SHUTDOWN]) <= Elements(s.log[|s.log| - 1].ran))
            && forall n | 0 <= n < |s.log| :: Distinct(s.log[n].ran) && InLevelOrder(lvl, s.log[n].ran)
  {
    hide IsClosure, Distinct, InLevelOrder, Behaviours, ProcessesTag, Turn, Fair;
    RunIsSafe(lvl, plans, timeout, startup, states, inputs, k);
    RunIsExplained(lvl, plans, timeout, startup, states, inputs, k);
    ExplainedInOrder(lvl, plans, states[k], Behaviours(startup, states, inputs, k));
    hide Explained, IsRun, IsFairRun, Distinct, InLevelOrder;
    var s := states[k];
    if s.terminated {
      forall p | p in s.log
        ensures p.tag.AtMost(s.latest.value)
      {
        var n :| 0 <= n < |s.log| && s.log[n] == p;
      }
    } else {
      assert forall n | 0 <= n < |s.log| :: s.log[n] in s.log;
    }
  }

  // ---------------------------------------------------------------------------------------------- stops

  /**
   Earliest stop wins: the shutdown tag is the least of the timeout and of the stops requested before the shutdown, and
   the clock decides only if there is none. No stop ever requested is earlier.
   */
  lemma EarliestStop(lvl: map<ReactionId, nat>, plans: seq<Plan>, timeout: Option<EventTag>, s: State, i: Input,
      t: State)
    requires KnownInput(plans, i) && |plans| > SHUTDOWN
    requires Running(timeout, s) && Turn(lvl, plans, s, i, t) && Fair(plans, s, i, t) && t.terminated
    ensures var stops := Push(s, Arrived(plans, i.flushed)).pushed.stops +
        if timeout.Some? then {timeout.value} else {};
            t.latest.Some? && if stops == {} then t.latest.value == i.now else IsLeast(stops, t.latest.value)
    ensures forall u | u in t.pushed.stops :: t.latest.value.AtMost(u)
  {
    hide ProcessesTag, Coherent, RanBefore, AllRan, AgendaOf, Without, WorkAt, GoodLog;
    TurnIsSafe(lvl, plans, timeout, s, i, t);
    var ready := Push(s, Arrived(plans, i.flushed));
    ArrivedLater(plans, i.flushed, s.latest.value);
    PushKeepsRunning(timeout, s, Arrived(plans, i.flushed));
    StopsArePending(timeout, ready);
    if ready.agenda.tags == {} {
      assert i.received.None?;
      ShutLatest(lvl, plans, ready, ready.shutdown.GetOr(i.now), {}, i.out, t);
    } else {
      var tag :| IsLeast(ready.agenda.tags, tag) && TakesTag(lvl, plans, ready, tag, i, t);
      StopTaken(lvl, plans, timeout, ready, tag, i, t);
    }
  }

  lemma StopsArePending(timeout: Option<EventTag>, s: State)
    requires Running(timeout, s)
    ensures s.pushed.stops == s.agenda.stops <= s.agenda.tags
  {}

  lemma StopTaken(lvl: map<ReactionId, nat>, plans: seq<Plan>, timeout: Option<EventTag>,
                  s: State, tag: EventTag, i: Input, t: State)
    requires KnownInput(plans, i) && |plans| > SHUTDOWN && Running(timeout, s)
    requires IsLeast(s.agenda.tags, tag) && TakesTag(lvl, plans, s, tag, i, t) && t.terminated
    ensures t.latest.Some?
    ensures IsLeast(s.pushed.stops + (if timeout.Some? then {timeout.value} else {}), t.latest.value)
  {
    hide LaterThan, Coherent, RanBefore, AllRan, AgendaOf, Without, WorkAt, GoodLog, StoredBy, ScheduledBy;
    StopsArePending(timeout, s);
    if s.shutdown.Some? && s.shutdown.value.Before(tag) {
      ShutLatest(lvl, plans, s.(agenda := Without(s.agenda, tag)), s.shutdown.value, {}, i.out, t);
    } else {
      assert tag in s.agenda.stops || s.shutdown == Some(tag);
      var rest := s.(agenda := Without(s.agenda, tag));
      var next := if i.interrupt.Some? then Push(rest, {MakeExecutable(plans, i.interrupt.value)}) else rest;
      ShutLatest(lvl, plans, next, tag, WorkAt(s.agenda, tag), i.out, t);
    }
  }

  // ---------------------------------------------------------------------------------------------- sharpness

  /**
   Every reaction that runs at a tag has a reason in what was ever pushed for it, and what that sets off; at the
   shutdown tag the shutdown reactions are added. This holds in any environment.
   */
  lemma TagRunsItsJobs(lvl: map<ReactionId, nat>, plans: seq<Plan>, timeout: Option<EventTag>,
                       s: State, tag: EventTag, i: Input, t: State)
    requires KnownInput(plans, i) && |plans| > SHUTDOWN && Running(timeout, s)
    requires IsLeast(s.agenda.tags, tag) && TakesTag(lvl, plans, s, tag, i, t) && t.latest == Some(tag)
    ensures |t.log| == |s.log| + 1 && t.log[|s.log|].tag == tag
    ensures IsClosure(plans, i.out, WorkAt(s.pushed, tag) + (if t.terminated then Due(plans[SHUTDOWN]) else {}),
                      Elements(t.log[|s.log|].ran))
  {
    hide LaterThan, AgendaOf, Join, Without, StoredBy, ScheduledBy, GoodLog, Coherent, AllRan, ProcessesTag, ShutsDown;
    LeastIsLater(timeout, s, tag);
    NothingBefore(timeout, s, tag);
    var roots, rest := WorkAt(s.agenda, tag), s.(agenda := Without(s.agenda, tag));
    if s.shutdown.Some? && s.shutdown.value.Before(tag) {
      ShutLatest(lvl, plans, rest, s.shutdown.value, {}, i.out, t);
    } else if !(i.interrupt.Some? && i.interrupt.value.tag.Before(tag)) {
      var next := if i.interrupt.Some? then Push(rest, {MakeExecutable(plans, i.interrupt.value)}) else rest;
      if tag in s.agenda.stops || s.shutdown == Some(tag) {
        ShutdownRan(lvl, plans, next, tag, roots, i.out, t);
      } else {
        RanClosure(lvl, plans, next, tag, roots, i.out, false, t);
        assert roots + {} == roots;
      }
    }
  }

  lemma RanClosure(lvl: map<ReactionId, nat>, plans: seq<Plan>, s: State, tag: EventTag, roots: set<ReactionId>,
                   out: Behaviour, isShutdown: bool, t: State)
    requires KnownBehaviour(plans, out) && ProcessesTag(lvl, plans, s, tag, roots, out, isShutdown, t)
    ensures |t.log| == |s.log| + 1 && t.log[|s.log|].tag == tag && t.terminated == s.terminated
    ensures IsClosure(plans, out, roots, Elements(t.log[|s.log|].ran))
  {
    assert IsClosure(plans, out, {}, Elements([]));
    hide IsClosure;
  }

  lemma ShutdownRan(lvl: map<ReactionId, nat>, plans: seq<Plan>, s: State, tag: EventTag, roots: set<ReactionId>,
                    out: Behaviour, t: State)
    requires KnownBehaviour(plans, out) && |plans| > SHUTDOWN && ShutsDown(lvl, plans, s, tag, roots, out, t)
    ensures |t.log| == |s.log| + 1 && t.log[|s.log|].tag == tag && t.terminated
    ensures IsClosure(plans, out, roots + Due(plans[SHUTDOWN]), Elements(t.log[|s.log|].ran))
  {
    hide ProcessesTag, IsClosure;
    var before := s.(shutdown := Some(tag));
    RanClosure(lvl, plans, before, tag, roots + Due(plans[SHUTDOWN]), out, true, t.(terminated := s.terminated));
  }

  lemma ProcessedNext(lvl: map<ReactionId, nat>, plans: seq<Plan>, s: State, tag: EventTag, roots: set<ReactionId>,
                      out: Behaviour, isShutdown: bool, t: State)
    requires KnownBehaviour(plans, out) && ProcessesTag(lvl, plans, s, tag, roots, out, isShutdown, t)
    ensures |t.log| == |s.log| + 1 && t.log[..|s.log|] == s.log && t.log[|s.log|].tag == tag
  {
    hide IsClosure, Distinct, InLevelOrder, StoredBy, ScheduledBy;
  }

  lemma ShutNext(lvl: map<ReactionId, nat>, plans: seq<Plan>, s: State, tag: EventTag, roots: set<ReactionId>,
                 out: Behaviour, t: State)
    requires KnownBehaviour(plans, out) && |plans| > SHUTDOWN && ShutsDown(lvl, plans, s, tag, roots, out, t)
    ensures |t.log| == |s.log| + 1 && t.log[..|s.log|] == s.log && t.log[|s.log|].tag == tag
  {
    hide ProcessesTag;
    ProcessedNext(lvl, plans, s.(shutdown := Some(tag)), tag, roots + Due(plans[SHUTDOWN]), out, true,
                  t.(terminated := s.terminated));
  }

  /** One more tag keeps the order exactly if it is later than the latest one. */
  lemma NextInLog(s: State, log: seq<Processed>)
    requires GoodLog(s) && s.latest.Some? && |log| == |s.log| + 1 && log[..|s.log|] == s.log
    ensures Increasing(log) <==> s.latest.value.Before(log[|s.log|].tag)
  {
    var n := |s.log|;
    assert forall i | 0 <= i < n :: log[i] == s.log[i];
    assert s.log[n - 1].tag == s.latest.value;
  }

  lemma StopsLater(timeout: Option<EventTag>, s: State)
    requires Running(timeout, s)
    ensures GoodLog(s) && s.latest.Some? && s.shutdown == timeout
    ensures timeout.Some? ==> s.latest.value.Before(timeout.value)
    ensures forall u | u in s.agenda.tags :: s.latest.value.Before(u)
  {}

  /**
   What is promised of arrivals is needed: a turn that processes a tag keeps the order of the processed tags exactly if
   all events that had arrived are later than the latest one.
   */
  lemma OrderedIffArrivedLater(lvl: map<ReactionId, nat>, plans: seq<Plan>, timeout: Option<EventTag>, s: State,
                               i: Input, t: State)
    requires KnownInput(plans, i) && |plans| > SHUTDOWN && After(s.latest, i.now)
    requires Running(timeout, s) && Turn(lvl, plans, s, i, t) && t.log != s.log
    ensures Increasing(t.log) <==> forall p | p in i.flushed :: After(s.latest, p.tag)
  {
    StopsLater(timeout, s);
    var latest := s.latest.value;
    var ready := Push(s, Arrived(plans, i.flushed));
    forall u
      ensures u in ready.agenda.tags <==> u in s.agenda.tags || exists p | p in i.flushed :: p.tag == u
    {
      ArrivedTags(plans, i.flushed, u);
    }
    hide ProcessesTag, ShutsDown, AgendaOf, Arrived, Without, WorkAt, Running, GoodLog, Increasing, Join,
        KnownBehaviour;
    if ready.agenda.tags == {} {
      var stop := ready.shutdown.GetOr(i.now);
      assert forall p | p in i.flushed :: p.tag in ready.agenda.tags;
      ShutNext(lvl, plans, ready, stop, {}, i.out, t);
    } else {
      var tag :| IsLeast(ready.agenda.tags, tag) && TakesTag(lvl, plans, ready, tag, i, t);
      TakenNext(lvl, plans, ready, tag, i, t);
      assert latest.Before(tag) <==> forall u | u in ready.agenda.tags :: latest.Before(u);
    }
    NextInLog(s, t.log);
  }

  lemma ArrivedTags(plans: seq<Plan>, events: seq<PhysicalEvent>, u: EventTag)
    requires forall p | p in events :: KnownEvent(plans, p)
    ensures u in AgendaOf(Arrived(plans, events)).tags <==> exists p | p in events :: p.tag == u
  {
    if p :| p in events && p.tag == u {
      assert MakeExecutable(plans, p) in Arrived(plans, events);
    }
  }

  lemma TakenNext(lvl: map<ReactionId, nat>, plans: seq<Plan>, s: State, tag: EventTag, i: Input, t: State)
    requires KnownInput(plans, i) && |plans| > SHUTDOWN && TakesTag(lvl, plans, s, tag, i, t) && t.log != s.log
    ensures |t.log| == |s.log| + 1 && t.log[..|s.log|] == s.log
    ensures t.log[|s.log|].tag == if s.shutdown.Some? && s.shutdown.value.Before(tag) then s.shutdown.value else tag
  {
    hide ProcessesTag, ShutsDown, AgendaOf, Join, Without, WorkAt;
    var rest, roots := s.(agenda := Without(s.agenda, tag)), WorkAt(s.agenda, tag);
    if s.shutdown.Some? && s.shutdown.value.Before(tag) {
      ShutNext(lvl, plans, rest, s.shutdown.value, {}, i.out, t);
    } else {
      var next := if i.interrupt.Some? then Push(rest, {MakeExecutable(plans, i.interrupt.value)}) else rest;
      if tag in s.agenda.stops || s.shutdown == Some(tag) {
        ShutNext(lvl, plans, next, tag, roots, i.out, t);
      } else {
        ProcessedNext(lvl, plans, next, tag, roots, i.out, false, t);
      }
    }
  }

  lemma LeastIsLater(timeout: Option<EventTag>, s: State, tag: EventTag)
    requires Running(timeout, s) && IsLeast(s.agenda.tags, tag)
    ensures s.latest.Some? && s.latest.value.Before(tag) && s.latest != Some(tag)
  {}

  /**
   An event that interrupts the sleep for the very tag that is waited for goes back to the queue while that tag is
   processed. Then, and only then, something is still pending for a tag that is already processed.
   */
  lemma InterruptForSameTag(lvl: map<ReactionId, nat>, plans: seq<Plan>, timeout: Option<EventTag>,
                            s: State, tag: EventTag, i: Input, t: State)
    requires KnownInput(plans, i) && |plans| > SHUTDOWN && Running(timeout, s)
    requires IsLeast(s.agenda.tags, tag) && TakesTag(lvl, plans, s, tag, i, t)
    requires !t.terminated && t.latest == Some(tag) && SchedulesLater(plans, tag, i.out)
    requires i.interrupt.Some? && After(s.latest, i.interrupt.value.tag)
    ensures (forall u | u in t.agenda.tags :: tag.Before(u)) <==> i.interrupt.value.tag != tag
  {
    LeastIsLater(timeout, s, tag);
    if i.interrupt.value.tag == tag {
      InterruptStays(lvl, plans, s, tag, i, t);
    } else {
      TagTaken(lvl, plans, timeout, s, tag, i, t);
      PendingIsLater(timeout, t);
    }
  }

  lemma PendingIsLater(timeout: Option<EventTag>, t: State)
    requires Running(timeout, t)
    ensures forall u | u in t.agenda.tags :: t.latest.value.Before(u)
  {}

  lemma InterruptStays(lvl: map<ReactionId, nat>, plans: seq<Plan>, s: State, tag: EventTag, i: Input, t: State)
    requires KnownInput(plans, i) && |plans| > SHUTDOWN && IsLeast(s.agenda.tags, tag)
    requires TakesTag(lvl, plans, s, tag, i, t) && !t.terminated && t.latest == Some(tag) && s.latest != Some(tag)
    requires i.interrupt.Some? && i.interrupt.value.tag == tag
    ensures tag in t.agenda.tags
  {
    hide Without, WorkAt, StoredBy, ScheduledBy, IsClosure;
    var evt := MakeExecutable(plans, i.interrupt.value);
    var next := Push(s.(agenda := Without(s.agenda, tag)), {evt});
    assert tag in AgendaOf({evt}).tags by { assert evt in {evt}; }
    assert tag in next.agenda.tags;
  }

  /**
    The interruption for the same tag can happen: an event that two threads send for one tag, or one thread sends
    twice.
  */
  lemma InterruptForSameTagHappens(tag: EventTag) returns (s: State, i: Input, t: State)
    requires ORIGIN.Before(tag)
    ensures KnownInput([[], [], []], i) && i.interrupt == Some(PhysicalEvent(tag, Some(FIRST_REGULAR), false))
    ensures Running(None, s) && IsLeast(s.agenda.tags, tag)
    ensures TakesTag(map[], [[], [], []], s, tag, i, t) && t.latest == Some(tag) && tag in t.agenda.tags
  {
    var plans: seq<Plan> := [[], [], []];
    var out: Behaviour := _ => [];
    var p := PhysicalEvent(tag, Some(FIRST_REGULAR), false);
    var evt := MakeExecutable(plans, p);
    var start := Initial(None).(latest := Some(ORIGIN), log := [Processed(ORIGIN, [], false)]);
    assert start.agenda == LaterThan(start.pushed, ORIGIN);
    assert AllLater({evt}, ORIGIN);
    PushKeepsRunning(None, start, {evt});
    s := Push(start, {evt});
    i := Input([], Some(p), None, ORIGIN, out);
    assert AgendaOf({evt}) == Agenda({tag}, {}, {}) by { SingletonAgenda(evt); assert Slots([]) == {}; }
    var rest := s.(agenda := Without(s.agenda, tag));
    var next := Push(rest, {evt});
    t := next.(latest := Some(tag), log := s.log + [Processed(tag, [], false)]);
    assert WorkAt(s.agenda, tag) == {};
    assert ProcessesTag(map[], plans, next, tag, {}, out, false, t);
  }
}
