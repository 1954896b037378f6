/** Tags, events and the event queue of `src/scheduler/events.rs`. */
module Events {
  import opened Wrappers
  import opened VecMaps
  import opened Plans

  /** Microsteps are 32-bit numbers. */
  type MicroStep = m: nat | m < 0x1_0000_0000

  const LAST_MICROSTEP: MicroStep := 0xFFFF_FFFF

  /** Durations are numbers of nanoseconds. */
  datatype EventTag = EventTag(offset: nat, microstep: MicroStep) {
    predicate Before(other: EventTag) {
      offset < other.offset || (offset == other.offset && microstep < other.microstep)
    }

    predicate AtMost(other: EventTag) {
      this == other || Before(other)
    }

    /** The addition wraps around where overflow checks are off. */
    function NextMicrostep(): EventTag {
      EventTag(offset, (microstep + 1) % 0x1_0000_0000)
    }

    function Successor(delay: nat): EventTag {
      if delay == 0 then NextMicrostep() else EventTag(offset + delay, 0)
    }

    /** The order of tags in the integers, for maps whose keys are tags. */
    function Rank(): int {
      offset * 0x1_0000_0000 + microstep
    }
  }

  const ORIGIN := EventTag(0, 0)

  /** A successor is later, except for the one without delay of a tag in the last microstep. */
  lemma SuccessorIsLater(t: EventTag, delay: nat)
    ensures t.Before(t.Successor(delay)) <==> delay > 0 || t.microstep != LAST_MICROSTEP
  {
    if delay == 0 && t.microstep == LAST_MICROSTEP {
      assert t.Successor(delay) == EventTag(t.offset, 0);
    }
  }

  /** `u` is the first tag after `t` whose time is at least `delay` later. */
  ghost predicate IsNext(t: EventTag, delay: nat, u: EventTag) {
    && t.Before(u) && t.offset + delay <= u.offset
    && forall v: EventTag | t.Before(v) && t.offset + delay <= v.offset :: u.AtMost(v)
  }

  /** A successor is the first tag after the delay, at microstep zero if there is a delay. */
  lemma SuccessorIsNext(t: EventTag, delay: nat)
    ensures IsNext(t, delay, t.Successor(delay)) <==> delay > 0 || t.microstep != LAST_MICROSTEP
  {
    SuccessorIsLater(t, delay);
  }

  lemma NextIsUnique(t: EventTag, delay: nat, u: EventTag, v: EventTag)
    requires IsNext(t, delay, u) && IsNext(t, delay, v)
    ensures u == v
  {}

  lemma RankKeepsOrder(a: EventTag, b: EventTag)
    ensures a.Rank() < b.Rank() <==> a.Before(b)
    ensures a.Rank() == b.Rank() <==> a == b
  {}

  datatype Event = Event(tag: EventTag, reactions: ReactionPlan, terminate: bool)

  // ---------------------------------------------------------------------------------------------- what events mean

  /** A reaction that must run at a tag. */
  datatype Job = Job(tag: EventTag, reaction: ReactionId)

  /** The meaning of a collection of events, whatever their number and order. */
  datatype Agenda = Agenda(tags: set<EventTag>, work: set<Job>, stops: set<EventTag>)

  ghost function Due(plan: Plan): set<ReactionId> {
    set s | s in Slots(plan) :: s.reaction
  }

  ghost function DueOf(plan: ReactionPlan): set<ReactionId> {
    Due(Contents(plan))
  }

  ghost function Members(events: seq<Event>): set<Event> {
    set e | e in events
  }

  ghost function AgendaOf(events: set<Event>): Agenda {
    Agenda(
      set e | e in events :: e.tag,
      set e, r | e in events && r in DueOf(e.reactions) :: Job(e.tag, r),
      set e | e in events && e.terminate :: e.tag)
  }

  ghost function Join(a: Agenda, b: Agenda): Agenda {
    Agenda(a.tags + b.tags, a.work + b.work, a.stops + b.stops)
  }

  ghost function Without(a: Agenda, tag: EventTag): Agenda {
    Agenda(a.tags - {tag}, (set j | j in a.work && j.tag != tag), a.stops - {tag})
  }

  ghost function WorkAt(a: Agenda, tag: EventTag): set<ReactionId> {
    set j | j in a.work && j.tag == tag :: j.reaction
  }

  /** Every reaction of the plan is at its own level. */
  ghost predicate Leveled(lvl: map<ReactionId, nat>, plan: Plan) {
    forall s | s in Slots(plan) :: s.reaction in lvl && s.level == lvl[s.reaction]
  }

  ghost predicate ProperPlan(lvl: map<ReactionId, nat>, plan: ReactionPlan) {
    Usable(plan) && Leveled(lvl, Contents(plan))
  }

  lemma JoinedAgenda(a: set<Event>, b: set<Event>)
    ensures AgendaOf(a + b) == Join(AgendaOf(a), AgendaOf(b))
  {}

  lemma MergedDue(p: Plan, q: Plan, r: Plan)
    requires Slots(r) == Slots(p) + Slots(q)
    ensures Due(r) == Due(p) + Due(q)
  {}

  lemma JoinIsAssociative(a: Agenda, b: Agenda, c: Agenda)
    ensures Join(Join(a, b), c) == Join(a, Join(b, c))
  {}

  ghost function JobsAt(tag: EventTag, due: set<ReactionId>): set<Job> {
    set r | r in due :: Job(tag, r)
  }

  lemma SingletonAgenda(e: Event)
    ensures AgendaOf({e}) == Agenda({e.tag}, JobsAt(e.tag, DueOf(e.reactions)), if e.terminate then {e.tag} else {})
  {}

  /** An event that absorbs another of the same tag means what the two mean together. */
  lemma AbsorbedAgenda(rest: set<Event>, a: Event, b: Event, c: Event)
    requires a.tag == b.tag == c.tag
    requires SlotsOf(c.reactions) == SlotsOf(a.reactions) + SlotsOf(b.reactions)
    requires c.terminate <==> a.terminate || b.terminate
    ensures AgendaOf(rest + {c}) == Join(AgendaOf(rest + {a}), AgendaOf({b}))
  {
    MergedDue(Contents(a.reactions), Contents(b.reactions), Contents(c.reactions));
    assert JobsAt(c.tag, DueOf(c.reactions)) == JobsAt(a.tag, DueOf(a.reactions)) + JobsAt(b.tag, DueOf(b.reactions));
    SingletonAgenda(a);
    SingletonAgenda(b);
    SingletonAgenda(c);
    assert AgendaOf({c}) == Join(AgendaOf({a}), AgendaOf({b}));
    JoinedAgenda(rest, {c});
    JoinedAgenda(rest, {a});
    JoinIsAssociative(AgendaOf(rest), AgendaOf({a}), AgendaOf({b}));
  }

  // ---------------------------------------------------------------------------------------------- the queue

  ghost predicate Sorted(events: seq<Event>) {
    forall i, j | 0 <= i < j < |events| :: events[i].tag.Before(events[j].tag)
  }

  /** A queue of pending events. `lvl` gives the levels of the program whose events it holds. */
  class EventQueue {
    ghost const lvl: map<ReactionId, nat>
    var valueList: seq<Event>

    ghost predicate Valid()
      reads this
    {
      Sorted(valueList) && forall e | e in valueList :: ProperPlan(lvl, e.reactions)
    }

    ghost function Pending(): Agenda
      reads this
    {
      AgendaOf(Members(valueList))
    }

    constructor (ghost lvl: map<ReactionId, nat>)
      ensures Valid() && valueList == [] && this.lvl == lvl
      ensures Pending() == Agenda({}, {}, {})
    {
      this.lvl := lvl;
      valueList := [];
    }

    /** `Event::absorb`. */
    static method Absorb(evt: Event, other: Event, ghost lvl: map<ReactionId, nat>) returns (r: Event)
      requires evt.tag == other.tag && ProperPlan(lvl, evt.reactions) && ProperPlan(lvl, other.reactions)
      ensures r.tag == evt.tag && ProperPlan(lvl, r.reactions)
      ensures SlotsOf(r.reactions) == SlotsOf(evt.reactions) + SlotsOf(other.reactions)
      ensures r.terminate <==> evt.terminate || other.terminate
    {
      var reactions := MergeCows(evt.reactions, other.reactions);
      r := Event(evt.tag, reactions, evt.terminate || other.terminate);
    }

    /** The loop is the standard library's `binary_search_by_key`. */
    method FindTag(tag: EventTag) returns (p: Position)
      requires Valid()
      ensures p.Hit? ==> p.index < |valueList| && valueList[p.index].tag == tag
      ensures p.Gap? ==> && p.index <= |valueList|
                         && (forall i | 0 <= i < p.index :: valueList[i].tag.Before(tag))
                         && (forall i | p.index <= i < |valueList| :: tag.Before(valueList[i].tag))
    {
      var left, right := 0, |valueList|;
      while left < right
        invariant 0 <= left <= right <= |valueList|
        invariant left > 0 ==> valueList[left - 1].tag.Before(tag)
        invariant right < |valueList| ==> tag.Before(valueList[right].tag)
      {
        var mid := (left + right) / 2;
        if valueList[mid].tag == tag {
          return Hit(mid);
        } else if valueList[mid].tag.Before(tag) {
          left := mid + 1;
        } else {
          right := mid;
        }
      }
      GapInOrder(valueList, left, tag);
      return Gap(left);
    }

    /** Adds an event to the agenda, wherever it lands in the list. */
    method Push(evt: Event)
      requires Valid() && ProperPlan(lvl, evt.reactions)
      modifies this`valueList
      ensures Valid() && Pending() == Join(old(Pending()), AgendaOf({evt}))
    {
      var p := FindTag(evt.tag);
      match p {
        case Hit(i) =>
          var merged := Absorb(valueList[i], evt, lvl);
          ReplacedMembers(valueList, i, merged);
          AbsorbedAgenda(Members(valueList) - {valueList[i]}, valueList[i], evt, merged);
          valueList := valueList[i := merged];
        case Gap(i) =>
          InsertedMembers(valueList, i, evt);
          JoinedAgenda(Members(valueList), {evt});
          valueList := valueList[..i] + [evt] + valueList[i..];
      }
    }

    /** Removes the least tag with everything that is due at it. */
    method TakeEarliest() returns (r: Option<Event>)
      requires Valid()
      modifies this`valueList
      ensures Valid()
      ensures r.None? <==> old(Pending()).tags == {}
      ensures r.None? ==> Pending() == old(Pending())
      ensures r.Some? ==> IsEarliest(old(Pending()), r.value) && Pending() == Without(old(Pending()), r.value.tag)
      ensures r.Some? ==> ProperPlan(lvl, r.value.reactions)
    {
      if |valueList| == 0 {
        r := None;
      } else {
        r := Some(valueList[0]);
        EarliestFirst(valueList);
        valueList := valueList[1..];
      }
    }
  }

  /** The event has the least tag of the agenda and says all that the agenda says about it. */
  ghost predicate IsEarliest(a: Agenda, evt: Event) {
    && evt.tag in a.tags
    && (forall t | t in a.tags :: evt.tag.AtMost(t))
    && DueOf(evt.reactions) == WorkAt(a, evt.tag)
    && (evt.terminate <==> evt.tag in a.stops)
  }

  lemma GapInOrder(events: seq<Event>, i: nat, tag: EventTag)
    requires Sorted(events) && i <= |events|
    requires i > 0 ==> events[i - 1].tag.Before(tag)
    requires i < |events| ==> tag.Before(events[i].tag)
    ensures forall j | 0 <= j < i :: events[j].tag.Before(tag)
    ensures forall j | i <= j < |events| :: tag.Before(events[j].tag)
  {
    forall j | 0 <= j < i
      ensures events[j].tag.Before(tag)
    {
      assert j < i - 1 ==> events[j].tag.Before(events[i - 1].tag);
    }
    forall j | i <= j < |events|
      ensures tag.Before(events[j].tag)
    {
      assert i < j ==> events[i].tag.Before(events[j].tag);
    }
  }

  lemma InsertedMembers(events: seq<Event>, i: nat, evt: Event)
    requires Sorted(events) && i <= |events|
    requires forall j | 0 <= j < i :: events[j].tag.Before(evt.tag)
    requires forall j | i <= j < |events| :: evt.tag.Before(events[j].tag)
    ensures Sorted(events[..i] + [evt] + events[i..])
    ensures Members(events[..i] + [evt] + events[i..]) == Members(events) + {evt}
  {
    assert events == events[..i] + events[i..];
  }

  lemma ReplacedMembers(events: seq<Event>, i: nat, evt: Event)
    requires Sorted(events) && i < |events| && evt.tag == events[i].tag
    ensures Sorted(events[i := evt])
    ensures Members(events[i := evt]) == Members(events) - {events[i]} + {evt}
    ensures Members(events) == Members(events) - {events[i]} + {events[i]}
  {
    var w := events[i := evt];
    assert forall j | 0 <= j < |events| :: w[j].tag == events[j].tag;
    forall e
      ensures e in w <==> (e in events && e != events[i]) || e == evt
    {
      if e in w {
        var j :| 0 <= j < |w| && w[j] == e;
        assert j != i ==> events[j] == e;
      }
      if e in events && e != events[i] {
        var j :| 0 <= j < |events| && events[j] == e;
        assert w[j] == e;
      }
      assert w[i] == evt;
    }
  }

  lemma SplitEarliest(first: Event, rest: Agenda)
    requires forall j | j in rest.work :: first.tag.Before(j.tag)
    requires forall t | t in rest.tags :: first.tag.Before(t)
    requires forall t | t in rest.stops :: first.tag.Before(t)
    ensures IsEarliest(Join(AgendaOf({first}), rest), first)
    ensures rest == Without(Join(AgendaOf({first}), rest), first.tag)
  {
    SingletonAgenda(first);
    var a := Join(AgendaOf({first}), rest);
    forall r
      ensures r in DueOf(first.reactions) <==> r in WorkAt(a, first.tag)
    {
      assert r in DueOf(first.reactions) ==> Job(first.tag, r) in a.work;
    }
  }

  lemma EarliestFirst(events: seq<Event>)
    requires Sorted(events) && events != []
    ensures IsEarliest(AgendaOf(Members(events)), events[0])
    ensures AgendaOf(Members(events[1..])) == Without(AgendaOf(Members(events)), events[0].tag)
    ensures Sorted(events[1..]) && forall e | e in events[1..] :: e in events
  {
    var rest := events[1..];
    assert events == [events[0]] + rest;
    assert forall e | e in rest :: events[0].tag.Before(e.tag) by {
      assert forall i | 0 <= i < |rest| :: rest[i] == events[i + 1];
    }
    assert Members(events) == {events[0]} + Members(rest);
    JoinedAgenda({events[0]}, Members(rest));
    SplitEarliest(events[0], AgendaOf(Members(rest)));
  }
}
