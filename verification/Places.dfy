/** The places in reactors that reactions write to: the value of a port, and the value of an action for a tag. */
module Places {
  import opened Wrappers
  import opened Plans
  import opened Graphs
  import opened Events
  import opened Context
  import opened Wave

  datatype Place = OfAction(key: ActionKey) | OfPort(port: TriggerId)

  /** What is written, `None` standing for an action without a value. */
  datatype Write = Write(place: Place, value: Option<Value>)

  function WriteOf(tag: EventTag, c: Command): Option<Write> {
    match c
    case SetPort(port, value) => Some(Write(OfPort(port), Some(value)))
    case ScheduleLogical(action, minDelay, value, offset) =>
      Some(Write(OfAction(ActionKey(action, tag.Successor(minDelay + offset.ToDuration()))), value))
    case SchedulePhysical(action, _, value, offset, clock) =>
      Some(Write(OfAction(ActionKey(action, PhysicalTag(offset, clock))), value))
    case _ => None
  }

  /** What a place holds, if anything. */
  function At(values: ReactorValues, place: Place): Option<Option<Value>> {
    match place
    case OfAction(k) => if k in values.actions then Some(values.actions[k]) else None
    case OfPort(p) => if p in values.ports then Some(Some(values.ports[p])) else None
  }

  ghost predicate SameAt(v: ReactorValues, w: ReactorValues, place: Place) {
    At(v, place) == At(w, place)
  }

  ghost predicate Writes(tag: EventTag, cmds: seq<Command>, place: Place) {
    exists c :: c in cmds && WriteOf(tag, c).Some? && WriteOf(tag, c).value.place == place
  }

  /** A command changes the place it writes to, and no other. */
  lemma StoredAt(values: ReactorValues, tag: EventTag, c: Command, place: Place)
    ensures At(Stored(values, tag, c), place) ==
            if WriteOf(tag, c).Some? && WriteOf(tag, c).value.place == place then Some(WriteOf(tag, c).value.value)
            else At(values, place)
  {}

  lemma {:induction false} StoredAllSame(v: ReactorValues, w: ReactorValues, tag: EventTag, cmds: seq<Command>,
      place: Place)
    requires SameAt(v, w, place)
    ensures SameAt(StoredAll(v, tag, cmds), StoredAll(w, tag, cmds), place)
    decreases cmds
  {
    if cmds != [] {
      StoredAt(v, tag, cmds[0], place);
      StoredAt(w, tag, cmds[0], place);
      StoredAllSame(Stored(v, tag, cmds[0]), Stored(w, tag, cmds[0]), tag, cmds[1..], place);
    }
  }

  lemma {:induction false} StoredBySame(v: ReactorValues, w: ReactorValues, tag: EventTag, out: Behaviour,
                                        ran: seq<ReactionId>, place: Place)
    requires SameAt(v, w, place)
    ensures SameAt(StoredBy(v, tag, out, ran), StoredBy(w, tag, out, ran), place)
    decreases ran
  {
    if ran != [] {
      StoredAllSame(v, w, tag, out(ran[0]), place);
      StoredBySame(StoredAll(v, tag, out(ran[0])), StoredAll(w, tag, out(ran[0])), tag, out, ran[1..], place);
    }
  }

  lemma {:induction false} StoredAllElsewhere(v: ReactorValues, tag: EventTag, cmds: seq<Command>, place: Place)
    requires !Writes(tag, cmds, place)
    ensures SameAt(v, StoredAll(v, tag, cmds), place)
    decreases cmds
  {
    if cmds != [] {
      assert cmds[0] in cmds && forall c | c in cmds[1..] :: c in cmds;
      StoredAt(v, tag, cmds[0], place);
      StoredAllElsewhere(Stored(v, tag, cmds[0]), tag, cmds[1..], place);
    }
  }

  lemma {:induction false} StoredByElsewhere(v: ReactorValues, tag: EventTag, out: Behaviour, ran: seq<ReactionId>,
                                             place: Place)
    requires forall r | r in ran :: !Writes(tag, out(r), place)
    ensures SameAt(v, StoredBy(v, tag, out, ran), place)
    decreases ran
  {
    if ran != [] {
      StoredAllElsewhere(v, tag, out(ran[0]), place);
      StoredByElsewhere(StoredAll(v, tag, out(ran[0])), tag, out, ran[1..], place);
    }
  }

  // ------------------------------------------------------------------------------------------ the order within a batch

  /** No two reactions of the batch write to the same place. */
  ghost predicate WriteApart(tag: EventTag, out: Behaviour, batch: set<ReactionId>) {
    forall r, s, place | r in batch && s in batch && Writes(tag, out(r), place) && Writes(tag, out(s), place) :: r == s
  }

  /** A place that only `r` writes to holds what `r` writes there. */
  lemma {:induction false} OnlyWriter(v: ReactorValues, tag: EventTag, out: Behaviour, ran: seq<ReactionId>,
                                      r: ReactionId, place: Place)
    requires Distinct(ran) && r in ran && forall s | s in ran && s != r :: !Writes(tag, out(s), place)
    ensures SameAt(StoredBy(v, tag, out, ran), StoredAll(v, tag, out(r)), place)
    decreases ran
  {
    var head, rest := ran[0], ran[1..];
    var w := StoredAll(v, tag, out(head));
    assert forall i | 0 <= i < |rest| :: rest[i] == ran[i + 1] && rest[i] != head;
    if head == r {
      StoredByElsewhere(w, tag, out, rest, place);
    } else {
      StoredAllElsewhere(v, tag, out(head), place);
      OnlyWriter(w, tag, out, rest, r, place);
      StoredAllSame(w, v, tag, out(r), place);
    }
  }

  /**
   Where no two reactions of a batch write to the same place, any order in which the batch may run leaves the values
   that the sequential loop leaves, and so does any way to split it.
   */
  lemma OrderIsIrrelevant(v: ReactorValues, tag: EventTag, out: Behaviour, batch: Level, ran: seq<ReactionId>)
    requires Strict(batch) && multiset(ran) == multiset(batch) && WriteApart(tag, out, Elements(batch))
    ensures StoredBy(v, tag, out, ran) == StoredBy(v, tag, out, batch)
  {
    SameElements(ran, batch);
    PermutationIsDistinct(ran, batch);
    var x, y := StoredBy(v, tag, out, ran), StoredBy(v, tag, out, batch);
    forall place
      ensures At(x, place) == At(y, place)
    {
      assert forall r :: r in ran <==> r in Elements(batch);
      if r :| r in batch && Writes(tag, out(r), place) {
        assert r in Elements(batch);
        OnlyWriter(v, tag, out, ran, r, place);
        OnlyWriter(v, tag, out, batch, r, place);
      } else {
        StoredByElsewhere(v, tag, out, ran, place);
        StoredByElsewhere(v, tag, out, batch, place);
      }
    }
    SameEverywhere(x, y);
  }

  lemma SameEverywhere(x: ReactorValues, y: ReactorValues)
    requires forall place :: At(x, place) == At(y, place)
    ensures x == y
  {
    forall k: ActionKey
      ensures (k in x.actions <==> k in y.actions) && (k in x.actions ==> x.actions[k] == y.actions[k])
    {
      assert At(x, OfAction(k)) == At(y, OfAction(k));
    }
    forall p: TriggerId
      ensures (p in x.ports <==> p in y.ports) && (p in x.ports ==> x.ports[p] == y.ports[p])
    {
      assert At(x, OfPort(p)) == At(y, OfPort(p));
    }
    assert x.actions == y.actions && x.ports == y.ports;
  }
}
