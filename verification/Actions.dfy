/** The values that an action holds for future tags (`src/actions.rs`). */
module Actions {
  import opened Wrappers
  import opened VecMaps
  import opened Graphs
  import opened Events
  import opened Context

  /** The keys are reversed tags: the latest tag comes first. */
  function Reverse(tag: EventTag): int {
    -tag.Rank()
  }

  lemma ReverseIsInjective(a: EventTag, b: EventTag)
    ensures Reverse(a) == Reverse(b) <==> a == b
    ensures Reverse(a) < Reverse(b) <==> b.Before(a)
  {
    RankKeepsOrder(a, b);
    RankKeepsOrder(b, a);
  }

  class Action {
    const id: TriggerId
    const minDelay: nat
    const future: VecMap<Option<Value>>

    ghost predicate Valid()
      reads this, future
    {
      future.Valid()
    }

    /** The value stored for a tag, which may be the absence of a value. */
    ghost function At(tag: EventTag): Option<Option<Value>>
      requires Valid()
      reads this, future
    {
      if Reverse(tag) in future.Model() then Some(future.Model()[Reverse(tag)]) else None
    }

    /** The action holds its part of `values`. */
    ghost predicate Holds(values: ActionValues)
      requires Valid()
      reads this, future
    {
      forall tag ::
        At(tag) == if ActionKey(id, tag) in values then Some(values[ActionKey(id, tag)]) else None
    }

    constructor (id: TriggerId, minDelay: Option<nat>)
      ensures Valid() && fresh(future) && this.id == id && this.minDelay == minDelay.GetOr(0)
      ensures Holds(map[])
    {
      this.id, this.minDelay := id, minDelay.GetOr(0);
      future := new VecMap();
    }

    /** Scheduling an action again for the same tag overwrites the value. */
    method ScheduleFutureValue(time: EventTag, value: Option<Value>, ghost values: ActionValues)
      requires Valid() && Holds(values)
      modifies future
      ensures Valid() && Holds(values[ActionKey(id, time) := value])
    {
      var e := future.EntryOf(Reverse(time));
      if e.Vacant? {
        future.InsertVacant(e, value);
      } else {
        future.ReplaceOccupied(e, value);
      }
      forall tag
        ensures At(tag) == if tag == time then Some(value) else old(At(tag))
      {
        ReverseIsInjective(tag, time);
      }
    }

    /** The cleanup of a tag. */
    method ForgetValue(time: EventTag, ghost values: ActionValues) returns (forgotten: Option<Value>)
      requires Valid() && Holds(values)
      modifies future
      ensures Valid() && Holds(values - {ActionKey(id, time)})
      ensures forgotten == if ActionKey(id, time) in values then values[ActionKey(id, time)] else None
    {
      var removed := future.Remove(Reverse(time));
      forgotten := removed.GetOr(None);
      forall tag
        ensures At(tag) == if tag == time then None else old(At(tag))
      {
        ReverseIsInjective(tag, time);
      }
    }

    method IsPresent(now: EventTag, ghost values: ActionValues) returns (present: bool)
      requires Valid() && Holds(values)
      ensures present <==> ActionKey(id, now) in values
    {
      assert At(now) == if ActionKey(id, now) in values then Some(values[ActionKey(id, now)]) else None;
      present := future.ContainsKey(Reverse(now));
    }

    method GetValue(now: EventTag, ghost values: ActionValues) returns (value: Option<Value>)
      requires Valid() && Holds(values)
      ensures value == if ActionKey(id, now) in values then values[ActionKey(id, now)] else None
    {
      assert At(now) == if ActionKey(id, now) in values then Some(values[ActionKey(id, now)]) else None;
      var stored := future.Get(Reverse(now));
      value := stored.GetOr(None);
    }
  }
}
