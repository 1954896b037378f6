/** Timers: `src/timers.rs`, with the tags that `bootstrap_timer` and `reschedule_timer` give them. */
module Timers {
  import opened Graphs
  import opened Events

  datatype Timer = Timer(id: TriggerId, offset: nat, period: nat) {
    predicate IsPeriodic() {
      period != 0
    }

    predicate IsPresent(now: EventTag) {
      if now.offset == offset then true
      else if now.offset < offset || !IsPeriodic() then false
      else (now.offset - offset) % period == 0
    }

    /** The tag of the first event: the startup tag itself when there is no offset. */
    function Bootstrap(): EventTag {
      if offset == 0 then ORIGIN else ORIGIN.Successor(offset)
    }

    /** The tag of the event that the synthesized reaction schedules while it runs at `now`. */
    function Reschedule(now: EventTag): EventTag {
      now.Successor(period)
    }

    function Tick(k: nat): EventTag {
      if k == 0 then Bootstrap() else Reschedule(Tick(k - 1))
    }

    /** The timer fires at `tag`. */
    ghost predicate Fires(tag: EventTag) {
      exists k: nat :: (k == 0 || IsPeriodic()) && Tick(k) == tag
    }
  }

  lemma {:induction false} TickTime(t: Timer, k: nat)
    requires k == 0 || t.IsPeriodic()
    ensures t.Tick(k) == EventTag(t.offset + k * t.period, 0)
  {
    if k > 0 {
      TickTime(t, k - 1);
      assert (k - 1) * t.period + t.period == k * t.period;
    }
  }

  lemma MultipleOf(k: nat, d: nat)
    requires d > 0
    ensures (k * d) % d == 0
  {
    var a := k * d;
    var q, r := a / d, a % d;
    assert a == q * d + r;
    assert (k - q) * d == r;
    ProductOutgrows(k - q, d);
  }

  lemma ProductOutgrows(n: int, d: int)
    requires d >= 0
    ensures n >= 1 ==> n * d >= d
    ensures n <= -1 ==> n * d <= -d
  {
    assert n * d == (n - 1) * d + d == (n + 1) * d - d;
  }

  lemma ExactQuotient(a: nat, d: nat)
    requires d > 0 && a % d == 0
    ensures (a / d) * d == a
  {}

  /** A timer is present exactly at the times at which it fires; only the microstep tells the tags apart. */
  lemma FiresWhenPresent(t: Timer, tag: EventTag)
    ensures t.Fires(tag) <==> tag.microstep == 0 && t.IsPresent(tag)
  {
    if t.Fires(tag) {
      var k: nat :| (k == 0 || t.IsPeriodic()) && t.Tick(k) == tag;
      TickTime(t, k);
      if k > 0 {
        MultipleOf(k, t.period);
      }
    }
    if tag.microstep == 0 && t.IsPresent(tag) {
      FiresAt(t, tag);
    }
  }

  lemma FiresAt(t: Timer, tag: EventTag)
    requires tag.microstep == 0 && t.IsPresent(tag)
    ensures t.Fires(tag)
  {
    var k := if tag.offset == t.offset then 0 else (tag.offset - t.offset) / t.period;
    if tag.offset != t.offset {
      ExactQuotient(tag.offset - t.offset, t.period);
    }
    TickTime(t, k);
    assert t.Tick(k) == tag;
  }

  /** Presence ignores the microstep, so it also holds at later microsteps of a time at which the timer fired. */
  lemma PresentAtEveryMicrostep(t: Timer, tag: EventTag)
    ensures t.IsPresent(tag) <==> t.Fires(EventTag(tag.offset, 0))
    ensures t.IsPresent(tag) && !t.Fires(tag) <==> t.IsPresent(tag) && tag.microstep != 0
  {
    FiresWhenPresent(t, tag);
    FiresWhenPresent(t, EventTag(tag.offset, 0));
  }
}
