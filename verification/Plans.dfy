/**
 Reaction plans: `Level` and `ExecutableReactions` of `src/scheduler/dependencies.rs`.

 A plan maps levels to sets of reactions. Its meaning is the set of its slots, a slot being a reaction at a level.
 A plan behind a `Cow` or an `Arc` is never changed while it is shared, so plans travel as values; the operations that
 change one work on an `ExecutableReactions` object.
 */
module Plans {
  import opened Wrappers
  import opened VecMaps

  type ReactionId = nat
  type Level = seq<ReactionId>
  type Plan = seq<Mapping<Level>>

  datatype Slot = Slot(level: int, reaction: ReactionId)

  datatype Cow = Owned(plan: Plan) | Borrowed(plan: Plan)
  type ReactionPlan = Option<Cow>

  ghost predicate Strict(level: Level) {
    forall i, j | 0 <= i < j < |level| :: level[i] < level[j]
  }

  ghost function Elements(level: Level): set<ReactionId> {
    set r | r in level
  }

  ghost predicate ValidPlan(plan: Plan) {
    Ascending(plan) && forall m | m in plan :: 0 <= m.key && Strict(m.value)
  }

  /** No level is empty. */
  ghost predicate Compact(plan: Plan) {
    forall m | m in plan :: m.value != []
  }

  ghost function LevelSlots(m: Mapping<Level>): set<Slot> {
    set r | r in m.value :: Slot(m.key, r)
  }

  ghost function Slots(plan: Plan): set<Slot> {
    set m, r | m in plan && r in m.value :: Slot(m.key, r)
  }

  ghost function Above(slots: set<Slot>, min: int): set<Slot> {
    set s | s in slots && min <= s.level
  }

  /** The slots from a level on, as one value: parts are compared as wholes. */
  datatype Part = Part(slots: set<Slot>)

  ghost function From(slots: set<Slot>, min: int): Part {
    Part(Above(slots, min))
  }

  function Contents(plan: ReactionPlan): Plan {
    if plan.None? then [] else plan.value.plan
  }

  ghost function SlotsOf(plan: ReactionPlan): set<Slot> {
    Slots(Contents(plan))
  }

  ghost predicate Usable(plan: ReactionPlan) {
    ValidPlan(Contents(plan)) && Compact(Contents(plan))
  }

  // ---------------------------------------------------------------------------------------------- levels

  /** What `sort` followed by `dedup` leaves of a vector: its elements, in strictly ascending order. */
  function SortDedup(s: Level): (r: Level)
    ensures Strict(r) && forall x :: x in r <==> x in s
  {
    if s == [] then [] else
      var rest := SortDedup(s[..|s| - 1]);
      assert s == s[..|s| - 1] + [s[|s| - 1]];
      Placed(rest, s[|s| - 1])
  }

  function Placed(s: Level, x: ReactionId): (r: Level)
    requires Strict(s)
    ensures Strict(r) && forall y :: y in r <==> y in s || y == x
  {
    if s == [] || x < s[0] then [x] + s
    else if x == s[0] then s
    else
      assert s == [s[0]] + s[1..];
      PrependedIsStrict(s[0], Placed(s[1..], x));
      [s[0]] + Placed(s[1..], x)
  }

  lemma PrependedIsStrict(x: ReactionId, s: Level)
    requires Strict(s) && forall y | y in s :: x < y
    ensures Strict([x] + s)
  {
    var t := [x] + s;
    forall i, j | 0 <= i < j < |t|
      ensures t[i] < t[j]
    {
      assert t[j] == s[j - 1] && s[j - 1] in s;
      assert i > 0 ==> t[i] == s[i - 1];
    }
  }

  /** `Level::insert`; the loop is the standard library's `binary_search`. */
  method InsertReaction(level: Level, id: ReactionId) returns (r: Level)
    requires Strict(level)
    ensures Strict(r) && Elements(r) == Elements(level) + {id}
  {
    var left, right := 0, |level|;
    while left < right
      invariant 0 <= left <= right <= |level|
      invariant forall j | 0 <= j < left :: level[j] < id
      invariant forall j | right <= j < |level| :: id < level[j]
    {
      var mid := (left + right) / 2;
      if level[mid] == id {
        return level;
      } else if level[mid] < id {
        left := mid + 1;
      } else {
        right := mid;
      }
    }
    assert level == level[..left] + level[left..];
    r := level[..left] + [id] + level[left..];
  }

  /** `Level::extend`. */
  function Extend(level: Level, more: Level): (r: Level)
    ensures Strict(r) && Elements(r) == Elements(level) + Elements(more)
  {
    SortDedup(level + more)
  }

  lemma NoElements(level: Level)
    ensures level == [] <==> Elements(level) == {}
  {
    if level != [] {
      assert level[0] in Elements(level);
    }
  }

  lemma LastIsMax(a: Level, x: ReactionId)
    requires Strict(a) && x in a
    ensures x <= a[|a| - 1]
  {
    var i :| 0 <= i < |a| && a[i] == x;
  }

  lemma WithoutLast(a: Level)
    requires Strict(a) && a != []
    ensures Strict(a[..|a| - 1]) && Elements(a[..|a| - 1]) == Elements(a) - {a[|a| - 1]}
  {
    assert a == a[..|a| - 1] + [a[|a| - 1]];
  }

  lemma {:induction false} StrictIsCanonical(a: Level, b: Level)
    requires Strict(a) && Strict(b) && Elements(a) == Elements(b)
    ensures a == b
  {
    NoElements(a);
    NoElements(b);
    if a != [] {
      var x, y := a[|a| - 1], b[|b| - 1];
      assert x in Elements(b) && y in Elements(a);
      LastIsMax(a, y);
      LastIsMax(b, x);
      WithoutLast(a);
      WithoutLast(b);
      StrictIsCanonical(a[..|a| - 1], b[..|b| - 1]);
      assert a == a[..|a| - 1] + [x] && b == b[..|b| - 1] + [x];
    }
  }

  // ---------------------------------------------------------------------------------------------- slots

  lemma AppendedSlots(a: Plan, m: Mapping<Level>)
    ensures Slots(a + [m]) == Slots(a) + LevelSlots(m)
  {}

  lemma ConcatenatedSlots(a: Plan, b: Plan)
    ensures Slots(a + b) == Slots(a) + Slots(b)
  {}

  lemma InsertedSlots(a: Plan, m: Mapping<Level>, b: Plan)
    ensures Slots(a + [m] + b) == Slots(a + b) + LevelSlots(m)
  {}

  lemma SingletonSlots(levelIx: int, level: Level, r: ReactionId)
    requires Elements(level) == {r}
    ensures LevelSlots(Mapping(levelIx, level)) == (set x | x in {r} :: Slot(levelIx, x)) == {Slot(levelIx, r)}
    ensures level != []
  {
    NoElements(level);
    assert forall x :: x in level <==> x in Elements(level);
  }

  lemma ReplacedPlan(plan: Plan, i: nat, level: Level)
    requires ValidPlan(plan) && i < |plan| && Strict(level)
    ensures ValidPlan(plan[i := Mapping(plan[i].key, level)])
    ensures Compact(plan) && level != [] ==> Compact(plan[i := Mapping(plan[i].key, level)])
  {
    var w := plan[i := Mapping(plan[i].key, level)];
    assert forall j | 0 <= j < |plan| :: w[j].key == plan[j].key;
  }

  lemma InsertedPlan(a: Plan, m: Mapping<Level>, b: Plan)
    requires ValidPlan(a + b) && Ascending(a + [m] + b) && 0 <= m.key && Strict(m.value)
    ensures ValidPlan(a + [m] + b)
    ensures Compact(a + b) && m.value != [] ==> Compact(a + [m] + b)
  {}

  /** The slots a merge from level `min` on has taken when its cursor has reached `next`. */
  ghost function Taken(src: Plan, min: int, next: Option<KeyRef>): set<Slot> {
    set s | s in Slots(src) && min <= s.level && (next.Some? ==> s.level < next.value.key)
  }

  lemma NothingTaken(src: Plan, min: int, next: Option<KeyRef>)
    requires Ascending(src)
    requires next.None? ==> forall m | m in src :: m.key < min
    requires next.Some? ==> IsFirstAfter(src, min, false, next.value)
    ensures Taken(src, min, next) == {}
  {
    forall m | m in src && min <= m.key
      ensures next.Some? && next.value.key <= m.key
    {
      var i :| 0 <= i < |src| && src[i] == m;
    }
  }

  lemma TakenOneMore(src: Plan, min: int, i: nat, next: Option<KeyRef>)
    requires Ascending(src) && i < |src| && min <= src[i].key
    requires next == if i + 1 < |src| then Some(RefTo(src, i + 1)) else None
    ensures Taken(src, min, next) == Taken(src, min, Some(RefTo(src, i))) + LevelSlots(src[i])
  {
    forall m | m in src && src[i].key <= m.key && (next.Some? ==> m.key < next.value.key)
      ensures m == src[i]
    {
      var j :| 0 <= j < |src| && src[j] == m;
    }
    assert src[i] in src;
  }

  lemma Absorbed(before: set<Slot>, taken: set<Slot>, more: set<Slot>, w: set<Slot>, next: set<Slot>)
    requires w == before + taken && next == w + more
    ensures next == before + (taken + more)
  {}

  lemma ReplacedSlots(plan: Plan, i: nat, level: Level, extra: set<ReactionId>)
    requires i < |plan| && Elements(level) == Elements(plan[i].value) + extra
    ensures Slots(plan[i := Mapping(plan[i].key, level)]) == Slots(plan) + (set r | r in extra :: Slot(plan[i].key, r))
  {
    var m := Mapping(plan[i].key, level);
    var a, b := plan[..i], plan[i + 1..];
    assert plan == a + [plan[i]] + b && plan[i := m] == a + [m] + b;
    InsertedSlots(a, plan[i], b);
    InsertedSlots(a, m, b);
    assert forall r :: r in level <==> r in Elements(level);
    assert forall r :: r in plan[i].value <==> r in Elements(plan[i].value);
  }

  /** The mappings from `start` on hold exactly the slots not below `min`. */
  lemma SuffixIsAbove(plan: Plan, start: nat, min: int)
    requires Ascending(plan) && start <= |plan|
    requires forall i | 0 <= i < start :: plan[i].key < min
    requires forall i | start <= i < |plan| :: min <= plan[i].key
    ensures Slots(plan[start..]) == Above(Slots(plan), min)
  {
    var a, b := plan[..start], plan[start..];
    assert plan == a + b;
    ConcatenatedSlots(a, b);
  }

  lemma AllAbove(plan: Plan)
    requires ValidPlan(plan)
    ensures Above(Slots(plan), 0) == Slots(plan)
  {
  }

  lemma NoSlots(plan: Plan)
    requires Compact(plan)
    ensures plan == [] <==> Slots(plan) == {}
  {
    if plan != [] {
      var m := plan[|plan| - 1];
      assert m in plan && Slot(m.key, m.value[0]) in Slots(plan);
    }
  }

  /** What fully merging two compact plans gives. */
  ghost predicate IsMerge(x: Plan, y: Plan, merged: Plan) {
    ValidPlan(merged) && Compact(merged) && Slots(merged) == Slots(x) + Slots(y)
  }

  /**
    Full merges are the same plan in whatever order and grouping they are made, and merging a plan with itself is no
    change.
  */
  lemma MergeLaws(x: Plan, y: Plan, z: Plan, xy: Plan, yx: Plan, yz: Plan, left: Plan, right: Plan, xx: Plan)
    requires ValidPlan(x) && Compact(x)
    requires IsMerge(x, y, xy) && IsMerge(y, x, yx) && IsMerge(y, z, yz) && IsMerge(xy, z, left)
        && IsMerge(x, yz, right)
    requires IsMerge(x, x, xx)
    ensures xy == yx && left == right && xx == x
  {
    PlanIsCanonical(xy, yx);
    PlanIsCanonical(left, right);
    PlanIsCanonical(xx, x);
  }

  /** A compact plan is determined by its slots. */
  lemma {:induction false} PlanIsCanonical(p: Plan, q: Plan)
    requires ValidPlan(p) && Compact(p) && ValidPlan(q) && Compact(q)
    requires Slots(p) == Slots(q)
    ensures p == q
  {
    NoSlots(p);
    NoSlots(q);
    if p != [] {
      var m, n := p[|p| - 1], q[|q| - 1];
      SameLastLevel(p, q);
      var p', q' := p[..|p| - 1], q[..|q| - 1];
      assert p == p' + [m] && q == q' + [n];
      WithoutLastLevel(p', m);
      WithoutLastLevel(q', n);
      PlanIsCanonical(p', q');
    }
  }

  lemma WithoutLastLevel(p: Plan, m: Mapping<Level>)
    requires Ascending(p + [m])
    ensures Slots(p) == Slots(p + [m]) - LevelSlots(m)
    ensures Ascending(p)
  {
    AppendedSlots(p, m);
    assert Ascending(p) by {
      assert forall i | 0 <= i < |p| :: (p + [m])[i] == p[i];
    }
    assert forall x | x in p :: x.key != m.key by {
      assert forall i | 0 <= i < |p| :: (p + [m])[i] == p[i] && p[i].key < (p + [m])[|p|].key;
    }
  }

  lemma LastIsGreatest(p: Plan, s: Slot)
    requires Ascending(p) && s in Slots(p)
    ensures p != [] && s.level <= p[|p| - 1].key
    ensures s.level == p[|p| - 1].key ==> s.reaction in p[|p| - 1].value
  {
    var m :| m in p && s.reaction in m.value && m.key == s.level;
    var i :| 0 <= i < |p| && p[i] == m;
  }

  lemma SameLastLevel(p: Plan, q: Plan)
    requires ValidPlan(p) && Compact(p) && ValidPlan(q) && Compact(q)
    requires Slots(p) == Slots(q) && p != [] && q != []
    ensures p[|p| - 1] == q[|q| - 1]
  {
    var m, n := p[|p| - 1], q[|q| - 1];
    assert Slot(m.key, m.value[0]) in Slots(p) && Slot(n.key, n.value[0]) in Slots(q);
    LastIsGreatest(q, Slot(m.key, m.value[0]));
    LastIsGreatest(p, Slot(n.key, n.value[0]));
    forall r | r in m.value
      ensures r in n.value
    {
      assert Slot(m.key, r) in Slots(p);
      LastIsGreatest(q, Slot(m.key, r));
    }
    forall r | r in n.value
      ensures r in m.value
    {
      assert Slot(n.key, r) in Slots(q);
      LastIsGreatest(p, Slot(n.key, r));
    }
    StrictIsCanonical(m.value, n.value);
  }

  // ---------------------------------------------------------------------------------------------- plans

  class ExecutableReactions {
    const levels: VecMap<Level>

    ghost predicate Valid()
      reads this, levels
    {
      ValidPlan(levels.v)
    }

    constructor ()
      ensures Valid() && fresh(levels) && levels.v == []
    {
      levels := new VecMap();
    }

    /** What `Cow::to_mut` and a move give: an object of one's own with these mappings. */
    constructor Clone(plan: Plan)
      requires ValidPlan(plan)
      ensures Valid() && fresh(levels) && levels.v == plan
    {
      levels := new VecMap.Clone(plan);
    }

    method FirstBatch() returns (r: Option<KeyRef>)
      requires Valid()
      ensures r.None? <==> levels.v == []
      ensures r.Some? ==> levels.v != [] && r.value == KeyRef(levels.v[0].key, 0)
    {
      r := levels.MinEntry();
    }

    method NextBatch(after: KeyRef) returns (r: Option<KeyRef>)
      requires Valid()
      ensures r.None? ==> Above(Slots(levels.v), after.key + 1) == {}
      ensures r.Some? ==> IsFirstAfter(levels.v, after.key, true, r.value)
    {
      r := levels.NextMapping(after);
      if r.None? {
        SuffixIsAbove(levels.v, |levels.v|, after.key + 1);
      }
    }

    method MaxLevel() returns (level: int)
      requires Valid()
      ensures level == if levels.v == [] then 0 else levels.v[|levels.v| - 1].key
      ensures forall m | m in levels.v :: m.key <= level
    {
      var key := levels.MaxKey();
      level := key.GetOr(0);
    }

    method Insert(reaction: ReactionId, levelIx: nat)
      requires Valid()
      modifies levels
      ensures Valid() && Slots(levels.v) == old(Slots(levels.v)) + {Slot(levelIx, reaction)}
      ensures old(Compact(levels.v)) ==> Compact(levels.v)
    {
      var e := levels.EntryOf(levelIx);
      match e {
        case Vacant(_, i) =>
          var level := InsertReaction([], reaction);
          ghost var a, b := levels.v[..i], levels.v[i..];
          assert levels.v == a + b;
          InsertedSlots(a, Mapping(levelIx, level), b);
          SingletonSlots(levelIx, level, reaction);
          InsertedAscending(levels.v, levelIx, i, level);
          InsertedPlan(a, Mapping(levelIx, level), b);
          levels.InsertVacant(e, level);
        case Occupied(_, i) =>
          var level := InsertReaction(levels.v[i].value, reaction);
          ReplacedSlots(levels.v, i, level, {reaction});
          SingletonSlots(levelIx, [reaction], reaction);
          NoElements(level);
          ReplacedPlan(levels.v, i, level);
          levels.ReplaceOccupied(e, level);
      }
    }

    /** One turn of the merge loop: the level `m` of the source is united with its counterpart. */
    method AbsorbLevel(e: Entry, m: Mapping<Level>)
      requires Valid() && IsEntry(levels.v, m.key, e) && 0 <= m.key && Strict(m.value)
      modifies levels
      ensures Valid() && Slots(levels.v) == old(Slots(levels.v)) + LevelSlots(m)
      ensures levels.IsValidKeyRef(e.Ref())
      ensures old(Compact(levels.v)) && m.value != [] ==> Compact(levels.v)
    {
      match e {
        case Vacant(_, i) =>
          ghost var a, b := levels.v[..i], levels.v[i..];
          assert levels.v == a + b;
          InsertedSlots(a, m, b);
          InsertedAscending(levels.v, m.key, i, m.value);
          InsertedPlan(a, m, b);
          levels.InsertVacant(e, m.value);
        case Occupied(_, i) =>
          if levels.v[i].value == [] {
            ReplacedSlots(levels.v, i, m.value, Elements(m.value));
            ReplacedPlan(levels.v, i, m.value);
            levels.ReplaceOccupied(e, m.value);
          } else {
            var level := Extend(levels.v[i].value, m.value);
            ReplacedSlots(levels.v, i, level, Elements(m.value));
            NoElements(level);
            NoElements(levels.v[i].value);
            ReplacedPlan(levels.v, i, level);
            levels.ReplaceOccupied(e, level);
          }
      }
    }

    /** Unites the levels of `src` from `min` on with those of this plan, and leaves the others alone. */
    method AbsorbAfter(src: ExecutableReactions, min: int)
      requires Valid() && src.Valid() && src.levels != levels
      modifies levels
      ensures Valid() && Slots(levels.v) == old(Slots(levels.v)) + Above(Slots(src.levels.v), min)
      ensures old(Compact(levels.v)) && Compact(src.levels.v) ==> Compact(levels.v)
    {
      var next := src.levels.FindRandomMappingAfter(min);
      var hint: Option<KeyRef> := None;
      ghost var before, s := Slots(levels.v), src.levels.v;
      NothingTaken(s, min, next);
      while next.Some?
        invariant Valid() && src.levels.v == s
        invariant next.Some? ==> IsExact(s, next.value) && min <= next.value.key
        invariant Slots(levels.v) == before + Taken(s, min, next)
        invariant next.Some? && hint.Some? ==> levels.IsValidKeyRef(hint.value) && hint.value.key <= next.value.key
        invariant old(Compact(levels.v)) && Compact(s) ==> Compact(levels.v)
        decreases if next.Some? then |s| - next.value.minIdx else 0
      {
        var m := src.levels.v[next.value.minIdx];
        var e;
        if hint.Some? {
          e := levels.EntryFromRef(hint.value, m.key);
        } else {
          e := levels.EntryOf(m.key);
        }
        hint := Some(e.Ref());
        ghost var w, i, taken := Slots(levels.v), next.value.minIdx, Taken(s, min, next);
        AbsorbLevel(e, m);
        next := src.levels.NextMapping(next.value);
        TakenOneMore(s, min, i, next);
        Absorbed(before, taken, LevelSlots(m), w, Slots(levels.v));
      }
    }
  }

  /**
   The merge of two plans. The arms are tried in the order of the source; a plan without a level at or after `min` is
   dropped, an owned plan absorbs the other, and of two borrowed plans the one with the smaller last level is copied
   and absorbs the other.
   */
  method MergePlansAfter(x: ReactionPlan, y: ReactionPlan, min: int) returns (r: ReactionPlan)
    requires ValidPlan(Contents(x)) && ValidPlan(Contents(y))
    ensures ValidPlan(Contents(r))
    ensures From(SlotsOf(r), min) == From(SlotsOf(x) + SlotsOf(y), min)
    ensures SlotsOf(r) <= SlotsOf(x) + SlotsOf(y)
    ensures Compact(Contents(x)) && Compact(Contents(y)) ==> Compact(Contents(r))
  {
    if y.None? {
      return x;
    } else if x.None? {
      return y;
    }
    var p := new ExecutableReactions.Clone(x.value.plan);
    var q := new ExecutableReactions.Clone(y.value.plan);
    var xMax := p.MaxLevel();
    var yMax := q.MaxLevel();
    if xMax < min {
      r := y;
    } else if yMax < min {
      r := x;
    } else if x.value.Owned? || (y.value.Borrowed? && xMax <= yMax) {
      p.AbsorbAfter(q, min);
      r := Some(Owned(p.levels.v));
    } else {
      q.AbsorbAfter(p, min);
      r := Some(Owned(q.levels.v));
    }
  }

  /** A full merge is the union of their slots. */
  method MergeCows(x: ReactionPlan, y: ReactionPlan) returns (r: ReactionPlan)
    requires ValidPlan(Contents(x)) && ValidPlan(Contents(y))
    ensures ValidPlan(Contents(r)) && SlotsOf(r) == SlotsOf(x) + SlotsOf(y)
    ensures Compact(Contents(x)) && Compact(Contents(y)) ==> IsMerge(Contents(x), Contents(y), Contents(r))
  {
    r := MergePlansAfter(x, y, 0);
    AllAbove(Contents(x));
    AllAbove(Contents(y));
    AllAbove(Contents(r));
  }
}
