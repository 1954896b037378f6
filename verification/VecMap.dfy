/**
 The sparse map of `src/util/vecmap.rs`: a vector of mappings kept in ascending key order.

 Keys are integers. Every key type the runtime uses embeds in them without changing the order: a level or a
 trigger id is a number already, and a reversed event tag is the negation of `EventTag.Rank`.
 */
module VecMaps {
  import opened Wrappers

  datatype Mapping<+V> = Mapping(key: int, value: V)

  /** A key with a lower bound on its index; nothing says which map it came from. */
  datatype KeyRef = KeyRef(key: int, minIdx: nat)

  /** The result of a search: the index of the key, or the index at which to insert it. */
  datatype Position = Hit(index: nat) | Gap(index: nat)

  datatype Entry = Occupied(key: int, index: nat) | Vacant(key: int, index: nat) {
    function Ref(): KeyRef { KeyRef(key, index) }
  }

  ghost predicate Ascending<V>(v: seq<Mapping<V>>) {
    forall i, j | 0 <= i < j < |v| :: v[i].key < v[j].key
  }

  /** The finite map a vector of mappings stands for. */
  ghost function AsMap<V>(v: seq<Mapping<V>>): map<int, V>
    requires Ascending(v)
  {
    map m | m in v :: m.key := m.value
  }

  /** `i` separates the keys below `key` from the keys above it. */
  ghost predicate Splits<V>(v: seq<Mapping<V>>, key: int, i: nat) {
    && i <= |v|
    && (forall j | 0 <= j < i :: v[j].key < key)
    && (forall j | i <= j < |v| :: key < v[j].key)
  }

  ghost predicate IsPosition<V>(v: seq<Mapping<V>>, key: int, p: Position) {
    match p
    case Hit(i) => i < |v| && v[i].key == key
    case Gap(i) => Splits(v, key, i)
  }

  ghost predicate IsEntry<V>(v: seq<Mapping<V>>, key: int, e: Entry) {
    && e.key == key
    && IsPosition(v, key, if e.Occupied? then Hit(e.index) else Gap(e.index))
  }

  /** `kr` designates the first mapping of `v` whose key is above (`strict`) or not below `key`. */
  ghost predicate IsFirstAfter<V>(v: seq<Mapping<V>>, key: int, strict: bool, kr: KeyRef) {
    && kr.minIdx < |v|
    && v[kr.minIdx].key == kr.key
    && (if strict then key < kr.key else key <= kr.key)
    && forall j | 0 <= j < kr.minIdx :: if strict then v[j].key <= key else v[j].key < key
  }

  function RefTo<V>(v: seq<Mapping<V>>, i: nat): KeyRef
    requires i < |v|
  {
    KeyRef(v[i].key, i)
  }

  ghost predicate IsExact<V>(v: seq<Mapping<V>>, kr: KeyRef) {
    kr.minIdx < |v| && v[kr.minIdx].key == kr.key
  }

  /** A search has at most one answer, so two searches that are both right agree. */
  lemma EntryIsUnique<V>(v: seq<Mapping<V>>, key: int, a: Entry, b: Entry)
    requires Ascending(v) && IsEntry(v, key, a) && IsEntry(v, key, b)
    ensures a == b
  {
    assert a.Vacant? && b.Vacant? && a.index < |v| ==> key < v[a.index].key;
    assert a.Vacant? && b.Vacant? && b.index < |v| ==> key < v[b.index].key;
  }

  /** A map that lists exactly the mappings of `v` is the map `v` stands for. */
  lemma ListsTheMap<V>(v: seq<Mapping<V>>, m: map<int, V>)
    requires Ascending(v)
    requires forall x | x in v :: x.key in m && m[x.key] == x.value
    requires forall k | k in m :: Mapping(k, m[k]) in v
    ensures AsMap(v) == m
  {
    assert forall k | k in m :: Mapping(k, m[k]).key in AsMap(v);
  }

  /** Iteration with `NextMapping` visits the mappings one by one. */
  lemma NextIsAdjacent<V>(v: seq<Mapping<V>>, i: nat, next: Option<KeyRef>)
    requires Ascending(v) && i < |v|
    requires next.None? ==> forall m | m in v :: m.key <= v[i].key
    requires next.Some? ==> IsFirstAfter(v, v[i].key, true, next.value)
    ensures next.None? <==> i + 1 == |v|
    ensures next.Some? ==> next.value == RefTo(v, i + 1)
  {
    if i + 1 < |v| {
      assert v[i + 1] in v;
    }
  }

  lemma LookUp<V>(v: seq<Mapping<V>>, i: nat)
    requires Ascending(v) && i < |v|
    ensures v[i].key in AsMap(v) && AsMap(v)[v[i].key] == v[i].value
  {
    assert v[i] in v;
  }

  lemma InsertedAsMap<V>(a: seq<Mapping<V>>, m: Mapping<V>, b: seq<Mapping<V>>)
    requires Ascending(a + b) && Ascending(a + [m] + b)
    ensures AsMap(a + [m] + b) == AsMap(a + b)[m.key := m.value]
    ensures m.key !in AsMap(a + b)
  {
    NewKey(a, m, b);
    assert forall x :: x in a + [m] + b <==> x in a + b || x == m;
    ListsTheMap(a + [m] + b, AsMap(a + b)[m.key := m.value]);
  }

  lemma NewKey<V>(a: seq<Mapping<V>>, m: Mapping<V>, b: seq<Mapping<V>>)
    requires Ascending(a + [m] + b)
    ensures forall x | x in a + b :: x.key != m.key
  {
    var w := a + [m] + b;
    assert forall i | 0 <= i < |a| :: a[i] == w[i] && a[i].key < w[|a|].key;
    assert forall i | 0 <= i < |b| :: b[i] == w[|a| + 1 + i] && w[|a|].key < b[i].key;
  }

  lemma InsertedAscending<V>(v: seq<Mapping<V>>, key: int, i: nat, value: V)
    requires Ascending(v) && Splits(v, key, i)
    ensures v[..i] + v[i..] == v
    ensures Ascending(v[..i] + [Mapping(key, value)] + v[i..])
  {}

  lemma RemovedAscending<V>(v: seq<Mapping<V>>, i: nat)
    requires Ascending(v) && i < |v|
    ensures v[..i] + [v[i]] + v[i + 1..] == v
    ensures Ascending(v[..i] + v[i + 1..])
  {}

  lemma RemovedAsMap<V>(v: seq<Mapping<V>>, i: nat)
    requires Ascending(v) && i < |v|
    ensures Ascending(v[..i] + v[i + 1..])
    ensures AsMap(v[..i] + v[i + 1..]) == AsMap(v) - {v[i].key}
  {
    RemovedAscending(v, i);
    var a, m, b := v[..i], v[i], v[i + 1..];
    InsertedAsMap(a, m, b);
  }

  lemma ReplacedAsMap<V>(v: seq<Mapping<V>>, i: nat, value: V)
    requires Ascending(v) && i < |v|
    ensures Ascending(v[i := Mapping(v[i].key, value)])
    ensures AsMap(v[i := Mapping(v[i].key, value)]) == AsMap(v)[v[i].key := value]
  {
    var w := v[i := Mapping(v[i].key, value)];
    assert Ascending(w);
    forall m | m in v && m.key != v[i].key
      ensures m in w
    {
      var j :| 0 <= j < |v| && v[j] == m;
      assert w[j] == m;
    }
    assert w[i] in w;
  }

  class VecMap<V> {
    var v: seq<Mapping<V>>

    ghost predicate Valid()
      reads this
    {
      Ascending(v)
    }

    ghost function Model(): map<int, V>
      reads this
      requires Valid()
    {
      AsMap(v)
    }

    constructor ()
      ensures Valid() && v == []
    {
      v := [];
    }

    /** The copy that the source's `Clone` makes. */
    constructor Clone(mappings: seq<Mapping<V>>)
      requires Ascending(mappings)
      ensures Valid() && v == mappings
    {
      v := mappings;
    }

    /** Binary search. */
    method FindK(key: int) returns (p: Position)
      requires Valid()
      ensures IsPosition(v, key, p)
      ensures p.Hit? <==> key in Model()
    {
      var size := |v|;
      var left, right := 0, size;
      while left < right
        invariant 0 <= left <= right <= |v|
        invariant size == right - left
        invariant forall j | 0 <= j < left :: v[j].key < key
        invariant forall j | right <= j < |v| :: key < v[j].key
        decreases right - left
      {
        var mid := left + size / 2;
        if v[mid].key < key {
          left := mid + 1;
        } else if key < v[mid].key {
          right := mid;
        } else {
          return Hit(mid);
        }
        size := right - left;
      }
      return Gap(left);
    }

    method EntryOf(key: int) returns (e: Entry)
      requires Valid()
      ensures IsEntry(v, key, e)
    {
      var p := FindK(key);
      match p
      case Hit(index) => e := Occupied(key, index);
      case Gap(index) => e := Vacant(key, index);
    }

    predicate IsValidKeyRef(kr: KeyRef)
      reads this
    {
      kr.minIdx < |v| && v[kr.minIdx].key <= kr.key
    }

    /** Linear probing from a hint. Under the two documented assumptions the entry is the one `EntryOf` finds. */
    method EntryFromRef(hint: KeyRef, key: int) returns (e: Entry)
      requires Valid()
      requires IsValidKeyRef(hint) && hint.key <= key
      ensures IsEntry(v, key, e)
    {
      var i := hint.minIdx;
      while i < |v|
        invariant hint.minIdx <= i <= |v|
        invariant forall j | 0 <= j < i :: v[j].key < key
      {
        if v[i].key == key {
          return Occupied(key, i);
        } else if key < v[i].key {
          assert i >= 1;
          return Vacant(key, i);
        }
        i := i + 1;
      }
      return Vacant(key, |v|);
    }

    /** `VacantEntry::insert`. */
    method InsertVacant(e: Entry, value: V)
      requires Valid() && e.Vacant? && IsEntry(v, e.key, e)
      modifies this
      ensures Valid() && v == old(v[..e.index]) + [Mapping(e.key, value)] + old(v[e.index..])
      ensures Model() == old(Model())[e.key := value]
    {
      InsertedAscending(v, e.key, e.index, value);
      InsertedAsMap(v[..e.index], Mapping(e.key, value), v[e.index..]);
      v := v[..e.index] + [Mapping(e.key, value)] + v[e.index..];
    }

    /** `OccupiedEntry::replace`. */
    method ReplaceOccupied(e: Entry, value: V)
      requires Valid() && e.Occupied? && IsEntry(v, e.key, e)
      modifies this
      ensures Valid() && v == old(v)[e.index := Mapping(e.key, value)]
      ensures Model() == old(Model())[e.key := value]
    {
      ReplacedAsMap(v, e.index, value);
      v := v[e.index := Mapping(v[e.index].key, value)];
    }

    method Insert(key: int, value: V) returns (previous: Option<V>)
      requires Valid()
      modifies this
      ensures Valid() && Model() == old(Model())[key := value]
      ensures previous == if key in old(Model()) then Some(old(Model()[key])) else None
    {
      var p := FindK(key);
      match p
      case Hit(index) =>
        ReplacedAsMap(v, index, value);
        previous := Some(v[index].value);
        v := v[index := Mapping(v[index].key, value)];
      case Gap(index) =>
        InsertedAscending(v, key, index, value);
        InsertedAsMap(v[..index], Mapping(key, value), v[index..]);
        v := v[..index] + [Mapping(key, value)] + v[index..];
        previous := None;
    }

    method Remove(key: int) returns (removed: Option<V>)
      requires Valid()
      modifies this
      ensures Valid() && Model() == old(Model()) - {key}
      ensures removed == if key in old(Model()) then Some(old(Model()[key])) else None
    {
      var p := FindK(key);
      match p
      case Hit(index) =>
        RemovedAsMap(v, index);
        LookUp(v, index);
        removed := Some(v[index].value);
        v := v[..index] + v[index + 1..];
      case Gap(_) =>
        removed := None;
    }

    method Get(key: int) returns (value: Option<V>)
      requires Valid()
      ensures value == if key in Model() then Some(Model()[key]) else None
    {
      var p := FindK(key);
      match p
      case Hit(index) => value := Some(v[index].value);
      case Gap(_) => value := None;
    }

    method ContainsKey(key: int) returns (found: bool)
      requires Valid()
      ensures found <==> key in Model()
    {
      var p := FindK(key);
      found := p.Hit?;
    }

    /** The first mapping whose key is not below `key`. */
    method FindRandomMappingAfter(key: int) returns (r: Option<KeyRef>)
      requires Valid()
      ensures r.None? ==> forall m | m in v :: m.key < key
      ensures r.Some? ==> IsFirstAfter(v, key, false, r.value)
    {
      var p := FindK(key);
      match p
      case Hit(index) => r := Some(KeyRef(v[index].key, index));
      case Gap(index) =>
        if index < |v| {
          r := Some(KeyRef(v[index].key, index));
        } else {
          r := None;
        }
    }

    /**
     The first mapping whose key is above that of `kr`, for any cursor whatever. From an exact cursor of this map
     it is the adjacent mapping.
     */
    method NextMapping(kr: KeyRef) returns (r: Option<KeyRef>)
      requires Valid()
      ensures r.None? ==> forall m | m in v :: m.key <= kr.key
      ensures r.Some? ==> IsFirstAfter(v, kr.key, true, r.value)
      ensures IsExact(v, kr) ==> r == if kr.minIdx + 1 < |v| then Some(RefTo(v, kr.minIdx + 1)) else None
    {
      var idx := if IsValidKeyRef(kr) then kr.minIdx else 0;
      r := None;
      while idx < |v|
        invariant 0 <= idx <= |v|
        invariant forall j | 0 <= j < idx :: v[j].key <= kr.key
      {
        if kr.key < v[idx].key {
          r := Some(KeyRef(v[idx].key, idx));
          break;
        }
        idx := idx + 1;
      }
      if IsExact(v, kr) {
        NextIsAdjacent(v, kr.minIdx, r);
      }
    }

    method MinEntry() returns (r: Option<KeyRef>)
      requires Valid()
      ensures r.None? <==> v == []
      ensures r.Some? ==> r.value.minIdx == 0 && v[0].key == r.value.key
      ensures r.Some? ==> forall m | m in v :: r.value.key <= m.key
    {
      if |v| == 0 {
        r := None;
      } else {
        r := Some(KeyRef(v[0].key, 0));
      }
    }

    method MaxKey() returns (r: Option<int>)
      requires Valid()
      ensures r.None? <==> v == []
      ensures r.Some? ==> r.value == v[|v| - 1].key && r.value in Model() && forall m | m in v :: m.key <= r.value
    {
      if |v| == 0 {
        r := None;
      } else {
        assert v[|v| - 1].key in Model();
        r := Some(v[|v| - 1].key);
      }
    }
  }
}
