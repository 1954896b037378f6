/**
 Sequences of port bindings: when every port ends on the cell of its root, and when a cycle is noticed, in terms of the
 order of the bindings alone (`forward_to` in `src/ports.rs`).
 */
module BindingSequences {
  import opened Wrappers
  import opened Ports

  /** A binding of the second port below the first. */
  type Binding = (PortId, PortId)

  ghost function Ups(bindings: seq<Binding>): Bindings {
    if bindings == [] then map[]
    else Ups(bindings[..|bindings| - 1])[bindings[|bindings| - 1].1 := bindings[|bindings| - 1].0]
  }

  /** The cells and the records after the bindings. */
  ghost function WiringAfter(ids: set<PortId>, bindings: seq<Binding>): Wiring {
    if bindings == [] then Unbound(ids)
    else
      var w, last := WiringAfter(ids, bindings[..|bindings| - 1]), bindings[|bindings| - 1];
      if IsWired(w, last.0) && IsWired(w, last.1) then Forwarded(w, last.0, last.1) else w
  }

  /** Each binding is accepted: the downstream port is free, and no cycle is noticed. */
  ghost predicate Accepted(ids: set<PortId>, bindings: seq<Binding>) {
    bindings != [] ==>
      var before, last := bindings[..|bindings| - 1], bindings[|bindings| - 1];
      && Accepted(ids, before) && last.1 !in Ups(before)
      && !ReportsCycle(WiringAfter(ids, before), last.0, last.1)
  }

  ghost predicate ReportsCycle(w: Wiring, a: PortId, b: PortId) {
    IsWired(w, b) && a in w.known[w.cell[b]]
  }

  /** The roots after the bindings. */
  ghost function RootsAfter(ids: set<PortId>, bindings: seq<Binding>): Bindings {
    if bindings == [] then Unbound(ids).cell
    else
      var root, last := RootsAfter(ids, bindings[..|bindings| - 1]), bindings[|bindings| - 1];
      if last.0 in root then Joined(root, last.0, last.1) else root
  }

  /** No port is bound twice, nor below a port of its own tree. */
  ghost predicate FormForest(ids: set<PortId>, bindings: seq<Binding>) {
    bindings != [] ==>
      var before, last := bindings[..|bindings| - 1], bindings[|bindings| - 1];
      && FormForest(ids, before) && last.0 in ids && last.1 in ids && last.1 !in Ups(before)
      && last.0 in RootsAfter(ids, before) && RootsAfter(ids, before)[last.0] != last.1
  }

  /** No port is bound below another one after a port has been bound below it. */
  ghost predicate InOrder(bindings: seq<Binding>) {
    && (forall i | 0 <= i < |bindings| :: bindings[i].0 != bindings[i].1)
    && forall i, j | 0 <= i < j < |bindings| :: bindings[j].1 != bindings[i].0
  }

  ghost predicate BoundOnce(bindings: seq<Binding>) {
    forall i, j | 0 <= i < j < |bindings| :: bindings[i].1 != bindings[j].1
  }

  lemma {:induction false} UpsContents(bindings: seq<Binding>)
    ensures forall p :: p in Ups(bindings) <==> exists i :: 0 <= i < |bindings| && bindings[i].1 == p
    ensures forall p | p in Ups(bindings).Values :: exists i :: 0 <= i < |bindings| && bindings[i].0 == p
  {
    if bindings != [] {
      var n := |bindings| - 1;
      var before := Ups(bindings[..n]);
      UpsContents(bindings[..n]);
      forall p | p in Ups(bindings).Values
        ensures exists i :: 0 <= i < |bindings| && bindings[i].0 == p
      {
        var q :| q in Ups(bindings) && Ups(bindings)[q] == p;
        if q == bindings[n].1 {
          assert bindings[n].0 == p;
        } else {
          assert before[q] in before.Values;
          var i :| 0 <= i < n && bindings[..n][i].0 == p;
        }
      }
    }
  }

  // ----------------------------------------------------------------------------------------------------- binding times

  /** The times at which `p` and the ports above it were bound, from `p` up to its root. */
  ghost predicate AreTimes(bindings: seq<Binding>, p: PortId, times: seq<nat>) {
    && Climb(Ups(bindings), p, |times|) !in Ups(bindings)
    && forall i | 0 <= i < |times| :: times[i] < |bindings| && bindings[times[i]].1 == Climb(Ups(bindings), p, i)
  }

  /** The number of elements that are greater than all before them. */
  ghost function Maxima(times: seq<nat>): nat {
    if times == [] then 0
    else
      var n := |times| - 1;
      Maxima(times[..n]) + if (forall i | 0 <= i < n :: times[i] < times[n]) then 1 else 0
  }

  ghost predicate AllBelow(times: seq<nat>, n: nat) {
    forall i | 0 <= i < |times| :: times[i] < n
  }

  /** The index of the first element after the first one that is greater, or the length. */
  ghost function NextHigher(times: seq<nat>): (j: nat)
    requires times != []
    ensures 1 <= j <= |times|
    ensures forall i | 0 < i < j :: times[i] <= times[0]
    ensures j < |times| ==> times[0] < times[j]
  {
    HigherFrom(times, 1)
  }

  ghost function HigherFrom(times: seq<nat>, k: nat): (j: nat)
    requires 1 <= k <= |times| && forall i | 0 < i < k :: times[i] <= times[0]
    ensures k <= j <= |times|
    ensures forall i | 0 < i < j :: times[i] <= times[0]
    ensures j < |times| ==> times[0] < times[j]
    decreases |times| - k
  {
    if k == |times| || times[0] < times[k] then k else HigherFrom(times, k + 1)
  }

  /**
   The port with these binding times is on the cell of its root: at most one binding above it came later than its
   own, and the ports it joined, then and at that later binding, were on the cells of their roots.
   */
  ghost predicate Follows(times: seq<nat>)
    decreases |times|
  {
    times == [] ||
    var j := NextHigher(times);
    && Follows(times[1..j])
    && (j < |times| ==> (forall i | j < i < |times| :: times[i] <= times[j]) && Follows(times[j + 1..]))
  }

  // ------------------------------------------------------------------------------------- sequences with a late maximum

  lemma {:induction false} MaximaOfLower(ts: seq<nat>, n: nat, us: seq<nat>)
    requires AllBelow(ts, n) && AllBelow(us, n)
    ensures Maxima(ts + [n] + us) == Maxima(ts) + 1
    decreases us
  {
    var all := ts + [n] + us;
    var m := |all| - 1;
    assert all[|ts|] == n;
    if us == [] {
      assert all[..m] == ts;
      assert forall i | 0 <= i < m :: all[i] == ts[i] < n;
    } else {
      var fewer := us[..|us| - 1];
      assert all[..m] == ts + [n] + fewer;
      assert all[m] == us[|us| - 1] < all[|ts|];
      MaximaOfLower(ts, n, fewer);
    }
  }

  /** The first element is the only maximum exactly if no later one is greater. */
  lemma {:induction false} OneMaximum(ts: seq<nat>)
    requires ts != []
    ensures Maxima(ts) >= 1
    ensures Maxima(ts) == 1 <==> forall i | 0 < i < |ts| :: ts[i] <= ts[0]
  {
    var n := |ts| - 1;
    if n > 0 {
      var us := ts[..n];
      OneMaximum(us);
      if forall i | 0 < i < n :: us[i] <= us[0] {
        assert ts[n] > ts[0] <==> forall i | 0 <= i < n :: ts[i] < ts[n];
      } else {
        var i :| 0 < i < n && us[i] > us[0];
        assert ts[i] > ts[0];
      }
    } else {
      assert ts[..0] == [] && Maxima([]) == 0;
    }
  }

  lemma {:induction false} MaximaOfPrefix(ts: seq<nat>, k: nat)
    requires k <= |ts|
    ensures Maxima(ts[..k]) <= Maxima(ts)
  {
    if k < |ts| {
      var n := |ts| - 1;
      assert ts[..n][..k] == ts[..k];
      MaximaOfPrefix(ts[..n], k);
    } else {
      assert ts[..k] == ts;
    }
  }

  lemma FollowsLone(n: nat, us: seq<nat>)
    requires AllBelow(us, n)
    ensures Follows([n] + us) <==> Follows(us)
  {
    var all := [n] + us;
    assert forall i | 0 < i < |all| :: all[i] == us[i - 1];
    assert NextHigher(all) == |all|;
    assert all[1..|all|] == us;
  }

  /** The shape of `Follows`, for the index of the first element that is greater than the first one. */
  lemma FollowsFrom(times: seq<nat>, j: nat)
    requires 0 < j <= |times| && (forall i | 0 < i < j :: times[i] <= times[0])
    requires j < |times| ==> times[0] < times[j] && forall i | j < i < |times| :: times[i] <= times[j]
    ensures Follows(times) <==> Follows(times[1..j]) && (j < |times| ==> Follows(times[j + 1..]))
  {
    assert NextHigher(times) == j;
  }

  lemma FollowsOne(ts: seq<nat>, n: nat, us: seq<nat>)
    requires ts != [] && AllBelow(ts, n) && AllBelow(us, n) && forall i | 0 < i < |ts| :: ts[i] <= ts[0]
    ensures Follows(ts + [n] + us) <==> Follows(ts) && Follows(us)
  {
    hide Follows;
    var all := ts + [n] + us;
    assert forall i | 0 <= i < |ts| :: all[i] == ts[i];
    assert forall i | |ts| < i < |all| :: all[i] == us[i - |ts| - 1];
    FollowsFrom(all, |ts|);
    FollowsFrom(ts, |ts|);
    assert all[1..|ts|] == ts[1..|ts|] && all[|ts| + 1..] == us;
  }

  lemma FollowsNot(ts: seq<nat>, n: nat, us: seq<nat>, k: nat)
    requires AllBelow(ts, n) && 0 < k < |ts| && ts[k] > ts[0]
    ensures !Follows(ts + [n] + us)
  {
    var all := ts + [n] + us;
    assert all[0] == ts[0] && all[k] == ts[k];
    var j := NextHigher(all);
    assert j <= k && all[j] == ts[j] < n;
    assert all[|ts|] == n;
  }

  /** Joining a tree later than all before: the port had joined its root at once, and so had the port it joins. */
  lemma FollowsLower(ts: seq<nat>, n: nat, us: seq<nat>)
    requires AllBelow(ts, n) && AllBelow(us, n)
    ensures Follows(ts + [n] + us) <==> (ts == [] || (Maxima(ts) == 1 && Follows(ts))) && Follows(us)
  {
    hide Follows, Maxima, AllBelow;
    if ts == [] {
      assert ts + [n] + us == [n] + us;
      FollowsLone(n, us);
    } else {
      OneMaximum(ts);
      if Maxima(ts) == 1 {
        FollowsOne(ts, n, us);
      } else {
        var k :| 0 < k < |ts| && ts[k] > ts[0];
        FollowsNot(ts, n, us, k);
      }
    }
  }

  // -------------------------------------------------------------------------------------------- what a sequence leaves

  /** The binding times from `p` up, computed along the sequence: binding a root extends the times of its whole tree. */
  ghost function Times(ids: set<PortId>, bindings: seq<Binding>, p: PortId): seq<nat> {
    if bindings == [] then []
    else
      var n := |bindings| - 1;
      var before, last := bindings[..n], bindings[n];
      var root := RootsAfter(ids, before);
      if p in root && root[p] == last.1 then Times(ids, before, p) + [n] + Times(ids, before, last.0)
      else Times(ids, before, p)
  }

  /** The cell of `p` is in its tree, and it is the one of its root exactly if the binding times say so. */
  ghost predicate PortTracks(root: Bindings, w: Wiring, p: PortId, times: seq<nat>, n: nat) {
    && p in root && root[p] in root && root[root[p]] == root[p]
    && p in w.cell && w.cell[p] in root && root[w.cell[p]] == root[p]
    && (w.cell[p] == root[p] <==> Follows(times))
    && (times == [] <==> root[p] == p) && (root[p] == p ==> w.cell[p] == p)
    && AllBelow(times, n)
  }

  /** The cell of the root `r` records `q` exactly if `q` is on it, and is below it by its first and only binding. */
  ghost predicate RecordTracks(root: Bindings, w: Wiring, r: PortId, q: PortId, times: seq<nat>) {
    q in root && r in w.known
        && (q in w.known[r] <==> Maxima(times) == 1 && root[q] == r && q in w.cell && w.cell[q] == r)
  }

  ghost predicate Tracks(ids: set<PortId>, bindings: seq<Binding>, root: Bindings, w: Wiring) {
    && Rooted(Ups(bindings), root) && root.Keys == ids && w.cell.Keys == ids && w.known.Keys == ids
    && (forall p | p in ids :: PortTracks(root, w, p, Times(ids, bindings, p), |bindings|))
    && (forall r, q | r in ids && root[r] == r && q in ids :: RecordTracks(root, w, r, q, Times(ids, bindings, q)))
    && forall r | r in ids && root[r] == r :: w.known[r] <= ids
  }

  lemma BoundHasMaximum(times: seq<nat>)
    ensures Maxima(times) == 0 <==> times == []
  {
    if times != [] {
      OneMaximum(times);
    }
  }

  /** A binding at time `n` of the root `b` below `a`, for one port. */
  lemma PortStep(root: Bindings, w: Wiring, a: PortId, b: PortId, n: nat, m: nat, p: PortId,
                 tp: seq<nat>, ta: seq<nat>)
    requires m == n + 1 && PortTracks(root, w, a, ta, n) && PortTracks(root, w, b, [], n)
        && PortTracks(root, w, p, tp, n)
    requires RecordTracks(root, w, b, p, tp) && root[a] != b && IsWired(w, a) && IsWired(w, b)
    ensures PortTracks(Joined(root, a, b), Forwarded(w, a, b), p, if root[p] == b then tp + [n] + ta else tp, m)
  {
    hide Follows, Maxima;
    assert root[b] == b && w.cell[b] == b;
    if root[p] == b {
      FollowsLower(tp, n, ta);
      BoundHasMaximum(tp);
    }
  }

  lemma RecordStep(root: Bindings, w: Wiring, a: PortId, b: PortId, n: nat, r: PortId, q: PortId,
                   tq: seq<nat>, ta: seq<nat>)
    requires PortTracks(root, w, a, ta, n) && PortTracks(root, w, b, [], n) && PortTracks(root, w, q, tq, n)
    requires RecordTracks(root, w, r, q, tq) && RecordTracks(root, w, b, q, tq)
    requires r in root && root[r] == r && r != b && root[a] != b && IsWired(w, a) && IsWired(w, b)
    ensures RecordTracks(Joined(root, a, b), Forwarded(w, a, b), r, q, if root[q] == b then tq + [n] + ta else tq)
  {
    hide Follows, Maxima;
    assert root[b] == b && w.cell[b] == b;
    BoundHasMaximum([]);
    if root[q] == b {
      MaximaOfLower(tq, n, ta);
      BoundHasMaximum(tq);
    }
  }

  lemma UnboundTracks(ids: set<PortId>)
    ensures Tracks(ids, [], Unbound(ids).cell, Unbound(ids))
  {
    UnboundIsForest(ids);
    assert Maxima([]) == 0 && Follows([]);
    hide Rooted;
  }

  lemma TracksPort(ids: set<PortId>, bindings: seq<Binding>, root: Bindings, w: Wiring, p: PortId)
    requires Tracks(ids, bindings, root, w) && p in ids
    ensures PortTracks(root, w, p, Times(ids, bindings, p), |bindings|) && IsWired(w, p)
    ensures p !in Ups(bindings) ==> Times(ids, bindings, p) == [] && root[p] == p
  {
    assert PortTracks(root, w, p, Times(ids, bindings, p), |bindings|);
    if p !in Ups(bindings) {
      RootOfRoot(Ups(bindings), root, p);
    }
  }

  lemma TracksRecord(ids: set<PortId>, bindings: seq<Binding>, root: Bindings, w: Wiring, r: PortId, q: PortId)
    requires Tracks(ids, bindings, root, w) && r in ids && root[r] == r && q in ids
    ensures RecordTracks(root, w, r, q, Times(ids, bindings, q)) && w.known[r] <= ids
  {}

  lemma KeysStay(root: Bindings, w: Wiring, a: PortId, b: PortId)
    requires a in root && IsWired(w, a) && IsWired(w, b)
    ensures Joined(root, a, b).Keys == root.Keys
    ensures Forwarded(w, a, b).cell.Keys == w.cell.Keys && Forwarded(w, a, b).known.Keys == w.known.Keys
  {}

  lemma TimesStep(ids: set<PortId>, before: seq<Binding>, bindings: seq<Binding>, a: PortId, b: PortId, p: PortId)
    requires bindings == before + [(a, b)] && p in RootsAfter(ids, before)
    ensures Times(ids, bindings, p) ==
            if RootsAfter(ids, before)[p] == b then Times(ids, before, p) + [|before|] + Times(ids, before, a)
            else Times(ids, before, p)
    ensures Ups(bindings) == Ups(before)[b := a]
  {
    assert bindings[..|before|] == before && bindings[|before|] == (a, b);
    hide RootsAfter;
  }

  /** The roots after a binding were roots before it. */
  lemma RootStep(root: Bindings, w: Wiring, a: PortId, b: PortId, r: PortId)
    requires a in root && b in root && r in root && root[b] == b && root[a] != b && root[a] in root
        && root[root[a]] == root[a]
    requires Joined(root, a, b)[r] == r
    ensures root[r] == r && r != b
  {
    JoinedAt(root, a, b, r);
  }

  lemma RecordsStep(ids: set<PortId>, root: Bindings, w: Wiring, a: PortId, b: PortId, r: PortId)
    requires IsWired(w, a) && IsWired(w, b) && b in ids && r in w.known && w.known[r] <= ids
    ensures r in Forwarded(w, a, b).known && Forwarded(w, a, b).known[r] <= ids
  {
    ForwardedKnown(w, a, b, r);
  }

  lemma TracksIfEach(ids: set<PortId>, bindings: seq<Binding>, root: Bindings, w: Wiring)
    requires Rooted(Ups(bindings), root) && root.Keys == ids && w.cell.Keys == ids && w.known.Keys == ids
    requires forall p | p in ids :: PortTracks(root, w, p, Times(ids, bindings, p), |bindings|)
    requires forall r, q | r in ids && root[r] == r && q in ids :: RecordTracks(root, w, r, q, Times(ids, bindings, q))
    requires forall r | r in ids && root[r] == r :: w.known[r] <= ids
    ensures Tracks(ids, bindings, root, w)
  {
    hide PortTracks, RecordTracks, Rooted;
  }

  lemma TracksKeys(ids: set<PortId>, bindings: seq<Binding>, root: Bindings, w: Wiring)
    requires Tracks(ids, bindings, root, w)
    ensures Rooted(Ups(bindings), root) && root.Keys == ids && w.cell.Keys == ids && w.known.Keys == ids
  {}

  /** One more binding, for all ports and records. */
  lemma TracksStep(ids: set<PortId>, before: seq<Binding>, bindings: seq<Binding>, root: Bindings, w: Wiring,
                   a: PortId, b: PortId)
    requires Tracks(ids, before, root, w) && root == RootsAfter(ids, before) && root.Keys == ids
    requires bindings == before + [(a, b)] && a in ids && b in ids && b !in Ups(before) && root[a] != b
    ensures IsWired(w, a) && IsWired(w, b)
    ensures Tracks(ids, bindings, Joined(root, a, b), Forwarded(w, a, b))
  {
    hide Follows, Maxima, RecordTracks, Rooted, Joined, Forwarded, Ups, Times, RootsAfter, Tracks, WiringAfter;
    TracksKeys(ids, before, root, w);
    TracksPort(ids, before, root, w, a);
    TracksPort(ids, before, root, w, b);
    TimesStep(ids, before, bindings, a, b, a);
    JoinedIsRooted(Ups(before), root, a, b);
    KeysStay(root, w, a, b);
    var n, m, ta := |before|, |bindings|, Times(ids, before, a);
    var next, v := Joined(root, a, b), Forwarded(w, a, b);
    assert root[b] == b && root[a] in root && root[root[a]] == root[a];
    hide PortTracks;
    forall p | p in ids
      ensures PortTracks(next, v, p, Times(ids, bindings, p), m)
    {
      TracksPort(ids, before, root, w, p);
      TracksRecord(ids, before, root, w, b, p);
      TimesStep(ids, before, bindings, a, b, p);
      PortStep(root, w, a, b, n, m, p, Times(ids, before, p), ta);
    }
    forall r | r in ids && next[r] == r
      ensures root[r] == r && r != b && v.known[r] <= ids
    {
      RootStep(root, w, a, b, r);
      TracksRecord(ids, before, root, w, r, r);
      RecordsStep(ids, root, w, a, b, r);
    }
    forall r, q | r in ids && next[r] == r && q in ids
      ensures RecordTracks(next, v, r, q, Times(ids, bindings, q))
    {
      TracksPort(ids, before, root, w, q);
      TracksRecord(ids, before, root, w, r, q);
      TracksRecord(ids, before, root, w, b, q);
      TimesStep(ids, before, bindings, a, b, q);
      RecordStep(root, w, a, b, n, r, q, Times(ids, before, q), ta);
    }
    TracksIfEach(ids, bindings, next, v);
  }

  /** A sequence of bindings that form a forest. */
  lemma {:induction false} ForestTracks(ids: set<PortId>, bindings: seq<Binding>)
    requires FormForest(ids, bindings)
    ensures Tracks(ids, bindings, RootsAfter(ids, bindings), WiringAfter(ids, bindings))
    decreases bindings
  {
    hide Tracks;
    if bindings == [] {
      UnboundTracks(ids);
    } else {
      var n := |bindings| - 1;
      var before, last := bindings[..n], bindings[n];
      ForestTracks(ids, before);
      assert bindings == before + [(last.0, last.1)];
      TracksKeys(ids, before, RootsAfter(ids, before), WiringAfter(ids, before));
      TracksStep(ids, before, bindings, RootsAfter(ids, before), WiringAfter(ids, before), last.0, last.1);
    }
  }

  // ------------------------------------------------------------------------------------------------ times along a path

  lemma {:induction false} ForestBindsOnce(ids: set<PortId>, bindings: seq<Binding>)
    requires FormForest(ids, bindings)
    ensures BoundOnce(bindings)
    ensures forall i | 0 <= i < |bindings| :: bindings[i].0 in ids && bindings[i].1 in ids
    decreases bindings
  {
    if bindings != [] {
      var n := |bindings| - 1;
      var before := bindings[..n];
      ForestBindsOnce(ids, before);
      UpsContents(before);
      hide RootsAfter, FormForest, Ups;
      assert forall i | 0 <= i < n :: bindings[i] == before[i];
    }
  }

  /** The times along a path are determined. */
  lemma TimesAreUnique(bindings: seq<Binding>, p: PortId, ts: seq<nat>, us: seq<nat>)
    requires BoundOnce(bindings) && AreTimes(bindings, p, ts) && AreTimes(bindings, p, us)
    ensures ts == us
  {
    UpsContents(bindings);
    var up := Ups(bindings);
    assert forall i | 0 <= i < |ts| :: Climb(up, p, i) in up;
    assert forall i | 0 <= i < |us| :: Climb(up, p, i) in up;
    hide Climb, Ups;
    assert |ts| == |us|;
    forall i | 0 <= i < |ts|
      ensures ts[i] == us[i]
    {
      assert bindings[ts[i]].1 == bindings[us[i]].1;
    }
  }

  lemma {:induction false} ClimbSame(up: Bindings, a: PortId, b: PortId, p: PortId, n: nat)
    requires b !in up && forall i: nat | i < n :: Climb(up, p, i) in up
    ensures Climb(up[b := a], p, n) == Climb(up, p, n)
    decreases n
  {
    if n > 0 {
      assert Climb(up, p, 0) in up;
      forall i: nat | i < n - 1
        ensures Climb(up, up[p], i) in up
      {
        assert Climb(up, p, i + 1) in up;
      }
      ClimbSame(up, a, b, up[p], n - 1);
    }
  }

  /** The path of a port whose root stays unbound. */
  lemma TimesStay(before: seq<Binding>, bindings: seq<Binding>, root: Bindings, a: PortId, b: PortId, p: PortId,
                  ts: seq<nat>)
    requires bindings == before + [(a, b)] && Ups(bindings) == Ups(before)[b := a] && b !in Ups(before)
    requires Rooted(Ups(before), root) && p in root && root[p] != b && AreTimes(before, p, ts)
    ensures AreTimes(bindings, p, ts)
    ensures forall i | 0 <= i <= |ts| :: Climb(Ups(bindings), p, i) == Climb(Ups(before), p, i)
  {
    var up := Ups(before);
    UpsContents(before);
    assert forall i: nat | i < |ts| :: Climb(up, p, i) in up;
    forall i: nat | i <= |ts|
      ensures Climb(up[b := a], p, i) == Climb(up, p, i)
    {
      ClimbSame(up, a, b, p, i);
    }
    RootAtEnd(up, root, p, |ts|);
    hide Climb, Ups, Rooted;
    assert forall i | 0 <= i < |ts| :: bindings[ts[i]] == before[ts[i]];
  }

  lemma RootAtEnd(up: Bindings, root: Bindings, p: PortId, n: nat)
    requires Rooted(up, root) && p in root && Climb(up, p, n) !in up
    ensures root[p] == Climb(up, p, n)
  {
    assert IsRoot(up, p, Climb(up, p, n)) && IsRoot(up, p, root[p]);
    RootIsUnique(up, p, Climb(up, p, n), root[p]);
  }

  /** The path of a port whose root is bound now: it goes on with the path of the port above. */
  lemma TimesExtended(before: seq<Binding>, bindings: seq<Binding>, root: Bindings, a: PortId, b: PortId, p: PortId,
                      ts: seq<nat>, us: seq<nat>)
    requires bindings == before + [(a, b)] && Ups(bindings) == Ups(before)[b := a] && b !in Ups(before)
    requires Rooted(Ups(before), root) && p in root && root[p] == b && a in root && root[a] != b
    requires AreTimes(before, p, ts) && AreTimes(before, a, us)
    ensures AreTimes(bindings, p, ts + [|before|] + us)
  {
    var up, next := Ups(before), Ups(bindings);
    RootAtEnd(up, root, p, |ts|);
    TimesStay(before, bindings, root, a, b, a, us);
    BoundBelow(before, p, ts);
    BoundBelow(before, a, us);
    hide Rooted, AreTimes, Ups;
    forall i: nat | i <= |ts|
      ensures Climb(next, p, i) == Climb(up, p, i)
    {
      ClimbSame(up, a, b, p, i);
    }
    ExtendedTimes(before, bindings, a, b, p, ts, us);
  }

  lemma BoundBelow(bindings: seq<Binding>, p: PortId, ts: seq<nat>)
    requires AreTimes(bindings, p, ts)
    ensures forall i: nat | i < |ts| :: ts[i] < |bindings| && Climb(Ups(bindings), p, i) in Ups(bindings)
  {
    UpsContents(bindings);
    hide Climb, Ups;
  }

  lemma ClimbBeyond(up: Bindings, a: PortId, b: PortId, p: PortId, n: nat, i: nat)
    requires Climb(up, p, n) == b && b in up && up[b] == a
    ensures Climb(up, p, n + 1 + i) == Climb(up, a, i)
  {
    ClimbOn(up, p, n, 1 + i);
    assert Climb(up, b, 1 + i) == Climb(up, a, i);
    assert n + (1 + i) == n + 1 + i;
  }

  lemma ExtendedTimes(before: seq<Binding>, bindings: seq<Binding>, a: PortId, b: PortId, p: PortId,
                      ts: seq<nat>, us: seq<nat>)
    requires bindings == before + [(a, b)] && AreTimes(before, p, ts) && AreTimes(bindings, a, us)
    requires forall i | 0 <= i < |us| :: us[i] < |before|
    requires forall i: nat | i <= |ts| :: Climb(Ups(bindings), p, i) == Climb(Ups(before), p, i)
    requires Climb(Ups(before), p, |ts|) == b
    requires b in Ups(bindings) && Ups(bindings)[b] == a
    ensures AreTimes(bindings, p, ts + [|before|] + us)
  {
    hide Climb, Ups;
    var all := ts + [|before|] + us;
    ClimbBeyond(Ups(bindings), a, b, p, |ts|, |us|);
    forall i | 0 <= i < |all|
      ensures all[i] < |bindings| && bindings[all[i]].1 == Climb(Ups(bindings), p, i)
    {
      if i < |ts| {
        assert bindings[ts[i]] == before[ts[i]];
      } else if i > |ts| {
        var k := i - |ts| - 1;
        ClimbBeyond(Ups(bindings), a, b, p, |ts|, k);
        assert all[i] == us[k] && |ts| + 1 + k == i;
      }
    }
  }

  /** In a forest the times that were computed along the sequence are the binding times along the path. */
  lemma {:induction false} ForestTimes(ids: set<PortId>, bindings: seq<Binding>, p: PortId)
    requires FormForest(ids, bindings) && p in ids
    ensures AreTimes(bindings, p, Times(ids, bindings, p))
    decreases bindings
  {
    if bindings != [] {
      var n := |bindings| - 1;
      var before, a, b := bindings[..n], bindings[n].0, bindings[n].1;
      var root := RootsAfter(ids, before);
      assert bindings == before + [(a, b)];
      ForestTracks(ids, before);
      TracksKeys(ids, before, root, WiringAfter(ids, before));
      ForestTimes(ids, before, p);
      ForestTimes(ids, before, a);
      TimesStep(ids, before, bindings, a, b, p);
      hide Tracks, Rooted, Climb, Times, AreTimes, RootsAfter, Ups;
      if root[p] == b {
        TimesExtended(before, bindings, root, a, b, p, Times(ids, before, p), Times(ids, before, a));
      } else {
        TimesStay(before, bindings, root, a, b, p, Times(ids, before, p));
      }
    }
  }

  // ----------------------------------------------------------------------------------------------- the exact condition

  lemma {:induction false} TwoMaxima(ts: seq<nat>, j: nat)
    requires 0 < j < |ts| && (forall i | 0 <= i < j :: ts[i] <= ts[0]) && ts[0] < ts[j]
    requires forall i | j < i < |ts| :: ts[i] <= ts[j]
    ensures Maxima(ts) == 2
    decreases |ts|
  {
    var n := |ts| - 1;
    var us := ts[..n];
    if j == n {
      OneMaximum(us);
      assert forall i | 0 <= i < n :: ts[i] < ts[n];
    } else {
      TwoMaxima(us, j);
      assert ts[j] >= ts[n];
    }
  }

  lemma ThreeMaxima(ts: seq<nat>, j: nat, k: nat)
    requires 0 < j < k < |ts| && (forall i | 0 <= i < j :: ts[i] <= ts[0]) && ts[0] < ts[j]
    requires (forall i | j < i < k :: ts[i] <= ts[j]) && ts[j] < ts[k]
    ensures Maxima(ts) >= 3
  {
    TwoMaxima(ts[..k], j);
    var us := ts[..k + 1];
    assert us[..k] == ts[..k] && us[k] == ts[k];
    assert forall i | 0 <= i < k :: us[i] < us[k];
    MaximaOfPrefix(ts, k + 1);
  }

  lemma FirstAbove(ts: seq<nat>, j: nat, m: nat) returns (k: nat)
    requires j < m < |ts| && ts[m] > ts[j]
    ensures j < k < |ts| && ts[k] > ts[j] && forall i | j < i < k :: ts[i] <= ts[j]
  {
    k := j + 1;
    while ts[k] <= ts[j]
      invariant j < k <= m && forall i | j < i < k :: ts[i] <= ts[j]
      decreases m - k
    {
      k := k + 1;
    }
  }

  lemma FollowsHasFew(ts: seq<nat>)
    requires Follows(ts)
    ensures Maxima(ts) <= 2
  {
    if ts != [] {
      var j := NextHigher(ts);
      if j == |ts| {
        OneMaximum(ts);
      } else {
        TwoMaxima(ts, j);
      }
    }
  }

  ghost predicate FewOnSuffixes(ts: seq<nat>) {
    forall k | 0 <= k <= |ts| :: Maxima(ts[k..]) <= 2
  }

  lemma PartHasFew(ts: seq<nat>, lo: nat, hi: nat)
    requires FewOnSuffixes(ts) && lo <= hi <= |ts|
    ensures FewOnSuffixes(ts[lo..hi])
  {
    var us := ts[lo..hi];
    hide Maxima;
    forall k | 0 <= k <= |us|
      ensures Maxima(us[k..]) <= 2
    {
      var j, n := lo + k, hi - lo - k;
      assert us[k..] == ts[j..][..n];
      MaximaOfPrefix(ts[j..], n);
      assert Maxima(ts[j..]) <= 2;
    }
  }

  lemma NoLaterMaximum(ts: seq<nat>, j: nat)
    requires ts != [] && Maxima(ts) <= 2 && j == NextHigher(ts) < |ts|
    ensures forall i | j < i < |ts| :: ts[i] <= ts[j]
  {
    if m :| j < m < |ts| && ts[m] > ts[j] {
      var k := FirstAbove(ts, j, m);
      ThreeMaxima(ts, j, k);
    }
  }

  lemma {:induction false} FollowsIfFew(ts: seq<nat>)
    requires FewOnSuffixes(ts)
    ensures Follows(ts)
    decreases |ts|
  {
    hide Maxima;
    if ts != [] {
      var j := NextHigher(ts);
      assert ts[0..] == ts;
      assert Maxima(ts[0..]) <= 2;
      PartHasFew(ts, 1, j);
      FollowsIfFew(ts[1..j]);
      if j < |ts| {
        NoLaterMaximum(ts, j);
        PartHasFew(ts, j + 1, |ts|);
        assert ts[j + 1..|ts|] == ts[j + 1..];
        FollowsIfFew(ts[j + 1..]);
      }
      hide FewOnSuffixes;
    }
  }

  lemma ClimbAt(up: Bindings, p: PortId, k: nat, i: nat, m: nat)
    requires m == k + i
    ensures Climb(up, p, m) == Climb(up, Climb(up, p, k), i)
  {
    ClimbOn(up, p, k, i);
  }

  lemma TimeAt(bindings: seq<Binding>, p: PortId, ts: seq<nat>, k: nat, i: nat, m: nat)
    requires AreTimes(bindings, p, ts) && m == k + i < |ts|
    ensures ts[m] < |bindings| && bindings[ts[m]].1 == Climb(Ups(bindings), Climb(Ups(bindings), p, k), i)
  {
    ClimbAt(Ups(bindings), p, k, i, m);
    hide Climb, Ups;
  }

  lemma EndOfPath(bindings: seq<Binding>, p: PortId, ts: seq<nat>)
    requires AreTimes(bindings, p, ts)
    ensures Climb(Ups(bindings), p, |ts|) !in Ups(bindings)
  {
    hide Climb, Ups;
  }

  lemma AreTimesIfEach(bindings: seq<Binding>, q: PortId, us: seq<nat>)
    requires Climb(Ups(bindings), q, |us|) !in Ups(bindings)
    requires forall i | 0 <= i < |us| :: us[i] < |bindings| && bindings[us[i]].1 == Climb(Ups(bindings), q, i)
    ensures AreTimes(bindings, q, us)
  {
    hide Climb, Ups;
  }

  /** The times along the rest of a path are those of the ports on it. */
  lemma SuffixTimes(bindings: seq<Binding>, p: PortId, ts: seq<nat>, k: nat)
    requires AreTimes(bindings, p, ts) && k <= |ts|
    ensures AreTimes(bindings, Climb(Ups(bindings), p, k), ts[k..])
  {
    hide AreTimes, Climb, Ups;
    var up, q, us := Ups(bindings), Climb(Ups(bindings), p, k), ts[k..];
    var n := |us|;
    assert n == |ts| - k;
    EndOfPath(bindings, p, ts);
    ClimbAt(up, p, k, n, |ts|);
    forall i | 0 <= i < n
      ensures us[i] < |bindings| && bindings[us[i]].1 == Climb(up, q, i)
    {
      TimeAt(bindings, p, ts, k, i, k + i);
    }
    AreTimesIfEach(bindings, q, us);
  }

  lemma {:induction false} ClimbStays(up: Bindings, root: Bindings, p: PortId, k: nat)
    requires Rooted(up, root) && p in root
    ensures Climb(up, p, k) in root && root[Climb(up, p, k)] == root[p]
    decreases k
  {
    if k > 0 && p in up {
      assert up[p] in up.Values;
      assert IsRoot(up, p, root[p]) && IsRoot(up, up[p], root[up[p]]);
      var n: nat :| Climb(up, p, n) == root[p];
      assert n > 0 && Climb(up, up[p], n - 1) == root[p];
      RootIsUnique(up, up[p], root[up[p]], root[p]);
      ClimbStays(up, root, up[p], k - 1);
    }
  }

  /** A port uses the cell of its root exactly if its binding times say that it follows it. */
  lemma OnRootIffFollows(ids: set<PortId>, bindings: seq<Binding>, p: PortId, ts: seq<nat>)
    requires FormForest(ids, bindings) && p in ids && AreTimes(bindings, p, ts)
    ensures p in RootsAfter(ids, bindings) && p in WiringAfter(ids, bindings).cell
    ensures WiringAfter(ids, bindings).cell[p] == RootsAfter(ids, bindings)[p] <==> Follows(ts)
  {
    ForestTracks(ids, bindings);
    TracksPort(ids, bindings, RootsAfter(ids, bindings), WiringAfter(ids, bindings), p);
    ForestTimes(ids, bindings, p);
    ForestBindsOnce(ids, bindings);
    TimesAreUnique(bindings, p, ts, Times(ids, bindings, p));
  }

  ghost predicate AllOnRoots(ids: set<PortId>, root: Bindings, w: Wiring) {
    forall p | p in ids :: p in root && p in w.cell && w.cell[p] == root[p]
  }

  /** On the paths from the ports to their roots, the binding times rise to a new maximum at most once. */
  ghost predicate FewMaxima(ids: set<PortId>, bindings: seq<Binding>) {
    forall p, ts: seq<nat> | p in ids && AreTimes(bindings, p, ts) :: Maxima(ts) <= 2
  }

  /**
   After bindings that form a forest, all ports use the cells of their roots if and only if, on the path from each
   port to its root, the binding times have at most two left-to-right maxima.
   */
  lemma AllOnRootsIffFewMaxima(ids: set<PortId>, bindings: seq<Binding>)
    requires FormForest(ids, bindings)
    ensures AllOnRoots(ids, RootsAfter(ids, bindings), WiringAfter(ids, bindings)) <==> FewMaxima(ids, bindings)
  {
    var root, w := RootsAfter(ids, bindings), WiringAfter(ids, bindings);
    ForestTracks(ids, bindings);
    TracksKeys(ids, bindings, root, w);
    hide AreTimes, Maxima, Follows, RootsAfter, WiringAfter, FormForest, Tracks, Rooted;
    if AllOnRoots(ids, root, w) {
      forall p, ts: seq<nat> | p in ids && AreTimes(bindings, p, ts)
        ensures Maxima(ts) <= 2
      {
        OnRootIffFollows(ids, bindings, p, ts);
        FollowsHasFew(ts);
      }
    }
    if FewMaxima(ids, bindings) {
      forall p | p in ids
        ensures p in root && p in w.cell && w.cell[p] == root[p]
      {
        var ts := Times(ids, bindings, p);
        ForestTimes(ids, bindings, p);
        FollowsOnPath(ids, bindings, p, ts, 2);
        OnRootIffFollows(ids, bindings, p, ts);
      }
    }
  }

  /** Few maxima on all paths of the tree of `p` make `p` follow its root. */
  lemma FollowsOnPath(ids: set<PortId>, bindings: seq<Binding>, p: PortId, ts: seq<nat>, most: nat)
    requires FormForest(ids, bindings) && p in ids && AreTimes(bindings, p, ts) && most <= 2
    requires p in RootsAfter(ids, bindings)
    requires forall q, us: seq<nat> | q in ids && q in RootsAfter(ids, bindings)
      && RootsAfter(ids, bindings)[q] == RootsAfter(ids, bindings)[p] && AreTimes(bindings, q, us) :: Maxima(us) <= most
    ensures Follows(ts)
  {
    var root := RootsAfter(ids, bindings);
    ForestTracks(ids, bindings);
    TracksKeys(ids, bindings, root, WiringAfter(ids, bindings));
    hide AreTimes, Maxima, Follows, RootsAfter, WiringAfter, FormForest, Tracks, Rooted;
    forall k | 0 <= k <= |ts|
      ensures Maxima(ts[k..]) <= 2
    {
      SuffixTimes(bindings, p, ts, k);
      ClimbStays(Ups(bindings), root, p, k);
    }
    assert FewOnSuffixes(ts);
    FollowsIfFew(ts);
  }

  /**
   A binding below a port of its own tree is reported as a cycle if and only if that port has the only maximum of the
   times on its path, and is on the cell of its root. No other binding is reported.
   */
  lemma CycleReportedIff(ids: set<PortId>, bindings: seq<Binding>, a: PortId, b: PortId, ts: seq<nat>)
    requires FormForest(ids, bindings) && a in ids && b in ids && b !in Ups(bindings) && AreTimes(bindings, a, ts)
    ensures a in RootsAfter(ids, bindings)
    ensures ReportsCycle(WiringAfter(ids, bindings), a, b) <==>
            RootsAfter(ids, bindings)[a] == b && Maxima(ts) == 1 && Follows(ts)
  {
    var root, w := RootsAfter(ids, bindings), WiringAfter(ids, bindings);
    ForestTracks(ids, bindings);
    TracksPort(ids, bindings, root, w, a);
    TracksPort(ids, bindings, root, w, b);
    TracksRecord(ids, bindings, root, w, b, a);
    ForestTimes(ids, bindings, a);
    ForestBindsOnce(ids, bindings);
    TimesAreUnique(bindings, a, ts, Times(ids, bindings, a));
    hide Follows, Maxima, Tracks, Times, RootsAfter, WiringAfter;
  }

  /** The ports of the tree of `b`. */
  ghost predicate InTree(root: Bindings, b: PortId, a: PortId) {
    a in root && root[a] == b
  }

  /**
    Every binding of the root `b` below a port of its tree is reported exactly if times only fall on all paths to
    `b`.
  */
  lemma AllCyclesReportedIff(ids: set<PortId>, bindings: seq<Binding>, b: PortId)
    requires FormForest(ids, bindings) && b in ids && b !in Ups(bindings)
    ensures (forall a | InTree(RootsAfter(ids, bindings), b, a) && a != b ::
        ReportsCycle(WiringAfter(ids, bindings), a, b)) <==>
            (forall a, ts: seq<nat> | InTree(RootsAfter(ids, bindings), b, a) && AreTimes(bindings, a, ts) ::
                Maxima(ts) <= 1)
  {
    var root, w := RootsAfter(ids, bindings), WiringAfter(ids, bindings);
    ForestTracks(ids, bindings);
    TracksKeys(ids, bindings, root, w);
    TracksPort(ids, bindings, root, w, b);
    ForestTimes(ids, bindings, b);
    hide AreTimes, Maxima, Follows, RootsAfter, WiringAfter, FormForest, Tracks, ReportsCycle, Rooted, PortTracks,
        Times;
    if forall a | InTree(root, b, a) && a != b :: ReportsCycle(w, a, b) {
      forall a, ts: seq<nat> | InTree(root, b, a) && AreTimes(bindings, a, ts)
        ensures Maxima(ts) <= 1
      {
        if a == b {
          TimesOfRoot(bindings, b, ts);
        } else {
          CycleReportedIff(ids, bindings, a, b, ts);
        }
      }
    }
    if forall a, ts: seq<nat> | InTree(root, b, a) && AreTimes(bindings, a, ts) :: Maxima(ts) <= 1 {
      forall a | InTree(root, b, a) && a != b
        ensures ReportsCycle(w, a, b)
      {
        var ts := Times(ids, bindings, a);
        ForestTimes(ids, bindings, a);
        assert forall q | q in root && root[q] == root[a] :: InTree(root, b, q);
        FollowsOnPath(ids, bindings, a, ts, 1);
        TimesOfBound(ids, bindings, root, w, a, ts);
        CycleReportedIff(ids, bindings, a, b, ts);
      }
    }
  }

  lemma TimesOfRoot(bindings: seq<Binding>, b: PortId, ts: seq<nat>)
    requires b !in Ups(bindings) && AreTimes(bindings, b, ts)
    ensures ts == [] && Maxima(ts) == 0
  {
    if ts != [] {
      UpsContents(bindings);
      assert Climb(Ups(bindings), b, 0) == b;
    }
  }

  lemma TimesOfBound(ids: set<PortId>, bindings: seq<Binding>, root: Bindings, w: Wiring, a: PortId, ts: seq<nat>)
    requires Tracks(ids, bindings, root, w) && a in ids && root[a] != a && ts == Times(ids, bindings, a)
    ensures Maxima(ts) >= 1
  {
    TracksPort(ids, bindings, root, w, a);
    BoundHasMaximum(ts);
  }

  // ------------------------------------------------------------------------------------------------------- on the heap

  lemma {:induction false} AcceptedPrefix(ids: set<PortId>, bindings: seq<Binding>, k: nat)
    requires Accepted(ids, bindings) && k <= |bindings|
    ensures Accepted(ids, bindings[..k])
    decreases bindings
  {
    if k < |bindings| {
      var before := bindings[..|bindings| - 1];
      AcceptedPrefix(ids, before, k);
      assert before[..k] == bindings[..k];
    } else {
      assert bindings[..k] == bindings;
    }
  }

  lemma OneMoreAccepted(ids: set<PortId>, bindings: seq<Binding>, n: nat, next: nat)
    requires next == n + 1 <= |bindings| && Accepted(ids, bindings[..n])
    requires IsWired(WiringAfter(ids, bindings[..n]), bindings[n].0)
        && IsWired(WiringAfter(ids, bindings[..n]), bindings[n].1)
    ensures Accepted(ids, bindings[..next]) <==>
            bindings[n].1 !in Ups(bindings[..n])
                && !ReportsCycle(WiringAfter(ids, bindings[..n]), bindings[n].0, bindings[n].1)
    ensures Ups(bindings[..next]) == Ups(bindings[..n])[bindings[n].1 := bindings[n].0]
    ensures WiringAfter(ids, bindings[..next]) ==
        Forwarded(WiringAfter(ids, bindings[..n]), bindings[n].0, bindings[n].1)
  {
    assert bindings[..next][..n] == bindings[..n] && bindings[..next][n] == bindings[n];
    hide ReportsCycle, Forwarded;
  }

  /** `bind_ports` again and again, up to the first error: exactly the accepted sequences succeed. */
  method BindAll(ports: map<PortId, Port>, bindings: seq<Binding>) returns (r: Result<(), BindError>)
    requires IsNetwork(ports) && Represents(ports, map[], Unbound(ports.Keys))
    requires forall i | 0 <= i < |bindings| ::
      bindings[i].0 in ports && bindings[i].1 in ports && bindings[i].0 != bindings[i].1
    modifies Objects(ports), Refs(ports), Cells(ports)`downstreams
    ensures r.Success? <==> Accepted(ports.Keys, bindings)
    ensures r.Success? ==> Represents(ports, Ups(bindings), WiringAfter(ports.Keys, bindings))
  {
    ghost var ids, up := ports.Keys, Ups([]);
    assert up == map[] && Accepted(ids, []) && bindings[..0] == [] && WiringAfter(ids, []) == Unbound(ids);
    hide IsNetwork, Represents, Objects, Refs, Cells, Forwarded, Unbound, Ups, Accepted, WiringAfter;
    ghost var w := WiringAfter(ids, []);
    var n := 0;
    while n < |bindings|
      invariant 0 <= n <= |bindings|
      invariant up == Ups(bindings[..n]) && w == WiringAfter(ids, bindings[..n]) && Accepted(ids, bindings[..n])
      invariant Represents(ports, up, w)
    {
      ghost var a, b := bindings[n].0, bindings[n].1;
      InCells(ports, a);
      InCells(ports, b);
      r := Bind(ports, up, w, ports[bindings[n].0], ports[bindings[n].1]);
      var next := n + 1;
      OneMoreAccepted(ids, bindings, n, next);
      if r.Failure? {
        if Accepted(ids, bindings) {
          AcceptedPrefix(ids, bindings, next);
        }
        return;
      }
      up, w := up[b := a], Forwarded(w, a, b);
      n := next;
    }
    assert bindings[..n] == bindings;
    r := Success(());
  }

  /** Bindings that form a forest are accepted. */
  lemma {:induction false} ForestIsAccepted(ids: set<PortId>, bindings: seq<Binding>)
    requires FormForest(ids, bindings)
    ensures Accepted(ids, bindings)
    decreases bindings
  {
    if bindings != [] {
      var n := |bindings| - 1;
      var before, a, b := bindings[..n], bindings[n].0, bindings[n].1;
      ForestIsAccepted(ids, before);
      ForestTimes(ids, before, a);
      CycleReportedIff(ids, before, a, b, Times(ids, before, a));
      hide ReportsCycle, Times, AreTimes, RootsAfter, WiringAfter;
    }
  }

  // ------------------------------------------------------------------------------------------------- bindings in order

  lemma InOrderPrefix(bindings: seq<Binding>, n: nat)
    requires InOrder(bindings) && BoundOnce(bindings) && |bindings| == n + 1
    ensures InOrder(bindings[..n]) && BoundOnce(bindings[..n])
    ensures bindings[n].0 != bindings[n].1 && bindings[n].1 !in Ups(bindings[..n])
        && bindings[n].1 !in Ups(bindings[..n]).Values
  {
    var before := bindings[..n];
    UpsContents(before);
    hide Ups;
    assert forall i | 0 <= i < n :: before[i] == bindings[i];
  }

  /** Bindings in order form a forest, in which every cell records its whole tree. */
  lemma {:induction false} InOrderFormForest(ids: set<PortId>, bindings: seq<Binding>)
    requires InOrder(bindings) && BoundOnce(bindings)
    requires forall i | 0 <= i < |bindings| :: bindings[i].0 in ids && bindings[i].1 in ids
    ensures FormForest(ids, bindings)
    ensures IsForest(Ups(bindings), RootsAfter(ids, bindings), WiringAfter(ids, bindings))
    ensures AllCovered(Ups(bindings), RootsAfter(ids, bindings), WiringAfter(ids, bindings))
    decreases bindings
  {
    if bindings == [] {
      UnboundIsForest(ids);
    } else {
      var n := |bindings| - 1;
      var before, a, b := bindings[..n], bindings[n].0, bindings[n].1;
      InOrderPrefix(bindings, n);
      InOrderFormForest(ids, before);
      var up, root, w := Ups(before), RootsAfter(ids, before), WiringAfter(ids, before);
      ForestTracks(ids, before);
      TracksKeys(ids, before, root, w);
      hide InOrder, BoundOnce, Tracks, IsForest, AllCovered, Joined, Forwarded, Rooted;
      NotOwnTree(up, root, w, a, b);
      NextInOrder(up, root, w, a, b);
    }
  }

  lemma NotOwnTree(up: Bindings, root: Bindings, w: Wiring, a: PortId, b: PortId)
    requires Rooted(up, root) && a in root && b in root && a != b && b !in up.Values
    ensures root[a] != b
  {
    LeafIfUnused(up, root, b);
    hide Rooted;
  }

  lemma {:induction false} AcceptedBindsOnce(ids: set<PortId>, bindings: seq<Binding>)
    requires Accepted(ids, bindings)
    ensures BoundOnce(bindings)
    decreases bindings
  {
    if bindings != [] {
      var n := |bindings| - 1;
      var before := bindings[..n];
      AcceptedBindsOnce(ids, before);
      UpsContents(before);
      hide Accepted, Ups;
      assert forall i | 0 <= i < n :: bindings[i] == before[i];
    }
  }

  /** Any sequence of bindings in order. */
  method BindInOrder(ports: map<PortId, Port>, bindings: seq<Binding>)
    returns (r: Result<(), BindError>, ghost root: Bindings, ghost w: Wiring)
    requires IsNetwork(ports) && Represents(ports, map[], Unbound(ports.Keys))
    requires InOrder(bindings) && forall i | 0 <= i < |bindings| :: bindings[i].0 in ports && bindings[i].1 in ports
    modifies Objects(ports), Refs(ports), Cells(ports)`downstreams
    ensures r.Success? <==> BoundOnce(bindings)
    ensures r.Success? ==> Represents(ports, Ups(bindings), w) && IsForest(Ups(bindings), root, w)
  {
    hide IsNetwork, Represents, IsForest, AllCovered, Unbound, Ups, BoundOnce, Accepted, WiringAfter, RootsAfter,
        FormForest;
    ghost var ids := ports.Keys;
    root, w := RootsAfter(ids, bindings), WiringAfter(ids, bindings);
    r := BindAll(ports, bindings);
    if BoundOnce(bindings) {
      InOrderFormForest(ids, bindings);
      ForestIsAccepted(ids, bindings);
    }
    if Accepted(ids, bindings) {
      AcceptedBindsOnce(ids, bindings);
    }
  }

  // ------------------------------------------------------------------------------------------------------ two failures

  const FIRST_TWO: seq<Binding> := [(2, 3), (1, 2)]
  const ALL_THREE: seq<Binding> := [(2, 3), (1, 2), (0, 1)]
  const WITH_CYCLE: seq<Binding> := [(2, 3), (1, 2), (3, 1)]

  lemma FirstBinding(ids: set<PortId>)
    requires ids == {0, 1, 2, 3}
    ensures var one: seq<Binding> := [(2, 3)];
            && Ups(one) == map[3 := 2] && FormForest(ids, one)
            && RootsAfter(ids, one) == map[0 := 0, 1 := 1, 2 := 2, 3 := 2]
  {
    var one: seq<Binding> := [(2, 3)];
    assert one[..0] == [];
    assert RootsAfter(ids, []) == map[0 := 0, 1 := 1, 2 := 2, 3 := 3];
    assert Ups(one[..0]) == map[] && FormForest(ids, one[..0]);
  }

  lemma SecondBinding(ids: set<PortId>)
    requires ids == {0, 1, 2, 3}
    ensures Ups(FIRST_TWO) == map[3 := 2, 2 := 1] && FormForest(ids, FIRST_TWO)
    ensures RootsAfter(ids, FIRST_TWO) == map[0 := 0, 1 := 1, 2 := 1, 3 := 1]
  {
    FirstBinding(ids);
    var one: seq<Binding> := [(2, 3)];
    assert FIRST_TWO[..1] == one;
    hide Ups, RootsAfter, FormForest;
    LastBinding(ids, one, FIRST_TWO, 1, 2);
    assert Joined(map[0 := 0, 1 := 1, 2 := 2, 3 := 2], 1, 2) == map[0 := 0, 1 := 1, 2 := 1, 3 := 1];
  }

  lemma LastBinding(ids: set<PortId>, before: seq<Binding>, bindings: seq<Binding>, a: PortId, b: PortId)
    requires bindings == before + [(a, b)] && FormForest(ids, before) && a in ids && b in ids && b !in Ups(before)
    requires a in RootsAfter(ids, before) && RootsAfter(ids, before)[a] != b
    ensures Ups(bindings) == Ups(before)[b := a] && FormForest(ids, bindings)
    ensures RootsAfter(ids, bindings) == Joined(RootsAfter(ids, before), a, b)
  {
    assert bindings[..|before|] == before && bindings[|before|] == (a, b);
    hide Joined;
  }

  lemma ThirdBinding(ids: set<PortId>)
    requires ids == {0, 1, 2, 3}
    ensures Ups(ALL_THREE) == map[3 := 2, 2 := 1, 1 := 0] && FormForest(ids, ALL_THREE)
    ensures RootsAfter(ids, ALL_THREE) == map[0 := 0, 1 := 0, 2 := 0, 3 := 0]
  {
    SecondBinding(ids);
    assert ALL_THREE[..2] == FIRST_TWO;
    hide Ups, RootsAfter, FormForest;
    LastBinding(ids, FIRST_TWO, ALL_THREE, 0, 1);
    assert Joined(map[0 := 0, 1 := 1, 2 := 1, 3 := 1], 0, 1) == map[0 := 0, 1 := 0, 2 := 0, 3 := 0];
  }

  lemma ClimbTwo(up: Bindings)
    requires 3 in up && up[3] == 2 && 2 in up && up[2] == 1
    ensures Climb(up, 3, 0) == 3 && Climb(up, 3, 1) == 2 && Climb(up, 3, 2) == 1
    ensures 1 in up ==> Climb(up, 3, 3) == up[1]
  {
    ClimbOn(up, 3, 1, 1);
    ClimbOn(up, 3, 2, 1);
  }

  /**
    Three bindings, from the last port to the first: they are accepted, and at the end the last port is on a wrong
    cell.
  */
  lemma LateBindings(ids: set<PortId>)
    requires ids == {0, 1, 2, 3}
    ensures FormForest(ids, ALL_THREE) && Accepted(ids, ALL_THREE) && AreTimes(ALL_THREE, 3, [0, 1, 2])
    ensures 3 in RootsAfter(ids, ALL_THREE) && 3 in WiringAfter(ids, ALL_THREE).cell
    ensures WiringAfter(ids, ALL_THREE).cell[3] != RootsAfter(ids, ALL_THREE)[3]
  {
    ThirdBinding(ids);
    ForestIsAccepted(ids, ALL_THREE);
    ClimbTwo(Ups(ALL_THREE));
    var ts: seq<nat> := [0, 1, 2];
    hide Climb, Ups, FormForest, Accepted, RootsAfter, WiringAfter;
    assert AreTimes(ALL_THREE, 3, ts);
    OnRootIffFollows(ids, ALL_THREE, 3, ts);
    ThreeMaxima(ts, 1, 2);
    if Follows(ts) {
      FollowsHasFew(ts);
    }
  }

  /** Three bindings, of which the last closes a cycle: it is accepted all the same. */
  lemma CycleUnnoticed(ids: set<PortId>)
    requires ids == {0, 1, 2, 3}
    ensures Accepted(ids, WITH_CYCLE) && !FormForest(ids, WITH_CYCLE)
    ensures 3 in RootsAfter(ids, FIRST_TWO) && RootsAfter(ids, FIRST_TWO)[3] == 1
  {
    SecondBinding(ids);
    ForestIsAccepted(ids, FIRST_TWO);
    ClimbTwo(Ups(FIRST_TWO));
    var ts: seq<nat> := [0, 1];
    assert WITH_CYCLE[..2] == FIRST_TWO && WITH_CYCLE[2] == (3, 1);
    assert AreTimes(FIRST_TWO, 3, ts) by { hide Climb, Ups; }
    TwoMaxima(ts, 1);
    hide Climb, Ups, RootsAfter, WiringAfter, ReportsCycle, Maxima, Follows;
    CycleReportedIff(ids, FIRST_TWO, 3, 1, ts);
  }
}
