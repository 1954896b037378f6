/**
 Ports and their shared cells (`src/ports.rs`): binding a port to another makes both share a cell, through a level of
 indirection that lets the whole class be redirected later.
 */
module Ports {
  import opened Wrappers
  import opened Graphs
  import opened Context

  type PortId = TriggerId

  datatype BindError = CannotBind | CyclicDependency

  /** The cell that a class of ports shares, with the ports that were bound below it. */
  class PortCell {
    var value: Option<Value>
    var downstreams: map<PortId, CellRef>

    constructor ()
      ensures value == None && downstreams == map[]
    {
      value, downstreams := None, map[];
    }

    /** `check_cycle`. */
    predicate Knows(id: PortId)
      reads this`downstreams
    {
      id in downstreams
    }

    /** Redirects all downstreams to another cell. */
    method SetUpstream(newBinding: PortCell)
      modifies downstreams.Values
      ensures forall id | id in downstreams :: downstreams[id].cell == newBinding
    {
      var todo := downstreams.Keys;
      while todo != {}
        invariant todo <= downstreams.Keys
        invariant forall id | id in downstreams && id !in todo :: downstreams[id].cell == newBinding
        decreases todo
      {
        var id :| id in todo;
        downstreams[id].cell := newBinding;
        todo := todo - {id};
      }
    }
  }

  /** The indirection: `Rc<UncheckedCell<Rc<PortCell<T>>>>`. */
  class CellRef {
    var cell: PortCell

    constructor (cell: PortCell)
      ensures this.cell == cell
    {
      this.cell := cell;
    }
  }

  class Port {
    const id: PortId
    const upstreamBinding: CellRef
    /** The cell the port was created with. */
    ghost const own: PortCell
    var bound: bool

    constructor (id: PortId)
      ensures this.id == id && !bound && fresh(upstreamBinding) && fresh(own)
      ensures upstreamBinding.cell == own && own.value == None && own.downstreams == map[]
    {
      var cell := new PortCell();
      this.id, this.bound, this.own := id, false, cell;
      this.upstreamBinding := new CellRef(cell);
    }

    function Get(): Option<Value>
      reads upstreamBinding, upstreamBinding.cell
    {
      upstreamBinding.cell.value
    }

    method SetImpl(newValue: Option<Value>)
      modifies upstreamBinding.cell`value
      ensures upstreamBinding.cell.value == newValue
    {
      upstreamBinding.cell.value := newValue;
    }

    /** A bound port leaves its cell to the port that owns it. */
    method ClearValue()
      modifies upstreamBinding.cell`value
      ensures upstreamBinding.cell.value == if bound then old(upstreamBinding.cell.value) else None
    {
      if !bound {
        SetImpl(None);
      }
    }

    /**
      Binds `downstream` below this port, in the order of the source: a cyclic binding is noticed after the marks
      are made.
    */
    method ForwardTo(downstream: Port) returns (r: Result<(), BindError>)
      requires id != downstream.id
      modifies downstream`bound, upstreamBinding.cell`downstreams, downstream.upstreamBinding
      modifies downstream.upstreamBinding.cell.downstreams.Values
      ensures r == if old(downstream.bound) then Failure(CannotBind)
                   else if id in old(downstream.upstreamBinding.cell.downstreams) then Failure(CyclicDependency)
                   else Success(())
      ensures downstream.bound
      ensures old(upstreamBinding.cell).downstreams ==
              if old(downstream.bound) then old(upstreamBinding.cell.downstreams)
              else old(upstreamBinding.cell.downstreams)[downstream.id := downstream.upstreamBinding]
      ensures r.Success? ==> downstream.upstreamBinding.cell == old(upstreamBinding.cell)
      ensures r.Success? ==> forall other | other in old(downstream.upstreamBinding.cell.downstreams)
          && other != downstream.id ::
                               old(downstream.upstreamBinding.cell.downstreams)[other].cell == old(upstreamBinding.cell)
      ensures r.Failure? ==> unchanged(downstream.upstreamBinding)
                             && forall c | c in old(downstream.upstreamBinding.cell.downstreams.Values) :: unchanged(c)
    {
      if downstream.bound {
        return Failure(CannotBind);
      }
      downstream.bound := true;
      var myClass := upstreamBinding.cell;
      myClass.downstreams := myClass.downstreams[downstream.id := downstream.upstreamBinding];
      var downstreamClass := downstream.upstreamBinding.cell;
      if downstreamClass.Knows(id) {
        return Failure(CyclicDependency);
      }
      downstreamClass.SetUpstream(myClass);
      downstream.upstreamBinding.cell := myClass;
      assert forall other | other in old(downstreamClass.downstreams) && other != downstream.id ::
        downstreamClass.downstreams[other] == old(downstreamClass.downstreams)[other];
      r := Success(());
    }
  }

  // ---------------------------------------------------------------------------------------------- bindings as a forest

  /** The bindings made so far: each bound port with the port it is bound below. */
  type Bindings = map<PortId, PortId>

  ghost function Climb(up: Bindings, p: PortId, n: nat): PortId
    decreases n
  {
    if n == 0 || p !in up then p else Climb(up, up[p], n - 1)
  }

  ghost predicate IsRoot(up: Bindings, p: PortId, r: PortId) {
    r !in up && exists n: nat :: Climb(up, p, n) == r
  }

  /** The bindings form a forest, and `root` gives each port the unbound port above it. */
  ghost predicate Rooted(up: Bindings, root: Bindings) {
    && up.Keys <= root.Keys && up.Values <= root.Keys && root.Values <= root.Keys
    && forall p {:trigger IsRoot(up, p, root[p])} | p in root :: IsRoot(up, p, root[p])
  }

  /** The roots after binding `b` below `a`. */
  ghost function Joined(root: Bindings, a: PortId, b: PortId): Bindings
    requires a in root
  {
    map p | p in root :: if root[p] == b then root[a] else root[p]
  }

  lemma {:induction false} ClimbOn(up: Bindings, p: PortId, m: nat, n: nat)
    ensures Climb(up, p, m + n) == Climb(up, Climb(up, p, m), n)
    decreases m
  {
    if m > 0 && p in up {
      ClimbOn(up, up[p], m - 1, n);
    }
  }

  /** A port has one root. */
  lemma RootIsUnique(up: Bindings, p: PortId, r: PortId, s: PortId)
    requires IsRoot(up, p, r) && IsRoot(up, p, s)
    ensures r == s
  {
    var m: nat :| Climb(up, p, m) == r;
    var n: nat :| Climb(up, p, n) == s;
    if m <= n {
      ClimbOn(up, p, m, n - m);
    } else {
      ClimbOn(up, p, n, m - n);
    }
  }

  lemma RootOfRoot(up: Bindings, root: Bindings, r: PortId)
    requires Rooted(up, root) && r in root && r !in up
    ensures root[r] == r
  {
    assert Climb(up, r, 0) == r;
    RootIsUnique(up, r, r, root[r]);
  }

  lemma {:induction false} ClimbAvoids(up: Bindings, a: PortId, b: PortId, p: PortId, n: nat)
    requires b !in up && Climb(up, p, n) != b
    ensures Climb(up[b := a], p, n) == Climb(up, p, n)
    decreases n
  {
    if n > 0 && p in up {
      ClimbAvoids(up, a, b, up[p], n - 1);
    }
  }

  lemma {:induction false} ClimbReaches(up: Bindings, a: PortId, b: PortId, p: PortId, n: nat) returns (m: nat)
    requires b !in up && Climb(up, p, n) == b
    ensures Climb(up[b := a], p, m) == b
    decreases n
  {
    if p == b {
      m := 0;
    } else {
      m := ClimbReaches(up, a, b, up[p], n - 1);
      m := m + 1;
    }
  }

  lemma RootStays(up: Bindings, a: PortId, b: PortId, p: PortId, r: PortId)
    requires b !in up && IsRoot(up, p, r) && r != b
    ensures IsRoot(up[b := a], p, r)
  {
    var n: nat :| Climb(up, p, n) == r;
    ClimbAvoids(up, a, b, p, n);
  }

  lemma RootMoves(up: Bindings, a: PortId, b: PortId, p: PortId, r: PortId)
    requires b !in up && IsRoot(up, p, b) && IsRoot(up, a, r) && r != b
    ensures IsRoot(up[b := a], p, r)
  {
    RootStays(up, a, b, a, r);
    var n: nat :| Climb(up, p, n) == b;
    var m := ClimbReaches(up, a, b, p, n);
    var k: nat :| Climb(up[b := a], a, k) == r;
    ClimbOn(up[b := a], p, m, k + 1);
    assert Climb(up[b := a], b, k + 1) == r;
    assert Climb(up[b := a], p, m + (k + 1)) == r;
  }

  lemma RootExists(up: Bindings, root: Bindings, p: PortId)
    requires Rooted(up, root) && p in root
    ensures root[p] in root && root[p] !in up
  {
    assert root[p] in root.Values && IsRoot(up, p, root[p]);
  }

  /** Binding a root below a port of another tree joins the two trees. */
  lemma JoinedIsRooted(up: Bindings, root: Bindings, a: PortId, b: PortId)
    requires Rooted(up, root) && a in root && b in root && b !in up && root[a] != b
    ensures Rooted(up[b := a], Joined(root, a, b))
  {
    forall p | p in root
      ensures IsRoot(up[b := a], p, Joined(root, a, b)[p])
    {
      if root[p] == b {
        RootMoves(up, a, b, p, root[a]);
      } else {
        RootStays(up, a, b, p, root[p]);
      }
    }
  }

  /** Binding a root below a port of its own tree leaves that tree without a root. */
  lemma {:induction false} NoRootInCycle(up: Bindings, root: Bindings, a: PortId, b: PortId, p: PortId, n: nat)
    requires Rooted(up, root) && a in root && b in root && b !in up && root[a] == b && p in root && root[p] == b
    ensures Climb(up[b := a], p, n) in up[b := a]
    decreases n
  {
    if p != b {
      assert IsRoot(up, p, root[p]);
      var m: nat :| Climb(up, p, m) == b;
      assert up[p] in up.Values;
      assert IsRoot(up, up[p], root[up[p]]);
      assert p in up && Climb(up, up[p], m - 1) == b;
      RootIsUnique(up, up[p], b, root[up[p]]);
    }
    if n > 0 {
      NoRootInCycle(up, root, a, b, up[b := a][p], n - 1);
    }
  }

  // ----------------------------------------------------------------------------------------------- the wiring of ports

  /** What bindings change: the port whose cell each port uses, and the ports recorded in the cell of each port. */
  datatype Wiring = Wiring(cell: map<PortId, PortId>, known: map<PortId, set<PortId>>)

  ghost predicate IsWired(w: Wiring, p: PortId) {
    p in w.cell && w.cell[p] in w.known
  }

  /** What `forward_to` makes of the wiring when it succeeds. */
  ghost function Forwarded(w: Wiring, a: PortId, b: PortId): Wiring
    requires IsWired(w, a) && IsWired(w, b)
  {
    Wiring(map p | p in w.cell :: if p == b || p in w.known[w.cell[b]] then w.cell[a] else w.cell[p],
           w.known[w.cell[a] := w.known[w.cell[a]] + {b}])
  }

  /** The cell of a root records only ports below it. */
  ghost predicate AllKnown(up: Bindings, root: Bindings, w: Wiring) {
    forall r, q | r in w.known && r !in up && q in w.known[r] :: q in root && root[q] == r && q != r
  }

  /** The cell of the root `r` records all ports below it. */
  ghost predicate Covered(root: Bindings, w: Wiring, r: PortId) {
    r in w.known && forall q | q in root && root[q] == r && q != r :: q in w.known[r]
  }

  ghost predicate AllCovered(up: Bindings, root: Bindings, w: Wiring) {
    forall r | r in root && r !in up :: Covered(root, w, r)
  }

  /** The bindings form a forest, and each port uses the cell of its root. */
  ghost predicate IsForest(up: Bindings, root: Bindings, w: Wiring) {
    Rooted(up, root) && w.cell == root && w.known.Keys == root.Keys && AllKnown(up, root, w)
  }

  ghost predicate IsLeaf(root: Bindings, b: PortId) {
    forall q | q in root && root[q] == b :: q == b
  }

  /** A binding to a port of another tree is right exactly if the cell of the downstream port records its whole tree. */
  lemma SoundAfterBinding(up: Bindings, root: Bindings, w: Wiring, a: PortId, b: PortId)
    requires IsForest(up, root, w) && a in root && b in root && b !in up && root[a] != b
    ensures Forwarded(w, a, b).cell == Joined(root, a, b) <==> Covered(root, w, b)
  {
    RootOfRoot(up, root, b);
    RootExists(up, root, a);
    hide Rooted;
    var v, joined := Forwarded(w, a, b), Joined(root, a, b);
    forall p | p in root
      ensures v.cell[p] == joined[p] <==> root[p] != b || p == b || p in w.known[b]
    {
    }
  }

  lemma JoinedAt(root: Bindings, a: PortId, b: PortId, p: PortId)
    requires a in root && p in root
    ensures p in Joined(root, a, b) && Joined(root, a, b)[p] == if root[p] == b then root[a] else root[p]
  {
  }

  lemma ForwardedKnown(w: Wiring, a: PortId, b: PortId, r: PortId)
    requires IsWired(w, a) && IsWired(w, b) && r in w.known
    ensures Forwarded(w, a, b).known.Keys == w.known.Keys
    ensures Forwarded(w, a, b).known[r] == if r == w.cell[a] then w.known[r] + {b} else w.known[r]
  {
  }

  lemma EntryAfterBinding(up: Bindings, root: Bindings, w: Wiring, a: PortId, b: PortId, r: PortId, q: PortId)
    requires AllKnown(up, root, w) && IsWired(w, a) && IsWired(w, b)
    requires b in root && root[b] == b && a in root && root[a] != b && w.cell[a] == root[a]
    requires r in w.known && r !in up[b := a] && q in Forwarded(w, a, b).known[r]
    ensures q in root && Joined(root, a, b)[q] == r && q != r
  {
    hide Forwarded, Joined;
    ForwardedKnown(w, a, b, r);
    JoinedAt(root, a, b, b);
    if q in w.known[r] {
      JoinedAt(root, a, b, q);
    }
  }

  lemma KnownIfEach(up: Bindings, root: Bindings, w: Wiring)
    requires forall r, q | r in w.known && r !in up && q in w.known[r] :: q in root && root[q] == r && q != r
    ensures AllKnown(up, root, w)
  {
  }

  lemma IsKnown(up: Bindings, root: Bindings, w: Wiring, r: PortId, q: PortId)
    requires AllKnown(up, root, w) && r in w.known && r !in up && q in w.known[r]
    ensures q in root && root[q] == r && q != r
  {
  }

  /** What the proofs about a binding of the root `b` below `a` use of a forest. */
  lemma InForest(up: Bindings, root: Bindings, w: Wiring, a: PortId, b: PortId)
    requires IsForest(up, root, w) && a in root && b in root && b !in up
    ensures root[b] == b && w.cell[b] == b && IsWired(w, a) && IsWired(w, b)
    ensures w.cell[a] == root[a] && root[a] in root && root[a] !in up && root[root[a]] == root[a]
    ensures w.known.Keys == root.Keys && AllKnown(up, root, w)
  {
    RootOfRoot(up, root, b);
    RootExists(up, root, a);
    RootOfRoot(up, root, root[a]);
  }

  lemma KnownAfterBinding(up: Bindings, root: Bindings, w: Wiring, a: PortId, b: PortId)
    requires IsForest(up, root, w) && a in root && b in root && b !in up && root[a] != b
    ensures IsWired(w, a) && IsWired(w, b)
    ensures AllKnown(up[b := a], Joined(root, a, b), Forwarded(w, a, b))
  {
    hide Rooted, Forwarded, Joined, IsForest, AllKnown;
    InForest(up, root, w, a, b);
    ForwardedKnown(w, a, b, b);
    var v, joined := Forwarded(w, a, b), Joined(root, a, b);
    forall r, q | r in v.known && r !in up[b := a] && q in v.known[r]
      ensures q in joined && joined[q] == r && q != r
    {
      EntryAfterBinding(up, root, w, a, b, r, q);
      JoinedAt(root, a, b, q);
    }
    KnownIfEach(up[b := a], joined, v);
  }

  lemma ForestAfterBinding(up: Bindings, root: Bindings, w: Wiring, a: PortId, b: PortId)
    requires IsForest(up, root, w) && a in root && b in root && b !in up && root[a] != b
    requires Covered(root, w, b)
    ensures IsForest(up[b := a], Joined(root, a, b), Forwarded(w, a, b))
  {
    KnownAfterBinding(up, root, w, a, b);
    ForwardedKnown(w, a, b, b);
    assert Joined(root, a, b).Keys == root.Keys;
    SoundAfterBinding(up, root, w, a, b);
    JoinedIsRooted(up, root, a, b);
    hide Rooted, AllKnown, Forwarded, Joined;
  }

  lemma CoveredIfEach(up: Bindings, root: Bindings, w: Wiring)
    requires forall r | r in root && r !in up :: Covered(root, w, r)
    ensures AllCovered(up, root, w)
  {
  }

  lemma NotAllCovered(up: Bindings, root: Bindings, w: Wiring, r: PortId)
    requires r in root && r !in up && !Covered(root, w, r)
    ensures !AllCovered(up, root, w)
  {
  }

  lemma CoveredRoot(up: Bindings, root: Bindings, w: Wiring, a: PortId, b: PortId, r: PortId)
    requires AllCovered(up, root, w) && IsLeaf(root, b) && IsWired(w, a) && IsWired(w, b)
    requires a in root && b in root && b !in up && w.cell[a] == root[a] && r in Joined(root, a, b) && r !in up && r != b
    ensures Covered(Joined(root, a, b), Forwarded(w, a, b), r)
  {
    assert Covered(root, w, r);
    hide Forwarded, AllCovered;
    ForwardedKnown(w, a, b, r);
  }

  /**
    From a forest whose cells record their whole trees, the next cells do so exactly if the downstream port was a
    leaf.
  */
  lemma CoveredAfterBinding(up: Bindings, root: Bindings, w: Wiring, a: PortId, b: PortId)
    requires IsForest(up, root, w) && a in root && b in root && b !in up && root[a] != b
    requires AllCovered(up, root, w)
    ensures IsWired(w, a) && IsWired(w, b)
    ensures AllCovered(up[b := a], Joined(root, a, b), Forwarded(w, a, b)) <==> IsLeaf(root, b)
  {
    hide Rooted, Forwarded, Joined, IsForest, AllKnown, AllCovered;
    InForest(up, root, w, a, b);
    var v, joined, r := Forwarded(w, a, b), Joined(root, a, b), root[a];
    if IsLeaf(root, b) {
      forall s | s in joined && s !in up[b := a]
        ensures Covered(joined, v, s)
      {
        CoveredRoot(up, root, w, a, b, s);
      }
      CoveredIfEach(up[b := a], joined, v);
    } else {
      var q :| q in root && root[q] == b && q != b;
      ForwardedKnown(w, a, b, r);
      JoinedAt(root, a, b, q);
      JoinedAt(root, a, b, r);
      if q in w.known[r] {
        IsKnown(up, root, w, r, q);
      }
      assert !Covered(joined, v, r);
      NotAllCovered(up[b := a], joined, v, r);
    }
  }

  /** The check for cycles: never wrong about a cycle it reports, and complete where the cell records its whole tree. */
  lemma CycleIsNoticed(up: Bindings, root: Bindings, w: Wiring, a: PortId, b: PortId)
    requires IsForest(up, root, w) && a in root && b in root && b !in up && a != b
    ensures a in w.known[b] ==> root[a] == b
    ensures Covered(root, w, b) ==> (a in w.known[b] <==> root[a] == b)
  {
  }

  // -------------------------------------------------------------------------------------------- the wiring in the heap

  /** Ports as they are created: each with its own identifier, indirection and cell. */
  ghost predicate IsNetwork(ports: map<PortId, Port>) {
    && (forall i | i in ports :: ports[i].id == i)
    && forall i, j | i in ports && j in ports && i != j ::
      ports[i].upstreamBinding != ports[j].upstreamBinding && ports[i].own != ports[j].own
  }

  ghost function Objects(ports: map<PortId, Port>): set<Port> {
    set i | i in ports :: ports[i]
  }

  ghost function Refs(ports: map<PortId, Port>): set<CellRef> {
    set i | i in ports :: ports[i].upstreamBinding
  }

  ghost function Cells(ports: map<PortId, Port>): set<PortCell> {
    set i | i in ports :: ports[i].own
  }

  lemma AreDistinct(ports: map<PortId, Port>, i: PortId, j: PortId)
    requires IsNetwork(ports) && i in ports && j in ports
    ensures ports[i].upstreamBinding == ports[j].upstreamBinding <==> i == j
    ensures ports[i].own == ports[j].own <==> i == j
  {
  }

  ghost predicate AreEntries(ports: map<PortId, Port>, entries: map<PortId, CellRef>) {
    forall j | j in entries :: j in ports && entries[j] == ports[j].upstreamBinding
  }

  /** The port `i`, given its state, is as the bindings `up` and the wiring `w` say. */
  ghost predicate Agrees(ports: map<PortId, Port>, up: Bindings, w: Wiring, i: PortId,
                         bound: bool, cell: PortCell, entries: map<PortId, CellRef>) {
    && (bound <==> i in up)
    && i in w.cell && w.cell[i] in ports && cell == ports[w.cell[i]].own
    && i in w.known && entries.Keys == w.known[i] && AreEntries(ports, entries)
  }

  ghost predicate PortIs(ports: map<PortId, Port>, up: Bindings, w: Wiring, i: PortId)
    requires i in ports
    reads ports[i], ports[i].upstreamBinding, ports[i].own
  {
    Agrees(ports, up, w, i, ports[i].bound, ports[i].upstreamBinding.cell, ports[i].own.downstreams)
  }

  ghost predicate Represents(ports: map<PortId, Port>, up: Bindings, w: Wiring)
    reads Objects(ports), Refs(ports), Cells(ports)
  {
    && w.cell.Keys == ports.Keys && w.known.Keys == ports.Keys
    && forall i {:trigger PortIs(ports, up, w, i)} | i in ports :: PortIs(ports, up, w, i)
  }

  /** The indirections that a cell records are those of the ports whose identifiers it records. */
  lemma EntryIsPort(ports: map<PortId, Port>, entries: map<PortId, CellRef>, i: PortId)
    requires IsNetwork(ports) && AreEntries(ports, entries) && i in ports
    ensures ports[i].upstreamBinding in entries.Values <==> i in entries
    ensures i in entries ==> entries[i] == ports[i].upstreamBinding
  {
    if i in entries {
      assert entries[i] in entries.Values;
    }
  }

  lemma InCells(ports: map<PortId, Port>, i: PortId)
    requires IsNetwork(ports) && i in ports
    ensures ports[i].own in Cells(ports) && ports[i].upstreamBinding in Refs(ports)
    ensures ports[i] in Objects(ports) && ports[i].id == i
  {
  }

  /** The port `i` after `forward_to`, from its state before. */
  lemma PortAfter(ports: map<PortId, Port>, up: Bindings, w: Wiring, a: PortId, b: PortId, i: PortId,
                  bound: bool, cell: PortCell, entries: map<PortId, CellRef>)
    requires i in ports && b in ports && IsWired(w, a) && IsWired(w, b) && w.cell[a] in ports
    requires Agrees(ports, up, w, i, bound, cell, entries)
    requires ports[i].bound == (bound || i == b)
    requires ports[i].upstreamBinding.cell == if i == b || i in w.known[w.cell[b]] then ports[w.cell[a]].own else cell
    requires ports[i].own.downstreams == if i == w.cell[a] then entries[b := ports[b].upstreamBinding] else entries
    ensures PortIs(ports, up[b := a], Forwarded(w, a, b), i)
  {
  }

  lemma BeforeBinding(ports: map<PortId, Port>, up: Bindings, w: Wiring, a: Port, b: Port)
    requires IsNetwork(ports) && Represents(ports, up, w)
    requires a.id in ports && ports[a.id] == a && b.id in ports && ports[b.id] == b
    ensures IsWired(w, a.id) && IsWired(w, b.id) && w.cell[a.id] in ports && w.cell[b.id] in ports
    ensures a.upstreamBinding.cell == ports[w.cell[a.id]].own && ports[w.cell[a.id]].own in Cells(ports)
    ensures b.upstreamBinding.cell == ports[w.cell[b.id]].own && b.upstreamBinding in Refs(ports)
    ensures b.bound <==> b.id in up
    ensures AreEntries(ports, ports[w.cell[b.id]].own.downstreams)
    ensures ports[w.cell[b.id]].own.downstreams.Keys == w.known[w.cell[b.id]]
    ensures ports[w.cell[b.id]].own.downstreams.Values <= Refs(ports)
  {
    assert PortIs(ports, up, w, a.id) && PortIs(ports, up, w, b.id) && PortIs(ports, up, w, w.cell[b.id]);
    hide Represents, IsNetwork;
  }

  lemma ForwardedKeys(w: Wiring, a: PortId, b: PortId)
    requires IsWired(w, a) && IsWired(w, b)
    ensures Forwarded(w, a, b).cell.Keys == w.cell.Keys && Forwarded(w, a, b).known.Keys == w.known.Keys
  {
  }

  /** `forward_to` on a network of ports. */
  method Bind(ghost ports: map<PortId, Port>, ghost up: Bindings, ghost w: Wiring, a: Port, b: Port)
    returns (r: Result<(), BindError>)
    requires IsNetwork(ports) && Represents(ports, up, w) && a.id != b.id
    requires a.id in ports && ports[a.id] == a && b.id in ports && ports[b.id] == b
    modifies b`bound, Refs(ports), Cells(ports)`downstreams
    ensures IsWired(w, a.id) && IsWired(w, b.id)
    ensures r == if b.id in up then Failure(CannotBind)
                 else if a.id in w.known[w.cell[b.id]] then Failure(CyclicDependency)
                 else Success(())
    ensures r.Success? ==> Represents(ports, up[b.id := a.id], Forwarded(w, a.id, b.id))
  {
    hide IsNetwork, Objects, Refs, Cells, Agrees, Forwarded;
    BeforeBinding(ports, up, w, a, b);
    ghost var i, entries := w.cell[a.id], ports[w.cell[b.id]].own.downstreams;
    r := a.ForwardTo(b);
    if r.Success? {
      ghost var v := Forwarded(w, a.id, b.id);
      ForwardedKeys(w, a.id, b.id);
      forall k | k in ports
        ensures PortIs(ports, up[b.id := a.id], v, k)
      {
        assert old(PortIs(ports, up, w, k));
        hide Represents;
        InCells(ports, k);
        EntryIsPort(ports, entries, k);
        hide AreEntries;
        ghost var bound, cell, known := old(ports[k].bound), old(ports[k].upstreamBinding.cell),
            old(ports[k].own.downstreams);
        assert Agrees(ports, up, w, k, bound, cell, known);
        AreDistinct(ports, k, b.id);
        AreDistinct(ports, k, i);
        assert ports[k].upstreamBinding.cell == if k == b.id || k in entries then ports[i].own else cell;
        assert ports[k].own.downstreams == if k == i then known[b.id := b.upstreamBinding] else known;
        PortAfter(ports, up, w, a.id, b.id, k, bound, cell, known);
      }
    }
  }

  // ----------------------------------------------------------------------------------------------- bindings in order

  lemma {:induction false} ClimbLast(up: Bindings, p: PortId, n: nat)
    requires p in up
    ensures Climb(up, p, n) in {p} + up.Values
    decreases n
  {
    if n > 0 && up[p] in up {
      ClimbLast(up, up[p], n - 1);
    }
  }

  /** A port below which no port was bound is a leaf. */
  lemma LeafIfUnused(up: Bindings, root: Bindings, b: PortId)
    requires Rooted(up, root) && b !in up.Values
    ensures IsLeaf(root, b)
  {
    forall q | q in root && root[q] == b
      ensures q == b
    {
      assert IsRoot(up, q, root[q]);
      var n: nat :| Climb(up, q, n) == b;
      if q in up {
        ClimbLast(up, q, n);
      }
    }
  }

  /** Ports without bindings: each uses its own cell, which records nothing. */
  ghost function Unbound(ids: set<PortId>): Wiring {
    Wiring(map p | p in ids :: p, map p | p in ids :: {})
  }

  lemma UnboundIsForest(ids: set<PortId>)
    ensures IsForest(map[], Unbound(ids).cell, Unbound(ids)) && AllCovered(map[], Unbound(ids).cell, Unbound(ids))
  {
    forall p | p in ids
      ensures IsRoot(map[], p, p)
    {
      assert Climb(map[], p, 0) == p;
    }
  }

  /**
    A binding in order: it fails exactly if the port is already bound, and keeps a forest whose cells record their
    trees.
  */
  lemma NextInOrder(up: Bindings, root: Bindings, w: Wiring, a: PortId, b: PortId)
    requires IsForest(up, root, w) && AllCovered(up, root, w) && a in root && b in root && a != b
    requires b !in up && b !in up.Values
    ensures IsWired(w, a) && IsWired(w, b) && a !in w.known[w.cell[b]]
    ensures IsForest(up[b := a], Joined(root, a, b), Forwarded(w, a, b))
    ensures AllCovered(up[b := a], Joined(root, a, b), Forwarded(w, a, b))
  {
    LeafIfUnused(up, root, b);
    RootOfRoot(up, root, b);
    RootExists(up, root, a);
    CycleIsNoticed(up, root, w, a, b);
    assert Covered(root, w, b);
    ForestAfterBinding(up, root, w, a, b);
    CoveredAfterBinding(up, root, w, a, b);
  }

  // ---------------------------------------------------------------------------------------------------- setting values

  /** In a forest, the cell of a port is the one its root was created with. */
  lemma CellOfTree(ports: map<PortId, Port>, up: Bindings, root: Bindings, w: Wiring, p: PortId)
    requires IsNetwork(ports) && Represents(ports, up, w) && IsForest(up, root, w) && p in ports
    ensures p in root && root[p] in ports && ports[root[p]].own in Cells(ports) && ports[p].id == p
    ensures ports[p].upstreamBinding.cell == ports[root[p]].own
    ensures !ports[root[p]].bound
    ensures root[p] == p <==> !ports[p].bound
  {
    assert PortIs(ports, up, w, p);
    RootExists(up, root, p);
    assert PortIs(ports, up, w, root[p]);
    if p !in up {
      RootOfRoot(up, root, p);
    }
  }

  ghost predicate UsesCellOf(p: Port, r: Port)
    reads p.upstreamBinding, r, r.upstreamBinding
  {
    !r.bound && p.upstreamBinding.cell == r.own && r.upstreamBinding.cell == r.own
  }

  ghost predicate InTrees(ports: map<PortId, Port>, root: Bindings)
    reads Objects(ports), Refs(ports)
  {
    && root.Keys == ports.Keys && root.Values <= ports.Keys
    && forall p {:trigger UsesCellOf(ports[p], ports[root[p]])} | p in ports :: UsesCellOf(ports[p], ports[root[p]])
  }

  lemma TreeOf(ports: map<PortId, Port>, root: Bindings, p: PortId)
    requires InTrees(ports, root) && p in ports
    ensures p in root && root[p] in ports && UsesCellOf(ports[p], ports[root[p]])
    ensures ports[root[p]].own in Cells(ports)
  {
    assert root[p] in root.Values;
    assert UsesCellOf(ports[p], ports[root[p]]);
  }

  lemma AllInTrees(ports: map<PortId, Port>, up: Bindings, root: Bindings, w: Wiring)
    requires IsNetwork(ports) && Represents(ports, up, w) && IsForest(up, root, w)
    ensures InTrees(ports, root)
  {
    assert root.Keys == ports.Keys && root.Values <= ports.Keys;
    hide IsNetwork, Represents, IsForest, Rooted;
    forall p | p in ports
      ensures root[p] in ports && UsesCellOf(ports[p], ports[root[p]])
    {
      CellOfTree(ports, up, root, w, p);
      CellOfTree(ports, up, root, w, root[p]);
    }
  }

  /** Setting an unbound port sets exactly the ports of its tree. */
  method SetTree(ghost ports: map<PortId, Port>, ghost up: Bindings, ghost root: Bindings, ghost w: Wiring,
                 r: Port, newValue: Option<Value>)
    requires IsNetwork(ports) && Represents(ports, up, w) && IsForest(up, root, w)
    requires r.id in ports && ports[r.id] == r && !r.bound
    modifies r.upstreamBinding.cell`value
    ensures forall p | p in ports ::
        p in root && ports[p].Get() == if root[p] == r.id then newValue else old(ports[p].Get())
  {
    hide Represents, IsForest;
    forall p | p in ports
      ensures p in root && (ports[p].upstreamBinding.cell == r.upstreamBinding.cell <==> root[p] == r.id)
    {
      CellOfTree(ports, up, root, w, p);
      CellOfTree(ports, up, root, w, r.id);
    }
    hide IsNetwork;
    r.SetImpl(newValue);
  }

  ghost predicate IsClear(ports: map<PortId, Port>, root: Bindings, todo: set<PortId>)
    reads Objects(ports), Refs(ports), set p | p in ports :: ports[p].upstreamBinding.cell
  {
    forall p {:trigger ports[p].upstreamBinding} | p in ports && p in root && root[p] !in todo :: ports[p].Get() == None
  }

  /** Clearing one port clears its tree if it is unbound, and nothing otherwise. */
  method ClearTree(ghost ports: map<PortId, Port>, ghost root: Bindings, port: Port, ghost todo: set<PortId>)
    requires InTrees(ports, root) && IsClear(ports, root, todo) && port.id in ports && ports[port.id] == port
    modifies Cells(ports)`value
    ensures InTrees(ports, root) && IsClear(ports, root, todo - {port.id})
  {
    TreeOf(ports, root, port.id);
    hide Cells, InTrees;
    port.ClearValue();
    forall q | q in ports && q in root && root[q] !in todo - {port.id}
      ensures ports[q].Get() == None
    {
      TreeOf(ports, root, q);
    }
  }

  lemma AllClear(ports: map<PortId, Port>, root: Bindings)
    requires IsClear(ports, root, {}) && root.Keys == ports.Keys
    ensures forall p | p in ports :: ports[p].Get() == None
  {
  }

  /** The cleanup of a tag: clearing every port leaves no value. */
  method ClearAll(ports: map<PortId, Port>, ghost up: Bindings, ghost root: Bindings, ghost w: Wiring)
    requires IsNetwork(ports) && Represents(ports, up, w) && IsForest(up, root, w)
    modifies Cells(ports)`value
    ensures forall p | p in ports :: ports[p].Get() == None
  {
    AllInTrees(ports, up, root, w);
    var todo := ports.Keys;
    assert IsClear(ports, root, todo) by { assert root.Values <= ports.Keys; }
    assert forall p | p in ports :: ports[p].id == p;
    assert root.Keys == ports.Keys;
    hide Represents, IsForest, IsNetwork, InTrees, Cells, IsClear;
    while todo != {}
      invariant todo <= ports.Keys && InTrees(ports, root) && IsClear(ports, root, todo)
      decreases todo
    {
      var p :| p in todo;
      ClearTree(ports, root, ports[p], todo);
      todo := todo - {p};
    }
    AllClear(ports, root);
  }
}
