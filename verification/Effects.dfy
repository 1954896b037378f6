/**
 What the compiled tables guarantee to reactions that keep to their declared effects: a reaction makes only reactions of
 higher levels due, and whoever reads a port reads its final value for the tag.
 */
module Effects {
  import opened Wrappers
  import opened VecMaps
  import opened Plans
  import opened Graphs
  import opened Dataflow
  import opened Events
  import opened Context
  import opened Wave
  import opened Places

  ghost predicate IsNodeOf(g: Graph, n: nat, id: GraphId) {
    n < |g.nodes| && g.nodes[n].id == id
  }

  /** The node of a reaction has an edge to the node of a trigger, or to the bank that the trigger is a channel of. */
  ghost predicate Effects(g: Graph, u: nat, v: nat) {
    || HasEdge(g, u, v)
    || exists bank: nat :: bank < |g.nodes| && g.nodes[bank].kind == MultiportUpstream && HasEdge(g, u, bank)
        && HasEdge(g, bank, v)
  }

  ghost predicate Declared(g: Graph, r: ReactionId, t: TriggerId) {
    exists u, v :: IsNodeOf(g, u, ReactionNode(r)) && IsNodeOf(g, v, TriggerNode(t)) && Effects(g, u, v)
  }

  /** Reactions set off only the triggers they have declared as effects. */
  ghost predicate WithinEffects(g: Graph, out: Behaviour) {
    forall r, c | c in out(r) && TriggerNow(c).Some? :: Declared(g, r, TriggerNow(c).value)
  }

  // ---------------------------------------------------------------------------------------------- tables

  /** Every plan of a compiled table is proper. */
  lemma TablesAreProper(g: Graph, lvl: map<ReactionId, nat>, plans: seq<Plan>)
    requires WellFormed(g) && Compiled(g, lvl, plans)
    ensures ProperTables(lvl, plans)
  {
    forall p | p in plans
      ensures ProperPlan(lvl, Some(Borrowed(p)))
    {
      var t :| 0 <= t < |plans| && plans[t] == p;
      var n := TriggerWithId(g.nodes, |g.nodes|, t);
      assert IsTrigger(g, n) && IsPlanOf(g, lvl, n, p);
    }
  }

  // ---------------------------------------------------------------------------------------------- depth along effects

  lemma {:induction false} DeeperAlong(g: Graph, p: seq<nat>, k: nat)
    requires IsPath(g, p) && EndsPath(g, p[0], k)
    ensures EndsPath(g, p[|p| - 1], k + |p| - 1)
  {
    if |p| > 1 {
      var q := p[..|p| - 1];
      assert IsPath(g, q) && q[0] == p[0];
      DeeperAlong(g, q, k);
      DeeperPath(g, p[|p| - 2], k + |p| - 2, p[|p| - 1]);
    }
  }

  lemma EffectIsDeeper(g: Graph, u: nat, v: nat, k: nat) returns (j: nat)
    requires InRange(g) && EndsPath(g, u, k) && Effects(g, u, v)
    ensures j > k && EndsPath(g, v, j)
  {
    if HasEdge(g, u, v) {
      j := k + 1;
      DeeperPath(g, u, k, v);
    } else {
      var bank: nat :| bank < |g.nodes| && HasEdge(g, u, bank) && HasEdge(g, bank, v);
      j := k + 2;
      DeeperPath(g, u, k, bank);
      DeeperPath(g, bank, k + 1, v);
    }
  }

  lemma TriggeredIsDeeper(g: Graph, t: nat, r: nat, k: nat, d: nat)
    requires Triggers(g, t, r) && EndsPath(g, t, k) && IsDepth(g, r, d)
    ensures k < d
  {
    var p :| IsTriggerPath(g, p) && p[0] == t && p[|p| - 1] == r;
    assert HasEdge(g, p[|p| - 2], p[|p| - 1]);
    assert IsPath(g, p);
    DeeperAlong(g, p, k);
  }

  /** Reactions that keep to their declared effects are causal. */
  lemma EffectsAreCausal(g: Graph, lvl: map<ReactionId, nat>, plans: seq<Plan>, out: Behaviour)
    requires WellFormed(g) && Compiled(g, lvl, plans) && KnownBehaviour(plans, out) && WithinEffects(g, out)
    ensures Causal(lvl, plans, out)
  {
    forall r, d | r in lvl && d in Demand(plans, out(r))
      ensures lvl[r] < d.level
    {
      var c :| c in out(r) && d in NowSlots(plans, c);
      var t := TriggerNow(c).value;
      var u, v :| IsNodeOf(g, u, ReactionNode(r)) && IsNodeOf(g, v, TriggerNode(t)) && Effects(g, u, v);
      assert IsReaction(g, u) && IsTrigger(g, v);
      assert d in TriggeredSlots(g, lvl, v);
      var w: nat :| w < |g.nodes| && IsReaction(g, w) && Triggers(g, v, w) && d == SlotOf(g, lvl, w);
      var j := EffectIsDeeper(g, u, v, lvl[r]);
      TriggeredIsDeeper(g, v, w, j, d.level);
    }
  }

  // ---------------------------------------------------------------------------------------------- stable reads

  /** A path of bindings from a port to one bound below it, or the port alone. */
  ghost predicate IsBinding(g: Graph, p: seq<nat>) {
    IsPath(g, p) && forall i | 0 <= i < |p| :: g.nodes[p[i]].kind == NodeKind.Port
  }

  /** The reaction is triggered by the port, uses it, or does so with a port bound below it. */
  ghost predicate Reads(g: Graph, port: nat, reader: nat) {
    IsReaction(g, reader) && exists p :: IsBinding(g, p) && p[0] == port && HasEdge(g, p[|p| - 1], reader)
  }

  /** Who effects a port runs in a strictly lower level than who reads it. */
  lemma WriterBeforeReader(g: Graph, lvl: map<ReactionId, nat>, writer: nat, port: nat, reader: nat)
    requires InRange(g) && Numbered(g, lvl) && IsReaction(g, writer) && Effects(g, writer, port)
        && Reads(g, port, reader)
    ensures lvl[g.nodes[writer].id.reaction] < lvl[g.nodes[reader].id.reaction]
  {
    var p :| IsBinding(g, p) && p[0] == port && HasEdge(g, p[|p| - 1], reader);
    var k := lvl[g.nodes[writer].id.reaction];
    var j := EffectIsDeeper(g, writer, port, k);
    DeeperAlong(g, p, j);
    DeeperPath(g, p[|p| - 1], j + |p| - 1, reader);
  }

  /**
   A reader sees the final value of the port for the tag: when the reaction at position `i` of the wave starts, the port
   already holds what it holds at the end.
   */
  lemma StableRead(g: Graph, lvl: map<ReactionId, nat>, out: Behaviour, ran: seq<ReactionId>, i: nat,
                   port: nat, reader: nat, values: ReactorValues, tag: EventTag)
    requires WellFormed(g) && Numbered(g, lvl) && WithinEffects(g, out) && InLevelOrder(lvl, ran)
    requires i < |ran| && IsNodeOf(g, reader, ReactionNode(ran[i])) && IsTrigger(g, port) && Reads(g, port, reader)
    ensures SameAt(StoredBy(values, tag, out, ran[..i]), StoredBy(values, tag, out, ran),
        OfPort(g.nodes[port].id.trigger))
  {
    var t := g.nodes[port].id.trigger;
    forall r | r in ran[i..]
      ensures !Writes(tag, out(r), OfPort(t))
    {
      var j :| i <= j < |ran| && ran[j] == r;
      if Writes(tag, out(r), OfPort(t)) {
        var c :| c in out(r) && WriteOf(tag, c).Some? && WriteOf(tag, c).value.place == OfPort(t);
        assert TriggerNow(c) == Some(t);
        NoLateWriter(g, lvl, ran[i], ran[j], port, reader);
      }
    }
    assert ran == ran[..i] + ran[i..];
    StoredSplits(values, tag, out, ran[..i], ran[i..]);
    StoredByElsewhere(StoredBy(values, tag, out, ran[..i]), tag, out, ran[i..], OfPort(t));
  }

  lemma NoLateWriter(g: Graph, lvl: map<ReactionId, nat>, r: ReactionId, late: ReactionId, port: nat, reader: nat)
    requires WellFormed(g) && Numbered(g, lvl) && IsNodeOf(g, reader, ReactionNode(r)) && IsTrigger(g, port)
    requires Reads(g, port, reader) && Declared(g, late, g.nodes[port].id.trigger)
    ensures late in lvl && r in lvl && lvl[late] < lvl[r]
  {
    var t := g.nodes[port].id.trigger;
    var u, v :| IsNodeOf(g, u, ReactionNode(late)) && IsNodeOf(g, v, TriggerNode(t)) && Effects(g, u, v);
    assert v == port;
    assert IsReaction(g, u);
    WriterBeforeReader(g, lvl, u, port, reader);
  }
}
