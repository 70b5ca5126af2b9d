/**
 What edge compression does to tracking and taint. A dropped repeat passes
 nothing on, so what its source has gained since does not get through. The
 marks stay as they would be without compression exactly as long as every
 dropped repeat would have brought nothing.
 */
module EdgeTaint {
  import opened ProvTypes
  import opened Model
  import opened Requests
  import opened Views
  import opened Decomposition
  import opened NodeCompression
  import opened EdgeCompression

  /** Nodes with the same kind, flags and taint. */
  predicate Twins(n: Node, m: Node) {
    && m.id == n.id && m.kind == n.kind && m.taint == n.taint
    && m.tracked == n.tracked && m.isOpaque == n.isOpaque && m.propagate == n.propagate
  }

  /** States with the same marks on every object, one compressing edges and one not. */
  predicate SameMarksOn(s: State, u: State) {
    && s.policy.compressEdge && u.policy == s.policy.(compressEdge := false)
    && u.nodes.Keys == s.nodes.Keys && forall o :: o in s.nodes ==> Twins(s.nodes[o], u.nodes[o])
  }

  /** The node as a relation into it leaves its marks. */
  function Reached(p: Policy, ty: Word, f: Node, t: Node): Node {
    if ShouldRecord(p, ty, f, t) then Flow(p, ty, f, t) else t
  }

  /** The relation would bring its destination nothing. */
  predicate BringsNothing(p: Policy, ty: Word, f: Node, t: Node) {
    ShouldRecord(p, ty, f, t) && Carries(p, ty, f, t) ==> t.tracked && t.propagate && f.taint <= t.taint
  }

  lemma DecidesAlike(p: Policy, q: Policy, ty: Word, f: Node, t: Node, f': Node, t': Node)
    requires Twins(f, f') && Twins(t, t') && q == p.(compressEdge := q.compressEdge)
    ensures ShouldRecord(p, ty, f, t) <==> ShouldRecord(q, ty, f', t')
    ensures Carries(p, ty, f, t) <==> Carries(q, ty, f', t')
  {
  }

  lemma ReachedTwins(p: Policy, q: Policy, ty: Word, f: Node, t: Node, f': Node, t': Node)
    requires Twins(f, f') && Twins(t, t') && q == p.(compressEdge := q.compressEdge)
    ensures Twins(Reached(p, ty, f, t), Reached(q, ty, f', t'))
  {
    DecidesAlike(p, q, ty, f, t, f', t');
  }

  lemma BringsNothingIff(p: Policy, ty: Word, f: Node, t: Node)
    ensures Twins(t, Reached(p, ty, f, t)) <==> BringsNothing(p, ty, f, t)
  {
  }

  /** What writing a relation does to the marks of its destination. */
  lemma WriteReaches(p: Policy, epoch: nat, ty: Word, f: Node, t: Node, log: seq<Record>, trail: seq<Event>)
    ensures var w := WriteRelation(p, epoch, ty, f, t, log, trail);
            Twins(w.from, f) && Twins(w.to, Reached(p, ty, f, t))
  {
  }

  lemma LinkReaches(s: State, ty: Word, f: nat, t: nat, o: nat)
    requires Distinct(s, f, t) && o in s.nodes
    ensures Twins(Link(s, ty, f, t).nodes[o],
                  if o == t then Reached(s.policy, ty, s.nodes[f], s.nodes[t]) else s.nodes[o])
  {
    var n := s.nodes[f].(outgoing := true);
    WriteReaches(s.policy, s.epoch, ty, n, s.nodes[t], s.log, s.trail);
    ReachedTwins(s.policy, s.policy, ty, n, s.nodes[t], s.nodes[f], s.nodes[t]);
    LinkNodes(s, ty, f, t);
  }

  /** Moving the destination on to a new version changes no marks. */
  lemma PreparedTwins(s: State, s1: State, ty: Word, f: nat, t: nat)
    requires WellFormed(s) && t in s.nodes && s1 == UpdateVersion(Remember(s, ty, f, t), ty, t)
    ensures forall o :: o in s.nodes ==> Twins(s.nodes[o], s1.nodes[o])
  {
    var s0 := Remember(s, ty, f, t);
    FrameWellFormed(s, s0);
    UpdateVersionAlike(s0, ty, t);
    forall o | o in s.nodes ensures Twins(s.nodes[o], s1.nodes[o]) {
      assert Peers(s0.nodes[o], s1.nodes[o]);
    }
  }

  /** What recording a relation does to the marks, when it is not dropped. */
  lemma RelationReaches(s: State, ty: Word, f: nat, t: nat, o: nat)
    requires WellFormed(s) && Distinct(s, f, t) && o in s.nodes && !Repeats(s.policy, ty, f, s.nodes[t])
    ensures Twins(RecordRelation(s, ty, f, t).nodes[o],
                  if o == t then Reached(s.policy, ty, s.nodes[f], s.nodes[t]) else s.nodes[o])
  {
    var s1 := UpdateVersion(Remember(s, ty, f, t), ty, t);
    PreparedTwins(s, s1, ty, f, t);
    LinkReaches(s1, ty, f, t, o);
    ReachedTwins(s.policy, s.policy, ty, s1.nodes[f], s1.nodes[t], s.nodes[f], s.nodes[t]);
  }

  // ---------- One call ----------

  /** A call that is not dropped keeps the marks the same on both sides. */
  lemma KeptCall(s: State, u: State, ty: Word, f: nat, t: nat)
    requires WellFormed(s) && WellFormed(u) && SameMarksOn(s, u) && Distinct(s, f, t)
    requires !Repeats(s.policy, ty, f, s.nodes[t])
    ensures SameMarksOn(RecordRelation(s, ty, f, t), RecordRelation(u, ty, f, t))
  {
    var s', u' := RecordRelation(s, ty, f, t), RecordRelation(u, ty, f, t);
    forall o | o in s'.nodes ensures Twins(s'.nodes[o], u'.nodes[o]) {
      RelationReaches(s, ty, f, t, o);
      RelationReaches(u, ty, f, t, o);
      ReachedTwins(s.policy, u.policy, ty, s.nodes[f], s.nodes[t], u.nodes[f], u.nodes[t]);
    }
  }

  /** A call that is dropped keeps them the same exactly when it would have brought nothing. */
  lemma DroppedCall(s: State, u: State, ty: Word, f: nat, t: nat)
    requires WellFormed(s) && WellFormed(u) && SameMarksOn(s, u) && Distinct(s, f, t)
    requires Repeats(s.policy, ty, f, s.nodes[t])
    ensures SameMarksOn(RecordRelation(s, ty, f, t), RecordRelation(u, ty, f, t))
            <==> BringsNothing(s.policy, ty, s.nodes[f], s.nodes[t])
  {
    var u' := RecordRelation(u, ty, f, t);
    forall o | o in s.nodes && o != t ensures Twins(s.nodes[o], u'.nodes[o]) {
      RelationReaches(u, ty, f, t, o);
    }
    RelationReaches(u, ty, f, t, t);
    ReachedTwins(s.policy, u.policy, ty, s.nodes[f], s.nodes[t], u.nodes[f], u.nodes[t]);
    BringsNothingIff(s.policy, ty, s.nodes[f], s.nodes[t]);
  }

  // ---------- Whole runs ----------

  /** A call that is dropped would bring its destination nothing. */
  predicate Harmless(s: State, c: Call)
    requires c.Relate? && CallLive(s, c)
  {
    Repeats(s.policy, c.ty, c.from, s.nodes[c.to]) ==> BringsNothing(s.policy, c.ty, s.nodes[c.from], s.nodes[c.to])
  }

  /** Call `k` is harmless in the compressed run. */
  ghost predicate HarmlessAt(s: State, calls: seq<Call>, k: nat)
    requires k < |calls| && Relations(calls) && CallsLive(s, calls)
  {
    assert calls[k] in calls;
    Harmless(DoAll(s, calls[..k]), calls[k])
  }

  /** The two runs have the same marks after `k` calls. */
  ghost predicate AgreeAt(s: State, u: State, calls: seq<Call>, k: nat)
    requires k <= |calls| && CallsLive(s, calls) && CallsLive(u, calls)
  {
    SameMarksOn(DoAll(s, calls[..k]), DoAll(u, calls[..k]))
  }

  /** Two states that start with the same marks, and calls to make on both. */
  ghost predicate Paired(s: State, u: State, calls: seq<Call>) {
    && WellFormed(s) && WellFormed(u) && SameMarksOn(s, u)
    && Relations(calls) && CallsOk(Any, s, calls) && CallsLive(s, calls) && CallsLive(u, calls)
  }

  lemma CallAgrees(s: State, u: State, c: Call)
    requires WellFormed(s) && WellFormed(u) && SameMarksOn(s, u)
    requires c.Relate? && CallOk(Any, s, c) && CallLive(s, c) && CallLive(u, c)
    ensures SameMarksOn(Do(s, c), Do(u, c)) <==> Harmless(s, c)
  {
    if Repeats(s.policy, c.ty, c.from, s.nodes[c.to]) {
      DroppedCall(s, u, c.ty, c.from, c.to);
    } else {
      KeptCall(s, u, c.ty, c.from, c.to);
    }
  }

  lemma DoOneMore(s: State, calls: seq<Call>, k: nat)
    requires k < |calls| && CallsLive(s, calls)
    ensures calls[k] in calls
    ensures var s1 := DoAll(s, calls[..k]);
            CallLive(s1, calls[k]) && DoAll(s, calls[..k + 1]) == Do(s1, calls[k])
  {
    var more := calls[..k + 1];
    assert more[..k] == calls[..k] && more[k] == calls[k];
  }

  lemma OneMoreCall(s: State, u: State, calls: seq<Call>, k: nat)
    requires Paired(s, u, calls) && k < |calls| && AgreeAt(s, u, calls, k)
    ensures AgreeAt(s, u, calls, k + 1) <==> HarmlessAt(s, calls, k)
  {
    DoOneMore(s, calls, k);
    DoOneMore(u, calls, k);
    var s1, u1 := DoAll(s, calls[..k]), DoAll(u, calls[..k]);
    DoAllWellFormed(s, calls[..k]);
    DoAllWellFormed(u, calls[..k]);
    assert CallOk(Any, s, calls[k]);
    CallAgrees(s1, u1, calls[k]);
  }

  lemma AgreeAtStart(s: State, u: State, calls: seq<Call>)
    requires SameMarksOn(s, u) && CallsLive(s, calls) && CallsLive(u, calls)
    ensures AgreeAt(s, u, calls, 0)
  {
    assert calls[..0] == [];
  }

  /** The marks agree after `n` calls, unless one of them is not harmless. */
  lemma {:induction false} AgreeUpTo(s: State, u: State, calls: seq<Call>, n: nat)
    requires Paired(s, u, calls) && n <= |calls|
    ensures AgreeAt(s, u, calls, n) || exists k :: 0 <= k < n && !HarmlessAt(s, calls, k)
    decreases n
  {
    AgreeAtStart(s, u, calls);
    if n > 0 {
      var k := n - 1;
      AgreeUpTo(s, u, calls, k);
      if AgreeAt(s, u, calls, k) {
        OneMoreCall(s, u, calls, k);
      }
    }
  }

  /**
   With and without edge compression, tracking and taint are the same after
   every call if and only if every repeat that is dropped would, when it is
   dropped, have brought its destination nothing.
   */
  lemma EdgeCompressionKeepsMarks(s: State, calls: seq<Call>)
    requires WellFormed(s) && Relations(calls) && CallsOk(Any, s, calls) && CallsLive(s, calls)
    ensures CallsLive(Dropping(s, true), calls) && CallsLive(Dropping(s, false), calls)
    ensures (forall k :: 0 <= k <= |calls| ==> AgreeAt(Dropping(s, true), Dropping(s, false), calls, k))
            <==> (forall k :: 0 <= k < |calls| ==> HarmlessAt(Dropping(s, true), calls, k))
  {
    var s1, s2 := Dropping(s, true), Dropping(s, false);
    DroppingOk(s, calls, true);
    DroppingOk(s, calls, false);
    if forall k :: 0 <= k < |calls| ==> HarmlessAt(s1, calls, k) {
      forall n | 0 <= n <= |calls| ensures AgreeAt(s1, s2, calls, n) { AgreeUpTo(s1, s2, calls, n); }
    }
    if forall k :: 0 <= k <= |calls| ==> AgreeAt(s1, s2, calls, k) {
      forall k | 0 <= k < |calls| ensures HarmlessAt(s1, calls, k) {
        assert AgreeAt(s1, s2, calls, k) && AgreeAt(s1, s2, calls, k + 1);
        OneMoreCall(s1, s2, calls, k);
      }
    }
  }

  /** Request a relation, inject a bit into its source, request it again. */
  function Again(s: State, ty: Word, f: nat, t: nat, b: nat): State
    requires f in s.nodes && t in s.nodes
  {
    RecordRelation(Inject(RecordRelation(s, ty, f, t), f, {b}), ty, f, t)
  }

  /** With edge compression the bit never gets through; without it, it does, if the relation carries at all. */
  lemma DroppedRepeatLosesTaint(s: State, ty: Word, f: nat, t: nat, b: nat)
    requires WellFormed(s) && Distinct(s, f, t) && b !in s.nodes[f].taint && b !in s.nodes[t].taint
    requires ShouldRecord(s.policy, ty, s.nodes[f], s.nodes[t]) && Carries(s.policy, ty, s.nodes[f], s.nodes[t])
    ensures b !in Again(Dropping(s, true), ty, f, t, b).nodes[t].taint
    ensures b in Again(Dropping(s, false), ty, f, t, b).nodes[t].taint
  {
    CompressedAgain(Dropping(s, true), ty, f, t, b);
    UncompressedAgain(Dropping(s, false), ty, f, t, b);
  }

  lemma CompressedAgain(s: State, ty: Word, f: nat, t: nat, b: nat)
    requires WellFormed(s) && s.policy.compressEdge && Distinct(s, f, t) && b !in s.nodes[f].taint
             && b !in s.nodes[t].taint
    ensures b !in Again(s, ty, f, t, b).nodes[t].taint
  {
    var s1 := RecordRelation(s, ty, f, t);
    RelationMemory(s, ty, f, t, t);
    if !Repeats(s.policy, ty, f, s.nodes[t]) { RelationReaches(s, ty, f, t, t); }
    assert Memory(s1, t) == Ask(f, ty) && Memory(Inject(s1, f, {b}), t) == Ask(f, ty);
  }

  /** A relation that carries brings what has just been injected into its source. */
  lemma InjectedArrives(s: State, ty: Word, f: nat, t: nat, b: nat)
    requires WellFormed(s) && !s.policy.compressEdge && Distinct(s, f, t)
    requires ShouldRecord(s.policy, ty, s.nodes[f], s.nodes[t]) && Carries(s.policy, ty, s.nodes[f], s.nodes[t])
    ensures b in RecordRelation(Inject(s, f, {b}), ty, f, t).nodes[t].taint
  {
    RelationReaches(Inject(s, f, {b}), ty, f, t, t);
  }

  lemma StillCarries(p: Policy, ty: Word, f: Node, t: Node, f': Node, t': Node)
    requires ShouldRecord(p, ty, f, t) && Carries(p, ty, f, t) && Twins(f', f) && Twins(t', Reached(p, ty, f, t))
    ensures ShouldRecord(p, ty, f', t') && Carries(p, ty, f', t')
  {
  }

  lemma UncompressedAgain(s: State, ty: Word, f: nat, t: nat, b: nat)
    requires WellFormed(s) && !s.policy.compressEdge && Distinct(s, f, t)
    requires ShouldRecord(s.policy, ty, s.nodes[f], s.nodes[t]) && Carries(s.policy, ty, s.nodes[f], s.nodes[t])
    ensures b in Again(s, ty, f, t, b).nodes[t].taint
  {
    var s1 := RecordRelation(s, ty, f, t);
    RelationReaches(s, ty, f, t, f);
    RelationReaches(s, ty, f, t, t);
    RecordRelationWellFormed(s, ty, f, t);
    StillCarries(s.policy, ty, s.nodes[f], s.nodes[t], s1.nodes[f], s1.nodes[t]);
    InjectedArrives(s1, ty, f, t, b);
  }
}
