/**
 Node compression keeps the meaning of what is recorded. The same requests,
 with and without it, emit the same relations up to versions, leave the same
 tracking and taint on every object, and agree on which relation reaches which.
 */
module NodeCompression {
  import opened ProvTypes
  import opened Model
  import opened Requests
  import opened Graphs
  import opened Views
  import opened Crossings
  import opened Decomposition
  import opened Causality

  /** A relation between two objects, without their versions. */
  datatype Crossing = Crossing(ty: Word, from: nat, to: nat)

  function CrossingsOf(log: seq<Record>): seq<Crossing> {
    if log == [] then []
    else CrossingsOf(log[..|log| - 1]) + CrossingLine(log[|log| - 1])
  }

  function CrossingLine(r: Record): seq<Crossing> {
    if r.Relation? && r.edge.snd.id != r.edge.rcv.id then [Crossing(r.edge.ty, r.edge.snd.id, r.edge.rcv.id)] else []
  }

  lemma CrossingsSnoc(log: seq<Record>, r: Record)
    ensures CrossingsOf(log + [r]) == CrossingsOf(log) + CrossingLine(r)
  {
    assert (log + [r])[..|log|] == log;
  }

  lemma CrossingsNodeLine(p: Policy, epoch: nat, n: Node, log: seq<Record>)
    ensures CrossingsOf(log + NodeLine(p, epoch, n)) == CrossingsOf(log)
  {
    if WritesNode(p, epoch, n) {
      CrossingsSnoc(log, NodeRecord(n.(epoch := epoch)));
    } else {
      assert log + [] == log;
    }
  }

  function NewCrossing(p: Policy, ty: Word, f: Node, t: Node): seq<Crossing> {
    if ShouldRecord(p, ty, f, t) && f.id != t.id then [Crossing(ty, f.id, t.id)] else []
  }

  lemma WriteCrossings(p: Policy, epoch: nat, ty: Word, f: Node, t: Node, log: seq<Record>, trail: seq<Event>)
    ensures CrossingsOf(WriteRelation(p, epoch, ty, f, t, log, trail).log) ==
            CrossingsOf(log) + NewCrossing(p, ty, f, t)
  {
    if ShouldRecord(p, ty, f, t) {
      var a, b := NodeLine(p, epoch, f), NodeLine(p, epoch, t);
      CrossingsNodeLine(p, epoch, f, log);
      CrossingsNodeLine(p, epoch, t, log + a);
      CrossingsSnoc(log + a + b, Relation(Edge(ty, IdentOf(f), IdentOf(t)), epoch));
    }
  }

  // ---------- States alike up to versions ----------

  /** Nodes that differ in version, epoch mark and outgoing mark only. */
  predicate Peers(n: Node, m: Node) {
    && m.id == n.id && m.kind == n.kind && m.memo == n.memo && m.taint == n.taint
    && m.tracked == n.tracked && m.isOpaque == n.isOpaque && m.propagate == n.propagate
  }

  predicate Alike(s: State, u: State) {
    && u.policy == s.policy.(compressNode := u.policy.compressNode)
    && u.epoch == s.epoch && u.counter == s.counter && u.machine == s.machine
    && u.nodes.Keys == s.nodes.Keys
    && (forall o :: o in s.nodes ==> Peers(s.nodes[o], u.nodes[o]))
    && CrossingsOf(u.log) == CrossingsOf(s.log)
  }

  lemma AlikeTrans(s: State, u: State, v: State)
    requires Alike(s, u) && Alike(u, v)
    ensures Alike(s, v)
  {
    forall o | o in s.nodes ensures Peers(s.nodes[o], v.nodes[o]) {
      assert Peers(s.nodes[o], u.nodes[o]) && Peers(u.nodes[o], v.nodes[o]);
    }
  }

  lemma AlikeSym(s: State, u: State)
    requires Alike(s, u)
    ensures Alike(u, s)
  {
    forall o | o in s.nodes ensures Peers(u.nodes[o], s.nodes[o]) { assert Peers(s.nodes[o], u.nodes[o]); }
  }

  /** A relation from one version of a node to the next brings it nothing new. */
  lemma {:induction false} NextIsPeer(p: Policy, epoch: nat, ty: Word, n: Node, log: seq<Record>, trail: seq<Event>)
    ensures var w := WriteRelation(p, epoch, ty, n, NextVersion(n, n.kind, n.memo.mode), log, trail);
            Peers(n, w.to.(outgoing := false))
  {
    assert n.taint + n.taint == n.taint;
  }

  lemma PeersSelf(n: Node)
    ensures Peers(n, n)
  {
  }

  lemma BumpAlike(s: State, o: nat, ty: Word)
    requires WellFormed(s) && o in s.nodes
    ensures Alike(s, Bump(s, o, ty, s.nodes[o].kind, s.nodes[o].memo.mode))
  {
    var n := s.nodes[o];
    var s' := Bump(s, o, ty, n.kind, n.memo.mode);
    WriteCrossings(s.policy, s.epoch, ty, n, NextVersion(n, n.kind, n.memo.mode), s.log, s.trail);
    assert CrossingsOf(s'.log) == CrossingsOf(s.log);
    NextIsPeer(s.policy, s.epoch, ty, n, s.log, s.trail);
    forall x | x in s.nodes ensures Peers(s.nodes[x], s'.nodes[x]) {
      if x != o { PeersSelf(s.nodes[x]); }
    }
  }

  lemma UpdateVersionAlike(s: State, ty: Word, o: nat)
    requires WellFormed(s) && o in s.nodes
    ensures Alike(s, UpdateVersion(s, ty, o))
  {
    if UpdatesVersion(s.policy, ty, s.nodes[o]) { BumpAlike(s, o, VersionType(s.nodes[o])); }
  }

  lemma RememberAlike(s: State, u: State, ty: Word, f: nat, t: nat)
    requires Alike(s, u) && t in s.nodes
    ensures Alike(Remember(s, ty, f, t), Remember(u, ty, f, t))
  {
    assert Peers(s.nodes[t], u.nodes[t]);
  }

  lemma {:induction false} FilterPeers(p: Policy, q: Policy, ty: Word, f: Node, t: Node, f': Node, t': Node)
    requires q == p.(compressNode := q.compressNode) && Peers(f, f') && Peers(t, t')
    ensures ShouldRecord(p, ty, f, t) == ShouldRecord(q, ty, f', t') && Carries(p, ty, f, t) == Carries(q, ty, f', t')
    ensures NewCrossing(p, ty, f, t) == NewCrossing(q, ty, f', t')
  {
  }

  lemma {:induction false} MarkedPeers(p: Policy, q: Policy, epoch: nat, n: Node, n': Node)
    requires Peers(n, n')
    ensures Peers(Marked(p, epoch, n), Marked(q, epoch, n'))
  {
  }

  lemma FlowPeers(p: Policy, q: Policy, ty: Word, f: Node, t: Node, f': Node, t': Node)
    requires q == p.(compressNode := q.compressNode) && Peers(f, f') && Peers(t, t')
    ensures Peers(Flow(p, ty, f, t), Flow(q, ty, f', t'))
  {
    FilterPeers(p, q, ty, f, t, f', t');
  }

  /** Writing the same relation between peers does the same to them. */
  lemma WritePeers(p: Policy, q: Policy, epoch: nat, ty: Word, f: Node, t: Node, f': Node, t': Node,
                   log: seq<Record>, log': seq<Record>, trail: seq<Event>, trail': seq<Event>)
    requires q == p.(compressNode := q.compressNode) && Peers(f, f') && Peers(t, t')
    ensures var w := WriteRelation(p, epoch, ty, f, t, log, trail);
            var w' := WriteRelation(q, epoch, ty, f', t', log', trail');
            Peers(w.from, w'.from) && Peers(w.to, w'.to)
  {
    FilterPeers(p, q, ty, f, t, f', t');
    MarkedPeers(p, q, epoch, f, f');
    MarkedPeers(p, q, epoch, t, t');
    FlowPeers(p, q, ty, Marked(p, epoch, f), Marked(p, epoch, t), Marked(q, epoch, f'), Marked(q, epoch, t'));
  }

  lemma LinkPeers(s: State, u: State, ty: Word, f: nat, t: nat)
    requires Alike(s, u) && Distinct(s, f, t)
    ensures var s', u' := Link(s, ty, f, t), Link(u, ty, f, t);
            Peers(s'.nodes[f], u'.nodes[f]) && Peers(s'.nodes[t], u'.nodes[t])
  {
    assert Peers(s.nodes[f], u.nodes[f]) && Peers(s.nodes[t], u.nodes[t]);
    WritePeers(s.policy, u.policy, s.epoch, ty, s.nodes[f].(outgoing := true), s.nodes[t],
               u.nodes[f].(outgoing := true), u.nodes[t], s.log, u.log, s.trail, u.trail);
  }

  lemma LinkCrossings(s: State, ty: Word, f: nat, t: nat)
    requires Distinct(s, f, t)
    ensures CrossingsOf(Link(s, ty, f, t).log) == CrossingsOf(s.log) + NewCrossing(s.policy, ty, s.nodes[f], s.nodes[t])
  {
    WriteCrossings(s.policy, s.epoch, ty, s.nodes[f].(outgoing := true), s.nodes[t], s.log, s.trail);
  }

  lemma LinkAlike(s: State, u: State, ty: Word, f: nat, t: nat)
    requires Alike(s, u) && Distinct(s, f, t)
    ensures Alike(Link(s, ty, f, t), Link(u, ty, f, t))
  {
    LinkPeers(s, u, ty, f, t);
    LinkNodes(s, ty, f, t);
    LinkNodes(u, ty, f, t);
    LinkCrossings(s, ty, f, t);
    LinkCrossings(u, ty, f, t);
    assert Peers(s.nodes[f], u.nodes[f]) && Peers(s.nodes[t], u.nodes[t]);
    FilterPeers(s.policy, u.policy, ty, s.nodes[f], s.nodes[t], u.nodes[f], u.nodes[t]);
  }

  /** The destination is brought to the version that the relation goes into on both sides. */
  lemma PreparedAlike(s: State, u: State, s2: State, u2: State, ty: Word, f: nat, t: nat)
    requires WellFormed(s) && WellFormed(u) && Alike(s, u) && t in s.nodes
    requires s2 == UpdateVersion(Remember(s, ty, f, t), ty, t) && u2 == UpdateVersion(Remember(u, ty, f, t), ty, t)
    ensures Alike(s2, u2)
  {
    var s1, u1 := Remember(s, ty, f, t), Remember(u, ty, f, t);
    RememberAlike(s, u, ty, f, t);
    FrameWellFormed(s, s1);
    FrameWellFormed(u, u1);
    UpdateVersionAlike(s1, ty, t);
    UpdateVersionAlike(u1, ty, t);
    AlikeSym(s1, s2);
    AlikeTrans(s2, s1, u1);
    AlikeTrans(s2, u1, u2);
  }

  lemma RecordRelationAlike(s: State, u: State, ty: Word, f: nat, t: nat)
    requires WellFormed(s) && WellFormed(u) && Alike(s, u) && Distinct(s, f, t)
    ensures Alike(RecordRelation(s, ty, f, t), RecordRelation(u, ty, f, t))
  {
    assert Peers(s.nodes[t], u.nodes[t]);
    if !Repeats(s.policy, ty, f, s.nodes[t]) {
      var s2, u2 := UpdateVersion(Remember(s, ty, f, t), ty, t), UpdateVersion(Remember(u, ty, f, t), ty, t);
      PreparedAlike(s, u, s2, u2, ty, f, t);
      LinkAlike(s2, u2, ty, f, t);
    }
  }

  // ---------- Whole runs ----------

  predicate Relations(calls: seq<Call>) { forall c :: c in calls ==> c.Relate? }

  lemma {:induction false} DoAllAlike(s: State, u: State, calls: seq<Call>)
    requires WellFormed(s) && WellFormed(u) && Alike(s, u) && s.counter < s.machine
    requires Relations(calls) && CallsOk(Any, s, calls) && CallsLive(s, calls) && CallsLive(u, calls)
    ensures var s', u' := DoAll(s, calls), DoAll(u, calls); Alike(s', u') && WellFormed(s') && WellFormed(u')
    decreases |calls|
  {
    if calls != [] {
      var init, c := calls[..|calls| - 1], calls[|calls| - 1];
      DoAllAlike(s, u, init);
      var s1, u1 := DoAll(s, init), DoAll(u, init);
      assert c in calls && CallOk(Any, s, c);
      RecordRelationAlike(s1, u1, c.ty, c.from, c.to);
      RecordRelationWellFormed(s1, c.ty, c.from, c.to);
      RecordRelationWellFormed(u1, c.ty, c.from, c.to);
    }
  }

  lemma RecordRelationWellFormed(s: State, ty: Word, f: nat, t: nat)
    requires WellFormed(s) && f in s.nodes && t in s.nodes
    ensures WellFormed(RecordRelation(s, ty, f, t))
  {
    FrameWellFormed(s, RecordRelation(s, ty, f, t));
  }

  /** The same state under a policy that compresses nodes, or does not. */
  function Compressing(s: State, on: bool): State { s.(policy := s.policy.(compressNode := on)) }

  function ToPairs(xs: seq<Crossing>): seq<Pair> {
    if xs == [] then []
    else
      var x := xs[|xs| - 1];
      ToPairs(xs[..|xs| - 1]) + [Pair(IsAnnotation(x.ty), x.from, x.to)]
  }

  lemma ToPairsSnoc(xs: seq<Crossing>, x: Crossing)
    ensures ToPairs(xs + [x]) == ToPairs(xs) + [Pair(IsAnnotation(x.ty), x.from, x.to)]
  {
    assert (xs + [x])[..|xs|] == xs;
  }

  lemma PairsSnoc(arcs: seq<Arc>, a: Arc)
    ensures Pairs(arcs + [a]) == Pairs(arcs) + if Crosses(a) then [PairOf(a)] else []
  {
    assert (arcs + [a])[..|arcs|] == arcs;
  }

  lemma {:induction false} PairsOfCrossings(log: seq<Record>)
    ensures Pairs(Arcs(log)) == ToPairs(CrossingsOf(log))
    decreases |log|
  {
    if log != [] {
      var init, last := log[..|log| - 1], log[|log| - 1];
      PairsOfCrossings(init);
      assert Arcs(log) == Arcs(init) + if last.Relation? then [ToArc(last.edge)] else [];
      assert CrossingsOf(log) == CrossingsOf(init) + CrossingLine(last);
      if last.Relation? {
        PairsSnoc(Arcs(init), ToArc(last.edge));
        ToPairsSnoc(CrossingsOf(init), Crossing(last.edge.ty, last.edge.snd.id, last.edge.rcv.id));
        assert CrossingsOf(init) + [] == CrossingsOf(init);
      } else {
        assert Arcs(log) == Arcs(init) && CrossingsOf(log) == CrossingsOf(init);
      }
    }
  }

  /** The two graphs agree on which crossing reaches which, crossings being matched by their order. */
  ghost predicate SameReach(arcs: seq<Arc>, arcs': seq<Arc>) {
    forall i: nat, j: nat, i': nat, j': nat ::
      && i < |arcs| && j < |arcs| && Crosses(arcs[i]) && Crosses(arcs[j]) && !arcs[i].note
      && i' < |arcs'| && j' < |arcs'| && Crosses(arcs'[i']) && Crosses(arcs'[j'])
      && Rank(arcs, i) == Rank(arcs', i') && Rank(arcs, j) == Rank(arcs', j') ==>
        (Reaches(arcs, arcs[i].dst, arcs[j].src) <==> Reaches(arcs', arcs'[i'].dst, arcs'[j'].src))
  }

  /** The same tracking, propagation, opacity and taint on every object. */
  predicate SameMarks(s: State, u: State) {
    s.nodes.Keys == u.nodes.Keys && forall o :: o in s.nodes ==> Peers(s.nodes[o], u.nodes[o])
  }

  lemma CompressedSteady(s: State, hidden: set<nat>, calls: seq<Call>, on: bool)
    requires SteadyOk(s, hidden) && SteadyState(s, hidden)
    requires CallsOk(Any, s, calls) && CallsLive(s, calls)
    ensures CallsLive(Compressing(s, on), calls) && SteadyOk(DoAll(Compressing(s, on), calls), hidden)
  {
    var u := Compressing(s, on);
    forall c | c in calls
      ensures CallOk(Steady(hidden), u, c) && CallLive(u, c) { assert CallOk(Any, s, c) && CallLive(s, c); }
    assert View(u) == View(s);
    forall o | o in u.nodes ensures FilterNode(u.policy, u.nodes[o]) <==> o in hidden {
      assert FilterNode(s.policy, s.nodes[o]) <==> o in hidden;
    }
    DoAllSteps(Steady(hidden), u, calls);
    SteadyOkSteps(u, DoAll(u, calls), hidden);
  }

  /**
   With or without node compression, the same calls emit the same relations
   between objects, leave the same marks, and have the same reachability.
   */
  lemma NodeCompressionPreservesMeaning(s: State, hidden: set<nat>, calls: seq<Call>)
    requires SteadyOk(s, hidden) && SteadyState(s, hidden)
    requires Relations(calls) && CallsOk(Any, s, calls) && CallsLive(s, calls)
    ensures CallsLive(Compressing(s, true), calls) && CallsLive(Compressing(s, false), calls)
    ensures var a, b := DoAll(Compressing(s, true), calls), DoAll(Compressing(s, false), calls);
            && CrossingsOf(a.log) == CrossingsOf(b.log)
            && SameMarks(a, b)
            && SameReach(Arcs(a.log), Arcs(b.log))
  {
    CompressedSteady(s, hidden, calls, true);
    CompressedSteady(s, hidden, calls, false);
    var s1, s2 := Compressing(s, true), Compressing(s, false);
    forall c | c in calls ensures CallOk(Any, s1, c) { assert CallOk(Any, s, c); }
    DoAllAlike(s1, s2, calls);
    var a, b := DoAll(s1, calls), DoAll(s2, calls);
    PairsOfCrossings(a.log);
    PairsOfCrossings(b.log);
    SameReachOf(a, b, hidden);
  }

  lemma SameReachOf(a: State, b: State, hidden: set<nat>)
    requires SteadyOk(a, hidden) && SteadyOk(b, hidden) && Pairs(Arcs(a.log)) == Pairs(Arcs(b.log))
    ensures SameReach(Arcs(a.log), Arcs(b.log))
  {
    var arcs, arcs' := Arcs(a.log), Arcs(b.log);
    forall i: nat, j: nat, i': nat, j': nat |
      && i < |arcs| && j < |arcs| && Crosses(arcs[i]) && Crosses(arcs[j]) && !arcs[i].note
      && i' < |arcs'| && j' < |arcs'| && Crosses(arcs'[i']) && Crosses(arcs'[j'])
      && Rank(arcs, i) == Rank(arcs', i') && Rank(arcs, j) == Rank(arcs', j')
      ensures Reaches(arcs, arcs[i].dst, arcs[j].src) <==> Reaches(arcs', arcs'[i'].dst, arcs'[j'].src)
    {
      SameReachability(View(a), View(b), hidden, i, j, i', j');
    }
  }
}
