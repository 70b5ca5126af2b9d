/**
 The emitted graph of an engine state, keyed by object and version: every
 primitive operation of the engine is one step of that graph.
 */
module Views {
  import opened ProvTypes
  import opened Model
  import opened Requests
  import opened Graphs

  function ToVertex(i: Ident): Vertex { Vertex(i.id, i.version) }

  function ToArc(e: Edge): Arc { Arc(IsAnnotation(e.ty), ToVertex(e.snd), ToVertex(e.rcv)) }

  /** The relations of a log, in the order they were written. */
  function Arcs(log: seq<Record>): seq<Arc> {
    if log == [] then []
    else
      var last := log[|log| - 1];
      Arcs(log[..|log| - 1]) + if last.Relation? then [ToArc(last.edge)] else []
  }

  lemma {:induction false} ArcsAppend(log: seq<Record>, more: seq<Record>)
    ensures Arcs(log + more) == Arcs(log) + Arcs(more)
    decreases |more|
  {
    if more == [] {
      assert log + more == log;
    } else {
      var init := more[..|more| - 1];
      assert (log + more)[..|log + more| - 1] == log + init;
      ArcsAppend(log, init);
    }
  }

  lemma ArcsLine(r: Record)
    ensures Arcs([r]) == if r.Relation? then [ToArc(r.edge)] else []
  {
    assert [r][..0] == [];
  }

  lemma WriteArcs(p: Policy, epoch: nat, ty: Word, f: Node, t: Node, log: seq<Record>, trail: seq<Event>)
    ensures Arcs(WriteRelation(p, epoch, ty, f, t, log, trail).log) ==
            Arcs(log) +
            if !ShouldRecord(p, ty, f, t) then []
            else [Arc(IsAnnotation(ty), Vertex(f.id, f.version), Vertex(t.id, t.version))]
  {
    if ShouldRecord(p, ty, f, t) {
      var a, b, r := NodeLine(p, epoch, f), NodeLine(p, epoch, t), Relation(Edge(ty, IdentOf(f), IdentOf(t)), epoch);
      ArcsAppend(log + a + b, [r]);
      ArcsAppend(log + a, b);
      ArcsAppend(log, a);
      ArcsLine(r);
      ArcsLine(NodeRecord(f.(epoch := epoch)));
      ArcsLine(NodeRecord(t.(epoch := epoch)));
    }
  }

  // ---------- States as versioned graphs ----------

  predicate WellFormed(s: State) {
    && s.machine in s.nodes && s.counter < s.machine
    && forall o :: o in s.nodes ==> s.nodes[o].id == o && (o <= s.counter || o == s.machine)
  }

  function ObjectOf(n: Node): Object { Object(n.version, n.outgoing) }

  function View(s: State): Graph {
    Graph(s.counter, s.machine, map o | o in s.nodes :: ObjectOf(s.nodes[o]), Arcs(s.log))
  }

  function StepOf(s: State, op: Op): Step
    requires Legal(s, op)
  {
    match op
    case BumpOp(o, ty, kind, mode) =>
      Advance(o, ShouldRecord(s.policy, ty, s.nodes[o], NextVersion(s.nodes[o], kind, mode)))
    case LinkOp(ty, f, t) => Cross(f, t, ShouldRecord(s.policy, ty, s.nodes[f], s.nodes[t]))
    case AttachOp(ty, src, t) => Hang(t, IsAnnotation(ty), ShouldRecord(s.policy, ty, src, s.nodes[t]))
    case TakeIdOp => Take
    case AllocOp(_) => Create
    case _ => Idle
  }

  predicate Follows(s: State, op: Op)
    requires Legal(s, op)
  {
    && Allowed(View(s), StepOf(s, op))
    && WellFormed(Apply(s, op))
    && View(Apply(s, op)) == After(View(s), StepOf(s, op))
  }

  lemma FrameWellFormed(s: State, s': State)
    requires WellFormed(s) && SameFrame(s, s') && s.counter <= s'.counter < s'.machine
    ensures WellFormed(s')
  {
  }

  lemma BumpView(s: State, op: Op)
    requires WellFormed(s) && Legal(s, op) && op.BumpOp?
    ensures Follows(s, op)
  {
    var n := s.nodes[op.o];
    WriteArcs(s.policy, s.epoch, op.ty, n, NextVersion(n, op.kind, op.mode), s.log, s.trail);
    FrameWellFormed(s, Apply(s, op));
    assert View(Apply(s, op)).objs == After(View(s), StepOf(s, op)).objs;
  }

  lemma LinkArcs(s: State, ty: Word, f: nat, t: nat)
    requires WellFormed(s) && Distinct(s, f, t) && !IsAnnotation(ty)
    ensures Arcs(Link(s, ty, f, t).log) ==
            Arcs(s.log) +
            if !ShouldRecord(s.policy, ty, s.nodes[f], s.nodes[t]) then []
            else [Arc(false, Current(View(s), f), Current(View(s), t))]
  {
    WriteArcs(s.policy, s.epoch, ty, s.nodes[f].(outgoing := true), s.nodes[t], s.log, s.trail);
  }

  lemma LinkView(s: State, op: Op)
    requires WellFormed(s) && Legal(s, op) && op.LinkOp?
    ensures Follows(s, op)
  {
    var s' := Link(s, op.ty, op.from, op.to);
    LinkNodes(s, op.ty, op.from, op.to);
    LinkArcs(s, op.ty, op.from, op.to);
    LinkObjects(s, s', op.from);
    FrameWellFormed(s, s');
    LinkFollows(s, op, s');
  }

  lemma LinkFollows(s: State, op: Op, s': State)
    requires WellFormed(s) && Legal(s, op) && op.LinkOp? && s' == Apply(s, op) && WellFormed(s')
             && s'.counter == s.counter
    requires View(s').objs == View(s).objs[op.from := View(s).objs[op.from].(outgoing := true)]
    requires Arcs(s'.log) == Arcs(s.log) + if ShouldRecord(s.policy, op.ty, s.nodes[op.from], s.nodes[op.to])
             then [Arc(false, Current(View(s), op.from), Current(View(s), op.to))] else []
    ensures Follows(s, op)
  {
  }

  lemma LinkNodes(s: State, ty: Word, f: nat, t: nat)
    requires f in s.nodes && t in s.nodes && f != t
    ensures var s' := Link(s, ty, f, t);
            && ObjectOf(s'.nodes[f]) == Object(s.nodes[f].version, true)
            && ObjectOf(s'.nodes[t]) == ObjectOf(s.nodes[t])
            && forall o :: o in s.nodes && o != f && o != t ==> s'.nodes[o] == s.nodes[o]
  {
  }

  lemma LinkObjects(s: State, s': State, f: nat)
    requires f in s.nodes && s'.nodes.Keys == s.nodes.Keys && ObjectOf(s'.nodes[f]) == Object(s.nodes[f].version, true)
    requires forall o :: o in s.nodes && o != f ==> ObjectOf(s'.nodes[o]) == ObjectOf(s.nodes[o])
    ensures View(s').objs == View(s).objs[f := View(s).objs[f].(outgoing := true)]
  {
  }

  lemma AttachArcs(s: State, ty: Word, src: Node, t: nat)
    requires WellFormed(s) && t in s.nodes && src.id == NextId(s) && src.version == 0
    ensures Arcs(Attach(s, ty, src, t).log) ==
            Arcs(s.log) +
            if !ShouldRecord(s.policy, ty, src, s.nodes[t]) then []
            else [Arc(IsAnnotation(ty), Vertex(NextId(s), 0), Current(View(s), t))]
  {
    WriteArcs(s.policy, s.epoch, ty, src, s.nodes[t], s.log, s.trail);
  }

  lemma AttachNodes(s: State, ty: Word, src: Node, t: nat)
    requires t in s.nodes
    ensures var s' := Attach(s, ty, src, t);
            s'.counter == NextId(s) && View(s').objs == View(s).objs
  {
    var s' := Attach(s, ty, src, t);
    assert forall o :: o in s.nodes ==> ObjectOf(s'.nodes[o]) == ObjectOf(s.nodes[o]);
  }

  lemma AttachView(s: State, op: Op)
    requires WellFormed(s) && Legal(s, op) && op.AttachOp?
    ensures Follows(s, op)
  {
    var s' := Attach(s, op.ty, op.src, op.to);
    AttachNodes(s, op.ty, op.src, op.to);
    AttachArcs(s, op.ty, op.src, op.to);
    FrameWellFormed(s, s');
    AttachFollows(s, op, s');
  }

  lemma AttachFollows(s: State, op: Op, s': State)
    requires WellFormed(s) && Legal(s, op) && op.AttachOp? && s' == Apply(s, op) && WellFormed(s')
             && s'.counter == NextId(s)
    requires View(s').objs == View(s).objs
    requires Arcs(s'.log) == Arcs(s.log) + if ShouldRecord(s.policy, op.ty, op.src, s.nodes[op.to])
             then [Arc(IsAnnotation(op.ty), Vertex(NextId(s), 0), Current(View(s), op.to))] else []
    ensures Follows(s, op)
  {
    var shown := ShouldRecord(s.policy, op.ty, op.src, s.nodes[op.to]);
    HangFollows(View(s), View(s'), op.to, IsAnnotation(op.ty), shown);
  }

  lemma HangFollows(g: Graph, g': Graph, t: nat, note: bool, shown: bool)
    requires t in g.objs && g.bound + 1 < g.machine && (note || !g.objs[t].outgoing)
    requires g' == Graph(g.bound + 1, g.machine, g.objs, g'.arcs)
    requires g'.arcs == g.arcs + if shown then [Arc(note, Vertex(g.bound + 1, 0), Current(g, t))] else []
    ensures Allowed(g, Hang(t, note, shown)) && g' == After(g, Hang(t, note, shown))
  {
  }

  lemma IdleView(s: State, op: Op)
    requires WellFormed(s) && Legal(s, op) && !op.BumpOp? && !op.LinkOp? && !op.AttachOp?
    ensures Follows(s, op)
  {
    assert View(Apply(s, op)).objs == After(View(s), StepOf(s, op)).objs;
  }

  lemma ApplyView(s: State, op: Op)
    requires WellFormed(s) && Legal(s, op)
    ensures Follows(s, op)
  {
    match op
    case BumpOp(_, _, _, _) => BumpView(s, op);
    case LinkOp(_, _, _) => LinkView(s, op);
    case AttachOp(_, _, _) => AttachView(s, op);
    case _ => IdleView(s, op);
  }
}
