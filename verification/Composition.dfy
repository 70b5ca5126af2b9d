/**
 Hooks connect end to end. When nothing is filtered, `Uses` makes what it read
 reach the process memory and every writable shared mapping, and `Generates`
 makes the memory and every readable shared mapping reach what it wrote.
 */
module Composition {
  import opened ProvTypes
  import opened Model
  import opened Requests
  import opened Graphs
  import opened Views
  import opened Decomposition

  /** The vertex of an object's current version. */
  function At(s: State, o: nat): Vertex
    requires o in s.nodes
  {
    Vertex(o, s.nodes[o].version)
  }

  /** Edges are not compressed, and no relation and no node is filtered out. */
  ghost predicate Clear(s: State) {
    && WellFormed(s) && !s.policy.compressEdge
    && (forall ty :: !FilterRelation(s.policy, ty))
    && forall o :: o in s.nodes ==> !FilterNode(s.policy, s.nodes[o])
  }

  /** The log has grown, and each object's version then leads to its version now. */
  ghost predicate Connects(s: State, s': State) {
    && Arcs(s.log) <= Arcs(s'.log) && s'.nodes.Keys == s.nodes.Keys
    && forall o :: o in s.nodes ==> Reaches(Arcs(s'.log), At(s, o), At(s', o))
  }

  lemma ConnectsTrans(s: State, s1: State, s2: State)
    requires Connects(s, s1) && Connects(s1, s2)
    ensures Connects(s, s2)
  {
    forall o | o in s.nodes ensures Reaches(Arcs(s2.log), At(s, o), At(s2, o)) {
      ReachesGrow(Arcs(s1.log), Arcs(s2.log), At(s, o), At(s1, o));
      ReachesTrans(Arcs(s2.log), At(s, o), At(s1, o), At(s2, o));
    }
  }

  /** What is reached stays reached, and from there the later version of the object too. */
  lemma Onward(s1: State, s2: State, u: Vertex, o: nat)
    requires Connects(s1, s2) && o in s1.nodes && Reaches(Arcs(s1.log), u, At(s1, o))
    ensures Reaches(Arcs(s2.log), u, At(s2, o))
  {
    ReachesGrow(Arcs(s1.log), Arcs(s2.log), u, At(s1, o));
    ReachesTrans(Arcs(s2.log), u, At(s1, o), At(s2, o));
  }

  lemma ClearStable(s: State, s': State)
    requires Clear(s) && Stable(s, s') && s.counter <= s'.counter < s'.machine
    ensures Clear(s')
  {
    FrameWellFormed(s, s');
    forall o | o in s'.nodes ensures !FilterNode(s'.policy, s'.nodes[o]) { assert !FilterNode(s.policy, s.nodes[o]); }
  }

  // ---------- One relation ----------

  lemma BumpConnects(s: State, o: nat, ty: Word)
    requires Clear(s) && o in s.nodes && !IsAnnotation(ty)
    ensures Connects(s, Bump(s, o, ty, s.nodes[o].kind, s.nodes[o].memo.mode))
  {
    var op := BumpOp(o, ty, s.nodes[o].kind, s.nodes[o].memo.mode);
    var s' := Apply(s, op);
    assert !FilterNode(s.policy, s.nodes[o]);
    ApplyView(s, op);
    assert StepOf(s, op) == Advance(o, true);
    StepConnects(s, s', StepOf(s, op));
  }

  lemma LinkKeepsConnected(s: State, s': State, ty: Word, f: nat, t: nat)
    requires Clear(s) && Legal(s, LinkOp(ty, f, t)) && s' == Link(s, ty, f, t)
    ensures Connects(s, s')
  {
    var op := LinkOp(ty, f, t);
    assert !FilterNode(s.policy, s.nodes[f]) && !FilterNode(s.policy, s.nodes[t]);
    ApplyView(s, op);
    StepConnects(s, s', StepOf(s, op));
  }

  lemma LinkAddsArc(s: State, s': State, ty: Word, f: nat, t: nat)
    requires Clear(s) && Legal(s, LinkOp(ty, f, t)) && s' == Link(s, ty, f, t)
    ensures Arcs(s'.log) == Arcs(s.log) + [Arc(false, At(s, f), At(s', t))]
  {
    assert !FilterNode(s.policy, s.nodes[f]) && !FilterNode(s.policy, s.nodes[t]);
    LinkArcs(s, ty, f, t);
    LinkNodes(s, ty, f, t);
  }

  lemma LinkConnects(s: State, ty: Word, f: nat, t: nat)
    requires Clear(s) && Legal(s, LinkOp(ty, f, t))
    ensures var s' := Link(s, ty, f, t); Connects(s, s') && Reaches(Arcs(s'.log), At(s, f), At(s', t))
  {
    var s' := Link(s, ty, f, t);
    LinkKeepsConnected(s, s', ty, f, t);
    LinkAddsArc(s, s', ty, f, t);
    ReachesArc(Arcs(s'.log), |Arcs(s.log)|);
  }

  /** A shown step of the graph connects the versions before it to those after it. */
  lemma StepConnects(s: State, s': State, st: Step)
    requires Allowed(View(s), st) && View(s') == After(View(s), st)
    requires (st.Advance? && st.shown) || st.Cross?
    ensures Connects(s, s')
  {
    var g, g' := View(s), View(s');
    assert s'.nodes.Keys == g'.objs.Keys == g.objs.Keys == s.nodes.Keys;
    forall o | o in s.nodes ensures Reaches(Arcs(s'.log), At(s, o), At(s', o)) {
      assert At(s, o) == Current(g, o) && At(s', o) == Current(g', o);
      if st.Advance? && st.o == o {
        ReachesArc(g'.arcs, |g.arcs|);
      } else {
        ReachesSelf(g'.arcs, Current(g, o));
      }
    }
  }

  lemma SameConnects(s: State)
    ensures Connects(s, s)
  {
    forall o | o in s.nodes ensures Reaches(Arcs(s.log), At(s, o), At(s, o)) { ReachesSelf(Arcs(s.log), At(s, o)); }
  }

  lemma RelationConnects(s: State, ty: Word, f: nat, t: nat)
    requires Clear(s) && IsFlow(ty) && Distinct(s, f, t)
    ensures var s' := RecordRelation(s, ty, f, t);
            Clear(s') && s'.counter == s.counter && Connects(s, s') && Reaches(Arcs(s'.log), At(s, f), At(s', t))
  {
    var s1 := UpdateVersion(s, ty, t);
    PrepareSteps(Any, s, ty, f, t);
    SameConnects(s);
    if UpdatesVersion(s.policy, ty, s.nodes[t]) { BumpConnects(s, t, VersionType(s.nodes[t])); }
    ClearStable(s, s1);
    LinkConnects(s1, ty, f, t);
    var s' := Link(s1, ty, f, t);
    ClearStable(s1, s');
    ConnectsTrans(s, s1, s');
    ReachesGrow(Arcs(s1.log), Arcs(s'.log), At(s, f), At(s1, f));
    ReachesTrans(Arcs(s'.log), At(s, f), At(s1, f), At(s', t));
  }

  lemma RanOnConnects(s: State, o: nat)
    requires Clear(s) && Distinct(s, s.machine, o)
    ensures var s' := SetKernelRecorded(RecordRelation(s, RL_RAN_ON, s.machine, o), o);
            Clear(s') && s'.counter == s.counter && Connects(s, s')
  {
    RanOnJoins();
    RelationConnects(s, RL_RAN_ON, s.machine, o);
    var s1 := RecordRelation(s, RL_RAN_ON, s.machine, o);
    SetKernelConnects(s1, o);
    ConnectsTrans(s, s1, SetKernelRecorded(s1, o));
  }

  lemma KernelLinkConnects(s: State, o: nat)
    requires Clear(s) && Distinct(s, s.machine, o)
    ensures var s' := RecordKernelLink(s, o); Clear(s') && s'.counter == s.counter && Connects(s, s')
  {
    SameConnects(s);
    RanOnConnects(s, o);
  }

  lemma SetKernelConnects(s: State, o: nat)
    requires Clear(s) && o in s.nodes
    ensures var s' := SetKernelRecorded(s, o); Clear(s') && s'.counter == s.counter && Connects(s, s')
  {
    ClearStable(s, SetKernelRecorded(s, o));
    SameVersions(s, SetKernelRecorded(s, o));
  }

  lemma SameVersions(s: State, s': State)
    requires Arcs(s'.log) == Arcs(s.log) && s'.nodes.Keys == s.nodes.Keys
    requires forall o :: o in s.nodes ==> s'.nodes[o].version == s.nodes[o].version
    ensures Connects(s, s')
  {
    forall o | o in s.nodes ensures Reaches(Arcs(s'.log), At(s, o), At(s', o)) { ReachesSelf(Arcs(s.log), At(s, o)); }
  }

  // ---------- Sequences of calls ----------

  lemma DoConnects(s: State, c: Call)
    requires Clear(s) && CallLive(s, c) && CallOk(Any, s, c)
    ensures var s' := Do(s, c);
            && Clear(s') && s'.counter == s.counter && Connects(s, s')
            && (c.Relate? ==> Reaches(Arcs(s'.log), At(s, c.from), At(s', c.to)))
  {
    match c
    case Relate(ty, f, t) => RelationConnects(s, ty, f, t);
    case LinkKernel(o) => KernelLinkConnects(s, o);
  }

  /** The relations among `calls` lead from their sources in `s` to their destinations in `s'`. */
  ghost predicate Carried(s: State, s': State, calls: seq<Call>)
    requires s'.nodes.Keys == s.nodes.Keys && CallsLive(s, calls)
  {
    forall c :: c in calls && c.Relate? ==> Reaches(Arcs(s'.log), At(s, c.from), At(s', c.to))
  }

  lemma CarriedOn(s: State, s1: State, s': State, init: seq<Call>, d: Call)
    requires CallsLive(s, init) && CallLive(s, d) && Connects(s, s1) && Connects(s1, s') && Carried(s, s1, init)
    requires d.Relate? ==> Reaches(Arcs(s'.log), At(s1, d.from), At(s', d.to))
    ensures CallsLive(s, init + [d]) && Carried(s, s', init + [d])
  {
    forall c | c in init + [d] && c.Relate? ensures Reaches(Arcs(s'.log), At(s, c.from), At(s', c.to)) {
      if c in init {
        Onward(s1, s', At(s, c.from), c.to);
      } else {
        ReachesGrow(Arcs(s1.log), Arcs(s'.log), At(s, c.from), At(s1, c.from));
        ReachesTrans(Arcs(s'.log), At(s, c.from), At(s1, c.from), At(s', c.to));
      }
    }
  }

  /** Each relation of the sequence leads from its source before to its destination after. */
  lemma {:induction false} DoAllConnects(s: State, calls: seq<Call>)
    requires Clear(s) && CallsLive(s, calls) && CallsOk(Any, s, calls)
    ensures var s' := DoAll(s, calls); Clear(s') && s'.counter == s.counter && Connects(s, s') && Carried(s, s', calls)
    decreases |calls|
  {
    if calls == [] {
      SameConnects(s);
    } else {
      var init, d := calls[..|calls| - 1], calls[|calls| - 1];
      assert calls == init + [d];
      DoAllConnects(s, init);
      assert CallLive(s, d) && CallOk(Any, s, d);
      OneMore(s, DoAll(s, init), init, d);
    }
  }

  lemma OneMore(s: State, s1: State, init: seq<Call>, d: Call)
    requires Clear(s1) && Stable(s, s1) && CallsLive(s, init) && Connects(s, s1) && Carried(s, s1, init)
    requires CallLive(s, d) && CallOk(Any, s, d)
    ensures CallLive(s1, d) && CallsLive(s, init + [d])
    ensures var s' := Do(s1, d); Clear(s') && s'.counter == s1.counter && Connects(s, s') && Carried(s, s', init + [d])
  {
    DoConnects(s1, d);
    ConnectsTrans(s, s1, Do(s1, d));
    CarriedOn(s, s1, Do(s1, d), init, d);
  }

  // ---------- Hooks ----------

  /** Applying targets changes no version and writes nothing. */
  lemma {:induction false} TargetAllKeeps(s: State, objs: seq<nat>)
    requires forall o :: o in objs ==> o in s.nodes
    ensures var s' := TargetAll(s, objs);
            s'.log == s.log && forall o :: o in s.nodes ==> s'.nodes[o].version == s.nodes[o].version
    decreases |objs|
  {
    if objs != [] { TargetAllKeeps(s, objs[..|objs| - 1]); }
  }

  lemma BeginKeeps(s: State, h: Hook)
    requires HookLive(s, h)
    ensures var s' := Begin(s, h); s'.log == s.log && forall o :: o in s.nodes ==> At(s', o) == At(s, o)
  {
    TargetAllKeeps(s, h.objs);
  }

  /** Reaching along two stretches of calls. */
  lemma TwoStretches(s: State, a: seq<Call>, b: seq<Call>)
    requires Clear(s) && CallsLive(s, a + b) && CallsOk(Any, s, a + b)
    ensures CallsLive(s, a) && CallsLive(DoAll(s, a), b)
    ensures var s1, s' := DoAll(s, a), DoAll(s, a + b);
            && Connects(s, s1) && Carried(s, s1, a) && Connects(s1, s') && Carried(s1, s', b)
  {
    forall c | c in a ensures CallLive(s, c) && CallOk(Any, s, c) { assert c in a + b; }
    DoAllSplit(s, a, b);
    DoAllConnects(s, a);
    var s1 := DoAll(s, a);
    forall c | c in b ensures CallOk(Any, s1, c) { assert c in a + b && CallOk(Any, s, c); }
    DoAllConnects(s1, b);
  }

  /** A relation of the first stretch followed by one of the second that leaves the object it went into. */
  lemma Through(s: State, s1: State, s': State, a: seq<Call>, b: seq<Call>, c: Call, d: Call)
    requires CallsLive(s, a) && CallsLive(s1, b) && Connects(s, s1) && Connects(s1, s')
    requires Carried(s, s1, a) && Carried(s1, s', b)
    requires c in a && c.Relate? && d in b && d.Relate? && c.to == d.from
    ensures c.from in s.nodes && d.to in s'.nodes && Reaches(Arcs(s'.log), At(s, c.from), At(s', d.to))
  {
    assert CallLive(s, c) && CallLive(s1, d);
    ReachesGrow(Arcs(s1.log), Arcs(s'.log), At(s, c.from), At(s1, c.to));
    ReachesTrans(Arcs(s'.log), At(s, c.from), At(s1, c.to), At(s', d.to));
  }

  /** What `Uses` promises of the state after it. */
  ghost predicate UsedBy(s: State, s': State, entity: nat, mem: nat, maps: seq<Mapping>)
    requires entity in s.nodes && mem in s'.nodes && MappingsLive(s', maps)
  {
    && Reaches(Arcs(s'.log), At(s, entity), At(s', mem))
    && forall i :: 0 <= i < |maps| && maps[i].file.FileNode? && maps[i].write && maps[i].mayShare ==>
         Reaches(Arcs(s'.log), At(s, entity), At(s', maps[i].file.id))
  }

  lemma UsesCallsReach(s: State, r: Request)
    requires r.Using? && ValidHook(s, r) && Clear(s) && HookLive(s, HookOf(s, r))
    ensures UsedBy(s, DoAll(s, HookOf(s, r).calls), r.entity, r.mem, r.maps)
  {
    var a1 := [Relate(r.ty, r.entity, r.activity)];
    var a2 := [LinkKernel(r.activity), Relate(RL_PROC_WRITE, r.activity, r.mem)];
    var b := SharedCalls(r.mem, r.maps, false);
    assert HookOf(s, r).calls == a1 + a2 + b;
    UsesCallsOk(Any, s, r);
    TwoStretches(s, a1 + a2, b);
    var s2, s' := DoAll(s, a1 + a2), DoAll(s, a1 + a2 + b);
    forall c | c in a1 + a2 ensures CallOk(Any, s, c) && CallLive(s, c) { assert c in a1 + a2 + b; }
    TwoStretches(s, a1, a2);
    Through(s, DoAll(s, a1), s2, a1, a2, a1[0], a2[1]);
    assert Reaches(Arcs(s2.log), At(s, r.entity), At(s2, r.mem));
    Onward(s2, s', At(s, r.entity), r.mem);
    SharedCallsFor(r.mem, r.maps, false);
    forall i | 0 <= i < |r.maps| && r.maps[i].file.FileNode? && r.maps[i].write && r.maps[i].mayShare
      ensures Reaches(Arcs(s'.log), At(s, r.entity), At(s', r.maps[i].file.id))
    {
      var c := Relate(RL_SH_WRITE, r.mem, r.maps[i].file.id);
      assert c in SharedCall(r.mem, r.maps[i], false);
      assert c in b;
      ReachesGrow(Arcs(s2.log), Arcs(s'.log), At(s, r.entity), At(s2, r.mem));
      ReachesTrans(Arcs(s'.log), At(s, r.entity), At(s2, r.mem), At(s', r.maps[i].file.id));
    }
  }

  lemma ValidHookFrame(s: State, s1: State, r: Request)
    requires (r.Using? || r.Generating?) && ValidHook(s, r) && SameFrame(s, s1) && HookLive(s, HookOf(s, r))
    ensures ValidHook(s1, r) && HookOf(s1, r) == HookOf(s, r) && HookLive(s1, HookOf(s1, r))
  {
    ValidHookLive(s1, r);
  }

  /** Past its guards, `Uses` leads from what was used to the memory and every writable shared mapping. */
  lemma UsesConnects(s: State, r: Request)
    requires r.Using? && ValidHook(s, r)
    requires HookLive(s, HookOf(s, r)) && Clear(Begin(s, HookOf(s, r))) && Passes(Begin(s, HookOf(s, r)), HookOf(s, r))
    ensures UsedBy(s, RunHook(s, HookOf(s, r)), r.entity, r.mem, r.maps)
  {
    var h := HookOf(s, r);
    var s1 := Begin(s, h);
    BeginKeeps(s, h);
    ValidHookFrame(s, s1, r);
    UsesCallsReach(s1, r);
    assert UsedBy(s1, DoAll(s1, h.calls), r.entity, r.mem, r.maps);
  }

  /** What `Generates` promises of the state after it. */
  ghost predicate GeneratedFrom(s: State, s': State, entity: nat, mem: nat, maps: seq<Mapping>)
    requires entity in s'.nodes && mem in s.nodes && MappingsLive(s, maps)
  {
    && Reaches(Arcs(s'.log), At(s, mem), At(s', entity))
    && forall i :: 0 <= i < |maps| && maps[i].file.FileNode? && (maps[i].read || maps[i].exec) && maps[i].mayShare ==>
         Reaches(Arcs(s'.log), At(s, maps[i].file.id), At(s', entity))
  }

  /** Calls that are fine in a state are fine after the first of them. */
  lemma LaterCallsOk(s: State, s1: State, a: seq<Call>, b: seq<Call>)
    requires CallsOk(Any, s, a + b) && CallsLive(s, a + b) && SameFrame(s, s1)
    ensures CallsOk(Any, s1, b) && CallsLive(s1, b)
  {
    forall c | c in b ensures CallOk(Any, s1, c) && CallLive(s1, c) {
      assert c in a + b && CallOk(Any, s, c);
    }
  }

  lemma GeneratesCallsReach(s: State, r: Request)
    requires r.Generating? && ValidHook(s, r) && Clear(s) && HookLive(s, HookOf(s, r))
    ensures GeneratedFrom(s, DoAll(s, HookOf(s, r).calls), r.entity, r.mem, r.maps)
  {
    var a := SharedCalls(r.mem, r.maps, true);
    var b1 := [Relate(RL_PROC_READ, r.mem, r.activity)];
    var b2 := [LinkKernel(r.activity), Relate(r.ty, r.activity, r.entity)];
    assert HookOf(s, r).calls == a + (b1 + b2);
    GeneratesCallsOk(Any, s, r);
    TwoStretches(s, a, b1 + b2);
    var s1, s' := DoAll(s, a), DoAll(s, a + (b1 + b2));
    LaterCallsOk(s, s1, a, b1 + b2);
    DoAllSplit(s, a, b1 + b2);
    DoAllConnectsPrefix(s, a, b1 + b2);
    TwoStretches(s1, b1, b2);
    Through(s1, DoAll(s1, b1), s', b1, b2, b1[0], b2[1]);
    ReadersReach(s, s1, s', r.entity, r.mem, r.maps);
  }

  /** What the memory reaches, the mappings read into it reach. */
  lemma ReadersReach(s: State, s1: State, s': State, entity: nat, mem: nat, maps: seq<Mapping>)
    requires entity in s'.nodes && mem in s.nodes && MappingsLive(s, maps) && CallsLive(s, SharedCalls(mem, maps, true))
    requires Connects(s, s1) && Connects(s1, s') && Carried(s, s1, SharedCalls(mem, maps, true))
    requires Reaches(Arcs(s'.log), At(s1, mem), At(s', entity))
    ensures GeneratedFrom(s, s', entity, mem, maps)
  {
    ReachesGrow(Arcs(s1.log), Arcs(s'.log), At(s, mem), At(s1, mem));
    ReachesTrans(Arcs(s'.log), At(s, mem), At(s1, mem), At(s', entity));
    SharedCallsFor(mem, maps, true);
    forall i | 0 <= i < |maps| && maps[i].file.FileNode? && (maps[i].read || maps[i].exec) && maps[i].mayShare
      ensures Reaches(Arcs(s'.log), At(s, maps[i].file.id), At(s', entity))
    {
      var c := Relate(RL_SH_READ, maps[i].file.id, mem);
      assert c in SharedCall(mem, maps[i], true);
      assert c in SharedCalls(mem, maps, true);
      ReachesGrow(Arcs(s1.log), Arcs(s'.log), At(s, maps[i].file.id), At(s1, mem));
      ReachesTrans(Arcs(s'.log), At(s, maps[i].file.id), At(s1, mem), At(s', entity));
    }
  }

  lemma DoAllConnectsPrefix(s: State, a: seq<Call>, b: seq<Call>)
    requires Clear(s) && CallsLive(s, a + b) && CallsOk(Any, s, a + b) && CallsLive(s, a)
    ensures Clear(DoAll(s, a))
  {
    forall c | c in a ensures CallOk(Any, s, c) { assert c in a + b; }
    DoAllConnects(s, a);
  }

  /** Past its guards, `Generates` leads from the memory and every readable shared mapping to what was generated. */
  lemma GeneratesConnects(s: State, r: Request)
    requires r.Generating? && ValidHook(s, r)
    requires HookLive(s, HookOf(s, r)) && Clear(Begin(s, HookOf(s, r))) && Passes(Begin(s, HookOf(s, r)), HookOf(s, r))
    ensures GeneratedFrom(s, RunHook(s, HookOf(s, r)), r.entity, r.mem, r.maps)
  {
    var h := HookOf(s, r);
    var s1 := Begin(s, h);
    BeginKeeps(s, h);
    ValidHookFrame(s, s1, r);
    GeneratesCallsReach(s1, r);
    GeneratedSame(s, s1, DoAll(s1, h.calls), r.entity, r.mem, r.maps);
  }

  lemma GeneratedSame(s: State, s1: State, s': State, entity: nat, mem: nat, maps: seq<Mapping>)
    requires SameFrame(s, s1) && (forall o :: o in s.nodes ==> At(s1, o) == At(s, o))
    requires entity in s'.nodes && mem in s.nodes && MappingsLive(s, maps) && GeneratedFrom(s1, s', entity, mem, maps)
    ensures GeneratedFrom(s, s', entity, mem, maps)
  {
  }
}
