/**
 Versioned graphs, the emitted provenance graph without its labels. An object
 has a current version, and a mark when that version has been the source of a
 relation. The recording engine keeps to four kinds of step; what those steps
 guarantee about reachability is proved here.
 */
module Graphs {

  datatype Vertex = Vertex(id: nat, version: nat)

  /** One relation; `note` marks a name or a log line hung on an object. */
  datatype Arc = Arc(note: bool, src: Vertex, dst: Vertex)

  /** A live object: its current version, and whether that has been the source of a relation. */
  datatype Object = Object(version: nat, outgoing: bool)

  /** Ids up to `bound`, and the machine's, have been handed out. */
  datatype Graph = Graph(bound: nat, machine: nat, objs: map<nat, Object>, arcs: seq<Arc>)

  // ---------- Reachability ----------

  /** `p` lists the positions of the arcs of a walk from `u` to `v`. */
  predicate Walk(arcs: seq<Arc>, p: seq<nat>, u: Vertex, v: Vertex)
    decreases |p|
  {
    if p == [] then u == v
    else p[0] < |arcs| && arcs[p[0]].src == u && Walk(arcs, p[1..], arcs[p[0]].dst, v)
  }

  ghost predicate Reaches(arcs: seq<Arc>, u: Vertex, v: Vertex) {
    exists p :: Walk(arcs, p, u, v)
  }

  ghost predicate Acyclic(arcs: seq<Arc>) {
    forall p, u :: Walk(arcs, p, u, u) ==> p == []
  }

  lemma {:induction false} WalkJoin(arcs: seq<Arc>, p: seq<nat>, q: seq<nat>, u: Vertex, v: Vertex, w: Vertex)
    requires Walk(arcs, p, u, v) && Walk(arcs, q, v, w)
    ensures Walk(arcs, p + q, u, w)
    decreases |p|
  {
    if p == [] {
      assert p + q == q;
    } else {
      WalkJoin(arcs, p[1..], q, arcs[p[0]].dst, v, w);
      assert (p + q)[1..] == p[1..] + q;
    }
  }

  lemma ReachesTrans(arcs: seq<Arc>, u: Vertex, v: Vertex, w: Vertex)
    requires Reaches(arcs, u, v) && Reaches(arcs, v, w)
    ensures Reaches(arcs, u, w)
  {
    var p :| Walk(arcs, p, u, v);
    var q :| Walk(arcs, q, v, w);
    WalkJoin(arcs, p, q, u, v, w);
  }

  lemma ReachesSelf(arcs: seq<Arc>, u: Vertex)
    ensures Reaches(arcs, u, u)
  {
    assert Walk(arcs, [], u, u);
  }

  lemma ReachesArc(arcs: seq<Arc>, i: nat)
    requires i < |arcs|
    ensures Reaches(arcs, arcs[i].src, arcs[i].dst)
  {
    assert [i][1..] == [];
    assert Walk(arcs, [i], arcs[i].src, arcs[i].dst);
  }

  lemma {:induction false} WalkGrow(arcs: seq<Arc>, more: seq<Arc>, p: seq<nat>, u: Vertex, v: Vertex)
    requires arcs <= more && Walk(arcs, p, u, v)
    ensures Walk(more, p, u, v)
    decreases |p|
  {
    if p != [] { WalkGrow(arcs, more, p[1..], arcs[p[0]].dst, v); }
  }

  lemma ReachesGrow(arcs: seq<Arc>, more: seq<Arc>, u: Vertex, v: Vertex)
    requires arcs <= more && Reaches(arcs, u, v)
    ensures Reaches(more, u, v)
  {
    var p :| Walk(arcs, p, u, v);
    WalkGrow(arcs, more, p, u, v);
  }

  // ---------- Steps ----------

  datatype Step =
    | Advance(o: nat, shown: bool)                          // an object moves to its next version
    | Cross(from: nat, to: nat, shown: bool)                 // a relation between live objects
    | Hang(to: nat, note: bool, shown: bool)                // a relation from a transient node
    | Create                                                // a new live object
    | Take                                                  // an id is spent on a transient node
    | Idle

  function Current(g: Graph, o: nat): Vertex
    requires o in g.objs
  {
    Vertex(o, g.objs[o].version)
  }

  predicate Allowed(g: Graph, st: Step) {
    match st
    case Advance(o, _) => o in g.objs
    case Cross(f, t, _) => f in g.objs && t in g.objs && f != t && !g.objs[t].outgoing
    case Hang(t, note, _) => g.bound + 1 < g.machine && t in g.objs && (note || !g.objs[t].outgoing)
    case Create => g.bound + 1 < g.machine
    case Take => g.bound + 1 < g.machine
    case Idle => true
  }

  function ArcOf(g: Graph, st: Step): seq<Arc>
    requires Allowed(g, st)
  {
    match st
    case Advance(o, shown) => if shown then [Arc(false, Current(g, o), Vertex(o, g.objs[o].version + 1))] else []
    case Cross(f, t, shown) => if shown then [Arc(false, Current(g, f), Current(g, t))] else []
    case Hang(t, note, shown) => if shown then [Arc(note, Vertex(g.bound + 1, 0), Current(g, t))] else []
    case _ => []
  }

  function After(g: Graph, st: Step): Graph
    requires Allowed(g, st)
  {
    var arcs := g.arcs + ArcOf(g, st);
    match st
    case Advance(o, _) => g.(objs := g.objs[o := Object(g.objs[o].version + 1, false)], arcs := arcs)
    case Cross(f, _, _) => g.(objs := g.objs[f := g.objs[f].(outgoing := true)], arcs := arcs)
    case Hang(_, _, _) => g.(bound := g.bound + 1, arcs := arcs)
    case Create => g.(bound := g.bound + 1, objs := g.objs[g.bound + 1 := Object(0, false)])
    case Take => g.(bound := g.bound + 1)
    case Idle => g
  }

  // ---------- What every step keeps ----------

  predicate Taken(g: Graph, id: nat) { id <= g.bound || id == g.machine }

  predicate KnownArc(g: Graph, a: Arc) {
    && Taken(g, a.src.id) && a.dst.id in g.objs && a.dst.version <= g.objs[a.dst.id].version
    && (a.src.id in g.objs ==>
          && !a.note && a.src.version <= g.objs[a.src.id].version
          && (a.src.version == g.objs[a.src.id].version ==> g.objs[a.src.id].outgoing))
    && (a.src.id == a.dst.id ==> a.dst.version == a.src.version + 1)
  }

  /** Of two arcs that meet in a vertex, the one going in was written first, unless it is a note. */
  predicate Ordered(arcs: seq<Arc>) {
    forall i, j :: 0 <= i < |arcs| && 0 <= j < |arcs| && arcs[i].dst == arcs[j].src && !arcs[i].note ==> i < j
  }

  /** Later relations leave an object at the version earlier ones reached, or a later one. */
  predicate Monotone(arcs: seq<Arc>) {
    forall i, j :: 0 <= i < j < |arcs| && arcs[i].dst.id == arcs[j].src.id ==>
        arcs[i].dst.version <= arcs[j].src.version
  }

  /** No version is reached twice from the version before it. */
  predicate OneStep(arcs: seq<Arc>) {
    forall i, j :: 0 <= i < j < |arcs| && arcs[i].src.id == arcs[i].dst.id && arcs[j].src.id == arcs[j].dst.id ==>
      arcs[i].dst != arcs[j].dst
  }

  predicate Inv(g: Graph) {
    && g.bound < g.machine && (forall o :: o in g.objs ==> Taken(g, o))
    && (forall i :: 0 <= i < |g.arcs| ==> KnownArc(g, g.arcs[i]))
    && Ordered(g.arcs) && Monotone(g.arcs) && OneStep(g.arcs)
  }

  lemma KnownAfter(g: Graph, st: Step, a: Arc)
    requires Inv(g) && Allowed(g, st) && KnownArc(g, a)
    ensures KnownArc(After(g, st), a)
  {
  }

  lemma KnownNew(g: Graph, st: Step)
    requires Inv(g) && Allowed(g, st) && ArcOf(g, st) != []
    ensures KnownArc(After(g, st), ArcOf(g, st)[0])
  {
  }

  lemma OrderedNew(g: Graph, st: Step)
    requires Inv(g) && Allowed(g, st)
    ensures Ordered(After(g, st).arcs)
  {
    if ArcOf(g, st) != [] {
      var a := ArcOf(g, st)[0];
      forall j | 0 <= j < |g.arcs| && a.dst == g.arcs[j].src ensures a.note {
        assert KnownArc(g, g.arcs[j]);
      }
    }
  }

  lemma MonotoneNew(g: Graph, st: Step)
    requires Inv(g) && Allowed(g, st)
    ensures Monotone(After(g, st).arcs)
  {
    if ArcOf(g, st) != [] {
      var a := ArcOf(g, st)[0];
      forall i | 0 <= i < |g.arcs| && g.arcs[i].dst.id == a.src.id ensures g.arcs[i].dst.version <= a.src.version {
        assert KnownArc(g, g.arcs[i]);
      }
    }
  }

  lemma OneStepNew(g: Graph, st: Step)
    requires Inv(g) && Allowed(g, st)
    ensures OneStep(After(g, st).arcs)
  {
    if ArcOf(g, st) != [] {
      var a := ArcOf(g, st)[0];
      if a.src.id == a.dst.id {
        forall i | 0 <= i < |g.arcs| ensures g.arcs[i].dst != a.dst {
          assert KnownArc(g, g.arcs[i]);
        }
      }
    }
  }

  lemma InvStep(g: Graph, st: Step)
    requires Inv(g) && Allowed(g, st)
    ensures Inv(After(g, st))
  {
    var h := After(g, st);
    forall i | 0 <= i < |h.arcs| ensures KnownArc(h, h.arcs[i]) {
      if i < |g.arcs| { KnownAfter(g, st, g.arcs[i]); } else { KnownNew(g, st); }
    }
    OrderedNew(g, st);
    MonotoneNew(g, st);
    OneStepNew(g, st);
  }

  // ---------- No cycles ----------

  /**
   Past its first arc a walk follows the order of writing, and it does so from the start unless it
   starts with a note.
   */
  lemma {:induction false} WalkAscends(g: Graph, p: seq<nat>, u: Vertex, v: Vertex)
    requires Inv(g) && Walk(g.arcs, p, u, v) && p != [] && u.id in g.objs
    ensures p[0] <= p[|p| - 1] < |g.arcs| && g.arcs[p[|p| - 1]].dst == v && !g.arcs[p[|p| - 1]].note
    decreases |p|
  {
    var a := g.arcs[p[0]];
    assert KnownArc(g, a);
    if |p| > 1 {
      WalkAscends(g, p[1..], a.dst, v);
      assert p[1..][0] == p[1];
      assert g.arcs[p[1]].src == a.dst;
    } else {
      assert p[1..] == [];
    }
  }

  lemma NoCycles(g: Graph)
    requires Inv(g)
    ensures Acyclic(g.arcs)
  {
    forall p, u | Walk(g.arcs, p, u, u) ensures p == [] {
      if p != [] {
        var z := p[|p| - 1];
        WalkEnds(g.arcs, p, u, u);
        assert KnownArc(g, g.arcs[z]);
        WalkAscends(g, p, u, u);
      }
    }
  }

  lemma {:induction false} WalkEnds(arcs: seq<Arc>, p: seq<nat>, u: Vertex, v: Vertex)
    requires Walk(arcs, p, u, v) && p != []
    ensures p[|p| - 1] < |arcs| && arcs[p[|p| - 1]].dst == v
    decreases |p|
  {
    if |p| > 1 {
      WalkEnds(arcs, p[1..], arcs[p[0]].dst, v);
    } else {
      assert p[1..] == [];
    }
  }

  // ---------- Reachability is temporal causality ----------

  /** Relations in the order of writing, each leaving the object that the one before it went into. */
  predicate Chain(arcs: seq<Arc>, c: seq<nat>) {
    && (forall k :: 0 <= k < |c| ==> c[k] < |arcs|)
    && forall k :: 0 <= k < |c| - 1 ==> c[k] < c[k + 1] && arcs[c[k]].dst.id == arcs[c[k + 1]].src.id
  }

  ghost predicate Causes(arcs: seq<Arc>, i: nat, j: nat) {
    exists c :: Chain(arcs, c) && |c| >= 2 && c[0] == i && c[|c| - 1] == j
  }

  /** The version an object starts with. */
  function First(g: Graph, o: nat): nat { if o == g.machine then 1 else 0 }

  /** Objects outside `hidden` leave a trace of every version; those inside leave none at all. */
  ghost predicate Traced(g: Graph, hidden: set<nat>) {
    && (forall o, k :: o in g.objs && o !in hidden && First(g, o) <= k < g.objs[o].version ==>
          Arc(false, Vertex(o, k), Vertex(o, k + 1)) in g.arcs)
    && (forall i :: 0 <= i < |g.arcs| ==>
         g.arcs[i].dst.id !in hidden && First(g, g.arcs[i].dst.id) <= g.arcs[i].dst.version)
  }

  predicate TracedStep(hidden: set<nat>, st: Step) {
    match st
    case Advance(o, shown) => shown <==> o !in hidden
    case Cross(_, t, shown) => shown ==> t !in hidden
    case Hang(t, _, shown) => shown ==> t !in hidden
    case _ => true
  }

  ghost predicate Started(g: Graph) {
    forall o :: o in g.objs ==> First(g, o) <= g.objs[o].version
  }

  lemma TracedAfter(g: Graph, hidden: set<nat>, st: Step)
    requires Inv(g) && Started(g) && Traced(g, hidden) && Allowed(g, st) && TracedStep(hidden, st)
    ensures Traced(After(g, st), hidden) && Started(After(g, st))
  {
    var h := After(g, st);
    forall o, k | o in h.objs && o !in hidden && First(g, o) <= k < h.objs[o].version
      ensures Arc(false, Vertex(o, k), Vertex(o, k + 1)) in h.arcs
    {
      var a := Arc(false, Vertex(o, k), Vertex(o, k + 1));
      if o in g.objs && k < g.objs[o].version {
        assert a in g.arcs;
      } else {
        assert st == Advance(o, true) && ArcOf(g, st) == [a];
      }
    }
    forall i | 0 <= i < |h.arcs|
      ensures h.arcs[i].dst.id !in hidden && First(g, h.arcs[i].dst.id) <= h.arcs[i].dst.version
    {
      if i >= |g.arcs| { assert h.arcs[i] == ArcOf(g, st)[0]; }
    }
  }

  predicate IsVersionArc(a: Arc, o: nat, k: nat) { a.src == Vertex(o, k) && a.dst == Vertex(o, k + 1) }

  /** Version `k` of the object is related to the next one, and only once. */
  ghost predicate LinkedOnce(arcs: seq<Arc>, o: nat, k: nat) {
    exists i :: && 0 <= i < |arcs| && IsVersionArc(arcs[i], o, k)
                && forall j :: 0 <= j < |arcs| && IsVersionArc(arcs[j], o, k) ==> j == i
  }

  lemma StepIsLinkedOnce(g: Graph, hidden: set<nat>, o: nat, k: nat)
    requires Inv(g) && Traced(g, hidden) && o in g.objs && o !in hidden && First(g, o) <= k < g.objs[o].version
    ensures LinkedOnce(g.arcs, o, k)
  {
    var a := Arc(false, Vertex(o, k), Vertex(o, k + 1));
    assert a in g.arcs;
    var i :| 0 <= i < |g.arcs| && g.arcs[i] == a;
    assert IsVersionArc(g.arcs[i], o, k);
    assert forall j :: 0 <= j < |g.arcs| && IsVersionArc(g.arcs[j], o, k) ==> j == i;
  }

  lemma {:induction false} VersionWalk(g: Graph, hidden: set<nat>, o: nat, k: nat, l: nat)
    requires Traced(g, hidden) && o in g.objs && o !in hidden
    requires First(g, o) <= k <= l <= g.objs[o].version
    ensures Reaches(g.arcs, Vertex(o, k), Vertex(o, l))
    decreases l - k
  {
    if k == l {
      ReachesSelf(g.arcs, Vertex(o, k));
    } else {
      var a := Arc(false, Vertex(o, k), Vertex(o, k + 1));
      assert a in g.arcs;
      var i :| 0 <= i < |g.arcs| && g.arcs[i] == a;
      ReachesArc(g.arcs, i);
      VersionWalk(g, hidden, o, k + 1, l);
      ReachesTrans(g.arcs, Vertex(o, k), Vertex(o, k + 1), Vertex(o, l));
    }
  }

  /** One hop of a chain is a walk over the object's versions. */
  lemma Hop(g: Graph, hidden: set<nat>, i: nat, j: nat)
    requires Inv(g) && Traced(g, hidden)
    requires i < j < |g.arcs| && g.arcs[i].dst.id == g.arcs[j].src.id
    ensures Reaches(g.arcs, g.arcs[i].dst, g.arcs[j].src)
  {
    var a, b := g.arcs[i], g.arcs[j];
    assert KnownArc(g, a) && KnownArc(g, b);
    VersionWalk(g, hidden, a.dst.id, a.dst.version, b.src.version);
  }

  lemma {:induction false} ChainReaches(g: Graph, hidden: set<nat>, c: seq<nat>)
    requires Inv(g) && Traced(g, hidden) && Chain(g.arcs, c) && |c| >= 2
    ensures Reaches(g.arcs, g.arcs[c[0]].dst, g.arcs[c[|c| - 1]].src)
    decreases |c|
  {
    var u := g.arcs[c[0]].dst;
    Hop(g, hidden, c[0], c[1]);
    if |c| > 2 {
      var rest := c[1..];
      assert rest[0] == c[1] && rest[|rest| - 1] == c[|c| - 1];
      assert Chain(g.arcs, rest) by {
        forall k | 0 <= k < |rest| - 1
          ensures rest[k] < rest[k + 1] && g.arcs[rest[k]].dst.id == g.arcs[rest[k + 1]].src.id
        { assert rest[k] == c[k + 1] && rest[k + 1] == c[k + 2]; }
      }
      ChainReaches(g, hidden, rest);
      var b := g.arcs[c[1]];
      ReachesArc(g.arcs, c[1]);
      ReachesTrans(g.arcs, u, b.src, b.dst);
      ReachesTrans(g.arcs, u, b.dst, g.arcs[c[|c| - 1]].src);
    }
  }

  /** A walk between two relations is itself a chain of relations. */
  lemma {:induction false} WalkIsChain(g: Graph, i: nat, p: seq<nat>, j: nat)
    requires Inv(g) && i < |g.arcs| && j < |g.arcs| && !g.arcs[i].note
    requires Walk(g.arcs, p, g.arcs[i].dst, g.arcs[j].src)
    ensures Chain(g.arcs, [i] + p + [j])
    decreases |p|
  {
    assert KnownArc(g, g.arcs[i]);
    if p == [] {
      assert [i] + p + [j] == [i, j];
    } else {
      var k := p[0];
      assert KnownArc(g, g.arcs[k]);
      WalkIsChain(g, k, p[1..], j);
      ChainCons(g.arcs, i, [k] + p[1..] + [j]);
      assert [i] + ([k] + p[1..] + [j]) == [i] + p + [j];
    }
  }

  lemma ChainCons(arcs: seq<Arc>, i: nat, c: seq<nat>)
    requires Chain(arcs, c) && c != [] && i < c[0] && arcs[i].dst.id == arcs[c[0]].src.id
    ensures Chain(arcs, [i] + c)
  {
    var d := [i] + c;
    forall k | 0 <= k < |d| - 1 ensures d[k] < d[k + 1] && arcs[d[k]].dst.id == arcs[d[k + 1]].src.id {
      if k > 0 { assert d[k] == c[k - 1] && d[k + 1] == c[k]; }
    }
  }

  lemma ReachabilityIsCausality(g: Graph, hidden: set<nat>, i: nat, j: nat)
    requires Inv(g) && Traced(g, hidden) && i < |g.arcs| && j < |g.arcs| && !g.arcs[i].note
    ensures Reaches(g.arcs, g.arcs[i].dst, g.arcs[j].src) <==> Causes(g.arcs, i, j)
  {
    if Reaches(g.arcs, g.arcs[i].dst, g.arcs[j].src) {
      var p :| Walk(g.arcs, p, g.arcs[i].dst, g.arcs[j].src);
      WalkIsChain(g, i, p, j);
      var c := [i] + p + [j];
      assert c[0] == i && c[|c| - 1] == j;
    }
    if Causes(g.arcs, i, j) {
      var c :| Chain(g.arcs, c) && |c| >= 2 && c[0] == i && c[|c| - 1] == j;
      ChainReaches(g, hidden, c);
    }
  }
}
