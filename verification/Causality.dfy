/**
 The emitted provenance graph over whole runs: it has no cycles, reachability
 in it is temporal causality, and the versions of an object are an unbroken
 chain of relations.
 */
module Causality {
  import opened ProvTypes
  import opened Model
  import opened Requests
  import opened Graphs
  import opened Views
  import opened Decomposition

  predicate GraphOk(s: State) { WellFormed(s) && Inv(View(s)) }

  lemma GraphOkApply(s: State, op: Op)
    requires GraphOk(s) && Legal(s, op)
    ensures GraphOk(Apply(s, op))
  {
    ApplyView(s, op);
    InvStep(View(s), StepOf(s, op));
  }

  lemma GraphOkSteps(m: Mode, s: State, s': State)
    requires GraphOk(s) && Steps(m, s, s')
    ensures GraphOk(s')
  {
    var P := (x: State) => GraphOk(x);
    forall x, op | P(x) && Good(m, x, op) ensures P(Apply(x, op)) { GraphOkApply(x, op); }
    assert Closed(m, P);
  }

  lemma BootOk(policy: Policy, machine: nat)
    requires 0 < machine
    ensures GraphOk(Boot(policy, machine))
  {
  }

  /** Every run fits when nothing is asked of it. */
  lemma {:induction false} AnyFits(s: State, rs: seq<Request>)
    requires ValidRun(s, rs)
    ensures FitRun(Any, s, rs)
    decreases |rs|
  {
    if rs != [] { AnyFits(Perform(s, rs[0]), rs[1..]); }
  }

  lemma RunGraphOk(s: State, rs: seq<Request>)
    requires GraphOk(s) && ValidRun(s, rs)
    ensures GraphOk(Run(s, rs))
  {
    AnyFits(s, rs);
    RunSteps(Any, s, rs);
    GraphOkSteps(Any, s, Run(s, rs));
  }

  /** Versioning does what it is for: no run, under any changes of policy, emits a cycle. */
  lemma EmittedGraphIsAcyclic(policy: Policy, machine: nat, rs: seq<Request>)
    requires 0 < machine && ValidRun(Boot(policy, machine), rs)
    ensures Acyclic(Arcs(Run(Boot(policy, machine), rs).log))
  {
    BootOk(policy, machine);
    RunGraphOk(Boot(policy, machine), rs);
    NoCycles(View(Run(Boot(policy, machine), rs)));
  }

  /** The current version of an object whose mark is clear has no relation out of it. */
  lemma UnmarkedIsSink(policy: Policy, machine: nat, rs: seq<Request>, o: nat, i: nat)
    requires 0 < machine && ValidRun(Boot(policy, machine), rs)
    requires var s := Run(Boot(policy, machine), rs); o in s.nodes && !s.nodes[o].outgoing && i < |Arcs(s.log)|
    ensures var s := Run(Boot(policy, machine), rs); Arcs(s.log)[i].src != Vertex(o, s.nodes[o].version)
  {
    BootOk(policy, machine);
    RunGraphOk(Boot(policy, machine), rs);
    var s := Run(Boot(policy, machine), rs);
    assert KnownArc(View(s), Arcs(s.log)[i]);
  }

  // ---------- Steady runs ----------

  ghost predicate SteadyOk(s: State, hidden: set<nat>) { GraphOk(s) && Started(View(s)) && Traced(View(s), hidden) }

  lemma SteadyOkApply(s: State, op: Op, hidden: set<nat>)
    requires SteadyOk(s, hidden) && Good(Steady(hidden), s, op)
    ensures SteadyOk(Apply(s, op), hidden)
  {
    GraphOkApply(s, op);
    ApplyView(s, op);
    TracedAfter(View(s), hidden, StepOf(s, op));
  }

  lemma SteadyOkSteps(s: State, s': State, hidden: set<nat>)
    requires SteadyOk(s, hidden) && Steps(Steady(hidden), s, s')
    ensures SteadyOk(s', hidden)
  {
    var P := (x: State) => SteadyOk(x, hidden);
    forall x, op | P(x) && Good(Steady(hidden), x, op) ensures P(Apply(x, op)) { SteadyOkApply(x, op, hidden); }
    assert Closed(Steady(hidden), P);
  }

  lemma RunSteadyOk(policy: Policy, machine: nat, rs: seq<Request>, hidden: set<nat>)
    requires 0 < machine && ValidRun(Boot(policy, machine), rs) && FitRun(Steady(hidden), Boot(policy, machine), rs)
    ensures SteadyOk(Run(Boot(policy, machine), rs), hidden)
  {
    var s := Boot(policy, machine);
    BootOk(policy, machine);
    RunSteps(Steady(hidden), s, rs);
    SteadyOkSteps(s, Run(s, rs), hidden);
  }

  /**
   In a steady run one emitted relation reaches another in the graph exactly
   when a chain of relations, each written after the one before it and leaving
   the object that one went into, leads from the first to the second.
   */
  lemma ReachabilityIsTemporalCausality(
    policy: Policy, machine: nat, rs: seq<Request>, hidden: set<nat>, i: nat, j: nat)
    requires 0 < machine && ValidRun(Boot(policy, machine), rs) && FitRun(Steady(hidden), Boot(policy, machine), rs)
    requires var arcs := Arcs(Run(Boot(policy, machine), rs).log); i < |arcs| && j < |arcs| && !arcs[i].note
    ensures var arcs := Arcs(Run(Boot(policy, machine), rs).log);
            Reaches(arcs, arcs[i].dst, arcs[j].src) <==> Causes(arcs, i, j)
  {
    RunSteadyOk(policy, machine, rs, hidden);
    ReachabilityIsCausality(View(Run(Boot(policy, machine), rs)), hidden, i, j);
  }

  /** From an object's first version to its current one, each version is related to the next exactly once. */
  lemma VersionsFormAChain(policy: Policy, machine: nat, rs: seq<Request>, hidden: set<nat>, o: nat, k: nat)
    requires 0 < machine && ValidRun(Boot(policy, machine), rs) && FitRun(Steady(hidden), Boot(policy, machine), rs)
    requires var s := Run(Boot(policy, machine), rs);
             o in s.nodes && o !in hidden && (if o == s.machine then 1 else 0) <= k < s.nodes[o].version
    ensures LinkedOnce(Arcs(Run(Boot(policy, machine), rs).log), o, k)
  {
    RunSteadyOk(policy, machine, rs, hidden);
    StepIsLinkedOnce(View(Run(Boot(policy, machine), rs)), hidden, o, k);
  }

  // ---------- Why the ends of a relation must differ ----------

  lemma ShouldRecordStable(s: State, s': State, ty: Word, o: nat)
    requires Stable(s, s') && o in s.nodes
    ensures ShouldRecord(s'.policy, ty, s'.nodes[o], s'.nodes[o]) == ShouldRecord(s.policy, ty, s.nodes[o], s.nodes[o])
  {
  }

  lemma SecondEndSame(p: Policy, epoch: nat, ty: Word, n: Node)
    ensures var m := SecondEnd(p, epoch, ty, n);
            m.id == n.id && m.version == n.version && ShouldRecord(p, ty, n, m) == ShouldRecord(p, ty, n, n)
  {
  }

  lemma SelfArcs(s: State, ty: Word, o: nat)
    requires o in s.nodes
    ensures var n := s.nodes[o];
            Arcs(Link(s, ty, o, o).log) == Arcs(s.log) +
            if !ShouldRecord(s.policy, ty, n, n) then []
            else [Arc(IsAnnotation(ty), Vertex(n.id, n.version), Vertex(n.id, n.version))]
  {
    var n := s.nodes[o].(outgoing := true);
    SecondEndSame(s.policy, s.epoch, ty, n);
    WriteArcs(s.policy, s.epoch, ty, n, SecondEnd(s.policy, s.epoch, ty, n), s.log, s.trail);
  }

  lemma SelfLink(s: State, ty: Word, o: nat)
    requires GraphOk(s) && o in s.nodes
    ensures Acyclic(Arcs(Link(s, ty, o, o).log)) <==> !ShouldRecord(s.policy, ty, s.nodes[o], s.nodes[o])
  {
    SelfArcs(s, ty, o);
    NoCycles(View(s));
    if ShouldRecord(s.policy, ty, s.nodes[o], s.nodes[o]) {
      LoopIsCycle(Arcs(s.log), Arcs(Link(s, ty, o, o).log)[|Arcs(s.log)|]);
    }
  }

  lemma LoopIsCycle(arcs: seq<Arc>, a: Arc)
    requires a.src == a.dst
    ensures !Acyclic(arcs + [a])
  {
    var i := |arcs|;
    assert [i][1..] == [];
    assert Walk(arcs + [a], [i], a.src, a.src);
  }

  /** Recording a relation of an object to itself makes a cycle exactly when the relation is written out. */
  lemma SelfRelationMakesACycle(s: State, ty: Word, o: nat)
    requires GraphOk(s) && o in s.nodes
    ensures Acyclic(Arcs(RecordRelation(s, ty, o, o).log))
            <==> Repeats(s.policy, ty, o, s.nodes[o]) || !ShouldRecord(s.policy, ty, s.nodes[o], s.nodes[o])
  {
    if Repeats(s.policy, ty, o, s.nodes[o]) {
      NoCycles(View(s));
    } else {
      var s1 := Remember(s, ty, o, o);
      var s2 := UpdateVersion(s1, ty, o);
      RememberSteps(Any, s, ty, o, o);
      UpdateVersionSteps(Any, s1, ty, o);
      GraphOkSteps(Any, s, s1);
      GraphOkSteps(Any, s1, s2);
      ShouldRecordStable(s, s2, ty, o);
      SelfLink(s2, ty, o);
    }
  }
}
