/**
 What the filters let through and what they let propagate, told by the bits of
 the type words: which filter speaks for which category of relations, and what
 is asked of the two ends.
 */
module Admission {
  import opened ProvTypes
  import opened Model
  import opened Requests
  import opened Views
  import opened Decomposition
  import opened EdgeTaint

  // ---------- Bits ----------

  predicate Has(ty: Word, mask: bv64) { ty.bits & mask == mask }
  predicate Apart(a: Word, b: Word) { a.bits & b.bits == 0 }

  /** One filter for each category of relations that can be filtered. */
  datatype Bars = Bars(derived: Word, generated: Word, used: Word, informed: Word)

  /** The filter of the type's category has no bit of the type; of a type with several categories the first counts. */
  predicate Admits(b: Bars, ty: Word) {
    var d, g, u, i := Has(ty, 0x8080000000000000), Has(ty, 0x8040000000000000),
      Has(ty, 0x8020000000000000), Has(ty, 0x8010000000000000);
    && (d ==> Apart(b.derived, ty))
    && (!d && g ==> Apart(b.generated, ty))
    && (!d && !g && u ==> Apart(b.used, ty))
    && (!d && !g && !u && i ==> Apart(b.informed, ty))
  }

  lemma DerivedFilter(b: Bars, ty: Word)
    requires OfCategory(ty, RL_DERIVED)
    ensures Admits(b, ty) <==> Apart(b.derived, ty)
  {
    assert Has(ty, 0x8080000000000000);
  }

  lemma GeneratedFilter(b: Bars, ty: Word)
    requires OfCategory(ty, RL_GENERATED)
    ensures Admits(b, ty) <==> Apart(b.generated, ty)
  {
    assert !Has(ty, 0x8080000000000000) && Has(ty, 0x8040000000000000);
  }

  lemma UsedFilter(b: Bars, ty: Word)
    requires OfCategory(ty, RL_USED)
    ensures Admits(b, ty) <==> Apart(b.used, ty)
  {
    assert !Has(ty, 0x8080000000000000) && !Has(ty, 0x8040000000000000) && Has(ty, 0x8020000000000000);
  }

  lemma InformedFilter(b: Bars, ty: Word)
    requires OfCategory(ty, RL_INFORMED)
    ensures Admits(b, ty) <==> Apart(b.informed, ty)
  {
    assert !Has(ty, 0x8080000000000000) && !Has(ty, 0x8040000000000000);
    assert !Has(ty, 0x8020000000000000) && Has(ty, 0x8010000000000000);
  }

  lemma NoFilter(b: Bars, ty: Word)
    requires OfCategory(ty, RL_INFLUENCED) || OfCategory(ty, RL_ASSOCIATED)
    ensures Admits(b, ty)
  {
    assert !Has(ty, 0x8080000000000000) && !Has(ty, 0x8040000000000000);
    assert !Has(ty, 0x8020000000000000) && !Has(ty, 0x8010000000000000);
  }

  /** Each type of the kernel is of one category, and has one filter or none. */
  lemma OneFilterPerCategory(b: Bars, ty: Word)
    ensures OfCategory(ty, RL_DERIVED) ==> (Admits(b, ty) <==> Apart(b.derived, ty))
    ensures OfCategory(ty, RL_GENERATED) ==> (Admits(b, ty) <==> Apart(b.generated, ty))
    ensures OfCategory(ty, RL_USED) ==> (Admits(b, ty) <==> Apart(b.used, ty))
    ensures OfCategory(ty, RL_INFORMED) ==> (Admits(b, ty) <==> Apart(b.informed, ty))
    ensures OfCategory(ty, RL_INFLUENCED) || OfCategory(ty, RL_ASSOCIATED) ==> Admits(b, ty)
  {
    if OfCategory(ty, RL_DERIVED) { DerivedFilter(b, ty); }
    if OfCategory(ty, RL_GENERATED) { GeneratedFilter(b, ty); }
    if OfCategory(ty, RL_USED) { UsedFilter(b, ty); }
    if OfCategory(ty, RL_INFORMED) { InformedFilter(b, ty); }
    if OfCategory(ty, RL_INFLUENCED) || OfCategory(ty, RL_ASSOCIATED) { NoFilter(b, ty); }
  }

  // ---------- Recording ----------

  function RecordBars(p: Policy): Bars { Bars(p.derivedFilter, p.generatedFilter, p.usedFilter, p.informedFilter) }

  predicate Visible(p: Policy, n: Node) { p.enabled && !n.isOpaque && Apart(p.nodeFilter, n.kind) }

  predicate Admitted(p: Policy, ty: Word, f: Node, t: Node) {
    Admits(RecordBars(p), ty) && Visible(p, f) && Visible(p, t)
  }

  lemma TypesDecide(p: Policy, ty: Word)
    ensures FilterRelation(p, ty) <==> !Admits(RecordBars(p), ty)
  {
  }

  lemma EndsDecide(p: Policy, n: Node)
    ensures FilterNode(p, n) <==> !Visible(p, n)
  {
  }

  lemma FiltersDecide(p: Policy, ty: Word, f: Node, t: Node)
    ensures ShouldRecord(p, ty, f, t) <==> Admitted(p, ty, f, t)
  {
    TypesDecide(p, ty);
    EndsDecide(p, f);
    EndsDecide(p, t);
  }

  predicate IsVersioning(ty: Word) { ty == RL_VERSION || ty == RL_VERSION_TASK }

  /** Of what was written last, only relations between versions are relations. */
  predicate OnlyVersions(log: seq<Record>, log': seq<Record>) {
    log <= log' && forall i :: |log| <= i < |log'| && log'[i].Relation? ==> IsVersioning(log'[i].edge.ty)
  }

  lemma PreparedLog(s: State, s1: State, ty: Word, f: nat, t: nat)
    requires Distinct(s, f, t) && s1 == UpdateVersion(Remember(s, ty, f, t), ty, t)
    ensures OnlyVersions(s.log, s1.log) && s1.epoch == s.epoch && s1.nodes[f] == s.nodes[f]
  {
  }

  lemma LinkedLog(s: State, s': State, ty: Word, f: nat, t: nat)
    requires Distinct(s, f, t) && s' == Link(s, ty, f, t)
    ensures if Admitted(s.policy, ty, s.nodes[f], s.nodes[t]) then
              && |s'.log| > |s.log|
              && s'.log[|s'.log| - 1] == Relation(Edge(ty, IdentOf(s'.nodes[f]), IdentOf(s'.nodes[t])), s.epoch)
            else s'.log == s.log
  {
    FiltersDecide(s.policy, ty, s.nodes[f].(outgoing := true), s.nodes[t]);
  }

  /**
   A relation that is asked for, and is no compressed repeat, is written, last
   and between the current versions, if the filters of its category and of its
   ends let it through; if not, at most versions are.
   */
  lemma WrittenIfAdmitted(s: State, ty: Word, f: nat, t: nat)
    requires Distinct(s, f, t) && !Repeats(s.policy, ty, f, s.nodes[t])
    ensures var s' := RecordRelation(s, ty, f, t);
            if Admitted(s.policy, ty, s.nodes[f], s.nodes[t]) then
              && |s'.log| > |s.log|
              && s'.log[|s'.log| - 1] == Relation(Edge(ty, IdentOf(s'.nodes[f]), IdentOf(s'.nodes[t])), s.epoch)
            else OnlyVersions(s.log, s'.log)
  {
    var s1 := UpdateVersion(Remember(s, ty, f, t), ty, t);
    PreparedLog(s, s1, ty, f, t);
    LinkedLog(s1, Link(s1, ty, f, t), ty, f, t);
  }

  // ---------- Propagation ----------

  function PropagateBars(p: Policy): Bars {
    Bars(p.propagateDerivedFilter, p.propagateGeneratedFilter, p.propagateUsedFilter, p.propagateInformedFilter)
  }

  /** What it takes for a written relation to pass tracking and taint on. */
  predicate PassedOn(p: Policy, ty: Word, f: Node, t: Node) {
    && f.propagate && f.tracked
    && p.enabled && !t.isOpaque && Apart(p.propagateNodeFilter, t.kind)
    && Admits(PropagateBars(p), ty)
  }

  lemma PropagationDecides(p: Policy, ty: Word)
    ensures FilterPropagateRelation(p, ty) <==> !Admits(PropagateBars(p), ty)
  {
  }

  lemma FlowDecides(p: Policy, ty: Word, f: Node, t: Node)
    ensures Carries(p, ty, f, t) <==> PassedOn(p, ty, f, t)
  {
    PropagationDecides(p, ty);
  }

  /**
   A relation that is no compressed repeat raises tracking and propagation of
   its destination, and adds its source's taint, exactly when it is written and
   passed on; no other object changes any of these.
   */
  lemma RaisedIfPassedOn(s: State, ty: Word, f: nat, t: nat, o: nat)
    requires WellFormed(s) && Distinct(s, f, t) && o in s.nodes && !Repeats(s.policy, ty, f, s.nodes[t])
    ensures var p, from, to := s.policy, s.nodes[f], s.nodes[t];
            var n, n' := s.nodes[o], RecordRelation(s, ty, f, t).nodes[o];
            var reached := o == t && Admitted(p, ty, from, to) && PassedOn(p, ty, from, to);
            && n'.tracked == (n.tracked || reached) && n'.propagate == (n.propagate || reached)
            && n'.taint == (if reached then n.taint + from.taint else n.taint) && n'.isOpaque == n.isOpaque
  {
    RelationReaches(s, ty, f, t, o);
    FiltersDecide(s.policy, ty, s.nodes[f], s.nodes[t]);
    FlowDecides(s.policy, ty, s.nodes[f], s.nodes[t]);
  }

  // ---------- Whole runs ----------

  predicate LawfulRecord(p: Policy, r: Record) {
    r.Relation? ==>
      && Admits(RecordBars(p), r.edge.ty) && p.enabled
      && Apart(p.nodeFilter, r.edge.snd.kind) && Apart(p.nodeFilter, r.edge.rcv.kind)
  }

  predicate LawfulEvent(p: Policy, e: Event) { e.Sent? ==> e.policy == p && Admitted(p, e.ty, e.from, e.to) }

  predicate Lawful(p: Policy, log: seq<Record>, trail: seq<Event>) {
    && (forall i :: 0 <= i < |log| ==> LawfulRecord(p, log[i]))
    && (forall i :: 0 <= i < |trail| ==> LawfulEvent(p, trail[i]))
  }

  lemma WriteLawful(p: Policy, epoch: nat, ty: Word, f: Node, t: Node, log: seq<Record>, trail: seq<Event>)
    requires Lawful(p, log, trail)
    ensures var w := WriteRelation(p, epoch, ty, f, t, log, trail); Lawful(p, w.log, w.trail)
  {
    FiltersDecide(p, ty, f, t);
  }

  lemma LawfulApply(s: State, op: Op)
    requires Lawful(s.policy, s.log, s.trail) && Legal(s, op)
    ensures Lawful(s.policy, Apply(s, op).log, Apply(s, op).trail)
  {
    match op
    case BumpOp(o, ty, kind, mode) =>
      WriteLawful(s.policy, s.epoch, ty, s.nodes[o], NextVersion(s.nodes[o], kind, mode), s.log, s.trail);
    case LinkOp(ty, f, t) =>
      WriteLawful(s.policy, s.epoch, ty, s.nodes[f].(outgoing := true), s.nodes[t], s.log, s.trail);
    case AttachOp(ty, src, t) => WriteLawful(s.policy, s.epoch, ty, src, s.nodes[t], s.log, s.trail);
    case _ =>
  }

  lemma LawfulSteps(policy: Policy, s: State, s': State)
    requires Lawful(policy, s.log, s.trail) && Steps(Ruled(policy), s, s')
    ensures Lawful(policy, s'.log, s'.trail)
  {
    var P := (x: State) => Lawful(policy, x.log, x.trail);
    forall x, op | P(x) && Good(Ruled(policy), x, op) ensures P(Apply(x, op)) { LawfulApply(x, op); }
    assert Closed(Ruled(policy), P);
  }

  /**
   While the policy stays as it is, no relation that it filters out, by its type,
   by the kinds of its ends or because an end is opaque, is ever written.
   */
  lemma NothingFilteredIsEmitted(policy: Policy, machine: nat, rs: seq<Request>)
    requires 0 < machine && ValidRun(Boot(policy, machine), rs) && FitRun(Ruled(policy), Boot(policy, machine), rs)
    ensures var s := Run(Boot(policy, machine), rs); Lawful(policy, s.log, s.trail)
  {
    var s := Boot(policy, machine);
    RunSteps(Ruled(policy), s, rs);
    LawfulSteps(policy, s, Run(s, rs));
  }
}
