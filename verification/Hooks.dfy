/**
 What each hook asks for, told by the fields of its objects: the relations, in
 order, and the condition under which it asks for any.
 */
module Hooks {
  import opened ProvTypes
  import opened Model
  import opened Requests
  import opened Decomposition
  import opened Admission
  import opened Targets
  import opened Versions

  // ---------- Shared mappings ----------

  /** The relations with the mappings that are shared and writable, in their order. */
  function SharedWrites(mem: nat, maps: seq<Mapping>): seq<Call> {
    if maps == [] then []
    else
      (if maps[0].file.FileNode? && maps[0].write && maps[0].mayShare
       then [Relate(RL_SH_WRITE, mem, maps[0].file.id)] else [])
      + SharedWrites(mem, maps[1..])
  }

  /** The relations with the mappings that are shared and readable or executable, in their order. */
  function SharedReads(mem: nat, maps: seq<Mapping>): seq<Call> {
    if maps == [] then []
    else
      (if maps[0].file.FileNode? && (maps[0].read || maps[0].exec) && maps[0].mayShare
       then [Relate(RL_SH_READ, maps[0].file.id, mem)] else [])
      + SharedReads(mem, maps[1..])
  }

  lemma {:induction false} SharedWritesSnoc(mem: nat, maps: seq<Mapping>, m: Mapping)
    ensures SharedWrites(mem, maps + [m]) == SharedWrites(mem, maps) + SharedWrites(mem, [m])
    decreases |maps|
  {
    if maps == [] {
      assert maps + [m] == [m];
    } else {
      assert (maps + [m])[1..] == maps[1..] + [m];
      SharedWritesSnoc(mem, maps[1..], m);
    }
  }

  lemma {:induction false} SharedReadsSnoc(mem: nat, maps: seq<Mapping>, m: Mapping)
    ensures SharedReads(mem, maps + [m]) == SharedReads(mem, maps) + SharedReads(mem, [m])
    decreases |maps|
  {
    if maps == [] {
      assert maps + [m] == [m];
    } else {
      assert (maps + [m])[1..] == maps[1..] + [m];
      SharedReadsSnoc(mem, maps[1..], m);
    }
  }

  lemma {:induction false} SharedCallsAre(mem: nat, maps: seq<Mapping>)
    ensures SharedCalls(mem, maps, false) == SharedWrites(mem, maps)
    ensures SharedCalls(mem, maps, true) == SharedReads(mem, maps)
    decreases |maps|
  {
    if maps != [] {
      var init, m := maps[..|maps| - 1], maps[|maps| - 1];
      assert maps == init + [m];
      SharedCallsAre(mem, init);
      SharedWritesSnoc(mem, init, m);
      SharedReadsSnoc(mem, init, m);
      assert [m][1..] == [];
    }
  }

  /**
   The memory is related to exactly the files that some mapping has shared with
   the right access: a private mapping brings none.
   */
  lemma SharedRelations(mem: nat, maps: seq<Mapping>, id: nat)
    ensures Relate(RL_SH_WRITE, mem, id) in SharedCalls(mem, maps, false) <==>
            exists i :: 0 <= i < |maps| && maps[i].file == FileNode(id) && maps[i].write && maps[i].mayShare
    ensures Relate(RL_SH_READ, id, mem) in SharedCalls(mem, maps, true) <==>
            exists i :: 0 <= i < |maps| && maps[i].file == FileNode(id) && (maps[i].read || maps[i].exec)
                        && maps[i].mayShare
    ensures forall c :: c in SharedCalls(mem, maps, false) ==> c.Relate? && c.ty == RL_SH_WRITE && c.from == mem
    ensures forall c :: c in SharedCalls(mem, maps, true) ==> c.Relate? && c.ty == RL_SH_READ && c.to == mem
  {
    SharedCallsFor(mem, maps, false);
    SharedCallsFor(mem, maps, true);
    if i :| 0 <= i < |maps| && maps[i].file == FileNode(id) && maps[i].write && maps[i].mayShare {
      assert Relate(RL_SH_WRITE, mem, id) in SharedCall(mem, maps[i], false);
    }
    if i :| 0 <= i < |maps| && maps[i].file == FileNode(id) && (maps[i].read || maps[i].exec) && maps[i].mayShare {
      assert Relate(RL_SH_READ, id, mem) in SharedCall(mem, maps[i], true);
    }
  }

  // ---------- What is asked for ----------

  /** The relations asked for, as calls. */
  function Called(asked: seq<Asking>): (r: seq<Call>)
    ensures |r| == |asked|
  {
    seq(|asked|, i requires 0 <= i < |asked| => Relate(asked[i].ty, asked[i].from, asked[i].to))
  }

  lemma CalledOneMore(asked: seq<Asking>, a: Asking)
    ensures Called(asked + [a]) == Called(asked) + [Relate(a.ty, a.from, a.to)]
  {
  }

  lemma RelateAsks(s: State, ty: Word, f: nat, t: nat)
    requires f in s.nodes && t in s.nodes && !s.policy.compressEdge
    ensures Called(RecordRelation(s, ty, f, t).asked) == Called(s.asked) + [Relate(ty, f, t)]
  {
    var s1 := UpdateVersion(Remember(s, ty, f, t), ty, t);
    CalledOneMore(s.asked, Asking(ty, f, s1.nodes[f].version, t));
  }

  /** The machine is at a version that the object, which is recorded, does not know of. */
  predicate Unlinked(s: State, o: nat)
    requires o in s.nodes && s.machine in s.nodes
  {
    s.nodes[o].memo.kernelVersion < s.nodes[s.machine].version && s.epoch <= s.nodes[o].epoch
  }

  function IfSo(b: bool, c: Call): seq<Call> { if b then [c] else [] }

  lemma LinkAsks(s: State, o: nat)
    requires o in s.nodes && s.machine in s.nodes && !s.policy.compressEdge
    ensures Called(RecordKernelLink(s, o).asked) ==
            Called(s.asked) + IfSo(Unlinked(s, o), Relate(RL_RAN_ON, s.machine, o))
  {
    if Unlinked(s, o) {
      RelateAsks(s, RL_RAN_ON, s.machine, o);
    } else {
      assert Called(s.asked) + [] == Called(s.asked);
    }
  }

  lemma AsksOneMore(s: State, asked: seq<Call>, calls: seq<Call>, c: Call)
    requires CallLive(s, c) && c.Relate? && !s.policy.compressEdge && Called(s.asked) == asked + calls
    ensures Called(Do(s, c).asked) == asked + (calls + [c])
  {
    RelateAsks(s, c.ty, c.from, c.to);
    assert asked + calls + [c] == asked + (calls + [c]);
  }

  lemma {:induction false} DoAllAsks(s: State, calls: seq<Call>)
    requires CallsLive(s, calls) && (forall c :: c in calls ==> c.Relate?) && !s.policy.compressEdge
    ensures Called(DoAll(s, calls).asked) == Called(s.asked) + calls
    decreases |calls|
  {
    if calls != [] {
      var init, c := calls[..|calls| - 1], calls[|calls| - 1];
      assert c in calls && calls == init + [c];
      DoAllAsks(s, init);
      AsksOneMore(DoAll(s, init), Called(s.asked), init, c);
    }
  }

  // ---------- The guards ----------

  /** The node once its targets have been applied. */
  function After(s: State, o: nat): Node
    requires o in s.nodes
  {
    ApplyTarget(s.policy, s.nodes[o])
  }

  predicate Fit2(p: Policy, a: Node, b: Node) { !a.isOpaque && !b.isOpaque && (a.tracked || b.tracked || p.all) }

  predicate Fit3(p: Policy, a: Node, b: Node, c: Node) {
    !a.isOpaque && !b.isOpaque && !c.isOpaque && (a.tracked || b.tracked || c.tracked || p.all)
  }

  lemma Wanted2(s: State, a: nat, b: nat)
    requires a in s.nodes && b in s.nodes
    ensures Wanted(s, [a, b]) <==> Fit2(s.policy, s.nodes[a], s.nodes[b])
  {
    assert a in [a, b] && b in [a, b];
  }

  lemma Wanted3(s: State, a: nat, b: nat, c: nat)
    requires a in s.nodes && b in s.nodes && c in s.nodes
    ensures Wanted(s, [a, b, c]) <==> Fit3(s.policy, s.nodes[a], s.nodes[b], s.nodes[c])
  {
    assert a in [a, b, c] && b in [a, b, c] && c in [a, b, c];
  }

  /** Nothing but flags differs. */
  predicate SameButFlags(s: State, s1: State) {
    && s1 == s.(nodes := s1.nodes) && s1.nodes.Keys == s.nodes.Keys
    && forall o :: o in s.nodes ==> FlagsApart(s.nodes[o], s1.nodes[o])
  }

  predicate FlagsApart(n: Node, n': Node) {
    n' == n.(tracked := n'.tracked, isOpaque := n'.isOpaque, propagate := n'.propagate)
  }

  lemma TargetsChangeFlags(s: State, objs: seq<nat>)
    requires forall o :: o in objs ==> o in s.nodes
    ensures SameButFlags(s, TargetAll(s, objs))
  {
    var s1 := TargetAll(s, objs);
    forall o | o in s.nodes ensures FlagsApart(s.nodes[o], s1.nodes[o]) { TargetsApplied(s, objs, o); }
    if objs != [] { TargetsApplied(s, objs, objs[0]); }
  }

  lemma Begun2(s: State, a: nat, b: nat)
    requires a in s.nodes && b in s.nodes
    ensures var s1 := TargetAll(s, [a, b]);
            SameButFlags(s, s1) && s1.nodes[a] == After(s, a) && s1.nodes[b] == After(s, b)
  {
    assert a in [a, b] && b in [a, b];
    TargetsChangeFlags(s, [a, b]);
    TargetsApplied(s, [a, b], a);
    TargetsApplied(s, [a, b], b);
  }

  lemma Begun3(s: State, a: nat, b: nat, c: nat)
    requires a in s.nodes && b in s.nodes && c in s.nodes
    ensures var s1 := TargetAll(s, [a, b, c]);
            && SameButFlags(s, s1)
            && s1.nodes[a] == After(s, a) && s1.nodes[b] == After(s, b) && s1.nodes[c] == After(s, c)
  {
    assert a in [a, b, c] && b in [a, b, c] && c in [a, b, c];
    TargetsChangeFlags(s, [a, b, c]);
    TargetsApplied(s, [a, b, c], a);
    TargetsApplied(s, [a, b, c], b);
    TargetsApplied(s, [a, b, c], c);
  }

  // ---------- Hooks with two objects ----------

  lemma PreparedLeaves(s: State, s1: State, ty: Word, f: nat, t: nat, o: nat)
    requires Distinct(s, f, t) && o in s.nodes && !s.policy.compressEdge
    requires s1 == UpdateVersion(Remember(s, ty, f, t), ty, t)
    ensures s1.nodes[o].memo == s.nodes[o].memo && (o != t ==> s1.nodes[o] == s.nodes[o])
  {
  }

  lemma LinkedLeaves(s: State, s': State, ty: Word, f: nat, t: nat, o: nat)
    requires Distinct(s, f, t) && o in s.nodes && s' == Link(s, ty, f, t)
    ensures s'.nodes[o].memo == s.nodes[o].memo && s'.nodes[o].version == s.nodes[o].version
    ensures o != f && o != t ==> s'.nodes[o] == s.nodes[o]
    ensures Admitted(s.policy, ty, s.nodes[f], s.nodes[t]) ==> s.epoch <= s'.nodes[t].epoch
  {
    FiltersDecide(s.policy, ty, s.nodes[f].(outgoing := true), s.nodes[t]);
  }

  /** What a relation leaves of the objects: their memories, and a destination that is recorded if it got through. */
  lemma RelateLeaves(s: State, ty: Word, f: nat, t: nat, o: nat)
    requires Distinct(s, f, t) && o in s.nodes && !s.policy.compressEdge
    ensures var n, n' := s.nodes[o], RecordRelation(s, ty, f, t).nodes[o];
            && n'.memo == n.memo && (o != t ==> n'.version == n.version) && (o != f && o != t ==> n' == n)
            && (o == t && Admitted(s.policy, ty, s.nodes[f], s.nodes[t]) ==> s.epoch <= n'.epoch)
  {
    var s1 := UpdateVersion(Remember(s, ty, f, t), ty, t);
    PreparedLeaves(s, s1, ty, f, t, o);
    LinkedLeaves(s1, Link(s1, ty, f, t), ty, f, t, o);
  }

  /** After a relation into it that got through, an activity is linked to the machine unless it knows of it. */
  lemma LinkedNext(s: State, ty: Word, f: nat, a: nat)
    requires Distinct(s, f, a) && Distinct(s, s.machine, a) && !s.policy.compressEdge
    requires Admitted(s.policy, ty, s.nodes[f], s.nodes[a])
    ensures Unlinked(RecordRelation(s, ty, f, a), a) <==>
            s.nodes[a].memo.kernelVersion < s.nodes[s.machine].version
  {
    RelateLeaves(s, ty, f, a, a);
    RelateLeaves(s, ty, f, a, s.machine);
  }

  /** The link of an activity that does not know of the machine's version. */
  function ToMachine(s: State, a: nat): seq<Call>
    requires a in s.nodes && s.machine in s.nodes
  {
    IfSo(s.nodes[a].memo.kernelVersion < s.nodes[s.machine].version, Relate(RL_RAN_ON, s.machine, a))
  }

  /** The link of a recorded object that does not know of the machine's version. */
  function IfUnlinked(s: State, o: nat): seq<Call>
    requires o in s.nodes && s.machine in s.nodes
  {
    IfSo(Unlinked(s, o), Relate(RL_RAN_ON, s.machine, o))
  }

  lemma Regroup(a: seq<Call>, b: seq<Call>, c: seq<Call>)
    ensures a + b + c == a + (b + c) && a + [] == a
  {
  }

  lemma RelateThenLink(s: State, s1: State, ty: Word, f: nat, a: nat)
    requires Distinct(s, f, a) && Distinct(s, s.machine, a) && !s.policy.compressEdge
    requires Admitted(s.policy, ty, s.nodes[f], s.nodes[a]) && s1 == RecordRelation(s, ty, f, a)
    ensures Called(RecordKernelLink(s1, a).asked) == Called(s.asked) + ([Relate(ty, f, a)] + ToMachine(s, a))
  {
    RelateAsks(s, ty, f, a);
    LinkedNext(s, ty, f, a);
    LinkAsks(s1, a);
    Regroup(Called(s.asked), [Relate(ty, f, a)], ToMachine(s, a));
  }

  /** The guards of a hook with two objects: what they are asked of the objects once the targets have been applied. */
  ghost predicate Passing2(s: State, h: Hook, a: nat, b: nat)
    requires HookLive(s, h) && a in s.nodes && b in s.nodes
  {
    && Fit2(s.policy, After(s, a), After(s, b))
    && (h.asks.Asked? ==> Admitted(s.policy, h.asks.ty, After(s, h.asks.from), After(s, h.asks.to)))
  }

  /** The guards of a hook that is called for a relation between its two objects. */
  predicate Passing(s: State, ty: Word, a: nat, b: nat)
    requires a in s.nodes && b in s.nodes
  {
    Fit2(s.policy, After(s, a), After(s, b)) && Admitted(s.policy, ty, After(s, a), After(s, b))
  }

  lemma Passes2(s: State, h: Hook, a: nat, b: nat)
    requires HookLive(s, h) && h.objs == [a, b] && a in s.nodes && b in s.nodes
    ensures Passes(s, h) == (
            && Fit2(s.policy, s.nodes[a], s.nodes[b])
            && (h.asks.Asked? ==> Admitted(s.policy, h.asks.ty, s.nodes[h.asks.from], s.nodes[h.asks.to])))
  {
    Wanted2(s, a, b);
    if h.asks.Asked? { FiltersDecide(s.policy, h.asks.ty, s.nodes[h.asks.from], s.nodes[h.asks.to]); }
  }

  lemma Begun2Passes(s: State, s1: State, h: Hook, a: nat, b: nat)
    requires HookLive(s, h) && h.objs == [a, b] && a in s.nodes && b in s.nodes && s1 == TargetAll(s, h.objs)
    requires h.asks.Asked? ==> (h.asks.from == a || h.asks.from == b) && (h.asks.to == a || h.asks.to == b)
    ensures HookLive(s1, h) && (Passes(s1, h) <==> Passing2(s, h, a, b))
  {
    Begun2(s, a, b);
    Passes2(s1, h, a, b);
  }

  /** What a hook asks for is what its calls do, if it passes its guards. */
  lemma RunIf(s: State, s1: State, h: Hook, passing: bool, gained: seq<Call>)
    requires HookLive(s, h) && s1 == Begin(s, h) && s1.asked == s.asked && HookLive(s1, h) && Passes(s1, h) == passing
    requires passing ==> Called(DoAll(s1, h.calls).asked) == Called(s.asked) + gained
    ensures Called(RunHook(s, h).asked) == Called(s.asked) + if passing then gained else []
  {
    Regroup(Called(s.asked), [], []);
  }

  lemma Run2(s: State, s1: State, h: Hook, a: nat, b: nat, gained: seq<Call>)
    requires HookLive(s, h) && h.objs == [a, b] && !h.inherits && a in s.nodes && b in s.nodes
    requires h.asks.Asked? ==> (h.asks.from == a || h.asks.from == b) && (h.asks.to == a || h.asks.to == b)
    requires s1 == TargetAll(s, h.objs)
    requires Passing2(s, h, a, b) ==> Called(DoAll(s1, h.calls).asked) == Called(s.asked) + gained
    ensures Called(RunHook(s, h).asked) == Called(s.asked) + if Passing2(s, h, a, b) then gained else []
  {
    Begun2(s, a, b);
    Begun2Passes(s, s1, h, a, b);
    RunIf(s, s1, h, Passing2(s, h, a, b), gained);
  }

  /** Flags do not matter to links. */
  lemma LinksUnflagged(s: State, s1: State, o: nat)
    requires SameButFlags(s, s1) && o in s.nodes && s.machine in s.nodes
    ensures ToMachine(s1, o) == ToMachine(s, o) && IfUnlinked(s1, o) == IfUnlinked(s, o)
  {
    assert FlagsApart(s.nodes[o], s1.nodes[o]) && FlagsApart(s.nodes[s.machine], s1.nodes[s.machine]);
  }

  lemma RelateAndLink(s: State, ty: Word, f: nat, a: nat, calls: seq<Call>)
    requires Distinct(s, f, a) && Distinct(s, s.machine, a) && !s.policy.compressEdge
    requires Admitted(s.policy, ty, s.nodes[f], s.nodes[a]) && calls == [Relate(ty, f, a), LinkKernel(a)]
    ensures CallsLive(s, calls)
    ensures Called(DoAll(s, calls).asked) == Called(s.asked) + ([Relate(ty, f, a)] + ToMachine(s, a))
  {
    DoAllTwo(s, calls);
    RelateThenLink(s, RecordRelation(s, ty, f, a), ty, f, a);
  }

  /** `uses_two`: the relation, and the link. */
  lemma UsesTwoAsks(s: State, ty: Word, e: nat, a: nat)
    requires HookLive(s, UsesTwo(ty, e, a)) && Distinct(s, e, a) && Distinct(s, s.machine, a) && !s.policy.compressEdge
    ensures Called(RunHook(s, UsesTwo(ty, e, a)).asked) == Called(s.asked) +
            if Passing(s, ty, e, a) then [Relate(ty, e, a)] + ToMachine(s, a) else []
  {
    var h := UsesTwo(ty, e, a);
    var s1 := TargetAll(s, h.objs);
    Begun2(s, e, a);
    LinksUnflagged(s, s1, a);
    if Passing2(s, h, e, a) { RelateAndLink(s1, ty, e, a, h.calls); }
    Run2(s, s1, h, e, a, [Relate(ty, e, a)] + ToMachine(s, a));
  }

  /** `derives`: the relation. */
  lemma DerivesAsks(s: State, ty: Word, f: nat, t: nat)
    requires HookLive(s, Derives(ty, f, t)) && Distinct(s, f, t) && !s.policy.compressEdge
    ensures Called(RunHook(s, Derives(ty, f, t)).asked) == Called(s.asked) +
            if Passing(s, ty, f, t) then [Relate(ty, f, t)] else []
  {
    var h := Derives(ty, f, t);
    var s1 := TargetAll(s, h.objs);
    Begun2(s, f, t);
    DoAllAsks(s1, h.calls);
    Run2(s, s1, h, f, t, h.calls);
  }

  /** `record_influences_kernel`: the load and the relation to the machine; the filters are not asked. */
  lemma InfluencesAsks(s: State, ty: Word, e: nat, a: nat)
    requires HookLive(s, InfluencesKernel(ty, e, a, s.machine)) && Distinct(s, e, a) && !s.policy.compressEdge
    ensures Called(RunHook(s, InfluencesKernel(ty, e, a, s.machine)).asked) == Called(s.asked) +
            if Fit2(s.policy, After(s, e), After(s, a)) then [Relate(RL_LOAD_FILE, e, a), Relate(ty, a, s.machine)]
            else []
  {
    var h := InfluencesKernel(ty, e, a, s.machine);
    var s1 := TargetAll(s, h.objs);
    Begun2(s, e, a);
    DoAllAsks(s1, h.calls);
    Run2(s, s1, h, e, a, h.calls);
  }

  lemma LinkLeaves(s: State, f: nat, t: nat)
    requires Distinct(s, f, t) && Distinct(s, s.machine, f) && s.machine != t && !s.policy.compressEdge
    ensures var s' := RecordKernelLink(s, f);
            s'.nodes[t] == s.nodes[t] && s'.nodes[s.machine].version == s.nodes[s.machine].version
  {
    RelateLeaves(s, RL_RAN_ON, s.machine, f, t);
    RelateLeaves(s, RL_RAN_ON, s.machine, f, s.machine);
  }

  lemma LinkBoth(s: State, s1: State, f: nat, t: nat)
    requires Distinct(s, f, t) && Distinct(s, s.machine, f) && s.machine != t && !s.policy.compressEdge
    requires s1 == RecordKernelLink(s, f)
    ensures Called(RecordKernelLink(s1, t).asked) == Called(s.asked) + (IfUnlinked(s, f) + IfUnlinked(s, t))
  {
    LinkAsks(s, f);
    LinkLeaves(s, f, t);
    assert Unlinked(s1, t) == Unlinked(s, t);
    LinkAsks(s1, t);
    Regroup(Called(s.asked), IfUnlinked(s, f), IfUnlinked(s, t));
  }

  lemma LinkBothThenRelate(s: State, ty: Word, f: nat, t: nat, calls: seq<Call>)
    requires Distinct(s, f, t) && Distinct(s, s.machine, f) && s.machine != t && !s.policy.compressEdge
    requires calls == [LinkKernel(f), LinkKernel(t), Relate(ty, f, t)]
    ensures CallsLive(s, calls)
    ensures Called(DoAll(s, calls).asked) ==
            Called(s.asked) + (IfUnlinked(s, f) + IfUnlinked(s, t) + [Relate(ty, f, t)])
  {
    DoAllThree(s, calls);
    var s1 := RecordKernelLink(s, f);
    LinkBoth(s, s1, f, t);
    RelateAsks(RecordKernelLink(s1, t), ty, f, t);
    Regroup(Called(s.asked), IfUnlinked(s, f) + IfUnlinked(s, t), [Relate(ty, f, t)]);
  }

  /** `informs`: the links of both, if they are recorded and the machine's version is news to them; the relation. */
  lemma InformsAsks(s: State, ty: Word, f: nat, t: nat)
    requires HookLive(s, Informs(ty, f, t)) && Distinct(s, f, t) && !s.policy.compressEdge
    requires Distinct(s, s.machine, f) && s.machine != t
    ensures Called(RunHook(s, Informs(ty, f, t)).asked) == Called(s.asked) +
            if Passing(s, ty, f, t)
            then IfUnlinked(s, f) + IfUnlinked(s, t) + [Relate(ty, f, t)] else []
  {
    var h := Informs(ty, f, t);
    var s1 := TargetAll(s, h.objs);
    Begun2(s, f, t);
    LinksUnflagged(s, s1, f);
    LinksUnflagged(s, s1, t);
    LinkBothThenRelate(s1, ty, f, t, h.calls);
    Run2(s, s1, h, f, t, IfUnlinked(s, f) + IfUnlinked(s, t) + [Relate(ty, f, t)]);
  }

  // ---------- Hooks with three objects ----------

  ghost predicate Passing3(p: Policy, ty: Word, a: Node, b: Node, c: Node, f: Node, t: Node) {
    Fit3(p, a, b, c) && Admitted(p, ty, f, t)
  }

  /** The calls of `uses`, made in a state in which its relation gets through. */
  lemma UseCalls(s: State, ty: Word, e: nat, a: nat, m: nat, rest: seq<Call>, calls: seq<Call>)
    requires Distinct(s, e, a) && Distinct(s, s.machine, a) && !s.policy.compressEdge
    requires Admitted(s.policy, ty, s.nodes[e], s.nodes[a])
    requires CallsLive(s, rest) && forall c :: c in rest ==> c.Relate?
    requires calls == [Relate(ty, e, a), LinkKernel(a)] + rest
    ensures CallsLive(s, calls)
    ensures Called(DoAll(s, calls).asked) == Called(s.asked) + ([Relate(ty, e, a)] + ToMachine(s, a) + rest)
  {
    var two := [Relate(ty, e, a), LinkKernel(a)];
    RelateAndLink(s, ty, e, a, two);
    forall c | c in calls ensures CallLive(s, c) { assert c in two || c in rest; }
    DoAllSplit(s, two, rest);
    DoAllAsks(DoAll(s, two), rest);
    Regroup(Called(s.asked), [Relate(ty, e, a)] + ToMachine(s, a), rest);
  }

  lemma UsePasses(s: State, s1: State, h: Hook, ty: Word, e: nat, a: nat, m: nat)
    requires HookLive(s, h) && h.objs == [e, a, m] && !h.inherits && h.asks == Asked(ty, e, a)
    requires e in s.nodes && a in s.nodes && m in s.nodes && s1 == TargetAll(s, h.objs)
    ensures SameButFlags(s, s1) && s1.nodes[e] == After(s, e) && s1.nodes[a] == After(s, a) && HookLive(s1, h)
    ensures Passes(s1, h) <==> Passing3(s.policy, ty, After(s, e), After(s, a), After(s, m), After(s, e), After(s, a))
  {
    Begun3(s, e, a, m);
    Wanted3(s1, e, a, m);
    FiltersDecide(s.policy, ty, After(s, e), After(s, a));
  }

  /** All the relations that `uses` asks for. */
  function Using3(s: State, ty: Word, e: nat, a: nat, m: nat, maps: seq<Mapping>): seq<Call>
    requires a in s.nodes && s.machine in s.nodes
  {
    [Relate(ty, e, a)] + ToMachine(s, a) + ([Relate(RL_PROC_WRITE, a, m)] + SharedWrites(m, maps))
  }

  lemma UsesCalls(s: State, ty: Word, e: nat, a: nat, m: nat, maps: seq<Mapping>)
    requires Distinct(s, e, a) && Distinct(s, s.machine, a) && m in s.nodes && !s.policy.compressEdge
    requires CallsLive(s, Uses(ty, e, a, m, maps).calls) && Admitted(s.policy, ty, s.nodes[e], s.nodes[a])
    ensures Called(DoAll(s, Uses(ty, e, a, m, maps).calls).asked) == Called(s.asked) + Using3(s, ty, e, a, m, maps)
  {
    var calls := Uses(ty, e, a, m, maps).calls;
    var rest := [Relate(RL_PROC_WRITE, a, m)] + SharedCalls(m, maps, false);
    SharedCallsAre(m, maps);
    SharedRelations(m, maps, 0);
    assert calls == [Relate(ty, e, a), LinkKernel(a)] + rest;
    forall c | c in rest ensures CallLive(s, c) && c.Relate? { assert c in calls; }
    UseCalls(s, ty, e, a, m, rest, calls);
  }

  /** `uses`: the relation, the link, the relation to the memory, and those to the writable shared mappings. */
  lemma UsesAsks(s: State, ty: Word, e: nat, a: nat, m: nat, maps: seq<Mapping>)
    requires HookLive(s, Uses(ty, e, a, m, maps)) && Distinct(s, e, a) && Distinct(s, s.machine, a) && m in s.nodes
    requires !s.policy.compressEdge
    ensures var p, ne, na, nm := s.policy, After(s, e), After(s, a), After(s, m);
            Called(RunHook(s, Uses(ty, e, a, m, maps)).asked) == Called(s.asked) +
            if Passing3(p, ty, ne, na, nm, ne, na) then Using3(s, ty, e, a, m, maps) else []
  {
    var h := Uses(ty, e, a, m, maps);
    var s1 := TargetAll(s, h.objs);
    UsePasses(s, s1, h, ty, e, a, m);
    LinksUnflagged(s, s1, a);
    if Passes(s1, h) { UsesCalls(s1, ty, e, a, m, maps); }
    RunIf(s, s1, h, Passes(s1, h), Using3(s, ty, e, a, m, maps));
  }

  /** The activity once it has taken over from its memory. */
  function Heir(m: Node, a: Node): Node {
    a.(tracked := a.tracked || m.tracked, isOpaque := a.isOpaque || m.isOpaque)
  }

  lemma GenerateBegun(s: State, s1: State, h: Hook, m: nat, a: nat, e: nat)
    requires HookLive(s, h) && h.objs == [m, a, e] && h.inherits && s1 == Begin(s, h)
    requires m in s.nodes && a in s.nodes && e in s.nodes && a != m && a != e
    ensures SameButFlags(s, s1) && HookLive(s1, h) && s1.nodes[m] == After(s, m) && s1.nodes[e] == After(s, e)
    ensures s1.nodes[a] == Heir(After(s, m), After(s, a))
  {
    var s0 := TargetAll(s, h.objs);
    Begun3(s, m, a, e);
    forall o | o in s.nodes ensures FlagsApart(s.nodes[o], s1.nodes[o]) { assert FlagsApart(s.nodes[o], s0.nodes[o]); }
  }

  lemma GeneratePasses(s: State, h: Hook, ty: Word, m: nat, a: nat, e: nat)
    requires HookLive(s, h) && h.objs == [m, a, e] && h.asks == Asked(ty, a, e)
    requires m in s.nodes && a in s.nodes && e in s.nodes
    ensures Passes(s, h) <==> Passing3(s.policy, ty, s.nodes[m], s.nodes[a], s.nodes[e], s.nodes[a], s.nodes[e])
  {
    Wanted3(s, m, a, e);
    FiltersDecide(s.policy, ty, s.nodes[a], s.nodes[e]);
  }

  /** Relations into the memory leave the versions and memories of the other objects as they are. */
  lemma {:induction false} IntoLeaves(s: State, calls: seq<Call>, m: nat, o: nat)
    requires CallsLive(s, calls) && o in s.nodes && o != m && !s.policy.compressEdge
    requires forall c :: c in calls ==> c.Relate? && c.to == m && c.from != m
    ensures var n, n' := s.nodes[o], DoAll(s, calls).nodes[o]; n'.memo == n.memo && n'.version == n.version
    decreases |calls|
  {
    if calls != [] {
      var init, c := calls[..|calls| - 1], calls[|calls| - 1];
      assert c in calls;
      IntoLeaves(s, init, m, o);
      RelateLeaves(DoAll(s, init), c.ty, c.from, c.to, o);
    }
  }

  lemma AdmittedStable(s: State, s': State, ty: Word, f: nat, t: nat)
    requires Stable(s, s') && f in s.nodes && t in s.nodes
    ensures Admitted(s.policy, ty, s.nodes[f], s.nodes[t]) == Admitted(s'.policy, ty, s'.nodes[f], s'.nodes[t])
  {
  }

  /** Whether `generates` links the activity, told in the state in which it makes its calls. */
  lemma GenerateLinks(s: State, s1: State, m: nat, a: nat, shared: seq<Call>)
    requires Distinct(s, m, a) && Distinct(s, s.machine, a) && m != s.machine && !s.policy.compressEdge
    requires CallsLive(s, shared) && (forall c :: c in shared ==> c.Relate? && c.to == m && c.from != m)
    requires s1 == DoAll(s, shared) && Admitted(s.policy, RL_PROC_READ, s.nodes[m], s.nodes[a])
    ensures Unlinked(RecordRelation(s1, RL_PROC_READ, m, a), a) <==>
            s.nodes[a].memo.kernelVersion < s.nodes[s.machine].version
  {
    IntoLeaves(s, shared, m, a);
    IntoLeaves(s, shared, m, s.machine);
    AdmittedStable(s, s1, RL_PROC_READ, m, a);
    LinkedNext(s1, RL_PROC_READ, m, a);
  }

  /** The last calls of `generates`; `s1` is the state in which the link is decided. */
  lemma ReadLinkRelate(s: State, s1: State, s2: State, read: Word, ty: Word, m: nat, a: nat, e: nat)
    requires Distinct(s, m, a) && Distinct(s, a, e) && s.machine in s.nodes && !s.policy.compressEdge
    requires s1 == RecordRelation(s, read, m, a) && s2 == RecordKernelLink(s1, a)
    ensures Called(RecordRelation(s2, ty, a, e).asked) ==
            Called(s.asked) + ([Relate(read, m, a)] + IfUnlinked(s1, a) + [Relate(ty, a, e)])
  {
    RelateAsks(s, read, m, a);
    LinkAsks(s1, a);
    RelateAsks(s2, ty, a, e);
    Regroup(Called(s.asked), [Relate(read, m, a)], IfUnlinked(s1, a));
    Regroup(Called(s.asked), [Relate(read, m, a)] + IfUnlinked(s1, a), [Relate(ty, a, e)]);
  }

  lemma LastCalls(s: State, s1: State, read: Word, ty: Word, m: nat, a: nat, e: nat, calls: seq<Call>)
    requires Distinct(s, m, a) && Distinct(s, a, e) && s.machine in s.nodes && !s.policy.compressEdge
    requires s1 == RecordRelation(s, read, m, a)
    requires calls == [Relate(read, m, a), LinkKernel(a), Relate(ty, a, e)] && CallsLive(s, calls)
    ensures Called(DoAll(s, calls).asked) ==
            Called(s.asked) + ([Relate(read, m, a)] + IfUnlinked(s1, a) + [Relate(ty, a, e)])
  {
    var two := calls[..2];
    assert calls == two + calls[2..] && forall c :: c in two ==> c in calls;
    DoAllSplit(s, two, calls[2..]);
    DoAllTwo(s, two);
    var s2 := DoAll(s, two);
    assert s2 == RecordKernelLink(s1, a);
    DoAllOne(s2, calls[2..]);
    ReadLinkRelate(s, s1, s2, read, ty, m, a, e);
  }

  lemma GenerateCalls(
    s: State, s1: State, s2: State, read: Word, ty: Word, m: nat, a: nat, e: nat, shared: seq<Call>, last: seq<Call>)
    requires Distinct(s, m, a) && Distinct(s, a, e) && s.machine in s.nodes && !s.policy.compressEdge
    requires CallsLive(s, shared) && CallsLive(s, shared + last) && forall c :: c in shared ==> c.Relate?
    requires s1 == DoAll(s, shared) && s2 == RecordRelation(s1, read, m, a)
    requires last == [Relate(read, m, a), LinkKernel(a), Relate(ty, a, e)]
    ensures Called(DoAll(s, shared + last).asked) ==
            Called(s.asked) + (shared + ([Relate(read, m, a)] + IfUnlinked(s2, a) + [Relate(ty, a, e)]))
  {
    DoAllSplit(s, shared, last);
    DoAllAsks(s, shared);
    LastCalls(s1, s2, read, ty, m, a, e, last);
    Regroup(Called(s.asked), shared, [Relate(read, m, a)] + IfUnlinked(s2, a) + [Relate(ty, a, e)]);
  }

  /** All the relations that `generates` asks for; `link` tells whether the activity is linked to the machine. */
  function Generating3(s: State, ty: Word, m: nat, a: nat, e: nat, maps: seq<Mapping>, link: bool): seq<Call> {
    SharedReads(m, maps)
    + ([Relate(RL_PROC_READ, m, a)] + IfSo(link, Relate(RL_RAN_ON, s.machine, a)) + [Relate(ty, a, e)])
  }

  lemma GeneratesCalls(s: State, ty: Word, m: nat, a: nat, e: nat, maps: seq<Mapping>) returns (link: bool)
    requires Distinct(s, m, a) && Distinct(s, a, e) && Distinct(s, s.machine, a) && !s.policy.compressEdge
    requires CallsLive(s, Generates(ty, m, a, e, maps).calls) && MappingsAvoid(maps, m)
    ensures Called(DoAll(s, Generates(ty, m, a, e, maps).calls).asked) ==
            Called(s.asked) + Generating3(s, ty, m, a, e, maps, link)
    ensures m != s.machine && Admitted(s.policy, RL_PROC_READ, s.nodes[m], s.nodes[a]) ==>
            link == (s.nodes[a].memo.kernelVersion < s.nodes[s.machine].version)
  {
    var calls, shared := Generates(ty, m, a, e, maps).calls, SharedCalls(m, maps, true);
    SharedCallsAre(m, maps);
    forall c | c in shared ensures CallLive(s, c) && c.Relate? && c.to == m && c.from != m {
      assert c in calls;
      SharedCallsFor(m, maps, true);
    }
    var s1 := DoAll(s, shared);
    var s2 := RecordRelation(s1, RL_PROC_READ, m, a);
    link := Unlinked(s2, a);
    var last := [Relate(RL_PROC_READ, m, a), LinkKernel(a), Relate(ty, a, e)];
    assert calls == shared + last;
    GenerateCalls(s, s1, s2, RL_PROC_READ, ty, m, a, e, shared, last);
    if m != s.machine && Admitted(s.policy, RL_PROC_READ, s.nodes[m], s.nodes[a]) {
      GenerateLinks(s, s1, m, a, shared);
    }
  }

  /**
   `generates`: the relations from the readable shared mappings, the one from the
   memory, the link, and the relation; the guards see the activity after it has
   taken over from its memory.
   */
  lemma GeneratesAsks(s: State, ty: Word, m: nat, a: nat, e: nat, maps: seq<Mapping>) returns (link: bool)
    requires HookLive(s, Generates(ty, m, a, e, maps)) && Distinct(s, m, a) && Distinct(s, a, e)
    requires Distinct(s, s.machine, a) && MappingsAvoid(maps, m) && !s.policy.compressEdge
    ensures var p, nm, na, ne := s.policy, After(s, m), Heir(After(s, m), After(s, a)), After(s, e);
            && Called(RunHook(s, Generates(ty, m, a, e, maps)).asked) == Called(s.asked) +
               (if Passing3(p, ty, nm, na, ne, na, ne) then Generating3(s, ty, m, a, e, maps, link) else [])
            && (m != s.machine && Admitted(p, RL_PROC_READ, nm, na) && Passing3(p, ty, nm, na, ne, na, ne) ==>
                  link == (s.nodes[a].memo.kernelVersion < s.nodes[s.machine].version))
  {
    var h := Generates(ty, m, a, e, maps);
    var s1 := Begin(s, h);
    GenerateBegun(s, s1, h, m, a, e);
    GeneratePasses(s1, h, ty, m, a, e);
    link := false;
    if Passes(s1, h) { link := GeneratesCalls(s1, ty, m, a, e, maps); }
    assert FlagsApart(s.nodes[a], s1.nodes[a]) && FlagsApart(s.nodes[s.machine], s1.nodes[s.machine]);
    RunIf(s, s1, h, Passes(s1, h), Generating3(s, ty, m, a, e, maps, link));
  }
}
