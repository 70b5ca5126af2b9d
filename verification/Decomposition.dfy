/** Every request, and so every run, is a sequence of primitive operations. */
module Decomposition {
  import opened ProvTypes
  import opened Model
  import opened Requests

  lemma Trans(m: Mode, s: State, s1: State, s2: State)
    requires Steps(m, s, s1) && Steps(m, s1, s2)
    ensures Steps(m, s, s2)
  {
  }

  lemma Self(m: Mode, s: State)
    ensures Steps(m, s, s)
  {
  }

  lemma One(m: Mode, s: State, op: Op)
    requires Good(m, s, op)
    ensures Steps(m, s, Apply(s, op))
  {
  }

  /** Being ready depends on the policy and on kinds and opacity only. */
  lemma ReadyStable(m: Mode, s: State, s': State)
    requires Stable(s, s')
    ensures Ready(m, s) <==> Ready(m, s')
  {
    forall o | o in s.nodes
      ensures FilterNode(s.policy, s.nodes[o]) <==> FilterNode(s'.policy, s'.nodes[o])
      ensures KindAt(s, o, s.nodes[o].kind) <==> KindAt(s', o, s'.nodes[o].kind)
    {
    }
  }

  lemma VersionJoins(s: State, o: nat)
    requires o in s.nodes && KindAt(s, o, s.nodes[o].kind)
    ensures Joins(VersionType(s.nodes[o]), s.nodes[o].kind, s.nodes[o].kind)
            || (o == s.machine && VersionType(s.nodes[o]) == RL_VERSION)
  {
  }

  lemma UpdateVersionSteps(m: Mode, s: State, ty: Word, o: nat)
    requires o in s.nodes && Ready(m, s)
    ensures Steps(m, s, UpdateVersion(s, ty, o))
    ensures !FilterUpdateNode(ty) ==> !UpdateVersion(s, ty, o).nodes[o].outgoing
    ensures UpdateVersion(s, ty, o).counter == s.counter
  {
    var n := s.nodes[o];
    if UpdatesVersion(s.policy, ty, n) {
      var op := BumpOp(o, VersionType(n), n.kind, n.memo.mode);
      if m.Typed? { VersionJoins(s, o); }
      One(m, s, op);
    } else {
      Self(m, s);
    }
  }

  lemma RememberSteps(m: Mode, s: State, ty: Word, f: nat, t: nat)
    requires t in s.nodes && Ready(m, s)
    ensures Steps(m, s, Remember(s, ty, f, t))
  {
    if s.policy.compressEdge {
      One(m, s, AdjustOp(t, s.nodes[t].(memo := s.nodes[t].memo.(previousId := f, previousType := ty))));
    } else {
      Self(m, s);
    }
  }

  lemma PrepareSteps(m: Mode, s: State, ty: Word, f: nat, t: nat)
    requires t in s.nodes && Ready(m, s)
    ensures var s1 := UpdateVersion(Remember(s, ty, f, t), ty, t);
            Steps(m, s, s1) && Ready(m, s1) && Stable(s, s1) && s1.counter == s.counter &&
            (!FilterUpdateNode(ty) ==> !s1.nodes[t].outgoing)
  {
    var s1 := Remember(s, ty, f, t);
    RememberSteps(m, s, ty, f, t);
    ReadyStable(m, s, s1);
    UpdateVersionSteps(m, s1, ty, t);
    ReadyStable(m, s1, UpdateVersion(s1, ty, t));
    Trans(m, s, s1, UpdateVersion(s1, ty, t));
  }

  lemma RecordRelationSteps(m: Mode, s: State, ty: Word, f: nat, t: nat)
    requires IsFlow(ty) && Distinct(s, f, t) && Ready(m, s)
    requires m.Typed? ==> Joins(ty, s.nodes[f].kind, s.nodes[t].kind)
    ensures Steps(m, s, RecordRelation(s, ty, f, t)) && Ready(m, RecordRelation(s, ty, f, t))
  {
    if Repeats(s.policy, ty, f, s.nodes[t]) {
      Self(m, s);
    } else {
      var s1 := UpdateVersion(Remember(s, ty, f, t), ty, t);
      PrepareSteps(m, s, ty, f, t);
      One(m, s1, LinkOp(ty, f, t));
      Trans(m, s, s1, Link(s1, ty, f, t));
    }
    ReadyStable(m, s, RecordRelation(s, ty, f, t));
  }

  lemma AttachSteps(m: Mode, s0: State, s: State, ty: Word, id: nat, kind: Word, t: nat)
    requires Steps(m, s0, s) && id == NextId(s) < s.machine && Ready(m, s)
    requires t in s.nodes && (ty == RL_NAMED || ty == RL_NAMED_PROCESS || !s.nodes[t].outgoing)
    requires m.Typed? ==> Joins(ty, kind, s.nodes[t].kind)
    ensures Steps(m, s0, Attach(s, ty, Marker(id, kind), t))
  {
    var op := AttachOp(ty, Marker(id, kind), t);
    assert Legal(s, op);
    One(m, s, op);
    Trans(m, s0, s, Apply(s, op));
  }

  lemma RepeatedSteps(m: Mode, s: State, ty: Word, kind: Word, t: nat)
    requires t in s.nodes && NextId(s) < s.machine && Ready(m, s)
             && Repeats(s.policy, ty, NextId(s), s.nodes[t])
    ensures Steps(m, s, RecordTransient(s, ty, kind, t))
  {
    One(m, s, TakeIdOp);
  }

  lemma PrepareAttachSteps(m: Mode, s: State, ty: Word, id: nat, kind: Word, t: nat)
    requires ty == RL_NAMED || ty == RL_NAMED_PROCESS || !FilterUpdateNode(ty)
    requires t in s.nodes && id == NextId(s) < s.machine && Ready(m, s) && !Repeats(s.policy, ty, id, s.nodes[t])
    requires m.Typed? ==> Joins(ty, kind, s.nodes[t].kind)
    ensures Steps(m, s, RecordTransient(s, ty, kind, t))
  {
    PrepareSteps(m, s, ty, id, t);
    AttachSteps(m, s, UpdateVersion(Remember(s, ty, id, t), ty, t), ty, id, kind, t);
  }

  lemma RecordTransientSteps(m: Mode, s: State, ty: Word, kind: Word, t: nat)
    requires ty == RL_NAMED || ty == RL_NAMED_PROCESS || !FilterUpdateNode(ty)
    requires t in s.nodes && NextId(s) < s.machine && Ready(m, s)
    requires m.Typed? ==> Joins(ty, kind, s.nodes[t].kind)
    ensures Steps(m, s, RecordTransient(s, ty, kind, t))
  {
    if Repeats(s.policy, ty, NextId(s), s.nodes[t]) {
      RepeatedSteps(m, s, ty, kind, t);
    } else {
      PrepareAttachSteps(m, s, ty, NextId(s), kind, t);
    }
  }

  /** Storing back a node whose identity, marks and taint are as they were. */
  lemma AdjustSteps(m: Mode, s: State, s0: State, o: nat, n: Node)
    requires Steps(m, s0, s) && Ready(m, s) && o in s.nodes && SameCore(s.nodes[o], n)
    requires m.Typed? ==> KindAt(s, o, n.kind)
    ensures Steps(m, s0, Put(s, o, n))
  {
    One(m, s, AdjustOp(o, n));
    Trans(m, s0, s, Put(s, o, n));
  }

  lemma NameJoins(kind: Word)
    requires kind == ACT_TASK || IsEntity(kind)
    ensures Joins(if kind == ACT_TASK then RL_NAMED_PROCESS else RL_NAMED, ENT_PATH, kind)
    ensures IsEntity(kind) ==> Joins(RL_NAMED, ENT_ADDR, kind)
  {
  }

  lemma ArgJoins(kind: Word)
    requires IsEntity(kind)
    ensures Joins(RL_ARG, ENT_ARG, kind) && Joins(RL_ENV, ENT_ENV, kind)
  {
  }

  lemma NamedSteps(m: Mode, s: State, ty: Word, kind: Word, o: nat)
    requires ty == RL_NAMED || ty == RL_NAMED_PROCESS
    requires o in s.nodes && NextId(s) < s.machine && Ready(m, s)
    requires m.Typed? ==> Joins(ty, kind, s.nodes[o].kind)
    ensures Steps(m, s, SetNameRecorded(RecordTransient(s, ty, kind, o), o))
  {
    var s1 := RecordTransient(s, ty, kind, o);
    RecordTransientSteps(m, s, ty, kind, o);
    ReadyStable(m, s, s1);
    AdjustSteps(m, s1, s, o, s1.nodes[o].(memo := s1.nodes[o].memo.(nameEpoch := s1.epoch)));
  }

  lemma RecordNodeNameSteps(m: Mode, s: State, o: nat, force: bool)
    requires o in s.nodes && NextId(s) < s.machine && Ready(m, s) && (m.Typed? ==> o != s.machine)
    ensures Steps(m, s, RecordNodeName(s, o, force))
  {
    var n := s.nodes[o];
    Self(m, s);
    if !n.isOpaque && !(IsNameRecorded(n, s.epoch) && !force) && IsRecorded(n, s.epoch) {
      if m.Typed? { NameJoins(n.kind); }
      NamedSteps(m, s, NameType(n), ENT_PATH, o);
    }
  }

  lemma RecordAddressSteps(m: Mode, s: State, o: nat)
    requires o in s.nodes && NextId(s) < s.machine && Ready(m, s) && (m.Typed? ==> IsEntity(s.nodes[o].kind))
    ensures Steps(m, s, RecordAddress(s, o))
  {
    var n := s.nodes[o];
    Self(m, s);
    if !IsNameRecorded(n, s.epoch) && IsRecorded(n, s.epoch) {
      if m.Typed? { NameJoins(n.kind); }
      NamedSteps(m, s, RL_NAMED, ENT_ADDR, o);
    }
  }

  lemma LogSteps(m: Mode, s0: State, s: State, id: nat, o: nat)
    requires Steps(m, s0, s) && o in s.nodes && id == NextId(s) < s.machine && Ready(m, s)
    requires m.Typed? ==> s.nodes[o].kind == ACT_TASK
    ensures Steps(m, s0, Attach(s, RL_LOG, FreshNode(id, ENT_STR), o))
  {
    var op := AttachOp(RL_LOG, FreshNode(id, ENT_STR), o);
    One(m, s, op);
    Trans(m, s0, s, Apply(s, op));
  }

  lemma RecordLogSteps(m: Mode, s: State, o: nat, propagate: bool)
    requires o in s.nodes && NextId(s) < s.machine && Ready(m, s)
    requires m.Typed? ==> s.nodes[o].kind == ACT_TASK
    ensures Steps(m, s, RecordLog(s, o, propagate))
  {
    var n := s.nodes[o];
    var n' := n.(tracked := true, propagate := n.propagate || propagate);
    Self(m, s);
    AdjustSteps(m, s, s, o, n');
    ReadyStable(m, s, Put(s, o, n'));
    LogSteps(m, s, Put(s, o, n'), NextId(s), o);
  }

  /** The relation closes nodes of this kind. */
  predicate Closes(ty: Word, kind: Word) { if ty == RL_TERMINATE_TASK then kind == ACT_TASK else IsEntity(kind) }

  lemma CloseGood(m: Mode, s: State, ty: Word, o: nat)
    requires IsClose(ty) && o in s.nodes && Ready(m, s) && !FilterNode(s.policy, s.nodes[o])
    requires m.Steady? ==> !FilterRelation(s.policy, ty)
    requires m.Typed? ==> Closes(ty, s.nodes[o].kind)
    requires m.Thrifty? ==> o in m.spared
    ensures Good(m, s, BumpOp(o, ty, s.nodes[o].kind, s.nodes[o].memo.mode))
  {
    assert !IsAnnotation(ty);
    if m.Typed? { CloseJoins(ty, s.nodes[o].kind); }
  }

  lemma CloseJoins(ty: Word, kind: Word)
    requires IsClose(ty) && Closes(ty, kind)
    ensures Joins(ty, kind, kind)
  {
  }

  lemma RecordTerminateSteps(m: Mode, s: State, ty: Word, o: nat)
    requires IsClose(ty) && o in s.nodes && Ready(m, s)
    requires m.Steady? ==> !FilterRelation(s.policy, ty)
    requires m.Typed? ==> Closes(ty, s.nodes[o].kind)
    requires m.Thrifty? ==> o in m.spared
    ensures Steps(m, s, RecordTerminate(s, ty, o))
  {
    var n := s.nodes[o];
    Self(m, s);
    if (IsRecorded(n, s.epoch) || s.policy.all) && !FilterNode(s.policy, n) {
      CloseGood(m, s, ty, o);
      One(m, s, BumpOp(o, ty, n.kind, n.memo.mode));
    }
  }

  lemma InodeKinds(mode: FileMode)
    ensures IsInode(InodeKind(mode)) && IsEntity(InodeKind(mode))
    ensures forall k :: IsEntity(k) ==> Joins(RL_VERSION, k, InodeKind(mode))
  {
  }

  lemma RetypeGood(m: Mode, s: State, o: nat, mode: FileMode)
    requires o in s.nodes && Ready(m, s) && (m.Steady? ==> Ready(m, Bump(s, o, RL_VERSION, InodeKind(mode), mode)))
    requires m.Typed? ==> IsEntity(s.nodes[o].kind)
    requires m.Thrifty? ==> o in m.spared
    ensures Good(m, s, BumpOp(o, RL_VERSION, InodeKind(mode), mode))
  {
    if m.Steady? { RetypeSteady(s, o, mode, m.hidden); }
    if m.Typed? {
      InodeKinds(mode);
      assert KindAt(s, o, s.nodes[o].kind);
    }
  }

  lemma UpdateInodeTypeSteps(m: Mode, s: State, o: nat, mode: FileMode)
    requires o in s.nodes && Ready(m, s) && (m.Steady? ==> Ready(m, UpdateInodeType(s, o, mode)))
    requires m.Typed? ==> IsEntity(s.nodes[o].kind)
    requires m.Thrifty? ==> o in m.spared
    ensures Steps(m, s, UpdateInodeType(s, o, mode))
  {
    var n := s.nodes[o];
    if n.memo.mode.bits != 0 && n.memo.mode != mode && IsRecorded(n, s.epoch) {
      RetypeGood(m, s, o, mode);
      One(m, s, BumpOp(o, RL_VERSION, InodeKind(mode), mode));
    } else {
      if m.Typed? {
        InodeKinds(mode);
        assert KindAt(s, o, n.kind);
      }
      Self(m, s);
      AdjustSteps(m, s, s, o, n.(kind := InodeKind(mode), memo := n.memo.(mode := mode)));
    }
  }

  lemma RetypeSteady(s: State, o: nat, mode: FileMode, hidden: set<nat>)
    requires o in s.nodes && SteadyState(s, hidden)
    requires SteadyState(Bump(s, o, RL_VERSION, InodeKind(mode), mode), hidden)
    ensures SteadyOp(s, BumpOp(o, RL_VERSION, InodeKind(mode), mode), hidden)
  {
    var s' := Bump(s, o, RL_VERSION, InodeKind(mode), mode);
    assert s'.nodes[o].kind == InodeKind(mode);
    assert FilterNode(s.policy, s.nodes[o]) <==> o in hidden;
    assert FilterNode(s'.policy, s'.nodes[o]) <==> o in hidden;
  }

  lemma RanOnJoins()
    ensures Joins(RL_RAN_ON, AGT_MACHINE, ACT_TASK) && IsFlow(RL_RAN_ON)
  {
  }

  lemma RecordKernelLinkSteps(m: Mode, s: State, o: nat)
    requires Distinct(s, s.machine, o) && Ready(m, s)
    requires m.Typed? ==> s.nodes[o].kind == ACT_TASK
    ensures Steps(m, s, RecordKernelLink(s, o)) && Ready(m, RecordKernelLink(s, o))
  {
    var n := s.nodes[o];
    if s.nodes[s.machine].version <= n.memo.kernelVersion || !IsRecorded(n, s.epoch) {
      Self(m, s);
    } else {
      RanOnJoins();
      if m.Typed? { assert KindAt(s, s.machine, s.nodes[s.machine].kind); }
      RecordRelationSteps(m, s, RL_RAN_ON, s.machine, o);
      var s1 := RecordRelation(s, RL_RAN_ON, s.machine, o);
      AdjustSteps(m, s1, s, o, s1.nodes[o].(memo := s1.nodes[o].memo.(kernelVersion := s1.nodes[s.machine].version)));
    }
    ReadyStable(m, s, RecordKernelLink(s, o));
  }

  lemma SharedJoins()
    ensures forall f, t :: IsEntity(f) && IsEntity(t) ==> Joins(RL_SH_READ, f, t) && Joins(RL_SH_WRITE, f, t)
    ensures forall t :: IsEntity(t) ==> Joins(RL_PROC_WRITE, ACT_TASK, t) && Joins(RL_PROC_READ, t, ACT_TASK)
    ensures forall f :: IsEntity(f) ==> Joins(RL_LOAD_FILE, f, ACT_TASK)
    ensures IsFlow(RL_SH_READ) && IsFlow(RL_SH_WRITE) && IsFlow(RL_PROC_WRITE) && IsFlow(RL_PROC_READ)
            && IsFlow(RL_LOAD_FILE)
  {
  }

  predicate CallOk(m: Mode, s: State, c: Call) {
    match c
    case Relate(ty, f, t) => IsFlow(ty) && Distinct(s, f, t)
        && (m.Typed? ==> Joins(ty, s.nodes[f].kind, s.nodes[t].kind))
    case LinkKernel(o) => Distinct(s, s.machine, o) && (m.Typed? ==> s.nodes[o].kind == ACT_TASK)
  }

  predicate CallsOk(m: Mode, s: State, calls: seq<Call>) { forall c :: c in calls ==> CallOk(m, s, c) }

  lemma {:induction false} DoAllSteps(m: Mode, s: State, calls: seq<Call>)
    requires CallsOk(m, s, calls) && Ready(m, s) && CallsLive(s, calls)
    ensures Steps(m, s, DoAll(s, calls)) && Ready(m, DoAll(s, calls))
    decreases |calls|
  {
    if calls == [] {
      Self(m, s);
    } else {
      var init, c := calls[..|calls| - 1], calls[|calls| - 1];
      DoAllSteps(m, s, init);
      var s1 := DoAll(s, init);
      assert CallOk(m, s, c);
      match c
      case Relate(ty, f, t) => RecordRelationSteps(m, s1, ty, f, t);
      case LinkKernel(o) => RecordKernelLinkSteps(m, s1, o);
      Trans(m, s, s1, Do(s1, c));
    }
  }

  /** The same kinds everywhere: what capture targets and inheritance leave as it was. */
  predicate SameKinds(s: State, s': State) {
    && SameFrame(s, s')
    && s'.counter == s.counter
    && forall o :: o in s.nodes ==> s'.nodes[o].kind == s.nodes[o].kind
  }

  lemma TargetSteps(m: Mode, s0: State, s: State, o: nat)
    requires o in s.nodes && Steps(m, s0, s) && SameKinds(s0, s)
    requires m.Steady? || Ready(m, s0)
    ensures Steps(m, s0, Target(s, o)) && SameKinds(s0, Target(s, o))
  {
    if m.Typed? { assert KindAt(s, o, s.nodes[o].kind); }
    One(m, s, AdjustOp(o, ApplyTarget(s.policy, s.nodes[o])));
    Trans(m, s0, s, Target(s, o));
  }

  lemma InheritSteps(m: Mode, s0: State, s: State, mem: nat, a: nat)
    requires mem in s.nodes && a in s.nodes && Steps(m, s0, s) && SameKinds(s0, s)
    requires m.Steady? || Ready(m, s0)
    ensures Steps(m, s0, Inherit(s, mem, a)) && SameKinds(s0, Inherit(s, mem, a))
  {
    if m.Typed? { assert KindAt(s, a, s.nodes[a].kind); }
    One(m, s, AdjustOp(a, Inherit(s, mem, a).nodes[a]));
    Trans(m, s0, s, Inherit(s, mem, a));
  }

  /** Readiness at the guards follows from readiness before, or after, the call. */
  lemma ReadyInside(m: Mode, s: State, s1: State, s': State)
    requires Ready(m, s) && (m.Steady? ==> Ready(m, s')) && SameKinds(s, s1) && Stable(s1, s')
    ensures Ready(m, s1)
  {
    if m.Steady? { ReadyStable(m, s1, s'); }
    if m.Typed? {
      forall o | o in s1.nodes ensures KindAt(s1, o, s1.nodes[o].kind) { assert KindAt(s, o, s.nodes[o].kind); }
    }
  }

  lemma {:induction false} TargetAllSteps(m: Mode, s: State, objs: seq<nat>)
    requires (forall o :: o in objs ==> o in s.nodes) && Ready(m, s)
    ensures Steps(m, s, TargetAll(s, objs)) && SameKinds(s, TargetAll(s, objs))
    decreases |objs|
  {
    if objs == [] {
      Self(m, s);
    } else {
      var init, o := objs[..|objs| - 1], objs[|objs| - 1];
      TargetAllSteps(m, s, init);
      assert o in objs;
      TargetSteps(m, s, TargetAll(s, init), o);
    }
  }

  /** A hook that has passed its guards in state `s1`. */
  lemma GuardedSteps(m: Mode, s: State, s1: State, calls: seq<Call>)
    requires Steps(m, s, s1) && SameKinds(s, s1) && CallsOk(m, s, calls) && CallsLive(s1, calls)
    requires Ready(m, s) && (m.Steady? ==> Ready(m, DoAll(s1, calls)))
    ensures Steps(m, s, DoAll(s1, calls))
  {
    ReadyInside(m, s, s1, DoAll(s1, calls));
    forall c | c in calls ensures CallOk(m, s1, c) { assert CallOk(m, s, c); }
    DoAllSteps(m, s1, calls);
    Trans(m, s, s1, DoAll(s1, calls));
  }

  lemma SharedCallsOk(m: Mode, s: State, mem: nat, maps: seq<Mapping>, read: bool)
    requires mem in s.nodes && MappingsLive(s, maps) && MappingsAvoid(maps, mem)
    requires m.Typed? ==> IsEntity(s.nodes[mem].kind) && MappingsTyped(s, maps)
    ensures CallsOk(m, s, SharedCalls(mem, maps, read))
  {
    SharedJoins();
    SharedCallsFor(mem, maps, read);
  }

  /** A relation of one category between nodes of the kinds that it is for joins them rightly. */
  lemma CategoryJoins(ty: Word, f: Word, t: Word)
    ensures OfCategory(ty, RL_USED) && IsEntity(f) && IsActivity(t) ==> Joins(ty, f, t)
    ensures OfCategory(ty, RL_GENERATED) && IsActivity(f) && IsEntity(t) ==> Joins(ty, f, t)
    ensures OfCategory(ty, RL_DERIVED) && IsEntity(f) && IsEntity(t) ==> Joins(ty, f, t)
    ensures OfCategory(ty, RL_INFORMED) && IsActivity(f) && IsActivity(t) ==> Joins(ty, f, t)
    ensures OfCategory(ty, RL_INFLUENCED) && IsActivity(f) && IsAgent(t) ==> Joins(ty, f, t)
  {
  }

  lemma KindsOfNodes()
    ensures IsActivity(ACT_TASK) && IsAgent(AGT_MACHINE)
  {
  }

  /** The relation that a hook is called for joins the right kinds. */
  lemma ExplicitJoins(s: State, ty: Word, f: nat, t: nat, category: Word)
    requires f in s.nodes && t in s.nodes && OfCategory(ty, category)
    requires category == RL_USED ==> IsEntity(s.nodes[f].kind) && s.nodes[t].kind == ACT_TASK
    requires category == RL_GENERATED ==> s.nodes[f].kind == ACT_TASK && IsEntity(s.nodes[t].kind)
    requires category == RL_DERIVED ==> IsEntity(s.nodes[f].kind) && IsEntity(s.nodes[t].kind)
    requires category == RL_INFORMED ==> s.nodes[f].kind == ACT_TASK && s.nodes[t].kind == ACT_TASK
    requires category == RL_INFLUENCED ==> s.nodes[f].kind == ACT_TASK && s.nodes[t].kind == AGT_MACHINE
    requires category in {RL_USED, RL_GENERATED, RL_DERIVED, RL_INFORMED, RL_INFLUENCED}
    ensures Joins(ty, s.nodes[f].kind, s.nodes[t].kind)
  {
    KindsOfNodes();
    CategoryJoins(ty, s.nodes[f].kind, s.nodes[t].kind);
  }

  lemma UsesCallsOk(m: Mode, s: State, r: Request)
    requires r.Using? && ValidHook(s, r) && (m.Typed? ==> TypedHook(s, r))
    ensures CallsOk(m, s, HookOf(s, r).calls)
  {
    SharedJoins();
    if m.Typed? { ExplicitJoins(s, r.ty, r.entity, r.activity, RL_USED); }
    SharedCallsOk(m, s, r.mem, r.maps, false);
  }

  lemma GeneratesCallsOk(m: Mode, s: State, r: Request)
    requires r.Generating? && ValidHook(s, r) && (m.Typed? ==> TypedHook(s, r))
    ensures CallsOk(m, s, HookOf(s, r).calls)
  {
    SharedJoins();
    if m.Typed? { ExplicitJoins(s, r.ty, r.activity, r.entity, RL_GENERATED); }
    SharedCallsOk(m, s, r.mem, r.maps, true);
  }

  lemma InfluencesCallsOk(m: Mode, s: State, r: Request)
    requires r.Influencing? && ValidHook(s, r) && Ready(m, s) && (m.Typed? ==> TypedHook(s, r))
    ensures CallsOk(m, s, HookOf(s, r).calls)
  {
    SharedJoins();
    if m.Typed? {
      assert KindAt(s, s.machine, s.nodes[s.machine].kind);
      ExplicitJoins(s, r.ty, r.activity, s.machine, RL_INFLUENCED);
    }
  }

  lemma PairCallsOk(m: Mode, s: State, r: Request)
    requires (r.UsingTwo? || r.Deriving? || r.Informing?) && ValidHook(s, r) && (m.Typed? ==> TypedHook(s, r))
    ensures CallsOk(m, s, HookOf(s, r).calls)
  {
    if m.Typed? {
      match r
      case UsingTwo(ty, e, a) => ExplicitJoins(s, ty, e, a, RL_USED);
      case Deriving(ty, f, t) => ExplicitJoins(s, ty, f, t, RL_DERIVED);
      case Informing(ty, f, t) => ExplicitJoins(s, ty, f, t, RL_INFORMED);
    }
  }

  lemma HookCallsOk(m: Mode, s: State, r: Request)
    requires IsHook(r) && ValidHook(s, r) && Ready(m, s)
    requires m.Typed? ==> TypedHook(s, r)
    ensures CallsOk(m, s, HookOf(s, r).calls)
  {
    match r
    case Using(_, _, _, _, _) => UsesCallsOk(m, s, r);
    case Generating(_, _, _, _, _) => GeneratesCallsOk(m, s, r);
    case Influencing(_, _, _) => InfluencesCallsOk(m, s, r);
    case _ => PairCallsOk(m, s, r);
  }

  lemma BeginSteps(m: Mode, s: State, h: Hook)
    requires HookLive(s, h) && Ready(m, s)
    ensures Steps(m, s, Begin(s, h)) && SameKinds(s, Begin(s, h))
  {
    TargetAllSteps(m, s, h.objs);
    if h.inherits { InheritSteps(m, s, TargetAll(s, h.objs), h.objs[0], h.objs[1]); }
  }

  lemma RunHookSteps(m: Mode, s: State, h: Hook)
    requires HookLive(s, h) && CallsOk(m, s, h.calls) && Ready(m, s) && (m.Steady? ==> Ready(m, RunHook(s, h)))
    ensures Steps(m, s, RunHook(s, h))
  {
    var s1 := Begin(s, h);
    BeginSteps(m, s, h);
    if Passes(s1, h) { GuardedSteps(m, s, s1, h.calls); }
  }

  lemma ConfigureSteps(m: Mode, s: State, o: nat, setting: Setting, op: bv8)
    requires o in s.nodes && Ready(m, s)
    requires !m.Calm?
    ensures Steps(m, s, Configure(s, o, setting, op))
  {
    var n := s.nodes[o];
    var n' := n.(
      tracked := if (op & SET_TRACKED) != 0 then setting.tracked else n.tracked,
      isOpaque := if (op & SET_OPAQUE) != 0 then setting.isOpaque else n.isOpaque,
      propagate := if (op & SET_PROPAGATE) != 0 then setting.propagate else n.propagate);
    Self(m, s);
    if m.Typed? { assert KindAt(s, o, n.kind); }
    AdjustSteps(m, s, s, o, n');
    var s1 := Put(s, o, n');
    One(m, s1, InjectOp(o, setting.taint));
  }

  lemma OwningSteps(m: Mode, s: State, o: nat, owner: Owner)
    requires o in s.nodes && Ready(m, s)
    ensures Steps(m, s, SetOwner(s, o, owner))
  {
    One(m, s, AdjustOp(o, s.nodes[o].(memo := s.nodes[o].memo.(owner := owner))));
  }

  lemma PassingSteps(m: Mode, s: State, o: nat, env: bool)
    requires o in s.nodes && NextId(s) < s.machine && Ready(m, s)
    requires m.Typed? ==> IsEntity(s.nodes[o].kind)
    ensures Steps(m, s, Perform(s, Passing(o, env)))
  {
    if m.Typed? { ArgJoins(s.nodes[o].kind); }
    if env {
      RecordTransientSteps(m, s, RL_ENV, ENT_ENV, o);
    } else {
      RecordTransientSteps(m, s, RL_ARG, ENT_ARG, o);
    }
  }

  lemma HookSteps(m: Mode, s: State, r: Request)
    requires IsHook(r) && Valid(s, r) && Fits(m, s, r) && Ready(m, s)
    ensures Steps(m, s, Perform(s, r))
  {
    ValidHookLive(s, r);
    HookCallsOk(m, s, r);
    RunHookSteps(m, s, HookOf(s, r));
  }

  predicate IsNote(r: Request) { r.Naming? || r.Addressing? || r.Passing? || r.Logging? }

  lemma NoteSteps(m: Mode, s: State, r: Request)
    requires IsNote(r) && Valid(s, r) && Ready(m, s) && (m.Typed? ==> TypedRequest(s, r))
    ensures Steps(m, s, Perform(s, r))
  {
    match r
    case Naming(o, force) => RecordNodeNameSteps(m, s, o, force);
    case Addressing(o) => RecordAddressSteps(m, s, o);
    case Passing(o, env) => PassingSteps(m, s, o, env);
    case Logging(o, propagate) => RecordLogSteps(m, s, o, propagate);
  }

  lemma ObjectSteps(m: Mode, s: State, r: Request)
    requires !IsHook(r) && !IsNote(r) && Valid(s, r) && Fits(m, s, r) && Ready(m, s)
    ensures Steps(m, s, Perform(s, r))
  {
    match r
    case Relating(ty, f, t) => RecordRelationSteps(m, s, ty, f, t);
    case Terminating(ty, o) => RecordTerminateSteps(m, s, ty, o);
    case Retyping(o, mode) => UpdateInodeTypeSteps(m, s, o, mode);
    case Allocating(kind) => One(m, s, AllocOp(kind));
    case Owning(o, owner) => OwningSteps(m, s, o, owner);
    case Configuring(o, setting, op) => ConfigureSteps(m, s, o, setting, op);
    case Governing(policy) => One(m, s, PolicyOp(policy));
    case Advancing => One(m, s, EpochOp);
    case Refreshing => One(m, s, RefreshOp);
  }

  lemma PerformSteps(m: Mode, s: State, r: Request)
    requires Valid(s, r) && Fits(m, s, r) && Ready(m, s)
    ensures Steps(m, s, Perform(s, r))
  {
    if IsHook(r) {
      HookSteps(m, s, r);
    } else if IsNote(r) {
      NoteSteps(m, s, r);
    } else {
      ObjectSteps(m, s, r);
    }
  }

  /** Well-typed operations leave every node of a permitted kind. */
  lemma KindsApply(s: State, op: Op)
    requires KindsOk(s) && s.counter < s.machine && Good(Typed, s, op)
    ensures KindsOk(Apply(s, op)) && Apply(s, op).counter < Apply(s, op).machine
  {
    match op
    case LinkOp(_, _, _) => ReadyStable(Typed, s, Apply(s, op));
    case AttachOp(_, _, _) => ReadyStable(Typed, s, Apply(s, op));
    case _ =>
  }

  lemma KindsSteps(s: State, s': State)
    requires KindsOk(s) && s.counter < s.machine && Steps(Typed, s, s')
    ensures KindsOk(s') && s'.counter < s'.machine
  {
    var P := (x: State) => KindsOk(x) && x.counter < x.machine;
    forall x, op | P(x) && Good(Typed, x, op) ensures P(Apply(x, op)) { KindsApply(x, op); }
    assert Closed(Typed, P);
  }

  /** What good operations keep, fitting runs keep. */
  lemma {:induction false} RunSteps(m: Mode, s: State, rs: seq<Request>)
    requires ValidRun(s, rs) && FitRun(m, s, rs)
    requires m.Typed? ==> KindsOk(s) && s.counter < s.machine
    ensures Steps(m, s, Run(s, rs))
    decreases |rs|
  {
    if rs == [] {
      Self(m, s);
    } else {
      var s1 := Perform(s, rs[0]);
      PerformSteps(m, s, rs[0]);
      if m.Typed? { KindsSteps(s, s1); }
      RunSteps(m, s1, rs[1..]);
      Trans(m, s, s1, Run(s, rs));
    }
  }
}
