/**
 The recording engine as the kernel runs it: nodes are objects updated in
 place, old versions are copies on the stack, and records go to the end of the
 log. Each method is proved to do to the state what its specification in
 module Model says.
 */
module Recorders {
  import opened ProvTypes
  import opened Model
  import opened Requests

  /** The second end as it stands when its turn comes: marked already when it is the first end too. */
  ghost function EndOf(same: bool, p: Policy, epoch: nat, ty: Word, f: Node, t: Node): Node {
    if same then SecondEnd(p, epoch, ty, f) else t
  }

  /** `Link` written out. */
  lemma LinkMade(s: State, s': State, ty: Word, f: nat, t: nat, w: Written)
    requires f in s.nodes && t in s.nodes && s'.nodes.Keys == s.nodes.Keys
    requires var n := s.nodes[f].(outgoing := true);
             w == Model.WriteRelation(s.policy, s.epoch, ty, n, EndOf(f == t, s.policy, s.epoch, ty, n, s.nodes[t]),
                 s.log, s.trail)
    requires s' == s.(nodes := s'.nodes, log := w.log, trail := w.trail,
                      asked := s.asked + [Asking(ty, f, s.nodes[f].version, t)])
    requires s'.nodes[t] == w.to && (f != t ==> s'.nodes[f] == w.from)
    requires forall i :: i in s.nodes && i != f && i != t ==> s'.nodes[i] == s.nodes[i]
    ensures s' == Link(s, ty, f, t)
  {
    assert s'.nodes == s.nodes[f := w.from][t := w.to];
    StoredOver(s, f, t, w);
  }

  lemma StoredOver(s: State, f: nat, t: nat, w: Written)
    requires f in s.nodes && t in s.nodes
    requires Kept(SetOutgoing(s, f).nodes[f], w.from) && Kept(SetOutgoing(s, f).nodes[t], w.to)
    ensures Store(SetOutgoing(s, f), f, t, w) ==
            s.(nodes := s.nodes[f := w.from][t := w.to], log := w.log, trail := w.trail)
  {
    assert SetOutgoing(s, f).nodes[f := w.from] == s.nodes[f := w.from];
  }

  /** `Attach` once the id of the transient node has been taken. */
  ghost function Hung(s: State, ty: Word, src: Node, t: nat): State
    requires t in s.nodes
  {
    var w := Model.WriteRelation(s.policy, s.epoch, ty, src, s.nodes[t], s.log, s.trail);
    s.(nodes := s.nodes[t := w.to], log := w.log, trail := w.trail,
       asked := s.asked + [Asking(ty, src.id, src.version, t)])
  }

  /** Taking the id first makes no difference to what comes after. */
  lemma Counted(s: State, ty: Word, f: nat, t: nat)
    requires t in s.nodes
    ensures Model.UpdateVersion(Remember(TakeId(s), ty, f, t), ty, t) ==
            TakeId(Model.UpdateVersion(Remember(s, ty, f, t), ty, t))
  {
  }

  /** What recording from a transient node comes to, unless it repeats the last relation. */
  lemma TransientMade(s: State, s': State, ty: Word, kind: Word, t: nat)
    requires t in s.nodes && !Repeats(s.policy, ty, NextId(s), s.nodes[t])
    requires s' == Attach(Model.UpdateVersion(Remember(s, ty, NextId(s), t), ty, t), ty, Marker(NextId(s), kind), t)
    ensures s' == Model.RecordTransient(s, ty, kind, t)
  {
  }

  lemma HungIsAttached(s: State, ty: Word, src: Node, t: nat)
    requires t in s.nodes
    ensures Hung(TakeId(s), ty, src, t) == Attach(s, ty, src, t)
  {
  }

  lemma ConfigureMade(s: State, s': State, o: nat, setting: Setting, op: bv8)
    requires o in s.nodes && o in s'.nodes && s'.nodes == s.nodes[o := s'.nodes[o]]
    requires s' == s.(nodes := s'.nodes, trail := s'.trail)
    requires s'.trail == if (op & SET_TAINT) != 0 then s.trail + [Injected(o, setting.taint)] else s.trail
    requires s'.nodes[o] == s.nodes[o].(
             tracked := if (op & SET_TRACKED) != 0 then setting.tracked else s.nodes[o].tracked,
             isOpaque := if (op & SET_OPAQUE) != 0 then setting.isOpaque else s.nodes[o].isOpaque,
             propagate := if (op & SET_PROPAGATE) != 0 then setting.propagate else s.nodes[o].propagate,
             taint := if (op & SET_TAINT) != 0 then s.nodes[o].taint + setting.taint else s.nodes[o].taint)
    ensures s' == Configure(s, o, setting, op)
  {
  }

  /** One mapping of the current process, with the node of the mapped file, if it has one. */
  datatype Vma = Vma(file: ProvNode?, read: bool, write: bool, exec: bool, mayShare: bool)

  function Plain(v: Vma): Mapping {
    Mapping(if v.file == null then NoNode else FileNode(v.file.id), v.read, v.write, v.exec, v.mayShare)
  }

  function Mappings(maps: seq<Vma>): (r: seq<Mapping>)
    ensures |r| == |maps| && forall i :: 0 <= i < |maps| ==> r[i] == Plain(maps[i])
  {
    seq(|maps|, i requires 0 <= i < |maps| => Plain(maps[i]))
  }

  /** The calls for one more mapping. */
  lemma SharedStep(s: State, mem: nat, maps: seq<Mapping>, read: bool, i: nat)
    requires i < |maps| && CallsLive(s, SharedCalls(mem, maps, read)) && CallsLive(s, SharedCalls(mem, maps[..i], read))
    ensures CallsLive(s, SharedCalls(mem, maps[..i + 1], read))
    ensures var s1, c := DoAll(s, SharedCalls(mem, maps[..i], read)), SharedCall(mem, maps[i], read);
            && CallsLive(s1, c)
            && DoAll(s, SharedCalls(mem, maps[..i + 1], read)) == if c == [] then s1 else Do(s1, c[0])
  {
    SharedCallsFor(mem, maps, read);
    SharedCallsFor(mem, maps[..i + 1], read);
    assert maps[..i + 1][..i] == maps[..i];
    forall c | c in SharedCalls(mem, maps[..i + 1], read) ensures CallLive(s, c) {
      var k :| 0 <= k < i + 1 && c in SharedCall(mem, maps[..i + 1][k], read);
      assert c in SharedCall(mem, maps[k], read);
    }
    DoAllSplit(s, SharedCalls(mem, maps[..i], read), SharedCall(mem, maps[i], read));
    var s1, c := DoAll(s, SharedCalls(mem, maps[..i], read)), SharedCall(mem, maps[i], read);
    if c != [] { assert c[..0] == []; assert DoAll(s1, c[..0]) == s1; }
  }

  lemma BeginTwo(s: State, h: Hook)
    requires HookLive(s, h) && |h.objs| == 2 && !h.inherits
    ensures h.objs[0] in s.nodes && h.objs[1] in s.nodes && Begin(s, h) == Target(Target(s, h.objs[0]), h.objs[1])
  {
    assert h.objs[0] in h.objs && h.objs[1] in h.objs;
    var one := h.objs[..1];
    assert one[..0] == [] && h.objs[..|h.objs| - 1] == one && one[|one| - 1] == h.objs[0];
    assert TargetAll(s, one[..0]) == s;
    assert TargetAll(s, one) == Target(s, h.objs[0]);
  }

  lemma WantedTwo(s: State, a: nat, b: nat)
    requires a in s.nodes && b in s.nodes
    ensures Wanted(s, [a, b]) <==>
            !s.nodes[a].isOpaque && !s.nodes[b].isOpaque && (s.nodes[a].tracked || s.nodes[b].tracked || s.policy.all)
  {
    assert a in [a, b] && b in [a, b];
  }

  /** The object as a log line finds it. */
  ghost function ForLog(s: State, o: nat, propagate: bool): State
    requires o in s.nodes
  {
    Put(s, o, s.nodes[o].(tracked := true, propagate := s.nodes[o].propagate || propagate))
  }

  ghost function WithLine(s: State, o: nat): State
    requires o in s.nodes
  {
    Attach(s, RL_LOG, FreshNode(NextId(s), ENT_STR), o)
  }

  lemma LogMade(s: State, p: State, s': State, o: nat, propagate: bool)
    requires o in s.nodes && p == ForLog(s, o, propagate) && s' == WithLine(p, o)
    ensures s' == Model.RecordLog(s, o, propagate)
  {
  }

  /** Two calls have been made. */
  lemma BothMade(s: State, s1: State, s2: State, calls: seq<Call>)
    requires |calls| == 2 && CallsLive(s, calls) && CallLive(s, calls[0]) && s1 == Do(s, calls[0])
    requires CallLive(s1, calls[1]) && s2 == Do(s1, calls[1])
    ensures s2 == DoAll(s, calls)
  {
    DoAllTwo(s, calls);
  }

  lemma LinkedMade(s: State, s1: State, s2: State, ty: Word, f: nat, t: nat)
    requires CallsLive(s, Linked(ty, f, t)) && f in s.nodes && t in s.nodes && s1 == Model.RecordRelation(s, ty, f, t)
    requires t in s1.nodes && s1.machine in s1.nodes && s2 == Model.RecordKernelLink(s1, t)
    ensures s2 == DoAll(s, Linked(ty, f, t))
  {
    BothMade(s, s1, s2, Linked(ty, f, t));
  }

  /** One relation more. */
  lemma RelationMade(s: State, s1: State, s2: State, calls: seq<Call>, ty: Word, f: nat, t: nat)
    requires CallsLive(s, calls) && f in s.nodes && t in s.nodes && s1 == DoAll(s, calls)
    requires f in s1.nodes && t in s1.nodes && s2 == Model.RecordRelation(s1, ty, f, t)
    ensures CallsLive(s, calls + [Relate(ty, f, t)]) && s2 == DoAll(s, calls + [Relate(ty, f, t)])
  {
    DoAllNext(s, calls, Relate(ty, f, t));
  }

  /** One call more. */
  lemma DoAllNext(s: State, calls: seq<Call>, c: Call)
    requires CallsLive(s, calls) && CallLive(s, c)
    ensures CallsLive(s, calls + [c]) && DoAll(s, calls + [c]) == Do(DoAll(s, calls), c)
  {
    assert (calls + [c])[..|calls|] == calls;
  }

  lemma TargetAllThree(s: State, objs: seq<nat>)
    requires |objs| == 3 && forall o :: o in objs ==> o in s.nodes
    ensures objs[0] in s.nodes && objs[1] in s.nodes && objs[2] in s.nodes
    ensures TargetAll(s, objs) == Target(Target(Target(s, objs[0]), objs[1]), objs[2])
  {
    assert objs[0] in objs && objs[1] in objs && objs[2] in objs;
    var two, one := objs[..2], objs[..1];
    assert one[..0] == [] && two[..1] == one;
    assert TargetAll(s, one[..0]) == s;
    assert TargetAll(s, one) == Target(s, objs[0]);
    assert TargetAll(s, two) == Target(Target(s, objs[0]), objs[1]);
  }

  lemma WantedThree(s: State, a: nat, b: nat, c: nat)
    requires a in s.nodes && b in s.nodes && c in s.nodes
    ensures Wanted(s, [a, b, c]) <==>
            && !s.nodes[a].isOpaque && !s.nodes[b].isOpaque && !s.nodes[c].isOpaque
            && (s.nodes[a].tracked || s.nodes[b].tracked || s.nodes[c].tracked || s.policy.all)
  {
    assert a in [a, b, c] && b in [a, b, c] && c in [a, b, c];
  }

  /** A relation, and then the kernel link of its receiver. */
  ghost function Linked(ty: Word, f: nat, t: nat): seq<Call> {
    [Relate(ty, f, t), LinkKernel(t)]
  }

  ghost function UseCalls(ty: Word, entity: nat, activity: nat, mem: nat): seq<Call> {
    Linked(ty, entity, activity) + [Relate(RL_PROC_WRITE, activity, mem)]
  }

  lemma UseSplit(s: State, ty: Word, entity: nat, activity: nat, mem: nat, maps: seq<Mapping>)
    requires CallsLive(s, Model.Uses(ty, entity, activity, mem, maps).calls)
    ensures var a, b := UseCalls(ty, entity, activity, mem), SharedCalls(mem, maps, false);
            Model.Uses(ty, entity, activity, mem, maps).calls == a + b && CallsLive(s, a) && CallsLive(s, b)
  {
    var a, b := UseCalls(ty, entity, activity, mem), SharedCalls(mem, maps, false);
    assert Model.Uses(ty, entity, activity, mem, maps).calls == a + b;
    LiveParts(s, a, b);
  }

  ghost function GenerationCalls(ty: Word, mem: nat, activity: nat, entity: nat): seq<Call> {
    Linked(RL_PROC_READ, mem, activity) + [Relate(ty, activity, entity)]
  }

  lemma GenerationSplit(s: State, ty: Word, mem: nat, activity: nat, entity: nat, maps: seq<Mapping>)
    requires CallsLive(s, Model.Generates(ty, mem, activity, entity, maps).calls)
    ensures var a, b := SharedCalls(mem, maps, true), GenerationCalls(ty, mem, activity, entity);
            Model.Generates(ty, mem, activity, entity, maps).calls == a + b && CallsLive(s, a) && CallsLive(s, b)
  {
    var a, b := SharedCalls(mem, maps, true), GenerationCalls(ty, mem, activity, entity);
    assert Model.Generates(ty, mem, activity, entity, maps).calls == a + b;
    LiveParts(s, a, b);
  }

  lemma LiveParts(s: State, a: seq<Call>, b: seq<Call>)
    requires CallsLive(s, a + b)
    ensures CallsLive(s, a) && CallsLive(s, b)
  {
    forall c | c in a || c in b ensures CallLive(s, c) { assert c in a + b; }
  }

  lemma LiveAfter(s: State, s1: State, calls: seq<Call>)
    requires SameFrame(s, s1) && CallsLive(s, calls)
    ensures CallsLive(s1, calls)
  {
    forall c | c in calls ensures CallLive(s1, c) { assert CallLive(s, c); }
  }

  lemma SplitMade(s: State, s1: State, s2: State, a: seq<Call>, b: seq<Call>)
    requires CallsLive(s, a) && CallsLive(s, b) && s1 == DoAll(s, a) && CallsLive(s1, b) && s2 == DoAll(s1, b)
    ensures CallsLive(s, a + b) && s2 == DoAll(s, a + b)
  {
    DoAllSplit(s, a, b);
  }

  /** The hook is live still, after what leaves the live objects alone. */
  lemma HookLiveAfter(s: State, s1: State, h: Hook)
    requires SameFrame(s, s1) && HookLive(s, h)
    ensures HookLive(s1, h) && CallsLive(s1, h.calls)
  {
    LiveAfter(s, s1, h.calls);
  }

  class ProvNode {
    const id: nat
    var version: nat
    var kind: Word
    var epoch: nat
    var tracked: bool
    var isOpaque: bool
    var propagate: bool
    var outgoing: bool
    var taint: set<nat>
    var memo: Memo

    function Value(): Node
      reads this
    {
      Node(id, version, kind, epoch, tracked, isOpaque, propagate, outgoing, taint, memo)
    }

    constructor (id: nat, kind: Word)
      ensures Value() == FreshNode(id, kind)
    {
      this.id := id;
      this.kind := kind;
      version, epoch, taint, memo := 0, 0, {}, NO_MEMO;
      tracked, isOpaque, propagate, outgoing := false, false, false, false;
    }

    constructor Copy(n: ProvNode)
      ensures Value() == n.Value()
    {
      id := n.id;
      version, kind, epoch, taint, memo := n.version, n.kind, n.epoch, n.taint, n.memo;
      tracked, isOpaque, propagate, outgoing := n.tracked, n.isOpaque, n.propagate, n.outgoing;
    }
  }

  class Recorder {
    var policy: Policy
    var epoch: nat
    var counter: nat
    var machine: ProvNode
    var log: seq<Record>
    ghost var trail: seq<Event>
    ghost var asked: seq<Asking>
    var live: map<nat, ProvNode>    // by id; in the kernel, the objects that hold the nodes

    ghost predicate Valid()
      reads this
    {
      && machine.id in live && live[machine.id] == machine
      && forall i :: i in live ==> live[i].id == i
    }

    /** The node is one of the live ones. */
    ghost predicate Owns(n: ProvNode)
      reads this
    {
      n.id in live && live[n.id] == n && n in live.Values
    }

    ghost function View(): State
      reads this, live.Values
    {
      State(policy, epoch, counter, machine.id, map i | i in live :: live[i].Value(), log, trail, asked)
    }

    constructor (policy: Policy, machineId: nat)
      requires 0 < machineId
      ensures Valid() && fresh(live.Values)
      ensures View() == Boot(policy, machineId)
    {
      var m := new ProvNode(machineId, AGT_MACHINE);
      m.version := 1;
      this.policy := policy;
      epoch, counter := 1, 0;
      machine := m;
      log, trail, asked := [], [], [];
      live := map[machineId := m];
    }

    method WriteNode(n: ProvNode)
      modifies this`log, n`epoch
      ensures n.Value() == Marked(policy, epoch, old(n.Value()))
      ensures log == old(log) + NodeLine(policy, epoch, old(n.Value()))
    {
      if epoch <= n.epoch && !policy.duplicate {
        return;
      }
      n.epoch := epoch;
      log := log + [NodeRecord(n.Value())];
    }

    /** The `flow` query hook. */
    method PassOn(ty: Word, f: ProvNode, t: ProvNode)
      modifies t`tracked, t`propagate, t`taint
      ensures t.Value() == Flow(policy, ty, old(f.Value()), old(t.Value()))
    {
      if f.propagate && f.tracked {
        var hit := FilterPropagateRelation(policy, ty) || !policy.enabled || t.isOpaque
            || Hit(policy.propagateNodeFilter, t.kind);
        if !hit {
          t.tracked := true;
          t.propagate := true;
          t.taint := t.taint + f.taint;
        }
      }
    }

    method Filtered(n: ProvNode) returns (r: bool)
      ensures r == FilterNode(policy, n.Value())
    {
      r := !policy.enabled || n.isOpaque || Hit(policy.nodeFilter, n.kind);
    }

    /** The two ends may be one node. */
    method WriteRelation(ty: Word, f: ProvNode, t: ProvNode)
      modifies this`log, this`trail, f`epoch, t`epoch, t`tracked, t`propagate, t`taint
      ensures var to := EndOf(f == t, policy, epoch, ty, old(f.Value()), old(t.Value()));
              var w := Model.WriteRelation(policy, epoch, ty, old(f.Value()), to, old(log), old(trail));
              t.Value() == w.to && log == w.log && trail == w.trail && (f != t ==> f.Value() == w.from)
    {
      var ff := Filtered(f);
      var ft := Filtered(t);
      if FilterRelation(policy, ty) || ff || ft {
        return;
      }
      trail := trail + [Sent(policy, ty, f.Value(), EndOf(f == t, policy, epoch, ty, f.Value(), t.Value()))];
      WriteNode(f);
      WriteNode(t);
      PassOn(ty, f, t);
      log := log + [Relation(Edge(ty, Ident(f.kind, f.id, f.version), Ident(t.kind, t.id, t.version)), epoch)];
    }

    /** Only `n` among the live nodes has changed. */
    twostate lemma OneChanged(n: ProvNode)
      requires old(Valid()) && live == old(live) && old(Owns(n))
      requires forall m :: m in live.Values && m != n ==> unchanged(m)
      ensures View().nodes == old(View().nodes)[n.id := n.Value()]
    {
      forall i | i in live && i != n.id ensures live[i].Value() == old(live[i].Value()) {
        assert live[i] in live.Values && live[i] != n;
      }
    }

    /** Moves a node to its next version, related to a copy of the version before. */
    method AdvanceNode(ty: Word, n: ProvNode, kind: Word, mode: FileMode)
      modifies this`log, this`trail, n
      ensures var w := Model.WriteRelation(policy, epoch, ty, old(n.Value()),
              NextVersion(old(n.Value()), kind, mode), old(log), old(trail));
              n.Value() == w.to.(outgoing := false) && log == w.log && trail == w.trail
    {
      var before := new ProvNode.Copy(n);
      n.memo := n.memo.(mode := mode);
      n.kind := kind;
      n.version := n.version + 1;
      n.epoch := 0;
      assert n.Value() == NextVersion(before.Value(), kind, mode);
      WriteRelation(ty, before, n);
      n.outgoing := false;
    }

    method Advance(ty: Word, n: ProvNode, kind: Word, mode: FileMode)
      requires Valid() && Owns(n)
      modifies this`log, this`trail, n
      ensures Valid()
      ensures View() == Bump(old(View()), n.id, ty, kind, mode)
    {
      AdvanceNode(ty, n, kind, mode);
      OneChanged(n);
    }

    method UpdateVersion(ty: Word, n: ProvNode)
      requires Valid() && Owns(n)
      modifies this`log, this`trail, n
      ensures Valid()
      ensures View() == Model.UpdateVersion(old(View()), ty, n.id)
    {
      if !n.outgoing && policy.compressNode {
        return;
      }
      if FilterUpdateNode(ty) {
        return;
      }
      if n.kind == ACT_TASK {
        Advance(RL_VERSION_TASK, n, n.kind, n.memo.mode);
      } else {
        Advance(RL_VERSION, n, n.kind, n.memo.mode);
      }
    }

    method ConnectNodes(ty: Word, f: ProvNode, t: ProvNode)
      modifies this`log, this`trail, f, t
      ensures var n := old(f.Value()).(outgoing := true);
              var to := EndOf(f == t, policy, epoch, ty, n, old(t.Value()));
              var w := Model.WriteRelation(policy, epoch, ty, n, to, old(log), old(trail));
              t.Value() == w.to && log == w.log && trail == w.trail && (f != t ==> f.Value() == w.from)
    {
      f.outgoing := true;
      WriteRelation(ty, f, t);
    }

    method Connect(ty: Word, f: ProvNode, t: ProvNode)
      requires Valid() && Owns(f) && Owns(t)
      modifies this`log, this`trail, this`asked, f, t
      ensures Valid()
      ensures View() == Link(old(View()), ty, f.id, t.id)
    {
      ghost var s, n := View(), f.Value().(outgoing := true);
      ghost var to := EndOf(f == t, policy, epoch, ty, n, t.Value());
      ghost var w := Model.WriteRelation(policy, epoch, ty, n, to, log, trail);
      asked := asked + [Asking(ty, f.id, f.version, t.id)];
      ConnectNodes(ty, f, t);
      LinkMade(s, View(), ty, f.id, t.id, w);
    }

    /** Notes the relation into `t`, unless it repeats the one noted last. */
    method Note(ty: Word, id: nat, t: ProvNode) returns (repeated: bool)
      requires Valid() && Owns(t)
      modifies t`memo
      ensures Valid() && repeated == Repeats(policy, ty, id, old(t.Value()))
      ensures View() == if repeated then old(View()) else Remember(old(View()), ty, id, t.id)
    {
      repeated := false;
      if policy.compressEdge {
        if t.memo.previousId == id && t.memo.previousType == ty {
          repeated := true;
        } else {
          t.memo := t.memo.(previousId := id, previousType := ty);
        }
      }
      OneChanged(t);
      assert old(View()).nodes[t.id] == old(t.Value());
    }

    method RecordRelation(ty: Word, f: ProvNode, t: ProvNode)
      requires Valid() && Owns(f) && Owns(t)
      modifies this`log, this`trail, this`asked, f, t
      ensures Valid()
      ensures View() == Model.RecordRelation(old(View()), ty, f.id, t.id)
    {
      var repeated := Note(ty, f.id, t);
      if repeated {
        return;
      }
      UpdateVersion(ty, t);
      Connect(ty, f, t);
    }

    method RecordTerminate(ty: Word, n: ProvNode)
      requires Valid() && Owns(n)
      modifies this`log, this`trail, n
      ensures Valid()
      ensures View() == Model.RecordTerminate(old(View()), ty, n.id)
    {
      assert View().nodes[n.id] == n.Value();
      if n.epoch < epoch && !policy.all {
        return;
      }
      var hidden := Filtered(n);
      if hidden {
        return;
      }
      Advance(ty, n, n.kind, n.memo.mode);
    }

    method UpdateInodeType(mode: FileMode, n: ProvNode)
      requires Valid() && Owns(n)
      modifies this`log, this`trail, n
      ensures Valid()
      ensures View() == Model.UpdateInodeType(old(View()), n.id, mode)
    {
      var kind := InodeKind(mode);
      assert View().nodes[n.id] == n.Value();
      if n.memo.mode.bits != 0 && n.memo.mode != mode && epoch <= n.epoch {
        Advance(RL_VERSION, n, kind, mode);
        assert n.Value() == View().nodes[n.id];
        assert n.memo.mode == mode && n.kind == kind;
      }
      n.memo := n.memo.(mode := mode);
      n.kind := kind;
      OneChanged(n);
    }

    method SetOwner(n: ProvNode, owner: Owner)
      requires Valid() && Owns(n)
      modifies n`memo
      ensures Valid()
      ensures View() == Model.SetOwner(old(View()), n.id, owner)
    {
      assert View().nodes[n.id] == n.Value();
      n.memo := n.memo.(owner := owner);
      OneChanged(n);
    }

    method SetKernelRecorded(n: ProvNode)
      requires Valid() && Owns(n)
      modifies n`memo
      ensures Valid()
      ensures View() == Model.SetKernelRecorded(old(View()), n.id)
    {
      assert View().nodes[n.id] == n.Value() && View().nodes[machine.id] == machine.Value();
      n.memo := n.memo.(kernelVersion := machine.version);
      OneChanged(n);
    }

    method RecordKernelLink(n: ProvNode)
      requires Valid() && Owns(n)
      modifies this`log, this`trail, this`asked, machine, n
      ensures Valid()
      ensures View() == Model.RecordKernelLink(old(View()), n.id)
    {
      assert View().nodes[n.id] == n.Value() && View().nodes[machine.id] == machine.Value();
      if machine.version <= n.memo.kernelVersion || n.epoch < epoch {
        return;
      }
      RecordRelation(RL_RAN_ON, machine, n);
      SetKernelRecorded(n);
    }

    /** Relates a node that is not live to one that is; its id has been taken already, `p` is the state before that. */
    method Hang(ty: Word, src: ProvNode, t: ProvNode, ghost p: State)
      requires Valid() && Owns(t) && src !in live.Values && View() == TakeId(p)
      modifies this`log, this`trail, this`asked, src, t
      ensures Valid()
      ensures View() == Attach(p, ty, old(src.Value()), t.id)
    {
      assert View().nodes[t.id] == t.Value() && src != t;
      asked := asked + [Asking(ty, src.id, src.version, t.id)];
      WriteRelation(ty, src, t);
      OneChanged(t);
      HungIsAttached(p, ty, old(src.Value()), t.id);
    }

    /** Brings `t` to the version that the relation goes into; the id of its source has been taken already. */
    method Prepare(ty: Word, id: nat, t: ProvNode, ghost s: State) returns (repeated: bool)
      requires Valid() && Owns(t) && View() == TakeId(s)
      modifies this`log, this`trail, t
      ensures Valid() && repeated == Repeats(policy, ty, id, old(t.Value()))
      ensures View() == TakeId(if repeated then s else Model.UpdateVersion(Remember(s, ty, id, t.id), ty, t.id))
    {
      repeated := Note(ty, id, t);
      if !repeated {
        UpdateVersion(ty, t);
        Counted(s, ty, id, t.id);
      }
    }

    /** Allocates a node that is not going to be live. */
    method NewTransient(kind: Word) returns (src: ProvNode)
      requires Valid()
      modifies this`counter
      ensures Valid() && fresh(src) && src.Value() == FreshNode(NextId(old(View())), kind)
      ensures View() == TakeId(old(View()))
    {
      counter := counter + 1;
      src := new ProvNode(counter, kind);
    }

    /** Marks a transient node as having a relation out of it and hangs it on `t`. */
    method Leave(ty: Word, kind: Word, src: ProvNode, t: ProvNode, ghost p: State)
      requires Valid() && Owns(t) && src !in live.Values && src.Value() == FreshNode(NextId(p), kind)
      requires View() == TakeId(p)
      modifies this`log, this`trail, this`asked, src, t
      ensures Valid()
      ensures View() == Attach(p, ty, Marker(NextId(p), kind), t.id)
    {
      src.outgoing := true;
      Hang(ty, src, t, p);
    }

    /** `record_relation` from a transient node, allocated here and dropped after. */
    method RecordTransient(ty: Word, kind: Word, t: ProvNode)
      requires Valid() && Owns(t)
      modifies this`log, this`trail, this`asked, this`counter, t
      ensures Valid()
      ensures View() == Model.RecordTransient(old(View()), ty, kind, t.id)
    {
      ghost var s := View();
      assert s.nodes[t.id] == t.Value();
      var src := NewTransient(kind);
      var repeated := Prepare(ty, src.id, t, s);
      if !repeated {
        Leave(ty, kind, src, t, Model.UpdateVersion(Remember(s, ty, NextId(s), t.id), ty, t.id));
        TransientMade(s, View(), ty, kind, t.id);
      }
    }

    method SetNameRecorded(n: ProvNode)
      requires Valid() && Owns(n)
      modifies n`memo
      ensures Valid()
      ensures View() == Model.SetNameRecorded(old(View()), n.id)
    {
      assert View().nodes[n.id] == n.Value();
      n.memo := n.memo.(nameEpoch := epoch);
      OneChanged(n);
    }

    /** Records a name and notes that it has been. */
    method RecordName(ty: Word, kind: Word, n: ProvNode)
      requires Valid() && Owns(n)
      modifies this`log, this`trail, this`asked, this`counter, n
      ensures Valid()
      ensures View() == Model.SetNameRecorded(Model.RecordTransient(old(View()), ty, kind, n.id), n.id)
    {
      RecordTransient(ty, kind, n);
      SetNameRecorded(n);
    }

    method RecordNodeName(n: ProvNode, force: bool)
      requires Valid() && Owns(n)
      modifies this`log, this`trail, this`asked, this`counter, n
      ensures Valid()
      ensures View() == Model.RecordNodeName(old(View()), n.id, force)
    {
      assert View().nodes[n.id] == n.Value();
      if n.isOpaque {
        return;
      }
      if (epoch <= n.memo.nameEpoch && !force) || n.epoch < epoch {
        return;
      }
      if n.kind == ACT_TASK {
        RecordName(RL_NAMED_PROCESS, ENT_PATH, n);
      } else {
        RecordName(RL_NAMED, ENT_PATH, n);
      }
    }

    method RecordAddress(n: ProvNode)
      requires Valid() && Owns(n)
      modifies this`log, this`trail, this`asked, this`counter, n
      ensures Valid()
      ensures View() == Model.RecordAddress(old(View()), n.id)
    {
      assert View().nodes[n.id] == n.Value();
      if epoch <= n.memo.nameEpoch || n.epoch < epoch {
        return;
      }
      RecordName(RL_NAMED, ENT_ADDR, n);
    }

    method MarkLogged(n: ProvNode, propagate: bool)
      requires Valid() && Owns(n)
      modifies n`tracked, n`propagate
      ensures Valid()
      ensures View() == ForLog(old(View()), n.id, propagate)
    {
      assert View().nodes[n.id] == n.Value();
      n.tracked := true;
      if propagate {
        n.propagate := true;
      }
      OneChanged(n);
    }

    /** Relates a transient annotation, allocated here and dropped after, without versioning its object. */
    method Annotate(n: ProvNode)
      requires Valid() && Owns(n)
      modifies this`log, this`trail, this`asked, this`counter, n
      ensures Valid()
      ensures View() == WithLine(old(View()), n.id)
    {
      ghost var s := View();
      var str := NewTransient(ENT_STR);
      Hang(RL_LOG, str, n, s);
    }

    /** A line of user annotation, written to the current task through the log files. */
    method RecordLog(n: ProvNode, propagate: bool)
      requires Valid() && Owns(n)
      modifies this`log, this`trail, this`asked, this`counter, n
      ensures Valid()
      ensures View() == Model.RecordLog(old(View()), n.id, propagate)
    {
      MarkLogged(n, propagate);
      ghost var p := View();
      Annotate(n);
      LogMade(old(View()), p, View(), n.id, propagate);
    }

    method ApplyTarget(n: ProvNode)
      requires Valid() && Owns(n)
      modifies n`tracked, n`propagate, n`isOpaque
      ensures Valid()
      ensures View() == Target(old(View()), n.id)
    {
      assert View().nodes[n.id] == n.Value();
      var op := TargetOp(policy, n.Value());
      if op != 0 {
        if (op & SET_TRACKED) != 0 {
          n.tracked := true;
        }
        if (op & SET_PROPAGATE) != 0 {
          n.propagate := true;
        }
        if (op & SET_OPAQUE) != 0 {
          n.isOpaque := true;
        }
      }
      OneChanged(n);
    }

    method UpdateConfig(n: ProvNode, setting: Setting, op: bv8)
      requires Valid() && Owns(n)
      modifies this`trail, n`tracked, n`propagate, n`isOpaque, n`taint
      ensures Valid()
      ensures View() == Configure(old(View()), n.id, setting, op)
    {
      assert View().nodes[n.id] == n.Value();
      if (op & SET_TRACKED) != 0 {
        n.tracked := setting.tracked;
      }
      if (op & SET_OPAQUE) != 0 {
        n.isOpaque := setting.isOpaque;
      }
      if (op & SET_PROPAGATE) != 0 {
        n.propagate := setting.propagate;
      }
      if (op & SET_TAINT) != 0 {
        n.taint := n.taint + setting.taint;
        trail := trail + [Injected(n.id, setting.taint)];
      }
      OneChanged(n);
      ConfigureMade(old(View()), View(), n.id, setting, op);
    }

    method Allocate(kind: Word) returns (n: ProvNode)
      requires Valid() && counter + 1 !in live
      modifies this`counter, this`live
      ensures Valid() && Owns(n) && fresh(n) && live == old(live)[n.id := n]
      ensures View() == Alloc(old(View()), kind)
    {
      counter := counter + 1;
      n := new ProvNode(counter, kind);
      live := live[n.id := n];
      assert View().nodes == Alloc(old(View()), kind).nodes;
    }

    method SetPolicy(p: Policy)
      requires Valid()
      modifies this`policy
      ensures Valid()
      ensures View() == old(View()).(policy := p)
    {
      policy := p;
    }

    method AdvanceEpoch()
      requires Valid()
      modifies this`epoch
      ensures Valid()
      ensures View() == old(View()).(epoch := old(epoch) + 1)
    {
      epoch := epoch + 1;
    }

    method Refresh()
      requires Valid()
      modifies machine`epoch
      ensures Valid()
      ensures View() == Model.Refresh(old(View()))
    {
      assert View().nodes[machine.id] == machine.Value() && Owns(machine) by { assert machine in live.Values; }
      machine.epoch := 0;
      OneChanged(machine);
    }

    method ShouldRecordRelation(ty: Word, f: ProvNode, t: ProvNode) returns (r: bool)
      requires Valid() && Owns(f) && Owns(t)
      ensures r == ShouldRecord(policy, ty, View().nodes[f.id], View().nodes[t.id])
    {
      assert View().nodes[f.id] == f.Value() && View().nodes[t.id] == t.Value();
      var ff := Filtered(f);
      var ft := Filtered(t);
      r := !FilterRelation(policy, ty) && !ff && !ft;
    }

    method ShareOne(mem: ProvNode, v: Vma, read: bool)
      requires Valid() && Owns(mem) && (v.file != null ==> Owns(v.file))
      requires CallsLive(View(), SharedCall(mem.id, Plain(v), read))
      modifies this`log, this`trail, this`asked, live.Values
      ensures Valid()
      ensures var c := SharedCall(mem.id, Plain(v), read);
              View() == if c == [] then old(View()) else Do(old(View()), c[0])
    {
      if v.file != null {
        if (v.read || v.exec) && v.mayShare && read {
          RecordRelation(RL_SH_READ, v.file, mem);
        }
        if v.write && v.mayShare && !read {
          RecordRelation(RL_SH_WRITE, mem, v.file);
        }
      }
    }

    /** The next mapping of the list. */
    method ShareNext(mem: ProvNode, v: Vma, read: bool, ghost s: State, ghost plain: seq<Mapping>, ghost i: nat)
      requires Valid() && Owns(mem) && (v.file != null ==> Owns(v.file)) && i < |plain| && plain[i] == Plain(v)
      requires CallsLive(s, SharedCalls(mem.id, plain, read)) && CallsLive(s, SharedCalls(mem.id, plain[..i], read))
      requires View() == DoAll(s, SharedCalls(mem.id, plain[..i], read))
      modifies this`log, this`trail, this`asked, live.Values
      ensures Valid() && CallsLive(s, SharedCalls(mem.id, plain[..i + 1], read))
      ensures View() == DoAll(s, SharedCalls(mem.id, plain[..i + 1], read))
    {
      SharedStep(s, mem.id, plain, read, i);
      ShareOne(mem, v, read);
    }

    /** Records the relations between the memory of a process and the files it has mapped shared. */
    method UpdateShared(mem: ProvNode, maps: seq<Vma>, read: bool)
      requires Valid() && Owns(mem)
      requires forall v :: v in maps && v.file != null ==> Owns(v.file)
      requires CallsLive(View(), SharedCalls(mem.id, Mappings(maps), read))
      modifies this`log, this`trail, this`asked, live.Values
      ensures Valid()
      ensures View() == DoAll(old(View()), SharedCalls(mem.id, Mappings(maps), read))
    {
      ghost var s := View();
      ghost var plain := Mappings(maps);
      var i := 0;
      while i < |maps|
        invariant 0 <= i <= |maps| && Valid() && live == old(live)
        invariant CallsLive(s, SharedCalls(mem.id, plain[..i], read))
        invariant View() == DoAll(s, SharedCalls(mem.id, plain[..i], read))
      {
        assert maps[i] in maps;
        ShareNext(mem, maps[i], read, s, plain, i);
        i := i + 1;
      }
      assert plain[..|maps|] == plain;
    }

    // ---------- Hooks ----------

    method TargetTwo(a: ProvNode, b: ProvNode, ghost h: Hook)
      requires Valid() && Owns(a) && Owns(b) && HookLive(View(), h) && h.objs == [a.id, b.id] && !h.inherits
      modifies a`tracked, a`propagate, a`isOpaque, b`tracked, b`propagate, b`isOpaque
      ensures Valid()
      ensures View() == Begin(old(View()), h)
    {
      BeginTwo(View(), h);
      ApplyTarget(a);
      ApplyTarget(b);
    }

    /** The guards of a hook on two objects: nothing opaque, something tracked, and the relation let through. */
    method PassesTwo(a: ProvNode, b: ProvNode, asks: bool, ty: Word, ghost h: Hook) returns (r: bool)
      requires Valid() && Owns(a) && Owns(b) && HookLive(View(), h) && h.objs == [a.id, b.id]
      requires h.asks == if asks then Asked(ty, a.id, b.id) else Nothing
      ensures r == Passes(View(), h)
    {
      WantedTwo(View(), a.id, b.id);
      assert View().nodes[a.id] == a.Value() && View().nodes[b.id] == b.Value();
      if a.isOpaque || b.isOpaque {
        return false;
      }
      if !a.tracked && !b.tracked && !policy.all {
        return false;
      }
      if !asks {
        return true;
      }
      r := ShouldRecordRelation(ty, a, b);
    }

    /** Targets and guards of a hook on two objects. */
    method EnterTwo(a: ProvNode, b: ProvNode, asks: bool, ty: Word, ghost h: Hook) returns (r: bool)
      requires Valid() && Owns(a) && Owns(b) && HookLive(View(), h) && h.objs == [a.id, b.id] && !h.inherits
      requires h.asks == if asks then Asked(ty, a.id, b.id) else Nothing
      modifies a`tracked, a`propagate, a`isOpaque, b`tracked, b`propagate, b`isOpaque
      ensures Valid() && CallsLive(View(), h.calls)
      ensures View() == Begin(old(View()), h) && r == Passes(View(), h)
    {
      ghost var s := View();
      TargetTwo(a, b, h);
      HookLiveAfter(s, View(), h);
      r := PassesTwo(a, b, asks, ty, h);
    }

    method Derives(ty: Word, f: ProvNode, t: ProvNode)
      requires Valid() && Owns(f) && Owns(t) && HookLive(View(), Model.Derives(ty, f.id, t.id))
      modifies this`log, this`trail, this`asked, f, t
      ensures Valid()
      ensures View() == RunHook(old(View()), Model.Derives(ty, f.id, t.id))
    {
      ghost var h := Model.Derives(ty, f.id, t.id);
      var passes := EnterTwo(f, t, true, ty, h);
      if passes {
        DoAllOne(View(), h.calls);
        RecordRelation(ty, f, t);
      }
    }

    /** Records a relation, then links its receiver to the kernel. */
    method RelateAndLink(ty: Word, f: ProvNode, t: ProvNode)
      requires Valid() && Owns(f) && Owns(t)
      requires CallsLive(View(), Linked(ty, f.id, t.id))
      modifies this`log, this`trail, this`asked, machine, f, t
      ensures Valid()
      ensures View() == DoAll(old(View()), Linked(ty, f.id, t.id))
    {
      ghost var s := View();
      RecordRelation(ty, f, t);
      ghost var s1 := View();
      RecordKernelLink(t);
      LinkedMade(s, s1, View(), ty, f.id, t.id);
    }

    method UsesTwo(ty: Word, entity: ProvNode, activity: ProvNode)
      requires Valid() && Owns(entity) && Owns(activity)
      requires HookLive(View(), Model.UsesTwo(ty, entity.id, activity.id))
      modifies this`log, this`trail, this`asked, machine, entity, activity
      ensures Valid()
      ensures View() == RunHook(old(View()), Model.UsesTwo(ty, entity.id, activity.id))
    {
      ghost var h := Model.UsesTwo(ty, entity.id, activity.id);
      var passes := EnterTwo(entity, activity, true, ty, h);
      if passes {
        assert h.calls == Linked(ty, entity.id, activity.id);
        RelateAndLink(ty, entity, activity);
      }
    }

    method LinkBoth(f: ProvNode, t: ProvNode)
      requires Valid() && Owns(f) && Owns(t)
      requires CallsLive(View(), [LinkKernel(f.id), LinkKernel(t.id)])
      modifies this`log, this`trail, this`asked, machine, f, t
      ensures Valid()
      ensures View() == DoAll(old(View()), [LinkKernel(f.id), LinkKernel(t.id)])
    {
      ghost var s := View();
      RecordKernelLink(f);
      ghost var s1 := View();
      RecordKernelLink(t);
      BothMade(s, s1, View(), [LinkKernel(f.id), LinkKernel(t.id)]);
    }

    /** What `informs` records once past its guards. */
    method RecordInforming(ty: Word, f: ProvNode, t: ProvNode, ghost links: seq<Call>)
      requires Valid() && Owns(f) && Owns(t)
      requires links == [LinkKernel(f.id), LinkKernel(t.id)] && CallsLive(View(), links)
      modifies this`log, this`trail, this`asked, machine, f, t
      ensures Valid() && CallsLive(old(View()), links + [Relate(ty, f.id, t.id)])
      ensures View() == DoAll(old(View()), links + [Relate(ty, f.id, t.id)])
    {
      ghost var s := View();
      LinkBoth(f, t);
      ghost var s1 := View();
      RecordRelation(ty, f, t);
      RelationMade(s, s1, View(), links, ty, f.id, t.id);
    }

    method Informs(ty: Word, f: ProvNode, t: ProvNode)
      requires Valid() && Owns(f) && Owns(t)
      requires HookLive(View(), Model.Informs(ty, f.id, t.id))
      modifies this`log, this`trail, this`asked, machine, f, t
      ensures Valid()
      ensures View() == RunHook(old(View()), Model.Informs(ty, f.id, t.id))
    {
      ghost var h := Model.Informs(ty, f.id, t.id);
      var passes := EnterTwo(f, t, true, ty, h);
      if passes {
        ghost var links := [LinkKernel(f.id), LinkKernel(t.id)];
        assert h.calls == links + [Relate(ty, f.id, t.id)];
        assert forall c :: c in links ==> c in h.calls;
        RecordInforming(ty, f, t, links);
      }
    }

    /** What `record_influences_kernel` records once past its guards. */
    method RecordInfluence(ty: Word, entity: ProvNode, activity: ProvNode, ghost calls: seq<Call>)
      requires Valid() && Owns(entity) && Owns(activity)
      requires calls == [Relate(RL_LOAD_FILE, entity.id, activity.id), Relate(ty, activity.id, machine.id)]
      requires CallsLive(View(), calls)
      modifies this`log, this`trail, this`asked, machine, entity, activity
      ensures Valid()
      ensures View() == DoAll(old(View()), calls)
    {
      ghost var s := View();
      RecordRelation(RL_LOAD_FILE, entity, activity);
      ghost var s1 := View();
      RecordRelation(ty, activity, machine);
      BothMade(s, s1, View(), calls);
    }

    method InfluencesKernel(ty: Word, entity: ProvNode, activity: ProvNode)
      requires Valid() && Owns(entity) && Owns(activity)
      requires HookLive(View(), Model.InfluencesKernel(ty, entity.id, activity.id, machine.id))
      modifies this`log, this`trail, this`asked, machine, entity, activity
      ensures Valid()
      ensures View() == RunHook(old(View()), Model.InfluencesKernel(ty, entity.id, activity.id, machine.id))
    {
      ghost var h := Model.InfluencesKernel(ty, entity.id, activity.id, machine.id);
      var passes := EnterTwo(entity, activity, false, ty, h);
      if passes {
        RecordInfluence(ty, entity, activity, h.calls);
      }
    }

    method TargetThree(a: ProvNode, b: ProvNode, c: ProvNode, ghost objs: seq<nat>)
      requires Valid() && Owns(a) && Owns(b) && Owns(c) && objs == [a.id, b.id, c.id]
      modifies a`tracked, a`propagate, a`isOpaque, b`tracked, b`propagate, b`isOpaque, c`tracked, c`propagate,
               c`isOpaque
      ensures Valid() && forall o :: o in objs ==> o in old(View()).nodes
      ensures View() == TargetAll(old(View()), objs)
    {
      TargetAllThree(View(), objs);
      ApplyTarget(a);
      ApplyTarget(b);
      ApplyTarget(c);
    }

    /** The activity takes over its memory's tracking and opacity. */
    method Inherit(mem: ProvNode, activity: ProvNode)
      requires Valid() && Owns(mem) && Owns(activity)
      modifies activity`tracked, activity`isOpaque
      ensures Valid()
      ensures View() == Model.Inherit(old(View()), mem.id, activity.id)
    {
      assert View().nodes[mem.id] == mem.Value() && View().nodes[activity.id] == activity.Value();
      if mem.tracked {
        activity.tracked := true;
      }
      if mem.isOpaque {
        activity.isOpaque := true;
      }
      OneChanged(activity);
    }

    /** The guards of a hook on three objects, asked about the relation from one of them to another. */
    method PassesThree(a: ProvNode, b: ProvNode, c: ProvNode, ty: Word, f: ProvNode, t: ProvNode, ghost h: Hook)
      returns (r: bool)
      requires Valid() && Owns(a) && Owns(b) && Owns(c) && Owns(f) && Owns(t)
      requires HookLive(View(), h) && h.objs == [a.id, b.id, c.id] && h.asks == Asked(ty, f.id, t.id)
      ensures r == Passes(View(), h)
    {
      WantedThree(View(), a.id, b.id, c.id);
      assert View().nodes[a.id] == a.Value() && View().nodes[b.id] == b.Value() && View().nodes[c.id] == c.Value();
      if a.isOpaque || b.isOpaque || c.isOpaque {
        return false;
      }
      if !a.tracked && !b.tracked && !c.tracked && !policy.all {
        return false;
      }
      r := ShouldRecordRelation(ty, f, t);
    }

    /** Targets and guards of `uses`. */
    method EnterUse(ty: Word, entity: ProvNode, activity: ProvNode, mem: ProvNode, ghost h: Hook) returns (r: bool)
      requires Valid() && Owns(entity) && Owns(activity) && Owns(mem) && HookLive(View(), h) && !h.inherits
      requires h.objs == [entity.id, activity.id, mem.id] && h.asks == Asked(ty, entity.id, activity.id)
      modifies live.Values
      ensures Valid() && CallsLive(View(), h.calls)
      ensures View() == Begin(old(View()), h) && r == Passes(View(), h)
    {
      ghost var s := View();
      TargetThree(entity, activity, mem, h.objs);
      HookLiveAfter(s, View(), h);
      r := PassesThree(entity, activity, mem, ty, entity, activity, h);
    }

    /** What `uses` records once past its guards, before the shared mappings. */
    method RecordUse(ty: Word, entity: ProvNode, activity: ProvNode, mem: ProvNode)
      requires Valid() && Owns(entity) && Owns(activity) && Owns(mem)
      requires CallsLive(View(), UseCalls(ty, entity.id, activity.id, mem.id))
      modifies this`log, this`trail, this`asked, live.Values
      ensures Valid()
      ensures View() == DoAll(old(View()), UseCalls(ty, entity.id, activity.id, mem.id))
    {
      ghost var s, linked := View(), Linked(ty, entity.id, activity.id);
      assert forall c :: c in linked ==> c in UseCalls(ty, entity.id, activity.id, mem.id);
      RelateAndLink(ty, entity, activity);
      ghost var s1 := View();
      RecordRelation(RL_PROC_WRITE, activity, mem);
      RelationMade(s, s1, View(), linked, RL_PROC_WRITE, activity.id, mem.id);
    }

    method RecordUseShared(ty: Word, entity: ProvNode, activity: ProvNode, mem: ProvNode, maps: seq<Vma>,
        ghost calls: seq<Call>)
      requires Valid() && Owns(entity) && Owns(activity) && Owns(mem)
      requires forall v :: v in maps && v.file != null ==> Owns(v.file)
      requires calls == Model.Uses(ty, entity.id, activity.id, mem.id, Mappings(maps)).calls && CallsLive(View(), calls)
      modifies this`log, this`trail, this`asked, live.Values
      ensures Valid()
      ensures View() == DoAll(old(View()), calls)
    {
      ghost var s, plain := View(), Mappings(maps);
      ghost var a, b := UseCalls(ty, entity.id, activity.id, mem.id), SharedCalls(mem.id, plain, false);
      UseSplit(s, ty, entity.id, activity.id, mem.id, plain);
      RecordUse(ty, entity, activity, mem);
      ghost var s1 := View();
      LiveAfter(s, s1, b);
      UpdateShared(mem, maps, false);
      SplitMade(s, s1, View(), a, b);
    }

    method Uses(ty: Word, entity: ProvNode, activity: ProvNode, mem: ProvNode, maps: seq<Vma>)
      requires Valid() && Owns(entity) && Owns(activity) && Owns(mem)
      requires forall v :: v in maps && v.file != null ==> Owns(v.file)
      requires HookLive(View(), Model.Uses(ty, entity.id, activity.id, mem.id, Mappings(maps)))
      modifies this`log, this`trail, this`asked, live.Values
      ensures Valid()
      ensures View() == RunHook(old(View()), Model.Uses(ty, entity.id, activity.id, mem.id, Mappings(maps)))
    {
      ghost var h := Model.Uses(ty, entity.id, activity.id, mem.id, Mappings(maps));
      var passes := EnterUse(ty, entity, activity, mem, h);
      if passes {
        RecordUseShared(ty, entity, activity, mem, maps, h.calls);
      }
    }

    method BeginGeneration(mem: ProvNode, activity: ProvNode, entity: ProvNode, ghost h: Hook)
      requires Valid() && Owns(entity) && Owns(activity) && Owns(mem) && HookLive(View(), h) && h.inherits
      requires h.objs == [mem.id, activity.id, entity.id]
      modifies live.Values
      ensures Valid()
      ensures View() == Begin(old(View()), h)
    {
      TargetThree(mem, activity, entity, h.objs);
      Inherit(mem, activity);
    }

    /** Targets, inheritance and guards of `generates`. */
    method EnterGeneration(ty: Word, mem: ProvNode, activity: ProvNode, entity: ProvNode, ghost h: Hook)
      returns (r: bool)
      requires Valid() && Owns(entity) && Owns(activity) && Owns(mem) && HookLive(View(), h) && h.inherits
      requires h.objs == [mem.id, activity.id, entity.id] && h.asks == Asked(ty, activity.id, entity.id)
      modifies live.Values
      ensures Valid() && CallsLive(View(), h.calls)
      ensures View() == Begin(old(View()), h) && r == Passes(View(), h)
    {
      ghost var s := View();
      BeginGeneration(mem, activity, entity, h);
      HookLiveAfter(s, View(), h);
      r := PassesThree(mem, activity, entity, ty, activity, entity, h);
    }

    /** What `generates` records once past its guards, after the shared mappings. */
    method RecordGeneration(ty: Word, mem: ProvNode, activity: ProvNode, entity: ProvNode)
      requires Valid() && Owns(entity) && Owns(activity) && Owns(mem)
      requires CallsLive(View(), GenerationCalls(ty, mem.id, activity.id, entity.id))
      modifies this`log, this`trail, this`asked, live.Values
      ensures Valid()
      ensures View() == DoAll(old(View()), GenerationCalls(ty, mem.id, activity.id, entity.id))
    {
      ghost var s, linked := View(), Linked(RL_PROC_READ, mem.id, activity.id);
      assert forall c :: c in linked ==> c in GenerationCalls(ty, mem.id, activity.id, entity.id);
      RelateAndLink(RL_PROC_READ, mem, activity);
      ghost var s1 := View();
      RecordRelation(ty, activity, entity);
      RelationMade(s, s1, View(), linked, ty, activity.id, entity.id);
    }

    method RecordGenerationShared(ty: Word, mem: ProvNode, activity: ProvNode, entity: ProvNode, maps: seq<Vma>,
        ghost calls: seq<Call>)
      requires Valid() && Owns(entity) && Owns(activity) && Owns(mem)
      requires forall v :: v in maps && v.file != null ==> Owns(v.file)
      requires calls == Model.Generates(ty, mem.id, activity.id, entity.id, Mappings(maps)).calls
               && CallsLive(View(), calls)
      modifies this`log, this`trail, this`asked, live.Values
      ensures Valid()
      ensures View() == DoAll(old(View()), calls)
    {
      ghost var s, plain := View(), Mappings(maps);
      ghost var a, b := SharedCalls(mem.id, plain, true), GenerationCalls(ty, mem.id, activity.id, entity.id);
      GenerationSplit(s, ty, mem.id, activity.id, entity.id, plain);
      UpdateShared(mem, maps, true);
      ghost var s1 := View();
      LiveAfter(s, s1, b);
      RecordGeneration(ty, mem, activity, entity);
      SplitMade(s, s1, View(), a, b);
    }

    method Generates(ty: Word, mem: ProvNode, activity: ProvNode, entity: ProvNode, maps: seq<Vma>)
      requires Valid() && Owns(entity) && Owns(activity) && Owns(mem)
      requires forall v :: v in maps && v.file != null ==> Owns(v.file)
      requires HookLive(View(), Model.Generates(ty, mem.id, activity.id, entity.id, Mappings(maps)))
      modifies this`log, this`trail, this`asked, live.Values
      ensures Valid()
      ensures View() == RunHook(old(View()), Model.Generates(ty, mem.id, activity.id, entity.id, Mappings(maps)))
    {
      ghost var h := Model.Generates(ty, mem.id, activity.id, entity.id, Mappings(maps));
      var passes := EnterGeneration(ty, mem, activity, entity, h);
      if passes {
        RecordGenerationShared(ty, mem, activity, entity, maps, h.calls);
      }
    }
  }
}
