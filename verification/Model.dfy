/**
 The provenance recording engine as a state: the live nodes, the capture
 policy, the epoch and the append-only log of what has been written out.
 The functions here are the specification of the recording methods in
 module Recorders; what the engine promises is proved about them.
 */
module Model {
  import opened ProvTypes
  import opened FilterLists

  /** Whose process or inode a node stands for; only `ApplyTarget` looks at it. */
  datatype Owner = Owner(secid: nat, uid: nat, gid: nat, ns: Namespaces)

  /**
   One provenance node. `taint` is the set of bit positions set in the node's
   Bloom filter, see module Blooms.
   */
  datatype Node = Node(
    id: nat,
    version: nat,
    kind: Word,
    epoch: nat,            // the epoch the node was last written in, 0 for never
    tracked: bool,
    isOpaque: bool,
    propagate: bool,
    outgoing: bool,
    taint: set<nat>,
    memo: Memo)

  /** What the engine keeps about a node besides. */
  datatype Memo = Memo(
    nameEpoch: nat,        // the epoch its name was last written in
    previousId: nat,       // the last relation into the node: its source,
    previousType: Word,    // and its type
    kernelVersion: nat,    // the machine version it was last linked to
    mode: FileMode,            // for an inode
    owner: Owner)

  datatype Policy = Policy(
    enabled: bool,
    all: bool,
    compressNode: bool,
    compressEdge: bool,
    duplicate: bool,
    nodeFilter: Word,
    propagateNodeFilter: Word,
    derivedFilter: Word,
    generatedFilter: Word,
    usedFilter: Word,
    informedFilter: Word,
    propagateDerivedFilter: Word,
    propagateGeneratedFilter: Word,
    propagateUsedFilter: Word,
    propagateInformedFilter: Word,
    nsFilters: seq<Entry<Namespaces>>,
    secctxFilters: seq<Entry<nat>>,
    userFilters: seq<Entry<nat>>,
    groupFilters: seq<Entry<nat>>)

  datatype Ident = Ident(kind: Word, id: nat, version: nat)
  datatype Edge = Edge(ty: Word, snd: Ident, rcv: Ident)

  /** What is written out: nodes, and relations stamped with their epoch. */
  datatype Record = NodeRecord(node: Node) | Relation(edge: Edge, epoch: nat)

  /**
   The history of everything that bears on taint: each relation written, with
   the policy and the two nodes it was written under, and each injection.
   */
  datatype Event = Sent(policy: Policy, ty: Word, from: Node, to: Node) | Injected(id: nat, bits: set<nat>)

  /**
   A relation that was asked for, out of the given version of its source,
   whether or not the filters let it through. Version relations, and repeats
   that edge compression drops, are not asked for.
   */
  datatype Asking = Asking(ty: Word, from: nat, version: nat, to: nat)

  datatype State = State(
    policy: Policy,
    epoch: nat,
    counter: nat,          // the last node id handed out
    machine: nat,          // the id of the machine node
    nodes: map<nat, Node>, // the live nodes, by id
    log: seq<Record>,
    trail: seq<Event>,     // history only: nothing reads it
    asked: seq<Asking>)    // likewise

  function IdentOf(n: Node): Ident { Ident(n.kind, n.id, n.version) }

  // ---------- Filters ----------

  predicate Hit(filter: Word, data: Word) { (filter.bits & data.bits) != 0 }

  predicate NodeFiltered(p: Policy, filter: Word, n: Node) {
    !p.enabled || n.isOpaque || Hit(filter, n.kind)
  }

  predicate FilterNode(p: Policy, n: Node) { NodeFiltered(p, p.nodeFilter, n) }
  predicate FilterPropagateNode(p: Policy, n: Node) { NodeFiltered(p, p.propagateNodeFilter, n) }

  /** Relations whose destination keeps its version. */
  predicate FilterUpdateNode(ty: Word) {
    ty == RL_VERSION_TASK || ty == RL_VERSION || ty == RL_NAMED || ty == RL_NAMED_PROCESS
  }

  predicate FilterRelation(p: Policy, ty: Word) {
    if IsDerived(ty) then Hit(p.derivedFilter, ty)
    else if IsGenerated(ty) then Hit(p.generatedFilter, ty)
    else if IsUsed(ty) then Hit(p.usedFilter, ty)
    else IsInformed(ty) && Hit(p.informedFilter, ty)
  }

  predicate FilterPropagateRelation(p: Policy, ty: Word) {
    if IsDerived(ty) then Hit(p.propagateDerivedFilter, ty)
    else if IsGenerated(ty) then Hit(p.propagateGeneratedFilter, ty)
    else if IsUsed(ty) then Hit(p.propagateUsedFilter, ty)
    else IsInformed(ty) && Hit(p.propagateInformedFilter, ty)
  }

  predicate ShouldRecord(p: Policy, ty: Word, f: Node, t: Node) {
    !FilterRelation(p, ty) && !FilterNode(p, f) && !FilterNode(p, t)
  }

  const SET_TRACKED: bv8 := 0x01
  const SET_OPAQUE: bv8 := 0x02
  const SET_PROPAGATE: bv8 := 0x04
  const SET_TAINT: bv8 := 0x08

  function TargetOp(p: Policy, n: Node): bv8 {
    (if n.kind == ENT_PROC then WhichOp(p.nsFilters, (f: Namespaces) => NsCovers(f, n.memo.owner.ns)) else 0)
    | (if HasOwner(n.kind) then
         WhichOp(p.secctxFilters, (k: nat) => k == n.memo.owner.secid)
         | WhichOp(p.userFilters, (k: nat) => k == n.memo.owner.uid)
         | WhichOp(p.groupFilters, (k: nat) => k == n.memo.owner.gid)
       else 0)
  }

  /** Raises the flags that the capture targets ask for; it never lowers one. */
  function ApplyTarget(p: Policy, n: Node): Node {
    var op := TargetOp(p, n);
    n.(tracked := n.tracked || (op & SET_TRACKED) != 0,
       propagate := n.propagate || (op & SET_PROPAGATE) != 0,
       isOpaque := n.isOpaque || (op & SET_OPAQUE) != 0)
  }

  // ---------- Writing nodes and relations ----------

  predicate IsRecorded(n: Node, epoch: nat) { epoch <= n.epoch }
  predicate IsNameRecorded(n: Node, epoch: nat) { epoch <= n.memo.nameEpoch }

  predicate WritesNode(p: Policy, epoch: nat, n: Node) { !IsRecorded(n, epoch) || p.duplicate }

  function Marked(p: Policy, epoch: nat, n: Node): Node {
    if WritesNode(p, epoch, n) then n.(epoch := epoch) else n
  }

  function NodeLine(p: Policy, epoch: nat, n: Node): seq<Record> {
    if WritesNode(p, epoch, n) then [NodeRecord(n.(epoch := epoch))] else []
  }

  /** Whether writing this relation passes tracking and taint on to `t`. */
  predicate Carries(p: Policy, ty: Word, f: Node, t: Node) {
    && f.propagate && f.tracked
    && !FilterPropagateRelation(p, ty)
    && !FilterPropagateNode(p, t)
  }

  function Flow(p: Policy, ty: Word, f: Node, t: Node): Node {
    if Carries(p, ty, f, t) then t.(tracked := true, propagate := true, taint := t.taint + f.taint) else t
  }

  datatype Written = Written(from: Node, to: Node, log: seq<Record>, trail: seq<Event>)

  /** Writing marks a node and may pass tracking and taint on to it; the rest of it stays. */
  predicate Kept(n: Node, n': Node) {
    n' == n.(epoch := n'.epoch, tracked := n'.tracked, propagate := n'.propagate, taint := n'.taint)
  }

  function WriteRelation(
    p: Policy, epoch: nat, ty: Word, f: Node, t: Node, log: seq<Record>, trail: seq<Event>): (w: Written)
    ensures Kept(f, w.from) && Kept(t, w.to)
  {
    if !ShouldRecord(p, ty, f, t) then Written(f, t, log, trail)
    else
      var f', t' := Marked(p, epoch, f), Marked(p, epoch, t);
      Written(f', Flow(p, ty, f', t'),
              log + NodeLine(p, epoch, f) + NodeLine(p, epoch, t) + [Relation(Edge(ty, IdentOf(f), IdentOf(t)), epoch)],
              trail + [Sent(p, ty, f, t)])
  }

  // ---------- The primitive changes of state ----------

  /** The parts of the state that recording leaves alone. */
  predicate SameFrame(s: State, s': State) {
    && s'.policy == s.policy && s'.epoch == s.epoch && s'.machine == s.machine
    && s'.nodes.Keys == s.nodes.Keys
    && forall o :: o in s.nodes ==> s'.nodes[o].id == s.nodes[o].id
  }

  /** Recording a relation changes neither the kind nor the opacity of a node. */
  predicate Stable(s: State, s': State) {
    && SameFrame(s, s')
    && forall o :: o in s.nodes ==> s'.nodes[o].kind == s.nodes[o].kind && s'.nodes[o].isOpaque == s.nodes[o].isOpaque
  }

  /** Moves an object to its next version and relates the two versions. */
  function Bump(s: State, o: nat, ty: Word, kind: Word, mode: FileMode): (s': State)
    requires o in s.nodes
    ensures SameFrame(s, s')
    ensures kind == s.nodes[o].kind ==> Stable(s, s')
  {
    var old' := s.nodes[o];
    var w := WriteRelation(s.policy, s.epoch, ty, old', NextVersion(old', kind, mode), s.log, s.trail);
    s.(nodes := s.nodes[o := w.to.(outgoing := false)], log := w.log, trail := w.trail)
  }

  function NextVersion(n: Node, kind: Word, mode: FileMode): Node {
    n.(version := n.version + 1, epoch := 0, kind := kind, memo := n.memo.(mode := mode))
  }

  /** Relates the current versions of two live objects. */
  function Link(s: State, ty: Word, f: nat, t: nat): (s': State)
    requires f in s.nodes && t in s.nodes
    ensures Stable(s, s')
  {
    var s1 := SetOutgoing(s, f);
    var to := if f == t then SecondEnd(s.policy, s.epoch, ty, s1.nodes[t]) else s1.nodes[t];
    Store(s1, f, t, WriteRelation(s.policy, s.epoch, ty, s1.nodes[f], to, s.log, s.trail))
    .(asked := s.asked + [Asking(ty, f, s.nodes[f].version, t)])
  }

  /** A node that is both ends of a relation: it has been written as the first end when it is written as the second. */
  function SecondEnd(p: Policy, epoch: nat, ty: Word, n: Node): (n': Node)
    ensures Kept(n, n')
  {
    if ShouldRecord(p, ty, n, n) then Marked(p, epoch, n) else n
  }

  function Store(s: State, f: nat, t: nat, w: Written): (s': State)
    requires f in s.nodes && t in s.nodes && Kept(s.nodes[f], w.from) && Kept(s.nodes[t], w.to)
    ensures Stable(s, s')
  {
    Put(Put(s, f, w.from), t, w.to).(log := w.log, trail := w.trail)
  }

  function SetOutgoing(s: State, o: nat): (s': State)
    requires o in s.nodes
    ensures Stable(s, s')
  {
    Put(s, o, s.nodes[o].(outgoing := true))
  }

  /** Relates a transient node, allocated for this and freed after it, to a live object. */
  function Attach(s: State, ty: Word, src: Node, t: nat): (s': State)
    requires t in s.nodes
    ensures Stable(s, s')
  {
    var w := WriteRelation(s.policy, s.epoch, ty, src, s.nodes[t], s.log, s.trail);
    TakeId(s).(nodes := s.nodes[t := w.to], log := w.log, trail := w.trail,
               asked := s.asked + [Asking(ty, src.id, src.version, t)])
  }

  const NO_MEMO := Memo(0, 0, Word(0), 0, FileMode(0), Owner(0, 0, 0, Namespaces(0, 0, 0, 0, 0, 0)))

  function FreshNode(id: nat, kind: Word): Node {
    Node(id, 0, kind, 0, false, false, false, false, {}, NO_MEMO)
  }

  /** A fresh node that a relation is about to leave. */
  function Marker(id: nat, kind: Word): Node {
    Node(id, 0, kind, 0, false, false, false, true, {}, NO_MEMO)
  }

  /** The id that the next node gets. */
  function NextId(s: State): nat { s.counter + 1 }

  /** Hands out the next node id. */
  function TakeId(s: State): State { s.(counter := NextId(s)) }

  function Alloc(s: State, kind: Word): State {
    var id := NextId(s);
    TakeId(s).(nodes := s.nodes[id := FreshNode(id, kind)])
  }

  /** Forgets that the machine has been written, as happens when the relay becomes ready. */
  function Refresh(s: State): (s': State)
    requires s.machine in s.nodes
    ensures Stable(s, s')
  {
    Put(s, s.machine, s.nodes[s.machine].(epoch := 0))
  }

  /** Stores a changed node back. */
  function Put(s: State, o: nat, n: Node): State { s.(nodes := s.nodes[o := n]) }

  function Inject(s: State, o: nat, bits: set<nat>): State
    requires o in s.nodes
  {
    var n := s.nodes[o];
    Put(s, o, n.(taint := n.taint + bits)).(trail := s.trail + [Injected(o, bits)])
  }

  // ---------- Recording ----------

  predicate UpdatesVersion(p: Policy, ty: Word, n: Node) {
    (n.outgoing || !p.compressNode) && !FilterUpdateNode(ty)
  }

  function VersionType(n: Node): Word { if n.kind == ACT_TASK then RL_VERSION_TASK else RL_VERSION }

  function UpdateVersion(s: State, ty: Word, o: nat): (s': State)
    requires o in s.nodes
    ensures Stable(s, s')
  {
    var n := s.nodes[o];
    if UpdatesVersion(s.policy, ty, n) then Bump(s, o, VersionType(n), n.kind, n.memo.mode) else s
  }

  predicate Repeats(p: Policy, ty: Word, f: nat, t: Node) {
    p.compressEdge && t.memo.previousId == f && t.memo.previousType == ty
  }

  /** Notes the relation about to be recorded, when repeated edges are compressed. */
  function Remember(s: State, ty: Word, f: nat, t: nat): (s': State)
    requires t in s.nodes
    ensures Stable(s, s')
  {
    if !s.policy.compressEdge then s
    else Put(s, t, s.nodes[t].(memo := s.nodes[t].memo.(previousId := f, previousType := ty)))
  }

  function RecordRelation(s: State, ty: Word, f: nat, t: nat): (s': State)
    requires f in s.nodes && t in s.nodes
    ensures Stable(s, s')
  {
    if Repeats(s.policy, ty, f, s.nodes[t]) then s
    else Link(UpdateVersion(Remember(s, ty, f, t), ty, t), ty, f, t)
  }

  /** `RecordRelation` from a freshly allocated transient node. */
  function RecordTransient(s: State, ty: Word, kind: Word, t: nat): (s': State)
    requires t in s.nodes
    ensures Stable(s, s')
  {
    var id := NextId(s);
    if Repeats(s.policy, ty, id, s.nodes[t]) then TakeId(s)
    else Attach(UpdateVersion(Remember(s, ty, id, t), ty, t), ty, Marker(id, kind), t)
  }

  function RecordTerminate(s: State, ty: Word, o: nat): (s': State)
    requires o in s.nodes
    ensures Stable(s, s')
  {
    var n := s.nodes[o];
    if !IsRecorded(n, s.epoch) && !s.policy.all then s
    else if FilterNode(s.policy, n) then s
    else Bump(s, o, ty, n.kind, n.memo.mode)
  }

  function SetNameRecorded(s: State, o: nat): (s': State)
    requires o in s.nodes
    ensures Stable(s, s')
  {
    Put(s, o, s.nodes[o].(memo := s.nodes[o].memo.(nameEpoch := s.epoch)))
  }

  function NameType(n: Node): Word { if n.kind == ACT_TASK then RL_NAMED_PROCESS else RL_NAMED }

  function RecordNodeName(s: State, o: nat, force: bool): (s': State)
    requires o in s.nodes
    ensures Stable(s, s')
  {
    var n := s.nodes[o];
    if n.isOpaque then s
    else if (IsNameRecorded(n, s.epoch) && !force) || !IsRecorded(n, s.epoch) then s
    else SetNameRecorded(RecordTransient(s, NameType(n), ENT_PATH, o), o)
  }

  function RecordAddress(s: State, o: nat): (s': State)
    requires o in s.nodes
    ensures Stable(s, s')
  {
    var n := s.nodes[o];
    if IsNameRecorded(n, s.epoch) || !IsRecorded(n, s.epoch) then s
    else SetNameRecorded(RecordTransient(s, RL_NAMED, ENT_ADDR, o), o)
  }

  function RecordLog(s: State, o: nat, propagate: bool): State
    requires o in s.nodes
  {
    var n := s.nodes[o];
    var s1 := Put(s, o, n.(tracked := true, propagate := n.propagate || propagate));
    Attach(s1, RL_LOG, FreshNode(NextId(s), ENT_STR), o)
  }

  function UpdateInodeType(s: State, o: nat, mode: FileMode): State
    requires o in s.nodes
  {
    var n := s.nodes[o];
    if n.memo.mode.bits != 0 && n.memo.mode != mode && IsRecorded(n, s.epoch)
    then Bump(s, o, RL_VERSION, InodeKind(mode), mode)
    else Put(s, o, n.(kind := InodeKind(mode), memo := n.memo.(mode := mode)))
  }

  /** Refreshes whose process or inode a node stands for. */
  function SetOwner(s: State, o: nat, owner: Owner): (s': State)
    requires o in s.nodes
    ensures Stable(s, s')
  {
    Put(s, o, s.nodes[o].(memo := s.nodes[o].memo.(owner := owner)))
  }

  function SetKernelRecorded(s: State, o: nat): (s': State)
    requires o in s.nodes && s.machine in s.nodes
    ensures Stable(s, s')
  {
    Put(s, o, s.nodes[o].(memo := s.nodes[o].memo.(kernelVersion := s.nodes[s.machine].version)))
  }

  function RecordKernelLink(s: State, o: nat): (s': State)
    requires o in s.nodes && s.machine in s.nodes
    ensures Stable(s, s')
  {
    var n := s.nodes[o];
    if s.nodes[s.machine].version <= n.memo.kernelVersion || !IsRecorded(n, s.epoch) then s
    else SetKernelRecorded(RecordRelation(s, RL_RAN_ON, s.machine, o), o)
  }

  // ---------- Hooks ----------

  /** A recording call made on behalf of a hook. */
  datatype Call = Relate(ty: Word, from: nat, to: nat) | LinkKernel(o: nat)

  predicate CallLive(s: State, c: Call) {
    match c
    case Relate(_, f, t) => f in s.nodes && t in s.nodes
    case LinkKernel(o) => o in s.nodes && s.machine in s.nodes
  }

  predicate CallsLive(s: State, calls: seq<Call>) { forall c :: c in calls ==> CallLive(s, c) }

  function Do(s: State, c: Call): (s': State)
    requires CallLive(s, c)
    ensures Stable(s, s')
  {
    match c
    case Relate(ty, f, t) => RecordRelation(s, ty, f, t)
    case LinkKernel(o) => RecordKernelLink(s, o)
  }

  function DoAll(s: State, calls: seq<Call>): (s': State)
    requires CallsLive(s, calls)
    ensures Stable(s, s')
    decreases |calls|
  {
    if calls == [] then s
    else
      assert calls[|calls| - 1] in calls;
      Do(DoAll(s, calls[..|calls| - 1]), calls[|calls| - 1])
  }

  lemma {:induction false} DoAllSplit(s: State, a: seq<Call>, b: seq<Call>)
    requires CallsLive(s, a + b) && CallsLive(s, a)
    ensures CallsLive(DoAll(s, a), b) && DoAll(s, a + b) == DoAll(DoAll(s, a), b)
    decreases |b|
  {
    var s1 := DoAll(s, a);
    forall c | c in b ensures CallLive(s1, c) { assert c in a + b; }
    if b == [] {
      assert a + b == a;
    } else {
      var init, last := b[..|b| - 1], b[|b| - 1];
      assert (a + b)[..|a + b| - 1] == a + init;
      assert (a + b)[|a + b| - 1] == last;
      DoAllSplit(s, a, init);
    }
  }

  lemma DoAllOne(s: State, calls: seq<Call>)
    requires |calls| == 1 && CallsLive(s, calls)
    ensures calls[0] in calls && DoAll(s, calls) == Do(s, calls[0])
  {
    assert calls[..0] == [];
    assert DoAll(s, calls[..0]) == s;
  }

  lemma DoAllTwo(s: State, calls: seq<Call>)
    requires |calls| == 2 && CallsLive(s, calls)
    ensures calls[0] in calls && calls[1] in calls && DoAll(s, calls) == Do(Do(s, calls[0]), calls[1])
  {
    assert calls[..1][0] in calls;
    DoAllOne(s, calls[..1]);
  }

  lemma DoAllThree(s: State, calls: seq<Call>)
    requires |calls| == 3 && CallsLive(s, calls)
    ensures calls[0] in calls && calls[1] in calls && calls[2] in calls
    ensures DoAll(s, calls) == Do(Do(Do(s, calls[0]), calls[1]), calls[2])
  {
    assert calls[..2][0] in calls && calls[..2][1] in calls;
    DoAllTwo(s, calls[..2]);
  }

  /** Applies the capture targets to each of the objects. */
  function TargetAll(s: State, objs: seq<nat>): (s': State)
    requires forall o :: o in objs ==> o in s.nodes
    ensures SameFrame(s, s')
    decreases |objs|
  {
    if objs == [] then s
    else
      assert objs[|objs| - 1] in objs;
      Target(TargetAll(s, objs[..|objs| - 1]), objs[|objs| - 1])
  }

  function Target(s: State, o: nat): (s': State)
    requires o in s.nodes
    ensures SameFrame(s, s')
  {
    Put(s, o, ApplyTarget(s.policy, s.nodes[o]))
  }

  /** The common guard: nothing opaque, and something tracked unless everything is captured. */
  predicate Wanted(s: State, objs: seq<nat>)
    requires forall o :: o in objs ==> o in s.nodes
  {
    && (forall o :: o in objs ==> !s.nodes[o].isOpaque)
    && (s.policy.all || exists o :: o in objs && s.nodes[o].tracked)
  }

  /** One mapping of the current process; `file` is the node of the mapped file. */
  datatype Mapping = Mapping(file: FileNode, read: bool, write: bool, exec: bool, mayShare: bool)
  datatype FileNode = NoNode | FileNode(id: nat)

  predicate SharedForRead(m: Mapping) { m.file.FileNode? && (m.read || m.exec) && m.mayShare }
  predicate SharedForWrite(m: Mapping) { m.file.FileNode? && m.write && m.mayShare }

  predicate MappingsLive(s: State, maps: seq<Mapping>) {
    forall i :: 0 <= i < |maps| && maps[i].file.FileNode? ==> maps[i].file.id in s.nodes
  }

  function SharedCall(mem: nat, m: Mapping, read: bool): seq<Call> {
    if read then (if SharedForRead(m) then [Relate(RL_SH_READ, m.file.id, mem)] else [])
    else (if SharedForWrite(m) then [Relate(RL_SH_WRITE, mem, m.file.id)] else [])
  }

  /** The relations with every shared mapping of the process, in the order of its mappings. */
  function SharedCalls(mem: nat, maps: seq<Mapping>, read: bool): seq<Call>
    decreases |maps|
  {
    if maps == [] then [] else SharedCalls(mem, maps[..|maps| - 1], read) + SharedCall(mem, maps[|maps| - 1], read)
  }

  /** Every shared call is for some mapping, and every shared mapping has its call. */
  lemma {:induction false} SharedCallsFor(mem: nat, maps: seq<Mapping>, read: bool)
    ensures forall c :: c in SharedCalls(mem, maps, read) <==>
            exists i :: 0 <= i < |maps| && c in SharedCall(mem, maps[i], read)
    decreases |maps|
  {
    if maps != [] {
      var init, last := maps[..|maps| - 1], maps[|maps| - 1];
      SharedCallsFor(mem, init, read);
      forall c ensures c in SharedCalls(mem, maps, read) <==>
          exists i :: 0 <= i < |maps| && c in SharedCall(mem, maps[i], read) {
        if c in SharedCalls(mem, init, read) {
          var i :| 0 <= i < |init| && c in SharedCall(mem, init[i], read);
          assert c in SharedCall(mem, maps[i], read);
        }
        if i :| 0 <= i < |maps| && c in SharedCall(mem, maps[i], read) {
          if i < |init| { assert c in SharedCall(mem, init[i], read); }
        }
      }
    }
  }

  /** The activity takes over its memory's tracking and opacity. */
  function Inherit(s: State, mem: nat, activity: nat): (s': State)
    requires mem in s.nodes && activity in s.nodes
    ensures SameFrame(s, s')
  {
    var m, a := s.nodes[mem], s.nodes[activity];
    Put(s, activity, a.(tracked := a.tracked || m.tracked, isOpaque := a.isOpaque || m.isOpaque))
  }

  /**
   A hook: the objects it concerns, whether the second of them inherits from
   the first, the relation its filters are asked about, and the calls it makes
   when it passes its guards.
   */
  datatype Hook = Hook(objs: seq<nat>, inherits: bool, asks: Asked, calls: seq<Call>)
  datatype Asked = Nothing | Asked(ty: Word, from: nat, to: nat)

  predicate HookLive(s: State, h: Hook) {
    && (forall o :: o in h.objs ==> o in s.nodes)
    && (h.inherits ==> |h.objs| > 1)
    && (h.asks.Asked? ==> h.asks.from in s.nodes && h.asks.to in s.nodes)
    && CallsLive(s, h.calls)
  }

  function Begin(s: State, h: Hook): (s': State)
    requires HookLive(s, h)
    ensures SameFrame(s, s')
  {
    var s1 := TargetAll(s, h.objs);
    if h.inherits then Inherit(s1, h.objs[0], h.objs[1]) else s1
  }

  /** Whether the hook goes on to record, seen after `Begin`. */
  predicate Passes(s: State, h: Hook)
    requires HookLive(s, h)
  {
    Wanted(s, h.objs) && (h.asks.Asked? ==> ShouldRecord(s.policy, h.asks.ty, s.nodes[h.asks.from], s.nodes[h.asks.to]))
  }

  function RunHook(s: State, h: Hook): (s': State)
    requires HookLive(s, h)
    ensures SameFrame(s, s')
  {
    var s1 := Begin(s, h);
    if Passes(s1, h) then DoAll(s1, h.calls) else s1
  }

  function Uses(ty: Word, entity: nat, activity: nat, mem: nat, maps: seq<Mapping>): Hook {
    Hook([entity, activity, mem], false, Asked(ty, entity, activity),
         [Relate(ty, entity, activity), LinkKernel(activity), Relate(RL_PROC_WRITE, activity, mem)]
         + SharedCalls(mem, maps, false))
  }

  function UsesTwo(ty: Word, entity: nat, activity: nat): Hook {
    Hook([entity, activity], false, Asked(ty, entity, activity), [Relate(ty, entity, activity), LinkKernel(activity)])
  }

  function Generates(ty: Word, mem: nat, activity: nat, entity: nat, maps: seq<Mapping>): Hook {
    Hook([mem, activity, entity], true, Asked(ty, activity, entity),
         SharedCalls(mem, maps, true)
         + [Relate(RL_PROC_READ, mem, activity), LinkKernel(activity), Relate(ty, activity, entity)])
  }

  function Derives(ty: Word, f: nat, t: nat): Hook {
    Hook([f, t], false, Asked(ty, f, t), [Relate(ty, f, t)])
  }

  function Informs(ty: Word, f: nat, t: nat): Hook {
    Hook([f, t], false, Asked(ty, f, t), [LinkKernel(f), LinkKernel(t), Relate(ty, f, t)])
  }

  /** Loading something into the kernel; `machine` is the machine node. */
  function InfluencesKernel(ty: Word, entity: nat, activity: nat, machine: nat): Hook {
    Hook([entity, activity], false, Nothing, [Relate(RL_LOAD_FILE, entity, activity), Relate(ty, activity, machine)])
  }

  /** What user space asks of one process node: which flags to change, to what. */
  datatype Setting = Setting(tracked: bool, isOpaque: bool, propagate: bool, taint: set<nat>)

  function Configure(s: State, o: nat, setting: Setting, op: bv8): State
    requires o in s.nodes
  {
    var n := s.nodes[o];
    var n' := n.(
      tracked := if (op & SET_TRACKED) != 0 then setting.tracked else n.tracked,
      isOpaque := if (op & SET_OPAQUE) != 0 then setting.isOpaque else n.isOpaque,
      propagate := if (op & SET_PROPAGATE) != 0 then setting.propagate else n.propagate);
    var s1 := Put(s, o, n');
    if (op & SET_TAINT) != 0 then Inject(s1, o, setting.taint) else s1
  }
}
