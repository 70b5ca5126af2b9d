/**
 Runs of the recording engine. A run is a sequence of requests, the calls that
 hooks and the configuration files make. Every request is a short sequence of
 primitive operations (module Decomposition), so a property that every primitive keeps
 holds after every run.
 */
module Requests {
  import opened ProvTypes
  import opened Model

  datatype Request =
    | Relating(ty: Word, from: nat, to: nat)
    | Using(ty: Word, entity: nat, activity: nat, mem: nat, maps: seq<Mapping>)
    | UsingTwo(ty: Word, entity: nat, activity: nat)
    | Generating(ty: Word, mem: nat, activity: nat, entity: nat, maps: seq<Mapping>)
    | Deriving(ty: Word, from: nat, to: nat)
    | Informing(ty: Word, from: nat, to: nat)
    | Influencing(ty: Word, entity: nat, activity: nat)
    | Terminating(ty: Word, o: nat)
    | Naming(o: nat, force: bool)
    | Addressing(o: nat)
    | Passing(o: nat, env: bool)              // one argument or environment string
    | Logging(o: nat, propagate: bool)
    | Retyping(o: nat, mode: FileMode)
    | Allocating(kind: Word)
    | Owning(o: nat, owner: Owner)            // user, group, security context, namespaces
    | Configuring(o: nat, setting: Setting, op: bv8)
    | Governing(policy: Policy)               // any change of flags, filters or targets
    | Advancing                               // the epoch
    | Refreshing                              // the machine node

  /** Annotations hang a transient node on an object without versioning it. */
  predicate IsAnnotation(ty: Word) { ty == RL_NAMED || ty == RL_NAMED_PROCESS || ty == RL_LOG }

  predicate IsFlow(ty: Word) { IsRelation(ty) && !FilterUpdateNode(ty) && ty != RL_LOG }

  predicate Distinct(s: State, f: nat, t: nat) { f in s.nodes && t in s.nodes && f != t }

  predicate MappingsAvoid(maps: seq<Mapping>, mem: nat) {
    forall i :: 0 <= i < |maps| && maps[i].file.FileNode? ==> maps[i].file.id != mem
  }

  predicate IsHook(r: Request) {
    r.Using? || r.UsingTwo? || r.Generating? || r.Deriving? || r.Informing? || r.Influencing?
  }

  function HookOf(s: State, r: Request): Hook
    requires IsHook(r)
  {
    match r
    case Using(ty, e, a, m, maps) => Uses(ty, e, a, m, maps)
    case UsingTwo(ty, e, a) => UsesTwo(ty, e, a)
    case Generating(ty, m, a, e, maps) => Generates(ty, m, a, e, maps)
    case Deriving(ty, f, t) => Derives(ty, f, t)
    case Informing(ty, f, t) => Informs(ty, f, t)
    case Influencing(ty, e, a) => InfluencesKernel(ty, e, a, s.machine)
  }

  /** What the callers in the kernel respect: live objects, and no relation of an object to itself. */
  predicate ValidHook(s: State, r: Request)
    requires IsHook(r)
  {
    match r
    case Using(ty, e, a, m, maps) =>
      && IsFlow(ty) && IsUsed(ty) && Distinct(s, e, a) && Distinct(s, a, m) && Distinct(s, s.machine, a)
      && MappingsLive(s, maps) && MappingsAvoid(maps, m)
    case UsingTwo(ty, e, a) => IsFlow(ty) && IsUsed(ty) && Distinct(s, e, a) && Distinct(s, s.machine, a)
    case Generating(ty, m, a, e, maps) =>
      && IsFlow(ty) && IsGenerated(ty) && Distinct(s, a, e) && Distinct(s, m, a) && Distinct(s, s.machine, a)
      && MappingsLive(s, maps) && MappingsAvoid(maps, m)
    case Deriving(ty, f, t) => IsFlow(ty) && IsDerived(ty) && Distinct(s, f, t)
    case Informing(ty, f, t) =>
      IsFlow(ty) && IsInformed(ty) && Distinct(s, f, t) && Distinct(s, s.machine, f) && Distinct(s, s.machine, t)
    case Influencing(ty, e, a) => IsFlow(ty) && IsInfluenced(ty) && Distinct(s, e, a) && Distinct(s, a, s.machine)
  }

  lemma ValidHookLive(s: State, r: Request)
    requires IsHook(r) && ValidHook(s, r)
    ensures HookLive(s, HookOf(s, r))
  {
    match r
    case Using(_, _, _, m, maps) => SharedCallsFor(m, maps, false);
    case Generating(_, m, _, _, maps) => SharedCallsFor(m, maps, true);
    case _ =>
  }

  predicate Valid(s: State, r: Request) {
    match r
    case Relating(ty, f, t) => IsFlow(ty) && Distinct(s, f, t)
    case Terminating(ty, o) => IsClose(ty) && o in s.nodes
    case Naming(o, _) => o in s.nodes && NextId(s) < s.machine
    case Addressing(o) => o in s.nodes && NextId(s) < s.machine
    case Passing(o, _) => o in s.nodes && NextId(s) < s.machine
    case Logging(o, _) => o in s.nodes && NextId(s) < s.machine
    case Retyping(o, _) => o in s.nodes
    case Allocating(_) => NextId(s) < s.machine
    case Owning(o, _) => o in s.nodes
    case Configuring(o, _, _) => o in s.nodes
    case Governing(_) => true
    case Advancing => true
    case Refreshing => s.machine in s.nodes
    case _ => ValidHook(s, r)
  }

  function Perform(s: State, r: Request): State
    requires Valid(s, r)
  {
    match r
    case Relating(ty, f, t) => RecordRelation(s, ty, f, t)
    case Terminating(ty, o) => RecordTerminate(s, ty, o)
    case Naming(o, force) => RecordNodeName(s, o, force)
    case Addressing(o) => RecordAddress(s, o)
    case Passing(o, env) =>
      if env then RecordTransient(s, RL_ENV, ENT_ENV, o) else RecordTransient(s, RL_ARG, ENT_ARG, o)
    case Logging(o, propagate) => RecordLog(s, o, propagate)
    case Retyping(o, mode) => UpdateInodeType(s, o, mode)
    case Allocating(kind) => Alloc(s, kind)
    case Owning(o, owner) => SetOwner(s, o, owner)
    case Configuring(o, setting, op) => Configure(s, o, setting, op)
    case Governing(policy) => s.(policy := policy)
    case Advancing => s.(epoch := s.epoch + 1)
    case Refreshing => Refresh(s)
    case _ => ValidHookLive(s, r); RunHook(s, HookOf(s, r))
  }

  predicate ValidRun(s: State, rs: seq<Request>)
    decreases |rs|
  {
    rs == [] || (Valid(s, rs[0]) && ValidRun(Perform(s, rs[0]), rs[1..]))
  }

  function Run(s: State, rs: seq<Request>): State
    requires ValidRun(s, rs)
    decreases |rs|
  {
    if rs == [] then s else Run(Perform(s, rs[0]), rs[1..])
  }

  /** The engine after boot: no node but the machine's, in epoch 1. */
  function Boot(policy: Policy, machine: nat): State
    requires 0 < machine
  {
    State(policy, 1, 0, machine, map[machine := FreshNode(machine, AGT_MACHINE).(version := 1)], [], [], [])
  }

  // ---------- Primitive operations ----------

  datatype Op =
    | BumpOp(o: nat, ty: Word, kind: Word, mode: FileMode)
    | LinkOp(ty: Word, from: nat, to: nat)
    | AttachOp(ty: Word, src: Node, to: nat)
    | TakeIdOp
    | AllocOp(kind: Word)
    | AdjustOp(o: nat, n: Node)
    | InjectOp(o: nat, bits: set<nat>)
    | PolicyOp(policy: Policy)
    | EpochOp
    | RefreshOp

  /** A change of flags and memory: identity, marks and taint stay. */
  predicate SameCore(n: Node, n': Node) {
    n'.id == n.id && n'.version == n.version && n'.epoch == n.epoch && n'.outgoing == n.outgoing && n'.taint == n.taint
  }

  predicate IsTransient(s: State, src: Node) {
    src == FreshNode(NextId(s), src.kind) || src == Marker(NextId(s), src.kind)
  }

  predicate Legal(s: State, op: Op) {
    match op
    case BumpOp(o, ty, _, _) => o in s.nodes && !IsAnnotation(ty)
    case LinkOp(ty, f, t) => Distinct(s, f, t) && !s.nodes[t].outgoing && !IsAnnotation(ty)
    case AttachOp(ty, src, t) =>
      && t in s.nodes && NextId(s) < s.machine && IsTransient(s, src)
      && (IsAnnotation(ty) || !s.nodes[t].outgoing)
    case TakeIdOp => NextId(s) < s.machine
    case AllocOp(_) => NextId(s) < s.machine
    case AdjustOp(o, n) => o in s.nodes && SameCore(s.nodes[o], n)
    case InjectOp(o, _) => o in s.nodes
    case PolicyOp(_) => true
    case EpochOp => true
    case RefreshOp => s.machine in s.nodes
  }

  function Apply(s: State, op: Op): State
    requires Legal(s, op)
  {
    match op
    case BumpOp(o, ty, kind, mode) => Bump(s, o, ty, kind, mode)
    case LinkOp(ty, f, t) => Link(s, ty, f, t)
    case AttachOp(ty, src, t) => Attach(s, ty, src, t)
    case TakeIdOp => TakeId(s)
    case AllocOp(kind) => Alloc(s, kind)
    case AdjustOp(o, n) => Put(s, o, n)
    case InjectOp(o, bits) => Inject(s, o, bits)
    case PolicyOp(policy) => s.(policy := policy)
    case EpochOp => s.(epoch := s.epoch + 1)
    case RefreshOp => Refresh(s)
  }

  // ---------- W3C PROV kinds ----------

  /** The kinds of node that each W3C PROV category joins, source first. */
  predicate Joins(ty: Word, f: Word, t: Word) {
    && (IsDerived(ty) ==> IsEntity(f) && IsEntity(t))
    && (IsGenerated(ty) ==> IsActivity(f) && IsEntity(t))
    && (IsUsed(ty) ==> IsEntity(f) && IsActivity(t))
    && (IsInformed(ty) ==> IsActivity(f) && IsActivity(t))
    && (IsInfluenced(ty) ==> IsActivity(f) && IsAgent(t))
    && (IsAssociated(ty) ==> IsAgent(f) && IsActivity(t))
  }

  /** Live nodes are tasks or entities; the machine is the one agent. */
  predicate KindAt(s: State, o: nat, kind: Word) {
    if o == s.machine then kind == AGT_MACHINE else kind == ACT_TASK || IsEntity(kind)
  }

  predicate KindsOk(s: State) { forall o :: o in s.nodes ==> KindAt(s, o, s.nodes[o].kind) }

  predicate WellTyped(s: State, op: Op)
    requires Legal(s, op)
  {
    match op
    case BumpOp(o, ty, kind, _) =>
      KindAt(s, o, kind) && (Joins(ty, s.nodes[o].kind, kind) || (o == s.machine && ty == RL_VERSION))
    case LinkOp(ty, f, t) => Joins(ty, s.nodes[f].kind, s.nodes[t].kind)
    case AttachOp(ty, src, t) => Joins(ty, src.kind, s.nodes[t].kind)
    case AllocOp(kind) => kind == ACT_TASK || IsEntity(kind)
    case AdjustOp(o, n) => KindAt(s, o, n.kind)
    case _ => true
  }

  predicate MappingsTyped(s: State, maps: seq<Mapping>)
    requires MappingsLive(s, maps)
  {
    forall i :: 0 <= i < |maps| && maps[i].file.FileNode? ==> IsEntity(s.nodes[maps[i].file.id].kind)
  }

  /** The relation type is of the hook's category, and the objects are of the kinds that the hook is for. */
  predicate TypedHook(s: State, r: Request)
    requires IsHook(r) && ValidHook(s, r)
  {
    match r
    case Using(ty, e, a, m, maps) =>
      && OfCategory(ty, RL_USED) && IsEntity(s.nodes[e].kind) && s.nodes[a].kind == ACT_TASK
      && IsEntity(s.nodes[m].kind) && MappingsTyped(s, maps)
    case UsingTwo(ty, e, a) => OfCategory(ty, RL_USED) && IsEntity(s.nodes[e].kind) && s.nodes[a].kind == ACT_TASK
    case Generating(ty, m, a, e, maps) =>
      && OfCategory(ty, RL_GENERATED) && s.nodes[a].kind == ACT_TASK && IsEntity(s.nodes[e].kind)
      && IsEntity(s.nodes[m].kind) && MappingsTyped(s, maps)
    case Deriving(ty, f, t) => OfCategory(ty, RL_DERIVED) && IsEntity(s.nodes[f].kind) && IsEntity(s.nodes[t].kind)
    case Informing(ty, f, t) =>
      OfCategory(ty, RL_INFORMED) && s.nodes[f].kind == ACT_TASK && s.nodes[t].kind == ACT_TASK
    case Influencing(ty, e, a) =>
      OfCategory(ty, RL_INFLUENCED) && IsEntity(s.nodes[e].kind) && s.nodes[a].kind == ACT_TASK
  }

  predicate TypedRequest(s: State, r: Request)
    requires Valid(s, r)
  {
    match r
    case Relating(ty, f, t) => Joins(ty, s.nodes[f].kind, s.nodes[t].kind)
    case Terminating(ty, o) =>
      if ty == RL_TERMINATE_TASK then s.nodes[o].kind == ACT_TASK else IsEntity(s.nodes[o].kind)
    case Naming(o, _) => o != s.machine
    case Addressing(o) => IsEntity(s.nodes[o].kind)
    case Passing(o, _) => IsEntity(s.nodes[o].kind)
    case Logging(o, _) => s.nodes[o].kind == ACT_TASK
    case Retyping(o, _) => IsEntity(s.nodes[o].kind)
    case Allocating(kind) => kind == ACT_TASK || IsEntity(kind)
    case Owning(_, _) => true
    case Configuring(_, _, _) => true
    case Governing(_) => true
    case Advancing => true
    case Refreshing => true
    case _ => TypedHook(s, r)
  }

  // ---------- Classes of runs ----------

  /**
   What a theorem asks of a run. `Any`: nothing. `Steady`: version relations
   pass the filters, and an object is filtered out always, when it is in
   `hidden`, or never. `Typed`: calls get arguments of the right kind.
   `Single`: nodes are not written twice on purpose, and the machine node is
   refreshed only if it says so. `Calm`: no taint is injected. `Ruled`: the
   policy is this one. `Doubled`: nodes are written with every relation.
   `Thrifty`: nodes are compressed, and the objects that are closed or given
   another type are in `spared`.
   */
  datatype Mode =
    | Any
    | Steady(hidden: set<nat>)
    | Typed
    | Single(refreshes: bool)
    | Calm
    | Ruled(policy: Policy)
    | Doubled
    | Thrifty(spared: set<nat>)

  predicate SteadyState(s: State, hidden: set<nat>) {
    && !FilterRelation(s.policy, RL_VERSION) && !FilterRelation(s.policy, RL_VERSION_TASK)
    && forall o :: o in s.nodes ==> (FilterNode(s.policy, s.nodes[o]) <==> o in hidden)
  }

  predicate Ready(m: Mode, s: State) {
    match m
    case Any => true
    case Steady(hidden) => SteadyState(s, hidden)
    case Typed => KindsOk(s)
    case Single(_) => !s.policy.duplicate
    case Calm => true
    case Ruled(policy) => s.policy == policy
    case Doubled => s.policy.duplicate
    case Thrifty(_) => s.policy.compressNode
  }

  predicate Fits(m: Mode, s: State, r: Request)
    requires Valid(s, r)
  {
    match m
    case Any => true
    case Steady(hidden) =>
      && SteadyState(s, hidden) && SteadyState(Perform(s, r), hidden)
      && (r.Terminating? ==> !FilterRelation(s.policy, r.ty))
    case Typed => TypedRequest(s, r)
    case Single(refreshes) => !s.policy.duplicate && (r.Refreshing? ==> refreshes)
    case Calm => !r.Configuring?
    case Ruled(policy) => s.policy == policy
    case Doubled => s.policy.duplicate
    case Thrifty(spared) => s.policy.compressNode && (r.Terminating? || r.Retyping? ==> r.o in spared)
  }

  predicate FitRun(m: Mode, s: State, rs: seq<Request>)
    requires ValidRun(s, rs)
    decreases |rs|
  {
    rs == [] || (Fits(m, s, rs[0]) && FitRun(m, Perform(s, rs[0]), rs[1..]))
  }

  predicate SteadyOp(s: State, op: Op, hidden: set<nat>)
    requires Legal(s, op)
  {
    match op
    case BumpOp(o, ty, kind, mode) =>
      ShouldRecord(s.policy, ty, s.nodes[o], NextVersion(s.nodes[o], kind, mode)) <==> o !in hidden
    case LinkOp(ty, f, t) => FilterNode(s.policy, s.nodes[t]) <==> t in hidden
    case AttachOp(ty, _, t) => FilterNode(s.policy, s.nodes[t]) <==> t in hidden
    case _ => true
  }

  predicate Good(m: Mode, s: State, op: Op) {
    && Legal(s, op)
    && (m.Steady? ==> SteadyOp(s, op, m.hidden))
    && (m.Typed? ==> WellTyped(s, op))
    && (m.Single? ==> !s.policy.duplicate && (op.RefreshOp? ==> m.refreshes))
    && (m.Calm? ==> !op.InjectOp?)
    && (m.Ruled? ==> s.policy == m.policy)
    && (m.Doubled? ==> s.policy.duplicate)
    && (m.Thrifty? ==> s.policy.compressNode && (op.BumpOp? ==> s.nodes[op.o].outgoing || op.o in m.spared))
  }

  /** A property that every good operation keeps. */
  ghost predicate Closed(m: Mode, P: State -> bool) {
    forall s, op :: P(s) && Good(m, s, op) ==> P(Apply(s, op))
  }

  /** `s'` comes from `s` by good operations: it has every property of `s` that they keep. */
  ghost predicate Steps(m: Mode, s: State, s': State) {
    forall P :: Closed(m, P) && P(s) ==> P(s')
  }
}
