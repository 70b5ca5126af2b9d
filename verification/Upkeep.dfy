/**
 What happens to one object outside the hooks: it is named, annotated, closed,
 given another type or configured. Also, what deliberate duplication writes.
 */
module Upkeep {
  import opened ProvTypes
  import opened Model
  import opened Requests
  import opened Decomposition
  import opened Admission

  // ---------- Names and annotations ----------

  /** The log ends with a relation from a node of the given kind, made for it, to the current version of `o`. */
  predicate EndsWith(s: State, ty: Word, kind: Word, id: nat, o: nat)
    requires o in s.nodes
  {
    s.log != [] && s.log[|s.log| - 1] == Relation(Edge(ty, Ident(kind, id, 0), IdentOf(s.nodes[o])), s.epoch)
  }

  /** A node with this kind, and no flags, passes the node filter. */
  predicate KindVisible(p: Policy, kind: Word) { p.enabled && Apart(p.nodeFilter, kind) }

  lemma AttachWrites(s: State, s': State, ty: Word, src: Node, o: nat)
    requires o in s.nodes && !src.isOpaque && src.version == 0 && s' == Attach(s, ty, src, o)
    ensures s'.asked == s.asked + [Asking(ty, src.id, 0, o)] && s'.counter == s.counter + 1
    ensures s'.nodes[o].version == s.nodes[o].version && s'.nodes[o].outgoing == s.nodes[o].outgoing
    ensures s'.nodes[o].memo == s.nodes[o].memo
    ensures forall x :: x in s.nodes && x != o ==> s'.nodes[x] == s.nodes[x]
    ensures if Admits(RecordBars(s.policy), ty) && KindVisible(s.policy, src.kind) && Visible(s.policy, s.nodes[o])
            then EndsWith(s', ty, src.kind, src.id, o) else s'.log == s.log
  {
    FiltersDecide(s.policy, ty, src, s.nodes[o]);
  }

  /** Types of relation that leave their destination at its version. */
  const STAYING: set<Word> := {RL_NAMED, RL_NAMED_PROCESS, RL_VERSION, RL_VERSION_TASK}

  predicate Moves(s: State, ty: Word, n: Node) { (n.outgoing || !s.policy.compressNode) && ty !in STAYING }

  lemma Updated(s: State, s1: State, ty: Word, o: nat)
    requires o in s.nodes && s1 == UpdateVersion(s, ty, o)
    ensures s1.asked == s.asked && s1.counter == s.counter && OnlyVersions(s.log, s1.log)
    ensures s1.nodes[o].memo == s.nodes[o].memo
    ensures s1.nodes[o].version == s.nodes[o].version + if Moves(s, ty, s.nodes[o]) then 1 else 0
  {
  }

  lemma Remembered(s: State, s0: State, ty: Word, id: nat, o: nat)
    requires o in s.nodes && s0 == Remember(s, ty, id, o)
    ensures s0.asked == s.asked && s0.counter == s.counter && s0.log == s.log
    ensures s0.nodes[o].version == s.nodes[o].version && s0.nodes[o].outgoing == s.nodes[o].outgoing
    ensures s0.nodes[o].memo.nameEpoch == s.nodes[o].memo.nameEpoch
  {
  }

  lemma PreparedFor(s: State, s1: State, ty: Word, id: nat, o: nat)
    requires o in s.nodes && s1 == UpdateVersion(Remember(s, ty, id, o), ty, o)
    ensures s1.asked == s.asked && s1.counter == s.counter && OnlyVersions(s.log, s1.log)
    ensures s1.nodes[o].memo.nameEpoch == s.nodes[o].memo.nameEpoch
    ensures s1.nodes[o].version == s.nodes[o].version + if Moves(s, ty, s.nodes[o]) then 1 else 0
  {
    var s0 := Remember(s, ty, id, o);
    Remembered(s, s0, ty, id, o);
    Updated(s0, s1, ty, o);
  }

  /** The repeat test cannot hold of a node that is new. */
  predicate Unrepeated(s: State, o: nat)
    requires o in s.nodes
  {
    !s.policy.compressEdge || s.nodes[o].memo.previousId <= s.counter
  }

  /** What a relation of type `ty` from a node made for it, with the next id and of the given kind, does. */
  predicate Annotated(s: State, s': State, ty: Word, kind: Word, o: nat)
    requires o in s.nodes && o in s'.nodes
  {
    var id := NextId(s);
    && s'.asked == s.asked + [Asking(ty, id, 0, o)] && s'.counter == id
    && if Admits(RecordBars(s.policy), ty) && KindVisible(s.policy, kind) && Visible(s.policy, s.nodes[o])
       then EndsWith(s', ty, kind, id, o) else OnlyVersions(s.log, s'.log)
  }

  /**
   A relation from a node made for it takes the next id and is asked for once; it
   is written if the filters of its category, of the node's kind and of the object
   let it through. Its object moves on as for any other relation, unless it is a
   name.
   */
  lemma TransientIsAsked(s: State, ty: Word, kind: Word, o: nat)
    requires o in s.nodes && Unrepeated(s, o)
    ensures var s', n := RecordTransient(s, ty, kind, o), s.nodes[o];
            && Annotated(s, s', ty, kind, o) && s'.nodes[o].memo.nameEpoch == n.memo.nameEpoch
            && s'.nodes[o].version == n.version + if Moves(s, ty, n) then 1 else 0
  {
    var id := NextId(s);
    var s1 := UpdateVersion(Remember(s, ty, id, o), ty, o);
    PreparedFor(s, s1, ty, id, o);
    AttachWrites(s1, Attach(s1, ty, Marker(id, kind), o), ty, Marker(id, kind), o);
  }

  lemma NamedBy(s: State, ty: Word, kind: Word, o: nat)
    requires o in s.nodes && Unrepeated(s, o) && (ty == RL_NAMED || ty == RL_NAMED_PROCESS)
    ensures var s' := SetNameRecorded(RecordTransient(s, ty, kind, o), o);
            && Annotated(s, s', ty, kind, o)
            && s'.nodes[o].memo.nameEpoch == s.epoch && s'.nodes[o].version == s.nodes[o].version
  {
    TransientIsAsked(s, ty, kind, o);
  }

  /** An object that is not opaque and is recorded is named, unless that was done in this epoch and is not forced. */
  lemma NamedOnce(s: State, o: nat, force: bool)
    requires o in s.nodes && Unrepeated(s, o)
    ensures var s', n := RecordNodeName(s, o, force), s.nodes[o];
            if !n.isOpaque && s.epoch <= n.epoch && (force || n.memo.nameEpoch < s.epoch) then
              && Annotated(s, s', if n.kind == ACT_TASK then RL_NAMED_PROCESS else RL_NAMED, ENT_PATH, o)
              && s'.nodes[o].memo.nameEpoch == s.epoch && s'.nodes[o].version == n.version
            else s' == s
  {
    var n := s.nodes[o];
    if !n.isOpaque && s.epoch <= n.epoch && (force || n.memo.nameEpoch < s.epoch) {
      NamedBy(s, NameType(n), ENT_PATH, o);
    }
  }

  /** An object that is recorded is given its address, unless it has been named in this epoch. */
  lemma AddressedOnce(s: State, o: nat)
    requires o in s.nodes && Unrepeated(s, o)
    ensures var s', n := RecordAddress(s, o), s.nodes[o];
            if s.epoch <= n.epoch && n.memo.nameEpoch < s.epoch then
              && Annotated(s, s', RL_NAMED, ENT_ADDR, o)
              && s'.nodes[o].memo.nameEpoch == s.epoch && s'.nodes[o].version == n.version
            else s' == s
  {
    if s.epoch <= s.nodes[o].epoch && s.nodes[o].memo.nameEpoch < s.epoch { NamedBy(s, RL_NAMED, ENT_ADDR, o); }
  }

  /** A log line makes its process tracked, and propagating on request, and leaves it at its version. */
  lemma LoggedLine(s: State, o: nat, propagate: bool)
    requires o in s.nodes
    ensures var s', n := RecordLog(s, o, propagate), s.nodes[o];
            && Annotated(s, s', RL_LOG, ENT_STR, o) && s'.nodes[o].version == n.version
            && s'.nodes[o].tracked && s'.nodes[o].propagate == (n.propagate || propagate)
  {
    var n := s.nodes[o];
    var s1, src := Put(s, o, n.(tracked := true, propagate := n.propagate || propagate)), FreshNode(NextId(s), ENT_STR);
    AttachWrites(s1, Attach(s1, RL_LOG, src, o), RL_LOG, src, o);
    FlowDecides(s.policy, RL_LOG, Marked(s.policy, s.epoch, src), Marked(s.policy, s.epoch, s1.nodes[o]));
  }

  /** An argument and an environment string are asked for as what they are. */
  lemma PassedAsAsked(s: State, o: nat, env: bool)
    requires o in s.nodes && Unrepeated(s, o) && Valid(s, Passing(o, env))
    ensures var s', n := Perform(s, Passing(o, env)), s.nodes[o];
            && (env ==> Annotated(s, s', RL_ENV, ENT_ENV, o)) && (!env ==> Annotated(s, s', RL_ARG, ENT_ARG, o))
            && s'.nodes[o].version == n.version + if n.outgoing || !s.policy.compressNode then 1 else 0
  {
    if env {
      TransientIsAsked(s, RL_ENV, ENT_ENV, o);
    } else {
      TransientIsAsked(s, RL_ARG, ENT_ARG, o);
    }
  }

  // ---------- Versions by other means ----------

  lemma BumpWrites(s: State, s': State, o: nat, ty: Word, kind: Word, mode: FileMode)
    requires o in s.nodes && s' == Bump(s, o, ty, kind, mode)
    ensures var n, n' := s.nodes[o], s'.nodes[o];
            && n'.version == n.version + 1 && !n'.outgoing && n'.kind == kind && n'.memo == n.memo.(mode := mode)
            && n'.isOpaque == n.isOpaque
            && if Admits(RecordBars(s.policy), ty) && Visible(s.policy, n) && Visible(s.policy, n.(kind := kind)) then
                 s'.log != [] && s'.log[|s'.log| - 1] == Relation(Edge(ty, IdentOf(n), IdentOf(n')), s.epoch)
               else s'.log == s.log
    ensures forall x :: x in s.nodes && x != o ==> s'.nodes[x] == s.nodes[x]
  {
    FiltersDecide(s.policy, ty, s.nodes[o], NextVersion(s.nodes[o], kind, mode));
  }

  /**
   An object that is recorded, or any when all is captured, is closed unless the
   filters hide it: it gets a last version, related to the one before.
   */
  lemma ClosedOnce(s: State, ty: Word, o: nat)
    requires o in s.nodes
    ensures var s', n := RecordTerminate(s, ty, o), s.nodes[o];
            if (s.epoch <= n.epoch || s.policy.all) && Visible(s.policy, n) then
              && s'.nodes[o].version == n.version + 1 && !s'.nodes[o].outgoing && s'.nodes[o].kind == n.kind
              && (Admits(RecordBars(s.policy), ty) ==>
                    && s'.log != []
                    && s'.log[|s'.log| - 1] == Relation(Edge(ty, IdentOf(n), IdentOf(s'.nodes[o])), s.epoch))
            else s' == s
  {
    var n := s.nodes[o];
    EndsDecide(s.policy, n);
    if (s.epoch <= n.epoch || s.policy.all) && Visible(s.policy, n) {
      BumpWrites(s, Bump(s, o, ty, n.kind, n.memo.mode), o, ty, n.kind, n.memo.mode);
    }
  }

  /** The kind of an inode, by the file type in its mode. */
  predicate KindOfFormat(format: bv16, kind: Word) {
    && (kind == ENT_INODE_PIPE <==> format == 0x1000)
    && (kind == ENT_INODE_CHAR <==> format == 0x2000)
    && (kind == ENT_INODE_DIRECTORY <==> format == 0x4000)
    && (kind == ENT_INODE_BLOCK <==> format == 0x6000)
    && (kind == ENT_INODE_FILE <==> format == 0x8000)
    && (kind == ENT_INODE_LINK <==> format == 0xA000)
    && (kind == ENT_INODE_SOCKET <==> format == 0xC000)
    && IsInode(kind)
  }

  lemma FormatDecides(mode: FileMode)
    ensures KindOfFormat(mode.bits & 0xF000, InodeKind(mode))
  {
  }

  /**
   An inode has the kind and the mode that it was last given. It moves to a new
   version for that only if it is recorded and had another mode before.
   */
  lemma RetypedByMode(s: State, o: nat, mode: FileMode)
    requires o in s.nodes
    ensures var n, n' := s.nodes[o], UpdateInodeType(s, o, mode).nodes[o];
            var moves := n.memo.mode != FileMode(0) && n.memo.mode != mode && s.epoch <= n.epoch;
            && KindOfFormat(mode.bits & 0xF000, n'.kind) && n'.memo == n.memo.(mode := mode)
            && n'.version == n.version + (if moves then 1 else 0)
            && n'.outgoing == (!moves && n.outgoing)
  {
    FormatDecides(mode);
    BumpWrites(s, Bump(s, o, RL_VERSION, InodeKind(mode), mode), o, RL_VERSION, InodeKind(mode), mode);
  }

  // ---------- Settings ----------

  /** Each flag is set to what is asked if its bit is given, and stays else; taint is only ever added. */
  lemma ConfiguredAsAsked(s: State, o: nat, setting: Setting, op: bv8)
    requires o in s.nodes
    ensures var n, s' := s.nodes[o], Configure(s, o, setting, op);
            && s'.nodes[o] == n.(
                 tracked := if op & 0x01 != 0 then setting.tracked else n.tracked,
                 isOpaque := if op & 0x02 != 0 then setting.isOpaque else n.isOpaque,
                 propagate := if op & 0x04 != 0 then setting.propagate else n.propagate,
                 taint := if op & 0x08 != 0 then n.taint + setting.taint else n.taint)
            && s'.log == s.log && forall x :: x in s.nodes && x != o ==> s'.nodes[x] == s.nodes[x]
  {
  }

  /** Refreshing whose process or inode a node stands for changes that, and nothing else. */
  lemma OwnerRefreshed(s: State, o: nat, owner: Owner)
    requires o in s.nodes
    ensures var n, s' := s.nodes[o], SetOwner(s, o, owner);
            && s'.nodes[o].memo.owner == owner && s'.nodes[o] == n.(memo := n.memo.(owner := owner))
            && s' == s.(nodes := s'.nodes) && forall x :: x in s.nodes && x != o ==> s'.nodes[x] == s.nodes[x]
  {
  }

  /** A node that nothing has been said of. */
  predicate Blank(n: Node, id: nat, kind: Word) {
    && n.id == id && n.version == 0 && n.kind == kind && n.epoch == 0 && n.taint == {}
    && !n.tracked && !n.isOpaque && !n.propagate && !n.outgoing
  }

  /** A new object has the next id and is blank; no other changes. */
  lemma AllocatedBlank(s: State, kind: Word)
    ensures var s', id := Alloc(s, kind), s.counter + 1;
            && id in s'.nodes && s'.counter == id && Blank(s'.nodes[id], id, kind)
            && forall x :: x in s.nodes && x != id ==> x in s'.nodes && s'.nodes[x] == s.nodes[x]
  {
  }

  // ---------- How often a node is written ----------

  /** A relation of an object to itself writes its node once at most, and twice under deliberate duplication. */
  lemma SelfRelationWrites(s: State, ty: Word, o: nat)
    requires o in s.nodes
    ensures var n, s' := s.nodes[o], Link(s, ty, o, o);
            |s'.log| == |s.log| +
            if !Admitted(s.policy, ty, n, n) then 0
            else if s.policy.duplicate then 3 else if n.epoch < s.epoch then 2 else 1
  {
    var n := s.nodes[o].(outgoing := true);
    FiltersDecide(s.policy, ty, n, n);
    FiltersDecide(s.policy, ty, n, Marked(s.policy, s.epoch, n));
  }

  /** The record is a node record of this version, written in this epoch. */
  predicate IsOf(r: Record, i: Ident, epoch: nat) { r.NodeRecord? && IdentOf(r.node) == i && r.node.epoch == epoch }

  /** Record `i`, if a relation, comes right after node records of both its ends. */
  predicate Accompanied(log: seq<Record>, i: nat)
    requires i < |log|
  {
    log[i].Relation? ==>
      && i >= 2
      && IsOf(log[i - 2], log[i].edge.snd, log[i].epoch)
      && IsOf(log[i - 1], log[i].edge.rcv, log[i].epoch)
  }

  predicate AllAccompanied(log: seq<Record>) { forall i :: 0 <= i < |log| ==> Accompanied(log, i) }

  lemma WriteAccompanied(p: Policy, epoch: nat, ty: Word, f: Node, t: Node, log: seq<Record>, trail: seq<Event>)
    requires AllAccompanied(log) && p.duplicate
    ensures AllAccompanied(WriteRelation(p, epoch, ty, f, t, log, trail).log)
  {
    var log' := WriteRelation(p, epoch, ty, f, t, log, trail).log;
    forall i | 0 <= i < |log'| ensures Accompanied(log', i) {
      if i < |log| { assert Accompanied(log, i); }
    }
  }

  lemma AccompaniedApply(s: State, op: Op)
    requires AllAccompanied(s.log) && Good(Doubled, s, op)
    ensures AllAccompanied(Apply(s, op).log)
  {
    match op
    case BumpOp(o, ty, kind, mode) =>
      WriteAccompanied(s.policy, s.epoch, ty, s.nodes[o], NextVersion(s.nodes[o], kind, mode), s.log, s.trail);
    case LinkOp(ty, f, t) =>
      WriteAccompanied(s.policy, s.epoch, ty, s.nodes[f].(outgoing := true), s.nodes[t], s.log, s.trail);
    case AttachOp(ty, src, t) => WriteAccompanied(s.policy, s.epoch, ty, src, s.nodes[t], s.log, s.trail);
    case _ =>
  }

  lemma AccompaniedSteps(s: State, s': State)
    requires AllAccompanied(s.log) && Steps(Doubled, s, s')
    ensures AllAccompanied(s'.log)
  {
    var P := (x: State) => AllAccompanied(x.log);
    forall x, op | P(x) && Good(Doubled, x, op) ensures P(Apply(x, op)) { AccompaniedApply(x, op); }
    assert Closed(Doubled, P);
  }

  /** While nodes are written with every relation, each relation comes right after the records of its two ends. */
  lemma EndsAccompanyRelations(policy: Policy, machine: nat, rs: seq<Request>)
    requires 0 < machine && ValidRun(Boot(policy, machine), rs) && FitRun(Doubled, Boot(policy, machine), rs)
    ensures AllAccompanied(Run(Boot(policy, machine), rs).log)
  {
    var s := Boot(policy, machine);
    RunSteps(Doubled, s, rs);
    AccompaniedSteps(s, Run(s, rs));
  }
}
