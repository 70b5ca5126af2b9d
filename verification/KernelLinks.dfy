/**
 Links to the machine. An object that is acted on comes to know of the current
 version of the machine, and a link to it is recorded unless it repeats the
 object's last relation or is filtered out. Over a whole run, no object is
 linked to the same version of the machine twice.
 */
module KernelLinks {
  import opened ProvTypes
  import opened Model
  import opened Requests
  import opened Views
  import opened Decomposition
  import opened NodeCompression
  import opened Causality

  /** The links of a log, in the order they were written. */
  function Links(log: seq<Record>): seq<Edge> {
    if log == [] then [] else Links(log[..|log| - 1]) + LinkLine(log[|log| - 1])
  }

  function LinkLine(r: Record): seq<Edge> { if r.Relation? && r.edge.ty == RL_RAN_ON then [r.edge] else [] }

  lemma LinksSnoc(log: seq<Record>, r: Record)
    ensures Links(log + [r]) == Links(log) + LinkLine(r)
  {
    assert (log + [r])[..|log|] == log;
  }

  lemma LinksNodeLine(p: Policy, epoch: nat, n: Node, log: seq<Record>)
    ensures Links(log + NodeLine(p, epoch, n)) == Links(log)
  {
    if WritesNode(p, epoch, n) {
      LinksSnoc(log, NodeRecord(n.(epoch := epoch)));
    } else {
      assert log + [] == log;
    }
  }

  /** What writing a relation adds to the links. */
  function NewLink(p: Policy, ty: Word, f: Node, t: Node): seq<Edge> {
    if ty == RL_RAN_ON && ShouldRecord(p, ty, f, t) then [Edge(ty, IdentOf(f), IdentOf(t))] else []
  }

  lemma WriteLinks(p: Policy, epoch: nat, ty: Word, f: Node, t: Node, log: seq<Record>, trail: seq<Event>)
    ensures Links(WriteRelation(p, epoch, ty, f, t, log, trail).log) == Links(log) + NewLink(p, ty, f, t)
  {
    if ShouldRecord(p, ty, f, t) {
      var a, b := NodeLine(p, epoch, f), NodeLine(p, epoch, t);
      LinksNodeLine(p, epoch, f, log);
      LinksNodeLine(p, epoch, t, log + a);
      LinksSnoc(log + a + b, Relation(Edge(ty, IdentOf(f), IdentOf(t)), epoch));
    }
  }

  // ---------- Steps that link nothing ----------

  /** Nothing was linked, and no object forgot or learned of a version of the machine. */
  predicate Quiet(s: State, s': State) {
    && s'.machine == s.machine && Links(s'.log) == Links(s.log)
    && forall o :: o in s.nodes ==> o in s'.nodes && s'.nodes[o].memo.kernelVersion == s.nodes[o].memo.kernelVersion
  }

  lemma QuietTrans(s: State, s1: State, s2: State)
    requires Quiet(s, s1) && Quiet(s1, s2)
    ensures Quiet(s, s2)
  {
  }

  lemma BumpQuiet(s: State, o: nat, ty: Word, kind: Word, mode: FileMode)
    requires o in s.nodes && ty != RL_RAN_ON
    ensures Quiet(s, Bump(s, o, ty, kind, mode))
  {
    WriteLinks(s.policy, s.epoch, ty, s.nodes[o], NextVersion(s.nodes[o], kind, mode), s.log, s.trail);
  }

  lemma UpdateVersionQuiet(s: State, ty: Word, o: nat)
    requires o in s.nodes
    ensures Quiet(s, UpdateVersion(s, ty, o))
  {
    var n := s.nodes[o];
    if UpdatesVersion(s.policy, ty, n) { BumpQuiet(s, o, VersionType(n), n.kind, n.memo.mode); }
  }

  /** Noting a relation and moving to the version that it goes into. */
  lemma PrepareQuiet(s: State, ty: Word, f: nat, t: nat)
    requires t in s.nodes
    ensures Quiet(s, UpdateVersion(Remember(s, ty, f, t), ty, t))
  {
    UpdateVersionQuiet(Remember(s, ty, f, t), ty, t);
    QuietTrans(s, Remember(s, ty, f, t), UpdateVersion(Remember(s, ty, f, t), ty, t));
  }

  lemma LinkQuiet(s: State, ty: Word, f: nat, t: nat)
    requires Distinct(s, f, t) && ty != RL_RAN_ON
    ensures Quiet(s, Link(s, ty, f, t))
  {
    WriteLinks(s.policy, s.epoch, ty, s.nodes[f].(outgoing := true), s.nodes[t], s.log, s.trail);
  }

  lemma AttachQuiet(s: State, ty: Word, src: Node, t: nat)
    requires t in s.nodes && ty != RL_RAN_ON
    ensures Quiet(s, Attach(s, ty, src, t))
  {
    WriteLinks(s.policy, s.epoch, ty, src, s.nodes[t], s.log, s.trail);
  }

  lemma RelationQuiet(s: State, ty: Word, f: nat, t: nat)
    requires Distinct(s, f, t) && ty != RL_RAN_ON
    ensures Quiet(s, RecordRelation(s, ty, f, t))
  {
    if !Repeats(s.policy, ty, f, s.nodes[t]) {
      var s1 := UpdateVersion(Remember(s, ty, f, t), ty, t);
      PrepareQuiet(s, ty, f, t);
      LinkQuiet(s1, ty, f, t);
      QuietTrans(s, s1, Link(s1, ty, f, t));
    }
  }

  lemma AttachAfter(s: State, s1: State, ty: Word, src: Node, t: nat)
    requires Quiet(s, s1) && t in s1.nodes && ty != RL_RAN_ON
    ensures Quiet(s, Attach(s1, ty, src, t))
  {
    AttachQuiet(s1, ty, src, t);
    QuietTrans(s, s1, Attach(s1, ty, src, t));
  }

  lemma AttachAnyAfter(s: State, s1: State, ty: Word, t: nat)
    requires Quiet(s, s1) && t in s1.nodes && ty != RL_RAN_ON
    ensures forall src :: Quiet(s, Attach(s1, ty, src, t))
  {
    forall src ensures Quiet(s, Attach(s1, ty, src, t)) { AttachAfter(s, s1, ty, src, t); }
  }

  lemma FreshQuiet(s: State, ty: Word, id: nat, kind: Word, t: nat)
    requires t in s.nodes && id == NextId(s) && !Repeats(s.policy, ty, id, s.nodes[t]) && ty != RL_RAN_ON
    ensures Quiet(s, RecordTransient(s, ty, kind, t))
  {
    PrepareQuiet(s, ty, id, t);
    AttachAnyAfter(s, UpdateVersion(Remember(s, ty, id, t), ty, t), ty, t);
  }

  lemma TransientQuiet(s: State, ty: Word, kind: Word, t: nat)
    requires t in s.nodes && ty != RL_RAN_ON
    ensures Quiet(s, RecordTransient(s, ty, kind, t))
  {
    if !Repeats(s.policy, ty, NextId(s), s.nodes[t]) {
      FreshQuiet(s, ty, NextId(s), kind, t);
    }
  }

  lemma PutQuiet(s: State, o: nat, n: Node)
    requires o in s.nodes && n.memo.kernelVersion == s.nodes[o].memo.kernelVersion
    ensures Quiet(s, Put(s, o, n))
  {
  }

  lemma NamedQuiet(s: State, ty: Word, kind: Word, o: nat)
    requires o in s.nodes && ty != RL_RAN_ON
    ensures Quiet(s, SetNameRecorded(RecordTransient(s, ty, kind, o), o))
  {
    var s1 := RecordTransient(s, ty, kind, o);
    TransientQuiet(s, ty, kind, o);
    PutQuiet(s1, o, s1.nodes[o].(memo := s1.nodes[o].memo.(nameEpoch := s1.epoch)));
    QuietTrans(s, s1, SetNameRecorded(s1, o));
  }

  lemma LogQuiet(s: State, o: nat, propagate: bool)
    requires o in s.nodes
    ensures Quiet(s, RecordLog(s, o, propagate))
  {
    var n := s.nodes[o];
    var n' := n.(tracked := true, propagate := n.propagate || propagate);
    PutQuiet(s, o, n');
    AttachAfter(s, Put(s, o, n'), RL_LOG, FreshNode(NextId(s), ENT_STR), o);
  }

  lemma RetypeQuiet(s: State, o: nat, mode: FileMode)
    requires o in s.nodes
    ensures Quiet(s, UpdateInodeType(s, o, mode))
  {
    var n := s.nodes[o];
    if n.memo.mode.bits != 0 && n.memo.mode != mode && IsRecorded(n, s.epoch) {
      BumpQuiet(s, o, RL_VERSION, InodeKind(mode), mode);
    } else {
      PutQuiet(s, o, n.(kind := InodeKind(mode), memo := n.memo.(mode := mode)));
    }
  }

  lemma CloseQuiet(s: State, ty: Word, o: nat)
    requires o in s.nodes && IsClose(ty)
    ensures Quiet(s, RecordTerminate(s, ty, o))
  {
    BumpQuiet(s, o, ty, s.nodes[o].kind, s.nodes[o].memo.mode);
  }

  lemma {:induction false} TargetAllQuiet(s: State, objs: seq<nat>)
    requires forall o :: o in objs ==> o in s.nodes
    ensures Quiet(s, TargetAll(s, objs))
    decreases |objs|
  {
    if objs != [] {
      var s1, o := TargetAll(s, objs[..|objs| - 1]), objs[|objs| - 1];
      TargetAllQuiet(s, objs[..|objs| - 1]);
      PutQuiet(s1, o, ApplyTarget(s1.policy, s1.nodes[o]));
      QuietTrans(s, s1, TargetAll(s, objs));
    }
  }

  lemma BeginQuiet(s: State, h: Hook)
    requires HookLive(s, h)
    ensures Quiet(s, Begin(s, h))
  {
    var s1 := TargetAll(s, h.objs);
    TargetAllQuiet(s, h.objs);
    if h.inherits { QuietTrans(s, s1, Begin(s, h)); }
  }

  // ---------- Links ----------

  /**
   The links: from versions of the machine that their objects know of, each to a later version than
   the one before.
   */
  predicate LinksOk(s: State) {
    && s.machine in s.nodes
    && (forall i :: 0 <= i < |Links(s.log)| ==> Remembered(s, Links(s.log)[i]))
    && InTurn(Links(s.log))
  }

  predicate Remembered(s: State, e: Edge) {
    e.snd.id == s.machine && e.rcv.id in s.nodes && e.snd.version <= s.nodes[e.rcv.id].memo.kernelVersion
  }

  /** No object is linked to a version of the machine twice, or to an earlier one later. */
  predicate InTurn(links: seq<Edge>) {
    forall i, j :: 0 <= i < j < |links| && links[i].rcv.id == links[j].rcv.id ==>
        links[i].snd.version < links[j].snd.version
  }

  lemma QuietLinks(s: State, s': State)
    requires LinksOk(s) && Quiet(s, s')
    ensures LinksOk(s')
  {
    forall i | 0 <= i < |Links(s'.log)| ensures Remembered(s', Links(s'.log)[i]) {
      assert Remembered(s, Links(s.log)[i]);
    }
  }

  /** A link from the current version of the machine, which the object did not know of, may be added. */
  lemma Learned(s: State, s1: State, o: nat, more: seq<Edge>)
    requires LinksOk(s) && o in s.nodes && s1.machine == s.machine && s1.nodes.Keys == s.nodes.Keys
    requires s.nodes[o].memo.kernelVersion < s1.nodes[s.machine].version
    requires forall p :: p in s.nodes ==> s1.nodes[p].memo.kernelVersion == s.nodes[p].memo.kernelVersion
    requires Links(s1.log) == Links(s.log) + more && |more| <= 1
    requires forall e :: e in more ==>
             e.snd.id == s.machine && e.snd.version == s1.nodes[s.machine].version && e.rcv.id == o
    ensures LinksOk(SetKernelRecorded(s1, o))
  {
    var s2, links := SetKernelRecorded(s1, o), Links(s.log);
    forall i | 0 <= i < |links + more| ensures Remembered(s2, (links + more)[i]) {
      if i < |links| { assert Remembered(s, links[i]); }
    }
    forall i, j | 0 <= i < j < |links + more| && (links + more)[i].rcv.id == (links + more)[j].rcv.id
      ensures (links + more)[i].snd.version < (links + more)[j].snd.version
    {
      if j >= |links| { assert Remembered(s, links[i]) && (links + more)[j] in more; }
    }
  }

  lemma PrepareMachine(s: State, o: nat)
    requires WellFormed(s) && Distinct(s, s.machine, o)
    ensures var s0 := UpdateVersion(Remember(s, RL_RAN_ON, s.machine, o), RL_RAN_ON, o);
            && s0.nodes[s0.machine].version == s.nodes[s.machine].version
            && s0.nodes[s0.machine].id == s0.machine && s0.nodes[o].id == o
  {
  }

  lemma LinkAdds(s: State, o: nat) returns (more: seq<Edge>)
    requires Distinct(s, s.machine, o) && s.nodes[s.machine].id == s.machine && s.nodes[o].id == o
    ensures var s1 := Link(s, RL_RAN_ON, s.machine, o);
            && s1.nodes[s.machine].version == s.nodes[s.machine].version
            && (forall p :: p in s.nodes ==> s1.nodes[p].memo.kernelVersion == s.nodes[p].memo.kernelVersion)
            && Links(s1.log) == Links(s.log) + more && |more| <= 1
    ensures forall e :: e in more ==>
              e.snd.id == s.machine && e.snd.version == s.nodes[s.machine].version && e.rcv.id == o
    ensures more == if !ShouldRecord(s.policy, RL_RAN_ON, s.nodes[s.machine], s.nodes[o]) then []
                    else [Edge(RL_RAN_ON, IdentOf(s.nodes[s.machine]), IdentOf(s.nodes[o]))]
  {
    var n := s.nodes[s.machine].(outgoing := true);
    more := NewLink(s.policy, RL_RAN_ON, n, s.nodes[o]);
    WriteLinks(s.policy, s.epoch, RL_RAN_ON, n, s.nodes[o], s.log, s.trail);
  }

  /** A link is recorded from the current version of the machine, which the object did not know of. */
  lemma KernelLinks(s: State, o: nat)
    requires WellFormed(s) && LinksOk(s) && Distinct(s, s.machine, o)
    ensures LinksOk(RecordKernelLink(s, o))
  {
    var n := s.nodes[o];
    if s.nodes[s.machine].version > n.memo.kernelVersion && IsRecorded(n, s.epoch) {
      if Repeats(s.policy, RL_RAN_ON, s.machine, n) {
        assert Links(s.log) + [] == Links(s.log);
        Learned(s, s, o, []);
      } else {
        var s0 := UpdateVersion(Remember(s, RL_RAN_ON, s.machine, o), RL_RAN_ON, o);
        PrepareQuiet(s, RL_RAN_ON, s.machine, o);
        QuietLinks(s, s0);
        PrepareMachine(s, o);
        var more := LinkAdds(s0, o);
        Learned(s0, Link(s0, RL_RAN_ON, s.machine, o), o, more);
      }
    }
  }

  /** The link that a call records, if it does. */
  function Gained(s: State, o: nat): seq<Edge>
    requires o in s.nodes && s.machine in s.nodes
  {
    var m := s.nodes[s.machine];
    if Repeats(s.policy, RL_RAN_ON, s.machine, s.nodes[o]) || !ShouldRecord(s.policy, RL_RAN_ON, m, s.nodes[o]) then []
    else [Edge(RL_RAN_ON, IdentOf(m), IdentOf(RecordKernelLink(s, o).nodes[o]))]
  }

  lemma FilterStable(s: State, s': State, o: nat)
    requires Stable(s, s') && o in s.nodes && s.machine in s.nodes
    ensures ShouldRecord(s.policy, RL_RAN_ON, s.nodes[s.machine], s.nodes[o]) ==
            ShouldRecord(s'.policy, RL_RAN_ON, s'.nodes[s.machine], s'.nodes[o])
  {
  }

  /** Where the link goes: to the version that the object has in the end. */
  lemma LinkIdents(s: State, o: nat)
    requires WellFormed(s) && Distinct(s, s.machine, o)
    ensures var s0 := UpdateVersion(Remember(s, RL_RAN_ON, s.machine, o), RL_RAN_ON, o);
            var s2 := SetKernelRecorded(Link(s0, RL_RAN_ON, s.machine, o), o);
            IdentOf(s0.nodes[s.machine]) == IdentOf(s.nodes[s.machine]) && IdentOf(s2.nodes[o]) == IdentOf(s0.nodes[o])
  {
  }

  /**
   An object that is recorded and does not know of the machine's version comes
   to know of it. The link is recorded if and only if it neither repeats the
   object's last relation nor is filtered out; it goes from the machine's current
   version to the object's. For any other object nothing happens.
   */
  lemma LinkedUnlessDropped(s: State, o: nat)
    requires WellFormed(s) && Distinct(s, s.machine, o)
    ensures var s', n, version := RecordKernelLink(s, o), s.nodes[o], s.nodes[s.machine].version;
            if n.memo.kernelVersion < version && s.epoch <= n.epoch
            then s'.nodes[o].memo.kernelVersion == version && Links(s'.log) == Links(s.log) + Gained(s, o)
            else s' == s
  {
    if s.nodes[s.machine].version <= s.nodes[o].memo.kernelVersion || s.nodes[o].epoch < s.epoch {
      return;
    }
    if Repeats(s.policy, RL_RAN_ON, s.machine, s.nodes[o]) {
      assert Links(s.log) + [] == Links(s.log);
    } else {
      var s0 := UpdateVersion(Remember(s, RL_RAN_ON, s.machine, o), RL_RAN_ON, o);
      PrepareQuiet(s, RL_RAN_ON, s.machine, o);
      PrepareMachine(s, o);
      LinkIdents(s, o);
      FilterStable(s, s0, o);
      var more := LinkAdds(s0, o);
    }
  }

  // ---------- Whole runs ----------

  /** The recording engine itself is the only one to record links. */
  predicate Plain(c: Call) { c.Relate? ==> c.ty != RL_RAN_ON }

  lemma {:induction false} DoAllLinks(s: State, calls: seq<Call>)
    requires WellFormed(s) && LinksOk(s) && CallsLive(s, calls) && CallsOk(Any, s, calls)
    requires forall c :: c in calls ==> Plain(c)
    ensures LinksOk(DoAll(s, calls)) && WellFormed(DoAll(s, calls))
    decreases |calls|
  {
    if calls != [] {
      var init, c := calls[..|calls| - 1], calls[|calls| - 1];
      DoAllLinks(s, init);
      var s1 := DoAll(s, init);
      assert c in calls && CallOk(Any, s, c) && Plain(c);
      CallLinks(s1, c);
    }
  }

  lemma CallLinks(s: State, c: Call)
    requires WellFormed(s) && LinksOk(s) && CallLive(s, c) && CallOk(Any, s, c) && Plain(c)
    ensures LinksOk(Do(s, c)) && WellFormed(Do(s, c))
  {
    match c
    case Relate(ty, f, t) =>
      RelationQuiet(s, ty, f, t);
      QuietLinks(s, Do(s, c));
      RecordRelationWellFormed(s, ty, f, t);
    case LinkKernel(o) =>
      KernelLinks(s, o);
      KernelLinkWellFormed(s, o);
  }

  lemma KernelLinkWellFormed(s: State, o: nat)
    requires WellFormed(s) && Distinct(s, s.machine, o)
    ensures WellFormed(RecordKernelLink(s, o))
  {
    RecordRelationWellFormed(s, RL_RAN_ON, s.machine, o);
  }

  lemma PlainTypes(ty: Word)
    ensures IsUsed(ty) || IsGenerated(ty) || IsDerived(ty) || IsInformed(ty) || IsInfluenced(ty) ==> ty != RL_RAN_ON
    ensures RL_PROC_WRITE != RL_RAN_ON && RL_PROC_READ != RL_RAN_ON && RL_LOAD_FILE != RL_RAN_ON
    ensures RL_SH_READ != RL_RAN_ON && RL_SH_WRITE != RL_RAN_ON
  {
  }

  lemma HookCallsPlain(s: State, r: Request)
    requires IsHook(r) && ValidHook(s, r)
    ensures forall c :: c in HookOf(s, r).calls ==> Plain(c)
  {
    PlainTypes(r.ty);
    match r
    case Using(_, _, _, m, maps) => SharedCallsFor(m, maps, false);
    case Generating(_, m, _, _, maps) => SharedCallsFor(m, maps, true);
    case _ =>
  }

  /** The calls that suit the state at the start suit it after the targets have been applied. */
  lemma BeginCalls(s: State, h: Hook)
    requires WellFormed(s) && HookLive(s, h) && CallsOk(Any, s, h.calls)
    ensures var s1 := Begin(s, h); WellFormed(s1) && CallsOk(Any, s1, h.calls) && CallsLive(s1, h.calls)
  {
    var s1 := Begin(s, h);
    BeginFrame(s, h);
    forall c | c in h.calls
      ensures CallOk(Any, s1, c) && CallLive(s1, c) { assert CallOk(Any, s, c) && CallLive(s, c); }
  }

  lemma BeginFrame(s: State, h: Hook)
    requires WellFormed(s) && HookLive(s, h)
    ensures WellFormed(Begin(s, h))
  {
    TargetAllCounter(s, h.objs);
    FrameWellFormed(s, Begin(s, h));
  }

  lemma {:induction false} TargetAllCounter(s: State, objs: seq<nat>)
    requires forall o :: o in objs ==> o in s.nodes
    ensures TargetAll(s, objs).counter == s.counter
    decreases |objs|
  {
    if objs != [] { TargetAllCounter(s, objs[..|objs| - 1]); }
  }

  lemma RunHookLinks(s: State, h: Hook)
    requires WellFormed(s) && LinksOk(s) && HookLive(s, h) && CallsOk(Any, s, h.calls)
    requires forall c :: c in h.calls ==> Plain(c)
    ensures LinksOk(RunHook(s, h))
  {
    BeginQuiet(s, h);
    QuietLinks(s, Begin(s, h));
    BeginCalls(s, h);
    DoAllLinks(Begin(s, h), h.calls);
  }

  lemma HookLinks(s: State, r: Request)
    requires WellFormed(s) && LinksOk(s) && IsHook(r) && Valid(s, r)
    ensures LinksOk(Perform(s, r))
  {
    ValidHookLive(s, r);
    HookCallsOk(Any, s, r);
    HookCallsPlain(s, r);
    RunHookLinks(s, HookOf(s, r));
  }

  lemma NotePlain()
    ensures RL_NAMED != RL_RAN_ON && RL_NAMED_PROCESS != RL_RAN_ON && RL_ARG != RL_RAN_ON && RL_ENV != RL_RAN_ON
    ensures RL_LOG != RL_RAN_ON && RL_VERSION != RL_RAN_ON && RL_VERSION_TASK != RL_RAN_ON
  {
  }

  lemma NoteQuiet(s: State, r: Request)
    requires IsNote(r) && Valid(s, r)
    ensures Quiet(s, Perform(s, r))
  {
    NotePlain();
    match r
    case Naming(o, _) => NamedQuiet(s, NameType(s.nodes[o]), ENT_PATH, o);
    case Addressing(o) => NamedQuiet(s, RL_NAMED, ENT_ADDR, o);
    case Passing(o, env) =>
      TransientQuiet(s, RL_ENV, ENT_ENV, o);
      TransientQuiet(s, RL_ARG, ENT_ARG, o);
    case Logging(o, propagate) => LogQuiet(s, o, propagate);
  }

  lemma ConfigureQuiet(s: State, o: nat, setting: Setting, op: bv8)
    requires o in s.nodes
    ensures Quiet(s, Configure(s, o, setting, op))
  {
  }

  lemma ObjectQuiet(s: State, r: Request)
    requires WellFormed(s) && !IsHook(r) && !IsNote(r) && Valid(s, r) && (r.Relating? ==> r.ty != RL_RAN_ON)
    ensures Quiet(s, Perform(s, r))
  {
    match r
    case Relating(ty, f, t) => RelationQuiet(s, ty, f, t);
    case Terminating(ty, o) => CloseQuiet(s, ty, o);
    case Retyping(o, mode) => RetypeQuiet(s, o, mode);
    case Configuring(o, setting, op) => ConfigureQuiet(s, o, setting, op);
    case _ =>
  }

  /** No request asks for a link directly, as nothing in the kernel does. */
  predicate AsksNoLink(r: Request) { r.Relating? ==> r.ty != RL_RAN_ON }

  lemma PerformLinks(s: State, r: Request)
    requires WellFormed(s) && LinksOk(s) && Valid(s, r) && AsksNoLink(r)
    ensures LinksOk(Perform(s, r))
  {
    if IsHook(r) {
      HookLinks(s, r);
    } else if IsNote(r) {
      NoteQuiet(s, r);
      QuietLinks(s, Perform(s, r));
    } else {
      ObjectQuiet(s, r);
      QuietLinks(s, Perform(s, r));
    }
  }

  lemma {:induction false} RunLinks(s: State, rs: seq<Request>)
    requires GraphOk(s) && LinksOk(s) && ValidRun(s, rs) && forall r :: r in rs ==> AsksNoLink(r)
    ensures LinksOk(Run(s, rs))
    decreases |rs|
  {
    if rs != [] {
      var s1 := Perform(s, rs[0]);
      PerformLinks(s, rs[0]);
      assert ValidRun(s, [rs[0]]) && Run(s, [rs[0]]) == s1 by {
        assert [rs[0]][1..] == [];
        assert ValidRun(s1, []);
      }
      RunGraphOk(s, [rs[0]]);
      RunLinks(s1, rs[1..]);
    }
  }

  /** Over any run, the links of an object to the machine go to ever later versions of it: none is linked twice. */
  lemma LinkedOncePerVersion(policy: Policy, machine: nat, rs: seq<Request>)
    requires 0 < machine && ValidRun(Boot(policy, machine), rs) && forall r :: r in rs ==> AsksNoLink(r)
    ensures InTurn(Links(Run(Boot(policy, machine), rs).log))
  {
    BootOk(policy, machine);
    RunLinks(Boot(policy, machine), rs);
  }
}
