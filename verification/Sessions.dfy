/**
 The engine in use: requests come in one after the other, and what has been
 written out at any time is the log of a run. So what is proved of runs holds
 of the engine as the kernel runs it.
 */
module Sessions {
  import opened ProvTypes
  import opened Model
  import opened Requests
  import opened Recorders
  import opened Graphs
  import Views
  import Causality
  import Records

  // ---------- Runs, one request more ----------

  lemma {:induction false} RunSnoc(s: State, rs: seq<Request>, r: Request)
    requires ValidRun(s, rs) && Valid(Run(s, rs), r)
    ensures ValidRun(s, rs + [r]) && Run(s, rs + [r]) == Perform(Run(s, rs), r)
    decreases |rs|
  {
    if rs == [] {
      assert rs + [r] == [r] && [r][1..] == [];
      assert ValidRun(Perform(s, r), [r][1..]);
    } else {
      assert (rs + [r])[1..] == rs[1..] + [r];
      RunSnoc(Perform(s, rs[0]), rs[1..], r);
    }
  }

  // ---------- Requests on the objects ----------

  /** The mappings of a process, with the node objects of the mapped files. */
  function Vmas(live: map<nat, ProvNode>, maps: seq<Mapping>): (r: seq<Vma>)
    requires Mapped(live, maps)
    ensures |r| == |maps|
    ensures forall i :: 0 <= i < |r| && r[i].file != null ==>
            maps[i].file.FileNode? && r[i].file == live[maps[i].file.id]
  {
    seq(|maps|, i requires 0 <= i < |maps| =>
      Vma(if maps[i].file.NoNode? then null else live[maps[i].file.id],
          maps[i].read, maps[i].write, maps[i].exec, maps[i].mayShare))
  }

  lemma VmasAreMappings(live: map<nat, ProvNode>, maps: seq<Mapping>)
    requires Mapped(live, maps)
    requires forall i :: i in live ==> live[i].id == i
    ensures Mappings(Vmas(live, maps)) == maps
  {
  }

  /** The node object with the given id. */
  function Lookup(rec: Recorder, o: nat): (n: ProvNode)
    requires rec.Valid() && o in rec.live
    reads rec
    ensures rec.Owns(n) && n.id == o
  {
    assert rec.live[o] in rec.live.Values;
    rec.live[o]
  }

  predicate Mapped(live: map<nat, ProvNode>, maps: seq<Mapping>) {
    forall i :: 0 <= i < |maps| && maps[i].file.FileNode? ==> maps[i].file.id in live
  }

  function LookupMaps(rec: Recorder, maps: seq<Mapping>): (vmas: seq<Vma>)
    requires rec.Valid() && Mapped(rec.live, maps)
    reads rec
    ensures Mappings(vmas) == maps && forall v :: v in vmas && v.file != null ==> rec.Owns(v.file)
  {
    VmasAreMappings(rec.live, maps);
    assert forall v :: v in rec.live.Values ==> rec.Owns(v);
    Vmas(rec.live, maps)
  }

  method ServeUses(rec: Recorder, ty: Word, entity: nat, activity: nat, mem: nat, maps: seq<Mapping>)
    requires rec.Valid() && entity in rec.live && activity in rec.live && mem in rec.live && Mapped(rec.live, maps)
    requires HookLive(rec.View(), Model.Uses(ty, entity, activity, mem, maps))
    modifies rec`log, rec`trail, rec`asked, rec.live.Values
    ensures rec.Valid() && rec.View() == RunHook(old(rec.View()), Model.Uses(ty, entity, activity, mem, maps))
  {
    var entityNode, activityNode, memNode := Lookup(rec, entity), Lookup(rec, activity), Lookup(rec, mem);
    var vmas := LookupMaps(rec, maps);
    rec.Uses(ty, entityNode, activityNode, memNode, vmas);
  }

  method ServeGenerates(rec: Recorder, ty: Word, mem: nat, activity: nat, entity: nat, maps: seq<Mapping>)
    requires rec.Valid() && mem in rec.live && activity in rec.live && entity in rec.live && Mapped(rec.live, maps)
    requires HookLive(rec.View(), Model.Generates(ty, mem, activity, entity, maps))
    modifies rec`log, rec`trail, rec`asked, rec.live.Values
    ensures rec.Valid() && rec.View() == RunHook(old(rec.View()), Model.Generates(ty, mem, activity, entity, maps))
  {
    var memNode, activityNode, entityNode := Lookup(rec, mem), Lookup(rec, activity), Lookup(rec, entity);
    var vmas := LookupMaps(rec, maps);
    rec.Generates(ty, memNode, activityNode, entityNode, vmas);
  }

  method ServeUsesTwo(rec: Recorder, ty: Word, entity: nat, activity: nat)
    requires rec.Valid() && entity in rec.live && activity in rec.live
             && HookLive(rec.View(), Model.UsesTwo(ty, entity, activity))
    modifies rec`log, rec`trail, rec`asked, rec.live.Values
    ensures rec.Valid() && rec.View() == RunHook(old(rec.View()), Model.UsesTwo(ty, entity, activity))
  {
    var entityNode := Lookup(rec, entity);
    var activityNode := Lookup(rec, activity);
    rec.UsesTwo(ty, entityNode, activityNode);
  }

  method ServeDerives(rec: Recorder, ty: Word, from: nat, to: nat)
    requires rec.Valid() && from in rec.live && to in rec.live && HookLive(rec.View(), Model.Derives(ty, from, to))
    modifies rec`log, rec`trail, rec`asked, rec.live.Values
    ensures rec.Valid() && rec.View() == RunHook(old(rec.View()), Model.Derives(ty, from, to))
  {
    var fromNode := Lookup(rec, from);
    var toNode := Lookup(rec, to);
    rec.Derives(ty, fromNode, toNode);
  }

  method ServeInforms(rec: Recorder, ty: Word, from: nat, to: nat)
    requires rec.Valid() && from in rec.live && to in rec.live && HookLive(rec.View(), Model.Informs(ty, from, to))
    modifies rec`log, rec`trail, rec`asked, rec.live.Values
    ensures rec.Valid() && rec.View() == RunHook(old(rec.View()), Model.Informs(ty, from, to))
  {
    var fromNode := Lookup(rec, from);
    var toNode := Lookup(rec, to);
    rec.Informs(ty, fromNode, toNode);
  }

  method ServeInfluences(rec: Recorder, ty: Word, entity: nat, activity: nat)
    requires rec.Valid() && entity in rec.live && activity in rec.live
             && HookLive(rec.View(), Model.InfluencesKernel(ty, entity, activity, rec.machine.id))
    modifies rec`log, rec`trail, rec`asked, rec.live.Values
    ensures rec.Valid() && rec.View() ==
            RunHook(old(rec.View()), Model.InfluencesKernel(ty, entity, activity, old(rec.machine.id)))
  {
    var entityNode := Lookup(rec, entity);
    var activityNode := Lookup(rec, activity);
    rec.InfluencesKernel(ty, entityNode, activityNode);
  }

  /** What a hook asks of its objects. */
  ghost predicate ObjectsLive(s: State, r: Request)
    requires IsHook(r)
  {
    match r
    case Using(_, e, a, m, maps) => e in s.nodes && a in s.nodes && m in s.nodes && MappingsLive(s, maps)
    case UsingTwo(_, e, a) => e in s.nodes && a in s.nodes
    case Generating(_, m, a, e, maps) => m in s.nodes && a in s.nodes && e in s.nodes && MappingsLive(s, maps)
    case Deriving(_, f, t) => f in s.nodes && t in s.nodes
    case Informing(_, f, t) => f in s.nodes && t in s.nodes
    case Influencing(_, e, a) => e in s.nodes && a in s.nodes
  }

  lemma HookReady(s: State, r: Request)
    requires IsHook(r) && Valid(s, r)
    ensures ObjectsLive(s, r) && HookLive(s, HookOf(s, r)) && Perform(s, r) == RunHook(s, HookOf(s, r))
  {
    ValidHookLive(s, r);
  }

  method ServeHook(rec: Recorder, r: Request)
    requires rec.Valid() && IsHook(r) && ObjectsLive(rec.View(), r) && HookLive(rec.View(), HookOf(rec.View(), r))
    modifies rec`log, rec`trail, rec`asked, rec.live.Values
    ensures rec.Valid() && rec.View() == RunHook(old(rec.View()), HookOf(old(rec.View()), r))
  {
    match r {
      case Using(ty, e, a, m, maps) => ServeUses(rec, ty, e, a, m, maps);
      case UsingTwo(ty, e, a) => ServeUsesTwo(rec, ty, e, a);
      case Generating(ty, m, a, e, maps) => ServeGenerates(rec, ty, m, a, e, maps);
      case Deriving(ty, f, t) => ServeDerives(rec, ty, f, t);
      case Informing(ty, f, t) => ServeInforms(rec, ty, f, t);
      case Influencing(ty, e, a) => ServeInfluences(rec, ty, e, a);
    }
  }

  method ServeName(rec: Recorder, o: nat, force: bool)
    requires rec.Valid() && o in rec.live
    modifies rec`log, rec`trail, rec`asked, rec`counter, rec.live.Values
    ensures rec.Valid() && o in old(rec.View()).nodes && rec.View() == RecordNodeName(old(rec.View()), o, force)
  {
    var n := Lookup(rec, o);
    rec.RecordNodeName(n, force);
  }

  method ServeAddress(rec: Recorder, o: nat)
    requires rec.Valid() && o in rec.live
    modifies rec`log, rec`trail, rec`asked, rec`counter, rec.live.Values
    ensures rec.Valid() && o in old(rec.View()).nodes && rec.View() == RecordAddress(old(rec.View()), o)
  {
    var n := Lookup(rec, o);
    rec.RecordAddress(n);
  }

  method ServeArgument(rec: Recorder, o: nat, ty: Word, kind: Word)
    requires rec.Valid() && o in rec.live
    modifies rec`log, rec`trail, rec`asked, rec`counter, rec.live.Values
    ensures rec.Valid() && o in old(rec.View()).nodes && rec.View() == RecordTransient(old(rec.View()), ty, kind, o)
  {
    var n := Lookup(rec, o);
    rec.RecordTransient(ty, kind, n);
  }

  method ServeLog(rec: Recorder, o: nat, propagate: bool)
    requires rec.Valid() && o in rec.live
    modifies rec`log, rec`trail, rec`asked, rec`counter, rec.live.Values
    ensures rec.Valid() && o in old(rec.View()).nodes && rec.View() == RecordLog(old(rec.View()), o, propagate)
  {
    var n := Lookup(rec, o);
    rec.RecordLog(n, propagate);
  }

  /** Names, addresses, arguments and log lines. */
  method ServeNote(rec: Recorder, r: Request)
    requires rec.Valid() && (r.Naming? || r.Addressing? || r.Passing? || r.Logging?) && Valid(rec.View(), r)
    modifies rec`log, rec`trail, rec`asked, rec`counter, rec.live.Values
    ensures rec.Valid() && rec.View() == Perform(old(rec.View()), r)
  {
    match r {
      case Naming(o, force) => ServeName(rec, o, force);
      case Addressing(o) => ServeAddress(rec, o);
      case Passing(o, env) => ServeArgument(rec, o, if env then RL_ENV else RL_ARG, if env then ENT_ENV else ENT_ARG);
      case Logging(o, propagate) => ServeLog(rec, o, propagate);
    }
  }

  method ServeRelation(rec: Recorder, ty: Word, from: nat, to: nat)
    requires rec.Valid() && from in rec.live && to in rec.live
    modifies rec`log, rec`trail, rec`asked, rec.live.Values
    ensures rec.Valid() && from in old(rec.View()).nodes && to in old(rec.View()).nodes
    ensures rec.View() == RecordRelation(old(rec.View()), ty, from, to)
  {
    var fromNode := Lookup(rec, from);
    var toNode := Lookup(rec, to);
    rec.RecordRelation(ty, fromNode, toNode);
  }

  method ServeTermination(rec: Recorder, o: nat, ty: Word)
    requires rec.Valid() && o in rec.live
    modifies rec`log, rec`trail, rec`asked, rec.live.Values
    ensures rec.Valid() && o in old(rec.View()).nodes && rec.View() == RecordTerminate(old(rec.View()), ty, o)
  {
    var n := Lookup(rec, o);
    rec.RecordTerminate(ty, n);
  }

  method ServeRetyping(rec: Recorder, o: nat, mode: FileMode)
    requires rec.Valid() && o in rec.live
    modifies rec`log, rec`trail, rec`asked, rec.live.Values
    ensures rec.Valid() && o in old(rec.View()).nodes && rec.View() == UpdateInodeType(old(rec.View()), o, mode)
  {
    var n := Lookup(rec, o);
    rec.UpdateInodeType(mode, n);
  }

  method ServeOwner(rec: Recorder, o: nat, owner: Owner)
    requires rec.Valid() && o in rec.live
    modifies rec`log, rec`trail, rec`asked, rec.live.Values
    ensures rec.Valid() && o in old(rec.View()).nodes && rec.View() == SetOwner(old(rec.View()), o, owner)
  {
    var n := Lookup(rec, o);
    rec.SetOwner(n, owner);
  }

  method ServeSetting(rec: Recorder, o: nat, setting: Setting, op: bv8)
    requires rec.Valid() && o in rec.live
    modifies rec`log, rec`trail, rec`asked, rec.live.Values
    ensures rec.Valid() && o in old(rec.View()).nodes && rec.View() == Configure(old(rec.View()), o, setting, op)
  {
    var n := Lookup(rec, o);
    rec.UpdateConfig(n, setting, op);
  }

  /** What concerns one object, or two without a hook. */
  method ServeObject(rec: Recorder, r: Request)
    requires rec.Valid() && Valid(rec.View(), r)
    requires r.Relating? || r.Terminating? || r.Retyping? || r.Owning? || r.Configuring?
    modifies rec`log, rec`trail, rec`asked, rec.live.Values
    ensures rec.Valid() && rec.View() == Perform(old(rec.View()), r)
  {
    match r {
      case Relating(ty, f, t) => ServeRelation(rec, ty, f, t);
      case Terminating(ty, o) => ServeTermination(rec, o, ty);
      case Retyping(o, mode) => ServeRetyping(rec, o, mode);
      case Owning(o, owner) => ServeOwner(rec, o, owner);
      case Configuring(o, setting, op) => ServeSetting(rec, o, setting, op);
    }
  }

  /** Allocation, changes of policy and epoch, and the refresh of the machine. */
  method ServeEngine(rec: Recorder, r: Request)
    requires rec.Valid() && Valid(rec.View(), r) && (r.Allocating? || r.Governing? || r.Advancing? || r.Refreshing?)
    requires r.Allocating? ==> rec.counter + 1 !in rec.live
    modifies rec, rec.machine`epoch
    ensures rec.Valid() && rec.View() == Perform(old(rec.View()), r)
    ensures fresh(rec.live.Values - old(rec.live.Values))
  {
    match r {
      case Allocating(kind) =>
        var n := rec.Allocate(kind);
      case Governing(policy) => rec.SetPolicy(policy);
      case Advancing => rec.AdvanceEpoch();
      case Refreshing => rec.Refresh();
    }
  }

  /** Serves any request. */
  method Dispatch(rec: Recorder, r: Request)
    requires rec.Valid() && Valid(rec.View(), r) && (r.Allocating? ==> rec.counter + 1 !in rec.live)
    modifies rec, rec.live.Values
    ensures rec.Valid() && rec.View() == Perform(old(rec.View()), r)
    ensures fresh(rec.live.Values - old(rec.live.Values))
  {
    if IsHook(r) {
      HookReady(rec.View(), r);
      ServeHook(rec, r);
    } else if r.Naming? || r.Addressing? || r.Passing? || r.Logging? {
      ServeNote(rec, r);
    } else if r.Allocating? || r.Governing? || r.Advancing? || r.Refreshing? {
      ServeEngine(rec, r);
    } else {
      ServeObject(rec, r);
    }
  }

  /** A run goes on with one more request, and the next id is free. */
  lemma RunGoesOn(policy: Policy, machineId: nat, history: seq<Request>, s: State, r: Request)
    requires 0 < machineId && ValidRun(Boot(policy, machineId), history) && s == Run(Boot(policy, machineId), history)
    requires Valid(s, r)
    ensures ValidRun(Boot(policy, machineId), history + [r])
    ensures Run(Boot(policy, machineId), history + [r]) == Perform(s, r)
    ensures NextId(s) < s.machine ==> NextId(s) !in s.nodes
  {
    RunSnoc(Boot(policy, machineId), history, r);
    Causality.BootOk(policy, machineId);
    Causality.RunGraphOk(Boot(policy, machineId), history);
  }

  /** The engine goes on with a run. */
  method GoOn(rec: Recorder, r: Request, ghost policy: Policy, ghost machineId: nat, ghost history: seq<Request>)
    requires rec.Valid() && Valid(rec.View(), r) && 0 < machineId
    requires ValidRun(Boot(policy, machineId), history) && rec.View() == Run(Boot(policy, machineId), history)
    modifies rec, rec.live.Values
    ensures rec.Valid() && fresh(rec.live.Values - old(rec.live.Values))
    ensures ValidRun(Boot(policy, machineId), history + [r])
    ensures rec.View() == Run(Boot(policy, machineId), history + [r])
  {
    RunGoesOn(policy, machineId, history, rec.View(), r);
    Dispatch(rec, r);
  }

  /** The engine together with the requests it has served. */
  class Session {
    const rec: Recorder
    ghost const policy: Policy
    ghost const machineId: nat
    ghost var history: seq<Request>

    ghost predicate Valid()
      reads this, rec, rec.live.Values
    {
      && rec.Valid() && 0 < machineId
      && ValidRun(Boot(policy, machineId), history) && rec.View() == Run(Boot(policy, machineId), history)
    }

    constructor (policy: Policy, machineId: nat)
      requires 0 < machineId
      ensures Valid() && fresh(rec) && fresh(rec.live.Values) && history == []
      ensures this.policy == policy && this.machineId == machineId
    {
      rec := new Recorder(policy, machineId);
      this.policy, this.machineId, history := policy, machineId, [];
    }

    /** Serves one request. */
    method Serve(r: Request)
      requires Valid() && Requests.Valid(rec.View(), r)
      modifies this, rec, rec.live.Values
      ensures Valid() && history == old(history) + [r]
      ensures fresh(rec.live.Values - old(rec.live.Values))
    {
      GoOn(rec, r, policy, machineId, history);
      history := history + [r];
    }

    /** What the engine has written out has no cycles, and no relation in it comes before its ends. */
    lemma LogIsSound()
      requires Valid()
      ensures Acyclic(Views.Arcs(rec.log)) && Records.Sound(rec.log)
    {
      Causality.EmittedGraphIsAcyclic(policy, machineId, history);
      Records.RelationsFollowTheirEnds(policy, machineId, history);
    }
  }
}
