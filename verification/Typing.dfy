/** Emitted relations join the kinds of node that their W3C PROV category asks for. */
module Typing {
  import opened ProvTypes
  import opened Model
  import opened Requests
  import opened Views
  import opened Decomposition

  /** The one exception is a version of the machine, an agent, derived from the one before it. */
  predicate TypedEdge(machine: nat, e: Edge) {
    Joins(e.ty, e.snd.kind, e.rcv.kind) || (e.snd.id == e.rcv.id == machine && e.ty == RL_VERSION)
  }

  predicate TypedLog(machine: nat, log: seq<Record>) {
    forall i :: 0 <= i < |log| && log[i].Relation? ==> TypedEdge(machine, log[i].edge)
  }

  predicate TypedOk(s: State) { WellFormed(s) && KindsOk(s) && TypedLog(s.machine, s.log) }

  lemma WriteTyped(p: Policy, epoch: nat, ty: Word, f: Node, t: Node, log: seq<Record>, trail: seq<Event>, machine: nat)
    requires TypedLog(machine, log) && TypedEdge(machine, Edge(ty, IdentOf(f), IdentOf(t)))
    ensures TypedLog(machine, WriteRelation(p, epoch, ty, f, t, log, trail).log)
  {
  }

  lemma TypedLogApply(s: State, op: Op)
    requires TypedOk(s) && Good(Typed, s, op)
    ensures TypedLog(s.machine, Apply(s, op).log)
  {
    match op
    case BumpOp(o, ty, kind, mode) =>
      WriteTyped(s.policy, s.epoch, ty, s.nodes[o], NextVersion(s.nodes[o], kind, mode), s.log, s.trail, s.machine);
    case LinkOp(ty, f, t) =>
      WriteTyped(s.policy, s.epoch, ty, s.nodes[f].(outgoing := true), s.nodes[t], s.log, s.trail, s.machine);
    case AttachOp(ty, src, t) => WriteTyped(s.policy, s.epoch, ty, src, s.nodes[t], s.log, s.trail, s.machine);
    case _ =>
  }

  lemma TypedOkApply(s: State, op: Op)
    requires TypedOk(s) && Good(Typed, s, op)
    ensures TypedOk(Apply(s, op)) && Apply(s, op).machine == s.machine
  {
    ApplyView(s, op);
    KindsApply(s, op);
    TypedLogApply(s, op);
  }

  /** Given arguments of the right kinds, every relation of a run is well typed, the implicit ones included. */
  lemma RelationsAreWellTyped(policy: Policy, machine: nat, rs: seq<Request>)
    requires 0 < machine && ValidRun(Boot(policy, machine), rs) && FitRun(Typed, Boot(policy, machine), rs)
    ensures TypedLog(machine, Run(Boot(policy, machine), rs).log)
  {
    var s := Boot(policy, machine);
    BootTyped(policy, machine);
    RunSteps(Typed, s, rs);
    TypedOkSteps(s, Run(s, rs));
  }

  lemma BootTyped(policy: Policy, machine: nat)
    requires 0 < machine
    ensures TypedOk(Boot(policy, machine))
  {
  }

  lemma TypedOkSteps(s: State, s': State)
    requires TypedOk(s) && Steps(Typed, s, s')
    ensures TypedOk(s') && s'.machine == s.machine
  {
    var P := (x: State) => TypedOk(x) && x.machine == s.machine;
    forall x, op | P(x) && Good(Typed, x, op) ensures P(Apply(x, op)) { TypedOkApply(x, op); }
    assert Closed(Typed, P);
  }
}
