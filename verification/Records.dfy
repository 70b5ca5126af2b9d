/**
 Node records in the log. A relation is never written before its two ends in
 the same epoch, and no version of an object is written twice in one epoch.
 */
module Records {
  import opened ProvTypes
  import opened Model
  import opened Requests
  import opened Views
  import opened Decomposition
  import opened Causality

  /** A record of the given version of an object, written in the given epoch. */
  predicate IsLine(r: Record, id: nat, version: nat, epoch: nat) {
    r.NodeRecord? && r.node.id == id && r.node.version == version && r.node.epoch == epoch
  }

  predicate Logged(log: seq<Record>, id: nat, version: nat, epoch: nat) {
    exists i :: 0 <= i < |log| && IsLine(log[i], id, version, epoch)
  }

  predicate EndsLogged(log: seq<Record>, e: Edge, epoch: nat) {
    Logged(log, e.snd.id, e.snd.version, epoch) && Logged(log, e.rcv.id, e.rcv.version, epoch)
  }

  /** Every relation comes after the records of both its ends in its epoch. */
  predicate Sound(log: seq<Record>) {
    forall k :: 0 <= k < |log| && log[k].Relation? ==> EndsLogged(log[..k], log[k].edge, log[k].epoch)
  }

  predicate MarkSound(n: Node, epoch: nat, log: seq<Record>) {
    n.epoch <= epoch && (n.epoch == epoch ==> Logged(log, n.id, n.version, epoch))
  }

  lemma LoggedGrow(log: seq<Record>, more: seq<Record>, id: nat, version: nat, epoch: nat)
    requires Logged(log, id, version, epoch)
    ensures Logged(log + more, id, version, epoch)
  {
    var i :| 0 <= i < |log| && IsLine(log[i], id, version, epoch);
    assert (log + more)[i] == log[i];
  }

  lemma SoundAppend(log: seq<Record>, r: Record)
    requires Sound(log) && (r.Relation? ==> EndsLogged(log, r.edge, r.epoch))
    ensures Sound(log + [r])
  {
    var l := log + [r];
    forall k | 0 <= k < |l| && l[k].Relation? ensures EndsLogged(l[..k], l[k].edge, l[k].epoch) {
      if k < |log| {
        assert l[..k] == log[..k];
      } else {
        assert l[..k] == log;
      }
    }
  }

  /** Writing a node leaves it recorded. */
  lemma NodeLineSound(p: Policy, epoch: nat, n: Node, log: seq<Record>)
    requires Sound(log) && MarkSound(n, epoch, log)
    ensures Sound(log + NodeLine(p, epoch, n)) && Logged(log + NodeLine(p, epoch, n), n.id, n.version, epoch)
  {
    if WritesNode(p, epoch, n) {
      var r := NodeRecord(n.(epoch := epoch));
      SoundAppend(log, r);
      assert IsLine((log + [r])[|log|], n.id, n.version, epoch);
    } else {
      assert log + [] == log;
    }
  }

  lemma LinesSound(p: Policy, epoch: nat, e: Edge, f: Node, t: Node, log: seq<Record>)
    requires Sound(log) && MarkSound(f, epoch, log) && MarkSound(t, epoch, log)
    requires e.snd == IdentOf(f) && e.rcv == IdentOf(t)
    ensures var l := log + NodeLine(p, epoch, f) + NodeLine(p, epoch, t) + [Relation(e, epoch)];
            Sound(l) && EndsLogged(l, e, epoch)
  {
    var a, b := NodeLine(p, epoch, f), NodeLine(p, epoch, t);
    NodeLineSound(p, epoch, f, log);
    if t.epoch == epoch { LoggedGrow(log, a, t.id, t.version, epoch); }
    NodeLineSound(p, epoch, t, log + a);
    LoggedGrow(log + a, b, f.id, f.version, epoch);
    SoundAppend(log + a + b, Relation(e, epoch));
    LoggedGrow(log + a + b, [Relation(e, epoch)], f.id, f.version, epoch);
    LoggedGrow(log + a + b, [Relation(e, epoch)], t.id, t.version, epoch);
  }

  lemma WriteSound(p: Policy, epoch: nat, ty: Word, f: Node, t: Node, log: seq<Record>, trail: seq<Event>)
    requires Sound(log) && MarkSound(f, epoch, log) && MarkSound(t, epoch, log)
    ensures var w := WriteRelation(p, epoch, ty, f, t, log, trail);
            log <= w.log && Sound(w.log) && MarkSound(w.from, epoch, w.log) && MarkSound(w.to, epoch, w.log)
  {
    LinesSound(p, epoch, Edge(ty, IdentOf(f), IdentOf(t)), f, t, log);
  }

  predicate RecordsOk(s: State) {
    WellFormed(s) && 0 < s.epoch && Sound(s.log) && forall o :: o in s.nodes ==> MarkSound(s.nodes[o], s.epoch, s.log)
  }

  lemma MarkGrow(n: Node, epoch: nat, log: seq<Record>, log': seq<Record>)
    requires MarkSound(n, epoch, log) && log <= log'
    ensures MarkSound(n, epoch, log')
  {
    if n.epoch == epoch {
      LoggedGrow(log, log'[|log|..], n.id, n.version, epoch);
      assert log + log'[|log|..] == log';
    }
  }

  /** The nodes that a relation does not touch stay as they were. */
  lemma OthersSound(s: State, s': State, f: nat, t: nat)
    requires RecordsOk(s) && s.log <= s'.log && SameFrame(s, s')
    requires forall o :: o in s.nodes && o != f && o != t ==> s'.nodes[o] == s.nodes[o]
    ensures forall o :: o in s.nodes && o != f && o != t ==> MarkSound(s'.nodes[o], s'.epoch, s'.log)
  {
    forall o | o in s.nodes && o != f && o != t ensures MarkSound(s'.nodes[o], s'.epoch, s'.log) {
      MarkGrow(s.nodes[o], s.epoch, s.log, s'.log);
    }
  }

  lemma BumpSound(s: State, o: nat, ty: Word, kind: Word, mode: FileMode)
    requires RecordsOk(s) && o in s.nodes
    ensures RecordsOk(Bump(s, o, ty, kind, mode))
  {
    var s' := Bump(s, o, ty, kind, mode);
    WriteSound(s.policy, s.epoch, ty, s.nodes[o], NextVersion(s.nodes[o], kind, mode), s.log, s.trail);
    OthersSound(s, s', o, o);
    FrameWellFormed(s, s');
  }

  lemma LinkSound(s: State, ty: Word, f: nat, t: nat)
    requires RecordsOk(s) && Distinct(s, f, t)
    ensures RecordsOk(Link(s, ty, f, t))
  {
    var s' := Link(s, ty, f, t);
    WriteSound(s.policy, s.epoch, ty, s.nodes[f].(outgoing := true), s.nodes[t], s.log, s.trail);
    OthersSound(s, s', f, t);
    FrameWellFormed(s, s');
  }

  lemma AttachSound(s: State, ty: Word, src: Node, t: nat)
    requires RecordsOk(s) && t in s.nodes && src.epoch == 0 && NextId(s) < s.machine
    ensures RecordsOk(Attach(s, ty, src, t))
  {
    var s' := Attach(s, ty, src, t);
    WriteSound(s.policy, s.epoch, ty, src, s.nodes[t], s.log, s.trail);
    OthersSound(s, s', t, t);
    FrameWellFormed(s, s');
  }

  lemma IdleSound(s: State, op: Op)
    requires RecordsOk(s) && Legal(s, op) && !op.BumpOp? && !op.LinkOp? && !op.AttachOp?
    ensures RecordsOk(Apply(s, op))
  {
    ApplyView(s, op);
  }

  lemma RecordsOkApply(s: State, op: Op)
    requires RecordsOk(s) && Legal(s, op)
    ensures RecordsOk(Apply(s, op))
  {
    match op
    case BumpOp(o, ty, kind, mode) => BumpSound(s, o, ty, kind, mode);
    case LinkOp(ty, f, t) => LinkSound(s, ty, f, t);
    case AttachOp(ty, src, t) => AttachSound(s, ty, src, t);
    case _ => IdleSound(s, op);
  }

  /** Referential integrity: both ends of every relation of a run were written before it, in its epoch. */
  lemma RelationsFollowTheirEnds(policy: Policy, machine: nat, rs: seq<Request>)
    requires 0 < machine && ValidRun(Boot(policy, machine), rs)
    ensures Sound(Run(Boot(policy, machine), rs).log)
  {
    BootRecords(policy, machine);
    RunRecordsOk(Boot(policy, machine), rs);
  }

  lemma RunRecordsOk(s: State, rs: seq<Request>)
    requires RecordsOk(s) && ValidRun(s, rs)
    ensures RecordsOk(Run(s, rs))
  {
    AnyFits(s, rs);
    RunSteps(Any, s, rs);
    RecordsOkSteps(s, Run(s, rs));
  }

  lemma BootRecords(policy: Policy, machine: nat)
    requires 0 < machine
    ensures RecordsOk(Boot(policy, machine))
  {
  }

  lemma RecordsOkSteps(s: State, s': State)
    requires RecordsOk(s) && Steps(Any, s, s')
    ensures RecordsOk(s')
  {
    var P := (x: State) => RecordsOk(x);
    forall x, op | P(x) && Good(Any, x, op) ensures P(Apply(x, op)) { RecordsOkApply(x, op); }
    assert Closed(Any, P);
  }

  // ---------- No duplicates ----------

  predicate SameLine(a: Record, b: Record) {
    a.NodeRecord? && b.NodeRecord? && IsLine(a, b.node.id, b.node.version, b.node.epoch)
  }

  /** No version of an object is written twice in one epoch, the objects in `but` apart. */
  predicate Unique(log: seq<Record>, but: set<nat>) {
    forall i, j :: 0 <= i < j < |log| && SameLine(log[i], log[j]) ==> log[j].node.id in but
  }

  predicate SameVersion(r: Record, n: Node) { r.NodeRecord? && r.node.id == n.id && r.node.version == n.version }

  /** The node's mark is as late as any record of its version. */
  predicate MarkLatest(n: Node, log: seq<Record>, but: set<nat>) {
    n.id in but || forall i :: 0 <= i < |log| && SameVersion(log[i], n) ==> log[i].node.epoch <= n.epoch
  }

  lemma NodeLineUnique(p: Policy, epoch: nat, n: Node, log: seq<Record>, but: set<nat>)
    requires !p.duplicate && Unique(log, but) && MarkLatest(n, log, but)
    ensures Unique(log + NodeLine(p, epoch, n), but)
    ensures MarkLatest(Marked(p, epoch, n), log + NodeLine(p, epoch, n), but)
  {
    if WritesNode(p, epoch, n) {
      var r := NodeRecord(n.(epoch := epoch));
      var l := log + [r];
      forall i, j | 0 <= i < j < |l| && SameLine(l[i], l[j]) ensures l[j].node.id in but {
        if j == |log| && SameVersion(l[i], n) { assert l[i] == log[i]; }
      }
    } else {
      assert log + [] == log;
    }
  }

  lemma LinesUnique(p: Policy, epoch: nat, e: Edge, f: Node, t: Node, log: seq<Record>, but: set<nat>)
    requires !p.duplicate && Unique(log, but) && MarkLatest(f, log, but) && MarkLatest(t, log, but)
    requires f.id != t.id || f.version != t.version
    ensures Unique(log + NodeLine(p, epoch, f) + NodeLine(p, epoch, t) + [Relation(e, epoch)], but)
  {
    var a, b := NodeLine(p, epoch, f), NodeLine(p, epoch, t);
    NodeLineUnique(p, epoch, f, log, but);
    assert MarkLatest(t, log + a, but);
    NodeLineUnique(p, epoch, t, log + a, but);
  }

  // ---------- No versions to come ----------

  /** The version is one that the object has, or had. */
  predicate Known(s: State, id: nat, version: nat) {
    && (id <= s.counter || id == s.machine)
    && (id in s.nodes ==> version <= s.nodes[id].version)
  }

  /** The record is of known versions, and of none later than the mark of its node, the objects in `but` apart. */
  predicate LineOk(s: State, r: Record, but: set<nat>) {
    match r
    case NodeRecord(n) =>
      && Known(s, n.id, n.version)
      && (n.id in s.nodes && n.version == s.nodes[n.id].version && n.id !in but ==> n.epoch <= s.nodes[n.id].epoch)
    case Relation(e, _) => Known(s, e.snd.id, e.snd.version) && Known(s, e.rcv.id, e.rcv.version)
  }

  predicate LinesOk(s: State, but: set<nat>) {
    WellFormed(s) && forall i :: 0 <= i < |s.log| ==> LineOk(s, s.log[i], but)
  }

  /** Nothing goes back: ids, versions and, within a version, marks, those of the objects in `but` apart. */
  predicate Forward(s: State, s': State, but: set<nat>) {
    && s.counter <= s'.counter && s'.machine == s.machine
    && (forall o :: o in s'.nodes && o !in s.nodes ==> s.counter < o && o != s.machine)
    && forall o :: o in s'.nodes && o in s.nodes ==> Later(s.nodes[o], s'.nodes[o], o in but)
  }

  predicate Later(n: Node, n': Node, spared: bool) {
    n.version < n'.version || (n.version == n'.version && (spared || n.epoch <= n'.epoch))
  }

  lemma LineForward(s: State, s': State, r: Record, but: set<nat>)
    requires LineOk(s, r, but) && Forward(s, s', but)
    ensures LineOk(s', r, but)
  {
  }

  /** A relation from `f` to `t` has been written, and the state went from `s` to `s'`. */
  lemma WriteLines(s: State, s': State, ty: Word, f: Node, t: Node, but: set<nat>)
    requires LinesOk(s, but) && WellFormed(s') && Forward(s, s', but)
    requires s'.log == WriteRelation(s.policy, s.epoch, ty, f, t, s.log, s.trail).log
    requires Known(s', f.id, f.version) && Known(s', t.id, t.version)
    requires ShouldRecord(s.policy, ty, f, t) && WritesNode(s.policy, s.epoch, f) ==>
             LineOk(s', NodeRecord(f.(epoch := s.epoch)), but)
    requires ShouldRecord(s.policy, ty, f, t) && WritesNode(s.policy, s.epoch, t) ==>
             LineOk(s', NodeRecord(t.(epoch := s.epoch)), but)
    ensures LinesOk(s', but)
  {
    forall i | 0 <= i < |s'.log| ensures LineOk(s', s'.log[i], but) {
      if i < |s.log| { LineForward(s, s', s.log[i], but); }
    }
  }

  lemma BumpLines(s: State, o: nat, ty: Word, kind: Word, mode: FileMode, but: set<nat>)
    requires LinesOk(s, but) && o in s.nodes
    ensures LinesOk(Bump(s, o, ty, kind, mode), but)
  {
    var s' := Bump(s, o, ty, kind, mode);
    FrameWellFormed(s, s');
    WriteLines(s, s', ty, s.nodes[o], NextVersion(s.nodes[o], kind, mode), but);
  }

  /** What a relation leaves of its ends: their versions, and the marks of those it writes. */
  lemma LinkEnds(s: State, s': State, ty: Word, f: nat, t: nat)
    requires Marks(s) && Distinct(s, f, t) && s' == Link(s, ty, f, t)
    ensures s'.nodes[f].version == s.nodes[f].version && s.nodes[f].epoch <= s'.nodes[f].epoch
    ensures s'.nodes[t].version == s.nodes[t].version && s.nodes[t].epoch <= s'.nodes[t].epoch
    ensures forall o :: o in s.nodes && o != f && o != t ==> s'.nodes[o] == s.nodes[o]
    ensures ShouldRecord(s.policy, ty, s.nodes[f].(outgoing := true), s.nodes[t]) ==>
            s.epoch <= s'.nodes[f].epoch && s.epoch <= s'.nodes[t].epoch
  {
  }

  lemma LinkLines(s: State, ty: Word, f: nat, t: nat, but: set<nat>)
    requires LinesOk(s, but) && Marks(s) && Distinct(s, f, t)
    ensures LinesOk(Link(s, ty, f, t), but)
  {
    var s' := Link(s, ty, f, t);
    FrameWellFormed(s, s');
    LinkEnds(s, s', ty, f, t);
    WriteLines(s, s', ty, s.nodes[f].(outgoing := true), s.nodes[t], but);
  }

  lemma AttachLines(s: State, ty: Word, src: Node, t: nat, but: set<nat>)
    requires LinesOk(s, but) && Marks(s) && t in s.nodes && src.id == NextId(s) < s.machine
    ensures LinesOk(Attach(s, ty, src, t), but)
  {
    var s' := Attach(s, ty, src, t);
    FrameWellFormed(s, s');
    WriteLines(s, s', ty, src, s.nodes[t], but);
  }

  lemma IdleLines(s: State, op: Op, but: set<nat>)
    requires LinesOk(s, but) && Legal(s, op) && !op.BumpOp? && !op.LinkOp? && !op.AttachOp?
    requires op.RefreshOp? ==> s.machine in but
    ensures LinesOk(Apply(s, op), but)
  {
    var s' := Apply(s, op);
    ApplyView(s, op);
    assert Forward(s, s', but);
    forall i | 0 <= i < |s'.log| ensures LineOk(s', s'.log[i], but) { LineForward(s, s', s.log[i], but); }
  }

  lemma LinesOkApply(s: State, op: Op, but: set<nat>)
    requires LinesOk(s, but) && Marks(s) && Legal(s, op) && (op.RefreshOp? ==> s.machine in but)
    ensures LinesOk(Apply(s, op), but)
  {
    match op
    case BumpOp(o, ty, kind, mode) => BumpLines(s, o, ty, kind, mode, but);
    case LinkOp(ty, f, t) => LinkLines(s, ty, f, t, but);
    case AttachOp(ty, src, t) => AttachLines(s, ty, src, t, but);
    case _ => IdleLines(s, op, but);
  }

  /** No node is marked with an epoch to come. */
  predicate Marks(s: State) { forall o :: o in s.nodes ==> s.nodes[o].epoch <= s.epoch }

  /** No record of a run, of a node or of a relation, mentions a version of a live object above its current one. */
  lemma NoFutureVersions(policy: Policy, machine: nat, rs: seq<Request>, i: nat)
    requires 0 < machine && ValidRun(Boot(policy, machine), rs) && i < |Run(Boot(policy, machine), rs).log|
    ensures var s := Run(Boot(policy, machine), rs);
            match s.log[i]
            case NodeRecord(n) => Known(s, n.id, n.version)
            case Relation(e, _) => Known(s, e.snd.id, e.snd.version) && Known(s, e.rcv.id, e.rcv.version)
  {
    var s := Boot(policy, machine);
    BootRecords(policy, machine);
    AnyFits(s, rs);
    RunSteps(Any, s, rs);
    LinesOkSteps(s, Run(s, rs), machine);
  }

  lemma LinesOkSteps(s: State, s': State, machine: nat)
    requires RecordsOk(s) && LinesOk(s, {machine}) && s.machine == machine && Steps(Any, s, s')
    ensures LinesOk(s', {machine})
  {
    var P := (x: State) => RecordsOk(x) && LinesOk(x, {machine}) && x.machine == machine;
    forall x, op | P(x) && Good(Any, x, op) ensures P(Apply(x, op)) {
      RecordsOkApply(x, op);
      LinesOkApply(x, op, {machine});
    }
    assert Closed(Any, P);
  }

  // ---------- No duplicates, over runs ----------

  predicate UniqueOk(s: State, but: set<nat>) { RecordsOk(s) && LinesOk(s, but) && Unique(s.log, but) }

  lemma WriteUnique(s: State, s': State, ty: Word, f: Node, t: Node, but: set<nat>)
    requires UniqueOk(s, but) && !s.policy.duplicate
    requires s'.log == WriteRelation(s.policy, s.epoch, ty, f, t, s.log, s.trail).log
    requires MarkLatest(f, s.log, but) && MarkLatest(t, s.log, but) && (f.id != t.id || f.version != t.version)
    ensures Unique(s'.log, but)
  {
    LinesUnique(s.policy, s.epoch, Edge(ty, IdentOf(f), IdentOf(t)), f, t, s.log, but);
  }

  /** A live node is marked as late as any record of its version. */
  lemma LiveLatest(s: State, o: nat, but: set<nat>)
    requires LinesOk(s, but) && o in s.nodes
    ensures MarkLatest(s.nodes[o], s.log, but)
  {
    forall i | 0 <= i < |s.log| && SameVersion(s.log[i], s.nodes[o]) && o !in but
      ensures s.log[i].node.epoch <= s.nodes[o].epoch
    {
      assert LineOk(s, s.log[i], but);
    }
  }

  /** A version that no record can know of has none. */
  lemma NewLatest(s: State, n: Node, but: set<nat>)
    requires LinesOk(s, but) && !Known(s, n.id, n.version)
    ensures MarkLatest(n, s.log, but)
  {
    forall i | 0 <= i < |s.log| ensures !SameVersion(s.log[i], n) {
      assert LineOk(s, s.log[i], but);
    }
  }

  lemma BumpUnique(s: State, o: nat, ty: Word, kind: Word, mode: FileMode, but: set<nat>)
    requires UniqueOk(s, but) && !s.policy.duplicate && o in s.nodes
    ensures Unique(Bump(s, o, ty, kind, mode).log, but)
  {
    LiveLatest(s, o, but);
    NewLatest(s, NextVersion(s.nodes[o], kind, mode), but);
    WriteUnique(s, Bump(s, o, ty, kind, mode), ty, s.nodes[o], NextVersion(s.nodes[o], kind, mode), but);
  }

  lemma LinkUnique(s: State, ty: Word, f: nat, t: nat, but: set<nat>)
    requires UniqueOk(s, but) && !s.policy.duplicate && Distinct(s, f, t)
    ensures Unique(Link(s, ty, f, t).log, but)
  {
    LiveLatest(s, f, but);
    LiveLatest(s, t, but);
    var n := s.nodes[f].(outgoing := true);
    assert MarkLatest(n, s.log, but) by {
      forall i | 0 <= i < |s.log| && SameVersion(s.log[i], n) && n.id !in but ensures s.log[i].node.epoch <= n.epoch {
        assert SameVersion(s.log[i], s.nodes[f]);
      }
    }
    WriteUnique(s, Link(s, ty, f, t), ty, n, s.nodes[t], but);
  }

  lemma AttachUnique(s: State, ty: Word, src: Node, t: nat, but: set<nat>)
    requires UniqueOk(s, but) && !s.policy.duplicate && t in s.nodes && src.id == NextId(s) < s.machine
    ensures Unique(Attach(s, ty, src, t).log, but)
  {
    LiveLatest(s, t, but);
    NewLatest(s, src, but);
    WriteUnique(s, Attach(s, ty, src, t), ty, src, s.nodes[t], but);
  }

  lemma UniqueOkApply(s: State, op: Op, but: set<nat>)
    requires UniqueOk(s, but) && Legal(s, op) && !s.policy.duplicate && (op.RefreshOp? ==> s.machine in but)
    ensures UniqueOk(Apply(s, op), but)
  {
    RecordsOkApply(s, op);
    LinesOkApply(s, op, but);
    match op
    case BumpOp(o, ty, kind, mode) => BumpUnique(s, o, ty, kind, mode, but);
    case LinkOp(ty, f, t) => LinkUnique(s, ty, f, t, but);
    case AttachOp(ty, src, t) => AttachUnique(s, ty, src, t, but);
    case _ =>
  }

  /** The objects that a run may write again: the machine, if it is refreshed. */
  function Rewritten(refreshes: bool, machine: nat): set<nat> { if refreshes then {machine} else {} }

  /**
   Without deliberate duplication, each version is written at most once per
   epoch. Where the machine is refreshed, this holds of every object but the
   machine.
   */
  lemma NodesAreWrittenOnce(policy: Policy, machine: nat, rs: seq<Request>, refreshes: bool)
    requires 0 < machine && ValidRun(Boot(policy, machine), rs) && FitRun(Single(refreshes), Boot(policy, machine), rs)
    ensures Unique(Run(Boot(policy, machine), rs).log, Rewritten(refreshes, machine))
  {
    var s := Boot(policy, machine);
    BootUnique(policy, machine, Rewritten(refreshes, machine));
    RunSteps(Single(refreshes), s, rs);
    UniqueOkSteps(s, Run(s, rs), refreshes, machine);
  }

  lemma BootUnique(policy: Policy, machine: nat, but: set<nat>)
    requires 0 < machine
    ensures UniqueOk(Boot(policy, machine), but)
  {
  }

  lemma UniqueOkSteps(s: State, s': State, refreshes: bool, machine: nat)
    requires UniqueOk(s, Rewritten(refreshes, machine)) && s.machine == machine && Steps(Single(refreshes), s, s')
    ensures UniqueOk(s', Rewritten(refreshes, machine))
  {
    var m, but := Single(refreshes), Rewritten(refreshes, machine);
    var P := (x: State) => UniqueOk(x, but) && x.machine == machine;
    forall x, op | P(x) && Good(m, x, op) ensures P(Apply(x, op)) { UniqueOkApply(x, op, but); }
    assert Closed(m, P);
  }

  lemma WrittenFirst(p: Policy, epoch: nat, ty: Word, f: Node, t: Node, log: seq<Record>, trail: seq<Event>)
    requires ShouldRecord(p, ty, f, t) && WritesNode(p, epoch, f)
    ensures var l := WriteRelation(p, epoch, ty, f, t, log, trail).log;
            |log| < |l| && l[|log|] == NodeRecord(f.(epoch := epoch))
  {
  }

  lemma NotWritten(p: Policy, epoch: nat, ty: Word, f: Node, t: Node, log: seq<Record>, trail: seq<Event>)
    requires !WritesNode(p, epoch, f) && f.id != t.id
    ensures var l := WriteRelation(p, epoch, ty, f, t, log, trail).log;
            forall i :: |log| <= i < |l| ==> !IsLine(l[i], f.id, f.version, epoch)
  {
  }

  /**
   A machine that has been written in this epoch is written again, at the same
   version, by the first relation from it after a refresh that the filters let
   through.
   */
  lemma RefreshRewrites(s: State, ty: Word, t: nat)
    requires RecordsOk(s) && Distinct(s, s.machine, t) && IsRecorded(s.nodes[s.machine], s.epoch)
    requires ShouldRecord(s.policy, ty, s.nodes[s.machine], s.nodes[t])
    ensures var n, l := s.nodes[s.machine], Link(Refresh(s), ty, s.machine, t).log;
            && Logged(s.log, n.id, n.version, s.epoch)
            && |s.log| < |l| && IsLine(l[|s.log|], n.id, n.version, s.epoch)
  {
    assert MarkSound(s.nodes[s.machine], s.epoch, s.log);
    var n := Refresh(s).nodes[s.machine].(outgoing := true);
    WrittenFirst(s.policy, s.epoch, ty, n, s.nodes[t], s.log, s.trail);
  }

  /** Without the refresh, and without deliberate duplication, it is not. */
  lemma NoRefreshNoRewrite(s: State, ty: Word, t: nat)
    requires RecordsOk(s) && !s.policy.duplicate && Distinct(s, s.machine, t) && IsRecorded(s.nodes[s.machine], s.epoch)
    ensures var n, l := s.nodes[s.machine], Link(s, ty, s.machine, t).log;
            forall i :: |s.log| <= i < |l| ==> !IsLine(l[i], n.id, n.version, s.epoch)
  {
    NotWritten(s.policy, s.epoch, ty, s.nodes[s.machine].(outgoing := true), s.nodes[t], s.log, s.trail);
  }
}
