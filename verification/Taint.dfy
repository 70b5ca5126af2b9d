/**
 Taint is exact: a node carries a bit exactly when the bit was injected into
 some object from which a chain of emitted, propagating relations leads to it
 in the order they were written.
 */
module Taint {
  import opened ProvTypes
  import opened Model
  import opened Requests
  import opened Views
  import opened Decomposition
  import opened Causality
  import opened Admission

  // ---------- Histories ----------

  /** A relation whose source was tracked and propagating, and that passed the propagation filters. */
  predicate Carrying(e: Event) { e.Sent? && PassedOn(e.policy, e.ty, e.from, e.to) }

  /** The object an event leaves its bits with. */
  function Holder(e: Event): nat { if e.Sent? then e.to.id else e.id }

  /**
   `c` lists, in the order of the history, an injection of `b` and relations
   that carry it on, each from the object the one before it left it with, to `o`.
   */
  predicate Spreads(trail: seq<Event>, c: seq<nat>, b: nat, o: nat)
    decreases |c|
  {
    && c != [] && c[|c| - 1] < |trail|
    && var e := trail[c[|c| - 1]];
       && Holder(e) == o
       && if |c| == 1 then e.Injected? && b in e.bits
          else Carrying(e) && c[|c| - 2] < c[|c| - 1] && Spreads(trail, c[..|c| - 1], b, e.from.id)
  }

  ghost predicate Tainted(trail: seq<Event>, b: nat, o: nat) {
    exists c :: Spreads(trail, c, b, o)
  }

  /** A chain that ends inside a prefix of the history is a chain of that prefix, and conversely. */
  lemma {:induction false} SpreadsPrefix(trail: seq<Event>, e: Event, c: seq<nat>, b: nat, o: nat)
    requires c != [] && c[|c| - 1] < |trail|
    ensures Spreads(trail + [e], c, b, o) <==> Spreads(trail, c, b, o)
    decreases |c|
  {
    var x := trail[c[|c| - 1]];
    assert (trail + [e])[c[|c| - 1]] == x;
    if |c| > 1 && x.Sent? && c[|c| - 2] < c[|c| - 1] {
      assert c[..|c| - 1][|c| - 2] == c[|c| - 2];
      SpreadsPrefix(trail, e, c[..|c| - 1], b, x.from.id);
    }
  }

  /** How one more event changes who is tainted. */
  ghost predicate TaintedNext(trail: seq<Event>, e: Event, b: nat, o: nat) {
    || Tainted(trail, b, o)
    || (e.Injected? && e.id == o && b in e.bits)
    || (Carrying(e) && e.to.id == o && Tainted(trail, b, e.from.id))
  }

  lemma TaintedSnocDown(trail: seq<Event>, e: Event, b: nat, o: nat)
    requires Tainted(trail + [e], b, o)
    ensures TaintedNext(trail, e, b, o)
  {
    var c :| Spreads(trail + [e], c, b, o);
    if c[|c| - 1] < |trail| {
      SpreadsPrefix(trail, e, c, b, o);
    } else if |c| > 1 {
      var d := c[..|c| - 1];
      assert d[|d| - 1] == c[|c| - 2];
      SpreadsPrefix(trail, e, d, b, e.from.id);
    }
  }

  lemma TaintedSnocUp(trail: seq<Event>, e: Event, b: nat, o: nat)
    requires TaintedNext(trail, e, b, o)
    ensures Tainted(trail + [e], b, o)
  {
    var n: nat := |trail|;
    if Tainted(trail, b, o) {
      var c :| Spreads(trail, c, b, o);
      SpreadsPrefix(trail, e, c, b, o);
    } else if e.Injected? {
      var c: seq<nat> := [n];
      assert Spreads(trail + [e], c, b, o);
    } else {
      var c :| Spreads(trail, c, b, e.from.id);
      SpreadsPrefix(trail, e, c, b, e.from.id);
      var d := c + [n];
      assert d[..|d| - 1] == c;
      assert Spreads(trail + [e], d, b, o);
    }
  }

  lemma TaintedSnoc(trail: seq<Event>, e: Event, b: nat, o: nat)
    ensures Tainted(trail + [e], b, o) <==> TaintedNext(trail, e, b, o)
  {
    if Tainted(trail + [e], b, o) { TaintedSnocDown(trail, e, b, o); }
    if TaintedNext(trail, e, b, o) { TaintedSnocUp(trail, e, b, o); }
  }

  // ---------- What every operation keeps ----------

  ghost predicate Exact(s: State, o: nat)
    requires o in s.nodes
  {
    forall b :: b in s.nodes[o].taint <==> Tainted(s.trail, b, o)
  }

  ghost predicate TaintOk(s: State) {
    && WellFormed(s)
    && (forall i :: 0 <= i < |s.trail| ==> Holder(s.trail[i]) in s.nodes)
    && forall o :: o in s.nodes ==> Exact(s, o)
  }

  /** The bits that an event brings to object `o`. */
  function Brought(s: State, e: Event, o: nat): set<nat> {
    match e
    case Injected(id, bits) => if id == o then bits else {}
    case Sent(_, _, f, t) => if t.id == o && Carrying(e) && f.id in s.nodes then s.nodes[f.id].taint else {}
  }

  /** One more event, whose bits went where it says. */
  lemma EventTaint(s: State, s': State, e: Event)
    requires TaintOk(s) && WellFormed(s') && s'.nodes.Keys == s.nodes.Keys && s'.trail == s.trail + [e]
    requires Holder(e) in s.nodes && (Carrying(e) ==> e.from.id in s.nodes)
    requires forall o :: o in s.nodes ==> s'.nodes[o].taint == s.nodes[o].taint + Brought(s, e, o)
    ensures TaintOk(s')
  {
    forall o | o in s'.nodes ensures Exact(s', o) {
      forall b ensures b in s'.nodes[o].taint <==> Tainted(s'.trail, b, o) {
        TaintedSnoc(s.trail, e, b, o);
        assert Exact(s, o);
        if Carrying(e) { assert Exact(s, e.from.id); }
      }
    }
  }

  lemma QuietTaint(s: State, s': State)
    requires TaintOk(s) && WellFormed(s') && s'.nodes.Keys == s.nodes.Keys && s'.trail == s.trail
    requires forall o :: o in s.nodes ==> s'.nodes[o].taint == s.nodes[o].taint
    ensures TaintOk(s')
  {
    forall o | o in s'.nodes ensures Exact(s', o) { assert Exact(s, o); }
  }

  /** A relation from node `f` to node `t` was written; the nodes named `to` in `s'` may have gained its bits. */
  lemma WriteTaint(s: State, s': State, ty: Word, f: Node, t: Node)
    requires TaintOk(s) && WellFormed(s') && s'.nodes.Keys == s.nodes.Keys && t.id in s.nodes
    requires Carries(s.policy, ty, f, t) ==> f.id in s.nodes
    requires f.id in s.nodes ==> f.taint == s.nodes[f.id].taint
    requires t.taint == s.nodes[t.id].taint
    requires var w := WriteRelation(s.policy, s.epoch, ty, f, t, s.log, s.trail);
             && s'.trail == w.trail && s'.nodes[t.id].taint == w.to.taint
             && forall o :: o in s.nodes && o != t.id ==> s'.nodes[o].taint == s.nodes[o].taint
    ensures TaintOk(s')
  {
    FlowDecides(s.policy, ty, f, t);
    if ShouldRecord(s.policy, ty, f, t) {
      EventTaint(s, s', Sent(s.policy, ty, f, t));
    } else {
      QuietTaint(s, s');
    }
  }

  lemma BumpTaint(s: State, op: Op)
    requires TaintOk(s) && Legal(s, op) && op.BumpOp?
    ensures TaintOk(Apply(s, op))
  {
    var s' := Apply(s, op);
    FrameWellFormed(s, s');
    WriteTaint(s, s', op.ty, s.nodes[op.o], NextVersion(s.nodes[op.o], op.kind, op.mode));
  }

  lemma LinkTaint(s: State, op: Op)
    requires TaintOk(s) && Legal(s, op) && op.LinkOp?
    ensures TaintOk(Apply(s, op))
  {
    var s' := Apply(s, op);
    FrameWellFormed(s, s');
    WriteTaint(s, s', op.ty, s.nodes[op.from].(outgoing := true), s.nodes[op.to]);
  }

  lemma AttachTaint(s: State, op: Op)
    requires TaintOk(s) && Legal(s, op) && op.AttachOp?
    ensures TaintOk(Apply(s, op))
  {
    var s' := Apply(s, op);
    FrameWellFormed(s, s');
    WriteTaint(s, s', op.ty, op.src, s.nodes[op.to]);
  }

  lemma TaintedLive(s: State, b: nat, o: nat)
    requires TaintOk(s) && Tainted(s.trail, b, o)
    ensures o in s.nodes
  {
    var c :| Spreads(s.trail, c, b, o);
    assert Holder(s.trail[c[|c| - 1]]) in s.nodes;
  }

  lemma AllocTaint(s: State, op: Op)
    requires TaintOk(s) && Legal(s, op) && op.AllocOp?
    ensures TaintOk(Apply(s, op))
  {
    var s' := Apply(s, op);
    ApplyView(s, op);
    forall o | o in s'.nodes ensures Exact(s', o) {
      if o in s.nodes {
        assert Exact(s, o);
      } else {
        forall b | Tainted(s'.trail, b, o) ensures false { TaintedLive(s, b, o); }
      }
    }
  }

  lemma InjectTaint(s: State, op: Op)
    requires TaintOk(s) && Legal(s, op) && op.InjectOp?
    ensures TaintOk(Apply(s, op))
  {
    ApplyView(s, op);
    EventTaint(s, Apply(s, op), Injected(op.o, op.bits));
  }

  lemma TaintOkApply(s: State, op: Op)
    requires TaintOk(s) && Legal(s, op)
    ensures TaintOk(Apply(s, op))
  {
    match op
    case BumpOp(_, _, _, _) => BumpTaint(s, op);
    case LinkOp(_, _, _) => LinkTaint(s, op);
    case AttachOp(_, _, _) => AttachTaint(s, op);
    case AllocOp(_) => AllocTaint(s, op);
    case InjectOp(_, _) => InjectTaint(s, op);
    case _ =>
      ApplyView(s, op);
      QuietTaint(s, Apply(s, op));
  }

  lemma TaintOkSteps(s: State, s': State)
    requires TaintOk(s) && Steps(Any, s, s')
    ensures TaintOk(s')
  {
    ghost var P := (x: State) => TaintOk(x);
    forall x, op | P(x) && Good(Any, x, op) ensures P(Apply(x, op)) { TaintOkApply(x, op); }
    assert Closed(Any, P);
  }

  lemma BootTaint(policy: Policy, machine: nat)
    requires 0 < machine
    ensures TaintOk(Boot(policy, machine))
  {
  }

  /** Every relation of the chain leads from one object to another: none is between versions of one object. */
  ghost predicate CrossesOver(trail: seq<Event>, c: seq<nat>) {
    forall k :: 1 <= k < |c| ==> c[k] < |trail| && trail[c[k]].Sent? && trail[c[k]].from.id != trail[c[k]].to.id
  }

  /** Relations between versions of one object can be left out of a chain. */
  lemma {:induction false} Thinned(trail: seq<Event>, c: seq<nat>, b: nat, o: nat) returns (d: seq<nat>)
    requires Spreads(trail, c, b, o)
    ensures Spreads(trail, d, b, o) && CrossesOver(trail, d) && d[|d| - 1] <= c[|c| - 1]
    decreases |c|
  {
    if |c| == 1 {
      d := c;
    } else {
      var init, last := c[..|c| - 1], c[|c| - 1];
      var e := trail[last];
      d := Thinned(trail, init, b, e.from.id);
      if e.from.id != o {
        assert (d + [last])[..|d|] == d;
        d := d + [last];
      }
    }
  }

  /** Taint comes over relations between different objects alone; relations between versions add nothing. */
  lemma VersionsAddNothing(trail: seq<Event>, b: nat, o: nat)
    ensures Tainted(trail, b, o) <==> exists c :: Spreads(trail, c, b, o) && CrossesOver(trail, c)
  {
    if c :| Spreads(trail, c, b, o) {
      var d := Thinned(trail, c, b, o);
    }
  }

  /** After any run, a node's taint is exactly what propagating relations brought it from injections. */
  lemma TaintIsExact(policy: Policy, machine: nat, rs: seq<Request>, o: nat, b: nat)
    requires 0 < machine && ValidRun(Boot(policy, machine), rs) && o in Run(Boot(policy, machine), rs).nodes
    ensures var s := Run(Boot(policy, machine), rs); b in s.nodes[o].taint <==> Tainted(s.trail, b, o)
  {
    var s := Boot(policy, machine);
    BootTaint(policy, machine);
    AnyFits(s, rs);
    RunSteps(Any, s, rs);
    TaintOkSteps(s, Run(s, rs));
    assert Exact(Run(s, rs), o);
  }

  // ---------- The history is what was emitted ----------

  function EdgesOf(log: seq<Record>): seq<Edge> {
    if log == [] then []
    else
      var last := log[|log| - 1];
      EdgesOf(log[..|log| - 1]) + if last.Relation? then [last.edge] else []
  }

  function SentOf(trail: seq<Event>): seq<Edge> {
    if trail == [] then []
    else
      var last := trail[|trail| - 1];
      SentOf(trail[..|trail| - 1]) + if last.Sent? then [Edge(last.ty, IdentOf(last.from), IdentOf(last.to))] else []
  }

  lemma EdgesSnoc(log: seq<Record>, r: Record)
    ensures EdgesOf(log + [r]) == EdgesOf(log) + if r.Relation? then [r.edge] else []
  {
    assert (log + [r])[..|log|] == log;
  }

  lemma EdgesNodeLine(p: Policy, epoch: nat, n: Node, log: seq<Record>)
    ensures EdgesOf(log + NodeLine(p, epoch, n)) == EdgesOf(log)
  {
    if WritesNode(p, epoch, n) {
      EdgesSnoc(log, NodeRecord(n.(epoch := epoch)));
    } else {
      assert log + [] == log;
    }
  }

  lemma SentSnoc(trail: seq<Event>, e: Event)
    ensures SentOf(trail + [e]) == SentOf(trail) + if e.Sent? then [Edge(e.ty, IdentOf(e.from), IdentOf(e.to))] else []
  {
    assert (trail + [e])[..|trail|] == trail;
  }

  lemma WriteMatches(p: Policy, epoch: nat, ty: Word, f: Node, t: Node, log: seq<Record>, trail: seq<Event>)
    requires EdgesOf(log) == SentOf(trail)
    ensures var w := WriteRelation(p, epoch, ty, f, t, log, trail); EdgesOf(w.log) == SentOf(w.trail)
  {
    if ShouldRecord(p, ty, f, t) {
      var a, b := NodeLine(p, epoch, f), NodeLine(p, epoch, t);
      EdgesNodeLine(p, epoch, f, log);
      EdgesNodeLine(p, epoch, t, log + a);
      EdgesSnoc(log + a + b, Relation(Edge(ty, IdentOf(f), IdentOf(t)), epoch));
      SentSnoc(trail, Sent(p, ty, f, t));
    }
  }

  lemma MatchesApply(s: State, op: Op)
    requires EdgesOf(s.log) == SentOf(s.trail) && Legal(s, op)
    ensures EdgesOf(Apply(s, op).log) == SentOf(Apply(s, op).trail)
  {
    match op
    case BumpOp(o, ty, kind, mode) =>
      WriteMatches(s.policy, s.epoch, ty, s.nodes[o], NextVersion(s.nodes[o], kind, mode), s.log, s.trail);
    case LinkOp(ty, f, t) =>
      WriteMatches(s.policy, s.epoch, ty, s.nodes[f].(outgoing := true), s.nodes[t], s.log, s.trail);
    case AttachOp(ty, src, t) => WriteMatches(s.policy, s.epoch, ty, src, s.nodes[t], s.log, s.trail);
    case InjectOp(o, bits) => SentSnoc(s.trail, Injected(o, bits));
    case _ =>
  }

  lemma MatchesSteps(s: State, s': State)
    requires EdgesOf(s.log) == SentOf(s.trail) && Steps(Any, s, s')
    ensures EdgesOf(s'.log) == SentOf(s'.trail)
  {
    var P := (x: State) => EdgesOf(x.log) == SentOf(x.trail);
    forall x, op | P(x) && Good(Any, x, op) ensures P(Apply(x, op)) { MatchesApply(x, op); }
    assert Closed(Any, P);
  }

  /** The relations of the history are the relations of the log, one for one and in order. */
  lemma HistoryIsTheLog(policy: Policy, machine: nat, rs: seq<Request>)
    requires 0 < machine && ValidRun(Boot(policy, machine), rs)
    ensures var s := Run(Boot(policy, machine), rs); EdgesOf(s.log) == SentOf(s.trail)
  {
    var s := Boot(policy, machine);
    AnyFits(s, rs);
    RunSteps(Any, s, rs);
    MatchesSteps(s, Run(s, rs));
  }

  // ---------- The injections are what was asked for ----------

  function InjectionsOf(trail: seq<Event>): seq<Event> {
    if trail == [] then []
    else
      var last := trail[|trail| - 1];
      InjectionsOf(trail[..|trail| - 1]) + if last.Injected? then [last] else []
  }

  lemma InjectionsSnoc(trail: seq<Event>, e: Event)
    ensures InjectionsOf(trail + [e]) == InjectionsOf(trail) + if e.Injected? then [e] else []
  {
    assert (trail + [e])[..|trail|] == trail;
  }

  /** The injection that a request asks for, if it does. */
  function AskedInjection(r: Request): seq<Event> {
    if r.Configuring? && (r.op & SET_TAINT) != 0 then [Injected(r.o, r.setting.taint)] else []
  }

  function AskedInjections(rs: seq<Request>): seq<Event> {
    if rs == [] then [] else AskedInjection(rs[0]) + AskedInjections(rs[1..])
  }

  lemma WriteInjectsNothing(p: Policy, epoch: nat, ty: Word, f: Node, t: Node, log: seq<Record>, trail: seq<Event>)
    ensures InjectionsOf(WriteRelation(p, epoch, ty, f, t, log, trail).trail) == InjectionsOf(trail)
  {
    InjectionsSnoc(trail, Sent(p, ty, f, t));
  }

  lemma CalmApply(s: State, op: Op)
    requires Legal(s, op) && !op.InjectOp?
    ensures InjectionsOf(Apply(s, op).trail) == InjectionsOf(s.trail)
  {
    match op
    case BumpOp(o, ty, kind, mode) =>
      WriteInjectsNothing(s.policy, s.epoch, ty, s.nodes[o], NextVersion(s.nodes[o], kind, mode), s.log, s.trail);
    case LinkOp(ty, f, t) =>
      WriteInjectsNothing(s.policy, s.epoch, ty, s.nodes[f].(outgoing := true), s.nodes[t], s.log, s.trail);
    case AttachOp(ty, src, t) => WriteInjectsNothing(s.policy, s.epoch, ty, src, s.nodes[t], s.log, s.trail);
    case _ =>
  }

  lemma CalmSteps(s: State, s': State)
    requires Steps(Calm, s, s')
    ensures InjectionsOf(s'.trail) == InjectionsOf(s.trail)
  {
    var P := (x: State) => InjectionsOf(x.trail) == InjectionsOf(s.trail);
    forall x, op | P(x) && Good(Calm, x, op) ensures P(Apply(x, op)) { CalmApply(x, op); }
    assert Closed(Calm, P);
  }

  lemma ConfigureInjects(s: State, o: nat, setting: Setting, op: bv8)
    requires o in s.nodes
    ensures InjectionsOf(Configure(s, o, setting, op).trail) ==
            InjectionsOf(s.trail) + if (op & SET_TAINT) != 0 then [Injected(o, setting.taint)] else []
  {
    InjectionsSnoc(s.trail, Injected(o, setting.taint));
  }

  lemma PerformInjects(s: State, r: Request)
    requires Valid(s, r)
    ensures InjectionsOf(Perform(s, r).trail) == InjectionsOf(s.trail) + AskedInjection(r)
  {
    if r.Configuring? {
      ConfigureInjects(s, r.o, r.setting, r.op);
    } else {
      PerformSteps(Calm, s, r);
      CalmSteps(s, Perform(s, r));
      assert InjectionsOf(s.trail) + [] == InjectionsOf(s.trail);
    }
  }

  lemma Regroup(a: seq<Event>, b: seq<Event>, c: seq<Event>)
    ensures a + b + c == a + (b + c) && a + [] == a
  {
  }

  lemma {:induction false} RunInjects(s: State, rs: seq<Request>)
    requires ValidRun(s, rs)
    ensures InjectionsOf(Run(s, rs).trail) == InjectionsOf(s.trail) + AskedInjections(rs)
    decreases |rs|
  {
    if rs == [] {
      Regroup(InjectionsOf(s.trail), [], []);
    } else {
      PerformInjects(s, rs[0]);
      RunInjects(Perform(s, rs[0]), rs[1..]);
      Regroup(InjectionsOf(s.trail), AskedInjection(rs[0]), AskedInjections(rs[1..]));
    }
  }

  /** The injections of the history are those that the requests of the run ask for, one for one and in order. */
  lemma InjectionsAreTheRequests(policy: Policy, machine: nat, rs: seq<Request>)
    requires 0 < machine && ValidRun(Boot(policy, machine), rs)
    ensures InjectionsOf(Run(Boot(policy, machine), rs).trail) == AskedInjections(rs)
  {
    RunInjects(Boot(policy, machine), rs);
  }
}
