/**
 When an object moves to its next version. Without node compression every
 relation into it moves it on; with node compression only one that comes after
 a relation out of its current version.
 */
module Versions {
  import opened ProvTypes
  import opened Model
  import opened Requests
  import opened Views
  import opened Decomposition
  import opened NodeCompression

  // ---------- One relation ----------

  lemma PreparedVersion(s: State, s1: State, ty: Word, f: nat, t: nat, o: nat)
    requires Distinct(s, f, t) && o in s.nodes && IsFlow(ty) && s1 == UpdateVersion(Remember(s, ty, f, t), ty, t)
    ensures var n, n' := s.nodes[o], s1.nodes[o];
            && n'.version == n.version + (if o == t && (n.outgoing || !s.policy.compressNode) then 1 else 0)
            && n'.outgoing == (o != t && n.outgoing)
  {
  }

  lemma LinkedVersion(s: State, s': State, ty: Word, f: nat, t: nat, o: nat)
    requires Distinct(s, f, t) && o in s.nodes && s' == Link(s, ty, f, t)
    ensures s'.nodes[o].version == s.nodes[o].version && s'.nodes[o].outgoing == (o == f || s.nodes[o].outgoing)
    ensures s'.asked == s.asked + [Asking(ty, f, s.nodes[f].version, t)]
  {
  }

  /**
   A relation that is no compressed repeat moves its destination, and nothing
   else, to the next version: always when nodes are not compressed, and else if a
   relation has left the current one. Afterwards its source has one leaving it and
   its destination has none.
   */
  lemma MovedOn(s: State, ty: Word, f: nat, t: nat, o: nat)
    requires Distinct(s, f, t) && o in s.nodes && IsFlow(ty) && !Repeats(s.policy, ty, f, s.nodes[t])
    ensures var n, n' := s.nodes[o], RecordRelation(s, ty, f, t).nodes[o];
            && n'.version == n.version + (if o == t && (n.outgoing || !s.policy.compressNode) then 1 else 0)
            && n'.outgoing == (o == f || (o != t && n.outgoing))
  {
    var s1 := UpdateVersion(Remember(s, ty, f, t), ty, t);
    PreparedVersion(s, s1, ty, f, t, o);
    LinkedVersion(s1, Link(s1, ty, f, t), ty, f, t, o);
  }

  // ---------- Sequences of calls ----------

  /** No relation goes into `o` from call `i` to before call `j`. */
  ghost predicate Untouched(calls: seq<Call>, i: nat, j: nat, o: nat)
    requires j <= |calls| && Relations(calls)
  {
    forall k :: i <= k < j ==> calls[k].to != o
  }

  /** Since the last relation into `o` before call `n`, one has left it; `marked` tells whether one had at the start. */
  ghost predicate Left(calls: seq<Call>, n: nat, o: nat, marked: bool)
    requires n <= |calls| && Relations(calls)
  {
    || (marked && Untouched(calls, 0, n, o))
    || exists j :: 0 <= j < n && calls[j].from == o && Untouched(calls, j + 1, n, o)
  }

  /** How often a relation into `o` comes when it moves it on, in the first `n` calls. */
  ghost function Moves(compress: bool, calls: seq<Call>, n: nat, o: nat, marked: bool): nat
    requires n <= |calls| && Relations(calls)
  {
    if n == 0 then 0
    else Moves(compress, calls, n - 1, o, marked) +
         if calls[n - 1].to == o && (!compress || Left(calls, n - 1, o, marked)) then 1 else 0
  }

  /** Calls that relate different live objects. */
  ghost predicate Plain(s: State, calls: seq<Call>) {
    Relations(calls) && CallsLive(s, calls) && forall c :: c in calls ==> IsFlow(c.ty) && Distinct(s, c.from, c.to)
  }

  lemma LeftNext(calls: seq<Call>, n: nat, o: nat, marked: bool)
    requires n < |calls| && Relations(calls) && calls[n].from != calls[n].to
    ensures Left(calls, n + 1, o, marked) <==> calls[n].from == o || (calls[n].to != o && Left(calls, n, o, marked))
  {
    if calls[n].from == o {
      assert Untouched(calls, n + 1, n + 1, o);
    } else if calls[n].to != o && Left(calls, n, o, marked) {
      if !(marked && Untouched(calls, 0, n, o)) {
        var j :| 0 <= j < n && calls[j].from == o && Untouched(calls, j + 1, n, o);
        assert Untouched(calls, j + 1, n + 1, o);
      }
    }
  }

  lemma DoOneMore(s: State, calls: seq<Call>, k: nat)
    requires Plain(s, calls) && k < |calls|
    ensures calls[k] in calls && CallLive(DoAll(s, calls[..k]), calls[k])
    ensures DoAll(s, calls[..k + 1]) == Do(DoAll(s, calls[..k]), calls[k])
  {
    var more := calls[..k + 1];
    assert more[..k] == calls[..k] && more[k] == calls[k];
  }

  /** What the count says of object `o` after the first `n` calls. */
  ghost predicate Counts(n0: Node, n1: Node, compress: bool, calls: seq<Call>, n: nat, o: nat)
    requires Relations(calls) && n <= |calls|
  {
    && n1.version == n0.version + Moves(compress, calls, n, o, n0.outgoing)
    && n1.outgoing == Left(calls, n, o, n0.outgoing)
  }

  ghost predicate CountedAt(s: State, calls: seq<Call>, n: nat, o: nat)
    requires Plain(s, calls) && n <= |calls| && o in s.nodes
  {
    Counts(s.nodes[o], DoAll(s, calls[..n]).nodes[o], s.policy.compressNode, calls, n, o)
  }

  lemma OneMoreMove(s: State, s1: State, calls: seq<Call>, k: nat, o: nat)
    requires Plain(s, calls) && k < |calls| && o in s.nodes && Stable(s, s1) && !s.policy.compressEdge
    requires Counts(s.nodes[o], s1.nodes[o], s.policy.compressNode, calls, k, o)
    ensures calls[k] in calls
    ensures Counts(s.nodes[o], Do(s1, calls[k]).nodes[o], s.policy.compressNode, calls, k + 1, o)
  {
    var c := calls[k];
    assert c in calls;
    MovedOn(s1, c.ty, c.from, c.to, o);
    LeftNext(calls, k, o, s.nodes[o].outgoing);
  }

  lemma CountedNext(s: State, calls: seq<Call>, k: nat, o: nat)
    requires Plain(s, calls) && k < |calls| && o in s.nodes && !s.policy.compressEdge && CountedAt(s, calls, k, o)
    ensures CountedAt(s, calls, k + 1, o)
  {
    DoOneMore(s, calls, k);
    OneMoreMove(s, DoAll(s, calls[..k]), calls, k, o);
  }

  /**
   After any sequence of relations, without edge compression, the version of each
   object has grown by the number of relations into it, of which, with node
   compression, only those count that come when one has left it since the last.
   */
  lemma {:induction false} VersionsCountAlternations(s: State, calls: seq<Call>, n: nat, o: nat)
    requires Plain(s, calls) && n <= |calls| && o in s.nodes && !s.policy.compressEdge
    ensures CountedAt(s, calls, n, o)
    decreases n
  {
    if n == 0 {
      assert calls[..0] == [];
    } else {
      VersionsCountAlternations(s, calls, n - 1, o);
      CountedNext(s, calls, n - 1, o);
    }
  }

  // ---------- Whole runs ----------

  /** A relation out of this version was asked for. */
  predicate AskedFrom(asked: seq<Asking>, o: nat, v: nat) {
    exists i :: 0 <= i < |asked| && asked[i].from == o && asked[i].version == v
  }

  /** The first version of an object. */
  function First(s: State, o: nat): nat { if o == s.machine then 1 else 0 }

  predicate Needed(s: State, o: nat)
    requires o in s.nodes
  {
    forall v :: First(s, o) <= v < s.nodes[o].version ==> AskedFrom(s.asked, o, v)
  }

  /** A marked version has been left; so has every version before the current one. */
  predicate Sparing(s: State, spared: set<nat>) {
    && (forall o :: o in s.nodes && s.nodes[o].outgoing ==> AskedFrom(s.asked, o, s.nodes[o].version))
    && (forall o :: o in s.nodes && o !in spared ==> Needed(s, o))
  }

  lemma AskedMore(asked: seq<Asking>, more: seq<Asking>, o: nat, v: nat)
    requires AskedFrom(asked, o, v)
    ensures AskedFrom(asked + more, o, v)
  {
    var i :| 0 <= i < |asked| && asked[i].from == o && asked[i].version == v;
    assert (asked + more)[i] == asked[i];
  }

  /** Nothing but the objects' marks and the history changes. */
  lemma SparingKept(s: State, s': State, more: seq<Asking>, spared: set<nat>)
    requires Sparing(s, spared) && s'.asked == s.asked + more && s'.machine == s.machine
    requires forall o :: o in s'.nodes ==>
             if o in s.nodes then s'.nodes[o].version == s.nodes[o].version else s'.nodes[o].version == 0
    requires forall o :: o in s'.nodes && s'.nodes[o].outgoing ==>
             (o in s.nodes && s.nodes[o].outgoing) || AskedFrom(s'.asked, o, s'.nodes[o].version)
    ensures Sparing(s', spared)
  {
    forall o | o in s'.nodes && s'.nodes[o].outgoing ensures AskedFrom(s'.asked, o, s'.nodes[o].version) {
      if o in s.nodes && s.nodes[o].outgoing { AskedMore(s.asked, more, o, s.nodes[o].version); }
    }
    forall o | o in s'.nodes && o !in spared ensures Needed(s', o) {
      forall v | First(s', o) <= v < s'.nodes[o].version ensures AskedFrom(s'.asked, o, v) {
        assert Needed(s, o);
        AskedMore(s.asked, more, o, v);
      }
    }
  }

  lemma BumpSparing(s: State, op: Op, spared: set<nat>)
    requires Sparing(s, spared) && op.BumpOp? && Good(Thrifty(spared), s, op)
    ensures Sparing(Apply(s, op), spared)
  {
    var s' := Apply(s, op);
    assert s'.asked == s.asked && s'.nodes[op.o].version == s.nodes[op.o].version + 1 && !s'.nodes[op.o].outgoing;
    forall o | o in s'.nodes && o !in spared ensures Needed(s', o) {
      assert Needed(s, o);
    }
  }

  lemma LinkSparing(s: State, op: Op, spared: set<nat>)
    requires Sparing(s, spared) && op.LinkOp? && Legal(s, op)
    ensures Sparing(Apply(s, op), spared)
  {
    var s' := Apply(s, op);
    var more := [Asking(op.ty, op.from, s.nodes[op.from].version, op.to)];
    forall o | o in s.nodes
      ensures s'.nodes[o].version == s.nodes[o].version
      ensures s'.nodes[o].outgoing == (o == op.from || s.nodes[o].outgoing)
    {
      LinkedVersion(s, s', op.ty, op.from, op.to, o);
    }
    assert s'.asked == s.asked + more by { LinkedVersion(s, s', op.ty, op.from, op.to, op.to); }
    assert s'.asked[|s.asked|] == more[0];
    assert AskedFrom(s'.asked, op.from, s.nodes[op.from].version);
    SparingKept(s, s', more, spared);
  }

  lemma SparingApply(s: State, op: Op, spared: set<nat>)
    requires WellFormed(s) && Sparing(s, spared) && Good(Thrifty(spared), s, op)
    ensures Sparing(Apply(s, op), spared)
  {
    match op
    case BumpOp(_, _, _, _) => BumpSparing(s, op, spared);
    case LinkOp(_, _, _) => LinkSparing(s, op, spared);
    case AttachOp(ty, src, t) => SparingKept(s, Apply(s, op), [Asking(ty, src.id, src.version, t)], spared);
    case _ =>
      assert s.asked + [] == s.asked;
      SparingKept(s, Apply(s, op), [], spared);
  }

  lemma SparingSteps(s: State, s': State, spared: set<nat>)
    requires WellFormed(s) && Sparing(s, spared) && Steps(Thrifty(spared), s, s')
    ensures Sparing(s', spared)
  {
    var P := (x: State) => WellFormed(x) && Sparing(x, spared);
    forall x, op | P(x) && Good(Thrifty(spared), x, op) ensures P(Apply(x, op)) {
      ApplyView(x, op);
      SparingApply(x, op, spared);
    }
    assert Closed(Thrifty(spared), P);
  }

  /**
   While nodes are compressed, no version is made in vain: out of every version of
   an object but its current one a relation was asked for, unless the object was
   closed or given another type, whatever the filters.
   */
  lemma NoNeedlessVersions(policy: Policy, machine: nat, rs: seq<Request>, spared: set<nat>, o: nat)
    requires 0 < machine && ValidRun(Boot(policy, machine), rs) && FitRun(Thrifty(spared), Boot(policy, machine), rs)
    requires o in Run(Boot(policy, machine), rs).nodes && o !in spared
    ensures Needed(Run(Boot(policy, machine), rs), o)
  {
    var s := Boot(policy, machine);
    assert Sparing(s, spared);
    RunSteps(Thrifty(spared), s, rs);
    SparingSteps(s, Run(s, rs), spared);
  }
}
