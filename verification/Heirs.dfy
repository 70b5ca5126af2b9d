/**
 Tracking through hooks: what the calls of a hook raise, and what an activity
 takes over from its memory before them.
 */
module Heirs {
  import opened ProvTypes
  import opened Model
  import opened Requests
  import opened Views
  import opened Decomposition
  import opened Admission
  import opened Targets
  import opened Hooks
  import opened KernelLinks

  // ---------- What recording raises ----------

  /** Event `i` passed tracking and taint on to `o`. */
  predicate Brings(trail: seq<Event>, i: nat, o: nat)
    requires i < |trail|
  {
    var e := trail[i];
    e.Sent? && e.to.id == o && PassedOn(e.policy, e.ty, e.from, e.to)
  }

  /** Some event after the first `n` passed tracking and taint on to `o`. */
  ghost predicate Brought(trail: seq<Event>, n: nat, o: nat) {
    exists i :: n <= i < |trail| && Brings(trail, i, o)
  }

  /** From `s` to `s'`, tracking and propagation of `o` were raised exactly by what was passed on to it. */
  ghost predicate Raised(s: State, s': State, o: nat) {
    && o in s.nodes && o in s'.nodes && s.trail <= s'.trail
    && (s'.nodes[o].tracked <==> s.nodes[o].tracked || Brought(s'.trail, |s.trail|, o))
    && (s'.nodes[o].propagate <==> s.nodes[o].propagate || Brought(s'.trail, |s.trail|, o))
  }

  lemma RaisedTrans(s: State, s1: State, s2: State, o: nat)
    requires Raised(s, s1, o) && Raised(s1, s2, o)
    ensures Raised(s, s2, o)
  {
    if i :| |s.trail| <= i < |s1.trail| && Brings(s1.trail, i, o) {
      assert Brings(s2.trail, i, o);
    }
    if i :| |s.trail| <= i < |s2.trail| && Brings(s2.trail, i, o) {
      if i < |s1.trail| { assert Brings(s1.trail, i, o); }
    }
  }

  lemma SameRaised(s: State, s': State, o: nat)
    requires o in s.nodes && o in s'.nodes && s'.trail == s.trail
    requires s'.nodes[o].tracked == s.nodes[o].tracked && s'.nodes[o].propagate == s.nodes[o].propagate
    ensures Raised(s, s', o)
  {
  }

  /** One relation was written, or filtered out, on the way from `s` to `s'`. */
  lemma WriteRaised(s: State, s': State, ty: Word, f: Node, t: Node, o: nat)
    requires o in s.nodes && o in s'.nodes
    requires s'.trail == WriteRelation(s.policy, s.epoch, ty, f, t, s.log, s.trail).trail
    requires var w := WriteRelation(s.policy, s.epoch, ty, f, t, s.log, s.trail);
             if o == t.id then s'.nodes[o].tracked == w.to.tracked && s'.nodes[o].propagate == w.to.propagate
                               && t.tracked == s.nodes[o].tracked && t.propagate == s.nodes[o].propagate
             else s'.nodes[o].tracked == s.nodes[o].tracked && s'.nodes[o].propagate == s.nodes[o].propagate
    ensures Raised(s, s', o)
  {
    FlowDecides(s.policy, ty, Marked(s.policy, s.epoch, f), Marked(s.policy, s.epoch, t));
    FlowDecides(s.policy, ty, f, t);
    if ShouldRecord(s.policy, ty, f, t) {
      assert s'.trail == s.trail + [Sent(s.policy, ty, f, t)];
      assert Brings(s'.trail, |s.trail|, o) <==> t.id == o && PassedOn(s.policy, ty, f, t);
    }
  }

  lemma PreparedRaised(s: State, s1: State, ty: Word, f: nat, t: nat, o: nat)
    requires WellFormed(s) && t in s.nodes && o in s.nodes && s1 == UpdateVersion(Remember(s, ty, f, t), ty, t)
    ensures Raised(s, s1, o)
  {
    var s0 := Remember(s, ty, f, t);
    SameRaised(s, s0, o);
    var n := s0.nodes[t];
    if UpdatesVersion(s0.policy, ty, n) {
      WriteRaised(s0, s1, VersionType(n), n, NextVersion(n, n.kind, n.memo.mode), o);
    } else {
      SameRaised(s0, s1, o);
    }
    RaisedTrans(s, s0, s1, o);
  }

  lemma LinkRaised(s: State, s': State, ty: Word, f: nat, t: nat, o: nat)
    requires WellFormed(s) && Distinct(s, f, t) && o in s.nodes && s' == Link(s, ty, f, t)
    ensures Raised(s, s', o)
  {
    WriteRaised(s, s', ty, s.nodes[f].(outgoing := true), s.nodes[t], o);
  }

  lemma RelateRaised(s: State, ty: Word, f: nat, t: nat, o: nat)
    requires WellFormed(s) && Distinct(s, f, t) && o in s.nodes
    ensures Raised(s, RecordRelation(s, ty, f, t), o)
  {
    if Repeats(s.policy, ty, f, s.nodes[t]) {
      SameRaised(s, s, o);
    } else {
      var s1 := UpdateVersion(Remember(s, ty, f, t), ty, t);
      PreparedRaised(s, s1, ty, f, t, o);
      FrameWellFormed(s, s1);
      LinkRaised(s1, Link(s1, ty, f, t), ty, f, t, o);
      RaisedTrans(s, s1, Link(s1, ty, f, t), o);
    }
  }

  lemma DoRaised(s: State, c: Call, o: nat)
    requires WellFormed(s) && CallOk(Any, s, c) && CallLive(s, c) && o in s.nodes
    ensures Raised(s, Do(s, c), o)
  {
    match c
    case Relate(ty, f, t) => RelateRaised(s, ty, f, t, o);
    case LinkKernel(x) =>
      if s.nodes[s.machine].version <= s.nodes[x].memo.kernelVersion || !IsRecorded(s.nodes[x], s.epoch) {
        SameRaised(s, s, o);
      } else {
        var s1 := RecordRelation(s, RL_RAN_ON, s.machine, x);
        RelateRaised(s, RL_RAN_ON, s.machine, x, o);
        SameRaised(s1, SetKernelRecorded(s1, x), o);
        RaisedTrans(s, s1, SetKernelRecorded(s1, x), o);
      }
  }

  lemma CallCounter(s: State, c: Call)
    requires CallLive(s, c)
    ensures Do(s, c).counter == s.counter
  {
  }

  lemma {:induction false} DoAllRaised(s: State, calls: seq<Call>, o: nat)
    requires WellFormed(s) && CallsOk(Any, s, calls) && CallsLive(s, calls) && o in s.nodes
    ensures Raised(s, DoAll(s, calls), o) && DoAll(s, calls).counter == s.counter
    decreases |calls|
  {
    if calls == [] {
      SameRaised(s, s, o);
    } else {
      var init, c := calls[..|calls| - 1], calls[|calls| - 1];
      assert c in calls;
      DoAllRaised(s, init, o);
      var s1 := DoAll(s, init);
      assert CallOk(Any, s, c);
      FrameWellFormed(s, s1);
      CallCounter(s1, c);
      DoRaised(s1, c, o);
      RaisedTrans(s, s1, Do(s1, c), o);
    }
  }

  // ---------- What an activity takes over ----------

  /** Past its beginning, a hook raises tracking and propagation exactly by what its relations pass on. */
  lemma RunRaised(s: State, s1: State, h: Hook, o: nat)
    requires WellFormed(s) && HookLive(s, h) && CallsOk(Any, s, h.calls) && s1 == Begin(s, h) && o in s.nodes
    ensures Raised(s1, RunHook(s, h), o)
  {
    BeginCalls(s, h);
    DoAllRaised(s1, h.calls, o);
    SameRaised(s1, s1, o);
  }

  /**
   Whether or not `generates` records anything, the activity is tracked afterwards
   if its own targets or its memory's ask for it, or something was passed on to it,
   and only then; it is opaque if its own targets or its memory's ask for that. An
   opaque memory keeps everything from being recorded.
   */
  lemma GeneratesInherits(s: State, ty: Word, m: nat, a: nat, e: nat, maps: seq<Mapping>)
    requires WellFormed(s) && ValidHook(s, Generating(ty, m, a, e, maps))
    ensures HookLive(s, Generates(ty, m, a, e, maps))
    ensures var s' := RunHook(s, Generates(ty, m, a, e, maps));
            var mem, own, n := After(s, m), After(s, a), s'.nodes[a];
            && n.isOpaque == (own.isOpaque || mem.isOpaque)
            && (n.tracked <==> own.tracked || mem.tracked || Brought(s'.trail, |s.trail|, a))
            && (n.propagate <==> own.propagate || Brought(s'.trail, |s.trail|, a))
            && (mem.isOpaque ==> s'.log == s.log && s'.asked == s.asked)
  {
    var r, h := Generating(ty, m, a, e, maps), Generates(ty, m, a, e, maps);
    ValidHookLive(s, r);
    HookCallsOk(Any, s, r);
    var s1 := Begin(s, h);
    GenerateBegun(s, s1, h, m, a, e);
    RunRaised(s, s1, h, a);
    GeneratePasses(s1, h, ty, m, a, e);
  }
}
