/**
 Edge compression is exact removal of stutter. Of the relations asked for into
 one object, those that repeat the one just before are dropped, and nothing
 else is; the relations that remain are the same, as a set, without it.
 */
module EdgeCompression {
  import opened ProvTypes
  import opened Model
  import opened Requests
  import opened Views
  import opened Decomposition
  import opened NodeCompression

  /** A relation asked for into some object: its source and its type. */
  datatype Ask = Ask(from: nat, ty: Word)

  /** What is asked for into object `t`, in order. */
  function AsksFor(calls: seq<Call>, t: nat): seq<Ask> {
    if calls == [] then []
    else
      var c := calls[|calls| - 1];
      AsksFor(calls[..|calls| - 1], t) + if c.Relate? && c.to == t then [Ask(c.from, c.ty)] else []
  }

  /** What has been emitted into object `t`, in order. */
  function Into(xs: seq<Crossing>, t: nat): seq<Ask> {
    if xs == [] then []
    else
      var x := xs[|xs| - 1];
      Into(xs[..|xs| - 1], t) + if x.to == t then [Ask(x.from, x.ty)] else []
  }

  function Last(prev: Ask, asks: seq<Ask>): Ask { if asks == [] then prev else asks[|asks| - 1] }

  /** `asks` without those that repeat the one before, the first being compared with `prev`. */
  function Unstutter(prev: Ask, asks: seq<Ask>): seq<Ask> {
    if asks == [] then []
    else
      var init, a := asks[..|asks| - 1], asks[|asks| - 1];
      Unstutter(prev, init) + if a == Last(prev, init) then [] else [a]
  }

  predicate Shows(s: State, t: nat, a: Ask)
    requires t in s.nodes
  {
    a.from in s.nodes && ShouldRecord(s.policy, a.ty, s.nodes[a.from], s.nodes[t])
  }

  /** The asks that the filters let through. */
  function Shown(s: State, t: nat, asks: seq<Ask>): seq<Ask>
    requires t in s.nodes
  {
    if asks == [] then []
    else Shown(s, t, asks[..|asks| - 1]) + if Shows(s, t, asks[|asks| - 1]) then [asks[|asks| - 1]] else []
  }

  function Memory(s: State, t: nat): Ask
    requires t in s.nodes
  {
    Ask(s.nodes[t].memo.previousId, s.nodes[t].memo.previousType)
  }

  lemma IntoAppend(xs: seq<Crossing>, x: Crossing, t: nat)
    ensures Into(xs + [x], t) == Into(xs, t) + if x.to == t then [Ask(x.from, x.ty)] else []
  {
    assert (xs + [x])[..|xs|] == xs;
  }

  lemma ShownAppend(s: State, t: nat, asks: seq<Ask>, a: Ask)
    requires t in s.nodes
    ensures Shown(s, t, asks + [a]) == Shown(s, t, asks) + if Shows(s, t, a) then [a] else []
  {
    assert (asks + [a])[..|asks|] == asks;
  }

  lemma UnstutterAppend(prev: Ask, asks: seq<Ask>, a: Ask)
    ensures Unstutter(prev, asks + [a]) == Unstutter(prev, asks) + if a == Last(prev, asks) then [] else [a]
  {
    assert (asks + [a])[..|asks|] == asks;
  }

  /** Filters depend on what recording leaves alone. */
  lemma ShowsStable(s: State, s': State, t: nat, a: Ask)
    requires t in s.nodes && Stable(s, s')
    ensures Shows(s, t, a) == Shows(s', t, a)
  {
  }

  // ---------- One call ----------

  lemma VersionCrossings(s: State, ty: Word, f: nat, t: nat)
    requires WellFormed(s) && Distinct(s, f, t)
    ensures var s1 := UpdateVersion(Remember(s, ty, f, t), ty, t);
            Stable(s, s1) && CrossingsOf(s1.log) == CrossingsOf(s.log)
  {
    var s0 := Remember(s, ty, f, t);
    FrameWellFormed(s, s0);
    UpdateVersionAlike(s0, ty, t);
  }

  lemma RelationCrossings(s: State, ty: Word, f: nat, t: nat)
    requires WellFormed(s) && Distinct(s, f, t)
    ensures CrossingsOf(RecordRelation(s, ty, f, t).log) ==
            CrossingsOf(s.log) +
            if Repeats(s.policy, ty, f, s.nodes[t]) || !Shows(s, t, Ask(f, ty)) then [] else [Crossing(ty, f, t)]
  {
    if !Repeats(s.policy, ty, f, s.nodes[t]) {
      VersionCrossings(s, ty, f, t);
      var s1 := UpdateVersion(Remember(s, ty, f, t), ty, t);
      LinkCrossings(s1, ty, f, t);
      ShowsStable(s, s1, t, Ask(f, ty));
    }
  }

  lemma RelationMemory(s: State, ty: Word, f: nat, t: nat, o: nat)
    requires WellFormed(s) && Distinct(s, f, t) && o in s.nodes
    ensures Memory(RecordRelation(s, ty, f, t), o) ==
            if s.policy.compressEdge && o == t then Ask(f, ty) else Memory(s, o)
  {
    var s0 := Remember(s, ty, f, t);
    FrameWellFormed(s, s0);
    UpdateVersionAlike(s0, ty, t);
    var s1 := UpdateVersion(s0, ty, t);
    assert Peers(s0.nodes[o], s1.nodes[o]);
    LinkMemory(s1, ty, f, t, o);
  }

  lemma LinkMemory(s: State, ty: Word, f: nat, t: nat, o: nat)
    requires Distinct(s, f, t) && o in s.nodes
    ensures Link(s, ty, f, t).nodes[o].memo == s.nodes[o].memo
  {
  }

  // ---------- Whole runs ----------

  lemma {:induction false} DoAllWellFormed(s: State, calls: seq<Call>)
    requires WellFormed(s) && CallsLive(s, calls) && Relations(calls)
    ensures WellFormed(DoAll(s, calls))
    decreases |calls|
  {
    if calls != [] {
      var init, c := calls[..|calls| - 1], calls[|calls| - 1];
      DoAllWellFormed(s, init);
      RecordRelationWellFormed(DoAll(s, init), c.ty, c.from, c.to);
    }
  }

  function More(asks: seq<Ask>, c: Call, t: nat): seq<Ask>
    requires c.Relate?
  {
    if c.to == t then asks + [Ask(c.from, c.ty)] else asks
  }

  /** What the call adds to what has been emitted into `t`. */
  lemma CallInto(s: State, c: Call, t: nat)
    requires WellFormed(s) && t in s.nodes && c.Relate? && Distinct(s, c.from, c.to)
    ensures Into(CrossingsOf(RecordRelation(s, c.ty, c.from, c.to).log), t) ==
            Into(CrossingsOf(s.log), t) +
            if c.to == t && !Repeats(s.policy, c.ty, c.from, s.nodes[t]) && Shows(s, t, Ask(c.from, c.ty))
            then [Ask(c.from, c.ty)] else []
  {
    RelationCrossings(s, c.ty, c.from, c.to);
    IntoMore(CrossingsOf(s.log), CrossingsOf(RecordRelation(s, c.ty, c.from, c.to).log),
             Repeats(s.policy, c.ty, c.from, s.nodes[c.to]) || !Shows(s, c.to, Ask(c.from, c.ty)),
             Crossing(c.ty, c.from, c.to), t);
  }

  lemma IntoMore(xs: seq<Crossing>, ys: seq<Crossing>, dropped: bool, x: Crossing, t: nat)
    requires ys == xs + if dropped then [] else [x]
    ensures Into(ys, t) == Into(xs, t) + if x.to == t && !dropped then [Ask(x.from, x.ty)] else []
  {
    IntoAppend(xs, x, t);
    assert xs + [] == xs;
  }

  /** Emitting `a` unless it repeats the last one or is filtered keeps up with the asks. */
  lemma CompressedAsk(s: State, t: nat, base: seq<Ask>, prev: Ask, asks: seq<Ask>, a: Ask)
    requires t in s.nodes
    ensures base + Shown(s, t, Unstutter(prev, asks)) + (if a != Last(prev, asks) && Shows(s, t, a) then [a] else []) ==
            base + Shown(s, t, Unstutter(prev, asks + [a]))
    ensures Last(prev, asks + [a]) == a
  {
    UnstutterAppend(prev, asks, a);
    ShownAppend(s, t, Unstutter(prev, asks), a);
    assert Unstutter(prev, asks) + [] == Unstutter(prev, asks);
  }

  lemma CompressedCall(s: State, s1: State, c: Call, t: nat, base: seq<Ask>, prev: Ask, asks: seq<Ask>)
    requires WellFormed(s1) && Stable(s, s1) && s.policy.compressEdge && t in s.nodes && c.Relate?
             && Distinct(s1, c.from, c.to)
    requires Into(CrossingsOf(s1.log), t) == base + Shown(s, t, Unstutter(prev, asks))
             && Memory(s1, t) == Last(prev, asks)
    ensures var s2 := RecordRelation(s1, c.ty, c.from, c.to);
            && Into(CrossingsOf(s2.log), t) == base + Shown(s, t, Unstutter(prev, More(asks, c, t)))
            && Memory(s2, t) == Last(prev, More(asks, c, t))
  {
    CallInto(s1, c, t);
    RelationMemory(s1, c.ty, c.from, c.to, t);
    ShowsStable(s, s1, t, Ask(c.from, c.ty));
    CompressedAsk(s, t, base, prev, asks, Ask(c.from, c.ty));
  }

  lemma UncompressedCall(s: State, s1: State, c: Call, t: nat, base: seq<Ask>, asks: seq<Ask>)
    requires WellFormed(s1) && Stable(s, s1) && !s.policy.compressEdge && t in s.nodes && c.Relate?
             && Distinct(s1, c.from, c.to)
    requires Into(CrossingsOf(s1.log), t) == base + Shown(s, t, asks)
    ensures Into(CrossingsOf(RecordRelation(s1, c.ty, c.from, c.to).log), t) == base + Shown(s, t, More(asks, c, t))
  {
    CallInto(s1, c, t);
    ShowsStable(s, s1, t, Ask(c.from, c.ty));
    UncompressedAsk(s, t, base, asks, Ask(c.from, c.ty));
  }

  lemma UncompressedAsk(s: State, t: nat, base: seq<Ask>, asks: seq<Ask>, a: Ask)
    requires t in s.nodes
    ensures base + Shown(s, t, asks) + (if Shows(s, t, a) then [a] else []) == base + Shown(s, t, asks + [a])
  {
    ShownAppend(s, t, asks, a);
  }

  /**
   With edge compression, what is emitted into an object is what was asked
   for into it, less the adjacent repeats, as far as the filters let it through.
   */
  lemma {:induction false} CompressedIsUnstuttered(s: State, calls: seq<Call>, t: nat)
    requires WellFormed(s) && s.policy.compressEdge && t in s.nodes
    requires Relations(calls) && CallsOk(Any, s, calls) && CallsLive(s, calls)
    ensures var s' := DoAll(s, calls);
            && Into(CrossingsOf(s'.log), t) ==
                 Into(CrossingsOf(s.log), t) + Shown(s, t, Unstutter(Memory(s, t), AsksFor(calls, t)))
            && Memory(s', t) == Last(Memory(s, t), AsksFor(calls, t))
    decreases |calls|
  {
    if calls != [] {
      var init, c := calls[..|calls| - 1], calls[|calls| - 1];
      CompressedIsUnstuttered(s, init, t);
      DoAllWellFormed(s, init);
      assert CallOk(Any, s, c);
      CompressedCall(s, DoAll(s, init), c, t, Into(CrossingsOf(s.log), t), Memory(s, t), AsksFor(init, t));
      assert AsksFor(calls, t) == More(AsksFor(init, t), c, t);
    }
  }

  /** Without it, everything asked for is emitted, as far as the filters let it through. */
  lemma {:induction false} UncompressedIsAll(s: State, calls: seq<Call>, t: nat)
    requires WellFormed(s) && !s.policy.compressEdge && t in s.nodes
    requires Relations(calls) && CallsOk(Any, s, calls) && CallsLive(s, calls)
    ensures Into(CrossingsOf(DoAll(s, calls).log), t) == Into(CrossingsOf(s.log), t) + Shown(s, t, AsksFor(calls, t))
    decreases |calls|
  {
    if calls != [] {
      var init, c := calls[..|calls| - 1], calls[|calls| - 1];
      UncompressedIsAll(s, init, t);
      DoAllWellFormed(s, init);
      assert CallOk(Any, s, c);
      UncompressedCall(s, DoAll(s, init), c, t, Into(CrossingsOf(s.log), t), AsksFor(init, t));
      assert AsksFor(calls, t) == More(AsksFor(init, t), c, t);
    }
  }

  // ---------- The same relations as a set ----------

  /** Every `a` among the asks belongs to a first run of repeats of `prev`. */
  ghost predicate Swallowed(prev: Ask, asks: seq<Ask>, a: Ask) {
    a == prev && forall i, j :: 0 <= j < i < |asks| && asks[i] == a ==> asks[j] == a
  }

  lemma {:induction false} UnstutterKeeps(prev: Ask, asks: seq<Ask>, a: Ask)
    ensures a in Unstutter(prev, asks) <==> a in asks && !Swallowed(prev, asks, a)
    decreases |asks|
  {
    if asks != [] {
      var init, l := asks[..|asks| - 1], asks[|asks| - 1];
      UnstutterKeeps(prev, init, a);
      assert asks == init + [l];
      assert forall i :: 0 <= i < |init| ==> asks[i] == init[i];
      if l == a {
        SwallowedMore(prev, init, a);
      } else {
        assert Swallowed(prev, asks, a) <==> Swallowed(prev, init, a);
      }
    }
  }

  lemma SwallowedMore(prev: Ask, init: seq<Ask>, a: Ask)
    ensures Swallowed(prev, init + [a], a) <==>
            Last(prev, init) == a && Swallowed(prev, init, a)
  {
    var asks := init + [a];
    if Swallowed(prev, asks, a) {
      if init != [] { assert asks[|init|] == a && asks[|init| - 1] == a; }
      assert forall i :: 0 <= i < |init| ==> asks[i] == init[i];
    }
    if Last(prev, init) == a && Swallowed(prev, init, a) {
      forall i, j | 0 <= j < i < |asks| && asks[i] == a ensures asks[j] == a {
        if j < |init| - 1 { assert init[|init| - 1] == a && init[j] == a; }
      }
    }
  }

  lemma {:induction false} ShownIff(s: State, t: nat, asks: seq<Ask>, a: Ask)
    requires t in s.nodes
    ensures a in Shown(s, t, asks) <==> a in asks && Shows(s, t, a)
    decreases |asks|
  {
    if asks != [] { ShownIff(s, t, asks[..|asks| - 1], a); }
  }

  lemma {:induction false} IntoIff(xs: seq<Crossing>, x: Crossing)
    ensures x in xs <==> Ask(x.from, x.ty) in Into(xs, x.to)
    decreases |xs|
  {
    if xs != [] { IntoIff(xs[..|xs| - 1], x); }
  }

  /** The same state under a policy that compresses edges, or does not. */
  function Dropping(s: State, on: bool): State { s.(policy := s.policy.(compressEdge := on)) }

  lemma DroppingOk(s: State, calls: seq<Call>, on: bool)
    requires WellFormed(s) && CallsOk(Any, s, calls) && CallsLive(s, calls)
    ensures var u := Dropping(s, on); WellFormed(u) && CallsOk(Any, u, calls) && CallsLive(u, calls)
  {
    var u := Dropping(s, on);
    forall c | c in calls ensures CallOk(Any, u, c) && CallLive(u, c) { assert CallOk(Any, s, c) && CallLive(s, c); }
  }

  lemma DroppingShows(s: State, t: nat, a: Ask)
    requires t in s.nodes
    ensures Shows(Dropping(s, true), t, a) == Shows(s, t, a) == Shows(Dropping(s, false), t, a)
  {
  }

  /**
   The relation is lost: it is let through and asked for, but only as a first
   run of repeats of what its destination remembers, and it is not in the log
   yet.
   */
  ghost predicate Lost(s: State, calls: seq<Call>, x: Crossing)
    requires x.to in s.nodes
  {
    var a, asks := Ask(x.from, x.ty), AsksFor(calls, x.to);
    x !in CrossingsOf(s.log) && Shows(s, x.to, a) && a in asks && Swallowed(Memory(s, x.to), asks, a)
  }

  /** As sets, the relations emitted with and without compression differ by the lost ones exactly. */
  lemma EdgeCompressionKeepsRelations(s: State, calls: seq<Call>, x: Crossing)
    requires WellFormed(s) && x.to in s.nodes
    requires Relations(calls) && CallsOk(Any, s, calls) && CallsLive(s, calls)
    ensures CallsLive(Dropping(s, true), calls) && CallsLive(Dropping(s, false), calls)
    ensures x in CrossingsOf(DoAll(Dropping(s, true), calls).log) <==>
            x in CrossingsOf(DoAll(Dropping(s, false), calls).log) && !Lost(s, calls, x)
  {
    var s1, s2, t, a := Dropping(s, true), Dropping(s, false), x.to, Ask(x.from, x.ty);
    var asks := AsksFor(calls, t);
    DroppingOk(s, calls, true);
    DroppingOk(s, calls, false);
    CompressedIff(s1, calls, x);
    UncompressedIff(s2, calls, x);
    DroppingShows(s, t, a);
    ShownIff(s1, t, Unstutter(Memory(s1, t), asks), a);
    ShownIff(s2, t, asks, a);
    UnstutterKeeps(Memory(s1, t), asks, a);
  }

  /** No object remembers a relation yet, as after boot. */
  predicate Forgetful(s: State) { forall o :: o in s.nodes ==> !IsRelation(s.nodes[o].memo.previousType) }

  lemma {:induction false} AskIsCall(calls: seq<Call>, t: nat, a: Ask)
    requires a in AsksFor(calls, t)
    ensures Relate(a.ty, a.from, t) in calls
    decreases |calls|
  {
    var init := calls[..|calls| - 1];
    if a in AsksFor(init, t) { AskIsCall(init, t, a); }
  }

  /** From a state that remembers nothing, no relation is lost. */
  lemma FreshLosesNothing(s: State, calls: seq<Call>, x: Crossing)
    requires Forgetful(s) && x.to in s.nodes && CallsOk(Any, s, calls)
    ensures !Lost(s, calls, x)
  {
    var a := Ask(x.from, x.ty);
    if a in AsksFor(calls, x.to) {
      AskIsCall(calls, x.to, a);
      assert CallOk(Any, s, Relate(a.ty, a.from, x.to));
    }
  }

  lemma CompressedIff(s: State, calls: seq<Call>, x: Crossing)
    requires WellFormed(s) && s.policy.compressEdge && x.to in s.nodes
    requires Relations(calls) && CallsOk(Any, s, calls) && CallsLive(s, calls)
    ensures var a := Ask(x.from, x.ty);
            x in CrossingsOf(DoAll(s, calls).log) <==>
            x in CrossingsOf(s.log) || a in Shown(s, x.to, Unstutter(Memory(s, x.to), AsksFor(calls, x.to)))
  {
    CompressedIsUnstuttered(s, calls, x.to);
    IntoIff(CrossingsOf(DoAll(s, calls).log), x);
    IntoIff(CrossingsOf(s.log), x);
  }

  lemma UncompressedIff(s: State, calls: seq<Call>, x: Crossing)
    requires WellFormed(s) && !s.policy.compressEdge && x.to in s.nodes
    requires Relations(calls) && CallsOk(Any, s, calls) && CallsLive(s, calls)
    ensures var a := Ask(x.from, x.ty);
            x in CrossingsOf(DoAll(s, calls).log) <==>
                x in CrossingsOf(s.log) || a in Shown(s, x.to, AsksFor(calls, x.to))
  {
    UncompressedIsAll(s, calls, x.to);
    IntoIff(CrossingsOf(DoAll(s, calls).log), x);
    IntoIff(CrossingsOf(s.log), x);
  }
}
