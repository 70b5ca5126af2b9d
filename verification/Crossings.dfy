/**
 Crossings are the relations between two different objects, that is, all but
 those from one version of an object to the next. Which crossing reaches which
 depends on the order of the crossings alone, not on the versions between them.
 */
module Crossings {
  import opened Graphs

  /** A crossing without its versions. */
  datatype Pair = Pair(note: bool, src: nat, dst: nat)

  predicate Crosses(a: Arc) { a.src.id != a.dst.id }

  function PairOf(a: Arc): Pair { Pair(a.note, a.src.id, a.dst.id) }

  function Pairs(arcs: seq<Arc>): seq<Pair> {
    if arcs == [] then []
    else
      var last := arcs[|arcs| - 1];
      Pairs(arcs[..|arcs| - 1]) + if Crosses(last) then [PairOf(last)] else []
  }

  /** How many crossings come before position `i`. */
  function Rank(arcs: seq<Arc>, i: nat): nat
    requires i <= |arcs|
  {
    |Pairs(arcs[..i])|
  }

  lemma {:induction false} PairsPrefix(arcs: seq<Arc>, i: nat)
    requires i <= |arcs|
    ensures Pairs(arcs[..i]) <= Pairs(arcs)
    decreases |arcs|
  {
    if i < |arcs| {
      var init := arcs[..|arcs| - 1];
      PairsPrefix(init, i);
      assert init[..i] == arcs[..i];
    } else {
      assert arcs[..i] == arcs;
    }
  }

  /** A crossing is found at its rank. */
  lemma AtRank(arcs: seq<Arc>, i: nat)
    requires i < |arcs| && Crosses(arcs[i])
    ensures Rank(arcs, i) < |Pairs(arcs)| && Pairs(arcs)[Rank(arcs, i)] == PairOf(arcs[i])
  {
    assert arcs[..i + 1][..i] == arcs[..i];
    PairsPrefix(arcs, i + 1);
  }

  lemma RankGrows(arcs: seq<Arc>, i: nat, j: nat)
    requires i < j <= |arcs| && Crosses(arcs[i])
    ensures Rank(arcs, i) < Rank(arcs, j)
  {
    var pre := arcs[..j];
    AtRank(pre, i);
    assert pre[..i] == arcs[..i];
  }

  lemma {:induction false} Find(arcs: seq<Arc>, k: nat) returns (i: nat)
    requires k < |Pairs(arcs)|
    ensures i < |arcs| && Crosses(arcs[i]) && Rank(arcs, i) == k
    decreases |arcs|
  {
    var init, last := arcs[..|arcs| - 1], arcs[|arcs| - 1];
    if k < |Pairs(init)| {
      i := Find(init, k);
      assert init[..i] == arcs[..i];
    } else {
      i := |arcs| - 1;
    }
  }

  lemma RankOrder(arcs: seq<Arc>, i: nat, j: nat)
    requires i < |arcs| && j < |arcs| && Crosses(arcs[i]) && Crosses(arcs[j]) && Rank(arcs, i) < Rank(arcs, j)
    ensures i < j
  {
    if j < i {
      RankGrows(arcs, j, i);
    }
  }

  // ---------- Chains of crossings ----------

  predicate PairChain(pairs: seq<Pair>, c: seq<nat>) {
    && (forall k :: 0 <= k < |c| ==> c[k] < |pairs|)
    && forall k :: 0 <= k < |c| - 1 ==> c[k] < c[k + 1] && pairs[c[k]].dst == pairs[c[k + 1]].src
  }

  ghost predicate PairCauses(pairs: seq<Pair>, k: nat, l: nat) {
    exists c :: PairChain(pairs, c) && |c| >= 2 && c[0] == k && c[|c| - 1] == l
  }

  lemma PairChainCons(pairs: seq<Pair>, k: nat, c: seq<nat>)
    requires PairChain(pairs, c) && c != [] && k < c[0] && pairs[k].dst == pairs[c[0]].src
    ensures PairChain(pairs, [k] + c)
  {
    var d := [k] + c;
    forall i | 0 <= i < |d| - 1 ensures d[i] < d[i + 1] && pairs[d[i]].dst == pairs[d[i + 1]].src {
      if i > 0 { assert d[i] == c[i - 1] && d[i + 1] == c[i]; }
    }
  }

  lemma ChainTail(arcs: seq<Arc>, c: seq<nat>)
    requires Chain(arcs, c) && |c| >= 2
    ensures Chain(arcs, c[1..]) && c[0] < c[1] && arcs[c[0]].dst.id == arcs[c[1]].src.id
  {
    var d := c[1..];
    forall k | 0 <= k < |d| - 1 ensures d[k] < d[k + 1] && arcs[d[k]].dst.id == arcs[d[k + 1]].src.id {
      assert d[k] == c[k + 1] && d[k + 1] == c[k + 2];
    }
  }

  /** Dropping the relations between versions from a chain leaves a chain of crossings. */
  lemma {:induction false} Thin(arcs: seq<Arc>, c: seq<nat>) returns (d: seq<nat>)
    requires Chain(arcs, c) && c != [] && Crosses(arcs[c[0]]) && Crosses(arcs[c[|c| - 1]])
    ensures PairChain(Pairs(arcs), d) && d != []
    ensures d[0] == Rank(arcs, c[0]) && d[|d| - 1] == Rank(arcs, c[|c| - 1])
    decreases |c|
  {
    AtRank(arcs, c[0]);
    if |c| == 1 {
      d := [Rank(arcs, c[0])];
    } else {
      ChainTail(arcs, c);
      var rest := c[1..];
      if Crosses(arcs[c[1]]) {
        d := Thin(arcs, rest);
        RankGrows(arcs, c[0], c[1]);
        AtRank(arcs, c[1]);
        PairChainCons(Pairs(arcs), Rank(arcs, c[0]), d);
        d := [Rank(arcs, c[0])] + d;
      } else {
        ChainTail(arcs, rest);
        assert rest[0] == c[1] && rest[1] == c[2];
        var skip := rest[1..];
        ChainCons(arcs, c[0], skip);
        d := Thin(arcs, [c[0]] + skip);
      }
    }
  }

  /** A chain of crossings is a chain of relations. */
  lemma {:induction false} Place(arcs: seq<Arc>, d: seq<nat>) returns (c: seq<nat>)
    requires PairChain(Pairs(arcs), d) && d != []
    ensures Chain(arcs, c) && |c| == |d|
    ensures forall k :: 0 <= k < |c| ==> Crosses(arcs[c[k]]) && Rank(arcs, c[k]) == d[k]
    decreases |d|
  {
    var i := Find(arcs, d[0]);
    if |d| == 1 {
      c := [i];
    } else {
      var rest := d[1..];
      forall k | 0 <= k < |rest| - 1
        ensures rest[k] < rest[k + 1] && Pairs(arcs)[rest[k]].dst == Pairs(arcs)[rest[k + 1]].src {
        assert rest[k] == d[k + 1] && rest[k + 1] == d[k + 2];
      }
      c := Place(arcs, rest);
      assert d[0] < d[1] && rest[0] == d[1];
      RankOrder(arcs, i, c[0]);
      AtRank(arcs, i);
      AtRank(arcs, c[0]);
      ChainCons(arcs, i, c);
      var e := [i] + c;
      forall k | 0 <= k < |e| ensures Crosses(arcs[e[k]]) && Rank(arcs, e[k]) == d[k] {
        if k > 0 { assert e[k] == c[k - 1] && d[k] == rest[k - 1]; }
      }
      c := e;
    }
  }

  lemma SameRank(arcs: seq<Arc>, i: nat, j: nat)
    requires i < |arcs| && j < |arcs| && Crosses(arcs[i]) && Crosses(arcs[j]) && Rank(arcs, i) == Rank(arcs, j)
    ensures i == j
  {
    if i < j { RankGrows(arcs, i, j); } else if j < i { RankGrows(arcs, j, i); }
  }

  lemma CausesByRank(arcs: seq<Arc>, i: nat, j: nat)
    requires i < |arcs| && j < |arcs| && Crosses(arcs[i]) && Crosses(arcs[j])
    ensures Causes(arcs, i, j) <==> PairCauses(Pairs(arcs), Rank(arcs, i), Rank(arcs, j))
  {
    if Causes(arcs, i, j) {
      var c :| Chain(arcs, c) && |c| >= 2 && c[0] == i && c[|c| - 1] == j;
      var d := Thin(arcs, c);
      ChainSpan(arcs, c);
      RankGrows(arcs, i, j);
      assert |d| >= 2;
    }
    if PairCauses(Pairs(arcs), Rank(arcs, i), Rank(arcs, j)) {
      var d :| PairChain(Pairs(arcs), d) && |d| >= 2 && d[0] == Rank(arcs, i) && d[|d| - 1] == Rank(arcs, j);
      var c := Place(arcs, d);
      SameRank(arcs, c[0], i);
      SameRank(arcs, c[|c| - 1], j);
    }
  }

  lemma {:induction false} ChainSpan(arcs: seq<Arc>, c: seq<nat>)
    requires Chain(arcs, c) && |c| >= 2
    ensures c[0] < c[|c| - 1]
    decreases |c|
  {
    ChainTail(arcs, c);
    if |c| > 2 { ChainSpan(arcs, c[1..]); }
  }

  /** Two graphs with the same crossings, each keeping its versions traced, agree on what reaches what. */
  lemma SameReachability(g: Graph, g': Graph, hidden: set<nat>, i: nat, j: nat, i': nat, j': nat)
    requires Inv(g) && Traced(g, hidden) && Inv(g') && Traced(g', hidden) && Pairs(g.arcs) == Pairs(g'.arcs)
    requires i < |g.arcs| && j < |g.arcs| && Crosses(g.arcs[i]) && Crosses(g.arcs[j]) && !g.arcs[i].note
    requires i' < |g'.arcs| && j' < |g'.arcs| && Crosses(g'.arcs[i']) && Crosses(g'.arcs[j'])
    requires Rank(g.arcs, i) == Rank(g'.arcs, i') && Rank(g.arcs, j) == Rank(g'.arcs, j')
    ensures Reaches(g.arcs, g.arcs[i].dst, g.arcs[j].src) <==> Reaches(g'.arcs, g'.arcs[i'].dst, g'.arcs[j'].src)
  {
    AtRank(g.arcs, i);
    AtRank(g'.arcs, i');
    ReachabilityIsCausality(g, hidden, i, j);
    ReachabilityIsCausality(g', hidden, i', j');
    CausesByRank(g.arcs, i, j);
    CausesByRank(g'.arcs, i', j');
  }
}
