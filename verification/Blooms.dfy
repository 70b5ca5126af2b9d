/**
 Taint is kept in a Bloom filter of 256 bits, an array of 32 bytes. The
 filter stands for the set of its bit positions: adding a label inserts the
 label's seven hash positions, merging is union, matching is inclusion.
 */
module Blooms {
  const HASHES: nat := 7
  const BITS: nat := 256
  const BYTES: nat := 32
  const TWO_64: nat := 0x1_0000_0000_0000_0000
  const GOLDEN_RATIO_64: nat := 0x61C8_8646_80B5_83EB

  /** The top byte of the 64-bit product. */
  function Hash(val: nat): (h: nat)
    ensures h < BITS
  {
    (val * GOLDEN_RATIO_64) % TWO_64 / 0x100_0000_0000_0000
  }

  function Position(val: nat, i: nat): (p: nat)
    ensures p < BITS
  {
    Hash((val + i) % TWO_64) % BITS
  }

  ghost function Positions(val: nat): set<nat> { set i | 0 <= i < HASHES :: Position(val, i) }

  lemma HashIs(val: nat, q: nat, byte: nat, rest: nat)
    requires val * GOLDEN_RATIO_64 == q * TWO_64 + byte * 0x100_0000_0000_0000 + rest
    requires byte < BITS && rest < 0x100_0000_0000_0000
    ensures Hash(val) == byte
  {
    var x := byte * 0x100_0000_0000_0000 + rest;
    LowWord(val * GOLDEN_RATIO_64, q, x);
    TopByte(x, byte, rest);
  }

  lemma LowWord(n: nat, q: nat, x: nat)
    requires n == q * TWO_64 + x && x < TWO_64
    ensures n % TWO_64 == x
  {
  }

  lemma TopByte(x: nat, byte: nat, rest: nat)
    requires x == byte * 0x100_0000_0000_0000 + rest && rest < 0x100_0000_0000_0000
    ensures x / 0x100_0000_0000_0000 == byte
  {
  }

  /** Labels that are powers of 256 hash to the bytes of the constant. */
  lemma HashReadsTheConstant()
    ensures Hash(1) == 0x61 && Hash(0x100) == 0xC8 && Hash(0x1_0000) == 0x86 && Hash(0x100_0000) == 0x46
    ensures Hash(0x1_0000_0000) == 0x80 && Hash(0x100_0000_0000) == 0xB5
    ensures Hash(0x1_0000_0000_0000) == 0x83 && Hash(0x100_0000_0000_0000) == 0xEB
  {
    HashIs(1, 0, 0x61, 0xC8_8646_80B5_83EB);
    HashIs(0x100, 0x61, 0xC8, 0x86_4680_B583_EB00);
    HashIs(0x1_0000, 0x61C8, 0x86, 0x46_80B5_83EB_0000);
    HashIs(0x100_0000, 0x61_C886, 0x46, 0x80_B583_EB00_0000);
    HashIs(0x1_0000_0000, 0x61C8_8646, 0x80, 0xB5_83EB_0000_0000);
    HashIs(0x100_0000_0000, 0x61_C886_4680, 0xB5, 0x83_EB00_0000_0000);
    HashIs(0x1_0000_0000_0000, 0x61C8_8646_80B5, 0x83, 0xEB_0000_0000_0000);
    HashIs(0x100_0000_0000_0000, 0x61_C886_4680_B583, 0xEB, 0);
  }

  /** The positions of label 0: the top bytes of the first seven multiples of the constant. */
  lemma PositionsOfZero()
    ensures Positions(0) == {0, 97, 195, 37, 135, 232, 74}
  {
    assert Position(0, 0) == 0 && Position(0, 1) == 97 && Position(0, 2) == 195 && Position(0, 3) == 37;
    assert Position(0, 4) == 135 && Position(0, 5) == 232 && Position(0, 6) == 74;
  }

  // ---------- Bits of a byte ----------

  /** The byte with bit `i` alone. */
  function OneBit(i: nat): bv8
    requires i < 8
  {
    (1 as bv8) << i
  }

  predicate HasBit(x: bv8, i: nat)
    requires i < 8
  {
    (x & OneBit(i)) != 0
  }

  lemma OneBitTable()
    ensures OneBit(0) == 0x01 && OneBit(1) == 0x02 && OneBit(2) == 0x04 && OneBit(3) == 0x08
    ensures OneBit(4) == 0x10 && OneBit(5) == 0x20 && OneBit(6) == 0x40 && OneBit(7) == 0x80
  {
  }

  lemma OneBitApart(i: nat, j: nat)
    requires i < 8 && j < 8
    ensures OneBit(i) & OneBit(j) == if i == j then OneBit(i) else 0
    ensures OneBit(i) != 0
  {
    OneBitTable();
  }

  lemma OrBit(x: bv8, y: bv8, j: nat)
    requires j < 8
    ensures HasBit(x | y, j) <==> HasBit(x, j) || HasBit(y, j)
  {
    var m := OneBit(j);
    assert (x | y) & m == (x & m) | (y & m);
  }

  lemma SetBit(x: bv8, i: nat, j: nat)
    requires i < 8 && j < 8
    ensures HasBit(x | OneBit(i), j) <==> HasBit(x, j) || i == j
  {
    OrBit(x, OneBit(i), j);
    OneBitApart(i, j);
  }

  /** Every bit of `t` is one of `s`. */
  predicate Within(t: bv8, s: bv8) { (s & t) == t }

  lemma ByteIncluded(s: bv8, t: bv8)
    ensures Within(t, s) <==> forall j :: 0 <= j < 8 && HasBit(t, j) ==> HasBit(s, j)
  {
    OneBitTable();
    if (s & t) == t {
      forall j | 0 <= j < 8 && HasBit(t, j) ensures HasBit(s, j) {
        var m := OneBit(j);
        assert (s & t) & m == t & m;
        assert s & m == 0 ==> (s & t) & m == 0;
      }
    }
    if forall j :: 0 <= j < 8 && HasBit(t, j) ==> HasBit(s, j) {
      assert HasBit(t, 0) ==> HasBit(s, 0);
      assert HasBit(t, 1) ==> HasBit(s, 1);
      assert HasBit(t, 2) ==> HasBit(s, 2);
      assert HasBit(t, 3) ==> HasBit(s, 3);
      assert HasBit(t, 4) ==> HasBit(s, 4);
      assert HasBit(t, 5) ==> HasBit(s, 5);
      assert HasBit(t, 6) ==> HasBit(s, 6);
      assert HasBit(t, 7) ==> HasBit(s, 7);
    }
  }

  lemma ByteEmpty(x: bv8)
    ensures x == 0 <==> forall j :: 0 <= j < 8 ==> !HasBit(x, j)
  {
    ByteIncluded(0, x);
  }

  // ---------- The filter as a set of positions ----------

  ghost predicate Holds(b: seq<bv8>, p: nat)
    requires |b| == BYTES && p < BITS
  {
    HasBit(b[p / 8], p % 8)
  }

  ghost function Bits(b: seq<bv8>): set<nat>
    requires |b| == BYTES
  {
    set p | 0 <= p < BITS && Holds(b, p)
  }

  lemma AtByte(i: nat, j: nat)
    requires i < BYTES && j < 8
    ensures i * 8 + j < BITS && (i * 8 + j) / 8 == i && (i * 8 + j) % 8 == j
  {
  }

  lemma BitsSet(b: seq<bv8>, b': seq<bv8>, p: nat)
    requires |b| == BYTES && p < BITS && b' == b[p / 8 := b[p / 8] | OneBit(p % 8)]
    ensures Bits(b') == Bits(b) + {p}
  {
    forall q: nat | q < BITS ensures Holds(b', q) <==> Holds(b, q) || q == p {
      if q / 8 == p / 8 { SetBit(b[p / 8], p % 8, q % 8); }
    }
  }

  lemma Included(s: seq<bv8>, t: seq<bv8>)
    requires |s| == |t| == BYTES
    ensures Bits(t) <= Bits(s) <==> forall i :: 0 <= i < BYTES ==> Within(t[i], s[i])
  {
    if Bits(t) <= Bits(s) {
      forall i | 0 <= i < BYTES ensures Within(t[i], s[i]) {
        forall j | 0 <= j < 8 && HasBit(t[i], j) ensures HasBit(s[i], j) {
          AtByte(i, j);
          assert i * 8 + j in Bits(t);
        }
        ByteIncluded(s[i], t[i]);
      }
    }
    if forall i :: 0 <= i < BYTES ==> Within(t[i], s[i]) {
      forall p | p in Bits(t) ensures p in Bits(s) {
        ByteIncluded(s[p / 8], t[p / 8]);
      }
    }
  }

  /** Filters with the same bits are the same filter. */
  lemma BitsAreTheFilter(s: seq<bv8>, t: seq<bv8>)
    requires |s| == |t| == BYTES && Bits(s) == Bits(t)
    ensures s == t
  {
    Included(s, t);
    Included(t, s);
    forall i | 0 <= i < BYTES ensures s[i] == t[i] {
      assert Within(s[i], t[i]) && Within(t[i], s[i]);
    }
  }

  lemma Merged(d: seq<bv8>, s: seq<bv8>, m: seq<bv8>)
    requires |d| == |s| == |m| == BYTES && forall i :: 0 <= i < BYTES ==> m[i] == d[i] | s[i]
    ensures Bits(m) == Bits(d) + Bits(s)
  {
    forall p: nat | p < BITS ensures Holds(m, p) <==> Holds(d, p) || Holds(s, p) {
      OrBit(d[p / 8], s[p / 8], p % 8);
    }
  }

  // ---------- The operations on the array ----------

  method Add(bloom: array<bv8>, val: nat)
    requires bloom.Length == BYTES
    modifies bloom
    ensures Bits(bloom[..]) == Bits(old(bloom[..])) + Positions(val)
  {
    ghost var done: set<nat> := {};
    for i := 0 to HASHES
      invariant done == set k | 0 <= k < i :: Position(val, k)
      invariant Bits(bloom[..]) == Bits(old(bloom[..])) + done
    {
      var pos := Position(val, i);
      ghost var b := bloom[..];
      bloom[pos / 8] := bloom[pos / 8] | OneBit(pos % 8);
      BitsSet(b, bloom[..], pos);
      done := done + {pos};
    }
  }

  /** Whether everything in `set_` is in `super`. */
  method Match(super: array<bv8>, set_: array<bv8>) returns (r: bool)
    requires super.Length == BYTES && set_.Length == BYTES
    ensures r <==> Bits(set_[..]) <= Bits(super[..])
  {
    Included(super[..], set_[..]);
    for i := 0 to BYTES
      invariant forall k :: 0 <= k < i ==> Within(set_[k], super[k])
    {
      if !Within(set_[i], super[i]) {
        assert !Within(set_[..][i], super[..][i]);
        return false;
      }
    }
    return true;
  }

  method In(bloom: array<bv8>, val: nat) returns (r: bool)
    requires bloom.Length == BYTES
    ensures r <==> Positions(val) <= Bits(bloom[..])
  {
    var tmp := new bv8[BYTES](_ => 0);
    NothingSet(tmp[..]);
    Add(tmp, val);
    r := Match(bloom, tmp);
  }

  method Merge(dest: array<bv8>, src: array<bv8>)
    requires dest.Length == BYTES && src.Length == BYTES
    modifies dest
    ensures Bits(dest[..]) == Bits(old(dest[..])) + Bits(old(src[..]))
  {
    for i := 0 to BYTES
      invariant forall k :: 0 <= k < i ==> dest[k] == old(dest[k]) | old(src[k])
      invariant forall k :: i <= k < BYTES ==> dest[k] == old(dest[k]) && src[k] == old(src[k])
    {
      dest[i] := dest[i] | src[i];
    }
    Merged(old(dest[..]), old(src[..]), dest[..]);
  }

  lemma NothingSet(b: seq<bv8>)
    requires |b| == BYTES
    ensures Bits(b) == {} <==> forall i :: 0 <= i < BYTES ==> b[i] == 0
  {
    var zero := seq(BYTES, _ => 0 as bv8);
    forall p: nat | p < BITS ensures !Holds(zero, p) { ByteEmpty(0); }
    Included(zero, b);
    assert Bits(zero) == {};
    forall i | 0 <= i < BYTES ensures Within(b[i], zero[i]) <==> b[i] == 0 {}
  }

  method Empty(bloom: array<bv8>) returns (r: bool)
    requires bloom.Length == BYTES
    ensures r <==> Bits(bloom[..]) == {}
  {
    NothingSet(bloom[..]);
    for i := 0 to BYTES
      invariant forall k :: 0 <= k < i ==> bloom[k] == 0
    {
      if bloom[i] != 0 {
        assert bloom[..][i] != 0;
        return false;
      }
    }
    return true;
  }

  // ---------- Runs of adds and merges ----------

  /** Labels are added to one filter, or one filter is merged into another. */
  datatype Change = Adding(to: nat, tag: nat) | Merging(to: nat, from: nat)

  /** The bits of filter `o` after the changes. */
  ghost function BitsAfter(changes: seq<Change>, o: nat): set<nat>
    decreases |changes|
  {
    if changes == [] then {}
    else
      var init, c := changes[..|changes| - 1], changes[|changes| - 1];
      if c.to != o then BitsAfter(init, o)
      else
        BitsAfter(init, o) +
        match c case Adding(_, tag) => Positions(tag) case Merging(_, from) => BitsAfter(init, from)
  }

  /** The labels that have reached filter `o`, had they been kept as a set. */
  ghost function LabelsAfter(changes: seq<Change>, o: nat): set<nat>
    decreases |changes|
  {
    if changes == [] then {}
    else
      var init, c := changes[..|changes| - 1], changes[|changes| - 1];
      if c.to != o then LabelsAfter(init, o)
      else LabelsAfter(init, o) + match c case Adding(_, tag) => {tag} case Merging(_, from) => LabelsAfter(init, from)
  }

  /** A filter's bits are exactly the positions of the labels that reached it. */
  lemma {:induction false} BitsAreOfLabels(changes: seq<Change>, o: nat, p: nat)
    ensures p in BitsAfter(changes, o) <==> exists l :: l in LabelsAfter(changes, o) && p in Positions(l)
    decreases |changes|
  {
    if changes != [] {
      var init, c := changes[..|changes| - 1], changes[|changes| - 1];
      BitsAreOfLabels(init, o, p);
      if c.to == o && c.Merging? {
        BitsAreOfLabels(init, c.from, p);
      }
      if c.to == o && c.Adding? {
        assert c.tag in LabelsAfter(changes, o);
      }
    }
  }

  /** A label that has reached a filter is always found in it. */
  lemma NoLabelIsMissed(changes: seq<Change>, o: nat, tag: nat)
    requires tag in LabelsAfter(changes, o)
    ensures Positions(tag) <= BitsAfter(changes, o)
  {
    forall p | p in Positions(tag) ensures p in BitsAfter(changes, o) {
      BitsAreOfLabels(changes, o, p);
    }
  }

  /** The filters of a number of nodes, changed one by one. */
  class Filters {
    const filters: seq<array<bv8>>
    ghost var changes: seq<Change>

    /** The arrays hold what the changes come to. */
    ghost predicate Valid()
      reads this, filters
    {
      && (forall o :: 0 <= o < |filters| ==> filters[o].Length == BYTES)
      && (forall o, p :: 0 <= o < p < |filters| ==> filters[o] != filters[p])
      && forall o :: 0 <= o < |filters| ==> Bits(filters[o][..]) == BitsAfter(changes, o)
    }

    constructor (filters: seq<array<bv8>>)
      requires forall o :: 0 <= o < |filters| ==>
               filters[o].Length == BYTES && forall i :: 0 <= i < BYTES ==> filters[o][i] == 0
      requires forall o, p :: 0 <= o < p < |filters| ==> filters[o] != filters[p]
      ensures Valid() && this.filters == filters && changes == []
    {
      this.filters, changes := filters, [];
      new;
      forall o | 0 <= o < |filters| ensures Bits(filters[o][..]) == {} { NothingSet(filters[o][..]); }
    }

    method AddLabel(o: nat, tag: nat)
      requires Valid() && o < |filters|
      modifies this, filters
      ensures Valid() && changes == old(changes) + [Adding(o, tag)]
    {
      Add(filters[o], tag);
      changes := changes + [Adding(o, tag)];
      assert changes[..|changes| - 1] == old(changes);
    }

    method MergeInto(to: nat, from: nat)
      requires Valid() && to < |filters| && from < |filters|
      modifies this, filters
      ensures Valid() && changes == old(changes) + [Merging(to, from)]
    {
      Merge(filters[to], filters[from]);
      changes := changes + [Merging(to, from)];
      assert changes[..|changes| - 1] == old(changes);
    }

    /** A label that has reached a filter is found in it; what is found has all its positions from labels that did. */
    method Contains(o: nat, tag: nat) returns (r: bool)
      requires Valid() && o < |filters|
      ensures tag in LabelsAfter(changes, o) ==> r
      ensures r <==> forall p :: p in Positions(tag) ==> exists l :: l in LabelsAfter(changes, o) && p in Positions(l)
    {
      r := In(filters[o], tag);
      if tag in LabelsAfter(changes, o) { NoLabelIsMissed(changes, o, tag); }
      forall p ensures p in BitsAfter(changes, o) <==> exists l :: l in LabelsAfter(changes, o) && p in Positions(l) {
        if p >= 0 { BitsAreOfLabels(changes, o, p); }
      }
    }
  }

  /** Merging gives the least filter that matches both. */
  lemma MergeIsLeast(d: seq<bv8>, s: seq<bv8>, m: seq<bv8>, upper: seq<bv8>)
    requires |d| == |s| == |m| == |upper| == BYTES && forall i :: 0 <= i < BYTES ==> m[i] == d[i] | s[i]
    ensures Bits(m) <= Bits(upper) <==> Bits(d) <= Bits(upper) && Bits(s) <= Bits(upper)
  {
    Merged(d, s, m);
  }
}
