/**
 The capture targets: lists of (key, op) entries that user space adds to,
 updates and deletes from, and that the engine looks a process or an address
 up in. User, group and security-context lists are keyed by a number,
 namespace lists by six numbers with wildcards, IPv4 lists by a subnet and a
 port. The first two kinds overwrite the op of an entry written again; an IPv4
 entry accumulates ops.
 */
module FilterLists {
  datatype Entry<K> = Entry(key: K, op: bv8)

  /** The op of the first entry whose key is covered, or 0. */
  function WhichOp<K>(entries: seq<Entry<K>>, covers: K -> bool): (op: bv8)
  {
    if entries == [] then 0
    else if covers(entries[0].key) then entries[0].op
    else WhichOp(entries[1..], covers)
  }

  // ---------- The lists as values ----------

  /** The position of the entry with this key, or the length of the list. */
  function Find<K(==)>(entries: seq<Entry<K>>, key: K): (i: nat)
    ensures i <= |entries|
    ensures i < |entries| ==> entries[i].key == key
    ensures forall j :: 0 <= j < i ==> entries[j].key != key
  {
    if entries == [] then 0
    else if entries[0].key == key then 0
    else
      assert forall j :: 0 <= j < |entries[1..]| ==> entries[1..][j] == entries[j + 1];
      Find(entries[1..], key) + 1
  }

  function Deleted<K(==)>(entries: seq<Entry<K>>, key: K): seq<Entry<K>> {
    var i := Find(entries, key);
    if i < |entries| then entries[..i] + entries[i + 1..] else entries
  }

  /** What an update makes of the op of an entry that is already there. */
  function Joined(accumulates: bool, before: bv8, op: bv8): bv8 { if accumulates then before | op else op }

  function Updated<K(==)>(accumulates: bool, entries: seq<Entry<K>>, key: K, op: bv8): seq<Entry<K>> {
    var i := Find(entries, key);
    if i < |entries| then entries[i := Entry(key, Joined(accumulates, entries[i].op, op))]
    else entries + [Entry(key, op)]
  }

  const SET_DELETE: bv8 := 0x10

  /** One write to a filter file: the op also says whether to delete. */
  datatype Write<K> = Write(key: K, op: bv8)

  function After<K(==)>(accumulates: bool, entries: seq<Entry<K>>, w: Write<K>): seq<Entry<K>> {
    if (w.op & SET_DELETE) != SET_DELETE then Updated(accumulates, entries, w.key, w.op) else Deleted(entries, w.key)
  }

  function AfterAll<K(==)>(accumulates: bool, writes: seq<Write<K>>): seq<Entry<K>>
    decreases |writes|
  {
    if writes == [] then []
    else After(accumulates, AfterAll(accumulates, writes[..|writes| - 1]), writes[|writes| - 1])
  }

  // ---------- The lists as the kernel keeps them ----------

  class FilterList<K(==)> {
    const accumulates: bool
    var entries: seq<Entry<K>>

    constructor (accumulates: bool)
      ensures this.accumulates == accumulates && entries == []
    {
      this.accumulates := accumulates;
      entries := [];
    }

    method Lookup(covers: K -> bool) returns (op: bv8)
      ensures op == WhichOp(entries, covers)
    {
      var i := 0;
      while i < |entries|
        invariant 0 <= i <= |entries| && WhichOp(entries[i..], covers) == WhichOp(entries, covers)
      {
        if covers(entries[i].key) {
          return entries[i].op;
        }
        assert entries[i..][1..] == entries[i + 1..];
        i := i + 1;
      }
      return 0;
    }

    method Delete(key: K)
      modifies this
      ensures entries == Deleted(old(entries), key)
    {
      var i := 0;
      while i < |entries|
        invariant 0 <= i <= |entries| && entries == old(entries)
        invariant forall j :: 0 <= j < i ==> entries[j].key != key
      {
        if entries[i].key == key {
          entries := entries[..i] + entries[i + 1..];
          return;
        }
        i := i + 1;
      }
    }

    method AddOrUpdate(key: K, op: bv8)
      modifies this
      ensures entries == Updated(accumulates, old(entries), key, op)
    {
      var i := 0;
      while i < |entries|
        invariant 0 <= i <= |entries| && entries == old(entries)
        invariant forall j :: 0 <= j < i ==> entries[j].key != key
      {
        if entries[i].key == key {
          entries := entries[i := Entry(key, Joined(accumulates, entries[i].op, op))];
          return;
        }
        i := i + 1;
      }
      entries := entries + [Entry(key, op)];
    }

    method WriteFilter(w: Write<K>)
      modifies this
      ensures entries == After(accumulates, old(entries), w)
    {
      if (w.op & SET_DELETE) != SET_DELETE {
        AddOrUpdate(w.key, w.op);
      } else {
        Delete(w.key);
      }
    }
  }

  // ---------- What the lists mean ----------

  /** What a sequence of writes comes to for one key: its op, and the write that brought the key in. */
  datatype Held = Absent | Held(op: bv8, since: nat)

  ghost function HeldAfter<K>(accumulates: bool, writes: seq<Write<K>>, key: K): Held
    decreases |writes|
  {
    if writes == [] then Absent
    else
      var before, w := HeldAfter(accumulates, writes[..|writes| - 1], key), writes[|writes| - 1];
      if w.key != key then before
      else if (w.op & SET_DELETE) == SET_DELETE then Absent
      else if before == Absent then Held(w.op, |writes| - 1)
      else Held(Joined(accumulates, before.op, w.op), before.since)
  }

  /** Each entry is for a present key and carries its op. */
  ghost predicate Sound<K>(entries: seq<Entry<K>>, held: K -> Held) {
    forall i :: 0 <= i < |entries| ==> held(entries[i].key).Held? && held(entries[i].key).op == entries[i].op
  }

  ghost function Since<K>(held: K -> Held, k: K): int { if held(k) == Absent then -1 else held(k).since }

  /** Entries stand in the order in which their keys came in. */
  ghost predicate Ordered<K>(entries: seq<Entry<K>>, held: K -> Held) {
    forall i, j :: 0 <= i < j < |entries| ==> Since(held, entries[i].key) < Since(held, entries[j].key)
  }

  ghost predicate Listed<K>(entries: seq<Entry<K>>, k: K) { exists i :: 0 <= i < |entries| && entries[i].key == k }

  /** The list holds exactly the keys that are present, each once, in the order they came in. */
  ghost predicate Refines<K(!new)>(entries: seq<Entry<K>>, held: K -> Held) {
    Sound(entries, held) && Ordered(entries, held) && forall k :: held(k).Held? ==> Listed(entries, k)
  }

  ghost predicate Bounded<K(!new)>(held: K -> Held, n: nat) {
    forall k :: held(k).Held? ==> held(k).since < n
  }

  lemma NoDuplicates<K(!new)>(entries: seq<Entry<K>>, held: K -> Held)
    requires Refines(entries, held)
    ensures forall i, j :: 0 <= i < j < |entries| ==> entries[i].key != entries[j].key
  {
    forall i, j | 0 <= i < j < |entries| ensures entries[i].key != entries[j].key {
      assert Since(held, entries[i].key) < Since(held, entries[j].key);
    }
  }

  /** Where the entries that are left stood before. */
  lemma DeletedAt<K>(entries: seq<Entry<K>>, key: K)
    ensures var i, after := Find(entries, key), Deleted(entries, key);
            && (i < |entries| ==> |after| == |entries| - 1)
            && (forall j :: 0 <= j < |after| ==> after[j] == entries[if j < i then j else j + 1])
  {
  }

  lemma DeleteLists<K(!new)>(entries: seq<Entry<K>>, held: K -> Held, key: K, k: K)
    requires Refines(entries, held) && held(k).Held? && k != key
    ensures Listed(Deleted(entries, key), k)
  {
    DeletedAt(entries, key);
    var i, after := Find(entries, key), Deleted(entries, key);
    assert Listed(entries, k);
    var j :| 0 <= j < |entries| && entries[j].key == k;
    assert after[if j < i then j else j - 1].key == k;
  }

  lemma DeleteRemoves<K(!new)>(entries: seq<Entry<K>>, held: K -> Held, key: K)
    requires Refines(entries, held)
    ensures !Listed(Deleted(entries, key), key)
  {
    DeletedAt(entries, key);
    NoDuplicates(entries, held);
  }

  lemma DeleteKeeps<K(!new)>(entries: seq<Entry<K>>, held: K -> Held, key: K)
    requires Refines(entries, held)
    ensures Sound(Deleted(entries, key), held) && Ordered(Deleted(entries, key), held)
  {
    DeletedAt(entries, key);
  }

  lemma DeleteRefines<K(!new)>(entries: seq<Entry<K>>, held: K -> Held, key: K, held': K -> Held)
    requires Refines(entries, held)
    requires held'(key) == Absent && forall k :: k != key ==> held'(k) == held(k)
    ensures Refines(Deleted(entries, key), held')
  {
    var after := Deleted(entries, key);
    DeleteKeeps(entries, held, key);
    DeleteRemoves(entries, held, key);
    forall k | held'(k).Held? ensures Listed(after, k) {
      DeleteLists(entries, held, key, k);
    }
    forall j | 0 <= j < |after| ensures held'(after[j].key) == held(after[j].key) {}
  }

  lemma OverwriteRefines<K(!new)>(entries: seq<Entry<K>>, held: K -> Held, i: nat, op: bv8, held': K -> Held)
    requires Refines(entries, held) && i < |entries|
    requires forall k :: k != entries[i].key ==> held'(k) == held(k)
    requires held'(entries[i].key) == held(entries[i].key).(op := op)
    ensures Refines(entries[i := Entry(entries[i].key, op)], held')
  {
    NoDuplicates(entries, held);
    var after := entries[i := Entry(entries[i].key, op)];
    assert forall j :: 0 <= j < |after| ==> after[j].key == entries[j].key;
    forall j | 0 <= j < |entries| ensures Since(held', entries[j].key) == Since(held, entries[j].key) {}
    forall k | held'(k).Held? ensures Listed(after, k) {
      assert Listed(entries, k);
      var j :| 0 <= j < |entries| && entries[j].key == k;
      assert after[j].key == k;
    }
  }

  lemma AppendRefines<K(!new)>(entries: seq<Entry<K>>, held: K -> Held, n: nat, key: K, op: bv8, held': K -> Held)
    requires Refines(entries, held) && Bounded(held, n) && held(key) == Absent
    requires forall k :: k != key ==> held'(k) == held(k)
    requires held'(key) == Held(op, n)
    ensures Refines(entries + [Entry(key, op)], held')
  {
    var after := entries + [Entry(key, op)];
    forall j | 0 <= j < |entries|
      ensures held'(after[j].key) == held(entries[j].key) && Since(held', after[j].key) < n {
      assert held(entries[j].key).Held?;
    }
    forall k | held'(k).Held? ensures Listed(after, k) {
      if k == key {
        assert after[|entries|].key == k;
      } else {
        assert Listed(entries, k);
        var j :| 0 <= j < |entries| && entries[j].key == k;
        assert after[j].key == k;
      }
    }
  }

  lemma UpdateRefines<K(!new)>(
    accumulates: bool, entries: seq<Entry<K>>, held: K -> Held, n: nat, key: K, op: bv8, held': K -> Held)
    requires Refines(entries, held) && Bounded(held, n)
    requires forall k :: k != key ==> held'(k) == held(k)
    requires held'(key) == match held(key)
                           case Absent => Held(op, n)
                           case Held(o, since) => Held(Joined(accumulates, o, op), since)
    ensures Refines(Updated(accumulates, entries, key, op), held')
  {
    var i := Find(entries, key);
    if i < |entries| {
      OverwriteRefines(entries, held, i, Joined(accumulates, entries[i].op, op), held');
    } else {
      assert !Listed(entries, key);
      AppendRefines(entries, held, n, key, op, held');
    }
  }

  /**
   Over any writes, the list refines the keyed map: no two entries share a key,
   each key carries the op of its own writes alone, and entries stand in the
   order in which their keys came in.
   */
  lemma {:induction false} ListsRefineMaps<K(!new)>(accumulates: bool, writes: seq<Write<K>>)
    ensures Refines(AfterAll(accumulates, writes), k => HeldAfter(accumulates, writes, k))
    ensures Bounded((k: K) => HeldAfter(accumulates, writes, k), |writes|)
    decreases |writes|
  {
    if writes != [] {
      var init, w := writes[..|writes| - 1], writes[|writes| - 1];
      var held, held' := (k: K) => HeldAfter(accumulates, init, k), (k: K) => HeldAfter(accumulates, writes, k);
      ListsRefineMaps(accumulates, init);
      if (w.op & SET_DELETE) == SET_DELETE {
        DeleteRefines(AfterAll(accumulates, init), held, w.key, held');
      } else {
        UpdateRefines(accumulates, AfterAll(accumulates, init), held, |init|, w.key, w.op, held');
      }
    }
  }

  lemma {:induction false} WhichOpIsFirst<K>(entries: seq<Entry<K>>, covers: K -> bool, i: nat)
    requires i <= |entries| && forall j :: 0 <= j < i ==> !covers(entries[j].key)
    requires i < |entries| ==> covers(entries[i].key)
    ensures WhichOp(entries, covers) == if i < |entries| then entries[i].op else 0
  {
    if i > 0 {
      assert forall j :: 0 <= j < |entries[1..]| ==> entries[1..][j] == entries[j + 1];
      WhichOpIsFirst(entries[1..], covers, i - 1);
    }
  }

  /**
   Looking up with any cover test gives the op of the covered key that came in
   first, and 0 when no present key is covered.
   */
  lemma LookupIsEarliest<K(!new)>(accumulates: bool, writes: seq<Write<K>>, covers: K -> bool, key: K)
    ensures (forall k :: HeldAfter(accumulates, writes, k).Held? ==> !covers(k))
            ==> WhichOp(AfterAll(accumulates, writes), covers) == 0
    ensures var h := HeldAfter(accumulates, writes, key);
            h.Held? && covers(key)
            && (forall k :: HeldAfter(accumulates, writes, k).Held? && covers(k) ==>
                 h.since <= HeldAfter(accumulates, writes, k).since)
            ==> WhichOp(AfterAll(accumulates, writes), covers) == h.op
  {
    var entries, held := AfterAll(accumulates, writes), (k: K) => HeldAfter(accumulates, writes, k);
    ListsRefineMaps(accumulates, writes);
    if forall k :: HeldAfter(accumulates, writes, k).Held? ==> !covers(k) {
      forall i | 0 <= i < |entries| ensures !covers(entries[i].key) {
        assert held(entries[i].key).Held?;
      }
      WhichOpIsFirst(entries, covers, |entries|);
    }
    var h := HeldAfter(accumulates, writes, key);
    if h.Held? && covers(key)
       && forall k :: HeldAfter(accumulates, writes, k).Held? && covers(k) ==>
            h.since <= HeldAfter(accumulates, writes, k).since {
      assert Listed(entries, key) by { assert held(key).Held?; }
      var i :| 0 <= i < |entries| && entries[i].key == key;
      forall j | 0 <= j < i ensures !covers(entries[j].key) {
        assert Since(held, entries[j].key) < Since(held, entries[i].key);
      }
      WhichOpIsFirst(entries, covers, i);
    }
  }

  /**
   Looking a key up by equality, as the user, group and security-context lists do, gives what was
   last written for it.
   */
  lemma ExactLookupIsLastWrite<K(!new)>(accumulates: bool, writes: seq<Write<K>>, key: K)
    ensures var h := HeldAfter(accumulates, writes, key);
            WhichOp(AfterAll(accumulates, writes), k => k == key) == if h == Absent then 0 else h.op
  {
    LookupIsEarliest(accumulates, writes, k => k == key, key);
  }

  /**
   Two writes for one key: the later op counts, and in a list that accumulates
   the earlier one too.
   */
  lemma TwoWritesJoin<K(!new)>(accumulates: bool, key: K, op: bv8, op': bv8)
    requires op & 0x10 == 0 && op' & 0x10 == 0
    ensures WhichOp(AfterAll(accumulates, [Write(key, op), Write(key, op')]), k => k == key) ==
            if accumulates then op | op' else op'
  {
    var both := [Write(key, op), Write(key, op')];
    ExactLookupIsLastWrite(accumulates, both, key);
    assert both[..1] == [both[0]] && both[..1][..0] == [];
    assert HeldAfter(accumulates, both[..1], key) == Held(op, 0);
  }

  // ---------- Namespaces ----------

  datatype Namespaces = Namespaces(uts: nat, ipc: nat, mnt: nat, pid: nat, net: nat, cgroup: nat)

  const IGNORE_NS: nat := 0

  predicate NsMatches(want: nat, have: nat) { want == have || want == IGNORE_NS }

  /** A namespace filter covers a process when every field agrees or is a wildcard. */
  predicate NsCovers(f: Namespaces, ns: Namespaces) {
    && NsMatches(f.cgroup, ns.cgroup)
    && NsMatches(f.uts, ns.uts)
    && NsMatches(f.ipc, ns.ipc)
    && NsMatches(f.mnt, ns.mnt)
    && NsMatches(f.pid, ns.pid)
    && NsMatches(f.net, ns.net)
  }

  // ---------- IPv4 ----------

  datatype Ipv4 = Ipv4(mask: bv32, ip: bv32, port: bv16)

  predicate InSubnet(mask: bv32, net: bv32, ip: bv32) { (mask & ip) == (mask & net) }

  /** A filter covers an address in its subnet, on its port or, with port 0, on any. */
  predicate Ipv4Covers(f: Ipv4, ip: bv32, port: bv16) {
    InSubnet(f.mask, f.ip, ip) && (f.port == 0 || f.port == port)
  }

  /** The address is masked before the list sees it. */
  function Ipv4Write(mask: bv32, ip: bv32, port: bv16, op: bv8): Write<Ipv4> { Write(Ipv4(mask, ip & mask, port), op) }

  lemma MaskTwice(mask: bv32, ip: bv32)
    ensures mask & (ip & mask) == mask & ip
    ensures ip & mask == mask & ip
  {
  }

  /** No bit of the mask tells the two addresses apart. */
  predicate Agree(mask: bv32, a: bv32, b: bv32) { mask & (a ^ b) == 0 }

  lemma MaskApart(mask: bv32, a: bv32, b: bv32)
    ensures mask & (a ^ b) == (mask & a) ^ (mask & b)
  {
  }

  lemma NoneApart(a: bv32, b: bv32)
    ensures a ^ b == 0 <==> a == b
  {
  }

  lemma AgreeInSubnet(mask: bv32, net: bv32, ip: bv32)
    ensures Agree(mask, net, ip) <==> InSubnet(mask, net, ip)
  {
    MaskApart(mask, net, ip);
    NoneApart(mask & net, mask & ip);
  }

  lemma MaskingKeepsSubnet(mask: bv32, ip: bv32, addr: bv32)
    ensures InSubnet(mask, ip & mask, addr) <==> InSubnet(mask, ip, addr)
  {
    MaskTwice(mask, ip);
  }

  /** Masking the address on the way in leaves what the filter covers as it was asked for. */
  lemma MaskingKeepsCover(f: Ipv4, op: bv8, addr: bv32, at: bv16)
    ensures Ipv4Covers(Ipv4Write(f.mask, f.ip, f.port, op).key, addr, at) <==>
            Agree(f.mask, f.ip, addr) && (f.port == 0 || f.port == at)
  {
    var key := Ipv4Write(f.mask, f.ip, f.port, op).key;
    assert InSubnet(key.mask, key.ip, addr) <==> Agree(f.mask, f.ip, addr) by {
      AgreeInSubnet(f.mask, f.ip, addr);
      MaskingKeepsSubnet(f.mask, f.ip, addr);
    }
  }

  /** Two writes for one port go to the same entry exactly when they name the same subnet. */
  lemma SubnetsAreKeys(mask: bv32, ip: bv32, mask': bv32, ip': bv32, port: bv16, op: bv8, op': bv8)
    ensures Ipv4Write(mask, ip, port, op).key == Ipv4Write(mask', ip', port, op').key
            <==> mask == mask' && (mask & ip) == (mask' & ip')
  {
    MaskTwice(mask, ip);
    MaskTwice(mask', ip');
  }
}
