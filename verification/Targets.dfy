/**
 What the capture targets do to a node: a flag is raised exactly when the first
 entry that covers the node, in one of the lists that are for its kind, asks for
 it.
 */
module Targets {
  import opened ProvTypes
  import opened FilterLists
  import opened Model
  import opened Requests

  // ---------- One list ----------

  /** The first entry that covers the node asks for the flag. */
  ghost predicate Raises<K>(entries: seq<Entry<K>>, covers: K -> bool, flag: bv8) {
    exists i :: 0 <= i < |entries| && covers(entries[i].key) && entries[i].op & flag != 0
                && forall j :: 0 <= j < i ==> !covers(entries[j].key)
  }

  lemma {:induction false} FirstCovered<K>(entries: seq<Entry<K>>, covers: K -> bool, n: nat) returns (i: nat)
    requires n <= |entries| && forall j :: 0 <= j < n ==> !covers(entries[j].key)
    ensures i <= |entries| && (forall j :: 0 <= j < i ==> !covers(entries[j].key))
    ensures i < |entries| ==> covers(entries[i].key)
    decreases |entries| - n
  {
    if n == |entries| || covers(entries[n].key) {
      i := n;
    } else {
      i := FirstCovered(entries, covers, n + 1);
    }
  }

  lemma WhichOpRaises<K>(entries: seq<Entry<K>>, covers: K -> bool, flag: bv8)
    ensures WhichOp(entries, covers) & flag != 0 <==> Raises(entries, covers, flag)
  {
    var i := FirstCovered(entries, covers, 0);
    WhichOpIsFirst(entries, covers, i);
    if k :| 0 <= k < |entries| && covers(entries[k].key) && forall j :: 0 <= j < k ==> !covers(entries[j].key) {
      assert k == i;
    }
  }

  /** Tests that agree on every key raise the same. */
  lemma RaisesAlike<K>(entries: seq<Entry<K>>, c: K -> bool, d: K -> bool, flag: bv8)
    requires forall i :: 0 <= i < |entries| ==> c(entries[i].key) == d(entries[i].key)
    ensures Raises(entries, c, flag) == Raises(entries, d, flag)
  {
    forall a: K -> bool, b: K -> bool | Raises(entries, a, flag)
      && forall i :: 0 <= i < |entries| ==> a(entries[i].key) == b(entries[i].key)
      ensures Raises(entries, b, flag)
    {
      var i :| 0 <= i < |entries| && a(entries[i].key) && entries[i].op & flag != 0
               && forall j :: 0 <= j < i ==> !a(entries[j].key);
      assert b(entries[i].key);
    }
  }

  // ---------- The four lists ----------

  /** The kinds that have a security context and user and group ids. */
  const OWNED: set<Word> := {
    ENT_PROC, ENT_INODE_UNKNOWN, ENT_INODE_LINK, ENT_INODE_FILE, ENT_INODE_DIRECTORY, ENT_INODE_CHAR, ENT_INODE_BLOCK,
    ENT_INODE_PIPE, ENT_INODE_SOCKET}

  /** A filter field that is 0 stands for every namespace. */
  predicate Meets(f: Namespaces, ns: Namespaces) {
    && (f.uts == 0 || f.uts == ns.uts) && (f.ipc == 0 || f.ipc == ns.ipc) && (f.mnt == 0 || f.mnt == ns.mnt)
    && (f.pid == 0 || f.pid == ns.pid) && (f.net == 0 || f.net == ns.net) && (f.cgroup == 0 || f.cgroup == ns.cgroup)
  }

  ghost predicate NamespaceWants(p: Policy, ns: Namespaces, flag: bv8) {
    Raises(p.nsFilters, (f: Namespaces) => Meets(f, ns), flag)
  }

  ghost predicate OwnerWants(p: Policy, owner: Owner, flag: bv8) {
    || Raises(p.secctxFilters, (k: nat) => k == owner.secid, flag)
    || Raises(p.userFilters, (k: nat) => k == owner.uid, flag)
    || Raises(p.groupFilters, (k: nat) => k == owner.gid, flag)
  }

  /** Some list that is for nodes of this kind asks for the flag. */
  ghost predicate Wants(p: Policy, n: Node, flag: bv8) {
    || (n.kind == ENT_PROC && NamespaceWants(p, n.memo.owner.ns, flag))
    || (n.kind in OWNED && OwnerWants(p, n.memo.owner, flag))
  }

  lemma OrHas(a: bv8, b: bv8, flag: bv8)
    requires flag == 0x01 || flag == 0x02 || flag == 0x04
    ensures (a | b) & flag != 0 <==> a & flag != 0 || b & flag != 0
  {
  }

  lemma OwnedKinds(kind: Word)
    ensures HasOwner(kind) <==> kind in OWNED
  {
  }

  lemma NamespaceOp(p: Policy, ns: Namespaces, flag: bv8)
    ensures WhichOp(p.nsFilters, (f: Namespaces) => NsCovers(f, ns)) & flag != 0 <==> NamespaceWants(p, ns, flag)
  {
    var c := (f: Namespaces) => NsCovers(f, ns);
    WhichOpRaises(p.nsFilters, c, flag);
    RaisesAlike(p.nsFilters, c, (f: Namespaces) => Meets(f, ns), flag);
  }

  lemma KeyOp(entries: seq<Entry<nat>>, key: nat, flag: bv8)
    ensures WhichOp(entries, (k: nat) => k == key) & flag != 0 <==> Raises(entries, (k: nat) => k == key, flag)
  {
    WhichOpRaises(entries, (k: nat) => k == key, flag);
  }

  lemma OrHas3(a: bv8, b: bv8, c: bv8, flag: bv8)
    requires flag == 0x01 || flag == 0x02 || flag == 0x04
    ensures (a | b | c) & flag != 0 <==> a & flag != 0 || b & flag != 0 || c & flag != 0
  {
    OrHas(a | b, c, flag);
    OrHas(a, b, flag);
  }

  lemma OwnerOp(p: Policy, owner: Owner, flag: bv8)
    requires flag == 0x01 || flag == 0x02 || flag == 0x04
    ensures (WhichOp(p.secctxFilters, (k: nat) => k == owner.secid)
             | WhichOp(p.userFilters, (k: nat) => k == owner.uid)
             | WhichOp(p.groupFilters, (k: nat) => k == owner.gid)) & flag != 0
            <==> OwnerWants(p, owner, flag)
  {
    KeyOp(p.secctxFilters, owner.secid, flag);
    KeyOp(p.userFilters, owner.uid, flag);
    KeyOp(p.groupFilters, owner.gid, flag);
    OrHas3(WhichOp(p.secctxFilters, (k: nat) => k == owner.secid), WhichOp(p.userFilters, (k: nat) => k == owner.uid),
           WhichOp(p.groupFilters, (k: nat) => k == owner.gid), flag);
  }

  /** The op that the lists come to has a flag exactly when one of them asks for it. */
  lemma OpWants(p: Policy, n: Node, flag: bv8)
    requires flag == 0x01 || flag == 0x02 || flag == 0x04
    ensures TargetOp(p, n) & flag != 0 <==> Wants(p, n, flag)
  {
    var owner := n.memo.owner;
    var a := if n.kind == ENT_PROC then WhichOp(p.nsFilters, (f: Namespaces) => NsCovers(f, owner.ns)) else 0;
    var b := if HasOwner(n.kind) then
        WhichOp(p.secctxFilters, (k: nat) => k == owner.secid)
        | WhichOp(p.userFilters, (k: nat) => k == owner.uid)
        | WhichOp(p.groupFilters, (k: nat) => k == owner.gid)
      else 0;
    assert TargetOp(p, n) == a | b;
    OrHas(a, b, flag);
    OwnedKinds(n.kind);
    NamespaceOp(p, owner.ns, flag);
    OwnerOp(p, owner, flag);
  }

  /** The targets raise the flags that are asked for, lower none, and change nothing else. */
  lemma TargetsRaise(p: Policy, n: Node)
    ensures ApplyTarget(p, n) == n.(
            tracked := n.tracked || Wants(p, n, 0x01),
            isOpaque := n.isOpaque || Wants(p, n, 0x02),
            propagate := n.propagate || Wants(p, n, 0x04))
  {
    OpWants(p, n, 0x01);
    OpWants(p, n, 0x02);
    OpWants(p, n, 0x04);
  }

  // ---------- Several objects ----------

  lemma TargetTwice(p: Policy, n: Node)
    ensures ApplyTarget(p, ApplyTarget(p, n)) == ApplyTarget(p, n)
  {
  }

  /** A hook applies the targets to each of its objects, however often it names it, and to no other. */
  lemma {:induction false} TargetsApplied(s: State, objs: seq<nat>, o: nat)
    requires (forall x :: x in objs ==> x in s.nodes) && o in s.nodes
    ensures var s' := TargetAll(s, objs);
            && s'.nodes[o] == (if o in objs then ApplyTarget(s.policy, s.nodes[o]) else s.nodes[o])
            && s' == s.(nodes := s'.nodes)
    decreases |objs|
  {
    if objs != [] {
      var init, last := objs[..|objs| - 1], objs[|objs| - 1];
      assert objs == init + [last];
      TargetsApplied(s, init, o);
      if o == last { TargetTwice(s.policy, s.nodes[o]); }
    }
  }
}
