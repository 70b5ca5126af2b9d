/**
 Which security hooks a system call reaches: a worklist follows the calls of
 every function found from the entry point on, and the hooks are picked out
 of the resulting map by their names.
 */
module CallGraphs {
  type Id = nat

  /** The calls of each function, as the database lists them. */
  type Calls = map<Id, seq<Id>>

  function Callees(calls: Calls, f: Id): seq<Id> { if f in calls then calls[f] else [] }

  ghost predicate IsPath(calls: Calls, path: seq<Id>) {
    |path| > 0 && forall i :: 0 <= i < |path| - 1 ==> path[i + 1] in Callees(calls, path[i])
  }

  ghost predicate PathTo(calls: Calls, root: Id, f: Id, path: seq<Id>) {
    IsPath(calls, path) && path[0] == root && path[|path| - 1] == f
  }

  ghost predicate Reachable(calls: Calls, root: Id, f: Id) { exists path :: PathTo(calls, root, f, path) }

  lemma RootIsReachable(calls: Calls, root: Id)
    ensures Reachable(calls, root, root)
  {
    assert PathTo(calls, root, root, [root]);
  }

  lemma CalleeIsReachable(calls: Calls, root: Id, f: Id, g: Id)
    requires Reachable(calls, root, f) && g in Callees(calls, f)
    ensures Reachable(calls, root, g)
  {
    var path :| PathTo(calls, root, f, path);
    var longer := path + [g];
    forall i | 0 <= i < |longer| - 1 ensures longer[i + 1] in Callees(calls, longer[i]) {
      if i < |path| - 1 { assert longer[i + 1] == path[i + 1]; }
    }
    assert PathTo(calls, root, g, longer);
  }

  /** A set that has the root and is closed under calls has every reachable function. */
  lemma {:induction false} ClosedHasAll(calls: Calls, found: set<Id>, path: seq<Id>)
    requires IsPath(calls, path) && path[0] in found
    requires forall f, g :: f in found && g in Callees(calls, f) ==> g in found
    ensures path[|path| - 1] in found
    decreases |path|
  {
    if |path| > 1 {
      var init := path[..|path| - 1];
      forall i | 0 <= i < |init| - 1
        ensures init[i + 1] in Callees(calls, init[i]) { assert path[i + 1] in Callees(calls, path[i]); }
      ClosedHasAll(calls, found, init);
      assert path[(|path| - 2) + 1] in Callees(calls, path[|path| - 2]);
    }
  }

  // ---------- The worklist ----------

  /**
   A key of the script's map: the root, read from a file, is text, the ids of
   callees are numbers, and the two are different keys even for one function.
   */
  datatype Key = Text(id: Id) | Number(id: Id)

  type CallMap = map<Key, seq<Id>>

  /** Everything the worklist can ever meet. */
  ghost function Universe(calls: Calls, root: Id): set<Key> {
    {Text(root)} + set f, g | f in calls && g in calls[f] :: Number(g)
  }

  ghost predicate NoRepeats(s: seq<Key>) { forall i, j :: 0 <= i < j < |s| ==> s[i] != s[j] }

  ghost predicate Found(calls: Calls, root: Id, k: Key) { Reachable(calls, root, k.id) && k in Universe(calls, root) }

  /** What is in the map has been looked up, what is queued is still to be, and all of it is reachable. */
  ghost predicate Sound(calls: Calls, root: Id, callmap: CallMap, queue: seq<Key>) {
    && (forall k :: k in callmap ==> Found(calls, root, k) && callmap[k] == Callees(calls, k.id))
    && (forall k :: k in queue ==> Found(calls, root, k) && k !in callmap)
    && NoRepeats(queue)
  }

  /** Every call made by a function in the map leads to the map or to the queue. */
  ghost predicate Covered(root: Id, callmap: CallMap, queue: seq<Key>) {
    && (Text(root) in callmap || Text(root) in queue)
    && forall k, g :: k in callmap && g in callmap[k] ==> Number(g) in callmap || Number(g) in queue
  }

  /** Queues those of the callees that are new. */
  method Enqueue(calls: Calls, root: Id, caller: Key, callmap: CallMap, queue: seq<Key>) returns (longer: seq<Key>)
    requires Sound(calls, root, callmap, queue) && caller in callmap
    ensures Sound(calls, root, callmap, longer)
    ensures forall k :: k in longer <==> k in queue || (k.Number? && k.id in callmap[caller] && k !in callmap)
  {
    var callees := callmap[caller];
    longer := queue;
    for i := 0 to |callees|
      invariant Sound(calls, root, callmap, longer)
      invariant forall k :: k in longer <==> k in queue || (k.Number? && k.id in callees[..i] && k !in callmap)
    {
      var callee := Number(callees[i]);
      if callee !in callmap && callee !in longer {
        CalleeIsReachable(calls, root, caller.id, callees[i]);
        longer := longer + [callee];
      }
    }
    assert callees[..|callees|] == callees;
  }

  /** The functions that have a key. */
  ghost function Ids(callmap: CallMap): set<Id> { set k | k in callmap :: k.id }

  /** Everything reachable from the root, with its callees; `order` lists the keys as they came in. */
  method Explore(calls: Calls, root: Id) returns (callmap: CallMap, order: seq<Key>)
    ensures forall f :: f in Ids(callmap) <==> Reachable(calls, root, f)
    ensures forall k :: k in callmap ==> callmap[k] == Callees(calls, k.id)
    ensures forall k :: k in order <==> k in callmap
  {
    RootIsReachable(calls, root);
    var queue := [Text(root)];
    callmap, order := map[], [];
    while |queue| > 0
      invariant Sound(calls, root, callmap, queue) && Covered(root, callmap, queue)
      invariant forall k :: k in order <==> k in callmap
      decreases Universe(calls, root) - callmap.Keys
    {
      var caller := queue[0];
      var rest := queue[1..];
      assert caller in queue && caller !in rest && forall k :: k in queue <==> k == caller || k in rest;
      callmap := callmap[caller := Callees(calls, caller.id)];
      order := order + [caller];
      queue := Enqueue(calls, root, caller, callmap, rest);
    }
    forall f | Reachable(calls, root, f) ensures f in Ids(callmap) {
      AllFound(calls, root, callmap, f);
    }
  }

  lemma AllFound(calls: Calls, root: Id, callmap: CallMap, f: Id)
    requires Sound(calls, root, callmap, []) && Covered(root, callmap, []) && Reachable(calls, root, f)
    ensures f in Ids(callmap)
  {
    var found := Ids(callmap);
    assert Text(root).id in found;
    forall x, g | x in found && g in Callees(calls, x) ensures g in found {
      var k :| k in callmap && k.id == x;
      assert Number(g).id in found;
    }
    var path :| PathTo(calls, root, f, path);
    ClosedHasAll(calls, found, path);
  }

  // ---------- The hooks ----------

  const HOOK_PREFIX := "security_"

  predicate IsHook(name: string) { HOOK_PREFIX <= name }

  /** A hook among the reachable functions. */
  ghost predicate HookOf(calls: Calls, root: Id, names: map<Id, string>, h: string) {
    IsHook(h) && exists f :: Reachable(calls, root, f) && f in names && names[f] == h
  }

  /** One more function: whether it has a row, and what hooks there are then. */
  method CheckName(names: map<Id, string>, f: Id, hooks: set<string>) returns (ok: bool, more: set<string>)
    ensures ok <==> f in names
    ensures ok ==> more == if IsHook(names[f]) then hooks + {names[f]} else hooks
  {
    ok, more := f in names, hooks;
    if ok && IsHook(names[f]) {
      more := hooks + {names[f]};
    }
  }

  /** Adds the hooks among the callees of one function. */
  method CheckCallees(calls: Calls, root: Id, names: map<Id, string>, callees: seq<Id>, hooks: set<string>)
    returns (ok: bool, more: set<string>)
    requires forall g :: g in callees ==> Reachable(calls, root, g)
    requires forall h :: h in hooks ==> HookOf(calls, root, names, h)
    ensures ok <==> forall g :: g in callees ==> g in names
    ensures ok ==> hooks <= more && forall h :: h in more ==> HookOf(calls, root, names, h)
  {
    ok, more := true, hooks;
    for j := 0 to |callees|
      invariant ok && (forall g :: g in callees[..j] ==> g in names)
      invariant hooks <= more && forall h :: h in more ==> HookOf(calls, root, names, h)
    {
      assert callees[j] in callees;
      ok, more := CheckName(names, callees[j], more);
      if !ok {
        return;
      }
    }
    assert callees[..|callees|] == callees;
  }

  /**
   The hooks of a system call: the names, beginning with the prefix, of the
   functions it reaches. `ok` is false when the script fails, for want of a row
   with a name.
   */
  method FindHooks(calls: Calls, root: Id, names: map<Id, string>) returns (ok: bool, hooks: set<string>)
    ensures ok <==> forall f :: Reachable(calls, root, f) ==> f in names
    ensures ok ==> forall h :: h in hooks <==> HookOf(calls, root, names, h)
  {
    var callmap, order := Explore(calls, root);
    ok, hooks := true, {};
    for i := 0 to |order|
      invariant ok && forall h :: h in hooks ==> HookOf(calls, root, names, h)
      invariant forall k :: 0 <= k < i ==>
                order[k].id in names && (IsHook(names[order[k].id]) ==> names[order[k].id] in hooks)
    {
      var caller := order[i];
      assert caller in callmap && caller.id in Ids(callmap);
      ok, hooks := CheckName(names, caller.id, hooks);
      if !ok {
        return;
      }
      forall g | g in callmap[caller] ensures Reachable(calls, root, g) {
        CalleeIsReachable(calls, root, caller.id, g);
      }
      ok, hooks := CheckCallees(calls, root, names, callmap[caller], hooks);
      if !ok {
        return;
      }
    }
    forall f | Reachable(calls, root, f) ensures f in names && (IsHook(names[f]) ==> names[f] in hooks) {
      var key :| key in callmap && key.id == f;
      var k :| 0 <= k < |order| && order[k] == key;
    }
  }
}
