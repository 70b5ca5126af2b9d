/**
 Until the relay is ready, records go to a boot buffer: a linked list of
 fixed-size chunks. When the relay is ready the buffer is drained into it by a
 task that starts again from the current chunk whenever it finds the relay
 full.
 */
module BootBuffers {
  import opened ProvTypes

  const INITIAL_BUFF_SIZE: nat := 16384
  const INITIAL_LONG_BUFF_SIZE: nat := 512

  // ---------- What is buffered ----------

  datatype Identifier = Identifier(kind: Word, boot: nat, machine: nat, number: nat)
  datatype Ends = NoEnds | Ends(snd: Identifier, rcv: Identifier)

  /** A node, or a relation with its two ends. */
  datatype Message = Message(id: Identifier, ends: Ends, body: nat)

  /** Stamps an identifier with the boot, unless it has one, and the machine; packets are left alone. */
  function Tighten(boot: nat, machine: nat, id: Identifier): Identifier {
    if id.kind == ENT_PACKET then id
    else id.(boot := if id.boot == 0 then boot else id.boot, machine := machine)
  }

  function TightenMessage(boot: nat, machine: nat, m: Message): Message {
    m.(id := Tighten(boot, machine, m.id),
       ends := match m.ends
               case NoEnds => NoEnds
               case Ends(snd, rcv) => Ends(Tighten(boot, machine, snd), Tighten(boot, machine, rcv)))
  }

  /** The identifier as it leaves the kernel: a packet's as it was, any other with this machine and with a boot. */
  predicate Stamped(boot: nat, machine: nat, i: Identifier, i': Identifier) {
    if i.kind == ENT_PACKET then i' == i
    else
      && i'.kind == i.kind && i'.number == i.number
      && i'.machine == machine && i'.boot == if i.boot != 0 then i.boot else boot
  }

  /** A message is stamped itself and, if it is a relation, at both ends; what it says stays. */
  lemma StampsEveryIdentifier(boot: nat, machine: nat, m: Message)
    ensures var m' := TightenMessage(boot, machine, m);
            && m'.body == m.body && Stamped(boot, machine, m.id, m'.id) && m'.ends.Ends? == m.ends.Ends?
            && (m.ends.Ends? ==>
                  && Stamped(boot, machine, m.ends.snd, m'.ends.snd)
                  && Stamped(boot, machine, m.ends.rcv, m'.ends.rcv))
  {
  }

  // ---------- Chunks as values ----------

  function Flatten<M>(layout: seq<seq<M>>): seq<M> {
    if layout == [] then [] else Flatten(layout[..|layout| - 1]) + layout[|layout| - 1]
  }

  /** Where a chunk starts in the flattened buffer. */
  ghost function Start<M>(layout: seq<seq<M>>, i: nat): nat
    requires i <= |layout|
  {
    if i == 0 then 0 else Start(layout, i - 1) + |layout[i - 1]|
  }

  lemma {:induction false} StartIsLength<M>(layout: seq<seq<M>>, i: nat)
    requires i <= |layout|
    ensures Start(layout, i) == |Flatten(layout[..i])|
  {
    if i > 0 {
      assert layout[..i][..i - 1] == layout[..i - 1];
      StartIsLength(layout, i - 1);
    }
  }

  /** The entry at a place of a chunk is the entry at its position in the flattened buffer. */
  lemma {:induction false} FlattenAt<M>(layout: seq<seq<M>>, i: nat, j: nat)
    requires i < |layout| && j < |layout[i]|
    ensures Start(layout, i) + j < |Flatten(layout)| && Flatten(layout)[Start(layout, i) + j] == layout[i][j]
    decreases |layout|
  {
    var init := layout[..|layout| - 1];
    StartIsLength(layout, i);
    if i < |init| {
      StartIsLength(init, i);
      assert init[..i] == layout[..i];
      FlattenAt(init, i, j);
    }
  }

  /** Every chunk but the last is full, and the last is not over-full. */
  ghost predicate Packed<M>(layout: seq<seq<M>>, max: nat) {
    && |layout| > 0
    && (forall i :: 0 <= i < |layout| ==> |layout[i]| <= max)
    && (forall i :: 0 <= i < |layout| - 1 ==> |layout[i]| == max)
  }

  ghost function Inserted<M>(layout: seq<seq<M>>, max: nat, m: M): seq<seq<M>>
    requires |layout| > 0
  {
    var last := |layout| - 1;
    if |layout[last]| < max then layout[last := layout[last] + [m]] else layout + [[m]]
  }

  ghost function Filled<M>(layout: seq<seq<M>>, m: M): seq<seq<M>>
    requires |layout| > 0
  {
    var last := |layout| - 1;
    layout[last := layout[last] + [m]]
  }

  ghost function WithRoom<M>(layout: seq<seq<M>>, max: nat): seq<seq<M>>
    requires |layout| > 0
  {
    if |layout[|layout| - 1]| < max then layout else layout + [[]]
  }

  lemma InsertedByFilling<M>(layout: seq<seq<M>>, max: nat, m: M)
    requires |layout| > 0
    ensures Inserted(layout, max, m) == Filled(WithRoom(layout, max), m)
  {
    if |layout[|layout| - 1]| >= max {
      assert Filled(layout + [[]], m) == layout + [[] + [m]];
      assert [] + [m] == [m];
    }
  }

  /** Inserting puts the message at the end and keeps the chunks packed. */
  lemma InsertedAppends<M>(layout: seq<seq<M>>, max: nat, m: M)
    requires Packed(layout, max) && 0 < max
    ensures Packed(Inserted(layout, max, m), max)
    ensures Flatten(Inserted(layout, max, m)) == Flatten(layout) + [m]
  {
    var last := |layout| - 1;
    var after := Inserted(layout, max, m);
    assert after[..|after| - 1] == if |layout[last]| < max then layout[..last] else layout;
  }

  // ---------- Positions written by a drain ----------

  /**
   After writing position `p`, a drain goes on with the next position, or back
   to the start of the chunk that the next position is in.
   */
  ghost predicate MayFollow<M>(layout: seq<seq<M>>, p: int, q: nat) {
    q == p + 1 || exists i :: 0 <= i < |layout| && q == Start(layout, i) <= p + 1 < Start(layout, i + 1)
  }

  /** The position written last, -1 when there is none. */
  ghost function Last(ps: seq<nat>): int { if ps == [] then -1 else ps[|ps| - 1] }

  ghost predicate FollowsAt<M>(layout: seq<seq<M>>, ps: seq<nat>, k: nat)
    requires k < |ps|
  {
    MayFollow(layout, if k == 0 then -1 else ps[k - 1], ps[k])
  }

  ghost predicate Replays<M>(layout: seq<seq<M>>, ps: seq<nat>) {
    forall k :: 0 <= k < |ps| ==> FollowsAt(layout, ps, k)
  }

  lemma ReplaysSnoc<M>(layout: seq<seq<M>>, ps: seq<nat>, q: nat)
    requires Replays(layout, ps) && MayFollow(layout, Last(ps), q)
    ensures Replays(layout, ps + [q])
  {
    forall k | 0 <= k < |ps + [q]| ensures FollowsAt(layout, ps + [q], k) {
      if k < |ps| { assert FollowsAt(layout, ps, k); }
    }
  }

  /** Before a position is written for the first time, every earlier one has been. */
  lemma {:induction false} FirstsAreInOrder<M>(layout: seq<seq<M>>, ps: seq<nat>, q: nat, p: nat)
    requires Replays(layout, ps) && q in ps && p < q
    ensures exists k, j :: 0 <= k < j < |ps| && ps[k] == p && ps[j] == q && q !in ps[..j]
    decreases |ps|
  {
    var init, last := ps[..|ps| - 1], ps[|ps| - 1];
    assert Replays(layout, init) by {
      forall k | 0 <= k < |init| ensures FollowsAt(layout, init, k) { assert FollowsAt(layout, ps, k); }
    }
    if q in init {
      FirstsAreInOrder(layout, init, q, p);
      var k, j :| 0 <= k < j < |init| && init[k] == p && init[j] == q && q !in init[..j];
      assert ps[..j] == init[..j];
      assert ps[k] == p && ps[j] == q;
    } else {
      assert FollowsAt(layout, ps, |ps| - 1);
      var before := Last(init);
      assert before >= q - 1;
      assert before in init;
      if before > p {
        FirstsAreInOrder(layout, init, before, p);
        var k, j :| 0 <= k < j < |init| && init[k] == p && init[j] == before && before !in init[..j];
        assert ps[k] == p && ps[|ps| - 1] == q && q !in ps[..|ps| - 1];
      } else {
        assert ps[|ps| - 2] == p && ps[|ps| - 1] == q && q !in ps[..|ps| - 1];
      }
    }
  }

  /** A drain that has got to the last position has written every one. */
  lemma NothingIsLost<M>(layout: seq<seq<M>>, ps: seq<nat>, p: nat)
    requires Replays(layout, ps) && Last(ps) + 1 == |Flatten(layout)| && p < |Flatten(layout)|
    ensures p in ps
  {
    var last := Last(ps);
    assert last in ps;
    if p < last {
      FirstsAreInOrder(layout, ps, last, p);
    }
  }

  // ---------- The buffer in memory ----------

  class Chunk {
    const entries: array<Message>
    var used: nat
    var next: Chunk?

    constructor (max: nat)
      ensures fresh(entries) && entries.Length == max && used == 0 && next == null
    {
      entries := new Message[max];
      used, next := 0, null;
    }

    ghost predicate Holds(ms: seq<Message>)
      reads this, entries
    {
      used == |ms| <= entries.Length && entries[..used] == ms
    }

    method Put(m: Message, ghost ms: seq<Message>)
      requires Holds(ms) && used < entries.Length
      modifies this`used, entries
      ensures Holds(ms + [m])
    {
      entries[used] := m;
      used := used + 1;
    }
  }

  /** The chunks are linked one after the other, each with its own array. */
  ghost predicate Chained(chunks: seq<Chunk>, max: nat)
    reads chunks
  {
    && |chunks| > 0
    && (forall i :: 0 <= i < |chunks| ==> chunks[i].entries.Length == max)
    && (forall i :: 0 <= i < |chunks| - 1 ==> chunks[i].next == chunks[i + 1])
    && chunks[|chunks| - 1].next == null
    && (forall i, j :: 0 <= i < j < |chunks| ==> chunks[i] != chunks[j] && chunks[i].entries != chunks[j].entries)
  }

  ghost function Arrays(chunks: seq<Chunk>): set<object> { set c | c in chunks :: c.entries }

  /** The chunks hold the given messages. */
  ghost predicate Holding(chunks: seq<Chunk>, layout: seq<seq<Message>>)
    reads chunks, Arrays(chunks)
  {
    && |layout| == |chunks|
    && forall i :: 0 <= i < |chunks| ==> chunks[i].Holds(layout[i])
  }

  class BootBuffer {
    const max: nat
    var head: Chunk
    ghost var chunks: seq<Chunk>
    ghost var layout: seq<seq<Message>>
    ghost var repr: set<object>

    ghost predicate Owned()
      reads this
    {
      this in repr && forall c :: c in chunks ==> c in repr && c.entries in repr
    }

    ghost predicate Linked()
      reads this, repr
    {
      Owned() && 0 < max && Chained(chunks, max) && chunks[0] == head && Holding(chunks, layout)
    }

    ghost predicate Valid()
      reads this, repr
    {
      Linked() && Packed(layout, max)
    }

    /** The messages, in the order they were inserted. */
    ghost function Contents(): seq<Message>
      reads this
    {
      Flatten(layout)
    }

    constructor (max: nat)
      requires 0 < max
      ensures Valid() && fresh(repr) && this.max == max && Contents() == []
    {
      this.max := max;
      var c := new Chunk(max);
      head := c;
      chunks, layout, repr := [c], [[]], {this, c, c.entries};
    }

    /** The last chunk, found by following the links. */
    method LastChunk() returns (c: Chunk)
      requires Valid()
      ensures c == chunks[|chunks| - 1]
    {
      c := head;
      ghost var i := 0;
      while c.next != null
        invariant 0 <= i < |chunks| && c == chunks[i]
        invariant i < |chunks| - 1 ==> c.next == chunks[i + 1]
        decreases |chunks| - i
      {
        c := c.next;
        i := i + 1;
      }
    }

    /** Links an empty chunk after the last. */
    method Join(last: Chunk, more: Chunk)
      requires Linked() && last == chunks[|chunks| - 1] && more !in repr && more.entries !in repr
      requires more.used == 0 && more.next == null && more.entries.Length == max
      modifies this`chunks, this`layout, this`repr, last`next
      ensures Linked() && repr == old(repr) + {more, more.entries}
      ensures chunks == old(chunks) + [more] && layout == old(layout) + [[]]
    {
      last.next := more;
      chunks := chunks + [more];
      layout := layout + [[]];
      repr := repr + {more, more.entries};
    }

    /** Links a new, empty chunk after the last. */
    method Extend(last: Chunk) returns (more: Chunk)
      requires Linked() && last == chunks[|chunks| - 1]
      modifies this`chunks, this`layout, this`repr, last`next
      ensures Linked() && more.used == 0 && repr == old(repr) + {more, more.entries} && fresh({more, more.entries})
      ensures chunks == old(chunks) + [more] && layout == old(layout) + [[]]
    {
      more := new Chunk(max);
      Join(last, more);
    }

    method PutLast(last: Chunk, m: Message)
      requires Linked() && last == chunks[|chunks| - 1] && last.used < max
      modifies this`layout, last`used, last.entries
      ensures Linked()
      ensures |old(layout)| > 0 && layout == Filled(old(layout), m)
    {
      last.Put(m, layout[|layout| - 1]);
      layout := Filled(layout, m);
    }

    /** The last chunk, after linking a new one if that was full. */
    method MakeRoom() returns (last: Chunk)
      requires Valid()
      modifies repr
      ensures Linked() && fresh(repr - old(repr)) && last == chunks[|chunks| - 1] && last.used < max
      ensures |old(layout)| > 0 && layout == WithRoom(old(layout), max)
    {
      last := LastChunk();
      assert last.Holds(layout[|layout| - 1]);
      if last.used >= max {
        last := Extend(last);
      }
    }

    method Insert(m: Message)
      requires Valid()
      modifies repr
      ensures Valid() && fresh(repr - old(repr)) && Contents() == old(Contents()) + [m]
    {
      InsertedByFilling(layout, max, m);
      InsertedAppends(layout, max, m);
      var last := MakeRoom();
      PutLast(last, m);
    }
  }

  // ---------- Draining ----------

  /** Where a drain stands that is to go on with chunk `at`. */
  ghost predicate Resuming<M>(layout: seq<seq<M>>, ps: seq<nat>, at: nat) {
    && at <= |layout|
    && (Last(ps) + 1 == Start(layout, at)
         || (at < |layout| && Start(layout, at) <= Last(ps) + 1 < Start(layout, at + 1)))
  }

  ghost predicate Straight(ps: seq<nat>) { forall k :: 0 <= k < |ps| ==> ps[k] == k }

  /** What has been written stands for the positions `ps`, each entry tightened. */
  ghost predicate Writes(boot: nat, machine: nat, flat: seq<Message>, ps: seq<nat>, channel: seq<Message>) {
    && |channel| == |ps|
    && forall k :: 0 <= k < |ps| ==> ps[k] < |flat| && channel[k] == TightenMessage(boot, machine, flat[ps[k]])
  }

  /** Entry `i` of the chunk that a drain resumed with, or goes on in, may be written next. */
  lemma NextInChunk<M>(layout: seq<seq<M>>, ps: seq<nat>, at: nat, i: nat)
    requires Replays(layout, ps) && at < |layout| && i < |layout[at]|
    requires if i == 0 then Resuming(layout, ps, at) else Last(ps) == Start(layout, at) + i - 1
    ensures Replays(layout, ps + [Start(layout, at) + i]) && Resuming(layout, ps, at)
  {
    assert MayFollow(layout, Last(ps), Start(layout, at) + i);
    ReplaysSnoc(layout, ps, Start(layout, at) + i);
  }

  lemma WritesOneMore(
    boot: nat, machine: nat, flat: seq<Message>, ps: seq<nat>, channel: seq<Message>, p: nat, m: Message)
    requires Writes(boot, machine, flat, ps, channel) && p < |flat| && m == TightenMessage(boot, machine, flat[p])
    ensures Writes(boot, machine, flat, ps + [p], channel + [m])
    ensures Last(ps + [p]) == p && (Straight(ps) && |ps| == p ==> Straight(ps + [p]))
  {
  }

  lemma WritesSnoc(
    boot: nat, machine: nat, layout: seq<seq<Message>>, ps: seq<nat>, channel: seq<Message>,
    at: nat, i: nat, p: nat, m: Message)
    requires Writes(boot, machine, Flatten(layout), ps, channel) && Replays(layout, ps)
    requires at < |layout| && i < |layout[at]| && m == TightenMessage(boot, machine, layout[at][i])
    requires if i == 0 then Resuming(layout, ps, at) else Last(ps) == Start(layout, at) + i - 1
    requires p == Start(layout, at) + i
    ensures Replays(layout, ps + [p]) && Writes(boot, machine, Flatten(layout), ps + [p], channel + [m])
    ensures Last(ps + [p]) == p && (Straight(ps) && |ps| == p ==> Straight(ps + [p]))
  {
    FlattenAt(layout, at, i);
    NextInChunk(layout, ps, at, i);
    WritesOneMore(boot, machine, Flatten(layout), ps, channel, p, m);
  }

  /**
   The task that drains a detached buffer. It may be started any number of
   times; what it promises about the positions written holds after each.
   */
  class Drain {
    const boot: nat
    const machine: nat
    var buf: Chunk?
    var channel: seq<Message>
    ghost const chunks: seq<Chunk>
    ghost const layout: seq<seq<Message>>
    ghost const max: nat
    ghost var at: nat
    ghost var ps: seq<nat>
    ghost var interrupted: bool

    /** The chunk still holds its messages, tightened or not. */
    ghost predicate Intact(i: nat)
      requires i < |chunks| == |layout|
      reads chunks[i], chunks[i].entries
    {
      && chunks[i].used == |layout[i]| <= chunks[i].entries.Length
      && forall j :: 0 <= j < |layout[i]| ==>
           TightenMessage(boot, machine, chunks[i].entries[j]) == TightenMessage(boot, machine, layout[i][j])
    }

    ghost predicate Stored()
      reads chunks, Arrays(chunks)
    {
      |chunks| == |layout| && Chained(chunks, max) && forall i :: 0 <= i < |chunks| ==> Intact(i)
    }

    ghost predicate Written()
      reads this`ps, this`channel, this`interrupted
    {
      && Replays(layout, ps) && Writes(boot, machine, Flatten(layout), ps, channel)
      && (!interrupted ==> Straight(ps))
    }

    ghost predicate Core()
      reads this, chunks, Arrays(chunks)
    {
      Stored() && Written() && at <= |chunks| && buf == if at < |chunks| then chunks[at] else null
    }

    ghost predicate Valid()
      reads this, chunks, Arrays(chunks)
    {
      Core() && Resuming(layout, ps, at) && (!interrupted ==> |ps| == Start(layout, at))
    }

    /** The entries of the current chunk before `i` have just been written. */
    ghost predicate Within(i: nat)
      requires |chunks| == |layout|
      reads this
    {
      && at < |chunks| && i <= |layout[at]|
      && (if i == 0 then Resuming(layout, ps, at) else Last(ps) == Start(layout, at) + i - 1)
      && (!interrupted ==> |ps| == Start(layout, at) + i)
    }

    constructor (b: BootBuffer, boot: nat, machine: nat)
      requires b.Valid()
      ensures Valid() && chunks == b.chunks && layout == b.layout && this.boot == boot && this.machine == machine
      ensures channel == [] && !interrupted
    {
      this.boot, this.machine := boot, machine;
      buf, channel := b.head, [];
      chunks, layout, max := b.chunks, b.layout, b.max;
      at, ps, interrupted := 0, [], false;
      new;
      forall i | 0 <= i < |chunks| ensures Intact(i) {
        assert chunks[i].Holds(layout[i]);
        forall j | 0 <= j < |layout[i]| ensures chunks[i].entries[j] == layout[i][j] {
          assert chunks[i].entries[..chunks[i].used][j] == layout[i][j];
        }
      }
    }

    /** Tightens an entry where it stands. */
    method TightenEntry(i: nat) returns (m: Message)
      requires Core() && Within(i) && i < |layout[at]|
      modifies buf.entries
      ensures Core() && Within(i)
      ensures m == TightenMessage(boot, machine, layout[at][i])
    {
      assert Intact(at);
      var entries := buf.entries;
      m := TightenMessage(boot, machine, entries[i]);
      entries[i] := m;
      forall k | 0 <= k < |chunks| ensures Intact(k) {
        assert old(Intact(k));
        assert k != at ==> chunks[k].entries != entries;
      }
    }

    method WriteEntry(i: nat, m: Message)
      requires Core() && Within(i) && i < |layout[at]| && m == TightenMessage(boot, machine, layout[at][i])
      modifies this`channel, this`ps
      ensures Core() && Within(i + 1) && old(channel) <= channel
    {
      ghost var p := Start(layout, at) + i;
      WritesSnoc(boot, machine, layout, ps, channel, at, i, p, m);
      channel := channel + [m];
      ps := ps + [p];
    }

    /** Writes the current chunk out; `again` when the relay is found full on the way. */
    method WriteChunk(full: nat -> bool, n: nat) returns (again: bool, n': nat)
      requires Valid() && buf != null
      modifies this`channel, this`ps, this`interrupted, buf.entries
      ensures old(channel) <= channel
      ensures again ==> Valid() && interrupted && exists k :: full(k)
      ensures !again ==> Core() && Within(|layout[at]|) && interrupted == old(interrupted)
    {
      n' := n;
      assert Intact(at);
      for i := 0 to buf.used
        invariant Core() && Within(i) && interrupted == old(interrupted) && old(channel) <= channel
      {
        var m := TightenEntry(i);
        if full(n') {
          interrupted := true;
          return true, n' + 1;
        }
        n' := n' + 1;
        WriteEntry(i, m);
      }
      return false, n';
    }

    method NextChunk()
      requires Core() && at < |layout| && Within(|layout[at]|)
      modifies this`buf, this`at
      ensures Valid() && at == old(at) + 1
    {
      buf := buf.next;
      at := at + 1;
    }

    /** One run of the drain; `full` says what each look at the relay reports. */
    method RunTask(full: nat -> bool)
      requires Valid()
      modifies this`buf, this`channel, this`at, this`ps, this`interrupted, Arrays(chunks)
      ensures Valid() && Replays(layout, ps) && Writes(boot, machine, Flatten(layout), ps, channel)
      ensures old(channel) <= channel
      ensures buf != null ==> exists k :: full(k)
      ensures interrupted ==> old(interrupted) || exists k :: full(k)
    {
      var n := 0;
      while buf != null
        invariant Valid() && old(channel) <= channel
        invariant interrupted ==> old(interrupted) || exists k :: full(k)
        decreases |chunks| - at
      {
        assert chunks[at] in chunks;
        var again;
        again, n := WriteChunk(full, n);
        if again {
          return;
        }
        NextChunk();
      }
    }

    /** A finished drain has got to the end of the buffer. */
    lemma Finished()
      requires Valid() && buf == null
      ensures Last(ps) + 1 == |Flatten(layout)|
    {
      assert layout[..|layout|] == layout;
      StartIsLength(layout, |layout|);
    }

    /** A finished drain has written every message, tightened. */
    lemma LosesNothing(p: nat) returns (k: nat)
      requires Valid() && buf == null && p < |Flatten(layout)|
      ensures k < |ps| && ps[k] == p && channel[k] == TightenMessage(boot, machine, Flatten(layout)[p])
    {
      Finished();
      NothingIsLost(layout, ps, p);
      k :| 0 <= k < |ps| && ps[k] == p;
    }

    /** A drain that never found the relay full has written the messages in order, each once. */
    lemma WritesInOrder()
      requires Valid() && buf == null && !interrupted
      ensures |channel| == |Flatten(layout)|
      ensures forall k :: 0 <= k < |channel| ==> channel[k] == TightenMessage(boot, machine, Flatten(layout)[k])
    {
      Finished();
    }
  }
}
