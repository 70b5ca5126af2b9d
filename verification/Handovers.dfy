/**
 From boot buffers to the relay. User space sets the machine id and the boot
 id, the kernel opens the relay; whichever comes last hands the boot buffers
 over, and from then on records go straight to the relay.
 */
module Handovers {
  import opened ProvTypes
  import opened BootBuffers

  const EPERM := -1
  const EAGAIN := -11
  const ENOMEM := -12
  const EINVAL := -22

  /** Copying the id from user space; a fault leaves whatever was copied before it. */
  datatype Copy = Copied(value: nat) | Faulted(left: nat)

  datatype Request = Request(capable: bool, count: nat, copy: Copy)

  datatype Outcome = Outcome(id: nat, rc: int)

  /** Writing an id: what it becomes, and what the writer is told. */
  function Attempt(id: nat, q: Request): Outcome {
    if id != 0 then Outcome(id, EPERM)
    else if !q.capable then Outcome(id, EPERM)
    else if q.count < 4 then Outcome(id, ENOMEM)
    else match q.copy
      case Faulted(left) => Outcome(left, EAGAIN)
      case Copied(value) => Outcome(value, if value == 0 then EINVAL else q.count)
  }

  /**
   An id can be set once, by a permitted write of at least four bytes that are
   copied and are not 0; then the writer is told how much was written. Why any
   other write is refused, and that it leaves the id as it was unless the copy
   itself changed it.
   */
  lemma SetOnce(id: nat, q: Request)
    ensures var o := Attempt(id, q);
            && (o.rc >= 0 <==> id == 0 && q.capable && q.count >= 4 && q.copy.Copied? && q.copy.value != 0)
            && (o.rc >= 0 ==> o == Outcome(q.copy.value, q.count))
            && (o.rc == -1 <==> id != 0 || !q.capable)
            && (o.rc == -12 <==> id == 0 && q.capable && q.count < 4)
            && (o.rc == -11 <==> id == 0 && q.capable && q.count >= 4 && q.copy.Faulted?)
            && (o.rc == -22 <==> id == 0 && q.capable && q.count >= 4 && q.copy == Copied(0))
            && (o.rc == -11 ==> o.id == q.copy.left) && (o.rc < 0 && o.rc != -11 ==> o.id == id)
  {
  }

  datatype Pending = NoBuffers | Pending(regular: seq<Message>, long: seq<Message>)

  /** What has been written to one relay. */
  datatype Log = Log(regular: seq<Message>, long: seq<Message>)

  datatype Relay = Relay(
    machine: nat,
    boot: nat,
    initialized: bool,
    ready: bool,
    pending: Pending,           // what the live boot buffers hold
    relays: seq<Log>,           // the list of relays
    base: nat,                  // the relay opened at boot, once it is
    handed: seq<Pending>,       // history: the buffers handed over to be drained
    machineSet: bool,           // history: a machine id has been accepted
    bootSet: bool,              // history: a boot id has been accepted
    faulted: bool,              // history: a failed copy has left an id behind
    crashed: bool)              // a record was written with nowhere to go

  const START := Relay(0, 0, false, false, Pending([], []), [], 0, [], false, false, false, false)

  function MachineNode(boot: nat, machine: nat): Message {
    Message(Identifier(AGT_MACHINE, boot, machine, 0), NoEnds, 0)
  }

  function AddLong(l: Log, m: Message): Log { l.(long := l.long + [m]) }
  function AddRegular(l: Log, m: Message): Log { l.(regular := l.regular + [m]) }

  /** The machine node goes to the relay opened at boot. */
  function WithMachine(r: Relay): seq<Log> {
    if r.base >= |r.relays| then r.relays
    else r.relays[r.base := AddLong(r.relays[r.base], MachineNode(r.boot, r.machine))]
  }

  function HandOver(r: Relay): (r': Relay)
    ensures r'.machine == r.machine && r'.boot == r.boot && r'.initialized == r.initialized
  {
    if r.machine == 0 || r.boot == 0 || !r.initialized then r
    else r.(ready := true, pending := NoBuffers, handed := r.handed + [r.pending], relays := WithMachine(r))
  }

  function AllRegular(relays: seq<Log>, m: Message): (r: seq<Log>)
    ensures |r| == |relays| && forall i :: 0 <= i < |r| ==> r[i] == AddRegular(relays[i], m)
  {
    seq(|relays|, i requires 0 <= i < |relays| => AddRegular(relays[i], m))
  }

  function AllLong(relays: seq<Log>, m: Message): (r: seq<Log>)
    ensures |r| == |relays| && forall i :: 0 <= i < |r| ==> r[i] == AddLong(relays[i], m)
  {
    seq(|relays|, i requires 0 <= i < |relays| => AddLong(relays[i], m))
  }

  datatype Event =
    | WriteMachine(q: Request)
    | WriteBoot(q: Request)
    | Initialize                // opens the relay at boot
    | Create                    // opens a further relay
    | Emit(m: Message)
    | EmitLong(m: Message)

  /**
   After an attempt to set an id: an id left behind by a failed copy is noted, an accepted one may
   bring the handover.
   */
  function Settled(r: Relay, o: Outcome): (r': Relay)
    ensures r'.machine == r.machine && r'.boot == r.boot && r'.initialized == r.initialized
    ensures o.rc < 0 ==> r'.ready == r.ready
  {
    var r1 := r.(faulted := r.faulted || (o.rc == EAGAIN && o.id != 0));
    if o.rc >= 0 then HandOver(r1) else r1
  }

  function StepMachine(r: Relay, o: Outcome): Relay { r.(machine := o.id, machineSet := r.machineSet || o.rc >= 0) }
  function StepBoot(r: Relay, o: Outcome): Relay { r.(boot := o.id, bootSet := r.bootSet || o.rc >= 0) }

  function Step(r: Relay, e: Event): Relay {
    match e
    case WriteMachine(q) =>
      var o := Attempt(r.machine, q);
      Settled(StepMachine(r, o), o)
    case WriteBoot(q) =>
      var o := Attempt(r.boot, q);
      Settled(StepBoot(r, o), o)
    case Initialize => HandOver(r.(initialized := true, relays := r.relays + [Log([], [])], base := |r.relays|))
    case Create => r.(relays := r.relays + [Log([], [])])
    case Emit(m) =>
      if r.ready then r.(relays := AllRegular(r.relays, m))
      else if r.pending.Pending? then r.(pending := r.pending.(regular := r.pending.regular + [m]))
      else r.(crashed := true)
    case EmitLong(m) =>
      if r.ready then r.(relays := AllLong(r.relays, m))
      else if r.pending.Pending? then r.(pending := r.pending.(long := r.pending.long + [m]))
      else r.(crashed := true)
  }

  function Run(events: seq<Event>): Relay {
    if events == [] then START else Step(Run(events[..|events| - 1]), events[|events| - 1])
  }

  /** The relay is opened by an init call, which runs once. */
  ghost predicate InitializedOnce(events: seq<Event>) {
    forall i, j :: 0 <= i < j < |events| && events[i].Initialize? ==> !events[j].Initialize?
  }

  // ---------- Every run ----------

  /** The state of the handover itself. */
  ghost predicate Inv(r: Relay) {
    && !r.crashed
    && (r.ready <==> r.pending.NoBuffers?)
    && |r.handed| == (if r.ready then 1 else 0)
    && (r.ready ==> r.handed[0].Pending? && r.machine != 0 && r.boot != 0 && r.initialized)
    && (r.machineSet ==> r.machine != 0)
    && (r.bootSet ==> r.boot != 0)
    && (r.machineSet && r.bootSet && r.initialized ==> r.ready)
    && (r.faulted <==> (r.machine != 0 && !r.machineSet) || (r.boot != 0 && !r.bootSet))
  }

  lemma StepInv(r: Relay, e: Event)
    requires Inv(r) && (e.Initialize? ==> !r.initialized)
    ensures Inv(Step(r, e))
  {
    match e
    case WriteMachine(q) =>
      var o := Attempt(r.machine, q);
      assert Inv(Settled(StepMachine(r, o), o));
    case WriteBoot(q) =>
      var o := Attempt(r.boot, q);
      assert Inv(Settled(StepBoot(r, o), o));
    case _ =>
  }

  /** Before the handover the relays are empty; after it the first long record is the machine's. */
  ghost predicate Opened(r: Relay) {
    && (r.initialized ==> r.base < |r.relays|)
    && (r.ready ==> r.initialized && |r.relays[r.base].long| > 0
                    && r.relays[r.base].long[0].id == Identifier(AGT_MACHINE, r.boot, r.machine, 0))
    && (!r.ready ==> forall i :: 0 <= i < |r.relays| ==> r.relays[i] == Log([], []))
  }

  lemma StepOpened(r: Relay, e: Event)
    requires Inv(r) && Opened(r) && (e.Initialize? ==> !r.initialized)
    ensures Opened(Step(r, e))
  {
  }

  lemma StepInitialized(r: Relay, e: Event)
    ensures Step(r, e).initialized == (r.initialized || e.Initialize?)
  {
    match e
    case WriteMachine(q) =>
    case WriteBoot(q) =>
    case _ =>
  }

  lemma {:induction false} InitializedIff(events: seq<Event>)
    ensures Run(events).initialized <==> exists i :: 0 <= i < |events| && events[i].Initialize?
    decreases |events|
  {
    if events != [] {
      var init, e := events[..|events| - 1], events[|events| - 1];
      InitializedIff(init);
      StepInitialized(Run(init), e);
      if i :| 0 <= i < |init| && init[i].Initialize? { assert events[i].Initialize?; }
      if e.Initialize? { assert events[|events| - 1].Initialize?; }
      if i :| 0 <= i < |events| && events[i].Initialize? { assert i < |init| ==> init[i].Initialize?; }
    }
  }

  /** The last event does not open the relay again. */
  lemma OpenedOnce(events: seq<Event>)
    requires InitializedOnce(events) && events != []
    ensures events[|events| - 1].Initialize? ==> !Run(events[..|events| - 1]).initialized
  {
    var init := events[..|events| - 1];
    InitializedIff(init);
    assert forall i :: 0 <= i < |init| ==> init[i] == events[i];
  }

  lemma {:induction false} RunInv(events: seq<Event>)
    requires InitializedOnce(events)
    ensures Inv(Run(events)) && Opened(Run(events))
    decreases |events|
  {
    if events != [] {
      var init, e := events[..|events| - 1], events[|events| - 1];
      assert forall i :: 0 <= i < |init| ==> init[i] == events[i];
      RunInv(init);
      OpenedOnce(events);
      StepInv(Run(init), e);
      StepOpened(Run(init), e);
    }
  }

  /** Once the relay is ready, its first long record is the machine's, with the ids of the run. */
  lemma MachineComesFirst(events: seq<Event>)
    requires InitializedOnce(events) && Run(events).ready
    ensures var r := Run(events);
            && r.base < |r.relays| && r.relays[r.base].long != []
            && r.relays[r.base].long[0].id == Identifier(AGT_MACHINE, r.boot, r.machine, 0)
  {
    RunInv(events);
  }

  /** How often a relay was opened. */
  ghost function Openings(events: seq<Event>): nat {
    if events == [] then 0
    else
      var last := events[|events| - 1];
      Openings(events[..|events| - 1]) + if last.Initialize? || last.Create? then 1 else 0
  }

  /** Each opening adds one relay to the list, and nothing else adds or removes any. */
  lemma {:induction false} RelaysAreTheOpenings(events: seq<Event>)
    ensures |Run(events).relays| == Openings(events)
    decreases |events|
  {
    if events != [] {
      var e := events[|events| - 1];
      RelaysAreTheOpenings(events[..|events| - 1]);
      StepOpens(Run(events[..|events| - 1]), e);
    }
  }

  lemma StepOpens(r: Relay, e: Event)
    ensures |Step(r, e).relays| == |r.relays| + if e.Initialize? || e.Create? then 1 else 0
  {
    match e
    case WriteMachine(q) =>
    case WriteBoot(q) =>
    case _ =>
  }

  /**
   The buffers are handed over once at most, exactly when the relay becomes
   ready, and until then every record has a live buffer to go to. The relay is
   ready once both ids have been accepted and it has been opened.
   */
  lemma HandedOverOnce(events: seq<Event>)
    requires InitializedOnce(events)
    ensures var r := Run(events);
            && !r.crashed && (r.ready || r.pending.Pending?)
            && |r.handed| == (if r.ready then 1 else 0)
            && (r.machineSet && r.bootSet && r.initialized ==> r.ready)
  {
    RunInv(events);
  }

  // ---------- Ids left behind ----------

  /** The copy of an id is tried and fails after part of it has been written. */
  ghost predicate HalfCopied(id: nat, q: Request) {
    id == 0 && q.capable && q.count >= 4 && q.copy.Faulted? && q.copy.left != 0
  }

  /** Event `i` is a write of an id, not set before, whose copy fails half way. */
  ghost predicate LeavesId(events: seq<Event>, i: nat)
    requires i < |events|
  {
    match events[i]
    case WriteMachine(q) => HalfCopied(Run(events[..i]).machine, q)
    case WriteBoot(q) => HalfCopied(Run(events[..i]).boot, q)
    case _ => false
  }

  lemma HalfCopiedFaults(id: nat, q: Request)
    ensures HalfCopied(id, q) <==> Attempt(id, q).rc == EAGAIN && Attempt(id, q).id != 0
  {
  }

  lemma FaultedStep(r: Relay, e: Event)
    ensures Step(r, e).faulted <==> r.faulted || (e.WriteMachine? && HalfCopied(r.machine, e.q))
                                    || (e.WriteBoot? && HalfCopied(r.boot, e.q))
  {
    match e
    case WriteMachine(q) => HalfCopiedFaults(r.machine, q);
    case WriteBoot(q) => HalfCopiedFaults(r.boot, q);
    case _ =>
  }

  lemma {:induction false} FaultedIff(events: seq<Event>)
    ensures Run(events).faulted <==> exists i :: 0 <= i < |events| && LeavesId(events, i)
    decreases |events|
  {
    if events != [] {
      var last := |events| - 1;
      var init := events[..last];
      FaultedIff(init);
      FaultedStep(Run(init), events[last]);
      forall i | 0 <= i < last ensures LeavesId(events, i) <==> LeavesId(init, i) {
        assert init[..i] == events[..i];
      }
      if i :| 0 <= i < |init| && LeavesId(init, i) { assert LeavesId(events, i); }
      if LeavesId(events, last) { assert Run(events).faulted; }
    }
  }

  /**
   Being ready means that all three have happened exactly when no write of an
   id failed half way through its copy.
   */
  lemma ReadyMeansAllThree(events: seq<Event>)
    requires InitializedOnce(events) && Run(events).ready
    ensures var r := Run(events);
            r.machineSet && r.bootSet && r.initialized <==> !exists i :: 0 <= i < |events| && LeavesId(events, i)
  {
    RunInv(events);
    FaultedIff(events);
  }

  /** A copy that fails half way counts as an id: the relay becomes ready though the machine id was refused. */
  lemma HalfCopyMakesReady()
    ensures var m, b := WriteMachine(Request(true, 4, Faulted(1))), WriteBoot(Request(true, 4, Copied(7)));
            var r := Run([Initialize, m, b]);
            r.ready && !r.machineSet
  {
    var a, b, c := Initialize, WriteMachine(Request(true, 4, Faulted(1))), WriteBoot(Request(true, 4, Copied(7)));
    RunThree(a, b, c);
  }

  lemma RunThree(a: Event, b: Event, c: Event)
    ensures Run([a, b, c]) == Step(Step(Step(START, a), b), c)
  {
    assert [a, b, c][..2] == [a, b] && [a, b][..1] == [a] && [a][..0] == [];
    assert Run([a]) == Step(START, a);
    assert Run([a, b]) == Step(Step(START, a), b);
  }

  ghost predicate Stuck(r: Relay) { !r.ready && r.machine != 0 && r.boot != 0 && r.initialized }

  lemma StuckStep(r: Relay, e: Event)
    requires Stuck(r) && !e.Initialize?
    ensures Stuck(Step(r, e))
  {
    match e
    case WriteMachine(q) =>
    case WriteBoot(q) =>
    case _ =>
  }

  /** Once everything is in place without the relay being ready, no later event makes it so. */
  lemma {:induction false} Blocked(events: seq<Event>, n: nat)
    requires InitializedOnce(events) && n <= |events| && Stuck(Run(events[..n]))
    ensures Stuck(Run(events))
    decreases |events|
  {
    if n == |events| {
      assert events[..n] == events;
    } else {
      var init, e := events[..|events| - 1], events[|events| - 1];
      assert init[..n] == events[..n];
      assert forall i :: 0 <= i < |init| ==> init[i] == events[i];
      Blocked(init, n);
      OpenedOnce(events);
      StuckStep(Run(init), e);
    }
  }

  /** Or the relay never becomes ready: a failed copy of the machine id, after the boot id, shuts it off for good. */
  lemma HalfCopyBlocks(events: seq<Event>)
    requires InitializedOnce(events) && |events| >= 3
    requires events[..3] ==
             [Initialize, WriteBoot(Request(true, 4, Copied(7))), WriteMachine(Request(true, 4, Faulted(1)))]
    ensures !Run(events).ready
  {
    RunThree(events[..3][0], events[..3][1], events[..3][2]);
    Blocked(events, 3);
  }

  // ---------- Nothing is lost on the way ----------

  ghost function Emitted(events: seq<Event>): seq<Message> {
    if events == [] then []
    else Emitted(events[..|events| - 1]) + match events[|events| - 1] case Emit(m) => [m] case _ => []
  }

  ghost function EmittedLong(events: seq<Event>): seq<Message> {
    if events == [] then []
    else EmittedLong(events[..|events| - 1]) + match events[|events| - 1] case EmitLong(m) => [m] case _ => []
  }

  ghost function Buffered(r: Relay): Pending
    requires Inv(r)
  {
    if r.ready then r.handed[0] else r.pending
  }

  /** What the relay opened at boot has been sent. */
  ghost function Sent(r: Relay): seq<Message>
    requires Opened(r)
  {
    if r.ready then r.relays[r.base].regular else []
  }

  /** Likewise for long records, after the machine node. */
  ghost function SentLong(r: Relay): seq<Message>
    requires Opened(r)
  {
    if r.ready then r.relays[r.base].long[1..] else []
  }

  /** What has been emitted, going by the state alone. */
  ghost function Total(r: Relay): seq<Message>
    requires Inv(r) && Opened(r)
  {
    Buffered(r).regular + Sent(r)
  }

  ghost function TotalLong(r: Relay): seq<Message>
    requires Inv(r) && Opened(r)
  {
    Buffered(r).long + SentLong(r)
  }

  /** A handover moves the buffers and adds nothing but the machine node. */
  lemma HandOverConserves(r: Relay, r1: Relay, r': Relay)
    requires Inv(r) && Opened(r) && Inv(r') && Opened(r') && r' == HandOver(r1)
    requires !r.ready && !r1.ready && r1.pending == r.pending && r1.handed == r.handed
    requires r1.initialized ==> r1.base < |r1.relays| && r1.relays[r1.base] == Log([], [])
    ensures Total(r') == Total(r) && TotalLong(r') == TotalLong(r)
  {
  }

  lemma IdConserves(r: Relay, r1: Relay, o: Outcome)
    requires Inv(r) && Opened(r) && Inv(Settled(r1, o)) && Opened(Settled(r1, o)) && (r.ready ==> o.rc < 0)
    requires r1 == r.(machine := r1.machine, boot := r1.boot, machineSet := r1.machineSet, bootSet := r1.bootSet)
    ensures Total(Settled(r1, o)) == Total(r) && TotalLong(Settled(r1, o)) == TotalLong(r)
  {
    if o.rc >= 0 {
      HandOverConserves(r, r1.(faulted := r1.faulted || (o.rc == EAGAIN && o.id != 0)), Settled(r1, o));
    }
  }

  lemma EmitConserves(r: Relay, m: Message)
    requires Inv(r) && Opened(r) && Inv(Step(r, Emit(m))) && Opened(Step(r, Emit(m)))
    ensures Total(Step(r, Emit(m))) == Total(r) + [m] && TotalLong(Step(r, Emit(m))) == TotalLong(r)
  {
  }

  lemma EmitLongConserves(r: Relay, m: Message)
    requires Inv(r) && Opened(r) && Inv(Step(r, EmitLong(m))) && Opened(Step(r, EmitLong(m)))
    ensures Total(Step(r, EmitLong(m))) == Total(r) && TotalLong(Step(r, EmitLong(m))) == TotalLong(r) + [m]
  {
    if r.ready { assert (r.relays[r.base].long + [m])[1..] == r.relays[r.base].long[1..] + [m]; }
  }

  lemma CreateConserves(r: Relay)
    requires Inv(r) && Opened(r) && Inv(Step(r, Create)) && Opened(Step(r, Create))
    ensures Total(Step(r, Create)) == Total(r) && TotalLong(Step(r, Create)) == TotalLong(r)
  {
  }

  lemma InitializeConserves(r: Relay)
    requires Inv(r) && Opened(r) && !r.initialized && Inv(Step(r, Initialize)) && Opened(Step(r, Initialize))
    ensures Total(Step(r, Initialize)) == Total(r) && TotalLong(Step(r, Initialize)) == TotalLong(r)
  {
    var r1 := r.(initialized := true, relays := r.relays + [Log([], [])], base := |r.relays|);
    HandOverConserves(r, r1, Step(r, Initialize));
  }

  lemma StepConserves(r: Relay, e: Event)
    requires Inv(r) && Opened(r) && (e.Initialize? ==> !r.initialized) && Inv(Step(r, e)) && Opened(Step(r, e))
    ensures Total(Step(r, e)) == Total(r) + match e case Emit(m) => [m] case _ => []
    ensures TotalLong(Step(r, e)) == TotalLong(r) + match e case EmitLong(m) => [m] case _ => []
  {
    assert Total(r) + [] == Total(r) && TotalLong(r) + [] == TotalLong(r);
    match e
    case WriteMachine(q) => IdConserves(r, StepMachine(r, Attempt(r.machine, q)), Attempt(r.machine, q));
    case WriteBoot(q) => IdConserves(r, StepBoot(r, Attempt(r.boot, q)), Attempt(r.boot, q));
    case Initialize => InitializeConserves(r);
    case Create => CreateConserves(r);
    case Emit(m) => EmitConserves(r, m);
    case EmitLong(m) => EmitLongConserves(r, m);
  }

  /**
   Every record is either in the buffers, handed over or still live, or was
   sent to the relay after them, in the order in which it was emitted; the long
   records sent start with the machine node.
   */
  lemma {:induction false} RecordsAreConserved(events: seq<Event>)
    requires InitializedOnce(events)
    ensures Inv(Run(events)) && Opened(Run(events))
    ensures Emitted(events) == Buffered(Run(events)).regular + Sent(Run(events))
    ensures EmittedLong(events) == Buffered(Run(events)).long + SentLong(Run(events))
    decreases |events|
  {
    RunInv(events);
    if events != [] {
      var init, e := events[..|events| - 1], events[|events| - 1];
      assert forall i :: 0 <= i < |init| ==> init[i] == events[i];
      RunInv(init);
      RecordsAreConserved(init);
      OpenedOnce(events);
      StepConserves(Run(init), e);
    }
  }

  /** From the handover on, every relay there is gets every record. */
  lemma {:induction false} EveryRelayIsServed(events: seq<Event>, n: nat, i: nat)
    requires InitializedOnce(events) && n <= |events| && Run(events[..n]).ready && i < |Run(events[..n]).relays|
    ensures Run(events).ready && i < |Run(events).relays|
    ensures var l, l' := Run(events[..n]).relays[i], Run(events).relays[i];
            l'.regular == l.regular + Emitted(events[n..]) && l'.long == l.long + EmittedLong(events[n..])
    decreases |events|
  {
    if n == |events| {
      assert events[..n] == events && events[n..] == [];
    } else {
      var init, e := events[..|events| - 1], events[|events| - 1];
      assert init[..n] == events[..n];
      TailEmits(events, n);
      assert forall k :: 0 <= k < |init| ==> init[k] == events[k];
      EveryRelayIsServed(init, n, i);
      RunInv(init);
      OpenedOnce(events);
      ServedStep(Run(init), e, i);
    }
  }

  lemma TailEmits(events: seq<Event>, n: nat)
    requires n < |events|
    ensures var init, e := events[..|events| - 1], events[|events| - 1];
            && Emitted(events[n..]) == Emitted(init[n..]) + (match e case Emit(m) => [m] case _ => [])
            && EmittedLong(events[n..]) == EmittedLong(init[n..]) + match e case EmitLong(m) => [m] case _ => []
  {
    var tail := events[n..];
    assert tail[..|tail| - 1] == events[..|events| - 1][n..] && tail[|tail| - 1] == events[|events| - 1];
  }

  lemma ServedStep(r: Relay, e: Event, i: nat)
    requires Inv(r) && r.ready && i < |r.relays| && !e.Initialize?
    ensures var r' := Step(r, e);
            && r'.ready && i < |r'.relays|
            && r'.relays[i].regular == r.relays[i].regular + (match e case Emit(m) => [m] case _ => [])
            && r'.relays[i].long == r.relays[i].long + match e case EmitLong(m) => [m] case _ => []
  {
  }

  // ---------- From the buffers to the relay ----------

  /** The drain has taken over these messages, and stamps them with these ids. */
  ghost predicate TakesOver(d: Drain, buffered: seq<Message>, boot: nat, machine: nat)
    reads d, d.chunks, Arrays(d.chunks)
  {
    d.Valid() && Flatten(d.layout) == buffered && d.boot == boot && d.machine == machine
  }

  /** The drain has written the message, stamped with these ids. */
  ghost predicate Wrote(d: Drain, m: Message, boot: nat, machine: nat)
    reads d
  {
    exists j :: 0 <= j < |d.channel| && d.channel[j] == TightenMessage(boot, machine, m)
  }

  /** The two drains have taken over what was handed over last. */
  ghost predicate HandedTo(handed: seq<Pending>, boot: nat, machine: nat, d: Drain, l: Drain)
    reads d, d.chunks, Arrays(d.chunks), l, l.chunks, Arrays(l.chunks)
  {
    && |handed| > 0 && handed[|handed| - 1].Pending?
    && TakesOver(d, handed[|handed| - 1].regular, boot, machine)
    && TakesOver(l, handed[|handed| - 1].long, boot, machine)
  }

  lemma FixedStep(r: Relay, e: Event)
    requires Inv(r) && r.ready && !e.Initialize?
    ensures var r' := Step(r, e); r'.ready && r'.machine == r.machine && r'.boot == r.boot && r'.handed == r.handed
  {
  }

  /** Once the relay is ready, its ids and what was handed over stay as they are. */
  lemma {:induction false} FixedOnceReady(events: seq<Event>, n: nat)
    requires InitializedOnce(events) && n <= |events| && Run(events[..n]).ready
    ensures var r, r' := Run(events[..n]), Run(events);
            r'.ready && r'.machine == r.machine && r'.boot == r.boot && r'.handed == r.handed
    decreases |events|
  {
    if n == |events| {
      assert events[..n] == events;
    } else {
      var init, e := events[..|events| - 1], events[|events| - 1];
      assert init[..n] == events[..n];
      assert forall k :: 0 <= k < |init| ==> init[k] == events[k];
      FixedOnceReady(init, n);
      RunInv(init);
      OpenedOnce(events);
      FixedStep(Run(init), e);
    }
  }

  /**
   When the drain is through, every record ever emitted has been written to
   the relay: those emitted before the handover by the drain, stamped with the
   ids of the run, those after it directly.
   */
  lemma EveryRecordArrives(events: seq<Event>, d: Drain, k: nat)
    requires InitializedOnce(events) && Run(events).ready && Inv(Run(events)) && Opened(Run(events))
    requires TakesOver(d, Run(events).handed[0].regular, Run(events).boot, Run(events).machine)
    requires d.buf == null && k < |Emitted(events)|
    ensures var r := Run(events); var before := |r.handed[0].regular|;
            if k < before then Wrote(d, Emitted(events)[k], r.boot, r.machine)
            else k - before < |Sent(r)| && Sent(r)[k - before] == Emitted(events)[k]
  {
    RecordsAreConserved(events);
    if k < |Run(events).handed[0].regular| {
      var j := d.LosesNothing(k);
    }
  }

  lemma EveryLongRecordArrives(events: seq<Event>, d: Drain, k: nat)
    requires InitializedOnce(events) && Run(events).ready && Inv(Run(events)) && Opened(Run(events))
    requires TakesOver(d, Run(events).handed[0].long, Run(events).boot, Run(events).machine)
    requires d.buf == null && k < |EmittedLong(events)|
    ensures var r := Run(events); var before := |r.handed[0].long|;
            if k < before then Wrote(d, EmittedLong(events)[k], r.boot, r.machine)
            else k - before < |SentLong(r)| && SentLong(r)[k - before] == EmittedLong(events)[k]
  {
    RecordsAreConserved(events);
    if k < |Run(events).handed[0].long| {
      var j := d.LosesNothing(k);
    }
  }

  /** Of two records emitted before the handover, the earlier one is in the relay before the later one first is. */
  lemma ArrivalsAreInOrder(events: seq<Event>, d: Drain, p: nat, q: nat) returns (k: nat, j: nat)
    requires InitializedOnce(events) && Run(events).ready && Inv(Run(events)) && Opened(Run(events))
    requires TakesOver(d, Run(events).handed[0].regular, Run(events).boot, Run(events).machine)
    requires d.buf == null && p < q < |Run(events).handed[0].regular|
    ensures q < |Emitted(events)| && k < j < |d.channel| && |d.ps| == |d.channel| && d.ps[j] == q && q !in d.ps[..j]
    ensures d.channel[k] == TightenMessage(Run(events).boot, Run(events).machine, Emitted(events)[p])
    ensures d.channel[j] == TightenMessage(Run(events).boot, Run(events).machine, Emitted(events)[q])
  {
    RecordsAreConserved(events);
    var i := d.LosesNothing(q);
    assert d.ps[i] in d.ps;
    FirstsAreInOrder(d.layout, d.ps, q, p);
    k, j :| 0 <= k < j < |d.ps| && d.ps[k] == p && d.ps[j] == q && q !in d.ps[..j];
  }

  // ---------- As the kernel does it ----------

  lemma RunSnoc(events: seq<Event>, e: Event)
    requires InitializedOnce(events) && (e.Initialize? ==> !Run(events).initialized)
    ensures InitializedOnce(events + [e]) && Run(events + [e]) == Step(Run(events), e)
  {
    InitializedIff(events);
    assert (events + [e])[..|events|] == events;
  }

  /** The checks made on the way to an id. */
  method ReadId(current: nat, q: Request) returns (id: nat, rc: int)
    ensures Outcome(id, rc) == Attempt(current, q)
  {
    if current != 0 {
      return current, EPERM;
    }
    if !q.capable {
      return current, EPERM;
    }
    if q.count < 4 {
      return current, ENOMEM;
    }
    match q.copy {
      case Faulted(left) => return left, EAGAIN;
      case Copied(value) => return value, if value == 0 then EINVAL else q.count;
    }
  }

  /** The buffers that the kernel boots with. */
  method BootBuffersFor(size: nat, longSize: nat) returns (b: BootBuffer, l: BootBuffer)
    requires 0 < size && 0 < longSize
    ensures b.Valid() && l.Valid() && fresh(b.repr) && fresh(l.repr) && b.repr !! l.repr
    ensures b.Contents() == [] && l.Contents() == []
  {
    b := new BootBuffer(size);
    l := new BootBuffer(longSize);
  }

  /** Starts draining two detached buffers. */
  method StartDrains(b: BootBuffer, l: BootBuffer, boot: nat, machine: nat) returns (d: Drain, dl: Drain)
    requires b.Valid() && l.Valid()
    ensures fresh(d) && TakesOver(d, b.Contents(), boot, machine)
    ensures fresh(dl) && TakesOver(dl, l.Contents(), boot, machine)
  {
    d := new Drain(b, boot, machine);
    dl := new Drain(l, boot, machine);
  }

  class Channel {
    var machine: nat
    var boot: nat
    var initialized: bool
    var ready: bool
    var buffer: BootBuffer?
    var longBuffer: BootBuffer?
    var relays: seq<Log>
    var base: nat
    ghost var handed: seq<Pending>
    ghost var machineSet: bool
    ghost var bootSet: bool
    ghost var faulted: bool
    ghost var events: seq<Event>

    /** The objects of the live boot buffers. */
    ghost function Buffers(): set<object>
      reads this, buffer, longBuffer
    {
      (if buffer == null then {} else buffer.repr) + if longBuffer == null then {} else longBuffer.repr
    }

    ghost predicate Shape()
      reads this, buffer, longBuffer, Buffers()
    {
      && this !in Buffers()
      && (buffer == null <==> longBuffer == null)
      && (buffer != null && longBuffer != null ==>
           buffer.Valid() && longBuffer.Valid() && buffer.repr !! longBuffer.repr)
      && (initialized ==> base < |relays|)
    }

    ghost function View(): Relay
      reads this, buffer, longBuffer
    {
      Relay(machine, boot, initialized, ready,
            if buffer == null || longBuffer == null then NoBuffers
            else Pending(buffer.Contents(), longBuffer.Contents()),
            relays, base, handed, machineSet, bootSet, faulted, false)
    }

    /** The state is that of the run of all events so far. */
    ghost predicate Valid()
      reads this, buffer, longBuffer, Buffers()
    {
      Shape() && InitializedOnce(events) && View() == Run(events)
    }

    constructor ()
      ensures Valid() && fresh(Buffers()) && events == []
    {
      machine, boot, initialized, ready := 0, 0, false, false;
      var b, l := BootBuffersFor(INITIAL_BUFF_SIZE, INITIAL_LONG_BUFF_SIZE);
      buffer, longBuffer := b, l;
      relays, base, handed := [], 0, [];
      machineSet, bootSet, faulted, events := false, false, false, [];
    }

    // ---------- Parts of the steps ----------

    /** The buffers are intact and no part of this object. */
    ghost predicate Taken(b: BootBuffer, l: BootBuffer)
      reads b, b.repr, l, l.repr
    {
      b.Valid() && l.Valid() && this !in b.repr && this !in l.repr
    }

    /** Detaches the boot buffers. */
    method Detach() returns (b: BootBuffer?, l: BootBuffer?)
      requires Shape()
      modifies this`buffer, this`longBuffer, this`handed
      ensures Shape() && View() == old(View()).(pending := NoBuffers, handed := old(handed) + [old(View()).pending])
      ensures b == old(buffer) && (b == null <==> l == null)
      ensures b != null && l != null ==> Taken(b, l) && handed == old(handed) + [Pending(b.Contents(), l.Contents())]
    {
      handed := handed + [View().pending];
      b, l := buffer, longBuffer;
      buffer, longBuffer := null, null;
    }

    /** Sends the machine node to the relay opened at boot. */
    method SendMachine()
      requires Shape() && initialized
      modifies this`relays
      ensures Shape() && View() == old(View()).(relays := WithMachine(old(View())))
    {
      relays := relays[base := AddLong(relays[base], MachineNode(boot, machine))];
    }

    /** Makes the relay ready. */
    method MakeReady() returns (b: BootBuffer?, l: BootBuffer?)
      requires Shape() && machine != 0 && boot != 0 && initialized
      modifies this`ready, this`buffer, this`longBuffer, this`handed, this`relays
      ensures Shape() && View() == HandOver(old(View()))
      ensures b == old(buffer) && (b == null <==> l == null)
      ensures b != null && l != null ==> Taken(b, l) && handed == old(handed) + [Pending(b.Contents(), l.Contents())]
    {
      ready := true;
      b, l := Detach();
      SendMachine();
    }

    /** Starts draining what was handed over last. */
    method Launch(b: BootBuffer, lb: BootBuffer) returns (d: Drain, l: Drain)
      requires Shape() && Taken(b, lb) && |handed| > 0
      requires handed[|handed| - 1] == Pending(b.Contents(), lb.Contents())
      ensures Shape() && View() == old(View()) && HandedTo(handed, boot, machine, d, l)
    {
      d, l := StartDrains(b, lb, boot, machine);
    }

    /** Detaches the boot buffers and starts draining them, once everything is in place. */
    method WriteBootBuffer() returns (d: Drain?, l: Drain?)
      requires Shape()
      modifies this
      ensures Shape() && View() == HandOver(old(View())) && events == old(events)
      ensures d != null && l != null ==> HandedTo(handed, boot, machine, d, l)
      ensures ready && !old(ready) && old(buffer) != null ==> d != null && l != null
    {
      d, l := null, null;
      if machine == 0 || boot == 0 || !initialized {
        return;
      }
      var b, lb := MakeReady();
      if b != null {
        d, l := Launch(b, lb);
      }
    }

    method Settle(o: Outcome) returns (d: Drain?, l: Drain?)
      requires Shape()
      modifies this
      ensures Shape() && View() == Settled(old(View()), o) && events == old(events)
      ensures d != null && l != null ==> HandedTo(handed, boot, machine, d, l)
      ensures ready && !old(ready) && old(buffer) != null ==> d != null && l != null
    {
      d, l := null, null;
      faulted := faulted || (o.rc == EAGAIN && o.id != 0);
      if o.rc >= 0 {
        d, l := WriteBootBuffer();
      }
    }

    method SetMachine(o: Outcome)
      requires Shape()
      modifies this`machine, this`machineSet
      ensures Shape() && View() == StepMachine(old(View()), o)
    {
      machine, machineSet := o.id, machineSet || o.rc >= 0;
    }

    method SetBoot(o: Outcome)
      requires Shape()
      modifies this`boot, this`bootSet
      ensures Shape() && View() == StepBoot(old(View()), o)
    {
      boot, bootSet := o.id, bootSet || o.rc >= 0;
    }

    method StoreMachineId(q: Request) returns (rc: int, d: Drain?, l: Drain?)
      requires Shape()
      modifies this
      ensures Shape() && View() == Step(old(View()), WriteMachine(q)) && events == old(events)
      ensures rc == Attempt(old(machine), q).rc
      ensures d != null && l != null ==> HandedTo(handed, boot, machine, d, l)
      ensures ready && !old(ready) && old(buffer) != null ==> d != null && l != null
    {
      var id;
      id, rc := ReadId(machine, q);
      SetMachine(Outcome(id, rc));
      d, l := Settle(Outcome(id, rc));
    }

    method StoreBootId(q: Request) returns (rc: int, d: Drain?, l: Drain?)
      requires Shape()
      modifies this
      ensures Shape() && View() == Step(old(View()), WriteBoot(q)) && events == old(events)
      ensures rc == Attempt(old(boot), q).rc
      ensures d != null && l != null ==> HandedTo(handed, boot, machine, d, l)
      ensures ready && !old(ready) && old(buffer) != null ==> d != null && l != null
    {
      var id;
      id, rc := ReadId(boot, q);
      SetBoot(Outcome(id, rc));
      d, l := Settle(Outcome(id, rc));
    }

    method OpenBase() returns (d: Drain?, l: Drain?)
      requires Shape()
      modifies this
      ensures Shape() && View() == Step(old(View()), Initialize) && events == old(events)
      ensures d != null && l != null ==> HandedTo(handed, boot, machine, d, l)
      ensures ready && !old(ready) && old(buffer) != null ==> d != null && l != null
    {
      base := |relays|;
      relays := relays + [Log([], [])];
      initialized := true;
      d, l := WriteBootBuffer();
    }

    method OpenAnother()
      requires Shape()
      modifies this`relays
      ensures Shape() && View() == Step(old(View()), Create)
    {
      relays := relays + [Log([], [])];
    }

    method Store(m: Message)
      requires Shape() && (ready || buffer != null)
      modifies this`relays, Buffers()
      ensures Shape() && View() == Step(old(View()), Emit(m)) && events == old(events)
    {
      if !ready {
        buffer.Insert(m);
      } else {
        WriteAll(m);
      }
    }

    method StoreLong(m: Message)
      requires Shape() && (ready || longBuffer != null)
      modifies this`relays, Buffers()
      ensures Shape() && View() == Step(old(View()), EmitLong(m)) && events == old(events)
    {
      if !ready {
        longBuffer.Insert(m);
      } else {
        WriteAllLong(m);
      }
    }

    /** Adds what is about to happen to the history. */
    ghost method Note(e: Event)
      requires Valid() && (e.Initialize? ==> !initialized)
      modifies this`events
      ensures Shape() && InitializedOnce(events) && events == old(events) + [e]
      ensures View() == old(View()) && Run(events) == Step(View(), e)
    {
      RunSnoc(events, e);
      events := events + [e];
    }

    /** Until the relay is ready, there are buffers. */
    lemma BuffersAreLive()
      requires Valid()
      ensures ready || (buffer != null && longBuffer != null)
    {
      HandedOverOnce(events);
    }

    // ---------- The steps ----------

    method WriteMachineId(q: Request) returns (rc: int, d: Drain?, l: Drain?)
      requires Valid()
      modifies this
      ensures Valid() && events == old(events) + [WriteMachine(q)] && rc == Attempt(old(machine), q).rc
      ensures d != null && l != null ==> HandedTo(handed, boot, machine, d, l)
      ensures ready && !old(ready) ==> d != null && l != null
    {
      BuffersAreLive();
      Note(WriteMachine(q));
      rc, d, l := StoreMachineId(q);
    }

    method WriteBootId(q: Request) returns (rc: int, d: Drain?, l: Drain?)
      requires Valid()
      modifies this
      ensures Valid() && events == old(events) + [WriteBoot(q)] && rc == Attempt(old(boot), q).rc
      ensures d != null && l != null ==> HandedTo(handed, boot, machine, d, l)
      ensures ready && !old(ready) ==> d != null && l != null
    {
      BuffersAreLive();
      Note(WriteBoot(q));
      rc, d, l := StoreBootId(q);
    }

    /** Opens the relay at boot; an init call, made once. */
    method Open() returns (d: Drain?, l: Drain?)
      requires Valid() && !initialized
      modifies this
      ensures Valid() && events == old(events) + [Initialize]
      ensures d != null && l != null ==> HandedTo(handed, boot, machine, d, l)
      ensures ready && !old(ready) ==> d != null && l != null
    {
      BuffersAreLive();
      Note(Initialize);
      d, l := OpenBase();
    }

    method CreateChannel()
      requires Valid()
      modifies this
      ensures Valid() && events == old(events) + [Create]
    {
      Note(Create);
      OpenAnother();
    }

    method Write(m: Message)
      requires Valid()
      modifies this, Buffers()
      ensures Valid() && events == old(events) + [Emit(m)]
    {
      BuffersAreLive();
      Note(Emit(m));
      Store(m);
    }

    method WriteLong(m: Message)
      requires Valid()
      modifies this, Buffers()
      ensures Valid() && events == old(events) + [EmitLong(m)]
    {
      BuffersAreLive();
      Note(EmitLong(m));
      StoreLong(m);
    }

    /** Writes to every relay of the list. */
    method WriteAll(m: Message)
      modifies this`relays
      ensures relays == AllRegular(old(relays), m)
    {
      for i := 0 to |relays|
        invariant |relays| == |old(relays)|
        invariant forall k :: 0 <= k < |relays| ==>
                  relays[k] == if k < i then AddRegular(old(relays[k]), m) else old(relays[k])
      {
        relays := relays[i := AddRegular(relays[i], m)];
      }
    }

    method WriteAllLong(m: Message)
      modifies this`relays
      ensures relays == AllLong(old(relays), m)
    {
      for i := 0 to |relays|
        invariant |relays| == |old(relays)|
        invariant forall k :: 0 <= k < |relays| ==>
                  relays[k] == if k < i then AddLong(old(relays[k]), m) else old(relays[k])
      {
        relays := relays[i := AddLong(relays[i], m)];
      }
    }

    /** Once the drain of the regular buffer is through, every record emitted has got to the relay. */
    lemma RecordsArrive(d: Drain, k: nat)
      requires Valid() && ready && |handed| > 0 && handed[0].Pending? && d.buf == null && k < |Emitted(events)|
      requires TakesOver(d, handed[0].regular, boot, machine)
      ensures var before := |handed[0].regular|;
              if k < before then Wrote(d, Emitted(events)[k], boot, machine)
              else base < |relays| && k - before < |relays[base].regular|
                   && relays[base].regular[k - before] == Emitted(events)[k]
    {
      RunInv(events);
      EveryRecordArrives(events, d, k);
    }
  }
}
