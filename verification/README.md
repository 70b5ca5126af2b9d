# CamFlow's provenance engine, verified

CamFlow records what happens in a Linux kernel as a graph: nodes stand for
versions of tasks, inodes and other objects, relations for the flows of
information between them. This project models the engine that builds the
graph and proves what it promises over whole runs, together with the smaller
machines around it: the boot buffer and its handover to the relay, the recovery
of a program's arguments, the capture-target lists, the taint filter, and the
call-graph script that lists the security hooks of a system call.

`dafny verify dfyconfig.toml` checks everything.

## How it is built

- `Types`, `Model`: node types, policy, filters, and the engine as a state:
  live nodes, epoch, id counter and the log. Every recording function of the
  engine is a function on that state, hooks included.
- `Recorders`: the same functions as the kernel runs them, on node objects
  updated in place, each method proved to do to the state what `Model` says.
- `Requests`, `Decomposition`: runs are sequences of requests (any hook, naming,
  logging, re-typing, configuration, change of policy, change of epoch, refresh
  of the machine node). Every
  request is a sequence of primitive operations, so what each primitive keeps
  holds after every run.
- `Graphs`, `Views`, `Causality`, `Crossings`: the emitted graph over
  (id, version), and the theorems about cycles, causality and version chains.
- `Records`, `Typing`, `Taint`, `KernelLinks`: referential integrity, single
  writing, W3C PROV-DM typing, exact taint, links to the machine.
- `Admission`, `Versions`, `Targets`, `Hooks`, `Heirs`, `Upkeep`: what decides,
  told by the bits and fields themselves: which filter speaks for which relations,
  when an object moves to a new version, what raises which flag, which relations
  each hook asks for and when, and what happens to one object outside the hooks.
- `NodeCompression`, `EdgeCompression`, `EdgeTaint`, `Composition`: what the two
  compressions keep, and that `uses` and `generates` connect end to end.
- `Sessions`: the node objects serving requests; what is proved of runs holds of
  the log they have written.
- `BootBuffers`, `Handovers`, `Arguments`, `FilterLists`, `Blooms`,
  `CallGraphs`: the machines around the engine.

## What is taken for granted

- One call of a recording function is one atomic step.
- Live objects have different ids, and the machine's id lies above those handed
  out; `Requests.Valid` says so.
- In runs, the two ends of a recorded relation are different objects, as the
  locking of the hooks takes for granted. `Causality.SelfRelationMakesACycle`
  shows that this is needed: a relation of an object to itself makes a cycle
  exactly when it is written. The methods of `Recorders` do not ask for it.
- Versions, epochs and node ids, 32 or 64 bits wide in the kernel, do not wrap.
- Allocation succeeds, and `flow` is the only query hook registered.
- A taint filter is the set of its bits; `Blooms` proves that this is what the
  byte array is.

## Findings

Where a promise does not hold as it stands, the code is modelled as it is, and
the lemma says exactly when the promise holds.

- A copy from user space that fails half way leaves an id set though the write
  is refused, if the kernel's copy can stop half way. The relay then becomes ready
  without an accepted machine id (`Handovers.HalfCopyMakesReady`), or never
  (`Handovers.HalfCopyBlocks`). `Handovers.ReadyMeansAllThree` has the condition,
  over the events.
- The page-wise copy of arguments does not end when the length is 2^32 or more
  and every page it needs is there (`Arguments.CopyEnds`, and one such input in
  `Arguments.LongCopyLoops`); from 2^31 on its result reads as an error
  (`Arguments.RecoverArgs`). The buffer for the copy is allocated first
  (security/provenance/include/provenance_task.h:582-586), so such lengths are
  real only as far as that allocation succeeds.
- An argument of PATH_MAX - 1 bytes loses its last byte without being marked as
  truncated; no other length does (`Arguments.UnmarkedTruncation`).
- With edge compression on, a dropped repeat does not pass on what its source has
  gained since (`EdgeTaint.DroppedRepeatLosesTaint`).
  `EdgeTaint.EdgeCompressionKeepsMarks` says exactly when tracking and taint are as
  without it.
- A link to the machine that is dropped as a repeat or filtered out still counts as
  made: the object is marked as knowing of that version though the log has no link
  (`KernelLinks.LinkedUnlessDropped`).
- When the relay becomes ready the machine node is marked as not written, so it may
  be written twice at one version in one epoch (`Records.RefreshRewrites`).

## Model

| member | source | states |
|---|---|---|
| Causality.EmittedGraphIsAcyclic | security/provenance/include/provenance_record.h:39-147 | no run, whatever the requests and the changes of policy, filters and epoch between them, emits a graph over (id, version) with a cycle |
| Causality.UnmarkedIsSink | security/provenance/include/provenance_record.h:39-114 | after every run, an object whose outgoing mark is clear has no relation leaving its current version |
| Causality.ReachabilityIsTemporalCausality | security/provenance/include/provenance_record.h:39-114 | in runs where version relations and the closing relations used are unfiltered and each object is filtered always or never, one relation reaches another in the graph if and only if a chain of relations, each written after the one before and leaving the object that one went into, leads from the first to the second |
| Causality.VersionsFormAChain | security/provenance/include/provenance_record.h:39-64 | with version and closing relations unfiltered, each version of a never-filtered object from its first to its current one is related to the next by exactly one relation |
| Records.NoFutureVersions | security/provenance/include/provenance_record.h:39-147 | no record of a run, of a node or of a relation, mentions a version of a live object above its current one |
| Causality.SelfRelationMakesACycle | security/provenance/include/provenance_record.h:88-114 | relating an object to itself leaves the graph acyclic if and only if the relation is a compressed repeat or is filtered out |
| Decomposition.RunSteps | security/provenance/include/provenance_record.h:88-500 | every run has every property of its first state that the primitive operations keep |
| Admission.OneFilterPerCategory | security/provenance/include/provenance_filter.h:80-96 | a derived, generated, used or informed type is let through if and only if its own filter has no bit of it; influenced and associated types always are |
| Admission.FiltersDecide | security/provenance/include/provenance_filter.h:40-146 | a relation is recorded if and only if the filter of its category has no bit of its type, capture is on, and neither end is opaque or of a kind that the node filter has a bit of |
| Admission.WrittenIfAdmitted | security/provenance/include/provenance_record.h:88-114 | a relation that is no compressed repeat is the last thing in the log, between the current versions, if these tests let it through, and else at most version relations are written |
| Admission.NothingFilteredIsEmitted | security/provenance/include/provenance_filter.h:40-146 | in a run under one policy, no relation in the log fails these tests, of its type, its ends' kinds or their opacity |
| Admission.FlowDecides | security/provenance/propagate.c:16-27 | what passes tracking and taint on: a tracked and propagating source, a destination that is visible to the propagation filters, and a type of which the propagation filter of its category has no bit |
| Admission.RaisedIfPassedOn | security/provenance/propagate.c:16-27 | a relation that is no compressed repeat makes its destination tracked and propagating, and adds its source's taint, if and only if it is written and these tests hold; no other object changes in this |
| Versions.MovedOn | security/provenance/include/provenance_record.h:39-114 | a relation that is no compressed repeat moves its destination, and nothing else, on by one version, always without node compression and else if and only if a relation has left the current version |
| Versions.VersionsCountAlternations | security/provenance/include/provenance_record.h:39-114 | after any sequence of relations, without edge compression, each version has grown by the number of relations into the object, of which under node compression only those count that come after one has left it since the last |
| Versions.NoNeedlessVersions | security/provenance/include/provenance_record.h:39-64 | in a run with node compression on, a relation was asked for out of every version but the current one of any object that is not closed or given another type, whatever the filters |
| Targets.TargetsRaise | security/provenance/include/provenance_filter.h:244-273 | a flag is raised if and only if it is asked for by the first entry that covers the node in the namespace list, for a process, or in the security-context, user or group list, for processes and inodes; 0 in a namespace filter stands for any; nothing else changes |
| Targets.TargetsApplied | security/provenance/include/provenance_record.h:345-351 | a hook applies the targets to each of its objects, however often it names it, and to no other |
| Hooks.SharedRelations | security/provenance/include/provenance_task.h:145-196 | the memory is related to exactly the files that some mapping has shared and writable, or shared and readable or executable; private mappings bring nothing |
| Hooks.SharedCallsAre | security/provenance/include/provenance_task.h:168-196 | these relations come in the order of the mappings, one for each |
| Hooks.UsesAsks | security/provenance/include/provenance_record.h:235-274 | without edge compression, `uses` asks for the relation, the link if the machine's version is news, the relation to the memory and those to the shared mappings, in that order, if and only if its three objects, as their targets leave them, are not opaque, one is tracked or all is captured, and the relation is let through |
| Hooks.UsesTwoAsks | security/provenance/include/provenance_record.h:289-316 | likewise the relation and the link, for two objects |
| Hooks.GeneratesAsks | security/provenance/include/provenance_record.h:338-384 | likewise the relations from the shared mappings and from the memory, the link, and the relation, the guards seeing the activity after it took over from its memory; the link is exact when the relation from the memory gets through |
| Hooks.DerivesAsks | security/provenance/include/provenance_record.h:402-425 | likewise the relation alone |
| Hooks.InformsAsks | security/provenance/include/provenance_record.h:443-473 | likewise the links of both, where they are recorded and the machine's version is news to them, and then the relation |
| Hooks.InfluencesAsks | security/provenance/include/provenance_record.h:475-500 | likewise the load and the relation to the machine, whatever the filters say |
| Heirs.GeneratesInherits | security/provenance/include/provenance_record.h:349-365 | whether or not `generates` records anything, the activity is tracked afterwards if and only if its targets or its memory's ask for it or a relation passed it on, opaque if and only if its targets or its memory's ask for that; with an opaque memory nothing is recorded |
| Heirs.DoAllRaised | security/provenance/propagate.c:16-27 | a sequence of recording calls raises tracking and propagation exactly by the relations that pass them on |
| Upkeep.NamedOnce | security/provenance/include/provenance_record.h:166-199 | an object is named if and only if it is not opaque, is recorded, and has not been named in this epoch or is forced to; the path's node has the next id, the type is the one for tasks or for the rest, and the version stays |
| Upkeep.AddressedOnce | security/provenance/include/provenance_net.h:317-337 | an object is given its address if and only if it is recorded and has not been named in this epoch |
| Upkeep.LoggedLine | security/provenance/fs.c:735-780 | a line is asked for once, makes its process tracked, and propagating on request, and leaves it at its version |
| Upkeep.TransientIsAsked | security/provenance/include/provenance_task.h:537-557 | a relation from a node made for it takes the next id, is written if the filters let its type, the node's kind and the object through, and moves the object on unless it is a name |
| Upkeep.PassedAsAsked | security/provenance/include/provenance_task.h:537-557 | arguments and environment strings are asked for with their own types, from a node of their own kind |
| Upkeep.ClosedOnce | security/provenance/include/provenance_record.h:129-147 | an object gets a last version, related to the one before, if and only if it is recorded or all is captured, and the filters do not hide it |
| Upkeep.RetypedByMode | security/provenance/include/provenance_inode.h:45-84 | an inode has the kind that the file type in its mode stands for, and moves on for that if and only if it is recorded and had another mode before |
| Upkeep.ConfiguredAsAsked | security/provenance/fs.c:267-294 | each flag is set as asked if its bit is given and stays else, and taint is only added |
| Upkeep.OwnerRefreshed | security/provenance/include/provenance_task.h:318-327 | the data that the targets look at become what they are refreshed to, and nothing else changes |
| Upkeep.AllocatedBlank | security/provenance/include/provenance.h:79-94 | a new object has the next id and version 0 and no flag, mark or taint |
| Upkeep.SelfRelationWrites | security/provenance/include/provenance_relay.h:203-273 | a relation of an object to itself writes its node once if it is not recorded, never if it is, and twice with duplication on |
| Upkeep.EndsAccompanyRelations | security/provenance/include/provenance_relay.h:203-273 | in a run with duplication on, every relation comes right after node records of both its ends |
| Graphs.NoCycles | security/provenance/include/provenance_record.h:20-38 | a versioned graph in which a marked version takes no further relation has no cycle |
| Graphs.ReachabilityIsCausality | security/provenance/include/provenance_record.h:39-114 | reachability between relations is the existence of a chain in the order of writing, for any versioned graph that keeps the invariants |
| Records.RelationsFollowTheirEnds | security/provenance/include/provenance_relay.h:203-273 | in every run, each relation is preceded in the log by node records of both its ends, at their versions and in the epoch of the relation |
| Records.NodesAreWrittenOnce | security/provenance/include/provenance_relay.h:203-213 | while duplication is off, each (id, version) is written as a node at most once per epoch, writes through old-version copies included; if the run refreshes the machine node, this is said of every object but the machine |
| Records.RefreshRewrites | security/provenance/machine.c:17-26 | a machine node written in this epoch is written once more, at the same version, by the first relation from it after a refresh that the filters let through |
| Records.NoRefreshNoRewrite | security/provenance/include/provenance_relay.h:203-213 | without the refresh, while duplication is off, it is not |
| Typing.RelationsAreWellTyped | include/uapi/linux/provenance_types.h:28-200 | given a relation type of each hook's own category and objects of the kinds that the hook is for, every relation of a run, explicit or implicit, joins the kinds that W3C PROV-DM sections 5.1.3-5.1.5, 5.2.1, 5.3.3 and 5.3.5 ask for, version relations of the machine apart |
| Taint.TaintIsExact | security/provenance/propagate.c:16-27 | after every run a bit is in an object's taint if and only if it was injected into an object from which a chain of propagating relations, in the order of writing, leads to it; what propagates is told by the bits of the filters |
| Taint.InjectionsAreTheRequests | security/provenance/fs.c:267-294 | the injections of that history are the taint settings that the requests of the run ask for, one for one and in order |
| Taint.VersionsAddNothing | security/provenance/propagate.c:16-27 | the chains that bring taint need relations between different objects only; relations between versions add nothing |
| Taint.HistoryIsTheLog | security/provenance/include/provenance_relay.h:252-273 | the relations of the history that taint is defined over are those of the log, one for one and in order |
| NodeCompression.NodeCompressionPreservesMeaning | security/provenance/include/provenance_record.h:45-63 | with and without node compression, a sequence of recording calls emits the same relations but for versions, leaves the same flags and taint, and has the same reachability from relation to relation |
| NodeCompression.DoAllAlike | security/provenance/include/provenance_record.h:39-114 | two states that differ in versions only stay so through the same calls under either setting of node compression |
| Crossings.SameReachability | security/provenance/include/provenance_record.h:39-114 | graphs with the same relations between objects, in the same order, agree on which of them reach which, whatever their versions |
| EdgeCompression.CompressedIsUnstuttered | security/provenance/include/provenance_record.h:98-113 | with edge compression, the relations emitted into an object are its requests with adjacent repeats removed, and then filtered |
| EdgeCompression.UncompressedIsAll | security/provenance/include/provenance_record.h:98-113 | without it, they are all its requests, filtered |
| EdgeCompression.EdgeCompressionKeepsRelations | security/provenance/include/provenance_record.h:98-113 | from any state, the two sets of (source, type, destination) emitted differ exactly by the relations asked for only as a first run of repeats of what their destination remembers, and not in the log yet |
| EdgeCompression.FreshLosesNothing | security/provenance/include/provenance_record.h:98-113 | from a state that remembers no relation, there are none such, and the sets are equal |
| EdgeTaint.EdgeCompressionKeepsMarks | security/provenance/include/provenance_record.h:98-113 | with and without edge compression, tracking and taint agree after every call if and only if every dropped repeat would, when it is dropped, have brought its destination nothing |
| EdgeTaint.DroppedRepeatLosesTaint | security/provenance/include/provenance_record.h:98-113 | requested, tainted at its source and requested again, a relation carries the bit without edge compression and never with it |
| KernelLinks.LinkedOncePerVersion | security/provenance/include/provenance_record.h:201-211 | over any run, the links of an object to the machine are from ever later versions of it, so from none twice |
| KernelLinks.LinkedUnlessDropped | security/provenance/include/provenance_record.h:201-211 | a recorded object that does not know of the machine's version comes to know of it, and nothing happens to any other; the log gains the link, from the machine's current version, if and only if the relation is neither a compressed repeat nor filtered out |
| Sessions.Session.Serve | security/provenance/include/provenance_record.h:39-500 | on node objects, a request leaves the engine in the state of the run of all requests served so far |
| Sessions.Session.LogIsSound | security/provenance/include/provenance_relay.h:203-273 | what the node objects have written out at any time is acyclic, and no relation in it comes before its ends |
| Composition.UsesConnects | security/provenance/include/provenance_record.h:235-274 | with nothing filtered and edge compression off, past its guards `uses` makes the entity's entry version reach the current version of the memory and of every writable shared mapping, repeats included |
| Composition.GeneratesConnects | security/provenance/include/provenance_record.h:338-384 | likewise `generates` makes the entry versions of the memory and of every readable or executable shared mapping reach the entity's current version |
| Composition.DoAllConnects | security/provenance/include/provenance_record.h:88-114 | each relation of a sequence of calls leads from its source's version before to its destination's version after |
| Recorders.Recorder.WriteNode | security/provenance/include/provenance_relay.h:203-213 | a node is written and marked with the epoch unless it is recorded already and duplication is off |
| Recorders.Recorder.WriteRelation | security/provenance/include/provenance_relay.h:252-273 | unless filtered, both ends are written as needed, tracking and taint pass on, and the relation follows in the log; the ends may be one node, written once |
| Recorders.Recorder.PassOn | security/provenance/propagate.c:16-27 | the destination becomes tracked and propagating and gains the source's taint exactly when the source propagates and is tracked and neither propagation filter hits; `Admission.FlowDecides` tells by bits when they do |
| Recorders.Recorder.ShouldRecordRelation | security/provenance/include/provenance_filter.h:137-146 | true exactly when neither the relation's type nor either end is filtered; `Admission.FiltersDecide` tells by bits when they are |
| Recorders.Recorder.UpdateVersion | security/provenance/include/provenance_record.h:39-64 | a node that is marked, or any when nodes are not compressed, moves to its next version, unrecorded and unmarked, related to a copy of the version before; name and version relations move nothing; `Versions.MovedOn` and `Versions.NoNeedlessVersions` say what that comes to |
| Recorders.Recorder.RecordRelation | security/provenance/include/provenance_record.h:88-114 | the live nodes and the log after the call are those of the specification that the run theorems are about: nothing for a compressed repeat, else the version step and then the relation from a source now marked |
| Recorders.Recorder.RecordTerminate | security/provenance/include/provenance_record.h:129-147 | a last version, related to the one before, for a node that is recorded, or any when all is captured, and not filtered |
| Recorders.Recorder.RecordNodeName | security/provenance/include/provenance_record.h:166-199 | a recorded node that is not opaque is named unless it has been in this epoch, or when forced; the name's node takes a fresh id and does not stay live |
| Recorders.Recorder.RecordKernelLink | security/provenance/include/provenance_record.h:201-211 | a recorded node that does not know of the machine's version is related to it and learns of it, any other is left alone |
| Recorders.Recorder.Uses | security/provenance/include/provenance_record.h:235-274 | targets, guards, relation, kernel link, memory and shared mappings, in that order, for any list of mappings |
| Recorders.Recorder.UsesTwo | security/provenance/include/provenance_record.h:289-316 | targets, guards, relation and kernel link |
| Recorders.Recorder.Generates | security/provenance/include/provenance_record.h:338-384 | targets, inheritance from memory, guards, shared mappings, memory, kernel link and relation, in that order; `Heirs.GeneratesInherits` says what is inherited |
| Recorders.Recorder.Derives | security/provenance/include/provenance_record.h:402-425 | targets, guards and relation |
| Recorders.Recorder.Informs | security/provenance/include/provenance_record.h:443-473 | targets, guards, both kernel links and the relation |
| Recorders.Recorder.InfluencesKernel | security/provenance/include/provenance_record.h:475-500 | targets and guards, without asking the filters, then the load and the relation to the machine |
| Recorders.Recorder.UpdateShared | security/provenance/include/provenance_task.h:168-196 | the loop over mappings records exactly the shared relations, in the order of the mappings; `Hooks.SharedRelations` says which these are by the fields of the mappings |
| Recorders.Recorder.RecordTransient | security/provenance/include/provenance_task.h:537-557 | a relation from a node allocated for it, versioned and compressed like any other |
| Recorders.Recorder.RecordAddress | security/provenance/include/provenance_net.h:317-337 | a recorded node is given its address unless it has been named in this epoch |
| Recorders.Recorder.RecordLog | security/provenance/fs.c:735-780 | a log line makes the writing process tracked, and propagating on request, and hangs on it without a new version |
| Recorders.Recorder.UpdateInodeType | security/provenance/include/provenance_inode.h:45-84 | a change of mode of a recorded inode makes a new version of the new type, any other call changes mode and type in place |
| Recorders.Recorder.SetOwner | security/provenance/include/provenance_task.h:318-327 | refreshes the user, group, security context and namespaces that the targets look at, and nothing else |
| Recorders.Recorder.ApplyTarget | security/provenance/include/provenance_filter.h:244-273 | raises the flags that the target lists ask for and lowers none |
| Recorders.Recorder.UpdateConfig | security/provenance/fs.c:267-294 | sets or clears the flags asked for, and adds taint |
| Recorders.Recorder.Allocate | security/provenance/include/provenance.h:79-94 | a live node with the next id, at version 0, unrecorded |
| Recorders.Recorder.Refresh | security/provenance/machine.c:17-26 | the machine node counts as not written, and nothing else changes |
| Recorders.Recorder.constructor | security/provenance/machine.c:28-40 | the engine starts with the machine node alone, at version 1 |
| BootBuffers.InsertedAppends | security/provenance/include/provenance_relay.h:80-104 | inserting appends to the flattened buffer and keeps every chunk but the last full |
| BootBuffers.BootBuffer.Insert | security/provenance/include/provenance_relay.h:80-104 | on the linked chunks: the contents gain the message at the end, no index leaves a chunk, only the last chunk is not full |
| BootBuffers.FirstsAreInOrder | security/provenance/relay.c:77-111 | however often a drain finds the relay full, a message is first written only after every earlier one |
| BootBuffers.NothingIsLost | security/provenance/relay.c:77-111 | a drain that has got to the last message has written every one |
| BootBuffers.Drain.RunTask | security/provenance/relay.c:77-143 | for any pattern of full reports, each run of the drain goes on in order, or starts again from the current chunk with identical copies, and it ends early only on a full report |
| BootBuffers.Drain.TightenEntry | security/provenance/include/provenance_relay.h:180-187 | an entry is stamped in place, and stamping it again changes nothing |
| BootBuffers.StampsEveryIdentifier | security/provenance/include/provenance_relay.h:180-187 | a message and both its ends get this machine's id and, where they have none, the boot id; packets are left alone, and so is the rest |
| BootBuffers.Drain.LosesNothing | security/provenance/relay.c:77-143 | a finished drain has written every message of the buffer, tightened |
| BootBuffers.Drain.WritesInOrder | security/provenance/relay.c:77-143 | without a full report the output is the tightened sequence exactly |
| Handovers.SetOnce | security/provenance/fs.c:128-185 | an id is set by the first permitted write of at least four bytes that are copied and not 0, and by no other; each refusal has its own code and leaves the id as it was unless the copy changed it |
| Handovers.HandedOverOnce | security/provenance/relay.c:158-183 | for every order of events, accepted or not, the buffers are detached once at most, exactly when the relay becomes ready, every earlier write has a live buffer, and both ids and an open relay make it ready |
| Handovers.ReadyMeansAllThree | security/provenance/fs.c:128-185 | when the relay is ready, both ids were accepted and the relay opened, if and only if no event was a permitted write of an id not yet set whose copy failed half way |
| Handovers.HalfCopyMakesReady | security/provenance/fs.c:128-149 | a run in which the relay becomes ready though no machine id was accepted |
| Handovers.HalfCopyBlocks | security/provenance/fs.c:128-185 | every run that opens the relay, sets the boot id and then fails half way through the machine id stays without a ready relay |
| Handovers.RecordsAreConserved | security/provenance/include/provenance_relay.h:122-161 | every record emitted is in the buffers handed over or still live, or was sent to the relay after them, in the order of emission |
| Handovers.RelaysAreTheOpenings | security/provenance/relay.c:195-255 | the list has one relay for each opening, at boot or later, and never loses one |
| Handovers.EveryRelayIsServed | security/provenance/include/provenance_relay.h:122-161 | from the handover on, every relay of the list gets every record, in order, whenever it was created |
| Handovers.EveryRecordArrives | security/provenance/relay.c:77-183 | once the drain is through, every record ever emitted has been written to the relay, those from before the handover stamped with the boot and machine ids of the run |
| Handovers.EveryLongRecordArrives | security/provenance/relay.c:113-183 | likewise for long records |
| Handovers.FixedOnceReady | security/provenance/fs.c:128-185 | once the relay is ready, no event changes either id or what was handed over |
| Handovers.MachineComesFirst | security/provenance/relay.c:158-183 | once the relay is ready, its first long record is the machine's node, with the ids of the run |
| Handovers.ArrivalsAreInOrder | security/provenance/relay.c:77-111 | of two records from before the handover, the earlier is in the relay before the later first is |
| Handovers.Channel.WriteBootBuffer | security/provenance/relay.c:158-183 | if everything is in place, detaches both buffers, marks the relay ready, sends the machine node and starts a drain of each buffer, which stamps with the ids just in place |
| Handovers.Channel.WriteMachineId | security/provenance/fs.c:128-149 | the state is again that of the run of all events so far; the code returned, and the drains started with the ids they stamp, on every path |
| Handovers.Channel.WriteBootId | security/provenance/fs.c:164-185 | the state is again that of the run of all events so far; the code returned, and the drains started with the ids they stamp, on every path |
| Handovers.Channel.Open | security/provenance/relay.c:241-255 | the state is that of the run with the opening added, and the handover it may bring starts drains that stamp with the ids in place |
| Handovers.Channel.CreateChannel | security/provenance/relay.c:195-228 | the state is that of the run in which a further relay has joined the list, empty |
| Handovers.Channel.Write | security/provenance/include/provenance_relay.h:122-135 | to the boot buffer before the handover, to every relay of the list after, at any time: that there is a buffer as long as it is needed follows from the events so far |
| Handovers.Channel.WriteLong | security/provenance/include/provenance_relay.h:148-161 | likewise for long records |
| Handovers.Channel.RecordsArrive | security/provenance/relay.c:77-183 | of the relay and the buffers in memory: once the drain is through, every record emitted so far has got to the relay opened at boot |
| Arguments.CopyArgv | security/provenance/include/provenance_task.h:479-517 | the page-wise copy equals the flat range of bytes, from any start offset, and fails exactly when a page of it cannot be had; asked of it is only that it ends |
| Arguments.CopyEnds | security/provenance/include/provenance_task.h:479-517 | the copy loop ends if and only if the length is below 2^32 or a page on the way to a multiple of 2^32 cannot be had |
| Arguments.LongCopyLoops | security/provenance/include/provenance_task.h:491-512 | with every page there and 2^32 bytes to copy, the loop is never through |
| Arguments.Split | security/provenance/include/provenance_task.h:590-603 | the two loops stay in the buffer if and only if it has as many NULs as strings are asked for, and then the strings, in order, encode to the buffer |
| Arguments.DecodeUnique | security/provenance/include/provenance_task.h:590-603 | a buffer is the encoding of one list of NUL-free strings only |
| Arguments.RecoverArgs | security/provenance/include/provenance_task.h:570-605 | a range that encodes given arguments and environment strings has exactly those recorded, in order; the result is an error exactly when a page is missing or the length is 2^31 or more |
| Arguments.UnmarkedTruncation | security/provenance/include/provenance_task.h:537-557 | the value kept is the whole argument if and only if it has at most PATH_MAX - 2 bytes, and it is cut without a mark if and only if it has PATH_MAX - 1; what is kept of a longer one is its first PATH_MAX - 2 bytes, with its full length |
| FilterLists.ListsRefineMaps | security/provenance/include/provenance_filter.h:161-210 | over any writes, the entries are exactly the present keys with the ops of their own writes, no key twice, in the order they came in |
| FilterLists.LookupIsEarliest | security/provenance/include/provenance_ns.h:36-122 | a lookup by any cover test, wildcards and masks included, gives the op of the covered key that came in first, and 0 when there is none |
| FilterLists.ExactLookupIsLastWrite | security/provenance/include/provenance_filter.h:161-210 | a lookup by equality gives what the writes for that key come to, and 0 when it is absent |
| FilterLists.TwoWritesJoin | security/provenance/include/provenance_net.h:252-300 | of two writes for one key the later op counts, and in the IPv4 list the earlier one too |
| FilterLists.SubnetsAreKeys | security/provenance/fs.c:493-516 | two IPv4 writes for one port share an entry if and only if they name the same subnet |
| FilterLists.MaskingKeepsCover | security/provenance/include/provenance_net.h:229-243 | an IPv4 entry covers exactly the addresses that no bit of its mask tells from the one asked for, on its port or, with port 0, on any, though its address is masked on the way in |
| FilterLists.FilterList.Lookup | security/provenance/include/provenance_filter.h:161-172 | the loop returns the op of the first covered entry, or 0 |
| FilterLists.FilterList.Delete | security/provenance/include/provenance_filter.h:177-191 | the loop removes the entry with the key and keeps the others in order |
| FilterLists.FilterList.AddOrUpdate | security/provenance/include/provenance_filter.h:196-210 | the loop overwrites, or for IPv4 accumulates, the op of the entry with the key, and appends a new one otherwise |
| FilterLists.FilterList.WriteFilter | security/provenance/fs.c:600-618 | a write deletes when its op says so, and adds or updates otherwise |
| Blooms.Add | include/uapi/linux/provenance.h:49-58 | the filter's bits gain exactly the seven hash positions of the label |
| Blooms.PositionsOfZero | include/uapi/linux/provenance.h:36-58 | the seven positions of label 0, as the constant and the shift give them |
| Blooms.HashReadsTheConstant | include/uapi/linux/provenance.h:36-40 | labels that are powers of 256 hash to the bytes of the constant |
| Blooms.Match | include/uapi/linux/provenance.h:75-84 | true if and only if one set of bits includes the other |
| Blooms.In | include/uapi/linux/provenance.h:86-93 | true if and only if all positions of the label are set |
| Blooms.Merge | include/uapi/linux/provenance.h:96-102 | the bits become the union, also when a filter is merged into itself |
| Blooms.Empty | include/uapi/linux/provenance.h:105-114 | true if and only if no bit is set |
| Blooms.BitsAreTheFilter | include/uapi/linux/provenance.h:43-47 | filters with the same bits are the same bytes |
| Blooms.BitsAreOfLabels | include/uapi/linux/provenance.h:49-102 | after any adds and merges among any number of filters, a filter's bits are exactly the positions of the labels that reached it |
| Blooms.NoLabelIsMissed | include/uapi/linux/provenance.h:86-102 | a label that has reached a filter, directly or through merges, is always found in it |
| Blooms.Filters.AddLabel | include/uapi/linux/provenance.h:49-58 | of any number of byte arrays: the bits of each are still those of its adds and merges so far |
| Blooms.Filters.MergeInto | include/uapi/linux/provenance.h:96-102 | likewise for a merge of one array into another or into itself |
| Blooms.Filters.Contains | include/uapi/linux/provenance.h:86-93 | on the byte arrays a label that has reached a filter is found; one is found if and only if labels that did cover all its positions |
| Blooms.MergeIsLeast | include/uapi/linux/provenance.h:75-102 | a merge is matched by exactly the filters that match both its parts |
| CallGraphs.Explore | scripts/analyze.py:71-78 | the worklist ends on every finite graph, cycles included, and the ids in its map are exactly the functions reachable from the root, which is kept as text beside the numbers |
| CallGraphs.FindHooks | scripts/analyze.py:29-46 | the script fails if and only if a reachable function has no row, and else the hooks are exactly the names, of functions reachable from the root, that begin with `security_` |

## Left out

- Packet nodes, whose identifier overlays the node identifier, and everything done with socket buffers.
- Transfer of a whole node between credentials, and reloading a node from extended attributes: both give one identity to two objects.
- Relations and nodes supplied by user space, which bypass the recording functions.
- Query hooks other than `flow`, and the result codes and the allowed field they set.
- Boot and machine ids inside node records and relations of the engine: records are keyed by id and version; `BootBuffers` has the stamping.
- Offsets, flags and times of relations, and relation ids.
- Spin locks, per-CPU relay buffers and the order in which drained and live records interleave in the relay.
- The individual hooks that call the engine, the string tables, debugfs, and the handling of securityfs files beyond the writes modelled.
- Edge compression and reachability between versions: the repeat test compares ids only, so no claim is made.
- The database behind the call-graph script, which is taken to find the row of a function by its id as text or as a number.
- Names of relays, which creation checks for repeats.
- Failure of allocation, in every place where the code reports it.
- Writing strings to user space from the filter lists.
- Typing.RelationsAreWellTyped: of a relation recorded without a hook it is asked that its type suits its ends, because the caller chooses all three.
- Hooks.UsesAsks: like the lemmas for the other hooks it is stated without edge compression, because which of the calls are then dropped as repeats is what `EdgeCompression` says.
- Hooks.GeneratesAsks: whether the activity is linked is not told when the relation from its memory is filtered out or the memory is the machine node, because it then depends on what the mappings did before.
- Versions.VersionsCountAlternations: stated without edge compression, for the same reason; `Versions.MovedOn` and `Versions.NoNeedlessVersions` hold with it too.
