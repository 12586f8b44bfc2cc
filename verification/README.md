# CatalogFS and FUSE 2.7.3: a verified model

CatalogFS lists a directory tree into a text catalog and mounts that catalog as
a read-only file system. It comes with the FUSE 2.7.3 sources it runs on: the
kernel module that passes requests to a user-space daemon, and libfuse, the
library the daemon is built with. This project models the parts of all three
where state, order and concurrency matter, and proves what they promise.

`dafny verify dfyconfig.toml` checks the whole project.

## What is modelled

**The request protocol of the kernel device** (`kernel/dev.c`) is a step
relation in `RequestModel`. A step is one stretch of code under `fc->lock` or
one action between two such stretches; callers, device readers, device writers
and aborting threads interleave freely, and a page is copied only between steps.
`RequestInvariant` holds the inductive invariant, `RequestSteps` shows that each
step keeps it, `RequestTheorems` draws the conclusions over whole runs: who is
in whose buffers, what a reply delivers, where requests are, how background
requests are counted. `RequestMail` is the protocol as the two sides see it,
without threads, locks and references: the stages of a request, its number, its
signals and its interrupt, in seventeen events with their guards.
`RequestRefines` proves that every step of the device is the events it should
be, and with that over whole runs that no interrupt is lost on the way to the
daemon, that numbers are given, differ and stand for one request until the
counter comes around, that requests are read in the order in which they were
queued, and what the error of a request tells. `RequestAborts` says what an
abort leaves: the thread that walks the lists leaves them empty for good, and a
call of `fuse_abort_conn` that finds the connection already down comes back at
once. It leaves them empty exactly when nobody who still walks them has a
request ahead; a run from a fresh connection shows one that comes back while a
request is pending.

One promise does not hold of the code. When `fuse_dev_writev` matches a request
that its caller has given up, it drops the lock before it ends the request and
leaves it on the processing list meanwhile (`kernel/dev.c:869-875`). An abort or
a second writer can end the request in that window, and the first writer then
ends it again, after it may have been freed. In the same way a second `EAGAIN`
for an interrupt that is already queued puts the request on the interrupt list
twice (`kernel/dev.c:884-885`). `Disciplined` names the steps that do this by
what the state looks like before them. `RequestRace` proves that a run takes no
such step if and only if all along no request has been ended twice, none that a
writer is about to end has been ended, no two writers are about to end the same
one, and no interrupt is queued twice; and that, in a run that never answers an
interrupt with EAGAIN while it is queued, it takes none if and only if at no
point letting the writers finish that are in their windows ends a request twice.
Each failure has a run from a fresh connection. The theorems of
`RequestTheorems`, `RequestRefines` and `RequestAborts` are about the runs that
take no such step.

**The node table of libfuse** (`lib/fuse.c`) is the class `NodeTable.Fuse`: a
pool of nodes with parent pointers, lookup counts and reference counts, and two
hash tables whose chains the methods walk and change. `NodeTree` has the same
operations on values, their invariant, and the theorem that a rename moves a
whole subtree. `NodeEffects` says what becomes of each node apart from its
reference count. `NodePaths` states the rename for the path strings that are
asked for before and after a rename.

**The lock list of libfuse** (`lib/fuse.c`) is the class `ByteLocks.LockedNode`:
the list is a sequence that is merged, trimmed and split in place; its meaning
is a map from owner and byte to a lock type. A lock that is granted against a
conflict breaks the exclusion, and only such a one.

**The catalog** is modelled from end to end: the breadth-first walk with its
linked queue and the two padding passes (`CatalogGenerator.Generator`), the text
of a record and its parser (`CatalogText`), the two-level search and the file
system operations on it (`CatalogSearch.Catalog`). `CatalogListing` and
`CatalogOrder` say what the walk lists and in which order; `CatalogAgreement`
proves that the mounted catalog agrees with the tree.

**The directory stream** (`DirStream`) goes from the packing of names in libfuse
through the slices that are handed out to the parser in the kernel, in bytes,
for file systems that pass their names without offsets and for those that number
them. Of the latter, one that has come to its end is not asked again before the
directory is rewound. **Symbolic links** (`Symlinks`) are rewritten in place in
a character buffer. **Interrupt messages** (`InterruptModel`, `InterruptProofs`,
`InterruptOnce`) are a state machine of libfuse's threads, locks and lists
together with what the kernel knows: no interrupt is lost, none is made up, and
none counts twice.

## Conditions that callers meet

* Directory numbers passed to the node table are held by the kernel, the new
  directory of a rename is not inside what is renamed, and no more lookups are
  forgotten than were made.
* The children of a directory arrive in byte order, as `scandir` with
  `alphasort` gives them in the C locale. Names and link targets of a catalogued
  tree have no byte 1 and no newline, names no byte 2 either, and no directory is
  called like a sibling directory followed by a byte below the slash. Without
  the last condition the catalog is not sorted for the search; that is proved
  both ways.
* Names in a directory stream have 1 to 1024 bytes, and a packed listing has
  less than 2^32.
* A request handler answers its request once, and the daemon answers each
  interrupt message at most once.

## Model

| member | source | states |
|---|---|---|
| RequestTheorems.BufferHandover | other_fs/fuse-2.7.3/kernel/dev.c:261-317 | once request_send is back, in every later state of a disciplined run the request is not locked, no device thread copies from or to it, and what the caller reads does not change (only the negative error of an aborted request may become another) |
| RequestTheorems.EndHandover | other_fs/fuse-2.7.3/kernel/dev.c:983-1005 | once the end function of a request has run, in every later state no device thread copies from or to the request, and its reply does not change |
| RequestTheorems.DeliveryHolds | other_fs/fuse-2.7.3/kernel/dev.c:865-911 | a write that returns success is what the caller or the end function sees from then on: header, payload and number; a write that fails after it matched, also one that matched an aborted request, leaves a negative error for good; the payload is as long as was asked for, shorter only in a last argument of variable size, and empty with an error |
| RequestTheorems.ResultIsReply | other_fs/fuse-2.7.3/kernel/dev.c:261-317 | a caller that is back without an error, and an end function called without one for a request that expects a reply, have a whole reply, as long as was asked for or shorter only in a last argument of variable size |
| RequestTheorems.ReplyRefusedIff | other_fs/fuse-2.7.3/kernel/dev.c:806-834 | a reply to a request that is still wanted is refused for its length exactly when it is longer, shorter without such an argument or by more than that, or an error with a payload |
| RequestTheorems.PlacementHolds | other_fs/fuse-2.7.3/kernel/dev.c:961-1005 | in every reachable state PENDING means on pending, SENT on processing, READING and WRITING on io; an ended request is on no list; a pending request that is on none was withdrawn by its caller |
| RequestTheorems.ReferencesHold | other_fs/fuse-2.7.3/kernel/dev.c:70-80 | request_end and the end function run at most once, the end function has run when the request is freed, the BUG_ON never fires, and a freed request is on no list and in no thread's hands |
| RequestAborts.AbortIsFinal | other_fs/fuse-2.7.3/kernel/dev.c:1026-1056 | when the walk of an abort that found the connection up, or of a release, is through, the three lists are empty and every sent request is finished or withdrawn, and no later step changes that |
| RequestTheorems.BackgroundHolds | other_fs/fuse-2.7.3/kernel/dev.c:374-389 | num_background is the number of background requests that have not ended, and while connected blocked is set exactly when it is at the limit or above |
| RequestTheorems.RunEvolves | other_fs/fuse-2.7.3/kernel/dev.c:216-240 | over any disciplined run an ended request keeps its result, and a request handed back keeps its buffers |
| RequestTheorems.RunKeeps | other_fs/fuse-2.7.3/kernel/dev.c:261-1056 | the invariant holds all along a disciplined run |
| RequestAborts.CompletedStays | other_fs/fuse-2.7.3/kernel/dev.c:1026-1040 | a walk that is through stays through |
| RequestAborts.AbortReturnsIff | other_fs/fuse-2.7.3/kernel/dev.c:1026-1056 | a call of fuse_abort_conn or fuse_dev_release that comes back leaves the lists empty for good exactly when it walked them itself, or when no thread that still walks them has a request ahead |
| RequestAborts.LateAbortTooEarly | other_fs/fuse-2.7.3/kernel/dev.c:961-1005 | a run from a fresh connection in which a second call comes back while a request is pending, and in which, later, another call comes back with the lists empty although the first still walks |
| RequestAborts.QuietIffWalked | other_fs/fuse-2.7.3/kernel/dev.c:1026-1056 | a connection that is down holds requests exactly while some thread has to walk over them |
| RequestAborts.QuietLasts | other_fs/fuse-2.7.3/kernel/dev.c:355-372 | whatever happens to a connection that is down with empty lists, no list ever holds a request again |
| RequestAborts.AbortUnblocks | other_fs/fuse-2.7.3/kernel/dev.c:1026-1040 | from when fuse_abort_conn has found the connection up, blocked is never set again |
| RequestMail.RunPlaced | other_fs/fuse-2.7.3/kernel/dev.c:216-317 | over any sequence of allowed events those who wait stand on the list once, an interrupt is queued only of a marked request, no interrupt of a request that the daemon has is lost, and errors mean what they should |
| RequestMail.RunDistinct | other_fs/fuse-2.7.3/kernel/dev.c:330-350 | while no more numbers have been taken than there are, no two numbers of requests and interrupts agree, and who waits longer has the older |
| RequestRefines.StepShows | other_fs/fuse-2.7.3/kernel/dev.c:216-1056 | every disciplined step is the events it should be: stage, number, signals, error, the order of both queues, what is refused and what turned off |
| RequestRefines.Refines | other_fs/fuse-2.7.3/kernel/dev.c:216-1056 | so a run of the device from a fresh connection is a run of the two sides, event for event |
| RequestRefines.InterruptsReachDaemon | other_fs/fuse-2.7.3/kernel/dev.c:253-275 | a request that the daemon has and that was marked, before or after it was read, is queued for interruption, or its interrupt was taken |
| RequestRefines.NumbersGiven | other_fs/fuse-2.7.3/kernel/dev.c:330-350 | every request on pending, processing or io has a number that is not 0 |
| RequestRefines.NumbersDiffer | other_fs/fuse-2.7.3/kernel/dev.c:330-350 | until 2^64-1 numbers have been taken no two numbers of requests and interrupts agree |
| RequestRefines.OldestFirst | other_fs/fuse-2.7.3/kernel/dev.c:340-353 | the pending list, which is read from its head, stands in the order of the numbers |
| RequestRefines.ReplyMeets | other_fs/fuse-2.7.3/kernel/dev.c:793-804 | a reply to a number that a request or its interrupt once had can meet no other request, and meets that one as long as the daemon has it under that number |
| RequestRefines.ErrorsTell | other_fs/fuse-2.7.3/kernel/dev.c:261-389 | errors are above -1000 and not positive; ENOTCONN and ECONNREFUSED for a request that was not sent, EINTR for one that is not forced or ECONNABORTED on a dead connection for one that was aborted, none for one under way |
| RequestRefines.EnosysHeard | other_fs/fuse-2.7.3/kernel/dev.c:877-890 | ENOSYS for an interrupt turns interrupts off |
| RequestRefines.DeafHolds | other_fs/fuse-2.7.3/kernel/dev.c:261-275 | no request sent from then on is ever marked as interrupted |
| RequestRace.StepEndsOnceIff | other_fs/fuse-2.7.3/kernel/dev.c:865-890 | one step leaves every request ending at most once, with one writer in its window and no double entry among the interrupts, exactly when it is disciplined |
| RequestRace.RunEndsOnceIff | other_fs/fuse-2.7.3/kernel/dev.c:865-890 | so does every state of a whole run exactly when each of its steps is disciplined |
| RequestRace.RunClosesOnceIff | other_fs/fuse-2.7.3/kernel/dev.c:865-877 | in a run that answers no queued interrupt, each step is disciplined exactly when at no point letting the writers finish that are in their windows ends a request twice |
| RequestRace.EndsTwice | other_fs/fuse-2.7.3/kernel/dev.c:869-875 | an undisciplined step about a request has a continuation, of writers that leave their windows, in which request_end runs on it a second time |
| RequestRace.RaceEndsFreedRequest | other_fs/fuse-2.7.3/kernel/dev.c:869-875 | a run from a fresh connection in which request_end runs again on a request that was ended and freed |
| RequestRace.StolenByAbort | other_fs/fuse-2.7.3/kernel/dev.c:961-981 | end_requests ends a request that a writer is about to end |
| RequestRace.SharedWindow | other_fs/fuse-2.7.3/kernel/dev.c:865-875 | a second writer matches a request that another is about to end |
| RequestRace.QueuedTwice | other_fs/fuse-2.7.3/kernel/dev.c:253-259 | EAGAIN for a queued interrupt puts the request on the interrupt list twice |
| RequestRace.EagainQueuesTwice | other_fs/fuse-2.7.3/kernel/dev.c:877-890 | a run from a fresh connection that ends with the same request on the interrupt list twice |
| RequestSteps.SendKeeps | other_fs/fuse-2.7.3/kernel/dev.c:355-372 | request_send, with all the ways its waits can go at once: the invariant is kept (place on the lists, reference count, who holds it, result, background count) |
| RequestSteps.SendNoWaitKeeps | other_fs/fuse-2.7.3/kernel/dev.c:374-406 | request_send_background and request_send_noreply, connected or not: the invariant is kept (place on the lists, reference count, who holds it, result, background count) |
| RequestSteps.AfterSignalWaitKeeps | other_fs/fuse-2.7.3/kernel/dev.c:261-275 | a signal during the first wait: the invariant is kept (place on the lists, reference count, who holds it, result, background count) |
| RequestSteps.AfterFatalWaitKeeps | other_fs/fuse-2.7.3/kernel/dev.c:277-308 | a fatal signal, an answer or an abort during the second wait: the invariant is kept (place on the lists, reference count, who holds it, result, background count) |
| RequestSteps.WithdrawKeeps | other_fs/fuse-2.7.3/kernel/dev.c:298-317 | leaving: withdrawn while pending, waiting while sent: the invariant is kept (place on the lists, reference count, who holds it, result, background count) |
| RequestSteps.CallerPutKeeps | other_fs/fuse-2.7.3/kernel/dev.c:193-199 | the caller's own put: the invariant is kept (place on the lists, reference count, who holds it, result, background count) |
| RequestSteps.ReadInterruptKeeps | other_fs/fuse-2.7.3/kernel/dev.c:654-684 | taking an interrupt off the list and numbering it: the invariant is kept (place on the lists, reference count, who holds it, result, background count) |
| RequestSteps.BeginReadKeeps | other_fs/fuse-2.7.3/kernel/dev.c:727-747 | taking the first pending request, or refusing it when it does not fit: the invariant is kept (place on the lists, reference count, who holds it, result, background count) |
| RequestSteps.ReadLockPageKeeps | other_fs/fuse-2.7.3/kernel/dev.c:408-425 | locking the next page of a request being read: the invariant is kept (place on the lists, reference count, who holds it, result, background count) |
| RequestSteps.ReadFinalKeeps | other_fs/fuse-2.7.3/kernel/dev.c:748-768 | the end of a read: on to processing, or request_end: the invariant is kept (place on the lists, reference count, who holds it, result, background count) |
| RequestSteps.BeginWriteKeeps | other_fs/fuse-2.7.3/kernel/dev.c:855-896 | matching a reply: unknown, aborted, interrupt reply, or taken for writing: the invariant is kept (place on the lists, reference count, who holds it, result, background count) |
| RequestSteps.WriteLockPageKeeps | other_fs/fuse-2.7.3/kernel/dev.c:408-425 | locking the next page of a request being written: the invariant is kept (place on the lists, reference count, who holds it, result, background count) |
| RequestSteps.WriteCopyKeeps | other_fs/fuse-2.7.3/kernel/dev.c:525-620 | copying a piece of the reply into the caller's buffers: the invariant is kept (place on the lists, reference count, who holds it, result, background count) |
| RequestSteps.UnlockPageKeeps | other_fs/fuse-2.7.3/kernel/dev.c:427-436 | unlock_request between two pages: the invariant is kept (place on the lists, reference count, who holds it, result, background count) |
| RequestSteps.WriteFinalKeeps | other_fs/fuse-2.7.3/kernel/dev.c:898-911 | the end of a write: the invariant is kept (place on the lists, reference count, who holds it, result, background count) |
| RequestSteps.WindowEndKeeps | other_fs/fuse-2.7.3/kernel/dev.c:869-875 | the end of a write that matched an aborted request: the invariant is kept (place on the lists, reference count, who holds it, result, background count) |
| RequestSteps.DeviceTailKeeps | other_fs/fuse-2.7.3/kernel/dev.c:231-240 | the part of request_end behind the unlock: the invariant is kept (place on the lists, reference count, who holds it, result, background count) |
| RequestSteps.AbortStartKeeps | other_fs/fuse-2.7.3/kernel/dev.c:1026-1033 | fuse_abort_conn takes the lock and disconnects: the invariant is kept (place on the lists, reference count, who holds it, result, background count) |
| RequestSteps.ReleaseStartKeeps | other_fs/fuse-2.7.3/kernel/dev.c:1042-1056 | fuse_dev_release does, when no read or write is in progress: the invariant is kept (place on the lists, reference count, who holds it, result, background count) |
| RequestSteps.AbortIoKeeps | other_fs/fuse-2.7.3/kernel/dev.c:983-1005 | aborting one request under I/O, with or without an end function: the invariant is kept (place on the lists, reference count, who holds it, result, background count) |
| RequestSteps.AbortCallbackKeeps | other_fs/fuse-2.7.3/kernel/dev.c:996-1004 | the end function of such a request, once it is unlocked: the invariant is kept (place on the lists, reference count, who holds it, result, background count) |
| RequestSteps.EndRequestsKeeps | other_fs/fuse-2.7.3/kernel/dev.c:961-981 | ending one request of a list, dropping the lock: the invariant is kept (place on the lists, reference count, who holds it, result, background count) |
| RequestSteps.StepKeeps | other_fs/fuse-2.7.3/kernel/dev.c:216-1056 | every disciplined step keeps the invariant |
| ByteLocks.LockedNode.LocksInsert | other_fs/fuse-2.7.3/lib/fuse.c:2483-2555 | after the call exactly the requested bytes of that owner have the new type and every other byte and owner keeps its own; the list stays sorted, disjoint and merged; the second spare is needed at most once; an allocation failure changes nothing |
| ByteLocks.LockedNode.LocksConflict | other_fs/fuse-2.7.3/lib/fuse.c:2457-2468 | the first entry of another owner that overlaps and involves a write lock, or none |
| ByteLocks.LockedNode.GetLk | other_fs/fuse-2.7.3/lib/fuse.c:2677-2701 | a conflict is reported exactly when another owner holds one of the asked bytes for writing, or at all and the asked lock is for writing; what is reported has the type of such a lock on all its bytes, and its pid |
| ByteLocks.LockedNode.SetLk | other_fs/fuse-2.7.3/lib/fuse.c:2703-2718 | when the file system grants it the owner has exactly the asked type on exactly the asked bytes, to the end for a length of 0, everything else is as before, and an exclusive list stays so exactly when the lock is an unlock or clashes with nobody on any byte; without memory, or refused, nothing changes |
| ByteLocks.ConflictMeansByteConflict | other_fs/fuse-2.7.3/lib/fuse.c:2457-2468 | there is such an entry exactly when some byte of the request is held incompatibly by another owner |
| ByteLocks.InsertKeepsExclusion | other_fs/fuse-2.7.3/lib/fuse.c:2457-2555 | inserting a lock keeps the list free of overlapping owners with a write lock among them exactly when the check found no conflict |
| ByteLocks.FlockRoundTrip | other_fs/fuse-2.7.3/lib/fuse.c:2557-2574 | flock_to_lock and lock_to_flock undo each other |
| ByteLocks.FlockToLock | other_fs/fuse-2.7.3/lib/fuse.c:2557-2565 | the range it makes is the one that the flock means, length 0 being up to the end |
| NodeTable.Fuse.constructor | other_fs/fuse-2.7.3/lib/fuse.c:3131-3176 | fuse_new: a table with nothing but the root is valid |
| NodeTable.Fuse.GetNodeNocheck | other_fs/fuse-2.7.3/lib/fuse.c:250-260 | the walk along an id chain is the lookup on values |
| NodeTable.Fuse.LookupNode | other_fs/fuse-2.7.3/lib/fuse.c:381-393 | so is the walk along a name chain |
| NodeTable.Fuse.UnhashId | other_fs/fuse-2.7.3/lib/fuse.c:279-289 | takes just that node out of its chain |
| NodeTable.Fuse.DeleteNode | other_fs/fuse-2.7.3/lib/fuse.c:351-360 | frees a node that has no name and takes it out of the id table |
| NodeTable.Fuse.UnrefNode | other_fs/fuse-2.7.3/lib/fuse.c:362-368 | drops one reference, and the node with the last |
| NodeTable.Fuse.UnhashName | other_fs/fuse-2.7.3/lib/fuse.c:312-333 | takes the node off its name and drops its parent's reference; the abort is out of reach |
| NodeTable.Fuse.HashName | other_fs/fuse-2.7.3/lib/fuse.c:335-349 | hangs a node under a name, or changes nothing when the name cannot be copied |
| NodeTable.Fuse.NextId | other_fs/fuse-2.7.3/lib/fuse.c:370-379 | ends when an id is free, with the first free one after the counter |
| NodeTable.Fuse.FindNode | other_fs/fuse-2.7.3/lib/fuse.c:395-423 | one more lookup of the node that is there, or a new node with a number and generation never handed out before (until the generation wraps), or nothing without memory; the table stays valid |
| NodeTable.Fuse.ForgetNode | other_fs/fuse-2.7.3/lib/fuse.c:481-495 | lookups are given back; with the last one the node loses its name and that reference; the table stays valid and no assertion trips |
| NodeTable.Fuse.RemoveNode | other_fs/fuse-2.7.3/lib/fuse.c:497-506 | the node under the name loses it and nothing else changes; the table stays valid |
| NodeTable.Fuse.RenameNode | other_fs/fuse-2.7.3/lib/fuse.c:508-542 | the result of a rename in every case: nothing there, something in the way of a hidden name, no memory, renamed; the table stays valid |
| NodeTable.Fuse.AddName | other_fs/fuse-2.7.3/lib/fuse.c:425-438 | puts a slash and the name in front, or reports that it does not fit |
| NodeTable.Fuse.GetPathName | other_fs/fuse-2.7.3/lib/fuse.c:440-474 | exactly the nodes that hang under the root by a path of at most FUSE_MAX_PATH-1 bytes have one, and it is that path |
| NodeTable.FindEffects | other_fs/fuse-2.7.3/lib/fuse.c:395-423 | the node under the name has one more lookup, or a new one has its first there, with an unused number, not hidden; every other node is what it was |
| NodeTable.ForgetEffects | other_fs/fuse-2.7.3/lib/fuse.c:481-495 | the node has so many lookups less; with none left it loses its name and stays exactly as long as it has children; every other node is what it was, or had no lookup either |
| NodeTable.RemoveEffects | other_fs/fuse-2.7.3/lib/fuse.c:497-506 | the node under the name has none any more and is otherwise what it was |
| NodeTable.RenameEffects | other_fs/fuse-2.7.3/lib/fuse.c:508-542 | the renamed node has its new place, is hidden if it was or if it is renamed out of the way, and is otherwise what it was; a displaced one has no name; all others, apart from nodes without lookup that go, are what they were |
| NodeEffects.RenamedEffect | other_fs/fuse-2.7.3/lib/fuse.c:508-542 | a rename on values changes name and parent of the renamed and the displaced node and nothing else |
| NodeEffects.LastLookupEffect | other_fs/fuse-2.7.3/lib/fuse.c:481-495 | a node without lookups stays exactly as long as it has children |
| NodeTable.NeverAborts | other_fs/fuse-2.7.3/lib/fuse.c:312-368 | in a valid table neither the abort of unhash_name nor an assertion can be reached |
| NodeTable.PositionsDiffer | other_fs/fuse-2.7.3/lib/fuse.c:370-379 | different positions of the counter differ in generation or number until the generation wraps |
| NodeTable.ForgetSteps | other_fs/fuse-2.7.3/lib/fuse.c:481-495 | forget_node step by step meets what each of its parts needs and ends in a valid table |
| NodeTable.RenameSteps | other_fs/fuse-2.7.3/lib/fuse.c:508-542 | so does rename_node |
| NodeTree.UnlinkGood | other_fs/fuse-2.7.3/lib/fuse.c:312-333 | unhash_name keeps the invariant of the table, with the parent freed or not |
| NodeTree.LinkGood | other_fs/fuse-2.7.3/lib/fuse.c:335-349 | hash_name keeps it, the acyclic parent relation included, when the directory is not below the node |
| NodeTree.InsertGood | other_fs/fuse-2.7.3/lib/fuse.c:402-417 | a new node with an unused number keeps it |
| NodeTree.DropGood | other_fs/fuse-2.7.3/lib/fuse.c:481-495 | dropping the last lookup of a node without a name keeps it |
| NodeTree.LookupIdExact | other_fs/fuse-2.7.3/lib/fuse.c:250-260 | the id table finds the node with a number exactly when there is one |
| NodeTree.LookupNameExact | other_fs/fuse-2.7.3/lib/fuse.c:381-393 | the name table finds the node under a name exactly when there is one |
| NodeTree.RenameMovesSubtree | other_fs/fuse-2.7.3/lib/fuse.c:508-542 | what is below the renamed node is found under the new directory and name with its old suffix, what was below a displaced node and not below the renamed one has no path, all other paths are unchanged |
| NodeTree.CutPaths | other_fs/fuse-2.7.3/lib/fuse.c:312-333 | taking a node off its name leaves exactly the paths that do not lead through it |
| NodeTree.LinkBelow | other_fs/fuse-2.7.3/lib/fuse.c:335-349 | what is below a node that gets a name has the paths of the new place |
| NodeTree.PathsAgree | other_fs/fuse-2.7.3/lib/fuse.c:440-474 | a node has at most one path, and a climb on the way is part of it |
| NodePaths.RenameBetween | other_fs/fuse-2.7.3/lib/fuse.c:1701-1737 | fuse_lib_rename between two questions for the path of any held node: below the renamed one the old path in front turns into the new one, below a displaced one there is no path any more, everywhere else the path is the same; without a path on either side -ENOENT and no change |
| NodePaths.BelowMoves | other_fs/fuse-2.7.3/lib/fuse.c:440-474 | the path string of a node below the renamed one, cut at FUSE_MAX_PATH |
| NodePaths.ElsewhereStays | other_fs/fuse-2.7.3/lib/fuse.c:440-474 | the path string of any other node |
| CatalogOrder.JoinDepth | generate_catalog.c:140-157 | findDepth counts the names of a path |
| CatalogOrder.JoinOrder | generate_catalog.c:286-366 | name by name order is strcmp order of the paths exactly where no directories clash |
| CatalogOrder.JoinInjective | generate_catalog.c:286-366 | a path stands for one sequence of names |
| CatalogOrder.PrefixBetween | catalogfs.c:660-672 | strings with a common prefix lie together in strcmp order |
| CatalogListing.WalkByLevels | generate_catalog.c:286-366 | the queue lists one level of the tree after the other |
| CatalogListing.ListingOrdered | generate_catalog.c:286-366 | entries come by depth and, within a depth, name by name, none twice |
| CatalogListing.ListingIs | generate_catalog.c:286-366 | the catalog holds exactly the files of the tree under their paths and each directory once more with a slash, the root once |
| CatalogListing.SortedIffNoClash | generate_catalog.c:286-366 | the catalog is strictly ascending by depth and strcmp exactly when no directory is called like a sibling directory followed by a byte below the slash |
| CatalogText.RecordRoundTrip | catalogfs.c:350-434 | parsing a printed record gives back type and permission bits, owner, size, times, depth, path and link target, whatever follows it |
| CatalogText.KeptMode | generate_catalog.c:176-187 | a mode of a known type survives the type letter, one of an unknown type becomes that of a regular file |
| CatalogText.PrintedText | generate_catalog.c:193-221 | the text of every record of one-digit numbers: letter, permissions in octal, numbers in their order, path, link target |
| CatalogText.DigitsScan | generate_catalog.c:193-221 | scanning printed digits gives the number back, in octal and decimal |
| CatalogGenerator.Queue.Insert | generate_catalog.c:87-109 | hangs a new cell behind the last of the chain, or makes it the head of an empty one |
| CatalogGenerator.Queue.Remove | generate_catalog.c:111-132 | unhangs the head of the chain, if there is one; together with Insert, first in first out |
| CatalogGenerator.Generator.ListEntries | generate_catalog.c:286-366 | the entries of one directory: a record for each in order, and each directory among them queued behind what is there |
| CatalogGenerator.Generator.PrintToCatalog | generate_catalog.c:159-284 | appends the record of the file with its path below the input directory |
| CatalogGenerator.Generator.CatalogListing | generate_catalog.c:286-366 | terminates and writes the records of the whole walk in order |
| CatalogGenerator.Generator.PadEachLine | generate_catalog.c:370-404 | writes every line filled up to the length of the longest |
| CatalogGenerator.WidthIs | generate_catalog.c:370-384 | that length is the maximum of the unpadded lines, and one line has it |
| CatalogGenerator.CatalogRoundTrip | generate_catalog.c:370-404 | every padded line has that length, and the i-th slice of the file parses to the record of the i-th file of the walk |
| CatalogSearch.Catalog.GetEntry | catalogfs.c:289-436 | reads the entry at a location |
| CatalogSearch.Catalog.FindIndex | catalogfs.c:506-528 | narrows the bounds to an entry of the depth without losing one |
| CatalogSearch.Catalog.FindLowestIndex | catalogfs.c:530-548 | finds where the block of the depth begins |
| CatalogSearch.Catalog.FindHighestIndex | catalogfs.c:550-567 | finds where it ends |
| CatalogSearch.Catalog.BinSearch | catalogfs.c:570-630 | the location of the path, or -1 exactly when no entry has it |
| CatalogSearch.Catalog.GetDirectoryContents | catalogfs.c:633-677 | the contiguous block of exactly the entries with the depth and prefix of the directory, or the error |
| CatalogSearch.Catalog.GetattrByPath | catalogfs.c:697-734 | what a linear search of the entries gives, or -ENOENT |
| CatalogSearch.Catalog.Readlink | catalogfs.c:971-1016 | the link target of that entry, cut or zero-filled into all of the buffer but its last byte, or -ENOENT |
| CatalogSearch.LinkReadBack | catalogfs.c:1004-1016 | with a terminator behind what was written, a reader gets the whole link exactly when it is short enough, and else the beginning of it |
| CatalogSearch.Catalog.Readdir | catalogfs.c:837-913 | the contents of the directory by last name, in order, or -ENOENT |
| CatalogSearch.BlockIsContents | catalogfs.c:633-677 | in a sorted catalog the contents of a directory stand right behind it, all of them |
| CatalogAgreement.CatalogSorted | generate_catalog.c:286-366 | the catalog of a tree that meets the conditions is sorted as the search needs it |
| CatalogAgreement.FileHolds | generate_catalog.c:370-404 | its padded file holds its entries |
| CatalogAgreement.Mount | catalogfs.c:1068-1114 | generating and mounting the catalog of such a tree gives a valid catalog of that tree |
| CatalogAgreement.ServeGetattr | catalogfs.c:697-744 | from the tree to the answer: catalogued, mounted and asked for a path of names, the file system gives the recorded attributes of that file or -ENOENT |
| CatalogAgreement.ServeReaddir | catalogfs.c:837-913 | from the tree to the answer: asked for a directory it lists its files, each once, in order, with their attributes; of anything else -ENOENT |
| CatalogAgreement.GetattrAgrees | catalogfs.c:720-744 | each path of names has the recorded attributes of its file, and a path without a file is not found |
| CatalogAgreement.GetattrOfDirectory | catalogfs.c:720-744 | the root, and each directory with a slash behind its path, is found with its attributes |
| CatalogAgreement.NothingElse | catalogfs.c:720-744 | nothing else is found |
| CatalogAgreement.ReaddirAgrees | catalogfs.c:837-913 | readdir of a directory lists exactly the files in it, each once, in order, with their attributes; of anything else it fails |
| DirStream.LeRoundTrip | other_fs/fuse-2.7.3/lib/fuse_lowlevel.c:211-230 | reading back a fixed-width number |
| DirStream.DirentFields | other_fs/fuse-2.7.3/lib/fuse_lowlevel.c:211-230 | a packed record holds number, offset, name and type where the kernel reads them |
| DirStream.DirentPadded | other_fs/fuse-2.7.3/lib/fuse_lowlevel.c:211-246 | it is filled up with zeros to the next multiple of eight |
| DirStream.DirHandle.ExtendContents | other_fs/fuse-2.7.3/lib/fuse.c:2106-2125 | makes room by doubling and keeps what is there |
| DirStream.DirHandle.AddDirent | other_fs/fuse-2.7.3/lib/fuse_lowlevel.c:211-246 | writes the record and nothing before it |
| DirStream.DirHandle.FillPlain | other_fs/fuse-2.7.3/lib/fuse.c:2164-2175 | fill_dir without an offset: appends a record that carries the offset of what follows it |
| DirStream.DirHandle.FillNumbered | other_fs/fuse-2.7.3/lib/fuse.c:2153-2163 | fill_dir with an offset: appends a record that carries it, or says that what the request asked for is full; the buffer no longer counts as filled |
| DirStream.DirHandle.ReaddirFill | other_fs/fuse-2.7.3/lib/fuse.c:2177-2205 | no path: an error and nothing changed; an error of the file system: the buffer does not count as filled; else the packed listing, or the numbered records behind the offset that lie whole in what was asked for, filled only if there are none |
| DirStream.DirHandle.LibReaddir | other_fs/fuse-2.7.3/lib/fuse.c:2207-2240 | an error reply, or the bytes of the packed listing from the offset, as many as were asked for and there are, or the numbered records behind the offset that lie whole in that many |
| DirStream.ReadDirectory | other_fs/fuse-2.7.3/kernel/dir.c:887-925 | opened and read by calls to libfuse whose replies the kernel parses, a directory is delivered in order from its first name, at least one name a call that takes any, until the last |
| DirStream.ParseDirfile | other_fs/fuse-2.7.3/kernel/dir.c:862-885 | takes records until the buffer or filldir ends, with an error for a bad name length, and remembers the offset behind the last one taken |
| DirStream.PageParses | other_fs/fuse-2.7.3/kernel/dir.c:862-885 | from the beginning of packed records it takes exactly the whole ones, in order, and ends on the offset of the last |
| DirStream.CallDelivers | other_fs/fuse-2.7.3/kernel/dir.c:887-925 | a call from a record's offset delivers the entries from there on that fit, at least one if there is one and filldir takes any |
| DirStream.StreamDelivers | other_fs/fuse-2.7.3/kernel/dir.c:887-925 | any sequence of calls delivers the listing in order, without gap or repetition, always stands on a record boundary and comes to the end |
| Symlinks.CountComponents | other_fs/fuse-2.7.3/lib/modules/subdir.c:83-93 | counts the components of a path |
| Symlinks.StripCommon | other_fs/fuse-2.7.3/lib/modules/subdir.c:95-107 | stops behind exactly the common components, or before the last when both paths end with it |
| Symlinks.MemMove | other_fs/fuse-2.7.3/lib/modules/subdir.c:131-136 | moves overlapping bytes |
| Symlinks.TransformSymlink | other_fs/fuse-2.7.3/lib/modules/subdir.c:109-143 | leaves the rewritten link in the buffer, terminated, and no byte at or behind its size changed |
| Symlinks.RewriteFits | other_fs/fuse-2.7.3/lib/modules/subdir.c:126-129 | the rewritten link fits the buffer |
| Symlinks.BelowBaseIsRelative | other_fs/fuse-2.7.3/lib/modules/subdir.c:109-143 | an absolute link to below the base directory becomes relative unless it leads through the link itself or the result does not fit |
| Symlinks.RewriteKeepsMeaning | other_fs/fuse-2.7.3/lib/modules/subdir.c:109-143 | the rewritten link names the same place from the link's directory as the absolute one, when the path has no dots behind what both share |
| Symlinks.NormalisedPathKeepsMeaning | other_fs/fuse-2.7.3/lib/modules/subdir.c:109-143 | so it does for every normalised path |
| InterruptProofs.InterruptsNotLost | other_fs/fuse-2.7.3/lib/fuse_lowlevel.c:876-950 | the interrupt of an unanswered request is queued in the kernel, in a thread's hands, parked, about to go back, or marked on the live request |
| InterruptProofs.CallbackRuns | other_fs/fuse-2.7.3/lib/fuse_lowlevel.c:1057-1066 | a callback registered before or after the mark has been called once the request is marked and its lock free |
| InterruptProofs.DestroyedOnce | other_fs/fuse-2.7.3/lib/fuse_lowlevel.c:128-150 | each request structure is destroyed at most once, then no list or thread refers to it, and one without references is about to be destroyed |
| InterruptOnce.MarkedWasInterrupted | other_fs/fuse-2.7.3/lib/fuse_lowlevel.c:876-950 | a request is marked only when the kernel has interrupted it |
| InterruptOnce.CalledOnce | other_fs/fuse-2.7.3/lib/fuse_lowlevel.c:1057-1066 | a registered callback has been called exactly once when its request is marked and the lock free, and not at all otherwise |
| InterruptOnce.NotCalledLater | other_fs/fuse-2.7.3/lib/fuse_lowlevel.c:134-150 | once a request has been let go it has no callback any more |
| InterruptOnce.OneCarrier | other_fs/fuse-2.7.3/lib/fuse_lowlevel.c:876-950 | an interrupt is with one message at most, and with none once its request is marked |
| InterruptOnce.ParkedIsEarlyOrLate | other_fs/fuse-2.7.3/lib/fuse_lowlevel.c:903-928 | an interrupt is parked only while its request is not listed |
| InterruptOnce.ArrivalTakesOne | other_fs/fuse-2.7.3/lib/fuse_lowlevel.c:930-950 | a request that arrives takes a parked message off the list if there is one: its own, which marks it, or the oldest, which is answered with EAGAIN |
| InterruptOnce.MessageTaken | other_fs/fuse-2.7.3/lib/fuse_lowlevel.c:876-928 | a message for a listed request goes to mark it, one for which a message is parked is dropped, any other is parked behind the rest |
| InterruptOnce.StepOnce | other_fs/fuse-2.7.3/lib/fuse_lowlevel.c:134-1180 | every step keeps that marks come from interrupts, calls from marks, and interrupts are in one place |
| InterruptProofs.CheckInterruptKeeps | other_fs/fuse-2.7.3/lib/fuse_lowlevel.c:930-950 | check_interrupt: early mark, a parked interrupt taken, or nothing parked: the invariant is kept (places, references, locks, callbacks, tokens) |
| InterruptProofs.DoInterruptKeeps | other_fs/fuse-2.7.3/lib/fuse_lowlevel.c:876-928 | do_interrupt: request found, interrupt already parked, or parked now: the invariant is kept (places, references, locks, callbacks, tokens) |
| InterruptProofs.MarkKeeps | other_fs/fuse-2.7.3/lib/fuse_lowlevel.c:886-889 | marking a request under both locks: the invariant is kept (places, references, locks, callbacks, tokens) |
| InterruptProofs.CallBackKeeps | other_fs/fuse-2.7.3/lib/fuse_lowlevel.c:890-892 | the callback of a marked request: the invariant is kept (places, references, locks, callbacks, tokens) |
| InterruptProofs.LetGoKeeps | other_fs/fuse-2.7.3/lib/fuse_lowlevel.c:894-899 | find_interrupted lets go of the request, which may be the last to do so: the invariant is kept (places, references, locks, callbacks, tokens) |
| InterruptProofs.RegisterKeeps | other_fs/fuse-2.7.3/lib/fuse_lowlevel.c:1057-1066 | fuse_req_interrupt_func: the invariant is kept (places, references, locks, callbacks, tokens) |
| InterruptProofs.SendEagainKeeps | other_fs/fuse-2.7.3/lib/fuse_lowlevel.c:1179-1180 | EAGAIN for a parked interrupt: the invariant is kept (places, references, locks, callbacks, tokens) |
| InterruptProofs.SendReplyKeeps | other_fs/fuse-2.7.3/lib/fuse_lowlevel.c:152-175 | a reply reaches the kernel: the invariant is kept (places, references, locks, callbacks, tokens) |
| InterruptProofs.UnlistReqKeeps | other_fs/fuse-2.7.3/lib/fuse_lowlevel.c:144-147 | free_req takes the request off the list and drops a reference: the invariant is kept (places, references, locks, callbacks, tokens) |
| InterruptProofs.StepKeeps | other_fs/fuse-2.7.3/lib/fuse_lowlevel.c:134-1180 | every step keeps it |

## Left out

- DoSend: as for the other functions of `RequestModel` that compute a step, its contract only says that it leaves the aborting threads and the connection alone; what the step means is stated by the lemmas of `RequestSteps` and `RequestTheorems`.
- StepKeeps: of `RequestSteps`, holds for disciplined steps only; `RequestRace` proves that this is exactly where the code keeps its promise.
- NumbersDiffer: holds until 2^64-1 numbers have been taken; then the counter comes around and numbers may be given twice.
- GetPathName: takes the number of a node that exists, as its callers do; the abort of get_node is not modelled.
- RewriteKeepsMeaning: is about names, without following links on the way.
- Kernel device: the INIT exchange, the count of waiting requests, reserved requests, poll and fasync, page zeroing, and the copying of request contents to the daemon are not modelled; waits are guards, and signals are free choices.
- Kernel device: what a page copy does to its target is the appending of a piece of the payload; kmap, get_user_pages and their failures are one fault flag.
- Node table: open counts, hiding of open files beyond the flag, and the overflow of the int reference count are not modelled; addresses from calloc are parameters.
- Lock list: waiting for a lock is not modelled; what the file system answers to a lock request is a parameter.
- Catalog: failures of open, seek, read, lstat, readlink, scandir and malloc; numbers are assumed to fit the C types they are printed from, paths to fit MAXPATHLEN, and the directory entry type to agree with lstat.
- Catalog: the environment variables that pass entry size and catalog length, and the parsing of lines that are not records, where sscanf leaves variables unset.
- Catalog: a filler that refuses an entry; opendir, access, statfs and the operations that answer -EROFS.
- Directory stream: file systems that mix names with and without offsets, or pass more after the filler said it is full; the lookup of inode numbers for a listing, allocation failure, and the overflow of the buffer size above 2^31.
- ReadDirectory: is about a directory that does not change and a file system that reports no error; LibReaddir covers the errors.
- Readlink: writes no terminator behind a link as long as the buffer, as the code does; LinkReadBack says what a caller that adds one reads.
- RenameBetween: is about a rename the file system grants, with memory for the new name; RenameNode covers the others.
- Symbolic links: the other operations of the subdir module, which only put the base directory in front.
- Interrupts: replies sent before a request is listed (no INIT yet, wrong user, unknown opcode), and the bytes of the messages.
- Concurrency of the node table, the lock list and the directory handle: their methods run under f->lock or dh->lock and are modelled one call at a time.
