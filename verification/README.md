# A verified model of matshare

matshare lets several MATLAB processes share variables through named memory
segments. This project models the UNIX build of its core in Dafny and proves what
the rest of the program relies on. `dafny verify dfyconfig.toml` checks everything.

The model has five parts.

1. **Segment protocol** (`Segment*.dfy`, `Directive*.dfy`, `Counters.dfy`). Any number
   of processes create, open, list, unlist, detach and unlink segments, one atomic read,
   write or compare-and-swap at a time. `SegmentModel.Step` is one such step;
   `SegmentInvariant.Inv` is the inductive invariant; `SegmentTheorems` says what holds in
   every reachable state, over every schedule. `DirectiveModel` adds each process's own
   list and the revision it has seen, and the directives that bring the list in line with
   the shared one as further steps between those of the protocol: every step of one
   directive interleaves with every step of the others. `DirectiveTheorems` says what the
   revision number tells about the lists. What is attained is proved beside what is kept
   safe: from any reachable state with the lock to be had, every operation and every
   directive of a process that runs alone ends (`SegmentRank` gives the measure), and ends
   with the result it is for (`SegmentAlone`, `SegmentGiveUp`, `DirectiveAlone`,
   `DirectiveLatest`, `DirectiveClean`, `DirectiveDrops`); and what one process shares or
   removes the next one to update tracks or drops (`DirectiveShare`).
2. **Shared info block** (`Info*.dfy`, `Joined*.dfy`). Opening, entering, initialising,
   leaving, unlinking and re-creating the block that holds the ends of the shared list; and
   the block together with the segments, for processes that detach from everything before
   they leave it. `InfoProgress` bounds the turns in which a process alone gets in or out.
3. **Serializer** (`Shared*.dfy`, `Bytes.dfy`). Sizing, copying, fetching, comparing and
   overwriting nested MATLAB values in a byte buffer, against `SharedLayout.Image`, the
   list of all regions a value occupies with the bytes each holds.
4. **Local index** (`HashTable.dfy`, `LocalList.dfy`). A process's own doubly linked list of
   segments and its two hash tables, as classes whose `Valid()` ties the pointers to a
   ghost sequence (the list) and a multimap (the tables).
5. **Slicing and arithmetic** (`Slic*.dfy`, `SubscriptParser.dfy`, `IndexedOps.dfy`,
   `AtomicRunner.dfy`, `MachineWords.dfy`, `Integer*.dfy`, `Conversions.dfy`,
   `VariableUse.dfy`). Subscripts compiled into slices, operations over them, the
   compare-and-swap runners, saturating integer arithmetic of any width, and the use count
   of a shared variable.

Where the code does not do what is wanted of it on all inputs, the model keeps the code
and the theorem gives the exact condition:

- an empty complex array comes back real (`NormExact`, `EmptyComplexLost`);
- slices longer than one element and more than one run of indices do not go together: the
  walk over the base subscript advances by the scaled slice length; linear indices that
  run over a whole first dimension of more than one element are taken for a slice longer
  by that factor; and a last `:` that stands for several dimensions behind a partial
  subscript is followed along the first of them only
  (`SlotsFilled`, `ParseIndices`, `AstrayExample`, `LinearExample`);
- a process is up to date when the revision it has seen is the shared one, unless the list
  has changed exactly a multiple of 2^64 - 1 times since (`SeenTells`);
- a copied variable is not protected from being collected between its mark and its count
  (`CopiesCounted`, `NotCollected`, `MarkedTooLate`);
- signed 64-bit multiplication misses by one for the minimum times one (`MulIntExact`);
- an unsigned number above the signed maximum of the same width wraps when converted
  (`ConvertExact`).

## Model

| member | source | states |
|---|---|---|
| SegmentSafety.StepKeeps | source/src/mshsegments.c:103-324 | every atomic step of every process keeps the protocol invariant: list shape, names, counts, tables, lock, ledger |
| SegmentSafety.CreateKeeps | source/src/mshsegments.c:626-646 | reserving a size and creating a segment exclusively keep the invariant |
| SegmentSafety.AddStepKeeps | source/src/mshsegments.c:193-252 | each write of an append to the shared list keeps it, also the refusal when there are too many segments |
| SegmentSafety.RemStepKeeps | source/src/mshsegments.c:255-324 | each step of a removal keeps it, including the unlocked and the repeated test of the invalid mark |
| SegmentSafety.SwapStepKeeps | source/src/mshsegments.c:124-150 | the compare-and-swap of a detach keeps it, whether it fails, only counts down, or flags the segment |
| SegmentSafety.FinishStepKeeps | source/src/mshsegments.c:141-152 | unlinking, posting and giving back the size keep it |
| SegmentSafety.OpenStepKeeps | source/src/mshsegments.c:692-730 | counting in, testing the flag, waiting and tracking keep it |
| SegmentAccounts.AccountKeeps | source/src/mshsegments.c:103-190 | every step keeps the accounts: a reserved size is owed by exactly the segments that are named, being built or being given up, and a segment nobody is in is flagged |
| SegmentTheorems.RunSafe | source/src/mshsegments.c:103-324 | the invariant and the accounts hold after any schedule of any processes |
| SegmentTheorems.WalkVisits | source/src/mshsegments.c:358-388 | a walk along next or prev numbers visits distinct segments, those of the list and in its order; it never cycles |
| SegmentTheorems.ListedAlive | source/src/mshsegments.c:103-190 | in every reachable state, a segment that a walk reaches is not flagged for unlinking, is what its number names, and has a count of at least 1 |
| SegmentTheorems.SettledList | source/src/mshsegments.c:193-324 | when nobody is inside a rewrite of the list: forwards and backwards agree, the stored length is right, and a segment is listed exactly when it is not invalid |
| SegmentTheorems.UnlinkedOnce | source/src/mshsegments.c:103-190 | the flag flips at most once, the unlink happens at most once and only after it, and one process does both |
| SegmentTheorems.UnlinkedName | source/src/mshsegments.c:141-152 | the name a process unlinks still names the segment it flagged, not a later one of the same number |
| SegmentTheorems.FlaggedUnlisted | source/src/mshsegments.c:126-139 | when the flagging compare-and-swap succeeds, no walk reaches the segment and the process is the only one counted in, although the invalid mark was read without the lock |
| SegmentTheorems.FlagStays | source/src/mshlockfree.c:31-60 | a flag once set stays set |
| SegmentTheorems.OpenNeverWaits | source/src/mshsegments.c:692-730 | opening a listed number under the lock always finds the name, never finds the flag and never takes the retry branch |
| SegmentTheorems.TableCurrent | source/src/mshsegments.c:607-690 | a number in a process's table always denotes the segment that carries the name now, however often numbers were reused |
| SegmentTheorems.CountExact | source/src/mshlockfree.c:17-46 | the count is exactly the number of processes that have the segment tracked or in hand |
| SegmentTheorems.LockExclusive | source/src/mshutils.c:29-91 | two processes are never both in a section under the process lock, which may be acquired again by its holder |
| SegmentTheorems.TotalExact | source/src/mshlockfree.c:110-172 | the shared total is the sum of the reserved sizes, never above the maximum (a constant here), and at rest the sum over the segments that exist |
| SegmentTheorems.NothingLeaks | source/src/mshsegments.c:103-190 | when all processes have detached from everything, no name, no list entry and no reserved byte is left |
| SegmentLocks.LocksKeep | source/src/mshutils.c:29-91 | one step of any process moves the lock by what it has locked itself and by the section it enters or leaves |
| SegmentLocks.LocksMatch | source/src/mshutils.c:29-91 | after any schedule the nesting level is the number of locks the owner has taken itself and not given back (a refused append among them), plus one while it is inside an append or a removal; nobody else has any |
| SegmentLocks.LockFree | source/src/mshutils.c:29-91 | so with every own lock given back, the lock is held only inside an append or a removal, and is free when all are between operations |
| SegmentRank.RankDrops | source/src/mshsegments.c:103-324 | with the lock free or its own, each step of a process in the middle of an operation brings it nearer to the end |
| SegmentAlone.EndsAlone | source/src/mshsegments.c:103-324 | so every operation ends in a bounded number of turns when its process runs alone; creating needs a free number |
| SegmentAlone.CreateAlone | source/src/mshsegments.c:193-252 | a creation run alone ends with the segment named, tracked, valid and last in the list both ways, its size reserved, the revision changed once and the lock as before |
| SegmentAlone.TooLarge | source/src/mshsegments.c:626-636 | a segment that would exceed the maximum size is not created |
| SegmentAlone.OpenAlone | source/src/mshsegments.c:692-730 | opening run alone counts the process in once and tracks the segment of that number, and changes nothing else |
| SegmentGiveUp.RemoveAlone | source/src/mshsegments.c:255-324 | a removal run alone leaves the segment invalid and in no walk, the rest of the list in order, the revision changed if and only if it was listed, and the lock as before |
| SegmentGiveUp.DetachAlone | source/src/mshsegments.c:103-190 | a detach run alone counts the process out; the last process out takes the segment out of the list, flags, unlinks and posts it and gives its size back; nothing else is tracked anew unless it is cut out, and the lock is as before |
| SegmentGiveUp.RefusedAlone | source/src/mshsegments.c:203-218 | an append refused for too many segments leaves no name, list entry or reserved byte of it, and the lock held once more |
| SegmentNumbers.TriedIs | source/src/mshsegments.c:642-646 | the numbers tried run once around 0 to 2^31-1 |
| SegmentNumbers.ReachesAll | source/src/mshsegments.c:642-646 | every number is tried within one round |
| SegmentNumbers.FindFreeNumber | source/src/mshsegments.c:624-646 | while other processes create and unlink, the search ends, in range, at the first attempt that finds its number free, if there is one |
| SegmentNumbers.NoneFree | source/src/mshsegments.c:642-646 | an attempt made while every number is taken fails |
| SegmentNumbers.FreeInRound | source/src/mshsegments.c:642-646 | with one number free throughout, some attempt within one round finds its number free, whatever is created and unlinked meanwhile |
| DirectiveFrames.StepMoves | source/src/mshsegments.c:193-324 | what a protocol step lets other processes see: the list changes only by the lock holder joining or cutting out one segment, and the revision only when that is complete |
| DirectiveActs.BusyKeeps | source/src/mshsegments.c:193-324 | a process in the middle of an append, a removal, an opening or a detach keeps its list in line, the refusal of too many segments and its own removals included |
| DirectiveDeeds.UpdateKeeps | source/src/mshsegments.c:358-404 | each step of an update of all keeps it: the unlocked test of the revision, the lock, one segment placed or opened at a time, noting the revision, the unlock, one segment dropped at a time |
| DirectiveDeeds.LatestKeeps | source/src/mshsegments.c:407-445 | so does each step of an update of the latest, with its two unlocked reads of the last number and the one under the lock |
| DirectiveDeeds.CleanKeeps | source/src/mshsegments.c:586-601 | so does cleaning, which may drop a segment while its remover is still cutting it out |
| DirectiveDeeds.DiscardKeeps | source/src/matshare_.c:911-918 | so does dropping a segment after removing it from the shared list |
| DirectiveDeeds.LeaveKeeps | source/src/mshinit.c:265-327 | so does detaching from everything and forgetting the revision |
| DirectiveTheorems.WideKeeps | source/src/mshsegments.c:358-445 | every step of every process in any directive keeps all lists in line with the shared one |
| DirectiveTheorems.WideReachableCore | source/src/mshsegments.c:358-445 | the directives are made of steps of the segment protocol, so all that holds of it holds beside them |
| DirectiveTheorems.SeenTells | source/src/mshsegments.c:1017-1021 | the revision seen equals the shared one if and only if the list has not changed since it was noted, or changed a multiple of 2^64 - 1 times |
| DirectiveTheorems.InStep | source/src/mshsegments.c:358-368 | a process between directives that has seen the shared revision (fewer than 2^64 - 1 changes since) tracks the list of the last change in order, except for a segment being cut out that it has already dropped |
| DirectiveTheorems.Coherent | source/src/mshsegments.c:358-404 | with the lock free it tracks exactly what a walk from the first number visits, in that order, in its list and in its table |
| DirectiveTheorems.UpdateNotes | source/src/mshsegments.c:372-394 | when an update of all notes the revision, its list ends with exactly the shared list |
| DirectiveTheorems.UpdateDrops | source/src/mshsegments.c:396-402 | while it drops what is in front, after the lock is released, that is still so unless the revision changed again, and nothing dropped is shared |
| DirectiveTheorems.LatestPlaced | source/src/mshsegments.c:407-445 | an update of the latest ends with the segment it took for the last at the end of the list; it is the last of the shared list unless that has changed since |
| DirectiveTheorems.LatestDecides | source/src/mshsegments.c:407-445 | over every run: an update of the latest that ends has read that there is no last segment, or has the segment it took for the last one at the end of the list |
| DirectiveAlone.UpdateAllAlone | source/src/mshsegments.c:358-404 | an update of all run alone ends, with the shared revision seen and list and table equal to the shared list, which it has not changed, and the lock as before |
| DirectiveLatest.LatestAlone | source/src/mshsegments.c:407-445 | an update of the latest run alone, when there is a last segment, ends with exactly that one moved or added to the end of the list, and the lock as before |
| DirectiveClean.CleanAlone | source/src/mshsegments.c:586-601 | a cleaning run alone ends, without the lock, with exactly the segments that were not invalid, in their order |
| DirectiveDrops.DiscardAlone | source/src/matshare_.c:911-918 | removing a segment, run alone, ends with it in no list and no table of the process, the shared list without it and otherwise in order, and the lock as before |
| DirectiveDrops.LeaveAlone | source/src/mshsegments.c:327-336 | leaving, run alone, ends with nothing tracked and the process counted in no segment |
| DirectiveShare.ShareAlone | source/src/mshsegments.c:193-252 | creating a segment between directives, run alone, ends with it the last of the shared list and in the process's own list and table |
| DirectiveShare.SharedThenSeen | source/src/mshsegments.c:358-404 | after one process has created a segment and another has updated, each alone, the other tracks what was shared before and behind it the new segment, and nothing else |
| DirectiveShare.RemovedThenGone | source/src/mshsegments.c:358-404 | after one process has removed a shared segment and another has updated, each alone, the other tracks exactly the rest, in order |
| InfoSafety.StepKeeps | source/src/mshinit.c:107-205 | every step of opening, entering and leaving the info block keeps its invariant |
| InfoTheorems.RunSafe | source/src/mshinit.c:107-332 | the invariant holds after any schedule |
| InfoTheorems.AcceptedTogether | source/src/mshinit.c:137-204 | all accepted processes are attached to one block, the one that is named, not flagged, and counting them exactly |
| InfoTheorems.InitialisedOnce | source/src/mshinit.c:177-199 | each block has at most one initialising process, and whoever is in was let in after its initialisation |
| InfoTheorems.UnlinkedOnce | source/src/mshinit.c:278-301 | a block is unlinked at most once, while it carries the name; the post bit says that it no longer does |
| InfoTheorems.WaitsForSomebody | source/src/mshinit.c:160-202 | a process that waits for the post bit or the initialisation waits for a process still on its way to provide it |
| InfoTheorems.NothingLeaks | source/src/mshinit.c:278-301 | when all have left, the name is gone and every block was flagged, unlinked once and posted |
| InfoTheorems.EndIsFinal | source/src/mshlockfree.c:31-71 | flag, post bit and unlinking are never undone |
| InfoProgress.LeavesAlone | source/src/mshinit.c:278-301 | a process in the block, whatever it has read before, is out after at most 8 turns alone, counted out once; if it was the last, the block is flagged, unlinked and posted |
| InfoProgress.EntersAlone | source/src/mshinit.c:137-204 | a process that has opened an initialised block that is not flagged is in after at most 5 turns alone, counted in once, and nothing else changes |
| InfoProgress.FindsAlone | source/src/mshinit.c:107-204 | the same from outside, when the name denotes such a block |
| InfoProgress.StartsAlone | source/src/mshinit.c:177-199 | the first one into a block initialises it once and is in after at most 7 turns alone |
| InfoProgress.ComesTooLate | source/src/mshinit.c:160-176 | one that comes too late is out again after at most 5 turns once the block is posted, counted in no block |
| InfoProgress.CreatesAlone | source/src/mshinit.c:107-204 | with no block named, a process creates one, initialises it and is in after at most 8 turns alone |
| JoinedProtocol.NextKeeps | source/src/mshinit.c:177-301 | block and segments together: the invariants of both are kept when processes work on segments only while they are in, leave only after detaching, and a new block has its fields reset |
| JoinedProtocol.SegmentsNeedBlock | source/src/mshinit.c:265-301 | as long as a segment exists, some process is in the block that carries the name, and the block is not flagged |
| JoinedProtocol.FlaggedEmpty | source/src/mshinit.c:273-301 | the swap that flags the block succeeds only when no segment name, list entry or reserved byte is left |
| JoinedProtocol.ResetLosesNothing | source/src/mshinit.c:177-199 | whoever initialises a new block finds no segment, so the reset restarts the revision and changes nothing else |
| JoinedProgress.FirstAttaches | source/src/mshinit.c:107-204 | with no block named, a process alone is in after at most 8 moves and finds no segment, an empty list, no reserved byte and the first revision |
| JoinedProgress.LastLeaves | source/src/mshinit.c:265-301 | the last process, detached from everything, is out after at most 8 moves alone, with no block, segment, list entry or reserved byte left |
| JoinedProgress.WorkEnds | source/src/mshsegments.c:103-324 | a process in the block ends whatever operation it is in when it runs alone and can have the lock |
| Bytes.DecodeEncode | source/src/headers/opaque/mshheader.c:136-380 | a number that fits is read back from the bytes it was written as |
| SharedLayout.Pad | source/src/mshutils.c:246-249 | padding gives the least multiple of 32 not below its argument |
| SharedRegions.ImageOrdered | source/src/headers/opaque/mshheader.c:502-731 | the regions of a value follow one another without overlap, inside its size |
| SharedRegions.ImageAligned | source/src/headers/opaque/mshheader.c:502-731 | every payload starts at a multiple of 32 |
| SharedRegions.KidStored | source/src/headers/opaque/mshheader.c:371-374 | a stored value's child is stored at its offset |
| SharedSize.FindSharedSize | source/src/headers/opaque/mshheader.c:383-499 | the size found is that of the layout; an error exactly for unsupported values |
| SharedSize.StructSize | source/src/headers/opaque/mshheader.c:407-429 | the size of a structure: offsets, names, children |
| SharedSize.CellSize | source/src/headers/opaque/mshheader.c:430-444 | the size of a cell array |
| SharedSize.FullSize | source/src/headers/opaque/mshheader.c:463-487 | the size of a full array, with the scalar case sized by twice the element size |
| SharedSize.SparseSize | source/src/headers/opaque/mshheader.c:448-461 | the size of a sparse array |
| SharedSize.FieldNamesSize | source/src/headers/opaque/mshheader.c:1149-1165 | the bytes of the field names with their terminators |
| SharedCopy.CopyVariable | source/src/headers/opaque/mshheader.c:502-731 | the copy uses exactly the size of the value, stores it, and touches no byte outside its regions |
| SharedCopy.CopyStruct | source/src/headers/opaque/mshheader.c:536-580 | the same for a structure, children and names in order |
| SharedCopy.CopyCell | source/src/headers/opaque/mshheader.c:581-603 | the same for a cell array |
| SharedCopy.CopyFull | source/src/headers/opaque/mshheader.c:683-727 | the same for a full array; nothing is stored for an empty one |
| SharedCopy.CopySparse | source/src/headers/opaque/mshheader.c:607-682 | the same for a sparse array |
| SharedCopy.AddPayload | source/src/headers/opaque/mshheader.c:683-727 | one payload with its allocation header is placed and its offset entered in the header |
| SharedFetch.FetchVariable | source/src/headers/opaque/mshheader.c:734-867 | fetching a stored value rebuilds it, with empty full arrays real |
| SharedFetch.FetchStruct | source/src/headers/opaque/mshheader.c:750-773 | the same for a structure: field names in order, children by their offsets |
| SharedFetch.FetchCell | source/src/headers/opaque/mshheader.c:774-784 | the same for a cell array |
| SharedFetch.FetchSparse | source/src/headers/opaque/mshheader.c:788-838 | the same for a sparse array: data, ir, jc and nzmax |
| SharedOverwrite.CompareHeaderSize | source/src/headers/opaque/mshheader.c:946-1044 | the comparison succeeds exactly when the stored and the new value differ at most in payload contents |
| SharedOverwrite.OverwriteHeader | source/src/headers/opaque/mshheader.c:870-943 | afterwards the new value is stored, and only bytes of the original payloads have changed |
| SharedTheorems.NormExact | source/src/headers/opaque/mshheader.c:683-727 | the round trip is the identity exactly for values without an empty complex array |
| SharedTheorems.EmptyComplexLost | source/src/headers/opaque/mshheader.c:683-727 | an empty complex array that does not survive |
| SharedTheorems.SupportedExact | source/src/headers/opaque/mshheader.c:383-499 | a value can be shared if and only if every array in it has two dimensions or more and is a structure, a cell array, or numeric, logical or char |
| SharedTheorems.LaidOut | source/src/headers/opaque/mshheader.c:502-731 | regions lie inside the sized bytes, are pairwise disjoint, and payloads are aligned |
| SharedTheorems.ShareAndFetch | source/src/headers/opaque/mshheader.c:383-867 | sizing, copying into a buffer of that size and fetching give the value back if and only if it is supported and has no empty complex array |
| SharedTheorems.ShapeNormal | source/src/headers/opaque/mshheader.c:946-1044 | a value that compares equal to a fetched one survives the round trip unchanged |
| SharedTheorems.CompareOverwriteFetch | source/src/headers/opaque/mshheader.c:870-1044 | compare, overwrite and fetch give the new value and touch only payloads; a failed comparison writes nothing |
| HashTable.GrowsEnough | source/src/mshtable.c:167-237 | growing never shrinks the table and leaves it larger than the number of segments, below 2^31 |
| HashTable.AppendNode | source/src/mshtable.c:202-224 | a node is hung at the end of the chain of its bucket |
| HashTable.MoveAll | source/src/mshtable.c:167-199 | moving all nodes to a new array keeps the entries of each key in their order |
| HashTable.Table.Initialize | source/src/mshtable.c:41-46 | the table starts with 64 empty buckets |
| HashTable.Table.Add | source/src/mshtable.c:49-68 | appends one entry to its key, after resizing; the table never shrinks and is larger than the segment count |
| HashTable.Table.Resize | source/src/mshtable.c:167-199 | what is filed under each key and in which order stays |
| HashTable.Table.Remove | source/src/mshtable.c:71-105 | takes out the one entry of the segment and nothing else, and reports a segment that is not there |
| HashTable.Table.Find | source/src/mshtable.c:130-144 | finds the oldest entry of a key, if any |
| HashTable.Table.FindAll | source/src/mshtable.c:147-164 | finds all entries of a key in the order of their addition |
| HashTable.Table.Destroy | source/src/mshtable.c:108-127 | leaves an empty table |
| LocalList.SegmentList.Add | source/src/mshsegments.c:448-490 | appends the node, with links, counts and both tables consistent |
| LocalList.SegmentList.Remove | source/src/mshsegments.c:531-583 | takes the node out of list and tables and leaves the order of the others |
| LocalList.SegmentList.PlaceAtEnd | source/src/mshsegments.c:493-528 | moves the node to the end and leaves the order of the others |
| LocalList.SegmentList.Clean | source/src/mshsegments.c:586-601 | removes exactly the invalid segments, in one walk that removes the node it stands on |
| LocalList.SegmentList.FindNode | source/src/mshtable.c:130-144 | the node of a number, or none if the number is not tracked |
| LocalList.SegmentList.UpdateAll | source/src/mshsegments.c:358-404 | from any local list, the tracked numbers become the shared list in its order, and what is dropped is exactly the rest |
| LocalList.SegmentList.UpdateLatest | source/src/mshsegments.c:407-445 | the segment of the last number becomes the last local one: the number read first if that is tracked, else the one read under the lock, opened if not tracked, unless the second read or that one finds none |
| LocalList.SegmentList.DetachFirst | source/src/mshsegments.c:103-190 | detaching the first segment shortens the shared list as found under the lock, if no other process counts in it, or the local list; cutting it out may track its two neighbours |
| LocalList.SegmentList.DetachAll | source/src/mshsegments.c:327-336 | while other processes leave and remove segments between the rounds, detaching the whole list ends with it empty, and what stays shared is exactly what others still count in and have not removed |
| Slicing.RunsSelect | source/src/mshvarops.c:258-282 | the slices of the runs are the elements the base subscript selects |
| SliceParsing.RightSelects | source/src/mshvarops.c:398-519 | run starts for each choice of the higher indices expand to the column-major product |
| SliceParsing.WalkExact | source/src/mshvarops.c:503-514 | the walk over the base subscript finds the run starts exactly when slices are single elements or there is one run |
| SliceParsing.WorkerExact | source/src/mshvarops.c:398-519 | so does the recursion, for any higher dimensions |
| SliceTheorems.BaseDimMeans | source/src/mshvarops.c:221-252 | below the base dimension everything is selected, and it has an index list if it is a dimension |
| SliceTheorems.AstrayExample | source/src/mshvarops.c:503-514 | columns 1, 3 and 4 of a 2-by-5 array: starts 0 and 6 are found, elements 4 and 5 are missed |
| SliceTheorems.LinearExample | source/src/mshvarops.c:262-283 | linear indices 1 and 2 of a 2-by-5 array: one slice of length 4 is found, two elements are selected |
| SliceBounds.SlicesInside | source/src/mshvarops.c:484-514 | whatever the subscripts, slots are not overrun, and when all are written every element of every slice is inside the array |
| SubscriptParser.WalkBase | source/src/mshvarops.c:503-514 | the loop over the base subscript writes exactly the starts of the walk, or reports the first slice out of bounds |
| SubscriptParser.ParseIndicesWorker | source/src/mshvarops.c:398-519 | the recursion writes the starts in place behind those already parsed, within the slots allocated |
| SubscriptParser.FindBase | source/src/mshvarops.c:221-252 | the loop finds the first dimension not wholly selected, and the stride of it |
| SubscriptParser.FindLens | source/src/mshvarops.c:262-283 | the nested loops find the lengths of the maximal runs of consecutive indices, scaled |
| SubscriptParser.CountStarts | source/src/mshvarops.c:292-308 | the number of slots is the number of lengths times the choices above the base dimension |
| SubscriptParser.SlotsFilled | source/src/mshvarops.c:189-322 | all slots are written and the slices expand to the selection if and only if the subscripts are compact or select nothing: everything selected, or single-element slices or one run, with the last subscript selecting as much along its own dimension as along the merged ones |
| SubscriptParser.ParseIndices | source/src/mshvarops.c:189-322 | errors exactly for no subscripts, fewer than two dimensions or a slice out of bounds; for compact or empty subscripts the slices expand to the column-major selection, for others they do not |
| IndexedOps.FoldAt | source/src/mshvarops.c:2881-2925 | each element ends with the inputs at the positions of its index (or the scalar, as often) applied one after the other; an element not selected is unchanged |
| IndexedOps.FoldDistinct | source/src/mshvarops.c:1513-1513 | when no index repeats, the element of the k-th index is combined with the k-th input, or with the only one |
| IndexedOps.RunSlice | source/src/mshvarops.c:1391-1518 | the plain runner on one slice updates it element by element, with scalar or running input |
| IndexedOps.OperateSlices | source/src/mshvarops.c:2881-2925 | the two loops over slices are the sequential fold over the expanded index list |
| IndexedOps.OperateOn | source/src/mshvarops.c:2881-2925 | parsing and operating together update the elements of the slices in order and nothing else, or refuse a slice and write nothing; for compact or empty subscripts that is the fold over the column-major selection |
| AtomicRunner.StepKeeps | source/src/mshvarops.c:1363-1386 | a read or a compare-and-swap of any process keeps: the memory is the replay of the updates made, each process's own in order |
| AtomicRunner.NothingLost | source/src/mshvarops.c:1452-1508 | in every interleaving each element is its first value with every completed operation applied once, in one order that respects each process's own |
| AtomicRunner.FailureIsProgress | source/src/mshlockfree.c:217-360 | a compare-and-swap fails only if another update of that element was completed since the read |
| AtomicRunner.GetsOn | source/src/mshvarops.c:1502-1506 | from any state, at most three turns alone make the next update of a process, exactly that one, even if what it has read is out of date |
| AtomicRunner.FinishesAlone | source/src/mshvarops.c:1502-1506 | from between two updates it has made all that are left after two turns alone for each |
| AtomicRunner.AloneFinishes | source/src/mshvarops.c:1452-1508 | so two turns for each index from the start leave exactly what the plain mode leaves |
| AtomicRunner.AloneIsPlain | source/src/mshvarops.c:1452-1508 | a process running alone in atomic mode leaves what the plain mode leaves |
| IntegerOps.AbsInt | source/src/mshvarops.c:1546-1560 | the mask trick is the saturated absolute value |
| IntegerOps.SignBit | source/src/mshvarops.c:1531-1536 | the shift is 1 exactly for negative numbers |
| IntegerOps.AddInt | source/src/mshvarops.c:1569-1580 | addition by sign-bit tricks is the sum clamped to the type |
| IntegerOps.SubInt | source/src/mshvarops.c:1593-1604 | so is subtraction |
| IntegerOps.NegInt | source/src/mshvarops.c:1830-1838 | so is negation |
| IntegerOps.AddUInt | source/src/mshvarops.c:1907-1912 | so is unsigned addition by comparing the wrapped sum |
| IntegerOps.SubUInt | source/src/mshvarops.c:1925-1930 | so is unsigned subtraction |
| IntegerOps.MulIntWide | source/src/mshvarops.c:1617-1630 | multiplication in twice the width never wraps and is the clamped product |
| IntegerOps.MulUIntWide | source/src/mshvarops.c:1943-1952 | so is the unsigned one |
| IntegerOps.MulUIntExact | source/src/mshvarops.c:1962-2006 | unsigned multiplication by halves is the clamped product |
| IntegerOps.MulIntExact | source/src/mshvarops.c:1640-1726 | signed multiplication by halves is the clamped product if and only if it is not the minimum times one, in either order |
| IntegerDivision.HalfAwayNearest | source/src/mshvarops.c:1732-1777 | the rounded quotient is nearest to the exact one, ties away from zero |
| IntegerDivision.NearestOnce | source/src/mshvarops.c:1732-1777 | no other quotient is |
| IntegerDivision.DivIntExact | source/src/mshvarops.c:1732-1777 | division is that quotient clamped; by zero it is the end of the range with the sign of the dividend, or 0 |
| IntegerDivision.DivUInt | source/src/mshvarops.c:2022-2033 | unsigned division rounds half up; by zero it is the maximum, or 0 |
| IntegerDivision.ModIntExact | source/src/mshvarops.c:1807-1817 | the modulus has the sign of the divisor and is congruent to the dividend, which it is for divisor 0 |
| Conversions.ConvertExact | source/src/mshvarops.c:1068-1296 | a conversion clamps if and only if it is not from unsigned to signed of the same width with a value above the maximum; then it is the value minus 2^width |
| VariableUse.StepKeeps | source/src/mshvariables.c:50-122 | marking, counting, cleaning and destroying keep the count equal to the processes counted |
| VariableUse.CountExact | source/src/mshvariables.c:50-122 | that holds after any schedule: nothing is counted or discounted twice through clean and then destroy |
| VariableUse.UsersCounted | source/src/mshvariables.c:154-164 | at rest the count is the number of processes whose variable is marked as used |
| VariableUse.LastOne | source/src/mshvariables.c:107-120 | a process becomes the collector exactly when it gives up its use and no other is counted |
| VariableUse.CopiesCounted | source/src/mshvariables.c:50-122 | whatever is copied, cleaned and destroyed anywhere: a variable whose counted copies MATLAB still has is marked and counted |
| VariableUse.NotCollected | source/src/mshvariables.c:107-120 | and no other process becomes the collector of its segment |
| VariableUse.MarkedTooLate | source/src/mshvariables.c:50-122 | two processes, one giving up its use between the other's mark and its count: it becomes the collector although the other has marked its copy |
| VariableUse.CleansUp | source/src/mshvariables.c:95-122 | a clean with no copies left gives up the use and counts it out, the last one becoming the collector; with copies left it does nothing |
| VariableUse.CountsIn | source/src/mshvariables.c:154-164 | a copy that is to mark an unused variable marks it and counts it in once; any other copy changes nothing |
| VariableUse.ComesAndGoes | source/src/mshvariables.c:50-92 | a variable comes unused, and is destroyed at once or counted out first |

## Left out

Assumed:

- sequentially consistent memory, no process crash, no failing system call, fewer than 2^30
  processes (`Counters.dfy` counts modulo 2^30), no wrap of the size total;
- one life of the info block in `DirectiveModel` (a new block starts with revision 0, as
  every process that has left does);
- spin waits for a lock, for the post bit or for the initialisation are modelled as steps
  that change nothing; that they end under every schedule is not proved, only that somebody
  is on the way to end them, and that every operation ends when its process runs alone;
- shared memory objects are a map from names to incarnations with exclusive create, open
  and unlink; file locks are one re-entrant mutex, the process lock. Locks of single
  segments are not modelled: all locks share one nesting level, so a nested acquisition of
  another lock does not lock it (source/src/mshutils.c:35-57).

Modelled more freely than the code (what is proved covers more runs than the code has):

- a process without an operation in hand may lock, unlock, walk, remove and detach in any
  order; clearing all segments is such a sequence (in `DirectiveModel`, what a process drops
  from its list it drops in a directive);
- an error that unwinds gives the lock back with the next unlock (`RefusedAlone`).

Modelled by a condition on the caller:

- HashTable.Table.Remove: a missing segment is reported, as in the code, except when its
  bucket holds exactly one other node: the code then reads behind that node
  (source/src/mshtable.c:91), which is a precondition here.
- HashTable.Table.Add: fewer than 2^31 segments; above that the table stops growing.
- LocalList.SegmentList.DetachAll: no concurrent sharing, and sizes that keep all counts
  below 2^31; what other processes leave and remove between two rounds is a parameter.
- SegmentTheorems.TotalExact: the maximum is constant, while the code lets it be lowered at
  run time (source/src/matshare_.c:1056) below what is already reserved.
- SubscriptParser.ParseIndices: positive dimensions and indices, and subscripts past the last
  dimension are `:` or 1. That the slices are right also needs indices in range: the code
  tests the end of each slice only.
- IndexedOps.OperateOn: all slots of starts have been written (the code would read
  uninitialised memory otherwise), the input is a scalar or has as many elements as are
  updated, and does not share memory with the destination.
- IntegerDivision.ModIntExact: from 32 bits on, not the minimum modulo minus one, which
  traps.

Not modelled:

- MATLAB's own array headers, reference counts and persistence; a value is a datatype, and
  whether MATLAB still has copies of a variable is a choice of each step; whether garbage
  collection is switched on, and what the collector then removes, is left to the segment
  protocol's removals;
- configuration, directive parsing, output formatting, error messages and hashing (any
  deterministic hash is covered);
- the Windows and 32-bit builds; alignment is 32 bytes and sizes are 64-bit words;
- fields of the header and of the segment metadata that nothing modelled reads, among them
  the process that signed the last update;
- the parse of a single index, which is the same recursion with one slice of length one;
- the imaginary part of an operation, which is the same loop over a second array;
- floating point, operations between an integer and a double, shifts, remainders, copies
  between arrays, and the runners over sparse arrays;
- the C standard's undefined signed overflow inside the bit tricks, which is taken to wrap.
