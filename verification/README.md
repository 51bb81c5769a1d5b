# AFS+ replay and crash tooling, verified

The AFS+ repository carries tools with their own executable specification of
the filesystem and of its crash model. This project models those tools in Dafny
and proves what they rely on: invariants of every run, refinements of the loops
that update state in place, round trips, conservation and crash safety.

A refusal (an exception in the tools) is `None` or `ok == false`. Each
imperative component is a method or a class whose contract ties its new state to
a function on values, and the properties are proved about those functions.

| area | modules |
|---|---|
| the filesystem oracle: names, links, files, orphans, batches, windows, snapshots | `Namespace`, `Ordering`, `Files`, `Coverage`, `Oracle`, `OracleInvariant`, `OracleSteps`, `OracleHarm`, `OracleRuns`, `OracleMembers`, `OracleViews`, `OracleTimes`, `OracleEffects`, `ObjectModels`, `Linked`, `Windows`, `Flattening` |
| scenario admission, its agreement with the oracle, and compilation | `Scenario`, `Admission`, `Agreement`, `Completeness`, `Limits`, `Text`, `Compile`, `CompileLines` |
| crash images, flight records and minimization | `PowerCut`, `FlightPayload`, `Flight`, `FlightWire`, `FlightRecorder`, `FlightFindings`, `Minimize` |
| bundle publication | `Bundle` |
| the FAT12 writer | `FatTable`, `FatFiles`, `FatDirectory`, `FatAddition`, `FatInjection`, `Fat12` |
| cut schedule and marker verdicts | `Schedule`, `Markers` |
| source identity and inventory | `Source`, `SourceTree` |
| shared types and sequence facts | `Basics` |

Four statements that one might expect of the code do not hold of it without a
condition, and the model keeps the code as it is:

- A batch may replace a directory. The oracle does not look at the victim's kind,
  so replacing a directory that has children detaches them, and a deferred
  replacement of a directory or symlink registers it as an orphan file.
  `OracleHarm.BatchItemExactly` gives the exact condition for one member and
  `OracleRuns.RunKeeps` for whole runs, since no later operation repairs the
  damage. `OracleRuns.ReplacedDirectoryExample` is a program that the oracle
  accepts and that ends this way, and `Agreement.AdmittedRunIsSound` shows that
  admitted programs never do.
- A FAT12 boot sector may describe tables that are too small for its clusters, and
  the writer does not check. `FatTable.ContainedExactly` shows when a table write
  can leave the tables, `Fat12.OpenedIsLaid` that nothing else about an opened
  layout can be out of order, `Fat12.SmallTableSpills` a layout on which an entry
  lands in the root directory, and `Fat12.BootstrapIsValid` that the generated
  bootstrap volume meets the condition with nothing to spare.
- A long name entered in a FAT12 directory is not found again when a never-used
  slot precedes the slots chosen for it. `FatInjection.AddedReadsExactly` gives the
  exact condition on the image and `Fat12.LongNameIsLost` an image on which it
  fails; `FatAddition.AddedIsFound` shows that directories laid out as the Microsoft
  FAT32 File System Specification 1.03 requires (section "FAT Directory Structure")
  always meet it, and that a short name is found in any directory.
- The change time of an object does not tell whether a run changed it when the run
  restores metadata. `OracleTimes.ChangeTimeTells` is the if-and-only-if for runs
  without restorations, `OracleTimes.RestoreHides` the failure on every live label,
  and `OracleTimes.GenerationTells` what holds of every run.

## Model

| member | source | states |
|---|---|---|
| OracleRuns.RunKeeps | tools/fuzz-semantic.py:413-678 | For every accepted run from a sound state, the end state has the structure if and only if no batch replacement in the run was harmful (a condition on the state before each one); then links equal names plus orphan registrations and are at least one, every object is named or orphaned, siblings differ, parents are directories, every name reaches the root, labels are never rebound, live views and identities never change |
| OracleRuns.TypedRunIsHarmless | tools/fuzz-semantic.py:413-678 | A run whose labels each have one kind and whose batches replace only labels called files is such a run |
| OracleRuns.RunStaysBroken | tools/fuzz-semantic.py:413-678 | No accepted operation ever repairs what a harmful replacement broke |
| OracleRuns.StepExactly | tools/fuzz-semantic.py:413-678 | One accepted operation of any kind either keeps the whole invariant and follows from the state before it (surviving labels keep their object, only deletion drops a view), or contains a harmful replacement and leaves the volume broken |
| OracleRuns.InitialIsSound | tools/fuzz-semantic.py:320-347 | The initial oracle state satisfies the invariant |
| OracleRuns.DirectStepExactly | tools/fuzz-semantic.py:444-676 | Every accepted operation outside windows and views keeps link counts, tree, bindings and file consistency, unless it is a batch with a harmful replacement, which breaks them |
| OracleSteps.InsertKeeps | tools/fuzz-semantic.py:390-411 | Creating a file, directory or symlink under a fresh label keeps the volume sound |
| OracleSteps.AddLinkKeeps | tools/fuzz-semantic.py:455-460 | A hard link keeps every link count equal to the names bound to the object, and the volume sound |
| OracleSteps.CloneKeeps | tools/fuzz-semantic.py:461-474 | CloneFile keeps the volume sound, source and clone included |
| OracleSteps.RenameKeeps | tools/fuzz-semantic.py:567-582 | Rename keeps the tree: a directory never moves below itself and siblings stay distinct |
| OracleSteps.RemoveKeeps | tools/fuzz-semantic.py:583-595 | Unlink, symlink unlink and rmdir of a childless label keep counts and tree |
| OracleSteps.ReplaceKeeps | tools/fuzz-semantic.py:596-620 | Rename over a victim, with or without orphaning it, keeps the volume sound |
| OracleSteps.CleanupIsKept | tools/fuzz-semantic.py:630-641 | Cleaning an orphan up keeps the volume sound |
| OracleSteps.CloneRangeIsKept | tools/fuzz-semantic.py:475-517 | CloneRange keeps both files consistent and the volume sound |
| OracleSteps.WriteIsKept | tools/fuzz-semantic.py:518-566 | Plain and bounded writes keep the volume sound |
| OracleSteps.TruncateIsKept | tools/fuzz-semantic.py:518-566 | Plain and bounded truncations keep the volume sound |
| OracleSteps.ReserveIsKept | tools/fuzz-semantic.py:642-657 | Plain and bounded preallocation keep the volume sound |
| OracleSteps.BatchItemKeeps | tools/fuzz-semantic.py:698-752 | A batch member, direct or deferred, keeps the volume sound when it is harmless |
| OracleHarm.BatchItemExactly | tools/fuzz-semantic.py:698-752 | An accepted batch member keeps the structure if and only if it replaces nothing, or a file, or in a direct batch a label without children |
| OracleHarm.BatchExactly | tools/fuzz-semantic.py:698-752 | A whole batch ends with the structure if and only if every member is harmless where it runs |
| OracleHarm.GroupsExactly | tools/fuzz-semantic.py:680-687 | The same for the publication of staged groups |
| OracleHarm.BrokenIsUnsound | tools/fuzz-semantic.py:736-752 | A name whose parent was unbound, or an orphan registration of no file, contradicts the structure |
| OracleRuns.ReplacedDirectoryExample | tools/fuzz-semantic.py:736-752 | A program of four operations that the oracle accepts from its initial state and that ends without the structure |
| OracleSteps.TypedGroups | tools/fuzz-semantic.py:680-687 | Publishing staged groups whose members respect the label kinds keeps the volume sound |
| OracleInvariant.DropKeeps | tools/fuzz-semantic.py:689-696 | Dropping a name, into the orphan register or for good, keeps link counts and bindings |
| OracleInvariant.MoveKeeps | tools/fuzz-semantic.py:567-582 | Moving an entry to a vacant place outside its own subtree keeps tree and counts |
| OracleInvariant.AttachKeeps | tools/fuzz-semantic.py:399-402 | Binding a fresh label keeps tree, counts and spent labels |
| Namespace.PathsDiffer | tools/fuzz-semantic.py:349-354 | Distinct live labels of a tree have distinct paths |
| Namespace.MoveKeepsTree | tools/fuzz-semantic.py:365-370 | A move is safe when the new parent is not reached from the moved label |
| Namespace.RemoveKeepsTree | tools/fuzz-semantic.py:362-363 | Removing a childless label keeps the tree |
| OracleRuns.CaptureIsSound | tools/fuzz-semantic.py:791-820 | Nothing in a captured view is newer than the view and its paths strictly ascend |
| OracleRuns.SnapshotKeeps | tools/fuzz-semantic.py:759-789 | Every snapshot action keeps: registered identities distinct and bounded, generations increase with identity, open handles name registered views, captured generations at most the view's |
| OracleRuns.NewIdentityIsLargest | tools/fuzz-semantic.py:768-771 | A new snapshot identity is larger than every one ever issued |
| OracleRuns.SnapshotFollows | tools/fuzz-semantic.py:759-789 | A snapshot action changes no view but the one it deletes |
| OracleRuns.RemountPublishesAcknowledged | tools/fuzz-semantic.py:434-437 | Acknowledged groups form a prefix, so remount publishes exactly them |
| OracleRuns.FsyncThenRemountIsCommit | tools/fuzz-semantic.py:424-437 | A successful window fsync followed by remount gives the state that commit gives, with handles closed |
| OracleRuns.WindowStepExactly | tools/fuzz-semantic.py:420-437 | Staging, acknowledging, committing and remounting keep the invariant unless they publish a harmful replacement |
| OracleMembers.MemberIsDirect | tools/fuzz-semantic.py:698-752 | A batch member does what its direct operation does under the batch's generation: create, unlink, orphaning, rename, replacement; and is accepted exactly when that is, but for a replaced label that is no file and a renamed one that is none |
| OracleMembers.BatchIsDirect | tools/fuzz-semantic.py:698-752 | A batch, direct or deferred, is its members' direct operations one after the other and then one generation, exactly when every label it replaces names a file |
| OracleMembers.CreationHolds | tools/fuzz-semantic.py:705-714 | A file made by a batch holds its bytes, in written private blocks that cover exactly them |
| OracleViews.CaptureShows | tools/fuzz-semantic.py:791-820 | A view shows every name of the volume once and nothing else: path, identity, kind, links, protection, times and generation of the object, its bytes or target, its size, its space and its coverage; and the root |
| OracleViews.ViewGoesOnShowing | tools/fuzz-semantic.py:759-789 | After any harmless run a view that was not deleted still shows the volume as it was when captured |
| OracleTimes.RunMarks | tools/fuzz-semantic.py:413-678 | Over every accepted run: an object that stays keeps its kind, an object whose bytes differ or a directory whose entries differ has a newer generation and a modification time of the run, any difference at all shows in the change time, creation times stay, protection and policy change only by their own operations, new objects carry times of the run; restorations alone are exempt from what concerns times |
| OracleTimes.StepMarks | tools/fuzz-semantic.py:413-678 | The same for one accepted operation of any kind, staged, published or direct, whose one time is then the time of every mark |
| OracleTimes.GenerationTells | tools/fuzz-semantic.py:413-678 | After any run, an object with no newer generation than the volume had before it serves the same bytes, and a directory lists the same entries |
| OracleTimes.ChangeTimeTells | tools/fuzz-semantic.py:413-678 | Without restorations an object is unchanged by a run if and only if its change time is not of the run, and was made by the run if and only if its creation time is |
| OracleTimes.TimesAreOrdered | tools/fuzz-semantic.py:413-678 | In every run without restorations creation and modification are at or before the change, which is never ahead of the last operation |
| OracleTimes.RestoreHides | tools/fuzz-semantic.py:663-669 | On every live label a restoration can change the object and leave all three times as they were |
| OracleEffects.NamesMove | tools/fuzz-semantic.py:413-678 | The names after an operation follow from the names before it: the new, moved or replaced entry at its place under its object, the removed one gone, every other entry as it was |
| OracleEffects.OthersStay | tools/fuzz-semantic.py:413-678 | No object but the target of a write, truncation or range clone reads differently |
| OracleEffects.NewLabelReads | tools/fuzz-semantic.py:444-460 | A created label reads as its bytes, as a directory, as its target, or, for a link, as its source |
| OracleEffects.CloneHolds | tools/fuzz-semantic.py:461-474 | A clone is another object with the source's bytes, blocks, protection and modification time and no policy; every block of both is shared |
| OracleEffects.WrittenReads | tools/fuzz-semantic.py:518-530 | After a write the file reads as the bytes at the offset, zeros in a gap, and as before elsewhere |
| OracleEffects.TruncatedReads | tools/fuzz-semantic.py:531-566 | After a truncation it reads as its first bytes, zeros past the old end |
| OracleEffects.ClonedReads | tools/fuzz-semantic.py:475-517 | After a range clone the destination reads as the source's bytes in the range and as before elsewhere, and the source as before |
| OracleEffects.AttributesRead | tools/fuzz-semantic.py:658-676 | Attribute operations set exactly what they name and leave bytes alone |
| OracleEffects.WriteIsAccepted | tools/fuzz-semantic.py:518-530 | A bounded write to a file is refused exactly when it touches more blocks than its budget |
| OracleEffects.TruncateIsAccepted | tools/fuzz-semantic.py:531-566 | A bounded truncation is refused exactly when the shrink gives up or rewrites more blocks than its budget |
| OracleEffects.ReserveIsAccepted | tools/fuzz-semantic.py:642-657 | A bounded reservation is refused exactly when it spans more blocks than its budget |
| ObjectModels.ObjectModel.Apply | tools/fuzz-semantic.py:413-678 | The object graph updated in place does exactly what the step function says, refuses exactly when it does, and a refusal outside batches, publications and captures changes nothing |
| ObjectModels.ObjectModel.constructor | tools/fuzz-semantic.py:320-347 | A new object graph is the initial state |
| ObjectModels.ObjectModel.BatchAt | tools/fuzz-semantic.py:698-752 | The batch loop refines the batch function, orphan registrations and window-created identities included; OracleMembers.BatchIsDirect and CreationHolds say what that function does |
| ObjectModels.ObjectModel.PublishGroupsOf | tools/fuzz-semantic.py:680-687 | Publishing a prefix of the staged groups refines the publication function |
| ObjectModels.ObjectModel.ReplaceWith | tools/fuzz-semantic.py:596-620 | Replacement in place refines the replacement function |
| ObjectModels.ObjectModel.CloneRangeAt | tools/fuzz-semantic.py:475-517 | Range cloning in place refines the cloning function |
| ObjectModels.ObjectModel.WriteAt | tools/fuzz-semantic.py:518-566 | Writing in place refines the write function |
| ObjectModels.ObjectModel.TruncateAt | tools/fuzz-semantic.py:518-566 | Resizing the bytes, filtering the block map and discarding the shared tail in place, within the budget, refines the truncation function, whose exact effect on bytes and blocks Files.TruncateIsExact states |
| ObjectModels.ObjectModel.CaptureView | tools/fuzz-semantic.py:808-820 | The capture loop and its sort give the captured view, which OracleViews.CaptureShows compares with the volume entry by entry |
| ObjectModels.ObjectModel.SnapshotAt | tools/fuzz-semantic.py:759-789 | Snapshot actions in place refine the snapshot function |
| ObjectModels.ObjectModel.LinkedRows | tools/fuzz-semantic.py:837-852 | The alias map built in the loop gives the linked projection |
| ObjectModels.ObjectModel.ReachesFrom | tools/fuzz-semantic.py:365-370 | The walk to the root decides reachability in a tree |
| ObjectModels.ObjectModel.PathOf | tools/fuzz-semantic.py:349-354 | The walk to the root gives the path |
| Files.WriteKeeps | tools/fuzz-semantic.py:518-566 | After a write nonzero bytes lie in written blocks, written blocks start before end of file, shared blocks are mapped |
| Files.TruncateKeeps | tools/fuzz-semantic.py:531-566 | Growing and shrinking keep bytes and block map consistent |
| Files.PreallocateKeeps | tools/fuzz-semantic.py:642-657 | A reservation writes nothing: the written blocks are the same and the file stays consistent |
| Files.CreatedIsConsistent | tools/fuzz-semantic.py:447-450 | A created file is consistent |
| Files.CloneRangeKeeps | tools/fuzz-semantic.py:483-516 | The destination of a range clone is consistent |
| Files.CloneSourceKeeps | tools/fuzz-semantic.py:505-513 | Marking source blocks shared keeps the source consistent |
| Files.CloneRangeShares | tools/fuzz-semantic.py:486-504 | The cloned bytes equal the source range; whole blocks are mapped and shared exactly as their origins, boundary blocks are written and private |
| Files.CloneRangeCopiesTwo | tools/fuzz-semantic.py:484-492 | At most two boundary blocks are copied |
| Files.CloneLayout | tools/fuzz-semantic.py:484-509 | The block loop computes the cloned layout, the shared set and the blocks to mark |
| Files.WriteIsExact | tools/fuzz-semantic.py:518-566 | A write makes exactly the blocks it meets written and private, and leaves every other block as it was |
| Files.TruncateIsExact | tools/fuzz-semantic.py:531-566 | A shrink releases exactly the blocks past the new end and makes a written straddling block private; a growth changes no block |
| Files.PreallocateIsExact | tools/fuzz-semantic.py:646-657 | A reservation maps exactly the holes it meets, unwritten, and touches neither bytes nor sharing |
| Files.RetiredIsExact | tools/fuzz-semantic.py:535-543 | A bounded shrink is charged for every block it releases and for a rewritten tail |
| Files.Resize | tools/fuzz-semantic.py:209-211 | Keeps the common prefix and fills with zeros |
| Files.Overwrite | tools/fuzz-semantic.py:214-218 | Replaces a stretch, zero filling any gap |
| Coverage.OfIsCanonical | tools/fuzz-semantic.py:225-239 | Coverage is ascending, disjoint and maximal, and denotes exactly the block map |
| Coverage.MaximalIsUnique | tools/fuzz-semantic.py:225-239 | Only one maximal interval list denotes a block map |
| Coverage.EqualCoverage | tools/fuzz-semantic.py:225-239 | Equal coverage means equal block maps |
| Coverage.Normalize | tools/fuzz-semantic.py:232-239 | The merging loop computes coverage |
| Coverage.NormalizedAllocation | tools/replay-scenario.py:130-147 | Accepts exactly the maximal block-aligned interval lists within the limits |
| Coverage.ObservedAllocation | tools/afsptest.py:223-243 | Accepts exactly the observable interval lists and returns them |
| Coverage.CoverageIsAdmitted | tools/fuzz-semantic.py:225-239 | Coverage of any file within the size limit is accepted by both admissions |
| Coverage.OfIsShort | tools/fuzz-semantic.py:225-239 | A file within the size limit has at most 4096 ranges |
| Linked.ProjectionIsAdmitted | tools/fuzz-semantic.py:837-852 | The sorted linked projection of a sound volume whose values fit their fields passes linked-entry admission row by row |
| Limits.AdmittedRunIsProjected | tools/fuzz-semantic.py:837-852 | The projection of the volume that any admitted and accepted program leads to passes that admission |
| Limits.AdmittedRunFits | tools/replay-scenario.py:309-409 | At the end of such a program every object fits: protection below 2 to the 32, at most 4096 ranges, a target that is not empty, and no more links than labels |
| Limits.RunStaysSmall | tools/replay-scenario.py:309-409 | No operation of an admitted program takes a file past 16 MiB or past block 4095 |
| Linked.AliasesCountLinks | tools/fuzz-semantic.py:837-852 | Every alias is its own alias and first index, and a file's links equal the number of rows carrying its alias |
| Linked.ProjectionShows | tools/fuzz-semantic.py:837-852 | Every name of the volume has one row and every row is a name's: path, kind, links, protection and what its kind holds |
| Linked.ReadRows | tools/afsptest.py:246-278 | The row loop accepts exactly the admissible projections |
| Windows.CommitIsVisible | tools/fuzz-semantic.py:265-270 | The visible bytes of a file are its content after commit |
| Windows.RemountIsAcknowledged | tools/fuzz-semantic.py:299-310 | Remount publishes exactly the acknowledged operations, which are a prefix |
| Windows.FsyncThenRemountIsCommit | tools/fuzz-semantic.py:290-310 | A successful fsync followed by remount gives the same volume as commit |
| Windows.RunNeverMeetsDeadLabel | tools/fuzz-semantic.py:279-310 | After any accepted run commit and remount succeed: publishing never meets a label that is not a live file |
| Windows.StepKeeps | tools/fuzz-semantic.py:279-304 | Every accepted operation keeps acknowledged work a prefix of staged work on live files |
| Windows.Model.Apply | tools/fuzz-semantic.py:61-106 | Every direct operation in place, bytes cut, extended and replaced as stored, refines the flat step function, which Flattening ties to the object model |
| Flattening.StepMatches | tools/fuzz-semantic.py:61-106 | Flat model and object model agree on every operation of the flat model: outside reused labels and moved directories they accept the same operations, and the flat nodes stay what the object model shows through its labels |
| Flattening.FlatProgram | tools/fuzz-semantic.py:193-204 | A program that the flat model accepts and that creates no label twice is accepted by the object model and ends there with the files the flat model expects |
| Flattening.WindowIsEager | tools/fuzz-semantic.py:265-310 | Any program through the window in which no remount forgets work gives, with what is still staged published, the files that the same program done at once gives |
| Windows.WindowModel.Apply | tools/fuzz-semantic.py:279-304 | The window model in place does what its step function says |
| Windows.WindowModel.VisibleBytes | tools/fuzz-semantic.py:265-277 | Folding the staged operations of one label gives its visible bytes |
| Windows.WindowModel.PublishPrefix | tools/fuzz-semantic.py:306-310 | The publication loop publishes a prefix and clears the window |
| Admission.ValidateOperations | tools/replay-scenario.py:269-441 | The loops accept exactly the programs within the operation limit that the label state machine admits and whose payload, batch members and expected contents included, is within the data limit |
| Admission.PayloadIsTotal | tools/replay-scenario.py:315-406 | The payload counted on the way is the sum over operations and batch members |
| Admission.ValidateItems | tools/replay-scenario.py:154-197 | The batch loop admits exactly what the batch state machine admits |
| Agreement.AdmittedRunIsSound | tools/replay-scenario.py:309-409 | Every program that admission and oracle accept, windows included, is free of harmful replacements and ends in a sound state |
| Agreement.AdmittedIsTyped | tools/replay-scenario.py:309-409 | Admission gives every label one kind, and every admitted operation respects it |
| Agreement.StepAgrees | tools/replay-scenario.py:309-409 | One operation accepted by both keeps them agreed: live labels with kinds, used labels, orphans a subset |
| Agreement.ProgramAgrees | tools/replay-scenario.py:309-409 | After every window-free program accepted by both, labels, kinds, used labels and orphans agree |
| Agreement.ProgramAgreesThroughout | tools/replay-scenario.py:309-409 | They agree after each operation of such a program, not only at its end |
| Completeness.ProgramIsAdmitted | tools/replay-scenario.py:309-409 | Of the programs without window groups that the oracle runs, admission refuses exactly those with a malformed field, an operation of another version, or a batch that is too long, names a label it made or replaces something other than a file |
| Completeness.BatchIsAdmitted | tools/replay-scenario.py:154-197 | The same for one batch that the oracle runs |
| Completeness.DirectExactly | tools/replay-scenario.py:309-409 | The oracle takes an operation exactly when admission takes its labels and nothing that labels do not show is in the way: a taken place, a move below itself, a victim elsewhere, entries left, a range or budget that does not fit, another link |
| PowerCut.CrashBlocks | tools/afsptest.py:808-847 | In every crash image a block no tail write names holds its durable content, and any other block holds durable content, a tail write, or a torn prefix of one over what preceded it |
| PowerCut.AllOnesIsReplay | tools/afsptest.py:834-839 | The all-ones variant is the sequential replay of the log up to the cut |
| PowerCut.SubsetsDecode | tools/afsptest.py:836-839 | Variants below two to the tail length and subsets of the tail correspond one to one |
| PowerCut.TearsDecode | tools/afsptest.py:840-844 | The other variants and the pairs of a write and a tear length correspond one to one |
| PowerCut.VariantCap | tools/afsptest.py:414-424 | Tails within the model need no variant above 4131, and the longest reaches it |
| PowerCut.Durable | tools/afsptest.py:818-819 | The durable prefix ends with the last flush, and the tail after it holds no flush |
| PowerCut.CutTrace | tools/afsptest.py:808-847 | The image built in place is the crash image, and a selection is returned exactly when operation, offset, tail length and variant are within the model; ReplayExactly, SubsetImage and TornImage say what the image holds |
| PowerCut.CutAt | tools/afsptest.py:829-844 | The in-place application of prefix, subset or tear is the crash-image function, whose blocks SubsetImage and TornImage give |
| PowerCut.ReplayExactly | tools/afsptest.py:829-835 | After a replay every block holds the last write that names it, or its durable content |
| PowerCut.SubsetImage | tools/afsptest.py:836-839 | A subset image holds in every block the last write to it whose bit the variant has, bit zero the first write, or durable content |
| PowerCut.TornImage | tools/afsptest.py:840-844 | A torn image replays the writes before the torn one and puts its first 64, 2048 or 4064 bytes over what was there |
| Minimize.Runner.Reduce | tools/afsptest.py:1033-1098 | Terminates within the budget; the result is a subsequence with the original selection and signature whose fault names the same operation; unless the budget is spent it is 1-minimal; it finishes whenever no execution aborts |
| Minimize.Runner.Search | tools/afsptest.py:1045-1091 | The granularity loop keeps the reduction faithful, counts executions exactly and ends 1-minimal or exhausted |
| Minimize.Runner.Pass | tools/afsptest.py:1051-1085 | One pass finds a removable chunk, spends the budget, aborts, or at chunk size one shows no single operation can be removed |
| Minimize.EmbedsWithout | tools/afsptest.py:1053-1061 | Removing a chunk off the anchor keeps the embedding and the operation the fault names |
| Flight.ChainConserves | tools/afsptest.py:589-617 | Over any chain of accepted batches, of any version, sequence = filtered + lost + retained, and with a sink delivered + missed = sequence - filtered |
| Flight.ChainIsOrdered | tools/afsptest.py:637-692 | Across the artifact retained sequences strictly increase, nonzero attempts never decrease, and each BEGIN opens an attempt above every earlier one |
| Flight.ClosedStaysClosed | tools/afsptest.py:612-619 | Once the sink is closed it stays closed and delivers nothing more |
| Flight.NothingAfterDisconnection | tools/afsptest.py:612-617 | From the disconnection on, over any number of batches, nothing is delivered, and any selected event closes the sink |
| Flight.SelectedBatch | tools/afsptest.py:589-692 | Reads a batch from the wire, payload areas included, and accepts exactly what the batch rules accept; FlightWire.BatchReads gives the wire form it reads |
| Flight.InternalBatch | tools/afsptest.py:787-804 | Reads a version 3 batch and accepts exactly consecutive events after the lost ones |
| Flight.InternalChainIsOrdered | tools/afsptest.py:787-804 | Across a version 3 artifact sequences strictly increase and attempts never decrease |
| FlightPayload.PayloadIsCanonical | tools/afsptest.py:489-550 | Two accepted payloads of a kind that agree on the fields its class names are the same bytes |
| FlightFindings.FindingsOfAdmitted | tools/afsptest.py:553-586 | On an admitted artifact the reader of findings reaches the end and returns exactly the findings of the admitted events in order, each one a finding a scenario may declare |
| FlightFindings.ReadFindings | tools/afsptest.py:553-586 | The walk over the records returns the findings, or fails exactly on a truncated artifact |
| Flight.ScanBatch | tools/afsptest.py:636-692 | The event loop accepts exactly the event lists the rules accept |
| FlightRecorder.ScanExactly | tools/afsptest.py:636-692 | The event scan accepts exactly the lists whose sequences ascend, whose attempts do, whose BEGINs open new ones, whose events are well formed, whose spans keep one context, and which lie behind what was lost |
| FlightRecorder.RecorderIsAccepted | tools/afsptest.py:589-692 | A recorder that counts each event, drops the unwanted, offers the rest to the sink and keeps the newest in a ring writes a batch that is accepted, whatever is emitted in order |
| FlightRecorder.RecordingIsChain | tools/afsptest.py:589-692 | So over any number of batches |
| Flight.RecordsChain | tools/afsptest.py:765-786 | The batches of any artifact read so far form a chain, and operation block ranges ascend within the log |
| Flight.ArtifactIsSound | tools/afsptest.py:765-807 | Conservation and the order of its version hold for the bytes of any artifact that is read to its end |
| Flight.Admit | tools/afsptest.py:736-807 | Of every version, admits exactly the artifacts with a matching header, accepted records and no trailing bytes, and returns ranges within the log |
| FlightWire.WrittenIsAdmitted | tools/afsptest.py:736-807 | Every artifact of any version, written field by field at the widths of the format from a header, a log and batches the rules accept, is admitted with exactly those batches and block ranges |
| FlightWire.HeaderReads | tools/afsptest.py:736-764 | A header written field by field is read back |
| FlightWire.HeadReads | tools/afsptest.py:589-610 | The counters of a batch are read from little-endian fields in their order |
| FlightWire.EventReads | tools/afsptest.py:637-692 | So are the fields of an event, its identity, context and object areas included |
| FlightWire.BatchReads | tools/afsptest.py:589-692 | A written batch is read back as its counters and events, and no further |
| FlightWire.PayloadReads | tools/afsptest.py:489-550 | A payload written field by field is accepted and read back |
| Bundle.CrashIsAllOrNothing | tools/replay-bundle.py:44-58 | From every state of publication, with any subset of unsynced names surviving, a bundle that can be read holds exactly the published artifacts |
| Bundle.CompleteIsReadable | tools/replay-bundle.py:44-58 | Once publication has returned every crash leaves a readable bundle |
| Bundle.Publish | tools/replay-bundle.py:31-62 | Refuses exactly invalid artifacts and existing paths; otherwise the history gains every state in between, one act at a time, each of them safe, and the last, the disk, complete |
| Bundle.ReadAfterCrash | tools/replay-bundle.py:86-128 | Reading after a crash at any such state gives the published artifacts or nothing, and gives them once publication is complete |
| Bundle.WriteArtifacts | tools/replay-bundle.py:49-52 | Writing and syncing the artifacts and then their names keeps every state safe |
| Bundle.WriteManifest | tools/replay-bundle.py:53-58 | Linking the finished manifest keeps every state safe and ends complete |
| Bundle.ReadBundle | tools/replay-bundle.py:86-128 | Succeeds exactly on bundles with a manifest for every role whose files match size and digest, and returns those files |
| Bundle.CheckEntries | tools/replay-bundle.py:103-119 | The descriptor loop accepts exactly one descriptor per role within the limits |
| Bundle.Filesystem.WriteFile | tools/replay-bundle.py:23-28 | Creates, writes and syncs a file that must not exist, passing through each state |
| FatTable.SetEntryIsExact | tools/inject-fat12-file.py:66-82 | Setting a 12-bit entry reads back as the value and leaves every other entry as it was, the neighbour sharing a byte included |
| FatTable.SetFatIsExact | tools/inject-fat12-file.py:66-82 | The same for every mirrored table at once |
| FatTable.SetFatMirrors | tools/inject-fat12-file.py:66-82 | Identical tables stay identical |
| FatTable.PairPacks | tools/inject-fat12-file.py:61-64 | Two neighbouring entries share three bytes: the first is the low byte and the low half of the middle one, the second the rest |
| FatTable.SetEntryPacks | tools/inject-fat12-file.py:66-82 | Setting an entry writes exactly those bits of those bytes |
| FatTable.TablePacks | tools/inject-fat12-file.py:61-64 | So for every entry of every table, at its offset |
| FatTable.SetFatPacks | tools/inject-fat12-file.py:66-82 | And for every table when one entry is set in all of them |
| FatTable.ClustersFollow | tools/inject-fat12-file.py:84-87 | Cluster two starts the data area and clusters follow one another |
| FatTable.SetCopiesStays | tools/inject-fat12-file.py:66-82 | No byte outside the tables changes |
| FatTable.ContainedExactly | tools/inject-fat12-file.py:56-82 | Every table write stays inside the tables if and only if each table has room for the last cluster's entry |
| FatFiles.ChainIsUnique | tools/inject-fat12-file.py:61-64 | Walking from a cluster can only give one chain |
| FatFiles.FreeIsExact | tools/inject-fat12-file.py:90-94 | The free list is exactly the free clusters, ascending |
| FatFiles.ClaimedIsChain | tools/inject-fat12-file.py:97-103 | The allocated clusters form one chain that ends |
| FatFiles.ClaimedStays | tools/inject-fat12-file.py:97-103 | Allocation changes only the tables and the selected clusters |
| FatFiles.Reassembled | tools/inject-fat12-file.py:270-277 | Clusters filled part by part give the content back when read along the chain |
| FatDirectory.InsertedIsFound | tools/inject-fat12-file.py:168-176 | A name that was not found is found at the slot it is inserted at, when every slot before it has been used |
| FatDirectory.InsertedIsWellFormed | tools/inject-fat12-file.py:187-200 | Insertion keeps a well-formed directory well formed |
| FatDirectory.InsertedIsFoundExactly | tools/inject-fat12-file.py:168-176 | It is found at that slot when every slot before the chosen run has been used, and not at all otherwise |
| FatDirectory.InsertedKeepsFound | tools/inject-fat12-file.py:168-176 | Slots written over free ones do not disturb the lookup of another name |
| FatDirectory.UsedBefore | tools/inject-fat12-file.py:187-200 | In a well-formed directory, or when one slot is needed, that is always so |
| Fat12.LongNameIsLost | tools/inject-fat12-file.py:187-200 | An image that is opened, and into whose root every long name is injected and can then not be looked up |
| FatDirectory.FindEntry | tools/inject-fat12-file.py:168-176 | The scan finds the first entry with the name before the first never-used slot |
| FatDirectory.FreeEntry | tools/inject-fat12-file.py:179-184 | Finds the first free slot or shows there is none |
| FatDirectory.FreeEntries | tools/inject-fat12-file.py:187-200 | Finds the first run of so many free slots or shows there is none |
| FatDirectory.SlotsName | tools/inject-fat12-file.py:148-165 | The slots written for a file name it, and a long-name slot before the entry never matches the name |
| FatDirectory.FileNamesArePrintable | tools/inject-fat12-file.py:203-226 | Every byte of an 8.3 name is printable, and the first is not a dot |
| FatDirectory.EntryFields | tools/inject-fat12-file.py:129-137 | An entry holds the first cluster and the size it was made with, little-endian at their offsets, and zeros between |
| FatDirectory.ShortNameShows | tools/inject-fat12-file.py:106-126 | An 8.3 name, trimmed and joined by its dot, shows the upper-case form of the component |
| FatDirectory.AliasShows | tools/inject-fat12-file.py:203-226 | The alias of a long name is six upper-case characters, a tilde and a one, and three of the suffix, filled with underscores |
| FatDirectory.LongReads | tools/inject-fat12-file.py:148-165 | A long slot holds the characters, a terminator and filler at the offsets of the format, its flags, and the checksum of the alias |
| FatAddition.AddedReadsBack | tools/inject-fat12-file.py:270-277 | The file's clusters form a chain that ends and whose bytes begin with the content |
| FatAddition.AddedIsFoundExactly | tools/inject-fat12-file.py:278-289 | In the final image the name is found at the last slot written, which holds the entry, when every slot before the run was used, and not at all otherwise |
| FatAddition.AddedIsFound | tools/inject-fat12-file.py:278-289 | A short name is always found, and any name in a well-formed directory |
| FatAddition.OtherFilesStay | tools/inject-fat12-file.py:228-289 | Every other file keeps its chain and its bytes |
| FatAddition.AddedIsWellFormed | tools/inject-fat12-file.py:278-289 | A well-formed directory stays well formed through an injection |
| FatAddition.AddedKeepsValue | tools/inject-fat12-file.py:228-289 | Every entry of a cluster the file does not use stays |
| FatAddition.AddedStays | tools/inject-fat12-file.py:228-289 | Only the tables, the new clusters and the new slots change |
| FatAddition.AddedMirrors | tools/inject-fat12-file.py:228-289 | Identical tables stay identical through an injection |
| FatInjection.MadeIsWellFormed | tools/inject-fat12-file.py:242-256 | A directory made on the way is well formed, so any name can be entered in it |
| FatInjection.MadeIsAddable | tools/inject-fat12-file.py:242-289 | A file fits in a directory just made exactly when it has a name and the old image has one free cluster more than the content needs |
| FatInjection.AddedReadsExactly | tools/inject-fat12-file.py:265-289 | Looking the name up and following its entry's cluster and size gives the content, if and only if no never-used slot came before its run |
| FatInjection.AddedIsInjected | tools/inject-fat12-file.py:257-289 | End to end for the root or an existing directory, on the old and the final image: the root names the directory, the file reads back exactly when the directory was orderly, every other name is found as before, and every chain but the directory's keeps its entries and bytes |
| FatInjection.MadeIsInjected | tools/inject-fat12-file.py:237-289 | The same with the directory made on the way: the file always reads back, and every chain of the old image stays |
| Fat12.Image.Inject | tools/inject-fat12-file.py:228-289 | Succeeds if and only if content and names are acceptable and the old image has the directory or room to make it, not the name, enough free clusters and a run of free slots; then the old and the final image are related by the end-to-end result |
| Fat12.Image.AddFile | tools/inject-fat12-file.py:265-289 | Succeeds if and only if the file has a name, the name is not there, and there are clusters and a run of slots; takes the lowest free clusters and the first run, and gives the planned image |
| Fat12.Image.OpenDirectory | tools/inject-fat12-file.py:237-264 | Succeeds if and only if the root names a one-cluster directory, which it then returns from the old image unchanged, or does not name it and has a slot and a cluster to make it |
| Fat12.Image.MakeDirectory | tools/inject-fat12-file.py:242-256 | Makes the directory if and only if a cluster and a root slot are free, in the lowest and the first |
| Fat12.Image.Allocate | tools/inject-fat12-file.py:89-103 | Claims the lowest free clusters in place, and refuses without change when there are too few |
| Fat12.Image.PutFat | tools/inject-fat12-file.py:66-82 | Sets the entry in every table in place, or refuses a value or cluster out of range; FatTable.SetFatPacks gives the bytes |
| Fat12.Image.GetFat | tools/inject-fat12-file.py:61-64 | Reads the entry of the first table by its bits, or refuses a cluster out of range |
| Fat12.OpenedIsLaid | tools/inject-fat12-file.py:19-54 | Every layout that is read has its regions in order, and its table writes stay inside the tables if and only if these have an entry for every cluster |
| Fat12.GeometryReads | tools/inject-fat12-file.py:19-32 | The geometry is read from the boot sector's fields at their offsets, the long sector count when the short one is zero |
| Fat12.SmallTableSpills | tools/inject-fat12-file.py:66-82 | A layout that is accepted and on which setting an entry writes into the root directory |
| Fat12.BootstrapIsValid | tools/make-macaros-afsplus-system.py:15-22 | The boot sector of the 16 MiB bootstrap gives a layout that meets that condition with nothing to spare |
| Compile.CompiledDecodes | tools/replay-scenario.py:445-539 | Version, volume, profile and operations of every admitted scenario are recovered from its compiled text |
| Compile.CompiledIsInjective | tools/replay-scenario.py:445-539 | Two admitted scenarios with equal text differ at most in expected state |
| Compile.CompileCommands | tools/replay-scenario.py:445-539 | The line loop produces a text from which the scenario is recovered |
| Compile.LineParses | tools/replay-scenario.py:473-538 | Every operation is recovered from its line, and a line holds no line break |
| Compile.ItemsParse | tools/replay-scenario.py:511-527 | Batch members are recovered from their field |
| Compile.HeaderParses | tools/replay-scenario.py:452-472 | Volume and profile are recovered from the header line |
| Compile.AdmittedIsPlain | tools/replay-scenario.py:309-409 | Every label an admitted operation names is an admitted label |
| Compile.CompileItems | tools/replay-scenario.py:511-527 | The member loop builds the batch field |
| CompileLines.NamingLines | tools/replay-scenario.py:475-501 | The lines of create, symlink, link, clone and replacement, keyword by keyword and field by field |
| CompileLines.TripleLines | tools/replay-scenario.py:475-505 | So for mkdir, rename, write, window write and preallocation |
| CompileLines.PairLines | tools/replay-scenario.py:482-507 | For truncations, protection and policy |
| CompileLines.BoundedLines | tools/replay-scenario.py:478-505 | For bounded forms, blocks before records |
| CompileLines.LongLines | tools/replay-scenario.py:494-510 | For range clones and restorations |
| CompileLines.SingleLines | tools/replay-scenario.py:532-535 | For operations that name one label |
| CompileLines.ViewLines | tools/replay-scenario.py:532-535 | For snapshot actions |
| CompileLines.FaultLines | tools/replay-scenario.py:528-529 | For faults by class |
| CompileLines.CorruptLines | tools/replay-scenario.py:530-531 | For corruption and resealing |
| CompileLines.BareLines | tools/replay-scenario.py:536-537 | For operations without fields |
| CompileLines.MemberLines | tools/replay-scenario.py:511-527 | For batch members |
| CompileLines.GroupLines | tools/replay-scenario.py:511-527 | Members follow one another behind commas |
| CompileLines.HeaderLine | tools/replay-scenario.py:452-472 | The header line grows group by group with the version |
| CompileLines.MagicLines | tools/replay-scenario.py:453-462 | The magic of every version |
| CompileLines.CompiledGrows | tools/replay-scenario.py:445-539 | Magic and header come first, and every operation adds exactly its line |
| CompileLines.QuotedCreate | tools/test-replay-scenario.py:252 | A line the repository's own tests quote |
| CompileLines.QuotedClone | tools/test-replay-scenario.py:76 | Another |
| Text.DecimalIsExact | tools/replay-scenario.py:473-538 | Decimal text reads as its number, without a leading zero |
| Text.HexIsExact | tools/replay-scenario.py:473-538 | Hexadecimal text is two lower-case digits for each byte |
| Schedule.BlockHasEachMoment | tools/s3-markers.py:92-106 | Each aligned block of five unpinned rounds carries each moment exactly once |
| Schedule.XorshiftIsZero | tools/s3-markers.py:43-48 | Only zero steps to zero |
| Schedule.XorshiftSteps | tools/s3-markers.py:43-48 | Two steps of the generator, which fix its shifts |
| Schedule.StreamState | tools/s3-markers.py:51-53 | A stream never starts at zero |
| Schedule.ShuffledIsPermutation | tools/s3-markers.py:82-89 | The exchanges give a permutation |
| Schedule.Permutation | tools/s3-markers.py:82-89 | The in-place exchanges give the order of the block |
| Schedule.JitterOf | tools/s3-markers.py:102-104 | Jitter stays within its moment's range |
| Schedule.Plan | tools/s3-markers.py:92-106 | One cut per round with the moment and jitter of that round |
| Schedule.Random.Next | tools/s3-markers.py:60-62 | A step never leaves the nonzero states |
| Schedule.Random.Below | tools/s3-markers.py:64-65 | Draws a number below a positive bound, and draws nothing otherwise |
| Markers.FlushedStaysWhole | tools/s3-markers.py:173-185 | In a run without violations a flushed marker is whole in every round from its claim on |
| Markers.SoftStaysWhole | tools/s3-markers.py:186-203 | In a run without violations a soft marker is never torn and, once whole, is whole in every later round |
| Markers.RunIsCounted | tools/s3-markers.py:172-203 | In every round of every run kept, lost, torn and soft-absent markers add up to the claimed ones |
| Markers.RoundTallies | tools/s3-markers.py:172-203 | The counts of a round are the numbers of its claims that are whole, lost, torn and absent |
| Markers.RoundComplains | tools/s3-markers.py:172-203 | A round complains exactly when a flushed marker is not whole, or a soft one is torn or went missing after it was whole |
| Markers.Recorder.Record | tools/s3-markers.py:154-226 | Recording a round in place, claims judged in ascending order, does what the step function says |
| Markers.SortedAscends | tools/s3-markers.py:173-186 | The sorted claims are the claims, in ascending order |
| Source.PreimageReads | tools/replay-source.py:225-235 | The hashed stream of admitted entries is uniquely decodable |
| Source.PreimageIsInjective | tools/replay-source.py:225-235 | Different entry lists give different preimages |
| Source.IdentitiesAgree | tools/afsptest.py:44-70 | On any tree that scanning admits both identities hash the same stream |
| Source.Identity | tools/replay-source.py:225-235 | The loop feeds the preimage, and refuses exactly entries with an unsafe path |
| Source.RecordIsSpelled | tools/replay-source.py:225-235 | A record is the length and bytes of the path, then the word for a missing path, or the mode in decimal, a zero, the word for a file or link and the digest |
| Source.GitIsExact | tools/replay-source.py:125-126 | A component is Git's own exactly when it is .git in either case, whatever spaces and dots follow |
| Source.PathFieldIsUnique | tools/replay-source.py:116-128 | An admitted path has exactly one accepted field |
| Source.WalkIsExact | tools/replay-source.py:156-170 | A link target is walkable exactly when no prefix of it climbs above the root and it names nothing of Git's, and then ends at a safe place of the counted depth |
| Source.SafeLink | tools/replay-source.py:156-170 | The stack loop accepts exactly the walkable targets |
| Source.SafeLinkStaysInside | tools/replay-source.py:156-170 | An admitted link of an admitted path resolves inside the checkout |
| SourceTree.Admit | tools/replay-source.py:332-369 | The loops accept exactly the inventories with safe paths, contents that are there, walkable links, ascending unique paths and no listed ancestor |
| SourceTree.AdmittedIsApart | tools/replay-source.py:361-369 | In an admitted inventory no entry lies below another, and no path is listed twice |
| SourceTree.ApartIsRooted | tools/replay-source.py:366-369 | Any inventory whose paths are apart passes the ancestor check |
| SourceTree.AdmittedIsContained | tools/replay-source.py:156-170 | No directory on the way to an admitted entry is a listed file or link, and every admitted link resolves inside the checkout |

## Left out

- JSON decoding, SHA-256, Git, subprocesses, argument parsing and the command lines: digests, manifest codec and runner are function parameters, and operations are decoded values.
- Names and symlink targets are held as their UTF-8 bytes; the encoding itself is not modelled. Integer fields of operations are natural numbers, so the checks for negative values are in the types.
- Expected state in a scenario (entries, snapshots, orphan totals) is neither admitted nor compared; only header and operations are, and the sizes of expected contents.
- `clones`, `clone_sources`, `moved`, `replaced`, `batched`, `bounded`, `touched` and `orphan_state` of the oracle: bookkeeping for generators and totals that no operation reads back.
- ObjectModels.ObjectModel.Apply: says nothing about the state after a refused batch, publication or capture, because the original may stop half way there.
- Aliasing between captured views and live objects: views are values, as the copies the original makes are.
- Max records of a bounded operation is admitted and compiled but, as in the oracle, bounds nothing.
- The random generators and negative controls of the fuzzer, and `directory_moves`: scripted ladders that only drive the oracle.
- Block-trace framing and its digest: the log of writes and flushes is taken as decoded, with every write inside the image.
- FlightRecorder.RecorderIsAccepted: the recorder is the deterministic profile that the counter rules describe; the recorder of the kernel is not modelled.
- Minimize.Runner.Reduce: the signature and the crash selection of a run are opaque values of a deterministic runner; how they are computed from records is not modelled.
- Bundle.Publish: does not model a failing system call; every prefix of the steps is one of the states shown safe.
- Bundle.CompleteIsReadable: takes as given that the manifest codec round-trips, that a manifest of the nine roles fits 64 KiB and that digests are 64 lower-case hexadecimal digits, because codec and digest are parameters.
- FatDirectory.FileNames: refuses every component with a character outside ASCII; the original accepts the few whose upper-case form is ASCII.
- Fat12.LayoutOf: refuses a data area that starts past the end of the image; the original builds the object and then refuses every injection.
- Fat12.Image.Inject: takes tables with an entry for every cluster, as do the steps it is made of, because on smaller ones a claim can overwrite the directory that is searched next (Fat12.SmallTableSpills); says nothing about the image after a refusal, which the original discards.
- Marker bytes, the preference check and boot times of a round are parameters or not modelled.
- SourceTree.Admit: the byte limits, the Git index and the object coverage of a source package are not part of it.
- Source.Scan: takes what lies at a path as given; parent directories that are links, and the Git index and object storage of captures, are not modelled.
- Kernel, handler, ELF and mount tooling, C headers and documentation checks are outside this model.
