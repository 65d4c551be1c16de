# Verified models of the descriptor cache, the canon deployment, the learning import and the installer

This project models four parts of the repository in Dafny and proves what each of them is for.
`dafny verify dfyconfig.toml` checks all of it.

**The pinned-descriptor cache.** Closing any descriptor drops every POSIX lock the process has on that inode, so
the cache keeps one descriptor per inode open and closes one only when no SQLite connection can lose its locks.
`CacheModel` has the cache as a value and each section under the map lock as a function; `PinnedCache.Pins` is the
module state as an object whose methods update it in place, each proved to do what its function says and what that
means for descriptors and holds. `CacheSystem`
puts the cache into its surroundings: other programs create, rename, link and unlink files; readers and
`held_connect` calls are threads that interleave between sections; connections are destroyed at any moment; inode
and descriptor numbers are reused. An inode instance has an identity apart from its number, and a number is given
again only when no link, descriptor or connection refers to its last instance. One map-lock section is one step,
except that the stat and the open inside it are two, so a file can be replaced between them. `CacheInvariant`,
`SystemInvariant`, `SystemSteps`, `ThreadSteps`, `HoldSteps` and `CacheRuns` prove the invariant of every run; on it
rest `CacheSafety` (no close hits a connection's inode), `CacheReaders`, `ReadGuarantee` and `DescriptorLoss` (what a
reader can rely on), `CacheRetirement` and `CacheOrder` (what exactly is retired, swept and evicted), `CacheLimits`
and `CacheCap` (conservation and the cap) and `CacheProgress` (no deadlock).

Two promises of the code hold only on a condition. `_close_stale` drops the lock its inode has *now* (line 297),
which need not be the one it looked up at line 284. `ReadGuarantee.ReadersProtectedIff` shows that readers keep
their descriptor together with their lock exactly as long as no close drops a lock that some reader reads under. The
descriptor itself may well survive such a drop: `DescriptorLoss.ReaderLosesIff` says exactly when it can be closed
under the reader. `OneRetiredNeverPops` shows that it takes two retired descriptors of one inode in flight;
`RetiredTwice` is a complete run in which it happens. And a connection is safe from closes when the stats of
`held_connect` saw its inode or disagreed (`CacheSafety.NoCloseHitsConnection`); `SwappedBack` is a complete run in
which they agree on another inode and a close hits the connection's.

**Canon deployment.** `Deployment.Target` is the target directory with its files, every write, rename and unlink of
which may fail or be the last one; `history` is the list of the states it went through. `DeploymentModel` says what
a receipt accepts, `DeploymentRuns` what that gives over any number of attempts and edits. The contract of `Deploy`
and `AcceptedIsOneGeneration` carry the weight; several rows below are marked as corollaries of `Deploy`. A rollback
is exact unless a managed file that existed is called `BACKUP.json`: the snapshot stores its own description under
that name.

**Integrity and decision.** `ScalarEditor` is the line editor for YAML scalars, `VersionKeys` the version order,
`Integrity` the inspection and the files a repair writes, `FrameworkDecision` the deploy decision. `FrameworkRuns`
proves that a repair ends where the decision is `current`, and that no sequence of obeyed decisions, interrupted or
not, lowers the version a project states for a document.

**Learning import.** `ImportModel` has the two phases as functions of the store and the file; `ImportRun` is the code
with its index and loops, proved against them (`Known.Add` and `RestoreOne` only render their few lines; what they
amount to is in `Known.Index` and `ImportOutcome.StatusesAsExported`). `ImportRecognition`, `ImportPhases` and
`ImportLinks` give rows, statuses and links after an import in closed form, for any file with distinct keys;
`ImportOutcome` reads off that counts, statuses and links come out as exported. `ImportResume`, `ImportStatuses` and
`ImportTheorems` compare a second run over an interrupted one with an uninterrupted run, row by row;
`ImportInterruption.ResumesIff` is the exact condition under which every interruption can be made good, and
`ImportLimits` has three kinds of file outside it. `ImportAgain` covers any number of interruptions and a further run
of the same file, `ImportOwnRows` that the project's own rows never change.

**Installer.** `Pep440` and `VersionText` compare the fallback version order and the clause reader with PEP 440;
`Markers` compares the marker reader with PEP 508; `TwoPassInstall` and `RefusalLines` are the two-pass install and
the bounded report. `Base64`, `Placeholders`, `Embedding`, `InstallerBuild` and `DriftCheck` show that a built
installer gives back its wheels and matches its template.

`Basics` and `TextLines` hold what several of these share. Where the code and its documentation disagree the code is
followed. The docstring of `_close_stale` says that a close never races a read of that descriptor (see
`RetiredTwice`); a comment in `_restore_snapshot` that every body returns to its snapshotted bytes (see
`RollbackLosesBackupJson`); the docstring of `verify_dist_matches_template` that the installer is a faithful render,
while lines after the last data marker are not compared (see `AlikeIffFrontsAgree`).

## Model

| member | source | states |
|---|---|---|
| PinnedCache.Pins.QueueRelease | src/trw_mcp/_checkout_access.py:386-395 | destroying a connection only queues its hold: every inode held stays held until the queue is drained, and from then on exactly that hold fewer is counted |
| PinnedCache.Pins.DrainReleases | src/trw_mcp/_checkout_access.py:348-357 | the loop applies every queued release, oldest first; afterwards an inode is held if and only if an outstanding hold counts it or does not know its inode |
| PinnedCache.Pins.RetireLocked | src/trw_mcp/_checkout_access.py:231-259 | the descriptor of the inode a path named before is handed out, and leaves the map, if and only if no other path names that inode and no connection still there holds it; paths, locks and race losers stay |
| PinnedCache.Pins.PinnedFd | src/trw_mcp/_checkout_access.py:486-530 | refused exactly when the inode is not pinned, 64 are, and the path frees no slot, with nothing changed; otherwise the returned descriptor is the one pinned under the returned inode, with its current lock, the path names that inode, an unused open is a race loser, and what leaves the map is exactly what nothing needs any more |
| PinnedCache.Pins.CloseStaleLocked | src/trw_mcp/_checkout_access.py:283-297 | a retired descriptor is closed if and only if its inode is not pinned again and no outstanding hold is on it, and then no map knows the inode or its lock; else it is pinned again because of a hold, or kept as a race loser; other inodes are untouched |
| PinnedCache.Pins.ForgetDeadPaths | src/trw_mcp/_checkout_access.py:320-333 | the sweep forgets exactly the dead paths still mapped to the inode they were judged under, counts them, and hands out exactly the descriptors that leave the map |
| PinnedCache.Pins.Unpin | src/trw_mcp/_checkout_access.py:472-481 | the loop over the paths of an evicted inode: afterwards none of the five maps knows the inode, and only the paths that named it are forgotten |
| PinnedCache.Pins.ScanForIdle | src/trw_mcp/_checkout_access.py:460-483 | the scan in read order closes the first pinned inode that is neither held nor locked, and says why when there is none |
| PinnedCache.Pins.EvictIdleUnheld | src/trw_mcp/_checkout_access.py:434-483 | what is evicted was pinned, held by no connection or held path and read by no thread, everything read less recently is held or in use, and nothing of it is left; every other answer leaves all descriptors pinned and has its reason |
| PinnedCache.Pins.HoldBeforeConnect | src/trw_mcp/_checkout_access.py:407-413 | one more hold is outstanding and counted before the file is opened, so the inode the path names now is held, and the path counted once more |
| PinnedCache.Pins.HoldAfterConnect | src/trw_mcp/_checkout_access.py:422-431 | the completed hold is counted: both inodes the two stats named are held, and every inode at all when they differ |
| CacheInvariant.DrainCounts | src/trw_mcp/_checkout_access.py:340-357 | draining leaves exactly the holds that are outstanding counted: per inode as many as there are live holds on it, and as many uncertain ones |
| CacheInvariant.RetireShape | src/trw_mcp/_checkout_access.py:231-259 | retiring drops the path from its inode's list; a descriptor leaves the map only when that was the last path, and stays only because a sibling path or a hold needs it |
| CacheInvariant.RetireAgrees | src/trw_mcp/_checkout_access.py:231-259 | after retiring, all other paths and their inodes still name each other and the read order still has exactly the pinned inodes |
| CacheRetirement.RetiredIffUnneeded | src/trw_mcp/_checkout_access.py:231-259 | a descriptor is handed out for closing if and only if no other path names its inode and, every queued release applied, no hold is on it |
| CacheRetirement.HeldIff | src/trw_mcp/_checkout_access.py:340-357 | the counters forbid closing an inode if and only if some outstanding hold counts it or does not know its inode |
| CacheInvariant.AssociateAgrees | src/trw_mcp/_checkout_access.py:527-530 | recording the new association restores full consistency of the maps, keeps the descriptor just resolved, and retires at most one other inode's |
| CacheInvariant.ForgetDeadAgrees | src/trw_mcp/_checkout_access.py:320-330 | the dead-path sweep keeps the maps consistent and touches no per-inode lock |
| CacheRetirement.ForgetDeadExact | src/trw_mcp/_checkout_access.py:320-333 | the sweep forgets a path exactly when it is dead and still mapped to the inode it was judged under, counts them, and hands out exactly the descriptors that leave the map |
| CacheInvariant.EvictRefusal | src/trw_mcp/_checkout_access.py:445-483 | each answer of the eviction is justified: room only below the cap; held only when a hold is uncertain or every pinned inode is held; busy only when a pinned inode's lock is taken |
| CacheRuns.RunKeeps | src/trw_mcp/_checkout_access.py:222-581 | every state of every run keeps the whole invariant: consistent maps, accounted descriptors, counted holds, locks owned by one thread each, pins that mean what they say |
| CacheRuns.MapsStayConsistent | src/trw_mcp/_checkout_access.py:231-330 | in every reachable state a path maps to an inode exactly when the inode lists the path, each listed inode has a path and a pinned descriptor, and the read order has exactly the pinned inodes, once each |
| CacheSafety.ClosesOpen | src/trw_mcp/_checkout_access.py:262-297 | every close, of a stale descriptor or by eviction, is of an open descriptor recorded under its inode's own number, on an inode nothing holds |
| CacheSafety.ReturnedIsCovered | src/trw_mcp/_checkout_access.py:415-431 | the hold of a returned connection counts the inode it opened, or is uncertain, if and only if the two stats disagreed or one of them named that inode; what a close can do otherwise is `CloseCanHitConnection` |
| CacheSafety.NoCloseHitsConnection | src/trw_mcp/_checkout_access.py:398-483 | in every interleaving, from the return of `held_connect` to the destruction of the connection, no close hits the inode instance the connection has open, inode numbers being reused or not, if the two stats disagreed or one named that inode |
| SwappedBack.CloseCanHitConnection | src/trw_mcp/_checkout_access.py:415-431 | a complete run, with a file replaced and put back between the two stats, after which a close hits the inode a returned connection has open |
| ReadGuarantee.ReadersProtectedIff | src/trw_mcp/_checkout_access.py:533-581 | over every run, all readers past the revalidation keep both an open descriptor on the instance they resolved and the inode's current lock if and only if no close drops a lock (line 297) that is not its own and that a reader reads under |
| DescriptorLoss.ReaderLosesIff | src/trw_mcp/_checkout_access.py:283-297 | in every reachable state, a reader that has its inode's lock can lose its descriptor while it reads if and only if some continuation has another close drop that lock and leaves the descriptor owed a close by a thread that does not wait for the reader |
| DescriptorLoss.UnlockedReaderLosesIff | src/trw_mcp/_checkout_access.py:283-297 | right after such a drop, some continuation closes the descriptor under the reader if and only if a thread not waiting for the dropped lock owes that close; otherwise none does |
| DescriptorLoss.ReadKeepsFileIff | src/trw_mcp/_checkout_access.py:573-594 | over every run, a reader's descriptor is open on the instance it resolved throughout the read if and only if no event has closed it during the read |
| ReadGuarantee.OneRetiredNeverPops | src/trw_mcp/_checkout_access.py:283-297 | such a drop cannot happen while no inode has two retired descriptors awaiting their close |
| ReadGuarantee.ReaderKeepsDescriptor | src/trw_mcp/_checkout_access.py:533-581 | with at most one retired descriptor per inode in flight, a revalidated reader has an open descriptor on the instance it resolved until it releases its lock |
| RetiredTwice.ReaderCanLoseDescriptor | src/trw_mcp/_checkout_access.py:283-297 | a run of six threads on two files, with two retired descriptors of one inode, after which a revalidated reader reads through a closed descriptor |
| DescriptorLoss.ReadSeesNamedUnlessClosed | src/trw_mcp/_checkout_access.py:486-594 | a reader whose descriptor was not closed under it reads an instance its path named at some moment of the call: hits, fresh opens and files replaced between stat and open alike |
| ReadGuarantee.ValidatedSeesNamedFile | src/trw_mcp/_checkout_access.py:573-581 | in every run at all, the moment the revalidation succeeds the descriptor is open on an instance the path named during the call |
| CacheLimits.DescriptorsConserved | src/trw_mcp/_checkout_access.py:252-297 | in every reachable state each open descriptor of the cache is in exactly one place: pinned under one number, race loser, or owed a close by one thread, once |
| CacheLimits.StepConserves | src/trw_mcp/_checkout_access.py:472-530 | a step closes at most one descriptor, an open one, overwrites none in the map and loses none |
| CacheCap.RunWithinCap | src/trw_mcp/_checkout_access.py:247-290 | along every run the number of pinned descriptors rises above both 64 and its last value only in a step that keeps a descriptor because a hold forbids closing it |
| CacheCap.CapWithoutHolds | src/trw_mcp/_checkout_access.py:501-507 | as long as no hold is outstanding there are never more than 64 pinned descriptors |
| CacheCap.RefusalJustified | src/trw_mcp/_checkout_access.py:550-572 | the refusal begins only with a full cache and an uncertain hold, or every descriptor held, or 200 busy waits used up while a read is in flight |
| CacheOrder.ReadOrderIsByUse | src/trw_mcp/_checkout_access.py:482-516 | in every reachable state the pinned inodes are listed in the order of the last event that read or pinned them |
| CacheOrder.EvictsLeastRecentlyUsed | src/trw_mcp/_checkout_access.py:460-483 | over every run, what eviction closes is the least recently used descriptor it may: every pinned inode last used earlier is held or its lock is taken |
| CacheProgress.NoHoldAndWait | src/trw_mcp/_checkout_access.py:283-285 | a thread that waits for a per-inode lock has neither the map lock nor any per-inode lock |
| CacheProgress.DeadlockFree | src/trw_mcp/_checkout_access.py:441-581 | in every reachable state each running thread can move, or waits for one that can, at most two waits away |
| Deployment.Target.WriteDurable | src/trw_mcp/framework_deployment.py:73-80 | interrupted anywhere, the write leaves anything in its own file and nothing changed elsewhere; on return the file has the bytes |
| Deployment.Target.ReplaceDurable | src/trw_mcp/framework_deployment.py:83-88 | the rename happens whole or not at all, even when the flush after it raises |
| Deployment.Target.Snapshot | src/trw_mcp/framework_deployment.py:126-138 | the loop saves every managed file that exists and a description of which do; nothing outside the snapshot directory changes at any moment |
| Deployment.Target.RestoreSnapshot | src/trw_mcp/framework_deployment.py:141-165 | from the snapshot on disk every managed path is put back, the receipt last, and no temporary file is left; at any moment in between each path has its earlier, its new or its restored content |
| Deployment.Target.Stage | src/trw_mcp/framework_deployment.py:237-245 | every wanted file is staged with its bytes, and only the staging directory changes |
| Deployment.Target.Promote | src/trw_mcp/framework_deployment.py:247-264 | at every moment of the promotion each managed path has its earlier or its wanted bytes, and the receipt its earlier ones until all others are in place |
| Deployment.Target.Deploy | src/trw_mcp/framework_deployment.py:168-274 | the whole transaction with a failure possible at every write, rename, unlink and removal: in every state on the way each path is old, new or put back; until a restore begins the receipt is last; each outcome fixes the final files |
| DeploymentModel.AcceptedIsWhole | src/trw_mcp/framework_integrity.py:279-314 | under a request's receipt, the receipt check accepts a set of files if and only if every bound file of that one request is there with its bytes |
| DeploymentModel.InterruptedIsWhole | src/trw_mcp/framework_deployment.py:237-274 | corollary of what `Deploy` says of every state on the way: cut off anywhere, if the files are accepted, they are the new generation whole or the earlier one file by file |
| DeploymentRuns.ReceiptShowsAll | src/trw_mcp/framework_deployment.py:248-264 | corollary of `Deploy`: going forward, the new receipt is visible only when every bound and every mutable artifact is in place |
| DeploymentRuns.RollbackIsExact | src/trw_mcp/framework_deployment.py:126-165 | corollary of `Deploy`: a rollback gives every path its exact earlier bytes or absence if and only if no managed file that existed is named `BACKUP.json` (or it held the snapshot's description already) |
| DeploymentRuns.RollbackLosesBackupJson | src/trw_mcp/framework_deployment.py:134-138 | its other side: a managed `BACKUP.json` does not survive a rollback, the snapshot's own description takes its place |
| DeploymentRuns.AcceptedIsOneGeneration | src/trw_mcp/framework_deployment.py:168-274 | over any sequence of deployments, finished, rolled back or cut off, with edits by others in between, a set of files the receipt check accepts is one whole generation that a single deployment asked for |
| DeploymentRuns.InstalledIsAccepted | src/trw_mcp/framework_deployment.py:223-264 | a deployment that ends leaves its own generation, accepted, with every mutable artifact |
| ScalarEditor.GetPut | src/trw_mcp/framework_integrity.py:319-325 | the value written for a field is the value read back, whatever the text |
| ScalarEditor.PutPut | src/trw_mcp/framework_integrity.py:319-325 | of two writes of one field the second wins, as if it were the only one |
| ScalarEditor.PutOthersIff | src/trw_mcp/framework_integrity.py:46-52 | for every text and all fields, a write leaves another field's value alone if and only if that field has a value above the line written, or does not wait with an empty line of its own right above it, or reads the same from the new line as from the old |
| ScalarEditor.ValueBelowIsLost | src/trw_mcp/framework_integrity.py:46-52 | the other case happens: a value on the line below its field is read (the pattern's white space spans lines) and lost when that line is rewritten |
| VersionKeys.PopZeros | src/trw_mcp/framework_integrity.py:74-77 | the loop drops exactly the trailing zero components, never the last one left |
| VersionKeys.KeyOrder | src/trw_mcp/framework_integrity.py:65-78 | keys compare as tuples exactly as the versions compare component by component, zero-padded |
| Integrity.InspectReceipt | src/trw_mcp/framework_integrity.py:279-314 | the receipt gives no error if and only if it has schema 1, the registry digest, and lists at least one file, each inside the target and with its digest |
| Integrity.Inspect | src/trw_mcp/framework_integrity.py:196-316 | the report has no error if and only if pins, bodies, stamp and receipt are this bundle's; it asks for an upgrade if and only if the receipt or the stamp's registry digest is missing |
| Integrity.IntactIsAccepted | src/trw_mcp/framework_integrity.py:279-314 | files that inspect clean against a registry digest form a set the receipt check accepts |
| FrameworkDecision.PinWritten | src/trw_mcp/framework_integrity.py:361-371 | after a repair each pin that the config had is the bundle's version, and none is added |
| FrameworkDecision.StampWritten | src/trw_mcp/framework_integrity.py:373-395 | the stamp a repair writes has, for each field read back, the bundle's value on its first line |
| FrameworkRuns.Repair | src/trw_mcp/framework_integrity.py:328-417 | a repair that completes returns a report without errors or upgrade requests, and leaves a project for which the decision is `current` |
| FrameworkRuns.RepairedIsCurrent | src/trw_mcp/framework_decision.py:39-107 | after a completed repair with a registry digest and a self-consistent bundle, inspection is clean and the decision for the same inputs writes nothing |
| FrameworkRuns.EditedIsCurrent | src/trw_mcp/framework_decision.py:39-107 | the decision stays `current` under any edit of config, stamp or unmanaged files that leaves the pinned values alone |
| FrameworkRuns.DeployKeepsUp | src/trw_mcp/framework_integrity.py:97-138 | one obeyed deployment, finished, rolled back or cut off anywhere, leaves each document at a stated version no lower than every version stated before |
| FrameworkRuns.NeverDowngrades | src/trw_mcp/framework_decision.py:75-107 | across any sequence of visits by packages of any versions, interrupted or not, a document's highest stated version never decreases |
| FrameworkRuns.PackageNotReplacedByOlder | src/trw_mcp/framework_integrity.py:141-168 | no obeyed visit replaces the recorded package version by an older one |
| ImportRun.Known.AddTags | src/trw_mcp/export_import.py:121-125 | a row's tags claim exactly the free keys of its content, and the row is a copy exactly if it claimed one |
| ImportRun.Known.Index | src/trw_mcp/export_import.py:96-126 | the index answers every key with the project's own row of that id and content, else the first row an earlier import tagged; its copies are exactly the rows so found |
| ImportRun.HandleEntry | src/trw_mcp/export_import.py:382-436 | one entry is filtered, refused, recognised or stored, with the index, the counters and every intermediate store accounted for |
| ImportRun.RestoreSupersession | src/trw_mcp/export_import.py:295-337 | each superseded row is linked to the one row its closer names, when both may be changed; every state on the way has the first few links made |
| ImportRun.ImportLearnings | src/trw_mcp/export_import.py:340-448 | the two loops leave the store and the counts that the import of the whole file defines, and every store on the way is one an import may be cut off with |
| ImportRecognition.FoundAfter | src/trw_mcp/export_import.py:96-126 | after the first rows of a file are added, an entry is recognised as the row it was before, else as the first of those rows that carries its tag and content, else not at all |
| ImportInterruption.ResumesIff | src/trw_mcp/export_import.py:382-448 | for every store and file with distinct keys: after every possible interruption a second run ends as an uninterrupted import if and only if each new row carries its entry's tag, none carries the tag and content of a later new entry, entries standing for one active copy ask for one status, and entries the store turned away change neither statuses nor links of the new rows they would be taken for |
| ImportInterruption.ResumedImportCompletes | src/trw_mcp/export_import.py:382-448 | under that condition, cut off after any store write and run again, the import ends in the store of an uninterrupted run that draws the first run's ids up to the cut and the second's after it |
| ImportAgain.PlainResumesIff | src/trw_mcp/export_import.py:382-448 | when no entry turned away would be taken for a new row, the exact condition is the first three parts, whatever ids are drawn |
| ImportAgain.AnyInterruptionsComplete | src/trw_mcp/export_import.py:382-448 | under it, however often the import is cut off and run again, the run that ends leaves the store of one uninterrupted import, each row with the id some run drew for it |
| ImportAgain.FurtherRunImportsNothing | src/trw_mcp/export_import.py:382-448 | a further run imports nothing if and only if each row the first run added is claimed by the tag of some row it added |
| ImportAgain.NothingChangesIff | src/trw_mcp/export_import.py:382-448 | on any store, an import changes nothing if and only if no entry is new, none asks for a status of an active copy, and no open row has a closer to be linked to |
| ImportAgain.FurtherRunChangesNothing | src/trw_mcp/export_import.py:382-448 | so a further run of the same file changes nothing if and only if it imports nothing, and finds no status to give and no link to make in what the first one left |
| ImportAgain.OneImportIsEnough | src/trw_mcp/export_import.py:382-448 | which is always so when new rows carry their own tags and no later entry's, and no entry turned away would be taken for one |
| ImportOwnRows.OwnRowsNeverChange | src/trw_mcp/export_import.py:295-337 | for any file, wherever the import stops, a row that was there without an `imported-id:` tag is unchanged |
| ImportOutcome.EachCountedOnce | src/trw_mcp/export_import.py:382-440 | every object of the file is counted as imported, duplicate, filtered or refused, and as one of them only |
| ImportOutcome.StatusesAsExported | src/trw_mcp/export_import.py:280-292 | after the whole import the rows are the store's and one for each new entry; a new row, or an active copy of an earlier import, has the status that the last entry standing for it asks for, or obsolete for one that cannot be given; every other row keeps its own |
| ImportOutcome.SupersessionAsExported | src/trw_mcp/export_import.py:295-337 | after the whole import each repairable superseded row is closed by the one closer its first match names, rows closed before are not touched, and a closer supersedes exactly what it has come to close |
| ImportLimits.CrossClaimLosesRow | src/trw_mcp/export_import.py:157-171 | if one entry carries another's tag and content, a cut between the two loses the second for good: one row instead of two |
| ImportLimits.SharedRowDiverges | src/trw_mcp/export_import.py:404-410 | if one imported row stands for two entries of different status, a run cut off between the two and repeated ends with the first's status, an uninterrupted one with the second's |
| ImportLimits.StrayDiverges | src/trw_mcp/export_import.py:404-425 | if an entry the store turns away would be taken for an earlier new row and asks for a status that the row's own does not, some interruption shows |
| TextLines.JoinSplit | src/trw_mcp/framework_integrity.py:319-325 | an edited text is its lines: splitting at newlines and joining again gives back the text |
| TextLines.StripAgain | src/trw_mcp/export_import.py:66-68 | the digest of a summary already stripped is the digest of the summary |
| Pep440.KeysFollowPep440 | scripts/install-trw.template.py:2845-2871 | the fallback keys order two versions exactly as PEP 440's section "Summary of permitted suffixes and relative ordering" does, and are equal exactly for equal versions |
| Pep440.ClausesFollowPep440 | scripts/install-trw.template.py:4554-4598 | the six ordered clauses allow exactly what PEP 440 allows, the exclusions of section "Exclusive ordered comparison" included |
| Pep440.ExclusionsMatter | scripts/install-trw.template.py:4585-4589 | `1.0rc1` is before `1.0` but not `<1.0`, and `1.0.post1` after it but not `>1.0` |
| VersionText.HoldsFollowsPep440 | scripts/install-trw.template.py:4554-4598 | from text: every clause that is judged at all is judged as PEP 440 says of the two versions read |
| VersionText.ReadShow | scripts/install-trw.template.py:2836-2841 | the version grammar reads the normal form of every version back to that version |
| Markers.MarkerIsActive | scripts/install-trw.template.py:4458-4490 | the loops keep a requirement unless the marker is dropped by the stated rule |
| Markers.SameWords | scripts/install-trw.template.py:4469-4472 | with whole quoted strings, splitting at white space gives the same words as PEP 508's reading with quotes |
| Markers.DroppedIsFalse | scripts/install-trw.template.py:4458-4490 | reading fails closed: a dropped marker is false under PEP 508 in every environment without extras |
| TwoPassInstall.InstallProprietary | scripts/install-trw.template.py:4764-4848 | the two loops with their running dictionary compute the phase defined over fetch and install answers |
| TwoPassInstall.EveryPackageReportedOnce | scripts/install-trw.template.py:4764-4848 | under any mix of errors and failed installs each package is reported exactly once, installed or failed |
| TwoPassInstall.NewPackagesAreSupplied | scripts/install-trw.template.py:4601-4644 | each newly installed package finds all its private requirements, at satisfying versions, among what is installed in the end |
| TwoPassInstall.FailuresHaveReasons | scripts/install-trw.template.py:4764-4848 | a package fails only if asking for it raised, its install failed, or what was installed at its turn, all present packages included, did not meet its requirements |
| RefusalLines.Within | scripts/install-trw.template.py:5184-5192 | the kept lines are the end of the list, fit the budget, and one more would not |
| RefusalLines.Fill | scripts/install-trw.template.py:5233-5240 | the lines shown are the first candidates, fit the budget, and the next would not |
| RefusalLines.DigitsGrow | scripts/install-trw.template.py:5226-5232 | the closing line is widest for the largest count, so reserving it at its widest suffices |
| RefusalLines.Show | scripts/install-trw.template.py:5195-5242 | at most 8000 characters for every output and recovery command with fewer than 10^1000 path lines; with an error line, the first one as header, the clients line and the last Fix line are always there and nothing the budget allows is left out |
| Base64.DecodeEncode | scripts/build_installer.py:391-392 | decoding undoes encoding for every byte string, as section 4 of RFC 4648 has it |
| Embedding.ConcatChunks | scripts/build_installer.py:120-122 | the 76-character pieces put together are the encoded text |
| Embedding.Extract | scripts/install-trw.template.py:1438-1459 | the reading loop returns the decoded comment lines after the marker up to the first line that is none, or nothing |
| Embedding.EmbeddedReadBack | scripts/install-trw.template.py:1438-1459 | a block between its marker and whatever stops the reader is read back to the exact bytes |
| Placeholders.FillHole | scripts/build_installer.py:407-418 | successive replacements fill a placeholder once with its own value, whatever the other values are, as long as none holds braces |
| InstallerBuild.BuildIs | scripts/build_installer.py:407-418 | filling the whole template gives the template's lines with their values and the two wheel blocks in place |
| InstallerBuild.WheelsReadBack | scripts/install-trw.template.py:1412-1459 | each marker of the built installer gives back its wheel, byte for byte, if and only if the wheel is not empty |
| InstallerBuild.EmptyWheelIsLost | scripts/install-trw.template.py:1456-1457 | after the marker of an empty wheel, either one, the reader finds no data at all |
| DriftCheck.NormalizeForDrift | scripts/build_installer.py:190-232 | the loop with its in-block flag computes the normal form line by line |
| DriftCheck.BuiltMatchesTemplate | scripts/build_installer.py:246-270 | a built installer and its template normalise to the same lines, whatever values and wheels went in |
| DriftCheck.AlikeIffFrontsAgree | scripts/build_installer.py:190-232 | two texts compare equal if and only if they agree line by line, up to the named values, before the first data marker; what is in the blocks or after them is not seen |

## Left out

Contracts that state less than is promised:

- DescriptorLoss.ReadSeesNamedUnlessClosed: requires that no close of the reader's descriptor happened during the read; without that it is false of the code (`RetiredTwice.ReaderCanLoseDescriptor`), and `DescriptorLoss.ReaderLosesIff` says exactly when such a close can come. At the moment of revalidation it needs no condition (`ReadGuarantee.ValidatedSeesNamedFile`).
- ReadGuarantee.ReaderKeepsDescriptor: for at most one retired descriptor per inode in flight, which is sufficient; the exact condition is in `DescriptorLoss.ReaderLosesIff`.
- CacheSafety.NoCloseHitsConnection: requires that the two stats of `held_connect` disagreed or one of them named the inode SQLite opened; for a file replaced and put back between the two stats it is false of the code (`SwappedBack.CloseCanHitConnection`).
- CacheSafety.ReturnedIsCovered: is about what the hold counts; whether a close then comes depends on the run.
- ImportInterruption.ResumedImportCompletes: for files and stores that meet the exact condition of `ImportInterruption.ResumesIff`; its part about links speaks of the ids the two runs draw, which `ImportAgain.PlainResumesIff` does not.
- ImportAgain.AnyInterruptionsComplete: for files without entries that the store turns away and that would be taken for new rows.
- ScalarEditor.ValueBelowIsLost: one text; the exact condition is in `ScalarEditor.PutOthersIff`.
- InstallerBuild.WheelsReadBack: with placeholders only in the named fields and blocks, and no braces or newlines in the values.

Cache:

- Windows branches, `copy_to`, `open_under`, `delete_regular_file_under` and the write-side walks: little state beside the cache.
- Inode locks are granted in any order, and fairness is not modelled: what is proved is that some thread can always move, not that each one does.
- Paths are compared as given; `realpath` of a held path and symbolic links are not modelled.
- The stats of the held paths during an eviction answer anything, not what one moment shows; so nothing rests on them.
- A failed native close in `__del__` keeps its hold for good: in the model that connection is never destroyed.
- Errors other than absence from `stat` and `open`, and the time a busy wait takes.

Deployment, integrity and decision:

- The file system is a flat map of regular files: directories, symbolic links and the containment checks on them are left out, and artifact paths are taken as not nested in each other.
- No other program writes under the target during a deployment; the flock that keeps other deployers out is taken as given.
- An exception raised by the last cleanup of the staging directory after the receipt is in place still counts as deployed.
- SHA-256 is injective and JSON documents are the values they encode, so a malformed document is a text.
- How a body states its version and how package versions compare are parameters; so is the force variable.
- Lines end in a newline only; other line ends, and backslashes in replacement values, are left out.

Import:

- Dry runs, parsing of the source file, admitted confidence, typed fields, assertions, messages and the final resync.
- The write path decides on the entry alone: an acceptance or a merge that depends on the store is not modelled.
- The two namespaces are one list of rows with distinct ids, new rows last; ids are drawn fresh and never repeat between the runs.
- A store that becomes unavailable midway is one of the cuts; the counts reported with it are left out.

Installer and builder:

- Prompts, spinners, subprocesses, pip, HTTP, entitlements, checksums, telemetry: fetching and installing a wheel answer anything.
- Wildcard, `~=` and `===` clauses, epochs and local labels are not compared with PEP 440; in the two-pass install they are arbitrary tests of a version.
- Versions are compared by the fallback keys, not by `packaging`.
- Reading requirement lines out of wheel metadata, and names other than normalised ones.
- Digits, letters and white space beyond ASCII; line ends other than newlines.
- Masking in the refusal report is an arbitrary function of a line, and quoting for a shell a parameter.
- `_drifted_symbols` and `_validate_py_installer`: the first only words the message, the second repeats the reader.
