# A verified model of revika

revika stores a User's files as encrypted, erasure-coded, content-addressed shards on nodes it does not
trust, under a namespace of immutable directory blobs named by capabilities. This project models the parts of
that system whose correctness no single function shows, and proves what they promise over every input, every
run and every reachable state.

## The parts

- **Namespace** (`Directory`, `Blobs`, `Graft`, `Move`, `Merge`, `MergeKept`, `MergeDeletes`, `MergeNaive`,
  `MergeCode`, `Forks`, `Rekey`, `Diff`, `DiffCode`, `Reclaim`, `ReclaimLoss`). A store in which a new blob gets a cap never seen before, so a directory names only
  older caps and the age of a cap is the measure that ends every recursion. Trees are compared by what their
  paths resolve to. Path update and removal, moves, three-way merge, re-encryption, change enumeration and
  shard reclaim are methods on that store, each proved against a statement about paths.
- **Two-way sync** (`Reconcile`, `SyncTree`, `SyncLinks`, `Convergence`, `SyncPass`, `SyncFixpoint`, `SyncFailures`,
  `SyncEdits`, `SyncCode`). The decision per path, the ordered plan, the effect of each operation on both trees with links
  followed and operations stopping at any stage, a closed form of a whole pass, and from it when a pass converges and when the
  agreement it records is true.
- **Node** (`Ledger`, `LedgerRuns`, `LedgerCode`, `Node`). The ledger's tables and running totals, every run of
  its operations, and the blob store kept in step with it through PUT, DELETE, garbage collection and crashes.
- **Published roots** (`RootRegister`, `Commit`). Selection among records, the register it makes, and the
  read-merge-publish-reread loop against other writers.
- **Schedulers and limiters** (`Weighted`, `Rebalance`, `RateLimit`, `RateBounds`, `AuthCache`). Times and rates are reals or
  nanosecond integers. Clocks never go back, except those of the rate limiter's calls.
- **Data path** (`Erasure`, `Pipeline`, `Repair`). Chunking, framing, coding, storing, loading under loss, repair.
- **Core**, **Samples**, **Witness**: types the parts share, the small stores of the concrete cases, and codecs that
  meet the laws below.

Hashing, sealing, compression, Reed-Solomon coding and signatures are not modelled. They are function-valued
parameters constrained by a predicate (`Erasure.LawfulCode`, `Pipeline.Lawful`, `Commit.Lawful`): any K of N
shards give all of them back, opening undoes sealing, sealing adds a nonce and a tag, decompressing undoes
compressing, the hash is injective, a signed record decodes to what was signed. `Witness` shows that these laws can
be met. Key and address generation in the namespace store is a counter, so "random and never seen before" becomes
"larger than any before". Where a link of the working copy leads is a parameter too (`SyncTree.LawfulFollow`).

## What turned out false of the code

Each of these is kept as the code has it and replaced by the exact condition, with a concrete case, or a whole
family of cases, in which it fails.

- A rename is a graft followed by a removal. It is exactly a move if and only if neither path contains the other
  (`Graft.MoveExactness`, `Move.ExactMoveIff`). The guard compares cleaned strings, so it rejects only a destination
  at or below a source written the same way, both from a slash or both not (`Move.MvRename`). A source with a leading
  slash passes it: `mv /a` to the root or to `a/b` loses all of `a` (`Move.RootedMoveLosesAll`,
  `Move.RootedMoveInside`). A destination above the source arises exactly when the source lies below its own base
  name in the directory the user names (`Move.DestAbove`): `mv a/b/b a` on a namespace with `a/b/b/b` succeeds and is
  not a move (`Move.LossyMoveExists`).
- A merge keeps an edit if and only if, in each directory on the way, the last write to the name that carries it
  is its own or happens to hold the same (`MergeKept.LocalEditSurvivesIff`, `MergeKept.RemoteEditSurvivesIff`).
  A conflict label already in use loses one (`MergeKept.LabelClashLosesEdit`); labels no one uses lose none
  (`MergeKept.LocalEditKept`, `MergeKept.RemoteEditKept`).
- A merge keeps a deletion of what the other side left alone if and only if no directory above is contested: removed
  or replaced on the one side and edited on the other, in which case all of it is taken back
  (`MergeDeletes.DeletionHoldsIff`).
- Change enumeration is the plain difference of the two trees if and only if nothing lies below a name that
  switched between file and directory (`Diff.DiffExact`, `Diff.SwitchedNameHides`).
- One sync pass converges if and only if everything below a path it deletes is deleted too
  (`SyncFixpoint.FixedPointIff`); a new file under a directory deleted on the other side breaks this
  (`SyncFixpoint.NewFileUnderDeletedDirectory`). Two passes always suffice (`SyncFixpoint.TwoPasses`). Both are for
  passes that write no file onto a link.
- A pass makes shared paths the same, without an error, if and only if it brings no plain file down onto a link
  of the working copy (`SyncPass.OnePass`), because the file is written through the link; the same condition
  decides whether every kept version is in place (`SyncPass.NoKeptVersionLost`). `SyncFixpoint.FileOntoLink` is
  such a state, and a second pass does not mend it (`SyncFixpoint.TwoPasses`).
- The agreement a pass records is true if and only if no file was written onto a link and nothing a failed operation
  left is a false agreement (`SyncFailures.BaseTruthfulIff`). A transfer that failed before it wrote leaves the two
  versions it found. A file cut short is its first bytes, which is false unless those are all of it or a delete of a
  directory above takes it from the store in the same pass. A link cut short is gone, and a failure after the last
  byte leaves everything. Where the agreement is false the next plan passes over the difference: after a download of
  a shared file fails at once (`SyncFailures.FailedDownloadForgotten`), and after one of a new file is cut short
  (`SyncFailures.TruncatedDownloadForgotten`). A failure to restore attributes leaves it true
  (`SyncFailures.LateFailureAgrees`).
- After `rm` or `revoke` the new root always loads. The root that was published, which may be a merge, loads if and
  only if each node of it keeps K shards that the new root needs, that the old subtree does not need, or whose delete
  fails (`Reclaim.Rm`, `Reclaim.LoadsIff`). The shards to keep are taken from the new root, so another device's copy
  of what was removed is lost (`Reclaim.CopyElsewhereLost`): removing `d` while another device copies it to `e` goes
  through and leaves a published root whose `e` does not load (`ReclaimLoss.RemovedCopyLost`,
  `ReclaimLoss.RemovalGoesThrough`).
- The rate limiter admits at most the burst plus the rate times the window, each call counted at the latest time its
  key has been called at, and pruning changes no answer, if and only if no key idle at a pruning comes back next with
  an earlier time than the pruning (`RateBounds.RateIsHeldIff`, `RateBounds.PruningLosslessIff`,
  `RateBounds.BackdatedOveradmits`). Counted at the time a call is dated the bound holds for a clock that does not go
  back (`RateLimit.RateIsHeldForward`) and not for one that does (`RateLimit.OneSecondOverfull`).
- The weighted scan starts at -1, so it finds a maximum if and only if some running weight is non-negative or the
  last one is a maximum (`Weighted.ScanFindsMaxIff`). Over a fixed set that always holds; when nodes leave it can
  fail (`Weighted.ShrunkenSetMisses`).
- A write token is accepted a second time if and only if it comes back at the very last nanosecond it verifies
  (`AuthCache.AcceptedAgainOnlyAtTheEdge`, `AuthCache.EdgeIsAccepted`, `AuthCache.TwiceAtTheEdge`), because expiry is
  compared strictly.
- A commit's number exceeds those before it if and only if none of them is the largest 64-bit number
  (`Commit.NextSeqAbove`, `Commit.WrappedNumber`).
- After a repair a shard reads back if and only if no corrupt blob stood under its address (`Repair.ReadsBackIff`,
  `Witness.CorruptBlobStays`): storing leaves an existing blob alone and the availability probe does not read it.

Where comments and code disagree the code is followed. The comment on `commitRoot` giving up after its last
attempt says the local root file holds the last signed attempt (`cmd/revika-ctl/commands.go:584-586`); nothing is
saved on that path, and `Commit.Device.CommitRoot` states so.

## Model

| member | source | states |
|---|---|---|
| Directory.SortedLists | internal/manifest/dir.go:42-52 | A name-sorted entry list is the listing of a map: every entry is bound at its name and every bound name is listed once |
| Directory.LessIsFirstDifference | internal/manifest/dir.go:42-52 | Names are ordered by their first difference, a shorter one before what it begins |
| Directory.Lookup | internal/manifest/dir.go:55-61 | On a sorted directory binary search finds a name exactly when the directory binds it, and then the entry bound |
| Directory.Upsert | internal/manifest/dir.go:66-82 | The bindings change at exactly that one name, attributes and sortedness are kept |
| Directory.Remove | internal/manifest/dir.go:86-97 | The bindings lose exactly that name, sortedness is kept, and the flag says whether it was there |
| Blobs.ResolveStable | internal/manifest/dir.go:171-192 | Writing more blobs changes no path of a root that already existed, so an old root resolves as before |
| Blobs.ResolveConcat | internal/manifest/dir.go:171-192 | Walking a path and then another from where it led is walking both in one |
| Blobs.EntryAtResolves | internal/manifest/dir.go:199-226 | The entry reported for a path carries the cap the path resolves to |
| Blobs.BlobStore.PutBlob | internal/pipeline/pipeline.go:194-196 | One more loadable blob under a cap never seen before, everything else unchanged |
| Blobs.BlobStore.PutChunk | internal/pipeline/pipeline.go:124-185 | One more loadable chunk under a fresh key, everything else unchanged |
| Blobs.BlobStore.DeleteShard | internal/store/disk.go:119-128 | What remains loadable is exactly what still has K of its shards |
| Blobs.RecoverableIff | internal/pipeline/pipeline.go:221-245 | A blob or chunk is recoverable exactly when at least K of its positions have their shard in the store |
| Blobs.BlobStore.LoadDir | internal/manifest/dir.go:144-150 | A directory loads exactly when the cap is a directory's and its blob is recoverable |
| Graft.ResolvePath | internal/manifest/dir.go:171-192 | The loop succeeds exactly when the path leads somewhere, with the cap it leads to |
| Graft.ResolveEntry | internal/manifest/dir.go:199-226 | The same for the parent's entry; the empty path gives the root itself |
| Graft.Graft | internal/manifest/dir.go:238-281 | Fails exactly when the way is blocked by something that is not a directory, and then stores nothing; otherwise the path holds the grafted entry, paths below it go into the grafted subtree, every incomparable path keeps its entry, and directories on the way keep their attributes |
| Graft.GraftRemove | internal/manifest/dir.go:286-323 | Succeeds exactly when the path leads somewhere; then nothing is left at or below it and every incomparable path keeps its entry; otherwise nothing is stored |
| Graft.GraftThenRemove | cmd/revika-ctl/commands.go:1099-1106 | For incomparable paths a graft and then a removal is a move: all of the source is at the destination, the source is gone, everything beside both is untouched |
| Graft.MoveUpwardLoses | cmd/revika-ctl/commands.go:1086-1106 | If the destination lies above the source and the removal still finds something, part of what was moved is lost |
| Graft.MoveExactness | cmd/revika-ctl/commands.go:1086-1106 | A completed rename is exactly a move if and only if neither path contains the other |
| Move.DestAbove | cmd/revika-ctl/commands.go:883-894 | The destination worked out from the user's path lies above an existing source exactly when the source lies below its own base name in the directory named |
| Move.CleanCancels | cmd/revika-ctl/commands.go:883-894 | In a cleaned path a name followed by ".." leaves what stood before it, rooted or not, and so do "" and "." |
| Move.CleanTwice | cmd/revika-ctl/commands.go:883-894 | A cleaned path written out and cleaned again is the same: only names after its lead, and nothing above a root |
| Move.BaseNameIs | cmd/revika-ctl/commands.go:1048-1106 | The base name is the last component that is not empty, whatever slashes follow; "." and an empty path have none |
| Move.SlashCut | cmd/revika-ctl/commands.go:883-894 | A trailing slash means a directory and is cut, and nothing else is; a lone slash leaves the empty path |
| Move.MvRename | cmd/revika-ctl/commands.go:1048-1106 | The rename of any two user paths, rooted, dotted or plain: refused from nowhere, and as onto or into itself exactly when the cleaned destination starts with the cleaned source and both are rooted or equally far up; otherwise it ends with the source gone, or fails exactly when the way is blocked or the removal finds nothing, and is a move exactly when neither path contains the other |
| Move.ExactMoveIff | cmd/revika-ctl/commands.go:1048-1106 | A completed rename leaves nothing at the source and is exactly a move if and only if neither path contains the other; a destination at or below the source gets through only when one is rooted, or further up, and the other is not |
| Move.RootedMoveLosesAll | cmd/revika-ctl/commands.go:1086-1106 | Renaming /a to the namespace root, given as nothing or as a slash, succeeds and leaves nothing at a |
| Move.RootedMoveInside | cmd/revika-ctl/commands.go:1086-1106 | Renaming /a to a free path a/b succeeds and leaves nothing at a |
| Move.LossyMoveExists | cmd/revika-ctl/commands.go:1048-1106 | A concrete namespace on which every run of the rename of a/b/b to the directory a succeeds and is not a move |
| MergeKept.SlotIsLastWrite | internal/manifest/merge.go:108-171 | A merged directory binds a name exactly when visiting some name writes it, and to what the last such name in order put there |
| MergeKept.LocalEditSurvivesIff | internal/manifest/merge.go:94-178 | A leaf local added or changed is at its path in the merged tree exactly when, in each directory on the way, the last write to the name is its own, or is a conflict copy that holds the same cap below |
| MergeKept.RemoteEditSurvivesIff | internal/manifest/merge.go:94-178 | A leaf remote added or changed is where the merge carries it exactly when, in each directory on the way, no later name's write to the name that carries it puts something else there |
| MergeKept.CarriedIsFound | internal/manifest/merge.go:146-171 | Where the merge carries remote's edit is its own path, or that path with one component replaced by its conflict label |
| MergeKept.LocalEditKept | internal/manifest/merge.go:94-178 | With fresh conflict labels every leaf local added or changed since base keeps its cap at its own path |
| MergeKept.RemoteEditKept | internal/manifest/merge.go:94-178 | With fresh conflict labels every leaf remote added or changed is in the merged tree, at its path or under the conflict label of one component |
| MergeDeletes.DeletionHoldsIff | internal/manifest/merge.go:94-178 | With fresh conflict labels, what one side deleted and the other left as base has it is gone from the merged tree exactly when no directory above it is contested, or, if local deleted it, none that local no longer has |
| MergeKept.LabelClashLosesEdit | internal/manifest/merge.go:146-171 | A concrete store and its merge: with local holding a file under the conflict label, remote's edit is neither at its path nor under any label |
| MergeNaive.PruningPreservesTree | internal/manifest/merge.go:60-171 | The merge with its cap-equality shortcuts has at every path what a merge that opens and compares every entry at every level has there |
| MergeCode.LoadDirOpt | internal/manifest/merge.go:83-88 | An absent or non-directory cap reads as an empty directory; an error exactly when it is a directory's cap and the directory cannot be loaded |
| MergeCode.UnionNames | internal/manifest/merge.go:191-205 | The names of both sides, each once, in order |
| MergeCode.Merge3 | internal/manifest/merge.go:49-178 | Ends on every store; it fails exactly when at some path the pruned merge goes down to, one of the three directories cannot be loaded; otherwise the result is the three-way merge, and the conflict list holds, once each, exactly the paths at which base, local and remote have three different things, as they have at everything above, with directories of local and remote above but not both at the path |
| MergeCode.ConflictIffContested | internal/manifest/merge.go:108-171 | The walk's conflicts by decision are the contested paths: deleted on one side and edited on the other, or edited differently on both and not both directories |
| Forks.LocalEditsCommitted | cmd/revika-ctl/commands.go:497-587 | Through all the merges of a commit every edit of the root it began with is in the root it ends with, at its path, as long as no merge buries it |
| Forks.RemoteEditsCommitted | cmd/revika-ctl/commands.go:497-587 | Every edit of any remote root folded in on the way is in the root the commit ends with, where that merge carried it |
| Forks.FoldAll | cmd/revika-ctl/commands.go:530-575 | Merging remote roots one after another, always over the same base, other devices storing before each whatever names only what is there, gives such a chain; an error means a directory of one of the roots is lost when it is read |
| Forks.MergedLoss | internal/manifest/merge.go:49-178 | What a merged root cannot load, one of its two sides could not load either |
| Rekey.ReencryptFile | internal/pipeline/pipeline.go:107-122 | Succeeds exactly when every chunk loads and can be coded again; then chunk by chunk the same bytes, and the same attributes, under chunks none of which existed before |
| Rekey.FileBytesOne | internal/pipeline/pipeline.go:208-219 | The bytes of a single chunk are what it decodes to |
| Rekey.FileBytesJoin | internal/pipeline/pipeline.go:208-219 | A file's bytes are those of its chunks one after another, and there are none without one of them |
| Rekey.RekeyTree | internal/manifest/rekey.go:64-93 | Succeeds exactly when all of the subtree can be read and stored again; then the same paths mean the same, all of it stored afresh |
| Rekey.Rekey | internal/manifest/rekey.go:26-57 | Every path resolves in the new root exactly when it did in the old one and to the same bytes, names and attributes; everything at or below the subpath has fresh caps; every incomparable path keeps its cap; fails exactly when the path leads nowhere or its subtree is unreadable |
| Diff.DiffExactAt | internal/provider/diff.go:29-74 | At one path the pruned walk reports the plain difference exactly when the path is not below a name that switched kind |
| Diff.DiffExact | internal/provider/diff.go:18-74 | The report is the plain difference of the full listings exactly when nothing lies below a switched name |
| Diff.SwitchedNameHides | internal/provider/diff.go:52-74 | A concrete pair of roots: a directory became a file and the deletion of what was in it is not reported |
| DiffCode.EmitSubtree | internal/provider/diff.go:80-101 | Exactly the entry and everything below it, each path once; an error exactly when some directory below cannot be loaded |
| DiffCode.DiffRoots | internal/provider/diff.go:18-74 | The list holds exactly the changes of the pruned walk, each path once, with the new entry for added and modified paths; an error exactly when a directory cannot be loaded at a path at which, as at everything above it, the roots differ and do not put a leaf against a directory |
| DiffCode.ReportIsPlainDifference | internal/provider/diff.go:18-119 | With nothing below a switched name the list holds each path of the plain difference once, with its kind, and no other |
| Reclaim.CollectShards | cmd/revika-ctl/commands.go:1390-1417 | Adds exactly the shards some path below the cap needs; fails exactly when some directory or file below cannot be loaded |
| Reclaim.SparedRoot | cmd/revika-ctl/commands.go:1337-1380 | If no shard a root needs is deleted, every path of it loads the same bytes, names and attributes |
| Reclaim.LoadsIff | cmd/revika-ctl/commands.go:1345-1376 | Whatever shards are deleted, a root loads the same at every path exactly when each node of it keeps K shards of its blob and, for a readable file, of each chunk |
| Reclaim.ReleaseShards | cmd/revika-ctl/commands.go:1357-1376 | Deletes exactly the listed shards that are neither kept nor failing; the four counts add up to the list |
| Reclaim.Rm | cmd/revika-ctl/commands.go:1333-1380 | Fails only for the root path, a path that leads nowhere, a namespace not wholly loadable or a lost remote root, and then loses nothing; otherwise exactly the shards the old subtree needs and the new root does not are gone, save failing deletes, every path of the new root loads as it was built, copies sharing caps included, and the published root loads exactly when, before the release, each node of it has K shards that are to outlast it |
| Reclaim.Revoke | cmd/revika-ctl/commands.go:1479-1524 | The same after a rekey, whose subtree must also be readable; with no failing delete an old cap at or below the path loads only if something outside the path in the new root is stored under its key, and does if the cap itself is there |
| Reclaim.CopyElsewhereLost | cmd/revika-ctl/commands.go:1345-1376 | A published root that holds a copy of a removed node sharing no shard with the new root no longer loads |
| ReclaimLoss.RemovedCopyLost | cmd/revika-ctl/commands.go:1333-1380 | A concrete store in which every completed removal of d, another device having copied it to e, publishes a root that binds e and leaves e unloadable |
| ReclaimLoss.RemovalGoesThrough | cmd/revika-ctl/commands.go:1333-1380 | Nothing in that store makes the removal fail |
| Reconcile.Agree | internal/sync/state.go:126-134 | The recorded agreement matches the local state, and the remote state exactly when the kinds agree |
| Reconcile.ThreeWay | internal/sync/reconcile.go:288-391 | Nothing is done exactly when neither side changed; otherwise the side that changed wins, the policy decides when both did, and a delete is issued exactly when the winner lacks the path |
| Reconcile.DecidedAsSeen | internal/sync/state.go:105-134 | At a path agreed on, in the states themselves: a local leaf counts as edited exactly when its size or time differs, a remote item when one of its tokens does, or when its kind does; the side that was edited wins, a side that was not gives way to a deletion, and where both were, or a directory stands against a leaf, the policy names the operation |
| Reconcile.PlanFollowsStates | internal/sync/reconcile.go:238-391 | At every path a plan holds the one operation, or none, that sizes, times and tokens call for, and skips exactly the conflicts left alone; a path never agreed on is transferred as new |
| Reconcile.PlanOrder | internal/sync/reconcile.go:266-281 | In a plan no delete comes before anything else, deletes go from the deepest up, and the rest from the top down and by path |
| Reconcile.JoinSlashes | internal/sync/reconcile.go:266-281 | The path compared is its components with slashes between |
| Reconcile.SortOps | internal/sync/reconcile.go:266-281 | A permutation in the order of application, keeping paths distinct |
| Reconcile.MakePlan | internal/sync/reconcile.go:238-283 | Exactly the decided operations, one per path, in order, and exactly the skipped conflicts |
| SyncTree.PassFollows | internal/sync/reconcile.go:398-651 | For a plan that fits its trees and writes no file onto a link, whichever operations stop and at whatever stage: after each of them both trees are given by the sets of paths sent and deleted so far, a file cut short having its first bytes, and there is an error exactly when one failed |
| SyncTree.StopsAnywhere | internal/sync/reconcile.go:581-651 | An operation may stop with directories made down to any one above its path, and a local delete with any part of the subtree gone |
| SyncLinks.DoShaped | internal/sync/reconcile.go:422-651 | Every operation, carried out or stopped at any stage and whatever a link leads to, leaves two trees |
| SyncLinks.ClobberedStaysApart | internal/sync/reconcile.go:595-607 | A plan that writes a file onto a link leaves some path a link on one side and a file on the other |
| Convergence.SameKeysIff | internal/sync/reconcile.go:398-651 | Both sides end with the same paths exactly when everything below a deleted path is deleted |
| SyncPass.OnePass | internal/sync/reconcile.go:187-215 | With conflicts resolved and kinds agreeing both sides stay trees; with no file written onto a link no operation fails and the sides agree on paths exactly when deletes are clean; and no operation fails and shared paths end as the same item exactly when no file is written onto a link |
| SyncPass.NoKeptVersionLost | internal/sync/reconcile.go:288-391 | Every version a pass decides to keep ends on at least one side with nothing else at its path, exactly when no file is written onto a link |
| SyncPass.ParentsFirst | internal/sync/reconcile.go:266-281 | With clean deletes and no file onto a link the parent of every created path exists, as a directory, before the path is created |
| SyncFixpoint.FixedPointIff | internal/sync/reconcile.go:187-215 | With no file written onto a link the next plan is empty exactly when the pass's deletes were clean, which is when both sides hold the same paths, both sides stay regular and nothing is deleted next time; the pass has no error and makes the items the same exactly when no file is written onto a link |
| SyncFixpoint.TwoPasses | internal/sync/reconcile.go:187-215 | With no file written onto a link, after two passes the sides hold the same paths, nothing is left to do and every version the first pass kept is in place; the items are the same exactly in that case |
| SyncFixpoint.NewFileUnderDeletedDirectory | internal/sync/reconcile.go:329-347 | A concrete state whose deletes are not clean, under either resolving policy |
| SyncFixpoint.FileOntoLink | internal/sync/reconcile.go:595-607 | A concrete state with a link turned into a file remotely: wherever the link leads, the pass has an error or leaves the two sides different |
| SyncFailures.BaseTruthfulIff | internal/sync/reconcile.go:656-684 | Whichever operations stop and at whatever stage, the agreement recorded after a pass shows every difference exactly when no file was written onto a link, no transfer of a shared path whose items differ failed before writing, and no file was brought down cut short and left in the store; otherwise some path differs and the next plan leaves it alone |
| SyncFailures.FailedDownloadForgotten | internal/sync/reconcile.go:656-684 | A concrete state in which a download that fails before writing leaves an agreement that hides the difference |
| SyncFailures.TruncatedDownloadForgotten | internal/sync/reconcile.go:602-609 | A concrete state in which the download of a file only the store has is cut short, and the empty file left is recorded as agreed |
| SyncFailures.LateFailureAgrees | internal/sync/reconcile.go:611-614 | A download that fails only at restoring attributes leaves an agreement that is true |
| SyncEdits.EditReachesBoth | internal/sync/reconcile.go:187-215 | After a pass, of a file agreed on: edited on one side, by size, time or token, it is that side's version on both; edited on both, the preferred side's; edited on neither, both are left as they were |
| SyncEdits.EditOutlivesDeletion | internal/sync/reconcile.go:329-391 | A file edited on the preferred side and gone from the other is still there after the pass, and nothing else at its path |
| SyncCode.Replicas.RemoteDirID | internal/sync/reconcile.go:471-501 | Makes the directory and what is missing above it, or fails exactly when a leaf is in the way and then changes nothing |
| SyncCode.Replicas.Upload | internal/sync/reconcile.go:528-578 | Both trees and success as the model of the operation gives them, wherever it stops |
| SyncCode.Replicas.Fetch | internal/sync/reconcile.go:593-615 | Writing the stored item at a path: a directory in the way goes first; stopped part way a file has its first bytes and a link is not there; otherwise the item, through a link that stands there |
| SyncCode.Replicas.Download | internal/sync/reconcile.go:581-615 | Both trees and success as the model of the operation gives them: stopped while making directories, while writing, leaving the first bytes of a file or no link, or after the last byte; a file written where a link stands goes where the link leads |
| SyncCode.Replicas.MkdirLocal | internal/sync/reconcile.go:618-629 | Both trees and success as the model of the operation gives them, wherever it stops |
| SyncCode.Replicas.DeleteRemote | internal/sync/reconcile.go:632-641 | Both trees and success as the model of the operation gives them, wherever it stops; an item already gone is no error |
| SyncCode.Replicas.DeleteLocal | internal/sync/reconcile.go:643-651 | The subtree is gone, or as much of it as was removed before the failure |
| SyncCode.Replicas.Perform | internal/sync/reconcile.go:422-466 | One operation takes the two trees where the model takes them, to its end or as far as it gets |
| SyncCode.Replicas.Apply | internal/sync/reconcile.go:398-412 | The whole plan in order, any of its operations stopping at any stage and leaving what it had done, failures recorded and not fatal |
| SyncCode.Replicas.RebuildBase | internal/sync/reconcile.go:656-684 | The new agreement is the shared paths of one kind as they now are, and the prior entry of each skipped conflict |
| SyncCode.Replicas.Reconcile | internal/sync/reconcile.go:187-215 | A pass from scan to new agreement; from a regular state, with no operation stopped and no file onto a link, it has no errors and leaves nothing to do exactly when its deletes were clean |
| Ledger.CreditTallies | internal/ledger/ledger.go:474-485 | Adding one claim's size and count keeps every account equal to what its owner owns |
| Ledger.DebitTallies | internal/ledger/ledger.go:666-673 | Taking one claim's size and count away, removing an account at zero shards, keeps every account equal to what its owner owns |
| Ledger.DropTallies | internal/ledger/ledger.go:622-661 | Taking one shard's size and count from every one of its owners keeps every account equal to what its owner owns |
| Ledger.TalliedUnique | internal/ledger/ledger.go:1050-1069 | Two books in order over the same claims have the same accounts, bytes and counts |
| Ledger.EffectiveQuotaGrows | internal/ledger/ledger.go:495-511 | The cap never falls as time passes or for an owner seen earlier, is at least one and never above the full quota |
| Ledger.EffectiveQuotaLine | internal/ledger/ledger.go:495-511 | On the ramp the cap is the whole part of the straight line from the initial fraction of the quota, when the owner is first seen, to the quota at its end, and at least one |
| Ledger.EffectiveQuotaOutside | internal/ledger/ledger.go:495-511 | Without a ramp, with a fraction out of range, or after the ramp the cap is the quota; before the owner was seen it is that of the first moment |
| Ledger.WholeSeconds | internal/ledger/ledger.go:419-486 | Dates are whole seconds, rounded down |
| LedgerRuns.StepKeeps | internal/ledger/ledger.go:419-673 | Every transaction, with the accounts as the code updates them, keeps the books tallied, claims dated no earlier than their owner was first seen, and owners within quota |
| LedgerRuns.StepBooked | internal/ledger/ledger.go:419-1069 | Each transaction's own account updates alone keep an account for exactly the owners of something, holding exactly what they own |
| LedgerRuns.RegroupedTallies | internal/ledger/ledger.go:1050-1069 | Accounts rebuilt by summing the claims per owner tally, whatever stood there |
| LedgerRuns.RegroupedEarliest | internal/ledger/ledger.go:1050-1069 | Rebuilt accounts date each owner from its earliest surviving claim |
| LedgerRuns.RunKeeps | internal/ledger/ledger.go:419-1069 | In every run from empty tables, at every state: an account exists exactly for an owner of something and holds exactly what it owns, claims and stripes point at shard rows, and with a quota no owner is charged more than the quota or one largest shard |
| LedgerRuns.ReconcileNeverRaises | internal/ledger/ledger.go:998-1069 | A reconcile never raises a surviving owner's cap, at any later time |
| LedgerCode.LedgerDB.AddOwner | internal/ledger/ledger.go:419-486 | A renewal, a refusal over the cap that changes nothing, or a new claim charged once; the books tally |
| LedgerCode.LedgerDB.RenewLease | internal/ledger/ledger.go:517-534 | Redates the claim, refuses a stranger, does nothing without leases |
| LedgerCode.LedgerDB.RemoveOwner | internal/ledger/ledger.go:539-565 | Drops exactly that claim, refuses a stranger unchanged, reports how many claims remain; the books tally |
| LedgerCode.LedgerDB.DropRecord | internal/ledger/ledger.go:571-661 | The shard row, every claim on it and its stripe row are gone, every owner credited; the books tally |
| LedgerCode.LedgerDB.CollectRecord | internal/ledger/ledger.go:592-617 | Drops the record exactly when it exists and no owner is live at that moment |
| LedgerCode.LedgerDB.Collectible | internal/ledger/ledger.go:678-696 | Exactly the shards with no live owner |
| LedgerCode.LedgerDB.PutStripe | internal/ledger/ledger.go:901-913 | Records the stripe, or refuses an empty grant or an unknown shard unchanged |
| LedgerCode.LedgerDB.RecomputeAccounts | internal/ledger/ledger.go:1050-1069 | From any accounts at all the books tally afterwards, and from books that tallied no account, byte total or count changes |
| LedgerCode.LedgerDB.Reconcile | internal/ledger/ledger.go:998-1046 | Cut between any two of its transactions it is a run of as many record drops, of records without a blob; with a transaction left for the accounts it completes, exactly the records whose blob is on disk survive, first-seen becomes the earliest surviving claim, orphans and drops are counted |
| LedgerCode.LedgerDB.Run | internal/ledger/ledger.go:419-1069 | Any script of calls on a fresh ledger, each cut between its transactions, is a run made of exactly the transactions the calls come to, in order and at their times, and ends with the books tallied and owners within quota |
| Node.StorageNode.Put | internal/net/server.go:473-501 | Cut after any step, no claimed shard loses its bytes. Uncut, the claim is taken as the ledger stands: one that stood is redated, a new one is refused exactly when the owner has bytes and these would pass its cap, and is otherwise entered with its shard row and charge; a stripe with a grant is noted exactly for a new claim; an acknowledged claim is backed |
| Node.StorageNode.Delete | internal/net/server.go:641-661 | Cut after any step, no claimed shard loses its bytes; exactly the caller's claim and charge are dropped, a stranger is refused, the number of claims left is reported, and the last one to leave takes the bytes and then the record |
| Node.StorageNode.RunGC | cmd/revika-node/main.go:1008-1052 | Cut after any step, those of the closing reconcile included: no claimed shard loses its bytes; every record that had its bytes and is gone was due, that is, every claim on it had run out in the cycle before, at this one's start and at its turn, and is logged as dropped under two successive snapshots; bytes are freed only of due shards. With enough steps the cycle completes: it frees exactly the bytes that were due, keeps a record exactly where there are bytes, leaves every claim backed and remembers exactly the shards all of whose claims had run out; cut short it remembers none |
| Node.LapsedIffNotLive | internal/ledger/ledger.go:678-696 | A shard has no live owner exactly when every claim on it has a lease that ran out and leases count |
| Node.StorageNode.Release | internal/net/rebalance.go:294-299 | The bytes go and then the record with every claim; cut short it unbacks at most the claims of the one shard, completed none |
| Node.StorageNode.Run | cmd/revika-node/main.go:987-1001 | Over every script of PUT, DELETE and collector cycles, each cut anywhere and with restarts anywhere, every call is answered as its own contract says from the state the one before left, and in every state every claim's shard has its blob |
| RootRegister.Select | internal/net/root.go:108-127 | The winner is readable and beats every other readable record; an error exactly when none is readable |
| RootRegister.WinnerIs | internal/net/root.go:108-127 | A record wins exactly when it is readable and every other readable one has a lower number, or the same number and larger bytes |
| RootRegister.OrderDoesNotMatter | internal/net/root.go:108-127 | The same records in any order and number have the same winner |
| RootRegister.Staged | internal/net/root.go:242-261 | The winner of a group's winner and the rest is the winner of them all |
| RootRegister.StagedEmpty | internal/net/root.go:108-127 | A group with nothing readable changes no winner |
| RootRegister.Register.Put | internal/net/root.go:134-144 | The register keeps what it held or takes what was offered, never moves down and ends at or above what was offered |
| Commit.NextSeqAbove | cmd/revika-ctl/commands.go:515-518 | The next number exceeds both this device's and the published one exactly when neither is the largest 64-bit number, and is then one above the larger |
| Commit.WrappedNumber | cmd/revika-ctl/commands.go:515-518 | After the largest number comes zero, and a device behind the largest publishes below it |
| Commit.Device.CommitRoot | cmd/revika-ctl/commands.go:482-587 | Up to five attempts, each from what the one before published: it reads the register, folds in what is published exactly when its number is not below the last saved one, it is another root and its companion opens, publishes one above, and is beaten exactly when the register then holds another root. The first not beaten is saved; on failure nothing is, and it fails only for a shared or foreign root, when a root to fold in cannot be merged, or when all five were beaten; the register only moves up |
| Commit.NewerRootSaved | cmd/revika-ctl/commands.go:524-552 | A root published under a number not below the last saved one, and not that root, whose companion opens, is merged into what a commit saves, and every edit of it the merge keeps is found there; otherwise the tip itself is saved |
| Weighted.ScanMeans | internal/placement/weighted.go:52-63 | With a non-negative value the scan ends at the first maximum, otherwise at the last value |
| Weighted.ScanFindsMaxIff | internal/placement/weighted.go:52-63 | The scan finds a maximum exactly when some value is non-negative or the last one is a maximum |
| Weighted.PickIsMax | internal/placement/weighted.go:50-65 | From balanced running weights the pick is a true maximum |
| Weighted.PicksBalanced | internal/placement/weighted.go:26-67 | After every pick from a fresh selector the running weights sum to zero, each is the node's share less what it was picked for, and above minus the total weight |
| Weighted.NeverAhead | internal/placement/weighted.go:26-67 | After t picks a node was chosen fewer than its share of t plus one times |
| Weighted.ExactlyFair | internal/placement/weighted.go:26-67 | After every W picks each node was chosen exactly in proportion to its weight and the selector is as fresh |
| Weighted.DistinctCount | internal/placement/weighted.go:26-67 | Identifiers are distinct exactly when there are as many as nodes |
| Weighted.Selector.Pick | internal/placement/weighted.go:26-67 | One pick is one step of the model on the usable nodes with distinct identifiers, forgetting nodes that left; none usable is an error that changes nothing |
| Weighted.PickMany | internal/placement/weighted.go:26-67 | t picks by a fresh selector from the same nodes choose each as often as the model does: fewer than its share plus one, and exactly its share when t is a multiple of the total weight |
| Weighted.WeightByFree | internal/placement/weighted.go:76-86 | Only weights change; each is the whole number of units free, and never below one |
| Weighted.ShrunkenSetMisses | internal/placement/weighted.go:38-63 | After nodes leave, the scan can pass over the maximum |
| Rebalance.OffloadBounds | internal/placement/rebalance.go:47-68 | Nothing is shed inside the dead band; what is shed is held, fits the peer, and leaves this node at least half the gap above where it started over the peer |
| Rebalance.OffloadIsMost | internal/placement/rebalance.go:47-68 | Outside the dead band nothing more could be shed that is held and fits the peer without dropping below half the gap |
| Rebalance.PeerStripeLoad | internal/net/rebalance.go:320-339 | Below the limit the exact number of the stripe's other positions the peer holds; at the limit proof that it holds that many; no answer exactly when the peer must be asked, before the limit, for one it does not answer for |
| Rebalance.Rebalancer.PruneCooldown | internal/net/rebalance.go:356-364 | Forgets only moves whose cooldown is over |
| Rebalance.ClockForward | internal/net/rebalance.go:341-364 | The memory of recent moves stays good as time passes |
| Rebalance.Rebalancer.MoveOne | internal/net/rebalance.go:147-237 | A shard is moved exactly when its cooldown is over, it is held here, its stripe stays within the cap on the peer, the peer takes it, answers and has it, and both writes happen; the round stops exactly when such a shard is refused for quota or not proved. Cut after any step, and even if the peer lies about storing, every shard is still on some node; whatever became of the move, the target took nothing or this shard with at most M of its stripe |
| Rebalance.Rebalancer.RunOnce | internal/net/rebalance.go:110-241 | Rows are tried in order until the budget is spent, all have had their turn, one is refused or not proved, or the steps run out; each row tried is moved or is not held here, in cooldown, at its stripe's cap, or not taken or not answered for by the peer. No shard is lost, exactly the moved ones leave, all moves but the last fit the budget, none twice nor within its cooldown; of every stripe its rows agree on, the target ends with at most M shards or no more than before; nobody else's holdings change |
| RateLimit.Limiter.Prune | internal/net/ratelimit.go:120-135 | At most once per idle window, drops exactly the buckets idle that long and refilled |
| RateLimit.Allow | internal/net/ratelimit.go:82-113 | With no limiter or no key every request passes untouched; otherwise the answer and buckets are those of pruning and then charging |
| RateLimit.NewLimiter | internal/net/ratelimit.go:63-75 | No limiter for a disabled rate; otherwise one of that rate and a burst of at least one |
| RateLimit.Serve | internal/net/ratelimit.go:82-135 | Driven through any calls the limiter gives the answers the run lemmas speak of |
| RateLimit.PruningChangesNothing | internal/net/ratelimit.go:115-135 | Over any calls, clocks going back included, in which no key idle at a pruning comes back next with an earlier time, the pruning limiter answers every call as one that never prunes |
| RateLimit.RateIsHeld | internal/net/ratelimit.go:82-113 | Over such calls, for every key and every window, the number admitted is at most the burst plus the rate times the window, each call counted at the latest time its key has been called at |
| RateLimit.RefusedOnlyAtTheBound | internal/net/ratelimit.go:82-113 | A call is refused only if in some window ending with it one more admission would pass the bound |
| RateLimit.RateIsHeldForward | internal/net/subnetlimit.go:118-191 | With a clock that never goes back the same holds with each call counted at its own time |
| RateLimit.OneSecondOverfull | internal/net/ratelimit.go:101-107 | Concrete calls of one key whose clock goes back: counted at their own time more than the burst are admitted in one second |
| RateBounds.PruningLosslessIff | internal/net/ratelimit.go:115-135 | Over given calls pruning changes no answer, whatever the rate and burst, exactly when no key idle at a pruning comes back next with an earlier time |
| RateBounds.RateIsHeldIff | internal/net/ratelimit.go:82-135 | Over given calls the bound holds for every rate, burst, key and window exactly in that case |
| RateBounds.BackdatedOveradmits | internal/net/ratelimit.go:120-135 | Concrete calls in which a pruned key comes back with an earlier time: it is admitted where a kept bucket refuses, and more often than the bound |
| AuthCache.TokenCache.Seen | internal/net/authcache.go:49-68 | Sweeps at most once a minute, reports a replay exactly when the signature is remembered and unexpired, otherwise remembers it for twice the skew |
| AuthCache.TokenCache.Admit | internal/net/server.go:415-431 | A write passes exactly when its token verifies now and is not a replay |
| AuthCache.Serve | internal/net/server.go:415-431 | Driven through any uses the cache gives the answers the run lemmas speak of, so in time order a token passes twice only twice the skew apart |
| AuthCache.OncePerSpan | internal/net/authcache.go:49-68 | In any span shorter than twice the skew a token is accepted at most once |
| AuthCache.AcceptedAgainOnlyAtTheEdge | internal/net/authcache.go:49-68 | A second acceptance comes exactly twice the skew later, of a token stamped a full skew ahead |
| AuthCache.EdgeIsAccepted | internal/net/authcache.go:63-66 | There a token is accepted again |
| AuthCache.NeverThrice | internal/net/authcache.go:49-68 | No token is accepted three times |
| AuthCache.VerifiesNoLonger | internal/net/auth.go:80-82 | Once accepted, a token no longer verifies after twice the skew |
| AuthCache.SweepIsSafe | internal/net/authcache.go:53-60 | A sweep drops an accepted signature only when its token will never verify again |
| AuthCache.TwiceAtTheEdge | internal/net/auth.go:80-82 | A concrete token accepted twice |
| Erasure.LengthRoundTrip | internal/erasure/erasure.go:63-65 | Big-endian lengths read back |
| Erasure.AnyK | internal/erasure/erasure.go:58-117 | Of the shards of an encoded blob any K give the blob back exactly, and fewer are refused |
| Erasure.ShardLayout | internal/erasure/erasure.go:58-80 | The K data shards are of one length, the least that will do, and hold an eight-byte length, the blob and then fewer than K zeros |
| Erasure.MostSignificantFirst | internal/erasure/erasure.go:63-65 | Lengths are read most significant byte first |
| Pipeline.Fixed | internal/chunk/chunk.go:29-56 | The pieces concatenate to the input, all of the given size but a shorter last one, none empty; a non-positive size is an error |
| Pipeline.ShardStore.Put | internal/store/disk.go:37-85 | The bytes' own address, and what already stood there is left alone |
| Pipeline.ShardStore.StoreChunk | internal/pipeline/pipeline.go:124-185 | Succeeds exactly for at least one data and one parity shard and at most 256 in all; the recipe describes the chunk and every shard of it is stored |
| Pipeline.Pack | internal/pipeline/pipeline.go:127-142 | A chunk is compressed exactly when that is asked for and makes it smaller |
| Pipeline.ShardStore.StoreFile | internal/pipeline/pipeline.go:78-92 | The manifest describes pieces that make up the input, with its size, and every shard is stored; fails exactly for a bad chunk size, or bad parameters and some input |
| Pipeline.ChunkLoadsIff | internal/pipeline/pipeline.go:221-245 | A stored chunk loads, and loads exactly, when at least K of its shards read back; otherwise it is refused |
| Pipeline.LoadFile | internal/pipeline/pipeline.go:208-219 | Whatever became of the store, a stored file is written back exactly when every chunk has K shards that read back; otherwise only a prefix of it is written |
| Repair.Check | internal/repair/repair.go:69-87 | Each status lists exactly the positions without a blob; healthy exactly when there is none |
| Repair.RepairChunk | internal/repair/repair.go:109-158 | Succeeds exactly when K shards read back; then every address of the chunk has a blob and nothing else changed; otherwise nothing changed |
| Repair.ReadsBackIff | internal/repair/repair.go:146-156 | After a repair a shard reads back exactly when it had not been corrupt |
| Repair.SealedOf | internal/repair/repair.go:135-145 | A stored file's chunks each code some sealed bytes, so what repair needs to know of them holds |
| Repair.RepairFile | internal/repair/repair.go:94-107 | Nothing stored changes, every recoverable chunk is restored under its original addresses, the report is that of the store as it ends, without an error it is healthy, and if all were recoverable there is no error |
| Repair.CleanStoreIsMadeWhole | internal/repair/repair.go:94-158 | In a store with no corrupt blob every shard of a repaired chunk reads back |
| Witness.CorruptBlobStays | internal/repair/repair.go:146-156 | A concrete chunk with a corrupt blob: every repair of it succeeds and that shard still does not read back |
| Witness.CodecsExist | internal/pipeline/pipeline.go:124-245 | Some hash, seal, compression and code meet all the laws the data path rests on |
| Witness.CodecExists | internal/manifest/root.go:69-89 | Some signing and decoding of root records meet the laws the commit rests on |

## Left out

- The libp2p host, DHT client, stream framing, relaying and connection gating: plumbing over libraries not modelled.
- AES-GCM, ML-KEM, Ed25519, Argon2id, SHA-256, DEFLATE and the Reed-Solomon arithmetic: parameters with laws.
- SQL text, drivers and migrations; JSON, hex and base64 codecs; at-rest encryption; key files; configuration.
- Metrics, admin pages, logging, progress display and command-line flags: no property beyond a single body.
- Interleaving of two requests on one shard, and of two opposite moves of one shard: handlers take no lock across their steps, so requests run one at a time and are cut by crashes instead.
- I/O failures other than a crash, a lost or corrupt shard, and a shard that cannot be deleted, except where a row says so.
- Content-defined chunking, round-robin and spread placement, the abuse monitor, device records: smaller, or not on these paths.
- Graft.Graft: paths are lists of components; splitting a string at its slashes is not modelled, and cleaning is modelled for renames only.
- Reclaim.Revoke: copies already downloaded are outside the model, caps with fewer than one data shard, which nothing stores, are outside the statement, and that something outside the path is needed is stated by key, that it suffices by cap.
- DiffCode.DiffRoots: one loop over the names of both sides stands for the two loops, so the order of the report is not modelled.
- Forks.RemoteEditsCommitted: stated for an edit whose cap base does not already have where it is carried.
- MergeNaive.PruningPreservesTree: directory attributes and cached entry attributes are not compared, only paths, kinds and leaf caps.
- SyncFailures.BaseTruthfulIff: stated from regular states, as the results on a pass are.
- SyncCode.Replicas.DeleteRemote: one that fails early is taken to have made none of the directories above its path; in a plan they are there.
- SyncPass.OnePass: a path that is a directory on one side and a leaf on the other is outside the statement; such a mismatch is a conflict the code may never settle.
- SyncCode.Replicas.Upload: the cache of remote directory identifiers is left out; every lookup walks from the root.
- SyncCode.Replicas.Download: a link to a directory on the way to a path counts as a leaf in the way; ignored paths and file attributes other than the link flag are not part of the trees.
- LedgerCode.LedgerDB.AddOwner: the size given is the length of the content behind the address, as every caller passes it; 64-bit overflow of byte totals is not modelled.
- Ledger.EffectiveQuotaGrows: reals stand for the source's floating point.
- Node.StorageNode.Put: the authorization that precedes it (token, replay, proof of work, rate) is modelled apart, in AuthCache and RateLimit.
- Node.StorageNode.RunGC: a failing database call or blob delete inside a cycle, after which the source goes on with the next shard, is not modelled.
- RateLimit.Allow: reals stand for floating point, and the masking of an address to its subnet is left to the caller, who passes the key.
- Rebalance.Rebalancer.RunOnce: the target is given; sampling peers for it, and a release that fails and leaves the shard stored twice, are not modelled.
- Commit.Device.CommitRoot: publishes and reads of the register succeed; what other devices store and how each companion record opens are parameters per attempt, and the fallback to a purely local commit is left out.
- Weighted.Selector.Pick: the statement is for distinct identifiers; with repeated ones only the error case is stated.
