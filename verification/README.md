# A Dafny model of the 115tools synchroniser

The program mirrors a local directory tree to a cloud drive and back. It plans by comparing the
local tree with an index of what it has sent (`internal/mirror/plan.go`), executes the plan phase
by phase (`internal/mirror/apply.go`), keeps the index in an ordered key-value bucket
(`internal/store/index.go`), and schedules its work through a merging queue
(`internal/engine/queue.go`). This project models those parts, and the smaller exact cores beside
them, and proves what they promise. `dafny verify dfyconfig.toml` checks everything.

## How the model is laid out

| file | what it models |
|---|---|
| `Bytes.dfy`, `Numerals.dfy` | byte strings in the order of `bytes.Compare`; positional numerals |
| `Records.dfy`, `Index.dfy` | the record codec; the bucket as a sorted key sequence with a cursor |
| `Model.dfy`, `Plan.dfy`, `Planner.dfy` | vocabulary; what the scan decides; the scan as loops over a consumed listing |
| `Decisions.dfy` | for every operation exactly when it is planned, kind by kind |
| `Apply.dfy` | every operation as a function on a `World` with a log of what it asked the cloud, and as a method of a class with mutable fields |
| `Paths.dfy` | why component paths and string keys name the same records |
| `Rounds.dfy`, `Converge.dfy` | where a scan starts; plan, apply, plan again with STRM generation off |
| `NoOscillation.dfy`, `Sweeps.dfy`, `Replacements.dfy` | with STRM generation on or off, what the next plan does to what a round recorded: names, clears, replaces |
| `CloudFiles.dfy` | which cloud files a plan removes or recycles by FID, and when one is a file just recorded |
| `CloudSync.dfy`, `CloudRounds.dfy`, `Downloads.dfy` | planning from a cloud snapshot and indexing it, loop by loop and item by item; download rounds and the local plan after them |
| `Safety.dfy`, `Orphans.dfy`, `Removals.dfy` | what a round can lose, whatever the cloud answers; when a record gives up its FID; what a round asks the cloud to delete or recycle |
| `VideoLinks.dfy`, `LinkPlans.dfy` | which link a removed video ends with, from the run and from the plan alone |
| `Inputs.dfy` | concrete starts on which a round does not leave everything in place |
| `Queue.dfy`, `Wakeup.dfy` | the queue and its history; the wake-up protocol and the debouncer as interleaved steps |
| `Torrent.dfy`, `Torrent64.dfy`, `Pickcode.dfy`, `Upload.dfy`, `LogFeed.dfy`, `Activity.dfy`, `Config.dfy` | the exact cores |

The planner works on paths as component sequences below the task's local root; the same components
name the cloud path. `Paths.dfy` proves that for a cleaned root and proper names this is the string
index seen from one task, `ClearTree`'s early stop included. A root typed with a separator at the end (`/` itself among
them) finds its own record among its children, and its scan plans to clear the cloud root
(`Paths.RootIsClearedExactly`), and a root typed with dots or repeated separators finds none of its files there
(`Paths.EntryIsListedExactly`) and sends them again (`Paths.UncleanRootSendsAgain`); the planner theorems are about the
other roots. A `char` stands for one byte. The local
tree is a finite map; the cloud's answers are arbitrary functions of the call number, so any call may fail unless a theorem
says otherwise. Loops and in-place updates are methods, each proved equal to a function of its
inputs or its old state; the theorems are about those functions.

## Main results

* **The plan, exactly** (`Decisions.PlannedExactly`): for every tree, index and operation, the operation is in the local
  plan *if and only if* some path in scope wants it, said per kind of operation from the entry, the record and the
  links' address alone; which keys of missing links are left to a video is exact too (`Decisions.LeftExactly`). A
  snapshot's plan is exact in content and order (`CloudRounds.CloudPlanExactly`).
* **What is deleted for good** (`Removals.RoundIsJustified`): over a whole local round, any call free to fail, a delete
  request names the FID of one record that is no link, a recycling request only FIDs recorded as links, and a move or
  rename the video of a planned adoption. A cloud file that the index knows as the video of a link is never deleted
  (`Removals.LinksAreNeverDeleted`).
* **One round converges** (`Converge.OneRoundConverges`). With STRM generation off and all calls
  answered, for every tree and index, planning again after applying a plan yields nothing *if and only if*
  every planned adoption and normalisation lasts (its pickcode decodes and the link it writes reads back)
  and the plan misses no path: one that was up to date, whose record goes with a clear above it, and that is
  no directory a planned write passes through. Both halves are conditions on the start.
* **No oscillation**. With STRM generation on or off, names that fit and pickcodes that read back, no
  operation of the next plan names a path the round recorded, whichever calls fail
  (`NoOscillation.NothingRecordedIsNamedAgain`). A recorded path is *cleared* from above if and only if a directory
  above it is still indexed as something else (`Sweeps.SweptExactlyByConflicts`), which cannot be when the removals of
  the round were accepted (`Sweeps.NothingRecordedIsSwept`). A recorded link is *replaced* if and only if a large local
  video of its stem still waits (`Replacements.ReplacedExactlyByVideos`), which cannot be when its upload succeeded
  (`Replacements.SentRoundIsFinal`). `Inputs.RefusedClearExample` and `Inputs.AdoptedLinkIsReplacedExample` are rounds
  where one of the two happens. These statements are about paths. A cloud file is removed by its FID, and **a plan takes
  a FID** *if and only if* a record that carries it does not describe what is at its path, or is the link of a large
  local video (`CloudFiles.FidTakenExactly`). So the next plan takes a file that the round has just recorded, or a folder
  above it, exactly when an old record elsewhere carries the same FID and is cleared, or a link that carries it is
  replaced (`CloudFiles.RecordedFileIsTakenExactly`): an upload answered with a known FID loses its only copy that way,
  every call granted (`Inputs.ReusedFidExample`). With removals accepted and uploads successful it takes none when no
  such record is left over (`CloudFiles.RecordedFilesAreSafe`), for which it is enough that the records the plan does
  not clear have FIDs of their own, new to the round (`CloudFiles.NewFidsHaveNoTwin`).
* **What a failure costs.** An index record disappears only with a clear at or above its path that asked the cloud and
  had every call accepted (`Safety.RecordsLeaveOnlyWithConsent`). It changes its FID only when an operation writes its
  key (`Orphans.FidLeavesExactly`). The first step that takes a FID is an accepted removal of it or of a folder above it,
  a swap that had it recycled, an overwrite that leaves the cloud file with nothing that knows it, or a clear of some
  other record above it, which sweeps the record and leaves the file (`Orphans.FidIsKeptOrOrphaned`). For a record from
  before a local round the overwrite takes a refused removal at the same path (`Orphans.OrphanMeansRefusal`,
  `Inputs.OrphanedCopyExample`). A local file leaves only as a large video
  whose upload succeeded, or as the target of a transfer that breaks off (`Safety.FileLeavesForLink`); a local round
  takes nothing else away (`Safety.RoundKeepsFiles`), and a download round nothing that was there before it
  (`Downloads.ExistingFilesStay`). What cannot be read is not taken for deleted (`Safety.UnreadableIsNotDeleted`).
* **The link of a removed video** and its record are those of its own upload at the end of the round *if and only if* no
  later operation that writes the same link has the last word there (`VideoLinks.RemovedVideoKeepsItsLink`); with every
  call granted, if and only if no later operation of the sorted plan rewrites it (`LinkPlans.LastWordOnThePlan`).
  `a.mkv` beside `a.mp4` lose one upload (`Inputs.TwoVideosExample`).
* **Indexing a snapshot** stores each item's own FID (`CloudRounds.IndexedExactly`), and its folders are then found without a
  call (`CloudRounds.IndexedFoldersAreFound`). **Cross-direction quiet** (`CloudSync.IndexedImageIsQuiet`): after indexing any cloud snapshot, its local
  image is quiet exactly when links are generated or the snapshot shows no video; with link generation
  off the code records videos as links all the same and would send every one again.
* **Download rounds**, with every call free to fail. The local planner leaves what was downloaded alone (names no
  downloaded path, replaces no downloaded link, clears nothing at or above one, and only creates the new folders in the
  cloud) *if and only if* no new folder and no directory above a download is indexed as something else, no
  large local video claims a downloaded link, and no download was lost again (`Downloads.LeftAloneUnlessInTheWay`; with
  the conflicts read from the index before the round, less those that an accepted drop takes,
  `Downloads.DownloadsAreLeftAlone`). A download is lost exactly when a later
  transfer to its place breaks off (`Downloads.LostExactly`), never when the snapshot has one file per place
  (`Downloads.DistinctPlacesLoseNothing`). Inputs that fail: `Inputs.FolderForFileExample`,
  `Inputs.RivalVideoExample`, `Inputs.BrokenDoubleExample`. A round left alone has one of its cloud files, or a
  cloud folder that holds one, taken by the next local plan *if and only if* an old record elsewhere carries that FID and
  is cleared or replaced (`Downloads.DownloadedFidsAreSpared`), as after a move in the cloud (`Inputs.MovedItemExample`,
  `Inputs.MovedFolderExample`).
  A local file whose stale double is in the cloud keeps its record *if and only if* no drop that reaches it is accepted
  (`Downloads.SurvivorIsKeptUnlessDropped`, `Inputs.StaleDoubleExample`). The round ends with one call that recycles the
  archived folders, exactly when there is one (`CloudRounds.ArchivesAtTheEnd`).
* **The skip-scan refines a filter** (`Index.Bucket.Children`), it ends exactly when no key below the prefix has a
  0xFF after its first separator (`Index.WalkEndsExactly`), and **a tree clear removes exactly**
  the path and, unless some key lies strictly between `p` and `p/`, everything below it (`Index.Bucket.ClearTree`).
* **No lost wakeup** in any interleaving (`Wakeup.NoLostWakeup`, `Wakeup.SleeperGetsTheJob`), and the
  queue agrees with a hand-kept ledger over every history (`WorkQueue.QueueFollowsLedger`); a job is handed out as manual, else
  as cron, else as watch, whenever it was offered so (`WorkQueue.HandedOutTrigger`).
* **Round trips**: bencode (`Torrent.SkipPrinted`, `Torrent.ParsePrinted`; the 64-bit parser panics exactly when a length
  it reads overflows, `Torrent64.ParsePanicsExactly`), pickcodes in both
  directions (`Pickcode.DecodeAfterEncode`, `Pickcode.EncodeAfterDecode`), records in both directions.
* **Task isolation** over every run of edits (`Config.TasksAreIsolated`), exact up to the root directory
  (`Config.OverlapIsExact`, `Config.RootTaskIsNotIsolated`) and up to directories typed with dots
  (`Config.ClearReachesExactly`, `Config.DottedDirectoryIsReached`).

Where the code and its comments disagree, the model follows the code. `Since` is documented to return
the entries numbered above its argument; the code also returns the entry with that number when it is the
oldest one in the buffer (`LogFeed.SinceIsExact`, `LogFeed.SinceRepeatsTheOldest`). `BuildIndex` is
documented to record videos as plain files when links are off; it records them as links. `drop` is
documented to move the videos of a directory away first; with a FID in the operation it deletes the
directory at once.

## Model

| member | source | states |
|---|---|---|
| `Records.DecodeAfterEncode` | internal/store/index.go:81-107 | every record with a 64-bit size and a FID of at most 65535 bytes is read back as it was written |
| `Records.EncodeAfterDecode` | internal/store/index.go:92-107 | every byte string the decoder accepts is the encoding of the record it returns |
| `Records.WireFormat` | internal/store/index.go:72-90 | the stored bytes one by one: version 2, the kind's number, size and FID length with the most significant byte first, FID, pickcode |
| `Records.LongFidIsLost` | internal/store/index.go:81-90 | the 16-bit length field is the exact limit of the round trip |
| `Index.JumpMovesForward` | internal/store/index.go:271-276 | the jump target sorts after the key exactly when the byte after the separator is not 0xFF |
| `Index.JumpPassesDescendants` | internal/store/index.go:271-276 | every key a jump passes over lies inside the subtree |
| `Index.FilterMeaning` | internal/store/index.go:60-61 | the plain filter over all records lists each direct child once, in byte order, with the record stored under its full key |
| `Index.ListingsDifferByTheEmptyName` | internal/mirror/plan_test.go:27-39 | the plain-map index of the planner's tests lists the same names, except an empty one for a record at the prefix itself |
| `Index.Bucket.Get` | internal/store/index.go:112-126 | a record is found exactly when the stored value decodes |
| `Index.Bucket.Put` | internal/store/index.go:138-144 | the bucket stays sorted and the index changes at that path only |
| `Index.Bucket.Seek` | internal/store/index.go:251-256 | the first position whose key is not below the target |
| `Index.Bucket.Children` | internal/store/index.go:147-172 | where it terminates, the cursor walk with subtree jumps returns what the filter over all keys returns, in key order |
| `Index.WalkEndsExactly` | internal/store/index.go:251-276 | the walk over a sorted bucket terminates if and only if no key below the prefix has a 0xFF after its first separator |
| `Index.Bucket.ClearOne` | internal/store/index.go:213-237 | deleting from `Seek(p)` removes exactly `p` and, unless a key lies between `p` and `p/`, everything below |
| `Index.Bucket.ClearTree` | internal/store/index.go:213-237 | several paths are cleared one after the other |
| `Index.DeletedRun` | internal/store/index.go:217-234 | the contiguous run the loop deletes is exactly the doomed key set |
| `Paths.KeyInjective` | internal/mirror/plan.go:124-124 | different component paths have different string keys |
| `Paths.KeyBelow` | internal/store/index.go:242-247 | a path lies below another exactly when its key extends the other's directory prefix |
| `Paths.ChildrenRefine` | internal/store/index.go:147-172 | the children found among string keys are the children of the component path, with their records, and an empty name for the record of a root that ends in a separator |
| `Paths.RootIsClearedExactly` | internal/mirror/plan.go:120-136 | with the root's record in the index, the scan of the root plans a clear of the root's FID at the root itself if and only if the directory as typed ends in a separator |
| `Paths.SlashRootExample` | internal/conf/task.go:121-123 | `/a/` passes validation, and with only the root's record indexed the plan drops the cloud root |
| `Paths.EntryIsListedExactly` | internal/mirror/plan.go:120-125 | the key that `filepath.Join` makes for a name in the root is listed for the root as typed if and only if that is clean but for separators at its end |
| `Paths.NothingIsListed` | internal/store/index.go:147-172 | under a root that is not typed clean the listing shows no clean key, of whatever depth |
| `Paths.UncleanRootSendsAgain` | internal/mirror/plan.go:140-147 | so every plain file of such a root is in the plan as an upload, recorded or not |
| `Paths.DottedRootExample` | internal/conf/task.go:121-123 | `/a/../b` passes validation, and its unchanged, recorded file `f` is sent again |
| `Paths.ClearTreeRefines` | internal/store/index.go:213-237 | clearing string keys is clearing component paths, early stop included |
| `Paths.PutRefines` | internal/store/index.go:138-144 | writing a key is writing the component path |
| `Model.StemTrims` | internal/mirror/strm.go:14-21 | the stem is what `strings.TrimSuffix` leaves of a name and its extension |
| `Model.StrmNameIsStrm` | internal/mirror/strm.go:14-21 | a converted video name is a link name of the same stem |
| `Model.ExtExactly` | internal/mirror/strm.go:14-21 | the extension is the last dot and what follows it, or nothing without a dot |
| `Model.IsStrmExactly` | internal/mirror/strm.go:14-16 | a link's name ends in a dot and the letters s, t, r, m of either size |
| `Model.IsVideoExtExactly` | internal/mirror/model.go:178-181 | a video's extension, in small letters, is in the list |
| `Model.ContentIsLinkText` | internal/mirror/strm.go:23-26 | a text is the link for a pickcode if and only if it is the configured address without the slashes at its end, `/download?pickcode=` and the pickcode |
| `Plan.ScanNamesDistinct` | internal/mirror/plan.go:120-147 | no name of a directory is decided twice |
| `Plan.PlanDirSound` | internal/mirror/plan.go:107-185 | every planned operation is the decision about one path in the scope of the scan, and that path is not left to a local video |
| `Plan.PlanDirComplete` | internal/mirror/plan.go:107-185 | with every directory readable, each decision about a path in scope is planned, links on or off, except at a missing link that the scan leaves to a local video of the same stem |
| `Plan.QuietScanIsEmpty` | internal/mirror/plan.go:107-149 | a plan is empty when no path in scope asks for anything |
| `Decisions.DecidedExactly` | internal/mirror/plan.go:154-283 | an operation, with all its fields, is decided for a path if and only if the entry there and the records at it and at its link's key call for it |
| `Decisions.PlannedExactly` | internal/mirror/plan.go:107-283 | the plan holds exactly the operations that some path in scope calls for, keys left to a video set aside |
| `Decisions.ClearsGoByKind` | internal/mirror/plan.go:318-324 | a planned clear names the FID of the record at its path, and is a recycling exactly when that record is a link |
| `Decisions.ExcludedIsLeftOut` | internal/mirror/plan.go:351-367 | what is excluded by name, the cache directory, and all below them are never sent, adopted, rewritten or created |
| `Decisions.LeftExactly` | internal/mirror/plan.go:285-306 | an indexed key is left to a video exactly when it is a missing link's, links are on, and a listed video of its stem is not indexed or sorts after it |
| `Planning.CoveredByLocal` | internal/mirror/plan.go:292-306 | the search over the names not yet consumed finds a video of the same stem exactly when there is one |
| `Planning.Planner.PlanLocal` | internal/mirror/plan.go:24-27 | an error exactly when the scan meets an unreadable directory, otherwise the whole plan, whose content `Decisions.PlannedExactly` gives |
| `Planning.Planner.PlanFile` | internal/mirror/plan.go:33-45 | a listed path gets the answer a full scan gives it, an excluded one the same decision, a missing one is decided as missing, an unreadable one is an error |
| `Planning.Planner.DecidePath` | internal/mirror/plan.go:154-185 | the decision, followed by the plan of the directory |
| `Planning.Planner.ScanDir` | internal/mirror/plan.go:107-149 | the in-order concatenation of the answers for each name, minus the keys claimed by a video not yet consumed |
| `Planning.Planner.ScanChildren` | internal/mirror/plan.go:122-137 | the loop over indexed names consumes exactly those names and keeps answers plus remaining plan equal to the plan |
| `Planning.Planner.ScanRest` | internal/mirror/plan.go:140-147 | the loop over new local names completes the plan |
| `Apply.SortIsStable` | internal/mirror/apply.go:45-46 | a list is in phase order and keeps the plan order within each phase exactly when it is the sorted list |
| `Apply.PhasesInOrder` | internal/mirror/model.go:67-82 | clears, then folders, then uploads and adoptions, then downloads and normalisations, then archives |
| `Apply.Applier.Ensure` | internal/mirror/cloud.go:49-77 | walks down the components; every request creates a folder that the index does not know, in the folder recorded above it; what is created is recorded |
| `Apply.Applier.UploadFile` | internal/mirror/apply.go:108-139 | a vanished file is skipped; a failure keeps files and known records; success records a plain file with its size, or swaps a video for its link; the requests are the missing folders, one transfer into the file's folder, and one recycling of another old video |
| `Apply.Applier.SwapForLink` | internal/mirror/apply.go:143-176 | a failure changes neither files nor index; success leaves the link's text under the configured address and the record of the new upload, takes the original away, and counts an old video as deleted exactly when its FID differs |
| `Apply.Applier.MoveIntoPlace` | internal/mirror/apply.go:192-206 | one to three requests: the video moves into the folder, is renamed to the link's name without its ending, and once more exactly when the cloud's name has an extension that makes it another one; nothing else changes |
| `Apply.Applier.AdoptLink` | internal/mirror/apply.go:179-214 | link text and record in step and counted, or nothing changed but new folder records; the requests are the missing folders, then those of the move |
| `Apply.Applier.NormalizeLink` | internal/mirror/apply.go:218-224 | only that one file changes, into the link for the pickcode it held |
| `Apply.Applier.DownloadFile` | internal/mirror/apply.go:229-255 | other files stay; a failure leaves index and counters alone and takes the target away exactly when the transfer breaks off after the create; success leaves file and record that agree |
| `Apply.Applier.RetireVideos` | internal/mirror/apply.go:260-276 | no local file is touched; one request recycles the FID, or without one the links at the path and below; the tree is cleared and each counted only after success |
| `Apply.Applier.DropItem` | internal/mirror/apply.go:279-301 | the same with deletion: one request with a FID, without one the links below are recycled first and the item deleted unless that is refused |
| `Apply.Applier.Execute` | internal/mirror/apply.go:69-97 | every kind of operation keeps its promise and makes its requests, and exactly a failure is counted as one |
| `Apply.Applier.ApplyPlan` | internal/mirror/apply.go:44-66 | the sorted operations one after the other, archives in bulk at the end |
| `Apply.EnsureGrows` | internal/mirror/cloud.go:49-77 | only directory records are added, and on success every ancestor has one |
| `Apply.EnsureAgreesWithCloud` | internal/mirror/cloud.go:49-77 | the cache agrees with the cloud: the mapped folder's FID, agreement kept, every ancestor recorded, a second call free and equal |
| `Converge.WorkTouches` | internal/mirror/apply.go:102-224 | an operation changes its own path, may add folder records above it, and nothing else |
| `Converge.PlanDirCount` | internal/mirror/plan.go:107-149 | a plan holds at most one writing operation per path |
| `Converge.AncestorsRecorded` | internal/mirror/cloud.go:49-77 | a write that goes through leaves every folder above it recorded |
| `Converge.PlannedAgain` | internal/mirror/plan.go:174-185 | an operation that does not last leaves its path to be planned again, and a missed path is planned as if the round had only cleared |
| `Converge.LastingRoundConverges` | internal/mirror/apply.go:44-66 | when every operation lasts and no path is missed, the second plan is empty |
| `Converge.OneRoundConverges` | internal/mirror/plan.go:107-284 | plan, apply, plan again is empty if and only if every planned link operation lasts and no path is missed, for every tree and index |
| `Converge.UnburiedRound` | internal/mirror/plan.go:107-284 | with no record below a directory indexed as something else, the condition is the soundness of the links alone |
| `Converge.BuriedRecordIsSentAgain` | internal/mirror/plan.go:174-185 | a record below a directory indexed as a file is lost with the clear, and its unchanged file is sent again |
| `NoOscillation.WorkCalm` | internal/mirror/apply.go:69-97 | every operation, failing or not, keeps index, tree and record of all recorded paths in step |
| `NoOscillation.NothingRecordedIsNamedAgain` | internal/mirror/plan.go:202-264 | no operation of the next plan names a path the round recorded; a replaced video is at most cleared, never sent again; a link is replaced only from a large local video that is still there |
| `Sweeps.SweptExactlyByConflicts` | internal/mirror/plan.go:174-185 | with any call free to fail, a recorded path is cleared by the next plan, at its path or above, if and only if a directory above it is still indexed as something else |
| `Sweeps.NothingRecordedIsSwept` | internal/mirror/apply.go:44-66 | when the removals of a round are accepted, the next plan neither names nor clears, at its path or above, anything the round recorded, and replaces a recorded link only from a large local video that is still there |
| `Replacements.ReplacedExactlyByVideos` | internal/mirror/plan.go:237-264 | the next plan replaces a recorded link, by an operation at `p`, if and only if a large video of that link still waits at `p`; the operation names the recorded FID |
| `Replacements.SentRoundIsFinal` | internal/mirror/apply.go:108-162 | when removals are accepted and video uploads succeed, the next plan names, clears and replaces no path the round recorded, and sends no large video |
| `CloudFiles.FidTakenExactly` | internal/mirror/plan.go:154-283 | a plan removes or recycles the cloud file of a FID if and only if a record that carries it does not describe what is at its path, links on or off, or is the link of a large local video |
| `CloudFiles.RecordedFileIsTakenExactly` | internal/mirror/apply.go:279-301 | with any call free to fail, the next plan takes a cloud file the round recorded, or a folder above it, if and only if a record with that FID that the round did not write is cleared, or a link with that FID is replaced |
| `CloudFiles.RecordedFilesAreSafe` | internal/mirror/apply.go:260-301 | with removals accepted and video uploads successful, it takes none of them when no unwritten record elsewhere carries such a FID |
| `CloudFiles.NewFidsHaveNoTwin` | internal/mirror/apply.go:108-206 | no such record is left when, of the records the plan does not clear, no two share a FID and none has one that an answer or an adopted link of the round brings |
| `Inputs.ReusedFidExample` | internal/mirror/apply.go:146-176 | a large video indexed as a plain file, its upload answered with the known FID, every call granted: the next plan removes the only copy |
| `Inputs.AdoptedLinkIsReplacedExample` | internal/mirror/plan.go:237-264 | a link is adopted beside a large video whose upload is refused: the next plan replaces the adopted video |
| `Inputs.RefusedClearExample` | internal/mirror/apply.go:279-301 | a refused removal at a directory indexed as a file: the next plan clears above the file just recorded |
| `Safety.ForgettingNeedsConsent` | internal/mirror/apply.go:260-301 | an operation that removes a record is a clear at or above it that made calls and had every one accepted |
| `Safety.RecordsLeaveOnlyWithConsent` | internal/mirror/apply.go:44-66 | over a whole run, a key that is gone from the index was removed by one operation: a clear at or above it, with every call of that operation accepted |
| `Orphans.FidLeavesExactly` | internal/mirror/apply.go:69-97 | in a step of a run a record loses its FID if and only if the step is a confirmed clear at or above it or stores another FID under its key |
| `Orphans.SwapAsksFirst` | internal/mirror/apply.go:143-162 | a swap that goes through had the call after its upload, the recycling of the old video, accepted, and made no further one |
| `Orphans.FidIsKeptOrOrphaned` | internal/mirror/apply.go:44-66 | a FID that is gone from its record left in a first step: a confirmed clear at its path or of a folder above it, a swap whose recycling was accepted, an overwrite that asked for no removal, or a confirmed clear of something else above it |
| `Orphans.RemovalNamesTheFid` | internal/mirror/plan.go:279-283 | in a planned local round the clear that takes an old record names the FID recorded at the clear's own path, at the record itself the FID that was lost |
| `Orphans.OrphanMeansRefusal` | internal/mirror/plan.go:279-283 | in a local round a record from before it is overwritten without a removal only after the planned removal at its path did not go through |
| `Removals.RoundIsJustified` | internal/mirror/apply.go:44-66 | with any call free to fail, every delete request of a local round names one record that is no link, every recycling only link records, every move and rename a planned adoption, every transfer a planned upload |
| `Removals.LinksAreNeverDeleted` | internal/mirror/plan.go:318-324 | no request deletes a FID that only links carry |
| `Inputs.OrphanedCopyExample` | internal/mirror/plan.go:279-283 | a changed file, its removal refused and its upload granted: the old cloud copy is left with no record |
| `Safety.FileLeavesForLink` | internal/mirror/apply.go:143-176 | the only file an operation takes away is a video it has uploaded, with link and record of an upload among that operation's own calls in its place, or the target of its own broken transfer |
| `Safety.RoundKeepsFiles` | internal/mirror/apply.go:107-176 | a planned round takes away only videos of at least the threshold size, with links on |
| `VideoLinks.RemovedVideoKeepsItsLink` | internal/mirror/apply.go:143-176 | every removed video has link and record of its own upload at the end of the round if and only if no later writer of its link leaves another record there last |
| `VideoLinks.UnsharedLinkIsKept` | internal/mirror/strm.go:14-21 | a removed video whose link no other planned path writes ends with its own link |
| `VideoLinks.SharedLinkLosesAnUpload` | internal/mirror/strm.go:14-21 | of two removed videos that share a link, at least one ends without its own |
| `LinkPlans.LastWordOnThePlan` | internal/mirror/apply.go:44-66 | with every call granted and no two answers alike, a removed video ends with its own link if and only if no later operation of the sorted plan rewrites it |
| `Inputs.TwoVideosExample` | internal/mirror/strm.go:14-21 | `a.mkv` and `a.mp4`, every call granted: both originals go and one upload is left without link and record |
| `Safety.UnreadableIsNotDeleted` | internal/mirror/plan.go:326-340 | an entry that cannot be examined is never cleared for that; the one exception is a link key the index holds for something else |
| `CloudSync.PlanCloudTree` | internal/mirror/plan.go:53-92 | the two loops produce one decision per item, then the archive operations, whose content and order `CloudRounds.CloudPlanExactly` gives |
| `CloudSync.LocalSideWins` | internal/mirror/plan.go:56-83 | a cloud file is downloaded exactly when its place is free and never indexed, dropped exactly when it is a stale double of a local file |
| `CloudSync.BuildIndex` | internal/mirror/scan.go:145-169 | the loop writes one record per item, videos under the link's key when links are generated; `CloudRounds.IndexedExactly` says which |
| `CloudRounds.CloudPlanExactly` | internal/mirror/plan.go:53-92 | a snapshot's plan holds exactly the downloads, drops and archives its items call for, all fields given; files first, then the top folders, each in snapshot order and once |
| `CloudRounds.ArchivesAtTheEnd` | internal/mirror/apply.go:53-66 | the round ends with one request that recycles the top folders with a FID, exactly when archiving is on and there is one; accepted, it counts them all |
| `CloudRounds.IndexedExactly` | internal/mirror/scan.go:145-169 | the last item under each key is recorded with its own FID, a file with its pickcode and size, under its kind; other keys are untouched |
| `CloudRounds.IndexedFoldersAreFound` | internal/mirror/cloud.go:49-77 | after indexing, ensuring a folder of the snapshot makes no call and returns that folder's FID |
| `CloudSync.IndexedImageIsQuiet` | internal/mirror/scan.go:145-169 | the local image of an indexed snapshot, several items of one path allowed, plans to nothing if and only if links are generated or no video is the last item of a path that a scan reaches |
| `Downloads.LeftAloneUnlessInTheWay` | internal/mirror/plan.go:53-92 | the local planner leaves a download round alone if and only if no new folder and no directory above a download is indexed as something else when it ends, no download was lost again, and no large local video claims a downloaded link |
| `Downloads.DownloadsAreLeftAlone` | internal/mirror/plan.go:53-92 | the same with conflicts read from the index before the round, less those whose record an accepted drop takes; no drop does when nothing in the snapshot lies below a file |
| `Downloads.LostExactly` | internal/mirror/apply.go:353-367 | a downloaded file is gone at the end if and only if a later transfer to its place broke off after it and no still later one landed |
| `Downloads.DistinctPlacesLoseNothing` | internal/mirror/plan.go:56-83 | with one file per place no download is lost, whatever the transfers do |
| `Downloads.ExistingFilesStay` | internal/mirror/plan.go:66-74 | a file that could be examined before a download round is there unchanged after it |
| `Downloads.DownloadedFidsAreSpared` | internal/mirror/plan.go:166-171 | the plan after a round left alone takes a FID of a downloaded item, or of a cloud folder that holds one, if and only if an old record not above any download carries it and is cleared or replaced; none when no such record carries one |
| `Inputs.RivalVideoExample` | internal/mirror/plan.go:237-264 | every call granted, and the next local plan uploads `a.mkv` in place of the downloaded video behind `a.strm` |
| `Inputs.BrokenDoubleExample` | internal/mirror/apply.go:353-367 | two cloud files of one name: the broken second transfer takes the first file away, and the next local plan drops it in the cloud |
| `Inputs.MovedItemExample` | internal/mirror/plan.go:166-171 | an item moved in the cloud is downloaded, and the next local plan drops it under its old path |
| `Inputs.MovedFolderExample` | internal/mirror/plan.go:166-171 | a folder moved in the cloud: its file is downloaded, and the next local plan removes the folder under its old path |
| `Inputs.FolderForFileExample` | internal/mirror/plan.go:174-185 | every call granted, and the next local plan clears at a folder the round created |
| `Downloads.SurvivorIsKeptUnlessDropped` | internal/mirror/plan.go:68-75 | over a whole download round, links on or off, a local file in the place of a cloud item keeps its record and its local plan if and only if no drop that reaches it is accepted; otherwise it is planned as a new file |
| `Downloads.OnlyItsOwnDouble` | internal/mirror/plan.go:68-75 | when nothing in the snapshot lies below a file, only the accepted drop of its own stale double reaches it |
| `Inputs.StaleDoubleExample` | internal/mirror/plan.go:68-75 | a file with nothing to do, its cloud double dropped: the next plan sends it again |
| `WorkQueue.KeyIsInjective` | internal/engine/queue.go:36-41 | keys are equal exactly when task, scope, kind and target are, if no ID or scope holds a bar |
| `WorkQueue.CollisionExactly` | internal/engine/queue.go:36-41 | two different tasks have jobs with one key in a scope if and only if one ID is the other followed by a section name and that scope between bars, and then nothing or a bar |
| `WorkQueue.Queue.Enqueue` | internal/engine/queue.go:63-87 | a queued duplicate keeps its place and takes the higher trigger, a new job goes last and sends a token |
| `WorkQueue.Queue.TakeFirst` | internal/engine/queue.go:90-101 | the oldest job leaves the queue |
| `WorkQueue.Queue.DropTask` | internal/engine/queue.go:116-128 | in-place compaction removes exactly the task's jobs and keeps the order of the others |
| `WorkQueue.Queue.Close` | internal/engine/queue.go:131-139 | closed, a token sent, jobs kept |
| `WorkQueue.DropIsWithout` | internal/engine/queue.go:116-128 | the order stays duplicate-free and equal to the pending keys through a drop |
| `WorkQueue.QueueFollowsLedger` | internal/engine/queue.go:63-139 | over every history the queue holds exactly the tickets still queued, each with its highest trigger |
| `WorkQueue.TakeServesOldest` | internal/engine/queue.go:90-101 | a take hands out the oldest queued ticket and changes no other |
| `WorkQueue.FateIsFinal` | internal/engine/queue.go:63-139 | an accepted job is taken or dropped once, for good |
| `WorkQueue.LedgerIsFifo` | internal/engine/queue.go:63-139 | first in, first out, and one queued ticket per key, over every history |
| `WorkQueue.HighestIsHighest` | internal/engine/queue.go:71-78 | the merged trigger is one of those offered and ranks highest |
| `WorkQueue.HandedOutTrigger` | internal/engine/queue.go:12-17 | over every history a job is handed out as manual if and only if that was offered, as cron if and only if that was and manual was not, as watch if and only if that was and neither other |
| `Wakeup.NoLostWakeup` | internal/engine/queue.go:63-139 | in every interleaving a consumer asleep over work has a token or a caller about to send one |
| `Wakeup.SleeperGetsTheJob` | internal/engine/queue.go:90-113 | from every such state at most three steps hand out the first job, or end the consumer |
| `Wakeup.NothingStranded` | internal/engine/runner.go:233-261 | before `Stop` a pending directory always has a timer, a callback, a token or a woken drain on its way |
| `Wakeup.PendingIsCollected` | internal/engine/runner.go:167-179 | the moves already under way hand out every pending directory |
| `Wakeup.StopCancelsTheTimer` | internal/engine/runner.go:267-273 | after `Stop` no timer runs off until a directory is armed again |
| `Torrent.SkipValue` | internal/drive/torrent.go:113-156 | where no length overflows, the skip terminates on arbitrary bytes, lands in (pos, len], and is the recursive reading of the format |
| `Torrent.ParseInfoName` | internal/drive/torrent.go:65-90 | the loop returns the first `name` of the info dictionary |
| `Torrent.ParseTorrent` | internal/drive/torrent.go:32-62 | the loop finds the span of the first `info` value, or an error |
| `Torrent64.ReadPanicsExactly` | internal/drive/torrent.go:93-108 | in 64-bit arithmetic a read panics exactly when the written length fits 64 bits and no longer does with the position after the colon added; otherwise it is the unbounded reading |
| `Torrent64.ParsePanicsExactly` | internal/drive/torrent.go:32-90 | the whole parse panics if and only if one of the lengths it reads overflows, and otherwise returns what the unbounded parse returns |
| `Torrent64.LargestLengthPanics` | internal/drive/torrent.go:45-48 | a dictionary whose first key claims the largest 64-bit length is such an input |
| `Torrent.AtoiExactly` | internal/drive/torrent.go:93-108 | a length is read as digits with one sign or none before them |
| `Torrent.ReadPrinted` | internal/drive/torrent.go:93-108 | a printed string reads back whatever follows it |
| `Torrent.SkipPrinted` | internal/drive/torrent.go:113-156 | skipping a printed value lands exactly past it, for every value and all surroundings |
| `Torrent.PrintedName` | internal/drive/torrent.go:65-90 | the name found in a printed dictionary is its first `name` string, or empty |
| `Torrent.ParsePrinted` | internal/drive/torrent.go:32-62 | the hashed span of a printed torrent is exactly the printed info value, with its name |
| `Torrent.ParsedSample` | internal/drive/torrent.go:32-62 | a dictionary with every kind of value, read literally |
| `Numerals.NumeralOfValue` | internal/drive/pickcode.go:56-60 | a numeral without a leading zero is the canonical one of its value |
| `Pickcode.TablesPermute` | internal/drive/pickcode.go:14-25 | all ten tables are permutations of the 36 symbols, each given by the places of its digits |
| `Pickcode.ShortCodes` | internal/drive/pickcode.go:14-61 | one pickcode under every prefix, with the number it stands for |
| `Pickcode.PickcodeToID` | internal/drive/pickcode.go:28-61 | the loop decodes exactly the readable pickcodes whose value fits 64 bits |
| `Pickcode.DecodeAfterEncodeDigits` | internal/drive/pickcode.go:28-61 | any base-36 digits decode to their decimal value; 2^64 and above is rejected |
| `Pickcode.DecodeAfterEncode` | internal/drive/pickcode.go:28-61 | every 64-bit FID survives under every prefix and every four-character suffix |
| `Pickcode.EncodeAfterDecode` | internal/drive/pickcode.go:28-61 | every accepted pickcode is the encoding of the digits it deciphers to |
| `Pickcode.SameLengthInjective` | internal/drive/pickcode.go:28-61 | equally long pickcodes under one prefix decode equally only if their midfixes are equal |
| `Upload.PartCountBound` | internal/drive/upload.go:65-87 | over every 64-bit size above 20 MB the part count is in 1..10000 exactly up to 50000 GB |
| `Upload.PartSizeIsLeast` | internal/drive/upload.go:65-87 | from 128 GB to 1 TB the part size is the least that fits the largest file of its range into 10000 parts |
| `Upload.PartNumbersFit` | internal/drive/upload.go:124-124 | part numbers fit their 32-bit type |
| `Upload.MultipartUpload` | internal/drive/upload.go:106-155 | the parts tile the file; completion exactly when for every part one of attempts 1, 2 and 3 succeeds with no cancellation before it; else the first part that did not decides |
| `Upload.TilesCarryTheFile` | internal/drive/upload.go:118-151 | the parts of a tiling, joined in order, are the file |
| `LogFeed.SlotsDistinct` | internal/logfeed/logfeed.go:57-57 | two numbers of one window never share a slot |
| `LogFeed.WindowPush` | internal/logfeed/logfeed.go:52-62 | writing the next slot appends to the window and costs the oldest entry its place exactly when full |
| `LogFeed.Feed.Add` | internal/logfeed/logfeed.go:52-69 | the newest `cap` entries stay, consecutive numbers, every subscriber signalled |
| `LogFeed.Feed.Clear` | internal/logfeed/logfeed.go:124-129 | the buffer is empty and the numbering goes on |
| `LogFeed.Feed.Surviving` | internal/logfeed/logfeed.go:32-40 | after any history the live entries are the newest `cap` added since the last clear, numbered up to the next number |
| `LogFeed.Feed.Snapshot` | internal/logfeed/logfeed.go:88-97 | the live entries, newest first |
| `LogFeed.Feed.Since` | internal/logfeed/logfeed.go:101-121 | the downward loop stops at its lower bound, also at number 0 |
| `LogFeed.SinceIsExact` | internal/logfeed/logfeed.go:101-121 | exactly the live entries above the argument, newest first, if and only if it is not the oldest live number |
| `LogFeed.SinceRepeatsTheOldest` | internal/logfeed/logfeed.go:107-110 | in the remaining case the entry with that number comes as well |
| `LogFeed.FollowingMissesNothing` | internal/logfeed/logfeed.go:101-121 | a reader that asks from the last entry it saw gets the newest `cap` of what was added since, cleared in between or not, and that last entry once more exactly when it is the oldest in the buffer |
| `Activity.KeyOrder` | internal/store/activity.go:232-236 | big-endian keys compare as their numbers do |
| `Activity.Store.Append` | internal/store/activity.go:128-151 | the next number, stored last in key order, then pruned to the newest 5000 |
| `Activity.Store.Prune` | internal/store/activity.go:210-229 | the loop drops from the front down to 5000 |
| `Activity.Store.DeleteTask` | internal/store/activity.go:190-207 | one cursor pass removes exactly the task's events and keeps the order |
| `Activity.Store.List` | internal/store/activity.go:155-187 | the requested page of the newest-first filtered log |
| `Activity.HistoryStaysBounded` | internal/store/activity.go:125-151 | after any history at most 5000 events, in increasing number order |
| `Activity.NumbersAreNeverReused` | internal/store/activity.go:134-138 | later appends get larger numbers whatever is deleted in between |
| `Activity.SurvivorsAreTheNewest` | internal/store/activity.go:210-229 | an event that pruning removed is older than every survivor |
| `Activity.AppendsKeepTheNewest` | internal/store/activity.go:125-151 | without deletions exactly the newest 5000 remain |
| `Activity.ShownMeaning` | internal/store/activity.go:155-187 | each parsable matching event once, newest first |
| `Activity.PageExactly` | internal/store/activity.go:155-187 | entry by entry, with 1000 as the limit when none is given |
| `Activity.PagesConcatenate` | internal/store/activity.go:155-187 | successive pages of one size concatenate to the list |
| `Activity.AllPages` | internal/store/activity.go:155-187 | enough pages show every matching event |
| `Config.OverlapIsExact` | internal/conf/task.go:139-145 | the test is true exactly when two directories share a path, unless exactly one of them is the root |
| `Config.ValidateOverlaps` | internal/conf/task.go:159-181 | a reported pair overlaps, and silence means that no pair does |
| `Config.ValidateTasks` | internal/conf/task.go:184-197 | accepts exactly the sound task sets and otherwise names a real fault |
| `Config.ValidExactly` | internal/conf/task.go:113-135 | the four reasons to refuse a task |
| `Config.CleanCloudPathExactly` | internal/conf/task.go:149-155 | the slashes at the end go, all of them, and the root stays |
| `Config.NormalizedMeans` | internal/conf/task.go:89-102 | a task is left as it is exactly when it neither archives beside an upload, nor watches without one, nor holds a negative duration |
| `Config.NormalizeExactly` | internal/conf/task.go:89-102 | what normalising changes field by field, and that it changes nothing else |
| `Config.NormalizeKeepsValid` | internal/conf/task.go:89-135 | normalising never invalidates a task |
| `Config.RunKeepsSound` | internal/conf/config.go:182-226 | every sequence of edits keeps a validated configuration validated and normalised |
| `Config.SoundIsDisjoint` | internal/conf/task.go:159-181 | no path lies in two tasks' directories unless one is the root |
| `Config.CloudsAreDisjoint` | internal/conf/task.go:159-181 | the same for the cloud directories |
| `Config.TasksAreIsolated` | internal/store/index.go:213-237 | after any edits, whatever one task clears, its directory as typed included, no record of another task under a clean path is lost or changed |
| `Config.ClearReachesExactly` | internal/engine/engine.go:210-214 | a clear by one task reaches a record of another if and only if that is the other's directory as typed, dots included, it begins with the cleared path and a slash, and no key lies in between |
| `Config.DottedDirectoryIsReached` | internal/conf/task.go:159-181 | `/a` and `/a/../b` pass validation, and clearing the first takes the second's root record |
| `Config.RootTaskIsNotIsolated` | internal/conf/task.go:139-145 | a task at the root passes validation beside any other, and clearing it empties the index |
| `Config.Config.CommitTasks` | internal/conf/config.go:207-214 | rejected exactly when the set is not sound, and then unchanged; otherwise in force and normalised, even if the write fails |
| `Config.Config.AddTask` | internal/conf/config.go:182-190 | unless rejected, the set is sound and normalised, one task longer, the others as before, the new one last with its ID filled |
| `Config.Config.UpdateTask` | internal/conf/config.go:193-204 | not found exactly when no task has the ID; otherwise rejected and unchanged, or the first such task, and only that, is replaced |
| `Config.Config.RemoveTask` | internal/conf/config.go:217-226 | not found exactly when no task has the ID; otherwise the first such task goes and the others keep their order |

## Left out

- Network and OSS calls, rate limits, tokens, SHA-1, JSON encoding: the cloud is an arbitrary answer per call, a stored event is a value, and the hashed span stands for its digest.
- Context cancellation in `Apply`, `PlanCloud` and the scans; it is modelled in the queue, the debouncer and the multipart upload only.
- `Label` and `Reason` of operations, progress reports and log output: texts for people.
- The cache mover: a replaced original is removed, whether it is moved into the cache or deleted; a failing local removal is not modelled, neither of an original nor of a broken download.
- The order of the FIDs in a batch request, and which of several equal ones it repeats: a request holds a set.
- Files changing between plan and apply: the tree changes only through the operations.
- Glob matching of the exclusion list and URL parsing of links: a predicate and two functions with no axioms; what a theorem needs of them is one of its conditions.
- Case folding outside ASCII in `.strm` and video extensions, and white space outside ASCII in task names.
- `ScanCloud`'s concurrency and its count shortcut: its result is an arbitrary sequence of items, in the order given.
- `Paths.ChildrenRefine`: a root typed with dots or repeated separators is the subject of `Paths.EntryIsListedExactly` and `Paths.UncleanRootSendsAgain` instead.
- `RelToRoot` and `MapCloudToLocal` on strings: paths are component sequences below the root; a path outside the root is not modelled.
- `Torrent.SkipValue`: the loops and round trips of `Torrent.dfy` use unbounded lengths; `Torrent64.ParsePanicsExactly` says exactly where the 64-bit program differs.
- `Torrent.ParsePrinted`: the printer does not require sorted or distinct dictionary keys, which BEP 3, section "bencoding", demands; the theorem covers both.
- bbolt itself: a bucket is a sorted sequence, `Next` after `Delete` is the successor, a transaction is one step; wrap-around of its 64-bit counter is excluded by a precondition of `Append`.
- `LogFeed.Feed.Add`: sequence numbers are unbounded; subscriptions are a map of waiting signals with no channels behind it.
- `Index.Bucket.Children`: the method is stated for the buckets on which the walk terminates; `Index.WalkEndsExactly` says which those are, and on the others the program does not return.
- `Upload.MultipartUpload`: sizes for which rounding up wraps around are excluded, since allocating the part list panics for them; `Upload.PartCountBound` covers them.
- `Converge.OneRoundConverges`: STRM generation off; with it on, `Sweeps.SweptExactlyByConflicts`, `Replacements.ReplacedExactlyByVideos` and `LinkPlans.LastWordOnThePlan` are the exact statements, and no second round is followed.
- `Sweeps.SweptExactlyByConflicts`: stated for scans that read every directory; the engine discards a plan that comes with an error (internal/engine/engine.go).
- `Downloads.DownloadsAreLeftAlone`: which downloads were lost and which links were downloaded is read from the end of the round; `Downloads.LostExactly` says what loses one.
- `CloudFiles.NewFidsHaveNoTwin`: the condition on the cloud's answers covers all of its answers, those to calls that a round does not make among them.
- `WorkQueue.CollisionExactly`: scopes that hold a bar or are called `dir` or `file`, which the engine's fixed scopes are not.
- `Config.TasksAreIsolated`: the record under a directory typed with dots is not covered; `Config.ClearReachesExactly` says when a clear reaches it.
- `AddTask` does not check that a given ID is new, and neither does the model: an edit by ID reaches the first task that has it.
- `CountRecursive`, `LocalTreeCount`, the engine's lifecycle, relay, cache directory and web interface: easy or input and output.
