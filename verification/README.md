# viiwork-parrot: a verified model of the node

viiwork-parrot distributes large model files: a node fetches a signed catalogue, keeps one job per torrent of the
models it wants, and downloads, verifies, replaces, seeds and prunes files in a data directory it shares with its user.
This project models the parts where many goroutines meet one disk, and the logic those parts depend on, and proves
what the design relies on. `dafny verify dfyconfig.toml` checks everything.

| file | models |
|---|---|
| `Catalog.dfy` | the catalogue, the validator, and what a valid model list is |
| `Fetch.dfy` | parsing, and fetching with the cached copy that guards against rollback |
| `Jobs.dfy` | jobs as a step machine: launch, retire, wait, run, finish, close, in any interleaving |
| `Node.dfy` | the job manager: reconcile, the lock dropped for the adoption scan, SetCatalog, Ensure |
| `Space.dfy` | disk-space admission, with the check's reads interleaved with other downloads' writes |
| `Disk.dfy`, `Downloads.dfy` | who owns what on disk: runs of jobs, user changes, prunes, replacements, restarts |
| `Outcomes.dfy` | the same runs spelled out: why a file goes, what a check lets pass, and that what is meant to happen does |
| `LostRecord.dfy` | a run in which an undone replacement leaves a folder without its record |
| `Folder.dfy` | a folder model's torrent and directory against its catalogue entry |
| `Removal.dfy` | recognizing and removing a recorded download on a directory tree |
| `HashCache.dfy` | the hash cache under concurrent callers and changing files |
| `Schedule.dfy`, `Limits.dfy` | time-of-day rules, and a temporary override of them |
| `ConnBudget.dfy`, `Uploads.dfy`, `Applied.dfy` | what a limits tick wants of each torrent, and the cache that saves calls |

Objects the program changes in place are classes (`Node`, `Book`, `FileSystem`, `Cache`, `Limiter`, `Job`, `Fetcher`),
each method tied to a function or a step; loops are methods with invariants; what many goroutines do is a step
machine whose steps are the program's critical sections and whose runs are arbitrary. `Space` and `Downloads` are
built on the runs of `Jobs`, and `Node` shows that the manager only ever takes steps of that machine. Every lemma
switches automatic induction off, so its proof is its body.

Five properties one might expect are false of the program as it stands. Each has a witness at concrete inputs, and an
exact statement of when it does hold:

- Admitted downloads can exceed the free space, because the free space is read before the other downloads'
  allocations and writers do not hold the lock: `Space.WithoutSlackItFails` is a run, `Space.AdmissionIsSafeIff` the
  exact condition, `Space.NeverOvercommitted` the bound that always holds.
- A folder job carries its model's whole listing, but a reconcile compares only the model id and the torrent, so a
  catalogue that changes a folder's hashes or revision under the same torrent leaves the job on the old listing:
  `Node.StaleListing` is a node that does, `Node.Node.ReconcileLocked` says exactly when the listings are current.
- A replacement that is undone puts the old folder back exactly, but not always its record:
  `LostRecord.RecordCanBeLost` is a run, `Downloads.PutBackExactly` says exactly which steps in between lose it.
- A tick whose clock was read before an override was set, but applied after, can drop the override at once:
  `Limits.LateTickDrops` is the input, `Limits.Survives` says for ticks in any order exactly when an override does.
- The cached catalogue can be lost or go back: `Fetch.UnreadableGoesBack` replaces a cache that cannot be read, and in
  `Fetch.TwoLinesGoBack` a signature with a line break inside verifies and is cached but cannot be read back, so the
  next fetch returns something older. `Fetch.GoesBackIff` is exact for one fetch, `Fetch.RollsBackIff` for any sequence.

## Model

| member | source | states |
|---|---|---|
| `Catalog.ClashingParent` | internal/catalog/catalog.go:286-290 | finds a file name that is a directory on the way to this file, exactly if there is one |
| `Catalog.ValidateDir` | internal/catalog/catalog.go:246-305 | accepts a folder model exactly if it is well formed and fits with what came before; the collected contents grow by exactly its own |
| `Catalog.ValidateFiles` | internal/catalog/catalog.go:190-230 | the same for a per-file model: its files apart from each other and from everything before |
| `Catalog.DistinctNames` | internal/catalog/catalog.go:299-301 | counting the distinct names tells exactly whether any two names are equal |
| `Catalog.AcceptableExtends` | internal/catalog/catalog.go:149-233 | the maps the validator fills decide exactly whether one more model fits the pairwise specification |
| `Catalog.Validate` | internal/catalog/catalog.go:149-233 | accepts exactly the lists the declarative specification accepts; a refusal names the first model whose prefix cannot be accepted |
| `Catalog.OrderIndependent` | internal/catalog/catalog.go:149-233 | acceptance does not depend on the order of the models |
| `Catalog.UnitsApart` | internal/catalog/catalog.go:205-229 | no two torrents of an accepted catalogue, in either layout, share an infohash or a disk name |
| `Catalog.DiskNameIs` | internal/catalog/catalog.go:54-60 | a disk name is store_as, or what follows the last slash of the name |
| `Catalog.SplitJoins` | internal/catalog/catalog.go:326-330 | the parts of a path, with slashes between them, are the path |
| `Catalog.CleanPath` | internal/catalog/catalog.go:315-332 | a path is accepted exactly if it has no backslash or control character and nothing between two slashes or ends is empty, "." or ".." |
| `Catalog.HeaderIs` | internal/catalog/catalog.go:157-176 | what is asked of every model, character by character |
| `Catalog.FlatFileIs` | internal/catalog/catalog.go:192-217 | what is asked of a per-file model's file: a plain disk name, a size, lower-case hashes, and the one web seed of its very revision |
| `Catalog.FolderIs` | internal/catalog/catalog.go:246-305 | what is asked of a folder model and its files |
| `Catalog.AcceptedContents` | internal/catalog/catalog.go:221-227 | no per-file content is listed twice, nor by a folder file that is not empty |
| `Catalog.SizesAddUp` | internal/catalog/catalog.go:102-109 | a folder's size is that of its files together |
| `Catalog.PlainAccepted` | internal/catalog/catalog.go:149-233 | a per-file model that is accepted |
| `Fetch.Parse` | internal/catalog/catalog.go:356-371 | a parsed catalogue is acceptable, and one with a folder model has the folder format version |
| `Fetch.BuildParses` | internal/catalog/catalog.go:345-371 | exactly the acceptable lists are built, and what is built parses back to the same list, version and time exactly if JSON gives it back |
| `Fetch.Fetcher.LoadCache` | internal/catalog/fetch.go:67-81 | splits at the first newline, verifies and parses |
| `Fetch.Fetcher.WriteCache` | internal/catalog/fetch.go:136-146 | whether it stops before the directory, in the middle of the temporary file, or before the rename, the cache is the old one or the whole new one |
| `Fetch.Fetcher.Fetch` | internal/catalog/fetch.go:33-65 | what is returned and what is left in the cache, for any reply, through every error path |
| `Fetch.TrimIsExact` | internal/catalog/sign.go:45-48 | trimming takes away the white space around a text, all of it and nothing else |
| `Fetch.SpaceAroundSignature` | internal/catalog/fetch.go:36-54 | a signature with white space around it is taken, and cached, as without |
| `Fetch.TakesWhatIsPublished` | internal/catalog/fetch.go:34-45 | a catalogue with its signature as it is published, newline and all, is taken exactly if both are within their size limits, it verifies and it parses |
| `Fetch.ReadsBack` | internal/catalog/fetch.go:54-55 | a cache file with a one-line signature gives back exactly what was written |
| `Fetch.ReadsBackIffOneLine` | internal/catalog/fetch.go:54-80 | with a signature on more lines it gives back nothing, since an accepted signature has 88 characters besides line breaks and its first line has fewer |
| `Fetch.ReturnsGenuine` | internal/catalog/fetch.go:33-65 | whatever the server sent and the cache holds, a returned catalogue verified and is acceptable |
| `Fetch.FetchMovesForward` | internal/catalog/fetch.go:33-65 | exactly when what a fetch returns is no older than the cache was, and exactly when it succeeds; success with a one-line signature is read back identically; failure leaves the cache alone |
| `Fetch.GoesBackIff` | internal/catalog/fetch.go:50-57 | for any reply, the cached catalogue is not lost and does not go back exactly if there was none, nothing was served or written, the cache was read and found newer, or something no older was served with a one-line signature |
| `Fetch.RollsBackIff` | internal/catalog/fetch.go:46-59 | over any sequence of replies the cached catalogue only gets newer exactly if that holds at each of them |
| `Fetch.NeverRollsBack` | internal/catalog/fetch.go:46-59 | so it does over any replies with one-line signatures while the cache can be read |
| `Fetch.NeverReturnsOlder` | internal/catalog/fetch.go:27-32 | while no reply loses the cached catalogue, a returned one is genuine, and no older than any held before unless the cache could not be read and something older was served |
| `Fetch.UnreadableGoesBack` | internal/catalog/fetch.go:50-58 | an input where a cache that cannot be read is replaced by something older, without an error |
| `Fetch.TwoLinesGoBack` | internal/catalog/fetch.go:54-58 | two fetches, both successful, the second returning something older, because the first one's signature was on two lines |
| `Jobs.StepKeeps` | internal/node/node.go:241-347 | every step keeps the wait invariant: the latest retired job under either key stands for all earlier unfinished ones |
| `Jobs.Exclusion` | internal/node/job.go:119-129 | in every run, no two jobs past their waits and not done share an infohash or a disk name, and a job's done implies that of all earlier jobs it shares one with |
| `Jobs.EarliestProceeds` | internal/node/job.go:119-132 | waits are acyclic: while a job is unfinished, some unfinished job is not held up |
| `Jobs.DoneForAReason` | internal/node/job.go:119-155 | in every run a job that is done was stopped, or the node is closing, or it had failed or had nothing to do |
| `Jobs.OutcomeOnce` | internal/node/job.go:92-98 | a job fails once, while it runs, and never while it is being stopped |
| `Jobs.ClosedOnlyWinds` | internal/node/node.go:190-201 | on a closed node every step of a job uses up work and nothing adds any |
| `Jobs.CloseDrains` | internal/node/node.go:190-201 | from every run that closed the node all jobs can end, in exactly as many steps as there is work left |
| `Node.AcceptedEntriesApart` | internal/node/dirjob.go:23-34 | the torrents of an accepted catalogue are pairwise apart by infohash and by disk name |
| `Node.WantedByInfoHash` | internal/node/node.go:275-288 | collects the wanted torrents by infohash |
| `Node.KeepIsWanted` | internal/node/node.go:275-288 | what was collected is every wanted torrent under its own infohash, and nothing else |
| `Node.EntriesAreUnits` | internal/node/dirjob.go:27-34 | every torrent of every model has its entry, and nothing else has |
| `Node.Node.WantedIsAsked` | internal/node/node.go:225-235 | a torrent is wanted exactly if its model is asked for: by "*", by its id, or by a call |
| `Node.Node.ReviewIsExact` | internal/node/node.go:289-306 | a live job goes on exactly if its model is asked for and lists its torrent as the job has it, unless it failed and is retried; it prunes exactly if pruning is on and no model has its torrent |
| `Node.Node.RetireLocked` | internal/node/node.go:241-260 | takes the machine's retire step: stopped, forgotten as live, remembered under both keys |
| `Node.Node.StartJob` | internal/node/node.go:326-345 | takes the launch step: waits for the latest retired job under either key |
| `Node.Node.JobMove` | internal/node/node.go:247-258 | takes the step of a job goroutine or of the watcher of a retired job, which clears only its own entries |
| `Node.Node.CloseNode` | internal/node/node.go:190-201 | takes the close step |
| `Node.Node.NoTwoActive` | internal/node/node.go:241-347 | whatever calls the node has served, exclusion holds |
| `Node.Node.RetireStale` | internal/node/node.go:289-306 | retires exactly the live jobs that are unwanted, changed, or failed and to be retried; prunes only those out of the catalogue |
| `Node.Node.StartMissing` | internal/node/node.go:320-346 | afterwards exactly one live job per wanted torrent; what it starts carries the current entry, and what it leaves alone its own |
| `Node.Node.ReconcileLocked` | internal/node/node.go:267-349 | each earlier job is left alone or stopped as it should be; a scan is asked for exactly if a job is missing; with a scan none is missing; if nothing is to do nothing changes; the live jobs carry the current folder listings exactly if no job that was left alone was on an outdated one |
| `Node.Node.ReconcileScanLocked` | internal/node/node.go:215-223 | on an open node, whatever other calls did while the lock was dropped, a torrent of the now current catalogue has a live job exactly if its model is in the want list, or "*" is, or somebody asked for it, and nothing else has one; each is for its model and torrent, and with its current listing if no catalogue so far changed one under the same torrent |
| `Node.Node.SteadyIsCurrent` | internal/node/node.go:289-306 | why: every job carries an entry of some catalogue so far |
| `Node.Node.SetCatalog` | internal/node/node.go:203-209 | the same after a catalogue update; with no other call in between, the listings are current exactly if the update changed none under a job that was left alone |
| `Node.SameUnitOtherListing` | internal/node/dirjob.go:21-25 | two folder models with different hashes and revisions that a reconcile cannot tell apart |
| `Node.StaleListing` | internal/node/node.go:289-297 | a new node given two accepted catalogues, one after the other, goes on with the first one's listing |
| `Node.Node.Ensure` | internal/node/node.go:518-536 | refuses without a catalogue or for an unknown model without changing anything, and serves exactly if the model is listed before and after; a newly wanted model has a live job for each torrent |
| `Space.Book.ReserveSpace` | internal/node/node.go:98-120 | admits exactly if free space less all other outstanding bytes leaves the own ones and the margin, or if free space is unknown |
| `Space.Book.ReleaseSpace` | internal/node/node.go:148-157 | drops the reservation and closes the channel given out so far, only if there was one |
| `Space.StepKeeps` | internal/node/node.go:89-157 | every step keeps the accounting between what a check read and what is true now |
| `Space.NeverOvercommitted` | internal/node/node.go:89-120 | in every run the outstanding bytes of all admitted downloads and the margin fit the free space plus what the latest admission's check missed |
| `Space.AdmissionIsSafeIff` | internal/node/node.go:98-120 | an admission keeps the bound without slack exactly if what was written during its check is within its headroom and what was freed |
| `Space.UndisturbedCheck` | internal/node/node.go:98-120 | a check nothing was written or freed during admits exactly if there is room for this download, all others and the margin, and else pauses it on the current channel |
| `Space.WithoutSlackItFails` | internal/node/node.go:102-113 | a run in which one download writes between another's two reads and the plain bound fails |
| `Space.DistinctPaths` | internal/node/node.go:98-120 | reservations held together have distinct incoming paths |
| `Space.ReleasesItsOwn` | internal/node/job.go:452-488 | the early and the deferred release drop only the releasing job's own reservation |
| `Space.ReleaseWakes` | internal/node/node.go:148-157 | a release closes the channel of every download paused by an earlier refusal |
| `Disk.PlaceOK` | internal/node/job.go:539-558 | promoting a download, recorded in the same step, keeps ownership |
| `Downloads.StepOwns` | internal/node/dirjob.go:349-385 | no step of the node removes or overwrites a file that is not viiwork-parrot's own, recorded and unchanged |
| `Downloads.StepKeeps` | internal/node/job.go:119-155 | every step keeps what each stage of a run says about the disk |
| `Downloads.NeverTouchesUserFiles` | internal/node/job.go:182-200 | in every run of jobs, reconciles, prunes, restarts and user changes, no step of the node removes or overwrites a file in data_dir unless it was placed, recorded and is unchanged |
| `Downloads.PlacedIsVerified` | internal/node/job.go:499-526 | whatever a step of the node puts at a data path is exactly the content listed by the entry the job was started with, with no extra file, or the older revision moved back, or a folder left empty |
| `Downloads.SeedsWhatItVerified` | internal/node/job.go:206-275 | a job gets to seeding only with a copy verified in this same run, which was then at its data path or at the adopted path |
| `Downloads.WantIsExact` | internal/node/dirjob.go:83-113 | what a job checks against is what its entry lists: the one sha256, or every file's |
| `Outcomes.GoneForAReason` | internal/node/node.go:359-395 | in every run a file the node removes from data_dir makes way for a verified download at its path, or is swept with pruning on, its torrent out of the catalogue and no job for it or at its path, or is cleared by a job that was stopped for good |
| `Outcomes.PruneFlagHasCause` | internal/node/node.go:289-293 | in every run a job that is to prune was stopped since the last start, with pruning on and its torrent out of the catalogue |
| `Outcomes.VerifyPasses` | internal/node/job.go:499-526 | the check passes exactly what the entry lists; anything else leaves .incoming |
| `Outcomes.TrimKeepsListed` | internal/node/dirjob.go:308-336 | exactly the files that are not listed go from a downloaded folder |
| `Outcomes.PrepareKeepsOwn` | internal/node/dirjob.go:235-250 | a partial folder download is kept for the torrent it is of, and cleared for another |
| `Outcomes.FetchIsMarked` | internal/node/dirjob.go:225-250 | in every run a folder is downloaded only into a place marked as its torrent's |
| `Outcomes.PromotesWhenItCan` | internal/node/job.go:539-558 | a verified file is placed and recorded if nothing, or only the download of ours it replaces, is in its place |
| `Outcomes.LandsWhenItCan` | internal/node/dirjob.go:349-385 | the same for a folder |
| `Outcomes.PruneHappens` | internal/node/job.go:182-200 | what a pruned record describes goes if it is unchanged and stays if not; the record goes |
| `Outcomes.CleanUpSpares` | internal/node/job.go:157-177 | any other clean-up leaves data_dir and the records alone |
| `Outcomes.ClaimTakesOver` | internal/node/job.go:302-325 | a claim moves the record of an unchanged download of a torrent that has left the catalogue to a job that found it to be what it wants |
| `Outcomes.DownloadsOnlyOver` | internal/node/job.go:206-275 | a download is started only where nothing is, or an older download of ours that is not what is wanted |
| `Downloads.ReplacementStep` | internal/node/dirjob.go:349-385 | between the two renames, whatever happens next, the new revision is in .incoming until it lands and the old one is aside until moved back or cleaned up at start |
| `Downloads.LandedStep` | internal/node/dirjob.go:378-414 | after landing the old revision stays aside until dropped, or until start-up clean-up |
| `Downloads.PutBackExactly` | internal/node/dirjob.go:365-376 | if the new folder cannot be moved in and the old one is moved back, the directory is exactly as before and the download is still in .incoming; the record is exactly as before if and only if no prune of it, and no claim, promotion or pruning clean-up by a job for that torrent or over it, came in between |
| `Downloads.RecordStep` | internal/node/node.go:359-395 | which single steps lose the record, exactly, and that a lost record does not come back while the job runs |
| `LostRecord.RecordCanBeLost` | internal/node/node.go:359-395 | a run from the first start on in which a prune between the renames loses it |
| `Folder.CheckDirInfo` | internal/node/dirjob.go:49-76 | passes exactly a folder torrent of the revision whose files, each once, match the listed sizes |
| `Folder.CheckedIsSame` | internal/node/dirjob.go:45-48 | for an accepted entry that means: it lists the entry's files in any order and nothing else |
| `Folder.VerifyDir` | internal/node/dirjob.go:83-113 | verified means every file is right; mismatch means one is not; a failed hash is neither; a wrong size is found before anything is hashed |
| `Removal.StatRecorded` | internal/node/downloaded.go:125-159 | reports a match exactly if the record's file, or exactly its files and nothing else, are there unchanged |
| `Removal.MatchIs` | internal/node/downloaded.go:125-159 | a folder matches exactly if whatever in it is not a directory is recorded and unchanged, and all that is recorded is there |
| `Removal.ParentIsShorter` | internal/node/downloaded.go:202-209 | ordering by length reaches what is inside a directory before the directory |
| `Removal.DeepestFirst` | internal/node/downloaded.go:202-216 | when a directory's turn comes it is empty exactly if only listed directories were left in it |
| `Removal.ParentsAre` | internal/node/downloaded.go:185-198 | the directories collected are the root and all between it and a recorded file |
| `Removal.FileSystem.RemoveEmptyDirs` | internal/node/downloaded.go:202-216 | removes exactly the listed directories whose whole subtree is listed directories, and touches nothing else |
| `Removal.FileSystem.RemoveRecorded` | internal/node/downloaded.go:180-198 | removes exactly the recorded files and each of their directories with nothing else inside; succeeds exactly if none of them is refused |
| `HashCache.Cache.LookLocked` | internal/hashcache/hashcache.go:109-129 | one critical section: a cached hash, somebody's hash to wait for, or a new one registered |
| `HashCache.Cache.Store` | internal/hashcache/hashcache.go:164-180 | from then on a lookup finds this hash exactly with this size and mtime, and lookups of other files are as before |
| `HashCache.Cache.EndLocked` | internal/hashcache/hashcache.go:135-138 | the channel is closed, no lookup of the file is told to wait any more, and lookups of other files are as before |
| `HashCache.HitIsRecent` | internal/hashcache/hashcache.go:110-115 | a cached hash a caller's stat matches is of that version of the file or a later one |
| `HashCache.StepKeeps` | internal/hashcache/hashcache.go:103-180 | every step of callers, waiters, file changes, saves and restarts keeps the cache truthful and each in-flight hash with one owner |
| `HashCache.ReturnsAHashOfItsTime` | internal/hashcache/hashcache.go:103-144 | in every run a successful call returns the hash of contents the file had at some moment during the call |
| `HashCache.AgreesWithHashing` | internal/hashcache/hashcache.go:97-144 | on a file that did not change during the call it returns what hashing directly would |
| `HashCache.OneHashPerFile` | internal/hashcache/hashcache.go:116-154 | at most two hashes run, never two for one file, and an open channel a caller waits on belongs to a hash still in flight |
| `HashCache.SomeCallProceeds` | internal/hashcache/hashcache.go:103-154 | while a call is pending some call can go on without anybody giving up |
| `HashCache.WaitsItOut` | internal/hashcache/hashcache.go:116-126 | a waiting call goes on only once the hash it waits for has ended, or gives up |
| `HashCache.CachedCall` | internal/hashcache/hashcache.go:103-115 | a call for a file cached as it is returns the cached hash and hashes nothing |
| `HashCache.HashingCall` | internal/hashcache/hashcache.go:103-154 | an undisturbed call for one that is not hashes it, returns that and leaves it cached, with nothing in flight |
| `HashCache.PutIsFound` | internal/hashcache/hashcache.go:156-180 | a hash put in is found while the file stays as it was |
| `HashCache.RestartBringsBack` | internal/hashcache/hashcache.go:69-83 | a restart brings back what was saved, or nothing if it is damaged |
| `Schedule.Override` | internal/schedule/schedule.go:29-46 | each key that is set wins, the others stay |
| `Schedule.MatchesIsWindow` | internal/schedule/schedule.go:54-68 | a rule applies exactly inside the windows of its days, a wrapping one belonging whole to the day it starts on |
| `Schedule.Effective` | internal/schedule/schedule.go:75-84 | the first matching rule decides; base limits if none matches |
| `Schedule.FirstWeekly` | internal/schedule/schedule.go:86-89 | the deciding rule repeats weekly |
| `Schedule.Boundary` | internal/schedule/schedule.go:90-104 | the capped minute scan is true exactly if some instant in (a, b], however far away b is, is under another rule than a |
| `Limits.Limiter.SetOverride` | internal/node/limits.go:115-122 | sets the override and applies it at once; it is in force when the call returns |
| `Limits.Limiter.ClearOverride` | internal/node/limits.go:124-129 | drops it; the scheduled limits are in force when the call returns |
| `Limits.Limiter.ApplyLimits` | internal/node/limits.go:142-161 | one tick: clears a lapsed override and recomputes the effective limits |
| `Limits.Survives` | internal/node/limits.go:144-155 | from any state, ticks in any order leave the override exactly if each saw its rule and it was constant since the tick before, or since the override was set |
| `Limits.Lifetime` | internal/node/limits.go:144-155 | so, if no later tick was applied before or the first tick is the one SetOverride makes, exactly if the rule was constant from when it was set until every tick |
| `Limits.OverrideLasts` | internal/node/limits.go:113-161 | with a clock that does not go back, after any earlier calls, an override is in force after a tick exactly if the rule never changed since it was set, and the effective limits say so |
| `Limits.LateTickDrops` | internal/node/limits.go:115-155 | an input where a tick read before and applied after drops the override at once |
| `ConnBudget.Allocate` | internal/connbudget/connbudget.go:19-42 | every key gets the allowance of the last torrent carrying it, no other key any |
| `ConnBudget.WithinBudget` | internal/connbudget/connbudget.go:29-35 | all shares together are at most the limit plus the floor for each torrent raised to it |
| `ConnBudget.KeepsTheLimit` | internal/connbudget/connbudget.go:29-35 | at most the limit if there is room for the floor of every unit of weight |
| `ConnBudget.UsesTheLimit` | internal/connbudget/connbudget.go:29-35 | less than one connection per torrent is left over unless the cap is reached |
| `ConnBudget.ShareBounds` | internal/connbudget/connbudget.go:29-49 | each share is between the floor and the cap, and downloading never gets less than seeding |
| `ConnBudget.LocalComesOnTop` | internal/connbudget/connbudget.go:36-38 | local connections are added to the share one for one unless they are counted |
| `ConnBudget.AllocatedWithinBudget` | internal/connbudget/connbudget.go:19-42 | the same bounds on what was actually allocated, local connections counted |
| `Uploads.RankUploads` | internal/node/limits.go:49-72 | allows exactly the small files and the large ones with fewer than n large ones ahead by demand, then key |
| `Uploads.PickedMeans` | internal/node/limits.go:49-72 | that is, without the sort: a file is allowed exactly if it is below 64 MiB, or n is 0, or fewer than n large ones have more demand, or as much and an earlier key |
| `Uploads.PickedPermutes` | internal/node/limits.go:47-72 | the outcome does not depend on the order of the candidates |
| `Uploads.ExactlyTheBest` | internal/node/limits.go:65-70 | with distinct keys exactly min(n, count) large ones are allowed, all of them if n is 0 |
| `Uploads.InsertSorted` | internal/node/limits.go:59-64 | the sorting that the ranking is defined by keeps its list in order of demand, then key |
| `Applied.WantedSettings` | internal/node/limits.go:167-219 | a tick wants of every live torrent exactly its share, and uploading unless it seeds a large file that others outrank |
| `Applied.WantedMeans` | internal/node/limits.go:213-219 | spelled out by what each torrent is: the formula of its share, and which others outrank it |
| `Applied.Job.DecideLocked` | internal/node/limits.go:220-234 | a setter is skipped exactly if the torrent is the one last applied to and the value the one last applied |
| `Applied.Job.RecordLocked` | internal/node/limits.go:247-255 | after the decision it follows, the cache says the torrent has exactly what was wanted, skipped calls included |
| `Applied.StepKeeps` | internal/node/limits.go:217-256 | over ticks and torrent swaps between any two of their parts, what is remembered is what the torrent has |
| `Applied.SkippingIsInvisible` | internal/node/limits.go:222-256 | in every run every torrent has, at all times, the settings it would have if both setters were always called |
| `Applied.TickApplies` | internal/node/limits.go:217-256 | once a tick has recorded a job, the torrent it worked on has exactly the wanted settings |

## Left out

- Torrent library: adding torrents, fetching metainfo, swarms, peers and pieces are steps that complete, fail or are cancelled.
- Regular expressions are modelled as character classes; magnet and URL parsing, JSON, SHA-256 and the signature check are arbitrary functions, and the claims hold for all of them.
- Fetch.Parse: white space is the six ASCII characters; Unicode white space around a signature is not modelled.
- Fetch.GoesBackIff: assumes of the signature check that what it accepts has 88 characters besides line breaks, the length of 64 bytes in padded base64.
- Fetch.NeverRollsBack: assumes only this fetcher writes the cache, that it can be read, and one-line signatures; RollsBackIff says what happens without the last two.
- Node.Node.Ensure: the status it returns, and the error when a download is paused for lack of space, are not modelled.
- Integer widths: sizes, shares and times are unbounded integers.
- Check-then-remove, check-then-move-aside and promote-then-record are single steps on the disk; the short windows between their system calls are not modelled.
- Downloads.PutBackExactly: covers the case without a crash in between; after one, ReplacementStep says what is where.
- Downloads.NeverTouchesUserFiles: the protected object is a file; empty directories a user adds inside a recorded folder may go when it is replaced.
- With pruning on, a revision bump may delete the old file before the new one verifies; nothing is claimed against that.
- Downloads.SeedsWhatItVerified: adoption candidates are arbitrary input, each verified before use; the scan that collects them, and duplicate reporting, are not modelled.
- Symbolic links at a data path are one kind of entry that is never touched; following them is not modelled.
- Quarantine naming, walk errors, log and error texts, and the status page are not modelled.
- Space.NeverOvercommitted: assumes free-space reads succeed, no outside writer uses the disk and no download writes past its size.
- HashCache.ReturnsAHashOfItsTime: assumes each change of a file strictly raises its mtime, each hash reads one version, and a caller of Put vouches for the file as it is.
- Schedule.Boundary: uses a fixed UTC offset of whole minutes, so no daylight-saving change; parsing of days and clock times is left out as it would only add easy members.
- Limits.OverrideLasts: assumes a clock that does not go back; Survives covers ticks in any order.
- Uploads.RankUploads: the library's sort is modelled by an insertion sort; PickedMeans does not mention it.
- Transfer-rate samples of a tick, which are floating point, are not modelled.
- Applied.TickApplies: assumes that nothing else changes a torrent's two settings, which no other code does.
- The throttle, the HTTP interface, the command line, configuration decoding, publishing, discovery and torrent creation are not modelled.
