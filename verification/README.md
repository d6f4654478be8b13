# solbuild, modelled and verified

solbuild builds packages in throw-away roots: it locks a root, mounts a backing image, an overlay and a number of
bind mounts, runs a package manager and a build tool inside, and takes everything down again, however the run ends.
This project models the parts of it where a mistake is hard to see by reading one function, and proves what they
promise.

`dafny verify dfyconfig.toml` checks everything. The modules:

| file | what it models |
|---|---|
| `LockProtocol.dfy` | the lock file as a transition system over any number of processes, inodes and crashes |
| `LockFile.dfy` | the `LockFile` object, issuing those transitions while other processes interleave |
| `Paths.dfy`, `Mounts.dfy`, `Ledger.dfy`, `Slots.dfy` | paths, the kernel's mount table, the bookkeeping of mounts on values, and where a root has things mounted |
| `Overlay.dfy`, `Eopkg.dfy`, `Repos.dfy`, `Build.dfy`, `Update.dfy` | the build root, the package manager in it, profiles and repositories, and the Build, Chroot, Index and Update pipelines |
| `Manager.dfy` | the session: lock, operation, deferred `Cleanup` |
| `Session.dfy` | the session's two threads, the operation and the signal handler, step by step |
| `History.dfy` | package history and the reproducible-build timestamp |
| `SourceCache.dfy` | the content-addressed source cache |
| `Users.dfy`, `Copy.dfy`, `Text.dfy` | `passwd` and `group` files, recursive copying, and the string functions they rest on |

Anything outside (system calls, child processes, downloads) is a small method that may fail at any time, such as
`Mounts.World.Try`. A `World` is *reliable* when unmounting fails only for the kernel's own reasons: nothing is
mounted there, or something is still mounted below; it is *faultless* when every other call succeeds, so that what
still fails fails for a reason that the contracts name. A lock file's `Host` is *reliable*, and a `Disk` or a
`SourceStore` *faultless*, in the same sense. Mounts that were made but that the overlay does not record are
called *beside*. A `World` also logs every step that worked (`trace`), everything that was ever mounted (`ups`), the
repositories indexed anew (`indexed`), and the mount table at each moment the mount manager was asked to unmount
everything (`asked`). `Packages.BuildSteps` lists all steps of a build, and the pipelines are proved
against such lists: a success has made every step, in order, and a failure stopped at one of them.

## What the proofs found

- Two processes can hold the lock of one path at once: an owner unlinks the path after it has unlocked, under whoever
  flocked the same inode in between, and a third process creates a new file (`LockProtocol.UnlinkBreaksExclusion`).
  It takes such an unlink by a third party between the two opens, so two processes alone always exclude each other.
- `writePID` does not truncate: over a longer number it leaves stale digits, and the PID reads back exactly when no
  digit follows it.
- When the PID cannot be written, `Lock` has already flocked the file, but `doLock` reports a failure and does not set
  `didStart`; `Cleanup` then neither unlocks nor cleans it. A session that reports it is not locked holds the lock
  exactly when its flock succeeded (`Managers.Manager.DoLock` and each operation).
- `mountedTmpfs` is never set; the tmpfs root is recorded nowhere and left to the mount manager. Everything else a
  build mounts is recovered by the overlay itself and by the package manager, whose cache must be unmounted first.
  Nothing an update mounts is recorded.
- `Overlay.Mount` reports success without mounting anything when the directory for the tmpfs cannot be made, and
  `BindSources` reports success on a failed mkdir or touch; the accounting holds all the same. So the build command
  is started with all sources bound exactly when no such step failed (`Packages.Package.BuildYpkg`), and without a
  tmpfs never outside a mounted union (`Packages.Package.Build`).
- A finished indexer's PID stays the active one (`Packages.Package.Index`), and a chroot never gets the configured
  tmpfs (`Managers.Manager.Chroot`).
- The comment on the timestamp promises stability over bumps. It holds for ten commits of one version; from the
  eleventh on the timestamp drifts, because the history is cut to ten entries before it is scanned.
- A source whose validator has the length of a sha1 is taken for fetched when a legacy package has linked that sha1,
  so it is never checked; a validator in upper case passes the download's check and is then not found.
- The signal handler's `Cleanup` runs while the operation may still be mounting. It can exit with a recorded mount
  live; it can forget an extra mount that the operation records between its unmounting and its forgetting; virtual
  file systems mounted after their unmounting are never unmounted, because their flag is set once, for the first of
  them; and it releases and removes the lock file under an operation that goes on mounting. A forgotten mount also
  keeps the union, and `/dev` if it lies there, from being unmounted. `Session.dfy` says exactly when.
- The deferred `Cleanup` that follows the handler's removes the path of the lock file a second time, whoever's file is
  there by then (`Managers.Manager.CleanupTwice`).
- The comment on `CopyAll` speaks of directories being copied; one without a file somewhere below it is not recreated
  (`Copies.DirectoryRecreated`).

## Model

| member | source | states |
|---|---|---|
| LockProtocol.RunKeepsInv | builder/lockfile.go:48-202 | in every interleaving of any number of processes: descriptors name inodes, the kernel's holder and the process past its flock agree, a recorded PID starts the file |
| LockProtocol.RunKeepsLog | builder/lockfile.go:48-202 | what every run has logged: who flocked before releasing, and an unlink between two opens whenever two open files of one path have different inodes |
| LockProtocol.OneHolderPerInode | builder/lockfile.go:116-139 | at most one process is between a successful flock and its unlock, per inode |
| LockProtocol.TwoHoldersNeedAnUnlink | builder/lockfile.go:48-202 | two holders of one path imply that a third process unlinked it between their opens |
| LockProtocol.NoUnlinkMeansExclusion | builder/lockfile.go:48-202 | runs in which nobody unlinks the path have full mutual exclusion |
| LockProtocol.TwoProcessesExclude | builder/lockfile.go:48-202 | two processes alone never hold one path together |
| LockProtocol.UnlinkBreaksExclusion | builder/lockfile.go:187-202 | a run of three processes with honest PID probes that ends with two holders of one path |
| LockProtocol.OnlyLockersCleanUp | builder/lockfile.go:132-139 | whoever unlocks, closes or unlinks flocked its descriptor before |
| LockProtocol.FlocksAfterAProbe | builder/lockfile.go:95-130 | in every run, whoever tries to flock has read the recorded PID and then probed it, with nothing of its own in between, and at the probe that PID was no other live process |
| LockProtocol.RefusesTheLiving | builder/lockfile.go:103-114 | the owned-lock error is only returned because of the PID just read, which was another live process when probed |
| LockProtocol.RecordReadsBack | builder/lockfile.go:142-184 | the PID written over old content reads back exactly when no digit of it sticks out; over old digits exactly when there are not more of them |
| LockProtocol.HolderIsReadBack | builder/lockfile.go:142-184 | in every run, the inode of a holder with a complete record reads as its PID exactly when no stale digit follows it |
| LockProtocol.ReadersSeeTheHolder | builder/lockfile.go:142-168 | whoever reads the path gets the holder's PID exactly then, if nobody has unlinked the path since the holder opened it |
| LockProtocol.Bystander | builder/lockfile.go:94-202 | no event of another process changes this process's own lock-file state |
| LockFiles.LockFile.constructor | builder/lockfile.go:48-75 | opens or creates the path; a new file is empty and a new inode |
| LockFiles.LockFile.Lock | builder/lockfile.go:95-130 | the exact system calls of each of the five ways to end, and what they make of the process, whatever others do in between; refused at the probe exactly when the recorded PID is another live process then, and on a reliable host otherwise only when the path has gone or the flock is taken |
| LockFiles.LockFile.ReadPID | builder/lockfile.go:142-168 | reads by path, whichever inode that is by then |
| LockFiles.LockFile.Probe | builder/lockfile.go:103-114 | refuses exactly when the recorded PID is another process that lives at that moment, and remembers it |
| LockFiles.LockFile.WritePID | builder/lockfile.go:171-184 | writes at the descriptor's offset; a failed write leaves a prefix |
| LockFiles.LockFile.Unlock | builder/lockfile.go:133-139 | unlocks only an owner's descriptor and leaves `owner` set |
| LockFiles.LockFile.Clean | builder/lockfile.go:187-202 | an owner closes and then unlinks, which on a reliable host fails only when the path has gone; anybody else does nothing |
| Mounts.UnmountEachClears | builder/overlay.go:193-209 | unmounting a list in order removes exactly what is mounted there when children come first and nothing else lies below |
| Mounts.ParentFirstLeaves | builder/overlay.go:193-195 | in the other order the parent stays mounted |
| Ledgers.ExtrasClear | builder/overlay.go:193-197 | with orderly mounts, unmounting the extra mounts in mount order leaves exactly everything else |
| Ledgers.PointsInside | builder/overlay.go:199-205 | the virtual mount points are unmounted children before parents, all below the mount point |
| Ledgers.PrefixIsListed | builder/overlay.go:242-303 | however far mounting the virtual file systems got, the unmount list names each of them |
| Ledgers.ParentsFirst | builder/overlay.go:242-303 | the virtual file systems are mounted parents before children, all below the mount point |
| Ledgers.ExtrasOff | builder/overlay.go:193-197 | dropping the record after any unmounts keeps the books balanced, and loses no foreign mount |
| Slots.SlotsStandApart | builder/build.go:88-184 | no two places that things are bind mounted to lie below each other, above a virtual mount, or at the package cache |
| Slots.SlotsAreOrderly | builder/overlay.go:190-228 | mounts in these places are unmounted children before parents in the order `Unmount` takes |
| Slots.CacheComesOff | builder/eopkg.go:201-204 | before the overlay goes, nothing mounted lies below the package cache |
| Overlays.Overlay.Mount | builder/overlay.go:127-187 | the tmpfs if asked for, the image and the union come up in this order, each only after those before it, and the flags account for exactly what did at every return and at the panic, the tmpfs root excepted; its other steps are logged in order, all of them on success; success means a union exactly when no tmpfs was asked for or its directory could be made |
| Overlays.Overlay.MountVFS | builder/overlay.go:242-303 | the virtual mounts that came up, in order, are accounted for; success means all five |
| Overlays.Overlay.BindExtra | builder/build.go:119-125 | a bind mount is recorded exactly when it came up |
| Overlays.Overlay.Unmount | builder/overlay.go:190-239 | success exactly when nothing is recorded any more; with reliable unmounts and orderly mounts, exactly the recorded ones go |
| Overlays.Overlay.UnmountExtras | builder/overlay.go:193-197 | failures are ignored, the record is emptied |
| Overlays.Overlay.UnmountVFS | builder/overlay.go:199-212 | likewise for the virtual mounts, whose flag is cleared |
| Overlays.Overlay.UnmountRoot | builder/overlay.go:214-238 | image, union, tmpfs flag; the first failure ends it, and the flags left are what is left |
| Eopkg.ChrootExec | builder/util.go:196-214 | may only be called without the mutex; leaves the PID of the command active |
| Eopkg.EopkgManager.Init | builder/eopkg.go:113-139 | success mounts the package cache and records it nowhere |
| Eopkg.EopkgManager.StartDBUS | builder/eopkg.go:142-166 | the first of its three steps that worked are logged, and the flag is set exactly when all did |
| Eopkg.EopkgManager.StopDBUS | builder/eopkg.go:169-198 | needs no mutex; the flag survives exactly a PID file that cannot be opened, and a failed kill is reported though the flag is cleared |
| Eopkg.EopkgManager.Cleanup | builder/eopkg.go:201-204 | stops D-Bus, and unmounts the package cache whenever the kernel grants it |
| Eopkg.EopkgManager.GetRepos | builder/eopkg.go:302-332 | all repositories, in some order, or an error |
| Eopkg.EopkgManager.AddRepo | builder/eopkg.go:335-339 | success appends a name that was not known |
| Eopkg.EopkgManager.RemoveRepo | builder/eopkg.go:342-346 | success leaves the list without the name |
| Repositories.NewProfileFromPath | builder/profile.go:87-132 | accepted exactly when the suffix is right, the file decodes and every name to add exists, a wildcard excepted; repositories are named by their keys, and nothing else of them changes |
| Repositories.EntryIsMounted | builder/repos.go:42-78 | the index a local repository is known by is, seen from outside the root, in the directory that is mounted for it |
| Repositories.AddLocalRepo | builder/repos.go:34-79 | the bind mount is recorded even when adding the repository fails afterwards; one to be indexed is known only once that worked |
| Repositories.RemoveRepos | builder/repos.go:81-95 | success removes every listed name |
| Repositories.AddRepos | builder/repos.go:98-122 | panics only on a missing repository; success appends all in order and records the local ones' mounts in order, failure a prefix of them; when no call fails, success exactly when all exist and none is known before its turn |
| Repositories.ConfigureRepos | builder/repos.go:126-160 | never dereferences a missing repository of an accepted profile; success leaves the kept repositories, none after a wildcard, followed by the additions: as listed, or every repository of the profile once when none or a wildcard is listed; when no call fails, success exactly when these can be added |
| Repositories.MakeRoom | builder/repos.go:126-145 | success leaves exactly what the profile keeps, whatever order the repositories were found in |
| Repositories.AllAreGone | builder/repos.go:132-145 | a wildcard removal leaves nothing, whatever order the repositories were found in |
| Packages.Package.ActivateRoot | builder/util.go:53-71 | the accounting holds at every return and at the panic; the mounts made are those of the root and then the virtual ones; the steps made are a prefix of all, the build user exactly for a ypkg package; a mounted union stands on the tmpfs if one was asked for, and without a tmpfs success means that the union is up |
| Packages.Package.BindSources | builder/build.go:88-129 | a prefix of the sources' targets was mounted and recorded; a success covers all of them exactly when every mkdir and touch that was needed worked |
| Packages.Package.BindCaches | builder/build.go:132-154 | succeeds exactly when all four caches were mounted and recorded in order; a legacy package fails |
| Packages.Package.PrepYpkg | builder/build.go:233-282 | a prefix of its steps at every return, and success is all of them: packager file, dependencies, D-Bus killed, home directory owned; no active PID is left then |
| Packages.Package.BuildYpkg | builder/build.go:286-363 | follows the ypkg steps in order, at every return a prefix of them, the start of the build command being one of its own, and success is all of them; the command is started with all sources and caches recorded exactly when no source was skipped; recorded mounts stay in their places |
| Packages.Package.BuildXML | builder/build.go:368-409 | likewise for the legacy steps, whose build has all sources exactly when none was skipped |
| Packages.Package.Build | builder/build.go:495-577 | at every return and panic live mounts equal recorded ones plus at most tmpfs root and package cache, and the mounts made are root, virtual, cache and extra ones in this order; the steps made are a prefix of all, and success is exactly all of them, with the repositories of the profile; when no call fails it depends on these alone |
| Packages.WipesAreSafe | builder/build.go:286-363 | in every such run `/run` is never wiped, and the ypkg build neither started nor finished, while D-Bus is active |
| Packages.BuiltInTheSandbox | builder/build.go:286-348 | in every such run the build command is only started, whether or not it succeeds, after fetching, upgrading, installing, killing D-Bus and, without permission, dropping the network, in that order, and D-Bus is not active then |
| Packages.LegacyBuiltWithBus | builder/build.go:368-409 | a legacy package is built with its sources fetched, the system upgraded and D-Bus active; a finished build of either kind leaves D-Bus stopped |
| Packages.Package.Chroot | builder/chroot.go:32-76 | the accounting holds at every return; the steps made are a prefix of all, among them dropping the network exactly when the package must not have it, and success is all of them; when no call fails it succeeds |
| Packages.Package.Index | builder/index.go:38-86 | the directory to index is recorded exactly when it was mounted, after the root; the steps made are a prefix of all, and success is all of them; a finished indexer leaves its PID active; when no call fails it succeeds |
| Packages.SourcesInSlots | builder/build.go:171-184 | source files with ordinary names are mounted in their own directory's places |
| Packages.SourcePlace | builder/build.go:171-184 | a ypkg build finds its sources in the build user's home, a legacy one in the package manager's archives |
| Packages.ReposInSlots | builder/repos.go:42-55 | so are local repositories |
| Images.BackingImage.Update | builder/update.go:66-112 | at every return, what it mounted is a prefix of its three mounts, all of it is live, and none of it is recorded; the steps made are a prefix of all, and success is all of them; it comes when no call fails |
| Managers.DeactivateRoot | builder/util.go:74-83 | when the mount manager is asked for everything, a reliable overlay has taken down exactly what it recorded |
| Managers.Manager.SetProfile | builder/manager.go:155-186 | succeeds exactly for a profile that could be read, with a known image, when there is none yet; otherwise nothing changes |
| Managers.Manager.SetPackage | builder/manager.go:198-238 | panics exactly without a profile or package; succeeds exactly when there is an image that is installed, no package yet, and nothing wrong with its repository, with a fresh overlay and package manager |
| Managers.Manager.DoLock | builder/manager.go:327-350 | `didStart` exactly when the whole `Lock` succeeded; a failed one has released and unlinked nothing, and holds the file exactly when its flock succeeded and only the record of the PID failed; when no call fails of itself, the path had gone, a live process was recorded, or the flock was taken |
| Managers.Manager.Cleanup | builder/manager.go:261-324 | not started: nothing happens; started: active PID 0, records emptied, the lock released if that is still to be done, its file closed and its path removed in any case; reliably, exactly the unrecorded mounts are there when the mount manager is asked; it may run again |
| Managers.Manager.CleanupTwice | builder/manager.go:353-365 | the handler's `Cleanup` followed by the deferred one: the second cannot unlock, but closes and removes the path again |
| Managers.Manager.TearDown | builder/manager.go:266-312 | all of it with the mutex held, so nothing in it takes the mutex again |
| Managers.Manager.Conclude | builder/manager.go:261-324 | after an operation: when the mount manager is asked, no recorded mount and no package cache is left, only the tmpfs root if there was one |
| Managers.Manager.Build | builder/manager.go:369-398 | success means that every step of the build was made and none after it, that root, virtual, cache and extra mounts were made in order, and that the repositories are the profile's; when no call fails, a session that locked succeeds exactly when these can be configured. Nothing is mounted without the lock; however it ends, a session that locked ends with the record empty, no active PID, the lock released last, and, reliably, the mounts it began with plus at most the tmpfs root when the mount manager is asked; one that did not lock has released nothing |
| Managers.Manager.Chroot | builder/manager.go:401-422 | the same for a chroot session, which never has a tmpfs root: success means that the root came up in all its steps and the network was dropped exactly when it must be |
| Managers.Manager.Index | builder/manager.go:456-485 | the same for indexing: success means that the root came up in all its steps and the directory was mounted and indexed in it |
| Managers.Manager.Update | builder/manager.go:425-453 | success means all steps of an update, and comes when no call fails; nothing is mounted without the lock; all that an update mounted is still there when the mount manager is asked, except the package cache, reliably exactly when the kernel grants unmounting it |
| Sessions.RunKeepsInv | builder/manager.go:117-122 | the invariant of every interleaving of the two threads: mutex, progress of `Cleanup`, record and flags |
| Sessions.RunKeepsBooks | builder/overlay.go:190-303 | while no unmount fails that the kernel could grant, a mount is live exactly when it was lost or is still accounted for, and has escaped the handler exactly as its steps say |
| Sessions.CleanupsAreExclusive | builder/manager.go:261-324 | two `Cleanup` bodies never overlap, and no thread waits for the mutex while holding it |
| Sessions.HolderLetsGo | builder/manager.go:261-324 | the holder of the mutex can always move, each of its steps brings it closer to releasing, and nobody can delay it |
| Sessions.OperationEndsClean | builder/manager.go:261-324 | after the operation's deferred `Cleanup`, whatever the handler did, no active PID and no extra or virtual mount recorded, and no flag at all unless an unmount of its own failed or was refused |
| Sessions.OperationLeavesNothing | builder/manager.go:261-324 | and when no unmount failed that the kernel could grant, nothing is mounted exactly when no mount was lost: a virtual one made after its point was passed or its flag cleared, `/dev` refused for such a one, an extra one recorded between unmounting and forgetting |
| Sessions.ExitLeavesNothing | builder/manager.go:353-365 | an exit leaves nothing mounted exactly when the operation is not between a mount and its record, no mount was lost, and none escaped the handler, made or recorded too late for it or a union refused to it, but those its own `Cleanup` has come to |
| Sessions.LockedWhileAtWork | builder/manager.go:314-323 | at each of its mounts the operation still holds its lock exactly when the handler has not released it |
| Sessions.InterruptAbandonsAMount | builder/manager.go:353-365 | a run in which the process exits with a recorded mount live although no unmount failed |
| Sessions.MountsWithoutItsLock | builder/manager.go:314-323 | a run in which the operation mounts after the handler has released and removed its lock file |
| Sessions.HandlerForgetsAMount | builder/overlay.go:193-197 | a run in which an extra mount is forgotten, so that it and the union it lies in survive both cleanups although no unmount failed that the kernel could grant |
| Sessions.HandlerForgetsVirtualMounts | builder/overlay.go:206-212 | a run in which a virtual mount made between the clearing of the flag and the unmounting of the union survives both cleanups, and the union with it |
| PackageHistories.HistoryIsDetermined | builder/history.go:257-294 | the commits determine releases and times of the history, and all of it when times within a release differ: iteration order cannot matter |
| PackageHistories.HistoryLength | builder/history.go:281-293 | as many entries as there are releases, up to ten |
| PackageHistories.LateCommitIsIgnored | builder/history.go:261-279 | a later commit of a known release changes nothing |
| PackageHistories.BumpKeepsTimestamp | builder/history.go:357-386 | a bump keeps the timestamp exactly when the leading run has fewer than ten entries, or the entry that falls off has its neighbour's time |
| PackageHistories.SeriesTimestamp | builder/history.go:357-386 | after a new version and its bumps the timestamp is the new version's, for ten commits, and then that of the tenth newest |
| PackageHistories.SortReverse | builder/history.go:236-253 | sorts in place, downwards, losing nothing |
| PackageHistories.PackageHistory.ScanUpdates | builder/history.go:257-294 | for every iteration order: the earliest commit of each of the ten highest releases, highest first |
| PackageHistories.PackageHistory.GetLastVersionTimestamp | builder/history.go:365-386 | the time of the last entry of the leading run of one version |
| SourceCache.DecodeEncode | builder/source/simple.go:94-120 | decoding a hex sum gives the digest back |
| SourceCache.EncodedDigestsAreSums | builder/source/simple.go:94-120 | hex-encoded digests of 20 and 32 bytes are sums in lower case that decode, as the other lemmas assume |
| SourceCache.EncodeDecode | builder/source/simple.go:176-181 | encoding a decoded validator gives it back exactly when it is in lower case |
| SourceCache.FetchKeeps | builder/source/simple.go:249-299 | a fetch keeps every file under its own sha256, removes nothing, and, with injective hashes, keeps every link leading to a file of that sha1 |
| SourceCache.FetchedExactlyWhen | builder/source/simple.go:122-125 | when a fetched source counts as fetched afterwards, for every kind of source and every validator, an empty one included, which the staging area may satisfy |
| SourceCache.CheckedFetchNeedsLowerCase | builder/source/simple.go:174-182 | for a checked download exactly when its validator is in lower case |
| SourceCache.Sha1ValidatorIsSkipped | builder/source/simple.go:284-296 | a sha1-long validator is satisfied by a link to content that does not hash to it |
| SourceCache.SecondLegacyName | builder/source/simple.go:284-296 | a second name for legacy content fails once and counts as fetched the next time |
| SourceCache.SourceStore.Download | builder/source/simple.go:128-209 | success with a checksum set means the content has it; when no call fails, nothing else is in the way |
| SourceCache.SourceStore.Fetch | builder/source/simple.go:249-299 | keeps the index at every return, errors included; success stores what was delivered and links it for a legacy package |
| SourceCache.SourceStore.FetchSources | builder/build.go:71-84 | on success every source of any kind was there before, came with an earlier one, or has been delivered, stored and, for a legacy package, linked, and exactly the sources with a sha256-long validator are bound to content that hashes to it; sources that are all there cost nothing; when no call fails, a failure names its source; at every return, with injective hashes, what was stored is still there unchanged |
| Users.ParseUsers | builder/users.go:73-118 | succeeds exactly when every line parses; the table has the last entry of each name |
| Users.ParseGroups | builder/users.go:121-162 | likewise for groups |
| Users.LinesOfUnfinished | builder/users.go:83-85 | a last line without a line end is read like the others |
| Users.LastEntryWins | builder/users.go:109-110 | the table has exactly the names of the lines, each with its last entry |
| Users.UserReadsBack | builder/users.go:86-110 | a printed user is read back exactly when its fields are trimmed |
| Users.UsersRoundTrip | builder/users.go:73-118 | a printed list of users parses back to it by name |
| Users.GroupReadsBack | builder/users.go:134-154 | a printed group is read back exactly when name and member list are trimmed and the list is not one empty name |
| Users.GroupsRoundTrip | builder/users.go:121-162 | a printed list of groups parses back to it by name |
| Text.SplitJoin | builder/users.go:86-89 | splitting what was joined gives the fields back |
| Text.JoinSplit | builder/users.go:143-146 | joining what was split gives the text back |
| Text.AtoiFormatInt | builder/users.go:97-108 | every 64-bit integer survives printing and parsing |
| Text.TrimSpaceFixpoint | builder/users.go:91-96 | exactly the trimmed strings are left alone |
| Copies.Disk.CopyAll | builder/copy.go:35-75 | on success the files are the old ones with the source copied over them, and the directories above the copies exist besides the old ones; nothing outside the target ever changes; when no call fails, success exactly when no file stands where a directory has to be and no directory where a file has to be |
| Copies.CopiedOverrides | builder/copy.go:46-72 | that is: every source file at its relative place, and every other file as it was |
| Copies.OverridesDetermines | builder/copy.go:46-72 | only one file map does that |
| Copies.MadeExactly | builder/copy.go:46-65 | the directories made are exactly those above the place of some source file |
| Copies.DirectoryRecreated | builder/copy.go:28-34 | a source directory is recreated exactly when a file lies somewhere below it |
| Copies.EntriesStandApart | builder/copy.go:46-65 | what the entries copied before have put there never stands in the way of the next |

## Left out

- LockFiles.LockFile.Lock: one `LockFile` per process, locked before it is cleaned; taking it up again after `Clean` is not modelled, nor are recycled PIDs and the deletion of lock files by other commands.
- Managers.Manager.Build: that all recorded mounts come off is stated for source files and local repositories named by one ordinary path component; with other names a mount may lie below an earlier one, and the rest of the contract holds all the same. A manager runs one operation; the operation runs alone here, and with the signal handler in `Session.dfy`.
- Sessions.OperationLeavesNothing: leaves the tmpfs root and the mount manager's last resort aside. An unmount is refused while something is mounted below; a mount, on the other hand, may come up whether or not its directory went with an unmounted union, so more runs are covered than there are.
- Copies.Disk.CopyAll: permissions are not modelled; cycles of links do not occur in a finite tree.
- Users.ParseUsers: text is a sequence of characters; reading errors and the scanner's limit on line length are not modelled.
- PackageHistories.SortReverse: the sorting library is taken as its insertion sort for short lists; only sortedness and contents are used.
- SourceCache.SourceStore.Fetch: one fetch at a time; file names and validators have no separators; `file://` sources are copied unchecked, as in the code.
- Eopkg.EopkgManager.Upgrade: which packages are installed is not modelled; neither is what commands print or do in the root beyond having worked.
- The mount manager is assumed to unmount, when asked for everything, some of what is mounted and nothing else; no proof relies on more.
- The killing of processes left in the root, sleeps, the environment of commands and the signals sent to the active PID.
- Git sources, whose every step is a child process; only their bind mounts are covered, by name.
- Decoding of package files, profiles and configuration; values after decoding are inputs. Overlay paths are values, not text.
- Cache deletion, logging, completions, file sizes, transit manifests and user information: nothing proved here depends on them.
