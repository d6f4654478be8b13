/**
 The session manager: takes the lock of a build root, runs one operation in it, and cleans up after it however it
 ended. Nothing is mounted before the lock is taken, so the early return of `Cleanup` abandons no mount.
 */
module Managers {
  import opened Wrappers
  import opened Text
  import opened Paths
  import opened Mounts
  import opened Ledgers
  import opened Slots
  import opened Overlays
  import opened Eopkg
  import opened Repositories
  import opened Packages
  import opened Images
  import opened LockFiles
  import L = LockProtocol

  datatype Exit = Succeeded | OperationFailed | Interrupted | NotInitialised | NotLocked | Panic

  // ---------------------------------------------------------------- what happened to the lock

  /** No system call that releases, closes or unlinks a lock file. */
  ghost predicate OnlyAttempts(own: seq<L.Event>) {
    forall e :: e in own ==> !e.Unlock? && !e.Close? && !e.Remove? && !e.RemoveFails?
  }

  /** Since then, nothing was released. */
  ghost predicate Attempted(before: seq<L.Event>, after: seq<L.Event>) {
    before <= after && OnlyAttempts(after[|before|..])
  }

  /** Since then, a flock succeeded. */
  ghost predicate Flocked(before: seq<L.Event>, after: seq<L.Event>, p: L.Pid) {
    before <= after && L.Flock(p) in after[|before|..]
  }

  lemma NoneReleased(own: seq<L.Event>, p: L.Pid)
    ensures Attempted(own, own) && !Flocked(own, own, p)
  {}

  /** The last thing that happened was an unlock, and then the closing and unlinking of the file. */
  ghost predicate Released(own: seq<L.Event>, p: L.Pid) {
    var n := |own|;
    && n >= 3 && own[n - 3] == L.Event.Unlock(p) && own[n - 2] == L.Close(p)
    && (own[n - 1].Remove? || own[n - 1].RemoveFails?)
  }

  lemma ReleasedByClean(before: seq<L.Event>, removed: bool, p: L.Pid, path: L.Path)
    ensures Released(before + [L.Event.Unlock(p)] + CleanTrace(true, removed, p, path), p)
  {}

  /** What a failed `Lock` has done: released nothing, and flocked exactly when only the record failed. */
  lemma AttemptOnly(before: seq<L.Event>, r: LockResult, p: L.Pid, n: int, path: L.Path, fd: L.Ino)
    ensures var own := [L.Open(p, path, fd)] + LockTrace(r, p, n);
            && (r.Locked? ==> own[|own| - 1] == L.Write(p, |Digits(p)|))
            && (!r.Locked? ==> Attempted(before, before + own))
            && (Flocked(before, before + own, p) <==> r.Locked? || r.NotRecorded?)
  {
    var own := [L.Open(p, path, fd)] + LockTrace(r, p, n);
    assert (before + own)[|before|..] == own;
    if r.Locked? || r.NotRecorded? { assert own[3] == L.Flock(p); }
  }

  /** Nothing failed of itself, so the path had gone, another live process was recorded, or the flock was taken. */
  ghost predicate TurnedAway(own: seq<L.Event>, dir: map<L.Path, L.Ino>, path: L.Path) {
    path !in dir || (own != [] && (own[|own| - 1].Refuse? || own[|own| - 1].FlockFails?))
  }

  lemma Turned(before: seq<L.Event>, r: LockResult, p: L.Pid, n: int, path: L.Path, fd: L.Ino, dir: map<L.Path, L.Ino>)
    ensures r.ErrOwned? || r.Busy? || (r.Unreadable? && path !in dir) ==>
              TurnedAway(before + ([L.Open(p, path, fd)] + LockTrace(r, p, n)), dir, path)
  {
    var own := [L.Open(p, path, fd)] + LockTrace(r, p, n);
    assert (before + own)[|before + own| - 1] == own[|own| - 1];
  }

  // ---------------------------------------------------------------- what a session did

  /** What a build did: how far the root came up, which repositories it added and what it bind mounted. */
  datatype Report =
    Report(tmpfs: bool, laidOut: bool, based: bool, n: nat, names: seq<string>, extras: seq<Path>, made: bool)

  const NOTHING := Report(false, false, true, 0, [], [], true)

  /** The mounts of a session whose root came up, in order. */
  function RootLog(base: Path, tmpfs: bool, laidOut: bool, rest: seq<Path>): seq<Path> {
    RootStretch(base, tmpfs, laidOut, laidOut) + VfsOrder(base) + rest
  }

  lemma LogIsRootLog(o: Overlay, tmpfs: bool, cached: bool, laidOut: bool)
    requires o.mountedImg == o.mountedOverlay == laidOut && o.vfs == VfsOrder(o.BaseDir)
    ensures MountLog(o, tmpfs, cached) ==
            RootLog(o.BaseDir, tmpfs, laidOut, (if cached then [CacheAt(o.BaseDir)] else []) + o.ExtraMounts)
    ensures !cached ==> MountLog(o, tmpfs, cached) == RootLog(o.BaseDir, tmpfs, laidOut, o.ExtraMounts)
    ensures o.Came(tmpfs) == RootLog(o.BaseDir, tmpfs, laidOut, [])
  {
    assert [] + o.ExtraMounts == o.ExtraMounts;
  }

  /** What is logged of a build that got `n` steps far and was then cleaned up after. */
  ghost predicate RanTo(t0: seq<Milestone>, t1: seq<Milestone>, p: Package, b: Report, active: bool, faultless: bool) {
    && b.n <= |BuildSteps(p, b.based)|
    && var t := t0 + BuildSteps(p, b.based)[..b.n]; BusStopped(t, t1, DbusActive(t), active, faultless)
  }

  /**
   A completed build: all its steps and no others, its mounts in order, and the repositories of the profile.
   When no mount point was skipped for want of a directory, its extra mounts are all that it should make.
   */
  ghost predicate Completed(p: Package, profile: Profile, base: Path, b: Report,
                            t0: seq<Milestone>, t1: seq<Milestone>, u0: seq<Path>, u1: seq<Path>,
                            r0: seq<EopkgRepo>, r1: seq<EopkgRepo>) {
    && b.laidOut == b.based && t1 == t0 + BuildSteps(p, b.based)
    && u1 == u0 + RootLog(base, b.tmpfs, b.laidOut, [CacheAt(base)] + b.extras)
    && Follows(profile, b.names, r0, r1)
    && (b.made <==> b.extras == BuildTargets(p, MountPoint(base), profile, b.names))
  }

  lemma BuildIsComplete(o: Overlay, e: EopkgManager, p: Package, profile: Profile, b: Report,
                        t0: seq<Milestone>, u0: seq<Path>, r0: seq<EopkgRepo>)
    requires o.mountedImg == o.mountedOverlay == b.laidOut && o.vfs == VfsOrder(o.BaseDir)
    requires o.ExtraMounts == b.extras && o.world.ups == u0 + MountLog(o, b.tmpfs, true)
    requires b.made <==> b.extras == BuildTargets(p, o.Union(), profile, b.names)
    requires Follows(profile, b.names, r0, e.repos)
    requires b.laidOut == b.based && b.n == |BuildSteps(p, b.based)|
    requires o.world.trace == t0 + BuildSteps(p, b.based)[..b.n]
    ensures Completed(p, profile, o.BaseDir, b, t0, o.world.trace, u0, o.world.ups, r0, e.repos)
  {
    hide Follows, BuildTargets, MountLog, RootLog, BuildSteps;
    LogIsRootLog(o, b.tmpfs, true, b.laidOut);
    assert BuildSteps(p, b.based)[..b.n] == BuildSteps(p, b.based);
  }

  /** Every repository that a profile adds exists, is listed once, and is not among those it keeps. */
  ghost predicate Configurable(profile: Profile, names: seq<string>, known: seq<EopkgRepo>) {
    AddOrder(profile, names) && Addable(Kept(known, profile), Picked(profile, names))
  }

  // ---------------------------------------------------------------- taking a root down

  /** Some request for everything was made since; `now[|was|]` is the mount table at the first. */
  ghost predicate AskedSince(was: seq<multiset<Path>>, now: seq<multiset<Path>>) { |was| < |now| && was <= now }

  /**
   The overlay takes down what it recorded, and then the mount manager is asked for the rest. With reliable
   unmounts and orderly mounts, what is mounted at that moment is exactly what nobody recorded.
   */
  method DeactivateRoot(o: Overlay)
    requires o.Valid()
    modifies o`ExtraMounts, o`mountedImg, o`mountedOverlay, o`mountedVFS, o`mountedTmpfs, o`vfs, o`beside, o`gone,
             o.world`live, o.world`asked
    ensures o.Valid() && o.ExtraMounts == [] && !o.mountedVFS
    ensures |o.world.asked| == |old(o.world.asked)| + 1 && AskedSince(old(o.world.asked), o.world.asked)
    ensures o.world.live <= o.world.asked[|old(o.world.asked)|] <= old(o.world.live)
    ensures o.world.reliable && old(o.gone == multiset{} && Orderly(o.beside, o.Led())) ==>
              o.Clear() && o.world.asked[|old(o.world.asked)|] == old(o.beside)
    ensures old(o.Clear()) ==> o.Clear() && o.world.asked[|old(o.world.asked)|] == old(o.world.live)
  {
    hide Balanced, VfsOrder, Orderly, Keeps, Overlay.ValidFor;
    var r := o.Unmount();
    ghost var left := o.world.live;
    o.world.UnmountAll();
    o.NoteTaken(left);
  }

  /**
   The recorded mounts stand in their slots, nobody took one off, and nobody else's mount but the package cache
   stands in their way.
   */
  ghost predicate Dismountable(o: Overlay, e: EopkgManager)
    reads o
  {
    && e.root == o.Union() && o.gone == multiset{} && AllInSlots(o.BaseDir, o.ExtraMounts)
    && Away(o.beside - multiset{CacheAt(o.BaseDir)}, o.BaseDir)
  }

  lemma CacheGoes(o: Overlay, e: EopkgManager)
    requires o.Valid() && Dismountable(o, e)
    ensures e.CacheTarget() == CacheAt(o.BaseDir)
    ensures CacheAt(o.BaseDir) in o.world.live ==>
              CanUnmount(o.world.live, CacheAt(o.BaseDir)) && CacheAt(o.BaseDir) in o.beside
    ensures CacheAt(o.BaseDir) !in o.world.live ==> o.beside - multiset{CacheAt(o.BaseDir)} == o.beside
  {
    hide Balanced, VfsOrder, Away, AllInSlots;
    o.NothingGone();
    if CacheAt(o.BaseDir) in o.world.live {
      CacheComesOff(o.world.live, o.beside, o.Led());
      CacheIsUnrecorded(o.Led());
      UnrecordedIsBeside(o.world.live, o.beside, o.Led(), CacheAt(o.BaseDir));
    } else {
      AbsentIsNotBeside(o.world.live, o.beside, o.Led(), CacheAt(o.BaseDir));
    }
  }

  /** Of what was mounted, at most the package cache went: when the kernel grants it, and reliably exactly then. */
  ghost predicate OnlyCacheGoes(before: multiset<Path>, after: multiset<Path>, cache: Path, reliable: bool) {
    && (after == before || (CanUnmount(before, cache) && after == before - multiset{cache}))
    && (reliable ==> after == TryUnmount(before, cache))
  }

  /** D-Bus was stopped if it no longer counts as active, and killed as well unless that failed. */
  ghost predicate BusStopped(t0: seq<Milestone>, t1: seq<Milestone>, before: bool, after: bool, faultless: bool) {
    || t1 == t0 + STOP_STEPS[..StopCount(before, after, true)]
    || (!faultless && t1 == t0 + STOP_STEPS[..StopCount(before, after, false)])
  }

  lemma BusUntouched(t0: seq<Milestone>, t1: seq<Milestone>, before: bool, after: bool, faultless: bool)
    requires BusStopped(t0, t1, before, after, faultless) && (!before || after)
    ensures t1 == t0
  {}

  lemma StoppedTwice(t0: seq<Milestone>, t1: seq<Milestone>, t2: seq<Milestone>, before: bool, mid: bool, after: bool,
                     faultless: bool)
    requires BusStopped(t0, t1, before, mid, faultless) && BusStopped(t1, t2, mid, after, faultless)
    requires (mid ==> before) && (after ==> mid)
    ensures BusStopped(t0, t2, before, after, faultless)
  {
    hide BusStopped;
    if mid == before { BusSame(t0, t1, before, mid, faultless); } else { BusUntouched(t1, t2, mid, after, faultless); }
  }

  lemma BusSame(t0: seq<Milestone>, t1: seq<Milestone>, before: bool, mid: bool, faultless: bool)
    requires BusStopped(t0, t1, before, mid, faultless) && mid == before
    ensures t1 == t0
  {}

  /** D-Bus is stopped, twice over, and the package cache unmounted. */
  method CleanPackages(e: EopkgManager) returns (ghost unmounted: bool)
    requires e.Valid()
    modifies e`dbusActive, e.world`live, e.world`trace
    ensures e.Valid() && (e.dbusActive ==> old(e.dbusActive)) && (e.world.faultless ==> !e.dbusActive)
    ensures BusStopped(old(e.world.trace), e.world.trace, old(e.dbusActive), e.dbusActive, e.world.faultless)
    ensures unmounted ==> CanUnmount(old(e.world.live), e.CacheTarget())
    ensures e.world.live == if unmounted then old(e.world.live) - multiset{e.CacheTarget()} else old(e.world.live)
    ensures e.world.reliable ==> unmounted == CanUnmount(old(e.world.live), e.CacheTarget())
  {
    ghost var before, active := e.world.trace, e.dbusActive;
    var stopped := e.StopDBUS();
    ghost var between, mid := e.world.trace, e.dbusActive;
    ghost var again;
    unmounted, again := e.Cleanup();
    StoppedTwice(before, between, e.world.trace, active, mid, e.dbusActive, e.world.faultless);
  }

  method CleanPackagesBeside(o: Overlay, e: EopkgManager)
    requires o.Valid() && e.Valid() && e.world == o.world
    modifies e`dbusActive, e.world`live, e.world`trace, o`beside, o`gone
    ensures o.Valid() && e.Valid() && o.world.live <= old(o.world.live)
    ensures (e.dbusActive ==> old(e.dbusActive)) && (e.world.faultless ==> !e.dbusActive)
    ensures BusStopped(old(e.world.trace), e.world.trace, old(e.dbusActive), e.dbusActive, e.world.faultless)
    ensures OnlyCacheGoes(old(o.world.live), o.world.live, e.CacheTarget(), o.world.reliable)
    ensures e.world.reliable && old(Dismountable(o, e)) ==>
              o.beside == old(o.beside) - multiset{CacheAt(o.BaseDir)} && o.gone == multiset{}
  {
    hide Balanced, VfsOrder, Away, AllInSlots, CacheAt, Dismountable, Overlay.ValidFor;
    ghost var tidy := Dismountable(o, e);
    if tidy {
      CacheGoes(o, e);
      NoneGone(o, e);
    }
    ghost var before := o.Table();
    ghost var unmounted := CleanPackages(e);
    if unmounted {
      assert o.Table() == before - multiset{e.CacheTarget()};
      o.NoteUnmount(before, e.CacheTarget());
    }
  }

  lemma OrderlyWithout(o: Overlay, e: EopkgManager)
    requires Dismountable(o, e)
    ensures Orderly(o.beside - multiset{CacheAt(o.BaseDir)}, o.Led())
  {
    SlotsAreOrderly(o.beside - multiset{CacheAt(o.BaseDir)}, o.Led());
  }

  lemma NoneGone(o: Overlay, e: EopkgManager)
    requires Dismountable(o, e)
    ensures o.gone == multiset{}
  {}

  /** What `Cleanup` does to a root; the active PID is not set through the notifier, whose mutex is held. */
  method TakeDown(o: Overlay, e: EopkgManager, notif: PidNotifier)
    requires o.Valid() && e.Valid() && e.world == o.world
    modifies o`ExtraMounts, o`mountedImg, o`mountedOverlay, o`mountedVFS, o`mountedTmpfs, o`vfs, o`beside, o`gone,
             o.world`live, o.world`trace, o.world`asked, e`dbusActive, notif`activePID
    ensures o.Valid() && e.Valid() && notif.activePID == 0
    ensures (e.dbusActive ==> old(e.dbusActive)) && (e.world.faultless ==> !e.dbusActive)
    ensures BusStopped(old(e.world.trace), e.world.trace, old(e.dbusActive), e.dbusActive, e.world.faultless)
    ensures AskedSince(old(o.world.asked), o.world.asked)
    ensures |o.world.asked| == |old(o.world.asked)| + 2
    ensures o.world.live <= o.world.asked[|old(o.world.asked)|] <= old(o.world.live)
    ensures o.ExtraMounts == [] && !o.mountedVFS
    ensures o.world.reliable && old(Dismountable(o, e)) ==>
              o.Clear() && o.world.asked[|old(o.world.asked)|] == old(o.beside) - multiset{CacheAt(o.BaseDir)}
    ensures old(o.Clear()) ==>
              OnlyCacheGoes(old(o.world.live), o.world.asked[|old(o.world.asked)|], e.CacheTarget(), o.world.reliable)
  {
    hide Balanced, VfsOrder, Dismountable, OnlyCacheGoes, Overlay.ValidFor, Overlay.Table, CacheAt;
    AskOnce(o, e, notif);
    AskAgain(o);
  }

  method AskOnce(o: Overlay, e: EopkgManager, notif: PidNotifier)
    requires o.Valid() && e.Valid() && e.world == o.world
    modifies o`ExtraMounts, o`mountedImg, o`mountedOverlay, o`mountedVFS, o`mountedTmpfs, o`vfs, o`beside, o`gone,
             o.world`live, o.world`trace, o.world`asked, e`dbusActive, notif`activePID
    ensures o.Valid() && e.Valid() && notif.activePID == 0
    ensures (e.dbusActive ==> old(e.dbusActive)) && (e.world.faultless ==> !e.dbusActive)
    ensures BusStopped(old(e.world.trace), e.world.trace, old(e.dbusActive), e.dbusActive, e.world.faultless)
    ensures |o.world.asked| == |old(o.world.asked)| + 1 && AskedSince(old(o.world.asked), o.world.asked)
    ensures o.world.live <= o.world.asked[|old(o.world.asked)|] <= old(o.world.live)
    ensures o.ExtraMounts == [] && !o.mountedVFS
    ensures o.world.reliable && old(Dismountable(o, e)) ==>
              o.Clear() && o.world.asked[|old(o.world.asked)|] == old(o.beside) - multiset{CacheAt(o.BaseDir)}
    ensures old(o.Clear()) ==>
              OnlyCacheGoes(old(o.world.live), o.world.asked[|old(o.world.asked)|], e.CacheTarget(), o.world.reliable)
  {
    hide Balanced, VfsOrder, Orderly, CacheAt, Overlay.ValidFor, Overlay.Table, Dismountable, OnlyCacheGoes, DbusActive;
    CleanAndKill(o, e, notif);
    DeactivateRoot(o);
  }

  method CleanAndKill(o: Overlay, e: EopkgManager, notif: PidNotifier)
    requires o.Valid() && e.Valid() && e.world == o.world
    modifies o`beside, o`gone, o.world`live, o.world`trace, e`dbusActive, notif`activePID
    ensures o.Valid() && e.Valid() && notif.activePID == 0 && o.world.live <= old(o.world.live)
    ensures (e.dbusActive ==> old(e.dbusActive)) && (e.world.faultless ==> !e.dbusActive)
    ensures BusStopped(old(e.world.trace), e.world.trace, old(e.dbusActive), e.dbusActive, e.world.faultless)
    ensures OnlyCacheGoes(old(o.world.live), o.world.live, e.CacheTarget(), o.world.reliable)
    ensures o.world.reliable && old(Dismountable(o, e)) ==>
              && o.beside == old(o.beside) - multiset{CacheAt(o.BaseDir)}
              && o.gone == multiset{} && Orderly(o.beside, o.Led())
  {
    hide Balanced, VfsOrder, Orderly, Away, AllInSlots, CacheAt, Overlay.ValidFor, Overlay.Table, Dismountable,
         OnlyCacheGoes, DbusActive;
    if o.world.reliable && Dismountable(o, e) { OrderlyWithout(o, e); }
    CleanPackagesBeside(o, e);
    if notif.activePID > 0 { notif.activePID := 0; }
  }

  /** The same without an overlay. */
  method TakeDownImage(e: EopkgManager, notif: PidNotifier)
    requires e.Valid()
    modifies e.world`live, e.world`trace, e.world`asked, e`dbusActive, notif`activePID
    ensures e.Valid() && notif.activePID == 0
    ensures (e.dbusActive ==> old(e.dbusActive)) && (e.world.faultless ==> !e.dbusActive)
    ensures BusStopped(old(e.world.trace), e.world.trace, old(e.dbusActive), e.dbusActive, e.world.faultless)
    ensures AskedSince(old(e.world.asked), e.world.asked)
    ensures |e.world.asked| == |old(e.world.asked)| + 1
    ensures e.world.live <= e.world.asked[|old(e.world.asked)|] <= old(e.world.live)
    ensures OnlyCacheGoes(old(e.world.live), e.world.asked[|old(e.world.asked)|], e.CacheTarget(), e.world.reliable)
  {
    ghost var unmounted := CleanPackages(e);
    if notif.activePID > 0 { notif.activePID := 0; }
    e.world.UnmountAll();
  }

  method AskAgain(o: Overlay)
    requires o.Valid()
    modifies o`gone, o.world`live, o.world`asked
    ensures o.Valid() && o.world.live <= old(o.world.live)
    ensures AskedSince(old(o.world.asked), o.world.asked) && |o.world.asked| == |old(o.world.asked)| + 1
  {
    hide Overlay.ValidFor;
    ghost var left := o.world.live;
    o.world.UnmountAll();
    o.NoteTaken(left);
  }

  // ---------------------------------------------------------------- the session

  class Manager {
    const world: World
    const host: Host
    /** The mutex `m.lock` and `m.activePID`. */
    const notif: PidNotifier
    const pid: L.Pid
    const EnableTmpfs: bool
    const ValidTmpfsSize: bool
    var image: Option<BackingImage>
    var profile: Option<Profile>
    var pkg: Option<Package>
    var overlay: Overlay?
    var pkgManager: EopkgManager?
    var lockfile: LockFile?
    var didStart: bool
    var cancelled: bool
    var updateMode: bool

    ghost predicate WiredUp()
      reads this, world, overlay, pkgManager
    {
      && (pkg.Some? ==> pkgManager != null && profile.Some?) && (pkg.Some? <==> overlay != null)
      && (profile.Some? <==> image.Some?)
      && (overlay != null ==> overlay.world == world && overlay.Valid())
      && (pkgManager != null ==> pkgManager.world == world && pkgManager.notif == notif && pkgManager.Valid())
    }

    ghost predicate LockedUp()
      reads this, host, lockfile
    {
      && host.Valid()
      && (lockfile != null ==> lockfile.host == host && lockfile.ourPID == pid && lockfile.Valid())
      && (didStart ==> lockfile != null && lockfile.owner)
    }

    /** Between operations nothing is locked and nothing is recorded. */
    ghost predicate Unstarted()
      reads this, world, host, notif, overlay, pkgManager, lockfile
    {
      && !notif.held && WiredUp() && LockedUp() && !didStart && lockfile == null
      && pid in host.st.alive && pid !in host.st.procs && notif.activePID == 0
      && (overlay != null ==> overlay.Clear() && overlay.gone == multiset{} && !overlay.EnableTmpfs)
      && (pkg.Some? ==> pkgManager.root == overlay.Union() && !pkgManager.dbusActive)
      && !DbusActive(world.trace)
    }

    constructor (world: World, host: Host, notif: PidNotifier, pid: L.Pid, enableTmpfs: bool, validTmpfsSize: bool)
      requires host.Valid() && pid in host.st.alive && pid !in host.st.procs
      requires !notif.held && notif.activePID == 0 && !DbusActive(world.trace)
      ensures this.world == world && this.host == host && this.notif == notif && this.pid == pid
      ensures EnableTmpfs == enableTmpfs && ValidTmpfsSize == validTmpfsSize
      ensures Unstarted() && pkg.None? && image.None? && !cancelled
    {
      this.world, this.host, this.notif, this.pid := world, host, notif, pid;
      EnableTmpfs, ValidTmpfsSize := enableTmpfs, validTmpfsSize;
      image, profile, pkg, overlay, pkgManager, lockfile := None, None, None, null, null, null;
      didStart, cancelled, updateMode := false, false, false;
    }

    /**
     Without a started operation nothing happens. Otherwise the active PID is cleared, the record of extra and
     virtual mounts is emptied, the lock is released if that has not been done yet, and its file closed and its path
     removed in any case. With reliable unmounts, what is mounted when the mount manager is asked for the rest is
     exactly what nobody recorded, the package cache excepted, which its manager unmounts first. It may run again.
     */
    method Cleanup() returns (ghost removed: bool)
      requires !notif.held && WiredUp() && LockedUp()
      modifies world`live, world`trace, world`asked, host, notif, overlay, pkgManager
      ensures !notif.held && WiredUp() && LockedUp()
      ensures overlay != null ==> overlay.EnableTmpfs == old(overlay.EnableTmpfs)
      ensures !didStart && overlay != null ==> unchanged(overlay)
      ensures !didStart && pkgManager != null ==> unchanged(pkgManager)
      ensures !didStart ==> unchanged(world) && unchanged(host) && notif.activePID == old(notif.activePID)
      ensures didStart && pkgManager != null ==>
                && (pkgManager.dbusActive ==> old(pkgManager.dbusActive)) && pkgManager.repos == old(pkgManager.repos)
                && (world.faultless ==> !pkgManager.dbusActive)
                && BusStopped(old(world.trace), world.trace, old(pkgManager.dbusActive), pkgManager.dbusActive,
                              world.faultless)
      ensures pkgManager == null ==> world.trace == old(world.trace)
      ensures didStart ==> notif.activePID == 0 && AskedSince(old(world.asked), world.asked)
      ensures didStart ==> |world.asked| == |old(world.asked)| + if pkg.Some? then 2 else 1
      ensures didStart ==> world.live <= world.asked[|old(world.asked)|] <= old(world.live)
      ensures didStart && pkg.Some? ==> overlay.ExtraMounts == [] && !overlay.mountedVFS
      ensures didStart && world.reliable && pkg.Some? && old(Dismountable(overlay, pkgManager)) ==>
                overlay.Clear()
                && world.asked[|old(world.asked)|] == old(overlay.beside) - multiset{CacheAt(overlay.BaseDir)}
      ensures didStart && pkgManager != null && (pkg.None? || old(overlay.Clear())) ==>
                OnlyCacheGoes(old(world.live), world.asked[|old(world.asked)|],
                              pkgManager.CacheTarget(), world.reliable)
      ensures didStart ==> !lockfile.IsOpen()
      ensures didStart ==>
                Own(host.events, pid) ==
                Own(old(host.events), pid) + (if old(lockfile.IsOpen()) then [L.Event.Unlock(pid)] else [])
                + CleanTrace(true, removed, pid, lockfile.path)
    {
      hide Balanced, VfsOrder, Dismountable, OnlyCacheGoes, Overlay.ValidFor, BusStopped, Overlay.Table, DbusActive;
      removed := false;
      if !didStart { return; }
      notif.Lock();
      TearDown();
      removed := ReleaseLock();
      notif.Unlock();
    }

    method ReleaseLock() returns (ghost removed: bool)
      requires LockedUp() && didStart
      modifies host
      ensures LockedUp() && !lockfile.IsOpen()
      ensures Own(host.events, pid) ==
              Own(old(host.events), pid) + (if old(lockfile.IsOpen()) then [L.Event.Unlock(pid)] else [])
              + CleanTrace(true, removed, pid, lockfile.path)
    {
      hide Host.Valid, Own;
      var unlocked := lockfile.Unlock();
      removed := lockfile.Clean();
    }

    /** Runs with the mutex held throughout. */
    method TearDown()
      requires notif.held && WiredUp()
      modifies world`live, world`trace, world`asked, notif`activePID, overlay, pkgManager
      ensures overlay != null ==> overlay.EnableTmpfs == old(overlay.EnableTmpfs)
      ensures WiredUp() && notif.activePID == 0
      ensures pkgManager != null ==>
                && (pkgManager.dbusActive ==> old(pkgManager.dbusActive)) && pkgManager.repos == old(pkgManager.repos)
                && (world.faultless ==> !pkgManager.dbusActive)
                && BusStopped(old(world.trace), world.trace, old(pkgManager.dbusActive), pkgManager.dbusActive,
                              world.faultless)
      ensures pkgManager == null ==> world.trace == old(world.trace)
      ensures AskedSince(old(world.asked), world.asked)
      ensures |world.asked| == |old(world.asked)| + if pkg.Some? then 2 else 1
      ensures world.live <= world.asked[|old(world.asked)|] <= old(world.live)
      ensures pkg.Some? ==> overlay.ExtraMounts == [] && !overlay.mountedVFS
      ensures world.reliable && pkg.Some? && old(Dismountable(overlay, pkgManager)) ==>
                overlay.Clear()
                && world.asked[|old(world.asked)|] == old(overlay.beside) - multiset{CacheAt(overlay.BaseDir)}
      ensures pkgManager != null && (pkg.None? || old(overlay.Clear())) ==>
                OnlyCacheGoes(old(world.live), world.asked[|old(world.asked)|],
                              pkgManager.CacheTarget(), world.reliable)
    {
      hide Balanced, VfsOrder, Orderly, Away, AllInSlots, CacheAt, Overlay.ValidFor, Overlay.Table, Dismountable,
           OnlyCacheGoes, DbusActive;
      if pkg.Some? {
        TakeDown(overlay, pkgManager, notif);
      } else if pkgManager != null {
        TakeDownImage(pkgManager, notif);
      } else {
        if notif.activePID > 0 { notif.activePID := 0; }
        world.UnmountAll();
      }
    }

    /**
     An interrupted session that has not exited yet: the handler cleans up, others run, and the deferred `Cleanup`
     follows. The second one cannot unlock any more, but closes and removes the path again, whoever's it is by then.
     */
    method CleanupTwice() returns (ghost removed: bool, ghost again: bool)
      requires !notif.held && WiredUp() && LockedUp() && didStart && lockfile.IsOpen()
      modifies world`live, world`trace, world`asked, host, notif, overlay, pkgManager
      ensures !notif.held && WiredUp() && LockedUp() && notif.activePID == 0
      ensures Own(host.events, pid) ==
              Own(old(host.events), pid) + [L.Event.Unlock(pid)] + CleanTrace(true, removed, pid, lockfile.path)
              + CleanTrace(true, again, pid, lockfile.path)
    {
      hide Host.Valid, LockFile.Valid, Own, CleanTrace, Balanced, VfsOrder, Dismountable, OnlyCacheGoes,
           Overlay.ValidFor;
      removed := Cleanup();
      lockfile.Meanwhile();
      again := Cleanup();
    }

    // -------------------------------------------------------------- setting up

    /** `loaded` is the profile as far as it could be read, and `known` whether its image is one there is. */
    method SetProfile(loaded: Option<Profile>, backing: BackingImage, known: bool) returns (ok: bool)
      requires Unstarted()
      modifies this`profile, this`image, notif
      ensures Unstarted() && (ok <==> old(image).None? && image.Some?)
      ensures ok <==> loaded.Some? && known && old(image).None?
      ensures if ok then profile == loaded && image == Some(backing) else profile == old(profile) && image == old(image)
    {
      hide Balanced, VfsOrder, Host.Valid, Overlay.ValidFor;
      notif.Lock();
      ok := loaded.Some? && known && image.None?;
      if ok { profile, image := loaded, Some(backing); }
      notif.Unlock();
    }

    /**
     `installed` tells whether the image's file is there, and `readable` whether the package's git repository could be
     opened, if it has one and its history is wanted. Without a profile there is no image to ask, and the call panics;
     the mutex is released even so.
     */
    method SetPackage(p: Package, baseDir: Path, repos: seq<EopkgRepo>, installed: bool, readable: bool)
      returns (r: Outcome)
      requires Unstarted()
      modifies this`pkg, this`overlay, this`pkgManager, notif
      ensures Unstarted()
      ensures r.Panicked? <==> old(pkg).None? && image.None?
      ensures r.Done? <==> old(pkg).None? && image.Some? && installed && readable
      ensures if r.Done? then pkg == Some(p) && fresh(overlay) && overlay.BaseDir == baseDir && fresh(pkgManager)
              else pkg == old(pkg) && overlay == old(overlay) && pkgManager == old(pkgManager)
    {
      hide Balanced, VfsOrder, Host.Valid, Overlay.ValidFor;
      notif.Lock();
      if pkg.Some? { notif.Unlock(); return Failed; }
      if image.None? { notif.Unlock(); return Panicked; }
      if !installed || !readable { notif.Unlock(); return Failed; }
      var o := new Overlay(world, baseDir);
      var e := new EopkgManager(world, notif, o.Union(), repos);
      pkg, overlay, pkgManager := Some(p), o, e;
      notif.Unlock();
      return Done;
    }

    // -------------------------------------------------------------- the lock

    /**
     Fails without having released anything. When only the record of the PID failed, the file is flocked all the
     same: the session holds a lock that it does not know it has. `own` are the system calls it made.
     */
    method DoLock(path: L.Path) returns (ok: bool, ghost own: seq<L.Event>)
      requires LockedUp() && !didStart && lockfile == null && pid in host.st.alive && pid !in host.st.procs
      modifies this`lockfile, this`didStart, host
      ensures LockedUp() && didStart == ok && (lockfile != null ==> fresh(lockfile) && lockfile.path == path)
      ensures Own(host.events, pid) == Own(old(host.events), pid) + own
      ensures ok ==> lockfile.IsOpen() && own != [] && own[|own| - 1] == L.Write(pid, |Digits(pid)|)
      ensures !ok ==> Attempted(Own(old(host.events), pid), Own(host.events, pid))
      ensures !ok && world.faultless && host.reliable ==> TurnedAway(Own(host.events, pid), host.st.dir, path)
      ensures lockfile != null && lockfile.owner <==> Flocked(Own(old(host.events), pid), Own(host.events, pid), pid)
      ensures L.Holds(host.st, pid) <==> Flocked(Own(old(host.events), pid), Own(host.events, pid), pid)
    {
      hide LockTrace, Own, Attempted, Flocked, TurnedAway, Host.Valid, ProbedAt, LockFile.Last;
      own := [];
      NoneReleased(Own(host.events, pid), pid);
      ok := world.Try();
      if !ok { return; }
      lockfile := new LockFile(host, path, pid);
      OwnExtends(old(host.events), L.Open(pid, path, lockfile.fd), pid);
      ghost var n, k, last;
      var r;
      r, n, k, last := lockfile.Lock();
      own := [L.Open(pid, path, lockfile.fd)] + LockTrace(r, pid, n);
      AttemptOnly(Own(old(host.events), pid), r, pid, n, path, lockfile.fd);
      Turned(Own(old(host.events), pid), r, pid, n, path, lockfile.fd, host.st.dir);
      ok := r.Locked?;
      if ok { didStart := true; }
    }

    // -------------------------------------------------------------- the operations

    /**
     The deferred `Cleanup` of an operation that began with `was` mounted: every recorded mount goes, and the
     package cache with them, when unmounts are reliable and the mounts stand in their slots; only a tmpfs root is
     left when the mount manager is asked.
     */
    method Conclude(ghost was: multiset<Path>, ghost tmpfs: bool, ghost cached: bool)
      requires didStart && LockedUp() && lockfile.IsOpen() && pkg.Some? && profile.Some? && image.Some?
      requires overlay != null && pkgManager != null
      requires Ready(overlay, pkgManager) && pkgManager.world == world && pkgManager.notif == notif
      requires overlay.beside == was + Tmpfs(overlay.BaseDir, tmpfs) + Cache(overlay.BaseDir, cached)
      modifies world`live, world`trace, world`asked, host, notif, overlay, pkgManager
      ensures overlay.EnableTmpfs == old(overlay.EnableTmpfs)
      ensures pkgManager.repos == old(pkgManager.repos) && (pkgManager.dbusActive ==> old(pkgManager.dbusActive))
      ensures BusStopped(old(world.trace), world.trace, old(pkgManager.dbusActive), pkgManager.dbusActive,
                         world.faultless)
      ensures !notif.held && notif.activePID == 0
      ensures overlay.ExtraMounts == [] && !overlay.mountedVFS
      ensures Released(Own(host.events, pid), pid)
      ensures AskedSince(old(world.asked), world.asked) && world.live <= world.asked[|old(world.asked)|]
      ensures world.reliable && Away(was, overlay.BaseDir)
              && old(overlay.gone == multiset{} && AllInSlots(overlay.BaseDir, overlay.ExtraMounts)) ==>
                overlay.Clear() && world.asked[|old(world.asked)|] == was + Tmpfs(overlay.BaseDir, tmpfs)
    {
      hide Balanced, VfsOrder, AllInSlots, Tmpfs, Cache, Count, Away, Host.Valid, LockFile.Valid, Released, Own,
           OnlyCacheGoes, Overlay.ValidFor;
      if Away(was, overlay.BaseDir) { TmpfsIsAway(was, overlay.BaseDir, tmpfs, cached); }
      ghost var removed := Cleanup();
      ReleasedByClean(Own(old(host.events), pid), removed, pid, lockfile.path);
    }

    /**
     Nothing is mounted unless the lock was taken; and however the build ends, the session ends with the active PID
     cleared and the lock released. With ordinary names its mounts are taken down as `Conclude` says.
     */
    method Build(lockPath: L.Path) returns (r: Exit, ghost b: Report)
      requires Unstarted()
      modifies this`lockfile, this`didStart, world, host, notif, overlay, pkgManager
      ensures !notif.held && notif.activePID == 0
      ensures r.Interrupted? <==> cancelled
      ensures r.NotInitialised? <==> !cancelled && pkg.None?
      ensures (r.Succeeded? || r.OperationFailed? ==> didStart) && (r.NotLocked? ==> !didStart)
      ensures !didStart ==>
                world.live == old(world.live) && world.trace == old(world.trace) && world.asked == old(world.asked)
      ensures if didStart then Released(Own(host.events, pid), pid)
              else Attempted(Own(old(host.events), pid), Own(host.events, pid))
      ensures r.Panic? && !didStart <==> !cancelled && pkg.Some? && EnableTmpfs && !ValidTmpfsSize
      ensures r.NotLocked? ==>
                (L.Holds(host.st, pid) <==> Flocked(Own(old(host.events), pid), Own(host.events, pid), pid))
      ensures r.NotLocked? && world.faultless && host.reliable ==>
                TurnedAway(Own(host.events, pid), host.st.dir, lockPath)
      ensures didStart ==> overlay != null && overlay.ExtraMounts == [] && !overlay.mountedVFS
      ensures didStart ==> AskedSince(old(world.asked), world.asked) && world.live <= world.asked[|old(world.asked)|]
      ensures (b.tmpfs ==> EnableTmpfs) && (b.laidOut && EnableTmpfs ==> b.tmpfs)
      ensures r.Succeeded? && !EnableTmpfs ==> b.laidOut
      ensures didStart ==>
                RanTo(old(world.trace), world.trace, pkg.value, b, pkgManager.dbusActive, world.faultless)
      ensures r.Succeeded? ==>
                Completed(pkg.value, profile.value, overlay.BaseDir, b, old(world.trace), world.trace,
                          old(world.ups), world.ups, old(pkgManager.repos), pkgManager.repos)
      ensures didStart && world.faultless ==>
                (r.Succeeded? <==> Configurable(profile.value, b.names, old(pkgManager.repos))) && b.laidOut && b.made
      ensures didStart && world.reliable && Away(old(world.live), overlay.BaseDir)
              && PlainNames(pkg.value, profile.value) ==>
                overlay.Clear() && world.asked[|old(world.asked)|] == old(world.live) + Tmpfs(overlay.BaseDir, b.tmpfs)
    {
      hide Balanced, VfsOrder, AllInSlots, Tmpfs, Cache, Count, Away, PlainNames, NamesExist, Host.Valid,
           LockFile.Valid, Released, Attempted, Flocked, TurnedAway, Overlay.ValidFor, Completed, Configurable,
           RanTo;
      b := NOTHING;
      NoneReleased(Own(host.events, pid), pid);
      if cancelled { return Interrupted, b; }
      notif.Lock();
      notif.Unlock();
      if pkg.None? { return NotInitialised, b; }
      r := Enter(lockPath, true);
      if r.Succeeded? { r, b := LockedBuild(); }
    }

    /** Applies the tmpfs options, where the operation does, and takes the lock; a refused size panics before that. */
    method Enter(lockPath: L.Path, configure: bool) returns (r: Exit)
      requires Unstarted() && pkg.Some?
      modifies this`lockfile, this`didStart, host, overlay, notif, world, pkgManager
      ensures if r.Succeeded? then Begun() else r.NotLocked? || r.Panic?
      ensures !r.Succeeded? ==> !didStart && !notif.held && notif.activePID == 0
      ensures !r.Succeeded? ==> Attempted(Own(old(host.events), pid), Own(host.events, pid))
      ensures r.NotLocked? ==>
                (L.Holds(host.st, pid) <==> Flocked(Own(old(host.events), pid), Own(host.events, pid), pid))
      ensures unchanged(world) && unchanged(pkgManager)
      ensures overlay.EnableTmpfs == if configure then EnableTmpfs else old(overlay.EnableTmpfs)
      ensures r.Panic? <==> configure && EnableTmpfs && !ValidTmpfsSize
      ensures r.NotLocked? && world.faultless && host.reliable ==>
                TurnedAway(Own(host.events, pid), host.st.dir, lockPath)
    {
      hide Balanced, VfsOrder, Count, Host.Valid, LockFile.Valid, Released, Attempted, Flocked, TurnedAway, Own,
           Overlay.ValidFor;
      NoneReleased(Own(host.events, pid), pid);
      if configure {
        overlay.Configure(EnableTmpfs);
        if !ValidTmpfsSize && EnableTmpfs {
          Abandon();
          return Panic;
        }
      }
      var locked;
      ghost var own;
      locked, own := DoLock(lockPath);
      if !locked {
        Abandon();
        return NotLocked;
      }
      return Succeeded;
    }

    /** The deferred `Cleanup` of an operation that never started. */
    method Abandon()
      requires !didStart && !notif.held && WiredUp() && LockedUp()
      modifies world`live, world`trace, world`asked, host, notif, overlay, pkgManager
      ensures unchanged(world) && unchanged(host) && notif.activePID == old(notif.activePID) && !notif.held
      ensures overlay != null ==> overlay.EnableTmpfs == old(overlay.EnableTmpfs)
      ensures pkgManager != null ==> unchanged(pkgManager)
    {
      ghost var removed := Cleanup();
    }

    /** What every operation on a root starts from, once it holds the lock. */
    ghost predicate Begun()
      reads this, world, host, notif, overlay, pkgManager, lockfile
    {
      && didStart && LockedUp() && lockfile.IsOpen() && pkg.Some? && profile.Some? && image.Some?
      && overlay != null && pkgManager != null
      && overlay.world == world && pkgManager.world == world && pkgManager.notif == notif
      && Ready(overlay, pkgManager) && overlay.Clear() && overlay.gone == multiset{} && !pkgManager.dbusActive
    }

    method LockedBuild() returns (r: Exit, ghost b: Report)
      requires Begun()
      modifies world, host, notif, overlay, pkgManager
      ensures !notif.held && notif.activePID == 0
      ensures (b.tmpfs ==> old(overlay.EnableTmpfs)) && (b.laidOut && old(overlay.EnableTmpfs) ==> b.tmpfs)
      ensures r.Succeeded? && !old(overlay.EnableTmpfs) ==> b.laidOut
      ensures RanTo(old(world.trace), world.trace, pkg.value, b, pkgManager.dbusActive, world.faultless)
      ensures r.Succeeded? ==>
                Completed(pkg.value, profile.value, overlay.BaseDir, b, old(world.trace), world.trace,
                          old(world.ups), world.ups, old(pkgManager.repos), pkgManager.repos)
      ensures world.faultless ==>
                (r.Succeeded? <==> Configurable(profile.value, b.names, old(pkgManager.repos))) && b.laidOut && b.made
      ensures r.Succeeded? || r.OperationFailed? || r.Panic?
      ensures overlay.ExtraMounts == [] && !overlay.mountedVFS
      ensures Released(Own(host.events, pid), pid)
      ensures AskedSince(old(world.asked), world.asked) && world.live <= world.asked[|old(world.asked)|]
      ensures world.reliable && Away(old(world.live), overlay.BaseDir) && PlainNames(pkg.value, profile.value) ==>
                overlay.Clear() && world.asked[|old(world.asked)|] == old(world.live) + Tmpfs(overlay.BaseDir, b.tmpfs)
    {
      hide Balanced, VfsOrder, AllInSlots, Tmpfs, Cache, Count, Away, PlainNames, NamesExist, Host.Valid,
           LockFile.Valid, Released, Attempted, Flocked, TurnedAway, Overlay.ValidFor, Completed, Configurable,
           BuildSteps, BusStopped;
      overlay.ClearMeansBeside();
      lockfile.Meanwhile();
      var outcome;
      ghost var cached;
      outcome, b, cached := BuildPackage();
      ghost var trace, active := world.trace, pkgManager.dbusActive;
      Conclude(old(world.live), b.tmpfs, cached);
      if !active { BusUntouched(trace, world.trace, active, pkgManager.dbusActive, world.faultless); }
      r := ExitOf(outcome);
    }

    /** The build proper, before anything is cleaned up. */
    method BuildPackage() returns (r: Outcome, ghost b: Report, ghost cached: bool)
      requires pkg.Some? && profile.Some? && overlay != null && pkgManager != null
      requires overlay.world == world && pkgManager.world == world && pkgManager.notif == notif
      requires Ready(overlay, pkgManager) && overlay.Clear() && !pkgManager.dbusActive
      modifies world`live, world`ups, world`indexed, world`trace, notif, pkgManager`dbusActive, pkgManager`repos,
               overlay`mountedImg, overlay`mountedOverlay, overlay`mountedVFS, overlay`vfs, overlay`beside,
               overlay`ExtraMounts
      ensures Ready(overlay, pkgManager)
      ensures overlay.beside == old(overlay.beside) + Tmpfs(overlay.BaseDir, b.tmpfs) + Cache(overlay.BaseDir, cached)
      ensures PlainNames(pkg.value, profile.value) ==> AllInSlots(overlay.BaseDir, overlay.ExtraMounts)
      ensures (b.tmpfs ==> overlay.EnableTmpfs) && (b.laidOut && overlay.EnableTmpfs ==> b.tmpfs)
      ensures r.Done? && !overlay.EnableTmpfs ==> b.laidOut
      ensures b.n <= |BuildSteps(pkg.value, b.based)|
      ensures world.trace == old(world.trace) + BuildSteps(pkg.value, b.based)[..b.n]
      ensures pkgManager.dbusActive ==> !r.Done?
      ensures r.Done? ==>
                Completed(pkg.value, profile.value, overlay.BaseDir, b, old(world.trace), world.trace,
                          old(world.ups), world.ups, old(pkgManager.repos), pkgManager.repos)
      ensures world.faultless ==>
                (r.Done? <==> Configurable(profile.value, b.names, old(pkgManager.repos))) && b.laidOut && b.made
    {
      hide Balanced, VfsOrder, AllInSlots, Tmpfs, Cache, PlainNames, NamesExist, Overlay.ValidFor, Overlay.Table,
           Completed, BuildSteps, Follows, AddOrder, Addable, Kept, Picked, MountLog, BuildTargets, DbusActive;
      ghost var tmpfs, laidOut, based, n, names, made;
      r, tmpfs, cached, laidOut, based, n, names, made := pkg.value.Build(overlay, pkgManager, profile.value);
      b := Report(tmpfs, laidOut, based, n, names, overlay.ExtraMounts, made);
      if r.Done? {
        BuildIsComplete(overlay, pkgManager, pkg.value, profile.value, b,
                        old(world.trace), old(world.ups), old(pkgManager.repos));
      }
    }

    /** A chroot never gets the configured tmpfs, so exactly what was mounted before is left to the mount manager. */
    method Chroot(lockPath: L.Path) returns (r: Exit)
      requires Unstarted()
      modifies this`lockfile, this`didStart, world, host, notif, overlay, pkgManager
      ensures didStart ==> overlay != null && !overlay.EnableTmpfs
      ensures !notif.held && notif.activePID == 0
      ensures r.Interrupted? <==> cancelled
      ensures r.NotInitialised? <==> !cancelled && pkg.None?
      ensures (r.Succeeded? || r.OperationFailed? ==> didStart) && (r.NotLocked? ==> !didStart)
      ensures !didStart ==>
                world.live == old(world.live) && world.trace == old(world.trace) && world.asked == old(world.asked)
      ensures if didStart then Released(Own(host.events, pid), pid)
              else Attempted(Own(old(host.events), pid), Own(host.events, pid))
      ensures r.NotLocked? ==>
                (L.Holds(host.st, pid) <==> Flocked(Own(old(host.events), pid), Own(host.events, pid), pid))
      ensures r.NotLocked? && world.faultless && host.reliable ==>
                TurnedAway(Own(host.events, pid), host.st.dir, lockPath)
      ensures didStart ==> overlay != null && overlay.ExtraMounts == [] && !overlay.mountedVFS
      ensures didStart ==> AskedSince(old(world.asked), world.asked) && world.live <= world.asked[|old(world.asked)|]
      ensures didStart && world.faultless ==> r.Succeeded?
      ensures r.Succeeded? ==>
                && world.trace == old(world.trace) + ChrootSteps(pkg.value, true)
                && world.ups == old(world.ups) + RootLog(overlay.BaseDir, false, true, [])
      ensures didStart && world.reliable && Away(old(world.live), overlay.BaseDir) ==>
                overlay.Clear() && world.asked[|old(world.asked)|] == old(world.live)
    {
      hide Balanced, VfsOrder, AllInSlots, Tmpfs, Cache, Count, Away, PlainNames, NamesExist, Host.Valid,
           LockFile.Valid, Released, Attempted, Flocked, TurnedAway, Overlay.ValidFor;
      NoneReleased(Own(host.events, pid), pid);
      if cancelled { return Interrupted; }
      notif.Lock();
      notif.Unlock();
      if pkg.None? { return NotInitialised; }
      r := Enter(lockPath, false);
      if r.Succeeded? { r := LockedChroot(); }
    }

    method LockedChroot() returns (r: Exit)
      requires Begun() && !overlay.EnableTmpfs
      modifies world, host, notif, overlay, pkgManager
      ensures !overlay.EnableTmpfs
      ensures !notif.held && notif.activePID == 0
      ensures r.Succeeded? || r.OperationFailed? || r.Panic?
      ensures overlay.ExtraMounts == [] && !overlay.mountedVFS
      ensures Released(Own(host.events, pid), pid)
      ensures AskedSince(old(world.asked), world.asked) && world.live <= world.asked[|old(world.asked)|]
      ensures world.faultless ==> r.Succeeded?
      ensures r.Succeeded? ==>
                && world.trace == old(world.trace) + ChrootSteps(pkg.value, true)
                && world.ups == old(world.ups) + RootLog(overlay.BaseDir, false, true, [])
      ensures world.reliable && Away(old(world.live), overlay.BaseDir) ==>
                overlay.Clear() && world.asked[|old(world.asked)|] == old(world.live)
    {
      hide Balanced, VfsOrder, AllInSlots, Count, Away, Host.Valid, LockFile.Valid, Released, Attempted,
           Overlay.ValidFor, BusStopped, ChrootSteps, RootSteps, RootLog, Overlay.Came;
      overlay.ClearMeansBeside();
      lockfile.Meanwhile();
      var outcome;
      ghost var tmpfs, laidOut, based, n;
      outcome, tmpfs, laidOut, based, n := pkg.value.Chroot(overlay, pkgManager);
      if outcome.Done? { LogIsRootLog(overlay, tmpfs, false, laidOut); }
      pkg.value.EmptyInSlots(overlay.BaseDir);
      ghost var trace, active := world.trace, pkgManager.dbusActive;
      Conclude(old(world.live), false, false);
      if !active { BusUntouched(trace, world.trace, active, pkgManager.dbusActive, world.faultless); }
      r := ExitOf(outcome);
    }

    method Index(lockPath: L.Path) returns (r: Exit, ghost tmpfs: bool, ghost laidOut: bool)
      requires Unstarted()
      modifies this`lockfile, this`didStart, world, host, notif, overlay, pkgManager
      ensures !notif.held && notif.activePID == 0
      ensures r.Interrupted? <==> cancelled
      ensures r.NotInitialised? <==> !cancelled && pkg.None?
      ensures (r.Succeeded? || r.OperationFailed? ==> didStart) && (r.NotLocked? ==> !didStart)
      ensures !didStart ==>
                world.live == old(world.live) && world.trace == old(world.trace) && world.asked == old(world.asked)
      ensures if didStart then Released(Own(host.events, pid), pid)
              else Attempted(Own(old(host.events), pid), Own(host.events, pid))
      ensures r.Panic? && !didStart <==> !cancelled && pkg.Some? && EnableTmpfs && !ValidTmpfsSize
      ensures r.NotLocked? ==>
                (L.Holds(host.st, pid) <==> Flocked(Own(old(host.events), pid), Own(host.events, pid), pid))
      ensures r.NotLocked? && world.faultless && host.reliable ==>
                TurnedAway(Own(host.events, pid), host.st.dir, lockPath)
      ensures didStart ==> overlay != null && overlay.ExtraMounts == [] && !overlay.mountedVFS
      ensures didStart ==> AskedSince(old(world.asked), world.asked) && world.live <= world.asked[|old(world.asked)|]
      ensures (tmpfs ==> EnableTmpfs) && (laidOut && EnableTmpfs ==> tmpfs)
      ensures r.Succeeded? && !EnableTmpfs ==> laidOut
      ensures didStart && world.faultless ==> r.Succeeded? && laidOut
      ensures r.Succeeded? ==>
                && world.trace == old(world.trace) + IndexSteps(pkg.value.Type.Ypkg?, laidOut)
                && world.ups ==
                   old(world.ups) + RootLog(overlay.BaseDir, tmpfs, laidOut, [Under(overlay.Union(), INDEX)])
      ensures didStart && world.reliable && Away(old(world.live), overlay.BaseDir) ==>
                overlay.Clear() && world.asked[|old(world.asked)|] == old(world.live) + Tmpfs(overlay.BaseDir, tmpfs)
    {
      hide Balanced, VfsOrder, AllInSlots, Tmpfs, Cache, Count, Away, PlainNames, NamesExist, Host.Valid,
           LockFile.Valid, Released, Attempted, Flocked, TurnedAway, Overlay.ValidFor;
      tmpfs, laidOut := false, false;
      NoneReleased(Own(host.events, pid), pid);
      if cancelled { return Interrupted, tmpfs, laidOut; }
      notif.Lock();
      notif.Unlock();
      if pkg.None? { return NotInitialised, tmpfs, laidOut; }
      r := Enter(lockPath, true);
      if r.Succeeded? { r, tmpfs, laidOut := LockedIndex(); }
    }

    method LockedIndex() returns (r: Exit, ghost tmpfs: bool, ghost laidOut: bool)
      requires Begun()
      modifies world, host, notif, overlay, pkgManager
      ensures !notif.held && notif.activePID == 0
      ensures r.Succeeded? || r.OperationFailed? || r.Panic?
      ensures overlay.ExtraMounts == [] && !overlay.mountedVFS
      ensures Released(Own(host.events, pid), pid)
      ensures AskedSince(old(world.asked), world.asked) && world.live <= world.asked[|old(world.asked)|]
      ensures (tmpfs ==> old(overlay.EnableTmpfs)) && (laidOut && old(overlay.EnableTmpfs) ==> tmpfs)
      ensures r.Succeeded? && !old(overlay.EnableTmpfs) ==> laidOut
      ensures world.faultless ==> r.Succeeded? && laidOut
      ensures r.Succeeded? ==>
                && world.trace == old(world.trace) + IndexSteps(pkg.value.Type.Ypkg?, laidOut)
                && world.ups ==
                   old(world.ups) + RootLog(overlay.BaseDir, tmpfs, laidOut, [Under(overlay.Union(), INDEX)])
      ensures world.reliable && Away(old(world.live), overlay.BaseDir) ==>
                overlay.Clear() && world.asked[|old(world.asked)|] == old(world.live) + Tmpfs(overlay.BaseDir, tmpfs)
    {
      hide Balanced, VfsOrder, AllInSlots, Tmpfs, Count, Away, Host.Valid, LockFile.Valid, Released, Attempted,
           Overlay.ValidFor, BusStopped, IndexSteps, FindSteps, RootLog, MountLog, Overlay.Came;
      overlay.ClearMeansBeside();
      lockfile.Meanwhile();
      var outcome;
      ghost var based, n;
      outcome, tmpfs, laidOut, based, n := pkg.value.Index(overlay, notif);
      if outcome.Done? { LogIsRootLog(overlay, tmpfs, false, laidOut); }
      pkg.value.EmptyInSlots(overlay.BaseDir);
      IndexInSlot(overlay.BaseDir);
      ghost var trace, active := world.trace, pkgManager.dbusActive;
      Conclude(old(world.live), tmpfs, false);
      if !active { BusUntouched(trace, world.trace, active, pkgManager.dbusActive, world.faultless); }
      r := ExitOf(outcome);
    }

    /**
     `installed` tells whether the image's file is there. Nothing an update mounts is recorded: whatever its `n` mounts
     were, all of them are still there when the mount manager is asked for the rest, the package cache at most excepted.
     */
    method Update(lockPath: L.Path, installed: bool) returns (r: Exit, ghost n: nat)
      requires Unstarted()
      modifies this`updateMode, this`pkgManager, this`lockfile, this`didStart, world, host, notif, overlay
      ensures !notif.held && notif.activePID == 0
      ensures r.Interrupted? <==> cancelled
      ensures r.NotInitialised? <==> !cancelled && (image.None? || !installed)
      ensures !r.Interrupted? && !r.NotInitialised? ==> updateMode
      ensures (r.Succeeded? || r.OperationFailed? ==> didStart) && (r.NotLocked? ==> !didStart)
      ensures !didStart ==> unchanged(world)
      ensures if didStart then Released(Own(host.events, pid), pid)
              else Attempted(Own(old(host.events), pid), Own(host.events, pid))
      ensures r.NotLocked? ==>
                (L.Holds(host.st, pid) <==> Flocked(Own(old(host.events), pid), Own(host.events, pid), pid))
      ensures r.NotLocked? && world.faultless && host.reliable ==>
                TurnedAway(Own(host.events, pid), host.st.dir, lockPath)
      ensures didStart ==> image.Some? && n <= 3 && (r.Succeeded? ==> n == 3)
                           && world.ups == old(world.ups) + image.value.UpdatePoints()[..n]
      ensures didStart ==> AskedSince(old(world.asked), world.asked) && world.live <= world.asked[|old(world.asked)|]
      ensures didStart && world.faultless ==> r.Succeeded?
      ensures r.Succeeded? ==> world.trace == old(world.trace) + UPDATE_STEPS
      ensures didStart ==>
                OnlyCacheGoes(old(world.live) + multiset(image.value.UpdatePoints()[..n]),
                              world.asked[|old(world.asked)|],
                              Under(image.value.RootDir, PACKAGE_CACHE), world.reliable)
    {
      hide Balanced, VfsOrder, Count, BackingImage.UpdatePoints, Host.Valid, LockFile.Valid, Released, Attempted,
           Flocked, TurnedAway, OnlyCacheGoes, Overlay.ValidFor, Own;
      n := 0;
      NoneReleased(Own(host.events, pid), pid);
      if cancelled { return Interrupted, n; }
      notif.Lock();
      if image.None? { notif.Unlock(); return NotInitialised, n; }
      if !installed { notif.Unlock(); return NotInitialised, n; }
      updateMode := true;
      pkgManager := new EopkgManager(world, notif, image.value.RootDir, []);
      notif.Unlock();
      r, n := StartUpdate(lockPath);
    }

    method StartUpdate(lockPath: L.Path) returns (r: Exit, ghost n: nat)
      requires WiredUp() && LockedUp() && !didStart && lockfile == null && pid in host.st.alive && pid !in host.st.procs
      requires !notif.held && notif.activePID == 0 && image.Some? && pkgManager != null
      requires pkgManager.root == image.value.RootDir && !pkgManager.dbusActive
      requires overlay != null ==> overlay.Clear()
      modifies this`lockfile, this`didStart, world, host, notif, overlay, pkgManager
      ensures !notif.held && notif.activePID == 0
      ensures r.NotLocked? <==> !didStart
      ensures r.NotLocked? || r.Succeeded? || r.OperationFailed?
      ensures !didStart ==> unchanged(world)
      ensures if didStart then Released(Own(host.events, pid), pid)
              else Attempted(Own(old(host.events), pid), Own(host.events, pid))
      ensures r.NotLocked? ==>
                (L.Holds(host.st, pid) <==> Flocked(Own(old(host.events), pid), Own(host.events, pid), pid))
      ensures r.NotLocked? && world.faultless && host.reliable ==>
                TurnedAway(Own(host.events, pid), host.st.dir, lockPath)
      ensures didStart ==> n <= 3 && (r.Succeeded? ==> n == 3)
                           && world.ups == old(world.ups) + image.value.UpdatePoints()[..n]
      ensures didStart ==> AskedSince(old(world.asked), world.asked) && world.live <= world.asked[|old(world.asked)|]
      ensures didStart && world.faultless ==> r.Succeeded?
      ensures r.Succeeded? ==> world.trace == old(world.trace) + UPDATE_STEPS
      ensures didStart ==>
                OnlyCacheGoes(old(world.live) + multiset(image.value.UpdatePoints()[..n]),
                              world.asked[|old(world.asked)|], pkgManager.CacheTarget(), world.reliable)
    {
      hide Balanced, VfsOrder, Count, BackingImage.UpdatePoints, Host.Valid, LockFile.Valid, Released, Attempted,
           Flocked, TurnedAway, OnlyCacheGoes, Overlay.ValidFor, Own;
      n := 0;
      var locked;
      ghost var own;
      locked, own := DoLock(lockPath);
      if !locked {
        Abandon();
        return NotLocked, n;
      }
      var ok;
      ok, n := LockedUpdate();
      r := if ok then Succeeded else OperationFailed;
    }

    method LockedUpdate() returns (ok: bool, ghost n: nat)
      requires didStart && !notif.held && WiredUp() && LockedUp() && lockfile.IsOpen()
      requires image.Some? && pkgManager != null && (overlay != null ==> overlay.Clear())
      requires pkgManager.root == image.value.RootDir && !pkgManager.dbusActive
      modifies world, host, notif, overlay, pkgManager
      ensures !notif.held && notif.activePID == 0
      ensures Released(Own(host.events, pid), pid)
      ensures n <= 3 && (ok ==> n == 3) && world.ups == old(world.ups) + image.value.UpdatePoints()[..n]
      ensures AskedSince(old(world.asked), world.asked) && world.live <= world.asked[|old(world.asked)|]
      ensures (ok ==> world.trace == old(world.trace) + UPDATE_STEPS) && (world.faultless ==> ok)
      ensures OnlyCacheGoes(old(world.live) + multiset(image.value.UpdatePoints()[..n]),
                            world.asked[|old(world.asked)|], pkgManager.CacheTarget(), world.reliable)
    {
      hide Balanced, VfsOrder, Count, BackingImage.UpdatePoints, Host.Valid, LockFile.Valid, Released,
           OnlyCacheGoes, Overlay.ValidFor, Own;
      lockfile.Meanwhile();
      ok, n := UpdateImage();
      ghost var trace, active := world.trace, pkgManager.dbusActive;
      ghost var removed := Cleanup();
      if !active { BusUntouched(trace, world.trace, active, pkgManager.dbusActive, world.faultless); }
      ReleasedByClean(Own(old(host.events), pid), removed, pid, lockfile.path);
    }

    /** The update proper, before anything is cleaned up; an overlay only notes that others mounted something. */
    method UpdateImage() returns (ok: bool, ghost n: nat)
      requires !notif.held && WiredUp() && image.Some? && pkgManager != null && (overlay != null ==> overlay.Clear())
      requires pkgManager.root == image.value.RootDir && !pkgManager.dbusActive
      modifies world`live, world`ups, world`trace, notif, overlay, pkgManager`dbusActive
      ensures !notif.held && WiredUp() && (overlay != null ==> overlay.Clear())
      ensures n <= 3 && (ok ==> n == 3) && world.ups == old(world.ups) + image.value.UpdatePoints()[..n]
      ensures world.live == old(world.live) + multiset(image.value.UpdatePoints()[..n])
      ensures ok ==> world.trace == old(world.trace) + UPDATE_STEPS && !pkgManager.dbusActive
      ensures world.faultless ==> ok
    {
      hide Balanced, VfsOrder, Count, BackingImage.UpdatePoints, Overlay.ValidFor, DbusActive;
      ghost var before := if overlay == null then multiset{} else overlay.Table();
      ghost var k;
      ok, n, k := image.value.Update(pkgManager);
      if overlay != null {
        ghost var more := multiset(image.value.UpdatePoints()[..n]);
        assert overlay.Table() == before + more;
        overlay.NoteMounts(before, more);
      }
      assert ok ==> UPDATE_STEPS[..k] == UPDATE_STEPS;
    }
  }

  function ExitOf(o: Outcome): Exit {
    match o case Done => Succeeded case Failed => OperationFailed case Panicked => Panic
  }
}
