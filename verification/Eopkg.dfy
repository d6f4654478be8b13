/**
 The package manager inside a build root, and the commands it runs there.

 `SetActivePID` takes the session's mutex. That no method which calls it may be entered with the mutex held is a
 precondition, so a caller that holds it provably cannot lock itself out.
 */
module Eopkg {
  import opened Wrappers
  import opened Text
  import opened Paths
  import opened Mounts
  import opened Slots

  /** The part of the session manager that commands report to: the active PID and the mutex over it. */
  class PidNotifier {
    var activePID: nat
    /** Held by the thread under consideration. */
    var held: bool

    constructor ()
      ensures activePID == 0 && !held
    {
      activePID, held := 0, false;
    }

    method Lock()
      requires !held
      modifies this`held
      ensures held
    {
      held := true;
    }

    method Unlock()
      requires held
      modifies this`held
      ensures !held
    {
      held := false;
    }

    method SetActivePID(pid: nat)
      requires !held
      modifies this
      ensures activePID == pid && !held
    {
      Lock();
      activePID := pid;
      Unlock();
    }
  }

  /** Runs a command in the root: the PID is set once the command has started, and left there. */
  method ChrootExec(world: World, notif: PidNotifier) returns (ok: bool)
    requires !notif.held
    modifies notif
    ensures !notif.held && (notif.activePID == old(notif.activePID) || notif.activePID > 0)
    ensures ok ==> notif.activePID > 0
    ensures world.faultless ==> ok
  {
    ok := world.Try();
    if !ok { return; }
    var pid: int :| pid > 0;
    notif.SetActivePID(pid);
    ok := world.Try();
  }

  /** Such a command that counts, in its place of a script. */
  method ChrootStep(world: World, notif: PidNotifier, m: Milestone, ghost before: seq<Milestone>,
                    ghost script: seq<Milestone>, ghost k: nat) returns (ok: bool)
    requires !notif.held && k < |script| && script[k] == m && world.trace == before + script[..k]
    modifies notif, world`trace
    ensures !notif.held && (notif.activePID == old(notif.activePID) || notif.activePID > 0)
    ensures ok ==> notif.activePID > 0
    ensures world.trace == before + script[..if ok then k + 1 else k]
    ensures (m.DbusStarted? || m.DbusStopped?) || DbusActive(world.trace) == DbusActive(old(world.trace))
    ensures ok && m.DbusStarted? ==> DbusActive(world.trace)
    ensures (!ok ==> world.trace == old(world.trace)) && (world.faultless ==> ok)
  {
    ok := ChrootExec(world, notif);
    if ok { world.Reach(m); }
  }

  /** Bringing D-Bus up, and taking it down: from the second step on it counts as stopped. */
  const START_STEPS: seq<Milestone> := [DbusDirMade, DbusIdMade, DbusStarted]
  const STOP_STEPS: seq<Milestone> := [DbusFound, DbusStopped, DbusKilled]

  /** How many of these a stop took, by what it found, left and returned. */
  function StopCount(before: bool, after: bool, ok: bool): nat { if !before || after then 0 else if ok then 3 else 2 }

  const UPGRADE_STEPS: seq<Milestone> := [Upgraded, ToolsInstalled]

  datatype Uri = Remote(uri: string) | IndexFile(file: Path)

  datatype EopkgRepo = EopkgRepo(ID: string, URI: Uri)

  predicate Knows(repos: seq<EopkgRepo>, id: string) { exists i :: 0 <= i < |repos| && repos[i].ID == id }

  /** The list without the named repository; the others keep their order. */
  function Without(repos: seq<EopkgRepo>, id: string): (r: seq<EopkgRepo>)
    ensures forall x :: x in r <==> x in repos && x.ID != id
    ensures !Knows(repos, id) ==> r == repos
  {
    if repos == [] then []
    else
      var last := repos[|repos| - 1];
      Without(repos[..|repos| - 1], id) + if last.ID == id then [] else [last]
  }

  class EopkgManager {
    const world: World
    const notif: PidNotifier
    const root: Path
    var dbusActive: bool
    /** What the package manager of the root knows, in order. */
    var repos: seq<EopkgRepo>

    function CacheTarget(): Path { Under(root, PACKAGE_CACHE) }

    ghost predicate Valid()
      reads this`dbusActive, world`trace
    {
      dbusActive == DbusActive(world.trace)
    }

    constructor (world: World, notif: PidNotifier, root: Path, repos: seq<EopkgRepo>)
      requires !DbusActive(world.trace)
      ensures this.world == world && this.notif == notif && this.root == root && this.repos == repos
      ensures Valid() && !dbusActive
    {
      this.world, this.notif, this.root, this.repos := world, notif, root, repos;
      dbusActive := false;
    }

    /** Assets are copied and the package cache is bind mounted; the mount is not recorded anywhere. */
    method Init() returns (ok: bool, ghost k: nat)
      modifies world`live, world`ups, world`trace
      ensures k <= 1 && (ok ==> k == 1) && world.trace == old(world.trace) + [HostCopied][..k]
      ensures DbusActive(world.trace) == DbusActive(old(world.trace))
      ensures world.live == if ok then old(world.live) + multiset{CacheTarget()} else old(world.live)
      ensures world.ups == if ok then old(world.ups) + [CacheTarget()] else old(world.ups)
      ensures world.faultless ==> ok
    {
      k := 0;
      ok := CopyAssets(world.trace, [HostCopied], 0);
      if !ok { return; }
      k := 1;
      ok := world.Mount(CacheTarget());
    }

    /** The host's configuration is copied into the root. */
    method CopyAssets(ghost before: seq<Milestone>, ghost script: seq<Milestone>, ghost k: nat) returns (ok: bool)
      requires k < |script| && script[k] == HostCopied && world.trace == before + script[..k]
      modifies world`trace
      ensures world.trace == before + script[..if ok then k + 1 else k] && (world.faultless ==> ok)
      ensures DbusActive(world.trace) == DbusActive(old(world.trace))
    {
      ok := world.Do(HostCopied, before, script, k);
    }

    method StartDBUS() returns (ok: bool, ghost k: nat)
      requires Valid() && !notif.held
      modifies this`dbusActive, world`trace, notif
      ensures Valid() && !notif.held
      ensures old(dbusActive) ==> ok && dbusActive && notif.activePID == old(notif.activePID)
      ensures !old(dbusActive) ==> dbusActive == ok && (ok ==> notif.activePID == 0)
      ensures k <= 3 && world.trace == old(world.trace) + START_STEPS[..k]
      ensures if old(dbusActive) then k == 0 else ok <==> k == 3
      ensures world.faultless ==> ok
    {
      k := 0;
      if dbusActive { return true, k; }
      ghost var before := world.trace;
      ok := world.Do(DbusDirMade, before, START_STEPS, 0);
      if !ok { return; }
      k := 1;
      ok := ChrootStep(world, notif, DbusIdMade, before, START_STEPS, 1);
      if !ok { return; }
      k := 2;
      notif.SetActivePID(0);
      ok := ChrootStep(world, notif, DbusStarted, before, START_STEPS, 2);
      if !ok { return; }
      k := 3;
      notif.SetActivePID(0);
      dbusActive := true;
    }

    /**
     When the PID file cannot be opened, D-Bus still counts as active; any later failure is reported, but the
     flag is cleared all the same. The notifier is not used, so this may be called with the mutex held.
     */
    method StopDBUS() returns (ok: bool)
      requires Valid()
      modifies this`dbusActive, world`trace
      ensures Valid() && (dbusActive ==> old(dbusActive) && !ok) && (!old(dbusActive) ==> ok)
      ensures world.trace == old(world.trace) + STOP_STEPS[..StopCount(old(dbusActive), dbusActive, ok)]
      ensures world.faultless ==> ok
    {
      if !dbusActive { return true; }
      ghost var before := world.trace;
      ok := world.Do(DbusFound, before, STOP_STEPS, 0);
      if !ok { return; }
      dbusActive := false;
      world.Reach(DbusStopped);
      ok := world.Do(DbusKilled, before, STOP_STEPS, 2);
    }

    /** Whether or not the cache is mounted; errors are ignored. */
    method Cleanup() returns (ghost unmounted: bool, ghost stopped: bool)
      requires Valid()
      modifies this`dbusActive, world`live, world`trace
      ensures Valid() && (dbusActive ==> old(dbusActive) && !stopped)
      ensures world.trace == old(world.trace) + STOP_STEPS[..StopCount(old(dbusActive), dbusActive, stopped)]
      ensures world.faultless ==> stopped
      ensures unmounted ==> CanUnmount(old(world.live), CacheTarget())
      ensures world.live == if unmounted then old(world.live) - multiset{CacheTarget()} else old(world.live)
      ensures world.reliable ==> unmounted == CanUnmount(old(world.live), CacheTarget())
    {
      var ok := StopDBUS();
      stopped := ok;
      unmounted := world.Unmount(CacheTarget());
    }

    method Upgrade() returns (ok: bool, ghost k: nat)
      requires !notif.held
      modifies notif, world`trace
      ensures !notif.held && (world.faultless ==> ok)
      ensures k <= 2 && (ok <==> k == 2) && world.trace == old(world.trace) + UPGRADE_STEPS[..k]
      ensures DbusActive(world.trace) == DbusActive(old(world.trace))
    {
      k := 0;
      ghost var before := world.trace;
      ok := ChrootStep(world, notif, Upgraded, before, UPGRADE_STEPS, 0);
      if !ok { return; }
      k := 1;
      notif.SetActivePID(0);
      ok := ChrootStep(world, notif, ToolsInstalled, before, UPGRADE_STEPS, 1);
      if ok { k := 2; }
    }

    method InstallComponent() returns (ok: bool)
      requires !notif.held
      modifies notif, world`trace
      ensures !notif.held && notif.activePID == 0 && (world.faultless ==> ok)
      ensures world.trace == old(world.trace) + if ok then [DevelInstalled] else []
      ensures DbusActive(world.trace) == DbusActive(old(world.trace))
    {
      ok := ChrootStep(world, notif, DevelInstalled, world.trace, [DevelInstalled], 0);
      notif.SetActivePID(0);
    }

    /** The URI files of the index directories, found in any order and read one by one. */
    method GetRepos() returns (r: Option<seq<EopkgRepo>>)
      ensures r.Some? ==> multiset(r.value) == multiset(repos)
      ensures world.faultless ==> r.Some?
    {
      var found: seq<EopkgRepo> :| multiset(found) == multiset(repos);
      var read: seq<EopkgRepo> := [];
      for i := 0 to |found|
        invariant read == found[..i]
      {
        var ok := world.Try();
        if !ok { return None; }
        read := read + [EopkgRepo(found[i].ID, found[i].URI)];
      }
      assert read == found;
      return Some(read);
    }

    /** Adding a known name fails. */
    method AddRepo(id: string, uri: Uri) returns (ok: bool)
      requires !notif.held
      modifies this`repos, notif
      ensures !notif.held
      ensures ok ==> !Knows(old(repos), id)
      ensures world.faultless ==> (ok <==> !Knows(old(repos), id))
      ensures repos == if ok then old(repos) + [EopkgRepo(id, uri)] else old(repos)
    {
      notif.SetActivePID(0);
      ok := ChrootExec(world, notif);
      ok := ok && !Knows(repos, id);
      if ok { repos := repos + [EopkgRepo(id, uri)]; }
    }

    method RemoveRepo(id: string) returns (ok: bool)
      requires !notif.held
      modifies this`repos, notif
      ensures !notif.held
      ensures repos == if ok then Without(old(repos), id) else old(repos)
      ensures world.faultless ==> ok
    {
      notif.SetActivePID(0);
      ok := ChrootExec(world, notif);
      if ok { repos := Without(repos, id); }
    }
  }
}
