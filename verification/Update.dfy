/** Updating a backing image in place: the one operation that records none of its mounts. */
module Images {
  import opened Paths
  import opened Mounts
  import opened Slots
  import opened Overlays
  import opened Eopkg

  datatype BackingImage = BackingImage(RootDir: Path) {

    /** What an update mounts, in order. */
    function UpdatePoints(): (r: seq<Path>)
      ensures |r| == 3
    {
      [RootDir, Sub(RootDir, "proc"), Under(RootDir, PACKAGE_CACHE)]
    }

    lemma Mounted()
      ensures var ps := UpdatePoints();
              |ps| == 3 && multiset(ps[..0]) == multiset{} && multiset(ps[..1]) == multiset{RootDir}
              && multiset(ps[..2]) == multiset{RootDir} + multiset{Sub(RootDir, "proc")}
              && multiset(ps[..3]) == multiset(ps[..2]) + multiset{Under(RootDir, PACKAGE_CACHE)}
      ensures var ps := UpdatePoints();
              ps[..0] == [] && ps[..1] == [RootDir] && ps[..2] == ps[..1] + [Sub(RootDir, "proc")]
              && ps[..3] == ps[..2] + [Under(RootDir, PACKAGE_CACHE)]
    {
      var ps := UpdatePoints();
      assert ps[..1] == [RootDir] && ps[..2] == ps[..1] + [Sub(RootDir, "proc")];
      assert ps[..3] == ps[..2] + [Under(RootDir, PACKAGE_CACHE)];
    }

    lemma CacheIsLast(live: multiset<Path>, ups: seq<Path>, cached: bool)
      ensures var ps, cache := UpdatePoints(), Under(RootDir, PACKAGE_CACHE);
              && live + multiset(ps[..2]) + (if cached then multiset{cache} else multiset{}) ==
                 live + multiset(ps[..if cached then 3 else 2])
              && ups + ps[..2] + (if cached then [cache] else []) == ups + ps[..if cached then 3 else 2]
    {
      hide UpdatePoints;
      Mounted();
    }

    /** However far it gets, the first `n` of its three mounts and the first `k` of its steps; nothing is recorded. */
    method Update(e: EopkgManager) returns (ok: bool, ghost n: nat, ghost k: nat)
      requires e.root == RootDir && e.Valid() && !e.dbusActive && !e.notif.held
      modifies e.world`live, e.world`ups, e.world`trace, e`dbusActive, e.notif
      ensures e.Valid() && !e.notif.held
      ensures n <= 3 && e.world.live == old(e.world.live) + multiset(UpdatePoints()[..n])
      ensures e.world.ups == old(e.world.ups) + UpdatePoints()[..n]
      ensures k <= |UPDATE_STEPS| && e.world.trace == old(e.world.trace) + UPDATE_STEPS[..k]
      ensures (ok <==> k == |UPDATE_STEPS|) && (ok ==> n == 3 && !e.dbusActive)
      ensures e.world.faultless ==> ok
    {
      hide UpdatePoints, DbusActive;
      UpdateParts();
      ghost var before := e.world.trace;
      ok, n, k := MountRootfs(e);
      Segment(before, e.world.trace, UPDATE_STEPS, 0, IMAGE_STEPS, k);
      if !ok { return; }
      ghost var cached;
      ok, cached, k := UpdatePackages(e);
      Segment(before, e.world.trace, UPDATE_STEPS, |IMAGE_STEPS|, PACKAGE_STEPS, k);
      CacheIsLast(old(e.world.live), old(e.world.ups), cached);
      n := if cached then 3 else 2;
      k := |IMAGE_STEPS| + k;
      if !ok { return; }
      ok := e.world.Do(UserAdded, before, UPDATE_STEPS, k);
      if ok { k := k + 1; }
    }

    method MountRootfs(e: EopkgManager) returns (ok: bool, ghost n: nat, ghost k: nat)
      requires e.Valid() && !e.dbusActive
      modifies e.world`live, e.world`ups, e.world`trace
      ensures e.Valid()
      ensures n <= 2 && e.world.live == old(e.world.live) + multiset(UpdatePoints()[..n])
      ensures e.world.ups == old(e.world.ups) + UpdatePoints()[..n]
      ensures k <= |IMAGE_STEPS| && e.world.trace == old(e.world.trace) + IMAGE_STEPS[..k]
      ensures ok ==> n == 2 && k == |IMAGE_STEPS|
      ensures e.world.faultless ==> ok
    {
      hide UpdatePoints, DbusActive;
      Mounted();
      n, k := 0, 0;
      ghost var before := e.world.trace;
      ok := e.world.Do(RootDirMade, before, IMAGE_STEPS, 0);
      if !ok { return; }
      k := 1;
      ok := e.world.Mount(RootDir);
      if !ok { return; }
      n := 1;
      ok := EnsureEopkgLayout(e.world, before, IMAGE_STEPS, 1);
      k := if ok then 3 else 2;
      if !ok { return; }
      ok := e.world.Mount(Sub(RootDir, "proc"));
      if ok { n := 2; }
    }

    method UpdatePackages(e: EopkgManager) returns (ok: bool, ghost cached: bool, ghost k: nat)
      requires e.root == RootDir && e.Valid() && !e.dbusActive && !e.notif.held
      modifies e.world`live, e.world`ups, e.world`trace, e`dbusActive, e.notif
      ensures e.Valid() && !e.notif.held
      ensures e.world.ups == old(e.world.ups) + if cached then [e.CacheTarget()] else []
      ensures e.world.live == old(e.world.live) + if cached then multiset{e.CacheTarget()} else multiset{}
      ensures k <= |PACKAGE_STEPS| && e.world.trace == old(e.world.trace) + PACKAGE_STEPS[..k]
      ensures (ok <==> k == |PACKAGE_STEPS|) && (ok ==> cached && !e.dbusActive)
      ensures e.world.faultless ==> ok
    {
      hide DbusActive;
      PackageParts();
      cached := false;
      ghost var before := e.world.trace;
      ok, k := e.Init();
      Segment(before, e.world.trace, PACKAGE_STEPS, 0, [HostCopied], k);
      if !ok { return; }
      cached := true;
      ok, k := e.StartDBUS();
      Segment(before, e.world.trace, PACKAGE_STEPS, 1, START_STEPS, k);
      k := 1 + k;
      if !ok { return; }
      ok, k := e.Upgrade();
      Segment(before, e.world.trace, PACKAGE_STEPS, 4, UPGRADE_STEPS, k);
      k := 4 + k;
      if !ok { return; }
      ok := e.InstallComponent();
      Segment(before, e.world.trace, PACKAGE_STEPS, 6, [DevelInstalled], if ok then 1 else 0);
      k := if ok then 7 else 6;
      if !ok { return; }
      ok := e.StopDBUS();
      ghost var j := StopCount(true, e.dbusActive, ok);
      Segment(before, e.world.trace, PACKAGE_STEPS, 7, STOP_STEPS, j);
      k := 7 + j;
    }
  }

  /** The steps of an update, in order. */
  const IMAGE_STEPS: seq<Milestone> := [RootDirMade, WipedRun, LaidOut]
  const PACKAGE_STEPS: seq<Milestone> := [HostCopied] + START_STEPS + UPGRADE_STEPS + [DevelInstalled] + STOP_STEPS
  const UPDATE_STEPS: seq<Milestone> := IMAGE_STEPS + PACKAGE_STEPS + [UserAdded]

  lemma PackageParts()
    ensures var s := PACKAGE_STEPS;
            && |s| == 10 && s[0..1] == [HostCopied] && s[1..4] == START_STEPS && s[4..6] == UPGRADE_STEPS
            && s[6..7] == [DevelInstalled] && s[7..10] == STOP_STEPS
  {}

  lemma UpdateParts()
    ensures var s := UPDATE_STEPS;
            |s| == 14 && s[0..3] == IMAGE_STEPS && s[3..13] == PACKAGE_STEPS && s[13] == UserAdded
  {}
}
