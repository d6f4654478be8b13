/**
 The pipelines that bring a build root up and work in it. Whatever step they stop at, the overlay's books balance:
 that is the `Ready` they all ensure.
 */
module Packages {
  import opened Paths
  import opened Mounts
  import opened Ledgers
  import opened Slots
  import opened Overlays
  import opened Eopkg
  import opened Repositories

  datatype PackageType = Ypkg | Xml

  // ---------------------------------------------------------------- the order of a build

  /** What bringing a root up takes besides mounting; without a directory for its tmpfs there is no overlay. */
  function RootSteps(ypkg: bool, based: bool): seq<Milestone> {
    Overlay.RootSteps(based) + (if ypkg then [UserAdded] else []) + [VfsDirsMade]
  }

  function CleanSteps(ypkg: bool, based: bool): seq<Milestone> { [Cleaned] + RootSteps(ypkg, based) }

  function NetSteps(network: bool): seq<Milestone> { if network then [] else [NetworkDropped, LoopbackUp] }

  const SETUP_STEPS: seq<Milestone> := [FilesCopied, SourcesFetched, HostCopied] + START_STEPS
  const PROVISION_STEPS: seq<Milestone> := UPGRADE_STEPS + [DevelInstalled, DirsMade]
  const PREP_STEPS: seq<Milestone> := [PackagerWritten, DepsInstalled] + STOP_STEPS + [HomeOwned]
  const RUN_STEPS: seq<Milestone> := [HostCopied, YpkgStarted, YpkgBuilt]
  const XML_STEPS: seq<Milestone> := [HostCopied, XmlBuilt] + STOP_STEPS

  function YpkgSteps(network: bool): seq<Milestone> {
    PREP_STEPS + NetSteps(network) + [WipedRun, LaidOut] + RUN_STEPS
  }

  function TypeSteps(p: Package): seq<Milestone> { if p.Type.Ypkg? then YpkgSteps(p.CanNetwork) else XML_STEPS }

  /** What is done in a root once it is up. */
  function WorkSteps(p: Package): seq<Milestone> { SETUP_STEPS + PROVISION_STEPS + TypeSteps(p) + [Collected] }

  /** All steps of a build. */
  function BuildSteps(p: Package, based: bool): seq<Milestone> { CleanSteps(p.Type.Ypkg?, based) + WorkSteps(p) }

  function ChrootSteps(p: Package, based: bool): seq<Milestone> {
    RootSteps(p.Type.Ypkg?, based) + (if p.Type.Ypkg? then NetSteps(p.CanNetwork) else []) + [ShellLeft]
  }

  function FindSteps(ypkg: bool, based: bool): seq<Milestone> { [DirFound] + CleanSteps(ypkg, based) }

  function IndexSteps(ypkg: bool, based: bool): seq<Milestone> { FindSteps(ypkg, based) + [IndexDirMade, Indexed] }

  lemma WorkParts(p: Package)
    ensures var s, t := WorkSteps(p), TypeSteps(p);
            && |s| == 11 + |t| && s[0..6] == SETUP_STEPS && s[6..10] == PROVISION_STEPS
            && s[10..10 + |t|] == t && s[10 + |t|] == Collected
  {}

  lemma SetupParts()
    ensures |SETUP_STEPS| == 6 && SETUP_STEPS[0] == FilesCopied && SETUP_STEPS[1] == SourcesFetched
    ensures SETUP_STEPS[2..3] == [HostCopied] && SETUP_STEPS[3..6] == START_STEPS
    ensures |PROVISION_STEPS| == 4 && PROVISION_STEPS[0..2] == UPGRADE_STEPS
    ensures PROVISION_STEPS[2..3] == [DevelInstalled] && PROVISION_STEPS[3] == DirsMade
  {}

  lemma YpkgParts(network: bool)
    ensures var s, k := YpkgSteps(network), 6 + |NetSteps(network)|;
            && |s| == k + 5 && |PREP_STEPS| == 6 && s[0..6] == PREP_STEPS
            && (!network ==> s[6] == NetworkDropped && s[7] == LoopbackUp)
            && s[k] == WipedRun && s[k + 1] == LaidOut && s[k + 2..k + 5] == RUN_STEPS
    ensures PREP_STEPS[0] == PackagerWritten && PREP_STEPS[1] == DepsInstalled && PREP_STEPS[2..5] == STOP_STEPS
    ensures PREP_STEPS[5] == HomeOwned
  {}

  lemma XmlParts()
    ensures |XML_STEPS| == 5 && XML_STEPS[0] == HostCopied && XML_STEPS[1] == XmlBuilt && XML_STEPS[2..5] == STOP_STEPS
  {}

  lemma RootParts(ypkg: bool, based: bool)
    ensures var s, r := RootSteps(ypkg, based), Overlay.RootSteps(based);
            && |r| == (if based then 3 else 0) && s[0..|r|] == r && (ypkg ==> s[|r|] == UserAdded)
            && |s| == |r| + (if ypkg then 2 else 1) && s[|s| - 1..|s|] == [VfsDirsMade]
    ensures var c := CleanSteps(ypkg, based);
            && |c| == 1 + |RootSteps(ypkg, based)| && c[0] == Cleaned && c[1..|c|] == RootSteps(ypkg, based)
  {}

  lemma BuildParts(p: Package, based: bool)
    ensures var s, c := BuildSteps(p, based), CleanSteps(p.Type.Ypkg?, based);
            && |s| == |c| + |WorkSteps(p)| && s[0..|c|] == c && s[|c|..|s|] == WorkSteps(p)
  {}

  lemma ChrootParts(p: Package, based: bool)
    ensures var s, r := ChrootSteps(p, based), RootSteps(p.Type.Ypkg?, based);
            && |s| == |r| + (if p.Type.Ypkg? && !p.CanNetwork then 3 else 1) && s[0..|r|] == r
            && s[|s| - 1] == ShellLeft
            && (p.Type.Ypkg? && !p.CanNetwork ==> s[|r|] == NetworkDropped && s[|r| + 1] == LoopbackUp)
  {}

  lemma IndexParts(ypkg: bool, based: bool)
    ensures var s, f := IndexSteps(ypkg, based), FindSteps(ypkg, based);
            |s| == |f| + 2 && s[0..|f|] == f && s[|f|] == IndexDirMade && s[|f| + 1] == Indexed
  {}

  lemma FindParts(ypkg: bool, based: bool)
    ensures var f, c := FindSteps(ypkg, based), CleanSteps(ypkg, based);
            |f| == |c| + 1 && f[0] == DirFound && f[1..|f|] == c
  {}

  // ---------------------------------------------------------------- what the order means

  /** Where a build starts D-Bus, and where it counts as stopped. */
  function StartedAt(p: Package, based: bool): nat { |CleanSteps(p.Type.Ypkg?, based)| + 5 }

  function StoppedAt(p: Package, based: bool): nat {
    |CleanSteps(p.Type.Ypkg?, based)| + 13
  }

  lemma YpkgSpelledOut(network: bool)
    ensures YpkgSteps(network) ==
            [PackagerWritten, DepsInstalled, DbusFound, DbusStopped, DbusKilled, HomeOwned]
            + NetSteps(network) + [WipedRun, LaidOut, HostCopied, YpkgStarted, YpkgBuilt]
  {}

  lemma WorkSpelledOut(p: Package)
    ensures WorkSteps(p) ==
            [FilesCopied, SourcesFetched, HostCopied, DbusDirMade, DbusIdMade, DbusStarted,
             Upgraded, ToolsInstalled, DevelInstalled, DirsMade] + TypeSteps(p) + [Collected]
    ensures TypeSteps(p) ==
            if p.Type.Xml? then [HostCopied, XmlBuilt, DbusFound, DbusStopped, DbusKilled]
            else if p.CanNetwork then
              [PackagerWritten, DepsInstalled, DbusFound, DbusStopped, DbusKilled, HomeOwned,
               WipedRun, LaidOut, HostCopied, YpkgStarted, YpkgBuilt]
            else
              [PackagerWritten, DepsInstalled, DbusFound, DbusStopped, DbusKilled, HomeOwned,
               NetworkDropped, LoopbackUp, WipedRun, LaidOut, HostCopied, YpkgStarted, YpkgBuilt]
  {
    YpkgSpelledOut(p.CanNetwork);
  }

  /** Where in the work D-Bus is started and stopped, and what comes after. */
  lemma WorkShape(p: Package)
    ensures var w := WorkSteps(p);
            && 14 < |w| && w[1] == SourcesFetched && w[5] == DbusStarted && w[6] == Upgraded
            && w[13] == DbusStopped && w[14] == DbusKilled
            && (p.Type.Ypkg? ==> w[11] == DepsInstalled && (!p.CanNetwork ==> w[16] == NetworkDropped))
    ensures forall k :: 0 <= k < |WorkSteps(p)| ==> StepShape(p, k, WorkSteps(p)[k])
  {
    hide TypeSteps, WorkSteps;
    WorkSpelledOut(p);
    TypeShape(p);
    var w, t := WorkSteps(p), TypeSteps(p);
    forall k | 0 <= k < |w|
      ensures StepShape(p, k, w[k])
    {
      if 10 <= k < 10 + |t| { assert w[k] == t[k - 10]; }
    }
  }

  lemma TypeShape(p: Package)
    ensures var t := TypeSteps(p);
            && 5 <= |t| && t[3] == DbusStopped && t[4] == DbusKilled
            && (p.Type.Ypkg? ==> t[1] == DepsInstalled && (!p.CanNetwork ==> |t| > 6 && t[6] == NetworkDropped))
    ensures forall k :: 0 <= k < |TypeSteps(p)| ==> StepShape(p, k + 10, TypeSteps(p)[k])
  {
    hide TypeSteps, WorkSteps;
    WorkSpelledOut(p);
    if p.Type.Ypkg? && p.CanNetwork {}
  }

  predicate StepShape(p: Package, k: nat, m: Milestone) {
    && (m == DbusStarted ==> k == 5) && (m == DbusStopped ==> k == 13)
    && (m == WipedRun || m == YpkgStarted || m == YpkgBuilt ==> k > 13)
    && (m == YpkgStarted ==> p.Type.Ypkg? && k > 16) && (m == XmlBuilt ==> p.Type.Xml? && k == 11)
  }

  lemma CleanShape(ypkg: bool, based: bool)
    ensures forall m :: m in CleanSteps(ypkg, based) ==>
              m != DbusStarted && m != DbusStopped && m != YpkgStarted && m != XmlBuilt
  {}

  lemma BusAround(p: Package, based: bool)
    ensures var s, i, j := BuildSteps(p, based), StartedAt(p, based), StoppedAt(p, based);
            && i < j < |s| && s[i] == DbusStarted && s[j] == DbusStopped
            && (forall k :: 0 <= k < |s| && k != i ==> s[k] != DbusStarted)
            && (forall k :: 0 <= k < |s| && k != j ==> s[k] != DbusStopped)
    ensures |BuildSteps(p, based)| == |CleanSteps(p.Type.Ypkg?, based)| + |WorkSteps(p)|
    ensures forall k :: |CleanSteps(p.Type.Ypkg?, based)| <= k < |BuildSteps(p, based)| ==>
              BuildSteps(p, based)[k] == WorkSteps(p)[k - |CleanSteps(p.Type.Ypkg?, based)|]
    ensures forall k :: 0 <= k < |CleanSteps(p.Type.Ypkg?, based)| ==>
              BuildSteps(p, based)[k] != YpkgStarted && BuildSteps(p, based)[k] != XmlBuilt
  {
    hide WorkSteps, CleanSteps;
    WorkShape(p);
    CleanShape(p.Type.Ypkg?, based);
    var s, c := BuildSteps(p, based), CleanSteps(p.Type.Ypkg?, based);
    assert forall k :: 0 <= k < |c| ==> s[k] == c[k] && s[k] in c;
  }

  /** D-Bus is active at a step exactly when it has been started and not been stopped before. */
  lemma BusActiveAt(p: Package, before: seq<Milestone>, based: bool, i: nat)
    requires !DbusActive(before) && i <= |BuildSteps(p, based)|
    ensures DbusActive(before + BuildSteps(p, based)[..i]) <==> StartedAt(p, based) < i <= StoppedAt(p, based)
  {
    hide DbusActive, BuildSteps, CleanSteps, WorkSteps, StartedAt, StoppedAt, StepShape;
    var s, a, z := BuildSteps(p, based), StartedAt(p, based), StoppedAt(p, based);
    BusAround(p, based);
    assert before + s[..0] == before;
    Onwards(before, s, 0, if i <= a then i else a);
    if i > a {
      AndThen(before, s, a);
      var end := if i <= z then i else z;
      Onwards(before, s, a + 1, end);
      if i > z {
        AndThen(before, s, z);
        Onwards(before, s, z + 1, i);
      }
    }
  }

  lemma AndThen(before: seq<Milestone>, s: seq<Milestone>, i: nat)
    requires i < |s|
    ensures s[i] == DbusStarted ==> DbusActive(before + s[..i + 1])
    ensures s[i] == DbusStopped ==> !DbusActive(before + s[..i + 1])
  {
    hide DbusActive;
    DbusAfter(before + s[..i], s[i]);
    assert before + s[..i] + [s[i]] == before + s[..i + 1];
  }

  lemma Onwards(before: seq<Milestone>, s: seq<Milestone>, i: nat, j: nat)
    requires i <= j <= |s| && forall k :: i <= k < j ==> s[k] != DbusStarted && s[k] != DbusStopped
    ensures DbusActive(before + s[..i]) == DbusActive(before + s[..j])
  {
    hide DbusActive;
    StaysPut(before + s[..i], s[i..j]);
    assert before + s[..i] + s[i..j] == before + s[..j];
  }

  lemma {:induction false} StaysPut(t: seq<Milestone>, more: seq<Milestone>)
    requires DbusStarted !in more && DbusStopped !in more
    ensures DbusActive(t + more) == DbusActive(t)
    decreases |more|
  {
    if more == [] {
      assert t + more == t;
    } else {
      var rest, last := more[..|more| - 1], more[|more| - 1];
      StaysPut(t, rest);
      assert t + more == t + rest + [last] && last in more;
      DbusAfter(t + rest, last);
    }
  }

  /** However far a build got, it never wiped `/run`, nor ran the ypkg build, while D-Bus was active. */
  lemma WipesAreSafe(p: Package, before: seq<Milestone>, based: bool, n: nat, i: nat)
    requires !DbusActive(before) && i < n <= |BuildSteps(p, based)|
    ensures var ran := BuildSteps(p, based)[..n];
            ran[i].WipedRun? || ran[i].YpkgStarted? || ran[i].YpkgBuilt? ==> !DbusActive(before + ran[..i])
  {
    hide BuildSteps, DbusActive, StartedAt, StoppedAt;
    var m := BuildSteps(p, based)[i];
    assert BuildSteps(p, based)[..n][..i] == BuildSteps(p, based)[..i];
    BusActiveAt(p, before, based, i);
    if m.WipedRun? || m.YpkgStarted? || m.YpkgBuilt? { WipesOutside(p, based, i); }
  }

  lemma WipesOutside(p: Package, based: bool, i: nat)
    requires i < |BuildSteps(p, based)|
    requires var m := BuildSteps(p, based)[i]; m.WipedRun? || m.YpkgStarted? || m.YpkgBuilt?
    ensures !(StartedAt(p, based) < i <= StoppedAt(p, based))
  {
    hide BuildSteps, WorkSteps, CleanSteps;
    BusAround(p, based);
    WorkShape(p);
  }

  /**
   In every run of a build, the command that builds a ypkg package is only started, whether or not it succeeds, after
   sources were fetched, the system upgraded, dependencies installed, D-Bus killed and, without network permission,
   networking dropped, in that order; and D-Bus is not active then.
   */
  lemma BuiltInTheSandbox(p: Package, before: seq<Milestone>, based: bool, n: nat, i: nat)
    returns (fetched: nat, upgraded: nat, installed: nat, killed: nat, dropped: nat)
    requires !DbusActive(before) && i < n <= |BuildSteps(p, based)| && BuildSteps(p, based)[..n][i].YpkgStarted?
    ensures var ran := BuildSteps(p, based)[..n];
            && fetched < upgraded < installed < killed < i
            && ran[fetched].SourcesFetched? && ran[upgraded].Upgraded? && ran[installed].DepsInstalled?
            && ran[killed].DbusKilled? && !DbusActive(before + ran[..i])
            && (!p.CanNetwork ==> killed < dropped < i && ran[dropped].NetworkDropped?)
  {
    hide BuildSteps, WorkSteps, CleanSteps, DbusActive;
    BusAround(p, based);
    WorkShape(p);
    WipesAreSafe(p, before, based, n, i);
    var c := |CleanSteps(p.Type.Ypkg?, based)|;
    assert StepShape(p, i - c, WorkSteps(p)[i - c]);
    fetched, upgraded, installed, killed, dropped := c + 1, c + 6, c + 11, c + 14, c + 16;
  }

  /**
   A legacy package is built with its sources fetched, the system upgraded and D-Bus running, which is stopped
   afterwards. Whatever the package, a build that was followed to its end leaves D-Bus stopped.
   */
  lemma LegacyBuiltWithBus(p: Package, before: seq<Milestone>, based: bool, n: nat, i: nat)
    returns (fetched: nat, upgraded: nat)
    requires !DbusActive(before) && i < n <= |BuildSteps(p, based)| && BuildSteps(p, based)[..n][i].XmlBuilt?
    ensures var ran := BuildSteps(p, based)[..n];
            && fetched < upgraded < i && ran[fetched].SourcesFetched? && ran[upgraded].Upgraded?
            && DbusActive(before + ran[..i]) && (n == |BuildSteps(p, based)| ==> !DbusActive(before + ran))
  {
    hide BuildSteps, WorkSteps, CleanSteps, DbusActive;
    assert BuildSteps(p, based)[..n][..i] == BuildSteps(p, based)[..i];
    BusActiveAt(p, before, based, i);
    BusActiveAt(p, before, based, n);
    BusAround(p, based);
    WorkShape(p);
    var c := |CleanSteps(p.Type.Ypkg?, based)|;
    assert StepShape(p, i - c, WorkSteps(p)[i - c]);
    fetched, upgraded := c + 1, c + 6;
  }

  // ---------------------------------------------------------------- where a package's mounts go

  function SourceDir(p: Package): seq<string> { if p.Type.Xml? then XML_SOURCES else YPKG_SOURCES }

  function SourceTarget(p: Package, union: Path, name: string): Path { JoinName(Under(union, SourceDir(p)), name) }

  function SourceTargets(p: Package, union: Path): seq<Path> {
    seq(|p.sources|, i requires 0 <= i < |p.sources| => SourceTarget(p, union, p.sources[i]))
  }

  function CacheTargets(union: Path): seq<Path> {
    seq(|CACHES|, i requires 0 <= i < |CACHES| => Under(union, CACHES[i]))
  }

  /** What a session has mounted, in order: the root, the package cache, the extra mounts. */
  ghost function MountLog(o: Overlay, tmpfs: bool, cached: bool): seq<Path>
    reads o`mountedImg, o`mountedOverlay, o`vfs, o`ExtraMounts
  {
    o.Came(tmpfs) + (if cached then [CacheAt(o.BaseDir)] else []) + o.ExtraMounts
  }

  lemma LogGrows(o: Overlay, tmpfs: bool, cached: bool, before: seq<Path>)
    ensures o.ExtraMounts == [] ==> before + o.Came(tmpfs) == before + MountLog(o, tmpfs, false)
    ensures before + o.Came(tmpfs) + (if cached then [CacheAt(o.BaseDir)] else []) + o.ExtraMounts[0..] ==
            before + MountLog(o, tmpfs, cached)
  {
    assert o.ExtraMounts[0..] == o.ExtraMounts;
  }

  /** All extra mounts of a build, in order: local repositories, sources and, for a ypkg package, build caches. */
  function BuildTargets(p: Package, union: Path, profile: Profile, names: seq<string>): seq<Path> {
    Targets(union, Picked(profile, names)) + SourceTargets(p, union)
    + if p.Type.Ypkg? then CacheTargets(union) else []
  }

  /** Source files and repositories have names of one ordinary path component. */
  predicate PlainNames(p: Package, profile: Profile) {
    p.PlainSources() && forall k :: k in profile.Repos ==> Plain(profile.Repos[k].Name)
  }

  lemma SourcesInSlots(p: Package, base: Path)
    requires forall s :: s in p.sources ==> Plain(s)
    ensures AllInSlots(base, SourceTargets(p, MountPoint(base)))
  {
    forall e | e in SourceTargets(p, MountPoint(base))
      ensures InSlot(base, e)
    {
      var i :| 0 <= i < |p.sources| && e == SourceTarget(p, MountPoint(base), p.sources[i]);
      assert SourceDir(p) < SourceDir(p) + [p.sources[i]];
      PlainSlot(base, SourceDir(p), p.sources[i]);
    }
  }

  /** A ypkg build finds its sources in the build user's home, a legacy one in the package manager's archives. */
  lemma SourcePlace(p: Package, union: Path, name: string)
    requires Plain(name)
    ensures SourceTarget(p, union, name) ==
            Under(union, if p.Type.Ypkg? then ["home", "build", "YPKG", "sources", name]
                         else ["var", "cache", "eopkg", "archives", name])
  {
    JoinPlain(Under(union, SourceDir(p)), name);
    var parts := if p.Type.Ypkg? then ["home", "build", "YPKG", "sources", name]
                 else ["var", "cache", "eopkg", "archives", name];
    assert parts[..|parts| - 1] == SourceDir(p);
    assert Under(union, parts) == Sub(Under(union, SourceDir(p)), name);
  }

  lemma IndexInSlot(base: Path)
    ensures AllInSlots(base, [Under(MountPoint(base), INDEX)])
  {}

  lemma {:induction false} ReposInSlots(p: Profile, base: Path, names: seq<string>)
    requires forall k :: k in p.Repos ==> Plain(p.Repos[k].Name)
    ensures AllInSlots(base, Targets(MountPoint(base), Picked(p, names)))
    decreases |names|
  {
    if names != [] {
      var rest, last := names[..|names| - 1], names[|names| - 1];
      ReposInSlots(p, base, rest);
      assert Picked(p, names)[..|names| - 1] == Picked(p, rest);
      if last in p.Repos { PlainSlot(base, HOST_REPOS, p.Repos[last].Name); }
    }
  }

  // ---------------------------------------------------------------- the code

  datatype Package = Package(Type: PackageType, CanNetwork: bool, sources: seq<string>) {

    /**
     `tmpfs` and `laidOut` tell how far `Mount` got, and `based` whether the directory for a tmpfs could be made;
     without a tmpfs, success means that the union came up.
     */
    method ActivateRoot(o: Overlay)
      returns (r: Outcome, ghost tmpfs: bool, ghost laidOut: bool, ghost based: bool, ghost k: nat)
      requires o.Valid() && o.Clear()
      modifies o`mountedImg, o`mountedOverlay, o`mountedVFS, o`vfs, o`beside,
               o.world`live, o.world`ups, o.world`trace
      ensures o.Valid() && (tmpfs ==> o.EnableTmpfs) && (laidOut && o.EnableTmpfs ==> tmpfs)
      ensures o.beside == old(o.beside) + Tmpfs(o.BaseDir, tmpfs)
      ensures laidOut == o.mountedOverlay && (laidOut || r.Done? ==> o.mountedImg == laidOut)
      ensures o.world.ups == old(o.world.ups) + o.Came(tmpfs) && (o.world.faultless ==> r.Done? && laidOut)
      ensures k <= |RootSteps(Type.Ypkg?, based)|
      ensures o.world.trace == old(o.world.trace) + RootSteps(Type.Ypkg?, based)[..k]
      ensures laidOut <==> based && k >= 2
      ensures DbusActive(o.world.trace) == old(DbusActive(o.world.trace))
      ensures r.Panicked? ==> o.mountedImg && !o.mountedOverlay && !o.mountedVFS
      ensures r.Done? ==> o.vfs == VfsOrder(o.BaseDir) && (!o.EnableTmpfs ==> laidOut)
      ensures r.Done? ==> k == |RootSteps(Type.Ypkg?, based)| && laidOut == based
    {
      hide Balanced, Overlay.ValidFor, RootStretch, VfsOrder, Overlay.Came, Overlay.Table, Tmpfs, MountPoint,
           DbusActive, RootSteps;
      o.NoneUp();
      ghost var before := o.world.trace;
      r, tmpfs, laidOut, based, k := MountWithUser(o);
      o.CameAfter(tmpfs, old(o.world.ups));
      if !r.Done? { return; }
      RootParts(Type.Ypkg?, based);
      ghost var j;
      r, j := o.MountVFS();
      Segment(before, o.world.trace, RootSteps(Type.Ypkg?, based), k, [VfsDirsMade], j);
      k := k + j;
      o.CameAfter(tmpfs, old(o.world.ups));
    }

    method MountWithUser(o: Overlay)
      returns (r: Outcome, ghost tmpfs: bool, ghost laidOut: bool, ghost based: bool, ghost k: nat)
      requires o.Valid() && o.Clear()
      modifies o`mountedImg, o`mountedOverlay, o`beside, o.world`live, o.world`ups, o.world`trace
      ensures o.Valid() && (tmpfs ==> o.EnableTmpfs) && (laidOut && o.EnableTmpfs ==> tmpfs)
      ensures o.beside == old(o.beside) + Tmpfs(o.BaseDir, tmpfs)
      ensures laidOut == o.mountedOverlay && (laidOut || r.Done? ==> o.mountedImg == laidOut)
      ensures o.world.ups == old(o.world.ups) + RootStretch(o.BaseDir, tmpfs, o.mountedImg, o.mountedOverlay)
      ensures o.world.faultless ==> r.Done? && laidOut
      ensures k <= |RootSteps(Type.Ypkg?, based)|
      ensures o.world.trace == old(o.world.trace) + RootSteps(Type.Ypkg?, based)[..k]
      ensures laidOut <==> based && k >= 2
      ensures DbusActive(o.world.trace) == old(DbusActive(o.world.trace))
      ensures r.Panicked? ==> o.mountedImg && !o.mountedOverlay
      ensures r.Done? ==> k + 1 == |RootSteps(Type.Ypkg?, based)| && laidOut == based && (!o.EnableTmpfs ==> laidOut)
    {
      hide Balanced, Overlay.ValidFor, RootStretch, Overlay.Table, Tmpfs, MountPoint, DbusActive, RootSteps,
           Overlay.RootSteps;
      BesideGrows(o.beside, o.BaseDir);
      ghost var before := o.world.trace;
      r, based, tmpfs, k := o.Mount();
      laidOut := o.mountedOverlay;
      RootParts(Type.Ypkg?, based);
      Segment(before, o.world.trace, RootSteps(Type.Ypkg?, based), 0, Overlay.RootSteps(based), k);
      if !r.Done? { return; }
      var user;
      user, k := AddUser(o.world, before, RootSteps(Type.Ypkg?, based), k);
      if !user { r := Failed; }
    }

    /** A ypkg build needs its user. */
    method AddUser(world: World, ghost before: seq<Milestone>, ghost script: seq<Milestone>, ghost i: nat)
      returns (ok: bool, ghost k: nat)
      requires i < |script| && (Type.Ypkg? ==> script[i] == UserAdded) && world.trace == before + script[..i]
      modifies world`trace
      ensures k == (if Type.Ypkg? && ok then i + 1 else i) && world.trace == before + script[..k]
      ensures DbusActive(world.trace) == old(DbusActive(world.trace))
      ensures (Type.Xml? ==> ok) && (world.faultless ==> ok)
    {
      ok, k := true, i;
      if Type.Ypkg? {
        ok := world.Do(UserAdded, before, script, i);
        k := if ok then i + 1 else i;
      }
    }

    /** A failed mkdir or touch ends it with success; `made` tells whether every one that was needed worked. */
    method BindSources(o: Overlay) returns (r: Outcome, ghost made: bool)
      requires o.Valid()
      modifies o`ExtraMounts, o.world`live, o.world`ups
      ensures o.Valid() && !r.Panicked? && (!made ==> r.Done?)
      ensures o.JustExtras() && (o.world.faultless ==> r.Done? && made)
      ensures old(o.ExtraMounts) <= o.ExtraMounts <= old(o.ExtraMounts) + SourceTargets(this, o.Union())
      ensures r.Done? ==> (o.ExtraMounts == old(o.ExtraMounts) + SourceTargets(this, o.Union()) <==> made)
    {
      hide Balanced, VfsOrder, SourceTarget, Overlay.ValidFor;
      made := true;
      for i := 0 to |sources|
        invariant o.Valid() && o.ExtraMounts == old(o.ExtraMounts) + SourceTargets(this, o.Union())[..i]
        invariant o.JustExtras()
      {
        var dir := o.world.Try();
        if !dir { return Failed, made; }
        var there := o.world.Try();
        if there {
          var target := o.world.Try();
          if !target { return Done, false; }
        }
        var up := o.BindExtra(SourceTarget(this, o.Union(), sources[i]));
        if !up { return Failed, made; }
      }
      return Done, made;
    }

    method BindCaches(o: Overlay) returns (r: Outcome)
      requires o.Valid()
      modifies o`ExtraMounts, o.world`live, o.world`ups
      ensures o.Valid() && !r.Panicked?
      ensures o.JustExtras() && (o.world.faultless && Type.Ypkg? ==> r.Done?)
      ensures r.Done? <==> Type.Ypkg? && o.ExtraMounts == old(o.ExtraMounts) + CacheTargets(o.Union())
      ensures old(o.ExtraMounts) <= o.ExtraMounts <= old(o.ExtraMounts) + CacheTargets(o.Union())
    {
      hide Balanced, VfsOrder, Overlay.ValidFor;
      if Type.Xml? { return Failed; }
      for i := 0 to |CACHES|
        invariant o.Valid() && o.ExtraMounts == old(o.ExtraMounts) + CacheTargets(o.Union())[..i]
        invariant o.JustExtras()
      {
        var up := o.BindExtra(Under(o.Union(), CACHES[i]));
        if !up { return Failed; }
      }
      return Done;
    }

    method PrepYpkg(o: Overlay, e: EopkgManager) returns (r: Outcome, ghost k: nat)
      requires Ready(o, e) && e.dbusActive
      modifies e`dbusActive, e.notif, e.world`trace
      ensures Ready(o, e) && !r.Panicked?
      ensures k <= |PREP_STEPS| && e.world.trace == old(e.world.trace) + PREP_STEPS[..k]
      ensures (r.Done? <==> k == |PREP_STEPS|) && (r.Done? ==> !e.dbusActive && e.notif.activePID == 0)
      ensures o.world.faultless ==> r.Done?
    {
      hide Balanced, VfsOrder, Overlay.ValidFor, DbusActive;
      YpkgParts(CanNetwork);
      ghost var before := e.world.trace;
      var packager := e.world.Do(PackagerWritten, before, PREP_STEPS, 0);
      if !packager { return Failed, 0; }
      var deps := ChrootStep(e.world, e.notif, DepsInstalled, before, PREP_STEPS, 1);
      if !deps { return Failed, 1; }
      e.notif.SetActivePID(0);
      var stopped := e.StopDBUS();
      ghost var j := StopCount(true, e.dbusActive, stopped);
      Segment(before, e.world.trace, PREP_STEPS, 2, STOP_STEPS, j);
      if !stopped { return Failed, 2 + j; }
      var owned := ChrootStep(e.world, e.notif, HomeOwned, before, PREP_STEPS, 5);
      if !owned { return Failed, 5; }
      e.notif.SetActivePID(0);
      return Done, 6;
    }

    /** Dependencies are installed, D-Bus is stopped, and networking goes unless the package asked for it. */
    method Isolate(o: Overlay, e: EopkgManager) returns (r: Outcome, ghost k: nat)
      requires Ready(o, e) && e.dbusActive
      modifies e`dbusActive, e.notif, o.world`trace
      ensures Ready(o, e) && !r.Panicked?
      ensures k + 5 <= |YpkgSteps(CanNetwork)| && o.world.trace == old(o.world.trace) + YpkgSteps(CanNetwork)[..k]
      ensures (r.Done? <==> k + 5 == |YpkgSteps(CanNetwork)|) && (r.Done? ==> !e.dbusActive)
      ensures o.world.faultless ==> r.Done?
    {
      hide Balanced, VfsOrder, Overlay.ValidFor, DbusActive, YpkgSteps;
      YpkgParts(CanNetwork);
      ghost var before, script := o.world.trace, YpkgSteps(CanNetwork);
      r, k := PrepYpkg(o, e);
      Segment(before, o.world.trace, script, 0, PREP_STEPS, k);
      if !r.Done? || CanNetwork { return; }
      var dropped := o.world.Do(NetworkDropped, before, script, 6);
      if !dropped { return Failed, 6; }
      var loopback := o.world.Do(LoopbackUp, before, script, 7);
      if !loopback { return Failed, 7; }
      k := 8;
    }

    /** The build command is started with all sources and caches bound exactly when `BindSources` skipped nothing. */
    method BuildYpkg(o: Overlay, e: EopkgManager) returns (r: Outcome, ghost k: nat, ghost made: bool)
      requires Ready(o, e) && e.dbusActive && Type.Ypkg?
      modifies o`ExtraMounts, e`dbusActive, e.notif, o.world`live, o.world`ups, o.world`trace
      ensures Ready(o, e) && !r.Panicked?
      ensures k <= |YpkgSteps(CanNetwork)| && o.world.trace == old(o.world.trace) + YpkgSteps(CanNetwork)[..k]
      ensures r.Done? <==> k == |YpkgSteps(CanNetwork)|
      ensures r.Done? ==> !e.dbusActive && e.notif.activePID == 0
      ensures o.JustExtras() && (o.world.faultless ==> r.Done? && made)
      ensures k + 2 >= |YpkgSteps(CanNetwork)| ==>
                (made <==>
                 o.ExtraMounts == old(o.ExtraMounts) + SourceTargets(this, o.Union()) + CacheTargets(o.Union()))
      ensures PlainSources() && old(AllInSlots(o.BaseDir, o.ExtraMounts)) ==> AllInSlots(o.BaseDir, o.ExtraMounts)
    {
      hide Balanced, VfsOrder, SourceTargets, CacheTargets, AllInSlots, PlainSources,
           Overlay.ValidFor, Overlay.Table, DbusActive, YpkgSteps, MountPoint;
      YpkgParts(CanNetwork);
      made := true;
      ghost var before, script := o.world.trace, YpkgSteps(CanNetwork);
      r, k := Isolate(o, e);
      if !r.Done? { return; }
      ghost var extras := o.ExtraMounts;
      r, made := BindSources(o);
      SourcesKeep(o.BaseDir, extras, o.ExtraMounts);
      if !r.Done? { return; }
      ghost var ups := o.world.ups;
      var laidOut := EnsureEopkgLayout(o.world, before, script, k);
      k := if laidOut then k + 2 else k + 1;
      if !laidOut { return Failed, k, made; }
      extras := o.ExtraMounts;
      r := BindCaches(o);
      CachesKeep(o.BaseDir, extras, o.ExtraMounts);
      JoinStretches(old(o.ExtraMounts), extras, o.ExtraMounts, old(o.world.ups), ups, o.world.ups);
      if !r.Done? { return; }
      ghost var j;
      r, j := RunBuild(o, e);
      Segment(before, o.world.trace, script, k, RUN_STEPS, j);
      k := k + j;
    }

    method RunBuild(o: Overlay, e: EopkgManager) returns (r: Outcome, ghost k: nat)
      requires Ready(o, e)
      modifies e.notif, o.world`trace
      ensures Ready(o, e) && !r.Panicked? && (r.Done? ==> e.notif.activePID == 0)
      ensures k <= |RUN_STEPS| && o.world.trace == old(o.world.trace) + RUN_STEPS[..k]
      ensures (r.Done? <==> k == |RUN_STEPS|) && (o.world.faultless ==> r.Done?)
      ensures DbusActive(o.world.trace) == old(DbusActive(o.world.trace))
    {
      hide Balanced, VfsOrder, Overlay.ValidFor, DbusActive;
      ghost var before := o.world.trace;
      var assets := e.CopyAssets(before, RUN_STEPS, 0);
      if !assets { return Failed, 0; }
      o.world.Reach(YpkgStarted);
      var built := ChrootStep(o.world, e.notif, YpkgBuilt, before, RUN_STEPS, 2);
      if !built { return Failed, 2; }
      var report := ChrootExec(o.world, e.notif);
      e.notif.SetActivePID(0);
      return Done, 3;
    }

    method BuildXML(o: Overlay, e: EopkgManager) returns (r: Outcome, ghost k: nat, ghost made: bool)
      requires Ready(o, e) && e.dbusActive && Type.Xml?
      modifies o`ExtraMounts, e`dbusActive, e.notif, o.world`live, o.world`ups, o.world`trace
      ensures Ready(o, e) && !r.Panicked?
      ensures k <= |XML_STEPS| && o.world.trace == old(o.world.trace) + XML_STEPS[..k]
      ensures (r.Done? <==> k == |XML_STEPS|) && (r.Done? ==> !e.dbusActive && e.notif.activePID == 0)
      ensures o.JustExtras() && (o.world.faultless ==> r.Done? && made)
      ensures k > 0 ==> (o.ExtraMounts == old(o.ExtraMounts) + SourceTargets(this, o.Union()) <==> made)
      ensures PlainSources() && old(AllInSlots(o.BaseDir, o.ExtraMounts)) ==> AllInSlots(o.BaseDir, o.ExtraMounts)
    {
      hide Balanced, VfsOrder, SourceTargets, AllInSlots, PlainSources, Overlay.ValidFor, Overlay.Table, DbusActive,
           MountPoint;
      XmlParts();
      ghost var before := o.world.trace;
      r, made := BindSources(o);
      SourcesKeep(o.BaseDir, old(o.ExtraMounts), o.ExtraMounts);
      if !r.Done? { return Failed, 0, made; }
      var assets := e.CopyAssets(before, XML_STEPS, 0);
      if !assets { return Failed, 0, made; }
      var built := ChrootStep(o.world, e.notif, XmlBuilt, before, XML_STEPS, 1);
      if !built { return Failed, 1, made; }
      e.notif.SetActivePID(0);
      var stopped := e.StopDBUS();
      ghost var j := StopCount(true, e.dbusActive, stopped);
      Segment(before, o.world.trace, XML_STEPS, 2, STOP_STEPS, j);
      k := 2 + j;
      if !stopped { return Failed, k, made; }
      e.notif.SetActivePID(0);
    }

    /**
     At every return the books balance; what nobody recorded is at most the tmpfs root and the package cache; and
     the steps that worked are the first `n` of all, which is success exactly when that is all of them.
     */
    method Build(o: Overlay, e: EopkgManager, profile: Profile)
      returns (r: Outcome, ghost tmpfs: bool, ghost cached: bool, ghost laidOut: bool, ghost based: bool,
               ghost n: nat, ghost names: seq<string>, ghost made: bool)
      requires Ready(o, e) && o.Clear() && !e.dbusActive
      modifies o`mountedImg, o`mountedOverlay, o`mountedVFS, o`vfs, o`beside, o`ExtraMounts,
               o.world`live, o.world`ups, o.world`indexed, o.world`trace,
               e`dbusActive, e`repos, e.notif
      ensures Ready(o, e)
      ensures (tmpfs ==> o.EnableTmpfs) && (laidOut && o.EnableTmpfs ==> tmpfs)
      ensures o.beside == old(o.beside) + Tmpfs(o.BaseDir, tmpfs) + Cache(o.BaseDir, cached)
      ensures o.world.ups == old(o.world.ups) + MountLog(o, tmpfs, cached)
      ensures laidOut == o.mountedOverlay && (laidOut || r.Done? ==> o.mountedImg == laidOut)
      ensures r.Done? ==> cached && o.vfs == VfsOrder(o.BaseDir)
      ensures r.Done? ==>
                && Follows(profile, names, old(e.repos), e.repos)
                && (made <==> o.ExtraMounts == BuildTargets(this, o.Union(), profile, names))
      ensures o.world.faultless ==>
                && AddOrder(profile, names) && laidOut && made
                && (r.Done? <==> Addable(Kept(old(e.repos), profile), Picked(profile, names)))
      ensures n <= |BuildSteps(this, based)|
      ensures o.world.trace == old(o.world.trace) + BuildSteps(this, based)[..n]
      ensures r.Done? <==> n == |BuildSteps(this, based)|
      ensures r.Done? ==> !e.dbusActive && e.notif.activePID == 0 && laidOut == based
      ensures (n > |CleanSteps(Type.Ypkg?, based)| || r.Done?) && !o.EnableTmpfs ==> laidOut
      ensures r.Panicked? && NamesExist(profile) ==> o.mountedImg && !o.mountedOverlay && !o.mountedVFS
      ensures PlainNames(this, profile) ==> AllInSlots(o.BaseDir, o.ExtraMounts)
    {
      hide Balanced, VfsOrder, AllInSlots, PlainNames, BuildSteps, CleanSteps, WorkSteps, Overlay.ValidFor, Follows,
           AddOrder, Addable, Kept, Picked, BuildTargets, MountLog, Overlay.Came, Overlay.Table, MountPoint, CacheAt,
           Tmpfs, Cache, DbusActive, NamesExist, VfsPoints, RootSteps, TypeSteps;
      cached, names, made := false, [], true;
      EmptyInSlots(o.BaseDir);
      ghost var before := o.world.trace;
      r, tmpfs, laidOut, based, n := CleanAndActivate(o);
      BuildParts(this, based);
      Segment(before, o.world.trace, BuildSteps(this, based), 0, CleanSteps(Type.Ypkg?, based), n);
      BesideGrows(o.beside, o.BaseDir);
      LogGrows(o, tmpfs, false, old(o.world.ups));
      WorkParts(this);
      if !r.Done? { return; }
      ghost var k;
      r, cached, k, names, made := Work(o, e, profile);
      Segment(before, o.world.trace, BuildSteps(this, based), n, WorkSteps(this), k);
      n := n + k;
      LogGrows(o, tmpfs, cached, old(o.world.ups));
    }

    /** What is left of an earlier session is removed before the root is brought up. */
    method CleanAndActivate(o: Overlay)
      returns (r: Outcome, ghost tmpfs: bool, ghost laidOut: bool, ghost based: bool, ghost k: nat)
      requires o.Valid() && o.Clear()
      modifies o`mountedImg, o`mountedOverlay, o`mountedVFS, o`vfs, o`beside,
               o.world`live, o.world`ups, o.world`trace
      ensures o.Valid() && (tmpfs ==> o.EnableTmpfs) && (laidOut && o.EnableTmpfs ==> tmpfs)
      ensures o.beside == old(o.beside) + Tmpfs(o.BaseDir, tmpfs)
      ensures laidOut == o.mountedOverlay && (laidOut || r.Done? ==> o.mountedImg == laidOut)
      ensures o.world.ups == old(o.world.ups) + o.Came(tmpfs) && (o.world.faultless ==> r.Done? && laidOut)
      ensures k <= |CleanSteps(Type.Ypkg?, based)|
      ensures o.world.trace == old(o.world.trace) + CleanSteps(Type.Ypkg?, based)[..k]
      ensures DbusActive(o.world.trace) == old(DbusActive(o.world.trace))
      ensures r.Panicked? ==> o.mountedImg && !o.mountedOverlay && !o.mountedVFS
      ensures r.Done? ==> o.vfs == VfsOrder(o.BaseDir) && (!o.EnableTmpfs ==> laidOut)
      ensures r.Done? ==> k == |CleanSteps(Type.Ypkg?, based)| && laidOut == based
    {
      hide Balanced, VfsOrder, Overlay.ValidFor, Overlay.Came, Overlay.Table, MountPoint, Tmpfs, DbusActive, RootSteps,
           CleanSteps;
      o.NoneCame(o.world.ups);
      BesideGrows(o.beside, o.BaseDir);
      ghost var before := o.world.trace;
      RootParts(Type.Ypkg?, true);
      var cleaned := o.world.Do(Cleaned, before, CleanSteps(Type.Ypkg?, true), 0);
      if !cleaned { return Failed, false, false, true, 0; }
      r, tmpfs, laidOut, based, k := ActivateRoot(o);
      RootParts(Type.Ypkg?, based);
      assert CleanSteps(Type.Ypkg?, true)[..1] == CleanSteps(Type.Ypkg?, based)[..1];
      Segment(before, o.world.trace, CleanSteps(Type.Ypkg?, based), 1, RootSteps(Type.Ypkg?, based), k);
      k := k + 1;
    }

    /** What is left once the root is up. */
    method Work(o: Overlay, e: EopkgManager, profile: Profile)
      returns (r: Outcome, ghost cached: bool, ghost n: nat, ghost names: seq<string>, ghost made: bool)
      requires Ready(o, e) && !e.dbusActive
      modifies o`beside, o`ExtraMounts, o.world`live, o.world`ups, o.world`indexed, o.world`trace,
               e`dbusActive, e`repos, e.notif
      ensures Ready(o, e) && (NamesExist(profile) ==> !r.Panicked?)
      ensures o.beside == old(o.beside) + Cache(o.BaseDir, cached)
      ensures n <= |WorkSteps(this)| && o.world.trace == old(o.world.trace) + WorkSteps(this)[..n]
      ensures old(o.ExtraMounts) <= o.ExtraMounts && (r.Done? ==> cached)
      ensures o.world.ups ==
              old(o.world.ups) + (if cached then [CacheAt(o.BaseDir)] else []) + o.ExtraMounts[|old(o.ExtraMounts)|..]
      ensures r.Done? ==>
                && Follows(profile, names, old(e.repos), e.repos)
                && (made <==> o.ExtraMounts == old(o.ExtraMounts) + BuildTargets(this, o.Union(), profile, names))
      ensures o.world.faultless ==>
                && AddOrder(profile, names) && made
                && (r.Done? <==> Addable(Kept(old(e.repos), profile), Picked(profile, names)))
      ensures (r.Done? <==> n == |WorkSteps(this)|) && (r.Done? ==> !e.dbusActive && e.notif.activePID == 0)
      ensures PlainNames(this, profile) && old(AllInSlots(o.BaseDir, o.ExtraMounts)) ==>
                AllInSlots(o.BaseDir, o.ExtraMounts)
    {
      hide Balanced, VfsOrder, AllInSlots, PlainSources, YpkgSteps, WorkSteps, NamesExist, Overlay.ValidFor,
           Overlay.Table, DbusActive, Cache, CacheAt, Follows, AddOrder, Addable, Kept, Targets, SourceTargets,
           CacheTargets, BuildTargets, TypeSteps, MountPoint;
      made, names := true, [];
      WorkParts(this);
      SetupParts();
      ghost var before, script := o.world.trace, WorkSteps(this);
      var ok;
      ok, cached, n := Prepare(o, e);
      Segment(before, o.world.trace, script, 0, SETUP_STEPS, n);
      if !ok { return Failed, cached, n, names, made; }
      ghost var ups := o.world.ups;
      r, names, n := Provision(o, e, profile);
      Segment(before, o.world.trace, script, 6, PROVISION_STEPS, n);
      n := 6 + n;
      if !r.Done? { return; }
      ghost var extras, mid := o.ExtraMounts, o.world.ups;
      r, n, made := BuildByType(o, e);
      Segment(before, o.world.trace, script, 10, TypeSteps(this), n);
      n := 10 + n;
      JoinStretches(old(o.ExtraMounts), extras, o.ExtraMounts, ups, mid, o.world.ups);
      if !r.Done? { return; }
      JoinTargets(old(o.ExtraMounts), o.ExtraMounts, o.Union(), profile, names, made);
      var collected := o.world.Do(Collected, before, script, n);
      if !collected { return Failed, cached, n, names, made; }
      n := n + 1;
    }

    method BuildByType(o: Overlay, e: EopkgManager) returns (r: Outcome, ghost k: nat, ghost made: bool)
      requires Ready(o, e) && e.dbusActive
      modifies o`ExtraMounts, e`dbusActive, e.notif, o.world`live, o.world`ups, o.world`trace
      ensures Ready(o, e) && !r.Panicked?
      ensures k <= |TypeSteps(this)| && o.world.trace == old(o.world.trace) + TypeSteps(this)[..k]
      ensures (r.Done? <==> k == |TypeSteps(this)|) && (r.Done? ==> !e.dbusActive && e.notif.activePID == 0)
      ensures o.JustExtras() && (o.world.faultless ==> r.Done? && made)
      ensures r.Done? ==> (made <==> o.ExtraMounts == WithSources(o.Union(), old(o.ExtraMounts)))
      ensures PlainSources() && old(AllInSlots(o.BaseDir, o.ExtraMounts)) ==> AllInSlots(o.BaseDir, o.ExtraMounts)
    {
      hide Balanced, VfsOrder, AllInSlots, PlainSources, YpkgSteps, Overlay.ValidFor, Overlay.Table, DbusActive,
           SourceTargets, CacheTargets, MountPoint;
      if Type.Ypkg? {
        r, k, made := BuildYpkg(o, e);
      } else {
        r, k, made := BuildXML(o, e);
      }
    }

    function WithSources(union: Path, before: seq<Path>): seq<Path> {
      before + SourceTargets(this, union) + if Type.Ypkg? then CacheTargets(union) else []
    }

    /** Sources are fetched, the package manager is set up and D-Bus started. */
    method Prepare(o: Overlay, e: EopkgManager) returns (ok: bool, ghost cached: bool, ghost n: nat)
      requires Ready(o, e) && !e.dbusActive
      modifies o`beside, o.world`live, o.world`ups, o.world`trace, e`dbusActive, e.notif
      ensures Ready(o, e) && e.dbusActive == ok
      ensures o.beside == old(o.beside) + Cache(o.BaseDir, cached)
      ensures n <= |SETUP_STEPS| && o.world.trace == old(o.world.trace) + SETUP_STEPS[..n]
      ensures ok <==> n == |SETUP_STEPS|
      ensures o.world.ups == old(o.world.ups) + (if cached then [CacheAt(o.BaseDir)] else []) && (ok ==> cached)
      ensures o.world.faultless ==> ok
    {
      hide Balanced, VfsOrder, Overlay.ValidFor, Overlay.Table, MountPoint, Cache, CacheAt, DbusActive;
      BesideGrows(o.beside, o.BaseDir);
      SetupParts();
      ghost var before := o.world.trace;
      cached, n := false, 0;
      ok := o.world.Do(FilesCopied, before, SETUP_STEPS, 0);
      if !ok { return; }
      n := 1;
      ok := o.world.Do(SourcesFetched, before, SETUP_STEPS, 1);
      if !ok { return; }
      ok, n := InitPackages(o, e);
      Segment(before, o.world.trace, SETUP_STEPS, 2, [HostCopied], n);
      n := 2 + n;
      if !ok { return; }
      cached := true;
      ok, n := e.StartDBUS();
      Segment(before, o.world.trace, SETUP_STEPS, 3, START_STEPS, n);
      n := 3 + n;
    }

    method InitPackages(o: Overlay, e: EopkgManager) returns (ok: bool, ghost k: nat)
      requires Ready(o, e)
      modifies o`beside, o.world`live, o.world`ups, o.world`trace
      ensures k <= 1 && (ok ==> k == 1) && o.world.trace == old(o.world.trace) + [HostCopied][..k]
      ensures Ready(o, e) && o.beside == old(o.beside) + Cache(o.BaseDir, ok) && (o.world.faultless ==> ok)
      ensures o.world.ups == old(o.world.ups) + if ok then [CacheAt(o.BaseDir)] else []
    {
      hide Balanced, VfsOrder;
      BesideGrows(o.beside, o.BaseDir);
      ghost var before := o.Table();
      ok, k := e.Init();
      assert ok ==> o.Table() == before + multiset{e.CacheTarget()};
      if ok { o.NoteMounts(before, multiset{e.CacheTarget()}); }
    }

    /** Repositories are configured, the base is upgraded and the build directories are made. */
    method Provision(o: Overlay, e: EopkgManager, profile: Profile)
      returns (r: Outcome, ghost names: seq<string>, ghost k: nat)
      requires Ready(o, e) && e.dbusActive
      modifies o`ExtraMounts, o.world`live, o.world`ups, o.world`indexed, o.world`trace, e`repos, e.notif
      ensures Ready(o, e) && (NamesExist(profile) ==> !r.Panicked?)
      ensures k <= |PROVISION_STEPS| && o.world.trace == old(o.world.trace) + PROVISION_STEPS[..k]
      ensures r.Done? <==> k == |PROVISION_STEPS|
      ensures r.Done? ==>
                && Follows(profile, names, old(e.repos), e.repos)
                && o.ExtraMounts == old(o.ExtraMounts) + Targets(o.Union(), Picked(profile, names))
      ensures o.JustExtras()
      ensures o.world.faultless ==>
                AddOrder(profile, names)
                && (r.Done? <==> Addable(Kept(old(e.repos), profile), Picked(profile, names)))
      ensures PlainNames(this, profile) && old(AllInSlots(o.BaseDir, o.ExtraMounts)) ==>
                AllInSlots(o.BaseDir, o.ExtraMounts)
    {
      hide Balanced, VfsOrder, AllInSlots, PlainNames, Targets, Follows, AddOrder, Addable, Kept, Overlay.ValidFor,
           DbusActive;
      SetupParts();
      k := 0;
      ghost var before := o.world.trace;
      r, names := ConfigureRepos(o, e, profile);
      ReposKeep(profile, o.BaseDir, names, old(o.ExtraMounts), o.ExtraMounts);
      if !r.Done? { return; }
      var ok;
      ok, k := e.Upgrade();
      Segment(before, o.world.trace, PROVISION_STEPS, 0, UPGRADE_STEPS, k);
      if !ok { return Failed, names, k; }
      ok := e.InstallComponent();
      Segment(before, o.world.trace, PROVISION_STEPS, 2, [DevelInstalled], if ok then 1 else 0);
      if !ok { return Failed, names, k; }
      k := 3;
      ok := o.world.Do(DirsMade, before, PROVISION_STEPS, 3);
      if !ok { return Failed, names, k; }
      k := 4;
    }

    lemma JoinTargets(before: seq<Path>, after: seq<Path>, union: Path, profile: Profile, names: seq<string>,
                      made: bool)
      requires made <==> after == WithSources(union, before + Targets(union, Picked(profile, names)))
      ensures made <==> after == before + BuildTargets(this, union, profile, names)
    {
      var repos, sources := Targets(union, Picked(profile, names)), SourceTargets(this, union);
      assert before + repos + sources + CacheTargets(union) == before + (repos + sources + CacheTargets(union));
      assert before + repos + sources == before + (repos + sources + []);
    }

    lemma ReposKeep(profile: Profile, base: Path, names: seq<string>, before: seq<Path>, after: seq<Path>)
      requires before <= after <= before + Targets(MountPoint(base), Picked(profile, names))
      ensures PlainNames(this, profile) && AllInSlots(base, before) ==> AllInSlots(base, after)
    {
      if PlainNames(this, profile) { ReposInSlots(profile, base, names); }
    }

    lemma EmptyInSlots(base: Path)
      ensures AllInSlots(base, [])
    {}

    /** The root is never cleaned first, and never on a tmpfs unless the overlay was told so before. */
    method Chroot(o: Overlay, e: EopkgManager)
      returns (r: Outcome, ghost tmpfs: bool, ghost laidOut: bool, ghost based: bool, ghost n: nat)
      requires Ready(o, e) && o.Clear()
      modifies o`mountedImg, o`mountedOverlay, o`mountedVFS, o`vfs, o`beside,
               o.world`live, o.world`ups, o.world`trace, e.notif
      ensures Ready(o, e) && (tmpfs ==> o.EnableTmpfs) && (laidOut && o.EnableTmpfs ==> tmpfs)
      ensures o.beside == old(o.beside) + Tmpfs(o.BaseDir, tmpfs)
      ensures o.world.ups == old(o.world.ups) + o.Came(tmpfs)
      ensures laidOut == o.mountedOverlay && (laidOut || r.Done? ==> o.mountedImg == laidOut)
      ensures r.Done? ==> o.vfs == VfsOrder(o.BaseDir)
      ensures o.world.faultless ==> r.Done? && laidOut
      ensures n <= |ChrootSteps(this, based)| && o.world.trace == old(o.world.trace) + ChrootSteps(this, based)[..n]
      ensures (r.Done? <==> n == |ChrootSteps(this, based)|) && (r.Done? ==> laidOut == based)
      ensures r.Panicked? ==> o.mountedImg && !o.mountedOverlay && !o.mountedVFS
      ensures r.Done? ==> e.notif.activePID == 0
      ensures r.Done? && !o.EnableTmpfs ==> laidOut
    {
      hide Balanced, VfsOrder, Overlay.ValidFor, Overlay.Came, Overlay.Table, MountPoint, Tmpfs, DbusActive,
           ChrootSteps, RootSteps;
      ghost var before := o.world.trace;
      r, tmpfs, laidOut, based, n := ActivateRoot(o);
      ghost var script := ChrootSteps(this, based);
      ChrootParts(this, based);
      Segment(before, o.world.trace, script, 0, RootSteps(Type.Ypkg?, based), n);
      if !r.Done? { return; }
      if Type.Ypkg? && !CanNetwork {
        var dropped := o.world.Do(NetworkDropped, before, script, n);
        if !dropped { return Failed, tmpfs, laidOut, based, n; }
        n := n + 1;
        var loopback := o.world.Do(LoopbackUp, before, script, n);
        if !loopback { return Failed, tmpfs, laidOut, based, n; }
        n := n + 1;
      }
      var left := ChrootStep(o.world, e.notif, ShellLeft, before, script, n);
      e.notif.SetActivePID(0);
      n := if left then n + 1 else n;
      r := if left then Done else Failed;
    }

    /** The directory to index is one more recorded mount. A finished indexer's PID stays the active one. */
    method Index(o: Overlay, notif: PidNotifier)
      returns (r: Outcome, ghost tmpfs: bool, ghost laidOut: bool, ghost based: bool, ghost n: nat)
      requires o.Valid() && o.Clear() && !notif.held
      modifies o`mountedImg, o`mountedOverlay, o`mountedVFS, o`vfs, o`beside, o`ExtraMounts,
               o.world`live, o.world`ups, o.world`trace, notif
      ensures o.Valid() && !notif.held && (tmpfs ==> o.EnableTmpfs) && (laidOut && o.EnableTmpfs ==> tmpfs)
      ensures o.beside == old(o.beside) + Tmpfs(o.BaseDir, tmpfs)
      ensures o.world.ups == old(o.world.ups) + MountLog(o, tmpfs, false)
      ensures laidOut == o.mountedOverlay && (laidOut || r.Done? ==> o.mountedImg == laidOut)
      ensures r.Done? ==> o.vfs == VfsOrder(o.BaseDir)
      ensures o.world.faultless ==> r.Done? && laidOut
      ensures n <= |IndexSteps(Type.Ypkg?, based)|
      ensures o.world.trace == old(o.world.trace) + IndexSteps(Type.Ypkg?, based)[..n]
      ensures (r.Done? <==> n == |IndexSteps(Type.Ypkg?, based)|) && (r.Done? ==> laidOut == based)
      ensures DbusActive(o.world.trace) == old(DbusActive(o.world.trace))
      ensures r.Panicked? ==> o.mountedImg && !o.mountedOverlay && !o.mountedVFS
      ensures o.ExtraMounts == [] || o.ExtraMounts == [Under(o.Union(), INDEX)]
      ensures r.Done? ==> o.ExtraMounts == [Under(o.Union(), INDEX)] && notif.activePID > 0
      ensures r.Done? && !o.EnableTmpfs ==> laidOut
    {
      hide Balanced, VfsOrder, Overlay.ValidFor, Overlay.Came, MountLog, Overlay.Table, MountPoint, Tmpfs, DbusActive,
           IndexSteps, FindSteps;
      ghost var before := o.world.trace;
      r, tmpfs, laidOut, based, n := FindAndActivate(o);
      IndexParts(Type.Ypkg?, based);
      LogGrows(o, tmpfs, false, old(o.world.ups));
      Segment(before, o.world.trace, IndexSteps(Type.Ypkg?, based), 0, FindSteps(Type.Ypkg?, based), n);
      if !r.Done? { return; }
      r, n := BindAndIndex(o, notif, before, IndexSteps(Type.Ypkg?, based), n);
      LogGrows(o, tmpfs, false, old(o.world.ups));
    }

    /** The root comes up once it is certain that there is something to index. */
    method FindAndActivate(o: Overlay)
      returns (r: Outcome, ghost tmpfs: bool, ghost laidOut: bool, ghost based: bool, ghost k: nat)
      requires o.Valid() && o.Clear()
      modifies o`mountedImg, o`mountedOverlay, o`mountedVFS, o`vfs, o`beside,
               o.world`live, o.world`ups, o.world`trace
      ensures o.Valid() && (tmpfs ==> o.EnableTmpfs) && (laidOut && o.EnableTmpfs ==> tmpfs)
      ensures o.beside == old(o.beside) + Tmpfs(o.BaseDir, tmpfs)
      ensures laidOut == o.mountedOverlay && (laidOut || r.Done? ==> o.mountedImg == laidOut)
      ensures o.world.ups == old(o.world.ups) + o.Came(tmpfs) && (o.world.faultless ==> r.Done? && laidOut)
      ensures k <= |FindSteps(Type.Ypkg?, based)|
      ensures o.world.trace == old(o.world.trace) + FindSteps(Type.Ypkg?, based)[..k]
      ensures DbusActive(o.world.trace) == old(DbusActive(o.world.trace))
      ensures r.Panicked? ==> o.mountedImg && !o.mountedOverlay && !o.mountedVFS
      ensures r.Done? ==> o.vfs == VfsOrder(o.BaseDir) && (!o.EnableTmpfs ==> laidOut)
      ensures r.Done? ==> k == |FindSteps(Type.Ypkg?, based)| && laidOut == based
    {
      hide Balanced, VfsOrder, Overlay.ValidFor, Overlay.Came, Overlay.Table, MountPoint, Tmpfs, DbusActive, CleanSteps,
           FindSteps;
      o.NoneCame(o.world.ups);
      BesideGrows(o.beside, o.BaseDir);
      ghost var before := o.world.trace;
      FindParts(Type.Ypkg?, true);
      var there := o.world.Do(DirFound, before, FindSteps(Type.Ypkg?, true), 0);
      if !there { return Failed, false, false, true, 0; }
      r, tmpfs, laidOut, based, k := CleanAndActivate(o);
      FindParts(Type.Ypkg?, based);
      assert FindSteps(Type.Ypkg?, true)[..1] == FindSteps(Type.Ypkg?, based)[..1];
      Segment(before, o.world.trace, FindSteps(Type.Ypkg?, based), 1, CleanSteps(Type.Ypkg?, based), k);
      k := k + 1;
    }

    method BindAndIndex(o: Overlay, notif: PidNotifier, ghost before: seq<Milestone>, ghost script: seq<Milestone>,
                        ghost i: nat) returns (r: Outcome, ghost n: nat)
      requires i + 2 == |script| && script[i] == IndexDirMade && script[i + 1] == Indexed
      requires o.Valid() && !notif.held && o.world.trace == before + script[..i]
      modifies o`ExtraMounts, o.world`live, o.world`ups, o.world`trace, notif
      ensures i <= n <= i + 2 && o.world.trace == before + script[..n] && (r.Done? <==> n == i + 2)
      ensures DbusActive(o.world.trace) == old(DbusActive(o.world.trace))
      ensures o.Valid() && !notif.held && !r.Panicked? && o.JustExtras() && (o.world.faultless ==> r.Done?)
      ensures o.ExtraMounts == old(o.ExtraMounts) || o.ExtraMounts == old(o.ExtraMounts) + [Under(o.Union(), INDEX)]
      ensures r.Done? ==>
                o.ExtraMounts == old(o.ExtraMounts) + [Under(o.Union(), INDEX)] && notif.activePID > 0
    {
      hide Balanced, VfsOrder, Overlay.ValidFor, Overlay.Table, MountPoint;
      var made := o.world.Do(IndexDirMade, before, script, i);
      if !made { return Failed, i; }
      var up := o.BindExtra(Under(o.Union(), INDEX));
      if !up { return Failed, i + 1; }
      var indexed := ChrootStep(o.world, notif, Indexed, before, script, i + 1);
      n := if indexed then i + 2 else i + 1;
      r := if indexed then Done else Failed;
    }

    predicate PlainSources() { forall s :: s in sources ==> Plain(s) }

    lemma SourcesKeep(base: Path, before: seq<Path>, after: seq<Path>)
      requires before <= after <= before + SourceTargets(this, MountPoint(base))
      ensures PlainSources() && AllInSlots(base, before) ==> AllInSlots(base, after)
    {
      if PlainSources() { SourcesInSlots(this, base); }
    }

    lemma CachesKeep(base: Path, before: seq<Path>, after: seq<Path>)
      requires before <= after <= before + CacheTargets(MountPoint(base))
      ensures AllInSlots(base, before) ==> AllInSlots(base, after)
    {}
  }
}
