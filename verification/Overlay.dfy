/**
 The overlay of a build root: what it mounts, what it records, and what its `Unmount` recovers by itself.

 The tmpfs root counts as mounted beside the overlay, because the flag that should record it is never set; so
 does the package cache, which the package manager mounts and unmounts.
 */
module Overlays {
  import opened Paths
  import opened Mounts
  import opened Ledgers

  /** What mounting the root takes besides the mounts; the second step comes right after the union. */
  const ROOT_STEPS: seq<Milestone> := [DirsEnsured, WipedRun, LaidOut]

  class Overlay {
    const world: World
    const BaseDir: Path
    var EnableTmpfs: bool
    var ExtraMounts: seq<Path>
    var mountedImg: bool
    var mountedOverlay: bool
    var mountedVFS: bool
    var mountedTmpfs: bool

    /** The virtual file systems that came up, in order. */
    ghost var vfs: seq<Path>
    /** The mounts the overlay does not account for. */
    ghost var beside: multiset<Path>
    /** Mounts that the mount manager took off although the overlay accounts for them, or others did. */
    ghost var gone: multiset<Path>

    function Union(): Path { MountPoint(BaseDir) }

    /** What the flags and `ExtraMounts` account for. */
    ghost function Led(): Ledger
      reads this
    {
      Ledger(BaseDir, mountedImg, mountedOverlay, vfs, ExtraMounts)
    }

    /** The mount table as the overlay's books know it. */
    ghost function Table(): multiset<Path>
      reads this`gone, world`live
    {
      world.live + gone
    }

    /** The books balance against this mount table. */
    ghost predicate ValidFor(live: multiset<Path>)
      reads this
    {
      (mountedVFS <==> vfs != []) && !mountedTmpfs && vfs <= VfsOrder(BaseDir) && Balanced(live, beside, Led())
    }

    /** Flags and lists account for exactly the mounts that are live, or gone, and not beside the overlay. */
    ghost predicate Valid()
      reads this, world`live
    {
      ValidFor(Table())
    }

    /** Nothing recorded. */
    predicate Clear()
      reads this
    {
      !mountedImg && !mountedOverlay && !mountedVFS && !mountedTmpfs && ExtraMounts == []
    }

    constructor (world: World, baseDir: Path)
      ensures this.world == world && BaseDir == baseDir && Valid() && Clear() && !EnableTmpfs
      ensures beside == world.live && gone == multiset{}
    {
      this.world, BaseDir := world, baseDir;
      EnableTmpfs, ExtraMounts := false, [];
      mountedImg, mountedOverlay, mountedVFS, mountedTmpfs := false, false, false, false;
      vfs, beside, gone := [], world.live, multiset{};
      new;
      assert Recorded(Led()) == multiset{} && Table() == world.live;
      BalancedIsSum(Table(), beside, Led());
    }

    lemma ClearMeansBeside()
      requires Valid() && Clear()
      ensures Table() == beside && (gone == multiset{} ==> world.live == beside)
    {
      assert Recorded(Led()) == multiset{};
      BalancedIsSum(Table(), beside, Led());
      assert gone == multiset{} ==> Table() == world.live;
    }

    method Configure(tmpfs: bool)
      requires Valid()
      modifies this`EnableTmpfs
      ensures Valid() && EnableTmpfs == tmpfs
    {
      EnableTmpfs := tmpfs;
    }

    // -------------------------------------------------------------- mounting

    /**
     The tmpfs if there is to be one, the image and the union come up in this order, each only after those before it,
     and the flags account for exactly what did, except for the tmpfs. A failed mkdir for the tmpfs is reported as
     success with nothing mounted; `made` tells whether it worked.
     */
    method Mount() returns (r: Outcome, ghost made: bool, ghost tmpfs: bool, ghost k: nat)
      requires Valid() && !mountedImg && !mountedOverlay
      modifies this`mountedImg, this`mountedOverlay, this`beside, world`live, world`ups, world`trace
      ensures Valid()
      ensures world.ups == old(world.ups) + RootStretch(BaseDir, tmpfs, mountedImg, mountedOverlay)
      ensures (tmpfs ==> EnableTmpfs) && (mountedImg && EnableTmpfs ==> tmpfs) && (mountedOverlay ==> mountedImg)
      ensures beside == if tmpfs then old(beside) + multiset{BaseDir} else old(beside)
      ensures world.faultless ==> r.Done? && made
      ensures r.Done? ==> (mountedOverlay <==> !EnableTmpfs || made)
      ensures !made ==> r.Done? && !mountedImg && world.live == old(world.live) && beside == old(beside)
      ensures r.Done? ==> (mountedImg <==> mountedOverlay)
      ensures r.Panicked? ==> mountedImg && !mountedOverlay
      ensures k <= |RootSteps(made)| && world.trace == old(world.trace) + RootSteps(made)[..k]
      ensures (mountedOverlay <==> k >= 2) && (r.Done? ==> k == |RootSteps(made)|)
      ensures DbusActive(world.trace) == old(DbusActive(world.trace))
    {
      hide Balanced, Overlay.ValidFor, RootStretch;
      made, tmpfs, k := true, false, 0;
      StretchWithTmpfs(BaseDir, false, false, world.ups);
      if EnableTmpfs {
        var dir := world.Try();
        if !dir { return Done, false, tmpfs, k; }
        var up := MountTmpfs();
        if !up { return Failed, made, tmpfs, k; }
        tmpfs := true;
      }
      r, k := MountRoot();
      StretchWithTmpfs(BaseDir, mountedImg, mountedOverlay, old(world.ups));
    }

    method MountRoot() returns (r: Outcome, ghost k: nat)
      requires Valid() && !mountedImg && !mountedOverlay
      modifies this`mountedImg, this`mountedOverlay, world`live, world`ups, world`trace
      ensures Valid() && (mountedOverlay ==> mountedImg)
      ensures world.ups == old(world.ups) + RootStretch(BaseDir, false, mountedImg, mountedOverlay)
      ensures (r.Done? ==> mountedOverlay) && (world.faultless ==> r.Done?)
      ensures r.Panicked? ==> mountedImg && !mountedOverlay
      ensures k <= 3 && world.trace == old(world.trace) + ROOT_STEPS[..k]
      ensures (mountedOverlay <==> k >= 2) && (r.Done? ==> k == 3)
      ensures DbusActive(world.trace) == old(DbusActive(world.trace))
    {
      hide Balanced, Overlay.ValidFor, RootStretch, DbusActive;
      k := 0;
      ghost var before := world.trace;
      StretchWithTmpfs(BaseDir, false, false, world.ups);
      var dirs := world.Do(DirsEnsured, before, ROOT_STEPS, 0);
      if !dirs { return Failed, k; }
      k := 1;
      var img := MountImage();
      if !img { return Failed, k; }
      var union := MountUnion();
      if !union { return Panicked, k; }
      var laidOut := EnsureEopkgLayout(world, before, ROOT_STEPS, 1);
      k := if laidOut then 3 else 2;
      r := if laidOut then Done else Failed;
    }

    /** Without a directory for the tmpfs, nothing is done at all. */
    static function RootSteps(made: bool): seq<Milestone> { if made then ROOT_STEPS else [] }

    /** Nobody records this one. */
    method MountTmpfs() returns (up: bool)
      requires Valid()
      modifies this`beside, world`live, world`ups
      ensures Valid() && beside == (if up then old(beside) + multiset{BaseDir} else old(beside))
      ensures world.ups == (if up then old(world.ups) + [BaseDir] else old(world.ups)) && (world.faultless ==> up)
      ensures !up ==> world.live == old(world.live)
    {
      AddBeside(Table(), beside, Led(), multiset{BaseDir});
      up := world.Mount(BaseDir);
      assert up ==> Table() == old(Table()) + multiset{BaseDir};
      if up { beside := beside + multiset{BaseDir}; }
    }

    method MountImage() returns (up: bool)
      requires Valid() && !mountedImg
      modifies this`mountedImg, world`live, world`ups
      ensures Valid() && mountedImg == up && (world.faultless ==> up)
      ensures world.ups == if up then old(world.ups) + [ImgDir(BaseDir)] else old(world.ups)
    {
      AddImg(Table(), beside, Led());
      up := world.Mount(ImgDir(BaseDir));
      assert up ==> Table() == old(Table()) + multiset{ImgDir(BaseDir)};
      mountedImg := up;
    }

    method MountUnion() returns (up: bool)
      requires Valid() && !mountedOverlay
      modifies this`mountedOverlay, world`live, world`ups
      ensures Valid() && mountedOverlay == up && (world.faultless ==> up)
      ensures world.ups == if up then old(world.ups) + [Union()] else old(world.ups)
    {
      AddUnion(Table(), beside, Led());
      up := world.Mount(Union());
      assert up ==> Table() == old(Table()) + multiset{Union()};
      mountedOverlay := up;
    }

    /** The virtual file systems come up one by one; the flag is set with the first. */
    method MountVFS() returns (r: Outcome, ghost k: nat)
      requires Valid() && !mountedVFS
      modifies this`mountedVFS, this`vfs, world`live, world`ups, world`trace
      ensures k <= 1 && (r.Done? ==> k == 1) && world.trace == old(world.trace) + [VfsDirsMade][..k]
      ensures DbusActive(world.trace) == old(DbusActive(world.trace))
      ensures Valid() && !r.Panicked?
      ensures r.Done? <==> vfs == VfsOrder(BaseDir)
      ensures world.ups == old(world.ups) + vfs && (world.faultless ==> r.Done?)
    {
      hide Balanced, VfsOrder, Overlay.ValidFor;
      VirtualPoints(BaseDir);
      NoneUp();
      ghost var before := world.ups;
      k := 0;
      var made := world.Do(VfsDirsMade, world.trace, [VfsDirsMade], 0);
      if !made { return Failed, k; }
      k := 1;
      var up := MountVirtual(Dev(BaseDir), 0, before);
      if !up { return Failed, k; }
      up := MountVirtual(Sub(Dev(BaseDir), "pts"), 1, before);
      if !up { return Failed, k; }
      up := MountVirtual(Sub(Union(), "proc"), 2, before);
      if !up { return Failed, k; }
      up := MountVirtual(Sub(Union(), "sys"), 3, before);
      if !up { return Failed, k; }
      up := MountVirtual(Sub(Dev(BaseDir), "shm"), 4, before);
      r := if up then Done else Failed;
    }

    lemma NoneUp()
      requires Valid() && !mountedVFS
      ensures vfs == []
    {}

    method MountVirtual(p: Path, ghost k: nat, ghost before: seq<Path>) returns (up: bool)
      requires Valid() && k < |VfsOrder(BaseDir)| && p == VfsOrder(BaseDir)[k]
      requires vfs == VfsOrder(BaseDir)[..k] && world.ups == before + vfs
      modifies this`mountedVFS, this`vfs, world`live, world`ups
      ensures Valid() && vfs == VfsOrder(BaseDir)[..if up then k + 1 else k]
      ensures world.ups == before + vfs && (world.faultless ==> up)
    {
      hide Balanced, VfsOrder;
      AddVfs(Table(), beside, Led(), p);
      up := world.Mount(p);
      assert up ==> Table() == old(Table()) + multiset{p};
      if up {
        vfs := vfs + [p];
        mountedVFS := true;
      }
    }

    /** What bringing the root up has mounted, in order, as the flags and the list tell. */
    ghost function Came(tmpfs: bool): seq<Path>
      reads this`mountedImg, this`mountedOverlay, this`vfs
    {
      RootStretch(BaseDir, tmpfs, mountedImg, mountedOverlay) + vfs
    }

    lemma NoneCame(before: seq<Path>)
      requires Valid() && Clear()
      ensures before + Came(false) == before && vfs == []
    {}

    lemma CameAfter(tmpfs: bool, before: seq<Path>)
      ensures before + RootStretch(BaseDir, tmpfs, mountedImg, mountedOverlay) + vfs == before + Came(tmpfs)
      ensures vfs == [] ==>
                before + RootStretch(BaseDir, tmpfs, mountedImg, mountedOverlay) == before + Came(tmpfs)
    {}

    /** Since the old state nothing was mounted but extra mounts, and exactly these were added to the record. */
    twostate predicate JustExtras()
      reads this, world
    {
      old(ExtraMounts) <= ExtraMounts && world.ups == old(world.ups) + ExtraMounts[|old(ExtraMounts)|..]
    }

    /** A mount that is recorded right away. */
    method BindExtra(p: Path) returns (up: bool)
      requires Valid()
      modifies this`ExtraMounts, world`live, world`ups
      ensures Valid()
      ensures ExtraMounts == if up then old(ExtraMounts) + [p] else old(ExtraMounts)
      ensures JustExtras() && (world.faultless ==> up)
    {
      AddExtra(Table(), beside, Led(), p);
      up := world.Mount(p);
      assert up ==> Table() == old(Table()) + multiset{p};
      if up { ExtraMounts := ExtraMounts + [p]; }
    }

    /** Somebody else mounted something. */
    ghost method NoteMounts(before: multiset<Path>, more: multiset<Path>)
      requires ValidFor(before) && Table() == before + more
      modifies this`beside
      ensures Valid() && beside == old(beside) + more
    {
      AddBeside(before, beside, Led(), more);
      beside := beside + more;
    }

    /** Somebody else unmounted at `q`: what we did not record there, or else what we did. */
    ghost method NoteUnmount(before: multiset<Path>, q: Path)
      requires ValidFor(before) && q in before && Table() == before - multiset{q}
      modifies this`beside, this`gone
      ensures Valid()
      ensures if q in old(beside) then beside == old(beside) - multiset{q} && gone == old(gone)
              else beside == old(beside) && gone == old(gone) + multiset{q}
    {
      hide Balanced, VfsOrder;
      if q in beside {
        DropBeside(before, beside, Led(), q);
        beside := beside - multiset{q};
      } else {
        gone := gone + multiset{q};
        assert Table() == before - multiset{q} + multiset{q} == before;
      }
    }

    /** The mount manager took off part of what was live. */
    ghost method NoteTaken(was: multiset<Path>)
      requires world.live <= was && ValidFor(was + gone)
      modifies this`gone
      ensures Valid() && old(gone) <= gone
    {
      var before := was + gone;
      gone := gone + (was - world.live);
      assert Table() == before;
    }

    // -------------------------------------------------------------- unmounting

    /**
     Always: extra and virtual mounts are off the books, `Done` means nothing is recorded any more, and a mount
     that was not recorded stays unless it stands at a virtual mount point. When unmounting fails only for the
     kernel's reasons, nobody took a mount off behind the record, and the mounts are orderly, every recorded mount
     goes and nothing else does. With nothing recorded, nothing happens.
     */
    method Unmount() returns (r: Outcome)
      requires Valid()
      modifies this`ExtraMounts, this`mountedImg, this`mountedOverlay, this`mountedVFS, this`mountedTmpfs, this`vfs,
               this`beside, world`live
      ensures Valid() && ExtraMounts == [] && !mountedVFS && !r.Panicked?
      ensures r.Done? <==> Clear()
      ensures world.live <= old(world.live)
      ensures Keeps(old(beside), Table(), VfsPoints(BaseDir))
      ensures world.reliable && gone == multiset{} && old(Orderly(beside, Led())) ==>
                r.Done? && world.live == old(beside) == beside
      ensures old(Clear()) ==> r.Done? && world.live == old(world.live)
    {
      hide Balanced, VfsOrder, VfsPoints, Keeps, Orderly, Away, Overlay.ValidFor, Overlay.Table;
      OrderlyIsAway(beside, Led());
      UnmountExtras();
      ghost var between := beside;
      UnmountVFS();
      r := UnmountRoot();
      Concluded(old(beside), between);
    }

    lemma Concluded(was: multiset<Path>, between: multiset<Path>)
      requires Valid() && was <= between && Keeps(between, beside, VfsPoints(BaseDir))
      ensures Keeps(was, Table(), VfsPoints(BaseDir))
      ensures Clear() && gone == multiset{} ==> world.live == beside
    {
      hide Balanced, VfsOrder, VfsPoints, Keeps;
      BalancedIsSum(Table(), beside, Led());
      KeptThrough(was, between, beside, Table(), VfsPoints(BaseDir));
      if Clear() { ClearMeansBeside(); }
    }

    lemma NothingGone()
      ensures gone == multiset{} ==> Table() == world.live
    {}

    /** Errors are ignored: what could not be unmounted is no longer accounted for. */
    method UnmountExtras()
      requires Valid()
      modifies this`ExtraMounts, this`beside, world`live
      ensures Valid() && ExtraMounts == [] && world.live <= old(world.live) && old(beside) <= beside
      ensures world.reliable && gone == multiset{} && old(Orderly(beside, Led())) ==> beside == old(beside)
      ensures old(ExtraMounts) == [] ==> world.live == old(world.live)
    {
      hide Balanced, VfsOrder, Orderly, UnmountEach;
      ghost var l := Led();
      NothingGone();
      world.UnmountList(ExtraMounts);
      NothingGone();
      Shifted(old(world.live), world.live, gone, ExtraMounts);
      beside := ExtrasOff(old(Table()), beside, l, Table());
      ExtraMounts := [];
    }

    method UnmountVFS()
      requires Valid() && ExtraMounts == []
      modifies this`mountedVFS, this`vfs, this`beside, world`live
      ensures Valid() && !mountedVFS && world.live <= old(world.live)
      ensures Keeps(old(beside), beside, VfsPoints(BaseDir))
      ensures world.reliable && gone == multiset{} && Away(old(beside), BaseDir) ==> beside == old(beside)
      ensures !old(mountedVFS) ==> world.live == old(world.live)
    {
      if mountedVFS {
        PointsInside(BaseDir);
        PrefixIsListed(Led());
        UnmountPoints(VfsPoints(BaseDir));
      }
    }

    method UnmountPoints(ps: seq<Path>)
      requires Valid() && ExtraMounts == [] && Inside(BaseDir, ps) && multiset(vfs) <= multiset(ps)
      modifies this`mountedVFS, this`vfs, this`beside, world`live
      ensures Valid() && !mountedVFS && world.live <= old(world.live)
      ensures Keeps(old(beside), beside, ps)
      ensures world.reliable && gone == multiset{} && Away(old(beside), BaseDir) ==> beside == old(beside)
    {
      hide UnmountEach, Inside, Away, Keeps, Balanced, VfsOrder;
      ghost var l := Led();
      NothingGone();
      world.UnmountList(ps);
      NothingGone();
      Shifted(old(world.live), world.live, gone, ps);
      beside := VfsOff(old(Table()), beside, l, ps, Table());
      vfs := [];
      mountedVFS := false;
    }

    /** The image, then the union, then the tmpfs; the first failure ends it. */
    method UnmountRoot() returns (r: Outcome)
      requires Valid() && ExtraMounts == [] && !mountedVFS
      modifies this`mountedImg, this`mountedOverlay, this`mountedTmpfs, world`live
      ensures Valid() && !r.Panicked? && world.live <= old(world.live)
      ensures r.Done? <==> Clear()
      ensures world.reliable && gone == multiset{} && Away(beside, BaseDir) ==> r.Done?
      ensures !old(mountedImg) && !old(mountedOverlay) ==> r.Done? && world.live == old(world.live)
    {
      hide Balanced, VfsOrder, Away;
      if mountedImg {
        var ok := UnmountImage();
        if !ok { return Failed; }
      }
      if mountedOverlay {
        var ok := UnmountUnion();
        if !ok { return Failed; }
      }
      var ok := UnmountTmpfs();
      return if ok then Done else Failed;
    }

    method UnmountImage() returns (ok: bool)
      requires Valid() && ExtraMounts == [] && !mountedVFS && mountedImg
      modifies this`mountedImg, world`live
      ensures Valid() && mountedImg == !ok && world.live <= old(world.live)
      ensures world.reliable && gone == multiset{} && Away(beside, BaseDir) ==> ok
    {
      DropImg(Table(), beside, Led());
      RootBooks();
      ok := world.Unmount(ImgDir(BaseDir));
      assert ok ==> Table() == old(Table()) - multiset{ImgDir(BaseDir)};
      if ok { mountedImg := false; }
    }

    method UnmountUnion() returns (ok: bool)
      requires Valid() && ExtraMounts == [] && !mountedVFS && mountedOverlay && !mountedImg
      modifies this`mountedOverlay, world`live
      ensures Valid() && mountedOverlay == !ok && world.live <= old(world.live)
      ensures world.reliable && gone == multiset{} && Away(beside, BaseDir) ==> ok
    {
      DropUnion(Table(), beside, Led());
      RootBooks();
      ok := world.Unmount(Union());
      assert ok ==> Table() == old(Table()) - multiset{Union()};
      if ok { mountedOverlay := false; }
    }

    lemma RootBooks()
      requires Valid() && ExtraMounts == [] && !mountedVFS
      ensures gone == multiset{} && Away(beside, BaseDir) ==>
                && (mountedImg ==> CanUnmount(world.live, ImgDir(BaseDir)))
                && (mountedOverlay && !mountedImg ==> CanUnmount(world.live, Union()))
    {
      BalancedIsSum(Table(), beside, Led());
      NothingGone();
      assert Table() == beside + (if mountedImg then multiset{ImgDir(BaseDir)} else multiset{})
                               + (if mountedOverlay then multiset{Union()} else multiset{});
      if Away(beside, BaseDir) { RootClears(beside, BaseDir); }
    }

    /** It would unmount the upper directory, where nothing is ever mounted; the flag is never set. */
    method UnmountTmpfs() returns (ok: bool)
      modifies this`mountedTmpfs, world`live
      ensures ok ==> !mountedTmpfs
      ensures !old(mountedTmpfs) ==> ok && world.live == old(world.live)
    {
      ok := true;
      if mountedTmpfs {
        ok := world.Unmount(Sub(BaseDir, "tmp"));
        if ok { mountedTmpfs := false; }
      }
    }
  }

  /** `/run` is wiped and the layout rebuilt. */
  method EnsureEopkgLayout(world: World, ghost before: seq<Milestone>, ghost script: seq<Milestone>, ghost k: nat)
    returns (ok: bool)
    requires k + 1 < |script| && script[k] == WipedRun && script[k + 1] == LaidOut
    requires world.trace == before + script[..k]
    modifies world`trace
    ensures world.trace == before + script[..if ok then k + 2 else k + 1]
    ensures DbusActive(world.trace) == DbusActive(old(world.trace))
    ensures world.faultless ==> ok
  {
    world.Reach(WipedRun);
    ok := world.Do(LaidOut, before, script, k + 1);
  }
}
