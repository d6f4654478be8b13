/**
 Where a build root has things bind mounted, by components below its mount point, and why these places never
 lie below each other: the fact that lets the recorded mounts be unmounted in the order they were made.
 */
module Slots {
  import opened Text
  import opened Paths
  import opened Mounts
  import opened Ledgers

  const HOST_REPOS := ["hostRepos"]
  const YPKG_SOURCES := ["home", "build", "YPKG", "sources"]
  const XML_SOURCES := ["var", "cache", "eopkg", "archives"]
  const PACKAGE_CACHE := ["var", "cache", "eopkg", "packages"]
  const INDEX := ["hostRepo", "Index"]

  /** The build caches, in mount order. */
  const CACHES := [["home", "build", ".cache", "bazel"], ["home", "build", ".ccache"],
                   ["home", "build", ".cache", "go-build"], ["home", "build", ".cache", "sccache"]]

  /** A local repository, a source, a build cache, or the directory to index. */
  ghost predicate Slot(parts: seq<string>) {
    || (|parts| == 2 && (parts[0] == "hostRepos" || parts[0] == "hostRepo"))
    || (|parts| == 5 && (YPKG_SOURCES < parts || XML_SOURCES < parts))
    || (|parts| == 3 && parts[0] == "home" && parts[2] == ".ccache")
    || (|parts| == 4 && parts[0] == "home" && parts[2] == ".cache")
  }

  /** A place below the mount point in one of the slots. */
  ghost predicate InSlot(base: Path, p: Path) {
    exists parts :: Slot(parts) && p == Under(MountPoint(base), parts)
  }

  ghost predicate AllInSlots(base: Path, ps: seq<Path>) { forall e :: e in ps ==> InSlot(base, e) }

  lemma SlotsApart(p: seq<string>, q: seq<string>)
    requires Slot(p) && Slot(q)
    ensures !(q < p)
  {}

  /** Slots are below the mount point, apart from each other, and neither above a virtual mount nor at the cache. */
  lemma SlotsStandApart(base: Path, p: Path)
    requires InSlot(base, p)
    ensures Below(p, MountPoint(base))
    ensures forall q :: InSlot(base, q) ==> !Below(q, p)
    ensures forall v :: v in VfsPoints(base) ==> !Below(v, p)
    ensures p != Under(MountPoint(base), PACKAGE_CACHE) && !Below(p, Under(MountPoint(base), PACKAGE_CACHE))
  {
    var m := MountPoint(base);
    var parts :| Slot(parts) && p == Under(m, parts);
    BelowIsPrefix(m, parts, []);
    forall q | InSlot(base, q)
      ensures !Below(q, p)
    {
      var other :| Slot(other) && q == Under(m, other);
      SlotsApart(other, parts);
      BelowIsPrefix(m, other, parts);
    }
    forall v | v in VfsPoints(base)
      ensures !Below(v, p)
    {
      var virtual := PointParts(base, v);
      BelowIsPrefix(m, virtual, parts);
    }
    BelowIsPrefix(m, parts, PACKAGE_CACHE);
    CacheIsNoSlot(parts);
  }

  /** A virtual mount point has at most two components, and the first is none of ours. */
  lemma PointParts(base: Path, v: Path) returns (parts: seq<string>)
    requires v in VfsPoints(base)
    ensures v == Under(MountPoint(base), parts) && forall p :: Slot(p) ==> !(p < parts)
  {
    var m := MountPoint(base);
    parts := if v.parent == m then [v.name] else ["dev", v.name];
    assert parts[..|parts| - 1] == if v.parent == m then [] else ["dev"];
    assert Under(m, ["dev"]) == Sub(m, "dev") by { assert ["dev"][..0] == []; }
  }

  lemma CacheIsNoSlot(parts: seq<string>)
    requires Slot(parts)
    ensures parts != PACKAGE_CACHE && !(PACKAGE_CACHE < parts)
  {
    assert "home"[0] != "var"[0] && "archives"[0] != "packages"[0];
    assert |parts| == 5 ==> parts[3] == "sources" || parts[3] == "archives";
  }

  // ---------------------------------------------------------------- what goes there

  lemma PlainSlot(base: Path, dir: seq<string>, name: string)
    requires Plain(name) && Slot(dir + [name])
    ensures InSlot(base, JoinName(Under(MountPoint(base), dir), name))
  {
    JoinPlain(Under(MountPoint(base), dir), name);
    assert (dir + [name])[..|dir|] == dir;
    assert JoinName(Under(MountPoint(base), dir), name) == Under(MountPoint(base), dir + [name]);
  }

  /** Extra mounts in different slots make an orderly record, given that nothing of the host stands in the way. */
  lemma SlotsAreOrderly(beside: multiset<Path>, l: Ledger)
    requires Away(beside, l.base) && AllInSlots(l.base, l.extras)
    ensures Orderly(beside, l)
  {
    forall i, j | 0 <= i < j < |l.extras|
      ensures !Below(l.extras[j], l.extras[i])
    {
      SlotsStandApart(l.base, l.extras[i]);
    }
    forall e | e in l.extras
      ensures Below(e, MountPoint(l.base)) && forall v :: v in VfsPoints(l.base) ==> !Below(v, e)
    {
      SlotsStandApart(l.base, e);
    }
  }

  function CacheAt(base: Path): Path { Under(MountPoint(base), PACKAGE_CACHE) }

  /** The overlay never records the package cache. */
  lemma CacheIsUnrecorded(l: Ledger)
    requires l.vfs <= VfsOrder(l.base) && AllInSlots(l.base, l.extras)
    ensures Count(l, CacheAt(l.base)) == 0
  {
    hide CacheAt;
    CacheIsDeep(l.base);
    assert CacheAt(l.base) !in l.vfs by {
      assert forall v :: v in l.vfs ==> v in VfsOrder(l.base);
    }
    forall e | e in l.extras
      ensures e != CacheAt(l.base)
    {
      SlotsStandApart(l.base, e);
      CacheIs(l.base);
    }
    assert CacheAt(l.base) !in l.extras;
    assert CacheAt(l.base) !in multiset(l.vfs) && CacheAt(l.base) !in multiset(l.extras);
  }

  lemma CacheIs(base: Path)
    ensures CacheAt(base) == Under(MountPoint(base), PACKAGE_CACHE)
  {}

  lemma CacheIsDeep(base: Path)
    ensures Below(CacheAt(base), MountPoint(base))
    ensures CacheAt(base) != MountPoint(base) && CacheAt(base) != ImgDir(base)
    ensures forall v :: v in VfsOrder(base) ==> v != CacheAt(base) && !Below(v, CacheAt(base))
  {
    var m := MountPoint(base);
    BelowIsPrefix(m, PACKAGE_CACHE, []);
    NotAboveItself(m, PACKAGE_CACHE);
    forall v | v in VfsOrder(base)
      ensures v != CacheAt(base) && !Below(v, CacheAt(base))
    {
      assert Depth(v) <= Depth(m) + 2;
      if Below(v, CacheAt(base)) { BelowIsDeeper(v, CacheAt(base)); }
    }
  }

  /** The package manager can unmount its cache before the overlay is taken down, if it is mounted at all. */
  lemma CacheComesOff(live: multiset<Path>, beside: multiset<Path>, l: Ledger)
    requires Balanced(live, beside, l) && l.vfs <= VfsOrder(l.base) && CacheAt(l.base) in live
    requires Away(beside - multiset{CacheAt(l.base)}, l.base) && AllInSlots(l.base, l.extras)
    ensures CanUnmount(live, CacheAt(l.base))
  {
    hide CacheAt, VfsOrder;
    var cache := CacheAt(l.base);
    CacheIsDeep(l.base);
    NotBelowItself(cache);
    BalancedIsSum(live, beside, l);
    forall q | q in live
      ensures !Below(q, cache)
    {
      if q in l.extras {
        SlotsStandApart(l.base, q);
        CacheIs(l.base);
      } else if q in l.vfs {
        assert q in VfsOrder(l.base);
      } else if q != cache && Below(q, cache) {
        RootIsHigh(q, l.base, cache);
        BelowIsTransitive(q, cache, MountPoint(l.base));
      }
    }
  }

  /** Neither the image nor the union lies below anything below the mount point. */
  lemma RootIsHigh(q: Path, base: Path, p: Path)
    requires Below(q, p) && Below(p, MountPoint(base))
    ensures q != ImgDir(base) && q != MountPoint(base)
  {
    BelowIsDeeper(q, p);
    BelowIsDeeper(p, MountPoint(base));
  }

  lemma UnrecordedIsBeside(live: multiset<Path>, beside: multiset<Path>, l: Ledger, q: Path)
    requires Balanced(live, beside, l) && q in live && Count(l, q) == 0
    ensures q in beside
  {
    assert live[q] == beside[q] + Count(l, q);
  }

  lemma AbsentIsNotBeside(live: multiset<Path>, beside: multiset<Path>, l: Ledger, q: Path)
    requires Balanced(live, beside, l) && q !in live
    ensures beside - multiset{q} == beside
  {
    assert live[q] == beside[q] + Count(l, q);
  }

  /** The mounts of a session that nobody records: the tmpfs root, and the package cache. */
  function Tmpfs(base: Path, mounted: bool): multiset<Path> { if mounted then multiset{base} else multiset{} }

  function Cache(base: Path, mounted: bool): multiset<Path> { if mounted then multiset{CacheAt(base)} else multiset{} }

  lemma BesideGrows(beside: multiset<Path>, base: Path)
    ensures beside + Tmpfs(base, false) == beside && beside + Tmpfs(base, true) == beside + multiset{base}
    ensures beside + Cache(base, false) == beside && beside + Cache(base, true) == beside + multiset{CacheAt(base)}
  {}

  lemma TmpfsIsAway(was: multiset<Path>, base: Path, tmpfs: bool, cached: bool)
    requires Away(was, base)
    ensures was + Tmpfs(base, tmpfs) + Cache(base, cached) - multiset{CacheAt(base)} == was + Tmpfs(base, tmpfs)
    ensures Away(was + Tmpfs(base, tmpfs), base)
  {
    hide CacheAt;
    CacheIsDeep(base);
    BelowIsDeeper(CacheAt(base), MountPoint(base));
    assert Depth(MountPoint(base)) == Depth(base) + 1 == Depth(ImgDir(base));
    assert !Below(base, MountPoint(base)) by {
      if Below(base, MountPoint(base)) { BelowIsDeeper(base, MountPoint(base)); }
    }
    assert !Below(base, ImgDir(base)) by {
      if Below(base, ImgDir(base)) { BelowIsDeeper(base, ImgDir(base)); }
    }
    assert CacheAt(base) !in was + Tmpfs(base, tmpfs);
  }
}
