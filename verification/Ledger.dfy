/**
 The bookkeeping of a build root, on values: what an overlay's flags and lists say is mounted, and when
 that balances with the kernel's mount table. `beside` is the part nobody recorded.
 */
module Ledgers {
  import opened Paths
  import opened Mounts

  datatype Ledger = Ledger(base: Path, img: bool, union: bool, vfs: seq<Path>, extras: seq<Path>)

  function ImgDir(base: Path): Path { Sub(base, "img") }

  function MountPoint(base: Path): Path { Sub(base, "union") }

  /** What has to come up before anything else, in order, as far as it did. */
  function RootStretch(base: Path, tmpfs: bool, img: bool, union: bool): seq<Path> {
    (if tmpfs then [base] else []) + (if img then [ImgDir(base)] else []) + (if union then [MountPoint(base)] else [])
  }

  lemma StretchWithTmpfs(base: Path, img: bool, union: bool, before: seq<Path>)
    ensures before + [base] + RootStretch(base, false, img, union) == before + RootStretch(base, true, img, union)
    ensures before + RootStretch(base, false, false, false) == before
    ensures before + [base] == before + RootStretch(base, true, false, false)
    ensures before + [ImgDir(base)] == before + RootStretch(base, false, true, false)
    ensures before + [ImgDir(base)] + [MountPoint(base)] == before + RootStretch(base, false, true, true)
  {}

  /** Two stretches of a log, in which only the growing list was added to, make one. */
  lemma JoinStretches(e0: seq<Path>, e1: seq<Path>, e2: seq<Path>, u0: seq<Path>, u1: seq<Path>, u2: seq<Path>)
    requires e0 <= e1 <= e2 && u1 == u0 + e1[|e0|..] && u2 == u1 + e2[|e1|..]
    ensures e0 <= e2 && u2 == u0 + e2[|e0|..]
  {
    assert e2[|e0|..] == e1[|e0|..] + e2[|e1|..];
  }

  function Dev(base: Path): Path { Sub(MountPoint(base), "dev") }

  /** The virtual mount points, in unmount order. */
  function VfsPoints(base: Path): seq<Path> {
    var m := MountPoint(base);
    [Sub(Dev(base), "pts"), Sub(Dev(base), "shm"), Dev(base), Sub(m, "proc"), Sub(m, "sys")]
  }

  /** How many mounts at `p` are recorded. */
  function Count(l: Ledger, p: Path): nat {
    (if l.img && p == ImgDir(l.base) then 1 else 0) + (if l.union && p == MountPoint(l.base) then 1 else 0)
    + multiset(l.vfs)[p] + multiset(l.extras)[p]
  }

  /** The mount table is what stood beside, and exactly what is recorded. */
  ghost predicate Balanced(live: multiset<Path>, beside: multiset<Path>, l: Ledger) {
    forall p {:trigger Count(l, p)} :: live[p] == beside[p] + Count(l, p)
  }

  /** Virtual file systems are mounted at most once each, and nowhere else. */
  ghost predicate Listed(l: Ledger) {
    forall p {:trigger multiset(l.vfs)[p]} :: multiset(l.vfs)[p] <= multiset(VfsPoints(l.base))[p]
  }

  function RootMounts(l: Ledger): multiset<Path> {
    (if l.img then multiset{ImgDir(l.base)} else multiset{})
    + (if l.union then multiset{MountPoint(l.base)} else multiset{})
  }

  function Recorded(l: Ledger): multiset<Path> { RootMounts(l) + multiset(l.vfs) + multiset(l.extras) }

  lemma BalancedIsSum(live: multiset<Path>, beside: multiset<Path>, l: Ledger)
    ensures Balanced(live, beside, l) <==> live == beside + Recorded(l)
  {
    assert forall p :: Recorded(l)[p] == Count(l, p);
    if Balanced(live, beside, l) {
      assert forall p :: live[p] == beside[p] + Count(l, p);
    }
  }

  lemma AddImg(live: multiset<Path>, beside: multiset<Path>, l: Ledger)
    requires Balanced(live, beside, l) && !l.img
    ensures Balanced(live + multiset{ImgDir(l.base)}, beside, l.(img := true))
  {
    forall p ensures (live + multiset{ImgDir(l.base)})[p] == beside[p] + Count(l.(img := true), p) {
      assert live[p] == beside[p] + Count(l, p);
    }
  }

  lemma AddUnion(live: multiset<Path>, beside: multiset<Path>, l: Ledger)
    requires Balanced(live, beside, l) && !l.union
    ensures Balanced(live + multiset{MountPoint(l.base)}, beside, l.(union := true))
  {
    forall p ensures (live + multiset{MountPoint(l.base)})[p] == beside[p] + Count(l.(union := true), p) {
      assert live[p] == beside[p] + Count(l, p);
    }
  }

  lemma AddVfs(live: multiset<Path>, beside: multiset<Path>, l: Ledger, v: Path)
    requires Balanced(live, beside, l)
    ensures Balanced(live + multiset{v}, beside, l.(vfs := l.vfs + [v]))
  {
    forall p ensures (live + multiset{v})[p] == beside[p] + Count(l.(vfs := l.vfs + [v]), p) {
      assert live[p] == beside[p] + Count(l, p);
    }
  }

  lemma AddExtra(live: multiset<Path>, beside: multiset<Path>, l: Ledger, e: Path)
    requires Balanced(live, beside, l)
    ensures Balanced(live + multiset{e}, beside, l.(extras := l.extras + [e]))
  {
    forall p ensures (live + multiset{e})[p] == beside[p] + Count(l.(extras := l.extras + [e]), p) {
      assert live[p] == beside[p] + Count(l, p);
    }
  }

  lemma AddBeside(live: multiset<Path>, beside: multiset<Path>, l: Ledger, more: multiset<Path>)
    requires Balanced(live, beside, l)
    ensures Balanced(live + more, beside + more, l)
  {}

  lemma DropBeside(live: multiset<Path>, beside: multiset<Path>, l: Ledger, q: Path)
    requires Balanced(live, beside, l) && q in beside
    ensures q in live && Balanced(live - multiset{q}, beside - multiset{q}, l)
  {
    assert live[q] == beside[q] + Count(l, q);
    forall p ensures (live - multiset{q})[p] == (beside - multiset{q})[p] + Count(l, p) {
      assert live[p] == beside[p] + Count(l, p);
    }
  }

  /** The part of the table that is not recorded. */
  function Rest(live: multiset<Path>, l: Ledger): multiset<Path> { live - Recorded(l) }

  lemma RestBalances(live: multiset<Path>, l: Ledger)
    requires Recorded(l) <= live
    ensures Balanced(live, Rest(live, l), l)
  {}

  /** The mounts that are not ours keep away from the root; the extra ones stand apart from each other. */
  ghost predicate Orderly(beside: multiset<Path>, l: Ledger) {
    && Away(beside, l.base)
    && ChildrenFirst(l.extras)
    && (forall e :: e in l.extras ==>
          Below(e, MountPoint(l.base)) && forall v :: v in VfsPoints(l.base) ==> !Below(v, e))
  }

  ghost predicate Away(beside: multiset<Path>, base: Path) {
    forall q :: q in beside ==> q != MountPoint(base) && !Below(q, MountPoint(base)) && !Below(q, ImgDir(base))
  }

  // ---------------------------------------------------------------- what unmounting in order achieves

  lemma PointDepth(base: Path, i: nat)
    requires i < 5
    ensures Depth(VfsPoints(base)[i]) == Depth(MountPoint(base)) + if i < 2 then 2 else 1
    ensures Below(VfsPoints(base)[i], MountPoint(base))
  {}

  /** The paths lie below the mount point, and are listed children first. */
  ghost predicate Inside(base: Path, ps: seq<Path>) {
    && ChildrenFirst(ps)
    && forall p :: p in ps ==> Below(p, MountPoint(base)) && p != MountPoint(base) && p != ImgDir(base)
  }

  lemma PointsInside(base: Path)
    ensures Inside(base, VfsPoints(base))
  {
    var ps := VfsPoints(base);
    forall i, j | 0 <= i < j < |ps|
      ensures !Below(ps[j], ps[i])
    {
      PointDepth(base, i);
      PointDepth(base, j);
      if Below(ps[j], ps[i]) { BelowIsDeeper(ps[j], ps[i]); }
    }
    forall p | p in ps
      ensures Below(p, MountPoint(base)) && p != MountPoint(base) && p != ImgDir(base)
    {
      var i :| 0 <= i < |ps| && ps[i] == p;
      PointDepth(base, i);
    }
  }

  /** What is not ours, the image and the union are not below, nor at, anything below the mount point. */
  lemma NotBelowChild(beside: multiset<Path>, l: Ledger, q: Path, e: Path)
    requires Away(beside, l.base) && Below(e, MountPoint(l.base))
    requires q in beside || q in RootMounts(l)
    ensures !Below(q, e) && q != e
  {
    BelowIsDeeper(e, MountPoint(l.base));
    if Below(q, e) {
      BelowIsTransitive(q, e, MountPoint(l.base));
      BelowIsDeeper(q, MountPoint(l.base));
    }
  }

  lemma ExtrasClear(live: multiset<Path>, beside: multiset<Path>, l: Ledger)
    requires Balanced(live, beside, l) && Listed(l) && Orderly(beside, l)
    ensures UnmountEach(live, l.extras) == beside + RootMounts(l) + multiset(l.vfs)
  {
    var rest := beside + RootMounts(l) + multiset(l.vfs);
    forall q, i | q in rest && 0 <= i < |l.extras|
      ensures !Below(q, l.extras[i])
    {
      assert l.extras[i] in l.extras;
      if q in beside || q in RootMounts(l) {
        NotBelowChild(beside, l, q, l.extras[i]);
      } else {
        assert multiset(l.vfs)[q] <= multiset(VfsPoints(l.base))[q];
      }
    }
    BalancedIsSum(live, beside, l);
    assert live == rest + multiset(l.extras);
    UnmountEachClears(rest, multiset(l.extras), l.extras);
  }

  lemma PointsClear(beside: multiset<Path>, l: Ledger, up: multiset<Path>, ps: seq<Path>)
    requires Away(beside, l.base) && Inside(l.base, ps) && up <= multiset(ps)
    ensures UnmountEach(beside + (RootMounts(l) + up), ps) == beside + RootMounts(l)
  {
    var rest := beside + RootMounts(l);
    forall q, i | q in rest && 0 <= i < |ps|
      ensures !Below(q, ps[i]) && q != ps[i]
    {
      NotBelowChild(beside, l, q, ps[i]);
    }
    assert beside + (RootMounts(l) + up) == rest + up;
    UnmountEachClears(rest, up, ps);
  }

  /** The image comes off although the union still stands on it, and then the union. */
  lemma RootClears(beside: multiset<Path>, base: Path)
    requires Away(beside, base)
    ensures CanUnmount(beside + multiset{ImgDir(base)} + multiset{MountPoint(base)}, ImgDir(base))
    ensures CanUnmount(beside + multiset{ImgDir(base)}, ImgDir(base))
    ensures CanUnmount(beside + multiset{MountPoint(base)}, MountPoint(base))
  {
    if Below(MountPoint(base), ImgDir(base)) { BelowIsDeeper(MountPoint(base), ImgDir(base)); }
    if Below(ImgDir(base), ImgDir(base)) { BelowIsDeeper(ImgDir(base), ImgDir(base)); }
    if Below(MountPoint(base), MountPoint(base)) { BelowIsDeeper(MountPoint(base), MountPoint(base)); }
  }

  // ---------------------------------------------------------------- what any unmounting leaves on the books

  /**
   Dropping the record of extra mounts, whether or not they came off, moves what is left of them beside; nothing
   is left of them when the mounts are orderly and every unmount is granted that can be.
   */
  lemma ExtrasOff(before: multiset<Path>, beside: multiset<Path>, l: Ledger, after: multiset<Path>)
    returns (left: multiset<Path>)
    requires Balanced(before, beside, l) && l.vfs <= VfsOrder(l.base)
    requires after <= before && before - multiset(l.extras) <= after
    ensures Balanced(after, left, l.(extras := [])) && beside <= left
    ensures after == UnmountEach(before, l.extras) && Orderly(beside, l) ==> left == beside
  {
    left := Rest(after, l.(extras := []));
    BalancedIsSum(before, beside, l);
    var kept := RootMounts(l) + multiset(l.vfs);
    assert Recorded(l.(extras := [])) == kept && before - multiset(l.extras) == beside + kept;
    RestBalances(after, l.(extras := []));
    if Orderly(beside, l) {
      PrefixIsListed(l);
      ExtrasClear(before, beside, l);
    }
  }

  /** Dropping the record of virtual mounts, likewise; only at a listed point can a foreign mount go. */
  lemma VfsOff(before: multiset<Path>, beside: multiset<Path>, l: Ledger, ps: seq<Path>, after: multiset<Path>)
    returns (left: multiset<Path>)
    requires Balanced(before, beside, l) && l.extras == [] && Inside(l.base, ps) && multiset(l.vfs) <= multiset(ps)
    requires after <= before && before - multiset(ps) <= after
    ensures Balanced(after, left, l.(vfs := [])) && Keeps(beside, left, ps)
    ensures after == UnmountEach(before, ps) && Away(beside, l.base) ==> left == beside
  {
    hide UnmountEach, Away, Balanced, RootMounts, Recorded, Inside;
    left := Rest(after, l.(vfs := []));
    BalancedIsSum(before, beside, l);
    RootBooks(l, ps);
    PointsGone(before, beside, RootMounts(l), multiset(l.vfs), ps, after);
    RestBalances(after, l.(vfs := []));
    if Away(beside, l.base) { PointsClear(beside, l, multiset(l.vfs), ps); }
  }

  lemma RootBooks(l: Ledger, ps: seq<Path>)
    requires l.extras == [] && Inside(l.base, ps)
    ensures Recorded(l) == RootMounts(l) + multiset(l.vfs) && Recorded(l.(vfs := [])) == RootMounts(l)
    ensures forall p :: p in RootMounts(l) ==> p !in ps
  {}

  lemma PointsGone(before: multiset<Path>, beside: multiset<Path>, root: multiset<Path>, vfs: multiset<Path>,
                   ps: seq<Path>, after: multiset<Path>)
    requires before == beside + (root + vfs) && before - multiset(ps) <= after && forall p :: p in root ==> p !in ps
    ensures root <= after && Keeps(beside, after - root, ps)
  {}

  /** What unmounting some of `ps` did to the table, it did to the table and what is gone besides. */
  lemma Shifted(before: multiset<Path>, after: multiset<Path>, gone: multiset<Path>, ps: seq<Path>)
    requires after <= before && before - multiset(ps) <= after
    ensures after + gone <= before + gone && before + gone - multiset(ps) <= after + gone
  {}

  /** Elsewhere than at `ps`, no mount went. */
  ghost predicate Keeps(before: multiset<Path>, after: multiset<Path>, ps: seq<Path>) {
    forall p {:trigger after[p]} :: p !in ps ==> before[p] <= after[p]
  }

  lemma KeptThrough(a: multiset<Path>, b: multiset<Path>, c: multiset<Path>, d: multiset<Path>, ps: seq<Path>)
    requires a <= b && Keeps(b, c, ps) && c <= d
    ensures Keeps(a, d, ps)
  {
    assert forall p :: b[p] >= a[p] && d[p] >= c[p];
  }

  lemma OrderlyIsAway(beside: multiset<Path>, l: Ledger)
    ensures Orderly(beside, l) ==> Away(beside, l.base)
  {}

  lemma DropImg(live: multiset<Path>, beside: multiset<Path>, l: Ledger)
    requires Balanced(live, beside, l) && l.img
    ensures ImgDir(l.base) in live && Balanced(live - multiset{ImgDir(l.base)}, beside, l.(img := false))
  {
    assert live[ImgDir(l.base)] == beside[ImgDir(l.base)] + Count(l, ImgDir(l.base));
    forall p ensures (live - multiset{ImgDir(l.base)})[p] == beside[p] + Count(l.(img := false), p) {
      assert live[p] == beside[p] + Count(l, p);
    }
  }

  lemma DropUnion(live: multiset<Path>, beside: multiset<Path>, l: Ledger)
    requires Balanced(live, beside, l) && l.union
    ensures MountPoint(l.base) in live && Balanced(live - multiset{MountPoint(l.base)}, beside, l.(union := false))
  {
    assert live[MountPoint(l.base)] == beside[MountPoint(l.base)] + Count(l, MountPoint(l.base));
    forall p ensures (live - multiset{MountPoint(l.base)})[p] == beside[p] + Count(l.(union := false), p) {
      assert live[p] == beside[p] + Count(l, p);
    }
  }

  /** The virtual mount points, in the order they are mounted. */
  function VfsOrder(base: Path): seq<Path> {
    var m := MountPoint(base);
    [Dev(base), Sub(Dev(base), "pts"), Sub(m, "proc"), Sub(m, "sys"), Sub(Dev(base), "shm")]
  }

  lemma VirtualPoints(base: Path)
    ensures var m := MountPoint(base);
            VfsOrder(base) == [Dev(base), Sub(Dev(base), "pts"), Sub(m, "proc"), Sub(m, "sys"), Sub(Dev(base), "shm")]
  {}

  /** None of them goes below a mount point that is still to come, so every one stands where it was put. */
  lemma ParentsFirst(base: Path)
    ensures forall i, j :: 0 <= i < j < |VfsOrder(base)| ==> !Below(VfsOrder(base)[i], VfsOrder(base)[j])
    ensures forall v :: v in VfsOrder(base) ==> Below(v, MountPoint(base))
  {
    var m := MountPoint(base);
    forall v | v in VfsOrder(base)
      ensures Below(v, m) && v != m && !Below(Dev(base), v)
    {
      ParentIsNotBelow(m, v);
      NotBelowItself(m);
    }
    forall i, j | 0 <= i < j < |VfsOrder(base)|
      ensures !Below(VfsOrder(base)[i], VfsOrder(base)[j])
    {
      var v := VfsOrder(base)[i];
      assert VfsOrder(base)[j] in VfsOrder(base) && VfsOrder(base)[j] != Dev(base);
      assert v == Dev(base) || v.parent == Dev(base) || v.parent == m;
      ParentIsNotBelow(m, VfsOrder(base)[j]);
    }
  }

  /** However far mounting the virtual file systems got, unmounting them knows about each. */
  lemma PrefixIsListed(l: Ledger)
    requires l.vfs <= VfsOrder(l.base)
    ensures Listed(l)
  {
    SamePoints(l.base);
    PrefixIsPart(l.vfs, VfsOrder(l.base));
  }

  lemma SamePoints(base: Path)
    ensures multiset(VfsOrder(base)) == multiset(VfsPoints(base))
  {
    var dev, pts, shm := [Dev(base)], [Sub(Dev(base), "pts")], [Sub(Dev(base), "shm")];
    var rest := [Sub(MountPoint(base), "proc"), Sub(MountPoint(base), "sys")];
    assert VfsOrder(base) == dev + pts + rest + shm && VfsPoints(base) == pts + shm + dev + rest;
    Reordered(dev, pts, rest, shm);
  }

  lemma Reordered(a: seq<Path>, b: seq<Path>, c: seq<Path>, d: seq<Path>)
    ensures multiset(a + b + c + d) == multiset(b + d + a + c)
  {}

  lemma PrefixIsPart(part: seq<Path>, whole: seq<Path>)
    requires part <= whole
    ensures multiset(part) <= multiset(whole)
  {
    assert whole == part + whole[|part|..];
  }
}
