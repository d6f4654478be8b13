/**
 The outside world a build root is made of: the kernel's mount table, and the milestones of a build.
 Every call into it may fail. What a mount manager and the kernel promise is stated here, once.
 */
module Mounts {
  import opened Paths

  /** The steps of a run that worked, mounts aside; `YpkgStarted` is the attempt at the one that follows it. */
  datatype Milestone =
    | DirFound | Cleaned | RootDirMade | DirsEnsured | WipedRun | LaidOut | UserAdded | VfsDirsMade
    | FilesCopied | SourcesFetched | HostCopied | DbusDirMade | DbusIdMade | DbusStarted
    | Upgraded | ToolsInstalled | DevelInstalled | DirsMade
    | PackagerWritten | DepsInstalled | DbusFound | DbusStopped | DbusKilled | HomeOwned
    | NetworkDropped | LoopbackUp | YpkgStarted | YpkgBuilt | XmlBuilt | Collected
    | ShellLeft | IndexDirMade | Indexed

  /** Whether D-Bus runs, as far as the milestones tell. */
  function DbusActive(t: seq<Milestone>): bool {
    if t == [] then false
    else match t[|t| - 1]
      case DbusStarted => true
      case DbusStopped => false
      case _ => DbusActive(t[..|t| - 1])
  }

  lemma DbusAfter(t: seq<Milestone>, m: Milestone)
    ensures DbusActive(t + [m]) == (m.DbusStarted? || (!m.DbusStopped? && DbusActive(t)))
  {}

  /** A stretch of a script that was followed in its place continues the script. */
  lemma Segment(before: seq<Milestone>, now: seq<Milestone>, s: seq<Milestone>, i: nat, part: seq<Milestone>, k: nat)
    requires i + |part| <= |s| && s[i..i + |part|] == part && k <= |part|
    requires now == before + s[..i] + part[..k]
    ensures now == before + s[..i + k]
  {
    assert s[..i + k] == s[..i] + s[i..i + |part|][..k];
  }

  /** How a step ends. */
  datatype Outcome = Done | Failed | Panicked

  /** The kernel refuses to unmount below which something is still mounted, or where nothing is. */
  predicate CanUnmount(live: multiset<Path>, p: Path) {
    p in live && forall q {:trigger Below(q, p)} :: q in live ==> !Below(q, p)
  }

  function TryUnmount(live: multiset<Path>, p: Path): multiset<Path> {
    if CanUnmount(live, p) then live - multiset{p} else live
  }

  /** Unmounting the first `n` one after the other, ignoring refusals. */
  function UnmountFirst(live: multiset<Path>, ps: seq<Path>, n: nat): multiset<Path>
    requires n <= |ps|
  {
    if n == 0 then live else TryUnmount(UnmountFirst(live, ps, n - 1), ps[n - 1])
  }

  function UnmountEach(live: multiset<Path>, ps: seq<Path>): multiset<Path> { UnmountFirst(live, ps, |ps|) }

  class World {
    /** Whether unmounting fails only for the kernel's two reasons. */
    const reliable: bool
    /** Whether every other call into it succeeds. */
    const faultless: bool
    var live: multiset<Path>
    var trace: seq<Milestone>
    /** Everything that was ever mounted, in order. */
    ghost var ups: seq<Path>
    /** The local repositories that were indexed anew, by name. */
    ghost var indexed: seq<string>
    /** The mount table each time the mount manager was asked to unmount everything. */
    ghost var asked: seq<multiset<Path>>

    constructor (reliable: bool, faultless: bool, live: multiset<Path>)
      ensures this.reliable == reliable && this.faultless == faultless && this.live == live
      ensures trace == [] && ups == [] && asked == [] && indexed == []
    {
      this.reliable, this.faultless, this.live, trace := reliable, faultless, live, [];
      ups, asked, indexed := [], [], [];
    }

    /** A file-system call, a command or a child process that may fail. */
    method Try() returns (ok: bool)
      ensures faultless ==> ok
    {
      ok := *;
      ok := ok || faultless;
    }

    method Reach(m: Milestone)
      modifies this`trace
      ensures trace == old(trace) + [m]
      ensures DbusActive(trace) == (m.DbusStarted? || (!m.DbusStopped? && DbusActive(old(trace))))
    {
      DbusAfter(trace, m);
      trace := trace + [m];
    }

    /** Such a call that counts, in its place of a script. */
    method Do(m: Milestone, ghost before: seq<Milestone>, ghost script: seq<Milestone>, ghost k: nat)
      returns (ok: bool)
      requires k < |script| && script[k] == m && trace == before + script[..k]
      modifies this`trace
      ensures trace == before + script[..if ok then k + 1 else k]
      ensures (m.DbusStarted? || m.DbusStopped?) || DbusActive(trace) == DbusActive(old(trace))
      ensures ok && m.DbusStarted? ==> DbusActive(trace)
      ensures (!ok ==> trace == old(trace)) && (faultless ==> ok)
    {
      ok := Try();
      if ok { Reach(m); }
    }

    /** Mount or bind mount. */
    method Mount(p: Path) returns (ok: bool)
      modifies this`live, this`ups
      ensures live == if ok then old(live) + multiset{p} else old(live)
      ensures ups == if ok then old(ups) + [p] else old(ups)
      ensures faultless ==> ok
    {
      ok := *;
      ok := ok || faultless;
      if ok { live, ups := live + multiset{p}, ups + [p]; }
    }

    method Unmount(p: Path) returns (ok: bool)
      modifies this`live
      ensures ok ==> p in old(live) && CanUnmount(old(live), p)
      ensures live == if ok then old(live) - multiset{p} else old(live)
      ensures reliable ==> ok == CanUnmount(old(live), p) && live == TryUnmount(old(live), p)
    {
      var fails: bool := *;
      ok := CanUnmount(live, p) && (reliable || !fails);
      if ok { live := live - multiset{p}; }
    }

    /** Unmounts one after the other and ignores the errors. */
    method UnmountList(ps: seq<Path>)
      modifies this`live
      ensures live <= old(live) && old(live) - multiset(ps) <= live
      ensures reliable ==> live == UnmountEach(old(live), ps)
    {
      hide TryUnmount, CanUnmount, Between;
      BetweenStart(live, ps);
      for i := 0 to |ps|
        invariant Between(old(live), live, ps, i)
        invariant reliable ==> live == UnmountFirst(old(live), ps, i)
      {
        ghost var before := live;
        var ok := Unmount(ps[i]);
        BetweenStep(old(live), before, live, ps, i);
      }
      BetweenEnd(old(live), live, ps);
    }

    /** The mount manager's last resort: assumed to unmount some of what is live, and nothing else. */
    method UnmountAll()
      modifies this`live, this`asked
      ensures live <= old(live) && asked == old(asked) + [old(live)]
    {
      asked := asked + [live];
      var rest: multiset<Path> := *;
      live := live * rest;
    }
  }

  // ---------------------------------------------------------------- unmounting sequences

  /** At most the first `n` paths went, once each. */
  ghost predicate Between(start: multiset<Path>, live: multiset<Path>, ps: seq<Path>, n: nat)
    requires n <= |ps|
  {
    live <= start && start - multiset(ps[..n]) <= live
  }

  lemma BetweenStart(live: multiset<Path>, ps: seq<Path>)
    ensures Between(live, live, ps, 0)
  {}

  lemma BetweenStep(start: multiset<Path>, before: multiset<Path>, after: multiset<Path>, ps: seq<Path>, n: nat)
    requires n < |ps| && Between(start, before, ps, n)
    requires after == before || (ps[n] in before && after == before - multiset{ps[n]})
    ensures Between(start, after, ps, n + 1)
  {
    assert ps[..n + 1] == ps[..n] + [ps[n]];
  }

  lemma BetweenEnd(start: multiset<Path>, live: multiset<Path>, ps: seq<Path>)
    requires Between(start, live, ps, |ps|)
    ensures live <= start && start - multiset(ps) <= live
  {
    assert ps[..|ps|] == ps;
  }

  /** No later path lies below an earlier one. */
  predicate ChildrenFirst(ps: seq<Path>) {
    forall i, j {:trigger Below(ps[j], ps[i])} :: 0 <= i < j < |ps| ==> !Below(ps[j], ps[i])
  }

  /** Nothing of `rest` lies below any of `ps`. */
  predicate Undisturbed(rest: multiset<Path>, ps: seq<Path>) {
    forall q, i {:trigger Below(q, ps[i])} :: q in rest && 0 <= i < |ps| ==> !Below(q, ps[i])
  }

  /**
   Unmounting the listed paths clears exactly what is mounted there beside `rest`, when children come
   before their parents and nothing of `rest` lies below; listed paths that are not mounted do no harm
   unless `rest` has a mount there.
   */
  lemma UnmountEachClears(rest: multiset<Path>, up: multiset<Path>, ps: seq<Path>)
    requires ChildrenFirst(ps) && Undisturbed(rest, ps) && up <= multiset(ps)
    requires up == multiset(ps) || forall p :: p in ps ==> p !in rest
    ensures UnmountEach(rest + up, ps) == rest
  {
    assert ps[..|ps|] == ps;
    UnmountFirstClears(rest, up, ps, |ps|);
    assert up - multiset(ps) == multiset{};
  }

  lemma {:induction false} UnmountFirstClears(rest: multiset<Path>, up: multiset<Path>, ps: seq<Path>, n: nat)
    requires ChildrenFirst(ps) && Undisturbed(rest, ps) && up <= multiset(ps) && n <= |ps|
    requires up == multiset(ps) || forall p :: p in ps ==> p !in rest
    ensures UnmountFirst(rest + up, ps, n) == rest + (up - multiset(ps[..n]))
  {
    hide TryUnmount;
    if n == 0 {
      assert up - multiset(ps[..0]) == up;
    } else {
      UnmountFirstClears(rest, up, ps, n - 1);
      OneClears(rest, up, ps, n - 1);
    }
  }

  lemma OneClears(rest: multiset<Path>, up: multiset<Path>, ps: seq<Path>, n: nat)
    requires ChildrenFirst(ps) && Undisturbed(rest, ps) && up <= multiset(ps) && n < |ps|
    requires up == multiset(ps) || forall p :: p in ps ==> p !in rest
    ensures TryUnmount(rest + (up - multiset(ps[..n])), ps[n]) == rest + (up - multiset(ps[..n + 1]))
  {
    var head, left := ps[n], up - multiset(ps[..n]);
    assert ps[..n + 1] == ps[..n] + [head];
    Counted(ps, n);
    if head in left {
      HeadIsFree(rest, up, ps, n);
      assert rest + left - multiset{head} == rest + (left - multiset{head});
    } else {
      assert up != multiset(ps) && head !in rest + left;
    }
    assert left - multiset{head} == up - multiset(ps[..n + 1]);
  }

  lemma Counted(ps: seq<Path>, n: nat)
    requires n < |ps|
    ensures ps[n] in multiset(ps) - multiset(ps[..n])
    ensures forall q :: q in multiset(ps) - multiset(ps[..n]) ==> q in ps[n..]
  {
    assert ps == ps[..n] + ps[n..];
    assert multiset(ps) - multiset(ps[..n]) == multiset(ps[n..]);
    assert ps[n] in ps[n..];
  }

  lemma HeadIsFree(rest: multiset<Path>, up: multiset<Path>, ps: seq<Path>, n: nat)
    requires ChildrenFirst(ps) && Undisturbed(rest, ps) && up <= multiset(ps) && n < |ps|
    requires ps[n] in up - multiset(ps[..n])
    ensures CanUnmount(rest + (up - multiset(ps[..n])), ps[n])
  {
    var left := up - multiset(ps[..n]);
    Counted(ps, n);
    NotBelowItself(ps[n]);
    forall q | q in rest + left
      ensures !Below(q, ps[n])
    {
      if q in left {
        assert q in multiset(ps) - multiset(ps[..n]);
        var i :| n <= i < |ps| && ps[i] == q;
      }
    }
  }

  /** The order is not optional: a parent unmounted while a child is live stays mounted. */
  lemma ParentFirstLeaves(rest: multiset<Path>, parent: Path, child: Path)
    requires Below(child, parent) && forall q :: q in rest ==> !Below(q, child)
    ensures UnmountEach(rest + multiset{parent, child}, [parent, child]) == rest + multiset{parent}
  {
    var live := rest + multiset{parent, child};
    NotBelowItself(child);
    ParentIsNotBelow(parent, child);
    assert TryUnmount(live, parent) == live by { assert child in live; }
    assert TryUnmount(live, child) == rest + multiset{parent};
    assert UnmountFirst(live, [parent, child], 1) == live;
  }

  lemma ParentIsNotBelow(parent: Path, child: Path)
    requires Below(child, parent)
    ensures !Below(parent, child)
  {
    if Below(parent, child) {
      BelowIsTransitive(parent, child, parent);
      NotBelowItself(parent);
    }
  }
}
