/**
 `LockFile` itself. Each method issues its system calls one by one; between any two of them the other
 processes of the host may run. Its contracts name the events it added to the run, so whatever is
 proved of all runs in `LockProtocol` holds of every program that uses these methods.
 */
module LockFiles {
  import opened Wrappers
  import opened Text
  import opened LockProtocol

  /** The events of one process. */
  function Own(es: seq<Event>, p: Pid): seq<Event> {
    if es == [] then []
    else Own(es[..|es| - 1], p) + if es[|es| - 1].p == p then [es[|es| - 1]] else []
  }

  lemma OwnExtends(es: seq<Event>, e: Event, p: Pid)
    ensures Own(es + [e], p) == Own(es, p) + if e.p == p then [e] else []
  {}

  /** The kernel, and the whole run so far. */
  class Host {
    /** Whether a call of ours fails only for a reason that the state gives. */
    const reliable: bool
    ghost const start: State
    ghost var events: seq<Event>
    var st: State

    ghost predicate Valid()
      reads this
    {
      Init(start) && Run(start, events) && st == After(start, events)
    }

    constructor (s: State, reliable: bool)
      requires Init(s)
      ensures Valid() && events == [] && st == s && this.reliable == reliable
    {
      start, events, st, this.reliable := s, [], s, reliable;
    }

    /** One system call. */
    method Do(e: Event)
      requires Valid() && Enabled(st, e)
      modifies this
      ensures Valid() && events == old(events) + [e] && st == Apply(old(st), e)
    {
      RunExtends(start, events, e);
      events := events + [e];
      st := Apply(st, e);
    }

    /** The other processes run for a while. */
    method Others(p: Pid)
      requires Valid()
      modifies this
      ensures Valid() && old(events) <= events
      ensures Own(events, p) == Own(old(events), p)
      ensures p in st.procs <==> p in old(st.procs)
      ensures p in st.procs ==> st.procs[p] == old(st.procs[p])
      ensures p in st.alive <==> p in old(st.alive)
      ensures old(st.inodes.Keys) <= st.inodes.Keys
    {
      var steps: nat := *;
      while steps > 0
        invariant Valid() && old(events) <= events
        invariant Own(events, p) == Own(old(events), p)
        invariant p in st.procs <==> p in old(st.procs)
        invariant p in st.procs ==> st.procs[p] == old(st.procs[p])
        invariant p in st.alive <==> p in old(st.alive)
        invariant old(st.inodes.Keys) <= st.inodes.Keys
      {
        var e: Event := *;
        if e.p != p && Enabled(st, e) {
          Bystander(st, e, p);
          OwnExtends(events, e, p);
          Do(e);
        }
        steps := steps - 1;
      }
    }
  }

  datatype LockResult =
    | Locked                        // nil
    | NotRecorded(written: nat)     // flocked, but the PID did not reach the file completely
    | ErrOwned                      // another live process is recorded: ErrOwnedLockFile
    | Busy                          // flock failed
    | Unreadable                    // the path could not be opened for reading

  /** The system calls a `Lock` with a given outcome makes, in order, when it reads PID `n`. */
  function LockTrace(r: LockResult, p: Pid, n: int): seq<Event> {
    match r
    case Unreadable => []
    case ErrOwned => [ReadPid(p, n), Refuse(p, n)]
    case Busy => [ReadPid(p, n), Pass(p), FlockFails(p)]
    case NotRecorded(w) => [ReadPid(p, n), Pass(p), Flock(p), Write(p, w)]
    case Locked => [ReadPid(p, n), Pass(p), Flock(p), Write(p, |Digits(p)|)]
  }

  lemma LockTraceParts(before: seq<Event>, r: LockResult, p: Pid, n: int)
    ensures r.Unreadable? ==> LockTrace(r, p, n) == []
    ensures r.ErrOwned? ==> before + [ReadPid(p, n)] + [Refuse(p, n)] == before + LockTrace(r, p, n)
    ensures r.Locked? || r.NotRecorded? || r.Busy? ==>
              before + [ReadPid(p, n)] + [Pass(p)] + LockTrace(r, p, 0)[2..] == before + LockTrace(r, p, n)
    ensures r.Locked? || r.NotRecorded? ==>
              before + [Flock(p)] + LockTrace(r, p, 0)[3..] == before + LockTrace(r, p, 0)[2..]
  {}

  /** Event `k` of a run is the probe for PID `n`, and it came out as the host was at that moment. */
  ghost predicate ProbedAt(s: State, es: seq<Event>, k: nat, p: Pid, n: int, refused: bool) {
    && k < |es| && es[k] == (if refused then Refuse(p, n) else Pass(p))
    && Run(s, es[..k]) && (refused <==> Answers(After(s, es[..k]), n, p))
  }

  lemma ProbeStands(s: State, es: seq<Event>, later: seq<Event>, k: nat, p: Pid, n: int, refused: bool)
    requires es <= later && ProbedAt(s, es, k, p, n, refused)
    ensures ProbedAt(s, later, k, p, n, refused)
  {
    assert later[..k] == es[..k];
  }

  /** What a `Lock` with a given outcome makes of its process. */
  function Relocked(proc: Proc, p: Pid, r: LockResult): Proc {
    var n := |Digits(p)|;
    match r
    case Locked => proc.(pc := Idle, owner := true, held := true, offset := proc.offset + n,
                         recorded := proc.recorded || proc.offset == 0)
    case NotRecorded(w) => proc.(pc := Idle, owner := true, held := true, offset := proc.offset + w,
                                 recorded := proc.recorded || (proc.offset == 0 && w == n))
    case _ => proc.(pc := Idle)
  }

  /** The system calls of a `Clean`: none unless it once locked. */
  function CleanTrace(owner: bool, ok: bool, p: Pid, path: Path): seq<Event> {
    if !owner then [] else [Close(p), if ok then Remove(p, path) else RemoveFails(p)]
  }

  class LockFile {
    const host: Host
    const path: Path
    const ourPID: Pid
    var owningPID: int
    var fd: Ino
    var owner: bool

    ghost predicate Valid()
      reads this, host
    {
      && host.Valid() && ourPID in host.st.alive && ourPID in host.st.procs
      && fd in host.st.inodes
      && var me := host.st.procs[ourPID];
         me.path == path && me.fd == fd && me.owner == owner && me.pc == Idle
    }

    /** The descriptor has not been closed by `Clean`. */
    ghost predicate IsOpen()
      reads this, host
      requires Valid()
    {
      host.st.procs[ourPID].open
    }

    constructor (host: Host, path: Path, pid: Pid)
      requires host.Valid() && pid in host.st.alive && pid !in host.st.procs
      modifies host
      ensures this.host == host && this.path == path && ourPID == pid
      ensures Valid() && IsOpen() && !owner && owningPID == -1 && !host.st.procs[pid].held
      ensures fd in host.st.inodes && path in host.st.dir && host.st.dir[path] == fd
      ensures host.events == old(host.events) + [Open(pid, path, fd)]
      ensures path in old(host.st.dir) ==> fd == old(host.st.dir)[path]
      ensures path !in old(host.st.dir) ==> fd !in old(host.st.inodes) && host.st.inodes[fd].bytes == ""
    {
      this.host, this.path, this.ourPID := host, path, pid;
      owningPID, owner := -1, false;
      var ino: Ino;
      if path in host.st.dir {
        ino := host.st.dir[path];
      } else {
        FreshInode(host.st.inodes.Keys);
        ino :| ino !in host.st.inodes;
      }
      fd := ino;
      new;
      host.Do(Open(pid, path, ino));
      RunKeepsInv(host.start, host.events);
    }

    /** Since the old state we issued exactly these system calls, and the last state is what they made of us. */
    twostate predicate Issued(own: seq<Event>, proc: Proc)
      reads this, host
    {
      && host.Valid() && old(host.events) <= host.events
      && Own(host.events, ourPID) == Own(old(host.events), ourPID) + own
      && ourPID in host.st.alive && fd in host.st.inodes
      && ourPID in host.st.procs && host.st.procs[ourPID] == proc
    }

    /** Our last call, and what the host was like when we made it. */
    ghost predicate Last(e: Event, before: State)
      reads host
    {
      host.events != [] && host.events[|host.events| - 1] == e
      && Run(host.start, host.events[..|host.events| - 1])
      && before == After(host.start, host.events[..|host.events| - 1])
    }

    /**
     Event `k` is our probe for the recorded PID `n`: the lock is refused there exactly when `n` is another live
     process. `before` is the host at our last call; on a reliable host nothing else fails but the opening of a path
     that is not there, or a flock that is not to be had.
     */
    method Lock() returns (r: LockResult, ghost n: int, ghost k: nat, ghost before: State)
      requires Valid() && IsOpen()
      modifies this, host
      ensures Valid() && IsOpen() && fd == old(fd)
      ensures owner == (old(owner) || r.Locked? || r.NotRecorded?)
      ensures owningPID == if r.ErrOwned? then n else old(owningPID)
      ensures Issued(LockTrace(r, ourPID, n), Relocked(old(host.st.procs[ourPID]), ourPID, r))
      ensures !r.Unreadable? ==>
                old(|host.events|) <= k && ProbedAt(host.start, host.events, k, ourPID, n, r.ErrOwned?)
      ensures r.Busy? ==> Last(FlockFails(ourPID), before)
      ensures host.reliable ==>
                && !r.NotRecorded? && (r.Unreadable? ==> path !in host.st.dir)
                && (r.Busy? ==> !Grantable(before, fd, ourPID))
    {
      hide Host.Valid, Own, Answers, Grantable, Last, LockTrace, ProbedAt;
      ghost var own := Own(host.events, ourPID);
      before, k := host.st, 0;
      var pid := ReadPID();
      if pid == None {
        LockTraceParts(own, Unreadable, ourPID, 0);
        return Unreadable, 0, k, before;
      }
      n := pid.value;
      var refused;
      refused, k := Probe(pid.value);
      if refused {
        LockTraceParts(own, ErrOwned, ourPID, n);
        return ErrOwned, n, k, before;
      }
      ghost var probed := host.events;
      r, before := FlockAndRecord();
      ProbeStands(host.start, probed, host.events, k, ourPID, n, false);
      LockTraceParts(own, r, ourPID, n);
    }

    /** Reads by path, whatever inode the path names by now. */
    method ReadPID() returns (pid: Option<int>)
      requires Valid() && IsOpen()
      modifies host
      ensures pid == None ==> Issued([], old(host.st.procs[ourPID])) && (host.reliable ==> path !in host.st.dir)
      ensures pid != None ==>
                Issued([ReadPid(ourPID, pid.value)], old(host.st.procs[ourPID]).(pc := ReadDone(pid.value)))
    {
      host.Others(ourPID);
      var denied: bool := *;
      if (denied && !host.reliable) || path !in host.st.dir {
        return None;
      }
      RunKeepsInv(host.start, host.events);
      var n := Parse(host.st.inodes[host.st.dir[path]].bytes);
      Issue(ReadPid(ourPID, n));
      pid := Some(n);
    }

    /** Signal 0 to the recorded process, unless that is ourselves. */
    method Probe(n: int) returns (refused: bool, ghost k: nat)
      requires host.Valid() && At(host.st, ourPID, ReadDone(n)) && fd == host.st.procs[ourPID].fd
      modifies this`owningPID, host
      ensures owningPID == if refused then n else old(owningPID)
      ensures old(|host.events|) <= k && ProbedAt(host.start, host.events, k, ourPID, n, refused)
      ensures refused ==> Issued([Refuse(ourPID, n)], old(host.st.procs[ourPID]).(pc := Idle))
      ensures !refused ==> Issued([Pass(ourPID)], old(host.st.procs[ourPID]).(pc := Probed))
    {
      host.Others(ourPID);
      k := |host.events|;
      refused := n > 0 && n != ourPID && n in host.st.alive;
      if refused {
        owningPID := n;
        Issue(Refuse(ourPID, n));
      } else {
        Issue(Pass(ourPID));
      }
      assert host.events[..k] == host.events[..|host.events| - 1];
    }

    /** The second half of `Lock`: the flock on the descriptor opened long ago, then the record. */
    method FlockAndRecord() returns (r: LockResult, ghost before: State)
      requires host.Valid() && At(host.st, ourPID, Probed) && fd == host.st.procs[ourPID].fd
      modifies this`owner, host
      ensures r.Locked? || r.NotRecorded? || r.Busy?
      ensures owner == (old(owner) || !r.Busy?)
      ensures Issued(LockTrace(r, ourPID, 0)[2..], Relocked(old(host.st.procs[ourPID]), ourPID, r))
      ensures r.Busy? ==> Last(FlockFails(ourPID), before)
      ensures host.reliable ==> !r.NotRecorded? && (r.Busy? ==> !Grantable(before, fd, ourPID))
    {
      ghost var own := Own(host.events, ourPID);
      var locked;
      locked, before := TryFlock();
      if !locked {
        return Busy, before;
      }
      owner := true;
      r := WritePID();
      LockTraceParts(own, r, ourPID, 0);
    }

    method TryFlock() returns (locked: bool, ghost before: State)
      requires host.Valid() && At(host.st, ourPID, Probed) && fd == host.st.procs[ourPID].fd
      modifies host
      ensures locked ==>
                Issued([Flock(ourPID)], old(host.st.procs[ourPID]).(pc := Granted, owner := true, held := true))
      ensures !locked ==> Issued([FlockFails(ourPID)], old(host.st.procs[ourPID]).(pc := Idle))
      ensures Last(if locked then Flock(ourPID) else FlockFails(ourPID), before)
      ensures (locked ==> Grantable(before, fd, ourPID)) && (host.reliable ==> locked == Grantable(before, fd, ourPID))
    {
      host.Others(ourPID);
      before := host.st;
      locked := *;
      locked := (locked || host.reliable) && Grantable(host.st, fd, ourPID);
      Issue(if locked then Flock(ourPID) else FlockFails(ourPID));
    }

    method WritePID() returns (r: LockResult)
      requires host.Valid() && At(host.st, ourPID, Granted) && fd == host.st.procs[ourPID].fd
      modifies host
      ensures r.Locked? || (r.NotRecorded? && !host.reliable)
      ensures Issued(LockTrace(r, ourPID, 0)[3..], Relocked(old(host.st.procs[ourPID]), ourPID, r))
    {
      host.Others(ourPID);
      RunKeepsInv(host.start, host.events);
      assert ProcOk(host.st, ourPID);
      var fails: bool := *;
      fails := fails && !host.reliable;
      var w: nat := |Digits(ourPID)|;
      if fails { w :| 0 <= w <= |Digits(ourPID)|; }
      Issue(Write(ourPID, w));
      r := if fails then NotRecorded(w) else Locked;
    }

    /** A system call of ours. */
    method Issue(e: Event)
      requires host.Valid() && ourPID in host.st.procs && Enabled(host.st, e) && e.p == ourPID
      requires fd in host.st.inodes && !e.Spawn? && !e.Exit? && !e.Open?
      modifies host
      ensures Issued([e], Moved(old(host.st.procs[ourPID]), e))
      ensures host.events == old(host.events) + [e] && Last(e, old(host.st))
      ensures e.RemoveFails? ==> host.st.dir == old(host.st.dir)
    {
      OwnExtends(host.events, e, ourPID);
      host.Do(e);
    }

    /** The other processes run while we work. */
    method Meanwhile()
      requires Valid()
      modifies host
      ensures Valid() && IsOpen() == old(IsOpen())
      ensures Own(host.events, ourPID) == Own(old(host.events), ourPID)
    {
      host.Others(ourPID);
    }

    /** Unlocking keeps `owner`: only the kernel's lock goes. */
    method Unlock() returns (ok: bool)
      requires Valid()
      modifies host
      ensures Valid() && ok == (owner && old(IsOpen()))
      ensures ok ==> Issued([Event.Unlock(ourPID)], Moved(old(host.st.procs[ourPID]), Event.Unlock(ourPID)))
      ensures !ok ==> Issued([], old(host.st.procs[ourPID]))
    {
      host.Others(ourPID);
      ok := owner && host.st.procs[ourPID].open;
      if ok { Issue(Event.Unlock(ourPID)); }
    }

    /** An owner closes its descriptor and unlinks the path, whoever has locked a file there by then. */
    method Clean() returns (ok: bool)
      requires Valid()
      modifies host
      ensures Valid() && (!owner ==> ok) && (host.reliable && owner && !ok ==> path !in host.st.dir)
      ensures Issued(CleanTrace(owner, ok, ourPID, path),
                     if owner then Moved(old(host.st.procs[ourPID]), Close(ourPID)).(pc := Idle)
                     else old(host.st.procs[ourPID]))
    {
      hide Host.Valid, Own, Last, CleanTrace;
      host.Others(ourPID);
      ghost var before := Own(host.events, ourPID);
      CleanTraceParts(before, true, ourPID, path);
      if !owner {
        return true;
      }
      Issue(Close(ourPID));
      host.Others(ourPID);
      ok := *;
      ok := (ok || host.reliable) && path in host.st.dir;
      Issue(if ok then Remove(ourPID, path) else RemoveFails(ourPID));
      CleanTraceParts(before, ok, ourPID, path);
    }
  }

  lemma CleanTraceParts(before: seq<Event>, ok: bool, p: Pid, path: Path)
    ensures before + [Close(p)] + [if ok then Remove(p, path) else RemoveFails(p)] ==
            before + CleanTrace(true, ok, p, path)
    ensures CleanTrace(false, ok, p, path) == []
  {}

  lemma FreshInode(used: set<Ino>)
    ensures exists i: Ino :: i !in used
  {
    var bound := Bound(used);
    assert bound !in used;
  }

  ghost function Bound(used: set<Ino>): (b: nat)
    ensures forall i :: i in used ==> i < b
  {
    if used == {} then 0
    else
      var i :| i in used;
      var b := Bound(used - {i});
      assert used == used - {i} + {i};
      if i < b then b else i + 1
  }
}
