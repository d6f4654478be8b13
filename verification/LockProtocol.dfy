/**
 The lock-file protocol, as a transition system over any number of processes.

 A lock file is one path. The kernel keeps a directory (path to inode), the bytes of each inode and
 the one process whose open file description has flocked it. Every system call a `LockFile` makes is
 one event; events of different processes interleave freely, and a process may die between any two
 of its events. PIDs read by path and locks taken on the earlier descriptor can so meet different inodes.
 */
module LockProtocol {
  import opened Wrappers
  import opened Text

  type Pid = nat
  type Ino = nat
  type Path = string

  /** Where a process stands inside a call; `Idle` is between calls. */
  datatype Pc = Idle | ReadDone(pid: int) | Probed | Granted | Closing

  /** One process's `LockFile`; `held` says it is past a successful flock and not past its unlock or close. */
  datatype Proc = Proc(path: Path, fd: Ino, openedAt: nat, open: bool, owner: bool, held: bool,
                       recorded: bool, offset: nat, pc: Pc)

  datatype Inode = Inode(bytes: string, holder: Option<Pid>)

  datatype State = State(dir: map<Path, Ino>, inodes: map<Ino, Inode>, procs: map<Pid, Proc>,
                         alive: set<Pid>, clock: nat)

  datatype Event =
    | Spawn(p: Pid)
    | Exit(p: Pid)                             // a return from main, a crash or a kill
    | Open(p: Pid, path: Path, ino: Ino)       // NewLockFile: O_RDWR|O_CREATE
    | ReadPid(p: Pid, result: int)             // readPID, by path
    | Refuse(p: Pid, other: int)               // the PID read answers signal 0: ErrOwnedLockFile
    | Pass(p: Pid)                             // nothing to probe, or nobody answers: signal 0 reaches every process
    | Flock(p: Pid)                            // LOCK_EX|LOCK_NB on the descriptor
    | FlockFails(p: Pid)
    | Write(p: Pid, written: nat)              // writePID: how many digits reached the file
    | Unlock(p: Pid)
    | Close(p: Pid)                            // first half of Clean
    | Remove(p: Pid, path: Path)               // second half of Clean, the unlink
    | RemoveFails(p: Pid)

  // ---------------------------------------------------------------- steps

  /** What `readPID` makes of a file: -1 when it holds no number. */
  function Parse(bytes: string): int {
    match ScanInt(bytes) case Some(n) => n case None => -1
  }

  /** A write at an offset: it neither truncates nor seeks, so old bytes beyond it stay. */
  function Overlay(bytes: string, offset: nat, data: string): string {
    var padded := if offset <= |bytes| then bytes else bytes + seq(offset - |bytes|, _ => '\0');
    padded[..offset] + data + (if offset + |data| <= |padded| then padded[offset + |data|..] else "")
  }

  /** Nobody else has flocked the inode. */
  predicate Grantable(s: State, i: Ino, p: Pid) {
    i in s.inodes && (s.inodes[i].holder == None || s.inodes[i].holder == Some(p))
  }

  /** The process is alive, has an open lock file, and is at the given point of a call. */
  predicate At(s: State, p: Pid, pc: Pc) {
    p in s.alive && p in s.procs && s.procs[p].open && s.procs[p].fd in s.inodes && s.procs[p].pc == pc
  }

  /** The recorded PID is that of another process, which lives. */
  predicate Answers(s: State, n: int, p: Pid) { n > 0 && n != p && n in s.alive }

  predicate Enabled(s: State, e: Event) {
    match e
    case Spawn(p) => p !in s.alive && p !in s.procs
    case Exit(p) => p in s.alive
    case Open(p, path, ino) =>
      p in s.alive && p !in s.procs && if path in s.dir then s.dir[path] == ino else ino !in s.inodes
    case ReadPid(p, result) =>
      At(s, p, Idle) && s.procs[p].path in s.dir && s.dir[s.procs[p].path] in s.inodes
      && result == Parse(s.inodes[s.dir[s.procs[p].path]].bytes)
    case Refuse(p, other) => At(s, p, ReadDone(other)) && Answers(s, other, p)
    case Pass(p) =>
      p in s.procs && s.procs[p].pc.ReadDone? && At(s, p, s.procs[p].pc) && !Answers(s, s.procs[p].pc.pid, p)
    case Flock(p) => At(s, p, Probed) && Grantable(s, s.procs[p].fd, p)
    case FlockFails(p) => At(s, p, Probed)
    case Write(p, written) => At(s, p, Granted) && written <= |Digits(p)|
    case Unlock(p) => At(s, p, Idle) && s.procs[p].owner
    case Close(p) => p in s.alive && p in s.procs && s.procs[p].pc == Idle && s.procs[p].owner
    case Remove(p, path) =>
      p in s.alive && p in s.procs && s.procs[p].pc == Closing && s.procs[p].path == path && path in s.dir
    case RemoveFails(p) => p in s.alive && p in s.procs && s.procs[p].pc == Closing
  }

  /** The kernel drops a process's flock. */
  function Drop(inodes: map<Ino, Inode>, i: Ino, p: Pid): map<Ino, Inode> {
    if i in inodes && inodes[i].holder == Some(p) then inodes[i := inodes[i].(holder := None)] else inodes
  }

  /** What an event of its own does to a process. */
  function Moved(proc: Proc, e: Event): Proc {
    match e
    case ReadPid(_, result) => proc.(pc := ReadDone(result))
    case Pass(_) => proc.(pc := Probed)
    case Flock(_) => proc.(pc := Granted, owner := true, held := true)
    case Write(p, written) =>
      proc.(pc := Idle, offset := proc.offset + written,
            recorded := proc.recorded || (proc.offset == 0 && written == |Digits(p)|))
    case Unlock(_) => proc.(held := false, recorded := false)
    case Close(_) => proc.(held := false, recorded := false, open := false, pc := Closing)
    case Exit(_) => proc.(held := false, recorded := false, open := false, pc := Idle)
    case _ => proc.(pc := Idle)
  }

  /** What an event does to the files. */
  function MovedInodes(s: State, e: Event): map<Ino, Inode>
    requires Enabled(s, e)
  {
    match e
    case Open(p, path, ino) => if path in s.dir then s.inodes else s.inodes[ino := Inode("", None)]
    case Flock(p) => var i := s.procs[p].fd; s.inodes[i := s.inodes[i].(holder := Some(p))]
    case Write(p, written) =>
      var i := s.procs[p].fd;
      s.inodes[i := s.inodes[i].(bytes := Overlay(s.inodes[i].bytes, s.procs[p].offset, Digits(p)[..written]))]
    case Unlock(p) => Drop(s.inodes, s.procs[p].fd, p)
    case Close(p) => Drop(s.inodes, s.procs[p].fd, p)
    case Exit(p) => if p in s.procs then Drop(s.inodes, s.procs[p].fd, p) else s.inodes
    case _ => s.inodes
  }

  function Apply(s: State, e: Event): State
    requires Enabled(s, e)
  {
    State(
      if e.Open? then s.dir[e.path := e.ino] else if e.Remove? then s.dir - {e.path} else s.dir,
      MovedInodes(s, e),
      if e.Open? then s.procs[e.p := Proc(e.path, e.ino, s.clock, true, false, false, false, 0, Idle)]
      else if e.p in s.procs then s.procs[e.p := Moved(s.procs[e.p], e)] else s.procs,
      if e.Spawn? then s.alive + {e.p} else if e.Exit? then s.alive - {e.p} else s.alive,
      s.clock + 1)
  }

  // ---------------------------------------------------------------- runs

  /** No process has opened a lock file yet; stale lock files with any content may lie around. */
  predicate Init(s: State) {
    s.procs == map[] && s.clock == 0
    && (forall path :: path in s.dir ==> s.dir[path] in s.inodes)
    && (forall i :: i in s.inodes ==> s.inodes[i].holder == None)
  }

  predicate Run(s: State, es: seq<Event>)
    decreases |es|, 0
  {
    es == [] || (Run(s, es[..|es| - 1]) && Enabled(After(s, es[..|es| - 1]), es[|es| - 1]))
  }

  function After(s: State, es: seq<Event>): State
    requires Run(s, es)
    decreases |es|, 1
  {
    if es == [] then s else Apply(After(s, es[..|es| - 1]), es[|es| - 1])
  }

  lemma RunExtends(s: State, es: seq<Event>, e: Event)
    requires Run(s, es) && Enabled(After(s, es), e)
    ensures Run(s, es + [e]) && After(s, es + [e]) == Apply(After(s, es), e)
  {}

  lemma {:induction false} RunPrefix(s: State, es: seq<Event>, k: nat)
    requires Run(s, es) && k < |es|
    ensures Run(s, es[..k]) && Enabled(After(s, es[..k]), es[k])
    decreases |es|
  {
    if k < |es| - 1 {
      RunPrefix(s, es[..|es| - 1], k);
      assert es[..|es| - 1][..k] == es[..k];
    }
  }

  /** An event of another process leaves a process and its life alone. */
  lemma Bystander(s: State, e: Event, p: Pid)
    requires Enabled(s, e) && e.p != p
    ensures p in s.procs <==> p in Apply(s, e).procs
    ensures p in s.procs ==> Apply(s, e).procs[p] == s.procs[p]
    ensures p in s.alive <==> p in Apply(s, e).alive
  {}

  // ---------------------------------------------------------------- what every state keeps

  predicate ProcOk(s: State, p: Pid)
    requires p in s.procs
  {
    var proc := s.procs[p];
    && proc.fd in s.inodes
    && proc.openedAt < s.clock
    && (proc.open ==> p in s.alive)
    && (proc.held ==> proc.open && proc.owner && s.inodes[proc.fd].holder == Some(p))
    && (proc.pc == Granted ==> proc.held)
    && (proc.pc == Closing ==> proc.owner && !proc.open)
    && (proc.recorded ==> proc.held && Digits(p) <= s.inodes[proc.fd].bytes && proc.offset >= |Digits(p)|)
  }

  predicate Inv(s: State) {
    && (forall path :: path in s.dir ==> s.dir[path] in s.inodes)
    && (forall p :: p in s.procs ==> ProcOk(s, p))
    && HoldersOk(s)
  }

  /** The kernel's holder of an inode knows that it holds it. */
  predicate HoldersOk(s: State) {
    forall i :: i in s.inodes && s.inodes[i].holder.Some? ==>
      var p := s.inodes[i].holder.value; p in s.procs && s.procs[p].fd == i && s.procs[p].held
  }

  lemma OverlayPrefix(bytes: string, offset: nat, data: string, kept: string)
    ensures kept <= bytes && |kept| <= offset ==> kept <= Overlay(bytes, offset, data)
    ensures data <= Overlay(bytes, 0, data)
  {}

  lemma WriteKeepsProc(s: State, e: Event, q: Pid)
    requires Inv(s) && Enabled(s, e) && e.Write? && q in s.procs
    ensures ProcOk(Apply(s, e), q)
  {
    assert ProcOk(s, q) && ProcOk(s, e.p);
    var data := Digits(e.p)[..e.written];
    assert e.written == |Digits(e.p)| ==> data == Digits(e.p);
    OverlayPrefix(s.inodes[s.procs[e.p].fd].bytes, s.procs[e.p].offset, data, Digits(e.p));
  }

  lemma OwnStepKeepsProc(s: State, e: Event)
    requires Inv(s) && Enabled(s, e) && !e.Write? && e.p in Apply(s, e).procs
    ensures ProcOk(Apply(s, e), e.p)
  {}

  lemma OtherStepKeepsProc(s: State, e: Event, q: Pid)
    requires Inv(s) && Enabled(s, e) && !e.Write? && q in s.procs && q != e.p
    ensures q in Apply(s, e).procs && ProcOk(Apply(s, e), q)
  {
    assert ProcOk(s, q);
  }

  lemma InvStep(s: State, e: Event)
    requires Inv(s) && Enabled(s, e)
    ensures Inv(Apply(s, e))
  {
    var t := Apply(s, e);
    forall q | q in t.procs
      ensures ProcOk(t, q)
    {
      if e.Write? {
        WriteKeepsProc(s, e, q);
      } else if q == e.p {
        OwnStepKeepsProc(s, e);
      } else {
        OtherStepKeepsProc(s, e, q);
      }
    }
    HoldersStep(s, e);
  }

  lemma HoldersStep(s: State, e: Event)
    requires Inv(s) && Enabled(s, e)
    ensures HoldersOk(Apply(s, e))
  {
    assert e.p in s.procs ==> ProcOk(s, e.p);
  }

  lemma {:induction false} RunKeepsInv(s: State, es: seq<Event>)
    requires Init(s) && Run(s, es)
    ensures Inv(After(s, es)) && After(s, es).clock == |es|
    decreases |es|
  {
    if es != [] {
      RunKeepsInv(s, es[..|es| - 1]);
      InvStep(After(s, es[..|es| - 1]), es[|es| - 1]);
    }
  }

  // ---------------------------------------------------------------- what the log of a run tells

  predicate RemovesAt(es: seq<Event>, k: nat, path: Path) {
    k < |es| && es[k].Remove? && es[k].path == path
  }

  /** Somebody's Clean unlinked the path strictly between two points of the run. */
  ghost predicate Unlinked(es: seq<Event>, from: nat, to: nat, path: Path) {
    exists k :: from < k < to && RemovesAt(es, k, path)
  }

  ghost predicate FlockedBefore(es: seq<Event>, end: nat, p: Pid) {
    exists j :: 0 <= j < end <= |es| && es[j] == Flock(p)
  }

  ghost predicate OpenLogged(es: seq<Event>, s: State, p: Pid)
    requires p in s.procs
  {
    var proc := s.procs[p];
    && proc.openedAt < |es| && es[proc.openedAt] == Open(p, proc.path, proc.fd)
    && (proc.owner ==> FlockedBefore(es, |es|, p))
    && (!Unlinked(es, proc.openedAt, |es|, proc.path) ==> proc.path in s.dir && s.dir[proc.path] == proc.fd)
  }

  ghost predicate PairLogged(es: seq<Event>, s: State, p: Pid, q: Pid)
    requires p in s.procs && q in s.procs
  {
    s.procs[p].path == s.procs[q].path && s.procs[p].openedAt < s.procs[q].openedAt ==>
      s.procs[p].fd == s.procs[q].fd || Unlinked(es, s.procs[p].openedAt, s.procs[q].openedAt, s.procs[p].path)
  }

  /** Only owners unlock, close or remove, and whoever removed a path has its lock file closed for good. */
  ghost predicate EventLogged(es: seq<Event>, s: State, k: nat)
    requires k < |es|
  {
    && (es[k].Unlock? || es[k].Close? || es[k].Remove? ==> FlockedBefore(es, k, es[k].p))
    && (es[k].Remove? ==> es[k].p in s.procs && !s.procs[es[k].p].open && s.procs[es[k].p].openedAt < k)
  }

  ghost predicate LogOk(es: seq<Event>, s: State) {
    && s.clock == |es|
    && (forall p :: p in s.procs ==> OpenLogged(es, s, p))
    && (forall p, q :: p in s.procs && q in s.procs ==> PairLogged(es, s, p, q))
    && (forall k :: 0 <= k < |es| ==> EventLogged(es, s, k))
  }

  lemma UnlinkedGrows(es: seq<Event>, e: Event, from: nat, to: nat, path: Path)
    requires to <= |es|
    ensures Unlinked(es, from, to, path) <==> Unlinked(es + [e], from, to, path)
    ensures Unlinked(es + [e], from, |es| + 1, path) <==>
            Unlinked(es, from, |es|, path) || (from < |es| && e.Remove? && e.path == path)
  {
    assert forall k: nat :: k < |es| ==> (RemovesAt(es, k, path) <==> RemovesAt(es + [e], k, path));
    assert RemovesAt(es + [e], |es|, path) <==> e.Remove? && e.path == path;
  }

  lemma FlockedGrows(es: seq<Event>, e: Event, end: nat, p: Pid)
    ensures FlockedBefore(es, end, p) ==> FlockedBefore(es + [e], end, p)
    ensures FlockedBefore(es, |es|, p) || e == Flock(p) ==> FlockedBefore(es + [e], |es| + 1, p)
  {
    assert forall k: nat :: k < |es| ==> es[k] == (es + [e])[k];
    assert (es + [e])[|es|] == e;
  }

  /** What one event does to a process that was there before, and to the directory. */
  lemma StepFrame(s: State, e: Event, p: Pid)
    requires Enabled(s, e) && p in s.procs
    ensures p in Apply(s, e).procs
    ensures var a, b := s.procs[p], Apply(s, e).procs[p];
            b.path == a.path && b.fd == a.fd && b.openedAt == a.openedAt
            && (b.owner ==> a.owner || e == Flock(p)) && (b.open ==> a.open)
    ensures forall path :: path in s.dir && !(e.Remove? && e.path == path) ==>
              path in Apply(s, e).dir && Apply(s, e).dir[path] == s.dir[path]
    ensures e.Remove? ==> e.p in s.procs && s.procs[e.p].path == e.path && s.procs[e.p].pc == Closing
  {}

  lemma NewProc(s: State, e: Event, p: Pid)
    requires Enabled(s, e) && p !in s.procs && p in Apply(s, e).procs
    ensures e.Open? && e.p == p
    ensures Apply(s, e).procs[p] == Proc(e.path, e.ino, s.clock, true, false, false, false, 0, Idle)
    ensures e.path in Apply(s, e).dir && Apply(s, e).dir[e.path] == e.ino
    ensures e.path in s.dir ==> s.dir[e.path] == e.ino
  {}

  lemma OpenLoggedStep(es: seq<Event>, s: State, e: Event, p: Pid)
    requires LogOk(es, s) && Enabled(s, e) && p in Apply(s, e).procs
    ensures OpenLogged(es + [e], Apply(s, e), p)
  {
    if p in s.procs {
      StepFrame(s, e, p);
      assert OpenLogged(es, s, p);
      UnlinkedGrows(es, e, s.procs[p].openedAt, |es|, s.procs[p].path);
      FlockedGrows(es, e, |es|, p);
    } else {
      NewProc(s, e, p);
    }
  }

  lemma PairLoggedStep(es: seq<Event>, s: State, e: Event, p: Pid, q: Pid)
    requires Inv(s) && LogOk(es, s) && Enabled(s, e)
    requires p in Apply(s, e).procs && q in Apply(s, e).procs
    ensures PairLogged(es + [e], Apply(s, e), p, q)
  {
    if p !in s.procs {
      NewProc(s, e, p);
      if q in s.procs { StepFrame(s, e, q); assert ProcOk(s, q); } else { NewProc(s, e, q); }
    } else {
      StepFrame(s, e, p);
      assert OpenLogged(es, s, p) && ProcOk(s, p);
      if q in s.procs {
        StepFrame(s, e, q);
        assert PairLogged(es, s, p, q) && ProcOk(s, q);
        UnlinkedGrows(es, e, s.procs[p].openedAt, s.procs[q].openedAt, s.procs[p].path);
      } else {
        NewProc(s, e, q);
        UnlinkedGrows(es, e, s.procs[p].openedAt, |es|, s.procs[p].path);
      }
    }
  }

  lemma EventLoggedStep(es: seq<Event>, s: State, e: Event, k: nat)
    requires Inv(s) && LogOk(es, s) && Enabled(s, e) && k <= |es|
    ensures EventLogged(es + [e], Apply(s, e), k)
  {
    var who := (es + [e])[k].p;
    FlockedGrows(es, e, k, who);
    if k < |es| {
      assert (es + [e])[k] == es[k] && EventLogged(es, s, k);
    }
    if who in s.procs {
      StepFrame(s, e, who);
      assert OpenLogged(es, s, who) && ProcOk(s, who);
    }
  }

  lemma {:induction false} RunKeepsLog(s: State, es: seq<Event>)
    requires Init(s) && Run(s, es)
    ensures Inv(After(s, es)) && LogOk(es, After(s, es))
    decreases |es|
  {
    RunKeepsInv(s, es);
    if es != [] {
      var before, e := es[..|es| - 1], es[|es| - 1];
      RunKeepsLog(s, before);
      var t := After(s, before);
      assert es == before + [e];
      forall p | p in Apply(t, e).procs ensures OpenLogged(es, Apply(t, e), p) { OpenLoggedStep(before, t, e, p); }
      forall p, q | p in Apply(t, e).procs && q in Apply(t, e).procs
        ensures PairLogged(es, Apply(t, e), p, q)
      {
        PairLoggedStep(before, t, e, p, q);
      }
      forall k | 0 <= k < |es| ensures EventLogged(es, Apply(t, e), k) { EventLoggedStep(before, t, e, k); }
    }
  }

  // ---------------------------------------------------------------- main results

  /** The process is between a successful Lock and its Unlock. */
  predicate Holds(s: State, p: Pid) { p in s.procs && s.procs[p].held }

  /** Whatever the interleaving, at most one process holds an inode, and it is the kernel's holder. */
  lemma OneHolderPerInode(s: State, es: seq<Event>, p: Pid, q: Pid)
    requires Init(s) && Run(s, es)
    requires Holds(After(s, es), p) && Holds(After(s, es), q)
    requires After(s, es).procs[p].fd == After(s, es).procs[q].fd
    ensures p == q && p in After(s, es).alive && After(s, es).procs[p].fd in After(s, es).inodes
    ensures After(s, es).inodes[After(s, es).procs[p].fd].holder == Some(p)
  {
    RunKeepsInv(s, es);
    assert ProcOk(After(s, es), p) && ProcOk(After(s, es), q);
  }

  /** Event `k` unlinks p's path between p's open and q's, by neither of them, but by some earlier locker. */
  ghost predicate ThirdPartyUnlink(es: seq<Event>, t: State, k: nat, p: Pid, q: Pid)
    requires p in t.procs && q in t.procs
  {
    t.procs[p].openedAt < k < t.procs[q].openedAt && RemovesAt(es, k, t.procs[p].path)
    && es[k].p in t.procs && es[k].p != p && es[k].p != q && FlockedBefore(es, k, es[k].p)
  }

  lemma HoldersOfOnePath(es: seq<Event>, t: State, p: Pid, q: Pid)
    requires Inv(t) && LogOk(es, t) && Holds(t, p) && Holds(t, q) && p != q
    requires t.procs[p].path == t.procs[q].path && t.procs[p].openedAt <= t.procs[q].openedAt
    ensures t.procs[p].fd != t.procs[q].fd
    ensures exists k :: ThirdPartyUnlink(es, t, k, p, q)
  {
    assert ProcOk(t, p) && ProcOk(t, q);
    assert OpenLogged(es, t, p) && OpenLogged(es, t, q) && PairLogged(es, t, p, q);
    var k :| t.procs[p].openedAt < k < t.procs[q].openedAt && RemovesAt(es, k, t.procs[p].path);
    assert EventLogged(es, t, k);
    assert ThirdPartyUnlink(es, t, k, p, q);
  }

  /**
   Two processes hold the same path only on two inodes, and only if a third process, which had flocked
   its own lock file before, unlinked the path between their two opens.
   */
  lemma TwoHoldersNeedAnUnlink(s: State, es: seq<Event>, p: Pid, q: Pid)
    requires Init(s) && Run(s, es)
    requires Holds(After(s, es), p) && Holds(After(s, es), q) && p != q
    requires After(s, es).procs[p].path == After(s, es).procs[q].path
    requires After(s, es).procs[p].openedAt <= After(s, es).procs[q].openedAt
    ensures After(s, es).procs[p].fd != After(s, es).procs[q].fd
    ensures exists k :: ThirdPartyUnlink(es, After(s, es), k, p, q)
  {
    RunKeepsLog(s, es);
    HoldersOfOnePath(es, After(s, es), p, q);
  }

  /** A run in which nobody unlinks the path has full mutual exclusion on it. */
  lemma NoUnlinkMeansExclusion(s: State, es: seq<Event>, path: Path, p: Pid, q: Pid)
    requires Init(s) && Run(s, es)
    requires forall k: nat :: !RemovesAt(es, k, path)
    requires Holds(After(s, es), p) && Holds(After(s, es), q)
    requires After(s, es).procs[p].path == path && After(s, es).procs[q].path == path
    ensures p == q
  {
    if p != q {
      if After(s, es).procs[p].openedAt <= After(s, es).procs[q].openedAt {
        TwoHoldersNeedAnUnlink(s, es, p, q);
      } else {
        TwoHoldersNeedAnUnlink(s, es, q, p);
      }
    }
  }

  /** It takes a third process to break the exclusion: two can never both hold one path. */
  lemma TwoProcessesExclude(s: State, es: seq<Event>, p: Pid, q: Pid)
    requires Init(s) && Run(s, es) && After(s, es).procs.Keys <= {p, q}
    requires Holds(After(s, es), p) && Holds(After(s, es), q)
    requires After(s, es).procs[p].path == After(s, es).procs[q].path
    ensures p == q
  {
    hide Run, After;
    RunKeepsLog(s, es);
    var t := After(s, es);
    if p != q {
      var (a, b) := if t.procs[p].openedAt <= t.procs[q].openedAt then (p, q) else (q, p);
      HoldersOfOnePath(es, t, a, b);
    }
  }

  /** Whoever unlocks, closes or unlinks flocked its descriptor before: a failed Lock never leads there. */
  lemma OnlyLockersCleanUp(s: State, es: seq<Event>, k: nat)
    requires Init(s) && Run(s, es) && k < |es|
    requires es[k].Unlock? || es[k].Close? || es[k].Remove?
    ensures FlockedBefore(es, k, es[k].p)
  {
    RunKeepsLog(s, es);
    assert EventLogged(es, After(s, es), k);
  }

  lemma {:induction false} WhereRead(s: State, es: seq<Event>, p: Pid) returns (i: nat)
    requires Run(s, es) && Init(s) && p in After(s, es).procs && After(s, es).procs[p].pc.ReadDone?
    ensures i < |es| && es[i] == ReadPid(p, After(s, es).procs[p].pc.pid) && forall k :: i < k < |es| ==> es[k].p != p
    decreases |es|
  {
    var before, e := es[..|es| - 1], es[|es| - 1];
    i := |es| - 1;
    if e.p != p {
      Bystander(After(s, before), e, p);
      i := WhereRead(s, before, p);
    }
  }

  lemma {:induction false} WherePassed(s: State, es: seq<Event>, p: Pid) returns (j: nat)
    requires Run(s, es) && Init(s) && p in After(s, es).procs && After(s, es).procs[p].pc == Probed
    ensures j < |es| && es[j] == Pass(p) && forall k :: j < k < |es| ==> es[k].p != p
    decreases |es|
  {
    var before, e := es[..|es| - 1], es[|es| - 1];
    j := |es| - 1;
    if e.p != p {
      Bystander(After(s, before), e, p);
      j := WherePassed(s, before, p);
    }
  }

  /**
   Whoever flocks, or tries to in vain, has read the recorded PID before and then probed it, with nothing of its own
   in between; at the moment of the probe that PID belonged to no other live process.
   */
  lemma FlocksAfterAProbe(s: State, es: seq<Event>, k: nat) returns (i: nat, j: nat)
    requires Init(s) && Run(s, es) && k < |es| && (es[k].Flock? || es[k].FlockFails?)
    ensures i < j < k && es[i].ReadPid? && es[i].p == es[k].p && es[j] == Pass(es[k].p)
    ensures forall m :: i < m < k && m != j ==> es[m].p != es[k].p
    ensures Run(s, es[..j]) && !Answers(After(s, es[..j]), es[i].result, es[k].p)
  {
    hide Run, After;
    var p := es[k].p;
    RunPrefix(s, es, k);
    j := WherePassed(s, es[..k], p);
    RunPrefix(s, es, j);
    i := WhereRead(s, es[..j], p);
  }

  /** A refusal, on the other hand, is on account of another process that is alive at that moment. */
  lemma RefusesTheLiving(s: State, es: seq<Event>, k: nat) returns (i: nat)
    requires Init(s) && Run(s, es) && k < |es| && es[k].Refuse?
    ensures i < k && es[i] == ReadPid(es[k].p, es[k].other) && forall m :: i < m < k ==> es[m].p != es[k].p
    ensures Run(s, es[..k]) && Answers(After(s, es[..k]), es[k].other, es[k].p)
  {
    hide Run, After;
    RunPrefix(s, es, k);
    i := WhereRead(s, es[..k], es[k].p);
  }

  lemma NothingRun(s: State)
    ensures Run(s, []) && After(s, []) == s
  {}

  lemma Extend(s: State, es: seq<Event>, t: State, e: Event) returns (es': seq<Event>, t': State)
    requires Run(s, es) && t == After(s, es) && Enabled(t, e)
    ensures es' == es + [e] && Run(s, es') && t' == After(s, es') == Apply(t, e)
  {
    RunExtends(s, es, e);
    es', t' := es + [e], Apply(t, e);
  }

  /** The unlinking run: 1 and 2 open the lock file... */
  lemma BothOpened(path: Path) returns (s: State, es: seq<Event>, t: State)
    ensures Init(s) && Run(s, es) && After(s, es) == t && t.alive == {1, 2, 3} && t.dir == map[path := 0]
    ensures t.inodes == map[0 := Inode("", None)]
    ensures t.procs == map[1 := Proc(path, 0, 0, true, false, false, false, 0, Idle),
                           2 := Proc(path, 0, 1, true, false, false, false, 0, Idle)]
    ensures forall k :: 0 <= k < |es| && es[k].ReadPid? ==> es[k].result == -1
  {
    hide Run, After;
    s, es := State(map[], map[], map[], {1, 2, 3}, 0), [];
    NothingRun(s);
    es, t := Extend(s, es, s, Open(1, path, 0));
    es, t := Extend(s, es, t, Open(2, path, 0));
  }

  /** ... find it empty and are about to flock it... */
  lemma BothProbed(path: Path) returns (s: State, es: seq<Event>, t: State)
    ensures Init(s) && Run(s, es) && After(s, es) == t && t.alive == {1, 2, 3} && t.dir == map[path := 0]
    ensures t.inodes == map[0 := Inode("", None)]
    ensures t.procs == map[1 := Proc(path, 0, 0, true, false, false, false, 0, Probed),
                           2 := Proc(path, 0, 1, true, false, false, false, 0, Probed)]
    ensures forall k :: 0 <= k < |es| && es[k].ReadPid? ==> es[k].result == -1
  {
    hide Run, After;
    s, es, t := BothOpened(path);
    es, t := Extend(s, es, t, ReadPid(1, -1));
    es, t := Extend(s, es, t, ReadPid(2, -1));
    es, t := Extend(s, es, t, Pass(1));
    es, t := Extend(s, es, t, Pass(2));
  }

  /** ... 1 locks, records itself and unlocks, while 2 is still about to flock... */
  lemma FirstReleased(path: Path) returns (s: State, es: seq<Event>, t: State)
    ensures Init(s) && Run(s, es) && After(s, es) == t && t.alive == {1, 2, 3} && t.dir == map[path := 0]
    ensures t.inodes.Keys == {0} && t.inodes[0].holder == None && t.procs.Keys == {1, 2}
    ensures At(t, 1, Idle) && t.procs[1].owner && t.procs[1].path == path && t.procs[1].fd == 0
    ensures t.procs[2] == Proc(path, 0, 1, true, false, false, false, 0, Probed)
    ensures forall k :: 0 <= k < |es| && es[k].ReadPid? ==> es[k].result == -1
  {
    hide Run, After;
    s, es, t := BothProbed(path);
    es, t := Extend(s, es, t, Flock(1));
    es, t := Extend(s, es, t, Write(1, |Digits(1)|));
    es, t := Extend(s, es, t, Unlock(1));
  }

  /** ... 2 flocks the same inode and 1 goes on to unlink the path under it. */
  lemma UnlinkedUnderHolder(path: Path) returns (s: State, es: seq<Event>, t: State)
    ensures Init(s) && Run(s, es) && After(s, es) == t && t.alive == {1, 2, 3} && t.dir == map[]
    ensures t.inodes.Keys == {0} && t.procs.Keys == {1, 2}
    ensures Holds(t, 2) && t.procs[2].path == path && t.procs[2].fd == 0
    ensures forall k :: 0 <= k < |es| && es[k].ReadPid? ==> es[k].result == -1
  {
    hide Run, After;
    s, es, t := FirstReleased(path);
    es, t := Extend(s, es, t, Flock(2));
    es, t := Extend(s, es, t, Close(1));
    es, t := Extend(s, es, t, Remove(1, path));
    assert t.dir == map[];
  }

  /**
   The exclusion is not unconditional: three processes reach two holders of one path, although every
   PID probe in the run is honest (each of them reads an empty file, so there is nothing to probe).
   */
  lemma UnlinkBreaksExclusion(path: Path) returns (s: State, es: seq<Event>)
    ensures Init(s) && Run(s, es)
    ensures forall k :: 0 <= k < |es| && es[k].ReadPid? ==> es[k].result == -1
    ensures Holds(After(s, es), 2) && Holds(After(s, es), 3)
    ensures After(s, es).procs[2].path == path && After(s, es).procs[3].path == path
  {
    hide Run, After;
    var t;
    s, es, t := UnlinkedUnderHolder(path);
    es, t := Extend(s, es, t, Open(3, path, 1));
    es, t := Extend(s, es, t, ReadPid(3, -1));
    es, t := Extend(s, es, t, Pass(3));
    es, t := Extend(s, es, t, Flock(3));
  }

  /**
   The recorded PID reads back exactly when the old content does not stick out of it with a digit: for a
   new file always, over old digits exactly when there are not more of them.
   */
  lemma RecordReadsBack(before: string, p: Pid)
    requires 0 < p <= MAX_INT64
    ensures Overlay(before, 0, Digits(p)) == Digits(p) + (if |Digits(p)| <= |before| then before[|Digits(p)|..] else "")
    ensures Parse(Overlay(before, 0, Digits(p))) == p <==> |before| <= |Digits(p)| || !IsDigit(before[|Digits(p)|])
    ensures AllDigits(before) ==> (Parse(Overlay(before, 0, Digits(p))) == p <==> |before| <= |Digits(p)|)
  {
    var rest := if |Digits(p)| <= |before| then before[|Digits(p)|..] else "";
    assert Overlay(before, 0, Digits(p)) == Digits(p) + rest;
    ScanAfterDigits(p, rest);
  }

  /** While a holder's PID is recorded, its inode reads as that PID, unless stale digits follow it. */
  lemma HolderIsReadBack(s: State, es: seq<Event>, p: Pid)
    requires Init(s) && Run(s, es) && 0 < p <= MAX_INT64
    requires Holds(After(s, es), p) && After(s, es).procs[p].recorded
    ensures After(s, es).procs[p].fd in After(s, es).inodes
    ensures var bytes := After(s, es).inodes[After(s, es).procs[p].fd].bytes;
            Digits(p) <= bytes && (Parse(bytes) == p <==> |bytes| == |Digits(p)| || !IsDigit(bytes[|Digits(p)|]))
  {
    hide Run, After, HoldersOk;
    RunKeepsInv(s, es);
    assert ProcOk(After(s, es), p);
    var bytes := After(s, es).inodes[After(s, es).procs[p].fd].bytes;
    assert bytes == Digits(p) + bytes[|Digits(p)|..];
    ScanAfterDigits(p, bytes[|Digits(p)|..]);
  }

  /**
   So does everybody who reads by path as long as nobody has unlinked the path since the holder opened it; the reader
   then gets the holder's PID exactly when no stale digit follows.
   */
  lemma ReadersSeeTheHolder(s: State, es: seq<Event>, p: Pid, q: Pid, result: int)
    requires Init(s) && Run(s, es) && 0 < p <= MAX_INT64
    requires Holds(After(s, es), p) && After(s, es).procs[p].recorded
    requires Enabled(After(s, es), ReadPid(q, result)) && After(s, es).procs[q].path == After(s, es).procs[p].path
    requires !Unlinked(es, After(s, es).procs[p].openedAt, |es|, After(s, es).procs[p].path)
    ensures After(s, es).procs[p].fd in After(s, es).inodes
    ensures var bytes := After(s, es).inodes[After(s, es).procs[p].fd].bytes;
            Digits(p) <= bytes && (result == p <==> |bytes| == |Digits(p)| || !IsDigit(bytes[|Digits(p)|]))
  {
    hide Run, After, HoldersOk, PairLogged, EventLogged;
    HolderIsReadBack(s, es, p);
    RunKeepsLog(s, es);
    assert OpenLogged(es, After(s, es), p);
  }
}
