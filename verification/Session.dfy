/**
 One session's two threads: the operation, which ends in its deferred `Cleanup`, and the signal handler, which runs
 `Cleanup` as well and then exits. They share the mutex of the manager, the active PID, the lock file, and the
 overlay's record of mounts, which the operation updates without the mutex. Steps of the two interleave freely.
 */
module Sessions {
  import opened Wrappers

  datatype Thread = Main | Signal

  /**
   The mounts of an operation, numbered in the order it makes them: the image, the union, five virtual file systems
   of which only the first sets a flag, the package cache, which nobody records, and the extra mounts.
   */
  type Place = nat
  const IMAGE: Place := 0
  const UNION: Place := 1
  const DEV: Place := 2
  const PTS: Place := 3
  const PROC: Place := 4
  const SYS: Place := 5
  const SHM: Place := 6
  const CACHE: Place := 7

  predicate IsVirtual(p: Place) { DEV <= p <= SHM }

  predicate IsExtra(p: Place) { p > CACHE }

  /** The operation records the mount in a step of its own. */
  predicate IsRecorded(p: Place) { p <= DEV || IsExtra(p) }

  /** The virtual mounts in the order they are unmounted. */
  function Point(i: nat): Place {
    if i == 0 then PTS else if i == 1 then SHM else if i == 2 then DEV else if i == 3 then PROC else SYS
  }

  function PointIndex(p: Place): nat {
    if p == PTS then 0 else if p == SHM then 1 else if p == DEV then 2 else if p == PROC then 3 else 4
  }

  /** Where a `Cleanup` stands: before the mutex, or about to take one of its steps. */
  datatype Stage =
    | Await
    | Packages               // the package cache is unmounted
    | Kill
    | Extras                 // the extra mounts recorded by now are unmounted
    | Forget                 // the record of extra mounts is emptied
    | Flag                   // is there anything virtual?
    | Virtual(i: nat)        // one virtual mount point after the other, and then the flag is cleared
    | Image
    | Root                   // the union
    | Unlock                 // the lock file is unlocked and removed
    | Release

  datatype MainPc =
    | Locking                // up to the lock file
    | Working
    | Recording              // the last mount came up and is not yet recorded
    | Asking(pid: nat)       // SetActivePID wants the mutex
    | Setting(pid: nat)      // SetActivePID has it
    | Cleaning(at: Stage)
    | Finished

  datatype SignalPc =
    | Listening
    | Interrupted            // wants the mutex to set the cancelled flag
    | Cancelling
    | Checking               // did the operation start?
    | Skipped                // it did not, so `Cleanup` does nothing
    | Sweeping(at: Stage)
    | Swept

  /**
   `made` mounts were made so far, `live` are those still mounted, the mount manager's last resort and the tmpfs root
   left aside. `img`, `union`, `vfs` and `extras` are the overlay's record. `failed` tells of an unmount that failed
   in the operation's own `Cleanup` where that ends it early, for whatever reason; `missed` of an unmount that failed
   although the kernel had no reason to refuse it.
   */
  datatype State = State(holder: Option<Thread>, main: MainPc, signal: SignalPc, didStart: bool, cancelled: bool,
                         activePID: nat, made: nat, live: set<Place>, img: bool, union: bool, vfs: bool,
                         extras: set<Place>, locked: bool, exited: bool, failed: bool, missed: bool)

  datatype Event =
    | TakeLockFile(ok: bool)
    | Mount
    | Skip                   // an operation without a package manager mounts no cache
    | Record
    | Ask(pid: nat)
    | Assign                 // sets the PID, releases the mutex
    | Leave                  // returns or panics into the deferred Cleanup
    | Interrupt
    | Cancel                 // SetCancelled, releases the mutex
    | Check                  // whether the operation started, without the mutex
    | Acquire(t: Thread)
    | Step(t: Thread, off: set<Place>)   // what came off
    | Exit

  predicate Init(s: State) {
    s == State(None, Locking, Listening, false, false, 0, 0, {}, false, false, false, {}, false, false, false, false)
  }

  predicate AtWork(s: State) { s.main.Working? || s.main.Recording? || s.main.Asking? || s.main.Setting? }

  /** The step a thread's `Cleanup` is at, if it is in one. */
  function StageOf(s: State, t: Thread): Option<Stage> {
    if t.Main? then (if s.main.Cleaning? then Some(s.main.at) else None)
    else if s.signal.Sweeping? then Some(s.signal.at) else None
  }

  /** In the part of `Cleanup` that runs under the mutex. */
  predicate InBody(s: State, t: Thread) { StageOf(s, t).Some? && StageOf(s, t).value != Await }

  /** Waiting for the mutex. */
  predicate Waits(s: State, t: Thread) {
    StageOf(s, t) == Some(Await) || if t.Main? then s.main.Asking? else s.signal.Interrupted?
  }

  /** What a step of `Cleanup` tries to unmount and finds mounted. */
  function Targets(s: State, at: Stage): set<Place> {
    match at
    case Packages => s.live * {CACHE}
    case Extras => s.live * s.extras
    case Virtual(i) => if i < 5 then s.live * {Point(i)} else {}
    case Image => if s.img then s.live * {IMAGE} else {}
    case Root => if s.union then s.live * {UNION} else {}
    case _ => {}
  }

  /** Something is mounted below: everything but the image lies below the union, two virtual mounts below `/dev`. */
  predicate Busy(s: State, p: Place) {
    (p == UNION && s.live - {IMAGE, UNION} != {}) || (p == DEV && (PTS in s.live || SHM in s.live))
  }

  /** What the kernel lets go. */
  function Granted(s: State, at: Stage): set<Place> { set p | p in Targets(s, at) && !Busy(s, p) }

  predicate Enabled(s: State, e: Event) {
    && !s.exited
    && match e
       case TakeLockFile(_) => s.main.Locking?
       case Mount => s.main.Working?
       case Skip => s.main.Working? && s.made == CACHE
       case Record => s.main.Recording? && s.made > 0
       case Ask(_) => s.main.Working?
       case Assign => s.main.Setting?
       case Leave => s.main.Working?
       case Interrupt => s.signal.Listening?
       case Cancel => s.signal.Cancelling?
       case Check => s.signal.Checking?
       case Acquire(t) => s.holder == None && Waits(s, t)
       case Step(t, off) => InBody(s, t) && off <= Granted(s, StageOf(s, t).value)
       case Exit => s.signal.Swept? || s.signal.Skipped?
  }

  /** The next step; failing to unmount the image ends the overlay's part. */
  function Next(s: State, at: Stage, ok: bool): Stage {
    match at
    case Await => Packages
    case Packages => Kill
    case Kill => Extras
    case Extras => Forget
    case Forget => Flag
    case Flag => if s.vfs then Virtual(0) else Image
    case Virtual(i) => if i < 5 then Virtual(i + 1) else Image
    case Image => if ok then Root else Unlock
    case Root => Unlock
    case Unlock => Release
    case Release => Release
  }

  function Stepped(s: State, t: Thread, off: set<Place>): State
    requires InBody(s, t)
  {
    var at := StageOf(s, t).value;
    var ok := off == Targets(s, at);
    var after := s.(activePID := if at.Kill? then 0 else s.activePID,
                    live := s.live - off,
                    extras := if at.Forget? then {} else s.extras,
                    vfs := s.vfs && at != Virtual(5),
                    img := s.img && !(at.Image? && ok),
                    union := s.union && !(at.Root? && ok),
                    locked := s.locked && !at.Unlock?,
                    holder := if at.Release? then None else s.holder,
                    failed := s.failed || (t.Main? && !ok && (at.Image? || at.Root?)),
                    missed := s.missed || off != Granted(s, at));
    if t.Main? then after.(main := if at.Release? then Finished else Cleaning(Next(s, at, ok)))
    else after.(signal := if at.Release? then Swept else Sweeping(Next(s, at, ok)))
  }

  /** Who wants the mutex gets it. */
  function Acquired(s: State, t: Thread): State
    requires Waits(s, t)
  {
    var after := s.(holder := Some(t));
    if t.Main? then after.(main := if s.main.Asking? then Setting(s.main.pid) else Cleaning(Packages))
    else after.(signal := if s.signal.Interrupted? then Cancelling else Sweeping(Packages))
  }

  function Recorded(s: State): State
    requires s.made > 0
  {
    var p := s.made - 1;
    s.(main := Working, img := s.img || p == IMAGE, union := s.union || p == UNION, vfs := s.vfs || p == DEV,
       extras := if IsExtra(p) then s.extras + {p} else s.extras)
  }

  function Apply(s: State, e: Event): State
    requires Enabled(s, e)
  {
    match e
    case TakeLockFile(ok) => s.(main := if ok then Working else Finished, didStart := ok, locked := ok)
    case Mount =>
      s.(made := s.made + 1, live := s.live + {s.made}, main := if IsRecorded(s.made) then Recording else Working)
    case Skip => s.(made := s.made + 1)
    case Record => Recorded(s)
    case Ask(pid) => s.(main := Asking(pid))
    case Assign => s.(main := Working, activePID := s.main.pid, holder := None)
    case Leave => s.(main := Cleaning(Await))
    case Interrupt => s.(signal := Interrupted)
    case Cancel => s.(signal := Checking, cancelled := true, holder := None)
    case Check => s.(signal := if s.didStart then Sweeping(Await) else Skipped)
    case Acquire(t) => Acquired(s, t)
    case Step(t, off) => Stepped(s, t, off)
    case Exit => s.(exited := true)
  }

  predicate Run(s: State, es: seq<Event>)
    decreases |es|, 0
  {
    es == [] || (Run(s, es[..|es| - 1]) && Enabled(After(s, es[..|es| - 1]), es[|es| - 1]))
  }

  function After(s: State, es: seq<Event>): State
    requires Run(s, es)
    decreases |es|, 1
  {
    if es == [] then s else Apply(After(s, es[..|es| - 1]), es[|es| - 1])
  }

  // ---------------------------------------------------------------- mutex and progress

  function Order(at: Stage): nat {
    match at
    case Await => 0 case Packages => 1 case Kill => 2 case Extras => 3 case Forget => 4 case Flag => 5
    case Virtual(i) => 6 + i
    case Image => 12 case Root => 13 case Unlock => 14 case Release => 15
  }

  predicate StageOk(at: Stage) { at.Virtual? ==> at.i <= 5 }

  /** The mutex is held by exactly the thread that is past acquiring it. */
  predicate MutexOk(s: State) {
    && (s.holder == Some(Main) <==> s.main.Setting? || InBody(s, Main))
    && (s.holder == Some(Signal) <==> s.signal.Cancelling? || InBody(s, Signal))
    && (s.main.Cleaning? ==> StageOk(s.main.at)) && (s.signal.Sweeping? ==> StageOk(s.signal.at))
  }

  /** How far the operation's own `Cleanup` has got. */
  function MainOrder(s: State): nat {
    match s.main
    case Cleaning(at) => Order(at)
    case Finished => 16
    case _ => 0
  }

  /** How far the handler has got; one that skips `Cleanup` is past everything. */
  function SignalOrder(s: State): nat {
    match s.signal
    case Sweeping(at) => Order(at)
    case Skipped => 16
    case Swept => 16
    case _ => 0
  }

  /** What the operation's own `Cleanup` has done by the time it is past `n` steps. */
  predicate CleanBy(s: State, n: nat) {
    && (n > 1 && !s.missed ==> CACHE !in s.live)
    && (n > 2 ==> s.activePID == 0)
    && (n > 4 ==> s.extras == {})
    && (n > 11 ==> !s.vfs)
    && (n > 12 && !(s.failed && s.missed) ==> !s.img)
    && (n > 13 && !s.failed ==> !s.union)
    && (n > 14 ==> !s.locked)
  }

  predicate ProgressOk(s: State) {
    && (s.main.Cleaning? ==> s.didStart && CleanBy(s, Order(s.main.at)))
    && (s.main.Finished? ==> CleanBy(s, 16))
    && (!s.didStart ==>
          && s.made == 0 && s.live == {} && s.extras == {} && !s.img && !s.union && !s.vfs && !s.locked
          && s.activePID == 0 && (s.main.Locking? || s.main.Finished?) && !s.signal.Sweeping? && !s.signal.Swept?)
    && (s.main.Locking? ==> !s.didStart)
    && (s.main.Recording? ==> s.made > 0 && IsRecorded(s.made - 1))
    && (MainOrder(s) > 13 && s.union && !s.missed ==> Busy(s, UNION))
    && (s.exited ==> s.signal.Swept? || s.signal.Skipped?)
    && (AtWork(s) ==> (s.locked <==> SignalOrder(s) <= 14 || s.signal.Skipped?))
  }

  lemma MutexStep(s: State, e: Event)
    requires MutexOk(s) && Enabled(s, e)
    ensures MutexOk(Apply(s, e))
  {
    hide MutexOk, Targets, Granted, Stepped, Acquired, Recorded;
    match e
    case Step(t, off) => BodyKeepsMutex(s, t, off);
    case Acquire(t) => AcquireKeepsMutex(s, t);
    case _ => WorkKeepsMutex(s, e);
  }

  lemma WorkKeepsMutex(s: State, e: Event)
    requires MutexOk(s) && Enabled(s, e) && !e.Step? && !e.Acquire?
    ensures MutexOk(Apply(s, e))
  {
    hide Targets, Granted, Stepped, Acquired;
  }

  lemma AcquireKeepsMutex(s: State, t: Thread)
    requires MutexOk(s) && Enabled(s, Acquire(t))
    ensures MutexOk(Acquired(s, t))
  {}

  lemma BodyKeepsMutex(s: State, t: Thread, off: set<Place>)
    requires MutexOk(s) && Enabled(s, Step(t, off))
    ensures MutexOk(Stepped(s, t, off))
  {
    hide Targets, Granted;
  }

  lemma ProgressStep(s: State, e: Event)
    requires Inv(s) && Enabled(s, e)
    ensures ProgressOk(Apply(s, e))
  {
    hide MutexOk, ProgressOk, RecordOk, Targets, Granted, Stepped, Acquired, Recorded;
    match e
    case Step(Main, off) => MainKeepsProgress(s, off);
    case Step(Signal, off) => SignalKeepsProgress(s, off);
    case Acquire(t) => AcquireKeepsProgress(s, t);
    case _ => WorkKeepsProgress(s, e);
  }

  lemma WorkKeepsProgress(s: State, e: Event)
    requires MutexOk(s) && ProgressOk(s) && Enabled(s, e) && !e.Step? && !e.Acquire?
    ensures ProgressOk(Apply(s, e))
  {
    hide Targets, Granted, Stepped, Acquired;
  }

  lemma AcquireKeepsProgress(s: State, t: Thread)
    requires MutexOk(s) && ProgressOk(s) && Enabled(s, Acquire(t))
    ensures ProgressOk(Acquired(s, t))
  {
    hide Targets, Granted;
    if t.Main? {}
  }

  lemma MainKeepsProgress(s: State, off: set<Place>)
    requires MutexOk(s) && ProgressOk(s) && Enabled(s, Step(Main, off))
    ensures ProgressOk(Stepped(s, Main, off))
  {}

  lemma SignalKeepsProgress(s: State, off: set<Place>)
    requires Inv(s) && Enabled(s, Step(Signal, off))
    ensures ProgressOk(Stepped(s, Signal, off))
  {}

  // ---------------------------------------------------------------- the record and the mounts

  /** A `Cleanup` under way has already been at this virtual mount point. */
  predicate Tried(s: State, p: Place) {
    || (s.main.Cleaning? && s.main.at.Virtual? && PointIndex(p) < s.main.at.i)
    || (s.signal.Sweeping? && s.signal.at.Virtual? && PointIndex(p) < s.signal.at.i)
  }

  /** A `Cleanup` has unmounted the extra mounts it saw, and is about to empty their record. */
  predicate Forgetting(s: State) { StageOf(s, Main) == Some(Forget) || StageOf(s, Signal) == Some(Forget) }

  predicate InFlight(s: State, p: Place) { s.main.Recording? && p == s.made - 1 }

  /** Some `Cleanup` may still come to this mount, or it is about to be recorded. */
  predicate Accounted(s: State, p: Place) {
    || InFlight(s, p)
    || (p == IMAGE && s.img) || (p == UNION && s.union)
    || (IsVirtual(p) && p < s.made && s.vfs && !Tried(s, p))
    || (p == CACHE && p in s.live)
    || (p in s.extras && !Forgetting(s))
  }

  /** The mount that a step is about. */
  function Subject(s: State, e: Event): Place {
    if e.Record? && s.made > 0 then s.made - 1
    else if e.Step? then (if StageOf(s, e.t) == Some(Root) then UNION else DEV)
    else s.made
  }

  /**
   A mount is lost for good: a virtual one that the operation makes when the flag is already cleared again or the
   handler has just been there, an extra one that it records between the handler's unmounting and its forgetting, and
   `/dev` when it is refused for a lost virtual mount below it.
   */
  predicate Loses(s: State, e: Event) {
    || (e.Mount? && PTS <= s.made <= SHM && (!s.vfs || Tried(s, s.made)))
    || (e.Record? && IsExtra(Subject(s, e)) && Forgetting(s))
    || (e.Step? && StageOf(s, e.t) == Some(Virtual(2)) && DEV in s.live && Busy(s, DEV))
  }

  /** Some step of the run loses a mount. */
  predicate Lost(s: State, es: seq<Event>)
    requires Run(s, es)
    decreases |es|
  {
    es != [] && (Lost(s, es[..|es| - 1]) || Loses(After(s, es[..|es| - 1]), es[|es| - 1]))
  }

  /** The mounts that are recorded, or need no record, by now. */
  function Settled(s: State): nat { if s.main.Recording? && s.made > 0 then s.made - 1 else s.made }

  predicate RecordOk(s: State) {
    && (s.img ==> IMAGE < Settled(s)) && (s.union ==> UNION < Settled(s)) && (s.vfs ==> DEV < Settled(s))
    && (forall p :: p in s.extras ==> IsExtra(p) && p < Settled(s))
    && (s.main.Cleaning? && s.main.at.Virtual? ==> s.vfs) && (s.signal.Sweeping? && s.signal.at.Virtual? ==> s.vfs)
  }

  /** What can be in the set of lost mounts. */
  predicate LostOk(s: State, p: Place) {
    && p < Settled(s)
    && ((IsVirtual(p) && (!s.vfs || Tried(s, p))) || (IsExtra(p) && (p in s.extras ==> Forgetting(s))))
  }

  lemma RecordStep(s: State, e: Event)
    requires MutexOk(s) && ProgressOk(s) && RecordOk(s) && Enabled(s, e)
    ensures RecordOk(Apply(s, e))
  {
    hide MutexOk, ProgressOk, RecordOk, Targets, Granted, Stepped, Acquired, Recorded;
    match e
    case Step(t, off) => BodyKeepsRecord(s, t, off);
    case Acquire(t) => AcquireKeepsRecord(s, t);
    case _ => WorkKeepsRecord(s, e);
  }

  lemma WorkKeepsRecord(s: State, e: Event)
    requires MutexOk(s) && ProgressOk(s) && RecordOk(s) && Enabled(s, e) && !e.Step? && !e.Acquire?
    ensures RecordOk(Apply(s, e))
  {
    hide Targets, Granted, Stepped, Acquired, MutexOk;
  }

  lemma AcquireKeepsRecord(s: State, t: Thread)
    requires RecordOk(s) && Enabled(s, Acquire(t))
    ensures RecordOk(Acquired(s, t))
  {}

  lemma BodyKeepsRecord(s: State, t: Thread, off: set<Place>)
    requires MutexOk(s) && RecordOk(s) && Enabled(s, Step(t, off))
    ensures RecordOk(Stepped(s, t, off))
  {
    hide Targets, Granted;
  }

  predicate Inv(s: State) { MutexOk(s) && ProgressOk(s) && RecordOk(s) }

  /** While no granted unmount fails, exactly the accounted and the lost mounts are live. */
  predicate BooksAt(s: State, lost: bool, p: Place) {
    (p in s.live <==> lost || Accounted(s, p)) && (lost ==> LostOk(s, p))
  }

  predicate LosesAt(s: State, e: Event, p: Place) { Loses(s, e) && p == Subject(s, e) }

  lemma BooksStep(s: State, e: Event, lost: bool, p: Place)
    requires Inv(s) && Enabled(s, e) && !Apply(s, e).missed && BooksAt(s, lost, p)
    ensures BooksAt(Apply(s, e), lost || LosesAt(s, e, p), p)
  {
    hide Inv, BooksAt, Targets, Granted, Stepped, Acquired, Recorded;
    match e
    case Step(Main, off) => MainKeepsBooks(s, off, lost, p);
    case Step(Signal, off) => SignalKeepsBooks(s, off, lost, p);
    case Acquire(t) => AcquireKeepsBooks(s, t, lost, p);
    case Mount => MountKeepsBooks(s, lost, p);
    case Record => RecordKeepsBooks(s, lost, p);
    case _ => OthersKeepBooks(s, e, lost, p);
  }

  lemma OthersKeepBooks(s: State, e: Event, lost: bool, p: Place)
    requires Inv(s) && Enabled(s, e) && !Apply(s, e).missed && BooksAt(s, lost, p)
    requires !e.Step? && !e.Acquire? && !e.Mount? && !e.Record?
    ensures BooksAt(Apply(s, e), lost || LosesAt(s, e, p), p)
  {
    hide Targets, Granted, Stepped, Acquired, Recorded, MutexOk;
  }

  lemma MountKeepsBooks(s: State, lost: bool, p: Place)
    requires Inv(s) && Enabled(s, Mount) && BooksAt(s, lost, p)
    ensures BooksAt(Apply(s, Mount), lost || LosesAt(s, Mount, p), p)
  {
    hide Targets, Granted, Stepped, Acquired, Recorded, MutexOk;
  }

  lemma RecordKeepsBooks(s: State, lost: bool, p: Place)
    requires Inv(s) && Enabled(s, Record) && BooksAt(s, lost, p)
    ensures BooksAt(Recorded(s), lost || LosesAt(s, Record, p), p)
  {
    hide Targets, Granted, Stepped, Acquired;
  }

  lemma AcquireKeepsBooks(s: State, t: Thread, lost: bool, p: Place)
    requires Inv(s) && Enabled(s, Acquire(t)) && BooksAt(s, lost, p)
    ensures BooksAt(Acquired(s, t), lost || LosesAt(s, Acquire(t), p), p)
  {
    hide Targets, Granted, Stepped, Recorded;
  }

  lemma MainKeepsBooks(s: State, off: set<Place>, lost: bool, p: Place)
    requires Inv(s) && Enabled(s, Step(Main, off)) && !Stepped(s, Main, off).missed && BooksAt(s, lost, p)
    ensures BooksAt(Stepped(s, Main, off), lost || LosesAt(s, Step(Main, off), p), p)
  {
    hide ProgressOk, Acquired, Recorded;
  }

  lemma SignalKeepsBooks(s: State, off: set<Place>, lost: bool, p: Place)
    requires Inv(s) && Enabled(s, Step(Signal, off)) && !Stepped(s, Signal, off).missed && BooksAt(s, lost, p)
    ensures BooksAt(Stepped(s, Signal, off), lost || LosesAt(s, Step(Signal, off), p), p)
  {
    hide CleanBy, MainOrder, SignalOrder, Acquired, Recorded;
  }

  // ---------------------------------------------------------------- what the handler comes too early for

  /** The step of `Cleanup` that unmounts a place, and the one after which its record is gone. */
  function CatchOrder(p: Place): (n: nat)
    ensures n <= 13
  {
    if p == IMAGE then 12 else if p == UNION then 13 else if IsVirtual(p) then 6 + PointIndex(p)
    else if p == CACHE then 1 else 3
  }

  function ClearOrder(p: Place): nat { if IsVirtual(p) then 11 else if IsExtra(p) then 4 else CatchOrder(p) }

  /**
   A mount escapes the handler: the operation makes one that needs no record, or records one, when the handler has
   already passed it, and the handler is refused the union for what the operation has mounted below it since.
   */
  predicate Escapes(s: State, e: Event) {
    || (((e.Mount? && !IsRecorded(s.made)) || e.Record?) && SignalOrder(s) > CatchOrder(Subject(s, e)))
    || (e.Step? && e.t.Signal? && StageOf(s, Signal) == Some(Root) && s.union && UNION in s.live && Busy(s, UNION))
  }

  predicate EscapesAt(s: State, e: Event, p: Place) { Escapes(s, e) && !Loses(s, e) && p == Subject(s, e) }

  /**
   Exactly the mounts that escaped are still accounted for after the handler, until the operation's own `Cleanup` comes;
   the union may be refused to that one as well.
   */
  predicate EscapedOk(s: State, escaped: bool, p: Place) {
    && (Accounted(s, p) && !InFlight(s, p) && SignalOrder(s) > CatchOrder(p) ==>
          escaped && (MainOrder(s) <= CatchOrder(p) || p == UNION))
    && (escaped && MainOrder(s) <= CatchOrder(p) ==> Accounted(s, p))
    && (escaped ==> p < Settled(s) && SignalOrder(s) > ClearOrder(p))
  }

  lemma EscapeStep(s: State, e: Event, escaped: bool, p: Place)
    requires Inv(s) && Enabled(s, e) && !Apply(s, e).missed && EscapedOk(s, escaped, p)
    ensures EscapedOk(Apply(s, e), escaped || EscapesAt(s, e, p), p)
  {
    hide Inv, EscapedOk, Targets, Granted, Stepped, Acquired, Recorded;
    match e
    case Step(Main, off) => MainKeepsEscaped(s, off, escaped, p);
    case Step(Signal, off) => SignalKeepsEscaped(s, off, escaped, p);
    case Acquire(t) => AcquireKeepsEscaped(s, t, escaped, p);
    case Mount => MountKeepsEscaped(s, escaped, p);
    case Record => RecordKeepsEscaped(s, escaped, p);
    case _ => OthersKeepEscaped(s, e, escaped, p);
  }

  lemma OthersKeepEscaped(s: State, e: Event, escaped: bool, p: Place)
    requires Inv(s) && Enabled(s, e) && !Apply(s, e).missed && EscapedOk(s, escaped, p)
    requires !e.Step? && !e.Acquire? && !e.Mount? && !e.Record?
    ensures EscapedOk(Apply(s, e), escaped || EscapesAt(s, e, p), p)
  {
    hide Targets, Granted, Stepped, Acquired, Recorded, MutexOk;
  }

  lemma MountKeepsEscaped(s: State, escaped: bool, p: Place)
    requires Inv(s) && Enabled(s, Mount) && EscapedOk(s, escaped, p)
    ensures EscapedOk(Apply(s, Mount), escaped || EscapesAt(s, Mount, p), p)
  {
    hide Targets, Granted, Stepped, Acquired, Recorded, MutexOk;
  }

  lemma RecordKeepsEscaped(s: State, escaped: bool, p: Place)
    requires Inv(s) && Enabled(s, Record) && EscapedOk(s, escaped, p)
    ensures EscapedOk(Recorded(s), escaped || EscapesAt(s, Record, p), p)
  {
    hide Targets, Granted, Stepped, Acquired;
  }

  lemma AcquireKeepsEscaped(s: State, t: Thread, escaped: bool, p: Place)
    requires Inv(s) && Enabled(s, Acquire(t)) && EscapedOk(s, escaped, p)
    ensures EscapedOk(Acquired(s, t), escaped || EscapesAt(s, Acquire(t), p), p)
  {
    hide Targets, Granted, Stepped, Recorded;
  }

  lemma MainKeepsEscaped(s: State, off: set<Place>, escaped: bool, p: Place)
    requires Inv(s) && Enabled(s, Step(Main, off)) && !Stepped(s, Main, off).missed && EscapedOk(s, escaped, p)
    ensures EscapedOk(Stepped(s, Main, off), escaped || EscapesAt(s, Step(Main, off), p), p)
  {
    hide Acquired, Recorded;
  }

  lemma SignalKeepsEscaped(s: State, off: set<Place>, escaped: bool, p: Place)
    requires Inv(s) && Enabled(s, Step(Signal, off)) && !Stepped(s, Signal, off).missed && EscapedOk(s, escaped, p)
    ensures EscapedOk(Stepped(s, Signal, off), escaped || EscapesAt(s, Step(Signal, off), p), p)
  {
    hide CleanBy, Acquired, Recorded, Granted;
    WhatIsGranted(s, s.signal.at);
  }

  /** Everything the step is after comes off unless the union or `/dev` is among it and busy. */
  lemma WhatIsGranted(s: State, at: Stage)
    ensures forall p :: p in Granted(s, at) <==> p in Targets(s, at) && !Busy(s, p)
    ensures (forall p :: p in Targets(s, at) ==> !Busy(s, p)) ==> Granted(s, at) == Targets(s, at)
    ensures (exists p :: p in Targets(s, at) && Busy(s, p)) ==> Granted(s, at) != Targets(s, at)
  {}

  // ---------------------------------------------------------------- whole runs

  lemma {:induction false} RunKeepsInv(s: State, es: seq<Event>)
    requires Init(s) && Run(s, es)
    ensures Inv(After(s, es))
    decreases |es|
  {
    hide MutexOk, ProgressOk, RecordOk, Enabled, Apply;
    if es == [] {
      InitIsOk(s);
    } else {
      var before, e := es[..|es| - 1], es[|es| - 1];
      RunKeepsInv(s, before);
      MutexStep(After(s, before), e);
      ProgressStep(After(s, before), e);
      RecordStep(After(s, before), e);
    }
  }

  lemma InitIsOk(s: State)
    requires Init(s)
    ensures MutexOk(s) && ProgressOk(s) && RecordOk(s)
    ensures forall p :: BooksAt(s, false, p) && EscapedOk(s, false, p)
  {}

  predicate LostAt(s: State, es: seq<Event>, p: Place)
    requires Run(s, es)
    decreases |es|
  {
    es != [] && (LostAt(s, es[..|es| - 1], p) || LosesAt(After(s, es[..|es| - 1]), es[|es| - 1], p))
  }

  predicate EscapedAt(s: State, es: seq<Event>, p: Place)
    requires Run(s, es)
    decreases |es|
  {
    es != [] && (EscapedAt(s, es[..|es| - 1], p) || EscapesAt(After(s, es[..|es| - 1]), es[|es| - 1], p))
  }

  lemma MissedStays(s: State, e: Event)
    requires Enabled(s, e) && s.missed
    ensures Apply(s, e).missed
  {
    hide Targets, Granted, Stepped, Acquired, Recorded;
    match e
    case Step(t, off) => MissedByStep(s, t, off);
    case Acquire(t) => MissedByAcquire(s, t);
    case Record => MissedByRecord(s);
    case _ =>
  }

  lemma MissedByStep(s: State, t: Thread, off: set<Place>)
    requires InBody(s, t) && s.missed
    ensures Stepped(s, t, off).missed
  {
    hide Targets, Granted, Next;
    if t.Main? {}
  }

  lemma MissedByAcquire(s: State, t: Thread)
    requires Waits(s, t)
    ensures Acquired(s, t).missed == s.missed
  {
    hide StageOf;
    if t.Main? {}
  }

  lemma MissedByRecord(s: State)
    requires s.made > 0
    ensures Recorded(s).missed == s.missed
  {
  }

  lemma {:induction false} RunKeepsBooks(s: State, es: seq<Event>, p: Place)
    requires Init(s) && Run(s, es) && !After(s, es).missed
    ensures BooksAt(After(s, es), LostAt(s, es, p), p) && EscapedOk(After(s, es), EscapedAt(s, es, p), p)
    decreases |es|
  {
    hide BooksAt, EscapedOk, LosesAt, EscapesAt, Inv, Enabled, Apply;
    if es == [] {
      InitIsOk(s);
    } else {
      var before, e := es[..|es| - 1], es[|es| - 1];
      var t := After(s, before);
      if t.missed { MissedStays(t, e); }
      RunKeepsInv(s, before);
      RunKeepsBooks(s, before, p);
      BooksStep(t, e, LostAt(s, before, p), p);
      EscapeStep(t, e, EscapedAt(s, before, p), p);
    }
  }

  /**
   What is left behind when the operation's own `Cleanup` has got past step `n`: a mount that was lost, or one that
   escaped the handler and that the operation's `Cleanup` has not come to either.
   */
  predicate LeavesBehind(s: State, es: seq<Event>, n: nat)
    requires Run(s, es)
    decreases |es|
  {
    es != [] &&
    var before, e := es[..|es| - 1], es[|es| - 1];
    var t := After(s, before);
    LeavesBehind(s, before, n) || Loses(t, e) || (Escapes(t, e) && n <= CatchOrder(Subject(t, e)))
  }

  lemma {:induction false} LeftPlace(s: State, es: seq<Event>, n: nat) returns (p: Place)
    requires Run(s, es)
    ensures LeavesBehind(s, es, n) ==> LostAt(s, es, p) || (EscapedAt(s, es, p) && n <= CatchOrder(p))
    decreases |es|
  {
    hide Loses, Escapes, Enabled, Apply, CatchOrder;
    p := 0;
    if es != [] {
      var before, e := es[..|es| - 1], es[|es| - 1];
      p := LeftPlace(s, before, n);
      if !LeavesBehind(s, before, n) { p := Subject(After(s, before), e); }
    }
  }

  lemma {:induction false} LostPlace(s: State, es: seq<Event>) returns (p: Place)
    requires Run(s, es)
    ensures Lost(s, es) ==> LostAt(s, es, p)
    decreases |es|
  {
    hide Loses, Enabled, Apply;
    p := 0;
    if es != [] {
      p := LostPlace(s, es[..|es| - 1]);
      if !Lost(s, es[..|es| - 1]) { p := Subject(After(s, es[..|es| - 1]), es[|es| - 1]); }
    }
  }

  lemma {:induction false} PlaceIsLeft(s: State, es: seq<Event>, n: nat, p: Place)
    requires Run(s, es)
    ensures LostAt(s, es, p) ==> Lost(s, es) && LeavesBehind(s, es, n)
    ensures EscapedAt(s, es, p) && n <= CatchOrder(p) ==> LeavesBehind(s, es, n)
    decreases |es|
  {
    hide Loses, Escapes, Enabled, Apply, CatchOrder;
    if es != [] { PlaceIsLeft(s, es[..|es| - 1], n, p); }
  }

  // ---------------------------------------------------------------- what it means

  /** No two bodies of `Cleanup` ever overlap, and nobody waits for the mutex while holding it. */
  lemma CleanupsAreExclusive(s: State, es: seq<Event>)
    requires Init(s) && Run(s, es)
    ensures Exclusive(After(s, es))
  {
    hide After, Run, Init, ProgressOk, RecordOk;
    RunKeepsInv(s, es);
  }

  predicate Exclusive(s: State) {
    && !(InBody(s, Main) && InBody(s, Signal))
    && !(Waits(s, Main) && s.holder == Some(Main)) && !(Waits(s, Signal) && s.holder == Some(Signal))
  }

  /** How many steps the holder of the mutex needs at most before it lets go. */
  function Rank(s: State, t: Thread): nat {
    if InBody(s, t) && StageOk(StageOf(s, t).value) then 16 - Order(StageOf(s, t).value)
    else if (t.Main? && s.main.Setting?) || (t.Signal? && s.signal.Cancelling?) then 1 else 0
  }

  function By(e: Event): Thread {
    match e
    case Interrupt => Signal
    case Cancel => Signal
    case Check => Signal
    case Exit => Signal
    case Acquire(t) => t
    case Step(t, _) => t
    case _ => Main
  }

  /** The holder can always move, whatever it does brings it closer to letting go, and nobody else can delay it. */
  ghost predicate LetsGo(s: State, t: Thread) {
    && (exists e :: By(e) == t && Enabled(s, e))
    && forall e :: Enabled(s, e) ==> MovesOn(s, e, t)
  }

  predicate MovesOn(s: State, e: Event, t: Thread)
    requires Enabled(s, e)
  {
    var u := Apply(s, e);
    if By(e) == t then Rank(u, t) < Rank(s, t) && (Rank(u, t) == 0 <==> u.holder == None)
    else Rank(u, t) == Rank(s, t) && u.holder == Some(t)
  }

  lemma HolderLetsGo(s: State, es: seq<Event>, t: Thread)
    requires Init(s) && Run(s, es) && After(s, es).holder == Some(t) && !After(s, es).exited
    ensures LetsGo(After(s, es), t)
  {
    hide After, Run, Init, ProgressOk, RecordOk, LetsGo, MutexOk;
    RunKeepsInv(s, es);
    HolderMoves(After(s, es), t);
  }

  lemma HolderMoves(s: State, t: Thread)
    requires MutexOk(s) && s.holder == Some(t) && !s.exited
    ensures LetsGo(s, t)
  {
    hide MovesOn, Targets;
    var e := if t.Main? && s.main.Setting? then Assign
             else if t.Signal? && s.signal.Cancelling? then Cancel else Step(t, {});
    assert By(e) == t && Enabled(s, e);
    forall e | Enabled(s, e)
      ensures MovesOn(s, e, t)
    {
      if By(e) == t { OwnMove(s, e, t); } else { OtherMove(s, e, t); }
    }
  }

  lemma OwnMove(s: State, e: Event, t: Thread)
    requires MutexOk(s) && s.holder == Some(t) && Enabled(s, e) && By(e) == t
    ensures MovesOn(s, e, t)
  {
    hide Targets, Granted;
  }

  lemma OtherMove(s: State, e: Event, t: Thread)
    requires MutexOk(s) && s.holder == Some(t) && Enabled(s, e) && By(e) != t
    ensures MovesOn(s, e, t)
  {
    hide Targets, Granted, Stepped;
  }

  /**
   Once the operation's deferred `Cleanup` is through, no PID is active and no extra or virtual mount is recorded,
   whatever the handler does; and no mount at all, unless one of its own unmounts failed.
   */
  lemma OperationEndsClean(s: State, es: seq<Event>)
    requires Init(s) && Run(s, es) && After(s, es).main.Finished?
    ensures var t := After(s, es); t.activePID == 0 && t.extras == {} && !t.vfs && (!t.failed ==> !t.img && !t.union)
  {
    hide After, Run, Init, MutexOk, RecordOk;
    RunKeepsInv(s, es);
  }

  /** And when no unmount failed that the kernel could grant, nothing is mounted exactly when no mount was lost. */
  lemma OperationLeavesNothing(s: State, es: seq<Event>)
    requires Init(s) && Run(s, es) && After(s, es).main.Finished? && !After(s, es).missed
    ensures After(s, es).live == {} <==> !Lost(s, es)
  {
    hide After, Run, Init, Lost, LostAt, EscapedAt, EscapedOk, MutexOk, RecordOk, LostOk;
    var t := After(s, es);
    RunKeepsInv(s, es);
    var lost := LostPlace(s, es);
    RunKeepsBooks(s, es, lost);
    forall p | p in t.live
      ensures Lost(s, es) || (p == UNION && t.union)
    {
      RunKeepsBooks(s, es, p);
      PlaceIsLeft(s, es, 0, p);
    }
    assert t.union && !Lost(s, es) ==> t.live - {IMAGE, UNION} == {};
  }

  /**
   An exit leaves nothing mounted exactly when the operation is not between a mount and its record, no mount was lost,
   and none escaped the handler but those that the operation's own `Cleanup` has come to since; while that has not
   begun, none at all.
   */
  lemma ExitLeavesNothing(s: State, es: seq<Event>)
    requires Init(s) && Run(s, es) && After(s, es).exited && !After(s, es).missed
    ensures var t := After(s, es); t.live == {} <==> !t.main.Recording? && !LeavesBehind(s, es, MainOrder(t))
  {
    hide After, Run, Init, Lost, LeavesBehind, LostAt, EscapedAt, MutexOk, Accounted, LostOk, CatchOrder, Busy;
    var t := After(s, es);
    RunKeepsInv(s, es);
    var left := LeftPlace(s, es, MainOrder(t));
    RunKeepsBooks(s, es, left);
    if t.main.Recording? {
      RunKeepsBooks(s, es, t.made - 1);
      assert Accounted(t, t.made - 1) by { FlightIsAccounted(t); }
    }
    UnionAtExit(t);
    forall p | p in t.live
      ensures InFlight(t, p) || LeavesBehind(s, es, MainOrder(t)) || (p == UNION && Busy(t, UNION))
    {
      RunKeepsBooks(s, es, p);
      PlaceIsLeft(s, es, MainOrder(t), p);
    }
    if Busy(t, UNION) { BelowTheUnion(t); }
  }

  /** Past its own last unmount, the operation has a recorded union only if something is mounted below it. */
  lemma UnionAtExit(s: State)
    requires RecordOk(s) && ProgressOk(s) && !s.missed
    ensures Accounted(s, UNION) && MainOrder(s) > CatchOrder(UNION) ==> Busy(s, UNION)
  {}

  lemma BelowTheUnion(s: State)
    requires Busy(s, UNION)
    ensures s.live - {IMAGE, UNION} != {}
  {}

  lemma FlightIsAccounted(s: State)
    ensures s.main.Recording? && s.made > 0 ==> Accounted(s, s.made - 1)
  {}

  /** Some step of the handler released the lock file. */
  predicate HandlerReleased(s: State, es: seq<Event>)
    requires Run(s, es)
    decreases |es|
  {
    es != [] &&
    var before, e := es[..|es| - 1], es[|es| - 1];
    HandlerReleased(s, before) || (e.Step? && e.t.Signal? && StageOf(After(s, before), Signal) == Some(Unlock))
  }

  lemma {:induction false} ReleasedWhen(s: State, es: seq<Event>)
    requires Init(s) && Run(s, es)
    ensures HandlerReleased(s, es) <==> SignalOrder(After(s, es)) > 14 && !After(s, es).signal.Skipped?
    decreases |es|
  {
    hide MutexOk, ProgressOk, RecordOk, Targets, Granted, Acquired;
    if es != [] {
      var before := es[..|es| - 1];
      ReleasedWhen(s, before);
      RunKeepsInv(s, before);
      SignalMoves(After(s, before), es[|es| - 1]);
    }
  }

  lemma SignalMoves(s: State, e: Event)
    requires MutexOk(s) && Enabled(s, e)
    ensures var released := SignalOrder(s) > 14 && !s.signal.Skipped?;
            SignalOrder(Apply(s, e)) > 14 && !Apply(s, e).signal.Skipped? <==>
            released || (e.Step? && e.t.Signal? && StageOf(s, Signal) == Some(Unlock))
  {
    hide Targets, Granted, MutexOk, SignalOrder, StageOf, Stepped, Acquired;
    match e
    case Step(Signal, off) => SweepMoves(s, off);
    case Step(Main, off) => MainStepKeepsSignal(s, off);
    case Acquire(t) => AcquireMoves(s, t);
    case _ => OthersMove(s, e);
  }

  lemma MainStepKeepsSignal(s: State, off: set<Place>)
    requires InBody(s, Main)
    ensures Stepped(s, Main, off).signal == s.signal
    ensures SignalOrder(Stepped(s, Main, off)) == SignalOrder(s)
  {
    hide Targets, Granted;
  }

  lemma AcquireMoves(s: State, t: Thread)
    requires Waits(s, t)
    ensures var u := Acquired(s, t);
            SignalOrder(u) > 14 && !u.signal.Skipped? <==> SignalOrder(s) > 14 && !s.signal.Skipped?
  {}

  lemma OthersMove(s: State, e: Event)
    requires Enabled(s, e) && !e.Step? && !e.Acquire?
    ensures var u := Apply(s, e);
            SignalOrder(u) > 14 && !u.signal.Skipped? <==> SignalOrder(s) > 14 && !s.signal.Skipped?
  {
    hide Targets, Granted, Stepped, Acquired, Recorded;
    if e.Record? { assert Recorded(s).signal == s.signal by { RecordKeepsSignal(s); } }
  }

  lemma RecordKeepsSignal(s: State)
    requires s.made > 0
    ensures Recorded(s).signal == s.signal
  {}

  lemma SweepMoves(s: State, off: set<Place>)
    requires MutexOk(s) && InBody(s, Signal)
    ensures !s.signal.Skipped? && !Stepped(s, Signal, off).signal.Skipped?
    ensures SignalOrder(Stepped(s, Signal, off)) > 14 <==> SignalOrder(s) > 14 || StageOf(s, Signal) == Some(Unlock)
  {
    hide Targets, Granted;
  }

  /**
   While the operation is at work, and so at each of its mounts, it holds its lock exactly until the handler has
   released it.
   */
  lemma LockedWhileAtWork(s: State, es: seq<Event>)
    requires Init(s) && Run(s, es) && AtWork(After(s, es))
    ensures After(s, es).locked <==> !HandlerReleased(s, es)
  {
    hide After, Run, Init, HandlerReleased, MutexOk, RecordOk;
    RunKeepsInv(s, es);
    ReleasedWhen(s, es);
  }

  // ---------------------------------------------------------------- what the handler can spoil

  lemma RunOne(s: State, es: seq<Event>, e: Event)
    requires Run(s, es) && Enabled(After(s, es), e)
    ensures Run(s, es + [e]) && After(s, es + [e]) == Apply(After(s, es), e)
  {
    assert (es + [e])[..|es|] == es;
  }

  lemma LostOne(s: State, es: seq<Event>, e: Event, p: Place)
    requires Run(s, es) && Enabled(After(s, es), e)
    ensures Run(s, es + [e]) && (LostAt(s, es + [e], p) <==> LostAt(s, es, p) || LosesAt(After(s, es), e, p))
  {
    assert (es + [e])[..|es|] == es;
  }

  /** A step in which everything comes off that the kernel lets go. */
  function Sweep(s: State, t: Thread): Event { Step(t, if InBody(s, t) then Granted(s, StageOf(s, t).value) else {}) }

  /** The union is mounted and recorded, and cannot be unmounted any more, because a mount below it is lost. */
  predicate Pinned(s: State, es: seq<Event>, q: Place) {
    && Init(s) && Run(s, es) && UNION < q && LostAt(s, es, q)
    && var t := After(s, es); !t.missed && t.union && UNION in t.live
  }

  lemma PinnedMeans(s: State, es: seq<Event>, q: Place)
    requires Pinned(s, es, q)
    ensures Run(s, es)
    ensures var t := After(s, es); {UNION, q} <= t.live && t.union && Busy(t, UNION) && !t.missed
  {
    hide Run, After, LostAt, EscapedAt, LostOk, EscapedOk, Accounted;
    RunKeepsBooks(s, es, q);
    assert q in After(s, es).live - {IMAGE, UNION};
  }

  /** A mount that is lost while the union is mounted and recorded pins the union. */
  lemma Pins(s: State, es: seq<Event>, e: Event)
    requires Init(s) && Run(s, es) && Enabled(After(s, es), e) && (e.Mount? || e.Record?) && Loses(After(s, es), e)
    requires var t := After(s, es); !t.missed && t.union && UNION in t.live
    ensures Pinned(s, es + [e], Subject(After(s, es), e))
  {
    hide Run, After, LostAt, Targets, Granted, Stepped, Acquired;
    RunOne(s, es, e);
    LostOne(s, es, e, Subject(After(s, es), e));
  }

  lemma StaysPinned(s: State, es: seq<Event>, e: Event, q: Place)
    requires Pinned(s, es, q) && Enabled(After(s, es), e)
    requires e.Step? ==> e == Sweep(After(s, es), e.t)
    ensures Pinned(s, es + [e], q)
  {
    hide Run, After, LostAt, Enabled, Apply, Busy, Sweep, Init, LosesAt;
    RunOne(s, es, e);
    LostOne(s, es, e, q);
    PinnedMeans(s, es, q);
    UnionStays(After(s, es), e);
  }

  lemma UnionStays(s: State, e: Event)
    requires Enabled(s, e) && (e.Step? ==> e == Sweep(s, e.t))
    requires !s.missed && s.union && UNION in s.live && Busy(s, UNION)
    ensures var u := Apply(s, e); !u.missed && u.union && UNION in u.live
  {
    hide Busy, Targets, Granted, Stepped, Acquired;
    match e
    case Step(t, off) => StepLeavesUnion(s, t);
    case Acquire(t) => AcquireLeavesUnion(s, t);
    case _ =>
  }

  lemma StepLeavesUnion(s: State, t: Thread)
    requires InBody(s, t) && !s.missed && s.union && UNION in s.live && Busy(s, UNION)
    ensures var u := Stepped(s, t, Granted(s, StageOf(s, t).value)); !u.missed && u.union && UNION in u.live
  {
    hide Busy, Next;
    assert UNION !in Granted(s, StageOf(s, t).value);
  }

  lemma AcquireLeavesUnion(s: State, t: Thread)
    requires Waits(s, t) && !s.missed && s.union && UNION in s.live
    ensures !Acquired(s, t).missed && Acquired(s, t).union && UNION in Acquired(s, t).live
  {
    hide StageOf;
    if t.Main? {}
  }

  /** What a thread's `Cleanup` leaves alone, and what it has cleared when it comes to its end. */
  predicate Onward(s: State, u: State, t: Thread)
    requires InBody(s, t)
  {
    && u.exited == s.exited && u.missed == s.missed && u.made == s.made && u.didStart == s.didStart
    && (if t.Main? then u.signal == s.signal else u.main == s.main)
    && (!s.vfs ==> !u.vfs) && (!s.locked ==> !u.locked)
  }

  predicate Through(s: State, u: State, t: Thread)
    requires InBody(s, t)
  {
    && Onward(s, u, t) && u.holder == None && (if t.Main? then u.main.Finished? else u.signal.Swept?)
    && (Order(StageOf(s, t).value) <= 11 ==> !u.vfs) && (Order(StageOf(s, t).value) <= 14 ==> !u.locked)
  }

  lemma SweepStep(s: State, t: Thread)
    requires MutexOk(s) && InBody(s, t)
    ensures var at, u := StageOf(s, t).value, Stepped(s, t, Granted(s, StageOf(s, t).value));
            && Onward(s, u, t)
            && if at.Release? then Through(s, u, t)
               else InBody(u, t) && Rank(u, t) < Rank(s, t) && Order(StageOf(u, t).value) > Order(at)
                    && (Order(at) <= 11 < Order(StageOf(u, t).value) ==> !u.vfs)
                    && (Order(at) <= 14 < Order(StageOf(u, t).value) ==> !u.locked)
  {
    hide Targets, Granted;
  }

  /** A thread in its `Cleanup` can always get to the end of it, with every unmount granted that can be. */
  lemma {:induction false} FinishSweep(s: State, es: seq<Event>, t: Thread, q: Place) returns (more: seq<Event>)
    requires Run(s, es) && MutexOk(After(s, es)) && InBody(After(s, es), t) && !After(s, es).exited
    ensures Run(s, more) && MutexOk(After(s, more)) && Through(After(s, es), After(s, more), t)
    ensures Pinned(s, es, q) ==> Pinned(s, more, q)
    decreases Rank(After(s, es), t)
  {
    hide Run, After, Pinned, Targets, Granted, MutexOk, Stepped, Rank;
    var now, e := After(s, es), Sweep(After(s, es), t);
    RunOne(s, es, e);
    MutexStep(now, e);
    SweepStep(now, t);
    more := es + [e];
    if Pinned(s, es, q) { StaysPinned(s, es, e, q); }
    if !StageOf(now, t).value.Release? { more := FinishSweep(s, more, t, q); }
  }

  /** The handler gets to a step before the last, and the union is untouched until then. */
  lemma {:induction false} SweepTo(s: State, es: seq<Event>, n: nat) returns (more: seq<Event>)
    requires n == Order(Forget) || n == Order(Image)
    requires Init(s) && Run(s, es) && MutexOk(After(s, es)) && !After(s, es).exited
    requires InBody(After(s, es), Signal) && SignalOrder(After(s, es)) <= n
    ensures Run(s, more) && MutexOk(After(s, more)) && InBody(After(s, more), Signal)
    ensures var now, u := After(s, es), After(s, more);
            && SignalOrder(u) == n && Onward(now, u, Signal) && u.union == now.union
            && (UNION in now.live ==> UNION in u.live) && (n == Order(Image) && SignalOrder(now) < n ==> !u.vfs)
    decreases Rank(After(s, es), Signal)
  {
    hide Init, Run, After, Targets, Granted, MutexOk, ProgressOk, RecordOk, Stepped, Rank;
    more := es;
    var now, e := After(s, es), Sweep(After(s, es), Signal);
    if SignalOrder(now) < n {
      RunOne(s, es, e);
      MutexStep(now, e);
      SweepStep(now, Signal);
      RunKeepsInv(s, es);
      EarlyStep(now, n);
      more := SweepTo(s, es + [e], n);
    }
  }

  lemma EarlyStep(s: State, n: nat)
    requires (n == Order(Forget) || n == Order(Image)) && MutexOk(s) && RecordOk(s)
    requires InBody(s, Signal) && SignalOrder(s) < n
    ensures var u := Stepped(s, Signal, Granted(s, StageOf(s, Signal).value));
            && SignalOrder(u) <= n && u.union == s.union && (UNION in s.live ==> UNION in u.live)
  {}

  /** The handler is woken, sets the cancelled flag, sees that the operation started, and gets the mutex. */
  function Handling(s: State): State {
    s.(signal := Sweeping(Packages), holder := Some(Signal), cancelled := true)
  }

  lemma HandlerStarts(s: State, es: seq<Event>) returns (more: seq<Event>)
    requires Run(s, es)
    requires var now := After(s, es); now.signal.Listening? && now.holder == None && now.didStart && !now.exited
    ensures Run(s, more) && After(s, more) == Handling(After(s, es))
  {
    hide Run, After, Lost, Loses, Targets, Granted;
    RunOne(s, es, Interrupt);
    more := es + [Interrupt];
    RunOne(s, more, Acquire(Signal));
    more := more + [Acquire(Signal)];
    RunOne(s, more, Cancel);
    more := more + [Cancel];
    RunOne(s, more, Check);
    more := more + [Check];
    RunOne(s, more, Acquire(Signal));
    more := more + [Acquire(Signal)];
  }

  /** The operation has its lock and is about to make its first mount. */
  lemma Begins(s: State) returns (es: seq<Event>)
    requires Init(s)
    ensures Run(s, es) && After(s, es) == s.(main := Working, didStart := true, locked := true)
  {
    es := [TakeLockFile(true)];
    RunOne(s, [], TakeLockFile(true));
    assert [] + es == es;
  }

  /** One mount, and its record if it needs one. */
  lemma OneMount(s: State, es: seq<Event>) returns (more: seq<Event>)
    requires Run(s, es) && After(s, es).main.Working? && !After(s, es).exited
    ensures Run(s, more)
    ensures var now := After(s, es);
            var up := now.(made := now.made + 1, live := now.live + {now.made});
            After(s, more) == if IsRecorded(now.made) then Recorded(up) else up
  {
    hide Run, After, Lost, Loses, Targets, Granted;
    var now := After(s, es);
    RunOne(s, es, Mount);
    more := es + [Mount];
    if IsRecorded(now.made) {
      RunOne(s, more, Record);
      more := more + [Record];
    }
  }

  /** Image, union and `/dev` are mounted and recorded. */
  lemma ThreeMounts(s: State) returns (es: seq<Event>)
    requires Init(s)
    ensures Run(s, es) && After(s, es) ==
            s.(main := Working, didStart := true, locked := true, made := 3, live := {IMAGE, UNION, DEV},
               img := true, union := true, vfs := true)
  {
    hide Run, After, Lost, Loses, Targets, Granted;
    es := Begins(s);
    es := OneMount(s, es);
    es := OneMount(s, es);
    es := OneMount(s, es);
    assert After(s, es).live == {IMAGE, UNION, DEV} && After(s, es).extras == {};
  }

  /** The handler cleans up before anything is mounted; the operation goes on to mount, and the process exits. */
  lemma InterruptAbandonsAMount(s: State) returns (es: seq<Event>)
    requires Init(s)
    ensures Run(s, es)
    ensures var t := After(s, es); t.exited && t.img && t.live != {} && !t.missed
  {
    hide Run, After, Lost, Loses, Targets, Granted, MutexOk;
    es := Begins(s);
    es := HandlerStarts(s, es);
    RunStarts(After(s, es));
    es := FinishSweep(s, es, Signal, 0);
    es := OneMount(s, es);
    assert IMAGE in After(s, es).live;
    RunOne(s, es, Exit);
    es := es + [Exit];
  }

  lemma RunStarts(s: State)
    requires s.holder == Some(Signal) && s.main.Working? && s.signal == Sweeping(Packages)
    ensures MutexOk(s)
  {}

  /** In the same way it can mount without its lock: the handler has released and removed the lock file by then. */
  lemma MountsWithoutItsLock(s: State) returns (es: seq<Event>)
    requires Init(s)
    ensures Run(s, es)
    ensures var t := After(s, es); AtWork(t) && t.live != {} && !t.locked && !t.exited
  {
    hide Run, After, Lost, Loses, Targets, Granted, MutexOk;
    es := Begins(s);
    es := HandlerStarts(s, es);
    RunStarts(After(s, es));
    es := FinishSweep(s, es, Signal, 0);
    es := OneMount(s, es);
    assert IMAGE in After(s, es).live;
  }

  /** The end of a session in which the operation still gets to its deferred `Cleanup`. */
  lemma OperationFinishes(s: State, es: seq<Event>, q: Place) returns (more: seq<Event>)
    requires Run(s, es)
    requires var now := After(s, es); now.main.Working? && now.signal.Swept? && now.holder == None && !now.exited
    requires Pinned(s, es, q)
    ensures Pinned(s, more, q) && After(s, more).main.Finished?
  {
    hide Run, After, Pinned, Targets, Granted, MutexOk;
    RunOne(s, es, Leave);
    StaysPinned(s, es, Leave, q);
    more := es + [Leave];
    RunOne(s, more, Acquire(Main));
    StaysPinned(s, more, Acquire(Main), q);
    more := more + [Acquire(Main)];
    MainStarts(After(s, more));
    more := FinishSweep(s, more, Main, q);
  }

  lemma MainStarts(s: State)
    requires s.holder == Some(Main) && s.main == Cleaning(Packages) && s.signal.Swept?
    ensures MutexOk(s)
  {}

  /**
   A virtual mount that is made when the handler has just cleared their flag is never unmounted, because the flag is
   not set again. It keeps the union busy, so both survive both cleanups, although no unmount failed that the kernel
   could grant.
   */
  lemma HandlerForgetsVirtualMounts(s: State) returns (es: seq<Event>)
    requires Init(s)
    ensures Run(s, es)
    ensures var t := After(s, es); t.main.Finished? && {UNION, PTS} <= t.live && t.union && !t.vfs && !t.missed
  {
    hide Run, After, Loses, Targets, Granted, MutexOk, Pinned, Busy;
    es := ThreeMounts(s);
    es := HandlerStarts(s, es);
    RunStarts(After(s, es));
    es := SweepTo(s, es, Order(Image));
    assert Loses(After(s, es), Mount) by { LosesVirtual(After(s, es)); }
    Pins(s, es, Mount);
    MutexStep(After(s, es), Mount);
    RunOne(s, es, Mount);
    es := es + [Mount];
    es := FinishSweep(s, es, Signal, PTS);
    es := OperationFinishes(s, es, PTS);
    PinnedMeans(s, es, PTS);
    OperationEndsClean(s, es);
  }

  lemma LosesVirtual(s: State)
    requires s.made == PTS && !s.vfs
    ensures Loses(s, Mount)
  {}

  /** All virtual mounts are up as well, and there is no package cache. */
  lemma SevenMounts(s: State) returns (es: seq<Event>)
    requires Init(s)
    ensures Run(s, es)
    ensures var t := After(s, es);
            && t.main.Working? && t.signal.Listening? && t.holder == None && t.didStart && t.made == 8 && t.extras == {}
            && UNION in t.live && t.union && !t.missed && !t.exited
  {
    hide Run, After, Lost, Loses, Targets, Granted;
    es := ThreeMounts(s);
    es := OneMount(s, es);
    es := OneMount(s, es);
    es := OneMount(s, es);
    es := OneMount(s, es);
    RunOne(s, es, Skip);
    es := es + [Skip];
  }

  /**
   An extra mount recorded between the handler's unmounting and its forgetting is forgotten without having been
   unmounted. It keeps the union busy, so both survive both cleanups, although no unmount failed that the kernel
   could grant.
   */
  lemma HandlerForgetsAMount(s: State) returns (es: seq<Event>)
    requires Init(s)
    ensures Run(s, es)
    ensures var t := After(s, es);
            t.main.Finished? && {UNION, CACHE + 1} <= t.live && t.union && t.extras == {} && !t.missed
  {
    hide Run, After, Loses, Targets, Granted, MutexOk, Pinned, Busy;
    es := SevenMounts(s);
    es := HandlerStarts(s, es);
    RunStarts(After(s, es));
    es := SweepTo(s, es, Order(Forget));
    MutexStep(After(s, es), Mount);
    RunOne(s, es, Mount);
    es := es + [Mount];
    LosesExtra(After(s, es));
    Pins(s, es, Record);
    MutexStep(After(s, es), Record);
    RunOne(s, es, Record);
    es := es + [Record];
    es := FinishSweep(s, es, Signal, CACHE + 1);
    es := OperationFinishes(s, es, CACHE + 1);
    PinnedMeans(s, es, CACHE + 1);
    OperationEndsClean(s, es);
  }

  lemma LosesExtra(s: State)
    requires s.main.Recording? && s.made == 9 && s.signal == Sweeping(Forget)
    ensures Loses(s, Record) && Subject(s, Record) == CACHE + 1
  {}
}
