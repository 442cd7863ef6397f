/** The locks shared by file watchers and output readers: any number of each, over one WatcherLock and
    one condition variable CvEvent with its lock L. A step is what one actor does between two points at
    which another can interleave; Wait is split into joining the notify list, releasing L, sleeping and
    retaking L. */
module WatchLocks {
  import opened Base

  datatype Actor = Watcher(i: nat) | Reader(i: nat)

  // Watching: at the head of its loop or walking its buffer. Leaving: WatcherLock is released, the last
  // broadcast still to come.
  datatype WatcherPc = Starting | WantWatcherLock | Watching | WantL | InRead | Leaving | Gone

  datatype ReaderPc =
    | Top                  // head of the outer loop
    | WantFirstL | Trying  // waits for L; holds L, about to TryLock
    | HasBoth              // TryLock succeeded under L
    | Joining | Queued | Asleep | WantLAgain // the stages of Wait
    | Rereading            // holds L again, about to read
    | LeavingInner         // holds L, about to release it
    | Deciding             // after the inner loop, holding nothing
    | HasWatcherLock       // the second TryLock succeeded
    | Returned

  datatype World = World(
    watchers: map<nat, WatcherPc>,
    readers: map<nat, ReaderPc>,
    watcherLock: Option<Actor>,
    cvL: Option<Actor>,
    notify: set<nat>)       // readers on the condition variable's list

  predicate Init(w: World) { w == World(map[], map[], None, None, {}) }

  datatype Step =
    | NewWatcher(i: nat)
    | NewReader(i: nat)
    | WatcherStep(i: nat, a: WatcherAction)
    | ReaderStep(i: nat, b: ReaderAction)

  datatype WatcherAction = GiveUp | AskLock | TakeLock | AskL | TakeL | KernelReturns | Broadcast | Leave | LastBroadcast

  datatype ReaderAction =
    | AskL | TakeL | TryLock | GiveBack | Join | ReleaseL | Wake | RetakeL | ReadAt(got: bool) | ReleaseLAndLeave
    | TryAgain | GoOn | Return

  predicate AtW(w: World, i: nat, pc: WatcherPc) { i in w.watchers && w.watchers[i] == pc }

  predicate AtR(w: World, i: nat, pc: ReaderPc) { i in w.readers && w.readers[i] == pc }

  function ToW(w: World, i: nat, pc: WatcherPc): World { w.(watchers := w.watchers[i := pc]) }

  function ToR(w: World, i: nat, pc: ReaderPc): World { w.(readers := w.readers[i := pc]) }

  // WatcherLock after reader i's TryLock
  function TryFor(w: World, i: nat): Option<Actor> {
    if w.watcherLock == None then Some(Reader(i)) else w.watcherLock
  }

  predicate NextW(w: World, i: nat, a: WatcherAction, w': World) {
    match a
    case GiveUp => AtW(w, i, Starting) && w' == ToW(w, i, Gone)
    case AskLock => AtW(w, i, Starting) && w' == ToW(w, i, WantWatcherLock)
    case TakeLock =>
      AtW(w, i, WantWatcherLock) && w.watcherLock == None
      && w' == ToW(w, i, Watching).(watcherLock := Some(Watcher(i)))
    case AskL => AtW(w, i, Watching) && w' == ToW(w, i, WantL)
    case TakeL => AtW(w, i, WantL) && w.cvL == None && w' == ToW(w, i, InRead).(cvL := Some(Watcher(i)))
    case KernelReturns => AtW(w, i, InRead) && w' == ToW(w, i, Watching).(cvL := None)
    // broadcasts are made without holding L
    case Broadcast => AtW(w, i, Watching) && w' == w.(notify := {})
    case Leave => AtW(w, i, Watching) && w' == ToW(w, i, Leaving).(watcherLock := None)
    case LastBroadcast => AtW(w, i, Leaving) && w' == ToW(w, i, Gone).(notify := {})
  }

  predicate NextR(w: World, i: nat, a: ReaderAction, w': World) {
    match a
    case AskL => AtR(w, i, Top) && w' == ToR(w, i, WantFirstL)
    case TakeL => AtR(w, i, WantFirstL) && w.cvL == None && w' == ToR(w, i, Trying).(cvL := Some(Reader(i)))
    case TryLock =>
      AtR(w, i, Trying)
      && w' == ToR(w, i, if w.watcherLock == None then HasBoth else Joining).(watcherLock := TryFor(w, i))
    case GiveBack => AtR(w, i, HasBoth) && w' == ToR(w, i, LeavingInner).(watcherLock := None)
    case Join => AtR(w, i, Joining) && w' == ToR(w, i, Queued).(notify := w.notify + {i})
    case ReleaseL => AtR(w, i, Queued) && w' == ToR(w, i, Asleep).(cvL := None)
    case Wake => AtR(w, i, Asleep) && i !in w.notify && w' == ToR(w, i, WantLAgain)
    case RetakeL => AtR(w, i, WantLAgain) && w.cvL == None && w' == ToR(w, i, Rereading).(cvL := Some(Reader(i)))
    case ReadAt(got) => AtR(w, i, Rereading) && w' == ToR(w, i, if got then LeavingInner else Trying)
    case ReleaseLAndLeave => AtR(w, i, LeavingInner) && w' == ToR(w, i, Deciding).(cvL := None)
    case TryAgain =>
      AtR(w, i, Deciding)
      && w' == ToR(w, i, if w.watcherLock == None then HasWatcherLock else Top).(watcherLock := TryFor(w, i))
    case GoOn => AtR(w, i, Deciding) && w' == ToR(w, i, Top)
    case Return =>
      || (AtR(w, i, HasWatcherLock) && w' == ToR(w, i, Returned).(watcherLock := None))
      || ((AtR(w, i, Top) || AtR(w, i, Deciding)) && w' == ToR(w, i, Returned))
  }

  predicate Next(w: World, s: Step, w': World) {
    match s
    case NewWatcher(i) => i !in w.watchers && w' == ToW(w, i, Starting)
    case NewReader(i) => i !in w.readers && w' == ToR(w, i, Top)
    case WatcherStep(i, a) => NextW(w, i, a, w')
    case ReaderStep(i, a) => NextR(w, i, a, w')
  }

  ghost predicate Run(ws: seq<World>, ss: seq<Step>) {
    && |ws| == |ss| + 1 && Init(ws[0])
    && forall k :: 0 <= k < |ss| ==> Next(ws[k], ss[k], ws[k + 1])
  }

  // ---------------------------------------------------------------- who holds what

  predicate InRegion(pc: WatcherPc) { pc.Watching? || pc.WantL? || pc.InRead? }

  predicate WatcherLockHeldBy(w: World, a: Actor) {
    match a
    case Watcher(i) => i in w.watchers && InRegion(w.watchers[i])
    case Reader(i) => i in w.readers && (w.readers[i].HasBoth? || w.readers[i].HasWatcherLock?)
  }

  predicate LHeldBy(w: World, a: Actor) {
    match a
    case Watcher(i) => i in w.watchers && w.watchers[i].InRead?
    case Reader(i) =>
      i in w.readers &&
      match w.readers[i]
      case Trying => true
      case HasBoth => true
      case Joining => true
      case Queued => true
      case Rereading => true
      case LeavingInner => true
      case _ => false
  }

  ghost predicate Inv(w: World) {
    && (forall a :: WatcherLockHeldBy(w, a) <==> w.watcherLock == Some(a))
    && LInv(w)
    && (forall i :: i in w.notify ==> AtR(w, i, Queued) || AtR(w, i, Asleep))
  }

  ghost predicate LInv(w: World) { forall a :: LHeldBy(w, a) <==> w.cvL == Some(a) }

  lemma WatcherStepKeepsInv(w: World, i: nat, a: WatcherAction, w': World)
    requires Inv(w) && NextW(w, i, a, w')
    ensures Inv(w')
  {
    assert WatcherLockHeldBy(w, Watcher(i)) <==> w.watcherLock == Some(Watcher(i));
    assert LHeldBy(w, Watcher(i)) <==> w.cvL == Some(Watcher(i));
    forall b ensures WatcherLockHeldBy(w', b) <==> w'.watcherLock == Some(b) {
      assert WatcherLockHeldBy(w, b) <==> w.watcherLock == Some(b);
    }
    forall b ensures LHeldBy(w', b) <==> w'.cvL == Some(b) {
      assert LHeldBy(w, b) <==> w.cvL == Some(b);
    }
  }

  lemma ReaderStepKeepsL(w: World, i: nat, a: ReaderAction, w': World)
    requires LInv(w) && NextR(w, i, a, w')
    ensures LInv(w')
  {
    assert LHeldBy(w, Reader(i)) <==> w.cvL == Some(Reader(i));
    forall b ensures LHeldBy(w', b) <==> w'.cvL == Some(b) {
      assert LHeldBy(w, b) <==> w.cvL == Some(b);
    }
  }

  lemma ReaderStepKeepsInv(w: World, i: nat, a: ReaderAction, w': World)
    requires Inv(w) && NextR(w, i, a, w')
    ensures Inv(w')
  {
    hide LInv;
    ReaderStepKeepsL(w, i, a, w');
    assert WatcherLockHeldBy(w, Reader(i)) <==> w.watcherLock == Some(Reader(i));
    forall b ensures WatcherLockHeldBy(w', b) <==> w'.watcherLock == Some(b) {
      assert WatcherLockHeldBy(w, b) <==> w.watcherLock == Some(b);
    }
  }

  lemma {:induction false} RunKeepsInv(ws: seq<World>, ss: seq<Step>, k: nat)
    requires Run(ws, ss) && k < |ws|
    ensures Inv(ws[k])
  {
    if k > 0 {
      RunKeepsInv(ws, ss, k - 1);
      var w, s, w' := ws[k - 1], ss[k - 1], ws[k];
      assert Next(w, s, w');
      match s
      case WatcherStep(i, a) => WatcherStepKeepsInv(w, i, a, w');
      case ReaderStep(i, a) => ReaderStepKeepsInv(w, i, a, w');
      case NewWatcher(i) => StartKeepsInv(w, s, w');
      case NewReader(i) => StartKeepsInv(w, s, w');
    }
  }

  lemma StartKeepsInv(w: World, s: Step, w': World)
    requires Inv(w) && Next(w, s, w') && (s.NewWatcher? || s.NewReader?)
    ensures Inv(w')
  {
    forall b ensures WatcherLockHeldBy(w', b) <==> w'.watcherLock == Some(b) {
      assert WatcherLockHeldBy(w, b) <==> w.watcherLock == Some(b);
    }
    forall b ensures LHeldBy(w', b) <==> w'.cvL == Some(b) {
      assert LHeldBy(w, b) <==> w.cvL == Some(b);
    }
  }

  // ---------------------------------------------------------------- the lock protocol

  /** At most one watcher is inside the watch region, and none while a reader has WatcherLock. */
  lemma OneWatcherAtATime(ws: seq<World>, ss: seq<Step>, k: nat, i: nat, a: Actor)
    requires Run(ws, ss) && k < |ws|
    requires i in ws[k].watchers && InRegion(ws[k].watchers[i])
    requires WatcherLockHeldBy(ws[k], a)
    ensures a == Watcher(i)
  {
    RunKeepsInv(ws, ss, k);
    assert WatcherLockHeldBy(ws[k], Watcher(i));
  }

  /** Whoever releases a lock is its holder: no step unlocks on another's behalf. */
  lemma ReleasedByItsHolder(ws: seq<World>, ss: seq<Step>, k: nat)
    requires Run(ws, ss) && k < |ss| && (ss[k].WatcherStep? || ss[k].ReaderStep?)
    ensures var a := if ss[k].WatcherStep? then Watcher(ss[k].i) else Reader(ss[k].i);
            && (ws[k].watcherLock.Some? && ws[k + 1].watcherLock.None? ==> ws[k].watcherLock == Some(a))
            && (ws[k].cvL.Some? && ws[k + 1].cvL.None? ==> ws[k].cvL == Some(a))
            && (ws[k].watcherLock.Some? && ws[k + 1].watcherLock.Some? ==> ws[k].watcherLock == ws[k + 1].watcherLock)
            && (ws[k].cvL.Some? && ws[k + 1].cvL.Some? ==> ws[k].cvL == ws[k + 1].cvL)
  {
    RunKeepsInv(ws, ss, k);
    assert Next(ws[k], ss[k], ws[k + 1]);
    var a := if ss[k].WatcherStep? then Watcher(ss[k].i) else Reader(ss[k].i);
    assert WatcherLockHeldBy(ws[k], a) <==> ws[k].watcherLock == Some(a);
    assert LHeldBy(ws[k], a) <==> ws[k].cvL == Some(a);
  }

  /** a is blocked on a lock that b holds. */
  predicate WaitsFor(w: World, a: Actor, b: Actor) {
    match a
    case Watcher(i) =>
      || (AtW(w, i, WantWatcherLock) && w.watcherLock == Some(b))
      || (AtW(w, i, WantL) && w.cvL == Some(b))
    case Reader(i) => (AtR(w, i, WantFirstL) || AtR(w, i, WantLAgain)) && w.cvL == Some(b)
  }

  function Rank(w: World, a: Actor): nat {
    match a
    case Watcher(i) => if AtW(w, i, WantWatcherLock) then 2 else if AtW(w, i, WantL) then 1 else 0
    case Reader(i) => if AtR(w, i, WantFirstL) || AtR(w, i, WantLAgain) then 1 else 0
  }

  lemma WaitingDescends(w: World, a: Actor, b: Actor)
    requires Inv(w) && WaitsFor(w, a, b)
    ensures Rank(w, a) > Rank(w, b)
  {
    assert WatcherLockHeldBy(w, b) <==> w.watcherLock == Some(b);
    assert LHeldBy(w, b) <==> w.cvL == Some(b);
  }

  lemma {:induction false} ChainDescends(w: World, path: seq<Actor>, n: nat)
    requires Inv(w) && n < |path|
    requires forall m :: 0 <= m < |path| - 1 ==> WaitsFor(w, path[m], path[m + 1])
    ensures Rank(w, path[0]) >= Rank(w, path[n]) + n
  {
    if n > 0 {
      ChainDescends(w, path, n - 1);
      assert WaitsFor(w, path[n - 1], path[n]);
      WaitingDescends(w, path[n - 1], path[n]);
    }
  }

  /** The wait-for relation over WatcherLock and L has no cycle, in fact no chain of more than two waits. */
  lemma NoCircularWait(ws: seq<World>, ss: seq<Step>, k: nat, path: seq<Actor>)
    requires Run(ws, ss) && k < |ws| && |path| >= 2
    requires forall m :: 0 <= m < |path| - 1 ==> WaitsFor(ws[k], path[m], path[m + 1])
    ensures |path| <= 3 && path[0] != path[|path| - 1]
  {
    RunKeepsInv(ws, ss, k);
    ChainDescends(ws[k], path, |path| - 1);
  }

  /** Whoever is recorded as the holder of L waits for no lock: a reader goes on by itself, and a watcher is
      inside the inotify read, from which it returns, releasing L, when the kernel does. */
  lemma HoldersOfLAreNotBlocked(ws: seq<World>, ss: seq<Step>, k: nat, a: Actor, b: Actor)
    requires Run(ws, ss) && k < |ws| && ws[k].cvL == Some(a)
    ensures !WaitsFor(ws[k], a, b)
    ensures a.Watcher? ==> exists w' :: NextW(ws[k], a.i, KernelReturns, w') && w'.cvL == None
  {
    RunKeepsInv(ws, ss, k);
    assert LHeldBy(ws[k], a);
    if a.Watcher? {
      assert NextW(ws[k], a.i, KernelReturns, ToW(ws[k], a.i, Watching).(cvL := None));
    }
  }
}
