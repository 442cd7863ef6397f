/** Wakeups of readers asleep on the condition variable: exactly when one is lost, and runs that lose it. */
module Wakeups {
  import opened Base
  import opened WatchLocks

  predicate IsBroadcast(s: Step) { s.WatcherStep? && (s.a.Broadcast? || s.a.LastBroadcast?) }

  predicate IsOf(s: Step, r: nat) { s.ReaderStep? && s.i == r }

  // ---------------------------------------------------------------- how a sleeper got there

  predicate AtWait(w: World, r: nat) { AtR(w, r, Queued) || AtR(w, r, Asleep) }

  lemma BeforeWait(w: World, s: Step, w': World, r: nat)
    requires Next(w, s, w') && AtWait(w', r)
    ensures s == ReaderStep(r, Join) ==> AtR(w, r, Joining)
    ensures s != ReaderStep(r, Join) ==> AtWait(w, r) && (IsOf(s, r) ==> s.b == ReleaseL)
  {
  }

  /** A sleeping reader's last joining of the list, since when it has only released L. */
  lemma {:induction false} SleeperJoined(ws: seq<World>, ss: seq<Step>, k: nat, r: nat) returns (j: nat)
    requires Run(ws, ss) && k < |ws| && AtWait(ws[k], r)
    ensures j < k && ss[j] == ReaderStep(r, Join) && AtR(ws[j], r, Joining)
    ensures forall m :: j < m < k && IsOf(ss[m], r) ==> ss[m].b == ReleaseL
  {
    hide Next;
    assert k > 0;
    assert Next(ws[k - 1], ss[k - 1], ws[k]);
    BeforeWait(ws[k - 1], ss[k - 1], ws[k], r);
    if ss[k - 1] == ReaderStep(r, Join) {
      j := k - 1;
    } else {
      j := SleeperJoined(ws, ss, k - 1, r);
    }
  }

  /** A reader about to join the list comes straight from a TryLock that failed. */
  lemma {:induction false} JoinerFailedTryLock(ws: seq<World>, ss: seq<Step>, j: nat, r: nat) returns (n: nat)
    requires Run(ws, ss) && j < |ws| && AtR(ws[j], r, Joining)
    ensures n < j && ss[n] == ReaderStep(r, TryLock) && ws[n].watcherLock.Some?
    ensures forall m :: n < m < j ==> !IsOf(ss[m], r)
  {
    assert j > 0;
    assert Next(ws[j - 1], ss[j - 1], ws[j]);
    if ss[j - 1] == ReaderStep(r, TryLock) {
      n := j - 1;
    } else {
      n := JoinerFailedTryLock(ws, ss, j - 1, r);
    }
  }

  /** From its joining on, a reader that has not joined again is listed as long as nobody broadcasts. */
  lemma {:induction false} ListedUntilBroadcast(ws: seq<World>, ss: seq<Step>, j: nat, k: nat, r: nat)
    requires Run(ws, ss) && j < k < |ws| && ss[j] == ReaderStep(r, Join)
    requires forall m :: j < m < k ==> ss[m] != ReaderStep(r, Join)
    ensures r in ws[k].notify <==> forall m :: j < m < k ==> !IsBroadcast(ss[m])
  {
    assert Next(ws[k - 1], ss[k - 1], ws[k]);
    if j + 1 < k {
      ListedUntilBroadcast(ws, ss, j, k - 1, r);
    }
  }

  // ---------------------------------------------------------------- the lost wakeup, exactly

  predicate AllGone(w: World) { forall i :: i in w.watchers ==> w.watchers[i].Gone? }

  /** A watcher that was in its region and is gone made its last broadcast in between. */
  lemma {:induction false} LastBroadcastBetween(ws: seq<World>, ss: seq<Step>, n: nat, k: nat, i: nat) returns (m: nat)
    requires Run(ws, ss) && n <= k < |ws| && i in ws[n].watchers && (InRegion(ws[n].watchers[i]) || AtW(ws[n], i, Leaving))
    requires AtW(ws[k], i, Gone)
    ensures n <= m < k && ss[m] == WatcherStep(i, LastBroadcast)
    decreases k - n
  {
    assert n < k;
    assert Next(ws[n], ss[n], ws[n + 1]);
    if ss[n] == WatcherStep(i, LastBroadcast) {
      m := n;
    } else {
      m := LastBroadcastBetween(ws, ss, n + 1, k, i);
    }
  }

  /** Why reader r, which failed its TryLock at step n and joined the list at step j, was told by nobody: what
      it took for a watcher at work was another reader, or a watcher that made its last broadcast in between. */
  ghost predicate ToldByNobody(ws: seq<World>, ss: seq<Step>, n: nat, j: nat)
    requires n < j < |ss| && |ws| == |ss| + 1
  {
    && ws[n].watcherLock.Some?
    && match ws[n].watcherLock.value
       case Reader(_) => true
       case Watcher(i) => exists m :: n < m < j && ss[m] == WatcherStep(i, LastBroadcast)
  }

  /** Every sleeping reader failed its TryLock at a step n and joined the list at a step j, and has done no
      more than release L since. It is on the list if and only if nobody has broadcast since j, and can wake up
      otherwise. On the list with no watcher left its wakeup is lost (see SleepsOn); then the holder of
      WatcherLock at n was a reader, or a watcher whose last broadcast lies strictly between n and j. */
  lemma WakeupLostExactly(ws: seq<World>, ss: seq<Step>, k: nat, r: nat) returns (n: nat, j: nat)
    requires Run(ws, ss) && k < |ws| && AtR(ws[k], r, Asleep)
    ensures n < j < k && ss[n] == ReaderStep(r, TryLock) && ss[j] == ReaderStep(r, Join)
    ensures forall m :: n < m < k && m != j && IsOf(ss[m], r) ==> ss[m].b == ReleaseL
    ensures r in ws[k].notify <==> forall m :: j < m < k ==> !IsBroadcast(ss[m])
    ensures r !in ws[k].notify ==> NextR(ws[k], r, Wake, ToR(ws[k], r, WantLAgain))
    ensures AllGone(ws[k]) && r in ws[k].notify ==> ToldByNobody(ws, ss, n, j)
  {
    j := SleeperJoined(ws, ss, k, r);
    n := JoinerFailedTryLock(ws, ss, j, r);
    ListedUntilBroadcast(ws, ss, j, k, r);
    if AllGone(ws[k]) && r in ws[k].notify && ws[n].watcherLock.value.Watcher? {
      HolderWasTooEarly(ws, ss, n, j, k, ws[n].watcherLock.value.i);
    }
  }

  lemma HolderWasTooEarly(ws: seq<World>, ss: seq<Step>, n: nat, j: nat, k: nat, i: nat)
    requires Run(ws, ss) && n < j < k < |ws| && ss[n].ReaderStep? && ss[j].ReaderStep?
    requires ws[n].watcherLock == Some(Watcher(i)) && AllGone(ws[k])
    requires forall m :: j < m < k ==> !IsBroadcast(ss[m])
    ensures exists m :: n < m < j && ss[m] == WatcherStep(i, LastBroadcast)
  {
    RunKeepsInv(ws, ss, n);
    assert WatcherLockHeldBy(ws[n], Watcher(i));
    WatchersStay(ws, ss, n, k, i);
    var m := LastBroadcastBetween(ws, ss, n, k, i);
    assert IsBroadcast(ss[m]);
  }

  lemma {:induction false} WatchersStay(ws: seq<World>, ss: seq<Step>, n: nat, k: nat, i: nat)
    requires Run(ws, ss) && n <= k < |ws| && i in ws[n].watchers
    ensures i in ws[k].watchers
  {
    if n < k {
      WatchersStay(ws, ss, n, k - 1, i);
      assert Next(ws[k - 1], ss[k - 1], ws[k]);
    }
  }

  /** A sleeping reader still on the notify list when no watcher is left sleeps on until a watcher starts. */
  lemma {:induction false} SleepsOn(ws: seq<World>, ss: seq<Step>, k: nat, m: nat, r: nat)
    requires Run(ws, ss) && k <= m < |ws| && AllGone(ws[k]) && AtR(ws[k], r, Asleep) && r in ws[k].notify
    requires forall n :: k <= n < m ==> !ss[n].NewWatcher?
    ensures AllGone(ws[m]) && AtR(ws[m], r, Asleep) && r in ws[m].notify
  {
    if k < m {
      SleepsOn(ws, ss, k, m - 1, r);
      assert Next(ws[m - 1], ss[m - 1], ws[m]);
    }
  }

  // ---------------------------------------------------------------- what can still be woken

  predicate IsArrival(s: Step) { s.NewWatcher? || s.NewReader? }

  /** The actors there are can, in at most n steps, bring about a broadcast that empties the list. */
  ghost predicate CanEmptyIn(w: World, n: nat)
    decreases n
  {
    w.notify == {}
    || (n > 0 && exists s, w' :: Next(w, s, w') && !IsArrival(s) && CanEmptyIn(w', n - 1))
  }

  ghost predicate CanEmpty(w: World) { exists n: nat :: CanEmptyIn(w, n) }

  lemma Onwards(w: World, s: Step, w': World)
    requires Next(w, s, w') && !IsArrival(s) && CanEmpty(w')
    ensures CanEmpty(w)
  {
    hide Next;
    var n: nat :| CanEmptyIn(w', n);
    assert CanEmptyIn(w, n + 1);
  }

  lemma Emptied(w: World)
    requires w.notify == {}
    ensures CanEmpty(w)
  {
    assert CanEmptyIn(w, 0);
  }

  lemma FromWatching(w: World, i: nat)
    requires AtW(w, i, Watching) || AtW(w, i, Leaving)
    ensures CanEmpty(w)
  {
    hide CanEmpty;
    var w' := if AtW(w, i, Watching) then w.(notify := {}) else ToW(w, i, Gone).(notify := {});
    Emptied(w');
    Onwards(w, WatcherStep(i, if AtW(w, i, Watching) then Broadcast else LastBroadcast), w');
  }

  lemma FromInRead(w: World, i: nat)
    requires AtW(w, i, InRead)
    ensures CanEmpty(w)
  {
    hide CanEmpty;
    var w' := ToW(w, i, Watching).(cvL := None);
    FromWatching(w', i);
    Onwards(w, WatcherStep(i, KernelReturns), w');
  }

  lemma FromFreeL(w: World, i: nat)
    requires AtW(w, i, WantL) && w.cvL == None
    ensures CanEmpty(w)
  {
    hide CanEmpty;
    var w' := ToW(w, i, InRead).(cvL := Some(Watcher(i)));
    FromInRead(w', i);
    Onwards(w, WatcherStep(i, WatcherAction.TakeL), w');
  }

  /** A reader that holds L while a watcher is at work gets to releasing it, on its own. */
  lemma FromTakenL(w: World, i: nat, r: nat)
    requires AtW(w, i, WantL) && w.watcherLock.Some? && r in w.readers
    requires match w.readers[r]
             case LeavingInner => true case Rereading => true
             case Queued => true case Joining => true case Trying => true
             case _ => false
    ensures CanEmpty(w)
    decreases match w.readers[r] case Trying => 2 case Joining => 1 case Rereading => 1 case _ => 0
  {
    hide CanEmpty;
    match w.readers[r] {
      case LeavingInner =>
        FromFreeL(ToR(w, r, Deciding).(cvL := None), i);
        Onwards(w, ReaderStep(r, ReleaseLAndLeave), ToR(w, r, Deciding).(cvL := None));
      case Queued =>
        FromFreeL(ToR(w, r, Asleep).(cvL := None), i);
        Onwards(w, ReaderStep(r, ReleaseL), ToR(w, r, Asleep).(cvL := None));
      case Rereading =>
        FromTakenL(ToR(w, r, LeavingInner), i, r);
        Onwards(w, ReaderStep(r, ReadAt(true)), ToR(w, r, LeavingInner));
      case Joining =>
        FromTakenL(ToR(w, r, Queued).(notify := w.notify + {r}), i, r);
        Onwards(w, ReaderStep(r, Join), ToR(w, r, Queued).(notify := w.notify + {r}));
      case Trying =>
        FromTakenL(ToR(w, r, Joining), i, r);
        Onwards(w, ReaderStep(r, TryLock), ToR(w, r, Joining));
    }
  }

  lemma FromRegion(w: World, i: nat)
    requires Inv(w) && i in w.watchers && InRegion(w.watchers[i])
    ensures CanEmpty(w)
  {
    hide CanEmpty;
    assert WatcherLockHeldBy(w, Watcher(i));
    match w.watchers[i] {
      case Watching => FromWatching(w, i);
      case InRead => FromInRead(w, i);
      case WantL =>
        if w.cvL == None {
          FromFreeL(w, i);
        } else {
          var a := w.cvL.value;
          assert LHeldBy(w, a);
          match a {
            case Watcher(m) => FromInRead(w, m);
            case Reader(r) =>
              assert WatcherLockHeldBy(w, a) <==> w.watcherLock == Some(a);
              FromTakenL(w, i, r);
          }
        }
    }
  }

  lemma FromWantLock(w: World, i: nat)
    requires Inv(w) && AtW(w, i, WantWatcherLock)
    ensures CanEmpty(w)
  {
    hide CanEmpty;
    if w.watcherLock == None {
      FromWatching(ToW(w, i, Watching).(watcherLock := Some(Watcher(i))), i);
      Onwards(w, WatcherStep(i, TakeLock), ToW(w, i, Watching).(watcherLock := Some(Watcher(i))));
    } else {
      var a := w.watcherLock.value;
      assert WatcherLockHeldBy(w, a);
      match a {
        case Watcher(m) => FromRegion(w, m);
        case Reader(r) =>
          var back := w.readers[r].HasBoth?;
          var w1 := ToR(w, r, if back then LeavingInner else Returned).(watcherLock := None);
          var w2 := ToW(w1, i, Watching).(watcherLock := Some(Watcher(i)));
          FromWatching(w2, i);
          Onwards(w1, WatcherStep(i, TakeLock), w2);
          Onwards(w, ReaderStep(r, if back then GiveBack else Return), w1);
      }
    }
  }

  lemma FromStarting(w: World, i: nat)
    requires Inv(w) && AtW(w, i, Starting)
    ensures CanEmpty(w)
  {
    hide CanEmpty, Inv;
    var w' := ToW(w, i, WantWatcherLock);
    WatcherStepKeepsInv(w, i, AskLock, w');
    FromWantLock(w', i);
    Onwards(w, WatcherStep(i, AskLock), w');
  }

  lemma {:induction false} NeverEmptied(w: World, r: nat, n: nat)
    requires AllGone(w) && AtR(w, r, Asleep) && r in w.notify
    ensures !CanEmptyIn(w, n)
    decreases n
  {
    if n > 0 {
      forall s, w' | Next(w, s, w') && !IsArrival(s) ensures !CanEmptyIn(w', n - 1) {
        NeverEmptied(w', r, n - 1);
      }
    }
  }

  /** In every reachable state the wakeup of a listed sleeper is beyond the reach of the watchers there are,
      whatever the readers do, exactly when all watchers are gone; as long as one is not, wherever it is in its
      course, some further steps of those present empty the list. */
  lemma WokenUnlessAllGone(ws: seq<World>, ss: seq<Step>, k: nat, r: nat)
    requires Run(ws, ss) && k < |ws| && AtR(ws[k], r, Asleep) && r in ws[k].notify
    ensures CanEmpty(ws[k]) <==> !AllGone(ws[k])
  {
    hide CanEmpty, CanEmptyIn, Inv;
    var w := ws[k];
    if AllGone(w) {
      forall n: nat ensures !CanEmptyIn(w, n) {
        NeverEmptied(w, r, n);
      }
      NoWay(w);
    } else {
      RunKeepsInv(ws, ss, k);
      var i :| i in w.watchers && !w.watchers[i].Gone?;
      match w.watchers[i] {
        case Starting => FromStarting(w, i);
        case WantWatcherLock => FromWantLock(w, i);
        case Leaving => FromWatching(w, i);
        case _ => FromRegion(w, i);
      }
    }
  }

  lemma NoWay(w: World)
    requires forall n: nat :: !CanEmptyIn(w, n)
    ensures !CanEmpty(w)
  {
  }

  // ---------------------------------------------------------------- coming to rest

  /** Some actor there is can take a step that changes the state. */
  ghost predicate SomebodyCanMove(w: World) { exists s, w' :: Next(w, s, w') && !IsArrival(s) && w' != w }

  /** Every watcher is gone, and every reader has returned, or sleeps and is on the list. */
  predicate AtRest(w: World) {
    && AllGone(w)
    && forall r :: r in w.readers ==> w.readers[r].Returned? || (w.readers[r].Asleep? && r in w.notify)
  }

  lemma HolderOfLMoves(w: World)
    requires Inv(w) && w.cvL.Some?
    ensures SomebodyCanMove(w)
  {
    var a := w.cvL.value;
    assert LHeldBy(w, a);
    match a {
      case Watcher(i) =>
        assert Next(w, WatcherStep(i, KernelReturns), ToW(w, i, Watching).(cvL := None));
      case Reader(r) => ReaderHoldingLMoves(w, r);
    }
  }

  lemma ReaderHoldingLMoves(w: World, r: nat)
    requires Inv(w) && LHeldBy(w, Reader(r))
    ensures SomebodyCanMove(w)
  {
    assert WatcherLockHeldBy(w, Reader(r)) <==> w.watcherLock == Some(Reader(r));
    match w.readers[r] {
      case Trying =>
        var w' := ToR(w, r, if w.watcherLock == None then HasBoth else Joining).(watcherLock := TryFor(w, r));
        assert AtR(w', r, HasBoth) || AtR(w', r, Joining);
        assert Next(w, ReaderStep(r, TryLock), w');
      case HasBoth =>
        assert Next(w, ReaderStep(r, GiveBack), ToR(w, r, LeavingInner).(watcherLock := None));
      case Joining =>
        var w' := ToR(w, r, Queued).(notify := w.notify + {r});
        assert AtR(w', r, Queued);
        assert Next(w, ReaderStep(r, Join), w');
      case Queued =>
        assert Next(w, ReaderStep(r, ReleaseL), ToR(w, r, Asleep).(cvL := None));
      case Rereading =>
        var w' := ToR(w, r, LeavingInner);
        assert AtR(w', r, LeavingInner);
        assert Next(w, ReaderStep(r, ReadAt(true)), w');
      case LeavingInner =>
        assert Next(w, ReaderStep(r, ReleaseLAndLeave), ToR(w, r, Deciding).(cvL := None));
    }
  }

  lemma WatcherMoves(w: World, i: nat)
    requires Inv(w) && i in w.watchers && !w.watchers[i].Gone? && !w.watchers[i].WantWatcherLock?
    ensures SomebodyCanMove(w)
  {
    match w.watchers[i] {
      case Starting =>
        assert AtW(ToW(w, i, Gone), i, Gone);
        assert Next(w, WatcherStep(i, GiveUp), ToW(w, i, Gone));
      case Watching =>
        var w' := ToW(w, i, Leaving).(watcherLock := None);
        assert AtW(w', i, Leaving);
        assert Next(w, WatcherStep(i, Leave), w');
      case WantL =>
        if w.cvL == None {
          assert Next(w, WatcherStep(i, WatcherAction.TakeL), ToW(w, i, InRead).(cvL := Some(Watcher(i))));
        } else {
          HolderOfLMoves(w);
        }
      case InRead =>
        assert LHeldBy(w, Watcher(i));
        HolderOfLMoves(w);
      case Leaving =>
        var w' := ToW(w, i, Gone).(notify := {});
        assert AtW(w', i, Gone);
        assert Next(w, WatcherStep(i, LastBroadcast), w');
    }
  }

  lemma WantingWatcherMoves(w: World, i: nat)
    requires Inv(w) && AtW(w, i, WantWatcherLock)
    ensures SomebodyCanMove(w)
  {
    if w.watcherLock == None {
      assert Next(w, WatcherStep(i, TakeLock), ToW(w, i, Watching).(watcherLock := Some(Watcher(i))));
    } else {
      var a := w.watcherLock.value;
      assert WatcherLockHeldBy(w, a);
      match a {
        case Watcher(m) => WatcherMoves(w, m);
        case Reader(r) => ReaderMoves(w, r);
      }
    }
  }

  lemma ReaderMoves(w: World, r: nat)
    requires Inv(w) && r in w.readers && !w.readers[r].Returned? && !(w.readers[r].Asleep? && r in w.notify)
    ensures SomebodyCanMove(w)
  {
    var pc := w.readers[r];
    if pc.WantFirstL? || pc.WantLAgain? {
      if w.cvL.Some? {
        HolderOfLMoves(w);
      } else if pc.WantFirstL? {
        assert Next(w, ReaderStep(r, ReaderAction.TakeL), ToR(w, r, Trying).(cvL := Some(Reader(r))));
      } else {
        assert Next(w, ReaderStep(r, RetakeL), ToR(w, r, Rereading).(cvL := Some(Reader(r))));
      }
    } else if pc.Asleep? {
      assert AtR(ToR(w, r, WantLAgain), r, WantLAgain);
      assert Next(w, ReaderStep(r, Wake), ToR(w, r, WantLAgain));
    } else if pc.Top? || pc.Deciding? {
      assert AtR(ToR(w, r, Returned), r, Returned);
      assert Next(w, ReaderStep(r, Return), ToR(w, r, Returned));
    } else if pc.HasWatcherLock? {
      var w' := ToR(w, r, Returned).(watcherLock := None);
      assert AtR(w', r, Returned);
      assert Next(w, ReaderStep(r, Return), w');
    } else {
      ReaderHoldingLMoves(w, r);
    }
  }

  lemma RestIsFinal(w: World, s: Step, w': World)
    requires AtRest(w) && !IsArrival(s)
    ensures !Next(w, s, w')
  {
  }

  /** Watchers and readers never deadlock: in every reachable state none of those present can move exactly when
      every watcher is gone and every reader has returned, or sleeps on a lost wakeup. */
  lemma RestExactly(ws: seq<World>, ss: seq<Step>, k: nat)
    requires Run(ws, ss) && k < |ws|
    ensures !SomebodyCanMove(ws[k]) <==> AtRest(ws[k])
  {
    hide Inv, SomebodyCanMove;
    var w := ws[k];
    RunKeepsInv(ws, ss, k);
    if AtRest(w) {
      NobodyMoves(w);
    } else if i :| i in w.watchers && !w.watchers[i].Gone? {
      if w.watchers[i].WantWatcherLock? { WantingWatcherMoves(w, i); } else { WatcherMoves(w, i); }
    } else {
      var r :| r in w.readers && !w.readers[r].Returned? && !(w.readers[r].Asleep? && r in w.notify);
      ReaderMoves(w, r);
    }
  }

  lemma NobodyMoves(w: World)
    requires AtRest(w)
    ensures !SomebodyCanMove(w)
  {
    forall s, w' | !IsArrival(s) ensures !Next(w, s, w') {
      RestIsFinal(w, s, w');
    }
  }

  // ---------------------------------------------------------------- runs that lose a wakeup

  ghost predicate Reachable(w: World) {
    exists ws, ss :: Run(ws, ss) && ws[|ss|] == w
  }

  lemma StepReachable(w: World, s: Step, w': World)
    requires Reachable(w) && Next(w, s, w')
    ensures Reachable(w')
  {
    var ws, ss :| Run(ws, ss) && ws[|ss|] == w;
    assert Run(ws + [w'], ss + [s]);
  }

  /** A wakeup can be lost: the watcher leaves, broadcasts included, between a reader's failed TryLock and
      its joining the notify list. The reader then sleeps with no watcher left. */
  lemma WakeupCanBeLost() returns (w: World)
    ensures Reachable(w) && AllGone(w) && AtR(w, 0, Asleep) && 0 in w.notify
  {
    hide Reachable;
    var u := ReaderAboutToJoin();
    var w8 := ToW(u, 0, Leaving).(watcherLock := None);
    StepReachable(u, WatcherStep(0, Leave), w8);
    var w9 := ToW(w8, 0, Gone).(notify := {});
    StepReachable(w8, WatcherStep(0, LastBroadcast), w9);
    var w10 := ToR(w9, 0, Queued).(notify := w9.notify + {0});
    StepReachable(w9, ReaderStep(0, Join), w10);
    w := ToR(w10, 0, Asleep).(cvL := None);
    StepReachable(w10, ReaderStep(0, ReleaseL), w);
  }

  lemma ReaderAboutToJoin() returns (w: World)
    ensures Reachable(w) && w == World(map[0 := Watching], map[0 := Joining], Some(Watcher(0)), Some(Reader(0)), {})
  {
    var w0 := World(map[], map[], None, None, {});
    assert Reachable(w0) by { assert Run([w0], []); }
    hide Reachable;
    var w1 := ToW(w0, 0, Starting);
    StepReachable(w0, NewWatcher(0), w1);
    var w2 := ToW(w1, 0, WantWatcherLock);
    StepReachable(w1, WatcherStep(0, AskLock), w2);
    var w3 := ToW(w2, 0, Watching).(watcherLock := Some(Watcher(0)));
    StepReachable(w2, WatcherStep(0, TakeLock), w3);
    var w4 := ToR(w3, 0, Top);
    StepReachable(w3, NewReader(0), w4);
    var w5 := ToR(w4, 0, WantFirstL);
    StepReachable(w4, ReaderStep(0, ReaderAction.AskL), w5);
    var w6 := ToR(w5, 0, Trying).(cvL := Some(Reader(0)));
    StepReachable(w5, ReaderStep(0, ReaderAction.TakeL), w6);
    w := ToR(w6, 0, Joining);
    StepReachable(w6, ReaderStep(0, TryLock), w);
  }

  // --- a reader in place of the watcher

  /** Watchers and readers other than number 0 are where they were. */
  predicate OthersStay(u: World, w: World) {
    && u.watchers.Keys == w.watchers.Keys && (forall i :: i in u.watchers && i != 0 ==> w.watchers[i] == u.watchers[i])
    && u.readers.Keys == w.readers.Keys && (forall i :: i in u.readers && i != 0 ==> w.readers[i] == u.readers[i])
  }

  /** The watcher leaves while reader 0 sleeps, and wakes it. */
  lemma WatcherWakesReader0(u: World) returns (w: World)
    requires Reachable(u) && AtW(u, 0, Watching) && AtR(u, 0, Joining)
    requires u.watcherLock == Some(Watcher(0)) && u.cvL == Some(Reader(0))
    ensures Reachable(w) && OthersStay(u, w) && AtW(w, 0, Gone) && AtR(w, 0, WantLAgain)
    ensures w.watcherLock == None && w.cvL == None && w.notify == {}
  {
    hide Reachable;
    var w1 := ToR(u, 0, Queued).(notify := u.notify + {0});
    StepReachable(u, ReaderStep(0, Join), w1);
    var w2 := ToR(w1, 0, Asleep).(cvL := None);
    StepReachable(w1, ReaderStep(0, ReleaseL), w2);
    var w3 := ToW(w2, 0, Leaving).(watcherLock := None);
    StepReachable(w2, WatcherStep(0, Leave), w3);
    var w4 := ToW(w3, 0, Gone).(notify := {});
    StepReachable(w3, WatcherStep(0, LastBroadcast), w4);
    w := ToR(w4, 0, WantLAgain);
    StepReachable(w4, ReaderStep(0, Wake), w);
  }

  /** Reader 0, woken, meets the end of the file. */
  lemma Reader0ReadsNothing(u: World) returns (w: World)
    requires Reachable(u) && AtR(u, 0, WantLAgain) && u.watcherLock == None && u.cvL == None && u.notify == {}
    ensures Reachable(w) && OthersStay(u, w) && w.watchers == u.watchers && AtR(w, 0, Trying)
    ensures w.watcherLock == None && w.cvL == Some(Reader(0)) && w.notify == {}
  {
    hide Reachable;
    var w1 := ToR(u, 0, Rereading).(cvL := Some(Reader(0)));
    StepReachable(u, ReaderStep(0, RetakeL), w1);
    w := ToR(w1, 0, Trying);
    StepReachable(w1, ReaderStep(0, ReadAt(false)), w);
  }

  /** Its first TryLock succeeds, so it leaves the inner loop. */
  lemma Reader0Leaves(u: World) returns (w: World)
    requires Reachable(u) && AtR(u, 0, Trying) && u.watcherLock == None && u.cvL == Some(Reader(0)) && u.notify == {}
    ensures Reachable(w) && OthersStay(u, w) && w.watchers == u.watchers && AtR(w, 0, Deciding)
    ensures w.watcherLock == None && w.cvL == None && w.notify == {}
  {
    hide Reachable;
    var w1 := ToR(u, 0, HasBoth).(watcherLock := Some(Reader(0)));
    StepReachable(u, ReaderStep(0, TryLock), w1);
    var w2 := ToR(w1, 0, LeavingInner).(watcherLock := None);
    StepReachable(w1, ReaderStep(0, GiveBack), w2);
    w := ToR(w2, 0, Deciding).(cvL := None);
    StepReachable(w2, ReaderStep(0, ReleaseLAndLeave), w);
  }

  /** From its Wait to inside its second TryLock, by way of the end of the file: it holds WatcherLock. */
  lemma Reader0TriesTwice(u: World) returns (w: World)
    requires Reachable(u) && AtW(u, 0, Watching) && AtR(u, 0, Joining)
    requires u.watcherLock == Some(Watcher(0)) && u.cvL == Some(Reader(0))
    ensures Reachable(w) && OthersStay(u, w) && AtW(w, 0, Gone) && AtR(w, 0, HasWatcherLock)
    ensures w.watcherLock == Some(Reader(0)) && w.cvL == None && w.notify == {}
  {
    hide Reachable;
    var w1 := WatcherWakesReader0(u);
    var w2 := Reader0ReadsNothing(w1);
    var w3 := Reader0Leaves(w2);
    w := ToR(w3, 0, HasWatcherLock).(watcherLock := Some(Reader(0)));
    StepReachable(w3, ReaderStep(0, TryAgain), w);
  }

  /** A reader can be the cause too: reader 1's TryLock fails only because reader 0 is inside its own second
      TryLock, long after the last broadcast. Reader 0 returns and reader 1 sleeps with no watcher left. */
  lemma ReaderCanCostAWakeup() returns (w: World)
    ensures Reachable(w) && AllGone(w) && AtR(w, 0, Returned) && AtR(w, 1, Asleep) && 1 in w.notify
  {
    hide Reachable;
    var u0 := ReaderAboutToJoin();
    StepReachable(u0, NewReader(1), ToR(u0, 1, Top));
    var u := Reader0TriesTwice(ToR(u0, 1, Top));
    w := Reader1FallsAsleep(u);
  }

  lemma Reader1FallsAsleep(u: World) returns (w: World)
    requires Reachable(u) && AllGone(u) && AtR(u, 0, HasWatcherLock) && AtR(u, 1, Top)
    requires u.watcherLock == Some(Reader(0)) && u.cvL == None
    ensures Reachable(w) && AllGone(w) && AtR(w, 0, Returned) && AtR(w, 1, Asleep) && 1 in w.notify
  {
    hide Reachable;
    var w1 := ToR(u, 1, WantFirstL);
    StepReachable(u, ReaderStep(1, ReaderAction.AskL), w1);
    var w2 := ToR(w1, 1, Trying).(cvL := Some(Reader(1)));
    StepReachable(w1, ReaderStep(1, ReaderAction.TakeL), w2);
    var w3 := ToR(w2, 1, Joining);
    StepReachable(w2, ReaderStep(1, TryLock), w3);
    var w4 := ToR(w3, 1, Queued).(notify := w3.notify + {1});
    StepReachable(w3, ReaderStep(1, Join), w4);
    var w5 := ToR(w4, 1, Asleep).(cvL := None);
    StepReachable(w4, ReaderStep(1, ReleaseL), w5);
    w := ToR(w5, 0, Returned).(watcherLock := None);
    StepReachable(w5, ReaderStep(0, Return), w);
  }

  // ---------------------------------------------------------------- what a successful stream knows

  /** Watcher i has taken WatcherLock, or has given up before. */
  ghost predicate HadItsTurn(ss: seq<Step>, k: nat, i: nat)
    requires k <= |ss|
  {
    exists m :: 0 <= m < k && (ss[m] == WatcherStep(i, TakeLock) || ss[m] == WatcherStep(i, GiveUp))
  }

  lemma {:induction false} TurnsTaken(ws: seq<World>, ss: seq<Step>, k: nat, i: nat)
    requires Run(ws, ss) && k <= |ss|
    ensures HadItsTurn(ss, k, i) <==> i in ws[k].watchers && !AtW(ws[k], i, Starting) && !AtW(ws[k], i, WantWatcherLock)
  {
    if k > 0 {
      TurnsTaken(ws, ss, k - 1, i);
      assert Next(ws[k - 1], ss[k - 1], ws[k]);
      assert HadItsTurn(ss, k, i) <==>
        HadItsTurn(ss, k - 1, i) || ss[k - 1] == WatcherStep(i, TakeLock) || ss[k - 1] == WatcherStep(i, GiveUp);
    }
  }

  /** A reader's second TryLock succeeds only while no watcher is in its region, but there is one lock for the
      watchers of all jobs: that the watcher of the reader's own job is done follows if and only if that watcher
      had its turn before. */
  lemma SuccessMeansWatcherDoneExactly(ws: seq<World>, ss: seq<Step>, k: nat, r: nat, i: nat)
    requires Run(ws, ss) && k < |ss| && ss[k] == ReaderStep(r, TryAgain) && AtR(ws[k + 1], r, HasWatcherLock)
    ensures forall m :: m in ws[k].watchers ==> !InRegion(ws[k].watchers[m])
    ensures AtW(ws[k], i, Leaving) || AtW(ws[k], i, Gone) <==> HadItsTurn(ss, k, i)
  {
    hide HadItsTurn;
    RunKeepsInv(ws, ss, k);
    assert Next(ws[k], ss[k], ws[k + 1]);
    TurnsTaken(ws, ss, k, i);
    forall m | m in ws[k].watchers ensures !InRegion(ws[k].watchers[m]) {
      assert WatcherLockHeldBy(ws[k], Watcher(m)) <==> ws[k].watcherLock == Some(Watcher(m));
    }
  }

  /** Otherwise it need not be: in the gap between another job's watcher, 0, and its own, 1, a reader meets the
      end of its file and returns with success, and its watcher only then begins. */
  lemma StreamCanEndBeforeItsWatcherBegins() returns (w: World)
    ensures Reachable(w) && AtR(w, 0, Returned) && AtW(w, 1, Watching)
  {
    hide Reachable;
    var u := ReaderAboutToJoin();
    var w1 := ToW(u, 1, Starting);
    StepReachable(u, NewWatcher(1), w1);
    var w2 := ToW(w1, 1, WantWatcherLock);
    StepReachable(w1, WatcherStep(1, AskLock), w2);
    var w3 := Reader0TriesTwice(w2);
    var w4 := ToR(w3, 0, Returned).(watcherLock := None);
    StepReachable(w3, ReaderStep(0, Return), w4);
    w := ToW(w4, 1, Watching).(watcherLock := Some(Watcher(1)));
    StepReachable(w4, WatcherStep(1, TakeLock), w);
  }
}
