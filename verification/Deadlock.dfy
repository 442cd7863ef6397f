/** Who can be stuck: exactly when the holder of the mutex is, and where everybody else's waiting ends. */
module Deadlock {
  import opened Base
  import opened JobModel
  import opened JobLifecycle
  import opened LifecycleInvariant
  import opened LifecycleGrowth
  import opened LifecycleTheorems
  import opened StopTheorems
  import opened ProgressTheorems
  import opened StopLimits
  import opened OverrideStop

  // ---------------------------------------------------------------- actors and their own steps

  /** The step is one that this actor makes. The exit of a process is nobody's. */
  predicate Own(s: Step, x: Actor) {
    match x
    case Caller(t) => CallOf(s) == Some(t)
    case Goroutine(j) =>
      (s.Reap? || s.WaiterRemoves? || s.WaiterLocks? || s.WaiterUpdates? || s.WaiterUnlocks?) && s.j == j
  }

  predicate CallEnded(c: Call) {
    match c
    case StartCall(_, _, _, spc) => spc.Started? || spc.StartFailed?
    case Query(_, pc) => pc.Done?
  }

  predicate UnfinishedActor(w: World, x: Actor) {
    match x
    case Caller(t) => t in w.calls && !CallEnded(w.calls[t])
    case Goroutine(j) => j in w.waiters && !w.waiters[j].Finished?
  }

  predicate WantsToWrite(w: World, x: Actor) {
    match x
    case Caller(t) =>
      t in w.calls && (match w.calls[t]
                       case StartCall(_, _, _, spc) => spc.HasProc?
                       case Query(req, pc) => pc.Copied? && req.op == Stop)
    case Goroutine(j) => j in w.waiters && w.waiters[j].WantLock?
  }

  predicate WantsToRead(w: World, x: Actor) {
    && x.Caller? && AtQuery(w, x.t)
    && ((w.calls[x.t].pc.WantFind? && Passes(w.calls[x.t].req)) || w.calls[x.t].pc.WantCopy?)
  }

  ghost predicate WriterWaits(w: World) { exists x :: WantsToWrite(w, x) }

  /** Giving up, on the part of a call whose arguments pass the checks: always possible, and no way out. */
  predicate GivesUp(w: World, s: Step) {
    match s
    case StartFails(t) => AtStart(w, t) && w.calls[t].client != "" && w.calls[t].command != ""
    case QueryFails(t) => AtQuery(w, t) && Passes(w.calls[t].req)
    case _ => false
  }

  /** A step that changes the state, gives nothing up, and takes no read lock past a waiting writer. */
  ghost predicate Advances(w: World, s: Step, w': World) {
    Next(w, s, w') && w' != w && !GivesUp(w, s) && (s.ReadLock? ==> !WriterWaits(w))
  }

  // ---------------------------------------------------------------- the holder of the mutex

  /** A Stop that polls a live process which nobody has killed. */
  predicate Stuck(w: World, a: Actor) {
    a.Caller? && AtStage(w, a.t) && w.calls[a.t].pc.stage.Poll? && w.procs[w.calls[a.t].req.id] == Alive(false)
  }

  /** A step of the actor's own, or, for a Stop that polls, the reap of the zombie it polls, or the end of the
      process it polls if that has been killed. */
  predicate Serves(w: World, a: Actor, s: Step) {
    || Own(s, a)
    || (a.Caller? && (s.Reap? || s.Exit?) && PollsFor(w, a.t, s.j)
        && (if s.Reap? then w.procs[s.j].Zombie? else w.procs[s.j] == Alive(true)))
  }

  ghost predicate Served(w: World, a: Actor) {
    exists s, w' :: Advances(w, s, w') && Serves(w, a, s)
  }

  lemma FreshId(used: set<JobId>) returns (id: JobId)
    ensures id !in used && id != ""
  {
    id := "x";
    var rest := used;
    while rest != {}
      invariant id != "" && rest <= used
      invariant forall u :: u in used && u !in rest ==> |u| < |id|
      decreases |rest|
    {
      var u :| u in rest;
      rest := rest - {u};
      if |u| >= |id| {
        id := u + "x";
      }
    }
  }

  lemma Prepares(w: World, t: nat) returns (s: Step, w': World)
    requires AtStart(w, t) && w.calls[t].spc.Preparing?
    ensures NextStart(w, s, w') && w'.calls != w.calls && CallOf(s) == Some(t) && !GivesUp(w, s)
  {
    if w.calls[t].client != "" && w.calls[t].command != "" {
      var id := FreshId(w.issued.Keys);
      s, w' := MakeDir(t, id), DoMakeDir(w, t, id);
    } else {
      s, w' := StartFails(t), DoStartFails(w, t);
    }
  }

  lemma Registers(w: World, t: nat) returns (s: Step, w': World)
    requires AtStart(w, t) && (w.calls[t].spc.StartLocked? || w.calls[t].spc.Registered?)
    ensures NextStart(w, s, w') && w'.calls != w.calls && CallOf(s) == Some(t) && !GivesUp(w, s)
  {
    if w.calls[t].spc.StartLocked? {
      s, w' := Register(t), DoRegister(w, t);
    } else {
      s, w' := StartUnlocks(t), DoStartUnlocks(w, t);
    }
  }

  lemma StartMoves(w: World, t: nat) returns (s: Step, w': World)
    requires AtStart(w, t) && !CallEnded(w.calls[t]) && (w.calls[t].spc.HasProc? ==> WriteFree(w)) && w.clock > 0
    ensures NextStart(w, s, w') && w'.calls != w.calls && CallOf(s) == Some(t) && !GivesUp(w, s)
    ensures w.calls[t].spc.HasProc? ==> w'.mu.writer == Some(Caller(t))
  {
    match w.calls[t].spc
    case Preparing => s, w' := Prepares(w, t);
    case HasDir(_) => s, w' := Spawn(t, 1, "", w.clock), DoSpawn(w, t, 1, "", w.clock);
    case HasProc(_) => s, w' := StartLocks(t), DoStartLocks(w, t);
    case _ => s, w' := Registers(w, t);
  }

  lemma Releases(w: World, t: nat) returns (s: Step, w': World)
    requires AtQuery(w, t) && CallReads(w.calls[t]) && (w.calls[t].pc.Copying? ==> w.calls[t].req.id in w.jobs)
    ensures NextRead(w, s, w') && w'.calls != w.calls && CallOf(s) == Some(t) && !GivesUp(w, s) && !s.ReadLock?
    ensures w'.mu.readers == w.mu.readers - {t}
  {
    if w.calls[t].pc.Finding? {
      s, w' := FindJob(t), DoFindJob(w, t);
    } else {
      s, w' := CopyJob(t), DoCopyJob(w, t);
    }
  }

  lemma ReadMoves(w: World, t: nat) returns (s: Step, w': World)
    requires AtQuery(w, t) && !CallEnded(w.calls[t]) && !w.calls[t].pc.Stopping? && !w.calls[t].pc.Returning?
    requires w.calls[t].pc.Copied? ==> w.calls[t].req.op != Stop
    requires w.calls[t].pc.Copying? ==> w.calls[t].req.id in w.jobs
    requires WantsToRead(w, Caller(t)) ==> w.mu.writer == None
    ensures NextRead(w, s, w') && w'.calls != w.calls && CallOf(s) == Some(t) && !GivesUp(w, s)
    ensures s.ReadLock? ==> WantsToRead(w, Caller(t))
  {
    match w.calls[t].pc
    case WantFind =>
      if Passes(w.calls[t].req) {
        s, w' := ReadLock(t), DoReadLock(w, t);
      } else {
        s, w' := QueryFails(t), DoQueryFails(w, t);
      }
    case WantCopy => s, w' := ReadLock(t), DoReadLock(w, t);
    case Finding => s, w' := Releases(w, t);
    case Copying => s, w' := Releases(w, t);
    case Copied(_, _) => s, w' := ReaderReturns(t), DoReaderReturns(w, t);
  }

  lemma EarlyStageMoves(w: World, t: nat) returns (s: Step, w': World)
    requires AtStage(w, t) && !w.calls[t].pc.stage.Remove? && !w.calls[t].pc.stage.Update?
    requires w.calls[t].pc.stage.Poll? ==> w.procs[w.calls[t].req.id].Reaped?
    ensures NextStop(w, s, w') && w'.calls != w.calls && CallOf(s) == Some(t)
  {
    match w.calls[t].pc.stage
    case Check => s, w' := StopChecks(t), DoStopChecks(w, t);
    case Kill => s, w' := StopKills(t, true), DoStopKills(w, t, true);
    case Poll => s, w' := StopPolls(t), DoStopPolls(w, t);
  }

  lemma StageMoves(w: World, t: nat) returns (s: Step, w': World)
    requires AtStage(w, t) && w.clock > 0
    requires w.calls[t].pc.stage.Poll? ==> w.procs[w.calls[t].req.id].Reaped?
    ensures NextStop(w, s, w') && w'.calls != w.calls && CallOf(s) == Some(t)
  {
    match w.calls[t].pc.stage
    case Remove(_) => s, w' := StopRemoves(t, true), DoStopRemoves(w, t, true);
    case Update => s, w' := StopUpdates(t, w.clock, w.clock), DoStopUpdates(w, t, w.clock, w.clock);
    case _ => s, w' := EarlyStageMoves(w, t);
  }

  lemma StopMoves(w: World, t: nat) returns (s: Step, w': World)
    requires AtQuery(w, t) && w.clock > 0
    requires w.calls[t].pc.Stopping? || w.calls[t].pc.Returning? || (WantsToWrite(w, Caller(t)) && WriteFree(w))
    requires w.calls[t].pc.Stopping? ==> AtStage(w, t)
    requires w.calls[t].pc.Stopping? && w.calls[t].pc.stage.Poll? ==> w.procs[w.calls[t].req.id].Reaped?
    ensures NextStop(w, s, w') && w'.calls != w.calls && CallOf(s) == Some(t)
    ensures WantsToWrite(w, Caller(t)) ==> w'.mu.writer == Some(Caller(t))
  {
    if w.calls[t].pc.Copied? {
      s, w' := StopLocks(t), DoStopLocks(w, t);
    } else if w.calls[t].pc.Returning? {
      s, w' := StopUnlocks(t), DoStopUnlocks(w, t);
    } else {
      s, w' := StageMoves(w, t);
    }
  }

  lemma WaiterMoves(w: World, j: JobId) returns (s: Step, w': World)
    requires AtWaiter(w, j) && !w.waiters[j].Finished? && (w.waiters[j].WantLock? ==> WriteFree(w))
    requires w.waiters[j].Waiting? ==> w.procs[j].Zombie?
    ensures NextWaiter(w, s, w') && w' != w && Own(s, Goroutine(j))
    ensures w.waiters[j].WantLock? ==> w'.mu.writer == Some(Goroutine(j))
  {
    match w.waiters[j]
    case Waiting => s, w' := Reap(j), DoReap(w, j);
    case Removing(_, _) => s, w' := WaiterRemoves(j, true), DoWaiterRemoves(w, j, true);
    case WantLock(_, _) => s, w' := WaiterLocks(j), DoWaiterLocks(w, j);
    case HasLock(_, _) => s, w' := WaiterUpdates(j, w.clock), DoWaiterUpdates(w, j, w.clock);
    case Updated(_, _) => s, w' := WaiterUnlocks(j), DoWaiterUnlocks(w, j);
  }

  ghost predicate Facts(w: World) {
    && LockInv(w) && ProcInv(w)
    && (forall t :: t in w.calls ==> CallInv(w, t))
    && (forall j :: j in w.jobs ==> JobInv(w, j))
  }

  lemma RunFacts(ws: seq<World>, ss: seq<Step>, i: nat)
    requires Run(ws, ss) && i < |ws|
    ensures Facts(ws[i])
  {
    hide Inv, LockInv, ProcInv, CallInv, JobInv, Next;
    RunKeepsInv(ws, ss, i);
    InvParts(ws[i]);
  }

  lemma PolledFacts(w: World, t: nat)
    requires Facts(w) && AtStage(w, t) && w.calls[t].pc.stage.Poll?
    ensures var j := w.calls[t].req.id;
            && AtWaiter(w, j) && (w.waiters[j].Waiting? <==> !w.procs[j].Reaped?)
            && (w.procs[j] == Alive(false) ==> w.calls[t].req.override && w.calls[t].req.client != w.jobs[j].client)
  {
    hide LockInv, ProcInv, Chain, IsVersion, Settled, BeingWritten;
    assert CallInv(w, t) && JobInv(w, w.calls[t].req.id);
  }

  /** What a polling Stop waits for comes closer to being reaped, unless the Stop is stuck. */
  lemma PolledMoves(w: World, t: nat) returns (s: Step, w': World)
    requires Facts(w) && AtStage(w, t) && w.calls[t].pc.stage.Poll? && !w.procs[w.calls[t].req.id].Reaped?
    requires !Stuck(w, Caller(t))
    ensures Advances(w, s, w') && Serves(w, Caller(t), s)
  {
    hide Facts;
    var j := w.calls[t].req.id;
    PolledFacts(w, t);
    if w.procs[j].Zombie? {
      s, w' := WaiterMoves(w, j);
    } else {
      s, w' := Exit(j, Exited(0)), DoExit(w, j, Exited(0));
    }
  }

  lemma HolderAtStage(w: World, a: Actor)
    requires Facts(w) && w.mu.writer == Some(a)
    ensures a.Caller? ==> a.t in w.calls && CallWrites(w.calls[a.t]) && !WantsToRead(w, a) && !WantsToWrite(w, a)
    ensures a.Caller? && w.calls[a.t].Query? && w.calls[a.t].pc.Stopping? ==> AtStage(w, a.t)
    ensures a.Goroutine? ==> AtWaiter(w, a.j) && WaiterWrites(w.waiters[a.j])
    ensures w.clock > 0
  {
    hide JobInv, Chain, IsVersion;
    if a.Caller? { assert CallInv(w, a.t); }
  }

  lemma HolderMoves(w: World, a: Actor) returns (s: Step, w': World)
    requires Facts(w) && w.mu.writer == Some(a) && !Stuck(w, a)
    ensures Advances(w, s, w') && Serves(w, a, s)
  {
    hide Facts, WriterWaits;
    HolderAtStage(w, a);
    match a
    case Goroutine(j) => s, w' := WaiterMoves(w, j);
    case Caller(t) =>
      if w.calls[t].StartCall? {
        s, w' := StartMoves(w, t);
      } else if w.calls[t].pc.Stopping? && w.calls[t].pc.stage.Poll? && !w.procs[w.calls[t].req.id].Reaped? {
        s, w' := PolledMoves(w, t);
      } else {
        s, w' := StopMoves(w, t);
      }
  }

  lemma StuckHasNoStep(w: World, a: Actor, s: Step, w': World)
    requires Stuck(w, a) && Next(w, s, w') && Serves(w, a, s)
    ensures w' == w
  {
    hide Publish, AddToIndex, StopRecord, FinishRecord, ProcsKilled;
    if Own(s, a) {
      assert s.StopPolls?;
      assert w.calls[a.t := w.calls[a.t]] == w.calls;
    }
  }

  /** While somebody holds the mutex for writing, the holder can advance by a step of its own, or be served with
      the reap, or the end after a kill, of the process it polls, exactly when it is not a Stop polling a live
      process that nobody has killed. Such a Stop overrides, and is not made in the owner's name. */
  lemma HolderIsServedExactly(ws: seq<World>, ss: seq<Step>, i: nat, a: Actor)
    requires Run(ws, ss) && i < |ws| && ws[i].mu.writer == Some(a)
    ensures Served(ws[i], a) <==> !Stuck(ws[i], a)
    ensures Stuck(ws[i], a) ==> var req := ws[i].calls[a.t].req; req.override && req.client != ws[i].jobs[req.id].client
  {
    hide Facts, Next, Run, WriterWaits, Serves;
    var w := ws[i];
    RunFacts(ws, ss, i);
    if Stuck(w, a) {
      PolledFacts(w, a.t);
      forall s, w' | Advances(w, s, w') && Serves(w, a, s) ensures false {
        StuckHasNoStep(w, a, s, w');
      }
    } else {
      var s, w' := HolderMoves(w, a);
    }
  }

  // ---------------------------------------------------------------- a stuck holder stays stuck

  /** A stuck holder goes on polling, with the mutex. */
  predicate KeepsPolling(w: World, w': World, a: Actor) {
    Stuck(w, a) && w.mu.writer == Some(a) ==> w'.mu == w.mu && PollsFor(w', a.t, w.calls[a.t].req.id)
                                              && w'.calls[a.t].req == w.calls[a.t].req
  }

  lemma StartPasses(w: World, s: Step, w': World, a: Actor)
    requires NextStart(w, s, w') && LockInv(w)
    ensures KeepsPolling(w, w', a)
  {
    hide Publish, AddToIndex, IsBirth;
  }

  lemma ReadPasses(w: World, s: Step, w': World, a: Actor)
    requires NextRead(w, s, w') && LockInv(w)
    ensures KeepsPolling(w, w', a)
  {
  }

  lemma StopPasses(w: World, s: Step, w': World, a: Actor)
    requires NextStop(w, s, w') && LockInv(w)
    ensures KeepsPolling(w, w', a)
  {
    hide Publish, StopRecord;
  }

  lemma WaiterPasses(w: World, s: Step, w': World, a: Actor)
    requires NextWaiter(w, s, w') && LockInv(w)
    ensures KeepsPolling(w, w', a)
  {
    hide Publish, FinishRecord;
  }

  lemma StepPasses(w: World, s: Step, w': World, a: Actor)
    requires Next(w, s, w') && LockInv(w)
    ensures KeepsPolling(w, w', a)
  {
    hide Next, NextStart, NextRead, NextStop, NextWaiter, KeepsPolling, LockInv;
    NextIsOneOfFour(w, s, w');
    if NextStart(w, s, w') { StartPasses(w, s, w', a); }
    else if NextRead(w, s, w') { ReadPasses(w, s, w', a); }
    else if NextStop(w, s, w') { StopPasses(w, s, w', a); }
    else { WaiterPasses(w, s, w', a); }
  }

  /** A stuck holder has the mutex, and keeps it and stays stuck until the process it polls ends by itself; till
      then nobody who wants the mutex, for reading or for writing, gets it. */
  lemma {:induction false} StuckUntilExit(ws: seq<World>, ss: seq<Step>, i: nat, k: nat, a: Actor)
    requires Run(ws, ss) && i <= k < |ws| && Stuck(ws[i], a)
    requires forall m :: i <= m < k ==> !(ss[m].Exit? && ss[m].j == ws[i].calls[a.t].req.id)
    ensures Stuck(ws[k], a) && ws[k].mu == ws[i].mu && ws[k].mu.writer == Some(a)
    ensures ws[k].calls[a.t].req == ws[i].calls[a.t].req
  {
    hide Facts, Next, Inv, LockInv, KilledIsPolled;
    RunKeepsInv(ws, ss, i);
    StoppingHoldsLock(ws[i], a.t);
    if i < k {
      StuckUntilExit(ws, ss, i, k - 1, a);
      var w, s, w' := ws[k - 1], ss[k - 1], ws[k];
      assert Next(w, s, w');
      RunFacts(ws, ss, k - 1);
      HolderLocks(w);
      StepPasses(w, s, w', a);
      OnlyExitHelps(w, s, w', a);
      PolledFacts(w, a.t);
      SameRequest(ws, ss, k - 1, k, a.t);
      TerminalAbsorbs(ws, ss, k - 1, k, w.calls[a.t].req.id);
      PollingUnderAnotherName(ws, ss, k, a.t, w.calls[a.t].req.id);
    }
  }

  lemma HolderLocks(w: World)
    requires Facts(w)
    ensures LockInv(w)
  {
  }

  lemma OnlyExitHelps(w: World, s: Step, w': World, a: Actor)
    requires Next(w, s, w') && Stuck(w, a) && !(s.Exit? && s.j == w.calls[a.t].req.id)
    ensures w.calls[a.t].req.id in w'.procs && w'.procs[w.calls[a.t].req.id].Alive?
  {
    hide Next;
    if !Survives(w, w', w.calls[a.t].req.id) {
      OnlyExitEnds(w, s, w', w.calls[a.t].req.id);
    }
  }

  // ---------------------------------------------------------------- where the others' waiting ends

  /** Whom an actor waits for in the end: itself, if it is not blocked; who holds the mutex for writing; with a
      writer blocked too, one of those who hold it for reading; or, with the mutex free, a writer that a reader
      must let go first. */
  ghost predicate WaitEndsAt(w: World, x: Actor, y: Actor) {
    || y == x
    || ((WantsToWrite(w, x) || WantsToRead(w, x)) && w.mu.writer == Some(y))
    || ((WantsToWrite(w, x) || (WantsToRead(w, x) && WriterWaits(w)))
        && w.mu.writer == None && y.Caller? && y.t in w.mu.readers)
    || (WantsToRead(w, x) && WriteFree(w) && WantsToWrite(w, y))
  }

  /** The process a goroutine waits for ends. */
  predicate Ends(w: World, y: Actor, s: Step) {
    && y.Goroutine? && AtWaiter(w, y.j) && w.waiters[y.j].Waiting? && w.procs[y.j].Alive?
    && s.Exit? && s.j == y.j
  }

  /** The step takes y on: a reader out of the mutex, a writer that waits into it if it is free. */
  predicate TakesOn(w: World, y: Actor, s: Step, w': World) {
    && (Serves(w, y, s) || Ends(w, y, s))
    && (y.Caller? && y.t in w.mu.readers ==> w'.mu.readers == w.mu.readers - {y.t})
    && (WantsToWrite(w, y) && WriteFree(w) ==> w'.mu.writer == Some(y))
  }

  lemma ReaderAt(w: World, t: nat)
    requires Facts(w) && t in w.mu.readers
    ensures AtQuery(w, t) && CallReads(w.calls[t]) && (w.calls[t].pc.Copying? ==> w.calls[t].req.id in w.jobs)
    ensures !WantsToWrite(w, Caller(t))
  {
    hide JobInv;
    assert CallInv(w, t);
  }

  lemma ReaderReleases(w: World, t: nat) returns (s: Step, w': World)
    requires Facts(w) && t in w.mu.readers
    ensures Advances(w, s, w') && TakesOn(w, Caller(t), s, w')
  {
    hide Facts, WriterWaits, WantsToWrite;
    ReaderAt(w, t);
    s, w' := Releases(w, t);
  }

  lemma WriterTakes(w: World, y: Actor) returns (s: Step, w': World)
    requires Facts(w) && WantsToWrite(w, y) && WriteFree(w)
    ensures Advances(w, s, w') && TakesOn(w, y, s, w')
  {
    hide Facts, WriterWaits;
    InTheLists(w, y);
    match y
    case Goroutine(j) => s, w' := WaiterMoves(w, j);
    case Caller(t) =>
      if w.calls[t].StartCall? {
        s, w' := StartMoves(w, t);
      } else {
        s, w' := StopMoves(w, t);
      }
  }

  lemma InTheLists(w: World, y: Actor)
    requires Facts(w)
    ensures w.clock > 0 && (y.Goroutine? && y.j in w.waiters ==> AtWaiter(w, y.j))
  {
  }

  /** Where a call is that neither holds the mutex nor wants it, nor polls. */
  lemma Unblocked(w: World, t: nat)
    requires Facts(w) && t in w.calls
    ensures t in w.mu.readers <==> CallReads(w.calls[t])
    ensures w.mu.writer == Some(Caller(t)) <==> CallWrites(w.calls[t])
  {
  }

  /** An actor that is neither blocked on the mutex nor holds it. */
  lemma FreeMoves(w: World, x: Actor) returns (s: Step, w': World)
    requires Facts(w) && UnfinishedActor(w, x) && !WantsToWrite(w, x) && w.mu.writer != Some(x)
    requires x.Caller? ==> x.t !in w.mu.readers
    requires WantsToRead(w, x) ==> w.mu.writer == None && !WriterWaits(w)
    ensures Advances(w, s, w') && TakesOn(w, x, s, w')
  {
    hide Facts, WriterWaits;
    InTheLists(w, x);
    match x
    case Goroutine(j) =>
      WaitingIsUnreaped(w, j);
      if w.waiters[j].Waiting? && w.procs[j].Alive? {
        s, w' := Exit(j, Exited(0)), DoExit(w, j, Exited(0));
      } else {
        s, w' := WaiterMoves(w, j);
      }
    case Caller(t) =>
      Unblocked(w, t);
      if w.calls[t].StartCall? {
        s, w' := StartMoves(w, t);
      } else {
        s, w' := ReadMoves(w, t);
      }
  }

  lemma WaitingIsUnreaped(w: World, j: JobId)
    requires Facts(w) && j in w.waiters
    ensures AtWaiter(w, j) && (w.waiters[j].Waiting? <==> !w.procs[j].Reaped?)
  {
    hide LockInv, CallInv, Chain;
    assert JobInv(w, j);
  }

  /** Unless the holder of the mutex is stuck, every call and goroutine that is not finished waits, in the end,
      for an actor that can be taken on: by a step of its own, or for a goroutine or a polling Stop by what it
      awaits of its process. Nobody has to give up, and no reader goes past a waiting writer. */
  lemma NoDeadlock(ws: seq<World>, ss: seq<Step>, i: nat, x: Actor) returns (y: Actor, s: Step, w': World)
    requires Run(ws, ss) && i < |ws| && UnfinishedActor(ws[i], x)
    requires ws[i].mu.writer.Some? ==> !Stuck(ws[i], ws[i].mu.writer.value)
    ensures WaitEndsAt(ws[i], x, y) && Advances(ws[i], s, w') && TakesOn(ws[i], y, s, w')
  {
    hide Next, Facts, Run, Advances, TakesOn;
    RunFacts(ws, ss, i);
    y, s, w' := WaitEnds(ws[i], x);
  }

  lemma WaitEnds(w: World, x: Actor) returns (y: Actor, s: Step, w': World)
    requires Facts(w) && UnfinishedActor(w, x) && (w.mu.writer.Some? ==> !Stuck(w, w.mu.writer.value))
    ensures WaitEndsAt(w, x, y) && Advances(w, s, w') && TakesOn(w, y, s, w')
  {
    hide Facts, Advances, TakesOn, Stuck, WantsToWrite, WantsToRead, UnfinishedActor;
    y := x;
    var wants := WantsToWrite(w, x) || WantsToRead(w, x);
    if w.mu.writer.Some? && (wants || w.mu.writer == Some(x)) {
      y := w.mu.writer.value;
      s, w' := HolderTakenOn(w, y);
    } else if x.Caller? && x.t in w.mu.readers {
      s, w' := ReaderReleases(w, x.t);
    } else if (WantsToWrite(w, x) || (WantsToRead(w, x) && WriterWaits(w))) && w.mu.readers != {} {
      var t :| t in w.mu.readers;
      y := Caller(t);
      s, w' := ReaderReleases(w, t);
    } else if WantsToWrite(w, x) {
      s, w' := WriterTakes(w, x);
    } else if WantsToRead(w, x) && WriterWaits(w) {
      y :| WantsToWrite(w, y);
      s, w' := WriterTakes(w, y);
    } else {
      s, w' := FreeMoves(w, x);
    }
  }

  lemma HolderTakenOn(w: World, a: Actor) returns (s: Step, w': World)
    requires Facts(w) && w.mu.writer == Some(a) && !Stuck(w, a)
    ensures Advances(w, s, w') && TakesOn(w, a, s, w')
  {
    hide Advances, Serves;
    s, w' := HolderMoves(w, a);
  }
}
