/** A Stop of another client's job: its kill misses the process, nobody else can kill it meanwhile, and the
    mutex stays taken until the process ends by itself. */
module OverrideStop {
  import opened Base
  import opened JobModel
  import opened JobLifecycle
  import opened LifecycleInvariant
  import opened LifecycleGrowth
  import opened LifecycleTheorems
  import opened StopLimits

  // ---------------------------------------------------------------- who can have killed a live process

  predicate PollsFor(w: World, t: nat, j: JobId) {
    AtStage(w, t) && w.calls[t].pc.stage.Poll? && w.calls[t].req.id == j
  }

  predicate PolledByOwner(w: World, j: JobId) {
    && w.mu.writer.Some? && w.mu.writer.value.Caller?
    && PollsFor(w, w.mu.writer.value.t, j)
    && w.calls[w.mu.writer.value.t].req.client == w.jobs[j].client
  }

  /** A live process has been killed only while a Stop in its owner's name holds the mutex and polls it. */
  predicate KilledIsPolled(w: World, j: JobId) {
    j in w.procs && w.procs[j] == Alive(true) ==> PolledByOwner(w, j)
  }

  /** Removals come after the reap, and only the owner's name leads to the job's directory. */
  ghost predicate KillsAimed(w: World) {
    && (forall j :: j in w.waiters && j in w.procs && w.waiters[j].Removing? ==> w.procs[j].Reaped?)
    && (forall t :: AtStage(w, t) && w.calls[t].pc.stage.Remove? ==> w.procs[w.calls[t].req.id].Reaped?)
    && (forall t :: AtStage(w, t) && w.calls[t].req.client != w.jobs[w.calls[t].req.id].client ==> StopDir(w, t) !in w.dirs)
  }

  lemma InvAims(w: World)
    requires Inv(w)
    ensures KillsAimed(w) && LockInv(w)
  {
    hide Chain, AllVersions, Settled, BeingWritten, LockInv;
    InvParts(w);
    DirsAreIssued(w);
    forall j | j in w.waiters && j in w.procs && w.waiters[j].Removing? ensures w.procs[j].Reaped? {
      assert JobInv(w, j);
    }
    forall t | AtStage(w, t)
      ensures w.calls[t].pc.stage.Remove? ==> w.procs[w.calls[t].req.id].Reaped?
      ensures w.calls[t].req.client != w.jobs[w.calls[t].req.id].client ==> StopDir(w, t) !in w.dirs
    {
      assert CallInv(w, t) && JobInv(w, w.calls[t].req.id);
    }
  }

  lemma StartKills(w: World, s: Step, w': World, j: JobId)
    requires NextStart(w, s, w') && LockInv(w) && KilledIsPolled(w, j)
    ensures KilledIsPolled(w', j)
  {
    hide Publish, AddToIndex, StopRecord;
  }

  lemma ReadKills(w: World, s: Step, w': World, j: JobId)
    requires NextRead(w, s, w') && LockInv(w) && KilledIsPolled(w, j)
    ensures KilledIsPolled(w', j)
  {
  }

  lemma StopStepKills(w: World, s: Step, w': World, j: JobId)
    requires NextStop(w, s, w') && LockInv(w) && KillsAimed(w) && KilledIsPolled(w, j)
    ensures KilledIsPolled(w', j)
  {
    hide Publish, AddToIndex, StopRecord;
  }

  lemma WaiterKills(w: World, s: Step, w': World, j: JobId)
    requires NextWaiter(w, s, w') && LockInv(w) && KillsAimed(w) && KilledIsPolled(w, j)
    ensures KilledIsPolled(w', j)
  {
  }

  lemma {:induction false} OnlyOwnersKill(ws: seq<World>, ss: seq<Step>, i: nat, j: JobId)
    requires Run(ws, ss) && i < |ws|
    ensures KilledIsPolled(ws[i], j)
  {
    hide Next, NextStart, NextRead, NextStop, NextWaiter, KilledIsPolled, KillsAimed, LockInv, Inv;
    if i == 0 {
      NoneKilledYet(ws[0], j);
    } else {
      OnlyOwnersKill(ws, ss, i - 1, j);
      var w, s, w' := ws[i - 1], ss[i - 1], ws[i];
      RunKeepsInv(ws, ss, i - 1);
      InvAims(w);
      assert Next(w, s, w');
      NextIsOneOfFour(w, s, w');
      if NextStart(w, s, w') { StartKills(w, s, w', j); }
      else if NextRead(w, s, w') { ReadKills(w, s, w', j); }
      else if NextStop(w, s, w') { StopStepKills(w, s, w', j); }
      else { WaiterKills(w, s, w', j); }
    }
  }

  lemma NoneKilledYet(w: World, j: JobId)
    requires Init(w)
    ensures KilledIsPolled(w, j)
  {
  }

  // ---------------------------------------------------------------- an overriding Stop waits, alone

  /** While a Stop in another name polls, the mutex is its own and the process has not been killed by anybody. */
  lemma PollingUnderAnotherName(ws: seq<World>, ss: seq<Step>, i: nat, t: nat, j: JobId)
    requires Run(ws, ss) && i < |ws| && AtStage(ws[i], t) && ws[i].calls[t].req.id == j
    requires ws[i].calls[t].req.client != ws[i].jobs[j].client || !ws[i].calls[t].pc.stage.Poll?
    ensures ws[i].mu.writer == Some(Caller(t)) && ws[i].procs[j] != Alive(true)
  {
    hide Inv, Run;
    OnlyOwnersKill(ws, ss, i, j);
    RunKeepsInv(ws, ss, i);
    StoppingHoldsLock(ws[i], t);
  }

  lemma StoppingHoldsLock(w: World, t: nat)
    requires Inv(w) && AtStage(w, t)
    ensures w.mu.writer == Some(Caller(t))
  {
  }

  predicate EndsUnkilled(w: World, s: Step, j: JobId) {
    s.Exit? && s.j == j && j in w.procs && w.procs[j] == Alive(false)
  }

  predicate Survives(w: World, w': World, j: JobId) {
    j in w.procs && w.procs[j].Alive? ==> j in w'.procs && w'.procs[j].Alive?
  }

  lemma StartEndsNone(w: World, s: Step, w': World, j: JobId)
    requires NextStart(w, s, w')
    ensures Survives(w, w', j)
  {
    hide Publish, AddToIndex;
  }

  lemma ReadEndsNone(w: World, s: Step, w': World, j: JobId)
    requires NextRead(w, s, w')
    ensures Survives(w, w', j)
  {
  }

  lemma StopEndsNone(w: World, s: Step, w': World, j: JobId)
    requires NextStop(w, s, w')
    ensures Survives(w, w', j)
  {
    hide Publish, StopRecord;
  }

  lemma WaiterEndsNone(w: World, s: Step, w': World, j: JobId)
    requires NextWaiter(w, s, w') && !(s.Exit? && s.j == j)
    ensures Survives(w, w', j)
  {
    hide Publish, FinishRecord;
  }

  lemma OnlyExitEnds(w: World, s: Step, w': World, j: JobId)
    requires Next(w, s, w') && !Survives(w, w', j)
    ensures s.Exit? && s.j == j
  {
    hide Next, NextStart, NextRead, NextStop, NextWaiter, Survives;
    NextIsOneOfFour(w, s, w');
    if NextStart(w, s, w') { StartEndsNone(w, s, w', j); }
    else if NextRead(w, s, w') { ReadEndsNone(w, s, w', j); }
    else if NextStop(w, s, w') { StopEndsNone(w, s, w', j); }
    else if !(s.Exit? && s.j == j) { WaiterEndsNone(w, s, w', j); }
  }

  lemma {:induction false} SomeExit(ws: seq<World>, ss: seq<Step>, i: nat, k: nat, j: JobId) returns (m: nat)
    requires Run(ws, ss) && i <= k < |ws| && j in ws[i].procs && ws[i].procs[j].Alive?
    requires j in ws[k].procs && !ws[k].procs[j].Alive?
    ensures i <= m < k && ss[m].Exit? && ss[m].j == j && j in ws[m].procs && ws[m].procs[j].Alive?
  {
    hide Inv, Next;
    RunGrows(ws, ss, i, k - 1, j);
    assert Next(ws[k - 1], ss[k - 1], ws[k]);
    if ws[k - 1].procs[j].Alive? {
      OnlyExitEnds(ws[k - 1], ss[k - 1], ws[k], j);
      m := k - 1;
    } else {
      m := SomeExit(ws, ss, i, k - 1, j);
    }
  }

  /** From the kill that an overriding Stop makes of another client's live process until its poll ends, the
      mutex is its own and the process is never marked killed; if the process ends, it ends by itself. */
  lemma OverridingStopWaits(ws: seq<World>, ss: seq<Step>, i: nat, k: nat, t: nat, j: JobId)
    requires Run(ws, ss) && i < k < |ws| && ss[i] == StopKills(t, true)
    requires AtStage(ws[i], t) && ws[i].calls[t].req.id == j && ws[i].procs[j].Alive?
    requires ws[i].calls[t].req.client != ws[i].jobs[j].client
    requires forall m :: i < m <= k ==> PollsFor(ws[m], t, j)
    ensures forall m :: i <= m <= k ==>
              ws[m].mu.writer == Some(Caller(t)) && j in ws[m].procs && ws[m].procs[j] != Alive(true)
    ensures j in ws[i + 1].procs && ws[i + 1].procs[j] == Alive(false)
    ensures j in ws[k].procs && !ws[k].procs[j].Alive? ==> exists m :: i < m < k && EndsUnkilled(ws[m], ss[m], j)
  {
    hide Inv, Next;
    assert |ws| == |ss| + 1;
    hide Run;
    forall m | i <= m <= k
      ensures AtStage(ws[m], t) && ws[m].mu.writer == Some(Caller(t)) && ws[m].procs[j] != Alive(true)
    {
      OtherNameStays(ws, ss, i, m, t, j);
      PollingUnderAnotherName(ws, ss, m, t, j);
    }
    KillReachesExactlyTheOwners(ws, ss, i, t);
    if !ws[k].procs[j].Alive? {
      var m := SomeExit(ws, ss, i + 1, k, j);
      assert EndsUnkilled(ws[m], ss[m], j);
    }
  }

  lemma OtherNameStays(ws: seq<World>, ss: seq<Step>, i: nat, m: nat, t: nat, j: JobId)
    requires Run(ws, ss) && i <= m < |ws| && AtStage(ws[i], t) && ws[i].calls[t].req.id == j
    requires ws[i].calls[t].req.client != ws[i].jobs[j].client
    requires m == i || PollsFor(ws[m], t, j)
    ensures AtStage(ws[m], t) && ws[m].calls[t].req == ws[i].calls[t].req
    ensures ws[m].calls[t].req.client != ws[m].jobs[j].client
  {
    hide Run;
    SameRequest(ws, ss, i, m, t);
    TerminalAbsorbs(ws, ss, i, m, j);
  }

  // --- such a Stop

  function Overriding(b: JobRecord, other: Client): Request { Request(Stop, other, b.id, true) }

  function Asked(b: JobRecord, other: Client, mu: RWMutex, pc: QueryPc): World {
    OneJob(b).(mu := mu, calls := map[0 := StartCall(b.client, b.command, b.cmdArgs, Started(b.id)),
                                      1 := Query(Overriding(b, other), pc)])
  }

  lemma OverrideFinds(b: JobRecord, other: Client)
    requires Startable(b) && other != ""
    ensures Reachable(Asked(b, other, FREE, WantCopy))
  {
    hide Reachable, NextStart, NextStop, NextWaiter;
    OneJobReachable(b);
    StepReachable(OneJob(b), BeginQuery(1, Overriding(b, other)), Asked(b, other, FREE, WantFind));
    StepReachable(Asked(b, other, FREE, WantFind), ReadLock(1), Asked(b, other, READ, Finding));
    StepReachable(Asked(b, other, READ, Finding), FindJob(1), Asked(b, other, FREE, WantCopy));
  }

  lemma OverrideCopies(b: JobRecord, other: Client)
    requires Startable(b) && other != ""
    ensures Reachable(Asked(b, other, FREE, Copied(b, 0)))
  {
    hide Reachable, NextStart, NextStop, NextWaiter;
    OverrideFinds(b, other);
    StepReachable(Asked(b, other, FREE, WantCopy), ReadLock(1), Asked(b, other, READ, Copying));
    StepReachable(Asked(b, other, READ, Copying), CopyJob(1), Asked(b, other, FREE, Copied(b, 0)));
  }

  lemma OverrideChecks(b: JobRecord, other: Client)
    requires Startable(b) && other != ""
    ensures Reachable(Asked(b, other, BY_STOP, Stopping(b, 0, Kill)))
  {
    hide Reachable;
    OverrideCopies(b, other);
    StopReaches(Asked(b, other, FREE, Copied(b, 0)), StopLocks(1), Asked(b, other, BY_STOP, Stopping(b, 0, Check)));
    StopReaches(Asked(b, other, BY_STOP, Stopping(b, 0, Check)), StopChecks(1),
                Asked(b, other, BY_STOP, Stopping(b, 0, Kill)));
  }

  /** For every job and every other name there is a run in which an overriding Stop under that name has
      returned from its kill, holds the mutex and polls, and the process lives on, unkilled. */
  lemma OverridingStopCanWait(b: JobRecord, other: Client) returns (w: World)
    requires Startable(b) && other != "" && other != b.client
    ensures Reachable(w) && PollsFor(w, 1, b.id) && w.calls[1].req == Overriding(b, other)
    ensures w.mu.writer == Some(Caller(1)) && w.procs[b.id] == Alive(false)
  {
    hide Reachable;
    OverrideChecks(b, other);
    w := Asked(b, other, BY_STOP, Stopping(b, 0, Poll));
    StopReaches(Asked(b, other, BY_STOP, Stopping(b, 0, Kill)), StopKills(1, true), w);
  }
}
