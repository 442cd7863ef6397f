/** What no step ever undoes: published versions, registrations, removals, the end of a process. */
module LifecycleGrowth {
  import opened Base
  import opened JobModel
  import opened JobLifecycle
  import opened LifecycleInvariant
  import opened LifecycleSteps

  /** Alive, then zombie, then reaped. */
  function ProcRank(p: Proc): nat {
    match p
    case Alive(_) => 2
    case Zombie(_) => 1
    case Reaped(_) => 0
  }

  predicate Grows(w: World, w': World, j: JobId) {
    && (j in w.jobs ==> j in w'.jobs)
    && Versions(w, j) <= Versions(w', j)
    && AllVersions(w, j) <= AllVersions(w', j)
    && (j in w.issued ==> j in w'.issued && w'.issued[j] == w.issued[j]
                          && (Dir(w.issued[j].client, j) in w'.dirs ==> Dir(w.issued[j].client, j) in w.dirs))
    && (j in w.procs ==> j in w'.procs && ProcRank(w'.procs[j]) <= ProcRank(w.procs[j])
                         && (w.procs[j].Reaped? ==> w'.procs[j] == w.procs[j]))
  }

  /** Steps that move calls and the mutex only. */
  lemma QuietGrows(w: World, w': World, j: JobId)
    requires w'.jobs == w.jobs && w'.history == w.history && w'.issued == w.issued
    requires w'.procs == w.procs && w'.dirs == w.dirs
    ensures Grows(w, w', j)
  {
  }

  lemma ReleaseGrows(w: World, w': World, j: JobId)
    requires w.history.Keys <= w.jobs.Keys
    requires w'.jobs == w.jobs && w'.history == Publish(w) && w'.issued == w.issued
    requires w'.procs == w.procs && w'.dirs == w.dirs
    ensures Grows(w, w', j)
  {
  }

  lemma RemovalGrows(w: World, w': World, d: Dir, rm: Removal, ok: bool, j: JobId)
    requires var w1 := RemovalEffect(w, d, rm, ok);
             && w'.jobs == w.jobs && w'.history == w.history && w'.issued == w.issued
             && w'.procs == w1.procs && w'.dirs == w1.dirs
    ensures Grows(w, w', j)
  {
  }

  lemma RegisterGrows(w: World, t: nat, j: JobId)
    requires ProcInv(w) && CallInv(w, t) && CanRegister(w, t)
    ensures Grows(w, DoRegister(w, t), j)
  {
  }

  lemma StopUpdatesGrows(w: World, t: nat, now: int, later: int, j: JobId)
    requires CanStopUpdates(w, t, now, later) && CallInv(w, t)
    ensures Grows(w, DoStopUpdates(w, t, now, later), j)
  {
  }

  lemma WaiterUpdatesGrows(w: World, k: JobId, now: int, j: JobId)
    requires LockInv(w) && JobInv(w, k) && CanWaiterUpdates(w, k, now)
    ensures Grows(w, DoWaiterUpdates(w, k, now), j)
  {
  }

  lemma InvParts(w: World)
    requires Inv(w)
    ensures LockInv(w) && ProcInv(w) && w.history.Keys <= w.jobs.Keys
    ensures forall t :: t in w.calls ==> CallInv(w, t)
    ensures forall j :: j in w.jobs ==> JobInv(w, j)
  {
  }

  lemma StartGrows(w: World, s: Step, w': World, j: JobId)
    requires Inv(w) && NextStart(w, s, w')
    ensures Grows(w, w', j)
  {
    hide Inv, ProcInv, CallInv, JobInv, Grows, Publish, AddToIndex, StopRecord, FinishRecord;
    InvParts(w);
    match s
    case MakeDir(t, newId) => MakeDirGrows(w, t, newId, j);
    case Spawn(t, pid, outputFile, now) => SpawnGrows(w, t, pid, outputFile, now, j);
    case Register(t) => RegisterGrows(w, t, j);
    case StartUnlocks(_) => ReleaseGrows(w, w', j);
    case _ => QuietGrows(w, w', j);
  }

  lemma MakeDirGrows(w: World, t: nat, newId: JobId, j: JobId)
    requires CanMakeDir(w, t, newId)
    ensures Grows(w, DoMakeDir(w, t, newId), j)
  {
  }

  lemma SpawnGrows(w: World, t: nat, pid: int, outputFile: string, now: int, j: JobId)
    requires CallInv(w, t) && CanSpawn(w, t, pid, outputFile, now)
    ensures Grows(w, DoSpawn(w, t, pid, outputFile, now), j)
  {
  }

  lemma ProcsGrow(w: World, w': World, j: JobId)
    requires w'.jobs == w.jobs && w'.history == w.history && w'.issued == w.issued && w'.dirs == w.dirs
    requires j in w.procs ==> j in w'.procs && ProcRank(w'.procs[j]) <= ProcRank(w.procs[j])
                              && (w.procs[j].Reaped? ==> w'.procs[j] == w.procs[j])
    ensures Grows(w, w', j)
  {
  }

  lemma StopGrows(w: World, s: Step, w': World, j: JobId)
    requires Inv(w) && NextStop(w, s, w')
    ensures Grows(w, w', j)
  {
    hide Inv, ProcInv, CallInv, JobInv, Grows, Publish, AddToIndex, StopRecord, FinishRecord;
    InvParts(w);
    match s
    case StopKills(_, _) => ProcsGrow(w, w', j);
    case StopRemoves(t, ok) => RemovalGrows(w, w', StopDir(w, t), w.calls[t].pc.stage.rm, ok, j);
    case StopUpdates(t, now, later) => StopUpdatesGrows(w, t, now, later, j);
    case StopUnlocks(_) => ReleaseGrows(w, w', j);
    case _ => QuietGrows(w, w', j);
  }

  lemma WaiterGrows(w: World, s: Step, w': World, j: JobId)
    requires Inv(w) && NextWaiter(w, s, w')
    ensures Grows(w, w', j)
  {
    hide Inv, ProcInv, CallInv, JobInv, Grows, Publish, AddToIndex, StopRecord, FinishRecord;
    InvParts(w);
    match s
    case Exit(_, _) => ProcsGrow(w, w', j);
    case Reap(_) => ProcsGrow(w, w', j);
    case WaiterRemoves(k, ok) => RemovalGrows(w, w', OwnerDir(w, k), w.waiters[k].rm, ok, j);
    case WaiterUpdates(k, now) => WaiterUpdatesGrows(w, k, now, j);
    case WaiterUnlocks(_) => ReleaseGrows(w, w', j);
    case _ => QuietGrows(w, w', j);
  }

  lemma StepGrows(w: World, s: Step, w': World, j: JobId)
    requires Inv(w) && Next(w, s, w')
    ensures Grows(w, w', j)
  {
    if NextStart(w, s, w') { StartGrows(w, s, w', j); }
    else if NextRead(w, s, w') { ReadGrows(w, s, w', j); }
    else if NextStop(w, s, w') { StopGrows(w, s, w', j); }
    else { WaiterGrows(w, s, w', j); }
  }

  lemma ReadGrows(w: World, s: Step, w': World, j: JobId)
    requires NextRead(w, s, w')
    ensures Grows(w, w', j)
  {
  }

  // ---------------------------------------------------------------- every step keeps the invariant

  lemma StartStepKept(w: World, s: Step, w': World)
    requires Inv(w) && NextStart(w, s, w')
    ensures Inv(w')
  {
    hide Inv, Before, Local, WaiterLocal;
    BeforeAny(w, s.t);
    match s
    case BeginStart(t, client, command, args) =>
      BeginStartLocal(w, t, client, command, args);
      LocalKeeps(w, w', t);
    case StartFails(t) =>
      StartFailsLocal(w, t);
      LocalKeeps(w, w', t);
    case MakeDir(t, newId) => MakeDirKept(w, t, newId);
    case Spawn(t, pid, outputFile, now) => SpawnKept(w, t, pid, outputFile, now);
    case StartLocks(t) =>
      StartLocksLocal(w, t);
      LocalKeeps(w, w', t);
    case Register(t) => RegisterKept(w, t);
    case StartUnlocks(t) => StartUnlocksKept(w, t);
  }

  lemma ReadStepKept(w: World, s: Step, w': World)
    requires Inv(w) && NextRead(w, s, w')
    ensures Inv(w')
  {
    hide Inv, Before, Local, WaiterLocal;
    BeforeAny(w, s.t);
    match s {
      case BeginQuery(t, req) => BeginQueryLocal(w, t, req);
      case QueryFails(t) => QueryFailsLocal(w, t);
      case ReadLock(t) => ReadLockLocal(w, t);
      case FindJob(t) => FindJobLocal(w, t);
      case CopyJob(t) => CopyJobLocal(w, t);
      case ReaderReturns(t) => ReaderReturnsLocal(w, t);
    }
    LocalKeeps(w, w', s.t);
  }

  lemma StopStepKept(w: World, s: Step, w': World)
    requires Inv(w) && NextStop(w, s, w')
    ensures Inv(w')
  {
    hide Inv, Before, Local, WaiterLocal;
    BeforeAny(w, s.t);
    match s
    case StopLocks(t) =>
      StopLocksLocal(w, t);
      LocalKeeps(w, w', t);
    case StopChecks(t) =>
      StopChecksLocal(w, t);
      LocalKeeps(w, w', t);
    case StopKills(t, ok) => StopKillsKept(w, t, ok);
    case StopPolls(t) =>
      StopPollsLocal(w, t);
      LocalKeeps(w, w', t);
    case StopRemoves(t, ok) => StopRemovesKept(w, t, ok);
    case StopUpdates(t, now, later) => StopUpdatesKept(w, t, now, later);
    case StopUnlocks(t) => StopUnlocksKept(w, t);
  }

  lemma WaiterStepKept(w: World, s: Step, w': World)
    requires Inv(w) && NextWaiter(w, s, w')
    ensures Inv(w')
  {
    hide Inv;
    match s
    case Exit(j, status) => ProcKept(w, j, Zombie(status));
    case Reap(j) => ReapKept(w, j);
    case WaiterRemoves(j, ok) => WaiterRemovesKept(w, j, ok);
    case WaiterLocks(j) => WaiterLocksKept(w, j);
    case WaiterUpdates(j, now) => WaiterUpdatesKept(w, j, now);
    case WaiterUnlocks(j) => WaiterUnlocksKept(w, j);
  }

  lemma StepKeepsInv(w: World, s: Step, w': World)
    requires Inv(w) && Next(w, s, w')
    ensures Inv(w')
  {
    if NextStart(w, s, w') { StartStepKept(w, s, w'); }
    else if NextRead(w, s, w') { ReadStepKept(w, s, w'); }
    else if NextStop(w, s, w') { StopStepKept(w, s, w'); }
    else { WaiterStepKept(w, s, w'); }
  }
}
