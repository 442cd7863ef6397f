/** Removal of a job's cgroup directory, agreement of the registry's two maps, and what a
    polling Stop waits for: in every run of the job life cycle. */
module ProgressTheorems {
  import opened Base
  import opened JobModel
  import opened JobLifecycle
  import opened LifecycleInvariant
  import opened LifecycleGrowth
  import opened LifecycleTheorems

  // ---------------------------------------------------------------- the job's directory

  /** Once a job has its ID, a directory of it that is absent never comes back. */
  lemma NeverComesBack(ws: seq<World>, ss: seq<Step>, i: nat, k: nat, d: Dir)
    requires Run(ws, ss) && i <= k < |ws|
    requires d.id in ws[i].issued && ws[i].issued[d.id].client == d.client && d !in ws[i].dirs
    ensures d.id in ws[k].issued && ws[k].issued[d.id].client == d.client && d !in ws[k].dirs
  {
    hide Inv, Next;
    RunGrows(ws, ss, i, k, d.id);
  }

  /** However many goroutines and Stops race to remove it, a directory disappears at most once. */
  lemma RmdirSucceedsOnce(ws: seq<World>, ss: seq<Step>, a: nat, b: nat, d: Dir)
    requires Run(ws, ss) && a < b < |ss|
    ensures d in ws[a].dirs && d !in ws[a + 1].dirs ==> d !in ws[b].dirs && d !in ws[b + 1].dirs
  {
    hide Inv, Next;
    if d in ws[a].dirs && d !in ws[a + 1].dirs {
      RunKeepsInv(ws, ss, a);
      DirIssued(ws[a], d);
      RunGrows(ws, ss, a, a + 1, d.id);
      NeverComesBack(ws, ss, a + 1, b, d);
      NeverComesBack(ws, ss, a + 1, b + 1, d);
    }
  }

  lemma DirIssued(w: World, d: Dir)
    requires Inv(w) && d in w.dirs
    ensures d.id in w.issued && w.issued[d.id].client == d.client
  {
  }

  /** The goroutine's removal, or that of a Stop made in the owner's name, has returned nil. */
  predicate OwnerRemoved(w: World, j: JobId)
    requires j in w.jobs
  {
    j in w.waiters && !w.waiters[j].Waiting? && !w.waiters[j].Removing? && !w.waiters[j].rmErr
  }

  predicate OwnerStopRemoved(w: World, j: JobId, t: nat)
    requires j in w.jobs
  {
    && AtQuery(w, t) && w.calls[t].req.id == j && w.calls[t].req.client == w.jobs[j].client
    && match w.calls[t].pc
       case Stopping(_, _, stage) => stage.Update?
       case Returning(res) => res.StoppedIt?
       case Done(res) => res.StoppedIt?
       case _ => false
  }

  /** Once a removal in the owner's name has returned nil the directory is absent for the rest of the run. */
  lemma RemovedForGood(ws: seq<World>, ss: seq<Step>, i: nat, k: nat, j: JobId, t: nat)
    requires Run(ws, ss) && i <= k < |ws| && j in ws[i].jobs
    requires OwnerRemoved(ws[i], j) || OwnerStopRemoved(ws[i], j, t)
    ensures Dir(ws[i].jobs[j].client, j) !in ws[k].dirs
  {
    hide Inv, Next, JobInv, CallInv;
    RunKeepsInv(ws, ss, i);
    InvParts(ws[i]);
    RunGrows(ws, ss, i, k, j);
    AbsentNow(ws[i], j, t);
  }

  lemma AbsentNow(w: World, j: JobId, t: nat)
    requires j in w.jobs && JobInv(w, j) && (t in w.calls ==> CallInv(w, t))
    requires OwnerRemoved(w, j) || OwnerStopRemoved(w, j, t)
    ensures j in w.issued && w.issued[j].client == w.jobs[j].client && Dir(w.jobs[j].client, j) !in w.dirs
  {
  }

  /** A removal step of the goroutine, or of a Stop under whatever name: the kill it writes first reaches nobody, as
      the process has been reaped, and its directory goes exactly if the step is a removal that works. */
  lemma RemovalKillsNobody(ws: seq<World>, ss: seq<Step>, m: nat)
    requires Run(ws, ss) && m < |ss| && (ss[m].StopRemoves? || ss[m].WaiterRemoves?)
    ensures ws[m + 1].procs == ws[m].procs && ws[m + 1].jobs == ws[m].jobs && ws[m + 1].mu == ws[m].mu
    ensures forall d :: d in ws[m].dirs && d !in ws[m + 1].dirs <==>
              d in ws[m].dirs && ss[m].ok && d == RemovedBy(ws[m], ss[m]) && AtRmDir(ws[m], ss[m])
  {
    hide Inv, Next, LockInv, ProcInv, JobInv, CallInv, AtRmDir, RemovedBy;
    assert Next(ws[m], ss[m], ws[m + 1]);
    RunKeepsInv(ws, ss, m);
    InvParts(ws[m]);
    match ss[m]
    case StopRemoves(t, ok) => StopRemoval(ws[m], ws[m + 1], t, ok);
    case WaiterRemoves(j, ok) => GoroutineRemoval(ws[m], ws[m + 1], j, ok);
  }

  lemma StopRemoval(w: World, w': World, t: nat, ok: bool)
    requires Next(w, StopRemoves(t, ok), w') && (t in w.calls ==> CallInv(w, t))
    ensures w'.procs == w.procs && w'.jobs == w.jobs && w'.mu == w.mu
    ensures forall d :: d in w.dirs && d !in w'.dirs <==>
              d in w.dirs && ok && d == RemovedBy(w, StopRemoves(t, ok)) && AtRmDir(w, StopRemoves(t, ok))
  {
    hide Chain, IsVersion, Settled, BeingWritten, OutcomeInv;
  }

  lemma GoroutineRemoval(w: World, w': World, j: JobId, ok: bool)
    requires Next(w, WaiterRemoves(j, ok), w') && (j in w.jobs ==> JobInv(w, j))
    ensures w'.procs == w.procs && w'.jobs == w.jobs && w'.mu == w.mu
    ensures forall d :: d in w.dirs && d !in w'.dirs <==>
              d in w.dirs && ok && d == RemovedBy(w, WaiterRemoves(j, ok)) && AtRmDir(w, WaiterRemoves(j, ok))
  {
    hide Chain, IsVersion, Settled, BeingWritten;
  }

  /** The directory a removal is about: the job's, under the name of the caller or of the owner. */
  function RemovedBy(w: World, s: Step): Dir {
    match s
    case StopRemoves(t, _) =>
      if AtQuery(w, t) then Dir(w.calls[t].req.client, w.calls[t].req.id) else Dir("", "")
    case WaiterRemoves(j, _) => if j in w.jobs then Dir(w.jobs[j].client, j) else Dir("", "")
    case _ => Dir("", "")
  }

  predicate AtRmDir(w: World, s: Step) {
    match s
    case StopRemoves(t, _) => AtStage(w, t) && w.calls[t].pc.stage == Remove(RmDir)
    case WaiterRemoves(j, _) => j in w.waiters && w.waiters[j].Removing? && w.waiters[j].rm == RmDir
    case _ => false
  }

  /** The goroutine's removal fails, and its failure is noted, exactly if a call fails or the directory it has seen is
      gone when it comes to remove it; it succeeds at the first look at a directory that is not there. */
  lemma GoroutineRemovesExactly(ws: seq<World>, ss: seq<Step>, m: nat, j: JobId, ok: bool)
    requires Run(ws, ss) && m < |ss| && ss[m] == WaiterRemoves(j, ok)
    ensures j in ws[m].jobs && j in ws[m].waiters && j in ws[m + 1].waiters && ws[m].waiters[j].Removing?
    ensures var rm := ws[m].waiters[j].rm; var gone := Dir(ws[m].jobs[j].client, j) !in ws[m].dirs;
            var g := ws[m + 1].waiters[j];
            && (g.WantLock? || g.Removing?) && g.status == ws[m].waiters[j].status
            && (g.WantLock? && g.rmErr <==> !ok || (rm.RmDir? && gone))
            && (g.WantLock? && !g.rmErr <==> ok && (if rm.RmDir? then !gone else rm.StatDir? && gone))
            && (g.Removing? ==> g.rm == (if rm.WriteKill? then StatDir else RmDir))
  {
    hide Inv, Next, LockInv, ProcInv, JobInv, CallInv;
    assert Next(ws[m], ss[m], ws[m + 1]);
    RunKeepsInv(ws, ss, m);
    InvParts(ws[m]);
    GoroutineRemoves(ws[m], ws[m + 1], j, ok);
  }

  lemma GoroutineRemoves(w: World, w': World, j: JobId, ok: bool)
    requires Next(w, WaiterRemoves(j, ok), w') && (j in w.jobs ==> JobInv(w, j))
    ensures CanWaiterRemoves(w, j, ok) && w' == DoWaiterRemoves(w, j, ok) && w.procs[j].Reaped?
  {
    hide Chain, IsVersion, Settled, BeingWritten;
  }

  // ---------------------------------------------------------------- the registry

  /** In every reachable state each registered job sits at exactly one place of exactly one client's
      list, its owner's, under its own ID, and every listed ID is registered. */
  lemma RegistryAgrees(ws: seq<World>, ss: seq<Step>, i: nat)
    requires Run(ws, ss) && i < |ws|
    ensures IndexAgrees(ws[i].jobs, ws[i].index)
    ensures forall j :: j in ws[i].jobs ==>
              exists pos :: OnlyPlace(ws[i].index, ws[i].jobs[j].client, pos, j)
  {
    RunKeepsInv(ws, ss, i);
    hide Run, Inv;
    Agreement(ws[i]);
    forall j | j in ws[i].jobs
      ensures exists pos :: OnlyPlace(ws[i].index, ws[i].jobs[j].client, pos, j)
    {
      var pos := ListedExactlyOnce(ws[i].jobs, ws[i].index, j);
      assert OnlyPlace(ws[i].index, ws[i].jobs[j].client, pos, j);
    }
  }

  lemma Agreement(w: World)
    requires Inv(w)
    ensures IndexAgrees(w.jobs, w.index)
  {
  }

  ghost predicate OnlyPlace(index: map<Client, seq<JobId>>, owner: Client, pos: nat, j: JobId) {
    && owner in index && pos < |index[owner]| && index[owner][pos] == j
    && forall c, k :: c in index && 0 <= k < |index[c]| && index[c][k] == j ==> c == owner && k == pos
  }

  // ---------------------------------------------------------------- a polling Stop and its process

  /** A process only ever moves from alive to zombie to reaped, whoever steps. */
  lemma ProcOnlyFalls(ws: seq<World>, ss: seq<Step>, i: nat, k: nat, j: JobId)
    requires Run(ws, ss) && i <= k < |ws| && j in ws[i].procs
    ensures j in ws[k].procs && ProcRank(ws[k].procs[j]) <= ProcRank(ws[i].procs[j])
  {
    hide Inv, Next, Run;
    RunGrows(ws, ss, i, k, j);
  }

  /** While Stop polls with the mutex held, what it waits for never needs the mutex: the process is
      reaped and the poll ends, or a zombie its goroutine can reap, or alive and able to end, and
      then already killed if the Stop was made under the owner's name. */
  lemma PollingStopIsServed(ws: seq<World>, ss: seq<Step>, i: nat, t: nat)
    requires Run(ws, ss) && i < |ws| && AtStage(ws[i], t) && ws[i].calls[t].pc.stage.Poll?
    ensures var w := ws[i]; var j := w.calls[t].req.id;
            && w.mu.writer == Some(Caller(t))
            && (w.procs[j].Reaped? ==> DoStopPolls(w, t).calls[t].pc.stage == Remove(WriteKill))
            && (w.procs[j].Zombie? ==> CanReap(w, j) && DoReap(w, j).procs[j].Reaped?)
            && (w.procs[j].Alive? ==> forall status :: CanExit(w, j, status))
            && (w.procs[j].Alive? && w.jobs[j].client == w.calls[t].req.client ==> w.procs[j].killed)
  {
    hide Inv, JobInv, CallInv, Run;
    RunKeepsInv(ws, ss, i);
    InvParts(ws[i]);
    Served(ws[i], t);
  }

  lemma Served(w: World, t: nat)
    requires LockInv(w) && AtStage(w, t) && w.calls[t].pc.stage.Poll? && CallInv(w, t)
    requires JobInv(w, w.calls[t].req.id)
    ensures w.mu.writer == Some(Caller(t)) && AtWaiter(w, w.calls[t].req.id)
    ensures w.waiters[w.calls[t].req.id].Waiting? <==> !w.procs[w.calls[t].req.id].Reaped?
    ensures w.jobs[w.calls[t].req.id].client == w.calls[t].req.client ==> w.procs[w.calls[t].req.id] != Alive(false)
  {
    hide Chain, IsVersion, Settled, BeingWritten;
  }
}
