/** The inductive invariant of the job life cycle. */
module LifecycleInvariant {
  import opened Base
  import opened JobModel
  import opened JobLifecycle

  // ---------------------------------------------------------------- who holds the mutex

  predicate CallWrites(c: Call) {
    match c
    case StartCall(_, _, _, spc) => spc.StartLocked? || spc.Registered?
    case Query(_, pc) => pc.Stopping? || pc.Returning?
  }

  predicate CallReads(c: Call) { c.Query? && (c.pc.Finding? || c.pc.Copying?) }

  predicate WaiterWrites(g: Waiter) { g.HasLock? || g.Updated? }

  ghost predicate LockInv(w: World) {
    && (w.mu.writer.Some? ==> w.mu.readers == {})
    && (forall t :: t in w.mu.readers <==> t in w.calls && CallReads(w.calls[t]))
    && (forall t :: t in w.calls && CallWrites(w.calls[t]) <==> w.mu.writer == Some(Caller(t)))
    && (forall j :: j in w.waiters && WaiterWrites(w.waiters[j]) <==> w.mu.writer == Some(Goroutine(j)))
  }

  // ---------------------------------------------------------------- processes and directories

  ghost predicate ProcInv(w: World) {
    && w.clock > 0
    && w.waiters.Keys == w.jobs.Keys
    && w.history.Keys <= w.jobs.Keys <= w.procs.Keys <= w.issued.Keys
    && (forall j :: j in w.procs && !w.procs[j].Reaped? ==> Dir(w.issued[j].client, j) in w.dirs)
    && (forall j :: j in w.procs && j !in w.jobs ==> !w.procs[j].Reaped?)
  }

  ghost predicate DirInv(w: World) {
    forall d :: d in w.dirs ==> d.id in w.issued && w.issued[d.id].client == d.client
  }

  // ---------------------------------------------------------------- jobs

  predicate Unfinished(g: Waiter) { !g.Updated? && !g.Finished? }

  /** The versions a record can go through, given how far its goroutine has got. */
  predicate Chain(v: seq<JobRecord>, g: Waiter, p: Proc) {
    && 1 <= |v| <= 3
    && IsBirth(v[0])
    && (if Unfinished(g) then
          |v| <= 2 && (|v| == 2 ==> p.Reaped? && v[1].ended > 0 && v[1] == StopRecord(v[0], v[1].ended))
        else
          && |v| >= 2
          && v[1].ended > 0
          && (|v| == 2 ==> v[1] == FinishRecord(v[0], g.status, g.rmErr, v[1].ended))
          && (|v| == 3 ==> v[1] == StopRecord(v[0], v[1].ended)
                           && v[2] == FinishRecord(v[1], g.status, g.rmErr, v[1].ended)))
  }

  /** The published versions, followed by the one being written if there is one. */
  function AllVersions(w: World, j: JobId): seq<JobRecord> {
    if j in w.jobs then Extend(Versions(w, j), w.jobs[j]) else []
  }

  predicate Settled(w: World, j: JobId) {
    j in w.jobs && |Versions(w, j)| > 0 && Versions(w, j)[|Versions(w, j)| - 1] == w.jobs[j]
  }

  /** The job a call is about. */
  function Subject(c: Call): JobId {
    match c
    case Query(req, _) => req.id
    case StartCall(_, _, _, spc) =>
      if spc.HasDir? || spc.Registered? || spc.Started? then spc.id
      else if spc.HasProc? || spc.StartLocked? then spc.job.id
      else ""
  }

  /** The call has rewritten (or created) a record and not yet released the mutex. */
  predicate Wrote(c: Call) {
    match c
    case StartCall(_, _, _, spc) => spc.Registered?
    case Query(_, pc) => pc.Returning? && pc.res.StoppedIt?
  }

  predicate BeingWritten(w: World, j: JobId) {
    && w.mu.writer.Some?
    && match w.mu.writer.value
       case Goroutine(k) => k == j && k in w.waiters && w.waiters[k].Updated?
       case Caller(t) => t in w.calls && Wrote(w.calls[t]) && Subject(w.calls[t]) == j
  }

  predicate GoroutineInv(w: World, j: JobId)
    requires j in w.jobs && j in w.waiters && j in w.procs
  {
    var g := w.waiters[j];
    && (g.Waiting? <==> !w.procs[j].Reaped?)
    && (!g.Waiting? ==> w.procs[j].status == g.status)
    && ((g.WantLock? || g.HasLock? || g.Updated? || g.Finished?) && !g.rmErr ==> OwnerDir(w, j) !in w.dirs)
  }

  ghost predicate JobInv(w: World, j: JobId) {
    && j in w.jobs && j in w.waiters && j in w.procs && j in w.issued
    && w.jobs[j].id == j
    && (j in w.history ==> |w.history[j]| > 0)
    && w.issued[j].client == w.jobs[j].client
    && GoroutineInv(w, j)
    && Chain(AllVersions(w, j), w.waiters[j], w.procs[j])
    && (Settled(w, j) || BeingWritten(w, j))
  }

  // ---------------------------------------------------------------- calls

  /** The copy is the published version numbered at. */
  predicate IsVersion(w: World, id: JobId, copy: JobRecord, at: nat) {
    at < |Versions(w, id)| && copy == Versions(w, id)[at]
  }

  predicate StoppedVersion(stopped: JobRecord, birth: JobRecord, job: JobRecord) {
    stopped == StopRecord(birth, stopped.ended) && job == stopped.(ended := job.ended)
    && stopped.ended <= job.ended
  }

  ghost predicate StartInv(w: World, t: nat, client: Client, spc: StartPc) {
    match spc
    case Preparing => true
    case HasDir(id) =>
      id in w.issued && w.issued[id] == Issue(client, t) && id !in w.procs && Dir(client, id) in w.dirs
    case HasProc(job) => SpawnedInv(w, t, client, job)
    case StartLocked(job) => SpawnedInv(w, t, client, job)
    case Registered(id) => id in w.jobs
    case Started(id) => id in w.jobs
    case StartFailed => true
  }

  ghost predicate SpawnedInv(w: World, t: nat, client: Client, job: JobRecord) {
    && job.id in w.issued && w.issued[job.id] == Issue(client, t) && job.client == client
    && job.id in w.procs && job.id !in w.jobs && IsBirth(job)
  }

  predicate StageInv(w: World, req: Request, stage: Stage) {
    && Settled(w, req.id) && req.id in w.procs
    && (!stage.Check? ==> w.jobs[req.id].state == Running && Mine(req, w.jobs[req.id]))
    && (stage.Poll? && w.jobs[req.id].client == req.client ==> w.procs[req.id] != Alive(false))
    && (stage.Remove? || stage.Update? ==> w.procs[req.id].Reaped?)
    && (stage.Update? && w.jobs[req.id].client == req.client ==> OwnerDir(w, req.id) !in w.dirs)
  }

  predicate OutcomeInv(w: World, req: Request, res: Outcome) {
    match res
    case Failed => true
    case Untouched(copy, at) => IsVersion(w, req.id, copy, at) && Mine(req, copy)
    case StoppedIt(job) =>
      && Mine(req, job)
      && |AllVersions(w, req.id)| >= 2
      && StoppedVersion(AllVersions(w, req.id)[1], AllVersions(w, req.id)[0], job)
      && req.id in w.issued
      && (w.issued[req.id].client == req.client ==> Dir(req.client, req.id) !in w.dirs)
  }

  ghost predicate QueryInv(w: World, req: Request, pc: QueryPc) {
    match pc
       case WantFind => true
       case Finding => true
       case WantCopy => req.id in w.history && |Versions(w, req.id)| > 0
       case Copying => req.id in w.history && |Versions(w, req.id)| > 0
       case Copied(copy, at) => IsVersion(w, req.id, copy, at)
       case Stopping(copy, at, stage) =>
         IsVersion(w, req.id, copy, at) && StageInv(w, req, stage)
       case Returning(res) => OutcomeInv(w, req, res) && (res.StoppedIt? ==> |AllVersions(w, req.id)| == 2)
       case Done(res) => OutcomeInv(w, req, res) && (res.StoppedIt? ==> |Versions(w, req.id)| >= 2)
  }

  ghost predicate CallInv(w: World, t: nat) {
    t in w.calls &&
    match w.calls[t]
    case StartCall(client, _, _, spc) => StartInv(w, t, client, spc)
    case Query(req, pc) => QueryInv(w, req, pc)
  }

  ghost predicate Inv(w: World) {
    && LockInv(w) && ProcInv(w) && DirInv(w)
    && IndexAgrees(w.jobs, w.index)
    && JobsInv(w) && CallsInv(w)
  }

  ghost predicate JobsInv(w: World) { forall j :: j in w.jobs ==> JobInv(w, j) }

  ghost predicate CallsInv(w: World) { forall t :: t in w.calls ==> CallInv(w, t) }
}
