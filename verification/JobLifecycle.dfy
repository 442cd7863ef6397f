/** The job library as a transition system: any number of Start, Status, StreamOutputSetup and Stop
    calls, one completion goroutine per registered job, the processes themselves, the job cgroup
    directories and the library's read-write mutex. A step is what one actor does between two
    points at which another actor can interleave. */
module JobLifecycle {
  import opened Base
  import opened JobModel

  // ---------------------------------------------------------------- state

  datatype Actor = Caller(t: nat) | Goroutine(j: JobId)

  datatype RWMutex = RWMutex(writer: Option<Actor>, readers: set<nat>)

  // Alive(true): a kill has been written to the cgroup the process lives in.
  datatype Proc = Alive(killed: bool) | Zombie(status: WaitResult) | Reaped(status: WaitResult)

  // A job's cgroup directory, named by a client and a job.
  datatype Dir = Dir(client: Client, id: JobId)

  // Which Start call an ID was generated for.
  datatype Issue = Issue(client: Client, call: nat)

  // removeJobCgroup: write the kill file, stat the directory, remove it.
  datatype Removal = WriteKill | StatDir | RmDir

  datatype Waiter =
    | Waiting
    | Removing(status: WaitResult, rm: Removal)
    | WantLock(status: WaitResult, rmErr: bool)
    | HasLock(status: WaitResult, rmErr: bool)
    | Updated(status: WaitResult, rmErr: bool)
    | Finished(status: WaitResult, rmErr: bool)

  datatype Op = Status | StreamSetup | Stop

  datatype Request = Request(op: Op, client: Client, id: JobId, override: bool)

  // Untouched: the copy, which was version number at of the record. StoppedIt: this call ended the job.
  datatype Outcome = Untouched(copy: JobRecord, at: nat) | StoppedIt(job: JobRecord) | Failed

  datatype Stage = Check | Kill | Poll | Remove(rm: Removal) | Update

  datatype QueryPc =
    | WantFind | Finding | WantCopy | Copying
    | Copied(copy: JobRecord, at: nat)
    | Stopping(copy: JobRecord, at: nat, stage: Stage)
    | Returning(res: Outcome)
    | Done(res: Outcome)

  datatype StartPc =
    | Preparing | HasDir(id: JobId) | HasProc(job: JobRecord)
    | StartLocked(job: JobRecord) | Registered(id: JobId) | Started(id: JobId) | StartFailed

  datatype Call =
    | StartCall(client: Client, command: string, args: seq<string>, spc: StartPc)
    | Query(req: Request, pc: QueryPc)

  datatype World = World(
    jobs: map<JobId, JobRecord>,
    index: map<Client, seq<JobId>>,
    mu: RWMutex,
    calls: map<nat, Call>,
    waiters: map<JobId, Waiter>,
    procs: map<JobId, Proc>,
    issued: map<JobId, Issue>,
    dirs: set<Dir>,
    clock: int,
    history: map<JobId, seq<JobRecord>>) // versions visible at write-lock releases

  predicate Init(w: World) {
    w == World(map[], map[], RWMutex(None, {}), map[], map[], map[], map[], {}, w.clock, map[])
    && w.clock > 0
  }

  // ---------------------------------------------------------------- steps

  datatype Step =
    | BeginStart(t: nat, client: Client, command: string, args: seq<string>)
    | StartFails(t: nat)
    | MakeDir(t: nat, newId: JobId)
    | Spawn(t: nat, pid: int, outputFile: string, now: int)
    | StartLocks(t: nat)
    | Register(t: nat)
    | StartUnlocks(t: nat)
    | BeginQuery(t: nat, req: Request)
    | QueryFails(t: nat)
    | ReadLock(t: nat)
    | FindJob(t: nat)
    | CopyJob(t: nat)
    | ReaderReturns(t: nat)
    | StopLocks(t: nat)
    | StopChecks(t: nat)
    | StopKills(t: nat, ok: bool)
    | StopPolls(t: nat)
    | StopRemoves(t: nat, ok: bool)
    | StopUpdates(t: nat, now: int, later: int)
    | StopUnlocks(t: nat)
    | Exit(j: JobId, status: WaitResult)
    | Reap(j: JobId)
    | WaiterRemoves(j: JobId, ok: bool)
    | WaiterLocks(j: JobId)
    | WaiterUpdates(j: JobId, now: int)
    | WaiterUnlocks(j: JobId)

  predicate AtStart(w: World, t: nat) { t in w.calls && w.calls[t].StartCall? }

  predicate AtQuery(w: World, t: nat) { t in w.calls && w.calls[t].Query? }

  predicate AtStage(w: World, t: nat) {
    AtQuery(w, t) && w.calls[t].pc.Stopping? && w.calls[t].req.id in w.jobs && w.calls[t].req.id in w.procs
  }

  predicate AtWaiter(w: World, j: JobId) { j in w.waiters && j in w.jobs && j in w.procs }

  predicate WriteFree(w: World) { w.mu.writer == None && w.mu.readers == {} }

  predicate Mine(req: Request, r: JobRecord) { r.client == req.client || req.override }

  function StopDir(w: World, t: nat): Dir
    requires AtQuery(w, t)
  {
    // the kill and removal paths are built from the caller's own name
    Dir(w.calls[t].req.client, w.calls[t].req.id)
  }

  function OwnerDir(w: World, j: JobId): Dir
    requires j in w.jobs
  {
    Dir(w.jobs[j].client, j)
  }

  // --- the cgroup directory

  /** Writing 1 to cgroup.kill: a missing file is not an error. */
  function KillIn(w: World, d: Dir): World { w.(procs := ProcsKilled(w, d)) }

  function ProcsKilled(w: World, d: Dir): map<JobId, Proc> {
    if d in w.dirs && d.id in w.procs && w.procs[d.id].Alive? then w.procs[d.id := Alive(true)] else w.procs
  }

  // A populated cgroup cannot be removed.
  predicate CanRmdir(w: World, d: Dir) {
    d in w.dirs && (d.id in w.procs ==> !w.procs[d.id].Alive?)
  }

  datatype RemovalResult = Onward(rm: Removal) | Gone | Error

  function RemovalResultOf(w: World, d: Dir, rm: Removal, ok: bool): RemovalResult {
    if !ok then Error else
    match rm
    case WriteKill => Onward(StatDir)
    case StatDir => if d in w.dirs then Onward(RmDir) else Gone
    case RmDir => if CanRmdir(w, d) then Gone else Error
  }

  predicate RmdirHappens(w: World, d: Dir, rm: Removal, ok: bool) { ok && rm.RmDir? && CanRmdir(w, d) }

  function RemovalEffect(w: World, d: Dir, rm: Removal, ok: bool): World {
    w.(procs := if ok && rm.WriteKill? then ProcsKilled(w, d) else w.procs,
       dirs := if RmdirHappens(w, d, rm, ok) then w.dirs - {d} else w.dirs)
  }

  function WithoutDir(w: World, d: Dir): World { w.(dirs := w.dirs - {d}) }

  function WaiterAfterRemoval(g: Waiter, res: RemovalResult): Waiter
    requires !g.Waiting?
  {
    match res
    case Onward(rm) => Removing(g.status, rm)
    case Gone => WantLock(g.status, false)
    case Error => WantLock(g.status, true)
  }

  function StopAfterRemoval(pc: QueryPc, res: RemovalResult): QueryPc
    requires pc.Stopping?
  {
    match res
    case Onward(rm) => pc.(stage := Remove(rm))
    case Gone => pc.(stage := Update)
    case Error => Returning(Failed)
  }

  // --- versions

  /** h followed by r, unless r is already its last version. */
  function Extend(h: seq<JobRecord>, r: JobRecord): seq<JobRecord> {
    if |h| > 0 && h[|h| - 1] == r then h else h + [r]
  }

  function Versions(w: World, j: JobId): seq<JobRecord> {
    if j in w.history then w.history[j] else []
  }

  /** What a release of the write lock makes visible, for every job. */
  function Publish(w: World): map<JobId, seq<JobRecord>> {
    map j | j in w.jobs :: Extend(Versions(w, j), w.jobs[j])
  }

  function SetStart(w: World, t: nat, pc: StartPc): World
    requires AtStart(w, t)
  {
    w.(calls := w.calls[t := w.calls[t].(spc := pc)])
  }

  function SetPc(w: World, t: nat, pc: QueryPc): World
    requires AtQuery(w, t)
  {
    w.(calls := w.calls[t := w.calls[t].(pc := pc)])
  }

  function LockFor(w: World, a: Actor): World { w.(mu := w.mu.(writer := Some(a))) }

  function Unlock(w: World): World { w.(mu := w.mu.(writer := None), history := Publish(w)) }

  function LastVersion(w: World, j: JobId): nat {
    if |Versions(w, j)| > 0 then |Versions(w, j)| - 1 else 0
  }

  predicate CanBeginStart(w: World, t: nat, client: Client, command: string, args: seq<string>) {
    t !in w.calls
  }

  function DoBeginStart(w: World, t: nat, client: Client, command: string, args: seq<string>): World
    requires CanBeginStart(w, t, client, command, args)
  {
    w.(calls := w.calls[t := StartCall(client, command, args, Preparing)])
  }

  /** Any error return of Start; a directory already made is left behind. */
  predicate CanStartFails(w: World, t: nat) {
    AtStart(w, t) && (w.calls[t].spc.Preparing? || w.calls[t].spc.HasDir?)
  }

  function DoStartFails(w: World, t: nat): World
    requires CanStartFails(w, t)
  {
    SetStart(w, t, StartFailed)
  }

  /** A fresh ID, and its cgroup directory with all limits written. */
  predicate CanMakeDir(w: World, t: nat, newId: JobId) {
    AtStart(w, t) && w.calls[t].spc.Preparing? && w.calls[t].client != "" && w.calls[t].command != ""
    && newId != "" && newId !in w.issued
  }

  function DoMakeDir(w: World, t: nat, newId: JobId): World
    requires CanMakeDir(w, t, newId)
  {
    var c := w.calls[t].client;
    SetStart(w, t, HasDir(newId)).(issued := w.issued[newId := Issue(c, t)], dirs := w.dirs + {Dir(c, newId)})
  }

  /** The process starts, inside its cgroup, before its job is known to the library. */
  predicate CanSpawn(w: World, t: nat, pid: int, outputFile: string, now: int) {
    AtStart(w, t) && w.calls[t].spc.HasDir? && now >= w.clock && now > 0
  }

  function DoSpawn(w: World, t: nat, pid: int, outputFile: string, now: int): World
    requires CanSpawn(w, t, pid, outputFile, now)
  {
    var c := w.calls[t];
    var r := JobRecord(c.spc.id, [], c.client, pid, Running, 0, "", c.command, c.args, outputFile, now, 0);
    SetStart(w, t, HasProc(r)).(procs := w.procs[c.spc.id := Alive(false)], clock := now)
  }

  predicate CanStartLocks(w: World, t: nat) {
    AtStart(w, t) && w.calls[t].spc.HasProc? && WriteFree(w)
  }

  function DoStartLocks(w: World, t: nat): World
    requires CanStartLocks(w, t)
  {
    LockFor(SetStart(w, t, StartLocked(w.calls[t].spc.job)), Caller(t))
  }

  /** Both maps are written and the goroutine is started while the mutex is held. */
  predicate CanRegister(w: World, t: nat) {
    AtStart(w, t) && w.calls[t].spc.StartLocked?
  }

  function DoRegister(w: World, t: nat): World
    requires CanRegister(w, t)
  {
    var r := w.calls[t].spc.job;
    SetStart(w, t, Registered(r.id)).(
      jobs := w.jobs[r.id := r], index := AddToIndex(w.index, r.client, r.id),
      waiters := w.waiters[r.id := Waiting])
  }

  predicate CanStartUnlocks(w: World, t: nat) {
    AtStart(w, t) && w.calls[t].spc.Registered?
  }

  function DoStartUnlocks(w: World, t: nat): World
    requires CanStartUnlocks(w, t)
  {
    SetStart(Unlock(w), t, Started(w.calls[t].spc.id))
  }

  predicate CanBeginQuery(w: World, t: nat, req: Request) {
    t !in w.calls
  }

  function DoBeginQuery(w: World, t: nat, req: Request): World
    requires CanBeginQuery(w, t, req)
  {
    w.(calls := w.calls[t := Query(req, WantFind)])
  }

  /** Failed sanity checks and cancelled contexts. */
  predicate CanQueryFails(w: World, t: nat) {
    AtQuery(w, t)
    && (w.calls[t].pc.WantFind? || w.calls[t].pc.WantCopy?
        || (w.calls[t].pc.Copied? && w.calls[t].req.op == StreamSetup))
  }

  function DoQueryFails(w: World, t: nat): World
    requires CanQueryFails(w, t)
  {
    SetPc(w, t, Done(Failed))
  }

  /** What a request must have to get past the checks of its arguments; Stop also wants the caller's name. */
  predicate Passes(req: Request) {
    (req.client != "" || (req.override && req.op != Stop)) && req.id != ""
  }

  predicate CanReadLock(w: World, t: nat) {
    AtQuery(w, t) && ((w.calls[t].pc.WantFind? && Passes(w.calls[t].req)) || w.calls[t].pc.WantCopy?)
    && w.mu.writer == None
  }

  function DoReadLock(w: World, t: nat): World
    requires CanReadLock(w, t)
  {
    SetPc(w, t, if w.calls[t].pc.WantFind? then Finding else Copying)
      .(mu := w.mu.(readers := w.mu.readers + {t}))
  }

  predicate CanFindJob(w: World, t: nat) {
    AtQuery(w, t) && w.calls[t].pc.Finding?
  }

  function DoFindJob(w: World, t: nat): World
    requires CanFindJob(w, t)
  {
    SetPc(w, t, if w.calls[t].req.id in w.jobs then WantCopy else Done(Failed))
      .(mu := w.mu.(readers := w.mu.readers - {t}))
  }

  /** The whole record is copied under the read lock. */
  predicate CanCopyJob(w: World, t: nat) {
    AtQuery(w, t) && w.calls[t].pc.Copying? && w.calls[t].req.id in w.jobs
  }

  function DoCopyJob(w: World, t: nat): World
    requires CanCopyJob(w, t)
  {
    var id := w.calls[t].req.id;
    SetPc(w, t, Copied(w.jobs[id], LastVersion(w, id))).(mu := w.mu.(readers := w.mu.readers - {t}))
  }

  predicate CanReaderReturns(w: World, t: nat) {
    AtQuery(w, t) && w.calls[t].pc.Copied? && w.calls[t].req.op != Stop
  }

  function DoReaderReturns(w: World, t: nat): World
    requires CanReaderReturns(w, t)
  {
    var c := w.calls[t];
    SetPc(w, t, Done(if Mine(c.req, c.pc.copy) then Untouched(c.pc.copy, c.pc.at) else Failed))
  }

  predicate CanStopLocks(w: World, t: nat) {
    AtQuery(w, t) && w.calls[t].pc.Copied? && w.calls[t].req.op == Stop && WriteFree(w)
  }

  function DoStopLocks(w: World, t: nat): World
    requires CanStopLocks(w, t)
  {
    LockFor(SetPc(w, t, Stopping(w.calls[t].pc.copy, w.calls[t].pc.at, Check)), Caller(t))
  }

  predicate CanStopChecks(w: World, t: nat) {
    AtStage(w, t) && w.calls[t].pc.stage.Check?
  }

  function DoStopChecks(w: World, t: nat): World
    requires CanStopChecks(w, t)
  {
    var c := w.calls[t];
    SetPc(w, t, if !Mine(c.req, w.jobs[c.req.id]) then Returning(Failed)
                else if Terminal(w.jobs[c.req.id].state) then Returning(Untouched(c.pc.copy, c.pc.at))
                else c.pc.(stage := Kill))
  }

  predicate CanStopKills(w: World, t: nat, ok: bool) {
    AtStage(w, t) && w.calls[t].pc.stage.Kill?
  }

  function DoStopKills(w: World, t: nat, ok: bool): World
    requires CanStopKills(w, t, ok)
  {
    SetPc(w.(procs := if ok then ProcsKilled(w, StopDir(w, t)) else w.procs), t,
          if ok then w.calls[t].pc.(stage := Poll) else Returning(Failed))
  }

  /** Signal 0 errors exactly once the process has been reaped; until then the call sleeps and polls again. */
  predicate CanStopPolls(w: World, t: nat) {
    AtStage(w, t) && w.calls[t].pc.stage.Poll?
  }

  function DoStopPolls(w: World, t: nat): World
    requires CanStopPolls(w, t)
  {
    SetPc(w, t, if w.procs[w.calls[t].req.id].Reaped? then w.calls[t].pc.(stage := Remove(WriteKill))
                else w.calls[t].pc)
  }

  predicate CanStopRemoves(w: World, t: nat, ok: bool) {
    AtStage(w, t) && w.calls[t].pc.stage.Remove?
  }

  function DoStopRemoves(w: World, t: nat, ok: bool): World
    requires CanStopRemoves(w, t, ok)
  {
    var rm := w.calls[t].pc.stage.rm;
    SetPc(RemovalEffect(w, StopDir(w, t), rm, ok), t,
          StopAfterRemoval(w.calls[t].pc, RemovalResultOf(w, StopDir(w, t), rm, ok)))
  }

  /** The live record and the copy are updated separately, each with its own reading of the clock. */
  predicate CanStopUpdates(w: World, t: nat, now: int, later: int) {
    AtStage(w, t) && w.calls[t].pc.stage.Update? && w.clock <= now <= later
  }

  function DoStopUpdates(w: World, t: nat, now: int, later: int): World
    requires CanStopUpdates(w, t, now, later)
  {
    var id := w.calls[t].req.id;
    SetPc(w, t, Returning(StoppedIt(StopRecord(w.calls[t].pc.copy, later)))).(
      jobs := w.jobs[id := StopRecord(w.jobs[id], now)], clock := later)
  }

  predicate CanStopUnlocks(w: World, t: nat) {
    AtQuery(w, t) && w.calls[t].pc.Returning?
  }

  function DoStopUnlocks(w: World, t: nat): World
    requires CanStopUnlocks(w, t)
  {
    SetPc(Unlock(w), t, Done(w.calls[t].pc.res))
  }

  /** The process ends, of its own accord or because it was killed. */
  predicate CanExit(w: World, j: JobId, status: WaitResult) {
    j in w.procs && w.procs[j].Alive?
  }

  function DoExit(w: World, j: JobId, status: WaitResult): World
    requires CanExit(w, j, status)
  {
    w.(procs := w.procs[j := Zombie(status)])
  }

  /** cmd.Wait returns to the goroutine; no lock is needed. */
  predicate CanReap(w: World, j: JobId) {
    AtWaiter(w, j) && w.waiters[j].Waiting? && w.procs[j].Zombie?
  }

  function DoReap(w: World, j: JobId): World
    requires CanReap(w, j)
  {
    var status := w.procs[j].status;
    w.(procs := w.procs[j := Reaped(status)], waiters := w.waiters[j := Removing(status, WriteKill)])
  }

  predicate CanWaiterRemoves(w: World, j: JobId, ok: bool) {
    AtWaiter(w, j) && w.waiters[j].Removing?
  }

  function DoWaiterRemoves(w: World, j: JobId, ok: bool): World
    requires CanWaiterRemoves(w, j, ok)
  {
    var g := w.waiters[j];
    RemovalEffect(w, OwnerDir(w, j), g.rm, ok).(
      waiters := w.waiters[j := WaiterAfterRemoval(g, RemovalResultOf(w, OwnerDir(w, j), g.rm, ok))])
  }

  predicate CanWaiterLocks(w: World, j: JobId) {
    AtWaiter(w, j) && w.waiters[j].WantLock? && WriteFree(w)
  }

  function DoWaiterLocks(w: World, j: JobId): World
    requires CanWaiterLocks(w, j)
  {
    LockFor(w, Goroutine(j)).(waiters := w.waiters[j := HasLock(w.waiters[j].status, w.waiters[j].rmErr)])
  }

  predicate CanWaiterUpdates(w: World, j: JobId, now: int) {
    AtWaiter(w, j) && w.waiters[j].HasLock? && now >= w.clock
  }

  function DoWaiterUpdates(w: World, j: JobId, now: int): World
    requires CanWaiterUpdates(w, j, now)
  {
    var g := w.waiters[j];
    w.(waiters := w.waiters[j := Updated(g.status, g.rmErr)], clock := now,
       jobs := w.jobs[j := FinishRecord(w.jobs[j], g.status, g.rmErr, now)])
  }

  predicate CanWaiterUnlocks(w: World, j: JobId) {
    AtWaiter(w, j) && w.waiters[j].Updated?
  }

  function DoWaiterUnlocks(w: World, j: JobId): World
    requires CanWaiterUnlocks(w, j)
  {
    Unlock(w).(waiters := w.waiters[j := Finished(w.waiters[j].status, w.waiters[j].rmErr)])
  }

  /** The steps of a Start call. */
  predicate NextStart(w: World, s: Step, w': World) {
    match s
    case BeginStart(t, client, command, args) =>
      CanBeginStart(w, t, client, command, args) && w' == DoBeginStart(w, t, client, command, args)
    case StartFails(t) => CanStartFails(w, t) && w' == DoStartFails(w, t)
    case MakeDir(t, newId) => CanMakeDir(w, t, newId) && w' == DoMakeDir(w, t, newId)
    case Spawn(t, pid, outputFile, now) =>
      CanSpawn(w, t, pid, outputFile, now) && w' == DoSpawn(w, t, pid, outputFile, now)
    case StartLocks(t) => CanStartLocks(w, t) && w' == DoStartLocks(w, t)
    case Register(t) => CanRegister(w, t) && w' == DoRegister(w, t)
    case StartUnlocks(t) => CanStartUnlocks(w, t) && w' == DoStartUnlocks(w, t)
    case _ => false
  }

  /** The steps that Status, StreamOutputSetup and the unlocked first half of Stop share. */
  predicate NextRead(w: World, s: Step, w': World) {
    match s
    case BeginQuery(t, req) => CanBeginQuery(w, t, req) && w' == DoBeginQuery(w, t, req)
    case QueryFails(t) => CanQueryFails(w, t) && w' == DoQueryFails(w, t)
    case ReadLock(t) => CanReadLock(w, t) && w' == DoReadLock(w, t)
    case FindJob(t) => CanFindJob(w, t) && w' == DoFindJob(w, t)
    case CopyJob(t) => CanCopyJob(w, t) && w' == DoCopyJob(w, t)
    case ReaderReturns(t) => CanReaderReturns(w, t) && w' == DoReaderReturns(w, t)
    case _ => false
  }

  /** The locked half of Stop. */
  predicate NextStop(w: World, s: Step, w': World) {
    match s
    case StopLocks(t) => CanStopLocks(w, t) && w' == DoStopLocks(w, t)
    case StopChecks(t) => CanStopChecks(w, t) && w' == DoStopChecks(w, t)
    case StopKills(t, ok) => CanStopKills(w, t, ok) && w' == DoStopKills(w, t, ok)
    case StopPolls(t) => CanStopPolls(w, t) && w' == DoStopPolls(w, t)
    case StopRemoves(t, ok) => CanStopRemoves(w, t, ok) && w' == DoStopRemoves(w, t, ok)
    case StopUpdates(t, now, later) => CanStopUpdates(w, t, now, later) && w' == DoStopUpdates(w, t, now, later)
    case StopUnlocks(t) => CanStopUnlocks(w, t) && w' == DoStopUnlocks(w, t)
    case _ => false
  }

  /** The processes and their completion goroutines. */
  predicate NextWaiter(w: World, s: Step, w': World) {
    match s
    case Exit(j, status) => CanExit(w, j, status) && w' == DoExit(w, j, status)
    case Reap(j) => CanReap(w, j) && w' == DoReap(w, j)
    case WaiterRemoves(j, ok) => CanWaiterRemoves(w, j, ok) && w' == DoWaiterRemoves(w, j, ok)
    case WaiterLocks(j) => CanWaiterLocks(w, j) && w' == DoWaiterLocks(w, j)
    case WaiterUpdates(j, now) => CanWaiterUpdates(w, j, now) && w' == DoWaiterUpdates(w, j, now)
    case WaiterUnlocks(j) => CanWaiterUnlocks(w, j) && w' == DoWaiterUnlocks(w, j)
    case _ => false
  }

  predicate Next(w: World, s: Step, w': World) {
    NextStart(w, s, w') || NextRead(w, s, w') || NextStop(w, s, w') || NextWaiter(w, s, w')
  }

  // ---------------------------------------------------------------- runs

  /** ws are the states and ss the steps of a run from an initial state. */
  ghost predicate Run(ws: seq<World>, ss: seq<Step>) {
    && |ws| == |ss| + 1
    && Init(ws[0])
    && forall i :: 0 <= i < |ss| ==> Next(ws[i], ss[i], ws[i + 1])
  }
}
