/** Every step of the life cycle keeps the invariant. */
module LifecycleSteps {
  import opened Base
  import opened JobModel
  import opened JobLifecycle
  import opened LifecycleInvariant
  import opened LifecycleFrames

  /** All versions name the same owner, and a record is either running or terminal. */
  lemma ChainOwner(w: World, j: JobId, at: nat)
    requires JobInv(w, j) && at < |Versions(w, j)|
    ensures Versions(w, j)[at].client == w.jobs[j].client
    ensures w.jobs[j].state == Running || Terminal(w.jobs[j].state)
  {
    assert Versions(w, j)[at] == AllVersions(w, j)[at];
  }

  // ---------------------------------------------------------------- steps local to a call

  lemma LockLocal(w: World, t: nat, c: Call, mu: RWMutex)
    requires LockInv(w)
    requires t in mu.readers <==> CallReads(c)
    requires mu.readers - {t} == w.mu.readers - {t}
    requires CallReads(c) ==> mu.writer == None
    requires if CallWrites(c) then mu == RWMutex(Some(Caller(t)), {}) && (w.mu == mu || WriteFree(w))
             else mu.writer == if w.mu.writer == Some(Caller(t)) then None else w.mu.writer
    ensures LockInv(w.(calls := w.calls[t := c], mu := mu))
  {
    var w' := w.(calls := w.calls[t := c], mu := mu);
    forall k ensures k in mu.readers <==> k in w'.calls && CallReads(w'.calls[k]) {
      if k != t {
        assert k in mu.readers - {t} <==> k in w.mu.readers - {t};
      }
    }
  }

  /** What a call's own step may rely on. */
  ghost predicate Before(w: World, t: nat) {
    && LockInv(w)
    && (t in w.calls ==> CallInv(w, t))
    && (AtQuery(w, t) && w.calls[t].req.id in w.jobs ==> JobInv(w, w.calls[t].req.id))
    && w.history.Keys <= w.jobs.Keys
  }

  ghost predicate Local(w: World, w': World, t: nat) {
    && t in w'.calls
    && w' == w.(calls := w.calls[t := w'.calls[t]], mu := w'.mu)
    && LockInv(w') && CallInv(w', t)
  }

  lemma BeginStartLocal(w: World, t: nat, client: Client, command: string, args: seq<string>)
    requires Before(w, t) && CanBeginStart(w, t, client, command, args)
    ensures Local(w, DoBeginStart(w, t, client, command, args), t)
  {
    var w' := DoBeginStart(w, t, client, command, args);
    assert LockInv(w') by { LockLocal(w, t, w'.calls[t], w'.mu); }
  }

  lemma StartFailsLocal(w: World, t: nat)
    requires Before(w, t) && CanStartFails(w, t)
    ensures Local(w, DoStartFails(w, t), t)
  {
    var w' := DoStartFails(w, t);
    assert LockInv(w') by { LockLocal(w, t, w'.calls[t], w'.mu); }
  }

  lemma StartLocksLocal(w: World, t: nat)
    requires Before(w, t) && CanStartLocks(w, t)
    ensures Local(w, DoStartLocks(w, t), t)
  {
    var w' := DoStartLocks(w, t);
    assert LockInv(w') by { LockLocal(w, t, w'.calls[t], w'.mu); }
  }

  lemma BeginQueryLocal(w: World, t: nat, req: Request)
    requires Before(w, t) && CanBeginQuery(w, t, req)
    ensures Local(w, DoBeginQuery(w, t, req), t)
  {
    var w' := DoBeginQuery(w, t, req);
    assert LockInv(w') by { LockLocal(w, t, w'.calls[t], w'.mu); }
  }

  lemma QueryFailsLocal(w: World, t: nat)
    requires Before(w, t) && CanQueryFails(w, t)
    ensures Local(w, DoQueryFails(w, t), t)
  {
    var w' := DoQueryFails(w, t);
    assert LockInv(w') by { LockLocal(w, t, w'.calls[t], w'.mu); }
  }

  lemma ReadLockLocal(w: World, t: nat)
    requires Before(w, t) && CanReadLock(w, t)
    ensures Local(w, DoReadLock(w, t), t)
  {
    var w' := DoReadLock(w, t);
    assert LockInv(w') by { LockLocal(w, t, w'.calls[t], w'.mu); }
  }

  lemma FindJobLocal(w: World, t: nat)
    requires Before(w, t) && CanFindJob(w, t)
    ensures Local(w, DoFindJob(w, t), t)
  {
    var w' := DoFindJob(w, t);
    assert LockInv(w') by { LockLocal(w, t, w'.calls[t], w'.mu); }
  }

  lemma CopyJobLocal(w: World, t: nat)
    requires Before(w, t) && CanCopyJob(w, t)
    ensures Local(w, DoCopyJob(w, t), t)
  {
    var w' := DoCopyJob(w, t);
    assert LockInv(w') by { LockLocal(w, t, w'.calls[t], w'.mu); }
  }

  lemma ReaderReturnsLocal(w: World, t: nat)
    requires Before(w, t) && CanReaderReturns(w, t)
    ensures Local(w, DoReaderReturns(w, t), t)
  {
    var w' := DoReaderReturns(w, t);
    assert LockInv(w') by { LockLocal(w, t, w'.calls[t], w'.mu); }
  }

  lemma StopLocksLocal(w: World, t: nat)
    requires Before(w, t) && CanStopLocks(w, t)
    ensures Local(w, DoStopLocks(w, t), t)
  {
    var w' := DoStopLocks(w, t);
    assert LockInv(w') by { LockLocal(w, t, w'.calls[t], w'.mu); }
  }

  lemma StopChecksLocal(w: World, t: nat)
    requires Before(w, t) && CanStopChecks(w, t)
    ensures Local(w, DoStopChecks(w, t), t)
  {
    var w' := DoStopChecks(w, t);
    var j := w.calls[t].req.id;
    assert w.calls[t].pc.copy.client == w.jobs[j].client && (w.jobs[j].state == Running || Terminal(w.jobs[j].state)) by {
      ChainOwner(w, j, w.calls[t].pc.at);
    }
    assert LockInv(w') by { LockLocal(w, t, w'.calls[t], w'.mu); }
  }

  lemma StopPollsLocal(w: World, t: nat)
    requires Before(w, t) && CanStopPolls(w, t)
    ensures Local(w, DoStopPolls(w, t), t)
  {
    var w' := DoStopPolls(w, t);
    assert LockInv(w') by { LockLocal(w, t, w'.calls[t], w'.mu); }
  }

  lemma LocalEffect(w: World, w': World, t: nat)
    requires LockInv(w) && Local(w, w', t)
    requires t in w.calls && Wrote(w.calls[t]) ==> forall j :: j in w.jobs ==> Settled(w, j)
    ensures forall j :: SameJob(w, w', j)
    ensures Effect(w, w', "", Some(t))
    ensures forall j :: j in w.jobs ==> WritersKept(w, w', j)
  {
    forall j ensures SameJob(w, w', j) {}
    forall j | j in w.jobs ensures WritersKept(w, w', j) {}
  }

  lemma LocalKeeps(w: World, w': World, t: nat)
    requires Inv(w) && Local(w, w', t)
    requires t in w.calls && Wrote(w.calls[t]) ==> forall j :: j in w.jobs ==> Settled(w, j)
    ensures Inv(w')
  {
    LocalEffect(w, w', t);
    if "" in w.jobs { JobUntouched(w, w', ""); }
    Assemble(w, w', "", Some(t));
  }

  // ---------------------------------------------------------------- steps that change one job

  // Writing the kill file, whoever does it, and the end of a process.

  function AtProc(w: World, j: JobId, p: Proc): World { w.(procs := w.procs[j := p]) }

  /** A process that has not been reaped is marked killed, or ends. */
  predicate ProcMoves(w: World, j: JobId, p: Proc) {
    j in w.procs && !w.procs[j].Reaped? && !p.Reaped? && p != Alive(false)
  }

  lemma ProcParts(w: World, j: JobId, p: Proc)
    requires LockInv(w) && ProcInv(w) && DirInv(w) && ProcMoves(w, j, p)
    ensures LockInv(AtProc(w, j, p)) && ProcInv(AtProc(w, j, p)) && DirInv(AtProc(w, j, p))
  {
  }

  lemma ProcJob(w: World, j: JobId, p: Proc)
    requires JobInv(w, j) && ProcMoves(w, j, p)
    ensures JobInv(AtProc(w, j, p), j)
  {
  }

  lemma ProcEffect(w: World, j: JobId, p: Proc)
    requires ProcMoves(w, j, p)
    ensures Effect(w, AtProc(w, j, p), j, None)
  {
  }

  lemma ProcKept(w: World, j: JobId, p: Proc)
    requires Inv(w) && ProcMoves(w, j, p)
    ensures Inv(AtProc(w, j, p))
  {
    ProcParts(w, j, p);
    if j in w.jobs { ProcJob(w, j, p); }
    ProcEffect(w, j, p);
    Assemble(w, AtProc(w, j, p), j, None);
  }

  // Removing a directory: nobody gets that far before the process has been reaped.

  predicate DirGoes(w: World, d: Dir) { d in w.dirs && d.id in w.procs && w.procs[d.id].Reaped? }

  lemma RmdirParts(w: World, d: Dir)
    requires LockInv(w) && ProcInv(w) && DirInv(w) && DirGoes(w, d)
    ensures LockInv(WithoutDir(w, d)) && ProcInv(WithoutDir(w, d)) && DirInv(WithoutDir(w, d))
  {
  }

  lemma RmdirJob(w: World, d: Dir)
    requires JobInv(w, d.id)
    ensures JobInv(WithoutDir(w, d), d.id)
  {
  }

  lemma RmdirEffect(w: World, d: Dir)
    requires DirGoes(w, d)
    ensures Effect(w, WithoutDir(w, d), d.id, None)
  {
  }

  lemma RmdirKept(w: World, d: Dir)
    requires Inv(w) && DirGoes(w, d)
    ensures Inv(WithoutDir(w, d))
  {
    RmdirParts(w, d);
    if d.id in w.jobs { RmdirJob(w, d); }
    RmdirEffect(w, d);
    Assemble(w, WithoutDir(w, d), d.id, None);
  }

  lemma KillKept(w: World, d: Dir)
    requires Inv(w)
    ensures Inv(KillIn(w, d))
  {
    if KillIn(w, d) != w { ProcKept(w, d.id, Alive(true)); }
  }

  lemma RemovalKept(w: World, d: Dir, rm: Removal, ok: bool)
    requires Inv(w) && d.id in w.procs && w.procs[d.id].Reaped?
    ensures Inv(RemovalEffect(w, d, rm, ok))
  {
    if ok && rm.WriteKill? {
      assert RemovalEffect(w, d, rm, ok) == KillIn(w, d);
      KillKept(w, d);
    } else if RmdirHappens(w, d, rm, ok) {
      assert RemovalEffect(w, d, rm, ok) == WithoutDir(w, d);
      RmdirKept(w, d);
    } else {
      assert RemovalEffect(w, d, rm, ok) == w;
    }
  }

  // The goroutine's cmd.Wait returns.

  lemma ReapParts(w: World, j: JobId)
    requires LockInv(w) && ProcInv(w) && DirInv(w) && CanReap(w, j)
    ensures var w' := DoReap(w, j); LockInv(w') && ProcInv(w') && DirInv(w')
  {
  }

  lemma ReapJob(w: World, j: JobId)
    requires LockInv(w) && JobInv(w, j) && CanReap(w, j)
    ensures JobInv(DoReap(w, j), j)
  {
  }

  lemma ReapEffect(w: World, j: JobId)
    requires LockInv(w) && CanReap(w, j)
    ensures Effect(w, DoReap(w, j), j, None)
  {
  }

  lemma ReapKept(w: World, j: JobId)
    requires Inv(w) && CanReap(w, j)
    ensures Inv(DoReap(w, j))
  {
    assert JobInv(w, j);
    ReapParts(w, j);
    ReapJob(w, j);
    ReapEffect(w, j);
    Assemble(w, DoReap(w, j), j, None);
  }

  // Steps of a goroutine that change only where it is and who holds the mutex.

  function AtWaiterPc(w: World, j: JobId, g: Waiter, mu: RWMutex): World {
    w.(waiters := w.waiters[j := g], mu := mu)
  }

  lemma WaiterLock(w: World, j: JobId, g: Waiter, mu: RWMutex)
    requires LockInv(w) && j in w.waiters
    requires mu.readers == w.mu.readers
    requires if WaiterWrites(g) then mu == RWMutex(Some(Goroutine(j)), {}) && (w.mu == mu || WriteFree(w))
             else mu.writer == if w.mu.writer == Some(Goroutine(j)) then None else w.mu.writer
    ensures LockInv(AtWaiterPc(w, j, g, mu))
  {
  }

  lemma WaiterEffect(w: World, j: JobId, g: Waiter, mu: RWMutex)
    requires LockInv(w) && j in w.waiters && LockInv(AtWaiterPc(w, j, g, mu))
    requires w.waiters[j].Updated? ==> forall k :: k in w.jobs ==> Settled(w, k)
    ensures Effect(w, AtWaiterPc(w, j, g, mu), j, None)
  {
  }

  lemma WaiterParts(w: World, j: JobId, g: Waiter, mu: RWMutex)
    requires ProcInv(w) && DirInv(w) && j in w.jobs
    ensures ProcInv(AtWaiterPc(w, j, g, mu)) && DirInv(AtWaiterPc(w, j, g, mu))
  {
  }

  ghost predicate WaiterLocal(w: World, w': World, j: JobId) {
    && j in w.jobs && j in w.waiters && j in w'.waiters
    && w' == AtWaiterPc(w, j, w'.waiters[j], w'.mu)
    && LockInv(w') && JobInv(w', j)
  }

  lemma WaiterKeeps(w: World, w': World, j: JobId)
    requires Inv(w) && WaiterLocal(w, w', j)
    requires w.waiters[j].Updated? ==> forall k :: k in w.jobs ==> Settled(w, k)
    ensures Inv(w')
  {
    WaiterParts(w, j, w'.waiters[j], w'.mu);
    WaiterEffect(w, j, w'.waiters[j], w'.mu);
    Assemble(w, w', j, None);
  }

  lemma WaiterLocksLocal(w: World, j: JobId)
    requires LockInv(w) && JobInv(w, j) && CanWaiterLocks(w, j)
    ensures WaiterLocal(w, DoWaiterLocks(w, j), j)
  {
    var w' := DoWaiterLocks(w, j);
    assert LockInv(w') by { WaiterLock(w, j, w'.waiters[j], w'.mu); }
  }

  lemma WaiterLocksKept(w: World, j: JobId)
    requires Inv(w) && CanWaiterLocks(w, j)
    ensures Inv(DoWaiterLocks(w, j))
  {
    assert JobInv(w, j);
    WaiterLocksLocal(w, j);
    WaiterKeeps(w, DoWaiterLocks(w, j), j);
  }

  /** What a removal step leaves as it was, and what a removal that reports success has established. */
  lemma RemovalFacts(w: World, d: Dir, rm: Removal, ok: bool)
    ensures var w1 := RemovalEffect(w, d, rm, ok);
            && w1.calls == w.calls && w1.waiters == w.waiters && w1.mu == w.mu && w1.jobs == w.jobs
            && w1.history == w.history && w1.procs.Keys == w.procs.Keys
            && (RemovalResultOf(w, d, rm, ok).Gone? ==> d !in w1.dirs)
  {
  }

  lemma WaiterRemovesLocal(w: World, j: JobId, res: RemovalResult)
    requires LockInv(w) && JobInv(w, j) && w.waiters[j].Removing?
    requires res.Gone? ==> OwnerDir(w, j) !in w.dirs
    ensures WaiterLocal(w, AtWaiterPc(w, j, WaiterAfterRemoval(w.waiters[j], res), w.mu), j)
  {
    assert LockInv(AtWaiterPc(w, j, WaiterAfterRemoval(w.waiters[j], res), w.mu)) by {
      WaiterLock(w, j, WaiterAfterRemoval(w.waiters[j], res), w.mu);
    }
  }

  lemma WaiterRemovesKept(w: World, j: JobId, ok: bool)
    requires Inv(w) && CanWaiterRemoves(w, j, ok)
    ensures Inv(DoWaiterRemoves(w, j, ok))
  {
    var d, rm := OwnerDir(w, j), w.waiters[j].rm;
    var w1 := RemovalEffect(w, d, rm, ok);
    assert JobInv(w, j);
    RemovalKept(w, d, rm, ok);
    RemovalFacts(w, d, rm, ok);
    assert JobInv(w1, j);
    WaiterRemovesLocal(w1, j, RemovalResultOf(w, d, rm, ok));
    WaiterKeeps(w1, DoWaiterRemoves(w, j, ok), j);
  }

  // Releasing the mutex makes the one record that was rewritten visible.

  function WrittenJob(w: World): JobId {
    match w.mu.writer
    case None => ""
    case Some(a) =>
      if a.Goroutine? then a.j
      else if a.t in w.calls && Wrote(w.calls[a.t]) then Subject(w.calls[a.t])
      else ""
  }

  function WritingCall(w: World): Option<nat> {
    if w.mu.writer.Some? && w.mu.writer.value.Caller? then Some(w.mu.writer.value.t) else None
  }

  function Published(w: World): World { w.(history := Publish(w)) }

  lemma PublishParts(w: World)
    requires LockInv(w) && ProcInv(w) && DirInv(w)
    ensures LockInv(Published(w)) && ProcInv(Published(w)) && DirInv(Published(w))
  {
  }

  lemma PublishJob(w: World, j: JobId)
    requires JobInv(w, j)
    ensures JobInv(Published(w), j) && Settled(Published(w), j)
    ensures JobGrows(w, Published(w), j) && AllVersions(Published(w), j) == AllVersions(w, j)
    ensures j != WrittenJob(w) ==> SameJob(w, Published(w), j)
  {
  }

  lemma PublishJobs(w: World)
    requires JobsInv(w) && w.history.Keys <= w.jobs.Keys
    ensures forall j :: j != WrittenJob(w) ==> SameJob(w, Published(w), j)
    ensures forall j :: JobGrows(w, Published(w), j)
  {
    forall j ensures j != WrittenJob(w) ==> SameJob(w, Published(w), j)
             ensures JobGrows(w, Published(w), j)
    {
      if j in w.jobs { PublishJob(w, j); }
    }
  }

  lemma PublishEffect(w: World)
    requires LockInv(w) && JobsInv(w) && w.history.Keys <= w.jobs.Keys
    ensures Effect(w, Published(w), WrittenJob(w), WritingCall(w))
  {
    PublishJobs(w);
    forall j ensures WritersKept(w, Published(w), j) {}
    forall k ensures LeftAlone(w, Published(w), WrittenJob(w), k) {}
  }

  predicate Releasing(c: Call) {
    match c
    case StartCall(_, _, _, spc) => spc.Registered?
    case Query(_, pc) => pc.Returning?
  }

  lemma PublishCall(w: World, t: nat)
    requires t in w.calls && CallInv(w, t) && Releasing(w.calls[t])
    requires Versions(w, Subject(w.calls[t])) <= Versions(Published(w), Subject(w.calls[t]))
    requires AllVersions(Published(w), Subject(w.calls[t])) == AllVersions(w, Subject(w.calls[t]))
    ensures CallInv(Published(w), t)
  {
  }

  lemma PublishKept(w: World)
    requires Inv(w)
    requires WritingCall(w).Some? ==> Releasing(w.calls[WritingCall(w).value])
    ensures Inv(Published(w))
    ensures forall j :: j in w.jobs ==> Settled(Published(w), j)
  {
    PublishParts(w);
    PublishEffect(w);
    forall j | j in w.jobs ensures JobInv(Published(w), j) && Settled(Published(w), j) {
      PublishJob(w, j);
    }
    if WritingCall(w).Some? {
      PublishOwn(w, WritingCall(w).value);
    }
    Assemble(w, Published(w), WrittenJob(w), WritingCall(w));
  }

  lemma PublishOwn(w: World, t: nat)
    requires CallsInv(w) && JobsInv(w) && w.history.Keys <= w.jobs.Keys && t in w.calls && Releasing(w.calls[t])
    ensures CallInv(Published(w), t)
  {
    var j := Subject(w.calls[t]);
    assert CallInv(w, t);
    if j in w.jobs { PublishJob(w, j); }
    PublishCall(w, t);
  }

  // The three unlocking steps, seen from the state in which the release has been published.

  lemma StartUnlocksLocal(w: World, t: nat)
    requires Before(w, t) && AtStart(w, t) && w.calls[t].spc.Registered?
    ensures Local(w, SetStart(w, t, Started(w.calls[t].spc.id)).(mu := w.mu.(writer := None)), t)
  {
    var w' := SetStart(w, t, Started(w.calls[t].spc.id)).(mu := w.mu.(writer := None));
    assert LockInv(w') by { LockLocal(w, t, w'.calls[t], w'.mu); }
  }

  lemma StopUnlocksLocal(w: World, t: nat)
    requires Before(w, t) && AtQuery(w, t) && w.calls[t].pc.Returning?
    requires w.calls[t].req.id in w.jobs ==> Settled(w, w.calls[t].req.id)
    ensures Local(w, SetPc(w, t, Done(w.calls[t].pc.res)).(mu := w.mu.(writer := None)), t)
  {
    var w' := SetPc(w, t, Done(w.calls[t].pc.res)).(mu := w.mu.(writer := None));
    assert LockInv(w') by { LockLocal(w, t, w'.calls[t], w'.mu); }
  }

  lemma WaiterUnlocksLocal(w: World, j: JobId)
    requires LockInv(w) && JobInv(w, j) && w.waiters[j].Updated? && Settled(w, j)
    ensures var g := Finished(w.waiters[j].status, w.waiters[j].rmErr);
            WaiterLocal(w, AtWaiterPc(w, j, g, w.mu.(writer := None)), j)
  {
    var g := Finished(w.waiters[j].status, w.waiters[j].rmErr);
    assert LockInv(AtWaiterPc(w, j, g, w.mu.(writer := None))) by {
      WaiterLock(w, j, g, w.mu.(writer := None));
    }
  }

  lemma BeforeAny(w: World, t: nat)
    requires Inv(w)
    ensures Before(w, t)
  {
  }

  lemma StartReleased(w: World, t: nat)
    requires Inv(w) && AtStart(w, t) && w.calls[t].spc.Registered? && forall j :: j in w.jobs ==> Settled(w, j)
    ensures Inv(SetStart(w, t, Started(w.calls[t].spc.id)).(mu := w.mu.(writer := None)))
  {
    BeforeAny(w, t);
    StartUnlocksLocal(w, t);
    LocalKeeps(w, SetStart(w, t, Started(w.calls[t].spc.id)).(mu := w.mu.(writer := None)), t);
  }

  lemma StopReleased(w: World, t: nat)
    requires Inv(w) && AtQuery(w, t) && w.calls[t].pc.Returning? && forall j :: j in w.jobs ==> Settled(w, j)
    ensures Inv(SetPc(w, t, Done(w.calls[t].pc.res)).(mu := w.mu.(writer := None)))
  {
    BeforeAny(w, t);
    StopUnlocksLocal(w, t);
    LocalKeeps(w, SetPc(w, t, Done(w.calls[t].pc.res)).(mu := w.mu.(writer := None)), t);
  }

  lemma StartUnlocksKept(w: World, t: nat)
    requires Inv(w) && CanStartUnlocks(w, t)
    ensures Inv(DoStartUnlocks(w, t))
  {
    PublishKept(w);
    StartReleased(Published(w), t);
  }

  lemma StopUnlocksKept(w: World, t: nat)
    requires Inv(w) && CanStopUnlocks(w, t)
    ensures Inv(DoStopUnlocks(w, t))
  {
    PublishKept(w);
    StopReleased(Published(w), t);
  }

  lemma WaiterUnlocksKept(w: World, j: JobId)
    requires Inv(w) && CanWaiterUnlocks(w, j)
    ensures Inv(DoWaiterUnlocks(w, j))
  {
    PublishKept(w);
    var w1 := Published(w);
    assert JobInv(w1, j);
    WaiterUnlocksLocal(w1, j);
    WaiterKeeps(w1, DoWaiterUnlocks(w, j), j);
  }

  // Stop's kill and removal: first the effect on the process or the directory, then the call's move.

  lemma StopKillsLocal(w: World, t: nat, ok: bool)
    requires Before(w, t) && AtStage(w, t) && w.calls[t].pc.stage.Kill?
    requires ok && w.jobs[w.calls[t].req.id].client == w.calls[t].req.client ==>
               w.procs[w.calls[t].req.id] != Alive(false)
    ensures Local(w, SetPc(w, t, if ok then w.calls[t].pc.(stage := Poll) else Returning(Failed)), t)
  {
    var w' := SetPc(w, t, if ok then w.calls[t].pc.(stage := Poll) else Returning(Failed));
    assert LockInv(w') by { LockLocal(w, t, w'.calls[t], w'.mu); }
  }

  lemma StopKilled(w: World, t: nat, ok: bool)
    requires Inv(w) && AtStage(w, t) && w.calls[t].pc.stage.Kill?
    requires ok && w.jobs[w.calls[t].req.id].client == w.calls[t].req.client ==>
               w.procs[w.calls[t].req.id] != Alive(false)
    ensures Inv(SetPc(w, t, if ok then w.calls[t].pc.(stage := Poll) else Returning(Failed)))
  {
    BeforeAny(w, t);
    StopKillsLocal(w, t, ok);
    LocalKeeps(w, SetPc(w, t, if ok then w.calls[t].pc.(stage := Poll) else Returning(Failed)), t);
  }

  /** The owner's kill reaches the process, because its directory is still there. */
  lemma OwnerKills(w: World, j: JobId)
    requires ProcInv(w) && j in w.jobs && JobInv(w, j)
    ensures ProcsKilled(w, OwnerDir(w, j))[j] != Alive(false)
  {
  }

  lemma StopKillsKept(w: World, t: nat, ok: bool)
    requires Inv(w) && CanStopKills(w, t, ok)
    ensures Inv(DoStopKills(w, t, ok))
  {
    var j := w.calls[t].req.id;
    assert JobInv(w, j);
    if ok {
      OwnerKills(w, j);
      KillKept(w, StopDir(w, t));
      StopKilled(KillIn(w, StopDir(w, t)), t, ok);
    } else {
      assert DoStopKills(w, t, ok) == SetPc(w, t, Returning(Failed));
      StopKilled(w, t, ok);
    }
  }

  lemma StopRemovesLocal(w: World, t: nat, res: RemovalResult)
    requires Before(w, t) && AtStage(w, t) && w.calls[t].pc.stage.Remove?
    requires res.Gone? ==> StopDir(w, t) !in w.dirs
    ensures Local(w, SetPc(w, t, StopAfterRemoval(w.calls[t].pc, res)), t)
  {
    var w' := SetPc(w, t, StopAfterRemoval(w.calls[t].pc, res));
    assert LockInv(w') by { LockLocal(w, t, w'.calls[t], w'.mu); }
  }

  lemma StopRemoved(w: World, t: nat, res: RemovalResult)
    requires Inv(w) && AtStage(w, t) && w.calls[t].pc.stage.Remove?
    requires res.Gone? ==> StopDir(w, t) !in w.dirs
    ensures Inv(SetPc(w, t, StopAfterRemoval(w.calls[t].pc, res)))
  {
    BeforeAny(w, t);
    StopRemovesLocal(w, t, res);
    LocalKeeps(w, SetPc(w, t, StopAfterRemoval(w.calls[t].pc, res)), t);
  }

  lemma RemovesTheReaped(w: World, t: nat)
    requires Inv(w) && AtStage(w, t) && w.calls[t].pc.stage.Remove?
    ensures w.procs[w.calls[t].req.id].Reaped?
  {
    hide LockInv, ProcInv, DirInv, IndexAgrees, JobsInv;
    assert CallInv(w, t);
  }

  lemma StopRemovesKept(w: World, t: nat, ok: bool)
    requires Inv(w) && CanStopRemoves(w, t, ok)
    ensures Inv(DoStopRemoves(w, t, ok))
  {
    hide Inv, RemovalEffect, RemovalResultOf, StopAfterRemoval;
    var d, rm := StopDir(w, t), w.calls[t].pc.stage.rm;
    RemovesTheReaped(w, t);
    RemovalKept(w, d, rm, ok);
    RemovalFacts(w, d, rm, ok);
    StopRemoved(RemovalEffect(w, d, rm, ok), t, RemovalResultOf(w, d, rm, ok));
  }

  // ---------------------------------------------------------------- new jobs

  /** Only the mutex and the positions of the actors matter to LockInv. */
  lemma LockSame(w: World, w': World)
    requires LockInv(w) && w'.mu == w.mu && w'.calls == w.calls && w'.waiters == w.waiters
    ensures LockInv(w')
  {
  }

  lemma MakeDirParts(w: World, t: nat, newId: JobId)
    requires LockInv(w) && ProcInv(w) && DirInv(w) && CanMakeDir(w, t, newId)
    ensures var w' := DoMakeDir(w, t, newId); LockInv(w') && ProcInv(w') && DirInv(w')
    ensures CallInv(DoMakeDir(w, t, newId), t)
  {
    LockLocal(w, t, DoMakeDir(w, t, newId).calls[t], w.mu);
    LockSame(w.(calls := DoMakeDir(w, t, newId).calls), DoMakeDir(w, t, newId));
  }

  lemma MakeDirEffect(w: World, t: nat, newId: JobId)
    requires LockInv(w) && ProcInv(w) && CanMakeDir(w, t, newId)
    ensures Effect(w, DoMakeDir(w, t, newId), newId, Some(t))
  {
  }

  lemma MakeDirKept(w: World, t: nat, newId: JobId)
    requires Inv(w) && CanMakeDir(w, t, newId)
    ensures Inv(DoMakeDir(w, t, newId))
  {
    MakeDirParts(w, t, newId);
    MakeDirEffect(w, t, newId);
    Assemble(w, DoMakeDir(w, t, newId), newId, Some(t));
  }

  lemma SpawnParts(w: World, t: nat, pid: int, outputFile: string, now: int)
    requires LockInv(w) && ProcInv(w) && DirInv(w) && CallInv(w, t) && CanSpawn(w, t, pid, outputFile, now)
    ensures var w' := DoSpawn(w, t, pid, outputFile, now); LockInv(w') && ProcInv(w') && DirInv(w')
    ensures CallInv(DoSpawn(w, t, pid, outputFile, now), t)
  {
    LockLocal(w, t, DoSpawn(w, t, pid, outputFile, now).calls[t], w.mu);
    LockSame(w.(calls := DoSpawn(w, t, pid, outputFile, now).calls), DoSpawn(w, t, pid, outputFile, now));
  }

  lemma SpawnEffect(w: World, t: nat, pid: int, outputFile: string, now: int)
    requires LockInv(w) && ProcInv(w) && CallInv(w, t) && CanSpawn(w, t, pid, outputFile, now)
    ensures Effect(w, DoSpawn(w, t, pid, outputFile, now), w.calls[t].spc.id, Some(t))
  {
  }

  lemma SpawnKept(w: World, t: nat, pid: int, outputFile: string, now: int)
    requires Inv(w) && CanSpawn(w, t, pid, outputFile, now)
    ensures Inv(DoSpawn(w, t, pid, outputFile, now))
  {
    assert CallInv(w, t);
    SpawnParts(w, t, pid, outputFile, now);
    SpawnEffect(w, t, pid, outputFile, now);
    Assemble(w, DoSpawn(w, t, pid, outputFile, now), w.calls[t].spc.id, Some(t));
  }

  lemma RegisterParts(w: World, t: nat)
    requires LockInv(w) && ProcInv(w) && DirInv(w) && CallInv(w, t) && CanRegister(w, t)
    ensures var w' := DoRegister(w, t); LockInv(w') && ProcInv(w') && DirInv(w')
    ensures CallInv(DoRegister(w, t), t)
  {
    LockLocal(w, t, DoRegister(w, t).calls[t], w.mu);
  }

  lemma RegisterJob(w: World, t: nat)
    requires LockInv(w) && ProcInv(w) && DirInv(w) && CallInv(w, t) && CanRegister(w, t)
    ensures JobInv(DoRegister(w, t), w.calls[t].spc.job.id)
  {
    assert w.calls[t].spc.job.id !in w.history;
  }

  lemma RegisterEffect(w: World, t: nat)
    requires LockInv(w) && ProcInv(w) && CallInv(w, t) && CanRegister(w, t)
    ensures Effect(w, DoRegister(w, t), w.calls[t].spc.job.id, Some(t))
  {
  }

  lemma RegisterKept(w: World, t: nat)
    requires Inv(w) && CanRegister(w, t)
    ensures Inv(DoRegister(w, t))
  {
    assert CallInv(w, t);
    RegisterParts(w, t);
    RegisterJob(w, t);
    RegisterEffect(w, t);
    RegisterKeepsIndex(w.jobs, w.index, w.calls[t].spc.job);
    Assemble(w, DoRegister(w, t), w.calls[t].spc.job.id, Some(t));
  }

  // ---------------------------------------------------------------- rewriting a record

  lemma StopUpdatesParts(w: World, t: nat, now: int, later: int)
    requires LockInv(w) && ProcInv(w) && DirInv(w) && CanStopUpdates(w, t, now, later)
    ensures var w' := DoStopUpdates(w, t, now, later); LockInv(w') && ProcInv(w') && DirInv(w')
  {
    LockLocal(w, t, DoStopUpdates(w, t, now, later).calls[t], w.mu);
    LockSame(w.(calls := DoStopUpdates(w, t, now, later).calls), DoStopUpdates(w, t, now, later));
  }

  /** The record found Running is still the copy, so both are given the same update. */
  lemma StopUpdatesJob(w: World, t: nat, now: int, later: int)
    requires w.clock > 0 && LockInv(w) && CallInv(w, t) && CanStopUpdates(w, t, now, later)
    requires JobInv(w, w.calls[t].req.id)
    ensures JobInv(DoStopUpdates(w, t, now, later), w.calls[t].req.id)
    ensures CallInv(DoStopUpdates(w, t, now, later), t)
  {
  }

  lemma StopUpdatesEffect(w: World, t: nat, now: int, later: int)
    requires LockInv(w) && CallInv(w, t) && CanStopUpdates(w, t, now, later)
    requires JobInv(w, w.calls[t].req.id)
    ensures Effect(w, DoStopUpdates(w, t, now, later), w.calls[t].req.id, Some(t))
  {
  }

  lemma StopUpdatesKept(w: World, t: nat, now: int, later: int)
    requires Inv(w) && CanStopUpdates(w, t, now, later)
    ensures Inv(DoStopUpdates(w, t, now, later))
  {
    var j := w.calls[t].req.id;
    assert CallInv(w, t) && JobInv(w, j);
    StopUpdatesParts(w, t, now, later);
    StopUpdatesJob(w, t, now, later);
    StopUpdatesEffect(w, t, now, later);
    RewriteKeepsIndex(w.jobs, w.index, StopRecord(w.jobs[j], now));
    Assemble(w, DoStopUpdates(w, t, now, later), j, Some(t));
  }

  lemma WaiterUpdatesParts(w: World, j: JobId, now: int)
    requires LockInv(w) && ProcInv(w) && DirInv(w) && CanWaiterUpdates(w, j, now)
    ensures var w' := DoWaiterUpdates(w, j, now); LockInv(w') && ProcInv(w') && DirInv(w')
  {
    WaiterLock(w, j, DoWaiterUpdates(w, j, now).waiters[j], w.mu);
    LockSame(w.(waiters := DoWaiterUpdates(w, j, now).waiters), DoWaiterUpdates(w, j, now));
  }

  lemma WaiterUpdatesJob(w: World, j: JobId, now: int)
    requires w.clock > 0 && LockInv(w) && JobInv(w, j) && CanWaiterUpdates(w, j, now)
    ensures JobInv(DoWaiterUpdates(w, j, now), j)
  {
  }

  lemma WaiterUpdatesEffect(w: World, j: JobId, now: int)
    requires LockInv(w) && JobInv(w, j) && CanWaiterUpdates(w, j, now)
    ensures Effect(w, DoWaiterUpdates(w, j, now), j, None)
  {
  }

  lemma WaiterUpdatesKept(w: World, j: JobId, now: int)
    requires Inv(w) && CanWaiterUpdates(w, j, now)
    ensures Inv(DoWaiterUpdates(w, j, now))
  {
    assert JobInv(w, j);
    WaiterUpdatesParts(w, j, now);
    WaiterUpdatesJob(w, j, now);
    WaiterUpdatesEffect(w, j, now);
    RewriteKeepsIndex(w.jobs, w.index, DoWaiterUpdates(w, j, now).jobs[j]);
    Assemble(w, DoWaiterUpdates(w, j, now), j, None);
  }
}
