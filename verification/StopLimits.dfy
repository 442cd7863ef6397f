/** What Stop does not promise, with the exact conditions: when its copy is out of date, when its kill
    reaches the process, and that a stopped job can end with another exit code than the one Stop wrote. */
module StopLimits {
  import opened Base
  import opened JobModel
  import opened JobLifecycle
  import opened LifecycleInvariant
  import opened LifecycleGrowth
  import opened LifecycleTheorems
  import opened StopTheorems

  // ---------------------------------------------------------------- a copy that is out of date

  /** The call has taken this copy, and holds it until it has something else to return. */
  predicate Took(c: Call, copy: JobRecord) {
    && c.Query?
    && match c.pc
       case Copied(r, _) => r == copy
       case Stopping(r, _, _) => r == copy
       case Returning(res) => res.Untouched? ==> res.copy == copy
       case Done(res) => res.Untouched? ==> res.copy == copy
       case _ => false
  }

  predicate TookStill(w: World, w': World, t: nat, copy: JobRecord) {
    t in w.calls && Took(w.calls[t], copy) ==> t in w'.calls && Took(w'.calls[t], copy)
  }

  lemma StartTook(w: World, s: Step, w': World, t: nat, copy: JobRecord)
    requires NextStart(w, s, w')
    ensures TookStill(w, w', t, copy)
  {
    hide Publish, AddToIndex, StopRecord, FinishRecord;
  }

  lemma ReadTook(w: World, s: Step, w': World, t: nat, copy: JobRecord)
    requires NextRead(w, s, w')
    ensures TookStill(w, w', t, copy)
  {
  }

  lemma StopTook(w: World, s: Step, w': World, t: nat, copy: JobRecord)
    requires NextStop(w, s, w')
    ensures TookStill(w, w', t, copy)
  {
    hide Publish, AddToIndex, StopRecord, FinishRecord;
  }

  lemma WaiterTook(w: World, s: Step, w': World, t: nat, copy: JobRecord)
    requires NextWaiter(w, s, w')
    ensures TookStill(w, w', t, copy)
  {
    hide Publish, AddToIndex, StopRecord, FinishRecord;
  }

  lemma {:induction false} CopyIsKept(ws: seq<World>, ss: seq<Step>, i: nat, k: nat, t: nat, copy: JobRecord)
    requires Run(ws, ss) && i <= k < |ws| && t in ws[i].calls && Took(ws[i].calls[t], copy)
    ensures t in ws[k].calls && Took(ws[k].calls[t], copy)
  {
    hide Next, NextStart, NextRead, NextStop, NextWaiter, Took;
    if i < k {
      CopyIsKept(ws, ss, i, k - 1, t, copy);
      var w, s, w' := ws[k - 1], ss[k - 1], ws[k];
      assert Next(w, s, w');
      NextIsOneOfFour(w, s, w');
      if NextStart(w, s, w') { StartTook(w, s, w', t, copy); }
      else if NextRead(w, s, w') { ReadTook(w, s, w', t, copy); }
      else if NextStop(w, s, w') { StopTook(w, s, w', t, copy); }
      else { WaiterTook(w, s, w', t, copy); }
    }
  }

  lemma NextIsOneOfFour(w: World, s: Step, w': World)
    requires Next(w, s, w')
    ensures NextStart(w, s, w') || NextRead(w, s, w') || NextStop(w, s, w') || NextWaiter(w, s, w')
  {
  }

  /** A Stop that finds its job ended answers with the copy it took before it had the lock. That answer is
      out of date, and then says Running, exactly when the job was Running when it was copied; otherwise
      it may lack the goroutine's exit code, and has the state and the end time of the record. */
  lemma AnswerOfALateStop(ws: seq<World>, ss: seq<Step>, c: nat, k: nat, t: nat)
    requires Run(ws, ss) && c < k < |ss| && ss[c] == CopyJob(t) && ss[k] == StopChecks(t)
    requires AtStage(ws[k], t) && Mine(ws[k].calls[t].req, ws[k].jobs[ws[k].calls[t].req.id])
    requires Terminal(ws[k].jobs[ws[k].calls[t].req.id].state)
    ensures AtQuery(ws[c], t) && ws[c].calls[t].req.id in ws[c].jobs && AtQuery(ws[k + 1], t)
    ensures var copied, live := ws[c].jobs[ws[c].calls[t].req.id], ws[k].jobs[ws[k].calls[t].req.id];
            && ws[k + 1].calls[t].pc.Returning? && ws[k + 1].calls[t].pc.res.Untouched?
            && ws[k + 1].calls[t].pc.res.copy == copied
            && (copied.state == Running <==> copied.state != live.state)
            && (copied.state == Running <==> copied.ended != live.ended)
            && (copied.state == live.state ==> copied.ended == live.ended && copied.mesg <= live.mesg)
  {
    hide Inv, Next, Run, Chain;
    StepOf(ws, ss, c);
    StepOf(ws, ss, k);
    CopyTaken(ws[c], ws[c + 1], t);
    var id := ws[c].calls[t].req.id;
    CopyIsKept(ws, ss, c + 1, k, t, ws[c].jobs[id]);
    SameRequest(ws, ss, c, k, t);
    CheckAnswers(ws[k], ws[k + 1], t, ws[c].jobs[id]);
    TerminalAbsorbs(ws, ss, c, k, id);
    EndIsSet(ws, ss, k, id);
    EndIsSet(ws, ss, c, id);
    NotesGrow(ws, ss, c, k, id);
  }

  lemma StepOf(ws: seq<World>, ss: seq<Step>, i: nat)
    requires Run(ws, ss) && i < |ss|
    ensures |ws| == |ss| + 1 && Next(ws[i], ss[i], ws[i + 1])
  {
  }

  lemma CopyTaken(w: World, w': World, t: nat)
    requires Next(w, CopyJob(t), w')
    ensures AtQuery(w, t) && w.calls[t].req.id in w.jobs && t in w'.calls && Took(w'.calls[t], w.jobs[w.calls[t].req.id])
  {
  }

  lemma {:induction false} SameRequest(ws: seq<World>, ss: seq<Step>, i: nat, k: nat, t: nat)
    requires Run(ws, ss) && i <= k < |ws| && AtQuery(ws[i], t)
    ensures AtQuery(ws[k], t) && ws[k].calls[t].req == ws[i].calls[t].req
  {
    hide Next;
    if i < k {
      SameRequest(ws, ss, i, k - 1, t);
      assert Next(ws[k - 1], ss[k - 1], ws[k]);
      StepCopies(ws[k - 1], ss[k - 1], ws[k], t);
    }
  }

  lemma CheckAnswers(w: World, w': World, t: nat, copy: JobRecord)
    requires Next(w, StopChecks(t), w') && AtStage(w, t) && Took(w.calls[t], copy)
    requires Mine(w.calls[t].req, w.jobs[w.calls[t].req.id]) && Terminal(w.jobs[w.calls[t].req.id].state)
    ensures AtQuery(w', t) && w'.calls[t].pc.Returning? && w'.calls[t].pc.res.Untouched?
    ensures w'.calls[t].pc.res.copy == copy
  {
  }

  /** A job has an end time exactly when it is not Running, and is otherwise in a terminal state. */
  lemma EndIsSet(ws: seq<World>, ss: seq<Step>, i: nat, j: JobId)
    requires Run(ws, ss) && i < |ws| && j in ws[i].jobs
    ensures ws[i].jobs[j].ended == 0 <==> ws[i].jobs[j].state == Running
    ensures ws[i].jobs[j].state != Running <==> Terminal(ws[i].jobs[j].state)
  {
    hide Run;
    LaterVersions(ws, ss, i, i, j);
    var v := AllVersions(ws[i], j);
    assert v[|v| - 1] == ws[i].jobs[j];
  }

  lemma NotesGrow(ws: seq<World>, ss: seq<Step>, i: nat, k: nat, j: JobId)
    requires Run(ws, ss) && i <= k < |ws| && j in ws[i].jobs
    ensures j in ws[k].jobs && ws[i].jobs[j].mesg <= ws[k].jobs[j].mesg
  {
    hide Run;
    LaterVersions(ws, ss, i, k, j);
    var v, v' := AllVersions(ws[i], j), AllVersions(ws[k], j);
    assert v[|v| - 1] == v'[|v| - 1] == ws[i].jobs[j] && v'[|v'| - 1] == ws[k].jobs[j];
  }

  // ---------------------------------------------------------------- whose name the kill is made under

  /** A kill reaches the job's process exactly when it is made under the owner's name; one made under
      another name, by override, succeeds and does nothing. */
  lemma KillReachesExactlyTheOwners(ws: seq<World>, ss: seq<Step>, i: nat, t: nat)
    requires Run(ws, ss) && i < |ss| && ss[i] == StopKills(t, true)
    ensures AtStage(ws[i], t) && AtStage(ws[i + 1], t) && ws[i + 1].calls[t].pc.stage.Poll?
    ensures var req := ws[i].calls[t].req; var p := ws[i].procs[req.id];
            && (p == Alive(false) ==>
                  (ws[i + 1].procs[req.id].killed <==> req.client == ws[i].jobs[req.id].client))
            && (req.client != ws[i].jobs[req.id].client ==> ws[i + 1].procs == ws[i].procs)
  {
    hide Inv, JobInv, Run, Next;
    StepOf(ws, ss, i);
    RunKeepsInv(ws, ss, i);
    InvParts(ws[i]);
    DirsAreIssued(ws[i]);
    KillStep(ws[i], t, ws[i + 1]);
    Killed(ws[i], t);
  }

  lemma Killed(w: World, t: nat)
    requires CanStopKills(w, t, true) && DirInv(w) && ProcInv(w) && JobInv(w, w.calls[t].req.id)
    ensures var w' := DoStopKills(w, t, true);
            AtStage(w', t) && w'.calls[t].pc.stage.Poll?
    ensures var req, w' := w.calls[t].req, DoStopKills(w, t, true); var p := w.procs[req.id];
            && (p == Alive(false) ==> (w'.procs[req.id].killed <==> req.client == w.jobs[req.id].client))
            && (req.client != w.jobs[req.id].client ==> w'.procs == w.procs)
  {
    hide Chain, GoroutineInv;
  }

  lemma KillStep(w: World, t: nat, w': World)
    requires Next(w, StopKills(t, true), w')
    ensures CanStopKills(w, t, true) && w' == DoStopKills(w, t, true)
  {
  }

  lemma DirsAreIssued(w: World)
    requires Inv(w)
    ensures DirInv(w)
  {
  }

  // ---------------------------------------------------------------- witnesses

  ghost predicate Reachable(w: World) {
    exists ws, ss :: Run(ws, ss) && ws[|ss|] == w
  }

  lemma InitReachable(w: World)
    requires Init(w)
    ensures Reachable(w)
  {
    assert Run([w], []);
  }

  lemma StepReachable(w: World, s: Step, w': World)
    requires Reachable(w) && Next(w, s, w')
    ensures Reachable(w')
  {
    hide Next;
    var ws, ss :| Run(ws, ss) && ws[|ss|] == w;
    assert Run(ws + [w'], ss + [s]);
  }

  lemma WaiterReaches(w: World, s: Step, w': World)
    requires Reachable(w) && NextWaiter(w, s, w')
    ensures Reachable(w')
  {
    hide Reachable, NextStart, NextStop, NextRead, NextWaiter;
    StepReachable(w, s, w');
  }

  lemma StopReaches(w: World, s: Step, w': World)
    requires Reachable(w) && NextStop(w, s, w')
    ensures Reachable(w')
  {
    hide Reachable, NextStart, NextStop, NextRead, NextWaiter;
    StepReachable(w, s, w');
  }

  const FREE: RWMutex := RWMutex(None, {})
  const READ: RWMutex := RWMutex(None, {1})
  const BY_STOP: RWMutex := RWMutex(Some(Caller(1)), {})

  function ByWaiter(b: JobRecord): RWMutex { RWMutex(Some(Goroutine(b.id)), {}) }

  /** A record that a Start can build. */
  predicate Startable(b: JobRecord) { IsBirth(b) && b.id != "" && b.client != "" && b.command != "" }

  /** The world of one job, with its Start call somewhere on its way. */
  function Starting(b: JobRecord, spc: StartPc, mu: RWMutex): World {
    World(map[], map[], mu, map[0 := StartCall(b.client, b.command, b.cmdArgs, spc)], map[], map[b.id := Alive(false)],
          map[b.id := Issue(b.client, 0)], {Dir(b.client, b.id)}, b.started, map[])
  }

  lemma SpawnedReachable(b: JobRecord)
    requires Startable(b)
    ensures Reachable(Starting(b, HasProc(b), FREE))
  {
    hide Reachable, NextRead, NextStop, NextWaiter;
    var w0 := World(map[], map[], FREE, map[], map[], map[], map[], {}, b.started, map[]);
    InitReachable(w0);
    var w1 := DoBeginStart(w0, 0, b.client, b.command, b.cmdArgs);
    StepReachable(w0, BeginStart(0, b.client, b.command, b.cmdArgs), w1);
    var w2 := DoMakeDir(w1, 0, b.id);
    StepReachable(w1, MakeDir(0, b.id), w2);
    var w3 := DoSpawn(w2, 0, b.pid, b.outputFile, b.started);
    StepReachable(w2, Spawn(0, b.pid, b.outputFile, b.started), w3);
    var end := Starting(b, HasProc(b), FREE);
    assert w3.calls == end.calls && w3.procs == end.procs && w3.issued == end.issued && w3.dirs == end.dirs;
  }

  /** One job, alive and registered, and nobody holding the mutex. */
  function OneJob(b: JobRecord): World {
    World(map[b.id := b], map[b.client := [b.id]], FREE,
          map[0 := StartCall(b.client, b.command, b.cmdArgs, Started(b.id))], map[b.id := Waiting],
          map[b.id := Alive(false)], map[b.id := Issue(b.client, 0)], {Dir(b.client, b.id)}, b.started,
          map[b.id := [b]])
  }

  lemma OneJobReachable(b: JobRecord)
    requires Startable(b)
    ensures Reachable(OneJob(b))
  {
    hide Reachable, NextRead, NextStop, NextWaiter;
    SpawnedReachable(b);
    var w3 := Starting(b, HasProc(b), FREE);
    var w4 := Starting(b, StartLocked(b), RWMutex(Some(Caller(0)), {}));
    StepReachable(w3, StartLocks(0), w4);
    var w5 := OneJob(b).(mu := w4.mu, history := map[],
                         calls := map[0 := StartCall(b.client, b.command, b.cmdArgs, Registered(b.id))]);
    assert AddToIndex(map[], b.client, b.id) == map[b.client := [b.id]] by {
      assert ListOf(map[], b.client) + [b.id] == [b.id];
    }
    StepReachable(w4, Register(0), w5);
    assert Publish(w5) == map[b.id := [b]] by { assert Versions(w5, b.id) + [b] == [b]; }
    StepReachable(w5, StartUnlocks(0), OneJob(b));
  }

  function StopOf(b: JobRecord): Request { Request(Stop, b.client, b.id, false) }

  /** The world of one job and one Stop of it: the record, its versions, the goroutine, the process, whether
      the directory is there, and where the Stop is. */
  function At(b: JobRecord, r: JobRecord, h: seq<JobRecord>, g: Waiter, p: Proc, dir: bool, mu: RWMutex, pc: QueryPc)
    : World
  {
    World(map[b.id := r], map[b.client := [b.id]], mu,
          map[0 := StartCall(b.client, b.command, b.cmdArgs, Started(b.id)), 1 := Query(StopOf(b), pc)],
          map[b.id := g], map[b.id := p], map[b.id := Issue(b.client, 0)],
          if dir then {Dir(b.client, b.id)} else {}, b.started, map[b.id := h])
  }

  function Early(b: JobRecord, p: Proc, mu: RWMutex, pc: QueryPc): World { At(b, b, [b], Waiting, p, true, mu, pc) }

  lemma FoundReachable(b: JobRecord)
    requires Startable(b)
    ensures Reachable(Early(b, Alive(false), FREE, WantCopy))
  {
    hide Reachable, NextStart, NextStop, NextWaiter;
    OneJobReachable(b);
    var p := Alive(false);
    StepReachable(OneJob(b), BeginQuery(1, StopOf(b)), Early(b, p, FREE, WantFind));
    StepReachable(Early(b, p, FREE, WantFind), ReadLock(1), Early(b, p, READ, Finding));
    StepReachable(Early(b, p, READ, Finding), FindJob(1), Early(b, p, FREE, WantCopy));
  }

  lemma CopiedReachable(b: JobRecord)
    requires Startable(b)
    ensures Reachable(Early(b, Alive(false), FREE, Copied(b, 0)))
  {
    hide Reachable, NextStart, NextStop, NextWaiter;
    FoundReachable(b);
    var p := Alive(false);
    StepReachable(Early(b, p, FREE, WantCopy), ReadLock(1), Early(b, p, READ, Copying));
    StepReachable(Early(b, p, READ, Copying), CopyJob(1), Early(b, p, FREE, Copied(b, 0)));
  }

  // --- the job ends by itself between Stop's copy and its lock

  lemma ProcessEnds(b: JobRecord, x: WaitResult, mu: RWMutex, pc: QueryPc)
    ensures NextWaiter(At(b, b, [b], Waiting, Alive(false), true, mu, pc), Exit(b.id, x),
                       At(b, b, [b], Waiting, Zombie(x), true, mu, pc))
  {
  }

  lemma ProcessReaped(b: JobRecord, x: WaitResult, mu: RWMutex, pc: QueryPc)
    ensures NextWaiter(At(b, b, [b], Waiting, Zombie(x), true, mu, pc), Reap(b.id),
                       At(b, b, [b], Removing(x, WriteKill), Reaped(x), true, mu, pc))
  {
  }

  lemma ReapedReachable(b: JobRecord, x: WaitResult)
    requires Startable(b)
    ensures Reachable(At(b, b, [b], Removing(x, WriteKill), Reaped(x), true, FREE, Copied(b, 0)))
  {
    hide Reachable, NextWaiter, At;
    CopiedReachable(b);
    ProcessEnds(b, x, FREE, Copied(b, 0));
    WaiterReaches(Early(b, Alive(false), FREE, Copied(b, 0)), Exit(b.id, x), Early(b, Zombie(x), FREE, Copied(b, 0)));
    ProcessReaped(b, x, FREE, Copied(b, 0));
    WaiterReaches(Early(b, Zombie(x), FREE, Copied(b, 0)), Reap(b.id),
                  At(b, b, [b], Removing(x, WriteKill), Reaped(x), true, FREE, Copied(b, 0)));
  }

  function AfterRemoval(x: WaitResult, rm: Removal): Waiter {
    match rm case WriteKill => Removing(x, StatDir) case StatDir => Removing(x, RmDir) case RmDir => WantLock(x, false)
  }

  lemma GoroutineRemovesDir(b: JobRecord, x: WaitResult, rm: Removal, pc: QueryPc)
    ensures NextWaiter(At(b, b, [b], Removing(x, rm), Reaped(x), true, FREE, pc), WaiterRemoves(b.id, true),
                       At(b, b, [b], AfterRemoval(x, rm), Reaped(x), !rm.RmDir?, FREE, pc))
  {
  }

  lemma GoroutineRemoves(b: JobRecord, x: WaitResult)
    requires Startable(b)
    ensures Reachable(At(b, b, [b], WantLock(x, false), Reaped(x), false, FREE, Copied(b, 0)))
  {
    hide Reachable, NextWaiter, At;
    ReapedReachable(b, x);
    var w0 := At(b, b, [b], Removing(x, WriteKill), Reaped(x), true, FREE, Copied(b, 0));
    var w1 := At(b, b, [b], Removing(x, StatDir), Reaped(x), true, FREE, Copied(b, 0));
    var w2 := At(b, b, [b], Removing(x, RmDir), Reaped(x), true, FREE, Copied(b, 0));
    GoroutineRemovesDir(b, x, WriteKill, Copied(b, 0));
    WaiterReaches(w0, WaiterRemoves(b.id, true), w1);
    GoroutineRemovesDir(b, x, StatDir, Copied(b, 0));
    WaiterReaches(w1, WaiterRemoves(b.id, true), w2);
    GoroutineRemovesDir(b, x, RmDir, Copied(b, 0));
    WaiterReaches(w2, WaiterRemoves(b.id, true), At(b, b, [b], WantLock(x, false), Reaped(x), false, FREE, Copied(b, 0)));
  }

  lemma GoroutineLocks(b: JobRecord, r: JobRecord, h: seq<JobRecord>, x: WaitResult, pc: QueryPc)
    ensures NextWaiter(At(b, r, h, WantLock(x, false), Reaped(x), false, FREE, pc), WaiterLocks(b.id),
                       At(b, r, h, HasLock(x, false), Reaped(x), false, ByWaiter(b), pc))
  {
  }

  lemma GoroutineWrites(b: JobRecord, r: JobRecord, h: seq<JobRecord>, x: WaitResult, pc: QueryPc)
    ensures NextWaiter(At(b, r, h, HasLock(x, false), Reaped(x), false, ByWaiter(b), pc), WaiterUpdates(b.id, b.started),
                       At(b, FinishRecord(r, x, false, b.started), h, Updated(x, false), Reaped(x), false, ByWaiter(b), pc))
  {
    hide FinishRecord;
  }

  lemma Published(b: JobRecord, r: JobRecord, h: seq<JobRecord>, w: World)
    requires h != [] && w.jobs == map[b.id := r] && w.history == map[b.id := h]
    ensures Publish(w) == map[b.id := Extend(h, r)]
  {
  }

  lemma GoroutineUnlocks(b: JobRecord, r: JobRecord, h: seq<JobRecord>, x: WaitResult, pc: QueryPc)
    requires h != [] && h[|h| - 1] != r
    ensures NextWaiter(At(b, r, h, Updated(x, false), Reaped(x), false, ByWaiter(b), pc), WaiterUnlocks(b.id),
                       At(b, r, h + [r], Finished(x, false), Reaped(x), false, FREE, pc))
  {
    hide Publish;
    Published(b, r, h, At(b, r, h, Updated(x, false), Reaped(x), false, ByWaiter(b), pc));
  }

  /** With no directory left and the mutex free, the goroutine can go through its locked update. */
  lemma GoroutineUpdates(b: JobRecord, r: JobRecord, h: seq<JobRecord>, x: WaitResult, pc: QueryPc)
    requires Reachable(At(b, r, h, WantLock(x, false), Reaped(x), false, FREE, pc))
    requires h != [] && h[|h| - 1] != FinishRecord(r, x, false, b.started)
    ensures var r' := FinishRecord(r, x, false, b.started);
            Reachable(At(b, r', h + [r'], Finished(x, false), Reaped(x), false, FREE, pc))
  {
    hide Reachable, NextWaiter, At, FinishRecord;
    var r' := FinishRecord(r, x, false, b.started);
    var w0 := At(b, r, h, WantLock(x, false), Reaped(x), false, FREE, pc);
    var w1 := At(b, r, h, HasLock(x, false), Reaped(x), false, ByWaiter(b), pc);
    var w2 := At(b, r', h, Updated(x, false), Reaped(x), false, ByWaiter(b), pc);
    GoroutineLocks(b, r, h, x, pc);
    WaiterReaches(w0, WaiterLocks(b.id), w1);
    GoroutineWrites(b, r, h, x, pc);
    WaiterReaches(w1, WaiterUpdates(b.id, b.started), w2);
    GoroutineUnlocks(b, r', h, x, pc);
    WaiterReaches(w2, WaiterUnlocks(b.id), At(b, r', h + [r'], Finished(x, false), Reaped(x), false, FREE, pc));
  }

  lemma StopGetsLock(b: JobRecord, r: JobRecord, h: seq<JobRecord>, g: Waiter, p: Proc, dir: bool)
    ensures NextStop(At(b, r, h, g, p, dir, FREE, Copied(b, 0)), StopLocks(1),
                     At(b, r, h, g, p, dir, BY_STOP, Stopping(b, 0, Check)))
  {
  }

  lemma StopFindsEnded(b: JobRecord, r: JobRecord, h: seq<JobRecord>, g: Waiter, p: Proc, dir: bool)
    requires Terminal(r.state) && r.client == b.client
    ensures NextStop(At(b, r, h, g, p, dir, BY_STOP, Stopping(b, 0, Check)), StopChecks(1),
                     At(b, r, h, g, p, dir, BY_STOP, Returning(Untouched(b, 0))))
  {
  }

  lemma StopLetsGo(b: JobRecord, r: JobRecord, h: seq<JobRecord>, g: Waiter, p: Proc, dir: bool, res: Outcome)
    requires h != []
    ensures NextStop(At(b, r, h, g, p, dir, BY_STOP, Returning(res)), StopUnlocks(1),
                     At(b, r, Extend(h, r), g, p, dir, FREE, Done(res)))
  {
    hide Publish;
    Published(b, r, h, At(b, r, h, g, p, dir, BY_STOP, Returning(res)));
  }

  /** Whatever the job and however its process ends, there is a run in which a successful Stop answers that
      the job is Running when the record already says Completed. */
  lemma StopCanAnswerRunning(b: JobRecord, x: WaitResult) returns (w: World)
    requires Startable(b)
    ensures Reachable(w) && AtQuery(w, 1) && w.calls[1].req == StopOf(b) && b.id in w.jobs
    ensures w.calls[1].pc == Done(Untouched(b, 0)) && b.state == Running
    ensures w.jobs[b.id] == FinishRecord(b, x, false, b.started) && w.jobs[b.id].state == Completed
  {
    w := LateStop(b, x);
  }

  lemma LateStop(b: JobRecord, x: WaitResult) returns (w: World)
    requires Startable(b)
    ensures var r := FinishRecord(b, x, false, b.started);
            w == At(b, r, [b, r], Finished(x, false), Reaped(x), false, FREE, Done(Untouched(b, 0)))
    ensures Reachable(w)
  {
    hide Reachable, NextWaiter, NextStop, At;
    var r, g, p := FinishRecord(b, x, false, b.started), Finished(x, false), Reaped(x);
    GoroutineRemoves(b, x);
    GoroutineUpdates(b, b, [b], x, Copied(b, 0));
    assert [b] + [r] == [b, r];
    StopGetsLock(b, r, [b, r], g, p, false);
    StopReaches(At(b, r, [b, r], g, p, false, FREE, Copied(b, 0)), StopLocks(1),
                At(b, r, [b, r], g, p, false, BY_STOP, Stopping(b, 0, Check)));
    StopFindsEnded(b, r, [b, r], g, p, false);
    StopReaches(At(b, r, [b, r], g, p, false, BY_STOP, Stopping(b, 0, Check)), StopChecks(1),
                At(b, r, [b, r], g, p, false, BY_STOP, Returning(Untouched(b, 0))));
    StopLetsGo(b, r, [b, r], g, p, false, Untouched(b, 0));
    w := At(b, r, [b, r], g, p, false, FREE, Done(Untouched(b, 0)));
    StopReaches(At(b, r, [b, r], g, p, false, BY_STOP, Returning(Untouched(b, 0))), StopUnlocks(1), w);
  }

  // --- the process ends by itself between Stop's check and its kill

  /** Of a stopped job the goroutine leaves the exit code -1 exactly when a signal ended the process. */
  lemma ExitCodeOfAStoppedJob(ws: seq<World>, ss: seq<Step>, i: nat, j: JobId)
    requires Run(ws, ss) && i < |ws| && j in ws[i].jobs && j in ws[i].waiters
    requires ws[i].waiters[j].Updated? || ws[i].waiters[j].Finished?
    ensures j in ws[i].procs && ws[i].procs[j].Reaped?
    ensures ws[i].jobs[j].exitCode == -1 <==> ws[i].procs[j].status.Signaled?
  {
    hide Run;
    LastWriterIsTruthful(ws, ss, i, i, j);
  }

  /** The Stop holds the mutex and has not written yet. */
  function Held(b: JobRecord, g: Waiter, p: Proc, dir: bool, stage: Stage): World {
    At(b, b, [b], g, p, dir, BY_STOP, Stopping(b, 0, stage))
  }

  lemma StopFindsRunning(b: JobRecord, g: Waiter, p: Proc)
    requires Startable(b)
    ensures NextStop(Held(b, g, p, true, Check), StopChecks(1),
                     Held(b, g, p, true, Kill))
  {
  }

  lemma StopKillsNothing(b: JobRecord, x: WaitResult)
    ensures NextStop(Held(b, Waiting, Zombie(x), true, Kill), StopKills(1, true),
                     Held(b, Waiting, Zombie(x), true, Poll))
  {
  }

  lemma StopStopsPolling(b: JobRecord, x: WaitResult, g: Waiter)
    ensures NextStop(Held(b, g, Reaped(x), true, Poll), StopPolls(1),
                     Held(b, g, Reaped(x), true, Remove(WriteKill)))
  {
  }

  function NextRemoval(rm: Removal): Stage {
    match rm case WriteKill => Remove(StatDir) case StatDir => Remove(RmDir) case RmDir => Update
  }

  lemma StopRemovesDir(b: JobRecord, x: WaitResult, g: Waiter, rm: Removal)
    ensures NextStop(Held(b, g, Reaped(x), true, Remove(rm)), StopRemoves(1, true),
                     Held(b, g, Reaped(x), !rm.RmDir?, NextRemoval(rm)))
  {
  }

  lemma StopWrites(b: JobRecord, x: WaitResult, g: Waiter)
    ensures NextStop(Held(b, g, Reaped(x), false, Update), StopUpdates(1, b.started, b.started),
                     At(b, StopRecord(b, b.started), [b], g, Reaped(x), false, BY_STOP,
                        Returning(StoppedIt(StopRecord(b, b.started)))))
  {
    hide StopRecord;
  }

  lemma GoroutineFindsNoDir(b: JobRecord, r: JobRecord, h: seq<JobRecord>, x: WaitResult, pc: QueryPc)
    ensures NextWaiter(At(b, r, h, Removing(x, WriteKill), Reaped(x), false, FREE, pc), WaiterRemoves(b.id, true),
                       At(b, r, h, Removing(x, StatDir), Reaped(x), false, FREE, pc))
    ensures NextWaiter(At(b, r, h, Removing(x, StatDir), Reaped(x), false, FREE, pc), WaiterRemoves(b.id, true),
                       At(b, r, h, WantLock(x, false), Reaped(x), false, FREE, pc))
  {
  }

  lemma PollEndsReachable(b: JobRecord, x: WaitResult)
    requires Startable(b)
    ensures Reachable(Held(b, Removing(x, WriteKill), Reaped(x), true, Remove(WriteKill)))
  {
    hide Reachable, NextWaiter, NextStop, At;
    CopiedReachable(b);
    StopGetsLock(b, b, [b], Waiting, Alive(false), true);
    StopReaches(At(b, b, [b], Waiting, Alive(false), true, FREE, Copied(b, 0)), StopLocks(1),
                Held(b, Waiting, Alive(false), true, Check));
    StopFindsRunning(b, Waiting, Alive(false));
    StopReaches(Held(b, Waiting, Alive(false), true, Check), StopChecks(1),
                Held(b, Waiting, Alive(false), true, Kill));
    ProcessEnds(b, x, BY_STOP, Stopping(b, 0, Kill));
    WaiterReaches(Held(b, Waiting, Alive(false), true, Kill), Exit(b.id, x),
                  Held(b, Waiting, Zombie(x), true, Kill));
    StopKillsNothing(b, x);
    StopReaches(Held(b, Waiting, Zombie(x), true, Kill), StopKills(1, true),
                Held(b, Waiting, Zombie(x), true, Poll));
    ProcessReaped(b, x, BY_STOP, Stopping(b, 0, Poll));
    var g := Removing(x, WriteKill);
    WaiterReaches(Held(b, Waiting, Zombie(x), true, Poll), Reap(b.id),
                  Held(b, g, Reaped(x), true, Poll));
    StopStopsPolling(b, x, g);
    StopReaches(Held(b, g, Reaped(x), true, Poll), StopPolls(1),
                Held(b, g, Reaped(x), true, Remove(WriteKill)));
  }

  lemma StoppedReachable(b: JobRecord, x: WaitResult)
    requires Startable(b)
    ensures var r := StopRecord(b, b.started);
            Reachable(At(b, r, [b, r], Removing(x, WriteKill), Reaped(x), false, FREE, Done(StoppedIt(r))))
  {
    hide Reachable, NextWaiter, NextStop, At;
    PollEndsReachable(b, x);
    var r, g, p := StopRecord(b, b.started), Removing(x, WriteKill), Reaped(x);
    StopRemovesDir(b, x, g, WriteKill);
    StopReaches(Held(b, g, p, true, Remove(WriteKill)), StopRemoves(1, true),
                Held(b, g, p, true, Remove(StatDir)));
    StopRemovesDir(b, x, g, StatDir);
    StopReaches(Held(b, g, p, true, Remove(StatDir)), StopRemoves(1, true),
                Held(b, g, p, true, Remove(RmDir)));
    StopRemovesDir(b, x, g, RmDir);
    StopReaches(Held(b, g, p, true, Remove(RmDir)), StopRemoves(1, true),
                Held(b, g, p, false, Update));
    StopWrites(b, x, g);
    StopReaches(Held(b, g, p, false, Update), StopUpdates(1, b.started, b.started),
                At(b, r, [b], g, p, false, BY_STOP, Returning(StoppedIt(r))));
    StopLetsGo(b, r, [b], g, p, false, StoppedIt(r));
    assert Extend([b], r) == [b, r];
    StopReaches(At(b, r, [b], g, p, false, BY_STOP, Returning(StoppedIt(r))), StopUnlocks(1),
                At(b, r, [b, r], g, p, false, FREE, Done(StoppedIt(r))));
  }

  lemma StoppedAndReaped(b: JobRecord, x: WaitResult) returns (w: World)
    requires Startable(b)
    ensures var r := StopRecord(b, b.started); var r' := FinishRecord(r, x, false, b.started);
            w == At(b, r', [b, r, r'], Finished(x, false), Reaped(x), false, FREE, Done(StoppedIt(r)))
    ensures Reachable(w)
  {
    hide Reachable, NextWaiter, At;
    StoppedReachable(b, x);
    var r := StopRecord(b, b.started);
    var r', pc := FinishRecord(r, x, false, b.started), Done(StoppedIt(r));
    GoroutineFindsNoDir(b, r, [b, r], x, pc);
    WaiterReaches(At(b, r, [b, r], Removing(x, WriteKill), Reaped(x), false, FREE, pc), WaiterRemoves(b.id, true),
                  At(b, r, [b, r], Removing(x, StatDir), Reaped(x), false, FREE, pc));
    WaiterReaches(At(b, r, [b, r], Removing(x, StatDir), Reaped(x), false, FREE, pc), WaiterRemoves(b.id, true),
                  At(b, r, [b, r], WantLock(x, false), Reaped(x), false, FREE, pc));
    GoroutineUpdates(b, r, [b, r], x, pc);
    assert [b, r] + [r'] == [b, r, r'];
    w := At(b, r', [b, r, r'], Finished(x, false), Reaped(x), false, FREE, pc);
  }

  /** A stopped job need not keep the exit code that Stop wrote: for every way a process can end there is
      a run in which Stop answers -1 and SIGKILL, and the record ends as TerminatedByAPI with that way's own
      exit code and signal. */
  lemma StoppedJobKeepsItsOwnExit(b: JobRecord, x: WaitResult) returns (w: World)
    requires Startable(b)
    ensures Reachable(w) && AtQuery(w, 1) && b.id in w.jobs
    ensures w.calls[1].pc.Done? && w.calls[1].pc.res.StoppedIt?
    ensures w.calls[1].pc.res.job.exitCode == -1 && w.calls[1].pc.res.job.signalStr == "SIGKILL"
    ensures w.jobs[b.id].state == TerminatedByAPI
    ensures w.jobs[b.id].exitCode == ExitCodeOf(x) && w.jobs[b.id].signalStr == SignalOf(x)
  {
    w := StoppedAndReaped(b, x);
  }
}
