/** What each write puts into a record, field by field, and where it comes from: the Start call, the process, the
    Stop, and the clock at each of them. */
module RecordContents {
  import opened Base
  import opened JobModel
  import opened JobLifecycle
  import opened LifecycleInvariant
  import opened LifecycleGrowth
  import opened LifecycleTheorems
  import opened StopTheorems
  import opened StopLimits
  import opened RecordCauses

  // ---------------------------------------------------------------- the goroutine and Stop

  /** The completion goroutine writes the exit code and the signal of the process, the note of a state it did not
      have yet, one of a wait that failed, and one of a removal that failed; and, unless a Stop has ended the job,
      the state and the time. Everything else stays. */
  lemma GoroutineWritesExactly(ws: seq<World>, ss: seq<Step>, m: nat, j: JobId, now: int)
    requires Run(ws, ss) && m < |ss| && ss[m] == WaiterUpdates(j, now)
    ensures j in ws[m].jobs && j in ws[m].procs && j in ws[m].waiters && j in ws[m + 1].jobs
    ensures ws[m].procs[j].Reaped? && ws[m].waiters[j].HasLock? && now >= ws[m].clock
    ensures var r, r', x := ws[m].jobs[j], ws[m + 1].jobs[j], ws[m].procs[j].status;
      && SameIdentity(r', r)
      && r'.exitCode == (match x case Exited(code) => code case Signaled(_) => -1 case WaitError(_) => 0)
      && r'.signalStr == (if x.Signaled? then x.signal else "")
      && r'.mesg == r.mesg + [ProcessStateNil] + (if x.WaitError? then [WaitFailed(x.text)] else [])
                    + (if ws[m].waiters[j].rmErr then [RemovalFailed] else [])
      && r'.state == (if r.state == TerminatedByAPI then TerminatedByAPI else Completed)
      && r'.ended == (if r.state == TerminatedByAPI then r.ended else now)
  {
    hide Inv, JobInv, Next;
    assert Next(ws[m], ss[m], ws[m + 1]);
    RunKeepsInv(ws, ss, m);
    InvParts(ws[m]);
    UpdateStep(ws[m], ws[m + 1], j, now);
    ReapedStatus(ws[m], j);
    FinishFields(ws[m].jobs[j], ws[m].waiters[j].status, ws[m].waiters[j].rmErr, now);
  }

  lemma FinishFields(r: JobRecord, x: WaitResult, rmErr: bool, now: int)
    ensures var r' := FinishRecord(r, x, rmErr, now);
      && SameIdentity(r', r)
      && r'.exitCode == (match x case Exited(code) => code case Signaled(_) => -1 case WaitError(_) => 0)
      && r'.signalStr == (if x.Signaled? then x.signal else "")
      && r'.mesg == r.mesg + [ProcessStateNil] + (if x.WaitError? then [WaitFailed(x.text)] else [])
                    + (if rmErr then [RemovalFailed] else [])
      && r'.state == (if r.state == TerminatedByAPI then TerminatedByAPI else Completed)
      && r'.ended == (if r.state == TerminatedByAPI then r.ended else now)
  {
  }

  lemma UpdateStep(w: World, w': World, j: JobId, now: int)
    requires Next(w, WaiterUpdates(j, now), w')
    ensures CanWaiterUpdates(w, j, now) && w' == DoWaiterUpdates(w, j, now)
  {
  }

  lemma ReapedStatus(w: World, j: JobId)
    requires JobInv(w, j) && w.waiters[j].HasLock?
    ensures w.procs[j].Reaped? && w.procs[j].status == w.waiters[j].status
  {
    hide Chain;
  }

  /** Stop writes the same into the record and into the copy it returns, apart from the time, of which each has its
      own reading, the record's first. */
  lemma StopWritesExactly(ws: seq<World>, ss: seq<Step>, m: nat, t: nat, now: int, later: int)
    requires Run(ws, ss) && m < |ss| && ss[m] == StopUpdates(t, now, later)
    ensures AtStage(ws[m], t) && AtQuery(ws[m + 1], t) && ws[m].calls[t].req.id in ws[m + 1].jobs
    ensures ws[m].clock <= now <= later == ws[m + 1].clock
    ensures var id := ws[m].calls[t].req.id; var r, r' := ws[m].jobs[id], ws[m + 1].jobs[id];
      && SameIdentity(r', r) && r'.mesg == r.mesg + [StopRequested]
      && r'.state == TerminatedByAPI && r'.exitCode == -1 && r'.signalStr == "SIGKILL" && r'.ended == now
      && ws[m + 1].calls[t].pc == Returning(StoppedIt(r'.(ended := later)))
  {
    hide Next;
    assert Next(ws[m], ss[m], ws[m + 1]);
    StopStep(ws[m], ws[m + 1], t, now, later);
    CopyBeforeLockIsSound(ws, ss, m, t);
  }

  lemma StopStep(w: World, w': World, t: nat, now: int, later: int)
    requires Next(w, StopUpdates(t, now, later), w')
    ensures CanStopUpdates(w, t, now, later) && w' == DoStopUpdates(w, t, now, later)
  {
  }

  // ---------------------------------------------------------------- what Start registers

  /** How far a Start call has got, by its steps. */
  predicate StartedBy(w: World, s: Step, w': World, t: nat) {
    AtStart(w', t) ==>
      var c := w'.calls[t];
      && ((s == BeginStart(t, c.client, c.command, c.args) && c.spc.Preparing?)
          || (AtStart(w, t) && w.calls[t] == c.(spc := w.calls[t].spc)))
      && (c.spc.HasDir? ==> s == MakeDir(t, c.spc.id) || (AtStart(w, t) && w.calls[t] == c))
      && (c.spc.HasProc? ==>
            || (AtStart(w, t) && w.calls[t] == c)
            || (s.Spawn? && s.t == t && AtStart(w, t) && w.calls[t].spc.HasDir?
                && c.spc.job == JobRecord(w.calls[t].spc.id, [], c.client, s.pid, Running, 0, "", c.command, c.args,
                                          s.outputFile, s.now, 0)))
      && (c.spc.StartLocked? ==>
            AtStart(w, t) && (w.calls[t] == c || w.calls[t].spc == HasProc(c.spc.job)))
  }

  lemma StartStarts(w: World, s: Step, w': World, t: nat)
    requires NextStart(w, s, w')
    ensures StartedBy(w, s, w', t)
  {
    hide Publish, AddToIndex;
  }

  lemma ReadStarts(w: World, s: Step, w': World, t: nat)
    requires NextRead(w, s, w')
    ensures StartedBy(w, s, w', t)
  {
  }

  lemma StopStarts(w: World, s: Step, w': World, t: nat)
    requires NextStop(w, s, w')
    ensures StartedBy(w, s, w', t)
  {
    hide Publish, StopRecord, ProcsKilled;
  }

  lemma WaiterStarts(w: World, s: Step, w': World, t: nat)
    requires NextWaiter(w, s, w')
    ensures StartedBy(w, s, w', t)
  {
    hide Publish, FinishRecord, ProcsKilled;
  }

  lemma StepStarts(w: World, s: Step, w': World, t: nat)
    requires Next(w, s, w')
    ensures StartedBy(w, s, w', t)
  {
    hide Next, NextStart, NextRead, NextStop, NextWaiter, StartedBy;
    NextIsOneOfFour(w, s, w');
    if NextStart(w, s, w') { StartStarts(w, s, w', t); }
    else if NextRead(w, s, w') { ReadStarts(w, s, w', t); }
    else if NextStop(w, s, w') { StopStarts(w, s, w', t); }
    else { WaiterStarts(w, s, w', t); }
  }

  /** The call was begun with these arguments. */
  ghost predicate BegunWith(ss: seq<Step>, k: nat, t: nat, client: Client, command: string, args: seq<string>) {
    exists b :: 0 <= b < k && b < |ss| && ss[b] == BeginStart(t, client, command, args)
  }

  /** The directory was made for this ID, and then the process started like this. */
  ghost predicate SpawnedAs(ss: seq<Step>, k: nat, t: nat, id: JobId, pid: int, outputFile: string, now: int) {
    exists d, p :: 0 <= d < p < k && p < |ss| && ss[d] == MakeDir(t, id) && ss[p] == Spawn(t, pid, outputFile, now)
  }

  ghost predicate DirMadeFor(ss: seq<Step>, k: nat, t: nat, id: JobId) {
    exists d :: 0 <= d < k && d < |ss| && ss[d] == MakeDir(t, id)
  }

  /** What is known of a Start call from its steps. */
  ghost predicate KnownOf(ss: seq<Step>, k: nat, t: nat, c: Call) {
    c.StartCall? ==>
      && BegunWith(ss, k, t, c.client, c.command, c.args)
      && (c.spc.HasDir? ==> DirMadeFor(ss, k, t, c.spc.id))
      && (c.spc.HasProc? || c.spc.StartLocked? ==> JobAsSpawned(ss, k, t, c, c.spc.job))
  }

  ghost predicate JobAsSpawned(ss: seq<Step>, k: nat, t: nat, c: Call, r: JobRecord)
    requires c.StartCall?
  {
    && SpawnedAs(ss, k, t, r.id, r.pid, r.outputFile, r.started)
    && r == JobRecord(r.id, [], c.client, r.pid, Running, 0, "", c.command, c.args, r.outputFile, r.started, 0)
  }

  lemma OneStepMore(w: World, s: Step, w': World, ss: seq<Step>, k: nat, t: nat)
    requires k < |ss| && ss[k] == s && StartedBy(w, s, w', t) && AtStart(w', t)
    requires AtStart(w, t) ==> KnownOf(ss, k, t, w.calls[t])
    ensures KnownOf(ss, k + 1, t, w'.calls[t])
  {
    var c := w'.calls[t];
    assert BegunWith(ss, k + 1, t, c.client, c.command, c.args) by {
      if s != BeginStart(t, c.client, c.command, c.args) {
        assert BegunWith(ss, k, t, c.client, c.command, c.args);
      }
    }
    if c.spc.HasDir? && s != MakeDir(t, c.spc.id) {
      assert DirMadeFor(ss, k, t, c.spc.id);
    }
    if c.spc.HasProc? && !(AtStart(w, t) && w.calls[t] == c) {
      var r := c.spc.job;
      assert DirMadeFor(ss, k, t, r.id);
      assert SpawnedAs(ss, k + 1, t, r.id, r.pid, r.outputFile, r.started);
    } else if c.spc.HasProc? || c.spc.StartLocked? {
      assert JobAsSpawned(ss, k, t, w.calls[t], c.spc.job);
    }
  }

  lemma {:induction false} StartSoFar(ws: seq<World>, ss: seq<Step>, k: nat, t: nat)
    requires Run(ws, ss) && k <= |ss| && AtStart(ws[k], t)
    ensures KnownOf(ss, k, t, ws[k].calls[t])
  {
    hide Next, KnownOf, StartedBy;
    assert k > 0;
    assert Next(ws[k - 1], ss[k - 1], ws[k]);
    StepStarts(ws[k - 1], ss[k - 1], ws[k], t);
    if AtStart(ws[k - 1], t) {
      StartSoFar(ws, ss, k - 1, t);
    }
    OneStepMore(ws[k - 1], ss[k - 1], ws[k], ss, k - 1, t);
  }

  /** What a Start registers is the job it was begun for: its own client, command and arguments, the ID its directory
      was made for, the PID, log and time of the process it started, Running, and nothing else. It comes last in its
      client's list. */
  lemma RegisteredAsStarted(ws: seq<World>, ss: seq<Step>, m: nat, t: nat)
    requires Run(ws, ss) && m < |ss| && ss[m] == Register(t)
    ensures AtStart(ws[m], t) && ws[m].calls[t].spc.StartLocked?
    ensures var c := ws[m].calls[t]; var r := c.spc.job;
      && r.id !in ws[m].jobs && ws[m + 1].jobs == ws[m].jobs[r.id := r]
      && ws[m + 1].index == ws[m].index[c.client := (if c.client in ws[m].index then ws[m].index[c.client] else []) + [r.id]]
      && BegunWith(ss, m, t, c.client, c.command, c.args)
      && SpawnedAs(ss, m, t, r.id, r.pid, r.outputFile, r.started)
      && r == JobRecord(r.id, [], c.client, r.pid, Running, 0, "", c.command, c.args, r.outputFile, r.started, 0)
  {
    hide Next, Inv, CallInv;
    assert Next(ws[m], ss[m], ws[m + 1]);
    RegisterStep(ws[m], ws[m + 1], t);
    StartSoFar(ws, ss, m, t);
    RunKeepsInv(ws, ss, m);
    InvParts(ws[m]);
    NewJobs(ws[m], ss[m]);
  }

  lemma RegisterStep(w: World, w': World, t: nat)
    requires Next(w, Register(t), w')
    ensures CanRegister(w, t) && w' == DoRegister(w, t)
  {
  }

  // ---------------------------------------------------------------- times

  lemma StartClock(w: World, s: Step, w': World)
    requires NextStart(w, s, w')
    ensures w.clock <= w'.clock && (s.Spawn? ==> w'.clock == s.now)
  {
    hide Publish, AddToIndex;
  }

  lemma ReadClock(w: World, s: Step, w': World)
    requires NextRead(w, s, w')
    ensures w.clock <= w'.clock
  {
  }

  lemma StopClock(w: World, s: Step, w': World)
    requires NextStop(w, s, w')
    ensures w.clock <= w'.clock && (s.StopUpdates? ==> w.clock <= s.now <= w'.clock)
  {
    hide Publish, StopRecord, ProcsKilled;
  }

  lemma WaiterClock(w: World, s: Step, w': World)
    requires NextWaiter(w, s, w')
    ensures w.clock <= w'.clock && (s.WaiterUpdates? ==> w'.clock == s.now)
  {
    hide Publish, FinishRecord, ProcsKilled;
  }

  lemma StepClock(w: World, s: Step, w': World)
    requires Next(w, s, w')
    ensures w.clock <= w'.clock
    ensures s.Spawn? || s.WaiterUpdates? ==> w'.clock == s.now
    ensures s.StopUpdates? ==> w.clock <= s.now <= w'.clock
  {
    hide Next, NextStart, NextRead, NextStop, NextWaiter;
    NextIsOneOfFour(w, s, w');
    Families(w, s, w');
    if NextStart(w, s, w') { StartClock(w, s, w'); }
    else if NextRead(w, s, w') { ReadClock(w, s, w'); }
    else if NextStop(w, s, w') { StopClock(w, s, w'); }
    else { WaiterClock(w, s, w'); }
  }

  lemma Families(w: World, s: Step, w': World)
    ensures s.Spawn? ==> !NextRead(w, s, w') && !NextStop(w, s, w') && !NextWaiter(w, s, w')
    ensures s.WaiterUpdates? ==> !NextStart(w, s, w') && !NextRead(w, s, w') && !NextStop(w, s, w')
    ensures s.StopUpdates? ==> !NextStart(w, s, w') && !NextRead(w, s, w') && !NextWaiter(w, s, w')
  {
  }

  lemma {:induction false} ClockForward(ws: seq<World>, ss: seq<Step>, i: nat, k: nat)
    requires Run(ws, ss) && i <= k < |ws|
    ensures ws[i].clock <= ws[k].clock
  {
    hide Next;
    if i < k {
      ClockForward(ws, ss, i, k - 1);
      assert Next(ws[k - 1], ss[k - 1], ws[k]);
      StepClock(ws[k - 1], ss[k - 1], ws[k]);
    }
  }

  /** No job ends before it starts, and none has a time that has not come yet. */
  lemma {:induction false} TimesAreOrdered(ws: seq<World>, ss: seq<Step>, k: nat, j: JobId)
    requires Run(ws, ss) && k <= |ss| && j in ws[k].jobs
    ensures 0 < ws[k].jobs[j].started <= ws[k].clock
    ensures ws[k].jobs[j].ended != 0 ==> ws[k].jobs[j].started <= ws[k].jobs[j].ended <= ws[k].clock
  {
    hide Next, RecordStep;
    assert k > 0;
    var w, s, w' := ws[k - 1], ss[k - 1], ws[k];
    assert Next(w, s, w');
    StepClock(w, s, w');
    if j in w.jobs {
      TimesAreOrdered(ws, ss, k - 1, j);
      TimeOfStep(ws, ss, k - 1, j);
    } else {
      TimeOfBirth(ws, ss, k - 1, j);
    }
  }

  lemma TimeOfStep(ws: seq<World>, ss: seq<Step>, m: nat, j: JobId)
    requires Run(ws, ss) && m < |ss| && j in ws[m].jobs
    ensures j in ws[m + 1].jobs && ws[m + 1].jobs[j].started == ws[m].jobs[j].started
    ensures ws[m + 1].jobs[j].ended == ws[m].jobs[j].ended
            || ((ss[m].StopUpdates? || ss[m].WaiterUpdates?) && ws[m + 1].jobs[j].ended == ss[m].now >= ws[m].clock)
  {
    hide Next, Stops, Finishes;
    RunWrites(ws, ss, m, j);
    assert Next(ws[m], ss[m], ws[m + 1]);
    StepClock(ws[m], ss[m], ws[m + 1]);
    if Finishes(ss[m], j) {
      IsUpdate(ss[m], j);
      GoroutineWritesExactly(ws, ss, m, j, ss[m].now);
    } else if Stops(ws[m], ss[m], j) {
      IsStopUpdate(ws[m], ss[m], j);
    }
  }

  lemma IsUpdate(s: Step, j: JobId)
    requires Finishes(s, j)
    ensures s.WaiterUpdates? && s == WaiterUpdates(j, s.now)
  {
  }

  lemma IsStopUpdate(w: World, s: Step, j: JobId)
    requires Stops(w, s, j)
    ensures s.StopUpdates?
  {
  }

  lemma TimeOfBirth(ws: seq<World>, ss: seq<Step>, m: nat, j: JobId)
    requires Run(ws, ss) && m < |ss| && j !in ws[m].jobs && j in ws[m + 1].jobs
    ensures 0 < ws[m + 1].jobs[j].started <= ws[m + 1].clock && ws[m + 1].jobs[j].ended == 0
  {
    hide Next;
    assert Next(ws[m], ss[m], ws[m + 1]);
    StepAccounted(ws[m], ss[m], ws[m + 1], 0);
    NewJobIsRegistered(ws[m], ss[m], ws[m + 1], j);
    RegisteredAsStarted(ws, ss, m, ss[m].t);
    hide JobInv;
    var r := ws[m].calls[ss[m].t].spc.job;
    var d, p :| 0 <= d < p < m && ss[p] == Spawn(ss[m].t, r.pid, r.outputFile, r.started);
    assert Next(ws[p], ss[p], ws[p + 1]);
    StepClock(ws[p], ss[p], ws[p + 1]);
    ClockForward(ws, ss, p + 1, m + 1);
    BornLate(ws, ss, m + 1, j);
  }

  lemma NewJobIsRegistered(w: World, s: Step, w': World, j: JobId)
    requires Next(w, s, w') && j !in w.jobs && j in w'.jobs
    ensures s.Register?
  {
    hide Next;
    StepAccounted(w, s, w', 0);
    if s.StopUpdates? {
      StopStep(w, w', s.t, s.now, s.later);
    } else if s.WaiterUpdates? {
      UpdateStep(w, w', s.j, s.now);
    }
  }

  lemma BornLate(ws: seq<World>, ss: seq<Step>, i: nat, j: JobId)
    requires Run(ws, ss) && i < |ws| && j in ws[i].jobs
    ensures ws[i].jobs[j].started > 0
  {
    hide Run;
    LaterVersions(ws, ss, i, i, j);
    var v := AllVersions(ws[i], j);
    assert v[|v| - 1] == ws[i].jobs[j];
  }
}
