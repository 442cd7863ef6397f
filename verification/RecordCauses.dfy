/** Which steps of a run make a record what it is: what each state means, and when a record has changed. */
module RecordCauses {
  import opened Base
  import opened JobModel
  import opened JobLifecycle
  import opened LifecycleInvariant
  import opened LifecycleGrowth
  import opened LifecycleTheorems
  import opened StopTheorems
  import opened StopLimits

  // ---------------------------------------------------------------- the steps that write a record

  /** A Stop updates job j. */
  predicate Stops(w: World, s: Step, j: JobId) { s.StopUpdates? && AtStage(w, s.t) && w.calls[s.t].req.id == j }

  /** The goroutine of job j updates it. */
  predicate Finishes(s: Step, j: JobId) { s.WaiterUpdates? && s.j == j }

  predicate RecordStep(w: World, s: Step, w': World, j: JobId) {
    && (j in w.jobs ==>
          && j in w'.jobs
          && (Stops(w, s, j) ==> w'.jobs[j] == StopRecord(w.jobs[j], s.now))
          && (Finishes(s, j) ==>
                |w.jobs[j].mesg| < |w'.jobs[j].mesg|
                && w'.jobs[j].state == (if w.jobs[j].state == TerminatedByAPI then TerminatedByAPI else Completed))
          && (!Stops(w, s, j) && !Finishes(s, j) ==> w'.jobs[j] == w.jobs[j]))
    && (j !in w.jobs ==> !Stops(w, s, j) && !Finishes(s, j))
    && (j !in w.jobs && j in w'.jobs ==> w'.jobs[j].state == Running)
  }

  lemma StartWrites(w: World, s: Step, w': World, j: JobId)
    requires NextStart(w, s, w')
    requires s.Register? && s.t in w.calls ==> CallInv(w, s.t)
    requires s.Register? && AtStart(w, s.t) && w.calls[s.t].spc.StartLocked? ==> w.calls[s.t].spc.job.id !in w.jobs
    ensures RecordStep(w, s, w', j)
  {
    hide Publish, AddToIndex;
  }

  lemma ReadWrites(w: World, s: Step, w': World, j: JobId)
    requires NextRead(w, s, w')
    ensures RecordStep(w, s, w', j)
  {
  }

  lemma StopWritesRecord(w: World, s: Step, w': World, j: JobId)
    requires NextStop(w, s, w')
    ensures RecordStep(w, s, w', j)
  {
    hide Publish, StopRecord, ProcsKilled;
  }

  lemma FinishedRecord(r: JobRecord, g: WaitResult, rmErr: bool, now: int)
    ensures |r.mesg| < |FinishRecord(r, g, rmErr, now).mesg|
    ensures FinishRecord(r, g, rmErr, now).state == if r.state == TerminatedByAPI then TerminatedByAPI else Completed
  {
  }

  lemma WaiterWritesRecord(w: World, s: Step, w': World, j: JobId)
    requires NextWaiter(w, s, w')
    ensures RecordStep(w, s, w', j)
  {
    hide Publish, FinishRecord, ProcsKilled;
    if s.WaiterUpdates? {
      FinishedRecord(w.jobs[s.j], w.waiters[s.j].status, w.waiters[s.j].rmErr, s.now);
    }
  }

  lemma RunWrites(ws: seq<World>, ss: seq<Step>, i: nat, j: JobId)
    requires Run(ws, ss) && i < |ss|
    ensures RecordStep(ws[i], ss[i], ws[i + 1], j)
  {
    hide Inv, Next, NextStart, NextRead, NextStop, NextWaiter, RecordStep, CallInv;
    var w, s, w' := ws[i], ss[i], ws[i + 1];
    assert Next(w, s, w');
    NextIsOneOfFour(w, s, w');
    RunKeepsInv(ws, ss, i);
    InvParts(w);
    if NextStart(w, s, w') {
      NewJobs(w, s);
      StartWrites(w, s, w', j);
    }
    else if NextRead(w, s, w') { ReadWrites(w, s, w', j); }
    else if NextStop(w, s, w') { StopWritesRecord(w, s, w', j); }
    else { WaiterWritesRecord(w, s, w', j); }
  }

  lemma NewJobs(w: World, s: Step)
    requires s.Register? && s.t in w.calls ==> CallInv(w, s.t)
    ensures s.Register? && AtStart(w, s.t) && w.calls[s.t].spc.StartLocked? ==> w.calls[s.t].spc.job.id !in w.jobs
  {
  }

  // ---------------------------------------------------------------- what the states mean

  /** Some Stop has updated the job by state i of the run. */
  ghost predicate Stopped(ws: seq<World>, ss: seq<Step>, i: nat, j: JobId)
    requires i <= |ss| < |ws|
  {
    exists m :: 0 <= m < i && Stops(ws[m], ss[m], j)
  }

  /** Its goroutine has. */
  ghost predicate FinishedBy(ss: seq<Step>, i: nat, j: JobId)
    requires i <= |ss|
  {
    exists m :: 0 <= m < i && Finishes(ss[m], j)
  }

  /** A job is TerminatedByAPI if and only if some Stop has updated it, Completed if and only if its goroutine has
      and no Stop did, and Running if and only if neither has. */
  lemma {:induction false} StatesByCause(ws: seq<World>, ss: seq<Step>, i: nat, j: JobId)
    requires Run(ws, ss) && i <= |ss|
    ensures j !in ws[i].jobs ==> !Stopped(ws, ss, i, j) && !FinishedBy(ss, i, j)
    ensures j in ws[i].jobs ==>
      && (ws[i].jobs[j].state == TerminatedByAPI <==> Stopped(ws, ss, i, j))
      && (ws[i].jobs[j].state == Completed <==> FinishedBy(ss, i, j) && !Stopped(ws, ss, i, j))
      && (ws[i].jobs[j].state == Running <==> !FinishedBy(ss, i, j) && !Stopped(ws, ss, i, j))
  {
    hide Next, Stops, Finishes;
    if i > 0 {
      StatesByCause(ws, ss, i - 1, j);
      RunWrites(ws, ss, i - 1, j);
      OneMore(ws, ss, i, j);
      if ss[i - 1].StopUpdates? { StoppedWasRunning(ws, ss, i - 1, j); }
    }
  }

  lemma OneMore(ws: seq<World>, ss: seq<Step>, i: nat, j: JobId)
    requires 0 < i <= |ss| < |ws|
    ensures Stopped(ws, ss, i, j) <==> Stopped(ws, ss, i - 1, j) || Stops(ws[i - 1], ss[i - 1], j)
    ensures FinishedBy(ss, i, j) <==> FinishedBy(ss, i - 1, j) || Finishes(ss[i - 1], j)
  {
    hide Stops, Finishes;
  }

  /** A Stop updates only a job that is Running. */
  lemma StoppedWasRunning(ws: seq<World>, ss: seq<Step>, m: nat, j: JobId)
    requires Run(ws, ss) && m < |ss|
    ensures Stops(ws[m], ss[m], j) ==> j in ws[m].jobs && ws[m].jobs[j].state == Running
  {
    hide Inv, JobInv, Next;
    assert Next(ws[m], ss[m], ws[m + 1]);
    RunKeepsInv(ws, ss, m);
    InvParts(ws[m]);
    if Stops(ws[m], ss[m], j) {
      UpdateStage(ws[m], ss[m], ws[m + 1]);
    }
  }

  lemma UpdateStage(w: World, s: Step, w': World)
    requires Next(w, s, w') && s.StopUpdates? && s.t in w.calls && CallInv(w, s.t)
    ensures AtStage(w, s.t) && w.jobs[w.calls[s.t].req.id].state == Running
  {
    hide IsVersion, Settled;
  }

  /** However many Stops of a job there are, at most one ever updates it. */
  lemma StoppedOnce(ws: seq<World>, ss: seq<Step>, m: nat, n: nat, j: JobId)
    requires Run(ws, ss) && m < n < |ss|
    ensures !(Stops(ws[m], ss[m], j) && Stops(ws[n], ss[n], j))
  {
    hide Next, Stops, Finishes;
    if Stops(ws[m], ss[m], j) {
      StoppedWasRunning(ws, ss, n, j);
      StatesByCause(ws, ss, n, j);
    }
  }

  // ---------------------------------------------------------------- when a record has changed

  predicate Updates(w: World, s: Step, j: JobId) { Stops(w, s, j) || Finishes(s, j) }

  /** Between two states of a run a record has changed, in any field, if and only if a Stop or the goroutine has
      updated it in between. */
  lemma {:induction false} ChangedByUpdatesOnly(ws: seq<World>, ss: seq<Step>, c: nat, k: nat, j: JobId)
    requires Run(ws, ss) && c <= k <= |ss| && j in ws[c].jobs
    ensures j in ws[k].jobs && |ws[c].jobs[j].mesg| <= |ws[k].jobs[j].mesg|
    ensures ws[k].jobs[j] == ws[c].jobs[j] <==> forall m :: c <= m < k ==> !Updates(ws[m], ss[m], j)
    ensures ws[k].jobs[j] != ws[c].jobs[j] ==> |ws[c].jobs[j].mesg| < |ws[k].jobs[j].mesg|
  {
    hide Next, Stops, Finishes;
    if c < k {
      ChangedByUpdatesOnly(ws, ss, c, k - 1, j);
      RunWrites(ws, ss, k - 1, j);
      assert Updates(ws[k - 1], ss[k - 1], j) <==> Stops(ws[k - 1], ss[k - 1], j) || Finishes(ss[k - 1], j);
    }
  }

  /** The answer of a Stop that finds its job ended is what the record then says, exit code, signal and messages
      included, if and only if neither a Stop nor the goroutine has updated the job since it was copied. */
  lemma LateAnswerIsCurrentExactly(ws: seq<World>, ss: seq<Step>, c: nat, k: nat, t: nat)
    requires Run(ws, ss) && c < k < |ss| && ss[c] == CopyJob(t) && ss[k] == StopChecks(t)
    requires AtStage(ws[k], t) && Mine(ws[k].calls[t].req, ws[k].jobs[ws[k].calls[t].req.id])
    requires Terminal(ws[k].jobs[ws[k].calls[t].req.id].state)
    ensures AtQuery(ws[k + 1], t) && ws[k + 1].calls[t].pc.Returning? && ws[k + 1].calls[t].pc.res.Untouched?
    ensures var id := ws[k].calls[t].req.id;
            ws[k + 1].calls[t].pc.res.copy == ws[k].jobs[id]
            <==> forall m :: c <= m < k ==> !Updates(ws[m], ss[m], id)
  {
    hide Next, Stops, Finishes;
    AnswerOfALateStop(ws, ss, c, k, t);
    SameRequest(ws, ss, c, k, t);
    ChangedByUpdatesOnly(ws, ss, c, k, ws[k].calls[t].req.id);
  }
}
