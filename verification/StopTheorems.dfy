/** What a call to Stop returns, what it may rely on, and that it cannot get stuck: in every run. */
module StopTheorems {
  import opened Base
  import opened JobModel
  import opened JobLifecycle
  import opened LifecycleInvariant
  import opened LifecycleGrowth
  import opened LifecycleTheorems

  // ---------------------------------------------------------------- copy before lock

  /** The copy was taken before the write lock, yet whenever the check under the lock still finds the
      job Running the copy is the live record, and it stays so until the call updates both. */
  lemma CopyBeforeLockIsSound(ws: seq<World>, ss: seq<Step>, i: nat, t: nat)
    requires Run(ws, ss) && i < |ws| && AtStage(ws[i], t)
    requires ws[i].jobs[ws[i].calls[t].req.id].state == Running || !ws[i].calls[t].pc.stage.Check?
    ensures ws[i].calls[t].pc.copy == ws[i].jobs[ws[i].calls[t].req.id]
  {
    hide Inv, JobInv, CallInv;
    RunKeepsInv(ws, ss, i);
    InvParts(ws[i]);
    CopyIsLive(ws[i], t);
  }

  lemma CopyIsLive(w: World, t: nat)
    requires AtStage(w, t) && CallInv(w, t) && JobInv(w, w.calls[t].req.id)
    requires w.jobs[w.calls[t].req.id].state == Running || !w.calls[t].pc.stage.Check?
    ensures w.calls[t].pc.copy == w.jobs[w.calls[t].req.id]
  {
    var v := AllVersions(w, w.calls[t].req.id);
    assert v[|v| - 1] == w.jobs[w.calls[t].req.id];
  }

  /** When Stop has updated the record, its result and the record agree in every field but the end
      time, of which the record's is no later. */
  lemma StoppedJobAgrees(ws: seq<World>, ss: seq<Step>, i: nat, t: nat, job: JobRecord)
    requires Run(ws, ss) && i < |ws| && AtQuery(ws[i], t) && ws[i].calls[t].pc == Returning(StoppedIt(job))
    ensures var id := ws[i].calls[t].req.id;
            && id in ws[i].jobs && ws[i].jobs[id].state == TerminatedByAPI
            && job == ws[i].jobs[id].(ended := job.ended)
            && 0 < ws[i].jobs[id].ended <= job.ended
  {
    hide Inv, JobInv, CallInv;
    RunKeepsInv(ws, ss, i);
    InvParts(ws[i]);
    ReturnedIsLive(ws[i], t);
  }

  lemma ReturnedIsLive(w: World, t: nat)
    requires AtQuery(w, t) && CallInv(w, t) && w.calls[t].pc.Returning? && w.calls[t].pc.res.StoppedIt?
    requires w.calls[t].req.id in w.jobs ==> JobInv(w, w.calls[t].req.id)
    ensures var id, job := w.calls[t].req.id, w.calls[t].pc.res.job;
            && id in w.jobs && w.jobs[id].state == TerminatedByAPI
            && job == w.jobs[id].(ended := job.ended) && 0 < w.jobs[id].ended <= job.ended
  {
    var v := AllVersions(w, w.calls[t].req.id);
    assert v[|v| - 1] == w.jobs[w.calls[t].req.id];
  }

  /** After the lock is released the agreement is with the version that the call made visible. */
  lemma StoppedJobIsAVersion(ws: seq<World>, ss: seq<Step>, i: nat, t: nat, job: JobRecord)
    requires Run(ws, ss) && i < |ws| && AtQuery(ws[i], t) && ws[i].calls[t].pc == Done(StoppedIt(job))
    ensures var id := ws[i].calls[t].req.id;
            && id in ws[i].history && |ws[i].history[id]| >= 2
            && job == ws[i].history[id][1].(ended := job.ended)
            && job.state == TerminatedByAPI && ws[i].history[id][1].ended <= job.ended
  {
    hide Inv, JobInv, CallInv;
    RunKeepsInv(ws, ss, i);
    InvParts(ws[i]);
    DoneIsVersion(ws[i], t);
  }

  lemma DoneIsVersion(w: World, t: nat)
    requires AtQuery(w, t) && CallInv(w, t) && w.calls[t].pc.Done? && w.calls[t].pc.res.StoppedIt?
    ensures var id, job := w.calls[t].req.id, w.calls[t].pc.res.job;
            && id in w.history && |w.history[id]| >= 2
            && job == w.history[id][1].(ended := job.ended)
            && job.state == TerminatedByAPI && w.history[id][1].ended <= job.ended
  {
    assert AllVersions(w, w.calls[t].req.id)[1] == Versions(w, w.calls[t].req.id)[1];
  }

  /** The copy a call holds or has returned, if any. */
  function CopyOf(c: Call): Option<JobRecord> {
    if !c.Query? then None else
    match c.pc
    case Copied(copy, _) => Some(copy)
    case Stopping(copy, _, _) => Some(copy)
    case Returning(res) => if res.Untouched? then Some(res.copy) else None
    case Done(res) => if res.Untouched? then Some(res.copy) else None
    case _ => None
  }

  /** A step either leaves the call's copy as it was or takes it from the live record. */
  predicate CopyStep(w: World, w': World, t: nat) {
    && AtQuery(w, t) && AtQuery(w', t) && w'.calls[t].req == w.calls[t].req
    && (CopyOf(w'.calls[t]).Some? ==>
          || CopyOf(w'.calls[t]) == CopyOf(w.calls[t])
          || (w.calls[t].req.id in w'.jobs && CopyOf(w'.calls[t]) == Some(w'.jobs[w.calls[t].req.id])))
  }

  lemma StartCopies(w: World, s: Step, w': World, t: nat)
    requires NextStart(w, s, w') && AtQuery(w, t)
    ensures CopyStep(w, w', t)
  {
    hide Publish, AddToIndex, StopRecord, FinishRecord;
  }

  lemma ReadCopies(w: World, s: Step, w': World, t: nat)
    requires NextRead(w, s, w') && AtQuery(w, t)
    ensures CopyStep(w, w', t)
  {
  }

  lemma StopCopies(w: World, s: Step, w': World, t: nat)
    requires NextStop(w, s, w') && AtQuery(w, t)
    ensures CopyStep(w, w', t)
  {
    hide Publish, AddToIndex, StopRecord, FinishRecord;
  }

  lemma WaiterCopies(w: World, s: Step, w': World, t: nat)
    requires NextWaiter(w, s, w') && AtQuery(w, t)
    ensures CopyStep(w, w', t)
  {
    hide Publish, AddToIndex, StopRecord, FinishRecord;
  }

  lemma StepCopies(w: World, s: Step, w': World, t: nat)
    requires Next(w, s, w') && AtQuery(w, t)
    ensures CopyStep(w, w', t)
  {
    hide NextStart, NextRead, NextStop, NextWaiter, CopyStep;
    if NextStart(w, s, w') { StartCopies(w, s, w', t); }
    else if NextRead(w, s, w') { ReadCopies(w, s, w', t); }
    else if NextStop(w, s, w') { StopCopies(w, s, w', t); }
    else { WaiterCopies(w, s, w', t); }
  }

  lemma CallBegins(w: World, s: Step, w': World)
    requires Next(w, s, w') && s.BeginQuery?
    ensures AtQuery(w', s.t) && w'.calls[s.t] == Query(s.req, WantFind)
  {
  }

  lemma {:induction false} CallGoesOn(ws: seq<World>, ss: seq<Step>, b: nat, i: nat, t: nat, req: Request)
    requires Run(ws, ss) && b < i < |ws| && ss[b] == BeginQuery(t, req)
    ensures AtQuery(ws[i], t) && ws[i].calls[t].req == req
  {
    hide Next;
    assert Next(ws[i - 1], ss[i - 1], ws[i]);
    if b + 1 == i {
      CallBegins(ws[b], ss[b], ws[i]);
    } else {
      CallGoesOn(ws, ss, b, i - 1, t, req);
      StepCopies(ws[i - 1], ss[i - 1], ws[i], t);
    }
  }

  /** A copy returned by Status, StreamOutputSetup, or by a Stop that found the job already ended, is
      what the record was at some moment between the call's beginning and its return. */
  lemma {:induction false} ReturnedCopyWasHeld(ws: seq<World>, ss: seq<Step>, b: nat, i: nat, t: nat, req: Request)
    returns (m: nat)
    requires Run(ws, ss) && b < i < |ws| && ss[b] == BeginQuery(t, req)
    requires t in ws[i].calls && CopyOf(ws[i].calls[t]).Some?
    ensures b < m <= i && req.id in ws[m].jobs && CopyOf(ws[i].calls[t]) == Some(ws[m].jobs[req.id])
  {
    hide Next;
    assert Next(ws[i - 1], ss[i - 1], ws[i]);
    if b + 1 == i {
      CallBegins(ws[b], ss[b], ws[i]);
      m := i;
    } else {
      CallGoesOn(ws, ss, b, i - 1, t, req);
      StepCopies(ws[i - 1], ss[i - 1], ws[i], t);
      m := i;
      if CopyOf(ws[i].calls[t]) == CopyOf(ws[i - 1].calls[t]) {
        m := ReturnedCopyWasHeld(ws, ss, b, i - 1, t, req);
      }
    }
  }

  // ---------------------------------------------------------------- who writes

  /** The call a step belongs to, if it is a step of a call. */
  function CallOf(s: Step): Option<nat> {
    if s.Exit? || s.Reap? || s.WaiterRemoves? || s.WaiterLocks? || s.WaiterUpdates? || s.WaiterUnlocks?
    then None else Some(s.t)
  }

  predicate Writes(s: Step) { s.Register? || s.StopUpdates? || s.WaiterUpdates? }

  /** The call has written the registry: a Start that registered its job, a Stop that updated one. */
  predicate HasWritten(c: Call) {
    match c
    case StartCall(_, _, _, spc) => spc.Registered? || spc.Started?
    case Query(_, pc) => (pc.Returning? || pc.Done?) && pc.res.StoppedIt?
  }

  /** Only the three writing steps write, and a call that has written stays marked as such. */
  predicate Accounted(w: World, s: Step, w': World, t: nat) {
    && (!Writes(s) ==> w'.jobs == w.jobs && w'.index == w.index)
    && (t in w.calls && HasWritten(w.calls[t]) ==> t in w'.calls && HasWritten(w'.calls[t]))
    && (Writes(s) && CallOf(s) == Some(t) ==> t in w'.calls && HasWritten(w'.calls[t]))
  }

  lemma StartAccounted(w: World, s: Step, w': World, t: nat)
    requires NextStart(w, s, w')
    ensures Accounted(w, s, w', t)
  {
    hide Publish, AddToIndex, StopRecord, FinishRecord;
  }

  lemma ReadAccounted(w: World, s: Step, w': World, t: nat)
    requires NextRead(w, s, w')
    ensures Accounted(w, s, w', t)
  {
  }

  lemma StopAccounted(w: World, s: Step, w': World, t: nat)
    requires NextStop(w, s, w')
    ensures Accounted(w, s, w', t)
  {
    hide Publish, AddToIndex, StopRecord, FinishRecord;
  }

  lemma WaiterAccounted(w: World, s: Step, w': World, t: nat)
    requires NextWaiter(w, s, w')
    ensures Accounted(w, s, w', t)
  {
    hide Publish, AddToIndex, StopRecord, FinishRecord;
  }

  lemma StepAccounted(w: World, s: Step, w': World, t: nat)
    requires Next(w, s, w')
    ensures Accounted(w, s, w', t)
  {
    hide NextStart, NextRead, NextStop, NextWaiter, Accounted;
    if NextStart(w, s, w') { StartAccounted(w, s, w', t); }
    else if NextRead(w, s, w') { ReadAccounted(w, s, w', t); }
    else if NextStop(w, s, w') { StopAccounted(w, s, w', t); }
    else { WaiterAccounted(w, s, w', t); }
  }

  lemma {:induction false} MarkStays(ws: seq<World>, ss: seq<Step>, i: nat, k: nat, t: nat)
    requires Run(ws, ss) && i <= k < |ws| && t in ws[i].calls && HasWritten(ws[i].calls[t])
    ensures t in ws[k].calls && HasWritten(ws[k].calls[t])
  {
    hide Next, HasWritten;
    if i < k {
      MarkStays(ws, ss, i, k - 1, t);
      assert Next(ws[k - 1], ss[k - 1], ws[k]);
      StepAccounted(ws[k - 1], ss[k - 1], ws[k], t);
    }
  }

  /** A call that ends in an error, or that returns an untouched copy, has written nothing at any of its
      steps: a Stop that loses the removal race leaves the record as it was, a failed Start leaves the
      job map and the client lists as they were. */
  lemma FailedCallsWriteNothing(ws: seq<World>, ss: seq<Step>, i: nat, k: nat, t: nat)
    requires Run(ws, ss) && i < k < |ws| && CallOf(ss[i]) == Some(t)
    requires t in ws[k].calls && !HasWritten(ws[k].calls[t])
    ensures ws[i + 1].jobs == ws[i].jobs && ws[i + 1].index == ws[i].index
  {
    hide Next, HasWritten, CallOf;
    assert Next(ws[i], ss[i], ws[i + 1]);
    StepAccounted(ws[i], ss[i], ws[i + 1], t);
    if Writes(ss[i]) {
      MarkStays(ws, ss, i + 1, k, t);
      assert false;
    }
  }
}
