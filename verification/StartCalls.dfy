/** What a Start leaves behind: every process has one Start call, and a Start that fails has no process. */
module StartCalls {
  import opened Base
  import opened JobModel
  import opened JobLifecycle
  import opened LifecycleInvariant
  import opened LifecycleGrowth
  import opened LifecycleTheorems
  import opened StopTheorems
  import opened StopLimits

  /** The job of which this call has started the process. */
  predicate HasStarted(c: Call, j: JobId) {
    && c.StartCall?
    && match c.spc
       case HasProc(job) => job.id == j
       case StartLocked(job) => job.id == j
       case Registered(id) => id == j
       case Started(id) => id == j
       case _ => false
  }

  /** The call for which the ID of a process was made has started it; until it has registered the job it goes on. */
  predicate Held(w: World, j: JobId) {
    j in w.procs ==>
      && j in w.issued && w.issued[j].call in w.calls && HasStarted(w.calls[w.issued[j].call], j)
      && (w.calls[w.issued[j].call].spc.HasProc? || w.calls[w.issued[j].call].spc.StartLocked? <==> j !in w.jobs)
  }

  /** And what a call has started is a process, and its own. */
  ghost predicate Holding(w: World, t: nat) {
    t in w.calls ==> forall j | HasStarted(w.calls[t], j) :: j in w.procs && j in w.issued && w.issued[j].call == t
  }

  lemma StartHolds(w: World, s: Step, w': World, t: nat, j: JobId)
    requires NextStart(w, s, w') && Held(w, j) && Holding(w, t)
    requires w.procs.Keys <= w.issued.Keys && w.jobs.Keys <= w.procs.Keys
    requires s.Spawn? ==> CallInv(w, s.t)
    requires s.Register? ==> Holding(w, s.t) && Held(w, w.calls[s.t].spc.job.id)
    ensures Held(w', j) && Holding(w', t)
  {
    hide Publish, AddToIndex;
  }

  lemma ReadHolds(w: World, s: Step, w': World, t: nat, j: JobId)
    requires NextRead(w, s, w') && Held(w, j) && Holding(w, t)
    ensures Held(w', j) && Holding(w', t)
  {
  }

  lemma StopHolds(w: World, s: Step, w': World, t: nat, j: JobId)
    requires NextStop(w, s, w') && Held(w, j) && Holding(w, t)
    ensures Held(w', j) && Holding(w', t)
  {
    hide Publish, StopRecord;
  }

  lemma WaiterHolds(w: World, s: Step, w': World, t: nat, j: JobId)
    requires NextWaiter(w, s, w') && Held(w, j) && Holding(w, t)
    ensures Held(w', j) && Holding(w', t)
  {
    hide Publish, FinishRecord;
  }

  ghost predicate AllHeld(w: World) { (forall j :: Held(w, j)) && (forall t :: Holding(w, t)) }

  lemma StepHolds(w: World, s: Step, w': World, t: nat, j: JobId)
    requires Inv(w) && Next(w, s, w') && AllHeld(w)
    ensures Held(w', j) && Holding(w', t)
  {
    hide Inv, LockInv, JobInv, CallInv, Next, NextStart, NextRead, NextStop, NextWaiter, Held, Holding;
    InvParts(w);
    NextIsOneOfFour(w, s, w');
    if NextStart(w, s, w') {
      CallsThatStart(w, s, w');
      StartHolds(w, s, w', t, j);
    }
    else if NextRead(w, s, w') { ReadHolds(w, s, w', t, j); }
    else if NextStop(w, s, w') { StopHolds(w, s, w', t, j); }
    else { WaiterHolds(w, s, w', t, j); }
  }

  lemma CallsThatStart(w: World, s: Step, w': World)
    requires NextStart(w, s, w')
    ensures s.Spawn? ==> s.t in w.calls
    ensures s.Register? ==> AtStart(w, s.t) && w.calls[s.t].spc.StartLocked?
  {
  }

  lemma {:induction false} RunHolds(ws: seq<World>, ss: seq<Step>, k: nat)
    requires Run(ws, ss) && k < |ws|
    ensures AllHeld(ws[k])
  {
    hide Next, Inv, Held, Holding;
    if k == 0 {
      NothingHeld(ws[0]);
    } else {
      RunHolds(ws, ss, k - 1);
      assert Next(ws[k - 1], ss[k - 1], ws[k]);
      RunKeepsInv(ws, ss, k - 1);
      forall j: JobId
        ensures Held(ws[k], j)
      {
        StepHolds(ws[k - 1], ss[k - 1], ws[k], 0, j);
      }
      forall t: nat
        ensures Holding(ws[k], t)
      {
        StepHolds(ws[k - 1], ss[k - 1], ws[k], t, "");
      }
    }
  }

  lemma NothingHeld(w: World)
    requires Init(w)
    ensures AllHeld(w)
  {
  }

  /** Every process belongs to a registered job, or to a Start call that is about to register it: no failed Start
      leaves a process behind, and no two calls share one. */
  lemma NoOrphans(ws: seq<World>, ss: seq<Step>, k: nat, j: JobId)
    requires Run(ws, ss) && k < |ws| && j in ws[k].procs
    ensures j in ws[k].issued && AtStart(ws[k], ws[k].issued[j].call)
    ensures var c := ws[k].calls[ws[k].issued[j].call];
            if j in ws[k].jobs then c.spc == Registered(j) || c.spc == Started(j)
            else (c.spc.HasProc? || c.spc.StartLocked?) && c.spc.job.id == j
  {
    hide Next;
    RunHolds(ws, ss, k);
    assert Held(ws[k], j);
  }

  /** The process of one of the call's IDs has been started. */
  ghost predicate HasProcess(w: World, t: nat) {
    exists j :: j in w.procs && j in w.issued && w.issued[j].call == t
  }

  /** In every reachable state a Start can fail if and only if it has not failed yet and has started no process. */
  lemma StartFailsExactly(ws: seq<World>, ss: seq<Step>, k: nat, t: nat)
    requires Run(ws, ss) && k < |ws| && AtStart(ws[k], t)
    ensures (exists w' :: Next(ws[k], StartFails(t), w')) <==>
              !ws[k].calls[t].spc.StartFailed? && !HasProcess(ws[k], t)
  {
    hide Next, Held, Holding;
    var w := ws[k];
    RunHolds(ws, ss, k);
    assert Holding(w, t);
    if CanStartFails(w, t) {
      Failing(w, DoStartFails(w, t), t);
      forall j | j in w.procs && j in w.issued
        ensures w.issued[j].call != t
      {
        assert Held(w, j);
        HeldByCall(w, j);
      }
    } else if !w.calls[t].spc.StartFailed? {
      var j := StartedJob(w.calls[t]);
      HoldsIt(w, t, j);
    }
    forall w' | Next(w, StartFails(t), w')
      ensures CanStartFails(w, t)
    {
      Failing(w, w', t);
    }
  }

  lemma StartedJob(c: Call) returns (j: JobId)
    requires c.StartCall? && !c.spc.Preparing? && !c.spc.HasDir? && !c.spc.StartFailed?
    ensures HasStarted(c, j)
  {
    j := Subject(c);
  }

  lemma HeldByCall(w: World, j: JobId)
    requires Held(w, j) && j in w.procs
    ensures j in w.issued && w.issued[j].call in w.calls && HasStarted(w.calls[w.issued[j].call], j)
  {
  }

  lemma HoldsIt(w: World, t: nat, j: JobId)
    requires Holding(w, t) && t in w.calls && HasStarted(w.calls[t], j)
    ensures j in w.procs && j in w.issued && w.issued[j].call == t
  {
  }

  lemma Failing(w: World, w': World, t: nat)
    ensures Next(w, StartFails(t), w') <==> CanStartFails(w, t) && w' == DoStartFails(w, t)
  {
  }
}
