/** What holds of every run of the job life cycle, however its calls, goroutines and processes
    interleave. */
module LifecycleTheorems {
  import opened Base
  import opened JobModel
  import opened JobLifecycle
  import opened LifecycleInvariant
  import opened LifecycleGrowth

  // ---------------------------------------------------------------- from steps to runs

  lemma {:induction false} RunKeepsInv(ws: seq<World>, ss: seq<Step>, i: nat)
    requires Run(ws, ss) && i < |ws|
    ensures Inv(ws[i])
  {
    hide Inv, Next;
    if i == 0 {
      InitInv(ws[0]);
    } else {
      RunKeepsInv(ws, ss, i - 1);
      assert Next(ws[i - 1], ss[i - 1], ws[i]);
      StepKeepsInv(ws[i - 1], ss[i - 1], ws[i]);
    }
  }

  lemma InitInv(w: World)
    requires Init(w)
    ensures Inv(w)
  {
  }

  lemma {:induction false} RunGrows(ws: seq<World>, ss: seq<Step>, i: nat, k: nat, j: JobId)
    requires Run(ws, ss) && i <= k < |ws|
    ensures Grows(ws[i], ws[k], j)
  {
    hide Inv, Next;
    if i < k {
      RunGrows(ws, ss, i, k - 1, j);
      RunKeepsInv(ws, ss, k - 1);
      assert Next(ws[k - 1], ss[k - 1], ws[k]);
      StepGrows(ws[k - 1], ss[k - 1], ws[k], j);
    }
  }

  // ---------------------------------------------------------------- the history of a record

  predicate SameIdentity(r: JobRecord, s: JobRecord) {
    && r.id == s.id && r.client == s.client && r.pid == s.pid && r.command == s.command
    && r.cmdArgs == s.cmdArgs && r.outputFile == s.outputFile && r.started == s.started
  }

  /** Exit code and signal are what waiting for the process reported. */
  predicate TruthfulExit(r: JobRecord, p: Proc) {
    && p.Reaped?
    && r.exitCode == (match p.status case Exited(code) => code case Signaled(_) => -1 case WaitError(_) => 0)
    && r.signalStr == (match p.status case Signaled(signal) => signal case _ => "")
  }

  predicate RunningVersion(r: JobRecord) {
    r.state == Running && r.ended == 0 && r.exitCode == 0 && r.signalStr == ""
  }

  predicate CompletedVersion(r: JobRecord, p: Proc) {
    r.state == Completed && r.ended > 0 && TruthfulExit(r, p)
  }

  predicate StoppedByApi(r: JobRecord) {
    r.state == TerminatedByAPI && r.ended > 0 && r.exitCode == -1 && r.signalStr == "SIGKILL"
  }

  predicate StoppedThenReaped(r: JobRecord, p: Proc, ended: int) {
    r.state == TerminatedByAPI && r.ended == ended && TruthfulExit(r, p)
  }

  /** A prefix of Running, Completed or of Running, TerminatedByAPI, TerminatedByAPI, in which the
      last version of either has the exit code and signal of the process, the end time is set once,
      messages are only appended to, and what identifies the job never changes. */
  ghost predicate HistoryShape(h: seq<JobRecord>, j: JobId, p: Proc) {
    && 1 <= |h| <= 3
    && RunningVersion(h[0]) && h[0].id == j
    && (|h| == 2 ==> CompletedVersion(h[1], p) || StoppedByApi(h[1]))
    && (|h| == 3 ==> StoppedByApi(h[1]) && StoppedThenReaped(h[2], p, h[1].ended))
    && (forall n :: 1 <= n < |h| ==> SameIdentity(h[n], h[0]))
    && (forall n :: 1 <= n < |h| ==> h[n - 1].mesg < h[n].mesg)
  }

  lemma RecordHistory(ws: seq<World>, ss: seq<Step>, i: nat, j: JobId)
    requires Run(ws, ss) && i < |ws| && j in ws[i].history
    ensures j in ws[i].procs && HistoryShape(ws[i].history[j], j, ws[i].procs[j])
  {
    hide Inv, HistoryShape, JobInv;
    RunKeepsInv(ws, ss, i);
    InvParts(ws[i]);
    HistoryOfJob(ws[i], j);
  }

  lemma HistoryOfJob(w: World, j: JobId)
    requires JobInv(w, j) && j in w.history
    ensures HistoryShape(w.history[j], j, w.procs[j])
  {
    ChainShape(AllVersions(w, j), w.history[j], w.waiters[j], w.procs[j]);
  }

  lemma ChainShape(v: seq<JobRecord>, h: seq<JobRecord>, g: Waiter, p: Proc)
    requires Chain(v, g, p) && h <= v && |h| > 0
    requires (g.Waiting? <==> !p.Reaped?) && (!g.Waiting? ==> p.status == g.status)
    ensures HistoryShape(h, v[|v| - 1].id, p)
  {
    assert h[0] == v[0];
    if |h| > 1 { assert h[1] == v[1]; }
    if |h| > 2 { assert h[2] == v[2]; }
  }

  // ---------------------------------------------------------------- one change of state

  lemma LaterVersions(ws: seq<World>, ss: seq<Step>, i: nat, k: nat, j: JobId)
    requires Run(ws, ss) && i <= k < |ws| && j in ws[i].jobs
    ensures j in ws[k].jobs && JobInv(ws[i], j) && JobInv(ws[k], j)
    ensures AllVersions(ws[i], j) <= AllVersions(ws[k], j)
  {
    hide Inv, JobInv;
    RunGrows(ws, ss, i, k, j);
    RunKeepsInv(ws, ss, i);
    RunKeepsInv(ws, ss, k);
    InvParts(ws[i]);
    InvParts(ws[k]);
  }

  /** A terminal state is never left, its end time never rewritten, and what identifies the job is fixed. */
  lemma TerminalAbsorbs(ws: seq<World>, ss: seq<Step>, i: nat, k: nat, j: JobId)
    requires Run(ws, ss) && i <= k < |ws| && j in ws[i].jobs
    ensures j in ws[k].jobs && SameIdentity(ws[k].jobs[j], ws[i].jobs[j])
    ensures Terminal(ws[i].jobs[j].state) ==>
              ws[k].jobs[j].state == ws[i].jobs[j].state && ws[k].jobs[j].ended == ws[i].jobs[j].ended
  {
    hide Run;
    LaterVersions(ws, ss, i, k, j);
    var v, v' := AllVersions(ws[i], j), AllVersions(ws[k], j);
    assert v[|v| - 1] == v'[|v| - 1];
  }

  /** No field of a record is written while the record is Running. */
  lemma RunningUntouched(ws: seq<World>, ss: seq<Step>, i: nat, k: nat, j: JobId)
    requires Run(ws, ss) && i <= k < |ws| && j in ws[i].jobs
    ensures j in ws[k].jobs
    ensures ws[k].jobs[j].state == Running ==> ws[i].jobs[j] == ws[k].jobs[j]
  {
    hide Run;
    LaterVersions(ws, ss, i, k, j);
    var v, v' := AllVersions(ws[i], j), AllVersions(ws[k], j);
    assert v[|v| - 1] == v'[|v| - 1];
  }

  /** TerminatedByAPI or Completed is never claimed of a process that has not been reaped. */
  lemma TerminalImpliesReaped(ws: seq<World>, ss: seq<Step>, i: nat, j: JobId)
    requires Run(ws, ss) && i < |ws| && j in ws[i].jobs && Terminal(ws[i].jobs[j].state)
    ensures j in ws[i].procs && ws[i].procs[j].Reaped?
  {
    hide Run;
    LaterVersions(ws, ss, i, i, j);
  }

  /** The completion goroutine's update is the last write: from then on, in every later state, the record
      is exactly what that update made it, and its exit code and signal are the process's. */
  lemma LastWriterIsTruthful(ws: seq<World>, ss: seq<Step>, i: nat, k: nat, j: JobId)
    requires Run(ws, ss) && i <= k < |ws| && j in ws[i].jobs && j in ws[i].waiters
    requires ws[i].waiters[j].Updated? || ws[i].waiters[j].Finished?
    ensures j in ws[k].jobs && ws[k].jobs[j] == ws[i].jobs[j]
    ensures j in ws[k].procs && TruthfulExit(ws[k].jobs[j], ws[k].procs[j])
  {
    hide Run;
    LaterVersions(ws, ss, i, k, j);
    RunGrows(ws, ss, i, k, j);
    var v, v' := AllVersions(ws[i], j), AllVersions(ws[k], j);
    assert v[1] == v'[1];
    assert v[|v| - 1] == v'[|v| - 1];
  }
}
