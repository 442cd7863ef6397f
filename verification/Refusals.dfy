/** Why a call is refused: exactly the steps at which a Status, a StreamOutputSetup or a Stop comes to fail. */
module Refusals {
  import opened Base
  import opened JobModel
  import opened JobLifecycle
  import opened LifecycleInvariant
  import opened LifecycleGrowth
  import opened LifecycleTheorems
  import opened StopTheorems
  import opened StopLimits
  import R = Registry
  import opened Linearization

  /** The call has failed: it has returned an error, or will when it has released the mutex. */
  predicate HasFailed(c: Call) { c.Query? && (c.pc == Returning(Failed) || c.pc == Done(Failed)) }

  /** The removal step of a Stop reports an error: its own, or a directory that is gone or still in use. */
  predicate RemovalFails(w: World, t: nat, ok: bool)
    requires AtStage(w, t) && w.calls[t].pc.stage.Remove?
  {
    var req := w.calls[t].req;
    var dir := Dir(req.client, req.id);
    !ok || (w.calls[t].pc.stage.rm.RmDir? && (dir !in w.dirs || w.procs[req.id].Alive?))
  }

  /** The call has the mutex, to read or to write. */
  predicate Holds(w: World, t: nat) { w.mu.writer == Some(Caller(t)) || t in w.mu.readers }

  /** No context is looked at any more: a Status or a Stop has its copy, or the call has returned. */
  predicate PastGivingUp(c: Call) { c.Query? && (c.pc.Done? || (c.pc.Copied? && c.req.op != StreamSetup)) }

  /** The step at which a call is turned away: its arguments, its context or its client directory, outside the mutex
      and, but for a StreamOutputSetup, before it has its copy; an ID that no job has; a job of somebody else's,
      without override; a kill or a removal that fails. */
  predicate TurnsAway(w: World, s: Step) {
    match s
    case QueryFails(t) => AtQuery(w, t) && !Holds(w, t) && !PastGivingUp(w.calls[t])
    case FindJob(t) => AtQuery(w, t) && w.calls[t].req.id !in w.jobs
    case ReaderReturns(t) =>
      AtQuery(w, t) && w.calls[t].pc.Copied?
      && w.calls[t].pc.copy.client != w.calls[t].req.client && !w.calls[t].req.override
    case StopChecks(t) =>
      AtStage(w, t) && w.jobs[w.calls[t].req.id].client != w.calls[t].req.client && !w.calls[t].req.override
    case StopKills(t, ok) => AtStage(w, t) && !ok
    case StopRemoves(t, ok) => AtStage(w, t) && w.calls[t].pc.stage.Remove? && RemovalFails(w, t, ok)
    case _ => false
  }

  predicate FailsExactly(w: World, s: Step, w': World, t: nat) {
    t in w'.calls ==>
      (HasFailed(w'.calls[t]) <==> (t in w.calls && HasFailed(w.calls[t])) || (CallOf(s) == Some(t) && TurnsAway(w, s)))
  }

  lemma StartFailsNoQuery(w: World, s: Step, w': World, t: nat)
    requires NextStart(w, s, w')
    ensures FailsExactly(w, s, w', t)
  {
    hide Publish, AddToIndex;
  }

  lemma ReadFails(w: World, s: Step, w': World, t: nat)
    requires NextRead(w, s, w') && LockInv(w)
    ensures FailsExactly(w, s, w', t)
  {
  }

  lemma StopFails(w: World, s: Step, w': World, t: nat)
    requires NextStop(w, s, w')
    ensures FailsExactly(w, s, w', t)
  {
    hide Publish, StopRecord, ProcsKilled;
  }

  lemma WaiterFailsNoQuery(w: World, s: Step, w': World, t: nat)
    requires NextWaiter(w, s, w')
    ensures FailsExactly(w, s, w', t)
  {
    hide Publish, FinishRecord, ProcsKilled;
  }

  lemma StepFails(w: World, s: Step, w': World, t: nat)
    requires Next(w, s, w') && LockInv(w)
    ensures FailsExactly(w, s, w', t)
  {
    hide LockInv, Next, NextStart, NextRead, NextStop, NextWaiter, FailsExactly;
    NextIsOneOfFour(w, s, w');
    if NextStart(w, s, w') { StartFailsNoQuery(w, s, w', t); }
    else if NextRead(w, s, w') { ReadFails(w, s, w', t); }
    else if NextStop(w, s, w') { StopFails(w, s, w', t); }
    else { WaiterFailsNoQuery(w, s, w', t); }
  }

  /** Some step of the call has turned it away by state k. */
  ghost predicate TurnedAway(ws: seq<World>, ss: seq<Step>, k: nat, t: nat)
    requires k <= |ss| < |ws|
  {
    exists m :: 0 <= m < k && CallOf(ss[m]) == Some(t) && TurnsAway(ws[m], ss[m])
  }

  /** A call has failed if and only if one of its steps has turned it away. */
  lemma {:induction false} FailedExactly(ws: seq<World>, ss: seq<Step>, k: nat, t: nat)
    requires Run(ws, ss) && k <= |ss|
    ensures (t in ws[k].calls && HasFailed(ws[k].calls[t])) <==> TurnedAway(ws, ss, k, t)
  {
    hide Next, Inv, LockInv, ProcInv, CallInv, JobInv, HasFailed, TurnsAway, CallOf;
    if k > 0 {
      FailedExactly(ws, ss, k - 1, t);
      RunKeepsInv(ws, ss, k - 1);
      InvParts(ws[k - 1]);
      assert Next(ws[k - 1], ss[k - 1], ws[k]);
      StepFails(ws[k - 1], ss[k - 1], ws[k], t);
      CallsStay(ws[k - 1], ss[k - 1], ws[k], t);
      assert TurnedAway(ws, ss, k, t) <==>
        TurnedAway(ws, ss, k - 1, t) || (CallOf(ss[k - 1]) == Some(t) && TurnsAway(ws[k - 1], ss[k - 1]));
    }
  }

  predicate CallStays(w: World, s: Step, w': World, t: nat) {
    && (t in w.calls ==> t in w'.calls)
    && (CallOf(s) == Some(t) ==> t in w'.calls)
  }

  lemma StartStays(w: World, s: Step, w': World, t: nat)
    requires NextStart(w, s, w')
    ensures CallStays(w, s, w', t)
  {
    hide Publish, AddToIndex;
  }

  lemma ReadStays(w: World, s: Step, w': World, t: nat)
    requires NextRead(w, s, w')
    ensures CallStays(w, s, w', t)
  {
  }

  lemma StopStays(w: World, s: Step, w': World, t: nat)
    requires NextStop(w, s, w')
    ensures CallStays(w, s, w', t)
  {
    hide Publish, StopRecord, ProcsKilled;
  }

  lemma WaiterStays(w: World, s: Step, w': World, t: nat)
    requires NextWaiter(w, s, w')
    ensures CallStays(w, s, w', t)
  {
    hide Publish, FinishRecord, ProcsKilled;
  }

  lemma CallsStay(w: World, s: Step, w': World, t: nat)
    requires Next(w, s, w')
    ensures CallStays(w, s, w', t)
  {
    hide Next, NextStart, NextRead, NextStop, NextWaiter, CallStays;
    NextIsOneOfFour(w, s, w');
    if NextStart(w, s, w') { StartStays(w, s, w', t); }
    else if NextRead(w, s, w') { ReadStays(w, s, w', t); }
    else if NextStop(w, s, w') { StopStays(w, s, w', t); }
    else { WaiterStays(w, s, w', t); }
  }

  /** A call is refused where it looks for its job if and only if no job has the ID, as its atomic call is then;
      otherwise it goes on. */
  lemma FindRefusesUnknownIds(ws: seq<World>, ss: seq<Step>, m: nat, t: nat)
    requires Run(ws, ss) && m < |ss| && ss[m] == FindJob(t)
    ensures AtQuery(ws[m], t) && AtQuery(ws[m + 1], t)
    ensures ws[m + 1].calls[t].pc.Done? <==> ws[m].calls[t].req.id !in ws[m].jobs
    ensures ws[m].calls[t].req.id in ws[m].jobs ==> ws[m + 1].calls[t].pc.WantCopy? && AnswerAt(ws, ss, m) == None
    ensures ws[m].calls[t].req.id !in ws[m].jobs ==>
              ws[m + 1].calls[t].pc == Done(Failed) && AnswerAt(ws, ss, m) == Some(R.Refused)
  {
    hide Next;
    assert Next(ws[m], ss[m], ws[m + 1]);
    FindStep(ws[m], ws[m + 1], t);
  }

  lemma FindStep(w: World, w': World, t: nat)
    requires Next(w, FindJob(t), w')
    ensures CanFindJob(w, t) && w' == DoFindJob(w, t)
  {
  }

  // ---------------------------------------------------------------- giving up

  /** In every reachable state a call can give up if and only if it is outside the mutex, has not returned, and, being
      a Status or a Stop, does not have its copy yet. */
  lemma GivesUpExactly(ws: seq<World>, ss: seq<Step>, k: nat, t: nat)
    requires Run(ws, ss) && k < |ws| && AtQuery(ws[k], t)
    ensures (exists w' :: Next(ws[k], QueryFails(t), w')) <==> !Holds(ws[k], t) && !PastGivingUp(ws[k].calls[t])
  {
    hide Next, Inv, ProcInv, CallInv, JobInv;
    var w := ws[k];
    RunKeepsInv(ws, ss, k);
    InvParts(w);
    if CanQueryFails(w, t) {
      GivingUp(w, DoQueryFails(w, t), t);
    }
    forall w' | Next(w, QueryFails(t), w')
      ensures CanQueryFails(w, t)
    {
      GivingUp(w, w', t);
    }
  }

  lemma GivingUp(w: World, w': World, t: nat)
    ensures Next(w, QueryFails(t), w') <==> CanQueryFails(w, t) && w' == DoQueryFails(w, t)
  {
  }

  /** Where a Status or a StreamOutputSetup can be once it has its copy. */
  predicate AfterItsCopy(c: Call, req: Request, copy: JobRecord, at: nat) {
    && c.Query? && c.req == req
    && (c.pc == Copied(copy, at)
        || c.pc == Done(if copy.client == req.client || req.override then Untouched(copy, at) else Failed)
        || (req.op == StreamSetup && c.pc == Done(Failed)))
  }

  /** A Status that has its copy answers with it unless the job is somebody else's; only a StreamOutputSetup can fail
      after that. */
  lemma {:induction false} ReaderAnswersItsCopy(
    ws: seq<World>, ss: seq<Step>, i: nat, k: nat, t: nat, req: Request, copy: JobRecord, at: nat)
    requires Run(ws, ss) && i <= k < |ws| && req.op != Stop
    requires t in ws[i].calls && ws[i].calls[t] == Query(req, Copied(copy, at))
    ensures t in ws[k].calls && AfterItsCopy(ws[k].calls[t], req, copy, at)
  {
    hide Next, AfterItsCopy;
    if i < k {
      ReaderAnswersItsCopy(ws, ss, i, k - 1, t, req, copy, at);
      assert Next(ws[k - 1], ss[k - 1], ws[k]);
      StaysAfterItsCopy(ws[k - 1], ss[k - 1], ws[k], t, req, copy, at);
    } else {
      assert AfterItsCopy(Query(req, Copied(copy, at)), req, copy, at) by { AtItsCopy(req, copy, at); }
    }
  }

  lemma AtItsCopy(req: Request, copy: JobRecord, at: nat)
    ensures AfterItsCopy(Query(req, Copied(copy, at)), req, copy, at)
  {
  }

  lemma StaysAfterItsCopy(w: World, s: Step, w': World, t: nat, req: Request, copy: JobRecord, at: nat)
    requires Next(w, s, w') && req.op != Stop && t in w.calls && AfterItsCopy(w.calls[t], req, copy, at)
    ensures t in w'.calls && AfterItsCopy(w'.calls[t], req, copy, at)
  {
    hide Next, NextStart, NextRead, NextStop, NextWaiter, AfterItsCopy;
    NextIsOneOfFour(w, s, w');
    if NextStart(w, s, w') { StartAfterCopy(w, s, w', t, req, copy, at); }
    else if NextRead(w, s, w') { ReadAfterCopy(w, s, w', t, req, copy, at); }
    else if NextStop(w, s, w') { StopAfterCopy(w, s, w', t, req, copy, at); }
    else { WaiterAfterCopy(w, s, w', t, req, copy, at); }
  }

  lemma StartAfterCopy(w: World, s: Step, w': World, t: nat, req: Request, copy: JobRecord, at: nat)
    requires NextStart(w, s, w') && t in w.calls && AfterItsCopy(w.calls[t], req, copy, at)
    ensures t in w'.calls && AfterItsCopy(w'.calls[t], req, copy, at)
  {
    hide Publish, AddToIndex;
  }

  lemma ReadAfterCopy(w: World, s: Step, w': World, t: nat, req: Request, copy: JobRecord, at: nat)
    requires NextRead(w, s, w') && req.op != Stop && t in w.calls && AfterItsCopy(w.calls[t], req, copy, at)
    ensures t in w'.calls && AfterItsCopy(w'.calls[t], req, copy, at)
  {
  }

  lemma StopAfterCopy(w: World, s: Step, w': World, t: nat, req: Request, copy: JobRecord, at: nat)
    requires NextStop(w, s, w') && req.op != Stop && t in w.calls && AfterItsCopy(w.calls[t], req, copy, at)
    ensures t in w'.calls && AfterItsCopy(w'.calls[t], req, copy, at)
  {
    hide Publish, StopRecord, ProcsKilled;
  }

  lemma WaiterAfterCopy(w: World, s: Step, w': World, t: nat, req: Request, copy: JobRecord, at: nat)
    requires NextWaiter(w, s, w') && t in w.calls && AfterItsCopy(w.calls[t], req, copy, at)
    ensures t in w'.calls && AfterItsCopy(w'.calls[t], req, copy, at)
  {
    hide Publish, FinishRecord, ProcsKilled;
  }

  // ---------------------------------------------------------------- who gets past the checks

  ghost predicate Named(w: World) { forall j :: j in w.issued ==> j != "" && w.issued[j].client != "" }

  lemma StartNames(w: World, s: Step, w': World)
    requires NextStart(w, s, w') && Named(w)
    ensures Named(w')
  {
    hide Publish, AddToIndex;
  }

  lemma OthersNameNothing(w: World, s: Step, w': World)
    requires NextRead(w, s, w') || NextStop(w, s, w') || NextWaiter(w, s, w')
    ensures w'.issued == w.issued
  {
    hide Publish, StopRecord, FinishRecord, ProcsKilled;
  }

  lemma {:induction false} AllNamed(ws: seq<World>, ss: seq<Step>, k: nat)
    requires Run(ws, ss) && k < |ws|
    ensures Named(ws[k])
  {
    hide Next, NextStart, NextRead, NextStop, NextWaiter;
    if k > 0 {
      AllNamed(ws, ss, k - 1);
      assert Next(ws[k - 1], ss[k - 1], ws[k]);
      NextIsOneOfFour(ws[k - 1], ss[k - 1], ws[k]);
      if NextStart(ws[k - 1], ss[k - 1], ws[k]) { StartNames(ws[k - 1], ss[k - 1], ws[k]); }
      else { OthersNameNothing(ws[k - 1], ss[k - 1], ws[k]); }
    }
  }

  /** Whoever has a registered job gets past the checks of its arguments when asking about it or stopping it. */
  lemma OwnersMayAsk(ws: seq<World>, ss: seq<Step>, k: nat, j: JobId, op: Op, override: bool)
    requires Run(ws, ss) && k < |ws| && j in ws[k].jobs
    ensures Passes(Request(op, ws[k].jobs[j].client, j, override))
  {
    hide Next, Inv, LockInv, ProcInv, CallInv;
    RunKeepsInv(ws, ss, k);
    InvParts(ws[k]);
    assert JobInv(ws[k], j);
    AllNamed(ws, ss, k);
  }
}
