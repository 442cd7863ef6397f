/** Every run of the job life cycle does to the registry, and answers its callers, what some sequence of the
    atomic calls of Registry does: each call takes effect at one of its steps. */
module Linearization {
  import opened Base
  import opened JobModel
  import opened JobLifecycle
  import opened LifecycleInvariant
  import opened LifecycleGrowth
  import opened LifecycleTheorems
  import opened StopTheorems
  import opened StopLimits
  import R = Registry

  // ---------------------------------------------------------------- the atomic calls behind a run

  function RegistryOf(w: World): R.Registry { R.Registry(w.jobs, w.index) }

  function WhoOf(req: Request): R.Caller { R.Caller(req.client, if req.override then R.Admin else R.User) }

  function StopOfRequest(req: Request, now: int, later: int): R.Event {
    R.Event.Stop(WhoOf(req), req.id, R.StopEnv(true, true, true, true, now, later))
  }

  function CallOfRequest(req: Request): R.Event {
    match req.op
    case Status => R.Event.Status(WhoOf(req), req.id, true)
    case StreamSetup => R.Event.StreamSetup(WhoOf(req), req.id, true)
    case Stop => StopOfRequest(req, 0, 0)
  }

  /** The atomic Stop has nothing to do: the job is another's, or has ended. */
  predicate NothingToDo(req: Request, r: JobRecord) { !Mine(req, r) || Terminal(r.state) }

  /** The atomic call that takes effect at a step, if any: a Start when it registers, a reader when it copies, a
      Stop when it copies a job with which it has nothing to do, or when it updates, any of them when the ID is
      unknown, and a completion when the goroutine updates. */
  function EventsOf(w: World, s: Step): seq<R.Event> {
    match s
    case Register(t) =>
      if CanRegister(w, t) then [R.Event.Start(R.Caller(w.calls[t].client, R.User), w.calls[t].spc.job, true)] else []
    case FindJob(t) =>
      if CanFindJob(w, t) && w.calls[t].req.id !in w.jobs then [CallOfRequest(w.calls[t].req)] else []
    case CopyJob(t) =>
      if CanCopyJob(w, t) && (w.calls[t].req.op == Stop ==> NothingToDo(w.calls[t].req, w.jobs[w.calls[t].req.id]))
      then [CallOfRequest(w.calls[t].req)] else []
    case StopUpdates(t, now, later) =>
      if CanStopUpdates(w, t, now, later) then [StopOfRequest(w.calls[t].req, now, later)] else []
    case WaiterUpdates(j, now) =>
      if CanWaiterUpdates(w, j, now) then [R.Finish(j, w.waiters[j].status, w.waiters[j].rmErr, now)] else []
    case _ => []
  }

  function Trace(ws: seq<World>, ss: seq<Step>, k: nat): seq<R.Event>
    requires k <= |ss| && |ws| == |ss| + 1
  {
    if k == 0 then [] else Trace(ws, ss, k - 1) + EventsOf(ws[k - 1], ss[k - 1])
  }

  const EMPTY: R.Registry := R.Registry(map[], map[])

  // ---------------------------------------------------------------- arguments that have been checked

  /** A call that has got past the checks of its arguments has arguments that pass them. */
  predicate ArgsOk(c: Call) {
    match c
    case StartCall(client, command, _, spc) =>
      && (spc.HasDir? || spc.HasProc? || spc.StartLocked? ==> client != "" && command != "")
      && (spc.HasProc? || spc.StartLocked? ==> spc.job.command == command)
    case Query(req, pc) =>
      && (!pc.WantFind? && !pc.Done? ==> Passes(req))
      && (pc.Stopping? || pc.Returning? ==> req.op == Stop)
  }

  predicate ArgStep(w: World, s: Step, w': World, t: nat) {
    t in w'.calls ==>
      && (t !in w.calls ==> ArgsOk(w'.calls[t]) && (w'.calls[t].Query? ==> s == BeginQuery(t, w'.calls[t].req)))
      && (t in w.calls ==> (w.calls[t].Query? <==> w'.calls[t].Query?))
      && (t in w.calls && ArgsOk(w.calls[t]) ==> ArgsOk(w'.calls[t]))
  }

  lemma StartArgs(w: World, s: Step, w': World, t: nat)
    requires NextStart(w, s, w')
    ensures ArgStep(w, s, w', t)
  {
    hide Publish, AddToIndex;
  }

  lemma ReadArgs(w: World, s: Step, w': World, t: nat)
    requires NextRead(w, s, w')
    ensures ArgStep(w, s, w', t)
  {
  }

  lemma StopArgs(w: World, s: Step, w': World, t: nat)
    requires NextStop(w, s, w')
    ensures ArgStep(w, s, w', t)
  {
    hide Publish, StopRecord, ProcsKilled;
  }

  lemma WaiterArgs(w: World, s: Step, w': World, t: nat)
    requires NextWaiter(w, s, w')
    ensures ArgStep(w, s, w', t)
  {
    hide Publish, FinishRecord, ProcsKilled;
  }

  lemma StepArgs(w: World, s: Step, w': World, t: nat)
    requires Next(w, s, w')
    ensures ArgStep(w, s, w', t)
  {
    hide Next, NextStart, NextRead, NextStop, NextWaiter, ArgStep;
    NextIsOneOfFour(w, s, w');
    if NextStart(w, s, w') { StartArgs(w, s, w', t); }
    else if NextRead(w, s, w') { ReadArgs(w, s, w', t); }
    else if NextStop(w, s, w') { StopArgs(w, s, w', t); }
    else { WaiterArgs(w, s, w', t); }
  }

  lemma {:induction false} RunArgs(ws: seq<World>, ss: seq<Step>, i: nat, t: nat)
    requires Run(ws, ss) && i < |ws| && t in ws[i].calls
    ensures ArgsOk(ws[i].calls[t])
  {
    hide Next, ArgsOk;
    if i > 0 {
      assert Next(ws[i - 1], ss[i - 1], ws[i]);
      StepArgs(ws[i - 1], ss[i - 1], ws[i], t);
      if t in ws[i - 1].calls {
        RunArgs(ws, ss, i - 1, t);
      }
    }
  }

  // ---------------------------------------------------------------- one step

  /** The registry after a step is what the step's atomic call makes of the registry before it. */
  predicate Applied(w: World, s: Step, w': World) {
    && |EventsOf(w, s)| <= 1
    && RegistryOf(w') == (if EventsOf(w, s) == [] then RegistryOf(w) else R.Apply(RegistryOf(w), EventsOf(w, s)[0]).0)
    && (EventsOf(w, s) != [] && EventsOf(w, s)[0].Start? ==> EventsOf(w, s)[0].job.id !in w.jobs)
  }

  lemma RegisterApplied(w: World, t: nat)
    requires CanRegister(w, t) && CallInv(w, t) && ArgsOk(w.calls[t])
    ensures Applied(w, Register(t), DoRegister(w, t))
  {
  }

  lemma UpdateApplied(w: World, t: nat, now: int, later: int)
    requires CanStopUpdates(w, t, now, later) && CallInv(w, t) && ArgsOk(w.calls[t])
    ensures Applied(w, StopUpdates(t, now, later), DoStopUpdates(w, t, now, later))
    ensures R.Apply(RegistryOf(w), EventsOf(w, StopUpdates(t, now, later))[0]).1
            == R.TheJob(StopRecord(w.jobs[w.calls[t].req.id], later))
  {
    hide StopRecord;
  }

  lemma CompletionApplied(w: World, j: JobId, now: int)
    requires CanWaiterUpdates(w, j, now)
    ensures Applied(w, WaiterUpdates(j, now), DoWaiterUpdates(w, j, now))
  {
    hide FinishRecord;
  }

  lemma QuietApplied(w: World, s: Step, w': World)
    requires !Writes(s) && w'.jobs == w.jobs && w'.index == w.index
    ensures Applied(w, s, w')
  {
    hide StopRecord;
  }

  lemma StepApplied(w: World, s: Step, w': World)
    requires Next(w, s, w')
    requires CallOf(s).Some? && CallOf(s).value in w.calls ==>
               CallInv(w, CallOf(s).value) && ArgsOk(w.calls[CallOf(s).value])
    ensures Applied(w, s, w')
  {
    hide Next, Applied, CallInv, ArgsOk, EventsOf;
    hide DoRegister, DoStopUpdates, DoWaiterUpdates;
    StepOfKind(w, s, w');
    if s.Register? {
      RegisterApplied(w, s.t);
    } else if s.StopUpdates? {
      UpdateApplied(w, s.t, s.now, s.later);
    } else if s.WaiterUpdates? {
      CompletionApplied(w, s.j, s.now);
    } else {
      QuietStep(w, s, w');
      QuietApplied(w, s, w');
    }
  }

  lemma QuietStep(w: World, s: Step, w': World)
    requires Next(w, s, w') && !Writes(s)
    ensures w'.jobs == w.jobs && w'.index == w.index
  {
    hide Next;
    StepAccounted(w, s, w', 0);
  }

  lemma StepOfKind(w: World, s: Step, w': World)
    requires Next(w, s, w')
    ensures s.Register? ==> CanRegister(w, s.t) && w' == DoRegister(w, s.t)
    ensures s.StopUpdates? ==> CanStopUpdates(w, s.t, s.now, s.later) && w' == DoStopUpdates(w, s.t, s.now, s.later)
    ensures s.WaiterUpdates? ==> CanWaiterUpdates(w, s.j, s.now) && w' == DoWaiterUpdates(w, s.j, s.now)
  {
  }

  // ---------------------------------------------------------------- whole runs

  lemma {:induction false} ApplyAllAppends(reg: R.Registry, es: seq<R.Event>, fs: seq<R.Event>)
    ensures R.ApplyAll(reg, es + fs) == R.ApplyAll(R.ApplyAll(reg, es), fs)
    ensures R.FreshStarts(reg, es + fs) <==> R.FreshStarts(reg, es) && R.FreshStarts(R.ApplyAll(reg, es), fs)
    decreases es
  {
    if es == [] {
      assert es + fs == fs;
    } else {
      assert (es + fs)[0] == es[0] && (es + fs)[1..] == es[1..] + fs;
      ApplyAllAppends(R.Apply(reg, es[0]).0, es[1..], fs);
    }
  }

  lemma OneEvent(reg: R.Registry, es: seq<R.Event>)
    requires |es| <= 1 && (es != [] && es[0].Start? ==> es[0].job.id !in reg.jobs)
    ensures R.ApplyAll(reg, es) == (if es == [] then reg else R.Apply(reg, es[0]).0) && R.FreshStarts(reg, es)
  {
    if es != [] {
      assert es[1..] == [];
    }
  }

  /** The registry of every reachable state is what the atomic calls of the run so far make of the empty one, and
      none of them registers an ID in use. */
  lemma {:induction false} RunIsAtomic(ws: seq<World>, ss: seq<Step>, k: nat)
    requires Run(ws, ss) && k <= |ss|
    ensures RegistryOf(ws[k]) == R.ApplyAll(EMPTY, Trace(ws, ss, k))
    ensures R.FreshStarts(EMPTY, Trace(ws, ss, k))
  {
    hide Inv, Next, CallInv, ArgsOk, EventsOf, R.Apply;
    if k > 0 {
      RunIsAtomic(ws, ss, k - 1);
      var w, s, w' := ws[k - 1], ss[k - 1], ws[k];
      assert Next(w, s, w');
      RunKeepsInv(ws, ss, k - 1);
      InvParts(w);
      if CallOf(s).Some? && CallOf(s).value in w.calls {
        RunArgs(ws, ss, k - 1, CallOf(s).value);
      }
      StepApplied(w, s, w');
      OneEvent(RegistryOf(w), EventsOf(w, s));
      ApplyAllAppends(EMPTY, Trace(ws, ss, k - 1), EventsOf(w, s));
    }
  }

  // ---------------------------------------------------------------- what the calls answer

  function AnswerOfOutcome(res: Outcome): R.Answer {
    match res
    case Untouched(copy, _) => R.TheJob(copy)
    case StoppedIt(job) => R.TheJob(job)
    case Failed => R.Refused
  }

  /** What the atomic call of step i answers. */
  function AnswerAt(ws: seq<World>, ss: seq<Step>, i: nat): Option<R.Answer>
    requires i < |ss| && |ws| == |ss| + 1
  {
    if EventsOf(ws[i], ss[i]) == [] then None
    else Some(R.Apply(RegistryOf(ws[i]), EventsOf(ws[i], ss[i])[0]).1)
  }

  lemma {:induction false} CopiedAt(ws: seq<World>, ss: seq<Step>, m: nat, t: nat) returns (c: nat)
    requires Run(ws, ss) && m < |ws| && AtQuery(ws[m], t) && ws[m].calls[t].pc.Copied?
    ensures c < m && ss[c] == CopyJob(t) && CanCopyJob(ws[c], t)
    ensures ws[c].calls[t].req == ws[m].calls[t].req
    ensures ws[m].calls[t].pc.copy == ws[c].jobs[ws[c].calls[t].req.id]
  {
    hide Next;
    assert m > 0;
    assert Next(ws[m - 1], ss[m - 1], ws[m]);
    BeforeCopied(ws[m - 1], ss[m - 1], ws[m], t);
    if ss[m - 1] == CopyJob(t) {
      c := m - 1;
    } else {
      c := CopiedAt(ws, ss, m - 1, t);
    }
  }

  /** How a call comes to hold a copy. */
  predicate CopyCame(w: World, s: Step, w': World, t: nat) {
    AtQuery(w', t) && w'.calls[t].pc.Copied? ==>
      && AtQuery(w, t) && w.calls[t].req == w'.calls[t].req
      && (s == CopyJob(t) ==> CanCopyJob(w, t) && w'.calls[t].pc.copy == w.jobs[w.calls[t].req.id])
      && (s != CopyJob(t) ==> w.calls[t].pc == w'.calls[t].pc)
  }

  lemma StartCame(w: World, s: Step, w': World, t: nat)
    requires NextStart(w, s, w')
    ensures CopyCame(w, s, w', t)
  {
    hide Publish, AddToIndex;
  }

  lemma ReadCame(w: World, s: Step, w': World, t: nat)
    requires NextRead(w, s, w')
    ensures CopyCame(w, s, w', t)
  {
  }

  lemma StopCame(w: World, s: Step, w': World, t: nat)
    requires NextStop(w, s, w')
    ensures CopyCame(w, s, w', t)
  {
    hide Publish, StopRecord, ProcsKilled;
  }

  lemma WaiterCame(w: World, s: Step, w': World, t: nat)
    requires NextWaiter(w, s, w')
    ensures CopyCame(w, s, w', t)
  {
    hide Publish, FinishRecord, ProcsKilled;
  }

  lemma BeforeCopied(w: World, s: Step, w': World, t: nat)
    requires Next(w, s, w')
    ensures CopyCame(w, s, w', t)
  {
    hide Next, NextStart, NextRead, NextStop, NextWaiter, CopyCame;
    NextIsOneOfFour(w, s, w');
    if NextStart(w, s, w') { StartCame(w, s, w', t); }
    else if NextRead(w, s, w') { ReadCame(w, s, w', t); }
    else if NextStop(w, s, w') { StopCame(w, s, w', t); }
    else { WaiterCame(w, s, w', t); }
  }

  /** A Status or StreamOutputSetup that comes to its return answers, be it the job or a refusal, what the atomic
      call answers at the step at which it copied. */
  lemma ReaderAnswersAtItsCopy(ws: seq<World>, ss: seq<Step>, m: nat, t: nat) returns (c: nat)
    requires Run(ws, ss) && m < |ss| && ss[m] == ReaderReturns(t)
    ensures c < m && ss[c] == CopyJob(t) && AtQuery(ws[m + 1], t) && ws[m + 1].calls[t].pc.Done?
    ensures AnswerAt(ws, ss, c) == Some(AnswerOfOutcome(ws[m + 1].calls[t].pc.res))
  {
    hide Next;
    assert Next(ws[m], ss[m], ws[m + 1]);
    ReaderStep(ws[m], ws[m + 1], t);
    c := CopiedAt(ws, ss, m, t);
    RunArgs(ws, ss, c, t);
  }

  lemma ReaderStep(w: World, w': World, t: nat)
    requires Next(w, ReaderReturns(t), w')
    ensures CanReaderReturns(w, t) && w' == DoReaderReturns(w, t)
  {
  }

  /** A Stop that updates answers what the atomic Stop answers at that step. */
  lemma StopAnswersAtItsUpdate(ws: seq<World>, ss: seq<Step>, m: nat, t: nat, now: int, later: int)
    requires Run(ws, ss) && m < |ss| && ss[m] == StopUpdates(t, now, later)
    ensures AtQuery(ws[m + 1], t) && ws[m + 1].calls[t].pc.Returning?
    ensures AnswerAt(ws, ss, m) == Some(AnswerOfOutcome(ws[m + 1].calls[t].pc.res))
  {
    hide Next, Inv, CallInv, JobInv, StopRecord, ArgsOk, R.Apply, Applied;
    assert Next(ws[m], ss[m], ws[m + 1]);
    StepOfKind(ws[m], ss[m], ws[m + 1]);
    RunArgs(ws, ss, m, t);
    RunKeepsInv(ws, ss, m);
    InvParts(ws[m]);
    UpdateApplied(ws[m], t, now, later);
    CopyBeforeLockIsSound(ws, ss, m, t);
  }

  /** The atomic call, made of this registry, leaves it as it is and answers so. */
  predicate AnswersSo(reg: R.Registry, req: Request, a: R.Answer) {
    R.Apply(reg, CallOfRequest(req)) == (reg, a)
  }

  lemma CopyIsHeldAt(ws: seq<World>, ss: seq<Step>, c: nat, k: nat, t: nat)
    requires Run(ws, ss) && c < k < |ss| && ss[c] == CopyJob(t) && ss[k] == StopChecks(t)
    ensures CanCopyJob(ws[c], t) && CanStopChecks(ws[k], t) && ws[k + 1] == DoStopChecks(ws[k], t)
    ensures ws[k].calls[t].req == ws[c].calls[t].req && ws[k].calls[t].pc.copy == ws[c].jobs[ws[c].calls[t].req.id]
  {
    hide Next, Took;
    assert Next(ws[c], ss[c], ws[c + 1]);
    CopyStepTaken(ws[c], ws[c + 1], t);
    CopyIsKept(ws, ss, c + 1, k, t, ws[c].jobs[ws[c].calls[t].req.id]);
    SameRequest(ws, ss, c, k, t);
    assert Next(ws[k], ss[k], ws[k + 1]);
    CheckStep(ws[k], ws[k + 1], t, ws[c].jobs[ws[c].calls[t].req.id]);
  }

  lemma CopyStepTaken(w: World, w': World, t: nat)
    requires Next(w, CopyJob(t), w')
    ensures CanCopyJob(w, t) && t in w'.calls && Took(w'.calls[t], w.jobs[w.calls[t].req.id])
  {
  }

  lemma CheckStep(w: World, w': World, t: nat, copy: JobRecord)
    requires Next(w, StopChecks(t), w') && t in w.calls && Took(w.calls[t], copy)
    ensures CanStopChecks(w, t) && w' == DoStopChecks(w, t) && w.calls[t].pc.copy == copy
  {
  }

  /** A Stop that finds nothing to do under the lock answers what the atomic Stop answers at its copy step, where
      it has its place among the atomic calls, if and only if there was nothing to do there either. If there was,
      the job was Running when copied, and the answer is the atomic Stop's at no moment up to the check. */
  lemma LateStopAnswersAtItsCopy(ws: seq<World>, ss: seq<Step>, c: nat, k: nat, t: nat)
    requires Run(ws, ss) && c < k < |ss| && ss[c] == CopyJob(t) && ss[k] == StopChecks(t)
    requires AtQuery(ws[k + 1], t) && ws[k + 1].calls[t].pc.Returning?
    ensures AtQuery(ws[c], t) && ws[c].calls[t].req.id in ws[c].jobs
    ensures var req, a := ws[c].calls[t].req, AnswerOfOutcome(ws[k + 1].calls[t].pc.res);
            var copied := ws[c].jobs[req.id];
            && (AnswersSo(RegistryOf(ws[c]), req, a) <==> NothingToDo(req, copied))
            && (NothingToDo(req, copied) ==> AnswerAt(ws, ss, c) == Some(a))
            && (!NothingToDo(req, copied) ==>
                  copied.state == Running && forall m :: c <= m <= k ==> !AnswersSo(RegistryOf(ws[m]), req, a))
  {
    hide Next, ArgsOk;
    CopyIsHeldAt(ws, ss, c, k, t);
    RunArgs(ws, ss, c, t);
    RunArgs(ws, ss, k, t);
    var req := ws[c].calls[t].req;
    EndIsSet(ws, ss, c, req.id);
    TerminalAbsorbs(ws, ss, c, k, req.id);
    LateAnswer(ws[c], ws[k], t);
    forall m | c <= m <= k && !NothingToDo(req, ws[c].jobs[req.id])
      ensures !AnswersSo(RegistryOf(ws[m]), req, AnswerOfOutcome(ws[k + 1].calls[t].pc.res))
    {
      TerminalAbsorbs(ws, ss, c, m, req.id);
      NoAtomicAnswer(RegistryOf(ws[m]), req, ws[c].jobs[req.id]);
    }
  }

  /** A record that is Running is what no atomic Stop of the job answers without changing the registry. */
  lemma NoAtomicAnswer(reg: R.Registry, req: Request, copy: JobRecord)
    requires req.op == Stop && copy.state == Running
    ensures !AnswersSo(reg, req, R.TheJob(copy))
  {
    if R.Apply(reg, CallOfRequest(req)).1 == R.TheJob(copy) {
      R.StopEndsTheJob(reg, WhoOf(req), req.id, R.StopEnv(true, true, true, true, 0, 0));
    }
  }

  lemma LateAnswer(w: World, later: World, t: nat)
    requires CanCopyJob(w, t) && ArgsOk(w.calls[t]) && CanStopChecks(later, t) && ArgsOk(later.calls[t])
    requires later.calls[t].req == w.calls[t].req && later.calls[t].pc.copy == w.jobs[w.calls[t].req.id]
    requires later.jobs[w.calls[t].req.id].client == w.jobs[w.calls[t].req.id].client
    requires DoStopChecks(later, t).calls[t].pc.Returning?
    requires Terminal(w.jobs[w.calls[t].req.id].state) ==> Terminal(later.jobs[w.calls[t].req.id].state)
    requires w.jobs[w.calls[t].req.id].state != Running <==> Terminal(w.jobs[w.calls[t].req.id].state)
    ensures w.calls[t].req.op == Stop
    ensures var req, a := w.calls[t].req, AnswerOfOutcome(DoStopChecks(later, t).calls[t].pc.res);
            && (AnswersSo(RegistryOf(w), req, a) <==> NothingToDo(req, w.jobs[req.id]))
            && (NothingToDo(req, w.jobs[req.id]) ==>
                  EventsOf(w, CopyJob(t)) == [CallOfRequest(req)])
            && (!NothingToDo(req, w.jobs[req.id]) ==> a == R.TheJob(w.jobs[req.id]))
  {
    if !NothingToDo(w.calls[t].req, w.jobs[w.calls[t].req.id]) {
      NoAtomicAnswer(RegistryOf(w), w.calls[t].req, w.jobs[w.calls[t].req.id]);
    }
  }

  /** The answer of the remaining ones, which says Running, is that of the atomic Status at the copy step. */
  lemma LateStopAnswersLikeAStatus(ws: seq<World>, ss: seq<Step>, c: nat, k: nat, t: nat)
    requires Run(ws, ss) && c < k < |ss| && ss[c] == CopyJob(t) && ss[k] == StopChecks(t)
    requires AtQuery(ws[k + 1], t) && ws[k + 1].calls[t].pc.Returning?
    ensures AtQuery(ws[c], t)
    ensures var req := ws[c].calls[t].req;
            AnswersSo(RegistryOf(ws[c]), req.(op := Op.Status), AnswerOfOutcome(ws[k + 1].calls[t].pc.res))
  {
    hide Next, ArgsOk;
    CopyIsHeldAt(ws, ss, c, k, t);
    RunArgs(ws, ss, c, t);
    RunArgs(ws, ss, k, t);
    TerminalAbsorbs(ws, ss, c, k, ws[c].calls[t].req.id);
    StatusAnswer(ws[c], ws[k], t);
  }

  lemma StatusAnswer(w: World, later: World, t: nat)
    requires CanCopyJob(w, t) && ArgsOk(w.calls[t]) && CanStopChecks(later, t) && ArgsOk(later.calls[t])
    requires later.calls[t].req == w.calls[t].req && later.calls[t].pc.copy == w.jobs[w.calls[t].req.id]
    requires later.jobs[w.calls[t].req.id].client == w.jobs[w.calls[t].req.id].client
    requires DoStopChecks(later, t).calls[t].pc.Returning?
    ensures AnswersSo(RegistryOf(w), w.calls[t].req.(op := Op.Status),
                      AnswerOfOutcome(DoStopChecks(later, t).calls[t].pc.res))
  {
  }

  // ---------------------------------------------------------------- clients do not see each other

  lemma {:induction false} RequestsMade(ws: seq<World>, ss: seq<Step>, i: nat, t: nat)
    requires Run(ws, ss) && i < |ws| && AtQuery(ws[i], t)
    requires forall n :: 0 <= n < |ss| && ss[n].BeginQuery? ==> !ss[n].req.override
    ensures !ws[i].calls[t].req.override
  {
    hide Next, ArgsOk;
    assert i > 0;
    assert Next(ws[i - 1], ss[i - 1], ws[i]);
    StepArgs(ws[i - 1], ss[i - 1], ws[i], t);
    if t in ws[i - 1].calls {
      RequestsMade(ws, ss, i - 1, t);
      StepCopies(ws[i - 1], ss[i - 1], ws[i], t);
    }
  }

  lemma {:induction false} NoAdmins(ws: seq<World>, ss: seq<Step>, k: nat)
    requires Run(ws, ss) && k <= |ss|
    requires forall n :: 0 <= n < |ss| && ss[n].BeginQuery? ==> !ss[n].req.override
    ensures forall i :: 0 <= i < |Trace(ws, ss, k)| ==> !R.ByAdmin(Trace(ws, ss, k)[i])
  {
    hide Next;
    if k > 0 {
      NoAdmins(ws, ss, k - 1);
      var w := ws[k - 1];
      forall t | AtQuery(w, t) ensures !w.calls[t].req.override {
        RequestsMade(ws, ss, k - 1, t);
      }
      EventOfUser(w, ss[k - 1]);
    }
  }

  lemma EventOfUser(w: World, s: Step)
    requires forall t :: AtQuery(w, t) ==> !w.calls[t].req.override
    ensures forall i :: 0 <= i < |EventsOf(w, s)| ==> !R.ByAdmin(EventsOf(w, s)[i])
  {
  }

  /** In every run without override, however its calls interleave, the atomic calls of a client are answered as
      they would be had nobody else ever made one. */
  lemma NobodySeesTheOthers(ws: seq<World>, ss: seq<Step>, k: nat, c: Client)
    requires Run(ws, ss) && k <= |ss|
    requires forall n :: 0 <= n < |ss| && ss[n].BeginQuery? ==> !ss[n].req.override
    ensures R.AnswersTo(EMPTY, Trace(ws, ss, k), c) == R.AnswersTo(EMPTY, R.Purge(Trace(ws, ss, k), c), c)
  {
    hide Next, Trace, R.AnswersTo, R.Purge, R.FreshStarts, R.ApplyAll;
    RunIsAtomic(ws, ss, k);
    NoAdmins(ws, ss, k);
    R.NonInterference(EMPTY, Trace(ws, ss, k), c);
    assert R.Erase(EMPTY, c) == EMPTY;
  }
}
