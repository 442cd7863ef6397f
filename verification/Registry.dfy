/** The registry of jobs with calls taken as atomic steps: what each call answers and what it does to
    the two maps, as a function of the registry, the caller and the environment. The class JobsLib is
    proved against these functions. */
module Registry {
  import opened Base
  import opened JobModel

  datatype Registry = Registry(jobs: map<JobId, JobRecord>, index: map<Client, seq<JobId>>)

  datatype Role = Unauthorized | User | Admin

  datatype Caller = Caller(name: Client, role: Role)

  // The RPC layer lets administrators past the ownership check.
  predicate Overrides(c: Caller) { c.role == Admin }

  // What happens around a Stop: whether its context is live, the client directory is there, the kill and
  // the removal succeed, and the two clock readings of the update.
  datatype StopEnv = StopEnv(ctxOk: bool, clientDirOk: bool, killOk: bool, removeOk: bool, now: int, later: int)

  datatype Event =
    | Start(who: Caller, job: JobRecord, envOk: bool)
    | Status(who: Caller, id: JobId, ctxOk: bool)
    | StreamSetup(who: Caller, id: JobId, ctxOk: bool)
    | Stop(who: Caller, id: JobId, env: StopEnv)
    | Finish(id: JobId, status: WaitResult, rmErr: bool, now: int)

  datatype Answer = StartedAs(id: JobId) | TheJob(job: JobRecord) | Refused

  // ---------------------------------------------------------------- the calls

  /** The record a call may work on: past the sanity check, found, and the caller's or overridden. */
  function Accessible(reg: Registry, who: Caller, id: JobId, ctxOk: bool): Option<JobRecord> {
    if !ctxOk || (!Overrides(who) && who.name == "") || id == "" || id !in reg.jobs then None
    else if reg.jobs[id].client != who.name && !Overrides(who) then None
    else Some(reg.jobs[id])
  }

  function AnswerOf(r: Option<JobRecord>): Answer {
    match r
    case None => Refused
    case Some(job) => TheJob(job)
  }

  predicate StartAccepted(who: Caller, job: JobRecord, envOk: bool) {
    envOk && who.name != "" && job.command != "" && job.client == who.name && IsBirth(job)
  }

  function AfterStart(reg: Registry, job: JobRecord): Registry {
    Registry(reg.jobs[job.id := job], AddToIndex(reg.index, job.client, job.id))
  }

  function AfterStop(reg: Registry, who: Caller, id: JobId, env: StopEnv): (Registry, Answer) {
    match Accessible(reg, who, id, env.ctxOk)
    case None => (reg, Refused)
    case Some(job) =>
      if who.name == "" || !env.clientDirOk then (reg, Refused)
      else if Terminal(job.state) then (reg, TheJob(job))
      else if !env.killOk || !env.removeOk then (reg, Refused)
      else (reg.(jobs := reg.jobs[id := StopRecord(job, env.now)]), TheJob(StopRecord(job, env.later)))
  }

  function AfterFinish(reg: Registry, id: JobId, status: WaitResult, rmErr: bool, now: int): Registry {
    if id in reg.jobs then reg.(jobs := reg.jobs[id := FinishRecord(reg.jobs[id], status, rmErr, now)]) else reg
  }

  function Apply(reg: Registry, e: Event): (Registry, Answer) {
    match e
    case Start(who, job, envOk) =>
      if StartAccepted(who, job, envOk) then (AfterStart(reg, job), StartedAs(job.id)) else (reg, Refused)
    case Status(who, id, ctxOk) => (reg, AnswerOf(Accessible(reg, who, id, ctxOk)))
    case StreamSetup(who, id, ctxOk) => (reg, AnswerOf(Accessible(reg, who, id, ctxOk)))
    case Stop(who, id, env) => AfterStop(reg, who, id, env)
    case Finish(id, status, rmErr, now) => (AfterFinish(reg, id, status, rmErr, now), Refused)
  }

  function ApplyAll(reg: Registry, es: seq<Event>): Registry
    decreases es
  {
    if es == [] then reg else ApplyAll(Apply(reg, es[0]).0, es[1..])
  }

  /** A Start adds a job, last in its owner's list, and answers with its ID, if and only if everything around it
      worked, the caller's name and the command are not empty, and the record is that of a job of the caller's that
      has just begun; otherwise it changes nothing and refuses. */
  lemma StartAddsExactly(reg: Registry, who: Caller, job: JobRecord, envOk: bool)
    requires job.id !in reg.jobs
    ensures var (reg', a) := Apply(reg, Start(who, job, envOk));
            var good := && envOk && who.name != "" && job.command != "" && job.client == who.name
                        && job.state == Running && job.mesg == [] && job.exitCode == 0 && job.signalStr == ""
                        && job.started > 0 && job.ended == 0;
            && (job.id in reg'.jobs <==> good)
            && (good ==>
                  && a == StartedAs(job.id) && reg'.jobs == reg.jobs[job.id := job]
                  && who.name in reg'.index && reg'.index.Keys == reg.index.Keys + {who.name}
                  && reg'.index[who.name] == (if who.name in reg.index then reg.index[who.name] else []) + [job.id]
                  && forall c :: c in reg.index && c != who.name ==> reg'.index[c] == reg.index[c])
            && (!good ==> (reg', a) == (reg, Refused))
  {
  }

  // ---------------------------------------------------------------- one client's view

  predicate IsCallOf(e: Event, c: Client) { !e.Finish? && e.who.name == c }

  predicate ByAdmin(e: Event) { !e.Finish? && Overrides(e.who) }

  /** The answers a client gets over a sequence of calls by everybody. */
  function AnswersTo(reg: Registry, es: seq<Event>, c: Client): seq<Answer>
    decreases es
  {
    if es == [] then []
    else
      var (reg', a) := Apply(reg, es[0]);
      (if IsCallOf(es[0], c) then [a] else []) + AnswersTo(reg', es[1..], c)
  }

  /** The registry without the jobs of anybody else. */
  function Erase(reg: Registry, c: Client): Registry {
    Registry(map j | j in reg.jobs && reg.jobs[j].client == c :: reg.jobs[j],
             if c in reg.index then map[c := reg.index[c]] else map[])
  }

  /** The same sequence without the calls of anybody else. */
  function Purge(es: seq<Event>, c: Client): seq<Event> {
    if es == [] then []
    else (if es[0].Finish? || IsCallOf(es[0], c) then [es[0]] else []) + Purge(es[1..], c)
  }

  /** IDs given to new jobs are not in use. */
  ghost predicate FreshStarts(reg: Registry, es: seq<Event>)
    decreases es
  {
    es != [] ==>
      && (es[0].Start? ==> es[0].job.id !in reg.jobs)
      && FreshStarts(Apply(reg, es[0]).0, es[1..])
  }

  lemma EraseStart(reg: Registry, job: JobRecord, c: Client)
    ensures job.client == c ==> Erase(AfterStart(reg, job), c) == AfterStart(Erase(reg, c), job)
    ensures job.client != c && job.id !in reg.jobs ==> Erase(AfterStart(reg, job), c) == Erase(reg, c)
  {
  }

  lemma EraseRewrite(reg: Registry, r: JobRecord, id: JobId, c: Client)
    requires id in reg.jobs && r.client == reg.jobs[id].client
    ensures var reg' := reg.(jobs := reg.jobs[id := r]);
            Erase(reg', c) == if r.client == c then Erase(reg, c).(jobs := Erase(reg, c).jobs[id := r])
                              else Erase(reg, c)
  {
  }

  lemma OwnStop(reg: Registry, who: Caller, id: JobId, env: StopEnv)
    requires !Overrides(who)
    ensures Erase(AfterStop(reg, who, id, env).0, who.name) == AfterStop(Erase(reg, who.name), who, id, env).0
    ensures AfterStop(reg, who, id, env).1 == AfterStop(Erase(reg, who.name), who, id, env).1
  {
    if id in reg.jobs {
      EraseRewrite(reg, StopRecord(reg.jobs[id], env.now), id, who.name);
    }
  }

  /** The caller's own calls, and the completions of jobs, act on the erased registry as on the whole one. */
  lemma OwnStep(reg: Registry, e: Event, c: Client)
    requires e.Finish? || (IsCallOf(e, c) && !ByAdmin(e))
    ensures Erase(Apply(reg, e).0, c) == Apply(Erase(reg, c), e).0
    ensures IsCallOf(e, c) ==> Apply(reg, e).1 == Apply(Erase(reg, c), e).1
  {
    hide AfterStop, AfterStart, IsBirth;
    match e
    case Start(_, job, _) => EraseStart(reg, job, c);
    case Stop(who, id, env) => OwnStop(reg, who, id, env);
    case Finish(id, status, rmErr, now) =>
      if id in reg.jobs { EraseRewrite(reg, FinishRecord(reg.jobs[id], status, rmErr, now), id, c); }
    case _ =>
  }

  /** The calls of others leave no trace in the erased registry. */
  lemma OthersStep(reg: Registry, e: Event, c: Client)
    requires !e.Finish? && !IsCallOf(e, c) && !ByAdmin(e)
    requires e.Start? ==> e.job.id !in reg.jobs
    ensures Erase(Apply(reg, e).0, c) == Erase(reg, c)
  {
    match e
    case Start(_, job, _) => EraseStart(reg, job, c);
    case Stop(_, id, env) => if id in reg.jobs { EraseRewrite(reg, StopRecord(reg.jobs[id], env.now), id, c); }
    case _ =>
  }

  /** Without administrators, what a client is answered over any sequence of calls by anybody is what it
      would be answered had the others never had a job and never made a call. */
  lemma {:induction false} NonInterference(reg: Registry, es: seq<Event>, c: Client)
    requires FreshStarts(reg, es)
    requires forall i :: 0 <= i < |es| ==> !ByAdmin(es[i])
    ensures AnswersTo(reg, es, c) == AnswersTo(Erase(reg, c), Purge(es, c), c)
    decreases es
  {
    if es != [] {
      var e, rest := es[0], es[1..];
      NonInterference(Apply(reg, e).0, rest, c);
      if e.Finish? || IsCallOf(e, c) {
        OwnStep(reg, e, c);
        assert Purge(es, c)[0] == e && Purge(es, c)[1..] == Purge(rest, c);
      } else {
        OthersStep(reg, e, c);
        assert Purge(es, c) == Purge(rest, c);
      }
    }
  }

  // ---------------------------------------------------------------- single calls

  /** Without override a call only ever answers with, and only ever changes, the caller's own job. */
  lemma OnlyOwnJobs(reg: Registry, e: Event)
    requires !e.Finish? && !ByAdmin(e)
    requires e.Start? ==> e.job.id !in reg.jobs
    ensures Apply(reg, e).1.TheJob? ==> Apply(reg, e).1.job.client == e.who.name
    ensures forall j :: j in reg.jobs && reg.jobs[j].client != e.who.name ==>
              j in Apply(reg, e).0.jobs && Apply(reg, e).0.jobs[j] == reg.jobs[j]
  {
  }

  // AfterStop in one conditional, for the methods that are proved against it.
  lemma StopByCases(reg: Registry, who: Caller, id: JobId, env: StopEnv)
    ensures var may := Accessible(reg, who, id, env.ctxOk).Some? && who.name != "" && env.clientDirOk;
            && (may ==> id in reg.jobs)
            && Apply(reg, Stop(who, id, env)) ==
               if may && Terminal(reg.jobs[id].state) then (reg, TheJob(reg.jobs[id]))
               else if may && env.killOk && env.removeOk then
                 (reg.(jobs := reg.jobs[id := StopRecord(reg.jobs[id], env.now)]),
                  TheJob(StopRecord(reg.jobs[id], env.later)))
               else (reg, Refused)
  {
  }

  /** The job may be asked about by this caller: it exists, and is the caller's own unless that is an administrator. */
  predicate MayAsk(reg: Registry, who: Caller, id: JobId) {
    && id != "" && id in reg.jobs
    && (who.role == Admin || (who.name != "" && reg.jobs[id].client == who.name))
  }

  /** Which queries are refused: exactly those whose context is done, or about a job that may not be asked about. All
      others are answered with the job. */
  lemma QueriesRefusedExactly(reg: Registry, who: Caller, id: JobId, ctxOk: bool)
    ensures Apply(reg, Status(who, id, ctxOk)) == Apply(reg, StreamSetup(who, id, ctxOk))
    ensures Apply(reg, Status(who, id, ctxOk)).0 == reg
    ensures Apply(reg, Status(who, id, ctxOk)).1 == Refused <==> !ctxOk || !MayAsk(reg, who, id)
    ensures ctxOk && MayAsk(reg, who, id) ==> Apply(reg, Status(who, id, ctxOk)).1 == TheJob(reg.jobs[id])
  {
  }

  /** Which Stops are refused: those a query would be, those without a name or a client directory, and those of a job
      still running whose kill or removal fails. Of a job that has ended the others answer with the record; a running
      one they end, with the time, exit code, signal and note of a Stop. */
  lemma StopsRefusedExactly(reg: Registry, who: Caller, id: JobId, env: StopEnv)
    ensures var (reg', a) := Apply(reg, Stop(who, id, env));
            var ended := id in reg.jobs && reg.jobs[id].state in {TerminatedByAPI, Completed};
            && (a == Refused <==>
                  || !env.ctxOk || !MayAsk(reg, who, id) || who.name == "" || !env.clientDirOk
                  || (!ended && (!env.killOk || !env.removeOk)))
            && (a == Refused || ended ==> reg' == reg)
            && (a != Refused && ended ==> a == TheJob(reg.jobs[id]))
            && (a != Refused && !ended ==>
                  && id in reg.jobs && a.TheJob? && a.job.ended == env.later
                  && reg' == reg.(jobs := reg.jobs[id := a.job.(ended := env.now)])
                  && a.job.state == TerminatedByAPI && a.job.exitCode == -1 && a.job.signalStr == "SIGKILL"
                  && a.job.mesg == reg.jobs[id].mesg + [StopRequested]
                  && a.job.(ended := 0, state := Running, exitCode := 0, signalStr := "", mesg := [])
                     == reg.jobs[id].(ended := 0, state := Running, exitCode := 0, signalStr := "", mesg := []))
  {
  }

  /** A completion writes into its job what it writes into a record, and changes nothing else. */
  lemma CompletionOnlyItsJob(reg: Registry, id: JobId, x: WaitResult, rmErr: bool, now: int)
    ensures var reg' := Apply(reg, Finish(id, x, rmErr, now)).0;
            && reg'.index == reg.index && reg'.jobs.Keys == reg.jobs.Keys
            && (forall j :: j in reg.jobs && j != id ==> reg'.jobs[j] == reg.jobs[j])
            && (id in reg.jobs ==> reg'.jobs[id] == FinishRecord(reg.jobs[id], x, rmErr, now))
  {
  }

  /** A Stop that answers leaves the job ended, answers with what it then says up to the reading of the clock,
      and touches no other job; one that refuses touches none. */
  lemma StopEndsTheJob(reg: Registry, who: Caller, id: JobId, env: StopEnv)
    ensures var (reg', a) := Apply(reg, Stop(who, id, env));
            && reg'.index == reg.index && reg'.jobs.Keys == reg.jobs.Keys
            && (forall j :: j in reg.jobs && (j != id || !a.TheJob?) ==> reg'.jobs[j] == reg.jobs[j])
            && (a.TheJob? ==> id in reg'.jobs && Terminal(reg'.jobs[id].state)
                              && a.job == reg'.jobs[id].(ended := a.job.ended))
  {
  }

  // ---------------------------------------------------------------- the check of the arguments

  predicate Sane(who: Caller, id: JobId, ctxOk: bool) { (Overrides(who) || who.name != "") && id != "" && ctxOk }

  /** The check of a call's arguments turns away exactly the calls that no registry could answer. */
  lemma SanityIsExact(who: Caller, id: JobId, ctxOk: bool, any: JobRecord)
    ensures Sane(who, id, ctxOk) <==> exists reg :: Apply(reg, Status(who, id, ctxOk)).1.TheJob?
  {
    if Sane(who, id, ctxOk) {
      var reg := Registry(map[id := any.(client := who.name)], map[]);
      assert Apply(reg, Status(who, id, ctxOk)).1.TheJob?;
    }
  }

  // ---------------------------------------------------------------- two Stops of one job

  /** Job id is completed by its goroutine somewhere in es. */
  ghost predicate Finishes(es: seq<Event>, id: JobId) { exists i :: 0 <= i < |es| && es[i].Finish? && es[i].id == id }

  /** What any sequence of events leaves of a job that a Stop has ended. */
  predicate StillStopped(now: JobRecord, before: JobRecord, finished: bool) {
    && now.state == before.state == TerminatedByAPI && now.ended == before.ended && now.client == before.client
    && (if finished then before.mesg < now.mesg else now == before)
  }

  lemma {:induction false} StoppedStays(reg: Registry, es: seq<Event>, id: JobId)
    requires id in reg.jobs && reg.jobs[id].state == TerminatedByAPI && FreshStarts(reg, es)
    ensures id in ApplyAll(reg, es).jobs
    ensures StillStopped(ApplyAll(reg, es).jobs[id], reg.jobs[id], Finishes(es, id))
    decreases es
  {
    if es != [] {
      var e, rest := es[0], es[1..];
      var reg' := Apply(reg, e).0;
      OneEventOn(reg, e, id);
      StoppedStays(reg', rest, id);
      assert Finishes(es, id) <==> (e.Finish? && e.id == id) || Finishes(rest, id) by {
        if i :| 0 <= i < |es| && es[i].Finish? && es[i].id == id && i > 0 { assert rest[i - 1] == es[i]; }
        if i :| 0 <= i < |rest| && rest[i].Finish? && rest[i].id == id { assert es[i + 1] == rest[i]; }
      }
    }
  }

  lemma OneEventOn(reg: Registry, e: Event, id: JobId)
    requires id in reg.jobs && reg.jobs[id].state == TerminatedByAPI && (e.Start? ==> e.job.id !in reg.jobs)
    ensures id in Apply(reg, e).0.jobs
    ensures StillStopped(Apply(reg, e).0.jobs[id], reg.jobs[id], e.Finish? && e.id == id)
  {
  }

  /** Stop is idempotent, whatever happens between two Stops of a job that had not completed by itself. The
      second changes nothing; it answers with a job ended by the API at the time recorded before; and that is
      the first answer, up to the reading of the clock, if and only if the goroutine's completion did not
      come in between. */
  lemma StopIsIdempotent(reg: Registry, who: Caller, id: JobId, env: StopEnv, es: seq<Event>, env2: StopEnv)
    requires var (reg', first) := AfterStop(reg, who, id, env);
             first.TheJob? && reg.jobs[id].state != Completed && FreshStarts(reg', es)
    requires env2.ctxOk && env2.clientDirOk
    ensures var (reg', first) := AfterStop(reg, who, id, env);
            var between := ApplyAll(reg', es);
            var (reg'', second) := AfterStop(between, who, id, env2);
            && reg'' == between && second.TheJob? && id in between.jobs && second.job == between.jobs[id]
            && second.job.state == TerminatedByAPI && second.job.ended == reg'.jobs[id].ended
            && (second.job == first.job.(ended := second.job.ended) <==> !Finishes(es, id))
  {
    hide ApplyAll, FreshStarts, Finishes, StopRecord;
    StopByCases(reg, who, id, env);
    StoppedByFirst(reg.jobs[id], env.now, env.later);
    StoppedStays(AfterStop(reg, who, id, env).0, es, id);
  }

  lemma StoppedByFirst(r: JobRecord, now: int, later: int)
    ensures StopRecord(r, now).state == TerminatedByAPI && StopRecord(r, now).client == r.client
    ensures StopRecord(r, later) == StopRecord(r, now).(ended := later) && StopRecord(r, now).ended == now
  {
  }

  /** Of a job that had ended before the first of two Stops, and is not completed after it, both give the same
      answer. A job that is Completed always is such a one, since its goroutine is done. */
  lemma StopsOfAnEndedJob(reg: Registry, who: Caller, id: JobId, env: StopEnv, es: seq<Event>, env2: StopEnv)
    requires AfterStop(reg, who, id, env).1.TheJob? && Terminal(reg.jobs[id].state)
    requires FreshStarts(reg, es) && !Finishes(es, id) && env2.ctxOk && env2.clientDirOk
    ensures var between := ApplyAll(AfterStop(reg, who, id, env).0, es);
            AfterStop(between, who, id, env2) == (between, AfterStop(reg, who, id, env).1)
  {
    hide ApplyAll, FreshStarts, Finishes;
    EndedStays(reg, es, id);
  }

  lemma {:induction false} EndedStays(reg: Registry, es: seq<Event>, id: JobId)
    requires id in reg.jobs && Terminal(reg.jobs[id].state) && FreshStarts(reg, es) && !Finishes(es, id)
    ensures id in ApplyAll(reg, es).jobs && ApplyAll(reg, es).jobs[id] == reg.jobs[id]
    decreases es
  {
    if es != [] {
      assert !(es[0].Finish? && es[0].id == id);
      forall i | 0 <= i < |es[1..]| ensures !(es[1..][i].Finish? && es[1..][i].id == id) {
        assert es[1..][i] == es[i + 1];
      }
      EndedStays(Apply(reg, es[0]).0, es[1..], id);
    }
  }

  /** Every call keeps the two maps in agreement. */
  lemma {:induction false} CallsKeepAgreement(reg: Registry, es: seq<Event>)
    requires IndexAgrees(reg.jobs, reg.index) && FreshStarts(reg, es)
    ensures IndexAgrees(ApplyAll(reg, es).jobs, ApplyAll(reg, es).index)
    decreases es
  {
    if es != [] {
      CallKeepsAgreement(reg, es[0]);
      CallsKeepAgreement(Apply(reg, es[0]).0, es[1..]);
    }
  }

  lemma CallKeepsAgreement(reg: Registry, e: Event)
    requires IndexAgrees(reg.jobs, reg.index) && (e.Start? ==> e.job.id !in reg.jobs)
    ensures IndexAgrees(Apply(reg, e).0.jobs, Apply(reg, e).0.index)
  {
    match e
    case Start(_, job, _) => RegisterKeepsIndex(reg.jobs, reg.index, job);
    case Stop(_, id, env) => if id in reg.jobs { RewriteKeepsIndex(reg.jobs, reg.index, StopRecord(reg.jobs[id], env.now)); }
    case Finish(id, status, rmErr, now) =>
      if id in reg.jobs { RewriteKeepsIndex(reg.jobs, reg.index, FinishRecord(reg.jobs[id], status, rmErr, now)); }
    case _ =>
  }
}
