/** The job library as objects: the map of jobs, the per-client lists, and jobs whose argument list is
    an array that can be shared. Each method is proved against the functions of Registry. */
module JobsLib {
  import opened Base
  import opened JobModel
  import opened Registry

  class Job {
    var ID: JobId
    var Mesg: seq<Note>
    var ClientName: Client
    var PID: int
    var State: JobState
    var ExitCode: int
    var SignalStr: string
    var Command: string
    var CmdArgs: array<string>
    var OutputFilePath: string
    var StartedUnixMilli: int
    var EndedUnixMilli: int

    constructor (r: JobRecord, cmdArgs: array<string>)
      ensures CmdArgs == cmdArgs && Record() == r.(cmdArgs := cmdArgs[..])
    {
      ID, Mesg, ClientName, PID, State := r.id, r.mesg, r.client, r.pid, r.state;
      ExitCode, SignalStr, Command, CmdArgs := r.exitCode, r.signalStr, r.command, cmdArgs;
      OutputFilePath, StartedUnixMilli, EndedUnixMilli := r.outputFile, r.started, r.ended;
    }

    /** The value of the job. */
    ghost function Record(): JobRecord
      reads this, CmdArgs
    {
      JobRecord(ID, Mesg, ClientName, PID, State, ExitCode, SignalStr, Command, CmdArgs[..],
                OutputFilePath, StartedUnixMilli, EndedUnixMilli)
    }

    /** The completion goroutine's writes, made under the write lock. */
    method Complete(w: WaitResult, rmErr: bool, now: int)
      modifies this
      ensures CmdArgs == old(CmdArgs)
      ensures Record() == FinishRecord(old(Record()), w, rmErr, now)
    {
      ExitCode := ExitCodeOf(w);
      SignalStr := SignalOf(w);
      Mesg := Mesg + ExitNotes(w, rmErr);
      if State != TerminatedByAPI {
        State := Completed;
        EndedUnixMilli := now;
      }
    }

    /** Stop's writes, made to the job and to the copy. */
    method MarkStopped(now: int)
      modifies this
      ensures CmdArgs == old(CmdArgs)
      ensures Record() == StopRecord(old(Record()), now)
    {
      State := TerminatedByAPI;
      EndedUnixMilli := now;
      Mesg := Mesg + [StopRequested];
      ExitCode := -1;
      SignalStr := "SIGKILL";
    }
  }

  class JobsLib {
    var jobs: map<JobId, Job>
    var clientToJobID: map<Client, seq<JobId>>

    constructor ()
      ensures Valid() && Model() == Registry(map[], map[])
    {
      jobs := map[];
      clientToJobID := map[];
    }

    /** The job objects and their argument arrays. */
    ghost function Footprint(): set<object>
      reads this, jobs.Values
    {
      jobs.Values + set j | j in jobs.Values :: j.CmdArgs
    }

    ghost function Model(): Registry
      reads this, jobs.Values, set j | j in jobs.Values :: j.CmdArgs
    {
      Registry(map id | id in jobs :: jobs[id].Record(), clientToJobID)
    }

    ghost predicate Valid()
      reads this, jobs.Values, set j | j in jobs.Values :: j.CmdArgs
    {
      IndexAgrees(Model().jobs, Model().index)
    }

    /** The value of one job in the model. */
    lemma ModelAt(id: JobId)
      ensures id in Model().jobs <==> id in jobs
      ensures id in jobs ==> Model().jobs[id] == jobs[id].Record()
    {
    }

    method FindJobByJobID(ctxOk: bool, jobID: JobId) returns (job: Job?)
      ensures job != null <==> ctxOk && jobID != "" && jobID in jobs
      ensures job != null ==> job == jobs[jobID]
    {
      if jobID == "" || !ctxOk || jobID !in jobs {
        return null;
      }
      job := jobs[jobID];
    }

    /** A copy that shares nothing mutable with the job. */
    method DeepCopyJobFromPointer(ctxOk: bool, pJob: Job?) returns (copy: Job?)
      ensures copy != null <==> pJob != null && ctxOk
      ensures copy != null ==> fresh(copy) && fresh(copy.CmdArgs) && copy.Record() == pJob.Record()
    {
      if pJob == null || !ctxOk {
        return null;
      }
      var n := pJob.CmdArgs.Length;
      var cCmdArgs := new string[n](_ => "");
      for i := 0 to n
        invariant cCmdArgs[..i] == pJob.CmdArgs[..i]
      {
        cCmdArgs[i] := pJob.CmdArgs[i];
      }
      assert cCmdArgs[..n] == cCmdArgs[..] && pJob.CmdArgs[..n] == pJob.CmdArgs[..];
      var r := JobRecord(pJob.ID, pJob.Mesg, pJob.ClientName, pJob.PID, pJob.State, pJob.ExitCode, pJob.SignalStr,
                         pJob.Command, [], pJob.OutputFilePath, pJob.StartedUnixMilli, pJob.EndedUnixMilli);
      copy := new Job(r, cCmdArgs);
    }

    /** Both maps are written under the write lock. */
    method Register(jobID: JobId, job: Job)
      requires Valid() && jobID !in jobs && job.ID == jobID
      modifies this
      ensures jobs == old(jobs)[jobID := job]
      ensures Model() == AfterStart(old(Model()), job.Record())
      ensures Valid()
    {
      hide IndexAgrees, AddToIndex;
      ghost var before := Model();
      jobs := jobs[jobID := job];
      clientToJobID := AddToIndex(clientToJobID, job.ClientName, jobID);
      assert Model() == AfterStart(before, job.Record());
      RegisterKeepsIndex(before.jobs, before.index, job.Record());
    }

    /** Start, once the process is running under the ID generated for it: checks and registration. The
        caller's argument array is kept, not copied. */
    method Start(who: Caller, envOk: bool, jobID: JobId, command: string, cmdArgs: array<string>, pid: int,
                 outputFile: string, started: int)
      returns (r: Result<JobId>)
      requires Valid() && jobID !in jobs && started > 0
      modifies this
      ensures var job := JobRecord(jobID, [], who.name, pid, Running, 0, "", command, cmdArgs[..], outputFile, started, 0);
              var (reg, answer) := Apply(old(Model()), Event.Start(who, job, envOk));
              Model() == reg && (r == (if answer.StartedAs? then Ok(jobID) else Err))
      ensures Valid()
      ensures r.Ok? <==> envOk && who.name != "" && command != ""
      ensures r.Ok? ==> r.value == jobID && jobID in jobs && fresh(jobs[jobID]) && jobs[jobID].CmdArgs == cmdArgs
      ensures r.Err? ==> jobs == old(jobs) && clientToJobID == old(clientToJobID)
    {
      hide IndexAgrees, AfterStart;
      if who.name == "" || command == "" || !envOk {
        return Err;
      }
      var record := JobRecord(jobID, [], who.name, pid, Running, 0, "", command, [], outputFile, started, 0);
      var job := new Job(record, cmdArgs);
      Register(jobID, job);
      r := Ok(jobID);
    }

    /** The completion goroutine's locked update. */
    method CompleteJob(jobID: JobId, w: WaitResult, rmErr: bool, now: int)
      requires Valid() && jobID in jobs
      modifies jobs[jobID]
      ensures Model() == Apply(old(Model()), Finish(jobID, w, rmErr, now)).0
      ensures Valid()
    {
      ghost var before := Model();
      OwnIds();
      jobs[jobID].Complete(w, rmErr, now);
      assert Model() == AfterFinish(before, jobID, w, rmErr, now);
      CallKeepsAgreement(before, Finish(jobID, w, rmErr, now));
    }

    /** Different IDs are different objects. */
    lemma OwnIds()
      requires Valid()
      ensures forall i, j :: i in jobs && j in jobs && i != j ==> jobs[i] != jobs[j]
    {
      forall i | i in jobs ensures jobs[i].ID == i {
        assert Model().jobs[i].id == i;
      }
    }

    method CommonSanity(who: Caller, jobID: JobId, ctxOk: bool) returns (ok: bool)
      ensures ok == Sane(who, jobID, ctxOk)
    {
      if !Overrides(who) && who.name == "" {
        return false;
      }
      if jobID == "" {
        return false;
      }
      ok := ctxOk;
    }

    method Status(who: Caller, jobID: JobId, ctxOk: bool) returns (copy: Job?)
      requires Valid()
      ensures match Apply(Model(), Event.Status(who, jobID, ctxOk)).1
              case TheJob(job) => copy != null && fresh(copy) && fresh(copy.CmdArgs) && copy.Record() == job
              case _ => copy == null
    {
      var sane := CommonSanity(who, jobID, ctxOk);
      if !sane {
        return null;
      }
      var job := FindJobByJobID(ctxOk, jobID);
      copy := DeepCopyJobFromPointer(ctxOk, job);
      if copy != null && copy.ClientName != who.name && !Overrides(who) {
        copy := null;
      }
    }

    method StreamOutputSetup(who: Caller, jobID: JobId, ctxOk: bool) returns (copy: Job?)
      requires Valid()
      ensures match Apply(Model(), StreamSetup(who, jobID, ctxOk)).1
              case TheJob(job) => copy != null && fresh(copy) && fresh(copy.CmdArgs) && copy.Record() == job
              case _ => copy == null
    {
      var sane := CommonSanity(who, jobID, ctxOk);
      if !sane {
        return null;
      }
      var job := FindJobByJobID(ctxOk, jobID);
      copy := DeepCopyJobFromPointer(ctxOk, job);
      if copy != null && copy.ClientName != who.name && !Overrides(who) {
        copy := null;
      }
    }

    /** Poll until signal 0 no longer finds the process. The list says for each probe whether it still finds it;
        if they all do, the call is still polling when the list ends. */
    method WaitUntilGone(alive: seq<bool>) returns (gone: bool, probes: nat)
      ensures gone <==> false in alive
      ensures gone ==> probes < |alive| && !alive[probes]
      ensures !gone ==> probes == |alive|
      ensures forall k :: 0 <= k < probes ==> alive[k]
    {
      probes := 0;
      while probes < |alive|
        invariant probes <= |alive| && forall k :: 0 <= k < probes ==> alive[k]
      {
        if !alive[probes] {
          return true, probes;
        }
        probes := probes + 1;
      }
      gone := false;
    }

    /** The update of the live job and of the copy. */
    method RecordStop(jobID: JobId, copy: Job, now: int, later: int)
      requires Valid() && jobID in jobs && copy !in jobs.Values
      modifies jobs[jobID], copy
      ensures Model() == old(Model()).(jobs := old(Model()).jobs[jobID := StopRecord(old(Model()).jobs[jobID], now)])
      ensures copy.CmdArgs == old(copy.CmdArgs) && copy.Record() == StopRecord(old(copy.Record()), later)
      ensures forall j :: j in jobs.Values ==> j.CmdArgs == old(j.CmdArgs)
      ensures Valid()
    {
      ghost var before := Model();
      OwnIds();
      jobs[jobID].MarkStopped(now);
      copy.MarkStopped(later);
      assert Model() == before.(jobs := before.jobs[jobID := StopRecord(before.jobs[jobID], now)]);
      RewriteKeepsIndex(before.jobs, before.index, StopRecord(before.jobs[jobID], now));
    }

    /** The checks of Stop: a copy of the job it may work on, and whether there is anything to do. */
    method StopTarget(who: Caller, jobID: JobId, env: StopEnv) returns (copy: Job?, running: bool)
      requires Valid()
      ensures copy != null <==> Accessible(Model(), who, jobID, env.ctxOk).Some? && who.name != "" && env.clientDirOk
      ensures copy != null ==> fresh(copy) && fresh(copy.CmdArgs) && copy.Record() == Model().jobs[jobID]
      ensures copy != null ==> (running <==> !Terminal(Model().jobs[jobID].state))
      ensures Valid() && Model() == old(Model())
    {
      hide Valid, Model;
      ModelAt(jobID);
      var sane := CommonSanity(who, jobID, env.ctxOk);
      if !sane || who.name == "" || !env.clientDirOk {
        return null, false;
      }
      var theJob := FindJobByJobID(env.ctxOk, jobID);
      copy := DeepCopyJobFromPointer(env.ctxOk, theJob);
      if copy == null || (theJob.ClientName != who.name && !Overrides(who)) {
        return null, false;
      }
      running := !(theJob.State == TerminatedByAPI || theJob.State == Completed);
    }

    /** Stop, taken without interleaving. Unless it is still polling it does and answers what is specified. */
    method Stop(who: Caller, jobID: JobId, env: StopEnv, alive: seq<bool>) returns (copy: Job?, polling: bool)
      requires Valid()
      modifies jobs.Values
      ensures jobs == old(jobs) && clientToJobID == old(clientToJobID)
      ensures forall j :: j in jobs.Values ==> j.CmdArgs == old(j.CmdArgs)
      ensures polling <==> Accessible(old(Model()), who, jobID, env.ctxOk).Some? && who.name != "" && env.clientDirOk
                           && !Terminal(old(Model()).jobs[jobID].state) && env.killOk && false !in alive
      ensures polling ==> copy == null && Model() == old(Model())
      ensures !polling ==> Model() == Apply(old(Model()), Event.Stop(who, jobID, env)).0
      ensures !polling ==>
              match Apply(old(Model()), Event.Stop(who, jobID, env)).1
              case TheJob(job) => copy != null && fresh(copy) && fresh(copy.CmdArgs) && copy.Record() == job
              case _ => copy == null
      ensures Valid()
    {
      hide Valid, StopRecord, Terminal, Accessible, Apply;
      StopByCases(Model(), who, jobID, env);
      polling := false;
      var running;
      copy, running := StopTarget(who, jobID, env);
      if copy == null || !running {
        return;
      }
      if !env.killOk {
        return null, false;
      }
      var gone, probes := WaitUntilGone(alive);
      if !gone {
        return null, true;
      }
      if !env.removeOk {
        return null, false;
      }
      RecordStop(jobID, copy, env.now, env.later);
    }
  }

  /** Whatever a caller writes into the argument lists of jobs it was given changes neither the registry
      nor, by the modifies clause, any job that was not written to. Write (c, k, s) stores s at place k of copy c. */
  method TamperWithCopies(lib: JobsLib, copies: seq<Job>, writes: seq<(nat, nat, string)>)
    requires lib.Valid()
    requires forall c :: 0 <= c < |copies| ==> copies[c].CmdArgs !in lib.Footprint()
    requires forall i :: 0 <= i < |writes| ==>
               writes[i].0 < |copies| && writes[i].1 < copies[writes[i].0].CmdArgs.Length
    modifies set c | 0 <= c < |copies| :: copies[c].CmdArgs
    ensures lib.Valid() && lib.Model() == old(lib.Model())
  {
    for i := 0 to |writes|
      invariant lib.Valid() && lib.Model() == old(lib.Model())
    {
      copies[writes[i].0].CmdArgs[writes[i].1] := writes[i].2;
    }
  }

  /** A caller that is answered, tampers with the answer, and asks again is answered the same. */
  method AskTamperAsk(lib: JobsLib, who: Caller, id: JobId, writes: seq<(nat, string)>)
    returns (first: Job?, second: Job?)
    requires lib.Valid()
    ensures lib.Valid() && lib.Model() == old(lib.Model())
    ensures first == null <==> second == null
    ensures second != null ==> second.CmdArgs != first.CmdArgs && id in lib.jobs && second.Record() == lib.jobs[id].Record()
  {
    hide JobsLib.Valid, JobsLib.Model;
    lib.ModelAt(id);
    first := lib.Status(who, id, true);
    if first != null {
      var args := first.CmdArgs;
      for i := 0 to |writes|
        invariant first.CmdArgs == args && fresh(args)
      {
        if writes[i].0 < args.Length {
          args[writes[i].0] := writes[i].1;
        }
      }
    }
    second := lib.Status(who, id, true);
  }

  /** Start is the exception: it keeps the array it is given, so a later write to that array shows in the
      registered job. */
  method StartKeepsTheArray(lib: JobsLib, who: Caller, id: JobId, command: string, cmdArgs: array<string>, s: string)
    requires lib.Valid() && id !in lib.jobs && cmdArgs.Length > 0 && who.name != "" && command != ""
    modifies lib, cmdArgs
    ensures id in lib.jobs && lib.jobs[id].Record().cmdArgs == old(cmdArgs[..])[0 := s]
  {
    var r := lib.Start(who, true, id, command, cmdArgs, 1, "", 1);
    cmdArgs[0] := s;
  }
}
