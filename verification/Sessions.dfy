/** A caller's session with the library: any number of calls, and writes in between into the argument lists of
    the jobs it was given. */
module Sessions {
  import opened Base
  import opened JobModel
  import opened Registry
  import L = JobsLib

  // A Stop finds the process alive for so many probes before it is gone. A write stores text at a place of the
  // argument list that the call of that number returned.
  datatype Act =
    | AskStatus(who: Caller, id: JobId, ctxOk: bool)
    | AskStreamSetup(who: Caller, id: JobId, ctxOk: bool)
    | AskStop(who: Caller, id: JobId, env: StopEnv, probes: nat)
    | Write(call: nat, place: nat, text: string)

  // What a caller holds of each call: the job it was given, with what it has written into it since.
  type Holding = seq<Option<JobRecord>>

  function CallOf(a: Act): Event
    requires !a.Write?
  {
    match a
    case AskStatus(who, id, ctxOk) => Event.Status(who, id, ctxOk)
    case AskStreamSetup(who, id, ctxOk) => Event.StreamSetup(who, id, ctxOk)
    case AskStop(who, id, env, _) => Event.Stop(who, id, env)
  }

  function Given(a: Answer): Option<JobRecord> { if a.TheJob? then Some(a.job) else None }

  predicate CanWrite(held: Holding, call: nat, place: nat) {
    call < |held| && held[call].Some? && place < |held[call].value.cmdArgs|
  }

  function Written(held: Holding, call: nat, place: nat, text: string): Holding
    requires CanWrite(held, call, place)
  {
    var r := held[call].value;
    held[call := Some(r.(cmdArgs := r.cmdArgs[place := text]))]
  }

  /** The registry and what the caller holds, after an act. */
  function AfterAct(reg: Registry, held: Holding, a: Act): (Registry, Holding) {
    if a.Write? then
      (reg, if CanWrite(held, a.call, a.place) then Written(held, a.call, a.place, a.text) else held)
    else
      (Apply(reg, CallOf(a)).0, held + [Given(Apply(reg, CallOf(a)).1)])
  }

  function After(reg: Registry, held: Holding, acts: seq<Act>): (Registry, Holding)
    decreases acts
  {
    if acts == [] then (reg, held)
    else
      var (reg', held') := AfterAct(reg, held, acts[0]);
      After(reg', held', acts[1..])
  }

  function CallsOf(acts: seq<Act>): seq<Event> {
    if acts == [] then [] else (if acts[0].Write? then [] else [CallOf(acts[0])]) + CallsOf(acts[1..])
  }

  /** The copies are detached from the registry and from each other. */
  ghost predicate Detached(lib: L.JobsLib, copies: seq<L.Job?>)
    reads lib, lib.jobs.Values, copies
  {
    && (forall c :: 0 <= c < |copies| && copies[c] != null ==>
          copies[c] !in lib.jobs.Values && forall j :: j in lib.jobs.Values ==> j.CmdArgs != copies[c].CmdArgs)
    && (forall c, d :: 0 <= c < d < |copies| && copies[c] != null && copies[d] != null ==>
          copies[c] != copies[d] && copies[c].CmdArgs != copies[d].CmdArgs)
  }

  /** Each copy is what the caller is said to hold. */
  ghost predicate Holds(copies: seq<L.Job?>, held: Holding)
    reads copies, set c | c in copies && c != null :: c.CmdArgs
  {
    && |copies| == |held|
    && forall c :: 0 <= c < |copies| ==>
         (copies[c] != null <==> held[c].Some?) && (copies[c] != null ==> copies[c].Record() == held[c].value)
  }

  /** One write. */
  method WriteInto(lib: L.JobsLib, copies: seq<L.Job?>, ghost held: Holding, a: Act)
    requires a.Write? && lib.Valid() && Detached(lib, copies) && Holds(copies, held) && CanWrite(held, a.call, a.place)
    modifies copies[a.call].CmdArgs
    ensures lib.Valid() && lib.Model() == old(lib.Model())
    ensures Holds(copies, Written(held, a.call, a.place, a.text))
  {
    copies[a.call].CmdArgs[a.place] := a.text;
  }

  function StillAlive(probes: nat): seq<bool> { if probes == 0 then [] else [true] + StillAlive(probes - 1) }

  /** One call. */
  method Ask(lib: L.JobsLib, a: Act) returns (copy: L.Job?)
    requires !a.Write? && lib.Valid()
    modifies lib.jobs.Values
    ensures lib.Valid() && lib.jobs == old(lib.jobs)
    ensures forall j :: j in lib.jobs.Values ==> j.CmdArgs == old(j.CmdArgs)
    ensures var (reg, answer) := Apply(old(lib.Model()), CallOf(a));
            && lib.Model() == reg
            && (copy != null <==> Given(answer).Some?)
            && (copy != null ==> fresh(copy) && fresh(copy.CmdArgs) && copy.Record() == Given(answer).value)
  {
    hide L.JobsLib.Valid, L.JobsLib.Model;
    match a
    case AskStatus(who, id, ctxOk) => copy := lib.Status(who, id, ctxOk);
    case AskStreamSetup(who, id, ctxOk) => copy := lib.StreamOutputSetup(who, id, ctxOk);
    case AskStop(who, id, env, probes) =>
      var alive := StillAlive(probes) + [false];
      assert alive[|alive| - 1] == false;
      var polling;
      copy, polling := lib.Stop(who, id, env, alive);
  }

  /** One call, and its answer kept with the others. */
  method AskAndKeep(lib: L.JobsLib, copies: seq<L.Job?>, ghost held: Holding, a: Act) returns (kept: seq<L.Job?>)
    requires !a.Write? && lib.Valid() && Detached(lib, copies) && Holds(copies, held)
    modifies lib.jobs.Values
    ensures lib.Valid() && lib.jobs == old(lib.jobs)
    ensures |kept| == |copies| + 1 && copies == kept[..|copies|]
    ensures kept[|copies|] != null ==> fresh(kept[|copies|]) && fresh(kept[|copies|].CmdArgs)
    ensures Detached(lib, kept)
    ensures lib.Model() == AfterAct(old(lib.Model()), held, a).0
    ensures Holds(kept, AfterAct(old(lib.Model()), held, a).1)
  {
    hide L.JobsLib.Valid, L.JobsLib.Model, Apply;
    var copy := Ask(lib, a);
    kept := copies + [copy];
  }

  /** One act. */
  method Perform(lib: L.JobsLib, copies: seq<L.Job?>, ghost held: Holding, a: Act) returns (kept: seq<L.Job?>)
    requires lib.Valid() && Detached(lib, copies) && Holds(copies, held)
    modifies lib.jobs.Values, set c | c in copies && c != null :: c.CmdArgs
    ensures lib.Valid() && lib.jobs == old(lib.jobs)
    ensures forall c :: c in kept && c != null ==>
              (fresh(c) && fresh(c.CmdArgs)) || (c in copies && c.CmdArgs == old(c.CmdArgs))
    ensures Detached(lib, kept)
    ensures lib.Model() == AfterAct(old(lib.Model()), held, a).0
    ensures Holds(kept, AfterAct(old(lib.Model()), held, a).1)
  {
    hide L.JobsLib.Valid, L.JobsLib.Model, Apply, Written;
    kept := copies;
    if !a.Write? {
      kept := AskAndKeep(lib, copies, held, a);
    } else if a.call < |copies| && copies[a.call] != null && a.place < copies[a.call].CmdArgs.Length {
      WriteInto(lib, copies, held, a);
    }
  }

  lemma AfterFrom(reg: Registry, held: Holding, acts: seq<Act>, i: nat)
    requires i < |acts|
    ensures var (reg', held') := AfterAct(reg, held, acts[i]);
            After(reg, held, acts[i..]) == After(reg', held', acts[i + 1..])
  {
    assert acts[i..][0] == acts[i] && acts[i..][1..] == acts[i + 1..];
  }

  /** Writes leave no trace in the registry. */
  lemma {:induction false} CallsAlone(reg: Registry, held: Holding, acts: seq<Act>)
    ensures After(reg, held, acts).0 == ApplyAll(reg, CallsOf(acts))
    decreases acts
  {
    hide Apply;
    if acts != [] {
      var (reg', held') := AfterAct(reg, held, acts[0]);
      CallsAlone(reg', held', acts[1..]);
      if acts[0].Write? {
        assert CallsOf(acts) == CallsOf(acts[1..]);
      } else {
        assert CallsOf(acts)[0] == CallOf(acts[0]) && CallsOf(acts)[1..] == CallsOf(acts[1..]);
      }
    }
  }

  /** The writes of a session into one copy, in order. */
  function OwnWrites(r: Option<JobRecord>, acts: seq<Act>, call: nat): Option<JobRecord>
    decreases acts
  {
    if acts == [] then r
    else
      var a := acts[0];
      var r' := if a.Write? && a.call == call && r.Some? && a.place < |r.value.cmdArgs|
                then Some(r.value.(cmdArgs := r.value.cmdArgs[a.place := a.text])) else r;
      OwnWrites(r', acts[1..], call)
  }

  /** What is held of a call is the answer it gave, with the writes into that answer and no others. */
  lemma {:induction false} AnswerAndOwnWrites(reg: Registry, held: Holding, acts: seq<Act>, call: nat)
    requires call < |held|
    ensures |held| <= |After(reg, held, acts).1|
    ensures After(reg, held, acts).1[call] == OwnWrites(held[call], acts, call)
    decreases acts
  {
    hide Apply;
    if acts != [] {
      var (reg', held') := AfterAct(reg, held, acts[0]);
      AnswerAndOwnWrites(reg', held', acts[1..], call);
    }
  }

  /** Whatever a caller asks and whatever it writes into the answers, in whatever order, the registry is what the
      calls alone make of it, and each copy is the answer it came from with the writes into it. */
  method RunSession(lib: L.JobsLib, acts: seq<Act>) returns (copies: seq<L.Job?>)
    requires lib.Valid()
    modifies lib.jobs.Values
    ensures lib.Valid() && lib.jobs == old(lib.jobs)
    ensures lib.Model() == ApplyAll(old(lib.Model()), CallsOf(acts))
    ensures Holds(copies, After(old(lib.Model()), [], acts).1)
  {
    hide L.JobsLib.Valid, L.JobsLib.Model, Apply, After, AfterAct;
    copies := [];
    ghost var held: Holding := [];
    ghost var start := lib.Model();
    CallsAlone(start, held, acts);
    assert acts[0..] == acts;
    var i := 0;
    while i < |acts|
      invariant 0 <= i <= |acts| && lib.Valid() && lib.jobs == old(lib.jobs)
      invariant Detached(lib, copies) && Holds(copies, held)
      invariant forall c :: c in copies && c != null ==> fresh(c) && fresh(c.CmdArgs)
      invariant After(start, [], acts) == After(lib.Model(), held, acts[i..])
    {
      hide Detached, Holds;
      AfterFrom(lib.Model(), held, acts, i);
      ghost var next := AfterAct(lib.Model(), held, acts[i]).1;
      copies := Perform(lib, copies, held, acts[i]);
      held := next;
      i := i + 1;
    }
    assert acts[i..] == [];
    NothingMore(lib.Model(), held);
  }

  lemma NothingMore(reg: Registry, held: Holding)
    ensures After(reg, held, []) == (reg, held)
  {
  }
}
