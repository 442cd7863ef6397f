/** Framing for the life cycle: what a step leaves alone, and how the invariant is put together again
    from the one job and the one call that the step does change. */
module LifecycleFrames {
  import opened Base
  import opened JobModel
  import opened JobLifecycle
  import opened LifecycleInvariant

  // ---------------------------------------------------------------- frames

  /** What any step does to what is known about one job. */
  predicate JobGrows(w: World, w': World, j: JobId) {
    && (j in w.jobs ==> j in w'.jobs)
    && (j in w.history ==> j in w'.history)
    && Versions(w, j) <= Versions(w', j)
    && AllVersions(w, j) <= AllVersions(w', j)
    && (j in w.issued ==> j in w'.issued && w'.issued[j] == w.issued[j]
                          && (Dir(w.issued[j].client, j) in w'.dirs ==> Dir(w.issued[j].client, j) in w.dirs))
    && (j in w.procs ==> j in w'.procs
                         && (w.procs[j].Reaped? ==> w'.procs[j] == w.procs[j])
                         && (w.procs[j] != Alive(false) ==> w'.procs[j] != Alive(false)))
  }

  /** What a step of another actor does to a job that call k has under way. */
  predicate LeftAlone(w: World, w': World, j: JobId, k: nat) {
    && (j in w.issued && w.issued[j].call == k && j !in w.procs ==>
          j !in w'.procs && (Dir(w.issued[j].client, j) in w.dirs ==> Dir(w.issued[j].client, j) in w'.dirs))
    && (j in w.issued && w.issued[j].call == k && j !in w.jobs ==> j !in w'.jobs)
  }

  lemma StartFramed(w: World, w': World, k: nat)
    requires CallInv(w, k) && w.calls[k].StartCall? && k in w'.calls && w'.calls[k] == w.calls[k]
    requires JobGrows(w, w', Subject(w.calls[k])) && LeftAlone(w, w', Subject(w.calls[k]), k)
    ensures CallInv(w', k)
  {
  }

  lemma QueryFramed(w: World, w': World, k: nat)
    requires CallInv(w, k) && w.calls[k].Query? && k in w'.calls && w'.calls[k] == w.calls[k]
    requires var j := w.calls[k].req.id;
             && JobGrows(w, w', j)
             && (j in w.jobs ==> j in w.issued && w.issued[j].client == w.jobs[j].client)
             && (CallWrites(w.calls[k]) && j in w.jobs ==>
                   w'.jobs[j] == w.jobs[j] && Versions(w', j) == Versions(w, j))
    ensures CallInv(w', k)
  {
  }

  lemma OthersFramed(w: World, w': World, k: nat)
    requires CallInv(w, k) && k in w'.calls && w'.calls[k] == w.calls[k]
    requires JobGrows(w, w', Subject(w.calls[k])) && LeftAlone(w, w', Subject(w.calls[k]), k)
    requires Subject(w.calls[k]) in w.jobs ==> JobInv(w, Subject(w.calls[k]))
    requires CallWrites(w.calls[k]) ==> w'.jobs == w.jobs && w'.history == w.history
    ensures CallInv(w', k)
  {
    if w.calls[k].StartCall? {
      StartFramed(w, w', k);
    } else {
      QueryFramed(w, w', k);
    }
  }

  // ---------------------------------------------------------------- steps that change one job

  predicate SameJob(w: World, w': World, j: JobId) {
    && (j in w.jobs <==> j in w'.jobs) && (j in w.jobs ==> w'.jobs[j] == w.jobs[j])
    && (j in w.waiters <==> j in w'.waiters) && (j in w.waiters ==> w'.waiters[j] == w.waiters[j])
    && (j in w.history <==> j in w'.history) && Versions(w', j) == Versions(w, j)
    && (j in w.procs <==> j in w'.procs) && (j in w.procs ==> w'.procs[j] == w.procs[j])
    && (j in w.issued ==> j in w'.issued && w'.issued[j] == w.issued[j]
                          && (Dir(w.issued[j].client, j) in w'.dirs <==> Dir(w.issued[j].client, j) in w.dirs))
  }

  /** If the record is half-written, it still is. */
  ghost predicate WritersKept(w: World, w': World, j: JobId) {
    Settled(w, j) || (BeingWritten(w, j) ==> BeingWritten(w', j))
  }

  lemma JobUntouched(w: World, w': World, j: JobId)
    requires JobInv(w, j) && SameJob(w, w', j) && WritersKept(w, w', j)
    ensures JobInv(w', j)
  {
  }

  lemma SameGrows(w: World, w': World, j: JobId, k: nat)
    requires SameJob(w, w', j)
    ensures JobGrows(w, w', j) && LeftAlone(w, w', j, k)
  {
  }

  /** A step that concerns only job j0 and, of the calls, only who. */
  ghost predicate Effect(w: World, w': World, j0: JobId, who: Option<nat>) {
    && (forall j :: j != j0 ==> SameJob(w, w', j))
    && JobGrows(w, w', j0)
    && (forall j :: j in w.jobs && j != j0 ==> WritersKept(w, w', j))
    && (forall k :: k in w'.calls && Some(k) != who ==>
          && k in w.calls && w'.calls[k] == w.calls[k]
          && LeftAlone(w, w', j0, k)
          && (CallWrites(w.calls[k]) ==> w'.jobs == w.jobs && w'.history == w.history))
  }

  lemma OtherJobs(w: World, w': World, j0: JobId, who: Option<nat>)
    requires JobsInv(w) && Effect(w, w', j0, who) && (j0 in w'.jobs ==> JobInv(w', j0))
    ensures JobsInv(w')
  {
    forall j | j in w'.jobs ensures JobInv(w', j) {
      if j != j0 {
        assert SameJob(w, w', j);
        assert JobInv(w, j);
        JobUntouched(w, w', j);
      }
    }
  }

  lemma OtherCalls(w: World, w': World, j0: JobId, who: Option<nat>)
    requires JobsInv(w) && CallsInv(w) && Effect(w, w', j0, who)
    requires who.Some? && who.value in w'.calls ==> CallInv(w', who.value)
    ensures CallsInv(w')
  {
    forall k | k in w'.calls ensures CallInv(w', k) {
      if Some(k) != who {
        assert CallInv(w, k);
        var j := Subject(w.calls[k]);
        if j != j0 { SameGrows(w, w', j, k); }
        assert j in w.jobs ==> JobInv(w, j);
        OthersFramed(w, w', k);
      }
    }
  }

  lemma Assemble(w: World, w': World, j0: JobId, who: Option<nat>)
    requires JobsInv(w) && CallsInv(w) && Effect(w, w', j0, who)
    requires j0 in w'.jobs ==> JobInv(w', j0)
    requires who.Some? && who.value in w'.calls ==> CallInv(w', who.value)
    requires LockInv(w') && ProcInv(w') && DirInv(w') && IndexAgrees(w'.jobs, w'.index)
    ensures Inv(w')
  {
    OtherJobs(w, w', j0, who);
    OtherCalls(w, w', j0, who);
  }
}
