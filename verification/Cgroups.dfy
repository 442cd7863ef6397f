/** Setup, job directories and teardown as programs over a file system whose every call may fail. */
module Cgroups {
  import opened CgroupTree

  datatype StatResult = Exists | Missing | StatError

  // Ok, or the step that made setup fail; RolledBack says whether the cleanup returned nil.
  datatype SetupResult = Ok | NoClients | ParentFailed | RolledBack(cleanedUp: bool) | VerifyFailed

  datatype ClientTeardown = Gone | Failed | Abort

  // The interface files that are written.
  datatype File = KillFile | SubtreeControl | IoMax | MemoryMax | MemoryOomGroup | CpuMax

  datatype OsCall =
    | MakeDir(p: Path) | MakeDirs(p: Path) | RemoveDir(p: Path)
    | WriteTo(p: Path, f: File) | StatOf(p: Path) | ListDir(p: Path)

  const LIMITS: seq<File> := [IoMax, MemoryMax, MemoryOomGroup, CpuMax]

  function WritesTo(p: Path, fs: seq<File>): seq<OsCall> {
    if fs == [] then [] else WritesTo(p, fs[..|fs| - 1]) + [WriteTo(p, fs[|fs| - 1])]
  }

  function StatsOf(clients: seq<string>): seq<OsCall> {
    if clients == [] then [] else StatsOf(clients[..|clients| - 1]) + [StatOf(ClientDir(clients[|clients| - 1]))]
  }

  /** What a setup does for its clients when all goes well. */
  function SetupCalls(clients: seq<string>): seq<OsCall> {
    if clients == [] then []
    else SetupCalls(clients[..|clients| - 1]) + ClientSetupCalls(clients[|clients| - 1])
  }

  function ClientSetupCalls(client: string): seq<OsCall> {
    [MakeDirs(ClientDir(client)), WriteTo(ClientDir(client), SubtreeControl)]
  }

  lemma StatsGrow(clients: seq<string>, i: nat)
    requires i < |clients|
    ensures StatsOf(clients[..i + 1]) == StatsOf(clients[..i]) + [StatOf(ClientDir(clients[i]))]
  {
    assert clients[..i + 1][..i] == clients[..i];
  }

  lemma WritesGrow(p: Path, fs: seq<File>, i: nat)
    requires i < |fs|
    ensures WritesTo(p, fs[..i + 1]) == WritesTo(p, fs[..i]) + [WriteTo(p, fs[i])]
  {
    assert fs[..i + 1][..i] == fs[..i];
  }

  lemma JobDirParent(client: string, job: string)
    ensures var p := JobDir(client, job); p != [] && p[..|p| - 1] == ClientDir(client)
  {
    var p := JobDir(client, job);
    assert p[..|p| - 1] == ClientDir(client);
  }

  lemma AllLimits()
    ensures LIMITS[..4] == LIMITS
  {
  }

  lemma NothingYet(p: Path)
    ensures StatsOf([]) == [] && WritesTo(p, []) == []
  {
  }

  /** The call is in the log, at number n or later. */
  ghost predicate LoggedSince(log: seq<OsCall>, n: nat, call: OsCall) { exists i :: n <= i < |log| && log[i] == call }

  /** Client directories that have gone from one tree to the other had whatever ran in them killed since. */
  ghost predicate KilledSince(before: Tree, after: Tree, log: seq<OsCall>, n: nat) {
    forall c :: ClientDir(c) in before && ClientDir(c) !in after ==> LoggedSince(log, n, WriteTo(ClientDir(c), KillFile))
  }

  lemma NoneKilled(t: Tree, log: seq<OsCall>, n: nat)
    ensures KilledSince(t, t, log, n)
  {
  }

  lemma KilledMore(whole: Tree, was: Tree, now: Tree, done: seq<OsCall>, log: seq<OsCall>, n: nat, client: string)
    requires client != "" && KilledSince(whole, was, done, n) && done <= log && n <= |done|
    requires forall p :: p in was && p !in now ==> p == ClientDir(client) || IsChild(ClientDir(client), p)
    requires var d := ClientDir(client); d in was ==> done + [StatOf(d), WriteTo(d, KillFile), ListDir(d)] <= log
    ensures KilledSince(whole, now, log, n)
  {
    forall c | ClientDir(c) in whole && ClientDir(c) !in now ensures LoggedSince(log, n, WriteTo(ClientDir(c), KillFile)) {
      if ClientDir(c) in was {
        assert ClientDir(c) == ClientDir(client);
        assert log[|done| + 1] == WriteTo(ClientDir(c), KillFile);
      } else {
        var i :| n <= i < |done| && done[i] == WriteTo(ClientDir(c), KillFile);
        assert log[i] == done[i];
      }
    }
  }

  lemma AllWereKilled(whole: Tree, last: Tree, done: seq<OsCall>, log: seq<OsCall>, n: nat, clients: seq<string>)
    requires KilledSince(whole, last, done, n) && done <= log
    requires forall k :: 0 <= k < |clients| ==> ClientDir(clients[k]) !in last
    ensures forall c :: c in clients && ClientDir(c) in whole ==> LoggedSince(log, n, WriteTo(ClientDir(c), KillFile))
  {
    forall c | c in clients && ClientDir(c) in whole ensures LoggedSince(log, n, WriteTo(ClientDir(c), KillFile)) {
      var i :| n <= i < |done| && done[i] == WriteTo(ClientDir(c), KillFile);
      assert log[i] == done[i];
    }
  }

  class CgroupFs {
    var dirs: Tree
    var log: seq<OsCall>         // the OS calls made so far
    var calls: nat               // how many they are
    const faults: nat -> bool    // whether call number k fails for a reason of its own

    constructor (t: Tree, faults: nat -> bool)
      requires WellFormed(t)
      ensures Valid() && dirs == t && log == [] && calls == 0 && this.faults == faults
    {
      dirs, log, calls, this.faults := t, [], 0, faults;
    }

    ghost predicate Valid()
      reads this
    {
      WellFormed(dirs)
    }

    /** None of the calls numbered from n up to m failed for a reason of its own. */
    ghost predicate CleanBetween(n: nat, m: nat) { forall k :: n <= k < m ==> !faults(k) }

    // ---------------------------------------------------------------- OS calls

    method Fault(call: OsCall) returns (fault: bool)
      modifies `calls, `log
      ensures calls == old(calls) + 1 && fault == faults(old(calls)) && log == old(log) + [call]
    {
      fault := faults(calls);
      calls := calls + 1;
      log := log + [call];
    }

    method Mkdir(p: Path) returns (ok: bool)
      requires Valid() && p != []
      modifies this
      ensures Valid() && calls == old(calls) + 1 && log == old(log) + [MakeDir(p)]
      ensures ok <==> !faults(old(calls)) && p[..|p| - 1] in old(dirs) && p !in old(dirs)
      ensures dirs == if ok then old(dirs) + {p} else old(dirs)
    {
      var fault := Fault(MakeDir(p));
      ok := !fault && p[..|p| - 1] in dirs && p !in dirs;
      if ok {
        AddKeepsWellFormed(dirs, p);
        dirs := dirs + {p};
      }
    }

    /** MkdirAll, for a directory whose parent exists. */
    method MkdirAll(p: Path) returns (ok: bool)
      requires Valid() && p != [] && p[..|p| - 1] in dirs
      modifies this
      ensures Valid() && calls == old(calls) + 1 && log == old(log) + [MakeDirs(p)]
      ensures ok <==> !faults(old(calls))
      ensures dirs == if ok then old(dirs) + {p} else old(dirs)
    {
      var fault := Fault(MakeDirs(p));
      ok := !fault;
      if ok {
        AddKeepsWellFormed(dirs, p);
        dirs := dirs + {p};
      }
    }

    method Rmdir(p: Path) returns (ok: bool)
      requires Valid() && p != []
      modifies this
      ensures Valid() && calls == old(calls) + 1 && log == old(log) + [RemoveDir(p)]
      ensures ok <==> !faults(old(calls)) && p in old(dirs) && !HasChild(old(dirs), p)
      ensures dirs == if ok then old(dirs) - {p} else old(dirs)
    {
      var fault := Fault(RemoveDir(p));
      ok := !fault && p in dirs && !HasChild(dirs, p);
      if ok {
        RemoveKeepsWellFormed(dirs, p);
        dirs := dirs - {p};
      }
    }

    /** Writing interface file f of directory p. */
    method WriteFile(p: Path, f: File) returns (ok: bool, missing: bool)
      modifies `calls, `log
      ensures calls == old(calls) + 1 && log == old(log) + [WriteTo(p, f)]
      ensures ok <==> !faults(old(calls)) && p in dirs
      ensures missing <==> !faults(old(calls)) && p !in dirs
    {
      var fault := Fault(WriteTo(p, f));
      ok, missing := !fault && p in dirs, !fault && p !in dirs;
    }

    method Stat(p: Path) returns (r: StatResult)
      modifies `calls, `log
      ensures calls == old(calls) + 1 && log == old(log) + [StatOf(p)]
      ensures r == if faults(old(calls)) then StatError else if p in dirs then Exists else Missing
    {
      var fault := Fault(StatOf(p));
      r := if fault then StatError else if p in dirs then Exists else Missing;
    }

    /** The subdirectories of p, in no particular order. */
    method ReadDir(p: Path) returns (ok: bool, entries: seq<string>)
      modifies `calls, `log
      ensures calls == old(calls) + 1 && log == old(log) + [ListDir(p)]
      ensures ok <==> !faults(old(calls)) && p in dirs
      ensures ok ==> forall e :: e in entries <==> p + [e] in dirs
      ensures forall i, k :: 0 <= i < k < |entries| ==> entries[i] != entries[k]
    {
      var fault := Fault(ListDir(p));
      ok, entries := !fault && p in dirs, [];
      if ok {
        var rest := set q | q in dirs && IsChild(p, q);
        while rest != {}
          invariant forall q :: q in rest ==> q in dirs && IsChild(p, q)
          invariant forall e :: e in entries ==> p + [e] in dirs && p + [e] !in rest
          invariant forall q :: q in dirs && IsChild(p, q) ==> q in rest || q[|p|] in entries
          invariant forall i, k :: 0 <= i < k < |entries| ==> entries[i] != entries[k]
        {
          var q :| q in rest;
          assert q == p + [q[|p|]];
          entries := entries + [q[|p|]];
          rest := rest - {q};
        }
        forall e | p + [e] in dirs ensures e in entries {
          assert IsChild(p, p + [e]);
        }
      }
    }

    // ---------------------------------------------------------------- job directories

    /** Kill whatever runs in a job's cgroup; a missing kill file is success. */
    method TerminateJob(jobID: string, client: string) returns (ok: bool)
      requires Valid()
      modifies `calls, `log
      ensures Valid() && dirs == old(dirs) && calls >= old(calls)
      ensures ok <==> jobID != "" && client != "" && CleanBetween(old(calls), calls)
      ensures log == old(log) + if jobID != "" && client != "" then [WriteTo(JobDir(client, jobID), KillFile)] else []
      ensures calls == old(calls) + if jobID != "" && client != "" then 1 else 0
    {
      if jobID == "" || client == "" {
        return false;
      }
      var written, missing := WriteFile(JobDir(client, jobID), KillFile);
      ok := written || missing;
    }

    /** Create a job's directory and write its four limits. A failed write leaves the directory. */
    method CreateJobCgroup(jobID: string, client: string, device: string) returns (ok: bool)
      requires Valid()
      modifies this
      ensures Valid() && calls >= old(calls)
      ensures var made := jobID != "" && client != "" && device != "" && ClientDir(client) in old(dirs)
                          && !faults(old(calls));
              dirs == if made then old(dirs) + {JobDir(client, jobID)} else old(dirs)
      ensures ok <==> jobID != "" && client != "" && device != "" && ClientDir(client) in old(dirs)
                      && JobDir(client, jobID) !in old(dirs) && CleanBetween(old(calls), calls)
      ensures ok ==> calls == old(calls) + 5
                     && log == old(log) + [MakeDir(JobDir(client, jobID))] + WritesTo(JobDir(client, jobID), LIMITS)
    {
      if jobID == "" || client == "" || device == "" {
        return false;
      }
      hide WellFormed, HasChild, WritesTo, JobDir, ClientDir;
      var p := JobDir(client, jobID);
      JobDirParent(client, jobID);
      ok := Mkdir(p);
      if ok {
        ok := WriteLimits(p);
        AllLimits();
      }
    }

    /** The limits of IO, memory, out-of-memory grouping and CPU, up to the first write that fails. */
    method WriteLimits(p: Path) returns (ok: bool)
      requires p in dirs
      modifies `calls, `log
      ensures old(calls) < calls <= old(calls) + 4 && (ok <==> CleanBetween(old(calls), calls))
      ensures log == old(log) + WritesTo(p, LIMITS[..calls - old(calls)])
      ensures ok ==> calls == old(calls) + 4
    {
      hide WritesTo;
      NothingYet(p);
      assert LIMITS[..0] == [];
      ok := true;
      var i := 0;
      while ok && i < 4
        invariant i <= 4 && calls == old(calls) + i && (!ok ==> i > 0)
        invariant ok <==> CleanBetween(old(calls), calls)
        invariant log == old(log) + WritesTo(p, LIMITS[..i])
        decreases ok, 4 - i
      {
        WritesGrow(p, LIMITS, i);
        var missing;
        ok, missing := WriteFile(p, LIMITS[i]);
        i := i + 1;
      }
    }

    /** Kill, look for the directory, and remove it if it is there. */
    method RemoveJobCgroup(jobID: string, client: string) returns (ok: bool)
      requires Valid()
      modifies this
      ensures Valid() && calls >= old(calls)
      ensures dirs == if ok then old(dirs) - {JobDir(client, jobID)} else old(dirs)
      ensures ok <==> jobID != "" && client != "" && CleanBetween(old(calls), calls)
                      && (JobDir(client, jobID) in old(dirs) ==> !HasChild(old(dirs), JobDir(client, jobID)))
      ensures ok ==> var p := JobDir(client, jobID);
                     log == old(log) + [WriteTo(p, KillFile), StatOf(p)] + if p in old(dirs) then [RemoveDir(p)] else []
      ensures ok ==> calls == old(calls) + if JobDir(client, jobID) in old(dirs) then 3 else 2
    {
      hide WellFormed, HasChild;
      ok := TerminateJob(jobID, client);
      if !ok {
        return;
      }
      var p := JobDir(client, jobID);
      var r := Stat(p);
      if r == Missing {
        return true;
      }
      if r == StatError {
        return false;
      }
      ok := Rmdir(p);
    }

    // ---------------------------------------------------------------- teardown

    /** Remove the listed children of d, all of them whatever becomes of the others. */
    method RemoveEntries(d: Path, entries: seq<string>) returns (ok: bool)
      requires Valid() && forall k :: 0 <= k < |entries| ==> d + [entries[k]] in dirs
      requires forall i, k :: 0 <= i < k < |entries| ==> entries[i] != entries[k]
      modifies this
      ensures Valid() && calls >= old(calls) && dirs <= old(dirs) && old(log) <= log
      ensures forall p :: p in old(dirs) && p !in dirs ==> IsChild(d, p)
      ensures ok ==> CleanBetween(old(calls), calls) && forall k :: 0 <= k < |entries| ==> d + [entries[k]] !in dirs
      ensures CleanBetween(old(calls), calls) && Shallow(old(dirs), d) ==> ok
    {
      hide WellFormed, HasChild, Shallow;
      ok := true;
      var i := 0;
      while i < |entries|
        invariant 0 <= i <= |entries| && Valid() && calls >= old(calls) && dirs <= old(dirs) && old(log) <= log
        invariant forall p :: p in old(dirs) && p !in dirs ==> IsChild(d, p)
        invariant forall k :: i <= k < |entries| ==> d + [entries[k]] in dirs
        invariant ok ==> CleanBetween(old(calls), calls)
        invariant ok ==> forall k :: 0 <= k < i ==> d + [entries[k]] !in dirs
        invariant CleanBetween(old(calls), calls) && Shallow(old(dirs), d) ==> ok
      {
        var e := d + [entries[i]];
        ShallowChild(dirs, old(dirs), d, e);
        var removed := Rmdir(e);
        ok := ok && removed;
        i := i + 1;
      }
    }

    /** One client of a teardown: kill, remove the job directories, remove the client directory. Abort is the
        early return on a stat error. */
    method TeardownClient(client: string) returns (r: ClientTeardown)
      requires Valid()
      modifies this
      ensures Valid() && calls > old(calls) && dirs <= old(dirs)
      ensures forall p :: p in old(dirs) && p !in dirs ==> p == ClientDir(client) || IsChild(ClientDir(client), p)
      ensures r == Gone ==> ClientDir(client) !in dirs && CleanBetween(old(calls), calls)
      ensures CleanBetween(old(calls), calls) && Shallow(old(dirs), ClientDir(client)) ==> r == Gone
      ensures old(log) + [StatOf(ClientDir(client))] <= log
      ensures ClientDir(client) in old(dirs) && r != Abort ==>
                var d := ClientDir(client);
                old(log) + [StatOf(d), WriteTo(d, KillFile), ListDir(d)] <= log && log[|log| - 1] == RemoveDir(d)
      ensures r == Abort ==> dirs == old(dirs)
    {
      hide WellFormed, Shallow, HasChild;
      var d := ClientDir(client);
      var stat := Stat(d);
      if stat == Missing {
        return Gone;
      }
      if stat == StatError {
        return Abort;
      }
      r := Gone;
      var written, missing := WriteFile(d, KillFile);
      if !written {
        r := Failed;
      }
      var listed, entries := ReadDir(d);
      assert old(log) + [StatOf(d), WriteTo(d, KillFile), ListDir(d)] == log;
      if !listed {
        r := Failed;
      } else {
        var emptied := RemoveEntries(d, entries);
        if emptied {
          AllEntriesGone(old(dirs), dirs, d, entries);
        } else {
          r := Failed;
        }
      }
      var removed := Rmdir(d);
      if !removed {
        r := Failed;
      }
    }

    /** Teardown returns nil exactly when every step worked, the list has no empty name and covers what is
        below the jobmaster directory; the subtree is then gone. In every case it only removes, and only
        inside the subtree. */
    method Teardown(clients: seq<string>) returns (ok: bool)
      requires Valid()
      modifies this
      ensures Valid() && calls >= old(calls)
      ensures dirs <= old(dirs) && Outside(dirs) == Outside(old(dirs))
      ensures ok ==> dirs == Outside(old(dirs))
      ensures ok <==> clients != [] && "" !in clients && MAIN_DIR in old(dirs)
                      && Layout(old(dirs), Members(clients)) && CleanBetween(old(calls), calls)
      ensures ok ==> old(log) < log && log[|log| - 1] == RemoveDir(MAIN_DIR)
      ensures ok ==> forall c :: c in clients && ClientDir(c) in old(dirs) ==>
                       LoggedSince(log, |old(log)|, WriteTo(ClientDir(c), KillFile))
    {
      hide WellFormed, Shallow, HasChild, Layout, Outside, RemovedFor, KilledSince, LoggedSince;
      NoneKilled(dirs, log, |log|);
      if clients == [] {
        return false;
      }
      ok := true;
      var i := 0;
      NothingRemoved(dirs, clients);
      while i < |clients|
        invariant 0 <= i <= |clients| && Valid() && calls >= old(calls)
        invariant dirs <= old(dirs) && Outside(dirs) == Outside(old(dirs))
        invariant ok ==> CleanBetween(old(calls), calls)
        invariant ok ==> forall k :: 0 <= k < i ==> ClientDir(clients[k]) !in dirs
        invariant Clearable(old(dirs), clients) && CleanBetween(old(calls), calls) ==> ok
        invariant MAIN_DIR in dirs && ok ==> RemovedFor(old(dirs), dirs, Members(clients))
        invariant "" !in clients ==> (MAIN_DIR in dirs <==> MAIN_DIR in old(dirs))
        invariant old(log) <= log
        invariant "" !in clients ==> KilledSince(old(dirs), dirs, log, |old(log)|)
      {
        label before:
        ghost var was, done := dirs, log;
        var r := TeardownClient(clients[i]);
        if r == Abort {
          if Clearable(old(dirs), clients) && CleanBetween(old@before(calls), calls) {
            ClearableIsShallow(old(dirs), was, clients, i);
          }
          OnlyBelow(was, dirs, clients[i]);
          return false;
        }
        if Clearable(old(dirs), clients) && CleanBetween(old@before(calls), calls) {
          ClearableIsShallow(old(dirs), was, clients, i);
        }
        OnlyBelow(was, dirs, clients[i]);
        if clients[i] != "" {
          RemovedForMore(old(dirs), was, dirs, clients, i);
          if "" !in clients {
            KilledMore(old(dirs), was, dirs, done, log, |old(log)|, clients[i]);
          }
        }
        ok := ok && r == Gone;
        i := i + 1;
      }
      if !ok {
        return;
      }
      ghost var last := dirs;
      if Clearable(old(dirs), clients) {
        ClearedHasNoChild(old(dirs), dirs, clients);
      }
      ghost var done := log;
      ok := Rmdir(MAIN_DIR);
      if ok {
        EmptySubtree(dirs);
        SubtreeOnly(last, MAIN_DIR);
        AllWasCleared(old(dirs), last, dirs, clients);
        AllWereKilled(old(dirs), last, done, log, |old(log)|, clients);
      }
    }

    // ---------------------------------------------------------------- setup

    /** The directory d is made; if call number n, which sets its controllers, fails, the next takes it back, which
        works unless that call fails too or something is in d. */
    ghost function MadeUnless(t: Tree, d: Path, n: nat): Tree {
      if faults(n) && !faults(n + 1) && !HasChild(t + {d}, d) then t - {d} else t + {d}
    }

    /** One client of a setup: its directory, then its controllers; a failed write takes the directory back. */
    method SetupClient(client: string) returns (ok: bool)
      requires Valid() && MAIN_DIR in dirs
      modifies this
      ensures Valid() && calls > old(calls)
      ensures ok <==> CleanBetween(old(calls), calls)
      ensures ok ==> dirs == old(dirs) + {ClientDir(client)} && log == old(log) + ClientSetupCalls(client)
      ensures log == old(log) + ClientSetupCalls(client)[..if faults(old(calls)) then 1 else 2]
                     + if faults(old(calls)) || !faults(old(calls) + 1) then [] else [RemoveDir(ClientDir(client))]
      ensures calls == old(calls) + if faults(old(calls)) then 1 else if faults(old(calls) + 1) then 3 else 2
      ensures dirs == if faults(old(calls)) then old(dirs) else MadeUnless(old(dirs), ClientDir(client), old(calls) + 1)
      ensures dirs <= old(dirs) + {ClientDir(client)} && old(dirs) <= dirs + {ClientDir(client)}
    {
      hide WellFormed, HasChild;
      var d := ClientDir(client);
      assert d == MAIN_DIR || d[..|d| - 1] == MAIN_DIR;
      RootIsThere(dirs);
      ok := MkdirAll(d);
      if !ok {
        return;
      }
      var missing;
      ok, missing := WriteFile(d, SubtreeControl);
      if !ok {
        var removed := Rmdir(d);
      }
    }

    /** The clients of a setup, one after the other up to the first that fails; from is the tree at its start. */
    method SetupClients(clients: seq<string>, ghost from: Tree) returns (ok: bool)
      requires Valid() && dirs == from + {MAIN_DIR}
      modifies this
      ensures Valid() && calls >= old(calls) && Outside(dirs) == Outside(from)
      ensures ok <==> CleanBetween(old(calls), calls)
      ensures ok ==> dirs == SetupTree(from, Members(clients)) && log == old(log) + SetupCalls(clients)
      ensures !ok ==> Within(dirs, from, clients) && ("" !in clients ==> MAIN_DIR in dirs)
    {
      hide WellFormed, HasChild, Outside, MadeUnless, ClientSetupCalls, Within;
      SubtreeOnly(from, MAIN_DIR);
      ok := true;
      var i := 0;
      while ok && i < |clients|
        invariant 0 <= i <= |clients| && Valid() && calls >= old(calls)
        invariant Outside(dirs) == Outside(from)
        invariant ok <==> CleanBetween(old(calls), calls)
        invariant ok ==> dirs == SetupTree(from, Members(clients[..i])) && log == old(log) + SetupCalls(clients[..i])
        invariant !ok ==> Within(dirs, from, clients) && ("" !in clients ==> MAIN_DIR in dirs)
        decreases ok, |clients| - i
      {
        ghost var was := dirs;
        SetupTreeGrows(from, clients, i);
        assert clients[..i + 1][..i] == clients[..i];
        ok := SetupClient(clients[i]);
        StepIsWithin(from, was, dirs, clients, i);
        i := i + 1;
      }
      assert clients[..|clients|] == clients;
    }

    /** The check that ends a setup. A client name of white space only fails it. */
    method Verify(clients: seq<string>) returns (ok: bool)
      requires Valid()
      modifies `calls, `log
      ensures calls >= old(calls)
      ensures ok <==> clients != [] && MAIN_DIR in dirs && CleanBetween(old(calls), calls)
                      && forall c :: c in clients ==> !Blank(c) && ClientDir(c) in dirs
      ensures ok ==> log == old(log) + [StatOf(MAIN_DIR)] + StatsOf(clients)
    {
      hide StatsOf, Blank, ClientDir;
      if clients == [] {
        return false;
      }
      NothingYet(MAIN_DIR);
      assert clients[..0] == [];
      var stat := Stat(MAIN_DIR);
      ok := stat == Exists;
      var i := 0;
      while ok && i < |clients|
        invariant 0 <= i <= |clients| && calls > old(calls)
        invariant ok ==> MAIN_DIR in dirs && CleanBetween(old(calls), calls)
        invariant ok ==> forall k :: 0 <= k < i ==> !Blank(clients[k]) && ClientDir(clients[k]) in dirs
        invariant ok ==> log == old(log) + [StatOf(MAIN_DIR)] + StatsOf(clients[..i])
        invariant !ok ==> MAIN_DIR !in dirs || !CleanBetween(old(calls), calls)
                          || exists c :: c in clients && (Blank(c) || ClientDir(c) !in dirs)
        decreases ok, |clients| - i
      {
        StatsGrow(clients, i);
        if Blank(clients[i]) {
          ok := false;
        } else {
          stat := Stat(ClientDir(clients[i]));
          ok := stat == Exists;
        }
        i := i + 1;
      }
      assert clients[..|clients|] == clients;
    }

    /** The jobmaster directory and its controllers; a failed write takes the directory back. */
    method SetupParent() returns (ok: bool)
      requires Valid()
      modifies this
      ensures Valid() && calls > old(calls) && Outside(dirs) == Outside(old(dirs))
      ensures ok <==> CleanBetween(old(calls), old(calls) + 2)
      ensures ok ==> calls == old(calls) + 2 && dirs == old(dirs) + {MAIN_DIR}
                     && log == old(log) + [MakeDirs(MAIN_DIR), WriteTo(MAIN_DIR, SubtreeControl)]
      ensures !ok ==>
                && dirs == (if faults(old(calls)) then old(dirs) else MadeUnless(old(dirs), MAIN_DIR, old(calls) + 1))
                && log == old(log) + [MakeDirs(MAIN_DIR)]
                          + if faults(old(calls)) then [] else [WriteTo(MAIN_DIR, SubtreeControl), RemoveDir(MAIN_DIR)]
      ensures !ok ==> !CleanBetween(old(calls), calls)
    {
      hide WellFormed, HasChild, Outside;
      SubtreeOnly(dirs, MAIN_DIR);
      SubtreeOnly(dirs + {MAIN_DIR}, MAIN_DIR);
      RootIsThere(dirs);
      ok := MkdirAll(MAIN_DIR);
      if !ok {
        return;
      }
      var missing;
      ok, missing := WriteFile(MAIN_DIR, SubtreeControl);
      if !ok {
        var removed := Rmdir(MAIN_DIR);
      }
    }

    /** Setup returns nil exactly when the list is not empty, has no blank name, and every OS call works. A
        failure of a client step is rolled back, whole, if the cleanup works; if the list has no empty name and
        nothing else was below the jobmaster directory, it works whenever that failure is the only one.
        A failed final check leaves everything in place. Nothing outside the subtree changes in any case. */
    method Setup(clients: seq<string>) returns (r: SetupResult)
      requires Valid()
      modifies this
      ensures Valid() && calls >= old(calls) && Outside(dirs) == Outside(old(dirs))
      ensures r == Ok <==> clients != [] && (forall c :: c in clients ==> !Blank(c))
                           && CleanBetween(old(calls), calls)
      ensures r == Ok ==> log == old(log) + [MakeDirs(MAIN_DIR), WriteTo(MAIN_DIR, SubtreeControl)] + SetupCalls(clients)
                                 + [StatOf(MAIN_DIR)] + StatsOf(clients)
      ensures r == NoClients <==> clients == []
      ensures r.RolledBack? || r == ParentFailed ==> !CleanBetween(old(calls), calls)
      ensures r == NoClients ==> dirs == old(dirs)
      ensures r == ParentFailed <==> clients != [] && !CleanBetween(old(calls), old(calls) + 2)
      ensures r == ParentFailed ==>
                && dirs == (if faults(old(calls)) then old(dirs) else MadeUnless(old(dirs), MAIN_DIR, old(calls) + 1))
                && log == old(log) + [MakeDirs(MAIN_DIR)]
                          + if faults(old(calls)) then [] else [WriteTo(MAIN_DIR, SubtreeControl), RemoveDir(MAIN_DIR)]
      ensures r == Ok || r == VerifyFailed ==> dirs == SetupTree(old(dirs), Members(clients))
      ensures r.RolledBack? && r.cleanedUp ==> dirs == Outside(old(dirs))
      ensures r.RolledBack? && Layout(old(dirs), Members(clients)) && "" !in clients
              && (exists k :: old(calls) <= k < calls && CleanBetween(old(calls), k) && CleanBetween(k + 1, calls))
              ==> r.cleanedUp
    {
      hide WellFormed, HasChild, Blank, Layout, Outside, StatsOf, MadeUnless, ClientSetupCalls;
      if clients == [] {
        return NoClients;
      }
      var ok := SetupParent();
      if !ok {
        return ParentFailed;
      }
      ok := SetupClients(clients, old(dirs));
      if !ok {
        ghost var before := dirs;
        var cleanedUp := Teardown(clients);
        if Layout(old(dirs), Members(clients)) && "" !in clients {
          WithinKeepsLayout(before, old(dirs), clients);
        }
        return RolledBack(cleanedUp);
      }
      ok := Verify(clients);
      r := if ok then Ok else VerifyFailed;
    }
  }

  datatype JobOp = Create(job: string, client: string, device: string) | Remove(job: string, client: string)

  /** What job operations make of a tree, one after the other, when no call fails. */
  ghost function AfterJobs(t: Tree, ops: seq<JobOp>): Tree {
    if ops == [] then t
    else
      var was := AfterJobs(t, ops[..|ops| - 1]);
      match ops[|ops| - 1]
      case Create(job, client, device) =>
        if job != "" && client != "" && device != "" && ClientDir(client) in was then was + {JobDir(client, job)} else was
      case Remove(job, client) =>
        if job != "" && client != "" && !HasChild(was, JobDir(client, job)) then was - {JobDir(client, job)} else was
  }

  /** Job operations, whatever they are and however they end, only add and remove job directories of clients
      whose directory exists; when no call fails each does its work. */
  method RunJobs(fs: CgroupFs, ops: seq<JobOp>, clients: seq<string>)
    requires fs.Valid() && Layout(fs.dirs, Members(clients))
    modifies fs
    ensures fs.Valid() && fs.calls >= old(fs.calls)
    ensures Layout(fs.dirs, Members(clients)) && Outside(fs.dirs) == Outside(old(fs.dirs))
    ensures forall p :: |p| < 3 ==> (p in fs.dirs <==> p in old(fs.dirs))
    ensures fs.CleanBetween(old(fs.calls), fs.calls) ==> fs.dirs == AfterJobs(old(fs.dirs), ops)
  {
    hide WellFormed, HasChild;
    for i := 0 to |ops|
      invariant fs.Valid() && fs.calls >= old(fs.calls)
      invariant Layout(fs.dirs, Members(clients)) && Outside(fs.dirs) == Outside(old(fs.dirs))
      invariant forall p :: |p| < 3 ==> (p in fs.dirs <==> p in old(fs.dirs))
      invariant fs.CleanBetween(old(fs.calls), fs.calls) ==> fs.dirs == AfterJobs(old(fs.dirs), ops[..i])
    {
      ghost var was := fs.dirs;
      assert ops[..i + 1][..i] == ops[..i];
      match ops[i] {
        case Create(job, client, device) =>
          var ok := fs.CreateJobCgroup(job, client, device);
          JobDirOnly(was, fs.dirs, clients, client, job);
        case Remove(job, client) =>
          var ok := fs.RemoveJobCgroup(job, client);
          JobDirOnly(was, fs.dirs, clients, client, job);
      }
    }
    assert ops[..|ops|] == ops;
  }

  /** A server at work: the hierarchy is there for these clients, and below it only they and their jobs. */
  ghost predicate Serving(t: Tree, clients: seq<string>) {
    && clients != [] && MAIN_DIR in t && Layout(t, Members(clients))
    && forall c :: c in clients ==> c != "" && ClientDir(c) in t
  }

  /** From a tree without the jobmaster directory, a successful setup and any job operations after it leave a
      server at work. */
  method SetupAndRun(fs: CgroupFs, clients: seq<string>, ops: seq<JobOp>) returns (setup: SetupResult)
    requires fs.Valid() && MAIN_DIR !in fs.dirs
    modifies fs
    ensures fs.Valid() && fs.calls >= old(fs.calls)
    ensures Outside(fs.dirs) == Outside(old(fs.dirs)) == old(fs.dirs)
    ensures setup == Ok ==> Serving(fs.dirs, clients)
    ensures setup.RolledBack? && setup.cleanedUp ==> fs.dirs == old(fs.dirs)
  {
    hide WellFormed, HasChild;
    EmptySubtree(fs.dirs);
    setup := fs.Setup(clients);
    if setup != Ok {
      return;
    }
    NewLayout(old(fs.dirs), clients);
    RunJobs(fs, ops, clients);
  }

  /** The teardown of a server at work returns nil exactly when its list, in any order and with any repetition,
      covers the clients and has no empty name, and none of its own calls fails. */
  method TeardownServing(fs: CgroupFs, clients: seq<string>, last: seq<string>) returns (torn: bool)
    requires fs.Valid() && Serving(fs.dirs, clients)
    modifies fs
    ensures fs.Valid() && fs.calls >= old(fs.calls) && Outside(fs.dirs) == Outside(old(fs.dirs))
    ensures torn <==> Members(clients) <= Members(last) && "" !in last && fs.CleanBetween(old(fs.calls), fs.calls)
    ensures torn ==> fs.dirs == Outside(old(fs.dirs))
  {
    hide WellFormed, HasChild;
    assert clients[0] in Members(clients);
    CoversLayout(fs.dirs, clients, last);
    torn := fs.Teardown(last);
  }

  /** Setup and teardown are inverse: a successful setup, any job operations and a teardown that returns nil
      restore the tree exactly. Call number from is the teardown's first. */
  method SetupRunTeardown(fs: CgroupFs, clients: seq<string>, ops: seq<JobOp>, last: seq<string>)
    returns (setup: SetupResult, torn: bool, from: nat)
    requires fs.Valid() && MAIN_DIR !in fs.dirs
    modifies fs
    ensures fs.Valid() && Outside(fs.dirs) == Outside(old(fs.dirs)) == old(fs.dirs)
    ensures old(fs.calls) <= from <= fs.calls
    ensures setup == Ok && torn ==> fs.dirs == old(fs.dirs)
    ensures setup == Ok ==>
      (torn <==> Members(clients) <= Members(last) && "" !in last && fs.CleanBetween(from, fs.calls))
    ensures setup.RolledBack? && setup.cleanedUp ==> fs.dirs == old(fs.dirs)
    ensures setup != Ok ==> !torn
  {
    hide Serving;
    torn := false;
    setup := SetupAndRun(fs, clients, ops);
    from := fs.calls;
    if setup == Ok {
      torn := TeardownServing(fs, clients, last);
    }
  }

  /** Lists with the same members, in whatever order, make the same tree when both setups work, and leave the
      same tree when both teardowns return nil; when no call fails, both do the same in any case. */
  method OrderDoesNotMatter(one: CgroupFs, two: CgroupFs, names: seq<string>, others: seq<string>)
    returns (r: SetupResult, s: SetupResult, built: Tree, builtToo: Tree, torn: bool, tornToo: bool)
    requires one != two && one.Valid() && two.Valid() && one.dirs == two.dirs
    requires Members(names) == Members(others)
    modifies one, two
    ensures r == Ok ==> built == SetupTree(old(one.dirs), Members(names))
    ensures s == Ok ==> builtToo == SetupTree(old(two.dirs), Members(others))
    ensures r == Ok && s == Ok ==> built == builtToo
    ensures torn && tornToo ==> one.dirs == two.dirs
    ensures one.CleanBetween(old(one.calls), one.calls) && two.CleanBetween(old(two.calls), two.calls) ==>
              r == s && built == builtToo && torn == tornToo
  {
    hide WellFormed, HasChild, Blank, Layout, Outside;
    assert names == [] <==> others == [] by {
      if names != [] { assert names[0] in Members(others); }
      if others != [] { assert others[0] in Members(names); }
    }
    assert forall c :: c in names <==> c in others by {
      forall c ensures c in names <==> c in others {
        assert c in Members(names) <==> c in Members(others);
      }
    }
    r := one.Setup(names);
    s := two.Setup(others);
    built, builtToo := one.dirs, two.dirs;
    torn := one.Teardown(names);
    tornToo := two.Teardown(others);
  }
}
