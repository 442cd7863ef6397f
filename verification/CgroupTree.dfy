/** The cgroup hierarchy as a set of directory paths below the mount point. Interface files exist exactly
    when their directory does. */
module CgroupTree {

  type Path = seq<string>

  type Tree = set<Path>

  const PARENT: string := "jobmaster"

  const MAIN_DIR: Path := [PARENT]

  // Joining an empty name to a path leaves the path as it is.
  function ClientDir(client: string): Path { if client == "" then MAIN_DIR else [PARENT, client] }

  function JobDir(client: string, job: string): Path { ClientDir(client) + [job] }

  predicate White(c: char) { c in {' ', '\t', '\n', '\r', '\U{000B}', '\U{000C}'} }

  predicate Blank(name: string) { forall i :: 0 <= i < |name| ==> White(name[i]) }

  /** What is left without the white space at both ends. */
  function TrimSpace(name: string): string {
    if name == "" then ""
    else if White(name[0]) then TrimSpace(name[1..])
    else if White(name[|name| - 1]) then TrimSpace(name[..|name| - 1])
    else name
  }

  /** A name is blank if and only if trimming leaves nothing of it, that is, if it has nothing but spaces and the ASCII
      characters 9 to 13. */
  lemma {:induction false} BlankExactly(name: string)
    ensures Blank(name) <==> TrimSpace(name) == ""
    ensures TrimSpace(name) != "" <==> exists i :: 0 <= i < |name| && name[i] != ' ' && !(9 <= name[i] as int <= 13)
  {
    if name != "" && White(name[0]) {
      var rest := name[1..];
      BlankExactly(rest);
      assert forall i :: 0 <= i < |rest| ==> rest[i] == name[i + 1];
      assert forall i :: 0 < i < |name| ==> name[i] == rest[i - 1];
    } else if name != "" && White(name[|name| - 1]) {
      BlankExactly(name[..|name| - 1]);
      assert !White(name[0]) && name[0] == name[..|name| - 1][0];
    }
  }

  /** Every directory's parent is a directory. */
  ghost predicate WellFormed(t: Tree) { [] in t && forall p :: p in t && p != [] ==> p[..|p| - 1] in t }

  predicate InSubtree(p: Path) { p != [] && p[0] == PARENT }

  function Outside(t: Tree): Tree { set p | p in t && !InSubtree(p) }

  predicate IsChild(p: Path, q: Path) { |q| == |p| + 1 && q[..|p|] == p }

  predicate HasChild(t: Tree, p: Path) { exists q :: q in t && IsChild(p, q) }

  /** Below the jobmaster directory there are only directories of the named clients and of their jobs. */
  ghost predicate Layout(t: Tree, clients: set<string>) {
    forall p :: p in t && InSubtree(p) ==> |p| <= 3 && (|p| >= 2 ==> p[1] in clients && p[1] != "")
  }

  /** What a successful setup makes of a tree; lists with the same members make the same tree. */
  function SetupTree(t: Tree, clients: set<string>): Tree { t + {MAIN_DIR} + set c | c in clients :: ClientDir(c) }

  function Members(list: seq<string>): set<string> { set c | c in list }

  /** Without the jobmaster directory there is nothing below it. */
  lemma {:induction false} NoMainDirNoSubtree(t: Tree, p: Path)
    requires WellFormed(t) && MAIN_DIR !in t && InSubtree(p)
    ensures p !in t
    decreases |p|
  {
    if |p| == 1 {
      assert p == MAIN_DIR;
    } else {
      NoMainDirNoSubtree(t, p[..|p| - 1]);
    }
  }

  lemma EmptySubtree(t: Tree)
    requires WellFormed(t) && MAIN_DIR !in t
    ensures t == Outside(t)
  {
    forall p | p in t && InSubtree(p) ensures false {
      NoMainDirNoSubtree(t, p);
    }
  }

  lemma AddKeepsWellFormed(t: Tree, p: Path)
    requires WellFormed(t) && p != [] && p[..|p| - 1] in t
    ensures WellFormed(t + {p})
  {
  }

  lemma RemoveKeepsWellFormed(t: Tree, p: Path)
    requires WellFormed(t) && p != [] && !HasChild(t, p)
    ensures WellFormed(t - {p})
  {
    forall q | q in t && q != p && q != [] ensures q[..|q| - 1] != p {
      assert q[..|q| - 1] != p || IsChild(p, q);
    }
  }

  lemma SubtreeOnly(t: Tree, p: Path)
    requires InSubtree(p)
    ensures Outside(t + {p}) == Outside(t) && Outside(t - {p}) == Outside(t)
  {
  }

  /** Nothing lies deeper below d than its direct children. */
  ghost predicate Shallow(t: Tree, d: Path) { forall p :: p in t && |p| >= |d| && p[..|d|] == d ==> |p| <= |d| + 1 }

  lemma ShallowChild(t: Tree, whole: Tree, d: Path, e: Path)
    requires t <= whole && IsChild(d, e)
    ensures Shallow(whole, d) ==> !HasChild(t, e)
  {
    forall q | q in t && IsChild(e, q) ensures !Shallow(whole, d) {
      assert q[..|d|] == e[..|d|] == d;
    }
  }

  lemma AllEntriesGone(whole: Tree, t: Tree, d: Path, entries: seq<string>)
    requires t <= whole
    requires forall e :: d + [e] in whole ==> e in entries
    requires forall k :: 0 <= k < |entries| ==> d + [entries[k]] !in t
    ensures !HasChild(t, d)
  {
    forall q | q in whole && IsChild(d, q) ensures q !in t {
      assert q == d + [q[|d|]];
    }
  }

  /** What a teardown over the list can clear away. */
  ghost predicate Clearable(t: Tree, clients: seq<string>) {
    clients != [] && "" !in clients && MAIN_DIR in t && Layout(t, Members(clients))
  }

  /** Everything that went from one tree to the other was a listed client's directory or a job's. */
  ghost predicate RemovedFor(before: Tree, after: Tree, clients: set<string>) {
    forall p :: p in before && p !in after ==> InSubtree(p) && 2 <= |p| <= 3 && p[1] in clients
  }

  lemma ClearableIsShallow(whole: Tree, t: Tree, clients: seq<string>, i: nat)
    requires Clearable(whole, clients) && t <= whole && i < |clients|
    ensures Shallow(t, ClientDir(clients[i]))
  {
    var d := ClientDir(clients[i]);
    assert clients[i] != "";
    forall p | p in t && |p| >= |d| && p[..|d|] == d ensures |p| <= |d| + 1 {
      assert p[0] == p[..|d|][0];
    }
  }

  lemma OnlyBelow(before: Tree, after: Tree, client: string)
    requires after <= before
    requires forall p :: p in before && p !in after ==> p == ClientDir(client) || IsChild(ClientDir(client), p)
    ensures Outside(after) == Outside(before)
    ensures client != "" ==> (MAIN_DIR in after <==> MAIN_DIR in before)
    ensures client != "" ==> RemovedFor(before, after, {client})
  {
    forall p | p in before && p !in after
      ensures InSubtree(p) && (client != "" ==> 2 <= |p| <= 3 && p[1] == client)
    {
      var d := ClientDir(client);
      if p != d {
        assert p[..|d|] == d;
        assert p[0] == d[0];
      }
    }
  }

  lemma NothingRemoved(t: Tree, clients: seq<string>)
    ensures RemovedFor(t, t, Members(clients))
  {
  }

  lemma RemovedForMore(whole: Tree, was: Tree, now: Tree, clients: seq<string>, i: nat)
    requires i < |clients| && RemovedFor(was, now, {clients[i]})
    ensures RemovedFor(whole, was, Members(clients)) ==> RemovedFor(whole, now, Members(clients))
  {
  }

  lemma ClearedHasNoChild(whole: Tree, t: Tree, clients: seq<string>)
    requires Clearable(whole, clients) && t <= whole
    requires forall k :: 0 <= k < |clients| ==> ClientDir(clients[k]) !in t
    ensures !HasChild(t, MAIN_DIR)
  {
    forall q | q in whole && IsChild(MAIN_DIR, q) ensures q !in t {
      assert q[0] == q[..1][0] == PARENT;
      var k :| 0 <= k < |clients| && clients[k] == q[1];
      assert q == ClientDir(clients[k]);
    }
  }

  lemma AllWasCleared(whole: Tree, last: Tree, end: Tree, clients: seq<string>)
    requires MAIN_DIR in whole && MAIN_DIR in last && end == last - {MAIN_DIR} && end == Outside(end)
    requires RemovedFor(whole, last, Members(clients))
    requires forall k :: 0 <= k < |clients| ==> ClientDir(clients[k]) !in last
    ensures "" !in clients && Layout(whole, Members(clients))
  {
    forall p | p in whole && InSubtree(p)
      ensures |p| <= 3 && (|p| >= 2 ==> p[1] in Members(clients) && p[1] != "")
    {
      if p in last {
        assert p !in Outside(end);
      } else {
        var k :| 0 <= k < |clients| && clients[k] == p[1];
        assert ClientDir(clients[k]) != MAIN_DIR;
      }
    }
  }

  lemma RootIsThere(t: Tree)
    requires WellFormed(t)
    ensures MAIN_DIR[..|MAIN_DIR| - 1] in t
  {
    assert MAIN_DIR[..0] == [];
  }

  /** The tree differs from the old one only by listed clients' directories and the jobmaster directory. */
  ghost predicate Within(t: Tree, was: Tree, clients: seq<string>) {
    forall p :: p in t && p !in was ==> p == MAIN_DIR || exists c :: c in clients && p == ClientDir(c)
  }

  lemma SetupTreeGrows(t: Tree, clients: seq<string>, i: nat)
    requires i < |clients|
    ensures SetupTree(t, Members(clients[..i + 1])) == SetupTree(t, Members(clients[..i])) + {ClientDir(clients[i])}
    ensures MAIN_DIR in SetupTree(t, Members(clients[..i]))
  {
    assert Members(clients[..i + 1]) == Members(clients[..i]) + {clients[i]};
  }

  lemma StepIsWithin(before: Tree, was: Tree, now: Tree, clients: seq<string>, i: nat)
    requires i < |clients| && was == SetupTree(before, Members(clients[..i]))
    requires now <= was + {ClientDir(clients[i])} && was <= now + {ClientDir(clients[i])}
    ensures Within(now, before, clients) && Outside(now) == Outside(was)
    ensures "" !in clients ==> MAIN_DIR in now
  {
  }

  lemma WithinKeepsLayout(t: Tree, was: Tree, clients: seq<string>)
    requires Within(t, was, clients) && Layout(was, Members(clients)) && "" !in clients
    ensures Layout(t, Members(clients))
  {
  }

  lemma JobDirOnly(was: Tree, now: Tree, clients: seq<string>, client: string, job: string)
    requires Layout(was, Members(clients))
    requires now == was || (client != "" && ClientDir(client) in was && now == was + {JobDir(client, job)})
             || (client != "" && now == was - {JobDir(client, job)})
    ensures Layout(now, Members(clients)) && Outside(now) == Outside(was)
    ensures forall p :: |p| < 3 ==> (p in now <==> p in was)
  {
  }

  lemma NewLayout(t: Tree, clients: seq<string>)
    requires t == Outside(t) && "" !in clients
    ensures Layout(SetupTree(t, Members(clients)), Members(clients))
  {
    forall p | p in t ensures !InSubtree(p) {
      assert p in Outside(t);
    }
  }

  lemma CoversLayout(t: Tree, clients: seq<string>, last: seq<string>)
    requires Layout(t, Members(clients)) && forall c :: c in clients ==> c != "" && ClientDir(c) in t
    ensures Layout(t, Members(last)) <==> Members(clients) <= Members(last)
  {
    if Layout(t, Members(last)) {
      forall c | c in clients ensures c in Members(last) {
        assert InSubtree(ClientDir(c)) && ClientDir(c)[1] == c;
      }
    }
  }
}
