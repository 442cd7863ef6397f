/** The values behind a job: its record, what waiting for its process reports, and the two
    rewrites of a record that the library performs under its write lock. */
module JobModel {

  type JobId = string
  type Client = string

  datatype JobState = Unspecified | Running | TerminatedByAPI | Completed

  // Mesg is kept as the sequence of notes appended to it.
  datatype Note = ProcessStateNil | WaitFailed(text: string) | RemovalFailed | StopRequested

  datatype JobRecord = JobRecord(
    id: JobId, mesg: seq<Note>, client: Client, pid: int, state: JobState,
    exitCode: int, signalStr: string, command: string, cmdArgs: seq<string>,
    outputFile: string, started: int, ended: int)

  // What cmd.Wait reports: a normal exit, death by a signal, or an error that is not an ExitError.
  datatype WaitResult = Exited(code: nat) | Signaled(signal: string) | WaitError(text: string)

  function ExitCodeOf(w: WaitResult): int {
    match w
    case Exited(code) => code
    case Signaled(_) => -1
    case WaitError(_) => 0
  }

  function SignalOf(w: WaitResult): string {
    match w
    case Signaled(signal) => signal
    case _ => ""
  }

  // The process state is formatted before the wait, when it is still nil.
  function ExitNotes(w: WaitResult, rmErr: bool): seq<Note> {
    [ProcessStateNil]
    + (if w.WaitError? then [WaitFailed(w.text)] else [])
    + (if rmErr then [RemovalFailed] else [])
  }

  predicate Terminal(s: JobState) {
    s == TerminatedByAPI || s == Completed
  }

  /** A record as Start builds it. */
  predicate IsBirth(r: JobRecord) {
    && r.state == Running && r.mesg == [] && r.exitCode == 0
    && r.signalStr == "" && r.ended == 0 && r.started > 0
  }

  /** The completion goroutine's locked update. */
  function FinishRecord(r: JobRecord, w: WaitResult, rmErr: bool, now: int): JobRecord {
    var r' := r.(exitCode := ExitCodeOf(w), signalStr := SignalOf(w), mesg := r.mesg + ExitNotes(w, rmErr));
    if r.state != TerminatedByAPI then r'.(state := Completed, ended := now) else r'
  }

  /** Stop's update of a record, and of the copy it returns. */
  function StopRecord(r: JobRecord, now: int): JobRecord {
    r.(state := TerminatedByAPI, ended := now, mesg := r.mesg + [StopRequested],
       exitCode := -1, signalStr := "SIGKILL")
  }

  /** The job map and the per-client lists say the same thing: a job is listed once, under its owner. */
  ghost predicate IndexAgrees(jobs: map<JobId, JobRecord>, index: map<Client, seq<JobId>>) {
    && (forall j :: j in jobs ==> jobs[j].id == j)
    && (forall j :: j in jobs ==> jobs[j].client in index && j in index[jobs[j].client])
    && (forall c, i :: c in index && 0 <= i < |index[c]| ==>
          index[c][i] in jobs && jobs[index[c][i]].client == c)
    && (forall c, i, k :: c in index && 0 <= i < k < |index[c]| ==> index[c][i] != index[c][k])
  }

  function ListOf(index: map<Client, seq<JobId>>, c: Client): seq<JobId> {
    if c in index then index[c] else []
  }

  function AddToIndex(index: map<Client, seq<JobId>>, c: Client, id: JobId): map<Client, seq<JobId>> {
    index[c := ListOf(index, c) + [id]]
  }

  lemma RegisterKeepsIndex(jobs: map<JobId, JobRecord>, index: map<Client, seq<JobId>>, r: JobRecord)
    requires IndexAgrees(jobs, index) && r.id !in jobs
    ensures IndexAgrees(jobs[r.id := r], AddToIndex(index, r.client, r.id))
  {
    var index' := AddToIndex(index, r.client, r.id);
    assert index'[r.client][|index'[r.client]| - 1] == r.id;
    forall j | j in jobs
      ensures j in index'[jobs[j].client]
    {
      var i :| 0 <= i < |index[jobs[j].client]| && index[jobs[j].client][i] == j;
      assert index'[jobs[j].client][i] == j;
    }
  }

  /** Rewriting a record in place without touching its ID or owner keeps the agreement. */
  lemma RewriteKeepsIndex(jobs: map<JobId, JobRecord>, index: map<Client, seq<JobId>>, r: JobRecord)
    requires IndexAgrees(jobs, index) && r.id in jobs && r.client == jobs[r.id].client
    ensures IndexAgrees(jobs[r.id := r], index)
  {
  }

  /** Each registered job sits at exactly one position of exactly one client's list, its owner's. */
  lemma ListedExactlyOnce(jobs: map<JobId, JobRecord>, index: map<Client, seq<JobId>>, j: JobId)
    returns (pos: nat)
    requires IndexAgrees(jobs, index) && j in jobs
    ensures jobs[j].client in index && pos < |index[jobs[j].client]| && index[jobs[j].client][pos] == j
    ensures forall c, k :: c in index && 0 <= k < |index[c]| && index[c][k] == j
                           ==> c == jobs[j].client && k == pos
  {
    var owner := jobs[j].client;
    pos :| 0 <= pos < |index[owner]| && index[owner][pos] == j;
    forall c, k | c in index && 0 <= k < |index[c]| && index[c][k] == j
      ensures c == owner && k == pos
    {
      assert index[c][k] in jobs;
    }
  }
}
