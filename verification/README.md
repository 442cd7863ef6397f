# Jobmaster: a verified model

Jobmaster starts Linux processes on behalf of clients, each in its own cgroup directory, and lets the
clients stop them, ask for their status and stream their output. This project models the parts in which
goroutines, processes and the file system meet, and proves what holds of them in every run.

## What is modelled

**The life of a job** (`jobslib/jobslib.go`, with the removal steps of `jobslib/cgroups.go`).
`JobLifecycle` is a transition system over any number of Start, Stop, Status and StreamOutputSetup calls,
one completion goroutine per job, the processes, the job directories and the read-write mutex. A step is
what one actor does between two points at which another can get in between: Stop finds, copies, locks,
checks, kills, polls, writes the kill file, stats, removes, updates and unlocks in separate steps.
`LifecycleInvariant` is the inductive invariant; `LifecycleFrames`, `LifecycleSteps` and
`LifecycleGrowth` prove that each step keeps it, and what each step can do to one job;
`LifecycleTheorems`, `RecordCauses`, `RecordContents`, `StartCalls`, `Refusals`, `StopTheorems` and `ProgressTheorems` hold
the results for whole runs;
`Deadlock` says exactly when the holder of the mutex is stuck, and where everybody else's waiting ends;
`StopLimits` and `OverrideStop` hold what Stop does not promise, with the exact conditions and runs that
show it. `Linearization` ties the transition system to the atomic calls of `Registry`.
`JobModel` has the records and the two rewrites of a record.

**The registry as objects** (`jobslib/jobslib.go`, the role wiring of `api/server/server_impl.go`).
`JobsLib` has the classes `Job` and `JobsLib`, with the job map, the lists per client and argument arrays
that can be shared. Its methods are proved against `Registry`, where a call is a function of the registry,
the caller and what the environment does; `Registry` also has the theorems about call sequences. `Sessions`
has a caller that asks and writes into the answers in any order.

**Streaming** (`api/server/server_impl.go`). `StreamOutput` has both loops of the RPC over their one
reused buffer. They are proved against the functions of `StreamSpec`, which take the log and a list of
turns, each saying what that turn meets: a cancelled context, bytes appended meanwhile, a read error, a
failing send, a watcher that is done. Every list is allowed, so a theorem for all lists is a theorem for
every loop head and every exit. `StreamTurns` goes through both loops forwards, turn by turn, and says what
each turn must have met and what ends them.

**The file watcher** (`jobslib/watcher.go`). `InotifyEvents` lays out inotify records as bytes; `Watcher`
walks a buffer of them with the arithmetic of a 32-bit unsigned integer, and has the read loop and
`WaitForFile`. `WatchLocks` is a second transition system: any number of watchers and readers over
`WatcherLock` and the condition variable, with `Wait` split into its stages. `Wakeups` says exactly when a
wakeup is lost, when all of them are at rest, and what a successful stream knows of its watcher.

**The cgroup hierarchy** (`jobslib/cgroups.go`). `Cgroups.CgroupFs` is a directory tree with a counter of
OS calls and a log of them; each call can fail, as a function `faults` of its number decides. Setup, job directories,
removal and teardown are programs over it. `CgroupTree` has the tree and its lemmas.

## Assumptions about the environment

- A generated job ID has not been given out before, and a PID is not reused while it is polled.
- The clock is positive and does not go backwards.
- Signal 0 fails exactly once the process has been reaped, and only its own goroutine reaps it.
- `cmd.Wait` returns only after it has reaped the process.
- A directory whose cgroup holds a live process cannot be removed; one that holds a zombie can.
- The slice of arguments given to Start is not written to afterwards. Start keeps it (jobslib/jobslib.go:289),
  so a caller that did write to it would change a record, Running or not, behind the library's back
  (`JobsLib.StartKeepsTheArray`). The transition system takes the arguments as a value.
- The log is only appended to, and `Send` copies the bytes it is given.
- `ReadAt` has an error exactly when it does not fill the buffer; at the end of the file it is EOF.
- The kernel puts whole inotify records into the read buffer.
- A file system call that finds what it needs fails only if `faults` says so. Files of a cgroup directory
  exist exactly when the directory does.

## Where code and documentation differ

The code is followed in each case.

- The program's own README, line 164, gives state 2 also to jobs that the kernel kills. State 2 means exactly
  that a Stop has updated the job, and at most one ever does (`RecordCauses.StatesByCause`,
  `RecordCauses.StoppedOnce`); a job killed by anybody else ends as Completed, as in the run of
  `StopLimits.StopCanAnswerRunning` for a wait result that is a signal. The sample on its line 156 shows the
  signal as `killed`: that is what the goroutine writes, while a Stop itself answers with `SIGKILL`
  (jobslib/jobslib.go:503-504).
- Its line 159 says that a Stop of a stopped job returns its details. They are those of a copy made before
  the lock, which can still say Running (`StopLimits.AnswerOfALateStop`, `StopLimits.StopCanAnswerRunning`).
  Two Stops of one job also answer differently when the goroutine's update comes between them
  (`Registry.StopIsIdempotent`).
- jobslib/jobslib.go:499-500 presents -1 as the exit code of a stopped job; the goroutine overwrites it
  (`StopLimits.ExitCodeOfAStoppedJob`, `StopLimits.StoppedJobKeepsItsOwnExit`).
- jobslib/jobslib.go:439-440 announces that an overriding Stop stops another client's job. The kill is made
  under the caller's name and never reaches it (`StopLimits.KillReachesExactlyTheOwners`); the call then waits
  for the process to end by itself, with the mutex held, and nobody else can kill it meanwhile
  (`OverrideStop.OverridingStopWaits`, `OverrideStop.OverridingStopCanWait`).
- The finished-job branch fails when there is no error and goes on when there is one
  (api/server/server_impl.go:213-221). `StreamSpec` has the branch as written and, under the name
  `repaired`, with the test the way round its messages mean.
- The comment at api/server/server_impl.go:256 says that the running-job loop goes on until end of file or
  another error. It goes round for ever, reading nothing, when its first TryLock succeeds while the last error
  is nil: the nil left by opening the file, on first entry, or that of a read that filled the buffer
  (`StreamSpec.SpinsWithoutWatcher`, `StreamSpec.SpinsOnEntry`, `StreamSpec.SpinsAfterAFullChunk`).
- jobslib/watcher.go:78 announces a final wakeup for any readers. It misses a reader whose failed TryLock
  comes before it and whose Wait comes after it, and one whose TryLock fails on another reader's
  (`Wakeups.WakeupLostExactly`, `Wakeups.WakeupCanBeLost`, `Wakeups.ReaderCanCostAWakeup`).
- The comment at jobslib/jobslib.go:48-52 has readers conclude from WatcherLock that nothing more is to come. The
  lock is shared by the watchers of all jobs, so a stream can end with success before its own job's watcher has
  begun (`Wakeups.SuccessMeansWatcherDoneExactly`, `Wakeups.StreamCanEndBeforeItsWatcherBegins`).
- The text of the process state is taken before the wait (jobslib/jobslib.go:312), when it is nil.
- A setup whose final check fails returns an error and leaves the hierarchy in place
  (jobslib/cgroups.go:160-163).

## Model

| member | source | states |
|---|---|---|
| LifecycleTheorems.RunKeepsInv | jobslib/jobslib.go:211-512 | every state of every run, whatever the interleaving, satisfies the invariant |
| LifecycleGrowth.StepKeepsInv | jobslib/jobslib.go:283-511 | each step of each actor keeps the invariant: who holds the mutex, what each record has been, what each copy is worth |
| LifecycleGrowth.StepGrows | jobslib/jobslib.go:283-511 | no step takes a version from a record, moves a process backwards, forgets a job or brings back a removed directory |
| LifecycleTheorems.RecordHistory | jobslib/jobslib.go:283-356 | the versions of a record seen at lock releases are a prefix of Running, Completed or of Running, TerminatedByAPI, TerminatedByAPI; the last has the exit code and signal of the process, the end time is written once, messages only grow |
| LifecycleTheorems.TerminalAbsorbs | jobslib/jobslib.go:346-353 | a terminal state and its end time never change again; ID, owner, PID, command, log and start time never change at all, nor do the arguments as long as the caller of Start leaves its slice alone |
| LifecycleTheorems.RunningUntouched | jobslib/jobslib.go:423-511 | a record that is still Running is what it was at every earlier time: no step of the library writes a field of a Running record (the slice kept from the caller of Start is assumed to be left alone) |
| LifecycleTheorems.TerminalImpliesReaped | jobslib/jobslib.go:451-489 | in no reachable state does a record claim TerminatedByAPI or Completed of a process that has not been reaped, overriding Stops included |
| LifecycleTheorems.LastWriterIsTruthful | jobslib/jobslib.go:343-356 | from the goroutine's update on, the record never changes, and its exit code and signal are the process's, whatever racing Stops wrote |
| StopTheorems.CopyBeforeLockIsSound | jobslib/jobslib.go:423-448 | whenever the check under the lock still finds Running, the copy made before the lock equals the live record, and does so until both are updated (the slice kept from the caller of Start is assumed to be left alone) |
| StopTheorems.StoppedJobAgrees | jobslib/jobslib.go:486-511 | the job Stop is about to return and the record agree in every field but the end time, of which the record's is no later (the slice kept from the caller of Start is assumed to be left alone) |
| StopTheorems.StoppedJobIsAVersion | jobslib/jobslib.go:486-511 | after the lock is released that agreement is with the version the call made visible, for good |
| StopTheorems.ReturnedCopyWasHeld | jobslib/jobslib.go:374-447 | any other copy returned by Status, StreamOutputSetup or Stop is what the record was at some moment during the call |
| StopTheorems.FailedCallsWriteNothing | jobslib/jobslib.go:211-300 | a call that ends in an error, or returns an untouched copy, changed neither the job map nor the lists at any of its steps |
| StopLimits.AnswerOfALateStop | jobslib/jobslib.go:423-448 | the answer of a Stop that finds its job ended is the copy made earlier; state and end time are out of date exactly when the job was Running at the copy, and then the answer says Running |
| RecordCauses.LateAnswerIsCurrentExactly | jobslib/jobslib.go:423-448 | that answer is what the record says, exit code, signal and messages included, if and only if neither a Stop nor the goroutine has updated the job since the copy |
| RecordCauses.StatesByCause | jobslib/jobslib.go:346-353 | a job is TerminatedByAPI if and only if a Stop has updated it, Completed if and only if its goroutine has and no Stop did, Running if and only if neither has |
| RecordCauses.StoppedOnce | jobslib/jobslib.go:443-504 | however many Stops race, at most one ever updates a job |
| RecordCauses.ChangedByUpdatesOnly | jobslib/jobslib.go:342-504 | between two states of a run a record differs, in any field, if and only if a Stop or the goroutine has updated it in between |
| RecordContents.RegisteredAsStarted | jobslib/jobslib.go:211-300 | what a Start registers, last in its client's list, is exactly the job it was begun for: its own client, command and arguments, the ID its directory was made for, PID, log and time of the process it started |
| StartCalls.NoOrphans | jobslib/jobslib.go:262-300 | every process is that of a registered job or of one Start call that is about to register it: no failed Start leaves a process behind, no two calls share one |
| StartCalls.StartFailsExactly | jobslib/jobslib.go:211-272 | in every reachable state a Start can fail if and only if it has not failed yet and has started no process |
| RecordContents.GoroutineWritesExactly | jobslib/jobslib.go:310-353 | field by field what the completion goroutine writes: exit code and signal of the process, the notes of a nil state, a failed wait and a failed removal, and, unless a Stop ended the job, state and time |
| RecordContents.StopWritesExactly | jobslib/jobslib.go:486-504 | field by field what Stop writes into the record, and that its copy gets the same but for its own, later, time |
| RecordContents.TimesAreOrdered | jobslib/jobslib.go:270-352 | no job ends before it starts, and no time in a record is still to come |
| StopLimits.StopCanAnswerRunning | jobslib/jobslib.go:443-448 | for every job and every way its process ends there is a run with such an answer while the record says Completed |
| StopLimits.KillReachesExactlyTheOwners | jobslib/jobslib.go:451-454 | the kill of a Stop reaches the live process if and only if it is made under the owner's name; under another name it succeeds and changes no process |
| OverrideStop.OnlyOwnersKill | jobslib/jobslib.go:451-477 | in every reachable state a live process that has been killed is being polled by a Stop in its owner's name, which holds the mutex |
| OverrideStop.PollingUnderAnotherName | jobslib/jobslib.go:465-477 | a Stop that polls under another name holds the mutex, and the process has not been killed by anybody |
| OverrideStop.OverridingStopWaits | jobslib/jobslib.go:451-477 | from an overriding Stop's kill of a live process until its poll ends the mutex is its own and the process is never marked killed; if the process ends, it ends by itself |
| OverrideStop.OverridingStopCanWait | jobslib/jobslib.go:433-477 | for every job and every other name there is a run with such a Stop polling a process that lives on |
| StopLimits.ExitCodeOfAStoppedJob | jobslib/jobslib.go:313-347 | once the goroutine has written, the exit code is -1 if and only if a signal ended the process |
| StopLimits.StoppedJobKeepsItsOwnExit | jobslib/jobslib.go:343-356 | for every way a process can end there is a run in which Stop answers -1 and SIGKILL and the record ends as TerminatedByAPI with that way's own code and signal |
| StopLimits.EndIsSet | jobslib/jobslib.go:350-353 | the end time is zero exactly while the state is Running |
| ProgressTheorems.NeverComesBack | jobslib/cgroups.go:380-404 | from the moment a job's ID exists, a directory of that job that is absent is absent in every later state, whatever Starts, Stops and goroutines do |
| ProgressTheorems.RmdirSucceedsOnce | jobslib/cgroups.go:397-401 | of all the goroutines and Stops that race to remove a job's directory at most one succeeds |
| ProgressTheorems.RemovedForGood | jobslib/cgroups.go:380-404 | once a removal in the owner's name has returned nil the directory is absent in every later state |
| ProgressTheorems.RemovalKillsNobody | jobslib/cgroups.go:380-404 | the kill a removal writes first reaches no process, whoever removes; a directory goes exactly at a removal step that works, and it is the job's under the remover's name |
| ProgressTheorems.GoroutineRemovesExactly | jobslib/cgroups.go:380-404 | when the completion goroutine notes a failed removal: exactly if a call fails or the directory it has seen is gone; a directory not there at its look is success |
| ProgressTheorems.RegistryAgrees | jobslib/jobslib.go:297-300 | in every reachable state each job sits at exactly one place of exactly one list, its owner's, under its own ID, and every listed ID is a job |
| ProgressTheorems.ProcOnlyFalls | jobslib/jobslib.go:313-333 | alive, zombie, reaped: no step of any thread takes a process back |
| ProgressTheorems.PollingStopIsServed | jobslib/jobslib.go:465-477 | while Stop polls with the mutex held, the step that brings the process nearer to reaped is enabled without the mutex; under the owner's name the process has been killed |
| Deadlock.HolderIsServedExactly | jobslib/jobslib.go:297-512 | whoever holds the mutex for writing can advance, by a step of its own or by the reap, or the end after a kill, of the process it polls, if and only if it is not a Stop polling a live process that nobody killed; that one overrides and is not in the owner's name |
| Deadlock.StuckUntilExit | jobslib/jobslib.go:465-477 | such a Stop keeps the mutex and stays stuck until its process ends by itself; till then nobody else gets the mutex |
| Deadlock.NoDeadlock | jobslib/jobslib.go:100-512 | unless the holder is so stuck, the wait of every unfinished call and goroutine ends at an actor that can be taken on: the holder, a reader that releases, a waiting writer that takes the free mutex, or itself; nobody need give up and no reader passes a waiting writer |
| JobModel.RegisterKeepsIndex | jobslib/jobslib.go:297-300 | entering a job into both maps keeps them in agreement |
| JobModel.ListedExactlyOnce | jobslib/jobslib.go:297-300 | agreement means one position in one list |
| Registry.NonInterference | jobslib/jobslib.go:365-545 | without administrators, which of a client's calls succeed and what they return, over any sequence of calls by anybody, is what it would be had nobody else ever had a job or made a call |
| Registry.OwnStep | jobslib/jobslib.go:380-392 | a client's own call is answered by, and acts on, the registry without the others' jobs as it does on the whole |
| Registry.OthersStep | jobslib/jobslib.go:297-300 | the others' calls leave no trace in the registry without their jobs |
| Registry.OnlyOwnJobs | jobslib/jobslib.go:433-447 | without override a call answers only with the caller's own job and changes no other client's record |
| Registry.StartAddsExactly | jobslib/jobslib.go:211-300 | a Start adds a job if and only if everything around it worked, name and command are not empty, and the record is that of a job of the caller's just begun; otherwise nothing changes |
| Registry.QueriesRefusedExactly | jobslib/jobslib.go:365-393 | Status and StreamOutputSetup are refused exactly when the context is done or the caller may not ask about the job, and otherwise answer with it |
| Registry.StopsRefusedExactly | jobslib/jobslib.go:399-511 | which Stops are refused, and what the others change and answer, for a job that has ended and for one that runs |
| Registry.CompletionOnlyItsJob | jobslib/jobslib.go:342-356 | a completion rewrites its own record and no other |
| Registry.StopEndsTheJob | jobslib/jobslib.go:399-511 | a Stop that answers leaves the job ended and answers with what the record then says, up to the reading of the clock; no other job changes, and none at all when it refuses |
| Registry.SanityIsExact | jobslib/jobslib.go:194-207 | the check of a call's arguments turns away exactly the calls that no registry could answer |
| Registry.StopIsIdempotent | jobslib/jobslib.go:443-448 | whatever happens between two Stops of a job that had not completed by itself, the second changes nothing and answers TerminatedByAPI with the end time recorded; it is the first answer, up to the reading of the clock, if and only if the goroutine's update did not come in between |
| Registry.StoppedStays | jobslib/jobslib.go:346-353 | what any sequence of events leaves of a stopped job: state, end time and owner, and exactly whether it is unchanged |
| Registry.StopsOfAnEndedJob | jobslib/jobslib.go:443-448 | two Stops of a job that had already ended, with no completion in between, give the same answer |
| Linearization.RunIsAtomic | jobslib/jobslib.go:211-546 | the registry of every reachable state is what the atomic calls of the run so far, each at one of its steps, make of the empty one; no ID is registered twice |
| Linearization.StepApplied | jobslib/jobslib.go:211-546 | each step does to the two maps what its atomic call does, or nothing |
| Linearization.ReaderAnswersAtItsCopy | jobslib/jobslib.go:365-393 | a Status or StreamOutputSetup answers, job or refusal, what the atomic call answers at the step at which it copied |
| Refusals.FindRefusesUnknownIds | jobslib/jobslib.go:99-109 | a call is refused where it looks for its job if and only if no job has the ID, and there the atomic call is refused too; otherwise it goes on to the copy |
| Refusals.FailedExactly | jobslib/jobslib.go:365-545 | a call of any of the three kinds has failed if and only if one of its steps turned it away: its arguments, context or client directory, an unknown ID, another's job, a failed kill, or a failed removal |
| Refusals.GivesUpExactly | jobslib/jobslib.go:365-419 | in every reachable state a call can give up, for its arguments, its client directory or its context, if and only if it is outside the mutex and, being a Status or a Stop, has no copy yet |
| Refusals.ReaderAnswersItsCopy | jobslib/jobslib.go:374-392 | from its copy on a Status is bound to answer with it, or to be refused as somebody else's; a StreamOutputSetup can still be cancelled |
| Refusals.OwnersMayAsk | jobslib/jobslib.go:194-208 | the checks of the arguments never stand between an owner and a registered job |
| Linearization.StopAnswersAtItsUpdate | jobslib/jobslib.go:486-511 | a Stop that updates answers what the atomic Stop answers at that step |
| Linearization.LateStopAnswersAtItsCopy | jobslib/jobslib.go:423-448 | a Stop that finds nothing to do answers what the atomic Stop answers at its copy if and only if the job was another's or had ended there; otherwise its answer is the atomic Stop's at no moment up to the check |
| Linearization.LateStopAnswersLikeAStatus | jobslib/jobslib.go:423-448 | in every case its answer is the atomic Status's at its copy |
| Linearization.NobodySeesTheOthers | jobslib/jobslib.go:365-545 | in every run without override, however calls interleave, the atomic calls of a client are answered as they would be had nobody else made any |
| Registry.CallsKeepAgreement | jobslib/jobslib.go:297-300 | every sequence of calls keeps the job map and the lists in agreement |
| JobsLib.Job.Complete | jobslib/jobslib.go:346-353 | the goroutine's writes, field by field, are the completion of the record |
| JobsLib.Job.MarkStopped | jobslib/jobslib.go:489-504 | Stop's writes, field by field, are the stopping of the record |
| JobsLib.JobsLib.FindJobByJobID | jobslib/jobslib.go:89-109 | finds the job exactly when the ID is not empty, known and the context live |
| JobsLib.JobsLib.DeepCopyJobFromPointer | jobslib/jobslib.go:113-146 | the copy is equal to the job and has a fresh argument array, filled element by element |
| JobsLib.JobsLib.Start | jobslib/jobslib.go:211-300 | succeeds if and only if everything around it worked and name and command are not empty; then registers the job with exactly the effect specified, keeping the caller's array; otherwise leaves both maps as they were |
| JobsLib.JobsLib.Register | jobslib/jobslib.go:299-300 | enters the job in the map and at the end of its owner's list, keeps both in agreement and changes no other entry |
| JobsLib.JobsLib.CompleteJob | jobslib/jobslib.go:342-356 | the locked update rewrites this record as specified and no other |
| JobsLib.JobsLib.Status | jobslib/jobslib.go:365-393 | answers as specified, with a copy that shares nothing |
| JobsLib.JobsLib.StreamOutputSetup | jobslib/jobslib.go:516-546 | answers as specified, with a copy that shares nothing |
| JobsLib.JobsLib.StopTarget | jobslib/jobslib.go:399-448 | which job a Stop may work on, and whether there is anything to do |
| JobsLib.JobsLib.WaitUntilGone | jobslib/jobslib.go:465-477 | for any probes, polling ends at the first that no longer finds the process, and goes on as long as there is none |
| JobsLib.JobsLib.RecordStop | jobslib/jobslib.go:486-504 | updates the live job and the copy, each with its own reading of the clock, and no other job |
| JobsLib.JobsLib.Stop | jobslib/jobslib.go:399-512 | changes the registry and answers exactly as specified, in every case, except exactly while it is still polling, when it has changed nothing |
| JobsLib.TamperWithCopies | jobslib/jobslib.go:127-146 | no sequence of writes to arrays of returned jobs changes the registry |
| JobsLib.AskTamperAsk | jobslib/jobslib.go:362-365 | a caller that writes into an answer and asks again gets the registered job |
| Sessions.RunSession | jobslib/jobslib.go:365-546 | over any sequence of Status, Stop and StreamOutputSetup calls and writes into returned jobs, the registry is what the calls alone make of it, and each copy is what the caller holds |
| Sessions.AnswerAndOwnWrites | jobslib/jobslib.go:127-146 | what is held of a call is its answer with the writes into that answer and no others |
| Sessions.CallsAlone | jobslib/jobslib.go:127-146 | writes leave no trace in the registry |
| JobsLib.StartKeepsTheArray | jobslib/jobslib.go:283-292 | the exception: a later write to the array given to Start shows in the registered job |
| StreamOutput.StreamFinished | api/server/server_impl.go:181-224 | the loop of the finished-job branch, over its reused buffer, does what its specification says for every sequence of turns |
| StreamOutput.AwaitBytes | api/server/server_impl.go:234-242 | the inner loop ends with the first bytes read, or without any when no watcher is at work, keeping the error of the last read |
| StreamOutput.StreamLive | api/server/server_impl.go:226-269 | the same for the loop of the running-job branch |
| StreamSpec.FinishedIsExactPrefix | api/server/server_impl.go:181-224 | at every loop head and every exit the chunks sent are exactly the log up to the position reached, in pieces of 1 to 1024 bytes, and a chunk read but not sent is the next stretch of it |
| StreamSpec.LiveIsExactPrefix | api/server/server_impl.go:226-269 | the same for the running-job branch, against a writer that keeps appending |
| StreamTurns.ReadAtContract | api/server/server_impl.go:199-201 | what a read gets and which error it has: filled and none, end of file, or another |
| StreamTurns.FinishedByTurns | api/server/server_impl.go:181-224 | the finished-job branch turn by turn: which turns go round, what the one that ends it makes of it, and the exact outcome, chunks, position and unsent bytes |
| StreamTurns.FinishedSends | api/server/server_impl.go:206-211 | each chunk counted as sent was read by a turn whose Send worked; the call fails on a Send if and only if the turn that ends it read bytes and its Send failed, and is cancelled if and only if that turn found the context done |
| StreamSpec.FinishedAsWritten | api/server/server_impl.go:199-221 | as written one undisturbed read decides: nil exactly for a log shorter than 1024 bytes, otherwise an error that is nil after the first 1024 bytes |
| StreamSpec.RepairedDeliversAll | api/server/server_impl.go:199-222 | repaired, an n-byte log is delivered whole after exactly floor(n/1024)+1 reads and in ceil(n/1024) sends |
| StreamSpec.RepairedFrom | api/server/server_impl.go:199-222 | the same from any position |
| StreamTurns.AwaitByReads | api/server/server_impl.go:234-242 | what comes out of the inner loop, read by read: all but the last got nothing, and the error is that of the last, or the one it was entered with |
| StreamTurns.LiveByTurns | api/server/server_impl.go:226-269 | the running-job branch turn by turn, as for the other |
| StreamTurns.LiveEndsExactly | api/server/server_impl.go:226-269 | exactly when it is cancelled, fails on a read, is Complete, or fails on a Send; each chunk counted as sent was read by a turn whose Send worked |
| StreamTurns.ErrorOfTheLastRead | api/server/server_impl.go:235-255 | the error that enters a turn is that of the last read of the call, whatever was sent since |
| StreamTurns.EofThenIdle | api/server/server_impl.go:235-254 | the ordinary end: once all of the log up to end of file is sent, the call is Complete if and only if a later turn finds WatcherLock free |
| StreamTurns.ShortLogThenIdle | api/server/server_impl.go:235-254 | the simplest such call, in full |
| StreamSpec.CompleteLosesLessThanAChunk | api/server/server_impl.go:226-269 | of every call that succeeds, whatever its turns: the log as it last saw it is what it sent followed by what it read and did not send, which is less than 1024 bytes; the log was delivered whole if and only if that is nothing |
| StreamSpec.TailSentExactly | api/server/server_impl.go:243-268 | the step behind it: bytes read together with the end of the file are sent if and only if a watcher is still found at work |
| StreamSpec.TailCanBeLost | api/server/server_impl.go:249-254 | a one-byte log whose only byte is never sent |
| StreamSpec.IdleTurnsExactly | api/server/server_impl.go:235-255 | over any turns whose first TryLock succeeds nothing is read or sent: with another error the call fails, with end of file it ends once the second TryLock succeeds too, without an error it never ends |
| StreamSpec.SpinsWithoutWatcher | api/server/server_impl.go:235-255 | with the watcher gone for good the loop spins if and only if the error it is entered with is nil; otherwise it returns, with success at end of file |
| StreamSpec.SpinsOnEntry | api/server/server_impl.go:174-243 | the failing input: the loop's first entry, where the error is the nil left by opening the file, so that nothing of any log is ever sent |
| StreamSpec.SpinsAfterAFullChunk | api/server/server_impl.go:235-268 | the other failing input: after a read that filled the buffer, whatever is left of the log |
| InotifyEvents.HeaderRoundTrip | jobslib/watcher.go:131-146 | mask and length read at the head of a laid-out record are the event's |
| InotifyEvents.U32RoundTrip | jobslib/watcher.go:131-146 | a 32-bit field is read back as it was laid out, wherever it sits |
| InotifyEvents.EncodeAllSplit | jobslib/watcher.go:125-148 | a buffer of records splits at every event boundary |
| InotifyEvents.EncodeAllInjective | jobslib/watcher.go:125-148 | the bytes of a buffer determine the events in it, so the walk's result is a function of the bytes |
| InotifyEvents.CloseBit | jobslib/watcher.go:132 | bit 3 of the mask reports the close, whatever the other bits |
| InotifyEvents.FirstClose | jobslib/watcher.go:132-142 | the position of the first event that reports the writer's close |
| Watcher.RecordAt | jobslib/watcher.go:126-147 | at each true boundary there is room for a header, it is the event's, and the next boundary is where the walk's arithmetic puts it, without wrapping |
| Watcher.WalkBuffer | jobslib/watcher.go:126-148 | the walk sees exactly the events up to the first close, each at its true boundary and in bounds, and makes 2k+12 broadcasts if that is event k, else one per event |
| Watcher.WatchLoop | jobslib/watcher.go:93-149 | over a buffer that keeps old bytes: the loop ends at the first turn that is cancelled, an empty read, or a read with a close, with that turn's exit, and goes on through all others; it broadcasts once for each event of the turns before, and 2k+12 times for a close at place k |
| Watcher.WaitForFile | jobslib/watcher.go:16-46 | ends at the first cycle that is cancelled or does not find the file missing, and gives up at cycle 200, that is after 199 looks |
| WatchLocks.RunKeepsInv | jobslib/watcher.go:73-108 | in every run the holder recorded for each lock is exactly the actor whose program position says so |
| WatchLocks.OneWatcherAtATime | jobslib/watcher.go:73-83 | while a watcher is in its region nobody else has WatcherLock |
| WatchLocks.ReleasedByItsHolder | api/server/server_impl.go:234-255 | no step releases or passes on a lock for somebody else |
| WatchLocks.NoCircularWait | api/server/server_impl.go:234-255 | waiting for WatcherLock and for the lock of the condition variable is never circular; no chain has more than two waits |
| WatchLocks.HoldersOfLAreNotBlocked | jobslib/watcher.go:105-108 | in every run, whoever holds the condition variable's lock waits for no lock; a watcher that does is in the inotify read and waits only for the kernel |
| Wakeups.WakeupLostExactly | jobslib/watcher.go:75-78 | a sleeping reader failed its TryLock at a step n and joined the list at a step j; it is on the list if and only if nobody has broadcast since j; if so with no watcher left, the holder of WatcherLock at n was a reader, or a watcher whose last broadcast lies strictly between n and j |
| Wakeups.WokenUnlessAllGone | jobslib/watcher.go:73-148 | the actors present can still empty the list a sleeper is on if and only if some watcher is not gone, wherever that watcher is in its course |
| Wakeups.WakeupCanBeLost | jobslib/watcher.go:77-78 | one cause: a run in which the watcher's last broadcast falls between a reader's TryLock and its Wait |
| Wakeups.ReaderCanCostAWakeup | api/server/server_impl.go:236-255 | the other cause: a run in which a reader's TryLock fails on another reader's second TryLock, after the last broadcast |
| Wakeups.SleepsOn | jobslib/watcher.go:77-78 | a reader on the list with no watcher left sleeps until another watcher starts |
| Wakeups.RestExactly | jobslib/watcher.go:73-148 | no watcher or reader present can move if and only if every watcher is gone and every reader has returned or sleeps on a lost wakeup |
| Wakeups.SuccessMeansWatcherDoneExactly | api/server/server_impl.go:249-254 | when a reader's second TryLock succeeds no watcher is in its region; that a given watcher is done follows if and only if it had its turn before |
| Wakeups.StreamCanEndBeforeItsWatcherBegins | api/server/server_impl.go:249-254 | a run in which a stream ends in the gap between another job's watcher and its own, which only then begins |
| Cgroups.CgroupFs.SetupClient | jobslib/cgroups.go:118-141 | a client step works exactly when its calls do; what it leaves of the client's directory, the one it touches, after every pattern of failures, the directory taken back included |
| Cgroups.CgroupFs.Verify | jobslib/cgroups.go:172-215 | the final check passes exactly when every name is non-blank, every directory there and every stat works |
| Cgroups.CgroupFs.Setup | jobslib/cgroups.go:87-168 | returns nil exactly when the list is non-empty without blank names and every call works, and then every listed directory exists; a failed client step is rolled back whole if the cleanup works, and it works if that failure is the only one, the list has no empty name and nothing else was below the jobmaster directory; nothing outside the subtree changes |
| Cgroups.CgroupFs.TeardownClient | jobslib/cgroups.go:234-277 | removes at most the client's directory and its direct children, and all of them when no call fails |
| Cgroups.CgroupFs.Teardown | jobslib/cgroups.go:220-292 | returns nil exactly when every call works and the list has no empty name and covers what is below the jobmaster directory; then the whole subtree is gone, and in no case anything else |
| Cgroups.CgroupFs.CreateJobCgroup | jobslib/cgroups.go:299-348 | exactly when it succeeds and exactly when it makes the directory, which a failed limit leaves behind |
| Cgroups.CgroupFs.WriteLimits | jobslib/cgroups.go:320-345 | the four limits are written, in their order, up to the first write that fails, and success means all four |
| Cgroups.CgroupFs.TerminateJob | jobslib/cgroups.go:351-375 | makes the one kill write if both names are given, and succeeds exactly when it does not fail; a missing kill file is success |
| Cgroups.CgroupFs.RemoveJobCgroup | jobslib/cgroups.go:380-404 | exactly when removal succeeds; an absent directory is success |
| Cgroups.RunJobs | jobslib/cgroups.go:299-404 | any job operations, failing or not, change only job directories of set-up clients; when no call fails each does its work |
| Cgroups.SetupAndRun | jobslib/cgroups.go:87-168 | from a tree without the jobmaster directory, a successful setup and any job operations leave exactly the set-up clients and jobs of theirs below it; a cleaned-up setup leaves the tree as it was |
| Cgroups.TeardownServing | jobslib/cgroups.go:220-292 | the teardown of a set-up hierarchy returns nil if and only if its list covers the clients, has no empty name, and none of its own calls fails |
| Cgroups.SetupRunTeardown | jobslib/cgroups.go:87-292 | setup, any job operations and a teardown that returns nil restore the tree exactly |
| Cgroups.OrderDoesNotMatter | api/authz/authz.go:51-61 | lists with the same members, in any order and with any repetition, make the same tree when both setups work and leave the same tree when both teardowns do; when no call fails they do the same in any case |
| CgroupTree.NoMainDirNoSubtree | jobslib/cgroups.go:287-288 | with the jobmaster directory gone, nothing is left below it |
| CgroupTree.AllWasCleared | jobslib/cgroups.go:224-288 | if the jobmaster directory could be removed, all that was below it belonged to listed clients |
| CgroupTree.CoversLayout | jobslib/cgroups.go:231-288 | a list clears the tree exactly when it names every set-up client |
| CgroupTree.BlankExactly | jobslib/cgroups.go:198 | a name is refused as blank if and only if trimming leaves nothing of it |

## Left out

- gRPC, TLS, certificates and interceptors: the caller's name and role are inputs.
- Real processes, resource limits, inotify delivery and file descriptors: steps of the environment.
- The device ID pattern, `JobState.String`, `RoleStrToRole`'s letter case, log messages and error texts; `Mesg` is a sequence of notes.
- Integer width of PIDs, times and positions: only the watcher's 32-bit offset is modelled as such.
- Priority of waiting writers in the read-write mutex: a reader may take it past a waiting writer, which only allows more runs; Deadlock.NoDeadlock does without such steps.
- Liveness of the running-job branch: false as written, see StreamSpec.TailCanBeLost and StreamSpec.SpinsWithoutWatcher; prefix safety is proved instead.
- The process-wide teardown inside a run of jobs: JobLifecycle keeps the client directories throughout.
- Names with path separators or the components `.` and `..`, and white space beyond ASCII.
- JobsLib.JobsLib.Start: does not start the process or make its directory; it is the checks and the registration, given an ID and a process.
- JobsLib.JobsLib.Stop: taken without interleaving, with the outcomes of the kill and the removal as inputs; the interleavings are in JobLifecycle.
- JobsLib.JobsLib.WaitUntilGone: says nothing of how long the process takes to go, since nothing in the code bounds the wait.
- Deadlock.NoDeadlock: says that a step exists, not that the scheduler takes it.
- Registry.NonInterference: refusals carry no text; the code's errors do, and tell an unknown ID from another client's job.
- Linearization.ReaderAnswersAtItsCopy: a StreamOutputSetup whose context ends between its copy and its return fails on its own account.
