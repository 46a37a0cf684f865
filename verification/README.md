# Verification of the record-replay scheduler

A program that is instrumented for record-replay runs under a controlled scheduler: every thread announces its next
visible instruction (a memory access, a lock operation, a spawn or a join), waits until it is given the turn, executes
the instruction and goes on to the next one. The scheduler records the states and instructions it sees, and can drive
a later run by a recorded schedule. This project models that protocol and the text form of recorded executions, and
proves that they do what they are for. `dafny verify dfyconfig.toml` checks all of it.

## What is modelled

**The task pool and its parts.** `PoolSpec.dfy` says as functions on values what each critical section of the pool
makes of the posted instructions, thread statuses, waitsets, mutex bits and join requests, exceptions included. The
classes in `ObjectState.dfy`, `TaskPool.dfy` and `Execution.dfy` do the same in place, in the form of the original,
and each method is proved to have the effect of its function.

**The threads.** `System.dfy` is a transition system over an arbitrary deterministic program: each thread has a local
state, there are a shared memory and real owners of mutexes, and each critical section (execute, register a child,
create the next instruction, yield, post, finish) is one atomic step. A post that throws is a step too: it leaves its
task in the pool and notifies nobody, and its thread takes no further step. `Runs.dfy` adds the scheduler's loop: a
run is any interleaving of sections of threads and rounds of the loop, with any schedule and any strategy.
`Handshake.dfy` refines it by the two waits of the protocol: each thread has a binary semaphore, is on its way to it
after its post or blocked there, and may be signalled in either place; the scheduler falls asleep on a condition
variable and is notified by posts, unless they throw, and by finishes. `Scheduler.dfy` is the scheduler and its
threads as a class that calls the pool, the execution and the thread handles of `ControllableThread.dfy`;
`Scheduler.Run` shows that everything it does is a run of that system, and that every call meets what the pool asserts
of its callers.

**The program.** `Programs.dfy` has the program without a scheduler: where its threads are, the memory and the holders
of its mutexes, and what an instruction makes of them. The instructions that are posted and recorded are compared with
it.

**The text form.** `Tokens.dfy` and `Readers.dfy` describe formatted input and output of words and numbers, with the
widths of the original's integers; `StateTexts.dfy` and `RecordTexts.dfy` say what is printed and what a text is read
as; `RecordPrinter.dfy` and `RecordReader.dfy` are the printers and readers on streams, with the fail bit.
`WrittenTexts.dfy` has the texts letter by letter, `CutTexts.dfy` what is read of a text that breaks off.

## Two kinds of invariants

`Base.Inv` holds along every run of every program. `Discipline.Strict` adds that the incrementally patched statuses
are right and that the pool's bit of a mutex is the real state of the mutex; it holds along the runs of programs that
use an address either as a mutex or as memory, unlock only mutexes they hold, and in which a thread joins another one
at most once (`Discipline.MayCreate`).

## What turned out not to hold, and exactly when it does

- ENABLED stops meaning runnable in two ways. Those who are waiting on an object are treated right after an Unlock,
  after a Lock exactly if all of them want to lock (`set_status_of_waiting_on` also hits a pending Unlock or memory
  access), and after an access exactly if they were before (`Discipline.YieldFitsWaitersIff`). Those who post next
  are treated right exactly if a lock operation was yielded, or the parity of the access agrees with the mutex,
  since an access sets the same bit (`Discipline.YieldFitsPostersIff`). `Yields.TurnFitsIff` says the same of a
  whole turn, from one scheduling point to the next, for every program. In `Witnesses.UnlockByOther` and
  `Witnesses.AccessToMutex` a deadlock is reported although the pending instruction would not block.
- A post throws exactly on a second join of the same thread by the same thread, because join entries are never
  cleared (`Base.OnlySecondJoinThrows`). The task has been inserted by then, with a stale status, and the scheduler
  is not notified: it can sleep on although every unfinished thread has posted exactly when a post has just thrown
  (`Handshake.WakeupIsLostIff`, `Handshake.LostForever`), and no wakeup is lost otherwise. A scheduler that is awake
  takes the thread to be enabled, and a turn it gives it is never taken (`SecondJoins.ThrownLeavesTask`,
  `SecondJoins.TurnIsLost`); a run in which a post has thrown never ends DONE or in a deadlock
  (`SecondJoins.ThrownNeverDone`). The runs are `Witnesses.SecondJoin` and `Witnesses.LostTurn`.
- Two threads' sections commute exactly if not both of them take a fresh identifier (`Confluence.StepsCommute`,
  `Witnesses.TwoSpawners`). A round has only one end exactly if not both a spawner and the thread it has just
  spawned spawn next (`SchedulingPoint.RoundIsConfluent`, `Witnesses.TwoEnds`). The schedule of a run that ended
  repeats it, whatever the timing, exactly if after no Spawn in its record both of them have a Spawn pending
  (`ReplayLimits.ReplayIsFaithfulIff`).
- The list of data races is right exactly if the visitor is called on the alternative, or there is no race to be
  found. The pool calls it on the variant, which selects the overload that finds nothing (`Races.ListIsRightIff`,
  `Witnesses.LostRace`). The model has the choice as a parameter, `Dispatch`; `Scheduler` uses the code's. The
  visitor asserts that only memory accesses wait on the object, which is so exactly if no lock operation on it is
  posted (`Races.VisitorMayAssumeIff`); the model passes over the others.
- On a deadlock one transition is recorded that was never executed. A run driven by the complete schedule of such a
  record is bounded, can go on until it ends, and ends in ERROR; without the last entry it ends in the same deadlock
  (`Replay.FullScheduleOfDeadlock`, `Replay.ReplayOfDeadlock`, `Witnesses.DeadlockIsNoReplay`).
- An execution that is printed and read into an empty one is restored exactly if every file name in it is one word,
  and it has a transition or is RUNNING: without a transition the reader looks for one before it looks for the
  status again (`RecordTexts.RestoredIff`, `RecordTexts.RoundTrip`, `RecordTexts.EmptyExecutionIsLost`,
  `RecordTexts.SpacedNameIsLost`).
- `pop_last` undoes `push_back` exactly if the instruction did not introduce a thread, because the set of threads is
  not taken back (`ExecutionRecord.PopUndoesPush`, `ExecutionRecord.PopKeepsThread`).
- An execution that is closed has a transition, as `Execution::last` asserts, exactly if a turn was taken or a
  deadlock is reported: not if the main thread has no visible instruction, or the first thread asked for is refused
  (`Accounting.EmptyAtClose`).

## Model

| member | source | states |
|---|---|---|
| ObjectState.ObjectState.Request | src/scheduler/object_state.cpp:65-91 | a request joins the waitset of its parity, or throws if the thread waits there already; it is refused only to a Lock on a locked object |
| ObjectState.ObjectState.Perform | src/scheduler/object_state.cpp:95-111 | the thread leaves the first waitset it is in and the bit becomes that waitset's parity; throws if it is in none |
| PoolLaws.ObjectsRemember | src/scheduler/object_state.cpp:65-111 | after any sequence of requests and performances the waitsets hold exactly what was asked for and not performed, and the bit is the parity performed last |
| PoolLaws.CallsThrowIff | src/scheduler/object_state.cpp:65-111 | when a request throws, when a performance throws, and when a request is refused, after any sequence of calls |
| ObjectState.GetDataRaces | src/scheduler/object_state.cpp:25-51 | each waiting instruction that conflicts with the new one, once, and no other |
| TaskPool.ThreadState.Request | src/scheduler/thread_state.cpp:25-41 | a join request is kept, throws if repeated, and is granted if the thread has finished |
| TaskPool.TaskPool.RegisterThread | src/scheduler/task_pool.cpp:23-31 | a new thread starts in START, an old one keeps its status and its join requests |
| PoolLaws.RegisterIs | src/scheduler/task_pool.cpp:23-31 | a new thread starts in START with nobody waiting for its end, and nothing else changes, also if a thread is registered again |
| TaskPool.TaskPool.UpdateObjectPost | src/scheduler/task_pool.cpp:265-295 | the request on the object or thread, the races added, and what is left behind when it throws |
| TaskPool.TaskPool.Post | src/scheduler/task_pool.cpp:35-46 | the whole state after a post, with the status the posting thread gets, or after one that throws |
| TaskPool.TaskPool.Yield | src/scheduler/task_pool.cpp:50-58 | nothing for a thread that is not current; else the request is performed and the statuses of those waiting are patched after a lock operation |
| PoolLaws.YieldIs | src/scheduler/task_pool.cpp:299-328 | a Lock disables everybody who still waits on the mutex, an Unlock enables them, an access changes no status, and a thread that is not current changes nothing |
| TaskPool.TaskPool.SetStatusOfWaitingOn | src/scheduler/task_pool.cpp:321-328 | the members of both waitsets get the status, nobody else |
| TaskPool.TaskPool.Finish | src/scheduler/task_pool.cpp:62-79 | those who asked to join are enabled and the thread is FINISHED; throws for a thread that is not registered |
| PoolLaws.FinishIs | src/scheduler/task_pool.cpp:62-79 | the end of a thread enables exactly those who have asked to join it |
| TaskPool.TaskPool.UnfinishedThreadsHavePosted | src/scheduler/task_pool.cpp:88-91 | the condition of the wait holds exactly if every registered thread has finished or posted |
| TaskPool.TaskPool.WaitUntilUnfinishedThreadsHavePosted | src/scheduler/task_pool.cpp:83-94 | the wait returns if its condition holds, and blocks otherwise |
| TaskPool.TaskPool.SetCurrent | src/scheduler/task_pool.cpp:110-119 | the posted instruction becomes the current one and is no longer posted |
| TaskPool.TaskPool.EnabledSet | src/scheduler/task_pool.cpp:185-194 | exactly the registered threads whose status is ENABLED |
| TaskPool.TaskPool.CurrentState | src/scheduler/task_pool.cpp:219-234 | the posted instructions, each with whether its thread is enabled, and the set of those that are |
| ExecutionRecord.Execution.PushBack | src/program-model/execution.cpp:149-165 | a transition with the next index from the final state is appended, the operand of a Spawn is added to the threads and nobody else, and a lock operation is noted |
| ExecutionRecord.Execution.PopLast | src/program-model/execution.cpp:169-176 | the last transition is returned and removed |
| ExecutionRecord.PushBackChains | src/program-model/execution.cpp:149-165 | indices count from 1, each transition starts where the one before ended, and the threads are 0 and those spawned |
| ExecutionRecord.ThreadsIff | src/program-model/execution.cpp:157-164 | the threads of a record are the main thread and the operands of its Spawns |
| Programs.ThreadsOfRecord | src/scheduler/scheduler.cpp:332-381 | at the end of a run the threads of the record are those the pool has registered: the main thread and the operands of the executed Spawns |
| ExecutionRecord.PopUndoesPush | src/program-model/execution.cpp:149-176 | pop_last restores the execution exactly if the instruction introduced no thread |
| ExecutionRecord.PopKeepsThread | src/program-model/execution.cpp:169-176 | taking back the first Spawn leaves its thread in the set of threads |
| ExecutionRecord.SetLastPostChains | src/scheduler/scheduler.cpp:443-450 | setting the last state keeps the chain |
| ControllableThread.ControllableThread.EnterFunction | src/scheduler/controllable_thread.cpp:36-43 | the function is put on the call stack |
| ControllableThread.ControllableThread.ExitFunction | src/scheduler/controllable_thread.cpp:47-60 | the function on top is taken off, reported as finished if it was the last, invalid if another one is on top |
| Handshake.SignalIsTheTurn | src/scheduler/controllable_thread.cpp:64-70 | a signal is set exactly from the grant of the turn to the resumption of its thread, whether the thread is still on its way to the semaphore or blocked there; at most one thread is signalled, that of the current instruction |
| Handshake.NoSignalIsLost | src/scheduler/controllable_thread.cpp:24-32 | every grant is answered by exactly one resumption, but for the one that is pending |
| Handshake.ErrorReleasesAll | src/scheduler/scheduler.cpp:433-441 | after an error every registered thread has a handle and is signalled until it has left its semaphore |
| Handshake.ErrorLetsGo | src/scheduler/scheduler.cpp:433-441 | after an error every registered thread can leave its semaphore, whether it has reached it or not |
| Handshake.EndSignalsNobody | src/scheduler/scheduler.cpp:433-457 | when a run has ended DONE or in a deadlock nobody is signalled |
| Handshake.WakeupIsLostIff | src/scheduler/task_pool.cpp:35-46 | the scheduler can be asleep while every unfinished thread has posted exactly if the last section was a post that threw |
| Handshake.NoWakeupIsLost | src/scheduler/task_pool.cpp:83-94 | if no post has thrown, the scheduler never sleeps while every unfinished thread has posted |
| Handshake.LostForever | src/scheduler/task_pool.cpp:83-94 | once a wakeup is lost, nothing is possible but that threads reach their semaphores |
| Handshake.NothingIsHeldUp | src/scheduler/controllable_thread.cpp:24-32 | what the protocol allows is possible once the thread has reached its semaphore and taken its signal, if no wakeup is lost |
| Handshake.ProceedsIff | src/scheduler/task_pool.cpp:83-94 | the waits hold up what the protocol allows exactly if it is a round of the scheduler whose wakeup is lost |
| Handshake.FineRunsAreRuns | src/scheduler/scheduler.cpp:220-239 | without the events of the waits, a run is a run of the transition system in the same state |
| Handshake.RunsAreFineRuns | src/scheduler/scheduler.cpp:220-239 | every run of the transition system is one of the system with the waits |
| ControllableThread.FinishedIffNested | src/scheduler/controllable_thread.cpp:36-60 | a thread is reported as finished exactly when its calls and returns are well nested |
| ControllableThread.InvalidIffNotNested | src/scheduler/controllable_thread.cpp:47-60 | a return is refused exactly when the calls and returns cannot be continued to well nested ones |
| Scheduler.Scheduler.Execute | src/scheduler/scheduler.cpp:220-239 | when post_task returns, the thread executes exactly the instruction it posted |
| Scheduler.Scheduler.RegisterThread | src/scheduler/scheduler.cpp:72-92 | the child is registered under the identifier its creator took, and gets a handle |
| Scheduler.Scheduler.CreateInstruction | src/scheduler/scheduler.cpp:96-153 | the next instruction is made, for a Spawn with a fresh identifier taken at this moment |
| Programs.RunsSay | src/scheduler/scheduler.cpp:96-153 | in every run what a thread has created, posted or been given the turn for is the next instruction of the program in its local state: kind, operation, address, atomicity, thread joined and meta data, under its own identifier |
| Programs.PostedIsNext | src/scheduler/scheduler.cpp:96-153 | every instruction in the pool is the next one of its thread |
| Programs.RecordsAreExecutions | src/scheduler/scheduler.cpp:332-381 | in every run the executed transitions are an execution of the program, Locks on free mutexes and Joins of ended threads only; every recorded state shows exactly the threads that have a next instruction, and that instruction; memory, mutexes and threads are where the program is |
| Programs.DoneIsTheEnd | src/scheduler/scheduler.cpp:346-364 | a DONE run has executed the program to its end |
| Scheduler.Scheduler.Yield | src/scheduler/scheduler.cpp:220-239 | the first section of a post: the instruction before is yielded, and the yield does not throw |
| Scheduler.Scheduler.PostTask | src/scheduler/scheduler.cpp:220-239 | the second section: the instruction is posted, and the thread is on its way to its semaphore; or the post throws, the task stays, and nobody is notified |
| Scheduler.Scheduler.Arrive | src/scheduler/controllable_thread.cpp:24-32 | the thread reaches its semaphore, signalled or not |
| Scheduler.Scheduler.Resume | src/scheduler/controllable_thread.cpp:24-32 | a thread that is at its semaphore and signalled goes on and takes the signal |
| Scheduler.Scheduler.GrantExecutionRight | src/scheduler/controllable_thread.cpp:64-70 | the thread is signalled, wherever it is |
| Scheduler.Scheduler.Finish | src/scheduler/scheduler.cpp:167-190 | the outermost return finishes the thread in the pool |
| Scheduler.Scheduler.Select | src/scheduler/selector.hpp:80-106 | the schedule as far as it goes, then DONE without posted instructions, a deadlock without enabled threads, else the strategy |
| Scheduler.Scheduler.ScheduleThread | src/scheduler/scheduler.cpp:404-418 | an enabled thread gets the turn and its signal, and nothing changes for another one |
| Scheduler.Scheduler.Record | src/scheduler/scheduler.cpp:336-345 | the execution is created with the first state, later extended by the instruction that ran last |
| Scheduler.Scheduler.Close | src/scheduler/scheduler.cpp:433-457 | after an error all threads are signalled; the last state is set once more, and the status |
| Scheduler.Scheduler.Round | src/scheduler/scheduler.cpp:338-381 | one round of the loop, with all its outcomes; after an error every registered thread is signalled |
| Scheduler.Scheduler.Run | src/scheduler/scheduler.cpp:332-382 | with any interleaving of the sections and waits of the threads, what the loop does is a run of the system with the waits |
| Scheduler.Control | src/scheduler/scheduler.cpp:56-61 | a program under a new scheduler of its own: what happens is a run of the system with the waits |
| Base.StepKeepsInv | src/scheduler/task_pool.cpp:23-79 | every section of every thread of every program keeps: waitset i of x holds exactly the pending requests on x of parity i, the pool knows who has posted and finished, only the thread with the turn and its child are at work, join requests are pending or stale, identifiers are conserved |
| Base.InitialInv | src/scheduler/scheduler.cpp:72-92 | the invariant holds when the main thread has been registered |
| Base.WaitsetAfterPost | src/scheduler/object_state.cpp:65-76 | a post changes the waitset of its operand and parity, and no other |
| Discipline.StepKeepsStrict | src/scheduler/task_pool.cpp:265-328 | for programs that use mutexes and joins as intended every section also keeps: the patched status is right for every posted instruction, and the bit of a mutex is its real state |
| Discipline.YieldFitsWaitersIff | src/scheduler/task_pool.cpp:299-328 | after the yield of any instruction on an object the statuses of those waiting on it fit exactly if it was an Unlock, a Lock with only Locks waiting, or an access and they fitted before |
| Discipline.YieldFitsPostersIff | src/scheduler/task_pool.cpp:299-316 | after the yield those who post next get the right status exactly if it was a lock operation or its parity agrees with the mutex |
| Discipline.YieldIndexesTasks | src/scheduler/task_pool.cpp:299-328 | at every yield of every program the waitsets hold the posted tasks and the current one, so that both apply |
| Confluence.PostPost | src/scheduler/task_pool.cpp:35-46 | two posts of different threads commute |
| Confluence.PostFinish | src/scheduler/task_pool.cpp:35-79 | a post commutes with the end of another thread, also if it posts the join of that thread |
| Confluence.FinishFinish | src/scheduler/task_pool.cpp:62-79 | the ends of two threads commute |
| Confluence.StepsCommute | src/scheduler/task_pool.cpp:35-79 | two sections that are possible commute exactly if not both take a fresh identifier |
| Rounds.StepWorks | src/scheduler/scheduler.cpp:220-239 | every section takes work away from the round, so every round ends |
| Rounds.CompleteStep | src/scheduler/task_pool.cpp:83-94 | in a round without a double spawn, whichever thread goes first, it ends in the same state |
| SchedulingPoint.PostedMeansQuiet | src/scheduler/task_pool.cpp:83-94 | the wait is over exactly if no thread is inside the pool, about to enter it, or created but not registered |
| SchedulingPoint.EnabledIffRunnable | src/scheduler/task_pool.cpp:265-328 | at a scheduling point a thread is ENABLED exactly if its posted instruction can run: a Lock on a free mutex, a Join of a finished thread, anything else |
| SchedulingPoint.MutexBitIsReal | src/scheduler/object_state.cpp:78-111 | at a scheduling point the bit of a mutex is whether it is really held, and an ENABLED Lock finds it free |
| SchedulingPoint.GrantKeepsStrict | src/scheduler/scheduler.cpp:404-418 | handing out the turn keeps the invariants |
| SchedulingPoint.Progress | src/scheduler/scheduler.cpp:220-239 | while a thread has not posted, some thread can go on |
| Base.OnlySecondJoinThrows | src/scheduler/thread_state.cpp:25-41 | a post throws exactly on a repeated join, in every program |
| SecondJoins.ThrownLeavesTask | src/scheduler/task_pool.cpp:35-46 | a thread whose post threw is ENABLED, with its Join of a finished thread posted, until it is given a turn |
| SecondJoins.TurnIsLost | src/scheduler/scheduler.cpp:404-418 | after such a thread has been given the turn nothing is possible any more |
| SecondJoins.ThrownNeverDone | src/scheduler/scheduler.cpp:332-381 | a run in which a post has thrown never ends DONE or in a deadlock |
| SecondJoins.GoesOnIff | src/scheduler/scheduler.cpp:220-239 | a registered thread at work can go on exactly if its turn is not for an instruction that blocks, its post did not throw, and it does not join an unregistered thread |
| SecondJoins.WaitHasCause | src/scheduler/task_pool.cpp:83-94 | whatever the program does, while the scheduler waits a thread can go on or is held back for one of these reasons |
| SchedulingPoint.YieldNeverThrows | src/scheduler/object_state.cpp:95-111 | the yield of the current thread finds its request, and whoever it patches is registered |
| SchedulingPoint.InOneWaitset | src/scheduler/object_state.cpp:65-111 | a thread is in at most one waitset of one object, with the instruction it has posted |
| Yields.TurnsAreYielded | src/scheduler/task_pool.cpp:50-58 | every turn handed out is yielded exactly once, but for the one that is not over |
| Yields.AllTurnsYielded | src/scheduler/task_pool.cpp:50-58 | at every scheduling point all turns have been yielded |
| Yields.TurnFitsIff | src/scheduler/task_pool.cpp:299-328 | from one scheduling point to the next, in every program: after a turn on an object those who wait on it or post next are treated right exactly if it was an Unlock, a Lock with only Locks waiting, or an access whose parity agrees with the mutex and the others fitted before |
| SchedulingPoint.FinishWakesItsJoiners | src/scheduler/task_pool.cpp:62-79 | in every program each join entry met by a finish is of a disabled thread that waits for that join; FINISHED is permanent |
| SchedulingPoint.WakeupsAreNotified | src/scheduler/task_pool.cpp:35-79 | the only sections after which every unfinished thread has posted are posts, throwing ones included, and finishes |
| SchedulingPoint.TidsArePartitioned | src/scheduler/scheduler.cpp:211-216 | at a scheduling point every identifier taken belongs to a registered thread or to exactly one pending Spawn |
| SchedulingPoint.RoundIsConfluent | src/scheduler/task_pool.cpp:35-94 | every order of the outstanding sections leads to the same next scheduling point, exactly if not both the spawner and the thread it has just spawned spawn next |
| SchedulingPoint.DoubleSpawnShows | src/scheduler/task_pool.cpp:219-234 | a double spawn can be told from the recorded state after the round |
| Deadlock.DeadlockedThreadsBlock | src/scheduler/selector.hpp:87-105 | in a reported deadlock every pending instruction is a Lock on a held mutex or a Join of an unfinished thread |
| Deadlock.DeadlockHasCause | src/scheduler/selector.hpp:87-105 | who waits for whom leads to a cycle or to a mutex whose holder has finished |
| Runs.RunsKeepInv | src/scheduler/scheduler.cpp:332-381 | along every run the record is chained, has as many transitions as the status and the turns say, and ends in the pool's last state |
| Runs.EndKeepsRecord | src/scheduler/scheduler.cpp:366-381 | the last round keeps what was recorded, and adds one entry on a deadlock: a pending instruction, from the last state to itself |
| Accounting.RunsObey | src/scheduler/selector.hpp:80-106 | the turns follow the schedule as far as it goes, and every outcome is justified |
| Accounting.ErrorIffRefused | src/scheduler/scheduler.cpp:349-358 | a closed run is in ERROR exactly if its schedule asks for a thread that is not enabled in the last recorded state |
| Accounting.RecordedTransitions | src/scheduler/scheduler.cpp:338-381 | as many transitions as turns, one more on a deadlock; DONE means that every registered thread has finished |
| Accounting.RunsRecordTheirTurns | src/scheduler/schedule.cpp:11-17 | the schedule read off the executed transitions is the sequence of turns |
| Accounting.RunsAreBounded | src/scheduler/scheduler.cpp:332-381 | a run has at most nine events for each turn and four more, in whatever order |
| Accounting.EmptyAtClose | src/scheduler/scheduler.cpp:433-457 | the execution is empty at its end exactly if no turn was taken and there is no deadlock; of a DONE run exactly if the main thread has no visible instruction |
| Replay.ScheduleOfRecord | src/scheduler/schedule.cpp:11-17 | the schedule read off a record is the sequence of turns that made it |
| Replay.RunsStayOnPath | src/scheduler/scheduler.cpp:332-381 | scheduling points and record of a run depend on its turns only, not on the timing of the threads, if no round of its own had a double spawn |
| Replay.RecordTellsApart | src/scheduler/scheduler.cpp:336-345 | whether the rounds of a run had a double spawn can be told from its record |
| Replay.DrivenTurns | src/scheduler/scheduler.cpp:351-358 | driven by the turns of a run that ended, another one takes no others, whatever its timing, and has no double spawn either |
| Replay.ReplayFidelity | src/scheduler/scheduler.cpp:332-381 | driven by the schedule of a DONE run whose record shows no double spawn, with any timing and strategy, a run records the same instructions and states step by step, and ends DONE with the same record if it ends |
| Replay.ReplayOfDeadlock | src/scheduler/scheduler.cpp:366-373 | driven by the schedule of a deadlocked run without its last entry, a run records the same and deadlocks if it ends |
| Replay.FullScheduleOfDeadlock | src/scheduler/scheduler.cpp:351-373 | driven by the complete schedule of a deadlocked run, every run is bounded, goes on until it ends, and ends in ERROR |
| Replay.FullScheduleCanEnd | src/scheduler/scheduler.cpp:351-373 | wherever such a run is, it can be carried on to the ERROR |
| Replay.ReplayEnds | src/scheduler/scheduler.cpp:338-381 | no replay, of a DONE or deadlocked run, has more events than nine times its schedule and four; one that has not ended can go on, and one that has, ended like the original |
| Replay.ReplayCanEnd | src/scheduler/scheduler.cpp:338-381 | wherever a replay of a DONE or deadlocked run is, it can be carried on to the end of the original |
| ReplayLimits.ReplayIsFaithfulIff | src/scheduler/scheduler.cpp:332-381 | the schedule of a run that ended DONE or in a deadlock repeats it under all timings and strategies exactly if its record shows no double spawn |
| ReplayLimits.DoubleSpawnBreaksReplay | src/scheduler/scheduler.cpp:211-216 | a run whose record shows a double spawn has a replay that records something else |
| ValidRecords.OthersKeepTasks | src/scheduler/task_pool.cpp:35-79 | a section leaves other threads' posted instructions alone, and flips whether they are enabled only by the yield of a lock operation on their mutex or the end of the thread they join |
| ValidRecords.RecordsAreValid | src/scheduler/scheduler.cpp:338-381 | every executed transition was its thread's next instruction and enabled; all others keep theirs, and their enabledness but for the lock or join concerned; nobody appears but the thread spawned |
| MutualExclusion.RunsStayStrict | src/scheduler/task_pool.cpp:265-328 | the statuses and mutex bits are right along every disciplined run |
| MutualExclusion.RoundIsPossibleIff | src/scheduler/scheduler.cpp:346-364 | at a scheduling point the scheduler goes on exactly if the next thread of the schedule is registered, or the strategy has an answer for the enabled threads |
| MutualExclusion.RunsGoOn | src/scheduler/scheduler.cpp:332-382 | a disciplined run that is not closed can go on exactly if a thread has not posted or the scheduler gets an answer, and a turn that was handed out never blocks |
| MutualExclusion.ClosedRunsReportTruly | src/scheduler/selector.hpp:80-106 | the last recorded state marks exactly the threads that can run; a reported deadlock is a real one with a cause |
| MutualExclusion.RecordsAreExclusive | src/scheduler/object_state.cpp:78-82 | in every record each Lock finds its mutex free and each Unlock is by the holder |
| MutualExclusion.UnlockBetween | src/scheduler/object_state.cpp:95-111 | between two Locks of a mutex the thread of the first one unlocks it |
| NonPreemption.RunsAreNotPreempted | src/scheduler/strategies/non_preemptive.cpp:11-30 | past the schedule, the thread changes only if it is not enabled in the state between, and then to the smallest enabled one |
| Races.VisitorIsExact | src/scheduler/object_state.cpp:25-51 | in every program the visitor finds exactly the posted conflicting instructions of other threads |
| Races.VisitorMayAssumeIff | src/scheduler/object_state.cpp:31-35 | only memory accesses wait on the object exactly if no lock operation on it is posted |
| Races.RacesAreExact | src/scheduler/task_pool.cpp:265-295 | in every run, with the intended dispatch, each pair is recorded, the waiting instruction first, exactly as often as the second one was posted while the first one was pending in conflict with it |
| Races.RacedIffFormed | src/scheduler/object_state.cpp:25-51 | two conflicting instructions are pending together exactly if one was posted while the other one was pending |
| Races.ListIsRightIff | src/scheduler/task_pool.cpp:279-281 | the list has every pair as often and in the order it was formed exactly if the visitor is called on the alternative or there was no race |
| Commute.PoolIsDetermined | src/scheduler/task_pool.cpp:219-234 | at a scheduling point the pool is a function of where the threads are, the join requests and the last operations |
| Commute.TurnIsRound | src/scheduler/task_pool.cpp:50-119 | the four sections of a thread that spawns nobody are its whole round |
| Commute.IndependentTurnsCommute | src/scheduler/task_pool.cpp:50-119 | two turns on different objects with commuting effects lead to the same scheduling point in either order |
| Witnesses.AccessToMutex | src/scheduler/task_pool.cpp:299-328 | a Store to the address of a mutex, and the following Lock is reported as a deadlock although nobody holds the mutex |
| Witnesses.UnlockByOther | src/scheduler/task_pool.cpp:321-328 | a Lock disables a pending Unlock, and a deadlock is reported although the Unlock would not block |
| Witnesses.SecondJoin | src/scheduler/task_pool.cpp:35-46 | the second join of a finished thread throws, its task is left behind as an enabled one, and the wakeup is lost |
| Witnesses.LostTurn | src/scheduler/scheduler.cpp:404-418 | the turn given to that thread is never taken, and nothing is possible any more |
| Witnesses.TwoSpawners | src/scheduler/scheduler.cpp:211-216 | a run in which the sections of spawner and spawned thread do not commute |
| Witnesses.TwoEnds | src/scheduler/scheduler.cpp:211-216 | a run with a turn whose round has two different ends |
| Witnesses.DeadlockIsNoReplay | src/scheduler/scheduler.cpp:351-373 | a run whose record of a deadlock has the schedule [0, 0], and driven by it the same events end in ERROR |
| Witnesses.LostRace | src/scheduler/task_pool.cpp:279-281 | two Stores to one address are pending together and the list of races is empty |
| StateTexts.InstructionRoundTrip | src/program-model/visible_instruction_io.hpp:30-117 | a printed instruction is read back exactly if its file name is one word |
| StateTexts.StateUndoes | src/program-model/state_io.cpp:63-89 | a printed state is read back |
| RecordTexts.TransitionUndoes | src/program-model/transition_io.cpp:22-27 | a printed transition is read back |
| RecordTexts.RoundTrip | src/program-model/execution_io.cpp:96-168 | printing, and reading into any prefix, restores the execution with its threads and status exactly if it has a transition or the reader has its status |
| RecordTexts.RestoredIff | src/program-model/execution_io.cpp:96-168 | read into an empty execution it is restored exactly if every file name is one word, and it has a transition or is RUNNING |
| RecordTexts.EmptyExecutionIsLost | src/program-model/execution_io.cpp:112-168 | an execution without transitions that is DONE is not restored |
| RecordTexts.SpacedNameIsLost | src/program-model/visible_instruction_io.cpp:17-21 | a file name with a space is not restored |
| CutTexts.CutIsRead | src/program-model/execution_io.cpp:143-158 | a text that breaks off after k transitions, anywhere in the next one, read into an execution that has the first j of them, leaves exactly the first k, the status it had, and the fail bit |
| CutTexts.UnsealedIsRead | src/program-model/execution_io.cpp:118-125 | a text without a status behind the equal signs leaves its transitions, an arbitrary status, and the fail bit |
| CutTexts.CutAndResumed | src/program-model/execution_io.cpp:112-168 | reading the text that breaks off and then the whole one restores the execution, under the condition of RoundTrip |
| CutTexts.ReadingKeeps | src/program-model/execution_io.cpp:112-168 | whatever the text, transitions, threads and initial state that were there before stay |
| CutTexts.CutOfText | src/program-model/execution_io.cpp:96-108 | a text that is cut between transitions is the whole text without its end |
| WrittenTexts.AtomicTexts | src/program-model/visible_instruction_io.hpp:30-38 | the text of an atomic instruction of each memory operation, letter by letter |
| WrittenTexts.NonAtomicTexts | src/program-model/visible_instruction_io.hpp:30-38 | the text of a non-atomic instruction of each memory operation, letter by letter |
| WrittenTexts.LockTexts | src/program-model/visible_instruction_io.hpp:46-53 | the texts of Lock and Unlock, letter by letter |
| WrittenTexts.SpawnTexts | src/program-model/visible_instruction_io.hpp:61-70 | the text of a Spawn with each status of its operand, letter by letter |
| WrittenTexts.JoinTexts | src/program-model/visible_instruction_io.hpp:61-70 | the text of a Join with each status of its operand, letter by letter |
| WrittenTexts.WrittenUpdate | src/program-model/visible_instruction_io.hpp:74-90 | an atomic update as it stands in a file is read as that instruction |
| WrittenTexts.WrittenUnlock | src/program-model/visible_instruction_io.hpp:90-104 | an Unlock as it stands in a file is read as that instruction |
| WrittenTexts.WrittenJoin | src/program-model/visible_instruction_io.hpp:104-118 | a Join as it stands in a file is read as that instruction |
| WrittenTexts.StateIs | src/program-model/state_io.cpp:85-89 | the text of a state with a disabled and an enabled next instruction, letter by letter |
| WrittenTexts.ExecutionIs | src/program-model/execution_io.cpp:96-108 | the text of a whole execution with its index lines, the equal signs and each status word |
| WrittenTexts.ExecutionIsRead | src/program-model/execution_io.cpp:112-168 | that text is read as the execution |
| WrittenTexts.EndWords | src/program-model/execution_io.cpp:17-34 | the five status words |
| WrittenTexts.NumbersAre | src/program-model/object_io.cpp:11-15 | numbers are written digit by digit, in base 10 or 16 |
| WrittenTexts.NumbersAreRead | src/program-model/visible_instruction_io.cpp:17-21 | numbers are read with their sign; one that does not fit is refused, and a negative unsigned one wraps around |
| WrittenTexts.OtherAddresses | src/program-model/object_io.cpp:19-25 | digits of both cases are read |
| WrittenTexts.OtherPrefixes | src/program-model/object_io.cpp:19-25 | a prefix of either case is passed over |
| WrittenTexts.OtherWords | src/program-model/visible_instruction_io.cpp:45-59 | any other word for an operation is refused; any word but "atomic" stands for a non-atomic instruction |
| WrittenTexts.OtherStatuses | src/program-model/thread_io.cpp:35-58 | any other word for a status is refused |
| WrittenTexts.OtherTags | src/program-model/visible_instruction_io.hpp:74-118 | any other tag is refused |
| RecordReader.ReadThread | src/program-model/thread_io.cpp:70-74 | what is read is what the text says, and a failure is reported |
| RecordReader.ReadThreadStatus | src/program-model/thread_io.cpp:35-58 | a status is one of four words |
| RecordReader.ReadObject | src/program-model/object_io.cpp:19-25 | an address is a number of base 16 with an optional prefix |
| RecordReader.ReadMeta | src/program-model/visible_instruction_io.cpp:17-21 | a file name is one word, a line an unsigned number |
| RecordReader.ReadMemoryOperation | src/program-model/visible_instruction_io.cpp:45-59 | a memory operation is one of three words |
| RecordReader.ReadLockOperation | src/program-model/visible_instruction_io.cpp:79-91 | a lock operation is one of two words |
| RecordReader.ReadThreadOperation | src/program-model/visible_instruction_io.cpp:111-123 | a thread operation is one of two words |
| RecordReader.ReadInstruction | src/program-model/visible_instruction_io.hpp:74-118 | the tag selects the kind, and an unknown tag fails |
| RecordReader.ReadNext | src/program-model/state_io.cpp:13-32 | an instruction and whether it is enabled |
| RecordReader.ReadState | src/program-model/state_io.cpp:63-81 | a state behind its tag |
| RecordReader.ReadStatus | src/program-model/execution_io.cpp:47-78 | a status is one of five words, and stays what it was if it cannot be read |
| RecordReader.ReadExecution | src/program-model/execution_io.cpp:112-168 | the resuming loop reads what the text says, on every text |
| RecordPrinter.PrintInstruction | src/program-model/visible_instruction_io.hpp:30-70 | the text of an instruction is appended |
| RecordPrinter.PrintNext | src/program-model/state_io.cpp:36-40 | the text of an instruction and whether it is enabled |
| RecordPrinter.PrintState | src/program-model/state_io.cpp:85-89 | the text of a state on one line |
| RecordPrinter.PrintTransition | src/program-model/transition_io.cpp:22-27 | the two lines of a transition |
| RecordPrinter.PrintExecution | src/program-model/execution_io.cpp:96-108 | the whole text of an execution, nothing without an initial state |

## Left out

- Each mutex-protected section is one atomic step. `finish` locks the two mutexes of the pool in the order opposite
  to that of `post`, `yield` and `register_thread`; that this can deadlock inside the pool is not visible in the
  model.
- Uncontrolled execution after ERROR, the end of the process after a deadlock, and timeouts. A thread whose post
  throws takes no further step: if nobody catches the exception the process ends, and a program that catches it and
  goes on is not modelled.
- Thread identifiers of the system are taken to be unique; a reused one would keep its old number. A thread that is
  not registered cannot be joined in the model; the original skips such a join.
- A schedule that names a thread that is not registered, or a strategy that answers with one, is stopped by an
  assertion of the original; in the model that round is not possible.
- The random strategy is one of the arbitrary strategies, of which only the answers matter.
- The containers, the semaphore and `skip` of the utility library are not part of the repository: sets and maps are
  printed as their size and their elements in ascending order on one line, the semaphore is binary, and skipping n
  lines fails if there are fewer.
- Memory-model effects: the effect of an instruction on the shared memory is an arbitrary function.
- `all_finished` has its condition inverted and is not used by the modelled code. `mContainsLocks` is never
  initialised: it may have any value in the model before it is set.
- `mNext` pairs, short texts, transition texts with pre-states, dumps and debug output, settings, compiler pass,
  file and process handling: they would add easy members or only input and output.
- The getters, and the equality operators, which are structural.
- TaskPool.TaskPool.Yield: object states and join requests are values in the pool's maps, taken out, updated by
  their own methods and put back, so that no aliasing is modelled; a thread state looks its thread's status up
  instead of keeping a reference to it.
- TaskPool.TaskPool.UpdateObjectPost: the order of the races found by one post is left open, as the original's
  containers do.
- Scheduler.Scheduler.Run: the order of the threads' sections and the answers of the strategy are a parameter, and
  an event that is not possible yet ends the call instead of blocking.
- Scheduler.Scheduler.RegisterThread: the map from the system's thread identifiers to the numbers of the threads;
  the wait of the new thread for its registration is the phase `Unregistered`.
- Scheduler.Scheduler.CreateInstruction: a join of a thread that is not registered, which the original skips.
- Scheduler.Scheduler.Finish: the main thread joins the scheduler thread at its end. That the outermost return is
  reported by `exit_function` is proved of `ControllableThread` alone: a program of the model returns where it has
  no next instruction.
- Scheduler.Scheduler.Close: without transitions there is no last state to set; the original asserts that there is
  one (`Accounting.EmptyAtClose` says when). After an ERROR the threads leave their semaphores; what they do then is
  not controlled any more.
- ControllableThread.ControllableThread.ExitFunction: `permission_denied`, thrown to a caller that is not the thread
  itself.
- RecordReader.ReadExecution: if a text breaks off inside the initial state, the original may leave a partial one
  behind, the model leaves none; the value of a status that cannot be read is a parameter.
- RecordReader.ReadState: the elements of its set and map are read by the functions that `ReadInstruction` and
  `ReadNext` are proved against.
