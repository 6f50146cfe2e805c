# Operating systems assignments: a verification model

This project models the concurrent and stateful programs of five assignments and proves what they
promise, for all inputs and all schedules.

* **Demand paging** (Assignment 8). A master, a FIFO scheduler, an MMU with least-recently-used
  replacement per process, and any number of processes talk over three typed message queues.
  `PagingSystem` is the step machine in which every send, receive and fork is one step; `PagingInvariant`,
  `PagingSteps`, `PagingRank` and `PagingProgress` carry the proof, `PagingTheorems` states the results.
  `Mmu` is the MMU's request handler on its page tables and frame list in place; `PagedMemory` and
  `LruReplacement` hold its specification and what it means. `PagingMaster` makes the lists of references,
  `PagingAccounts` states the MMU's totals and answers, `PagingAlone` follows a single process,
  `PagingTimestamps` the MMU's clock, `PagingCleanup` what happens after the post.
* **Thread library and tree sum** (Assignment 7). `Barrier` and `Mutex` are step machines with one
  semaphore operation a step; `TreeSum` is the arithmetic of trees and `TreeSumProtocol` the threads,
  with a counter for each barrier. `TreeSumBarriers` shows that these counters do what the barrier's
  specification allows, `TreeSumComposed` puts the barrier of `Barrier`, step by step, in their place, and
  `TreeSumLocked` the mutex of `Mutex` in the place of each mutex: the tree sum on the library alone.
* **Clinic** (Assignment 6). `EventHeap` is the heap in its array, `Clinic` and `ClinicTheorems` the
  event loop, `ClinicDay` the visits of a whole day and that the arrivals determine them, `ClinicSession` the
  main program on its counters and on the heap, `ClinicThreads` the threads with their mutexes and condition
  variables, `ClinicBounds` how long they can run, and `ClinicPlan` the link: what the loop decides is a plan
  that the threads carry out.
* **Topological sort** (Assignment 5). `TopoSort` is the step machine of the boss and the workers,
  `TopoCheck` the boss's computations, `Generators` the programs that make the inputs (with the tree
  generator of Assignment 7).
* **Directory synchroniser** (Assignment 9). `FileTree` is a file system of regular files and
  directories, `DirSync` the program on it; every write and every change of a directory gives an arbitrary
  new modification time, and a new entry gets an arbitrary mode.

Random numbers, process ids, user input, clocks and the choices of the scheduler are parameters or
nondeterministic steps. All programs are modelled without failures of system calls.

Three results say where the code does not do what one would expect of it.

* Without frames the paging system runs for ever as soon as one process starts with a legal page
  (`PagingTheorems.NeverCompletes`; the exact condition is `PagingTheorems.BoundedIffFeasible`).
* The master removes the message queues when the scheduler posts, but a process that is still to read
  that its page is illegal takes the failed receive for a granted frame and goes on to its end
  (`PagingCleanup.OutcomeAfterCleanup`). That can happen to a process exactly if its list has an illegal page
  and runs get to the post at all (`PagingCleanup.MisreportIffIllegal`); `PagingCleanup.MisreportExample` is
  such an input, of those that the master makes.
* A synchronised file may differ from the source in its bytes, if size and time agreed before
  (`DirSyncs.CopyWithOtherBytes`): the contract of `DirSyncs.Syncer.Synchronize` says of which files the
  bytes are equal, and `DirSyncs.AgreedCopies` exactly when all are.

Of the sort, the boss's loop ends exactly on graphs without a cycle (`TopoSorts.EveryRunEnds`). Its test of the
result would not tell every wrong list by itself (`TopoCheck.CheckAloneFails` says for which graphs), but
the workers never hand it one (`TopoCheck.BossIsContent`).

## Model

| member | source | states |
|---|---|---|
| `ReferenceStrings.BuildReferenceString` | Assignment 8/master.c:229-234 | the loop that prints the page numbers, each followed by a dot, builds exactly the rendering of the list |
| `ReferenceStrings.ReadPage` | Assignment 8/process.c:94-104 | one turn of the parser's loop computes the number and the next index that the parsing function gives |
| `ReferenceStrings.ParseRoundTrip` | Assignment 8/process.c:89-104 | at the start of the j-th number of a rendered list the parser returns the j-th page and the start of the next number, and the string ends exactly after the last: the process recovers the list that the master printed |
| `ReferenceStrings.OneNumeral` | Assignment 8/master.c:229-234 | a string of decimal digits without a superfluous leading zero is what is printed for its value: every number has one numeral only |
| `ReferenceStrings.TextOfPage` | Assignment 8/master.c:229-234 | what is printed for a page is the numeral of its number, with no leading zero, and a dot, and no other numeral has that value: the text is fixed character by character |
| `PagingMaster.MakeLists` | Assignment 8/master.c:216-235 | for any random numbers the bound of each process, the length of its list and each of its references are those drawn for them, a reference beyond the bound only where one is wanted and the space has such a page, and the strings are the renderings of the lists |
| `PagingMaster.MadeIffDrawn` | Assignment 8/master.c:216-227 | within the master's limits, a configuration satisfies what is stated of those that the master makes if and only if some random numbers make it |
| `MessageQueues.TakeRemovesOldest` | Assignment 8/sched.c:73-83 | receiving a type from a queue removes the oldest message of that type and leaves every other type's messages as they were |
| `MessageQueues.SendAppends` | Assignment 8/sched.c:79-91 | sending appends to the messages of its type only |
| `PagedMemory.InitialOwned` | Assignment 8/master.c:142-160 | the master's initial tables and frame list agree: nothing is mapped, every frame is free and unowned |
| `PagedMemory.ReleaseKeepsOwned` | Assignment 8/mmu.c:162-169 | releasing a process keeps the agreement between tables, frame list and owners, and frees exactly what the process owned |
| `PagedMemory.TouchKeepsOwned` | Assignment 8/mmu.c:200-206 | a hit changes no mapping |
| `PagedMemory.LoadKeepsOwned` | Assignment 8/mmu.c:219-269 | a fault, served by a free frame, by an eviction or not at all, keeps the agreement of tables, frame list and owners; the page evicted is never the one loaded |
| `PagedMemory.OccupiedIffMappedOnce` | Assignment 8/mmu.c:219-255 | a frame is marked occupied exactly when one pair of a process and a page it needs maps to it, and then only one does |
| `PagedMemory.FramesConserved` | Assignment 8/mmu.c:160-258 | free frames and resident pages together are all frames |
| `PagedMemory.MappedIsRequired` | Assignment 8/mmu.c:176-206 | only pages below the process's bound are ever mapped, and only to frames of the list |
| `LruReplacement.TouchKeepsStacked` | Assignment 8/mmu.c:200-206 | a hit keeps the resident pages the most recently requested ones, each with the time of its last request |
| `LruReplacement.LoadKeepsStacked` | Assignment 8/mmu.c:219-269 | so does a fault, in all its three outcomes |
| `LruReplacement.ResidentIsMostRecent` | Assignment 8/mmu.c:237-258 | the resident pages of a process with r of them are exactly the r most recently requested distinct pages: the stack property of least-recently-used replacement |
| `LruReplacement.RecencySorted` | Assignment 8/mmu.c:139-258 | the recency list holds each requested page once, in the order of decreasing last request |
| `LruReplacement.LoadChangesResident` | Assignment 8/mmu.c:219-258 | what a fault does to the resident set: the page comes in, and if no frame is free the page goes out whose last request is the earliest; if there is none either, nothing changes |
| `LruReplacement.MoreFramesNeverHurt` | Assignment 8/mmu.c:200-258 | no Belady anomaly: for any reference string served by itself, the resident set with f >= 1 frames lies within that with any g >= f frames, and the fault total with g frames is not larger |
| `Mmus.Mmu.constructor` | Assignment 8/master.c:142-160 | the constructed tables map nothing and every frame of the list is free, up to the end mark |
| `Mmus.Mmu.ReleaseProcess` | Assignment 8/mmu.c:162-169 | the release loop unmaps every page of the process and frees its frames, in place, and touches nothing else |
| `Mmus.Mmu.TakeFrame` | Assignment 8/mmu.c:219-226 | the walk to the sentinel takes the first free frame and marks it occupied, or takes none |
| `Mmus.Mmu.FindVictim` | Assignment 8/mmu.c:238-247 | the scan finds the mapped page with the least timestamp, the first of equals, or none |
| `Mmus.Mmu.HandleFault` | Assignment 8/mmu.c:219-269 | the fault handler takes the first free frame, else the least recently used page of the process, else changes nothing, in place on tables and frame list |
| `Mmus.Mmu.HandleRequest` | Assignment 8/mmu.c:159-271 | one turn of the request loop: on termination, illegal page, hit and fault the tables, frame list and counters change, the process is answered and the scheduler notified with the codes -2, -1 or the frame, 1 or 2 |
| `Mmus.AnswersAndTotals` | Assignment 8/mmu.c:159-271 | what one turn answers, notifies and counts: -2 and one more illegal reference of this process for a page at or above its bound; the frame to which the page is mapped, and no count, for a hit; -1 and one more fault of this process otherwise; no answer to a termination |
| `PagingSteps.InitInv` | Assignment 8/master.c:142-202 | the state in which the programs start satisfies the invariant of the paging system |
| `PagingSteps.SchedReceivesKeeps` | Assignment 8/sched.c:73-76 | the scheduler's choice from the ready queue keeps the invariant |
| `PagingSteps.SchedDispatchesKeeps` | Assignment 8/sched.c:79-80 | so does its message that lets the chosen process run |
| `PagingSteps.NoticeIsForHolder` | Assignment 8/sched.c:83-95 | the scheduler's untyped receive never gets the type-100 message: whatever it reads is the MMU's notice about the process that it last dispatched |
| `PagingSteps.ProcRequestsKeeps` | Assignment 8/process.c:89-144 | parsing and sending the next page, or the termination, keeps the invariant |
| `PagingSteps.ProcReadsKeeps` | Assignment 8/process.c:115-135 | so does reading the answer, with its three outcomes |
| `PagingSteps.MmuReceivesKeeps` | Assignment 8/mmu.c:138-152 | the MMU finds every process that asks in its table |
| `PagingSteps.MmuLoadsKeeps` | Assignment 8/mmu.c:219-269 | serving a fault keeps control, mailboxes and memory in order |
| `PagingRank.StepLowers` | Assignment 8/sched.c:71-96 | every step of every program keeps the invariant and lowers a lexicographic rank, and receiving a request uses up one of those that the MMU can still get; a fruitless fault lowers the rank because a live process that owns a frame comes nearer to its turn |
| `PagingProgress.DeadlockFree` | Assignment 8/sched.c:71-102 | in every state that satisfies the invariant some program can take a step, or all processes have ended and the master has been notified |
| `PagingTheorems.SingleToken` | Assignment 8/sched.c:71-95 | in a state that satisfies the invariant a place of the system holds the right to proceed exactly if it is the one the invariant names; at most one request awaits the MMU |
| `PagingTheorems.ExactlyOneToken` | Assignment 8/sched.c:71-95 | in every reachable state exactly one of scheduler, run message, running process, queued request, MMU, reply or notice holds the right to proceed |
| `PagingTheorems.OnePlacePerProcess` | Assignment 8/sched.c:73-91 | every process is in one and only one place: not yet scheduled, in the ready queue, where the right to proceed is, or over; the queue holds nobody twice, and who is in it waits for a run message |
| `PagingTheorems.OutcomeAtPost` | Assignment 8/process.c:89-144 | when the scheduler posts, the pages granted to a process are those of its list up to the first illegal one, it has ended normally exactly if there is none, every page table is empty and every frame is free |
| `PagingTheorems.OutcomeOfRun` | Assignment 8/sched.c:98-102 | the same for every run that gets to the post, with the normal end exactly if no page is illegal, so the outcome does not depend on the schedule |
| `PagingTheorems.EveryRunCompletes` | Assignment 8/sched.c:71-102 | with a frame, or when no process needs one, runs are no longer than a computed budget, and a run that cannot go on has completed |
| `PagingTheorems.NeverCompletes` | Assignment 8/mmu.c:260-269 | without frames, a process whose first page is legal keeps the scheduler busy for ever: no run ends |
| `PagingTheorems.BoundedIffFeasible` | Assignment 8/mmu.c:219-269 | the length of runs is bounded if and only if there is a frame or every process starts with an illegal page or none |
| `PagingTimestamps.TimestampFits` | Assignment 8/mmu.c:139-152 | within the master's limits the MMU's timestamp stays below INT_MAX in every run if and only if there is a frame or every process starts with an illegal page or none; otherwise some run reaches it |
| `PagingTheorems.FramesInEveryState` | Assignment 8/mmu.c:160-258 | in every state the occupied marks, the valid bits and the mappings agree and frames are conserved |
| `PagingTheorems.StackInEveryState` | Assignment 8/mmu.c:139-258 | in every state the resident pages are the most recently requested ones with the times of their last requests |
| `PagingTheorems.MemoryOfRun` | Assignment 8/mmu.c:139-269 | for every state of every run, with the place that holds the right to proceed: marks, valid bits and mappings agree and frames are conserved, and the resident pages are the most recently requested ones with the times of their last requests, up to the request that is in the MMU |
| `PagingTheorems.MmuTurnIsHandled` | Assignment 8/mmu.c:159-271 | the MMU's separate steps for one request add up to what the request handler does, with the log's length as timestamp |
| `PagingTheorems.ReachableInv` | Assignment 8/sched.c:71-102 | every state of every run satisfies the invariant, with any number of frames |
| `PagingAccounts.AccountsOfRun` | Assignment 8/mmu.c:177-209 | in every state of every run, for each process and any number of processes: the illegal references counted are its requests at or above the bound that the MMU has answered, one exactly if it has been refused; its legal requests that have been answered are those granted and those counted as faults; and an answer that it has not read names the frame to which the page that it asked for is mapped |
| `PagingAccounts.TotalsAtPost` | Assignment 8/mmu.c:177-209 | the totals when the scheduler posts, on every run: one illegal reference for a process with an illegal page in its list and none for others, and as many faults as its legal requests exceed its legal pages |
| `PagingAlone.AloneAtPost` | Assignment 8/mmu.c:139-271 | with one process, in every run that gets to the post, the MMU's log is that of the legal pages served by themselves, with the last request, and its fault total is theirs |
| `PagingAlone.MoreFramesNeverHurtRuns` | Assignment 8/mmu.c:200-258 | no Belady anomaly in the running system: of two configurations with one process that differ only in the number of frames, the one with more counts no more faults, in any two runs to the post |
| `PagingAlone.MoreFramesHoldMore` | Assignment 8/mmu.c:200-258 | and after every reference: whenever both runs have just granted the same place of the list, what is resident with fewer frames is resident with more, and no more faults have been counted |
| `PagingCleanup.OutcomeAfterCleanup` | Assignment 8/master.c:256-272 | the master removes the queues without waiting for the processes: a process then ends with exactly its legal pages if and only if it had read its last reply, and otherwise reports every page of its list as allocated |
| `PagingCleanup.MisreportIffIllegal` | Assignment 8/master.c:256-272 | the defect, exactly: for any configuration, some run to the master's wakeup leaves process i with a wrong report if and only if there is a frame or nobody needs one, and a page of its list is illegal |
| `PagingCleanup.MisreportExample` | Assignment 8/process.c:109-135 | an input that the master can make: a space of two pages, one process that needs one of them and whose list names page 1 twice, and one frame |
| `Mutexes.Exclusive` | Assignment 7/foothread.c:203-246 | with any number of threads that unlock what they have locked: in every state of every run at most one is between its wait and its post, no unlock reports an error, some thread can go on, and is_locked is set exactly while a thread is between its two writes of it |
| `Mutexes.Refines` | Assignment 7/foothread.c:203-246 | seen by its clients, a lock returns only when nobody holds the mutex, an unlock only to the holder, no other operation shows, and no test of unlock fails |
| `Barriers.StepKeeps` | Assignment 7/foothread.c:293-335 | every semaphore operation of a wait keeps the invariant of the two turnstiles |
| `Barriers.Synchronised` | Assignment 7/foothread.c:293-335 | no thread has left a round that some thread has not entered, none is a round ahead, and the count stays within 0..n |
| `Barriers.InnerWaitsPass` | Assignment 7/foothread.c:309-327 | the waits inside the two critical sections never block |
| `Barriers.DeadlockFree` | Assignment 7/foothread.c:293-335 | in every reachable state some thread can move, or every thread has made its calls or waits for one that makes no further call |
| `Barriers.AllCallsReturn` | Assignment 7/foothread.c:274-335 | for any number of threads and rounds, runs are finite, and one that cannot go on has every call returned |
| `Barriers.InEveryRun` | Assignment 7/foothread.c:293-335 | the same, and the passing of the inner waits, for every state of every run of n threads and any number of calls each |
| `Barriers.Refines` | Assignment 7/foothread.c:293-335 | each operation begins a call, ends one that all threads have begun, or is invisible to the clients |
| `Barriers.ReturnProgresses` | Assignment 7/foothread.c:293-335 | whenever all threads have begun the call that one of them is in, some thread inside a call can go on: calls that may end do end, without any new call |
| `TreeSums.ReadTree` | Assignment 7/computesum.c:33-50 | from the lines of the tree file, in any order, the loop fills the parents, counts the children of every node and finds the root |
| `TreeSums.InnerSum` | Assignment 7/computesum.c:112-117 | the sums of all children of an inner node make up the sum of the leaf values below it |
| `TreeSums.RootSum` | Assignment 7/computesum.c:77-78 | the leaf values below the root are all leaf values |
| `TreeSumProtocol.NodeKeeps` | Assignment 7/computesum.c:95-135 | every operation of a node's thread keeps the invariant over locks, barriers and sums |
| `TreeSumProtocol.MainKeeps` | Assignment 7/computesum.c:70-78 | so does every operation of the main thread |
| `TreeSumProtocol.BarrierSize` | Assignment 7/computesum.c:58-60 | the barrier of a node is full exactly when the node and all its children have arrived: its size is the number of its callers |
| `TreeSumProtocol.ReadKept` | Assignment 7/computesum.c:121-125 | a sum that a thread has read under the parent's mutex does not change before the thread has stored its result |
| `TreeSumProtocol.DeadlockFree` | Assignment 7/computesum.c:95-135 | some thread can always move until all have finished: the deepest node waiting at its barrier, if nobody else can; with a counter for a barrier |
| `TreeSumProtocol.ReportsAreSums` | Assignment 7/computesum.c:112-131 | in every state of every run, what an inner node has reported is the sum of the leaf values below it, and what the main thread has printed is the sum of all leaf values |
| `TreeSumProtocol.EveryRunCompletes` | Assignment 7/computesum.c:22-135 | every run is finite, and one that cannot go on has all threads finished and every sum reported; with a counter for a barrier |
| `TreeSumBarriers.MembersAreCallers` | Assignment 7/computesum.c:58-63 | a node's barrier is made for the node and its children, the last one for the main thread and the root: the number given to the barrier is the number of its callers |
| `TreeSumBarriers.ArrivalEnters` | Assignment 7/computesum.c:99-133 | arriving at a barrier, in the protocol, is the beginning of the thread's call in the barrier's specification |
| `TreeSumBarriers.ReturnLeaves` | Assignment 7/computesum.c:99-133 | going on from a barrier is the end of that call, as the specification allows it |
| `TreeSumBarriers.ReturnIsLeave` | Assignment 7/computesum.c:75-133 | a thread inside a call of a node's barrier or of the main thread's can go on in the protocol exactly when the specification lets its call end |
| `TreeSumBarriers.ElsewhereUnchanged` | Assignment 7/computesum.c:70-140 | no other operation of any thread shows at a barrier |
| `TreeSumComposed.WholeRefines` | Assignment 7/computesum.c:70-140 | with every barrier taken apart into its semaphore operations, each step is one of the protocol or invisible to it |
| `TreeSumComposed.WholeDeadlockFree` | Assignment 7/computesum.c:70-140 | in every reachable state of the whole some thread can take a step, or all threads have finished and nobody is inside a barrier |
| `TreeSumComposed.WholeReportsAreSums` | Assignment 7/computesum.c:112-131 | on the library's own barriers, in every state of every run, the sums reported and printed are the right ones |
| `TreeSumComposed.WholeRunCompletes` | Assignment 7/computesum.c:22-135 | and every run is finite, within a computed bound, and one that cannot go on has finished with every sum reported |
| `TreeSumLocked.LockStepWhole` | Assignment 7/computesum.c:103-125 | with every mutex taken apart too, an operation inside lock or unlock is invisible to the rest, or is the protocol's step, which is then possible |
| `TreeSumLocked.FullDeadlockFree` | Assignment 7/computesum.c:70-140 | in every reachable state some thread can take a step, or all have finished, nobody is inside a barrier and every mutex is free |
| `TreeSumLocked.FullReportsAreSums` | Assignment 7/computesum.c:112-131 | on the library's own mutexes and barriers, in every state of every run, the sums reported and printed are the right ones and no unlock has reported an error |
| `TreeSumLocked.FullRunCompletes` | Assignment 7/computesum.c:22-135 | and every run is finite, within a computed bound, and one that cannot go on has finished with every sum reported and every mutex free |
| `EventHeaps.CompareOrders` | Assignment 6/event.c:5-16 | both answers of the comparison agree with the order by time and rank, and exactly equal visitors are each before the other |
| `EventHeaps.RootFirst` | Assignment 6/event.c:98-102 | in a heap no event is before the root |
| `EventHeaps.DownStep` | Assignment 6/event.c:46-53 | an exchange with the earlier child moves the one violation of the heap order down |
| `EventHeaps.UpStep` | Assignment 6/event.c:66-72 | an exchange with the parent moves it up |
| `EventHeaps.EarlierChild` | Assignment 6/event.c:47-49 | the child chosen is not after the other, whatever the comparison answers on equals |
| `EventHeaps.EventQueue.constructor` | Assignment 6/event.c:44-56 | heapify makes a heap of the events read |
| `EventHeaps.EventQueue.SiftDown` | Assignment 6/event.c:45-53 | the inner loop restores the heap order from a position on and keeps the events |
| `EventHeaps.EventQueue.AddEvent` | Assignment 6/event.c:59-75 | adding keeps the heap and adds exactly the event |
| `EventHeaps.EventQueue.DelEvent` | Assignment 6/event.c:77-96 | deleting keeps the heap and removes exactly the root, and does nothing to an empty queue |
| `EventHeaps.EventQueue.NextEvent` | Assignment 6/event.c:98-102 | the next event is before every other in the queue, and the end marker if there is none |
| `EventHeaps.EventQueue.Drain` | Assignment 6/event.c:77-102 | taking the first event until none is left gives all events of the queue, in the order of time and then rank |
| `Clinics.StepKeeps` | Assignment 6/session.c:225-524 | one turn of the event loop, on any first event, keeps the invariant over doctor, queues and log |
| `Clinics.HandleKeeps` | Assignment 6/session.c:229-376 | so does its first half: the doctor's event, an admission, or a refusal |
| `Clinics.HandleWaits` | Assignment 6/session.c:238-270 | where the second half is skipped nobody waits for a free doctor |
| `Clinics.SeeKeeps` | Assignment 6/session.c:383-425 | and so does a visit |
| `ClinicTheorems.DoctorState` | Assignment 6/session.c:212-252 | in every reachable state exactly one holds: the doctor is free, one visit is to end, the session is over; the queue never holds more than the arrivals and one event; the loop ends within three turns an arrival and one |
| `ClinicTheorems.StepLowers` | Assignment 6/session.c:225-524 | every turn lowers a measure of arrivals, waiting visitors and visits to end |
| `ClinicTheorems.BetterClassesFirst` | Assignment 6/session.c:381-513 | nobody of a better class waits when a visitor is seen, and nobody of a better class with an arrival time up to now is still to be handled |
| `ClinicTheorems.FirstComeFirstServed` | Assignment 6/session.c:385-408 | the visits of a class are those of its first visitors, in the order of their arrival times |
| `ClinicTheorems.VisitsDoNotOverlap` | Assignment 6/session.c:412-424 | with durations that are not negative a visit begins after the visits before it have ended, after time 0 and after its visitor has come |
| `ClinicTheorems.AllSeen` | Assignment 6/session.c:225-524 | when the queue is empty everybody admitted has been seen exactly once, patients and sales representatives up to their quotas; the session is over if and only if 25 patients and 3 sales representatives came |
| `ClinicSession.Session.constructor` | Assignment 6/session.c:207-216 | before the loop nobody has come, the doctor is not free yet, and the queue holds the file's arrivals and the doctor's first event at time 0 |
| `ClinicSession.Session.DoctorIsReady` | Assignment 6/session.c:233-252 | the doctor's event frees the doctor, or ends the session when 25 patients and 3 sales representatives have been seen and no reporter waits; only then the rest of the turn is skipped |
| `ClinicSession.Session.PatientArrives` | Assignment 6/session.c:253-295 | a patient is counted, and takes the next of the 25 places and waits, unless the session is over or the quota full; then the rest of the turn is skipped |
| `ClinicSession.Session.ReporterArrives` | Assignment 6/session.c:296-332 | a reporter is counted, and takes the next of the 100 places and waits unless the session is over |
| `ClinicSession.Session.SalesrepArrives` | Assignment 6/session.c:333-376 | a sales representative is counted, and takes the next of the 3 places and waits, unless the session is over or the quota full |
| `ClinicSession.Session.SeeNext` | Assignment 6/session.c:381-522 | a free doctor in session sees the first waiting reporter, else patient, else sales representative: the visit is logged at the current time and its end becomes an event; otherwise nothing changes |
| `ClinicSession.Session.HandleNext` | Assignment 6/session.c:225-524 | one turn takes the first event off the heap and acts on counters, places, flags and heap exactly as the event loop's step, whose invariant it keeps |
| `ClinicSession.Session.Run` | Assignment 6/session.c:225-524 | the loop terminates with the queue empty, everybody admitted seen once, and the session over exactly when both quotas were reached; the states after its turns are a run of the event loop |
| `ClinicSession.RunDay` | Assignment 6/session.c:206-524 | the visits of a whole day, from the arrivals to the end: of each class the first visitors up to the quota, in the order of arrival, reporters until the session is over; whoever is seen later and of a better class came after the visit had begun; nobody seen later had come while the doctor was free; each visit begins when its visitor comes or the doctor gets ready; none overlap if durations are not negative |
| `ClinicDays.DayOfRun` | Assignment 6/session.c:225-524 | the same of every run of the event loop that has come to its end |
| `ClinicDays.StartsExactly` | Assignment 6/session.c:393-523 | with durations that are not negative, each visit begins at the later of the times at which its visitor comes and the visit before it ends, the first not before time 0 |
| `ClinicDays.DayIsDetermined` | Assignment 6/session.c:225-524 | with durations that are not negative, what is stated of the day leaves no choice: the arrivals in their order determine who is seen, in which order, when each visit begins and whether the session is over |
| `ClinicThreads.MainKeeps` | Assignment 6/session.c:225-524 | every operation of the main thread keeps the invariant over mutexes, condition variables, parameters and turns |
| `ClinicThreads.DoctorKeeps` | Assignment 6/session.c:80-115 | so does every operation of the doctor's thread |
| `ClinicThreads.VisitorKeeps` | Assignment 6/session.c:117-190 | and of a visitor's thread |
| `ClinicThreads.SpuriousKeeps` | Assignment 6/session.c:132-134 | and a wait that ends without a signal |
| `ClinicThreads.NoLockCycle` | Assignment 6/session.c:239-245 | while the main thread asks for doc_mutex with mutex in hand, doc_state is 0 and the doctor does not ask for mutex with doc_mutex in hand |
| `ClinicThreads.OwnParameter` | Assignment 6/session.c:117-138 | each visitor's thread copies its own parameter: the variable is not reused before it has |
| `ClinicThreads.PrintsThePlan` | Assignment 6/session.c:393-417 | in every interleaving the lines of doctor and visitors are those of the plan in its order, none skipped, and each command's are complete before the next command's begin |
| `ClinicThreads.DeadlockFree` | Assignment 6/session.c:225-524 | in every reachable state some thread can take a step by its own power, or the plan has been carried out, every visitor called has ended and everybody is at rest |
| `ClinicBounds.EveryRunEnds` | Assignment 6/session.c:225-524 | a run with w waits that end without a signal has at most a number of steps that plan and w give, and one that cannot go on by anybody's own power has carried out the plan |
| `ClinicPlans.PlanOfRun` | Assignment 6/session.c:225-524 | the decisions of every run of the event loop make a plan whose visitors see the doctor by class in the order of their numbers, after they have been admitted, and nobody after the end of the session |
| `ClinicPlans.ThreadsShowTheVisits` | Assignment 6/session.c:399-417 | threads that have carried out the plan of a run have printed two lines for each of its visits, in their order, the doctor's and then the visitor's, a last line exactly if the session is over, when the doctor leaves, and nothing else |
| `TopoSorts.WorkerKeeps` | Assignment 5/worker.c:102-124 | every operation of a worker keeps the invariant over permission, semaphores and T |
| `TopoSorts.BossKeeps` | Assignment 5/boss.c:151-157 | so does every operation of the boss's loop, whose test reads idx while workers write it |
| `TopoSorts.SyncCounts` | Assignment 5/worker.c:113-120 | sync[j] is always the number of predecessors of j that have not yet decremented it |
| `TopoSorts.CriticalSection` | Assignment 5/worker.c:106-120 | at most one worker is between its P(mtx) and its V(ntfy), it writes within T, and no decrement ever blocks |
| `TopoSorts.BossHasAnOrder` | Assignment 5/boss.c:151-157 | when the boss leaves its loop, T is a topological order of all nodes |
| `TopoSorts.AcyclicHasOrder` | Assignment 5/boss.c:129-157 | a graph has a topological order if and only if no walk along its edges returns to where it began |
| `TopoSorts.NothingLeftToDecrement` | Assignment 5/boss.c:190-193 | no decrement is left to do when the boss removes the semaphores |
| `TopoSorts.EveryRunEnds` | Assignment 5/boss.c:151-157 | for any graph runs are finite; one that cannot go on has the boss out of its loop if and only if the graph has no cycle |
| `TopoCheck.Indegrees` | Assignment 5/boss.c:129-140 | the double loop computes the indegree of every node |
| `TopoCheck.Check` | Assignment 5/boss.c:166-179 | the loop that takes nodes away in place accepts a list if and only if every node has indegree zero when its turn comes |
| `TopoCheck.CheckIsExact` | Assignment 5/boss.c:166-179 | on permutations of the nodes it accepts exactly the topological orders |
| `TopoCheck.CheckAloneFails` | Assignment 5/boss.c:166-179 | the test alone accepts some list of n nodes that is no topological order if and only if there are at least two nodes and one without predecessors: that node may be named for every place |
| `TopoCheck.BossIsContent` | Assignment 5/boss.c:181-186 | it accepts the result of every run of the workers, and none of them is such a list |
| `Generators.Shuffle` | Assignment 5/gengraph.c:17-21 | for any random numbers PERM holds every number below n once, and is the last of n + 1 lists, from the numbers in order, each the one before it with place i and the place drawn from those at and after i exchanged |
| `Generators.EveryOrderOnce` | Assignment 5/gengraph.c:17-21 | every order of the numbers is reached, and by one sequence of draws only: if the draws are equally likely, so are the orders |
| `Generators.FillGraph` | Assignment 5/gengraph.c:22-28 | every cell of the matrix is assigned, and an edge goes only from an earlier to a later node of PERM |
| `Generators.FilledIsAcyclic` | Assignment 5/gengraph.c:22-28 | such a graph has no cycle, and PERM is a topological order of it |
| `Generators.GenerateGraph` | Assignment 5/gengraph.c:13-33 | the generated graph has no cycle, and its edges are exactly those drawn, from earlier to later places of the shuffled list |
| `Generators.EveryAcyclicGraph` | Assignment 5/gengraph.c:13-33 | every graph without a cycle is generated by some random numbers |
| `Generators.GenerateTree` | Assignment 7/gentree.c:14-35 | the loop ends for every outcome of the random choices and stays within PERM; the numbers drawn are those of the source's cases, at most five and at most the nodes left, at least one for the last node placed; every node but the first gets a parent earlier in PERM, the children of each following those of the one before it, as many as drawn |
| `Generators.ChildrenOfNode` | Assignment 7/gentree.c:25-34 | the node at place k of PERM has exactly as many children as were drawn for place k, and none if no number was |
| `Generators.GeneratedIsTree` | Assignment 7/gentree.c:21-35 | the generated parents make a tree in which every node reaches the unique root, as the tree sum needs it |
| `DirSyncs.JournalCounts` | Assignment 9/sync.c:25-27 | of a report that is a journal of the entries, additions less removals is what the tree has grown by |
| `DirSyncs.Syncer.Copy` | Assignment 9/sync.c:186-199 | the loop by the buffer copies all bytes |
| `DirSyncs.Syncer.RemoveDirectory` | Assignment 9/sync.c:38-88 | the directory and everything below it is gone, each of those removals is reported once and nothing else, and nothing else has changed but the time of the directory above |
| `DirSyncs.Syncer.SyncEntry` | Assignment 9/sync.c:125-269 | one turn of the first loop: at and below the entry the destination is as the source, for all combinations of missing, file and directory, nothing else has changed, and each line owed is reported once and no other: '+' for entries that were missing or of another kind, '-' for entries that are missing in the source or of another kind there, 'o' for files of another size or time |
| `DirSyncs.Syncer.SyncDirs` | Assignment 9/sync.c:104-314 | the first pass: below the directory names and kinds are those of the source, files have the source's bytes unless size and time agreed, nothing outside has changed, and the report is a journal with one new line for each that is owed, entry by entry, and no other; nothing at all changes if there was nothing to do |
| `DirSyncs.Syncer.Stamp` | Assignment 9/sync.c:387-412 | the entry gets the source's time and mode, and the report exactly the lines for what differed |
| `DirSyncs.Syncer.SyncTimePermissions` | Assignment 9/sync.c:326-459 | the second pass sets the times and modes of everything at and below the directory, changes nothing else, and reports each difference once and nothing else |
| `DirSyncs.Syncer.Synchronize` | Assignment 9/sync.c:474-477 | afterwards names, kinds, sizes, times and modes agree everywhere and bytes wherever a file was missing, of another kind, or differed in size or time; each '+', '-' and 'o' line owed to the two trees is reported once, as is each 't' and 'p' line for a difference that the first pass has left, and nothing else; a run on trees that agree changes and reports nothing |
| `DirSyncs.AgreedCopies` | Assignment 9/sync.c:222-222 | after a run the destination is a copy of the source if and only if, before it, every file that had its source's size and time had its bytes |
| `DirSyncs.CopyWithOtherBytes` | Assignment 9/sync.c:222-222 | two trees that agree in sizes, times and modes and differ in the bytes of a file: the run leaves them different |
| `DirSyncs.ReportAccounts` | Assignment 9/sync.c:104-314 | after a run from an empty report, '+' lines less '-' lines are the source's entries less the destination's former entries |

## Left out

- System plumbing: fork and exec details, shared memory keys, signals, terminals, stack allocation, the result file
  and all prints that are not part of a stated property.
- Failures of system calls, such as a full queue, a lost permission or an interrupted wait; in the synchroniser also
  partial writes, symbolic links, special files, sub-second times, access times and changes made by other programs
  during a run.
- PagingTheorems.EveryRunCompletes: assumes that the request budget stays below INT_MAX, which
  `PagingTheorems.BudgetFits` derives from the master's limits; what happens after an overflow of the timestamp is not
  modelled.
- LruReplacement.MoreFramesNeverHurt: for reference strings that keep the timestamp below INT_MAX.
- Fault totals with several processes, and concrete frame numbers: both depend on the schedule.
- PagingCleanup.MisreportIffIllegal: follows one process after the removal of the queues, which is taken to come
  before the process reads its last reply; the signals that the master sends to scheduler and MMU are not modelled. It
  assumes that the request budget stays below INT_MAX.
- Barrier and mutex destruction: the main thread of the tree sum may destroy a barrier that threads are still leaving
  (Assignment 7/computesum.c:81-86), so safe destruction is no theorem.
- Mutexes.Exclusive: for clients that unlock only what they have locked; at fine grain a stale owner could pass the
  test of another thread's unlock, because is_locked is set before the owner fields (Assignment
  7/foothread.c:207-209).
- Thread creation, joining and foothread_exit of the thread library: the tree sum's threads are started in order and
  end.
- TreeSums.ReadTree: for files that list every node once, with a parent for each; files that do not describe a tree
  are not modelled.
- TreeSumProtocol.ReportsAreSums: sums are unbounded integers; the overflow of int is not modelled.
- Reading tree.txt, graph.txt and arrival.txt: the parsed contents are parameters. The clinic's file holds only R, P
  and S events, at most 127 of them and at most 100 reporters, as the fixed arrays require.
- ClinicTheorems.VisitsDoNotOverlap: requires durations that are not negative; the program does not enforce it.
- Clinic threads: the three init flags, conditions and parameters of the classes are one each in the model, since one
  visitor is admitted at a time.
- Clock formatting in the clinic (Assignment 6/session.c:41-78).
- TopoSorts.EveryRunEnds: starts with all semaphores set and all workers started; a worker started before the boss's
  setup is not modelled.
- DirSyncs.Syncer.Synchronize: source and destination do not overlap, and directory listings are those at the time of
  opening. The 't' and 'p' lines are stated of the destination after the first pass, whose new times and modes are the
  system's.
- Assignments 1 to 4: process launching, terminal handling and demonstrations, with shallow state.

