# Scheduler comparison: the ready queue and the three tick loops

This project models the scheduling engine of the `schedulers` C program
(`src/queue.c`, `src/comparison.c`). It then proves what the three
schedulers guarantee of the completion records they write.

- **The ready queue** (`src/queue.c`) is a singly linked list of nodes with
  `head`, `tail` and `count`. Its pushes are:
  - `push`, which appends;
  - `pushBySerivce` and `pushByPriority`, which walk the list and insert
    stably by service time or by priority.

  `pop` takes the head. Module `Queues` models it as a class `Queue` over
  heap `Node`s, with `modifies` frames. The ghost fields `nodes`,
  `Contents` and `Repr` give the list's abstract value. `Insert` and
  `Slot` state the ordered insertion as a function on sequences.
- **The schedulers** are `roundRobinScheduler`, `shortestJobScheduler` and
  `highestPriorityScheduler` in `src/comparison.c`. Each one is a
  `while(TRUE)` tick loop over a job array, a placeholder job, a queue and
  a few locals.
  - Module `Simulation` states one tick as four phases on a value
    `State`: `Consume`, `Expire`, `Admit` and `Dispatch`.
  - Module `Invariants` proves that every phase keeps the loop invariant
    `Inv`.
  - Module `Runs` defines the whole run `Simulate`. It proves that the run
    halts and that its clock never passes `MaxArrival + TotalService`.
    It also proves what the run guarantees of the records.
  - Module `Comparison` holds the imperative schedulers. They are methods
    over the `Process` objects (module `Processes`) and a `Queue`, and
    their loop is proved to write exactly `Simulate(...).records`.

In the state machine, jobs are named by their index in the job array.
The machine also keeps two pieces of bookkeeping that the C code does not
have:
- `finished`: the job behind each record, in order;
- `started`: the tick at which each job last took the CPU.

The properties about fairness and order are stated over these two.

The loops behave as follows:
- a job is admitted at the tick with `arrival == clock`
  (src/comparison.c:191);
- a job's time left is reset to its service at dispatch, and only when it
  is used up (src/comparison.c:205-207);
- the loop stops when the CPU is free, the queue is empty and
  `currentJob == jobCount` (src/comparison.c:197-202);
- `pop` is only called on a non-empty queue (src/comparison.c:187-188,
  203);
- no loop preempts on arrival; round robin preempts only when the quantum
  runs out (src/comparison.c:186-190).

## Model

| member | source | states |
|---|---|---|
| Queues.Precedes | src/queue.c:64 | The walk's ordering test (`j->service >= after->job->service` fails, or the priority test at line 115): `a` is served before `b` only when their keys differ |
| Queues.PrecedesIsStrictOrder | src/queue.c:64 | The ordering test is irreflexive, asymmetric and transitive, and any two jobs either tie (`SameKey`) or one precedes the other |
| Queues.Slot | src/queue.c:64-67 | The walk stops at `k`: no job before `k` is one `p` is to be served before, and the job at `k` (if any) is; the same test with priority is at lines 115-118 |
| Queues.Insert | src/queue.c:69-78 | The queue after an ordered push: one longer, `p` at its slot, the old jobs in their old order around it, and as a multiset the old jobs plus `p` |
| Queues.InsertKeepsSorted | src/queue.c:64-67 | An ordered push keeps a queue sorted by service (non-decreasing) or by priority (non-increasing) |
| Queues.InsertIsStable | src/queue.c:115-118 | An ordered push is stable: the new job goes behind every queued job with the same key, and before every job it is to be served before |
| Queues.Queue.Initialize | src/queue.c:34-36 | After `initialize` the queue is valid and empty |
| Queues.Queue.IsEmpty | src/queue.c:22-24 | `count == 0` exactly when the queue holds no job |
| Queues.Queue.Push | src/queue.c:149-170 | Appends: contents become `old + [j]`, `count` grows by one, the list stays well linked with `tail` on the last node, and only new nodes join the footprint |
| Queues.Queue.PushBySerivce | src/queue.c:48-86 | Contents become `Insert(Service, old, j)`, `count` grows by one; `tail` is set only when the queue was empty and is otherwise left as it was |
| Queues.Queue.PushByPriority | src/queue.c:99-138 | Contents become `Insert(Priority, old, j)`, `count` grows by one; `tail` is set only when the queue was empty and is otherwise left as it was |
| Queues.Queue.PushOrdered | src/queue.c:58-85 | The body both ordered pushes share: contents become `Insert(key, old, j)`, the list stays well linked, `count` grows by one |
| Queues.Queue.LinkFirst | src/queue.c:80-85 | On an empty queue the new node becomes head and tail and `count` is 1 |
| Queues.Queue.Link | src/queue.c:69-78 | Linking the node in after `before` (or as the head when `after` is the head) puts its job at position `k` and leaves the rest of the list in order, `tail` untouched |
| Queues.Queue.Walk | src/queue.c:60-67 | The `before`/`after` loop stops with `after` at node `Slot(key, Contents, j)` (null at the end) and `before` on the node in front of it, or the head |
| Queues.Queue.Pop | src/queue.c:181-191 | On a non-empty queue returns the old head's job, leaves `old[1..]`, `count` drops by one, and a correct `tail` stays correct |
| Simulation.RecordOf | src/comparison.c:179-183 | The output line for a job completing at `clock` carries its name, arrival and completion, and its wait plus its service time is its turnaround `completion - arrival` |
| Simulation.Init | src/comparison.c:162-171 | The loop starts at clock -1 with the CPU free, nothing admitted, no record written and every job's time left as given |
| Simulation.Due | src/comparison.c:205-207 | The time a job gets at dispatch: a positive time left is kept, and a used-up one becomes the service, so a job with `1 <= service` and time left at most its service gets 1 .. service |
| Simulation.Consume | src/comparison.c:175-185 | A tick's first phase: the clock advances by one; the running job's time drops by one; a job reaching zero appends exactly one record and frees the CPU; the queue and admissions are unchanged |
| Simulation.Expire | src/comparison.c:186-190 | Round robin's expiry changes only the queue, the job on the CPU, the quantum and `started`: the clock, times, records and the CPU being busy are untouched |
| Simulation.Place | src/comparison.c:191-196 | The position the policy's push gives the job is within the queue (the tail for round robin, the ordered slot otherwise) |
| Simulation.Enqueue | src/comparison.c:192-195 | One admission: the job goes in at its place, `currentJob` advances, nothing else changes; round robin appends |
| Simulation.EnqueueInserts | src/comparison.c:257-262 | For the ordered policies, the queued jobs after an admission are `Insert(key, old jobs, job)`, which is what `pushBySerivce`/`pushByPriority` build |
| Simulation.Admit | src/comparison.c:191-196 | The admission loop admits exactly the jobs from `currentJob` on that arrive at this tick, stops at the first that does not, and changes nothing but the queue and `currentJob` |
| Simulation.Dispatch | src/comparison.c:197-211 | Dispatch leaves the clock, `currentJob`, records and finished jobs alone |
| Simulation.Halted | src/comparison.c:197-202 | The exit test (CPU free, queue empty, every job admitted); when it holds, every admitted job has finished |
| Simulation.Tick | src/comparison.c:174-212 | One pass of the loop moves the clock on by exactly one |
| Invariants.LeftAtMostService | src/comparison.c:205-207 | No job ever needs more CPU time than its service |
| Invariants.InitInv | src/comparison.c:162-171 | The state the loop starts in keeps the invariant |
| Invariants.InitShape | src/comparison.c:166-171 | At the start nothing is admitted, queued, dispatched or recorded, so the structural parts of the invariant hold |
| Invariants.InitClocked | src/comparison.c:169 | At clock -1 every job still needs its whole service |
| Invariants.ConsumeShape | src/comparison.c:177-185 | Using a tick loses and repeats no job |
| Invariants.ConsumeTimes | src/comparison.c:177 | Using a tick keeps every job's time left within 1 .. service while it waits or runs under round robin, equal to its start value while it waits under the non-preemptive policies, and used up once finished |
| Invariants.ConsumeTimesIdle | src/comparison.c:177 | An idle tick (the placeholder on the CPU) changes no job's time |
| Invariants.ConsumeTimesBusy | src/comparison.c:177-184 | A busy tick takes one from the running job's time only |
| Invariants.ConsumeLog | src/comparison.c:178-185 | The records stay one per finished job, in completion order, with completion no earlier than arrival + service |
| Invariants.ConsumeLogDone | src/comparison.c:179-183 | The record written for a completing job names it, copies its arrival, and has wait `clock - service - arrival` |
| Invariants.ConsumeClocked | src/comparison.c:176-177 | The clock plus the work still outstanding never passes `MaxArrival + TotalService` |
| Invariants.ConsumeClockedIdle | src/comparison.c:176 | An idle tick keeps the clock within the horizon: it only happens while a job is still to arrive |
| Invariants.ConsumeClockedBusy | src/comparison.c:176-177 | A busy tick uses one tick of outstanding work as the clock moves on by one |
| Invariants.ConsumeBusyLeft | src/comparison.c:177-185 | On a busy tick the running job needs exactly one tick less and every other job needs what it needed before |
| Invariants.ConsumeTiming | src/comparison.c:178-184 | Without preemption a job completes exactly `service` ticks after its dispatch |
| Invariants.ConsumeRest | src/comparison.c:175 | The quantum keeps counting down from the running job's dispatch; queue order and round robin's index order are unaffected |
| Invariants.ConsumeStep | src/comparison.c:175-185 | The first phase of a tick keeps the between-phase invariant |
| Invariants.ExpireNeedsLongJob | src/comparison.c:186 | The quantum only runs out on a job whose service time exceeds `MAX_QUANTUM` ticks |
| Invariants.ExpireFires | src/comparison.c:186-190 | On expiry the running job goes to the tail and the old head (or the same job, on an empty queue) takes the CPU with a fresh quantum |
| Invariants.Rotate | src/comparison.c:187-188 | Moving the running job to the tail and the head onto the CPU loses and repeats no job |
| Invariants.ExpireShape | src/comparison.c:186-190 | Expiry loses and repeats no job |
| Invariants.RotateShape | src/comparison.c:187-188 | The rotation keeps every admitted job in exactly one place |
| Invariants.ExpireTimes | src/comparison.c:186-190 | Expiry keeps every queued or running job's time within 1 .. service |
| Invariants.RotateTimes | src/comparison.c:187-188 | The preempted job's time and its waiting time so far stay consistent once queued |
| Invariants.ExpireTiming | src/comparison.c:186-190 | Expiry restarts the quantum at the new job's dispatch tick and keeps every dispatch at or after arrival |
| Invariants.ExpireStep | src/comparison.c:186-190 | The expiry phase keeps the between-phase invariant |
| Invariants.InsertShape | src/comparison.c:191-196 | Admitting job `currentJob` at any position loses and repeats no job |
| Invariants.EnqueueShape | src/comparison.c:193-194 | One admission keeps every admitted job in exactly one place |
| Invariants.EnqueueTimes | src/comparison.c:191-194 | A job admitted at its arrival tick still has its whole time left, and has waited zero ticks |
| Invariants.EnqueueQueued | src/comparison.c:193 | Every queued job's time stays consistent after an insertion |
| Invariants.EnqueueClocked | src/comparison.c:191-194 | Admitting the job that arrives at this tick keeps `Clocked`: every admitted job has arrived by the current tick, the next job arrives at this tick or later, and clock plus outstanding work stays within the horizon |
| Invariants.EnqueueOrdered | src/comparison.c:257-262 | Pushing by service or priority keeps the queue sorted, ties in admission order, and every earlier dispatch the right choice |
| Invariants.PlaceKeepsSorted | src/queue.c:64-78 | The slot the ordered push picks keeps the jobs sorted and goes behind every job with the same key |
| Invariants.InsertOrdered | src/comparison.c:322-327 | Inserting the new job at such a slot keeps the ordering invariant |
| Invariants.InsertTies | src/queue.c:115-118 | Ties stay in index order when a later job goes behind every job with its key |
| Invariants.InsertChoices | src/comparison.c:257-262 | A job arriving now cannot have been a better choice for any earlier dispatch |
| Invariants.EnqueueRest | src/comparison.c:193-194 | Admission leaves the dispatched jobs, their timing and the quantum alone |
| Invariants.EnqueueFifo | src/comparison.c:193 | Round robin with short jobs keeps the admitted jobs `0 .. currentJob-1` in order |
| Invariants.EnqueueStep | src/comparison.c:191-196 | One admission keeps the between-phase invariant |
| Invariants.AdmitStep | src/comparison.c:191-196 | The whole admission loop keeps the invariant and leaves the next job still to arrive |
| Invariants.DispatchFires | src/comparison.c:203-210 | A dispatch pops the head onto the CPU, restores a used-up time to the service, and records the dispatch tick |
| Invariants.DispatchShape | src/comparison.c:204 | Popping the head onto the CPU loses and repeats no job |
| Invariants.DispatchTimes | src/comparison.c:205-207 | A dispatched job's time is within 1 .. service, and equals the service without preemption |
| Invariants.DispatchClocked | src/comparison.c:205-207 | Resetting a used-up time to the service leaves the outstanding work as it was |
| Invariants.DispatchTiming | src/comparison.c:204-209 | Every dispatch is at or after the job's arrival and no later than the clock; without preemption a job is dispatched no earlier than every earlier completion and completes exactly `service` ticks later; round robin's quantum starts at the dispatch |
| Invariants.DispatchOrdered | src/comparison.c:270 | Shortest job and highest priority dispatch the right job: the head beats every other job that has arrived, ties to the earliest |
| Invariants.QueueTailOrdered | src/comparison.c:335 | The queue behind the popped head stays sorted, ties in index order |
| Invariants.DispatchChoices | src/comparison.c:263-275 | The head of a sorted queue is the right choice over every queued job, and earlier choices stay right |
| Invariants.DispatchStep | src/comparison.c:197-211 | The dispatch phase turns the between-phase invariant into the end-of-tick invariant |
| Invariants.TickStep | src/comparison.c:174-212 | Every tick of a loop that has not stopped keeps the invariant |
| Runs.Run | src/comparison.c:174-212 | The loop from any reachable state ends in a state that keeps the invariant and meets the exit test, with the clock past where it was and within `MaxArrival + TotalService` |
| Runs.Simulate | src/comparison.c:157-219 | A scheduler's run ends halted (CPU free, queue empty, every job admitted) at a clock within 0 .. `MaxArrival + TotalService` |
| Runs.Start | src/comparison.c:162-171 | The initial state keeps the invariant and the loop runs from it |
| Runs.SimulateInv | src/comparison.c:212 | The state the run exits in keeps the invariant |
| Runs.Ticks | src/comparison.c:174-176 | After `k` passes of the loop the clock is `k - 1` |
| Runs.HaltedStays | src/comparison.c:197-202 | Once the exit test holds it holds after any further tick |
| Runs.TicksOnTrack | src/comparison.c:174 | Any state the loop reaches keeps the invariant, and running on from it gives the same result as the whole run |
| Runs.NextOnTrack | src/comparison.c:174-212 | A tick that does not end the loop keeps the rest of the run the same |
| Runs.Advance | src/comparison.c:174-212 | From a reachable state one tick stays within the horizon and either ends the loop in exactly `Simulate`'s final state or reaches the next state |
| Runs.TickFacts | src/comparison.c:197-202 | A tick from a state on the way to `Simulate` that meets the exit test is `Simulate`'s final state |
| Runs.ReachesInit | src/comparison.c:166-171 | The loop starts in a state it reaches |
| Runs.HaltedAllFinished | src/comparison.c:197-202 | At the exit, every job has finished exactly once and none has time left |
| Runs.EveryJobRecordedOnce | src/comparison.c:178-185 | Every job yields exactly one record, in completion order. The record names the job and copies its arrival. Its wait is never negative and its completion is within the horizon |
| Runs.RunUsesUpEveryJob | src/comparison.c:205-207 | After a run no job has time left, so a rerun on the same array restarts every job at its service |
| Runs.RunsToCompletion | src/comparison.c:263-275 | Without preemption a job is dispatched at or after its arrival and completes exactly `service` ticks after its dispatch |
| Runs.BestJobChosen | src/comparison.c:257-275 | Shortest job and highest priority: a job finished before another that had already arrived at its dispatch has no worse a key, and on a tie comes first in the job list |
| Runs.ShortJobsFinishInOrder | src/comparison.c:157-219 | Round robin where no job needs more than one quantum finishes the jobs in job-list order |
| Runs.HaltedFifo | src/comparison.c:197-202 | At the exit of such a round robin run, the finished jobs are `0, 1, ..., n-1` |
| Comparison.ConsumePhase | src/comparison.c:175-185 | The code's first phase takes the heap and locals from state `s` to `Consume(s)` |
| Comparison.ExpirePhase | src/comparison.c:186-190 | `push` then `pop` on the linked queue takes the heap from `Consume(s)` to `Expire(...)` |
| Comparison.EnqueueJob | src/comparison.c:192-195 | Pushing `processes[currentJob]` by the policy's push is one `Enqueue` step |
| Comparison.EnqueueAtTail | src/comparison.c:193 | Round robin's `push` is `Enqueue` at the tail |
| Comparison.EnqueueByKey | src/comparison.c:259 | `pushBySerivce` (and `pushByPriority`, line 324) is `Enqueue` at the ordered slot |
| Comparison.AdmitPhase | src/comparison.c:191-196 | The admission loop takes the heap to `Admit(s)` |
| Comparison.AdmitLoop | src/comparison.c:191-196 | The loop keeps the heap matching the state, and the state's remaining admissions unchanged, until no job arrives now |
| Comparison.DispatchPhase | src/comparison.c:197-211 | The dispatch code takes the heap to `Dispatch(s)`, and breaks exactly when the state is halted |
| Comparison.RunPhases | src/comparison.c:175-190 | The first two phases take the heap to `Expire(Consume(s))` |
| Comparison.QueuePhases | src/comparison.c:191-211 | The last two phases complete `Tick(s0)`, and the exit test is `Halted(Tick(s0))` |
| Comparison.Step | src/comparison.c:174-212 | One pass of the loop takes the heap from `s` to `Tick(s)`, and `stop` is exactly the exit test |
| Comparison.Turn | src/comparison.c:174-212 | A pass from a reachable state moves the clock on within the horizon; when it stops the records and times are `Simulate`'s |
| Comparison.Schedule | src/comparison.c:157-219 | A scheduler run writes exactly `Simulate(policy, ...).records` and leaves every job's time as the run does |
| Comparison.RoundRobinScheduler | src/comparison.c:157-219 | `roundRobinScheduler` writes exactly the records of the round robin run |
| Comparison.ShortestJobScheduler | src/comparison.c:230-284 | `shortestJobScheduler` writes exactly the records of the shortest job run |
| Comparison.HighestPriorityScheduler | src/comparison.c:295-349 | `highestPriorityScheduler` writes exactly the records of the highest priority run |

## Left out

- `main`, `readJobs` and `calculateWait` (src/comparison.c:35-146) are not modelled. They read the job file, print, and average the wait column. The wait values are in the records.
- The output file is modelled as the sequence `records`. `fopen` and its failure exit (src/comparison.c:158-160, 215-218) are left out, and so are `fprintf` formatting and `fclose`.
- `malloc`, the out-of-memory `exit(1)` in the pushes, and `free` in `pop` are left out. A popped node leaves the queue's footprint and is otherwise not reclaimed. The placeholder job on the CPU is a fresh `Process` with time left -1. Its other fields are never read; the model gives it an empty name and zero arrival, service and priority.
- The functions that `src/queue.h` declares but `src/queue.c` does not define (`length`, `pushByService`, `pushByArrival`, `copy`) are not part of this model.
- Comparison.Schedule: the admission loop's guard is modelled as `currentJob < jobCount && processes[currentJob].arrival == clock`. The C loop tests the arrival first, which reads `processes[jobCount]` past the last job. If that element's arrival equals the clock, the C loop spins for ever. The model does not cover that out-of-bounds read.
- Comparison.Schedule: requires distinct job objects, arrivals non-negative and non-decreasing, and services of at least one. Without them the C loop never ends: a job that arrives out of order is never admitted (jobs arriving at ticks 1 and then 0: the second one's arrival never equals the clock once the first is admitted), and a zero-service job never completes. The job's time left must be its service; for the two ordered policies it may also be used up by an earlier run on the same array, as happens in `main`.
- Queues.Queue.Pop: requires a non-empty queue. On an empty queue the C function returns an uninitialised pointer. The schedulers only pop after a push or an emptiness test.
- Queues.Queue.PushBySerivce and Queues.Queue.PushByPriority do not move `tail` when they insert at the end of a non-empty queue. This is faithful to the code. `Valid` therefore does not include `TailIsLast`. Only round robin, which never uses the ordered pushes, relies on it.
- Integers are unbounded. The C `int` fields cannot overflow as long as the latest arrival plus the total service fits in an `int`, since `Run` proves the clock never exceeds that sum.
- Queues.Queue.constructor promises nothing about the fields, like the uninitialised `queue waiting;`. `Initialize` only sets `count`, as the C code does.
- The body of the `while(TRUE)` loop is split into phase methods that pass the C locals in and out. This split is an organisation of the proof and adds no behaviour.
- The shortest job and highest priority loops have no quantum. The machine's `quantum` field is simply left unchanged for them.

