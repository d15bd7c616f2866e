# Verification of the ASP3 kernel

A model of the TOPPERS/ASP3 real-time kernel at the level of its data structures and service calls,
with proofs. A service body runs with the CPU locked, so each call is one atomic step. What is proved
holds for any number of tasks, objects and calls.

The project has five parts.

**Time events.** The kernel keeps times in 32-bit words that wrap, and compares them relative to a
boundary that moves with the clock. `TimeModel` has the same clock in unbounded integers. It proves that
every run keeps all pending events inside a window in which the 32-bit comparison is exact, also under
`adj_tim` in both directions, and that the 64-bit system time is rebuilt correctly. `Heap` is the binary
heap with back pointers; the class in `TimeEvent` is the heap in an array with the 32-bit words, sifted
in place, shown to refine the unbounded clock: every call of it is a run of `TimeModel`. `Firing` says
what follows for the call backs of any run: their order, their number and their times. `Signal` has the runs of
`signal_time`, turn by turn, with whatever the handlers ask for, and `TimeService` the calls from outside:
what each promises, and what follows for any sequence of them, `set_tim` included.
`HrTimer` is the arithmetic of the RZ/A1 timer that all of it reads.

The kernel relies on its environment to read the timer before an event is overdue by more than the
boundary margin. In `TimeModel` this is a condition on runs (`TimelyReadings`). In the class it is part of
how the timer is read: a reading is asked for a number of counts after the last one, and comes then, or,
if that were too late for the first event, at the last good moment (`TimeModel.InTime`). Every timely
behaviour of the timer is covered, and none that is not.

**Tasks, scheduling and mutexes.** `KernelModel` is an abstract kernel: one ready list in order of
precedence, the wait queues, the list of mutexes each task holds, and a task to be run that is defined
rather than stored. `KernelSafety` has its invariant and what each internal operation keeps,
`KernelRuns` shows that every service call and so every run keeps it, and `KernelTheorems` says what that
means for tasks and mutexes. `KernelEffects` says what each call does, in the kernel's records alone: one
lemma for each call, with all its refusals, for every state in which the invariant holds (so for every
reachable one). `KernelOrder` shows that over any run nobody overtakes in a wait queue. The class in
`Kernel` is the kernel's own data: a queue per priority with the set of non-empty priorities, the cached
task to be run, the control blocks, and the mutexes linked through `p_prevmtx`. Each of its service calls
is shown to do exactly what the abstract kernel does, with the same result code; the result of a call that waits is what its WINFO holds when it is released.
`Precedence`, `ReadyQueue`, `LinkedList` hold the lists behind it.

**Storage and flags.** `Dataqueue` (a ring), `Pridataq` (a sorted list and a free list in one table),
`Mempfix` (a free list with marks in an index array) and `Eventflag` (a scan that deletes as it goes)
each have the data in memory as a class and, beside it, a model of what the object means, with its waiting
tasks in a `WaitQueue`.

**Queues.** `Queue` is the circular doubly linked queue that every other part of the kernel uses:
its operations on shared link fields are shown to change one ring and leave all others alone. The other
modules therefore treat a queue as a sequence.

**Small helpers.** `Options`, `Counting` and `Subsequence`.

Pointers are numbers, null pointers are `None` (or the source's own special index values in
`Mempfix`). Widths that matter are written out: 32-bit times and counts, the 64-bit system time, 32-bit
flag patterns. Comments in the classes name the source routine that each method models. The
assertions of the source appear as assertions or preconditions that are proved.

Three facts that a reader of the source may not expect:

* `mutex_drop_priority` computes a priority anew only if the dropped ceiling equals the current
  priority. This is enough (`Kernel.GivingUp`).
* `fsnd_dtq` on a full data queue with waiting senders puts its datum before what those senders sent
  earlier; without waiting senders data come out in the order sent
  (`DataqueueModel.ForceSendOvertakes`, `DataqueueModel.RunIsFifo`).
* The factor 999999999 in `target_hrt_get_current` counts one tick too many per 10^9, and the four extra
  ticks of a 32-bit cycle make the rounded cycle length exact (`HrTimer.MicrosExact`).

## Model

| member | source | states |
|---|---|---|
| TimeModel.WindowIsInside | asp3/kernel/time_event.c:89-97 | Every pending event lies within 2^32 of the boundary while the clock window holds |
| TimeModel.CompareExact | asp3/kernel/time_event.c:89-97 | `EVTTIM_LT` and `EVTTIM_LE` on 32-bit words agree, in both directions, with the order of the unbounded event times |
| TimeModel.AdvanceIsElapsed | asp3/kernel/time_event.c:357-370 | The 32-bit advance, with TCYC_HRTCNT added at a wrap, is the time that passed between the two readings |
| TimeModel.OffsetCarry | asp3/kernel/time_event.c:371-382 | The 64-bit offset plus the 32-bit monotonic time follows the unbounded system time over a wrap |
| TimeModel.AlarmNeverLate | asp3/kernel/time_event.c:404-423 | An alarm set as set_hrt_event sets it is never later than HRTCNT_BOUND nor than any pending event |
| TimeModel.AlarmIsForFirst | asp3/kernel/time_event.c:404-423 | Nor is the alarm early: it comes when the first event is due, at once if it was due already, and after HRTCNT_BOUND counts if none is due until then |
| TimeModel.FirstWithout | asp3/kernel/time_event.c:447-467 | The earliest event changes only when a strictly earlier one is added |
| TimeModel.FirstAfterRemoval | asp3/kernel/time_event.c:477-494 | The earliest event changes only when it is itself removed |
| TimeModel.AdjustIsSafe | asp3/kernel/time_manage.c:154-176 | An adjustment that check_adjtim lets through, in either direction, keeps all events inside the window |
| TimeModel.AdjustmentTakesEffect | asp3/kernel/time_event.c:504-514 | An adjustment within the range takes effect exactly if, forward, no event is a second or more overdue, and, backward, the clock is less than a second behind its highest value; otherwise nothing changes |
| TimeModel.AdjustmentIsBounded | asp3/kernel/time_manage.c:154-165 | No adjustment leaves the clock two seconds behind its highest value, or an event two seconds overdue that was not |
| TimeModel.StepKeepsWindow | asp3/kernel/time_event.c:447-494 | Each of registration, removal, clock advance, adjustment and set_tim keeps the window |
| TimeModel.RunKeepsWindow | asp3/kernel/time_event.c:53-55 | Every run keeps the window, provided only that no event is left overdue by more than BOUNDARY_MARGIN when the clock is read |
| TimeModel.RunComparesExactly | asp3/kernel/time_event.c:89-97 | After any such run the 32-bit comparison of any two pending events is the comparison of their true times |
| TimeModel.SystemTimeFollowsPeak | asp3/kernel/time_manage.c:119-135 | Over any run between two set_tim calls the system time grows by the growth of the highest event time reached, so it never decreases, also under negative adjustments |
| TimeModel.TicksAreElapsedTime | asp3/kernel/time_event.c:357-370 | Over any run the event time grows by exactly the ticks elapsed and the adjustments that were accepted |
| TimeModel.InTimeIsTimely | asp3/kernel/time_event.c:53-55 | The model of the environment: every reading of the timer that comes in time for the first event comes as meant, and no other is made |
| Heap.MoveParent | asp3/kernel/time_event.c:158-184 | One step of the upward sift keeps order around the hole and the back pointers |
| Heap.MoveChild | asp3/kernel/time_event.c:198-234 | One step of the downward sift keeps order around the hole and the back pointers |
| Heap.Place | asp3/kernel/time_event.c:245-259 | Filling the hole gives an ordered heap with the block added |
| Heap.TakeOut | asp3/kernel/time_event.c:265-316 | Removing any block leaves one hole in an ordered heap |
| Heap.RootIsMinimum | asp3/kernel/time_event.c:322-349 | The root of the heap is an event no other precedes |
| Heap.Occupancy | asp3/kernel/time_event.c:245-259 | The heap holds exactly as many nodes as there are events |
| Heap.RoomForOne | asp3/kernel/time_event.c:245-259 | There is room in the heap for every block not yet registered |
| TimeEvent.TimeEvents.Up | asp3/kernel/time_event.c:158-184 | tmevt_up finds a place where heap order holds above and below, by 32-bit comparisons alone |
| TimeEvent.TimeEvents.Down | asp3/kernel/time_event.c:198-234 | tmevt_down finds such a place below, also when it starts at the position just given up |
| TimeEvent.TimeEvents.Insert | asp3/kernel/time_event.c:245-259 | tmevtb_insert keeps order and back pointers and adds exactly the one event |
| TimeEvent.TimeEvents.Delete | asp3/kernel/time_event.c:265-316 | tmevtb_delete, at any position and also for the last node, keeps order and back pointers and removes exactly the one event |
| TimeEvent.TimeEvents.DeleteTop | asp3/kernel/time_event.c:322-349 | tmevtb_delete_top returns an event that none precedes and removes exactly it |
| TimeEvent.TimeEvents.UpdateCurrent | asp3/kernel/time_event.c:357-383 | update_current_evttim advances the unbounded clock by the elapsed time; words, boundary, heap order and system time stay right |
| TimeEvent.TimeEvents.NextInterrupt | asp3/kernel/time_event.c:404-423 | The distance to the next interrupt is that to the earliest event, at most HRTCNT_BOUND, and 0 if an event is due |
| TimeEvent.TimeEvents.SetHrtEvent | asp3/kernel/time_event.c:404-423 | After set_hrt_event the programmed alarm is not later than the earliest event |
| TimeEvent.TimeEvents.Enqueue | asp3/kernel/time_event.c:447-467 | tmevtb_enqueue registers the event at the current upper bound plus the delay, and the alarm stays early enough although it reprograms only for a new first event |
| TimeEvent.TimeEvents.Dequeue | asp3/kernel/time_event.c:477-494 | tmevtb_dequeue removes exactly the event; reprogramming only when the first event goes is enough |
| TimeEvent.TimeEvents.CheckAdjtim | asp3/kernel/time_event.c:504-514 | check_adjtim refuses exactly the adjustments that the unbounded model refuses |
| TimeEvent.TimeEvents.LeftTime | asp3/kernel/time_event.c:524-547 | tmevt_lefttim gives the time left until the event, or 0 when it has passed |
| TimeEvent.TimeEvents.SetTim | asp3/kernel/time_manage.c:93-109 | After set_tim the system time is the one given, and event time, events and alarm are as the reading left them |
| TimeEvent.TimeEvents.GetTim | asp3/kernel/time_manage.c:119-135 | get_tim returns the unbounded system time modulo 2^64 |
| TimeEvent.TimeEvents.AdjTim | asp3/kernel/time_manage.c:145-182 | adj_tim, forward or backward, is the adjustment of the unbounded clock, and the alarm stays early enough |
| TimeEvent.TimeEvents.Start | asp3/kernel/alarm.c:125-150 | sta_alm (sta_cyc alike) leaves the block due at the given delay after the upper bound of the time read, whether it was pending before or not, and all other events as they were; the alarm stays early enough |
| TimeEvent.TimeEvents.Stop | asp3/kernel/alarm.c:160-181 | stp_alm (stp_cyc alike) leaves the block not pending and all other events as they were |
| TimeEvent.TimeEvents.Renew | asp3/kernel/cyclic.c:238-258 | call_cyclic registers the next cycle exactly one period later; an alarm is not registered again |
| TimeEvent.TimeEvents.FireTop | asp3/kernel/time_event.c:583-588 | One call back of signal_time: a first and due event is taken, a cyclic one registered again one period later, and every request of its handler carried out exactly |
| TimeEvent.TimeEvents.FireDue | asp3/kernel/time_event.c:583-588 | The inner loop ends, with no event due any more, having made only call backs of first and due events |
| TimeEvent.TimeEvents.SignalLoop | asp3/kernel/time_event.c:568-589 | The outer loop ends, with no event due at the time last read; it has read the timer again only after call backs |
| TimeEvent.TimeEvents.SignalTime | asp3/kernel/time_event.c:557-599 | signal_time makes a complete run: what it returns are its readings and call backs in turn, and the clock and all events are afterwards exactly what these turns and the requests of the handlers make of them; nothing is due any more and the alarm is set |
| TimeEvent.TimeEvents.InitializeCyclic | asp3/kernel/cyclic.c:103-126 | Exactly the cyclic handlers with TA_STA are registered, at their phases |
| TimeEvent.TimeEvents.StartKernel | asp3/kernel/startup.c:115-116 | When the timer is first read and set, the alarm is early enough for the events registered so far |
| TimeEvent.TimeEvents.constructor | asp3/kernel/time_event.c:135-144 | initialize_tmevt: an empty heap, event time and system time 0 |
| TimeEvent.TimeEvents.Serve | asp3/kernel/time_manage.c:93-182 | Any call of the time management, and the timer interrupt, does to the clock and the events, and returns, what it promises, as a regular run of the unbounded model, and leaves the alarm early enough |
| TimeEvent.TimeEvents.ServeAll | asp3/kernel/time_manage.c:119-135 | Any sequence of such calls, set_tim among them, is a history in which each call does what it promises; what holds of all histories holds of it |
| TimeService.ServiceIsRegular | asp3/kernel/time_manage.c:93-182 | What each call does to the clock is timely and proper, and only set_tim sets the time |
| TimeService.ServiceEffect | asp3/kernel/time_manage.c:93-182 | What each call brings about: the time set, an adjustment made or refused, an event registered at the time asked for or removed, and after the timer interrupt nothing due |
| TimeService.GetTimFollowsSetTim | asp3/kernel/time_manage.c:119-135 | Over any sequence of calls get_tim returns, modulo 2^64, the time last set plus the growth of the highest event time since |
| TimeService.GetTimNeverDecreases | asp3/kernel/time_manage.c:119-135 | Over any sequence of calls the system times of two get_tim without a set_tim between them do not decrease |
| TimeService.CalledBackAsAsked | asp3/kernel/time_event.c:447-458 | Over any sequence of calls, the first call back after sta_alm or sta_cyc that no other start or stop of the block precedes is logged at the delay asked for after the upper bound of the time at the call, and does not come before |
| TimeService.CalledBackInTheEnd | asp3/kernel/time_event.c:557-599 | Over any sequence of calls, a block started is called back once signal_time has run with its time come, unless it is started anew or stopped |
| TimeService.StoppedStaysSilent | asp3/kernel/alarm.c:160-181 | Over any sequence of calls, a stopped block is not called back until it is started again |
| Firing.FiredInOrder | asp3/kernel/time_event.c:583-588 | Over any regular run in which the clock is not set back, call backs come in non-decreasing order of the due times registered, none before it is due, and before all that is still registered |
| Firing.SettingBackBreaksOrder | asp3/kernel/time_manage.c:160-165 | A run in which the clock is set back and the second call back is due earlier than the first: the condition on order is needed |
| Firing.CalledBackPerRegistration | asp3/kernel/alarm.c:225-244 | Over any regular run an alarm or time limit is called back exactly once for each registration that is neither removed before nor still pending |
| Firing.PhaseIsKept | asp3/kernel/cyclic.c:238-258 | A cyclic event that nobody starts or stops is due, after n call backs, exactly n of its periods later than it was |
| Firing.NeverEarly | asp3/kernel/time_event.c:447-458 | An event registered with a delay is next called back under the due time registered, and not before that delay after the upper bound of the time then |
| Firing.NextCallBack | asp3/kernel/time_event.c:583-588 | Over any regular run the next call back of a pending event is logged under the due time it has, and does not come before it |
| Firing.NotForgotten | asp3/kernel/time_event.c:568-589 | Over any regular run after which nothing is due, an event whose time has come was called back, unless it was started or stopped |
| Signal.SignalIsRegular | asp3/kernel/time_event.c:557-599 | Every run signal_time can make, whatever its handlers ask for, reads the timer in time and keeps the window |
| Signal.RequestEffect | asp3/kernel/alarm.c:125-181 | What a request of a handler brings about: an alarm armed is due at its delay after the upper bound of the time read, one disarmed is not pending, an adjustment is made or refused, and nothing else changes |
| Signal.HandlerSplits | asp3/kernel/alarm.c:225-244 | The requests of a handler are served one after the other |
| Signal.LastRequestDecides | asp3/kernel/alarm.c:125-181 | After a handler a block is pending or not, and due, as the last request for it says |
| Signal.UnconcernedStays | asp3/kernel/alarm.c:125-181 | A handler leaves alone the events it does not ask for |
| Signal.ReadEffect | asp3/kernel/time_event.c:574-577 | A reading by signal_time lets pass the time meant, unless that were too late, and changes no event |
| Signal.CallEffect | asp3/kernel/time_event.c:583-588 | A call back takes a first and due event out, registers a cyclic one again exactly one of its periods later, and then its handler does what it asks for |
| Signal.CallsAreLogged | asp3/kernel/time_event.c:583-588 | Each call back made is logged once, under the due time its event was registered with |
| Signal.SignalFiresInOrder | asp3/kernel/time_event.c:557-599 | During one signal_time call backs come in non-decreasing order of due times, none before it is due, unless a handler sets the clock back |
| Signal.SignalKeepsPhase | asp3/kernel/cyclic.c:238-258 | One signal_time calls a cyclic event back for every cycle that has become due, and for no other |
| Signal.SignalCallsPerRegistration | asp3/kernel/alarm.c:225-244 | During one signal_time, call backs of an alarm or time limit, removals by handlers and a pending registration at the end together are what was pending before and what the handlers that ran started |
| Firing.OverdueDrops | asp3/kernel/cyclic.c:238-244 | The sum over all events of max(0, now - event + 1) drops with each call back of a handler that starts nothing, because periods are positive |
| Queue.RingIsEmpty | asp3/include/queue.h:151-158 | A header that points to itself is the header of an empty queue, in both directions of links |
| Queue.RingFrame | asp3/include/queue.h:77-143 | A queue none of whose entries is written stays as it is |
| Queue.InsertRing | asp3/include/queue.h:90-111 | The four writes put the entry between two neighbours of the ring |
| Queue.DeleteRing | asp3/include/queue.h:119-123 | The two writes take exactly the entry out of the ring |
| Queue.Queues.Initialize | asp3/include/queue.h:77-81 | queue_initialize makes an empty ring; others stay |
| Queue.Queues.InsertPrev | asp3/include/queue.h:90-96 | queue_insert_prev puts the entry before the given one, at the end if that is the header; other rings stay |
| Queue.Queues.InsertNext | asp3/include/queue.h:105-111 | queue_insert_next puts the entry behind the given one; other rings stay |
| Queue.Queues.Delete | asp3/include/queue.h:119-123 | queue_delete takes the entry out of wherever in its ring; other rings stay |
| Queue.Queues.DeleteNext | asp3/include/queue.h:134-143 | queue_delete_next takes the first entry and returns it; its assertion holds |
| Queue.Queues.Empty | asp3/include/queue.h:151-158 | queue_empty tells exactly the empty queue; its assertion holds |
| Precedence.InsertSplits | asp3/kernel/wait.h:62-74 | The task goes behind all tasks of its own or higher priority (or, put in front, before its equals) |
| Precedence.InsertAt | asp3/kernel/wait.h:62-74 | The place where the search stops is that place |
| Precedence.InsertSorted | asp3/kernel/wait.h:62-74 | Insertion keeps the queue in order of priority |
| Precedence.InsertKeepsOthers | asp3/kernel/task.c:326-373 | Moving a task leaves the order of all others as it was |
| Precedence.FrontAgain | asp3/kernel/task.c:342-344 | Taking a task out and putting it before its equals changes nothing if and only if it stood there |
| ReadyQueue.AppendIsInsert | asp3/kernel/task.c:226-231 | Appending to the queue of its priority is insertion by precedence into the ready queue as a whole |
| ReadyQueue.PrependIsInsert | asp3/kernel/task.c:342-347 | Putting at the head of that queue is insertion before its equals |
| ReadyQueue.DeleteIsWithout | asp3/kernel/task.c:253-261 | Deleting from that queue removes exactly the task |
| ReadyQueue.SearchFindsFirst | asp3/kernel/task.c:207-213 | The head of the highest non-empty queue is the task first in precedence; the map of priorities is empty exactly if no task can run |
| ReadyQueue.ChangeMap | asp3/kernel/task.c:187-199 | Setting or clearing the bit of a changed queue keeps: bit set if and only if queue not empty |
| KernelSafety.ChangePriorityCore | asp3/kernel/task.c:326-373 | change_priority keeps every queue linked as the states say and sorted |
| KernelSafety.ReprioritizeCore | asp3/kernel/mutex.c:215-248 | Giving a task the priority it must have re-establishes the priority of every task |
| KernelSafety.CeilingBounds | asp3/kernel/mutex.c:215-229 | The computed priority is the highest of the base priority and the ceilings held |
| KernelSafety.HandOverCore | asp3/kernel/mutex.c:277-303 | Handing a mutex to the first waiting task keeps queues, time event blocks, chains and priorities, although its priority is written outside any queue |
| KernelSafety.ReleaseLastCore | asp3/kernel/mutex.c:313-321 | Releasing all mutexes of a task ends with none held and everything else in order |
| KernelSafety.TerminateCore | asp3/kernel/task.c:409-426 | task_terminate keeps every invariant, whatever the task was doing |
| KernelSafety.EndWaitCore | asp3/kernel/wait.c:80-110 | Ending a wait for any reason keeps the invariants |
| KernelSafety.EnterWaitCore | asp3/kernel/wait.c:56-70 | Entering a wait keeps the invariants |
| KernelSafety.FlushCore | asp3/kernel/wait.c:186-196 | init_wait_queue keeps the invariants |
| KernelRuns.ActivateKeeps | asp3/kernel/task_manage.c:110-150 | act_tsk keeps the invariant |
| KernelRuns.TerminateKeeps | asp3/kernel/task_term.c:300-327 | ter_tsk keeps the invariant |
| KernelRuns.RequestKeeps | asp3/kernel/task_term.c:166-210 | ras_ter keeps the invariant: a task with a pending request is never left waiting or suspended |
| KernelRuns.EnableKeeps | asp3/kernel/task_term.c:245-267 | ena_ter keeps the invariant: a pending request takes effect at once if dispatching is on |
| KernelRuns.ReopenKeeps | asp3/kernel/sys_manage.c:391-423 | ena_dsp (chg_ipm and ext_tsk alike) keeps the invariant: a pending request takes effect when dispatching comes back |
| KernelRuns.SleepKeeps | asp3/kernel/task_sync.c:125-196 | slp_tsk and tslp_tsk keep the invariant |
| KernelRuns.WakeUpKeeps | asp3/kernel/task_sync.c:206-249 | wup_tsk keeps the invariant |
| KernelRuns.EndWaitKeeps | asp3/kernel/task_sync.c:297-331 | rel_wai keeps the invariant |
| KernelRuns.SuspendKeeps | asp3/kernel/task_sync.c:341-394 | sus_tsk keeps the invariant |
| KernelRuns.ResumeKeeps | asp3/kernel/task_sync.c:404-443 | rsm_tsk keeps the invariant |
| KernelRuns.ChangeBaseKeeps | asp3/kernel/task_manage.c:247-293 | chg_pri keeps the invariant, so also current priority and ceilings, with and without ceiling mutexes held |
| KernelRuns.RotateKeeps | asp3/kernel/sys_manage.c:164-195 | rot_rdq keeps the invariant |
| KernelRuns.LockKeeps | asp3/kernel/mutex.c:331-373 | loc_mtx, tloc_mtx and ploc_mtx keep the invariant |
| KernelRuns.AcquireKeeps | asp3/kernel/mutex.c:349-356 | Locking a free mutex never makes a dispatch necessary |
| KernelRuns.UnlockKeeps | asp3/kernel/mutex.c:486-514 | unl_mtx keeps the invariant |
| KernelRuns.ReinitializeKeeps | asp3/kernel/mutex.c:524-559 | ini_mtx keeps the invariant, although the mutex is taken from the middle of its holder's chain |
| KernelRuns.TimeOutKeeps | asp3/kernel/wait.c:95-130 | A time limit that runs out keeps the invariant |
| KernelRuns.ExecKeeps | asp3/kernel/task_sync.c:125-484 | Every service call keeps the invariant |
| KernelRuns.StartInv | asp3/kernel/task.c:88-114 | The initial state satisfies the invariant |
| KernelRuns.RunsKeep | asp3/kernel/task.h:131-171 | Every state that any run of service calls, handlers and time limits reaches satisfies the invariant |
| KernelEffects.ActTskEffect | asp3/kernel/task_manage.c:110-150 | act_tsk of a dormant task starts it at its initial priority behind its equals; of a task that is awake one activation is kept, unless one is kept already or the task has TA_NOACTQUE |
| KernelEffects.StartedRuns | asp3/kernel/task_manage.c:110-150 | With dispatching on, the task just started runs exactly if all that can run have a lower priority |
| KernelEffects.TerTskEffect | asp3/kernel/task_term.c:300-327 | ter_tsk: the two refusals, or the task ends: it is dormant or, with an activation kept, ready anew; it holds and awaits nothing; each mutex goes to the first task waiting for it, whose wait ends with E_OK; no other task notices |
| KernelEffects.TerminateEffect | asp3/kernel/task.c:409-426 | That end of a task, whatever it was doing; the tasks that can run keep their order |
| KernelEffects.AllReleased | asp3/kernel/mutex.c:313-321 | mutex_release_all, seen by any other task: it gets the mutex it is the first to wait for, with the priority that its ceilings then ask for, or nothing happens to it |
| KernelEffects.ExtTskEffect | asp3/kernel/task_term.c:109-156 | ext_tsk is the end of its caller, with dispatching on afterwards |
| KernelEffects.RasTerEffect | asp3/kernel/task_term.c:166-210 | ras_ter: the refusals, the end of a task that allows it, a mark on one that can run, or a mark that also ends wait (with E_RASTER) and suspension |
| KernelEffects.DisTerEffect | asp3/kernel/task_term.c:220-235 | dis_ter changes one flag of its caller |
| KernelEffects.EnaTerEffect | asp3/kernel/task_term.c:245-267 | ena_ter ends its caller if that was requested and dispatching is on, and otherwise changes one flag |
| KernelEffects.MaskEffect | asp3/kernel/sys_manage.c:365-423 | dis_dsp, ena_dsp and chg_ipm change one mask each; when dispatching is on again the first task in precedence runs, and a pending request ends the caller |
| KernelEffects.SlpTskEffect | asp3/kernel/task_sync.c:125-196 | slp_tsk and tslp_tsk: E_RASTER, a kept wake-up used up, E_TMOUT for polling, or a wait, with a time limit exactly if one was given |
| KernelEffects.DlyTskEffect | asp3/kernel/task_sync.c:453-484 | dly_tsk: E_RASTER or a wait with a time limit |
| KernelEffects.WupTskEffect | asp3/kernel/task_sync.c:206-249 | wup_tsk: E_OBJ, the end of a sleep with E_OK, a wake-up kept, or E_QOVR |
| KernelEffects.RelWaiEffect | asp3/kernel/task_sync.c:297-331 | rel_wai ends any wait with E_RLWAI, in the queue and in the heap, leaving a suspension; E_OBJ without a wait |
| KernelEffects.TimeOutEffect | asp3/kernel/wait.c:95-130 | A time limit that runs out ends the wait with E_TMOUT, that of dly_tsk with E_OK |
| KernelEffects.SusTskEffect | asp3/kernel/task_sync.c:341-394 | sus_tsk: the four refusals, or the task is suspended; a waiting task goes on waiting |
| KernelEffects.RsmTskEffect | asp3/kernel/task_sync.c:404-443 | rsm_tsk: E_OBJ, or the suspension ends; a task that does not wait can run, behind its equals |
| KernelEffects.ChgPriEffect | asp3/kernel/task_manage.c:247-293 | chg_pri: E_OBJ, E_ILUSE exactly above a ceiling held or waited for, the base priority alone with a ceiling held, or both priorities with a new place in the ready queue or in a wait queue by priority |
| KernelEffects.RotRdqEffect | asp3/kernel/sys_manage.c:164-195 | rot_rdq moves the first task of the given priority, if there is one, behind its equals |
| KernelEffects.LocMtxEffect | asp3/kernel/mutex.c:331-476 | loc_mtx and tloc_mtx: E_ILUSE exactly above the ceiling, E_OBJ exactly if the caller holds the mutex, a free mutex taken as the last locked by a caller that runs on, at the ceiling if that is higher, E_TMOUT for polling, or a wait in the queue of the mutex |
| KernelEffects.PlocMtxEffect | asp3/kernel/mutex.c:383-418 | ploc_mtx: the same without waiting |
| KernelEffects.UnlMtxEffect | asp3/kernel/mutex.c:486-514 | unl_mtx: E_OBJ unless the mutex is the last locked; otherwise the caller drops to the priority its other ceilings ask for, before its equals, and the first waiting task has the mutex |
| KernelEffects.IniMtxEffect | asp3/kernel/mutex.c:524-559 | ini_mtx: all waiting tasks are released with E_DLT, and the holder loses the mutex and what priority it owed to it |
| KernelEffects.WaitObjectEffect | asp3/kernel/wait.c:157-176 | A task that has to wait for an object joins its queue at the end, or by priority behind its equals, with a time limit exactly if one was given |
| KernelEffects.WakeObjectEffect | asp3/kernel/wait.c:80-85 | The first waiting task, and no other, is released with E_OK |
| KernelEffects.FlushEffect | asp3/kernel/wait.c:186-196 | init_wait_queue releases all tasks of the queue with E_DLT, which can run in queue order |
| KernelEffects.IniObjectEffect | asp3/kernel/wait.c:186-196 | The initialization of an object does this and redispatches |
| KernelEffects.HandlerEffect | asp3/kernel/task_sync.c:316-325 | A handler changes nothing by starting; when it returns the first task in precedence runs, if dispatching is on |
| KernelTheorems.RunningIsHighest | asp3/kernel/task.c:207-272 | In every reachable state with dispatching on and no handler active, the running task has the highest priority of all that can run, and none runs only if none can |
| KernelTheorems.NoDispatchWhileOff | asp3/kernel/sys_manage.c:365-381 | While dispatching is off and stays off, no call, handler or time limit changes the running task |
| KernelTheorems.PriorityIsTheHighest | asp3/kernel/mutex.c:215-267 | In every reachable state each current priority is the highest of the base priority and the ceilings held, and no ceiling held or waited for is exceeded by the base priority |
| KernelTheorems.LinkedAsTheStateSays | asp3/kernel/task.h:131-171 | In every reachable state a task is in the ready queue, in a wait queue, in the time event heap, exactly when its state says so, and priority-ordered wait queues are sorted |
| KernelTheorems.OneHolder | asp3/kernel/mutex.c:258-303 | A mutex has one holder at most, and nobody waits for a free one |
| KernelTheorems.TerminationIsPrompt | asp3/kernel/task_term.c:193-262 | A task with a termination request is never waiting or suspended; one that also allows its termination is the running one while dispatching is off |
| KernelTheorems.TerminationPassesOn | asp3/kernel/mutex.c:313-321 | A terminated task holds nothing, and each mutex it held belongs to the former first waiting task, or to nobody |
| KernelTheorems.RequestTakesEffect | asp3/kernel/task_term.c:251-260 | When ena_ter, ena_dsp or chg_ipm removes the last obstacle, a pending termination takes effect in that call: the task holds nothing, and is dormant or starts anew at its initial priority |
| KernelTheorems.UnlockUndoesLock | asp3/kernel/mutex.c:486-514 | Locking a free mutex and unlocking it restores the whole state if and only if the ceiling raised nothing or no task of equal priority stood before the locking one |
| KernelTheorems.UnlockUndoesLockWhileDispatching | asp3/kernel/mutex.c:331-514 | While dispatching is on, locking and unlocking always restores the whole state |
| KernelTheorems.ResumeUndoesSuspend | asp3/kernel/task_sync.c:341-443 | Suspending and resuming another task that can run makes it the last among its equals and changes nothing else |
| KernelTheorems.ResumeUndoesSuspendOfWaiting | asp3/kernel/task_sync.c:341-443 | Suspending and resuming a waiting task changes nothing |
| KernelTheorems.FlushReleasesAll | asp3/kernel/wait.c:186-196 | init_wait_queue ends the wait of exactly the tasks in the queue, each with E_DLT and still suspended if it was, and changes no other task |
| KernelTheorems.SleepConsumesWakeUp | asp3/kernel/task_sync.c:125-249 | A wake-up of a task that is awake is kept, a second one refused, and the next sleep ends at once, leaving the state as it was |
| KernelTheorems.CeilingLimitsBlocking | asp3/kernel/mutex.c:331-373 | A running task has to wait for a ceiling mutex only if its holder cannot run, or has a priority between the running task's current one and the ceiling; without ceilings held, the three are equal |
| KernelOrder.EveryCallKeepsTurns | asp3/kernel/wait.c:141-149 | No call serves a task before another that waits in front of it: the one behind stays behind, or its wait ends early, until the one in front has left; in a queue by priority as long as the two priorities stay and chg_pri does not put the first behind its equals |
| KernelOrder.OrderStays | asp3/kernel/wait.h:62-74 | Over any run in which two tasks go on waiting for an object they keep their order |
| KernelOrder.NobodyOvertakes | asp3/kernel/wait.c:141-149 | After any such run the task behind is not served, whatever call comes next, while the one in front still waits |
| KernelTheorems.ActivationsBecomeStarts | asp3/kernel/task_manage.c:110-150 | Over any run of any calls, the accepted activations of a task, and one kept at the beginning, are as many as its starts, and one kept at the end |
| KernelTheorems.AnyTaskCanRun | asp3/kernel/task_manage.c:110-150 | In any configuration any task can get to run |
| KernelTheorems.AnyMutexCanBeHeld | asp3/kernel/mutex.c:331-373 | In any configuration any mutex can be held by any task whose initial priority its ceiling allows |
| KernelTheorems.StartsEmpty | asp3/kernel/task.c:88-114 | At the start all tasks are dormant at their initial priorities, and nothing is held, awaited or kept |
| KernelTheorems.PermittedExactly | asp3/kernel/task_sync.c:125-135 | From where each call is allowed: task or handler, with dispatching on or not |
| KernelTheorems.WrongCallsAreRefused | asp3/kernel/task_sync.c:125-135 | A call from elsewhere gives E_CTX, one with a number that names nothing E_PAR, and both change nothing |
| LinkedList.ChainUnlink | asp3/kernel/mutex.c:537-545 | Taking an entry out of the middle of a chain leaves the chain of the others |
| LinkedList.ChainInsert | asp3/kernel/pridataq.c:180-188 | Linking a block in behind any entry gives the chain with the block there |
| Kernel.ChainsUnlink | asp3/kernel/mutex.c:537-545 | Unlinking from the middle of one chain leaves all other chains alone |
| Kernel.GivingUp | asp3/kernel/mutex.c:237-248 | A mutex contributes its ceiling to the priority and nothing else, so the priority need be computed anew only if it equals that ceiling |
| Kernel.RotatedHead | asp3/kernel/task.c:386-399 | Rotation changes who comes first only if the first task itself goes behind others |
| Kernel.Kernel.SearchSchedtsk | asp3/kernel/task.c:207-213 | search_schedtsk returns the task first in precedence |
| Kernel.Kernel.MakeRunnable | asp3/kernel/task.c:226-238 | make_runnable inserts by precedence, and the cached task to be run stays right |
| Kernel.Kernel.MakeNonRunnable | asp3/kernel/task.c:253-272 | make_non_runnable removes the task, its assertion holds, and the cache stays right |
| Kernel.Kernel.ChangePriority | asp3/kernel/task.c:326-373 | change_priority does what the model says in ready and wait queues, updating the cache only in the two cases where it can change |
| Kernel.Kernel.QueueInsertTpri | asp3/kernel/wait.h:62-74 | queue_insert_tpri is insertion by precedence |
| Kernel.Kernel.RotateReadyQueue | asp3/kernel/task.c:386-399 | rotate_ready_queue moves the first task behind its equals; the cache stays right |
| Kernel.Kernel.MakeNonWait | asp3/kernel/wait.h:109-128 | make_non_wait makes the task runnable, or suspended if it was doubly waiting |
| Kernel.Kernel.WaitDequeueWobj | asp3/kernel/wait.h:137-142 | wait_dequeue_wobj takes the task out of the queue it is in |
| Kernel.Kernel.WaitDequeueTmevtb | asp3/kernel/wait.h:151-156 | wait_dequeue_tmevtb reads WINFO only where it still holds a time event block |
| Kernel.Kernel.WakeNext | asp3/kernel/wait.c:80-85 | queue_delete_next with wait_complete ends the wait of the first task |
| Kernel.Kernel.InitWaitQueue | asp3/kernel/wait.c:186-196 | init_wait_queue ends all waits, in queue order, with E_DLT |
| Kernel.Kernel.MakeWait | asp3/kernel/wait.c:56-70 | make_wait and make_wait_tmout take the task from the ready queue and register its time limit |
| Kernel.Kernel.WobjQueueInsert | asp3/kernel/wait.c:141-149 | wobj_queue_insert joins by priority or in order of arrival |
| Kernel.Kernel.EnterWait | asp3/kernel/wait.c:157-176 | wobj_make_wait and wobj_make_wait_tmout as a whole |
| Kernel.Kernel.MutexCheckCeilpri | asp3/kernel/mutex.c:152-183 | mutex_check_ceilpri tells exactly whether a ceiling held or waited for would be violated |
| Kernel.Kernel.MutexScanCeilmtx | asp3/kernel/mutex.c:193-205 | mutex_scan_ceilmtx tells exactly whether a ceiling mutex is held |
| Kernel.Kernel.MutexCalcPriority | asp3/kernel/mutex.c:215-229 | mutex_calc_priority computes the priority the task must have |
| Kernel.Kernel.MutexDropPriority | asp3/kernel/mutex.c:237-248 | mutex_drop_priority, computing anew only on equality, leaves the priority the task must have |
| Kernel.Kernel.MutexAcquire | asp3/kernel/mutex.c:258-267 | mutex_acquire links the mutex and raises the priority as the definition requires |
| Kernel.Kernel.MutexRelease | asp3/kernel/mutex.c:277-303 | mutex_release frees the mutex or hands it to the first waiting task |
| Kernel.Kernel.MutexReleaseAll | asp3/kernel/mutex.c:313-321 | mutex_release_all ends, with an empty chain and every mutex released in turn |
| Kernel.Kernel.UnlinkMutex | asp3/kernel/mutex.c:537-545 | The loop of ini_mtx finds the mutex wherever it is in the chain and unlinks it |
| Kernel.Kernel.Strip | asp3/kernel/mutex.c:535-547 | ini_mtx takes the mutex from its holder and restores the holder's priority |
| Kernel.Kernel.TaskTerminate | asp3/kernel/task.c:409-426 | task_terminate: out of all queues, all mutexes passed on, dormant or active again |
| Kernel.Kernel.Dispatch | asp3/kernel/task_sync.c:316-325 | The dispatch that ends a call, put off while a handler runs |
| Kernel.Kernel.ActTsk | asp3/kernel/task_manage.c:110-150 | act_tsk refines the abstract call: a dormant task starts and a dispatch follows if needed, else one activation is queued or E_QOVR returned |
| Kernel.Kernel.TerTsk | asp3/kernel/task_term.c:300-327 | ter_tsk refines the abstract call: E_ILUSE for the caller itself, E_OBJ if dormant, else the task ends, passing on its mutexes, and a dispatch follows if needed |
| Kernel.Kernel.ExtTsk | asp3/kernel/task_term.c:109-156 | ext_tsk refines the abstract call: dispatching is opened whatever closed it, the caller ends, and the next task runs |
| Kernel.Kernel.RasTer | asp3/kernel/task_term.c:166-210 | ras_ter refines the abstract call: immediate termination, a mark on a task that can run, or a mark that also ends wait and suspension |
| Kernel.Kernel.DisTer | asp3/kernel/task_term.c:220-235 | dis_ter refines the abstract call and touches nothing but the caller's `enater` |
| Kernel.Kernel.EnaTer | asp3/kernel/task_term.c:245-267 | ena_ter refines the abstract call: a pending request takes effect if dispatching is on, else is allowed from now on |
| Kernel.Kernel.SlpTsk | asp3/kernel/task_sync.c:125-196 | slp_tsk and tslp_tsk refine the abstract call: E_RASTER, a queued wake-up consumed, E_TMOUT for polling, or a wait with or without a time limit |
| Kernel.Kernel.DlyTsk | asp3/kernel/task_sync.c:453-484 | dly_tsk refines the abstract call: always a wait with a time limit, in no wait queue |
| Kernel.Kernel.WupTsk | asp3/kernel/task_sync.c:206-249 | wup_tsk refines the abstract call although it never looks at a wait queue: a sleeping task is in none |
| Kernel.Kernel.RelWai | asp3/kernel/task_sync.c:297-331 | rel_wai refines the abstract call: the task leaves queue and time event block and gets E_RLWAI |
| Kernel.Kernel.SusTsk | asp3/kernel/task_sync.c:341-394 | sus_tsk refines the abstract call: E_CTX for the caller while dispatching is off, E_RASTER, E_QOVR, or the suspension on top of what the task was doing |
| Kernel.Kernel.RsmTsk | asp3/kernel/task_sync.c:404-443 | rsm_tsk refines the abstract call: back to the ready queue, or only the suspension of a waiting task ends |
| Kernel.Kernel.ChgPri | asp3/kernel/task_manage.c:247-293 | chg_pri refines the abstract call: E_ILUSE exactly if a ceiling held or waited for would be violated; the current priority moves only if no ceiling mutex is held |
| Kernel.Kernel.RotRdq | asp3/kernel/sys_manage.c:164-195 | rot_rdq refines the abstract call: the first task of that priority goes behind its equals |
| Kernel.Kernel.DisDsp | asp3/kernel/sys_manage.c:365-381 | dis_dsp refines the abstract call: from then on the task to be run is the running one |
| Kernel.Kernel.EnaDsp | asp3/kernel/sys_manage.c:391-423 | ena_dsp refines the abstract call: the search gives the task to be run again, unless the interrupt mask still closes dispatching, and a pending termination takes effect |
| Kernel.Kernel.ChgIpm | asp3/kernel/interrupt.c:363-397 | chg_ipm refines the abstract call, closing or reopening dispatching, with the same effect on a pending termination |
| Kernel.Kernel.LocMtx | asp3/kernel/mutex.c:331-476 | loc_mtx and tloc_mtx refine the abstract call: E_RASTER, E_ILUSE above the ceiling, the free mutex taken (no dispatch: the assertion of the source holds), E_OBJ if held already, else polling failure or a wait |
| Kernel.Kernel.PlocMtx | asp3/kernel/mutex.c:383-418 | ploc_mtx refines the abstract call, allowed also while dispatching is off |
| Kernel.Kernel.UnlMtx | asp3/kernel/mutex.c:486-514 | unl_mtx refines the abstract call: E_OBJ unless it is the last mutex locked; priority dropped, mutex passed on |
| Kernel.Kernel.IniMtx | asp3/kernel/mutex.c:524-559 | ini_mtx refines the abstract call: all waits end with E_DLT, the holder, if any, loses the mutex wherever it is in the chain, and its priority with it |
| Kernel.Kernel.TimeOut | asp3/kernel/wait.c:95-130 | wait_tmout and wait_tmout_ok refine the abstract end of a wait, with E_TMOUT, or E_OK for dly_tsk |
| Kernel.Kernel.constructor | asp3/kernel/task.c:88-114 | The initialized kernel is the model's initial state |
| Kernel.Kernel.Serve | asp3/kernel/task_sync.c:125-484 | Any call in any reachable state, with the context and parameter checks, does what the model says and leaves the kernel ready for the next: so every run of the kernel's own code is a run of the model |
| WaitQueue.JoinKeepsOrder | asp3/kernel/wait.c:141-149 | Joining keeps a wait queue in order: the newcomer goes behind all others, or by priority behind its equals and before the less urgent, and the others keep their order |
| WaitQueue.ReprioritizedKeepsOrder | asp3/kernel/wait.h:259-265 | A priority change of a waiting task keeps the wait queue in order |
| WaitQueue.ReprioritizedMoves | asp3/kernel/wait.h:259-265 | A waiting task whose priority changes goes behind the equals of its new priority, asking for the same, and the others keep their order; a queue in order of arrival stays as it is |
| WaitQueue.LeaveEffect | asp3/kernel/wait.h:137-142 | Exactly the task that stops waiting leaves the queue, with what it asked for |
| WaitQueue.InsertTpri | asp3/kernel/wait.h:62-74 | queue_insert_tpri as a loop is that insertion |
| DataqueueModel.DoKeeps | asp3/kernel/dataqueue.c:228-301 | Every operation keeps: waiting senders mean a full ring, waiting receivers nothing to receive, for every capacity including 0 |
| DataqueueModel.ReceiveTakesFirst | asp3/kernel/dataqueue.c:277-301 | A receive takes the first of ring followed by waiting senders' data, and lets the first sender go on |
| DataqueueModel.SendPutsLast | asp3/kernel/dataqueue.c:228-245 | A send puts the datum last, or gives it to the first waiting receiver |
| DataqueueModel.ForceSendDropsOldest | asp3/kernel/dataqueue.c:255-267 | A forced send to a full ring loses exactly the oldest datum |
| DataqueueModel.ForceSendOvertakes | asp3/kernel/dataqueue.c:187-200 | With senders waiting, a forced datum comes out before what they sent earlier |
| DataqueueModel.RunConserves | asp3/kernel/dataqueue.c:228-301 | Over any run, everything accepted comes out, is lost or discarded once, or can still be received |
| DataqueueModel.RunIsFifo | asp3/kernel/dataqueue.c:228-301 | Over any run in order of arrival whose forced sends find no waiting sender, data come out in the order sent, also when tasks stop waiting or the queue is initialized, and none is missing unless taken back or discarded |
| DataqueueModel.RunKeeps | asp3/kernel/dataqueue.c:228-301 | Every run keeps the exclusion of data and waiting tasks |
| DataqueueModel.ReceiversInTurn | asp3/kernel/dataqueue.c:480-606 | Over any run, waiting receivers are handed data in the order in which they began to wait, and none is passed over unless it stopped waiting or the queue was initialized |
| DataqueueModel.SendEffect | asp3/kernel/dataqueue.c:311-433 | A send of a task that may wait, or may not, in terms of receivers, ring and senders |
| DataqueueModel.ForceSendEffect | asp3/kernel/dataqueue.c:443-470 | fsnd_dtq never waits, and is refused without a ring |
| DataqueueModel.ReceiveEffect | asp3/kernel/dataqueue.c:480-606 | A receive of a task that may wait, or may not, takes the first datum there is, or the caller waits last |
| DataqueueModel.LeavingEffect | asp3/kernel/dataqueue.c:616-641 | A task whose wait ends early is in no queue and a sender takes its datum back; a change of priority only moves a sender; ini_dtq empties everything |
| Dataqueue.DataQueue.EnqueueData | asp3/kernel/dataqueue.c:169-177 | enqueue_data appends to the ring |
| Dataqueue.DataQueue.ForceEnqueueData | asp3/kernel/dataqueue.c:187-200 | force_enqueue_data appends, dropping the oldest datum of a full ring |
| Dataqueue.DataQueue.DequeueData | asp3/kernel/dataqueue.c:210-218 | dequeue_data takes the oldest datum |
| Dataqueue.DataQueue.SendData | asp3/kernel/dataqueue.c:228-245 | send_data in memory does what the model says |
| Dataqueue.DataQueue.ForceSendData | asp3/kernel/dataqueue.c:255-267 | force_send_data gives to the first waiting receiver or overwrites the oldest datum, as the model says |
| Dataqueue.DataQueue.ReceiveData | asp3/kernel/dataqueue.c:277-301 | receive_data takes the first datum, and moves the first waiting sender's datum into the freed slot |
| Dataqueue.DataQueue.Snd | asp3/kernel/dataqueue.c:394-433 | snd_dtq and tsnd_dtq: E_RASTER, accepted, E_TMOUT for polling, or the sender waits with its datum, by priority or in order of arrival |
| Dataqueue.DataQueue.Psnd | asp3/kernel/dataqueue.c:354-384 | psnd_dtq: accepted exactly if a receiver waits or there is room |
| Dataqueue.DataQueue.Fsnd | asp3/kernel/dataqueue.c:443-470 | fsnd_dtq: always accepted, except for capacity 0 |
| Dataqueue.DataQueue.Rcv | asp3/kernel/dataqueue.c:563-606 | rcv_dtq and trcv_dtq: E_RASTER, the first datum, E_TMOUT for polling, or the caller waits as the last receiver |
| Dataqueue.DataQueue.Ini | asp3/kernel/dataqueue.c:616-641 | ini_dtq empties ring and wait queues |
| PridataqModel.DoKeeps | asp3/kernel/pridataq.c:223-278 | Every operation keeps the data sorted and: waiting senders mean a full queue, waiting receivers an empty one without senders |
| PridataqModel.RunKeeps | asp3/kernel/pridataq.c:223-278 | Every run keeps data sorted and the exclusion of data and waiting tasks |
| PridataqModel.RunConserves | asp3/kernel/pridataq.c:223-278 | Over any run, every datum accepted is received, taken back or discarded once, or is still there |
| PridataqModel.RunIsFifo | asp3/kernel/pridataq.c:163-213 | Over any run, data of one priority come out in the order in which they joined the queue, and none is missing unless the queue was initialized |
| PridataqModel.ReceiveTakesMostUrgent | asp3/kernel/pridataq.c:251-278 | A receive takes a most urgent datum, and only the first sender's datum joins |
| PridataqModel.SamePriorityInOrder | asp3/kernel/pridataq.c:180-188 | A datum goes behind all of its own priority and before all less urgent ones |
| PridataqModel.ReceiversInTurn | asp3/kernel/pridataq.c:425-553 | Over any run, waiting receivers are handed data in the order in which they began to wait, and none is passed over unless it stopped waiting or the queue was initialized |
| PridataqModel.SendEffect | asp3/kernel/pridataq.c:288-415 | A send of a task that may wait, or may not, in terms of receivers, data and senders |
| PridataqModel.ReceiveEffect | asp3/kernel/pridataq.c:425-553 | A receive of a task that may wait, or may not, takes the first datum there is and lets the first sender go on, or the caller waits last |
| PridataqModel.LeavingEffect | asp3/kernel/pridataq.c:563-589 | A task whose wait ends early is in no queue and a sender takes its datum back; a change of priority only moves a sender; ini_pdq empties everything |
| Pridataq.CoverCount | asp3/kernel/pridataq.c:168-175 | The blocks ever used are as many as the entries of both lists, so `unused` never passes the end of the table |
| Pridataq.PriDataQueue.TakeBlock | asp3/kernel/pridataq.c:168-175 | The block chosen is on neither list |
| Pridataq.PriDataQueue.FindPlace | asp3/kernel/pridataq.c:180-186 | The search stops behind the last block that is not less urgent |
| Pridataq.PriDataQueue.EnqueuePridata | asp3/kernel/pridataq.c:163-190 | enqueue_pridata inserts by data priority, keeping both lists disjoint and covering the used blocks |
| Pridataq.PriDataQueue.DequeuePridata | asp3/kernel/pridataq.c:200-213 | dequeue_pridata takes the first datum and frees its block |
| Pridataq.PriDataQueue.SendPridata | asp3/kernel/pridataq.c:223-241 | send_pridata in memory does what the model says |
| Pridataq.PriDataQueue.ReceivePridata | asp3/kernel/pridataq.c:251-278 | receive_pridata takes the first datum, and inserts the first waiting sender's datum by its priority |
| Pridataq.PriDataQueue.Snd | asp3/kernel/pridataq.c:374-415 | snd_pdq and tsnd_pdq: E_RASTER, accepted, E_TMOUT for polling, or the sender waits with its datum and its priority |
| Pridataq.PriDataQueue.Rcv | asp3/kernel/pridataq.c:509-553 | rcv_pdq and trcv_pdq: E_RASTER, the most urgent datum, E_TMOUT for polling, or the caller waits as the last receiver |
| Pridataq.PriDataQueue.Ini | asp3/kernel/pridataq.c:563-589 | ini_pdq empties lists and wait queues |
| Mempfix.FreeAndTaken | asp3/kernel/mempfix.c:151-167 | The unused blocks and the free list together are the blocks that nobody has |
| Mempfix.TakeListed | asp3/kernel/mempfix.c:155-158 | A block from the free list was not handed out, and the partition stays |
| Mempfix.TakeUnused | asp3/kernel/mempfix.c:159-162 | The first block never used was not handed out either, and the partition stays |
| Mempfix.PutBack | asp3/kernel/mempfix.c:329-334 | A block taken back joins the free list, and the partition stays |
| Mempfix.AcceptsExactlyTaken | asp3/kernel/mempfix.c:314-319 | rel_mpf accepts exactly the addresses of blocks handed out |
| Mempfix.MemoryPool.FreeCountIsRight | asp3/kernel/mempfix.h:89-92 | `fblkcnt` is the number of blocks that no task has |
| Mempfix.MemoryPool.GetMpfBlock | asp3/kernel/mempfix.c:151-167 | get_mpf_block hands out a block that no task has |
| Mempfix.MemoryPool.GetMpf | asp3/kernel/mempfix.c:253-292 | get_mpf and tget_mpf: E_RASTER, a block that no task has, E_TMOUT for polling, or the task waits; nobody waits while a block is free |
| Mempfix.MemoryPool.PgetMpf | asp3/kernel/mempfix.c:220-243 | pget_mpf hands out a free block or reports that there is none |
| Mempfix.MemoryPool.RelMpf | asp3/kernel/mempfix.c:302-342 | rel_mpf gives the block to the first waiting task or to the free list, and rejects every other address |
| Mempfix.MemoryPool.IniMpf | asp3/kernel/mempfix.c:352-376 | ini_mpf frees all blocks and ends all waits |
| EventflagModel.ClearingSatisfiesNobody | asp3/kernel/eventflag.c:224-242 | Clearing bits makes no condition hold |
| EventflagModel.ReleasedExactly | asp3/kernel/eventflag.c:184-209 | A task is released exactly if it waited and its condition holds |
| EventflagModel.RemainingExactly | asp3/kernel/eventflag.c:184-209 | A task keeps waiting exactly if its condition does not hold |
| EventflagModel.FirstLeaves | asp3/kernel/eventflag.c:196-198 | With TA_CLR only the first task whose condition holds leaves |
| EventflagModel.SetKeeps | asp3/kernel/eventflag.c:171-214 | After set_flg no task waits whose condition holds |
| EventflagModel.ClearKeeps | asp3/kernel/eventflag.c:224-242 | After clr_flg no task waits whose condition holds |
| EventflagModel.WaitKeeps | asp3/kernel/eventflag.c:252-292 | After wai_flg no task waits whose condition holds, and without TA_WMUL one waits at most |
| EventflagModel.RunKeeps | asp3/kernel/eventflag.c:171-418 | Over any run no task waits whose condition holds |
| EventflagModel.AnyOfThem | asp3/kernel/eventflag.c:149-161 | TWF_ORW: the condition holds exactly if some bits are both waited for and set |
| EventflagModel.AllOfThem | asp3/kernel/eventflag.c:149-161 | TWF_ANDW: the condition holds exactly if all bits waited for are set |
| EventflagModel.WaitEffect | asp3/kernel/eventflag.c:252-330 | wai_flg and pol_flg: the refusals, immediate success with all bits cleared under TA_CLR, or a wait, by priority or last, or E_TMOUT |
| EventflagModel.SetEffect | asp3/kernel/eventflag.c:171-214 | Without TA_CLR set_flg adds the bits and releases, in queue order and with the new pattern, exactly the tasks whose condition holds then |
| EventflagModel.SetClearEffect | asp3/kernel/eventflag.c:184-209 | With TA_CLR it releases only the first of them and clears all bits, or none if there is none |
| EventflagModel.OtherEffect | asp3/kernel/eventflag.c:224-242 | clr_flg takes bits away; a task whose wait ends early leaves; a change of priority only moves a task; ini_flg restores the initial pattern and releases all |
| Eventflag.EventFlag.CheckFlgCond | asp3/kernel/eventflag.c:150-161 | check_flg_cond tells whether the condition holds and clears under TA_CLR |
| Eventflag.EventFlag.ScanQueue | asp3/kernel/eventflag.c:186-199 | The loop of set_flg, deleting as it goes, releases exactly the tasks the model releases, in queue order |
| Eventflag.EventFlag.SetFlg | asp3/kernel/eventflag.c:171-214 | set_flg does what the model says |
| Eventflag.EventFlag.ClrFlg | asp3/kernel/eventflag.c:224-242 | clr_flg clears the bits not in the pattern and releases nobody |
| Eventflag.EventFlag.WaiFlg | asp3/kernel/eventflag.c:340-386 | wai_flg and twai_flg: E_PAR, E_RASTER, E_ILUSE for a second waiter without TA_WMUL, an immediate result if the condition holds, E_TMOUT for polling, else a wait |
| Eventflag.EventFlag.PolFlg | asp3/kernel/eventflag.c:302-330 | pol_flg: the same without waiting |
| Eventflag.EventFlag.IniFlg | asp3/kernel/eventflag.c:396-418 | ini_flg sets the initial pattern and ends all waits |
| HrTimer.NoOverflow | asp3/arch/arm_gcc/rza1/chip_timer.h:125-134 | No 32-bit operation of target_hrt_get_current overflows |
| HrTimer.HrtExact | asp3/arch/arm_gcc/rza1/chip_timer.h:125-134 | The reading is exactly 3/100 of the count with one extra tick per 10^9, and below TCYC_HRTCNT |
| HrTimer.MicrosExact | asp3/arch/arm_gcc/rza1/chip_kernel.h:83 | The extra ticks of a cycle make up exactly for the rounding of the cycle length |
| HrTimer.StepsByOne | asp3/arch/arm_gcc/rza1/chip_timer.h:125-134 | A tick advances the microsecond clock by one at most, over wraps too |
| HrTimer.NeverGoesBack | asp3/arch/arm_gcc/rza1/chip_timer.h:125-134 | The microsecond clock never goes back |
| HrTimer.TicksFit | asp3/arch/arm_gcc/rza1/chip_timer.c:107 | The tick count of an alarm fits 32 bits up to HRTCNT_BOUND |
| HrTimer.AlarmIsPunctual | asp3/arch/arm_gcc/rza1/chip_timer.c:105-123 | An alarm for h microseconds comes h or h + 1 microseconds later, over wraps too |
| HrTimer.ReadingsTellElapsedTime | asp3/arch/arm_gcc/rza1/chip_timer.h:125-134 | Two readings less than a cycle apart tell the elapsed microseconds as the kernel computes them |
| HrTimer.OsTimer.TargetHrtGetCurrent | asp3/arch/arm_gcc/rza1/chip_timer.h:125-134 | target_hrt_get_current returns the microsecond clock modulo TCYC_HRTCNT |
| HrTimer.OsTimer.TargetHrtSetEvent | asp3/arch/arm_gcc/rza1/chip_timer.c:105-123 | However long its two readings are apart (short of a wrap), the interrupt is requested or will be when the count is reached |
| HrTimer.OsTimer.Elapse | asp3/arch/arm_gcc/rza1/chip_timer.c:113-122 | An armed interrupt stays armed until it is requested, at its count |

## Left out

- Context switching, interrupt entry and exit, CPU lock and unlock, and the interrupt controller: a dispatch is the assignment of the task to be run to the running task, put off while a handler is active.
- Trace-log calls, the reference services (`ref_*`, `get_*`, `sns_*`), `can_act`, `can_wup`, and CHECK macros other than those for context, dispatching, object number and priority: each is settled by one branch.
- `semaphore.c`: its counter and waiting tasks are a simpler case of the data queue and the memory pool.
- `extension/dcre`, the TECS adapters, logging, serial driver, generators and sample programs.
- The 16-bit bitmap and `bitmap_search`: the map of non-empty priorities is a set of numbers, and its search is the smallest member.
- One state for everything: `Kernel` keeps the set of tasks whose time event block is registered, `TimeEvent` the heap itself; and the wait queues of `Dataqueue`, `Pridataq`, `Mempfix` and `Eventflag` stand beside the wait objects of `Kernel`. Which task a storage operation wakes is its result; `Kernel` has the waking and waiting parts of such calls as `WakeObject` and `WaitObject`, with the E_RASTER check.
- `Signal.SignalFiresInOrder`: the order of due times is promised only if no handler sets the clock back with `adj_tim`; a call back after that can be of an event due earlier (`Firing.SettingBackBreaksOrder`). Everything else about `signal_time` holds with such handlers too. The call back of a time limit is a handler that asks for nothing.
- `TimeEvent.TimeEvents.UpdateCurrent`: two readings of the timer are less than one timer cycle apart, which is what the bound on the alarm is for, and none is too late for a pending event.
- `HrTimer.OsTimer.TargetHrtSetEvent`: its two readings of the counter are less than one wrap apart.
- `Mempfix.MemoryPool.RelMpf`: its parameter checks come before the CPU lock in the source; check and update are taken as one step.
- `Mempfix.MemoryPool.constructor`: a pool has fewer blocks than the special index values, 2^32 - 2.
- `Kernel.Kernel.TimeOut`: the time event block leaves the heap in the same step as the wait ends.
- `delay_for_interrupt` at the end of time event call backs: an interrupt taken there is the next call of a run.
- The memory of pool blocks, task stacks and `activate_context`.
- `KernelOrder.NobodyOvertakes`: in a queue by priority it is about tasks whose priorities stay; a change of priority may let a task pass, as it should (`WaitQueue.ReprioritizedMoves`, `KernelEffects.ChgPriEffect`).
