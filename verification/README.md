# Verified model of the scheduler with SHORT and overdue processes

The repository is a Linux 2.4 kernel with the O(1) scheduler, to which a new scheduling class was
added. A process may ask to be SHORT: it states how many milliseconds it needs, runs before all
ordinary (OTHER) processes for that long, and then becomes *overdue*, which means that for twice that
time it runs only when nothing else is runnable. After that it is OTHER again. This project models
the scheduler (`sched.c`), the part of `do_fork` that shares the slice (`fork.c`), the pid allocator
and the pid index, the wait queues and the completion protocol, and the linked lists underneath.

## How it is built

Two layers describe the scheduler.

* `SchedModel.dfy` is the specification machine: one record per task, one sequence of tasks per
  priority array and priority, one function per kernel entry point, and events and runs over them.
  It has no bitmap, no counter and no link. `SchedInvariant.dfy` and `SchedSteps.dfy` prove that
  every step keeps the runqueue invariant; `SchedFrames.dfy` says what each step does to the fields
  that decide the class of a task, `Places.dfy` where it leaves the tasks in their rows, `Preempt.dfy`
  when it asks for schedule, `Slices.dfy` and `SleepAverage.dfy` what it does to slices and sleep
  averages. On these rest the whole-run results: `QueueOrder.dfy` (no step reorders the tasks it is not
  about), `RealTime.dfy` and `RoundRobin.dfy`, `Starvation.dfy`, `WakeWitness.dfy`, `Lifecycle.dfy`,
  `Budget.dfy` with `BudgetMint.dfy`, `StaticPrio.dfy`, `PickOrder.dfy`, `ForkYield.dfy` with
  `ForkWitness.dfy`, `ArraySwitch.dfy`, `SetParam.dfy`, and `Priorities.dfy` for the formulas.
* `RunQueue.dfy` is the runqueue as the kernel keeps it: a class with four priority arrays, each with
  a bitmap, a counter and 140 lists, and methods that update them in the kernel's order of
  operations. `View()` is the specification state the object stands for. Every method's contract
  equates the new view with the specification function of the old one, so the bitmap form refines the
  sequence form, and every theorem about runs of the machine holds of the class: `Perform` carries out
  any event of the machine and is one step of it.

The invariant (`SchedInvariant.Inv`, `RunQueue.Runqueue.Valid`): in all four arrays bit k is set
exactly if queue k is not empty, the counter is the sum of the queue lengths, the delimiter bit is
set, and `nr_running` is the sum of the counters; every queued task is in exactly one queue, that of
its priority in its array; real-time and SHORT tasks are only in `rt_short`, overdue ones only in
`overdue` at priority 139, OTHER ones only in `active` or `expired`; `prio` is below 100 exactly for
FIFO and RR tasks, and then 99 less the task's rt_priority; `static_prio` is in 100..139, `sleep_avg`
in 0..MAX_SLEEP_AVG; a slice is at least one jiffy; and no task carries `justGotForked` between steps.

Beside the machine: `LoadBalance.dfy` with `Landing.dfy` (two of the runqueue objects),
`WaitQueue.dfy` and `Completion.dfy` (the one place where steps interleave below the level of kernel entry points),
`GetPid.dfy`, `PidHash.dfy` (task records as objects with real pointers) and `LinkedList.dfy` (nodes
with `next` and `prev`, proved to be the sequence operations the other files use). Two files join
these: `CompletionRuns.dfy` proves, with `ScheduleView.dfy`, that every step of the scheduler is a few
moves of the completion protocol, and `TaskCreation.dfy` gives the identifier of `get_pid` to the task
table.

## What turned out not to hold

* Reaping can create SHORT time. `sched_exit` (`sharedFolderHW2/sched.c:500-507`) adds the slice of a
  first-slice child to the reaper's without asking for the child's class, so a SHORT task that was made
  SHORT after it forked turns the OTHER jiffies of that child into SHORT ones.
  `BudgetMint.ReapCreatesShortTime` is such a run from boot; `Budget.ReapMints`, `Budget.ReapBudget`
  and `Budget.GrowsOnlyByCreation` have the exact condition for a record, a step and a run. Forking
  itself never creates SHORT time (`Budget.ForkBudget`).
* The comment at `sharedFolderHW2/fork.c:720-722` says that a fork leaves the total of pending slices
  unchanged. It does so exactly if the parent is not overdue and has at least two jiffies; an overdue
  parent and its child each get the whole slice (`Budget.ForkKeepsPendingSlices`).
* The comment at `sharedFolderHW2/sched.c:496-498` says that a reap returns only what the parent gave
  away. There are two ways to get more. An overdue forker gives nothing and its child gets a copy of
  its slice: for a child whose slice nobody raised, the claim holds over any run from fork to reap
  exactly unless the forker was overdue, the child is still in its first slice and the reaper is below
  the cap (`Budget.ReapReturnsTheLoss`; for a child reaped at once `Budget.ReapOfUntouchedChild`). And
  the child's slice may grow meanwhile: `ForkWitness.ShareOutgrown` is a run from boot in which the
  child asks for more time. Whatever amount is taken for the gift,
  `Budget.ReapReturnsOnlyWhatWasGiven` has the exact condition at the reap.
* The table at `sharedFolderHW2/sched.c:76-80` gives seven interactive places at nice -10; the
  division rounds toward zero and there are six (`Priorities.InteractiveTable`).
* The test of a wake-up (`sharedFolderHW2/sched.c:455-456`) compares priorities and does not ask for the
  class, while schedule goes by class first. It asks for schedule exactly if the woken task comes first,
  unless the task is in a better array without a better priority, or in a worse one with a better
  priority (`Preempt.WakeTestIsOrder`); `WakeWitness.WakeUnnoticed` is a run from boot in which a woken
  SHORT task has to wait for an OTHER one.
* The comment at `sharedFolderHW2/sched.c:337-343` says that sleep raises the average. setscheduler raises
  it too: it credits a queued task with the time since that last called schedule, asleep or not
  (`SleepAverage.PolicyCredits`), and again with every call (`SleepAverage.CreditedTwice`).
  `SleepAverage.OnlyCreditAdds` has the exact steps that raise an average; without such calls it never
  grows faster than the clock (`SleepAverage.NoFasterThanTime`).
* The comment at `sharedFolderHW2/sched.c:476-479` says that a fork decreases the average of parent and
  child. PARENT_PENALTY is 100, and the parent keeps its average (`SleepAverage.ForkShares`).
* The quarter in the test of a busy load_balance is rounded up, so that a longer queue can be left alone
  where a shorter one is relieved (`LoadBalance.LongerIsLeftAlone`).
* A SHORT-to-SHORT request is compared as an unsigned word. A negative request can be accepted, and an
  accepted request is good exactly if it is not negative (`SetParam.GoodWhenNotNegative`,
  `SetParam.NegativeRequestAccepted`). setscheduler breaks the invariant exactly then
  (`SchedSteps.SetSchedulerKeeps`), and runs exclude exactly those calls.
* The fork of a SHORT parent that has two jiffies puts the child before the parent exactly if the
  parent's `static_prio` is not worse than its `prio` (`ForkYield.ChildFirst`). It can be worse if the
  task was made SHORT in the jiffy of its last call of schedule, for then it keeps the better
  `prio` it had earned as an OTHER task (`ForkWitness.PrioWhenMadeShort`);
  `ForkWitness.ParentStaysFirst` is such a run from boot. With its last jiffy the parent always comes
  behind its child (`ForkYield.LastJiffyFork`).
* Nice 19 given to an overdue task is dropped (`StaticPrio.NicedReal`).
* A failing `get_pid` leaves a false cache unless the order of the tasks happens to allow a true one
  (`GetPid.FailureLeaves`), and then the next call answers with an identifier in use
  (`GetPid.RetryAfterFailure`). An answer from the cache comes at once; where a scan is needed it ends
  exactly if it can come back to where it began or meets a free identifier (`GetPid.EndlessSearch`),
  which is always so from 300 on.

## Model

| member | source | states |
|---|---|---|
| `SchedInvariant.UnlinkKeeps` | sharedFolderHW2/sched.c:271-277 | taking a queued task out of its row leaves every other task queued in exactly its place |
| `SchedInvariant.PutRowKeeps` | sharedFolderHW2/sched.c:279-293 | whatever position in its row a task is linked at, every task is again in exactly one queue |
| `SchedInvariant.EnqueueKeeps` | sharedFolderHW2/sched.c:279-293 | queueing a task in an array its class allows restores the whole invariant |
| `SchedInvariant.ActivateKeeps` | sharedFolderHW2/sched.c:330-351 | activation of a task on no array, sleep bonus included, restores the invariant |
| `SchedInvariant.MoveKeeps` | sharedFolderHW2/sched.c:1217-1223 | dequeue, new record, enqueue keeps the invariant for every record its new array allows |
| `SchedInvariant.RefilledOk` | sharedFolderHW2/sched.c:850-869 | the record after a class change is again in all its ranges, with a slice of at least one jiffy |
| `SchedInvariant.TimesliceRange` | sharedFolderHW2/sched.c:112-113 | every OTHER slice lies between MIN_TIMESLICE and MAX_TIMESLICE and is at least one jiffy, for every HZ from 100 on |
| `SchedInvariant.NrRunningCounts` | sharedFolderHW2/sched.c:330-360 | nr_running is the number of queued tasks |
| `SchedSteps.SchedulerTickKeeps` | sharedFolderHW2/sched.c:797-885 | scheduler_tick keeps the invariant in every branch, the class changes included |
| `SchedSteps.ScheduleKeeps` | sharedFolderHW2/sched.c:907-1031 | a pass of schedule keeps the invariant, with a pending signal or without, and with the array switch |
| `SchedSteps.WakeKeeps` | sharedFolderHW2/sched.c:426-463 | try_to_wake_up keeps the invariant for queued and for sleeping tasks |
| `SchedSteps.ShortForkShape` | sharedFolderHW2/sched.c:279-293 | the recursion of enqueue_task in a SHORT fork amounts to: parent to the tail of its row, child to the head of its own |
| `SchedSteps.ForkKeeps` | sharedFolderHW2/fork.c:724-791 | do_fork keeps the invariant for every class of parent and also with its last jiffy |
| `SchedSteps.ReapKeeps` | sharedFolderHW2/sched.c:500-515 | sched_exit keeps the invariant when the dead task's record goes |
| `SchedSteps.ReapedOk` | sharedFolderHW2/sched.c:500-515 | what a reap does to the reaper: its slice stays between what it had and the cap and below both slices together, its sleep average never rises and never falls below the child's |
| `SchedSteps.YieldQueueKeeps` | sharedFolderHW2/sched.c:1606-1636 | a yield keeps the invariant although the yielder may change its priority |
| `SchedSteps.NiceKeeps` | sharedFolderHW2/sched.c:1190-1233 | set_user_nice keeps the invariant for real-time, overdue, queued and sleeping targets |
| `SchedSteps.ShortChangeOk` | sharedFolderHW2/sched.c:1343-1380 | an accepted request that is not negative keeps the used part of the request, at least one jiffy and a positive request, with no wrap of the unsigned slice |
| `SchedSteps.SetSchedulerKeeps` | sharedFolderHW2/sched.c:1300-1441 | setscheduler keeps the invariant for every request if and only if it does not accept a negative one for a SHORT task |
| `SchedSteps.BootKeeps` | sharedFolderHW2/sched.c:1849-1892 | sched_init establishes the invariant, the boot task taken as the first ordinary task |
| `SchedSteps.StepKeeps` | sharedFolderHW2/sched.c:271-360 | every kernel entry point keeps the runqueue invariant |
| `SchedSteps.RunKeeps` | sharedFolderHW2/sched.c:797-1036 | every run of any length and mix of steps keeps it |
| `SchedSteps.ReachableOk` | sharedFolderHW2/fork.c:726-755 | in every state reachable from boot every slice is at least one jiffy, so the check before the split never fails and no decrement wraps, and all priorities are in range |
| `Places.TickPlaces` | sharedFolderHW2/sched.c:818-878 | a task whose slice ends goes to the tail of a row: its own when round robin, the overdue row when SHORT, the active array if interactive and nobody has waited too long, else the expired one, whose stamp the first to come sets; every other tick leaves rows and stamp alone |
| `Places.SchedulePlaces` | sharedFolderHW2/sched.c:907-1022 | schedule takes off exactly a previous task that is neither runnable nor held by a signal, and moves nothing else |
| `Places.WakePlaces` | sharedFolderHW2/sched.c:426-463 | a wake-up puts a task from no queue at the tail of the row of its new priority in the array of its class, and of a queued one changes only the state |
| `Places.ForkPlaces` | sharedFolderHW2/fork.c:745-791 | a fork that is not child-first puts the child at the tail of a row, after the forced tick of a parent with its last jiffy |
| `Places.YieldBehindHead` | sharedFolderHW2/sched.c:1606-1636 | a yielder that is not real-time goes right behind the first other task of its row; alone there, right behind the first of the next used row; and stays where a better row is used or no other is |
| `Places.NicePlaces` | sharedFolderHW2/sched.c:1190-1233 | a nice value that counts is the new priority, and a queued task goes to the tail of that row of its array; real-time and overdue tasks keep priority and place |
| `Places.PolicyPlaces` | sharedFolderHW2/sched.c:1376-1432 | a queued task whose class changes goes to the tail of a row of rt_short or active; refused requests and new requests of SHORT tasks move nothing |
| `QueueOrder.StepKeepsOrder` | sharedFolderHW2/sched.c:271-293 | two tasks that a step is not about stand in the same row in the same order afterwards, for every step |
| `QueueOrder.OrderKept` | sharedFolderHW2/sched.c:271-293 | first come, first served: over every run two tasks of a row that are not moved keep their order |
| `Preempt.WakeAsks` | sharedFolderHW2/sched.c:449-457 | a wake-up asks for schedule if and only if the task was on no queue and its new priority is better than that of the current task, the idle task having the worst |
| `Preempt.StepAsks` | sharedFolderHW2/sched.c:797-885 | over all steps: which of them ask the current task to reschedule, exactly; none withdraws a request or touches another task's |
| `Preempt.PassAnswers` | sharedFolderHW2/sched.c:1016-1035 | schedule answers the request of the task it takes the processor from and leaves all others |
| `Preempt.WakeTestIsOrder` | sharedFolderHW2/sched.c:455-456 | the test of a wake-up agrees with the order of schedule if and only if the classes of the two tasks do not decide against the priorities |
| `WakeWitness.WakeUnnoticed` | sharedFolderHW2/sched.c:455-456 | a run from boot after which waking a SHORT task does not ask for schedule although the task comes first |
| `Slices.FairSplit` | sharedFolderHW2/fork.c:730-742 | for every class a forker that is not overdue and has two jiffies shares its slice in halves, the odd jiffy for the child, whose slice is marked as given |
| `Slices.OtherSplits` | sharedFolderHW2/fork.c:730-755 | what an overdue forker and one with its last jiffy, of every class, and their children have after the fork |
| `Slices.SliceStep` | sharedFolderHW2/sched.c:818-878 | apart from fork, reap and requests a slice changes only by the ticks of the running task, one jiffy each and none for FIFO, and the last one brings the slice of the task's class |
| `SleepAverage.StepAverage` | sharedFolderHW2/sched.c:330-351 | over all steps: a wake-up or a requeueing by setscheduler credits the time since the task last called schedule, nothing else adds, and only what the running task does takes |
| `SleepAverage.OnlyCreditAdds` | sharedFolderHW2/sched.c:330-351 | an average grows if and only if it is below the cap and the step credits time that has passed |
| `SleepAverage.SleepIsCredited` | sharedFolderHW2/sched.c:330-351 | over every run between going to sleep and wake-up: the average afterwards is the old one plus the length of the sleep, up to the cap, and the priority is that of the new average |
| `SleepAverage.NoFasterThanTime` | sharedFolderHW2/sched.c:337-349 | over every run without a request for it a task's average, the current sleep included, grows no faster than the clock |
| `SleepAverage.TickTakes` | sharedFolderHW2/sched.c:840-849 | a tick takes one jiffy from the average of a running task that is not real-time and has any |
| `SleepAverage.TickPrio` | sharedFolderHW2/sched.c:834-867 | the running task keeps its priority until its slice ends, and then gets that of its average or new class |
| `SleepAverage.ReapWeighs` | sharedFolderHW2/sched.c:509-515 | a child with a smaller average takes its reaper's to the mean of three parts its own and one the child's, rounded down; any other changes nothing |
| `SleepAverage.ForkShares` | sharedFolderHW2/sched.c:470-489 | a child that is not real-time starts with 95 percent of its parent's average and the priority of that; the parent keeps its own |
| `SleepAverage.PolicyCredits` | sharedFolderHW2/sched.c:1376-1432 | setscheduler credits a queued task that it requeues and that is not real-time then with the time since it last called schedule, and no other |
| `SleepAverage.CreditedTwice` | sharedFolderHW2/sched.c:1420-1432 | sched_setparam for a queued OTHER task, twice within a jiffy, credits the same time twice |
| `Lifecycle.ExactLifetime` | sharedFolderHW2/sched.c:850-878 | an undisturbed task has after n charged ticks exactly r - n SHORT jiffies, then 3r - n overdue ones, and is OTHER from 3r on |
| `Lifecycle.MadeShortLifetime` | sharedFolderHW2/sched.c:1370-1397 | the same from the accepted setscheduler call on, over every run that follows: SHORT, overdue, then OTHER |
| `Lifecycle.CreditRun` | sharedFolderHW2/fork.c:730-755 | forking never lengthens a task's own time under the SHORT policy |
| `Lifecycle.AtMostThreeRequests` | sharedFolderHW2/sched.c:193-207 | a task with a full request r is charged at most 3r ticks under the policy however often it forks, and has left it once it was charged 3r |
| `Lifecycle.OnlyWayOutOfShort` | sharedFolderHW2/sched.c:1308-1345 | over all steps the policy SHORT is left exactly by the tick that uses up the overdue slice |
| `Lifecycle.OnlyWayToOverdue` | sharedFolderHW2/sched.c:855-861 | a task becomes overdue exactly by the tick that uses up its SHORT slice or by a fork with its last jiffy |
| `Budget.TickBudget` | sharedFolderHW2/sched.c:850-869 | a tick takes from any family's SHORT jiffies exactly what it charges |
| `Budget.ForkBudget` | sharedFolderHW2/fork.c:730-755 | a fork adds and takes no SHORT jiffy, the forced tick of the one-jiffy case included |
| `Budget.ReapBudget` | sharedFolderHW2/sched.c:500-507 | a reap by whomever changes a family's SHORT jiffies by exactly the stated amount, and makes them grow if and only if a SHORT member with room below the cap reaps a child in its first slice that is not a SHORT member |
| `Budget.ReapMints` | sharedFolderHW2/sched.c:500-507 | a reap makes SHORT jiffies if and only if the reaper is SHORT and below the cap and the child is in its first slice and not SHORT |
| `Budget.PolicyBudget` | sharedFolderHW2/sched.c:1343-1397 | a setscheduler call makes a family's SHORT jiffies grow if and only if it grants a new request or a longer one |
| `Budget.BudgetStep` | sharedFolderHW2/fork.c:724-755 | the exact account of one step of any kind, for any family, and that only the reaps and grants above make it grow |
| `Budget.BudgetRun` | sharedFolderHW2/fork.c:720-755 | over every run, SHORT jiffies held at the end plus all ticks charged equal those held at the start plus what reaps and setscheduler calls added |
| `Budget.GrowsOnlyByCreation` | sharedFolderHW2/fork.c:720-755 | at every step of a run held and charged jiffies do not grow if and only if no step passes the test for creation, which is known before the step |
| `Budget.KinRun` | sharedFolderHW2/sched.c:491-507 | if every first-slice child of a SHORT member is a SHORT member, no run in which members reap their own children and get no grant creates SHORT time |
| `Budget.ParentsLiveFromBoot` | sharedFolderHW2/fork.c:768-777 | in every state reachable from boot each task's parent is a live task or forgotten, as the bounds on descendants need |
| `Budget.ChargedFromRequest` | sharedFolderHW2/sched.c:1370-1397 | from the accepted setscheduler call on, in every run, the ticks charged to a task and its descendants are at most its request plus what reaps and further calls added |
| `Budget.DescendantsShareTheRequest` | sharedFolderHW2/fork.c:720-755 | from the accepted call on, all descendants of the task together run as SHORT for at most its request, if it has no live first-slice child at the call, members reap their own children and no further request is granted |
| `BudgetMint.ReapCreatesShortTime` | sharedFolderHW2/sched.c:500-507 | a run from boot after which a SHORT task reaps its own OTHER first-slice child and the two have more SHORT jiffies than before |
| `Budget.ForkKeepsPendingSlices` | sharedFolderHW2/fork.c:720-755 | a fork keeps the total of pending slices if and only if the parent is not overdue and has two jiffies |
| `Budget.ReapReturnsOnlyWhatWasGiven` | sharedFolderHW2/sched.c:491-507 | whatever amount is taken for the gift, a reap returns no more if and only if the child in its first slice has no more than that or the cap is reached; a child past its first slice returns nothing |
| `Budget.ReapReturnsTheShare` | sharedFolderHW2/sched.c:491-507 | over every run between fork and reap, a child whose slice nobody raised returns at most the slice it was forked with |
| `Budget.LossAndShare` | sharedFolderHW2/fork.c:724-755 | what a fork takes from the forker against what the child gets: nothing from an overdue forker, exactly the child's slice from one with two jiffies, one jiffy for the child of a last jiffy |
| `Budget.ReapReturnsTheLoss` | sharedFolderHW2/sched.c:491-507 | over every run between fork and reap of a child whose slice nobody raised, the reaper gets more than the forker lost if and only if the forker was overdue, the child is in its first slice and the reaper is below the cap; of a last jiffy at most one jiffy returns |
| `ForkWitness.ShareOutgrown` | sharedFolderHW2/sched.c:500-507 | a run from boot in which a parent gives half of a tenth of a second to its child, the child gets a longer request, and the reap leaves the parent with the longest slice |
| `Budget.ReapOfUntouchedChild` | sharedFolderHW2/fork.c:720-755 | forking and reaping an unused child gains nothing if and only if the split keeps the total or the slice is at the cap |
| `StaticPrio.ForkedReal` | sharedFolderHW2/fork.c:724-755 | parent and child keep the real static priority in every fork, also the one that makes the parent overdue |
| `StaticPrio.NicedReal` | sharedFolderHW2/sched.c:1190-1215 | a nice value takes effect exactly if it is in range and not 19 for an overdue task |
| `StaticPrio.StaticPrioTrip` | sharedFolderHW2/sched.c:850-867 | over any run the real static priority is the initial one or the last nice value that counted |
| `StaticPrio.BackToOther` | sharedFolderHW2/sched.c:850-867 | a task that went from OTHER through SHORT and overdue back to OTHER has the static priority it had |
| `StaticPrio.ChildInheritsStatic` | sharedFolderHW2/fork.c:724-755 | a child starts with its parent's real static priority, overdue or not |
| `PickOrder.PickIsFirst` | sharedFolderHW2/sched.c:930-1014 | schedule picks the idle task exactly if nothing is queued, else the queued task that comes before all others in class, priority and place |
| `PickOrder.SwitchLosesNothing` | sharedFolderHW2/sched.c:947-958 | the arrays switch exactly if nothing is real-time, SHORT or active but something is expired, and no task moves |
| `PickOrder.ScheduleIsFirst` | sharedFolderHW2/sched.c:907-1022 | a pass of schedule ends with the first of the tasks still queued once the previous one was put back |
| `PickOrder.OverdueRunsLast` | sharedFolderHW2/sched.c:936-1014 | an overdue task is chosen only if every queued task is overdue |
| `RealTime.HigherRtFirst` | sharedFolderHW2/sched.c:1426-1428 | of two queued real-time tasks the one with the higher rt_priority comes first; with equal ones the one that stands first in the row |
| `RealTime.HigherRtFirstFromBoot` | sharedFolderHW2/sched.c:1426-1428 | the same in every state reachable from boot |
| `RealTime.RtBeforeOthers` | sharedFolderHW2/sched.c:930-936 | a queued real-time task comes before every task that is not real-time, SHORT ones included |
| `RealTime.HighestRtRuns` | sharedFolderHW2/sched.c:930-1014 | schedule passes over no real-time task for one with a lower rt_priority or of another class |
| `RealTime.ClassAsRequested` | sharedFolderHW2/sched.c:1418-1432 | an accepted request leaves the task with the named policy, or its own with sched_setparam, the requested rt_priority, and the priority that goes with them |
| `RealTime.BadCalls` | sharedFolderHW2/sched.c:1300-1325 | EINVAL, EFAULT and ESRCH for a missing argument or negative pid, an unreadable argument, and an unknown pid, in this order; a refused call changes nothing |
| `RealTime.ClassAdmission` | sharedFolderHW2/sched.c:1401-1417 | for a task that is not SHORT: EINVAL exactly if the priority does not fit the policy, EPERM exactly if it fits and the caller may not, else accepted; refused requests change nothing |
| `RoundRobin.RrRotates` | sharedFolderHW2/sched.c:829-839 | the tick that ends a round-robin slice puts the task at the tail of its row with a full slice and asks for schedule; no other row or task changes |
| `RoundRobin.RrGivesWay` | sharedFolderHW2/sched.c:829-839 | if its row holds another task the next pick is not the task whose slice ended |
| `RoundRobin.FullCycle` | sharedFolderHW2/sched.c:824-839 | in a row of runnable round-robin tasks each runs for exactly its slice in the order of the row, nobody else in between, and after the cycle the row is as it was with full slices |
| `ForkYield.ChildFirst` | sharedFolderHW2/sched.c:279-293 | the rows after a child-first fork, all others unchanged, no flag left, and child before parent if and only if the parent's static priority is not worse than its priority |
| `ForkYield.LastJiffyFork` | sharedFolderHW2/fork.c:745-755 | a parent that forks with its last jiffy becomes overdue while its child is SHORT and comes before it |
| `ForkYield.ParentYieldsToChild` | sharedFolderHW2/fork.c:770-791 | after any fork by a SHORT task of that kind the next task picked is not the parent |
| `ForkWitness.PrioWhenMadeShort` | sharedFolderHW2/sched.c:1370-1397 | a queued task that is made SHORT keeps the priority it had if its last call of schedule was in this jiffy, and otherwise gets its static priority |
| `ForkWitness.ParentStaysFirst` | sharedFolderHW2/sched.c:279-293 | a run from boot to a SHORT parent with a priority better than its static one, whose fork leaves it before its child |
| `ForkYield.YieldMovesOnlyYielder` | sharedFolderHW2/sched.c:1606-1633 | a yield changes no other task, no other task's order and not the yielder's array |
| `ForkYield.YieldGivesWay` | sharedFolderHW2/sched.c:1618-1640 | if its array holds any other task, a yielder that is not real-time is not picked next |
| `ForkYield.RtYield` | sharedFolderHW2/sched.c:1612-1616 | a real-time yielder goes behind its row and stays first exactly if all others of the array are worse |
| `ArraySwitch.StarvingSwitch` | sharedFolderHW2/sched.c:788-791 | once expired tasks starve, the arrays switch within as many ticks as the active array has jiffies |
| `ArraySwitch.BoundedSwitch` | sharedFolderHW2/sched.c:818-878 | in a closed set of runnable OTHER tasks the arrays switch within the remaining patience plus the jiffies then left in the active array |
| `ArraySwitch.PatienceBound` | sharedFolderHW2/sched.c:788-791 | the patience is at most STARVATION_LIMIT for every queued task |
| `ArraySwitch.SwitchFromStart` | sharedFolderHW2/sched.c:818-878 | in a closed set of n runnable OTHER tasks of which one has expired the arrays switch within 8 * HZ * n ticks, whatever their slices and sleep averages |
| `Starvation.StepStamped` | sharedFolderHW2/sched.c:868-875 | every step keeps the stamp set while a task waits in the expired array, and none puts it off |
| `Starvation.RunStamped` | sharedFolderHW2/sched.c:868-875 | so does every run |
| `Starvation.ExpiredGetTheirTurn` | sharedFolderHW2/sched.c:777-791 | from any state of any run from boot in which all tasks are OTHER and runnable and one has expired, the arrays switch within 8 * HZ ticks a task |
| `SetParam.AcceptedWhen` | sharedFolderHW2/sched.c:1343-1348 | for requests that are not negative the unsigned test accepts exactly those of at most 3000 ms that exceed the used time, and refuses a slice above the old request |
| `SetParam.GoodWhenNotNegative` | sharedFolderHW2/sched.c:1343-1380 | an accepted change is good if and only if the request is not negative |
| `SetParam.NegativeRequestAccepted` | sharedFolderHW2/sched.c:1345-1380 | a concrete negative request that is accepted and what it leaves |
| `SetParam.ChangeAndBack` | sharedFolderHW2/sched.c:1377-1380 | a change of the request and a change back restore the task if and only if the second asks for the old request |
| `SetParam.ShortAdmission` | sharedFolderHW2/sched.c:1341-1375 | for requests that are not negative: a SHORT task leaves the policy for no request (EPERM), a real-time one does not enter it (EINVAL), and else EINVAL exactly if the time does not fit, EPERM exactly if it fits and the caller may not, or accepted |
| `SetParam.MakeShortWhen` | sharedFolderHW2/sched.c:1352-1397 | an OTHER task is made SHORT if and only if the request is worth one jiffy to 3000 ms and the caller may |
| `Priorities.EffectiveRange` | sharedFolderHW2/sched.c:295-327 | the sleep average moves a task by at most five levels, within 100..139 |
| `Priorities.BonusIsTenths` | sharedFolderHW2/sched.c:312-320 | the bonus is the number of full tenths of the largest average a task has slept, less five, within 100..139 |
| `Priorities.NeverPreempts` | sharedFolderHW2/sched.c:306-325 | a task ten nice levels worse never preempts whatever both slept, and at any smaller distance it can |
| `Priorities.SliceOrder` | sharedFolderHW2/sched.c:104-113 | better static priority means a slice at least as long, from MIN_TIMESLICE at nice 19 to MAX_TIMESLICE at nice -20 |
| `Priorities.SliceIsShare` | sharedFolderHW2/sched.c:112-113 | the slice above the smallest is to its whole range as the distance from the worst level is to 39, rounded down |
| `Priorities.InteractiveTable` | sharedFolderHW2/sched.c:74-101 | the table of TASK_INTERACTIVE, place by place, with six places at nice -10 |
| `Priorities.InteractiveWhen` | sharedFolderHW2/sched.c:87-101 | for every nice value: the priority is better than the static one by two levels and a quarter of the nice value, rounded toward zero |
| `Priorities.CanBecomeInteractive` | sharedFolderHW2/sched.c:87-101 | some sleep average makes a task interactive if and only if its nice value is 15 or less |
| `RunQueue.FindFirstBit` | sharedFolderHW2/sched.c:1011-1014 | the lowest set bit, found because of the delimiter |
| `RunQueue.RemoveEntry` | sharedFolderHW2/sched.c:271-277 | list, bit and counter after a removal; the bit is cleared exactly if the list became empty |
| `RunQueue.AddEntry` | sharedFolderHW2/sched.c:279-293 | list, bit and counter after an insertion at either end |
| `RunQueue.StoreTied` | sharedFolderHW2/sched.c:271-293 | one changed row keeps bitmap, counters and rows of all four arrays in agreement |
| `RunQueue.CountIsNrRunning` | sharedFolderHW2/sched.c:271-360 | the four counters together count the queued tasks |
| `RunQueue.EmptyArrays` | sharedFolderHW2/sched.c:930-960 | a zero counter means exactly that no row of the array holds a task |
| `RunQueue.PassClearsFlag` | sharedFolderHW2/sched.c:1016-1035 | a pass of schedule leaves one reschedule flag fewer, which bounds its loop |
| `RunQueue.YieldEntry` | sharedFolderHW2/sched.c:1618-1633 | list, bits and counter after a yield, into the yielder's own list or the next one |
| `RunQueue.Decide` | sharedFolderHW2/sched.c:1320-1432 | the tests of setscheduler in their order reach the specified verdict or error code |
| `RunQueue.Runqueue.Start` | sharedFolderHW2/sched.c:1849-1892 | the empty runqueue with its boot task queued, as an ordinary task, is the boot state of the machine |
| `RunQueue.Runqueue.DequeueTask` | sharedFolderHW2/sched.c:271-277 | refines removal from a sequence |
| `RunQueue.Runqueue.EnqueueTask` | sharedFolderHW2/sched.c:279-293 | refines both branches, and its recursion ends |
| `RunQueue.Runqueue.ActivateTask` | sharedFolderHW2/sched.c:330-351 | refines activation; nr_running follows the counters |
| `RunQueue.Runqueue.DeactivateTask` | sharedFolderHW2/sched.c:353-360 | refines deactivation; nr_running follows the counters |
| `RunQueue.Runqueue.WakeUp` | sharedFolderHW2/sched.c:426-463 | refines try_to_wake_up, its result included |
| `RunQueue.Runqueue.ExpireSlice` | sharedFolderHW2/sched.c:850-878 | refines the end of a slice, with its class change and its choice of array |
| `RunQueue.Runqueue.SchedulerTick` | sharedFolderHW2/sched.c:797-885 | refines the tick in all branches |
| `RunQueue.Runqueue.PickNextTask` | sharedFolderHW2/sched.c:930-1014 | the counters and the bit search choose the task that the sequences determine |
| `RunQueue.Runqueue.SchedulePass` | sharedFolderHW2/sched.c:907-1031 | refines one pass of schedule |
| `RunQueue.Runqueue.ScheduleAll` | sharedFolderHW2/sched.c:907-1035 | the loop of schedule ends, is a run of passes, and ends with a task that is not asked to reschedule |
| `RunQueue.Runqueue.ShareSlice` | sharedFolderHW2/fork.c:724-755 | refines the split of the slice and the forced tick |
| `RunQueue.Runqueue.DoFork` | sharedFolderHW2/fork.c:724-791 | refines the fork up to the activation of the child |
| `RunQueue.Runqueue.SchedExit` | sharedFolderHW2/sched.c:500-515 | refines the reap |
| `RunQueue.Runqueue.Yield` | sharedFolderHW2/sched.c:1606-1636 | refines the yield in all branches |
| `RunQueue.Runqueue.SetUserNice` | sharedFolderHW2/sched.c:1190-1233 | refines nice in all branches |
| `RunQueue.Runqueue.SetScheduler` | sharedFolderHW2/sched.c:1300-1441 | refines setscheduler for every request, its return value included; the queues stay consistent always, the records exactly unless it accepts a negative request |
| `RunQueue.Runqueue.SetState` | sharedFolderHW2/sched.c:1112 | the current task sets its own state and stays queued |
| `RunQueue.Runqueue.Perform` | sharedFolderHW2/sched.c:271-1636 | every event of the machine, carried out on bitmaps, counters and lists, is one step of the machine |
| `LoadBalance.CandidatesAre` | sharedFolderHW2/sched.c:721-724 | the scan offers exactly the OTHER tasks on a queue that do not run, are allowed here and called schedule last more than cache_decay_ticks ago, each once; never a real-time, SHORT or overdue one |
| `Landing.CandidateOrder` | sharedFolderHW2/sched.c:684-716 | they are tried expired before active, better priority first, and from the tail of a row |
| `Landing.PulledLand` | sharedFolderHW2/sched.c:733-742 | pulled tasks stand at the tails of their rows in the active array in the order pulled, and no other task changes place |
| `Landing.PulledKeep` | sharedFolderHW2/sched.c:733-742 | pulled tasks keep their records, and so do all others |
| `Landing.PulledAsk` | sharedFolderHW2/sched.c:743-745 | this processor is asked to reschedule if and only if a pulled task is better than the one that runs |
| `LoadBalance.PullKeeps` | sharedFolderHW2/sched.c:733-745 | one pull keeps both runqueues' invariants and moves exactly one task |
| `LoadBalance.PullAllKeeps` | sharedFolderHW2/sched.c:690-750 | so does any sequence of pulls |
| `LoadBalance.NoOvershoot` | sharedFolderHW2/sched.c:642-682 | pulling up to the computed number never makes this queue longer than the one pulled from |
| `LoadBalance.FindBusiest` | sharedFolderHW2/sched.c:647-664 | the loop finds the first other processor with the largest load above one |
| `LoadBalance.Decide` | sharedFolderHW2/sched.c:642-682 | busy: tasks are pulled if and only if half the difference between the busiest other processor, at its shorter length, and this one, at its longer, is at least a quarter of the former, and then as many as that half; idle: one task, if and only if another processor has more than one and two more than this one |
| `LoadBalance.QuotaIsRight` | sharedFolderHW2/sched.c:669-682 | the computed number of tasks to pull is the one just described, for all lengths |
| `LoadBalance.LongerIsLeftAlone` | sharedFolderHW2/sched.c:671-673 | beside a queue of two, one of four is relieved and one of five is not |
| `LoadBalance.WalkRow` | sharedFolderHW2/sched.c:708-750 | the walk from the tail of a list pulls its candidates in order and stops when enough are pulled |
| `LoadBalance.WalkArray` | sharedFolderHW2/sched.c:693-750 | the walk over the bitmap visits all rows although it empties them on the way |
| `LoadBalance.PullTasks` | sharedFolderHW2/sched.c:684-753 | expired before active; what is pulled are the first candidates of the initial state |
| `LoadBalance.Balance` | sharedFolderHW2/sched.c:611-753 | load_balance on any number of runqueues: what it pulls and how much, the outcomes below for the pair, all others untouched, and the machine consistent again for the next call |
| `LoadBalance.BalancedOutcome` | sharedFolderHW2/sched.c:611-753 | no task lost or duplicated, both invariants kept, at most one task when idle and the imbalance when busy, no overshoot |
| `LoadBalance.LevelsOut` | sharedFolderHW2/sched.c:669-682 | a busy balance with enough candidates leaves two queues of steady length at most one apart |
| `WaitQueue.ScanExclusive` | sharedFolderHW2/sched.c:1047-1062 | for any queue, tasks with several entries included, exactly min(n, eligible) exclusive waiters are woken with success, the first ones; n = 0 means all |
| `WaitQueue.ScanNonExclusive` | sharedFolderHW2/sched.c:1047-1062 | in an ordered queue every matching non-exclusive waiter is made runnable |
| `WaitQueue.WakeView` | sharedFolderHW2/sched.c:426-463 | what a wake-up does to state and queue membership of all tasks |
| `WaitQueue.WakeScanView` | sharedFolderHW2/sched.c:1047-1062 | the scan over the scheduler is the scan over states and queue membership |
| `WaitQueue.WakeUpOutcome` | sharedFolderHW2/sched.c:1047-1062 | both promises on the scheduler state itself |
| `WaitQueue.WaitQueueHead.Add` | sharedFolderHW2/fork.c:43-51 | a non-exclusive waiter goes before all others and the order is kept |
| `WaitQueue.WaitQueueHead.AddExclusive` | sharedFolderHW2/fork.c:53-61 | an exclusive waiter goes behind all others and the order is kept |
| `WaitQueue.WaitQueueHead.Remove` | sharedFolderHW2/fork.c:63-70 | exactly this entry leaves and the order is kept |
| `WaitQueue.WaitQueueHead.WakeUpCommon` | sharedFolderHW2/sched.c:1047-1062 | the loop over the list refines the scan on the runqueue object |
| `Completion.CompleteWakes` | sharedFolderHW2/sched.c:1095-1103 | complete leaves one more waiter awake unless none sleeps, also if the waiter has not reached schedule |
| `Completion.MoveKeeps` | sharedFolderHW2/sched.c:1095-1123 | every move keeps the protocol invariant and the balance of tokens: each locked region, each call of schedule, each foreign wake-up, and anything threads outside the wait do, sleeping, starting and leaving included |
| `Completion.InterleavingKeeps` | sharedFolderHW2/sched.c:1095-1123 | so does every interleaving |
| `Completion.TokensAndWakeups` | sharedFolderHW2/sched.c:1095-1123 | from any state of all threads and in every interleaving, completes issued are waits finished plus done, and while a waiter sleeps at least done waiters are awake |
| `Completion.NoLostWakeup` | sharedFolderHW2/sched.c:1095-1123 | from any state of all threads: if all waiters are asleep no token is left |
| `Completion.ScheduleOnView` | sharedFolderHW2/sched.c:907-926 | schedule changes the calling task only, and takes a waiter off exactly if no waker has set it running in between |
| `Completion.CompleteOnScheduler` | sharedFolderHW2/sched.c:1095-1103 | the wake-up of the protocol is the one of the scheduler |
| `Completion.CompletionCell.Complete` | sharedFolderHW2/sched.c:1095-1103 | complete on the runqueue object is the protocol's move |
| `Completion.CompletionCell.Begin` | sharedFolderHW2/sched.c:1105-1117 | entering wait_for_completion up to its first schedule is the protocol's move |
| `Completion.CompletionCell.Again` | sharedFolderHW2/sched.c:1114-1122 | the locked test after schedule is the protocol's move |
| `ScheduleView.StepView` | sharedFolderHW2/sched.c:907-926 | what every kernel entry point does to state and queue membership of all tasks: ticks, nice and setscheduler change neither, schedule and yield change the calling task only, the others only the task they are about |
| `CompletionRuns.JointKeeps` | sharedFolderHW2/sched.c:1095-1123 | every step of the scheduler and every locked region keeps the protocol tied to the scheduler and the tokens balanced |
| `CompletionRuns.JointRunKeeps` | sharedFolderHW2/sched.c:1095-1123 | so does every run of the scheduler with a completion in use |
| `CompletionRuns.StartIsTied` | sharedFolderHW2/sched.c:1105-1123 | a completion that nobody waits for fits any state of the scheduler |
| `CompletionRuns.NoLostWakeupOnScheduler` | sharedFolderHW2/sched.c:1095-1123 | over every run of the scheduler: completes issued are waits finished plus done, and if every waiter has a state other than running no token is left |
| `GetPid.MaskIsLimit` | sharedFolderHW2/fork.c:99 | the mask test is the comparison with 0x8000 for every word |
| `GetPid.ReturnMeansExhausted` | sharedFolderHW2/fork.c:118-119 | a search that comes back to where it began has found every other identifier from 300 on in use |
| `GetPid.ExhaustedStaysUsed` | sharedFolderHW2/fork.c:107-121 | conversely, if all others are in use nothing the search tries is free |
| `GetPid.EndlessSearch` | sharedFolderHW2/fork.c:107-121 | where the search cannot end, every identifier it ever tries is in use and none is the first |
| `GetPid.PidAllocator.LowerSafe` | sharedFolderHW2/fork.c:123-130 | next_safe after a task is the nearest of its identifiers above last_pid, or what it was |
| `GetPid.PidAllocator.SlowPath` | sharedFolderHW2/fork.c:103-133 | the scan ends, returns the first free identifier in the order tried or zero exactly if all others are in use, leaves next_safe true and no lower than needed on success, and true after a failure exactly under the order condition |
| `GetPid.PidAllocator.GetPid` | sharedFolderHW2/fork.c:88-141 | with a true cache both paths return the first free identifier, zero exactly if all others are in use; the cache is true afterwards on success always, on failure if and only if the order of the tasks allows it |
| `GetPid.FailureLeaves` | sharedFolderHW2/fork.c:118-121 | a failed search from begin leaves a true cache if and only if begin is the last identifier, or not 300 and the first user of begin+1 comes before that of begin-1, which no user of begin precedes |
| `GetPid.RetryAfterFailure` | sharedFolderHW2/fork.c:97-119 | with all identifiers in use the call after a failure fails again if the failure kept the cache true, and otherwise returns an identifier in use |
| `GetPid.FullTable` | sharedFolderHW2/fork.c:107-121 | a task table for which the second case happens |
| `GetPid.ForkIds` | sharedFolderHW2/fork.c:756-777 | calling get_pid and appending the child with its parent's group and session is a fork step of the runs below |
| `GetPid.ForkStepKeeps` | sharedFolderHW2/fork.c:650-764 | a fork keeps the cache true and all pids distinct, although it adds identifiers |
| `GetPid.PidsStayDistinct` | sharedFolderHW2/fork.c:88-141 | in every sequential run without a failed allocation all live tasks have different pids |
| `LinkedList.ListAdd` | sharedFolderHW2/list.h:57-60 | on pointers, insertion after any node of the circle is insertion at that place of the sequence |
| `LinkedList.ListAddTail` | sharedFolderHW2/list.h:70-73 | on pointers, appending to the sequence |
| `LinkedList.ListDel` | sharedFolderHW2/list.h:94-97 | on pointers, cutting the entry out; its own pointers stay |
| `LinkedList.ListEmpty` | sharedFolderHW2/list.h:113-116 | true exactly for the empty sequence |
| `LinkedList.Walk` | sharedFolderHW2/list.h:153-155 | the walk visits exactly the sequence, in order, and ends |
| `LinkedList.RingIsOneList` | sharedFolderHW2/list.h:20-31 | the pointers determine the sequence |
| `LinkedList.NamesOfCut` | sharedFolderHW2/list.h:94-97 | deletion of a node is the removal that the scheduler model uses |
| `LinkedList.ChildFirst` | sharedFolderHW2/sched.c:279-293 | the relinking in a child-first fork gives child, the others in their order, parent |
| `LinkedList.YieldSecond` | sharedFolderHW2/sched.c:1618-1622 | the relinking in a yield puts the yielder behind the first of the others |
| `PidHash.MaskIsRemainder` | sharedFolderHW2/sched.h:604 | the mask of the hash function is the remainder by the table size |
| `PidHash.PickCut` | sharedFolderHW2/sched.h:961-969 | removing a task from the list removes it from each selection it is in and from no other |
| `PidHash.PickYoungestFirst` | sharedFolderHW2/sched.h:939-948 | within a selection later linked tasks come first |
| `PidHash.HashPid` | sharedFolderHW2/sched.h:606-614 | the task becomes first of its bucket, back pointers right, other buckets untouched |
| `PidHash.UnhashPid` | sharedFolderHW2/sched.h:616-621 | the task leaves its bucket from any place, back pointers right, other buckets untouched |
| `PidHash.SetLinks` | sharedFolderHW2/sched.h:939-948 | the circle of all tasks ends with the new task, its parent's chain begins with it, all other chains stay |
| `PidHash.RemoveLinks` | sharedFolderHW2/sched.h:928-937 | any task leaves the circle and its parent's chain, all other chains stay, its own included |
| `PidHash.SiblingsAreOneList` | sharedFolderHW2/sched.h:928-948 | the sibling pointers determine the list of children |
| `PidHash.OnlyOneWithPid` | sharedFolderHW2/sched.h:623-631 | with distinct pids a linear search finds the very task a bucket holds |
| `PidHash.TaskTable.Add` | sharedFolderHW2/fork.c:768-787 | linking and hashing a task with a fresh pid keeps all links in agreement with the list |
| `TaskCreation.CreateTask` | sharedFolderHW2/fork.c:756-787 | the identifier get_pid answers is new to the table, so linking and hashing the child with it keeps table, hash and allocator consistent, and only the child is found under it |
| `PidHash.TaskTable.Release` | sharedFolderHW2/sched.h:961-969 | unhash_process of any listed child of a listed parent keeps hash, list and chains in agreement |
| `PidHash.TaskTable.FindTaskByPid` | sharedFolderHW2/sched.h:623-631 | in every such state the chain walk ends and agrees with a linear search of the task list |
| `PidHash.TaskTable.ForEachTask` | sharedFolderHW2/sched.h:950-951 | the walk visits every task once, oldest first |

## Left out

- Multiprocessor scheduling: the machine is one processor without CONFIG_SMP. load_balance is modelled on several runqueues as one atomic step, without the recount of double_lock_balance, with cpu_logical_map as the identity and affinity as a set of tasks allowed on this processor. The wake-up that moves a task to another processor is not modelled.
- Time: jiffies is an unbounded counter that starts at 1 or later; its wrap-around is not modelled. HZ is any number from 100 to 700000; above that 3000 * HZ leaves a signed 32-bit word.
- Task records: `RunQueue.dfy` keeps them as values in a map of its object, named by pid; the run lists are sequences there, and `LinkedList.dfy` shows separately that linked nodes behave as those sequences. Aliasing of records is therefore only modelled in `LinkedList.dfy` and `PidHash.dfy`.
- do_fork is one atomic step from the slice split to wake_up_forked_process, without CLONE_PARENT, CLONE_VFORK and CLONE_PID; otherwise justGotForked can outlive the fork. Copying of memory, files and signals, and the undoing of a failed fork, are not modelled.
- Exit: exit.c is not part of this model. A reaped task's children lose their forker (their parent becomes the idle task), and a zombie on no array is all that a reap demands.
- Budget.DescendantsShareTheRequest: promises the request as a bound only for a task without a live first-slice child at the call, for members that reap their own children and get no further grant; `Budget.ChargedFromRequest` says what holds without these conditions.
- SchedSteps.BootKeeps: in sched_init the boot task is also the idle task until init_idle takes it off the queue; here it is the first ordinary task and the idle task is never queued. The same holds for `RunQueue.Runqueue.Start`.
- SchedSteps.RunKeeps: runs exclude accepted negative requests for a SHORT target, because the invariant is lost with them.
- PidHash.TaskTable.Add: p_pptr and pid are fixed before the task is linked, so ptrace and reparenting are not modelled.
- PidHash.TaskTable.Release: a task whose parent has been released cannot be released before it gets another parent, because the reparenting is in exit.c.
- GetPid.PidsStayDistinct: steps of setsid and setpgid are given as what they may do to pgrp and session; their system calls are not part of this model.
- WaitQueue.WaitQueueHead.Add: wait.h is not part of this model; its insertion at the head and at the tail is taken from the names of its functions.
- The statistics nr_switches, nr_uninterruptible and kstat, the record of the idle task, context_switch, locks and interrupt masking.
- sleep_on and its variants, the migration thread, set_cpus_allowed, the priority range queries, sched_rr_get_interval, show_task and the low-latency code: easy or dependent on code that is not shown.
- The SHORT system call wrappers in hw2_syscalls.c only read task fields.
