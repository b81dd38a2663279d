/** Two more runs from boot: a fork that leaves the parent before its child, and a reap that gives the
    parent more than it had before it forked. */
module ForkWitness {
  import opened Params
  import opened Rows
  import opened SchedModel
  import opened SchedInvariant
  import opened SchedSteps
  import opened SchedFrames
  import opened PickOrder
  import opened ForkYield
  import opened WaitQueue
  import opened Completion
  import opened Budget
  import opened BudgetMint
  import Places
  import Priorities

  // ---------------------------------------------------------------- setscheduler for a queued task

  /** A queued task that is made SHORT gets its static priority as its priority if it has been off the
      processor since an earlier jiffy, and otherwise keeps the priority it had, which may be better. */
  lemma PrioWhenMadeShort(s: Sched, r: Request)
    requires Inv(s) && Enabled(s, SetPolicy(r)) && Reaches(s, r, Target(s, r))
    requires var t := s.tasks[Target(s, r)]; t.onArr.Some? && Judge(t, r).MakeShort?
    ensures var p := Target(s, r);
            var t, t' := s.tasks[p], Step(s, SetPolicy(r)).tasks[p];
            && ShortTask(t') && t'.staticPrio == t.staticPrio
            && t'.prio == if t.sleepTimestamp == s.jiffies then t.prio else t.staticPrio
  {
    hide Judge, Requeue, Inv;
    var p := Target(s, r);
    var made := Judge(s.tasks[p], r).made;
    GrantIs(s, r);
    MadeFields(s, p, r);
    RequeuedRecord(s, p, made);
  }

  /** What setscheduler does when it makes a task SHORT. */
  lemma GrantIs(s: Sched, r: Request)
    requires Enabled(s, SetPolicy(r)) && Reaches(s, r, Target(s, r))
    requires Judge(s.tasks[Target(s, r)], r).MakeShort?
    ensures var p := Target(s, r);
            Step(s, SetPolicy(r)) == ReschedCurr(Requeue(s, p, Judge(s.tasks[p], r).made))
  {
    hide Judge, Requeue, TimerTick, Schedule, TryToWakeUp, Fork, Reap, YieldQueue, SetUserNice;
  }

  lemma MadeFields(s: Sched, p: Id, r: Request)
    requires Inv(s) && p in s.tasks && Judge(s.tasks[p], r).MakeShort?
    ensures var t, made := s.tasks[p], Judge(s.tasks[p], r).made;
            && ShortTask(made) && !RtTask(made) && !made.justGotForked
            && made.prio == t.prio && made.staticPrio == t.staticPrio && made.state == t.state
            && made.sleepTimestamp == t.sleepTimestamp && made.onArr == t.onArr
            && made.timeSlice == made.requestedTime == MsToJiffies(r.requestedMs)
  {
    hide Queued, MsToJiffies;
    assert TaskOk(s.tasks[p], s.jiffies);
  }

  /** The record of a queued SHORT task after it was taken off, given this record and queued again. */
  lemma RequeuedRecord(s: Sched, p: Id, made: Task)
    requires Inv(s) && p in s.tasks && s.tasks[p].onArr.Some?
    requires ShortTask(made) && !RtTask(made) && !made.justGotForked
    ensures var s' := Requeue(s, p, made);
            && p in s'.tasks && s'.tasks.Keys == s.tasks.Keys && s'.curr == s.curr
            && s'.tasks[p].onArr.Some? && s'.tasks[p].state == made.state && ShortTask(s'.tasks[p])
            && s'.tasks[p].staticPrio == made.staticPrio
            && s'.tasks[p].prio == if made.sleepTimestamp == s.jiffies then made.prio else made.staticPrio
  {
    hide Deactivate, Enqueue, Queued, TasksOk;
    var s1 := Upd(Deactivate(s, p), p, made.(onArr := None));
    assert s1.tasks == s.tasks[p := made.(onArr := None)] && s1.curr == s.curr && s1.jiffies == s.jiffies by {
      DeactivateTasks(s, p);
    }
    var t := WithSleepBonus(s1.tasks[p], s1.jiffies);
    EnqueuedRecord(Upd(s1, p, t), p, Home(s1.tasks[p], s1.active));
  }

  // ---------------------------------------------------------------- a parent that stays first

  /** The boot task has slept since jiffy zero: long enough, and its priority is the best it can have. */
  lemma BootPrio(jiffies: int)
    requires jiffies >= MAX_SLEEP_AVG
    ensures var s := Boot(PARENT, jiffies);
            && s.tasks.Keys == {PARENT} && s.curr == PARENT && s.jiffies == jiffies
            && var t := s.tasks[PARENT];
            && t.policy == Other && t.state == Running && t.onArr.Some? && t.timeSlice == HZ
            && t.staticPrio == 120 && t.prio == 115
            && t.sleepAvg == MAX_SLEEP_AVG && t.sleepTimestamp == 0 && !t.needResched
  {
    hide EffectivePrio;
    Priorities.BonusRange(0, 0);
    Priorities.EffectiveRange(BootTask().(sleepAvg := MAX_SLEEP_AVG));
  }

  /** schedule with a single task, which runs on: only its time stamp and its flag change. */
  lemma PassAlone(s: Sched)
    requires Inv(s) && s.tasks.Keys == {s.curr} && s.tasks[s.curr].state == Running
    ensures var s' := Step(s, Resched(false));
            && s'.curr == s.curr && s'.jiffies == s.jiffies
            && s'.tasks == s.tasks[s.curr := s.tasks[s.curr].(sleepTimestamp := s.jiffies, needResched := false)]
  {
    hide Inv, InvNoCurr, PickNext, Before;
    PassIs(s);
    CurrQueued(s);
    ScheduleIsFirst(s, false);
    var s1 := PutPrev(s, false);
    assert s1 == Upd(s, s.curr, s.tasks[s.curr].(sleepTimestamp := s.jiffies));
    assert IsQueued(s1, s.curr);
    PickNextTasks(s1);
    Places.PickFrame(s1);
  }

  /** From boot, after one pass of schedule: the task that made itself SHORT in the jiffy in which it was
      scheduled keeps its better priority, and its forked child is not before it. */
  lemma ParentStaysFirst(jiffies: int)
    requires jiffies >= MAX_SLEEP_AVG
    ensures var es := [Resched(false), SetPolicy(MakeParentShort())];
            Possible(Boot(PARENT, jiffies), es)
            && var s := SchedModel.Run(Boot(PARENT, jiffies), es);
            && Inv(s) && s.curr == PARENT && Enabled(s, Clone(CHILD))
            && ShortTask(s.tasks[PARENT]) && s.tasks[PARENT].timeSlice >= 2
            && s.tasks[PARENT].prio == 115 < s.tasks[PARENT].staticPrio
            && var s' := Step(s, Clone(CHILD));
            && IsQueued(s', CHILD) && IsQueued(s', PARENT) && !Before(s', CHILD, PARENT)
  {
    hide Boot, Step, Enabled, Inv, Judge, Before, Row, Without;
    var es := [Resched(false), SetPolicy(MakeParentShort())];
    var b := Boot(PARENT, jiffies);
    BootPrio(jiffies);
    BootKeeps(PARENT, jiffies);
    AlwaysEnabled(b);
    PassAlone(b);
    StepKeeps(b, es[0]);
    var s1 := Step(b, es[0]);
    CurrQueued(s1);
    GrantSelf(s1);
    var s := Step(s1, es[1]);
    RunQueue.NoPasses(s);
    assert es[2..] == [] && es[0..] == es;
    OneStep(s1, es, 1);
    OneStep(b, es, 0);
    CloneEnabled(s);
    ChildFirst(s, CHILD);
  }

  lemma CloneEnabled(s: Sched)
    requires s.curr in s.tasks && CHILD !in s.tasks
    ensures Enabled(s, Clone(CHILD))
  {
  }

  /** A running OTHER task makes itself SHORT with a tenth of a second. */
  lemma GrantSelf(s: Sched)
    requires Inv(s) && s.tasks.Keys == {PARENT} && s.curr == PARENT
    requires s.tasks[PARENT].policy == Other && s.tasks[PARENT].state == Running
    ensures Enabled(s, SetPolicy(MakeParentShort()))
    ensures var s' := Step(s, SetPolicy(MakeParentShort()));
            && Inv(s') && s'.tasks.Keys == {PARENT} && s'.curr == PARENT
            && var t, t' := s.tasks[PARENT], s'.tasks[PARENT];
            && ShortTask(t') && t'.state == Running && t'.staticPrio == t.staticPrio
            && t'.timeSlice == t'.requestedTime == MsToJiffies(100) >= 10
            && t'.prio == if t.sleepTimestamp == s.jiffies then t.prio else t.staticPrio
  {
    hide Step, Judge, Inv, Requeue, MsToJiffies;
    var r := MakeParentShort();
    CurrQueued(s);
    ParentIsMade(s.tasks[PARENT]);
    GrantEnabled(s);
    GrantIs(s, r);
    MadeFields(s, PARENT, r);
    RequeuedRecord(s, PARENT, Judge(s.tasks[PARENT], r).made);
    StepKeeps(s, SetPolicy(r));
    StepCores(s, SetPolicy(r));
    TenthOfSecond();
  }

  lemma TenthOfSecond()
    ensures 10 <= MsToJiffies(100) && 2 * MsToJiffies(100) < MAX_TIMESLICE
  {
  }

  lemma GrantEnabled(s: Sched)
    requires s.curr in s.tasks && PARENT in s.tasks && Judge(s.tasks[PARENT], MakeParentShort()).MakeShort?
    ensures Enabled(s, SetPolicy(MakeParentShort())) && Target(s, MakeParentShort()) == PARENT
    ensures Reaches(s, MakeParentShort(), PARENT)
  {
    hide Judge;
  }

  // ---------------------------------------------------------------- a share outgrown

  /** setscheduler for the child: 3000 ms. */
  function LengthenChild(): Request {
    Request(CHILD, 5, 0, MAX_REQUEST_MS, true, true, true, false, false, false)
  }

  /** Parent and child have split a tenth of a second; the child's slice may have been lengthened. */
  ghost predicate Split(s: Sched, lengthened: bool) {
    && PARENT in s.tasks && CHILD in s.tasks
    && var r := MsToJiffies(100);
    && var p, c := s.tasks[PARENT], s.tasks[CHILD];
    && ShortTask(p) && p.timeSlice == r / 2
    && ShortTask(c) && c.firstTimeSlice
    && (if lengthened then c.timeSlice == r / 2 + r % 2 + 3 * HZ - r
        else c.timeSlice == r / 2 + r % 2 && c.requestedTime == r)
  }

  lemma SameSplit(s: Sched, e: Event)
    requires Enabled(s, e) && Split(s, true) && !e.Tick? && !e.Clone? && !e.Exit? && !e.SetPolicy? && !e.Renice?
    ensures Split(Step(s, e), true)
  {
    hide Step, MsToJiffies;
    StepCores(s, e);
  }

  lemma AfterShortFork(s: Sched)
    requires Inv(s) && s.tasks.Keys == {PARENT} && s.curr == PARENT && s.tasks[PARENT].state == Running
    requires ShortTask(s.tasks[PARENT])
    requires s.tasks[PARENT].timeSlice == s.tasks[PARENT].requestedTime == MsToJiffies(100) >= 10
    ensures Enabled(s, Clone(CHILD))
    ensures Stage(Step(s, Clone(CHILD)), PARENT, AWAKE, AWAKE) && Split(Step(s, Clone(CHILD)), false)
    ensures Step(s, Clone(CHILD)).tasks[PARENT].timeSlice == s.tasks[PARENT].timeSlice / 2
  {
    hide Step, MsToJiffies, ShortForked, Inv;
    CloneEnabled(s);
    StepCores(s, Clone(CHILD));
    StepKeeps(s, Clone(CHILD));
    ShortForkShape(s, CHILD);
    ForkIs(s, CHILD);
    ShortForkedView(s);
    ShortShares(s);
  }

  lemma ShortForkedView(s: Sched)
    requires Inv(s) && s.tasks.Keys == {PARENT} && s.curr == PARENT && s.tasks[PARENT].state == Running
    ensures var s' := ShortForked(s, CHILD);
            && s'.curr == PARENT && s'.tasks.Keys == {PARENT, CHILD}
            && (forall x :: x in s'.tasks ==> s'.tasks[x].state == Running && s'.tasks[x].onArr.Some?)
  {
    hide NewChild, Inv;
    ChildIsRunning(s);
  }

  lemma ShortShares(s: Sched)
    requires s.curr in s.tasks && ShortTask(s.tasks[s.curr]) && s.tasks[s.curr].timeSlice >= 2
    ensures var t, p, c := s.tasks[s.curr], ForkedParent(s), NewChild(s);
            && ShortTask(p) && p.timeSlice == t.timeSlice / 2 && p.requestedTime == t.requestedTime
            && ShortTask(c) && c.timeSlice == t.timeSlice / 2 + t.timeSlice % 2 && c.requestedTime == t.requestedTime
            && c.firstTimeSlice
  {
  }

  /** setscheduler lengthens the slice of the child; neither task moves. */
  lemma LengthenStep(s: Sched)
    requires Stage(s, PARENT, AWAKE, AWAKE) && Split(s, false)
    ensures Enabled(s, SetPolicy(LengthenChild()))
    ensures var s' := Step(s, SetPolicy(LengthenChild())); Stage(s', PARENT, AWAKE, AWAKE) && Split(s', true)
  {
    hide Step, Judge, Inv, MsToJiffies;
    var r := LengthenChild();
    TenthOfSecond();
    ThreeSeconds();
    ChildIsLengthened(s.tasks[CHILD]);
    LengthenIs(s);
    StepKeeps(s, SetPolicy(r));
  }

  lemma ThreeSeconds()
    ensures MsToJiffies(MAX_REQUEST_MS) == 3 * HZ
  {
    assert 3000 * HZ / 1000 == 3 * HZ;
  }

  lemma ChildIsLengthened(t: Task)
    requires ShortTask(t) && 10 <= t.requestedTime && 2 * t.requestedTime < MAX_TIMESLICE
    requires t.timeSlice == t.requestedTime / 2 + t.requestedTime % 2 && MsToJiffies(MAX_REQUEST_MS) == 3 * HZ
    ensures Judge(t, LengthenChild()) == ChangeShort(ShortChanged(t, MAX_REQUEST_MS))
    ensures ShortChanged(t, MAX_REQUEST_MS) ==
            t.(requestedTime := 3 * HZ, timeSlice := t.timeSlice + 3 * HZ - t.requestedTime)
  {
    hide MsToJiffies;
    assert MAX_TIMESLICE <= HZ;
  }

  lemma LengthenIs(s: Sched)
    requires s.curr == PARENT && PARENT in s.tasks && CHILD in s.tasks
    requires Judge(s.tasks[CHILD], LengthenChild()).ChangeShort?
    ensures Enabled(s, SetPolicy(LengthenChild()))
    ensures Step(s, SetPolicy(LengthenChild())) ==
            ReschedCurr(Upd(s, CHILD, Judge(s.tasks[CHILD], LengthenChild()).changed))
  {
    hide Judge, TimerTick, Schedule, TryToWakeUp, Fork, Reap, YieldQueue, SetUserNice, Requeue;
  }

  /** The reap of the lengthened child. */
  lemma OutgrownReap(s: Sched)
    requires Stage(s, PARENT, AWAKE, Run(Zombie, false)) && Split(s, true)
    ensures Enabled(s, Exit(CHILD)) && PARENT in Step(s, Exit(CHILD)).tasks
    ensures PARENT in s.tasks && s.tasks[PARENT].timeSlice == MsToJiffies(100) / 2
    ensures Step(s, Exit(CHILD)).tasks[PARENT].timeSlice == MAX_TIMESLICE > MsToJiffies(100)
  {
    hide Step, Inv, MsToJiffies, AfterReap;
    TenthOfSecond();
    DeadCanBeReaped(s);
    StepCores(s, Exit(CHILD));
    ReapSlice(s.tasks[PARENT], s.tasks[CHILD]);
    assert MAX_TIMESLICE <= HZ;
  }

  lemma DeadCanBeReaped(s: Sched)
    requires Stage(s, PARENT, AWAKE, Run(Zombie, false))
    ensures Enabled(s, Exit(CHILD))
  {
    hide Inv, ViewOf;
    KeysOfView(s);
  }

  function OutgrowingEvents(): seq<Event> {
    [SetPolicy(MakeParentShort()), Clone(CHILD), SetPolicy(LengthenChild()), SetState(Uninterruptible),
     Resched(false), SetState(Zombie), Wake(PARENT), Resched(false)]
  }

  /** From boot: a task with a tenth of a second forks and gives half of it away, its child asks for more
      and dies, and the reap leaves the task with more than it had before the fork. */
  lemma ShareOutgrown(jiffies: int)
    requires jiffies >= 1
    ensures Possible(Boot(PARENT, jiffies), OutgrowingEvents())
    ensures var s := SchedModel.Run(Boot(PARENT, jiffies), OutgrowingEvents());
            && Enabled(s, Exit(CHILD)) && PARENT in s.tasks && PARENT in Step(s, Exit(CHILD)).tasks
            && s.tasks[PARENT].timeSlice == MsToJiffies(100) / 2
            && Step(s, Exit(CHILD)).tasks[PARENT].timeSlice == MAX_TIMESLICE > MsToJiffies(100)
  {
    hide Step, Enabled, Stage, Split, Inv, Boot, MsToJiffies;
    var es := OutgrowingEvents();
    var b := Boot(PARENT, jiffies);
    BootKeeps(PARENT, jiffies);
    BootTaskIs(jiffies);
    GrantSelf(b);
    var s1 := Step(b, es[0]);
    AfterShortFork(s1);
    var s2 := Step(s1, es[1]);
    LengthenStep(s2);
    ChildDies(Step(s2, es[2]), es);
    OneStep(s2, es, 2);
    OneStep(s1, es, 1);
    OneStep(b, es, 0);
    assert es[0..] == es;
    OutgrownReap(SchedModel.Run(b, es));
  }

  /** The parent sleeps, the child runs and dies, the parent is woken and runs. */
  lemma ChildDies(s: Sched, es: seq<Event>)
    requires Stage(s, PARENT, AWAKE, AWAKE) && Split(s, true) && es == OutgrowingEvents()
    ensures Possible(s, es[3..])
    ensures Stage(SchedModel.Run(s, es[3..]), PARENT, AWAKE, Run(Zombie, false))
    ensures Split(SchedModel.Run(s, es[3..]), true)
  {
    hide Step, Enabled, Stage, Split;
    StateStep(s, PARENT, AWAKE, AWAKE, Uninterruptible);
    SameSplit(s, es[3]);
    var s1 := Step(s, es[3]);
    PassStep(s1, PARENT, Uninterruptible);
    AlwaysEnabled(s1);
    SameSplit(s1, es[4]);
    var s2 := Step(s1, es[4]);
    StateStep(s2, CHILD, Run(Uninterruptible, false), AWAKE, Zombie);
    SameSplit(s2, es[5]);
    var s3 := Step(s2, es[5]);
    WakeStep(s3);
    SameSplit(s3, es[6]);
    var s4 := Step(s3, es[6]);
    PassStep(s4, CHILD, Zombie);
    AlwaysEnabled(s4);
    SameSplit(s4, es[7]);
    RunQueue.NoPasses(Step(s4, es[7]));
    assert es[8..] == [];
    OneStep(s4, es, 7);
    OneStep(s3, es, 6);
    OneStep(s2, es, 5);
    OneStep(s1, es, 4);
    OneStep(s, es, 3);
  }
}
