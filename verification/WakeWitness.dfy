/** A run from boot in which a wake-up does not notice that the woken task comes before the current one. */
module WakeWitness {
  import opened Params
  import opened Rows
  import opened SchedModel
  import opened SchedInvariant
  import opened SchedSteps
  import opened SchedFrames
  import opened PickOrder
  import opened WaitQueue
  import opened Completion
  import opened Places
  import opened Preempt
  import opened SleepAverage
  import opened BudgetMint
  import opened ForkWitness
  import Priorities
  import ScheduleView
  import RunQueue

  /** The child is OTHER with a better priority than its SHORT parent. */
  ghost predicate Ranks(s: Sched) {
    && PARENT in s.tasks && CHILD in s.tasks
    && s.tasks[CHILD].policy == Other && s.tasks[CHILD].prio == 116 && !s.tasks[CHILD].needResched
    && ShortTask(s.tasks[PARENT]) && s.tasks[PARENT].prio == 120
  }

  /** 95 percent of the largest average are nine tenths of it. */
  lemma ChildPrio(c: Task)
    requires Priorities.Plain(c) && c.staticPrio == 120
    requires 100 * c.sleepAvg <= 95 * MAX_SLEEP_AVG < 100 * c.sleepAvg + 100
    ensures EffectivePrio(c) == 116
  {
    Priorities.BonusIsTenths(c, 9);
  }

  lemma ForkStep(b: Sched)
    requires Inv(b) && b.tasks.Keys == {PARENT} && b.curr == PARENT
    requires var t := b.tasks[PARENT];
             && t.policy == Other && t.state == Running && t.timeSlice >= 2 && t.staticPrio == 120 && !t.needResched
             && t.sleepAvg == MAX_SLEEP_AVG
    ensures Enabled(b, Clone(CHILD))
    ensures var s := Step(b, Clone(CHILD));
            && Stage(s, PARENT, AWAKE, AWAKE) && Classes(s, false)
            && s.tasks[CHILD].prio == 116 && !s.tasks[CHILD].needResched
            && s.tasks[PARENT].staticPrio == 120 && s.tasks[PARENT].sleepTimestamp == b.tasks[PARENT].sleepTimestamp
            && s.jiffies == b.jiffies
  {
    hide Step, Inv, ViewOf, EffectivePrio, OnlyCurrFlag;
    AfterFork(b);
    StepCores(b, Clone(CHILD));
    CoreStatic(b);
    ForkShares(b, CHILD);
    ForkAsks(b, CHILD);
    ClockStep(b, Clone(CHILD));
    var s := Step(b, Clone(CHILD));
    OtherIsNotRt(b, PARENT);
    AverageAtMost(s, CHILD);
    ChildPrio(s.tasks[CHILD]);
  }

  lemma OtherIsNotRt(s: Sched, p: Id)
    requires Inv(s) && p in s.tasks && s.tasks[p].policy == Other
    ensures !RtTask(s.tasks[p])
  {
    assert TaskOk(s.tasks[p], s.jiffies);
  }

  lemma CoreStatic(b: Sched)
    requires b.curr in b.tasks && b.tasks[b.curr].policy == Other && b.tasks[b.curr].timeSlice >= 2
    ensures NewChild(b).staticPrio == b.tasks[b.curr].staticPrio && ForkedParent(b).staticPrio == b.tasks[b.curr].staticPrio
  {
  }

  /** The parent makes itself SHORT. */
  lemma GrantStep(s: Sched)
    requires Stage(s, PARENT, AWAKE, AWAKE) && Classes(s, false)
    requires s.tasks[CHILD].prio == 116 && !s.tasks[CHILD].needResched && s.tasks[PARENT].staticPrio == 120
    requires s.tasks[PARENT].sleepTimestamp != s.jiffies
    ensures Enabled(s, SetPolicy(MakeParentShort()))
    ensures var s' := Step(s, SetPolicy(MakeParentShort())); Stage(s', PARENT, AWAKE, AWAKE) && Ranks(s')
  {
    hide Step, Inv, ViewOf, MovedToTail, SameRows, SetScheduler, Judge;
    var r := MakeParentShort();
    KeysOfView(s);
    ParentIsMade(s.tasks[PARENT]);
    GrantEnabled(s);
    var s' := Step(s, SetPolicy(r));
    StepKeeps(s, SetPolicy(r));
    ScheduleView.StepView(s, SetPolicy(r));
    KeysOfView(s');
    PolicyPlaces(s, r);
    PrioWhenMadeShort(s, r);
    ChildStays(s, s', r);
  }

  lemma ChildStays(s: Sched, s': Sched, r: Request)
    requires Inv(s) && Inv(s') && Enabled(s, SetPolicy(r)) && s' == Step(s, SetPolicy(r)) && Target(s, r) == PARENT
    requires PARENT in s.tasks && CHILD in s.tasks && s.tasks[CHILD].onArr.Some?
    requires s.curr == PARENT
    ensures CHILD in s'.tasks
    ensures var c, c' := s.tasks[CHILD], s'.tasks[CHILD];
            c'.prio == c.prio && c'.policy == c.policy && c'.needResched == c.needResched
  {
    hide Step, Inv, MovedToTail, SameRows, SetScheduler, JudgedTask;
    PolicyPlaces(s, r);
    PolicyAsks(s, r);
    StepCores(s, SetPolicy(r));
    if Reclasses(s, r) && s.tasks[PARENT].onArr.Some? {
      TailLeaves(s, s', PARENT, s'.tasks[PARENT].onArr.value, s'.tasks[PARENT].prio, CHILD);
    } else {
      SameLeaves(s, s', CHILD);
    }
  }

  lemma SameLeaves(s: Sched, s': Sched, x: Id)
    requires Inv(s) && Inv(s') && SameRows(s, s') && x in s.tasks && s.tasks[x].onArr.Some?
    ensures x in s'.tasks && s'.tasks[x].prio == s.tasks[x].prio
  {
    var a, k := s.tasks[x].onArr.value, s.tasks[x].prio;
    RowElements(s, a, k);
    RowElements(s', a, k);
    assert x in Row(s', a, k);
  }

  lemma SleepStep(s: Sched)
    requires Stage(s, PARENT, AWAKE, AWAKE) && Ranks(s)
    ensures Enabled(s, SetState(Uninterruptible))
    ensures var s' := Step(s, SetState(Uninterruptible));
            Stage(s', PARENT, Run(Uninterruptible, true), AWAKE) && Ranks(s')
  {
    hide Inv, ViewOf;
    StateStep(s, PARENT, AWAKE, AWAKE, Uninterruptible);
  }

  /** schedule goes on to the child; the priorities are as they were. */
  lemma ChildRuns(s: Sched)
    requires Stage(s, PARENT, Run(Uninterruptible, true), AWAKE) && Ranks(s)
    ensures Enabled(s, Resched(false))
    ensures var s' := Step(s, Resched(false));
            && Stage(s', CHILD, Run(Uninterruptible, false), AWAKE) && Ranks(s')
            && PARENT in s'.tasks && s'.tasks[PARENT].sleepTimestamp == s'.jiffies
  {
    hide Step, Inv, ViewOf;
    AlwaysEnabled(s);
    PassStep(s, PARENT, Uninterruptible);
    PassIs(s);
    ScheduleSleeps(s, false);
    PassAnswers(s, false);
    PassPrios(s);
    StepCores(s, Resched(false));
    PassClock(s, false);
  }

  lemma PassPrios(s: Sched)
    ensures var s' := Schedule(s, false);
            s'.tasks.Keys == s.tasks.Keys && forall x :: x in s.tasks ==> s'.tasks[x].prio == s.tasks[x].prio
  {
    hide PickNext;
    PickNextTasks(PutPrev(s, false));
  }

  function UnnoticedEvents(): seq<Event> {
    [Clone(CHILD), SetPolicy(MakeParentShort()), SetState(Uninterruptible), Resched(false)]
  }

  /** From boot: the parent makes itself SHORT and sleeps, its OTHER child runs with a better priority, and
      waking the parent does not ask for schedule although the parent comes first. */
  lemma WakeUnnoticed(jiffies: int)
    requires jiffies >= MAX_SLEEP_AVG
    ensures Possible(Boot(PARENT, jiffies), UnnoticedEvents())
    ensures var s := SchedModel.Run(Boot(PARENT, jiffies), UnnoticedEvents());
            && Enabled(s, Wake(PARENT)) && s.curr == CHILD && !Asked(s)
            && var s' := Step(s, Wake(PARENT));
            && IsQueued(s', PARENT) && IsQueued(s', CHILD) && Before(s', PARENT, CHILD) && !Asked(s')
  {
    hide Step, Enabled, Stage, Classes, Ranks, Inv, Boot;
    var es := UnnoticedEvents();
    var b := Boot(PARENT, jiffies);
    BootKeeps(PARENT, jiffies);
    BootPrio(jiffies);
    ForkStep(b);
    var s1 := Step(b, es[0]);
    GrantStep(s1);
    var s2 := Step(s1, es[1]);
    SleepStep(s2);
    var s3 := Step(s2, es[2]);
    ChildRuns(s3);
    var s4 := Step(s3, es[3]);
    RunQueue.NoPasses(s4);
    assert es[4..] == [] && es[0..] == es;
    OneStep(s3, es, 3);
    OneStep(s2, es, 2);
    OneStep(s1, es, 1);
    OneStep(b, es, 0);
    LastStep(s4);
  }

  lemma LastStep(s: Sched)
    requires Stage(s, CHILD, Run(Uninterruptible, false), AWAKE) && Ranks(s)
    requires PARENT in s.tasks && s.tasks[PARENT].sleepTimestamp == s.jiffies
    ensures Enabled(s, Wake(PARENT)) && s.curr == CHILD && !Asked(s)
    ensures var s' := Step(s, Wake(PARENT));
            IsQueued(s', PARENT) && IsQueued(s', CHILD) && Before(s', PARENT, CHILD) && !Asked(s')
  {
    hide Step, Inv, ViewOf, EffectivePrio, SleepKept, OnlyCurrFlag, Before;
    KeysOfView(s);
    WakeIs(s);
    WakeCredits(s, PARENT);
    WakeAsks(s, PARENT);
    WakePlaces(s, PARENT);
    ChildInActive(s);
    WakeTestIsOrder(s, PARENT);
  }

  lemma ChildInActive(s: Sched)
    requires Inv(s) && CHILD in s.tasks && s.tasks[CHILD].policy == Other && s.tasks[CHILD].onArr.Some?
    ensures s.tasks[CHILD].onArr == Some(A0) || s.tasks[CHILD].onArr == Some(A1)
    ensures Rank(RtShort, s.active) < Rank(s.tasks[CHILD].onArr.value, s.active)
  {
    assert TaskOk(s.tasks[CHILD], s.jiffies);
  }
}
