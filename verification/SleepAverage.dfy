/** The sleep average: what adds to it, what takes from it, and that a sleep is credited with exactly its
    length. */
module SleepAverage {
  import opened Params
  import opened Rows
  import opened SchedModel
  import opened SchedInvariant
  import opened SchedSteps
  import opened SchedFrames
  import opened ForkYield
  import opened Places
  import opened Preempt
  import RealTime
  import QueueOrder
  import ScheduleView
  import WaitQueue

  /** The average and the time of the last call of schedule. */
  ghost predicate SameSleep(t: Task, t': Task) {
    t'.sleepAvg == t.sleepAvg && t'.sleepTimestamp == t.sleepTimestamp
  }

  ghost predicate SleepKept(s: Sched, s': Sched, p: Id) {
    forall x :: x in s.tasks && x in s'.tasks && x != p ==> SameSleep(s.tasks[x], s'.tasks[x])
  }

  // ---------------------------------------------------------------- single steps

  /** A wake-up credits exactly the time since the task last called schedule and gives it the priority that
      goes with its new average. */
  lemma WakeCredits(s: Sched, p: Id)
    requires Inv(s) && p in s.tasks && s.tasks[p].onArr == None
    ensures var s' := Step(s, Wake(p));
            && p in s'.tasks && SleepKept(s, s', p)
            && var t, t' := s.tasks[p], s'.tasks[p];
            && t'.sleepAvg == Credited(t, s.jiffies) && t'.sleepTimestamp == t.sleepTimestamp
            && (if RtTask(t) || t.sleepTimestamp == s.jiffies then t'.prio == t.prio else t'.prio == EffectivePrio(t'))
  {
    hide Activate, Inv, WithSleepBonus, EffectivePrio, Home, OnlyCurrFlag;
    var t := s.tasks[p];
    var a := Home(t, s.active);
    ActivateFlags(s, p);
    AverageAtMost(s, p);
    BonusIs(t, s.jiffies);
    EffectiveIgnoresPlace(WithSleepBonus(t, s.jiffies), a);
    FlagRecord(Activate(s, p));
  }

  lemma FlagRecord(s: Sched)
    ensures ReschedCurr(s).tasks.Keys == s.tasks.Keys
    ensures forall x :: x in s.tasks ==>
              ReschedCurr(s).tasks[x] == if x == s.curr then s.tasks[x].(needResched := true) else s.tasks[x]
  {
  }

  lemma AverageAtMost(s: Sched, p: Id)
    requires Inv(s) && p in s.tasks
    ensures 0 <= s.tasks[p].sleepAvg <= MAX_SLEEP_AVG && s.tasks[p].sleepTimestamp <= s.jiffies
  {
    assert TaskOk(s.tasks[p], s.jiffies);
  }

  /** A tick takes one jiffy from the average of the task that runs, if it has any and is not real-time. */
  lemma TickTakes(s: Sched)
    requires Inv(s) && s.curr in s.tasks
    ensures var s' := Step(s, Tick);
            && s.curr in s'.tasks && SleepKept(s, s', s.curr)
            && var t, t' := s.tasks[s.curr], s'.tasks[s.curr];
            && t'.sleepTimestamp == t.sleepTimestamp
            && t'.sleepAvg == if RtTask(t) || t.onArr == Some(Expired(s)) then t.sleepAvg else Max(t.sleepAvg - 1, 0)
  {
    hide SchedulerTick, Inv;
    var s0 := s.(jiffies := s.jiffies + 1);
    ClockAdvances(s);
    TickAverage(s0);
  }

  lemma TickAverage(s: Sched)
    requires Inv(s) && s.curr in s.tasks
    ensures var s' := SchedulerTick(s);
            && s.curr in s'.tasks && SleepKept(s, s', s.curr)
            && var t, t' := s.tasks[s.curr], s'.tasks[s.curr];
            && t'.sleepTimestamp == t.sleepTimestamp
            && t'.sleepAvg == if RtTask(t) || t.onArr == Some(Expired(s)) then t.sleepAvg else Max(t.sleepAvg - 1, 0)
  {
    hide SliceEnd, RrSliceEnd, Queued, NoFork, MovedToTail, EndRecord;
    var t := s.tasks[s.curr];
    assert TaskOk(t, s.jiffies);
    if SliceEnds(s) {
      if t.policy == Rr {
        RrEndPlace(s);
      } else {
        SliceEndPlace(s);
        EndAverage(t);
      }
    }
  }

  /** The running task keeps its priority until its slice ends; then a task that is not real-time gets the
      priority of its average, or of its new class. */
  lemma TickPrio(s: Sched)
    requires Inv(s) && s.curr in s.tasks
    ensures var s' := Step(s, Tick);
            && s.curr in s'.tasks
            && var t, t' := s.tasks[s.curr], s'.tasks[s.curr];
               t'.prio == if SliceEnds(s) && !RtTask(t) then EffectivePrio(t') else t.prio
  {
    hide SliceEnd, RrSliceEnd, Queued, NoFork, MovedToTail, EndRecord, EffectivePrio;
    var s0 := s.(jiffies := s.jiffies + 1);
    var t := s.tasks[s.curr];
    ClockAdvances(s);
    assert TaskOk(t, s.jiffies);
    if SliceEnds(s0) {
      if t.policy == Rr {
        RrEndPlace(s0);
      } else {
        SliceEndPlace(s0);
        EndPrio(t);
        EffectiveIgnoresPlace(EndRecord(t), SliceEnd(s0).tasks[s.curr].onArr.value);
      }
    }
  }

  lemma EndPrio(t: Task)
    ensures EndRecord(t).prio == EffectivePrio(EndRecord(t))
  {
    hide EffectivePrio, FreshSlice;
    var u := EndRecord(t);
    SamePrio(u, NextClass(t.(sleepAvg := TickedSleepAvg(t))));
  }

  lemma EndAverage(t: Task)
    requires !RtTask(t) && t.sleepAvg >= 0
    ensures EndRecord(t).sleepAvg == Max(t.sleepAvg - 1, 0) && EndRecord(t).sleepTimestamp == t.sleepTimestamp
  {
    hide Refilled;
    RefilledClass(t.(sleepAvg := TickedSleepAvg(t)));
  }

  /** Reaping weighs three to one: if the child slept less on average than its reaper, the reaper's average
      becomes that of three parts its own and one part the child's, rounded down; else it stays. */
  lemma ReapWeighs(s: Sched, child: Id)
    requires Inv(s) && Enabled(s, Exit(child))
    ensures var s' := Step(s, Exit(child));
            && s.curr in s'.tasks && SleepKept(s, s', s.curr)
            && var a, c, a' := s.tasks[s.curr].sleepAvg, s.tasks[child].sleepAvg, s'.tasks[s.curr].sleepAvg;
            && s'.tasks[s.curr].sleepTimestamp == s.tasks[s.curr].sleepTimestamp
            && (c >= a ==> a' == a)
            && (c < a ==> 4 * a' <= 3 * a + c < 4 * a' + 4 && c <= a' < a)
  {
    hide Queued, NoFork, CurrOk;
    var a, c := s.tasks[s.curr].sleepAvg, s.tasks[child].sleepAvg;
    if c < a {
      var q := (a * EXIT_WEIGHT + c) / (EXIT_WEIGHT + 1);
      assert 4 * q <= 3 * a + c < 4 * q + 4;
    }
  }

  lemma NiceSleeps(s: Sched, p: Id, nice: int)
    requires Inv(s) && p in s.tasks
    ensures var s' := Step(s, Renice(p, nice)); p in s'.tasks && SleepKept(s, s', p) && SameSleep(s.tasks[p], s'.tasks[p])
  {
    hide Enqueue, Unlink, ReschedCurr, Inv, SetUserNice, MovedToTail;
    NiceIs(s, p, nice);
    var t := s.tasks[p];
    if Renices(t, nice) && t.onArr.Some? {
      var t1 := t.(staticPrio := NiceToPrio(nice), prio := NiceToPrio(nice));
      NobodyForked(s, p);
      Relinked(s, p, t1, t.onArr.value);
      FlagRecord(Enqueue(Upd(Unlink(s, p, t.onArr.value), p, t1), p, t.onArr.value));
    } else {
      NicedSleep(s, p, nice);
    }
  }

  lemma NicedSleep(s: Sched, p: Id, nice: int)
    requires p in s.tasks && !(Renices(s.tasks[p], nice) && s.tasks[p].onArr.Some?)
    ensures SameSleep(s.tasks[p], SetUserNice(s, p, nice).tasks[p])
  {
    hide Enqueue, Unlink, ReschedCurr;
  }

  lemma Relinked(s: Sched, p: Id, t: Task, a: Arr)
    requires Inv(s) && p in s.tasks && s.tasks[p].onArr.Some? && !t.justGotForked
    ensures Enqueue(Upd(Unlink(s, p, s.tasks[p].onArr.value), p, t), p, a).tasks == s.tasks[p := t.(onArr := Some(a))]
  {
    hide Enqueue, Queued, Unlink, MovedToTail;
    RelinkedRows(s, p, t, a);
  }

  /** setscheduler credits a task it requeues with the time since that last called schedule, although it
      has been queued and did not sleep; a sleeping task, and one whose request only changes, keep theirs. */
  lemma PolicyCredits(s: Sched, r: Request)
    requires Inv(s) && Enabled(s, SetPolicy(r)) && Target(s, r) in s.tasks
    ensures var p := Target(s, r);
            var s' := Step(s, SetPolicy(r));
            && p in s'.tasks && SleepKept(s, s', p)
            && var t, t' := s.tasks[p], s'.tasks[p];
            && t'.sleepTimestamp == t.sleepTimestamp
            && t'.sleepAvg ==
               if Reclasses(s, r) && t.onArr.Some? && !RealTime.RealTimePolicy(t')
               then Min(t.sleepAvg + (s.jiffies - t.sleepTimestamp), MAX_SLEEP_AVG) else t.sleepAvg
  {
    hide Inv, Requeue, Judge, ReschedCurr, WithSleepBonus, Home, MovedToTail, SameRows;
    var p := Target(s, r);
    AverageAtMost(s, p);
    if Reaches(s, r, p) {
      var t := s.tasks[p];
      var t1 := JudgedTask(t, r);
      JudgedFlags(t, r);
      JudgeKinds(t, r);
      JudgedSleep(t, r);
      if Judge(t, r).MakeShort? || Judge(t, r).Reclass? {
        NobodyForked(s, p);
        RequeuedSleep(s, p, t1);
        PolicyOfRt(s, p, t1, r);
      }
      FlagRecord(Requeue(s, p, t1));
      FlagRecord(Upd(s, p, t1));
    }
  }

  lemma RequeuedSleep(s: Sched, p: Id, t: Task)
    requires Inv(s) && p in s.tasks && !t.justGotForked && t.onArr == s.tasks[p].onArr && t.sleepAvg <= MAX_SLEEP_AVG
    ensures var s' := Requeue(s, p, t);
            && s'.tasks.Keys == s.tasks.Keys && s'.curr == s.curr && s'.tasks[p].policy == t.policy
            && (forall x :: x in s.tasks && x != p ==> s'.tasks[x] == s.tasks[x])
            && s'.tasks[p].sleepTimestamp == t.sleepTimestamp
            && s'.tasks[p].sleepAvg == if t.onArr.Some? then Credited(t, s.jiffies) else t.sleepAvg
  {
    hide Inv, Requeue, WithSleepBonus, Home, MovedToTail, SameRows;
    RequeuedRows(s, p, t);
    BonusIs(t.(onArr := None), s.jiffies);
    BonusPolicy(t.(onArr := None), s.jiffies);
  }

  lemma JudgedSleep(t: Task, r: Request)
    ensures SameSleep(t, JudgedTask(t, r))
  {
    hide MsToJiffies, ShortChangeAccepted, ShortChanged;
    ChangedSleep(t, r.requestedMs);
  }

  lemma ChangedSleep(t: Task, ms: int)
    ensures SameSleep(t, ShortChanged(t, ms))
  {
  }

  lemma PolicyOfRt(s: Sched, p: Id, t1: Task, r: Request)
    requires Inv(s) && p in s.tasks && t1 == JudgedTask(s.tasks[p], r)
    requires Judge(s.tasks[p], r).MakeShort? || Judge(s.tasks[p], r).Reclass?
    ensures RtTask(t1) <==> RealTime.RealTimePolicy(t1)
  {
    hide MsToJiffies, ShortChangeAccepted, Queued;
    assert TaskOk(s.tasks[p], s.jiffies);
  }

  /** schedule notes the time for the task that called it, and changes no average. */
  lemma ScheduleSleeps(s: Sched, signal: bool)
    requires Inv(s)
    ensures var s' := Schedule(s, signal);
            && SleepKept(s, s', s.curr) && s'.tasks.Keys == s.tasks.Keys
            && (s.curr in s.tasks ==>
                  s'.tasks[s.curr].sleepAvg == s.tasks[s.curr].sleepAvg && s'.tasks[s.curr].sleepTimestamp == s.jiffies)
  {
    hide PutPrev, PickNext, Inv;
    PutPrevSleeps(s, signal);
    PickNextTasks(PutPrev(s, signal));
  }

  lemma PutPrevSleeps(s: Sched, signal: bool)
    requires Inv(s)
    ensures var s1 := PutPrev(s, signal);
            && SleepKept(s, s1, s.curr) && s1.tasks.Keys == s.tasks.Keys && s1.curr == s.curr
            && (s.curr in s.tasks ==>
                  s1.tasks[s.curr].sleepAvg == s.tasks[s.curr].sleepAvg && s1.tasks[s.curr].sleepTimestamp == s.jiffies)
  {
    hide Queued, NoFork, TasksOk;
  }

  lemma YieldSleeps(s: Sched)
    requires s.curr in s.tasks && s.tasks[s.curr].onArr.Some?
    ensures var s' := YieldQueue(s);
            && s'.tasks.Keys == s.tasks.Keys && s'.curr == s.curr && s'.jiffies == s.jiffies
            && (forall x :: x in s.tasks ==> SameSleep(s.tasks[x], s'.tasks[x]))
  {
    hide YieldRow;
  }

  /** A child that is not real-time starts with 95 percent of its parent's average, rounded down, and the
      priority that goes with it; the parent keeps its own, up to the tick its last jiffy is charged with. */
  lemma ForkShares(s: Sched, child: Id)
    requires Inv(s) && Enabled(s, Clone(child))
    ensures var s' := Step(s, Clone(child));
            && s.curr in s'.tasks && child in s'.tasks && SleepKept(s, s', s.curr)
            && var a, c := s.tasks[s.curr].sleepAvg, s'.tasks[child];
            && c.sleepTimestamp == s.jiffies && s'.tasks[s.curr].sleepTimestamp == s.tasks[s.curr].sleepTimestamp
            && (if RtTask(s.tasks[s.curr]) then c.sleepAvg == a
                else 100 * c.sleepAvg <= 95 * a < 100 * c.sleepAvg + 100 && c.prio == EffectivePrio(c))
            && a - 1 <= s'.tasks[s.curr].sleepAvg <= a
            && (s.tasks[s.curr].timeSlice >= 2 ==> s'.tasks[s.curr].sleepAvg == a)
  {
    hide Inv, ForkParent, NewChild, Activate, ShortForked, EffectivePrio, OnlyCurrFlag;
    ForkIs(s, child);
    NewChildOk(s);
    ChildAverage(s);
    AverageAtMost(s, s.curr);
    if ShortTask(s.tasks[s.curr]) && s.tasks[s.curr].timeSlice >= 2 {
      ShortForkShape(s, child);
      ShortForkSleeps(s, child);
      EffectiveIgnoresPlace(NewChild(s), RtShort);
    } else {
      SliceOfMember(s, s.curr);
      PlainForkSleeps(s, child);
    }
  }

  lemma ChildAverage(s: Sched)
    requires Inv(s) && s.curr in s.tasks
    ensures var t, c := s.tasks[s.curr], NewChild(s);
            && c.sleepTimestamp == s.jiffies && (RtTask(c) <==> RtTask(t)) && c.onArr == None
            && (if RtTask(t) then c.sleepAvg == t.sleepAvg
                else 100 * c.sleepAvg <= 95 * t.sleepAvg < 100 * c.sleepAvg + 100 && c.prio == EffectivePrio(c))
  {
    hide EffectivePrio, Inv;
    NewChildOk(s);
    AverageAtMost(s, s.curr);
    var c := SplitSlice(s.tasks[s.curr]).1.(onArr := None, state := Running, sleepTimestamp := s.jiffies, parent := s.curr);
    var c1 := c.(sleepAvg := c.sleepAvg * CHILD_PENALTY / 100);
    SamePrio(c1, c1.(prio := EffectivePrio(c1)));
    RtStays(s);
  }

  lemma RtStays(s: Sched)
    requires Inv(s) && s.curr in s.tasks
    ensures RtTask(NewChild(s)) <==> RtTask(s.tasks[s.curr])
  {
    NewChildOk(s);
    assert TaskOk(s.tasks[s.curr], s.jiffies);
  }

  lemma ShortForkSleeps(s: Sched, child: Id)
    requires s.curr in s.tasks && child !in s.tasks
    ensures var s' := ShortForked(s, child);
            && s.curr in s'.tasks && child in s'.tasks && SleepKept(s, s', s.curr)
            && SameSleep(s.tasks[s.curr], s'.tasks[s.curr])
            && s'.tasks[child] == NewChild(s).(onArr := Some(RtShort))
  {
    hide NewChild;
  }

  lemma PlainForkSleeps(s: Sched, child: Id)
    requires Inv(s) && Enabled(s, Clone(child))
    requires !ShortTask(s.tasks[s.curr]) || s.tasks[s.curr].timeSlice == 1
    ensures var s' := Fork(s, child);
            && s.curr in s'.tasks && child in s'.tasks && SleepKept(s, s', s.curr)
            && var a, p, c := s.tasks[s.curr].sleepAvg, s'.tasks[s.curr], s'.tasks[child];
            && p.sleepTimestamp == s.tasks[s.curr].sleepTimestamp
            && a - 1 <= p.sleepAvg <= a && (s.tasks[s.curr].timeSlice >= 2 ==> p.sleepAvg == a)
            && c.sleepAvg == NewChild(s).sleepAvg && c.sleepTimestamp == NewChild(s).sleepTimestamp
            && c.prio == NewChild(s).prio && (EffectivePrio(c) == EffectivePrio(NewChild(s)))
  {
    hide ForkParent, NewChild, Activate, Inv, EffectivePrio, Home, MovedToTail, WithSleepBonus;
    ForkParentKeeps(s);
    ForkParentKeys(s);
    NewChildOk(s);
    ChildAverage(s);
    ForkParentSleeps(s);
    var s0 := ForkParent(s);
    var s1 := Upd(s0, child, NewChild(s));
    ChildRecordKeeps(s0, child, NewChild(s));
    NoForkKept(s0, child, NewChild(s));
    ActivatedRows(s1, child);
    AverageOfChild(s);
    BonusIs(NewChild(s), s.jiffies);
    EffectiveIgnoresPlace(NewChild(s), Home(NewChild(s), s1.active));
    FlagRecord(Activate(s1, child));
  }

  lemma AverageOfChild(s: Sched)
    requires Inv(s) && s.curr in s.tasks
    ensures NewChild(s).sleepAvg <= MAX_SLEEP_AVG
  {
    NewChildOk(s);
  }

  lemma NoForkKept(s: Sched, child: Id, c: Task)
    requires Inv(s) && !c.justGotForked
    ensures NoFork(s.tasks[child := c])
  {
  }

  lemma ForkParentSleeps(s: Sched)
    requires Inv(s) && s.curr in s.tasks
    requires !ShortTask(s.tasks[s.curr]) || s.tasks[s.curr].timeSlice == 1
    ensures var s0 := ForkParent(s);
            && s.curr in s0.tasks && SleepKept(s, s0, s.curr)
            && var a := s.tasks[s.curr].sleepAvg;
            && s0.tasks[s.curr].sleepTimestamp == s.tasks[s.curr].sleepTimestamp
            && a - 1 <= s0.tasks[s.curr].sleepAvg <= a
            && (s.tasks[s.curr].timeSlice >= 2 ==> s0.tasks[s.curr].sleepAvg == a)
  {
    hide SchedulerTick, Queued, NoFork;
    var t := s.tasks[s.curr];
    assert TaskOk(t, s.jiffies);
    var par := SplitSlice(t).0;
    if par.timeSlice == 0 {
      var par1 := par.(justGotForked := false, timeSlice := 1);
      UpdKeeps(s, s.curr, par1);
      TickAverage(Upd(s, s.curr, par1));
      ForkParentCores(s);
    }
  }

  // ---------------------------------------------------------------- all steps

  /** The step puts `x` on a queue with a bonus: it wakes it, or setscheduler requeues it. */
  ghost predicate Credits(s: Sched, e: Event, x: Id)
    requires Enabled(s, e) && x in s.tasks
  {
    match e
    case Wake(p) => p == x && s.tasks[x].onArr == None && !RtTask(s.tasks[x])
    case SetPolicy(r) =>
      Target(s, r) == x && s.tasks[x].onArr.Some? && Reclasses(s, r)
      && x in Step(s, e).tasks && !RealTime.RealTimePolicy(Step(s, e).tasks[x])
    case _ => false
  }

  /** Over all events: apart from those two, a step adds to no average, and takes only from that of the
      task that runs; and only schedule changes the time from which a sleep is counted. */
  lemma StepAverage(s: Sched, e: Event, x: Id)
    requires Inv(s) && Enabled(s, e) && x in s.tasks && x in Step(s, e).tasks
    ensures var t, t' := s.tasks[x], Step(s, e).tasks[x];
            && (Credits(s, e, x) ==> t'.sleepAvg == Min(t.sleepAvg + (s.jiffies - t.sleepTimestamp), MAX_SLEEP_AVG))
            && (!Credits(s, e, x) ==> t'.sleepAvg <= t.sleepAvg)
            && (!Credits(s, e, x) && t'.sleepAvg < t.sleepAvg ==> x == s.curr && (e.Tick? || e.Clone? || e.Exit?))
            && t'.sleepTimestamp == if x == s.curr && (e.Resched? || e.YieldCpu?) then s.jiffies else t.sleepTimestamp
  {
    hide Step, Inv, Reclasses, EffectivePrio;
    match e
    case Tick =>
      if s.curr in s.tasks {
        TickTakes(s);
        AverageAtMost(s, s.curr);
      } else {
        IdleTick(s);
      }
    case Resched(signal) =>
      QueueOrder.PassIsStep(s, signal);
      ScheduleSleeps(s, signal);
    case YieldCpu(signal) =>
      YieldKeepsAll(s, signal);
      YieldSleeps(s);
      ScheduleSleeps(YieldQueue(s), signal);
    case Clone(c) => ForkShares(s, c);
    case Exit(c) => ReapWeighs(s, c);
    case SetState(state) => StateSleeps(s, state);
    case Wake(p) => WakeAverage(s, p, x);
    case Renice(p, nice) => NiceSleeps(s, p, nice);
    case SetPolicy(r) => PolicyAverage(s, r, x);
  }

  lemma IdleTick(s: Sched)
    requires s.curr !in s.tasks
    ensures Step(s, Tick).tasks == s.tasks
  {
    hide SchedulerTick;
    TickIdle(s);
  }

  lemma YieldKeepsAll(s: Sched, signal: bool)
    requires Inv(s) && Enabled(s, YieldCpu(signal))
    ensures Step(s, YieldCpu(signal)) == Schedule(YieldQueue(s), signal) && Inv(YieldQueue(s))
  {
    hide Schedule, YieldQueue;
    YieldQueueKeeps(s);
  }

  lemma StateSleeps(s: Sched, state: RunState)
    requires s.curr in s.tasks
    ensures forall x :: x in s.tasks ==> SameSleep(s.tasks[x], Step(s, SetState(state)).tasks[x])
  {
  }

  lemma WakeAverage(s: Sched, p: Id, x: Id)
    requires Inv(s) && p in s.tasks && x in s.tasks && x in Step(s, Wake(p)).tasks
    ensures var t, t' := s.tasks[x], Step(s, Wake(p)).tasks[x];
            && t'.sleepTimestamp == t.sleepTimestamp
            && t'.sleepAvg == if p == x && t.onArr == None then Credited(t, s.jiffies) else t.sleepAvg
  {
    hide Woken, Inv, EffectivePrio, Credited;
    if s.tasks[p].onArr == None {
      WakeCredits(s, p);
    }
  }

  lemma PolicyAverage(s: Sched, r: Request, x: Id)
    requires Inv(s) && Enabled(s, SetPolicy(r)) && x in s.tasks && x in Step(s, SetPolicy(r)).tasks
    ensures var t, t' := s.tasks[x], Step(s, SetPolicy(r)).tasks[x];
            && t'.sleepTimestamp == t.sleepTimestamp
            && (Credits(s, SetPolicy(r), x) ==>
                  t'.sleepAvg == Min(t.sleepAvg + (s.jiffies - t.sleepTimestamp), MAX_SLEEP_AVG))
            && (!Credits(s, SetPolicy(r), x) ==> t'.sleepAvg == t.sleepAvg)
  {
    hide Step, Inv, Reclasses;
    if Target(s, r) in s.tasks {
      PolicyCredits(s, r);
    } else {
      NoTarget(s, r);
    }
  }

  lemma NoTarget(s: Sched, r: Request)
    requires Enabled(s, SetPolicy(r)) && Target(s, r) !in s.tasks
    ensures Step(s, SetPolicy(r)) == s
  {
  }

  /** When an average grows: exactly when it is below the cap and the step credits some time. */
  lemma OnlyCreditAdds(s: Sched, e: Event, x: Id)
    requires Inv(s) && Enabled(s, e) && x in s.tasks && x in Step(s, e).tasks
    ensures var t, t' := s.tasks[x], Step(s, e).tasks[x];
            t'.sleepAvg > t.sleepAvg <==>
              Credits(s, e, x) && t.sleepAvg < MAX_SLEEP_AVG && t.sleepTimestamp < s.jiffies
  {
    hide Step, Inv, Credits;
    StepAverage(s, e, x);
    AverageAtMost(s, x);
  }

  // ---------------------------------------------------------------- runs

  /** `p` sleeps since `since` with this average. */
  ghost predicate Asleep(s: Sched, p: Id, average: int, since: int) {
    && p in s.tasks && s.tasks[p].onArr == None
    && s.tasks[p].sleepAvg == average && s.tasks[p].sleepTimestamp == since
  }

  lemma StaysAsleep(s: Sched, e: Event, p: Id, average: int, since: int)
    requires Inv(s) && Enabled(s, e) && Asleep(s, p, average, since) && e != Wake(p) && e != Exit(p)
    ensures Asleep(Step(s, e), p, average, since)
  {
    hide Step, Inv, Credits, WaitQueue.ViewOf;
    if p == s.curr {
      CurrQueued(s);
    }
    NotCredited(s, e, p);
    ScheduleView.StepView(s, e);
    ViewKeys(s);
    ViewKeys(Step(s, e));
    StepAverage(s, e, p);
  }

  lemma NotCredited(s: Sched, e: Event, p: Id)
    requires Enabled(s, e) && p in s.tasks && s.tasks[p].onArr == None && e != Wake(p)
    ensures !Credits(s, e, p)
  {
    hide Step, Reclasses;
  }

  lemma ViewKeys(s: Sched)
    ensures WaitQueue.ViewOf(s).Keys == s.tasks.Keys
    ensures forall x :: x in s.tasks ==> WaitQueue.ViewOf(s)[x] == WaitQueue.Run(s.tasks[x].state, s.tasks[x].onArr.Some?)
  {
  }

  lemma {:induction false} SleepsOn(s: Sched, es: seq<Event>, p: Id, average: int, since: int)
    requires Inv(s) && Possible(s, es) && Asleep(s, p, average, since)
    requires Wake(p) !in es && Exit(p) !in es
    ensures Asleep(SchedModel.Run(s, es), p, average, since)
    decreases |es|
  {
    hide Step, Asleep;
    if es != [] {
      assert es[0] in es && forall e :: e in es[1..] ==> e in es;
      StaysAsleep(s, es[0], p, average, since);
      StepKeeps(s, es[0]);
      SleepsOn(Step(s, es[0]), es[1..], p, average, since);
    }
  }

  /** A sleep is credited with exactly its length: a task that schedule takes off the processor and that is
      woken after any run of other events has then its old average plus the jiffies in between, up to the
      cap, and the priority of the new average; unless it is real-time when it is woken. */
  lemma SleepIsCredited(s: Sched, signal: bool, es: seq<Event>)
    requires Inv(s) && Leaves(s, signal) && Possible(Step(s, Resched(signal)), es)
    requires Wake(s.curr) !in es && Exit(s.curr) !in es
    ensures var s2 := SchedModel.Run(Step(s, Resched(signal)), es);
            && s.curr in s2.tasks && s.curr in Step(s2, Wake(s.curr)).tasks
            && var t, t' := s2.tasks[s.curr], Step(s2, Wake(s.curr)).tasks[s.curr];
            && (if RtTask(t) then t'.sleepAvg == s.tasks[s.curr].sleepAvg
                else t'.sleepAvg == Min(s.tasks[s.curr].sleepAvg + (s2.jiffies - s.jiffies), MAX_SLEEP_AVG))
            && (!RtTask(t) && s2.jiffies != s.jiffies ==> t'.prio == EffectivePrio(t'))
  {
    hide Step, Inv, EffectivePrio, Leaves, Asleep, RtTask;
    var s1 := Step(s, Resched(signal));
    GoesToSleep(s, signal);
    StepKeeps(s, Resched(signal));
    SleepsOn(s1, es, s.curr, s.tasks[s.curr].sleepAvg, s.jiffies);
    RunKeeps(s1, es);
    WakesFrom(SchedModel.Run(s1, es), s.curr, s.tasks[s.curr].sleepAvg, s.jiffies);
  }

  lemma GoesToSleep(s: Sched, signal: bool)
    requires Inv(s) && Leaves(s, signal)
    ensures s.curr in s.tasks && Enabled(s, Resched(signal))
    ensures Asleep(Step(s, Resched(signal)), s.curr, s.tasks[s.curr].sleepAvg, s.jiffies)
  {
    hide Inv, TakenOff, Step;
    QueueOrder.PassIsStep(s, signal);
    ScheduleSleeps(s, signal);
    SchedulePlaces(s, signal);
  }

  lemma WakesFrom(s: Sched, p: Id, average: int, since: int)
    requires Inv(s) && Asleep(s, p, average, since)
    ensures Enabled(s, Wake(p)) && p in s.tasks && p in Step(s, Wake(p)).tasks
    ensures var t, t' := s.tasks[p], Step(s, Wake(p)).tasks[p];
            && (if RtTask(t) then t'.sleepAvg == average
                else t'.sleepAvg == Min(average + (s.jiffies - since), MAX_SLEEP_AVG))
            && (!RtTask(t) && s.jiffies != since ==> t'.prio == EffectivePrio(t'))
  {
    hide Inv, Step, EffectivePrio, SleepKept;
    WakeCredits(s, p);
  }

  /** What a task has slept, the sleep it is in included. */
  ghost function Slept(s: Sched, x: Id): int
    requires x in s.tasks
  {
    var t := s.tasks[x];
    t.sleepAvg + if t.onArr == None then s.jiffies - t.sleepTimestamp else 0
  }

  ghost predicate NoRequest(s: Sched, es: seq<Event>, x: Id)
    requires Possible(s, es)
    decreases |es|
  {
    es == [] || (!(es[0].SetPolicy? && Target(s, es[0].request) == x) && NoRequest(Step(s, es[0]), es[1..], x))
  }

  lemma SleptStep(s: Sched, e: Event, x: Id)
    requires Inv(s) && Enabled(s, e) && x in s.tasks && e != Exit(x) && !(e.SetPolicy? && Target(s, e.request) == x)
    ensures var s' := Step(s, e);
            x in s'.tasks && s'.jiffies >= s.jiffies && Slept(s', x) <= Slept(s, x) + (s'.jiffies - s.jiffies)
  {
    hide Step, Inv, Credits;
    var s' := Step(s, e);
    QueuedAfter(s, e, x);
    ClockStep(s, e);
    StepAverage(s, e, x);
    AverageAtMost(s, x);
    CreditsOf(s, e, x);
  }

  lemma CreditsOf(s: Sched, e: Event, x: Id)
    requires Enabled(s, e) && x in s.tasks && !(e.SetPolicy? && Target(s, e.request) == x)
    ensures Credits(s, e, x) ==> e == Wake(x) && s.tasks[x].onArr == None
  {
    hide Step, Reclasses;
  }

  /** Only a wake-up ends a sleep, and only schedule begins one. */
  lemma QueuedAfter(s: Sched, e: Event, x: Id)
    requires Inv(s) && Enabled(s, e) && x in s.tasks && e != Exit(x) && !(e.SetPolicy? && Target(s, e.request) == x)
    ensures x in Step(s, e).tasks
    ensures var t, t' := s.tasks[x], Step(s, e).tasks[x];
            && (t.onArr == None ==> (t'.onArr.Some? <==> e == Wake(x)))
            && (t.onArr.Some? && t'.onArr == None ==> x == s.curr && (e.Resched? || e.YieldCpu?))
  {
    hide Step, Inv, WaitQueue.ViewOf, ScheduleView.ViewAfter;
    AfterView(s, e, x);
    ScheduleView.StepView(s, e);
    ViewKeys(Step(s, e));
  }

  lemma AfterView(s: Sched, e: Event, x: Id)
    requires Inv(s) && Enabled(s, e) && x in s.tasks && e != Exit(x)
    ensures var t, v := s.tasks[x], ScheduleView.ViewAfter(s, e);
            && x in v
            && (t.onArr == None ==> (v[x].queued <==> e == Wake(x)))
            && (t.onArr.Some? && !v[x].queued ==> x == s.curr && (e.Resched? || e.YieldCpu?))
  {
    hide Inv, WaitQueue.ViewOf;
    ViewKeys(s);
    if x == s.curr {
      CurrQueued(s);
    }
  }

  lemma ClockStep(s: Sched, e: Event)
    requires Inv(s) && Enabled(s, e)
    ensures Step(s, e).jiffies == s.jiffies + if e.Tick? then 1 else 0
  {
    hide SchedulerTick, Schedule, YieldQueue, Fork, TryToWakeUp, SetUserNice, SetScheduler, Inv;
    match e
    case Tick =>
      if s.curr in s.tasks {
        TickClock(s.(jiffies := s.jiffies + 1));
      } else {
        TickIdle(s);
      }
    case Resched(signal) => PassClock(s, signal);
    case YieldCpu(signal) =>
      YieldSleeps(s);
      YieldInv(s);
      PassClock(YieldQueue(s), signal);
    case Clone(c) => ForkClock(s, c);
    case Wake(p) => WakeClock(s, p);
    case Renice(p, nice) => NiceClock(s, p, nice);
    case SetPolicy(r) => PolicyClock(s, r);
    case _ =>
  }

  lemma YieldInv(s: Sched)
    requires Inv(s) && s.curr in s.tasks
    ensures Inv(YieldQueue(s))
  {
    YieldQueueKeeps(s);
  }

  lemma PassClock(s: Sched, signal: bool)
    ensures Schedule(s, signal).jiffies == s.jiffies
  {
    hide PickNext, PutPrev;
    PutPrevFlags(s, signal);
    PickFrame(PutPrev(s, signal));
  }

  lemma ForkClock(s: Sched, child: Id)
    requires Inv(s) && Enabled(s, Clone(child))
    ensures Fork(s, child).jiffies == s.jiffies
  {
    hide ForkParent, NewChild, Activate, Inv;
    ForkParentKeys(s);
    var s1 := Upd(ForkParent(s), child, NewChild(s));
    ActivateClock(s1, child);
  }

  lemma ActivateClock(s: Sched, p: Id)
    requires p in s.tasks
    ensures Activate(s, p).jiffies == s.jiffies
  {
    hide Enqueue, WithSleepBonus, Home;
    var t := s.tasks[p];
    EnqueueClock(Upd(s, p, WithSleepBonus(t, s.jiffies)), p, Home(t, s.active));
  }

  lemma WakeClock(s: Sched, p: Id)
    requires p in s.tasks
    ensures TryToWakeUp(s, p).0.jiffies == s.jiffies
  {
    hide Activate;
    ActivateClock(s, p);
  }

  lemma NiceClock(s: Sched, p: Id, nice: int)
    requires p in s.tasks
    ensures SetUserNice(s, p, nice).jiffies == s.jiffies
  {
    hide Enqueue;
    var t := s.tasks[p];
    if t.onArr.Some? {
      var t1 := t.(staticPrio := NiceToPrio(nice), prio := NiceToPrio(nice));
      EnqueueClock(Upd(Unlink(s, p, t.onArr.value), p, t1), p, t.onArr.value);
    }
  }

  lemma PolicyClock(s: Sched, r: Request)
    requires s.curr in s.tasks
    ensures SetScheduler(s, r).0.jiffies == s.jiffies
  {
    hide Judge, Activate;
    var p := Target(s, r);
    if p in s.tasks && s.tasks[p].onArr.Some? {
      var s0 := Deactivate(s, p);
      ActivateClock(Upd(s0, p, JudgedTask(s.tasks[p], r).(onArr := None)), p);
    }
  }

  /** Over every run without a request for it a task sleeps, on average, no faster than the clock runs. */
  lemma {:induction false} NoFasterThanTime(s: Sched, es: seq<Event>, x: Id)
    requires Inv(s) && Possible(s, es) && x in s.tasks && Exit(x) !in es && NoRequest(s, es, x)
    ensures var s' := SchedModel.Run(s, es);
            && x in s'.tasks && s'.jiffies >= s.jiffies
            && s'.tasks[x].sleepAvg <= Slept(s', x) <= Slept(s, x) + (s'.jiffies - s.jiffies)
    decreases |es|
  {
    hide Step, Inv, Slept;
    if es == [] {
      SleptAtLeast(s, x);
    } else {
      assert es[0] in es && forall e :: e in es[1..] ==> e in es;
      SleptStep(s, es[0], x);
      StepKeeps(s, es[0]);
      NoFasterThanTime(Step(s, es[0]), es[1..], x);
    }
  }

  lemma SleptAtLeast(s: Sched, x: Id)
    requires Inv(s) && x in s.tasks
    ensures s.tasks[x].sleepAvg <= Slept(s, x)
  {
    AverageAtMost(s, x);
  }

  /** With requests it may: sched_setparam for a queued OTHER task, repeated within one jiffy, credits the
      same time twice. */
  lemma CreditedTwice(s: Sched, r: Request)
    requires Inv(s) && s.curr in s.tasks && Reaches(s, r, Target(s, r))
    requires r.policyCode < 0 && r.schedPriority == 0 && r.euidMatches
    requires var t := s.tasks[Target(s, r)]; t.policy == Other && t.onArr.Some?
    ensures Enabled(s, SetPolicy(r)) && Enabled(Step(s, SetPolicy(r)), SetPolicy(r))
    ensures var p := Target(s, r);
            var s' := Step(Step(s, SetPolicy(r)), SetPolicy(r));
            && p in s'.tasks
            && s'.tasks[p].sleepAvg == Min(s.tasks[p].sleepAvg + 2 * (s.jiffies - s.tasks[p].sleepTimestamp), MAX_SLEEP_AVG)
  {
    hide Step, Inv, SetScheduler, SleepKept, Judge;
    var p := Target(s, r);
    AverageAtMost(s, p);
    SameAgain(s, r);
    var s1 := Step(s, SetPolicy(r));
    StepKeeps(s, SetPolicy(r));
    ClockStep(s, SetPolicy(r));
    PolicyCredits(s, r);
    RealTime.ClassAdmission(s, r);
    RealTime.ClassAsRequested(s, r);
    PolicyPlaces(s, r);
    SameAgain(s1, r);
    RealTime.ClassAdmission(s1, r);
    RealTime.ClassAsRequested(s1, r);
    PolicyCredits(s1, r);
  }

  lemma SameAgain(s: Sched, r: Request)
    requires s.curr in s.tasks && Reaches(s, r, Target(s, r)) && s.tasks[Target(s, r)].policy == Other
    ensures Enabled(s, SetPolicy(r))
  {
    hide MsToJiffies, ShortChangeAccepted;
  }
}
