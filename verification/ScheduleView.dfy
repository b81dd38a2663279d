/** What every kernel entry point does to the states of the tasks and to their being on a queue, which is
    all that wait queues and completions see of the scheduler. */
module ScheduleView {
  import opened Params
  import opened Rows
  import opened SchedModel
  import opened SchedInvariant
  import opened SchedSteps
  import opened WaitQueue
  import opened Completion

  /** What a waker sees of a record. */
  function Seen(t: Task): Run {
    Run(t.state, t.onArr.Some?)
  }

  /** One record is replaced by one that looks the same. */
  ghost predicate SameLook(s: Sched, s': Sched) {
    s'.tasks.Keys == s.tasks.Keys && forall x :: x in s.tasks ==> Seen(s'.tasks[x]) == Seen(s.tasks[x])
  }

  lemma LookIsView(s: Sched, s': Sched)
    requires SameLook(s, s')
    ensures ViewOf(s') == ViewOf(s)
  {
  }

  lemma RecordLook(s: Sched, p: Id, t: Task)
    requires p in s.tasks && t.state == s.tasks[p].state && t.onArr == s.tasks[p].onArr
    ensures SameLook(s, Upd(s, p, t))
  {
  }

  lemma ReschedLook(s: Sched, s1: Sched)
    requires SameLook(s, s1)
    ensures SameLook(s, ReschedCurr(s1))
  {
  }

  /** Requeueing one task that was queued, wherever to, with a record in the same state. */
  lemma RequeuedLook(s: Sched, s1: Sched, p: Id, a: Arr)
    requires p in s.tasks && s.tasks[p].onArr.Some? && NoFork(s.tasks)
    requires p in s1.tasks && s1.tasks == s.tasks[p := s1.tasks[p]]
    requires s1.tasks[p].state == s.tasks[p].state && !s1.tasks[p].justGotForked
    ensures SameLook(s, Enqueue(s1, p, a))
  {
    hide Enqueue;
    EnqueuedRecord(s1, p, a);
  }

  lemma UnlinkRecords(s: Sched, p: Id, a: Arr)
    requires p in s.tasks
    ensures Unlink(s, p, a).tasks == s.tasks
  {
  }

  // ---------------------------------------------------------------- tick

  lemma RefilledLook(t: Task)
    ensures Refilled(t).state == t.state && Refilled(t).justGotForked == t.justGotForked
  {
  }

  lemma SliceEndLook(s: Sched)
    requires Inv(s) && s.curr in s.tasks
    ensures SameLook(s, SliceEnd(s))
  {
    hide Enqueue, Refilled, Unlink, Inv, Interactive, ExpiredStarving;
    CurrQueued(s);
    NobodyForks(s);
    var p := s.curr;
    var t := s.tasks[p].(sleepAvg := TickedSleepAvg(s.tasks[p]));
    RefilledLook(t);
    var t2 := Refilled(t).(needResched := true);
    UnlinkRecords(s, p, Home(s.tasks[p], s.active));
    var s1 := Upd(Unlink(s, p, Home(s.tasks[p], s.active)), p, t2);
    var s2 := if s.expiredStamp == 0 then s1.(expiredStamp := s.jiffies) else s1;
    RequeuedLook(s, s2, p, Expired(s));
    RequeuedLook(s, s1, p, Home(t2, s.active));
  }

  lemma NobodyForks(s: Sched)
    requires Inv(s)
    ensures NoFork(s.tasks)
  {
  }

  lemma RrSliceEndLook(s: Sched)
    requires Inv(s) && s.curr in s.tasks
    ensures SameLook(s, RrSliceEnd(s))
  {
    hide Enqueue, Unlink, TaskTimeslice, Inv;
    CurrQueued(s);
    NobodyForks(s);
    var p := s.curr;
    var t := s.tasks[p];
    var a := Home(t, s.active);
    var s1 := Upd(s, p, t.(timeSlice := TaskTimeslice(t), firstTimeSlice := false, needResched := true));
    UnlinkRecords(s1, p, a);
    RequeuedLook(s, Unlink(s1, p, a), p, a);
  }

  lemma SchedulerTickLook(s: Sched)
    requires Inv(s)
    ensures SameLook(s, SchedulerTick(s))
  {
    hide SliceEnd, RrSliceEnd, Inv, SameLook, Upd;
    if s.curr in s.tasks {
      var t := s.tasks[s.curr];
      RecordLook(s, s.curr, t);
      RecordLook(s, s.curr, t.(needResched := true));
      RecordLook(s, s.curr, t.(timeSlice := t.timeSlice - 1));
      RecordLook(s, s.curr, t.(sleepAvg := TickedSleepAvg(t), timeSlice := t.timeSlice - 1));
      SliceEndLook(s);
      RrSliceEndLook(s);
      Unchanged(s);
    } else {
      Unchanged(s);
    }
  }

  lemma Unchanged(s: Sched)
    ensures SameLook(s, s)
  {
  }

  // ---------------------------------------------------------------- nice, setscheduler, yield

  lemma NiceLook(s: Sched, p: Id, nice: int)
    requires Inv(s) && p in s.tasks
    ensures SameLook(s, SetUserNice(s, p, nice))
  {
    hide Enqueue, Unlink, Inv, SameLook, ReschedCurr;
    var t := s.tasks[p];
    var t1 := t.(staticPrio := NiceToPrio(nice), prio := NiceToPrio(nice));
    Unchanged(s);
    RecordLook(s, p, t1);
    RecordLook(s, p, t.(staticPrio := NiceToPrio(nice)));
    RecordLook(s, p, t.(overdueStaticPrio := NiceToPrio(nice)));
    if t.onArr.Some? {
      MovedLook(s, p, t1, t.onArr.value);
      ReschedLook(s, Enqueue(Upd(Unlink(s, p, t.onArr.value), p, t1), p, t.onArr.value));
    }
  }

  lemma MovedLook(s: Sched, p: Id, t: Task, a: Arr)
    requires Inv(s) && p in s.tasks && s.tasks[p].onArr.Some?
    requires t.state == s.tasks[p].state && t.justGotForked == s.tasks[p].justGotForked
    ensures SameLook(s, Enqueue(Upd(Unlink(s, p, a), p, t), p, a))
  {
    hide Enqueue, Unlink, Inv, SameLook;
    NobodyForks(s);
    UnlinkRecords(s, p, a);
    RequeuedLook(s, Upd(Unlink(s, p, a), p, t), p, a);
  }

  lemma RequeueLook(s: Sched, p: Id, t: Task)
    requires Inv(s) && p in s.tasks && t.onArr == s.tasks[p].onArr
    requires t.state == s.tasks[p].state && !t.justGotForked
    ensures SameLook(s, Requeue(s, p, t))
  {
    hide Deactivate, Activate, Inv;
    NobodyForks(s);
    if s.tasks[p].onArr.Some? {
      DeactivateTasks(s, p);
      var s1 := Upd(Deactivate(s, p), p, t.(onArr := None));
      assert s1.tasks == s.tasks[p := t.(onArr := None)];
      ActivateRun(s1, p);
    }
  }

  lemma VerdictLook(t: Task, r: Request)
    ensures var t' := SchedFrames.JudgedTask(t, r);
            t'.state == t.state && t'.onArr == t.onArr && t'.justGotForked == t.justGotForked
  {
    hide MsToJiffies, ShortChangeAccepted, ShortChanged;
    if t.policy == Short {
      ChangedLook(t, r.requestedMs);
    } else if r.policyCode >= 0 && DecodePolicy(r.policyCode) == Some(Short) {
      assert Judge(t, r).Refuse? || Judge(t, r).MakeShort?;
    } else {
      assert Judge(t, r).Refuse? || Judge(t, r).Reclass?;
    }
  }

  lemma ChangedLook(t: Task, ms: int)
    ensures var t' := ShortChanged(t, ms);
            t'.state == t.state && t'.onArr == t.onArr && t'.justGotForked == t.justGotForked
  {
  }

  lemma SetSchedulerLook(s: Sched, r: Request)
    requires Inv(s) && s.curr in s.tasks
    ensures SameLook(s, SetScheduler(s, r).0)
  {
    hide Judge, Requeue, ReschedCurr, Inv, SameLook;
    NobodyForks(s);
    Unchanged(s);
    var p := Target(s, r);
    if r.paramOk && r.pid >= 0 && r.copyOk && p in s.tasks {
      var t1 := SchedFrames.JudgedTask(s.tasks[p], r);
      VerdictLook(s.tasks[p], r);
      RequeueLook(s, p, t1);
      RecordLook(s, p, t1);
      ReschedLook(s, Upd(s, p, t1));
      ReschedLook(s, Requeue(s, p, t1));
    }
  }

  lemma YieldLook(s: Sched)
    requires s.curr in s.tasks && s.tasks[s.curr].onArr.Some?
    ensures SameLook(s, YieldQueue(s)) && YieldQueue(s).curr == s.curr
    ensures YieldQueue(s).tasks[s.curr].state == s.tasks[s.curr].state
  {
    hide Unlink, YieldRow, InsertSecond;
    UnlinkRecords(s, s.curr, s.tasks[s.curr].onArr.value);
    UnlinkCurr(s, s.curr, s.tasks[s.curr].onArr.value);
  }

  lemma UnlinkCurr(s: Sched, p: Id, a: Arr)
    requires p in s.tasks
    ensures Unlink(s, p, a).curr == s.curr
  {
  }

  // ---------------------------------------------------------------- fork

  lemma ForkParentLook(s: Sched)
    requires Inv(s) && s.curr in s.tasks
    ensures SameLook(s, ForkParent(s))
  {
    hide SchedulerTick, Inv, SameLook;
    var par := SplitSlice(s.tasks[s.curr]).0;
    RecordLook(s, s.curr, par);
    if par.timeSlice == 0 {
      RunQueue.LastJiffyOk(s);
      var last := par.(justGotForked := false, timeSlice := 1);
      RecordLook(s, s.curr, last);
      assert last == s.tasks[s.curr].(justGotForked := false, timeSlice := 1);
      SchedulerTickLook(Upd(s, s.curr, last));
      LookThen(s, Upd(s, s.curr, last), SchedulerTick(Upd(s, s.curr, last)));
    }
  }

  lemma LookThen(s: Sched, s1: Sched, s2: Sched)
    requires SameLook(s, s1) && SameLook(s1, s2)
    ensures SameLook(s, s2)
  {
  }

  lemma NewChildLook(s: Sched)
    requires s.curr in s.tasks
    ensures NewChild(s).state == Running && NewChild(s).onArr == None
  {
  }

  /** A new task that is activated is seen running and queued, and nobody else is seen differently. */
  lemma BornView(s: Sched, s1: Sched, child: Id, c: Task)
    requires SameLook(s, s1) && child !in s.tasks && NoFork(s1.tasks) && !c.justGotForked && c.state == Running
    ensures var s2 := Activate(Upd(s1, child, c), child);
            ViewOf(s2) == ViewOf(s)[child := AWAKE] && ViewOf(ReschedCurr(s2)) == ViewOf(s)[child := AWAKE]
  {
    hide Activate, ReschedCurr, ViewOf, SameLook, Seen;
    var s2 := Activate(Upd(s1, child, c), child);
    BornLook(s, s1, child, c);
    OneMore(s, s2, child);
    Unchanged(s2);
    ReschedLook(s2, s2);
    LookIsView(s2, ReschedCurr(s2));
  }

  lemma BornLook(s: Sched, s1: Sched, child: Id, c: Task)
    requires SameLook(s, s1) && child !in s.tasks && NoFork(s1.tasks) && !c.justGotForked && c.state == Running
    ensures var s2 := Activate(Upd(s1, child, c), child);
            && s2.tasks.Keys == s.tasks.Keys + {child} && Seen(s2.tasks[child]) == AWAKE
            && forall x :: x in s.tasks ==> Seen(s2.tasks[x]) == Seen(s.tasks[x])
  {
    hide Activate, WithSleepBonus;
    var s0 := Upd(s1, child, c);
    assert NoFork(s0.tasks) && s0.tasks.Keys == s.tasks.Keys + {child};
    ActivateRun(s0, child);
  }

  lemma OneMore(s: Sched, s2: Sched, child: Id)
    requires s2.tasks.Keys == s.tasks.Keys + {child} && child !in s.tasks
    requires forall x :: x in s.tasks ==> Seen(s2.tasks[x]) == Seen(s.tasks[x])
    requires Seen(s2.tasks[child]) == AWAKE
    ensures ViewOf(s2) == ViewOf(s)[child := AWAKE]
  {
  }

  lemma PlainForkView(s: Sched, child: Id)
    requires Inv(s) && Enabled(s, Clone(child))
    requires !ShortTask(s.tasks[s.curr]) || s.tasks[s.curr].timeSlice == 1
    ensures ViewOf(Fork(s, child)) == ViewOf(s)[child := AWAKE]
  {
    hide ForkParent, NewChild, Activate, ReschedCurr, Inv, SameLook, ViewOf, ShortTask, OverdueTask;
    ForkParentKeeps(s);
    ForkParentLook(s);
    NewChildLook(s);
    NewChildOk(s);
    NobodyForks(ForkParent(s));
    BornView(s, ForkParent(s), child, NewChild(s));
  }

  lemma ShortForkView(s: Sched, child: Id)
    requires Inv(s) && Enabled(s, Clone(child))
    requires ShortTask(s.tasks[s.curr]) && s.tasks[s.curr].timeSlice >= 2
    ensures ViewOf(Fork(s, child)) == ViewOf(s)[child := AWAKE]
  {
    hide NewChild, Inv, Fork;
    CurrQueued(s);
    ShortForkShape(s, child);
    NewChildLook(s);
  }

  lemma ForkView(s: Sched, child: Id)
    requires Inv(s) && Enabled(s, Clone(child))
    ensures ViewOf(Fork(s, child)) == ViewOf(s)[child := AWAKE]
  {
    hide Fork, Inv, ViewOf;
    CurrQueued(s);
    if ShortTask(s.tasks[s.curr]) && s.tasks[s.curr].timeSlice >= 2 {
      ShortForkView(s, child);
    } else {
      PlainForkView(s, child);
    }
  }

  // ---------------------------------------------------------------- all kernel entry points

  lemma ReapView(s: Sched, child: Id)
    requires Enabled(s, Exit(child))
    ensures ViewOf(Reap(s, child)) == ViewOf(s) - {child}
  {
    hide AfterReap;
    ReaperLook(s.tasks[s.curr], s.tasks[child]);
  }

  lemma ReaperLook(t: Task, c: Task)
    ensures Seen(AfterReap(t, c)) == Seen(t)
  {
  }

  lemma PassView(s: Sched, signal: bool)
    requires Inv(s)
    ensures ViewOf(Schedule(s, signal)) ==
            if s.curr in s.tasks then ViewOf(s)[s.curr := AfterPass(s.tasks[s.curr].state, signal)] else ViewOf(s)
  {
    hide PickNext, SwitchTo, ViewOf, Inv;
    if s.curr in s.tasks {
      ScheduleOnView(s, signal);
    } else {
      PickNextView(s);
      SwitchView(PickNext(s).0, PickNext(s).1);
    }
  }

  lemma YieldView(s: Sched, signal: bool)
    requires Inv(s) && s.curr in s.tasks
    ensures ViewOf(Schedule(YieldQueue(s), signal)) == ViewOf(s)[s.curr := AfterPass(s.tasks[s.curr].state, signal)]
  {
    hide YieldQueue, Schedule, ViewOf, Inv, SameLook;
    CurrQueued(s);
    YieldQueueKeeps(s);
    YieldLook(s);
    LookIsView(s, YieldQueue(s));
    LookKeys(s, YieldQueue(s));
    PassView(YieldQueue(s), signal);
  }

  lemma LookKeys(s: Sched, s': Sched)
    requires SameLook(s, s')
    ensures s'.tasks.Keys == s.tasks.Keys
  {
  }

  /** What an event does to the view. */
  ghost function ViewAfter(s: Sched, e: Event): map<Id, Run>
    requires Enabled(s, e)
  {
    var v := ViewOf(s);
    match e
    case Resched(signal) => if s.curr in s.tasks then v[s.curr := AfterPass(s.tasks[s.curr].state, signal)] else v
    case YieldCpu(signal) => v[s.curr := AfterPass(s.tasks[s.curr].state, signal)]
    case SetState(state) => v[s.curr := Run(state, true)]
    case Wake(p) => v[p := AWAKE]
    case Clone(c) => v[c := AWAKE]
    case Exit(c) => v - {c}
    case _ => v
  }

  /** Every kernel entry point, seen by a waker: ticks, nice and setscheduler change nothing, schedule and
      yield the calling task only, and each of the others the one task it is about. */
  lemma StepView(s: Sched, e: Event)
    requires Inv(s) && Enabled(s, e)
    ensures ViewOf(Step(s, e)) == ViewAfter(s, e)
  {
    hide TimerTick, Schedule, TryToWakeUp, Fork, Reap, YieldQueue, SetUserNice, SetScheduler, ViewOf, Inv, SameLook;
    match e
    case Tick =>
      TickLook(s);
      LookIsView(s, TimerTick(s));
    case Resched(signal) => PassView(s, signal);
    case SetState(state) => StateLook(s, state);
    case Wake(p) => WakeView(s, p);
    case Clone(c) => ForkView(s, c);
    case Exit(c) => ReapView(s, c);
    case YieldCpu(signal) => YieldView(s, signal);
    case Renice(p, nice) =>
      NiceLook(s, p, nice);
      LookIsView(s, SetUserNice(s, p, nice));
    case SetPolicy(r) =>
      SetSchedulerLook(s, r);
      LookIsView(s, SetScheduler(s, r).0);
  }

  lemma TickLook(s: Sched)
    requires Inv(s)
    ensures SameLook(s, TimerTick(s))
  {
    hide SchedulerTick, Inv;
    ClockAdvances(s);
    SchedulerTickLook(s.(jiffies := s.jiffies + 1));
  }

  lemma StateLook(s: Sched, state: RunState)
    requires Inv(s) && s.curr in s.tasks
    ensures ViewOf(Upd(s, s.curr, s.tasks[s.curr].(state := state))) == ViewOf(s)[s.curr := Run(state, true)]
  {
    hide Inv;
    CurrQueued(s);
  }
}
