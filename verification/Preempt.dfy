/** When a step asks for schedule: the flag `needResched` of the current task, over every event; and how
    far the test of a wake-up agrees with the order in which schedule picks. */
module Preempt {
  import opened Params
  import opened Rows
  import opened SchedModel
  import opened SchedInvariant
  import opened SchedSteps
  import opened SchedFrames
  import opened PickOrder
  import opened ForkYield
  import opened Places

  /** The task on the processor, which may be the idle task, is asked to reschedule. */
  predicate Asked(s: Sched) {
    if s.curr in s.tasks then s.tasks[s.curr].needResched else s.idleResched
  }

  /** No flag has changed but perhaps that of the task on the processor, which is still the same one. */
  ghost predicate OnlyCurrFlag(s: Sched, s': Sched) {
    && s'.curr == s.curr && (s.curr in s'.tasks <==> s.curr in s.tasks)
    && (s.curr in s.tasks ==> s'.idleResched == s.idleResched)
    && (forall x :: x in s.tasks && x in s'.tasks && x != s.curr ==> s'.tasks[x].needResched == s.tasks[x].needResched)
  }

  lemma ActivateFlags(s: Sched, p: Id)
    requires Inv(s) && p in s.tasks && s.tasks[p].onArr == None
    ensures var s' := Activate(s, p);
            && OnlyCurrFlag(s, s') && (Asked(s') <==> Asked(s)) && CurrPrio(s') == CurrPrio(s)
            && p in s'.tasks && p != s.curr
            && s'.tasks == s.tasks[p := WithSleepBonus(s.tasks[p], s.jiffies).(onArr := Some(Home(s.tasks[p], s.active)))]
  {
    hide Activate, Queued, Home, WithSleepBonus, MovedToTail;
    OffQueueIsHole(s.rows, s.tasks, p);
    ActivatedRows(s, p);
    BonusFlag(s.tasks[p], s.jiffies);
  }

  lemma BonusFlag(t: Task, jiffies: int)
    ensures WithSleepBonus(t, jiffies).needResched == t.needResched
  {
  }

  lemma ReschedFlags(s: Sched)
    ensures OnlyCurrFlag(s, ReschedCurr(s)) && Asked(ReschedCurr(s))
    ensures ReschedCurr(s).tasks.Keys == s.tasks.Keys
    ensures forall x :: x in s.tasks ==> ReschedCurr(s).tasks[x].prio == s.tasks[x].prio
  {
  }

  lemma FlagTrans(s: Sched, s1: Sched, s2: Sched)
    requires OnlyCurrFlag(s, s1) && OnlyCurrFlag(s1, s2) && s.tasks.Keys <= s1.tasks.Keys
    ensures OnlyCurrFlag(s, s2)
  {
  }

  /** A wake-up asks for schedule exactly if the task was on no queue and its priority, with the bonus for
      its sleep, is better than that of the task on the processor; the idle task has the worst. */
  lemma WakeAsks(s: Sched, p: Id)
    requires Inv(s) && p in s.tasks
    ensures var s' := Step(s, Wake(p));
            && p in s'.tasks && OnlyCurrFlag(s, s')
            && (Asked(s') <==> Asked(s) || (s.tasks[p].onArr == None && s'.tasks[p].prio < CurrPrio(s)))
  {
    hide Activate, Inv, ReschedCurr, OnlyCurrFlag;
    if s.tasks[p].onArr == None {
      ActivateFlags(s, p);
      var s1 := Activate(s, p);
      ReschedFlags(s1);
      FlagTrans(s, s1, ReschedCurr(s1));
      StateFlags(Woken(s, p), p, Running);
      FlagTrans(s, Woken(s, p), Step(s, Wake(p)));
      KeysAdded(s, p);
    } else {
      StateFlags(s, p, Running);
    }
  }

  lemma KeysAdded(s: Sched, p: Id)
    requires p in s.tasks
    ensures p in Activate(s, p).tasks
  {
  }

  lemma StateFlags(s: Sched, p: Id, state: RunState)
    requires p in s.tasks
    ensures var s' := Upd(s, p, s.tasks[p].(state := state));
            OnlyCurrFlag(s, s') && (Asked(s') <==> Asked(s)) && s'.tasks[p].prio == s.tasks[p].prio
  {
  }

  // ---------------------------------------------------------------- every other event

  /** What asks for schedule, besides a wake-up: a tick that uses up a slice or finds the task expired; a
      fork by a task that is not overdue; a nice value that counts for the current task; and a request
      that is accepted for a task that is SHORT or becomes it. */
  ghost predicate Asks(s: Sched, e: Event)
    requires Enabled(s, e)
  {
    match e
    case Tick => s.curr in s.tasks && (SliceEnds(s) || s.tasks[s.curr].onArr == Some(Expired(s)))
    case Wake(p) => s.tasks[p].onArr == None && p in Step(s, e).tasks && Step(s, e).tasks[p].prio < CurrPrio(s)
    case Clone(_) => !OverdueTask(s.tasks[s.curr])
    case Renice(p, nice) => p == s.curr && Renices(s.tasks[p], nice)
    case SetPolicy(r) =>
      SetScheduler(s, r).1 == 0 && Target(s, r) in Step(s, e).tasks && Step(s, e).tasks[Target(s, r)].policy == Short
    case _ => false
  }

  lemma TickAsks(s: Sched)
    requires Inv(s)
    ensures var s' := Step(s, Tick);
            OnlyCurrFlag(s, s') && (Asked(s') <==> Asked(s) || Asks(s, Tick))
  {
    hide SchedulerTick, Queued, NoFork;
    if s.curr in s.tasks {
      TickPlaces(s);
      TickFlag(s.(jiffies := s.jiffies + 1));
      TickKeeps(s);
    } else {
      TickIdle(s);
    }
  }

  lemma TickFlag(s: Sched)
    requires Inv(s) && s.curr in s.tasks
    ensures var s' := SchedulerTick(s);
            && s.curr in s'.tasks && s'.idleResched == s.idleResched && s'.curr == s.curr && s'.tasks.Keys == s.tasks.Keys
            && (forall x :: x in s.tasks && x != s.curr ==> s'.tasks[x] == s.tasks[x])
            && (s'.tasks[s.curr].needResched <==>
                  s.tasks[s.curr].needResched || SliceEnds(s) || s.tasks[s.curr].onArr == Some(Expired(s)))
  {
    hide SliceEnd, RrSliceEnd, Queued, NoFork, MovedToTail;
    assert TaskOk(s.tasks[s.curr], s.jiffies);
    if SliceEnds(s) {
      EndIdleFlag(s);
      if s.tasks[s.curr].policy == Rr {
        RrEndPlace(s);
      } else {
        SliceEndPlace(s);
      }
    }
  }

  lemma EndIdleFlag(s: Sched)
    requires s.curr in s.tasks
    ensures SliceEnd(s).idleResched == s.idleResched && RrSliceEnd(s).idleResched == s.idleResched
  {
    hide Enqueue, Refilled, Home, Interactive, ExpiredStarving, TaskTimeslice;
    var p := s.curr;
    var t := s.tasks[p];
    var t2 := Refilled(t.(sleepAvg := TickedSleepAvg(t))).(needResched := true);
    var s1 := Upd(Unlink(s, p, Home(t, s.active)), p, t2);
    var s2 := if s.expiredStamp == 0 then s1.(expiredStamp := s.jiffies) else s1;
    EnqueueClock(s2, p, Expired(s));
    EnqueueClock(s1, p, Home(t2, s.active));
    var t1 := t.(timeSlice := TaskTimeslice(t), firstTimeSlice := false, needResched := true);
    EnqueueClock(Unlink(Upd(s, p, t1), p, Home(t, s.active)), p, Home(t, s.active));
  }

  lemma ForkAsks(s: Sched, child: Id)
    requires Inv(s) && Enabled(s, Clone(child))
    ensures var s' := Step(s, Clone(child));
            && OnlyCurrFlag(s, s') && (Asked(s') <==> Asked(s) || Asks(s, Clone(child)))
            && child in s'.tasks && s'.tasks[child].needResched == s.tasks[s.curr].needResched
  {
    hide Inv, OnlyCurrFlag, Asked, NewChild, ShortForked, ForkParent, Activate;
    ForkIs(s, child);
    if ShortTask(s.tasks[s.curr]) && s.tasks[s.curr].timeSlice >= 2 {
      ShortForkShape(s, child);
      ShortForkFlags(s, child);
    } else {
      SliceOfMember(s, s.curr);
      PlainForkFlags(s, child);
    }
  }

  lemma ShortForkFlags(s: Sched, child: Id)
    requires s.curr in s.tasks && child !in s.tasks
    ensures var s' := ShortForked(s, child);
            && OnlyCurrFlag(s, s') && Asked(s')
            && child in s'.tasks && s'.tasks[child].needResched == s.tasks[s.curr].needResched
  {
    hide NewChild;
    NewChildFlag(s);
  }

  lemma NewChildFlag(s: Sched)
    requires s.curr in s.tasks
    ensures NewChild(s).needResched == s.tasks[s.curr].needResched
  {
  }

  lemma PlainForkFlags(s: Sched, child: Id)
    requires Inv(s) && Enabled(s, Clone(child))
    requires !ShortTask(s.tasks[s.curr]) || s.tasks[s.curr].timeSlice == 1
    ensures var s' := Fork(s, child);
            && OnlyCurrFlag(s, s') && (Asked(s') <==> Asked(s) || !OverdueTask(s.tasks[s.curr]))
            && child in s'.tasks && s'.tasks[child].needResched == s.tasks[s.curr].needResched
  {
    hide ForkParent, NewChild, Activate, Inv, OnlyCurrFlag, ForkedParent;
    ForkParentKeeps(s);
    ForkParentKeys(s);
    NewChildOk(s);
    NewChildFlag(s);
    ForkParentFlags(s);
    var s0 := ForkParent(s);
    var s1 := Upd(s0, child, NewChild(s));
    var s2 := Activate(s1, child);
    ChildFlags(s0, child, NewChild(s));
    ReschedFlags(s2);
    FlagTrans(s, s0, s2);
    FlagTrans(s, s2, ReschedCurr(s2));
  }

  lemma ForkParentFlags(s: Sched)
    requires Inv(s) && s.curr in s.tasks
    requires !ShortTask(s.tasks[s.curr]) || s.tasks[s.curr].timeSlice == 1
    ensures var s0 := ForkParent(s);
            && OnlyCurrFlag(s, s0) && s0.tasks.Keys == s.tasks.Keys
            && (Asked(s) ==> Asked(s0))
            && (OverdueTask(s.tasks[s.curr]) ==> s0 == s)
            && (!OverdueTask(s.tasks[s.curr]) && OverdueTask(s0.tasks[s.curr]) ==> Asked(s0))
  {
    hide SchedulerTick, Queued, NoFork;
    var t := s.tasks[s.curr];
    assert TaskOk(t, s.jiffies);
    var par := SplitSlice(t).0;
    if par.timeSlice == 0 {
      var par1 := par.(justGotForked := false, timeSlice := 1);
      UpdKeeps(s, s.curr, par1);
      TickFlag(Upd(s, s.curr, par1));
      ForkParentCores(s);
    }
  }

  lemma ChildFlags(s: Sched, child: Id, c: Task)
    requires Inv(s) && child !in s.tasks && 0 < child < PID_MAX
    requires TaskOk(c, s.jiffies) && c.onArr == None && !c.justGotForked
    ensures var s2 := Activate(Upd(s, child, c), child);
            && OnlyCurrFlag(s, s2) && (Asked(s2) <==> Asked(s)) && s.tasks.Keys <= s2.tasks.Keys
            && (s.curr in s.tasks ==> s2.tasks[s.curr] == s.tasks[s.curr]) && s2.curr == s.curr
            && child in s2.tasks && s2.tasks[child].needResched == c.needResched
  {
    hide Activate, Queued, WithSleepBonus, Home, MovedToTail;
    BonusFlag(c, s.jiffies);
    ChildRecordKeeps(s, child, c);
    ActivatedRows(Upd(s, child, c), child);
  }

  lemma ReapAsks(s: Sched, child: Id)
    requires Inv(s) && Enabled(s, Exit(child))
    ensures var s' := Step(s, Exit(child)); OnlyCurrFlag(s, s') && (Asked(s') <==> Asked(s))
  {
    hide Reap, AfterReap, Inv;
    ReapCores(s, child);
    ReapScalars(s, child);
    ReapedFlag(s.tasks[s.curr], s.tasks[child]);
  }

  lemma ReapScalars(s: Sched, child: Id)
    requires Enabled(s, Exit(child))
    ensures Reap(s, child).curr == s.curr && Reap(s, child).idleResched == s.idleResched
  {
  }

  lemma ReapedFlag(t: Task, c: Task)
    ensures AfterReap(t, c).needResched == t.needResched
  {
  }

  lemma NiceAsks(s: Sched, p: Id, nice: int)
    requires Inv(s) && p in s.tasks
    ensures var s' := Step(s, Renice(p, nice));
            OnlyCurrFlag(s, s') && (Asked(s') <==> Asked(s) || Asks(s, Renice(p, nice)))
  {
    hide Inv, OnlyCurrFlag, Asked, Step, SetUserNice, Enqueue, Unlink, ReschedCurr, MovedToTail;
    var t := s.tasks[p];
    FlagRefl(s);
    NobodyForked(s, p);
    if p == s.curr {
      CurrQueued(s);
    }
    NiceIs(s, p, nice);
    if Renices(t, nice) && t.onArr.Some? {
      var t1 := t.(staticPrio := NiceToPrio(nice), prio := NiceToPrio(nice));
      var s1 := Enqueue(Upd(Unlink(s, p, t.onArr.value), p, t1), p, t.onArr.value);
      RelinkedFlags(s, p, t1, t.onArr.value);
      ReschedFlags(s1);
      FlagTrans(s, s1, ReschedCurr(s1));
    } else {
      RecordFlags(s, p, Step(s, Renice(p, nice)).tasks[p]);
    }
  }

  lemma NiceIs(s: Sched, p: Id, nice: int)
    requires p in s.tasks
    ensures var t, s' := s.tasks[p], Step(s, Renice(p, nice));
            if Renices(t, nice) && t.onArr.Some? then
              var t1 := t.(staticPrio := NiceToPrio(nice), prio := NiceToPrio(nice));
              var s1 := Enqueue(Upd(Unlink(s, p, t.onArr.value), p, t1), p, t.onArr.value);
              s' == if p == s.curr then ReschedCurr(s1) else s1
            else
              p in s'.tasks && s'.tasks[p].needResched == t.needResched && s' == Upd(s, p, s'.tasks[p])
  {
    hide Enqueue, Unlink, ReschedCurr;
  }

  lemma RelinkedFlags(s: Sched, p: Id, t: Task, a: Arr)
    requires Inv(s) && p in s.tasks && s.tasks[p].onArr.Some? && !t.justGotForked && t.needResched == s.tasks[p].needResched
    ensures var s' := Enqueue(Upd(Unlink(s, p, s.tasks[p].onArr.value), p, t), p, a);
            OnlyCurrFlag(s, s') && (Asked(s') <==> Asked(s)) && s'.tasks.Keys == s.tasks.Keys && s'.curr == s.curr
  {
    hide Enqueue, Queued, NoFork, TasksOk, MovedToTail;
    RelinkedRows(s, p, t, a);
    EnqueueClock(Upd(Unlink(s, p, s.tasks[p].onArr.value), p, t), p, a);
  }

  lemma PolicyAsks(s: Sched, r: Request)
    requires Inv(s) && Enabled(s, SetPolicy(r))
    ensures var s' := Step(s, SetPolicy(r));
            OnlyCurrFlag(s, s') && (Asked(s') <==> Asked(s) || Asks(s, SetPolicy(r)))
  {
    hide Inv, OnlyCurrFlag, Asked, Requeue, Judge, ReschedCurr;
    var p := Target(s, r);
    FlagRefl(s);
    if Reaches(s, r, p) {
      var t := s.tasks[p];
      JudgedFlags(t, r);
      if !Judge(t, r).Refuse? {
        var t1 := JudgedTask(t, r);
        var s1 := if Judge(t, r).ChangeShort? then Upd(s, p, t1) else Requeue(s, p, t1);
        RecordFlags(s, p, t1);
        if !Judge(t, r).ChangeShort? {
          NobodyForked(s, p);
          RequeuedFlags(s, p, t1);
        }
        ReschedFlags(s1);
        FlagTrans(s, s1, ReschedCurr(s1));
        AfterFlag(s1, p);
      }
    }
  }

  lemma FlagRefl(s: Sched)
    ensures OnlyCurrFlag(s, s)
  {
  }

  lemma AfterFlag(s: Sched, p: Id)
    requires p in s.tasks
    ensures ReschedCurr(s).tasks.Keys == s.tasks.Keys && ReschedCurr(s).tasks[p].policy == s.tasks[p].policy
  {
  }

  lemma RecordFlags(s: Sched, p: Id, t: Task)
    requires p in s.tasks && t.needResched == s.tasks[p].needResched
    ensures var s' := Upd(s, p, t);
            && OnlyCurrFlag(s, s') && (Asked(s') <==> Asked(s))
            && s'.tasks.Keys == s.tasks.Keys && s'.tasks[p].policy == t.policy
  {
  }

  lemma RequeuedFlags(s: Sched, p: Id, t: Task)
    requires Inv(s) && p in s.tasks && !t.justGotForked
    requires t.onArr == s.tasks[p].onArr && t.needResched == s.tasks[p].needResched
    ensures var s' := Requeue(s, p, t);
            && OnlyCurrFlag(s, s') && (Asked(s') <==> Asked(s))
            && s'.tasks.Keys == s.tasks.Keys && s'.tasks[p].policy == t.policy
  {
    hide Requeue, WithSleepBonus, Home, MovedToTail, SameRows, Inv;
    RequeuedRows(s, p, t);
    BonusFlag(t.(onArr := None), s.jiffies);
    BonusPolicy(t.(onArr := None), s.jiffies);
    RequeuedIdle(s, p, t);
  }

  lemma BonusPolicy(t: Task, jiffies: int)
    ensures WithSleepBonus(t, jiffies).policy == t.policy
  {
  }

  lemma RequeuedIdle(s: Sched, p: Id, t: Task)
    requires p in s.tasks
    ensures Requeue(s, p, t).idleResched == s.idleResched
  {
    hide WithSleepBonus, Enqueue, Home;
    if s.tasks[p].onArr.Some? {
      var s1 := Upd(Deactivate(s, p), p, t.(onArr := None));
      var t1 := WithSleepBonus(s1.tasks[p], s1.jiffies);
      EnqueueClock(Upd(s1, p, t1), p, Home(s1.tasks[p], s1.active));
    }
  }

  lemma JudgedFlags(t: Task, r: Request)
    ensures var j, t1 := Judge(t, r), JudgedTask(t, r);
            && (j.Refuse? ==> j.errno != 0)
            && t1.needResched == t.needResched && t1.justGotForked == t.justGotForked && t1.onArr == t.onArr
            && (j.ChangeShort? || j.MakeShort? ==> t1.policy == Short) && (j.Reclass? ==> t1.policy != Short)
  {
    hide MsToJiffies, ShortChangeAccepted, ShortChanged;
    ShortChangedFlags(t, r.requestedMs);
  }

  lemma ShortChangedFlags(t: Task, ms: int)
    ensures var t1 := ShortChanged(t, ms);
            && t1.needResched == t.needResched && t1.justGotForked == t.justGotForked
            && t1.onArr == t.onArr && t1.policy == t.policy
  {
  }

  /** Over all events but schedule itself: a step asks the task on the processor to reschedule exactly in
      the cases above, withdraws no such request, and touches no other task's flag. */
  lemma StepAsks(s: Sched, e: Event)
    requires Inv(s) && Enabled(s, e) && !e.Resched? && !e.YieldCpu?
    ensures OnlyCurrFlag(s, Step(s, e)) && (Asked(Step(s, e)) <==> Asked(s) || Asks(s, e))
  {
    match e
    case Tick => TickAsks(s);
    case SetState(state) => StateFlags(s, s.curr, state);
    case Wake(p) => WakeAsks(s, p);
    case Clone(c) => ForkAsks(s, c);
    case Exit(c) => ReapAsks(s, c);
    case Renice(p, nice) => NiceAsks(s, p, nice);
    case SetPolicy(r) => PolicyAsks(s, r);
    hide *;
  }

  /** schedule answers the request of the task it takes the processor from, and leaves all others. */
  lemma PassAnswers(s: Sched, signal: bool)
    requires Inv(s)
    ensures var s' := Step(s, Resched(signal));
            && (forall x :: x in s.tasks ==>
                  x in s'.tasks && (s'.tasks[x].needResched <==> x != s.curr && s.tasks[x].needResched))
            && s'.idleResched == (s.idleResched && s.curr in s.tasks)
  {
    hide PickNext, PutPrev, Inv;
    PutPrevFlags(s, signal);
    PickNextTasks(PutPrev(s, signal));
    PickFrame(PutPrev(s, signal));
  }

  // ---------------------------------------------------------------- the test against the order

  /** The test of a wake-up compares priorities without asking for the class.  It is right, that is, asks
      for schedule exactly if the woken task comes before the one on the processor, unless the class
      decides the other way: a better array with a priority that is no better is not noticed, and a
      worse array with a better priority asks in vain. */
  lemma WakeTestIsOrder(s: Sched, p: Id)
    requires Inv(s) && p in s.tasks && s.tasks[p].onArr == None && s.curr in s.tasks && !Asked(s)
    ensures var s' := Step(s, Wake(p));
            && IsQueued(s', p) && IsQueued(s', s.curr)
            && var t, c := s'.tasks[p], s.tasks[s.curr];
               var mine, its := Rank(t.onArr.value, s.active), Rank(c.onArr.value, s.active);
               (Asked(s') <==> Before(s', p, s.curr))
               <==> !(mine < its && t.prio >= c.prio) && !(its < mine && t.prio < c.prio)
  {
    hide Step, Home, Asked, OnlyCurrFlag, Queued, TasksOk, NoFork, Ahead, Row;
    var s' := Step(s, Wake(p));
    CurrQueued(s);
    WakeAsks(s, p);
    WakePlaces(s, p);
    WakeLeaves(s, p);
    var t := s'.tasks[p];
    NobodyBehind(s, s', p, t.onArr.value, t.prio);
    RankInjective(s.active, t.onArr.value, s.tasks[s.curr].onArr.value);
  }

  lemma RankInjective(active: Arr, a: Arr, b: Arr)
    ensures Rank(a, active) == Rank(b, active) ==> a == b || (a != active && b != active)
  {
  }

  lemma WakeLeaves(s: Sched, p: Id)
    requires Inv(s) && p in s.tasks && s.curr in s.tasks && p != s.curr
    ensures s.curr in Step(s, Wake(p)).tasks
    ensures var c, c' := s.tasks[s.curr], Step(s, Wake(p)).tasks[s.curr]; c'.onArr == c.onArr && c'.prio == c.prio
  {
    hide Activate, Inv;
    if s.tasks[p].onArr == None {
      ActivateFlags(s, p);
    }
  }

  lemma NobodyBehind(s: Sched, s': Sched, p: Id, a: Arr, k: int)
    requires Queued(s.rows, s.tasks, IDLE) && p in s.tasks && MovedToTail(s, s', p, a, k)
    ensures forall x :: x != p ==> !Ahead(Row(s', a, k), p, x)
  {
    var r := Row(s, a, k);
    RowOnce(s, a, k);
    WithoutElements(r, p);
  }
}
