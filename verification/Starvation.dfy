/** The stamp of the expired array: over every run it is set while anything waits there, and never put
    off; so the bound on the array switch holds whenever a task has expired. */
module Starvation {
  import opened Params
  import opened Rows
  import opened SchedModel
  import opened SchedInvariant
  import opened SchedSteps
  import opened SchedFrames
  import opened ForkYield
  import opened Places
  import opened ArraySwitch

  ghost predicate NothingExpired(s: Sched) {
    forall k :: Row(s, Expired(s), k) == []
  }

  /** While the expired array holds a task its stamp is set. */
  ghost predicate Stamped(s: Sched) {
    s.expiredStamp == 0 ==> NothingExpired(s)
  }

  /** The stamp is taken over, or withdrawn, or set to the present where there was none. */
  ghost predicate StampMoves(s: Sched, s': Sched) {
    s'.expiredStamp == s.expiredStamp || s'.expiredStamp == 0 || (s.expiredStamp == 0 && s'.expiredStamp == s'.jiffies)
  }

  /** Nothing new in the expired array, and the same stamp. */
  lemma NoArrivals(s: Sched, s': Sched)
    requires Stamped(s) && s'.active == s.active && s'.expiredStamp == s.expiredStamp
    requires forall k :: Row(s, Expired(s), k) == [] ==> Row(s', Expired(s), k) == []
    ensures Stamped(s')
  {
    assert Expired(s') == Expired(s);
    if s.expiredStamp == 0 {
      forall k
        ensures Row(s', Expired(s'), k) == []
      {
        assert Row(s, Expired(s), k) == [];
      }
    }
  }

  lemma SameStays(s: Sched, s': Sched)
    requires Stamped(s) && SameRows(s, s') && s'.active == s.active && s'.expiredStamp == s.expiredStamp
    ensures Stamped(s')
  {
    NoArrivals(s, s');
  }

  lemma OffStays(s: Sched, s': Sched, p: Id)
    requires Stamped(s) && TakenOff(s, s', p) && s'.active == s.active && s'.expiredStamp == s.expiredStamp
    ensures Stamped(s')
  {
    NoArrivals(s, s');
  }

  /** A task that arrives there finds others. */
  lemma TailStays(s: Sched, s': Sched, p: Id, b: Arr, j: int)
    requires Stamped(s) && MovedToTail(s, s', p, b, j) && s'.active == s.active && s'.expiredStamp == s.expiredStamp
    requires b == Expired(s) ==> s.expiredStamp != 0
    ensures Stamped(s')
  {
    if b != Expired(s) {
      NoArrivals(s, s');
    }
  }

  // ---------------------------------------------------------------- tick and schedule

  lemma EndStamp(s: Sched)
    requires Inv(s) && s.curr in s.tasks && Stamped(s)
    ensures Stamped(SchedulerTick(s)) && StampMoves(s, SchedulerTick(s))
    ensures SchedulerTick(s).jiffies == s.jiffies && SchedulerTick(s).active == s.active
  {
    hide SliceEnd, RrSliceEnd, Queued, NoFork, MovedToTail, EndRecord, WaitedTooLong;
    var t := s.tasks[s.curr];
    var s' := SchedulerTick(s);
    assert TaskOk(t, s.jiffies);
    TickClock(s);
    if !SliceEnds(s) {
      SameStays(s, s');
    } else {
      if t.policy == Rr {
        RrEndPlace(s);
        TailStays(s, s', s.curr, RtShort, t.prio);
      } else {
        SliceEndPlace(s);
        if s'.tasks[s.curr].onArr != Some(Expired(s)) {
          TailStays(s, s', s.curr, s'.tasks[s.curr].onArr.value, s'.tasks[s.curr].prio);
        }
      }
    }
  }

  lemma PassStamp(s: Sched, signal: bool)
    requires Inv(s) && Stamped(s)
    ensures Stamped(Schedule(s, signal)) && StampMoves(s, Schedule(s, signal))
  {
    hide PickNext, PutPrev, Inv, InvNoCurr, Stamped;
    PutPrevKeeps(s, signal);
    PutPrevStamp(s, signal);
    PickStamp(PutPrev(s, signal));
    SwitchStamp(PickNext(PutPrev(s, signal)).0, PickNext(PutPrev(s, signal)).1);
  }

  lemma SwitchStamp(s: Sched, next: Id)
    requires Stamped(s)
    ensures Stamped(SwitchTo(s, next)) && SwitchTo(s, next).expiredStamp == s.expiredStamp
  {
    SameStays(s, SwitchTo(s, next));
  }

  lemma PutPrevStamp(s: Sched, signal: bool)
    requires Inv(s) && Stamped(s)
    ensures var s1 := PutPrev(s, signal); Stamped(s1) && s1.expiredStamp == s.expiredStamp
  {
    hide Queued, NoFork, TasksOk, Stamped, TakenOff, SameRows;
    PutPrevRows(s, signal);
    if Leaves(s, signal) {
      OffStays(s, PutPrev(s, signal), s.curr);
    } else {
      SameStays(s, PutPrev(s, signal));
    }
  }

  lemma PickStamp(s: Sched)
    requires InvNoCurr(s) && Stamped(s)
    ensures var s' := PickNext(s).0; Stamped(s') && (s'.expiredStamp == s.expiredStamp || s'.expiredStamp == 0)
  {
    hide Queued, NoFork, TasksOk, FindRow, NothingExpired;
    RowsInRange(s);
    PickFrame(s);
    FindRowEmpty(s, s.active);
    FindRowEmpty(s, Expired(s));
    EmptyIsNothing(s, PickNext(s).0);
  }

  lemma EmptyIsNothing(s: Sched, s': Sched)
    requires s'.rows == s.rows && (s'.active == s.active || s'.active == Expired(s)) && (s.active == A0 || s.active == A1)
    ensures s'.active == s.active ==> (NothingExpired(s') <==> NothingExpired(s))
    ensures (forall k :: Row(s, s.active, k) == []) && s'.active == Expired(s) ==> NothingExpired(s')
    ensures (forall k :: Row(s, Expired(s), k) == []) && s'.active == s.active ==> NothingExpired(s')
  {
    assert SameRows(s, s');
    if s'.active == Expired(s) {
      assert Expired(s') == s.active;
    } else {
      assert Expired(s') == Expired(s);
    }
  }

  lemma FindRowEmpty(s: Sched, a: Arr)
    requires forall k :: k < 0 || k >= MAX_PRIO ==> Row(s, a, k) == []
    ensures FindRow(s, a, 0) == MAX_PRIO ==> forall k :: Row(s, a, k) == []
  {
  }

  lemma RowsInRange(s: Sched)
    requires InvNoCurr(s)
    ensures forall a, k :: k < 0 || k >= MAX_PRIO ==> Row(s, a, k) == []
  {
    assert forall c :: c in s.rows ==> 0 <= c.prio < MAX_PRIO;
  }

  // ---------------------------------------------------------------- the other steps

  lemma TickStamp(s: Sched)
    requires Inv(s) && Stamped(s)
    ensures Stamped(Step(s, Tick)) && StampMoves(s, Step(s, Tick))
  {
    hide SchedulerTick, Inv;
    var s0 := s.(jiffies := s.jiffies + 1);
    ClockAdvances(s);
    SameStays(s, s0);
    if s.curr in s.tasks {
      EndStamp(s0);
    } else {
      TickIdle(s);
    }
  }

  lemma WakeStamp(s: Sched, p: Id)
    requires Inv(s) && Stamped(s) && p in s.tasks
    ensures Stamped(Step(s, Wake(p))) && Step(s, Wake(p)).expiredStamp == s.expiredStamp
  {
    hide Inv, Step, Stamped, MovedToTail, SameRows;
    var s' := Step(s, Wake(p));
    WakePlaces(s, p);
    WakeScalars(s, p);
    if s.tasks[p].onArr == None {
      HomeNotExpired(s, s.tasks[p]);
      TailStays(s, s', p, Home(s.tasks[p], s.active), s'.tasks[p].prio);
    } else {
      SameStays(s, s');
    }
  }

  lemma HomeNotExpired(s: Sched, t: Task)
    requires Inv(s)
    ensures Home(t, s.active) != Expired(s)
  {
  }

  lemma WakeScalars(s: Sched, p: Id)
    requires Inv(s) && p in s.tasks
    ensures Step(s, Wake(p)).expiredStamp == s.expiredStamp
  {
    hide Activate, Queued, MovedToTail;
    if s.tasks[p].onArr == None {
      OffQueueIsHole(s.rows, s.tasks, p);
      ActivatedRows(s, p);
    }
  }

  lemma ForkStamp(s: Sched, child: Id)
    requires Inv(s) && Stamped(s) && Enabled(s, Clone(child))
    ensures Stamped(Step(s, Clone(child))) && StampMoves(s, Step(s, Clone(child)))
  {
    hide Inv, Stamped, ForkParent, ShortForked, NewChild, Activate, MovedToTail, SameRows;
    ForkIs(s, child);
    if ShortTask(s.tasks[s.curr]) && s.tasks[s.curr].timeSlice >= 2 {
      ShortForkShape(s, child);
      ShortForkStamp(s, child);
    } else {
      SliceOfMember(s, s.curr);
      ParentStamp(s);
      ChildStamp(s, child);
    }
  }

  lemma ShortForkStamp(s: Sched, child: Id)
    requires Inv(s) && Stamped(s) && Enabled(s, Clone(child))
    requires ShortTask(s.tasks[s.curr]) && s.tasks[s.curr].timeSlice >= 2
    ensures Stamped(ShortForked(s, child)) && ShortForked(s, child).expiredStamp == s.expiredStamp
  {
    hide Queued, NoFork, NewChild, Stamped;
    ShortForkedRows(s, child);
    NoArrivals(s, ShortForked(s, child));
  }

  lemma ParentStamp(s: Sched)
    requires Inv(s) && Stamped(s) && s.curr in s.tasks
    requires !ShortTask(s.tasks[s.curr]) || s.tasks[s.curr].timeSlice == 1
    ensures var s0 := ForkParent(s);
            Inv(s0) && Stamped(s0) && StampMoves(s, s0) && s0.jiffies == s.jiffies && s0.active == s.active
  {
    hide SchedulerTick, Queued, NoFork, Stamped;
    ForkParentKeeps(s);
    var t := s.tasks[s.curr];
    assert TaskOk(t, s.jiffies);
    var par := SplitSlice(t).0;
    if par.timeSlice == 0 {
      var par1 := par.(justGotForked := false, timeSlice := 1);
      UpdKeeps(s, s.curr, par1);
      SameStays(s, Upd(s, s.curr, par1));
      EndStamp(Upd(s, s.curr, par1));
    } else {
      SameStays(s, Upd(s, s.curr, par));
    }
  }

  lemma ChildStamp(s: Sched, child: Id)
    requires Inv(s) && Enabled(s, Clone(child)) && Stamped(ForkParent(s))
    requires !ShortTask(s.tasks[s.curr]) || s.tasks[s.curr].timeSlice == 1
    ensures var s0, s' := ForkParent(s), Fork(s, child);
            Stamped(s') && s'.expiredStamp == s0.expiredStamp && s'.jiffies == s0.jiffies
  {
    hide ForkParent, NewChild, Activate, Inv, Stamped, MovedToTail, WithSleepBonus;
    ForkParentKeeps(s);
    ForkParentKeys(s);
    NewChildOk(s);
    var s0 := ForkParent(s);
    var c := NewChild(s);
    var s1 := Upd(s0, child, c);
    ChildRecordKeeps(s0, child, c);
    ActivatedRows(s1, child);
    var s2 := Activate(s1, child);
    HomeNotExpired(s0, c);
    SameRowsMove(s0, s1, s2, child, Home(c, s1.active), s2.tasks[child].prio);
    TailStays(s0, s2, child, Home(c, s1.active), s2.tasks[child].prio);
    FlagSameRows(s2);
    SameStays(s2, ReschedCurr(s2));
  }

  lemma NiceStamp(s: Sched, p: Id, nice: int)
    requires Inv(s) && Stamped(s) && p in s.tasks
    ensures Stamped(Step(s, Renice(p, nice))) && Step(s, Renice(p, nice)).expiredStamp == s.expiredStamp
  {
    hide Inv, Step, Stamped, MovedToTail, SameRows, Renices;
    var s' := Step(s, Renice(p, nice));
    NicePlaces(s, p, nice);
    NiceScalars(s, p, nice);
    if Renices(s.tasks[p], nice) && s.tasks[p].onArr.Some? {
      if s.tasks[p].onArr == Some(Expired(s)) {
        QueuedThere(s, p);
      }
      TailStays(s, s', p, s.tasks[p].onArr.value, NiceToPrio(nice));
    } else {
      SameStays(s, s');
    }
  }

  lemma QueuedThere(s: Sched, p: Id)
    requires Inv(s) && Stamped(s) && p in s.tasks && s.tasks[p].onArr == Some(Expired(s))
    ensures s.expiredStamp != 0
  {
    RowElements(s, Expired(s), s.tasks[p].prio);
    assert p in Row(s, Expired(s), s.tasks[p].prio);
  }

  lemma NiceScalars(s: Sched, p: Id, nice: int)
    requires p in s.tasks
    ensures Step(s, Renice(p, nice)).expiredStamp == s.expiredStamp
  {
    hide Enqueue;
    var t := s.tasks[p];
    if t.onArr.Some? {
      var t1 := t.(staticPrio := NiceToPrio(nice), prio := NiceToPrio(nice));
      EnqueueClock(Upd(Unlink(s, p, t.onArr.value), p, t1), p, t.onArr.value);
    }
  }

  lemma PolicyStamp(s: Sched, r: Request)
    requires Inv(s) && Stamped(s) && Enabled(s, SetPolicy(r))
    ensures Stamped(Step(s, SetPolicy(r))) && Step(s, SetPolicy(r)).expiredStamp == s.expiredStamp
  {
    hide Inv, Step, Stamped, MovedToTail, SameRows, SetScheduler;
    var s', p := Step(s, SetPolicy(r)), Target(s, r);
    PolicyPlaces(s, r);
    PolicyScalars(s, r);
    if Reclasses(s, r) && s.tasks[p].onArr.Some? {
      ArraysDiffer(s);
      TailStays(s, s', p, s'.tasks[p].onArr.value, s'.tasks[p].prio);
    } else {
      SameStays(s, s');
    }
  }

  lemma ArraysDiffer(s: Sched)
    requires Inv(s)
    ensures Expired(s) != s.active && Expired(s) != RtShort && Expired(s) != Overdue
  {
  }

  lemma PolicyScalars(s: Sched, r: Request)
    requires Inv(s) && Enabled(s, SetPolicy(r))
    ensures Step(s, SetPolicy(r)).expiredStamp == s.expiredStamp
  {
    hide Judge, Requeue, Inv, MovedToTail, SameRows, WithSleepBonus, Home;
    var p := Target(s, r);
    if Reaches(s, r, p) {
      JudgeKinds(s.tasks[p], r);
      NobodyForked(s, p);
      if Judge(s.tasks[p], r).MakeShort? || Judge(s.tasks[p], r).Reclass? {
        RequeuedRows(s, p, JudgedTask(s.tasks[p], r));
      }
    }
  }

  lemma YieldStamp(s: Sched)
    requires Inv(s) && Stamped(s) && s.curr in s.tasks && s.tasks[s.curr].onArr.Some?
    ensures Stamped(YieldQueue(s)) && YieldQueue(s).expiredStamp == s.expiredStamp && YieldQueue(s).jiffies == s.jiffies
    ensures Inv(YieldQueue(s))
  {
    hide Inv, Stamped, Without;
    var s' := YieldQueue(s);
    YieldQueueKeeps(s);
    CurrQueued(s);
    YieldScalars(s);
    if s.tasks[s.curr].onArr == Some(Expired(s)) {
      QueuedThere(s, s.curr);
      StampSet(s');
    } else {
      YieldElsewhere(s);
      NoArrivals(s, s');
    }
  }

  lemma StampSet(s: Sched)
    requires s.expiredStamp != 0
    ensures Stamped(s)
  {
  }

  lemma YieldScalars(s: Sched)
    requires s.curr in s.tasks && s.tasks[s.curr].onArr.Some?
    ensures var s' := YieldQueue(s); s'.expiredStamp == s.expiredStamp && s'.jiffies == s.jiffies && s'.active == s.active
  {
    hide YieldRow, Without;
  }

  lemma YieldElsewhere(s: Sched)
    requires s.curr in s.tasks && s.tasks[s.curr].onArr.Some? && s.tasks[s.curr].onArr != Some(Expired(s))
    ensures forall k :: Row(YieldQueue(s), Expired(s), k) == Row(s, Expired(s), k)
  {
    hide YieldRow, Without;
  }

  // ---------------------------------------------------------------- all steps and runs

  /** Every step keeps the stamp set while a task waits in the expired array, and none puts it off. */
  lemma StepStamped(s: Sched, e: Event)
    requires Inv(s) && Stamped(s) && Enabled(s, e)
    ensures Stamped(Step(s, e)) && StampMoves(s, Step(s, e))
  {
    hide SchedulerTick, Schedule, TryToWakeUp, Fork, YieldQueue, SetUserNice, SetScheduler, Inv, Stamped;
    match e
    case Tick => TickStamp(s);
    case Resched(signal) => PassStamp(s, signal);
    case YieldCpu(signal) =>
      YieldStamp(s);
      PassStamp(YieldQueue(s), signal);
    case Clone(c) => ForkStamp(s, c);
    case Exit(c) =>
      ReapPlaces(s, c);
      SameStays(s, Step(s, e));
    case SetState(state) => SameStays(s, Step(s, e));
    case Wake(p) => WakeStamp(s, p);
    case Renice(p, nice) => NiceStamp(s, p, nice);
    case SetPolicy(r) => PolicyStamp(s, r);
  }

  lemma {:induction false} RunStamped(s: Sched, es: seq<Event>)
    requires Inv(s) && Stamped(s) && Possible(s, es)
    ensures Stamped(SchedModel.Run(s, es))
    decreases |es|
  {
    hide Step, Inv, Stamped;
    if es != [] {
      StepStamped(s, es[0]);
      StepKeeps(s, es[0]);
      RunStamped(Step(s, es[0]), es[1..]);
    }
  }

  lemma BootStamped(first: Id, jiffies: int)
    requires 0 < first < PID_MAX && jiffies >= 1
    ensures Stamped(Boot(first, jiffies)) && Inv(Boot(first, jiffies))
  {
    hide Inv, Activate, MovedToTail;
    BootKeeps(first, jiffies);
    BootRows(first, jiffies);
  }

  lemma BootRows(first: Id, jiffies: int)
    requires 0 < first < PID_MAX && jiffies >= 1
    ensures forall k :: Row(Boot(first, jiffies), A1, k) == []
    ensures Boot(first, jiffies).active == A0
  {
    hide WithSleepBonus;
    var b := Bare(first, jiffies);
    forall k
      ensures Row(b, A1, k) == []
    {
    }
    NoForkTail(Upd(b, first, WithSleepBonus(b.tasks[first], jiffies)), first, Home(b.tasks[first], A0)) by {
      BonusForks(b.tasks[first], jiffies);
    }
  }

  /** Nobody waits forever in the expired array: from any state of any run from boot in which all tasks are
      OTHER and runnable and one of them has expired, the arrays switch within eight seconds a task. */
  lemma ExpiredGetTheirTurn(first: Id, jiffies: int, es: seq<Event>, p: Id)
    requires 0 < first < PID_MAX && jiffies >= 1 && Possible(Boot(first, jiffies), es)
    requires var s := SchedModel.Run(Boot(first, jiffies), es);
             Closed(s) && p in s.tasks && s.tasks[p].onArr == Some(Expired(s))
    ensures var s := SchedModel.Run(Boot(first, jiffies), es);
            SwitchesWithin(s, SwitchLimit(NrRunning(s)))
  {
    hide Step, Boot, Stamped, SwitchesWithin, NrRunning, Inv;
    var s := SchedModel.Run(Boot(first, jiffies), es);
    BootStamped(first, jiffies);
    RunStamped(Boot(first, jiffies), es);
    RunKeeps(Boot(first, jiffies), es);
    QueuedThere(s, p);
    SwitchFromStart(s);
  }
}
