/** Where every step leaves the tasks in their rows: at most the one or two tasks a step is about move,
    and a task that moves goes to the tail of its new row, except at a yield and in a child-first fork. */
module Places {
  import opened Params
  import opened Rows
  import opened SchedModel
  import opened SchedInvariant
  import opened SchedSteps
  import opened SchedFrames

  ghost predicate SameRows(s: Sched, s': Sched) {
    forall a, k :: Row(s', a, k) == Row(s, a, k)
  }

  ghost predicate TakenOff(s: Sched, s': Sched, p: Id) {
    forall a, k :: Row(s', a, k) == Without(Row(s, a, k), p)
  }

  /** `p` leaves its row, if it was in one, for the tail of row `j` of `b`; all else stays. */
  ghost predicate MovedToTail(s: Sched, s': Sched, p: Id, b: Arr, j: int) {
    forall a, k :: Row(s', a, k) == Without(Row(s, a, k), p) + if a == b && k == j then [p] else []
  }

  lemma UnlinkedRows(s: Sched, p: Id, b: Arr)
    requires Queued(s.rows, s.tasks, IDLE) && p in s.tasks && s.tasks[p].onArr == Some(b)
    ensures TakenOff(s, Unlink(s, p, b), p)
  {
    forall a, k
      ensures Row(Unlink(s, p, b), a, k) == Without(Row(s, a, k), p)
    {
      if a != b || k != s.tasks[p].prio {
        WithoutAbsent(Row(s, a, k), p);
      }
    }
  }

  lemma AbsentRows(s: Sched, p: Id)
    requires Queued(s.rows, s.tasks, p)
    ensures TakenOff(s, s, p)
  {
    forall a, k
      ensures Row(s, a, k) == Without(Row(s, a, k), p)
    {
      WithoutAbsent(Row(s, a, k), p);
    }
  }

  lemma AddedRows(s: Sched, s1: Sched, p: Id, b: Arr)
    requires TakenOff(s, s1, p) && p in s1.tasks
    ensures MovedToTail(s, AddTail(s1, p, b), p, b, s1.tasks[p].prio)
  {
  }

  lemma NoForkTail(s: Sched, p: Id, a: Arr)
    requires p in s.tasks && NoFork(s.tasks)
    ensures Enqueue(s, p, a) == AddTail(s, p, a)
  {
  }

  /** Dequeue, new record, enqueue. */
  lemma RelinkedRows(s: Sched, p: Id, t: Task, b: Arr)
    requires Queued(s.rows, s.tasks, IDLE) && NoFork(s.tasks) && p in s.tasks && s.tasks[p].onArr.Some? && !t.justGotForked
    ensures var s1 := Upd(Unlink(s, p, s.tasks[p].onArr.value), p, t);
            var s' := Enqueue(s1, p, b);
            && MovedToTail(s, s', p, b, t.prio)
            && s'.tasks == s.tasks[p := t.(onArr := Some(b))]
            && s' == s.(rows := s'.rows, tasks := s'.tasks)
  {
    hide Queued;
    var a := s.tasks[p].onArr.value;
    var s1 := Upd(Unlink(s, p, a), p, t);
    UnlinkedRows(s, p, a);
    NoForkTail(s1, p, b);
    AddedRows(s, s1, p, b);
  }

  lemma SameRowsMove(s: Sched, s1: Sched, s': Sched, p: Id, b: Arr, j: int)
    requires s1.rows == s.rows && MovedToTail(s1, s', p, b, j)
    ensures MovedToTail(s, s', p, b, j)
  {
    assert SameRows(s1, s);
  }

  lemma FlagSameRows(s: Sched)
    ensures SameRows(s, ReschedCurr(s))
  {
  }

  // ---------------------------------------------------------------- the record of a task that is queued

  /** The average of a task that is put on a queue: the time since it last called schedule is added, up to
      the cap.  Real-time tasks get nothing. */
  function Credited(t: Task, jiffies: int): int {
    if RtTask(t) then t.sleepAvg else Min(t.sleepAvg + (jiffies - t.sleepTimestamp), MAX_SLEEP_AVG)
  }

  lemma BonusIs(t: Task, jiffies: int)
    requires t.sleepAvg <= MAX_SLEEP_AVG
    ensures var t' := WithSleepBonus(t, jiffies);
            && t'.sleepAvg == Credited(t, jiffies) && t'.sleepTimestamp == t.sleepTimestamp
            && (RtTask(t) || jiffies == t.sleepTimestamp ==> t' == t)
            && (!RtTask(t) && jiffies != t.sleepTimestamp ==> t'.prio == EffectivePrio(t'))
  {
    hide EffectivePrio;
    var t1 := t.(sleepAvg := Min(t.sleepAvg + (jiffies - t.sleepTimestamp), MAX_SLEEP_AVG));
    SamePrio(t1, t1.(prio := EffectivePrio(t1)));
  }

  lemma SamePrio(t: Task, u: Task)
    requires t.policy == u.policy && t.iAmOverdue == u.iAmOverdue && t.staticPrio == u.staticPrio && t.sleepAvg == u.sleepAvg
    ensures EffectivePrio(t) == EffectivePrio(u)
  {
  }

  lemma EffectiveIgnoresPlace(t: Task, a: Arr)
    ensures EffectivePrio(t.(onArr := Some(a))) == EffectivePrio(t)
    ensures EffectivePrio(t.(onArr := Some(a), state := Running)) == EffectivePrio(t)
  {
  }

  // ---------------------------------------------------------------- tick

  /** The tick uses up the slice of the current task. */
  predicate SliceEnds(s: Sched)
    requires s.curr in s.tasks
  {
    var t := s.tasks[s.curr];
    t.timeSlice == 1 && t.policy != Fifo && t.onArr != Some(Expired(s))
  }

  /** The first of the expired tasks has waited longer than its share of the starvation limit. */
  predicate WaitedTooLong(s: Sched) {
    s.expiredStamp != 0 && s.jiffies - s.expiredStamp > STARVATION_LIMIT * NrRunning(s)
  }

  /** The array the current task is in after the tick that uses up its slice, `t` being its record then. */
  function NextArray(s: Sched, t: Task): Arr
    requires s.curr in s.tasks
  {
    if s.tasks[s.curr].policy == Rr then RtShort
    else if ShortTask(s.tasks[s.curr]) then Overdue
    else if Interactive(t) && !WaitedTooLong(s.(jiffies := s.jiffies + 1)) then s.active
    else Expired(s)
  }

  /** A task whose slice ends goes to the tail of a row: of its own row when round robin, of the overdue
      row when it was SHORT, and else of the active array if it is interactive and nobody waits too
      long, or of the expired one, where the first to come sets the stamp.  All other ticks leave rows
      and stamp alone. */
  lemma TickPlaces(s: Sched)
    requires Inv(s) && s.curr in s.tasks
    ensures var s' := Step(s, Tick);
            && s'.curr == s.curr && s'.active == s.active && s.curr in s'.tasks
            && (forall x :: x in s.tasks && x != s.curr ==> x in s'.tasks && s'.tasks[x] == s.tasks[x])
            && var t' := s'.tasks[s.curr];
            && s'.expiredStamp ==
               (if SliceEnds(s) && NextArray(s, t') == Expired(s) && s.expiredStamp == 0 then s'.jiffies else s.expiredStamp)
            &&
            if SliceEnds(s) then
              && MovedToTail(s, s', s.curr, NextArray(s, t'), t'.prio)
              && t'.onArr == Some(NextArray(s, t')) && t'.needResched
            else
              SameRows(s, s')
  {
    hide SliceEnd, RrSliceEnd, Queued, NoFork, NrRunning, Interactive, MovedToTail;
    var s0 := s.(jiffies := s.jiffies + 1);
    assert TaskOk(s.tasks[s.curr], s.jiffies);
    ClockAdvances(s);
    assert Expired(s0) == Expired(s);
    if SliceEnds(s) {
      if s.tasks[s.curr].policy == Rr {
        RrEndPlace(s0);
      } else {
        SliceEndPlace(s0);
      }
      SameRowsMove(s, s0, Step(s, Tick), s.curr, Step(s, Tick).tasks[s.curr].onArr.value, Step(s, Tick).tasks[s.curr].prio);
      NrSameRows(s, s0);
    }
  }

  lemma RrEndPlace(s: Sched)
    requires Inv(s) && s.curr in s.tasks && s.tasks[s.curr].policy == Rr
    ensures var s' := RrSliceEnd(s);
            && s'.curr == s.curr && s'.active == s.active && s'.jiffies == s.jiffies && s'.expiredStamp == s.expiredStamp
            && MovedToTail(s, s', s.curr, RtShort, s.tasks[s.curr].prio)
            && var t := s.tasks[s.curr];
               s'.tasks == s.tasks[s.curr := t.(timeSlice := TaskTimeslice(t), firstTimeSlice := false, needResched := true)]
  {
    hide TaskTimeslice, Queued, NoFork, MovedToTail, Enqueue;
    var p := s.curr;
    var t := s.tasks[p];
    var t1 := t.(timeSlice := TaskTimeslice(t), firstTimeSlice := false, needResched := true);
    assert TaskOk(t, s.jiffies);
    NobodyForked(s, p);
    RelinkedRows(s, p, t1, RtShort);
    assert Unlink(Upd(s, p, t1), p, RtShort) == Upd(Unlink(s, p, RtShort), p, t1);
    EnqueueClock(Upd(Unlink(s, p, RtShort), p, t1), p, RtShort);
  }

  lemma EnqueueClock(s: Sched, p: Id, a: Arr)
    requires p in s.tasks
    ensures var s' := Enqueue(s, p, a);
            s'.curr == s.curr && s'.active == s.active && s'.jiffies == s.jiffies && s'.expiredStamp == s.expiredStamp
            && s'.idleResched == s.idleResched
  {
  }

  /** The record of a task that is not real-time after the tick that uses up its slice. */
  lemma RefilledClass(t: Task)
    requires !RtTask(t)
    ensures var t' := Refilled(t);
            && (ShortTask(t) ==> OverdueTask(t') && t'.prio == OVERDUE_PRIO && t'.timeSlice == 2 * t.requestedTime)
            && (!ShortTask(t) && (t.policy == Other || t.policy == Short) && (t.policy == Other ==> !t.iAmOverdue) ==>
                  && t'.policy == Other && !t'.iAmOverdue && t'.timeSlice == TaskTimeslice(t')
                  && t'.staticPrio == if t.policy == Other then t.staticPrio else t.overdueStaticPrio)
            && t'.justGotForked == t.justGotForked && !t'.firstTimeSlice
            && t'.sleepAvg == t.sleepAvg && t'.sleepTimestamp == t.sleepTimestamp
  {
  }

  /** The record the current task has when its slice has ended and it is queued again. */
  function EndRecord(t: Task): Task {
    Refilled(t.(sleepAvg := TickedSleepAvg(t))).(needResched := true)
  }

  lemma SliceEndIs(s: Sched, t2: Task)
    requires s.curr in s.tasks && s.tasks[s.curr].onArr == Some(Home(s.tasks[s.curr], s.active))
    requires t2 == EndRecord(s.tasks[s.curr])
    ensures var p := s.curr;
            var s1 := Upd(Unlink(s, p, s.tasks[p].onArr.value), p, t2);
            var s2 := if s.expiredStamp == 0 then s1.(expiredStamp := s.jiffies) else s1;
            SliceEnd(s) == if t2.policy == Other && (!Interactive(t2) || ExpiredStarving(s)) then Enqueue(s2, p, Expired(s))
                           else Enqueue(s1, p, Home(t2, s.active))
  {
    hide Refilled, Enqueue, Interactive, ExpiredStarving;
  }

  lemma EndRecordClass(t: Task, jiffies: int)
    requires TaskOk(t, jiffies) && !RtTask(t) && !t.justGotForked
    ensures var t2 := EndRecord(t);
            && (if ShortTask(t) then OverdueTask(t2) else t2.policy == Other && !t2.iAmOverdue)
            && !RtTask(t2) && t2.needResched && !t2.justGotForked
  {
    hide Refilled;
    RefilledClass(t.(sleepAvg := TickedSleepAvg(t)));
    RefilledOk(t.(sleepAvg := TickedSleepAvg(t)), jiffies);
  }

  lemma StarvingIs(s: Sched)
    ensures ExpiredStarving(s) <==> WaitedTooLong(s)
  {
    hide NrRunning;
  }

  lemma SliceEndPlace(s: Sched)
    requires Inv(s) && s.curr in s.tasks && s.tasks[s.curr].policy != Rr && s.tasks[s.curr].policy != Fifo
    requires s.tasks[s.curr].onArr != Some(Expired(s))
    ensures var s' := SliceEnd(s);
            && s'.curr == s.curr && s'.active == s.active && s'.tasks.Keys == s.tasks.Keys
            && (forall x :: x in s.tasks && x != s.curr ==> s'.tasks[x] == s.tasks[x])
            && var t, t' := s.tasks[s.curr], s'.tasks[s.curr];
               var a := if ShortTask(t) then Overdue
                        else if Interactive(t') && !WaitedTooLong(s) then s.active else Expired(s);
            && MovedToTail(s, s', s.curr, a, t'.prio) && t' == EndRecord(t).(onArr := Some(a))
            && s'.jiffies == s.jiffies
            && s'.expiredStamp == (if a == Expired(s) && s.expiredStamp == 0 then s.jiffies else s.expiredStamp)
  {
    hide EndRecord, SliceEnd, Enqueue, Queued, NoFork, MovedToTail, WaitedTooLong, ExpiredStarving, Interactive, Unlink;
    var p := s.curr;
    assert TaskOk(s.tasks[p], s.jiffies);
    NobodyForked(s, p);
    var t2 := EndRecord(s.tasks[p]);
    EndRecordClass(s.tasks[p], s.jiffies);
    SliceEndIs(s, t2);
    StarvingIs(s);
    if t2.policy == Other && (!Interactive(t2) || ExpiredStarving(s)) {
      PlaceIgnored(t2, Expired(s));
      ExpiredMoved(s, p, t2);
    } else {
      PlaceIgnored(t2, Home(t2, s.active));
      RelinkedRows(s, p, t2, Home(t2, s.active));
    }
  }

  lemma PlaceIgnored(t: Task, a: Arr)
    ensures Interactive(t.(onArr := Some(a))) == Interactive(t)
  {
  }

  lemma ExpiredMoved(s: Sched, p: Id, t: Task)
    requires Queued(s.rows, s.tasks, IDLE) && NoFork(s.tasks) && p in s.tasks && s.tasks[p].onArr.Some? && !t.justGotForked
    ensures var s1 := Upd(Unlink(s, p, s.tasks[p].onArr.value), p, t);
            var s2 := if s.expiredStamp == 0 then s1.(expiredStamp := s.jiffies) else s1;
            && MovedToTail(s, Enqueue(s2, p, Expired(s)), p, Expired(s), t.prio)
            && var s' := Enqueue(s2, p, Expired(s));
            && s'.tasks == s.tasks[p := t.(onArr := Some(Expired(s)))]
            && s'.curr == s.curr && s'.active == s.active && s'.jiffies == s.jiffies
            && s'.expiredStamp == if s.expiredStamp == 0 then s.jiffies else s.expiredStamp
  {
    hide Queued;
    EnqueueClock(Upd(Unlink(s, p, s.tasks[p].onArr.value), p, t).(expiredStamp := s.jiffies), p, Expired(s));
    var s0 := if s.expiredStamp == 0 then s.(expiredStamp := s.jiffies) else s;
    RelinkedRows(s0, p, t, Expired(s));
    SameRowsMove(s, s0, Enqueue(Upd(Unlink(s0, p, s.tasks[p].onArr.value), p, t), p, Expired(s)), p, Expired(s), t.prio);
  }

  /** The others keep array and priority. */
  lemma TailLeaves(s: Sched, s': Sched, p: Id, b: Arr, j: int, x: Id)
    requires Inv(s) && Inv(s') && MovedToTail(s, s', p, b, j) && x != p && x in s.tasks && s.tasks[x].onArr.Some?
    ensures x in s'.tasks && s'.tasks[x].onArr == s.tasks[x].onArr && s'.tasks[x].prio == s.tasks[x].prio
  {
    var a, k := s.tasks[x].onArr.value, s.tasks[x].prio;
    RowElements(s, a, k);
    RowElements(s', a, k);
    WithoutElements(Row(s, a, k), p);
    assert x in Row(s', a, k);
  }

  // ---------------------------------------------------------------- schedule

  /** schedule takes the current task off its queue. */
  predicate Leaves(s: Sched, signal: bool) {
    s.curr in s.tasks && s.tasks[s.curr].state != Running && !(s.tasks[s.curr].state == Interruptible && signal)
  }

  /** schedule moves nothing; it takes the previous task off if that is not to run, and switches arrays by name. */
  lemma SchedulePlaces(s: Sched, signal: bool)
    requires Inv(s)
    ensures var s' := Step(s, Resched(signal));
            if Leaves(s, signal) then TakenOff(s, s', s.curr) && s.curr in s'.tasks && s'.tasks[s.curr].onArr == None
            else SameRows(s, s')
  {
    hide PutPrev, PickNext, SwitchTo, Queued, TasksOk, NoFork, Without;
    PutPrevRows(s, signal);
    PickSwitchRows(PutPrev(s, signal));
  }

  lemma PutPrevRows(s: Sched, signal: bool)
    requires Inv(s)
    ensures var s1 := PutPrev(s, signal);
            if Leaves(s, signal) then TakenOff(s, s1, s.curr) && s1.tasks[s.curr].onArr == None else SameRows(s, s1)
    ensures PutPrev(s, signal).curr == s.curr && PutPrev(s, signal).tasks.Keys == s.tasks.Keys
  {
    if Leaves(s, signal) {
      var t := s.tasks[s.curr].(sleepTimestamp := s.jiffies);
      UnlinkedRows(s, s.curr, t.onArr.value);
      assert Unlink(Upd(s, s.curr, t), s.curr, t.onArr.value).rows == Unlink(s, s.curr, t.onArr.value).rows;
    }
  }

  lemma PickSwitchRows(s: Sched)
    requires s.curr in s.tasks || s.curr == IDLE
    ensures var (s1, next) := PickNext(s);
            var s' := SwitchTo(s1, next);
            && s'.rows == s.rows && s'.tasks.Keys == s.tasks.Keys
            && (forall x :: x in s.tasks ==> s'.tasks[x].onArr == s.tasks[x].onArr && s'.tasks[x].prio == s.tasks[x].prio)
  {
    hide PickNext, FindRow;
    PickNextTasks(s);
    PickFrame(s);
  }

  lemma PickFrame(s: Sched)
    ensures var s' := PickNext(s).0; s'.rows == s.rows && s'.jiffies == s.jiffies && s'.idleResched == s.idleResched
  {
    hide FindRow;
  }

  // ---------------------------------------------------------------- wake-up, fork, reap

  lemma ActivatedRows(s: Sched, p: Id)
    requires Queued(s.rows, s.tasks, p) && NoFork(s.tasks) && p in s.tasks
    ensures var s' := Activate(s, p);
            var a := Home(s.tasks[p], s.active);
            && MovedToTail(s, s', p, a, s'.tasks[p].prio)
            && s'.tasks == s.tasks[p := WithSleepBonus(s.tasks[p], s.jiffies).(onArr := Some(a))]
            && s' == s.(rows := s'.rows, tasks := s'.tasks)
  {
    hide Queued, WithSleepBonus, Home, MovedToTail, TakenOff;
    BonusForks(s.tasks[p], s.jiffies);
    var s1 := Upd(s, p, WithSleepBonus(s.tasks[p], s.jiffies));
    NoForkTail(s1, p, Home(s.tasks[p], s.active));
    AbsentRows(s, p);
    assert TakenOff(s, s1, p) by {
      SameTakenOff(s, s, s1, p);
    }
    AddedRows(s, s1, p, Home(s.tasks[p], s.active));
  }

  lemma SameTakenOff(s: Sched, s1: Sched, s2: Sched, p: Id)
    requires TakenOff(s, s1, p) && s2.rows == s1.rows
    ensures TakenOff(s, s2, p)
  {
  }

  /** A wake-up puts a task that is on no queue at the tail of a row of the array of its class, with its
      new priority; of a queued one it changes the state only. */
  lemma WakePlaces(s: Sched, p: Id)
    requires Inv(s) && p in s.tasks
    ensures var s' := Step(s, Wake(p));
            && p in s'.tasks && s'.tasks[p].state == Running && s'.active == s.active && s'.curr == s.curr
            && var t' := s'.tasks[p];
            if s.tasks[p].onArr == None then
              MovedToTail(s, s', p, Home(s.tasks[p], s.active), t'.prio) && t'.onArr == Some(Home(s.tasks[p], s.active))
            else
              SameRows(s, s') && t' == s.tasks[p].(state := Running)
  {
    hide Activate, Queued, Home, MovedToTail;
    if s.tasks[p].onArr == None {
      OffQueueIsHole(s.rows, s.tasks, p);
      ActivatedRows(s, p);
      var s1 := Activate(s, p);
      MoveThenSame(s, s1, Step(s, Wake(p)), p, Home(s.tasks[p], s.active), s1.tasks[p].prio);
    }
  }

  lemma MoveThenSame(s: Sched, s1: Sched, s': Sched, p: Id, b: Arr, j: int)
    requires s'.rows == s1.rows && MovedToTail(s, s1, p, b, j)
    ensures MovedToTail(s, s', p, b, j)
  {
    assert SameRows(s1, s');
  }

  lemma ReapPlaces(s: Sched, child: Id)
    requires Inv(s) && Enabled(s, Exit(child))
    ensures SameRows(s, Step(s, Exit(child)))
  {
  }

  /** A fork by a task that is not SHORT, or that has its last jiffy: after the parent's forced tick, if
      that jiffy was its last, the child goes to the tail of a row of its home array. */
  lemma ForkPlaces(s: Sched, child: Id)
    requires Inv(s) && Enabled(s, Clone(child))
    requires !ShortTask(s.tasks[s.curr]) || s.tasks[s.curr].timeSlice == 1
    ensures var s' := Step(s, Clone(child));
            && child in s'.tasks && s'.tasks[child].onArr.Some?
            && MovedToTail(ForkParent(s), s', child, s'.tasks[child].onArr.value, s'.tasks[child].prio)
            && (s.tasks[s.curr].timeSlice >= 2 || OverdueTask(s.tasks[s.curr]) ==> SameRows(s, ForkParent(s)))
  {
    hide SchedulerTick, Activate, NewChild, Queued, MovedToTail, Home;
    ForkParentKeeps(s);
    NewChildOk(s);
    var s0 := ForkParent(s);
    ForkParentKeys(s);
    var s1 := Upd(s0, child, NewChild(s));
    ChildRecordKeeps(s0, child, NewChild(s));
    ActivatedRows(s1, child);
    var s2 := Activate(s1, child);
    SameRowsMove(s0, s1, s2, child, Home(NewChild(s), s1.active), s2.tasks[child].prio);
    FlagSameRows(s2);
    MoveThenSame(s0, s2, Fork(s, child), child, Home(NewChild(s), s1.active), s2.tasks[child].prio);
    assert TaskOk(s.tasks[s.curr], s.jiffies);
  }

  lemma ForkParentKeys(s: Sched)
    requires Inv(s) && s.curr in s.tasks
    ensures ForkParent(s).tasks.Keys == s.tasks.Keys && ForkParent(s).jiffies == s.jiffies
    ensures ForkParent(s).curr == s.curr && ForkParent(s).active == s.active
  {
    hide Enqueue, Refilled, ExpiredStarving, Interactive, Queued;
    assert TaskOk(s.tasks[s.curr], s.jiffies);
    ForkParentCores(s);
    TickClock(Upd(s, s.curr, SplitSlice(s.tasks[s.curr]).0.(justGotForked := false, timeSlice := 1)));
  }

  lemma TickClock(s: Sched)
    requires s.curr in s.tasks
    ensures SchedulerTick(s).jiffies == s.jiffies && SchedulerTick(s).curr == s.curr && SchedulerTick(s).active == s.active
  {
    hide SliceEnd, RrSliceEnd;
    RrClock(s);
    SliceClock(s);
  }

  lemma RrClock(s: Sched)
    requires s.curr in s.tasks
    ensures RrSliceEnd(s).jiffies == s.jiffies && RrSliceEnd(s).curr == s.curr && RrSliceEnd(s).active == s.active
  {
    hide Enqueue, TaskTimeslice, Home;
    var t := s.tasks[s.curr];
    var t1 := t.(timeSlice := TaskTimeslice(t), firstTimeSlice := false, needResched := true);
    var a := Home(t, s.active);
    EnqueueClock(Unlink(Upd(s, s.curr, t1), s.curr, a), s.curr, a);
  }

  lemma SliceClock(s: Sched)
    requires s.curr in s.tasks
    ensures SliceEnd(s).jiffies == s.jiffies && SliceEnd(s).curr == s.curr && SliceEnd(s).active == s.active
  {
    hide Enqueue, Refilled, Home, Interactive, ExpiredStarving;
    var t := s.tasks[s.curr];
    var t2 := Refilled(t.(sleepAvg := TickedSleepAvg(t))).(needResched := true);
    var s1 := Upd(Unlink(s, s.curr, Home(t, s.active)), s.curr, t2);
    var s2 := if s.expiredStamp == 0 then s1.(expiredStamp := s.jiffies) else s1;
    EnqueueClock(s2, s.curr, Expired(s));
    EnqueueClock(s1, s.curr, Home(t2, s.active));
  }

  // ---------------------------------------------------------------- yield, nice, setscheduler

  /** `j` is the first used row of the array apart from row `k`, and a worse one than `k`. */
  ghost predicate NextUsed(s: Sched, a: Arr, k: int, j: int) {
    k < j < MAX_PRIO && Row(s, a, j) != [] && forall i :: 0 <= i < j && i != k ==> Row(s, a, i) == []
  }

  /** A yielder that is not real-time goes right behind the first other task of its row.  If it is alone
      there it goes right behind the first task of the next used row, taking its priority; and if its
      row is not the best used one, or is the only one, it stays where it is. */
  lemma YieldBehindHead(s: Sched)
    requires Inv(s) && s.curr in s.tasks && !RtTask(s.tasks[s.curr])
    ensures var s', p, t := YieldQueue(s), s.curr, s.tasks[s.curr];
            var a, k, k' := t.onArr.value, t.prio, s'.tasks[s.curr].prio;
            var own := Without(Row(s, a, k), p);
            && (own != [] ==> k' == k && Row(s', a, k) == [own[0], p] + own[1..])
            && (forall j :: own == [] && NextUsed(s, a, k, j) ==>
                  k' == j && Row(s', a, k) == [] && Row(s', a, j) == [Row(s, a, j)[0], p] + Row(s, a, j)[1..])
            && (own == [] && (forall j :: !NextUsed(s, a, k, j)) ==> k' == k && Row(s', a, k) == [p])
            && (forall b, j :: b != a || (j != k && j != k') ==> Row(s', b, j) == Row(s, b, j))
            && s'.tasks == s.tasks[p := t.(prio := k')]
  {
    hide Queued, Without, NextUsed, YieldRow;
    var p := s.curr;
    var t := s.tasks[p];
    var a, k := t.onArr.value, t.prio;
    assert TaskOk(t, s.jiffies);
    LandingRow(s, Unlink(s, p, a), a, k);
  }

  lemma LandingRow(s: Sched, s1: Sched, a: Arr, k: int)
    requires 0 <= k < MAX_PRIO
    requires forall j :: j != k ==> Row(s1, a, j) == Row(s, a, j)
    ensures Row(s1, a, k) != [] ==> YieldRow(s1, a, k) == k
    ensures Row(s1, a, k) == [] ==> forall j :: NextUsed(s, a, k, j) ==> YieldRow(s1, a, k) == j != k && Row(s, a, j) != []
    ensures Row(s1, a, k) == [] && (forall j :: !NextUsed(s, a, k, j)) ==> YieldRow(s1, a, k) == k
  {
    var i := FindRow(s1, a, 0);
    forall j | Row(s1, a, k) == [] && NextUsed(s, a, k, j)
      ensures i == j
    {
      FindRowIs(s1, a, j);
    }
    if Row(s1, a, k) == [] && i < MAX_PRIO && i > k {
      assert NextUsed(s, a, k, i) by {
        forall l | 0 <= l < i && l != k
          ensures Row(s, a, l) == []
        {
          assert Row(s1, a, l) == [];
        }
      }
    }
  }

  /** set_user_nice is to change the static priority of a task that is neither real-time nor overdue. */
  predicate Renices(t: Task, nice: int) {
    -20 <= nice <= 19 && nice != PrioToNice(t.staticPrio) && !RtTask(t) && !OverdueTask(t)
  }

  /** A nice value that counts becomes the priority itself, and a queued task goes to the tail of that
      row of its array; real-time and overdue tasks, and all others, stay where they are. */
  lemma NicePlaces(s: Sched, p: Id, nice: int)
    requires Inv(s) && p in s.tasks
    ensures var s' := Step(s, Renice(p, nice));
            && p in s'.tasks && s'.active == s.active && s'.curr == s.curr
            && var t, t' := s.tasks[p], s'.tasks[p];
            && t'.onArr == t.onArr
            && t'.prio == (if Renices(t, nice) then NiceToPrio(nice) else t.prio)
            && (Renices(t, nice) ==> t'.staticPrio == t'.prio)
            && if Renices(t, nice) && t.onArr.Some? then MovedToTail(s, s', p, t.onArr.value, NiceToPrio(nice))
               else SameRows(s, s')
  {
    hide Enqueue, Queued, MovedToTail, Unlink, TaskOk;
    var t := s.tasks[p];
    if Renices(t, nice) && t.onArr.Some? {
      var t1 := t.(staticPrio := NiceToPrio(nice), prio := NiceToPrio(nice));
      RelinkedRows(s, p, t1, t.onArr.value);
      var s1 := Enqueue(Upd(Unlink(s, p, t.onArr.value), p, t1), p, t.onArr.value);
      MoveThenSame(s, s1, SetUserNice(s, p, nice), p, t.onArr.value, t1.prio);
    }
  }

  /** setscheduler gives the task another class or another real-time priority. */
  ghost predicate Reclasses(s: Sched, r: Request) {
    s.curr in s.tasks && SetScheduler(s, r).1 == 0 && Target(s, r) in s.tasks && s.tasks[Target(s, r)].policy != Short
  }

  /** A queued task whose class changes goes to the tail of a row of the array of its new class, active
      if that is OTHER; refused requests and new requests of SHORT tasks move nothing. */
  lemma PolicyPlaces(s: Sched, r: Request)
    requires Inv(s) && Enabled(s, SetPolicy(r))
    ensures var s', p := Step(s, SetPolicy(r)), Target(s, r);
            && s'.active == s.active && s'.curr == s.curr && s'.tasks.Keys == s.tasks.Keys
            && (p in s.tasks ==> (s'.tasks[p].onArr.Some? <==> s.tasks[p].onArr.Some?))
            && if Reclasses(s, r) && s.tasks[p].onArr.Some? then
                 && MovedToTail(s, s', p, s'.tasks[p].onArr.value, s'.tasks[p].prio)
                 && (s'.tasks[p].onArr == Some(s.active) || s'.tasks[p].onArr == Some(RtShort))
               else
                 SameRows(s, s')
  {
    hide Inv, Requeue, MovedToTail, Judge;
    var p := Target(s, r);
    if Reaches(s, r, p) {
      var t := s.tasks[p];
      JudgeKinds(t, r);
      if Judge(t, r).MakeShort? || Judge(t, r).Reclass? {
        var t1 := JudgedTask(t, r);
        NobodyForked(s, p);
        OnlyShortOverdue(s, p);
        RequeuedRows(s, p, t1);
        if t.onArr.Some? {
          var s1 := Requeue(s, p, t1);
          MoveThenSame(s, s1, SetScheduler(s, r).0, p, Home(t1, s.active), s1.tasks[p].prio);
        }
      }
    }
  }

  lemma OnlyShortOverdue(s: Sched, p: Id)
    requires Inv(s) && p in s.tasks
    ensures s.tasks[p].iAmOverdue ==> s.tasks[p].policy == Short
    ensures s.active == A0 || s.active == A1
  {
    assert TaskOk(s.tasks[p], s.jiffies);
  }

  lemma JudgeKinds(t: Task, r: Request)
    ensures Judge(t, r).Refuse? ==> Judge(t, r).errno != 0
    ensures Judge(t, r).ChangeShort? ==> t.policy == Short && Judge(t, r).changed.onArr == t.onArr
    ensures var j := Judge(t, r);
            j.MakeShort? || j.Reclass? ==>
              && t.policy != Short
              && var t1 := if j.MakeShort? then j.made else j.classed;
                 t1.justGotForked == t.justGotForked && t1.onArr == t.onArr && (t.iAmOverdue || !OverdueTask(t1))
  {
    hide MsToJiffies, ShortChangeAccepted;
  }

  lemma RequeuedRows(s: Sched, p: Id, t: Task)
    requires Inv(s) && p in s.tasks && !t.justGotForked && t.onArr == s.tasks[p].onArr
    ensures var s' := Requeue(s, p, t);
            && s'.tasks.Keys == s.tasks.Keys && s' == s.(rows := s'.rows, tasks := s'.tasks)
            && s'.tasks == s.tasks[p := if t.onArr == None then t else
                 WithSleepBonus(t.(onArr := None), s.jiffies).(onArr := Some(Home(t, s.active)))]
            && if t.onArr.Some? then
                 && s'.tasks[p].onArr == Some(Home(t, s.active))
                 && MovedToTail(s, s', p, Home(t, s.active), s'.tasks[p].prio)
               else
                 SameRows(s, s') && s'.tasks[p].onArr == None
  {
    hide Activate, WithSleepBonus, Home, Queued, MovedToTail, NoFork, Without;
    if t.onArr.Some? {
      var a := t.onArr.value;
      var s1 := Upd(Deactivate(s, p), p, t.(onArr := None));
      DeactivateKeeps(s, p);
      UnlinkKeeps(s, p, a);
      UpdHole(Unlink(s, p, a).rows, s.tasks, p, t.(onArr := None));
      assert s1.tasks == s.tasks[p := t.(onArr := None)];
      assert NoFork(s1.tasks) by {
        NoForkUpd(s, p, t.(onArr := None));
      }
      ActivatedRows(s1, p);
      HomeIgnoresPlace(t, s.active);
      UnlinkedRows(s, p, a);
      OffThenTail(s, s1, Activate(s1, p), p, Home(t, s.active), Activate(s1, p).tasks[p].prio);
    }
  }

  lemma NoForkUpd(s: Sched, p: Id, t: Task)
    requires NoFork(s.tasks) && !t.justGotForked
    ensures NoFork(s.tasks[p := t])
  {
  }

  lemma HomeIgnoresPlace(t: Task, active: Arr)
    ensures Home(t.(onArr := None), active) == Home(t, active)
  {
  }

  lemma OffThenTail(s: Sched, s1: Sched, s': Sched, p: Id, b: Arr, j: int)
    requires Queued(s.rows, s.tasks, IDLE) && p in s.tasks && s.tasks[p].onArr.Some?
    requires s1.rows == Unlink(s, p, s.tasks[p].onArr.value).rows && MovedToTail(s1, s', p, b, j)
    ensures MovedToTail(s, s', p, b, j)
  {
    UnlinkedRows(s, p, s.tasks[p].onArr.value);
    forall a, k
      ensures Without(Row(s1, a, k), p) == Without(Row(s, a, k), p)
    {
      assert Row(s1, a, k) == Without(Row(s, a, k), p);
      RowOnce(s, a, k);
      WithoutElements(Row(s, a, k), p);
      WithoutAbsent(Without(Row(s, a, k), p), p);
    }
  }

  lemma RowOnce(s: Sched, a: Arr, k: int)
    requires Queued(s.rows, s.tasks, IDLE)
    ensures NoDup(Row(s, a, k))
  {
  }
}
