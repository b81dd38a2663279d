/** Every step of the scheduler keeps the runqueue invariant. */
module SchedSteps {
  import opened Params
  import opened Rows
  import opened SchedModel
  import opened SchedInvariant

  lemma RrSliceEndKeeps(s: Sched)
    requires Inv(s) && s.curr in s.tasks && s.tasks[s.curr].policy == Rr
    ensures Inv(RrSliceEnd(s))
  {
    hide TaskTimeslice, Enqueue, Queued;
    var p := s.curr;
    var t := s.tasks[p];
    var t1 := t.(timeSlice := TaskTimeslice(t), firstTimeSlice := false, needResched := true);
    TimesliceRange(t);
    var s1 := Upd(s, p, t1);
    UpdKeeps(s, p, t1);
    MoveKeeps(s1, p, t1, RtShort);
    assert Upd(Unlink(s1, p, RtShort), p, t1) == Unlink(s1, p, RtShort);
  }

  lemma SliceEndKeeps(s: Sched)
    requires Inv(s) && s.curr in s.tasks
    requires !RtTask(s.tasks[s.curr]) && s.tasks[s.curr].onArr != Some(Expired(s))
    ensures Inv(SliceEnd(s))
  {
    hide Refilled, Enqueue, Interactive, ExpiredStarving, Queued;
    var p := s.curr;
    var t := s.tasks[p];
    var t1 := t.(sleepAvg := TickedSleepAvg(t));
    var t2 := Refilled(t1).(needResched := true);
    RefilledOk(t1, s.jiffies);
    assert t.onArr == Some(Home(t, s.active));
    if t2.policy == Other && (!Interactive(t2) || ExpiredStarving(s)) {
      var s0 := if s.expiredStamp == 0 then s.(expiredStamp := s.jiffies) else s;
      MoveKeeps(s0, p, t2, Expired(s));
    } else {
      MoveKeeps(s, p, t2, Home(t2, s.active));
    }
  }

  lemma SchedulerTickKeeps(s: Sched)
    requires Inv(s)
    ensures Inv(SchedulerTick(s))
  {
    if s.curr in s.tasks {
      var p := s.curr;
      var t := s.tasks[p];
      if t.onArr == Some(Expired(s)) {
        UpdKeeps(s, p, t.(needResched := true));
      } else if RtTask(t) {
        if t.policy == Rr && t.timeSlice == 1 {
          RrSliceEndKeeps(s);
        } else if t.policy == Rr {
          UpdKeeps(s, p, t.(timeSlice := t.timeSlice - 1));
        }
      } else if t.timeSlice != 1 {
        UpdKeeps(s, p, t.(sleepAvg := TickedSleepAvg(t), timeSlice := t.timeSlice - 1));
      } else {
        SliceEndKeeps(s);
      }
    }
  }

  lemma ClockAdvances(s: Sched)
    requires Inv(s)
    ensures Inv(s.(jiffies := s.jiffies + 1))
  {
    forall p | p in s.tasks
      ensures TaskOk(s.tasks[p], s.jiffies + 1)
    {
      assert TaskOk(s.tasks[p], s.jiffies);
    }
  }

  lemma TickKeeps(s: Sched)
    requires Inv(s)
    ensures Inv(TimerTick(s))
  {
    hide SchedulerTick;
    ClockAdvances(s);
    SchedulerTickKeeps(s.(jiffies := s.jiffies + 1));
  }

  // ---------------------------------------------------------------- schedule

  /** The invariant without the demand on the current task. */
  ghost predicate InvNoCurr(s: Sched) {
    && TasksOk(s.tasks, s.jiffies) && NoFork(s.tasks)
    && Queued(s.rows, s.tasks, IDLE) && ClockOk(s)
    && (s.curr == IDLE || s.curr in s.tasks)
  }

  lemma PutPrevKeeps(s: Sched, signal: bool)
    requires Inv(s)
    ensures InvNoCurr(PutPrev(s, signal))
  {
    if s.curr in s.tasks {
      var t := s.tasks[s.curr].(sleepTimestamp := s.jiffies);
      UpdKeeps(s, s.curr, t);
      if t.state == Running {
      } else if t.state == Interruptible && signal {
        UpdKeeps(s, s.curr, t.(state := Running));
      } else {
        DeactivateKeeps(Upd(s, s.curr, t), s.curr);
      }
    }
  }

  /** A row head is a task of that array. */
  lemma HeadIsQueued(s: Sched, a: Arr, k: int)
    requires Queued(s.rows, s.tasks, IDLE) && Row(s, a, k) != []
    ensures var p := Row(s, a, k)[0]; p in s.tasks && s.tasks[p].onArr == Some(a) && s.tasks[p].prio == k
  {
    assert Row(s, a, k)[0] in s.rows[Cell(a, k)];
  }

  lemma PickNextShape(s: Sched)
    requires s.active == A0 || s.active == A1
    ensures var (s', next) := PickNext(s);
            && s' == s.(active := s'.active, expiredStamp := s'.expiredStamp)
            && (s'.active == s.active || s'.active == Expired(s))
            && (s'.expiredStamp == s.expiredStamp || s'.expiredStamp == 0)
            && (next == IDLE || exists c: Cell :: c in s.rows && s.rows[c] != [] && next == s.rows[c][0])
  {
    var next := PickNext(s).1;
    if next != IDLE {
      var a :| FindRow(s, a, 0) < MAX_PRIO && next == Row(s, a, FindRow(s, a, 0))[0];
      var c := Cell(a, FindRow(s, a, 0));
      assert Row(s, c.arr, c.prio) != [];
      assert c in s.rows && s.rows[c] != [];
    }
  }

  lemma PickNextKeeps(s: Sched)
    requires InvNoCurr(s)
    ensures var (s', next) := PickNext(s);
            InvNoCurr(s') && s'.tasks == s.tasks
            && (next == IDLE || (next in s.tasks && s.tasks[next].onArr.Some?))
  {
    hide PickNext;
    PickNextShape(s);
    var next := PickNext(s).1;
    if next != IDLE {
      var c :| c in s.rows && s.rows[c] != [] && next == s.rows[c][0];
      assert next in s.rows[c];
    }
  }

  lemma SwitchToKeeps(s: Sched, next: Id)
    requires InvNoCurr(s)
    requires next == IDLE || (next in s.tasks && s.tasks[next].onArr.Some?)
    ensures Inv(SwitchTo(s, next))
  {
    if s.curr in s.tasks {
      UpdInPlace(s.rows, s.tasks, IDLE, s.curr, s.tasks[s.curr].(needResched := false));
    }
  }

  lemma ScheduleKeeps(s: Sched, signal: bool)
    requires Inv(s)
    ensures Inv(Schedule(s, signal))
  {
    hide PutPrev, PickNext, SwitchTo;
    PutPrevKeeps(s, signal);
    PickNextKeeps(PutPrev(s, signal));
    var (s2, next) := PickNext(PutPrev(s, signal));
    SwitchToKeeps(s2, next);
  }

  // ---------------------------------------------------------------- wake and fork

  lemma WokenKeeps(s: Sched, p: Id)
    requires TasksOk(s.tasks, s.jiffies) && NoFork(s.tasks) && ClockOk(s)
    requires Queued(s.rows, s.tasks, IDLE)
    requires p in s.tasks && s.tasks[p].onArr == None
    requires s.curr == p || CurrOk(s)
    ensures Inv(Woken(s, p))
  {
    hide Activate, Inv;
    ActivateKeeps(s, p);
    ReschedKeeps(Activate(s, p));
  }

  lemma WakeKeeps(s: Sched, p: Id)
    requires Inv(s) && p in s.tasks
    ensures Inv(TryToWakeUp(s, p).0)
  {
    if s.tasks[p].onArr == None {
      WokenKeeps(s, p);
      hide Woken;
      UpdKeeps(Woken(s, p), p, Woken(s, p).tasks[p].(state := Running));
    } else {
      UpdKeeps(s, p, s.tasks[p].(state := Running));
    }
  }

  /** The parent side of a fork that does not take the child-first branch. */
  lemma ForkParentKeeps(s: Sched)
    requires Inv(s) && s.curr in s.tasks
    requires !ShortTask(s.tasks[s.curr]) || s.tasks[s.curr].timeSlice == 1
    ensures Inv(ForkParent(s))
  {
    var par := SplitSlice(s.tasks[s.curr]).0;
    if par.timeSlice == 0 {
      var par1 := par.(justGotForked := false, timeSlice := 1);
      UpdKeeps(s, s.curr, par1);
      SchedulerTickKeeps(Upd(s, s.curr, par1));
    } else {
      UpdKeeps(s, s.curr, par);
    }
  }

  lemma NewChildOk(s: Sched)
    requires Inv(s) && s.curr in s.tasks
    ensures TaskOk(NewChild(s), s.jiffies) && NewChild(s).onArr == None && !NewChild(s).justGotForked
    ensures NewChild(s).policy == s.tasks[s.curr].policy && NewChild(s).iAmOverdue == s.tasks[s.curr].iAmOverdue
    ensures NewChild(s).parent == s.curr && NewChild(s).firstTimeSlice
  {
  }

  /** The state after the child-first branch: parent to the tail of its row, child to the head of
      the row of its static priority. */
  function ShortForked(s: Sched, child: Id): Sched
    requires s.curr in s.tasks && child !in s.tasks
  {
    var t := s.tasks[s.curr];
    var s1 := Upd(s, s.curr, t.(timeSlice := t.timeSlice / 2));
    var s2 := AddTail(Unlink(s1, s.curr, RtShort), s.curr, RtShort);
    ReschedCurr(AddHead(Upd(s2, child, NewChild(s)), child, RtShort))
  }

  lemma ShortForkShape(s: Sched, child: Id)
    requires Inv(s) && s.curr in s.tasks && child !in s.tasks
    requires ShortTask(s.tasks[s.curr]) && s.tasks[s.curr].timeSlice >= 2
    ensures Fork(s, child) == ShortForked(s, child)
  {
    hide SchedulerTick, Row, Without, Queued, ClockOk;
    var p := s.curr;
    var t := s.tasks[p];
    var c := NewChild(s);
    var par := SplitSlice(t).0;
    assert t.onArr == Some(RtShort);
    NewChildOk(s);
    var s1 := Upd(ForkParent(s), child, c);
    assert WithSleepBonus(c, s1.jiffies) == c;
    assert Home(c, s1.active) == RtShort;
    assert Upd(s1, child, c) == s1;
    assert ForkBranch(s1, child);
    var done := t.(timeSlice := t.timeSlice / 2);
    assert par.(justGotForked := false) == done;
    var s2 := Upd(s1, p, done);
    var s3 := AddTail(Unlink(s2, p, RtShort), p, RtShort);
    assert Activate(s1, child) == AddHead(s3, child, RtShort);
    var r1 := Upd(s, p, done);
    assert s2 == Upd(r1, child, c);
    ToTailCommutes(r1, p, RtShort, child, c);
  }

  /** Moving a task to the tail of its row does not depend on the record of another task. */
  lemma ToTailCommutes(s: Sched, p: Id, a: Arr, x: Id, c: Task)
    requires p in s.tasks && p != x
    ensures AddTail(Unlink(Upd(s, x, c), p, a), p, a) == Upd(AddTail(Unlink(s, p, a), p, a), x, c)
  {
    var t := s.tasks[p].(onArr := Some(a));
    assert s.tasks[x := c][p := t] == s.tasks[p := t][x := c];
  }

  lemma ChildRecordKeeps(s: Sched, child: Id, c: Task)
    requires Inv(s) && child !in s.tasks && 0 < child < PID_MAX
    requires TaskOk(c, s.jiffies) && c.onArr == None && !c.justGotForked
    ensures Queued(s.rows, s.tasks[child := c], child) && Queued(s.rows, s.tasks[child := c], IDLE)
    ensures TasksOk(s.tasks[child := c], s.jiffies) && NoFork(s.tasks[child := c])
  {
    OffQueueIsHole(s.rows, s.tasks, child);
    UpdHole(s.rows, s.tasks, child, c);
  }

  lemma ChildActivatedKeeps(s: Sched, child: Id, c: Task)
    requires Inv(s) && child !in s.tasks && 0 < child < PID_MAX
    requires TaskOk(c, s.jiffies) && c.onArr == None && !c.justGotForked
    ensures Inv(Activate(Upd(s, child, c), child))
    ensures Inv(ReschedCurr(Activate(Upd(s, child, c), child)))
  {
    hide Activate;
    ChildRecordKeeps(s, child, c);
    ActivateKeeps(Upd(s, child, c), child);
    ReschedKeeps(Activate(Upd(s, child, c), child));
  }

  lemma ParentRequeuedKeeps(s: Sched)
    requires Inv(s) && s.curr in s.tasks
    requires ShortTask(s.tasks[s.curr]) && s.tasks[s.curr].timeSlice >= 2
    ensures var s1 := Upd(s, s.curr, s.tasks[s.curr].(timeSlice := s.tasks[s.curr].timeSlice / 2));
            Inv(AddTail(Unlink(s1, s.curr, RtShort), s.curr, RtShort))
  {
    var t1 := s.tasks[s.curr].(timeSlice := s.tasks[s.curr].timeSlice / 2);
    var s1 := Upd(s, s.curr, t1);
    UpdKeeps(s, s.curr, t1);
    MoveKeeps(s1, s.curr, t1, RtShort);
    assert Upd(Unlink(s1, s.curr, RtShort), s.curr, t1) == Unlink(s1, s.curr, RtShort);
  }

  lemma ShortForkKeeps(s: Sched, child: Id)
    requires Inv(s) && Enabled(s, Clone(child))
    requires ShortTask(s.tasks[s.curr]) && s.tasks[s.curr].timeSlice >= 2
    ensures Inv(ShortForked(s, child))
  {
    hide NewChild;
    var c := NewChild(s);
    NewChildOk(s);
    ParentRequeuedKeeps(s);
    var s1 := Upd(s, s.curr, s.tasks[s.curr].(timeSlice := s.tasks[s.curr].timeSlice / 2));
    var s2 := AddTail(Unlink(s1, s.curr, RtShort), s.curr, RtShort);
    HeadChildKeeps(s2, child, c);
  }

  lemma HeadChildKeeps(s: Sched, child: Id, c: Task)
    requires Inv(s) && child !in s.tasks && 0 < child < PID_MAX
    requires TaskOk(c, s.jiffies) && c.onArr == None && !c.justGotForked && ShortTask(c)
    ensures Inv(ReschedCurr(AddHead(Upd(s, child, c), child, RtShort)))
  {
    var s1 := Upd(s, child, c);
    ChildRecordKeeps(s, child, c);
    AddHeadKeeps(s1, child, RtShort);
    ReschedKeeps(AddHead(s1, child, RtShort));
  }

  lemma PlainForkKeeps(s: Sched, child: Id)
    requires Inv(s) && Enabled(s, Clone(child))
    requires !ShortTask(s.tasks[s.curr]) || s.tasks[s.curr].timeSlice == 1
    ensures Inv(Fork(s, child))
  {
    hide NewChild, ForkParent, Activate, TaskOk;
    ForkParentKeeps(s);
    NewChildOk(s);
    ForkParentScalars(s);
    ChildActivatedKeeps(ForkParent(s), child, NewChild(s));
  }

  lemma ForkKeeps(s: Sched, child: Id)
    requires Inv(s) && Enabled(s, Clone(child))
    ensures Inv(Fork(s, child))
  {
    hide Fork, ShortForked;
    if ShortTask(s.tasks[s.curr]) && s.tasks[s.curr].timeSlice >= 2 {
      ShortForkShape(s, child);
      ShortForkKeeps(s, child);
    } else {
      PlainForkKeeps(s, child);
    }
  }

  // ---------------------------------------------------------------- reap, yield, nice, setscheduler

  /** What a reap means for the reaper: all its fields stay in range, its place stays; its slice is
      never below what it had or the cap, never above the larger of the two, and never above both
      slices together; and its sleep average never rises and never falls below the child's. */
  lemma ReapedOk(t: Task, c: Task, jiffies: int)
    requires TaskOk(t, jiffies) && TaskOk(c, jiffies)
    ensures var t' := AfterReap(t, c);
            && TaskOk(t', jiffies) && t'.onArr == t.onArr && t'.prio == t.prio && t'.justGotForked == t.justGotForked
            && Min(t.timeSlice, MAX_TIMESLICE) <= t'.timeSlice <= Max(t.timeSlice, MAX_TIMESLICE)
            && t'.timeSlice <= t.timeSlice + c.timeSlice
            && Min(t.sleepAvg, c.sleepAvg) <= t'.sleepAvg <= t.sleepAvg
  {
    MixedAverage(t.sleepAvg, c.sleepAvg);
  }

  lemma MixedAverage(a: int, b: int)
    ensures b < a ==> b <= (a * EXIT_WEIGHT + b) / (EXIT_WEIGHT + 1) <= a
  {
  }

  lemma ReapKeeps(s: Sched, child: Id)
    requires Inv(s) && Enabled(s, Exit(child))
    ensures Inv(Reap(s, child))
  {
    hide AfterReap;
    var t := AfterReap(s.tasks[s.curr], s.tasks[child]);
    var all := s.tasks[s.curr := t];
    var s' := Reap(s, child);
    assert TaskOk(s.tasks[s.curr], s.jiffies) && TaskOk(s.tasks[child], s.jiffies);
    ReapedOk(s.tasks[s.curr], s.tasks[child], s.jiffies);
    UpdInPlace(s.rows, s.tasks, IDLE, s.curr, t);
    forall c, x | c in s.rows && x in s.rows[c]
      ensures x in s'.tasks && s'.tasks[x].onArr == Some(c.arr) && s'.tasks[x].prio == c.prio
    {
      assert x in all;
    }
    forall x | x in s'.tasks
      ensures TaskOk(s'.tasks[x], s.jiffies)
    {
      assert TaskOk(all[x], s.jiffies);
    }
  }

  lemma YieldRtKeeps(s: Sched)
    requires Inv(s) && s.curr in s.tasks && RtTask(s.tasks[s.curr])
    ensures Inv(YieldQueue(s))
  {
    var p := s.curr;
    var t := s.tasks[p];
    var a := t.onArr.value;
    UnlinkKeeps(s, p, a);
    AddTailKeeps(Unlink(s, p, a), p, a);
    assert s.tasks[p := t.(onArr := Some(a))] == s.tasks;
  }

  lemma InsertSecondElements(r: seq<Id>, p: Id)
    requires NoDup(r) && p !in r
    ensures NoDup(InsertSecond(r, p)) && forall x :: x in InsertSecond(r, p) <==> x == p || x in r
  {
    if r != [] {
      assert r == [r[0]] + r[1..];
    }
  }

  /** Putting the yielder, taken out of its row, into row `i` behind that row's head. */
  lemma InsertKeeps(s: Sched, p: Id, a: Arr, i: int)
    requires Inv(s) && p in s.tasks && s.tasks[p].onArr == Some(a) && 0 <= i < MAX_PRIO
    requires TaskOk(s.tasks[p].(prio := i), s.jiffies)
    ensures var s1 := Unlink(s, p, a);
            Inv(Upd(SetRow(s1, a, i, InsertSecond(Row(s1, a, i), p)), p, s.tasks[p].(prio := i)))
  {
    var s1 := Unlink(s, p, a);
    var t1 := s.tasks[p].(prio := i);
    UnlinkKeeps(s, p, a);
    UpdHole(s1.rows, s1.tasks, p, t1);
    RowFresh(s1, p, a, i);
    InsertSecondElements(Row(s1, a, i), p);
    PutRowKeeps(Upd(s1, p, t1), p, a, InsertSecond(Row(s1, a, i), p));
    assert s.tasks[p := t1][p := t1.(onArr := Some(a))] == s.tasks[p := t1];
  }

  lemma YieldRowRange(s: Sched, a: Arr, prio: int)
    requires 0 <= prio < MAX_PRIO
    ensures prio <= YieldRow(s, a, prio) < MAX_PRIO
  {
  }

  lemma YieldQueueKeeps(s: Sched)
    requires Inv(s) && s.curr in s.tasks
    ensures Inv(YieldQueue(s))
  {
    hide Unlink, InsertSecond, YieldRow;
    var t := s.tasks[s.curr];
    if RtTask(t) {
      YieldRtKeeps(s);
    } else {
      var a := t.onArr.value;
      YieldRowRange(Unlink(s, s.curr, a), a, t.prio);
      InsertKeeps(s, s.curr, a, YieldRow(Unlink(s, s.curr, a), a, t.prio));
    }
  }

  lemma NiceKeeps(s: Sched, p: Id, nice: int)
    requires Inv(s) && p in s.tasks
    ensures Inv(SetUserNice(s, p, nice))
  {
    var t := s.tasks[p];
    if PrioToNice(t.staticPrio) == nice || nice < -20 || nice > 19 {
    } else if RtTask(t) {
      UpdKeeps(s, p, t.(staticPrio := NiceToPrio(nice)));
    } else if OverdueTask(t) {
      UpdKeeps(s, p, t.(overdueStaticPrio := NiceToPrio(nice)));
    } else {
      var t1 := t.(staticPrio := NiceToPrio(nice), prio := NiceToPrio(nice));
      if t.onArr == None {
        OffQueueIsHole(s.rows, s.tasks, p);
        UpdHole(s.rows, s.tasks, p, t1);
      } else {
        MoveKeeps(s, p, t1, t.onArr.value);
        ReschedKeeps(Enqueue(Upd(Unlink(s, p, t.onArr.value), p, t1), p, t.onArr.value));
      }
    }
  }

  /** For a request that is not negative, an accepted SHORT-to-SHORT change leaves a slice between
      one jiffy and the request, and the used part of the request as it was. */
  lemma ShortChangeOk(t: Task, ms: int, jiffies: int)
    requires TaskOk(t, jiffies) && t.policy == Short && ms >= 0
    requires ShortChangeAccepted(t, ms)
    ensures var t' := ShortChanged(t, ms);
            && TaskOk(t', jiffies)
            && 1 <= t'.timeSlice <= t'.requestedTime
            && t'.requestedTime - t'.timeSlice == t.requestedTime - t.timeSlice
  {
    hide MsToJiffies;
    ShortJiffies(ms);
  }

  lemma ShortJiffies(ms: int)
    requires ms <= MAX_REQUEST_MS && (ms >= 0 || MsToJiffies(ms) >= 1)
    ensures ms >= 0 && 0 <= MsToJiffies(ms) <= 3 * HZ
  {
    assert ms >= 0 ==> 0 <= ms * HZ <= 3000 * HZ;
    assert ms < 0 ==> ms * HZ < 0;
  }

  lemma ChangedSame(t: Task, ms: int)
    ensures var t1 := ShortChanged(t, ms);
            t1.prio == t.prio && t1.onArr == t.onArr && t1.justGotForked == t.justGotForked
  {
  }

  ghost predicate VerdictOk(t: Task, v: Verdict, jiffies: int) {
    match v
    case Refuse(_) => true
    case ChangeShort(t1) => TaskOk(t1, jiffies) && !t1.justGotForked && t1.onArr == t.onArr && t1.prio == t.prio
    case MakeShort(t1) => TaskOk(t1.(onArr := None), jiffies) && !t1.justGotForked && t1.onArr == t.onArr
    case Reclass(t1) => TaskOk(t1.(onArr := None), jiffies) && !t1.justGotForked && t1.onArr == t.onArr
  }

  lemma JudgeOk(t: Task, r: Request, jiffies: int)
    requires TaskOk(t, jiffies) && !t.justGotForked
    requires t.policy == Short ==> r.requestedMs >= 0
    ensures VerdictOk(t, Judge(t, r), jiffies)
  {
    hide MsToJiffies, ShortChanged, ShortChangeAccepted;
    match Judge(t, r)
    case Refuse(_) =>
    case ChangeShort(t1) =>
      ShortChangeOk(t, r.requestedMs, jiffies);
      assert t1.prio == t.prio && t1.onArr == t.onArr && !t1.justGotForked by {
        ChangedSame(t, r.requestedMs);
      }
    case MakeShort(t1) => ShortJiffies(r.requestedMs);
    case Reclass(t1) =>
  }

  lemma NegativeBreaks(s: Sched, r: Request)
    requires s.curr in s.tasks && AcceptsNegative(s, r)
    ensures !Inv(SetScheduler(s, r).0)
  {
    var p := Target(s, r);
    var s' := SetScheduler(s, r).0;
    assert r.requestedMs * HZ < 0;
    assert MsToJiffies(r.requestedMs) < 1;
    hide MsToJiffies, Queued, NoFork;
    assert s'.tasks[p].policy == Short && s'.tasks[p].requestedTime < 1;
    assert !TaskOk(s'.tasks[p], s'.jiffies);
  }

  /** setscheduler keeps the invariant whatever it decides, exactly unless it accepts a negative
      request for a SHORT task. */
  lemma SetSchedulerKeeps(s: Sched, r: Request)
    requires Inv(s) && s.curr in s.tasks
    ensures Inv(SetScheduler(s, r).0) <==> !AcceptsNegative(s, r)
  {
    if AcceptsNegative(s, r) {
      NegativeBreaks(s, r);
    } else {
      SetSchedulerAccepted(s, r);
    }
  }

  lemma ShortVerdict(t: Task, r: Request)
    ensures t.policy == Short ==> Judge(t, r).Refuse? || Judge(t, r).ChangeShort?
  {
  }

  lemma SetSchedulerAccepted(s: Sched, r: Request)
    requires Inv(s) && s.curr in s.tasks && !AcceptsNegative(s, r)
    ensures Inv(SetScheduler(s, r).0)
  {
    hide Judge, Requeue;
    var p := Target(s, r);
    if r.paramOk && r.pid >= 0 && r.copyOk && p in s.tasks {
      var t := s.tasks[p];
      ShortVerdict(t, r);
      if t.policy != Short || r.requestedMs >= 0 {
        JudgeOk(t, r, s.jiffies);
      }
      match Judge(t, r)
      case Refuse(_) =>
      case ChangeShort(t1) =>
        UpdKeeps(s, p, t1);
        ReschedKeeps(Upd(s, p, t1));
      case MakeShort(t1) =>
        RequeueKeeps(s, p, t1);
        ReschedKeeps(Requeue(s, p, t1));
      case Reclass(t1) =>
        RequeueKeeps(s, p, t1);
    }
  }

  // ---------------------------------------------------------------- the whole machine

  lemma BootKeeps(first: Id, jiffies: int)
    requires 0 < first < PID_MAX && jiffies >= 1
    ensures Inv(Boot(first, jiffies))
  {
    var s := Bare(first, jiffies);
    WokenKeeps(s, first);
    hide Woken;
    UpdKeeps(Woken(s, first), first, Woken(s, first).tasks[first].(state := Running));
  }

  /** Every step keeps the invariant. */
  lemma StepKeeps(s: Sched, e: Event)
    requires Inv(s) && Enabled(s, e)
    ensures Inv(Step(s, e))
  {
    hide TimerTick, Schedule, TryToWakeUp, Fork, Reap, YieldQueue, SetUserNice, SetScheduler;
    match e
    case Tick => TickKeeps(s);
    case Resched(signal) => ScheduleKeeps(s, signal);
    case SetState(state) => UpdKeeps(s, s.curr, s.tasks[s.curr].(state := state));
    case Wake(p) => WakeKeeps(s, p);
    case Clone(c) => ForkKeeps(s, c);
    case Exit(c) => ReapKeeps(s, c);
    case YieldCpu(signal) =>
      YieldQueueKeeps(s);
      ScheduleKeeps(YieldQueue(s), signal);
    case Renice(p, nice) => NiceKeeps(s, p, nice);
    case SetPolicy(r) => SetSchedulerKeeps(s, r);
  }

  /** Every run keeps the invariant. */
  lemma {:induction false} RunKeeps(s: Sched, es: seq<Event>)
    requires Inv(s) && Possible(s, es)
    ensures Inv(Run(s, es))
    decreases |es|
  {
    hide Step;
    if es != [] {
      StepKeeps(s, es[0]);
      RunKeeps(Step(s, es[0]), es[1..]);
    }
  }

  /** A run followed by one more step is a run. */
  lemma {:induction false} RunThen(s: Sched, es: seq<Event>, e: Event)
    requires Possible(s, es) && Enabled(Run(s, es), e)
    ensures Possible(s, es + [e]) && Run(s, es + [e]) == Step(Run(s, es), e)
    decreases |es|
  {
    hide Step;
    if es == [] {
      assert [e][1..] == [] && es + [e] == [e];
      assert Possible(Step(s, e), []);
    } else {
      RunThen(Step(s, es[0]), es[1..], e);
      assert (es + [e])[1..] == es[1..] + [e];
    }
  }

  /** Every state reachable from boot satisfies the invariant; in particular every slice is at least
      one jiffy, so the decrement of scheduler_tick never wraps and the BUG of do_fork is unreachable,
      and a task is real-time exactly if its priority is below 100. */
  lemma ReachableOk(first: Id, jiffies: int, es: seq<Event>, p: Id)
    requires 0 < first < PID_MAX && jiffies >= 1
    requires Possible(Boot(first, jiffies), es)
    requires p in Run(Boot(first, jiffies), es).tasks
    ensures Inv(Run(Boot(first, jiffies), es))
    ensures var t := Run(Boot(first, jiffies), es).tasks[p];
            && 1 <= t.timeSlice
            && (t.prio < MAX_RT_PRIO <==> t.policy == Fifo || t.policy == Rr)
            && MAX_RT_PRIO <= t.staticPrio < MAX_PRIO
            && 0 <= t.sleepAvg <= MAX_SLEEP_AVG
            && (t.iAmOverdue ==> t.policy == Short)
  {
    hide Boot, Step;
    BootKeeps(first, jiffies);
    RunKeeps(Boot(first, jiffies), es);
    assert TaskOk(Run(Boot(first, jiffies), es).tasks[p], Run(Boot(first, jiffies), es).jiffies);
  }
}
