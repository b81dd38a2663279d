/** What the steps do to the class-related part of each task record, apart from queues. */
module SchedFrames {
  import opened Params
  import opened Rows
  import opened SchedModel

  /** The part of a record that decides the class of a task and how long it stays there. */
  datatype Core = Core(
    policy: Policy, overdue: bool, slice: int, first: bool, requested: int,
    staticPrio: int, overdueStatic: int, parent: Id)

  function CoreOf(t: Task): Core {
    Core(t.policy, t.iAmOverdue, t.timeSlice, t.firstTimeSlice, t.requestedTime,
         t.staticPrio, t.overdueStaticPrio, t.parent)
  }

  ghost predicate SameCores(s: Sched, s': Sched) {
    && s'.tasks.Keys == s.tasks.Keys
    && s'.curr == s.curr
    && forall x :: x in s.tasks ==> CoreOf(s'.tasks[x]) == CoreOf(s.tasks[x])
  }

  lemma UpdCores(s: Sched, p: Id, t: Task, s': Sched)
    requires p in s.tasks && CoreOf(t) == CoreOf(s.tasks[p])
    requires s'.tasks == s.tasks[p := t] && s'.curr == s.curr
    ensures SameCores(s, s')
  {
    hide CoreOf;
  }

  lemma SameCoresTrans(s: Sched, s1: Sched, s2: Sched)
    requires SameCores(s, s1) && SameCores(s1, s2)
    ensures SameCores(s, s2)
  {
    hide CoreOf;
  }

  lemma AddTailCores(s: Sched, p: Id, a: Arr)
    requires p in s.tasks
    ensures SameCores(s, AddTail(s, p, a))
  {
    UpdCores(s, p, s.tasks[p].(onArr := Some(a)), AddTail(s, p, a));
  }

  lemma EnqueueCores(s: Sched, p: Id, a: Arr)
    requires p in s.tasks
    ensures SameCores(s, Enqueue(s, p, a))
  {
    AddTailCores(s, p, a);
    if ForkBranch(s, p) {
      var par := s.tasks[p].parent;
      var t1 := s.tasks[par].(justGotForked := false);
      var s1 := Upd(s, par, t1);
      UpdCores(s, par, t1, s1);
      var s2 := AddTail(Unlink(s1, par, a), par, a);
      UpdCores(s1, par, t1.(onArr := Some(a)), s2);
      UpdCores(s2, p, s2.tasks[p].(onArr := Some(a)), AddHead(s2, p, a));
      hide CoreOf, SameCores, AddTail, AddHead, Unlink;
      SameCoresTrans(s, s1, s2);
      SameCoresTrans(s, s2, AddHead(s2, p, a));
    }
  }

  lemma ActivateCores(s: Sched, p: Id)
    requires p in s.tasks
    ensures SameCores(s, Activate(s, p))
  {
    var t := s.tasks[p];
    var t1 := WithSleepBonus(t, s.jiffies);
    assert CoreOf(t1) == CoreOf(t);
    hide CoreOf, WithSleepBonus, Enqueue, Home;
    var s1 := Upd(s, p, t1);
    UpdCores(s, p, t1, s1);
    EnqueueCores(s1, p, Home(t, s.active));
    SameCoresTrans(s, s1, Activate(s, p));
  }

  lemma ReschedCores(s: Sched)
    ensures SameCores(s, ReschedCurr(s))
  {
    if s.curr in s.tasks {
      UpdCores(s, s.curr, s.tasks[s.curr].(needResched := true), ReschedCurr(s));
    }
  }

  lemma PutPrevCores(s: Sched, signal: bool)
    ensures SameCores(s, PutPrev(s, signal))
  {
    if s.curr in s.tasks {
      UpdCores(s, s.curr, PutPrev(s, signal).tasks[s.curr], PutPrev(s, signal));
    }
  }

  lemma PutPrevFlags(s: Sched, signal: bool)
    ensures var s1 := PutPrev(s, signal);
            && s1.tasks.Keys == s.tasks.Keys && s1.curr == s.curr && s1.idleResched == s.idleResched
            && s1.active == s.active && s1.jiffies == s.jiffies
            && (forall x :: x in s.tasks ==> s1.tasks[x].needResched == s.tasks[x].needResched)
  {
    hide Without, Row;
    if s.curr in s.tasks {
      assert PutPrev(s, signal).tasks == s.tasks[s.curr := PutPrev(s, signal).tasks[s.curr]];
    }
  }

  ghost predicate SameTaskCores(s: Sched, s': Sched) {
    && s'.tasks.Keys == s.tasks.Keys
    && forall x :: x in s.tasks ==> CoreOf(s'.tasks[x]) == CoreOf(s.tasks[x])
  }

  lemma PickNextTasks(s: Sched)
    ensures PickNext(s).0.tasks == s.tasks && PickNext(s).0.curr == s.curr
  {
    hide FindRow;
  }

  lemma SwitchToCores(s: Sched, next: Id)
    ensures SameTaskCores(s, SwitchTo(s, next))
  {
    if s.curr in s.tasks {
      var t := s.tasks[s.curr].(needResched := false);
      assert CoreOf(t) == CoreOf(s.tasks[s.curr]);
      hide CoreOf;
    }
  }

  /** schedule changes the current task but no core. */
  lemma ScheduleCores(s: Sched, signal: bool)
    ensures SameTaskCores(s, Schedule(s, signal))
  {
    hide PutPrev, PickNext, SwitchTo, CoreOf;
    PutPrevCores(s, signal);
    PickNextTasks(PutPrev(s, signal));
    var (s1, next) := PickNext(PutPrev(s, signal));
    SwitchToCores(s1, next);
  }

  lemma WokenCores(s: Sched, p: Id)
    requires p in s.tasks
    ensures SameCores(s, Woken(s, p))
  {
    hide Activate, ReschedCurr, CoreOf;
    ActivateCores(s, p);
    ReschedCores(Activate(s, p));
  }

  lemma WakeCores(s: Sched, p: Id)
    requires p in s.tasks
    ensures SameCores(s, TryToWakeUp(s, p).0)
  {
    WokenCores(s, p);
    var s1 := if s.tasks[p].onArr == None then Woken(s, p) else s;
    hide Woken;
    UpdCores(s1, p, s1.tasks[p].(state := Running), TryToWakeUp(s, p).0);
    hide CoreOf;
  }

  lemma YieldCores(s: Sched)
    requires s.curr in s.tasks && s.tasks[s.curr].onArr.Some?
    ensures SameCores(s, YieldQueue(s))
  {
    var t := s.tasks[s.curr];
    if !RtTask(t) {
      UpdCores(s, s.curr, YieldQueue(s).tasks[s.curr], YieldQueue(s));
    }
  }

  // ---------------------------------------------------------------- tick, fork, nice, setscheduler

  /** The record of a task charged with one tick. */
  function TickedTask(t: Task, expired: bool): Task {
    if expired then t
    else if RtTask(t) then
      if t.policy != Rr then t
      else if t.timeSlice != 1 then t.(timeSlice := t.timeSlice - 1)
      else t.(timeSlice := TaskTimeslice(t), firstTimeSlice := false)
    else if t.timeSlice != 1 then t.(timeSlice := t.timeSlice - 1)
    else Refilled(t.(sleepAvg := TickedSleepAvg(t)))
  }

  /** The state in which only the record of `p` is replaced. */
  ghost predicate CoreReplaced(s: Sched, p: Id, t: Task, s': Sched) {
    && p in s.tasks
    && s'.tasks.Keys == s.tasks.Keys
    && s'.curr == s.curr
    && CoreOf(s'.tasks[p]) == CoreOf(t)
    && forall x :: x in s.tasks && x != p ==> CoreOf(s'.tasks[x]) == CoreOf(s.tasks[x])
  }

  lemma ReplacedThenSame(s: Sched, p: Id, t: Task, s1: Sched, s2: Sched)
    requires p in s.tasks && s1.tasks == s.tasks[p := t] && s1.curr == s.curr
    requires SameCores(s1, s2)
    ensures CoreReplaced(s, p, t, s2)
  {
    hide CoreOf;
  }

  lemma CoreReplacedBy(s: Sched, p: Id, t: Task, t': Task, s': Sched)
    requires CoreReplaced(s, p, t', s') && CoreOf(t') == CoreOf(t)
    ensures CoreReplaced(s, p, t, s')
  {
    hide CoreOf;
  }

  lemma RrSliceEndCores(s: Sched)
    requires s.curr in s.tasks
    ensures var t := s.tasks[s.curr];
            CoreReplaced(s, s.curr, t.(timeSlice := TaskTimeslice(t), firstTimeSlice := false), RrSliceEnd(s))
  {
    hide Enqueue, TaskTimeslice, Home;
    var p := s.curr;
    var t := s.tasks[p];
    var t1 := t.(timeSlice := TaskTimeslice(t), firstTimeSlice := false, needResched := true);
    var a := Home(t, s.active);
    var s1 := Unlink(Upd(s, p, t1), p, a);
    EnqueueCores(s1, p, a);
    ReplacedThenSame(s, p, t1, s1, RrSliceEnd(s));
    CoreReplacedBy(s, p, t.(timeSlice := TaskTimeslice(t), firstTimeSlice := false), t1, RrSliceEnd(s));
  }

  lemma SchedulerTickCores(s: Sched)
    requires s.curr in s.tasks
    ensures CoreReplaced(s, s.curr, TickedTask(s.tasks[s.curr], s.tasks[s.curr].onArr == Some(Expired(s))), SchedulerTick(s))
  {
    hide RrSliceEnd, SliceEnd, Refilled, TaskTimeslice;
    var p := s.curr;
    var t := s.tasks[p];
    if t.onArr != Some(Expired(s)) && RtTask(t) && t.policy == Rr && t.timeSlice == 1 {
      RrSliceEndCores(s);
    } else if t.onArr != Some(Expired(s)) && !RtTask(t) && t.timeSlice == 1 {
      SliceEndCores(s);
    }
  }

  lemma SliceEndCores(s: Sched)
    requires s.curr in s.tasks
    ensures CoreReplaced(s, s.curr, Refilled(s.tasks[s.curr].(sleepAvg := TickedSleepAvg(s.tasks[s.curr]))), SliceEnd(s))
  {
    var p := s.curr;
    var t := s.tasks[p];
    var t1 := Refilled(t.(sleepAvg := TickedSleepAvg(t)));
    var t2 := t1.(needResched := true);
    assert CoreOf(t2) == CoreOf(t1);
    hide Refilled, CoreOf;
    var s1 := Upd(Unlink(s, p, Home(t, s.active)), p, t2);
    var s2 := if s.expiredStamp == 0 then s1.(expiredStamp := s.jiffies) else s1;
    EnqueueCores(s2, p, Expired(s));
    EnqueueCores(s1, p, Home(t2, s.active));
    hide Enqueue;
    if t2.policy == Other && (!Interactive(t2) || ExpiredStarving(s)) {
      ReplacedThenSame(s, p, t2, s2, SliceEnd(s));
    } else {
      ReplacedThenSame(s, p, t2, s1, SliceEnd(s));
    }
    CoreReplacedBy(s, p, t1, t2, SliceEnd(s));
  }

  /** The parent's record after the slice split and the forced tick. */
  function ForkedParent(s: Sched): Task
    requires s.curr in s.tasks
  {
    var t := s.tasks[s.curr];
    var par := SplitSlice(t).0;
    if par.timeSlice == 0 then TickedTask(par.(justGotForked := false, timeSlice := 1), t.onArr == Some(Expired(s)))
    else par
  }

  lemma ForkParentCores(s: Sched)
    requires s.curr in s.tasks
    ensures CoreReplaced(s, s.curr, ForkedParent(s), ForkParent(s))
  {
    var par := SplitSlice(s.tasks[s.curr]).0;
    assert par.onArr == s.tasks[s.curr].onArr;
    if par.timeSlice == 0 {
      hide SchedulerTick, TickedTask, CoreOf;
      var s1 := Upd(s, s.curr, par.(justGotForked := false, timeSlice := 1));
      SchedulerTickCores(s1);
    }
  }

  lemma ForkCores(s: Sched, child: Id)
    requires s.curr in s.tasks && child !in s.tasks
    ensures var s' := Fork(s, child);
            && s'.tasks.Keys == s.tasks.Keys + {child}
            && CoreOf(s'.tasks[child]) == CoreOf(NewChild(s))
            && CoreOf(s'.tasks[s.curr]) == CoreOf(ForkedParent(s))
            && forall x :: x in s.tasks && x != s.curr ==> CoreOf(s'.tasks[x]) == CoreOf(s.tasks[x])
  {
    hide Activate, ForkParent, ForkedParent, NewChild, CoreOf;
    ForkParentCores(s);
    var s1 := Upd(ForkParent(s), child, NewChild(s));
    ActivateCores(s1, child);
    ReschedCores(Activate(s1, child));
  }

  /** The record after set_user_nice. */
  function NicedTask(t: Task, nice: int): Task {
    if PrioToNice(t.staticPrio) == nice || nice < -20 || nice > 19 then t
    else if !RtTask(t) && OverdueTask(t) then t.(overdueStaticPrio := NiceToPrio(nice))
    else t.(staticPrio := NiceToPrio(nice))
  }

  lemma NicedCore(t: Task, nice: int)
    requires PrioToNice(t.staticPrio) != nice && -20 <= nice <= 19 && !RtTask(t) && !OverdueTask(t)
    ensures CoreOf(t.(staticPrio := NiceToPrio(nice), prio := NiceToPrio(nice))) == CoreOf(NicedTask(t, nice))
  {
  }

  lemma NiceCores(s: Sched, p: Id, nice: int)
    requires p in s.tasks
    ensures CoreReplaced(s, p, NicedTask(s.tasks[p], nice), SetUserNice(s, p, nice))
  {
    var t := s.tasks[p];
    if PrioToNice(t.staticPrio) == nice || nice < -20 || nice > 19 {
    } else if t.onArr.Some? && !RtTask(t) && !OverdueTask(t) {
      hide CoreOf, Enqueue, Unlink;
      var t1 := t.(staticPrio := NiceToPrio(nice), prio := NiceToPrio(nice));
      NicedCore(t, nice);
      UnlinkTasks(s, p, t.onArr.value);
      var s1 := Upd(Unlink(s, p, t.onArr.value), p, t1);
      var s2 := Enqueue(s1, p, t.onArr.value);
      EnqueueCores(s1, p, t.onArr.value);
      ReschedCores(s2);
      ReplacedThenSame(s, p, t1, s1, s2);
      CoreReplacedBy(s, p, NicedTask(t, nice), t1, s2);
    }
  }

  lemma UnlinkTasks(s: Sched, p: Id, a: Arr)
    requires p in s.tasks
    ensures Unlink(s, p, a).tasks == s.tasks && Unlink(s, p, a).curr == s.curr
  {
  }

  lemma RequeueCores(s: Sched, p: Id, t: Task)
    requires p in s.tasks
    ensures CoreReplaced(s, p, t, Requeue(s, p, t))
  {
    if s.tasks[p].onArr.Some? {
      var t1 := t.(onArr := None);
      assert CoreOf(t1) == CoreOf(t);
      hide Activate, CoreOf;
      var s1 := Upd(Deactivate(s, p), p, t1);
      ActivateCores(s1, p);
      assert s1.tasks == s.tasks[p := t1];
      ReplacedThenSame(s, p, t1, s1, Activate(s1, p));
      CoreReplacedBy(s, p, t, t1, Activate(s1, p));
    }
  }

  /** The record of the target after setscheduler. */
  function JudgedTask(t: Task, r: Request): Task {
    match Judge(t, r)
    case Refuse(_) => t
    case ChangeShort(t1) => t1
    case MakeShort(t1) => t1
    case Reclass(t1) => t1
  }

  /** The request reaches the task `p`. */
  predicate Reaches(s: Sched, r: Request, p: Id) {
    r.paramOk && r.pid >= 0 && r.copyOk && p in s.tasks && Target(s, r) == p
  }

  lemma SetSchedulerCores(s: Sched, r: Request)
    requires s.curr in s.tasks
    ensures var p := Target(s, r);
            if Reaches(s, r, p) then CoreReplaced(s, p, JudgedTask(s.tasks[p], r), SetScheduler(s, r).0)
            else SetScheduler(s, r).0 == s
  {
    hide Judge, Requeue, CoreOf, ReschedCurr;
    var p := Target(s, r);
    if Reaches(s, r, p) {
      var t1 := JudgedTask(s.tasks[p], r);
      RequeueCores(s, p, t1);
      match Judge(s.tasks[p], r)
      case Refuse(_) =>
      case ChangeShort(_) =>
        ReschedCores(Upd(s, p, t1));
        ReplacedThenSame(s, p, t1, Upd(s, p, t1), ReschedCurr(Upd(s, p, t1)));
      case MakeShort(_) =>
        ReschedCores(Requeue(s, p, t1));
      case Reclass(_) =>
    }
  }

  // ---------------------------------------------------------------- all steps

  /** The record of a task that was there before a step, as far as its core is concerned. */
  function NextRecord(s: Sched, e: Event, x: Id): Task
    requires Enabled(s, e) && x in s.tasks
  {
    var t := s.tasks[x];
    match e
    case Tick => if x == s.curr then TickedTask(t, t.onArr == Some(Expired(s))) else t
    case Clone(_) => if x == s.curr then ForkedParent(s) else t
    case Exit(c) =>
      var t1 := if x == s.curr then AfterReap(t, s.tasks[c]) else t;
      if t.parent == c then t1.(parent := IDLE) else t1
    case Renice(p, nice) => if x == p then NicedTask(t, nice) else t
    case SetPolicy(r) => if Reaches(s, r, x) then JudgedTask(t, r) else t
    case _ => t
  }

  /** Which tasks exist after a step. */
  function NextKeys(s: Sched, e: Event): set<Id> {
    match e
    case Clone(c) => s.tasks.Keys + {c}
    case Exit(c) => s.tasks.Keys - {c}
    case _ => s.tasks.Keys
  }

  /** Every step, seen on the cores: which tasks exist afterwards and what each core becomes. */
  lemma StepCores(s: Sched, e: Event)
    requires Enabled(s, e)
    ensures Step(s, e).tasks.Keys == NextKeys(s, e)
    ensures forall x :: x in s.tasks && x in NextKeys(s, e) ==>
              CoreOf(Step(s, e).tasks[x]) == CoreOf(NextRecord(s, e, x))
    ensures e.Clone? ==> CoreOf(Step(s, e).tasks[e.child]) == CoreOf(NewChild(s))
  {
    hide SchedulerTick, Schedule, TryToWakeUp, Fork, YieldQueue, SetUserNice, SetScheduler,
      TickedTask, NicedTask, JudgedTask, ForkedParent, NewChild, CoreOf, AfterReap, Reap;
    match e
    case Tick =>
      if s.curr in s.tasks {
        SchedulerTickCores(s.(jiffies := s.jiffies + 1));
      } else {
        TickIdle(s);
      }
    case Resched(signal) => ScheduleCores(s, signal);
    case SetState(state) => SetStateCores(s, state);
    case Wake(p) => WakeCores(s, p);
    case Clone(c) => ForkCores(s, c);
    case Exit(c) => ReapCores(s, c);
    case YieldCpu(signal) =>
      YieldCores(s);
      ScheduleCores(YieldQueue(s), signal);
    case Renice(p, nice) => NiceCores(s, p, nice);
    case SetPolicy(r) => SetSchedulerCores(s, r);
  }

  lemma SetStateCores(s: Sched, state: RunState)
    requires s.curr in s.tasks
    ensures SameCores(s, Upd(s, s.curr, s.tasks[s.curr].(state := state)))
  {
    UpdCores(s, s.curr, s.tasks[s.curr].(state := state), Upd(s, s.curr, s.tasks[s.curr].(state := state)));
  }

  lemma ReapCores(s: Sched, c: Id)
    requires Enabled(s, Exit(c))
    ensures Reap(s, c).tasks.Keys == s.tasks.Keys - {c}
    ensures forall x :: x in s.tasks && x != c ==> Reap(s, c).tasks[x] == NextRecord(s, Exit(c), x)
  {
    hide AfterReap;
    AfterReapParent(s.tasks[s.curr], s.tasks[c]);
  }

  lemma AfterReapParent(t: Task, c: Task)
    ensures AfterReap(t, c).parent == t.parent
  {
  }

  lemma TickIdle(s: Sched)
    requires s.curr !in s.tasks
    ensures TimerTick(s) == s.(jiffies := s.jiffies + 1)
  {
  }
}
