/** The scheduler as a specification state machine: one sequence of task identifiers per priority
    array and priority, one record per task, and one function per kernel entry point.
    There is no bitmap, no counter and no link here; `RunQueue.dfy` refines these functions. */
module SchedModel {
  import opened Params
  import opened Rows

  datatype Option<+T> = None | Some(value: T)

  /** The idle task never enters a run list and has no record. */
  const IDLE: Id := 0

  datatype Policy = Other | Fifo | Rr | Short

  datatype RunState = Running | Interruptible | Uninterruptible | Zombie | Stopped

  /** The four priority arrays of a runqueue: `arrays[0]`, `arrays[1]` and the two course additions. */
  datatype Arr = A0 | A1 | RtShort | Overdue

  datatype Task = Task(
    policy: Policy,
    prio: int,
    staticPrio: int,
    onArr: Option<Arr>,
    state: RunState,
    needResched: bool,
    sleepAvg: int,
    sleepTimestamp: int,
    timeSlice: int,
    firstTimeSlice: bool,
    parent: Id,
    rtPriority: int,
    requestedTime: int,
    iAmOverdue: bool,
    iWasShort: bool,
    overdueStaticPrio: int,
    justGotForked: bool)

  datatype Cell = Cell(arr: Arr, prio: int)

  datatype Sched = Sched(
    tasks: map<Id, Task>,
    rows: map<Cell, seq<Id>>,
    active: Arr,
    curr: Id,
    idleResched: bool,
    expiredStamp: int,
    jiffies: int)

  // ---------------------------------------------------------------- classification of tasks

  predicate ShortTask(t: Task) {
    t.policy == Short && !t.iAmOverdue
  }

  predicate OverdueTask(t: Task) {
    t.policy == Short && t.iAmOverdue
  }

  predicate RtTask(t: Task) {
    t.prio < MAX_RT_PRIO
  }

  function OtherArray(a: Arr): Arr {
    if a == A0 then A1 else A0
  }

  function Expired(s: Sched): Arr {
    OtherArray(s.active)
  }

  /** pointer_to_my_active_prio_array */
  function Home(t: Task, active: Arr): Arr {
    if ShortTask(t) || RtTask(t) then RtShort
    else if OverdueTask(t) then Overdue
    else active
  }

  /** TASK_TIMESLICE */
  function TaskTimeslice(t: Task): int {
    MIN_TIMESLICE + TruncDiv((MAX_TIMESLICE - MIN_TIMESLICE) * (MAX_PRIO - 1 - t.staticPrio), 39)
  }

  /** OS_TASK_TIMESLICE */
  function FreshSlice(t: Task): int {
    if ShortTask(t) then t.requestedTime
    else if OverdueTask(t) then 2 * t.requestedTime
    else TaskTimeslice(t)
  }

  function EffectivePrio(t: Task): int {
    if ShortTask(t) then t.staticPrio
    else if OverdueTask(t) then OVERDUE_PRIO
    else
      var bonus := TruncDiv(TruncDiv(1000 * t.sleepAvg, MAX_SLEEP_AVG), 100) - 5;
      Min(MAX_PRIO - 1, Max(MAX_RT_PRIO, t.staticPrio - bonus))
  }

  /** TASK_INTERACTIVE */
  predicate Interactive(t: Task) {
    t.prio <= t.staticPrio - (TruncDiv(PrioToNice(t.staticPrio) * 10, 40) + INTERACTIVE_DELTA)
  }

  // ---------------------------------------------------------------- rows and records

  function Row(s: Sched, a: Arr, k: int): seq<Id> {
    if Cell(a, k) in s.rows then s.rows[Cell(a, k)] else []
  }

  function SetRow(s: Sched, a: Arr, k: int, r: seq<Id>): Sched {
    s.(rows := s.rows[Cell(a, k) := r])
  }

  function Upd(s: Sched, p: Id, t: Task): Sched {
    s.(tasks := s.tasks[p := t])
  }

  /** Number of tasks queued at priorities 0..n-1 of one array. */
  function LenTo(s: Sched, a: Arr, n: nat): nat {
    if n == 0 then 0 else LenTo(s, a, n - 1) + |Row(s, a, n - 1)|
  }

  function Len(s: Sched, a: Arr): nat {
    LenTo(s, a, MAX_PRIO)
  }

  function NrRunning(s: Sched): nat {
    Len(s, A0) + Len(s, A1) + Len(s, RtShort) + Len(s, Overdue)
  }

  /** The lowest priority from `k` on with a queued task, or MAX_PRIO. */
  function FindRow(s: Sched, a: Arr, k: nat): (r: nat)
    requires k <= MAX_PRIO
    ensures k <= r <= MAX_PRIO
    ensures r < MAX_PRIO ==> Row(s, a, r) != []
    ensures forall j :: k <= j < r ==> Row(s, a, j) == []
    decreases MAX_PRIO - k
  {
    if k == MAX_PRIO || Row(s, a, k) != [] then k else FindRow(s, a, k + 1)
  }

  // ---------------------------------------------------------------- queue operations

  function Unlink(s: Sched, p: Id, a: Arr): Sched
    requires p in s.tasks
  {
    SetRow(s, a, s.tasks[p].prio, Without(Row(s, a, s.tasks[p].prio), p))
  }

  function AddTail(s: Sched, p: Id, a: Arr): Sched
    requires p in s.tasks
  {
    var t := s.tasks[p];
    Upd(SetRow(s, a, t.prio, Row(s, a, t.prio) + [p]), p, t.(onArr := Some(a)))
  }

  function AddHead(s: Sched, p: Id, a: Arr): Sched
    requires p in s.tasks
  {
    var t := s.tasks[p];
    Upd(SetRow(s, a, t.prio, [p] + Row(s, a, t.prio)), p, t.(onArr := Some(a)))
  }

  /** The guard of the child-first branch of enqueue_task. */
  predicate ForkBranch(s: Sched, p: Id)
    requires p in s.tasks
  {
    && s.curr in s.tasks
    && s.tasks[s.curr].policy == Short
    && s.tasks[s.curr].justGotForked
    && !s.tasks[p].iAmOverdue
    && s.tasks[p].parent in s.tasks
    && s.tasks[s.tasks[p].parent].justGotForked
  }

  /** enqueue_task.  In the child-first branch the parent goes to the tail of its own row and the
      task to the head of its row. */
  function Enqueue(s: Sched, p: Id, a: Arr): Sched
    requires p in s.tasks
  {
    if ForkBranch(s, p) then
      var par := s.tasks[p].parent;
      var s1 := Upd(s, par, s.tasks[par].(justGotForked := false));
      var s2 := AddTail(Unlink(s1, par, a), par, a);
      AddHead(s2, p, a)
    else
      AddTail(s, p, a)
  }

  /** The task record after the sleep bonus of activate_task. */
  function WithSleepBonus(t: Task, jiffies: int): Task {
    if !RtTask(t) && jiffies != t.sleepTimestamp then
      var t1 := t.(sleepAvg := Min(t.sleepAvg + (jiffies - t.sleepTimestamp), MAX_SLEEP_AVG));
      t1.(prio := EffectivePrio(t1))
    else
      t
  }

  /** activate_task */
  function Activate(s: Sched, p: Id): (r: Sched)
    requires p in s.tasks
    ensures p in r.tasks
  {
    var t := s.tasks[p];
    Enqueue(Upd(s, p, WithSleepBonus(t, s.jiffies)), p, Home(t, s.active))
  }

  /** deactivate_task */
  function Deactivate(s: Sched, p: Id): Sched
    requires p in s.tasks && s.tasks[p].onArr.Some?
  {
    Upd(Unlink(s, p, s.tasks[p].onArr.value), p, s.tasks[p].(onArr := None))
  }

  /** set_tsk_need_resched on the current task, which may be the idle task. */
  function ReschedCurr(s: Sched): Sched {
    if s.curr in s.tasks then Upd(s, s.curr, s.tasks[s.curr].(needResched := true))
    else s.(idleResched := true)
  }

  function CurrPrio(s: Sched): int {
    if s.curr in s.tasks then s.tasks[s.curr].prio else MAX_PRIO
  }

  // ---------------------------------------------------------------- the timer tick

  /** EXPIRED_STARVING */
  predicate ExpiredStarving(s: Sched) {
    s.expiredStamp != 0 && s.jiffies - s.expiredStamp >= STARVATION_LIMIT * NrRunning(s) + 1
  }

  /** The class a task goes to when its slice has run out: SHORT becomes overdue, overdue becomes OTHER. */
  function NextClass(t: Task): Task {
    if OverdueTask(t) then
      t.(policy := Other, iAmOverdue := false, staticPrio := t.overdueStaticPrio,
         requestedTime := INVALID_REQUESTED_TIME)
    else if ShortTask(t) then
      t.(iAmOverdue := true, overdueStaticPrio := t.staticPrio, staticPrio := OVERDUE_PRIO)
    else t
  }

  /** The record of a non-real-time task whose slice has just run out, refilled for its new class. */
  function Refilled(t: Task): Task {
    var t1 := NextClass(t);
    var t2 := t1.(prio := EffectivePrio(t1), firstTimeSlice := false);
    t2.(timeSlice := FreshSlice(t2))
  }

  /** A round-robin task whose slice has run out goes to the tail of its row with a new slice. */
  function RrSliceEnd(s: Sched): Sched
    requires s.curr in s.tasks
  {
    var p := s.curr;
    var t := s.tasks[p];
    var t1 := t.(timeSlice := TaskTimeslice(t), firstTimeSlice := false, needResched := true);
    var a := Home(t, s.active);
    Enqueue(Unlink(Upd(s, p, t1), p, a), p, a)
  }

  function TickedSleepAvg(t: Task): int {
    if t.sleepAvg != 0 then t.sleepAvg - 1 else 0
  }

  /** A task that is not real-time and whose slice has run out changes class and array. */
  function SliceEnd(s: Sched): Sched
    requires s.curr in s.tasks
  {
    var p := s.curr;
    var t := s.tasks[p];
    var t2 := Refilled(t.(sleepAvg := TickedSleepAvg(t))).(needResched := true);
    var s1 := Upd(Unlink(s, p, Home(t, s.active)), p, t2);
    if t2.policy == Other && (!Interactive(t2) || ExpiredStarving(s)) then
      var s2 := if s.expiredStamp == 0 then s1.(expiredStamp := s.jiffies) else s1;
      Enqueue(s2, p, Expired(s))
    else
      Enqueue(s1, p, Home(t2, s.active))
  }

  /** scheduler_tick */
  function SchedulerTick(s: Sched): Sched {
    if s.curr !in s.tasks then s else
    var p := s.curr;
    var t := s.tasks[p];
    if t.onArr == Some(Expired(s)) then
      Upd(s, p, t.(needResched := true))
    else if RtTask(t) then
      if t.policy != Rr then s
      else if t.timeSlice != 1 then Upd(s, p, t.(timeSlice := t.timeSlice - 1))
      else RrSliceEnd(s)
    else if t.timeSlice != 1 then
      Upd(s, p, t.(sleepAvg := TickedSleepAvg(t), timeSlice := t.timeSlice - 1))
    else
      SliceEnd(s)
  }

  /** A timer interrupt: the clock advances, then scheduler_tick runs. */
  function TimerTick(s: Sched): Sched {
    SchedulerTick(s.(jiffies := s.jiffies + 1))
  }

  // ---------------------------------------------------------------- schedule

  /** The first half of schedule: a task that is no longer runnable leaves its array, unless it
      sleeps interruptibly with a signal pending. */
  function PutPrev(s: Sched, signal: bool): Sched {
    if s.curr !in s.tasks then s else
    var t := s.tasks[s.curr].(sleepTimestamp := s.jiffies);
    if t.state == Running || t.onArr == None then Upd(s, s.curr, t)
    else if t.state == Interruptible && signal then Upd(s, s.curr, t.(state := Running))
    else Deactivate(Upd(s, s.curr, t), s.curr)
  }

  /** The choice of the next task and the array switch. */
  function PickNext(s: Sched): (Sched, Id) {
    var rs := FindRow(s, RtShort, 0);
    var ac := FindRow(s, s.active, 0);
    var ex := FindRow(s, Expired(s), 0);
    var ov := FindRow(s, Overdue, 0);
    if rs < MAX_PRIO then (s, Row(s, RtShort, rs)[0])
    else if ac < MAX_PRIO then (s, Row(s, s.active, ac)[0])
    else if ex < MAX_PRIO then
      (s.(active := Expired(s), expiredStamp := 0), Row(s, Expired(s), ex)[0])
    else if ov < MAX_PRIO then (s, Row(s, Overdue, ov)[0])
    else (s.(expiredStamp := 0), IDLE)
  }

  /** clear_tsk_need_resched on the task switched away from, and the switch. */
  function SwitchTo(s: Sched, next: Id): Sched {
    var s1 := if s.curr in s.tasks then Upd(s, s.curr, s.tasks[s.curr].(needResched := false))
              else s.(idleResched := false);
    s1.(curr := next)
  }

  /** One pass of schedule. */
  function Schedule(s: Sched, signal: bool): Sched {
    var (s1, next) := PickNext(PutPrev(s, signal));
    SwitchTo(s1, next)
  }

  // ---------------------------------------------------------------- wake, fork, reap

  /** Activation, and preemption if the woken task has a better priority than the current one. */
  function Woken(s: Sched, p: Id): (r: Sched)
    requires p in s.tasks
    ensures p in r.tasks
  {
    var s1 := Activate(s, p);
    if s1.tasks[p].prio < CurrPrio(s1) then ReschedCurr(s1) else s1
  }

  /** try_to_wake_up: the new state and whether the task was put on the runqueue. */
  function TryToWakeUp(s: Sched, p: Id): (Sched, bool)
    requires p in s.tasks
  {
    if s.tasks[p].onArr == None then
      var s1 := Woken(s, p);
      (Upd(s1, p, s1.tasks[p].(state := Running)), true)
    else
      (Upd(s, p, s.tasks[p].(state := Running)), false)
  }

  /** The two halves of the slice split in do_fork: (parent, child). */
  function SplitSlice(t: Task): (Task, Task) {
    if t.policy == Short then
      if ShortTask(t) then
        (t.(timeSlice := t.timeSlice / 2, justGotForked := true),
         t.(timeSlice := t.timeSlice / 2 + t.timeSlice % 2, firstTimeSlice := true))
      else
        (t, t.(firstTimeSlice := true))
    else
      (t.(timeSlice := t.timeSlice / 2), t.(timeSlice := (t.timeSlice + 1) / 2, firstTimeSlice := true))
  }

  /** The slice split, and the forced tick of a parent that has nothing left. */
  function ForkParent(s: Sched): Sched
    requires s.curr in s.tasks
  {
    var par := SplitSlice(s.tasks[s.curr]).0;
    if par.timeSlice == 0 then
      SchedulerTick(Upd(s, s.curr, par.(justGotForked := false, timeSlice := 1)))
    else
      Upd(s, s.curr, par)
  }

  /** The child's record when wake_up_forked_process hands it to activate_task. */
  function NewChild(s: Sched): Task
    requires s.curr in s.tasks
  {
    var c := SplitSlice(s.tasks[s.curr]).1
             .(onArr := None, state := Running, sleepTimestamp := s.jiffies, parent := s.curr);
    if RtTask(c) then c
    else
      var c1 := c.(sleepAvg := c.sleepAvg * CHILD_PENALTY / 100);
      c1.(prio := EffectivePrio(c1))
  }

  /** do_fork from the slice split to its end, for a fork without CLONE_PARENT, CLONE_VFORK
      or CLONE_PID. */
  function Fork(s: Sched, child: Id): Sched
    requires s.curr in s.tasks && child !in s.tasks
  {
    var s1 := Activate(Upd(ForkParent(s), child, NewChild(s)), child);
    if s1.curr in s1.tasks && OverdueTask(s1.tasks[s1.curr]) then s1 else ReschedCurr(s1)
  }

  /** The parent's record after sched_exit(child). */
  function AfterReap(t: Task, child: Task): Task {
    var t1 := if child.firstTimeSlice then t.(timeSlice := Min(t.timeSlice + child.timeSlice, MAX_TIMESLICE)) else t;
    if child.sleepAvg < t1.sleepAvg then
      t1.(sleepAvg := (t1.sleepAvg * EXIT_WEIGHT + child.sleepAvg) / (EXIT_WEIGHT + 1))
    else t1
  }

  /** sched_exit, and the removal of the dead task's record.  Its children keep no forker. */
  function Reap(s: Sched, child: Id): Sched
    requires s.curr in s.tasks && child in s.tasks && child != s.curr
  {
    var t := AfterReap(s.tasks[s.curr], s.tasks[child]);
    var all := s.tasks[s.curr := t];
    s.(tasks := map p | p in all && p != child ::
         if all[p].parent == child then all[p].(parent := IDLE) else all[p])
  }

  // ---------------------------------------------------------------- yield and nice

  function InsertSecond(r: seq<Id>, p: Id): seq<Id> {
    if r == [] then [p] else [r[0], p] + r[1..]
  }

  /** The row a yielding task that is not real-time goes to, `s` being the state without it. */
  function YieldRow(s: Sched, a: Arr, prio: int): int {
    if Row(s, a, prio) != [] then prio
    else
      var i := FindRow(s, a, 0);
      if i == MAX_PRIO || i <= prio then prio else i
  }

  /** sys_sched_yield up to its call of schedule. */
  function YieldQueue(s: Sched): Sched
    requires s.curr in s.tasks && s.tasks[s.curr].onArr.Some?
  {
    var p := s.curr;
    var t := s.tasks[p];
    var a := t.onArr.value;
    var s1 := Unlink(s, p, a);
    if RtTask(t) then SetRow(s1, a, t.prio, Row(s1, a, t.prio) + [p])
    else
      var i := YieldRow(s1, a, t.prio);
      Upd(SetRow(s1, a, i, InsertSecond(Row(s1, a, i), p)), p, t.(prio := i))
  }

  /** set_user_nice */
  function SetUserNice(s: Sched, p: Id, nice: int): Sched
    requires p in s.tasks
  {
    var t := s.tasks[p];
    if PrioToNice(t.staticPrio) == nice || nice < -20 || nice > 19 then s
    else if RtTask(t) then Upd(s, p, t.(staticPrio := NiceToPrio(nice)))
    else if OverdueTask(t) then Upd(s, p, t.(overdueStaticPrio := NiceToPrio(nice)))
    else
      var t1 := t.(staticPrio := NiceToPrio(nice), prio := NiceToPrio(nice));
      match t.onArr
      case None => Upd(s, p, t1)
      case Some(a) =>
        var s1 := Enqueue(Upd(Unlink(s, p, a), p, t1), p, a);
        if p == s.curr then ReschedCurr(s1) else s1
  }

  // ---------------------------------------------------------------- setscheduler

  /** The arguments of setscheduler and what it asks of its surroundings.  `policy` is -1 for
      sched_setparam; `policyCode` 0, 1, 2 and 5 name the four policies. */
  datatype Request = Request(
    pid: int,
    policyCode: int,
    schedPriority: int,
    requestedMs: int,
    paramOk: bool,
    copyOk: bool,
    euidMatches: bool,
    callerIsRoot: bool,
    euidMatchesUid: bool,
    capSysNice: bool)

  const EPERM := 1
  const ESRCH := 3
  const EFAULT := 14
  const EINVAL := 22

  function DecodePolicy(code: int): Option<Policy> {
    if code == 0 then Some(Other) else if code == 1 then Some(Fifo)
    else if code == 2 then Some(Rr) else if code == 5 then Some(Short) else None
  }

  /** The SHORT-to-SHORT test, an unsigned comparison of 32-bit words. */
  predicate ShortChangeAccepted(t: Task, ms: int) {
    ms <= MAX_REQUEST_MS && U32(MsToJiffies(ms)) > U32(t.requestedTime - t.timeSlice)
  }

  /** A SHORT task with a new request; the slice is an unsigned 32-bit word. */
  function ShortChanged(t: Task, ms: int): Task {
    t.(requestedTime := MsToJiffies(ms), timeSlice := U32(t.timeSlice + (MsToJiffies(ms) - t.requestedTime)))
  }

  /** The decision of setscheduler for target `t`: an error code, or the new record. */
  datatype Verdict = Refuse(errno: int) | ChangeShort(changed: Task) | MakeShort(made: Task) | Reclass(classed: Task)

  function Judge(t: Task, r: Request): Verdict {
    var wanted := if r.policyCode < 0 then Some(t.policy) else DecodePolicy(r.policyCode);
    if wanted == None then Refuse(EINVAL)
    else if t.policy == Short then
      if wanted != Some(Short) then Refuse(EPERM)
      else if !ShortChangeAccepted(t, r.requestedMs) then Refuse(EINVAL)
      else if !r.euidMatches && !r.callerIsRoot then Refuse(EPERM)
      else ChangeShort(ShortChanged(t, r.requestedMs))
    else if wanted == Some(Short) then
      if t.policy == Fifo || t.policy == Rr then Refuse(EINVAL)
      else if r.requestedMs > MAX_REQUEST_MS || MsToJiffies(r.requestedMs) < MIN_REQUESTED_TIME then Refuse(EINVAL)
      else if !r.euidMatches && !r.callerIsRoot then Refuse(EPERM)
      else
        var j := MsToJiffies(r.requestedMs);
        MakeShort(t.(policy := Short, requestedTime := j, iWasShort := true, timeSlice := j))
    else
      if r.schedPriority < 0 || r.schedPriority > MAX_USER_RT_PRIO - 1 then Refuse(EINVAL)
      else if (wanted == Some(Other)) != (r.schedPriority == 0) then Refuse(EINVAL)
      else if wanted != Some(Other) && !r.capSysNice then Refuse(EPERM)
      else if !r.euidMatches && !r.euidMatchesUid && !r.capSysNice then Refuse(EPERM)
      else
        Reclass(t.(policy := wanted.value, rtPriority := r.schedPriority,
                   prio := if wanted != Some(Other) then MAX_USER_RT_PRIO - 1 - r.schedPriority else t.staticPrio))
  }

  /** deactivate_task, the new record, activate_task; a task on no array only gets the record. */
  function Requeue(s: Sched, p: Id, t: Task): Sched
    requires p in s.tasks
  {
    if s.tasks[p].onArr == None then Upd(s, p, t)
    else Activate(Upd(Deactivate(s, p), p, t.(onArr := None)), p)
  }

  function Target(s: Sched, r: Request): Id {
    if r.pid <= 0 then s.curr else r.pid
  }

  /** setscheduler is about to accept a negative request for a task that is SHORT. */
  predicate AcceptsNegative(s: Sched, r: Request) {
    && r.paramOk && r.pid >= 0 && r.copyOk && Target(s, r) in s.tasks
    && r.requestedMs < 0 && Judge(s.tasks[Target(s, r)], r).ChangeShort?
  }

  /** setscheduler: the new state and the returned value. */
  function SetScheduler(s: Sched, r: Request): (Sched, int)
    requires s.curr in s.tasks
  {
    if !r.paramOk || r.pid < 0 then (s, -EINVAL)
    else if !r.copyOk then (s, -EFAULT)
    else if Target(s, r) !in s.tasks then (s, -ESRCH)
    else
      var p := Target(s, r);
      match Judge(s.tasks[p], r)
      case Refuse(errno) => (s, -errno)
      case ChangeShort(t) => (ReschedCurr(Upd(s, p, t)), 0)
      case MakeShort(t) => (ReschedCurr(Requeue(s, p, t)), 0)
      case Reclass(t) => (Requeue(s, p, t), 0)
  }

  // ---------------------------------------------------------------- boot

  ghost function AllCells(): set<Cell> {
    set a: Arr, k: int | 0 <= k < MAX_PRIO :: Cell(a, k)
  }

  /** INIT_TASK */
  function BootTask(): Task {
    Task(Other, MAX_PRIO - 20, MAX_PRIO - 20, None, Running, false, 0, 0, HZ, false, IDLE, 0,
         INVALID_REQUESTED_TIME, false, false, 0, false)
  }

  /** Four empty arrays and the boot task, which runs but is not queued yet. */
  ghost function Bare(first: Id, jiffies: int): Sched {
    Sched(map[first := BootTask()], map c | c in AllCells() :: [], A0, first, false, 0, jiffies)
  }

  /** sched_init up to its wake_up_process(current). */
  ghost function Boot(first: Id, jiffies: int): Sched {
    TryToWakeUp(Bare(first, jiffies), first).0
  }

  // ---------------------------------------------------------------- events and runs

  datatype Event =
    | Tick
    | Resched(signal: bool)
    | SetState(state: RunState)
    | Wake(target: Id)
    | Clone(child: Id)
    | Exit(child: Id)
    | YieldCpu(signal: bool)
    | Renice(target: Id, nice: int)
    | SetPolicy(request: Request)

  /** What the kernel demands before it takes a step. */
  ghost predicate Enabled(s: Sched, e: Event) {
    match e
    case Tick => true
    case Resched(_) => true
    case SetState(_) => s.curr in s.tasks
    case Wake(p) => p in s.tasks
    case Clone(c) => s.curr in s.tasks && c !in s.tasks && 0 < c < PID_MAX
    case Exit(c) =>
      && s.curr in s.tasks && c in s.tasks && c != s.curr
      && s.tasks[c].state == Zombie && s.tasks[c].onArr == None
    case YieldCpu(_) => s.curr in s.tasks && s.tasks[s.curr].onArr.Some?
    case Renice(p, _) => p in s.tasks
    case SetPolicy(r) => s.curr in s.tasks && !AcceptsNegative(s, r)
  }

  function Step(s: Sched, e: Event): Sched
    requires Enabled(s, e)
  {
    match e
    case Tick => TimerTick(s)
    case Resched(signal) => Schedule(s, signal)
    case SetState(state) => Upd(s, s.curr, s.tasks[s.curr].(state := state))
    case Wake(p) => TryToWakeUp(s, p).0
    case Clone(c) => Fork(s, c)
    case Exit(c) => Reap(s, c)
    case YieldCpu(signal) => Schedule(YieldQueue(s), signal)
    case Renice(p, nice) => SetUserNice(s, p, nice)
    case SetPolicy(r) => SetScheduler(s, r).0
  }

  /** Every event of a run is enabled where it happens. */
  ghost predicate Possible(s: Sched, es: seq<Event>)
    decreases |es|
  {
    es == [] || (Enabled(s, es[0]) && Possible(Step(s, es[0]), es[1..]))
  }

  ghost function Run(s: Sched, es: seq<Event>): Sched
    requires Possible(s, es)
    decreases |es|
  {
    if es == [] then s else Run(Step(s, es[0]), es[1..])
  }
}
