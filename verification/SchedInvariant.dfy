/** The runqueue invariant on the specification state, kept by every step and so by every run. */
module SchedInvariant {
  import opened Params
  import opened Rows
  import opened SchedModel

  /** A queued task is in the array of its class. */
  ghost predicate Placed(t: Task) {
    match t.onArr
    case None => true
    case Some(RtShort) => t.policy == Fifo || t.policy == Rr || ShortTask(t)
    case Some(Overdue) => OverdueTask(t)
    case Some(_) => t.policy == Other
  }

  /** rt_priority counts upwards, from 1 to 99, where `prio` counts downwards. */
  ghost predicate RtPriorityOk(t: Task) {
    if t.prio < MAX_RT_PRIO then t.rtPriority >= 1 && t.prio + t.rtPriority == MAX_USER_RT_PRIO - 1
    else t.rtPriority == 0
  }

  ghost predicate TaskOk(t: Task, jiffies: int) {
    && 0 <= t.prio < MAX_PRIO
    && (t.prio < MAX_RT_PRIO <==> t.policy == Fifo || t.policy == Rr)
    && RtPriorityOk(t)
    && MAX_RT_PRIO <= t.staticPrio < MAX_PRIO
    && 0 <= t.sleepAvg <= MAX_SLEEP_AVG
    && 1 <= t.timeSlice <= 6 * HZ
    && 0 <= t.requestedTime <= 3 * HZ
    && (if t.policy == Short then t.requestedTime >= 1 && t.iWasShort else t.requestedTime == INVALID_REQUESTED_TIME)
    && (t.iAmOverdue ==>
          && t.policy == Short
          && t.prio == OVERDUE_PRIO
          && t.staticPrio == OVERDUE_PRIO
          && MAX_RT_PRIO <= t.overdueStaticPrio < MAX_PRIO)
    && t.sleepTimestamp <= jiffies
    && Placed(t)
  }

  /** The rows hold exactly the queued tasks other than `hole`, each once, in the row of its array
      and priority; `hole` is in no row. */
  ghost predicate Queued(rows: map<Cell, seq<Id>>, tasks: map<Id, Task>, hole: Id) {
    && (forall c, p {:trigger p in rows[c]} :: c in rows && p in rows[c] ==>
          p != hole && p in tasks && tasks[p].onArr == Some(c.arr) && tasks[p].prio == c.prio)
    && (forall c :: c in rows ==> NoDup(rows[c]) && 0 <= c.prio < MAX_PRIO)
    && (forall p :: p in tasks && p != hole && tasks[p].onArr.Some? ==>
          var c := Cell(tasks[p].onArr.value, tasks[p].prio);
          c in rows && p in rows[c])
  }

  ghost predicate TasksOk(tasks: map<Id, Task>, jiffies: int) {
    && IDLE !in tasks
    && forall p :: p in tasks ==> p < PID_MAX && TaskOk(tasks[p], jiffies)
  }

  ghost predicate NoFork(tasks: map<Id, Task>) {
    forall p :: p in tasks ==> !tasks[p].justGotForked
  }

  ghost predicate CurrOk(s: Sched) {
    s.curr == IDLE || (s.curr in s.tasks && s.tasks[s.curr].onArr.Some?)
  }

  ghost predicate ClockOk(s: Sched) {
    && (s.active == A0 || s.active == A1)
    && s.jiffies >= 1
    && 0 <= s.expiredStamp <= s.jiffies
  }

  ghost predicate Inv(s: Sched) {
    && TasksOk(s.tasks, s.jiffies)
    && NoFork(s.tasks)
    && Queued(s.rows, s.tasks, IDLE)
    && CurrOk(s)
    && ClockOk(s)
  }

  // ---------------------------------------------------------------- single records

  lemma CurrQueued(s: Sched)
    requires Inv(s) && s.curr in s.tasks
    ensures s.tasks[s.curr].onArr.Some? && TaskOk(s.tasks[s.curr], s.jiffies) && !s.tasks[s.curr].justGotForked
  {
  }

  lemma SliceOfMember(s: Sched, p: Id)
    requires Inv(s) && p in s.tasks
    ensures s.tasks[p].timeSlice >= 1
  {
    assert TaskOk(s.tasks[p], s.jiffies);
  }

  lemma NobodyForked(s: Sched, p: Id)
    requires Inv(s) && p in s.tasks
    ensures !s.tasks[p].justGotForked
  {
  }

  lemma BonusForks(t: Task, jiffies: int)
    ensures WithSleepBonus(t, jiffies).justGotForked == t.justGotForked
  {
  }

  // ---------------------------------------------------------------- queue operations

  lemma UnlinkKeeps(s: Sched, p: Id, a: Arr)
    requires Queued(s.rows, s.tasks, IDLE)
    requires IDLE !in s.tasks && p in s.tasks && s.tasks[p].onArr == Some(a)
    ensures Queued(Unlink(s, p, a).rows, s.tasks, p)
  {
    var k := s.tasks[p].prio;
    WithoutElements(Row(s, a, k), p);
    var rows := Unlink(s, p, a).rows;
    forall x | x in s.tasks && x != p && s.tasks[x].onArr.Some?
      ensures var c := Cell(s.tasks[x].onArr.value, s.tasks[x].prio); c in rows && x in rows[c]
    {
      var c := Cell(s.tasks[x].onArr.value, s.tasks[x].prio);
      assert c in s.rows && x in s.rows[c];
    }
  }

  lemma UpdHole(rows: map<Cell, seq<Id>>, tasks: map<Id, Task>, p: Id, t: Task)
    requires Queued(rows, tasks, p) && IDLE !in tasks
    ensures Queued(rows, tasks[p := t], p)
    ensures t.onArr == None ==> Queued(rows, tasks[p := t], IDLE)
  {
    var tasks' := tasks[p := t];
    forall c, x | c in rows && x in rows[c]
      ensures x in tasks' && tasks'[x].onArr == Some(c.arr) && tasks'[x].prio == c.prio && x != p
    {
      assert x != p && x in tasks;
    }
  }

  /** A record may change freely as long as its place in the queues does not. */
  lemma UpdInPlace(rows: map<Cell, seq<Id>>, tasks: map<Id, Task>, hole: Id, p: Id, t: Task)
    requires Queued(rows, tasks, hole)
    requires p in tasks && t.onArr == tasks[p].onArr && t.prio == tasks[p].prio
    ensures Queued(rows, tasks[p := t], hole)
  {
    var tasks' := tasks[p := t];
    forall c, x | c in rows && x in rows[c]
      ensures x != hole && x in tasks' && tasks'[x].onArr == Some(c.arr) && tasks'[x].prio == c.prio
    {
      assert x in tasks;
    }
  }

  lemma OffQueueIsHole(rows: map<Cell, seq<Id>>, tasks: map<Id, Task>, p: Id)
    requires Queued(rows, tasks, IDLE) && IDLE !in tasks
    requires p in tasks ==> tasks[p].onArr == None
    ensures Queued(rows, tasks, p)
  {
    forall c, x | c in rows && x in rows[c]
      ensures x != p
    {
      assert x in tasks;
    }
  }

  lemma PutRowKeeps(s: Sched, p: Id, a: Arr, r: seq<Id>)
    requires Queued(s.rows, s.tasks, p)
    requires p in s.tasks && p != IDLE && IDLE !in s.tasks
    requires 0 <= s.tasks[p].prio < MAX_PRIO
    requires NoDup(r) && forall x :: x in r <==> x == p || x in Row(s, a, s.tasks[p].prio)
    ensures Queued(s.rows[Cell(a, s.tasks[p].prio) := r], s.tasks[p := s.tasks[p].(onArr := Some(a))], IDLE)
  {
    var cell := Cell(a, s.tasks[p].prio);
    var rows := s.rows[cell := r];
    var tasks := s.tasks[p := s.tasks[p].(onArr := Some(a))];
    forall c, x | c in rows && x in rows[c]
      ensures x != IDLE && x in tasks && tasks[x].onArr == Some(c.arr) && tasks[x].prio == c.prio
    {
      if x != p {
        assert c in s.rows && x in s.rows[c];
        assert x in s.tasks;
      }
    }
    forall x | x in tasks && x != IDLE && tasks[x].onArr.Some?
      ensures var c := Cell(tasks[x].onArr.value, tasks[x].prio); c in rows && x in rows[c]
    {
      if x != p {
        var c := Cell(s.tasks[x].onArr.value, s.tasks[x].prio);
        assert c in s.rows && x in s.rows[c];
      }
    }
  }

  lemma RowFresh(s: Sched, p: Id, a: Arr, k: int)
    requires Queued(s.rows, s.tasks, p)
    ensures p !in Row(s, a, k) && NoDup(Row(s, a, k))
  {
  }

  lemma AddTailKeeps(s: Sched, p: Id, a: Arr)
    requires Queued(s.rows, s.tasks, p)
    requires p in s.tasks && p != IDLE && IDLE !in s.tasks && 0 <= s.tasks[p].prio < MAX_PRIO
    ensures Queued(AddTail(s, p, a).rows, AddTail(s, p, a).tasks, IDLE)
  {
    var k := s.tasks[p].prio;
    RowFresh(s, p, a, k);
    PutRowKeeps(s, p, a, Row(s, a, k) + [p]);
  }

  lemma AddHeadKeeps(s: Sched, p: Id, a: Arr)
    requires Queued(s.rows, s.tasks, p)
    requires p in s.tasks && p != IDLE && IDLE !in s.tasks && 0 <= s.tasks[p].prio < MAX_PRIO
    ensures Queued(AddHead(s, p, a).rows, AddHead(s, p, a).tasks, IDLE)
  {
    var k := s.tasks[p].prio;
    RowFresh(s, p, a, k);
    PutRowKeeps(s, p, a, [p] + Row(s, a, k));
  }

  // ---------------------------------------------------------------- records

  lemma TimesliceRange(t: Task)
    requires MAX_RT_PRIO <= t.staticPrio < MAX_PRIO
    ensures 1 <= MIN_TIMESLICE <= TaskTimeslice(t) <= MAX_TIMESLICE <= HZ
  {
    var d := MAX_TIMESLICE - MIN_TIMESLICE;
    var u := MAX_PRIO - 1 - t.staticPrio;
    assert 0 <= d && 0 <= u <= 39;
    assert 0 <= d * u <= d * 39;
    assert TruncDiv(d * u, 39) <= d;
  }

  lemma RefilledOk(t: Task, jiffies: int)
    requires TaskOk(t.(onArr := None), jiffies) && !RtTask(t)
    ensures TaskOk(Refilled(t).(onArr := None), jiffies)
    ensures !RtTask(Refilled(t)) && Refilled(t).justGotForked == t.justGotForked
  {
    var t2 := Refilled(t);
    if t2.policy == Other {
      TimesliceRange(t2);
    }
  }

  lemma SleepBonusOk(t: Task, jiffies: int)
    requires TaskOk(t, jiffies) && t.onArr == None
    ensures TaskOk(WithSleepBonus(t, jiffies), jiffies)
    ensures var t' := WithSleepBonus(t, jiffies);
            t'.onArr == None && t'.policy == t.policy && t'.iAmOverdue == t.iAmOverdue && (RtTask(t') <==> RtTask(t))
  {
  }

  /** A task put on its home array is in the array of its class. */
  lemma HomePlaced(t: Task, active: Arr, jiffies: int)
    requires TaskOk(t.(onArr := None), jiffies) && (active == A0 || active == A1)
    ensures TaskOk(t.(onArr := Some(Home(t, active))), jiffies)
  {
  }

  // ---------------------------------------------------------------- compound steps

  lemma EnqueueKeeps(s: Sched, p: Id, a: Arr)
    requires p in s.tasks && IDLE !in s.tasks
    requires TasksOk(s.tasks[p := s.tasks[p].(onArr := Some(a))], s.jiffies)
    requires Queued(s.rows, s.tasks, p) && NoFork(s.tasks)
    requires s.curr == p || CurrOk(s)
    requires ClockOk(s)
    ensures Inv(Enqueue(s, p, a))
  {
    assert s.tasks[p := s.tasks[p].(onArr := Some(a))][p].prio == s.tasks[p].prio;
    AddTailKeeps(s, p, a);
  }

  lemma ActivateKeeps(s: Sched, p: Id)
    requires TasksOk(s.tasks, s.jiffies) && NoFork(s.tasks) && ClockOk(s)
    requires Queued(s.rows, s.tasks, IDLE)
    requires p in s.tasks && s.tasks[p].onArr == None
    requires s.curr == p || CurrOk(s)
    ensures Inv(Activate(s, p))
  {
    var t := s.tasks[p];
    var t1 := WithSleepBonus(t, s.jiffies);
    var s1 := Upd(s, p, t1);
    SleepBonusOk(t, s.jiffies);
    HomePlaced(t1, s.active, s.jiffies);
    OffQueueIsHole(s.rows, s.tasks, p);
    UpdHole(s.rows, s.tasks, p, t1);
    EnqueueKeeps(s1, p, Home(t, s.active));
  }

  lemma UpdKeeps(s: Sched, p: Id, t: Task)
    requires Inv(s) && p in s.tasks
    requires t.onArr == s.tasks[p].onArr && t.prio == s.tasks[p].prio
    requires TaskOk(t, s.jiffies) && !t.justGotForked
    ensures Inv(Upd(s, p, t))
  {
    UpdInPlace(s.rows, s.tasks, IDLE, p, t);
  }

  lemma DeactivateKeeps(s: Sched, p: Id)
    requires Inv(s) && p in s.tasks && s.tasks[p].onArr.Some?
    ensures var s' := Deactivate(s, p);
            TasksOk(s'.tasks, s.jiffies) && NoFork(s'.tasks) && ClockOk(s') && Queued(s'.rows, s'.tasks, IDLE)
  {
    var a := s.tasks[p].onArr.value;
    UnlinkKeeps(s, p, a);
    UpdHole(Unlink(s, p, a).rows, s.tasks, p, s.tasks[p].(onArr := None));
  }

  /** Dequeue, replace the record, enqueue elsewhere. */
  lemma MoveKeeps(s: Sched, p: Id, t: Task, a: Arr)
    requires Inv(s) && p in s.tasks && s.tasks[p].onArr.Some?
    requires TaskOk(t.(onArr := Some(a)), s.jiffies) && !t.justGotForked
    ensures Inv(Enqueue(Upd(Unlink(s, p, s.tasks[p].onArr.value), p, t), p, a))
  {
    var b := s.tasks[p].onArr.value;
    var s1 := Unlink(s, p, b);
    var s2 := Upd(s1, p, t);
    UnlinkKeeps(s, p, b);
    UpdHole(s1.rows, s.tasks, p, t);
    EnqueueKeeps(s2, p, a);
  }

  lemma ReschedKeeps(s: Sched)
    requires Inv(s)
    ensures Inv(ReschedCurr(s))
  {
    if s.curr in s.tasks {
      UpdKeeps(s, s.curr, s.tasks[s.curr].(needResched := true));
    }
  }

  lemma RequeueKeeps(s: Sched, p: Id, t: Task)
    requires Inv(s) && p in s.tasks
    requires TaskOk(t.(onArr := None), s.jiffies) && !t.justGotForked
    requires t.onArr == s.tasks[p].onArr
    ensures Inv(Requeue(s, p, t))
  {
    if t.onArr == None {
      OffQueueIsHole(s.rows, s.tasks, p);
      UpdHole(s.rows, s.tasks, p, t);
    } else {
      var s1 := Deactivate(s, p);
      var a := s.tasks[p].onArr.value;
      var t1 := t.(onArr := None);
      DeactivateKeeps(s, p);
      UnlinkKeeps(s, p, a);
      UpdHole(s1.rows, s.tasks, p, t1);
      assert s1.tasks[p := t1] == s.tasks[p := t1];
      ActivateKeeps(Upd(s1, p, t1), p);
    }
  }

  // ---------------------------------------------------------------- counting

  /** FindRow is determined by what it promises. */
  lemma FindRowIs(s: Sched, a: Arr, f: nat)
    requires f < MAX_PRIO && Row(s, a, f) != [] && forall k :: 0 <= k < f ==> Row(s, a, k) == []
    ensures FindRow(s, a, 0) == f
  {
    assert FindRow(s, a, 0) <= f by {
      assert Row(s, a, f) != [];
    }
  }

  lemma {:induction false} LenSameRows(s: Sched, s': Sched, a: Arr, n: nat)
    requires s.rows == s'.rows
    ensures LenTo(s, a, n) == LenTo(s', a, n)
  {
    if n > 0 {
      LenSameRows(s, s', a, n - 1);
    }
  }

  lemma NrSameRows(s: Sched, s': Sched)
    requires s.rows == s'.rows
    ensures NrRunning(s) == NrRunning(s')
  {
    LenSameRows(s, s', A0, MAX_PRIO);
    LenSameRows(s, s', A1, MAX_PRIO);
    LenSameRows(s, s', RtShort, MAX_PRIO);
    LenSameRows(s, s', Overdue, MAX_PRIO);
  }

  lemma {:induction false} LenSetRow(s: Sched, a: Arr, k: int, r: seq<Id>, b: Arr, n: nat)
    ensures LenTo(SetRow(s, a, k, r), b, n) ==
            LenTo(s, b, n) + if a == b && 0 <= k < n then |r| - |Row(s, a, k)| else 0
  {
    if n > 0 {
      LenSetRow(s, a, k, r, b, n - 1);
    }
  }

  lemma NrSetRow(s: Sched, a: Arr, k: int, r: seq<Id>)
    requires 0 <= k < MAX_PRIO
    ensures NrRunning(SetRow(s, a, k, r)) == NrRunning(s) + |r| - |Row(s, a, k)|
  {
    LenSetRow(s, a, k, r, A0, MAX_PRIO);
    LenSetRow(s, a, k, r, A1, MAX_PRIO);
    LenSetRow(s, a, k, r, RtShort, MAX_PRIO);
    LenSetRow(s, a, k, r, Overdue, MAX_PRIO);
  }

  /** The tasks queued in one array at a priority below `n`. */
  ghost function QueuedBelow(s: Sched, a: Arr, n: int): set<Id> {
    set p | p in s.tasks && s.tasks[p].onArr == Some(a) && s.tasks[p].prio < n
  }

  ghost function AllQueued(s: Sched): set<Id> {
    set p | p in s.tasks && s.tasks[p].onArr.Some?
  }

  lemma {:induction false} LenCounts(s: Sched, a: Arr, n: nat)
    requires Queued(s.rows, s.tasks, IDLE) && TasksOk(s.tasks, s.jiffies) && n <= MAX_PRIO
    ensures LenTo(s, a, n) == |QueuedBelow(s, a, n)|
  {
    hide Queued, TasksOk, NoDup, Row, QueuedBelow, Elements;
    if n == 0 {
      PriosInRange(s);
      NoneBelowZero(s, a);
    } else {
      IdleIsNoTask(s);
      LenCounts(s, a, n - 1);
      RowElements(s, a, n - 1);
      ElementsCount(Row(s, a, n - 1));
      BelowSplit(s, a, n, Row(s, a, n - 1));
    }
  }

  lemma IdleIsNoTask(s: Sched)
    requires TasksOk(s.tasks, s.jiffies)
    ensures IDLE !in s.tasks
  {
  }

  lemma NoneBelowZero(s: Sched, a: Arr)
    requires forall p :: p in s.tasks ==> 0 <= s.tasks[p].prio
    ensures QueuedBelow(s, a, 0) == {}
  {
  }

  lemma BelowSplit(s: Sched, a: Arr, n: nat, r: seq<Id>)
    requires n > 0
    requires forall p :: p in r <==> p in s.tasks && s.tasks[p].onArr == Some(a) && s.tasks[p].prio == n - 1
    ensures |QueuedBelow(s, a, n)| == |QueuedBelow(s, a, n - 1)| + |Elements(r)|
  {
    assert QueuedBelow(s, a, n) == QueuedBelow(s, a, n - 1) + Elements(r);
    assert QueuedBelow(s, a, n - 1) !! Elements(r);
  }

  lemma PriosInRange(s: Sched)
    requires TasksOk(s.tasks, s.jiffies)
    ensures forall p :: p in s.tasks ==> 0 <= s.tasks[p].prio < MAX_PRIO
  {
    forall p | p in s.tasks
      ensures 0 <= s.tasks[p].prio < MAX_PRIO
    {
      assert TaskOk(s.tasks[p], s.jiffies);
    }
  }

  lemma RowElements(s: Sched, a: Arr, k: int)
    requires Queued(s.rows, s.tasks, IDLE) && IDLE !in s.tasks
    ensures NoDup(Row(s, a, k))
    ensures forall p :: p in Row(s, a, k) <==> p in s.tasks && s.tasks[p].onArr == Some(a) && s.tasks[p].prio == k
  {
    forall p | p in s.tasks && s.tasks[p].onArr == Some(a) && s.tasks[p].prio == k
      ensures p in Row(s, a, k)
    {
      var c := Cell(s.tasks[p].onArr.value, s.tasks[p].prio);
      assert c in s.rows && p in s.rows[c];
    }
  }

  /** nr_running counts the tasks that are on a queue, each once. */
  lemma NrRunningCounts(s: Sched)
    requires Queued(s.rows, s.tasks, IDLE) && TasksOk(s.tasks, s.jiffies)
    ensures NrRunning(s) == |AllQueued(s)|
  {
    hide Queued, TasksOk, LenTo, QueuedBelow, AllQueued;
    LenCounts(s, A0, MAX_PRIO);
    LenCounts(s, A1, MAX_PRIO);
    LenCounts(s, RtShort, MAX_PRIO);
    LenCounts(s, Overdue, MAX_PRIO);
    PriosInRange(s);
    FourArrays(s);
  }

  lemma FourArrays(s: Sched)
    requires forall p :: p in s.tasks ==> s.tasks[p].prio < MAX_PRIO
    ensures |AllQueued(s)| == |QueuedBelow(s, A0, MAX_PRIO)| + |QueuedBelow(s, A1, MAX_PRIO)|
                              + |QueuedBelow(s, RtShort, MAX_PRIO)| + |QueuedBelow(s, Overdue, MAX_PRIO)|
  {
    var q0, q1, q2, q3 := QueuedBelow(s, A0, MAX_PRIO), QueuedBelow(s, A1, MAX_PRIO),
      QueuedBelow(s, RtShort, MAX_PRIO), QueuedBelow(s, Overdue, MAX_PRIO);
    forall p
      ensures p in AllQueued(s) <==> p in q0 || p in q1 || p in q2 || p in q3
    {
      if p in AllQueued(s) {
        var a := s.tasks[p].onArr.value;
        assert a == A0 || a == A1 || a == RtShort || a == Overdue;
      }
    }
    assert AllQueued(s) == q0 + q1 + q2 + q3;
    hide QueuedBelow, AllQueued;
    FourParts(q0, q1, q2, q3);
  }

  lemma FourParts(a: set<Id>, b: set<Id>, c: set<Id>, d: set<Id>)
    requires a !! b !! c !! d
    ensures |a + b + c + d| == |a| + |b| + |c| + |d|
  {
  }

  // ---------------------------------------------------------------- what a tick and a fork leave alone

  lemma DeactivateTasks(s: Sched, p: Id)
    requires p in s.tasks && s.tasks[p].onArr.Some?
    ensures Deactivate(s, p).tasks == s.tasks[p := s.tasks[p].(onArr := None)]
    ensures Deactivate(s, p).curr == s.curr && Deactivate(s, p).jiffies == s.jiffies
  {
  }

  lemma EnqueuedRecord(s: Sched, p: Id, a: Arr)
    requires p in s.tasks && NoFork(s.tasks)
    ensures Enqueue(s, p, a).tasks == s.tasks[p := s.tasks[p].(onArr := Some(a))] && Enqueue(s, p, a).curr == s.curr
  {
  }

  ghost predicate SameScalars(s: Sched, s': Sched) {
    s'.curr == s.curr && s'.jiffies == s.jiffies && s'.active == s.active && s'.tasks.Keys == s.tasks.Keys
  }

  lemma EnqueueScalars(s: Sched, p: Id, a: Arr)
    requires p in s.tasks
    ensures SameScalars(s, Enqueue(s, p, a))
  {
  }

  lemma ForkParentScalars(s: Sched)
    requires s.curr in s.tasks
    ensures SameScalars(s, ForkParent(s))
  {
    var par := SplitSlice(s.tasks[s.curr]).0;
    if par.timeSlice == 0 {
      hide SchedulerTick;
      TickScalars(Upd(s, s.curr, par.(justGotForked := false, timeSlice := 1)));
    }
  }

  lemma TickScalars(s: Sched)
    requires s.curr in s.tasks
    ensures SameScalars(s, SchedulerTick(s))
  {
    hide SliceEnd, RrSliceEnd;
    SliceEndScalars(s);
    RrScalars(s);
  }

  lemma RrScalars(s: Sched)
    requires s.curr in s.tasks
    ensures SameScalars(s, RrSliceEnd(s))
  {
    hide Enqueue, TaskTimeslice;
    var t := s.tasks[s.curr];
    var t1 := t.(timeSlice := TaskTimeslice(t), firstTimeSlice := false, needResched := true);
    var a := Home(t, s.active);
    EnqueueScalars(Unlink(Upd(s, s.curr, t1), s.curr, a), s.curr, a);
  }

  lemma SliceEndScalars(s: Sched)
    requires s.curr in s.tasks
    ensures SameScalars(s, SliceEnd(s))
  {
    hide Enqueue, Refilled, Interactive, ExpiredStarving;
    var t := s.tasks[s.curr];
    var t2 := Refilled(t.(sleepAvg := TickedSleepAvg(t))).(needResched := true);
    var s1 := Upd(Unlink(s, s.curr, Home(t, s.active)), s.curr, t2);
    var s2 := if s.expiredStamp == 0 then s1.(expiredStamp := s.jiffies) else s1;
    EnqueueScalars(s2, s.curr, Expired(s));
    EnqueueScalars(s1, s.curr, Home(s1.tasks[s.curr], s.active));
  }
}
