/** In a closed set of always-runnable OTHER tasks the array switch is bounded. */
module ArraySwitch {
  import opened Params
  import opened Rows
  import opened SchedModel
  import opened SchedInvariant
  import opened SchedSteps
  import opened PickOrder

  /** Every task is OTHER, runnable and queued, and only the current one may be asked to reschedule. */
  ghost predicate Closed(s: Sched) {
    && Inv(s)
    && s.curr in s.tasks
    && s.tasks[s.curr].onArr == Some(s.active)
    && forall p :: p in s.tasks ==> Resident(s, p)
  }

  ghost predicate Resident(s: Sched, p: Id)
    requires p in s.tasks
  {
    var t := s.tasks[p];
    t.policy == Other && t.state == Running && t.onArr.Some? && (p != s.curr ==> !t.needResched)
  }

  /** One tick, and one pass of schedule if the tick (or something before it) asks for it.  Since no
      other task is asked to reschedule, one pass is all of schedule. */
  function Round(s: Sched): Sched {
    var s1 := TimerTick(s);
    if s1.curr in s1.tasks && s1.tasks[s1.curr].needResched then Schedule(s1, false) else s1
  }

  function Rounds(s: Sched, n: nat): Sched
    decreases n
  {
    if n == 0 then s else Round(Rounds(s, n - 1))
  }

  /** The jiffies the tasks of the active array have left. */
  ghost function ActiveSlices(s: Sched): int {
    Sum(SliceIn(s), PID_MAX)
  }

  ghost function SliceIn(s: Sched): Id -> int {
    x => if x in s.tasks && s.tasks[x].onArr == Some(s.active) then s.tasks[x].timeSlice else 0
  }

  // ---------------------------------------------------------------- one tick

  /** A tick that leaves the slice of the current task running. */
  lemma ShortTick(s: Sched)
    requires Closed(s) && s.tasks[s.curr].timeSlice != 1
    ensures var s1 := TimerTick(s);
            var t := s.tasks[s.curr];
            s1 == s.(jiffies := s.jiffies + 1,
                     tasks := s.tasks[s.curr := t.(sleepAvg := TickedSleepAvg(t), timeSlice := t.timeSlice - 1)])
  {
    assert TaskOk(s.tasks[s.curr], s.jiffies);
  }

  /** The tick that ends the slice of the current task: it moves to the tail of a row of the
      expired array, or stays in the active array while that is allowed. */
  lemma LastTick(s: Sched)
    requires Closed(s) && s.tasks[s.curr].timeSlice == 1
    ensures var s1 := TimerTick(s);
            var p := s.curr;
            && Inv(s1) && s1.curr == p && s1.active == s.active && s1.jiffies == s.jiffies + 1
            && s1.tasks.Keys == s.tasks.Keys
            && (forall x :: x in s.tasks && x != p ==> s1.tasks[x] == s.tasks[x])
            && s1.tasks[p].policy == Other && s1.tasks[p].state == Running && s1.tasks[p].needResched
            && (s1.tasks[p].onArr == Some(s.active) || s1.tasks[p].onArr == Some(Expired(s)))
            && (s.expiredStamp != 0 ==> s1.expiredStamp == s.expiredStamp)
            && NrRunning(s1) == NrRunning(s)
            && (ExpiredStarving(s.(jiffies := s.jiffies + 1)) ==> s1.tasks[p].onArr == Some(Expired(s)))
  {
    hide SliceEnd, Inv, NrRunning, ExpiredStarving, Resident;
    var s0 := s.(jiffies := s.jiffies + 1);
    TickKeeps(s);
    LastTickEnds(s);
    LastTickShape(s, s0);
  }

  lemma LastTickEnds(s: Sched)
    requires Closed(s) && s.tasks[s.curr].timeSlice == 1
    ensures TimerTick(s) == SliceEnd(s.(jiffies := s.jiffies + 1))
  {
    hide SliceEnd, RrSliceEnd;
    assert TaskOk(s.tasks[s.curr], s.jiffies) && Resident(s, s.curr);
  }

  /** Where the current task goes when its slice ends, and with which record. */
  function NextRecordAtEnd(s: Sched): Task
    requires s.curr in s.tasks
  {
    var t := s.tasks[s.curr];
    Refilled(t.(sleepAvg := TickedSleepAvg(t))).(needResched := true)
  }

  predicate ToExpired(s: Sched)
    requires s.curr in s.tasks
  {
    !Interactive(NextRecordAtEnd(s)) || ExpiredStarving(s)
  }

  function AfterEnd(s: Sched, t: Task, expire: bool): Sched
    requires s.curr in s.tasks
  {
    var s1 := Upd(Unlink(s, s.curr, s.active), s.curr, t);
    if expire then
      AddTail(if s.expiredStamp == 0 then s1.(expiredStamp := s.jiffies) else s1, s.curr, Expired(s))
    else
      AddTail(s1, s.curr, s.active)
  }

  lemma SliceEndShape(s: Sched)
    requires s.curr in s.tasks && TaskOk(s.tasks[s.curr], s.jiffies) && s.tasks[s.curr].policy == Other
    ensures SliceEnd(s) == AfterEnd(s, NextRecordAtEnd(s), ToExpired(s))
    ensures var t := NextRecordAtEnd(s);
            && t.policy == Other && t.state == s.tasks[s.curr].state && t.needResched
            && MAX_RT_PRIO <= t.prio < MAX_PRIO
  {
    var t := s.tasks[s.curr];
    RefilledPrio(t);
    hide Refilled, Interactive, ExpiredStarving;
    var t2 := NextRecordAtEnd(s);
    assert Home(t, s.active) == s.active && Home(t2, s.active) == s.active;
    var s1 := Upd(Unlink(s, s.curr, s.active), s.curr, t2);
    assert !ForkBranch(s1, s.curr);
  }

  lemma AfterEndFacts(s: Sched, t: Task, expire: bool)
    requires Queued(s.rows, s.tasks, IDLE) && IDLE !in s.tasks && s.curr in s.tasks
    requires s.tasks[s.curr].onArr == Some(s.active) && 0 <= t.prio < MAX_PRIO
    ensures var p := s.curr;
            var s1 := AfterEnd(s, t, expire);
            && s1.curr == p && s1.active == s.active && s1.jiffies == s.jiffies
            && s1.tasks == s.tasks[p := t.(onArr := Some(if expire then Expired(s) else s.active))]
            && (s.expiredStamp != 0 ==> s1.expiredStamp == s.expiredStamp)
            && NrRunning(s1) == NrRunning(s)
  {
    hide NrRunning, Queued;
    var p := s.curr;
    var a := if expire then Expired(s) else s.active;
    MoveCount(s, p, t, a);
    NrSameRows(AfterEnd(s, t, expire), AddTail(Upd(Unlink(s, p, s.active), p, t), p, a));
  }

  lemma LastTickShape(s: Sched, s0: Sched)
    requires Closed(s) && s0 == s.(jiffies := s.jiffies + 1)
    ensures var p := s.curr;
            var s1 := SliceEnd(s0);
            && s1.curr == p && s1.active == s.active && s1.jiffies == s0.jiffies
            && s1.tasks.Keys == s.tasks.Keys
            && (forall x :: x in s.tasks && x != p ==> s1.tasks[x] == s.tasks[x])
            && s1.tasks[p].policy == Other && s1.tasks[p].state == Running && s1.tasks[p].needResched
            && (s1.tasks[p].onArr == Some(s.active) || s1.tasks[p].onArr == Some(Expired(s)))
            && (s.expiredStamp != 0 ==> s1.expiredStamp == s.expiredStamp)
            && NrRunning(s1) == NrRunning(s)
            && (ExpiredStarving(s0) ==> s1.tasks[p].onArr == Some(Expired(s)))
  {
    hide SliceEnd, AfterEnd, NextRecordAtEnd, ExpiredStarving, NrRunning, Interactive, Queued;
    assert TaskOk(s.tasks[s.curr], s.jiffies) && Resident(s, s.curr);
    SliceEndShape(s0);
    NrSameRows(s, s0);
    AfterEndFacts(s0, NextRecordAtEnd(s0), ToExpired(s0));
  }

  lemma RefilledPrio(t: Task)
    requires t.policy == Other && !t.iAmOverdue && MAX_RT_PRIO <= t.staticPrio < MAX_PRIO
    ensures var t' := Refilled(t.(sleepAvg := TickedSleepAvg(t)));
            t'.policy == Other && t'.state == t.state && MAX_RT_PRIO <= t'.prio < MAX_PRIO
            && t'.justGotForked == t.justGotForked && !t'.iAmOverdue
  {
  }

  /** Moving one task from its row to another row keeps the number of queued tasks. */
  lemma MoveCount(s: Sched, p: Id, t: Task, a: Arr)
    requires Queued(s.rows, s.tasks, IDLE) && IDLE !in s.tasks
    requires p in s.tasks && s.tasks[p].onArr.Some? && 0 <= t.prio < MAX_PRIO
    ensures NrRunning(AddTail(Upd(Unlink(s, p, s.tasks[p].onArr.value), p, t), p, a)) == NrRunning(s)
  {
    var b, k := s.tasks[p].onArr.value, s.tasks[p].prio;
    assert p in Row(s, b, k) && NoDup(Row(s, b, k)) && 0 <= k < MAX_PRIO by {
      var c := Cell(b, k);
      assert c in s.rows && p in s.rows[c];
    }
    WithoutElements(Row(s, b, k), p);
    var u := Unlink(s, p, b);
    NrSetRow(s, b, k, Without(Row(s, b, k), p));
    var v := Upd(u, p, t);
    NrSameRows(u, v);
    NrSetRow(v, a, t.prio, Row(v, a, t.prio) + [p]);
    NrSameRows(SetRow(v, a, t.prio, Row(v, a, t.prio) + [p]), AddTail(v, p, a));
  }

  // ---------------------------------------------------------------- one pass of schedule

  /** What a pass of schedule does in such a state: it changes no queue and no slice, and it
      switches the arrays exactly if the active one is empty. */
  ghost predicate Passed(s: Sched, s': Sched) {
    && s'.rows == s.rows && s'.jiffies == s.jiffies
    && s'.tasks.Keys == s.tasks.Keys
    && s'.curr in s.tasks
    && s'.tasks[s'.curr].onArr == Some(s'.active)
    && (forall x :: x in s.tasks ==>
          Resident(s', x) && s'.tasks[x].onArr == s.tasks[x].onArr && s'.tasks[x].timeSlice == s.tasks[x].timeSlice)
    && (s'.active == s.active ==> s'.expiredStamp == s.expiredStamp)
    && (s'.active != s.active <==> !Holds(s, s.active))
  }

  lemma PutPrevPassed(s: Sched)
    requires Inv(s) && s.curr in s.tasks
    requires forall p :: p in s.tasks ==> Resident(s, p)
    ensures var s1 := PutPrev(s, false);
            && InvNoCurr(s1) && s1.curr == s.curr && s1.curr in s1.tasks
            && s1 == s.(tasks := s1.tasks)
            && s1.tasks.Keys == s.tasks.Keys
            && (forall p :: p in s1.tasks ==> Resident(s1, p))
            && (forall p :: p in s1.tasks ==>
                  s1.tasks[p].onArr == s.tasks[p].onArr && s1.tasks[p].timeSlice == s.tasks[p].timeSlice)
  {
    PutPrevKeeps(s, false);
    assert Resident(s, s.curr);
    assert PutPrev(s, false) == Upd(s, s.curr, s.tasks[s.curr].(sleepTimestamp := s.jiffies));
    hide PutPrev, Inv;
    forall p | p in s.tasks
      ensures Resident(PutPrev(s, false), p)
    {
      assert Resident(s, p);
    }
  }

  lemma SchedulePasses(s: Sched)
    requires Inv(s) && s.curr in s.tasks
    requires forall p :: p in s.tasks ==> Resident(s, p)
    ensures Passed(s, Schedule(s, false))
  {
    hide PutPrev, PickNext, SwitchTo, Holds, InvNoCurr, Inv;
    PutPrevPassed(s);
    var s1 := PutPrev(s, false);
    ClosedPick(s1);
    HoldsSame(s, s1);
    var (s2, next) := PickNext(s1);
    ClosedSwitch(s2, next);
  }

  lemma ClosedSchedule(s: Sched)
    requires Inv(s) && s.curr in s.tasks
    requires forall p :: p in s.tasks ==> Resident(s, p)
    ensures Closed(Schedule(s, false)) && Passed(s, Schedule(s, false))
    ensures NrRunning(Schedule(s, false)) == NrRunning(s)
  {
    ScheduleKeeps(s, false);
    SchedulePasses(s);
    hide Schedule, Inv, NrRunning, Resident, Holds;
    NrSameRows(s, Schedule(s, false));
  }

  lemma ScheduleSlices(s: Sched)
    requires Inv(s) && s.curr in s.tasks
    requires forall p :: p in s.tasks ==> Resident(s, p)
    ensures Schedule(s, false).active == s.active ==> ActiveSlices(Schedule(s, false)) == ActiveSlices(s)
  {
    SchedulePasses(s);
    hide Schedule, Inv, Resident, Holds;
    var s' := Schedule(s, false);
    if s'.active == s.active {
      SumSame(SliceIn(s), SliceIn(s'), PID_MAX);
    }
  }

  lemma ClosedSwitch(s: Sched, next: Id)
    requires s.curr in s.tasks && next in s.tasks && s.tasks[next].onArr == Some(s.active)
    requires forall p :: p in s.tasks ==> Resident(s, p)
    ensures var s' := SwitchTo(s, next);
            && s'.curr == next && s'.active == s.active && s'.rows == s.rows && s'.jiffies == s.jiffies
            && s'.expiredStamp == s.expiredStamp && s'.tasks.Keys == s.tasks.Keys
            && (forall x :: x in s.tasks ==>
                  Resident(s', x) && s'.tasks[x].onArr == s.tasks[x].onArr && s'.tasks[x].timeSlice == s.tasks[x].timeSlice)
  {
    var s' := SwitchTo(s, next);
    forall p | p in s.tasks
      ensures Resident(s', p)
    {
      assert Resident(s, p);
    }
  }

  lemma HoldsSame(s: Sched, s1: Sched)
    requires s.tasks.Keys == s1.tasks.Keys
    requires forall x :: x in s.tasks ==> s1.tasks[x].onArr == s.tasks[x].onArr
    ensures forall a :: Holds(s, a) <==> Holds(s1, a)
  {
    forall a
      ensures Holds(s, a) <==> Holds(s1, a)
    {
      if Holds(s, a) {
        var y :| IsQueued(s, y) && s.tasks[y].onArr == Some(a);
        assert IsQueued(s1, y);
      }
      if Holds(s1, a) {
        var y :| IsQueued(s1, y) && s1.tasks[y].onArr == Some(a);
        assert IsQueued(s, y);
      }
    }
  }

  lemma ClosedPick(s: Sched)
    requires InvNoCurr(s) && s.curr in s.tasks
    requires forall p :: p in s.tasks ==> Resident(s, p)
    ensures var (s', next) := PickNext(s);
            && s'.tasks == s.tasks && s'.rows == s.rows && s'.jiffies == s.jiffies && s'.curr == s.curr
            && next in s.tasks && s.tasks[next].onArr == Some(s'.active)
            && (s'.active == s.active ==> s'.expiredStamp == s.expiredStamp)
            && (s'.active != s.active <==> !Holds(s, s.active))
  {
    hide PickNext, Busy, Queued, Holds, Resident, TasksOk, Head;
    PickIsHead(s);
    BusyHolds(s, RtShort);
    BusyHolds(s, s.active);
    BusyHolds(s, Expired(s));
    BusyHolds(s, Overdue);
    OnlyOthers(s);
  }

  lemma OnlyOthers(s: Sched)
    requires InvNoCurr(s) && s.curr in s.tasks
    requires forall p :: p in s.tasks ==> Resident(s, p)
    ensures !Holds(s, RtShort) && !Holds(s, Overdue) && (Holds(s, s.active) || Holds(s, Expired(s)))
  {
    hide Queued;
    forall y | IsQueued(s, y)
      ensures s.tasks[y].onArr != Some(RtShort) && s.tasks[y].onArr != Some(Overdue)
    {
      assert TaskOk(s.tasks[y], s.jiffies) && Resident(s, y);
    }
    assert TaskOk(s.tasks[s.curr], s.jiffies) && Resident(s, s.curr) && IsQueued(s, s.curr);
  }

  // ---------------------------------------------------------------- one round

  /** What a tick does to the slices of the active array when expired tasks starve. */
  lemma StarvingTick(s: Sched)
    requires Closed(s) && ExpiredStarving(s.(jiffies := s.jiffies + 1))
    ensures ActiveSlices(TimerTick(s)) == ActiveSlices(s) - 1 && TimerTick(s).active == s.active
  {
    hide TimerTick, ExpiredStarving, NrRunning, Queued, NoFork;
    if s.tasks[s.curr].timeSlice != 1 {
      ShortTick(s);
    } else {
      LastTick(s);
    }
    SumUpdate(SliceIn(s), SliceIn(TimerTick(s)), PID_MAX, s.curr);
  }

  lemma TickResidents(s: Sched)
    requires Closed(s)
    ensures var s1 := TimerTick(s);
            && Inv(s1) && s1.curr in s1.tasks && (forall p :: p in s1.tasks ==> Resident(s1, p))
            && s1.active == s.active && s1.jiffies == s.jiffies + 1 && NrRunning(s1) == NrRunning(s)
            && (s.expiredStamp != 0 ==> s1.expiredStamp == s.expiredStamp)
            && (!s1.tasks[s1.curr].needResched ==> Closed(s1))
  {
    hide TimerTick, NrRunning;
    var s1 := TimerTick(s);
    TickKeeps(s);
    if s.tasks[s.curr].timeSlice != 1 {
      ShortTick(s);
      NrSameRows(s, s1);
    } else {
      LastTick(s);
    }
    hide Inv;
    forall p | p in s1.tasks
      ensures Resident(s1, p)
    {
      assert Resident(s, p);
    }
  }

  lemma RoundStep(s: Sched)
    requires Closed(s)
    ensures var s' := Round(s);
            && Closed(s')
            && s'.jiffies == s.jiffies + 1
            && NrRunning(s') == NrRunning(s)
            && (s'.active == s.active && s.expiredStamp != 0 ==> s'.expiredStamp == s.expiredStamp)
  {
    TickResidents(s);
    hide TimerTick, Schedule, NrRunning, Closed, Inv;
    if TimerTick(s).tasks[TimerTick(s).curr].needResched {
      ClosedSchedule(TimerTick(s));
    }
  }

  /** Once expired tasks starve, each round takes one jiffy off the active array until it switches. */
  lemma StarvingRound(s: Sched)
    requires Closed(s) && ExpiredStarving(s.(jiffies := s.jiffies + 1))
    ensures Round(s).active != s.active || ActiveSlices(Round(s)) == ActiveSlices(s) - 1
  {
    TickResidents(s);
    StarvingTick(s);
    hide TimerTick, Schedule, NrRunning, ExpiredStarving, Closed, Inv, ActiveSlices;
    var s1 := TimerTick(s);
    if s1.tasks[s1.curr].needResched {
      ScheduleSlices(s1);
    }
  }

  /** While the active array holds the current task it has jiffies left. */
  lemma ActiveSlicesPositive(s: Sched)
    requires Closed(s)
    ensures ActiveSlices(s) >= 1
  {
    forall x: Id
      ensures SliceIn(s)(x) >= 0
    {
      assert x in s.tasks ==> TaskOk(s.tasks[x], s.jiffies);
    }
    assert TaskOk(s.tasks[s.curr], s.jiffies);
    SumNonNegative(SliceIn(s), PID_MAX);
    assert SliceIn(s)(s.curr) >= 1;
  }

  // ---------------------------------------------------------------- whole runs

  lemma {:induction false} RoundsAdd(s: Sched, m: nat, n: nat)
    ensures Rounds(Rounds(s, m), n) == Rounds(s, m + n)
    decreases n
  {
    hide Round;
    if n > 0 {
      RoundsAdd(s, m, n - 1);
    }
  }

  /** The arrays switch in some round from the first to the n-th. */
  ghost predicate SwitchesWithin(s: Sched, n: nat) {
    exists m: nat :: m < n && Rounds(s, m + 1).active != Rounds(s, m).active
  }

  lemma RoundsOne(s: Sched)
    ensures Rounds(s, 1) == Round(s)
  {
    hide Round;
    assert Rounds(s, 0) == s;
  }

  lemma SwitchesLater(s: Sched, n: nat, k: nat)
    requires SwitchesWithin(Round(s), n) && n + 1 <= k
    ensures SwitchesWithin(s, k)
  {
    hide Round, Rounds;
    RoundsOne(s);
    var m: nat :| m < n && Rounds(Round(s), m + 1).active != Rounds(Round(s), m).active;
    RoundsAdd(s, 1, m);
    RoundsAdd(s, 1, m + 1);
    assert 1 + m < k && Rounds(s, (1 + m) + 1).active != Rounds(s, 1 + m).active;
  }

  lemma SwitchesNow(s: Sched, k: nat)
    requires Round(s).active != s.active && 1 <= k
    ensures SwitchesWithin(s, k)
  {
    hide Round;
    assert Rounds(s, 0) == s;
    assert Rounds(s, 0 + 1).active != Rounds(s, 0).active;
  }

  /** A starving state switches its arrays within as many rounds as the active array has jiffies. */
  lemma {:induction false} StarvingSwitch(s: Sched, n: nat)
    requires Closed(s) && ExpiredStarving(s.(jiffies := s.jiffies + 1)) && ActiveSlices(s) <= n
    ensures SwitchesWithin(s, n)
    decreases n
  {
    hide Round, ActiveSlices, NrRunning, SwitchesWithin;
    ActiveSlicesPositive(s);
    StarvingRound(s);
    RoundStep(s);
    var s' := Round(s);
    if s'.active != s.active {
      SwitchesNow(s, n);
    } else {
      NrSameRows(s, s.(jiffies := s.jiffies + 1));
      NrSameRows(s', s'.(jiffies := s'.jiffies + 1));
      StarvingMonotone(s, s');
      StarvingSwitch(s', n - 1);
      SwitchesLater(s, n - 1, n);
    }
  }

  lemma StarvingMonotone(s: Sched, s': Sched)
    requires ExpiredStarving(s.(jiffies := s.jiffies + 1))
    requires s'.jiffies == s.jiffies + 1 && s'.expiredStamp == s.expiredStamp && NrRunning(s') == NrRunning(s)
    ensures ExpiredStarving(s'.(jiffies := s'.jiffies + 1))
  {
    NrSameRows(s, s.(jiffies := s.jiffies + 1));
    NrSameRows(s', s'.(jiffies := s'.jiffies + 1));
    hide NrRunning;
  }

  /** The rounds that pass before expired tasks count as starving. */
  function Patience(s: Sched): nat {
    var left := s.expiredStamp + STARVATION_LIMIT * NrRunning(s) - s.jiffies;
    if left > 0 then left else 0
  }

  /** The bound, for a state that has `k` rounds of patience left. */
  ghost predicate Bounded(s: Sched, k: nat) {
    SwitchesWithin(s, k) ||
    (&& Closed(Rounds(s, k))
     && ActiveSlices(Rounds(s, k)) >= 1
     && SwitchesWithin(s, k + ActiveSlices(Rounds(s, k))))
  }

  lemma BoundedLater(s: Sched, k: nat)
    requires Bounded(Round(s), k)
    ensures Bounded(s, k + 1)
  {
    hide Round, SwitchesWithin, ActiveSlices, Closed;
    assert Rounds(s, 0) == s && Rounds(s, 1) == Round(s);
    RoundsAdd(s, 1, k);
    if SwitchesWithin(Round(s), k) {
      SwitchesLater(s, k, k + 1);
    } else {
      var n := k + ActiveSlices(Rounds(Round(s), k));
      SwitchesLater(s, n, n + 1);
    }
  }

  lemma PatienceShrinks(s: Sched)
    requires Closed(s) && s.expiredStamp != 0 && Patience(s) > 0 && Round(s).active == s.active
    ensures Patience(Round(s)) == Patience(s) - 1
    ensures Closed(Round(s)) && Round(s).expiredStamp != 0
  {
    RoundStep(s);
    hide Round, NrRunning, Closed;
  }

  /** Bounded array switch: once the expired timestamp is set, the arrays switch within the patience
      of the starvation test plus the jiffies left in the active array when it is exhausted. */
  lemma {:induction false} BoundedSwitch(s: Sched)
    requires Closed(s) && s.expiredStamp != 0
    ensures Bounded(s, Patience(s))
    decreases Patience(s)
  {
    hide Round, NrRunning, SwitchesWithin, ActiveSlices, Bounded;
    if Patience(s) == 0 {
      NoPatience(s);
    } else if Round(s).active != s.active {
      SwitchesNow(s, Patience(s));
      assert Bounded(s, Patience(s)) by {
        BoundedNow(s, Patience(s));
      }
    } else {
      PatienceShrinks(s);
      BoundedSwitch(Round(s));
      BoundedLater(s, Patience(Round(s)));
    }
  }

  lemma BoundedNow(s: Sched, k: nat)
    requires SwitchesWithin(s, k)
    ensures Bounded(s, k)
  {
  }

  lemma NoPatience(s: Sched)
    requires Closed(s) && s.expiredStamp != 0 && Patience(s) == 0
    ensures Bounded(s, 0)
  {
    ActiveSlicesPositive(s);
    NrSameRows(s, s.(jiffies := s.jiffies + 1));
    hide Round, NrRunning, SwitchesWithin, ActiveSlices, Closed;
    assert Rounds(s, 0) == s;
    StarvingSwitch(s, ActiveSlices(s));
  }

  /** The patience is at most the starvation limit, which grows with the number of queued tasks. */
  lemma PatienceBound(s: Sched)
    requires s.expiredStamp <= s.jiffies
    ensures Patience(s) <= STARVATION_LIMIT * NrRunning(s)
  {
    hide NrRunning;
    assert 0 <= STARVATION_LIMIT * NrRunning(s);
  }

  // ---------------------------------------------------------------- a bound known at the start

  lemma {:induction false} SumBound(f: Id -> int, keys: set<Id>, b: nat, n: nat)
    requires forall x: Id :: f(x) <= if x in keys then b else 0
    ensures Sum(f, n) <= b * |set x | x in keys && x < n|
  {
    if n > 0 {
      var below, upTo := set x | x in keys && x < n - 1, set x | x in keys && x < n;
      SumBound(f, keys, b, n - 1);
      if n - 1 in keys {
        assert upTo == below + {n - 1};
        assert b * (|below| + 1) == b * |below| + b;
      } else {
        assert upTo == below;
      }
    }
  }

  /** No task has more than six seconds left, so the active array has no more than that for each task. */
  lemma ActiveSlicesBound(s: Sched)
    requires Closed(s)
    ensures ActiveSlices(s) <= 6 * HZ * NrRunning(s)
  {
    hide NrRunning, Queued;
    forall x: Id
      ensures SliceIn(s)(x) <= if x in s.tasks.Keys then 6 * HZ else 0
      ensures x in s.tasks.Keys ==> x < PID_MAX && s.tasks[x].onArr.Some?
    {
      assert x in s.tasks ==> TaskOk(s.tasks[x], s.jiffies) && Resident(s, x);
    }
    NrRunningCounts(s);
    assert AllQueued(s) == set x | x in s.tasks.Keys && x < PID_MAX;
    SumBound(SliceIn(s), s.tasks.Keys, 6 * HZ, PID_MAX);
  }

  lemma {:induction false} RoundsNr(s: Sched, k: nat)
    requires Closed(s)
    ensures Closed(Rounds(s, k)) && NrRunning(Rounds(s, k)) == NrRunning(s)
  {
    hide Round, Closed, NrRunning;
    if k > 0 {
      RoundsNr(s, k - 1);
      RoundStep(Rounds(s, k - 1));
    }
  }

  /** Eight seconds for each task: two are the limit of the starvation test and six the longest slice. */
  function SwitchLimit(n: nat): nat {
    var each: nat := 8 * HZ;
    each * n
  }

  /** The bound in terms of the number of tasks alone. */
  lemma SwitchFromStart(s: Sched)
    requires Closed(s) && s.expiredStamp != 0
    ensures SwitchesWithin(s, SwitchLimit(NrRunning(s)))
  {
    hide Round, Rounds, Closed, NrRunning, ActiveSlices, SwitchesWithin;
    StampPast(s);
    BoundedSwitch(s);
    PatienceBound(s);
    var k := Patience(s);
    var n := NrRunning(s);
    LimitParts(n);
    if SwitchesWithin(s, k) {
      SwitchesMore(s, k, SwitchLimit(n));
    } else {
      RoundsNr(s, k);
      ActiveSlicesBound(Rounds(s, k));
      SwitchesMore(s, k + ActiveSlices(Rounds(s, k)), SwitchLimit(n));
    }
  }

  lemma LimitParts(n: nat)
    ensures SwitchLimit(n) == STARVATION_LIMIT * n + 6 * HZ * n && 0 <= 6 * HZ * n
  {
  }

  lemma StampPast(s: Sched)
    requires Closed(s)
    ensures s.expiredStamp <= s.jiffies
  {
  }

  lemma SwitchesMore(s: Sched, n: nat, k: nat)
    requires SwitchesWithin(s, n) && n <= k
    ensures SwitchesWithin(s, k)
  {
    hide Rounds;
  }
}
