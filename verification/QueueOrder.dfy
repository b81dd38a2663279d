/** No step reorders the tasks it is not about: over every run two tasks of a row keep their order as long
    as neither of them is moved. */
module QueueOrder {
  import opened Params
  import opened Rows
  import opened SchedModel
  import opened SchedInvariant
  import opened SchedSteps
  import opened PickOrder
  import opened ForkYield
  import opened Places

  /** The tasks a step may take from their places. */
  ghost function Moved(s: Sched, e: Event): set<Id>
  {
    match e
    case Tick => {s.curr}
    case Resched(_) => {s.curr}
    case YieldCpu(_) => {s.curr}
    case Clone(c) => {s.curr, c}
    case Wake(p) => {p}
    case Renice(p, _) => {p}
    case SetPolicy(r) => {Target(s, r)}
    case SetState(_) => {}
    case Exit(_) => {}
  }

  // ---------------------------------------------------------------- rows without one task

  ghost predicate SameBut(s: Sched, s': Sched, p: Id) {
    forall a, k :: Without(Row(s', a, k), p) == Without(Row(s, a, k), p)
  }

  lemma TailSame(s: Sched, s': Sched, p: Id, b: Arr, j: int)
    requires Queued(s.rows, s.tasks, IDLE) && MovedToTail(s, s', p, b, j)
    ensures SameBut(s, s', p)
  {
    forall a, k
      ensures Without(Row(s', a, k), p) == Without(Row(s, a, k), p)
    {
      RowOnce(s, a, k);
      WithoutElements(Row(s, a, k), p);
      WithoutAbsent(Without(Row(s, a, k), p), p);
      WithoutTail(Without(Row(s, a, k), p), p);
      assert Without(Row(s, a, k), p) + [] == Without(Row(s, a, k), p);
    }
  }

  lemma OffSame(s: Sched, s': Sched, p: Id)
    requires Queued(s.rows, s.tasks, IDLE) && TakenOff(s, s', p)
    ensures SameBut(s, s', p)
  {
    forall a, k
      ensures Without(Row(s', a, k), p) == Without(Row(s, a, k), p)
    {
      RowOnce(s, a, k);
      WithoutElements(Row(s, a, k), p);
      WithoutAbsent(Without(Row(s, a, k), p), p);
    }
  }

  /** Any tick of scheduler_tick moves the current task at most. */
  lemma TickSame(s: Sched)
    requires Inv(s) && s.curr in s.tasks
    ensures SameBut(s, SchedulerTick(s), s.curr)
  {
    hide SliceEnd, RrSliceEnd, Queued, NoFork, MovedToTail;
    var t := s.tasks[s.curr];
    assert TaskOk(t, s.jiffies);
    if t.onArr != Some(Expired(s)) && t.timeSlice == 1 && t.policy != Fifo {
      if t.policy == Rr {
        RrEndPlace(s);
        TailSame(s, RrSliceEnd(s), s.curr, RtShort, RrSliceEnd(s).tasks[s.curr].prio);
      } else {
        SliceEndPlace(s);
        var t' := SliceEnd(s).tasks[s.curr];
        TailSame(s, SliceEnd(s), s.curr, t'.onArr.value, t'.prio);
      }
    }
  }

  // ---------------------------------------------------------------- order in a row

  /** Taking out another task changes no order. */
  lemma {:induction false} AheadWithout(r: seq<Id>, p: Id, x: Id, y: Id)
    requires x != p && y != p
    ensures Ahead(Without(r, p), x, y) <==> Ahead(r, x, y)
  {
    if r != [] {
      assert r == [r[0]] + r[1..];
      AheadCons(r[0], r[1..], x, y);
      if r[0] != p {
        AheadWithout(r[1..], p, x, y);
        AheadCons(r[0], Without(r[1..], p), x, y);
        InWithout(r[1..], p, y);
      }
    }
  }

  lemma {:induction false} InWithout(r: seq<Id>, p: Id, y: Id)
    requires y != p
    ensures y in Without(r, p) <==> y in r
  {
    if r != [] {
      InWithout(r[1..], p, y);
    }
  }

  lemma AheadCons(h: Id, r: seq<Id>, x: Id, y: Id)
    ensures Ahead([h] + r, x, y) <==> (h == x && y in r) || Ahead(r, x, y)
  {
    var c := [h] + r;
    if Ahead(r, x, y) {
      var i, j :| 0 <= i < j < |r| && r[i] == x && r[j] == y;
      assert c[i + 1] == x && c[j + 1] == y;
    }
    if h == x && y in r {
      var j :| 0 <= j < |r| && r[j] == y;
      assert c[0] == x && c[j + 1] == y;
    }
    if Ahead(c, x, y) {
      var i, j :| 0 <= i < j < |c| && c[i] == x && c[j] == y;
      assert r[j - 1] == y;
      if i > 0 {
        assert r[i - 1] == x;
      }
    }
  }

  /** The places of `x` and `y` in one row, compared. */
  ghost predicate OrderSame(s: Sched, s': Sched, x: Id, y: Id) {
    forall a, k :: Ahead(Row(s', a, k), x, y) <==> Ahead(Row(s, a, k), x, y)
  }

  lemma SameButOrder(s: Sched, s': Sched, p: Id, x: Id, y: Id)
    requires SameBut(s, s', p) && x != p && y != p
    ensures OrderSame(s, s', x, y)
  {
    hide Ahead;
    forall a, k
      ensures Ahead(Row(s', a, k), x, y) <==> Ahead(Row(s, a, k), x, y)
    {
      AheadWithout(Row(s, a, k), p, x, y);
      AheadWithout(Row(s', a, k), p, x, y);
    }
  }

  lemma SameRowsOrder(s: Sched, s': Sched, x: Id, y: Id)
    requires SameRows(s, s')
    ensures OrderSame(s, s', x, y)
  {
  }

  // ---------------------------------------------------------------- every step

  lemma ForkOrder(s: Sched, child: Id, x: Id, y: Id)
    requires Inv(s) && Enabled(s, Clone(child)) && x != s.curr && x != child && y != s.curr && y != child
    ensures OrderSame(s, Step(s, Clone(child)), x, y)
  {
    hide Inv, Step, MovedToTail, SameRows, Ahead, Row;
    if ShortTask(s.tasks[s.curr]) && s.tasks[s.curr].timeSlice >= 2 {
      ChildFirst(s, child);
      ShortForkOrder(s, Step(s, Clone(child)), child, x, y);
    } else {
      SliceOfMember(s, s.curr);
      ForkPlaces(s, child);
      var s1, s' := ForkParent(s), Step(s, Clone(child));
      ForkParentOrder(s, x, y);
      TailSameOrder(s1, s', child, s'.tasks[child].onArr.value, s'.tasks[child].prio, x, y);
      OrderTrans(s, s1, s', x, y);
    }
  }

  lemma OrderTrans(s: Sched, s1: Sched, s2: Sched, x: Id, y: Id)
    requires OrderSame(s, s1, x, y) && OrderSame(s1, s2, x, y)
    ensures OrderSame(s, s2, x, y)
  {
    hide Ahead;
  }

  lemma TailSameOrder(s: Sched, s': Sched, p: Id, b: Arr, j: int, x: Id, y: Id)
    requires MovedToTail(s, s', p, b, j) && x != p && y != p
    ensures OrderSame(s, s', x, y)
  {
    hide Ahead;
    forall a, k
      ensures Ahead(Row(s', a, k), x, y) <==> Ahead(Row(s, a, k), x, y)
    {
      var r := Without(Row(s, a, k), p);
      AheadWithout(Row(s, a, k), p, x, y);
      AheadSnoc(r, p, x, y);
      assert r + [] == r;
    }
  }

  lemma AheadSnoc(r: seq<Id>, p: Id, x: Id, y: Id)
    requires y != p
    ensures Ahead(r + [p], x, y) <==> Ahead(r, x, y)
  {
    var c := r + [p];
    if Ahead(r, x, y) {
      var i, j :| 0 <= i < j < |r| && r[i] == x && r[j] == y;
      assert c[i] == x && c[j] == y;
    }
  }

  lemma ForkParentOrder(s: Sched, x: Id, y: Id)
    requires Inv(s) && s.curr in s.tasks && x != s.curr && y != s.curr
    ensures OrderSame(s, ForkParent(s), x, y)
  {
    hide SchedulerTick, Queued, Row, Ahead, SameBut, OrderSame;
    var t := s.tasks[s.curr];
    var par := SplitSlice(t).0;
    assert TaskOk(t, s.jiffies);
    if par.timeSlice == 0 {
      var s1 := Upd(s, s.curr, par.(justGotForked := false, timeSlice := 1));
      UpdKeeps(s, s.curr, par.(justGotForked := false, timeSlice := 1));
      TickSame(s1);
      SameButOrder(s1, SchedulerTick(s1), s.curr, x, y);
      UpdOrder(s, s.curr, par.(justGotForked := false, timeSlice := 1), x, y);
      OrderTrans(s, s1, SchedulerTick(s1), x, y);
    } else {
      UpdOrder(s, s.curr, par, x, y);
    }
  }

  lemma UpdOrder(s: Sched, p: Id, t: Task, x: Id, y: Id)
    ensures OrderSame(s, Upd(s, p, t), x, y)
  {
  }

  lemma ShortForkOrder(s: Sched, s': Sched, child: Id, x: Id, y: Id)
    requires s.curr in s.tasks && x != s.curr && x != child && y != s.curr && y != child
    requires var t := s.tasks[s.curr];
             && Row(s', RtShort, t.prio) ==
                (if t.prio == t.staticPrio then [child] else []) + (Without(Row(s, RtShort, t.prio), s.curr) + [s.curr])
             && (t.prio != t.staticPrio ==> Row(s', RtShort, t.staticPrio) == [child] + Row(s, RtShort, t.staticPrio))
             && (forall a, k :: a != RtShort || (k != t.prio && k != t.staticPrio) ==> Row(s', a, k) == Row(s, a, k))
    ensures OrderSame(s, s', x, y)
  {
    hide Ahead, Row;
    var t := s.tasks[s.curr];
    forall a, k
      ensures Ahead(Row(s', a, k), x, y) <==> Ahead(Row(s, a, k), x, y)
    {
      var r := Row(s, a, k);
      AheadCons(child, r, x, y);
      AheadWithout(r, s.curr, x, y);
      AheadSnoc(Without(r, s.curr), s.curr, x, y);
      AheadCons(child, Without(r, s.curr) + [s.curr], x, y);
      assert [] + (Without(r, s.curr) + [s.curr]) == Without(r, s.curr) + [s.curr];
    }
  }

  lemma YieldOrder(s: Sched, signal: bool, x: Id, y: Id)
    requires Inv(s) && Enabled(s, YieldCpu(signal)) && x != s.curr && y != s.curr
    ensures OrderSame(s, Step(s, YieldCpu(signal)), x, y)
  {
    hide YieldQueue, Schedule, Inv, Ahead, OrderSame, SameRows, TakenOff;
    var s1 := YieldQueue(s);
    YieldMovesOnlyYielder(s);
    SameButOrder(s, s1, s.curr, x, y);
    YieldQueueKeeps(s);
    YieldCurr(s);
    PassOrder(s1, signal, x, y);
    OrderTrans(s, s1, Schedule(s1, signal), x, y);
  }

  lemma YieldCurr(s: Sched)
    requires s.curr in s.tasks && s.tasks[s.curr].onArr.Some?
    ensures YieldQueue(s).curr == s.curr
  {
  }

  lemma PassOrder(s: Sched, signal: bool, x: Id, y: Id)
    requires Inv(s) && x != s.curr && y != s.curr
    ensures OrderSame(s, Schedule(s, signal), x, y)
  {
    hide Schedule, SameRows, TakenOff, Ahead, OrderSame, SameBut;
    SchedulePlaces(s, signal);
    if Leaves(s, signal) {
      OffSame(s, Schedule(s, signal), s.curr);
      SameButOrder(s, Schedule(s, signal), s.curr, x, y);
    } else {
      SameRowsOrder(s, Schedule(s, signal), x, y);
    }
  }

  lemma TickOrder(s: Sched, x: Id, y: Id)
    requires Inv(s) && x != s.curr && y != s.curr
    ensures OrderSame(s, Step(s, Tick), x, y)
  {
    hide SchedulerTick, Inv, Ahead, OrderSame, SameBut;
    var s0 := s.(jiffies := s.jiffies + 1);
    ClockAdvances(s);
    ClockOrder(s, x, y);
    if s.curr in s.tasks {
      TickSame(s0);
      SameButOrder(s0, SchedulerTick(s0), s.curr, x, y);
      OrderTrans(s, s0, SchedulerTick(s0), x, y);
    } else {
      SchedFrames.TickIdle(s);
    }
  }

  lemma ClockOrder(s: Sched, x: Id, y: Id)
    ensures OrderSame(s, s.(jiffies := s.jiffies + 1), x, y)
  {
  }

  /** Whatever the step, two tasks that it is not about stand in the same rows in the same order. */
  lemma StepKeepsOrder(s: Sched, e: Event, x: Id, y: Id)
    requires Inv(s) && Enabled(s, e) && x !in Moved(s, e) && y !in Moved(s, e)
    ensures OrderSame(s, Step(s, e), x, y)
  {
    hide Inv, Step, MovedToTail, SameRows, OrderSame, Renices, SetScheduler, Home;
    var s' := Step(s, e);
    match e
    case Tick => TickOrder(s, x, y);
    case Resched(signal) =>
      PassOrder(s, signal, x, y);
      PassIsStep(s, signal);
    case YieldCpu(signal) => YieldOrder(s, signal, x, y);
    case Clone(c) => ForkOrder(s, c, x, y);
    case Exit(c) =>
      ReapPlaces(s, c);
      SameRowsOrder(s, s', x, y);
    case SetState(state) => StateOrder(s, state, x, y);
    case Wake(p) =>
      WakePlaces(s, p);
      if s.tasks[p].onArr == None {
        TailSameOrder(s, s', p, Home(s.tasks[p], s.active), s'.tasks[p].prio, x, y);
      } else {
        SameRowsOrder(s, s', x, y);
      }
    case Renice(p, nice) =>
      NicePlaces(s, p, nice);
      if Renices(s.tasks[p], nice) && s.tasks[p].onArr.Some? {
        TailSameOrder(s, s', p, s.tasks[p].onArr.value, NiceToPrio(nice), x, y);
      } else {
        SameRowsOrder(s, s', x, y);
      }
    case SetPolicy(r) =>
      var p := Target(s, r);
      PolicyPlaces(s, r);
      if Reclasses(s, r) && s.tasks[p].onArr.Some? {
        TailSameOrder(s, s', p, s'.tasks[p].onArr.value, s'.tasks[p].prio, x, y);
      } else {
        SameRowsOrder(s, s', x, y);
      }
  }

  lemma PassIsStep(s: Sched, signal: bool)
    ensures Step(s, Resched(signal)) == Schedule(s, signal)
  {
  }

  lemma StateOrder(s: Sched, state: RunState, x: Id, y: Id)
    requires s.curr in s.tasks
    ensures OrderSame(s, Step(s, SetState(state)), x, y)
  {
  }

  // ---------------------------------------------------------------- every run

  ghost predicate NeverMoved(s: Sched, es: seq<Event>, x: Id)
    requires Possible(s, es)
    decreases |es|
  {
    es == [] || (x !in Moved(s, es[0]) && NeverMoved(Step(s, es[0]), es[1..], x))
  }

  /** First come, first served: over every run two tasks that are not moved keep their order, whichever
      other tasks come, go, and are requeued around them. */
  lemma {:induction false} OrderKept(s: Sched, es: seq<Event>, x: Id, y: Id)
    requires Inv(s) && Possible(s, es) && NeverMoved(s, es, x) && NeverMoved(s, es, y)
    ensures OrderSame(s, SchedModel.Run(s, es), x, y)
    decreases |es|
  {
    hide Step, Inv, OrderSame, Moved;
    if es == [] {
      OrderRefl(s, x, y);
    } else {
      var s1 := Step(s, es[0]);
      StepKeepsOrder(s, es[0], x, y);
      StepKeeps(s, es[0]);
      OrderKept(s1, es[1..], x, y);
      OrderTrans(s, s1, SchedModel.Run(s1, es[1..]), x, y);
    }
  }

  lemma OrderRefl(s: Sched, x: Id, y: Id)
    ensures OrderSame(s, s, x, y)
  {
  }
}
