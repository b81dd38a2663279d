/** Queue order at fork and at yield, and whom schedule picks next. */
module ForkYield {
  import opened Params
  import opened Rows
  import opened SchedModel
  import opened SchedInvariant
  import opened SchedSteps
  import opened SchedFrames
  import opened PickOrder

  lemma AheadAsymmetric(r: seq<Id>, x: Id, y: Id)
    requires NoDup(r) && Ahead(r, x, y)
    ensures !Ahead(r, y, x)
  {
    var i, j :| 0 <= i < j < |r| && r[i] == x && r[j] == y;
    assert forall k, l :: 0 <= k < l < |r| ==> r[k] != y || r[l] != x;
  }

  lemma BeforeAsymmetric(s: Sched, x: Id, y: Id)
    requires InvNoCurr(s) && IsQueued(s, x) && IsQueued(s, y) && Before(s, x, y)
    ensures !Before(s, y, x)
  {
    hide Ahead;
    var a, k := s.tasks[x].onArr.value, s.tasks[x].prio;
    if a == s.tasks[y].onArr.value && k == s.tasks[y].prio {
      RowFresh(s, IDLE, a, k);
      AheadAsymmetric(Row(s, a, k), x, y);
    }
  }

  /** A task that stays queued behind another one is not the one schedule picks. */
  lemma BehindIsNotPicked(s: Sched, signal: bool, x: Id)
    requires Inv(s) && IsQueued(s, s.curr) && IsQueued(s, x) && x != s.curr
    requires Before(s, x, s.curr)
    ensures Schedule(s, signal).curr != s.curr
  {
    var s1 := PutPrev(s, signal);
    PutPrevOthers(s, signal);
    ScheduleIsFirst(s, signal);
    if IsQueued(s1, s.curr) {
      assert s1.tasks[x] == s.tasks[x];
      assert Before(s1, x, s.curr);
      BeforeAsymmetric(s1, x, s.curr);
    }
    hide Before, PutPrev, Schedule;
  }

  /** PutPrev touches no other task, and either takes the current task off or leaves all rows. */
  lemma PutPrevOthers(s: Sched, signal: bool)
    requires Inv(s) && IsQueued(s, s.curr)
    ensures var s1 := PutPrev(s, signal);
            && s1.tasks.Keys == s.tasks.Keys && s1.active == s.active && s1.curr == s.curr
            && (forall x :: x in s.tasks && x != s.curr ==> s1.tasks[x] == s.tasks[x])
            && (IsQueued(s1, s.curr) ==>
                  s1.rows == s.rows && s1.tasks[s.curr].onArr == s.tasks[s.curr].onArr
                  && s1.tasks[s.curr].prio == s.tasks[s.curr].prio)
  {
  }

  // ---------------------------------------------------------------- fork

  lemma ShortForkedRows(s: Sched, child: Id)
    requires Inv(s) && Enabled(s, Clone(child))
    requires ShortTask(s.tasks[s.curr]) && s.tasks[s.curr].timeSlice >= 2
    ensures var s' := ShortForked(s, child);
            var t := s.tasks[s.curr];
            var mine := Row(s, RtShort, t.prio);
            && Row(s', RtShort, t.prio) ==
               (if t.prio == t.staticPrio then [child] else []) + (Without(mine, s.curr) + [s.curr])
            && (t.prio != t.staticPrio ==> Row(s', RtShort, t.staticPrio) == [child] + Row(s, RtShort, t.staticPrio))
            && (forall a, k :: a != RtShort || (k != t.prio && k != t.staticPrio) ==> Row(s', a, k) == Row(s, a, k))
            && s'.curr == s.curr && s'.active == s.active
            && IsQueued(s', child) && s'.tasks[child].onArr == Some(RtShort) && s'.tasks[child].prio == t.staticPrio
            && IsQueued(s', s.curr) && s'.tasks[s.curr].onArr == Some(RtShort) && s'.tasks[s.curr].prio == t.prio
  {
  }

  lemma ChildBeforeParent(s: Sched, child: Id)
    requires Inv(s) && Enabled(s, Clone(child))
    requires ShortTask(s.tasks[s.curr]) && s.tasks[s.curr].timeSlice >= 2
    ensures var s' := ShortForked(s, child);
            && IsQueued(s', child) && IsQueued(s', s.curr)
            && (Before(s', child, s.curr) <==> s.tasks[s.curr].staticPrio <= s.tasks[s.curr].prio)
  {
    ShortForkedRows(s, child);
    hide ShortForked, Without;
    var t := s.tasks[s.curr];
    var r := Row(ShortForked(s, child), RtShort, t.prio);
    if t.prio == t.staticPrio {
      assert r[0] == child && r[|r| - 1] == s.curr;
      assert Ahead(r, child, s.curr);
    }
  }

  /** The child-first fork of a SHORT task with at least two jiffies: the parent goes to the tail of
      its row, the child to the head of the row of its static priority, every other row and the
      order of all other tasks stay; no task keeps `justGotForked`; and the child stands before the
      parent exactly if the parent's priority has not become better than its static priority. */
  lemma ChildFirst(s: Sched, child: Id)
    requires Inv(s) && Enabled(s, Clone(child))
    requires ShortTask(s.tasks[s.curr]) && s.tasks[s.curr].timeSlice >= 2
    ensures var s' := Step(s, Clone(child));
            var t := s.tasks[s.curr];
            var mine := Row(s, RtShort, t.prio);
            && Row(s', RtShort, t.prio) ==
               (if t.prio == t.staticPrio then [child] else []) + (Without(mine, s.curr) + [s.curr])
            && (t.prio != t.staticPrio ==> Row(s', RtShort, t.staticPrio) == [child] + Row(s, RtShort, t.staticPrio))
            && (forall a, k :: a != RtShort || (k != t.prio && k != t.staticPrio) ==> Row(s', a, k) == Row(s, a, k))
            && NoFork(s'.tasks)
            && IsQueued(s', child) && IsQueued(s', s.curr)
            && (Before(s', child, s.curr) <==> t.staticPrio <= t.prio)
  {
    hide Fork, ShortForked, Before, Without, Queued, TasksOk, Row, NoFork, ShortTask;
    ForkKeeps(s, child);
    ShortForkShape(s, child);
    ShortForkedRows(s, child);
    ChildBeforeParent(s, child);
    ForkIs(s, child);
  }

  lemma ForkIs(s: Sched, child: Id)
    requires Enabled(s, Clone(child))
    ensures Step(s, Clone(child)) == Fork(s, child)
  {
    hide Fork;
  }

  lemma LastJiffyFork(s: Sched, child: Id)
    requires Inv(s) && Enabled(s, Clone(child))
    requires ShortTask(s.tasks[s.curr]) && s.tasks[s.curr].timeSlice == 1
    ensures var s' := Step(s, Clone(child));
            && Inv(s') && s'.curr == s.curr && IsQueued(s', child) && IsQueued(s', s.curr)
            && ShortTask(s'.tasks[child]) && OverdueTask(s'.tasks[s.curr])
            && Before(s', child, s.curr)
  {
    hide Fork, NewChild, ForkedParent, Ahead, Queued, NoFork, ClockOk;
    var s' := Step(s, Clone(child));
    ForkKeeps(s, child);
    ForkCores(s, child);
    LastJiffyRecords(s);
    ForkQueuesChild(s, child);
    assert TaskOk(s'.tasks[child], s'.jiffies) && TaskOk(s'.tasks[s.curr], s'.jiffies);
  }

  lemma LastJiffyRecords(s: Sched)
    requires Inv(s) && s.curr in s.tasks
    requires ShortTask(s.tasks[s.curr]) && s.tasks[s.curr].timeSlice == 1
    ensures OverdueTask(ForkedParent(s)) && ShortTask(NewChild(s))
  {
    assert TaskOk(s.tasks[s.curr], s.jiffies);
  }

  lemma EnqueueQueues(s: Sched, p: Id, a: Arr)
    requires p in s.tasks
    ensures Enqueue(s, p, a).curr == s.curr && IsQueued(Enqueue(s, p, a), p)
  {
  }

  lemma ForkQueuesChild(s: Sched, child: Id)
    requires Inv(s) && Enabled(s, Clone(child))
    ensures Fork(s, child).curr == s.curr && IsQueued(Fork(s, child), child)
  {
    hide ForkParent, NewChild, WithSleepBonus, CoreOf, Enqueue;
    ForkParentCores(s);
    var s1 := Upd(ForkParent(s), child, NewChild(s));
    var s2 := Upd(s1, child, WithSleepBonus(NewChild(s), s1.jiffies));
    EnqueueQueues(s2, child, Home(NewChild(s), s1.active));
  }

  /** After any fork by a SHORT task whose priority is not better than its static priority, the
      next task schedule picks is not the parent; in the last-jiffy case because the parent has
      become overdue. */
  lemma ParentYieldsToChild(s: Sched, child: Id, signal: bool)
    requires Inv(s) && Enabled(s, Clone(child))
    requires ShortTask(s.tasks[s.curr]) && s.tasks[s.curr].staticPrio <= s.tasks[s.curr].prio
    ensures Schedule(Step(s, Clone(child)), signal).curr != s.curr
  {
    hide Fork, Before, Schedule, Row, Without, NoFork, ShortTask, Queued, ClockOk, Step;
    assert TaskOk(s.tasks[s.curr], s.jiffies);
    ForkKeeps(s, child);
    ForkQueuesChild(s, child);
    ForkIs(s, child);
    if s.tasks[s.curr].timeSlice >= 2 {
      ChildFirst(s, child);
    } else {
      LastJiffyFork(s, child);
    }
    BehindIsNotPicked(Step(s, Clone(child)), signal, child);
  }

  // ---------------------------------------------------------------- yield

  /** A yield moves the yielder only: without it every row is as it was, and no other record changes. */
  lemma YieldMovesOnlyYielder(s: Sched)
    requires Inv(s) && s.curr in s.tasks
    ensures var s' := YieldQueue(s);
            && (forall a, k :: Without(Row(s', a, k), s.curr) == Without(Row(s, a, k), s.curr))
            && s'.tasks.Keys == s.tasks.Keys
            && (forall x :: x in s.tasks && x != s.curr ==> s'.tasks[x] == s.tasks[x])
            && s'.tasks[s.curr].onArr == s.tasks[s.curr].onArr
            && s.tasks[s.curr].prio <= s'.tasks[s.curr].prio < MAX_PRIO
  {
    var p := s.curr;
    var t := s.tasks[p];
    var a := t.onArr.value;
    var s1 := Unlink(s, p, a);
    var s' := YieldQueue(s);
    UnlinkKeeps(s, p, a);
    YieldRowRange(s1, a, t.prio);
    hide YieldRow;
    forall b, k
      ensures Without(Row(s', b, k), p) == Without(Row(s, b, k), p)
    {
      var r := Row(s1, b, k);
      RowFresh(s1, p, b, k);
      WithoutAbsent(r, p);
      assert r == Without(Row(s, b, k), p) by {
        YielderOnlyHere(s, b, k);
      }
      WithoutTail(r, p);
      WithoutSecond(r, p);
    }
  }

  lemma YielderOnlyHere(s: Sched, b: Arr, k: int)
    requires Inv(s) && s.curr in s.tasks
    ensures Row(Unlink(s, s.curr, s.tasks[s.curr].onArr.value), b, k) == Without(Row(s, b, k), s.curr)
  {
    if s.tasks[s.curr].onArr != Some(b) || s.tasks[s.curr].prio != k {
      assert s.curr !in Row(s, b, k);
      WithoutAbsent(Row(s, b, k), s.curr);
    }
  }

  lemma {:induction false} WithoutTail(r: seq<Id>, p: Id)
    requires p !in r
    ensures Without(r + [p], p) == r
  {
    if r != [] {
      assert (r + [p])[1..] == r[1..] + [p];
      WithoutTail(r[1..], p);
    }
  }

  lemma WithoutSecond(r: seq<Id>, p: Id)
    requires p !in r
    ensures Without(InsertSecond(r, p), p) == r
  {
    if r != [] {
      var i := InsertSecond(r, p);
      assert i[1..] == [p] + r[1..];
      assert i[1..][1..] == r[1..];
    }
  }

  /** After a task that is not real-time yields, the first task of its array is another one,
      if the array holds any other. */
  lemma YielderIsNotHead(s: Sched, y: Id)
    requires Inv(s) && s.curr in s.tasks && !RtTask(s.tasks[s.curr])
    requires IsQueued(s, y) && y != s.curr && s.tasks[y].onArr == s.tasks[s.curr].onArr
    ensures var a := s.tasks[s.curr].onArr.value;
            Busy(YieldQueue(s), a) && Head(YieldQueue(s), a) != s.curr
  {
    var p := s.curr;
    var t := s.tasks[p];
    var a := t.onArr.value;
    var s1 := Unlink(s, p, a);
    var s' := YieldQueue(s);
    var i := YieldRow(s1, a, t.prio);
    UnlinkKeeps(s, p, a);
    var f := FindRow(s1, a, 0);
    assert f < MAX_PRIO by {
      var c := Cell(a, s.tasks[y].prio);
      assert c in s1.rows && y in s1.rows[c];
      assert Row(s1, a, c.prio) != [];
    }
    RowFresh(s1, p, a, f);
    assert Row(s1, a, f)[0] != p;
    assert Row(s', a, f) != [];
    assert f <= i;
    forall k | 0 <= k < f
      ensures Row(s', a, k) == []
    {
      assert Row(s1, a, k) == [];
    }
    assert Row(s', a, f)[0] == Row(s1, a, f)[0];
    FindRowIs(s', a, f);
  }

  lemma HeadBeforeYielder(s: Sched, y: Id)
    requires Inv(s) && s.curr in s.tasks && !RtTask(s.tasks[s.curr])
    requires IsQueued(s, y) && y != s.curr && s.tasks[y].onArr == s.tasks[s.curr].onArr
    ensures var s' := YieldQueue(s);
            var a := s.tasks[s.curr].onArr.value;
            && Inv(s') && s'.curr == s.curr && IsQueued(s', s.curr)
            && Busy(s', a) && Head(s', a) != s.curr
            && IsQueued(s', Head(s', a)) && Before(s', Head(s', a), s.curr)
  {
    hide YieldQueue, Before, Without, Queued, TasksOk, Row;
    var a := s.tasks[s.curr].onArr.value;
    YieldQueueKeeps(s);
    YielderIsNotHead(s, y);
    YieldMovesOnlyYielder(s);
    YieldCores(s);
    BusyHolds(YieldQueue(s), a);
    HeadIsFirst(YieldQueue(s), a, s.curr);
  }

  /** A yield by a task that is not real-time gives the processor away whenever its array holds
      another task. */
  lemma YieldGivesWay(s: Sched, y: Id, signal: bool)
    requires Inv(s) && s.curr in s.tasks && !RtTask(s.tasks[s.curr])
    requires IsQueued(s, y) && y != s.curr && s.tasks[y].onArr == s.tasks[s.curr].onArr
    ensures Step(s, YieldCpu(signal)).curr != s.curr
  {
    hide YieldQueue, Before, Schedule, Without, Inv, FindRow;
    var a := s.tasks[s.curr].onArr.value;
    HeadBeforeYielder(s, y);
    BehindIsNotPicked(YieldQueue(s), signal, Head(YieldQueue(s), a));
  }

  /** A real-time yield goes to the tail of its own row; the yielder is the head of the array
      afterwards exactly if every other task there has a worse priority. */
  lemma RtYield(s: Sched)
    requires Inv(s) && s.curr in s.tasks && RtTask(s.tasks[s.curr])
    ensures var s' := YieldQueue(s);
            var k := s.tasks[s.curr].prio;
            && Row(s', RtShort, k) == Without(Row(s, RtShort, k), s.curr) + [s.curr]
            && Busy(s', RtShort)
            && (Head(s', RtShort) == s.curr <==>
                  forall y :: IsQueued(s, y) && y != s.curr && s.tasks[y].onArr == Some(RtShort) ==> s.tasks[y].prio > k)
  {
    var p := s.curr;
    var k := s.tasks[p].prio;
    var s' := YieldQueue(s);
    assert TaskOk(s.tasks[p], s.jiffies);
    YieldQueueKeeps(s);
    assert s'.tasks == s.tasks;
    HeadIsFirst(s', RtShort, p);
    hide YieldQueue;
    var n := Head(s', RtShort);
    HeadIsQueued(s', RtShort, FindRow(s', RtShort, 0));
    if n == p {
      forall y | IsQueued(s, y) && y != p && s.tasks[y].onArr == Some(RtShort)
        ensures s.tasks[y].prio > k
      {
        QueuedInRow(s', y);
        QueuedInRow(s', p);
        if s.tasks[y].prio == k {
          RtTailAlone(Without(Row(s, RtShort, k), p), p, y);
        }
      }
    } else {
      BusyHolds(s', RtShort);
      assert s.tasks[n].prio <= k;
    }
  }

  lemma RtTailAlone(r: seq<Id>, p: Id, y: Id)
    requires (r + [p])[0] == p && NoDup(r + [p]) && y != p
    ensures y !in r + [p]
  {
    assert (r + [p])[|r|] == p;
    assert |r| == 0;
  }
}
