/** The runqueue as the kernel keeps it: task records updated in place, and priority arrays with
    bitmaps and counters.  Every method refines a function of `SchedModel`. */
module RunQueue {
  import opened Params
  import opened Rows
  import opened SchedModel
  import opened SchedInvariant
  import opened SchedSteps
  import SchedFrames

  // ---------------------------------------------------------------- struct prio_array

  type Heads = q: seq<seq<Id>> | |q| == MAX_PRIO witness seq(MAX_PRIO, _ => [])

  /** One bit for each priority, and the delimiter of the bit search. */
  type Bits = b: seq<bool> | |b| == MAX_PRIO + 1 witness seq(MAX_PRIO + 1, _ => false)

  /** A priority array; it is embedded in the runqueue, not an object of its own. */
  datatype PrioArray = PrioArray(nrActive: int, bitmap: Bits, queue: Heads)

  function TotalTo(queue: seq<seq<Id>>, n: nat): nat
    requires n <= |queue|
  {
    if n == 0 then 0 else TotalTo(queue, n - 1) + |queue[n - 1]|
  }

  lemma {:induction false} TotalUpdate(queue: seq<seq<Id>>, n: nat, k: nat, r: seq<Id>)
    requires n <= |queue| && k < |queue|
    ensures TotalTo(queue[k := r], n) == TotalTo(queue, n) + if k < n then |r| - |queue[k]| else 0
  {
    if n > 0 {
      TotalUpdate(queue, n - 1, k, r);
    }
  }

  lemma {:induction false} TotalZero(queue: seq<seq<Id>>, n: nat)
    requires n <= |queue|
    ensures TotalTo(queue, n) == 0 <==> forall k :: 0 <= k < n ==> queue[k] == []
  {
    if n > 0 {
      TotalZero(queue, n - 1);
    }
  }

  /** Bit k is set exactly if queue k is not empty, the delimiter bit is set, and the counter is the
      number of queued tasks. */
  ghost predicate ArrayOk(a: PrioArray) {
    && a.bitmap[MAX_PRIO]
    && (forall k :: 0 <= k < MAX_PRIO ==> (a.bitmap[k] <==> a.queue[k] != []))
    && a.nrActive == TotalTo(a.queue, MAX_PRIO)
  }

  ghost function RowAt(rows: map<Cell, seq<Id>>, a: Arr, k: int): seq<Id> {
    if Cell(a, k) in rows then rows[Cell(a, k)] else []
  }

  /** The arrays are consistent and their queues are the rows of the model. */
  ghost predicate ArraysTied(arrays: map<Arr, PrioArray>, rows: map<Cell, seq<Id>>) {
    && (forall a: Arr :: a in arrays)
    && (forall a: Arr :: ArrayOk(arrays[a]))
    && (forall a: Arr, k :: 0 <= k < MAX_PRIO ==> RowAt(rows, a, k) == arrays[a].queue[k])
  }

  /** The array after row `k` became `r`, with bit and counter as they should be. */
  ghost predicate RowPut(a: PrioArray, k: int, r: seq<Id>, a': PrioArray) {
    && 0 <= k < MAX_PRIO
    && a'.queue == a.queue[k := r]
    && a'.bitmap == a.bitmap[k := r != []]
    && a'.nrActive == a.nrActive + |r| - |a.queue[k]|
  }

  lemma RowPutTied(arrays: map<Arr, PrioArray>, rows: map<Cell, seq<Id>>, a: Arr, k: int, r: seq<Id>, a': PrioArray)
    requires ArraysTied(arrays, rows) && RowPut(arrays[a], k, r, a')
    ensures ArraysTied(arrays[a := a'], rows[Cell(a, k) := r])
  {
    TotalUpdate(arrays[a].queue, MAX_PRIO, k, r);
  }

  /** The sum of the four counters. */
  ghost function SumActive(arrays: map<Arr, PrioArray>): int {
    if A0 in arrays && A1 in arrays && RtShort in arrays && Overdue in arrays
    then arrays[A0].nrActive + arrays[A1].nrActive + arrays[RtShort].nrActive + arrays[Overdue].nrActive
    else 0
  }

  /** Storing the changed array back keeps the arrays tied to the changed model. */
  lemma StoreTied(arrays: map<Arr, PrioArray>, rows: map<Cell, seq<Id>>, a: Arr, k: int, r: seq<Id>, a': PrioArray)
    requires ArraysTied(arrays, rows) && RowPut(arrays[a], k, r, a')
    ensures ArraysTied(arrays[a := a'], rows[Cell(a, k) := r])
    ensures SumActive(arrays[a := a']) == SumActive(arrays) + |r| - |RowAt(rows, a, k)|
  {
    RowPutTied(arrays, rows, a, k, r, a');
    hide ArrayOk;
  }

  /** The part of dequeue_task that changes the array. */
  method RemoveEntry(a: PrioArray, p: Id, prio: int) returns (a': PrioArray)
    requires ArrayOk(a) && 0 <= prio < MAX_PRIO && p in a.queue[prio] && NoDup(a.queue[prio])
    ensures RowPut(a, prio, Without(a.queue[prio], p), a')
  {
    WithoutElements(a.queue[prio], p);
    a' := a.(nrActive := a.nrActive - 1);
    a' := a'.(queue := a'.queue[prio := Without(a'.queue[prio], p)]);
    if a'.queue[prio] == [] {
      a' := a'.(bitmap := a'.bitmap[prio := false]);
    }
  }

  /** The part of enqueue_task that changes the array: list_add or list_add_tail, bit and counter. */
  method AddEntry(a: PrioArray, p: Id, prio: int, atHead: bool) returns (a': PrioArray)
    requires ArrayOk(a) && 0 <= prio < MAX_PRIO
    ensures RowPut(a, prio, if atHead then [p] + a.queue[prio] else a.queue[prio] + [p], a')
  {
    if atHead {
      a' := a.(queue := a.queue[prio := [p] + a.queue[prio]]);
    } else {
      a' := a.(queue := a.queue[prio := a.queue[prio] + [p]]);
    }
    a' := a'.(bitmap := a'.bitmap[prio := true]);
    a' := a'.(nrActive := a'.nrActive + 1);
  }

  /** sched_find_first_bit */
  method FindFirstBit(bitmap: Bits) returns (idx: nat)
    requires bitmap[MAX_PRIO]
    ensures idx <= MAX_PRIO && bitmap[idx]
    ensures forall k :: 0 <= k < idx ==> !bitmap[k]
  {
    idx := 0;
    while !bitmap[idx]
      invariant idx <= MAX_PRIO
      invariant forall k :: 0 <= k < idx ==> !bitmap[k]
      decreases MAX_PRIO - idx
    {
      idx := idx + 1;
    }
  }

  // ---------------------------------------------------------------- struct runqueue

  /** What enqueue_task relies on: only the current task may carry `justGotForked`, and in the
      child-first branch that task is queued in the same array. */
  ghost predicate EnqueueReady(s: Sched, p: Id, a: Arr) {
    && p in s.tasks && 0 <= s.tasks[p].prio < MAX_PRIO
    && (forall i :: i in s.tasks && s.tasks[i].justGotForked ==> i == s.curr)
    && (ForkBranch(s, p) ==>
          var k := s.tasks[s.curr].prio;
          p != s.curr && 0 <= k < MAX_PRIO && s.curr in Row(s, a, k) && NoDup(Row(s, a, k)))
  }

  lemma PlainReady(s: Sched, p: Id, a: Arr)
    requires NoFork(s.tasks) && p in s.tasks && 0 <= s.tasks[p].prio < MAX_PRIO
    ensures EnqueueReady(s, p, a)
  {
  }

  lemma WakeReady(s: Sched, p: Id)
    requires Inv(s) && p in s.tasks
    ensures EnqueueReady(Upd(s, p, WithSleepBonus(s.tasks[p], s.jiffies)), p, Home(s.tasks[p], s.active))
  {
    assert TaskOk(s.tasks[p], s.jiffies);
    var t := WithSleepBonus(s.tasks[p], s.jiffies);
    assert 0 <= t.prio < MAX_PRIO && !t.justGotForked;
    hide WithSleepBonus;
    PlainReady(Upd(s, p, t), p, Home(s.tasks[p], s.active));
  }

  lemma {:induction false} TotalIsLen(queue: Heads, s: Sched, a: Arr, n: nat)
    requires n <= MAX_PRIO
    requires forall k :: 0 <= k < MAX_PRIO ==> Row(s, a, k) == queue[k]
    ensures TotalTo(queue, n) == LenTo(s, a, n)
  {
    if n > 0 {
      TotalIsLen(queue, s, a, n - 1);
    }
  }

  /** The sum of the counters is the number of queued tasks of the specification state. */
  lemma CountIsNrRunning(arrays: map<Arr, PrioArray>, s: Sched)
    requires ArraysTied(arrays, s.rows)
    ensures SumActive(arrays) == NrRunning(s)
  {
    forall a: Arr
      ensures arrays[a].nrActive == Len(s, a)
    {
      assert ArrayOk(arrays[a]);
      assert forall k :: 0 <= k < MAX_PRIO ==> Row(s, a, k) == RowAt(s.rows, a, k);
      TotalIsLen(arrays[a].queue, s, a, MAX_PRIO);
    }
    hide ArrayOk;
  }

  /** The state in which RrSliceEnd takes the current task out. */
  ghost function RrRefilled(s: Sched): Sched
    requires s.curr in s.tasks
  {
    var t := s.tasks[s.curr];
    Upd(s, s.curr, t.(timeSlice := TaskTimeslice(t), firstTimeSlice := false, needResched := true))
  }

  lemma QueuedHere(s: Sched, p: Id)
    requires Inv(s) && p in s.tasks && s.tasks[p].onArr.Some?
    ensures var r := Row(s, s.tasks[p].onArr.value, s.tasks[p].prio); p in r && NoDup(r)
    ensures 0 <= s.tasks[p].prio < MAX_PRIO
  {
    var c := Cell(s.tasks[p].onArr.value, s.tasks[p].prio);
    assert c in s.rows && p in s.rows[c];
  }

  lemma RrReady(s: Sched)
    requires Inv(s) && s.curr in s.tasks && s.tasks[s.curr].policy == Rr
    ensures var s1 := RrRefilled(s);
            var a := Home(s.tasks[s.curr], s.active);
            var r := Row(s1, a, s1.tasks[s.curr].prio);
            s.curr in r && NoDup(r) && EnqueueReady(Unlink(s1, s.curr, a), s.curr, a)
  {
    QueuedHere(s, s.curr);
    hide TaskTimeslice;
    assert TaskOk(s.tasks[s.curr], s.jiffies);
    var s1 := Unlink(RrRefilled(s), s.curr, RtShort);
    PlainReady(s1, s.curr, RtShort);
  }

  /** Neither priority nor slice depends on the reschedule flag. */
  lemma FlagFree(t: Task)
    ensures EffectivePrio(t.(needResched := true)) == EffectivePrio(t)
    ensures FreshSlice(t.(needResched := true)) == FreshSlice(t)
  {
  }

  /** The state after the decrements of scheduler_tick for a task that is not real-time. */
  ghost function Decremented(s: Sched): Sched
    requires s.curr in s.tasks
  {
    var t := s.tasks[s.curr];
    Upd(s, s.curr, t.(sleepAvg := TickedSleepAvg(t), timeSlice := t.timeSlice - 1))
  }

  /** The state in which SliceEnd queues the current task again. */
  ghost function EndRecorded(s: Sched): Sched
    requires s.curr in s.tasks
  {
    var t := s.tasks[s.curr];
    Upd(Unlink(s, s.curr, Home(t, s.active)), s.curr,
        Refilled(t.(sleepAvg := TickedSleepAvg(t))).(needResched := true))
  }

  lemma EndReady(s: Sched)
    requires Inv(s) && s.curr in s.tasks && !RtTask(s.tasks[s.curr]) && s.tasks[s.curr].onArr != Some(Expired(s))
    ensures var d := Decremented(s);
            var a := Home(d.tasks[s.curr], s.active);
            var r := Row(d, a, d.tasks[s.curr].prio);
            && s.curr in r && NoDup(r) && 0 <= d.tasks[s.curr].prio < MAX_PRIO
            && Upd(Unlink(d, s.curr, a), s.curr, Refilled(d.tasks[s.curr]).(needResched := true)) == EndRecorded(s)
  {
    hide Refilled, Home, Inv, NoDup, Without, RtTask;
    HomeOfCurrent(s);
    QueuedHere(s, s.curr);
    DecrementedTask(s.tasks[s.curr], s.active);
  }

  /** The current task is in the array that pointer_to_my_active_prio_array names. */
  lemma HomeOfCurrent(s: Sched)
    requires Inv(s) && s.curr in s.tasks && s.tasks[s.curr].onArr != Some(Expired(s))
    ensures s.tasks[s.curr].onArr == Some(Home(s.tasks[s.curr], s.active))
  {
    assert TaskOk(s.tasks[s.curr], s.jiffies);
  }

  lemma DecrementedTask(t: Task, active: Arr)
    ensures var t1 := t.(sleepAvg := TickedSleepAvg(t), timeSlice := t.timeSlice - 1);
            Home(t1, active) == Home(t, active) && Refilled(t1) == Refilled(t.(sleepAvg := TickedSleepAvg(t)))
  {
    RefilledSlice(t.(sleepAvg := TickedSleepAvg(t)));
    hide Refilled;
  }

  lemma EndEnqueue(s: Sched, b: Arr, x: int)
    requires Inv(s) && s.curr in s.tasks && !RtTask(s.tasks[s.curr])
    ensures EnqueueReady(EndRecorded(s), s.curr, b) && EnqueueReady(EndRecorded(s).(expiredStamp := x), s.curr, b)
  {
    var t := s.tasks[s.curr];
    assert TaskOk(t, s.jiffies);
    RefilledOk(t.(sleepAvg := TickedSleepAvg(t)), s.jiffies);
    RefilledSlice(t.(sleepAvg := TickedSleepAvg(t)));
    hide Refilled, EnqueueReady, Unlink;
    assert NoFork(EndRecorded(s).tasks) by {
      UnlinkSameTasks(s, s.curr, Home(t, s.active));
    }
    PlainReady(EndRecorded(s), s.curr, b);
    PlainReady(EndRecorded(s).(expiredStamp := x), s.curr, b);
  }

  lemma UnlinkSameTasks(s: Sched, p: Id, a: Arr)
    requires p in s.tasks
    ensures Unlink(s, p, a).tasks == s.tasks
  {
  }

  lemma RefilledSlice(t: Task)
    ensures Refilled(t.(timeSlice := t.timeSlice - 1)) == Refilled(t)
    ensures Refilled(t).justGotForked == t.justGotForked
  {
  }

  lemma PrevReady(s: Sched)
    requires Inv(s) && s.curr in s.tasks
    ensures s.tasks[s.curr].onArr.Some? && 0 <= s.tasks[s.curr].prio < MAX_PRIO
    ensures var r := Row(s, s.tasks[s.curr].onArr.value, s.tasks[s.curr].prio); s.curr in r && NoDup(r)
  {
    QueuedHere(s, s.curr);
  }

  /** A counter is zero exactly if no row of the array has a task. */
  lemma EmptyArray(arrays: map<Arr, PrioArray>, s: Sched, a: Arr)
    requires ArraysTied(arrays, s.rows)
    ensures a in arrays && arrays[a].nrActive >= 0 && (arrays[a].nrActive == 0 <==> FindRow(s, a, 0) == MAX_PRIO)
  {
    hide FindRow, TotalTo;
    assert ArrayOk(arrays[a]);
    TotalZero(arrays[a].queue, MAX_PRIO);
    var f := FindRow(s, a, 0);
    assert forall k :: 0 <= k < MAX_PRIO ==> Row(s, a, k) == arrays[a].queue[k] by {
      assert forall k :: 0 <= k < MAX_PRIO ==> Row(s, a, k) == RowAt(s.rows, a, k);
    }
  }

  lemma EmptyArrays(arrays: map<Arr, PrioArray>, s: Sched)
    requires ArraysTied(arrays, s.rows)
    ensures forall a: Arr :: a in arrays && (arrays[a].nrActive == 0 <==> FindRow(s, a, 0) == MAX_PRIO)
    ensures SumActive(arrays) == 0 <==>
            (FindRow(s, A0, 0) == MAX_PRIO && FindRow(s, A1, 0) == MAX_PRIO
             && FindRow(s, RtShort, 0) == MAX_PRIO && FindRow(s, Overdue, 0) == MAX_PRIO)
  {
    hide ArraysTied, FindRow;
    forall a: Arr
      ensures a in arrays && arrays[a].nrActive >= 0 && (arrays[a].nrActive == 0 <==> FindRow(s, a, 0) == MAX_PRIO)
    {
      EmptyArray(arrays, s, a);
    }
  }

  /** The current task, idle or not, is asked to reschedule. */
  predicate CurrFlagged(s: Sched) {
    if s.curr in s.tasks then s.tasks[s.curr].needResched else s.idleResched
  }

  ghost function FlagSet(s: Sched): set<Id> {
    set p | p in s.tasks && s.tasks[p].needResched
  }

  ghost function Flags(s: Sched): nat {
    |FlagSet(s)| + if s.idleResched then 1 else 0
  }

  lemma SwitchFlags(s: Sched, next: Id)
    ensures var s' := SwitchTo(s, next);
            && s'.tasks.Keys == s.tasks.Keys
            && (forall x :: x in s.tasks ==> s'.tasks[x].needResched == (x != s.curr && s.tasks[x].needResched))
            && s'.idleResched == (s.curr in s.tasks && s.idleResched)
  {
  }

  lemma PassFlags(s: Sched, signal: bool)
    requires Inv(s)
    ensures var s' := Schedule(s, signal);
            && s'.tasks.Keys == s.tasks.Keys
            && (forall x :: x in s.tasks ==> s'.tasks[x].needResched == (x != s.curr && s.tasks[x].needResched))
            && s'.idleResched == (s.curr in s.tasks && s.idleResched)
  {
    SchedFrames.PutPrevFlags(s, signal);
    hide PutPrev, PickNext, SwitchTo, Queued, TasksOk;
    var s1 := PutPrev(s, signal);
    PickNextShape(s1);
    SwitchFlags(PickNext(s1).0, PickNext(s1).1);
  }

  lemma FewerFlags(s: Sched, s': Sched)
    requires CurrFlagged(s) && s'.tasks.Keys == s.tasks.Keys
    requires forall x :: x in s.tasks ==> s'.tasks[x].needResched == (x != s.curr && s.tasks[x].needResched)
    requires s'.idleResched == (s.curr in s.tasks && s.idleResched)
    ensures Flags(s') < Flags(s)
  {
    if s.curr in s.tasks {
      assert FlagSet(s') == FlagSet(s) - {s.curr};
      assert s.curr in FlagSet(s);
    } else {
      assert FlagSet(s') == FlagSet(s);
    }
  }

  /** A pass of schedule takes the flag off the task it leaves and sets no other. */
  lemma PassClearsFlag(s: Sched, signal: bool)
    requires Inv(s) && CurrFlagged(s)
    ensures Flags(Schedule(s, signal)) < Flags(s)
  {
    hide Schedule, Flags, CurrFlagged, Inv;
    PassFlags(s, signal);
    FewerFlags(s, Schedule(s, signal));
  }

  lemma NoPasses(s: Sched)
    ensures Possible(s, []) && Run(s, []) == s
  {
  }

  lemma ReschedStep(s: Sched, signal: bool)
    ensures Enabled(s, Resched(signal)) && Step(s, Resched(signal)) == Schedule(s, signal)
  {
  }

  /** The parent with its last jiffy is fit for the forced tick. */
  lemma LastJiffyOk(s: Sched)
    requires Inv(s) && s.curr in s.tasks
    ensures var t := s.tasks[s.curr];
            t.timeSlice / 2 == 0 && !OverdueTask(t) ==> Inv(Upd(s, s.curr, t.(justGotForked := false, timeSlice := 1)))
    ensures s.tasks[s.curr].timeSlice >= 1
  {
    var t := s.tasks[s.curr];
    assert TaskOk(t, s.jiffies);
    UpdKeeps(s, s.curr, t.(justGotForked := false, timeSlice := 1));
  }

  /** The state in which activate_task queues the new child. */
  ghost function ChildBorn(s: Sched, child: Id): Sched
    requires s.curr in s.tasks
  {
    Upd(Upd(ForkParent(s), child, NewChild(s)), child, WithSleepBonus(NewChild(s), s.jiffies))
  }

  lemma ForkReady(s: Sched, child: Id)
    requires Inv(s) && Enabled(s, Clone(child))
    ensures EnqueueReady(ChildBorn(s, child), child, Home(NewChild(s), ForkParent(s).active))
    ensures SameScalars(s, ForkParent(s))
  {
    hide ChildBorn, EnqueueReady, ForkParent, Inv, SameScalars, NewChild;
    ForkParentScalars(s);
    LastJiffyOk(s);
    if ShortTask(s.tasks[s.curr]) && s.tasks[s.curr].timeSlice >= 2 {
      ShortForkReady(s, child);
    } else {
      PlainForkReady(s, child);
    }
  }

  lemma ShortForkReady(s: Sched, child: Id)
    requires Inv(s) && Enabled(s, Clone(child)) && ShortTask(s.tasks[s.curr]) && s.tasks[s.curr].timeSlice >= 2
    ensures EnqueueReady(ChildBorn(s, child), child, Home(NewChild(s), ForkParent(s).active))
  {
    NewChildOk(s);
    QueuedHere(s, s.curr);
    assert TaskOk(s.tasks[s.curr], s.jiffies);
    assert WithSleepBonus(NewChild(s), s.jiffies) == NewChild(s);
    hide NewChild, WithSleepBonus, Queued, TasksOk;
  }

  lemma PlainForkReady(s: Sched, child: Id)
    requires Inv(s) && Enabled(s, Clone(child)) && (!ShortTask(s.tasks[s.curr]) || s.tasks[s.curr].timeSlice == 1)
    ensures EnqueueReady(ChildBorn(s, child), child, Home(NewChild(s), ForkParent(s).active))
  {
    NewChildOk(s);
    ForkParentKeeps(s);
    SleepBonusOk(NewChild(s), s.jiffies);
    BonusForks(NewChild(s), s.jiffies);
    hide ForkParent, NewChild, WithSleepBonus, EnqueueReady, Home;
    PlainReady(ChildBorn(s, child), child, Home(NewChild(s), ForkParent(s).active));
  }

  /** sched_exit on the two records. */
  method TakeBack(parent: Task, child: Task) returns (t: Task)
    ensures t == AfterReap(parent, child)
  {
    t := parent;
    if child.firstTimeSlice {
      t := t.(timeSlice := t.timeSlice + child.timeSlice);
      if t.timeSlice > MAX_TIMESLICE {
        t := t.(timeSlice := MAX_TIMESLICE);
      }
    }
    if child.sleepAvg < t.sleepAvg {
      t := t.(sleepAvg := (t.sleepAvg * EXIT_WEIGHT + child.sleepAvg) / (EXIT_WEIGHT + 1));
    }
  }

  // ---------------------------------------------------------------- yield on one array

  /** The child's record from the split on: its place in the task tree, then the first half of
      wake_up_forked_process.  `s` is the state before the fork. */
  method BearChild(split: Task, parent: Id, ghost s: Sched) returns (c: Task)
    requires s.curr in s.tasks && parent == s.curr
    requires split == SplitSlice(s.tasks[s.curr]).1.(sleepTimestamp := s.jiffies)
    ensures c == NewChild(s)
  {
    hide SplitSlice, EffectivePrio;
    c := split.(onArr := None);
    c := c.(parent := parent);
    c := c.(state := Running);
    if !RtTask(c) {
      c := c.(sleepAvg := c.sleepAvg * CHILD_PENALTY / 100);
      c := c.(prio := EffectivePrio(c));
    }
  }

  lemma InsertSecondLength(r: seq<Id>, p: Id)
    ensures |InsertSecond(r, p)| == |r| + 1
  {
  }

  /** A real-time yield: list_del, then list_add_tail on the same list. */
  method RotateEntry(a: PrioArray, p: Id, prio: int) returns (a': PrioArray)
    requires ArrayOk(a) && 0 <= prio < MAX_PRIO && p in a.queue[prio] && NoDup(a.queue[prio])
    ensures RowPut(a, prio, Without(a.queue[prio], p) + [p], a')
  {
    WithoutElements(a.queue[prio], p);
    a' := a.(queue := a.queue[prio := Without(a.queue[prio], p)]);
    a' := a'.(queue := a'.queue[prio := a'.queue[prio] + [p]]);
  }

  /** The lowest priority from `k` on with a queued task, or MAX_PRIO. */
  function FirstUsed(queue: Heads, k: nat): nat
    requires k <= MAX_PRIO
    decreases MAX_PRIO - k
  {
    if k == MAX_PRIO || queue[k] != [] then k else FirstUsed(queue, k + 1)
  }

  function YieldTarget(queue: Heads, prio: int): int
    requires 0 <= prio < MAX_PRIO
  {
    if queue[prio] != [] then prio
    else
      var i := FirstUsed(queue, 0);
      if i == MAX_PRIO || i <= prio then prio else i
  }

  lemma {:induction false} FirstUsedFrom(queue: Heads, f: nat, k: nat)
    requires k <= f <= MAX_PRIO && (f < MAX_PRIO ==> queue[f] != []) && forall j :: k <= j < f ==> queue[j] == []
    ensures FirstUsed(queue, k) == f
    decreases f - k
  {
    if k < f {
      FirstUsedFrom(queue, f, k + 1);
    }
  }

  lemma FirstUsedIs(queue: Heads, f: nat)
    requires f <= MAX_PRIO && (f < MAX_PRIO ==> queue[f] != []) && forall j :: 0 <= j < f ==> queue[j] == []
    ensures FirstUsed(queue, 0) == f
  {
    FirstUsedFrom(queue, f, 0);
  }

  lemma YieldRowIs(arrays: map<Arr, PrioArray>, s: Sched, a: Arr, prio: int)
    requires ArraysTied(arrays, s.rows) && 0 <= prio < MAX_PRIO
    ensures a in arrays && YieldRow(s, a, prio) == YieldTarget(arrays[a].queue, prio)
  {
    assert forall k :: 0 <= k < MAX_PRIO ==> Row(s, a, k) == RowAt(s.rows, a, k);
    FirstUsedIs(arrays[a].queue, FindRow(s, a, 0));
  }

  /** The yield of a task that is not real-time: behind the head of its own list if that has another
      task, else behind the head of the next list.  `mid` is the array without the yielder. */
  method YieldEntry(a: PrioArray, p: Id, prio: int) returns (a': PrioArray, i: int, ghost mid: PrioArray)
    requires ArrayOk(a) && 0 <= prio < MAX_PRIO && p in a.queue[prio] && NoDup(a.queue[prio])
    ensures RowPut(a, prio, Without(a.queue[prio], p), mid)
    ensures 0 <= i < MAX_PRIO && RowPut(mid, i, InsertSecond(mid.queue[i], p), a')
    ensures i == YieldTarget(mid.queue, prio)
  {
    WithoutElements(a.queue[prio], p);
    var left := Without(a.queue[prio], p);
    mid := a.(queue := a.queue[prio := left], bitmap := a.bitmap[prio := left != []], nrActive := a.nrActive - 1);
    a' := a.(queue := a.queue[prio := left]);
    if a'.queue[prio] != [] {
      i := prio;
      a' := a'.(queue := a'.queue[prio := InsertSecond(a'.queue[prio], p)]);
      return;
    }
    a' := a'.(bitmap := a'.bitmap[prio := false]);
    var first := FindFirstBit(a'.bitmap);
    forall k | 0 <= k < first
      ensures mid.queue[k] == []
    {
      assert !a'.bitmap[k];
    }
    FirstUsedIs(mid.queue, first);
    i := if first == MAX_PRIO || first <= prio then prio else first;
    a' := a'.(queue := a'.queue[i := InsertSecond(a'.queue[i], p)]);
    a' := a'.(bitmap := a'.bitmap[i := true]);
  }

  lemma BootReady(first: Id, jiffies: int)
    ensures var s := Bare(first, jiffies);
            && s.tasks[first].onArr == None
            && EnqueueReady(Upd(s, first, WithSleepBonus(s.tasks[first], jiffies)), first, Home(s.tasks[first], s.active))
  {
    var s := Bare(first, jiffies);
    var t := WithSleepBonus(BootTask(), jiffies);
    assert 0 <= t.prio < MAX_PRIO && !t.justGotForked;
    hide WithSleepBonus, AllCells;
    PlainReady(Upd(s, first, t), first, Home(BootTask(), s.active));
  }

  function EmptyPrioArray(): PrioArray {
    PrioArray(0, seq(MAX_PRIO + 1, k => k == MAX_PRIO), seq(MAX_PRIO, _ => []))
  }

  function EmptyArrayMap(): map<Arr, PrioArray> {
    map[A0 := EmptyPrioArray(), A1 := EmptyPrioArray(), RtShort := EmptyPrioArray(), Overdue := EmptyPrioArray()]
  }

  lemma EmptyTied(first: Id, jiffies: int)
    ensures ArraysTied(EmptyArrayMap(), Bare(first, jiffies).rows) && SumActive(EmptyArrayMap()) == 0
  {
    TotalZero(EmptyPrioArray().queue, MAX_PRIO);
    forall a: Arr
      ensures a in EmptyArrayMap() && EmptyArrayMap()[a] == EmptyPrioArray()
    {
      match a
      case A0 => case A1 => case RtShort => case Overdue =>
    }
  }

  lemma RowIs(s: Sched, a: Arr, k: int)
    ensures Row(s, a, k) == RowAt(s.rows, a, k)
  {
  }

  lemma ArrayRow(arrays: map<Arr, PrioArray>, rows: map<Cell, seq<Id>>, a: Arr, k: int)
    requires ArraysTied(arrays, rows) && 0 <= k < MAX_PRIO
    ensures a in arrays && ArrayOk(arrays[a]) && arrays[a].queue[k] == RowAt(rows, a, k)
  {
  }

  // ---------------------------------------------------------------- nice and setscheduler

  lemma NiceReady(s: Sched, p: Id, t: Task)
    requires Inv(s) && p in s.tasks && s.tasks[p].onArr.Some? && 0 <= t.prio < MAX_PRIO
    requires t.justGotForked == s.tasks[p].justGotForked
    ensures EnqueueReady(Upd(Unlink(s, p, s.tasks[p].onArr.value), p, t), p, s.tasks[p].onArr.value)
  {
    hide EnqueueReady;
    PlainReady(Upd(Unlink(s, p, s.tasks[p].onArr.value), p, t), p, s.tasks[p].onArr.value);
  }

  lemma RequeueReady(s: Sched, p: Id, t: Task)
    requires Inv(s) && p in s.tasks && s.tasks[p].onArr.Some?
    requires TaskOk(t.(onArr := None), s.jiffies) && !t.justGotForked
    ensures var s1 := Upd(Deactivate(s, p), p, t.(onArr := None));
            EnqueueReady(Upd(s1, p, WithSleepBonus(s1.tasks[p], s.jiffies)), p, Home(s1.tasks[p], s.active))
  {
    DeactivateKeeps(s, p);
    var t1 := t.(onArr := None);
    SleepBonusOk(t1, s.jiffies);
    BonusForks(t1, s.jiffies);
    hide EnqueueReady, WithSleepBonus, Home, Queued;
    var s1 := Upd(Deactivate(s, p), p, t1);
    PlainReady(Upd(s1, p, WithSleepBonus(t1, s.jiffies)), p, Home(t1, s.active));
  }

  /** The admission part of setscheduler, in the order in which it tests. */
  method Decide(t: Task, r: Request) returns (v: Verdict)
    ensures v == Judge(t, r)
  {
    hide ShortChangeAccepted, ShortChanged;
    var policy := if r.policyCode < 0 then Some(t.policy) else DecodePolicy(r.policyCode);
    if policy == None {
      return Refuse(EINVAL);
    }
    if t.policy == Short {
      if policy != Some(Short) {
        return Refuse(EPERM);
      }
      if !ShortChangeAccepted(t, r.requestedMs) {
        return Refuse(EINVAL);
      }
    } else if policy == Some(Short) {
      if t.policy == Fifo || t.policy == Rr {
        return Refuse(EINVAL);
      }
      if r.requestedMs > MAX_REQUEST_MS || MsToJiffies(r.requestedMs) < MIN_REQUESTED_TIME {
        return Refuse(EINVAL);
      }
    } else {
      v := DecideClass(t, policy.value, r);
      return;
    }
    if !r.euidMatches && !r.callerIsRoot {
      return Refuse(EPERM);
    }
    v := GrantShort(t, r.requestedMs);
  }

  /** The label change_to_short. */
  method GrantShort(t: Task, ms: int) returns (v: Verdict)
    ensures v == if t.policy == Short then ChangeShort(ShortChanged(t, ms))
                 else MakeShort(t.(policy := Short, requestedTime := MsToJiffies(ms), iWasShort := true,
                                   timeSlice := MsToJiffies(ms)))
  {
    var t1 := t;
    var jiffies := MsToJiffies(ms);
    if t.policy == Short {
      var difference := jiffies - t.requestedTime;
      t1 := t1.(requestedTime := jiffies);
      t1 := t1.(timeSlice := U32(t1.timeSlice + difference));
      return ChangeShort(t1);
    }
    t1 := t1.(policy := Short);
    t1 := t1.(requestedTime := jiffies);
    t1 := t1.(iWasShort := true);
    t1 := t1.(timeSlice := t1.requestedTime);
    return MakeShort(t1);
  }

  /** The change between OTHER, FIFO and RR. */
  method DecideClass(t: Task, policy: Policy, r: Request) returns (v: Verdict)
    requires t.policy != Short && policy != Short
    requires Some(policy) == if r.policyCode < 0 then Some(t.policy) else DecodePolicy(r.policyCode)
    ensures v == Judge(t, r)
  {
    if r.schedPriority < 0 || r.schedPriority > MAX_USER_RT_PRIO - 1 {
      return Refuse(EINVAL);
    }
    if (policy == Other) != (r.schedPriority == 0) {
      return Refuse(EINVAL);
    }
    if (policy == Fifo || policy == Rr) && !r.capSysNice {
      return Refuse(EPERM);
    }
    if !r.euidMatches && !r.euidMatchesUid && !r.capSysNice {
      return Refuse(EPERM);
    }
    var t1 := t.(policy := policy, rtPriority := r.schedPriority);
    if policy != Other {
      t1 := t1.(prio := MAX_USER_RT_PRIO - 1 - t1.rtPriority);
    } else {
      t1 := t1.(prio := t1.staticPrio);
    }
    return Reclass(t1);
  }

  lemma VerdictFits(s: Sched, p: Id, r: Request)
    requires Inv(s) && p in s.tasks
    ensures var v := Judge(s.tasks[p], r);
            v.MakeShort? || v.Reclass? ==> VerdictOk(s.tasks[p], v, s.jiffies)
  {
    hide Judge;
    ShortVerdict(s.tasks[p], r);
    if s.tasks[p].policy != Short {
      JudgeOk(s.tasks[p], r, s.jiffies);
    }
  }

  lemma StateKept(s: Sched, state: RunState)
    requires Inv(s) && s.curr in s.tasks
    ensures Inv(Upd(s, s.curr, s.tasks[s.curr].(state := state)))
  {
    PrevReady(s);
    assert TaskOk(s.tasks[s.curr], s.jiffies);
    UpdKeeps(s, s.curr, s.tasks[s.curr].(state := state));
  }

  /** struct runqueue together with the task table of its processor.  A task is named by its pid, and
      a pointer to one of the four embedded arrays is an `Arr`. */
  class Runqueue {
    var arrays: map<Arr, PrioArray>
    var active: Arr
    var expired: Arr
    var nrRunning: int
    var expiredTimestamp: int
    var curr: Id
    var idleResched: bool
    var jiffies: int
    var tasks: map<Id, Task>
    /** The run queue lengths of all processors at the last load balancing of this one. */
    var prevNrRunning: seq<int>
    /** The queues as rows of the specification state. */
    ghost var rows: map<Cell, seq<Id>>

    /** The specification state this object stands for. */
    ghost function View(): Sched
      reads this
    {
      Sched(tasks, rows, active, curr, idleResched, expiredTimestamp, jiffies)
    }

    ghost predicate Ok()
      reads this
    {
      ArraysTied(arrays, rows) && ((active == A0 && expired == A1) || (active == A1 && expired == A0))
    }

    /** nr_running is the number of queued tasks, and the state satisfies the runqueue invariant. */
    ghost predicate Valid()
      reads this
    {
      Ok() && nrRunning == SumActive(arrays) && Inv(View())
    }

    /** sched_init: four empty arrays and the boot task. */
    constructor (first: Id, jiffies: int)
      ensures View() == Bare(first, jiffies)
      ensures arrays == EmptyArrayMap() && nrRunning == 0 && expired == A1
    {
      arrays := EmptyArrayMap();
      active, expired := A0, A1;
      nrRunning, expiredTimestamp := 0, 0;
      curr, idleResched, this.jiffies := first, false, jiffies;
      tasks := map[first := BootTask()];
      rows := map c | c in AllCells() :: [];
    }

    /** The wake_up_process(current) of sched_init. */
    method Start(first: Id)
      requires 0 < first < PID_MAX && jiffies >= 1 && View() == Bare(first, jiffies)
      requires arrays == EmptyArrayMap() && nrRunning == 0 && expired == A1
      modifies this
      ensures Valid() && View() == Boot(first, old(jiffies))
    {
      hide ArraysTied, SumActive, Inv, Woken, EnqueueReady, EmptyPrioArray, EmptyArrayMap,
        WithSleepBonus, Home, BootTask, AllCells;
      BootKeeps(first, jiffies);
      EmptyTied(first, jiffies);
      BootReady(first, jiffies);
      WakeSleeper(first);
      tasks := tasks[first := tasks[first].(state := Running)];
    }

    /** dequeue_task */
    method DequeueTask(p: Id, a: Arr)
      requires Ok() && p in tasks && 0 <= tasks[p].prio < MAX_PRIO
      requires p in Row(View(), a, tasks[p].prio) && NoDup(Row(View(), a, tasks[p].prio))
      modifies this`arrays, this`rows
      ensures Ok() && View() == Unlink(old(View()), p, a)
      ensures SumActive(arrays) == old(SumActive(arrays)) - 1
    {
      hide ArraysTied, ArrayOk, Without, NoDup, SumActive, RowPut, RowAt;
      var k := tasks[p].prio;
      ghost var r := RowAt(rows, a, k);
      RowIs(View(), a, k);
      WithoutElements(r, p);
      ArrayRow(arrays, rows, a, k);
      var changed := RemoveEntry(arrays[a], p, k);
      StoreTied(arrays, rows, a, k, Without(r, p), changed);
      arrays := arrays[a := changed];
      rows := rows[Cell(a, k) := Without(r, p)];
    }

    /** Link a task into its row and point it to its array. */
    method LinkTask(p: Id, a: Arr, atHead: bool)
      requires Ok() && p in tasks && 0 <= tasks[p].prio < MAX_PRIO
      modifies this`arrays, this`rows, this`tasks
      ensures Ok() && View() == if atHead then AddHead(old(View()), p, a) else AddTail(old(View()), p, a)
      ensures SumActive(arrays) == old(SumActive(arrays)) + 1
    {
      var k := tasks[p].prio;
      ghost var r := Row(View(), a, k);
      assert RowAt(rows, a, k) == r;
      assert a in arrays && ArrayOk(arrays[a]) && arrays[a].queue[k] == r;
      ghost var r' := if atHead then [p] + r else r + [p];
      assert |r'| == |r| + 1;
      hide ArraysTied, ArrayOk, SumActive, RowPut, RowAt, Row;
      var changed := AddEntry(arrays[a], p, k, atHead);
      StoreTied(arrays, rows, a, k, r', changed);
      arrays := arrays[a := changed];
      rows := rows[Cell(a, k) := r'];
      tasks := tasks[p := tasks[p].(onArr := Some(a))];
    }

    /** enqueue_task */
    method EnqueueTask(p: Id, a: Arr)
      requires Ok() && EnqueueReady(View(), p, a)
      modifies this`arrays, this`rows, this`tasks
      ensures Ok() && View() == Enqueue(old(View()), p, a)
      ensures SumActive(arrays) == old(SumActive(arrays)) + 1
      decreases if curr in tasks && tasks[curr].justGotForked then 1 else 0
    {
      hide ArraysTied, SumActive, NoDup;
      if curr in tasks && tasks[curr].policy == Short && tasks[curr].justGotForked && !tasks[p].iAmOverdue
         && tasks[p].parent in tasks && tasks[tasks[p].parent].justGotForked {
        var par := tasks[p].parent;
        tasks := tasks[par := tasks[par].(justGotForked := false)];
        DequeueTask(par, a);
        EnqueueTask(par, a);
        LinkTask(p, a, true);
      } else {
        LinkTask(p, a, false);
      }
    }

    /** The sleep bonus of activate_task. */
    method GiveSleepBonus(p: Id)
      requires p in tasks
      modifies this`tasks
      ensures tasks == old(tasks)[p := WithSleepBonus(old(tasks)[p], jiffies)]
    {
      hide EffectivePrio;
      var sleepTime := jiffies - tasks[p].sleepTimestamp;
      if !RtTask(tasks[p]) && sleepTime != 0 {
        tasks := tasks[p := tasks[p].(sleepAvg := tasks[p].sleepAvg + sleepTime)];
        if tasks[p].sleepAvg > MAX_SLEEP_AVG {
          tasks := tasks[p := tasks[p].(sleepAvg := MAX_SLEEP_AVG)];
        }
        tasks := tasks[p := tasks[p].(prio := EffectivePrio(tasks[p]))];
      }
    }

    /** activate_task */
    method ActivateTask(p: Id)
      requires Ok() && p in tasks
      requires EnqueueReady(Upd(View(), p, WithSleepBonus(tasks[p], jiffies)), p, Home(tasks[p], active))
      modifies this`arrays, this`rows, this`tasks, this`nrRunning
      ensures Ok() && View() == Activate(old(View()), p)
      ensures nrRunning - SumActive(arrays) == old(nrRunning - SumActive(arrays))
    {
      hide ArraysTied, SumActive, EnqueueReady, Enqueue, WithSleepBonus, Home;
      var a := Home(tasks[p], active);
      GiveSleepBonus(p);
      EnqueueTask(p, a);
      nrRunning := nrRunning + 1;
    }

    /** deactivate_task */
    method DeactivateTask(p: Id)
      requires Ok() && p in tasks && tasks[p].onArr.Some? && 0 <= tasks[p].prio < MAX_PRIO
      requires var r := Row(View(), tasks[p].onArr.value, tasks[p].prio); p in r && NoDup(r)
      modifies this`arrays, this`rows, this`tasks, this`nrRunning
      ensures Ok() && View() == Deactivate(old(View()), p)
      ensures nrRunning - SumActive(arrays) == old(nrRunning - SumActive(arrays))
    {
      hide ArraysTied, SumActive, NoDup, Row, Without;
      nrRunning := nrRunning - 1;
      DequeueTask(p, tasks[p].onArr.value);
      tasks := tasks[p := tasks[p].(onArr := None)];
    }

    function CurrentPrio(): int
      reads this
    {
      if curr in tasks then tasks[curr].prio else MAX_PRIO
    }

    /** set_tsk_need_resched(current) */
    method ReschedCurrent()
      modifies this`tasks, this`idleResched
      ensures View() == ReschedCurr(old(View()))
    {
      if curr in tasks {
        tasks := tasks[curr := tasks[curr].(needResched := true)];
      } else {
        idleResched := true;
      }
    }

    /** The branch of try_to_wake_up for a task on no array. */
    method WakeSleeper(p: Id)
      requires Ok() && p in tasks
      requires EnqueueReady(Upd(View(), p, WithSleepBonus(tasks[p], jiffies)), p, Home(tasks[p], active))
      modifies this`arrays, this`rows, this`tasks, this`nrRunning, this`idleResched
      ensures Ok() && View() == Woken(old(View()), p)
      ensures nrRunning - SumActive(arrays) == old(nrRunning - SumActive(arrays))
    {
      hide ArraysTied, SumActive, Activate, EnqueueReady, ReschedCurr;
      ActivateTask(p);
      if tasks[p].prio < CurrentPrio() {
        ReschedCurrent();
      }
    }

    /** try_to_wake_up */
    method WakeUp(p: Id) returns (success: bool)
      requires Valid() && p in tasks
      modifies this
      ensures Valid() && (View(), success) == TryToWakeUp(old(View()), p)
    {
      hide ArraysTied, SumActive, Woken, EnqueueReady, Inv;
      WakeKeeps(View(), p);
      WakeReady(View(), p);
      success := false;
      if tasks[p].onArr == None {
        WakeSleeper(p);
        success := true;
      }
      tasks := tasks[p := tasks[p].(state := Running)];
    }

    // -------------------------------------------------------------- the timer tick

    /** EXPIRED_STARVING, on the counter. */
    predicate Starving()
      reads this
    {
      expiredTimestamp != 0 && jiffies - expiredTimestamp >= STARVATION_LIMIT * nrRunning + 1
    }

    /** Dequeue the current task from one array and queue it in another. */
    method MoveCurrent(from: Arr, to: Arr)
      requires Ok() && curr in tasks && EnqueueReady(Unlink(View(), curr, from), curr, to)
      requires var r := Row(View(), from, tasks[curr].prio); curr in r && NoDup(r)
      modifies this`arrays, this`rows, this`tasks
      ensures Ok() && View() == Enqueue(Unlink(old(View()), curr, from), curr, to)
      ensures SumActive(arrays) == old(SumActive(arrays))
    {
      assert 0 <= tasks[curr].prio < MAX_PRIO;
      hide ArraysTied, SumActive, EnqueueReady, Enqueue, NoDup, Unlink;
      DequeueTask(curr, from);
      EnqueueTask(curr, to);
    }

    /** The end of a round-robin slice. */
    method RefillRr()
      requires Valid() && curr in tasks && tasks[curr].policy == Rr
      modifies this`arrays, this`rows, this`tasks
      ensures Ok() && View() == RrSliceEnd(old(View())) && SumActive(arrays) == old(SumActive(arrays))
    {
      hide ArraysTied, SumActive, Inv, TaskTimeslice, Home, Enqueue, Unlink, EnqueueReady, NoDup, Row;
      var p := curr;
      RrReady(View());
      var a := Home(tasks[p], active);
      tasks := tasks[p := tasks[p].(timeSlice := TaskTimeslice(tasks[p]))];
      tasks := tasks[p := tasks[p].(firstTimeSlice := false)];
      tasks := tasks[p := tasks[p].(needResched := true)];
      assert View() == RrRefilled(old(View()));
      MoveCurrent(a, a);
    }

    /** The class change and the refill of a task that is not real-time, whose slice has run out. */
    method ChangeClass(p: Id)
      requires p in tasks
      modifies this`tasks
      ensures tasks == old(tasks)[p := Refilled(old(tasks)[p]).(needResched := true)]
    {
      hide EffectivePrio, FreshSlice;
      var t := tasks[p];
      t := t.(needResched := true);
      if OverdueTask(t) {
        t := t.(policy := Other, iAmOverdue := false, staticPrio := t.overdueStaticPrio,
                requestedTime := INVALID_REQUESTED_TIME);
      } else if ShortTask(t) {
        t := t.(iAmOverdue := true, overdueStaticPrio := t.staticPrio, staticPrio := OVERDUE_PRIO);
      }
      FlagFree(t.(needResched := tasks[p].needResched));
      t := t.(prio := EffectivePrio(t));
      t := t.(firstTimeSlice := false);
      FlagFree(t.(needResched := tasks[p].needResched));
      t := t.(timeSlice := FreshSlice(t));
      tasks := tasks[p := t];
    }

    /** The end of the current task's slice.  `s` is the state before the tick's decrements. */
    method ExpireSlice(ghost s: Sched)
      requires Ok() && nrRunning == SumActive(arrays) && Inv(s)
      requires s.curr in s.tasks && !RtTask(s.tasks[s.curr]) && s.tasks[s.curr].onArr != Some(Expired(s))
      requires View() == Decremented(s) && tasks[curr].timeSlice == 0
      modifies this`arrays, this`rows, this`tasks, this`expiredTimestamp
      ensures Ok() && View() == SliceEnd(s) && SumActive(arrays) == old(SumActive(arrays))
    {
      hide ArraysTied, SumActive, Inv, Refilled, Home, Enqueue, Unlink, EnqueueReady, NoDup, Row, Interactive, NrRunning;
      var p := curr;
      EndReady(s);
      CountIsNrRunning(arrays, View());
      NrSameRows(s, View());
      DequeueTask(p, Home(tasks[p], active));
      ChangeClass(p);
      assert View() == EndRecorded(s);
      if tasks[p].policy == Other && (!Interactive(tasks[p]) || Starving()) {
        if expiredTimestamp == 0 {
          expiredTimestamp := jiffies;
        }
        EndEnqueue(s, expired, expiredTimestamp);
        EnqueueTask(p, expired);
      } else {
        EndEnqueue(s, Home(tasks[p], active), expiredTimestamp);
        EnqueueTask(p, Home(tasks[p], active));
      }
    }

    /** scheduler_tick */
    method SchedulerTick()
      requires Valid()
      modifies this`arrays, this`rows, this`tasks, this`expiredTimestamp
      ensures Valid() && View() == SchedModel.SchedulerTick(old(View()))
    {
      hide ArraysTied, SumActive, Inv, RrSliceEnd, SliceEnd;
      ghost var s := View();
      SchedulerTickKeeps(s);
      if curr !in tasks {
        return;
      }
      var p := curr;
      if tasks[p].onArr == Some(expired) {
        tasks := tasks[p := tasks[p].(needResched := true)];
        return;
      }
      if RtTask(tasks[p]) {
        TickRealTime();
        return;
      }
      TickOther();
    }

    /** The branch of scheduler_tick for a real-time task. */
    method TickRealTime()
      requires Valid() && curr in tasks && RtTask(tasks[curr]) && tasks[curr].onArr != Some(expired)
      modifies this`arrays, this`rows, this`tasks, this`expiredTimestamp
      ensures Ok() && nrRunning == SumActive(arrays) && View() == SchedModel.SchedulerTick(old(View()))
    {
      hide ArraysTied, SumActive, Inv, RrSliceEnd, SliceEnd;
      var p := curr;
      if tasks[p].policy == Rr {
        if tasks[p].timeSlice == 1 {
          RefillRr();
        } else {
          tasks := tasks[p := tasks[p].(timeSlice := tasks[p].timeSlice - 1)];
        }
      }
    }

    /** The rest of scheduler_tick. */
    method TickOther()
      requires Valid() && curr in tasks && !RtTask(tasks[curr]) && tasks[curr].onArr != Some(expired)
      modifies this`arrays, this`rows, this`tasks, this`expiredTimestamp
      ensures Ok() && nrRunning == SumActive(arrays) && View() == SchedModel.SchedulerTick(old(View()))
    {
      hide ArraysTied, SumActive, Inv, RrSliceEnd, SliceEnd;
      ghost var s := View();
      var p := curr;
      var t := tasks[p];
      if t.sleepAvg != 0 {
        t := t.(sleepAvg := t.sleepAvg - 1);
      }
      t := t.(timeSlice := t.timeSlice - 1);
      tasks := tasks[p := t];
      if t.timeSlice == 0 {
        ExpireSlice(s);
      }
    }

    /** The timer interrupt. */
    method TimerTick()
      requires Valid()
      modifies this`arrays, this`rows, this`tasks, this`expiredTimestamp, this`jiffies
      ensures Valid() && View() == SchedModel.TimerTick(old(View()))
    {
      hide ArraysTied, SumActive, Inv, SchedModel.SchedulerTick;
      ClockAdvances(View());
      jiffies := jiffies + 1;
      SchedulerTick();
    }

    // -------------------------------------------------------------- schedule

    /** The previous task stays queued or leaves its array. */
    method PutPrevious(signal: bool)
      requires Valid()
      modifies this`arrays, this`rows, this`tasks, this`nrRunning
      ensures Ok() && nrRunning == SumActive(arrays) && View() == PutPrev(old(View()), signal)
    {
      hide ArraysTied, SumActive, Inv, Deactivate, NoDup;
      if curr in tasks {
        PrevReady(View());
        tasks := tasks[curr := tasks[curr].(sleepTimestamp := jiffies)];
        if tasks[curr].state == Running {
        } else if tasks[curr].state == Interruptible && signal {
          tasks := tasks[curr := tasks[curr].(state := Running)];
        } else {
          DeactivateTask(curr);
        }
      }
    }

    /** The head of the first non-empty queue of an array that has tasks. */
    method FirstTask(a: Arr) returns (next: Id)
      requires Ok() && a in arrays && arrays[a].nrActive != 0
      ensures FindRow(View(), a, 0) < MAX_PRIO && next == Row(View(), a, FindRow(View(), a, 0))[0]
    {
      assert ArrayOk(arrays[a]);
      TotalZero(arrays[a].queue, MAX_PRIO);
      var idx := FindFirstBit(arrays[a].bitmap);
      assert forall k :: 0 <= k < MAX_PRIO ==> Row(View(), a, k) == RowAt(rows, a, k);
      FindRowIs(View(), a, idx);
      next := arrays[a].queue[idx][0];
    }

    /** The choice of the next task, with the array switch. */
    method PickNextTask() returns (next: Id)
      requires Ok() && nrRunning == SumActive(arrays)
      modifies this`active, this`expired, this`expiredTimestamp
      ensures Ok() && (View(), next) == PickNext(old(View()))
    {
      hide ArraysTied, FindRow, Row, SumActive;
      EmptyArrays(arrays, View());
      if nrRunning == 0 {
        next := IDLE;
        expiredTimestamp := 0;
        return;
      }
      if arrays[RtShort].nrActive != 0 {
        next := FirstTask(RtShort);
        return;
      }
      if arrays[active].nrActive != 0 {
        next := FirstTask(active);
        return;
      }
      if arrays[expired].nrActive != 0 {
        next := FirstTask(expired);
        active, expired := expired, active;
        expiredTimestamp := 0;
        return;
      }
      next := FirstTask(Overdue);
    }

    /** One pass of schedule. */
    method SchedulePass(signal: bool)
      requires Valid()
      modifies this
      ensures Valid() && View() == Schedule(old(View()), signal)
    {
      hide ArraysTied, SumActive, Inv, PutPrev, PickNext;
      ScheduleKeeps(View(), signal);
      PutPrevious(signal);
      var next := PickNextTask();
      if curr in tasks {
        tasks := tasks[curr := tasks[curr].(needResched := false)];
      } else {
        idleResched := false;
      }
      curr := next;
    }

    /** schedule: passes until the task it ends with is not asked to reschedule.  `signals` are the
        tasks with a pending signal. */
    method ScheduleAll(signals: set<Id>) returns (ghost passes: seq<Event>)
      requires Valid()
      modifies this
      ensures Valid() && !CurrFlagged(View())
      ensures forall i :: 0 <= i < |passes| ==> passes[i].Resched?
      ensures |passes| >= 1 && Possible(old(View()), passes) && View() == Run(old(View()), passes)
    {
      hide ArraysTied, SumActive, Inv, Schedule, Step, Possible, Run;
      ghost var s := View();
      NoPasses(s);
      passes := [];
      var again := true;
      while again
        invariant Valid()
        invariant Possible(s, passes) && View() == Run(s, passes)
        invariant forall i :: 0 <= i < |passes| ==> passes[i].Resched?
        invariant again || |passes| >= 1
        invariant again <==> passes == [] || CurrFlagged(View())
        decreases if passes == [] then 1 else 0, Flags(View())
      {
        ghost var s1 := View();
        var signal := curr in signals;
        SchedulePass(signal);
        ReschedStep(s1, signal);
        RunThen(s, passes, Resched(signal));
        passes := passes + [Resched(signal)];
        if CurrFlagged(s1) {
          PassClearsFlag(s1, signal);
        }
        again := if curr in tasks then tasks[curr].needResched else idleResched;
      }
    }

    // -------------------------------------------------------------- fork and exit

    /** The slice split of do_fork and the forced tick.  `c` is the copied record of the child. */
    method ShareSlice() returns (c: Task)
      requires Valid() && curr in tasks
      modifies this`arrays, this`rows, this`tasks, this`expiredTimestamp
      ensures Ok() && nrRunning == SumActive(arrays) && View() == ForkParent(old(View()))
      ensures c == SplitSlice(old(tasks[curr])).1.(sleepTimestamp := jiffies)
    {
      hide ArraysTied, SumActive, Inv, SchedModel.SchedulerTick;
      var p := curr;
      var t := tasks[p];
      LastJiffyOk(View());
      c := t;
      if t.policy == Short {
        c := c.(policy := Short);
        if ShortTask(t) {
          c := c.(timeSlice := t.timeSlice / 2 + t.timeSlice % 2);
          t := t.(timeSlice := t.timeSlice / 2);
          t := t.(justGotForked := true);
        }
        c := c.(firstTimeSlice := true);
      } else {
        c := c.(timeSlice := (t.timeSlice + 1) / 2);
        c := c.(firstTimeSlice := true);
        t := t.(timeSlice := t.timeSlice / 2);
      }
      c := c.(sleepTimestamp := jiffies);
      if t.timeSlice == 0 {
        t := t.(justGotForked := false);
        t := t.(timeSlice := 1);
        tasks := tasks[p := t];
        SchedulerTick();
      } else {
        tasks := tasks[p := t];
      }
    }

    /** do_fork from the slice split on, and wake_up_forked_process. */
    method DoFork(child: Id)
      requires Valid() && Enabled(View(), Clone(child))
      modifies this
      ensures Valid() && View() == Fork(old(View()), child)
    {
      hide ArraysTied, SumActive, Inv, EnqueueReady, ForkParent, SplitSlice, NewChild, Activate,
        ReschedCurr, WithSleepBonus, Home;
      ghost var s := View();
      ForkKeeps(s, child);
      ForkReady(s, child);
      var c := ShareSlice();
      c := BearChild(c, curr, s);
      tasks := tasks[child := c];
      ActivateTask(child);
      if !(curr in tasks && OverdueTask(tasks[curr])) {
        ReschedCurrent();
      }
    }

    /** sched_exit, and the removal of the dead task from the task table. */
    method SchedExit(child: Id)
      requires Valid() && Enabled(View(), Exit(child))
      modifies this`tasks
      ensures Valid() && View() == Reap(old(View()), child)
    {
      hide ArraysTied, SumActive, Inv, AfterReap;
      ReapKeeps(View(), child);
      var t := TakeBack(tasks[curr], tasks[child]);
      tasks := tasks[curr := t];
      tasks := map p | p in tasks && p != child :: if tasks[p].parent == child then tasks[p].(parent := IDLE) else tasks[p];
    }

    // -------------------------------------------------------------- yield, nice, setscheduler

    /** The real-time branch of sys_sched_yield. */
    method YieldRealTime()
      requires Valid() && curr in tasks && RtTask(tasks[curr])
      modifies this`arrays, this`rows
      ensures Valid() && View() == YieldQueue(old(View()))
    {
      hide ArraysTied, SumActive, Inv, Without, NoDup, RowPut, RowAt;
      ghost var s := View();
      YieldQueueKeeps(s);
      PrevReady(s);
      var a, k := tasks[curr].onArr.value, tasks[curr].prio;
      ghost var r := RowAt(rows, a, k);
      ArrayRow(arrays, rows, a, k);
      RowIs(s, a, k);
      WithoutElements(r, curr);
      var changed := RotateEntry(arrays[a], curr, k);
      StoreTied(arrays, rows, a, k, Without(r, curr) + [curr], changed);
      arrays := arrays[a := changed];
      rows := rows[Cell(a, k) := Without(r, curr) + [curr]];
      assert rows == YieldQueue(s).rows;
    }

    /** The other branch: the yielder may change its row and with it its priority. */
    method YieldOther()
      requires Valid() && curr in tasks && !RtTask(tasks[curr])
      modifies this`arrays, this`rows, this`tasks
      ensures Valid() && View() == YieldQueue(old(View()))
    {
      hide ArraysTied, SumActive, Inv, Without, InsertSecond, NoDup, RowPut, YieldRow, YieldTarget, RowAt;
      ghost var s := View();
      YieldQueueKeeps(s);
      PrevReady(s);
      var t := tasks[curr];
      var a, k := t.onArr.value, t.prio;
      ghost var r := RowAt(rows, a, k);
      ArrayRow(arrays, rows, a, k);
      RowIs(s, a, k);
      WithoutElements(r, curr);
      var changed, i;
      ghost var mid;
      changed, i, mid := YieldEntry(arrays[a], curr, k);
      StoreTied(arrays, rows, a, k, Without(r, curr), mid);
      ghost var s1 := Unlink(s, curr, a);
      YieldRowIs(arrays[a := mid], s1, a, k);
      ArrayRow(arrays[a := mid], s1.rows, a, i);
      RowIs(s1, a, i);
      ghost var r1 := InsertSecond(RowAt(s1.rows, a, i), curr);
      InsertSecondLength(RowAt(s1.rows, a, i), curr);
      StoreTied(arrays[a := mid], s1.rows, a, i, r1, changed);
      assert arrays[a := mid][a := changed] == arrays[a := changed];
      arrays := arrays[a := changed];
      rows := s1.rows[Cell(a, i) := r1];
      tasks := tasks[curr := t.(prio := i)];
    }

    /** sys_sched_yield up to its call of schedule. */
    method Yield()
      requires Valid() && curr in tasks
      modifies this`arrays, this`rows, this`tasks
      ensures Valid() && View() == YieldQueue(old(View()))
    {
      hide Valid, YieldQueue;
      if RtTask(tasks[curr]) {
        YieldRealTime();
      } else {
        YieldOther();
      }
    }

    /** set_user_nice */
    method SetUserNice(p: Id, nice: int)
      requires Valid() && p in tasks
      modifies this`arrays, this`rows, this`tasks, this`idleResched
      ensures Valid() && View() == SchedModel.SetUserNice(old(View()), p, nice)
    {
      hide ArraysTied, SumActive, Inv, Unlink, Enqueue, EnqueueReady, ReschedCurr, NoDup;
      ghost var s := View();
      NiceKeeps(s, p, nice);
      var t := tasks[p];
      if PrioToNice(t.staticPrio) == nice || nice < -20 || nice > 19 {
        return;
      }
      if RtTask(t) {
        tasks := tasks[p := t.(staticPrio := NiceToPrio(nice))];
        return;
      }
      if OverdueTask(t) {
        tasks := tasks[p := t.(overdueStaticPrio := NiceToPrio(nice))];
        return;
      }
      var t1 := t.(staticPrio := NiceToPrio(nice), prio := NiceToPrio(nice));
      if t.onArr.Some? {
        QueuedHere(s, p);
        NiceReady(s, p, t1);
        UnlinkSameTasks(s, p, t.onArr.value);
        DequeueTask(p, t.onArr.value);
        tasks := tasks[p := t1];
        EnqueueTask(p, t.onArr.value);
        if p == curr {
          ReschedCurrent();
        }
      } else {
        tasks := tasks[p := t1];
      }
    }

    /** deactivate_task, the new record, activate_task. */
    method RequeueTask(p: Id, t: Task)
      requires Valid() && p in tasks && t.onArr == tasks[p].onArr
      requires TaskOk(t.(onArr := None), jiffies) && !t.justGotForked
      modifies this`arrays, this`rows, this`tasks, this`nrRunning
      ensures Valid() && View() == Requeue(old(View()), p, t)
    {
      hide ArraysTied, SumActive, Inv, Deactivate, Activate, EnqueueReady, NoDup, WithSleepBonus, Home;
      RequeueKeeps(View(), p, t);
      if tasks[p].onArr.Some? {
        QueuedHere(View(), p);
        RequeueReady(View(), p, t);
        DeactivateTask(p);
        tasks := tasks[p := t.(onArr := None)];
        ActivateTask(p);
      } else {
        tasks := tasks[p := t];
      }
    }

    /** setscheduler, for every request.  The queues stay consistent always, the task records exactly
        unless it accepts a negative request for a SHORT task. */
    method SetScheduler(r: Request) returns (retval: int)
      requires Valid() && curr in tasks
      modifies this
      ensures Ok() && nrRunning == SumActive(arrays)
      ensures (View(), retval) == SchedModel.SetScheduler(old(View()), r)
      ensures Valid() <==> !AcceptsNegative(old(View()), r)
    {
      hide ArraysTied, SumActive, Inv, Judge, Requeue, ReschedCurr, AcceptsNegative;
      ghost var s := View();
      SetSchedulerKeeps(s, r);
      if !r.paramOk || r.pid < 0 {
        return -EINVAL;
      }
      if !r.copyOk {
        return -EFAULT;
      }
      var p := if r.pid == 0 then curr else r.pid;
      if p !in tasks {
        return -ESRCH;
      }
      VerdictFits(s, p, r);
      assert p == Target(s, r);
      var verdict := Decide(tasks[p], r);
      match verdict
      case Refuse(errno) =>
        return -errno;
      case ChangeShort(t) =>
        tasks := tasks[p := t];
        ReschedCurrent();
        return 0;
      case MakeShort(t) =>
        RequeueTask(p, t);
        ReschedCurrent();
        return 0;
      case Reclass(t) =>
        RequeueTask(p, t);
        return 0;
    }

    /** __set_current_state */
    method SetState(state: RunState)
      requires Valid() && curr in tasks
      modifies this`tasks
      ensures Valid() && View() == Upd(old(View()), curr, old(tasks)[curr].(state := state))
    {
      hide ArraysTied, SumActive, Inv;
      StateKept(View(), state);
      tasks := tasks[curr := tasks[curr].(state := state)];
    }

    /** Any one event of the machine, by the entry point it stands for: one step of the specification. */
    method Perform(e: Event)
      requires Valid() && Enabled(View(), e)
      modifies this
      ensures Valid() && View() == Step(old(View()), e)
    {
      hide Valid, SchedModel.TimerTick, Schedule, TryToWakeUp, Fork, Reap, YieldQueue, SchedModel.SetUserNice,
        SchedModel.SetScheduler, AcceptsNegative;
      CurrentIsQueued();
      match e
      case Tick => TimerTick();
      case Resched(signal) => SchedulePass(signal);
      case SetState(state) => SetState(state);
      case Wake(p) => var _ := WakeUp(p);
      case Clone(c) => DoFork(c);
      case Exit(c) => SchedExit(c);
      case YieldCpu(signal) =>
        Yield();
        SchedulePass(signal);
      case Renice(p, nice) => SetUserNice(p, nice);
      case SetPolicy(r) => var _ := SetScheduler(r);
    }

    lemma CurrentIsQueued()
      requires Valid()
      ensures View().tasks == tasks && View().curr == curr
    {
    }
  }
}
