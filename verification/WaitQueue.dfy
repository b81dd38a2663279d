/** Wait queues and __wake_up_common, on the scheduler and on a view of it that keeps only what a
    waker sees of a task. */
module WaitQueue {
  import opened Rows
  import opened SchedModel
  import opened SchedInvariant
  import opened SchedSteps
  import opened RunQueue

  datatype WaitEntry = WaitEntry(task: Id, exclusive: bool)

  /** What a waker sees of a task: its state, and whether it is on a priority array. */
  datatype Run = Run(state: RunState, queued: bool)

  const AWAKE := Run(Running, true)

  /** `state & mode`; TASK_RUNNING is zero and matches no mode. */
  predicate Matching(state: RunState, mode: set<RunState>) {
    state != Running && state in mode
  }

  // ---------------------------------------------------------------- the scan on the view

  /** __wake_up_common: the view afterwards and the number of exclusive waiters woken. */
  function Scan(m: map<Id, Run>, es: seq<WaitEntry>, mode: set<RunState>, nr: int): (map<Id, Run>, nat) {
    if es == [] then (m, 0)
    else
      var e := es[0];
      if e.task in m && Matching(m[e.task].state, mode) then
        var m1 := m[e.task := AWAKE];
        if !m[e.task].queued && e.exclusive then
          if nr - 1 == 0 then (m1, 1)
          else
            var (m2, k) := Scan(m1, es[1..], mode, nr - 1);
            (m2, k + 1)
        else
          Scan(m1, es[1..], mode, nr)
      else
        Scan(m, es[1..], mode, nr)
  }

  /** Non-exclusive entries come before exclusive ones. */
  ghost predicate Ordered(es: seq<WaitEntry>) {
    forall i, j :: 0 <= i < j < |es| ==> es[i].exclusive ==> es[j].exclusive
  }

  ghost predicate Distinct(es: seq<WaitEntry>) {
    forall i, j :: 0 <= i < j < |es| ==> es[i].task != es[j].task
  }

  ghost predicate Waits(es: seq<WaitEntry>, p: Id) {
    exists i :: 0 <= i < |es| && es[i].task == p
  }

  /** The waiter could be woken as an exclusive one: it matches and is on no array. */
  predicate Wakeable(m: map<Id, Run>, e: WaitEntry, mode: set<RunState>) {
    e.exclusive && e.task in m && Matching(m[e.task].state, mode) && !m[e.task].queued
  }

  /** The wakeable exclusive waiters in queue order.  A task with several entries counts at its first
      one: after that entry it runs or never matched. */
  function Eligible(m: map<Id, Run>, es: seq<WaitEntry>, mode: set<RunState>): seq<Id> {
    EligibleAfter(m, es, mode, {})
  }

  /** The same for the rest of a queue, `seen` being the tasks of the entries before it. */
  function EligibleAfter(m: map<Id, Run>, es: seq<WaitEntry>, mode: set<RunState>, seen: set<Id>): seq<Id> {
    if es == [] then []
    else
      (if es[0].task !in seen && Wakeable(m, es[0], mode) then [es[0].task] else [])
      + EligibleAfter(m, es[1..], mode, seen + {es[0].task})
  }

  /** How many exclusive waiters a call with count `nr` wakes; zero and below mean all. */
  function Share(nr: int, eligible: nat): nat {
    if nr <= 0 || eligible <= nr then eligible else nr
  }

  lemma {:induction false} EligibleUnseen(m: map<Id, Run>, es: seq<WaitEntry>, mode: set<RunState>, seen: set<Id>)
    ensures forall p :: p in EligibleAfter(m, es, mode, seen) ==> p in m && p !in seen
  {
    if es != [] {
      EligibleUnseen(m, es[1..], mode, seen + {es[0].task});
    }
  }

  lemma WaitsTail(es: seq<WaitEntry>, p: Id)
    requires es != [] && Waits(es[1..], p)
    ensures Waits(es, p)
  {
    var i :| 0 <= i < |es[1..]| && es[1..][i].task == p;
    assert es[i + 1].task == p;
  }

  lemma WaitsSplit(es: seq<WaitEntry>, p: Id)
    requires es != []
    ensures Waits(es, p) <==> es[0].task == p || Waits(es[1..], p)
  {
    if Waits(es, p) && es[0].task != p {
      var i :| 0 <= i < |es| && es[i].task == p;
      assert es[1..][i - 1].task == p;
    }
    if Waits(es[1..], p) {
      WaitsTail(es, p);
    }
  }

  /** A change to a task already seen changes no eligibility. */
  lemma {:induction false} EligibleSame(m: map<Id, Run>, p: Id, r: Run, es: seq<WaitEntry>, mode: set<RunState>,
                                        seen: set<Id>)
    requires p in m && p in seen
    ensures EligibleAfter(m[p := r], es, mode, seen) == EligibleAfter(m, es, mode, seen)
  {
    if es != [] {
      EligibleSame(m, p, r, es[1..], mode, seen + {es[0].task});
    }
  }

  lemma DistinctTail(es: seq<WaitEntry>)
    requires es != [] && Distinct(es)
    ensures Distinct(es[1..]) && !Waits(es[1..], es[0].task)
    ensures Ordered(es) ==> Ordered(es[1..])
  {
  }

  /** A scan changes waiters only, and only to AWAKE. */
  lemma {:induction false} ScanTouches(m: map<Id, Run>, es: seq<WaitEntry>, mode: set<RunState>, nr: int)
    ensures var m' := Scan(m, es, mode, nr).0;
            && m'.Keys == m.Keys
            && forall p :: p in m ==> m'[p] == m[p] || (m'[p] == AWAKE && Waits(es, p) && Matching(m[p].state, mode))
  {
    if es != [] {
      var e := es[0];
      var matching := e.task in m && Matching(m[e.task].state, mode);
      var m1 := if matching then m[e.task := AWAKE] else m;
      forall p
        ensures Waits(es, p) <==> e.task == p || Waits(es[1..], p)
      {
        WaitsSplit(es, p);
      }
      ScanTouches(m1, es[1..], mode, nr - 1);
      ScanTouches(m1, es[1..], mode, nr);
    }
  }

  /** `m'` is `m` with the first `k` of the listed tasks made runnable, and the others as they were. */
  ghost predicate FirstWoken(m: map<Id, Run>, listed: seq<Id>, k: nat, m': map<Id, Run>) {
    && m'.Keys == m.Keys
    && forall i :: 0 <= i < |listed| ==> listed[i] in m && m'[listed[i]] == if i < k then AWAKE else m[listed[i]]
  }

  lemma WokenCons(m: map<Id, Run>, p: Id, rest: seq<Id>, k: nat, m': map<Id, Run>)
    requires p in m && p !in rest && FirstWoken(m[p := AWAKE], rest, k, m') && m'[p] == AWAKE
    ensures FirstWoken(m, [p] + rest, k + 1, m')
  {
    forall i | 0 <= i < |[p] + rest|
      ensures ([p] + rest)[i] in m && m'[([p] + rest)[i]] == if i < k + 1 then AWAKE else m[([p] + rest)[i]]
    {
      if i > 0 {
        assert ([p] + rest)[i] == rest[i - 1] && rest[i - 1] in rest;
      }
    }
  }

  /** Waking a task that is not listed makes no difference to the listed ones. */
  lemma WokenOther(m: map<Id, Run>, p: Id, rest: seq<Id>, k: nat, m': map<Id, Run>)
    requires p in m && p !in rest && FirstWoken(m[p := AWAKE], rest, k, m')
    ensures FirstWoken(m, rest, k, m')
  {
    forall i | 0 <= i < |rest|
      ensures rest[i] in m && m'[rest[i]] == if i < k then AWAKE else m[rest[i]]
    {
      assert rest[i] in rest;
    }
  }

  lemma NoneWoken(m: map<Id, Run>, rest: seq<Id>)
    requires forall p :: p in rest ==> p in m
    ensures FirstWoken(m, rest, 0, m)
  {
  }

  /** Exactly the first Share(nr) wakeable exclusive waiters are woken, in queue order; the others
      stay as they were. */
  lemma ScanExclusive(m: map<Id, Run>, es: seq<WaitEntry>, mode: set<RunState>, nr: int)
    ensures var (m', k) := Scan(m, es, mode, nr);
            var eligible := Eligible(m, es, mode);
            k == Share(nr, |eligible|) && FirstWoken(m, eligible, k, m')
  {
    ScanExclusiveAfter(m, es, mode, nr, {});
  }

  lemma {:induction false} ScanExclusiveAfter(m: map<Id, Run>, es: seq<WaitEntry>, mode: set<RunState>, nr: int,
                                              seen: set<Id>)
    requires forall p :: p in seen && p in m ==> !Matching(m[p].state, mode)
    ensures var (m', k) := Scan(m, es, mode, nr);
            var eligible := EligibleAfter(m, es, mode, seen);
            k == Share(nr, |eligible|) && FirstWoken(m, eligible, k, m')
  {
    hide FirstWoken;
    if es == [] {
      NoneWoken(m, []);
    } else {
      var e := es[0];
      var seen1 := seen + {e.task};
      var rest := EligibleAfter(m, es[1..], mode, seen1);
      EligibleUnseen(m, es[1..], mode, seen1);
      if e.task in m && Matching(m[e.task].state, mode) {
        var m1 := m[e.task := AWAKE];
        EligibleSame(m, e.task, AWAKE, es[1..], mode, seen1);
        if Wakeable(m, e, mode) {
          if nr == 1 {
            NoneWoken(m1, rest);
            WokenCons(m, e.task, rest, 0, m1);
          } else {
            ScanExclusiveAfter(m1, es[1..], mode, nr - 1, seen1);
            ScanTouches(m1, es[1..], mode, nr - 1);
            var (m2, k) := Scan(m1, es[1..], mode, nr - 1);
            WokenCons(m, e.task, rest, k, m2);
          }
        } else {
          ScanExclusiveAfter(m1, es[1..], mode, nr, seen1);
          var (m2, k) := Scan(m1, es[1..], mode, nr);
          WokenOther(m, e.task, rest, k, m2);
          assert EligibleAfter(m, es, mode, seen) == rest;
        }
      } else {
        ScanExclusiveAfter(m, es[1..], mode, nr, seen1);
        assert EligibleAfter(m, es, mode, seen) == rest;
      }
    }
  }

  /** Every matching non-exclusive waiter is made runnable. */
  lemma {:induction false} ScanNonExclusive(m: map<Id, Run>, es: seq<WaitEntry>, mode: set<RunState>, nr: int, i: nat)
    requires Ordered(es)
    requires i < |es| && !es[i].exclusive && es[i].task in m && Matching(m[es[i].task].state, mode)
    ensures es[i].task in Scan(m, es, mode, nr).0 && Scan(m, es, mode, nr).0[es[i].task] == AWAKE
  {
    var e := es[0];
    assert !e.exclusive;
    var matching := e.task in m && Matching(m[e.task].state, mode);
    var m1 := if matching then m[e.task := AWAKE] else m;
    ScanTouches(m1, es[1..], mode, nr);
    if i > 0 && e.task != es[i].task {
      assert es[1..][i - 1] == es[i];
      ScanNonExclusive(m1, es[1..], mode, nr, i - 1);
    }
  }

  // ---------------------------------------------------------------- the scan on the scheduler

  /** __wake_up_common on the specification scheduler. */
  function WakeScan(s: Sched, es: seq<WaitEntry>, mode: set<RunState>, nr: int): Sched
    decreases |es|
  {
    if es == [] then s
    else
      var e := es[0];
      if e.task in s.tasks && Matching(s.tasks[e.task].state, mode) then
        var (s1, success) := TryToWakeUp(s, e.task);
        if success && e.exclusive then
          if nr - 1 == 0 then s1 else WakeScan(s1, es[1..], mode, nr - 1)
        else
          WakeScan(s1, es[1..], mode, nr)
      else
        WakeScan(s, es[1..], mode, nr)
  }

  ghost function ViewOf(s: Sched): map<Id, Run> {
    map p | p in s.tasks :: Run(s.tasks[p].state, s.tasks[p].onArr.Some?)
  }

  ghost predicate SameRunOthers(s: Sched, p: Id, s': Sched) {
    && s'.tasks.Keys == s.tasks.Keys
    && forall x :: x in s.tasks && x != p ==>
         s'.tasks[x].state == s.tasks[x].state && s'.tasks[x].onArr == s.tasks[x].onArr
  }

  lemma ActivateRun(s: Sched, p: Id)
    requires NoFork(s.tasks) && p in s.tasks
    ensures SameRunOthers(s, p, Activate(s, p)) && Activate(s, p).tasks[p].onArr.Some?
    ensures Activate(s, p).tasks[p].state == s.tasks[p].state && Activate(s, p).curr == s.curr
  {
    var t := WithSleepBonus(s.tasks[p], s.jiffies);
    BonusForks(s.tasks[p], s.jiffies);
    hide WithSleepBonus;
    assert !ForkBranch(Upd(s, p, t), p);
  }

  lemma WokenRun(s: Sched, p: Id)
    requires NoFork(s.tasks) && p in s.tasks
    ensures SameRunOthers(s, p, Woken(s, p)) && Woken(s, p).tasks[p].onArr.Some?
  {
    hide Activate;
    ActivateRun(s, p);
  }

  /** try_to_wake_up on the view. */
  lemma WakeView(s: Sched, p: Id)
    requires Inv(s) && p in s.tasks
    ensures ViewOf(TryToWakeUp(s, p).0) == ViewOf(s)[p := AWAKE]
    ensures TryToWakeUp(s, p).1 == !ViewOf(s)[p].queued
  {
    hide Woken;
    WokenRun(s, p);
  }

  /** The scan on the scheduler, seen on the view, is the scan of the view; and it keeps the invariant. */
  lemma {:induction false} WakeScanView(s: Sched, es: seq<WaitEntry>, mode: set<RunState>, nr: int)
    requires Inv(s)
    ensures ViewOf(WakeScan(s, es, mode, nr)) == Scan(ViewOf(s), es, mode, nr).0
    ensures Inv(WakeScan(s, es, mode, nr))
    decreases |es|
  {
    hide TryToWakeUp, Inv;
    if es != [] && es[0].task in s.tasks {
      var p := es[0].task;
      WakeView(s, p);
      WakeKeeps(s, p);
      var s1 := TryToWakeUp(s, p).0;
      WakeScanView(s1, es[1..], mode, nr - 1);
      WakeScanView(s1, es[1..], mode, nr);
      WakeScanView(s, es[1..], mode, nr);
    } else if es != [] {
      WakeScanView(s, es[1..], mode, nr);
    }
  }

  /** A non-exclusive waiter that matches the mode. */
  ghost predicate CallsFor(s: Sched, e: WaitEntry, mode: set<RunState>) {
    !e.exclusive && e.task in s.tasks && Matching(s.tasks[e.task].state, mode)
  }

  /** Wake-up on the scheduler: with non-exclusive entries first, all matching non-exclusive waiters
      become runnable and queued, and exactly the first Share(nr) wakeable exclusive ones do. */
  lemma WakeUpOutcome(s: Sched, es: seq<WaitEntry>, mode: set<RunState>, nr: int)
    requires Inv(s) && Ordered(es)
    ensures var s' := WakeScan(s, es, mode, nr);
            var eligible := Eligible(ViewOf(s), es, mode);
            && Inv(s') && s'.tasks.Keys == s.tasks.Keys
            && (forall i :: 0 <= i < |es| && CallsFor(s, es[i], mode) ==> ViewOf(s')[es[i].task] == AWAKE)
            && (forall i :: 0 <= i < |eligible| ==>
                  eligible[i] in s.tasks &&
                  ViewOf(s')[eligible[i]] ==
                  if i < Share(nr, |eligible|) then AWAKE else ViewOf(s)[eligible[i]])
  {
    hide Inv, WakeScan, Scan, Eligible, Share;
    WakeScanView(s, es, mode, nr);
    ScanExclusive(ViewOf(s), es, mode, nr);
    ScanTouches(ViewOf(s), es, mode, nr);
    forall i | 0 <= i < |es| && CallsFor(s, es[i], mode)
      ensures ViewOf(WakeScan(s, es, mode, nr))[es[i].task] == AWAKE
    {
      ScanNonExclusive(ViewOf(s), es, mode, nr, i);
    }
    assert ViewOf(WakeScan(s, es, mode, nr)).Keys == WakeScan(s, es, mode, nr).tasks.Keys;
    assert ViewOf(s).Keys == s.tasks.Keys;
  }

  // ---------------------------------------------------------------- the wait queue itself

  /** __remove_wait_queue of the thread's entry. */
  function DropWaiter(q: seq<WaitEntry>, t: Id): seq<WaitEntry> {
    if q == [] then []
    else if q[0].task == t then q[1..]
    else [q[0]] + DropWaiter(q[1..], t)
  }

  lemma WaitsCons(e: WaitEntry, q: seq<WaitEntry>, x: Id)
    ensures Waits([e] + q, x) <==> e.task == x || Waits(q, x)
  {
    WaitsSplit([e] + q, x);
    assert ([e] + q)[1..] == q;
  }

  lemma DistinctCons(e: WaitEntry, q: seq<WaitEntry>)
    requires Distinct(q) && !Waits(q, e.task)
    ensures Distinct([e] + q)
  {
  }

  /** Removing the entry of one waiter. */
  lemma {:induction false} DropWaiterFacts(q: seq<WaitEntry>, t: Id)
    requires Distinct(q) && Waits(q, t)
    ensures Distinct(DropWaiter(q, t))
    ensures forall x :: Waits(DropWaiter(q, t), x) <==> Waits(q, x) && x != t
    ensures forall e :: e in DropWaiter(q, t) ==> e in q
  {
    assert q != [];
    hide Distinct, Waits;
    DistinctTail(q);
    forall x
      ensures Waits(q, x) <==> q[0].task == x || Waits(q[1..], x)
    {
      WaitsSplit(q, x);
    }
    if q[0].task != t {
      DropWaiterFacts(q[1..], t);
      DistinctCons(q[0], DropWaiter(q[1..], t));
      forall x
        ensures Waits(DropWaiter(q, t), x) <==> q[0].task == x || Waits(DropWaiter(q[1..], t), x)
      {
        WaitsCons(q[0], DropWaiter(q[1..], t), x);
      }
    }
  }

  /** Cutting the entry of a waiter with one entry is dropping the waiter. */
  lemma {:induction false} CutIsDrop(q: seq<WaitEntry>, k: nat)
    requires Distinct(q) && k < |q|
    ensures DropWaiter(q, q[k].task) == CutAt(q, k)
  {
    if k > 0 {
      assert q[0].task != q[k].task && q[1..][k - 1] == q[k];
      DistinctTail(q);
      hide Distinct, Waits, Ordered;
      CutIsDrop(q[1..], k - 1);
      CutInTail(q, k);
    }
  }

  lemma CutInTail(q: seq<WaitEntry>, k: nat)
    requires 0 < k < |q|
    ensures CutAt(q, k) == [q[0]] + CutAt(q[1..], k - 1)
  {
    assert [q[0]] + q[1..][..k - 1] == q[..k];
    assert q[1..][k..] == q[k + 1..];
  }

  class WaitQueueHead {
    var entries: seq<WaitEntry>

    ghost predicate Valid()
      reads this
    {
      Ordered(entries)
    }

    constructor ()
      ensures Valid() && entries == []
    {
      entries := [];
    }

    /** add_wait_queue: a non-exclusive entry at the head. */
    method Add(task: Id)
      requires Valid()
      modifies this
      ensures Valid() && entries == [WaitEntry(task, false)] + old(entries)
    {
      entries := [WaitEntry(task, false)] + entries;
    }

    /** add_wait_queue_exclusive: an exclusive entry at the tail. */
    method AddExclusive(task: Id)
      requires Valid()
      modifies this
      ensures Valid() && entries == old(entries) + [WaitEntry(task, true)]
    {
      entries := entries + [WaitEntry(task, true)];
    }

    /** remove_wait_queue of the entry at position `k`. */
    method Remove(k: nat)
      requires Valid() && k < |entries|
      modifies this
      ensures Valid() && entries == CutAt(old(entries), k)
    {
      entries := CutAt(entries, k);
    }

    /** __wake_up_common, with the asynchronous try_to_wake_up. */
    method WakeUpCommon(rq: Runqueue, mode: set<RunState>, nrExclusive: int)
      requires rq.Valid()
      modifies rq
      ensures rq.Valid() && rq.View() == WakeScan(old(rq.View()), entries, mode, nrExclusive)
    {
      hide Runqueue.Valid, TryToWakeUp;
      var nr := nrExclusive;
      var i := 0;
      while i < |entries|
        invariant 0 <= i <= |entries| && rq.Valid()
        invariant WakeScan(rq.View(), entries[i..], mode, nr) == WakeScan(old(rq.View()), entries, mode, nrExclusive)
      {
        var e := entries[i];
        assert entries[i..][0] == e && entries[i..][1..] == entries[i + 1..];
        if e.task in rq.tasks && Matching(rq.tasks[e.task].state, mode) {
          var success := rq.WakeUp(e.task);
          if success && e.exclusive {
            nr := nr - 1;
            if nr == 0 {
              return;
            }
          }
        }
        i := i + 1;
      }
    }
  }
}
