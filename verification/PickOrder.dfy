/** What schedule picks, stated as an order on the queued tasks, and what follows from it. */
module PickOrder {
  import opened Params
  import opened Rows
  import opened SchedModel
  import opened SchedInvariant
  import opened SchedSteps

  /** The rank of an array: real-time and SHORT, then active, expired, overdue. */
  function Rank(a: Arr, active: Arr): nat {
    match a
    case RtShort => 0
    case Overdue => 3
    case _ => if a == active then 1 else 2
  }

  ghost predicate IsQueued(s: Sched, p: Id) {
    p in s.tasks && s.tasks[p].onArr.Some?
  }

  /** `x` stands before `y` in its row. */
  ghost predicate Ahead(r: seq<Id>, x: Id, y: Id) {
    exists i, j :: 0 <= i < j < |r| && r[i] == x && r[j] == y
  }

  /** The order in which schedule prefers tasks: class, then priority, then place in the row. */
  ghost predicate Before(s: Sched, x: Id, y: Id)
    requires IsQueued(s, x) && IsQueued(s, y)
  {
    var a, b := s.tasks[x].onArr.value, s.tasks[y].onArr.value;
    var k, l := s.tasks[x].prio, s.tasks[y].prio;
    Rank(a, s.active) < Rank(b, s.active) ||
    (a == b && (k < l || (k == l && Ahead(Row(s, a, k), x, y))))
  }

  lemma QueuedInRow(s: Sched, p: Id)
    requires InvNoCurr(s) && IsQueued(s, p)
    ensures var t := s.tasks[p];
            p in Row(s, t.onArr.value, t.prio) && 0 <= t.prio < MAX_PRIO
            && FindRow(s, t.onArr.value, 0) <= t.prio
  {
    var t := s.tasks[p];
    var c := Cell(t.onArr.value, t.prio);
    assert c in s.rows && p in s.rows[c];
    assert Row(s, t.onArr.value, t.prio) != [];
  }

  /** The head of the first non-empty row of an array comes before every other task of the array. */
  lemma HeadIsFirst(s: Sched, a: Arr, y: Id)
    requires InvNoCurr(s) && IsQueued(s, y) && s.tasks[y].onArr == Some(a)
    ensures FindRow(s, a, 0) < MAX_PRIO
    ensures var n := Row(s, a, FindRow(s, a, 0))[0];
            IsQueued(s, n) && s.tasks[n].onArr == Some(a) && (n == y || Before(s, n, y))
  {
    QueuedInRow(s, y);
    var k := FindRow(s, a, 0);
    var r := Row(s, a, k);
    var n := r[0];
    HeadIsQueued(s, a, k);
    if s.tasks[y].prio == k && n != y {
      var j :| 0 <= j < |r| && r[j] == y;
      assert r[0] == n && 0 < j;
      assert Ahead(r, n, y);
    }
  }

  ghost predicate Holds(s: Sched, a: Arr) {
    exists y :: IsQueued(s, y) && s.tasks[y].onArr == Some(a)
  }

  predicate Busy(s: Sched, a: Arr) {
    FindRow(s, a, 0) < MAX_PRIO
  }

  function Head(s: Sched, a: Arr): Id
    requires Busy(s, a)
  {
    Row(s, a, FindRow(s, a, 0))[0]
  }

  lemma BusyHolds(s: Sched, a: Arr)
    requires InvNoCurr(s)
    ensures Busy(s, a) <==> Holds(s, a)
    ensures Busy(s, a) ==> IsQueued(s, Head(s, a)) && s.tasks[Head(s, a)].onArr == Some(a) && Head(s, a) != IDLE
  {
    if Busy(s, a) {
      HeadIsQueued(s, a, FindRow(s, a, 0));
      assert IsQueued(s, Head(s, a));
    }
    if Holds(s, a) {
      var y :| IsQueued(s, y) && s.tasks[y].onArr == Some(a);
      QueuedInRow(s, y);
    }
  }

  /** The first busy array in rank order. */
  function FirstArray(s: Sched): Option<Arr> {
    if Busy(s, RtShort) then Some(RtShort)
    else if Busy(s, s.active) then Some(s.active)
    else if Busy(s, Expired(s)) then Some(Expired(s))
    else if Busy(s, Overdue) then Some(Overdue)
    else None
  }

  lemma PickIsHead(s: Sched)
    ensures PickNext(s).1 == if FirstArray(s).Some? then Head(s, FirstArray(s).value) else IDLE
    ensures PickNext(s).0 ==
            if FirstArray(s) == None then s.(expiredStamp := 0)
            else if FirstArray(s) == Some(Expired(s)) && !Busy(s, RtShort) && !Busy(s, s.active)
            then s.(active := Expired(s), expiredStamp := 0)
            else s
  {
  }

  lemma FirstArrayRank(s: Sched, a: Arr)
    requires Busy(s, a) && (s.active == A0 || s.active == A1)
    ensures FirstArray(s).Some? && Busy(s, FirstArray(s).value)
    ensures FirstArray(s).value == a || Rank(FirstArray(s).value, s.active) < Rank(a, s.active)
  {
    hide Busy;
  }

  lemma PickVersus(s: Sched, y: Id)
    requires InvNoCurr(s) && IsQueued(s, y)
    ensures var next := PickNext(s).1;
            next != IDLE && IsQueued(s, next) && (next == y || Before(s, next, y))
  {
    hide PickNext, FirstArray, FindRow, Queued, TasksOk, Rank, Ahead;
    var a := s.tasks[y].onArr.value;
    PickIsHead(s);
    HeadIsFirst(s, a, y);
    FirstArrayRank(s, a);
    BusyHolds(s, FirstArray(s).value);
  }

  /** schedule picks nothing exactly if nothing is queued; otherwise it picks a queued task that
      comes before every other queued task. */
  lemma PickIsFirst(s: Sched)
    requires InvNoCurr(s)
    ensures var next := PickNext(s).1;
            && (next == IDLE <==> forall y :: y in s.tasks ==> !IsQueued(s, y))
            && (next != IDLE ==> IsQueued(s, next) && forall y :: IsQueued(s, y) && y != next ==> Before(s, next, y))
  {
    hide PickNext;
    var next := PickNext(s).1;
    forall y | IsQueued(s, y)
      ensures next != IDLE && IsQueued(s, next) && (next == y || Before(s, next, y))
    {
      PickVersus(s, y);
    }
    PickNextKeeps(s);
  }

  /** The array switch happens exactly if nothing real-time, SHORT or active is queued but something is
      expired; it renames the two arrays and moves no task.  The stamp of the expired array is withdrawn
      exactly then and when nothing is queued at all. */
  lemma SwitchLosesNothing(s: Sched)
    requires InvNoCurr(s)
    ensures var s' := PickNext(s).0;
            && s'.tasks == s.tasks && s'.rows == s.rows
            && (s'.active != s.active <==> !Holds(s, RtShort) && !Holds(s, s.active) && Holds(s, Expired(s)))
            && (s'.active != s.active ==> s'.active == Expired(s) && Expired(s') == s.active)
            && s'.expiredStamp == if s'.active != s.active || PickNext(s).1 == IDLE then 0 else s.expiredStamp
  {
    hide PickNext, Busy, Holds;
    PickIsHead(s);
    BusyHolds(s, RtShort);
    BusyHolds(s, s.active);
    BusyHolds(s, Overdue);
    BusyHolds(s, Expired(s));
  }

  /** One pass of schedule in these terms: the task it switches to comes first among the tasks that
      are queued once the previous task has been put back or taken off. */
  lemma ScheduleIsFirst(s: Sched, signal: bool)
    requires Inv(s)
    ensures var s1 := PutPrev(s, signal);
            var next := Schedule(s, signal).curr;
            && InvNoCurr(s1)
            && (next == IDLE <==> forall y :: y in s1.tasks ==> !IsQueued(s1, y))
            && (next != IDLE ==> IsQueued(s1, next) && forall y :: IsQueued(s1, y) && y != next ==> Before(s1, next, y))
  {
    hide PutPrev, PickNext, Before;
    PutPrevKeeps(s, signal);
    PickIsFirst(PutPrev(s, signal));
  }

  /** An overdue task runs only when every queued task is overdue. */
  lemma OverdueRunsLast(s: Sched, signal: bool)
    requires Inv(s)
    ensures var s1 := PutPrev(s, signal);
            var next := Schedule(s, signal).curr;
            next != IDLE && next in s1.tasks && OverdueTask(s1.tasks[next]) ==>
              forall y :: IsQueued(s1, y) ==> OverdueTask(s1.tasks[y])
  {
    hide PutPrev, Schedule, Ahead;
    ScheduleIsFirst(s, signal);
    var s1 := PutPrev(s, signal);
    var next := Schedule(s, signal).curr;
    if next != IDLE && next in s1.tasks && OverdueTask(s1.tasks[next]) {
      assert TaskOk(s1.tasks[next], s1.jiffies);
      forall y | IsQueued(s1, y)
        ensures OverdueTask(s1.tasks[y])
      {
        assert TaskOk(s1.tasks[y], s1.jiffies);
        if y != next {
          assert Before(s1, next, y);
        }
      }
    }
  }
}
