/** Round robin: real-time tasks of one priority take turns of one slice each. */
module RoundRobin {
  import opened Params
  import opened Rows
  import opened SchedModel
  import opened SchedInvariant
  import opened SchedSteps
  import opened PickOrder
  import opened ForkYield
  import opened Places
  import opened ArraySwitch
  import QueueOrder

  // ---------------------------------------------------------------- the end of a slice

  /** The tick that ends the slice of a round-robin task puts it at the tail of its own row with a full
      slice and asks for schedule; no other row changes. */
  lemma RrRotates(s: Sched)
    requires Inv(s) && s.curr in s.tasks && s.tasks[s.curr].policy == Rr && s.tasks[s.curr].timeSlice == 1
    ensures var s' := Step(s, Tick);
            var t := s.tasks[s.curr];
            && Row(s', RtShort, t.prio) == Without(Row(s, RtShort, t.prio), s.curr) + [s.curr]
            && (forall a, k :: a != RtShort || k != t.prio ==> Row(s', a, k) == Row(s, a, k))
            && s'.curr == s.curr && s.curr in s'.tasks
            && s'.tasks[s.curr] == t.(timeSlice := TaskTimeslice(t), firstTimeSlice := false, needResched := true)
  {
    hide Queued, NoFork, TaskTimeslice, RrSliceEnd;
    var s0 := s.(jiffies := s.jiffies + 1);
    var t := s.tasks[s.curr];
    ClockAdvances(s);
    assert TaskOk(t, s.jiffies);
    assert t.onArr == Some(RtShort);
    RrEndPlace(s0);
    forall a, k | a != RtShort || k != t.prio
      ensures Without(Row(s0, a, k), s.curr) == Row(s0, a, k)
    {
      RowMember(s, a, k);
      WithoutAbsent(Row(s0, a, k), s.curr);
    }
  }

  lemma RowMember(s: Sched, a: Arr, k: int)
    requires Inv(s) && s.curr in s.tasks && (s.tasks[s.curr].onArr != Some(a) || s.tasks[s.curr].prio != k)
    ensures s.curr !in Row(s, a, k)
  {
  }

  /** Then schedule does not pick it again if its row holds another task. */
  lemma RrGivesWay(s: Sched, y: Id, signal: bool)
    requires Inv(s) && s.curr in s.tasks && s.tasks[s.curr].policy == Rr && s.tasks[s.curr].timeSlice == 1
    requires y != s.curr && y in Row(s, RtShort, s.tasks[s.curr].prio)
    ensures Schedule(Step(s, Tick), signal).curr != s.curr
  {
    hide Step, Schedule, Without, Queued, NoFork, Ahead, TaskTimeslice;
    var s' := Step(s, Tick);
    var k := s.tasks[s.curr].prio;
    var w := Without(Row(s, RtShort, k), s.curr);
    RrRotates(s);
    StepKeeps(s, Tick);
    QueueOrder.InWithout(Row(s, RtShort, k), s.curr, y);
    InFrontOfTail(w, s.curr, y);
    assert y in Row(s', RtShort, k);
    RowElements(s', RtShort, k);
    BehindIsNotPicked(s', signal, y);
  }

  lemma InFrontOfTail(w: seq<Id>, p: Id, y: Id)
    requires y in w
    ensures Ahead(w + [p], y, p)
  {
    var i :| 0 <= i < |w| && w[i] == y;
    assert (w + [p])[i] == y && (w + [p])[|w|] == p;
  }

  // ---------------------------------------------------------------- taking turns

  /** The tasks of row `k` of the real-time array are all round robin and runnable, no row before it is
      used, its first task is current, and nobody is asked to reschedule.  Other tasks may be anything. */
  ghost predicate Ring(s: Sched, k: int) {
    && Inv(s)
    && 0 <= k < MAX_PRIO
    && Row(s, RtShort, k) != []
    && s.curr == Row(s, RtShort, k)[0]
    && (forall j :: 0 <= j < k ==> Row(s, RtShort, j) == [])
    && (forall x :: x in Row(s, RtShort, k) ==> x in s.tasks && Turner(s.tasks[x]))
  }

  predicate Turner(t: Task) {
    t.policy == Rr && t.state == Running && !t.needResched
  }

  /** Nothing but the current task's slice changes in a tick that leaves it some. */
  lemma QuietRound(s: Sched, k: int)
    requires Ring(s, k) && s.tasks[s.curr].timeSlice > 1
    ensures var s' := Round(s);
            && Ring(s', k) && Row(s', RtShort, k) == Row(s, RtShort, k) && s'.curr == s.curr
            && s'.tasks == s.tasks[s.curr := s.tasks[s.curr].(timeSlice := s.tasks[s.curr].timeSlice - 1)]
  {
    hide SliceEnd, RrSliceEnd, Queued;
    TickKeeps(s);
    assert TaskOk(s.tasks[s.curr], s.jiffies);
    assert Turner(s.tasks[s.curr]);
    forall j
      ensures Row(Round(s), RtShort, j) == Row(s, RtShort, j)
    {
    }
  }

  /** The last tick of a slice turns the ring by one and asks for schedule. */
  lemma LastRingTick(s: Sched, k: int)
    requires Ring(s, k) && s.tasks[s.curr].timeSlice == 1
    ensures var s1 := Step(s, Tick);
            var r := Row(s, RtShort, k);
            && Inv(s1) && Row(s1, RtShort, k) == r[1..] + [r[0]]
            && (forall j :: 0 <= j < k ==> Row(s1, RtShort, j) == [])
            && Round(s) == Schedule(s1, false) && s1.curr == s.curr
            && var t := s.tasks[s.curr];
               s1.tasks == s.tasks[s.curr := t.(timeSlice := TaskTimeslice(t), firstTimeSlice := false, needResched := true)]
  {
    hide Inv, Step, Schedule, TaskTimeslice, Without, Turner;
    RingCurr(s, k);
    RingPolicy(s, k);
    RrRotates(s);
    StepKeeps(s, Tick);
    HeadCut(Row(s, RtShort, k));
  }

  lemma RingPolicy(s: Sched, k: int)
    requires Ring(s, k)
    ensures s.curr in s.tasks && s.tasks[s.curr].policy == Rr
  {
    assert s.curr in Row(s, RtShort, k);
  }

  /** After the last tick of its slice the current task stands last in its row, with a full slice, and
      the task that was second runs. */
  lemma LastRound(s: Sched, k: int)
    requires Ring(s, k) && s.tasks[s.curr].timeSlice == 1
    ensures var s' := Round(s);
            var r := Row(s, RtShort, k);
            && Ring(s', k) && Row(s', RtShort, k) == r[1..] + [r[0]]
            && (forall x :: x in r && x != s.curr ==> x in s'.tasks && s'.tasks[x] == s.tasks[x])
            && s.curr in s'.tasks && s'.tasks[s.curr].timeSlice == TaskTimeslice(s.tasks[s.curr])
  {
    hide Inv, Step, Schedule, TaskTimeslice, Round;
    RingCurr(s, k);
    LastRingTick(s, k);
    RingPass(Step(s, Tick), k, s.curr);
    SameRow(Step(s, Tick), Round(s), k);
  }

  lemma SameRow(s: Sched, s': Sched, k: int)
    requires s'.rows == s.rows
    ensures Row(s', RtShort, k) == Row(s, RtShort, k)
  {
  }

  lemma RingCurr(s: Sched, k: int)
    requires Ring(s, k)
    ensures s.curr in s.tasks && s.tasks[s.curr].prio == k && Turner(s.tasks[s.curr]) && TimerTick(s) == Step(s, Tick)
    ensures s.tasks[s.curr].timeSlice >= 1 && Row(s, RtShort, k) != [] && s.curr == Row(s, RtShort, k)[0]
  {
    hide TimerTick;
    assert s.curr in Row(s, RtShort, k);
    RowElements(s, RtShort, k);
    assert TaskOk(s.tasks[s.curr], s.jiffies);
  }

  lemma HeadCut(r: seq<Id>)
    requires r != []
    ensures Without(r, r[0]) == r[1..]
  {
  }

  /** A pass of schedule asked for by the task at the tail of the ring. */
  lemma RingPass(s: Sched, k: int, p: Id)
    requires Inv(s) && 0 <= k < MAX_PRIO && Row(s, RtShort, k) != [] && s.curr == p && p in s.tasks
    requires forall j :: 0 <= j < k ==> Row(s, RtShort, j) == []
    requires s.tasks[p].state == Running && s.tasks[p].policy == Rr
    requires forall x :: x in Row(s, RtShort, k) ==> x in s.tasks && (x != p ==> Turner(s.tasks[x]))
    ensures var s' := Schedule(s, false);
            && Ring(s', k) && s'.rows == s.rows
            && s'.tasks == s.tasks[p := s.tasks[p].(sleepTimestamp := s.jiffies, needResched := false)]
  {
    hide Queued, TasksOk;
    ScheduleKeeps(s, false);
    var s1 := PutPrev(s, false);
    assert s1 == Upd(s, p, s.tasks[p].(sleepTimestamp := s.jiffies));
    assert forall j :: Row(s1, RtShort, j) == Row(s, RtShort, j);
    FindRowIs(s1, RtShort, k);
    hide Inv, FindRow;
    assert Schedule(s, false).curr == Row(s, RtShort, k)[0];
    forall j
      ensures Row(Schedule(s, false), RtShort, j) == Row(s, RtShort, j)
    {
    }
  }

  /** For as many rounds as its slice has jiffies the first task of the ring runs; then it is last. */
  lemma {:induction false} Turn(s: Sched, k: int)
    requires Ring(s, k)
    ensures var n := s.tasks[s.curr].timeSlice;
            var r := Row(s, RtShort, k);
            && n >= 1
            && (forall m: nat :: m < n ==> Rounds(s, m).curr == s.curr)
            && Ring(Rounds(s, n), k) && Row(Rounds(s, n), RtShort, k) == r[1..] + [r[0]]
            && (forall x :: x in r && x != s.curr ==> x in Rounds(s, n).tasks && Rounds(s, n).tasks[x] == s.tasks[x])
            && s.curr in Rounds(s, n).tasks && Rounds(s, n).tasks[s.curr].timeSlice == TaskTimeslice(s.tasks[s.curr])
    decreases s.tasks[s.curr].timeSlice
  {
    hide Ring, Round, TaskTimeslice, Turner, Row;
    RingCurr(s, k);
    var n := s.tasks[s.curr].timeSlice;
    assert Rounds(s, 0) == s && Rounds(s, 1) == Round(s);
    if n == 1 {
      LastRound(s, k);
    } else {
      QuietRound(s, k);
      var s1 := Round(s);
      Turn(s1, k);
      RoundsAdd(s, 1, n - 1);
      SliceIgnored(s.tasks[s.curr], n - 1);
      forall m: nat | m < n
        ensures Rounds(s, m).curr == s.curr
      {
        if m > 0 {
          RoundsAdd(s, 1, m - 1);
        }
      }
    }
  }

  lemma SliceIgnored(t: Task, n: int)
    ensures TaskTimeslice(t.(timeSlice := n)) == TaskTimeslice(t)
  {
  }

  function SliceOf(s: Sched, x: Id): nat {
    if x in s.tasks && s.tasks[x].timeSlice > 0 then s.tasks[x].timeSlice else 0
  }

  /** The jiffies the first `i` tasks of the row have. */
  function SlicesOf(s: Sched, r: seq<Id>, i: nat): nat
    requires i <= |r|
  {
    if i == 0 then 0 else SlicesOf(s, r, i - 1) + SliceOf(s, r[i - 1])
  }

  /** After the turns of the first `i` tasks these stand behind the others, each with a full slice, and
      the others have what they had. */
  ghost predicate Turned(s: Sched, k: int, i: nat)
    requires i <= |Row(s, RtShort, k)|
  {
    var r := Row(s, RtShort, k);
    var s' := Rounds(s, SlicesOf(s, r, i));
    && Ring(s', k) && Row(s', RtShort, k) == r[i..] + r[..i]
    && (forall j :: i <= j < |r| ==> r[j] in s.tasks && r[j] in s'.tasks && s'.tasks[r[j]] == s.tasks[r[j]])
    && (forall j :: 0 <= j < i ==>
          r[j] in s.tasks && r[j] in s'.tasks && s'.tasks[r[j]].timeSlice == TaskTimeslice(s.tasks[r[j]]))
  }

  lemma {:induction false} Turns(s: Sched, k: int, i: nat)
    requires Ring(s, k) && i <= |Row(s, RtShort, k)|
    ensures Turned(s, k, i)
  {
    hide Ring, Round, TaskTimeslice, Row;
    var r := Row(s, RtShort, k);
    RingMembers(s, k);
    if i == 0 {
      assert r[0..] + r[..0] == r;
    } else {
      Turns(s, k, i - 1);
      OneMoreTurn(s, k, i);
    }
  }

  lemma RingMembers(s: Sched, k: int)
    requires Ring(s, k)
    ensures NoDup(Row(s, RtShort, k))
    ensures forall j :: 0 <= j < |Row(s, RtShort, k)| ==> Row(s, RtShort, k)[j] in s.tasks
  {
  }

  lemma OneMoreTurn(s: Sched, k: int, i: nat)
    requires Ring(s, k) && 1 <= i <= |Row(s, RtShort, k)| && Turned(s, k, i - 1)
    ensures Turned(s, k, i)
  {
    hide Ring, Round, TaskTimeslice, Row;
    var r := Row(s, RtShort, k);
    RingMembers(s, k);
    var before := SlicesOf(s, r, i - 1);
    var s1 := Rounds(s, before);
    var r1 := r[i - 1..] + r[..i - 1];
    RingCurr(s1, k);
    assert s1.curr == r1[0] == r[i - 1];
    var n: nat := s1.tasks[s1.curr].timeSlice;
    Turn(s1, k);
    RoundsAdd(s, before, n);
    assert SlicesOf(s, r, i) == before + n;
    assert r1[1..] + [r1[0]] == r[i..] + r[..i];
    forall j | 0 <= j < |r| && j != i - 1
      ensures r[j] in r1 && r[j] != s1.curr
    {
      assert if j < i - 1 then r[..i - 1][j] == r[j] else r[i - 1..][j - (i - 1)] == r[j];
    }
  }

  lemma TurnRuns(s: Sched, k: int, i: nat, m: nat)
    requires Ring(s, k) && i < |Row(s, RtShort, k)| && Turned(s, k, i)
    requires var r := Row(s, RtShort, k); SlicesOf(s, r, i) <= m < SlicesOf(s, r, i + 1)
    ensures Rounds(s, m).curr == Row(s, RtShort, k)[i]
  {
    hide Ring, Round, TaskTimeslice, Row;
    var r := Row(s, RtShort, k);
    var before := SlicesOf(s, r, i);
    var s1 := Rounds(s, before);
    RingCurr(s1, k);
    assert s1.curr == (r[i..] + r[..i])[0] == r[i];
    Turn(s1, k);
    RoundsAdd(s, before, m - before);
  }

  /** Round robin over a whole cycle: in the order of the row every task runs for exactly its slice,
      nobody else in between, and in the end the row is as it was and every task has a full slice. */
  lemma FullCycle(s: Sched, k: int)
    requires Ring(s, k)
    ensures var r := Row(s, RtShort, k);
            && (forall i: nat, m: nat :: i < |r| && SlicesOf(s, r, i) <= m < SlicesOf(s, r, i + 1) ==>
                  Rounds(s, m).curr == r[i])
            && var s' := Rounds(s, SlicesOf(s, r, |r|));
            && Ring(s', k) && Row(s', RtShort, k) == r
            && (forall x :: x in r ==> x in s.tasks && x in s'.tasks && s'.tasks[x].timeSlice == TaskTimeslice(s.tasks[x]))
  {
    hide Ring, Round, TaskTimeslice, Row, Rounds;
    var r := Row(s, RtShort, k);
    forall i: nat, m: nat | i < |r| && SlicesOf(s, r, i) <= m < SlicesOf(s, r, i + 1)
      ensures Rounds(s, m).curr == r[i]
    {
      Turns(s, k, i);
      TurnRuns(s, k, i, m);
    }
    Turns(s, k, |r|);
    assert r[|r|..] + r[..|r|] == r;
  }
}
