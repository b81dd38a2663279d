/** The completion protocol under all interleavings of its locked regions with schedule. */
module Completion {
  import opened Rows
  import opened SchedModel
  import opened SchedInvariant
  import opened SchedSteps
  import SchedFrames
  import opened RunQueue
  import opened WaitQueue

  /** Where a thread is in wait_for_completion: outside, past the unlock and before or in schedule,
      off the processor, or back from schedule and about to lock again. */
  datatype Place = Outside | Committed | Asleep | Rechecking

  /** struct completion, its waiters, and two counters of history. */
  datatype Protocol = Protocol(
    done: nat,
    queue: seq<WaitEntry>,
    run: map<Id, Run>,
    place: map<Id, Place>,
    issued: nat,
    finished: nat)

  datatype Move =
    | Complete
    | Enter(t: Id)
    | CallSchedule(t: Id)
    | Resume(t: Id)
    | Recheck(t: Id)
    | Nudge(t: Id)
    | Elsewhere(t: Id, now: Run)
    | Leave(t: Id)

  const SLEEPERS: set<RunState> := {Uninterruptible, Interruptible}

  const COMMITTED_RUN := Run(Uninterruptible, true)

  ghost predicate CanMove(c: Protocol, m: Move) {
    match m
    case Complete => true
    case Enter(t) => t in c.place && c.place[t] == Outside && t in c.run && c.run[t].queued
    case CallSchedule(t) => t in c.place && c.place[t] == Committed
    case Resume(t) => t in c.place && c.place[t] == Asleep && t in c.run && c.run[t].queued
    case Recheck(t) => t in c.place && c.place[t] == Rechecking
    case Nudge(t) => t in c.place && t in c.run
    case Elsewhere(t, _) => t in c.place ==> c.place[t] == Outside
    case Leave(t) => t in c.place && c.place[t] == Outside
  }

  /** One locked region, one call of schedule, or one wake-up from elsewhere. */
  function Next(c: Protocol, m: Move): Protocol
    requires CanMove(c, m)
  {
    match m
    case Complete =>
      // complete: the token, then the wake-up of one exclusive waiter
      c.(done := c.done + 1, issued := c.issued + 1, run := Scan(c.run, c.queue, SLEEPERS, 1).0)
    case Enter(t) =>
      if c.done == 0 then
        c.(queue := c.queue + [WaitEntry(t, true)], run := c.run[t := COMMITTED_RUN], place := c.place[t := Committed])
      else
        c.(done := c.done - 1, finished := c.finished + 1)
    case CallSchedule(t) =>
      // schedule takes the task off its array unless a waker has set it running in between
      if t in c.run && c.run[t].state == Uninterruptible then
        c.(run := c.run[t := Run(Uninterruptible, false)], place := c.place[t := Asleep])
      else
        c.(place := c.place[t := Rechecking])
    case Resume(t) =>
      c.(place := c.place[t := Rechecking])
    case Recheck(t) =>
      if c.done == 0 then
        c.(run := c.run[t := COMMITTED_RUN], place := c.place[t := Committed])
      else
        c.(done := c.done - 1, finished := c.finished + 1,
           queue := DropWaiter(c.queue, t), place := c.place[t := Outside])
    case Nudge(t) =>
      // a wake_up_process of the thread from anywhere else
      c.(run := c.run[t := AWAKE])
    case Elsewhere(t, now) =>
      // a thread outside the wait sleeps, is woken or changes its state on other business, or is new
      c.(run := c.run[t := now], place := c.place[t := Outside])
    case Leave(t) =>
      // a thread outside the wait is reaped
      c.(run := c.run - {t}, place := c.place - {t})
  }

  // ---------------------------------------------------------------- invariant

  /** The waiters in the queue that are in state TASK_RUNNING. */
  function Awake(run: map<Id, Run>, q: seq<WaitEntry>): nat {
    if q == [] then 0
    else (if q[0].task in run && run[q[0].task].state == Running then 1 else 0) + Awake(run, q[1..])
  }

  /** A waiter in the queue is in state TASK_UNINTERRUPTIBLE, asleep or about to be. */
  ghost predicate SomeoneSleeps(run: map<Id, Run>, q: seq<WaitEntry>) {
    exists i :: 0 <= i < |q| && q[i].task in run && run[q[i].task].state != Running
  }

  ghost predicate ThreadOk(c: Protocol, t: Id)
    requires t in c.place && t in c.run
  {
    match c.place[t]
    case Outside => !Waits(c.queue, t)
    case Committed => c.run[t] in {COMMITTED_RUN, AWAKE} && Waits(c.queue, t)
    case Asleep => c.run[t] in {Run(Uninterruptible, false), AWAKE} && Waits(c.queue, t)
    case Rechecking => c.run[t] == AWAKE && Waits(c.queue, t)
  }

  ghost predicate ProtocolOk(c: Protocol) {
    && c.run.Keys == c.place.Keys
    && Distinct(c.queue)
    && (forall i :: 0 <= i < |c.queue| ==> c.queue[i].exclusive && c.queue[i].task in c.place)
    && (forall t :: t in c.place ==> ThreadOk(c, t))
    && (SomeoneSleeps(c.run, c.queue) ==> Awake(c.run, c.queue) >= c.done)
  }

  // ---------------------------------------------------------------- counting the awake

  lemma {:induction false} AwakeUpdate(run: map<Id, Run>, q: seq<WaitEntry>, t: Id, r: Run)
    requires Distinct(q) && t in run
    ensures Awake(run[t := r], q) == Awake(run, q) +
            if Waits(q, t) then (if r.state == Running then 1 else 0) - (if run[t].state == Running then 1 else 0) else 0
  {
    if q != [] {
      DistinctTail(q);
      WaitsSplit(q, t);
      AwakeUpdate(run, q[1..], t, r);
    }
  }

  lemma {:induction false} RemoveAwake(run: map<Id, Run>, q: seq<WaitEntry>, t: Id)
    requires Waits(q, t)
    ensures Awake(run, DropWaiter(q, t)) == Awake(run, q) - if t in run && run[t].state == Running then 1 else 0
  {
    WaitsSplit(q, t);
    if q[0].task != t {
      RemoveAwake(run, q[1..], t);
    }
  }

  /** The wake-up of complete: either nobody in the queue sleeps any more, or one more is awake. */
  lemma {:induction false} CompleteWakes(run: map<Id, Run>, q: seq<WaitEntry>)
    requires Distinct(q) && forall i :: 0 <= i < |q| ==> q[i].exclusive && q[i].task in run
    requires forall i :: 0 <= i < |q| ==> run[q[i].task].state in {Running, Uninterruptible}
    ensures var run' := Scan(run, q, SLEEPERS, 1).0;
            && run'.Keys == run.Keys
            && Awake(run', q) >= Awake(run, q)
            && (Awake(run', q) >= Awake(run, q) + 1 || !SomeoneSleeps(run', q))
  {
    ScanTouches(run, q, SLEEPERS, 1);
    if q != [] {
      var p := q[0].task;
      DistinctTail(q);
      var matching := Matching(run[p].state, SLEEPERS);
      var run1 := if matching then run[p := AWAKE] else run;
      assert q[0].exclusive && p in run;
      AwakeUpdate(run, q, p, AWAKE);
      WaitsSplit(q, p);
      if !(matching && !run[p].queued) {
        forall i | 0 <= i < |q[1..]|
          ensures q[1..][i].exclusive && q[1..][i].task in run1 && run1[q[1..][i].task].state in {Running, Uninterruptible}
        {
          assert q[1..][i] == q[i + 1];
        }
        CompleteWakes(run1, q[1..]);
        ScanTouches(run1, q[1..], SLEEPERS, 1);
        AwakeSame(run, run1, q[1..]);
        var run' := Scan(run, q, SLEEPERS, 1).0;
        assert run' == Scan(run1, q[1..], SLEEPERS, 1).0;
        assert run'[p] == run1[p] && run1[p].state == Running;
        if SomeoneSleeps(run', q) {
          var i :| 0 <= i < |q| && q[i].task in run' && run'[q[i].task].state != Running;
          assert q[1..][i - 1] == q[i];
        }
      }
    }
  }

  lemma {:induction false} AwakeSame(run: map<Id, Run>, run': map<Id, Run>, q: seq<WaitEntry>)
    requires forall p :: Waits(q, p) ==> (p in run <==> p in run') && (p in run ==> run[p] == run'[p])
    ensures Awake(run, q) == Awake(run', q)
  {
    if q != [] {
      assert Waits(q, q[0].task);
      forall p | Waits(q[1..], p)
        ensures (p in run <==> p in run') && (p in run ==> run[p] == run'[p])
      {
        WaitsTail(q, p);
      }
      AwakeSame(run, run', q[1..]);
    }
  }

  // ---------------------------------------------------------------- every move keeps the invariant

  lemma QueueRuns(c: Protocol)
    requires ProtocolOk(c)
    ensures forall i :: 0 <= i < |c.queue| ==>
              c.queue[i].task in c.run && c.run[c.queue[i].task].state in {Running, Uninterruptible}
  {
    forall i | 0 <= i < |c.queue|
      ensures c.queue[i].task in c.run && c.run[c.queue[i].task].state in {Running, Uninterruptible}
    {
      assert ThreadOk(c, c.queue[i].task);
    }
  }

  lemma CompleteKeeps(c: Protocol)
    requires ProtocolOk(c)
    ensures ProtocolOk(Next(c, Complete))
  {
    QueueRuns(c);
    CompleteWakes(c.run, c.queue);
    ScanTouches(c.run, c.queue, SLEEPERS, 1);
    var c' := Next(c, Complete);
    hide Scan;
    forall t | t in c'.place
      ensures ThreadOk(c', t)
    {
      assert ThreadOk(c, t);
    }
    NobodySleeps(c.run, c.queue);
  }

  /** If nobody sleeps the whole queue is awake. */
  lemma NobodySleeps(run: map<Id, Run>, q: seq<WaitEntry>)
    requires forall i :: 0 <= i < |q| ==> q[i].task in run
    ensures !SomeoneSleeps(run, q) <==> forall i :: 0 <= i < |q| ==> run[q[i].task].state == Running
  {
  }

  lemma EnterKeeps(c: Protocol, t: Id)
    requires ProtocolOk(c) && CanMove(c, Enter(t))
    ensures ProtocolOk(Next(c, Enter(t)))
  {
    assert ThreadOk(c, t);
    var c' := Next(c, Enter(t));
    if c.done == 0 {
      var e := WaitEntry(t, true);
      forall x
        ensures Waits(c'.queue, x) <==> Waits(c.queue, x) || x == t
      {
        WaitsAppend(c.queue, e, x);
      }
      forall x | x in c'.place
        ensures ThreadOk(c', x)
      {
        assert ThreadOk(c, x);
      }
      forall i, j | 0 <= i < j < |c'.queue|
        ensures c'.queue[i].task != c'.queue[j].task
      {
        assert Waits(c.queue, c.queue[i].task);
      }
    } else {
      forall x | x in c'.place
        ensures ThreadOk(c', x)
      {
        assert ThreadOk(c, x);
      }
    }
  }

  lemma WaitsAppend(q: seq<WaitEntry>, e: WaitEntry, x: Id)
    ensures Waits(q + [e], x) <==> Waits(q, x) || e.task == x
  {
    if Waits(q, x) {
      var i :| 0 <= i < |q| && q[i].task == x;
      assert (q + [e])[i].task == x;
    }
    assert (q + [e])[|q|] == e;
  }

  lemma ScheduleCallKeeps(c: Protocol, t: Id)
    requires ProtocolOk(c) && CanMove(c, CallSchedule(t))
    ensures ProtocolOk(Next(c, CallSchedule(t)))
  {
    assert ThreadOk(c, t);
    var c' := Next(c, CallSchedule(t));
    AwakeUpdate(c.run, c.queue, t, Run(Uninterruptible, false));
    forall x | x in c'.place
      ensures ThreadOk(c', x)
    {
      assert ThreadOk(c, x);
    }
    if c.run[t].state == Uninterruptible {
      var i :| 0 <= i < |c.queue| && c.queue[i].task == t;
      assert SomeoneSleeps(c.run, c.queue);
    }
  }

  lemma RecheckKeeps(c: Protocol, t: Id)
    requires ProtocolOk(c) && CanMove(c, Recheck(t))
    ensures ProtocolOk(Next(c, Recheck(t)))
  {
    assert ThreadOk(c, t);
    var c' := Next(c, Recheck(t));
    if c.done == 0 {
      forall x | x in c'.place
        ensures ThreadOk(c', x)
      {
        assert ThreadOk(c, x);
      }
    } else {
      DropWaiterFacts(c.queue, t);
      RemoveAwake(c.run, c.queue, t);
      forall x | x in c'.place
        ensures ThreadOk(c', x)
      {
        assert ThreadOk(c, x);
      }
      forall i | 0 <= i < |c'.queue|
        ensures c'.queue[i].exclusive && c'.queue[i].task in c'.place
      {
        assert c'.queue[i] in c.queue;
      }
      if SomeoneSleeps(c'.run, c'.queue) {
        var i :| 0 <= i < |c'.queue| && c'.queue[i].task in c'.run && c'.run[c'.queue[i].task].state != Running;
        assert c'.queue[i] in c.queue;
        var j :| 0 <= j < |c.queue| && c.queue[j] == c'.queue[i];
        assert SomeoneSleeps(c.run, c.queue);
      }
    }
  }

  lemma NudgeKeeps(c: Protocol, t: Id)
    requires ProtocolOk(c) && CanMove(c, Nudge(t))
    ensures ProtocolOk(Next(c, Nudge(t)))
  {
    var c' := Next(c, Nudge(t));
    assert ThreadOk(c, t);
    AwakeUpdate(c.run, c.queue, t, AWAKE);
    forall x | x in c'.place
      ensures ThreadOk(c', x)
    {
      assert ThreadOk(c, x);
    }
    if SomeoneSleeps(c'.run, c'.queue) {
      var i :| 0 <= i < |c'.queue| && c'.queue[i].task in c'.run && c'.run[c'.queue[i].task].state != Running;
      assert c.queue[i].task != t;
      assert SomeoneSleeps(c.run, c.queue);
    }
  }

  lemma ResumeKeeps(c: Protocol, t: Id)
    requires ProtocolOk(c) && CanMove(c, Resume(t))
    ensures ProtocolOk(Next(c, Resume(t)))
  {
    var c' := Next(c, Resume(t));
    assert ThreadOk(c, t);
    forall x | x in c'.place
      ensures ThreadOk(c', x)
    {
      assert ThreadOk(c, x);
    }
  }

  /** A change to a thread that does not wait changes nothing for those that do. */
  lemma OutsideKeeps(c: Protocol, c': Protocol, t: Id)
    requires ProtocolOk(c) && !Waits(c.queue, t) && c'.queue == c.queue && c'.done == c.done
    requires c'.run.Keys == c'.place.Keys && c.place.Keys - {t} <= c'.place.Keys <= c.place.Keys + {t}
    requires forall x :: x in c.place && x != t ==> c'.place[x] == c.place[x] && c'.run[x] == c.run[x]
    requires t in c'.place ==> c'.place[t] == Outside
    ensures ProtocolOk(c')
  {
    hide Distinct, Awake;
    forall i | 0 <= i < |c.queue|
      ensures c.queue[i].task != t
    {
      assert Waits(c.queue, c.queue[i].task);
    }
    forall x | x in c'.place
      ensures ThreadOk(c', x)
    {
      assert x != t ==> ThreadOk(c, x);
    }
    forall p | Waits(c.queue, p)
      ensures (p in c.run <==> p in c'.run) && (p in c.run ==> c.run[p] == c'.run[p])
    {
    }
    AwakeSame(c.run, c'.run, c.queue);
    if SomeoneSleeps(c'.run, c'.queue) {
      var i :| 0 <= i < |c'.queue| && c'.queue[i].task in c'.run && c'.run[c'.queue[i].task].state != Running;
      assert c.run[c.queue[i].task].state != Running;
    }
  }

  lemma ElsewhereKeeps(c: Protocol, t: Id, now: Run)
    requires ProtocolOk(c) && CanMove(c, Elsewhere(t, now))
    ensures ProtocolOk(Next(c, Elsewhere(t, now)))
  {
    NotWaiting(c, t);
    hide ProtocolOk;
    OutsideKeeps(c, Next(c, Elsewhere(t, now)), t);
  }

  lemma LeaveKeeps(c: Protocol, t: Id)
    requires ProtocolOk(c) && CanMove(c, Leave(t))
    ensures ProtocolOk(Next(c, Leave(t)))
  {
    NotWaiting(c, t);
    hide ProtocolOk;
    OutsideKeeps(c, Next(c, Leave(t)), t);
  }

  lemma NotWaiting(c: Protocol, t: Id)
    requires ProtocolOk(c) && (t in c.place ==> c.place[t] == Outside)
    ensures !Waits(c.queue, t) && c.run.Keys == c.place.Keys
  {
    if t in c.place {
      assert ThreadOk(c, t);
    }
  }

  /** Every move keeps the invariant and the balance of tokens. */
  lemma MoveKeeps(c: Protocol, m: Move)
    requires ProtocolOk(c) && CanMove(c, m)
    ensures ProtocolOk(Next(c, m))
    ensures Next(c, m).issued - Next(c, m).finished - Next(c, m).done == c.issued - c.finished - c.done
  {
    hide ProtocolOk;
    match m
    case Complete => CompleteKeeps(c);
    case Enter(t) => EnterKeeps(c, t);
    case CallSchedule(t) => ScheduleCallKeeps(c, t);
    case Resume(t) => ResumeKeeps(c, t);
    case Recheck(t) => RecheckKeeps(c, t);
    case Nudge(t) => NudgeKeeps(c, t);
    case Elsewhere(t, now) => ElsewhereKeeps(c, t, now);
    case Leave(t) => LeaveKeeps(c, t);
  }

  // ---------------------------------------------------------------- all interleavings

  ghost predicate Interleaving(c: Protocol, ms: seq<Move>)
    decreases |ms|
  {
    ms == [] || (CanMove(c, ms[0]) && Interleaving(Next(c, ms[0]), ms[1..]))
  }

  ghost function After(c: Protocol, ms: seq<Move>): Protocol
    requires Interleaving(c, ms)
    decreases |ms|
  {
    if ms == [] then c else After(Next(c, ms[0]), ms[1..])
  }

  lemma {:induction false} InterleavingKeeps(c: Protocol, ms: seq<Move>)
    requires ProtocolOk(c) && Interleaving(c, ms)
    ensures ProtocolOk(After(c, ms))
    ensures After(c, ms).issued - After(c, ms).finished - After(c, ms).done == c.issued - c.finished - c.done
    decreases |ms|
  {
    hide ProtocolOk, Next;
    if ms != [] {
      MoveKeeps(c, ms[0]);
      InterleavingKeeps(Next(c, ms[0]), ms[1..]);
    }
  }

  /** init_completion, with any threads in any state that do not wait for it. */
  function Start(run: map<Id, Run>): Protocol {
    Protocol(0, [], run, map t | t in run :: Outside, 0, 0)
  }

  /** The number of waiters in the queue that are asleep or about to be is positive only while at
      least `done` others are awake; and completes issued are waits finished plus `done`. */
  lemma TokensAndWakeups(run: map<Id, Run>, ms: seq<Move>)
    requires Interleaving(Start(run), ms)
    ensures var c := After(Start(run), ms);
            && c.issued == c.finished + c.done
            && (SomeoneSleeps(c.run, c.queue) ==> Awake(c.run, c.queue) >= c.done)
  {
    assert ProtocolOk(Start(run));
    InterleavingKeeps(Start(run), ms);
  }

  /** No lost wakeup: in any reachable state in which every waiter is asleep, no token is left. */
  lemma NoLostWakeup(run: map<Id, Run>, ms: seq<Move>)
    requires Interleaving(Start(run), ms)
    requires var c := After(Start(run), ms);
             c.queue != [] && forall i :: 0 <= i < |c.queue| ==>
               c.queue[i].task in c.run && c.run[c.queue[i].task].state != Running
    ensures After(Start(run), ms).done == 0
  {
    hide After, ProtocolOk;
    TokensAndWakeups(run, ms);
    var c := After(Start(run), ms);
    assert c.queue[0].task in c.run && c.run[c.queue[0].task].state != Running;
    AllAsleep(c.run, c.queue);
  }

  lemma {:induction false} AllAsleep(run: map<Id, Run>, q: seq<WaitEntry>)
    requires forall i :: 0 <= i < |q| ==> q[i].task in run && run[q[i].task].state != Running
    ensures Awake(run, q) == 0
  {
    if q != [] {
      forall i | 0 <= i < |q[1..]|
        ensures q[1..][i].task in run && run[q[1..][i].task].state != Running
      {
        assert q[1..][i] == q[i + 1];
      }
      AllAsleep(run, q[1..]);
    }
  }

  // ---------------------------------------------------------------- the protocol's moves on the scheduler

  /** complete's wake-up is the scheduler's, seen on the view. */
  lemma CompleteOnScheduler(s: Sched, q: seq<WaitEntry>)
    requires Inv(s)
    ensures ViewOf(WakeScan(s, q, SLEEPERS, 1)) == Scan(ViewOf(s), q, SLEEPERS, 1).0
  {
    WakeScanView(s, q, SLEEPERS, 1);
  }

  /** What schedule leaves of the task that calls it: it stays queued if it is running or gets a signal
      in an interruptible sleep, and otherwise leaves its array. */
  function AfterPass(state: RunState, signal: bool): Run {
    if state == Running || (state == Interruptible && signal) then AWAKE else Run(state, false)
  }

  /** A pass of schedule changes the view of the calling task only; for a thread in the wait this is
      CallSchedule, for a thread outside it is Elsewhere. */
  lemma ScheduleOnView(s: Sched, signal: bool)
    requires Inv(s) && s.curr in s.tasks
    ensures ViewOf(Schedule(s, signal)) == ViewOf(s)[s.curr := AfterPass(s.tasks[s.curr].state, signal)]
  {
    hide PutPrev, PickNext, SwitchTo, ViewOf, Inv;
    PutPrevView(s, signal);
    PutPrevKeeps(s, signal);
    var s1 := PutPrev(s, signal);
    PickNextView(s1);
    var (s2, next) := PickNext(s1);
    SwitchView(s2, next);
  }

  lemma PickNextView(s: Sched)
    ensures ViewOf(PickNext(s).0) == ViewOf(s)
  {
    hide ViewOf, PickNext;
    SchedFrames.PickNextTasks(s);
    ViewOfTasks(s, PickNext(s).0);
  }

  lemma ViewOfTasks(s: Sched, s': Sched)
    requires s'.tasks == s.tasks
    ensures ViewOf(s') == ViewOf(s)
  {
  }

  lemma SwitchView(s: Sched, next: Id)
    ensures ViewOf(SwitchTo(s, next)) == ViewOf(s)
  {
  }

  lemma PutPrevView(s: Sched, signal: bool)
    requires Inv(s) && s.curr in s.tasks
    ensures ViewOf(PutPrev(s, signal)) == ViewOf(s)[s.curr := AfterPass(s.tasks[s.curr].state, signal)]
  {
    hide Inv, Row, Without;
    CurrQueued(s);
  }

  // ---------------------------------------------------------------- struct completion

  class CompletionCell {
    var done: nat
    const wait: WaitQueueHead

    constructor ()
      ensures done == 0 && fresh(wait) && wait.Valid() && wait.entries == []
    {
      done := 0;
      wait := new WaitQueueHead();
    }

    /** The protocol state this completion and the scheduler stand for. */
    ghost function State(rq: Runqueue, place: map<Id, Place>, issued: nat, finished: nat): Protocol
      reads this, wait, rq
    {
      Protocol(done, wait.entries, ViewOf(rq.View()), place, issued, finished)
    }

    /** complete */
    method Complete(rq: Runqueue, ghost c: Protocol)
      requires rq.Valid() && wait.Valid() && c == State(rq, c.place, c.issued, c.finished)
      modifies this, rq
      ensures rq.Valid() && wait.Valid()
      ensures var c' := Next(c, Move.Complete); State(rq, c'.place, c'.issued, c'.finished) == c'
    {
      hide Runqueue.Valid, Scan, ViewOf;
      RqInvariant(rq);
      CompleteOnScheduler(rq.View(), wait.entries);
      done := done + 1;
      wait.WakeUpCommon(rq, SLEEPERS, 1);
    }

    /** The first locked region of wait_for_completion: whether the caller has to sleep. */
    method Begin(rq: Runqueue, ghost c: Protocol) returns (sleeps: bool)
      requires rq.Valid() && wait.Valid() && c == State(rq, c.place, c.issued, c.finished)
      requires rq.curr in rq.tasks && CanMove(c, Enter(rq.curr))
      modifies this, wait, rq
      ensures rq.Valid() && wait.Valid() && sleeps == (c.done == 0)
      ensures var c' := Next(c, Enter(old(rq.curr))); State(rq, c'.place, c'.issued, c'.finished) == c'
    {
      hide Runqueue.Valid, Distinct, Ordered;
      sleeps := done == 0;
      if sleeps {
        wait.AddExclusive(rq.curr);
        SetUninterruptible(rq);
      } else {
        done := done - 1;
      }
    }

    /** The locked region after schedule: whether the caller, whose entry is at position `at`, has to
        sleep again. */
    method Again(rq: Runqueue, at: nat, ghost c: Protocol) returns (sleeps: bool)
      requires rq.Valid() && wait.Valid() && c == State(rq, c.place, c.issued, c.finished) && ProtocolOk(c)
      requires rq.curr in rq.tasks && CanMove(c, Recheck(rq.curr))
      requires at < |wait.entries| && wait.entries[at].task == rq.curr
      modifies this, wait, rq
      ensures rq.Valid() && wait.Valid() && sleeps == (c.done == 0)
      ensures var c' := Next(c, Recheck(old(rq.curr))); State(rq, c'.place, c'.issued, c'.finished) == c'
    {
      hide Runqueue.Valid, Distinct, Ordered;
      sleeps := done == 0;
      if sleeps {
        SetUninterruptible(rq);
      } else {
        CutIsDrop(wait.entries, at);
        wait.Remove(at);
        done := done - 1;
      }
    }
  }

  lemma RqInvariant(rq: Runqueue)
    requires rq.Valid()
    ensures Inv(rq.View())
  {
  }

  /** __set_current_state(TASK_UNINTERRUPTIBLE) */
  method SetUninterruptible(rq: Runqueue)
    requires rq.Valid() && rq.curr in rq.tasks
    modifies rq
    ensures rq.Valid() && rq.curr == old(rq.curr)
    ensures ViewOf(rq.View()) == ViewOf(old(rq.View()))[rq.curr := COMMITTED_RUN]
  {
    hide Inv;
    CurrQueued(rq.View());
    rq.SetState(Uninterruptible);
  }
}
