/** Completions on the running scheduler: every step of the machine, whatever it is, is a few moves of the
    completion protocol, so that the protocol's guarantees hold over all runs of the scheduler itself. */
module CompletionRuns {
  import opened Rows
  import opened SchedModel
  import opened SchedInvariant
  import opened SchedSteps
  import opened WaitQueue
  import opened Completion
  import opened ScheduleView

  /** The scheduler and one completion with its waiters. */
  datatype Joint = Joint(sched: Sched, cell: Protocol)

  /** A kernel entry point, or one of the locked regions of complete and wait_for_completion, which the
      current task runs; complete may also come from an interrupt. */
  datatype JointEvent = Kernel(e: Event) | CompleteIt | StartWait | CheckAgain

  /** The protocol sees the scheduler as it is, and a task that runs has come back from its sleep. */
  ghost predicate Tied(j: Joint) {
    && Inv(j.sched) && ProtocolOk(j.cell) && j.cell.run == ViewOf(j.sched)
    && (j.sched.curr in j.sched.tasks ==> j.sched.curr in j.cell.place && j.cell.place[j.sched.curr] != Asleep)
  }

  ghost predicate InWait(j: Joint) {
    j.sched.curr in j.cell.place && j.cell.place[j.sched.curr] != Outside
  }

  /** A task inside wait_for_completion makes no system call; it is scheduled, and interrupts come. */
  ghost predicate CanHappen(j: Joint, je: JointEvent) {
    match je
    case Kernel(e) => Enabled(j.sched, e) && (InWait(j) ==> e.Tick? || e.Resched? || e.Wake?)
    case CompleteIt => true
    case StartWait => j.sched.curr in j.sched.tasks && !InWait(j)
    case CheckAgain => j.sched.curr in j.cell.place && j.cell.place[j.sched.curr] == Rechecking
  }

  ghost function Try(c: Protocol, m: Move): Protocol {
    if CanMove(c, m) then Next(c, m) else c
  }

  /** A pass of schedule on the protocol: the task that calls it leaves, the task it picks resumes. */
  ghost function Passed(c: Protocol, curr: Id, now: Run, next: Id): Protocol {
    var c1 :=
      if curr !in c.place then c
      else Try(c, if c.place[curr] == Committed then CallSchedule(curr) else Elsewhere(curr, now));
    Try(c1, Resume(next))
  }

  /** What a kernel entry point is to the protocol. */
  ghost function Followed(j: Joint, e: Event): Protocol
    requires Enabled(j.sched, e)
  {
    var s, c := j.sched, j.cell;
    match e
    case Resched(signal) =>
      Passed(c, s.curr, if s.curr in s.tasks then AfterPass(s.tasks[s.curr].state, signal) else AWAKE, Step(s, e).curr)
    case YieldCpu(signal) => Passed(c, s.curr, AfterPass(s.tasks[s.curr].state, signal), Step(s, e).curr)
    case SetState(state) => Try(c, Elsewhere(s.curr, Run(state, true)))
    case Wake(p) => Try(c, Nudge(p))
    case Clone(child) => Try(c, Elsewhere(child, AWAKE))
    case Exit(child) => Try(c, Leave(child))
    case _ => c
  }

  /** The current task goes to sleep for the completion: the state only, schedule comes later. */
  function Sleeping(s: Sched): Sched
    requires s.curr in s.tasks
  {
    Upd(s, s.curr, s.tasks[s.curr].(state := Uninterruptible))
  }

  ghost function JointStep(j: Joint, je: JointEvent): Joint
    requires Tied(j) && CanHappen(j, je)
  {
    var s, c := j.sched, j.cell;
    match je
    case Kernel(e) => Joint(Step(s, e), Followed(j, e))
    case CompleteIt => Joint(WakeScan(s, c.queue, SLEEPERS, 1), Next(c, Complete))
    case StartWait =>
      CanStart(j);
      Joint(if c.done == 0 then Sleeping(s) else s, Next(c, Enter(s.curr)))
    case CheckAgain =>
      Joint(if c.done == 0 && s.curr in s.tasks then Sleeping(s) else s, Next(c, Recheck(s.curr)))
  }

  lemma CanStart(j: Joint)
    requires Tied(j) && CanHappen(j, StartWait)
    ensures CanMove(j.cell, Enter(j.sched.curr))
  {
    hide Inv, ProtocolOk;
    CurrQueued(j.sched);
  }

  // ---------------------------------------------------------------- each step keeps the tie

  lemma TryKeeps(c: Protocol, m: Move)
    requires ProtocolOk(c)
    ensures var c' := Try(c, m);
            ProtocolOk(c') && c'.issued - c'.finished - c'.done == c.issued - c.finished - c.done
  {
    hide ProtocolOk, Next;
    if CanMove(c, m) {
      Completion.MoveKeeps(c, m);
    }
  }

  lemma KeysOfProtocol(c: Protocol)
    requires ProtocolOk(c)
    ensures c.run.Keys == c.place.Keys
    ensures forall t :: t in c.place ==> ThreadOk(c, t)
  {
  }

  /** A pass of schedule: the protocol sees what the scheduler does, and whoever runs now has resumed. */
  lemma PassedFits(c: Protocol, curr: Id, state: RunState, signal: bool, next: Id)
    requires ProtocolOk(c)
    requires curr in c.place ==> c.place[curr] != Asleep && c.run[curr] == Run(state, true)
    ensures var now := if curr in c.place then AfterPass(state, signal) else AWAKE;
            var c' := Passed(c, curr, now, next);
            && ProtocolOk(c') && c'.issued - c'.finished - c'.done == c.issued - c.finished - c.done
            && c'.run == (if curr in c.place then c.run[curr := AfterPass(state, signal)] else c.run)
            && (next in c'.run && c'.run[next].queued ==> next in c'.place && c'.place[next] != Asleep)
  {
    hide ProtocolOk;
    KeysOfProtocol(c);
    var now := if curr in c.place then AfterPass(state, signal) else AWAKE;
    var m := if curr in c.place && c.place[curr] == Committed then CallSchedule(curr) else Elsewhere(curr, now);
    var c1 := if curr !in c.place then c else Try(c, m);
    if curr in c.place {
      assert ThreadOk(c, curr);
      TryKeeps(c, m);
      LeavingRun(c, curr, state, signal);
    }
    TryKeeps(c1, Resume(next));
    KeysOfProtocol(c1);
  }

  lemma LeavingRun(c: Protocol, curr: Id, state: RunState, signal: bool)
    requires curr in c.place && curr in c.run && ThreadOk(c, curr) && c.place[curr] != Asleep
    requires c.run[curr] == Run(state, true)
    ensures var now := AfterPass(state, signal);
            var m := if c.place[curr] == Committed then CallSchedule(curr) else Elsewhere(curr, now);
            Try(c, m).run == c.run[curr := now]
  {
  }

  /** Steps other than schedule and yield leave the current task running. */
  lemma CurrStays(s: Sched, e: Event)
    requires Enabled(s, e) && !e.Resched? && !e.YieldCpu?
    ensures Step(s, e).curr == s.curr
  {
    hide TimerTick, Schedule, TryToWakeUp, Fork, YieldQueue, SetUserNice, SetScheduler, AfterReap;
    match e
    case Tick => TickCurr(s);
    case Wake(p) => SchedFrames.WakeCores(s, p);
    case Clone(c) => ForkCurr(s, c);
    case Renice(p, nice) => SchedFrames.NiceCores(s, p, nice);
    case SetPolicy(r) => SchedFrames.SetSchedulerCores(s, r);
    case _ =>
  }

  lemma TickCurr(s: Sched)
    ensures TimerTick(s).curr == s.curr
  {
    hide SchedulerTick;
    if s.curr in s.tasks {
      TickScalars(s.(jiffies := s.jiffies + 1));
    } else {
      SchedFrames.TickIdle(s);
    }
  }

  lemma ForkCurr(s: Sched, child: Id)
    requires s.curr in s.tasks && child !in s.tasks
    ensures Fork(s, child).curr == s.curr
  {
    hide ForkParent, NewChild, Activate, OverdueTask;
    ForkParentScalars(s);
    SchedFrames.ActivateCores(Upd(ForkParent(s), child, NewChild(s)), child);
  }

  ghost predicate SameTokens(c: Protocol, c': Protocol) {
    c'.issued - c'.finished - c'.done == c.issued - c.finished - c.done
  }

  lemma PassKeeps(j: Joint, e: Event)
    requires Tied(j) && CanHappen(j, Kernel(e)) && (e.Resched? || e.YieldCpu?)
    ensures Tied(Joint(Step(j.sched, e), Followed(j, e))) && SameTokens(j.cell, Followed(j, e))
  {
    hide Step, Inv, ProtocolOk, ViewOf, Passed, AfterPass;
    var s, c := j.sched, j.cell;
    var s' := Step(s, e);
    StepKeeps(s, e);
    StepView(s, e);
    KeysOfProtocol(c);
    KeysSeen(s);
    KeysSeen(s');
    var state := if s.curr in s.tasks then s.tasks[s.curr].state else Running;
    if s.curr in s.tasks {
      CurrQueued(s);
    }
    PassedFits(c, s.curr, state, e.signal, s'.curr);
    KeysOfProtocol(Followed(j, e));
    if s'.curr in s'.tasks {
      CurrQueued(s');
    }
  }

  lemma KeysSeen(s: Sched)
    ensures ViewOf(s).Keys == s.tasks.Keys
    ensures forall p :: p in s.tasks ==> ViewOf(s)[p] == Run(s.tasks[p].state, s.tasks[p].onArr.Some?)
  {
  }

  /** A dead task does not wait. */
  lemma DeadIsOutside(j: Joint, child: Id)
    requires Tied(j) && Enabled(j.sched, Exit(child))
    ensures child in j.cell.place && j.cell.place[child] == Outside
  {
    hide Inv, ProtocolOk, ViewOf;
    KeysOfProtocol(j.cell);
    KeysSeen(j.sched);
    assert ThreadOk(j.cell, child);
  }

  /** The move of an event other than schedule and yield shows the protocol the same change. */
  lemma OtherFits(j: Joint, e: Event)
    requires Tied(j) && CanHappen(j, Kernel(e)) && !e.Resched? && !e.YieldCpu?
    ensures Followed(j, e).run == ViewAfter(j.sched, e)
    ensures var s, c := j.sched, Followed(j, e);
            s.curr in c.run ==> s.curr in c.place && c.place[s.curr] != Asleep
  {
    hide Step, Inv, ProtocolOk, ViewOf, Passed, AfterPass;
    KeysOfProtocol(j.cell);
    KeysSeen(j.sched);
    if e.Exit? {
      DeadIsOutside(j, e.child);
    }
  }

  lemma OtherKeepsProtocol(j: Joint, e: Event)
    requires Tied(j) && CanHappen(j, Kernel(e)) && !e.Resched? && !e.YieldCpu?
    ensures ProtocolOk(Followed(j, e)) && SameTokens(j.cell, Followed(j, e))
  {
    hide Step, Inv, ProtocolOk, ViewOf, Passed, AfterPass, Try;
    var s, c := j.sched, j.cell;
    match e
    case SetState(state) => TryKeeps(c, Elsewhere(s.curr, Run(state, true)));
    case Wake(p) => TryKeeps(c, Nudge(p));
    case Clone(child) => TryKeeps(c, Elsewhere(child, AWAKE));
    case Exit(child) => TryKeeps(c, Leave(child));
    case _ =>
  }

  lemma OtherKeeps(j: Joint, e: Event)
    requires Tied(j) && CanHappen(j, Kernel(e)) && !e.Resched? && !e.YieldCpu?
    ensures Tied(Joint(Step(j.sched, e), Followed(j, e))) && SameTokens(j.cell, Followed(j, e))
  {
    hide Step, Inv, ProtocolOk, ViewOf, Followed, ViewAfter;
    StepKeeps(j.sched, e);
    StepView(j.sched, e);
    CurrStays(j.sched, e);
    OtherFits(j, e);
    OtherKeepsProtocol(j, e);
    KeysOfProtocol(Followed(j, e));
    KeysSeen(j.sched);
    KeysSeen(Step(j.sched, e));
  }

  lemma {:induction false} WakeScanCurr(s: Sched, es: seq<WaitEntry>, mode: set<RunState>, nr: int)
    ensures WakeScan(s, es, mode, nr).curr == s.curr
    decreases |es|
  {
    hide TryToWakeUp;
    if es != [] {
      var p := es[0].task;
      if p in s.tasks {
        SchedFrames.WakeCores(s, p);
        WakeScanCurr(TryToWakeUp(s, p).0, es[1..], mode, nr);
        WakeScanCurr(TryToWakeUp(s, p).0, es[1..], mode, nr - 1);
      }
      WakeScanCurr(s, es[1..], mode, nr);
    }
  }

  lemma CompleteItKeeps(j: Joint)
    requires Tied(j)
    ensures Tied(JointStep(j, CompleteIt)) && SameTokens(j.cell, JointStep(j, CompleteIt).cell)
  {
    hide Inv, ProtocolOk, ViewOf, WakeScan, Scan;
    var s, c := j.sched, j.cell;
    Completion.MoveKeeps(c, Complete);
    WakeScanView(s, c.queue, SLEEPERS, 1);
    WakeScanCurr(s, c.queue, SLEEPERS, 1);
    KeysOfProtocol(c);
    KeysOfProtocol(Next(c, Complete));
    KeysSeen(s);
    KeysSeen(WakeScan(s, c.queue, SLEEPERS, 1));
  }

  lemma SleepingKeeps(s: Sched)
    requires Inv(s) && s.curr in s.tasks
    ensures Inv(Sleeping(s)) && Sleeping(s).curr == s.curr && Sleeping(s).tasks.Keys == s.tasks.Keys
    ensures ViewOf(Sleeping(s)) == ViewOf(s)[s.curr := COMMITTED_RUN]
  {
    hide Inv, ViewOf;
    RunQueue.StateKept(s, Uninterruptible);
    StateLook(s, Uninterruptible);
  }

  lemma WaitKeeps(j: Joint, je: JointEvent)
    requires Tied(j) && CanHappen(j, je) && (je == StartWait || je == CheckAgain)
    ensures Tied(JointStep(j, je)) && SameTokens(j.cell, JointStep(j, je).cell)
  {
    hide Inv, ProtocolOk, ViewOf, Sleeping;
    var s, c := j.sched, j.cell;
    KeysOfProtocol(c);
    KeysSeen(s);
    SleepingKeeps(s);
    if je == StartWait {
      CanStart(j);
      Completion.MoveKeeps(c, Enter(s.curr));
    } else {
      Completion.MoveKeeps(c, Recheck(s.curr));
    }
  }

  /** Every step of the scheduler and every locked region keeps the tie and the balance of tokens. */
  lemma JointKeeps(j: Joint, je: JointEvent)
    requires Tied(j) && CanHappen(j, je)
    ensures Tied(JointStep(j, je)) && SameTokens(j.cell, JointStep(j, je).cell)
  {
    hide Tied, Step, Followed;
    match je
    case Kernel(e) =>
      if e.Resched? || e.YieldCpu? {
        PassKeeps(j, e);
      } else {
        OtherKeeps(j, e);
      }
    case CompleteIt => CompleteItKeeps(j);
    case StartWait => WaitKeeps(j, je);
    case CheckAgain => WaitKeeps(j, je);
  }

  // ---------------------------------------------------------------- runs

  ghost predicate JointRun(j: Joint, jes: seq<JointEvent>, j': Joint)
    requires Tied(j)
    decreases |jes|
  {
    if jes == [] then j' == j
    else
      CanHappen(j, jes[0]) && (JointKeeps(j, jes[0]); JointRun(JointStep(j, jes[0]), jes[1..], j'))
  }

  lemma {:induction false} JointRunKeeps(j: Joint, jes: seq<JointEvent>, j': Joint)
    requires Tied(j) && JointRun(j, jes, j')
    ensures Tied(j') && SameTokens(j.cell, j'.cell)
    decreases |jes|
  {
    hide Tied, JointStep;
    if jes != [] {
      JointKeeps(j, jes[0]);
      JointRunKeeps(JointStep(j, jes[0]), jes[1..], j');
    }
  }

  /** Over every run of the scheduler with a completion that nobody waits for at first: completes issued
      are waits finished plus done; and if every waiter is in a state other than TASK_RUNNING on the
      scheduler, no token is left. */
  lemma NoLostWakeupOnScheduler(s: Sched, jes: seq<JointEvent>, j: Joint)
    requires Inv(s) && Tied(Joint(s, Start(ViewOf(s)))) && JointRun(Joint(s, Start(ViewOf(s))), jes, j)
    ensures j.cell.issued == j.cell.finished + j.cell.done
    ensures forall i :: 0 <= i < |j.cell.queue| ==> j.cell.queue[i].task in j.sched.tasks
    ensures j.cell.queue != []
            && (forall i :: 0 <= i < |j.cell.queue| ==> j.sched.tasks[j.cell.queue[i].task].state != Running)
            ==> j.cell.done == 0
  {
    hide Inv, JointRun, ViewOf;
    JointRunKeeps(Joint(s, Start(ViewOf(s))), jes, j);
    KeysSeen(j.sched);
    var c := j.cell;
    if c.queue != [] && forall i :: 0 <= i < |c.queue| ==> j.sched.tasks[c.queue[i].task].state != Running {
      assert c.run[c.queue[0].task].state != Running;
      AllAsleep(c.run, c.queue);
    }
  }

  lemma StartIsTied(s: Sched)
    requires Inv(s)
    ensures Tied(Joint(s, Start(ViewOf(s))))
  {
    hide Inv, ViewOf;
    KeysSeen(s);
  }
}
