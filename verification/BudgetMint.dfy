/** A run from boot in which a reap creates SHORT time: a task forks, is made SHORT while its child
    still has the first slice, and reaps the child. */
module BudgetMint {
  import opened Params
  import opened Rows
  import opened SchedModel
  import opened SchedInvariant
  import opened SchedSteps
  import opened SchedFrames
  import opened PickOrder
  import opened WaitQueue
  import opened Completion
  import opened Budget

  const PARENT: Id := 1
  const CHILD: Id := 2

  /** Who runs, and what a waker would see of the two tasks. */
  ghost predicate Stage(s: Sched, curr: Id, parent: Run, child: Run) {
    Inv(s) && s.tasks.Keys == {PARENT, CHILD} && s.curr == curr && Sees(s, PARENT, parent) && Sees(s, CHILD, child)
  }

  ghost predicate Sees(s: Sched, p: Id, r: Run) {
    p in s.tasks && ViewOf(s)[p] == r
  }

  /** The child is OTHER in its first slice; the parent is OTHER, or SHORT with a tenth of a second. */
  ghost predicate Classes(s: Sched, short: bool) {
    && PARENT in s.tasks && CHILD in s.tasks
    && s.tasks[CHILD].policy == Other && s.tasks[CHILD].firstTimeSlice && s.tasks[CHILD].parent == PARENT
    && !s.tasks[PARENT].iAmOverdue
    && s.tasks[PARENT].policy == (if short then Short else Other)
    && (short ==> s.tasks[PARENT].timeSlice == MsToJiffies(100))
  }

  /** setscheduler for the parent: SHORT, 100 ms. */
  function MakeParentShort(): Request {
    Request(PARENT, 5, 0, 100, true, true, true, false, false, false)
  }

  lemma SameClasses(s: Sched, e: Event, short: bool)
    requires Enabled(s, e) && Classes(s, short) && !e.Tick? && !e.Clone? && !e.Exit? && !e.SetPolicy? && !e.Renice?
    ensures Classes(Step(s, e), short)
  {
    hide Step;
    StepCores(s, e);
  }

  lemma AfterFork(s: Sched)
    requires Inv(s) && s.tasks.Keys == {PARENT} && s.curr == PARENT && s.tasks[PARENT].policy == Other
    requires s.tasks[PARENT].timeSlice >= 2 && s.tasks[PARENT].state == Running
    ensures Enabled(s, Clone(CHILD))
    ensures Stage(Step(s, Clone(CHILD)), PARENT, AWAKE, AWAKE) && Classes(Step(s, Clone(CHILD)), false)
  {
    hide Step;
    var s' := Step(s, Clone(CHILD));
    assert TaskOk(s.tasks[PARENT], s.jiffies);
    StepCores(s, Clone(CHILD));
    StepKeeps(s, Clone(CHILD));
    ForkedOther(s);
    ForkedView(s);
  }

  lemma ForkedOther(s: Sched)
    requires s.curr in s.tasks && s.tasks[s.curr].policy == Other && s.tasks[s.curr].timeSlice >= 2
    ensures ForkedParent(s).policy == Other && ForkedParent(s).iAmOverdue == s.tasks[s.curr].iAmOverdue
    ensures NewChild(s).policy == Other && NewChild(s).firstTimeSlice && NewChild(s).parent == s.curr
  {
  }

  lemma ForkedView(s: Sched)
    requires Inv(s) && s.tasks.Keys == {PARENT} && s.curr == PARENT && s.tasks[PARENT].policy == Other
    requires s.tasks[PARENT].timeSlice >= 2 && s.tasks[PARENT].state == Running
    ensures var s' := Step(s, Clone(CHILD));
            && s'.curr == PARENT && s'.tasks.Keys == {PARENT, CHILD}
            && (forall x :: x in s'.tasks ==> s'.tasks[x].state == Running && s'.tasks[x].onArr.Some?)
  {
    hide Activate, NewChild, Inv, SchedulerTick, OverdueTask;
    CurrQueued(s);
    var c := NewChild(s);
    ChildIsRunning(s);
    var s1 := Upd(ForkParent(s), CHILD, c);
    assert NoFork(s1.tasks) by {
      NoForkHere(s);
    }
    ActivateRun(s1, CHILD);
  }

  lemma ChildIsRunning(s: Sched)
    requires s.curr in s.tasks
    ensures NewChild(s).state == Running && NewChild(s).onArr == None
    ensures NewChild(s).justGotForked == s.tasks[s.curr].justGotForked
  {
  }

  lemma NoForkHere(s: Sched)
    requires Inv(s) && s.tasks.Keys == {PARENT} && s.curr == PARENT
    ensures !s.tasks[PARENT].justGotForked
  {
  }

  /** The current task changes its state. */
  lemma StateStep(s: Sched, curr: Id, parent: Run, child: Run, state: RunState)
    requires Stage(s, curr, parent, child) && curr in {PARENT, CHILD}
    ensures Enabled(s, SetState(state))
    ensures if curr == PARENT then Stage(Step(s, SetState(state)), curr, Run(state, true), child)
            else Stage(Step(s, SetState(state)), curr, parent, Run(state, true))
  {
    hide Inv, Step, ViewOf;
    StepKeeps(s, SetState(state));
    CurrQueued(s);
    KeysOfView(s);
    KeysOfView(Step(s, SetState(state)));
    StateView(s, state);
  }

  lemma KeysOfView(s: Sched)
    ensures ViewOf(s).Keys == s.tasks.Keys
    ensures forall p :: p in s.tasks ==> ViewOf(s)[p] == Run(s.tasks[p].state, s.tasks[p].onArr.Some?)
  {
  }

  lemma StateView(s: Sched, state: RunState)
    requires s.curr in s.tasks && s.tasks[s.curr].onArr.Some?
    ensures var s' := Step(s, SetState(state));
            && s'.curr == s.curr && s'.tasks.Keys == s.tasks.Keys && ViewOf(s') == ViewOf(s)[s.curr := Run(state, true)]
  {
    hide TimerTick, Schedule, TryToWakeUp, Fork, Reap, YieldQueue, SetUserNice, SetScheduler;
  }

  /** A pass of schedule from a task that is not running any more to the only other one. */
  lemma PassStep(s: Sched, curr: Id, state: RunState)
    requires state != Running
    requires curr == PARENT || curr == CHILD
    requires if curr == PARENT then Stage(s, PARENT, Run(state, true), AWAKE) else Stage(s, CHILD, AWAKE, Run(state, true))
    ensures if curr == PARENT then Stage(Step(s, Resched(false)), CHILD, Run(state, false), AWAKE)
            else Stage(Step(s, Resched(false)), PARENT, AWAKE, Run(state, false))
  {
    hide Step, Schedule, Inv, PutPrev, ViewOf;
    var other := if curr == PARENT then CHILD else PARENT;
    StepKeeps(s, Resched(false));
    PassIs(s);
    KeysOfView(s);
    KeysOfView(Schedule(s, false));
    ScheduleOnView(s, false);
    NextIsOther(s, other);
  }

  lemma PassIs(s: Sched)
    ensures Step(s, Resched(false)) == Schedule(s, false)
  {
    hide Schedule;
  }

  /** If the current task is not running any more and one other is queued, that one is next. */
  lemma NextIsOther(s: Sched, other: Id)
    requires Inv(s) && s.curr in s.tasks && other != s.curr && s.tasks.Keys == {s.curr, other}
    requires s.tasks[s.curr].state != Running && s.tasks[other].onArr.Some?
    ensures Schedule(s, false).curr == other
  {
    hide Schedule, Inv, InvNoCurr, PutPrev, Before, ViewOf;
    PutPrevView(s, false);
    ScheduleIsFirst(s, false);
    var s1 := PutPrev(s, false);
    KeysOfView(s);
    KeysOfView(s1);
    assert IsQueued(s1, other) && !IsQueued(s1, s.curr);
  }

  /** The child calls setscheduler for its sleeping parent. */
  lemma PolicyStep(s: Sched)
    requires Stage(s, CHILD, Run(Uninterruptible, false), AWAKE) && Classes(s, false)
    ensures Enabled(s, SetPolicy(MakeParentShort()))
    ensures var s' := Step(s, SetPolicy(MakeParentShort()));
            Stage(s', CHILD, Run(Uninterruptible, false), AWAKE) && Classes(s', true)
  {
    hide Judge, Inv, MsToJiffies, Step;
    var r := MakeParentShort();
    var t := s.tasks[PARENT];
    ParentIsMade(t);
    MadeRecord(t, r);
    GrantedAsleep(s, r);
    StepKeeps(s, SetPolicy(r));
  }

  lemma ParentIsMade(t: Task)
    requires t.policy == Other
    ensures Judge(t, MakeParentShort()).MakeShort?
  {
    assert MsToJiffies(100) == 100 * HZ / 1000 >= 1;
  }

  /** setscheduler makes a sleeping task SHORT: only the record changes, and the caller is flagged. */
  lemma GrantedAsleep(s: Sched, r: Request)
    requires r == MakeParentShort() && s.curr in s.tasks && s.curr != PARENT && PARENT in s.tasks
    requires s.tasks[PARENT].onArr == None && Judge(s.tasks[PARENT], r).MakeShort?
    ensures Enabled(s, SetPolicy(r))
    ensures Step(s, SetPolicy(r)) == ReschedCurr(Upd(s, PARENT, Judge(s.tasks[PARENT], r).made))
  {
    hide Judge, TimerTick, Schedule, TryToWakeUp, Fork, Reap, YieldQueue, SetUserNice;
  }

  lemma MadeRecord(t: Task, r: Request)
    requires Judge(t, r).MakeShort?
    ensures var made := Judge(t, r).made;
            && made.policy == Short && made.timeSlice == MsToJiffies(r.requestedMs) && made.iAmOverdue == t.iAmOverdue
            && made.onArr == t.onArr && made.state == t.state
  {
  }

  /** The parent is woken while the child, already dead, has not left the processor. */
  lemma WakeStep(s: Sched)
    requires Stage(s, CHILD, Run(Uninterruptible, false), Run(Zombie, true))
    ensures Enabled(s, Wake(PARENT)) && Stage(Step(s, Wake(PARENT)), CHILD, AWAKE, Run(Zombie, true))
  {
    hide TryToWakeUp, Inv, Step, ViewOf;
    StepKeeps(s, Wake(PARENT));
    WakeView(s, PARENT);
    WakeCores(s, PARENT);
    WakeIs(s);
    KeysOfView(s);
  }

  lemma WakeIs(s: Sched)
    requires PARENT in s.tasks
    ensures Enabled(s, Wake(PARENT)) && Step(s, Wake(PARENT)) == TryToWakeUp(s, PARENT).0
  {
    hide TryToWakeUp;
  }

  /** The reap takes place, and the parent ends with more SHORT jiffies than both held before. */
  lemma ReapStep(s: Sched)
    requires Stage(s, PARENT, AWAKE, Run(Zombie, false)) && Classes(s, true)
    ensures Enabled(s, Exit(CHILD)) && Frugal(s, Exit(CHILD), {PARENT, CHILD})
    ensures Creates(s, Exit(CHILD), {PARENT, CHILD})
  {
    assert ViewOf(s)[CHILD] == Run(s.tasks[CHILD].state, s.tasks[CHILD].onArr.Some?);
    assert MsToJiffies(100) < MAX_TIMESLICE by {
      assert 100 * HZ / 1000 < 300 * HZ / 1000;
    }
    hide Inv, MsToJiffies;
  }

  /** The events of the run, up to the reap. */
  function MintingEvents(): seq<Event> {
    [Clone(CHILD), SetState(Uninterruptible), Resched(false), SetPolicy(MakeParentShort()),
     SetState(Zombie), Wake(PARENT), Resched(false)]
  }

  lemma MintingRun(s: Sched)
    requires Inv(s) && s.tasks.Keys == {PARENT} && s.curr == PARENT && s.tasks[PARENT].policy == Other
    requires s.tasks[PARENT].timeSlice >= 2 && s.tasks[PARENT].state == Running
    ensures Possible(s, MintingEvents())
    ensures Stage(SchedModel.Run(s, MintingEvents()), PARENT, AWAKE, Run(Zombie, false))
    ensures Classes(SchedModel.Run(s, MintingEvents()), true)
  {
    hide Step, Enabled, Stage, Classes, Inv;
    var es := MintingEvents();
    AfterFork(s);
    var s1 := Step(s, es[0]);
    StateStep(s1, PARENT, AWAKE, AWAKE, Uninterruptible);
    SameClasses(s1, es[1], false);
    var s2 := Step(s1, es[1]);
    PassStep(s2, PARENT, Uninterruptible);
    AlwaysEnabled(s2);
    SameClasses(s2, es[2], false);
    var s3 := Step(s2, es[2]);
    PolicyStep(s3);
    var s4 := Step(s3, es[3]);
    StateStep(s4, CHILD, Run(Uninterruptible, false), AWAKE, Zombie);
    SameClasses(s4, es[4], true);
    var s5 := Step(s4, es[4]);
    WakeStep(s5);
    SameClasses(s5, es[5], true);
    var s6 := Step(s5, es[5]);
    PassStep(s6, CHILD, Zombie);
    AlwaysEnabled(s6);
    SameClasses(s6, es[6], true);
    var s7 := Step(s6, es[6]);
    assert es[7..] == [];
    RunQueue.NoPasses(s7);
    OneStep(s6, es, 6);
    OneStep(s5, es, 5);
    OneStep(s4, es, 4);
    OneStep(s3, es, 3);
    OneStep(s2, es, 2);
    OneStep(s1, es, 1);
    OneStep(s, es, 0);
    assert es[0..] == es;
  }

  lemma AlwaysEnabled(s: Sched)
    ensures Enabled(s, Resched(false))
  {
  }

  lemma OneStep(s: Sched, es: seq<Event>, k: nat)
    requires k < |es| && Enabled(s, es[k]) && Possible(Step(s, es[k]), es[k + 1..])
    ensures Possible(s, es[k..])
    ensures SchedModel.Run(s, es[k..]) == SchedModel.Run(Step(s, es[k]), es[k + 1..])
  {
    hide Step, Enabled;
    assert es[k..][1..] == es[k + 1..];
  }

  /** SHORT time out of OTHER time, from boot: after this run of forks, sleeps, one grant and wake-ups
      the parent reaps its own child, and the reap gives the two more SHORT jiffies than they held. */
  lemma ReapCreatesShortTime(jiffies: int)
    requires jiffies >= 1
    ensures Possible(Boot(PARENT, jiffies), MintingEvents())
    ensures var s := SchedModel.Run(Boot(PARENT, jiffies), MintingEvents());
            && Enabled(s, Exit(CHILD)) && Frugal(s, Exit(CHILD), {PARENT, CHILD})
            && Held(Step(s, Exit(CHILD)), {PARENT}) > Held(s, {PARENT, CHILD})
  {
    hide Step, Held, Delta, Creates, Frugal, MintingEvents;
    BootKeeps(PARENT, jiffies);
    BootTaskIs(jiffies);
    var b := Boot(PARENT, jiffies);
    MintingRun(b);
    var s := SchedModel.Run(b, MintingEvents());
    ReapStep(s);
    StageInv(s);
    BudgetStep(s, Exit(CHILD), {PARENT, CHILD});
    assert {PARENT, CHILD} - {CHILD} == {PARENT};
  }

  lemma StageInv(s: Sched)
    requires Stage(s, PARENT, AWAKE, Run(Zombie, false))
    ensures Inv(s)
  {
  }

  lemma BootTaskIs(jiffies: int)
    requires jiffies >= 1
    ensures var s := Boot(PARENT, jiffies);
            && s.tasks.Keys == {PARENT} && s.curr == PARENT
            && s.tasks[PARENT].policy == Other && s.tasks[PARENT].timeSlice >= 2 && s.tasks[PARENT].state == Running
  {
  }
}
