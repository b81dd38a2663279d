/** The time slices of all classes over every step, and the fairness of the split at a fork. */
module Slices {
  import opened Rows
  import opened SchedModel
  import opened SchedInvariant
  import opened SchedFrames
  import opened Places

  /** A fork by a task that is not overdue and has two jiffies, whatever its class, halves the slice; the
      odd jiffy goes to the child, and the child knows that its slice is not its own. */
  lemma FairSplit(s: Sched, child: Id)
    requires Inv(s) && Enabled(s, Clone(child))
    requires !OverdueTask(s.tasks[s.curr]) && s.tasks[s.curr].timeSlice >= 2
    ensures var s' := Step(s, Clone(child));
            && s.curr in s'.tasks && child in s'.tasks
            && var t, p, c := s.tasks[s.curr], s'.tasks[s.curr], s'.tasks[child];
            && p.timeSlice + c.timeSlice == t.timeSlice
            && 0 <= c.timeSlice - p.timeSlice <= 1
            && c.firstTimeSlice && p.firstTimeSlice == t.firstTimeSlice
  {
    hide Step, Inv;
    StepCores(s, Clone(child));
    NewChildShare(s);
  }

  lemma NewChildShare(s: Sched)
    requires Inv(s) && s.curr in s.tasks
    requires !OverdueTask(s.tasks[s.curr]) && s.tasks[s.curr].timeSlice >= 2
    ensures var t, p, c := s.tasks[s.curr], ForkedParent(s), NewChild(s);
            && p.timeSlice == t.timeSlice / 2 && c.timeSlice == t.timeSlice - t.timeSlice / 2
            && c.firstTimeSlice && p.firstTimeSlice == t.firstTimeSlice
  {
  }

  /** A fork by any other task: an overdue one keeps its slice and its child gets as much; one with its last
      jiffy gives that one to the child and goes on with the slice the forced tick gives it, which for a
      FIFO task is one jiffy again. */
  lemma OtherSplits(s: Sched, child: Id)
    requires Inv(s) && Enabled(s, Clone(child))
    requires OverdueTask(s.tasks[s.curr]) || s.tasks[s.curr].timeSlice == 1
    ensures var s' := Step(s, Clone(child));
            && s.curr in s'.tasks && child in s'.tasks
            && var t, p, c := s.tasks[s.curr], s'.tasks[s.curr], s'.tasks[child];
            && c.timeSlice == t.timeSlice && c.firstTimeSlice
            && p.timeSlice ==
               if OverdueTask(t) then t.timeSlice
               else if t.onArr == Some(Expired(s)) || t.policy == Fifo then 1
               else if ShortTask(t) then 2 * t.requestedTime
               else TaskTimeslice(t)
  {
    hide Step, Inv;
    StepCores(s, Clone(child));
    OtherShares(s);
  }

  lemma OtherShares(s: Sched)
    requires Inv(s) && s.curr in s.tasks
    requires OverdueTask(s.tasks[s.curr]) || s.tasks[s.curr].timeSlice == 1
    ensures var t, p, c := s.tasks[s.curr], ForkedParent(s), NewChild(s);
            && c.timeSlice == t.timeSlice && c.firstTimeSlice
            && p.timeSlice ==
               if OverdueTask(t) then t.timeSlice
               else if t.onArr == Some(Expired(s)) || t.policy == Fifo then 1
               else if ShortTask(t) then 2 * t.requestedTime
               else TaskTimeslice(t)
  {
    hide TaskTimeslice, Refilled, Queued, NoFork;
    var t := s.tasks[s.curr];
    assert TaskOk(t, s.jiffies);
    var par := SplitSlice(t).0.(justGotForked := false, timeSlice := 1);
    SliceOfStatic(t, par);
    if !RtTask(t) {
      RefilledClass(par.(sleepAvg := TickedSleepAvg(par)));
      if t.policy == Other {
        SliceOfStatic(t, Refilled(par.(sleepAvg := TickedSleepAvg(par))));
      }
    }
  }

  lemma SliceOfStatic(t: Task, u: Task)
    requires t.staticPrio == u.staticPrio
    ensures TaskTimeslice(t) == TaskTimeslice(u)
  {
  }

  /** The slice of a task before and after any step that is not a fork by it, a reap by it, or a request
      for it: only a tick while it runs takes from it, one jiffy at a time and none from a FIFO task; and
      the tick that takes the last jiffy gives a new slice, by its class. */
  lemma SliceStep(s: Sched, e: Event, x: Id)
    requires Inv(s) && Enabled(s, e) && x in s.tasks && x in Step(s, e).tasks
    requires !(x == s.curr && (e.Clone? || e.Exit?)) && !(e.SetPolicy? && Target(s, e.request) == x)
    ensures var t, t' := s.tasks[x], Step(s, e).tasks[x];
            t'.timeSlice ==
              if !e.Tick? || x != s.curr || t.policy == Fifo || t.onArr == Some(Expired(s)) then t.timeSlice
              else if t.timeSlice > 1 then t.timeSlice - 1
              else if ShortTask(t) then 2 * t.requestedTime
              else TaskTimeslice(t')
  {
    hide Step, Inv, TickedTask, NicedTask, JudgedTask, TaskTimeslice, AfterReap;
    StepCores(s, e);
    if e.Tick? && x == s.curr {
      TickedSlice(s);
      SliceOfStatic(Step(s, e).tasks[x], TickedTask(s.tasks[x], s.tasks[x].onArr == Some(Expired(s))));
    }
    if e.Renice? {
      NicedSlice(s.tasks[x], e.nice);
    }
  }

  lemma NicedSlice(t: Task, nice: int)
    ensures NicedTask(t, nice).timeSlice == t.timeSlice
  {
  }

  lemma TickedSlice(s: Sched)
    requires Inv(s) && s.curr in s.tasks
    ensures var t := s.tasks[s.curr];
            var t' := TickedTask(t, t.onArr == Some(Expired(s)));
            t'.timeSlice ==
              if t.policy == Fifo || t.onArr == Some(Expired(s)) then t.timeSlice
              else if t.timeSlice > 1 then t.timeSlice - 1
              else if ShortTask(t) then 2 * t.requestedTime
              else TaskTimeslice(t')
  {
    hide TaskTimeslice, Refilled, Queued, NoFork;
    var t := s.tasks[s.curr];
    assert TaskOk(t, s.jiffies);
    var t1 := t.(sleepAvg := TickedSleepAvg(t));
    if !RtTask(t) {
      RefilledClass(t1);
    }
    SliceOfStatic(t, t.(timeSlice := TaskTimeslice(t), firstTimeSlice := false));
  }
}
