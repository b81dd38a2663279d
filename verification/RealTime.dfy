/** Real-time tasks: which of them runs, and what setscheduler makes of a task. */
module RealTime {
  import opened Params
  import opened Rows
  import opened SchedModel
  import opened SchedInvariant
  import opened SchedSteps
  import opened SchedFrames
  import opened PickOrder
  import opened Places

  predicate RealTimePolicy(t: Task) {
    t.policy == Fifo || t.policy == Rr
  }

  // ---------------------------------------------------------------- which priority counts

  /** Of two queued real-time tasks the one with the higher rt_priority comes first, and with the same
      one the one that stands first in their row. */
  lemma HigherRtFirst(s: Sched, a: Id, b: Id)
    requires Inv(s) && IsQueued(s, a) && IsQueued(s, b)
    requires RealTimePolicy(s.tasks[a]) && RealTimePolicy(s.tasks[b])
    ensures var t, u := s.tasks[a], s.tasks[b];
            Before(s, a, b) <==>
              t.rtPriority > u.rtPriority || (t.rtPriority == u.rtPriority && Ahead(Row(s, RtShort, t.prio), a, b))
  {
    hide Ahead;
    assert TaskOk(s.tasks[a], s.jiffies) && TaskOk(s.tasks[b], s.jiffies);
  }

  /** A real-time task comes before every task that is not. */
  lemma RtBeforeOthers(s: Sched, a: Id, b: Id)
    requires Inv(s) && IsQueued(s, a) && IsQueued(s, b)
    requires RealTimePolicy(s.tasks[a]) && !RealTimePolicy(s.tasks[b])
    ensures Before(s, a, b)
  {
    assert TaskOk(s.tasks[a], s.jiffies) && TaskOk(s.tasks[b], s.jiffies);
  }

  /** In every state that can be reached from boot. */
  lemma HigherRtFirstFromBoot(first: Id, jiffies: int, es: seq<Event>, a: Id, b: Id)
    requires 0 < first < PID_MAX && jiffies >= 1 && Possible(Boot(first, jiffies), es)
    requires var s := SchedModel.Run(Boot(first, jiffies), es);
             && IsQueued(s, a) && IsQueued(s, b) && RealTimePolicy(s.tasks[a]) && RealTimePolicy(s.tasks[b])
             && s.tasks[a].rtPriority > s.tasks[b].rtPriority
    ensures Before(SchedModel.Run(Boot(first, jiffies), es), a, b)
  {
    hide Boot, Step;
    BootKeeps(first, jiffies);
    RunKeeps(Boot(first, jiffies), es);
    HigherRtFirst(SchedModel.Run(Boot(first, jiffies), es), a, b);
  }

  /** schedule never passes over a real-time task for one that is not, nor for one of lower rt_priority. */
  lemma HighestRtRuns(s: Sched, signal: bool, y: Id)
    requires Inv(s) && IsQueued(PutPrev(s, signal), y) && RealTimePolicy(PutPrev(s, signal).tasks[y])
    ensures var s1, next := PutPrev(s, signal), Schedule(s, signal).curr;
            next in s1.tasks && RealTimePolicy(s1.tasks[next]) && s1.tasks[next].rtPriority >= s1.tasks[y].rtPriority
  {
    hide PutPrev, Schedule, Ahead, Queued;
    ScheduleIsFirst(s, signal);
    var s1, next := PutPrev(s, signal), Schedule(s, signal).curr;
    assert TaskOk(s1.tasks[y], s1.jiffies);
    if next != y {
      assert Before(s1, next, y);
      assert TaskOk(s1.tasks[next], s1.jiffies);
    }
  }

  // ---------------------------------------------------------------- setscheduler

  /** The policy a request names, where it names one of the three standard ones. */
  function NamedPolicy(code: int): Policy {
    if code == 1 then Fifo else if code == 2 then Rr else Other
  }

  /** An accepted request makes the task what it asks for: with sched_setscheduler the named policy, with
      sched_setparam (a negative code) the policy it had, and in both cases the requested rt_priority.  An
      OTHER task starts over from its static priority, and a queued one is credited first. */
  lemma ClassAsRequested(s: Sched, r: Request)
    requires Inv(s) && Enabled(s, SetPolicy(r)) && r.policyCode <= 2
    requires SetScheduler(s, r).1 == 0 && s.tasks[Target(s, r)].policy != Short
    ensures var p := Target(s, r);
            var s' := Step(s, SetPolicy(r));
            && p in s.tasks && p in s'.tasks && p == (if r.pid == 0 then s.curr else r.pid)
            && s'.tasks[p].policy == (if r.policyCode < 0 then s.tasks[p].policy else NamedPolicy(r.policyCode))
            && s'.tasks[p].rtPriority == r.schedPriority
            && (RealTimePolicy(s'.tasks[p]) ==> s'.tasks[p].prio == 99 - r.schedPriority)
            && (s'.tasks[p].policy == Other ==>
                  s'.tasks[p].prio == if s.tasks[p].onArr.Some? && s.tasks[p].sleepTimestamp != s.jiffies
                                      then EffectivePrio(s'.tasks[p]) else s.tasks[p].staticPrio)
  {
    hide Judge, Requeue, Queued, NoFork, EffectivePrio;
    var p := Target(s, r);
    var s' := Step(s, SetPolicy(r));
    JudgeClass(s.tasks[p], r);
    JudgeKinds(s.tasks[p], r);
    NobodyForked(s, p);
    assert TaskOk(s.tasks[p], s.jiffies);
    RequeuedClass(s, p, Judge(s.tasks[p], r).classed);
    StepKeeps(s, SetPolicy(r));
    assert TaskOk(s'.tasks[p], s'.jiffies);
  }

  lemma JudgeClass(t: Task, r: Request)
    requires r.policyCode <= 2 && t.policy != Short
    ensures var j := Judge(t, r);
            && (j.Refuse? || j.Reclass?) && (j.Refuse? ==> j.errno != 0)
            && (j.Reclass? ==>
                  && j.classed.policy == (if r.policyCode < 0 then t.policy else NamedPolicy(r.policyCode))
                  && j.classed.rtPriority == r.schedPriority
                  && (j.classed.policy == Other ==> j.classed.prio == t.staticPrio)
                  && j.classed.sleepTimestamp == t.sleepTimestamp && j.classed.sleepAvg == t.sleepAvg)
  {
  }

  lemma RequeuedClass(s: Sched, p: Id, t: Task)
    requires Inv(s) && p in s.tasks && !t.justGotForked && t.onArr == s.tasks[p].onArr && t.sleepAvg <= MAX_SLEEP_AVG
    ensures var s' := Requeue(s, p, t);
            && p in s'.tasks && s'.tasks[p].policy == t.policy && s'.tasks[p].rtPriority == t.rtPriority
            && (!RtTask(t) ==>
                  s'.tasks[p].prio == if t.onArr.Some? && t.sleepTimestamp != s.jiffies then EffectivePrio(s'.tasks[p])
                                      else t.prio)
  {
    hide Requeue, WithSleepBonus, Home, MovedToTail, SameRows, Inv, EffectivePrio;
    RequeuedRows(s, p, t);
    var t1 := t.(onArr := None);
    BonusClass(t1, s.jiffies);
    BonusIs(t1, s.jiffies);
    EffectiveIgnoresPlace(WithSleepBonus(t1, s.jiffies), Home(t, s.active));
  }

  lemma BonusClass(t: Task, jiffies: int)
    ensures var t' := WithSleepBonus(t, jiffies); t'.policy == t.policy && t'.rtPriority == t.rtPriority
  {
  }

  /** No argument or a negative pid is EINVAL, an argument that cannot be read EFAULT, a pid nobody has
      ESRCH, in this order and before anything is asked of the task; and nothing changes. */
  lemma BadCalls(s: Sched, r: Request)
    requires s.curr in s.tasks
    ensures var (s', value) := SetScheduler(s, r);
            var someone := (if r.pid == 0 then s.curr else r.pid) in s.tasks.Keys;
            && (!r.paramOk || r.pid < 0 ==> value == -EINVAL)
            && (value == -EFAULT <==> r.paramOk && r.pid >= 0 && !r.copyOk)
            && (value == -ESRCH <==> r.paramOk && r.pid >= 0 && r.copyOk && !someone)
            && (value != 0 ==> s' == s)
  {
    hide Requeue, Judge, ReschedCurr;
    if Target(s, r) in s.tasks {
      JudgeErrors(s.tasks[Target(s, r)], r);
    }
  }

  lemma JudgeErrors(t: Task, r: Request)
    ensures Judge(t, r).Refuse? ==> Judge(t, r).errno == EINVAL || Judge(t, r).errno == EPERM
  {
    hide MsToJiffies, ShortChangeAccepted;
  }

  /** For a task that is not SHORT: a priority that does not fit the policy is EINVAL; a real-time policy
      takes the capability, and OTHER takes it for a task of another user: else EPERM; else accepted.  A
      request that is not accepted changes nothing. */
  lemma ClassAdmission(s: Sched, r: Request)
    requires s.curr in s.tasks && Reaches(s, r, Target(s, r)) && r.policyCode <= 2
    requires s.tasks[Target(s, r)].policy != Short
    ensures var t := s.tasks[Target(s, r)];
            var rt := if r.policyCode < 0 then RealTimePolicy(t) else r.policyCode > 0;
            var fits := if rt then 1 <= r.schedPriority <= 99 else r.schedPriority == 0;
            var may := r.capSysNice || (!rt && (r.euidMatches || r.euidMatchesUid));
            SetScheduler(s, r).1 == if !fits then -EINVAL else if !may then -EPERM else 0
    ensures SetScheduler(s, r).1 != 0 ==> SetScheduler(s, r).0 == s
  {
    hide Requeue;
  }
}
