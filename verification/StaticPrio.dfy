/** The static priority survives the trip OTHER, SHORT, overdue, OTHER. */
module StaticPrio {
  import opened Params
  import opened Rows
  import opened SchedModel
  import opened SchedInvariant
  import opened SchedSteps
  import opened SchedFrames

  /** The static priority a task really has: an overdue task keeps it aside. */
  function RealStatic(t: Task): int {
    if OverdueTask(t) then t.overdueStaticPrio else t.staticPrio
  }

  /** A nice value counts if it is in range; an overdue task drops the value 19, because its
      visible static priority already is 139. */
  predicate NiceCounts(t: Task, nice: int) {
    -20 <= nice <= 19 && !(OverdueTask(t) && nice == 19)
  }

  /** The real static priority a run should leave: the last nice value that counted. */
  ghost function Expected(s: Sched, es: seq<Event>, p: Id, v: int): int
    requires Possible(s, es)
    decreases |es|
  {
    if es == [] then v
    else
      var e := es[0];
      var v1 := if e.Renice? && e.target == p && NiceCounts(s.tasks[p], e.nice) then NiceToPrio(e.nice) else v;
      Expected(Step(s, e), es[1..], p, v1)
  }

  ghost predicate NeverReaped(es: seq<Event>, p: Id) {
    forall i :: 0 <= i < |es| ==> es[i] != Exit(p)
  }

  lemma RealOfCore(t: Task, t': Task)
    requires CoreOf(t) == CoreOf(t')
    ensures RealStatic(t) == RealStatic(t')
  {
  }

  lemma TickedReal(t: Task, jiffies: int, expired: bool)
    requires TaskOk(t, jiffies)
    ensures RealStatic(TickedTask(t, expired)) == RealStatic(t)
  {
  }

  /** The parent keeps its real static priority in a fork, and the child starts with the same,
      whether the parent is OTHER, SHORT, overdue, or becomes overdue in this very fork. */
  lemma ForkedReal(s: Sched)
    requires Inv(s) && s.curr in s.tasks
    ensures RealStatic(ForkedParent(s)) == RealStatic(s.tasks[s.curr])
    ensures RealStatic(NewChild(s)) == RealStatic(s.tasks[s.curr])
  {
    var t := s.tasks[s.curr];
    assert TaskOk(t, s.jiffies);
    if t.timeSlice == 1 && !OverdueTask(t) {
      TickedReal(SplitSlice(t).0.(justGotForked := false, timeSlice := 1), s.jiffies, t.onArr == Some(Expired(s)));
    }
    hide TickedTask;
  }

  lemma NicedReal(t: Task, nice: int, jiffies: int)
    requires TaskOk(t, jiffies)
    ensures RealStatic(NicedTask(t, nice)) == if NiceCounts(t, nice) then NiceToPrio(nice) else RealStatic(t)
  {
  }

  lemma JudgedReal(t: Task, r: Request)
    ensures RealStatic(JudgedTask(t, r)) == RealStatic(t) || (t.iAmOverdue && t.policy != Short)
  {
  }

  lemma ReapedReal(t: Task, c: Task)
    ensures RealStatic(AfterReap(t, c)) == RealStatic(t)
  {
  }

  lemma TripStep(s: Sched, e: Event, p: Id)
    requires Inv(s) && Enabled(s, e) && p in s.tasks && e != Exit(p)
    ensures p in Step(s, e).tasks
    ensures RealStatic(Step(s, e).tasks[p]) ==
            if e.Renice? && e.target == p && NiceCounts(s.tasks[p], e.nice) then NiceToPrio(e.nice)
            else RealStatic(s.tasks[p])
  {
    hide Step, TickedTask, JudgedTask, NicedTask, ForkedParent, AfterReap, RealStatic, NiceCounts;
    StepCores(s, e);
    var t := s.tasks[p];
    assert TaskOk(t, s.jiffies);
    assert p in NextKeys(s, e);
    RealOfCore(NextRecord(s, e, p), Step(s, e).tasks[p]);
    match e
    case Tick => TickedReal(t, s.jiffies, t.onArr == Some(Expired(s)));
    case Clone(_) => ForkedReal(s);
    case Exit(c) =>
      ReapedReal(t, s.tasks[c]);
      RealIgnoresParent(t);
      RealIgnoresParent(AfterReap(t, s.tasks[c]));
    case Renice(_, nice) => NicedReal(t, nice, s.jiffies);
    case SetPolicy(r) => JudgedReal(t, r);
    case _ =>
  }

  lemma RealIgnoresParent(t: Task)
    ensures RealStatic(t.(parent := IDLE)) == RealStatic(t)
  {
  }

  /** Over any run the real static priority is the one it started with or the last nice value that
      counted, whatever the task went through in between. */
  lemma {:induction false} StaticPrioTrip(s: Sched, es: seq<Event>, p: Id)
    requires Inv(s) && Possible(s, es) && NeverReaped(es, p) && p in s.tasks
    ensures p in Run(s, es).tasks
    ensures RealStatic(Run(s, es).tasks[p]) == Expected(s, es, p, RealStatic(s.tasks[p]))
    decreases |es|
  {
    hide Step, RealStatic, NiceCounts;
    if es != [] {
      assert es[0] != Exit(p);
      TripStep(s, es[0], p);
      StepKeeps(s, es[0]);
      forall i | 0 <= i < |es[1..]|
        ensures es[1..][i] != Exit(p)
      {
        assert es[1..][i] == es[i + 1];
      }
      StaticPrioTrip(Step(s, es[0]), es[1..], p);
    }
  }

  /** A run without renicing of `p` brings a task that ends up OTHER back to the very static
      priority it had as OTHER. */
  lemma BackToOther(s: Sched, es: seq<Event>, p: Id)
    requires Inv(s) && Possible(s, es) && NeverReaped(es, p) && p in s.tasks
    requires forall i :: 0 <= i < |es| ==> !(es[i].Renice? && es[i].target == p)
    requires s.tasks[p].policy == Other
    ensures p in Run(s, es).tasks
    ensures Run(s, es).tasks[p].policy == Other ==> Run(s, es).tasks[p].staticPrio == s.tasks[p].staticPrio
  {
    hide Step;
    StaticPrioTrip(s, es, p);
    ExpectedSame(s, es, p, RealStatic(s.tasks[p]));
    RunKeeps(s, es);
  }

  lemma {:induction false} ExpectedSame(s: Sched, es: seq<Event>, p: Id, v: int)
    requires Possible(s, es)
    requires forall i :: 0 <= i < |es| ==> !(es[i].Renice? && es[i].target == p)
    ensures Expected(s, es, p, v) == v
    decreases |es|
  {
    hide Step;
    if es != [] {
      assert !(es[0].Renice? && es[0].target == p);
      forall i | 0 <= i < |es[1..]|
        ensures !(es[1..][i].Renice? && es[1..][i].target == p)
      {
        assert es[1..][i] == es[i + 1];
      }
      ExpectedSame(Step(s, es[0]), es[1..], p, v);
    }
  }

  /** A child starts with the real static priority of its parent. */
  lemma ChildInheritsStatic(s: Sched, child: Id)
    requires Inv(s) && Enabled(s, Clone(child))
    ensures RealStatic(Step(s, Clone(child)).tasks[child]) == RealStatic(s.tasks[s.curr])
  {
    hide Step, NewChild, RealStatic;
    StepCores(s, Clone(child));
    RealOfCore(NewChild(s), Step(s, Clone(child)).tasks[child]);
    ForkedReal(s);
  }
}
