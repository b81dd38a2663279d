/** The SHORT time of a family of tasks: an exact account of it over whole runs, where it can grow,
    and that forking never makes it grow. */
module Budget {
  import opened Params
  import opened Rows
  import opened SchedModel
  import opened SchedInvariant
  import opened SchedSteps
  import opened SchedFrames

  /** The SHORT jiffies a task holds. */
  function Weight(t: Task): int {
    if ShortTask(t) then t.timeSlice else 0
  }

  /** The SHORT jiffies held by the live tasks of a family. */
  ghost function Held(s: Sched, family: set<Id>): int {
    Sum(WeightIn(s, family), PID_MAX)
  }

  ghost function WeightIn(s: Sched, family: set<Id>): Id -> int {
    x => if x in family && x in s.tasks then Weight(s.tasks[x]) else 0
  }

  /** The family after a step: children of members join, reaped members leave. */
  function NextFamily(s: Sched, e: Event, family: set<Id>): set<Id> {
    match e
    case Clone(c) => if s.curr in family then family + {c} else family - {c}
    case Exit(c) => family - {c}
    case _ => family
  }

  /** The timer tick charges one SHORT jiffy to a member of the family.  The tick that do_fork
      forces is no timer tick. */
  ghost function Charge(s: Sched, e: Event, family: set<Id>): nat {
    if e.Tick? && s.curr in family && s.curr in s.tasks && ShortTask(s.tasks[s.curr]) then 1 else 0
  }

  // ---------------------------------------------------------------- where SHORT time can come from

  /** A SHORT task gains from reaping `c` beyond what `c` held as SHORT: `c` still has its first slice
      and is not SHORT, and the cap leaves room.  sched_exit does not ask for the class of `c`. */
  predicate Mints(t: Task, c: Task) {
    ShortTask(t) && c.firstTimeSlice && !ShortTask(c) && t.timeSlice < MAX_TIMESLICE
  }

  /** setscheduler gives `t` SHORT jiffies: a new request, or a longer one. */
  predicate Grants(t: Task, r: Request) {
    match Judge(t, r)
    case MakeShort(_) => true
    case ChangeShort(_) => ShortTask(t) && MsToJiffies(r.requestedMs) > t.requestedTime
    case _ => false
  }

  /** The step creates SHORT jiffies for the family.  Everything in this test is known before it. */
  ghost predicate Creates(s: Sched, e: Event, family: set<Id>)
    requires Enabled(s, e)
  {
    match e
    case Exit(c) =>
      var t, dead := s.tasks[s.curr], s.tasks[c];
      s.curr in family &&
      if c in family then Mints(t, dead) else ShortTask(t) && dead.firstTimeSlice && t.timeSlice < MAX_TIMESLICE
    case SetPolicy(r) =>
      var p := Target(s, r);
      p in family && Reaches(s, r, p) && Grants(s.tasks[p], r)
    case _ => false
  }

  /** By how much a reap or a setscheduler call changes what the family holds. */
  ghost function Delta(s: Sched, e: Event, family: set<Id>): int
    requires Enabled(s, e)
  {
    match e
    case Exit(c) =>
      var t, dead := s.tasks[s.curr], s.tasks[c];
      (if s.curr in family then Weight(AfterReap(t, dead)) - Weight(t) else 0) - if c in family then Weight(dead) else 0
    case SetPolicy(r) =>
      var p := Target(s, r);
      if p in family && Reaches(s, r, p) then Weight(JudgedTask(s.tasks[p], r)) - Weight(s.tasks[p]) else 0
    case _ => 0
  }

  // ---------------------------------------------------------------- records

  lemma TickedWeight(t: Task, jiffies: int, expired: bool)
    requires TaskOk(t, jiffies) && (expired ==> t.policy == Other)
    ensures Weight(TickedTask(t, expired)) == Weight(t) - if ShortTask(t) then 1 else 0
    ensures TickedTask(t, expired).parent == t.parent
    ensures TickedTask(t, expired).firstTimeSlice ==> t.firstTimeSlice
    ensures TickedTask(t, expired).firstTimeSlice ==> (ShortTask(TickedTask(t, expired)) <==> ShortTask(t))
    ensures ShortTask(TickedTask(t, expired)) ==> ShortTask(t)
  {
  }

  /** The two halves of a split slice hold together what the parent held. */
  lemma ForkWeights(s: Sched)
    requires Inv(s) && s.curr in s.tasks
    ensures Weight(ForkedParent(s)) + Weight(NewChild(s)) == Weight(s.tasks[s.curr])
    ensures ShortTask(NewChild(s)) <==> ShortTask(s.tasks[s.curr])
    ensures ShortTask(ForkedParent(s)) ==> ShortTask(s.tasks[s.curr])
    ensures ForkedParent(s).parent == s.tasks[s.curr].parent && NewChild(s).parent == s.curr
    ensures ForkedParent(s).firstTimeSlice ==> s.tasks[s.curr].firstTimeSlice
    ensures ForkedParent(s).firstTimeSlice ==> (ShortTask(ForkedParent(s)) <==> ShortTask(s.tasks[s.curr]))
  {
    hide TickedTask, Queued, NoFork;
    var t := s.tasks[s.curr];
    assert TaskOk(t, s.jiffies);
    var par := SplitSlice(t).0.(justGotForked := false, timeSlice := 1);
    if t.timeSlice == 1 && !OverdueTask(t) {
      TickedWeight(par, s.jiffies, t.onArr == Some(Expired(s)));
    }
    assert t.timeSlice / 2 + t.timeSlice % 2 + t.timeSlice / 2 == t.timeSlice;
  }

  /** The exact gain of a reap.  Only a child in its first slice that is not SHORT makes SHORT jiffies. */
  lemma ReapMints(t: Task, c: Task, jiffies: int)
    requires TaskOk(t, jiffies) && TaskOk(c, jiffies)
    ensures Weight(AfterReap(t, c)) > Weight(t) + Weight(c) <==> Mints(t, c)
    ensures Weight(AfterReap(t, c)) > Weight(t) <==> ShortTask(t) && c.firstTimeSlice && t.timeSlice < MAX_TIMESLICE
    ensures ShortTask(AfterReap(t, c)) <==> ShortTask(t)
    ensures AfterReap(t, c).parent == t.parent && AfterReap(t, c).firstTimeSlice == t.firstTimeSlice
  {
  }

  lemma NicedWeight(t: Task, nice: int)
    ensures var t' := NicedTask(t, nice);
            && Weight(t') == Weight(t) && t'.parent == t.parent && t'.firstTimeSlice == t.firstTimeSlice
            && (ShortTask(t') <==> ShortTask(t))
  {
  }

  /** The exact gain of a setscheduler call. */
  lemma JudgedWeight(t: Task, r: Request, jiffies: int)
    requires TaskOk(t, jiffies) && (Judge(t, r).ChangeShort? ==> r.requestedMs >= 0)
    ensures var t' := JudgedTask(t, r);
            && t'.parent == t.parent && t'.firstTimeSlice == t.firstTimeSlice
            && (Weight(t') > Weight(t) <==> Grants(t, r))
            && ((ShortTask(t') <==> ShortTask(t)) <==> !Judge(t, r).MakeShort?)
            && (Judge(t, r).MakeShort? ==> Weight(t') == MsToJiffies(r.requestedMs) && Weight(t) == 0 && !ShortTask(t))
  {
    hide MsToJiffies, ShortChangeAccepted;
    if Judge(t, r).ChangeShort? {
      ShortChangeOk(t, r.requestedMs, jiffies);
    }
  }

  // ---------------------------------------------------------------- steps

  /** The step leaves weight, parent and first-slice flag of `x` alone. */
  ghost predicate Unmoved(t: Task, t': Task) {
    && Weight(t') == Weight(t) && t'.parent == t.parent && t'.firstTimeSlice == t.firstTimeSlice
    && (ShortTask(t') <==> ShortTask(t))
  }

  lemma UnmovedCore(t: Task, t': Task, t'': Task)
    requires Unmoved(t, t') && CoreOf(t') == CoreOf(t'')
    ensures Unmoved(t, t'')
  {
  }

  /** Same cores, same weights: the state after a step in terms of the records of `NextRecord`. */
  lemma WeightOfCore(t: Task, t': Task)
    requires CoreOf(t) == CoreOf(t')
    ensures Weight(t) == Weight(t') && (ShortTask(t) <==> ShortTask(t'))
    ensures t.parent == t'.parent && t.firstTimeSlice == t'.firstTimeSlice
  {
  }

  /** A task gets no younger: SHORT is not regained, the first slice is not regained, and a task
      still in its first slice is SHORT exactly if it was. */
  ghost predicate Aged(t: Task, t': Task) {
    && t'.parent == t.parent
    && (t'.firstTimeSlice ==> t.firstTimeSlice)
    && (ShortTask(t') ==> ShortTask(t))
    && (t'.firstTimeSlice ==> (ShortTask(t') <==> ShortTask(t)))
  }

  /** Steps other than ticks, forks, reaps and setscheduler move no budget. */
  lemma QuietStep(s: Sched, e: Event)
    requires Enabled(s, e) && !e.Tick? && !e.Clone? && !e.Exit? && !e.SetPolicy?
    ensures Step(s, e).tasks.Keys == s.tasks.Keys
    ensures forall x :: x in s.tasks ==> Unmoved(s.tasks[x], Step(s, e).tasks[x])
  {
    hide Step, NicedTask, CoreOf;
    StepCores(s, e);
    forall x | x in s.tasks
      ensures Unmoved(s.tasks[x], Step(s, e).tasks[x])
    {
      var t1 := NextRecord(s, e, x);
      if e.Renice? {
        NicedWeight(s.tasks[x], e.nice);
      }
      assert Unmoved(s.tasks[x], t1);
      UnmovedCore(s.tasks[x], t1, Step(s, e).tasks[x]);
    }
  }

  lemma QuietBudget(s: Sched, e: Event, family: set<Id>)
    requires Enabled(s, e) && !e.Tick? && !e.Clone? && !e.Exit? && !e.SetPolicy?
    ensures Held(Step(s, e), family) == Held(s, family)
  {
    hide Step, ShortTask;
    QuietStep(s, e);
    SumSame(WeightIn(s, family), WeightIn(Step(s, e), family), PID_MAX);
  }

  /** What setscheduler does: the target's record is judged, and no other moves. */
  ghost predicate Judged(s: Sched, s': Sched, r: Request) {
    && s'.tasks.Keys == s.tasks.Keys
    && forall x :: x in s.tasks ==>
         if Reaches(s, r, x) then
           var t := JudgedTask(s.tasks[x], r);
           && Weight(s'.tasks[x]) == Weight(t) && (ShortTask(s'.tasks[x]) <==> ShortTask(t))
           && s'.tasks[x].parent == t.parent && s'.tasks[x].firstTimeSlice == t.firstTimeSlice
         else Unmoved(s.tasks[x], s'.tasks[x])
  }

  lemma PolicyMoves(s: Sched, r: Request)
    requires Enabled(s, SetPolicy(r))
    ensures Judged(s, Step(s, SetPolicy(r)), r)
  {
    hide Step, JudgedTask, CoreOf, Reaches;
    var s' := Step(s, SetPolicy(r));
    StepCores(s, SetPolicy(r));
    forall x | x in s.tasks
      ensures CoreOf(s'.tasks[x]) == CoreOf(NextRecord(s, SetPolicy(r), x))
      ensures Weight(s'.tasks[x]) == Weight(NextRecord(s, SetPolicy(r), x))
      ensures ShortTask(s'.tasks[x]) <==> ShortTask(NextRecord(s, SetPolicy(r), x))
      ensures s'.tasks[x].parent == NextRecord(s, SetPolicy(r), x).parent
      ensures s'.tasks[x].firstTimeSlice == NextRecord(s, SetPolicy(r), x).firstTimeSlice
    {
      WeightOfCore(NextRecord(s, SetPolicy(r), x), s'.tasks[x]);
    }
  }

  lemma PolicyBudget(s: Sched, r: Request, family: set<Id>)
    requires Inv(s) && Enabled(s, SetPolicy(r))
    ensures Held(Step(s, SetPolicy(r)), family) == Held(s, family) + Delta(s, SetPolicy(r), family)
    ensures Delta(s, SetPolicy(r), family) > 0 <==> Creates(s, SetPolicy(r), family)
  {
    hide Step, ShortTask, Weight, JudgedTask, Grants, Sum;
    var s' := Step(s, SetPolicy(r));
    var p := Target(s, r);
    PolicyMoves(s, r);
    if Reaches(s, r, p) {
      assert TaskOk(s.tasks[p], s.jiffies);
      JudgedWeight(s.tasks[p], r, s.jiffies);
      SumUpdate(WeightIn(s, family), WeightIn(s', family), PID_MAX, p);
    } else {
      SumSame(WeightIn(s, family), WeightIn(s', family), PID_MAX);
    }
  }

  lemma TickMoves(s: Sched)
    requires Inv(s)
    ensures var s' := Step(s, Tick);
            && s'.tasks.Keys == s.tasks.Keys
            && (forall x :: x in s.tasks ==> Aged(s.tasks[x], s'.tasks[x]))
            && (forall x :: x in s.tasks ==>
                  Weight(s'.tasks[x]) == Weight(s.tasks[x]) - if x == s.curr && ShortTask(s.tasks[x]) then 1 else 0)
  {
    hide Step, TickedTask, CoreOf;
    var s' := Step(s, Tick);
    StepCores(s, Tick);
    forall x | x in s.tasks
      ensures Aged(s.tasks[x], s'.tasks[x])
      ensures Weight(s'.tasks[x]) == Weight(s.tasks[x]) - if x == s.curr && ShortTask(s.tasks[x]) then 1 else 0
    {
      var t := s.tasks[x];
      assert TaskOk(t, s.jiffies);
      WeightOfCore(NextRecord(s, Tick, x), s'.tasks[x]);
      if x == s.curr {
        TickedWeight(t, s.jiffies, t.onArr == Some(Expired(s)));
      }
    }
  }

  /** A tick takes from the family exactly what it charges. */
  lemma TickBudget(s: Sched, family: set<Id>)
    requires Inv(s)
    ensures Held(Step(s, Tick), family) + Charge(s, Tick, family) == Held(s, family)
  {
    hide Step, ShortTask, Weight, Aged;
    var s' := Step(s, Tick);
    TickMoves(s);
    if s.curr in s.tasks {
      SumUpdate(WeightIn(s, family), WeightIn(s', family), PID_MAX, s.curr);
    } else {
      SumSame(WeightIn(s, family), WeightIn(s', family), PID_MAX);
    }
  }

  /** What a fork does: the parent ages, the child takes its share. */
  ghost predicate Forked(s: Sched, s': Sched, child: Id) {
    && s.curr in s.tasks && child !in s.tasks && 0 < child < PID_MAX
    && s'.tasks.Keys == s.tasks.Keys + {child}
    && (forall x :: x in s.tasks ==> Aged(s.tasks[x], s'.tasks[x]))
    && (forall x :: x in s.tasks && x != s.curr ==> Weight(s'.tasks[x]) == Weight(s.tasks[x]))
    && Weight(s'.tasks[s.curr]) + Weight(s'.tasks[child]) == Weight(s.tasks[s.curr])
    && s'.tasks[child].parent == s.curr
    && (ShortTask(s'.tasks[child]) <==> ShortTask(s.tasks[s.curr]))
  }

  lemma ForkMoves(s: Sched, child: Id)
    requires Inv(s) && Enabled(s, Clone(child))
    ensures Forked(s, Step(s, Clone(child)), child)
  {
    hide Step, ForkedParent, NewChild, CoreOf;
    var s' := Step(s, Clone(child));
    StepCores(s, Clone(child));
    ForkWeights(s);
    forall x | x in s.tasks
      ensures Aged(s.tasks[x], s'.tasks[x])
      ensures x != s.curr ==> Weight(s'.tasks[x]) == Weight(s.tasks[x])
    {
      WeightOfCore(NextRecord(s, Clone(child), x), s'.tasks[x]);
    }
    WeightOfCore(ForkedParent(s), s'.tasks[s.curr]);
    WeightOfCore(NewChild(s), s'.tasks[child]);
  }

  lemma ForkedHeld(s: Sched, s': Sched, child: Id, family: set<Id>)
    requires Forked(s, s', child) && s.curr < PID_MAX
    ensures Held(s', if s.curr in family then family + {child} else family - {child}) == Held(s, family)
  {
    hide ShortTask, Weight, Aged, Sum;
    var f := WeightIn(s, family);
    var g := WeightIn(s', if s.curr in family then family + {child} else family - {child});
    var h := (x: Id) => if x == child then g(x) else f(x);
    SumUpdate(f, h, PID_MAX, child);
    SumUpdate(h, g, PID_MAX, s.curr);
  }

  /** A fork neither adds nor takes a SHORT jiffy, whatever it does to the parent. */
  lemma ForkBudget(s: Sched, child: Id, family: set<Id>)
    requires Inv(s) && Enabled(s, Clone(child))
    ensures Held(Step(s, Clone(child)), NextFamily(s, Clone(child), family)) == Held(s, family)
  {
    hide Step, Held, Forked;
    ForkMoves(s, child);
    ForkedHeld(s, Step(s, Clone(child)), child, family);
  }

  /** What a reap does: the reaper's record is that of sched_exit, and orphans forget their parent. */
  ghost predicate Reaped(s: Sched, s': Sched, child: Id) {
    && s.curr in s.tasks && child in s.tasks && child != s.curr
    && s'.tasks.Keys == s.tasks.Keys - {child}
    && (forall x :: x in s'.tasks ==>
          && (ShortTask(s'.tasks[x]) <==> ShortTask(s.tasks[x]))
          && s'.tasks[x].firstTimeSlice == s.tasks[x].firstTimeSlice
          && s'.tasks[x].parent == if s.tasks[x].parent == child then IDLE else s.tasks[x].parent)
    && (forall x :: x in s'.tasks && x != s.curr ==> Weight(s'.tasks[x]) == Weight(s.tasks[x]))
    && Weight(s'.tasks[s.curr]) == Weight(AfterReap(s.tasks[s.curr], s.tasks[child]))
  }

  lemma ReapMoves(s: Sched, child: Id)
    requires Inv(s) && Enabled(s, Exit(child))
    ensures Reaped(s, Step(s, Exit(child)), child)
  {
    hide Step, CoreOf, AfterReap, Queued, NoFork, Mints;
    StepCores(s, Exit(child));
    var s' := Step(s, Exit(child));
    var t, c := s.tasks[s.curr], s.tasks[child];
    ReapMints(t, c, s.jiffies);
    forall x | x in s'.tasks
      ensures && (ShortTask(s'.tasks[x]) <==> ShortTask(s.tasks[x]))
              && s'.tasks[x].firstTimeSlice == s.tasks[x].firstTimeSlice
              && s'.tasks[x].parent == if s.tasks[x].parent == child then IDLE else s.tasks[x].parent
      ensures Weight(s'.tasks[x]) == Weight(if x == s.curr then AfterReap(t, c) else s.tasks[x])
    {
      WeightOfCore(NextRecord(s, Exit(child), x), s'.tasks[x]);
    }
  }

  lemma ReapedHeld(s: Sched, s': Sched, child: Id, family: set<Id>)
    requires Enabled(s, Exit(child)) && Reaped(s, s', child) && s.curr < PID_MAX && child < PID_MAX
    ensures Held(s', family - {child}) == Held(s, family) + Delta(s, Exit(child), family)
  {
    hide ShortTask, Weight, AfterReap, Sum;
    var f := WeightIn(s, family);
    var g := WeightIn(s', family - {child});
    var h := (x: Id) => if x == child then g(x) else f(x);
    SumUpdate(f, h, PID_MAX, child);
    SumUpdate(h, g, PID_MAX, s.curr);
  }

  /** A reap changes what the family holds by exactly Delta, and makes it grow exactly if Creates says
      so, whoever forked the child and whatever became of either since. */
  lemma ReapBudget(s: Sched, child: Id, family: set<Id>)
    requires Inv(s) && Enabled(s, Exit(child))
    ensures Held(Step(s, Exit(child)), NextFamily(s, Exit(child), family)) == Held(s, family) + Delta(s, Exit(child), family)
    ensures Delta(s, Exit(child), family) > 0 <==> Creates(s, Exit(child), family)
  {
    hide Step, Held, Reaped, AfterReap, Queued, NoFork;
    assert TaskOk(s.tasks[child], s.jiffies) && TaskOk(s.tasks[s.curr], s.jiffies);
    ReapMints(s.tasks[s.curr], s.tasks[child], s.jiffies);
    ReapMoves(s, child);
    ReapedHeld(s, Step(s, Exit(child)), child, family);
  }

  lemma WeightsPositive(s: Sched, family: set<Id>)
    requires Inv(s)
    ensures forall x: Id :: WeightIn(s, family)(x) >= 0
  {
    forall x: Id
      ensures WeightIn(s, family)(x) >= 0
    {
      assert x in s.tasks ==> TaskOk(s.tasks[x], s.jiffies);
    }
  }

  /** The account of one step, for every step and every family: what the family holds and what it is
      charged change by exactly Delta; and together they grow exactly if the step creates SHORT time,
      which no tick, fork, schedule, wake-up, yield or nice does. */
  lemma BudgetStep(s: Sched, e: Event, family: set<Id>)
    requires Inv(s) && Enabled(s, e)
    ensures Held(Step(s, e), NextFamily(s, e, family)) + Charge(s, e, family) == Held(s, family) + Delta(s, e, family)
    ensures Delta(s, e, family) > 0 <==> Creates(s, e, family)
  {
    hide Step, Held, Inv;
    match e
    case Tick => TickBudget(s, family);
    case Clone(c) => ForkBudget(s, c, family);
    case Exit(c) =>
      ReapBudget(s, c, family);
      hide Delta, Creates;
    case SetPolicy(r) =>
      PolicyBudget(s, r, family);
      hide Delta, Creates;
    case _ => QuietBudget(s, e, family);
  }

  // ---------------------------------------------------------------- runs

  ghost function Family(s: Sched, es: seq<Event>, family: set<Id>): set<Id>
    requires Possible(s, es)
    decreases |es|
  {
    if es == [] then family else Family(Step(s, es[0]), es[1..], NextFamily(s, es[0], family))
  }

  /** The SHORT jiffies charged to the family by the timer ticks of a run. */
  ghost function Charges(s: Sched, es: seq<Event>, family: set<Id>): nat
    requires Possible(s, es)
    decreases |es|
  {
    if es == [] then 0
    else Charge(s, es[0], family) + Charges(Step(s, es[0]), es[1..], NextFamily(s, es[0], family))
  }

  /** What reaps and setscheduler calls add to what the family holds over a run. */
  ghost function Deltas(s: Sched, es: seq<Event>, family: set<Id>): int
    requires Possible(s, es)
    decreases |es|
  {
    if es == [] then 0
    else Delta(s, es[0], family) + Deltas(Step(s, es[0]), es[1..], NextFamily(s, es[0], family))
  }

  /** The account of every run, without exception: what the family holds at the end and all ticks
      charged to it are what it held at the start plus what reaps and setscheduler calls added. */
  lemma {:induction false} BudgetRun(s: Sched, es: seq<Event>, family: set<Id>)
    requires Inv(s) && Possible(s, es)
    ensures Held(Run(s, es), Family(s, es, family)) + Charges(s, es, family) == Held(s, family) + Deltas(s, es, family)
    decreases |es|
  {
    hide Step, Held, NextFamily, Charge, Delta, Inv, Creates;
    if es != [] {
      BudgetStep(s, es[0], family);
      StepKeeps(s, es[0]);
      BudgetRun(Step(s, es[0]), es[1..], NextFamily(s, es[0], family));
    }
  }

  /** No step of the run creates SHORT time for the family. */
  ghost predicate NeverCreates(s: Sched, es: seq<Event>, family: set<Id>)
    requires Possible(s, es)
    decreases |es|
  {
    es == [] || (!Creates(s, es[0], family) && NeverCreates(Step(s, es[0]), es[1..], NextFamily(s, es[0], family)))
  }

  /** At no step of the run does the family hold and get charged more than it held before. */
  ghost predicate NeverGrows(s: Sched, es: seq<Event>, family: set<Id>)
    requires Possible(s, es)
    decreases |es|
  {
    es == [] ||
    (&& Held(Step(s, es[0]), NextFamily(s, es[0], family)) + Charge(s, es[0], family) <= Held(s, family)
     && NeverGrows(Step(s, es[0]), es[1..], NextFamily(s, es[0], family)))
  }

  /** The exact condition on runs: SHORT time never grows if and only if no step passes the test of
      Creates; then the ticks charged are covered by what the family held. */
  lemma {:induction false} GrowsOnlyByCreation(s: Sched, es: seq<Event>, family: set<Id>)
    requires Inv(s) && Possible(s, es)
    ensures NeverGrows(s, es, family) <==> NeverCreates(s, es, family)
    ensures NeverCreates(s, es, family) ==> Deltas(s, es, family) <= 0
    decreases |es|
  {
    hide Step, Held, NextFamily, Charge, Delta, Inv, Creates;
    if es != [] {
      BudgetStep(s, es[0], family);
      StepKeeps(s, es[0]);
      GrowsOnlyByCreation(Step(s, es[0]), es[1..], NextFamily(s, es[0], family));
    }
  }

  // ---------------------------------------------------------------- when nothing is created

  /** Every parent is a live task or forgotten. */
  ghost predicate ParentsLive(s: Sched) {
    forall x :: x in s.tasks ==> s.tasks[x].parent == IDLE || s.tasks[x].parent in s.tasks
  }

  /** A child that still has its first slice and whose parent is a SHORT member is a SHORT member too. */
  ghost predicate FirstSliceKin(s: Sched, family: set<Id>) {
    forall x :: x in s.tasks ==> KinOk(s, x, family)
  }

  ghost predicate KinOk(s: Sched, x: Id, family: set<Id>)
    requires x in s.tasks
  {
    var t := s.tasks[x];
    t.firstTimeSlice && t.parent in family && t.parent in s.tasks && ShortTask(s.tasks[t.parent]) ==>
      x in family && ShortTask(t)
  }

  /** A member reaps only children it forked, and setscheduler grants no member SHORT jiffies. */
  ghost predicate Frugal(s: Sched, e: Event, family: set<Id>)
    requires Enabled(s, e)
  {
    match e
    case Exit(c) => s.curr in family ==> s.tasks[c].parent == s.curr
    case SetPolicy(r) =>
      var p := Target(s, r);
      p in family && Reaches(s, r, p) ==> !Grants(s.tasks[p], r)
    case _ => true
  }

  /** Among first-slice kin a frugal step creates nothing. */
  lemma KinCreateNothing(s: Sched, e: Event, family: set<Id>)
    requires Inv(s) && Enabled(s, e) && FirstSliceKin(s, family) && Frugal(s, e, family)
    ensures !Creates(s, e, family)
  {
    hide Grants, Inv;
    if e.Exit? {
      assert KinOk(s, e.child, family);
    }
  }

  /** Each task keeps its parent or forgets it, and gets no younger. */
  ghost predicate Older(s: Sched, s': Sched, family: set<Id>) {
    && s'.tasks.Keys <= s.tasks.Keys
    && forall x :: x in s'.tasks ==>
         && (s'.tasks[x].parent == s.tasks[x].parent || s'.tasks[x].parent == IDLE)
         && (s'.tasks[x].firstTimeSlice ==> s.tasks[x].firstTimeSlice)
         && (x in family && ShortTask(s'.tasks[x]) ==> ShortTask(s.tasks[x]))
         && (s'.tasks[x].firstTimeSlice && ShortTask(s.tasks[x]) ==> ShortTask(s'.tasks[x]))
  }

  lemma OlderKin(s: Sched, s': Sched, family: set<Id>, family': set<Id>)
    requires FirstSliceKin(s, family) && Older(s, s', family) && IDLE !in s.tasks
    requires forall x :: x in s'.tasks ==> (x in family' <==> x in family)
    ensures FirstSliceKin(s', family')
  {
    hide ShortTask;
    forall x | x in s'.tasks
      ensures KinOk(s', x, family')
    {
      assert KinOk(s, x, family);
    }
  }

  lemma ForkedKin(s: Sched, s': Sched, child: Id, family: set<Id>)
    requires ParentsLive(s) && FirstSliceKin(s, family) && Forked(s, s', child)
    ensures FirstSliceKin(s', if s.curr in family then family + {child} else family - {child})
  {
    hide ShortTask, Weight;
    var family' := if s.curr in family then family + {child} else family - {child};
    forall x | x in s'.tasks
      ensures KinOk(s', x, family')
    {
      if x != child {
        assert KinOk(s, x, family) && Aged(s.tasks[x], s'.tasks[x]);
        var q := s.tasks[x].parent;
        assert q in s.tasks ==> Aged(s.tasks[q], s'.tasks[q]);
      } else {
        assert Aged(s.tasks[s.curr], s'.tasks[s.curr]);
      }
    }
  }

  /** A frugal step keeps first-slice kin. */
  lemma KinStep(s: Sched, e: Event, family: set<Id>)
    requires Inv(s) && ParentsLive(s) && Enabled(s, e) && FirstSliceKin(s, family) && Frugal(s, e, family)
    ensures FirstSliceKin(Step(s, e), NextFamily(s, e, family))
  {
    hide Step, FirstSliceKin, Weight, ShortTask, ParentsLive, Queued, NoFork, JudgedTask, AfterReap, Grants;
    match e
    case Tick =>
      TickMoves(s);
      OlderKin(s, Step(s, e), family, family);
    case Clone(c) =>
      ForkMoves(s, c);
      ForkedKin(s, Step(s, e), c, family);
    case Exit(c) =>
      ReapMoves(s, c);
      OlderKin(s, Step(s, e), family, family - {c});
    case SetPolicy(r) =>
      PolicyMoves(s, r);
      PolicyOlder(s, r, family);
      OlderKin(s, Step(s, e), family, family);
    case _ =>
      QuietStep(s, e);
      OlderKin(s, Step(s, e), family, family);
  }

  lemma PolicyOlder(s: Sched, r: Request, family: set<Id>)
    requires Inv(s) && Enabled(s, SetPolicy(r)) && Frugal(s, SetPolicy(r), family)
    requires Judged(s, Step(s, SetPolicy(r)), r)
    ensures Older(s, Step(s, SetPolicy(r)), family)
  {
    hide Step, JudgedTask, ShortTask, Weight, Grants, Judge, Reaches, Queued, NoFork;
    var p := Target(s, r);
    var s' := Step(s, SetPolicy(r));
    forall x | x in s'.tasks && Reaches(s, r, x)
      ensures x == p
    {
      ReachesTarget(s, r, x);
    }
    if Reaches(s, r, p) {
      ReachesTarget(s, r, p);
      assert TaskOk(s.tasks[p], s.jiffies);
      NotNegative(s, r);
      JudgedWeight(s.tasks[p], r, s.jiffies);
      MakingGrants(s.tasks[p], r);
    }
  }

  lemma ReachesTarget(s: Sched, r: Request, x: Id)
    requires Reaches(s, r, x)
    ensures x == Target(s, r) && x in s.tasks
  {
  }

  lemma NotNegative(s: Sched, r: Request)
    requires Enabled(s, SetPolicy(r)) && Reaches(s, r, Target(s, r))
    ensures Judge(s.tasks[Target(s, r)], r).ChangeShort? ==> r.requestedMs >= 0
  {
  }

  lemma MakingGrants(t: Task, r: Request)
    ensures Judge(t, r).MakeShort? ==> Grants(t, r)
  {
  }

  /** Parents stay live or forgotten over every step. */
  lemma ParentsStayLive(s: Sched, e: Event)
    requires Inv(s) && Enabled(s, e) && ParentsLive(s)
    ensures ParentsLive(Step(s, e))
  {
    hide Step, Weight, ShortTask, Queued, NoFork, JudgedTask, AfterReap;
    match e
    case Tick => TickMoves(s);
    case Clone(c) =>
      ForkMoves(s, c);
      assert forall x :: x in s.tasks ==> Aged(s.tasks[x], Step(s, e).tasks[x]);
    case Exit(c) => ReapMoves(s, c);
    case SetPolicy(r) =>
      PolicyMoves(s, r);
      if Reaches(s, r, Target(s, r)) {
        JudgedWeight(s.tasks[Target(s, r)], r, s.jiffies);
      }
    case _ => QuietStep(s, e);
  }

  ghost predicate FrugalRun(s: Sched, es: seq<Event>, family: set<Id>)
    requires Possible(s, es)
    decreases |es|
  {
    es == [] || (Frugal(s, es[0], family) && FrugalRun(Step(s, es[0]), es[1..], NextFamily(s, es[0], family)))
  }

  /** A frugal run that starts among first-slice kin creates no SHORT time: forking does not, and a
      forker gets back no more than it gave. */
  lemma {:induction false} KinRun(s: Sched, es: seq<Event>, family: set<Id>)
    requires Inv(s) && ParentsLive(s) && Possible(s, es)
    requires FirstSliceKin(s, family) && FrugalRun(s, es, family)
    ensures NeverCreates(s, es, family)
    decreases |es|
  {
    hide Step, Inv, Frugal, NextFamily, FirstSliceKin, ParentsLive, Creates;
    if es != [] {
      KinCreateNothing(s, es[0], family);
      KinStep(s, es[0], family);
      ParentsStayLive(s, es[0]);
      StepKeeps(s, es[0]);
      KinRun(Step(s, es[0]), es[1..], NextFamily(s, es[0], family));
    }
  }

  /** Parents stay live or forgotten over every run. */
  lemma {:induction false} ParentsLiveRun(s: Sched, es: seq<Event>)
    requires Inv(s) && ParentsLive(s) && Possible(s, es)
    ensures ParentsLive(Run(s, es))
    decreases |es|
  {
    hide Step, Inv, ParentsLive;
    if es != [] {
      ParentsStayLive(s, es[0]);
      StepKeeps(s, es[0]);
      ParentsLiveRun(Step(s, es[0]), es[1..]);
    }
  }

  /** Parents are live or forgotten in every state reachable from boot. */
  lemma ParentsLiveFromBoot(first: Id, jiffies: int, es: seq<Event>)
    requires 0 < first < PID_MAX && jiffies >= 1 && Possible(Boot(first, jiffies), es)
    ensures ParentsLive(Run(Boot(first, jiffies), es))
  {
    hide Run, Possible;
    BootKeeps(first, jiffies);
    assert ParentsLive(Boot(first, jiffies));
    ParentsLiveRun(Boot(first, jiffies), es);
  }

  lemma HeldNonNegative(s: Sched, family: set<Id>)
    requires Inv(s)
    ensures Held(s, family) >= 0
  {
    WeightsPositive(s, family);
    SumNonNegative(WeightIn(s, family), PID_MAX);
  }

  lemma HeldBySingle(s: Sched, p: Id)
    requires Inv(s) && p in s.tasks
    ensures Held(s, {p}) == Weight(s.tasks[p])
  {
    var zero := (x: Id) => 0;
    SumUpdate(zero, WeightIn(s, {p}), PID_MAX, p);
    SumZero(PID_MAX);
    SumSame(zero, (x: Id) => 0, PID_MAX);
  }

  lemma {:induction false} SumZero(n: nat)
    ensures Sum((x: Id) => 0, n) == 0
  {
    if n > 0 {
      SumZero(n - 1);
      SumSame((x: Id) => 0, (x: Id) => 0, n - 1);
    }
  }

  /** From the accepted setscheduler call on, in every run: the ticks charged to a task and all its
      descendants are at most its request plus what reaps and further calls added. */
  lemma ChargedFromRequest(s: Sched, req: Request, es: seq<Event>)
    requires Inv(s) && Enabled(s, SetPolicy(req))
    requires Reaches(s, req, Target(s, req)) && Judge(s.tasks[Target(s, req)], req).MakeShort?
    requires Possible(Step(s, SetPolicy(req)), es)
    ensures var s1 := Step(s, SetPolicy(req));
            var p := Target(s, req);
            Charges(s1, es, {p}) <= MsToJiffies(req.requestedMs) + Deltas(s1, es, {p})
  {
    hide Step, Held, Run, MsToJiffies, JudgedTask, Judge, Weight, ShortTask, Queued, NoFork, Deltas, Charges, Family;
    var s1 := Step(s, SetPolicy(req));
    var p := Target(s, req);
    StepKeeps(s, SetPolicy(req));
    PolicyMoves(s, req);
    JudgedWeight(s.tasks[p], req, s.jiffies);
    BudgetRun(s1, es, {p});
    HeldBySingle(s1, p);
    RunKeeps(s1, es);
    HeldNonNegative(Run(s1, es), Family(s1, es, {p}));
  }

  /** All descendants of a task that is made SHORT are together charged at most its request, if they
      run frugally and the task has no live child in its first slice when it is made SHORT. */
  lemma DescendantsShareTheRequest(s: Sched, req: Request, es: seq<Event>)
    requires Inv(s) && ParentsLive(s) && Enabled(s, SetPolicy(req))
    requires Reaches(s, req, Target(s, req)) && Judge(s.tasks[Target(s, req)], req).MakeShort?
    requires forall x :: x in s.tasks && s.tasks[x].parent == Target(s, req) ==> !s.tasks[x].firstTimeSlice
    requires var s1 := Step(s, SetPolicy(req)); Possible(s1, es) && FrugalRun(s1, es, {Target(s, req)})
    ensures Charges(Step(s, SetPolicy(req)), es, {Target(s, req)}) <= MsToJiffies(req.requestedMs)
  {
    hide Step, Held, Run, MsToJiffies, Judge, JudgedTask, Weight, ShortTask, ParentsLive, FrugalRun, Queued, NoFork;
    var s1 := Step(s, SetPolicy(req));
    var p := Target(s, req);
    ChargedFromRequest(s, req, es);
    StepKeeps(s, SetPolicy(req));
    ParentsStayLive(s, SetPolicy(req));
    PolicyMoves(s, req);
    JudgedWeight(s.tasks[p], req, s.jiffies);
    forall x | x in s1.tasks
      ensures KinOk(s1, x, {p})
    {
    }
    KinRun(s1, es, {p});
    GrowsOnlyByCreation(s1, es, {p});
  }

  // ---------------------------------------------------------------- where slices do grow

  lemma SharedSlices(s: Sched)
    requires Inv(s) && s.curr in s.tasks
    ensures var t, par, c := s.tasks[s.curr], ForkedParent(s), NewChild(s);
            && c.firstTimeSlice && c.timeSlice >= 1 && par.timeSlice >= 1
            && (OverdueTask(t) ==> par.timeSlice == c.timeSlice == t.timeSlice)
            && (!OverdueTask(t) && t.timeSlice >= 2 ==> par.timeSlice + c.timeSlice == t.timeSlice)
            && (!OverdueTask(t) && t.timeSlice == 1 ==> c.timeSlice == 1)
  {
    var t := s.tasks[s.curr];
    assert TaskOk(t, s.jiffies);
    assert t.timeSlice / 2 + t.timeSlice % 2 + t.timeSlice / 2 == t.timeSlice;
    assert t.timeSlice / 2 + (t.timeSlice + 1) / 2 == t.timeSlice;
    if t.timeSlice == 1 && !OverdueTask(t) {
      var par := SplitSlice(t).0.(justGotForked := false, timeSlice := 1);
      TickedSlice(par, s.jiffies, t.onArr == Some(Expired(s)));
    }
  }

  lemma TickedSlice(t: Task, jiffies: int, expired: bool)
    requires TaskOk(t, jiffies) && t.timeSlice == 1
    ensures TickedTask(t, expired).timeSlice >= 1
  {
    hide Refilled, TaskTimeslice;
    TimesliceRange(t);
    if !RtTask(t) {
      RefilledOk(t.(sleepAvg := TickedSleepAvg(t)), jiffies);
    }
  }

  /** Together the current task and the new one have as many jiffies pending as the current task had. */
  ghost predicate PendingKept(s: Sched, s': Sched, child: Id) {
    && s.curr in s.tasks && s.curr in s'.tasks && child in s'.tasks
    && s'.tasks[s.curr].timeSlice + s'.tasks[child].timeSlice == s.tasks[s.curr].timeSlice
  }

  /** The split keeps the total of pending slices exactly when the parent is not overdue and has two
      jiffies left.  An overdue parent and its child each get the whole slice. */
  lemma ForkKeepsPendingSlices(s: Sched, child: Id)
    requires Inv(s) && Enabled(s, Clone(child))
    ensures PendingKept(s, Step(s, Clone(child)), child)
            <==> !OverdueTask(s.tasks[s.curr]) && s.tasks[s.curr].timeSlice >= 2
  {
    hide Step, ForkedParent, NewChild, Inv;
    StepCores(s, Clone(child));
    SharedSlices(s);
  }

  /** Forking a child and reaping it before it has run leaves the parent no more than it had exactly
      when the split keeps the total, or when the slice is already at the cap. */
  lemma ReapOfUntouchedChild(s: Sched)
    requires Inv(s) && s.curr in s.tasks
    ensures var t := s.tasks[s.curr];
            AfterReap(ForkedParent(s), NewChild(s)).timeSlice <= t.timeSlice
            <==> (!OverdueTask(t) && t.timeSlice >= 2) || t.timeSlice >= MAX_TIMESLICE
  {
    hide ForkedParent, NewChild;
    SharedSlices(s);
    assert TaskOk(s.tasks[s.curr], s.jiffies);
  }

  /** The reaper of a child gets no more than `g` jiffies exactly when the child has no more than that
      or the cap is reached; from a child past its first slice it gets nothing. */
  lemma ReapReturnsOnlyWhatWasGiven(s: Sched, child: Id, g: int)
    requires Inv(s) && Enabled(s, Exit(child))
    ensures s.curr in Step(s, Exit(child)).tasks
    ensures var t, c := s.tasks[s.curr], s.tasks[child];
            Step(s, Exit(child)).tasks[s.curr].timeSlice <= t.timeSlice + g
            <==> if c.firstTimeSlice then c.timeSlice <= g || t.timeSlice + g >= MAX_TIMESLICE else g >= 0
  {
    hide Step, AfterReap;
    StepCores(s, Exit(child));
    ReapSlice(s.tasks[s.curr], s.tasks[child]);
    assert TaskOk(s.tasks[s.curr], s.jiffies) && TaskOk(s.tasks[child], s.jiffies);
  }

  lemma ReapSlice(t: Task, c: Task)
    ensures AfterReap(t, c).timeSlice ==
            if c.firstTimeSlice then Min(t.timeSlice + c.timeSlice, MAX_TIMESLICE) else t.timeSlice
  {
  }

  /** The step may give `x` more jiffies although it stays in its first slice: it reaps, or
      setscheduler lengthens its slice. */
  ghost predicate Raises(s: Sched, e: Event, x: Id)
    requires x in s.tasks
  {
    || (e.Exit? && s.curr == x)
    || (e.SetPolicy? && Reaches(s, e.request, x) && JudgedTask(s.tasks[x], e.request).timeSlice > s.tasks[x].timeSlice)
  }

  /** Over the run `x` is not reaped and no step raises its slice. */
  ghost predicate Unraised(s: Sched, es: seq<Event>, x: Id)
    requires Possible(s, es)
    decreases |es|
  {
    es == [] ||
    (x in s.tasks && !Raises(s, es[0], x) && es[0] != Exit(x) && Unraised(Step(s, es[0]), es[1..], x))
  }

  lemma FirstSliceStep(s: Sched, e: Event, x: Id)
    requires Inv(s) && Enabled(s, e) && x in s.tasks && !Raises(s, e, x) && e != Exit(x)
    ensures x in Step(s, e).tasks
    ensures var t, t' := s.tasks[x], Step(s, e).tasks[x];
            t'.firstTimeSlice ==> t.firstTimeSlice && t'.timeSlice <= t.timeSlice
  {
    hide Step, TickedTask, ForkedParent, NicedTask, JudgedTask, Reaches, Queued, NoFork;
    StepCores(s, e);
    var t := s.tasks[x];
    assert TaskOk(t, s.jiffies);
    if e.Tick? && s.curr == x {
      TickedFirst(t, t.onArr == Some(Expired(s)));
    } else if e.Clone? && s.curr == x {
      ForkedFirst(s);
    } else if e.Renice? {
      NicedFirst(t, e.nice);
    } else if e.SetPolicy? && Reaches(s, e.request, x) {
      JudgedFirst(t, e.request);
    }
    assert CoreOf(Step(s, e).tasks[x]) == CoreOf(NextRecord(s, e, x));
  }

  lemma TickedFirst(t: Task, expired: bool)
    ensures var t' := TickedTask(t, expired); t'.firstTimeSlice ==> t.firstTimeSlice && t'.timeSlice <= t.timeSlice
  {
  }

  lemma ForkedFirst(s: Sched)
    requires s.curr in s.tasks && s.tasks[s.curr].timeSlice >= 1
    ensures var t, t' := s.tasks[s.curr], ForkedParent(s);
            t'.firstTimeSlice ==> t.firstTimeSlice && t'.timeSlice <= t.timeSlice
  {
    hide TickedTask;
    var par := SplitSlice(s.tasks[s.curr]).0;
    TickedFirst(par.(justGotForked := false, timeSlice := 1), s.tasks[s.curr].onArr == Some(Expired(s)));
  }

  lemma NicedFirst(t: Task, nice: int)
    ensures NicedTask(t, nice).firstTimeSlice == t.firstTimeSlice && NicedTask(t, nice).timeSlice == t.timeSlice
  {
  }

  lemma JudgedFirst(t: Task, r: Request)
    ensures JudgedTask(t, r).firstTimeSlice == t.firstTimeSlice
  {
  }

  lemma {:induction false} FirstSliceRun(s: Sched, es: seq<Event>, x: Id)
    requires Inv(s) && Possible(s, es) && x in s.tasks && Unraised(s, es, x)
    ensures x in Run(s, es).tasks
    ensures var t, t' := s.tasks[x], Run(s, es).tasks[x];
            t'.firstTimeSlice ==> t.firstTimeSlice && t'.timeSlice <= t.timeSlice
    decreases |es|
  {
    hide Step, Inv, Raises;
    if es != [] {
      FirstSliceStep(s, es[0], x);
      StepKeeps(s, es[0]);
      FirstSliceRun(Step(s, es[0]), es[1..], x);
    }
  }

  /** A child whose slice nobody raised between fork and reap returns at most the slice it was forked
      with, whoever reaps it and whatever else happened. */
  lemma ReapReturnsTheShare(s: Sched, child: Id, es: seq<Event>)
    requires Inv(s) && Enabled(s, Clone(child)) && child in Step(s, Clone(child)).tasks
    requires var s1 := Step(s, Clone(child));
             Possible(s1, es) && Unraised(s1, es, child) && Enabled(Run(s1, es), Exit(child))
    ensures var s1 := Step(s, Clone(child));
            var s2 := Run(s1, es);
            && s2.curr in s2.tasks && s2.curr in Step(s2, Exit(child)).tasks
            && Step(s2, Exit(child)).tasks[s2.curr].timeSlice <= s2.tasks[s2.curr].timeSlice + s1.tasks[child].timeSlice
  {
    hide Step, Run, Raises, Unraised;
    var s1 := Step(s, Clone(child));
    StepKeeps(s, Clone(child));
    FirstSliceRun(s1, es, child);
    RunKeeps(s1, es);
    assert TaskOk(s1.tasks[child], s1.jiffies);
    ReapReturnsOnlyWhatWasGiven(Run(s1, es), child, s1.tasks[child].timeSlice);
  }

  /** What the forker has less after the fork than before: what it gave away. */
  ghost function Loss(s: Sched, child: Id): int
    requires Enabled(s, Clone(child)) && s.curr in Step(s, Clone(child)).tasks
  {
    s.tasks[s.curr].timeSlice - Step(s, Clone(child)).tasks[s.curr].timeSlice
  }

  /** What a fork takes from the forker and what the child gets.  An overdue forker loses nothing; with
      its last jiffy another one loses that jiffy, and the forced tick gives it a new slice. */
  lemma LossAndShare(s: Sched, child: Id)
    requires Inv(s) && Enabled(s, Clone(child))
    ensures s.curr in Step(s, Clone(child)).tasks && child in Step(s, Clone(child)).tasks
    ensures var t, share := s.tasks[s.curr], Step(s, Clone(child)).tasks[child].timeSlice;
            && share >= 1
            && (OverdueTask(t) ==> Loss(s, child) == 0)
            && (!OverdueTask(t) && t.timeSlice >= 2 ==> Loss(s, child) == share)
            && (!OverdueTask(t) && t.timeSlice == 1 ==> share == 1)
  {
    hide Step, ForkedParent, NewChild, Inv;
    StepCores(s, Clone(child));
    SharedSlices(s);
  }

  /** The claim of sched_exit over whole runs, for a child whose slice nobody raised: its reaper gets
      back no more than the forker gave away, exactly unless the forker was overdue, the child still
      has its first slice, and the reaper is below the cap.  Of a last jiffy at most that one returns. */
  lemma ReapReturnsTheLoss(s: Sched, child: Id, es: seq<Event>)
    requires Inv(s) && Enabled(s, Clone(child))
    requires s.curr in Step(s, Clone(child)).tasks && child in Step(s, Clone(child)).tasks
    requires var s1 := Step(s, Clone(child));
             Possible(s1, es) && Unraised(s1, es, child) && Enabled(Run(s1, es), Exit(child))
    ensures var t := s.tasks[s.curr];
            var s2 := Run(Step(s, Clone(child)), es);
            && s2.curr in s2.tasks && s2.curr in Step(s2, Exit(child)).tasks && child in s2.tasks
            && var before, after := s2.tasks[s2.curr].timeSlice, Step(s2, Exit(child)).tasks[s2.curr].timeSlice;
            && (OverdueTask(t) || t.timeSlice >= 2 ==>
                  (after > before + Loss(s, child) <==>
                   OverdueTask(t) && s2.tasks[child].firstTimeSlice && before < MAX_TIMESLICE))
            && (!OverdueTask(t) && t.timeSlice == 1 ==> after <= before + 1)
  {
    hide Step, Run, Raises, Unraised, Loss, Inv;
    var s1 := Step(s, Clone(child));
    var s2 := Run(s1, es);
    LossAndShare(s, child);
    ReapReturnsTheShare(s, child, es);
    StepKeeps(s, Clone(child));
    RunKeeps(s1, es);
    ReapReturnsOnlyWhatWasGiven(s2, child, 0);
    SliceOfMember(s2, child);
    SliceOfMember(s, s.curr);
  }
}
