/** How long a task is SHORT, how long it is overdue, and how it leaves the SHORT policy. */
module Lifecycle {
  import opened Params
  import opened Rows
  import opened SchedModel
  import opened SchedInvariant
  import opened SchedSteps
  import opened SchedFrames

  /** The step re-parameterises `p`: an accepted setscheduler call with target `p`. */
  ghost predicate Reparameterises(s: Sched, e: Event, p: Id) {
    e.SetPolicy? && Reaches(s, e.request, p) && !Judge(s.tasks[p], e.request).Refuse?
  }

  /** The step is a fork or a reap done by `p`, the reaping of `p`, or re-parameterises `p`. */
  ghost predicate Disturbs(s: Sched, e: Event, p: Id) {
    || (e.Clone? && s.curr == p)
    || (e.Exit? && (s.curr == p || e.child == p))
    || Reparameterises(s, e, p)
  }

  /** No step of the run disturbs `p`. */
  ghost predicate Undisturbed(s: Sched, es: seq<Event>, p: Id)
    requires Possible(s, es)
    decreases |es|
  {
    es == [] || (!Disturbs(s, es[0], p) && Undisturbed(Step(s, es[0]), es[1..], p))
  }

  /** The number of timer ticks charged to `p` in a run. */
  ghost function Charged(s: Sched, es: seq<Event>, p: Id): nat
    requires Possible(s, es)
    decreases |es|
  {
    if es == [] then 0
    else (if es[0].Tick? && s.curr == p then 1 else 0) + Charged(Step(s, es[0]), es[1..], p)
  }

  /** Where a task made SHORT with `r` jiffies stands after `n` charged ticks. */
  ghost predicate Stands(t: Task, r: int, n: int) {
    if n < r then ShortTask(t) && t.timeSlice == r - n && t.requestedTime == r
    else if n < 3 * r then OverdueTask(t) && t.timeSlice == 3 * r - n && t.requestedTime == r
    else t.policy == Other
  }

  lemma StandsOnCore(t: Task, t': Task, r: int, n: int)
    requires CoreOf(t) == CoreOf(t') && Stands(t, r, n)
    ensures Stands(t', r, n)
  {
  }

  lemma StandsTicked(t: Task, jiffies: int, expired: bool, r: int, n: int)
    requires TaskOk(t, jiffies) && Stands(t, r, n) && 1 <= r && n >= 0
    requires expired ==> t.policy == Other
    ensures Stands(TickedTask(t, expired), r, n + 1)
  {
  }

  lemma NicedKeepsStand(t: Task, nice: int, r: int, n: int)
    requires Stands(t, r, n)
    ensures Stands(NicedTask(t, nice), r, n)
  {
  }

  lemma StandsStep(s: Sched, e: Event, p: Id, r: int, n: nat)
    requires Inv(s) && Enabled(s, e) && !Disturbs(s, e, p)
    requires p in s.tasks && 1 <= r && Stands(s.tasks[p], r, n)
    ensures p in Step(s, e).tasks
    ensures Stands(Step(s, e).tasks[p], r, n + if e.Tick? && s.curr == p then 1 else 0)
  {
    hide Step, TickedTask, NicedTask, Judge, ForkedParent, AfterReap;
    StepCores(s, e);
    var t := s.tasks[p];
    var t1 := NextRecord(s, e, p);
    assert p in NextKeys(s, e);
    var m := n + if e.Tick? && s.curr == p then 1 else 0;
    assert Stands(t1, r, m) by {
      if e.Tick? && s.curr == p {
        StandsTicked(t, s.jiffies, t.onArr == Some(Expired(s)), r, n);
      } else if e.Renice? {
        NicedKeepsStand(t, e.nice, r, n);
      }
    }
    StandsOnCore(t1, Step(s, e).tasks[p], r, m);
  }

  /** Exact lifetimes: after n charged ticks the task has r - n SHORT jiffies left while n < r,
      3r - n overdue jiffies left while r <= n < 3r, and is OTHER from 3r on. */
  lemma {:induction false} ExactLifetime(s: Sched, es: seq<Event>, p: Id, r: int, n: nat)
    requires Inv(s) && Possible(s, es) && Undisturbed(s, es, p)
    requires p in s.tasks && 1 <= r && Stands(s.tasks[p], r, n)
    ensures p in Run(s, es).tasks
    ensures Stands(Run(s, es).tasks[p], r, n + Charged(s, es, p))
    decreases |es|
  {
    hide Step, Stands;
    if es != [] {
      StandsStep(s, es[0], p, r, n);
      StepKeeps(s, es[0]);
      ExactLifetime(Step(s, es[0]), es[1..], p, r, n + if es[0].Tick? && s.curr == p then 1 else 0);
    }
  }

  lemma MadeShortStands(s: Sched, p: Id, req: Request)
    requires Inv(s) && p in s.tasks && Judge(s.tasks[p], req).MakeShort?
    ensures MsToJiffies(req.requestedMs) >= 1
    ensures Stands(JudgedTask(s.tasks[p], req), MsToJiffies(req.requestedMs), 0)
  {
    assert TaskOk(s.tasks[p], s.jiffies);
  }

  /** The lifecycle from the setscheduler call on: a task that was OTHER, is made SHORT with
      `r` jiffies and is not disturbed stands where `Stands` says after any run. */
  lemma MadeShortLifetime(s: Sched, req: Request, es: seq<Event>)
    requires Inv(s) && Enabled(s, SetPolicy(req))
    requires Reaches(s, req, Target(s, req)) && Judge(s.tasks[Target(s, req)], req).MakeShort?
    requires var s1 := Step(s, SetPolicy(req)); Possible(s1, es) && Undisturbed(s1, es, Target(s, req))
    ensures var s1 := Step(s, SetPolicy(req));
            var p := Target(s, req);
            p in Run(s1, es).tasks && Stands(Run(s1, es).tasks[p], MsToJiffies(req.requestedMs), Charged(s1, es, p))
  {
    hide Step, Judge, JudgedTask, Stands, Inv, Undisturbed, Charged, CoreOf, MsToJiffies;
    var p := Target(s, req);
    var r := MsToJiffies(req.requestedMs);
    var e := SetPolicy(req);
    MadeShortStands(s, p, req);
    StepCores(s, e);
    StepKeeps(s, e);
    assert NextRecord(s, e, p) == JudgedTask(s.tasks[p], req);
    StandsOnCore(NextRecord(s, e, p), Step(s, e).tasks[p], r, 0);
    ExactLifetime(Step(s, e), es, p, r, 0);
  }

  // ---------------------------------------------------------------- with forks: at most 3r

  /** The jiffies a task still has under the SHORT policy, overdue time included. */
  function Credit(t: Task): int {
    if ShortTask(t) then t.timeSlice + 2 * t.requestedTime
    else if OverdueTask(t) then t.timeSlice
    else 0
  }

  /** No step of the run reaps with `p`, reaps `p` or re-parameterises it; forks are allowed. */
  ghost predicate OnlyForks(s: Sched, es: seq<Event>, p: Id)
    requires Possible(s, es)
    decreases |es|
  {
    es == [] ||
    (&& !(es[0].Exit? && (s.curr == p || es[0].child == p))
     && !Reparameterises(s, es[0], p)
     && OnlyForks(Step(s, es[0]), es[1..], p))
  }

  /** The ticks charged to `p` while its policy is SHORT. */
  ghost function ChargedAsShort(s: Sched, es: seq<Event>, p: Id): nat
    requires Possible(s, es)
    decreases |es|
  {
    if es == [] then 0
    else (if es[0].Tick? && s.curr == p && p in s.tasks && s.tasks[p].policy == Short then 1 else 0)
         + ChargedAsShort(Step(s, es[0]), es[1..], p)
  }

  lemma CreditTicked(t: Task, jiffies: int, expired: bool)
    requires TaskOk(t, jiffies) && (expired ==> t.policy == Other)
    ensures Credit(TickedTask(t, expired)) == Credit(t) - if t.policy == Short then 1 else 0
  {
  }

  lemma CreditForked(s: Sched)
    requires Inv(s) && s.curr in s.tasks
    ensures Credit(ForkedParent(s)) <= Credit(s.tasks[s.curr])
  {
    var t := s.tasks[s.curr];
    assert TaskOk(t, s.jiffies);
    var par := SplitSlice(t).0.(justGotForked := false, timeSlice := 1);
    if t.timeSlice == 1 && !OverdueTask(t) {
      CreditTicked(par, s.jiffies, t.onArr == Some(Expired(s)));
    }
  }

  lemma CreditStep(s: Sched, e: Event, p: Id)
    requires Inv(s) && Enabled(s, e) && p in s.tasks
    requires !(e.Exit? && (s.curr == p || e.child == p)) && !Reparameterises(s, e, p)
    ensures p in Step(s, e).tasks
    ensures Credit(Step(s, e).tasks[p]) +
            (if e.Tick? && s.curr == p && s.tasks[p].policy == Short then 1 else 0) <= Credit(s.tasks[p])
  {
    hide Step, TickedTask, Judge, ForkedParent, AfterReap;
    StepCores(s, e);
    var t := s.tasks[p];
    assert p in NextKeys(s, e);
    if e.Tick? && s.curr == p {
      CreditTicked(t, s.jiffies, t.onArr == Some(Expired(s)));
    } else if e.Clone? && s.curr == p {
      CreditForked(s);
    }
    assert Credit(Step(s, e).tasks[p]) == Credit(NextRecord(s, e, p));
  }

  /** Forking never lengthens a task's time under the SHORT policy. */
  lemma {:induction false} CreditRun(s: Sched, es: seq<Event>, p: Id)
    requires Inv(s) && Possible(s, es) && OnlyForks(s, es, p) && p in s.tasks
    ensures p in Run(s, es).tasks
    ensures Credit(Run(s, es).tasks[p]) + ChargedAsShort(s, es, p) <= Credit(s.tasks[p])
    decreases |es|
  {
    hide Step, Credit;
    if es != [] {
      CreditStep(s, es[0], p);
      StepKeeps(s, es[0]);
      CreditRun(Step(s, es[0]), es[1..], p);
    }
  }

  lemma CreditNonNegative(t: Task, jiffies: int)
    requires TaskOk(t, jiffies)
    ensures Credit(t) >= 0 && (Credit(t) == 0 <==> t.policy != Short)
  {
  }

  /** A SHORT task with a full request of r jiffies is charged at most 3r ticks under the policy,
      however often it forks; once it has been charged 3r of them it is no longer SHORT. */
  lemma AtMostThreeRequests(s: Sched, es: seq<Event>, p: Id)
    requires Inv(s) && Possible(s, es) && OnlyForks(s, es, p)
    requires p in s.tasks && ShortTask(s.tasks[p]) && s.tasks[p].timeSlice == s.tasks[p].requestedTime
    ensures ChargedAsShort(s, es, p) <= 3 * s.tasks[p].requestedTime
    ensures p in Run(s, es).tasks
    ensures ChargedAsShort(s, es, p) == 3 * s.tasks[p].requestedTime ==> Run(s, es).tasks[p].policy != Short
  {
    hide Step;
    CreditRun(s, es, p);
    RunKeeps(s, es);
    CreditNonNegative(Run(s, es).tasks[p], Run(s, es).jiffies);
  }

  // ---------------------------------------------------------------- the only way out

  lemma JudgedStaysShort(t: Task, r: Request)
    requires t.policy == Short
    ensures JudgedTask(t, r).policy == Short && JudgedTask(t, r).iAmOverdue == t.iAmOverdue
  {
  }

  lemma TickedPolicy(t: Task, jiffies: int)
    requires TaskOk(t, jiffies) && t.policy == Short
    ensures TickedTask(t, false).policy == if OverdueTask(t) && t.timeSlice == 1 then Other else Short
  {
  }

  lemma ForkedPolicy(s: Sched)
    requires Inv(s) && s.curr in s.tasks && s.tasks[s.curr].policy == Short
    ensures ForkedParent(s).policy == Short
  {
    var t := s.tasks[s.curr];
    assert TaskOk(t, s.jiffies);
    if ShortTask(t) && t.timeSlice == 1 {
      TickedPolicy(SplitSlice(t).0.(justGotForked := false, timeSlice := 1), s.jiffies);
    }
  }

  /** A task leaves the SHORT policy in exactly one way: the tick that uses up its overdue slice. */
  lemma OnlyWayOutOfShort(s: Sched, e: Event, p: Id)
    requires Inv(s) && Enabled(s, e)
    requires p in s.tasks && s.tasks[p].policy == Short && p in Step(s, e).tasks
    ensures Step(s, e).tasks[p].policy ==
            if e.Tick? && s.curr == p && OverdueTask(s.tasks[p]) && s.tasks[p].timeSlice == 1 then Other else Short
  {
    hide Step, Judge, JudgedTask, TickedTask, ForkedParent, NicedTask, AfterReap;
    StepCores(s, e);
    var t := s.tasks[p];
    assert TaskOk(t, s.jiffies);
    assert p in NextKeys(s, e);
    assert CoreOf(Step(s, e).tasks[p]) == CoreOf(NextRecord(s, e, p));
    match e
    case SetPolicy(r) => JudgedStaysShort(t, r);
    case Tick => TickedPolicy(t, s.jiffies);
    case Clone(_) => if s.curr == p { ForkedPolicy(s); }
    case Renice(_, nice) => assert NicedTask(t, nice).policy == t.policy by { NicedPolicy(t, nice); }
    case Exit(c) => assert AfterReap(t, s.tasks[c]).policy == t.policy by { ReapedPolicy(t, s.tasks[c]); }
    case _ =>
  }

  lemma NicedPolicy(t: Task, nice: int)
    ensures NicedTask(t, nice).policy == t.policy && NicedTask(t, nice).iAmOverdue == t.iAmOverdue
  {
  }

  lemma ReapedPolicy(t: Task, c: Task)
    ensures AfterReap(t, c).policy == t.policy && AfterReap(t, c).iAmOverdue == t.iAmOverdue
  {
  }

  /** A task becomes overdue in exactly two ways: the tick that uses up its SHORT slice, or a fork
      with its last jiffy. */
  lemma OnlyWayToOverdue(s: Sched, e: Event, p: Id)
    requires Inv(s) && Enabled(s, e)
    requires p in s.tasks && ShortTask(s.tasks[p]) && p in Step(s, e).tasks
    ensures OverdueTask(Step(s, e).tasks[p]) <==>
            ((e.Tick? || e.Clone?) && s.curr == p && s.tasks[p].timeSlice == 1)
  {
    hide Step, Judge, JudgedTask, TickedTask, NicedTask, ForkedParent, AfterReap, Queued, NoFork, Reaches;
    StepCores(s, e);
    var t := s.tasks[p];
    assert TaskOk(t, s.jiffies);
    assert p in NextKeys(s, e);
    if e.SetPolicy? {
      JudgedStaysShort(t, e.request);
    } else if e.Renice? {
      NicedPolicy(t, e.nice);
    } else if e.Exit? {
      ReapedPolicy(t, s.tasks[e.child]);
    } else if e.Tick? {
      TickedToOverdue(t, s.jiffies);
    } else if e.Clone? && s.curr == p {
      ForkedToOverdue(s);
    }
    assert CoreOf(Step(s, e).tasks[p]) == CoreOf(NextRecord(s, e, p));
  }

  lemma TickedToOverdue(t: Task, jiffies: int)
    requires TaskOk(t, jiffies) && ShortTask(t)
    ensures OverdueTask(TickedTask(t, false)) <==> t.timeSlice == 1
  {
  }

  lemma ForkedToOverdue(s: Sched)
    requires Inv(s) && s.curr in s.tasks && ShortTask(s.tasks[s.curr])
    ensures OverdueTask(ForkedParent(s)) <==> s.tasks[s.curr].timeSlice == 1
  {
    hide Queued, NoFork;
    assert TaskOk(s.tasks[s.curr], s.jiffies);
  }
}
