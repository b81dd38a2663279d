/** load_balance as one atomic step on the runqueues of all processors. */
module LoadBalance {
  import opened Params
  import opened Rows
  import opened SchedModel
  import opened SchedInvariant
  import opened SchedSteps
  import opened RunQueue

  // ---------------------------------------------------------------- specification

  /** CAN_MIGRATE_TASK: `allowed` are the tasks whose cpus_allowed includes this processor and
      `decay` is cache_decay_ticks. */
  predicate CanMigrate(s: Sched, allowed: set<Id>, decay: int, p: Id) {
    p in s.tasks && s.jiffies - s.tasks[p].sleepTimestamp > decay && p != s.curr && p in allowed
  }

  /** The movable tasks of a row, from the tail to the head. */
  function ScanRow(s: Sched, allowed: set<Id>, decay: int, r: seq<Id>): seq<Id>
    decreases |r|
  {
    if r == [] then []
    else
      var last := r[|r| - 1];
      (if CanMigrate(s, allowed, decay, last) then [last] else []) + ScanRow(s, allowed, decay, r[..|r| - 1])
  }

  /** The movable tasks of an array from priority `k` on. */
  function ScanFrom(s: Sched, allowed: set<Id>, decay: int, a: Arr, k: nat): seq<Id>
    requires k <= MAX_PRIO
    decreases MAX_PRIO - k
  {
    if k == MAX_PRIO then []
    else ScanRow(s, allowed, decay, Row(s, a, k)) + ScanFrom(s, allowed, decay, a, k + 1)
  }

  /** The movable tasks in the order in which load_balance looks at them: expired tasks first, by
      priority, and within a priority from the tail. */
  function Candidates(s: Sched, allowed: set<Id>, decay: int): seq<Id> {
    ScanFrom(s, allowed, decay, Expired(s), 0) + ScanFrom(s, allowed, decay, s.active, 0)
  }

  function Take(c: seq<Id>, n: nat): seq<Id> {
    if |c| <= n then c else c[..n]
  }

  /** The source without the task. */
  function PullOut(s: Sched, p: Id): Sched
    requires p in s.tasks && s.tasks[p].onArr.Some?
  {
    var u := Unlink(s, p, s.tasks[p].onArr.value);
    u.(tasks := u.tasks - {p})
  }

  /** The destination with the task at the tail of its row in the active array. */
  function PutIn(s: Sched, p: Id, t: Task): Sched {
    var s1 := AddTail(s.(tasks := s.tasks[p := t]), p, s.active);
    if t.prio < CurrPrio(s1) then ReschedCurr(s1) else s1
  }

  /** Two runqueues, the one pulled from and the one pulled to. */
  datatype Pair = Pair(src: Sched, dst: Sched)

  ghost predicate PairOk(q: Pair) {
    && InvNoCurr(q.src) && InvNoCurr(q.dst)
    && q.src.jiffies == q.dst.jiffies
    && q.src.tasks.Keys !! q.dst.tasks.Keys
  }

  /** A task that is OTHER and queued, and is not the current one. */
  ghost predicate Movable(s: Sched, p: Id) {
    p in s.tasks && s.tasks[p].policy == Other && s.tasks[p].onArr.Some? && p != s.curr
  }

  ghost function Pull(q: Pair, p: Id): Pair
    requires Movable(q.src, p)
  {
    Pair(PullOut(q.src, p), PutIn(q.dst, p, q.src.tasks[p]))
  }

  ghost predicate AllMovable(q: Pair, ps: seq<Id>)
    decreases |ps|
  {
    ps == [] || (Movable(q.src, ps[0]) && AllMovable(Pull(q, ps[0]), ps[1..]))
  }

  ghost function PullAll(q: Pair, ps: seq<Id>): Pair
    requires AllMovable(q, ps)
    decreases |ps|
  {
    if ps == [] then q else PullAll(Pull(q, ps[0]), ps[1..])
  }

  // ---------------------------------------------------------------- one pull

  lemma PullOutKeeps(s: Sched, p: Id)
    requires InvNoCurr(s) && Movable(s, p)
    ensures InvNoCurr(PullOut(s, p)) && p !in PullOut(s, p).tasks
    ensures CurrOk(s) ==> CurrOk(PullOut(s, p))
  {
    var a := s.tasks[p].onArr.value;
    UnlinkKeeps(s, p, a);
    var u := Unlink(s, p, a);
    var s' := PullOut(s, p);
    forall c, x | c in u.rows && x in u.rows[c]
      ensures x != IDLE && x in s'.tasks && s'.tasks[x].onArr == Some(c.arr) && s'.tasks[x].prio == c.prio
    {
      assert x != p && x in s.tasks;
    }
    forall x | x in s'.tasks && s'.tasks[x].onArr.Some?
      ensures var c := Cell(s'.tasks[x].onArr.value, s'.tasks[x].prio); c in u.rows && x in u.rows[c]
    {
      assert x in s.tasks && x != p;
    }
  }

  /** A fresh record is in no row. */
  lemma FreshRecord(s: Sched, p: Id, t: Task)
    requires InvNoCurr(s) && p !in s.tasks
    ensures Queued(s.rows, s.tasks[p := t], p)
  {
    forall c, x | c in s.rows && x in s.rows[c]
      ensures x != p && x in s.tasks
    {
    }
  }

  lemma AddedKeeps(s: Sched, p: Id, t: Task)
    requires InvNoCurr(s) && p !in s.tasks && 0 < p < PID_MAX
    requires TaskOk(t, s.jiffies) && t.policy == Other && !t.justGotForked
    ensures InvNoCurr(AddTail(s.(tasks := s.tasks[p := t]), p, s.active))
  {
    FreshRecord(s, p, t);
    hide Queued;
    AddTailKeeps(s.(tasks := s.tasks[p := t]), p, s.active);
  }

  lemma PutInKeeps(s: Sched, p: Id, t: Task)
    requires InvNoCurr(s) && p !in s.tasks && 0 < p < PID_MAX
    requires TaskOk(t, s.jiffies) && t.policy == Other && !t.justGotForked
    ensures InvNoCurr(PutIn(s, p, t))
    ensures CurrOk(s) ==> CurrOk(PutIn(s, p, t))
    ensures PutIn(s, p, t).jiffies == s.jiffies && PutIn(s, p, t).tasks.Keys == s.tasks.Keys + {p}
    ensures PutIn(s, p, t).curr == s.curr && PutIn(s, p, t).active == s.active
  {
    hide InvNoCurr, TaskOk;
    AddedKeeps(s, p, t);
    var s1 := AddTail(s.(tasks := s.tasks[p := t]), p, s.active);
    if s1.curr in s1.tasks {
      KeepFlag(s1);
    } else {
      KeepIdleFlag(s1);
    }
  }

  lemma KeepIdleFlag(s: Sched)
    requires InvNoCurr(s)
    ensures InvNoCurr(s.(idleResched := true))
  {
  }

  lemma KeepFlag(s: Sched)
    requires InvNoCurr(s) && s.curr in s.tasks
    ensures InvNoCurr(ReschedCurr(s))
  {
    UpdInPlace(s.rows, s.tasks, IDLE, s.curr, s.tasks[s.curr].(needResched := true));
  }

  /** One pull keeps both runqueues' invariants and moves exactly one queued task. */
  lemma PullKeeps(q: Pair, p: Id)
    requires PairOk(q) && Movable(q.src, p)
    ensures PairOk(Pull(q, p))
    ensures CurrOk(q.src) ==> CurrOk(Pull(q, p).src)
    ensures CurrOk(q.dst) ==> CurrOk(Pull(q, p).dst)
    ensures Pull(q, p).src.tasks.Keys == q.src.tasks.Keys - {p}
    ensures Pull(q, p).dst.tasks.Keys == q.dst.tasks.Keys + {p}
    ensures NrRunning(Pull(q, p).src) == NrRunning(q.src) - 1
    ensures NrRunning(Pull(q, p).dst) == NrRunning(q.dst) + 1
  {
    hide PullOut, PutIn, InvNoCurr, CurrOk, NrRunning;
    MovableRecord(q.src, p);
    PullOutKeeps(q.src, p);
    PullOutCount(q.src, p);
    PutInKeeps(q.dst, p, q.src.tasks[p]);
    PutInCount(q.dst, p, q.src.tasks[p]);
  }

  lemma MovableRecord(s: Sched, p: Id)
    requires InvNoCurr(s) && Movable(s, p)
    ensures TaskOk(s.tasks[p], s.jiffies) && !s.tasks[p].justGotForked && 0 < p < PID_MAX
    ensures s.tasks[p].onArr == Some(A0) || s.tasks[p].onArr == Some(A1)
    ensures var r := Row(s, s.tasks[p].onArr.value, s.tasks[p].prio); p in r && NoDup(r)
    ensures PullOut(s, p).jiffies == s.jiffies && PullOut(s, p).tasks.Keys == s.tasks.Keys - {p}
    ensures PullOut(s, p).curr == s.curr && PullOut(s, p).active == s.active
  {
    assert TaskOk(s.tasks[p], s.jiffies);
    var c := Cell(s.tasks[p].onArr.value, s.tasks[p].prio);
    assert c in s.rows && p in s.rows[c];
  }

  lemma PullOutCount(s: Sched, p: Id)
    requires InvNoCurr(s) && Movable(s, p)
    ensures NrRunning(PullOut(s, p)) == NrRunning(s) - 1
  {
    MovableRecord(s, p);
    hide NrRunning, InvNoCurr;
    var a, k := s.tasks[p].onArr.value, s.tasks[p].prio;
    WithoutElements(Row(s, a, k), p);
    NrSetRow(s, a, k, Without(Row(s, a, k), p));
    NrSameRows(PullOut(s, p), Unlink(s, p, a));
  }

  lemma PutInCount(s: Sched, p: Id, t: Task)
    requires 0 <= t.prio < MAX_PRIO
    ensures NrRunning(PutIn(s, p, t)) == NrRunning(s) + 1
  {
    hide NrRunning;
    var a, k := s.active, t.prio;
    NrSetRow(s, a, k, Row(s, a, k) + [p]);
    NrSameRows(PutIn(s, p, t), SetRow(s, a, k, Row(s, a, k) + [p]));
  }

  // ---------------------------------------------------------------- many pulls

  /** The invariants hold after any number of pulls, every task pulled has changed sides, and the
      number of queued tasks is conserved. */
  lemma {:induction false} PullAllKeeps(q: Pair, ps: seq<Id>)
    requires PairOk(q) && AllMovable(q, ps)
    ensures var q' := PullAll(q, ps);
            && PairOk(q')
            && (CurrOk(q.src) ==> CurrOk(q'.src)) && (CurrOk(q.dst) ==> CurrOk(q'.dst))
            && q'.src.tasks.Keys == q.src.tasks.Keys - Elements(ps)
            && q'.dst.tasks.Keys == q.dst.tasks.Keys + Elements(ps)
            && NrRunning(q'.src) == NrRunning(q.src) - |ps|
            && NrRunning(q'.dst) == NrRunning(q.dst) + |ps|
    decreases |ps|
  {
    hide PairOk, Pull, CurrOk, NrRunning;
    if ps != [] {
      PullKeeps(q, ps[0]);
      PullAllKeeps(Pull(q, ps[0]), ps[1..]);
      assert ps == [ps[0]] + ps[1..];
    }
  }

  lemma {:induction false} PullAllThen(q: Pair, ps: seq<Id>, p: Id)
    requires AllMovable(q, ps) && Movable(PullAll(q, ps).src, p)
    ensures AllMovable(q, ps + [p]) && PullAll(q, ps + [p]) == Pull(PullAll(q, ps), p)
    decreases |ps|
  {
    hide Pull, Movable;
    if ps == [] {
      assert ps + [p] == [p] && [p][1..] == [];
      assert AllMovable(Pull(q, p), []);
    } else {
      PullAllThen(Pull(q, ps[0]), ps[1..], p);
      assert (ps + [p])[1..] == ps[1..] + [p];
    }
  }

  // ---------------------------------------------------------------- the candidates

  lemma {:induction false} ScanRowElements(s: Sched, allowed: set<Id>, decay: int, r: seq<Id>)
    requires NoDup(r)
    ensures NoDup(ScanRow(s, allowed, decay, r))
    ensures forall p :: p in ScanRow(s, allowed, decay, r) <==> p in r && CanMigrate(s, allowed, decay, p)
    decreases |r|
  {
    hide CanMigrate;
    if r != [] {
      var init := r[..|r| - 1];
      assert r == init + [r[|r| - 1]];
      ScanRowElements(s, allowed, decay, init);
    }
  }

  /** The candidates of an array are exactly its movable tasks, each once. */
  lemma {:induction false} ScanFromElements(s: Sched, allowed: set<Id>, decay: int, a: Arr, k: nat)
    requires InvNoCurr(s) && k <= MAX_PRIO
    ensures NoDup(ScanFrom(s, allowed, decay, a, k))
    ensures forall p :: p in ScanFrom(s, allowed, decay, a, k) <==>
              CanMigrate(s, allowed, decay, p) && s.tasks[p].onArr == Some(a) && s.tasks[p].prio >= k
    decreases MAX_PRIO - k
  {
    hide CanMigrate;
    RowMembers(s, a, k);
    CanMigrateKnown(s, allowed, decay);
    if k < MAX_PRIO {
      ScanRowElements(s, allowed, decay, Row(s, a, k));
      ScanFromElements(s, allowed, decay, a, k + 1);
      hide InvNoCurr, ScanRow;
      NoDupConcat(ScanRow(s, allowed, decay, Row(s, a, k)), ScanFrom(s, allowed, decay, a, k + 1));
    } else {
      TopPrio(s, a);
    }
  }

  lemma RowMembers(s: Sched, a: Arr, k: int)
    requires InvNoCurr(s)
    ensures NoDup(Row(s, a, k))
    ensures forall p :: p in Row(s, a, k) <==> p in s.tasks && s.tasks[p].onArr == Some(a) && s.tasks[p].prio == k
  {
    RowElements(s, a, k);
  }

  lemma CanMigrateKnown(s: Sched, allowed: set<Id>, decay: int)
    ensures forall p :: CanMigrate(s, allowed, decay, p) ==> p in s.tasks && p != s.curr
  {
  }

  lemma TopPrio(s: Sched, a: Arr)
    requires InvNoCurr(s)
    ensures forall p :: p in s.tasks ==> s.tasks[p].prio < MAX_PRIO
  {
    forall p | p in s.tasks
      ensures s.tasks[p].prio < MAX_PRIO
    {
      assert TaskOk(s.tasks[p], s.jiffies);
    }
  }

  /** The candidates are exactly the OTHER tasks on a queue that do not run, are allowed here, and called
      schedule last more than `decay` jiffies ago, each once; so real-time, SHORT and overdue tasks are
      never migrated. */
  lemma CandidatesAre(s: Sched, allowed: set<Id>, decay: int)
    requires InvNoCurr(s)
    ensures NoDup(Candidates(s, allowed, decay))
    ensures forall p :: p in Candidates(s, allowed, decay) <==>
              && p in s.tasks && s.tasks[p].policy == Other && s.tasks[p].onArr.Some?
              && p != s.curr && p in allowed && s.jiffies > s.tasks[p].sleepTimestamp + decay
  {
    hide Candidates, InvNoCurr;
    CandidatesPass(s, allowed, decay);
  }

  lemma CandidatesPass(s: Sched, allowed: set<Id>, decay: int)
    requires InvNoCurr(s)
    ensures NoDup(Candidates(s, allowed, decay))
    ensures forall p :: p in Candidates(s, allowed, decay) <==> CanMigrate(s, allowed, decay, p) && Movable(s, p)
  {
    ScanFromElements(s, allowed, decay, Expired(s), 0);
    ScanFromElements(s, allowed, decay, s.active, 0);
    CanMigrateKnown(s, allowed, decay);
    OtherPlaces(s);
    hide CanMigrate, ScanFrom, Queued, TasksOk;
    NoDupConcat(ScanFrom(s, allowed, decay, Expired(s), 0), ScanFrom(s, allowed, decay, s.active, 0));
  }

  lemma OtherPlaces(s: Sched)
    requires InvNoCurr(s)
    ensures forall p :: p in s.tasks && s.tasks[p].onArr.Some? ==>
              (s.tasks[p].policy == Other <==> s.tasks[p].onArr == Some(s.active) || s.tasks[p].onArr == Some(Expired(s)))
    ensures forall p :: p in s.tasks ==> 0 <= s.tasks[p].prio
  {
    forall p | p in s.tasks
      ensures 0 <= s.tasks[p].prio
      ensures s.tasks[p].onArr.Some? ==>
                (s.tasks[p].policy == Other <==> s.tasks[p].onArr == Some(s.active) || s.tasks[p].onArr == Some(Expired(s)))
    {
      assert TaskOk(s.tasks[p], s.jiffies);
    }
  }

  lemma MovableLater(q: Pair, p: Id, x: Id)
    requires Movable(q.src, p) && Movable(q.src, x) && x != p
    ensures Movable(Pull(q, p).src, x)
  {
  }

  lemma {:induction false} MovableInTurn(q: Pair, ps: seq<Id>)
    requires NoDup(ps) && forall p :: p in ps ==> Movable(q.src, p)
    ensures AllMovable(q, ps)
    decreases |ps|
  {
    hide Pull, Movable;
    if ps != [] {
      forall x | x in ps[1..]
        ensures Movable(Pull(q, ps[0]).src, x)
      {
        MovableLater(q, ps[0], x);
      }
      MovableInTurn(Pull(q, ps[0]), ps[1..]);
    }
  }

  /** Pulling at most `n` candidates is possible. */
  lemma TakeMovable(q: Pair, allowed: set<Id>, decay: int, n: nat)
    requires InvNoCurr(q.src)
    ensures AllMovable(q, Take(Candidates(q.src, allowed, decay), n))
    ensures |Take(Candidates(q.src, allowed, decay), n)| <= n
  {
    hide InvNoCurr, Candidates, Movable, CanMigrate, AllMovable;
    CandidatesPass(q.src, allowed, decay);
    MovableInTurn(q, Take(Candidates(q.src, allowed, decay), n));
  }

  // ---------------------------------------------------------------- the decision

  /** The length counted for another processor: busy balancing takes the smaller of the current and
      the previous length. */
  function LoadOf(idle: bool, len: int, prev: int): int {
    if idle || len < prev then len else prev
  }

  /** The length counted for this processor: busy balancing takes the larger one. */
  function OwnLoad(idle: bool, len: int, prev: int): int {
    if idle || len > prev then len else prev
  }

  /** How many tasks to pull at most from the busiest processor, `length` being its length. */
  function Quota(idle: bool, maxLoad: int, own: int, length: int): nat {
    var imbalance := TruncDiv(maxLoad - own, 2);
    if !idle && imbalance < (maxLoad + 3) / 4 then 0
    else if length <= own + 1 then 0
    else if idle then 1
    else if imbalance <= 0 then 0 else imbalance
  }

  /** `b` is the first processor with the largest load above one, if there is any. */
  ghost predicate IsBusiest(idle: bool, lens: seq<int>, prev: seq<int>, me: nat, b: Option<nat>, maxLoad: int)
    requires |lens| == |prev|
  {
    match b
    case None =>
      maxLoad == 1 && forall j :: 0 <= j < |lens| && j != me ==> LoadOf(idle, lens[j], prev[j]) <= 1
    case Some(i) =>
      && i < |lens| && i != me && maxLoad == LoadOf(idle, lens[i], prev[i]) && maxLoad > 1
      && (forall j :: 0 <= j < |lens| && j != me ==> LoadOf(idle, lens[j], prev[j]) <= maxLoad)
      && (forall j :: 0 <= j < i && j != me ==> LoadOf(idle, lens[j], prev[j]) < maxLoad)
  }

  /** No overshoot: pulling up to the quota never makes this queue longer than the one pulled from. */
  lemma NoOvershoot(idle: bool, len: int, prev: int, busiestLen: int, busiestPrev: int, k: nat)
    requires k <= Quota(idle, LoadOf(idle, busiestLen, busiestPrev), OwnLoad(idle, len, prev), busiestLen)
    ensures k > 0 ==> len + k <= busiestLen - k
  {
  }

  /** What the quota means.  Busy: tasks are pulled exactly if half the difference between the busiest other
      processor, taken at its shorter length, and this one, taken at its longer, is at least a quarter of
      the former, rounded up; and then half the difference is pulled.  Idle: one task, exactly if some
      other processor has more than one and at least two more than this one. */
  ghost predicate RightQuota(idle: bool, lens: seq<int>, prev: seq<int>, me: nat, b: Option<nat>, quota: nat)
    requires |lens| == |prev| && me < |lens|
  {
    if idle then
      quota == if exists j :: 0 <= j < |lens| && j != me && lens[j] > 1 && lens[j] >= lens[me] + 2 then 1 else 0
    else
      match b
      case None => quota == 0 && forall j :: 0 <= j < |lens| && j != me ==> Min(lens[j], prev[j]) <= 1
      case Some(i) =>
        && i < |lens| && i != me
        && (forall j :: 0 <= j < |lens| && j != me ==> Min(lens[j], prev[j]) <= Min(lens[i], prev[i]))
        && var load, own := Min(lens[i], prev[i]), Max(lens[me], prev[me]);
           quota == if load - own >= 2 * ((load + 3) / 4) then (load - own) / 2 else 0
  }

  lemma QuotaIsRight(idle: bool, lens: seq<int>, prev: seq<int>, me: nat, b: Option<nat>, maxLoad: int)
    requires |lens| == |prev| && me < |lens| && IsBusiest(idle, lens, prev, me, b, maxLoad)
    ensures b.Some? ==> b.value < |lens|
    ensures RightQuota(idle, lens, prev, me, b,
                       if b == None then 0 else Quota(idle, maxLoad, OwnLoad(idle, lens[me], prev[me]), lens[b.value]))
  {
    forall j | 0 <= j < |lens| && j != me
      ensures LoadOf(idle, lens[j], prev[j]) == if idle then lens[j] else Min(lens[j], prev[j])
    {
    }
  }

  /** The quarter is rounded up, so a longer queue can be left alone where a shorter one is relieved. */
  lemma LongerIsLeftAlone(quota: nat)
    ensures RightQuota(false, [2, 4], [2, 4], 0, Some(1), quota) ==> quota == 1
    ensures RightQuota(false, [2, 5], [2, 5], 0, Some(1), quota) ==> quota == 0
  {
    assert Min(4, 4) == 4 && Min(5, 5) == 5 && Max(2, 2) == 2;
  }

  // ---------------------------------------------------------------- the methods

  /** What load_balance needs of a locked runqueue; the current task may be on its way off. */
  ghost predicate Locked(rq: Runqueue)
    reads rq
  {
    rq.Ok() && rq.nrRunning == SumActive(rq.arrays) && InvNoCurr(rq.View())
  }

  /** The busiest runqueue loses the task. */
  method Depart(src: Runqueue, p: Id) returns (t: Task)
    requires Locked(src) && Movable(src.View(), p)
    modifies src`arrays, src`rows, src`tasks, src`nrRunning
    ensures Locked(src) && src.View() == PullOut(old(src.View()), p) && t == old(src.tasks)[p]
  {
    hide ArraysTied, SumActive, InvNoCurr, NoDup, Without;
    ghost var s := src.View();
    PullOutKeeps(s, p);
    MovableRecord(s, p);
    t := src.tasks[p];
    UnlinkSameTasks(s, p, t.onArr.value);
    src.DequeueTask(p, t.onArr.value);
    src.tasks := src.tasks - {p};
    src.nrRunning := src.nrRunning - 1;
  }

  /** This runqueue takes the task into its active array. */
  method Arrive(dst: Runqueue, p: Id, t: Task)
    requires Locked(dst) && p !in dst.tasks && 0 < p < PID_MAX
    requires TaskOk(t, dst.jiffies) && t.policy == Other && !t.justGotForked
    modifies dst`arrays, dst`rows, dst`tasks, dst`nrRunning, dst`idleResched
    ensures Locked(dst) && dst.View() == PutIn(old(dst.View()), p, t)
  {
    hide ArraysTied, SumActive, InvNoCurr, EnqueueReady, AddTail, Enqueue, ReschedCurr;
    ghost var s := dst.View();
    PutInKeeps(s, p, t);
    ArrivalReady(s, p, t);
    dst.tasks := dst.tasks[p := t];
    dst.nrRunning := dst.nrRunning + 1;
    dst.EnqueueTask(p, dst.active);
    if t.prio < dst.CurrentPrio() {
      dst.ReschedCurrent();
    }
  }

  /** Take one task out of the busiest runqueue and put it into this one. */
  method PullTask(dst: Runqueue, src: Runqueue, p: Id)
    requires dst != src && Locked(dst) && Locked(src) && PairOk(Pair(src.View(), dst.View()))
    requires Movable(src.View(), p)
    modifies dst`arrays, dst`rows, dst`tasks, dst`nrRunning, dst`idleResched
    modifies src`arrays, src`rows, src`tasks, src`nrRunning
    ensures Locked(dst) && Locked(src)
    ensures Pair(src.View(), dst.View()) == Pull(old(Pair(src.View(), dst.View())), p)
    ensures PairOk(Pair(src.View(), dst.View()))
  {
    hide Locked, InvNoCurr, PullOut, PutIn, CurrOk, NrRunning, TaskOk;
    ghost var q := Pair(src.View(), dst.View());
    PullKeeps(q, p);
    MovableRecord(q.src, p);
    var t := Depart(src, p);
    Arrive(dst, p, t);
  }

  lemma ArrivalReady(s: Sched, p: Id, t: Task)
    requires InvNoCurr(s) && p !in s.tasks && TaskOk(t, s.jiffies) && !t.justGotForked
    ensures var s1 := s.(tasks := s.tasks[p := t]);
            EnqueueReady(s1, p, s.active) && Enqueue(s1, p, s.active) == AddTail(s1, p, s.active)
  {
    PlainReady(s.(tasks := s.tasks[p := t]), p, s.active);
  }

  // ---------------------------------------------------------------- the scan

  /** The two runqueues have come from `q` by pulling the tasks `moved`. */
  ghost predicate Tracks(dst: Runqueue, src: Runqueue, q: Pair, moved: seq<Id>)
    reads dst, src
  {
    && dst != src && Locked(dst) && Locked(src)
    && PairOk(q) && PairOk(Pair(src.View(), dst.View()))
    && AllMovable(q, moved) && Pair(src.View(), dst.View()) == PullAll(q, moved)
  }

  /** Pulling changes no record that stays behind, and only the row of the task pulled. */
  ghost predicate Thinned(s: Sched, s': Sched) {
    && s'.curr == s.curr && s'.jiffies == s.jiffies && s'.active == s.active
    && s'.tasks.Keys <= s.tasks.Keys
    && forall x :: x in s'.tasks ==> s'.tasks[x] == s.tasks[x]
  }

  lemma PullThins(q: Pair, p: Id)
    requires Movable(q.src, p)
    ensures Thinned(q.src, Pull(q, p).src)
    ensures forall b, k :: Row(Pull(q, p).src, b, k) ==
              if q.src.tasks[p].onArr == Some(b) && q.src.tasks[p].prio == k then Without(Row(q.src, b, k), p)
              else Row(q.src, b, k)
  {
  }

  lemma {:induction false} PullAllThins(q: Pair, ps: seq<Id>)
    requires AllMovable(q, ps)
    ensures Thinned(q.src, PullAll(q, ps).src)
    decreases |ps|
  {
    hide Pull, Movable;
    if ps != [] {
      PullThins(q, ps[0]);
      PullAllThins(Pull(q, ps[0]), ps[1..]);
    }
  }

  /** A task seen in a row of `active` or `expired` that may migrate can be pulled, and it may migrate
      now exactly if it could when the scan began. */
  lemma SeenTask(s: Sched, s': Sched, allowed: set<Id>, decay: int, a: Arr, k: int, p: Id)
    requires Thinned(s, s') && InvNoCurr(s') && p in Row(s', a, k) && (a == A0 || a == A1)
    ensures CanMigrate(s', allowed, decay, p) == CanMigrate(s, allowed, decay, p)
    ensures CanMigrate(s', allowed, decay, p) ==> Movable(s', p)
    ensures p in s'.tasks && s'.tasks[p].onArr == Some(a) && s'.tasks[p].prio == k
  {
    RowMembers(s', a, k);
    assert TaskOk(s'.tasks[p], s'.jiffies);
  }

  /** find_next_bit with the delimiter of the bitmap. */
  method FindNextBit(bitmap: Bits, from: nat) returns (idx: nat)
    requires from <= MAX_PRIO && bitmap[MAX_PRIO]
    ensures from <= idx <= MAX_PRIO && bitmap[idx]
    ensures forall k :: from <= k < idx ==> !bitmap[k]
  {
    idx := from;
    while !bitmap[idx]
      invariant from <= idx <= MAX_PRIO
      invariant forall k :: from <= k < idx ==> !bitmap[k]
      decreases MAX_PRIO - idx
    {
      idx := idx + 1;
    }
  }

  lemma ScanRowStep(s: Sched, allowed: set<Id>, decay: int, r: seq<Id>, i: nat)
    requires i < |r|
    ensures ScanRow(s, allowed, decay, r[..i + 1]) ==
            (if CanMigrate(s, allowed, decay, r[i]) then [r[i]] else []) + ScanRow(s, allowed, decay, r[..i])
  {
    hide CanMigrate;
    assert r[..i + 1][..i] == r[..i];
  }

  /** One step of the walk along a row: the task at position `i` leaves if it may. */
  method VisitTask(dst: Runqueue, src: Runqueue, a: Arr, k: int, i: nat, allowed: set<Id>, decay: int,
                   ghost q: Pair, ghost moved: seq<Id>)
    returns (pulled: bool, ghost moved': seq<Id>)
    requires Tracks(dst, src, q, moved) && (a == A0 || a == A1)
    requires i < |Row(src.View(), a, k)| && 0 <= k < MAX_PRIO
    modifies dst`arrays, dst`rows, dst`tasks, dst`nrRunning, dst`idleResched
    modifies src`arrays, src`rows, src`tasks, src`nrRunning
    ensures var p := old(Row(src.View(), a, k)[i]);
            && pulled == CanMigrate(q.src, allowed, decay, p)
            && moved' == if pulled then moved + [p] else moved
    ensures Tracks(dst, src, q, moved')
    ensures var r := old(Row(src.View(), a, k));
            Row(src.View(), a, k) == if pulled then r[..i] + r[i + 1..] else r
    ensures forall b, j :: b != a || j != k ==> Row(src.View(), b, j) == old(Row(src.View(), b, j))
  {
    hide ArraysTied, SumActive, InvNoCurr, NoDup, CanMigrate, Movable, Pull, AllMovable, NrRunning, RowAt;
    ghost var s := src.View();
    ArrayRow(src.arrays, src.rows, a, k);
    RowIs(s, a, k);
    var p := src.arrays[a].queue[k][i];
    PullAllThins(q, moved);
    SeenTask(q.src, s, allowed, decay, a, k, p);
    RowMembers(s, a, k);
    WithoutAt(Row(s, a, k), i);
    moved' := moved;
    pulled := MayMigrate(src, p, allowed, decay);
    if pulled {
      PullThins(Pair(s, dst.View()), p);
      PullAllThen(q, moved, p);
      PullTask(dst, src, p);
      moved' := moved + [p];
    }
  }

  /** CAN_MIGRATE_TASK on the runqueue itself. */
  method MayMigrate(rq: Runqueue, p: Id, allowed: set<Id>, decay: int) returns (b: bool)
    requires p in rq.tasks
    ensures b == CanMigrate(rq.View(), allowed, decay, p)
  {
    b := rq.jiffies - rq.tasks[p].sleepTimestamp > decay && p != rq.curr && p in allowed;
  }

  /** The walk along one row, from the tail; `rest` are the candidates of the row not reached. */
  method WalkRow(dst: Runqueue, src: Runqueue, a: Arr, k: int, left: nat, allowed: set<Id>, decay: int,
                 ghost q: Pair, ghost moved: seq<Id>)
    returns (left': nat, ghost moved': seq<Id>, ghost rest: seq<Id>)
    requires Tracks(dst, src, q, moved) && (a == A0 || a == A1) && 0 <= k < MAX_PRIO && left > 0
    requires Row(src.View(), a, k) == Row(q.src, a, k)
    modifies dst`arrays, dst`rows, dst`tasks, dst`nrRunning, dst`idleResched
    modifies src`arrays, src`rows, src`tasks, src`nrRunning
    ensures Tracks(dst, src, q, moved')
    ensures moved' + rest == moved + ScanRow(q.src, allowed, decay, Row(q.src, a, k))
    ensures left' + |moved'| == left + |moved| && (left' > 0 ==> rest == [])
    ensures forall b, j :: b != a || j != k ==> Row(src.View(), b, j) == old(Row(src.View(), b, j))
  {
    hide Tracks, CanMigrate, Row, ScanRow;
    ghost var r := Row(q.src, a, k);
    var i := RowLength(src, a, k, dst, q, moved);
    assert r[..i] == r;
    left', moved' := left, moved;
    while i > 0
      invariant 0 <= i <= |r|
      invariant Tracks(dst, src, q, moved')
      invariant i <= |Row(src.View(), a, k)| && Row(src.View(), a, k)[..i] == r[..i]
      invariant moved' + ScanRow(q.src, allowed, decay, r[..i]) == moved + ScanRow(q.src, allowed, decay, r)
      invariant left' + |moved'| == left + |moved| && left' > 0
      invariant forall b, j :: b != a || j != k ==> Row(src.View(), b, j) == old(Row(src.View(), b, j))
    {
      i := i - 1;
      ghost var live, before := Row(src.View(), a, k), moved';
      PrefixStep(live, r, i);
      ScanRowStep(q.src, allowed, decay, r, i);
      var pulled;
      pulled, moved' := VisitTask(dst, src, a, k, i, allowed, decay, q, moved');
      assert before + ((if pulled then [r[i]] else []) + ScanRow(q.src, allowed, decay, r[..i])) ==
             moved' + ScanRow(q.src, allowed, decay, r[..i]);
      if pulled {
        left' := left' - 1;
        if left' == 0 {
          rest := ScanRow(q.src, allowed, decay, r[..i]);
          return;
        }
      }
    }
    assert r[..0] == [] && ScanRow(q.src, allowed, decay, []) == [] by {
      ScanNothing(q.src, allowed, decay);
    }
    rest := [];
  }

  lemma ScanNothing(s: Sched, allowed: set<Id>, decay: int)
    ensures ScanRow(s, allowed, decay, []) == []
  {
  }

  /** Cutting position `i` out of a list, or not, leaves the prefix before it. */
  lemma PrefixStep(live: seq<Id>, r: seq<Id>, i: nat)
    requires i < |r| && i < |live| && live[..i + 1] == r[..i + 1]
    ensures live[i] == r[i] && live[..i] == r[..i]
    ensures (live[..i] + live[i + 1..])[..i] == r[..i] && i <= |live[..i] + live[i + 1..]|
  {
    assert live[..i + 1][i] == r[..i + 1][i] && live[..i + 1][..i] == r[..i + 1][..i];
    assert live[..i + 1][..i] == live[..i] && r[..i + 1][..i] == r[..i];
  }

  method RowLength(src: Runqueue, a: Arr, k: int, ghost dst: Runqueue, ghost q: Pair, ghost moved: seq<Id>) returns (n: nat)
    requires Tracks(dst, src, q, moved) && 0 <= k < MAX_PRIO
    ensures n == |Row(src.View(), a, k)|
  {
    hide ArraysTied;
    ArrayRow(src.arrays, src.rows, a, k);
    RowIs(src.View(), a, k);
    n := |src.arrays[a].queue[k]|;
  }

  lemma {:induction false} ScanSkips(s: Sched, allowed: set<Id>, decay: int, a: Arr, k: nat, idx: nat)
    requires k <= idx <= MAX_PRIO && forall j :: k <= j < idx ==> Row(s, a, j) == []
    ensures ScanFrom(s, allowed, decay, a, k) == ScanFrom(s, allowed, decay, a, idx)
    decreases idx - k
  {
    if k < idx {
      ScanSkips(s, allowed, decay, a, k + 1, idx);
    }
  }

  /** The next row with a task. */
  method NextRow(src: Runqueue, a: Arr, k: nat, ghost dst: Runqueue, ghost q: Pair, ghost moved: seq<Id>) returns (idx: nat)
    requires Tracks(dst, src, q, moved) && k <= MAX_PRIO
    ensures k <= idx <= MAX_PRIO
    ensures forall j :: k <= j < idx ==> Row(src.View(), a, j) == []
  {
    hide ArraysTied, InvNoCurr, Pull, PullAll, AllMovable;
    ArrayRow(src.arrays, src.rows, a, 0);
    idx := FindNextBit(src.arrays[a].bitmap, k);
    forall j | k <= j < idx
      ensures Row(src.View(), a, j) == []
    {
      ArrayRow(src.arrays, src.rows, a, j);
      RowIs(src.View(), a, j);
    }
  }

  /** The walk over the rows of one array. */
  method WalkArray(dst: Runqueue, src: Runqueue, a: Arr, left: nat, allowed: set<Id>, decay: int,
                   ghost q: Pair, ghost moved: seq<Id>)
    returns (left': nat, ghost moved': seq<Id>, ghost rest: seq<Id>)
    requires Tracks(dst, src, q, moved) && (a == A0 || a == A1) && left > 0
    requires forall k :: 0 <= k < MAX_PRIO ==> Row(src.View(), a, k) == Row(q.src, a, k)
    modifies dst`arrays, dst`rows, dst`tasks, dst`nrRunning, dst`idleResched
    modifies src`arrays, src`rows, src`tasks, src`nrRunning
    ensures Tracks(dst, src, q, moved')
    ensures moved' + rest == moved + ScanFrom(q.src, allowed, decay, a, 0)
    ensures left' + |moved'| == left + |moved| && (left' > 0 ==> rest == [])
    ensures forall b, j :: b != a ==> Row(src.View(), b, j) == old(Row(src.View(), b, j))
  {
    hide Tracks, CanMigrate, Row, ScanRow, ScanFrom;
    ScanEnd(q.src, allowed, decay, a);
    var idx: nat := 0;
    left', moved', rest := left, moved, [];
    while idx < MAX_PRIO
      invariant idx <= MAX_PRIO
      invariant Tracks(dst, src, q, moved')
      invariant forall k :: idx <= k < MAX_PRIO ==> Row(src.View(), a, k) == Row(q.src, a, k)
      invariant moved' + ScanFrom(q.src, allowed, decay, a, idx) == moved + ScanFrom(q.src, allowed, decay, a, 0)
      invariant left' + |moved'| == left + |moved| && left' > 0 && rest == []
      invariant forall b, j :: b != a ==> Row(src.View(), b, j) == old(Row(src.View(), b, j))
      decreases MAX_PRIO - idx
    {
      var from := idx;
      idx := NextRow(src, a, from, dst, q, moved');
      forall j | from <= j < idx
        ensures Row(q.src, a, j) == []
      {
        assert Row(src.View(), a, j) == Row(q.src, a, j);
      }
      ScanSkips(q.src, allowed, decay, a, from, idx);
      if idx == MAX_PRIO {
        break;
      }
      ghost var before := moved';
      left', moved', rest := WalkRow(dst, src, a, idx, left', allowed, decay, q, moved');
      ScanUnfold(q.src, allowed, decay, a, idx);
      ghost var later := ScanFrom(q.src, allowed, decay, a, idx + 1);
      Regroup(before, ScanRow(q.src, allowed, decay, Row(q.src, a, idx)), moved', rest, later);
      if left' == 0 {
        rest := rest + later;
        return;
      }
      idx := idx + 1;
    }
  }

  lemma Regroup(a: seq<Id>, b: seq<Id>, c: seq<Id>, d: seq<Id>, later: seq<Id>)
    requires a + b == c + d
    ensures a + (b + later) == c + (d + later)
  {
    assert a + (b + later) == (a + b) + later;
    assert c + (d + later) == (c + d) + later;
  }

  lemma ScanEnd(s: Sched, allowed: set<Id>, decay: int, a: Arr)
    ensures ScanFrom(s, allowed, decay, a, MAX_PRIO) == []
  {
  }

  lemma ScanUnfold(s: Sched, allowed: set<Id>, decay: int, a: Arr, k: nat)
    requires k < MAX_PRIO
    ensures ScanFrom(s, allowed, decay, a, k) ==
            ScanRow(s, allowed, decay, Row(s, a, k)) + ScanFrom(s, allowed, decay, a, k + 1)
  {
  }

  /** Pull the first `quota` candidates. */
  method PullTasks(dst: Runqueue, src: Runqueue, quota: nat, allowed: set<Id>, decay: int)
    requires dst != src && Locked(dst) && Locked(src) && PairOk(Pair(src.View(), dst.View())) && quota > 0
    modifies dst`arrays, dst`rows, dst`tasks, dst`nrRunning, dst`idleResched
    modifies src`arrays, src`rows, src`tasks, src`nrRunning
    ensures Locked(dst) && Locked(src)
    ensures var q := old(Pair(src.View(), dst.View()));
            AllMovable(q, Take(Candidates(q.src, allowed, decay), quota)) &&
            Pair(src.View(), dst.View()) == PullAll(q, Take(Candidates(q.src, allowed, decay), quota))
  {
    hide Locked, InvNoCurr, ScanFrom, CanMigrate, Row, AllMovable, PullAll;
    ghost var q := Pair(src.View(), dst.View());
    NothingMoved(q);
    ghost var c := Candidates(q.src, allowed, decay);
    var left := quota;
    ghost var moved: seq<Id>, rest: seq<Id> := [], [];
    var first := FirstArray(src, dst, q);
    var expired, active := src.expired, src.active;
    if first == expired {
      left, moved, rest := WalkArray(dst, src, expired, left, allowed, decay, q, moved);
    } else {
      NoExpired(q.src, allowed, decay);
    }
    ghost var second: seq<Id> := ScanFrom(q.src, allowed, decay, active, 0);
    Regroup([], ScanFrom(q.src, allowed, decay, expired, 0), moved, rest, second);
    assert moved + (rest + second) == c;
    if left > 0 {
      left, moved, rest := WalkArray(dst, src, active, left, allowed, decay, q, moved);
    } else {
      rest := rest + second;
    }
    TakeIs(c, quota, moved, rest);
  }

  lemma NothingMoved(q: Pair)
    ensures AllMovable(q, []) && PullAll(q, []) == q
  {
  }

  lemma NoExpired(s: Sched, allowed: set<Id>, decay: int)
    requires forall k :: 0 <= k < MAX_PRIO ==> Row(s, Expired(s), k) == []
    ensures ScanFrom(s, allowed, decay, Expired(s), 0) == []
  {
    ScanSkips(s, allowed, decay, Expired(s), 0, MAX_PRIO);
    ScanEnd(s, allowed, decay, Expired(s));
  }

  /** A list of the quota's length, or of all candidates, that is a prefix of them is what Take takes. */
  lemma TakeIs(c: seq<Id>, n: nat, moved: seq<Id>, rest: seq<Id>)
    requires moved + rest == c && |moved| <= n && (|moved| < n ==> rest == [])
    ensures Take(c, n) == moved
  {
  }

  /** The array load_balance starts with: expired, if anything has expired. */
  method FirstArray(src: Runqueue, ghost dst: Runqueue, ghost q: Pair) returns (a: Arr)
    requires dst != src && Locked(dst) && Locked(src) && q == Pair(src.View(), dst.View())
    ensures a == src.expired || a == src.active
    ensures a != src.expired ==> forall k :: 0 <= k < MAX_PRIO ==> Row(q.src, Expired(q.src), k) == []
    ensures src.expired == Expired(q.src) && src.active == q.src.active && {src.active, src.expired} == {A0, A1}
  {
    ArrayRow(src.arrays, src.rows, src.expired, 0);
    if src.arrays[src.expired].nrActive != 0 {
      a := src.expired;
    } else {
      a := src.active;
      TotalZero(src.arrays[src.expired].queue, MAX_PRIO);
      forall k | 0 <= k < MAX_PRIO
        ensures Row(q.src, Expired(q.src), k) == []
      {
        ArrayRow(src.arrays, src.rows, src.expired, k);
        RowIs(q.src, src.expired, k);
      }
    }
  }

  // ---------------------------------------------------------------- the search for the busiest processor

  /** The loop over all processors; it also records the lengths seen. */
  method FindBusiest(idle: bool, lens: seq<int>, prev: seq<int>, me: nat)
    returns (b: Option<nat>, maxLoad: int, prev': seq<int>)
    requires |lens| == |prev|
    ensures IsBusiest(idle, lens, prev, me, b, maxLoad) && prev' == lens
  {
    b, maxLoad, prev' := None, 1, prev;
    var i := 0;
    while i < |lens|
      invariant 0 <= i <= |lens| && |prev'| == |lens|
      invariant forall j :: 0 <= j < i ==> prev'[j] == lens[j]
      invariant forall j :: i <= j < |lens| ==> prev'[j] == prev[j]
      invariant maxLoad >= 1 && (b == None <==> maxLoad == 1)
      invariant b.Some? ==> b.value < i && b.value != me && maxLoad == LoadOf(idle, lens[b.value], prev[b.value])
      invariant b.Some? ==> forall j :: 0 <= j < b.value && j != me ==> LoadOf(idle, lens[j], prev[j]) < maxLoad
      invariant forall j :: 0 <= j < i && j != me ==> LoadOf(idle, lens[j], prev[j]) <= maxLoad
    {
      var load := if idle || lens[i] < prev'[i] then lens[i] else prev'[i];
      prev' := prev'[i := lens[i]];
      if load > maxLoad && i != me {
        b := Some(i);
        maxLoad := load;
      }
      i := i + 1;
    }
  }

  // ---------------------------------------------------------------- load_balance

  function Lengths(rqs: seq<Runqueue>): (lens: seq<int>)
    reads rqs
    ensures |lens| == |rqs| && forall i :: 0 <= i < |rqs| ==> lens[i] == rqs[i].nrRunning
  {
    if rqs == [] then [] else Lengths(rqs[..|rqs| - 1]) + [rqs[|rqs| - 1].nrRunning]
  }

  /** The processor to pull from and the number of tasks to pull at most. */
  ghost predicate Decided(idle: bool, lens: seq<int>, prev: seq<int>, me: nat, b: Option<nat>, quota: nat)
    requires |lens| == |prev| && me < |lens|
  {
    exists maxLoad ::
      && IsBusiest(idle, lens, prev, me, b, maxLoad)
      && quota == if b == None then 0 else Quota(idle, maxLoad, OwnLoad(idle, lens[me], prev[me]), lens[b.value])
  }

  method Decide(idle: bool, lens: seq<int>, prev: seq<int>, me: nat) returns (b: Option<nat>, quota: nat, prev': seq<int>)
    requires |lens| == |prev| && me < |lens|
    ensures Decided(idle, lens, prev, me, b, quota) && RightQuota(idle, lens, prev, me, b, quota) && prev' == lens
  {
    hide IsBusiest, RightQuota;
    var own := if idle || lens[me] > prev[me] then lens[me] else prev[me];
    var maxLoad;
    b, maxLoad, prev' := FindBusiest(idle, lens, prev, me);
    QuotaIsRight(idle, lens, prev, me, b, maxLoad);
    quota := 0;
    if b == None {
      return;
    }
    BusiestInRange(idle, lens, prev, me, b, maxLoad);
    var imbalance := TruncDiv(maxLoad - own, 2);
    if !idle && imbalance < (maxLoad + 3) / 4 {
      return;
    }
    if lens[b.value] <= own + 1 {
      return;
    }
    quota := if idle then 1 else imbalance;
  }

  lemma BusiestInRange(idle: bool, lens: seq<int>, prev: seq<int>, me: nat, b: Option<nat>, maxLoad: int)
    requires |lens| == |prev| && IsBusiest(idle, lens, prev, me, b, maxLoad) && b.Some?
    ensures b.value < |lens| && b.value != me && maxLoad > 1
  {
  }

  /** All runqueues are consistent, share the clock and have no task in common. */
  ghost predicate Machine(rqs: seq<Runqueue>)
    reads rqs
  {
    && (forall i :: 0 <= i < |rqs| ==> Locked(rqs[i]) && |rqs[i].prevNrRunning| == |rqs|)
    && (forall i, j :: 0 <= i < |rqs| && 0 <= j < |rqs| && i != j ==>
          rqs[i] != rqs[j] && rqs[i].jiffies == rqs[j].jiffies && rqs[i].tasks.Keys !! rqs[j].tasks.Keys)
  }

  /** What a balance does to the two runqueues: both stay consistent, no task is lost or duplicated,
      only candidates move, at most one when idle and at most the imbalance when busy, and this queue
      does not end up longer than the one pulled from. */
  ghost predicate Balanced(q: Pair, q': Pair, pulled: seq<Id>, idle: bool, quota: nat, allowed: set<Id>, decay: int) {
    && PairOk(q')
    && NrRunning(q'.src) + NrRunning(q'.dst) == NrRunning(q.src) + NrRunning(q.dst)
    && q'.src.tasks.Keys + q'.dst.tasks.Keys == q.src.tasks.Keys + q.dst.tasks.Keys
    && (forall p :: p in pulled ==> CanMigrate(q.src, allowed, decay, p) && q.src.tasks[p].policy == Other)
    && |pulled| == Min(quota, |Candidates(q.src, allowed, decay)|)
    && (idle ==> |pulled| <= 1)
    && (pulled != [] ==> NrRunning(q'.dst) <= NrRunning(q'.src))
  }

  /** A busy balance that finds enough candidates levels two queues of steady length out. */
  ghost predicate Levelled(q': Pair, idle: bool, lens: seq<int>, prev: seq<int>, me: nat, b: nat, enough: bool) {
    !idle && enough && |lens| == |prev| && me < |lens| && b < |lens| && lens[me] == prev[me] && lens[b] == prev[b] ==>
      0 <= NrRunning(q'.src) - NrRunning(q'.dst) <= 1
  }

  /** load_balance(this_rq, idle) on processor `me`, as one atomic step.  `b` is the processor pulled
      from and `quota` how many tasks may be pulled. */
  method Balance(rqs: seq<Runqueue>, me: nat, idle: bool, allowed: set<Id>, decay: int) returns (b: Option<nat>, quota: nat)
    requires me < |rqs| && Machine(rqs)
    modifies rqs
    ensures Machine(rqs)
    ensures Decided(idle, old(Lengths(rqs)), old(rqs[me].prevNrRunning), me, b, quota)
    ensures RightQuota(idle, old(Lengths(rqs)), old(rqs[me].prevNrRunning), me, b, quota)
    ensures rqs[me].prevNrRunning == old(Lengths(rqs))
    ensures quota > 0 ==> b.Some? && b.value < |rqs| && b.value != me
    ensures forall i :: 0 <= i < |rqs| && i != me && (quota == 0 || b != Some(i)) ==> unchanged(rqs[i])
    ensures if quota == 0 then rqs[me].View() == old(rqs[me].View())
            else
              var src := rqs[b.value];
              var q := old(Pair(src.View(), rqs[me].View()));
              var pulled := Take(Candidates(q.src, allowed, decay), quota);
              && AllMovable(q, pulled)
              && Pair(src.View(), rqs[me].View()) == PullAll(q, pulled)
              && Balanced(q, Pair(src.View(), rqs[me].View()), pulled, idle, quota, allowed, decay)
              && Levelled(Pair(src.View(), rqs[me].View()), idle, old(Lengths(rqs)), old(rqs[me].prevNrRunning), me, b.value,
                          |pulled| == quota)
  {
    hide ArraysTied, SumActive, InvNoCurr, IsBusiest, Quota, Candidates, AllMovable, PullAll, Locked, Decided, NrRunning,
      Balanced, Levelled, RightQuota, Lengths, PairOk;
    var target := rqs[me];
    var lens := Lengths(rqs);
    ghost var keys := seq(|rqs|, i requires 0 <= i < |rqs| reads rqs => rqs[i].tasks.Keys);
    var seen;
    b, quota, seen := Decide(idle, lens, target.prevNrRunning, me);
    DecidedInRange(idle, lens, target.prevNrRunning, me, b, quota);
    ghost var prev := target.prevNrRunning;
    Remember(target, seen);
    if quota > 0 {
      var source := rqs[b.value];
      ghost var q := Pair(source.View(), target.View());
      PairOfTwo(source, target);
      BalancedOutcome(q, idle, lens, prev, me, b.value, quota, allowed, decay);
      LevelsOut(q, idle, lens, prev, me, b.value, quota, allowed, decay);
      PullTasks(target, source, quota, allowed, decay);
      BalancedKeys(q, Pair(source.View(), target.View()), Take(Candidates(q.src, allowed, decay), quota),
                   idle, quota, allowed, decay);
      assert source.tasks.Keys !! target.tasks.Keys
             && source.tasks.Keys <= keys[b.value] + keys[me] && target.tasks.Keys <= keys[b.value] + keys[me];
    }
    forall i, j | 0 <= i < |rqs| && 0 <= j < |rqs| && i != j
      ensures rqs[i].tasks.Keys !! rqs[j].tasks.Keys
    {
      assert keys[i] !! keys[j];
    }
  }

  /** The loop over all processors leaves the lengths it saw in prev_nr_running. */
  method Remember(rq: Runqueue, seen: seq<int>)
    requires Locked(rq)
    modifies rq`prevNrRunning
    ensures Locked(rq) && rq.View() == old(rq.View()) && rq.prevNrRunning == seen
  {
    hide ArraysTied, SumActive, InvNoCurr;
    rq.prevNrRunning := seen;
  }

  lemma PairOfTwo(src: Runqueue, dst: Runqueue)
    requires Locked(src) && Locked(dst) && src.jiffies == dst.jiffies && src.tasks.Keys !! dst.tasks.Keys
    ensures PairOk(Pair(src.View(), dst.View()))
    ensures src.nrRunning == NrRunning(src.View()) && dst.nrRunning == NrRunning(dst.View())
  {
    hide ArraysTied, SumActive, NrRunning, InvNoCurr;
    CountIsNrRunning(src.arrays, src.View());
    CountIsNrRunning(dst.arrays, dst.View());
  }

  lemma BalancedKeys(q: Pair, q': Pair, pulled: seq<Id>, idle: bool, quota: nat, allowed: set<Id>, decay: int)
    requires Balanced(q, q', pulled, idle, quota, allowed, decay)
    ensures q'.src.tasks.Keys !! q'.dst.tasks.Keys
    ensures q'.src.tasks.Keys + q'.dst.tasks.Keys == q.src.tasks.Keys + q.dst.tasks.Keys
  {
    hide NrRunning, InvNoCurr, Candidates;
  }

  lemma DecidedInRange(idle: bool, lens: seq<int>, prev: seq<int>, me: nat, b: Option<nat>, quota: nat)
    requires |lens| == |prev| && me < |lens| && Decided(idle, lens, prev, me, b, quota)
    ensures quota > 0 ==> b.Some? && b.value < |lens| && b.value != me
  {
  }

  /** What load_balance promises as a whole, whatever it decides. */
  lemma BalancedOutcome(q: Pair, idle: bool, lens: seq<int>, prev: seq<int>, me: nat, b: nat, quota: nat,
                        allowed: set<Id>, decay: int)
    requires PairOk(q) && |lens| == |prev| && me < |lens| && b < |lens|
    requires lens[me] == NrRunning(q.dst) && lens[b] == NrRunning(q.src)
    requires Decided(idle, lens, prev, me, Some(b), quota)
    ensures var pulled := Take(Candidates(q.src, allowed, decay), quota);
            AllMovable(q, pulled) && Balanced(q, PullAll(q, pulled), pulled, idle, quota, allowed, decay)
  {
    hide PairOk, InvNoCurr, NrRunning, Candidates, AllMovable, PullAll, CanMigrate, IsBusiest;
    PairSource(q);
    var pulled := Take(Candidates(q.src, allowed, decay), quota);
    TakeMovable(q, allowed, decay, quota);
    CandidatesPass(q.src, allowed, decay);
    PullAllKeeps(q, pulled);
    var maxLoad :| IsBusiest(idle, lens, prev, me, Some(b), maxLoad)
                   && quota == Quota(idle, maxLoad, OwnLoad(idle, lens[me], prev[me]), lens[b]);
    BusiestLoad(idle, lens, prev, me, b, maxLoad);
    NoOvershoot(idle, lens[me], prev[me], lens[b], prev[b], |pulled|);
    forall p | p in pulled
      ensures p in Candidates(q.src, allowed, decay)
    {
    }
    assert Elements(pulled) <= q.src.tasks.Keys;
  }

  lemma LevelsOut(q: Pair, idle: bool, lens: seq<int>, prev: seq<int>, me: nat, b: nat, quota: nat,
                  allowed: set<Id>, decay: int)
    requires PairOk(q) && |lens| == |prev| && me < |lens| && b < |lens| && quota > 0
    requires lens[me] == NrRunning(q.dst) && lens[b] == NrRunning(q.src)
    requires RightQuota(idle, lens, prev, me, Some(b), quota)
    ensures var pulled := Take(Candidates(q.src, allowed, decay), quota);
            AllMovable(q, pulled) && Levelled(PullAll(q, pulled), idle, lens, prev, me, b, |pulled| == quota)
  {
    hide PairOk, InvNoCurr, NrRunning, Candidates, AllMovable, PullAll;
    PairSource(q);
    TakeMovable(q, allowed, decay, quota);
    PullAllKeeps(q, Take(Candidates(q.src, allowed, decay), quota));
  }

  lemma PairSource(q: Pair)
    requires PairOk(q)
    ensures InvNoCurr(q.src)
  {
  }

  lemma BusiestLoad(idle: bool, lens: seq<int>, prev: seq<int>, me: nat, b: nat, maxLoad: int)
    requires |lens| == |prev| && IsBusiest(idle, lens, prev, me, Some(b), maxLoad)
    ensures b < |lens| && maxLoad == LoadOf(idle, lens[b], prev[b])
  {
  }
}
