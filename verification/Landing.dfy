/** Where load_balance puts the tasks it pulls: their places, their records, and the request to reschedule. */
module Landing {
  import opened Params
  import opened Rows
  import opened SchedModel
  import opened SchedInvariant
  import opened SchedSteps
  import opened Places
  import opened Preempt
  import opened LoadBalance
  import PickOrder

  /** The tasks of the list with priority `k`, in the order of the list. */
  function OnPrio(s: Sched, ps: seq<Id>, k: int): seq<Id> {
    if ps == [] then []
    else (if ps[0] in s.tasks && s.tasks[ps[0]].prio == k then [ps[0]] else []) + OnPrio(s, ps[1..], k)
  }

  function WithoutAll(r: seq<Id>, ps: seq<Id>): seq<Id>
    decreases |ps|
  {
    if ps == [] then r else WithoutAll(Without(r, ps[0]), ps[1..])
  }

  ghost predicate Landed(q: Pair, q': Pair, ps: seq<Id>) {
    && (forall k :: Row(q'.dst, q.dst.active, k) == Row(q.dst, q.dst.active, k) + OnPrio(q.src, ps, k))
    && (forall a, k :: a != q.dst.active ==> Row(q'.dst, a, k) == Row(q.dst, a, k))
    && (forall a, k :: Row(q'.src, a, k) == WithoutAll(Row(q.src, a, k), ps))
  }

  /** Every pulled task keeps its record, and all other records stay. */
  ghost predicate Recorded(q: Pair, q': Pair, ps: seq<Id>) {
    && q'.dst.curr == q.dst.curr && q'.dst.active == q.dst.active
    && (forall p :: p in ps ==>
          p in q.src.tasks && p in q'.dst.tasks && q'.dst.tasks[p] == q.src.tasks[p].(onArr := Some(q.dst.active)))
    && (forall x :: x in q.dst.tasks && x != q.dst.curr ==> x in q'.dst.tasks && q'.dst.tasks[x] == q.dst.tasks[x])
    && (forall x :: x in q'.src.tasks ==> x in q.src.tasks && q'.src.tasks[x] == q.src.tasks[x])
  }

  /** This processor is asked to reschedule exactly if a pulled task is better than the one that runs. */
  ghost predicate AskedByThem(q: Pair, q': Pair, ps: seq<Id>) {
    && CurrPrio(q'.dst) == CurrPrio(q.dst)
    && (Asked(q'.dst) <==> Asked(q.dst) || exists p :: p in ps && p in q.src.tasks && q.src.tasks[p].prio < CurrPrio(q.dst))
  }

  // ---------------------------------------------------------------- one pull

  lemma PullLands(q: Pair, p: Id)
    requires PairOk(q) && Movable(q.src, p)
    ensures var q' := Pull(q, p);
            && (forall k :: Row(q'.dst, q.dst.active, k) ==
                            Row(q.dst, q.dst.active, k) + if q.src.tasks[p].prio == k then [p] else [])
            && (forall a, k :: a != q.dst.active ==> Row(q'.dst, a, k) == Row(q.dst, a, k))
            && (forall a, k :: Row(q'.src, a, k) == Without(Row(q.src, a, k), p))
  {
    hide Without, Queued, TasksOk, NoFork;
    var a := q.src.tasks[p].onArr.value;
    UnlinkedRows(q.src, p, a);
    assert SameRows(Unlink(q.src, p, a), Pull(q, p).src);
  }

  lemma PullRecords(q: Pair, p: Id)
    requires PairOk(q) && Movable(q.src, p)
    ensures var q' := Pull(q, p);
            && q'.dst.curr == q.dst.curr && q'.dst.active == q.dst.active && CurrPrio(q'.dst) == CurrPrio(q.dst)
            && p in q'.dst.tasks && p != q.dst.curr
            && q'.dst.tasks[p] == q.src.tasks[p].(onArr := Some(q.dst.active))
            && (forall x :: x in q.dst.tasks && x != q.dst.curr ==> x in q'.dst.tasks && q'.dst.tasks[x] == q.dst.tasks[x])
            && (forall x :: x in q'.src.tasks ==> x in q.src.tasks && q'.src.tasks[x] == q.src.tasks[x])
            && (Asked(q'.dst) <==> Asked(q.dst) || q.src.tasks[p].prio < CurrPrio(q.dst))
  {
    hide Without, Queued;
    assert p != IDLE;
  }

  // ---------------------------------------------------------------- all pulls

  lemma MovableIn(s: Sched, p: Id)
    requires Movable(s, p)
    ensures p in s.tasks
  {
  }

  lemma {:induction false} AllIn(q: Pair, ps: seq<Id>)
    requires PairOk(q) && AllMovable(q, ps)
    ensures forall p :: p in ps ==> p in q.src.tasks
    decreases |ps|
  {
    hide PairOk, Pull, Movable;
    if ps != [] {
      MovableIn(q.src, ps[0]);
      PullKeeps(q, ps[0]);
      PullRecords(q, ps[0]);
      AllIn(Pull(q, ps[0]), ps[1..]);
      assert ps == [ps[0]] + ps[1..];
    }
  }

  lemma {:induction false} SamePrios(s: Sched, s': Sched, ps: seq<Id>, k: int)
    requires forall p :: p in ps ==> p in s.tasks && p in s'.tasks && s.tasks[p].prio == s'.tasks[p].prio
    ensures OnPrio(s, ps, k) == OnPrio(s', ps, k)
  {
    if ps != [] {
      SamePrios(s, s', ps[1..], k);
    }
  }

  /** The tasks still to be pulled have the records they had. */
  lemma RestOnPrio(q: Pair, ps: seq<Id>, k: int)
    requires PairOk(q) && ps != [] && AllMovable(q, ps)
    ensures OnPrio(q.src, ps, k) ==
            (if q.src.tasks[ps[0]].prio == k then [ps[0]] else []) + OnPrio(Pull(q, ps[0]).src, ps[1..], k)
  {
    hide PairOk, Pull;
    PullKeeps(q, ps[0]);
    PullRecords(q, ps[0]);
    AllIn(Pull(q, ps[0]), ps[1..]);
    SamePrios(Pull(q, ps[0]).src, q.src, ps[1..], k);
  }

  lemma NothingLands(q: Pair)
    ensures Landed(q, q, []) && Recorded(q, q, []) && AskedByThem(q, q, [])
  {
    forall k
      ensures Row(q.dst, q.dst.active, k) + OnPrio(q.src, [], k) == Row(q.dst, q.dst.active, k)
    {
    }
  }

  /** Pulled tasks stand at the tails of their rows in the active array, in the order in which they were
      pulled; the rows they leave, and all other rows, keep their order. */
  lemma {:induction false} PulledLand(q: Pair, ps: seq<Id>)
    requires PairOk(q) && AllMovable(q, ps)
    ensures Landed(q, PullAll(q, ps), ps)
    decreases |ps|
  {
    hide PairOk, Pull, Without, Row, Movable;
    if ps == [] {
      NothingLands(q);
    } else {
      var q1 := Pull(q, ps[0]);
      PullLands(q, ps[0]);
      PullRecords(q, ps[0]);
      PullKeeps(q, ps[0]);
      PulledLand(q1, ps[1..]);
      forall k
        ensures Row(PullAll(q, ps).dst, q.dst.active, k) == Row(q.dst, q.dst.active, k) + OnPrio(q.src, ps, k)
      {
        RestOnPrio(q, ps, k);
      }
    }
  }

  lemma {:induction false} PulledKeep(q: Pair, ps: seq<Id>)
    requires PairOk(q) && AllMovable(q, ps)
    ensures Recorded(q, PullAll(q, ps), ps)
    decreases |ps|
  {
    hide PairOk, Pull, Asked, CurrPrio, Movable, Landed, AskedByThem, Recorded;
    if ps == [] {
      NothingLands(q);
    } else {
      var q1 := Pull(q, ps[0]);
      MovableIn(q.src, ps[0]);
      PullRecords(q, ps[0]);
      PullKeeps(q, ps[0]);
      AllIn(q1, ps[1..]);
      PulledKeep(q1, ps[1..]);
      RecordedThen(q, q1, PullAll(q, ps), ps[0], ps[1..]);
      assert ps == [ps[0]] + ps[1..];
    }
  }

  lemma RecordedThen(q: Pair, q1: Pair, q': Pair, p: Id, rest: seq<Id>)
    requires p in q.src.tasks && p in q1.dst.tasks && p != q.dst.curr
    requires q1.dst.curr == q.dst.curr && q1.dst.active == q.dst.active
    requires q1.dst.tasks[p] == q.src.tasks[p].(onArr := Some(q.dst.active))
    requires forall x :: x in q.dst.tasks && x != q.dst.curr ==> x in q1.dst.tasks && q1.dst.tasks[x] == q.dst.tasks[x]
    requires forall x :: x in q1.src.tasks ==> x in q.src.tasks && q1.src.tasks[x] == q.src.tasks[x]
    requires Recorded(q1, q', rest) && forall x :: x in rest ==> x in q1.src.tasks
    ensures Recorded(q, q', [p] + rest)
  {
  }

  lemma {:induction false} PulledAsk(q: Pair, ps: seq<Id>)
    requires PairOk(q) && AllMovable(q, ps)
    ensures AskedByThem(q, PullAll(q, ps), ps)
    decreases |ps|
  {
    hide PairOk, Pull, Asked, CurrPrio, Movable, Landed, Recorded;
    if ps == [] {
      NothingLands(q);
    } else {
      var q1 := Pull(q, ps[0]);
      MovableIn(q.src, ps[0]);
      PullRecords(q, ps[0]);
      PullKeeps(q, ps[0]);
      AllIn(q1, ps[1..]);
      PulledAsk(q1, ps[1..]);
      assert ps == [ps[0]] + ps[1..];
    }
  }

  // ---------------------------------------------------------------- which tasks are tried first

  /** load_balance tries `x` before `y`: expired tasks before active ones, then better priorities, then from
      the tail of a row. */
  ghost predicate TriedBefore(s: Sched, x: Id, y: Id) {
    x in s.tasks && y in s.tasks
    && var t, u := s.tasks[x], s.tasks[y];
       if t.onArr != u.onArr then t.onArr == Some(Expired(s))
       else if t.prio != u.prio then t.prio < u.prio
       else t.onArr.Some? && PickOrder.Ahead(Row(s, t.onArr.value, t.prio), y, x)
  }

  ghost predicate InOrder(s: Sched, c: seq<Id>) {
    forall i, j :: 0 <= i < j < |c| ==> TriedBefore(s, c[i], c[j])
  }

  /** The list goes through the row from the tail. */
  ghost predicate Backwards(r: seq<Id>, c: seq<Id>) {
    forall i, j :: 0 <= i < j < |c| ==> PickOrder.Ahead(r, c[j], c[i])
  }

  lemma {:induction false} ScanRowOrder(s: Sched, allowed: set<Id>, decay: int, r: seq<Id>)
    ensures forall x :: x in ScanRow(s, allowed, decay, r) ==> x in r
    ensures Backwards(r, ScanRow(s, allowed, decay, r))
    decreases |r|
  {
    hide CanMigrate, PickOrder.Ahead;
    if r != [] {
      var init := r[..|r| - 1];
      var last := r[|r| - 1];
      assert r == init + [last];
      ScanRowOrder(s, allowed, decay, init);
      var c, d := ScanRow(s, allowed, decay, r), ScanRow(s, allowed, decay, init);
      var m := |c| - |d|;
      forall i, j | 0 <= i < j < |c|
        ensures PickOrder.Ahead(r, c[j], c[i])
      {
        assert c[j] == d[j - m] && c[j] in init;
        if i < m {
          AheadOfLast(init, c[j], last);
        } else {
          assert c[i] == d[i - m];
          AheadLonger(init, last, c[j], c[i]);
        }
      }
    }
  }

  lemma AheadOfLast(r: seq<Id>, x: Id, last: Id)
    requires x in r
    ensures PickOrder.Ahead(r + [last], x, last)
  {
    var i :| 0 <= i < |r| && r[i] == x;
    assert (r + [last])[i] == x && (r + [last])[|r|] == last;
  }

  lemma AheadLonger(r: seq<Id>, last: Id, x: Id, y: Id)
    requires PickOrder.Ahead(r, x, y)
    ensures PickOrder.Ahead(r + [last], x, y)
  {
    var i, j :| 0 <= i < j < |r| && r[i] == x && r[j] == y;
    assert (r + [last])[i] == x && (r + [last])[j] == y;
  }

  lemma {:induction false} ScanFromOrder(s: Sched, allowed: set<Id>, decay: int, a: Arr, k: nat)
    requires InvNoCurr(s) && k <= MAX_PRIO
    ensures var c := ScanFrom(s, allowed, decay, a, k);
            && (forall x :: x in c ==> x in s.tasks && s.tasks[x].onArr == Some(a) && s.tasks[x].prio >= k)
            && InOrder(s, c)
    decreases MAX_PRIO - k
  {
    hide CanMigrate, InvNoCurr, PickOrder.Ahead;
    if k < MAX_PRIO {
      var r := Row(s, a, k);
      RowMembers(s, a, k);
      ScanRowOrder(s, allowed, decay, r);
      ScanFromOrder(s, allowed, decay, a, k + 1);
      var c, d := ScanRow(s, allowed, decay, r), ScanFrom(s, allowed, decay, a, k + 1);
      forall i, j | 0 <= i < j < |c|
        ensures TriedBefore(s, c[i], c[j])
      {
        assert c[i] in c && c[j] in c && PickOrder.Ahead(r, c[j], c[i]);
      }
      forall i, j | 0 <= i < |c| && 0 <= j < |d|
        ensures TriedBefore(s, c[i], d[j])
      {
        assert c[i] in c && d[j] in d;
      }
      OrderConcat(s, c, d);
    }
  }

  lemma OrderConcat(s: Sched, c: seq<Id>, d: seq<Id>)
    requires InOrder(s, c) && InOrder(s, d)
    requires forall i, j :: 0 <= i < |c| && 0 <= j < |d| ==> TriedBefore(s, c[i], d[j])
    ensures InOrder(s, c + d)
  {
    hide TriedBefore;
  }

  /** The candidates stand in the order in which they are tried. */
  lemma CandidateOrder(s: Sched, allowed: set<Id>, decay: int)
    requires InvNoCurr(s)
    ensures InOrder(s, Candidates(s, allowed, decay))
  {
    hide CanMigrate, PickOrder.Ahead, ScanFrom, Queued, TasksOk, NoFork;
    var c, d := ScanFrom(s, allowed, decay, Expired(s), 0), ScanFrom(s, allowed, decay, s.active, 0);
    ScanFromOrder(s, allowed, decay, Expired(s), 0);
    ScanFromOrder(s, allowed, decay, s.active, 0);
    forall i, j | 0 <= i < |c| && 0 <= j < |d|
      ensures TriedBefore(s, c[i], d[j])
    {
      assert c[i] in c && d[j] in d;
    }
    OrderConcat(s, c, d);
  }
}
