/** get_pid: the pair (last_pid, next_safe) as a cache that agrees with a full scan of the tasks. */
module GetPid {
  import opened Params

  /** The four identifiers of a task that get_pid looks at. */
  datatype Ids = Ids(pid: int, pgrp: int, tgid: int, session: int)

  predicate Uses(t: Ids, x: int) {
    t.pid == x || t.pgrp == x || t.tgid == x || t.session == x
  }

  ghost predicate InUse(tasks: seq<Ids>, x: int) {
    exists i :: 0 <= i < |tasks| && Uses(tasks[i], x)
  }

  /** No identifier in use lies strictly between last_pid and next_safe. */
  ghost predicate Gap(tasks: seq<Ids>, lastPid: int, nextSafe: int) {
    forall x :: lastPid < x < nextSafe ==> !InUse(tasks, x)
  }

  /** next_safe is not lower than it must be: it is the limit or an identifier in use. */
  ghost predicate Tight(tasks: seq<Ids>, nextSafe: int) {
    nextSafe == PID_MAX || InUse(tasks, nextSafe)
  }

  /** The position of the first task that uses `x`, or the number of tasks. */
  function FirstUser(tasks: seq<Ids>, x: int): (i: nat)
    ensures i <= |tasks| && (i < |tasks| ==> Uses(tasks[i], x))
    ensures forall j :: 0 <= j < i ==> !Uses(tasks[j], x)
    ensures i < |tasks| <==> InUse(tasks, x)
  {
    if tasks == [] then 0 else if Uses(tasks[0], x) then 0 else
      assert tasks == [tasks[0]] + tasks[1..];
      assert InUse(tasks[1..], x) <==> InUse(tasks, x) by { InUseTail(tasks, x); }
      1 + FirstUser(tasks[1..], x)
  }

  lemma InUseTail(tasks: seq<Ids>, x: int)
    requires tasks != [] && !Uses(tasks[0], x)
    ensures InUse(tasks[1..], x) <==> InUse(tasks, x)
  {
    if InUse(tasks[1..], x) {
      var i :| 0 <= i < |tasks[1..]| && Uses(tasks[1..][i], x);
      assert Uses(tasks[i + 1], x);
    }
    if InUse(tasks, x) {
      var i :| 0 <= i < |tasks| && Uses(tasks[i], x);
      assert Uses(tasks[1..][i - 1], x);
    }
  }

  /** A failed search that began at `begin` leaves a true cache.  It depends on the order of the tasks:
      the scan that ended at `begin - 1` must have met `begin + 1`, and must not have met `begin`. */
  ghost predicate FailureKeepsGap(tasks: seq<Ids>, begin: int) {
    || begin == PID_MAX - 1
    || (&& begin > RESERVED_PIDS
        && FirstUser(tasks, begin + 1) < FirstUser(tasks, begin - 1) <= FirstUser(tasks, begin))
  }

  /** next_safe is exactly as low as the first `deep` tasks make it. */
  ghost predicate Seen(tasks: seq<Ids>, lastPid: int, nextSafe: int, deep: nat) {
    && (forall x :: lastPid < x < nextSafe ==> FirstUser(tasks, x) >= deep)
    && (nextSafe == PID_MAX || FirstUser(tasks, nextSafe) < deep)
  }

  /** The mask of get_pid is the comparison with PID_MAX. */
  lemma MaskIsLimit(x: bv32)
    ensures (x & 0xffff8000) != 0 <==> x >= 0x8000
  {
  }

  /** The identifier tried after `x`. */
  function CycNext(x: int): int {
    if x + 1 >= PID_MAX then RESERVED_PIDS else x + 1
  }

  /** The n-th identifier tried in a search that begins at `begin`. */
  function Tried(begin: int, n: nat): int {
    if n == 0 then begin else CycNext(Tried(begin, n - 1))
  }

  /** All identifiers tried before the n-th are in use. */
  ghost predicate AllUsed(tasks: seq<Ids>, begin: int, n: nat) {
    forall m: nat {:trigger Tried(begin, m)} :: 1 <= m < n ==> InUse(tasks, Tried(begin, m)) && Tried(begin, m) != begin
  }

  /** `pid` is the first free identifier in the order in which they are tried. */
  ghost predicate FirstFree(tasks: seq<Ids>, begin: int, pid: int) {
    !InUse(tasks, pid) && exists n: nat :: n >= 1 && Tried(begin, n) == pid && AllUsed(tasks, begin, n)
  }

  /** Every identifier a search could return is in use, except perhaps the one it begins at. */
  ghost predicate Exhausted(tasks: seq<Ids>, begin: int) {
    forall x :: RESERVED_PIDS <= x < PID_MAX && x != begin ==> InUse(tasks, x)
  }

  /** A search that begins at `begin` can end: it comes back to `begin`, or it meets a free identifier. */
  ghost predicate CanEnd(tasks: seq<Ids>, begin: int) {
    begin >= RESERVED_PIDS || exists x :: (begin < x || RESERVED_PIDS <= x) && x < PID_MAX && !InUse(tasks, x)
  }

  /** Steps from `x` forward to `target`. */
  function Distance(x: int, target: int): int {
    if x <= target then target - x else PID_MAX - x + target - RESERVED_PIDS
  }

  lemma {:induction false} TriedUp(begin: int, n: nat)
    requires 0 <= begin && begin + n < PID_MAX
    ensures Tried(begin, n) == begin + n
  {
    if n > 0 {
      TriedUp(begin, n - 1);
    }
  }

  lemma {:induction false} TriedWrapped(begin: int, n: nat)
    requires RESERVED_PIDS <= begin < PID_MAX
    requires PID_MAX - begin <= n <= PID_MAX - RESERVED_PIDS
    ensures Tried(begin, n) == RESERVED_PIDS + n - (PID_MAX - begin)
    decreases n
  {
    if n == PID_MAX - begin {
      TriedUp(begin, n - 1);
    } else {
      TriedWrapped(begin, n - 1);
    }
  }

  /** A search that comes back to where it began has tried every identifier in between. */
  lemma ReturnMeansExhausted(tasks: seq<Ids>, begin: int, n: nat)
    requires RESERVED_PIDS <= begin < PID_MAX && n >= 1 && Tried(begin, n) == begin && AllUsed(tasks, begin, n)
    ensures Exhausted(tasks, begin)
  {
    var size := PID_MAX - RESERVED_PIDS;
    forall x | RESERVED_PIDS <= x < PID_MAX && x != begin
      ensures InUse(tasks, x)
    {
      var m := if x > begin then x - begin else PID_MAX - begin + x - RESERVED_PIDS;
      if x > begin {
        TriedUp(begin, m);
      } else {
        TriedWrapped(begin, m);
      }
      if n <= m {
        // the search came back too early for its own order
        if n < PID_MAX - begin {
          TriedUp(begin, n);
        } else {
          TriedWrapped(begin, n);
        }
        assert false;
      }
      assert Tried(begin, m) == x;
    }
  }

  /** The other direction: if all but the first identifier are in use, nothing the search tries is free. */
  lemma {:induction false} ExhaustedStaysUsed(tasks: seq<Ids>, begin: int, n: nat)
    requires RESERVED_PIDS <= begin < PID_MAX && Exhausted(tasks, begin) && n >= 1
    ensures RESERVED_PIDS <= Tried(begin, n) < PID_MAX
    ensures Tried(begin, n) == begin || InUse(tasks, Tried(begin, n))
  {
    if n > 1 {
      ExhaustedStaysUsed(tasks, begin, n - 1);
    }
  }

  /** When the search cannot end it tries forever: every identifier it comes to is in use and none is
      the one it began at.  So `CanEnd` is exactly the condition for the scan to end; an answer from the
      cache needs no condition. */
  lemma {:induction false} EndlessSearch(tasks: seq<Ids>, begin: int, n: nat)
    requires 0 <= begin < PID_MAX && !CanEnd(tasks, begin) && n >= 1
    ensures begin < Tried(begin, n) < PID_MAX && InUse(tasks, Tried(begin, n)) && Tried(begin, n) != begin
    decreases n
  {
    if n > 1 {
      EndlessSearch(tasks, begin, n - 1);
    } else {
      assert Tried(begin, 0) == begin;
    }
    assert Tried(begin, n) == CycNext(Tried(begin, n - 1));
    var x := Tried(begin, n);
    assert x < PID_MAX && (begin < x || RESERVED_PIDS <= x);
  }

  // ---------------------------------------------------------------- the allocator

  class PidAllocator {
    var lastPid: int
    var nextSafe: int

    constructor ()
      ensures lastPid == 0 && nextSafe == PID_MAX
    {
      lastPid := 0;
      nextSafe := PID_MAX;
    }

    /** get_pid for a caller with identifier `currentPid`.  Zero means that no identifier is left. */
    method GetPid(tasks: seq<Ids>, clonePid: bool, currentPid: int) returns (pid: int)
      requires 0 <= lastPid < PID_MAX && nextSafe <= PID_MAX
      requires !clonePid && lastPid + 1 >= nextSafe ==> CanEnd(tasks, lastPid)
      modifies this
      ensures 0 <= lastPid < PID_MAX && nextSafe <= PID_MAX
      ensures clonePid ==> pid == currentPid && lastPid == old(lastPid) && nextSafe == old(nextSafe)
      ensures !clonePid && pid != 0 ==> lastPid == pid && 0 < pid
      ensures !clonePid && pid == 0 ==> lastPid == old(lastPid)
      // with a true cache, and always on the slow path
      ensures !clonePid && old(Gap(tasks, lastPid, nextSafe)) && pid != 0 ==>
                FirstFree(tasks, old(lastPid), pid) && Gap(tasks, lastPid, nextSafe)
      ensures !clonePid && pid == 0 ==> old(lastPid) >= RESERVED_PIDS && Exhausted(tasks, old(lastPid))
      ensures !clonePid && old(Gap(tasks, lastPid, nextSafe)) ==>
                (pid == 0 <==> old(lastPid) >= RESERVED_PIDS && Exhausted(tasks, old(lastPid)))
      // what the cache answers without looking, and what a failure leaves behind
      ensures !clonePid && old(lastPid) + 1 < old(nextSafe) ==> pid == old(lastPid) + 1
      ensures !clonePid && old(lastPid) + 1 < old(nextSafe) ==> nextSafe == old(nextSafe)
      ensures !clonePid && old(lastPid) + 1 >= old(nextSafe) && pid != 0 ==> Tight(tasks, nextSafe)
      ensures !clonePid && pid == 0 ==> (Gap(tasks, lastPid, nextSafe) <==> FailureKeepsGap(tasks, old(lastPid)))
    {
      if clonePid {
        return currentPid;
      }
      var begin := lastPid;
      assert Tried(begin, 0) == begin && Tried(begin, 1) == CycNext(begin);
      lastPid := lastPid + 1;
      var over := lastPid >= PID_MAX;
      if over {
        lastPid := RESERVED_PIDS;
      }
      if over || lastPid >= nextSafe {
        pid := SlowPath(tasks, begin);
        return;
      }
      pid := lastPid;
      assert AllUsed(tasks, begin, 1);
      FastIsFirst(tasks, begin, pid);
    }

    /** The four tests that lower next_safe to the nearest identifier of `p` above last_pid. */
    method LowerSafe(p: Ids)
      requires lastPid < nextSafe
      modifies this`nextSafe
      ensures lastPid < nextSafe <= old(nextSafe)
      ensures nextSafe == old(nextSafe) || Uses(p, nextSafe)
      ensures forall x :: lastPid < x < nextSafe ==> !Uses(p, x)
    {
      if p.pid > lastPid && nextSafe > p.pid {
        nextSafe := p.pid;
      }
      if p.pgrp > lastPid && nextSafe > p.pgrp {
        nextSafe := p.pgrp;
      }
      if p.tgid > lastPid && nextSafe > p.tgid {
        nextSafe := p.tgid;
      }
      if p.session > lastPid && nextSafe > p.session {
        nextSafe := p.session;
      }
    }

    /** The scan of all tasks with its restarts, from `inside` on. */
    method SlowPath(tasks: seq<Ids>, begin: int) returns (pid: int)
      requires 0 <= begin < PID_MAX && lastPid == CycNext(begin) && CanEnd(tasks, begin)
      modifies this
      ensures 0 <= lastPid < PID_MAX && nextSafe <= PID_MAX
      ensures pid != 0 ==> lastPid == pid && 0 < pid && FirstFree(tasks, begin, pid) && Gap(tasks, lastPid, nextSafe)
      ensures pid != 0 ==> lastPid < nextSafe && Tight(tasks, nextSafe)
      ensures pid == 0 ==> lastPid == begin && begin >= RESERVED_PIDS && Exhausted(tasks, begin)
      ensures pid != 0 ==> !(begin >= RESERVED_PIDS && Exhausted(tasks, begin))
      ensures pid == 0 ==> (Gap(tasks, lastPid, nextSafe) <==> FailureKeepsGap(tasks, begin))
    {
      hide InUse, Exhausted, Tight, AllUsed, Tried, Gap, FirstFree, CanEnd, Distance, CycNext, Seen, FailureKeepsGap,
        FirstUser, Uses;
      ghost var target := Target(tasks, begin);
      ghost var n: nat := 1;
      SearchStart(tasks, begin);
      nextSafe := PID_MAX;
      ghost var deep: nat := 0;
      NothingSeen(tasks, lastPid);
      var i := 0;
      while i < |tasks|
        invariant 0 <= i <= |tasks|
        invariant n >= 1 && lastPid == Tried(begin, n) && AllUsed(tasks, begin, n) && lastPid != begin
        invariant 0 < lastPid < nextSafe <= PID_MAX
        invariant begin < lastPid || RESERVED_PIDS <= lastPid
        invariant begin < RESERVED_PIDS ==> begin < lastPid
        invariant begin == RESERVED_PIDS ==> lastPid > RESERVED_PIDS
        invariant target < RESERVED_PIDS ==> lastPid <= target
        invariant i <= deep <= FirstUser(tasks, lastPid) && Seen(tasks, lastPid, nextSafe, deep)
        decreases Distance(lastPid, target), |tasks| - i
      {
        var p := tasks[i];
        ghost var nextSafeThen := nextSafe;
        if Uses(p, lastPid) {
          Collision(tasks, i, begin, n);
          DistanceStep(begin, lastPid, target);
          SeenUpTo(tasks, lastPid, i, nextSafe, deep);
          ghost var seenSafe := nextSafe;
          lastPid := lastPid + 1;
          if lastPid >= nextSafe {
            if lastPid >= PID_MAX {
              lastPid := RESERVED_PIDS;
            }
            nextSafe := PID_MAX;
            deep := 0;
            NothingSeen(tasks, lastPid);
          }
          n := n + 1;
          if lastPid == begin {
            ReturnMeansExhausted(tasks, begin, n);
            FailureLeaves(tasks, begin, seenSafe, i, nextSafe);
            return 0;
          }
          i := 0;
          continue;
        }
        LowerSafe(p);
        SeenOneMore(tasks, i, lastPid, nextSafeThen, nextSafe, deep);
        i := i + 1;
        deep := if deep < i then i else deep;
      }
      pid := lastPid;
      AllSeen(tasks, lastPid, nextSafe, deep);
      FoundFirst(tasks, begin, n);
      FreeNotExhausted(tasks, begin, pid);
    }
  }

  /** Where the search must stop at the latest. */
  ghost function Target(tasks: seq<Ids>, begin: int): (x: int)
    requires 0 <= begin < PID_MAX && CanEnd(tasks, begin)
    ensures x < PID_MAX && (begin < x || RESERVED_PIDS <= x) && (x == begin || !InUse(tasks, x))
  {
    if begin >= RESERVED_PIDS then begin
    else var x :| (begin < x || RESERVED_PIDS <= x) && x < PID_MAX && !InUse(tasks, x); x
  }

  /** One step forward brings the search one nearer to its target. */
  lemma DistanceStep(begin: int, x: int, target: int)
    requires 0 <= begin && 0 < x < PID_MAX && target < PID_MAX && x != target
    requires begin < target || RESERVED_PIDS <= target
    requires target < RESERVED_PIDS ==> x <= target
    ensures Distance(CycNext(x), target) == Distance(x, target) - 1 >= 0
    ensures target < RESERVED_PIDS ==> CycNext(x) <= target
  {
  }

  lemma SearchStart(tasks: seq<Ids>, begin: int)
    requires 0 <= begin < PID_MAX
    ensures Tried(begin, 1) == CycNext(begin) && AllUsed(tasks, begin, 1)
    ensures CycNext(begin) == if begin + 1 >= PID_MAX then RESERVED_PIDS else begin + 1
  {
    assert Tried(begin, 0) == begin;
  }

  /** A task that uses the identifier just tried: the search goes on to the next one. */
  lemma Collision(tasks: seq<Ids>, i: nat, begin: int, n: nat)
    requires i < |tasks| && Uses(tasks[i], Tried(begin, n)) && AllUsed(tasks, begin, n) && Tried(begin, n) != begin
    ensures InUse(tasks, Tried(begin, n)) && AllUsed(tasks, begin, n + 1)
    ensures Tried(begin, n + 1) == CycNext(Tried(begin, n))
    ensures CycNext(Tried(begin, n)) == if Tried(begin, n) + 1 >= PID_MAX then RESERVED_PIDS else Tried(begin, n) + 1
  {
    assert InUse(tasks, Tried(begin, n));
  }

  lemma FoundFirst(tasks: seq<Ids>, begin: int, n: nat)
    requires n >= 1 && AllUsed(tasks, begin, n) && !InUse(tasks, Tried(begin, n))
    ensures FirstFree(tasks, begin, Tried(begin, n))
  {
  }

  lemma NothingSeen(tasks: seq<Ids>, lastPid: int)
    ensures Seen(tasks, lastPid, PID_MAX, 0) && FirstUser(tasks, lastPid) >= 0
  {
  }

  /** A collision happens at the first user of last_pid, which is as deep as the search has looked. */
  lemma SeenUpTo(tasks: seq<Ids>, lastPid: int, i: nat, nextSafe: int, deep: nat)
    requires i < |tasks| && Uses(tasks[i], lastPid) && i <= deep <= FirstUser(tasks, lastPid)
    requires Seen(tasks, lastPid, nextSafe, deep)
    ensures i == deep == FirstUser(tasks, lastPid)
    ensures lastPid + 1 < nextSafe ==> Seen(tasks, lastPid + 1, nextSafe, deep) && deep <= FirstUser(tasks, lastPid + 1)
  {
  }

  lemma SeenOneMore(tasks: seq<Ids>, i: nat, lastPid: int, before: int, after: int, deep: nat)
    requires i < |tasks| && i <= deep <= FirstUser(tasks, lastPid) && !Uses(tasks[i], lastPid)
    requires Seen(tasks, lastPid, before, deep)
    requires lastPid < after <= before && (after == before || Uses(tasks[i], after))
    requires forall x :: lastPid < x < after ==> !Uses(tasks[i], x)
    ensures var deeper := if deep < i + 1 then i + 1 else deep;
            deeper <= FirstUser(tasks, lastPid) && Seen(tasks, lastPid, after, deeper)
  {
    hide Uses, FirstUser;
    FirstUserBounds(tasks, i, lastPid);
    FirstUserBounds(tasks, i, after);
    forall x | lastPid < x < after
      ensures FirstUser(tasks, x) >= if deep < i + 1 then i + 1 else deep
    {
      FirstUserBounds(tasks, i, x);
    }
  }

  lemma FirstUserBounds(tasks: seq<Ids>, i: nat, x: int)
    requires i < |tasks|
    ensures Uses(tasks[i], x) ==> FirstUser(tasks, x) <= i
    ensures !Uses(tasks[i], x) ==> FirstUser(tasks, x) != i
  {
  }

  lemma AllSeen(tasks: seq<Ids>, lastPid: int, nextSafe: int, deep: nat)
    requires Seen(tasks, lastPid, nextSafe, deep) && |tasks| <= deep <= FirstUser(tasks, lastPid)
    ensures !InUse(tasks, lastPid) && Gap(tasks, lastPid, nextSafe) && Tight(tasks, nextSafe)
  {
    hide InUse, Uses;
    assert FirstUser(tasks, lastPid) == |tasks|;
    forall x | lastPid < x < nextSafe
      ensures !InUse(tasks, x)
    {
      assert FirstUser(tasks, x) >= deep;
    }
  }

  /** What the failing exit leaves, `seen` being next_safe when the scan met the user of `begin - 1`. */
  lemma FailureLeaves(tasks: seq<Ids>, begin: int, seen: int, deep: nat, nextSafe: int)
    requires RESERVED_PIDS <= begin < PID_MAX && seen <= PID_MAX && Exhausted(tasks, begin)
    requires begin == RESERVED_PIDS ==> nextSafe == PID_MAX
    requires begin > RESERVED_PIDS ==>
               && deep == FirstUser(tasks, begin - 1) && Seen(tasks, begin - 1, seen, deep)
               && begin <= seen && nextSafe == if begin >= seen then PID_MAX else seen
    ensures Gap(tasks, begin, nextSafe) <==> FailureKeepsGap(tasks, begin)
  {
    hide InUse, Exhausted, Gap, FirstUser;
    GapAfterFailure(tasks, begin, nextSafe);
  }

  lemma FreeNotExhausted(tasks: seq<Ids>, begin: int, pid: int)
    requires !InUse(tasks, pid) && 0 < pid < PID_MAX && pid != begin && (begin < pid || RESERVED_PIDS <= pid)
    ensures !(begin >= RESERVED_PIDS && Exhausted(tasks, begin))
  {
  }

  lemma FastIsFirst(tasks: seq<Ids>, begin: int, pid: int)
    requires 0 <= begin && pid == begin + 1 < PID_MAX && AllUsed(tasks, begin, 1)
    ensures !InUse(tasks, pid) ==> FirstFree(tasks, begin, pid) && !(begin >= RESERVED_PIDS && Exhausted(tasks, begin))
  {
    assert Tried(begin, 0) == begin && Tried(begin, 1) == pid;
  }

  // ---------------------------------------------------------------- after a failure

  /** Exactly when the cache is still true after a failed search: when it has nothing left to promise. */
  lemma GapAfterFailure(tasks: seq<Ids>, begin: int, nextSafe: int)
    requires RESERVED_PIDS <= begin < PID_MAX && nextSafe <= PID_MAX && Exhausted(tasks, begin)
    ensures Gap(tasks, begin, nextSafe) <==> nextSafe <= begin + 1
  {
    if nextSafe > begin + 1 {
      assert InUse(tasks, begin + 1);
    }
  }

  /** Two calls with all identifiers in use.  After the failure the next call fails again exactly if
      the failure kept the cache true; otherwise it answers the next identifier without looking, and
      that one is in use. */
  method RetryAfterFailure(a: PidAllocator, tasks: seq<Ids>) returns (first: int, second: int)
    requires RESERVED_PIDS <= a.lastPid < PID_MAX && a.nextSafe <= PID_MAX
    requires Gap(tasks, a.lastPid, a.nextSafe) && Exhausted(tasks, a.lastPid)
    modifies a
    ensures first == 0
    ensures FailureKeepsGap(tasks, old(a.lastPid)) ==> second == 0
    ensures !FailureKeepsGap(tasks, old(a.lastPid)) ==> second == old(a.lastPid) + 1 && InUse(tasks, second)
  {
    hide InUse, Exhausted, Gap, FailureKeepsGap, FirstFree;
    ghost var begin := a.lastPid;
    first := a.GetPid(tasks, false, 0);
    GapAfterFailure(tasks, begin, a.nextSafe);
    second := a.GetPid(tasks, false, 0);
    if !FailureKeepsGap(tasks, begin) {
      NextIsUsed(tasks, begin);
    }
  }

  lemma NextIsUsed(tasks: seq<Ids>, begin: int)
    requires RESERVED_PIDS <= begin < PID_MAX && Exhausted(tasks, begin) && !FailureKeepsGap(tasks, begin)
    ensures begin + 1 < PID_MAX && InUse(tasks, begin + 1)
  {
  }

  /** Such a table exists: one task for every identifier from 301 on. */
  lemma FullTable(tasks: seq<Ids>)
    requires tasks == seq(PID_MAX - RESERVED_PIDS - 1, i => Ids(RESERVED_PIDS + 1 + i, 0, RESERVED_PIDS + 1 + i, 0))
    ensures Exhausted(tasks, RESERVED_PIDS) && Gap(tasks, RESERVED_PIDS, RESERVED_PIDS + 1)
    ensures !FailureKeepsGap(tasks, RESERVED_PIDS)
  {
    forall x | RESERVED_PIDS <= x < PID_MAX && x != RESERVED_PIDS
      ensures InUse(tasks, x)
    {
      assert Uses(tasks[x - RESERVED_PIDS - 1], x);
    }
  }

  // ---------------------------------------------------------------- sequential runs

  datatype PidState = PidState(tasks: seq<Ids>, lastPid: int, nextSafe: int)

  /** What a successful get_pid leaves, by the contract of GetPid. */
  ghost predicate Allocated(s: PidState, pid: int, s': PidState) {
    && FirstFree(s.tasks, s.lastPid, pid) && 0 < pid < PID_MAX
    && s'.lastPid == pid && s'.nextSafe <= PID_MAX && Gap(s.tasks, pid, s'.nextSafe)
  }

  /** A fork without CLONE_PID: pgrp and session are the parent's, tgid is the parent's for a thread. */
  ghost predicate ForkOf(s: PidState, s': PidState, pid: int, i: int, thread: bool) {
    && 0 <= i < |s.tasks| && Allocated(s, pid, s')
    && s'.tasks == s.tasks + [Ids(pid, s.tasks[i].pgrp, if thread then s.tasks[i].tgid else pid, s.tasks[i].session)]
  }

  ghost predicate ForkStep(s: PidState, s': PidState) {
    exists pid, i, thread :: ForkOf(s, s', pid, i, thread)
  }

  /** The identifiers of a fork as do_fork sets them from a successful get_pid, on the state that the
      allocator and the task table stand for. */
  method ForkIds(a: PidAllocator, tasks: seq<Ids>, i: nat, thread: bool) returns (tasks': seq<Ids>, pid: int)
    requires i < |tasks| && PidOk(PidState(tasks, a.lastPid, a.nextSafe))
    requires a.lastPid + 1 >= a.nextSafe ==> CanEnd(tasks, a.lastPid)
    modifies a
    ensures pid == 0 <==> old(a.lastPid) >= RESERVED_PIDS && Exhausted(tasks, old(a.lastPid))
    ensures pid == 0 ==> tasks' == tasks
    ensures pid != 0 ==>
              ForkOf(old(PidState(tasks, a.lastPid, a.nextSafe)), PidState(tasks', a.lastPid, a.nextSafe), pid, i, thread)
  {
    hide CanEnd, FirstFree, Gap, Exhausted;
    ghost var s := PidState(tasks, a.lastPid, a.nextSafe);
    pid := a.GetPid(tasks, false, tasks[i].pid);
    tasks' := tasks;
    if pid != 0 {
      var parent := tasks[i];
      tasks' := tasks + [Ids(pid, parent.pgrp, if thread then parent.tgid else pid, parent.session)];
      assert ForkOf(s, PidState(tasks', a.lastPid, a.nextSafe), pid, i, thread);
    }
  }

  ghost predicate ExitStep(s: PidState, s': PidState) {
    exists i :: 0 <= i < |s.tasks| && s' == s.(tasks := s.tasks[..i] + s.tasks[i + 1..])
  }

  /** setsid, and setpgid to the task's own pid or to a process group in use. */
  ghost predicate RegroupStep(s: PidState, s': PidState) {
    exists i, pgrp, session ::
      && 0 <= i < |s.tasks| && InUse(s.tasks, pgrp) && InUse(s.tasks, session)
      && s' == s.(tasks := s.tasks[i := s.tasks[i].(pgrp := pgrp, session := session)])
  }

  ghost predicate PidStep(s: PidState, s': PidState) {
    ForkStep(s, s') || ExitStep(s, s') || RegroupStep(s, s')
  }

  ghost predicate PidOk(s: PidState) {
    && 0 <= s.lastPid < PID_MAX && s.nextSafe <= PID_MAX
    && Gap(s.tasks, s.lastPid, s.nextSafe)
    && forall i, j :: 0 <= i < j < |s.tasks| ==> s.tasks[i].pid != s.tasks[j].pid
  }

  lemma ForkStepKeeps(s: PidState, s': PidState)
    requires PidOk(s) && ForkStep(s, s')
    ensures PidOk(s')
  {
    var pid, i, thread :| ForkOf(s, s', pid, i, thread);
    forall x | InUse(s'.tasks, x)
      ensures x == pid || InUse(s.tasks, x)
    {
      var k :| 0 <= k < |s'.tasks| && Uses(s'.tasks[k], x);
      if k < |s.tasks| {
        assert s'.tasks[k] == s.tasks[k];
      } else if x != pid {
        assert Uses(s.tasks[i], x);
      }
    }
    forall k | 0 <= k < |s.tasks|
      ensures s.tasks[k].pid != pid
    {
      assert Uses(s.tasks[k], s.tasks[k].pid) && InUse(s.tasks, s.tasks[k].pid);
    }
  }

  lemma ExitStepKeeps(s: PidState, s': PidState)
    requires PidOk(s) && ExitStep(s, s')
    ensures PidOk(s')
  {
    var i :| 0 <= i < |s.tasks| && s' == s.(tasks := s.tasks[..i] + s.tasks[i + 1..]);
    forall x | InUse(s'.tasks, x)
      ensures InUse(s.tasks, x)
    {
      var k :| 0 <= k < |s'.tasks| && Uses(s'.tasks[k], x);
      assert s'.tasks[k] == s.tasks[if k < i then k else k + 1];
    }
  }

  lemma RegroupStepKeeps(s: PidState, s': PidState)
    requires PidOk(s) && RegroupStep(s, s')
    ensures PidOk(s')
  {
    var i, pgrp, session :|
      && 0 <= i < |s.tasks| && InUse(s.tasks, pgrp) && InUse(s.tasks, session)
      && s' == s.(tasks := s.tasks[i := s.tasks[i].(pgrp := pgrp, session := session)]);
    forall x | InUse(s'.tasks, x)
      ensures InUse(s.tasks, x)
    {
      var k :| 0 <= k < |s'.tasks| && Uses(s'.tasks[k], x);
      if x != pgrp && x != session {
        assert Uses(s.tasks[k], x);
      }
    }
  }

  /** In any sequential run without a failed allocation the cache stays true and all live tasks have
      different pids. */
  lemma {:induction false} PidsStayDistinct(trace: seq<PidState>, k: nat)
    requires k < |trace| && PidOk(trace[0])
    requires forall i :: 0 <= i < |trace| - 1 ==> PidStep(trace[i], trace[i + 1])
    ensures PidOk(trace[k])
  {
    hide ForkStep, ExitStep, RegroupStep, PidOk;
    if k > 0 {
      PidsStayDistinct(trace, k - 1);
      var s, s' := trace[k - 1], trace[k - 1 + 1];
      assert PidStep(s, s');
      if ForkStep(s, s') {
        ForkStepKeeps(s, s');
      } else if ExitStep(s, s') {
        ExitStepKeeps(s, s');
      } else {
        RegroupStepKeeps(s, s');
      }
    }
  }
}
