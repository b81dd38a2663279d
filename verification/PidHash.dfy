/** The pid hash, the circular list of all tasks and the sibling chains, as pointers that agree with
    one sequence: the tasks in the order in which they were linked. */
module PidHash {
  import opened Params
  import opened Rows

  const PIDHASH_SZ := 1024

  /** A pointer to a pointer: the place that holds the address of a chain entry. */
  datatype Slot = Bucket(index: nat) | NextOf(task: TaskStruct)

  /** The links of task_struct.  Identifier and parent are set before the task is linked. */
  class TaskStruct {
    const pid: int
    const parent: TaskStruct
    var pidhashNext: TaskStruct?
    var pidhashPprev: Slot
    var nextTask: TaskStruct
    var prevTask: TaskStruct
    var cptr: TaskStruct?
    var ysptr: TaskStruct?
    var osptr: TaskStruct?

    /** init_task: its own parent, alone on the list. */
    constructor Init()
      ensures pid == 0 && parent == this && nextTask == this && prevTask == this && cptr == null
    {
      pid, parent, nextTask, prevTask := 0, this, this, this;
      pidhashNext, pidhashPprev, cptr, ysptr, osptr := null, Bucket(0), null, null, null;
    }

    constructor (pid: int, parent: TaskStruct)
      ensures this.pid == pid && this.parent == parent && cptr == null
    {
      this.pid, this.parent, nextTask, prevTask := pid, parent, this, this;
      pidhashNext, pidhashPprev, cptr, ysptr, osptr := null, Bucket(0), null, null, null;
    }
  }

  /** pid_hashfn on a 32-bit word. */
  function PidHashFn(x: int): (b: nat)
    ensures b < PIDHASH_SZ
  {
    var w := U32(x) as bv32;
    (((w >> 8) ^ w) as int) % PIDHASH_SZ
  }

  /** The mask of pid_hashfn is the remainder. */
  lemma MaskIsRemainder(w: bv32)
    ensures w & 1023 == w % 1024
  {
  }

  // ---------------------------------------------------------------- sequences of tasks

  /** The members of `s` that satisfy `f`, last one first. */
  ghost function Pick(s: seq<TaskStruct>, f: TaskStruct -> bool): (r: seq<TaskStruct>)
    ensures forall t :: t in r ==> t in s
  {
    if s == [] then []
    else (if f(s[|s| - 1]) then [s[|s| - 1]] else []) + Pick(s[..|s| - 1], f)
  }

  ghost function Hashed(b: nat): TaskStruct -> bool {
    (t: TaskStruct) => PidHashFn(t.pid) == b
  }

  ghost function ChildOf(par: TaskStruct): TaskStruct -> bool {
    (t: TaskStruct) => t.parent == par
  }

  lemma {:induction false} PickMembers(s: seq<TaskStruct>, f: TaskStruct -> bool)
    ensures forall t :: t in Pick(s, f) <==> t in s && f(t)
    ensures NoDup(s) ==> NoDup(Pick(s, f))
  {
    if s != [] {
      var front, last := s[..|s| - 1], s[|s| - 1];
      PickMembers(front, f);
      assert s == front + [last];
      assert NoDup(s) ==> last !in front;
    }
  }

  /** A selection keeps the order of linking, turned round: the later linked, the nearer to the front. */
  lemma {:induction false} PickYoungestFirst(s: seq<TaskStruct>, f: TaskStruct -> bool, a: nat, b: nat)
    requires NoDup(s) && a < b < |s| && f(s[a]) && f(s[b])
    ensures exists i, j :: 0 <= i < j < |Pick(s, f)| && Pick(s, f)[i] == s[b] && Pick(s, f)[j] == s[a]
  {
    var front, last := s[..|s| - 1], s[|s| - 1];
    var r := Pick(front, f);
    if b == |s| - 1 {
      PickMembers(front, f);
      assert front[a] in front;
      var j :| 0 <= j < |r| && r[j] == s[a];
      assert Pick(s, f)[0] == s[b] && Pick(s, f)[j + 1] == s[a];
    } else {
      PickYoungestFirst(front, f, a, b);
      var i, j :| 0 <= i < j < |r| && r[i] == s[b] && r[j] == s[a];
      var d := if f(last) then 1 else 0;
      assert Pick(s, f)[i + d] == s[b] && Pick(s, f)[j + d] == s[a];
    }
  }

  lemma {:induction false} PickNone(s: seq<TaskStruct>, f: TaskStruct -> bool)
    requires forall t :: t in s ==> !f(t)
    ensures Pick(s, f) == []
  {
    if s != [] {
      PickNone(s[..|s| - 1], f);
    }
  }

  lemma PickAppend(s: seq<TaskStruct>, t: TaskStruct, f: TaskStruct -> bool)
    ensures Pick(s + [t], f) == (if f(t) then [t] else []) + Pick(s, f)
  {
    assert (s + [t])[..|s|] == s;
  }

  /** Cutting a task out of the list cuts it out of every selection it is in, and only there. */
  lemma {:induction false} PickCut(s: seq<TaskStruct>, k: nat, f: TaskStruct -> bool) returns (j: nat)
    requires k < |s|
    ensures f(s[k]) ==> j < |Pick(s, f)| && Pick(s, f)[j] == s[k] && Pick(CutAt(s, k), f) == CutAt(Pick(s, f), j)
    ensures !f(s[k]) ==> Pick(CutAt(s, k), f) == Pick(s, f)
  {
    var front, last := s[..|s| - 1], s[|s| - 1];
    if k == |s| - 1 {
      assert CutAt(s, k) == front;
      j := 0;
    } else {
      j := PickCut(front, k, f);
      assert CutAt(s, k) == CutAt(front, k) + [last];
      PickAppend(CutAt(front, k), last, f);
      if f(last) {
        j := j + 1;
      }
    }
  }

  // ---------------------------------------------------------------- the three kinds of links

  /** Entry `i` of a chain, or NULL past either end. */
  function Nth(c: seq<TaskStruct>, i: int): TaskStruct? {
    if 0 <= i < |c| then c[i] else null
  }

  /** Entry `i` of the chain of bucket `b`: its link on, and the place that points to it. */
  ghost predicate EntryOk(b: nat, c: seq<TaskStruct>, i: nat)
    requires i < |c|
    reads (set t | t in c)`pidhashNext, (set t | t in c)`pidhashPprev
  {
    && c[i].pidhashNext == Nth(c, i + 1)
    && c[i].pidhashPprev == if i == 0 then Bucket(b) else NextOf(c[i - 1])
  }

  /** Bucket `b` leads through exactly `c`, and every entry knows the place that points to it. */
  ghost predicate ChainOk(h: array<TaskStruct?>, b: nat, c: seq<TaskStruct>)
    reads h, (set t | t in c)`pidhashNext, (set t | t in c)`pidhashPprev
  {
    && b < h.Length && h[b] == Nth(c, 0)
    && forall i :: 0 <= i < |c| ==> EntryOk(b, c, i)
  }

  ghost predicate SiblingOk(c: seq<TaskStruct>, i: nat)
    requires i < |c|
    reads (set t | t in c)`osptr, (set t | t in c)`ysptr
  {
    c[i].osptr == Nth(c, i + 1) && c[i].ysptr == Nth(c, i - 1)
  }

  /** p_cptr and the p_osptr chain lead from `par` through exactly `c`; p_ysptr leads back. */
  ghost predicate SiblingsOk(par: TaskStruct, c: seq<TaskStruct>)
    reads par`cptr, (set t | t in c)`osptr, (set t | t in c)`ysptr
  {
    && par.cptr == Nth(c, 0)
    && forall i :: 0 <= i < |c| ==> SiblingOk(c, i)
  }

  /** The sibling pointers determine the list: following p_cptr and p_osptr is reading it off. */
  lemma {:induction false} SiblingsAreOneList(par: TaskStruct, c: seq<TaskStruct>, d: seq<TaskStruct>, k: nat)
    requires SiblingsOk(par, c) && SiblingsOk(par, d) && k <= |c| && k <= |d|
    ensures c[..k] == d[..k] && Nth(c, k) == Nth(d, k)
    ensures k == |c| ==> |d| == |c|
  {
    if k > 0 {
      SiblingsAreOneList(par, c, d, k - 1);
      assert SiblingOk(c, k - 1) && SiblingOk(d, k - 1);
    }
  }

  ghost predicate CircleOk(init: TaskStruct, s: seq<TaskStruct>)
    reads init`nextTask, init`prevTask, (set t | t in s)`nextTask, (set t | t in s)`prevTask
  {
    forall i {:trigger At(init, s, i)} :: 0 <= i <= |s| ==>
      At(init, s, i).nextTask == At(init, s, i + 1) && At(init, s, i + 1).prevTask == At(init, s, i)
  }

  /** hash_pid */
  method HashPid(h: array<TaskStruct?>, p: TaskStruct, ghost c: seq<TaskStruct>)
    requires h.Length == PIDHASH_SZ && ChainOk(h, PidHashFn(p.pid), c) && p !in c
    modifies h, p`pidhashNext, p`pidhashPprev, (set t | t in c)`pidhashPprev
    ensures ChainOk(h, PidHashFn(p.pid), [p] + c)
    ensures forall b :: 0 <= b < h.Length && b != PidHashFn(p.pid) ==> h[b] == old(h[b])
  {
    hide PidHashFn;
    var b := PidHashFn(p.pid);
    assert c != [] ==> EntryOk(b, c, 0);
    p.pidhashNext := h[b];
    if p.pidhashNext != null {
      p.pidhashNext.pidhashPprev := NextOf(p);
    }
    h[b] := p;
    p.pidhashPprev := Bucket(b);
    ghost var r := [p] + c;
    forall i | 0 <= i < |r|
      ensures EntryOk(b, r, i)
    {
      if i > 0 {
        assert r[i] == c[i - 1] && old(EntryOk(b, c, i - 1));
      }
    }
  }

  /** unhash_pid */
  method UnhashPid(h: array<TaskStruct?>, p: TaskStruct, ghost b: nat, ghost c: seq<TaskStruct>, ghost j: nat)
    requires ChainOk(h, b, c) && NoDup(c) && j < |c| && p == c[j]
    modifies h, (set t | t in c)`pidhashNext, (set t | t in c)`pidhashPprev
    ensures ChainOk(h, b, CutAt(c, j))
    ensures forall x :: 0 <= x < h.Length && x != b ==> h[x] == old(h[x])
  {
    assert EntryOk(b, c, j);
    assert j > 0 ==> c[j - 1] in c;
    if p.pidhashNext != null {
      p.pidhashNext.pidhashPprev := p.pidhashPprev;
    }
    match p.pidhashPprev {
      case Bucket(i) => h[i] := p.pidhashNext;
      case NextOf(q) => q.pidhashNext := p.pidhashNext;
    }
    ghost var r := CutAt(c, j);
    forall i | 0 <= i < |r|
      ensures EntryOk(b, r, i)
    {
      ghost var k := if i < j then i else i + 1;
      assert r[i] == c[k] && old(EntryOk(b, c, k));
    }
  }

  /** The first half of SET_LINKS: the circle of all tasks. */
  method LinkLast(init: TaskStruct, p: TaskStruct, ghost s: seq<TaskStruct>)
    requires CircleOk(init, s) && p != init && p !in s && init !in s && NoDup(s)
    modifies init`nextTask, init`prevTask, p`nextTask, p`prevTask, (set t | t in s)`nextTask
    ensures CircleOk(init, s + [p])
  {
    assert init.prevTask == At(init, s, |s|) && At(init, s, |s|).nextTask == init;
    p.nextTask := init;
    p.prevTask := init.prevTask;
    init.prevTask.nextTask := p;
    init.prevTask := p;
    ghost var r := s + [p];
    forall i | 0 <= i <= |r|
      ensures At(init, r, i).nextTask == At(init, r, i + 1) && At(init, r, i + 1).prevTask == At(init, r, i)
    {
      if i < |s| {
        assert At(init, r, i) == At(init, s, i) && At(init, r, i + 1) == At(init, s, i + 1);
      }
    }
  }

  /** The second half of SET_LINKS: the new task is its parent's youngest child. */
  method LinkYoungest(p: TaskStruct, ghost c: seq<TaskStruct>)
    requires SiblingsOk(p.parent, c) && p !in c && NoDup(c)
    modifies p.parent`cptr, p`osptr, p`ysptr, (set t | t in c)`ysptr
    ensures SiblingsOk(p.parent, [p] + c)
  {
    assert c != [] ==> SiblingOk(c, 0);
    p.ysptr := null;
    p.osptr := p.parent.cptr;
    if p.osptr != null {
      p.osptr.ysptr := p;
    }
    p.parent.cptr := p;
    ghost var r := [p] + c;
    forall i | 0 <= i < |r|
      ensures SiblingOk(r, i)
    {
      if i > 0 {
        assert r[i] == c[i - 1] && old(SiblingOk(c, i - 1));
      }
    }
  }

  /** The first half of REMOVE_LINKS. */
  method UnlinkCircle(init: TaskStruct, p: TaskStruct, ghost s: seq<TaskStruct>, ghost k: nat)
    requires CircleOk(init, s) && init !in s && NoDup(s) && k < |s| && p == s[k]
    modifies init`nextTask, init`prevTask, (set t | t in s)`nextTask, (set t | t in s)`prevTask
    ensures CircleOk(init, CutAt(s, k))
  {
    assert At(init, s, k + 1) == p && p.prevTask == At(init, s, k) && p.nextTask == At(init, s, k + 1 + 1);
    p.nextTask.prevTask := p.prevTask;
    p.prevTask.nextTask := p.nextTask;
    ghost var r := CutAt(s, k);
    forall i | 0 <= i <= |r|
      ensures At(init, r, i).nextTask == At(init, r, i + 1) && At(init, r, i + 1).prevTask == At(init, r, i)
    {
      if i < k {
        assert At(init, r, i) == At(init, s, i) && At(init, r, i + 1) == At(init, s, i + 1);
      } else if i > k {
        assert At(init, r, i) == At(init, s, i + 1) && At(init, r, i + 1) == At(init, s, i + 1 + 1);
      }
    }
  }

  /** The second half of REMOVE_LINKS. */
  method UnlinkSibling(p: TaskStruct, ghost c: seq<TaskStruct>, ghost j: nat)
    requires SiblingsOk(p.parent, c) && NoDup(c) && j < |c| && p == c[j]
    modifies p.parent`cptr, (set t | t in c)`osptr, (set t | t in c)`ysptr
    ensures SiblingsOk(p.parent, CutAt(c, j))
  {
    assert SiblingOk(c, j);
    assert j > 0 ==> SiblingOk(c, j - 1) && c[j - 1] in c;
    assert j < |c| - 1 ==> SiblingOk(c, j + 1) && c[j + 1] in c;
    if p.osptr != null {
      p.osptr.ysptr := p.ysptr;
    }
    if p.ysptr != null {
      p.ysptr.osptr := p.osptr;
    } else {
      p.parent.cptr := p.osptr;
    }
    ghost var r := CutAt(c, j);
    forall i | 0 <= i < |r|
      ensures SiblingOk(r, i)
    {
      ghost var m := if i < j then i else i + 1;
      assert r[i] == c[m] && old(SiblingOk(c, m));
    }
  }

  // ---------------------------------------------------------------- all chains at once

  /** Every bucket holds exactly the tasks of `s` with that hash value, youngest first. */
  ghost predicate HashOk(h: array<TaskStruct?>, s: seq<TaskStruct>)
    reads h, (set t | t in s)`pidhashNext, (set t | t in s)`pidhashPprev
  {
    h.Length == PIDHASH_SZ && forall b :: 0 <= b < PIDHASH_SZ ==> ChainOk(h, b, Pick(s, Hashed(b)))
  }

  /** Every task's child chain holds exactly its children, youngest first. */
  ghost predicate FamilyOk(init: TaskStruct, s: seq<TaskStruct>)
    reads init, (set t | t in s)`cptr, (set t | t in s)`osptr, (set t | t in s)`ysptr
  {
    forall par :: par in [init] + s ==> SiblingsOk(par, Pick(s, ChildOf(par)))
  }

  /** hash_pid seen from all buckets. */
  method HashTask(h: array<TaskStruct?>, p: TaskStruct, ghost s: seq<TaskStruct>)
    requires HashOk(h, s) && NoDup(s) && p !in s
    modifies h, p`pidhashNext, p`pidhashPprev, (set t | t in s)`pidhashPprev
    ensures HashOk(h, s + [p])
  {
    hide PidHashFn, Pick, EntryOk;
    ghost var b := PidHashFn(p.pid);
    ghost var c := Pick(s, Hashed(b));
    PickMembers(s, Hashed(b));
    HashPid(h, p, c);
    forall x | 0 <= x < PIDHASH_SZ
      ensures ChainOk(h, x, Pick(s + [p], Hashed(x)))
    {
      PickAppend(s, p, Hashed(x));
      ghost var d := Pick(s, Hashed(x));
      assert Pick(s + [p], Hashed(x)) == if x == b then [p] + c else d;
      PickMembers(s, Hashed(x));
      if x != b {
        forall i | 0 <= i < |d|
          ensures EntryOk(x, d, i)
        {
          assert old(EntryOk(x, d, i));
        }
      }
    }
  }

  /** unhash_pid seen from all buckets. */
  method UnhashTask(h: array<TaskStruct?>, p: TaskStruct, ghost s: seq<TaskStruct>, ghost k: nat)
    requires HashOk(h, s) && NoDup(s) && k < |s| && p == s[k]
    modifies h, (set t | t in s)`pidhashNext, (set t | t in s)`pidhashPprev
    ensures HashOk(h, CutAt(s, k))
  {
    hide PidHashFn, Pick, EntryOk;
    ghost var b := PidHashFn(p.pid);
    ghost var c := Pick(s, Hashed(b));
    PickMembers(s, Hashed(b));
    ghost var j := PickCut(s, k, Hashed(b));
    UnhashPid(h, p, b, c, j);
    forall x | 0 <= x < PIDHASH_SZ
      ensures ChainOk(h, x, Pick(CutAt(s, k), Hashed(x)))
    {
      if x != b {
        ghost var m := PickCut(s, k, Hashed(x));
        ghost var d := Pick(s, Hashed(x));
        PickMembers(s, Hashed(x));
        forall i | 0 <= i < |d|
          ensures EntryOk(x, d, i)
        {
          assert old(EntryOk(x, d, i));
        }
      }
    }
  }

  /** SET_LINKS, whose two halves touch different pointers. */
  method SetLinks(init: TaskStruct, p: TaskStruct, ghost s: seq<TaskStruct>)
    requires FamilyOk(init, s) && CircleOk(init, s) && init !in s && NoDup(s) && p !in s && p != init
    requires p.parent in [init] + s && p.cptr == null && forall t :: t in s ==> t.parent != p
    modifies init`nextTask, init`prevTask, p`nextTask, p`prevTask, (set t | t in s)`nextTask
    modifies init`cptr, (set t | t in s)`cptr, p`osptr, p`ysptr, (set t | t in s)`ysptr
    ensures CircleOk(init, s + [p]) && FamilyOk(init, s + [p])
  {
    hide Pick, CircleOk, SiblingOk;
    ghost var c := Pick(s, ChildOf(p.parent));
    PickMembers(s, ChildOf(p.parent));
    LinkLast(init, p, s);
    LinkYoungest(p, c);
    forall par | par in [init] + (s + [p])
      ensures SiblingsOk(par, Pick(s + [p], ChildOf(par)))
    {
      PickAppend(s, p, ChildOf(par));
      ghost var d := Pick(s, ChildOf(par));
      PickMembers(s, ChildOf(par));
      assert Pick(s + [p], ChildOf(par)) == if par == p.parent then [p] + c else d;
      if par == p {
        PickNone(s, ChildOf(p));
      } else if par != p.parent {
        assert old(SiblingsOk(par, d));
      }
    }
  }

  /** REMOVE_LINKS.  A chain of children the task has itself stays as it is. */
  method RemoveLinks(init: TaskStruct, p: TaskStruct, ghost s: seq<TaskStruct>, ghost k: nat)
    requires FamilyOk(init, s) && CircleOk(init, s) && init !in s && NoDup(s) && k < |s| && p == s[k]
    requires p.parent in [init] + s
    modifies init`nextTask, init`prevTask, (set t | t in s)`nextTask, (set t | t in s)`prevTask
    modifies init`cptr, (set t | t in s)`cptr, (set t | t in s)`osptr, (set t | t in s)`ysptr
    ensures CircleOk(init, CutAt(s, k)) && FamilyOk(init, CutAt(s, k))
    ensures SiblingsOk(p, Pick(CutAt(s, k), ChildOf(p)))
  {
    hide Pick, CircleOk, SiblingOk;
    ghost var c := Pick(s, ChildOf(p.parent));
    PickMembers(s, ChildOf(p.parent));
    ghost var j := PickCut(s, k, ChildOf(p.parent));
    UnlinkCircle(init, p, s, k);
    UnlinkSibling(p, c, j);
    forall par | par in [init] + CutAt(s, k) || par == p
      ensures SiblingsOk(par, Pick(CutAt(s, k), ChildOf(par)))
    {
      if par != p.parent {
        ghost var m := PickCut(s, k, ChildOf(par));
        ghost var d := Pick(s, ChildOf(par));
        PickMembers(s, ChildOf(par));
        assert par in [init] + s && old(SiblingsOk(par, d));
      }
    }
  }

  // ---------------------------------------------------------------- the task table

  ghost predicate DistinctPids(s: seq<TaskStruct>) {
    forall i, j :: 0 <= i < j < |s| ==> s[i].pid != s[j].pid
  }

  /** What a search through all tasks from the oldest on would find. */
  function LinearSearch(s: seq<TaskStruct>, pid: int): TaskStruct? {
    if s == [] then null else if s[0].pid == pid then s[0] else LinearSearch(s[1..], pid)
  }

  lemma {:induction false} LinearSearchFinds(s: seq<TaskStruct>, pid: int)
    ensures LinearSearch(s, pid) == null ==> forall t :: t in s ==> t.pid != pid
    ensures LinearSearch(s, pid) != null ==> LinearSearch(s, pid) in s && LinearSearch(s, pid).pid == pid
  {
    if s != [] {
      LinearSearchFinds(s[1..], pid);
      assert s == [s[0]] + s[1..];
    }
  }

  lemma OnlyOneWithPid(s: seq<TaskStruct>, t: TaskStruct, pid: int)
    requires DistinctPids(s) && t in s && t.pid == pid
    ensures LinearSearch(s, pid) == t
  {
    LinearSearchFinds(s, pid);
    var u := LinearSearch(s, pid);
    var i, j :| 0 <= i < |s| && s[i] == t && 0 <= j < |s| && s[j] == u;
    assert i == j;
  }

  class TaskTable {
    const pidhash: array<TaskStruct?>
    const initTask: TaskStruct
    /** All tasks but init_task, in the order in which they were linked. */
    ghost var list: seq<TaskStruct>

    ghost predicate Valid()
      reads this, pidhash, initTask, list
    {
      && initTask !in list && NoDup(list) && DistinctPids(list)
      && HashOk(pidhash, list) && CircleOk(initTask, list) && FamilyOk(initTask, list)
    }

    constructor (init: TaskStruct)
      requires init.nextTask == init && init.prevTask == init && init.cptr == null
      ensures Valid() && fresh(pidhash) && initTask == init && list == []
    {
      initTask := init;
      pidhash := new TaskStruct?[PIDHASH_SZ](_ => null);
      list := [];
    }

    /** The part of do_fork that links and hashes the new task. */
    method Add(p: TaskStruct)
      requires Valid() && p != initTask && p !in list && p.parent in [initTask] + list && p.cptr == null
      requires forall t :: t in list ==> t.parent != p && t.pid != p.pid
      modifies this`list, pidhash, initTask, p, list
      ensures Valid() && list == old(list) + [p]
    {
      hide HashOk, CircleOk, FamilyOk;
      ghost var s := list;
      SetLinks(initTask, p, s);
      HashTask(pidhash, p, s);
      list := s + [p];
    }

    /** unhash_process.  A task released before its children leaves them with a parent that is no
        longer listed; they cannot be released before they are given another one. */
    method Release(p: TaskStruct, ghost k: nat)
      requires Valid() && k < |list| && list[k] == p && p.parent in [initTask] + list
      modifies this`list, pidhash, initTask, list
      ensures Valid() && list == CutAt(old(list), k)
    {
      hide HashOk, CircleOk, FamilyOk;
      ghost var s := list;
      UnhashTask(pidhash, p, s, k);
      RemoveLinks(initTask, p, s, k);
      list := CutAt(s, k);
    }

    /** find_task_by_pid */
    method FindTaskByPid(pid: int) returns (p: TaskStruct?)
      requires Valid()
      ensures p == LinearSearch(list, pid)
    {
      hide PidHashFn, Pick, CircleOk, FamilyOk;
      var b := PidHashFn(pid);
      ghost var c := Pick(list, Hashed(b));
      PickMembers(list, Hashed(b));
      ghost var n := 0;
      assert ChainOk(pidhash, b, c);
      p := pidhash[b];
      while p != null && p.pid != pid
        invariant 0 <= n <= |c| && p == Nth(c, n)
        invariant forall i :: 0 <= i < n ==> c[i].pid != pid
        decreases |c| - n
      {
        assert EntryOk(b, c, n);
        p := p.pidhashNext;
        n := n + 1;
      }
      assert p == null ==> forall t :: t in c ==> t.pid != pid;
      assert forall t :: t in list && t.pid == pid ==> t in c;
      LinearSearchFinds(list, pid);
      if p != null {
        assert p in c;
        OnlyOneWithPid(list, p, pid);
      }
    }

    /** for_each_task */
    method ForEachTask() returns (visited: seq<TaskStruct>)
      requires Valid()
      ensures visited == list
    {
      hide HashOk, FamilyOk;
      visited := [];
      assert At(initTask, list, 0).nextTask == At(initTask, list, 1);
      var p := initTask.nextTask;
      while p != initTask
        invariant |visited| <= |list| && visited == list[..|visited|]
        invariant p == At(initTask, list, |visited| + 1)
        decreases |list| - |visited|
      {
        assert At(initTask, list, |visited| + 1).nextTask == At(initTask, list, |visited| + 1 + 1);
        visited := visited + [p];
        p := p.nextTask;
      }
    }
  }
}
