/** The circular doubly linked lists of list.h.  The scheduler and the wait queues use them as
    sequences; here the pointer operations are proved to be those sequence operations. */
module LinkedList {
  import opened Rows
  import opened SchedModel

  /** struct list_head.  `task` stands for list_entry: the record the node is embedded in. */
  class ListHead {
    var next: ListHead
    var prev: ListHead
    const task: Id

    /** INIT_LIST_HEAD */
    constructor (task: Id)
      ensures Ring(this, []) && this.task == task
    {
      this.task := task;
      next := this;
      prev := this;
    }
  }

  /** From `head` the next pointers lead through exactly `s` and back, and the prev pointers lead the
      same way in reverse. */
  ghost predicate Ring(head: ListHead, s: seq<ListHead>)
    reads head, s
  {
    && NoDup(s) && (forall i :: 0 <= i < |s| ==> s[i] != head)
    && (forall i {:trigger At(head, s, i)} :: 0 <= i <= |s| ==>
          At(head, s, i).next == At(head, s, i + 1) && At(head, s, i + 1).prev == At(head, s, i))
  }

  function Names(s: seq<ListHead>): seq<Id> {
    seq(|s|, i requires 0 <= i < |s| => s[i].task)
  }

  function InsertAt(s: seq<ListHead>, k: nat, n: ListHead): seq<ListHead>
    requires k <= |s|
  {
    s[..k] + [n] + s[k..]
  }

  /** The links of one node of a circle. */
  lemma RingLink(head: ListHead, s: seq<ListHead>, i: nat)
    requires Ring(head, s) && i <= |s|
    ensures At(head, s, i).next == At(head, s, i + 1) && At(head, s, i + 1).prev == At(head, s, i)
    ensures At(head, s, i) in [head] + s && At(head, s, i + 1) in [head] + s
    ensures i < |s| ==> At(head, s, i + 1) == s[i] != head
    ensures i == |s| ==> At(head, s, i + 1) == head
  {
  }

  /** The pointers determine the sequence. */
  lemma {:induction false} RingIsOneList(head: ListHead, s: seq<ListHead>, r: seq<ListHead>, k: nat)
    requires Ring(head, s) && Ring(head, r) && k <= |s| && k <= |r|
    ensures s[..k] == r[..k] && At(head, s, k) == At(head, r, k)
    ensures k == |s| ==> |r| == |s|
  {
    hide Ring;
    if k > 0 {
      RingIsOneList(head, s, r, k - 1);
      RingLink(head, s, k - 1);
      RingLink(head, r, k - 1);
    }
    RingLink(head, s, k);
    RingLink(head, r, k);
  }

  /** What list_del leaves free: the entry is in no place of the circle any more. */
  lemma CutFrees(head: ListHead, s: seq<ListHead>, k: nat)
    requires Ring(head, s) && k < |s|
    ensures s[k] != head && s[k] !in CutAt(s, k) && forall n :: n in CutAt(s, k) ==> n in s
    ensures s[k].prev in [head] + s && s[k].next in [head] + s
  {
    var all := [head] + s;
    assert At(head, s, k) == all[k];
    assert At(head, s, k + 1).next == At(head, s, k + 1 + 1) == all[if k + 1 == |s| then 0 else k + 2];
  }

  /** __list_add */
  method Link(n: ListHead, prev: ListHead, next: ListHead)
    requires n != prev && n != next
    modifies n, prev, next
    ensures prev.next == n && n.prev == prev && n.next == next && next.prev == n
    ensures prev != next ==> prev.prev == old(prev.prev) && next.next == old(next.next)
  {
    next.prev := n;
    n.next := next;
    n.prev := prev;
    prev.next := n;
  }

  /** __list_del */
  method Unlink(prev: ListHead, next: ListHead)
    modifies prev, next
    ensures prev.next == next && next.prev == prev
    ensures prev != next ==> prev.prev == old(prev.prev) && next.next == old(next.next)
  {
    next.prev := prev;
    prev.next := next;
  }

  /** list_add after any node of a circle.  At the head this puts the new entry first. */
  method ListAdd(n: ListHead, at: ListHead, ghost head: ListHead, ghost s: seq<ListHead>, ghost k: nat)
    requires Ring(head, s) && n != head && n !in s
    requires k <= |s| && at == At(head, s, k)
    modifies n, at, at.next
    ensures Ring(head, InsertAt(s, k, n))
  {
    ghost var r := InsertAt(s, k, n);
    assert at.next == At(head, s, k + 1);
    Link(n, at, at.next);
    forall i | 0 <= i <= |r|
      ensures At(head, r, i).next == At(head, r, i + 1) && At(head, r, i + 1).prev == At(head, r, i)
    {
      if i < k {
        assert At(head, r, i) == At(head, s, i) && At(head, r, i + 1) == At(head, s, i + 1);
      } else if i > k + 1 {
        assert At(head, r, i) == At(head, s, i - 1) && At(head, r, i + 1) == At(head, s, i - 1 + 1);
      }
    }
  }

  /** list_add_tail */
  method ListAddTail(n: ListHead, head: ListHead, ghost s: seq<ListHead>)
    requires Ring(head, s) && n != head && n !in s
    modifies n, head, head.prev
    ensures Ring(head, s + [n])
  {
    ghost var k := |s|;
    assert head.prev == At(head, s, k) && At(head, s, k).next == head;
    Link(n, head.prev, head);
    ghost var r := s + [n];
    forall i | 0 <= i <= |r|
      ensures At(head, r, i).next == At(head, r, i + 1) && At(head, r, i + 1).prev == At(head, r, i)
    {
      if i < k {
        assert At(head, r, i) == At(head, s, i) && At(head, r, i + 1) == At(head, s, i + 1);
      }
    }
  }

  /** list_del.  The entry's own pointers keep their old values. */
  method ListDel(entry: ListHead, ghost head: ListHead, ghost s: seq<ListHead>, ghost k: nat)
    requires Ring(head, s) && k < |s| && entry == s[k]
    modifies entry.prev, entry.next
    ensures Ring(head, CutAt(s, k))
    ensures entry.next == old(entry.next) && entry.prev == old(entry.prev)
  {
    ghost var r := CutAt(s, k);
    assert At(head, s, k + 1) == entry && entry.prev == At(head, s, k) && entry.next == At(head, s, k + 1 + 1);
    Unlink(entry.prev, entry.next);
    forall i | 0 <= i <= |r|
      ensures At(head, r, i).next == At(head, r, i + 1) && At(head, r, i + 1).prev == At(head, r, i)
    {
      if i < k {
        assert At(head, r, i) == At(head, s, i) && At(head, r, i + 1) == At(head, s, i + 1);
      } else if i > k {
        assert At(head, r, i) == At(head, s, i + 1) && At(head, r, i + 1) == At(head, s, i + 1 + 1);
      }
    }
  }

  /** list_empty */
  method ListEmpty(head: ListHead, ghost s: seq<ListHead>) returns (empty: bool)
    requires Ring(head, s)
    ensures empty <==> s == []
  {
    assert At(head, s, 0).next == At(head, s, 1);
    empty := head.next == head;
  }

  /** list_for_each */
  method Walk(head: ListHead, ghost s: seq<ListHead>) returns (visited: seq<ListHead>)
    requires Ring(head, s)
    ensures visited == s
  {
    visited := [];
    assert At(head, s, 0).next == At(head, s, 1);
    var pos := head.next;
    while pos != head
      invariant |visited| <= |s| && visited == s[..|visited|]
      invariant pos == At(head, s, |visited| + 1)
      decreases |s| - |visited|
    {
      assert At(head, s, |visited| + 1).next == At(head, s, |visited| + 1 + 1);
      visited := visited + [pos];
      pos := pos.next;
    }
  }

  // ---------------------------------------------------------------- the scheduler's row operations

  lemma NamesOfInsert(s: seq<ListHead>, k: nat, n: ListHead)
    requires k <= |s|
    ensures |Names(s)| == |s|
    ensures Names(InsertAt(s, k, n)) == Names(s)[..k] + [n.task] + Names(s)[k..]
  {
  }

  lemma NamesOfCut(s: seq<ListHead>, k: nat)
    requires k < |s| && NoDup(Names(s))
    ensures Names(CutAt(s, k)) == Without(Names(s), s[k].task)
  {
    WithoutAt(Names(s), k);
  }

  /** The relinking of enqueue_task right after a fork: the parent to the tail, then the child to the head. */
  method ChildFirst(child: ListHead, parent: ListHead, head: ListHead, ghost s: seq<ListHead>, ghost k: nat)
    returns (ghost r: seq<ListHead>)
    requires Ring(head, s) && k < |s| && parent == s[k] && NoDup(Names(s))
    requires child != head && child !in s && child.task !in Names(s)
    modifies child, head, s
    ensures Ring(head, r)
    ensures Names(r) == [child.task] + (Without(Names(s), parent.task) + [parent.task])
  {
    hide Ring, Names, NoDup, Without, At;
    CutFrees(head, s, k);
    NamesOfCut(s, k);
    ListDel(parent, head, s, k);
    ghost var cut := CutAt(s, k);
    RingLink(head, cut, |cut|);
    AtEnds(head, cut);
    ListAddTail(parent, head, cut);
    ghost var tailed := cut + [parent];
    RingLink(head, tailed, 0);
    AtEnds(head, tailed);
    ListAdd(child, head, head, tailed, 0);
    r := InsertAt(tailed, 0, child);
    NamesOfInsert(cut, |cut|, parent);
    NamesOfInsert(tailed, 0, child);
    assert InsertAt(cut, |cut|, parent) == tailed;
    assert Names(cut)[..|cut|] == Names(cut) && Names(cut)[|cut|..] == [];
    assert Names(tailed)[..0] == [] && Names(tailed)[0..] == Names(tailed);
  }

  lemma AtEnds(head: ListHead, s: seq<ListHead>)
    ensures At(head, s, 0) == head == At(head, s, |s| + 1)
  {
  }

  /** The relinking of sys_sched_yield within one row: after the first entry that is left, if any. */
  method YieldSecond(n: ListHead, head: ListHead, ghost s: seq<ListHead>, ghost k: nat)
    returns (ghost r: seq<ListHead>)
    requires Ring(head, s) && k < |s| && n == s[k] && NoDup(Names(s))
    modifies head, s
    ensures Ring(head, r)
    ensures Names(r) == InsertSecond(Without(Names(s), n.task), n.task)
  {
    hide Ring, Names, NoDup, Without, At;
    CutFrees(head, s, k);
    NamesOfCut(s, k);
    ListDel(n, head, s, k);
    ghost var cut := CutAt(s, k);
    ghost var j := if cut == [] then 0 else 1;
    RingLink(head, cut, 0);
    RingLink(head, cut, j);
    AtEnds(head, cut);
    ListAdd(n, head.next, head, cut, j);
    r := InsertAt(cut, j, n);
    NamesOfInsert(cut, j, n);
    SecondPlace(Names(cut), j, n.task);
  }

  lemma SecondPlace(r: seq<Id>, j: nat, p: Id)
    requires j == if r == [] then 0 else 1
    ensures r[..j] + [p] + r[j..] == InsertSecond(r, p)
  {
  }
}
