/** Lists and circles as sequences without repetition, and sums over a range of identifiers. */
module Rows {

  type Id = nat

  ghost predicate NoDup<T>(r: seq<T>) {
    forall i, j :: 0 <= i < j < |r| ==> r[i] != r[j]
  }

  /** The list without its entry at position `k`. */
  function CutAt<T>(r: seq<T>, k: nat): seq<T>
    requires k < |r|
  {
    r[..k] + r[k + 1..]
  }

  /** The node at position `i` of a circle: the head, the entries, the head again. */
  function At<T>(head: T, r: seq<T>, i: int): T
    requires 0 <= i <= |r| + 1
  {
    if i == 0 || i == |r| + 1 then head else r[i - 1]
  }

  ghost function Elements<T>(r: seq<T>): set<T> {
    set x | x in r
  }

  lemma {:induction false} ElementsCount<T>(r: seq<T>)
    requires NoDup(r)
    ensures |Elements(r)| == |r|
  {
    if r != [] {
      ElementsCount(r[1..]);
      assert r == [r[0]] + r[1..];
      assert Elements(r) == Elements(r[1..]) + {r[0]} && r[0] !in Elements(r[1..]);
    }
  }

  /** The list after list_del of its entry `p`: order of the others is kept. */
  function Without(r: seq<Id>, p: Id): seq<Id> {
    if r == [] then []
    else if r[0] == p then r[1..]
    else [r[0]] + Without(r[1..], p)
  }

  lemma {:induction false} WithoutElements(r: seq<Id>, p: Id)
    requires NoDup(r)
    ensures NoDup(Without(r, p))
    ensures forall x :: x in Without(r, p) <==> x in r && x != p
    ensures |Without(r, p)| == if p in r then |r| - 1 else |r|
  {
    if r != [] {
      var w := Without(r[1..], p);
      assert r == [r[0]] + r[1..];
      WithoutElements(r[1..], p);
      assert r[0] !in w;
    }
  }

  lemma {:induction false} WithoutAbsent(r: seq<Id>, p: Id)
    requires p !in r
    ensures Without(r, p) == r
  {
    if r != [] {
      WithoutAbsent(r[1..], p);
    }
  }

  /** Unlinking position `i` cuts exactly that position out. */
  lemma {:induction false} WithoutAt(r: seq<Id>, i: nat)
    requires NoDup(r) && i < |r|
    ensures Without(r, r[i]) == r[..i] + r[i + 1..]
  {
    if i > 0 {
      assert r[i] == r[1..][i - 1] && r[0] != r[i];
      WithoutAt(r[1..], i - 1);
      assert [r[0]] + r[1..][..i - 1] == r[..i];
      assert r[1..][i..] == r[i + 1..];
    }
  }

  lemma NoDupConcat(a: seq<Id>, b: seq<Id>)
    requires NoDup(a) && NoDup(b) && forall x :: x in a ==> x !in b
    ensures NoDup(a + b)
  {
    forall i, j | 0 <= i < j < |a + b|
      ensures (a + b)[i] != (a + b)[j]
    {
      if i < |a| && j >= |a| {
        assert a[i] in a && b[j - |a|] in b;
      }
    }
  }

  /** f(0) + ... + f(n-1). */
  function Sum(f: Id -> int, n: nat): int {
    if n == 0 then 0 else Sum(f, n - 1) + f(n - 1)
  }

  lemma {:induction false} SumSame(f: Id -> int, g: Id -> int, n: nat)
    requires forall i: Id :: i < n ==> f(i) == g(i)
    ensures Sum(f, n) == Sum(g, n)
  {
    if n > 0 {
      SumSame(f, g, n - 1);
    }
  }

  /** Changing one summand changes the sum by the difference. */
  lemma {:induction false} SumUpdate(f: Id -> int, g: Id -> int, n: nat, k: Id)
    requires forall i: Id :: i < n && i != k ==> f(i) == g(i)
    requires k < n
    ensures Sum(g, n) == Sum(f, n) - f(k) + g(k)
  {
    if k == n - 1 {
      SumSame(f, g, n - 1);
    } else {
      SumUpdate(f, g, n - 1, k);
    }
  }

  lemma {:induction false} SumNonNegative(f: Id -> int, n: nat)
    requires forall i: Id :: i < n ==> f(i) >= 0
    ensures Sum(f, n) >= 0
    ensures forall k: Id :: k < n ==> f(k) <= Sum(f, n)
  {
    if n > 0 {
      SumNonNegative(f, n - 1);
    }
  }
}
