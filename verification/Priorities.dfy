/** What the priority, slice and interactivity formulas promise: the claims made in the comments of
    the scheduler, for all priorities and sleep averages. */
module Priorities {
  import opened Params
  import opened SchedModel

  /** A task that is neither real-time nor SHORT, with values in their ranges. */
  ghost predicate Plain(t: Task) {
    t.policy == Other && MAX_RT_PRIO <= t.staticPrio < MAX_PRIO && 0 <= t.sleepAvg <= MAX_SLEEP_AVG
  }

  function Bonus(sleepAvg: int): int {
    TruncDiv(TruncDiv(1000 * sleepAvg, MAX_SLEEP_AVG), 100) - 5
  }

  /** The bonus covers -5..5, reaches both ends, and grows with the sleep average. */
  lemma BonusRange(a: int, b: int)
    requires 0 <= a <= b <= MAX_SLEEP_AVG
    ensures -5 <= Bonus(a) <= Bonus(b) <= 5
    ensures Bonus(0) == -5 && Bonus(MAX_SLEEP_AVG) == 5
  {
    ScaleOrder(a, b, MAX_SLEEP_AVG, 1000);
    ScaleOrder(0, MAX_SLEEP_AVG, MAX_SLEEP_AVG, 1000);
  }

  /** Scaling 0..m to 0..k keeps the order and the ends. */
  lemma ScaleOrder(a: int, b: int, m: int, k: int)
    requires 0 <= a <= b <= m && m > 0 && k >= 0
    ensures 0 <= k * a / m <= k * b / m <= k && k * m / m == k && k * 0 / m == 0
  {
    Product(k, b - a);
    Product(k, m - b);
    Product(k, a);
    QuotientOrder(0, k * a, m);
    QuotientOrder(k * a, k * b, m);
    QuotientOrder(k * b, k * m, m);
    Exact(k, m);
  }

  lemma Product(x: int, y: int)
    requires x >= 0 && y >= 0
    ensures x * y >= 0
  {
  }

  lemma Exact(k: int, m: int)
    requires m > 0
    ensures k * m / m == k
  {
    NoJump(m, k * m / m, k);
    NoJump(m, k, k * m / m);
  }

  lemma NoJump(m: int, q: int, r: int)
    requires m > 0 && m * q < m * r + m
    ensures q <= r
  {
    if q > r {
      Product(m, q - r - 1);
    }
  }

  lemma QuotientOrder(a: int, b: int, m: int)
    requires 0 <= a <= b && m > 0
    ensures 0 <= a / m <= b / m
  {
    NoJump(m, a / m, b / m);
  }

  /** The bonus is the number of full tenths of the largest sleep average that the task has, less five. */
  lemma BonusIsTenths(t: Task, n: int)
    requires Plain(t) && 0 <= n <= 10
    requires n * MAX_SLEEP_AVG <= 10 * t.sleepAvg && (n < 10 ==> 10 * t.sleepAvg < (n + 1) * MAX_SLEEP_AVG)
    ensures EffectivePrio(t) == Min(MAX_PRIO - 1, Max(MAX_RT_PRIO, t.staticPrio - (n - 5)))
  {
    var m := MAX_SLEEP_AVG;
    var x := 1000 * t.sleepAvg;
    var q := x / m;
    Quotient(x, m);
    assert m * (100 * n) == 100 * (n * m);
    NoJump(m, 100 * n, q);
    if n < 10 {
      assert m * (100 * (n + 1)) == 100 * ((n + 1) * m);
      Below(m, q, 100 * (n + 1));
    } else {
      Exact(1000, m);
      QuotientOrder(x, 1000 * m, m);
    }
    assert 100 * n <= q && (n < 10 ==> q < 100 * (n + 1)) && q <= 1000;
  }

  lemma Quotient(x: int, m: int)
    requires m > 0
    ensures m * (x / m) <= x < m * (x / m) + m
  {
  }

  lemma Below(m: int, q: int, r: int)
    requires m > 0 && m * q < m * r
    ensures q < r
  {
    if q >= r {
      Product(m, q - r);
    }
  }

  /** Interactivity moves a task by at most 5 of the 40 nice levels, within 100..139. */
  lemma EffectiveRange(t: Task)
    requires Plain(t)
    ensures EffectivePrio(t) == Min(MAX_PRIO - 1, Max(MAX_RT_PRIO, t.staticPrio - Bonus(t.sleepAvg)))
    ensures MAX_RT_PRIO <= EffectivePrio(t) < MAX_PRIO
    ensures t.staticPrio - 5 <= EffectivePrio(t) <= t.staticPrio + 5
  {
    BonusRange(t.sleepAvg, t.sleepAvg);
  }

  /** Whatever the two have slept, a task ten or more nice levels worse never preempts; and ten is
      exactly the distance that takes. */
  lemma NeverPreempts(a: Task, b: Task)
    requires Plain(a) && Plain(b)
    ensures a.staticPrio + 10 <= b.staticPrio ==> EffectivePrio(a) <= EffectivePrio(b)
    ensures a.staticPrio + 10 > b.staticPrio ==>
              EffectivePrio(b.(sleepAvg := MAX_SLEEP_AVG)) < EffectivePrio(a.(sleepAvg := 0))
  {
    hide EffectivePrio, Bonus;
    BonusRange(0, 0);
    EffectiveRange(a);
    EffectiveRange(b);
    EffectiveRange(b.(sleepAvg := MAX_SLEEP_AVG));
    EffectiveRange(a.(sleepAvg := 0));
  }

  /** The better the static priority the longer the slice, from MIN_TIMESLICE at nice 19 to
      MAX_TIMESLICE at nice -20. */
  lemma SliceOrder(t: Task, u: Task)
    requires MAX_RT_PRIO <= t.staticPrio <= u.staticPrio < MAX_PRIO
    ensures TaskTimeslice(t) >= TaskTimeslice(u) >= MIN_TIMESLICE >= 1
    ensures t.staticPrio == NiceToPrio(-20) ==> TaskTimeslice(t) == MAX_TIMESLICE
    ensures u.staticPrio == NiceToPrio(19) ==> TaskTimeslice(u) == MIN_TIMESLICE
  {
    ScaleOrder(MAX_PRIO - 1 - u.staticPrio, MAX_PRIO - 1 - t.staticPrio, 39, MAX_TIMESLICE - MIN_TIMESLICE);
  }

  /** The slice grows evenly over the forty nice levels: its part above MIN_TIMESLICE is to the whole range
      as the distance from the worst level is to 39, rounded down. */
  lemma SliceIsShare(t: Task)
    requires MAX_RT_PRIO <= t.staticPrio < MAX_PRIO
    ensures var part := TaskTimeslice(t) - MIN_TIMESLICE;
            39 * part <= (MAX_TIMESLICE - MIN_TIMESLICE) * (MAX_PRIO - 1 - t.staticPrio) < 39 * part + 39
  {
    Product(MAX_TIMESLICE - MIN_TIMESLICE, MAX_PRIO - 1 - t.staticPrio);
  }

  // ---------------------------------------------------------------- interactivity

  /** A task is interactive exactly when its priority is better than its static one by two levels and
      a quarter of its nice value, the quarter rounded toward zero. */
  lemma InteractiveWhen(t: Task)
    ensures var gain, nice := t.staticPrio - t.prio - 2, PrioToNice(t.staticPrio);
            Interactive(t) <==> if nice >= 0 then 4 * gain > nice - 4 else 4 * gain >= nice
  {
  }

  /** How many of the eleven places -5..5 of the dynamic priority make a task interactive. */
  function InteractivePlaces(nice: int): int {
    if nice == -20 then 9 else if nice == -10 then 6 else if nice == 0 then 4 else if nice == 10 then 2 else 0
  }

  /** The table of TASK_INTERACTIVE.  Its row for nice -10 claims seven places; the division rounds
      toward zero, and there are six. */
  lemma InteractiveTable(t: Task, nice: int, place: int)
    requires nice in {-20, -10, 0, 10, 19} && t.staticPrio == NiceToPrio(nice)
    requires -5 <= place <= 5 && t.prio == t.staticPrio + place
    ensures Interactive(t) <==> place < InteractivePlaces(nice) - 5
  {
  }

  /** Some sleep average makes a task interactive exactly when its nice value is 15 or less; then the
      largest one does. */
  lemma CanBecomeInteractive(t: Task)
    requires Plain(t)
    ensures PrioToNice(t.staticPrio) <= 15 ==>
              var u := t.(sleepAvg := MAX_SLEEP_AVG); Interactive(u.(prio := EffectivePrio(u)))
    ensures PrioToNice(t.staticPrio) > 15 ==> !Interactive(t.(prio := EffectivePrio(t)))
  {
    hide EffectivePrio, Bonus;
    BonusRange(0, 0);
    EffectiveRange(t);
    EffectiveRange(t.(sleepAvg := MAX_SLEEP_AVG));
  }
}
