/** The SHORT-to-SHORT change of setscheduler: an unsigned comparison, and when it means what it says. */
module SetParam {
  import opened Params
  import opened SchedModel
  import opened SchedInvariant
  import opened SchedSteps
  import SchedFrames

  /** A request whose conversion to jiffies does not overflow a signed 32-bit word. */
  predicate Representable(ms: int) {
    -0x8000_0000 <= ms * HZ < 0x8000_0000
  }

  /** The change keeps the used part of the request and leaves a task that can run. */
  ghost predicate GoodChange(t: Task, ms: int) {
    var t' := ShortChanged(t, ms);
    && t'.requestedTime >= 1
    && t'.timeSlice >= 1
    && t'.requestedTime - t'.timeSlice == t.requestedTime - t.timeSlice
  }

  /** For requests that are not negative the unsigned test is the intended one: the request is at
      most 3000 ms and exceeds the time used, and a slice above the old request is refused. */
  lemma AcceptedWhen(t: Task, ms: int, jiffies: int)
    requires TaskOk(t, jiffies) && t.policy == Short && ms >= 0
    ensures ShortChangeAccepted(t, ms) <==>
            (ms <= MAX_REQUEST_MS && t.timeSlice <= t.requestedTime
             && MsToJiffies(ms) > t.requestedTime - t.timeSlice)
  {
    if ms <= MAX_REQUEST_MS {
      assert 0 <= ms * HZ <= 3000 * HZ;
      assert 0 <= MsToJiffies(ms) <= 3 * HZ;
    }
  }

  /** An accepted request makes a good change exactly if it is not negative. */
  lemma GoodWhenNotNegative(t: Task, ms: int, jiffies: int)
    requires TaskOk(t, jiffies) && t.policy == Short && Representable(ms)
    requires ShortChangeAccepted(t, ms)
    ensures GoodChange(t, ms) <==> ms >= 0
  {
    if ms >= 0 {
      ShortChangeOk(t, ms, jiffies);
    } else {
      assert ms * HZ < 0;
      assert MsToJiffies(ms) <= 0;
    }
  }

  /** A change and the change back: the second restores the task exactly if it asks for the old request,
      whatever the first asked for. */
  lemma ChangeAndBack(t: Task, there: int, back: int, jiffies: int)
    requires TaskOk(t, jiffies) && t.policy == Short && there >= 0 && back >= 0
    requires ShortChangeAccepted(t, there) && ShortChangeAccepted(ShortChanged(t, there), back)
    ensures ShortChanged(ShortChanged(t, there), back) == t <==> MsToJiffies(back) == t.requestedTime
  {
    hide MsToJiffies, ShortChangeAccepted;
    ShortChangeOk(t, there, jiffies);
    ShortChangeOk(ShortChanged(t, there), back, jiffies);
  }

  /** A negative request that is accepted: a task with all of its ten jiffies left asks for minus
      one second and ends up with a negative request and a slice of more than 2^31 jiffies. */
  lemma NegativeRequestAccepted(t: Task)
    requires t.policy == Short && t.requestedTime == 10 && t.timeSlice == 10
    ensures ShortChangeAccepted(t, -1000)
    ensures ShortChanged(t, -1000).requestedTime == 0 - HZ
    ensures ShortChanged(t, -1000).timeSlice == WORD - HZ
  {
    assert MsToJiffies(-1000) == 0 - HZ by {
      assert (-1000) * HZ == -(1000 * HZ);
    }
  }

  /** An OTHER task is made SHORT exactly for 1 jiffy to 3000 ms, negative requests included. */
  lemma MakeShortWhen(t: Task, r: Request)
    requires t.policy == Other && r.policyCode == 5
    ensures Judge(t, r).MakeShort? <==>
            (r.requestedMs <= MAX_REQUEST_MS && r.requestedMs * HZ >= 1000 && (r.euidMatches || r.callerIsRoot))
    ensures Judge(t, r).MakeShort? ==>
            1 <= Judge(t, r).made.requestedTime <= 3 * HZ
            && Judge(t, r).made.timeSlice == Judge(t, r).made.requestedTime
  {
    var x := r.requestedMs * HZ;
    if r.requestedMs <= 3000 {
      assert x <= 3000 * HZ;
    }
    if x < 0 {
      assert TruncDiv(x, 1000) <= 0;
    }
  }

  /** Requests that ask for SHORT and are not negative, and requests to a SHORT task: a SHORT task leaves the
      policy for no request (EPERM); a real-time task does not enter it (EINVAL); otherwise a time that does
      not fit is EINVAL, a caller who may not EPERM, and all else is accepted. */
  lemma ShortAdmission(s: Sched, r: Request)
    requires Inv(s) && s.curr in s.tasks && SchedFrames.Reaches(s, r, Target(s, r)) && r.requestedMs >= 0
    ensures var t := s.tasks[Target(s, r)];
            var value := SetScheduler(s, r).1;
            var asksShort := r.policyCode == 5 || (r.policyCode < 0 && t.policy == Short);
            var fits := r.requestedMs <= MAX_REQUEST_MS &&
                        if t.policy == Short then
                          t.timeSlice <= t.requestedTime && MsToJiffies(r.requestedMs) > t.requestedTime - t.timeSlice
                        else r.requestedMs * HZ >= 1000;
            && (t.policy == Short && 0 <= r.policyCode <= 2 ==> value == -EPERM)
            && (t.policy != Short && t.policy != Other && asksShort ==> value == -EINVAL)
            && ((t.policy == Short || t.policy == Other) && asksShort ==>
                  value == if !fits then -EINVAL else if !r.euidMatches && !r.callerIsRoot then -EPERM else 0)
  {
    hide Requeue, ReschedCurr, MsToJiffies, ShortChangeAccepted, Queued, NoFork;
    var t := s.tasks[Target(s, r)];
    assert TaskOk(t, s.jiffies);
    if t.policy == Short {
      AcceptedWhen(t, r.requestedMs, s.jiffies);
    } else {
      OneJiffy(r.requestedMs);
    }
  }

  lemma OneJiffy(ms: int)
    requires ms >= 0
    ensures MsToJiffies(ms) < MIN_REQUESTED_TIME <==> ms * HZ < 1000
  {
    assert ms * HZ >= 0;
  }
}
