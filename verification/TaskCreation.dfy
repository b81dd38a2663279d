/** do_fork's use of the pid allocator and the task table together: the identifier get_pid answers is
    what linking and hashing the new task relies on. */
module TaskCreation {
  import opened Params
  import opened GetPid
  import opened PidHash

  /** `ids` are the identifiers of the listed tasks, in the order in which for_each_task meets them. */
  ghost predicate Describes(ids: seq<Ids>, list: seq<TaskStruct>) {
    |ids| == |list| && forall i :: 0 <= i < |list| ==> ids[i].pid == list[i].pid
  }

  /** A fork by the listed task `i`: a free identifier, a new record, its links and its place in the hash.
      Nothing is assumed of the identifier: that it is new to the table follows. */
  method CreateTask(table: TaskTable, a: PidAllocator, ids: seq<Ids>, parent: TaskStruct, i: nat, thread: bool)
    returns (ids': seq<Ids>, child: TaskStruct?)
    requires table.Valid() && Describes(ids, table.list) && i < |ids| && table.list[i] == parent
    requires PidOk(PidState(ids, a.lastPid, a.nextSafe))
    requires a.lastPid + 1 >= a.nextSafe ==> CanEnd(ids, a.lastPid)
    modifies a, table`list, table.pidhash, table.initTask, table.list
    ensures table.Valid() && Describes(ids', table.list)
    ensures child == null <==> old(a.lastPid) >= RESERVED_PIDS && Exhausted(ids, old(a.lastPid))
    ensures child == null ==> ids' == ids && table.list == old(table.list)
    ensures child != null ==>
              && fresh(child) && child.pid == a.lastPid && child.parent == parent
              && table.list == old(table.list) + [child] && LinearSearch(table.list, child.pid) == child
              && ForkOf(old(PidState(ids, a.lastPid, a.nextSafe)), PidState(ids', a.lastPid, a.nextSafe),
                        child.pid, i, thread)
              && PidOk(PidState(ids', a.lastPid, a.nextSafe))
  {
    hide TaskTable.Valid, CanEnd, Exhausted, PidOk, ForkOf, DistinctPids;
    ghost var s := PidState(ids, a.lastPid, a.nextSafe);
    ghost var list := table.list;
    var pid;
    ids', pid := ForkIds(a, ids, i, thread);
    child := null;
    if pid != 0 {
      ghost var s' := PidState(ids', a.lastPid, a.nextSafe);
      NewToTheTable(s, s', list, pid, i, thread);
      ForkStepKeeps(s, s');
      child := new TaskStruct(pid, parent);
      table.Add(child);
      PidsOfTable(table);
      OnlyOneWithPid(table.list, child, child.pid);
    }
  }

  lemma NewToTheTable(s: PidState, s': PidState, list: seq<TaskStruct>, pid: int, i: nat, thread: bool)
    requires Describes(s.tasks, list) && ForkOf(s, s', pid, i, thread)
    ensures ForkStep(s, s') && s'.lastPid == pid
    ensures forall t :: t in list ==> t.pid != pid
    ensures |s'.tasks| == |list| + 1 && s'.tasks[|list|].pid == pid
    ensures forall k :: 0 <= k < |list| ==> s'.tasks[k].pid == list[k].pid
  {
    forall t | t in list
      ensures t.pid != pid
    {
      var k :| 0 <= k < |list| && list[k] == t;
      assert Uses(s.tasks[k], s.tasks[k].pid);
    }
  }

  lemma PidsOfTable(table: TaskTable)
    requires table.Valid()
    ensures DistinctPids(table.list)
  {
  }
}
