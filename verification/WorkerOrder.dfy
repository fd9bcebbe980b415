/**
 In which order a worker takes immediate tasks and lets newcomers in, over whole runs.
 */
module WorkerOrder {
  import opened Common
  import opened StableSort
  import opened WorkerCore

  // ----- Immediate tasks -----

  function AddedNow(op: Op): seq<nat> {
    if op.DoAddImmediate? then [op.task] else []
  }

  /** The immediate tasks that arrive in a run, in order. */
  function AddedImmediate(ops: seq<Op>): seq<nat> {
    if ops == [] then [] else AddedNow(ops[0]) + AddedImmediate(ops[1..])
  }

  /** What a call answers while immediate tasks wait. */
  function HandedNow(c: Core, op: Op): seq<nat> {
    if op.DoRunTask? && c.immediate != [] && GetNextTask(c).1.Some? then [GetNextTask(c).1.value] else []
  }

  /** The tasks so answered in a run, in order. */
  function HandedOut(c: Core, returned: seq<Group>, ops: seq<Op>): seq<nat>
    decreases |ops|
  {
    if ops == [] then []
    else var (d, r) := Apply(c, returned, ops[0]); HandedNow(c, ops[0]) + HandedOut(d, r, ops[1..])
  }

  lemma DecisionImmediate(c: Core)
    ensures GetNextTask(c).0.immediate == if c.immediate == [] then [] else c.immediate[1..]
  {
    SortKeepsGroups(c);
  }

  lemma RunTaskImmediate(c: Core, readings: seq<int>)
    ensures RunTask(c, readings).immediate == GetNextTask(c).0.immediate
  {
    AddTimesKeepsLists(GetNextTask(c).0, GetNextTask(c).0.current, readings);
  }

  lemma ImmediateStep(c: Core, returned: seq<Group>, op: Op)
    ensures c.immediate + AddedNow(op) == HandedNow(c, op) + Apply(c, returned, op).0.immediate
  {
    if op.DoRunTask? {
      RunTaskImmediate(c, op.readings);
      DecisionImmediate(c);
    }
  }

  /** Over any run the immediate tasks are handed out once each, in order of arrival: what
      waited at first and what arrived is what was handed out and then what waits. */
  lemma {:induction false} ImmediateInOrder(c: Core, returned: seq<Group>, ops: seq<Op>)
    ensures c.immediate + AddedImmediate(ops) == HandedOut(c, returned, ops) + ApplyAll(c, returned, ops).0.immediate
    decreases |ops|
  {
    if ops != [] {
      var (d, r) := Apply(c, returned, ops[0]);
      ImmediateStep(c, returned, ops[0]);
      ImmediateInOrder(d, r, ops[1..]);
      Relay(c.immediate, AddedNow(ops[0]), HandedNow(c, ops[0]),
            d.immediate, AddedImmediate(ops[1..]), HandedOut(d, r, ops[1..]),
            ApplyAll(d, r, ops[1..]).0.immediate);
    }
  }

  /** While one waits, a call answers it and touches neither lists nor times nor the tasks
      of the runners. */
  lemma ImmediateFirst(c: Core)
    requires c.immediate != []
    ensures var (n, task) := GetNextTask(c);
      && task.Some? && c.immediate == [task.value] + n.immediate
      && n == c.(immediate := n.immediate)
  {
  }

  // ----- The order of newcomers -----

  function BoundNow(op: Op): seq<Group> {
    if op.DoBind? then op.groups else []
  }

  /** The groups bound in a run, in order. */
  function BoundInOrder(ops: seq<Op>): seq<Group> {
    if ops == [] then [] else BoundNow(ops[0]) + BoundInOrder(ops[1..])
  }

  /** The groups that stop waiting at a call, as its effect shows them: those in front of
      the list that were not in it, or those handed back behind the running ones. */
  function LeftNow(c: Core, returned: seq<Group>, op: Op): seq<Group> {
    var (d, r) := Apply(c, returned, op);
    match op
    case DoRunTask(_) => if |d.running| >= |c.running| then d.running[..|d.running| - |c.running|] else []
    case DoUnBindAll => if |r| >= |returned| + |c.running| then r[|returned| + |c.running|..] else []
    case _ => []
  }

  function LeftInOrder(c: Core, returned: seq<Group>, ops: seq<Op>): seq<Group>
    decreases |ops|
  {
    if ops == [] then []
    else var (d, r) := Apply(c, returned, ops[0]); LeftNow(c, returned, ops[0]) + LeftInOrder(d, r, ops[1..])
  }

  lemma SortKeepsLength(c: Core)
    ensures |SortedCore(c).running| == |c.running|
  {
    SortSpec((g: Group) => c.Key(g), c.running);
    assert |SortedCore(c).running| == |multiset(SortedCore(c).running)| == |multiset(c.running)|;
  }

  lemma RunTaskLists(c: Core, readings: seq<int>)
    ensures var d := RunTask(c, readings);
      if c.immediate != [] then d.running == c.running && d.pending == c.pending
      else d.running == Prepared(c).running && d.pending == Prepared(c).pending
  {
    AddTimesKeepsLists(GetNextTask(c).0, GetNextTask(c).0.current, readings);
  }

  lemma PreparedLists(c: Core)
    ensures var q := Prepared(c);
      && |q.running| >= |c.running|
      && q.running[..|q.running| - |c.running|] + q.pending == c.pending
  {
    SortKeepsGroups(c);
    SortKeepsLength(c);
    var s := SortedCore(c);
    if c.needBalance && c.pending != [] {
      assert Prepared(c).running == c.pending + s.running;
    }
  }

  lemma NewcomersStep(c: Core, returned: seq<Group>, op: Op)
    ensures c.pending + BoundNow(op) == LeftNow(c, returned, op) + Apply(c, returned, op).0.pending
  {
    match op
    case DoRunTask(readings) =>
      RunTaskLists(c, readings);
      PreparedLists(c);
    case DoUnBindAll =>
      assert (returned + (c.running + c.pending))[|returned| + |c.running|..] == c.pending;
    case _ =>
  }

  /** Over any run the groups bound reach the running list, or are handed back, in the
      order in which they were bound, and those that wait still are the last ones. */
  lemma {:induction false} NewcomersInOrder(c: Core, returned: seq<Group>, ops: seq<Op>)
    ensures c.pending + BoundInOrder(ops) == LeftInOrder(c, returned, ops) + ApplyAll(c, returned, ops).0.pending
    decreases |ops|
  {
    if ops != [] {
      var (d, r) := Apply(c, returned, ops[0]);
      NewcomersStep(c, returned, ops[0]);
      NewcomersInOrder(d, r, ops[1..]);
      Relay(c.pending, BoundNow(ops[0]), LeftNow(c, returned, ops[0]),
            d.pending, BoundInOrder(ops[1..]), LeftInOrder(d, r, ops[1..]),
            ApplyAll(d, r, ops[1..]).0.pending);
    }
  }

  /** A balance is due as long as a group waits. */
  predicate Due(c: Core) {
    c.pending != [] ==> c.needBalance
  }

  lemma ApplyKeepsDue(c: Core, returned: seq<Group>, op: Op)
    requires Due(c)
    ensures Due(Apply(c, returned, op).0)
    ensures op.DoRunTask? && c.immediate == [] ==> Apply(c, returned, op).0.pending == []
  {
    match op
    case DoRunTask(readings) =>
      RunTaskLists(c, readings);
      RunTaskFlag(c, readings);
      SortKeepsGroups(c);
    case _ =>
  }

  lemma RunTaskFlag(c: Core, readings: seq<int>)
    ensures RunTask(c, readings).needBalance <==> c.immediate != [] && c.needBalance
  {
    AddTimesKeepsLists(GetNextTask(c).0, GetNextTask(c).0.current, readings);
    SortKeepsGroups(c);
  }

  /** Nobody waits for longer than to the next decision: after any run from a worker without
      groups, a decision that is not for an immediate task lets everybody in. */
  lemma {:induction false} NobodyWaits(c: Core, returned: seq<Group>, ops: seq<Op>, readings: seq<int>)
    requires Due(c)
    ensures var d := ApplyAll(c, returned, ops).0;
      Due(d) && (d.immediate == [] ==> RunTask(d, readings).pending == [])
    decreases |ops|
  {
    if ops == [] {
      ApplyKeepsDue(c, returned, DoRunTask(readings));
    } else {
      ApplyKeepsDue(c, returned, ops[0]);
      var (d, r) := Apply(c, returned, ops[0]);
      NobodyWaits(d, r, ops[1..], readings);
    }
  }

  /** What is handed back by unbinding the worker: the running groups in the order of the
      list, then those that wait, in the order in which they were bound. */
  lemma HandedBackInOrder(c: Core)
    ensures var (d, groups) := UnBindAll(c);
      && |groups| == |c.running| + |c.pending| && d.running == d.pending == []
      && (forall i :: 0 <= i < |c.running| ==> groups[i] == c.running[i])
      && (forall i :: 0 <= i < |c.pending| ==> groups[|c.running| + i] == c.pending[i])
  {
  }
}
