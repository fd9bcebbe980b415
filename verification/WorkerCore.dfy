/**
 The scheduling decisions of `Worker`, as functions on its lists. A group is the list of
 its runners' ids, bottom of the stack first. Times are integers in nanoseconds.
 */
module WorkerCore {
  import opened Common
  import opened StableSort

  type Group = seq<nat>

  /** `tasks` holds what each runner's `GetNext` would return, oldest first. */
  datatype Core = Core(
    running: seq<Group>, pending: seq<Group>,
    time: map<nat, int>, priority: map<nat, int>, tasks: map<nat, seq<nat>>,
    immediate: seq<nat>, needBalance: bool, current: Group)
  {
    /** A runner starts with no time consumed. */
    function Time(id: nat): int {
      if id in time then time[id] else 0
    }

    /** The default priority of a runner is 1. */
    function Priority(id: nat): int {
      if id in priority then priority[id] else 1
    }

    function Tasks(id: nat): seq<nat> {
      if id in tasks then tasks[id] else []
    }

    /** What the comparison of `SortNoLock` looks at. */
    function Key(g: Group): int {
      if g == [] then 0 else Priority(g[0]) * Time(g[0])
    }

    /** The runner at the back of the group has a task. */
    predicate Ready(g: Group) {
      g != [] && Tasks(g[|g| - 1]) != []
    }
  }

  /** `SortNoLock`: the list sorted by priority times consumed time. */
  function SortedCore(c: Core): Core {
    if |c.running| > 1 then c.(running := Sort((g: Group) => c.Key(g), c.running)) else c
  }

  // ----- One decision -----

  function SetTimes(time: map<nat, int>, g: Group, t: int): (r: map<nat, int>)
    ensures r.Keys == time.Keys + (set id | id in g)
    ensures forall id :: id in r ==> r[id] == if id in g then t else time[id]
    decreases |g|
  {
    if g == [] then time else SetTimes(time[g[0] := t], g[1..], t)
  }

  function SetAllTimes(time: map<nat, int>, groups: seq<Group>, t: int): map<nat, int>
    decreases |groups|
  {
    if groups == [] then time else SetAllTimes(SetTimes(time, groups[0], t), groups[1..], t)
  }

  /** The time at which newcomers join: that of the group in front. */
  function JoinTime(c: Core): int {
    if c.running == [] || c.running[0] == [] then 0 else c.Time(c.running[0][0])
  }

  function Balance(c: Core): Core {
    if c.pending == [] then c
    else c.(time := SetAllTimes(c.time, c.pending, JoinTime(c)), running := c.pending + c.running, pending := [])
  }

  /** The place of the first group whose back runner has a task, or the length. */
  function FirstReady(c: Core, groups: seq<Group>): (i: nat)
    ensures i <= |groups| && (i < |groups| ==> c.Ready(groups[i]))
    ensures forall j :: 0 <= j < i ==> !c.Ready(groups[j])
  {
    if groups == [] || c.Ready(groups[0]) then 0 else 1 + FirstReady(c, groups[1..])
  }

  /** The lists as `GetNextTask` walks them. */
  function Prepared(c: Core): Core {
    var s := SortedCore(c);
    if c.needBalance then Balance(s).(needBalance := false) else s
  }

  function PopTask(c: Core, id: nat): Core {
    if c.Tasks(id) == [] then c else c.(tasks := c.tasks[id := c.Tasks(id)[1..]])
  }

  /** The walk over the prepared list. */
  function TakeFirstReady(p: Core): (Core, Option<nat>) {
    var i := FirstReady(p, p.running);
    if i == |p.running| then (p, None)
    else
      var g := p.running[i];
      (PopTask(p, g[|g| - 1]).(current := g), Some(p.Tasks(g[|g| - 1])[0]))
  }

  function GetNextTask(c: Core): (Core, Option<nat>) {
    if c.immediate != [] then (c.(immediate := c.immediate[1..]), Some(c.immediate[0]))
    else TakeFirstReady(Prepared(c))
  }

  /** `readings` are the times elapsed when the clock is read for each runner in turn. */
  function AddTimes(c: Core, g: Group, readings: seq<int>): Core
    decreases |g|
  {
    if g == [] || readings == [] then c
    else AddTimes(c.(time := c.time[g[0] := c.Time(g[0]) + readings[0]]), g[1..], readings[1..])
  }

  /** A task is charged to every runner of the current group. */
  function RunTask(c: Core, readings: seq<int>): Core {
    var (n, task) := GetNextTask(c);
    if task == None then n else AddTimes(n, n.current, readings)
  }

  // ----- Binding -----

  function Bind(c: Core, groups: seq<Group>): Core {
    c.(pending := c.pending + groups, needBalance := true)
  }

  function AddImmediate(c: Core, task: nat): Core {
    c.(immediate := c.immediate + [task])
  }

  function UnBindAll(c: Core): (Core, seq<Group>) {
    (c.(running := [], pending := []), c.running + c.pending)
  }

  /** The place of the first group that contains the runner, or the length. */
  function Find(groups: seq<Group>, id: nat): (i: nat)
    ensures i <= |groups| && (i < |groups| ==> id in groups[i])
    ensures forall j :: 0 <= j < i ==> id !in groups[j]
  {
    if groups == [] || id in groups[0] then 0 else 1 + Find(groups[1..], id)
  }

  function FindRunner(g: Group, id: nat): (i: nat)
    ensures i <= |g| && (i < |g| ==> g[i] == id)
    ensures forall j :: 0 <= j < i ==> g[j] != id
  {
    if g == [] || g[0] == id then 0 else 1 + FindRunner(g[1..], id)
  }

  function PushBack(groups: seq<Group>, i: nat, id: nat): seq<Group>
    requires i < |groups|
  {
    groups[i := groups[i] + [id]]
  }

  function Erase(groups: seq<Group>, i: nat, id: nat): seq<Group>
    requires i < |groups|
  {
    var k := FindRunner(groups[i], id);
    if k == |groups[i]| then groups else groups[i := groups[i][..k] + groups[i][k + 1..]]
  }

  /** The father is searched in the running groups, then in the pending ones. */
  function BindGroup(c: Core, father: nat, child: nat): Core
    requires Find(c.running, father) < |c.running| || Find(c.pending, father) < |c.pending|
  {
    var i := Find(c.running, father);
    if i < |c.running| then c.(running := PushBack(c.running, i, child))
    else c.(pending := PushBack(c.pending, Find(c.pending, father), child))
  }

  function UnBind(c: Core, id: nat): Core {
    var i := Find(c.running, id);
    if i < |c.running| then c.(running := Erase(c.running, i, id))
    else
      var j := Find(c.pending, id);
      if j < |c.pending| then c.(pending := Erase(c.pending, j, id)) else c
  }

  // ----- Groups are conserved and stack-like -----

  /** Every group the worker holds. */
  function Held(c: Core): multiset<Group> {
    multiset(c.running) + multiset(c.pending)
  }

  lemma {:induction false} AddTimesKeepsLists(c: Core, g: Group, readings: seq<int>)
    ensures AddTimes(c, g, readings) == c.(time := AddTimes(c, g, readings).time)
    decreases |g|
  {
    if g != [] && readings != [] {
      AddTimesKeepsLists(c.(time := c.time[g[0] := c.Time(g[0]) + readings[0]]), g[1..], readings[1..]);
    }
  }

  lemma SortKeepsGroups(c: Core)
    ensures SortedCore(c) == c.(running := SortedCore(c).running)
    ensures Held(SortedCore(c)) == Held(c)
  {
    SortSpec((g: Group) => c.Key(g), c.running);
  }

  lemma BalanceKeepsGroups(c: Core)
    ensures Held(Balance(c)) == Held(c) && Balance(c).pending == []
  {
  }

  lemma PreparedKeepsGroups(c: Core)
    ensures Held(Prepared(c)) == Held(c)
    ensures c.needBalance ==> Prepared(c).pending == []
  {
    SortKeepsGroups(c);
    BalanceKeepsGroups(SortedCore(c));
  }

  lemma GetNextTaskKeepsGroups(c: Core)
    ensures Held(GetNextTask(c).0) == Held(c)
  {
    if c.immediate == [] {
      PreparedKeepsGroups(c);
    }
  }

  /** Running a task, with its sort and its balance, keeps every group with its inner order. */
  lemma RunTaskKeepsGroups(c: Core, readings: seq<int>)
    ensures Held(RunTask(c, readings)) == Held(c)
  {
    GetNextTaskKeepsGroups(c);
    var n := GetNextTask(c).0;
    AddTimesKeepsLists(n, n.current, readings);
  }

  /** The group that runs is one the worker holds, or, for an immediate task, the one that
      ran before. */
  lemma CurrentIsHeld(c: Core)
    ensures GetNextTask(c).1.Some? ==>
      var g := GetNextTask(c).0.current;
      g == c.current || g in c.running || g in c.pending
  {
    PreparedKeepsGroups(c);
    var p := Prepared(c);
    var i := FirstReady(p, p.running);
    if c.immediate == [] && i < |p.running| {
      assert p.running[i] in Held(p);
      assert p.running[i] in Held(c);
    }
  }

  datatype Op = DoBind(groups: seq<Group>) | DoUnBindAll | DoRunTask(readings: seq<int>) | DoAddImmediate(task: nat)

  /** The worker and everything handed back by `UnBind` so far. */
  function Apply(c: Core, returned: seq<Group>, op: Op): (Core, seq<Group>) {
    match op
    case DoBind(groups) => (Bind(c, groups), returned)
    case DoUnBindAll => (UnBindAll(c).0, returned + UnBindAll(c).1)
    case DoRunTask(readings) => (RunTask(c, readings), returned)
    case DoAddImmediate(task) => (AddImmediate(c, task), returned)
  }

  function ApplyAll(c: Core, returned: seq<Group>, ops: seq<Op>): (Core, seq<Group>)
    decreases |ops|
  {
    if ops == [] then (c, returned)
    else var (d, r) := Apply(c, returned, ops[0]); ApplyAll(d, r, ops[1..])
  }

  function Bound(ops: seq<Op>): multiset<Group> {
    if ops == [] then multiset{}
    else (if ops[0].DoBind? then multiset(ops[0].groups) else multiset{}) + Bound(ops[1..])
  }

  /** Over any run of binds, decisions and whole-worker unbinds, what was held at first
      and every group bound is held or has been returned, each exactly once and with its
      inner order. */
  lemma {:induction false} GroupsConserved(c: Core, returned: seq<Group>, ops: seq<Op>)
    ensures var (d, r) := ApplyAll(c, returned, ops);
      Held(d) + multiset(r) == Held(c) + multiset(returned) + Bound(ops)
    decreases |ops|
  {
    if ops != [] {
      var (d, r) := Apply(c, returned, ops[0]);
      GroupsConserved(d, r, ops[1..]);
      match ops[0]
      case DoRunTask(readings) => RunTaskKeepsGroups(c, readings);
      case _ =>
    }
  }

  lemma PopTakesOne(c: Core, id: nat)
    requires c.Tasks(id) != []
    ensures c.Tasks(id) == [c.Tasks(id)[0]] + PopTask(c, id).Tasks(id)
    ensures forall other :: other != id ==> PopTask(c, id).Tasks(other) == c.Tasks(other)
  {
  }

  /** What the walk takes, it takes from the back of a group of the list. */
  lemma TakesTheBack(p: Core)
    requires TakeFirstReady(p).1.Some?
    ensures var (n, task) := TakeFirstReady(p);
      && n.running == p.running && n.current in n.running && n.current != []
      && p.Tasks(n.current[|n.current| - 1]) == [task.value] + n.Tasks(n.current[|n.current| - 1])
    ensures var n := TakeFirstReady(p).0;
      forall id :: id != n.current[|n.current| - 1] ==> n.Tasks(id) == p.Tasks(id)
  {
    var g := p.running[FirstReady(p, p.running)];
    assert p.Ready(g) && g in p.running;
    PopTakesOne(p, g[|g| - 1]);
  }

  lemma PreparedTasks(c: Core)
    ensures Prepared(c).tasks == c.tasks
  {
  }

  lemma SameTasksReady(c: Core, p: Core, g: Group)
    requires p.tasks == c.tasks
    ensures p.Ready(g) <==> c.Ready(g)
  {
  }

  /** The task run comes from the back of the chosen group, and every group before it in
      the list has nothing at its back: a child at the back keeps every runner below it
      waiting. */
  lemma OnlyTheBackRuns(c: Core)
    requires c.immediate == [] && GetNextTask(c).1.Some?
    ensures var (n, task) := GetNextTask(c);
      && n.current in n.running && n.current != []
      && c.Tasks(n.current[|n.current| - 1]) == [task.value] + n.Tasks(n.current[|n.current| - 1])
      && (forall id :: id != n.current[|n.current| - 1] ==> n.Tasks(id) == c.Tasks(id))
    ensures forall j :: 0 <= j < FirstReady(Prepared(c), Prepared(c).running) ==> !c.Ready(Prepared(c).running[j])
  {
    var p := Prepared(c);
    PreparedTasks(c);
    TakesTheBack(p);
    forall j | 0 <= j < FirstReady(p, p.running)
      ensures !c.Ready(p.running[j])
    {
      SameTasksReady(c, p, p.running[j]);
    }
  }

  /** The runner is at the back of none of the groups. */
  predicate Below(groups: seq<Group>, id: nat) {
    forall g :: g in groups && g != [] ==> g[|g| - 1] != id
  }

  predicate HeldBelow(c: Core, id: nat) {
    Below(c.running, id) && Below(c.pending, id)
  }

  predicate BoundBelow(ops: seq<Op>, id: nat) {
    forall op :: op in ops && op.DoBind? ==> Below(op.groups, id)
  }

  lemma SameGroupsBelow(c: Core, d: Core, id: nat)
    requires Held(d) == Held(c) && HeldBelow(c, id)
    ensures HeldBelow(d, id)
  {
    forall g | g in d.running || g in d.pending
      ensures g in c.running || g in c.pending
    {
      assert g in Held(d);
      assert g in Held(c);
    }
  }

  lemma ChargingKeepsTasks(c: Core, readings: seq<int>, id: nat)
    ensures RunTask(c, readings).Tasks(id) == GetNextTask(c).0.Tasks(id)
  {
    AddTimesKeepsLists(GetNextTask(c).0, GetNextTask(c).0.current, readings);
  }

  lemma PreparedBelow(c: Core, id: nat)
    requires HeldBelow(c, id)
    ensures Below(Prepared(c).running, id)
  {
    PreparedKeepsGroups(c);
    SameGroupsBelow(c, Prepared(c), id);
  }

  /** A decision takes nothing from a runner that is at the back of no group. */
  lemma DecisionSparesBelow(c: Core, id: nat)
    requires HeldBelow(c, id)
    ensures GetNextTask(c).0.Tasks(id) == c.Tasks(id)
  {
    if c.immediate == [] {
      PreparedTasks(c);
      PreparedBelow(c, id);
      TakesFromTheBack(Prepared(c), id);
    }
  }

  lemma TakesFromTheBack(p: Core, id: nat)
    requires Below(p.running, id)
    ensures TakeFirstReady(p).0.Tasks(id) == p.Tasks(id)
  {
    var i := FirstReady(p, p.running);
    if i < |p.running| {
      assert p.running[i] in p.running;
    }
  }

  lemma ApplyKeepsBelow(c: Core, returned: seq<Group>, op: Op, id: nat)
    requires HeldBelow(c, id) && (op.DoBind? ==> Below(op.groups, id))
    ensures HeldBelow(Apply(c, returned, op).0, id)
    ensures Apply(c, returned, op).0.Tasks(id) == c.Tasks(id)
  {
    match op
    case DoRunTask(readings) =>
      RunTaskKeepsGroups(c, readings);
      SameGroupsBelow(c, RunTask(c, readings), id);
      ChargingKeepsTasks(c, readings, id);
      DecisionSparesBelow(c, id);
    case _ =>
  }

  /** Over any run of binds, decisions and whole-worker unbinds, a runner that is below
      the back of its group, or in no group, keeps all its tasks. */
  lemma {:induction false} BelowTheBackWaits(c: Core, returned: seq<Group>, ops: seq<Op>, id: nat)
    requires HeldBelow(c, id) && BoundBelow(ops, id)
    ensures ApplyAll(c, returned, ops).0.Tasks(id) == c.Tasks(id)
    decreases |ops|
  {
    if ops != [] {
      assert ops[0] in ops;
      ApplyKeepsBelow(c, returned, ops[0], id);
      var (d, r) := Apply(c, returned, ops[0]);
      BelowTheBackWaits(d, r, ops[1..], id);
    }
  }

  /** The runner is at the back of no group but, perhaps, the one at place `i`. */
  predicate BelowExcept(groups: seq<Group>, i: nat, id: nat) {
    forall j :: 0 <= j < |groups| && j != i && groups[j] != [] ==> groups[j][|groups[j]| - 1] != id
  }

  lemma PushBackCovers(groups: seq<Group>, i: nat, child: nat, id: nat)
    requires i < |groups| && BelowExcept(groups, i, id) && id != child
    ensures Below(PushBack(groups, i, child), id)
  {
    var r := PushBack(groups, i, child);
    forall g | g in r && g != []
      ensures g[|g| - 1] != id
    {
      var j :| 0 <= j < |r| && r[j] == g;
      assert j != i ==> groups[j] == g;
    }
  }

  lemma BelowEverywhere(groups: seq<Group>, id: nat)
    requires BelowExcept(groups, |groups|, id)
    ensures Below(groups, id)
  {
  }

  /** While a child bound by `BindGroup` stays at the back, no task of a runner below it
      in its group is taken, whatever is bound, run and unbound meanwhile. */
  lemma ChildBlocksItsGroup(c: Core, father: nat, child: nat, id: nat, returned: seq<Group>, ops: seq<Op>)
    requires Find(c.running, father) < |c.running| || Find(c.pending, father) < |c.pending|
    requires BelowExcept(c.running, Find(c.running, father), id)
    requires Find(c.running, father) < |c.running| ==> BelowExcept(c.pending, |c.pending|, id)
    requires Find(c.running, father) >= |c.running| ==> BelowExcept(c.pending, Find(c.pending, father), id)
    requires id != child && BoundBelow(ops, id)
    ensures ApplyAll(BindGroup(c, father, child), returned, ops).0.Tasks(id) == c.Tasks(id)
  {
    var i, j := Find(c.running, father), Find(c.pending, father);
    if i < |c.running| {
      PushBackCovers(c.running, i, child, id);
      BelowEverywhere(c.pending, id);
    } else {
      BelowEverywhere(c.running, id);
      PushBackCovers(c.pending, j, child, id);
    }
    BelowTheBackWaits(BindGroup(c, father, child), returned, ops, id);
  }

  lemma {:induction false} EraseUndoesPushBack(groups: seq<Group>, i: nat, id: nat)
    requires i < |groups| && forall g :: g in groups ==> id !in g
    ensures Find(PushBack(groups, i, id), id) == i && Erase(PushBack(groups, i, id), i, id) == groups
  {
    var p := PushBack(groups, i, id);
    assert p[i] == groups[i] + [id] && p[i][|groups[i]|] == id;
    assert forall j :: 0 <= j < |groups| && j != i ==> p[j] == groups[j];
    assert id in p[i];
    var k := FindRunner(p[i], id);
    assert k == |groups[i]| by {
      assert groups[i] in groups;
    }
    assert p[i][..k] + p[i][k + 1..] == groups[i];
    assert p[i := groups[i]] == groups;
  }

  /** A child that was nowhere in the worker goes to the back of its father's group, and
      unbinding it undoes the binding. */
  lemma UnBindUndoesBindGroup(c: Core, father: nat, child: nat)
    requires Find(c.running, father) < |c.running| || Find(c.pending, father) < |c.pending|
    requires forall g :: g in c.running || g in c.pending ==> child !in g
    ensures UnBind(BindGroup(c, father, child), child) == c
  {
    var i, j := Find(c.running, father), Find(c.pending, father);
    if i < |c.running| {
      EraseUndoesPushBack(c.running, i, child);
    } else {
      EraseUndoesPushBack(c.pending, j, child);
      assert Find(c.running, child) == |c.running|;
    }
  }

  /** The runner is alone in the group in which `UnBind` finds it. */
  predicate Alone(c: Core, id: nat) {
    var i, j := Find(c.running, id), Find(c.pending, id);
    if i < |c.running| then c.running[i] == [id] else j < |c.pending| && c.pending[j] == [id]
  }

  lemma ErasedGroup(g: Group, id: nat)
    requires id in g
    ensures var k := FindRunner(g, id);
      k < |g| && (g[..k] + g[k + 1..] == [] <==> g == [id])
  {
    var k := FindRunner(g, id);
    assert k < |g| && g[k] == id;
    assert |g[..k] + g[k + 1..]| == |g| - 1;
    assert |g| == 1 ==> g == [id];
  }

  lemma EraseEmptiesIff(groups: seq<Group>, i: nat, id: nat)
    requires i < |groups| && id in groups[i] && [] !in groups
    ensures [] in Erase(groups, i, id) <==> groups[i] == [id]
  {
    ErasedGroup(groups[i], id);
    var r := Erase(groups, i, id);
    assert r[i] in r;
    assert forall j :: 0 <= j < |groups| && j != i ==> r[j] == groups[j] && groups[j] in groups;
  }

  /** The sort insists that no group is empty. Unbinding a runner leaves an empty group
      exactly when the runner is alone in its group. */
  lemma UnBindEmptiesIff(c: Core, id: nat)
    requires [] !in c.running && [] !in c.pending
    ensures var d := UnBind(c, id); ([] in d.running || [] in d.pending) <==> Alone(c, id)
  {
    var i, j := Find(c.running, id), Find(c.pending, id);
    if i < |c.running| {
      EraseEmptiesIff(c.running, i, id);
    } else if j < |c.pending| {
      EraseEmptiesIff(c.pending, j, id);
    }
  }

  // ----- What binding and unbinding one runner does -----

  /** `p + [id] + q` is the first group with the runner, at place `i`. */
  ghost predicate FirstWith(groups: seq<Group>, id: nat, i: nat, p: Group, q: Group) {
    && i < |groups| && (forall j :: 0 <= j < i ==> id !in groups[j])
    && groups[i] == p + [id] + q && id !in p
  }

  /** The runner is gone from the first group that contains it, at its first place there;
      without such a group nothing changes. */
  ghost predicate Removed(groups: seq<Group>, id: nat, r: seq<Group>) {
    if forall g :: g in groups ==> id !in g then r == groups
    else exists i: nat, p: Group, q: Group :: FirstWith(groups, id, i, p, q) && r == groups[i := p + q]
  }

  lemma FindNone(groups: seq<Group>, id: nat)
    ensures Find(groups, id) == |groups| <==> forall g :: g in groups ==> id !in g
  {
    if Find(groups, id) < |groups| {
      assert groups[Find(groups, id)] in groups;
    }
  }

  lemma EraseRemoves(groups: seq<Group>, id: nat)
    requires Find(groups, id) < |groups|
    ensures Removed(groups, id, Erase(groups, Find(groups, id), id))
  {
    var i := Find(groups, id);
    var k := FindRunner(groups[i], id);
    var p, q := groups[i][..k], groups[i][k + 1..];
    FindNone(groups, id);
    assert k < |groups[i]| && groups[i] == p + [id] + q;
    assert FirstWith(groups, id, i, p, q);
  }

  /** Unbinding a runner takes that runner out of the first running group that contains it,
      or else out of the first pending one, and changes nothing else. */
  lemma UnBindRemoves(c: Core, id: nat)
    ensures var d := UnBind(c, id);
      && d == c.(running := d.running, pending := d.pending)
      && Removed(c.running, id, d.running)
      && (if exists g :: g in c.running && id in g then d.pending == c.pending else Removed(c.pending, id, d.pending))
  {
    FindNone(c.running, id);
    FindNone(c.pending, id);
    if Find(c.running, id) < |c.running| {
      EraseRemoves(c.running, id);
    } else if Find(c.pending, id) < |c.pending| {
      EraseRemoves(c.pending, id);
    }
  }

  /** The first group that contains the father has the child at its back. */
  ghost predicate Stacked(groups: seq<Group>, father: nat, child: nat, r: seq<Group>) {
    exists i: nat, p: Group, q: Group ::
      FirstWith(groups, father, i, p, q) && r == groups[i := p + [father] + q + [child]]
  }

  lemma PushBackStacks(groups: seq<Group>, father: nat, child: nat)
    requires Find(groups, father) < |groups|
    ensures Stacked(groups, father, child, PushBack(groups, Find(groups, father), child))
  {
    var i := Find(groups, father);
    var k := FindRunner(groups[i], father);
    var p, q := groups[i][..k], groups[i][k + 1..];
    assert k < |groups[i]| && groups[i] == p + [father] + q;
    assert FirstWith(groups, father, i, p, q);
  }

  /** Binding a child to a father puts it at the back of the first running group that
      contains the father, or else of the first pending one, and changes nothing else. */
  lemma BindGroupStacks(c: Core, father: nat, child: nat)
    requires Find(c.running, father) < |c.running| || Find(c.pending, father) < |c.pending|
    ensures var d := BindGroup(c, father, child);
      && d == c.(running := d.running, pending := d.pending)
      && (if exists g :: g in c.running && father in g
          then Stacked(c.running, father, child, d.running) && d.pending == c.pending
          else Stacked(c.pending, father, child, d.pending) && d.running == c.running)
  {
    FindNone(c.running, father);
    if Find(c.running, father) < |c.running| {
      PushBackStacks(c.running, father, child);
    } else {
      PushBackStacks(c.pending, father, child);
    }
  }

  // ----- What each runner is charged -----

  /** The readings taken at the places of the runner in the group. */
  function ChargeOf(g: Group, readings: seq<int>, id: nat): int
    decreases |g|
  {
    if g == [] || readings == [] then 0
    else (if g[0] == id then readings[0] else 0) + ChargeOf(g[1..], readings[1..], id)
  }

  lemma {:induction false} AddTimesCharges(c: Core, g: Group, readings: seq<int>, id: nat)
    ensures AddTimes(c, g, readings).Time(id) == c.Time(id) + ChargeOf(g, readings, id)
    decreases |g|
  {
    if g != [] && readings != [] {
      var m := c.(time := c.time[g[0] := c.Time(g[0]) + readings[0]]);
      AddTimesCharges(m, g[1..], readings[1..], id);
      assert m.Time(id) == c.Time(id) + if g[0] == id then readings[0] else 0;
    }
  }

  /** The runner at place `k` has no other place in the group. */
  predicate Once(g: Group, k: nat)
    requires k < |g|
  {
    forall j :: 0 <= j < |g| && j != k ==> g[j] != g[k]
  }

  lemma {:induction false} ChargeAt(g: Group, readings: seq<int>, k: nat)
    requires k < |g| && k < |readings| && Once(g, k)
    ensures ChargeOf(g, readings, g[k]) == readings[k]
    decreases |g|
  {
    if k == 0 {
      NoCharge(g[1..], readings[1..], g[0]);
    } else {
      assert g[1..][k - 1] == g[k];
      ChargeAt(g[1..], readings[1..], k - 1);
    }
  }

  lemma {:induction false} NoCharge(g: Group, readings: seq<int>, id: nat)
    requires id !in g
    ensures ChargeOf(g, readings, id) == 0
    decreases |g|
  {
    if g != [] && readings != [] {
      NoCharge(g[1..], readings[1..], id);
    }
  }

  /** A task charges each runner of the group that ran with the reading taken for it, and
      nobody else; without a task nobody is charged. */
  lemma RunTaskCharges(c: Core, readings: seq<int>, id: nat)
    ensures var n := GetNextTask(c).0;
      RunTask(c, readings).Time(id) ==
      n.Time(id) + if GetNextTask(c).1.Some? then ChargeOf(n.current, readings, id) else 0
    ensures var g := GetNextTask(c).0.current;
      forall k :: 0 <= k < |g| && k < |readings| && Once(g, k) ==> ChargeOf(g, readings, g[k]) == readings[k]
    ensures id !in GetNextTask(c).0.current ==> RunTask(c, readings).Time(id) == GetNextTask(c).0.Time(id)
  {
    var n := GetNextTask(c).0;
    AddTimesCharges(n, n.current, readings, id);
    forall k | 0 <= k < |n.current| && k < |readings| && Once(n.current, k)
      ensures ChargeOf(n.current, readings, n.current[k]) == readings[k]
    {
      ChargeAt(n.current, readings, k);
    }
    if id !in n.current {
      NoCharge(n.current, readings, id);
    }
  }
}
