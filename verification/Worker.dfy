/**
 `Worker` as an object: its lists and its runners' times are changed in place.
 */
module WorkerModule {
  import opened Common
  import opened StableSort
  import opened WorkerCore

  class Worker {
    var running: seq<Group>
    var pending: seq<Group>
    var time: map<nat, int>
    var priority: map<nat, int>
    var tasks: map<nat, seq<nat>>
    var immediate: seq<nat>
    var needBalance: bool
    var current: Group

    function View(): Core
      reads this
    {
      Core(running, pending, time, priority, tasks, immediate, needBalance, current)
    }

    constructor ()
      ensures View() == Core([], [], map[], map[], map[], [], false, [])
    {
      running, pending := [], [];
      time, priority, tasks := map[], map[], map[];
      immediate, needBalance, current := [], false, [];
    }

    /** The source's comparison, which a list of one group never meets, insists that no
        group is empty. */
    method SortNoLock()
      requires |running| > 1 ==> [] !in running
      modifies `running
      ensures View() == SortedCore(old(View()))
      ensures multiset(running) == multiset(old(running))
    {
      if running != [] {
        var c := View();
        var key := (g: Group) => c.Key(g);
        SortSpec(key, running);
        if |running| == 1 {
          assert Sort(key, running[1..]) == [] && Sort(key, running) == running;
        }
        running := Sort(key, running);
      }
    }

    /** Newcomers get the front's time and are spliced in before it. */
    method BalanceNoLock()
      requires running != [] ==> running[0] != []
      modifies `running, `pending, `time
      ensures View() == Balance(old(View()))
    {
      if pending == [] {
        return;
      }
      var joinTime := 0;
      if running != [] {
        joinTime := View().Time(running[0][0]);
      }
      ghost var all := SetAllTimes(time, pending, joinTime);
      var i := 0;
      while i < |pending|
        invariant pending == old(pending) && running == old(running)
        invariant 0 <= i <= |pending|
        invariant SetAllTimes(time, pending[i..], joinTime) == all
      {
        ghost var these := SetTimes(time, pending[i], joinTime);
        var k := 0;
        while k < |pending[i]|
          invariant pending == old(pending) && running == old(running)
          invariant 0 <= k <= |pending[i]|
          invariant SetTimes(time, pending[i][k..], joinTime) == these
        {
          assert pending[i][k..][1..] == pending[i][k + 1..];
          time := time[pending[i][k] := joinTime];
          k := k + 1;
        }
        assert pending[i..][1..] == pending[i + 1..];
        i := i + 1;
      }
      running, pending := pending + running, [];
    }

    /** The next task: an immediate one, or the first one found at the back of a group
        after sorting and letting newcomers in. */
    method GetNextTask() returns (task: Option<nat>)
      requires [] !in running && [] !in pending
      modifies this
      ensures (View(), task) == WorkerCore.GetNextTask(old(View()))
    {
      if immediate != [] {
        task := Some(immediate[0]);
        immediate := immediate[1..];
        return;
      }
      Prepare();
      var i := FindReady();
      if i == |running| {
        return None;
      }
      var runner := running[i][|running[i]| - 1];
      task := Some(tasks[runner][0]);
      tasks := tasks[runner := tasks[runner][1..]];
      current := running[i];
    }

    method Prepare()
      requires [] !in running && [] !in pending
      modifies `running, `pending, `time, `needBalance
      ensures View() == Prepared(old(View()))
    {
      if |running| > 1 {
        SortNoLock();
        assert forall g :: g in running ==> g in multiset(running);
      }
      if needBalance {
        assert running != [] ==> running[0] in running;
        BalanceNoLock();
        needBalance := false;
      }
    }

    /** The place of the first group whose back runner has a task, or the length. */
    method FindReady() returns (i: nat)
      ensures i == FirstReady(View(), running)
    {
      i := 0;
      while i < |running|
        invariant 0 <= i <= |running|
        invariant i + FirstReady(View(), running[i..]) == FirstReady(View(), running)
      {
        assert running[i..][1..] == running[i + 1..];
        if View().Ready(running[i]) {
          return;
        }
        i := i + 1;
      }
    }

    /** Runs one task and charges the current group; the clock is read once for each of its
        runners. */
    method RunTask(readings: seq<int>)
      requires [] !in running && [] !in pending
      requires forall g :: g in running || g in pending || g == current ==> |g| <= |readings|
      modifies this
      ensures View() == WorkerCore.RunTask(old(View()), readings)
    {
      CurrentIsHeld(View());
      var task := GetNextTask();
      if task.Some? {
        ChargeCurrent(readings);
      }
    }

    method ChargeCurrent(readings: seq<int>)
      requires |current| <= |readings|
      modifies `time
      ensures View() == AddTimes(old(View()), current, readings)
    {
      ghost var charged := AddTimes(View(), current, readings);
      assert readings[0..] == readings && current[0..] == current;
      var k := 0;
      while k < |current|
        invariant 0 <= k <= |current| <= |readings|
        invariant AddTimes(View(), current[k..], readings[k..]) == charged
      {
        assert current[k..][1..] == current[k + 1..] && readings[k..][1..] == readings[k + 1..];
        time := time[current[k] := View().Time(current[k]) + readings[k]];
        k := k + 1;
      }
    }

    method BindAll(groups: seq<Group>)
      modifies `pending, `needBalance
      ensures View() == Bind(old(View()), groups)
    {
      pending := pending + groups;
      needBalance := true;
    }

    method AddImmediateTask(task: nat)
      modifies `immediate
      ensures View() == AddImmediate(old(View()), task)
    {
      immediate := immediate + [task];
    }

    method UnBindWorker() returns (groups: seq<Group>)
      modifies `running, `pending
      ensures (View(), groups) == UnBindAll(old(View()))
    {
      groups := running + pending;
      running, pending := [], [];
    }

    /** The first group of `groups` that contains the runner, or the length. */
    method FindGroup(groups: seq<Group>, id: nat) returns (i: nat)
      ensures i == Find(groups, id)
    {
      i := 0;
      while i < |groups| && id !in groups[i]
        invariant 0 <= i <= |groups|
        invariant i + Find(groups[i..], id) == Find(groups, id)
      {
        assert groups[i..][1..] == groups[i + 1..];
        i := i + 1;
      }
    }

    /** The source requires that the father is found. */
    method BindGroup(father: nat, child: nat)
      requires Find(running, father) < |running| || Find(pending, father) < |pending|
      modifies `running, `pending
      ensures View() == WorkerCore.BindGroup(old(View()), father, child)
    {
      var i := FindGroup(running, father);
      if i < |running| {
        running := running[i := running[i] + [child]];
      } else {
        i := FindGroup(pending, father);
        pending := pending[i := pending[i] + [child]];
      }
    }

    method UnBindRunner(id: nat)
      modifies `running, `pending
      ensures View() == UnBind(old(View()), id)
    {
      var i := FindGroup(running, id);
      if i < |running| {
        running := Erase(running, i, id);
      } else {
        i := FindGroup(pending, id);
        if i < |pending| {
          pending := Erase(pending, i, id);
        }
      }
    }
  }
}
