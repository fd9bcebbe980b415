/**
 The worker as a fair scheduler: disjoint groups of any size that always have a task at
 their backs. This file has what one decision does, and the fair share of groups of one
 priority while others join; `WorkerWaiting` has unequal priorities.
 */
module WorkerFairness {
  import opened StableSort
  import opened WorkerCore

  ghost predicate Holds(c: Core, g: Group) {
    g in c.running || g in c.pending
  }

  predicate Apart(g: Group, h: Group) {
    forall id :: id in g ==> id !in h
  }

  /** No runner is in two groups, and the front one is in its group once; its priority is
      positive. */
  ghost predicate Disjoint(c: Core) {
    && (forall g :: g in c.running || g in c.pending ==> g != [] && g[0] !in g[1..] && c.Priority(g[0]) > 0)
    && (forall g, h :: Holds(c, g) && Holds(c, h) && g != h ==> Apart(g, h))
    && (forall g :: g in c.running ==> g !in c.pending)
  }

  /** All groups have priority `p`. */
  ghost predicate Peers(c: Core, p: int) {
    Disjoint(c) && forall g :: Holds(c, g) && g != [] ==> c.Priority(g[0]) == p
  }

  ghost predicate AllReady(c: Core) {
    c.immediate == [] && forall g :: Holds(c, g) ==> c.Ready(g)
  }

  /** The consumed times in the list never decrease from front to back. */
  ghost predicate TimesSorted(c: Core) {
    forall i, j :: 0 <= i < j < |c.running| && c.running[i] != [] && c.running[j] != [] ==>
      c.Time(c.running[i][0]) <= c.Time(c.running[j][0])
  }

  /** No two running groups differ by more than `D` in consumed time. */
  ghost predicate Spread(c: Core, D: int) {
    forall g, h :: g in c.running && h in c.running && g != [] && h != [] ==> c.Time(g[0]) - c.Time(h[0]) <= D
  }

  /** Whatever moves groups about keeps them disjoint. */
  lemma RegroupKeeps(c: Core, d: Core)
    requires Disjoint(c) && d.priority == c.priority
    requires forall g :: Holds(d, g) ==> Holds(c, g)
    requires forall g :: g in d.running ==> g !in d.pending
    ensures Disjoint(d)
    ensures forall p :: Peers(c, p) ==> Peers(d, p)
  {
    assert forall id :: d.Priority(id) == c.Priority(id);
    assert forall g :: g in d.running || g in d.pending ==> Holds(d, g);
  }

  // ----- Sorting -----

  lemma KeyOrderIsTimeOrder(p: int, s: int, t: int)
    requires p > 0
    ensures p * s <= p * t <==> s <= t
  {
    if s <= t {
      assert p * (t - s) >= 0;
    } else {
      assert p * (s - t) >= 1;
    }
  }

  lemma SortOrders(c: Core, p: int, r: seq<Group>, i: nat, j: nat)
    requires Peers(c, p) && i < j < |r| && r[i] in c.running && r[j] in c.running
    requires c.Key(r[i]) <= c.Key(r[j]) && r[i] != [] && r[j] != []
    ensures c.Time(r[i][0]) <= c.Time(r[j][0])
  {
    assert Holds(c, r[i]) && Holds(c, r[j]);
    KeyOrderIsTimeOrder(p, c.Time(r[i][0]), c.Time(r[j][0]));
  }

  lemma SameElements(a: seq<Group>, b: seq<Group>)
    requires multiset(a) == multiset(b)
    ensures forall g :: g in a <==> g in b
  {
    assert forall g :: g in a <==> g in multiset(a);
    assert forall g :: g in b <==> g in multiset(b);
  }

  lemma SortSame(c: Core)
    ensures SortedCore(c) == c.(running := SortedCore(c).running) && |SortedCore(c).running| == |c.running|
    ensures forall g :: g in SortedCore(c).running <==> g in c.running
    ensures Sorted((g: Group) => c.Key(g), SortedCore(c).running)
  {
    var r := SortedCore(c).running;
    SortSpec((g: Group) => c.Key(g), c.running);
    assert multiset(r) == multiset(c.running);
    assert |r| == |multiset(r)| && |c.running| == |multiset(c.running)|;
    SameElements(r, c.running);
  }

  lemma SortKeeps(c: Core, p: int)
    requires Peers(c, p)
    ensures Peers(SortedCore(c), p) && TimesSorted(SortedCore(c))
  {
    var r := SortedCore(c).running;
    var key := (g: Group) => c.Key(g);
    SortSame(c);
    RegroupKeeps(c, SortedCore(c));
    forall i, j | 0 <= i < j < |r| && r[i] != [] && r[j] != []
      ensures c.Time(r[i][0]) <= c.Time(r[j][0])
    {
      assert key(r[i]) <= key(r[j]);
      SortOrders(c, p, r, i, j);
    }
  }

  // ----- Letting newcomers in -----

  lemma {:induction false} SetAllTimesSpec(time: map<nat, int>, groups: seq<Group>, t: int)
    ensures var r := SetAllTimes(time, groups, t);
      forall id :: (exists g :: g in groups && id in g) ==> id in r && r[id] == t
    ensures var r := SetAllTimes(time, groups, t);
      forall id :: (forall g :: g in groups ==> id !in g) ==>
        (id in r <==> id in time) && (id in r ==> r[id] == time[id])
    decreases |groups|
  {
    if groups != [] {
      var time1 := SetTimes(time, groups[0], t);
      SetAllTimesSpec(time1, groups[1..], t);
      var r := SetAllTimes(time, groups, t);
      forall id | exists g :: g in groups && id in g
        ensures id in r && r[id] == t
      {
        if forall g :: g in groups[1..] ==> id !in g {
          var g :| g in groups && id in g;
          assert g == groups[0];
        }
      }
      forall id | forall g :: g in groups ==> id !in g
        ensures (id in r <==> id in time) && (id in r ==> r[id] == time[id])
      {
        assert id !in groups[0];
      }
    }
  }

  lemma BalanceTimes(c: Core)
    requires Disjoint(c)
    ensures forall g :: g in c.running ==> Balance(c).Time(g[0]) == c.Time(g[0])
    ensures forall g :: g in c.pending ==> Balance(c).Time(g[0]) == JoinTime(c)
  {
    SetAllTimesSpec(c.time, c.pending, JoinTime(c));
    forall g | g in c.running
      ensures Balance(c).Time(g[0]) == c.Time(g[0])
    {
      forall h | h in c.pending
        ensures g[0] !in h
      {
        assert Holds(c, g) && Holds(c, h) && Apart(g, h);
      }
    }
    forall g | g in c.pending
      ensures Balance(c).Time(g[0]) == JoinTime(c)
    {
      assert Holds(c, g) && g[0] in g;
      assert exists h :: h in c.pending && g[0] in h;
    }
  }

  lemma FrontIsLeast(q: Core, g: Group)
    requires Disjoint(q) && TimesSorted(q) && g in q.running
    ensures Holds(q, q.running[0]) && Holds(q, g) && q.Time(q.running[0][0]) <= q.Time(g[0])
  {
    assert Holds(q, g) && Holds(q, q.running[0]);
    var i :| 0 <= i < |q.running| && q.running[i] == g;
  }

  lemma BalanceOrders(c: Core, i: nat, j: nat)
    requires Disjoint(c) && TimesSorted(c) && c.pending != []
    requires i < j < |Balance(c).running| && Balance(c).running[i] != [] && Balance(c).running[j] != []
    ensures Balance(c).Time(Balance(c).running[i][0]) <= Balance(c).Time(Balance(c).running[j][0])
  {
    var n, r := |c.pending|, Balance(c).running;
    BalanceTimes(c);
    if j < n {
      assert r[i] in c.pending && r[j] in c.pending;
    } else if i < n {
      assert r[i] in c.pending && r[j] == c.running[j - n];
      FrontIsLeast(c, r[j]);
    } else {
      assert r[i] == c.running[i - n] && r[j] == c.running[j - n];
      assert c.running[i - n] in c.running && c.running[j - n] in c.running;
    }
  }

  /** Newcomers take the time of the group in front and go before it: the list stays
      sorted, nobody else's time changes, and nobody gets ahead of the least time. */
  lemma BalanceKeeps(c: Core, p: int)
    requires Peers(c, p) && TimesSorted(c)
    ensures Peers(Balance(c), p) && TimesSorted(Balance(c)) && Balance(c).pending == []
  {
    var r := Balance(c);
    assert forall g :: Holds(r, g) <==> Holds(c, g);
    RegroupKeeps(c, r);
    forall i, j | 0 <= i < j < |r.running| && r.running[i] != [] && r.running[j] != [] && c.pending != []
      ensures r.Time(r.running[i][0]) <= r.Time(r.running[j][0])
    {
      BalanceOrders(c, i, j);
    }
  }

  lemma BalanceSpread(c: Core, D: int)
    requires Disjoint(c) && D >= 0 && Spread(c, D)
    ensures Spread(Balance(c), D)
  {
    var b := Balance(c);
    BalanceTimes(c);
    forall g, h | g in b.running && h in b.running && g != [] && h != []
      ensures b.Time(g[0]) - b.Time(h[0]) <= D
    {
      if c.running != [] {
        assert c.running[0] in c.running && Holds(c, c.running[0]);
      }
      assert g in c.pending || g in c.running;
      assert h in c.pending || h in c.running;
    }
  }

  /** Sorting and then splicing the newcomers in at the front's time leaves a sorted list
      in which the times spread no further. */
  lemma JoinKeepsFairness(c: Core, p: int, D: int)
    requires Peers(c, p) && D >= 0 && Spread(c, D)
    ensures Peers(Prepared(c), p) && TimesSorted(Prepared(c)) && Spread(Prepared(c), D)
    ensures forall g :: Holds(Prepared(c), g) <==> Holds(c, g)
    ensures Prepared(c).pending == if c.needBalance then [] else c.pending
  {
    var s := SortedCore(c);
    SortKeeps(c, p);
    SortSpread(c, D);
    if c.needBalance {
      BalanceKeeps(s, p);
      BalanceSpread(s, D);
      RegroupKeeps(Balance(s), Prepared(c));
    }
    JoinGroups(c);
  }

  lemma SortSpread(c: Core, D: int)
    requires Spread(c, D)
    ensures Spread(SortedCore(c), D)
  {
    SortSame(c);
  }

  lemma JoinGroups(c: Core)
    ensures forall g :: Holds(Prepared(c), g) <==> Holds(c, g)
    ensures Prepared(c).pending == if c.needBalance then [] else c.pending
  {
    SortSame(c);
  }

  // ----- Decisions -----

  lemma PreparedFields(c: Core)
    ensures var q := Prepared(c);
      q.tasks == c.tasks && q.priority == c.priority && q.immediate == c.immediate && !q.needBalance
  {
  }

  lemma FrontRuns(c: Core)
    requires c.immediate == [] && Prepared(c).running != [] && c.Ready(Prepared(c).running[0])
    ensures var q := Prepared(c);
      GetNextTask(c).0 == PopTask(q, q.running[0][|q.running[0]| - 1]).(current := q.running[0])
      && GetNextTask(c).1.Some?
  {
    PreparedFields(c);
    assert Prepared(c).Ready(Prepared(c).running[0]);
  }

  /** `r` is `q` with the group in front charged: each of its runners with its own reading
      of the clock. */
  ghost predicate Charged(q: Core, readings: seq<int>, r: Core) {
    && q.running != [] && readings != []
    && r.running == q.running && r.pending == q.pending && r.priority == q.priority
    && r.current == q.running[0]
    && r.time == AddTimes(q, q.running[0], readings).time
  }

  /** Charging looks at the times alone. */
  lemma {:induction false} SameCharge(c: Core, d: Core, g: Group, readings: seq<int>)
    requires c.time == d.time
    ensures AddTimes(c, g, readings).time == AddTimes(d, g, readings).time
    decreases |g|
  {
    if g != [] && readings != [] {
      assert c.Time(g[0]) == d.Time(g[0]);
      SameCharge(c.(time := c.time[g[0] := c.Time(g[0]) + readings[0]]),
                 d.(time := d.time[g[0] := d.Time(g[0]) + readings[0]]), g[1..], readings[1..]);
    }
  }

  /** What a decision does when every group has a task: the front of the prepared list
      runs and is charged. */
  lemma DecisionCharges(c: Core, readings: seq<int>)
    requires AllReady(c) && Prepared(c).running != [] && readings != []
    ensures Charged(Prepared(c), readings, RunTask(c, readings)) && RunTask(c, readings).immediate == []
    ensures !RunTask(c, readings).needBalance
  {
    var q, n := Prepared(c), GetNextTask(c).0;
    JoinGroups(c);
    PreparedFields(c);
    assert Holds(q, q.running[0]) && Holds(c, q.running[0]);
    FrontRuns(c);
    AddTimesKeepsLists(n, n.current, readings);
    SameCharge(n, q, n.current, readings);
  }

  /** The front runner's time, by which its group is sorted, grows by its reading, and no
      other group's does. */
  lemma ChargedTime(q: Core, readings: seq<int>, r: Core, g: Group)
    requires Disjoint(q) && Charged(q, readings, r) && Holds(q, g)
    ensures r.Time(g[0]) == q.Time(g[0]) + if g == r.current then readings[0] else 0
  {
    var front := q.running[0];
    assert Holds(q, front);
    var e := AddTimes(q, front, readings);
    assert r.Time(g[0]) == e.Time(g[0]);
    AddTimesCharges(q, front, readings, g[0]);
    if g == front {
      NoCharge(g[1..], readings[1..], g[0]);
    } else {
      assert Apart(g, front);
      NoCharge(front, readings, g[0]);
    }
  }

  lemma ChargedSpread(q: Core, D: int, readings: seq<int>, r: Core)
    requires Disjoint(q) && TimesSorted(q) && Spread(q, D) && Charged(q, readings, r) && 0 <= readings[0] <= D
    ensures Spread(r, D)
  {
    forall g, h | g in r.running && h in r.running && g != [] && h != []
      ensures r.Time(g[0]) - r.Time(h[0]) <= D
    {
      FrontIsLeast(q, h);
      FrontIsLeast(q, g);
      ChargedTime(q, readings, r, g);
      ChargedTime(q, readings, r, h);
    }
  }

  /** One decision: the groups stay disjoint, the times still spread at most `D`, and the
      group that ran was one with the least time. */
  lemma DecisionKeepsFairness(c: Core, p: int, D: int, readings: seq<int>)
    requires Peers(c, p) && AllReady(c) && Spread(c, D) && Prepared(c).running != []
    requires readings != [] && 0 <= readings[0] <= D
    ensures var r := RunTask(c, readings);
      && Peers(r, p) && Spread(r, D) && r.immediate == []
      && TimesSorted(Prepared(c)) && Charged(Prepared(c), readings, r)
      && (forall g :: Holds(r, g) <==> Holds(c, g))
  {
    var q, r := Prepared(c), RunTask(c, readings);
    JoinKeepsFairness(c, p, D);
    DecisionCharges(c, readings);
    RegroupKeeps(q, r);
    ChargedSpread(q, D, readings, r);
  }

  // ----- Whole runs -----

  datatype Move = Decide(readings: seq<int>) | Join(group: Group)

  /** `d` follows `c`: a decision that charges the front runner at most `D` while every
      group has a task, or the binding of a group of runners that are new to the worker;
      meanwhile tasks may be posted. */
  ghost predicate Follows(c: Core, mv: Move, d: Core, p: int, D: int) {
    match mv
    case Decide(readings) =>
      && AllReady(c) && Prepared(c).running != [] && readings != [] && 0 <= readings[0] <= D
      && d == RunTask(c, readings).(tasks := d.tasks)
    case Join(group) =>
      && group != [] && group[0] !in group[1..] && c.Priority(group[0]) == p > 0
      && (forall g :: Holds(c, g) ==> Apart(group, g) && Apart(g, group))
      && d == Bind(c, [group]).(tasks := d.tasks)
  }

  ghost predicate FairRun(cs: seq<Core>, moves: seq<Move>, p: int, D: int) {
    && |cs| == |moves| + 1
    && (forall i :: 0 <= i < |moves| ==> Follows(cs[i], moves[i], cs[i + 1], p, D))
  }

  /** Posting tasks changes neither the groups nor their times. */
  lemma PostingKeeps(r: Core, d: Core, p: int, D: int)
    requires Peers(r, p) && Spread(r, D) && d == r.(tasks := d.tasks)
    ensures Peers(d, p) && Spread(d, D)
  {
    RegroupKeeps(r, d);
    assert forall id :: d.Time(id) == r.Time(id);
  }

  lemma BindKeeps(c: Core, group: Group, p: int, D: int)
    requires Peers(c, p) && Spread(c, D) && group != [] && group[0] !in group[1..] && c.Priority(group[0]) == p > 0
    requires forall g :: Holds(c, g) ==> Apart(group, g) && Apart(g, group)
    ensures Peers(Bind(c, [group]), p) && Spread(Bind(c, [group]), D)
  {
    var d := Bind(c, [group]);
    assert forall id :: d.Time(id) == c.Time(id) && d.Priority(id) == c.Priority(id);
    assert forall g :: Holds(d, g) <==> Holds(c, g) || g == group;
    assert group[0] in group && !Holds(c, group);
  }

  lemma FollowsKeeps(c: Core, mv: Move, d: Core, p: int, D: int)
    requires Follows(c, mv, d, p, D) && Peers(c, p) && Spread(c, D)
    ensures Peers(d, p) && Spread(d, D)
  {
    match mv
    case Decide(readings) =>
      DecisionKeepsFairness(c, p, D, readings);
      PostingKeeps(RunTask(c, readings), d, p, D);
    case Join(group) =>
      BindKeeps(c, group, p, D);
      PostingKeeps(Bind(c, [group]), d, p, D);
  }

  ghost predicate Fair(c: Core, p: int, D: int) {
    Peers(c, p) && Spread(c, D)
  }

  lemma FairNext(cs: seq<Core>, moves: seq<Move>, p: int, D: int, i: nat)
    requires FairRun(cs, moves, p, D) && i < |moves| && Fair(cs[i], p, D)
    ensures Fair(cs[i + 1], p, D)
  {
    assert Follows(cs[i], moves[i], cs[i + 1], p, D);
    FollowsKeeps(cs[i], moves[i], cs[i + 1], p, D);
  }

  /** Fair share across joins: at every moment of every such run the consumed times of
      any two running groups differ by at most `D`, the length of one task. */
  lemma {:induction false} FairShare(cs: seq<Core>, moves: seq<Move>, p: int, D: int, i: nat)
    requires FairRun(cs, moves, p, D) && Fair(cs[0], p, D) && i < |cs|
    ensures Fair(cs[i], p, D)
    decreases i
  {
    if i > 0 {
      FairShare(cs, moves, p, D, i - 1);
      FairNext(cs, moves, p, D, i - 1);
    }
  }
}
