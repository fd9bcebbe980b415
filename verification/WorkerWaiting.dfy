/**
 A fixed set of disjoint groups of unequal priorities, which always have a task at their
 backs and whose tasks take between `d` and `D`. The worker shares its time among them in
 inverse proportion to their priorities, and none waits for longer than a fixed number of
 decisions.
 */
module WorkerWaiting {
  import opened StableSort
  import opened WorkerCore
  import opened WorkerFairness

  /** No two running groups differ by more than `M` in priority times consumed time. */
  ghost predicate KeySpread(c: Core, M: int) {
    forall g, h :: g in c.running && h in c.running ==> c.Key(g) - c.Key(h) <= M
  }

  ghost predicate UpTo(c: Core, P: int) {
    forall g :: g in c.running && g != [] ==> c.Priority(g[0]) <= P
  }

  /** The groups of the list `groups` and no others, with priorities up to `P`. */
  ghost predicate Shared(c: Core, groups: seq<Group>, P: int, D: int) {
    && Disjoint(c) && c.pending == [] && UpTo(c, P) && KeySpread(c, P * D)
    && (forall h :: h in c.running <==> h in groups)
  }

  /** A decision among them; meanwhile tasks may be posted. */
  ghost predicate Step(c: Core, readings: seq<int>, r: Core, d: int, D: int) {
    && AllReady(c) && c.running != [] && readings != [] && d <= readings[0] <= D
    && r == RunTask(c, readings).(tasks := r.tasks)
  }

  // ----- One decision -----

  /** With nobody waiting to join, preparing only sorts. */
  lemma PreparedIsSorted(c: Core)
    requires c.pending == []
    ensures Prepared(c) == SortedCore(c).(needBalance := false)
    ensures forall g :: g in Prepared(c).running <==> g in c.running
    ensures Prepared(c) == c.(running := Prepared(c).running, needBalance := false)
  {
    SortSame(c);
  }

  lemma FrontHasLeastKey(c: Core, h: Group)
    requires c.pending == [] && h in c.running
    ensures Prepared(c).running != [] && c.Key(Prepared(c).running[0]) <= c.Key(h)
  {
    PreparedIsSorted(c);
    SortSame(c);
    var q, key := Prepared(c), (g: Group) => c.Key(g);
    var i :| 0 <= i < |q.running| && q.running[i] == h;
    assert i > 0 ==> key(q.running[0]) <= key(q.running[i]);
  }

  lemma Distribute(p: int, t: int, e: int)
    ensures p * (t + e) == p * t + p * e
  {
  }

  lemma ChargedKey(q: Core, readings: seq<int>, r: Core, g: Group)
    requires Disjoint(q) && Charged(q, readings, r) && Holds(q, g)
    ensures r.Key(g) == q.Key(g) + if g == r.current then q.Priority(g[0]) * readings[0] else 0
  {
    ChargedTime(q, readings, r, g);
    Distribute(q.Priority(g[0]), q.Time(g[0]), readings[0]);
    assert r.Priority(g[0]) == q.Priority(g[0]);
  }

  /** A decision charges one group of least key, its priority times the time it took, and
      no other group. */
  lemma WeighedDecision(c: Core, readings: seq<int>, r: Core, d: int, D: int)
    requires Disjoint(c) && c.pending == [] && Step(c, readings, r, d, D)
    ensures Disjoint(r) && r.pending == [] && r.priority == c.priority && r.current in c.running
    ensures forall h :: h in r.running <==> h in c.running
    ensures forall h :: h in c.running ==> c.Key(r.current) <= c.Key(h)
    ensures forall h :: h in c.running && h != [] ==>
      r.Key(h) == c.Key(h) + if h == r.current then c.Priority(h[0]) * readings[0] else 0
  {
    var q, e := Prepared(c), RunTask(c, readings);
    PreparedIsSorted(c);
    FrontHasLeastKey(c, c.running[0]);
    DecisionCharges(c, readings);
    RegroupKeeps(c, q);
    RegroupKeeps(q, r);
    assert q.running[0] in q.running;
    forall h | h in c.running
      ensures c.Key(r.current) <= c.Key(h)
      ensures h != [] ==> r.Key(h) == c.Key(h) + if h == r.current then c.Priority(h[0]) * readings[0] else 0
    {
      FrontHasLeastKey(c, h);
      SameKeys(c, q, e, r, readings, h);
    }
  }

  lemma SameKeys(c: Core, q: Core, e: Core, r: Core, readings: seq<int>, h: Group)
    requires q == c.(running := q.running, needBalance := false) && r == e.(tasks := r.tasks)
    requires Disjoint(q) && Charged(q, readings, e) && h in q.running
    ensures r.Key(h) == c.Key(h) + if h == r.current then c.Priority(h[0]) * readings[0] else 0
  {
    assert Holds(q, h);
    ChargedKey(q, readings, e, h);
    assert q.Key(h) == c.Key(h) && e.Key(h) == r.Key(h) && q.Priority(h[0]) == c.Priority(h[0]);
  }

  lemma ProductUpTo(p: int, e: int, P: int, D: int)
    requires 0 < p <= P && 0 <= e <= D
    ensures 0 <= p * e <= P * D
  {
    assert p * e <= P * e;
    assert P * e <= P * D;
  }

  /** Charging the least of some keys keeps their spread. */
  lemma StepKeepsShared(c: Core, readings: seq<int>, r: Core, groups: seq<Group>, P: int, d: int, D: int)
    requires Shared(c, groups, P, D) && Step(c, readings, r, d, D) && d >= 0
    ensures Shared(r, groups, P, D)
  {
    WeighedDecision(c, readings, r, d, D);
    ProductUpTo(c.Priority(r.current[0]), readings[0], P, D);
    assert forall id :: r.Priority(id) == c.Priority(id);
    forall g, h | g in r.running && h in r.running
      ensures r.Key(g) - r.Key(h) <= P * D
    {
      assert c.Key(g) - c.Key(h) <= P * D && c.Key(r.current) <= c.Key(h);
    }
  }

  // ----- Turns before a group -----

  /** A task of the group adds at least this to its key. */
  function Quantum(c: Core, h: Group, d: int): (q: int)
    requires d > 0
    ensures q > 0
  {
    if h == [] || c.Priority(h[0]) <= 0 then d else PositiveProduct(c.Priority(h[0]), d)
  }

  function PositiveProduct(p: int, d: int): (q: int)
    requires p > 0 && d > 0
    ensures q == p * d > 0
  {
    KeyOrderIsTimeOrder(p, d, 0);
    p * d
  }

  /** How often `h` can still be chosen before `g`. */
  function Turns(c: Core, h: Group, g: Group, d: int): int
    requires d > 0
  {
    if h == g || c.Key(h) > c.Key(g) then 0 else (c.Key(g) - c.Key(h)) / Quantum(c, h, d) + 1
  }

  /** The turns of all groups of a list together. */
  function Potential(c: Core, groups: seq<Group>, g: Group, d: int): int
    requires d > 0
  {
    if groups == [] then 0 else Turns(c, groups[0], g, d) + Potential(c, groups[1..], g, d)
  }

  /** The turns of the other groups when none is more than `M` behind `g`: a group of
      small priority has more of them than one of large priority. */
  function Window(c: Core, groups: seq<Group>, g: Group, d: int, M: int): int
    requires d > 0
  {
    if groups == [] then 0
    else (if groups[0] == g then 0 else M / Quantum(c, groups[0], d) + 1) + Window(c, groups[1..], g, d, M)
  }

  lemma TimesMonotone(d: int, a: int, b: int)
    requires d > 0 && a <= b
    ensures d * a <= d * b
  {
    assert d * (b - a) >= 0;
  }

  lemma DivMonotone(x: int, y: int, d: int)
    requires d > 0 && x <= y
    ensures x / d <= y / d
    ensures x >= 0 ==> x / d >= 0
  {
    if x / d >= y / d + 1 {
      TimesMonotone(d, y / d + 1, x / d);
    }
  }

  /** A task of at least `d` uses up one turn. */
  lemma DivLess(x: int, e: int, d: int)
    requires d > 0 && e >= d
    ensures (x - e) / d + 1 <= x / d
  {
    if (x - e) / d >= x / d {
      TimesMonotone(d, x / d, (x - e) / d);
    }
  }

  lemma TurnsBound(c: Core, h: Group, g: Group, d: int, M: int)
    requires d > 0 && M >= 0 && c.Key(g) - c.Key(h) <= M
    ensures 0 <= Turns(c, h, g, d) <= if h == g then 0 else M / Quantum(c, h, d) + 1
  {
    var q := Quantum(c, h, d);
    DivMonotone(0, M, q);
    if h != g && c.Key(h) <= c.Key(g) {
      DivMonotone(0, c.Key(g) - c.Key(h), q);
      DivMonotone(c.Key(g) - c.Key(h), M, q);
    }
  }

  lemma {:induction false} PotentialBound(c: Core, groups: seq<Group>, g: Group, d: int, M: int)
    requires d > 0 && M >= 0 && forall h :: h in groups ==> c.Key(g) - c.Key(h) <= M
    ensures 0 <= Potential(c, groups, g, d) <= Window(c, groups, g, d, M)
  {
    if groups != [] {
      TurnsBound(c, groups[0], g, d, M);
      PotentialBound(c, groups[1..], g, d, M);
    }
  }

  /** The window depends on the priorities alone. */
  lemma {:induction false} SameWindow(c: Core, r: Core, groups: seq<Group>, g: Group, d: int, M: int)
    requires d > 0 && r.priority == c.priority
    ensures Window(r, groups, g, d, M) == Window(c, groups, g, d, M)
  {
    if groups != [] {
      SameWindow(c, r, groups[1..], g, d, M);
      SameQuantum(c, r, groups[0], d);
    }
  }

  lemma SameQuantum(c: Core, r: Core, h: Group, d: int)
    requires d > 0 && r.priority == c.priority
    ensures Quantum(r, h, d) == Quantum(c, h, d)
  {
    assert h != [] ==> r.Priority(h[0]) == c.Priority(h[0]);
  }

  lemma TurnsDrop(gap: int, added: int, quantum: int)
    requires 0 < quantum <= added && gap >= 0
    ensures (if gap - added < 0 then 0 else (gap - added) / quantum + 1) <= gap / quantum + 1 - 1
  {
    DivMonotone(0, gap, quantum);
    DivLess(gap, added, quantum);
  }

  /** What `h` is charged uses up one of its turns, and no other group's. */
  lemma TurnsAfter(c: Core, r: Core, k: Group, h: Group, g: Group, d: int, added: int)
    requires d > 0 && r.priority == c.priority && h != g && c.Key(h) <= c.Key(g) && added >= Quantum(c, h, d)
    requires r.Key(k) == c.Key(k) + (if k == h then added else 0) && r.Key(g) == c.Key(g)
    ensures Turns(r, k, g, d) <= Turns(c, k, g, d) - if k == h then 1 else 0
  {
    SameQuantum(c, r, k, d);
    if k == h {
      TurnsDrop(c.Key(g) - c.Key(h), added, Quantum(c, h, d));
    }
  }

  lemma {:induction false} PotentialDrops(c: Core, r: Core, groups: seq<Group>, g: Group, h: Group, d: int, added: int)
    requires d > 0 && r.priority == c.priority && h != g && c.Key(h) <= c.Key(g) && added >= Quantum(c, h, d)
    requires forall k :: k in groups ==> r.Key(k) == c.Key(k) + if k == h then added else 0
    requires r.Key(g) == c.Key(g)
    ensures Potential(r, groups, g, d) <= Potential(c, groups, g, d) - if h in groups then 1 else 0
  {
    if groups != [] {
      assert forall k :: k in groups[1..] ==> k in groups;
      PotentialDrops(c, r, groups[1..], g, h, d, added);
      TurnsAfter(c, r, groups[0], h, g, d, added);
      assert groups == [groups[0]] + groups[1..];
    }
  }

  /** A decision for another group uses up a turn before `g`. */
  lemma DecisionDrops(c: Core, readings: seq<int>, r: Core, groups: seq<Group>, P: int, d: int, D: int, g: Group)
    requires Shared(c, groups, P, D) && Step(c, readings, r, d, D) && d > 0 && g in groups
    ensures r.current != g ==> Potential(r, groups, g, d) <= Potential(c, groups, g, d) - 1
  {
    WeighedDecision(c, readings, r, d, D);
    var h := r.current;
    if h != g {
      var p := c.Priority(h[0]);
      TimesMonotone(p, d, readings[0]);
      PotentialDrops(c, r, groups, g, h, d, p * readings[0]);
    }
  }

  // ----- Whole runs -----

  ghost predicate StepAt(cs: seq<Core>, readings: seq<seq<int>>, i: nat, d: int, D: int) {
    i + 1 < |cs| && i < |readings| && Step(cs[i], readings[i], cs[i + 1], d, D)
  }

  ghost predicate Run(cs: seq<Core>, readings: seq<seq<int>>, d: int, D: int) {
    && |cs| == |readings| + 1
    && (forall i {:trigger StepAt(cs, readings, i, d, D)} :: 0 <= i < |readings| ==> StepAt(cs, readings, i, d, D))
  }

  lemma NextInRun(cs: seq<Core>, readings: seq<seq<int>>, groups: seq<Group>, P: int, d: int, D: int, k: nat)
    requires Run(cs, readings, d, D) && k < |readings| && Shared(cs[k], groups, P, D) && d >= 0
    ensures Shared(cs[k + 1], groups, P, D) && cs[k + 1].priority == cs[k].priority
  {
    assert StepAt(cs, readings, k, d, D);
    StepKeepsShared(cs[k], readings[k], cs[k + 1], groups, P, d, D);
    WeighedDecision(cs[k], readings[k], cs[k + 1], d, D);
  }

  /** Weighted fair share: at every moment of such a run, priority times consumed time
      differs between any two groups by at most the largest priority times `D`. */
  lemma {:induction false} WeightedShare(cs: seq<Core>, readings: seq<seq<int>>, P: int, d: int, D: int, i: nat)
    requires Run(cs, readings, d, D) && Shared(cs[0], cs[0].running, P, D) && d >= 0 && i < |cs|
    ensures Shared(cs[i], cs[0].running, P, D) && cs[i].priority == cs[0].priority
    decreases i
  {
    if i > 0 {
      WeightedShare(cs, readings, P, d, D, i - 1);
      NextInRun(cs, readings, cs[0].running, P, d, D, i - 1);
    }
  }

  lemma DropsAt(cs: seq<Core>, readings: seq<seq<int>>, P: int, d: int, D: int, g: Group, k: nat)
    requires Run(cs, readings, d, D) && Shared(cs[0], cs[0].running, P, D)
    requires d > 0 && g in cs[0].running && k < |readings|
    ensures cs[k + 1].current != g ==>
      Potential(cs[k + 1], cs[0].running, g, d) <= Potential(cs[k], cs[0].running, g, d) - 1
  {
    WeightedShare(cs, readings, P, d, D, k);
    assert StepAt(cs, readings, k, d, D);
    DecisionDrops(cs[k], readings[k], cs[k + 1], cs[0].running, P, d, D, g);
  }

  lemma BoundAt(cs: seq<Core>, readings: seq<seq<int>>, P: int, d: int, D: int, g: Group, i: nat)
    requires Run(cs, readings, d, D) && Shared(cs[0], cs[0].running, P, D) && 0 < d <= D && P > 0
    requires g in cs[0].running && i < |cs|
    ensures 0 <= Potential(cs[i], cs[0].running, g, d) <= Window(cs[0], cs[0].running, g, d, P * D)
  {
    WeightedShare(cs, readings, P, d, D, i);
    ProductUpTo(P, D, P, D);
    PotentialBound(cs[i], cs[0].running, g, d, P * D);
    SameWindow(cs[0], cs[i], cs[0].running, g, d, P * D);
  }

  /** A quantity that drops whenever a choice is missed bounds the wait for the choice. */
  lemma {:induction false} CountDown(left: seq<int>, chosen: seq<bool>, i: nat) returns (j: nat)
    requires |left| == |chosen| + 1
    requires forall k :: 0 <= k < |left| ==> left[k] >= 0
    requires forall k :: 0 <= k < |chosen| && !chosen[k] ==> left[k + 1] <= left[k] - 1
    requires i < |chosen| && i + left[i] < |chosen|
    ensures i <= j <= i + left[i] && j < |chosen| && chosen[j]
    decreases left[i]
  {
    if chosen[i] {
      j := i;
    } else {
      j := CountDown(left, chosen, i + 1);
    }
  }

  lemma Within(left: seq<int>, chosen: seq<bool>, i: nat, w: int) returns (j: nat)
    requires |left| == |chosen| + 1
    requires forall k :: 0 <= k < |left| ==> 0 <= left[k] <= w
    requires forall k :: 0 <= k < |chosen| && !chosen[k] ==> left[k + 1] <= left[k] - 1
    requires i + w + 1 <= |chosen|
    ensures i <= j <= i + w && j < |chosen| && chosen[j]
  {
    assert 0 <= left[0] <= w;
    j := CountDown(left, chosen, i);
  }

  /** What a run leaves to count down for `g`, and when `g` is chosen. */
  lemma TurnsOfRun(cs: seq<Core>, readings: seq<seq<int>>, P: int, d: int, D: int, g: Group)
    returns (left: seq<int>, chosen: seq<bool>)
    requires Run(cs, readings, d, D) && Shared(cs[0], cs[0].running, P, D) && 0 < d <= D && P > 0
    requires g in cs[0].running
    ensures |left| == |cs| && |chosen| == |readings|
    ensures forall k :: 0 <= k < |left| ==> 0 <= left[k] <= Window(cs[0], cs[0].running, g, d, P * D)
    ensures forall k :: 0 <= k < |chosen| && !chosen[k] ==> left[k + 1] <= left[k] - 1
    ensures forall k :: 0 <= k < |chosen| && chosen[k] ==> cs[k + 1].current == g
  {
    left := seq(|cs|, k requires 0 <= k < |cs| => Potential(cs[k], cs[0].running, g, d));
    chosen := seq(|readings|, k requires 0 <= k < |readings| => cs[k + 1].current == g);
    forall k | 0 <= k < |left|
      ensures 0 <= left[k] <= Window(cs[0], cs[0].running, g, d, P * D)
    {
      BoundAt(cs, readings, P, d, D, g, k);
    }
    forall k | 0 <= k < |chosen| && !chosen[k]
      ensures left[k + 1] <= left[k] - 1
    {
      DropsAt(cs, readings, P, d, D, g, k);
    }
  }

  /** Bounded waiting: whatever their priorities, every group is chosen within any `w + 1`
      consecutive decisions, where `w` is the window of the other groups. */
  lemma BoundedWaiting(cs: seq<Core>, readings: seq<seq<int>>, P: int, d: int, D: int, g: Group, i: nat)
    returns (j: nat)
    requires Run(cs, readings, d, D) && Shared(cs[0], cs[0].running, P, D) && 0 < d <= D && P > 0
    requires g in cs[0].running
    requires i + Window(cs[0], cs[0].running, g, d, P * D) + 1 <= |readings|
    ensures i <= j <= i + Window(cs[0], cs[0].running, g, d, P * D) && j < |readings| && cs[j + 1].current == g
  {
    var left, chosen := TurnsOfRun(cs, readings, P, d, D, g);
    j := Within(left, chosen, i, Window(cs[0], cs[0].running, g, d, P * D));
  }

  // ----- The window of equal priorities -----

  lemma Quotient(x: int, q: int, r: int, m: int)
    requires x == m * q + r && 0 <= r < m
    ensures x / m == q
  {
    if x / m > q {
      TimesMonotone(m, q + 1, x / m);
    } else if x / m < q {
      TimesMonotone(m, x / m + 1, q);
    }
  }

  /** A common factor cancels. */
  lemma CancelFactor(p: int, D: int, d: int)
    requires p > 0 && d > 0
    ensures p * d > 0 && (p * D) / (p * d) == D / d
  {
    var q, r := D / d, D % d;
    assert D == d * q + r;
    assert p * D == (p * d) * q + p * r;
    KeyOrderIsTimeOrder(p, 0, r);
    KeyOrderIsTimeOrder(p, d, r);
    KeyOrderIsTimeOrder(p, d, 0);
    Quotient(p * D, q, p * r, p * d);
  }

  lemma OneMore(n: int, m: int)
    ensures n * m == (n - 1) * m + m
  {
  }

  lemma EqualShare(c: Core, h: Group, p: int, d: int, D: int)
    requires 0 < d <= D && p > 0 && h != [] && c.Priority(h[0]) == p
    ensures (p * D) / Quantum(c, h, d) == D / d >= 0
  {
    CancelFactor(p, D, d);
    DivMonotone(0, D, d);
  }

  /** Among `n` groups of one priority the window is `(n - 1) * (D / d + 1)`. */
  lemma {:induction false} EqualWindow(c: Core, groups: seq<Group>, g: Group, p: int, d: int, D: int)
    requires 0 < d <= D && p > 0 && forall h :: h in groups ==> h != [] && c.Priority(h[0]) == p
    ensures Window(c, groups, g, d, p * D) <= |groups| * (D / d + 1)
    ensures g in groups ==> Window(c, groups, g, d, p * D) <= (|groups| - 1) * (D / d + 1)
  {
    if groups != [] {
      assert forall h :: h in groups[1..] ==> h in groups;
      EqualWindow(c, groups[1..], g, p, d, D);
      assert groups[0] in groups;
      EqualShare(c, groups[0], p, d, D);
      OneMore(|groups|, D / d + 1);
      OneMore(|groups| - 1, D / d + 1);
    }
  }
}
