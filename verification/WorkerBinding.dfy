/**
 A decision of `Worker` beside threads that bind groups. The source takes its locks for the
 sort and again for the balance, clears the flag that asks for a balance after releasing
 them, and `Bind` sets that flag after it has appended its groups: each is a step here.
 */
module WorkerBinding {
  import opened WorkerCore

  datatype Pc = AtSort | AtCheck | AtBalance | AtClear | AtWalk

  /** `binding` counts the threads that have appended and have yet to set the flag. */
  datatype State = State(core: Core, pc: Pc, binding: nat)

  datatype Step = Decide | Charge(readings: seq<int>) | Append(groups: seq<Group>) | SetFlag

  /** The next step of the thread of the worker. */
  function DecideStep(s: State): State {
    var c := s.core;
    match s.pc
    case AtSort =>
      if c.immediate != [] then s.(core := c.(immediate := c.immediate[1..]))
      else s.(core := SortedCore(c), pc := AtCheck)
    case AtCheck => s.(pc := if c.needBalance then AtBalance else AtWalk)
    case AtBalance => s.(core := Balance(c), pc := AtClear)
    case AtClear => s.(core := c.(needBalance := false), pc := AtWalk)
    case AtWalk => s.(core := TakeFirstReady(c).0, pc := AtSort)
  }

  /** A step that nobody can take now changes nothing: a charge amid a decision, a flag with
      no thread to set it. */
  function Exec(s: State, step: Step): State {
    match step
    case Decide => DecideStep(s)
    case Charge(readings) => if s.pc == AtSort then s.(core := AddTimes(s.core, s.core.current, readings)) else s
    case Append(groups) => s.(core := s.core.(pending := s.core.pending + groups), binding := s.binding + 1)
    case SetFlag =>
      if s.binding > 0 then s.(core := s.core.(needBalance := true), binding := s.binding - 1) else s
  }

  function Run(s: State, steps: seq<Step>): State
    decreases |steps|
  {
    if steps == [] then s else Exec(Run(s, steps[..|steps| - 1]), steps[|steps| - 1])
  }

  // ----- The steps of one decision together -----

  /** A decision in which no other thread takes a step. */
  function Decision(s: State): State {
    if s.core.immediate != [] then DecideStep(s)
    else
      var t := DecideStep(DecideStep(s));
      if t.pc == AtWalk then DecideStep(t) else DecideStep(DecideStep(DecideStep(t)))
  }

  lemma DecisionIsGetNextTask(s: State)
    requires s.pc == AtSort
    ensures Decision(s) == s.(core := GetNextTask(s.core).0)
  {
    var c := s.core;
    if c.immediate == [] {
      SortKeepsGroups(c);
      var sorted := SortedCore(c);
      assert sorted.needBalance == c.needBalance;
      if c.needBalance {
        assert Prepared(c) == Balance(sorted).(needBalance := false);
      }
    }
  }

  /** So are the two steps of a bind with nothing in between. */
  lemma BindIsWhole(s: State, groups: seq<Group>)
    ensures Exec(Exec(s, Append(groups)), SetFlag) == s.(core := Bind(s.core, groups))
  {
  }

  // ----- The promise to let pending groups in -----

  /** Only the thread of the worker clears the flag. */
  predicate Inv(s: State) {
    s.pc == AtBalance || s.pc == AtClear ==> s.core.needBalance
  }

  /** No group waits, or a flag that is not about to be cleared is set or will be. */
  predicate Promised(s: State) {
    s.core.pending == [] || s.binding > 0 || (s.core.needBalance && s.pc != AtClear)
  }

  /** The last thread that binds sets the flag between the balance and the clearing, with
      groups that came after the balance. */
  predicate InVain(s: State, step: Step) {
    step.SetFlag? && s.pc == AtClear && s.binding == 1 && s.core.pending != []
  }

  lemma DecideKeeps(s: State)
    requires Inv(s)
    ensures Inv(DecideStep(s)) && (Promised(DecideStep(s)) <==> Promised(s))
  {
    if s.pc == AtSort {
      SortKeepsGroups(s.core);
    } else if s.pc == AtWalk {
      WalkKeepsLists(s.core);
    }
  }

  /** The promise is lost by a flag set in vain and by nothing else, and won back by the
      next group and by nothing else. */
  lemma ExecPromisedIff(s: State, step: Step)
    requires Inv(s)
    ensures Inv(Exec(s, step))
    ensures Promised(Exec(s, step)) <==> !InVain(s, step) && (Promised(s) || step.Append?)
  {
    match step
    case Decide => DecideKeeps(s);
    case Charge(readings) => AddTimesKeepsLists(s.core, s.core.current, readings);
    case Append(groups) =>
    case SetFlag =>
  }

  /** A flag was set in vain and nobody has appended since. */
  predicate Stranded(s: State, steps: seq<Step>)
    decreases |steps|
  {
    if steps == [] then false
    else
      var before, last := steps[..|steps| - 1], steps[|steps| - 1];
      InVain(Run(s, before), last) || (Stranded(s, before) && !last.Append?)
  }

  /** Over any run of decisions and binds, from a promised state, the promise holds exactly
      when every flag set in vain is followed by another group. */
  lemma {:induction false} RunPromisedIff(s: State, steps: seq<Step>)
    requires Inv(s) && Promised(s)
    ensures Inv(Run(s, steps))
    ensures Promised(Run(s, steps)) <==> !Stranded(s, steps)
    decreases |steps|
  {
    if steps != [] {
      var before := steps[..|steps| - 1];
      RunPromisedIff(s, before);
      ExecPromisedIff(Run(s, before), steps[|steps| - 1]);
    }
  }

  // ----- What the promise is worth -----

  /** When no bind is under way, a decision leaves no group waiting if the state was
      promised, and all of them otherwise. */
  lemma LetInIff(s: State)
    requires s.pc == AtSort && s.core.immediate == [] && s.binding == 0
    ensures Decision(s).core.pending == if Promised(s) then [] else s.core.pending
    ensures Held(Decision(s).core) == Held(s.core)
  {
    DecisionIsGetNextTask(s);
    PreparedKeepsGroups(s.core);
    SortKeepsGroups(s.core);
  }

  /** After any run, the groups still waiting are let in by the next decision exactly when
      no flag was set in vain since the last group was bound. */
  lemma BoundIsLetInIff(s: State, steps: seq<Step>)
    requires Inv(s) && Promised(s)
    requires var t := Run(s, steps); t.pc == AtSort && t.core.immediate == [] && t.binding == 0
    ensures Decision(Run(s, steps)).core.pending == [] <==> !Stranded(s, steps)
  {
    RunPromisedIff(s, steps);
    LetInIff(Run(s, steps));
  }

  /** Groups that were bound in vain wait for as long as nobody binds another one. */
  lemma {:induction false} StrandedWait(s: State, steps: seq<Step>)
    requires Inv(s) && !Promised(s)
    requires forall step :: step in steps ==> !step.Append?
    ensures !Promised(Run(s, steps)) && Inv(Run(s, steps))
    ensures Run(s, steps).core.pending == s.core.pending
    decreases |steps|
  {
    if steps != [] {
      var before, last := steps[..|steps| - 1], steps[|steps| - 1];
      assert last in steps;
      StrandedWait(s, before);
      var t := Run(s, before);
      ExecPromisedIff(t, last);
      SortKeepsGroups(t.core);
      if last.Charge? {
        AddTimesKeepsLists(t.core, t.core.current, last.readings);
      }
    }
  }

  /** The groups that a run appended. */
  function Appended(steps: seq<Step>): multiset<Group>
    decreases |steps|
  {
    if steps == [] then multiset{}
    else
      var last := steps[|steps| - 1];
      Appended(steps[..|steps| - 1]) + (if last.Append? then multiset(last.groups) else multiset{})
  }

  lemma WalkKeepsLists(p: Core)
    ensures var n := TakeFirstReady(p).0; n.running == p.running && n.pending == p.pending
  {
  }

  lemma DecideHolds(s: State)
    ensures Held(DecideStep(s).core) == Held(s.core)
  {
    match s.pc
    case AtSort => SortKeepsGroups(s.core);
    case AtBalance => BalanceKeepsGroups(s.core);
    case AtWalk => WalkKeepsLists(s.core);
    case _ =>
  }

  lemma ExecHolds(s: State, step: Step)
    ensures Held(Exec(s, step).core) == Held(s.core) + Appended([step])
  {
    match step
    case Decide => DecideHolds(s);
    case Charge(readings) => AddTimesKeepsLists(s.core, s.core.current, readings);
    case Append(groups) =>
    case SetFlag =>
  }

  /** Whatever falls between the steps of a decision, no group is lost or doubled. */
  lemma {:induction false} GroupsConserved(s: State, steps: seq<Step>)
    ensures Held(Run(s, steps).core) == Held(s.core) + Appended(steps)
    decreases |steps|
  {
    if steps != [] {
      var before := steps[..|steps| - 1];
      GroupsConserved(s, before);
      ExecHolds(Run(s, before), steps[|steps| - 1]);
    }
  }

  lemma Snoc(s: State, steps: seq<Step>, step: Step)
    ensures Run(s, steps + [step]) == Exec(Run(s, steps), step)
  {
    assert (steps + [step])[..|steps|] == steps;
  }

  /** A bind of one group, and a decision up to the clearing. */
  function UpToClear(early: Group): seq<Step> {
    [] + [Append([early])] + [SetFlag] + [Decide] + [Decide] + [Decide]
  }

  lemma ReachesClear(s: State, early: Group)
    requires s.pc == AtSort && s.binding == 0
    requires s.core == s.core.(running := [], pending := [], immediate := [], needBalance := false)
    ensures var t := Run(s, UpToClear(early));
      t.pc == AtClear && t.binding == 0 && t.core.pending == [] && t.core.running == [early]
  {
    Snoc(s, [], Append([early]));
    Snoc(s, [] + [Append([early])], SetFlag);
    Snoc(s, [] + [Append([early])] + [SetFlag], Decide);
    Snoc(s, [] + [Append([early])] + [SetFlag] + [Decide], Decide);
    Snoc(s, [] + [Append([early])] + [SetFlag] + [Decide] + [Decide], Decide);
  }

  /** On a worker that has no group yet, a bind that falls between the balance and the
      clearing strands its group. */
  lemma LateBindIsStranded(s: State, early: Group, late: Group)
    requires s.pc == AtSort && s.binding == 0
    requires s.core == s.core.(running := [], pending := [], immediate := [], needBalance := false)
    ensures var steps := UpToClear(early) + [Append([late])] + [SetFlag] + [Decide] + [Decide];
      var t := Run(s, steps);
      && t.pc == AtSort && t.binding == 0 && t.core.pending == [late] && !Promised(t)
      && Inv(s) && Promised(s) && Stranded(s, steps)
  {
    var start := UpToClear(early);
    ReachesClear(s, early);
    Snoc(s, start, Append([late]));
    Snoc(s, start + [Append([late])], SetFlag);
    Snoc(s, start + [Append([late])] + [SetFlag], Decide);
    Snoc(s, start + [Append([late])] + [SetFlag] + [Decide], Decide);
    RunPromisedIff(s, start + [Append([late])] + [SetFlag] + [Decide] + [Decide]);
  }
}
