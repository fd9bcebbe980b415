/**
 `BaseTimer` with what `OneShotTimer` and `RepeatingTimer` do when it fires. Times are
 integers and each call reads the clock once, as `now`. `pending` holds the times for
 which callbacks are posted and not dispatched yet.
 */
module Timer {

  datatype State = State(
    repeating: bool, running: bool, delay: int, desired: int, scheduled: int,
    pending: seq<int>, runnerAlive: bool)

  function Init(repeating: bool): State {
    State(repeating, false, 0, 0, 0, [], true)
  }

  function NotBefore(delay: int, now: int): int {
    if delay > 0 then now + delay else now
  }

  /** Nothing happens once the task runner is gone. */
  function ScheduleNewTask(s: State, delay: int, now: int): State {
    if !s.runnerAlive then s
    else s.(running := true, scheduled := NotBefore(delay, now), desired := NotBefore(delay, now),
            pending := s.pending + [NotBefore(delay, now)])
  }

  /** `Reset` reuses the callback posted last if it comes no later than needed. */
  function Reset(s: State, now: int): State {
    if s.scheduled < now then ScheduleNewTask(s, s.delay, now)
    else
      var d := s.(desired := NotBefore(s.delay, now));
      if d.desired >= d.scheduled then d.(running := true) else ScheduleNewTask(d, d.delay, now)
  }

  function Start(s: State, delay: int, now: int): State {
    Reset(s.(delay := delay), now)
  }

  function Stop(s: State): State {
    s.(running := false)
  }

  /** Firing: a one-shot timer stops, a repeating one posts its next callback. */
  function RunUserTask(s: State, now: int): State {
    if s.repeating then ScheduleNewTask(s, s.delay, now) else Stop(s)
  }

  predicate Fires(s: State, now: int) {
    s.running && !(s.desired > s.scheduled && s.desired > now)
  }

  function OnScheduledTaskInvoked(s: State, now: int): State {
    if !s.running then s
    else if Fires(s, now) then RunUserTask(s, now)
    else ScheduleNewTask(s, s.desired - now, now)
  }

  /** The task runner dispatches the callback posted at place `i`. */
  function Dispatch(s: State, i: nat, now: int): State
    requires i < |s.pending|
  {
    OnScheduledTaskInvoked(s.(pending := s.pending[..i] + s.pending[i + 1..]), now)
  }

  // ----- Whole runs -----

  datatype Op = DoStart(delay: int, now: int) | DoReset(now: int) | DoStop(now: int) | DoDispatch(i: nat, now: int)

  /** One call, at any time and in any state. */
  ghost predicate Call(s: State, op: Op, r: State) {
    match op
    case DoStart(delay, now) => r == Start(s, delay, now)
    case DoReset(now) => r == Reset(s, now)
    case DoStop(now) => r == Stop(s)
    case DoDispatch(i, now) => i < |s.pending| && r == Dispatch(s, i, now)
  }

  /** The clock does not run backwards and a callback is dispatched strictly after its time.
      A start with any delay and a reset, also of a timer that is stopped, need only find no
      callback posted, or one that is neither overdue nor later than the delay asks for; a
      stop needs nothing. */
  ghost predicate Step(s: State, clock: int, op: Op, r: State) {
    && clock <= op.now && s.runnerAlive && Call(s, op, r)
    && match op
       case DoStart(delay, now) => Reusable(s, delay, now)
       case DoReset(now) => Reusable(s, s.delay, now)
       case DoStop(now) => true
       case DoDispatch(i, now) => s.pending[i] < now
  }

  /** The callback posted, if there is one, will do. */
  predicate Reusable(s: State, delay: int, now: int) {
    s.pending == [] || now <= s.pending[0] <= NotBefore(delay, now)
  }

  ghost predicate Inv(s: State, clock: int) {
    && s.runnerAlive && |s.pending| <= 1
    && (s.pending != [] ==> s.pending[0] == s.scheduled && s.scheduled <= NotBefore(s.delay, clock))
    && (s.pending == [] ==> s.scheduled < clock)
    && (s.running ==> s.pending != [] && s.scheduled <= s.desired <= NotBefore(s.delay, clock))
  }

  lemma InitInv(repeating: bool, clock: int)
    requires clock > 0
    ensures Inv(Init(repeating), clock)
  {
  }

  lemma StepInv(s: State, clock: int, op: Op, r: State)
    requires Inv(s, clock) && Step(s, clock, op, r)
    ensures Inv(r, op.now)
  {
    if op.DoDispatch? {
      assert s.pending[..op.i] + s.pending[op.i + 1..] == [];
    }
  }

  ghost predicate Trace(ss: seq<State>, ops: seq<Op>) {
    && |ss| == |ops| + 1
    && (forall i :: 0 <= i < |ops| ==> StepAt(ss, ops, i))
  }

  ghost predicate StepAt(ss: seq<State>, ops: seq<Op>, i: int)
    requires 0 <= i < |ops| < |ss|
  {
    Step(ss[i], ClockAt(ops, i), ops[i], ss[i + 1])
  }

  /** The clock before call `i`: that of the call before it, and positive at the start. */
  function ClockAt(ops: seq<Op>, i: nat): int
    requires i <= |ops|
  {
    if i == 0 then 1 else ops[i - 1].now
  }

  lemma {:induction false} InvAlong(ss: seq<State>, ops: seq<Op>, repeating: bool, i: nat)
    requires Trace(ss, ops) && ss[0] == Init(repeating) && i < |ss|
    ensures Inv(ss[i], ClockAt(ops, i))
    decreases i
  {
    if i == 0 {
      InitInv(repeating, 1);
    } else {
      InvAlong(ss, ops, repeating, i - 1);
      assert StepAt(ss, ops, i - 1);
      StepInv(ss[i - 1], ClockAt(ops, i - 1), ops[i - 1], ss[i]);
    }
  }

  /** Armed and single: at every moment of every well-behaved run no timer has more than
      one callback posted, and a running one has exactly one, due no later than the time
      wanted. */
  lemma AlwaysArmedOnce(ss: seq<State>, ops: seq<Op>, repeating: bool, i: nat)
    requires Trace(ss, ops) && ss[0] == Init(repeating) && i < |ss|
    ensures |ss[i].pending| <= 1 && (ss[i].running ==> |ss[i].pending| == 1 && ss[i].pending[0] <= ss[i].desired)
  {
    InvAlong(ss, ops, repeating, i);
  }

  // ----- The timer a caller has in mind -----

  /** A timer without callbacks: whether it is on, since when it waits, and how long. */
  datatype Ideal = Ideal(repeating: bool, on: bool, since: int, delay: int)
  {
    /** A delay of zero or less asks for the next dispatch. */
    predicate DueBy(now: int) {
      on && now >= since && now - since >= delay
    }
  }

  /** The ideal timer at the same calls: it goes by the calls alone, and a dispatch fires it
      exactly when it is due. */
  function Follow(w: Ideal, op: Op): Ideal {
    match op
    case DoStart(delay, now) => w.(on := true, since := now, delay := delay)
    case DoReset(now) => w.(on := true, since := now)
    case DoStop(_) => w.(on := false)
    case DoDispatch(_, now) =>
      if !w.DueBy(now) then w
      else if w.repeating then w.(since := now)
      else w.(on := false)
  }

  function IdealAt(repeating: bool, ops: seq<Op>, i: nat): Ideal
    requires i <= |ops|
  {
    if i == 0 then Ideal(repeating, false, 0, 0) else Follow(IdealAt(repeating, ops, i - 1), ops[i - 1])
  }

  /** The same timer, which wants to run just when the ideal one is due. */
  ghost predicate Realizes(s: State, w: Ideal) {
    && s.repeating == w.repeating && s.running == w.on && s.delay == w.delay
    && (w.on ==> s.desired == w.since + if w.delay > 0 then w.delay else 0)
  }

  lemma StepRealizes(s: State, clock: int, op: Op, r: State, w: Ideal)
    requires Inv(s, clock) && Step(s, clock, op, r) && Realizes(s, w) && (w.on ==> w.since <= clock)
    ensures Realizes(r, Follow(w, op)) && (Follow(w, op).on ==> Follow(w, op).since <= op.now)
    ensures op.DoDispatch? ==> (Fires(s, op.now) <==> w.DueBy(op.now))
  {
  }

  /** Refinement: over every well-behaved run the timer with its callbacks is the ideal
      one. A dispatch runs the user task if and only if the timer was started or reset, or
      repeated, at least its delay ago and not stopped since. */
  lemma {:induction false} RefinesIdeal(ss: seq<State>, ops: seq<Op>, repeating: bool, i: nat)
    requires Trace(ss, ops) && ss[0] == Init(repeating) && i < |ss|
    ensures var w := IdealAt(repeating, ops, i);
      && Realizes(ss[i], w) && (w.on ==> w.since <= ClockAt(ops, i))
      && (i < |ops| && ops[i].DoDispatch? ==> (Fires(ss[i], ops[i].now) <==> w.DueBy(ops[i].now)))
    decreases i
  {
    if i > 0 {
      RefinesIdeal(ss, ops, repeating, i - 1);
      InvAlong(ss, ops, repeating, i - 1);
      assert StepAt(ss, ops, i - 1);
      StepRealizes(ss[i - 1], ClockAt(ops, i - 1), ops[i - 1], ss[i], IdealAt(repeating, ops, i - 1));
    }
    if i < |ops| {
      InvAlong(ss, ops, repeating, i);
      assert StepAt(ss, ops, i);
      StepRealizes(ss[i], ClockAt(ops, i), ops[i], ss[i + 1], IdealAt(repeating, ops, i));
    }
  }

  /** The last start, reset or firing before call `i`, if the timer waits since then. */
  lemma {:induction false} WaitsSince(repeating: bool, ops: seq<Op>, i: nat) returns (k: nat)
    requires i <= |ops| && IdealAt(repeating, ops, i).on
    ensures k < i && IdealAt(repeating, ops, i).since == ops[k].now && !ops[k].DoStop?
    ensures ops[k].DoDispatch? ==> IdealAt(repeating, ops, k).DueBy(ops[k].now)
    ensures forall j :: k < j < i ==> !ops[j].DoStop?
    decreases i
  {
    var w := IdealAt(repeating, ops, i - 1);
    if ops[i - 1].DoStart? || ops[i - 1].DoReset? || (ops[i - 1].DoDispatch? && w.DueBy(ops[i - 1].now)) {
      k := i - 1;
    } else {
      k := WaitsSince(repeating, ops, i - 1);
    }
  }

  /** Never early: whenever a dispatch runs the user task, some start, reset or firing lies
      at least the delay back, and no stop has come since. */
  lemma NeverEarly(ss: seq<State>, ops: seq<Op>, repeating: bool, i: nat) returns (k: nat)
    requires Trace(ss, ops) && ss[0] == Init(repeating) && i < |ops| && ops[i].DoDispatch?
    requires Fires(ss[i], ops[i].now)
    ensures k < i && ops[k].now + ss[i].delay <= ops[i].now && !ops[k].DoStop?
    ensures ops[k].DoDispatch? ==> Fires(ss[k], ops[k].now)
    ensures forall j :: k < j < i ==> !ops[j].DoStop?
  {
    RefinesIdeal(ss, ops, repeating, i);
    k := WaitsSince(repeating, ops, i);
    RefinesIdeal(ss, ops, repeating, k);
  }

  /** And not for ever late: a dispatch from the wanted time on runs the user task, and an
      earlier one leaves a callback for exactly the wanted time. */
  lemma DispatchServes(s: State, clock: int, i: nat, now: int)
    requires Inv(s, clock) && s.running && i < |s.pending| && s.pending[i] < now
    ensures s.desired <= now ==> Fires(s, now)
    ensures s.desired > now ==> !Fires(s, now) && Dispatch(s, i, now).pending == [s.desired]
  {
    assert s.pending[..i] + s.pending[i + 1..] == [];
  }

  // ----- Stopping and repeating, in any run -----

  ghost predicate AnyRun(ss: seq<State>, ops: seq<Op>) {
    |ss| == |ops| + 1 && forall i :: 0 <= i < |ops| ==> Call(ss[i], ops[i], ss[i + 1])
  }

  /** Neither a start nor a reset. */
  predicate LeavesOff(op: Op) {
    op.DoStop? || op.DoDispatch?
  }

  lemma OffStaysOff(s: State, op: Op, r: State)
    requires Call(s, op, r) && !s.running && LeavesOff(op)
    ensures !r.running && r.delay == s.delay && r.desired == s.desired && r.scheduled == s.scheduled
    ensures op.DoDispatch? ==> !Fires(s, op.now) && r.pending == s.pending[..op.i] + s.pending[op.i + 1..]
    ensures op.DoStop? ==> r.pending == s.pending
  {
  }

  /** A stop stops: whatever calls a run consists of and whenever they come, from a stop on
      and until the next start or reset the timer is not running, no dispatch runs the user
      task, and none posts a callback. */
  lemma {:induction false} StopStops(ss: seq<State>, ops: seq<Op>, k: nat, i: nat)
    requires AnyRun(ss, ops) && k < i < |ss| && ops[k].DoStop?
    requires forall j :: k < j < i ==> LeavesOff(ops[j])
    ensures !ss[i].running && |ss[i].pending| <= |ss[k].pending|
    ensures forall p :: p in ss[i].pending ==> p in ss[k].pending
    ensures i < |ops| && ops[i].DoDispatch? ==>
      !Fires(ss[i], ops[i].now) && |ss[i + 1].pending| == |ss[i].pending| - 1
    decreases i
  {
    assert Call(ss[i - 1], ops[i - 1], ss[i]);
    if k < i - 1 {
      StopStops(ss, ops, k, i - 1);
      OffStaysOff(ss[i - 1], ops[i - 1], ss[i]);
    }
    if i < |ops| && ops[i].DoDispatch? {
      assert Call(ss[i], ops[i], ss[i + 1]);
      OffStaysOff(ss[i], ops[i], ss[i + 1]);
    }
  }

  /** A repeating timer that fires at `now` posts its next callback for one delay later, and
      wants to run then; a one-shot timer that fires is off and posts nothing. */
  lemma FiringPosts(s: State, i: nat, now: int)
    requires s.runnerAlive && i < |s.pending| && Fires(s, now)
    ensures var r, rest := Dispatch(s, i, now), s.pending[..i] + s.pending[i + 1..];
      if s.repeating then
        var next := if s.delay > 0 then now + s.delay else now;
        r.running && r.pending == rest + [next] && r.desired == next && r.delay == s.delay
      else !r.running && r.pending == rest
  {
  }

  /** Once the task runner is gone no call posts anything, and a timer that is off comes on
      only by a start or reset that counts on a callback for a time still to come. */
  lemma NothingPostedWithoutRunner(s: State, op: Op, r: State)
    requires Call(s, op, r) && !s.runnerAlive
    ensures |r.pending| == |s.pending| - if op.DoDispatch? then 1 else 0
    ensures forall p :: p in r.pending ==> p in s.pending
    ensures r.running && !s.running ==> (op.DoStart? || op.DoReset?) && op.now <= s.scheduled <= r.desired
  {
  }

  // ----- What the surroundings are needed for -----

  /** `Reset` posts a callback exactly when the last one lies in the past or comes too late;
      it never takes one back. */
  lemma ResetPosts(s: State, now: int)
    requires s.runnerAlive
    ensures |Reset(s, now).pending| ==
      |s.pending| + if s.scheduled < now || NotBefore(s.delay, now) < s.scheduled then 1 else 0
    ensures Reset(s, now).running
  {
  }

  /** So, from any state of such a run, a start leaves exactly one callback posted if and
      only if none was posted, or the posted one is not overdue and not later than the new
      delay asks for: the guard of the runs above is the weakest one. */
  lemma StartArmsOnceIff(s: State, clock: int, delay: int, now: int)
    requires Inv(s, clock) && clock <= now
    ensures Start(s, delay, now).pending != [] && Start(s, delay, now).running
    ensures |Start(s, delay, now).pending| == 1 <==> Reusable(s, delay, now)
  {
    ResetPosts(s.(delay := delay), now);
  }

  /** From any state at all, a start leaves the timer running with nothing posted if and
      only if nothing was posted although the time last scheduled has not passed and is
      early enough. */
  lemma StartIsLostIff(s: State, delay: int, now: int)
    requires s.runnerAlive
    ensures (Start(s, delay, now).running && Start(s, delay, now).pending == []) <==>
      (s.pending == [] && now <= s.scheduled <= NotBefore(delay, now))
  {
    ResetPosts(s.(delay := delay), now);
  }

  /** A one-shot timer dispatched at its very time and started again at that tick believes
      that it is armed, and no callback is posted. */
  lemma RestartAtTheTickIsLost()
    ensures var s1 := Start(Init(false), 5, 10);
      && s1.pending == [15]
      && Fires(s1, 15)
      && var s2 := Dispatch(s1, 0, 15);
      var s3 := Start(s2, 5, 15);
      s3.running && s3.pending == []
  {
    var s1 := Start(Init(false), 5, 10);
    assert s1.pending[..0] + s1.pending[1..] == [];
  }

  /** A repeating timer restarted with a shorter delay has two callbacks posted. */
  lemma ShrunkDelayPostsTwice()
    ensures var s := Start(Start(Init(true), 10, 10), 2, 11);
      s.running && s.pending == [20, 13]
  {
  }

  /** And it keeps them: each dispatch of a running repeating timer takes one callback and
      posts one, so the second never goes away while the timer runs. */
  lemma RepeatingKeepsCount(s: State, i: nat, now: int)
    requires s.repeating && s.running && s.runnerAlive && i < |s.pending|
    ensures |Dispatch(s, i, now).pending| == |s.pending| && Dispatch(s, i, now).running
  {
  }

  class BaseTimer {
    const repeating: bool
    var isRunning: bool
    var delay: int
    var desiredRunTime: int
    var scheduledRunTime: int
    var pending: seq<int>
    var runnerAlive: bool

    ghost function View(): State
      reads this
    {
      State(repeating, isRunning, delay, desiredRunTime, scheduledRunTime, pending, runnerAlive)
    }

    constructor (repeating: bool)
      ensures View() == Init(repeating)
    {
      this.repeating := repeating;
      isRunning, delay, desiredRunTime, scheduledRunTime := false, 0, 0, 0;
      pending, runnerAlive := [], true;
    }

    method StopTimer()
      modifies `isRunning
      ensures View() == Stop(old(View()))
    {
      isRunning := false;
    }

    method Schedule(d: int, now: int)
      modifies `isRunning, `desiredRunTime, `scheduledRunTime, `pending
      ensures View() == ScheduleNewTask(old(View()), d, now)
    {
      if !runnerAlive {
        return;
      }
      isRunning := true;
      if d > 0 {
        pending := pending + [now + d];
        scheduledRunTime, desiredRunTime := now + d, now + d;
      } else {
        pending := pending + [now];
        scheduledRunTime, desiredRunTime := now, now;
      }
    }

    method ResetTimer(now: int)
      modifies `isRunning, `desiredRunTime, `scheduledRunTime, `pending
      ensures View() == Reset(old(View()), now)
    {
      if scheduledRunTime < now {
        Schedule(delay, now);
        return;
      }
      if delay > 0 {
        desiredRunTime := now + delay;
      } else {
        desiredRunTime := now;
      }
      if desiredRunTime >= scheduledRunTime {
        isRunning := true;
        return;
      }
      Schedule(delay, now);
    }

    method StartInternal(d: int, now: int)
      modifies this
      ensures View() == Start(old(View()), d, now)
    {
      delay := d;
      ResetTimer(now);
    }

    method FireUserTask(now: int)
      modifies this
      ensures View() == RunUserTask(old(View()), now)
    {
      if repeating {
        Schedule(delay, now);
      } else {
        StopTimer();
      }
    }

    method InvokeScheduledTask(now: int) returns (ran: bool)
      modifies this
      ensures View() == OnScheduledTaskInvoked(old(View()), now)
      ensures ran <==> Fires(old(View()), now)
    {
      if !isRunning {
        return false;
      }
      if desiredRunTime > scheduledRunTime {
        if desiredRunTime > now {
          Schedule(desiredRunTime - now, now);
          return false;
        }
      }
      FireUserTask(now);
      return true;
    }
  }
}
