/**
 `TaskRunner`: a FIFO of tasks and a queue of delayed tasks, merged by `GetNext`. Times
 are integers; each call reads the clock once, as `now`. Tasks are never null.
 */
module TaskRunnerModule {
  import opened Common

  /** A posted task: `due` is its deadline if it was posted with a delay. */
  datatype Item = Item(id: nat, due: Option<int>)
  {
    predicate DueBy(now: int) {
      due.Some? ==> due.value <= now
    }
  }

  /** What `std::priority_queue` promises: an entry of least deadline, any one of them. */
  predicate IsTop(delayed: multiset<Item>, top: Item) {
    && top in delayed && top.due.Some?
    && (forall x :: x in delayed && x.due.Some? ==> top.due.value <= x.due.value)
  }

  ghost predicate AllDelayed(delayed: multiset<Item>) {
    forall x :: x in delayed ==> x.due.Some?
  }

  lemma {:induction false} TopExists(delayed: multiset<Item>)
    requires AllDelayed(delayed) && delayed != multiset{}
    ensures exists top :: IsTop(delayed, top)
    decreases |delayed|
  {
    var x :| x in delayed;
    var rest := delayed - multiset{x};
    if rest == multiset{} {
      assert forall y :: y in delayed ==> y in rest || y == x;
      assert IsTop(delayed, x);
    } else {
      TopExists(rest);
      var top :| IsTop(rest, top);
      assert forall y :: y in delayed ==> y in rest || y == x;
      if x.due.value < top.due.value {
        assert IsTop(delayed, x);
      } else {
        assert IsTop(delayed, top);
      }
    }
  }

  ghost predicate SortedByDue(items: seq<Item>) {
    && (forall i :: 0 <= i < |items| ==> items[i].due.Some?)
    && (forall i, j :: 0 <= i < j < |items| ==> items[i].due.value <= items[j].due.value)
  }

  /** `promoted` is everything due by `now`, earliest deadline first; `rest` stays. */
  ghost predicate Promotes(delayed: multiset<Item>, now: int, promoted: seq<Item>, rest: multiset<Item>) {
    && multiset(promoted) + rest == delayed
    && SortedByDue(promoted)
    && (forall i :: 0 <= i < |promoted| ==> promoted[i].due.value <= now)
    && (forall x :: x in rest ==> x.due.Some? && x.due.value > now)
  }

  /** Part of the way: `top` has left the queue and not entered the FIFO yet. */
  ghost predicate Draining(delayed: multiset<Item>, now: int, promoted: seq<Item>, top: Item, rest: multiset<Item>) {
    && multiset(promoted) + multiset{top} + rest == delayed
    && SortedByDue(promoted) && top.due.Some? && top.due.value <= now
    && (forall i :: 0 <= i < |promoted| ==> promoted[i].due.Some? && promoted[i].due.value <= top.due.value)
    && (forall x :: x in rest ==> x.due.Some? && top.due.value <= x.due.value)
  }

  lemma AppendSorted(promoted: seq<Item>, top: Item)
    requires SortedByDue(promoted) && top.due.Some?
    requires forall i :: 0 <= i < |promoted| ==> promoted[i].due.value <= top.due.value
    ensures SortedByDue(promoted + [top])
    ensures forall i :: 0 <= i < |promoted + [top]| ==> (promoted + [top])[i].due.value <= top.due.value
    ensures multiset(promoted + [top]) == multiset(promoted) + multiset{top}
  {
  }

  lemma DrainStarts(delayed: multiset<Item>, now: int, top: Item)
    requires AllDelayed(delayed) && IsTop(delayed, top) && top.due.value <= now
    ensures Draining(delayed, now, [], top, delayed - multiset{top})
  {
    var left := delayed - multiset{top};
    assert delayed == left + multiset{top};
  }

  lemma NothingDue(delayed: multiset<Item>, now: int)
    requires AllDelayed(delayed) && forall x :: x in delayed ==> x.due.value > now
    ensures Promotes(delayed, now, [], delayed)
  {
  }

  lemma DrainEnds(delayed: multiset<Item>, now: int, promoted: seq<Item>, top: Item, rest: multiset<Item>)
    requires Draining(delayed, now, promoted, top, rest) && forall x :: x in rest ==> x.due.value > now
    ensures Promotes(delayed, now, promoted + [top], rest)
  {
    AppendSorted(promoted, top);
  }

  lemma DrainGoesOn(delayed: multiset<Item>, now: int, promoted: seq<Item>, top: Item, rest: multiset<Item>, next: Item)
    requires Draining(delayed, now, promoted, top, rest)
    requires IsTop(rest, next) && next.due.value <= now
    ensures Draining(delayed, now, promoted + [top], next, rest - multiset{next})
  {
    AppendSorted(promoted, top);
    var left := rest - multiset{next};
    assert rest == left + multiset{next};
    assert top.due.value <= next.due.value;
  }

  // ----- The specification of the calls -----

  /** The queues with their history: what was handed out and what was posted. */
  datatype State = State(
    returned: seq<Item>, fifo: seq<Item>, delayed: multiset<Item>, posted: multiset<Item>, clock: int)
  {
    /** Everything that ever entered the FIFO, in order. */
    function Log(): seq<Item> {
      returned + fifo
    }
  }

  datatype Op =
    | Post(id: nat)
    | PostDelayed(id: nat, delay: int, now: int)
    | Promote(now: int, promoted: seq<Item>)
    | Take

  /** One call at a clock that never runs backwards. `GetNext` is a promotion and then a
      removal, and gives up its locks in between, so other calls may come between them. */
  ghost predicate Step(s: State, op: Op, r: State) {
    match op
    case Post(id) =>
      r == s.(fifo := s.fifo + [Item(id, None)], posted := s.posted + multiset{Item(id, None)})
    case PostDelayed(id, delay, now) =>
      && s.clock <= now
      && r == s.(delayed := s.delayed + multiset{Item(id, Some(now + delay))}, clock := now,
                 posted := s.posted + multiset{Item(id, Some(now + delay))})
    case Promote(now, promoted) =>
      && s.clock <= now && Promotes(s.delayed, now, promoted, r.delayed)
      && r == s.(fifo := s.fifo + promoted, delayed := r.delayed, clock := now)
    case Take =>
      r == if s.fifo == [] then s else s.(returned := s.returned + [s.fifo[0]], fifo := s.fifo[1..])
  }

  class TaskRunner {
    var taskQueue: seq<Item>
    var delayedQueue: multiset<Item>
    // History: what was handed out, what was posted, and the last reading of the clock.
    ghost var returned: seq<Item>
    ghost var posted: multiset<Item>
    ghost var clock: int

    ghost function View(): State
      reads this
    {
      State(returned, taskQueue, delayedQueue, posted, clock)
    }

    ghost predicate Valid()
      reads this
    {
      AllDelayed(delayedQueue)
    }

    constructor ()
      ensures Valid() && View() == State([], [], multiset{}, multiset{}, 0) && Accounted(View())
    {
      taskQueue, delayedQueue := [], multiset{};
      returned, posted, clock := [], multiset{}, 0;
    }

    method PostTask(id: nat)
      requires Valid()
      modifies `taskQueue, `posted
      ensures Valid() && Step(old(View()), Post(id), View())
    {
      posted := posted + multiset{Item(id, None)};
      taskQueue := taskQueue + [Item(id, None)];
    }

    method PostDelayedTask(id: nat, delay: int, now: int)
      requires Valid()
      modifies `delayedQueue, `posted, `clock
      ensures Valid() && delayedQueue == old(delayedQueue) + multiset{Item(id, Some(now + delay))}
      ensures old(clock) <= now ==> Step(old(View()), PostDelayed(id, delay, now), View())
    {
      clock, posted := now, posted + multiset{Item(id, Some(now + delay))};
      var deadline := now + delay;
      delayedQueue := delayedQueue + multiset{Item(id, Some(deadline))};
    }

    method Top() returns (top: Item)
      requires Valid() && delayedQueue != multiset{}
      ensures IsTop(delayedQueue, top)
    {
      TopExists(delayedQueue);
      top :| IsTop(delayedQueue, top);
    }

    /** The top of the delayed queue if it is due. */
    method PopTaskFromDelayedQueue(now: int) returns (task: Option<Item>)
      requires Valid()
      modifies `delayedQueue
      ensures Valid()
      ensures task == None ==> delayedQueue == old(delayedQueue) && forall x :: x in delayedQueue ==> x.due.value > now
      ensures task.Some? ==>
        IsTop(old(delayedQueue), task.value) && task.value.due.value <= now
        && delayedQueue == old(delayedQueue) - multiset{task.value}
        && |delayedQueue| < |old(delayedQueue)|
    {
      if delayedQueue == multiset{} {
        return None;
      }
      var top := Top();
      if top.due.value > now {
        return None;
      }
      delayedQueue := delayedQueue - multiset{top};
      return Some(top);
    }

    /** Moves everything due to the FIFO, earliest deadline first. */
    method PromoteDue(now: int) returns (ghost promoted: seq<Item>)
      requires Valid()
      modifies `taskQueue, `delayedQueue
      ensures Valid() && Promotes(old(delayedQueue), now, promoted, delayedQueue)
      ensures taskQueue == old(taskQueue) + promoted
    {
      promoted := [];
      ghost var all := delayedQueue;
      var due := PopTaskFromDelayedQueue(now);
      if due == None {
        NothingDue(all, now);
      } else {
        DrainStarts(all, now, due.value);
      }
      while due.Some?
        invariant Valid() && taskQueue == old(taskQueue) + promoted
        invariant due.Some? ==> Draining(all, now, promoted, due.value, delayedQueue)
        invariant due == None ==> Promotes(all, now, promoted, delayedQueue)
        decreases |delayedQueue|, due.Some?
      {
        ghost var before, top := delayedQueue, due.value;
        Reassociate(old(taskQueue), promoted, [top]);
        taskQueue := taskQueue + [due.value];
        due := PopTaskFromDelayedQueue(now);
        if due == None {
          DrainEnds(all, now, promoted, top, before);
        } else {
          DrainGoesOn(all, now, promoted, top, before, due.value);
        }
        promoted := promoted + [top];
      }
    }

    /** Hands out the front of the FIFO. */
    method TakeFront() returns (task: Option<Item>)
      requires Valid()
      modifies `taskQueue, `returned
      ensures Valid() && Step(old(View()), Take, View())
      ensures task == None <==> old(taskQueue) == []
      ensures task.Some? ==> old(taskQueue) == [task.value] + taskQueue && returned == old(returned) + [task.value]
    {
      if taskQueue == [] {
        return None;
      }
      task := Some(taskQueue[0]);
      returned := returned + [taskQueue[0]];
      taskQueue := taskQueue[1..];
    }

    /** Promotes everything due, then hands out the front of the FIFO; `mid` is the state
        between the two. */
    method GetNext(now: int) returns (task: Option<Item>, ghost promoted: seq<Item>, ghost mid: State)
      requires Valid()
      modifies this
      ensures Valid() && Promotes(old(delayedQueue), now, promoted, delayedQueue)
      ensures if task == None then old(taskQueue) + promoted == taskQueue == []
              else [task.value] + taskQueue == old(taskQueue) + promoted
      ensures task == None <==> old(taskQueue) == [] && forall x :: x in old(delayedQueue) ==> x.due.value > now
      ensures returned == old(returned) + if task == None then [] else [task.value]
      ensures old(clock) <= now ==> Step(old(View()), Promote(now, promoted), mid) && Step(mid, Take, View())
    {
      clock := now;
      promoted := PromoteDue(now);
      mid := View();
      EmptyMeansNoneDue(old(delayedQueue), now, promoted, delayedQueue);
      task := TakeFront();
    }

    /** The time until the next delayed task is due. */
    method GetNextTimeDelta(now: int) returns (delta: Option<int>)
      requires Valid()
      ensures delta == None <==> delayedQueue == multiset{}
      ensures delta.Some? ==>
        (exists x :: x in delayedQueue && x.due.value == now + delta.value)
        && (forall x :: x in delayedQueue ==> now + delta.value <= x.due.value)
    {
      if delayedQueue != multiset{} {
        var top := Top();
        return Some(top.due.value - now);
      }
      return None;
    }
  }

  lemma EmptyMeansNoneDue(delayed: multiset<Item>, now: int, promoted: seq<Item>, rest: multiset<Item>)
    requires Promotes(delayed, now, promoted, rest)
    ensures promoted == [] <==> forall x :: x in delayed ==> x.due.Some? && x.due.value > now
  {
    if promoted != [] {
      assert promoted[0] in multiset(promoted);
      assert promoted[0] in delayed;
    } else {
      assert rest == delayed;
    }
  }

  // ----- Whole runs -----

  ghost predicate Trace(ss: seq<State>, ops: seq<Op>) {
    && |ss| == |ops| + 1
    && (forall i :: 0 <= i < |ops| ==> Step(ss[i], ops[i], ss[i + 1]))
  }

  /** What a call puts at the end of the FIFO. */
  function Added(op: Op): seq<Item> {
    match op
    case Post(id) => [Item(id, None)]
    case Promote(_, promoted) => promoted
    case _ => []
  }

  /** The FIFO's history only ever grows at its end, by the task posted or by what is
      promoted. */
  lemma StepAppends(s: State, op: Op, r: State)
    requires Step(s, op, r)
    ensures r.Log() == s.Log() + Added(op)
  {
    match op
    case Post(id) => Reassociate(s.returned, s.fifo, [Item(id, None)]);
    case PostDelayed(_, _, _) =>
    case Promote(_, promoted) => Reassociate(s.returned, s.fifo, promoted);
    case Take => FrontMoves(s.returned, s.fifo);
  }

  lemma FrontMoves(returned: seq<Item>, all: seq<Item>)
    ensures all != [] ==> returned + [all[0]] + all[1..] == returned + all
    ensures all == [] ==> returned + all == returned
  {
  }

  /** Tasks already in the FIFO precede everything that enters later. */
  lemma {:induction false} LogGrows(ss: seq<State>, ops: seq<Op>, i: nat, j: nat)
    requires Trace(ss, ops) && i <= j < |ss|
    ensures ss[i].Log() <= ss[j].Log() && ss[i].returned <= ss[j].returned
    decreases j - i
  {
    if i < j {
      LogGrows(ss, ops, i, j - 1);
      assert Step(ss[j - 1], ops[j - 1], ss[j]);
      StepAppends(ss[j - 1], ops[j - 1], ss[j]);
    }
  }

  ghost predicate Accounted(s: State) {
    && multiset(s.returned) + multiset(s.fifo) + s.delayed == s.posted
    && (forall x :: x in s.Log() ==> x.DueBy(s.clock))
    && AllDelayed(s.delayed)
  }

  lemma PromoteAccounts(s: State, now: int, promoted: seq<Item>, r: State)
    requires Accounted(s) && Step(s, Promote(now, promoted), r)
    ensures Accounted(r)
  {
    StepAppends(s, Promote(now, promoted), r);
    forall x | x in r.Log()
      ensures x.DueBy(r.clock)
    {
      if x !in s.Log() {
        assert x in promoted;
      }
    }
  }

  lemma StepAccounts(s: State, op: Op, r: State)
    requires Accounted(s) && Step(s, op, r)
    ensures Accounted(r)
  {
    StepAppends(s, op, r);
    match op
    case Promote(now, promoted) => PromoteAccounts(s, now, promoted, r);
    case Take => TakeAccounts(s, r);
    case _ =>
  }

  lemma TakeAccounts(s: State, r: State)
    requires Accounted(s) && Step(s, Take, r)
    ensures Accounted(r)
  {
    StepAppends(s, Take, r);
    assert s.fifo != [] ==> s.fifo == [s.fifo[0]] + s.fifo[1..];
  }

  /** Conservation: in every state of every run what was posted is what was returned, what
      waits in the FIFO and what is delayed; and nothing in the FIFO or returned is ahead
      of its deadline. */
  lemma {:induction false} PostedIsAccountedFor(ss: seq<State>, ops: seq<Op>, i: nat)
    requires Trace(ss, ops) && Accounted(ss[0]) && i < |ss|
    ensures Accounted(ss[i])
    decreases i
  {
    if i > 0 {
      PostedIsAccountedFor(ss, ops, i - 1);
      assert Step(ss[i - 1], ops[i - 1], ss[i]);
      StepAccounts(ss[i - 1], ops[i - 1], ss[i]);
    }
  }

  /** No task is returned before its deadline: the clock has been read at it or later. */
  lemma NeverEarly(ss: seq<State>, ops: seq<Op>, i: nat)
    requires Trace(ss, ops) && Accounted(ss[0]) && i < |ops| && ops[i].Take? && ss[i].fifo != []
    ensures ss[i + 1].returned == ss[i].returned + [ss[i].fifo[0]] && ss[i].fifo[0].DueBy(ss[i].clock)
  {
    PostedIsAccountedFor(ss, ops, i);
    assert Step(ss[i], ops[i], ss[i + 1]);
    assert ss[i].Log()[|ss[i].returned|] == ss[i].fifo[0];
  }

  /** Past position `n` of the history, every `b` has an `a` before it. */
  ghost predicate Before(log: seq<Item>, n: nat, a: Item, b: Item) {
    forall q :: n <= q < |log| && log[q] == b ==> exists p :: n <= p < q && log[p] == a
  }

  ghost predicate Entered(log: seq<Item>, n: nat, a: Item) {
    exists p :: n <= p < |log| && log[p] == a
  }

  /** Of two tasks waiting together, the promotion takes the earlier one first. */
  lemma PromotesInOrder(delayed: multiset<Item>, now: int, promoted: seq<Item>, rest: multiset<Item>, a: Item, q: nat)
    requires Promotes(delayed, now, promoted, rest) && a in delayed && a.due.Some?
    requires q < |promoted| && a.due.value < promoted[q].due.value
    ensures exists p :: 0 <= p < q && promoted[p] == a
  {
    assert a !in rest;
    assert a in multiset(promoted);
    var p :| 0 <= p < |promoted| && promoted[p] == a;
  }

  /** Appending tasks that hold no `b`, or hold it only after an `a`, keeps the order. */
  lemma AppendKeepsOrder(l: seq<Item>, more: seq<Item>, n: nat, a: Item, b: Item)
    requires n <= |l| && Before(l, n, a, b)
    requires Entered(l, n, a) || Before(more, 0, a, b)
    ensures Before(l + more, n, a, b)
  {
    var m := l + more;
    forall q | n <= q < |m| && m[q] == b
      ensures exists p :: n <= p < q && m[p] == a
    {
      if q < |l| {
        assert l[q] == b;
        var p :| n <= p < q && l[p] == a;
        assert m[p] == a;
      } else if Entered(l, n, a) {
        var p :| n <= p < |l| && l[p] == a;
        assert m[p] == a;
      } else {
        assert more[q - |l|] == b;
        var p :| 0 <= p < q - |l| && more[p] == a;
        assert m[|l| + p] == a;
      }
    }
  }

  lemma AppendEnters(l: seq<Item>, more: seq<Item>, n: nat, a: Item)
    requires n <= |l|
    ensures Entered(l + more, n, a) <==> Entered(l, n, a) || a in more
  {
    var m := l + more;
    if Entered(l, n, a) {
      var p :| n <= p < |l| && l[p] == a;
      assert m[p] == a;
    }
    if a in more {
      var p :| 0 <= p < |more| && more[p] == a;
      assert m[|l| + p] == a;
    }
    if Entered(m, n, a) {
      var p :| n <= p < |m| && m[p] == a;
      assert p < |l| ==> l[p] == a;
      assert p >= |l| ==> more[p - |l|] == a;
    }
  }

  /** Since position `n` of the history `a` waits or has entered, and wherever `b` has
      entered, `a` has before. */
  ghost predicate InOrder(s: State, n: nat, a: Item, b: Item) {
    && n <= |s.Log()| && Before(s.Log(), n, a, b)
    && (a in s.delayed || Entered(s.Log(), n, a))
  }

  lemma StepKeepsOrder(s: State, op: Op, r: State, n: nat, a: Item, b: Item)
    requires Step(s, op, r) && InOrder(s, n, a, b)
    requires a.due.Some? && b.due.Some? && a.due.value < b.due.value
    ensures InOrder(r, n, a, b)
  {
    var more := Added(op);
    StepAppends(s, op, r);
    AppendEnters(s.Log(), more, n, a);
    if op.Promote? && !Entered(s.Log(), n, a) {
      forall q | 0 <= q < |more| && more[q] == b
        ensures exists p :: 0 <= p < q && more[p] == a
      {
        PromotesInOrder(s.delayed, op.now, more, r.delayed, a, q);
      }
      assert a in multiset(more) || a in r.delayed;
    }
    AppendKeepsOrder(s.Log(), more, n, a, b);
  }

  /** Of two delayed tasks that wait together, the one with the strictly earlier deadline
      enters the FIFO first: from that state on, wherever the later one enters, the earlier
      one has entered before. */
  lemma {:induction false} EarlierDeadlineFirst(ss: seq<State>, ops: seq<Op>, i: nat, j: nat, a: Item, b: Item)
    requires Trace(ss, ops) && i <= j < |ss| && a in ss[i].delayed && b in ss[i].delayed
    requires a.due.Some? && b.due.Some? && a.due.value < b.due.value
    ensures InOrder(ss[j], |ss[i].Log()|, a, b)
    decreases j - i
  {
    if i < j {
      EarlierDeadlineFirst(ss, ops, i, j - 1, a, b);
      assert Step(ss[j - 1], ops[j - 1], ss[j]);
      StepKeepsOrder(ss[j - 1], ops[j - 1], ss[j], |ss[i].Log()|, a, b);
    }
  }

  /** And so it is returned first: wherever the later one has been returned since, the
      earlier one has been returned before. */
  lemma EarlierDeadlineReturnedFirst(ss: seq<State>, ops: seq<Op>, i: nat, j: nat, a: Item, b: Item)
    requires Trace(ss, ops) && i <= j < |ss| && a in ss[i].delayed && b in ss[i].delayed
    requires a.due.Some? && b.due.Some? && a.due.value < b.due.value
    ensures Before(ss[j].returned, |ss[i].Log()|, a, b)
  {
    var n, r := |ss[i].Log()|, ss[j].returned;
    EarlierDeadlineFirst(ss, ops, i, j, a, b);
    forall q | n <= q < |r| && r[q] == b
      ensures exists p :: n <= p < q && r[p] == a
    {
      assert ss[j].Log()[q] == b;
      var p :| n <= p < q && ss[j].Log()[p] == a;
      assert r[p] == a;
    }
  }
}
