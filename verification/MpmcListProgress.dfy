/**
 The linked queue is obstruction-free: from any state of any execution, with the other
 threads stopped anywhere inside their calls, a thread that goes on alone ends its call
 within a bound, helping `tail_` on where it has to.
 */
module MpmcListProgress {
  import opened Common
  import opened MpmcListMachine
  import G = MpmcListGuarantees

  /** How many nodes `tail_` is behind the last one. */
  function Lag<T>(m: Store<T>): int {
    |m.order| - 1 - m.tail.tag
  }

  /** Accesses to go for a push that is about to load `tail_`. */
  function FreshPush<T>(m: Store<T>): int {
    4 * Lag(m) + 5
  }

  /** `tail_` has to be helped on before anything can be taken. */
  predicate NeedsHelp<T>(m: Store<T>) {
    m.head.tag == m.tail.tag && Lag(m) > 0
  }

  /** Accesses to go for a pop that is about to load `head_`. */
  function FreshPop<T>(m: Store<T>): int {
    if NeedsHelp(m) then 12 else 7
  }

  function PushRank<T>(m: Store<T>, l: Thread<T>): int {
    match l
    case PushAlloc(_) => FreshPush(m) + 1
    case PushTail(_, _) => FreshPush(m)
    case PushNext(_, _, tail) => if tail == m.tail then 4 * Lag(m) + 4 else FreshPush(m) + 2
    case PushCheck(_, _, tail, next, _) =>
      if tail != m.tail then FreshPush(m) + 1
      else if next == None then (if Lag(m) == 0 then 3 else FreshPush(m) + 2)
      else 4 * Lag(m) + 3
    case PushLink(_, _, tail, _) => if tail == m.tail && Lag(m) == 0 then 2 else FreshPush(m) + 1
    case PushHelp(_, _, tail, _) => if tail == m.tail then 4 * Lag(m) + 2 else 4 * Lag(m) + 5
    case PushSwing(_, _) => 1
    case _ => 0
  }

  function HelpRank<T>(m: Store<T>, tail: Tagged): int {
    if tail == m.tail then 8 else 1 + FreshPop(m)
  }

  function PopRank<T>(m: Store<T>, l: Thread<T>): int {
    match l
    case PopHead => FreshPop(m)
    case PopTail(head) => if head == m.head then FreshPop(m) - 1 else 3 + FreshPop(m)
    case PopNext(head, tail) =>
      if head != m.head then 2 + FreshPop(m)
      else if tail.tag == head.tag && head.tag + 1 < |m.order| then 10
      else 5
    case PopCheck(head, tail, next, _) =>
      if head != m.head then 1 + FreshPop(m)
      else if head.ptr != tail.ptr then 4
      else if next == None then 1
      else 1 + HelpRank(m, tail)
    case PopHelp(tail, _) => HelpRank(m, tail)
    case PopRead(head, _) => if head == m.head then 3 else 1 + FreshPop(m)
    case PopTake(head, _, _) => if head == m.head then 2 else FreshPop(m)
    case PopFree(_, _) => 1
    case _ => 0
  }

  /** How many accesses the call of `t` takes at most, if no exchange fails spuriously. */
  function Rank<T>(s: State<T>, t: nat): int
    requires t < |s.threads|
  {
    if s.threads[t].InPop() then PopRank(s.m, s.threads[t]) else PushRank(s.m, s.threads[t])
  }

  /** An access of `t` that does not fail spuriously; a push that waits for a node gets one. */
  predicate Willing<T>(s: State<T>, t: nat, a: Act<T>) {
    a.Go? && !a.weakFails && (t < |s.threads| && s.threads[t].PushAlloc? ==> MayAllocate(s, a.addr))
  }

  lemma PushLooks<T>(s: State<T>, t: nat, a: Act<T>)
    requires Inv(s) && s.Mapped() && t < |s.threads| && Willing(s, t, a)
    requires s.threads[t].PushAlloc? || s.threads[t].PushTail? || s.threads[t].PushNext? || s.threads[t].PushCheck?
    ensures var r := Exec(s, t, a); 0 <= Rank(r, t) < Rank(s, t)
  {
    assert ThreadOk(s.m, s.threads[t]);
    assert LinkOk(s.m, s.m.tail.tag);
  }

  lemma PushMoves<T>(s: State<T>, t: nat, a: Act<T>)
    requires Inv(s) && s.Mapped() && t < |s.threads| && Willing(s, t, a) && !Misled(s, t, a)
    requires s.threads[t].PushLink? || s.threads[t].PushSwing? || s.threads[t].PushHelp?
    ensures var r := Exec(s, t, a); 0 <= Rank(r, t) < Rank(s, t)
  {
    assert ThreadOk(s.m, s.threads[t]);
    assert LinkOk(s.m, s.m.tail.tag);
  }

  lemma PushProgresses<T>(s: State<T>, t: nat, a: Act<T>)
    requires Inv(s) && s.Mapped() && t < |s.threads| && !s.threads[t].AtRest() && !s.threads[t].InPop()
    requires Willing(s, t, a) && !Misled(s, t, a)
    ensures var r := Exec(s, t, a); 0 <= Rank(r, t) < Rank(s, t)
  {
    if s.threads[t].PushLink? || s.threads[t].PushSwing? || s.threads[t].PushHelp? {
      PushMoves(s, t, a);
    } else {
      assert ThreadOk(s.m, s.threads[t]);
      PushLooks(s, t, a);
    }
  }

  lemma PopLooks<T>(s: State<T>, t: nat, a: Act<T>)
    requires Inv(s) && s.Mapped() && t < |s.threads| && Willing(s, t, a)
    requires s.threads[t].PopHead? || s.threads[t].PopTail?
    ensures 0 <= PopRank(s.m, AdvancePop(s, t, a).threads[t]) < PopRank(s.m, s.threads[t])
    ensures AdvancePop(s, t, a).m == s.m
  {
    assert ThreadOk(s.m, s.threads[t]);
  }

  /** Where the queue ends, `tail_` stands there, or helping it on is what remains. */
  lemma PopNextLooks<T>(s: State<T>, t: nat, a: Act<T>)
    requires Inv(s) && s.Mapped() && t < |s.threads| && Willing(s, t, a) && s.threads[t].PopNext?
    ensures 0 <= PopRank(s.m, AdvancePop(s, t, a).threads[t]) < PopRank(s.m, s.threads[t])
    ensures AdvancePop(s, t, a).m == s.m
  {
    var head, tail := s.threads[t].head, s.threads[t].tail;
    assert ThreadOk(s.m, s.threads[t]);
    assert LinkOk(s.m, s.m.head.tag);
    if head == s.m.head && head.ptr == tail.ptr {
      SamePlace(s.m, head, tail);
    }
  }

  lemma PopCheckLooks<T>(s: State<T>, t: nat, a: Act<T>)
    requires Inv(s) && s.Mapped() && t < |s.threads| && Willing(s, t, a) && s.threads[t].PopCheck?
    ensures 0 <= PopRank(s.m, AdvancePop(s, t, a).threads[t]) < PopRank(s.m, s.threads[t])
    ensures AdvancePop(s, t, a).m == s.m
  {
    assert ThreadOk(s.m, s.threads[t]);
  }

  lemma PopMoves<T>(s: State<T>, t: nat, a: Act<T>)
    requires Inv(s) && s.Mapped() && t < |s.threads| && s.threads[t].InPop() && Willing(s, t, a)
    requires s.threads[t].PopHelp? || s.threads[t].PopRead? || s.threads[t].PopTake? || s.threads[t].PopFree?
    ensures var r := AdvancePop(s, t, a); 0 <= PopRank(r.m, r.threads[t]) < PopRank(s.m, s.threads[t])
  {
    assert ThreadOk(s.m, s.threads[t]);
  }

  lemma StaysInPop<T>(s: State<T>, t: nat, a: Act<T>)
    requires Inv(s) && s.Mapped() && t < |s.threads| && s.threads[t].InPop() && a.Go?
    ensures var l := AdvancePop(s, t, a).threads[t]; !l.InPop() ==> l.PopDone? || l.NullDereference?
  {
  }

  lemma PopProgresses<T>(s: State<T>, t: nat, a: Act<T>)
    requires Inv(s) && s.Mapped() && t < |s.threads| && s.threads[t].InPop() && Willing(s, t, a)
    ensures var r := Exec(s, t, a); 0 <= Rank(r, t) < Rank(s, t)
  {
    StaysInPop(s, t, a);
    match s.threads[t]
    case PopHead | PopTail(_) => PopLooks(s, t, a);
    case PopNext(_, _) => PopNextLooks(s, t, a);
    case PopCheck(_, _, _, _) => PopCheckLooks(s, t, a);
    case _ => PopMoves(s, t, a);
  }

  /** Each access of a thread that goes on alone brings it nearer to its answer, wherever
      it and the others stand. */
  lemma SoloProgresses<T>(s: State<T>, t: nat, a: Act<T>)
    requires Inv(s) && s.Mapped() && t < |s.threads| && !s.threads[t].AtRest()
    requires Willing(s, t, a) && !Misled(s, t, a)
    ensures var r := Exec(s, t, a); Inv(r) && 0 <= Rank(r, t) < Rank(s, t)
  {
    ExecInvIff(s, t, a);
    if s.threads[t].InPop() {
      PopProgresses(s, t, a);
    } else {
      PushProgresses(s, t, a);
    }
  }

  /** So it answers within that many accesses, from any state of any execution. */
  lemma {:induction false} SoloAnswers<T>(tr: seq<State<T>>, schedule: seq<Choice<T>>, t: nat, i: nat) returns (j: nat)
    requires G.Execution(tr, schedule) && i <= |schedule| && Inv(tr[i]) && t < |tr[i].threads|
    requires forall k {:trigger schedule[k]} :: i <= k < |schedule| ==>
      schedule[k].thread == t && Willing(tr[k], t, schedule[k].act)
    requires i + Rank(tr[i], t) <= |schedule|
    ensures i <= j <= |schedule| && t < |tr[j].threads| && tr[j].threads[t].AtRest()
    decreases |schedule| - i
  {
    if tr[i].threads[t].AtRest() {
      j := i;
    } else {
      RankIsPositive(tr[i], t);
      assert G.StepAt(tr[i], schedule[i], tr[i + 1]);
      SoloProgresses(tr[i], t, schedule[i].act);
      j := SoloAnswers(tr, schedule, t, i + 1);
    }
  }

  lemma RankIsPositive<T>(s: State<T>, t: nat)
    requires Inv(s) && t < |s.threads| && !s.threads[t].AtRest()
    ensures Rank(s, t) > 0
  {
    assert ThreadOk(s.m, s.threads[t]);
  }
}
