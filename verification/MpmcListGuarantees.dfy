/**
 What `mpmc_list` guarantees over whole executions of any number of threads, as long as no
 exchange on `next_` succeeds on a node other than the last of the queue. The pool may
 hand out any free node at any time; `MpmcListLoss` shows when that misleads an exchange.
 */
module MpmcListGuarantees {
  import opened Common
  import opened MpmcListMachine

  /** `tr` is the sequence of states a schedule goes through, with no misled exchange. */
  ghost predicate Execution<T>(tr: seq<State<T>>, schedule: seq<Choice<T>>) {
    && |tr| == |schedule| + 1
    && (forall i :: 0 <= i < |schedule| ==> StepAt(tr[i], schedule[i], tr[i + 1]))
  }

  ghost predicate StepAt<T>(s: State<T>, ch: Choice<T>, r: State<T>) {
    s.Mapped() && !Misled(s, ch.thread, ch.act) && r == Exec(s, ch.thread, ch.act)
  }

  lemma StepAtInv<T>(s: State<T>, ch: Choice<T>, r: State<T>)
    requires Inv(s) && StepAt(s, ch, r)
    ensures Inv(r) && |r.threads| == |s.threads|
  {
    ExecInvIff(s, ch.thread, ch.act);
  }

  lemma {:induction false} InvAlong<T>(tr: seq<State<T>>, schedule: seq<Choice<T>>, i: nat)
    requires Execution(tr, schedule) && Inv(tr[0]) && i < |tr|
    ensures Inv(tr[i]) && |tr[i].threads| == |tr[0].threads|
    decreases i
  {
    if i > 0 {
      InvAlong(tr, schedule, i - 1);
      assert StepAt(tr[i - 1], schedule[i - 1], tr[i]);
      StepAtInv(tr[i - 1], schedule[i - 1], tr[i]);
    }
  }

  /** The linked queue is a queue: in every state of every execution the values popped
      are a prefix of the values linked; the nodes from `head_` on are distinct, each
      points to the next and the last to null, and after the dummy they hold exactly the
      values not yet popped; `tail_` is one of them; and no thread follows a null pointer. */
  lemma ListIsQueue<T>(tr: seq<State<T>>, schedule: seq<Choice<T>>, i: nat, blank: T, threads: nat)
    requires Execution(tr, schedule) && tr[0] == Init(blank, threads) && i < |tr|
    ensures var m, h := tr[i].m, tr[i].m.head.tag;
      && |m.order| == |m.linked| + 1 && h <= m.tail.tag < |m.order|
      && m.popped == m.linked[..h]
      && m.head.ptr == m.order[h] && m.tail.ptr == m.order[m.tail.tag]
      && (forall j, k :: h <= j < k < |m.order| ==> m.order[j] != m.order[k])
      && (forall k :: h <= k < |m.order| ==> m.order[k] < |m.nodes|)
      && (forall k :: h <= k < |m.order| - 1 ==> m.nodes[m.order[k]].next == Some(m.order[k + 1]))
      && m.nodes[m.order[|m.order| - 1]].next == None
      && (forall k :: 0 <= k < |m.Contents()| ==> m.nodes[m.order[h + 1 + k]].data == m.Contents()[k])
    ensures forall t :: 0 <= t < |tr[i].threads| ==> !tr[i].threads[t].NullDereference?
  {
    InitInv(blank, threads);
    InvAlong(tr, schedule, i);
    var m := tr[i].m;
    assert LinkOk(m, |m.order| - 1);
    forall k | m.head.tag <= k < |m.order| - 1
      ensures m.nodes[m.order[k]].next == Some(m.order[k + 1])
    {
      assert LinkOk(m, k);
    }
    forall t | 0 <= t < |tr[i].threads|
      ensures !tr[i].threads[t].NullDereference?
    {
      assert ThreadOk(m, tr[i].threads[t]);
    }
  }

  /** What a step means to the abstract queue, read off the stepping thread. */
  function EventOf<T>(before: Thread<T>, after: Thread<T>): Event<T> {
    if before.PushLink? && after.PushSwing? then Append(before.val)
    else if before.PopTake? && after.PopFree? then Remove(after.got)
    else Silent
  }

  lemma PushRefinesQueue<T>(s: State<T>, t: nat, a: Act<T>)
    requires Inv(s) && s.Mapped() && t < |s.threads| && a.Go? && !s.threads[t].InPop()
    ensures var r := AdvancePush(s, t, a);
      && r.m.head == s.m.head && r.m.head.tag <= |r.m.linked|
      && QueueStep(s.m.Contents(), EventOf(s.threads[t], r.threads[t]), r.m.Contents())
  {
    if s.threads[t].PushLink? && AdvancePush(s, t, a).threads[t].PushSwing? {
      assert AdvancePush(s, t, a).m.Contents() == s.m.Contents() + [s.threads[t].val];
    }
  }

  lemma PopRefinesQueue<T>(s: State<T>, t: nat, a: Act<T>)
    requires Inv(s) && s.Mapped() && t < |s.threads| && a.Go? && s.threads[t].InPop()
    ensures var r := AdvancePop(s, t, a);
      && r.m.linked == s.m.linked && r.m.head.tag <= |r.m.linked|
      && QueueStep(s.m.Contents(), EventOf(s.threads[t], r.threads[t]), r.m.Contents())
  {
    assert ThreadOk(s.m, s.threads[t]);
    if s.threads[t].PopTake? && AdvancePop(s, t, a).threads[t].PopFree? {
      assert s.m.Contents() == [s.threads[t].got] + AdvancePop(s, t, a).m.Contents();
    }
  }

  /** The abstract queue changes at the link, by the value pushed, and at the exchange of
      `head_`, by the value the pop goes on to return, and at no other step. */
  lemma StepRefinesQueue<T>(s: State<T>, t: nat, a: Act<T>)
    requires Inv(s) && s.Mapped() && t < |s.threads|
    ensures var r := Exec(s, t, a);
      && r.m.head.tag <= |r.m.linked|
      && QueueStep(s.m.Contents(), EventOf(s.threads[t], r.threads[t]), r.m.Contents())
  {
    if a.Go? {
      if s.threads[t].InPop() {
        PopRefinesQueue(s, t, a);
      } else {
        PushRefinesQueue(s, t, a);
      }
    }
  }

  ghost predicate IsEmpty<T>(s: State<T>) {
    s.m.head.tag <= |s.m.linked| && s.m.Contents() == []
  }

  /** Thread `t` is inside one call of `pop` from state `k` to state `i`. */
  ghost predicate Inside<T>(tr: seq<State<T>>, t: nat, k: nat, i: nat) {
    forall j :: k <= j <= i && j < |tr| ==> t < |tr[j].threads| && tr[j].threads[t].InPop()
  }

  /** A pop about to judge a null `next_` either loaded it in this very step, from an
      empty queue, or stood there already. */
  lemma EmptyLoaded<T>(s: State<T>, ch: Choice<T>, r: State<T>, t: nat)
    requires StepAt(s, ch, r) && t < |r.threads| && r.threads[t].PopCheck? && r.threads[t].empty
    ensures t < |s.threads| && s.threads[t].InPop()
    ensures IsEmpty(s) || s.threads[t] == r.threads[t]
  {
  }

  lemma {:induction false} EmptySeen<T>(tr: seq<State<T>>, schedule: seq<Choice<T>>, i: nat, t: nat) returns (k: nat)
    requires Execution(tr, schedule) && i < |tr| && t < |tr[0].threads| && tr[0].threads[t].AtRest()
    requires t < |tr[i].threads| && tr[i].threads[t].PopCheck? && tr[i].threads[t].empty
    ensures k < i && IsEmpty(tr[k]) && Inside(tr, t, k, i)
    decreases i
  {
    assert StepAt(tr[i - 1], schedule[i - 1], tr[i]);
    EmptyLoaded(tr[i - 1], schedule[i - 1], tr[i], t);
    if IsEmpty(tr[i - 1]) {
      k := i - 1;
    } else {
      k := EmptySeen(tr, schedule, i - 1, t);
    }
  }

  lemma EmptyAnswered<T>(s: State<T>, ch: Choice<T>, r: State<T>)
    requires Inv(s) && StepAt(s, ch, r) && ch.thread < |s.threads| && !s.threads[ch.thread].AtRest()
    requires r.threads[ch.thread] == PopDone(None)
    ensures s.threads[ch.thread].PopCheck? && s.threads[ch.thread].empty
  {
    assert ThreadOk(s.m, s.threads[ch.thread]);
  }

  /** `pop` answers "empty" only if the queue was empty at some instant inside that call. */
  lemma EmptyAnswerIsTrue<T>(tr: seq<State<T>>, schedule: seq<Choice<T>>, i: nat, t: nat) returns (k: nat)
    requires Execution(tr, schedule) && Inv(tr[0]) && t < |tr[0].threads| && tr[0].threads[t].AtRest()
    requires i < |schedule| && schedule[i].thread == t && t < |tr[i].threads| && !tr[i].threads[t].AtRest()
    requires t < |tr[i + 1].threads| && tr[i + 1].threads[t] == PopDone(None)
    ensures k < i && IsEmpty(tr[k]) && Inside(tr, t, k, i)
  {
    assert StepAt(tr[i], schedule[i], tr[i + 1]);
    InvAlong(tr, schedule, i);
    EmptyAnswered(tr[i], schedule[i], tr[i + 1]);
    k := EmptySeen(tr, schedule, i, t);
  }

  // ----- How far `tail_` lags behind -----

  /** `tail_` is the last node or the one before it. */
  predicate TailClose<T>(m: Store<T>) {
    |m.order| <= m.tail.tag + 2
  }

  /** `tail_` stays that close if and only if no exchange on `next_` succeeds while it is
      one node behind already. */
  lemma TailCloseIff<T>(s: State<T>, t: nat, a: Act<T>)
    requires Inv(s) && s.Mapped() && TailClose(s.m)
    ensures TailClose(Exec(s, t, a).m) <==> !Outruns(s, t, a)
  {
    if t < |s.threads| {
      assert ThreadOk(s.m, s.threads[t]);
    }
  }

  // ----- What the pool must not do -----

  /** Each push about to exchange `next_` still finds there what was linked behind. */
  ghost predicate LinkersHold<T>(s: State<T>) {
    forall u :: 0 <= u < |s.threads| && s.threads[u].PushLink? ==> LinkOk(s.m, s.threads[u].tail.tag)
  }

  /** Then an exchange that succeeds is behind the last node, which `tail_` denotes. */
  lemma LinkersAreNotMisled<T>(s: State<T>, t: nat, a: Act<T>)
    requires Inv(s) && LinkersHold(s)
    ensures !Misled(s, t, a) && !Outruns(s, t, a)
  {
    if Links(s, t, a) {
      assert ThreadOk(s.m, s.threads[t]);
      assert LinkOk(s.m, s.threads[t].tail.tag);
    }
  }

  lemma LinkKeepsLinks<T>(m: Store<T>, p: nat, v: T, k: nat)
    requires ChainOk(m) && LinkOk(m, k) && Last(m) < |m.nodes|
    ensures LinkOk(Link(m, Last(m), p, v), k)
  {
    LastIsInChain(m);
  }

  lemma LinkKeepsLinkers<T>(s: State<T>, t: nat, a: Act<T>)
    requires Inv(s) && s.Mapped() && LinkersHold(s) && Links(s, t, a)
    ensures LinkersHold(Exec(s, t, a))
  {
    LinkersAreNotMisled(s, t, a);
    var l, r := s.threads[t], Exec(s, t, a);
    forall u | 0 <= u < |r.threads| && r.threads[u].PushLink?
      ensures LinkOk(r.m, r.threads[u].tail.tag)
    {
      LinkKeepsLinks(s.m, l.p, l.val, s.threads[u].tail.tag);
    }
  }

  /** A node that may be handed out has left the queue. */
  lemma ReusableIsBehindHead<T>(s: State<T>, id: nat, k: nat)
    requires MayAllocate(s, id) && k < |s.m.order| && s.m.order[k] == id
    ensures k < s.m.head.tag
  {
  }

  /** The node rebuilt is not the one that was linked behind. */
  lemma RebuiltIsUnlinked<T>(s: State<T>, r: State<T>, u: nat, id: nat)
    requires Inv(s) && MayAllocate(s, id) && u < |s.threads| && s.threads[u].PushLink?
    requires LinkOk(s.m, s.threads[u].tail.tag) && s.threads[u].tail.ptr == id
    requires u < |r.threads| && r.threads[u] == s.threads[u] && r.m.order == s.m.order
    requires id < |r.m.nodes| && r.m.nodes[id].next == None
    ensures !LinkersHold(r)
  {
    assert ThreadOk(s.m, s.threads[u]);
    ReusableIsBehindHead(s, id, s.threads[u].tail.tag);
    assert !LinkOk(r.m, r.threads[u].tail.tag);
  }

  lemma ReuseBreaksLinkers<T>(s: State<T>, t: nat, a: Act<T>)
    requires Inv(s) && s.Mapped() && LinkersHold(s) && Reuses(s, t, a)
    ensures !LinkersHold(Exec(s, t, a))
  {
    var u :| 0 <= u < |s.threads| && s.threads[u].PushLink? && s.threads[u].tail.ptr == a.addr;
    RebuiltIsUnlinked(s, Exec(s, t, a), u, a.addr);
  }

  lemma AllocationKeepsLinkers<T>(s: State<T>, t: nat, a: Act<T>)
    requires Inv(s) && s.Mapped() && LinkersHold(s) && t < |s.threads| && a.Go? && s.threads[t].PushAlloc?
    requires !Reuses(s, t, a)
    ensures LinkersHold(Exec(s, t, a))
  {
    var r := Exec(s, t, a);
    forall u | 0 <= u < |r.threads| && r.threads[u].PushLink?
      ensures LinkOk(r.m, r.threads[u].tail.tag)
    {
      assert LinkOk(s.m, s.threads[u].tail.tag) && ThreadOk(s.m, s.threads[u]);
    }
  }

  /** The links between nodes are the same. */
  ghost predicate SameLinks<T>(m: Store<T>, r: Store<T>) {
    && r.order == m.order && |r.nodes| == |m.nodes|
    && (forall id :: 0 <= id < |m.nodes| ==> r.nodes[id].next == m.nodes[id].next && r.nodes[id].tag == m.nodes[id].tag)
  }

  lemma OthersKeepLinks<T>(s: State<T>, t: nat, a: Act<T>)
    requires s.Mapped() && !Links(s, t, a) && (t < |s.threads| && a.Go? ==> !s.threads[t].PushAlloc?)
    ensures SameLinks(s.m, Exec(s, t, a).m)
  {
  }

  /** A push comes to its exchange on `next_` from the node `tail_` denotes. */
  lemma LinkersComeFromTail<T>(s: State<T>, t: nat, a: Act<T>, u: nat)
    requires s.Mapped() && u < |s.threads| && Exec(s, t, a).threads[u].PushLink?
    ensures Exec(s, t, a).threads[u] == s.threads[u] || Exec(s, t, a).threads[u].tail == s.m.tail
  {
  }

  lemma OthersKeepLinkers<T>(s: State<T>, t: nat, a: Act<T>)
    requires Inv(s) && s.Mapped() && LinkersHold(s) && !Links(s, t, a)
    requires t < |s.threads| && a.Go? ==> !s.threads[t].PushAlloc?
    ensures LinkersHold(Exec(s, t, a))
  {
    var r := Exec(s, t, a);
    OthersKeepLinks(s, t, a);
    forall u | 0 <= u < |r.threads| && r.threads[u].PushLink?
      ensures LinkOk(r.m, r.threads[u].tail.tag)
    {
      LinkersComeFromTail(s, t, a, u);
      assert LinkOk(s.m, r.threads[u].tail.tag);
    }
  }

  /** That lasts if and only if the pool does not hand out a node behind which some push
      is about to link. Reuse under any other access needs no care. */
  lemma LinkersHoldIff<T>(s: State<T>, t: nat, a: Act<T>)
    requires Inv(s) && s.Mapped() && LinkersHold(s)
    ensures LinkersHold(Exec(s, t, a)) <==> !Reuses(s, t, a)
  {
    if t < |s.threads| && a.Go? && s.threads[t].PushAlloc? {
      if Reuses(s, t, a) { ReuseBreaksLinkers(s, t, a); } else { AllocationKeepsLinkers(s, t, a); }
    } else if Links(s, t, a) {
      LinkKeepsLinkers(s, t, a);
    } else {
      OthersKeepLinkers(s, t, a);
    }
  }

  // ----- Who brings `tail_` up to date -----

  /** While `tail_` is behind, the push that linked the node after it is still to move it. */
  ghost predicate Attended<T>(s: State<T>) {
    s.m.tail.tag + 1 < |s.m.order| ==>
      exists u :: 0 <= u < |s.threads| && s.threads[u].PushSwing? && s.threads[u].tail == s.m.tail
  }

  lemma LinkAttends<T>(s: State<T>, t: nat, a: Act<T>)
    requires Inv(s) && s.Mapped() && LinkersHold(s) && Links(s, t, a)
    ensures Attended(Exec(s, t, a))
  {
    var l := s.threads[t];
    LinkersAreNotMisled(s, t, a);
    assert ThreadOk(s.m, l) && LinkOk(s.m, l.tail.tag);
    assert l.tail == s.m.tail;
    assert Exec(s, t, a).threads[t] == PushSwing(l.p, l.tail);
  }

  /** A step that is no link and leaves `tail_` alone leaves the pushes that are to move it. */
  lemma OthersAttend<T>(s: State<T>, t: nat, a: Act<T>, u: nat)
    requires s.Mapped() && !Links(s, t, a) && Exec(s, t, a).m.tail == s.m.tail
    requires u < |s.threads| && s.threads[u].PushSwing? && s.threads[u].tail == s.m.tail
    ensures Exec(s, t, a).threads[u] == s.threads[u] && Exec(s, t, a).m.order == s.m.order
  {
  }

  lemma SwingCloses<T>(s: State<T>, t: nat, a: Act<T>)
    requires Inv(s) && s.Mapped() && TailClose(s.m) && Exec(s, t, a).m.tail != s.m.tail
    ensures Exec(s, t, a).m.tail.tag + 1 >= |Exec(s, t, a).m.order|
  {
  }

  lemma NeverBehind<T>(s: State<T>, t: nat, a: Act<T>)
    requires s.Mapped() && !Links(s, t, a)
    ensures Exec(s, t, a).m.order == s.m.order
  {
  }

  lemma AttendedKept<T>(s: State<T>, t: nat, a: Act<T>)
    requires Inv(s) && s.Mapped() && LinkersHold(s) && TailClose(s.m) && Attended(s)
    ensures Attended(Exec(s, t, a))
  {
    if Links(s, t, a) {
      LinkAttends(s, t, a);
    } else if Exec(s, t, a).m.tail != s.m.tail {
      SwingCloses(s, t, a);
    } else if s.m.tail.tag + 1 < |s.m.order| {
      var u :| 0 <= u < |s.threads| && s.threads[u].PushSwing? && s.threads[u].tail == s.m.tail;
      OthersAttend(s, t, a, u);
    } else {
      NeverBehind(s, t, a);
    }
  }

  /** The states of a run in which the pool hands out no such node. */
  ghost predicate CarefulRun<T>(tr: seq<State<T>>, schedule: seq<Choice<T>>) {
    && |tr| == |schedule| + 1
    && (forall i :: 0 <= i < |schedule| ==> CarefulAt(tr[i], schedule[i], tr[i + 1]))
  }

  ghost predicate CarefulAt<T>(s: State<T>, ch: Choice<T>, r: State<T>) {
    s.Mapped() && !Reuses(s, ch.thread, ch.act) && r == Exec(s, ch.thread, ch.act)
  }

  ghost predicate Careful<T>(s: State<T>) {
    Inv(s) && LinkersHold(s) && TailClose(s.m) && Attended(s)
  }

  lemma CarefulStep<T>(s: State<T>, ch: Choice<T>, r: State<T>)
    requires Careful(s) && CarefulAt(s, ch, r)
    ensures StepAt(s, ch, r) && Careful(r)
  {
    AttendedKept(s, ch.thread, ch.act);
    LinkersAreNotMisled(s, ch.thread, ch.act);
    ExecInvIff(s, ch.thread, ch.act);
    LinkersHoldIff(s, ch.thread, ch.act);
    TailCloseIff(s, ch.thread, ch.act);
  }

  lemma {:induction false} CarefulAlong<T>(tr: seq<State<T>>, schedule: seq<Choice<T>>, i: nat, blank: T, threads: nat)
    requires CarefulRun(tr, schedule) && tr[0] == Init(blank, threads) && i < |tr|
    ensures Careful(tr[i])
    decreases i
  {
    if i == 0 {
      InitInv(blank, threads);
    } else {
      CarefulAlong(tr, schedule, i - 1, blank, threads);
      assert CarefulAt(tr[i - 1], schedule[i - 1], tr[i]);
      CarefulStep(tr[i - 1], schedule[i - 1], tr[i]);
    }
  }

  /** With a pool that hands out no node behind which a push is about to link, no exchange
      is ever misled, so that everything above holds of the run; `tail_` is always the last
      node or the one before it, and it is the last one whenever no push is between its link
      and its return. */
  lemma CarefulRunsAreSafe<T>(tr: seq<State<T>>, schedule: seq<Choice<T>>, blank: T, threads: nat)
    requires CarefulRun(tr, schedule) && tr[0] == Init(blank, threads)
    ensures Execution(tr, schedule)
    ensures forall i :: 0 <= i < |tr| ==> TailClose(tr[i].m) && Attended(tr[i])
  {
    forall i | 0 <= i < |schedule|
      ensures StepAt(tr[i], schedule[i], tr[i + 1])
    {
      CarefulAlong(tr, schedule, i, blank, threads);
      assert CarefulAt(tr[i], schedule[i], tr[i + 1]);
      CarefulStep(tr[i], schedule[i], tr[i + 1]);
    }
    forall i | 0 <= i < |tr|
      ensures TailClose(tr[i].m) && Attended(tr[i])
    {
      CarefulAlong(tr, schedule, i, blank, threads);
    }
  }
}
