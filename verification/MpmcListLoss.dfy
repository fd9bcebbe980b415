/**
 The linked queue on its own pool is not safe: the one-node cache hands the node of the
 last pop straight to the next push, while an older push is about to link behind it. One
 run of three threads from the initial state loses a value that way; another leaves
 `tail_` two nodes behind.
 */
module MpmcListLoss {
  import opened Common
  import opened MpmcListMachine
  import P = NodePoolMachine
  import G = MpmcListGuarantees
  import J = MpmcListOnPool

  ghost predicate Reaches(s0: J.State<int>, s: J.State<int>) {
    exists schedule: seq<J.Choice<int>> :: J.Run(s0, schedule) == s
  }

  lemma {:induction false} RunSnoc(s: J.State<int>, schedule: seq<J.Choice<int>>, ch: J.Choice<int>)
    requires J.Run(s, schedule).Mapped()
    ensures J.Run(s, schedule + [ch]) == J.Exec(J.Run(s, schedule), ch.thread, ch.act)
    decreases |schedule|
  {
    if schedule == [] {
      assert [ch][1..] == [];
    } else {
      assert (schedule + [ch])[1..] == schedule[1..] + [ch];
      RunSnoc(J.Exec(s, schedule[0].thread, schedule[0].act), schedule[1..], ch);
    }
  }

  lemma Next(s0: J.State<int>, s: J.State<int>, t: nat, a: J.Act<int>, r: J.State<int>)
    requires Reaches(s0, s) && s.Mapped() && J.Exec(s, t, a) == r
    ensures Reaches(s0, r)
  {
    var schedule: seq<J.Choice<int>> :| J.Run(s0, schedule) == s;
    RunSnoc(s0, schedule, J.Choice(t, a));
  }

  const GO: J.Act<int> := J.Go(false, None, 9)
  const LIST_GO: Act<int> := Go(false, 0, 9)

  /** An access of the list by a thread that is not in the pool. */
  lemma ListNext(s0: J.State<int>, s: State<int>, p: P.State, t: nat, r: State<int>)
    requires J.State(s, p).Mapped() && Reaches(s0, J.State(s, p)) && t < |p.threads| && p.threads[t].AtRest()
    requires !s.threads[t].PushAlloc? && !s.threads[t].PopFree? && Exec(s, t, LIST_GO) == r
    ensures Reaches(s0, J.State(r, p))
  {
    Next(s0, J.State(s, p), t, GO, J.State(r, p));
  }

  // ----- Whole stretches of thread `t` -----

  /** `alloc` finds the cache and the stack empty. */
  lemma AllocLooks(s0: J.State<int>, l: State<int>, p: P.Store, ps: seq<P.Thread>, t: nat)
    requires t < |l.threads| == |ps| && ps[t].AtRest() && l.threads[t].PushAlloc?
    requires J.State(l, P.State(p, ps)).Mapped() && Reaches(s0, J.State(l, P.State(p, ps)))
    requires p.cache == None && p.cursor.ptr == None
    ensures Reaches(s0, J.State(l, P.State(p, ps[t := P.AllocNext(p.cursor)])))
  {
    var s1 := J.State(l, P.State(p, ps[t := P.AllocCache]));
    Next(s0, J.State(l, P.State(p, ps)), t, GO, s1);
    var s2 := J.State(l, P.State(p, ps[t := P.AllocLoad]));
    Next(s0, s1, t, GO, s2);
    Next(s0, s2, t, GO, J.State(l, P.State(p, ps[t := P.AllocNext(p.cursor)])));
  }

  /** `alloc` from an empty pool: a new node. */
  lemma AllocNew(s0: J.State<int>, m: Store<int>, ls: seq<Thread<int>>, p: P.Store, ps: seq<P.Thread>, t: nat, v: int)
    requires t < |ls| == |ps| && ps[t].AtRest() && ls[t] == PushAlloc(v)
    requires J.State(State(m, ls), P.State(p, ps)).Mapped() && Reaches(s0, J.State(State(m, ls), P.State(p, ps)))
    requires p.cache == None && p.cursor.ptr == None && MayAllocate(State(m, ls), |p.links|)
    ensures Reaches(s0, J.State(State(Allocate(m, v, |p.links|), ls[t := PushTail(v, |p.links|)]),
                                P.State(P.NewNode(p, None), ps[t := P.AllocDone(|p.links|)])))
  {
    AllocLooks(s0, State(m, ls), p, ps, t);
    Next(s0, J.State(State(m, ls), P.State(p, ps[t := P.AllocNext(p.cursor)])), t, GO,
         J.State(State(Allocate(m, v, |p.links|), ls[t := PushTail(v, |p.links|)]),
                 P.State(P.NewNode(p, None), ps[t := P.AllocDone(|p.links|)])));
  }

  lemma PushLooks(s0: J.State<int>, m: Store<int>, ls: seq<Thread<int>>, p: P.State, t: nat, v: int, id: nat)
    requires t < |ls| == |p.threads| && p.threads[t].AtRest() && ls[t] == PushTail(v, id)
    requires J.State(State(m, ls), p).Mapped() && Reaches(s0, J.State(State(m, ls), p))
    requires m.tail.ptr < |m.nodes| && m.nodes[m.tail.ptr].next == None
    ensures Reaches(s0, J.State(State(m, ls[t := PushLink(v, id, m.tail, m.nodes[m.tail.ptr].tag)]), p))
  {
    var tag := m.nodes[m.tail.ptr].tag;
    var s1 := State(m, ls[t := PushNext(v, id, m.tail)]);
    ListNext(s0, State(m, ls), p, t, s1);
    var s2 := State(m, ls[t := PushCheck(v, id, m.tail, None, tag)]);
    ListNext(s0, s1, p, t, s2);
    ListNext(s0, s2, p, t, State(m, ls[t := PushLink(v, id, m.tail, tag)]));
  }

  lemma PopStarts(s0: J.State<int>, m: Store<int>, ls: seq<Thread<int>>, p: P.State, t: nat)
    requires t < |ls| == |p.threads| && p.threads[t].AtRest() && ls[t].AtRest()
    requires J.State(State(m, ls), p).Mapped() && Reaches(s0, J.State(State(m, ls), p))
    ensures Reaches(s0, J.State(State(m, ls[t := PopTail(m.head)]), p))
  {
    var s1 := State(m, ls[t := PopHead]);
    Next(s0, J.State(State(m, ls), p), t, J.CallPop, J.State(s1, p));
    ListNext(s0, s1, p, t, State(m, ls[t := PopTail(m.head)]));
  }

  lemma PopToCheck(s0: J.State<int>, m: Store<int>, ls: seq<Thread<int>>, p: P.State, t: nat)
    requires t < |ls| == |p.threads| && p.threads[t].AtRest() && ls[t].AtRest()
    requires J.State(State(m, ls), p).Mapped() && Reaches(s0, J.State(State(m, ls), p))
    requires m.head.ptr < |m.nodes|
    ensures var check := PopCheck(m.head, m.tail, m.nodes[m.head.ptr].next, m.Contents() == []);
      Reaches(s0, J.State(State(m, ls[t := check]), p))
  {
    PopStarts(s0, m, ls, p, t);
    var s3 := State(m, ls[t := PopNext(m.head, m.tail)]);
    ListNext(s0, State(m, ls[t := PopTail(m.head)]), p, t, s3);
    ListNext(s0, s3, p, t, State(m, ls[t := PopCheck(m.head, m.tail, m.nodes[m.head.ptr].next, m.Contents() == [])]));
  }

  // ----- The run -----

  const START: J.State<int> := J.Init(0, 3)

  /** The pusher of 1, about to link behind node 0. */
  const STALLED: Thread<int> := PushLink(1, 1, Tagged(0, 0), 0)

  function Pool(links: nat, cache: Option<nat>, client: set<nat>, owner: seq<P.Place>): P.Store {
    P.Store(seq(links, _ => None), cache, P.Tagged(None, 0), [], client, owner)
  }

  /** The queue with its first pusher's node made, and the pool it came from. */
  function OneMade(): Store<int> {
    Store([Node(0, None, 0), Node(1, None, 0)], Tagged(0, 0), Tagged(0, 0), [0], [], [])
  }

  function TwoMade(): P.State {
    P.State(Pool(2, None, {0, 1}, [P.Client, P.Client]), [P.AllocDone(1), P.Idle, P.Idle])
  }

  lemma FirstAllocates()
    ensures Reaches(START, J.State(State(OneMade(), [PushTail(1, 1), Idle, Idle]), TwoMade()))
  {
    assert J.Run(START, []) == START;
    var m, p := START.list.m, START.pool.m;
    assert START.list.threads == [Idle, Idle, Idle] && START.pool.threads == [P.Idle, P.Idle, P.Idle];
    Next(START, START, 0, J.CallPush(1), J.State(State(m, [PushAlloc(1), Idle, Idle]), START.pool));
    AllocNew(START, m, [PushAlloc(1), Idle, Idle], p, [P.Idle, P.Idle, P.Idle], 0, 1);
    assert Allocate(m, 1, 1) == OneMade() && P.NewNode(p, None) == TwoMade().m;
    assert [PushAlloc(1), Idle, Idle][0 := PushTail(1, 1)] == [PushTail(1, 1), Idle, Idle];
    assert [P.Idle, P.Idle, P.Idle][0 := P.AllocDone(1)] == TwoMade().threads;
  }

  lemma FirstStalls()
    ensures Reaches(START, J.State(State(OneMade(), [STALLED, Idle, Idle]), TwoMade()))
  {
    FirstAllocates();
    PushLooks(START, OneMade(), [PushTail(1, 1), Idle, Idle], TwoMade(), 0, 1, 1);
    assert [PushTail(1, 1), Idle, Idle][0 := STALLED] == [STALLED, Idle, Idle];
  }

  lemma SecondAllocates()
    ensures Reaches(START, J.State(State(Store([Node(0, None, 0), Node(1, None, 0), Node(2, None, 0)],
                                               Tagged(0, 0), Tagged(0, 0), [0], [], []),
                                         [STALLED, PushTail(2, 2), Idle]),
                                   Three(None, {0, 1, 2}, P.Client, P.AllocDone(2))))
  {
    FirstStalls();
    var m, p, ps := OneMade(), TwoMade().m, TwoMade().threads;
    Next(START, J.State(State(m, [STALLED, Idle, Idle]), TwoMade()), 1, J.CallPush(2),
         J.State(State(m, [STALLED, PushAlloc(2), Idle]), TwoMade()));
    AllocNew(START, m, [STALLED, PushAlloc(2), Idle], p, ps, 1, 2);
    assert Allocate(m, 2, 2).nodes == [Node(0, None, 0), Node(1, None, 0), Node(2, None, 0)];
    var q := Three(None, {0, 1, 2}, P.Client, P.AllocDone(2));
    assert P.NewNode(p, None) == q.m && ps[1 := P.AllocDone(2)] == q.threads;
    assert [STALLED, PushAlloc(2), Idle][1 := PushTail(2, 2)] == [STALLED, PushTail(2, 2), Idle];
  }

  lemma SecondAtLink()
    ensures Reaches(START, J.State(State(Store([Node(0, None, 0), Node(1, None, 0), Node(2, None, 0)],
                                               Tagged(0, 0), Tagged(0, 0), [0], [], []),
                                         [STALLED, PushLink(2, 2, Tagged(0, 0), 0), Idle]),
                                   Three(None, {0, 1, 2}, P.Client, P.AllocDone(2))))
  {
    SecondAllocates();
    var n := Store([Node(0, None, 0), Node(1, None, 0), Node(2, None, 0)], Tagged(0, 0), Tagged(0, 0), [0], [], []);
    PushLooks(START, n, [STALLED, PushTail(2, 2), Idle], Three(None, {0, 1, 2}, P.Client, P.AllocDone(2)), 1, 2, 2);
    assert [STALLED, PushTail(2, 2), Idle][1 := PushLink(2, 2, Tagged(0, 0), 0)] ==
      [STALLED, PushLink(2, 2, Tagged(0, 0), 0), Idle];
  }

  /** The pool with three nodes: where node 0 is, and where the second thread stands. */
  function Three(cache: Option<nat>, client: set<nat>, zero: P.Place, second: P.Thread): P.State {
    P.State(Pool(3, cache, client, [zero, P.Client, P.Client]), [P.AllocDone(1), second, P.Idle])
  }

  /** The queue that holds 2 alone, while the pusher of 1 stands still. */
  function OnlyTwo(): Store<int> {
    Store([Node(0, Some(2), 1), Node(1, None, 0), Node(2, None, 0)], Tagged(0, 0), Tagged(2, 1), [0, 2], [2], [])
  }

  lemma TwoIsPushed()
    ensures Reaches(START, J.State(State(OnlyTwo(), [STALLED, PushDone, Idle]),
                                   Three(None, {0, 1, 2}, P.Client, P.AllocDone(2))))
  {
    SecondAtLink();
    var q := Three(None, {0, 1, 2}, P.Client, P.AllocDone(2));
    var s := State(Store([Node(0, None, 0), Node(1, None, 0), Node(2, None, 0)],
                         Tagged(0, 0), Tagged(0, 0), [0], [], []),
                   [STALLED, PushLink(2, 2, Tagged(0, 0), 0), Idle]);
    var s1 := State(OnlyTwo().(tail := Tagged(0, 0)), [STALLED, PushSwing(2, Tagged(0, 0)), Idle]);
    ListNext(START, s, q, 1, s1);
    ListNext(START, s1, q, 1, State(OnlyTwo(), [STALLED, PushDone, Idle]));
  }

  /** Node 2 is the queue's dummy now, and the value 2 has been popped. */
  function Popped(): Store<int> {
    OnlyTwo().(head := Tagged(2, 1), popped := [2])
  }

  lemma TwoIsFound()
    ensures Reaches(START, J.State(State(OnlyTwo(), [STALLED, PopRead(Tagged(0, 0), 2), Idle]),
                                   Three(None, {0, 1, 2}, P.Client, P.AllocDone(2))))
  {
    TwoIsPushed();
    var m, q := OnlyTwo(), Three(None, {0, 1, 2}, P.Client, P.AllocDone(2));
    PopToCheck(START, m, [STALLED, PushDone, Idle], q, 1);
    var s1 := State(m, [STALLED, PopCheck(Tagged(0, 0), Tagged(2, 1), Some(2), false), Idle]);
    assert [STALLED, PushDone, Idle][1 := s1.threads[1]] == s1.threads;
    ListNext(START, s1, q, 1, State(m, [STALLED, PopRead(Tagged(0, 0), 2), Idle]));
  }

  lemma TwoIsTaken()
    ensures Reaches(START, J.State(State(Popped(), [STALLED, PopFree(0, 2), Idle]),
                                   Three(None, {0, 1, 2}, P.Client, P.AllocDone(2))))
  {
    TwoIsFound();
    var q := Three(None, {0, 1, 2}, P.Client, P.AllocDone(2));
    var s := State(OnlyTwo(), [STALLED, PopTake(Tagged(0, 0), 2, 2), Idle]);
    ListNext(START, State(OnlyTwo(), [STALLED, PopRead(Tagged(0, 0), 2), Idle]), q, 1, s);
    ListNext(START, s, q, 1, State(Popped(), [STALLED, PopFree(0, 2), Idle]));
  }

  /** The pop frees node 0, which goes into the cache. */
  lemma ZeroIsFreed()
    ensures Reaches(START, J.State(State(Popped(), [STALLED, PopDone(Some(2)), Idle]),
                                   Three(None, {1, 2}, P.Flight(1), P.FreeCache(0))))
  {
    TwoIsTaken();
    assert Release(Popped(), 0, 0) == Popped();
    var s := J.State(State(Popped(), [STALLED, PopFree(0, 2), Idle]), Three(None, {0, 1, 2}, P.Client, P.AllocDone(2)));
    Next(START, s, 1, GO, J.State(State(Popped(), [STALLED, PopDone(Some(2)), Idle]),
                                  Three(None, {1, 2}, P.Flight(1), P.FreeCache(0))));
  }

  lemma ZeroIsCached()
    ensures Reaches(START, J.State(State(Popped(), [STALLED, PopDone(Some(2)), Idle]),
                                   Three(Some(0), {1, 2}, P.Cached, P.FreeDone)))
  {
    ZeroIsFreed();
    var l := State(Popped(), [STALLED, PopDone(Some(2)), Idle]);
    Next(START, J.State(l, Three(None, {1, 2}, P.Flight(1), P.FreeCache(0))), 1, GO,
         J.State(l, Three(Some(0), {1, 2}, P.Cached, P.FreeDone)));
  }

  /** Node 0 handed out again and built afresh. */
  function Rebuilt(): Store<int> {
    Popped().(nodes := [Node(3, None, 0), Node(1, None, 0), Node(2, None, 0)])
  }

  lemma ThreeIsCalled()
    ensures Reaches(START, J.State(State(Popped(), [STALLED, PushAlloc(3), Idle]),
                                   Three(Some(0), {1, 2}, P.Cached, P.AllocCache)))
  {
    ZeroIsCached();
    var q := Three(Some(0), {1, 2}, P.Cached, P.FreeDone);
    var l := State(Popped(), [STALLED, PushAlloc(3), Idle]);
    Next(START, J.State(State(Popped(), [STALLED, PopDone(Some(2)), Idle]), q), 1, J.CallPush(3), J.State(l, q));
    Next(START, J.State(l, q), 1, GO, J.State(l, Three(Some(0), {1, 2}, P.Cached, P.AllocCache)));
  }

  lemma ZeroIsReused()
    ensures Reaches(START, J.State(State(Rebuilt(), [STALLED, PushTail(3, 0), Idle]),
                                   Three(None, {0, 1, 2}, P.Client, P.AllocDone(0))))
  {
    ThreeIsCalled();
    var l := State(Popped(), [STALLED, PushAlloc(3), Idle]);
    assert MayAllocate(l, 0);
    Next(START, J.State(l, Three(Some(0), {1, 2}, P.Cached, P.AllocCache)), 1, GO,
         J.State(State(Rebuilt(), [STALLED, PushTail(3, 0), Idle]), Three(None, {0, 1, 2}, P.Client, P.AllocDone(0))));
  }

  /** The stalled push has linked behind node 0 and returned. */
  function Lost(): J.State<int> {
    J.State(State(Store([Node(3, Some(1), 1), Node(1, None, 0), Node(2, None, 0)],
                        Tagged(2, 1), Tagged(2, 1), [0, 2, 1], [2, 1], [2]),
                  [PushDone, PushTail(3, 0), Idle]),
            Three(None, {0, 1, 2}, P.Client, P.AllocDone(0)))
  }

  lemma LostIsReached()
    ensures Reaches(START, Lost())
    ensures var s := J.State(State(Rebuilt(), [STALLED, PushTail(3, 0), Idle]), Lost().pool);
      s.Mapped() && J.Misled(s, 0, GO)
  {
    ZeroIsReused();
    var s := State(Rebuilt(), [STALLED, PushTail(3, 0), Idle]);
    var s1 := State(Lost().list.m, [PushSwing(1, Tagged(0, 0)), PushTail(3, 0), Idle]);
    ListNext(START, s, Lost().pool, 0, s1);
    ListNext(START, s1, Lost().pool, 0, Lost().list);
  }

  lemma PopFindsNothing()
    ensures Reaches(Lost(), J.State(State(Lost().list.m, [PushDone, PushTail(3, 0), PopDone(None)]), Lost().pool))
  {
    var m, q := Lost().list.m, Lost().pool;
    assert J.Run(Lost(), []) == Lost();
    PopToCheck(Lost(), m, Lost().list.threads, q, 2);
    var check := PopCheck(m.head, m.tail, m.nodes[m.head.ptr].next, m.Contents() == []);
    var s1 := State(m, Lost().list.threads[2 := check]);
    ListNext(Lost(), s1, q, 2, State(m, [PushDone, PushTail(3, 0), PopDone(None)]));
  }

  /** On its own pool: the pushes of 1 and 2 have returned, only 2 has been popped and no
      pop is under way; a pop that starts there still answers that the queue is empty. */
  lemma ListLosesValue()
    ensures exists schedule: seq<J.Choice<int>>, rest: seq<J.Choice<int>> ::
      var s, r := J.Run(START, schedule), J.Run(J.Run(START, schedule), rest);
      && |s.list.threads| == 3 && s.list.threads[0] == PushDone
      && !s.list.threads[1].InPop() && s.list.threads[2] == Idle
      && s.list.m.linked == [2, 1] && s.list.m.popped == [2]
      && |r.list.threads| == 3 && r.list.threads[2] == PopDone(None) && r.list.m == s.list.m
  {
    LostIsReached();
    PopFindsNothing();
    var schedule: seq<J.Choice<int>> :| J.Run(START, schedule) == Lost();
    var rest: seq<J.Choice<int>> :|
      J.Run(Lost(), rest) == J.State(State(Lost().list.m, [PushDone, PushTail(3, 0), PopDone(None)]), Lost().pool);
    assert J.Run(J.Run(START, schedule), rest).list.threads[2] == PopDone(None);
  }

  // ----- A reused node that is the last one -----

  /** Node 0 has been linked again, as the last node, and `tail_` is not there yet. */
  function Relinked(): State<int> {
    State(Store([Node(3, None, 0), Node(1, None, 0), Node(2, Some(0), 1)],
                Tagged(2, 1), Tagged(2, 1), [0, 2, 0], [2, 3], [2]),
          [STALLED, PushSwing(0, Tagged(2, 1)), Idle])
  }

  lemma RelinkedIsReached()
    ensures Reaches(START, J.State(Relinked(), Lost().pool))
  {
    ZeroIsReused();
    PushLooks(START, Rebuilt(), [STALLED, PushTail(3, 0), Idle], Lost().pool, 1, 3, 0);
    var s := State(Rebuilt(), [STALLED, PushLink(3, 0, Tagged(2, 1), 0), Idle]);
    assert [STALLED, PushTail(3, 0), Idle][1 := PushLink(3, 0, Tagged(2, 1), 0)] == s.threads;
    ListNext(START, s, Lost().pool, 1, Relinked());
  }

  lemma RelinkedInv()
    ensures Inv(Relinked()) && Relinked().Mapped()
  {
    var s := Relinked();
    assert ChainOk(s.m) by {
      assert LinkOk(s.m, 1) && LinkOk(s.m, 2);
    }
    assert ThreadOk(s.m, s.threads[0]);
    assert ThreadOk(s.m, s.threads[1]);
  }

  /** The stalled push then links behind the last node after all: nothing is lost, but
      `tail_` is two nodes behind. */
  lemma TailFallsTwoBehind()
    ensures Reaches(START, J.State(Relinked(), Lost().pool)) && Inv(Relinked()) && G.TailClose(Relinked().m)
    ensures Outruns(Relinked(), 0, LIST_GO) && !Misled(Relinked(), 0, LIST_GO)
    ensures Inv(Exec(Relinked(), 0, LIST_GO)) && !G.TailClose(Exec(Relinked(), 0, LIST_GO).m)
    ensures Reaches(START, J.State(Exec(Relinked(), 0, LIST_GO), Lost().pool))
  {
    RelinkedIsReached();
    RelinkedInv();
    ExecInvIff(Relinked(), 0, LIST_GO);
    G.TailCloseIff(Relinked(), 0, LIST_GO);
    ListNext(START, Relinked(), Lost().pool, 0, Exec(Relinked(), 0, LIST_GO));
  }
}
