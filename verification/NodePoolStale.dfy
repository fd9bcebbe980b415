/**
 Why `cursor_` carries a tag: a run of two threads from the empty pool after which the
 pointer one of them loaded is the top of the stack again, while the link it read under
 that pointer names a node in a client's hands.
 */
module NodePoolStale {
  import opened Common
  import opened NodePoolMachine
  import opened NodePool

  ghost predicate Reaches(s0: State, s: State) {
    exists schedule: seq<Choice> :: Run(s0, schedule) == s
  }

  lemma {:induction false} RunSnoc(s: State, schedule: seq<Choice>, ch: Choice)
    requires Run(s, schedule).Mapped()
    ensures Run(s, schedule + [ch]) == Exec(Run(s, schedule), ch.thread, ch.act)
    decreases |schedule|
  {
    if schedule == [] {
      assert [ch][1..] == [];
    } else {
      assert (schedule + [ch])[1..] == schedule[1..] + [ch];
      RunSnoc(Exec(s, schedule[0].thread, schedule[0].act), schedule[1..], ch);
    }
  }

  lemma Next(s0: State, s: State, t: nat, a: Act, r: State)
    requires Reaches(s0, s) && s.Mapped() && Exec(s, t, a) == r
    ensures Reaches(s0, r)
  {
    var schedule: seq<Choice> :| Run(s0, schedule) == s;
    RunSnoc(s0, schedule, Choice(t, a));
  }

  const GO: Act := Go(false, None)

  // ----- Whole operations of thread `t`, while the others stand at `ls` -----

  lemma AllocLooks(s0: State, m: Store, ls: seq<Thread>, t: nat)
    requires t < |ls| && ls[t].AtRest() && Reaches(s0, State(m, ls)) && State(m, ls).Mapped() && m.cache == None
    requires m.cursor.ptr.Some? ==> m.cursor.ptr.value < |m.links|
    ensures Reaches(s0, State(m, ls[t := AllocNext(m.cursor)]))
  {
    Next(s0, State(m, ls), t, CallAlloc, State(m, ls[t := AllocCache]));
    Next(s0, State(m, ls[t := AllocCache]), t, GO, State(m, ls[t := AllocLoad]));
    Next(s0, State(m, ls[t := AllocLoad]), t, GO, State(m, ls[t := AllocNext(m.cursor)]));
  }

  lemma AllocNew(s0: State, m: Store, ls: seq<Thread>, t: nat)
    requires t < |ls| && ls[t].AtRest() && Reaches(s0, State(m, ls)) && State(m, ls).Mapped()
    requires m.cache == None && m.cursor.ptr == None
    ensures Reaches(s0, State(NewNode(m, None), ls[t := AllocDone(|m.links|)]))
  {
    AllocLooks(s0, m, ls, t);
    Next(s0, State(m, ls[t := AllocNext(m.cursor)]), t, GO, State(NewNode(m, None), ls[t := AllocDone(|m.links|)]));
  }

  lemma AllocCached(s0: State, m: Store, ls: seq<Thread>, t: nat)
    requires t < |ls| && ls[t].AtRest() && Reaches(s0, State(m, ls)) && State(m, ls).Mapped() && m.cache.Some?
    ensures Reaches(s0, State(HandOut(m, m.cache.value).(cache := None), ls[t := AllocDone(m.cache.value)]))
  {
    Next(s0, State(m, ls), t, CallAlloc, State(m, ls[t := AllocCache]));
    Next(s0, State(m, ls[t := AllocCache]), t, GO,
         State(HandOut(m, m.cache.value).(cache := None), ls[t := AllocDone(m.cache.value)]));
  }

  /** As far as the exchange on `cursor_`. */
  lemma AllocToSwap(s0: State, m: Store, ls: seq<Thread>, t: nat)
    requires t < |ls| && ls[t].AtRest() && Reaches(s0, State(m, ls)) && State(m, ls).Mapped()
    requires m.cache == None && m.cursor.ptr.Some? && m.cursor.ptr.value < |m.links|
    ensures Reaches(s0, State(m, ls[t := AllocSwap(m.cursor, m.links[m.cursor.ptr.value])]))
  {
    AllocLooks(s0, m, ls, t);
    Next(s0, State(m, ls[t := AllocNext(m.cursor)]), t, GO,
         State(m, ls[t := AllocSwap(m.cursor, m.links[m.cursor.ptr.value])]));
  }

  lemma AllocTop(s0: State, m: Store, ls: seq<Thread>, t: nat)
    requires t < |ls| && ls[t].AtRest() && Reaches(s0, State(m, ls)) && State(m, ls).Mapped()
    requires m.cache == None && m.cursor.ptr.Some? && m.cursor.ptr.value < |m.links|
    ensures var top := m.cursor.ptr.value;
      Reaches(s0, State(HandOut(Pop(m, m.links[top]), top), ls[t := AllocDone(top)]))
  {
    var top := m.cursor.ptr.value;
    AllocToSwap(s0, m, ls, t);
    Next(s0, State(m, ls[t := AllocSwap(m.cursor, m.links[top])]), t, GO,
         State(HandOut(Pop(m, m.links[top]), top), ls[t := AllocDone(top)]));
  }

  lemma FreeToCache(s0: State, m: Store, ls: seq<Thread>, t: nat, id: nat)
    requires t < |ls| && ls[t].AtRest() && Reaches(s0, State(m, ls)) && State(m, ls).Mapped()
    requires id in m.client && m.cache == None
    ensures Reaches(s0, State(Cache(HandIn(m, id, t), id, t), ls[t := FreeDone]))
  {
    var s1 := State(HandIn(m, id, t), ls[t := FreeCache(id)]);
    Next(s0, State(m, ls), t, CallFree(Some(id)), s1);
    Next(s0, s1, t, GO, State(Cache(HandIn(m, id, t), id, t), ls[t := FreeDone]));
  }

  /** The node displaced from the cache goes onto the stack. */
  function Displaced(m: Store, id: nat, t: nat): Store
    requires m.cache.Some? && m.cache.value < |m.links|
  {
    var c := Cache(HandIn(m, id, t), id, t);
    Push(c.(links := c.links[m.cache.value := c.cursor.ptr]), m.cache.value)
  }

  lemma FreeToStack(s0: State, m: Store, ls: seq<Thread>, t: nat, id: nat)
    requires t < |ls| && ls[t].AtRest() && Reaches(s0, State(m, ls)) && State(m, ls).Mapped()
    requires id in m.client && m.cache.Some? && m.cache.value < |m.links|
    ensures Reaches(s0, State(Displaced(m, id, t), ls[t := FreeDone]))
  {
    var top := m.cache.value;
    var c := Cache(HandIn(m, id, t), id, t);
    var s1 := State(HandIn(m, id, t), ls[t := FreeCache(id)]);
    Next(s0, State(m, ls), t, CallFree(Some(id)), s1);
    Next(s0, s1, t, GO, State(c, ls[t := FreeLoad(top)]));
    StackDisplaced(s0, c, ls, t, top);
  }

  lemma StackDisplaced(s0: State, c: Store, ls: seq<Thread>, t: nat, top: nat)
    requires t < |ls| && ls[t].AtRest() && State(c, ls).Mapped() && top < |c.links|
    requires Reaches(s0, State(c, ls[t := FreeLoad(top)]))
    ensures Reaches(s0, State(Push(c.(links := c.links[top := c.cursor.ptr]), top), ls[t := FreeDone]))
  {
    var d := c.(links := c.links[top := c.cursor.ptr]);
    Next(s0, State(c, ls[t := FreeLoad(top)]), t, GO, State(c, ls[t := FreeLink(top, c.cursor)]));
    Next(s0, State(c, ls[t := FreeLink(top, c.cursor)]), t, GO, State(d, ls[t := FreeSwap(top, c.cursor)]));
    Next(s0, State(d, ls[t := FreeSwap(top, c.cursor)]), t, GO, State(Push(d, top), ls[t := FreeDone]));
  }

  // ----- The run -----

  const START: State := Init(2)

  lemma TwoNodes()
    ensures Reaches(START, State(Store([None, None], None, Tagged(None, 0), [], {0, 1}, [Client, Client]),
                                 [Idle, AllocDone(1)]))
  {
    assert Run(START, []) == START && START.threads == [Idle, Idle];
    AllocNew(START, START.m, [Idle, Idle], 1);
    var m1 := Store([None], None, Tagged(None, 0), [], {0}, [Client]);
    assert NewNode(START.m, None) == m1 && [Idle, Idle][1 := AllocDone(0)] == [Idle, AllocDone(0)];
    AllocNew(START, m1, [Idle, AllocDone(0)], 1);
    var m2 := Store([None, None], None, Tagged(None, 0), [], {0, 1}, [Client, Client]);
    assert NewNode(m1, None) == m2 && [Idle, AllocDone(0)][1 := AllocDone(1)] == [Idle, AllocDone(1)];
  }

  function ThreeMade(): Store {
    Store([None, None, None], None, Tagged(None, 0), [], {0, 1, 2}, [Client, Client, Client])
  }

  lemma ThreeNodes()
    ensures Reaches(START, State(ThreeMade(), [Idle, AllocDone(2)]))
  {
    TwoNodes();
    var m2 := Store([None, None], None, Tagged(None, 0), [], {0, 1}, [Client, Client]);
    AllocNew(START, m2, [Idle, AllocDone(1)], 1);
    assert NewNode(m2, None) == ThreeMade();
    assert [Idle, AllocDone(1)][1 := AllocDone(2)] == [Idle, AllocDone(2)];
  }

  /** Nodes 0 and 1 are on the stack, 1 on top, and 2 is in the cache. */
  function Full(): Store {
    Store([None, Some(0), None], Some(2), Tagged(Some(1), 2), [1, 0], {}, [Stacked, Stacked, Cached])
  }

  lemma AllFreed()
    ensures Reaches(START, State(Full(), [Idle, FreeDone]))
  {
    ThreeNodes();
    var m := ThreeMade();
    FreeToCache(START, m, [Idle, AllocDone(2)], 1, 0);
    var m1 := Store([None, None, None], Some(0), Tagged(None, 0), [], {1, 2}, [Cached, Client, Client]);
    assert Cache(HandIn(m, 0, 1), 0, 1) == m1 && [Idle, AllocDone(2)][1 := FreeDone] == [Idle, FreeDone];
    FreeToStack(START, m1, [Idle, FreeDone], 1, 1);
    var m2 := Store([None, None, None], Some(1), Tagged(Some(0), 1), [0], {2}, [Stacked, Cached, Client]);
    assert Displaced(m1, 1, 1) == m2 && [Idle, FreeDone][1 := FreeDone] == [Idle, FreeDone];
    FreeToStack(START, m2, [Idle, FreeDone], 1, 2);
    assert Displaced(m2, 2, 1) == Full();
  }

  /** Thread 0 has loaded the top, node 1, and the link under it, node 0. */
  const STALLED: Thread := AllocSwap(Tagged(Some(1), 2), Some(0))

  /** Node 2 has been handed out again. */
  function TwoOut(): Store {
    Full().(cache := None, client := {2}, owner := [Stacked, Stacked, Client])
  }

  lemma LoadsTheTop()
    ensures Reaches(START, State(TwoOut(), [STALLED, FreeDone]))
  {
    AllFreed();
    AllocCached(START, Full(), [Idle, FreeDone], 0);
    var m := TwoOut();
    assert HandOut(Full(), 2).(cache := None) == m && [Idle, FreeDone][0 := AllocDone(2)] == [AllocDone(2), FreeDone];
    AllocToSwap(START, m, [AllocDone(2), FreeDone], 0);
    assert [AllocDone(2), FreeDone][0 := STALLED] == [STALLED, FreeDone];
  }

  /** So have nodes 1 and 0. */
  function BothOut(): Store {
    Store([None, Some(0), None], None, Tagged(None, 4), [], {0, 1, 2}, [Client, Client, Client])
  }

  lemma BothTaken()
    ensures Reaches(START, State(BothOut(), [STALLED, AllocDone(0)]))
  {
    LoadsTheTop();
    var m := TwoOut();
    AllocTop(START, m, [STALLED, FreeDone], 1);
    var m1 := Store([None, Some(0), None], None, Tagged(Some(0), 3), [0], {1, 2}, [Stacked, Client, Client]);
    assert HandOut(Pop(m, Some(0)), 1) == m1 && [STALLED, FreeDone][1 := AllocDone(1)] == [STALLED, AllocDone(1)];
    AllocTop(START, m1, [STALLED, AllocDone(1)], 1);
    assert HandOut(Pop(m1, None), 0) == BothOut();
    assert [STALLED, AllocDone(1)][1 := AllocDone(0)] == [STALLED, AllocDone(0)];
  }

  /** The top of the stack is node 1 again, under a newer tag, and node 0 is a client's. */
  function Stale(): State {
    State(Store([None, None, None], Some(2), Tagged(Some(1), 5), [1], {0}, [Client, Stacked, Cached]),
          [STALLED, FreeDone])
  }

  lemma StaleIsReached()
    ensures Reaches(START, Stale())
  {
    BothTaken();
    var m := BothOut();
    FreeToCache(START, m, [STALLED, AllocDone(0)], 1, 1);
    var m1 := Store([None, Some(0), None], Some(1), Tagged(None, 4), [], {0, 2}, [Client, Cached, Client]);
    assert Cache(HandIn(m, 1, 1), 1, 1) == m1 && [STALLED, AllocDone(0)][1 := FreeDone] == [STALLED, FreeDone];
    FreeToStack(START, m1, [STALLED, FreeDone], 1, 2);
    assert Displaced(m1, 2, 1) == Stale().m && [STALLED, FreeDone][1 := FreeDone] == [STALLED, FreeDone];
  }

  /** It is the tag that rules the stale exchange out: some run leads to a state in which
      the pointer a thread loaded is that of `cursor_`, the tags differ, and the link it
      read names a node a client holds; the thread's exchange fails, as it must. */
  lemma PointerAloneIsStale()
    ensures exists schedule: seq<Choice> ::
      var s := Run(START, schedule);
      && s.Mapped() && |s.threads| == 2 && s.threads[0].AllocSwap?
      && s.threads[0].curr.ptr == s.m.cursor.ptr && s.threads[0].curr.tag != s.m.cursor.tag
      && s.threads[0].next.Some? && s.threads[0].next.value in s.m.client
      && Advance(s, 0, GO).m == s.m
  {
    StaleIsReached();
    var schedule: seq<Choice> :| Run(START, schedule) == Stale();
    assert Run(START, schedule).Mapped();
  }
}
