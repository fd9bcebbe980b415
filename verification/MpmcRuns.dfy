/**
 Runs of the 8-bit ring put together from whole operations: what a schedule of two
 threads reaches from a given state.
 */
module MpmcRuns {
  import opened Common
  import opened Indexes
  import opened MpmcProtocol
  import opened MpmcCode

  /** Some schedule leads from `c0` to `c`. */
  ghost predicate Reaches<T(!new)>(c0: State<T>, c: State<T>)
    requires c0.Shaped()
  {
    exists schedule: seq<Choice<T>> :: Run(c0, schedule) == c
  }

  lemma {:induction false} RunSnoc<T>(c0: State<T>, schedule: seq<Choice<T>>, ch: Choice<T>)
    requires c0.Shaped()
    ensures Run(c0, schedule + [ch]) == Exec(Run(c0, schedule), ch.thread, ch.act)
    decreases |schedule|
  {
    if schedule == [] {
      assert (schedule + [ch])[1..] == [];
      assert Run(Exec(c0, ch.thread, ch.act), []) == Exec(c0, ch.thread, ch.act);
    } else {
      assert (schedule + [ch])[1..] == schedule[1..] + [ch];
      RunSnoc(Exec(c0, schedule[0].thread, schedule[0].act), schedule[1..], ch);
    }
  }

  lemma Step<T(!new)>(c0: State<T>, c: State<T>, t: nat, a: Act<T>) returns (d: State<T>)
    requires c0.Shaped() && c.Shaped() && Reaches(c0, c)
    ensures d == Exec(c, t, a) && Reaches(c0, d)
  {
    var schedule: seq<Choice<T>> :| Run(c0, schedule) == c;
    RunSnoc(c0, schedule, Choice(t, a));
    d := Exec(c, t, a);
  }

  /** An empty ring whose indices all read `x`. Thread 0 is at rest. */
  ghost predicate EmptyAt<T>(c: State<T>, x: byte) {
    && c.Shaped() && 2 <= c.max && c.flag == c.head == c.tail == x
    && |c.threads| == 2 && c.threads[0].AtRest()
    && c.popped == c.reserved
  }

  /** An atomic access changes the locals of no other thread. */
  lemma OnlyOwnLocals<T>(c: State<T>, t: nat)
    requires c.Shaped() && t < |c.threads|
    ensures Advance(c, t, false).threads == c.threads[t := Advance(c, t, false).threads[t]]
  {
  }

  lemma Call<T(!new)>(c0: State<T>, c: State<T>, t: nat, a: Act<T>, l: Thread<T>)
    requires c0.Shaped() && c.Shaped() && Reaches(c0, c) && t < |c.threads| && c.threads[t].AtRest()
    requires (a.CallPop? && l == PopTail) || (a.CallPush? && l == PushFlag(a.val))
    ensures Reaches(c0, Put(c, t, l))
  {
    var d := Step(c0, c, t, a);
  }

  /** Thread `t`, standing at `l`, performs one access that turns the rest of the state
      from `c` into `d` and leaves the thread at `m`. */
  lemma Access<T(!new)>(c0: State<T>, c: State<T>, t: nat, l: Thread<T>, d: State<T>, m: Thread<T>)
    requires c0.Shaped() && c.Shaped() && t < |c.threads| && Reaches(c0, Put(c, t, l))
    requires Advance(Put(c, t, l), t, false).threads[t] == m
    requires Advance(Put(c, t, l), t, false).(threads := c.threads) == d
    ensures Reaches(c0, Put(d, t, m))
  {
    var s := Put(c, t, l);
    OnlyOwnLocals(s, t);
    assert s.threads[t := m] == c.threads[t := m];
    var r := Step(c0, s, t, Go(false));
    assert r == Put(d, t, m);
  }

  /** An empty ring has room for one value, wherever its indices stand. */
  lemma RoomForOne(x: byte)
    ensures U8(x + 1) != x && U8(U8(x + 1) - x) == 1
  {
  }

  lemma PushLooks<T(!new)>(c0: State<T>, c: State<T>, x: byte, v: T)
    requires c0.Shaped() && EmptyAt(c, x) && Reaches(c0, c)
    ensures Reaches(c0, Put(c, 0, PushReserve(v, x, x)))
  {
    assert Reaches(c0, Put(c, 0, PushFlag(v))) by { Call(c0, c, 0, CallPush(v), PushFlag(v)); }
    assert Reaches(c0, Put(c, 0, PushTail(v, x))) by { Access(c0, c, 0, PushFlag(v), c, PushTail(v, x)); }
    PushFindsRoom(c0, c, x, v);
  }

  lemma PushFindsRoom<T(!new)>(c0: State<T>, c: State<T>, x: byte, v: T)
    requires c0.Shaped() && EmptyAt(c, x) && Reaches(c0, Put(c, 0, PushTail(v, x)))
    ensures Reaches(c0, Put(c, 0, PushReserve(v, x, x)))
  {
    RoomForOne(x);
    Access(c0, c, 0, PushTail(v, x), c, PushReserve(v, x, x));
  }

  lemma PushFills<T(!new)>(c0: State<T>, c: State<T>, x: byte, v: T)
    requires c0.Shaped() && c.Shaped() && |c.threads| == 2 && Reaches(c0, Put(c, 0, PushWrite(v, x)))
    ensures Reaches(c0, Put(c.(data := c.data[x := v], marks := c.marks[x := x]), 0, PushCheck(x)))
  {
    var c2 := c.(data := c.data[x := v]);
    assert Reaches(c0, Put(c2, 0, PushMark(x))) by { Access(c0, c, 0, PushWrite(v, x), c2, PushMark(x)); }
    var c3 := c2.(marks := c.marks[x := x]);
    assert Reaches(c0, Put(c3, 0, PushCheck(x))) by { Access(c0, c2, 0, PushMark(x), c3, PushCheck(x)); }
  }

  lemma PushReserves<T(!new)>(c0: State<T>, c: State<T>, x: byte, v: T)
    requires c0.Shaped() && EmptyAt(c, x) && Reaches(c0, Put(c, 0, PushReserve(v, x, x)))
    ensures Reaches(c0, Put(c.(flag := U8(x + 1), reserved := c.reserved + [v]), 0, PushWrite(v, x)))
  {
    Access(c0, c, 0, PushReserve(v, x, x), c.(flag := U8(x + 1), reserved := c.reserved + [v]), PushWrite(v, x));
  }

  /** A push by one thread as far as its claim, when the head is the slot it reserved. */
  lemma PushToClaim<T(!new)>(c0: State<T>, c: State<T>, x: byte, v: T) returns (d: State<T>)
    requires c0.Shaped() && EmptyAt(c, x) && Reaches(c0, c)
    ensures Reaches(c0, d)
    ensures d == c.(flag := U8(x + 1), reserved := c.reserved + [v], data := c.data[x := v],
                    marks := c.marks[x := x], threads := c.threads[0 := PushCheck(x)])
  {
    PushLooks(c0, c, x, v);
    PushReserves(c0, c, x, v);
    var c1 := c.(flag := U8(x + 1), reserved := c.reserved + [v]);
    PushFills(c0, c1, x, v);
    d := Put(c1.(data := c.data[x := v], marks := c.marks[x := x]), 0, PushCheck(x));
  }

  lemma PushClaims<T(!new)>(c0: State<T>, c: State<T>, x: byte)
    requires c0.Shaped() && c.Shaped() && Reaches(c0, c) && |c.threads| == 2
    requires c.threads[0] == PushCheck(x) && c.head == x && c.marks[x] == x
    ensures Reaches(c0, Put(c, 0, PushClaim(x)))
  {
    assert c.threads[0 := PushCheck(x)] == c.threads;
    assert Reaches(c0, Put(c, 0, PushHead(x, x))) by { Access(c0, c, 0, PushCheck(x), c, PushHead(x, x)); }
    assert Reaches(c0, Put(c, 0, PushClaim(x))) by { Access(c0, c, 0, PushHead(x, x), c, PushClaim(x)); }
  }

  /** Publishing slot `x` by the pusher, which then looks at the next slot. */
  lemma PublishSlot<T(!new)>(c0: State<T>, c: State<T>, x: byte) returns (d: State<T>)
    requires c0.Shaped() && c.Shaped() && Reaches(c0, c) && |c.threads| == 2
    requires c.threads[0] == PushCheck(x) && c.head == x && c.marks[x] == x
    ensures Reaches(c0, d)
    ensures d == c.(head := U8(x + 1), marks := c.marks[x := INVALID_INDEX],
                    threads := c.threads[0 := PushCheck(U8(x + 1))])
  {
    PushClaims(c0, c, x);
    var c1 := c.(marks := c.marks[x := INVALID_INDEX]);
    assert Reaches(c0, Put(c1, 0, PushPublish(x))) by { Access(c0, c, 0, PushClaim(x), c1, PushPublish(x)); }
    var c2 := c1.(head := U8(x + 1));
    assert Reaches(c0, Put(c2, 0, PushCheck(U8(x + 1)))) by {
      Access(c0, c1, 0, PushPublish(x), c2, PushCheck(U8(x + 1)));
    }
    d := Put(c2, 0, PushCheck(U8(x + 1)));
  }

  /** The pusher finds the next slot not ready, or `head_` elsewhere, and returns. */
  lemma StopPublishing<T(!new)>(c0: State<T>, c: State<T>, x: byte) returns (d: State<T>)
    requires c0.Shaped() && c.Shaped() && Reaches(c0, c) && |c.threads| == 2
    requires c.threads[0] == PushCheck(x) && (c.head != x || c.marks[x] != x)
    ensures Reaches(c0, d) && d == c.(threads := c.threads[0 := PushDone(true)])
  {
    assert c.threads[0 := PushCheck(x)] == c.threads;
    assert Reaches(c0, Put(c, 0, PushHead(x, c.marks[x]))) by {
      Access(c0, c, 0, PushCheck(x), c, PushHead(x, c.marks[x]));
    }
    assert Reaches(c0, Put(c, 0, PushDone(true))) by { Access(c0, c, 0, PushHead(x, c.marks[x]), c, PushDone(true)); }
    d := Put(c, 0, PushDone(true));
  }

  lemma PopReads<T(!new)>(c0: State<T>, c: State<T>, t: nat)
    requires c0.Shaped() && c.Shaped() && t < |c.threads|
    requires Reaches(c0, Put(c, t, PopTail)) && c.head != c.tail
    ensures Reaches(c0, Put(c, t, PopTake(c.tail, c.data[c.tail])))
  {
    var v := c.data[c.tail];
    assert Reaches(c0, Put(c, t, PopHead(c.tail))) by { Access(c0, c, t, PopTail, c, PopHead(c.tail)); }
    assert Reaches(c0, Put(c, t, PopRead(c.tail))) by { Access(c0, c, t, PopHead(c.tail), c, PopRead(c.tail)); }
    assert Reaches(c0, Put(c, t, PopTake(c.tail, v))) by { Access(c0, c, t, PopRead(c.tail), c, PopTake(c.tail, v)); }
  }

  /** A pop by thread `t` from its first load, when `head_` differs from `tail_`. */
  lemma PopFromTail<T(!new)>(c0: State<T>, c: State<T>, t: nat) returns (d: State<T>)
    requires c0.Shaped() && c.Shaped() && t < |c.threads|
    requires Reaches(c0, Put(c, t, PopTail)) && c.head != c.tail
    ensures Reaches(c0, d)
    ensures d == c.(tail := U8(c.tail + 1), popped := c.popped + [c.data[c.tail]],
                    threads := c.threads[t := PopDone(Some(c.data[c.tail]))])
  {
    var v := c.data[c.tail];
    PopReads(c0, c, t);
    var c1 := c.(tail := U8(c.tail + 1), popped := c.popped + [v]);
    Access(c0, c, t, PopTake(c.tail, v), c1, PopDone(Some(v)));
    d := Put(c1, t, PopDone(Some(v)));
  }

  lemma PopOne<T(!new)>(c0: State<T>, c: State<T>, t: nat) returns (d: State<T>)
    requires c0.Shaped() && c.Shaped() && Reaches(c0, c)
    requires t < |c.threads| && c.threads[t].AtRest() && c.head != c.tail
    ensures Reaches(c0, d)
    ensures d == c.(tail := U8(c.tail + 1), popped := c.popped + [c.data[c.tail]],
                    threads := c.threads[t := PopDone(Some(c.data[c.tail]))])
  {
    Call(c0, c, t, CallPop, PopTail);
    d := PopFromTail(c0, c, t);
  }

  lemma PopLooks<T(!new)>(c0: State<T>, c: State<T>, t: nat)
    requires c0.Shaped() && c.Shaped() && Reaches(c0, c)
    requires t < |c.threads| && c.threads[t].AtRest() && c.head == c.tail && c.marks[c.head] == c.head
    ensures Reaches(c0, Put(c, t, PopClaim(c.head)))
  {
    var x: byte := c.head;
    assert Reaches(c0, Put(c, t, PopTail)) by { Call(c0, c, t, CallPop, PopTail); }
    assert Reaches(c0, Put(c, t, PopHead(x))) by { Access(c0, c, t, PopTail, c, PopHead(x)); }
    assert Reaches(c0, Put(c, t, PopCheck(x))) by { Access(c0, c, t, PopHead(x), c, PopCheck(x)); }
    assert Reaches(c0, Put(c, t, PopClaim(x))) by { Access(c0, c, t, PopCheck(x), c, PopClaim(x)); }
  }

  /** `pop` claims the head slot with the value 255. */
  lemma PopTakesClaim<T(!new)>(c0: State<T>, c: State<T>, t: nat) returns (d: State<T>)
    requires c0.Shaped() && c.Shaped() && Reaches(c0, c)
    requires t < |c.threads| && c.threads[t].AtRest() && c.head == c.tail && c.marks[c.head] == c.head
    ensures d == c.(marks := c.marks[c.head := SIZE_LIMIT])
    ensures Reaches(c0, Put(d, t, PopPublish(c.head)))
  {
    PopLooks(c0, c, t);
    d := c.(marks := c.marks[c.head := SIZE_LIMIT]);
    Access(c0, c, t, PopClaim(c.head), d, PopPublish(c.head));
  }

  /** And publishes it. */
  lemma PopClaims<T(!new)>(c0: State<T>, c: State<T>, t: nat) returns (d: State<T>)
    requires c0.Shaped() && c.Shaped() && Reaches(c0, c)
    requires t < |c.threads| && c.threads[t].AtRest() && c.head == c.tail && c.marks[c.head] == c.head
    ensures d == c.(head := U8(c.head + 1), marks := c.marks[c.head := SIZE_LIMIT])
    ensures Reaches(c0, Put(d, t, PopTail))
  {
    var c1 := PopTakesClaim(c0, c, t);
    d := c1.(head := U8(c.head + 1));
    Access(c0, c1, t, PopPublish(c.head), d, PopTail);
  }

  /** A push by one thread until it has published its slot. */
  lemma Advanced<T(!new)>(c0: State<T>, c: State<T>, x: byte, v: T) returns (d: State<T>)
    requires c0.Shaped() && EmptyAt(c, x) && Reaches(c0, c)
    ensures Reaches(c0, d)
    ensures d == c.(flag := U8(x + 1), head := U8(x + 1), reserved := c.reserved + [v], data := c.data[x := v],
                    marks := c.marks[x := INVALID_INDEX], threads := c.threads[0 := PushCheck(U8(x + 1))])
  {
    var c1 := PushToClaim(c0, c, x, v);
    d := PublishSlot(c0, c1, x);
  }

  /** A whole push by thread 0 into an empty ring. */
  lemma PushWhole<T(!new)>(c0: State<T>, c: State<T>, x: byte, v: T) returns (d: State<T>)
    requires c0.Shaped() && EmptyAt(c, x) && Reaches(c0, c) && c.marks[U8(x + 1)] != U8(x + 1)
    ensures Reaches(c0, d)
    ensures d == c.(flag := U8(x + 1), head := U8(x + 1), reserved := c.reserved + [v], data := c.data[x := v],
                    marks := c.marks[x := INVALID_INDEX], threads := c.threads[0 := PushDone(true)])
  {
    RoomForOne(x);
    var c1 := Advanced(c0, c, x, v);
    d := StopPublishing(c0, c1, U8(x + 1));
  }

  /** One push and one pop by thread 0, both complete, move an empty ring on by one slot,
      whatever thread 1 is doing. */
  lemma Cycle<T(!new)>(c0: State<T>, c: State<T>, x: byte, v: T) returns (d: State<T>)
    requires c0.Shaped() && EmptyAt(c, x) && Reaches(c0, c) && c.marks[U8(x + 1)] != U8(x + 1)
    ensures Reaches(c0, d) && EmptyAt(d, U8(x + 1)) && d.threads[1] == c.threads[1]
    ensures d.marks == c.marks[x := INVALID_INDEX] && d.reserved == c.reserved + [v]
  {
    RoomForOne(x);
    var c1 := PushWhole(c0, c, x, v);
    d := PopOne(c0, c1, 0);
  }
}
