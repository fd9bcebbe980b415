/**
 A ticket kept for a whole lap is not harmless either: a pop that stalls before its
 exchange on `tail_` while 256 values pass through the ring returns the first of them
 once more.
 */
module MpmcLap {
  import opened Common
  import opened Indexes
  import opened MpmcProtocol
  import opened MpmcCode
  import opened MpmcRuns
  import K = MpmcTickets
  import R = MpmcRefinement

  /** No slot is marked as ready, or with the value that `pop` claims with. */
  ghost predicate Clean<T>(c: State<T>)
    requires c.Shaped()
  {
    forall i :: 0 <= i < SLOTS ==> c.marks[i] == INVALID_INDEX
  }

  /** Thread 1 has read `v` from slot 0 and is about to exchange `tail_`; `v` was popped
      by thread 0 meanwhile, and every value that came after it too. */
  ghost predicate Stalled<T>(c: State<T>, x: byte, v: T) {
    EmptyAt(c, x) && Clean(c) && c.threads[1] == PopTake(0, v)
  }

  lemma StallsAtZero<T(!new)>(c0: State<T>, v: T) returns (d: State<T>)
    requires c0.Shaped() && EmptyAt(c0, 0) && Clean(c0) && c0.threads[1] == Idle && c0.reserved == []
    ensures Reaches(c0, d) && Stalled(d, 1, v) && d.reserved == [v]
  {
    assert Run(c0, []) == c0;
    var c1 := Advanced(c0, c0, 0, v);
    var c2 := StopPublishing(c0, c1, 1);
    Call(c0, c2, 1, CallPop, PopTail);
    PopReads(c0, c2, 1);
    d := PopOne(c0, Put(c2, 1, PopTake(0, v)), 0);
  }

  /** `n` values later. */
  lemma {:induction false} Laps<T(!new)>(c0: State<T>, c: State<T>, v: T, n: nat) returns (d: State<T>)
    requires c0.Shaped() && Reaches(c0, c) && Stalled(c, 1, v) && |c.reserved| == 1
    ensures Reaches(c0, d) && Stalled(d, U8(1 + n), v) && |d.reserved| == 1 + n
    decreases n
  {
    if n == 0 {
      d := c;
    } else {
      d := Laps(c0, c, v, n - 1);
      NextIndex(n);
      d := Cycle(c0, d, U8(n), v);
    }
  }

  lemma NextIndex(n: nat)
    ensures U8(U8(n) + 1) == U8(n + 1)
  {
  }

  /** With slot 0 filled once more, the stalled exchange meets the same 8-bit `tail_`. */
  lemma TakenAgain<T(!new)>(c0: State<T>, c: State<T>, v: T, w: T) returns (d: State<T>)
    requires c0.Shaped() && Reaches(c0, c) && Stalled(c, 0, v)
    ensures Reaches(c0, d) && d.Shaped() && Clean(d)
    ensures d.reserved == c.reserved + [w] && d.popped == c.reserved + [v]
    ensures |d.threads| == 2 && d.threads[1] == PopDone(Some(v))
  {
    var c1 := Advanced(c0, c, 0, w);
    assert Put(c1, 1, PopTake(0, v)) == c1;
    var c2 := c1.(tail := 1, popped := c1.popped + [v]);
    Access(c0, c1, 1, PopTake(0, v), c2, PopDone(Some(v)));
    d := Put(c2, 1, PopDone(Some(v)));
  }

  /** With no slot left marked by anyone, some schedule of two threads
      from the initial state pops a value twice and never pops what took its place: what
      was popped is no prefix of what was accepted. */
  lemma LappedPopRepeats<T(!new)>(max: nat, blank: T, v: T, w: T)
    requires 2 <= max && v != w
    ensures exists schedule: seq<Choice<T>> ::
      var r := Run(Init(max, blank, 2), schedule);
      |r.threads| == 2 && r.threads[1] == PopDone(Some(v)) && Clean(r)
      && |r.popped| == |r.reserved| > 0 && r.reserved[|r.reserved| - 1] == w && !(r.popped <= r.reserved)
      && !R.Harmless(K.Init(max, blank, 2), false, schedule)
  {
    var c0 := Init(max, blank, 2);
    var d := StallsAtZero(c0, v);
    d := Laps(c0, d, v, 255);
    d := TakenAgain(c0, d, v, w);
    var schedule: seq<Choice<T>> :| Run(c0, schedule) == d;
    assert d.popped[|d.popped| - 1] == v && d.reserved[|d.reserved| - 1] == w;
    if R.Harmless(K.Init(max, blank, 2), false, schedule) {
      R.CodeIsFifo(max, blank, 2, schedule);
    }
  }
}
