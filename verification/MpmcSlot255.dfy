/**
 The claim of slot 255 by `pop` is not harmless: from a new ring there is a run of two
 threads after which more values have been popped than were ever accepted.
 */
module MpmcSlot255 {
  import opened Indexes
  import opened MpmcProtocol
  import opened MpmcCode
  import opened MpmcRuns

  /** No slot but possibly the last one is marked ready. */
  ghost predicate Unmarked<T>(c: State<T>, last: bool)
    requires c.Shaped()
  {
    && (forall i :: 0 <= i < SIZE_LIMIT ==> c.marks[i] != i)
    && (c.marks[SIZE_LIMIT] == SIZE_LIMIT <==> last)
  }

  ghost predicate BothAtRest<T>(c: State<T>, x: byte) {
    EmptyAt(c, x) && c.threads[1].AtRest()
  }

  lemma StillUnmarked<T>(c: State<T>, d: State<T>, x: nat, last: bool)
    requires c.Shaped() && d.Shaped() && Unmarked(c, last) && x < SIZE_LIMIT && d.marks == c.marks[x := INVALID_INDEX]
    ensures Unmarked(d, last)
  {
  }

  lemma OneCycle<T(!new)>(c0: State<T>, c: State<T>, v: T, last: bool, x: nat) returns (d: State<T>)
    requires c0.Shaped() && Reaches(c0, c) && x < SIZE_LIMIT - 1 && BothAtRest(c, x) && Unmarked(c, last)
    ensures Reaches(c0, d) && BothAtRest(d, x + 1) && Unmarked(d, last)
  {
    assert c.marks[x + 1] != x + 1;
    d := Cycle(c0, c, x, v);
    StillUnmarked(c, d, x, last);
  }

  lemma {:induction false} Cycles<T(!new)>(c0: State<T>, c: State<T>, v: T, last: bool, n: nat) returns (d: State<T>)
    requires c0.Shaped() && BothAtRest(c, 0) && Reaches(c0, c) && Unmarked(c, last) && n < SIZE_LIMIT
    ensures Reaches(c0, d) && BothAtRest(d, n) && Unmarked(d, last)
    decreases n
  {
    if n == 0 {
      d := c;
    } else {
      d := Cycles(c0, c, v, last, n - 1);
      d := OneCycle(c0, d, v, last, n - 1);
    }
  }

  /** A pop overlapping the push into slot 255 claims the slot, and the slot still
      looks ready afterwards. */
  lemma OverlapAtLast<T(!new)>(c0: State<T>, c: State<T>, v: T) returns (d: State<T>)
    requires c0.Shaped() && BothAtRest(c, SIZE_LIMIT) && Reaches(c0, c) && Unmarked(c, false)
    ensures Reaches(c0, d) && BothAtRest(d, 0) && Unmarked(d, true)
  {
    d := PushToClaim(c0, c, SIZE_LIMIT, v);
    var e := PopClaims(c0, d, 1);
    e := PopFromTail(c0, e, 1);
    d := StopPublishing(c0, e, SIZE_LIMIT);
  }

  /** One lap later the stale mark makes a push move `head_` past `flag_`, and the ring
      hands out a value it does not hold. */
  lemma StaleMarkPops<T(!new)>(c0: State<T>, c: State<T>, v: T) returns (d: State<T>)
    requires c0.Shaped() && BothAtRest(c, SIZE_LIMIT - 1) && Reaches(c0, c) && Unmarked(c, true)
    ensures Reaches(c0, d) && |d.popped| == |d.reserved| + 1
  {
    d := Advanced(c0, c, SIZE_LIMIT - 1, v);
    d := PublishSlot(c0, d, SIZE_LIMIT);
    d := StopPublishing(c0, d, 0);
    d := PopOne(c0, d, 0);
    d := PopOne(c0, d, 0);
  }

  /** With the mark that `pop` really stores, the 8-bit ring is not a queue. */
  lemma PopsMoreThanAccepted<T(!new)>(max: nat, blank: T, v: T)
    requires 2 <= max
    ensures exists schedule: seq<Choice<T>> ::
      |Run(Init(max, blank, 2), schedule).popped| > |Run(Init(max, blank, 2), schedule).reserved|
  {
    var c0 := Init(max, blank, 2);
    assert Run(c0, []) == c0;
    var d := Cycles(c0, c0, v, false, SIZE_LIMIT - 1);
    d := Cycle(c0, d, SIZE_LIMIT - 1, v);
    d := OverlapAtLast(c0, d, v);
    d := Cycles(c0, d, v, true, SIZE_LIMIT - 1);
    d := StaleMarkPops(c0, d, v);
    var schedule: seq<Choice<T>> :| Run(c0, schedule) == d;
    assert |Run(c0, schedule).popped| > |Run(c0, schedule).reserved|;
  }
}
