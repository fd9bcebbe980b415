/**
 When the answers "full" and "empty" of the ring are true, whatever the other threads do:
 the exact conditions on the ticket ring, and a run of the 8-bit ring for each answer that
 is not true.
 */
module MpmcAnswers {
  import opened Common
  import opened Indexes
  import opened MpmcProtocol
  import K = MpmcTickets
  import opened MpmcCode
  import opened MpmcRuns

  // ----- "Full" -----

  /** The load of `tail_` by a push refuses it. */
  predicate Refuses<T>(s: K.State<T>, t: nat)
    requires s.Shaped() && t < |s.threads|
  {
    s.threads[t].PushTail? && K.Advance(s, t, false).threads[t] == PushDone(false)
  }

  /** While its ticket is not behind `tail_`, a push is refused if and only if there is no
      room for it, and then the ring is full. */
  lemma FullAnswerIff<T>(s: K.State<T>, t: nat)
    requires K.Inv(s) && t < |s.threads| && s.threads[t].PushTail? && s.threads[t].cur >= s.tail
    ensures Refuses(s, t) <==> s.threads[t].cur + 1 >= s.tail + K.Cap(s.max)
    ensures Refuses(s, t) ==> s.flag + 1 >= s.tail + K.Cap(s.max)
  {
    assert K.ThreadOk(s, t);
  }

  /** So "full" is untrue only for a ticket that `tail_` has passed. */
  lemma UntrueFullIsStale<T>(s: K.State<T>, t: nat)
    requires K.Inv(s) && t < |s.threads| && Refuses(s, t) && s.flag + 1 < s.tail + K.Cap(s.max)
    ensures s.threads[t].cur < s.tail
  {
    if s.threads[t].cur >= s.tail {
      FullAnswerIff(s, t);
    }
  }

  // ----- "Empty" -----

  /** A pop looks at a slot's mark only after a load of `head_` at which nothing published
      was left. */
  lemma LooksWhenNothingPublished<T>(s: K.State<T>, t: nat)
    requires K.Inv(s) && t < |s.threads| && s.threads[t].PopHead? && K.Advance(s, t, false).threads[t].PopCheck?
    ensures s.tail == s.head && K.Advance(s, t, false).threads[t].curHead == s.head
  {
    assert K.ThreadOk(s, t);
  }

  /** Some thread has accepted ticket `k` and not published it: it is writing its slot or
      has claimed it. */
  ghost predicate OnItsWay<T>(s: K.State<T>, k: nat) {
    exists u :: 0 <= u < |s.threads| && Carries(s.threads[u], k)
  }

  predicate Carries<T>(l: K.Thread<T>, k: nat) {
    (l.PushWrite? && l.cur == k) || l == PushMark(k) || l == PushPublish(k) || l == PopPublish(k)
  }

  /** The look at the mark of slot `k` then answers "empty" if and only if ticket `k` has
      been published by now, or not been accepted yet, or is on its way. */
  lemma EmptyAnswerIff<T>(s: K.State<T>, t: nat, k: nat)
    requires K.Inv(s) && t < |s.threads| && s.threads[t] == PopCheck(k)
    ensures K.Advance(s, t, false).threads[t] == PopDone(None) <==> !(k < s.flag && s.stage[k] == K.Ready)
    ensures K.Advance(s, t, false).threads[t] == PopDone(None) <==> k < s.head || k >= s.flag || OnItsWay(s, k)
  {
    MarkIsReady(s, k);
    if k < s.flag {
      OnItsWayIff(s, k);
    }
  }

  lemma MarkIsReady<T>(s: K.State<T>, k: nat)
    requires K.Inv(s)
    ensures s.marks[Slot(k)] == K.Ticket(k) <==> k < s.flag && s.stage[k] == K.Ready
  {
    if k < s.flag {
      assert K.StageOk(s, k);
    }
  }

  lemma OnItsWayIff<T>(s: K.State<T>, k: nat)
    requires K.Inv(s) && k < s.flag
    ensures OnItsWay(s, k) <==> !s.stage[k].Ready? && !s.stage[k].Published?
    ensures s.stage[k].Published? <==> k < s.head
  {
    assert K.StageOk(s, k);
    if OnItsWay(s, k) {
      var u :| 0 <= u < |s.threads| && Carries(s.threads[u], k);
      assert K.ThreadOk(s, u);
    }
    if !s.stage[k].Ready? && !s.stage[k].Published? {
      assert Carries(s.threads[s.stage[k].t], k);
    }
  }

  // ----- Answers that are not true -----

  lemma LoadsFlag<T(!new)>(c0: State<T>, w: T)
    requires c0.Shaped() && |c0.threads| == 2 && c0.threads[1].AtRest()
    ensures Reaches(c0, Put(c0, 1, PushTail(w, c0.flag)))
  {
    assert Run(c0, []) == c0;
    Call(c0, c0, 1, CallPush(w), PushFlag(w));
    Access(c0, c0, 1, PushFlag(w), c0, PushTail(w, c0.flag));
  }

  /** Thread 1 loads `flag_` and stalls; thread 0 pushes and pops one value; thread 1 then
      finds `tail_` one past its ticket, which is how a full ring looks. */
  lemma RefusedByEmptyRing<T(!new)>(max: nat, blank: T, v: T, w: T)
    requires 2 <= max
    ensures exists schedule: seq<Choice<T>> ::
      var r := Run(Init(max, blank, 2), schedule);
      |r.threads| == 2 && r.threads[1] == PushDone(false) && r.threads[0].AtRest() && r.popped == r.reserved
  {
    var c0 := Init(max, blank, 2);
    var c := Put(c0, 1, PushTail(w, 0));
    LoadsFlag(c0, w);
    var d := Cycle(c0, c, 0, v);
    assert Put(d, 1, PushTail(w, 0)) == d;
    Access(c0, d, 1, PushTail(w, 0), d, PushDone(false));
    var schedule: seq<Choice<T>> :| Run(c0, schedule) == Put(d, 1, PushDone(false));
    assert Run(c0, schedule).threads[1] == PushDone(false);
  }

  /** Thread 0 pushes as far as its mark; thread 1 pops, claims the slot and stalls; thread
      0 finds its slot claimed and returns true, and its next pop answers "empty". */
  lemma EmptyAfterOwnPush<T(!new)>(max: nat, blank: T, v: T)
    requires 2 <= max
    ensures exists schedule: seq<Choice<T>>, rest: seq<Choice<T>> ::
      var s, r := Run(Init(max, blank, 2), schedule), Run(Run(Init(max, blank, 2), schedule), rest);
      && |s.threads| == 2 && s.threads[0] == PushDone(true) && s.reserved == [v] && s.popped == []
      && r == Put(s, 0, PopDone(None))
  {
    var c0 := Init(max, blank, 2);
    assert Run(c0, []) == c0;
    var c := PushToClaim(c0, c0, 0, v);
    var d := PopTakesClaim(c0, c, 1);
    var s := StopPublishing(c0, Put(d, 1, PopPublish(0)), 0);
    PopFindsUnready(s);
    var schedule: seq<Choice<T>> :| Run(c0, schedule) == s;
    var rest: seq<Choice<T>> :| Run(s, rest) == Put(s, 0, PopDone(None));
    assert Run(Run(c0, schedule), rest) == Put(s, 0, PopDone(None));
  }

  /** A whole pop by thread 0 that finds the slot at `head_` not ready. */
  lemma PopFindsUnready<T(!new)>(s: State<T>)
    requires s.Shaped() && |s.threads| == 2 && s.threads[0].AtRest() && s.head == s.tail && s.marks[s.head] != s.head
    ensures Reaches(s, Put(s, 0, PopDone(None)))
  {
    assert Run(s, []) == s;
    Call(s, s, 0, CallPop, PopTail);
    Access(s, s, 0, PopTail, s, PopHead(s.tail));
    Access(s, s, 0, PopHead(s.tail), s, PopCheck(s.head));
    Access(s, s, 0, PopCheck(s.head), s, PopDone(None));
  }
}
