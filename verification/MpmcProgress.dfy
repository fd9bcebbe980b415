/**
 The ring is obstruction-free: from any reachable state, with the other threads stopped
 anywhere inside their calls, a thread that goes on alone ends its call within a bound.
 */
module MpmcProgress {
  import opened Common
  import opened Indexes
  import opened MpmcProtocol
  import opened MpmcTickets
  import G = MpmcGuarantees

  /** Accesses to go for a pop that has just loaded `tail_`. */
  function Fresh<T>(s: State<T>): nat {
    if s.head > s.tail then 3 else 8
  }

  /** How many accesses the call of `t` takes at most, if no exchange fails spuriously. */
  function Rank<T>(s: State<T>, t: nat): int
    requires s.Shaped() && t < |s.threads|
  {
    match s.threads[t]
    case Idle | PushDone(_) | PopDone(_) => 0
    case PushFlag(_) => 11
    case PushTail(_, cur) => if cur == s.flag then 10 else 12
    case PushReserve(_, cur, _) => if cur == s.flag then 9 else 11
    case PushWrite(_, cur) => 4 * (s.flag - cur) + 4
    case PushMark(cur) => 4 * (s.flag - cur) + 3
    case PushCheck(cur) => 4 * (s.flag - cur) + 2
    case PushHead(cur, _) => 4 * (s.flag - cur) + 1
    case PushClaim(cur) => 4 * (s.flag - cur)
    case PushPublish(cur) => 4 * (s.flag - cur) - 1
    case PopTail => 1 + Fresh(s)
    case PopHead(curTail) => if curTail == s.tail then Fresh(s) else 3 + Fresh(s)
    case PopCheck(curHead) => if s.marks[Slot(curHead)] == Ticket(curHead) then 7 else 1
    case PopClaim(curHead) => if s.marks[Slot(curHead)] == Ticket(curHead) then 6 else 2 + Fresh(s)
    case PopPublish(_) => 5
    case PopRead(curTail) => if curTail == s.tail then 2 else 2 + Fresh(s)
    case PopTake(curTail, _) => if curTail == s.tail then 1 else 1 + Fresh(s)
  }

  /** The push has not won its exchange on `flag_`. */
  predicate Looking<T>(l: Thread<T>) {
    l.PushFlag? || l.PushTail? || l.PushReserve?
  }

  lemma LookingProgresses<T>(s: State<T>, t: nat)
    requires Inv(s) && t < |s.threads| && Looking(s.threads[t])
    ensures 0 <= Rank(Advance(s, t, false), t) < Rank(s, t)
  {
    assert ThreadOk(s, t);
  }

  lemma PushProgresses<T>(s: State<T>, t: nat)
    requires Inv(s) && t < |s.threads| && !s.threads[t].AtRest() && !s.threads[t].InPop()
    ensures 0 <= Rank(Advance(s, t, false), t) < Rank(s, t)
  {
    if Looking(s.threads[t]) {
      LookingProgresses(s, t);
    } else {
      assert ThreadOk(s, t);
    }
  }

  lemma PopProgresses<T>(s: State<T>, t: nat)
    requires Inv(s) && t < |s.threads| && s.threads[t].InPop()
    ensures 0 <= Rank(Advance(s, t, false), t) < Rank(s, t)
  {
    assert ThreadOk(s, t);
    if s.threads[t].PopPublish? {
      PublishedIsHead(s, t, s.threads[t].curHead);
    }
    if s.threads[t].PopCheck? {
      HeadMark(s, s.threads[t].curHead);
    }
  }

  /** A mark that is ready belongs to a ticket from `head_` on. */
  lemma HeadMark<T>(s: State<T>, k: nat)
    requires Inv(s)
    ensures s.marks[Slot(k)] == Ticket(k) ==> s.head <= k < s.flag
  {
    if s.marks[Slot(k)] == Ticket(k) {
      assert StageOk(s, k);
    }
  }

  /** Each access of a thread that goes on alone brings it nearer to its answer, wherever
      it and the others stand. */
  lemma SoloProgresses<T>(s: State<T>, t: nat)
    requires Inv(s) && t < |s.threads| && !s.threads[t].AtRest()
    ensures var r := Exec(s, t, Go(false)); Inv(r) && 0 <= Rank(r, t) < Rank(s, t)
  {
    ExecInv(s, t, Go(false));
    if s.threads[t].InPop() {
      PopProgresses(s, t);
    } else {
      PushProgresses(s, t);
    }
  }

  /** So it answers within that many accesses, from any state of any run. */
  lemma {:induction false} SoloAnswers<T>(s: State<T>, t: nat, fails: seq<bool>)
    requires Inv(s) && t < |s.threads| && true !in fails && |fails| >= Rank(s, t)
    ensures G.Solo(s, t, fails).threads[t].AtRest()
    decreases |fails|
  {
    if s.threads[t].AtRest() {
      G.SoloAtRest(s, t, fails);
    } else {
      SoloProgresses(s, t);
      assert fails[0] == false;
      SoloAnswers(Exec(s, t, Go(false)), t, fails[1..]);
    }
  }

  // ----- Helping -----

  /** The thread is about to look at ticket `k` and will find it ready, or has just done so. */
  predicate LooksAt<T>(l: Thread<T>, k: nat) {
    l == PushCheck(k) || l == PushHead(k, Ticket(k)) || l == PushClaim(k)
  }

  /** If the oldest unpublished ticket is ready, some push is about to publish it. */
  ghost predicate Attended<T>(s: State<T>)
    requires Indices(s)
  {
    s.head < s.flag && s.stage[s.head] == Ready ==>
      exists u :: 0 <= u < |s.threads| && LooksAt(s.threads[u], s.head)
  }

  /** The step is the store of `head_` by a pop. */
  predicate PopPublishes<T>(s: State<T>, t: nat, a: Act<T>) {
    t < |s.threads| && a.Go? && s.threads[t].PopPublish?
  }

  /** What the step of a thread does to the ticket at `head_`. */
  lemma LookerStep<T>(s: State<T>, t: nat, a: Act<T>)
    requires Inv(s) && t < |s.threads| && LooksAt(s.threads[t], s.head) && s.head < s.flag && s.stage[s.head] == Ready
    ensures var r := Exec(s, t, a);
      r.head == s.head && (LooksAt(r.threads[t], s.head) || (s.head < |r.stage| && r.stage[s.head] == Claimed(t)))
  {
    assert StageOk(s, s.head);
  }

  /** A ticket at `head_` becomes ready only by its own push, which looks at it next. */
  lemma BecomesReady<T>(s: State<T>, t: nat, a: Act<T>)
    requires Inv(s) && t < |s.threads| && Exec(s, t, a).head == s.head < s.flag && s.stage[s.head] != Ready
    requires s.head < |Exec(s, t, a).stage| && Exec(s, t, a).stage[s.head] == Ready
    ensures LooksAt(Exec(s, t, a).threads[t], s.head)
  {
    assert ThreadOk(s, t) && StageOk(s, s.head);
  }

  /** A push that has published a ticket looks at the next one. */
  lemma PublisherLooksOn<T>(s: State<T>, t: nat, a: Act<T>)
    requires Inv(s) && t < |s.threads| && !PopPublishes(s, t, a) && Exec(s, t, a).head != s.head
    ensures LooksAt(Exec(s, t, a).threads[t], Exec(s, t, a).head)
  {
  }

  /** A new ticket is not ready. */
  lemma FreshIsNotReady<T>(s: State<T>, t: nat, a: Act<T>)
    requires Inv(s) && t < |s.threads| && s.head == s.flag && Exec(s, t, a).head == s.head
    ensures s.head < |Exec(s, t, a).stage| ==> Exec(s, t, a).stage[s.head] != Ready
  {
  }

  lemma OtherThreadStays<T>(s: State<T>, t: nat, a: Act<T>, u: nat)
    requires s.Shaped() && u < |s.threads| && u != t
    ensures Exec(s, t, a).threads[u] == s.threads[u]
  {
  }

  /** Every step but a pop's store of `head_` keeps that. */
  lemma AttendedKept<T>(s: State<T>, t: nat, a: Act<T>)
    requires Inv(s) && Attended(s) && !PopPublishes(s, t, a)
    ensures Inv(Exec(s, t, a)) && Attended(Exec(s, t, a))
  {
    ExecInv(s, t, a);
    var r := Exec(s, t, a);
    if t < |s.threads| && r.head < r.flag && r.stage[r.head] == Ready {
      if r.head != s.head {
        PublisherLooksOn(s, t, a);
      } else if s.head == s.flag {
        FreshIsNotReady(s, t, a);
      } else if s.stage[s.head] != Ready {
        BecomesReady(s, t, a);
      } else {
        var u :| 0 <= u < |s.threads| && LooksAt(s.threads[u], s.head);
        if u == t { LookerStep(s, t, a); } else { OtherThreadStays(s, t, a, u); }
      }
    }
  }

  /** No pop stores `head_` in the run. */
  predicate PushesPublish<T>(s: State<T>, schedule: seq<Choice<T>>)
    requires s.Shaped()
    decreases |schedule|
  {
    schedule != [] ==>
      && !PopPublishes(s, schedule[0].thread, schedule[0].act)
      && PushesPublish(Exec(s, schedule[0].thread, schedule[0].act), schedule[1..])
  }

  lemma {:induction false} AttendedAlong<T>(s: State<T>, schedule: seq<Choice<T>>)
    requires Inv(s) && Attended(s) && PushesPublish(s, schedule)
    ensures Inv(Run(s, schedule)) && Attended(Run(s, schedule))
    decreases |schedule|
  {
    if schedule != [] {
      AttendedKept(s, schedule[0].thread, schedule[0].act);
      AttendedAlong(Exec(s, schedule[0].thread, schedule[0].act), schedule[1..]);
    }
  }

  lemma ReadyAtRest<T>(s: State<T>)
    requires Inv(s) && s.Quiescent() && s.head < s.flag
    ensures s.stage[s.head] == Ready
  {
    assert StageOk(s, s.head);
  }

  /** Pushes help each other: in every run in which no pop had to store `head_`, all that was
      accepted is published whenever all threads are at rest. */
  lemma NothingLagsAtRest<T>(max: nat, blank: T, threads: nat, schedule: seq<Choice<T>>)
    requires PushesPublish(Init(max, blank, threads), schedule)
    ensures var r := Run(Init(max, blank, threads), schedule); r.Quiescent() ==> r.head == r.flag
  {
    InitInv(max, blank, threads);
    AttendedAlong(Init(max, blank, threads), schedule);
    var r := Run(Init(max, blank, threads), schedule);
    if r.Quiescent() && r.head < r.flag {
      ReadyAtRest(r);
    }
  }
}
