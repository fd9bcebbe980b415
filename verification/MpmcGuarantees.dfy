/**
 What `mpmc_queue` guarantees, for any number of threads under any schedule and,
 for a thread that runs alone, how each operation ends.
 */
module MpmcGuarantees {
  import opened Common
  import opened Indexes
  import opened MpmcProtocol
  import opened MpmcTickets

  // ----- All interleavings -----

  lemma {:induction false} RunInv<T>(s: State<T>, schedule: seq<Choice<T>>)
    requires Inv(s)
    ensures Inv(Run(s, schedule))
    decreases |schedule|
  {
    if schedule != [] {
      ExecInv(s, schedule[0].thread, schedule[0].act);
      RunInv(Exec(s, schedule[0].thread, schedule[0].act), schedule[1..]);
    }
  }

  /** FIFO: in the order of the `tail_` exchanges, the values popped are a prefix of
      the values accepted in the order of the `flag_` exchanges; at most `Cap(max) - 1`
      values are held, whatever `max_size` is. */
  lemma FifoUnderAnyInterleaving<T>(max: nat, blank: T, threads: nat, schedule: seq<Choice<T>>)
    ensures var r := Run(Init(max, blank, threads), schedule);
      && r.tail <= r.head <= r.flag == |r.reserved|
      && r.popped == r.reserved[..r.tail]
      && (r.flag == r.tail || |r.Contents()| < Cap(max))
  {
    InitInv(max, blank, threads);
    RunInv(Init(max, blank, threads), schedule);
  }

  /** What a step means to the abstract queue, read off the stepping thread. */
  function EventOf<T>(before: Thread<T>, after: Thread<T>): Event<T> {
    if before.PushReserve? && after.PushWrite? then Append(before.val)
    else if before.PopTake? && after.PopDone? && after.res.Some? then Remove(after.res.value)
    else Silent
  }

  /** The successful exchange on `flag_`. */
  predicate Reserves<T>(s: State<T>, t: nat, a: Act<T>)
    requires t < |s.threads|
  {
    a.Go? && !a.weakFails && s.threads[t].PushReserve? && s.threads[t].cur == s.flag
  }

  /** The successful exchange on `tail_`. */
  predicate Takes<T>(s: State<T>, t: nat, a: Act<T>)
    requires t < |s.threads|
  {
    a.Go? && !a.weakFails && s.threads[t].PopTake? && s.threads[t].curTail == s.tail
  }

  lemma OtherStepsAreSilent<T>(s: State<T>, t: nat, a: Act<T>)
    requires s.Shaped() && t < |s.threads| && !Reserves(s, t, a) && !Takes(s, t, a)
    ensures var r := Exec(s, t, a);
      r.tail == s.tail && r.reserved == s.reserved && EventOf(s.threads[t], r.threads[t]) == Silent
  {
  }

  /** One atomic step seen from the abstract queue: the reservation appends the
      caller's value, the successful `tail_` exchange removes the oldest value and is
      the step that returns it, and no other step changes the queue. */
  lemma StepRefinesQueue<T>(s: State<T>, t: nat, a: Act<T>)
    requires Inv(s) && t < |s.threads|
    ensures Inv(Exec(s, t, a))
    ensures QueueStep(s.Contents(), EventOf(s.threads[t], Exec(s, t, a).threads[t]), Exec(s, t, a).Contents())
  {
    ExecInv(s, t, a);
    if Reserves(s, t, a) {
      assert Reserve(s, t, s.threads[t].val).Contents() == s.Contents() + [s.threads[t].val];
    } else if Takes(s, t, a) {
      assert ThreadOk(s, t);
      assert s.Contents() == [s.threads[t].got] + Take(s, t, s.threads[t].got).Contents();
    } else {
      OtherStepsAreSilent(s, t, a);
    }
  }

  /** The thread has won a claim and not stored `head_` yet. */
  predicate Publishing<T>(l: Thread<T>, k: nat) {
    l == PushPublish(k) || l == PopPublish(k)
  }

  /** At most one thread is between its claim and its store to `head_`, and the
      ticket it is about to publish is the head. */
  lemma OnePublisher<T>(s: State<T>, t: nat, u: nat, j: nat, k: nat)
    requires Inv(s) && t < |s.threads| && u < |s.threads|
    requires Publishing(s.threads[t], j) && Publishing(s.threads[u], k)
    ensures t == u && j == k == s.head < s.flag
  {
    PublishedIsHead(s, t, j);
    PublishedIsHead(s, u, k);
  }

  /** `head_` only ever grows by one, by the one thread that holds the claim. */
  lemma HeadGrowsByOne<T>(s: State<T>, t: nat, a: Act<T>)
    requires Inv(s)
    ensures Exec(s, t, a).head ==
      (if t < |s.threads| && a.Go? && Publishing(s.threads[t], s.head) then s.head + 1 else s.head)
  {
    if t < |s.threads| && a.Go? && (s.threads[t].PushPublish? || s.threads[t].PopPublish?) {
      PublishedIsHead(s, t, if s.threads[t].PushPublish? then s.threads[t].cur else s.threads[t].curHead);
    }
  }

  // ----- One thread alone -----

  /** Thread `t` takes `|fails|` steps in a row. */
  function Solo<T>(s: State<T>, t: nat, fails: seq<bool>): (r: State<T>)
    requires s.Shaped()
    ensures r.Shaped() && |r.threads| == |s.threads|
    decreases |fails|
  {
    if fails == [] then s else Solo(Exec(s, t, Go(fails[0])), t, fails[1..])
  }

  ghost predicate OthersAtRest<T>(s: State<T>, t: nat) {
    forall u :: 0 <= u < |s.threads| && u != t ==> s.threads[u].AtRest()
  }

  /** Nothing is lost at rest: every accepted, unpublished value is ready in its slot. */
  lemma AtRestAllReady<T>(s: State<T>, k: nat)
    requires Inv(s) && s.Quiescent() && s.head <= k < s.flag
    ensures s.marks[Slot(k)] == Ticket(k) && s.data[Slot(k)] == s.reserved[k]
  {
    assert StageOk(s, k);
  }

  /** The same while one thread, which holds no ticket, is inside an operation. */
  lemma HeadReady<T>(s: State<T>, t: nat)
    requires Inv(s) && t < |s.threads| && OthersAtRest(s, t) && !Holds(s.threads[t])
    ensures s.marks[Slot(s.head)] == Ticket(s.head) <==> s.head < s.flag
  {
    if s.head < s.flag {
      assert StageOk(s, s.head);
    }
  }

  /** A pop started at `s0` by `t` alone is still under way at `s`. */
  ghost predicate PoppingAlone<T>(s0: State<T>, s: State<T>, t: nat) {
    && Inv(s) && t < |s.threads| && OthersAtRest(s, t)
    && s.flag == s0.flag && s.tail == s0.tail && s.reserved == s0.reserved && s.max == s0.max
    && (s0.head == s0.flag ==> s.head == s.flag) && (s.head == s0.head || s.head == s0.tail + 1)
    && match s.threads[t]
       case PopTail => true
       case PopHead(curTail) => curTail == s.tail
       case PopCheck(curHead) => curHead == s.head == s.tail
       case PopClaim(curHead) => curHead == s.head == s.tail < s.flag
       case PopPublish(curHead) => curHead == s.head == s.tail
       case PopRead(curTail) => curTail == s.tail < s.head
       case PopTake(curTail, _) => curTail == s.tail < s.head
       case _ => false
  }

  /** The pop has returned what the queue of `s0` calls for. */
  ghost predicate PopAnswered<T>(s0: State<T>, s: State<T>, t: nat) {
    && Inv(s) && t < |s.threads| && OthersAtRest(s, t)
    && s.flag == s0.flag && s.reserved == s0.reserved && s.max == s0.max
    && (s0.head == s0.flag ==> s.head == s.flag) && (s.head == s0.head || s.head == s0.tail + 1)
    && (if s0.tail >= |s0.reserved| then s.threads[t] == PopDone(None) && s.tail == s0.tail
        else s.threads[t] == PopDone(Some(s0.reserved[s0.tail])) && s.tail == s0.tail + 1)
  }

  function PopRank<T>(s: State<T>, t: nat): nat
    requires t < |s.threads|
  {
    match s.threads[t]
    case PopTail => if s.head > s.tail then 4 else 9
    case PopHead(_) => if s.head > s.tail then 3 else 8
    case PopCheck(_) => 7
    case PopClaim(_) => 6
    case PopPublish(_) => 5
    case PopRead(_) => 2
    case PopTake(_, _) => 1
    case _ => 0
  }

  lemma PopPublishAlone<T>(s0: State<T>, s: State<T>, t: nat, weakFails: bool)
    requires PoppingAlone(s0, s, t) && s.threads[t].PopPublish?
    ensures var r := Advance(s, t, weakFails);
      PoppingAlone(s0, r, t) && PopRank(r, t) < PopRank(s, t)
  {
    PopInv(s, t, weakFails);
    PublishedIsHead(s, t, s.threads[t].curHead);
  }

  lemma PopTakeAlone<T>(s0: State<T>, s: State<T>, t: nat, weakFails: bool)
    requires PoppingAlone(s0, s, t) && s.threads[t].PopTake?
    ensures var r := Advance(s, t, weakFails);
      && (PoppingAlone(s0, r, t) || PopAnswered(s0, r, t))
      && (!weakFails ==> PopRank(r, t) < PopRank(s, t))
  {
    PopInv(s, t, weakFails);
    assert ThreadOk(s, t);
  }

  lemma PopStepAlone<T>(s0: State<T>, s: State<T>, t: nat, weakFails: bool)
    requires PoppingAlone(s0, s, t)
    ensures var r := Advance(s, t, weakFails);
      && (PoppingAlone(s0, r, t) || PopAnswered(s0, r, t))
      && (!weakFails ==> PopRank(r, t) < PopRank(s, t))
  {
    if s.threads[t].PopPublish? {
      PopPublishAlone(s0, s, t, weakFails);
    } else if s.threads[t].PopTake? {
      PopTakeAlone(s0, s, t, weakFails);
    } else {
      PopInv(s, t, weakFails);
      HeadReady(s, t);
    }
  }

  lemma {:induction false} SoloAtRest<T>(s: State<T>, t: nat, fails: seq<bool>)
    requires s.Shaped() && t < |s.threads| && s.threads[t].AtRest()
    ensures Solo(s, t, fails) == s
    decreases |fails|
  {
    if fails != [] {
      SoloAtRest(s, t, fails[1..]);
    }
  }

  /** A pop that runs alone returns false exactly when no accepted value is left,
      and the oldest one otherwise, whatever exchanges fail spuriously; it returns
      within `PopRank` steps when none does. */
  lemma {:induction false} SoloPop<T>(s0: State<T>, s: State<T>, t: nat, fails: seq<bool>)
    requires PoppingAlone(s0, s, t)
    ensures var r := Solo(s, t, fails); PoppingAlone(s0, r, t) || PopAnswered(s0, r, t)
    ensures true !in fails && |fails| >= PopRank(s, t) ==> PopAnswered(s0, Solo(s, t, fails), t)
    decreases |fails|
  {
    if fails != [] {
      PopStepAlone(s0, s, t, fails[0]);
      var r := Exec(s, t, Go(fails[0]));
      if PopAnswered(s0, r, t) {
        SoloAtRest(r, t, fails[1..]);
      } else {
        SoloPop(s0, r, t, fails[1..]);
      }
    }
  }

  /** A whole `pop` by `t` alone. */
  function PopAlone<T>(s: State<T>, t: nat): (r: State<T>)
    requires s.Shaped()
    ensures r.Shaped() && |r.threads| == |s.threads|
  {
    Solo(Exec(s, t, CallPop), t, seq(9, _ => false))
  }

  lemma PopAloneAnswers<T>(s: State<T>, t: nat)
    requires Inv(s) && s.Quiescent() && t < |s.threads|
    ensures PopAnswered(s, PopAlone(s, t), t) && PopAlone(s, t).Quiescent()
    ensures PopAlone(s, t).threads[t] == PopDone(None) <==> s.tail == s.flag
  {
    var called := Exec(s, t, CallPop);
    ExecInv(s, t, CallPop);
    SoloPop(s, called, t, seq(9, _ => false));
  }

  /** `n` whole pops in a row. */
  function Drain<T>(s: State<T>, t: nat, n: nat): (r: State<T>)
    requires s.Shaped()
    ensures r.Shaped()
    decreases n
  {
    if n == 0 then s else Drain(PopAlone(s, t), t, n - 1)
  }

  /** From any state at rest, also one where `head_` lags behind `flag_`, as many pops
      as there are values hand out every accepted value in order. */
  lemma {:induction false} DrainEmptiesInOrder<T>(s: State<T>, t: nat, n: nat)
    requires Inv(s) && s.Quiescent() && t < |s.threads| && n == s.flag - s.tail
    ensures var r := Drain(s, t, n);
      Inv(r) && r.Quiescent() && r.reserved == s.reserved && r.popped == s.reserved && r.tail == r.flag
    decreases n
  {
    if n == 0 {
      assert s.reserved[..s.tail] == s.reserved;
    } else {
      PopAloneAnswers(s, t);
      DrainEmptiesInOrder(PopAlone(s, t), t, n - 1);
    }
  }

  /** A push of `v` started at `s0` by `t` alone is still under way at `s`. */
  ghost predicate PushingAlone<T>(s0: State<T>, s: State<T>, t: nat, v: T) {
    && Inv(s) && t < |s.threads| && OthersAtRest(s, t) && s.tail == s0.tail && s.max == s0.max
    && (s0.head == s0.flag ==> NothingLags(s, t)) && PublishesOwn(s0, s, t)
    && match s.threads[t]
       case PushFlag(w) => w == v && Before(s0, s)
       case PushTail(w, cur) => w == v && cur == s.flag && Before(s0, s)
       case PushReserve(w, cur, idTail) =>
         w == v && cur == s.flag && idTail == s.tail && Before(s0, s) && !LooksFull(s0.flag, s0.tail, s0.max)
       case PushWrite(_, cur) => cur + 1 == s.flag && After(s0, s, v)
       case PushMark(cur) => cur + 1 == s.flag && After(s0, s, v)
       case PushCheck(cur) => cur + 1 >= s.flag && After(s0, s, v)
       case PushHead(cur, _) => cur + 1 >= s.flag && After(s0, s, v)
       case PushClaim(cur) => cur + 1 >= s.flag && After(s0, s, v)
       case PushPublish(cur) => cur + 1 >= s.flag && After(s0, s, v)
       case _ => false
  }

  /** Where `head_` stands during a push that found everything published. */
  ghost predicate NothingLags<T>(s: State<T>, t: nat)
    requires t < |s.threads|
  {
    match s.threads[t]
    case PushFlag(_) | PushTail(_, _) | PushReserve(_, _, _) => s.head == s.flag
    case PushWrite(_, cur) => s.head == cur
    case PushMark(cur) => s.head == cur
    case PushCheck(cur) => s.head == cur
    case PushHead(cur, cac) => s.head == cur && (cur < s.flag ==> cac == Ticket(cur))
    case PushClaim(cur) => s.head == cur
    case PushPublish(cur) => s.head == cur
    case _ => true
  }

  /** A push that runs alone publishes no value but its own, and only if nothing lagged. */
  ghost predicate PublishesOwn<T>(s0: State<T>, s: State<T>, t: nat)
    requires t < |s.threads|
  {
    match s.threads[t]
    case PushWrite(_, _) => s.head == s0.head
    case PushMark(_) => s.head == s0.head
    case PushCheck(cur) => if cur < s.flag then s.head == s0.head else s0.head == s0.flag
    case PushHead(cur, _) => if cur < s.flag then s.head == s0.head else s0.head == s0.flag
    case PushClaim(_) => s.head == s0.head
    case PushPublish(_) => s.head == s0.head
    case _ => true
  }

  ghost predicate Before<T>(s0: State<T>, s: State<T>) {
    s.flag == s0.flag && s.head == s0.head && s.reserved == s0.reserved
  }

  ghost predicate After<T>(s0: State<T>, s: State<T>, v: T) {
    s.flag == s0.flag + 1 && s.reserved == s0.reserved + [v] && !LooksFull(s0.flag, s0.tail, s0.max)
  }

  ghost predicate PushAnswered<T>(s0: State<T>, s: State<T>, t: nat, v: T) {
    && Inv(s) && t < |s.threads| && OthersAtRest(s, t) && s.tail == s0.tail && s.max == s0.max
    && (s0.head == s0.flag ==> s.head == s.flag)
    && (if LooksFull(s0.flag, s0.tail, s0.max) then s.threads[t] == PushDone(false) && Before(s0, s)
        else s.threads[t] == PushDone(true) && After(s0, s, v))
  }

  function PushRank<T>(s: State<T>, t: nat): int
    requires t < |s.threads|
  {
    match s.threads[t]
    case PushFlag(_) => 11
    case PushTail(_, _) => 10
    case PushReserve(_, _, _) => 9
    case PushWrite(_, cur) => 4 * (s.flag - cur) + 4
    case PushMark(cur) => 4 * (s.flag - cur) + 3
    case PushCheck(cur) => 4 * (s.flag - cur) + 2
    case PushHead(cur, _) => 4 * (s.flag - cur) + 1
    case PushClaim(cur) => 4 * (s.flag - cur)
    case PushPublish(cur) => 4 * (s.flag - cur) - 1
    case _ => 0
  }

  lemma ReserveAlone<T>(s0: State<T>, s: State<T>, t: nat, v: T, weakFails: bool)
    requires PushingAlone(s0, s, t, v) && Before(s0, s)
    ensures var r := Advance(s, t, weakFails);
      && (PushingAlone(s0, r, t, v) || PushAnswered(s0, r, t, v))
      && PushRank(s, t) > 0
      && (!weakFails ==> PushRank(r, t) < PushRank(s, t))
  {
    PushInv(s, t, weakFails);
  }

  lemma FillAlone<T>(s0: State<T>, s: State<T>, t: nat, v: T, weakFails: bool)
    requires PushingAlone(s0, s, t, v) && (s.threads[t].PushWrite? || s.threads[t].PushMark?)
    ensures var r := Advance(s, t, weakFails);
      PushingAlone(s0, r, t, v) && PushRank(s, t) > 0 && PushRank(r, t) < PushRank(s, t)
  {
    PushInv(s, t, weakFails);
  }

  /** The step of a push that still looks for a slot to publish. */
  ghost predicate Progress<T>(s0: State<T>, s: State<T>, r: State<T>, t: nat, v: T) {
    && (PushingAlone(s0, r, t, v) || PushAnswered(s0, r, t, v))
    && t < |s.threads| && t < |r.threads| && PushRank(s, t) > 0 && PushRank(r, t) < PushRank(s, t)
  }

  lemma LookAlone<T>(s0: State<T>, s: State<T>, t: nat, v: T, weakFails: bool)
    requires PushingAlone(s0, s, t, v) && (s.threads[t].PushCheck? || s.threads[t].PushHead?)
    ensures Progress(s0, s, Advance(s, t, weakFails), t, v)
  {
    PushInv(s, t, weakFails);
    assert ThreadOk(s, t);
    HeadReady(s, t);
  }

  lemma ClaimAlone<T>(s0: State<T>, s: State<T>, t: nat, v: T, weakFails: bool)
    requires PushingAlone(s0, s, t, v) && s.threads[t].PushClaim?
    ensures Progress(s0, s, Advance(s, t, weakFails), t, v)
  {
    PushInv(s, t, weakFails);
    assert ThreadOk(s, t);
    HeadReady(s, t);
  }

  lemma PublishAlone<T>(s0: State<T>, s: State<T>, t: nat, v: T, weakFails: bool)
    requires PushingAlone(s0, s, t, v) && s.threads[t].PushPublish?
    ensures Progress(s0, s, Advance(s, t, weakFails), t, v)
  {
    PushInv(s, t, weakFails);
    PublishedIsHead(s, t, s.threads[t].cur);
  }

  lemma PushStepAlone<T>(s0: State<T>, s: State<T>, t: nat, v: T, weakFails: bool)
    requires PushingAlone(s0, s, t, v)
    ensures var r := Advance(s, t, weakFails);
      && (PushingAlone(s0, r, t, v) || PushAnswered(s0, r, t, v))
      && PushRank(s, t) > 0
      && (!weakFails ==> PushRank(r, t) < PushRank(s, t))
  {
    if Before(s0, s) {
      ReserveAlone(s0, s, t, v, weakFails);
    } else if s.threads[t].PushWrite? || s.threads[t].PushMark? {
      FillAlone(s0, s, t, v, weakFails);
    } else if s.threads[t].PushCheck? || s.threads[t].PushHead? {
      LookAlone(s0, s, t, v, weakFails);
    } else if s.threads[t].PushClaim? {
      ClaimAlone(s0, s, t, v, weakFails);
    } else {
      PublishAlone(s0, s, t, v, weakFails);
    }
  }

  /** A push that runs alone is refused exactly when the ring looks full, and
      otherwise appends its value. */
  lemma {:induction false} SoloPush<T>(s0: State<T>, s: State<T>, t: nat, v: T, fails: seq<bool>)
    requires PushingAlone(s0, s, t, v)
    ensures var r := Solo(s, t, fails); PushingAlone(s0, r, t, v) || PushAnswered(s0, r, t, v)
    ensures true !in fails && |fails| >= PushRank(s, t) ==> PushAnswered(s0, Solo(s, t, fails), t, v)
    decreases |fails|
  {
    if fails != [] {
      PushStepAlone(s0, s, t, v, fails[0]);
      var r := Exec(s, t, Go(fails[0]));
      if PushAnswered(s0, r, t, v) {
        SoloAtRest(r, t, fails[1..]);
      } else {
        SoloPush(s0, r, t, v, fails[1..]);
      }
    } else {
      PushStepAlone(s0, s, t, v, false);
    }
  }

  /** A whole `push` by `t` alone. */
  function PushAlone<T>(s: State<T>, t: nat, v: T): (r: State<T>)
    requires s.Shaped()
    ensures r.Shaped() && |r.threads| == |s.threads|
  {
    Solo(Exec(s, t, CallPush(v)), t, seq(11, _ => false))
  }

  lemma PushAloneAnswers<T>(s: State<T>, t: nat, v: T)
    requires Inv(s) && s.Quiescent() && t < |s.threads|
    ensures PushAnswered(s, PushAlone(s, t, v), t, v) && PushAlone(s, t, v).Quiescent()
    ensures PushAlone(s, t, v).threads[t] == PushDone(false) <==> s.flag + 1 >= s.tail + Cap(s.max)
  {
    ExecInv(s, t, CallPush(v));
    SoloPush(s, Exec(s, t, CallPush(v)), t, v, seq(11, _ => false));
  }

  /** `n` rounds of the loop of `push_until_success`: a push that is refused and a pop. */
  function Rounds<T>(s: State<T>, t: nat, v: T, n: nat): (r: State<T>)
    requires s.Shaped()
    ensures r.Shaped() && |r.threads| == |s.threads|
    decreases n
  {
    if n == 0 then s else Rounds(PopAlone(PushAlone(s, t, v), t), t, v, n - 1)
  }

  /** The push after `n` refused ones succeeds. */
  ghost predicate GetsIn<T>(s: State<T>, t: nat, v: T, n: nat)
    requires s.Shaped() && t < |s.threads|
  {
    PushAlone(Rounds(s, t, v, n), t, v).threads[t] == PushDone(true)
  }

  lemma {:induction false} NoRoomForEver<T>(s: State<T>, t: nat, v: T, n: nat)
    requires Inv(s) && s.Quiescent() && t < |s.threads| && s.max < 2
    ensures !GetsIn(s, t, v, n)
    decreases n
  {
    PushAloneAnswers(s, t, v);
    if n > 0 {
      PopAloneAnswers(PushAlone(s, t, v), t);
      NoRoomForEver(PopAlone(PushAlone(s, t, v), t), t, v, n - 1);
    }
  }

  /** Run alone, `push_until_success` gets its value in if and only if `max_size` is
      at least 2: with a smaller ring every push is refused and every pop is empty. */
  lemma OverwriteEndsIff<T>(s: State<T>, t: nat, v: T)
    requires Inv(s) && s.Quiescent() && t < |s.threads|
    ensures (exists n: nat :: GetsIn(s, t, v, n)) <==> s.max >= 2
  {
    PushAloneAnswers(s, t, v);
    if s.max < 2 {
      forall n: nat
        ensures !GetsIn(s, t, v, n)
      {
        NoRoomForEver(s, t, v, n);
      }
    } else if s.flag + 1 >= s.tail + Cap(s.max) {
      var r := PopAlone(PushAlone(s, t, v), t);
      PopAloneAnswers(PushAlone(s, t, v), t);
      PushAloneAnswers(r, t, v);
      assert Rounds(s, t, v, 1) == Rounds(r, t, v, 0) == r;
      assert GetsIn(s, t, v, 1);
    } else {
      assert Rounds(s, t, v, 0) == s;
      assert GetsIn(s, t, v, 0);
    }
  }
}
