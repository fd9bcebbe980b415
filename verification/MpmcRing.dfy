/**
 `mpmc_queue` as an object: its atomics and its block are fields changed in place, one
 atomic access at a time, and the whole operations of a thread that runs alone.
 */
module MpmcRing {
  import opened Common
  import opened Indexes
  import opened MpmcProtocol
  import C = MpmcCode
  import K = MpmcTickets
  import G = MpmcGuarantees
  import R = MpmcRefinement

  class MpmcQueue<T(0)> {
    const maxSize: nat
    const data: array<T>
    const marks: array<int>
    var flag: byte
    var head: byte
    var tail: byte
    var threads: seq<C.Thread<T>>
    ghost var reserved: seq<T>
    ghost var popped: seq<T>
    /** The ticket ring that this object simulates. */
    ghost var tickets: K.State<T>
    /** A pop has claimed slot 255, which looks ready since then. */
    ghost var stale: bool

    ghost predicate Shaped() {
      data.Length == SLOTS && marks.Length == SLOTS && data as object != marks
    }

    ghost function View(): (c: C.State<T>)
      requires Shaped()
      reads this, data, marks
      ensures c.Shaped()
    {
      C.State(maxSize, flag, head, tail, data[..], marks[..], threads, reserved, popped)
    }

    ghost predicate Valid()
      reads this, data, marks
    {
      Shaped() && K.Inv(tickets) && R.Tracks(tickets, View(), stale)
    }

    /** The access neither compares across laps nor reads a stale mark. */
    ghost predicate Safe(t: nat, a: Act<T>)
      reads this
    {
      tickets.Shaped() && !R.Laps(tickets, t, a) && !(stale && R.ReadsLastMark(tickets, t, a))
    }

    /** No operation is in flight. */
    ghost predicate Quiescent()
      reads this
    {
      tickets.Quiescent()
    }

    /** Slot 255 is filled, and its publication is left to the next pop. */
    predicate LagsAtLast()
      reads this
    {
      head == SIZE_LIMIT && tail == SIZE_LIMIT && flag != SIZE_LIMIT
    }

    /** The abstract queue. */
    ghost function Contents(): seq<T>
      requires Valid()
      reads this, data, marks
    {
      tickets.Contents()
    }

    constructor (maxSize: nat, blank: T, callers: nat)
      ensures Shaped() && View() == C.Init(maxSize, blank, callers) && fresh(data) && fresh(marks)
      ensures Valid() && Quiescent() && !stale && Contents() == []
    {
      this.maxSize := maxSize;
      data := new T[SLOTS](_ => blank);
      marks := new int[SLOTS](_ => C.INVALID_INDEX);
      flag, head, tail := 0, 0, 0;
      threads := seq(callers, _ => Idle);
      reserved, popped := [], [];
      tickets, stale := K.Init(maxSize, blank, callers), false;
      new;
      K.InitInv(maxSize, blank, callers);
      R.InitRel(maxSize, blank, callers);
      assert View() == C.Init(maxSize, blank, callers);
    }

    /** One atomic access of thread `t`, in place. Unless it compares across laps or reads
        a stale mark, the object goes on simulating the ticket ring. */
    method Step(t: nat, a: Act<T>)
      requires Shaped() && t < |threads|
      modifies this, data, marks
      ensures View() == C.Exec(old(View()), t, a)
      ensures old(Valid()) && old(Safe(t, a)) ==>
        && Valid() && tickets == K.Exec(old(tickets), t, a)
        && (stale <==> R.StaleAfter(old(tickets), old(stale), t, a))
    {
      ghost var simulated := K.Inv(tickets) && R.Tracks(tickets, View(), stale) && Safe(t, a);
      ghost var before, wasTickets, wasStale := View(), tickets, stale;
      if a.CallPush? {
        if threads[t].AtRest() {
          threads := threads[t := PushFlag(a.val)];
        }
      } else if a.CallPop? {
        if threads[t].AtRest() {
          threads := threads[t := PopTail];
        }
      } else if threads[t].AtRest() {
      } else if threads[t].InPop() {
        StepPop(t, a.weakFails);
      } else {
        StepPush(t, a.weakFails);
      }
      if simulated {
        R.StepTracksIff(wasTickets, before, wasStale, t, a);
        K.ExecInv(wasTickets, t, a);
        stale := R.StaleAfter(wasTickets, wasStale, t, a);
        tickets := K.Exec(wasTickets, t, a);
      }
    }

    method StepPush(t: nat, weakFails: bool)
      requires Shaped() && t < |threads| && !threads[t].AtRest() && !threads[t].InPop()
      modifies `flag, `head, `threads, `reserved, data, marks
      ensures View() == C.Advance(old(View()), t, weakFails)
    {
      match threads[t]
      case PushFlag(v) =>
        threads := threads[t := PushTail(v, flag)];
      case PushTail(v, cur) =>
        var next := U8(cur + 1);
        if next == tail || U8(next - tail) >= maxSize {
          threads := threads[t := PushDone(false)];
        } else {
          threads := threads[t := PushReserve(v, cur, tail)];
        }
      case PushReserve(v, cur, _) =>
        if cur == flag && !weakFails {
          flag := U8(cur + 1);
          reserved := reserved + [v];
          threads := threads[t := PushWrite(v, cur)];
        } else {
          threads := threads[t := PushTail(v, flag)];
        }
      case PushWrite(v, cur) =>
        data[cur] := v;
        threads := threads[t := PushMark(cur)];
      case PushMark(cur) =>
        marks[cur] := cur;
        threads := threads[t := PushCheck(cur)];
      case PushCheck(cur) =>
        threads := threads[t := PushHead(cur, marks[cur])];
      case PushHead(cur, cac) =>
        if cur != head || cac != cur {
          threads := threads[t := PushDone(true)];
        } else {
          threads := threads[t := PushClaim(cur)];
        }
      case PushClaim(cur) =>
        if marks[cur] == cur {
          marks[cur] := C.INVALID_INDEX;
          threads := threads[t := PushPublish(cur)];
        } else {
          threads := threads[t := PushDone(true)];
        }
      case PushPublish(cur) =>
        head := U8(cur + 1);
        threads := threads[t := PushCheck(U8(cur + 1))];
    }

    method StepPop(t: nat, weakFails: bool)
      requires Shaped() && t < |threads| && threads[t].InPop()
      modifies `head, `tail, `threads, `popped, marks
      ensures View() == C.Advance(old(View()), t, weakFails)
    {
      match threads[t]
      case PopTail =>
        threads := threads[t := PopHead(tail)];
      case PopHead(curTail) =>
        if curTail == head {
          threads := threads[t := PopCheck(head)];
        } else {
          threads := threads[t := PopRead(curTail)];
        }
      case PopCheck(curHead) =>
        if marks[curHead] != curHead {
          threads := threads[t := PopDone(None)];
        } else {
          threads := threads[t := PopClaim(curHead)];
        }
      case PopClaim(curHead) =>
        if marks[curHead] == curHead && !weakFails {
          marks[curHead] := SIZE_LIMIT;
          threads := threads[t := PopPublish(curHead)];
        } else {
          threads := threads[t := PopTail];
        }
      case PopPublish(curHead) =>
        head := U8(curHead + 1);
        threads := threads[t := PopTail];
      case PopRead(curTail) =>
        threads := threads[t := PopTake(curTail, data[curTail])];
      case PopTake(curTail, v) =>
        if curTail == tail && !weakFails {
          tail := U8(curTail + 1);
          popped := popped + [v];
          threads := threads[t := PopDone(Some(v))];
        } else {
          threads := threads[t := PopHead(tail)];
        }
    }

    /** What the threads hold is what the threads of the ticket ring hold. */
    lemma ThreadTracks(t: nat)
      requires Valid() && t < |threads|
      ensures t < |tickets.threads| && R.LocalRel(tickets.threads[t], threads[t])
    {
    }

    lemma IndicesTrack()
      requires Valid()
      ensures maxSize == tickets.max
      ensures flag == Slot(tickets.flag) && head == Slot(tickets.head) && tail == Slot(tickets.tail)
    {
    }

    /** A push that runs alone does not come to slot 255: neither its own slot nor, when
        nothing lags, the one it looks at next. */
    predicate StaysClear()
      reads this
    {
      flag != SIZE_LIMIT && (head == flag ==> U8(flag + 1) != SIZE_LIMIT)
    }

    ghost predicate Clear(start: K.State<T>) {
      Slot(start.flag) != SIZE_LIMIT && (start.head == start.flag ==> Slot(start.flag + 1) != SIZE_LIMIT)
    }

    lemma ClearIsVisible()
      requires Valid() && StaysClear()
      ensures Clear(tickets)
    {
      IndicesTrack();
      NextSlot(tickets.flag);
    }

    /** `push` by thread `t` while every other thread is at rest. It goes by a stale mark
        unless it comes to slot 255. */
    method Push(t: nat, val: T) returns (ok: bool)
      requires Valid() && Quiescent() && t < |threads|
      requires stale ==> StaysClear()
      modifies this, data, marks
      ensures Valid() && Quiescent() && |threads| == old(|threads|) && stale == old(stale)
      ensures ok <==> |old(Contents())| + 1 < K.Cap(maxSize)
      ensures Contents() == if ok then old(Contents()) + [val] else old(Contents())
      ensures tail == old(tail) && (!ok ==> head == old(head) && flag == old(flag))
    {
      ghost var start := tickets;
      if stale {
        ClearIsVisible();
      }
      Step(t, CallPush(val));
      while !threads[t].AtRest()
        invariant Valid() && |threads| == old(|threads|) && stale == old(stale)
        invariant G.PushingAlone(start, tickets, t, val) || G.PushAnswered(start, tickets, t, val)
        decreases G.PushRank(tickets, t)
      {
        PushGoesOn(start, t, val);
        Step(t, Go(false));
      }
      PushEnds(start, t, val);
      ok := threads[t].ok;
    }

    /** What has been reached when the loop of accesses ends. */
    lemma PushEnds(start: K.State<T>, t: nat, val: T)
      requires Valid() && t < |threads| && threads[t].AtRest() && K.Inv(start) && start.Shaped()
      requires G.PushingAlone(start, tickets, t, val) || G.PushAnswered(start, tickets, t, val)
      ensures Quiescent() && threads[t].PushDone?
      ensures threads[t].ok <==> |start.Contents()| + 1 < K.Cap(maxSize)
      ensures Contents() == if threads[t].ok then start.Contents() + [val] else start.Contents()
      ensures tail == Slot(start.tail)
      ensures !threads[t].ok ==> flag == Slot(start.flag) && head == Slot(start.head)
    {
      ThreadTracks(t);
      IndicesTrack();
      assert G.PushAnswered(start, tickets, t, val);
    }

    /** The push reaches no slot beyond its own, or the one after that. */
    lemma PushIsSafe(start: K.State<T>, t: nat, val: T)
      requires Valid() && G.PushingAlone(start, tickets, t, val)
      requires stale ==> Clear(start)
      ensures Safe(t, Go(false)) && !R.Clashes(tickets, t, Go(false))
      ensures stale ==> !R.MarksLast(tickets, t, Go(false))
    {
      assert K.ThreadOk(tickets, t);
      R.FreshTicketsAreSafe(tickets, t, Go(false));
    }

    lemma PushGoesOn(start: K.State<T>, t: nat, val: T)
      requires Valid() && t < |threads| && !threads[t].AtRest()
      requires G.PushingAlone(start, tickets, t, val) || G.PushAnswered(start, tickets, t, val)
      requires stale ==> Clear(start)
      ensures var r := K.Exec(tickets, t, Go(false));
        && (G.PushingAlone(start, r, t, val) || G.PushAnswered(start, r, t, val))
        && G.PushRank(r, t) < G.PushRank(tickets, t) && G.PushRank(tickets, t) > 0
      ensures Safe(t, Go(false)) && (R.StaleAfter(tickets, stale, t, Go(false)) <==> stale)
    {
      ThreadTracks(t);
      G.PushStepAlone(start, tickets, t, val, false);
      PushIsSafe(start, t, val);
    }

    /** `pop` by thread `t` while every other thread is at rest. It answers what the queue
        calls for, and leaves slot 255 looking ready exactly when it had to publish it. */
    method Pop(t: nat) returns (res: Option<T>)
      requires Valid() && Quiescent() && t < |threads| && !stale
      modifies this, data, marks
      ensures Valid() && Quiescent() && |threads| == old(|threads|)
      ensures res == None <==> old(Contents()) == []
      ensures res.Some? ==> old(Contents()) == [res.value] + Contents()
      ensures res == None ==> Contents() == []
      ensures stale <==> old(LagsAtLast())
      ensures flag == old(flag) && (stale ==> head == 0)
    {
      ghost var start := tickets;
      LagIsVisible();
      Step(t, CallPop);
      while !threads[t].AtRest()
        invariant Valid() && |threads| == old(|threads|)
        invariant G.PoppingAlone(start, tickets, t) || G.PopAnswered(start, tickets, t)
        invariant stale <==> Lags(start) && PastClaim(start, t)
        decreases G.PopRank(tickets, t)
      {
        PopGoesOn(start, t);
        Step(t, Go(false));
      }
      PopEnds(start, t);
      res := threads[t].res;
    }

    /** The same of the ticket ring. */
    ghost predicate Lags(start: K.State<T>) {
      start.head == start.tail < start.flag && Slot(start.tail) == SIZE_LIMIT
    }

    /** The pop has claimed the slot it had to publish. */
    ghost predicate PastClaim(start: K.State<T>, t: nat)
      reads this
    {
      t < |tickets.threads| && (tickets.threads[t].PopPublish? || tickets.head > start.tail)
    }

    /** The 8-bit indices show whether a pop would have to publish slot 255. */
    lemma LagIsVisible()
      requires Valid()
      ensures LagsAtLast() <==> Lags(tickets)
    {
      IndicesTrack();
      Distances(tickets.tail, tickets.flag);
      Distances(tickets.tail, tickets.head);
    }

    lemma PopEnds(start: K.State<T>, t: nat)
      requires Valid() && t < |threads| && threads[t].AtRest() && K.Inv(start) && start.Shaped()
      requires G.PoppingAlone(start, tickets, t) || G.PopAnswered(start, tickets, t)
      requires stale <==> Lags(start) && PastClaim(start, t)
      ensures Quiescent() && threads[t].PopDone?
      ensures threads[t].res == None <==> start.Contents() == []
      ensures threads[t].res.Some? ==> start.Contents() == [threads[t].res.value] + Contents()
      ensures threads[t].res == None ==> Contents() == []
      ensures stale <==> Lags(start)
      ensures flag == Slot(start.flag) && (stale ==> head == 0)
    {
      ThreadTracks(t);
      IndicesTrack();
      assert G.PopAnswered(start, tickets, t);
      NextSlot(start.tail);
    }

    /** While the claim lies ahead the mark is not stale; behind it no mark is read. */
    lemma PopIsSafe(start: K.State<T>, t: nat)
      requires Valid() && G.PoppingAlone(start, tickets, t) && K.Inv(start)
      requires stale <==> Lags(start) && PastClaim(start, t)
      ensures Safe(t, Go(false)) && !R.MarksLast(tickets, t, Go(false))
    {
      assert K.ThreadOk(tickets, t);
      R.FreshTicketsAreSafe(tickets, t, Go(false));
    }

    lemma PopGoesOn(start: K.State<T>, t: nat)
      requires Valid() && t < |threads| && !threads[t].AtRest() && K.Inv(start)
      requires G.PoppingAlone(start, tickets, t) || G.PopAnswered(start, tickets, t)
      requires stale <==> Lags(start) && PastClaim(start, t)
      ensures var r := K.Exec(tickets, t, Go(false));
        && (G.PoppingAlone(start, r, t) || G.PopAnswered(start, r, t))
        && G.PopRank(r, t) < G.PopRank(tickets, t)
        && t < |r.threads|
        && (R.StaleAfter(tickets, stale, t, Go(false)) <==>
              Lags(start) && (r.threads[t].PopPublish? || r.head > start.tail))
      ensures Safe(t, Go(false))
    {
      ThreadTracks(t);
      G.PopStepAlone(start, tickets, t, false);
      PopIsSafe(start, t);
      ClaimClashes(start, t);
    }

    /** The claim is the one step that makes the mark stale. */
    lemma ClaimClashes(start: K.State<T>, t: nat)
      requires Valid() && G.PoppingAlone(start, tickets, t) && K.Inv(start)
      ensures var r := K.Exec(tickets, t, Go(false));
        && t < |r.threads|
        && (Lags(start) && (r.threads[t].PopPublish? || r.head > start.tail) <==>
              (Lags(start) && PastClaim(start, t)) || R.Clashes(tickets, t, Go(false)))
    {
      assert K.ThreadOk(tickets, t);
    }

    /** One turn of the loop, on a full ring. */
    method MakeRoomAndPush(t: nat, val: T) returns (ok: bool)
      requires Valid() && Quiescent() && t < |threads| && !stale
      requires |Contents()| + 1 == K.Cap(maxSize) >= 2
      modifies this, data, marks
      ensures Valid() && Quiescent() && |threads| == old(|threads|)
      ensures ok && Contents() == old(Contents())[1..] + [val]
      ensures stale <==> old(LagsAtLast())
    {
      ghost var held := Contents();
      var dropped := Pop(t);
      assert Contents() == held[1..];
      ok := Push(t, val);
    }

    /** `push_until_success` by thread `t` alone: the newest values stay, `val` last. It
        leaves slot 255 looking ready exactly when the ring was full and the pop it needs
        had to publish that slot. */
    method PushUntilSuccess(t: nat, val: T)
      requires Valid() && Quiescent() && t < |threads| && maxSize >= 2 && !stale
      modifies this, data, marks
      ensures Valid() && Quiescent() && |threads| == old(|threads|)
      ensures Contents() == Newest(old(Contents()) + [val], K.Cap(maxSize) - 1)
      ensures stale <==> old(LagsAtLast()) && |old(Contents())| + 1 >= K.Cap(maxSize)
    {
      HeldBelowMax();
      NewestOfOneMore(Contents(), val, K.Cap(maxSize) - 1);
      var ok := Push(t, val);
      while !ok
        invariant Valid() && Quiescent() && |threads| == old(|threads|)
        invariant ok ==> Contents() == Newest(old(Contents()) + [val], K.Cap(maxSize) - 1)
        invariant ok ==> (stale <==> old(LagsAtLast()) && |old(Contents())| + 1 >= K.Cap(maxSize))
        invariant !ok ==> Contents() == old(Contents()) && |old(Contents())| + 1 == K.Cap(maxSize)
        invariant !ok ==> !stale && LagsAtLast() == old(LagsAtLast())
        decreases !ok
      {
        ok := MakeRoomAndPush(t, val);
      }
    }

    lemma HeldBelowMax()
      requires Valid()
      ensures |Contents()| == 0 || |Contents()| < K.Cap(maxSize)
    {
      IndicesTrack();
    }
  }

  /** Tickets less than a lap apart are equal if their slots are. */
  lemma Distances(j: nat, k: nat)
    ensures j <= k < j + SLOTS ==> (Slot(j) == Slot(k) <==> j == k)
  {
  }
}
