/**
 `mpmc_queue` with unbounded tickets: `flag_`, `head_`, `tail_` and the marks in
 the slots count up for ever, and ticket `k` uses slot `k % SLOTS`. The two tests
 for a full ring keep the 8-bit arithmetic of the source.

 `reserved`, `popped` and `stage` are history variables: no step reads them.
 */
module MpmcTickets {
  import opened Common
  import opened Indexes
  import opened MpmcProtocol

  datatype Mark = Invalid | Ticket(k: nat)

  /** How far ticket `k` has come, and which thread is responsible for it. */
  datatype Stage = Writing(t: nat) | Written(t: nat) | Ready | Claimed(t: nat) | Published

  type Thread<T> = Local<T, nat, Mark>

  datatype State<T> = State(
    max: nat, flag: nat, head: nat, tail: nat,
    data: seq<T>, marks: seq<Mark>, threads: seq<Thread<T>>,
    reserved: seq<T>, popped: seq<T>, stage: seq<Stage>)
  {
    predicate Shaped() {
      |data| == SLOTS && |marks| == SLOTS
    }

    /** The abstract queue: accepted and not yet popped. */
    function Contents(): seq<T>
      requires tail <= |reserved|
    {
      reserved[tail..]
    }

    /** No thread is inside an operation. */
    ghost predicate Quiescent() {
      forall t :: 0 <= t < |threads| ==> threads[t].AtRest()
    }
  }

  function Init<T>(max: nat, blank: T, threads: nat): State<T> {
    State(max, 0, 0, 0, seq(SLOTS, _ => blank), seq(SLOTS, _ => Invalid),
          seq(threads, _ => Idle), [], [], [])
  }

  /** A ring holds one value less than this: the first test for a full ring is what bounds
      it when `max_size` is more than an index can count. */
  function Cap(max: nat): nat {
    if max <= SLOTS then max else SLOTS
  }

  /** The two tests of `push` for a full ring, as computed on 8-bit indices. */
  predicate LooksFull(cur: nat, idTail: nat, max: nat) {
    (cur + 1 - idTail) % SLOTS == 0 || (cur + 1 - idTail) % SLOTS >= max
  }

  function Put<T>(s: State<T>, t: nat, l: Thread<T>): State<T>
    requires t < |s.threads|
  {
    s.(threads := s.threads[t := l])
  }

  /** `flag_` moves up and ticket `s.flag` belongs to thread `t`. */
  function Reserve<T>(s: State<T>, t: nat, v: T): State<T>
    requires t < |s.threads|
  {
    Put(s, t, PushWrite(v, s.flag)).(
    flag := s.flag + 1, reserved := s.reserved + [v], stage := s.stage + [Writing(t)])
  }

  /** `item->data = val`. */
  function Write<T>(s: State<T>, t: nat, v: T, cur: nat): State<T>
    requires s.Shaped() && t < |s.threads|
  {
    Put(s, t, PushMark(cur)).(
    data := s.data[Slot(cur) := v], stage := SetAt(s.stage, cur, Written(t)))
  }

  /** `item->flag.store(cur_flag)`. */
  function MarkReady<T>(s: State<T>, t: nat, cur: nat): State<T>
    requires s.Shaped() && t < |s.threads|
  {
    Put(s, t, PushCheck(cur)).(
    marks := s.marks[Slot(cur) := Ticket(cur)], stage := SetAt(s.stage, cur, Ready))
  }

  /** A compare-exchange takes the mark of ticket `k` away, in `push` or in `pop`. */
  function Claim<T>(s: State<T>, t: nat, k: nat, l: Thread<T>): State<T>
    requires s.Shaped() && t < |s.threads|
  {
    Put(s, t, l).(
    marks := s.marks[Slot(k) := Invalid], stage := SetAt(s.stage, k, Claimed(t)))
  }

  /** `head_.store(k + 1)`, in `push` or in `pop`. */
  function Publish<T>(s: State<T>, t: nat, k: nat, l: Thread<T>): State<T>
    requires t < |s.threads|
  {
    Put(s, t, l).(head := k + 1, stage := SetAt(s.stage, k, Published))
  }

  /** `tail_` moves up and the value read is returned. */
  function Take<T>(s: State<T>, t: nat, v: T): State<T>
    requires t < |s.threads|
  {
    Put(s, t, PopDone(Some(v))).(tail := s.tail + 1, popped := s.popped + [v])
  }

  /** One atomic access of thread `t`. */
  function Exec<T>(s: State<T>, t: nat, a: Act<T>): (r: State<T>)
    requires s.Shaped()
    ensures r.Shaped() && r.max == s.max && |r.threads| == |s.threads|
  {
    if t >= |s.threads| then s
    else match a
      case CallPush(v) => if s.threads[t].AtRest() then Put(s, t, PushFlag(v)) else s
      case CallPop => if s.threads[t].AtRest() then Put(s, t, PopTail) else s
      case Go(weakFails) => Advance(s, t, weakFails)
  }

  function Advance<T>(s: State<T>, t: nat, weakFails: bool): (r: State<T>)
    requires s.Shaped() && t < |s.threads|
    ensures r.Shaped() && r.max == s.max && |r.threads| == |s.threads|
  {
    match s.threads[t]
    case Idle | PushDone(_) | PopDone(_) => s
    case PushFlag(v) =>
      Put(s, t, PushTail(v, s.flag))
    case PushTail(v, cur) =>
      if LooksFull(cur, s.tail, s.max) then Put(s, t, PushDone(false))
      else Put(s, t, PushReserve(v, cur, s.tail))
    case PushReserve(v, cur, _) =>
      if cur == s.flag && !weakFails then Reserve(s, t, v) else Put(s, t, PushTail(v, s.flag))
    case PushWrite(v, cur) =>
      Write(s, t, v, cur)
    case PushMark(cur) =>
      MarkReady(s, t, cur)
    case PushCheck(cur) =>
      Put(s, t, PushHead(cur, s.marks[Slot(cur)]))
    case PushHead(cur, cac) =>
      if cur != s.head || cac != Ticket(cur) then Put(s, t, PushDone(true))
      else Put(s, t, PushClaim(cur))
    case PushClaim(cur) =>
      if s.marks[Slot(cur)] == Ticket(cur) then Claim(s, t, cur, PushPublish(cur))
      else Put(s, t, PushDone(true))
    case PushPublish(cur) =>
      Publish(s, t, cur, PushCheck(cur + 1))
    case PopTail =>
      Put(s, t, PopHead(s.tail))
    case PopHead(curTail) =>
      if curTail == s.head then Put(s, t, PopCheck(s.head)) else Put(s, t, PopRead(curTail))
    case PopCheck(curHead) =>
      if s.marks[Slot(curHead)] != Ticket(curHead) then Put(s, t, PopDone(None))
      else Put(s, t, PopClaim(curHead))
    case PopClaim(curHead) =>
      if s.marks[Slot(curHead)] == Ticket(curHead) && !weakFails then
        Claim(s, t, curHead, PopPublish(curHead))
      else Put(s, t, PopTail)
    case PopPublish(curHead) =>
      Publish(s, t, curHead, PopTail)
    case PopRead(curTail) =>
      Put(s, t, PopTake(curTail, s.data[Slot(curTail)]))
    case PopTake(curTail, v) =>
      if curTail == s.tail && !weakFails then Take(s, t, v) else Put(s, t, PopHead(s.tail))
  }

  /** The whole machine under a schedule: any interleaving of any threads. */
  function Run<T>(s: State<T>, schedule: seq<Choice<T>>): (r: State<T>)
    requires s.Shaped()
    ensures r.Shaped() && r.max == s.max && |r.threads| == |s.threads|
    decreases |schedule|
  {
    if schedule == [] then s
    else Run(Exec(s, schedule[0].thread, schedule[0].act), schedule[1..])
  }

  // ----- The invariant -----

  ghost predicate Indices<T>(s: State<T>) {
    && s.Shaped()
    && s.tail <= s.head <= s.flag
    && (s.flag == s.tail || s.flag + 1 <= s.tail + Cap(s.max))
    && |s.reserved| == |s.stage| == s.flag
    && s.popped == s.reserved[..s.tail]
  }

  ghost predicate MarksOk<T>(s: State<T>)
    requires Indices(s)
  {
    forall i :: 0 <= i < SLOTS && s.marks[i].Ticket? ==>
      && Slot(s.marks[i].k) == i
      && s.marks[i].k < s.flag
      && s.stage[s.marks[i].k] == Ready
  }

  ghost predicate StageOk<T>(s: State<T>, k: nat)
    requires Indices(s) && k < s.flag
  {
    match s.stage[k]
    case Writing(t) => s.head <= k && t < |s.threads| && s.threads[t].PushWrite? && s.threads[t].cur == k
    case Written(t) => s.head <= k && t < |s.threads| && s.threads[t] == PushMark(k)
    case Ready => s.head <= k && s.marks[Slot(k)] == Ticket(k)
    case Claimed(t) =>
      && k == s.head && t < |s.threads| && s.marks[Slot(k)] == Invalid
      && (s.threads[t] == PushPublish(k) || s.threads[t] == PopPublish(k))
    case Published => k < s.head
  }

  ghost predicate StagesOk<T>(s: State<T>)
    requires Indices(s)
  {
    forall k :: 0 <= k < s.flag ==> StageOk(s, k)
  }

  ghost predicate DataOk<T>(s: State<T>)
    requires Indices(s)
  {
    forall k :: s.tail <= k < s.flag && !s.stage[k].Writing? ==> s.data[Slot(k)] == s.reserved[k]
  }

  ghost predicate ThreadOk<T>(s: State<T>, t: nat)
    requires Indices(s) && t < |s.threads|
  {
    match s.threads[t]
    case Idle | PushFlag(_) | PushDone(_) | PopTail | PopDone(_) => true
    case PushTail(_, cur) => cur <= s.flag
    case PushReserve(_, cur, idTail) =>
      cur <= s.flag && idTail <= s.tail && (cur < idTail || cur + 1 < idTail + Cap(s.max))
    case PushWrite(v, cur) => cur < s.flag && s.stage[cur] == Writing(t) && s.reserved[cur] == v
    case PushMark(cur) => cur < s.flag && s.stage[cur] == Written(t)
    case PushCheck(cur) => cur <= s.flag
    case PushHead(cur, cac) =>
      && cur <= s.flag
      && (cac.Ticket? ==> Slot(cac.k) == Slot(cur) && cac.k < s.flag && (cac.k == cur || cur < s.head))
    case PushClaim(cur) => cur < s.flag && cur <= s.head
    case PushPublish(cur) => cur < s.flag && s.stage[cur] == Claimed(t)
    case PopHead(curTail) => curTail <= s.tail
    case PopCheck(curHead) => curHead <= s.head
    case PopClaim(curHead) => curHead < s.flag && curHead <= s.head
    case PopPublish(curHead) => curHead < s.flag && s.stage[curHead] == Claimed(t)
    case PopRead(curTail) => curTail <= s.tail && curTail < s.head
    case PopTake(curTail, v) =>
      curTail <= s.tail && curTail < s.head && (curTail == s.tail ==> v == s.reserved[curTail])
  }

  ghost predicate ThreadsOk<T>(s: State<T>)
    requires Indices(s)
  {
    forall t :: 0 <= t < |s.threads| ==> ThreadOk(s, t)
  }

  ghost predicate Inv<T>(s: State<T>) {
    Indices(s) && MarksOk(s) && StagesOk(s) && DataOk(s) && ThreadsOk(s)
  }

  lemma InitInv<T>(max: nat, blank: T, threads: nat)
    ensures Inv(Init(max, blank, threads))
  {
  }

  // ----- One lemma for each kind of step -----

  /** The thread is responsible for a ticket's stage. */
  predicate Holds<T>(l: Thread<T>) {
    l.PushWrite? || l.PushMark? || l.PushPublish? || l.PopPublish?
  }

  /** Loads, failed compare-exchanges and calls touch only the thread's own locals. */
  lemma QuietKept<T>(s: State<T>, t: nat, l: Thread<T>)
    requires Inv(s) && t < |s.threads| && !Holds(s.threads[t]) && !Holds(l)
    requires ThreadOk(Put(s, t, l), t)
    ensures Inv(Put(s, t, l))
  {
    var r := Put(s, t, l);
    forall k | 0 <= k < r.flag
      ensures StageOk(r, k)
    {
      assert StageOk(s, k);
    }
    forall u | 0 <= u < |r.threads|
      ensures ThreadOk(r, u)
    {
      assert ThreadOk(s, u);
    }
  }

  /** `flag_.compare_exchange_weak` succeeds: a ticket is reserved. */
  lemma ReserveKept<T>(s: State<T>, t: nat, v: T, idTail: nat)
    requires Inv(s) && t < |s.threads| && s.threads[t] == PushReserve(v, s.flag, idTail)
    ensures Inv(Reserve(s, t, v))
  {
    var r := Reserve(s, t, v);
    assert ThreadOk(s, t);
    assert r.reserved[..r.tail] == s.reserved[..s.tail];
    forall k | 0 <= k < r.flag
      ensures StageOk(r, k)
    {
      if k < s.flag {
        assert StageOk(s, k);
      }
    }
    forall u | 0 <= u < |r.threads|
      ensures ThreadOk(r, u)
    {
      assert ThreadOk(s, u);
    }
  }

  /** Writing the value disturbs no other live slot. */
  lemma WriteKept<T>(s: State<T>, t: nat, v: T, cur: nat)
    requires Inv(s) && t < |s.threads| && s.threads[t] == PushWrite(v, cur)
    ensures Inv(Write(s, t, v, cur))
  {
    var r := Write(s, t, v, cur);
    assert ThreadOk(s, t) && StageOk(s, cur);
    forall k | 0 <= k < r.flag
      ensures StageOk(r, k)
    {
      assert StageOk(s, k);
    }
    forall k | r.tail <= k < r.flag && !r.stage[k].Writing?
      ensures r.data[Slot(k)] == r.reserved[k]
    {
      if Slot(k) == Slot(cur) {
        SlotsDiffer(k, cur);
      }
    }
    forall u | 0 <= u < |r.threads|
      ensures ThreadOk(r, u)
    {
      assert ThreadOk(s, u);
    }
  }

  /** The slot's flag is set to the ticket: the value may be published. */
  lemma MarkKept<T>(s: State<T>, t: nat, cur: nat)
    requires Inv(s) && t < |s.threads| && s.threads[t] == PushMark(cur)
    ensures Inv(MarkReady(s, t, cur))
  {
    var r := MarkReady(s, t, cur);
    assert ThreadOk(s, t) && StageOk(s, cur);
    forall k | 0 <= k < r.flag
      ensures StageOk(r, k)
    {
      assert StageOk(s, k);
      if Slot(k) == Slot(cur) && s.head <= k {
        SlotsDiffer(k, cur);
      }
    }
    forall u | 0 <= u < |r.threads|
      ensures ThreadOk(r, u)
    {
      assert ThreadOk(s, u);
    }
  }

  /** A claim that succeeds is a claim of the head, and the only one. */
  lemma ClaimedIsHead<T>(s: State<T>, t: nat, k: nat)
    requires Inv(s) && t < |s.threads| && s.marks[Slot(k)] == Ticket(k)
    requires s.threads[t] == PushClaim(k) || s.threads[t] == PopClaim(k)
    ensures k == s.head < s.flag && s.stage[k] == Ready
  {
    assert ThreadOk(s, t) && StageOk(s, k);
  }

  lemma ClaimKept<T>(s: State<T>, t: nat, k: nat, l: Thread<T>)
    requires Inv(s) && t < |s.threads| && s.marks[Slot(k)] == Ticket(k)
    requires s.threads[t] == PushClaim(k) || s.threads[t] == PopClaim(k)
    requires l == PushPublish(k) || l == PopPublish(k)
    ensures Inv(Claim(s, t, k, l))
  {
    var r := Claim(s, t, k, l);
    ClaimedIsHead(s, t, k);
    forall j | 0 <= j < r.flag
      ensures StageOk(r, j)
    {
      assert StageOk(s, j);
      if Slot(j) == Slot(k) && s.head <= j {
        SlotsDiffer(j, k);
      }
    }
    forall u | 0 <= u < |r.threads|
      ensures ThreadOk(r, u)
    {
      assert ThreadOk(s, u);
    }
  }

  /** The claimed ticket is the head, and storing `head_` moves it up by one. */
  lemma PublishedIsHead<T>(s: State<T>, t: nat, k: nat)
    requires Inv(s) && t < |s.threads|
    requires s.threads[t] == PushPublish(k) || s.threads[t] == PopPublish(k)
    ensures k == s.head < s.flag && s.stage[k] == Claimed(t)
  {
    assert ThreadOk(s, t) && StageOk(s, k);
  }

  lemma PublishKept<T>(s: State<T>, t: nat, k: nat, l: Thread<T>)
    requires Inv(s) && t < |s.threads|
    requires s.threads[t] == PushPublish(k) || s.threads[t] == PopPublish(k)
    requires l == PushCheck(k + 1) || l == PopTail
    ensures Inv(Publish(s, t, k, l))
  {
    var r := Publish(s, t, k, l);
    PublishedIsHead(s, t, k);
    assert StagesOk(r) by {
      forall j | 0 <= j < r.flag
        ensures StageOk(r, j)
      {
        assert StageOk(s, j);
      }
    }
    forall u | 0 <= u < |r.threads|
      ensures ThreadOk(r, u)
    {
      assert ThreadOk(s, u);
    }
  }

  /** `tail_.compare_exchange_weak` succeeds: the value read is the oldest one. */
  lemma TakeKept<T>(s: State<T>, t: nat, v: T)
    requires Inv(s) && t < |s.threads| && s.threads[t] == PopTake(s.tail, v)
    ensures Inv(Take(s, t, v))
  {
    var r := Take(s, t, v);
    assert ThreadOk(s, t);
    assert s.reserved[..s.tail + 1] == s.reserved[..s.tail] + [s.reserved[s.tail]];
    forall k | 0 <= k < r.flag
      ensures StageOk(r, k)
    {
      assert StageOk(s, k);
    }
    forall u | 0 <= u < |r.threads|
      ensures ThreadOk(r, u)
    {
      assert ThreadOk(s, u);
    }
  }

  /** A slot is read below `head_`: a current reader gets the oldest value. */
  lemma ReadKept<T>(s: State<T>, t: nat, curTail: nat)
    requires Inv(s) && t < |s.threads| && s.threads[t] == PopRead(curTail)
    ensures Inv(Put(s, t, PopTake(curTail, s.data[Slot(curTail)])))
  {
    assert ThreadOk(s, t);
    assert curTail == s.tail ==> StageOk(s, curTail);
    QuietKept(s, t, PopTake(curTail, s.data[Slot(curTail)]));
  }

  /** The mark loaded by a push names its own ticket, or its ticket is published. */
  lemma CheckKept<T>(s: State<T>, t: nat, cur: nat)
    requires Inv(s) && t < |s.threads| && s.threads[t] == PushCheck(cur)
    ensures Inv(Put(s, t, PushHead(cur, s.marks[Slot(cur)])))
  {
    assert ThreadOk(s, t);
    var cac := s.marks[Slot(cur)];
    if cac.Ticket? && s.head <= cur {
      assert StageOk(s, cac.k);
      SlotsDiffer(cac.k, cur);
    }
    QuietKept(s, t, PushHead(cur, cac));
  }

  /** A push that passes the full test has room below `tail + Cap(max)`, or its ticket is
      already behind `tail_` and the compare-exchange that follows must fail. */
  lemma FullTest(cur: nat, flag: nat, idTail: nat, max: nat)
    requires cur <= flag
    requires flag == idTail || flag + 1 <= idTail + Cap(max)
    requires !LooksFull(cur, idTail, max)
    ensures cur < idTail || cur + 1 < idTail + Cap(max)
  {
  }

  lemma AdmitKept<T>(s: State<T>, t: nat, v: T, cur: nat)
    requires Inv(s) && t < |s.threads| && s.threads[t] == PushTail(v, cur)
    ensures Inv(Advance(s, t, false))
  {
    assert ThreadOk(s, t);
    if LooksFull(cur, s.tail, s.max) {
      QuietKept(s, t, PushDone(false));
    } else {
      FullTest(cur, s.flag, s.tail, s.max);
      QuietKept(s, t, PushReserve(v, cur, s.tail));
    }
  }

  lemma PushInv<T>(s: State<T>, t: nat, weakFails: bool)
    requires Inv(s) && t < |s.threads|
    requires !s.threads[t].AtRest() && !s.threads[t].InPop()
    ensures Inv(Advance(s, t, weakFails))
  {
    var l := Advance(s, t, weakFails).threads[t];
    assert ThreadOk(s, t);
    match s.threads[t]
    case PushFlag(v) => QuietKept(s, t, l);
    case PushTail(v, cur) => AdmitKept(s, t, v, cur);
    case PushReserve(v, cur, idTail) =>
      if cur == s.flag && !weakFails { ReserveKept(s, t, v, idTail); } else { QuietKept(s, t, l); }
    case PushWrite(v, cur) => WriteKept(s, t, v, cur);
    case PushMark(cur) => MarkKept(s, t, cur);
    case PushCheck(cur) => CheckKept(s, t, cur);
    case PushHead(cur, cac) => QuietKept(s, t, l);
    case PushClaim(k) =>
      if s.marks[Slot(k)] == Ticket(k) { ClaimKept(s, t, k, l); } else { QuietKept(s, t, l); }
    case PushPublish(k) => PublishKept(s, t, k, l);
  }

  lemma PopInv<T>(s: State<T>, t: nat, weakFails: bool)
    requires Inv(s) && t < |s.threads|
    requires !s.threads[t].AtRest() && s.threads[t].InPop()
    ensures Inv(Advance(s, t, weakFails))
  {
    var l := Advance(s, t, weakFails).threads[t];
    assert ThreadOk(s, t);
    match s.threads[t]
    case PopTail => QuietKept(s, t, l);
    case PopHead(curTail) => QuietKept(s, t, l);
    case PopCheck(k) => QuietKept(s, t, l);
    case PopClaim(k) =>
      if s.marks[Slot(k)] == Ticket(k) && !weakFails { ClaimKept(s, t, k, l); } else { QuietKept(s, t, l); }
    case PopPublish(k) => PublishKept(s, t, k, l);
    case PopRead(curTail) => ReadKept(s, t, curTail);
    case PopTake(curTail, v) =>
      if curTail == s.tail && !weakFails { TakeKept(s, t, v); } else { QuietKept(s, t, l); }
  }

  /** Every atomic step of every thread keeps the invariant. */
  lemma ExecInv<T>(s: State<T>, t: nat, a: Act<T>)
    requires Inv(s)
    ensures Inv(Exec(s, t, a))
  {
    if t < |s.threads| {
      if a.Go? {
        if s.threads[t].InPop() {
          PopInv(s, t, a.weakFails);
        } else if !s.threads[t].AtRest() {
          PushInv(s, t, a.weakFails);
        }
      } else if s.threads[t].AtRest() {
        QuietKept(s, t, if a.CallPush? then PushFlag(a.val) else PopTail);
      }
    }
  }
}
