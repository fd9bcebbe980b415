/**
 When the 8-bit ring does what the ticket ring does. Rounding every ticket to its
 slot relates the two machines, and a step keeps them related exactly when it is
 free of two hazards: a comparison that meets a ticket a whole number of laps away,
 and a claim of slot 255 by `pop`, which stores the very value that means "ready".
 Past such a claim they still go on together, but for that one mark, until somebody
 reads it.
 */
module MpmcRefinement {
  import opened Common
  import opened Indexes
  import opened MpmcProtocol
  import K = MpmcTickets
  import C = MpmcCode

  /** A mark as a thread sees it in slot `i`: ready or not. */
  predicate MarkRel(m: K.Mark, raw: int, i: nat) {
    m.Ticket? <==> raw == i
  }

  predicate LocalRel<T(==)>(l: K.Thread<T>, c: C.Thread<T>) {
    match l
    case Idle => c == Idle
    case PushFlag(v) => c == PushFlag(v)
    case PushTail(v, cur) => c == PushTail(v, Slot(cur))
    case PushReserve(v, cur, idTail) => c == PushReserve(v, Slot(cur), Slot(idTail))
    case PushWrite(v, cur) => c == PushWrite(v, Slot(cur))
    case PushMark(cur) => c == PushMark(Slot(cur))
    case PushCheck(cur) => c == PushCheck(Slot(cur))
    case PushHead(cur, cac) => c.PushHead? && c.cur == Slot(cur) && MarkRel(cac, c.cac, Slot(cur))
    case PushClaim(cur) => c == PushClaim(Slot(cur))
    case PushPublish(cur) => c == PushPublish(Slot(cur))
    case PushDone(ok) => c == PushDone(ok)
    case PopTail => c == PopTail
    case PopHead(curTail) => c == PopHead(Slot(curTail))
    case PopCheck(curHead) => c == PopCheck(Slot(curHead))
    case PopClaim(curHead) => c == PopClaim(Slot(curHead))
    case PopPublish(curHead) => c == PopPublish(Slot(curHead))
    case PopRead(curTail) => c == PopRead(Slot(curTail))
    case PopTake(curTail, v) => c == PopTake(Slot(curTail), v)
    case PopDone(res) => c == PopDone(res)
  }

  ghost predicate SharedRel<T>(s: K.State<T>, c: C.State<T>) {
    && s.Shaped() && c.Shaped()
    && c.max == s.max
    && c.flag == Slot(s.flag) && c.head == Slot(s.head) && c.tail == Slot(s.tail)
    && c.data == s.data && c.reserved == s.reserved && c.popped == s.popped
    && (forall i :: 0 <= i < SLOTS ==> MarkRel(s.marks[i], c.marks[i], i))
  }

  ghost predicate Rel<T>(s: K.State<T>, c: C.State<T>) {
    && SharedRel(s, c)
    && |c.threads| == |s.threads|
    && (forall t :: 0 <= t < |s.threads| ==> LocalRel(s.threads[t], c.threads[t]))
  }

  /** Two different tickets that the 8-bit code takes for one. */
  predicate Lapped(j: nat, k: nat) {
    j != k && Slot(j) == Slot(k)
  }

  /** The mark is a ticket of another lap than `k`. */
  predicate LappedMark(m: K.Mark, k: nat) {
    m.Ticket? && m.k != k
  }

  /** The comparison thread `t` makes next meets a ticket of another lap. */
  predicate Aliased<T>(s: K.State<T>, t: nat, weakFails: bool)
    requires s.Shaped() && t < |s.threads|
  {
    match s.threads[t]
    case PushReserve(_, cur, _) => Lapped(cur, s.flag) && !weakFails
    case PushHead(cur, cac) => Lapped(cur, s.head) && cac.Ticket?
    case PushClaim(cur) => LappedMark(s.marks[Slot(cur)], cur)
    case PopHead(curTail) => Lapped(curTail, s.head)
    case PopCheck(curHead) => LappedMark(s.marks[Slot(curHead)], curHead)
    case PopClaim(curHead) => LappedMark(s.marks[Slot(curHead)], curHead) && !weakFails
    case PopTake(curTail, _) => Lapped(curTail, s.tail) && !weakFails
    case _ => false
  }

  /** `pop` claims the slot whose "claimed" value equals its "ready" value. */
  predicate SentinelClash<T>(s: K.State<T>, t: nat, weakFails: bool)
    requires s.Shaped() && t < |s.threads|
  {
    && s.threads[t].PopClaim? && !weakFails
    && s.marks[Slot(s.threads[t].curHead)] == K.Ticket(s.threads[t].curHead)
    && Slot(s.threads[t].curHead) == SIZE_LIMIT
  }

  /** The step is a comparison across laps. */
  predicate Laps<T>(s: K.State<T>, t: nat, a: Act<T>)
    requires s.Shaped()
  {
    t < |s.threads| && a.Go? && Aliased(s, t, a.weakFails)
  }

  /** The step is such a claim. */
  predicate Clashes<T>(s: K.State<T>, t: nat, a: Act<T>)
    requires s.Shaped()
  {
    t < |s.threads| && a.Go? && SentinelClash(s, t, a.weakFails)
  }

  predicate Hazard<T>(s: K.State<T>, t: nat, a: Act<T>)
    requires s.Shaped()
  {
    Laps(s, t, a) || Clashes(s, t, a)
  }

  lemma InitRel<T>(max: nat, blank: T, threads: nat)
    ensures Rel(K.Init(max, blank, threads), C.Init(max, blank, threads))
  {
  }

  lemma WholeLaps(x: int, laps: int)
    ensures (x + SLOTS * laps) % SLOTS == x % SLOTS
  {
  }

  lemma WrappedDifference(cur: nat, idTail: nat)
    ensures U8(U8(Slot(cur) + 1) - Slot(idTail)) == (cur + 1 - idTail) % SLOTS
  {
    NextSlot(cur);
    var next := cur + 1;
    assert next - idTail == next % SLOTS - idTail % SLOTS + SLOTS * (next / SLOTS - idTail / SLOTS);
    WholeLaps(next % SLOTS - idTail % SLOTS, next / SLOTS - idTail / SLOTS);
  }

  lemma WrappedEquality(next: nat, idTail: nat)
    ensures Slot(next) == Slot(idTail) <==> (next - idTail) % SLOTS == 0
  {
  }

  /** 8-bit arithmetic on slots is ticket arithmetic modulo the number of slots. */
  lemma WrappedTests(cur: nat, idTail: nat, max: nat)
    ensures U8(Slot(cur) + 1) == Slot(cur + 1)
    ensures K.LooksFull(cur, idTail, max) <==>
      (U8(Slot(cur) + 1) == Slot(idTail) || U8(U8(Slot(cur) + 1) - Slot(idTail)) >= max)
  {
    NextSlot(cur);
    WrappedDifference(cur, idTail);
    WrappedEquality(cur + 1, idTail);
  }

  /** Replacing one thread's locals by related ones keeps the states related, and
      only related ones do. */
  lemma LocalRefines<T>(s: K.State<T>, c: C.State<T>, t: nat, l: K.Thread<T>, m: C.Thread<T>)
    requires Rel(s, c) && t < |s.threads|
    ensures Rel(K.Put(s, t, l), C.Put(c, t, m)) <==> LocalRel(l, m)
  {
    assert K.Put(s, t, l).threads[t] == l && C.Put(c, t, m).threads[t] == m;
  }

  lemma FlagRefines<T>(s: K.State<T>, c: C.State<T>, t: nat, weakFails: bool)
    requires K.Inv(s) && Rel(s, c) && t < |s.threads| && s.threads[t].PushFlag?
    ensures Rel(K.Advance(s, t, weakFails), C.Advance(c, t, weakFails))
  {
    var v := s.threads[t].val;
    assert LocalRel(s.threads[t], c.threads[t]);
    LocalRefines(s, c, t, PushTail(v, s.flag), PushTail(v, c.flag));
  }

  lemma FullTestRefines<T>(s: K.State<T>, c: C.State<T>, t: nat, weakFails: bool)
    requires K.Inv(s) && Rel(s, c) && t < |s.threads| && s.threads[t].PushTail?
    ensures Rel(K.Advance(s, t, weakFails), C.Advance(c, t, weakFails))
  {
    var v, cur := s.threads[t].val, s.threads[t].cur;
    assert LocalRel(s.threads[t], c.threads[t]);
    WrappedTests(cur, s.tail, s.max);
    LocalRefines(s, c, t, PushDone(false), PushDone(false));
    LocalRefines(s, c, t, PushReserve(v, cur, s.tail), PushReserve(v, Slot(cur), c.tail));
  }

  lemma ReserveRefines<T>(s: K.State<T>, c: C.State<T>, t: nat, weakFails: bool)
    requires K.Inv(s) && Rel(s, c) && t < |s.threads| && s.threads[t].PushReserve?
    ensures Rel(K.Advance(s, t, weakFails), C.Advance(c, t, weakFails)) <==> !Aliased(s, t, weakFails)
  {
    var cur, v := s.threads[t].cur, s.threads[t].val;
    assert LocalRel(s.threads[t], c.threads[t]);
    NextSlot(s.flag);
    LocalRefines(s, c, t, PushTail(v, s.flag), PushTail(v, c.flag));
    LocalRefines(s, c, t, PushWrite(v, s.flag), PushWrite(v, c.flag));
  }

  lemma FillRefines<T>(s: K.State<T>, c: C.State<T>, t: nat, weakFails: bool)
    requires K.Inv(s) && Rel(s, c) && t < |s.threads|
    requires s.threads[t].PushWrite? || s.threads[t].PushMark? || s.threads[t].PushCheck? || s.threads[t].PushHead?
    ensures Rel(K.Advance(s, t, weakFails), C.Advance(c, t, weakFails)) <==> !Aliased(s, t, weakFails)
  {
    var r, d := K.Advance(s, t, weakFails), C.Advance(c, t, weakFails);
    assert LocalRel(s.threads[t], c.threads[t]);
    assert K.ThreadOk(s, t);
    LocalRefines(s, c, t, r.threads[t], d.threads[t]);
  }

  lemma ClaimRefines<T>(s: K.State<T>, c: C.State<T>, t: nat, weakFails: bool)
    requires K.Inv(s) && Rel(s, c) && t < |s.threads| && s.threads[t].PushClaim?
    ensures Rel(K.Advance(s, t, weakFails), C.Advance(c, t, weakFails)) <==> !Aliased(s, t, weakFails)
  {
    var r, d := K.Advance(s, t, weakFails), C.Advance(c, t, weakFails);
    assert LocalRel(s.threads[t], c.threads[t]);
    assert K.ThreadOk(s, t);
    LocalRefines(s, c, t, r.threads[t], d.threads[t]);
  }

  lemma PublishRefines<T>(s: K.State<T>, c: C.State<T>, t: nat, weakFails: bool)
    requires K.Inv(s) && Rel(s, c) && t < |s.threads| && s.threads[t].PushPublish?
    ensures Rel(K.Advance(s, t, weakFails), C.Advance(c, t, weakFails))
  {
    var cur := s.threads[t].cur;
    assert LocalRel(s.threads[t], c.threads[t]);
    LocalRefines(s, c, t, PushCheck(cur + 1), PushCheck(Slot(cur + 1)));
    NextSlot(cur);
  }

  lemma PopLooksRefine<T>(s: K.State<T>, c: C.State<T>, t: nat, weakFails: bool)
    requires K.Inv(s) && Rel(s, c) && t < |s.threads|
    requires s.threads[t].PopTail? || s.threads[t].PopHead? || s.threads[t].PopRead?
    ensures Rel(K.Advance(s, t, weakFails), C.Advance(c, t, weakFails)) <==> !Aliased(s, t, weakFails)
  {
    var r, d := K.Advance(s, t, weakFails), C.Advance(c, t, weakFails);
    assert LocalRel(s.threads[t], c.threads[t]);
    LocalRefines(s, c, t, r.threads[t], d.threads[t]);
  }

  lemma PopCheckRefines<T>(s: K.State<T>, c: C.State<T>, t: nat, weakFails: bool)
    requires K.Inv(s) && Rel(s, c) && t < |s.threads| && s.threads[t].PopCheck?
    ensures Rel(K.Advance(s, t, weakFails), C.Advance(c, t, weakFails)) <==> !Aliased(s, t, weakFails)
  {
    var k := s.threads[t].curHead;
    var r, d := K.Advance(s, t, weakFails), C.Advance(c, t, weakFails);
    assert LocalRel(s.threads[t], c.threads[t]);
    assert MarkRel(s.marks[Slot(k)], c.marks[Slot(k)], Slot(k));
    LocalRefines(s, c, t, r.threads[t], d.threads[t]);
  }

  lemma PopClaimRefines<T>(s: K.State<T>, c: C.State<T>, t: nat, weakFails: bool)
    requires K.Inv(s) && Rel(s, c) && t < |s.threads| && s.threads[t].PopClaim?
    ensures Rel(K.Advance(s, t, weakFails), C.Advance(c, t, weakFails)) <==>
      !Aliased(s, t, weakFails) && !SentinelClash(s, t, weakFails)
  {
    var k := s.threads[t].curHead;
    var r, d := K.Advance(s, t, weakFails), C.Advance(c, t, weakFails);
    assert LocalRel(s.threads[t], c.threads[t]);
    LocalRefines(s, c, t, r.threads[t], d.threads[t]);
    assert MarkRel(s.marks[Slot(k)], c.marks[Slot(k)], Slot(k));
    if SentinelClash(s, t, weakFails) {
      assert !MarkRel(r.marks[Slot(k)], d.marks[Slot(k)], Slot(k));
    }
  }

  lemma PopPublishRefines<T>(s: K.State<T>, c: C.State<T>, t: nat, weakFails: bool)
    requires K.Inv(s) && Rel(s, c) && t < |s.threads| && s.threads[t].PopPublish?
    ensures Rel(K.Advance(s, t, weakFails), C.Advance(c, t, weakFails))
  {
    assert LocalRel(s.threads[t], c.threads[t]);
    NextSlot(s.threads[t].curHead);
    LocalRefines(s, c, t, PopTail, PopTail);
  }

  lemma PopTakeRefines<T>(s: K.State<T>, c: C.State<T>, t: nat, weakFails: bool)
    requires K.Inv(s) && Rel(s, c) && t < |s.threads| && s.threads[t].PopTake?
    ensures Rel(K.Advance(s, t, weakFails), C.Advance(c, t, weakFails)) <==> !Aliased(s, t, weakFails)
  {
    var v := s.threads[t].got;
    assert LocalRel(s.threads[t], c.threads[t]);
    NextSlot(s.tail);
    LocalRefines(s, c, t, PopHead(s.tail), PopHead(c.tail));
    LocalRefines(s, c, t, PopDone(Some(v)), PopDone(Some(v)));
  }

  lemma GoRefines<T>(s: K.State<T>, c: C.State<T>, t: nat, weakFails: bool)
    requires K.Inv(s) && Rel(s, c) && t < |s.threads|
    ensures Rel(K.Advance(s, t, weakFails), C.Advance(c, t, weakFails)) <==> !Hazard(s, t, Go(weakFails))
  {
    match s.threads[t]
    case Idle | PushDone(_) | PopDone(_) => assert LocalRel(s.threads[t], c.threads[t]);
    case PushFlag(_) => FlagRefines(s, c, t, weakFails);
    case PushTail(_, _) => FullTestRefines(s, c, t, weakFails);
    case PushReserve(_, _, _) => ReserveRefines(s, c, t, weakFails);
    case PushWrite(_, _) | PushMark(_) | PushCheck(_) | PushHead(_, _) => FillRefines(s, c, t, weakFails);
    case PushClaim(_) => ClaimRefines(s, c, t, weakFails);
    case PushPublish(_) => PublishRefines(s, c, t, weakFails);
    case PopTail | PopHead(_) | PopRead(_) => PopLooksRefine(s, c, t, weakFails);
    case PopCheck(_) => PopCheckRefines(s, c, t, weakFails);
    case PopClaim(_) => PopClaimRefines(s, c, t, weakFails);
    case PopPublish(_) => PopPublishRefines(s, c, t, weakFails);
    case PopTake(_, _) => PopTakeRefines(s, c, t, weakFails);
  }

  lemma CallRefines<T>(s: K.State<T>, c: C.State<T>, t: nat, a: Act<T>)
    requires K.Inv(s) && Rel(s, c) && t < |s.threads| && !a.Go?
    ensures Rel(K.Exec(s, t, a), C.Exec(c, t, a))
  {
    assert LocalRel(s.threads[t], c.threads[t]);
    LocalRefines(s, c, t, K.Exec(s, t, a).threads[t], C.Exec(c, t, a).threads[t]);
  }

  /** One step of the code and one step of the ticket ring lead to related states if
      and only if the step is free of hazards. */
  lemma StepRefines<T>(s: K.State<T>, c: C.State<T>, t: nat, a: Act<T>)
    requires K.Inv(s) && Rel(s, c)
    ensures Rel(K.Exec(s, t, a), C.Exec(c, t, a)) <==> !Hazard(s, t, a)
  {
    if t < |s.threads| {
      if a.Go? {
        GoRefines(s, c, t, a.weakFails);
      } else {
        CallRefines(s, c, t, a);
      }
    }
  }

  // ----- Saved tickets -----

  /** The tickets a thread has saved for a later comparison. */
  predicate SavedWithinALap<T>(s: K.State<T>, t: nat)
    requires t < |s.threads|
  {
    match s.threads[t]
    case PushReserve(_, cur, _) => s.flag < cur + SLOTS
    case PushHead(cur, _) => s.flag < cur + SLOTS
    case PushClaim(cur) => s.flag < cur + SLOTS
    case PopHead(curTail) => s.flag < curTail + SLOTS
    case PopCheck(curHead) => s.flag < curHead + SLOTS
    case PopClaim(curHead) => s.flag < curHead + SLOTS
    case PopTake(curTail, _) => s.flag < curTail + SLOTS
    case _ => true
  }

  /** A mark left in a slot is always a ticket not yet published. */
  lemma MarksWithinALap<T>(s: K.State<T>)
    requires K.Inv(s)
    ensures forall i :: 0 <= i < SLOTS && s.marks[i].Ticket? ==> s.head <= s.marks[i].k < s.flag
  {
    forall i | 0 <= i < SLOTS && s.marks[i].Ticket?
      ensures s.head <= s.marks[i].k < s.flag
    {
      assert K.StageOk(s, s.marks[i].k);
    }
  }

  lemma NotLapped<T>(s: K.State<T>, j: nat, k: nat)
    requires K.Inv(s) && j <= s.flag < j + SLOTS && s.tail <= k <= s.flag
    ensures !Lapped(j, k)
  {
    if Slot(j) == Slot(k) {
      SlotsDiffer(j, k);
    }
  }

  lemma NotLappedMark<T>(s: K.State<T>, k: nat)
    requires K.Inv(s) && k <= s.flag < k + SLOTS
    ensures !LappedMark(s.marks[Slot(k)], k)
  {
    MarksWithinALap(s);
    if s.marks[Slot(k)].Ticket? {
      SlotsDiffer(s.marks[Slot(k)].k, k);
    }
  }

  /** The freshness guard: when no saved ticket is compared after a whole lap of later
      ones, the one hazard left is the claim of slot 255 by `pop`. */
  lemma FreshTicketsAreSafe<T>(s: K.State<T>, t: nat, a: Act<T>)
    requires K.Inv(s) && (t < |s.threads| ==> SavedWithinALap(s, t))
    ensures !Laps(s, t, a)
    ensures Hazard(s, t, a) <==> Clashes(s, t, a)
  {
    if t < |s.threads| && a.Go? {
      assert K.ThreadOk(s, t);
      match s.threads[t]
      case PushReserve(_, cur, _) => NotLapped(s, cur, s.flag);
      case PushHead(cur, _) => NotLapped(s, cur, s.head);
      case PushClaim(cur) => NotLappedMark(s, cur);
      case PopHead(curTail) => NotLapped(s, curTail, s.head);
      case PopCheck(curHead) => NotLappedMark(s, curHead);
      case PopClaim(curHead) => NotLappedMark(s, curHead);
      case PopTake(curTail, _) => NotLapped(s, curTail, s.tail);
      case _ =>
    }
  }

  // ----- Past the second hazard -----

  /** The ring as it would be if `pop` had not left "ready" behind in slot 255. */
  function Cleared<T>(c: C.State<T>): C.State<T>
    requires c.Shaped()
  {
    c.(marks := c.marks[SIZE_LIMIT := C.INVALID_INDEX])
  }

  /** Related but for that mark. */
  ghost predicate StaleRel<T>(s: K.State<T>, c: C.State<T>) {
    c.Shaped() && c.marks[SIZE_LIMIT] == SIZE_LIMIT && Rel(s, Cleared(c))
  }

  /** `stale` tells whether the two are related but for that mark. */
  ghost predicate Tracks<T>(s: K.State<T>, c: C.State<T>, stale: bool) {
    if stale then StaleRel(s, c) else Rel(s, c)
  }

  /** The access looks at the mark of slot 255. */
  predicate ReadsLastMark<T>(s: K.State<T>, t: nat, a: Act<T>) {
    t < |s.threads| && a.Go? &&
    match s.threads[t]
    case PushCheck(cur) => Slot(cur) == SIZE_LIMIT
    case PushClaim(cur) => Slot(cur) == SIZE_LIMIT
    case PopCheck(curHead) => Slot(curHead) == SIZE_LIMIT
    case PopClaim(curHead) => Slot(curHead) == SIZE_LIMIT && !a.weakFails
    case _ => false
  }

  /** The access makes slot 255 ready. */
  predicate MarksLast<T>(s: K.State<T>, t: nat, a: Act<T>) {
    t < |s.threads| && a.Go? && s.threads[t].PushMark? && Slot(s.threads[t].cur) == SIZE_LIMIT
  }

  /** The claim of slot 255 leaves the two rings related but for the mark of that slot. */
  lemma ClashLeavesStale<T>(s: K.State<T>, c: C.State<T>, t: nat, a: Act<T>)
    requires K.Inv(s) && Rel(s, c) && Clashes(s, t, a)
    ensures StaleRel(K.Exec(s, t, a), C.Exec(c, t, a))
  {
    var k := s.threads[t].curHead;
    assert LocalRel(s.threads[t], c.threads[t]);
    assert MarkRel(s.marks[Slot(k)], c.marks[Slot(k)], Slot(k));
    LocalRefines(s, c, t, PopPublish(k), PopPublish(Slot(k)));
    var r, d := K.Exec(s, t, a), C.Exec(c, t, a);
    assert r.threads[t] == PopPublish(k) && d.threads[t] == PopPublish(Slot(k));
    assert r.marks == s.marks[Slot(k) := K.Invalid];
    assert Cleared(d).marks == c.marks[SIZE_LIMIT := C.INVALID_INDEX];
  }

  /** An access that does not use the stale mark does the same without it. */
  lemma ClearedCommutes<T>(s: K.State<T>, c: C.State<T>, t: nat, a: Act<T>)
    requires StaleRel(s, c) && !ReadsLastMark(s, t, a) && !MarksLast(s, t, a)
    ensures C.Exec(Cleared(c), t, a) == Cleared(C.Exec(c, t, a))
    ensures C.Exec(c, t, a).marks[SIZE_LIMIT] == SIZE_LIMIT
  {
    if t < |s.threads| {
      assert LocalRel(s.threads[t], c.threads[t]);
    }
  }

  /** Making slot 255 ready makes good what was stale. */
  lemma MarkHeals<T>(s: K.State<T>, c: C.State<T>, t: nat, a: Act<T>)
    requires K.Inv(s) && StaleRel(s, c) && MarksLast(s, t, a)
    ensures Rel(K.Exec(s, t, a), C.Exec(c, t, a))
  {
    StepRefines(s, Cleared(c), t, a);
    assert LocalRel(s.threads[t], c.threads[t]);
    assert C.Exec(c, t, a) == C.Exec(Cleared(c), t, a);
  }

  /** Reading it tells the code what the ticket ring does not hold. */
  lemma StaleReadDiverges<T>(s: K.State<T>, c: C.State<T>, t: nat, a: Act<T>)
    requires K.Inv(s) && StaleRel(s, c) && ReadsLastMark(s, t, a)
    ensures !LocalRel(K.Exec(s, t, a).threads[t], C.Exec(c, t, a).threads[t])
  {
    assert LocalRel(s.threads[t], c.threads[t]);
    assert MarkRel(s.marks[SIZE_LIMIT], Cleared(c).marks[SIZE_LIMIT], SIZE_LIMIT);
  }

  /** Whether the mark of slot 255 is stale after the step. */
  predicate StaleAfter<T>(s: K.State<T>, stale: bool, t: nat, a: Act<T>)
    requires s.Shaped()
  {
    Clashes(s, t, a) || (stale && !MarksLast(s, t, a))
  }

  /** One step past the second hazard: within a lap the two rings go on together, but for
      a stale mark, exactly as long as nobody reads the mark while it is stale. A claim of
      slot 255 by `pop` makes it stale and the next push into that slot makes it good. */
  lemma StepTracksIff<T>(s: K.State<T>, c: C.State<T>, stale: bool, t: nat, a: Act<T>)
    requires K.Inv(s) && Tracks(s, c, stale) && !Laps(s, t, a)
    ensures Tracks(K.Exec(s, t, a), C.Exec(c, t, a), StaleAfter(s, stale, t, a)) <==>
      !(stale && ReadsLastMark(s, t, a))
  {
    if !stale {
      StepRefines(s, c, t, a);
      if Clashes(s, t, a) {
        ClashLeavesStale(s, c, t, a);
      }
    } else if ReadsLastMark(s, t, a) {
      StaleReadDiverges(s, c, t, a);
    } else if MarksLast(s, t, a) {
      MarkHeals(s, c, t, a);
    } else {
      StepRefines(s, Cleared(c), t, a);
      ClearedCommutes(s, c, t, a);
    }
  }

  /** No comparison of the run is across laps, and nobody reads a stale mark. */
  predicate Harmless<T>(s: K.State<T>, stale: bool, schedule: seq<Choice<T>>)
    requires s.Shaped()
    decreases |schedule|
  {
    schedule != [] ==>
      var t, a := schedule[0].thread, schedule[0].act;
      && !Laps(s, t, a) && !(stale && ReadsLastMark(s, t, a))
      && Harmless(K.Exec(s, t, a), StaleAfter(s, stale, t, a), schedule[1..])
  }

  /** Whether the mark of slot 255 is stale after the run. */
  predicate StaleAtEnd<T>(s: K.State<T>, stale: bool, schedule: seq<Choice<T>>)
    requires s.Shaped()
    decreases |schedule|
  {
    if schedule == [] then stale
    else
      var t, a := schedule[0].thread, schedule[0].act;
      StaleAtEnd(K.Exec(s, t, a), StaleAfter(s, stale, t, a), schedule[1..])
  }

  lemma {:induction false} RunTracks<T>(s: K.State<T>, c: C.State<T>, stale: bool, schedule: seq<Choice<T>>)
    requires K.Inv(s) && Tracks(s, c, stale) && Harmless(s, stale, schedule)
    ensures K.Inv(K.Run(s, schedule))
    ensures Tracks(K.Run(s, schedule), C.Run(c, schedule), StaleAtEnd(s, stale, schedule))
    decreases |schedule|
  {
    if schedule != [] {
      var t, a := schedule[0].thread, schedule[0].act;
      StepTracksIff(s, c, stale, t, a);
      K.ExecInv(s, t, a);
      RunTracks(K.Exec(s, t, a), C.Exec(c, t, a), StaleAfter(s, stale, t, a), schedule[1..]);
    }
  }

  /** The 8-bit ring is FIFO in every such run, also when `pop` claims slot 255 in it: what
      was popped is a prefix of what was accepted, and the wrapped counters count them. */
  lemma CodeIsFifo<T>(max: nat, blank: T, threads: nat, schedule: seq<Choice<T>>)
    requires Harmless(K.Init(max, blank, threads), false, schedule)
    ensures var c := C.Run(C.Init(max, blank, threads), schedule);
      && c.popped <= c.reserved
      && (|c.popped| == |c.reserved| || |c.reserved| - |c.popped| < K.Cap(max))
      && c.flag == U8(|c.reserved|) && c.tail == U8(|c.popped|)
  {
    K.InitInv(max, blank, threads);
    InitRel(max, blank, threads);
    RunTracks(K.Init(max, blank, threads), C.Init(max, blank, threads), false, schedule);
  }
}
