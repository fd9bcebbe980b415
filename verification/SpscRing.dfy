/**
 `spsc_queue<T, uint8_t>`: one producer, one consumer, and 8-bit indices that wrap
 around. The machine below interleaves the two threads' atomic accesses; the class
 changes the queue in place.

 `pushed` and `popped` are history variables: the values in the order of the two
 `fetch_add`s.
 */
module SpscRing {
  import opened Common
  import opened Indexes

  /** The access the producer performs next, with the locals it still needs. */
  datatype Producer<T> =
    | PushIdle
    | PushHead(val: T)
    | PushTail(val: T, idHead: byte)
    | PushWrite(val: T, idHead: byte)
    | PushAdd(val: T)
    | PushDone(ok: bool)

  datatype Consumer<T> =
    | PopIdle
    | PopTail
    | PopHead(idTail: byte)
    | PopRead(idTail: byte)
    | PopAdd(got: T)
    | PopDone(res: Option<T>)

  datatype State<T> = State(
    max: nat, head: byte, tail: byte, block: seq<T>,
    producer: Producer<T>, consumer: Consumer<T>, pushed: seq<T>, popped: seq<T>)
  {
    /** The abstract queue. */
    function Contents(): seq<T> {
      if |popped| <= |pushed| then pushed[|popped|..] else []
    }
  }

  datatype Act<T> = CallPush(val: T) | CallPop | ProducerGoes | ConsumerGoes

  function Init<T>(max: nat, blank: T): State<T> {
    State(max, 0, 0, seq(SLOTS, _ => blank), PushIdle, PopIdle, [], [])
  }

  function Produce<T>(s: State<T>): (r: State<T>)
    requires |s.block| == SLOTS
    ensures |r.block| == SLOTS && r.max == s.max
  {
    match s.producer
    case PushIdle | PushDone(_) => s
    case PushHead(v) => s.(producer := PushTail(v, s.head))
    case PushTail(v, idHead) =>
      // The subtraction is carried out on `int`, so the first test compares with -1 when the tail is 0.
      if idHead == s.tail - 1 || U8(idHead - s.tail) >= s.max then s.(producer := PushDone(false))
      else s.(producer := PushWrite(v, idHead))
    case PushWrite(v, idHead) => s.(producer := PushAdd(v), block := s.block[idHead := v])
    case PushAdd(v) => s.(producer := PushDone(true), head := U8(s.head + 1), pushed := s.pushed + [v])
  }

  function Consume<T>(s: State<T>): (r: State<T>)
    requires |s.block| == SLOTS
    ensures |r.block| == SLOTS && r.max == s.max
  {
    match s.consumer
    case PopIdle | PopDone(_) => s
    case PopTail => s.(consumer := PopHead(s.tail))
    case PopHead(idTail) =>
      if idTail == s.head then s.(consumer := PopDone(None)) else s.(consumer := PopRead(idTail))
    case PopRead(idTail) => s.(consumer := PopAdd(s.block[idTail]))
    case PopAdd(v) => s.(consumer := PopDone(Some(v)), tail := U8(s.tail + 1), popped := s.popped + [v])
  }

  function Exec<T>(s: State<T>, a: Act<T>): (r: State<T>)
    requires |s.block| == SLOTS
    ensures |r.block| == SLOTS && r.max == s.max
  {
    match a
    case CallPush(v) => if s.producer.PushIdle? || s.producer.PushDone? then s.(producer := PushHead(v)) else s
    case CallPop => if s.consumer.PopIdle? || s.consumer.PopDone? then s.(consumer := PopTail) else s
    case ProducerGoes => Produce(s)
    case ConsumerGoes => Consume(s)
  }

  /** Any interleaving of the two threads. */
  function Run<T>(s: State<T>, schedule: seq<Act<T>>): (r: State<T>)
    requires |s.block| == SLOTS
    ensures |r.block| == SLOTS && r.max == s.max
    decreases |schedule|
  {
    if schedule == [] then s else Run(Exec(s, schedule[0]), schedule[1..])
  }

  // ----- The invariant -----

  ghost predicate RingOk<T>(s: State<T>) {
    && |s.block| == SLOTS
    && |s.popped| <= |s.pushed| <= |s.popped| + s.max && s.max <= SIZE_LIMIT
    && s.popped == s.pushed[..|s.popped|]
    && s.head == Slot(|s.pushed|) && s.tail == Slot(|s.popped|)
    && (forall k :: |s.popped| <= k < |s.pushed| ==> s.block[Slot(k)] == s.pushed[k])
  }

  ghost predicate Inv<T>(s: State<T>) {
    && RingOk(s)
    && (match s.producer
        case PushTail(_, idHead) => idHead == s.head
        case PushWrite(_, idHead) => idHead == s.head && |s.Contents()| < s.max
        case PushAdd(v) => s.block[s.head] == v && |s.Contents()| < s.max
        case _ => true)
    && (match s.consumer
        case PopHead(idTail) => idTail == s.tail
        case PopRead(idTail) => idTail == s.tail && s.Contents() != []
        case PopAdd(v) => s.Contents() != [] && v == s.Contents()[0]
        case _ => true)
  }

  lemma InitInv<T>(max: nat, blank: T)
    requires max <= SIZE_LIMIT
    ensures Inv(Init(max, blank))
  {
  }

  /** The wrapped difference of the indices is the number of values held, and the two
      tests of `push` together ask whether the queue is full. */
  lemma WrappedTests<T>(s: State<T>)
    requires RingOk(s)
    ensures U8(s.head - s.tail) == |s.Contents()|
    ensures (s.head == s.tail - 1 || U8(s.head - s.tail) >= s.max) <==> |s.Contents()| == s.max
    ensures s.head == s.tail <==> s.Contents() == []
  {
  }

  lemma WriteInv<T>(s: State<T>)
    requires Inv(s) && s.producer.PushWrite?
    ensures Inv(Produce(s))
  {
    var r := Produce(s);
    forall k | |s.popped| <= k < |s.pushed|
      ensures r.block[Slot(k)] == s.pushed[k]
    {
      if Slot(k) == Slot(|s.pushed|) {
        SlotsDiffer(k, |s.pushed|);
      }
    }
  }

  lemma PrefixKept<T>(q: seq<T>, v: T, n: nat)
    requires n <= |q|
    ensures (q + [v])[..n] == q[..n] && (q + [v])[n..] == q[n..] + [v]
  {
  }

  lemma AddRing<T>(s: State<T>, v: T)
    requires RingOk(s) && s.producer == PushAdd(v) && s.block[s.head] == v && |s.Contents()| < s.max
    ensures RingOk(Produce(s)) && Produce(s).Contents() == s.Contents() + [v]
  {
    var r := Produce(s);
    NextSlot(|s.pushed|);
    PrefixKept(s.pushed, v, |s.popped|);
    forall k | |r.popped| <= k < |r.pushed|
      ensures r.block[Slot(k)] == r.pushed[k]
    {
      assert k < |s.pushed| || k == |s.pushed|;
    }
  }

  lemma AddInv<T>(s: State<T>)
    requires Inv(s) && s.producer.PushAdd?
    ensures Inv(Produce(s))
  {
    AddRing(s, s.producer.val);
  }

  lemma ProduceInv<T>(s: State<T>)
    requires Inv(s)
    ensures Inv(Produce(s))
  {
    match s.producer
    case PushWrite(_, _) => WriteInv(s);
    case PushAdd(_) => AddInv(s);
    case PushTail(_, _) => WrappedTests(s);
    case _ =>
  }

  lemma TakeContents<T>(s: State<T>, v: T)
    requires |s.block| == SLOTS && s.consumer == PopAdd(v) && s.Contents() != [] && v == s.Contents()[0]
    ensures s.Contents() == [v] + Consume(s).Contents()
  {
  }

  lemma TakeRing<T>(s: State<T>, v: T)
    requires RingOk(s) && s.consumer == PopAdd(v) && s.Contents() != [] && v == s.Contents()[0]
    ensures RingOk(Consume(s)) && s.Contents() == [v] + Consume(s).Contents()
  {
    var r := Consume(s);
    TakeContents(s, v);
    NextSlot(|s.popped|);
    assert r.popped == r.pushed[..|r.popped|] by {
      assert s.pushed[..|s.popped| + 1] == s.pushed[..|s.popped|] + [v];
    }
  }

  lemma ConsumeInv<T>(s: State<T>)
    requires Inv(s)
    ensures Inv(Consume(s))
  {
    if s.consumer.PopAdd? {
      TakeRing(s, s.consumer.got);
    } else {
      WrappedTests(s);
    }
  }

  /** Every atomic access of either thread keeps the invariant. */
  lemma ExecInv<T>(s: State<T>, a: Act<T>)
    requires Inv(s)
    ensures Inv(Exec(s, a))
  {
    match a
    case ProducerGoes => ProduceInv(s);
    case ConsumerGoes => ConsumeInv(s);
    case _ =>
  }

  lemma {:induction false} RunInv<T>(s: State<T>, schedule: seq<Act<T>>)
    requires Inv(s)
    ensures Inv(Run(s, schedule))
    decreases |schedule|
  {
    if schedule != [] {
      ExecInv(s, schedule[0]);
      RunInv(Exec(s, schedule[0]), schedule[1..]);
    }
  }

  // ----- What the queue guarantees -----

  /** Linearizability of the producer: whether its push is refused is settled at its load
      of `tail_`, by whether the queue is full in that state, and its value enters the
      queue at its `fetch_add`; no other step of it changes the queue. */
  lemma ProducerLinearizes<T>(s: State<T>)
    requires Inv(s)
    ensures s.producer.PushTail? ==>
      (Produce(s).producer == PushDone(false) <==> |s.Contents()| == s.max) && Produce(s).Contents() == s.Contents()
    ensures s.producer.PushAdd? ==>
      Produce(s).producer == PushDone(true) && Produce(s).Contents() == s.Contents() + [s.producer.val]
    ensures !s.producer.PushAdd? ==>
      Produce(s).Contents() == s.Contents() && (Produce(s).producer == PushDone(true) ==> Produce(s) == s)
  {
    WrappedTests(s);
    assert s.producer.PushAdd? ==> Produce(s).Contents() == s.Contents() + [s.producer.val];
  }

  /** Linearizability of the consumer: an empty answer is settled at its load of `head_`,
      by whether the queue is empty in that state, and otherwise the oldest value leaves
      at its `fetch_add` and is the value returned. */
  lemma ConsumerLinearizes<T>(s: State<T>)
    requires Inv(s)
    ensures s.consumer.PopHead? ==>
      (Consume(s).consumer == PopDone(None) <==> s.Contents() == []) && Consume(s).Contents() == s.Contents()
    ensures s.consumer.PopAdd? ==>
      Consume(s).consumer.PopDone? && Consume(s).consumer.res.Some?
      && s.Contents() == [Consume(s).consumer.res.value] + Consume(s).Contents()
    ensures !s.consumer.PopAdd? ==> Consume(s).Contents() == s.Contents()
  {
    if s.consumer.PopAdd? {
      TakeContents(s, s.consumer.got);
    } else {
      WrappedTests(s);
    }
  }

  /** The four accesses of a push, while the consumer stands still. */
  lemma WholePush<T>(s: State<T>, v: T)
    requires Inv(s) && s.producer == PushHead(v)
    ensures var s2 := Produce(Produce(s));
      && s2.Contents() == s.Contents()
      && (if |s.Contents()| == s.max then s2.producer == PushDone(false)
          else s2.producer.PushWrite? && Produce(Produce(s2)).producer == PushDone(true)
               && Produce(Produce(s2)).Contents() == s.Contents() + [v])
  {
    ProduceInv(s);
    ProducerLinearizes(Produce(s));
    ProduceInv(Produce(s));
    if |s.Contents()| != s.max {
      ProduceInv(Produce(Produce(s)));
      ProducerLinearizes(Produce(Produce(Produce(s))));
    }
  }

  /** The four accesses of a pop, while the producer stands still. */
  lemma WholePop<T>(s: State<T>)
    requires Inv(s) && s.consumer.PopTail?
    ensures var s2 := Consume(Consume(s));
      && s2.Contents() == s.Contents()
      && (if s.Contents() == [] then s2.consumer == PopDone(None)
          else s2.consumer.PopRead? && Consume(Consume(s2)).consumer == PopDone(Some(s.Contents()[0]))
               && Consume(Consume(s2)).Contents() == s.Contents()[1..])
  {
    ConsumeInv(s);
    ConsumerLinearizes(Consume(s));
    ConsumeInv(Consume(s));
    if s.Contents() != [] {
      ConsumeInv(Consume(Consume(s)));
      ConsumerLinearizes(Consume(Consume(Consume(s))));
    }
  }

  /** The producer's write and the consumer's read never meet in one slot. */
  lemma NoSlotShared<T>(s: State<T>)
    requires Inv(s) && s.producer.PushWrite? && s.consumer.PopRead?
    ensures s.producer.idHead != s.consumer.idTail
  {
    WrappedTests(s);
  }

  /** In every interleaving the values popped are a prefix of the values pushed, and at
      most `max` values are held. */
  lemma FifoUnderAnyInterleaving<T>(max: nat, blank: T, schedule: seq<Act<T>>)
    requires max <= SIZE_LIMIT
    ensures var s := Run(Init(max, blank), schedule);
      s.popped <= s.pushed && |s.pushed| - |s.popped| <= max && s.pushed == s.popped + s.Contents()
  {
    InitInv(max, blank);
    RunInv(Init(max, blank), schedule);
  }

  // ----- The size limit -----

  /** The indices tell an empty queue from one that holds something. */
  ghost predicate EmptinessShows<T>(s: State<T>) {
    s.head == s.tail <==> |s.pushed| == |s.popped|
  }

  /** A whole push of `v`, then `rest`. */
  function PushThen<T>(v: T, rest: seq<Act<T>>): seq<Act<T>> {
    [CallPush(v)] + ([ProducerGoes] + ([ProducerGoes] + ([ProducerGoes] + ([ProducerGoes] + rest))))
  }

  /** `n` whole pushes of `v` in a row. */
  function Fill<T>(v: T, n: nat): seq<Act<T>> {
    if n == 0 then [] else PushThen(v, Fill(v, n - 1))
  }

  lemma RunFirst<T>(s: State<T>, a: Act<T>, rest: seq<Act<T>>)
    requires |s.block| == SLOTS
    ensures Run(s, [a] + rest) == Run(Exec(s, a), rest)
  {
    assert ([a] + rest)[1..] == rest;
  }

  lemma RunTwo<T>(s: State<T>, rest: seq<Act<T>>)
    requires |s.block| == SLOTS
    ensures Run(s, [ProducerGoes] + ([ProducerGoes] + rest)) == Run(Produce(Produce(s)), rest)
  {
    RunFirst(s, ProducerGoes, [ProducerGoes] + rest);
    RunFirst(Produce(s), ProducerGoes, rest);
  }

  function Pushed<T>(s: State<T>, v: T): State<T>
    requires |s.block| == SLOTS
  {
    s.(head := U8(s.head + 1), block := s.block[s.head := v], pushed := s.pushed + [v], producer := PushDone(true))
  }

  lemma FourProduce<T>(s: State<T>, v: T)
    requires |s.block| == SLOTS && s.max > SIZE_LIMIT && s.tail == 0 && s.producer == PushHead(v)
    ensures Produce(Produce(Produce(Produce(s)))) == Pushed(s, v)
  {
    var s2 := s.(producer := PushWrite(v, s.head));
    assert Produce(Produce(s)) == s2;
    assert Produce(Produce(s2)) == Pushed(s, v);
  }

  lemma OnePush<T>(s: State<T>, v: T, rest: seq<Act<T>>)
    requires |s.block| == SLOTS && s.max > SIZE_LIMIT && s.tail == 0
    requires s.producer.PushIdle? || s.producer.PushDone?
    ensures Run(s, PushThen(v, rest)) == Run(Pushed(s, v), rest)
  {
    var s1 := s.(producer := PushHead(v));
    var last := [ProducerGoes] + ([ProducerGoes] + rest);
    RunFirst(s, CallPush(v), [ProducerGoes] + ([ProducerGoes] + last));
    RunTwo(s1, last);
    RunTwo(Produce(Produce(s1)), rest);
    FourProduce(s1, v);
  }

  lemma WrapsOn(x: nat, n: nat)
    ensures U8(U8(x + 1) + n) == U8(x + 1 + n)
  {
  }

  lemma {:induction false} OverFill<T>(s: State<T>, v: T, n: nat)
    requires |s.block| == SLOTS && s.max > SIZE_LIMIT && s.tail == 0
    requires s.producer.PushIdle? || s.producer.PushDone?
    ensures Filled(s, Run(s, Fill(v, n)), n)
    decreases n
  {
    if n > 0 {
      OnePush(s, v, Fill(v, n - 1));
      OverFill(Pushed(s, v), v, n - 1);
      FilledOn(s, v, Run(s, Fill(v, n)), n);
    }
  }

  /** After `n` pushes none of which was refused. */
  ghost predicate Filled<T>(s: State<T>, r: State<T>, n: nat) {
    r.head == U8(s.head + n) && r.tail == s.tail && |r.pushed| == |s.pushed| + n && r.popped == s.popped
  }

  lemma FilledOn<T>(s: State<T>, v: T, r: State<T>, n: nat)
    requires |s.block| == SLOTS && n > 0 && Filled(Pushed(s, v), r, n - 1)
    ensures Filled(s, r, n)
  {
    WrapsOn(s.head, n - 1);
  }

  /** The bound on `max_size` is exact: the indices can be trusted in every interleaving
      if and only if `max_size` is at most 255. With more, the guard of the source against
      a full block compares with -1 when the tail is 0, and 256 pushes look like none. The
      ring for many threads compares in the index type and needs no such bound. */
  lemma SizeLimitIsExact<T(!new)>(max: nat, blank: T)
    ensures (forall schedule: seq<Act<T>> :: EmptinessShows(Run(Init(max, blank), schedule))) <==> max <= SIZE_LIMIT
  {
    if max <= SIZE_LIMIT {
      forall schedule: seq<Act<T>>
        ensures EmptinessShows(Run(Init(max, blank), schedule))
      {
        InitInv(max, blank);
        RunInv(Init(max, blank), schedule);
        WrappedTests(Run(Init(max, blank), schedule));
      }
    } else {
      OverFill(Init(max, blank), blank, SLOTS);
      assert !EmptinessShows(Run(Init(max, blank), Fill(blank, SLOTS)));
    }
  }

  // ----- The object -----

  class SpscQueue<T(0)> {
    const maxSize: nat
    const block: array<T>
    var head: byte
    var tail: byte
    var producer: Producer<T>
    var consumer: Consumer<T>
    ghost var pushed: seq<T>
    ghost var popped: seq<T>

    ghost function View(): State<T>
      reads this, block
    {
      State(maxSize, head, tail, block[..], producer, consumer, pushed, popped)
    }

    ghost predicate Valid()
      reads this, block
    {
      Inv(View())
    }

    ghost function Contents(): seq<T>
      reads this, block
    {
      View().Contents()
    }

    constructor (maxSize: nat, blank: T)
      ensures View() == Init(maxSize, blank) && fresh(block)
      ensures maxSize <= SIZE_LIMIT ==> Valid() && Contents() == []
    {
      this.maxSize := maxSize;
      block := new T[SLOTS](_ => blank);
      head, tail := 0, 0;
      producer, consumer := PushIdle, PopIdle;
      pushed, popped := [], [];
    }

    /** One atomic access of the producer, in place. */
    method ProducerStep()
      requires Valid()
      modifies `producer, `head, `pushed, block
      ensures Valid() && View() == Produce(old(View()))
    {
      ProduceInv(View());
      ProducerAccess();
    }

    method ProducerAccess()
      requires block.Length == SLOTS
      modifies `producer, `head, `pushed, block
      ensures View() == Produce(old(View()))
    {
      match producer
      case PushIdle | PushDone(_) =>
      case PushHead(v) =>
        producer := PushTail(v, head);
      case PushTail(v, idHead) =>
        if idHead == tail - 1 || U8(idHead - tail) >= maxSize {
          producer := PushDone(false);
        } else {
          producer := PushWrite(v, idHead);
        }
      case PushWrite(v, idHead) =>
        block[idHead] := v;
        producer := PushAdd(v);
      case PushAdd(v) =>
        head := U8(head + 1);
        pushed := pushed + [v];
        producer := PushDone(true);
    }

    /** One atomic access of the consumer, in place. */
    method ConsumerStep()
      requires Valid()
      modifies `consumer, `tail, `popped
      ensures Valid() && View() == Consume(old(View()))
    {
      ConsumeInv(View());
      ConsumerAccess();
    }

    method ConsumerAccess()
      requires block.Length == SLOTS
      modifies `consumer, `tail, `popped
      ensures View() == Consume(old(View()))
    {
      match consumer
      case PopIdle | PopDone(_) =>
      case PopTail =>
        consumer := PopHead(tail);
      case PopHead(idTail) =>
        if idTail == head {
          consumer := PopDone(None);
        } else {
          consumer := PopRead(idTail);
        }
      case PopRead(idTail) =>
        consumer := PopAdd(block[idTail]);
      case PopAdd(v) =>
        tail := U8(tail + 1);
        popped := popped + [v];
        consumer := PopDone(Some(v));
    }

    /** `push` while the consumer stands still, wherever it is. */
    method Push(val: T) returns (ok: bool)
      requires Valid() && (producer.PushIdle? || producer.PushDone?)
      modifies `producer, `head, `pushed, block
      ensures Valid() && producer.PushDone?
      ensures ok <==> |old(Contents())| < maxSize
      ensures Contents() == if ok then old(Contents()) + [val] else old(Contents())
    {
      producer := PushHead(val);
      WholePush(View(), val);
      ProducerStep();
      ProducerStep();
      if producer.PushDone? {
        return false;
      }
      ProducerStep();
      ProducerStep();
      return true;
    }

    /** `pop` while the producer stands still, wherever it is. */
    method Pop() returns (res: Option<T>)
      requires Valid() && (consumer.PopIdle? || consumer.PopDone?)
      modifies `consumer, `tail, `popped
      ensures Valid() && consumer.PopDone?
      ensures res == None <==> old(Contents()) == []
      ensures if res == None then Contents() == [] else old(Contents()) == [res.value] + Contents()
    {
      consumer := PopTail;
      WholePop(View());
      HeadAndRest(Contents());
      ConsumerStep();
      ConsumerStep();
      if consumer.PopDone? {
        return None;
      }
      ConsumerStep();
      ConsumerStep();
      return consumer.res;
    }

    /** One round on a full queue: the pop makes room and the push uses it. */
    method MakeRoomAndPush(val: T, ghost held: seq<T>) returns (ok: bool)
      requires Valid() && maxSize >= 1
      requires (producer.PushIdle? || producer.PushDone?) && (consumer.PopIdle? || consumer.PopDone?)
      requires Contents() == held && |held| == maxSize
      modifies this, block
      ensures Valid() && producer.PushDone? && consumer.PopDone? && ok && Contents() == held[1..] + [val]
    {
      var dropped := Pop();
      RestIs(held, dropped.value, Contents());
      ok := Push(val);
    }

    /** `push_until_success` by one thread that plays both parts: the newest values stay,
        `val` last. */
    method PushUntilSuccess(val: T)
      requires Valid() && maxSize >= 1
      requires (producer.PushIdle? || producer.PushDone?) && (consumer.PopIdle? || consumer.PopDone?)
      modifies this, block
      ensures Valid()
      ensures Contents() == Newest(old(Contents()) + [val], maxSize)
    {
      ghost var held, target := Contents(), Newest(Contents() + [val], maxSize);
      HeldAtMostMax();
      Target(held, val, maxSize, target);
      var ok := Push(val);
      while !ok
        invariant Valid() && producer.PushDone? && (consumer.PopIdle? || consumer.PopDone?)
        invariant if ok then Contents() == target else Contents() == held && |held| == maxSize
        decreases !ok
      {
        ok := MakeRoomAndPush(val, held);
      }
    }

    lemma HeldAtMostMax()
      requires Valid()
      ensures |Contents()| <= maxSize
    {
    }
  }

  lemma Target<T>(held: seq<T>, val: T, n: nat, target: seq<T>)
    requires |held| <= n && n >= 1 && target == Newest(held + [val], n)
    ensures target == if |held| < n then held + [val] else held[1..] + [val]
  {
    NewestOfOneMore(held, val, n);
  }

  lemma RestIs<T>(q: seq<T>, v: T, rest: seq<T>)
    requires q == [v] + rest
    ensures rest == q[1..]
  {
  }

  lemma HeadAndRest<T>(q: seq<T>)
    ensures q != [] ==> q == [q[0]] + q[1..]
  {
  }

  /** With `max_size` 0 every push is refused, so `push_until_success` never ends. */
  lemma NothingFits<T>(s: State<T>)
    requires Inv(s) && s.max == 0 && s.producer.PushTail?
    ensures Produce(s).producer == PushDone(false) && s.Contents() == []
  {
    ProducerLinearizes(s);
  }
}
