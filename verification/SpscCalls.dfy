/**
 What one whole call of `push` or `pop` does to the two-thread ring, whatever the other
 thread does meanwhile; and that no call waits for the other thread.
 */
module SpscCalls {
  import opened Common
  import opened Indexes
  import opened SpscRing

  function Made<T>(s: State<T>, r: State<T>): seq<Event<T>> {
    Grown(s.pushed, s.popped, r.pushed, r.popped)
  }

  predicate Resting<T>(s: State<T>, producer: bool) {
    if producer then s.producer.PushIdle? || s.producer.PushDone? else s.consumer.PopIdle? || s.consumer.PopDone?
  }

  /** The step is one of the producer, or of the consumer. */
  predicate Own<T>(a: Act<T>, producer: bool) {
    if producer then a.ProducerGoes? || a.CallPush? else a.ConsumerGoes? || a.CallPop?
  }

  /** The state in which the call of the producer, or of the consumer, has answered, or else
      the last one. */
  function Answered<T>(s: State<T>, producer: bool, schedule: seq<Act<T>>): State<T>
    requires |s.block| == SLOTS
    decreases |schedule|
  {
    if schedule == [] || Resting(s, producer) then s else Answered(Exec(s, schedule[0]), producer, schedule[1..])
  }

  /** What that call has done by then. */
  function Makes<T>(s: State<T>, producer: bool, schedule: seq<Act<T>>): seq<Event<T>>
    requires |s.block| == SLOTS
    decreases |schedule|
  {
    if schedule == [] || Resting(s, producer) then []
    else
      var r := Exec(s, schedule[0]);
      (if Own(schedule[0], producer) then Made(s, r) else []) + Makes(r, producer, schedule[1..])
  }

  predicate PushSoFar<T(==)>(l: Producer<T>, v: T, made: seq<Event<T>>) {
    match l
    case PushIdle => false
    case PushHead(w) => w == v && made == []
    case PushTail(w, _) => w == v && made == []
    case PushWrite(w, _) => w == v && made == []
    case PushAdd(w) => w == v && made == []
    case PushDone(ok) => made == PushDoes(v, ok)
  }

  predicate PopSoFar<T(==)>(l: Consumer<T>, made: seq<Event<T>>) {
    if l.PopDone? then made == PopDoes(l.res) else !l.PopIdle? && made == []
  }

  lemma PushStep<T>(s: State<T>, a: Act<T>, v: T, made: seq<Event<T>>)
    requires |s.block| == SLOTS && !Resting(s, true) && PushSoFar(s.producer, v, made)
    ensures var r := Exec(s, a); PushSoFar(r.producer, v, made + if Own(a, true) then Made(s, r) else [])
  {
    if !a.ProducerGoes? || !s.producer.PushAdd? {
      assert (if Own(a, true) then Made(s, Exec(s, a)) else []) == [] && made + [] == made;
    }
  }

  lemma PopStep<T>(s: State<T>, a: Act<T>, made: seq<Event<T>>)
    requires |s.block| == SLOTS && !Resting(s, false) && PopSoFar(s.consumer, made)
    ensures var r := Exec(s, a); PopSoFar(r.consumer, made + if Own(a, false) then Made(s, r) else [])
  {
    if !a.ConsumerGoes? || !s.consumer.PopAdd? {
      assert (if Own(a, false) then Made(s, Exec(s, a)) else []) == [] && made + [] == made;
    }
  }

  lemma {:induction false} PushGoesOn<T>(s: State<T>, schedule: seq<Act<T>>, v: T, made: seq<Event<T>>)
    requires |s.block| == SLOTS && PushSoFar(s.producer, v, made)
    ensures PushSoFar(Answered(s, true, schedule).producer, v, made + Makes(s, true, schedule))
    decreases |schedule|
  {
    if schedule == [] || Resting(s, true) {
      assert made + [] == made;
    } else {
      var r := Exec(s, schedule[0]);
      var more := if Own(schedule[0], true) then Made(s, r) else [];
      PushStep(s, schedule[0], v, made);
      PushGoesOn(r, schedule[1..], v, made + more);
      Reassociate(made, more, Makes(r, true, schedule[1..]));
    }
  }

  lemma {:induction false} PopGoesOn<T>(s: State<T>, schedule: seq<Act<T>>, made: seq<Event<T>>)
    requires |s.block| == SLOTS && PopSoFar(s.consumer, made)
    ensures PopSoFar(Answered(s, false, schedule).consumer, made + Makes(s, false, schedule))
    decreases |schedule|
  {
    if schedule == [] || Resting(s, false) {
      assert made + [] == made;
    } else {
      var r := Exec(s, schedule[0]);
      var more := if Own(schedule[0], false) then Made(s, r) else [];
      PopStep(s, schedule[0], made);
      PopGoesOn(r, schedule[1..], made + more);
      Reassociate(made, more, Makes(r, false, schedule[1..]));
    }
  }

  /** Whatever the consumer does meanwhile: a push that answers true has appended its value,
      once, and done nothing else to the queue; one that answers false has done nothing. */
  lemma PushAccounts<T>(s: State<T>, v: T, schedule: seq<Act<T>>)
    requires |s.block| == SLOTS && Resting(s, true)
    ensures var c := Exec(s, CallPush(v));
      var r := Answered(c, true, schedule);
      Resting(r, true) ==> r.producer.PushDone? && Makes(c, true, schedule) == PushDoes(v, r.producer.ok)
  {
    var c := Exec(s, CallPush(v));
    PushGoesOn(c, schedule, v, []);
    assert [] + Makes(c, true, schedule) == Makes(c, true, schedule);
  }

  /** And a pop has removed just the value it answers with, once. */
  lemma PopAccounts<T>(s: State<T>, schedule: seq<Act<T>>)
    requires |s.block| == SLOTS && Resting(s, false)
    ensures var c := Exec(s, CallPop);
      var r := Answered(c, false, schedule);
      Resting(r, false) ==> r.consumer.PopDone? && Makes(c, false, schedule) == PopDoes(r.consumer.res)
  {
    var c := Exec(s, CallPop);
    PopGoesOn(c, schedule, []);
    assert [] + Makes(c, false, schedule) == Makes(c, false, schedule);
  }

  // ----- No call waits -----

  /** The accesses a call still takes, at most. */
  function Rank<T>(s: State<T>, producer: bool): nat {
    if producer then
      match s.producer
      case PushHead(_) => 4
      case PushTail(_, _) => 3
      case PushWrite(_, _) => 2
      case PushAdd(_) => 1
      case _ => 0
    else
      match s.consumer
      case PopTail => 4
      case PopHead(_) => 3
      case PopRead(_) => 2
      case PopAdd(_) => 1
      case _ => 0
  }

  /** Wait-free: each access of its own brings a call nearer to its answer and no step of
      the other thread takes it further away, so a call ends with its fourth access. */
  lemma CallsAreWaitFree<T>(s: State<T>, producer: bool, a: Act<T>)
    requires |s.block| == SLOTS && !Resting(s, producer)
    ensures Rank(Exec(s, a), producer) <= Rank(s, producer) <= 4 && Rank(s, producer) > 0
    ensures a == (if producer then ProducerGoes else ConsumerGoes) ==> Rank(Exec(s, a), producer) < Rank(s, producer)
    ensures Rank(Exec(s, a), producer) == 0 ==> Resting(Exec(s, a), producer)
  {
  }
}
