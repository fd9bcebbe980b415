/**
 What one whole call of `push` or `pop` does to the linked queue, from the call to its
 answer, beside any other threads under every schedule; and how the values returned add up
 to the values popped.
 */
module MpmcListCalls {
  import opened Common
  import opened MpmcListMachine
  import G = MpmcListGuarantees

  function Made<T>(m: Store<T>, r: Store<T>): seq<Event<T>> {
    Grown(m.linked, m.popped, r.linked, r.popped)
  }

  /** Where a push of `v` may stand that has done `made` so far. */
  predicate PushSoFar<T(==)>(l: Thread<T>, v: T, made: seq<Event<T>>) {
    match l
    case PushAlloc(w) => w == v && made == []
    case PushTail(w, _) => w == v && made == []
    case PushNext(w, _, _) => w == v && made == []
    case PushCheck(w, _, _, _, _) => w == v && made == []
    case PushLink(w, _, _, _) => w == v && made == []
    case PushHelp(w, _, _, _) => w == v && made == []
    case PushSwing(_, _) => made == [Append(v)]
    case PushDone => made == [Append(v)]
    case _ => false
  }

  /** Where a pop may stand: between its exchange and its answer it carries the value. */
  predicate PopSoFar<T(==)>(l: Thread<T>, made: seq<Event<T>>) {
    match l
    case PopFree(_, v) => made == [Remove(v)]
    case PopDone(res) => made == PopDoes(res)
    case NullDereference => made == []
    case _ => l.InPop() && made == []
  }

  predicate SoFar<T(==)>(l: Thread<T>, call: Act<T>, made: seq<Event<T>>) {
    match call
    case CallPush(v) => PushSoFar(l, v, made)
    case CallPop => PopSoFar(l, made)
    case _ => false
  }

  /** The call that `t` is inside is over, or can be followed no further. */
  predicate Over<T>(s: State<T>, t: nat, schedule: seq<Choice<T>>)
    requires t < |s.threads|
  {
    schedule == [] || s.threads[t].AtRest() || !s.Mapped()
  }

  /** The state in which that call has answered, or else the last one. */
  function Answered<T>(s: State<T>, t: nat, schedule: seq<Choice<T>>): (r: State<T>)
    requires t < |s.threads|
    ensures |r.threads| == |s.threads|
    decreases |schedule|
  {
    if Over(s, t, schedule) then s
    else Answered(Exec(s, schedule[0].thread, schedule[0].act), t, schedule[1..])
  }

  /** What that call has done by then, while other threads do what they do. */
  function Makes<T>(s: State<T>, t: nat, schedule: seq<Choice<T>>): seq<Event<T>>
    requires t < |s.threads|
    decreases |schedule|
  {
    if Over(s, t, schedule) then []
    else
      var r := Exec(s, schedule[0].thread, schedule[0].act);
      (if schedule[0].thread == t then Made(s.m, r.m) else []) + Makes(r, t, schedule[1..])
  }

  lemma OtherStep<T>(s: State<T>, t: nat, ch: Choice<T>)
    requires s.Mapped() && t < |s.threads| && ch.thread != t
    ensures Exec(s, ch.thread, ch.act).threads[t] == s.threads[t]
  {
  }

  lemma PushStep<T>(s: State<T>, t: nat, a: Act<T>, v: T, made: seq<Event<T>>)
    requires s.Mapped() && t < |s.threads| && !s.threads[t].AtRest() && PushSoFar(s.threads[t], v, made)
    ensures var r := Exec(s, t, a); PushSoFar(r.threads[t], v, made + Made(s.m, r.m))
  {
    var r := Exec(s, t, a);
    if !(s.threads[t].PushLink? && r.threads[t].PushSwing?) {
      assert Made(s.m, r.m) == [] && made + [] == made;
    }
  }

  lemma PopStep<T>(s: State<T>, t: nat, a: Act<T>, made: seq<Event<T>>)
    requires s.Mapped() && t < |s.threads| && !s.threads[t].AtRest() && PopSoFar(s.threads[t], made)
    ensures var r := Exec(s, t, a); PopSoFar(r.threads[t], made + Made(s.m, r.m))
  {
    var r := Exec(s, t, a);
    if !(s.threads[t].PopTake? && r.threads[t].PopFree?) {
      assert Made(s.m, r.m) == [] && made + [] == made;
    }
  }

  lemma CallStep<T>(s: State<T>, t: nat, ch: Choice<T>, call: Act<T>, made: seq<Event<T>>)
    requires s.Mapped() && t < |s.threads| && !s.threads[t].AtRest() && SoFar(s.threads[t], call, made)
    ensures var r := Exec(s, ch.thread, ch.act);
      SoFar(r.threads[t], call, made + if ch.thread == t then Made(s.m, r.m) else [])
  {
    if ch.thread != t {
      OtherStep(s, t, ch);
      assert made + [] == made;
    } else if call.CallPush? {
      PushStep(s, t, ch.act, call.val, made);
    } else {
      PopStep(s, t, ch.act, made);
    }
  }

  lemma {:induction false} CallGoesOn<T>(
      s: State<T>, t: nat, schedule: seq<Choice<T>>, call: Act<T>, made: seq<Event<T>>)
    requires t < |s.threads| && SoFar(s.threads[t], call, made)
    ensures SoFar(Answered(s, t, schedule).threads[t], call, made + Makes(s, t, schedule))
    decreases |schedule|
  {
    if Over(s, t, schedule) {
      assert made + [] == made;
    } else {
      var r := Exec(s, schedule[0].thread, schedule[0].act);
      var more := if schedule[0].thread == t then Made(s.m, r.m) else [];
      CallStep(s, t, schedule[0], call, made);
      CallGoesOn(r, t, schedule[1..], call, made + more);
      Reassociate(made, more, Makes(r, t, schedule[1..]));
    }
  }

  /** Under every schedule, with or without misled exchanges: a push that returns has
      linked its value, once, and done nothing else to the queue. */
  lemma PushAccounts<T>(s: State<T>, t: nat, v: T, schedule: seq<Choice<T>>)
    requires s.Mapped() && t < |s.threads| && s.threads[t].AtRest()
    ensures var c := Exec(s, t, CallPush(v));
      var l := Answered(c, t, schedule).threads[t];
      l.AtRest() ==> l == PushDone && Makes(c, t, schedule) == [Append(v)]
  {
    var c := Exec(s, t, CallPush(v));
    CallGoesOn(c, t, schedule, CallPush(v), []);
    assert [] + Makes(c, t, schedule) == Makes(c, t, schedule);
  }

  /** A pop that returns a value has removed just that value, once; one that answers "empty"
      has done nothing to the queue. */
  lemma PopAccounts<T>(s: State<T>, t: nat, schedule: seq<Choice<T>>)
    requires s.Mapped() && t < |s.threads| && s.threads[t].AtRest()
    ensures var c := Exec(s, t, CallPop);
      var l := Answered(c, t, schedule).threads[t];
      l.AtRest() ==> l.PopDone? && Makes(c, t, schedule) == PopDoes(l.res)
  {
    var c := Exec(s, t, CallPop);
    CallGoesOn(c, t, schedule, CallPop, []);
    assert [] + Makes(c, t, schedule) == Makes(c, t, schedule);
  }

  lemma MadeIsEvent<T>(s: State<T>, t: nat, a: Act<T>)
    requires s.Mapped() && t < |s.threads|
    ensures var r := Exec(s, t, a);
      Made(s.m, r.m) ==
      if G.EventOf(s.threads[t], r.threads[t]) == Silent then [] else [G.EventOf(s.threads[t], r.threads[t])]
  {
  }

  /** These are the queue's own steps. */
  lemma MadeIsQueueStep<T>(s: State<T>, t: nat, a: Act<T>)
    requires Inv(s) && s.Mapped() && t < |s.threads|
    ensures var r := Exec(s, t, a);
      && r.m.head.tag <= |r.m.linked| && |Made(s.m, r.m)| <= 1
      && QueueStep(s.m.Contents(), if Made(s.m, r.m) == [] then Silent else Made(s.m, r.m)[0], r.m.Contents())
  {
    G.StepRefinesQueue(s, t, a);
    MadeIsEvent(s, t, a);
  }

  // ----- Whole executions -----

  function CarriedBy<T>(l: Thread<T>): multiset<T> {
    if l.PopFree? then multiset{l.got} else multiset{}
  }

  /** The values that pops have taken out of the queue and are about to return. */
  function Carried<T>(threads: seq<Thread<T>>): multiset<T> {
    if threads == [] then multiset{} else CarriedBy(threads[0]) + Carried(threads[1..])
  }

  /** The value that a step from `l` to `k` returns to the caller of a pop. */
  function ReturnedNow<T>(l: Thread<T>, k: Thread<T>): multiset<T> {
    if l.InPop() && k.PopDone? && k.res.Some? then multiset{k.res.value} else multiset{}
  }

  function ReturnedAt<T>(s: State<T>, t: nat, r: State<T>): multiset<T> {
    if t < |s.threads| && t < |r.threads| then ReturnedNow(s.threads[t], r.threads[t]) else multiset{}
  }

  /** The values returned in the first `i` steps. */
  function Returned<T>(tr: seq<State<T>>, schedule: seq<Choice<T>>, i: nat): multiset<T>
    requires i <= |schedule| < |tr|
  {
    if i == 0 then multiset{}
    else Returned(tr, schedule, i - 1) + ReturnedAt(tr[i - 1], schedule[i - 1].thread, tr[i])
  }

  lemma Beside<T>(own: multiset<T>, a: multiset<T>, x: multiset<T>, b: multiset<T>, y: multiset<T>)
    requires a + x == b + y
    ensures own + a + x == own + b + y
  {
    forall v
      ensures (own + a + x)[v] == (own + b + y)[v]
    {
      assert (a + x)[v] == (b + y)[v];
    }
  }

  lemma {:induction false} CarriedUpdate<T>(threads: seq<Thread<T>>, t: nat, l: Thread<T>)
    requires t < |threads|
    ensures Carried(threads[t := l]) + CarriedBy(threads[t]) == Carried(threads) + CarriedBy(l)
  {
    if t == 0 {
      assert threads[t := l][1..] == threads[1..];
    } else {
      CarriedUpdate(threads[1..], t - 1, l);
      var rest := threads[1..];
      assert threads[t := l][1..] == rest[t - 1 := l] && rest[t - 1] == threads[t];
      Beside(CarriedBy(threads[0]), Carried(rest[t - 1 := l]), CarriedBy(threads[t]), Carried(rest), CarriedBy(l));
    }
  }

  lemma OnlyOwnThread<T>(s: State<T>, ch: Choice<T>)
    requires s.Mapped() && ch.thread < |s.threads|
    ensures var r := Exec(s, ch.thread, ch.act); r.threads == s.threads[ch.thread := r.threads[ch.thread]]
  {
  }

  lemma Exchange<T>(p: multiset<T>, p1: multiset<T>, c: multiset<T>, c1: multiset<T>,
                    b: multiset<T>, b1: multiset<T>, now: multiset<T>)
    requires p1 + b == p + b1 + now && c1 + b == c + b1
    ensures p1 + c == p + c1 + now
  {
    forall x
      ensures (p1 + c)[x] == (p + c1 + now)[x]
    {
      assert (p1 + b)[x] == (p + b1 + now)[x] && (c1 + b)[x] == (c + b1)[x];
    }
  }

  lemma Balance<T>(p: multiset<T>, p1: multiset<T>, c: multiset<T>, c1: multiset<T>, ret: multiset<T>, now: multiset<T>)
    requires p == ret + c && p1 + c == p + c1 + now
    ensures p1 == ret + now + c1
  {
    forall x
      ensures p1[x] == (ret + now + c1)[x]
    {
      assert (p1 + c)[x] == (p + c1 + now)[x];
    }
  }

  lemma StepReturns<T>(s: State<T>, ch: Choice<T>)
    requires s.Mapped()
    ensures var r := Exec(s, ch.thread, ch.act);
      multiset(r.m.popped) + Carried(s.threads)
      == multiset(s.m.popped) + Carried(r.threads) + ReturnedAt(s, ch.thread, r)
  {
    var t, r := ch.thread, Exec(s, ch.thread, ch.act);
    if t < |s.threads| {
      OnlyOwnThread(s, ch);
      CarriedUpdate(s.threads, t, r.threads[t]);
      StepHands(s, ch);
      HandsCarry(s.threads[t], r.threads[t], s.m.popped, r.m.popped);
      Exchange(multiset(s.m.popped), multiset(r.m.popped), Carried(s.threads), Carried(r.threads),
               CarriedBy(s.threads[t]), CarriedBy(r.threads[t]), ReturnedNow(s.threads[t], r.threads[t]));
    }
  }

  /** A step takes a value out of the queue into a pop's hands, or out of its hands to its
      caller, or does neither. */
  predicate Hands<T(==)>(l: Thread<T>, k: Thread<T>, popped: seq<T>, popped1: seq<T>) {
    if k.PopFree? && k != l then popped1 == popped + [k.got] && !l.PopFree?
    else
      && popped1 == popped
      && (k == l || if l.PopFree? then k == PopDone(Some(l.got)) else !(l.InPop() && k.PopDone? && k.res.Some?))
  }

  lemma StepHands<T>(s: State<T>, ch: Choice<T>)
    requires s.Mapped() && ch.thread < |s.threads|
    ensures var r := Exec(s, ch.thread, ch.act);
      Hands(s.threads[ch.thread], r.threads[ch.thread], s.m.popped, r.m.popped)
  {
  }

  lemma HandsCarry<T>(l: Thread<T>, k: Thread<T>, popped: seq<T>, popped1: seq<T>)
    requires Hands(l, k, popped, popped1)
    ensures multiset(popped1) + CarriedBy(l) == multiset(popped) + CarriedBy(k) + ReturnedNow(l, k)
  {
  }

  lemma {:induction false} NothingCarried<T>(threads: seq<Thread<T>>)
    requires forall t :: 0 <= t < |threads| ==> threads[t].Idle?
    ensures Carried(threads) == multiset{}
  {
    if threads != [] {
      NothingCarried(threads[1..]);
    }
  }

  lemma StepInExecution<T>(tr: seq<State<T>>, schedule: seq<Choice<T>>, i: nat)
    requires G.Execution(tr, schedule) && i < |schedule|
    ensures tr[i].Mapped() && tr[i + 1] == Exec(tr[i], schedule[i].thread, schedule[i].act)
  {
    assert G.StepAt(tr[i], schedule[i], tr[i + 1]);
  }

  /** In every execution from the start the values returned so far, with those about to be
      returned, are the values popped: none is returned twice and none is lost. */
  lemma {:induction false} ReturnedArePopped<T>(
      tr: seq<State<T>>, schedule: seq<Choice<T>>, i: nat, blank: T, threads: nat)
    requires G.Execution(tr, schedule) && tr[0] == Init(blank, threads) && i <= |schedule|
    ensures multiset(tr[i].m.popped) == Returned(tr, schedule, i) + Carried(tr[i].threads)
    decreases i
  {
    if i == 0 {
      NothingCarried(tr[0].threads);
    } else {
      var s, r := tr[i - 1], tr[i];
      ReturnedArePopped(tr, schedule, i - 1, blank, threads);
      StepInExecution(tr, schedule, i - 1);
      StepReturns(s, schedule[i - 1]);
      Balance(multiset(s.m.popped), multiset(r.m.popped), Carried(s.threads), Carried(r.threads),
              Returned(tr, schedule, i - 1), ReturnedAt(s, schedule[i - 1].thread, r));
    }
  }
}
