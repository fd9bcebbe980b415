/**
 What one whole call of `push` or `pop` does to the ring, from the call to its answer,
 beside any other threads under every schedule: on the ticket ring, and on the 8-bit code
 with or without hazards.
 */
module MpmcCalls {
  import opened Common
  import opened Indexes
  import opened MpmcProtocol
  import K = MpmcTickets
  import C = MpmcCode
  import G = MpmcGuarantees

  /** Where a push of `v` may stand that has done `made` so far. */
  predicate PushSoFar<T(==), I, M>(l: Local<T, I, M>, v: T, made: seq<Event<T>>) {
    match l
    case PushFlag(w) => w == v && made == []
    case PushTail(w, _) => w == v && made == []
    case PushReserve(w, _, _) => w == v && made == []
    case PushWrite(w, _) => w == v && made == [Append(v)]
    case PushDone(ok) => made == PushDoes(v, ok)
    case _ => !l.Idle? && !l.PopDone? && !l.InPop() && made == [Append(v)]
  }

  /** Where a call may stand. */
  predicate SoFar<T(==), I, M>(l: Local<T, I, M>, call: Act<T>, made: seq<Event<T>>) {
    match call
    case CallPush(v) => PushSoFar(l, v, made)
    case CallPop => if l.PopDone? then made == PopDoes(l.res) else l.InPop() && made == []
    case Go(_) => false
  }

  // ----- On the ticket ring -----

  function Made<T>(s: K.State<T>, r: K.State<T>): seq<Event<T>> {
    Grown(s.reserved, s.popped, r.reserved, r.popped)
  }

  /** The state in which the call that `t` is inside has answered, or else the last one. */
  function Answered<T>(s: K.State<T>, t: nat, schedule: seq<Choice<T>>): (r: K.State<T>)
    requires s.Shaped() && t < |s.threads|
    ensures |r.threads| == |s.threads|
    decreases |schedule|
  {
    if schedule == [] || s.threads[t].AtRest() then s
    else Answered(K.Exec(s, schedule[0].thread, schedule[0].act), t, schedule[1..])
  }

  /** What that call has done by then, while other threads do what they do. */
  function Makes<T>(s: K.State<T>, t: nat, schedule: seq<Choice<T>>): seq<Event<T>>
    requires s.Shaped() && t < |s.threads|
    decreases |schedule|
  {
    if schedule == [] || s.threads[t].AtRest() then []
    else
      var r := K.Exec(s, schedule[0].thread, schedule[0].act);
      (if schedule[0].thread == t then Made(s, r) else []) + Makes(r, t, schedule[1..])
  }

  lemma OtherStep<T>(s: K.State<T>, t: nat, ch: Choice<T>)
    requires s.Shaped() && t < |s.threads| && ch.thread != t
    ensures K.Exec(s, ch.thread, ch.act).threads[t] == s.threads[t]
  {
  }

  lemma PushStep<T>(s: K.State<T>, t: nat, a: Act<T>, v: T, made: seq<Event<T>>)
    requires s.Shaped() && t < |s.threads| && !s.threads[t].AtRest() && PushSoFar(s.threads[t], v, made)
    ensures var r := K.Exec(s, t, a); PushSoFar(r.threads[t], v, made + Made(s, r))
  {
    var r := K.Exec(s, t, a);
    if !(s.threads[t].PushReserve? && r.threads[t].PushWrite?) {
      assert Made(s, r) == [] && made + [] == made;
    }
  }

  lemma PopStep<T>(s: K.State<T>, t: nat, a: Act<T>)
    requires s.Shaped() && t < |s.threads| && s.threads[t].InPop()
    ensures var r := K.Exec(s, t, a); SoFar(r.threads[t], CallPop, Made(s, r))
  {
  }

  lemma CallStep<T>(s: K.State<T>, t: nat, ch: Choice<T>, call: Act<T>, made: seq<Event<T>>)
    requires s.Shaped() && t < |s.threads| && !s.threads[t].AtRest() && SoFar(s.threads[t], call, made)
    ensures var r := K.Exec(s, ch.thread, ch.act);
      SoFar(r.threads[t], call, made + if ch.thread == t then Made(s, r) else [])
  {
    if ch.thread != t {
      OtherStep(s, t, ch);
      assert made + [] == made;
    } else if call.CallPush? {
      PushStep(s, t, ch.act, call.val, made);
    } else {
      PopStep(s, t, ch.act);
      assert [] + Made(s, K.Exec(s, t, ch.act)) == Made(s, K.Exec(s, t, ch.act));
    }
  }

  lemma {:induction false} CallGoesOn<T>(
      s: K.State<T>, t: nat, schedule: seq<Choice<T>>, call: Act<T>, made: seq<Event<T>>)
    requires s.Shaped() && t < |s.threads| && SoFar(s.threads[t], call, made)
    ensures SoFar(Answered(s, t, schedule).threads[t], call, made + Makes(s, t, schedule))
    decreases |schedule|
  {
    if schedule == [] || s.threads[t].AtRest() {
      assert made + [] == made;
    } else {
      var r := K.Exec(s, schedule[0].thread, schedule[0].act);
      var more := if schedule[0].thread == t then Made(s, r) else [];
      CallStep(s, t, schedule[0], call, made);
      CallGoesOn(r, t, schedule[1..], call, made + more);
      Reassociate(made, more, Makes(r, t, schedule[1..]));
    }
  }

  /** Under every schedule: a push that answers true has appended its value, once, and done
      nothing else to the queue; one that answers false has done nothing to it. */
  lemma PushAccounts<T>(s: K.State<T>, t: nat, v: T, schedule: seq<Choice<T>>)
    requires s.Shaped() && t < |s.threads| && s.threads[t].AtRest()
    ensures var c := K.Exec(s, t, CallPush(v));
      var l := Answered(c, t, schedule).threads[t];
      l.AtRest() ==> l.PushDone? && Makes(c, t, schedule) == PushDoes(v, l.ok)
  {
    var c := K.Exec(s, t, CallPush(v));
    CallGoesOn(c, t, schedule, CallPush(v), []);
    assert [] + Makes(c, t, schedule) == Makes(c, t, schedule);
  }

  /** A pop that answers with a value has removed just that value, once; one that answers
      "empty" has done nothing to the queue. */
  lemma PopAccounts<T>(s: K.State<T>, t: nat, schedule: seq<Choice<T>>)
    requires s.Shaped() && t < |s.threads| && s.threads[t].AtRest()
    ensures var c := K.Exec(s, t, CallPop);
      var l := Answered(c, t, schedule).threads[t];
      l.AtRest() ==> l.PopDone? && Makes(c, t, schedule) == PopDoes(l.res)
  {
    var c := K.Exec(s, t, CallPop);
    CallGoesOn(c, t, schedule, CallPop, []);
    assert [] + Makes(c, t, schedule) == Makes(c, t, schedule);
  }

  /** These are the queue's own steps: what a step has made is what became of the queue. */
  lemma MadeIsQueueStep<T>(s: K.State<T>, t: nat, a: Act<T>)
    requires K.Inv(s) && t < |s.threads|
    ensures K.Inv(K.Exec(s, t, a)) && |Made(s, K.Exec(s, t, a))| <= 1
    ensures var r := K.Exec(s, t, a);
      QueueStep(s.Contents(), if Made(s, r) == [] then Silent else Made(s, r)[0], r.Contents())
  {
    G.StepRefinesQueue(s, t, a);
  }

  /** "Full" and "empty" are answered where the code looks for them, and nowhere else: at
      the load of `tail_` that makes the ring look full, and at a mark that is not ready. */
  lemma RefusalsAreLooks<T>(s: K.State<T>, t: nat, a: Act<T>)
    requires s.Shaped() && t < |s.threads| && !s.threads[t].AtRest()
    ensures var l := s.threads[t];
      K.Exec(s, t, a).threads[t] == PushDone(false) <==> a.Go? && l.PushTail? && K.LooksFull(l.cur, s.tail, s.max)
    ensures var l := s.threads[t];
      K.Exec(s, t, a).threads[t] == PopDone(None) <==>
      a.Go? && l.PopCheck? && s.marks[Slot(l.curHead)] != K.Ticket(l.curHead)
  {
  }

  // ----- On the 8-bit code -----

  function CodeMade<T>(s: C.State<T>, r: C.State<T>): seq<Event<T>> {
    Grown(s.reserved, s.popped, r.reserved, r.popped)
  }

  function CodeAnswered<T>(s: C.State<T>, t: nat, schedule: seq<Choice<T>>): (r: C.State<T>)
    requires s.Shaped() && t < |s.threads|
    ensures |r.threads| == |s.threads|
    decreases |schedule|
  {
    if schedule == [] || s.threads[t].AtRest() then s
    else CodeAnswered(C.Exec(s, schedule[0].thread, schedule[0].act), t, schedule[1..])
  }

  function CodeMakes<T>(s: C.State<T>, t: nat, schedule: seq<Choice<T>>): seq<Event<T>>
    requires s.Shaped() && t < |s.threads|
    decreases |schedule|
  {
    if schedule == [] || s.threads[t].AtRest() then []
    else
      var r := C.Exec(s, schedule[0].thread, schedule[0].act);
      (if schedule[0].thread == t then CodeMade(s, r) else []) + CodeMakes(r, t, schedule[1..])
  }

  lemma CodeOtherStep<T>(s: C.State<T>, t: nat, ch: Choice<T>)
    requires s.Shaped() && t < |s.threads| && ch.thread != t
    ensures C.Exec(s, ch.thread, ch.act).threads[t] == s.threads[t]
  {
  }

  lemma CodePushStep<T>(s: C.State<T>, t: nat, a: Act<T>, v: T, made: seq<Event<T>>)
    requires s.Shaped() && t < |s.threads| && !s.threads[t].AtRest() && PushSoFar(s.threads[t], v, made)
    ensures var r := C.Exec(s, t, a); PushSoFar(r.threads[t], v, made + CodeMade(s, r))
  {
    var r := C.Exec(s, t, a);
    if !(s.threads[t].PushReserve? && r.threads[t].PushWrite?) {
      assert CodeMade(s, r) == [] && made + [] == made;
    }
  }

  lemma CodePopStep<T>(s: C.State<T>, t: nat, a: Act<T>)
    requires s.Shaped() && t < |s.threads| && s.threads[t].InPop()
    ensures var r := C.Exec(s, t, a); SoFar(r.threads[t], CallPop, CodeMade(s, r))
  {
  }

  lemma CodeCallStep<T>(s: C.State<T>, t: nat, ch: Choice<T>, call: Act<T>, made: seq<Event<T>>)
    requires s.Shaped() && t < |s.threads| && !s.threads[t].AtRest() && SoFar(s.threads[t], call, made)
    ensures var r := C.Exec(s, ch.thread, ch.act);
      SoFar(r.threads[t], call, made + if ch.thread == t then CodeMade(s, r) else [])
  {
    if ch.thread != t {
      CodeOtherStep(s, t, ch);
      assert made + [] == made;
    } else if call.CallPush? {
      CodePushStep(s, t, ch.act, call.val, made);
    } else {
      CodePopStep(s, t, ch.act);
      assert [] + CodeMade(s, C.Exec(s, t, ch.act)) == CodeMade(s, C.Exec(s, t, ch.act));
    }
  }

  lemma {:induction false} CodeCallGoesOn<T>(
      s: C.State<T>, t: nat, schedule: seq<Choice<T>>, call: Act<T>, made: seq<Event<T>>)
    requires s.Shaped() && t < |s.threads| && SoFar(s.threads[t], call, made)
    ensures SoFar(CodeAnswered(s, t, schedule).threads[t], call, made + CodeMakes(s, t, schedule))
    decreases |schedule|
  {
    if schedule == [] || s.threads[t].AtRest() {
      assert made + [] == made;
    } else {
      var r := C.Exec(s, schedule[0].thread, schedule[0].act);
      var more := if schedule[0].thread == t then CodeMade(s, r) else [];
      CodeCallStep(s, t, schedule[0], call, made);
      CodeCallGoesOn(r, t, schedule[1..], call, made + more);
      Reassociate(made, more, CodeMakes(r, t, schedule[1..]));
    }
  }

  /** The same of the code, whatever the wrapped comparisons meet. */
  lemma CodePushAccounts<T>(s: C.State<T>, t: nat, v: T, schedule: seq<Choice<T>>)
    requires s.Shaped() && t < |s.threads| && s.threads[t].AtRest()
    ensures var c := C.Exec(s, t, CallPush(v));
      var l := CodeAnswered(c, t, schedule).threads[t];
      l.AtRest() ==> l.PushDone? && CodeMakes(c, t, schedule) == PushDoes(v, l.ok)
  {
    var c := C.Exec(s, t, CallPush(v));
    CodeCallGoesOn(c, t, schedule, CallPush(v), []);
    assert [] + CodeMakes(c, t, schedule) == CodeMakes(c, t, schedule);
  }

  lemma CodePopAccounts<T>(s: C.State<T>, t: nat, schedule: seq<Choice<T>>)
    requires s.Shaped() && t < |s.threads| && s.threads[t].AtRest()
    ensures var c := C.Exec(s, t, CallPop);
      var l := CodeAnswered(c, t, schedule).threads[t];
      l.AtRest() ==> l.PopDone? && CodeMakes(c, t, schedule) == PopDoes(l.res)
  {
    var c := C.Exec(s, t, CallPop);
    CodeCallGoesOn(c, t, schedule, CallPop, []);
    assert [] + CodeMakes(c, t, schedule) == CodeMakes(c, t, schedule);
  }
}
