/** What several of the models share. */
module Common {

  datatype Option<T> = None | Some(value: T)

  /** `s` with `x` at place `k`, if it has such a place. */
  function SetAt<T>(s: seq<T>, k: nat, x: T): (r: seq<T>)
    ensures |r| == |s|
  {
    if k < |s| then s[k := x] else s
  }

  lemma Reassociate<T>(a: seq<T>, b: seq<T>, c: seq<T>)
    ensures a + (b + c) == a + b + c
  {
  }

  /** Two steps of a queue together: what goes in at the back and what comes out in front. */
  lemma Relay<T>(a: seq<T>, inA: seq<T>, outA: seq<T>, b: seq<T>, inB: seq<T>, outB: seq<T>, c: seq<T>)
    requires a + inA == outA + b && b + inB == outB + c
    ensures a + (inA + inB) == (outA + outB) + c
  {
    Reassociate(a, inA, inB);
    Reassociate(outA, b, inB);
    Reassociate(outA, outB, c);
  }

  // ----- Abstract queues -----

  /** What one step of a queue means to its contents. */
  datatype Event<T> = Silent | Append(v: T) | Remove(v: T)

  ghost predicate QueueStep<T>(q: seq<T>, e: Event<T>, r: seq<T>) {
    match e
    case Silent => r == q
    case Append(v) => r == q + [v]
    case Remove(v) => q == [v] + r
  }

  /** What a step did to a queue, read off the values it had taken in and given out before
      the step and after it. */
  function Grown<T>(given: seq<T>, taken: seq<T>, given1: seq<T>, taken1: seq<T>): seq<Event<T>> {
    (if |given1| > |given| then [Append(given1[|given1| - 1])] else [])
    + (if |taken1| > |taken| then [Remove(taken1[|taken1| - 1])] else [])
  }

  /** What a push of `v` has done to the queue when it answers. */
  function PushDoes<T>(v: T, ok: bool): seq<Event<T>> {
    if ok then [Append(v)] else []
  }

  /** What a pop has done to the queue when it answers. */
  function PopDoes<T>(res: Option<T>): seq<Event<T>> {
    if res.Some? then [Remove(res.value)] else []
  }

  /** The last `n` elements of `q`, or all of them. */
  function Newest<T>(q: seq<T>, n: nat): seq<T> {
    if |q| <= n then q else q[|q| - n..]
  }

  lemma NewestOfOneMore<T>(q: seq<T>, v: T, n: nat)
    requires |q| <= n && n >= 1
    ensures Newest(q + [v], n) == if |q| < n then q + [v] else q[1..] + [v]
  {
  }
}
