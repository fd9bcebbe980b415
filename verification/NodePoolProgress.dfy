/**
 The pool is obstruction-free: from any reachable state, with the other threads stopped
 anywhere inside `alloc` and `free`, a thread that goes on alone ends its call within four
 accesses. And what a whole call of a thread that runs alone does.
 */
module NodePoolProgress {
  import opened Common
  import opened NodePoolMachine

  /** How many accesses the call takes at most, if no exchange fails spuriously. */
  function Rank(m: Store, l: Thread): nat {
    match l
    case AllocCache => if m.cache.Some? then 1 else 4
    case AllocLoad => 3
    case AllocNext(curr) => if curr == m.cursor || curr.ptr == None then 2 else 4
    case AllocSwap(curr, _) => if curr == m.cursor then 1 else 3
    case FreeCache(_) => if m.cache == None then 1 else 4
    case FreeLoad(_) => 3
    case FreeLink(_, curr) => if curr == m.cursor then 2 else 4
    case FreeSwap(_, curr) => if curr == m.cursor then 1 else 3
    case _ => 0
  }

  lemma AllocDrops(s: State, t: nat, junk: Link)
    requires s.Mapped() && t < |s.threads| && !s.threads[t].AtRest() && s.threads[t].Carried() == None
    requires ThreadOk(s.m, t, s.threads[t])
    ensures var r := Exec(s, t, Go(false, junk)); Rank(r.m, r.threads[t]) < Rank(s.m, s.threads[t]) <= 4
  {
  }

  lemma FreeDrops(s: State, t: nat, junk: Link)
    requires s.Mapped() && t < |s.threads| && s.threads[t].Carried().Some?
    ensures var r := Exec(s, t, Go(false, junk)); Rank(r.m, r.threads[t]) < Rank(s.m, s.threads[t]) <= 4
  {
  }

  /** Each access of a thread that goes on alone brings it nearer to its answer, wherever
      it and the others stand; no call has more than four to go. */
  lemma SoloProgresses(s: State, t: nat, junk: Link)
    requires Inv(s) && s.Mapped() && t < |s.threads| && !s.threads[t].AtRest()
    ensures var r := Exec(s, t, Go(false, junk));
      Inv(r) && r.Mapped() && Rank(r.m, r.threads[t]) < Rank(s.m, s.threads[t]) <= 4
  {
    ExecInv(s, t, Go(false, junk));
    InvMapped(Exec(s, t, Go(false, junk)));
    assert ThreadOk(s.m, t, s.threads[t]);
    if s.threads[t].Carried() == None {
      AllocDrops(s, t, junk);
    } else {
      FreeDrops(s, t, junk);
    }
  }

  /** `n` accesses of thread `t` in a row. */
  function Solo(s: State, t: nat, junk: Link, n: nat): State
    decreases n
  {
    if n == 0 || !s.Mapped() then s else Solo(Exec(s, t, Go(false, junk)), t, junk, n - 1)
  }

  lemma AtRestStays(s: State, t: nat, junk: Link, n: nat)
    requires t < |s.threads| && s.threads[t].AtRest()
    ensures Solo(s, t, junk, n) == s
    decreases n
  {
    if n > 0 && s.Mapped() {
      AtRestStays(s, t, junk, n - 1);
    }
  }

  lemma {:induction false} SoloAnswers(s: State, t: nat, junk: Link, n: nat)
    requires Inv(s) && s.Mapped() && t < |s.threads| && n >= Rank(s.m, s.threads[t])
    ensures var r := Solo(s, t, junk, n); |r.threads| == |s.threads| && r.threads[t].AtRest() && Inv(r)
    decreases n
  {
    if s.threads[t].AtRest() {
      AtRestStays(s, t, junk, n);
    } else {
      SoloProgresses(s, t, junk);
      SoloAnswers(Exec(s, t, Go(false, junk)), t, junk, n - 1);
    }
  }

  /** The node a thread gets that calls `alloc` and runs alone: the cached one, or the top of
      the stack, or a new one if there is neither. */
  function Given(m: Store): nat {
    if m.cache.Some? then m.cache.value else if m.chain != [] then m.chain[0] else |m.links|
  }

  /** Where an `alloc` stands that has run alone since it was called at `m0`. */
  ghost predicate Allocating(m0: Store, s: State, t: nat) {
    && t < |s.threads|
    && match s.threads[t]
       case AllocCache => s.m == m0
       case AllocLoad => s.m == m0 && m0.cache == None
       case AllocNext(curr) => s.m == m0 && m0.cache == None && curr == m0.cursor
       case AllocSwap(curr, _) => s.m == m0 && m0.cache == None && curr == m0.cursor && m0.chain != []
       case AllocDone(node) =>
         && node == Given(m0) && s.m.cache == None
         && s.m.chain == (if m0.cache == None && m0.chain != [] then m0.chain[1..] else m0.chain)
         && |s.m.links| == |m0.links| + if m0.cache == None && m0.chain == [] then 1 else 0
       case _ => false
  }

  lemma AllocatingStep(m0: Store, s: State, t: nat, junk: Link)
    requires Inv(s) && s.Mapped() && Allocating(m0, s, t) && !s.threads[t].AtRest()
    ensures var r := Exec(s, t, Go(false, junk)); Inv(r) && r.Mapped() && Allocating(m0, r, t)
  {
    SoloProgresses(s, t, junk);
    assert ThreadOk(s.m, t, s.threads[t]);
  }

  lemma {:induction false} AllocatingRun(m0: Store, s: State, t: nat, junk: Link, n: nat, r: State)
    requires Inv(s) && s.Mapped() && Allocating(m0, s, t) && r == Solo(s, t, junk, n)
    ensures Allocating(m0, r, t)
    decreases n
  {
    if n == 0 {
    } else if s.threads[t].AtRest() {
      AtRestStays(s, t, junk, n);
    } else {
      AllocatingStep(m0, s, t, junk);
      AllocatingRun(m0, Exec(s, t, Go(false, junk)), t, junk, n - 1, r);
    }
  }

  /** A whole `alloc` beside threads that stand still: free nodes are used before a new one
      is made. */
  lemma AllocAlone(s: State, t: nat, junk: Link)
    requires Inv(s) && s.Mapped() && t < |s.threads| && s.threads[t].AtRest()
    ensures var r := Solo(Exec(s, t, CallAlloc), t, junk, 4);
      && |r.threads| == |s.threads| && r.threads[t] == AllocDone(Given(s.m))
      && r.m.cache == None && r.m.chain == (if s.m.cache == None && s.m.chain != [] then s.m.chain[1..] else s.m.chain)
      && |r.m.links| == |s.m.links| + if s.m.cache == None && s.m.chain == [] then 1 else 0
  {
    var c := Exec(s, t, CallAlloc);
    ExecInv(s, t, CallAlloc);
    InvMapped(c);
    AllocatingRun(s.m, c, t, junk, 4, Solo(c, t, junk, 4));
    SoloAnswers(c, t, junk, 4);
  }

  /** Where a `free` of `p` stands that has run alone since it was called at `m0`. */
  ghost predicate Freeing(m0: Store, p: nat, s: State, t: nat) {
    && t < |s.threads| && |s.m.links| == |m0.links|
    && match s.threads[t]
       case FreeCache(node) => node == p && s.m.cache == m0.cache && s.m.chain == m0.chain
       case FreeDone =>
         && s.m.cache == Some(p)
         && s.m.chain == if m0.cache == None then m0.chain else [m0.cache.value] + m0.chain
       case AllocDone(_) => false
       case _ =>
         && s.threads[t].Carried().Some? && m0.cache == s.threads[t].Carried()
         && s.m.cache == Some(p) && s.m.chain == m0.chain
         && (s.threads[t].FreeLink? || s.threads[t].FreeSwap? ==> s.threads[t].curr == s.m.cursor)
  }

  lemma FreeingStep(m0: Store, p: nat, s: State, t: nat, junk: Link)
    requires Inv(s) && s.Mapped() && Freeing(m0, p, s, t) && !s.threads[t].AtRest()
    ensures var r := Exec(s, t, Go(false, junk)); Inv(r) && r.Mapped() && Freeing(m0, p, r, t)
  {
    SoloProgresses(s, t, junk);
    assert ThreadOk(s.m, t, s.threads[t]);
  }

  lemma {:induction false} FreeingRun(m0: Store, p: nat, s: State, t: nat, junk: Link, n: nat, r: State)
    requires Inv(s) && s.Mapped() && Freeing(m0, p, s, t) && r == Solo(s, t, junk, n)
    ensures Freeing(m0, p, r, t)
    decreases n
  {
    if n == 0 {
    } else if s.threads[t].AtRest() {
      AtRestStays(s, t, junk, n);
    } else {
      FreeingStep(m0, p, s, t, junk);
      FreeingRun(m0, p, Exec(s, t, Go(false, junk)), t, junk, n - 1, r);
    }
  }

  /** A whole `free` beside threads that stand still: the node is cached, and the one it
      displaces goes on top of the stack. */
  lemma FreeAlone(s: State, t: nat, p: nat, junk: Link)
    requires Inv(s) && s.Mapped() && t < |s.threads| && s.threads[t].AtRest() && p in s.m.client
    ensures var r := Solo(Exec(s, t, CallFree(Some(p))), t, junk, 4);
      && |r.threads| == |s.threads| && r.threads[t] == FreeDone && r.m.cache == Some(p)
      && r.m.chain == (if s.m.cache == None then s.m.chain else [s.m.cache.value] + s.m.chain)
      && |r.m.links| == |s.m.links|
  {
    var c := Exec(s, t, CallFree(Some(p)));
    ExecInv(s, t, CallFree(Some(p)));
    InvMapped(c);
    FreeingRun(s.m, p, c, t, junk, 4, Solo(c, t, junk, 4));
    SoloAnswers(c, t, junk, 4);
  }
}
