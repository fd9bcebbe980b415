/**
 `mpmc_list` on its own `pool`: the two machines joined, so that a push takes its node by
 the pool's accesses and a pop gives its node back by them. The queue's nodes and those in
 its threads' hands are what the pool counts as its clients' nodes, and so the pool keeps
 the one promise the list machine asks of it.
 */
module MpmcListOnPool {
  import opened Common
  import L = MpmcListMachine
  import P = NodePoolMachine
  import N = NodePool
  import G = MpmcListGuarantees

  datatype State<T> = State(list: L.State<T>, pool: P.State)
  {
    predicate Mapped() {
      list.Mapped() && pool.Mapped() && |list.threads| == |pool.threads|
    }
  }

  /** `word` and `junk` are what a node's first word reads as a link and as data when the
      other machine writes it; `Scribble` is a client's write. */
  datatype Act<T> =
    | CallPush(val: T)
    | CallPop
    | Scribble(node: nat, word: P.Link)
    | Go(weakFails: bool, word: P.Link, junk: T)

  datatype Choice<T> = Choice(thread: nat, act: Act<T>)

  /** The list's first node has been taken from the pool. */
  function Init<T>(blank: T, threads: nat): State<T> {
    State(L.Init(blank, threads),
          P.State(P.Store([None], None, P.Tagged(None, 0), [], {0}, [P.Client]), seq(threads, _ => P.Idle)))
  }

  /** What thread `t` does to the pool: it is inside `alloc` or `free`, or about to call. */
  function PoolAct<T>(s: State<T>, t: nat, a: Act<T>): Option<P.Act>
    requires s.Mapped() && t < |s.pool.threads|
  {
    match a
    case CallPush(_) | CallPop => None
    case Scribble(node, word) => Some(P.Scribble(node, word))
    case Go(weakFails, word, _) =>
      if !s.pool.threads[t].AtRest() then Some(P.Go(weakFails, word))
      else if s.list.threads[t].PushAlloc? then Some(P.CallAlloc)
      else if s.list.threads[t].PopFree? then Some(P.CallFree(Some(s.list.threads[t].node)))
      else None
  }

  /** The pool after that. */
  function PoolAfter<T>(s: State<T>, t: nat, a: Act<T>): (r: P.State)
    requires s.Mapped() && t < |s.pool.threads|
    ensures |r.threads| == |s.pool.threads|
  {
    match PoolAct(s, t, a)
    case None => s.pool
    case Some(b) => P.Exec(s.pool, t, b)
  }

  /** What that is to the list. A call needs the last one to have given its node back;
      `alloc` is one step of the list, at its end; `free` is one, at its call, and then the
      pool writes into nodes it holds. */
  function ListAct<T>(s: State<T>, t: nat, a: Act<T>): Option<L.Act<T>>
    requires s.Mapped() && t < |s.pool.threads|
  {
    match a
    case CallPush(v) => if s.pool.threads[t].AtRest() then Some(L.CallPush(v)) else None
    case CallPop => if s.pool.threads[t].AtRest() then Some(L.CallPop) else None
    case Scribble(_, _) => None
    case Go(weakFails, _, junk) =>
      var l, p := s.list.threads[t], s.pool.threads[t];
      if p.FreeLink? then Some(L.Overwrite(p.temp, junk))
      else if !p.AtRest() then
        var q := PoolAfter(s, t, a).threads[t];
        if q.AllocDone? then Some(L.Go(false, q.node, junk)) else None
      else if l.PushAlloc? then None
      else if l.PopFree? && l.node < |s.list.m.nodes| then Some(L.Go(false, 0, s.list.m.nodes[l.node].data))
      else Some(L.Go(weakFails, 0, junk))
  }

  function Exec<T>(s: State<T>, t: nat, a: Act<T>): (r: State<T>)
    requires s.Mapped()
    ensures |r.list.threads| == |s.list.threads| && |r.pool.threads| == |s.pool.threads|
  {
    if t >= |s.pool.threads| then s
    else
      var list := match ListAct(s, t, a) case None => s.list case Some(b) => L.Exec(s.list, t, b);
      State(list, PoolAfter(s, t, a))
  }

  // ----- The invariant -----

  /** The node is in the queue or in a thread's hands. */
  ghost predicate Held<T>(s: L.State<T>, id: nat) {
    s.m.InChain(id) || exists u :: 0 <= u < |s.threads| && s.threads[u].Owned() == Some(id)
  }

  ghost predicate SameHeld<T>(s: L.State<T>, r: L.State<T>) {
    forall id: nat :: Held(s, id) <==> Held(r, id)
  }

  /** Inside `alloc` the list waits for a node; inside `free` it has returned. */
  ghost predicate InStep<T>(l: L.Thread<T>, p: P.Thread) {
    && (!p.AtRest() && p.Carried() == None ==> l.PushAlloc?)
    && (p.Carried().Some? ==> l.AtRest())
  }

  /** The pool's clients hold what the list holds. */
  ghost predicate Joined<T>(s: State<T>) {
    && |s.list.threads| == |s.pool.threads| && |s.list.m.nodes| == |s.pool.m.links|
    && (forall id: nat :: id in s.pool.m.client <==> Held(s.list, id))
    && (forall t :: 0 <= t < |s.list.threads| ==> InStep(s.list.threads[t], s.pool.threads[t]))
  }

  ghost predicate Inv<T>(s: State<T>) {
    L.Inv(s.list) && P.Inv(s.pool) && Joined(s)
  }

  lemma InitInv<T>(blank: T, threads: nat)
    ensures Inv(Init(blank, threads)) && Init(blank, threads).Mapped()
  {
    var s := Init(blank, threads);
    L.InitInv(blank, threads);
    L.InvMapped(s.list);
    assert s.list.m.order[0] == 0;
    assert forall id: nat :: Held(s.list, id) <==> id == 0;
  }

  // ----- What the list's steps do to what it holds -----

  /** No node enters or leaves the chain or a thread's hands. */
  lemma QuietHeld<T>(s: L.State<T>, r: L.State<T>)
    requires r.m.order == s.m.order && r.m.head.tag == s.m.head.tag && |r.threads| == |s.threads|
    requires forall u :: 0 <= u < |s.threads| ==> r.threads[u].Owned() == s.threads[u].Owned()
    ensures SameHeld(s, r)
  {
    forall id: nat
      ensures Held(s, id) <==> Held(r, id)
    {
      assert s.m.InChain(id) <==> r.m.InChain(id);
      assert forall u :: 0 <= u < |s.threads| ==>
        (s.threads[u].Owned() == Some(id) <==> r.threads[u].Owned() == Some(id));
    }
  }

  /** The node linked goes from the thread's hands into the queue. */
  lemma LinkHeld<T>(s: L.State<T>, t: nat, a: L.Act<T>)
    requires L.Inv(s) && s.Mapped() && L.Links(s, t, a)
    ensures SameHeld(s, L.Exec(s, t, a))
  {
    var r, l := L.Exec(s, t, a), s.threads[t];
    assert L.ThreadOk(s.m, l);
    forall id: nat
      ensures Held(s, id) <==> Held(r, id)
    {
      ChainGrows(s.m, r.m, l.p, id);
      assert forall u :: 0 <= u < |s.threads| && u != t ==> r.threads[u] == s.threads[u];
      assert r.threads[t].Owned() == None && l.Owned() == Some(l.p);
    }
  }

  lemma ChainGrows<T>(m: L.Store<T>, r: L.Store<T>, p: nat, id: nat)
    requires r.order == m.order + [p] && r.head.tag == m.head.tag <= |m.order|
    ensures r.InChain(id) <==> m.InChain(id) || id == p
  {
    if r.InChain(id) {
      var k :| r.head.tag <= k < |r.order| && r.order[k] == id;
      assert k < |m.order| ==> m.order[k] == id;
    }
    if m.InChain(id) {
      var k :| m.head.tag <= k < |m.order| && m.order[k] == id;
      assert r.order[k] == id;
    }
    assert r.order[|m.order|] == p;
  }

  /** The first node goes from the queue into the hands of the thread that popped. */
  lemma TakeHeld<T>(s: L.State<T>, t: nat, a: L.Act<T>)
    requires L.Inv(s) && s.Mapped() && t < |s.threads| && a.Go? && s.threads[t].PopTake?
    requires L.Exec(s, t, a).threads[t].PopFree?
    ensures SameHeld(s, L.Exec(s, t, a))
  {
    var r := L.Exec(s, t, a);
    assert L.ThreadOk(s.m, s.threads[t]);
    forall id: nat
      ensures Held(s, id) <==> Held(r, id)
    {
      ChainShrinks(s.m, r.m, id);
      assert forall u :: 0 <= u < |s.threads| && u != t ==> r.threads[u] == s.threads[u];
      assert r.threads[t].Owned() == Some(s.m.head.ptr) && s.threads[t].Owned() == None;
    }
  }

  lemma ChainShrinks<T>(m: L.Store<T>, r: L.Store<T>, id: nat)
    requires L.ChainOk(m) && r.order == m.order && r.head.tag == m.head.tag + 1
    ensures m.InChain(id) <==> r.InChain(id) || id == m.head.ptr
  {
    if m.InChain(id) {
      var k :| m.head.tag <= k < |m.order| && m.order[k] == id;
      assert k > m.head.tag ==> r.InChain(id);
    }
    assert m.order[m.head.tag] == m.head.ptr;
  }

  /** Any other access of the list leaves that alone. */
  lemma OtherHeld<T>(s: L.State<T>, t: nat, a: L.Act<T>)
    requires L.Inv(s) && s.Mapped() && !L.Links(s, t, a)
    requires t < |s.threads| && a.Go? ==>
      !s.threads[t].PushAlloc? && !s.threads[t].PopFree? && !L.Exec(s, t, a).threads[t].PopFree?
    ensures SameHeld(s, L.Exec(s, t, a))
  {
    OtherOwned(s, t, a);
    QuietHeld(s, L.Exec(s, t, a));
  }

  lemma OtherOwned<T>(s: L.State<T>, t: nat, a: L.Act<T>)
    requires s.Mapped() && !L.Links(s, t, a)
    requires t < |s.threads| && a.Go? ==>
      !s.threads[t].PushAlloc? && !s.threads[t].PopFree? && !L.Exec(s, t, a).threads[t].PopFree?
    ensures var r := L.Exec(s, t, a);
      && r.m.order == s.m.order && r.m.head.tag == s.m.head.tag
      && (forall u :: 0 <= u < |s.threads| ==> r.threads[u].Owned() == s.threads[u].Owned())
  {
  }

  /** An access that neither takes a node from the pool nor gives one back. */
  lemma AccessHeld<T>(s: L.State<T>, t: nat, a: L.Act<T>)
    requires L.Inv(s) && s.Mapped()
    requires t < |s.threads| && a.Go? ==> !s.threads[t].PushAlloc? && !s.threads[t].PopFree?
    ensures SameHeld(s, L.Exec(s, t, a))
  {
    if L.Links(s, t, a) {
      LinkHeld(s, t, a);
    } else if t < |s.threads| && a.Go? && L.Exec(s, t, a).threads[t].PopFree? {
      TakeHeld(s, t, a);
    } else {
      OtherHeld(s, t, a);
    }
  }

  lemma AllocHeld<T>(s: L.State<T>, t: nat, id: nat, junk: T)
    requires L.Inv(s) && s.Mapped() && t < |s.threads| && s.threads[t].PushAlloc? && L.MayAllocate(s, id)
    ensures forall x: nat :: Held(L.Exec(s, t, L.Go(false, id, junk)), x) <==> Held(s, x) || x == id
  {
    var r := L.Exec(s, t, L.Go(false, id, junk));
    forall x: nat
      ensures Held(r, x) <==> Held(s, x) || x == id
    {
      assert r.m.InChain(x) <==> s.m.InChain(x);
      assert forall u :: 0 <= u < |s.threads| && u != t ==> r.threads[u] == s.threads[u];
      assert r.threads[t].Owned() == Some(id) && s.threads[t].Owned() == None;
    }
  }

  lemma FreeHeld<T>(s: L.State<T>, t: nat, a: L.Act<T>)
    requires L.Inv(s) && s.Mapped() && t < |s.threads| && a.Go? && s.threads[t].PopFree?
    ensures forall x: nat :: Held(L.Exec(s, t, a), x) <==> Held(s, x) && x != s.threads[t].node
  {
    var r, node := L.Exec(s, t, a), s.threads[t].node;
    assert L.ThreadOk(s.m, s.threads[t]);
    forall x: nat
      ensures Held(r, x) <==> Held(s, x) && x != node
    {
      assert r.m.InChain(x) <==> s.m.InChain(x);
      assert forall u :: 0 <= u < |s.threads| && u != t ==> r.threads[u] == s.threads[u];
      assert forall u :: 0 <= u < |s.threads| && u != t ==> L.Apart(s.threads[t], s.threads[u]);
      assert r.threads[t].Owned() == None && s.threads[t].Owned() == Some(node);
    }
  }

  // ----- What the pool's steps do to its clients' nodes -----

  lemma PoolGo(p: P.State, t: nat, weakFails: bool, word: P.Link)
    requires P.Inv(p) && p.Mapped() && t < |p.threads| && !p.threads[t].AtRest()
    ensures var r := P.Exec(p, t, P.Go(weakFails, word));
      if r.threads[t].AllocDone? then
        var node := r.threads[t].node;
        && p.threads[t].Carried() == None
        && r.m.client == p.m.client + {node} && node !in p.m.client && node <= |p.m.links|
        && |r.m.links| == if node < |p.m.links| then |p.m.links| else node + 1
      else
        && r.m.client == p.m.client && |r.m.links| == |p.m.links|
        && (r.threads[t].Carried().Some? ==> p.threads[t].Carried().Some?)
        && (!r.threads[t].AtRest() && r.threads[t].Carried() == None ==> p.threads[t].Carried() == None)
  {
    if P.Exec(p, t, P.Go(weakFails, word)).threads[t].AllocDone? {
      N.NeverHandedOutTwice(p, t, weakFails, word);
      assert P.ThreadOk(p.m, t, p.threads[t]);
    }
  }

  /** A node that no client holds is one the list may be given, or written over. */
  lemma FreeToUse<T>(s: State<T>, id: nat)
    requires Joined(s) && id !in s.pool.m.client && id <= |s.list.m.nodes|
    ensures L.MayAllocate(s.list, id)
  {
    assert !Held(s.list, id);
  }

  // ----- Every step -----

  /** The step is an exchange of the list on the `next_` of a node that is not the last. */
  predicate Misled<T>(s: State<T>, t: nat, a: Act<T>)
    requires s.Mapped()
  {
    t < |s.pool.threads| && ListAct(s, t, a).Some? && L.Misled(s.list, t, ListAct(s, t, a).value)
  }

  lemma Assemble<T>(s: State<T>, t: nat, r: State<T>)
    requires Joined(s) && t < |s.pool.threads|
    requires |r.list.threads| == |s.list.threads| && |r.pool.threads| == |s.pool.threads|
    requires forall u :: 0 <= u < |s.list.threads| && u != t ==>
      r.list.threads[u] == s.list.threads[u] && r.pool.threads[u] == s.pool.threads[u]
    requires InStep(r.list.threads[t], r.pool.threads[t]) && |r.list.m.nodes| == |r.pool.m.links|
    requires forall id: nat :: id in r.pool.m.client <==> Held(r.list, id)
    ensures Joined(r)
  {
    forall u | 0 <= u < |r.list.threads|
      ensures InStep(r.list.threads[u], r.pool.threads[u])
    {
      if u != t {
        assert InStep(s.list.threads[u], s.pool.threads[u]);
      }
    }
  }

  lemma OthersStand<T>(s: State<T>, t: nat, a: Act<T>)
    requires s.Mapped() && t < |s.pool.threads|
    ensures var r := Exec(s, t, a);
      forall u :: 0 <= u < |s.list.threads| && u != t ==>
        r.list.threads[u] == s.list.threads[u] && r.pool.threads[u] == s.pool.threads[u]
  {
  }

  /** Calls, and accesses of the list that have nothing to do with the pool. */
  lemma ListJoined<T>(s: State<T>, t: nat, a: Act<T>)
    requires Inv(s) && s.Mapped() && t < |s.pool.threads| && s.pool.threads[t].AtRest() && !a.Scribble?
    requires a.Go? ==> !s.list.threads[t].PushAlloc? && !s.list.threads[t].PopFree?
    ensures Joined(Exec(s, t, a))
  {
    var b := ListAct(s, t, a).value;
    var r := Exec(s, t, a);
    AccessHeld(s.list, t, b);
    assert r.pool == s.pool && r.list == L.Exec(s.list, t, b);
    OthersStand(s, t, a);
    NodesStay(s.list, t, b);
    Assemble(s, t, r);
  }

  lemma NodesStay<T>(s: L.State<T>, t: nat, b: L.Act<T>)
    requires s.Mapped() && (t < |s.threads| && b.Go? ==> !s.threads[t].PushAlloc?)
    ensures |L.Exec(s, t, b).m.nodes| == |s.m.nodes|
  {
  }

  lemma ScribbleJoined<T>(s: State<T>, t: nat, a: Act<T>)
    requires Inv(s) && s.Mapped() && t < |s.pool.threads| && a.Scribble?
    ensures Joined(Exec(s, t, a))
  {
  }

  /** The call of `alloc`. */
  lemma AllocCallJoined<T>(s: State<T>, t: nat, a: Act<T>)
    requires Inv(s) && s.Mapped() && t < |s.pool.threads| && s.pool.threads[t].AtRest()
    requires a.Go? && s.list.threads[t].PushAlloc?
    ensures Joined(Exec(s, t, a))
  {
    OthersStand(s, t, a);
    Assemble(s, t, Exec(s, t, a));
  }

  /** The call of `free` with the node a pop has taken out of the queue. */
  lemma FreeCallJoined<T>(s: State<T>, t: nat, a: Act<T>)
    requires Inv(s) && s.Mapped() && t < |s.pool.threads| && s.pool.threads[t].AtRest()
    requires a.Go? && s.list.threads[t].PopFree?
    ensures Joined(Exec(s, t, a)) && s.list.threads[t].node in s.pool.m.client
  {
    var node := s.list.threads[t].node;
    assert L.ThreadOk(s.list.m, s.list.threads[t]);
    assert s.list.threads[t].Owned() == Some(node) && Held(s.list, node);
    FreeHeld(s.list, t, ListAct(s, t, a).value);
    OthersStand(s, t, a);
    Assemble(s, t, Exec(s, t, a));
  }

  /** `alloc` returns: its node is one the list may be given. */
  lemma AllocEndJoined<T>(s: State<T>, t: nat, a: Act<T>)
    requires Inv(s) && s.Mapped() && t < |s.pool.threads| && !s.pool.threads[t].AtRest()
    requires a.Go? && PoolAfter(s, t, a).threads[t].AllocDone?
    ensures Joined(Exec(s, t, a)) && L.MayAllocate(s.list, PoolAfter(s, t, a).threads[t].node)
    ensures Exec(s, t, a).list.threads[t].PushTail?
  {
    PoolGo(s.pool, t, a.weakFails, a.word);
    var node := PoolAfter(s, t, a).threads[t].node;
    assert InStep(s.list.threads[t], s.pool.threads[t]);
    FreeToUse(s, node);
    AllocHeld(s.list, t, node, a.junk);
    OthersStand(s, t, a);
    Assemble(s, t, Exec(s, t, a));
  }

  /** Any other access inside `alloc` or `free`; the link written by `free` goes into a
      node the list does not hold. */
  lemma PoolJoined<T>(s: State<T>, t: nat, a: Act<T>)
    requires Inv(s) && s.Mapped() && t < |s.pool.threads| && !s.pool.threads[t].AtRest()
    requires a.Go? && !PoolAfter(s, t, a).threads[t].AllocDone?
    ensures Joined(Exec(s, t, a))
    ensures s.pool.threads[t].FreeLink? ==> L.MayAllocate(s.list, s.pool.threads[t].temp)
  {
    PoolGo(s.pool, t, a.weakFails, a.word);
    assert InStep(s.list.threads[t], s.pool.threads[t]) && P.ThreadOk(s.pool.m, t, s.pool.threads[t]);
    var r := Exec(s, t, a);
    if s.pool.threads[t].FreeLink? {
      FreeToUse(s, s.pool.threads[t].temp);
      AccessHeld(s.list, t, ListAct(s, t, a).value);
      NodesStay(s.list, t, ListAct(s, t, a).value);
      assert r.list.threads == s.list.threads;
    }
    OthersStand(s, t, a);
    Assemble(s, t, r);
  }

  lemma ExecJoined<T>(s: State<T>, t: nat, a: Act<T>)
    requires Inv(s) && s.Mapped()
    ensures Joined(Exec(s, t, a))
  {
    if t < |s.pool.threads| {
      if a.Scribble? {
        ScribbleJoined(s, t, a);
      } else if !s.pool.threads[t].AtRest() {
        if a.Go? {
          if PoolAfter(s, t, a).threads[t].AllocDone? { AllocEndJoined(s, t, a); } else { PoolJoined(s, t, a); }
        }
      } else if a.Go? && s.list.threads[t].PushAlloc? {
        AllocCallJoined(s, t, a);
      } else if a.Go? && s.list.threads[t].PopFree? {
        FreeCallJoined(s, t, a);
      } else {
        ListJoined(s, t, a);
      }
    }
  }

  /** The joined machine keeps both invariants and the tie between them, whatever it does,
      if and only if the step is no misled exchange of the list. In particular the pool
      never hands out a node that is in the queue or in a thread's hands. */
  lemma ExecInvIff<T>(s: State<T>, t: nat, a: Act<T>)
    requires Inv(s) && s.Mapped()
    ensures Inv(Exec(s, t, a)) <==> !Misled(s, t, a)
    ensures !Misled(s, t, a) ==> Exec(s, t, a).Mapped()
  {
    ExecJoined(s, t, a);
    if t < |s.pool.threads| {
      if PoolAct(s, t, a).Some? {
        P.ExecInv(s.pool, t, PoolAct(s, t, a).value);
      }
      if ListAct(s, t, a).Some? {
        L.ExecInvIff(s.list, t, ListAct(s, t, a).value);
      }
    }
    if !Misled(s, t, a) {
      L.InvMapped(Exec(s, t, a).list);
      P.InvMapped(Exec(s, t, a).pool);
    }
  }

  // ----- Whole runs -----

  function Run<T>(s: State<T>, schedule: seq<Choice<T>>): State<T>
    decreases |schedule|
  {
    if schedule == [] || !s.Mapped() then s
    else Run(Exec(s, schedule[0].thread, schedule[0].act), schedule[1..])
  }

  predicate NeverMisled<T>(s: State<T>, schedule: seq<Choice<T>>)
    decreases |schedule|
  {
    schedule != [] && s.Mapped() ==>
      && !Misled(s, schedule[0].thread, schedule[0].act)
      && NeverMisled(Exec(s, schedule[0].thread, schedule[0].act), schedule[1..])
  }

  /** Refinement: seen from the list, every run of the joined machine is an execution of
      the list machine, so that everything proved of those holds of it. */
  lemma {:induction false} RunRefinesList<T>(s: State<T>, schedule: seq<Choice<T>>)
      returns (tr: seq<L.State<T>>, steps: seq<L.Choice<T>>)
    requires Inv(s) && s.Mapped() && NeverMisled(s, schedule)
    ensures Inv(Run(s, schedule)) && Run(s, schedule).Mapped()
    ensures G.Execution(tr, steps) && tr[0] == s.list && tr[|steps|] == Run(s, schedule).list
    decreases |schedule|
  {
    if schedule == [] {
      tr, steps := [s.list], [];
    } else {
      var t, a := schedule[0].thread, schedule[0].act;
      var r := Exec(s, t, a);
      ExecInvIff(s, t, a);
      tr, steps := RunRefinesList(r, schedule[1..]);
      if t < |s.pool.threads| && ListAct(s, t, a).Some? {
        tr, steps := Prepend(s.list, L.Choice(t, ListAct(s, t, a).value), tr, steps);
      }
    }
  }

  lemma Prepend<T>(s: L.State<T>, ch: L.Choice<T>, tr: seq<L.State<T>>, steps: seq<L.Choice<T>>)
      returns (tr1: seq<L.State<T>>, steps1: seq<L.Choice<T>>)
    requires G.Execution(tr, steps) && G.StepAt(s, ch, tr[0])
    ensures G.Execution(tr1, steps1) && tr1[0] == s && |steps1| == |steps| + 1 && tr1[|steps1|] == tr[|steps|]
  {
    tr1, steps1 := [s] + tr, [ch] + steps;
    forall i | 0 <= i < |steps1|
      ensures G.StepAt(tr1[i], steps1[i], tr1[i + 1])
    {
      if i > 0 {
        assert G.StepAt(tr[i - 1], steps[i - 1], tr[i]);
      }
    }
  }

  function Count(b: bool): nat {
    if b then 1 else 0
  }

  ghost predicate InHands<T>(s: L.State<T>, id: nat) {
    exists u :: 0 <= u < |s.threads| && s.threads[u].Owned() == Some(id)
  }

  /** Conservation of nodes: in every such run each node ever made is in exactly one place:
      in the queue, in the hands of one push or pop, in `el_`, on the stack, or on its way
      to the pool. None leaks and none is in two places. */
  lemma NodesConserved<T>(blank: T, threads: nat, schedule: seq<Choice<T>>, id: nat)
    requires NeverMisled(Init(blank, threads), schedule)
    requires id < |Run(Init(blank, threads), schedule).list.m.nodes|
    ensures var s := Run(Init(blank, threads), schedule);
      Count(s.list.m.InChain(id)) + Count(InHands(s.list, id)) + Count(s.pool.m.cache == Some(id))
      + Count(id in s.pool.m.chain) + Count(N.CarriedBySome(s.pool, id)) == 1
  {
    InitInv(blank, threads);
    var tr, steps := RunRefinesList(Init(blank, threads), schedule);
    var s := Run(Init(blank, threads), schedule);
    N.PlaceOf(s.pool, id);
    assert id in s.pool.m.client <==> Held(s.list, id);
    if InHands(s.list, id) {
      var u :| 0 <= u < |s.list.threads| && s.list.threads[u].Owned() == Some(id);
      assert L.ThreadOk(s.list.m, s.list.threads[u]);
    }
  }

  /** On its own pool the linked queue is FIFO: after every such run the values popped are a
      prefix of the values linked, and the nodes behind `head_` hold the others in order. */
  lemma QueueOnPool<T>(blank: T, threads: nat, schedule: seq<Choice<T>>)
    requires NeverMisled(Init(blank, threads), schedule)
    ensures var m := Run(Init(blank, threads), schedule).list.m;
      && m.popped <= m.linked && m.head.tag == |m.popped| && |m.order| == |m.linked| + 1
      && (forall k :: |m.popped| < k < |m.order| ==>
            m.order[k] < |m.nodes| && m.nodes[m.order[k]].data == m.linked[k - 1])
  {
    InitInv(blank, threads);
    var tr, steps := RunRefinesList(Init(blank, threads), schedule);
    var m := Run(Init(blank, threads), schedule).list.m;
    assert L.ChainOk(m);
  }

  // ----- Careful runs -----

  /** `alloc` ends with a node behind which some push is about to link. */
  ghost predicate Reuses<T>(s: State<T>, t: nat, a: Act<T>)
    requires s.Mapped()
  {
    && t < |s.pool.threads| && a.Go? && !s.pool.threads[t].AtRest() && PoolAfter(s, t, a).threads[t].AllocDone?
    && exists u :: 0 <= u < |s.list.threads| && s.list.threads[u].PushLink?
                   && s.list.threads[u].tail.ptr == PoolAfter(s, t, a).threads[t].node
  }

  /** Seen from the list: only the end of `alloc` brings it a new node. */
  lemma ReusesSeenFromList<T>(s: State<T>, t: nat, a: Act<T>)
    requires Inv(s) && s.Mapped() && t < |s.pool.threads|
    ensures Reuses(s, t, a) <==> ListAct(s, t, a).Some? && L.Reuses(s.list, t, ListAct(s, t, a).value)
  {
    assert InStep(s.list.threads[t], s.pool.threads[t]);
    if a.Go? && !s.pool.threads[t].AtRest() {
      PoolGo(s.pool, t, a.weakFails, a.word);
    }
  }

  ghost predicate Careful<T>(s: State<T>) {
    Inv(s) && s.Mapped() && G.LinkersHold(s.list) && G.TailClose(s.list.m) && G.Attended(s.list)
  }

  /** From a careful state no exchange is misled, and the next state is careful if and only
      if no `alloc` ends with such a node. */
  lemma CarefulIff<T>(s: State<T>, t: nat, a: Act<T>)
    requires Careful(s)
    ensures !Misled(s, t, a)
    ensures Careful(Exec(s, t, a)) <==> !Reuses(s, t, a)
  {
    if t < |s.pool.threads| {
      ReusesSeenFromList(s, t, a);
      if ListAct(s, t, a).Some? {
        var b := ListAct(s, t, a).value;
        G.LinkersAreNotMisled(s.list, t, b);
        G.LinkersHoldIff(s.list, t, b);
        G.TailCloseIff(s.list, t, b);
        G.AttendedKept(s.list, t, b);
      }
    }
    ExecInvIff(s, t, a);
  }

  /** No `alloc` of the run ends with such a node. */
  ghost predicate CarefulRun<T>(s: State<T>, schedule: seq<Choice<T>>)
    decreases |schedule|
  {
    schedule != [] && s.Mapped() ==>
      && !Reuses(s, schedule[0].thread, schedule[0].act)
      && CarefulRun(Exec(s, schedule[0].thread, schedule[0].act), schedule[1..])
  }

  lemma {:induction false} CarefulAlong<T>(s: State<T>, schedule: seq<Choice<T>>)
    requires Careful(s) && CarefulRun(s, schedule)
    ensures NeverMisled(s, schedule) && Careful(Run(s, schedule))
    decreases |schedule|
  {
    if schedule != [] {
      var t, a := schedule[0].thread, schedule[0].act;
      CarefulIff(s, t, a);
      CarefulAlong(Exec(s, t, a), schedule[1..]);
    }
  }

  /** On its own pool the linked queue is misled by nothing but such a reuse: every run
      without one is FIFO, and leaves `tail_` at the last node or the one before it, and at
      the last one whenever no push is between its link and its return. */
  lemma CarefulRunsAreSafe<T>(blank: T, threads: nat, schedule: seq<Choice<T>>)
    requires CarefulRun(Init(blank, threads), schedule)
    ensures NeverMisled(Init(blank, threads), schedule)
    ensures var m := Run(Init(blank, threads), schedule).list.m;
      m.popped <= m.linked && G.TailClose(m)
    ensures G.Attended(Run(Init(blank, threads), schedule).list)
  {
    InitInv(blank, threads);
    CarefulAlong(Init(blank, threads), schedule);
    QueueOnPool(blank, threads, schedule);
  }
}
