/**
 `mpmc_list`: the linked queue for many producers and consumers. `head_`, `tail_` and
 every `next_` pair a pointer with a tag that grows by one at each exchange. Nodes are
 addresses in a table; the pool may hand out any address that is not in use.

 `order`, `linked` and `popped` are history variables: every node and value ever linked,
 in link order, and every value popped.
 */
module MpmcListMachine {
  import opened Common

  datatype Tagged = Tagged(ptr: nat, tag: nat)

  datatype Node<T> = Node(data: T, next: Option<nat>, tag: nat)

  /** The atomic access a thread performs next, with the locals it still needs. `empty`
      remembers whether the queue was empty when `head->next_` was loaded. */
  datatype Thread<T> =
    | Idle
    | PushAlloc(val: T)
    | PushTail(val: T, p: nat)
    | PushNext(val: T, p: nat, tail: Tagged)
    | PushCheck(val: T, p: nat, tail: Tagged, next: Option<nat>, tag: nat)
    | PushLink(val: T, p: nat, tail: Tagged, tag: nat)
    | PushSwing(p: nat, tail: Tagged)
    | PushHelp(val: T, p: nat, tail: Tagged, to: nat)
    | PushDone
    | PopHead
    | PopTail(head: Tagged)
    | PopNext(head: Tagged, tail: Tagged)
    | PopCheck(head: Tagged, tail: Tagged, next: Option<nat>, empty: bool)
    | PopHelp(tail: Tagged, to: nat)
    | PopRead(head: Tagged, to: nat)
    | PopTake(head: Tagged, to: nat, got: T)
    | PopFree(node: nat, got: T)
    | PopDone(res: Option<T>)
    | NullDereference
  {
    predicate AtRest() {
      Idle? || PushDone? || PopDone?
    }

    predicate InPop() {
      PopHead? || PopTail? || PopNext? || PopCheck? || PopHelp? || PopRead? || PopTake? || PopFree?
    }

    /** The node the thread owns: allocated and not linked yet, or popped and not freed. */
    function Owned(): Option<nat> {
      match this
      case PushTail(_, p) => Some(p)
      case PushNext(_, p, _) => Some(p)
      case PushCheck(_, p, _, _, _) => Some(p)
      case PushLink(_, p, _, _) => Some(p)
      case PushHelp(_, p, _, _) => Some(p)
      case PopFree(node, _) => Some(node)
      case _ => None
    }

    /** The node whose `next_` the thread is about to load or exchange. */
    function Anchor(): Option<Tagged> {
      match this
      case PushNext(_, _, tail) => Some(tail)
      case PushCheck(_, _, tail, _, _) => Some(tail)
      case PushLink(_, _, tail, _) => Some(tail)
      case PopTail(head) => Some(head)
      case PopNext(head, _) => Some(head)
      case _ => None
    }
  }

  /** `addr` is the address the pool would hand out, `junk` what it writes over the data
      of a node it takes back. `Overwrite` is the pool writing into a node it holds. */
  datatype Act<T> =
    | CallPush(val: T)
    | CallPop
    | Go(weakFails: bool, addr: nat, junk: T)
    | Overwrite(node: nat, junk: T)

  datatype Choice<T> = Choice(thread: nat, act: Act<T>)

  /** The shared memory of the queue, with its history. */
  datatype Store<T> = Store(
    nodes: seq<Node<T>>, head: Tagged, tail: Tagged,
    order: seq<nat>, linked: seq<T>, popped: seq<T>)
  {
    /** The abstract queue. */
    function Contents(): seq<T>
      requires head.tag <= |linked|
    {
      linked[head.tag..]
    }

    /** The node is `head_`'s or comes after it. */
    predicate InChain(id: nat) {
      exists k :: head.tag <= k < |order| && order[k] == id
    }
  }

  datatype State<T> = State(m: Store<T>, threads: seq<Thread<T>>)
  {
    /** Every pointer the step of a thread follows lies in the node table. */
    predicate Mapped() {
      && m.head.tag <= |m.linked|
      && (forall t :: 0 <= t < |threads| ==> Dereferences(threads[t]) <= |m.nodes|)
    }
  }

  /** One more than the largest address the thread's next step follows. */
  function Dereferences<T>(l: Thread<T>): nat {
    match l
    case PushNext(_, _, tail) => tail.ptr + 1
    case PushLink(_, _, tail, _) => tail.ptr + 1
    case PopNext(head, _) => head.ptr + 1
    case PopRead(_, to) => to + 1
    case PopFree(node, _) => node + 1
    case _ => 0
  }

  function Init<T>(blank: T, threads: nat): State<T> {
    State(Store([Node(blank, None, 0)], Tagged(0, 0), Tagged(0, 0), [0], [], []), seq(threads, _ => Idle))
  }

  // ----- The steps on shared memory -----

  /** `alloc(val, nullptr)`: the node is built afresh, its tag included. */
  function Allocate<T>(m: Store<T>, v: T, id: nat): Store<T>
    requires id <= |m.nodes|
  {
    var n := Node(v, None, 0);
    m.(nodes := if id < |m.nodes| then m.nodes[id := n] else m.nodes + [n])
  }

  /** The exchange of `tail->next_` succeeds. */
  function Link<T>(m: Store<T>, tail: nat, p: nat, v: T): Store<T>
    requires tail < |m.nodes|
  {
    var n := m.nodes[tail];
    m.(nodes := m.nodes[tail := n.(next := Some(p), tag := n.tag + 1)],
    order := m.order + [p], linked := m.linked + [v])
  }

  /** An exchange of `tail_` succeeds. */
  function Swing<T>(m: Store<T>, to: nat): Store<T> {
    m.(tail := Tagged(to, m.tail.tag + 1))
  }

  /** The exchange of `head_` succeeds. */
  function Take<T>(m: Store<T>, to: nat, v: T): Store<T> {
    m.(head := Tagged(to, m.head.tag + 1), popped := m.popped + [v])
  }

  /** `free`: the pool reuses the node's data word. */
  function Release<T>(m: Store<T>, node: nat, junk: T): Store<T>
    requires node < |m.nodes|
  {
    m.(nodes := m.nodes[node := m.nodes[node].(data := junk)])
  }

  // ----- The steps of the threads -----

  /** What the pool promises: the address is new, or some thread gave it back. */
  predicate MayAllocate<T>(s: State<T>, id: nat) {
    && id <= |s.m.nodes|
    && !s.m.InChain(id)
    && (forall t :: 0 <= t < |s.threads| ==> s.threads[t].Owned() != Some(id))
  }

  /** The exchange on `next_` of a push is about to succeed. */
  predicate Links<T>(s: State<T>, t: nat, a: Act<T>) {
    && t < |s.threads| && a.Go? && !a.weakFails && s.threads[t].PushLink?
    && s.threads[t].tail.ptr < |s.m.nodes|
    && s.m.nodes[s.threads[t].tail.ptr].next == None
    && s.m.nodes[s.threads[t].tail.ptr].tag == s.threads[t].tag
  }

  /** It succeeds on a node that is not the last one of the queue. */
  predicate Misled<T>(s: State<T>, t: nat, a: Act<T>) {
    && Links(s, t, a) && s.m.order != []
    && s.threads[t].tail.ptr != s.m.order[|s.m.order| - 1]
  }

  /** It succeeds while `tail_` is behind the last node already. */
  predicate Outruns<T>(s: State<T>, t: nat, a: Act<T>) {
    Links(s, t, a) && s.m.tail.tag + 1 < |s.m.order|
  }

  /** The pool hands out the node that some push is about to link behind. */
  predicate Reuses<T>(s: State<T>, t: nat, a: Act<T>) {
    && t < |s.threads| && a.Go? && s.threads[t].PushAlloc? && MayAllocate(s, a.addr)
    && exists u :: 0 <= u < |s.threads| && s.threads[u].PushLink? && s.threads[u].tail.ptr == a.addr
  }

  /** The shared memory becomes `m` and thread `t` stands at `l`. */
  function Put<T>(s: State<T>, t: nat, m: Store<T>, l: Thread<T>): State<T>
    requires t < |s.threads|
  {
    State(m, s.threads[t := l])
  }

  function AdvancePush<T>(s: State<T>, t: nat, a: Act<T>): (r: State<T>)
    requires s.Mapped() && t < |s.threads| && a.Go?
    ensures |r.threads| == |s.threads|
  {
    var m := s.m;
    match s.threads[t]
    case PushAlloc(v) =>
      if MayAllocate(s, a.addr) then Put(s, t, Allocate(m, v, a.addr), PushTail(v, a.addr)) else s
    case PushTail(v, p) =>
      Put(s, t, m, PushNext(v, p, m.tail))
    case PushNext(v, p, tail) =>
      Put(s, t, m, PushCheck(v, p, tail, m.nodes[tail.ptr].next, m.nodes[tail.ptr].tag))
    case PushCheck(v, p, tail, next, tag) =>
      if tail != m.tail then Put(s, t, m, PushTail(v, p))
      else if next == None then Put(s, t, m, PushLink(v, p, tail, tag))
      else Put(s, t, m, PushHelp(v, p, tail, next.value))
    case PushLink(v, p, tail, tag) =>
      if m.nodes[tail.ptr].next == None && m.nodes[tail.ptr].tag == tag && !a.weakFails
      then Put(s, t, Link(m, tail.ptr, p, v), PushSwing(p, tail))
      else Put(s, t, m, PushTail(v, p))
    case PushSwing(p, tail) =>
      Put(s, t, if tail == m.tail then Swing(m, p) else m, PushDone)
    case PushHelp(v, p, tail, to) =>
      if tail == m.tail && !a.weakFails then Put(s, t, Swing(m, to), PushTail(v, p))
      else Put(s, t, m, PushNext(v, p, m.tail))
    case _ => s
  }

  function AdvancePop<T>(s: State<T>, t: nat, a: Act<T>): (r: State<T>)
    requires s.Mapped() && t < |s.threads| && a.Go?
    ensures |r.threads| == |s.threads|
  {
    var m := s.m;
    match s.threads[t]
    case PopHead =>
      Put(s, t, m, PopTail(m.head))
    case PopTail(head) =>
      Put(s, t, m, PopNext(head, m.tail))
    case PopNext(head, tail) =>
      Put(s, t, m, PopCheck(head, tail, m.nodes[head.ptr].next, m.Contents() == []))
    case PopCheck(head, tail, next, _) =>
      if head != m.head then Put(s, t, m, PopHead)
      else if head.ptr == tail.ptr then
        if next == None then Put(s, t, m, PopDone(None)) else Put(s, t, m, PopHelp(tail, next.value))
      else if next == None then Put(s, t, m, NullDereference)
      else Put(s, t, m, PopRead(head, next.value))
    case PopHelp(tail, to) =>
      Put(s, t, if tail == m.tail && !a.weakFails then Swing(m, to) else m, PopHead)
    case PopRead(head, to) =>
      Put(s, t, m, PopTake(head, to, m.nodes[to].data))
    case PopTake(head, to, v) =>
      if head == m.head && !a.weakFails then Put(s, t, Take(m, to, v), PopFree(head.ptr, v))
      else Put(s, t, m, PopTail(m.head))
    case PopFree(node, v) =>
      Put(s, t, Release(m, node, a.junk), PopDone(Some(v)))
    case _ => s
  }

  /** One atomic access of thread `t`. */
  function Exec<T>(s: State<T>, t: nat, a: Act<T>): (r: State<T>)
    requires s.Mapped()
    ensures |r.threads| == |s.threads|
  {
    if t >= |s.threads| then s
    else match a
      case CallPush(v) => if s.threads[t].AtRest() then Put(s, t, s.m, PushAlloc(v)) else s
      case CallPop => if s.threads[t].AtRest() then Put(s, t, s.m, PopHead) else s
      case Go(_, _, _) => if s.threads[t].InPop() then AdvancePop(s, t, a) else AdvancePush(s, t, a)
      case Overwrite(node, junk) =>
        if MayAllocate(s, node) && node < |s.m.nodes| then s.(m := Release(s.m, node, junk)) else s
  }

  // ----- The invariant -----

  ghost predicate Indices<T>(m: Store<T>) {
    && |m.order| == |m.linked| + 1
    && m.head.tag <= m.tail.tag < |m.order|
    && m.head.ptr == m.order[m.head.tag] && m.tail.ptr == m.order[m.tail.tag]
    && m.popped == m.linked[..m.head.tag]
    && (forall k :: 0 <= k < |m.order| ==> m.order[k] < |m.nodes|)
  }

  /** The node at position `k` of the link order still has the `next_` it should have. */
  ghost predicate LinkOk<T>(m: Store<T>, k: nat) {
    && k < |m.order| && m.order[k] < |m.nodes|
    && m.nodes[m.order[k]].next == (if k + 1 < |m.order| then Some(m.order[k + 1]) else None)
    && m.nodes[m.order[k]].tag == (if k + 1 < |m.order| then 1 else 0)
  }

  /** From `head_` on, the nodes form one chain without repetition, ended by null, whose
      data are the abstract queue. */
  ghost predicate ChainOk<T>(m: Store<T>) {
    && Indices(m)
    && (forall k :: m.head.tag <= k < |m.order| ==> LinkOk(m, k))
    && (forall j, k :: m.head.tag <= j < k < |m.order| ==> m.order[j] != m.order[k])
    && (forall k :: m.head.tag < k < |m.order| ==> m.nodes[m.order[k]].data == m.linked[k - 1])
  }

  /** `x` was the value of `head_` or `tail_` at some time. */
  ghost predicate Placed<T>(m: Store<T>, x: Tagged) {
    x.tag < |m.order| && m.order[x.tag] == x.ptr
  }

  /** `to` is the node linked after `x`. */
  ghost predicate Follows<T>(m: Store<T>, x: Tagged, to: nat) {
    x.tag + 1 < |m.order| && m.order[x.tag + 1] == to
  }

  ghost predicate PrivateNode<T>(m: Store<T>, p: nat, v: T) {
    p < |m.nodes| && m.nodes[p] == Node(v, None, 0)
  }

  /** What a thread's locals say about shared memory. A node that has left the queue may
      have been handed out again, so what was loaded from it says nothing: the facts about
      a loaded `next_` hold while the node is still in the queue. */
  ghost predicate ThreadOk<T>(m: Store<T>, l: Thread<T>) {
    && (l.Owned().Some? ==> l.Owned().value < |m.nodes| && !m.InChain(l.Owned().value))
    && (l.Anchor().Some? ==> Placed(m, l.Anchor().value))
    && match l
       case Idle | PushAlloc(_) | PushDone | PopHead | PopDone(_) => true
       case PushTail(v, p) => PrivateNode(m, p, v)
       case PushNext(v, p, tail) => PrivateNode(m, p, v)
       case PushCheck(v, p, tail, next, tag) =>
         && PrivateNode(m, p, v)
         && (tail.tag >= m.head.tag ==>
               (next == None ==> tag == 0) && (next.Some? ==> Follows(m, tail, next.value)))
       case PushLink(v, p, tail, tag) => PrivateNode(m, p, v) && tail.tag <= m.tail.tag && tag == 0
       case PushSwing(p, tail) =>
         && Placed(m, tail) && tail.tag <= m.tail.tag
         && (tail.tag == m.tail.tag ==> Follows(m, tail, p))
       case PushHelp(v, p, tail, to) => PrivateNode(m, p, v) && Placed(m, tail) && Follows(m, tail, to)
       case PopTail(head) => head.tag <= m.head.tag
       case PopNext(head, tail) => head.tag <= m.head.tag && Placed(m, tail) && head.tag <= tail.tag <= m.tail.tag
       case PopCheck(head, tail, next, empty) =>
         && Placed(m, head) && Placed(m, tail) && head.tag <= m.head.tag && head.tag <= tail.tag <= m.tail.tag
         && (head.tag == m.head.tag ==>
               (next == None ==> empty && tail.tag == head.tag) && (next.Some? ==> Follows(m, head, next.value)))
       case PopHelp(tail, to) => Placed(m, tail) && Follows(m, tail, to)
       case PopRead(head, to) => head.tag <= m.head.tag && head.tag < m.tail.tag && Follows(m, head, to)
       case PopTake(head, to, v) =>
         && head.tag <= m.head.tag && head.tag < m.tail.tag && Follows(m, head, to)
         && (head.tag == m.head.tag ==> head.tag < |m.linked| && v == m.linked[head.tag])
       case PopFree(_, _) => true
       case NullDereference => false
  }

  /** Two threads own different nodes. */
  ghost predicate Apart<T>(l: Thread<T>, n: Thread<T>) {
    l.Owned().Some? ==> l.Owned() != n.Owned()
  }

  ghost predicate Inv<T>(s: State<T>) {
    && ChainOk(s.m)
    && (forall t :: 0 <= t < |s.threads| ==> ThreadOk(s.m, s.threads[t]))
    && (forall t, u :: 0 <= t < |s.threads| && 0 <= u < |s.threads| && t != u ==>
          Apart(s.threads[t], s.threads[u]))
  }

  lemma InitInv<T>(blank: T, threads: nat)
    ensures Inv(Init(blank, threads))
  {
  }

  lemma InvMapped<T>(s: State<T>)
    requires Inv(s)
    ensures s.Mapped()
  {
    forall t | 0 <= t < |s.threads|
      ensures Dereferences(s.threads[t]) <= |s.m.nodes|
    {
      assert ThreadOk(s.m, s.threads[t]);
    }
  }

  // ----- One pair of lemmas for each kind of step on shared memory -----

  lemma AllocateChain<T>(m: Store<T>, v: T, id: nat)
    requires ChainOk(m) && id <= |m.nodes| && !m.InChain(id)
    ensures ChainOk(Allocate(m, v, id))
  {
    var r := Allocate(m, v, id);
    forall k | m.head.tag <= k < |m.order|
      ensures LinkOk(r, k) && m.order[k] != id
    {
      assert m.InChain(m.order[k]) && LinkOk(m, k);
    }
  }

  lemma AllocateThread<T>(m: Store<T>, v: T, id: nat, l: Thread<T>)
    requires ChainOk(m) && id <= |m.nodes| && ThreadOk(m, l) && l.Owned() != Some(id)
    ensures ThreadOk(Allocate(m, v, id), l)
  {
  }

  /** The last node of the queue. */
  function Last<T>(m: Store<T>): nat
    requires m.order != []
  {
    m.order[|m.order| - 1]
  }

  lemma LastIsInChain<T>(m: Store<T>)
    requires ChainOk(m)
    ensures m.InChain(Last(m)) && Last(m) < |m.nodes|
    ensures m.nodes[Last(m)].next == None && m.nodes[Last(m)].tag == 0
  {
    assert LinkOk(m, |m.order| - 1);
  }

  lemma LinkChain<T>(m: Store<T>, p: nat, v: T)
    requires ChainOk(m) && !m.InChain(p) && PrivateNode(m, p, v)
    ensures Last(m) < |m.nodes| && ChainOk(Link(m, Last(m), p, v))
  {
    LastIsInChain(m);
    var r := Link(m, Last(m), p, v);
    assert r.linked[..r.head.tag] == m.linked[..m.head.tag];
    forall k | r.head.tag <= k < |r.order|
      ensures LinkOk(r, k)
    {
      assert k < |m.order| ==> LinkOk(m, k);
    }
    assert forall k :: m.head.tag <= k < |m.order| ==> m.InChain(m.order[k]);
  }

  /** What the other threads rely on survives the link. */
  lemma LinkThread<T>(m: Store<T>, p: nat, v: T, l: Thread<T>)
    requires ChainOk(m) && ThreadOk(m, l) && l.Owned() != Some(p)
    ensures Last(m) < |m.nodes| && ThreadOk(Link(m, Last(m), p, v), l)
  {
    LastIsInChain(m);
    LinkKeepsOut(m, p, v, l);
  }

  lemma LinkKeepsOut<T>(m: Store<T>, p: nat, v: T, l: Thread<T>)
    requires ChainOk(m) && ThreadOk(m, l) && l.Owned() != Some(p) && Last(m) < |m.nodes|
    ensures l.Owned().Some? ==> !Link(m, Last(m), p, v).InChain(l.Owned().value)
  {
    var r := Link(m, Last(m), p, v);
    forall k | r.head.tag <= k < |r.order| && l.Owned().Some?
      ensures r.order[k] != l.Owned().value
    {
      assert k < |m.order| ==> m.InChain(m.order[k]);
    }
  }

  lemma SwingChain<T>(m: Store<T>, to: nat)
    requires ChainOk(m) && Follows(m, m.tail, to)
    ensures ChainOk(Swing(m, to))
  {
    forall k | m.head.tag <= k < |m.order|
      ensures LinkOk(Swing(m, to), k)
    {
      assert LinkOk(m, k);
    }
  }

  lemma SwingThread<T>(m: Store<T>, to: nat, l: Thread<T>)
    requires ChainOk(m) && Follows(m, m.tail, to) && ThreadOk(m, l)
    ensures ThreadOk(Swing(m, to), l)
  {
  }

  /** Moving `head_` on needs `tail_` to be ahead. */
  lemma TakeChain<T>(m: Store<T>, to: nat, v: T)
    requires ChainOk(m) && Follows(m, m.head, to) && m.head.tag < m.tail.tag && v == m.linked[m.head.tag]
    ensures ChainOk(Take(m, to, v)) && !Take(m, to, v).InChain(m.head.ptr)
  {
    assert m.linked[..m.head.tag + 1] == m.linked[..m.head.tag] + [v];
    forall k | m.head.tag <= k < |m.order|
      ensures LinkOk(Take(m, to, v), k)
    {
      assert LinkOk(m, k);
    }
  }

  lemma TakeThread<T>(m: Store<T>, to: nat, v: T, l: Thread<T>)
    requires ChainOk(m) && Follows(m, m.head, to) && ThreadOk(m, l)
    ensures ThreadOk(Take(m, to, v), l)
  {
  }

  lemma ReleaseChain<T>(m: Store<T>, node: nat, junk: T)
    requires ChainOk(m) && node < |m.nodes| && !m.InChain(node)
    ensures ChainOk(Release(m, node, junk))
  {
    forall k | m.head.tag <= k < |m.order|
      ensures LinkOk(Release(m, node, junk), k) && m.order[k] != node
    {
      assert m.InChain(m.order[k]) && LinkOk(m, k);
    }
  }

  lemma ReleaseThread<T>(m: Store<T>, node: nat, junk: T, l: Thread<T>)
    requires ChainOk(m) && node < |m.nodes| && ThreadOk(m, l) && l.Owned() != Some(node)
    ensures ThreadOk(Release(m, node, junk), l)
  {
  }

  // ----- Every step -----

  /** A step of thread `t` keeps the invariant if its effect on shared memory suits every
      thread and its new locals stay apart from the others'. */
  lemma Assemble<T>(s: State<T>, t: nat, m: Store<T>, l: Thread<T>)
    requires Inv(s) && t < |s.threads| && ChainOk(m) && ThreadOk(m, l)
    requires forall u :: 0 <= u < |s.threads| && u != t ==> ThreadOk(m, s.threads[u])
    requires forall u :: 0 <= u < |s.threads| && u != t ==> Apart(l, s.threads[u]) && Apart(s.threads[u], l)
    ensures Inv(Put(s, t, m, l))
  {
    var r := Put(s, t, m, l);
    forall u, w | 0 <= u < |r.threads| && 0 <= w < |r.threads| && u != w
      ensures Apart(r.threads[u], r.threads[w])
    {
      if u != t && w != t {
        assert Apart(s.threads[u], s.threads[w]);
      }
    }
  }

  /** Locals that own no new node. */
  lemma StillApart<T>(s: State<T>, t: nat, l: Thread<T>)
    requires Inv(s) && t < |s.threads|
    requires l.Owned().Some? ==> l.Owned() == s.threads[t].Owned()
    ensures forall u :: 0 <= u < |s.threads| && u != t ==> Apart(l, s.threads[u]) && Apart(s.threads[u], l)
  {
    forall u | 0 <= u < |s.threads| && u != t
      ensures Apart(l, s.threads[u]) && Apart(s.threads[u], l)
    {
      assert Apart(s.threads[t], s.threads[u]) && Apart(s.threads[u], s.threads[t]);
      assert ThreadOk(s.m, s.threads[u]);
    }
  }

  /** Loads, failed exchanges and calls change only the thread's own locals. */
  lemma QuietKept<T>(s: State<T>, t: nat, l: Thread<T>)
    requires Inv(s) && t < |s.threads| && ThreadOk(s.m, l)
    requires l.Owned().Some? ==> l.Owned() == s.threads[t].Owned()
    ensures Inv(Put(s, t, s.m, l))
  {
    StillApart(s, t, l);
    Assemble(s, t, s.m, l);
  }

  /** Building a node at an address the pool may hand out, whoever still holds a pointer to it. */
  lemma AllocateKept<T>(s: State<T>, t: nat, v: T, id: nat)
    requires Inv(s) && t < |s.threads| && s.threads[t] == PushAlloc(v)
    requires MayAllocate(s, id)
    ensures Inv(Put(s, t, Allocate(s.m, v, id), PushTail(v, id)))
  {
    AllocateChain(s.m, v, id);
    forall u | 0 <= u < |s.threads| && u != t
      ensures ThreadOk(Allocate(s.m, v, id), s.threads[u])
    {
      AllocateThread(s.m, v, id, s.threads[u]);
    }
    Assemble(s, t, Allocate(s.m, v, id), PushTail(v, id));
  }

  /** While the node that `tail_` was loaded from is in the queue, an exchange on its
      `next_` that succeeds links behind the last node. */
  lemma LinksBehindLast<T>(m: Store<T>, v: T, p: nat, tail: Tagged, tag: nat)
    requires ChainOk(m) && ThreadOk(m, PushLink(v, p, tail, tag)) && tail.tag >= m.head.tag
    requires m.nodes[tail.ptr].next == None
    ensures tail.tag + 1 == |m.order| && tail == m.tail && m.nodes[tail.ptr].tag == tag == 0
  {
    assert LinkOk(m, tail.tag);
  }

  lemma LinkKept<T>(s: State<T>, t: nat, v: T, p: nat, tail: Tagged, tag: nat)
    requires Inv(s) && t < |s.threads| && s.threads[t] == PushLink(v, p, tail, tag) && tail.ptr == Last(s.m)
    ensures tail.ptr < |s.m.nodes| && Inv(Put(s, t, Link(s.m, tail.ptr, p, v), PushSwing(p, tail)))
  {
    assert ThreadOk(s.m, s.threads[t]);
    LinkChain(s.m, p, v);
    SwingAfterLink(s.m, v, p, tail, tag);
    forall u | 0 <= u < |s.threads| && u != t
      ensures ThreadOk(Link(s.m, tail.ptr, p, v), s.threads[u])
    {
      assert Apart(s.threads[t], s.threads[u]);
      LinkThread(s.m, p, v, s.threads[u]);
    }
    StillApart(s, t, PushSwing(p, tail));
    Assemble(s, t, Link(s.m, tail.ptr, p, v), PushSwing(p, tail));
  }

  /** After a link the exchange on `tail_` can succeed only if the node was linked behind
      the one `tail_` denotes. */
  lemma SwingAfterLink<T>(m: Store<T>, v: T, p: nat, tail: Tagged, tag: nat)
    requires ChainOk(m) && ThreadOk(m, PushLink(v, p, tail, tag)) && tail.ptr == Last(m)
    ensures Last(m) < |m.nodes| && ThreadOk(Link(m, Last(m), p, v), PushSwing(p, tail))
  {
    LastIsInChain(m);
    assert tail.tag >= m.head.tag ==> tail.tag == |m.order| - 1;
  }

  /** A link behind any other node leaves the last node of the queue without a successor. */
  lemma MisledBreaks<T>(s: State<T>, t: nat, a: Act<T>)
    requires Inv(s) && s.Mapped() && Misled(s, t, a)
    ensures !Inv(Exec(s, t, a))
  {
    LastIsInChain(s.m);
    var r := Exec(s, t, a).m;
    assert r.order[|s.m.order| - 1] == Last(s.m);
    assert r.nodes[Last(s.m)].next == None;
    assert !LinkOk(r, |s.m.order| - 1);
  }

  /** Moving `tail_` on to the node linked after it. */
  lemma SwingKept<T>(s: State<T>, t: nat, to: nat, l: Thread<T>)
    requires Inv(s) && t < |s.threads| && Follows(s.m, s.m.tail, to)
    requires ThreadOk(s.m, l)
    requires l.Owned().Some? ==> l.Owned() == s.threads[t].Owned()
    ensures Inv(Put(s, t, Swing(s.m, to), l))
  {
    SwingChain(s.m, to);
    SwingThread(s.m, to, l);
    forall u | 0 <= u < |s.threads| && u != t
      ensures ThreadOk(Swing(s.m, to), s.threads[u])
    {
      SwingThread(s.m, to, s.threads[u]);
    }
    StillApart(s, t, l);
    Assemble(s, t, Swing(s.m, to), l);
  }

  /** Moving `head_` on: the value returned is the oldest one, and the old dummy node is
      the thread's to free. */
  lemma TakeKept<T>(s: State<T>, t: nat, to: nat, v: T)
    requires Inv(s) && t < |s.threads| && s.threads[t] == PopTake(s.m.head, to, v)
    ensures Inv(Put(s, t, Take(s.m, to, v), PopFree(s.m.head.ptr, v)))
  {
    var l := PopFree(s.m.head.ptr, v);
    assert ThreadOk(s.m, s.threads[t]);
    TakeChain(s.m, to, v);
    assert s.m.InChain(s.m.head.ptr);
    forall u | 0 <= u < |s.threads| && u != t
      ensures ThreadOk(Take(s.m, to, v), s.threads[u]) && Apart(l, s.threads[u]) && Apart(s.threads[u], l)
    {
      assert ThreadOk(s.m, s.threads[u]);
      TakeThread(s.m, to, v, s.threads[u]);
    }
    Assemble(s, t, Take(s.m, to, v), l);
  }

  /** Freeing overwrites the data of a node that is out of the chain. */
  lemma ReleaseKept<T>(s: State<T>, t: nat, node: nat, v: T, junk: T)
    requires Inv(s) && t < |s.threads| && s.threads[t] == PopFree(node, v) && node < |s.m.nodes|
    ensures Inv(Put(s, t, Release(s.m, node, junk), PopDone(Some(v))))
  {
    assert ThreadOk(s.m, s.threads[t]);
    ReleaseChain(s.m, node, junk);
    forall u | 0 <= u < |s.threads| && u != t
      ensures ThreadOk(Release(s.m, node, junk), s.threads[u])
    {
      assert Apart(s.threads[t], s.threads[u]);
      ReleaseThread(s.m, node, junk, s.threads[u]);
    }
    StillApart(s, t, PopDone(Some(v)));
    Assemble(s, t, Release(s.m, node, junk), PopDone(Some(v)));
  }

  lemma PushNextKept<T>(s: State<T>, t: nat, a: Act<T>)
    requires Inv(s) && s.Mapped() && t < |s.threads| && a.Go? && s.threads[t].PushNext?
    ensures Inv(AdvancePush(s, t, a))
  {
    var tail := s.threads[t].tail;
    assert ThreadOk(s.m, s.threads[t]);
    assert tail.tag >= s.m.head.tag ==> LinkOk(s.m, tail.tag);
    QuietKept(s, t, AdvancePush(s, t, a).threads[t]);
  }

  lemma PushLoadKept<T>(s: State<T>, t: nat, a: Act<T>)
    requires Inv(s) && s.Mapped() && t < |s.threads| && a.Go?
    requires s.threads[t].PushTail? || s.threads[t].PushCheck?
    ensures Inv(AdvancePush(s, t, a))
  {
    assert ThreadOk(s.m, s.threads[t]);
    QuietKept(s, t, AdvancePush(s, t, a).threads[t]);
  }

  lemma PushExchangeKept<T>(s: State<T>, t: nat, a: Act<T>)
    requires Inv(s) && s.Mapped() && t < |s.threads| && a.Go? && !Misled(s, t, a)
    requires s.threads[t].PushLink? || s.threads[t].PushSwing? || s.threads[t].PushHelp?
    ensures Inv(AdvancePush(s, t, a))
  {
    var m := s.m;
    assert ThreadOk(m, s.threads[t]);
    match s.threads[t]
    case PushLink(v, p, tail, tag) =>
      if Links(s, t, a) { LinkKept(s, t, v, p, tail, tag); } else { QuietKept(s, t, PushTail(v, p)); }
    case PushSwing(p, tail) =>
      if tail == m.tail { SwingKept(s, t, p, PushDone); } else { QuietKept(s, t, PushDone); }
    case PushHelp(v, p, tail, to) =>
      if tail == m.tail && !a.weakFails { SwingKept(s, t, to, PushTail(v, p)); }
      else { QuietKept(s, t, PushNext(v, p, m.tail)); }
  }

  /** While `head_` has not moved since it was loaded, equal pointers mean equal places. */
  lemma SamePlace<T>(m: Store<T>, head: Tagged, tail: Tagged)
    requires ChainOk(m) && head == m.head && Placed(m, tail) && head.tag <= tail.tag && head.ptr == tail.ptr
    ensures head == tail
  {
  }

  /** The check of `head_` leads to an empty answer, to a swing of `tail_`, or to a read
      of a node that exists: never to a null dereference. */
  lemma PopCheckKept<T>(s: State<T>, t: nat, a: Act<T>)
    requires Inv(s) && s.Mapped() && t < |s.threads| && a.Go? && s.threads[t].PopCheck?
    ensures Inv(AdvancePop(s, t, a)) && !AdvancePop(s, t, a).threads[t].NullDereference?
  {
    var l := s.threads[t];
    assert ThreadOk(s.m, l);
    if l.head == s.m.head && l.head.ptr == l.tail.ptr {
      SamePlace(s.m, l.head, l.tail);
    }
    QuietKept(s, t, AdvancePop(s, t, a).threads[t]);
  }

  lemma PopNextKept<T>(s: State<T>, t: nat, a: Act<T>)
    requires Inv(s) && s.Mapped() && t < |s.threads| && a.Go? && s.threads[t].PopNext?
    ensures Inv(AdvancePop(s, t, a))
  {
    var m := s.m;
    assert ThreadOk(m, s.threads[t]);
    assert LinkOk(m, m.head.tag);
    QuietKept(s, t, AdvancePop(s, t, a).threads[t]);
  }

  lemma PopLoadKept<T>(s: State<T>, t: nat, a: Act<T>)
    requires Inv(s) && s.Mapped() && t < |s.threads| && a.Go?
    requires s.threads[t].PopHead? || s.threads[t].PopTail? || s.threads[t].PopRead?
    ensures Inv(AdvancePop(s, t, a))
  {
    assert ThreadOk(s.m, s.threads[t]);
    QuietKept(s, t, AdvancePop(s, t, a).threads[t]);
  }

  lemma PopExchangeKept<T>(s: State<T>, t: nat, a: Act<T>)
    requires Inv(s) && s.Mapped() && t < |s.threads| && a.Go?
    requires s.threads[t].PopHelp? || s.threads[t].PopTake? || s.threads[t].PopFree?
    ensures Inv(AdvancePop(s, t, a))
  {
    var m := s.m;
    assert ThreadOk(m, s.threads[t]);
    match s.threads[t]
    case PopHelp(tail, to) =>
      if tail == m.tail && !a.weakFails { SwingKept(s, t, to, PopHead); } else { QuietKept(s, t, PopHead); }
    case PopTake(head, to, v) =>
      if head == m.head && !a.weakFails { TakeKept(s, t, to, v); } else { QuietKept(s, t, PopTail(m.head)); }
    case PopFree(node, v) => ReleaseKept(s, t, node, v, a.junk);
  }

  lemma OverwriteKept<T>(s: State<T>, t: nat, node: nat, junk: T)
    requires Inv(s) && s.Mapped() && t < |s.threads|
    ensures Inv(Exec(s, t, Overwrite(node, junk)))
  {
    if MayAllocate(s, node) && node < |s.m.nodes| {
      ReleaseChain(s.m, node, junk);
      forall u | 0 <= u < |s.threads|
        ensures ThreadOk(Release(s.m, node, junk), s.threads[u])
      {
        ReleaseThread(s.m, node, junk, s.threads[u]);
      }
    }
  }

  lemma GoKept<T>(s: State<T>, t: nat, a: Act<T>)
    requires Inv(s) && s.Mapped() && t < |s.threads| && a.Go? && !Misled(s, t, a)
    ensures Inv(Exec(s, t, a))
  {
    match s.threads[t]
    case PushAlloc(v) => if MayAllocate(s, a.addr) { AllocateKept(s, t, v, a.addr); }
    case PushTail(_, _) | PushCheck(_, _, _, _, _) => PushLoadKept(s, t, a);
    case PushNext(_, _, _) => PushNextKept(s, t, a);
    case PushLink(_, _, _, _) | PushSwing(_, _) | PushHelp(_, _, _, _) => PushExchangeKept(s, t, a);
    case PopHead | PopTail(_) | PopRead(_, _) => PopLoadKept(s, t, a);
    case PopNext(_, _) => PopNextKept(s, t, a);
    case PopCheck(_, _, _, _) => PopCheckKept(s, t, a);
    case PopHelp(_, _) | PopTake(_, _, _) | PopFree(_, _) => PopExchangeKept(s, t, a);
    case _ =>
  }

  /** One access keeps the queue a queue if and only if it is no link behind a node that
      is not the last: whatever nodes the pool hands out again, and whoever still holds
      pointers to them, every other access is harmless. */
  lemma ExecInvIff<T>(s: State<T>, t: nat, a: Act<T>)
    requires Inv(s) && s.Mapped()
    ensures Inv(Exec(s, t, a)) <==> !Misled(s, t, a)
  {
    if Misled(s, t, a) {
      MisledBreaks(s, t, a);
    } else if t < |s.threads| {
      match a
      case Go(_, _, _) => GoKept(s, t, a);
      case Overwrite(node, junk) => OverwriteKept(s, t, node, junk);
      case CallPush(v) => if s.threads[t].AtRest() { QuietKept(s, t, PushAlloc(v)); }
      case CallPop => if s.threads[t].AtRest() { QuietKept(s, t, PopHead); }
    }
  }
}
