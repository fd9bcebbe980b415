/**
 `pool`: a lock-free stack of free nodes behind a one-node cache. A node's first word is
 its link while it is in the pool and belongs to its client otherwise, so a client may
 write anything there. Nodes are addresses, counted up from 0 as they are made.

 `chain`, `client` and `owner` are history variables: the nodes reachable from
 `cursor_`, the nodes in the clients' hands, and where each node is.
 */
module NodePoolMachine {
  import opened Common

  type Link = Option<nat>

  datatype Tagged = Tagged(ptr: Link, tag: nat)

  datatype Place = Client | Cached | Stacked | Flight(t: nat)

  /** The atomic access a thread performs next, with the locals it still needs. */
  datatype Thread =
    | Idle
    | AllocCache
    | AllocLoad
    | AllocNext(curr: Tagged)
    | AllocSwap(curr: Tagged, next: Link)
    | AllocDone(node: nat)
    | FreeCache(node: nat)
    | FreeLoad(temp: nat)
    | FreeLink(temp: nat, curr: Tagged)
    | FreeSwap(temp: nat, curr: Tagged)
    | FreeDone
  {
    predicate AtRest() {
      Idle? || AllocDone? || FreeDone?
    }

    /** The node an operation of `free` carries. */
    function Carried(): Option<nat> {
      match this
      case FreeCache(node) => Some(node)
      case FreeLoad(temp) => Some(temp)
      case FreeLink(temp, _) => Some(temp)
      case FreeSwap(temp, _) => Some(temp)
      case _ => None
    }
  }

  /** `Scribble` is a client writing to a node it holds; `junk` is what a new node's first
      word happens to contain. */
  datatype Act =
    | CallAlloc
    | CallFree(p: Option<nat>)
    | Scribble(node: nat, word: Link)
    | Go(weakFails: bool, junk: Link)

  datatype Choice = Choice(thread: nat, act: Act)

  datatype Store = Store(links: seq<Link>, cache: Option<nat>, cursor: Tagged,
                         chain: seq<nat>, client: set<nat>, owner: seq<Place>)

  datatype State = State(m: Store, threads: seq<Thread>)
  {
    /** Every pointer the step of a thread follows is the address of a node. */
    predicate Mapped() {
      && |m.owner| == |m.links|
      && (forall t :: 0 <= t < |threads| ==> Dereferences(threads[t]) <= |m.links|)
    }
  }

  function Dereferences(l: Thread): nat {
    match l
    case AllocNext(curr) => if curr.ptr.Some? then curr.ptr.value + 1 else 0
    case FreeLink(temp, _) => temp + 1
    case _ => 0
  }

  function Init(threads: nat): State {
    State(Store([], None, Tagged(None, 0), [], {}, []), seq(threads, _ => Idle))
  }

  // ----- The steps on shared memory -----

  /** The cached node, or the top of the stack, goes to a client. */
  function HandOut(m: Store, id: nat): Store {
    m.(client := m.client + {id}, owner := SetAt(m.owner, id, Client))
  }

  function NewNode(m: Store, junk: Link): Store {
    m.(links := m.links + [junk], client := m.client + {|m.links|}, owner := m.owner + [Client])
  }

  /** A client passes a node to `free`, carried by thread `t`. */
  function HandIn(m: Store, id: nat, t: nat): Store {
    m.(client := m.client - {id}, owner := SetAt(m.owner, id, Flight(t)))
  }

  /** `el_.exchange(node)`: the node is cached and the one it displaces is carried on. */
  function Cache(m: Store, id: nat, t: nat): Store {
    m.(cache := Some(id),
    owner := if m.cache.Some? then SetAt(SetAt(m.owner, id, Cached), m.cache.value, Flight(t))
             else SetAt(m.owner, id, Cached))
  }

  function Pop(m: Store, next: Link): Store {
    m.(cursor := Tagged(next, m.cursor.tag + 1), chain := if |m.chain| > 0 then m.chain[1..] else [])
  }

  function Push(m: Store, temp: nat): Store {
    m.(cursor := Tagged(Some(temp), m.cursor.tag + 1), chain := [temp] + m.chain,
    owner := SetAt(m.owner, temp, Stacked))
  }

  // ----- The steps of the threads -----

  function Put(s: State, t: nat, m: Store, l: Thread): State
    requires t < |s.threads|
  {
    State(m, s.threads[t := l])
  }

  function Advance(s: State, t: nat, a: Act): (r: State)
    requires s.Mapped() && t < |s.threads| && a.Go?
    ensures |r.threads| == |s.threads|
  {
    var m := s.m;
    match s.threads[t]
    case Idle | AllocDone(_) | FreeDone => s
    case AllocCache =>
      if m.cache.Some? then Put(s, t, HandOut(m, m.cache.value).(cache := None), AllocDone(m.cache.value))
      else Put(s, t, m, AllocLoad)
    case AllocLoad => Put(s, t, m, AllocNext(m.cursor))
    case AllocNext(curr) =>
      if curr.ptr == None then Put(s, t, NewNode(m, a.junk), AllocDone(|m.links|))
      else Put(s, t, m, AllocSwap(curr, m.links[curr.ptr.value]))
    case AllocSwap(curr, next) =>
      if curr == m.cursor && curr.ptr.Some? && !a.weakFails then
        Put(s, t, HandOut(Pop(m, next), curr.ptr.value), AllocDone(curr.ptr.value))
      else Put(s, t, m, AllocNext(m.cursor))
    case FreeCache(node) =>
      Put(s, t, Cache(m, node, t), if m.cache == None then FreeDone else FreeLoad(m.cache.value))
    case FreeLoad(temp) => Put(s, t, m, FreeLink(temp, m.cursor))
    case FreeLink(temp, curr) => Put(s, t, m.(links := m.links[temp := curr.ptr]), FreeSwap(temp, curr))
    case FreeSwap(temp, curr) =>
      if curr == m.cursor && !a.weakFails then Put(s, t, Push(m, temp), FreeDone)
      else Put(s, t, m, FreeLink(temp, m.cursor))
  }

  /** A call, a client's write, or one atomic access of thread `t`. A client frees only a
      node it holds. */
  function Exec(s: State, t: nat, a: Act): (r: State)
    requires s.Mapped()
    ensures |r.threads| == |s.threads|
  {
    if t >= |s.threads| then s
    else match a
      case CallAlloc => if s.threads[t].AtRest() then Put(s, t, s.m, AllocCache) else s
      case CallFree(p) =>
        if !s.threads[t].AtRest() then s
        else if p == None then Put(s, t, s.m, FreeDone)
        else if p.value in s.m.client then Put(s, t, HandIn(s.m, p.value, t), FreeCache(p.value))
        else s
      case Scribble(node, word) =>
        if node in s.m.client && node < |s.m.links| then s.(m := s.m.(links := s.m.links[node := word])) else s
      case Go(_, _) => Advance(s, t, a)
  }

  // ----- The invariant -----

  ghost predicate LinkOk(m: Store, k: nat) {
    && k < |m.chain| && m.chain[k] < |m.links|
    && m.links[m.chain[k]] == (if k + 1 < |m.chain| then Some(m.chain[k + 1]) else None)
  }

  /** The links from `cursor_` on form one chain without repetition, ended by null. */
  ghost predicate ChainOk(m: Store) {
    && m.cursor.ptr == (if m.chain == [] then None else Some(m.chain[0]))
    && (forall k :: 0 <= k < |m.chain| ==> LinkOk(m, k))
    && (forall j, k :: 0 <= j < k < |m.chain| ==> m.chain[j] != m.chain[k])
  }

  /** `owner` says where each node is, as far as shared memory shows. */
  ghost predicate OwnersOk(m: Store) {
    && |m.owner| == |m.links|
    && (forall id :: id in m.client <==> 0 <= id < |m.owner| && m.owner[id] == Client)
    && (m.cache.Some? ==> m.cache.value < |m.owner|)
    && (forall id :: 0 <= id < |m.owner| ==> (m.owner[id] == Cached <==> m.cache == Some(id)))
    && (forall k :: 0 <= k < |m.chain| ==> m.chain[k] < |m.owner| && m.owner[m.chain[k]] == Stacked)
    && (forall id :: 0 <= id < |m.owner| && m.owner[id] == Stacked ==> id in m.chain)
  }

  ghost predicate MemoryOk(m: Store) {
    ChainOk(m) && OwnersOk(m)
  }

  /** The node below the top of the stack. */
  function Second(m: Store): Link {
    if |m.chain| > 1 then Some(m.chain[1]) else None
  }

  /** A loaded `cursor_` is current, or its tag says that it is not. */
  ghost predicate Seen(m: Store, curr: Tagged) {
    && curr.tag <= m.cursor.tag && (curr.tag == m.cursor.tag ==> curr == m.cursor)
    && (curr.ptr.Some? ==> curr.ptr.value < |m.links|)
  }

  ghost predicate ThreadOk(m: Store, t: nat, l: Thread) {
    && (l.Carried().Some? ==> l.Carried().value < |m.owner| && m.owner[l.Carried().value] == Flight(t))
    && match l
       case AllocNext(curr) => Seen(m, curr)
       case AllocSwap(curr, next) =>
         && Seen(m, curr) && curr.ptr.Some?
         && (curr.tag == m.cursor.tag ==> next == Second(m))
       case FreeLink(_, curr) => Seen(m, curr)
       case FreeSwap(temp, curr) => Seen(m, curr) && temp < |m.links| && m.links[temp] == curr.ptr
       case _ => true
  }

  ghost predicate Inv(s: State) {
    && MemoryOk(s.m)
    && (forall t :: 0 <= t < |s.threads| ==> ThreadOk(s.m, t, s.threads[t]))
    && (forall id :: 0 <= id < |s.m.owner| && s.m.owner[id].Flight? ==>
          s.m.owner[id].t < |s.threads| && s.threads[s.m.owner[id].t].Carried() == Some(id))
  }

  lemma InitInv(threads: nat)
    ensures Inv(Init(threads)) && Init(threads).Mapped()
  {
  }

  // ----- One pair of lemmas for each kind of step on shared memory -----

  /** A node leaves the cache for a client. */
  lemma UncacheMemory(m: Store)
    requires MemoryOk(m) && m.cache.Some?
    ensures m.cache.value !in m.client && MemoryOk(HandOut(m, m.cache.value).(cache := None))
  {
    var r := HandOut(m, m.cache.value).(cache := None);
    assert m.owner[m.cache.value] == Cached;
    forall k | 0 <= k < |m.chain|
      ensures LinkOk(r, k)
    {
      assert LinkOk(m, k);
    }
  }

  lemma PopChain(m: Store, next: Link)
    requires ChainOk(m) && m.cursor.ptr.Some? && next == Second(m)
    ensures ChainOk(HandOut(Pop(m, next), m.cursor.ptr.value))
  {
    var r := HandOut(Pop(m, next), m.cursor.ptr.value);
    forall k | 0 <= k < |r.chain|
      ensures LinkOk(r, k)
    {
      assert LinkOk(m, k + 1);
    }
  }

  lemma PopOwners(m: Store, next: Link)
    requires ChainOk(m) && OwnersOk(m) && m.cursor.ptr.Some?
    ensures m.cursor.ptr.value !in m.client
    ensures OwnersOk(HandOut(Pop(m, next), m.cursor.ptr.value))
  {
    var top := m.cursor.ptr.value;
    var r := HandOut(Pop(m, next), top);
    assert m.chain[0] == top;
    forall k | 0 <= k < |r.chain|
      ensures r.chain[k] < |r.owner| && r.owner[r.chain[k]] == Stacked
    {
      assert m.chain[0] != m.chain[k + 1];
    }
    forall id | 0 <= id < |r.owner| && r.owner[id] == Stacked
      ensures id in r.chain
    {
      var k :| 0 <= k < |m.chain| && m.chain[k] == id;
      assert r.chain[k - 1] == id;
    }
  }

  /** The top of the stack goes to a client; the next node is the new top. */
  lemma PopMemory(m: Store, next: Link)
    requires MemoryOk(m) && m.cursor.ptr.Some? && next == Second(m)
    ensures m.cursor.ptr.value !in m.client
    ensures MemoryOk(HandOut(Pop(m, next), m.cursor.ptr.value))
  {
    PopChain(m, next);
    PopOwners(m, next);
  }

  lemma NewMemory(m: Store, junk: Link)
    requires MemoryOk(m)
    ensures |m.links| !in m.client && MemoryOk(NewNode(m, junk))
  {
    forall k | 0 <= k < |m.chain|
      ensures LinkOk(NewNode(m, junk), k)
    {
      assert LinkOk(m, k);
    }
  }

  lemma HandInMemory(m: Store, id: nat, t: nat)
    requires MemoryOk(m) && id in m.client
    ensures MemoryOk(HandIn(m, id, t))
  {
    forall k | 0 <= k < |m.chain|
      ensures LinkOk(HandIn(m, id, t), k)
    {
      assert LinkOk(m, k);
    }
  }

  lemma CacheOwners(m: Store, id: nat, t: nat)
    requires OwnersOk(m) && id < |m.owner| && m.owner[id] == Flight(t)
    ensures OwnersOk(Cache(m, id, t))
  {
  }

  lemma CacheMemory(m: Store, id: nat, t: nat)
    requires MemoryOk(m) && id < |m.owner| && m.owner[id] == Flight(t)
    ensures MemoryOk(Cache(m, id, t))
  {
    CacheOwners(m, id, t);
    forall k | 0 <= k < |m.chain|
      ensures LinkOk(Cache(m, id, t), k)
    {
      assert LinkOk(m, k);
    }
  }

  /** Writing the first word of a node outside the pool. */
  lemma WriteMemory(m: Store, id: nat, word: Link)
    requires MemoryOk(m) && id < |m.links| && m.owner[id] != Stacked
    ensures MemoryOk(m.(links := m.links[id := word]))
  {
    var r := m.(links := m.links[id := word]);
    forall k | 0 <= k < |m.chain|
      ensures LinkOk(r, k)
    {
      assert LinkOk(m, k);
    }
  }

  lemma PushChain(m: Store, temp: nat)
    requires ChainOk(m) && temp < |m.links| && temp !in m.chain && m.links[temp] == m.cursor.ptr
    ensures ChainOk(Push(m, temp))
  {
    var r := Push(m, temp);
    forall k | 0 <= k < |r.chain|
      ensures LinkOk(r, k)
    {
      if k > 0 {
        assert LinkOk(m, k - 1);
      }
    }
  }

  lemma PushOwners(m: Store, temp: nat, t: nat)
    requires OwnersOk(m) && temp < |m.owner| && m.owner[temp] == Flight(t)
    ensures OwnersOk(Push(m, temp))
  {
    var r := Push(m, temp);
    forall k | 0 <= k < |r.chain|
      ensures r.chain[k] < |r.owner| && r.owner[r.chain[k]] == Stacked
    {
      assert k > 0 ==> r.chain[k] == m.chain[k - 1];
    }
    forall id | 0 <= id < |r.owner| && r.owner[id] == Stacked
      ensures id in r.chain
    {
      if id != temp {
        assert id in m.chain;
      }
    }
  }

  lemma PushMemory(m: Store, temp: nat, t: nat)
    requires MemoryOk(m) && temp < |m.owner| && m.owner[temp] == Flight(t) && m.links[temp] == m.cursor.ptr
    ensures MemoryOk(Push(m, temp))
  {
    PushChain(m, temp);
    PushOwners(m, temp, t);
  }

  // ----- Every step -----

  /** The effect `r` leaves alone what the locals `l` of another thread rely on. */
  ghost predicate Respects(m: Store, r: Store, l: Thread) {
    && |r.links| == |r.owner| >= |m.owner| == |m.links|
    && (l.Carried().Some? ==>
          var id := l.Carried().value;
          id < |m.owner| && r.owner[id] == m.owner[id] && r.links[id] == m.links[id])
    && ((r.cursor == m.cursor && r.chain == m.chain) || r.cursor.tag == m.cursor.tag + 1)
  }

  lemma OtherThread(m: Store, r: Store, u: nat, l: Thread)
    requires ThreadOk(m, u, l) && Respects(m, r, l)
    ensures ThreadOk(r, u, l)
  {
  }

  /** A step of thread `t` keeps the invariant if its effect suits shared memory, its new
      locals and the other threads, and every node on its way to the pool is still
      carried. */
  lemma Assemble(s: State, t: nat, r: Store, l: Thread)
    requires Inv(s) && t < |s.threads| && MemoryOk(r) && ThreadOk(r, t, l)
    requires forall u :: 0 <= u < |s.threads| && u != t ==> Respects(s.m, r, s.threads[u])
    requires forall id :: 0 <= id < |r.owner| && r.owner[id].Flight? ==>
      (if r.owner[id].t == t then l.Carried() == Some(id) else id < |s.m.owner| && s.m.owner[id] == r.owner[id])
    ensures Inv(Put(s, t, r, l))
  {
    forall u | 0 <= u < |s.threads| && u != t
      ensures ThreadOk(r, u, s.threads[u])
    {
      assert ThreadOk(s.m, u, s.threads[u]);
      OtherThread(s.m, r, u, s.threads[u]);
    }
  }

  /** What every thread's locals say about the node it carries. */
  lemma Carriers(s: State)
    requires Inv(s)
    ensures forall u :: 0 <= u < |s.threads| && s.threads[u].Carried().Some? ==>
      s.threads[u].Carried().value < |s.m.owner| && s.m.owner[s.threads[u].Carried().value] == Flight(u)
  {
    forall u | 0 <= u < |s.threads| && s.threads[u].Carried().Some?
      ensures s.threads[u].Carried().value < |s.m.owner| && s.m.owner[s.threads[u].Carried().value] == Flight(u)
    {
      assert ThreadOk(s.m, u, s.threads[u]);
    }
  }

  lemma UncacheKept(s: State, t: nat, a: Act)
    requires Inv(s) && s.Mapped() && t < |s.threads| && a.Go? && s.threads[t] == AllocCache
    ensures Inv(Advance(s, t, a))
  {
    var r := Advance(s, t, a);
    Carriers(s);
    if s.m.cache.Some? {
      UncacheMemory(s.m);
    }
    Assemble(s, t, r.m, r.threads[t]);
  }

  lemma NextKept(s: State, t: nat, a: Act)
    requires Inv(s) && s.Mapped() && t < |s.threads| && a.Go? && s.threads[t].AllocNext?
    ensures Inv(Advance(s, t, a))
  {
    var r := Advance(s, t, a);
    assert ThreadOk(s.m, t, s.threads[t]);
    Carriers(s);
    if s.threads[t].curr.ptr == None {
      NewMemory(s.m, a.junk);
    } else {
      assert s.m.chain != [] ==> LinkOk(s.m, 0);
    }
    Assemble(s, t, r.m, r.threads[t]);
  }

  /** The swap that takes the top suits the other threads. */
  lemma PopRespects(m: Store, next: Link, u: nat, l: Thread)
    requires MemoryOk(m) && m.cursor.ptr.Some? && ThreadOk(m, u, l)
    ensures Respects(m, HandOut(Pop(m, next), m.cursor.ptr.value), l)
  {
    assert m.chain[0] == m.cursor.ptr.value;
    assert m.owner[m.chain[0]] == Stacked;
  }

  lemma PopKept(s: State, t: nat, next: Link)
    requires Inv(s) && s.Mapped() && t < |s.threads| && s.threads[t] == AllocSwap(s.m.cursor, next)
    ensures s.m.cursor.ptr.Some?
    ensures Inv(Put(s, t, HandOut(Pop(s.m, next), s.m.cursor.ptr.value), AllocDone(s.m.cursor.ptr.value)))
  {
    assert ThreadOk(s.m, t, s.threads[t]);
    PopMemory(s.m, next);
    forall u | 0 <= u < |s.threads| && u != t
      ensures Respects(s.m, HandOut(Pop(s.m, next), s.m.cursor.ptr.value), s.threads[u])
    {
      PopRespects(s.m, next, u, s.threads[u]);
    }
    Assemble(s, t, HandOut(Pop(s.m, next), s.m.cursor.ptr.value), AllocDone(s.m.cursor.ptr.value));
  }

  lemma SwapOutKept(s: State, t: nat, a: Act)
    requires Inv(s) && s.Mapped() && t < |s.threads| && a.Go? && s.threads[t].AllocSwap?
    ensures Inv(Advance(s, t, a))
  {
    if s.threads[t].curr == s.m.cursor && !a.weakFails {
      PopKept(s, t, s.threads[t].next);
    } else {
      assert ThreadOk(s.m, t, s.threads[t]);
      Carriers(s);
      assert s.m.chain != [] ==> LinkOk(s.m, 0);
      Assemble(s, t, s.m, AllocNext(s.m.cursor));
    }
  }

  lemma CacheKept(s: State, t: nat, a: Act)
    requires Inv(s) && s.Mapped() && t < |s.threads| && a.Go? && s.threads[t].FreeCache?
    ensures Inv(Advance(s, t, a))
  {
    var r := Advance(s, t, a);
    assert ThreadOk(s.m, t, s.threads[t]);
    Carriers(s);
    CacheMemory(s.m, s.threads[t].node, t);
    Assemble(s, t, r.m, r.threads[t]);
  }

  lemma LinkKept(s: State, t: nat, a: Act)
    requires Inv(s) && s.Mapped() && t < |s.threads| && a.Go? && s.threads[t].FreeLink?
    ensures Inv(Advance(s, t, a))
  {
    var r := Advance(s, t, a);
    assert ThreadOk(s.m, t, s.threads[t]);
    Carriers(s);
    WriteMemory(s.m, s.threads[t].temp, s.threads[t].curr.ptr);
    Assemble(s, t, r.m, r.threads[t]);
  }

  lemma SwapInKept(s: State, t: nat, a: Act)
    requires Inv(s) && s.Mapped() && t < |s.threads| && a.Go? && s.threads[t].FreeSwap?
    ensures Inv(Advance(s, t, a))
  {
    var r := Advance(s, t, a);
    assert ThreadOk(s.m, t, s.threads[t]);
    Carriers(s);
    if s.threads[t].curr == s.m.cursor && !a.weakFails {
      PushMemory(s.m, s.threads[t].temp, t);
      Assemble(s, t, Push(s.m, s.threads[t].temp), FreeDone);
    } else {
      assert s.m.chain != [] ==> LinkOk(s.m, 0);
      Assemble(s, t, s.m, r.threads[t]);
    }
  }

  lemma LoadKept(s: State, t: nat, a: Act)
    requires Inv(s) && s.Mapped() && t < |s.threads| && a.Go?
    requires s.threads[t].AllocLoad? || s.threads[t].FreeLoad?
    ensures Inv(Advance(s, t, a))
  {
    assert ThreadOk(s.m, t, s.threads[t]);
    Carriers(s);
    assert s.m.chain != [] ==> LinkOk(s.m, 0);
    Assemble(s, t, s.m, Advance(s, t, a).threads[t]);
  }

  lemma AdvanceKept(s: State, t: nat, a: Act)
    requires Inv(s) && s.Mapped() && t < |s.threads| && a.Go?
    ensures Inv(Advance(s, t, a))
  {
    match s.threads[t]
    case Idle | AllocDone(_) | FreeDone =>
    case AllocCache => UncacheKept(s, t, a);
    case AllocLoad | FreeLoad(_) => LoadKept(s, t, a);
    case AllocNext(_) => NextKept(s, t, a);
    case AllocSwap(_, _) => SwapOutKept(s, t, a);
    case FreeCache(_) => CacheKept(s, t, a);
    case FreeLink(_, _) => LinkKept(s, t, a);
    case FreeSwap(_, _) => SwapInKept(s, t, a);
  }

  lemma CallKept(s: State, t: nat, a: Act)
    requires Inv(s) && s.Mapped() && t < |s.threads| && (a.CallAlloc? || a.CallFree?)
    ensures Inv(Exec(s, t, a))
  {
    if s.threads[t].AtRest() {
      match a
      case CallAlloc => Assemble(s, t, s.m, AllocCache);
      case CallFree(p) =>
        if p.Some? && p.value in s.m.client {
          HandInMemory(s.m, p.value, t);
          Carriers(s);
          Assemble(s, t, HandIn(s.m, p.value, t), FreeCache(p.value));
        } else if p == None {
          Assemble(s, t, s.m, FreeDone);
        }
    }
  }

  lemma ScribbleKept(s: State, t: nat, node: nat, word: Link)
    requires Inv(s) && s.Mapped() && t < |s.threads| && node in s.m.client
    ensures Inv(Exec(s, t, Scribble(node, word)))
  {
    var r := s.m.(links := s.m.links[node := word]);
    WriteMemory(s.m, node, word);
    assert ThreadOk(s.m, t, s.threads[t]);
    Carriers(s);
    OtherThread(s.m, r, t, s.threads[t]);
    Assemble(s, t, r, s.threads[t]);
    assert s.threads[t := s.threads[t]] == s.threads;
  }

  /** Every call, client write and atomic access keeps the invariant. */
  lemma ExecInv(s: State, t: nat, a: Act)
    requires Inv(s) && s.Mapped()
    ensures Inv(Exec(s, t, a)) && Exec(s, t, a).Mapped()
  {
    if t < |s.threads| {
      match a
      case CallAlloc => CallKept(s, t, a);
      case CallFree(_) => CallKept(s, t, a);
      case Scribble(node, word) => if node in s.m.client { ScribbleKept(s, t, node, word); }
      case Go(_, _) => AdvanceKept(s, t, a);
    }
    InvMapped(Exec(s, t, a));
  }

  lemma InvMapped(s: State)
    requires Inv(s)
    ensures s.Mapped()
  {
    forall t | 0 <= t < |s.threads|
      ensures Dereferences(s.threads[t]) <= |s.m.links|
    {
      assert ThreadOk(s.m, t, s.threads[t]);
    }
  }
}
