/**
 What `pool` guarantees under every interleaving of `alloc`, `free` and the clients' own
 writes, and the pool as an object changed in place.
 */
module NodePool {
  import opened Common
  import opened NodePoolMachine

  function Run(s: State, schedule: seq<Choice>): State
    decreases |schedule|
  {
    if schedule == [] || !s.Mapped() then s
    else Run(Exec(s, schedule[0].thread, schedule[0].act), schedule[1..])
  }

  lemma {:induction false} RunInv(s: State, schedule: seq<Choice>)
    requires Inv(s) && s.Mapped()
    ensures Inv(Run(s, schedule)) && Run(s, schedule).Mapped()
    decreases |schedule|
  {
    if schedule != [] {
      ExecInv(s, schedule[0].thread, schedule[0].act);
      RunInv(Exec(s, schedule[0].thread, schedule[0].act), schedule[1..]);
    }
  }

  /** Some thread inside `free` carries the node. */
  ghost predicate CarriedBySome(s: State, id: nat) {
    exists t :: 0 <= t < |s.threads| && s.threads[t].Carried() == Some(id)
  }

  function Count(b: bool): nat {
    if b then 1 else 0
  }

  lemma PlaceOf(s: State, id: nat)
    requires Inv(s) && id < |s.m.links|
    ensures id in s.m.client <==> s.m.owner[id] == Client
    ensures s.m.cache == Some(id) <==> s.m.owner[id] == Cached
    ensures id in s.m.chain <==> s.m.owner[id] == Stacked
    ensures CarriedBySome(s, id) <==> s.m.owner[id].Flight?
  {
    if CarriedBySome(s, id) {
      Carriers(s);
    }
  }

  /** Ownership: in every reachable state each node ever made is in exactly one place:
      a client's hands, the cache, the stack (once), or one operation of `free`. */
  lemma OwnedExactlyOnce(threads: nat, schedule: seq<Choice>, id: nat)
    requires id < |Run(Init(threads), schedule).m.links|
    ensures var s := Run(Init(threads), schedule);
      && Count(id in s.m.client) + Count(s.m.cache == Some(id)) + Count(id in s.m.chain)
         + Count(CarriedBySome(s, id)) == 1
      && (forall j, k :: 0 <= j < k < |s.m.chain| ==> s.m.chain[j] != s.m.chain[k])
      && (forall t, u | 0 <= t < u < |s.threads| :: !(s.threads[t].Carried() == s.threads[u].Carried() == Some(id)))
  {
    InitInv(threads);
    RunInv(Init(threads), schedule);
    var s := Run(Init(threads), schedule);
    PlaceOf(s, id);
    Carriers(s);
  }

  /** The stack really is the chain of links from `cursor_`, ended by null. */
  lemma StackIsChain(threads: nat, schedule: seq<Choice>)
    ensures var m := Run(Init(threads), schedule).m;
      && (m.chain == [] <==> m.cursor.ptr == None)
      && (m.chain != [] ==> m.cursor.ptr == Some(m.chain[0]))
      && (forall k :: 0 <= k < |m.chain| ==> LinkOk(m, k))
  {
    InitInv(threads);
    RunInv(Init(threads), schedule);
  }

  /** No node is handed out while a client holds it. */
  lemma NeverHandedOutTwice(s: State, t: nat, weakFails: bool, junk: Link)
    requires Inv(s) && s.Mapped() && t < |s.threads| && !s.threads[t].AtRest()
    requires Advance(s, t, Go(weakFails, junk)).threads[t].AllocDone?
    ensures var r := Advance(s, t, Go(weakFails, junk));
      r.threads[t].node !in s.m.client && r.m.client == s.m.client + {r.threads[t].node}
  {
    assert ThreadOk(s.m, t, s.threads[t]);
    match s.threads[t]
    case AllocCache => UncacheMemory(s.m);
    case AllocSwap(curr, next) => PopMemory(s.m, next);
    case AllocNext(curr) => NewMemory(s.m, junk);
    case _ =>
  }

  /** An exchange of `cursor_` in `alloc` that succeeds removes the current top and leaves
      the node that is below it now, however long ago its link was read. */
  lemma SwapIsCurrent(s: State, t: nat, junk: Link)
    requires Inv(s) && s.Mapped() && t < |s.threads| && s.threads[t].AllocSwap?
    requires s.threads[t].curr == s.m.cursor
    ensures var r := Advance(s, t, Go(false, junk));
      s.m.chain == [r.threads[t].node] + r.m.chain && r.m.cursor.ptr == Second(s.m)
  {
    assert ThreadOk(s.m, t, s.threads[t]);
  }

  class Pool {
    var links: seq<Link>
    var cache: Option<nat>
    var cursor: Tagged
    var threads: seq<Thread>
    // What the clients hold: they free only that.
    var client: set<nat>
    ghost var chain: seq<nat>
    ghost var owner: seq<Place>

    ghost function View(): State
      reads this
    {
      State(Store(links, cache, cursor, chain, client, owner), threads)
    }

    ghost predicate Valid()
      reads this
    {
      Inv(View()) && View().Mapped()
    }

    constructor (callers: nat)
      ensures Valid() && View() == Init(callers)
    {
      links, cache, cursor := [], None, Tagged(None, 0);
      threads := seq(callers, _ => Idle);
      client, chain, owner := {}, [], [];
      new;
      InitInv(callers);
    }

    /** A call, a client's write, or one atomic access of thread `t`. */
    method Step(t: nat, a: Act)
      requires Valid() && t < |threads|
      modifies this
      ensures Valid() && View() == Exec(old(View()), t, a)
    {
      ExecInv(View(), t, a);
      match a
      case CallAlloc =>
        if threads[t].AtRest() {
          threads := threads[t := AllocCache];
        }
      case CallFree(p) =>
        if threads[t].AtRest() {
          if p == None {
            threads := threads[t := FreeDone];
          } else if p.value in client {
            client, owner := client - {p.value}, SetAt(owner, p.value, Flight(t));
            threads := threads[t := FreeCache(p.value)];
          }
        }
      case Scribble(node, word) =>
        if node in client && node < |links| {
          links := links[node := word];
        }
      case Go(weakFails, junk) =>
        if threads[t].Carried().Some? {
          StepFree(t, weakFails, junk);
        } else {
          StepAlloc(t, weakFails, junk);
        }
    }

    method StepAlloc(t: nat, weakFails: bool, junk: Link)
      requires View().Mapped() && t < |threads| && threads[t].Carried() == None
      modifies this
      ensures View() == Advance(old(View()), t, Go(weakFails, junk))
    {
      match threads[t]
      case AllocCache =>
        if cache.Some? {
          client, owner := client + {cache.value}, SetAt(owner, cache.value, Client);
          threads := threads[t := AllocDone(cache.value)];
          cache := None;
        } else {
          threads := threads[t := AllocLoad];
        }
      case AllocLoad =>
        threads := threads[t := AllocNext(cursor)];
      case AllocNext(curr) =>
        if curr.ptr == None {
          client, owner := client + {|links|}, owner + [Client];
          threads := threads[t := AllocDone(|links|)];
          links := links + [junk];
        } else {
          threads := threads[t := AllocSwap(curr, links[curr.ptr.value])];
        }
      case AllocSwap(curr, next) =>
        if curr == cursor && curr.ptr.Some? && !weakFails {
          cursor := Tagged(next, cursor.tag + 1);
          chain := if |chain| > 0 then chain[1..] else [];
          client, owner := client + {curr.ptr.value}, SetAt(owner, curr.ptr.value, Client);
          threads := threads[t := AllocDone(curr.ptr.value)];
        } else {
          threads := threads[t := AllocNext(cursor)];
        }
      case _ =>
    }

    method StepFree(t: nat, weakFails: bool, junk: Link)
      requires View().Mapped() && t < |threads| && threads[t].Carried().Some?
      modifies this
      ensures View() == Advance(old(View()), t, Go(weakFails, junk))
    {
      match threads[t]
      case FreeCache(node) =>
        var displaced := cache;
        cache := Some(node);
        owner := SetAt(owner, node, Cached);
        if displaced == None {
          threads := threads[t := FreeDone];
        } else {
          owner := SetAt(owner, displaced.value, Flight(t));
          threads := threads[t := FreeLoad(displaced.value)];
        }
      case FreeLoad(temp) =>
        threads := threads[t := FreeLink(temp, cursor)];
      case FreeLink(temp, curr) =>
        links := links[temp := curr.ptr];
        threads := threads[t := FreeSwap(temp, curr)];
      case FreeSwap(temp, curr) =>
        if curr == cursor && !weakFails {
          cursor := Tagged(Some(temp), cursor.tag + 1);
          chain, owner := [temp] + chain, SetAt(owner, temp, Stacked);
          threads := threads[t := FreeDone];
        } else {
          threads := threads[t := FreeLink(temp, cursor)];
        }
    }
  }
}
