/**
 `mpmc_list` as an object: `head_`, `tail_` and the nodes are changed in place, one
 atomic access of one thread at a time.
 */
module MpmcList {
  import opened Common
  import opened MpmcListMachine

  class MpmcQueue<T> {
    var nodes: seq<Node<T>>
    var head: Tagged
    var tail: Tagged
    var threads: seq<Thread<T>>
    // History, and what the pool knows about the addresses in use.
    var order: seq<nat>
    var linked: seq<T>
    var popped: seq<T>

    function View(): State<T>
      reads this
    {
      State(Store(nodes, head, tail, order, linked, popped), threads)
    }

    ghost predicate Valid()
      reads this
    {
      Inv(View()) && View().Mapped()
    }

    constructor (blank: T, callers: nat)
      ensures Valid() && View() == Init(blank, callers)
    {
      nodes := [Node(blank, None, 0)];
      head, tail := Tagged(0, 0), Tagged(0, 0);
      threads := seq(callers, _ => Idle);
      order, linked, popped := [0], [], [];
      new;
      InitInv(blank, callers);
      InvMapped(View());
    }

    /** One atomic access. The object stays valid if and only if the access is no misled
        exchange on `next_`. */
    method Step(t: nat, a: Act<T>)
      requires View().Mapped() && t < |threads|
      modifies this
      ensures View() == Exec(old(View()), t, a)
      ensures old(Valid()) ==> (Valid() <==> !Misled(old(View()), t, a))
    {
      ghost var before := View();
      if a.CallPush? {
        if threads[t].AtRest() {
          threads := threads[t := PushAlloc(a.val)];
        }
      } else if a.CallPop? {
        if threads[t].AtRest() {
          threads := threads[t := PopHead];
        }
      } else if a.Overwrite? {
        if MayAllocate(View(), a.node) && a.node < |nodes| {
          nodes := nodes[a.node := nodes[a.node].(data := a.junk)];
        }
      } else if threads[t].InPop() {
        StepPop(t, a);
      } else {
        StepPush(t, a);
      }
      if Inv(before) {
        ExecInvIff(before, t, a);
        if !Misled(before, t, a) {
          InvMapped(View());
        }
      }
    }

    method StepPush(t: nat, a: Act<T>)
      requires View().Mapped() && t < |threads| && a.Go? && !threads[t].InPop()
      modifies this
      ensures View() == AdvancePush(old(View()), t, a)
    {
      match threads[t]
      case PushAlloc(v) =>
        if MayAllocate(View(), a.addr) {
          nodes := if a.addr < |nodes| then nodes[a.addr := Node(v, None, 0)] else nodes + [Node(v, None, 0)];
          threads := threads[t := PushTail(v, a.addr)];
        }
      case PushTail(v, p) =>
        threads := threads[t := PushNext(v, p, tail)];
      case PushNext(v, p, seen) =>
        threads := threads[t := PushCheck(v, p, seen, nodes[seen.ptr].next, nodes[seen.ptr].tag)];
      case PushCheck(v, p, seen, next, tag) =>
        if seen != tail {
          threads := threads[t := PushTail(v, p)];
        } else if next == None {
          threads := threads[t := PushLink(v, p, seen, tag)];
        } else {
          threads := threads[t := PushHelp(v, p, seen, next.value)];
        }
      case PushLink(v, p, seen, tag) =>
        var n := nodes[seen.ptr];
        if n.next == None && n.tag == tag && !a.weakFails {
          nodes := nodes[seen.ptr := n.(next := Some(p), tag := n.tag + 1)];
          order, linked := order + [p], linked + [v];
          threads := threads[t := PushSwing(p, seen)];
        } else {
          threads := threads[t := PushTail(v, p)];
        }
      case PushSwing(p, seen) =>
        if seen == tail {
          tail := Tagged(p, tail.tag + 1);
        }
        threads := threads[t := PushDone];
      case PushHelp(v, p, seen, to) =>
        if seen == tail && !a.weakFails {
          tail := Tagged(to, tail.tag + 1);
          threads := threads[t := PushTail(v, p)];
        } else {
          threads := threads[t := PushNext(v, p, tail)];
        }
      case _ =>
    }

    method StepPop(t: nat, a: Act<T>)
      requires View().Mapped() && t < |threads| && a.Go? && threads[t].InPop()
      modifies this
      ensures View() == AdvancePop(old(View()), t, a)
    {
      match threads[t]
      case PopHead =>
        threads := threads[t := PopTail(head)];
      case PopTail(seen) =>
        threads := threads[t := PopNext(seen, tail)];
      case PopNext(seen, last) =>
        threads := threads[t := PopCheck(seen, last, nodes[seen.ptr].next, head.tag == |linked|)];
      case PopCheck(seen, last, next, _) =>
        if seen != head {
          threads := threads[t := PopHead];
        } else if seen.ptr == last.ptr {
          threads := threads[t := if next == None then PopDone(None) else PopHelp(last, next.value)];
        } else if next == None {
          threads := threads[t := NullDereference];
        } else {
          threads := threads[t := PopRead(seen, next.value)];
        }
      case PopHelp(last, to) =>
        if last == tail && !a.weakFails {
          tail := Tagged(to, tail.tag + 1);
        }
        threads := threads[t := PopHead];
      case PopRead(seen, to) =>
        threads := threads[t := PopTake(seen, to, nodes[to].data)];
      case PopTake(seen, to, v) =>
        if seen == head && !a.weakFails {
          head := Tagged(to, head.tag + 1);
          popped := popped + [v];
          threads := threads[t := PopFree(seen.ptr, v)];
        } else {
          threads := threads[t := PopTail(head)];
        }
      case PopFree(node, v) =>
        nodes := nodes[node := nodes[node].(data := a.junk)];
        threads := threads[t := PopDone(Some(v))];
    }
  }
}
