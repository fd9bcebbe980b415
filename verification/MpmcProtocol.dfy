/**
 The program points of `mpmc_queue::push` and `mpmc_queue::pop`, shared by the
 two machines that run them: one over unbounded tickets, one over the bytes the
 C++ template is instantiated with.
 */
module MpmcProtocol {
  import opened Common

  /**
   Where one thread stands. Each constructor names the atomic access the thread
   performs next and carries the local variables it still needs. `K` is the type
   of an index, `M` the type of the value read from a slot's flag.
   */
  datatype Local<T, K, M> =
    | Idle
    | PushFlag(val: T)
    | PushTail(val: T, cur: K)
    | PushReserve(val: T, cur: K, idTail: K)
    | PushWrite(val: T, cur: K)
    | PushMark(cur: K)
    | PushCheck(cur: K)
    | PushHead(cur: K, cac: M)
    | PushClaim(cur: K)
    | PushPublish(cur: K)
    | PushDone(ok: bool)
    | PopTail
    | PopHead(curTail: K)
    | PopCheck(curHead: K)
    | PopClaim(curHead: K)
    | PopPublish(curHead: K)
    | PopRead(curTail: K)
    | PopTake(curTail: K, got: T)
    | PopDone(res: Option<T>)
  {
    /** The thread is outside `push` and `pop`. */
    predicate AtRest() {
      Idle? || PushDone? || PopDone?
    }

    /** The thread is inside `pop`. */
    predicate InPop() {
      PopTail? || PopHead? || PopCheck? || PopClaim? || PopPublish? || PopRead? || PopTake?
    }
  }

  /** One scheduler decision about a thread: call an operation, or perform its
      next atomic access. `weakFails` lets a `compare_exchange_weak` fail although
      the values compare equal. */
  datatype Act<T> = CallPush(val: T) | CallPop | Go(weakFails: bool)

  /** The thread chosen, and what it does. */
  datatype Choice<T> = Choice(thread: nat, act: Act<T>)
}
