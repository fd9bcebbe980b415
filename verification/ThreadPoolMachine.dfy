/**
 `ThreadPool`: workers, one mutex, one condition variable and a destructor. A section
 under the mutex is one step. A worker that waits is asleep until it is notified, or
 wakes of its own accord, and then looks at the queue again.

 Tasks are numbered in the order in which they are accepted. `accepted`, `finished` and
 `status` are history variables.
 */
module ThreadPoolMachine {
  import opened Common

  datatype Worker = Awake | Asleep | Running(task: nat) | Exited

  datatype Status = Queued | RunBy(w: nat) | Done

  /** Where the destructor stands: not called, before its `notify_all`, before joining
      worker `next`, or returned. */
  datatype Destructor = NotCalled | MustNotifyAll | Joining(next: nat) | Returned

  /** `notifies` counts the callers of `Enqueue` between their unlock and `notify_one`. */
  datatype State = State(
    tasks: seq<nat>, stop: bool, workers: seq<Worker>, notifies: nat, destructor: Destructor,
    accepted: nat, finished: seq<nat>, status: seq<Status>)

  /** One step: an `Enqueue` up to its unlock; a `notify_one` that wakes `w` if any worker
      sleeps; a step of worker `w`; a spurious wakeup; a step of the destructor. */
  datatype Act = Enqueue | NotifyOne(w: nat) | Work(w: nat) | Wake(w: nat) | Destroy

  function Init(threads: nat): State {
    State([], false, seq(threads, _ => Awake), 0, NotCalled, 0, [], [])
  }

  predicate AnyAsleep(workers: seq<Worker>) {
    exists w :: 0 <= w < |workers| && workers[w].Asleep?
  }

  /** A stopped pool throws instead of accepting. */
  function DoEnqueue(s: State): State {
    if s.stop then s
    else s.(tasks := s.tasks + [s.accepted], accepted := s.accepted + 1, notifies := s.notifies + 1,
            status := s.status + [Queued])
  }

  function DoNotifyOne(s: State, w: nat): State {
    if s.notifies == 0 then s
    else if w < |s.workers| && s.workers[w].Asleep? then
      s.(notifies := s.notifies - 1, workers := s.workers[w := Awake])
    else if AnyAsleep(s.workers) then s
    else s.(notifies := s.notifies - 1)
  }

  function DoWork(s: State, w: nat): State {
    if w >= |s.workers| then s
    else match s.workers[w]
      case Exited | Asleep => s
      case Running(k) =>
        s.(workers := s.workers[w := Awake], finished := s.finished + [k], status := SetAt(s.status, k, Done))
      case Awake =>
        if !s.stop && s.tasks == [] then s.(workers := s.workers[w := Asleep])
        else if s.tasks == [] then s.(workers := s.workers[w := Exited])
        else s.(workers := s.workers[w := Running(s.tasks[0])], tasks := s.tasks[1..],
                status := SetAt(s.status, s.tasks[0], RunBy(w)))
  }

  function DoWake(s: State, w: nat): State {
    if w < |s.workers| && s.workers[w].Asleep? then s.(workers := s.workers[w := Awake]) else s
  }

  function WakeAll(workers: seq<Worker>): (r: seq<Worker>)
    ensures |r| == |workers|
    ensures forall w :: 0 <= w < |r| ==> r[w] == if workers[w].Asleep? then Awake else workers[w]
  {
    seq(|workers|, w requires 0 <= w < |workers| => if workers[w].Asleep? then Awake else workers[w])
  }

  function DoDestroy(s: State): State {
    match s.destructor
    case NotCalled => s.(stop := true, destructor := MustNotifyAll)
    case MustNotifyAll => s.(workers := WakeAll(s.workers), destructor := Joining(0))
    case Joining(next) =>
      if next >= |s.workers| then s.(destructor := Returned)
      else if s.workers[next].Exited? then s.(destructor := Joining(next + 1))
      else s
    case Returned => s
  }

  function Exec(s: State, a: Act): State {
    match a
    case Enqueue => DoEnqueue(s)
    case NotifyOne(w) => DoNotifyOne(s, w)
    case Work(w) => DoWork(s, w)
    case Wake(w) => DoWake(s, w)
    case Destroy => DoDestroy(s)
  }

  function Run(s: State, schedule: seq<Act>): State
    decreases |schedule|
  {
    if schedule == [] then s else Run(Exec(s, schedule[0]), schedule[1..])
  }

  // ----- The invariant -----

  function AwakeCount(workers: seq<Worker>): nat {
    if workers == [] then 0
    else (if workers[0].Awake? then 1 else 0) + AwakeCount(workers[1..])
  }

  /** Acceptance order: the queue holds the last tasks accepted, oldest first. */
  ghost predicate QueueOk(s: State) {
    && |s.tasks| <= s.accepted == |s.status|
    && (forall i :: 0 <= i < |s.tasks| ==> s.tasks[i] == s.accepted - |s.tasks| + i)
  }

  /** Every accepted task is queued, run by one worker, or finished once. */
  ghost predicate StatusOk(s: State)
    requires QueueOk(s)
  {
    && (forall k :: 0 <= k < s.accepted ==> (s.status[k] == Queued <==> k >= s.accepted - |s.tasks|))
    && (forall k :: 0 <= k < s.accepted && s.status[k].RunBy? ==>
          s.status[k].w < |s.workers| && s.workers[s.status[k].w] == Running(k))
    && (forall k :: 0 <= k < s.accepted && s.status[k] == Done ==> k in s.finished)
    && (forall i :: 0 <= i < |s.finished| ==> s.finished[i] < s.accepted && s.status[s.finished[i]] == Done)
    && (forall i, j :: 0 <= i < j < |s.finished| ==> s.finished[i] != s.finished[j])
    && (forall w :: 0 <= w < |s.workers| && s.workers[w].Running? ==>
          s.workers[w].task < s.accepted && s.status[s.workers[w].task] == RunBy(w))
  }

  /** No wakeup is lost: while a worker sleeps, either the pool is open and every queued
      task has a `notify_one` on its way or a worker awake for it, or the pool is stopped
      and the `notify_all` is still to come. A worker exits only from a stopped, empty pool. */
  ghost predicate WakeupsOk(s: State) {
    && (s.stop <==> s.destructor != NotCalled)
    && (AnyAsleep(s.workers) ==>
          if s.stop then s.destructor == MustNotifyAll else |s.tasks| <= s.notifies + AwakeCount(s.workers))
    && ((exists w :: 0 <= w < |s.workers| && s.workers[w].Exited?) ==> s.stop && s.tasks == [])
    && (s.destructor.Joining? ==>
          s.destructor.next <= |s.workers| && forall w :: 0 <= w < s.destructor.next ==> s.workers[w].Exited?)
    && (s.destructor == Returned ==> forall w :: 0 <= w < |s.workers| ==> s.workers[w].Exited?)
  }

  ghost predicate Inv(s: State) {
    QueueOk(s) && StatusOk(s) && WakeupsOk(s)
  }

  lemma InitInv(threads: nat)
    ensures Inv(Init(threads))
  {
  }

  lemma {:induction false} AwakeCountUpdate(workers: seq<Worker>, w: nat, x: Worker)
    requires w < |workers|
    ensures AwakeCount(workers[w := x]) ==
      AwakeCount(workers) - (if workers[w].Awake? then 1 else 0) + (if x.Awake? then 1 else 0)
  {
    if w == 0 {
      assert workers[w := x][1..] == workers[1..];
    } else {
      AwakeCountUpdate(workers[1..], w - 1, x);
      assert workers[w := x][1..] == workers[1..][w - 1 := x];
    }
  }

  lemma EnqueueInv(s: State)
    requires Inv(s)
    ensures Inv(DoEnqueue(s))
  {
  }

  /** Waking one sleeper keeps the invariant, whether or not it uses up a notification. */
  lemma WakeInv(s: State, w: nat, used: nat)
    requires Inv(s) && w < |s.workers| && s.workers[w].Asleep? && used <= 1 && used <= s.notifies
    ensures Inv(s.(notifies := s.notifies - used, workers := s.workers[w := Awake]))
  {
    AwakeCountUpdate(s.workers, w, Awake);
    assert AnyAsleep(s.workers);
  }

  lemma FinishStatus(s: State, w: nat, k: nat)
    requires Inv(s) && w < |s.workers| && s.workers[w] == Running(k)
    ensures QueueOk(DoWork(s, w)) && StatusOk(DoWork(s, w))
  {
    var r := DoWork(s, w);
    forall j | 0 <= j < r.accepted && r.status[j] == Done
      ensures j in r.finished
    {
      assert j == k || j in s.finished;
    }
  }

  lemma FinishWakeups(s: State, w: nat, k: nat)
    requires WakeupsOk(s) && w < |s.workers| && s.workers[w] == Running(k)
    ensures WakeupsOk(DoWork(s, w))
  {
    AwakeCountUpdate(s.workers, w, Awake);
    assert AnyAsleep(DoWork(s, w).workers) ==> AnyAsleep(s.workers);
  }

  lemma FinishInv(s: State, w: nat, k: nat)
    requires Inv(s) && w < |s.workers| && s.workers[w] == Running(k)
    ensures Inv(DoWork(s, w))
  {
    FinishStatus(s, w, k);
    FinishWakeups(s, w, k);
  }

  lemma SleepInv(s: State, w: nat)
    requires Inv(s) && w < |s.workers| && s.workers[w].Awake? && s.tasks == []
    ensures Inv(DoWork(s, w))
  {
    AwakeCountUpdate(s.workers, w, Asleep);
    AwakeCountUpdate(s.workers, w, Exited);
    var r := DoWork(s, w);
    assert s.stop && AnyAsleep(r.workers) ==> AnyAsleep(s.workers);
  }

  lemma TakeInv(s: State, w: nat)
    requires Inv(s) && w < |s.workers| && s.workers[w].Awake? && s.tasks != []
    ensures Inv(DoWork(s, w))
  {
    AwakeCountUpdate(s.workers, w, Running(s.tasks[0]));
    var r := DoWork(s, w);
    assert AnyAsleep(r.workers) ==> AnyAsleep(s.workers);
    assert s.tasks[0] == s.accepted - |s.tasks|;
  }

  lemma DestroyInv(s: State)
    requires Inv(s)
    ensures Inv(DoDestroy(s))
  {
    var r := DoDestroy(s);
    if s.destructor.MustNotifyAll? {
      assert !AnyAsleep(r.workers);
    }
  }

  /** Every step keeps the invariant. */
  lemma ExecInv(s: State, a: Act)
    requires Inv(s)
    ensures Inv(Exec(s, a))
  {
    match a
    case Enqueue => EnqueueInv(s);
    case NotifyOne(w) =>
      if s.notifies > 0 && w < |s.workers| && s.workers[w].Asleep? { WakeInv(s, w, 1); }
    case Wake(w) => if w < |s.workers| && s.workers[w].Asleep? { WakeInv(s, w, 0); }
    case Work(w) =>
      if w < |s.workers| {
        match s.workers[w]
        case Running(k) => FinishInv(s, w, k);
        case Awake => if s.tasks == [] { SleepInv(s, w); } else { TakeInv(s, w); }
        case _ =>
      }
    case Destroy => DestroyInv(s);
  }
}
