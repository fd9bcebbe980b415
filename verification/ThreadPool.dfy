/**
 What `ThreadPool` guarantees over every schedule, and the pool as an object.
 */
module ThreadPoolModule {
  import opened Common
  import opened ThreadPoolMachine

  lemma {:induction false} RunInv(s: State, schedule: seq<Act>)
    requires Inv(s)
    ensures Inv(Run(s, schedule)) && |Run(s, schedule).workers| == |s.workers|
    decreases |schedule|
  {
    if schedule != [] {
      KeptBy(s, schedule[0], Exec(s, schedule[0]));
      RunInv(Exec(s, schedule[0]), schedule[1..]);
    }
  }

  lemma KeptBy(s: State, a: Act, r: State)
    requires Inv(s) && r == Exec(s, a)
    ensures Inv(r) && |r.workers| == |s.workers|
  {
    ExecInv(s, a);
  }

  lemma {:induction false} SomeAwake(workers: seq<Worker>)
    requires AwakeCount(workers) > 0
    ensures exists w :: 0 <= w < |workers| && workers[w].Awake?
  {
    if workers[0].Awake? {
    } else {
      SomeAwake(workers[1..]);
      var w :| 0 <= w < |workers[1..]| && workers[1..][w].Awake?;
      assert workers[w + 1].Awake?;
    }
  }

  /** The pool never sleeps on work: in every reachable state of a pool with a worker, a
      queued task leaves a worker awake or running, a `notify_one` on its way, or the
      destructor's `notify_all` to come; and while any worker sleeps in an open pool, the
      wakeups under way are enough for all queued tasks. */
  lemma NeverSleepsOnWork(threads: nat, schedule: seq<Act>)
    requires threads >= 1
    ensures var s := Run(Init(threads), schedule);
      s.tasks != [] ==>
        || (exists w :: 0 <= w < |s.workers| && (s.workers[w].Awake? || s.workers[w].Running?))
        || s.notifies > 0
        || s.destructor == MustNotifyAll
    ensures var s := Run(Init(threads), schedule);
      AnyAsleep(s.workers) && !s.stop ==> |s.tasks| <= s.notifies + AwakeCount(s.workers)
    ensures var s := Run(Init(threads), schedule);
      AnyAsleep(s.workers) && s.stop ==> s.destructor == MustNotifyAll
  {
    InitInv(threads);
    RunInv(Init(threads), schedule);
    var s := Run(Init(threads), schedule);
    assert s.workers[0] == s.workers[0];
    if s.workers[0].Asleep? && s.tasks != [] && s.notifies == 0 && !s.stop {
      assert AnyAsleep(s.workers);
      SomeAwake(s.workers);
    }
  }

  /** Draining: when the destructor has returned, every accepted task has been run, each
      exactly once. */
  lemma DrainedAtReturn(threads: nat, schedule: seq<Act>)
    requires threads >= 1
    ensures var s := Run(Init(threads), schedule);
      s.destructor == Returned ==>
        && s.tasks == []
        && (forall k :: 0 <= k < s.accepted ==> k in s.finished)
        && (forall i :: 0 <= i < |s.finished| ==> s.finished[i] < s.accepted)
        && (forall i, j :: 0 <= i < j < |s.finished| ==> s.finished[i] != s.finished[j])
  {
    InitInv(threads);
    RunInv(Init(threads), schedule);
    var s := Run(Init(threads), schedule);
    if s.destructor == Returned {
      assert s.workers[0].Exited?;
      forall k | 0 <= k < s.accepted
        ensures k in s.finished
      {
        assert s.status[k] != Queued;
      }
    }
  }

  /** A pool without workers accepts a task and never runs it. */
  lemma NoWorkerNoDrain()
    ensures var s := Run(Init(0), [Enqueue, Destroy, Destroy, Destroy]);
      s.destructor == Returned && s.tasks == [0] && s.finished == []
  {
    var s1 := Exec(Init(0), Enqueue);
    var s2 := Exec(s1, Destroy);
    var s3 := Exec(s2, Destroy);
    var s4 := Exec(s3, Destroy);
    assert Run(s4, []) == s4;
    assert Run(s3, [Destroy]) == s4 by { assert [Destroy][1..] == []; }
    assert Run(s2, [Destroy, Destroy]) == s4 by { assert [Destroy, Destroy][1..] == [Destroy]; }
    assert Run(s1, [Destroy, Destroy, Destroy]) == s4 by {
      assert [Destroy, Destroy, Destroy][1..] == [Destroy, Destroy];
    }
    assert [Enqueue, Destroy, Destroy, Destroy][1..] == [Destroy, Destroy, Destroy];
  }

  /** If the destructor has returned, nothing accepted is left. */
  ghost predicate Drained(threads: nat, schedule: seq<Act>) {
    var s := Run(Init(threads), schedule);
    s.destructor == Returned ==> s.tasks == [] && forall k :: 0 <= k < s.accepted ==> k in s.finished
  }

  /** The pool always drains if and only if it has a worker. */
  lemma DrainsIff(threads: nat)
    ensures (forall schedule: seq<Act> :: Drained(threads, schedule)) <==> threads >= 1
  {
    if threads >= 1 {
      forall schedule: seq<Act>
        ensures Drained(threads, schedule)
      {
        DrainedAtReturn(threads, schedule);
      }
    } else {
      NoWorkerNoDrain();
      assert !Drained(0, [Enqueue, Destroy, Destroy, Destroy]);
    }
  }

  // ----- Shutting down takes a bounded number of steps -----

  function Rank(w: Worker): nat {
    match w
    case Exited => 0
    case Awake => 1
    case Running(_) => 2
    case Asleep => 2
  }

  function Ranks(workers: seq<Worker>): nat {
    if workers == [] then 0 else Rank(workers[0]) + Ranks(workers[1..])
  }

  /** How many more steps a stopped pool can take. */
  function StepsLeft(s: State): int {
    2 * |s.tasks| + Ranks(s.workers) + s.notifies
    + (match s.destructor
       case NotCalled => |s.workers| + 3
       case MustNotifyAll => |s.workers| + 2
       case Joining(next) => |s.workers| - next + 1
       case Returned => 0)
  }

  lemma {:induction false} RanksUpdate(workers: seq<Worker>, w: nat, x: Worker)
    requires w < |workers|
    ensures Ranks(workers[w := x]) == Ranks(workers) - Rank(workers[w]) + Rank(x)
  {
    if w == 0 {
      assert workers[w := x][1..] == workers[1..];
    } else {
      RanksUpdate(workers[1..], w - 1, x);
      assert workers[w := x][1..] == workers[1..][w - 1 := x];
    }
  }

  lemma {:induction false} RanksWoken(workers: seq<Worker>)
    ensures Ranks(WakeAll(workers)) <= Ranks(workers)
  {
    if workers != [] {
      RanksWoken(workers[1..]);
      assert WakeAll(workers)[1..] == WakeAll(workers[1..]);
    }
  }

  lemma WorkProgresses(s: State, w: nat)
    requires Inv(s) && s.stop && Exec(s, Work(w)) != s
    ensures StepsLeft(Exec(s, Work(w))) < StepsLeft(s)
  {
    RanksUpdate(s.workers, w, Exec(s, Work(w)).workers[w]);
  }

  lemma InvIsMeasured(s: State)
    requires Inv(s)
    ensures StepsLeft(s) >= 0
  {
  }

  /** After the stop every step that changes anything uses up one of the steps left, also
      a spurious wakeup: in any order, the pool comes to rest. */
  lemma ShutdownProgresses(s: State, a: Act)
    requires Inv(s) && s.stop && Exec(s, a) != s
    ensures Exec(s, a).stop && 0 <= StepsLeft(Exec(s, a)) < StepsLeft(s)
  {
    ExecInv(s, a);
    InvIsMeasured(Exec(s, a));
    match a
    case NotifyOne(w) => if w < |s.workers| { RanksUpdate(s.workers, w, Awake); }
    case Wake(w) => RanksUpdate(s.workers, w, Awake);
    case Work(w) => WorkProgresses(s, w);
    case Destroy => RanksWoken(s.workers);
    case Enqueue =>
  }

  /** A stopped pool is never stuck: until the destructor returns, some step other than an
      `Enqueue` or a spurious wakeup changes the state. */
  lemma ShutdownNeverStuck(s: State)
    requires Inv(s) && s.stop && s.destructor != Returned
    ensures Exec(s, Destroy) != s || exists w :: 0 <= w < |s.workers| && Exec(s, Work(w)) != s
  {
    if s.destructor.Joining? && s.destructor.next < |s.workers| && !s.workers[s.destructor.next].Exited? {
      var w := s.destructor.next;
      assert s.workers[w].Asleep? ==> AnyAsleep(s.workers);
      assert Exec(s, Work(w)).workers[w] != s.workers[w];
    }
  }

  /** Every step of the schedule changes the state. */
  predicate Busy(s: State, schedule: seq<Act>)
    decreases |schedule|
  {
    schedule != [] ==> Exec(s, schedule[0]) != s && Busy(Exec(s, schedule[0]), schedule[1..])
  }

  /** Once the destructor has set `stop_`, at most `StepsLeft` further steps happen; after
      them it has returned, unless the schedule breaks off before. */
  lemma {:induction false} ShutdownIsBounded(s: State, schedule: seq<Act>)
    requires Inv(s) && s.stop && Busy(s, schedule)
    ensures |schedule| + StepsLeft(Run(s, schedule)) <= StepsLeft(s) && StepsLeft(Run(s, schedule)) >= 0
    ensures |schedule| == StepsLeft(s) ==> Run(s, schedule).destructor == Returned
    decreases |schedule|
  {
    if schedule == [] {
      assert StepsLeft(s) >= 0;
    } else {
      ShutdownProgresses(s, schedule[0]);
      ExecInv(s, schedule[0]);
      ShutdownIsBounded(Exec(s, schedule[0]), schedule[1..]);
    }
  }

  // ----- An open pool runs what it accepts -----

  /** Something is left to do: a task to run or to finish, or a notification to deliver. */
  ghost predicate Unfinished(s: State) {
    s.tasks != [] || s.notifies > 0 || exists w :: 0 <= w < |s.workers| && s.workers[w].Running?
  }

  /** A notification or a worker's step, and nothing that brings or wakes from outside. */
  predicate Inner(a: Act) {
    a.NotifyOne? || a.Work?
  }

  /** Some inner step changes the state. */
  ghost predicate CanGoOn(s: State) {
    (exists w: nat :: Exec(s, NotifyOne(w)) != s) || (exists w: nat :: Exec(s, Work(w)) != s)
  }

  lemma NotificationGoesOn(s: State)
    requires s.notifies > 0
    ensures CanGoOn(s)
  {
    if AnyAsleep(s.workers) {
      var w: nat :| w < |s.workers| && s.workers[w].Asleep?;
      assert Exec(s, NotifyOne(w)).notifies != s.notifies;
    } else {
      assert Exec(s, NotifyOne(0)).notifies != s.notifies;
    }
  }

  lemma WorkerGoesOn(s: State, w: nat)
    requires w < |s.workers| && (s.workers[w].Awake? || s.workers[w].Running?)
    ensures CanGoOn(s)
  {
    assert Exec(s, Work(w)).workers[w] != s.workers[w];
  }

  /** In an open pool with a worker, while tasks are queued or run, or notifications are
      pending, some notification or some worker can go on. */
  lemma OpenNeverStuck(s: State)
    requires Inv(s) && !s.stop && s.workers != [] && Unfinished(s)
    ensures CanGoOn(s)
  {
    if s.notifies > 0 {
      NotificationGoesOn(s);
    } else if w: nat :| w < |s.workers| && (s.workers[w].Awake? || s.workers[w].Running?) {
      WorkerGoesOn(s, w);
    } else {
      assert s.workers[0].Asleep?;
      SomeAwake(s.workers);
    }
  }

  function Effort(w: Worker): nat {
    match w
    case Asleep => 0
    case Awake => 1
    case Running(_) => 2
    case Exited => 0
  }

  function Efforts(workers: seq<Worker>): nat {
    if workers == [] then 0 else Effort(workers[0]) + Efforts(workers[1..])
  }

  /** How many inner steps an open pool can still take. */
  function WorkLeft(s: State): nat {
    3 * |s.tasks| + 2 * s.notifies + Efforts(s.workers)
  }

  lemma {:induction false} EffortsUpdate(workers: seq<Worker>, w: nat, x: Worker)
    requires w < |workers|
    ensures Efforts(workers[w := x]) == Efforts(workers) - Effort(workers[w]) + Effort(x)
  {
    if w == 0 {
      assert workers[w := x][1..] == workers[1..];
    } else {
      EffortsUpdate(workers[1..], w - 1, x);
      assert workers[w := x][1..] == workers[1..][w - 1 := x];
    }
  }

  lemma InnerProgresses(s: State, a: Act)
    requires Inv(s) && !s.stop && Inner(a) && Exec(s, a) != s
    ensures !Exec(s, a).stop && Exec(s, a).accepted == s.accepted && WorkLeft(Exec(s, a)) < WorkLeft(s)
  {
    match a
    case NotifyOne(w) => if w < |s.workers| { EffortsUpdate(s.workers, w, Awake); }
    case Work(w) => EffortsUpdate(s.workers, w, Exec(s, a).workers[w]);
  }

  /** The queue is empty and every accepted task has been run, each exactly once. */
  ghost predicate AllRun(s: State) {
    && s.tasks == [] && s.notifies == 0
    && (forall k :: 0 <= k < s.accepted ==> k in s.finished)
    && (forall i :: 0 <= i < |s.finished| ==> s.finished[i] < s.accepted)
    && (forall i, j :: 0 <= i < j < |s.finished| ==> s.finished[i] != s.finished[j])
  }

  lemma StuckIsAllRun(s: State)
    requires Inv(s) && !s.stop && s.workers != []
    ensures !CanGoOn(s) ==> AllRun(s)
  {
    if !CanGoOn(s) {
      if Unfinished(s) {
        OpenNeverStuck(s);
      }
      assert forall k :: 0 <= k < s.accepted ==> s.status[k] == Done;
    }
  }

  lemma NoWorkNoStep(s: State)
    requires Inv(s) && !s.stop && WorkLeft(s) == 0
    ensures !CanGoOn(s)
  {
    forall w: nat
      ensures Exec(s, NotifyOne(w)) == s && Exec(s, Work(w)) == s
    {
      if Exec(s, Work(w)) != s {
        InnerProgresses(s, Work(w));
      }
    }
  }

  ghost predicate Open(s: State, workers: nat, accepted: nat) {
    Inv(s) && !s.stop && |s.workers| == workers && s.accepted == accepted
  }

  lemma InnerKeepsOpen(s: State, a: Act, workers: nat, accepted: nat)
    requires Open(s, workers, accepted) && Inner(a) && Exec(s, a) != s
    ensures Open(Exec(s, a), workers, accepted) && WorkLeft(Exec(s, a)) < WorkLeft(s)
  {
    InnerProgresses(s, a);
    KeptBy(s, a, Exec(s, a));
  }

  lemma {:induction false} OpenRunIsBounded(s: State, schedule: seq<Act>, workers: nat, accepted: nat)
    requires Open(s, workers, accepted) && Busy(s, schedule)
    requires forall a :: a in schedule ==> Inner(a)
    ensures Open(Run(s, schedule), workers, accepted)
    ensures |schedule| + WorkLeft(Run(s, schedule)) <= WorkLeft(s)
    decreases |schedule|
  {
    if schedule != [] {
      assert schedule[0] in schedule;
      InnerKeepsOpen(s, schedule[0], workers, accepted);
      assert forall b :: b in schedule[1..] ==> b in schedule;
      OpenRunIsBounded(Exec(s, schedule[0]), schedule[1..], workers, accepted);
    }
  }

  /** In an open pool with a worker, any schedule of inner steps that change the state is no
      longer than the work left; one of just that length, and any other after which none
      can go on, has emptied the queue and run every accepted task, each exactly once. */
  lemma OpenPoolRunsAll(s: State, schedule: seq<Act>)
    requires Inv(s) && !s.stop && s.workers != [] && Busy(s, schedule)
    requires forall a :: a in schedule ==> Inner(a)
    ensures |schedule| <= WorkLeft(s) && Run(s, schedule).accepted == s.accepted
    ensures |schedule| == WorkLeft(s) || !CanGoOn(Run(s, schedule)) ==> AllRun(Run(s, schedule))
  {
    OpenRunIsBounded(s, schedule, |s.workers|, s.accepted);
    StuckIsAllRun(Run(s, schedule));
    if |schedule| == WorkLeft(s) {
      NoWorkNoStep(Run(s, schedule));
    }
  }

  // ----- Tasks are taken in order of acceptance -----

  /** The task a step takes from the queue, as the worker that runs it shows. */
  function Started(s: State, a: Act): seq<nat> {
    if a.Work? && a.w < |s.workers| && s.workers[a.w].Awake?
       && a.w < |Exec(s, a).workers| && Exec(s, a).workers[a.w].Running?
    then [Exec(s, a).workers[a.w].task] else []
  }

  function AllStarted(s: State, schedule: seq<Act>): seq<nat>
    decreases |schedule|
  {
    if schedule == [] then [] else Started(s, schedule[0]) + AllStarted(Exec(s, schedule[0]), schedule[1..])
  }

  /** The number of tasks taken so far. */
  function Taken(s: State): int {
    s.accepted - |s.tasks|
  }

  /** Over any schedule, workers take the tasks one by one in the order of acceptance. */
  lemma {:induction false} TakenInOrder(s: State, schedule: seq<Act>)
    requires Inv(s)
    ensures |AllStarted(s, schedule)| == Taken(Run(s, schedule)) - Taken(s)
    ensures forall i :: 0 <= i < |AllStarted(s, schedule)| ==> AllStarted(s, schedule)[i] == Taken(s) + i
    decreases |schedule|
  {
    if schedule != [] {
      KeptBy(s, schedule[0], Exec(s, schedule[0]));
      TakesNext(s, schedule[0]);
      TakenInOrder(Exec(s, schedule[0]), schedule[1..]);
    }
  }

  lemma TakesNext(s: State, a: Act)
    requires Inv(s)
    ensures Taken(Exec(s, a)) == Taken(s) + |Started(s, a)|
    ensures Started(s, a) != [] ==> Started(s, a) == [Taken(s)]
  {
  }

  class ThreadPool {
    var tasks: seq<nat>
    var stop: bool
    var workers: seq<Worker>
    var notifies: nat
    var destructor: Destructor
    var accepted: nat
    ghost var finished: seq<nat>
    ghost var status: seq<Status>

    ghost function View(): State
      reads this
    {
      State(tasks, stop, workers, notifies, destructor, accepted, finished, status)
    }

    ghost predicate Valid()
      reads this
    {
      Inv(View())
    }

    constructor (threads: nat)
      ensures Valid() && View() == Init(threads)
    {
      tasks, stop, notifies, destructor, accepted := [], false, 0, NotCalled, 0;
      workers := seq(threads, _ => Awake);
      finished, status := [], [];
    }

    /** `Enqueue` up to its unlock; false means that it throws. */
    method EnqueueTask() returns (ok: bool)
      requires Valid()
      modifies this
      ensures Valid() && View() == Exec(old(View()), Enqueue)
      ensures ok <==> !old(stop)
    {
      EnqueueInv(View());
      if stop {
        return false;
      }
      tasks := tasks + [accepted];
      accepted := accepted + 1;
      notifies := notifies + 1;
      status := status + [Queued];
      return true;
    }

    /** `condition_.notify_one`, which may wake worker `w`. */
    method Notify(w: nat)
      requires Valid()
      modifies this
      ensures Valid() && View() == Exec(old(View()), NotifyOne(w))
    {
      ExecInv(View(), NotifyOne(w));
      Wakeup(w);
    }

    method Wakeup(w: nat)
      modifies `workers, `notifies
      ensures View() == DoNotifyOne(old(View()), w)
    {
      if notifies > 0 {
        if w < |workers| && workers[w].Asleep? {
          workers := workers[w := Awake];
          notifies := notifies - 1;
        } else if !AnyAsleep(workers) {
          notifies := notifies - 1;
        }
      }
    }

    /** One section of a worker's loop: the wait and the take under the mutex, or the end
        of its task. */
    method WorkerStep(w: nat)
      requires Valid() && w < |workers|
      modifies this
      ensures Valid() && View() == Exec(old(View()), Work(w))
    {
      ExecInv(View(), Work(w));
      match workers[w]
      case Exited | Asleep =>
      case Running(k) =>
        workers := workers[w := Awake];
        finished, status := finished + [k], SetAt(status, k, Done);
      case Awake =>
        if !(stop || tasks != []) {
          workers := workers[w := Asleep];
        } else if stop && tasks == [] {
          workers := workers[w := Exited];
        } else {
          var task := tasks[0];
          tasks := tasks[1..];
          workers := workers[w := Running(task)];
          status := SetAt(status, task, RunBy(w));
        }
    }

    method SpuriousWakeup(w: nat)
      requires Valid()
      modifies this
      ensures Valid() && View() == Exec(old(View()), Wake(w))
    {
      ExecInv(View(), Wake(w));
      if w < |workers| && workers[w].Asleep? {
        workers := workers[w := Awake];
      }
    }

    /** One step of the destructor. */
    method DestructorStep()
      requires Valid()
      modifies this
      ensures Valid() && View() == Exec(old(View()), Destroy)
    {
      ExecInv(View(), Destroy);
      match destructor
      case NotCalled =>
        stop := true;
        destructor := MustNotifyAll;
      case MustNotifyAll =>
        workers := WakeAll(workers);
        destructor := Joining(0);
      case Joining(next) =>
        if next >= |workers| {
          destructor := Returned;
        } else if workers[next].Exited? {
          destructor := Joining(next + 1);
        }
      case Returned =>
    }
  }
}
