# A verified model of footstone's concurrent core

footstone is the small C++ library under a cross-platform UI engine that moves tasks
between threads. This project models, in Dafny, the parts of it where correctness is
hardest to see, and proves what they promise:

* three lock-free containers, one atomic access at a time, for any number of threads and
  under every interleaving: the ring `mpmc_queue`, the linked queue `mpmc_list` with its
  node `pool`, and the two-thread ring `spsc_queue`;
* the scheduler of `Worker` (sort by priority times consumed time, let newcomers in, run
  the first ready group, charge the time) together with the merging of delayed tasks in
  `TaskRunner`;
* the mutex and condition-variable protocol of `ThreadPool`, with its shutdown;
* `BaseTimer`, which reuses a callback that is already posted;
* `Base64`.

Verify everything with `dafny verify dfyconfig.toml`.

## How the model is laid out

Each concurrent container has a *machine*: a state with shared memory, one program counter
with locals per thread, and history variables, and a function `Exec` that performs one
atomic load, store or compare-exchange of one thread. `compare_exchange_weak` may fail at
will. Theorems range over every schedule. A class then does the same accesses in place on
its own fields, and the contract of each of its methods equates the new state with `Exec`
of the old one, so every theorem about the machine is one about the class.

| module | what it holds |
|---|---|
| MpmcProtocol, MpmcTickets, MpmcGuarantees | the ring with unbounded tickets: steps, invariant, theorems |
| MpmcCalls, MpmcProgress | one whole call of the ring beside any others: what it does to the queue, and that it ends when it runs on alone |
| MpmcAnswers | when the ring's answers "full" and "empty" are true beside other operations, and runs in which they are not |
| MpmcCode, MpmcRefinement | the ring on 8-bit indices as written, and when it does what the ticket ring does |
| MpmcRuns, MpmcSlot255, MpmcLap | runs from the initial state in which the value stored by `pop`, or a ticket kept for a lap, breaks the ring |
| MpmcRing | the ring as an object |
| MpmcListMachine, MpmcListGuarantees, MpmcList | the linked queue with any pool: steps, invariant, theorems, the object |
| MpmcListCalls, MpmcListProgress | the same two questions for the linked queue |
| NodePoolMachine, NodePool, NodePoolProgress, NodePoolStale | the tagged free stack with its one-node cache, whole calls, and a run that needs the tag |
| MpmcListOnPool, MpmcListLoss | the linked queue joined with its own pool: refinement, and what the reuse of nodes can do to it |
| SpscRing, SpscCalls | the two-thread ring on 8-bit indices; whole calls |
| StableSort, WorkerCore, WorkerOrder, WorkerModule | the scheduler: sort, decisions, orders kept over whole runs, the object |
| WorkerFairness, WorkerWaiting | the scheduler's fairness: equal priorities with groups that join, unequal priorities of a fixed set |
| WorkerBinding | a decision of the scheduler step by step, beside threads that bind groups |
| TaskRunnerModule | the FIFO and the deadline queue |
| ThreadPoolMachine, ThreadPoolModule | the pool |
| Timer | the timer |
| Base64, Base64Decoding, Base64RoundTrip | encoding, decoding, round trips |
| Common, Indexes | options, abstract queues and a total sequence update; the 8-bit indices of both rings |

## Where the code does not do what one would expect

The model follows the code. Each point below is a lemma with a concrete input or an exact
condition.

* `pop` of `mpmc_queue` claims a slot by storing `size_limit` (255) where `push` stores
  `invalid_index`. In slot 255 that value also means "ready". `MpmcSlot255.PopsMoreThanAccepted`
  is a run of two threads from the initial state in which more values are popped than were
  ever accepted. The stored value does no harm until somebody reads that mark before the
  next push into the slot (`MpmcRefinement.StepTracksIff`).
* A ticket kept for a whole lap of 256 compares equal to its successor.
  `MpmcLap.LappedPopRepeats` is a run of two threads from the initial state in which a pop
  that stalled returns a value that was popped before. `MpmcRefinement.StepRefines` shows
  that these two are the only ways in which the 8-bit code departs from the queue.
* `mpmc_queue` holds at most `max_size - 1` values, or 255 if `max_size` is above 256, so
  `push_until_success` ends if and only if `max_size` is at least 2
  (`MpmcGuarantees.OverwriteEndsIff`).
* A `push` of `mpmc_queue` may be refused by an empty ring, and a `pop` may answer "empty"
  right after the same thread's own `push` has returned true
  (`MpmcAnswers.RefusedByEmptyRing`, `MpmcAnswers.EmptyAfterOwnPush`).
* The first test for "full" in `spsc_queue::push` compares with `id_tail - 1` as an `int`
  and so never holds when the tail is 0. With `max_size` above 255 a full block then looks
  empty; `SpscRing.SizeLimitIsExact` shows that 255 is the exact limit. `mpmc_queue` compares
  in the index type, so its theorems hold for every `max_size`.
* `pool::alloc` builds a node afresh, so the tag in a list node's `next_` starts again. The
  list stays a queue at a step if and only if the step is no exchange on `next_` that
  succeeds on a node other than the last (`MpmcListMachine.ExecInvIff`); reuse of nodes is
  harmless everywhere else. With the list's own pool such an exchange does happen:
  `MpmcListLoss.ListLosesValue` is a run of three threads from the initial state in which
  the one-node cache hands a popped node to the next push and an older push then links
  behind it, and a value is lost.
* `Worker::GetNextTask` clears `need_balance_` after it has released its locks. A group
  bound between the balance and the clearing waits until another group is bound
  (`WorkerBinding.LateBindIsStranded`, `WorkerBinding.BoundIsLetInIff`).
* A `ThreadPool` with no workers accepts tasks and destroys them unrun
  (`ThreadPoolModule.DrainsIff`).
* A one-shot timer that fires exactly at its scheduled tick and is started again in the same
  tick is never called (`Timer.RestartAtTheTickIsLost`); restarting with a shorter delay
  leaves two callbacks posted (`Timer.ShrunkDelayPostsTwice`).
* The comment in `Worker::BalanceNoLock` says that new groups are inserted after the group of
  highest priority; the code splices them in before it, and so does the model.
* `Base64::Encode` computes `len - 2` unsigned, so it stays inside its input if and only if
  there are at least two bytes (`Base64RoundTrip.EncodeStaysInsideIff`). `Decode` reports a
  wrong length and nothing else (`Base64RoundTrip.OnlyLengthIsReported`).

## Model

| member | source | states |
|---|---|---|
| MpmcTickets.ExecInv | include/footstone/mpmc_queue.h:57-123 | Every atomic access of every thread keeps the invariant of the ring: `tail <= head <= flag`, room for at most `min(max, 256) - 1`, each ticket in one stage (being written, ready, claimed by one thread, published), its slot holding its value until it is taken |
| MpmcTickets.FullTest | include/footstone/mpmc_queue.h:60-67 | A push that passes both full tests with a possibly stale ticket has room, or holds a ticket behind `tail_` with which its exchange cannot succeed |
| MpmcTickets.ReserveKept | include/footstone/mpmc_queue.h:69-71 | Winning the exchange on `flag_` keeps the invariant: the reserved slot held no live value |
| MpmcTickets.ClaimedIsHead | include/footstone/mpmc_queue.h:76-86 | A claim by either operation can succeed only on the ticket `head_` stands at |
| MpmcTickets.PublishedIsHead | include/footstone/mpmc_queue.h:87 | Between its claim and its store a thread holds the ticket equal to `head_` |
| MpmcTickets.ReadKept | include/footstone/mpmc_queue.h:117 | A pop that reads a slot and whose ticket is still `tail_` has read the oldest value, never an overwritten one |
| MpmcGuarantees.RunInv | include/footstone/mpmc_queue.h:57-123 | The invariant holds after every schedule of any number of threads |
| MpmcGuarantees.FifoUnderAnyInterleaving | include/footstone/mpmc_queue.h:57-123 | In every interleaving the values popped, in order of the `tail_` exchange, are a prefix of the values accepted, in order of the `flag_` exchange, and at most `min(max, 256) - 1` are held, whatever `max_size` is |
| MpmcGuarantees.StepRefinesQueue | include/footstone/mpmc_queue.h:57-123 | Seen from a FIFO queue, the `flag_` exchange appends the caller's value, the `tail_` exchange removes the oldest and returns it, and no other access changes it |
| MpmcCalls.PushAccounts | include/footstone/mpmc_queue.h:57-92 | From any call of `push` to its answer, under every schedule of any threads: if it answers true it has appended its value, exactly once, and done nothing else to the queue; if false, nothing |
| MpmcCalls.PopAccounts | include/footstone/mpmc_queue.h:101-123 | Likewise a `pop` that answers with a value has removed just that value, exactly once, and one that answers "empty" has removed nothing |
| MpmcCalls.MadeIsQueueStep | include/footstone/mpmc_queue.h:57-123 | What is so counted is what became of the FIFO queue at each step |
| MpmcCalls.RefusalsAreLooks | include/footstone/mpmc_queue.h:61-67 | "Full" is answered at the full test and "empty" at a mark that is not ready, and at no other access, such as a lost exchange |
| MpmcCalls.CodePushAccounts | include/footstone/mpmc_queue.h:57-92 | The same of the 8-bit code, for every schedule, with or without hazards |
| MpmcCalls.CodePopAccounts | include/footstone/mpmc_queue.h:101-123 | Likewise |
| MpmcProgress.SoloProgresses | include/footstone/mpmc_queue.h:57-123 | Obstruction freedom: from any state the invariant allows, with the other threads stopped anywhere inside their calls, each access of a thread that goes on alone brings its call nearer to its answer |
| MpmcProgress.SoloAnswers | include/footstone/mpmc_queue.h:57-123 | And so the call ends within the stated number of accesses that do not fail spuriously |
| MpmcProgress.AttendedKept | include/footstone/mpmc_queue.h:76-91 | Helping: while the oldest unpublished ticket is ready, some push is about to look at it; every access keeps this but the store of `head_` by a pop |
| MpmcProgress.NothingLagsAtRest | include/footstone/mpmc_queue.h:76-91 | In every run in which no pop had to store `head_`, everything accepted is published whenever all threads are at rest |
| MpmcGuarantees.OnePublisher | include/footstone/mpmc_queue.h:82-87 | At most one thread, pusher or popper, is between winning a claim and storing `head_`, and its ticket is the head |
| MpmcGuarantees.HeadGrowsByOne | include/footstone/mpmc_queue.h:87 | `head_` changes only by one, upwards, and only by the thread that holds the claim |
| MpmcGuarantees.AtRestAllReady | include/footstone/mpmc_queue.h:73-92 | With no operation in flight every slot from `head` to `flag` carries its own ticket and its own value |
| MpmcGuarantees.PopStepAlone | include/footstone/mpmc_queue.h:101-123 | Each access of a pop that runs alone brings it nearer to the answer the queue calls for |
| MpmcGuarantees.SoloPop | include/footstone/mpmc_queue.h:101-123 | A pop running alone, with any spurious failures, returns false exactly when nothing accepted is left and the oldest value otherwise, within a bounded number of accesses that do not fail |
| MpmcGuarantees.PopAloneAnswers | include/footstone/mpmc_queue.h:101-123 | From rest, a pop run alone fails if and only if `tail == flag`, also when `head_` lags behind |
| MpmcGuarantees.DrainEmptiesInOrder | include/footstone/mpmc_queue.h:101-123 | From rest, as many solo pops as there are values return all accepted values in order |
| MpmcGuarantees.PushStepAlone | include/footstone/mpmc_queue.h:57-92 | Each access of a push that runs alone, helping included, brings it nearer to its end |
| MpmcGuarantees.SoloPush | include/footstone/mpmc_queue.h:57-92 | A push running alone is refused exactly when the ring looks full and otherwise appends its value |
| MpmcGuarantees.PushAloneAnswers | include/footstone/mpmc_queue.h:57-92 | From rest, a push run alone fails if and only if `min(max, 256) - 1` values are held |
| MpmcGuarantees.NoRoomForEver | include/footstone/mpmc_queue.h:129-134 | With `max_size` below 2 no number of rounds makes room |
| MpmcGuarantees.OverwriteEndsIff | include/footstone/mpmc_queue.h:129-134 | Run alone, `push_until_success` gets its value in if and only if `max_size` is at least 2 |
| MpmcRefinement.WrappedTests | include/footstone/mpmc_queue.h:60-67 | The two full tests on wrapped 8-bit indices decide as the tests on unbounded tickets |
| MpmcRefinement.ReserveRefines | include/footstone/mpmc_queue.h:69-71 | The exchange on the 8-bit `flag_` does what the ticket exchange does if and only if it does not meet a ticket of another lap |
| MpmcRefinement.PopClaimRefines | include/footstone/mpmc_queue.h:112-114 | The claim of `pop`, with the value 255 it stores, does what the intended claim does if and only if the mark is of this lap and the slot is not 255 |
| MpmcRefinement.StepRefines | include/footstone/mpmc_queue.h:57-123 | From related states, one access of the 8-bit code and one of the ticket ring lead to related states if and only if the access is free of the two hazards |
| MpmcRefinement.ClashLeavesStale | include/footstone/mpmc_queue.h:112-113 | The claim of slot 255 by `pop` leaves the two rings related in all but the mark of that slot, which looks ready |
| MpmcRefinement.StepTracksIff | include/footstone/mpmc_queue.h:57-123 | Past that claim, without a comparison across laps: the two rings go on together if and only if nobody reads the mark while it is stale, and the next push into the slot makes it good |
| MpmcRefinement.RunTracks | include/footstone/mpmc_queue.h:57-123 | A schedule without comparisons across laps and without reads of a stale mark keeps the 8-bit ring and the ticket ring together throughout |
| MpmcRefinement.CodeIsFifo | include/footstone/mpmc_queue.h:57-123 | The 8-bit code itself is FIFO and bounded in every such interleaving, for every `max_size`, also when pops claim slot 255, and its wrapped indices count what was accepted and popped |
| MpmcRefinement.MarksWithinALap | include/footstone/mpmc_queue.h:75-84 | A mark left in a slot is always a ticket between `head` and `flag` |
| MpmcRefinement.FreshTicketsAreSafe | include/footstone/mpmc_queue.h:57-123 | The freshness guard: when no saved ticket is compared after 256 later ones, the only hazard left is a claim of slot 255 by `pop` |
| MpmcSlot255.OverlapAtLast | include/footstone/mpmc_queue.h:106-114 | A pop that overlaps the push into slot 255 publishes the slot and leaves it marked as ready |
| MpmcSlot255.StaleMarkPops | include/footstone/mpmc_queue.h:76-92 | One lap later the stale mark moves `head_` past `flag_`, and a pop returns a value the ring does not hold |
| MpmcSlot255.PopsMoreThanAccepted | include/footstone/mpmc_queue.h:112 | For every `max_size` of at least 2 some schedule of two threads from the initial state pops more values than were accepted |
| MpmcRuns.Cycle | include/footstone/mpmc_queue.h:57-123 | A whole push and a whole pop by one thread move an empty ring on by one slot, whatever the other thread is in the middle of |
| MpmcLap.LappedPopRepeats | include/footstone/mpmc_queue.h:118 | For every `max_size` of at least 2 some schedule of two threads from the initial state, with no slot left marked, returns a value a second time in place of the one accepted, so that what was popped is no prefix of what was accepted |
| MpmcRing.MpmcQueue.constructor | include/footstone/mpmc_queue.h:48 | For any `max_size` a new object is the initial state of the 8-bit machine and an empty queue at rest, in step with the ticket ring |
| MpmcRing.MpmcQueue.Step | include/footstone/mpmc_queue.h:57-123 | One access in place equals one step of the 8-bit machine, and unless it compares across laps or reads a stale mark it keeps the object in step with the ticket ring |
| MpmcRing.MpmcQueue.StepPush | include/footstone/mpmc_queue.h:57-92 | One access of `push` in place equals the machine's step |
| MpmcRing.MpmcQueue.StepPop | include/footstone/mpmc_queue.h:101-123 | One access of `pop` in place equals the machine's step |
| MpmcRing.MpmcQueue.Push | include/footstone/mpmc_queue.h:57-92 | With the other threads at rest, also when `head_` lags: succeeds if and only if fewer than `min(max_size, 256) - 1` values are held, and then appends the value; a stale mark does not matter unless the push comes to slot 255 |
| MpmcRing.MpmcQueue.Pop | include/footstone/mpmc_queue.h:101-123 | With the other threads at rest, also when `head_` lags: answers empty if and only if the queue is empty, and otherwise takes the oldest value; it leaves the mark of slot 255 stale if and only if it had to publish that slot |
| MpmcRing.MpmcQueue.PushUntilSuccess | include/footstone/mpmc_queue.h:129-134 | Terminates and leaves the newest `min(max_size, 256) - 1` of the old contents followed by the value, across wraparound; the mark of slot 255 is stale afterwards if and only if the ring was full and the pop had to publish that slot |
| MpmcAnswers.FullAnswerIff | include/footstone/mpmc_queue.h:61-67 | Beside any other operations: a push whose ticket is not behind `tail_` is refused if and only if there is no room for it, and then the ring is full |
| MpmcAnswers.UntrueFullIsStale | include/footstone/mpmc_queue.h:58-67 | If a push is refused while the ring has room, `tail_` has passed its ticket |
| MpmcAnswers.LooksWhenNothingPublished | include/footstone/mpmc_queue.h:105-108 | A pop looks at a mark only after a load of `head_` at which nothing published was left |
| MpmcAnswers.EmptyAnswerIff | include/footstone/mpmc_queue.h:108-111 | That look then answers "empty" if and only if the ticket has been published meanwhile, is not accepted yet, or is on its way: being written, or claimed by some thread |
| MpmcAnswers.RefusedByEmptyRing | include/footstone/mpmc_queue.h:58-67 | For every `max_size` of at least 2 some schedule of two threads from the initial state refuses a push although the ring is empty |
| MpmcAnswers.EmptyAfterOwnPush | include/footstone/mpmc_queue.h:106-111 | And some schedule has a pop answer "empty" right after the same thread's push returned true, with the value still in the ring |
| NodePoolMachine.PopMemory | include/footstone/mpmc_list.h:157-162 | The swap that takes the top of the stack leaves a chain and hands out a node no client held |
| NodePoolMachine.PushMemory | include/footstone/mpmc_list.h:174-176 | The swap that returns a node leaves an acyclic null-ended chain with that node on top |
| NodePoolMachine.CacheMemory | include/footstone/mpmc_list.h:168 | Exchanging a node into `el_` keeps every node in one place |
| NodePoolMachine.ExecInv | include/footstone/mpmc_list.h:148-179 | Every call, every client write into a node it holds and every atomic access keeps the invariant of the pool |
| NodePool.RunInv | include/footstone/mpmc_list.h:148-179 | The invariant holds after every schedule of any number of threads |
| NodePool.PlaceOf | include/footstone/mpmc_list.h:132-133 | The history variable `owner` tells exactly where each node is: client, `el_`, stack or one operation |
| NodePool.OwnedExactlyOnce | include/footstone/mpmc_list.h:148-179 | In every interleaving each node is in exactly one of client hands, `el_`, the chain from `cursor_`, and one in-flight operation, and in it only once |
| NodePool.StackIsChain | include/footstone/mpmc_list.h:156-177 | In every interleaving the links from `cursor_` form one null-ended chain without repetition |
| NodePool.NeverHandedOutTwice | include/footstone/mpmc_list.h:148-163 | An `alloc` that returns gives a node no client holds |
| NodePool.SwapIsCurrent | include/footstone/mpmc_list.h:156-157 | When the tagged exchange succeeds, the `next` loaded before is still the second node |
| NodePoolStale.PointerAloneIsStale | include/footstone/mpmc_list.h:87-90 | Without the tag it need not be: some schedule of two threads from the empty pool leads to a thread whose pointer is that of `cursor_`, whose tag is not, and whose `next` is in a client's hands |
| NodePoolProgress.SoloProgresses | include/footstone/mpmc_list.h:148-179 | Obstruction freedom: wherever the other threads stand, each access of a thread that goes on alone brings its `alloc` or `free` nearer to its end |
| NodePoolProgress.SoloAnswers | include/footstone/mpmc_list.h:148-179 | And so the call ends, within four accesses that do not fail spuriously |
| NodePoolProgress.AllocAlone | include/footstone/mpmc_list.h:148-163 | A whole `alloc` beside threads that stand still returns the cached node, or else the top of the stack, and makes a new one only if there is neither |
| NodePoolProgress.FreeAlone | include/footstone/mpmc_list.h:165-179 | A whole `free` caches the node and puts the one it displaces on top of the stack |
| NodePool.Pool.constructor | include/footstone/mpmc_list.h:132-133 | A new pool is empty and valid |
| NodePool.Pool.Step | include/footstone/mpmc_list.h:148-179 | One access in place equals the machine's step and keeps the pool valid |
| NodePool.Pool.StepAlloc | include/footstone/mpmc_list.h:148-163 | One access of `alloc` in place equals the machine's step |
| NodePool.Pool.StepFree | include/footstone/mpmc_list.h:165-179 | One access of `free` in place equals the machine's step |
| MpmcListMachine.LinksBehindLast | include/footstone/mpmc_list.h:219-224 | While the node a push looked at is in the queue, an exchange on its `next_` that succeeds links behind the last node, which `tail_` denotes |
| MpmcListMachine.SamePlace | include/footstone/mpmc_list.h:248-249 | While `head_` has not moved, equal pointers of `head` and `tail` mean the same place in the list |
| MpmcListMachine.PopCheckKept | include/footstone/mpmc_list.h:248-255 | The check of `head_` never leads to following a null `next` |
| MpmcListMachine.ExecInvIff | include/footstone/mpmc_list.h:216-267 | With a pool that may hand out and write over any free node at any time, an access keeps the list invariant if and only if it is no exchange on `next_` that succeeds on a node other than the last |
| MpmcListGuarantees.InvAlong | include/footstone/mpmc_list.h:216-267 | The invariant holds at every moment of every execution without such an exchange |
| MpmcListGuarantees.ListIsQueue | include/footstone/mpmc_list.h:216-267 | In every state of such an execution the nodes from `head_` are distinct, chained and null-ended and hold exactly the values not yet popped; popped values are a prefix of linked values; `tail_` is one of those nodes; no null is followed |
| MpmcListGuarantees.StepRefinesQueue | include/footstone/mpmc_list.h:216-267 | The abstract queue changes only by append at the link exchange and by remove-first at the `head_` exchange, with the value that call pushes or returns |
| MpmcListGuarantees.EmptyAnswered | include/footstone/mpmc_list.h:247-252 | A pop answers empty only after loading a null `next_` from a queue that was empty |
| MpmcListGuarantees.EmptyAnswerIsTrue | include/footstone/mpmc_list.h:243-267 | If a pop answers empty, the queue was empty at some instant inside that very call |
| MpmcListCalls.PushAccounts | include/footstone/mpmc_list.h:216-234 | From any call of `push` to its return, under every schedule: it has linked its value, exactly once, and done nothing else to the queue |
| MpmcListCalls.PopAccounts | include/footstone/mpmc_list.h:243-267 | A `pop` that returns a value has removed just that value, exactly once; one that answers "empty" has removed nothing |
| MpmcListCalls.MadeIsQueueStep | include/footstone/mpmc_list.h:216-267 | What is so counted is what became of the FIFO queue at each step |
| MpmcListCalls.ReturnedArePopped | include/footstone/mpmc_list.h:255-262 | In every execution the values returned so far, with those that pops are about to return, are the values popped, as multisets |
| MpmcListProgress.SoloProgresses | include/footstone/mpmc_list.h:216-267 | Obstruction freedom: wherever the other threads stand, each access of a thread that goes on alone, helping `tail_` on included, brings its call nearer to its answer |
| MpmcListProgress.SoloAnswers | include/footstone/mpmc_list.h:216-267 | And so the call ends within the stated number of accesses that do not fail spuriously |
| MpmcListGuarantees.TailCloseIff | include/footstone/mpmc_list.h:222-231 | `tail_` stays the last or second-to-last node if and only if no exchange on `next_` succeeds while it is second-to-last |
| MpmcListGuarantees.LinkersHoldIff | include/footstone/mpmc_list.h:162-223 | Each push about to exchange `next_` still finds there what was linked behind if and only if the pool hands out no node behind which a push is about to link |
| MpmcListGuarantees.AttendedKept | include/footstone/mpmc_list.h:223-226 | With such a pool, while `tail_` is behind, the push that linked the node after it is still to move it |
| MpmcListGuarantees.CarefulRunsAreSafe | include/footstone/mpmc_list.h:216-267 | With such a pool no exchange is ever misled, so that every execution is covered by the rows above; `tail_` is always the last or second-to-last node, and the last one unless a push is between its link and its return |
| MpmcListOnPool.ExecInvIff | include/footstone/mpmc_list.h:123-267 | List and pool joined, each access of either: both invariants and the tie between them, that the pool's clients hold just the queue's nodes and those in its threads' hands, are kept if and only if the access is no misled exchange |
| MpmcListOnPool.AllocEndJoined | include/footstone/mpmc_list.h:148-217 | The node `alloc` returns is neither in the queue nor in a thread's hands |
| MpmcListOnPool.FreeCallJoined | include/footstone/mpmc_list.h:256-257 | A pop frees a node it holds, as the pool asks |
| MpmcListOnPool.RunRefinesList | include/footstone/mpmc_list.h:123-267 | Seen from the list, every run of the joined machine is an execution of the list machine |
| MpmcListOnPool.NodesConserved | include/footstone/mpmc_list.h:123-267 | In every such run each node is in exactly one of the queue, the hands of one push or pop, `el_`, the stack and one operation of the pool |
| MpmcListOnPool.QueueOnPool | include/footstone/mpmc_list.h:123-267 | On its own pool the linked queue is FIFO in every run without a misled exchange |
| MpmcListOnPool.CarefulIff | include/footstone/mpmc_list.h:148-223 | While each push about to exchange `next_` still finds there what was linked behind, no exchange is misled, and that lasts if and only if no `alloc` ends with a node behind which a push is about to link |
| MpmcListOnPool.CarefulRunsAreSafe | include/footstone/mpmc_list.h:123-267 | On its own pool every run without such an `alloc` is never misled and FIFO, and leaves `tail_` at the last or second-to-last node, and at the last one unless a push is between its link and its return |
| MpmcListLoss.ZeroIsReused | include/footstone/mpmc_list.h:148-217 | A schedule of the real pool hands a popped and freed node to the next push while an older push is about to link behind it |
| MpmcListLoss.LostIsReached | include/footstone/mpmc_list.h:223 | The exchange of the older push then succeeds on a node that is not in the queue |
| MpmcListLoss.ListLosesValue | include/footstone/mpmc_list.h:148-267 | On its own pool some schedule of three threads from the initial state loses a value: a pop that starts with a pushed value unpopped answers empty |
| MpmcListLoss.TailFallsTwoBehind | include/footstone/mpmc_list.h:223-224 | In another run the reused node is the last one again: the exchange loses nothing but leaves `tail_` two nodes behind |
| MpmcList.MpmcQueue.constructor | include/footstone/mpmc_list.h:194-195 | A new list is the initial state of the machine |
| MpmcList.MpmcQueue.Step | include/footstone/mpmc_list.h:216-267 | One access in place equals the machine's step, and a valid list stays valid if and only if the step is no misled exchange |
| MpmcList.MpmcQueue.StepPush | include/footstone/mpmc_list.h:216-234 | One access of `push` in place equals the machine's step |
| MpmcList.MpmcQueue.StepPop | include/footstone/mpmc_list.h:243-267 | One access of `pop` in place equals the machine's step |
| SpscRing.WrappedTests | include/footstone/spsc_queue.h:48-53 | The 8-bit difference of the indices is the number of values held, and the two tests together ask whether the queue is full |
| SpscRing.ExecInv | include/footstone/spsc_queue.h:45-74 | Every access of either thread keeps the invariant, with the arithmetic of the code |
| SpscRing.RunInv | include/footstone/spsc_queue.h:45-74 | The invariant holds after every interleaving |
| SpscRing.ProducerLinearizes | include/footstone/spsc_queue.h:45-57 | A push is refused if and only if the queue is full at its load of `tail_`, and otherwise appends its value at its `fetch_add` and nowhere else |
| SpscRing.ConsumerLinearizes | include/footstone/spsc_queue.h:66-74 | A pop answers empty if and only if the queue is empty at its load of `head_`, and otherwise removes and returns the oldest value at its `fetch_add` |
| SpscRing.WholePush | include/footstone/spsc_queue.h:45-57 | The four accesses of a push together |
| SpscRing.WholePop | include/footstone/spsc_queue.h:66-74 | The four accesses of a pop together |
| SpscRing.NoSlotShared | include/footstone/spsc_queue.h:54-71 | The producer's write and the consumer's read never meet in one slot |
| SpscRing.FifoUnderAnyInterleaving | include/footstone/spsc_queue.h:45-74 | In every interleaving the values popped are a prefix of those pushed and at most `max_size` are held |
| SpscCalls.PushAccounts | include/footstone/spsc_queue.h:45-57 | From any call of `push` to its answer, whatever the consumer does: if it answers true it has appended its value, exactly once; if false, nothing |
| SpscCalls.PopAccounts | include/footstone/spsc_queue.h:66-74 | Likewise a `pop` has removed just the value it answers with, exactly once, or nothing |
| SpscCalls.CallsAreWaitFree | include/footstone/spsc_queue.h:45-74 | A call ends with its fourth access at the latest, and no step of the other thread takes it further away |
| SpscRing.OverFill | include/footstone/spsc_queue.h:48-55 | With `max_size` above 255 and the tail at 0 any number of pushes succeeds |
| SpscRing.SizeLimitIsExact | include/footstone/spsc_queue.h:24-31 | The indices tell an empty queue from a full one in every interleaving if and only if `max_size` is at most 255 |
| SpscRing.NothingFits | include/footstone/spsc_queue.h:51-53 | With `max_size` 0 every push is refused |
| SpscRing.SpscQueue.constructor | include/footstone/spsc_queue.h:31 | For any `max_size` a new object is the initial state of the machine; up to 255 it is valid and empty |
| SpscRing.SpscQueue.ProducerStep | include/footstone/spsc_queue.h:45-57 | One access of the producer in place equals the machine's step |
| SpscRing.SpscQueue.ConsumerStep | include/footstone/spsc_queue.h:66-74 | One access of the consumer in place equals the machine's step |
| SpscRing.SpscQueue.Push | include/footstone/spsc_queue.h:45-57 | While the consumer stands still: succeeds if and only if there is room, and appends |
| SpscRing.SpscQueue.Pop | include/footstone/spsc_queue.h:66-74 | While the producer stands still: answers empty if and only if empty, and takes the oldest |
| SpscRing.SpscQueue.PushUntilSuccess | include/footstone/spsc_queue.h:80-85 | Terminates for `max_size` at least 1 and leaves the newest values, the new one last |
| StableSort.SortSpec | src/footstone/worker.cc:100-113 | The list sort sorts by key, permutes, and keeps the order of groups with equal keys |
| WorkerCore.PreparedKeepsGroups | src/footstone/worker.cc:311-322 | Sorting and letting newcomers in, with no bind in between, keeps every group, and after it no newcomer waits |
| WorkerCore.RunTaskKeepsGroups | src/footstone/worker.cc:76-90 | Running a task keeps every group with its inner order |
| WorkerCore.GroupsConserved | src/footstone/worker.cc:151-230 | Over every run of binds, decisions and whole-worker unbinds each group bound is held or has been returned, exactly once, with its inner order |
| WorkerCore.UnBindRemoves | src/footstone/worker.cc:174-211 | Unbinding a runner takes that runner out of the first running group that contains it, at its first place there, or else out of the first such pending one; every other group and runner stays, and without such a group nothing changes |
| WorkerCore.BindGroupStacks | src/footstone/worker.cc:119-149 | Binding a child puts it at the back of the first running group that contains the father, or else of the first such pending one, and changes nothing else |
| WorkerCore.AddTimesCharges | src/footstone/worker.cc:83-85 | Every runner is charged the readings taken at its places in the group, and a runner outside it nothing |
| WorkerCore.RunTaskCharges | src/footstone/worker.cc:76-90 | A task charges each runner of the group that ran with the reading taken for it, and nobody else; without a task nobody is charged |
| WorkerOrder.ImmediateInOrder | src/footstone/worker.cc:289-310 | Over any run immediate tasks are handed out once each, in order of arrival |
| WorkerOrder.ImmediateFirst | src/footstone/worker.cc:306-310 | While one waits it is what a call answers, and the call touches neither lists nor times nor the runners' tasks |
| WorkerOrder.NewcomersInOrder | src/footstone/worker.cc:66-73 | Over any run the groups bound reach the front of the running list, or are handed back, in the order in which they were bound |
| WorkerOrder.NobodyWaits | src/footstone/worker.cc:151-172 | After any run of binds, decisions and unbinds from a worker without groups, a decision that is not for an immediate task lets every waiting group in |
| WorkerOrder.HandedBackInOrder | src/footstone/worker.cc:218-230 | Unbinding the worker hands back the running groups in list order and then the waiting ones in the order of binding |
| WorkerCore.OnlyTheBackRuns | src/footstone/worker.cc:327-333 | The task run comes from the back of a group, and no other runner's queue changes; every group passed over has nothing at its back |
| WorkerCore.BelowTheBackWaits | src/footstone/worker.cc:327-333 | Over every run of binds, decisions and whole-worker unbinds a runner that is at the back of no group keeps all its tasks |
| WorkerCore.ChildBlocksItsGroup | src/footstone/worker.cc:148 | While a child bound by `BindGroup` stays at the back of its group, no task of a runner below it is taken, over whole runs |
| WorkerCore.UnBindUndoesBindGroup | src/footstone/worker.cc:119-211 | Unbinding a child that was bound to its father's group restores the worker |
| WorkerCore.UnBindEmptiesIff | src/footstone/worker.cc:174-211 | Unbinding a runner leaves an empty group, on which the next sort aborts, if and only if the runner is alone in the group in which it is found |
| WorkerBinding.DecisionIsGetNextTask | src/footstone/worker.cc:303-334 | Sort, look at the flag, balance, clear, walk: with no other thread in between, these steps are the one decision of the other rows |
| WorkerBinding.BindIsWhole | src/footstone/worker.cc:165-172 | Appending and then setting the flag, with nothing in between, is the one bind of the other rows |
| WorkerBinding.ExecPromisedIff | src/footstone/worker.cc:151-172 | Every step of a decision or of a bind: the promise that waiting groups will be let in is lost by a flag that the last binder sets between balance and clearing, for groups that came after the balance, and by nothing else; it is won back by the next group bound and by nothing else |
| WorkerBinding.RunPromisedIff | src/footstone/worker.cc:316-322 | Over any run of decisions and binds the promise holds if and only if every flag set in vain is followed by another group |
| WorkerBinding.LetInIff | src/footstone/worker.cc:316-322 | With no bind under way, a decision lets all waiting groups in if the state was promised, and none otherwise |
| WorkerBinding.BoundIsLetInIff | src/footstone/worker.cc:316-322 | After any run the next decision leaves no group waiting if and only if no flag was set in vain since the last group was bound |
| WorkerBinding.StrandedWait | src/footstone/worker.cc:316-322 | Groups bound in vain stay where they are, over any run, for as long as nobody binds another |
| WorkerBinding.GroupsConserved | src/footstone/worker.cc:56-90 | Whatever falls between the steps of a decision, each group bound is held exactly once |
| WorkerBinding.LateBindIsStranded | src/footstone/worker.cc:319-321 | A run in which a bind that falls between the balance and the clearing strands its group |
| WorkerFairness.BalanceKeeps | src/footstone/worker.cc:56-74 | Splicing newcomers in at the front's time leaves a sorted list sorted and changes nobody else's time |
| WorkerFairness.JoinKeepsFairness | src/footstone/worker.cc:311-322 | Sort followed by splice leaves a sorted list of the same groups whose times spread no further |
| WorkerFairness.ChargedTime | src/footstone/worker.cc:83-85 | Of disjoint groups of any size, charging one adds its front runner's reading to the time it is sorted by, and nothing to any other group's |
| WorkerFairness.DecisionKeepsFairness | src/footstone/worker.cc:76-90 | One decision runs and charges a group of least consumed time and keeps the spread within `D` |
| WorkerFairness.FairShare | src/footstone/worker.cc:56-113 | With disjoint groups of any size, equal positive priorities, a task ready at every back and tasks of at most `D`, at every moment of every run with joins the consumed times of running groups differ by at most `D` |
| WorkerWaiting.WeighedDecision | src/footstone/worker.cc:303-344 | With unequal priorities a decision among a fixed set charges one group of least priority times consumed time, its priority times the task's time, and no other |
| WorkerWaiting.WeightedShare | src/footstone/worker.cc:100-113 | At every moment of every such run priority times consumed time differs between any two groups by at most the largest priority times `D` |
| WorkerWaiting.PotentialBound | src/footstone/worker.cc:100-113 | The turns of other groups before a given one are within the window of those groups |
| WorkerWaiting.DecisionDrops | src/footstone/worker.cc:76-90 | Each decision for another group uses up one of those turns |
| WorkerWaiting.BoundedWaiting | src/footstone/worker.cc:303-344 | With tasks between `d` and `D` and priorities from 1 to `P`, every group is chosen within any `w + 1` consecutive decisions, where the window `w` adds `P * D / (p * d) + 1` for each other group of priority `p` |
| WorkerWaiting.EqualWindow | src/footstone/worker.cc:303-344 | For `n` groups of one priority that window is at most `(n - 1) * (D / d + 1)` |
| WorkerModule.Worker.SortNoLock | src/footstone/worker.cc:100-113 | The list becomes the stable sort of itself by priority times consumed time |
| WorkerModule.Worker.BalanceNoLock | src/footstone/worker.cc:56-74 | The nested loops give all newcomers the front's time and splice them in before it |
| WorkerModule.Worker.GetNextTask | src/footstone/worker.cc:303-344 | Returns and removes the task the decision function names, an immediate one first |
| WorkerModule.Worker.FindReady | src/footstone/worker.cc:327-344 | The loop finds the first group whose back runner has a task |
| WorkerModule.Worker.RunTask | src/footstone/worker.cc:76-90 | The loop charges each runner of the current group with the time elapsed when the clock is read for it |
| WorkerModule.Worker.BindAll | src/footstone/worker.cc:151-172 | New groups wait behind the others and a balance is due |
| WorkerModule.Worker.AddImmediateTask | src/footstone/worker.cc:289-293 | The task waits behind the other immediate ones |
| WorkerModule.Worker.UnBindWorker | src/footstone/worker.cc:218-230 | Hands back the running groups and then the pending ones |
| WorkerModule.Worker.FindGroup | src/footstone/worker.cc:123-133 | The search stops at the first group that contains the runner |
| WorkerModule.Worker.BindGroup | src/footstone/worker.cc:119-149 | The child goes to the back of the father's group, running groups searched first |
| WorkerModule.Worker.UnBindRunner | src/footstone/worker.cc:174-211 | The runner is erased from the first group that contains it, running groups first |
| TaskRunnerModule.TaskRunner.PostTask | src/footstone/task_runner.cc:86-92 | The call is a step of the specification: the task goes to the end of the FIFO |
| TaskRunnerModule.TaskRunner.PostDelayedTask | src/footstone/task_runner.cc:94-102 | The call is a step of the specification: the task waits for now plus its delay |
| TaskRunnerModule.TaskRunner.Top | include/footstone/task_runner.h:101-107 | The deadline queue's top is an entry of least deadline, any one of them |
| TaskRunnerModule.TaskRunner.PopTaskFromDelayedQueue | src/footstone/task_runner.cc:184-197 | Removes and returns an entry of least deadline if it is due; returns nothing if and only if none is |
| TaskRunnerModule.TaskRunner.PromoteDue | src/footstone/task_runner.cc:149-156 | The drain loop moves exactly what is due to the end of the FIFO, earliest deadline first |
| TaskRunnerModule.TaskRunner.TakeFront | src/footstone/task_runner.cc:157-166 | The section is a step of the specification: the front of the FIFO is handed out |
| TaskRunnerModule.TaskRunner.GetNext | src/footstone/task_runner.cc:147-166 | The call is two steps of the specification, a promotion and a removal: it returns the front of the FIFO after the promotion, and nothing if and only if the FIFO is empty and nothing is due |
| TaskRunnerModule.TaskRunner.GetNextTimeDelta | src/footstone/task_runner.cc:168-176 | The time to the least deadline, or none |
| TaskRunnerModule.LogGrows | src/footstone/task_runner.cc:147-166 | Over whole runs of those steps, also with other calls between the two steps of `GetNext`, the history of the FIFO only grows at its end: tasks already in it precede newly promoted ones |
| TaskRunnerModule.PostedIsAccountedFor | src/footstone/task_runner.cc:86-102 | In every state of every run the posted tasks are the returned, the queued and the delayed ones together, as multisets |
| TaskRunnerModule.NeverEarly | src/footstone/task_runner.cc:184-192 | With a clock that never runs backwards no task is returned before its deadline |
| TaskRunnerModule.PromotesInOrder | src/footstone/task_runner.cc:149-156 | Within one promotion an earlier deadline goes first |
| TaskRunnerModule.EarlierDeadlineFirst | src/footstone/task_runner.cc:147-166 | Of two tasks that ever wait together the one with the strictly earlier deadline enters the FIFO first in every run |
| TaskRunnerModule.EarlierDeadlineReturnedFirst | src/footstone/task_runner.cc:147-166 | And it is returned first |
| ThreadPoolMachine.ExecInv | include/footstone/thread_pool.h:37-86 | Every critical section, notification, spurious wakeup and destructor step keeps the invariant: acceptance order, one owner per task, no lost wakeup |
| ThreadPoolModule.RunInv | include/footstone/thread_pool.h:37-86 | The invariant holds after every schedule |
| ThreadPoolModule.NeverSleepsOnWork | include/footstone/thread_pool.h:44-46 | A queued task always leaves a worker awake or running, a notification under way or the `notify_all` to come; once stopped, a sleeper means that the `notify_all` is still to come |
| ThreadPoolModule.OpenNeverStuck | include/footstone/thread_pool.h:44-53 | In an open pool with a worker, while tasks are queued or run or notifications are pending, some notification or some worker's step changes the state, without any spurious wakeup |
| ThreadPoolModule.OpenPoolRunsAll | include/footstone/thread_pool.h:40-74 | Any schedule of such steps that change the state is no longer than a stated measure; one of just that length, and any other after which none can go on, has emptied the queue, delivered every notification and run every accepted task exactly once |
| ThreadPoolModule.TakenInOrder | include/footstone/thread_pool.h:47-48 | Over any schedule the workers take the tasks one by one in the order of acceptance |
| ThreadPoolModule.DrainedAtReturn | include/footstone/thread_pool.h:79-86 | With at least one worker, when the destructor has returned every accepted task has run exactly once |
| ThreadPoolModule.NoWorkerNoDrain | include/footstone/thread_pool.h:37-54 | Without workers an accepted task is never run |
| ThreadPoolModule.DrainsIff | include/footstone/thread_pool.h:79-86 | The pool drains in every schedule if and only if it has a worker |
| ThreadPoolModule.ShutdownProgresses | include/footstone/thread_pool.h:79-86 | After the stop every step that changes anything uses up one of finitely many steps left, spurious wakeups included |
| ThreadPoolModule.ShutdownNeverStuck | include/footstone/thread_pool.h:79-86 | Until the destructor returns some worker or the destructor can go on |
| ThreadPoolModule.ShutdownIsBounded | include/footstone/thread_pool.h:79-86 | In any order the destructor returns within that number of steps |
| ThreadPoolModule.ThreadPool.constructor | include/footstone/thread_pool.h:37-54 | A new pool has all workers awake and nothing queued |
| ThreadPoolModule.ThreadPool.EnqueueTask | include/footstone/thread_pool.h:65-73 | Accepts unless the pool is stopped, as the machine does |
| ThreadPoolModule.ThreadPool.Notify | include/footstone/thread_pool.h:74 | Wakes one sleeper if there is any, as the machine does |
| ThreadPoolModule.ThreadPool.WorkerStep | include/footstone/thread_pool.h:40-53 | Waits, leaves, takes the front task or finishes it, as the machine does |
| ThreadPoolModule.ThreadPool.SpuriousWakeup | include/footstone/thread_pool.h:45 | A waiting worker may wake of its own accord |
| ThreadPoolModule.ThreadPool.DestructorStep | include/footstone/thread_pool.h:79-86 | Stops, notifies all, joins the workers in order, as the machine does |
| Timer.StepInv | src/footstone/base_timer.cc:11-85 | Every start with any delay, every reset, also of a stopped timer, every stop and every dispatch keeps the timer armed once and due no later than wanted, where a start or reset finds no callback posted or one that will do |
| Timer.AlwaysArmedOnce | src/footstone/base_timer.cc:16-85 | At every moment of every run of such calls there is at most one callback, and a running timer has exactly one, scheduled no later than desired |
| Timer.RefinesIdeal | src/footstone/base_timer.cc:11-85 | Over every such run the timer with its callbacks refines an ideal one without: a dispatch runs the user task if and only if the timer was started, reset or repeated at least its delay ago and not stopped since, and at every moment the two agree on running, delay and wanted time |
| Timer.NeverEarly | src/footstone/base_timer.cc:45-59 | Whenever the user task runs, some start, reset or firing lies at least the delay back, with no stop since |
| Timer.StopStops | src/footstone/base_timer.cc:11-48 | Over any run of calls at all, from a stop until the next start or reset the timer is not running, no dispatch runs the user task and none posts a callback |
| Timer.FiringPosts | src/footstone/repeating_timer.cc:18-22 | A repeating timer that fires posts its next callback for one delay later; a one-shot timer that fires is off and posts nothing |
| Timer.NothingPostedWithoutRunner | src/footstone/base_timer.cc:16-20 | Once the task runner is gone no call posts a callback, and a timer that is off comes on only by a start or reset that counts on one for a time still to come |
| Timer.DispatchServes | src/footstone/base_timer.cc:45-59 | A dispatch at or after the desired time runs the user task, and an earlier one posts a callback for exactly that time |
| Timer.ResetPosts | src/footstone/base_timer.cc:67-85 | A reset posts exactly when the last callback lies in the past or comes too late |
| Timer.StartArmsOnceIff | src/footstone/base_timer.cc:61-85 | A start with any delay leaves exactly one callback if and only if none was posted, or the posted one is neither overdue nor later than the new delay asks: the guard of those runs is the weakest one |
| Timer.StartIsLostIff | src/footstone/base_timer.cc:61-85 | From any state, a start leaves the timer running with nothing posted if and only if nothing was posted and the time last scheduled has not passed and is early enough |
| Timer.RestartAtTheTickIsLost | src/footstone/base_timer.cc:67-82 | Fired and restarted in its own tick, a one-shot timer believes it runs with nothing posted |
| Timer.ShrunkDelayPostsTwice | src/footstone/base_timer.cc:84 | A shorter delay leaves two callbacks posted |
| Timer.RepeatingKeepsCount | src/footstone/repeating_timer.cc:18-22 | A running repeating timer keeps its number of callbacks at each dispatch |
| Timer.BaseTimer.StopTimer | src/footstone/base_timer.cc:11-14 | Not running, callbacks left where they are |
| Timer.BaseTimer.Schedule | src/footstone/base_timer.cc:16-43 | Posts a callback and sets both times, or nothing without a task runner |
| Timer.BaseTimer.ResetTimer | src/footstone/base_timer.cc:67-85 | Reuses the callback posted last or posts a new one, as the specification function says |
| Timer.BaseTimer.StartInternal | src/footstone/base_timer.cc:61-65 | Sets the delay and resets |
| Timer.BaseTimer.FireUserTask | src/footstone/one_shot_timer.cc:28-33 | A one-shot timer stops, a repeating one schedules itself again |
| Timer.BaseTimer.InvokeScheduledTask | src/footstone/base_timer.cc:45-59 | Runs the user task if and only if the timer is running and its desired time has come |
| Base64.SymbolsAreTheTable | src/footstone/base64.cc:7-16 | The ranges used for symbols are the encoding table entry by entry |
| Base64.TablesInvert | src/footstone/base64.cc:46-63 | Encoding and decoding tables are inverse to each other, with `=` in neither |
| Base64.LengthOfEncoding | src/footstone/base64.cc:18 | An encoding has length `4 * ceil(n / 3)` |
| Base64.SameBits | src/footstone/base64.cc:23-28 | The four indexes computed by shifts and masks are the 24 bits of the three bytes, in order |
| Base64.Peel | src/footstone/base64.cc:22-29 | One turn of the loop is one group of the bit string's encoding |
| Base64.Tail | src/footstone/base64.cc:30-41 | One or two last bytes are filled with zero bits and padded |
| Base64.Encode | src/footstone/base64.cc:6-43 | For at least two bytes the result is the padded encoding of section 4 of RFC 4648, read as groups of six bits of one bit string |
| Base64Decoding.Decode | src/footstone/base64.cc:45-85 | The loops compute the decoded bytes cut to the length the padding calls for, and nothing for a wrong length |
| Base64RoundTrip.TripleBytes | src/footstone/base64.cc:79-82 | Adding the shifted values and cutting out bytes joins the six-bit values as bits |
| Base64RoundTrip.OctetsKeepBits | src/footstone/base64.cc:74-83 | What is stored is the string of bits that the characters stand for |
| Base64RoundTrip.EncodingTellsLength | src/footstone/base64.cc:69-71 | The output length of `Decode` on an encoding is the number of bytes encoded |
| Base64RoundTrip.DecodeOfEncode | src/footstone/base64.cc:6-85 | Decoding the encoding of any non-empty byte string gives it back |
| Base64RoundTrip.EncodeOfDecodeIff | src/footstone/base64.cc:6-85 | Encoding what `Decode` makes of a string gives the string back if and only if it is canonical in the sense of section 3.5 of RFC 4648 |
| Base64RoundTrip.CanonicalIsUnique | src/footstone/base64.cc:45-85 | No two canonical strings decode alike |
| Base64RoundTrip.OnlyLengthIsReported | src/footstone/base64.cc:66-68 | `Decode` answers with nothing if and only if the length is no multiple of four |
| Base64RoundTrip.EncodeStaysInsideIff | src/footstone/base64.cc:22 | The unsigned loop bound keeps the first and every later turn inside the input if and only if there are at least two bytes |

## Left out

- Weak memory: every atomic access is sequentially consistent, whatever order the source names.
- Object lifetime and templates: destructors of nodes, allocation failure and types other than the 8-bit index are not modelled.
- The 16-bit tag in the high bits of a pointer: tags are unbounded, so wrap-around of a tag after 65536 exchanges is not modelled.
- MpmcGuarantees.PopAloneAnswers: speaks of a pop that runs alone; beside other operations the answers are those of MpmcAnswers.
- MpmcRing.MpmcQueue.Push: requires the other threads at rest; what interleaved calls keep is stated of Step and of whole schedules. A push that comes to slot 255 while its mark is stale is left out: that is where the ring stops being a queue.
- MpmcRing.MpmcQueue.Pop: requires the other threads at rest and that the mark of slot 255 is not stale.
- MpmcRing.MpmcQueue.PushUntilSuccess: requires the same; its loop body is a method of its own.
- MpmcRefinement.CodeIsFifo: holds for schedules without comparisons across laps and reads of a stale mark only; both are met in runs from the initial state, as `MpmcLap` and `MpmcSlot255` show.
- MpmcListGuarantees.ListIsQueue: holds for executions without a misled exchange only; `MpmcListLoss` is a run with one.
- MpmcListGuarantees.InvAlong: likewise.
- MpmcListGuarantees.EmptyAnswerIsTrue: likewise; `MpmcListLoss.ListLosesValue` shows an untrue answer after such an exchange.
- MpmcListOnPool.RunRefinesList: likewise, and so are MpmcListOnPool.NodesConserved and MpmcListOnPool.QueueOnPool; `MpmcListOnPool.CarefulIff` says which step of the pool makes one possible.
- MpmcListOnPool: a node's first word, which the pool uses as its link and the list as data, is kept in both machines, and each may find anything there after the other has written.
- Worker and time: 64-bit overflow of priority times time is not modelled, and a runner's `GetNext` is a queue of tasks that are ready.
- WorkerModule.Worker.SortNoLock: requires that no group is empty once there are two, which the source checks and aborts on; `WorkerCore.UnBindEmptiesIff` says when an unbind breaks it.
- WorkerModule.Worker.GetNextTask: a decision is one step of the object, and of the runs in WorkerCore, WorkerFairness and WorkerWaiting; binds that fall between its parts are in WorkerBinding. It leaves out the idle task and the waiting time that the same walk collects.
- WorkerCore.PreparedKeepsGroups: sort, balance and clearing together, as one step; WorkerBinding has them one by one. Unbinding beside a decision is not modelled.
- WorkerModule.Worker.BindGroup: requires that the father is found, as the source does without checking.
- WorkerFairness.FairShare: immediate tasks are excluded, because they charge the group that ran last; groups are never empty of tasks; among unequal priorities no group joins.
- Idle tasks, minimal wait times, stacking mode, runner-specific storage and the run loop of `Worker`.
- `Worker::Retain` and `Worker::RetainActiveAndUnschedulable`: both advance an iterator past an erased or moved node.
- `WorkerManager`: placement and balancing among workers.
- `TaskRunner::Clear`, `GetTopDelayTask` and null tasks.
- TaskRunnerModule.TaskRunner.PromoteDue: is one step, although the source takes the first due task before it takes its locks.
- Tasks that throw, futures and the return values of `ThreadPool::Enqueue`.
- Timer.AlwaysArmedOnce: a callback is dispatched strictly after its time; `is_running_` starts as false, which the source leaves uninitialised; each call reads the clock once; a timer whose task runner is gone is in none of these runs, only in Timer.NothingPostedWithoutRunner; a user task that starts its own timer again is a later call.
- Timer.RefinesIdeal: over the same runs.
- `OneShotTimer::FireNow`, which fires early by design.
- Base64.Encode: requires two bytes, because of the unsigned bound; lengths are not limited by `size_t`. The loop body and the part after the loop are methods of their own.
- Base64Decoding.Decode: requires a non-empty input of characters below 128, since the source indexes before the string and by a signed character otherwise.
- Logging, thread names, loopers, platform workers, time types and string views.
