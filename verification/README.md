# Snaplace: admission, CPU allocation and network resources

A Dafny model of three actors of the Snaplace serverless node, and proofs of what they promise.

**The admission controller** stands between the request source and the sandbox pool ("Pool"). It keeps one FIFO queue per Function, each Runnable or Blocked, a cached number of queued requests and of blocked Functions, a cached earliest deadline that may be too early, at most one dispatch attempt that waits for Pool's reply, and a semaphore of running slots. One iteration of its `select!` loop is one step of a state machine (`Admission.dfy`). The order of steps, the time at each step, Pool's replies and events, the store's answer for each arriving request, the outcome of channel sends and the hash-map order that breaks scheduling ties are arbitrary inputs of the steps. The `log` of a state records the arrivals and the fate of each request; no decision of the controller reads it (it supplies the number of a new request and a bound that `OutstandingFate` shows every outstanding attempt to meet). A request is identified by its position in the arrival order.

`Invariant.dfy` and `Preservation.dfy` hold one invariant over that machine and the proof that every step keeps it; `Guarantees.dfy`, `Resolution.dfy`, `Deadlines.dfy`, `Ordering.dfy`, `Delays.dfy`, `Capacity.dfy`, `Tightness.dfy`, `Wakeups.dfy` and `Overtaking.dfy` derive the promises over whole runs. `Effects.dfy` says what each kind of step does and leaves alone, and `Progress.dfy` when the controller stops, how long a slot is held and that queued work can move. `Controller.dfy` is the controller as the object it is, with mutable fields and sweep loops: each method is proved to compute the operation of the state machine that it stands for, and one loop iteration or slot release to be exactly one step. A valid controller carries, as ghost state, the run that led to its present state, so what is proved of all runs holds of the object.

**The CPU allocator** (`CpuSet.dfy`) gives each Worker the least loaded CPU; its list of CPUs is read by a parser of the "List format" in the FORMATS section of cpuset(7) (`CpuList.dfy`); `CpuFormat.dfy` says which texts it accepts and what it reads in them. **The network manager** (`Network.dfy`) serves a mailbox until the quit notice and then drains it.

## Main results

- Every request has exactly one fate, the statistics count the fates exactly, a fate never changes, and each has its cause (`ExactlyOneFate`, `FateIsFinal`, `ResolvedForCause`).
- Without wakeups, a request in a runnable queue is passed over at most n - 1 times, n being the unresolved requests no newer than it (`BoundedOvertaking`).
- The deadline bookkeeping holds all along a run if and only if each admitted arrival is due no earlier than what its Function still owns (`TimelyRunIff`). Then no expired request is ever sent to Pool and no request is refused because of expired ones (`NoStaleDispatch`, `NoFalseQueueFull`). A constant delay per Function is enough (`ConstantDelayIsOrderly`). In any run, orderly or not, `StaleAttemptIff` and `FalseRefusalRunIff` say exactly which attempts are stale and which arrivals get another answer than the unexpired requests call for.
- Queued plus outstanding requests never exceed a cap by more than one, and for all caps some run reaches that (`CapacityBound`, `CapacityIsTight`).
- The CPU counts agree with the Workers all along a run if and only if the live allocations fit the 16-bit counters (`ConsistentRunIff`); then the load is balanced up to ceil(n/m) (`LoadBound`).
- The CPU list parser accepts exactly the prints of its items and reads in them what they say (`AcceptedIff`, `RoundTrip`).
- A request holds a running slot exactly from the step that hands it to a Worker to the release of that slot, the controller has stopped exactly from the first stopping event on, and queued work can always move (`SlotHeldUntilRelease`, `HaltedIff`, `CanMove`).
- The object refines the machine (`Iterate`).

## Where the code and its documentation disagree

- The expiry sweep relies on deadlines that increase along each queue (controller.rs, lines 596-599). The delay is read from the store on every arrival, and a Function that is deregistered and registered again with a shorter delay (crates/snaplace/src/metadata/store/dash.rs, lines 140-178; only its live Workers, not its queued requests, prevent that) breaks this: `ShrinkingDelayDispatchesStale` is a run in which an expired request goes to Pool, `ShrinkingDelayRefusesFalsely` one in which a Function with room refuses a request. `TimelyRunIff` says exactly when the order holds, `StaleAttemptIff` exactly when an attempt is stale, and `FalseRefusalRunIff` exactly when an arrival's fate is wrong.
- A CPU range that ends at 65535 is read as no CPU, because the 16-bit successor of its end wraps (`RangeIsReadIff`).
- Text after a second dash in an item is ignored, so `1-2-3` is read as `1-2` (`ThreeNumbersAreRead`): every item with more than one dash is read, or refused, exactly as the text before its second dash (`SecondDashIsIgnored`, `ExtraDashes`).
- Numbers may carry a plus sign (`PlusIsRead`), which plain decimals do not. `AcceptedIff` says exactly which texts are accepted, and `FormatIff` exactly which of those are lists of the format: the ones with no plus sign and no item with two dashes.
- Occupant counts are 16-bit: an allocation when every CPU is at 65535 breaks the books, and no other does (`AllocateCpu`). `OverflowIsReachable` is a run that gets there over any set of CPUs.

Where 16-bit numbers overflow, the model wraps, as an optimised build does; a build with overflow checks aborts instead.

## Model

| member | source | states |
|---|---|---|
| `Preservation.RunInv` | crates/snaplace/src/admission/controller.rs:294-417 | in every state of every run, the order of each Function's requests, the cached counters, the fates, the permits and the timers are right |
| `Preservation.StepKeeps` | crates/snaplace/src/admission/controller.rs:307-415 | every branch of the loop keeps that invariant |
| `Preservation.ArriveKeeps` | crates/snaplace/src/admission/controller.rs:709-791 | an arrival keeps it on every path: unknown Function, either queue full, with or without a sweep, admitted |
| `Preservation.ExpireKeeps` | crates/snaplace/src/admission/controller.rs:618-657 | a sweep keeps it: the subtractions match what was removed and unblocked, and no Blocked queue is left empty |
| `Preservation.AttemptKeeps` | crates/snaplace/src/admission/controller.rs:484-564 | sending the picked head, giving the permit back, and the rollback of a failed send keep it |
| `Preservation.ReplyKeeps` | crates/snaplace/src/admission/controller.rs:851-897 | each reply of Pool keeps it, also the fatal failed forward |
| `Preservation.UnblockKeeps` | crates/snaplace/src/admission/controller.rs:1040-1112 | making any set of blocked Functions runnable keeps it when the count drops by their number |
| `Preservation.TickKeeps` | crates/snaplace/src/admission/controller.rs:1100-1112 | the fallback sweep keeps it |
| `Guarantees.ExactlyOneFate` | crates/snaplace/src/admission/controller.rs:709-914 | in every state of every run, the received requests split into pending, dispatched, failed and lost; the statistics count each class; received = dispatched + failed + queued + outstanding + lost, and at most one request is lost, only in a halted state |
| `Guarantees.FatesAreExact` | crates/snaplace/src/admission/controller.rs:910-914 | the same from the invariant alone |
| `Guarantees.FateIsFinal` | crates/snaplace/src/admission/controller.rs:910-914 | a request that is dispatched, failed or lost stays so in every later state; none is failed twice |
| `Resolution.ResolvedForCause` | crates/snaplace/src/admission/controller.rs:851-914 | in any run a pending request is dispatched, lost or failed only by the event that justifies it and with that event's reason: deadline failures only for queued requests past their deadline, rejections with Pool's reason; an answered attempt stays pending only after WouldBlock |
| `Guarantees.CountersAreExact` | crates/snaplace/src/admission/controller.rs:985-1000 | the queued count is the sum of all queue lengths, the blocked count is the number of Blocked queues, and no Blocked queue is empty |
| `Guarantees.FifoPerFunction` | crates/snaplace/src/admission/controller.rs:140-142 | the forwarded requests of a Function, then its outstanding one, then its queue are a subsequence of its arrivals in arrival order |
| `Guarantees.PickIsGlobalMinimum` | crates/snaplace/src/admission/controller.rs:476-488 | at every slot step of every run, the scan of the queues, swept if that was due, finds a Function exactly when they hold runnable work, and its head is the oldest of all requests in all runnable queues |
| `Guarantees.NeverStuck` | crates/snaplace/src/admission/controller.rs:303-305 | with requests queued, an attempt is outstanding, or a slot is awaited that is free or held by Workers, or every waiting Function is blocked and the fallback tick is set |
| `Guarantees.PermitsConserved` | crates/snaplace/src/admission/controller.rs:449-525 | free permits, the outstanding attempt's and those of Workers add up to the maximum concurrency; no slot is awaited while an attempt is outstanding; only a reply ends an attempt |
| `Guarantees.FallbackTiming` | crates/snaplace/src/admission/controller.rs:1006-1032 | the fallback sweep comes no sooner than a period after the blocked epoch began and is due within a period of each block |
| `Deadlines.ExpireTimely` | crates/snaplace/src/admission/controller.rs:594-657 | on sorted queues, a sweep that looks at heads only leaves nothing expired and a cache that covers every queued deadline |
| `Deadlines.AppendSortedIff` | crates/snaplace/src/admission/controller.rs:777-788 | appending keeps a Function's deadlines sorted exactly when the new one is not before any of them |
| `Deadlines.StepTimely` | crates/snaplace/src/admission/controller.rs:673-696 | a step with an arrival in order keeps queues sorted by deadline and the cache conservative |
| `Deadlines.AttemptIsFresh` | crates/snaplace/src/admission/controller.rs:476-525 | what one slot step sends to Pool has not expired |
| `Ordering.AdmittedTimelyIff` | crates/snaplace/src/admission/controller.rs:745-790 | an admitted arrival keeps the deadline bookkeeping exactly when it is due no earlier than what its Function owns |
| `Ordering.StepTimelyIff` | crates/snaplace/src/admission/controller.rs:307-415 | a step keeps the deadline bookkeeping exactly when it is no out-of-order admission |
| `Ordering.TimelyRunIff` | crates/snaplace/src/admission/controller.rs:596-599 | the bookkeeping holds in every state of a run exactly when each admitted arrival is in order |
| `Ordering.ConservativeCache` | crates/snaplace/src/admission/controller.rs:673-696 | in every state of an orderly run the timer is armed for `next_deadline`, which is no later than any queued deadline, and each Function's requests are sorted by deadline |
| `Ordering.NoStaleDispatch` | crates/snaplace/src/admission/controller.rs:476-525 | in an orderly run no request is sent to Pool at or after its deadline |
| `Ordering.NoFalseQueueFull` | crates/snaplace/src/admission/controller.rs:721-775 | in an orderly run every arrival is refused or admitted as the unexpired requests alone decide, for each reason both ways |
| `Delays.StepWithin` | crates/snaplace/src/admission/controller.rs:307-415 | after a step a Function owns only what it owned before and the arriving request |
| `Delays.ConstantDelayIsOrderly` | crates/snaplace/src/admission/controller.rs:745-752 | a run in which no Function's delay changes is orderly |
| `StaleDispatch.StaleAttemptIff` | crates/snaplace/src/admission/controller.rs:476-525 | in any run, what a slot step sends to Pool has expired exactly when no sweep was due although the head of its queue had expired |
| `StaleDispatch.ShrinkingDelayDispatchesStale` | crates/snaplace/src/admission/controller.rs:596-599 | a run with a shrinking delay that sends an expired request to Pool |
| `StaleDispatch.ShrinkingDelayRefusesFalsely` | crates/snaplace/src/admission/controller.rs:759-775 | a run with a shrinking delay and a fixed cap that refuses a request because of an expired one |
| `Effects.ArrivalStep` | crates/snaplace/src/admission/controller.rs:709-791 | an arrival sweeps exactly if the cached deadline has passed and a cap seems reached; an admitted one is the last of its queue, stamped now and due one delay later, and the cache moves no later than that; nothing else moves |
| `Effects.SlotStep` | crates/snaplace/src/admission/controller.rs:476-565 | a slot step sweeps exactly if the cached deadline has passed, then sends the picked head with the permit; without a pick or on a failed send the permit goes back and every request stays |
| `Effects.ReplyStep` | crates/snaplace/src/admission/controller.rs:851-897 | Dispatch hands request and permit to a Worker or halts, WouldBlock puts the request back in front, blocked for the reason given, Reject drops it; the cache, the tick and the permits move accordingly |
| `Effects.TimerStep` | crates/snaplace/src/admission/controller.rs:406-411 | when the timer fires every queue loses its longest expired prefix and the timer is armed for the earliest head; nothing else moves |
| `Effects.TimerFailsExpired` | crates/snaplace/src/admission/controller.rs:594-657 | in an orderly run each queued request past its deadline then fails for it, each other one stays, and the timer is armed for the earliest deadline left, or for none |
| `Effects.DroppedFails` | crates/snaplace/src/admission/controller.rs:648-654 | a queued request that a step drops without an answer from Pool has failed for its deadline |
| `Effects.TickUnblocksAll` | crates/snaplace/src/admission/controller.rs:413-414 | a fallback tick makes every Function runnable and moves no request, permit or statistic |
| `Effects.WakeupWakesIff` | crates/snaplace/src/admission/controller.rs:799-830 | a Pool event makes a blocked Function runnable exactly if it is an idle Worker of it, freed memory for a memory block, or a freed Worker cap of it for a cap block |
| `Effects.PoolGoneStep` | crates/snaplace/src/admission/controller.rs:385-401 | a lost Pool ends the attempt, returns its permit, counts one failure and stops the controller |
| `Effects.StopStep` | crates/snaplace/src/admission/controller.rs:308-331 | a quit notice or closed source stops the controller and moves nothing |
| `Effects.ReleaseStep` | crates/snaplace/src/admission/running_slot.rs:43-46 | a release returns the permit of a slot that still holds one, and does nothing otherwise |
| `Progress.HaltedIff` | crates/snaplace/src/admission/controller.rs:308-401 | the controller has stopped exactly from the first stopping event on, and then only slots are released |
| `Progress.SlotHeldUntilRelease` | crates/snaplace/src/admission/controller.rs:862-869 | a request holds a slot exactly from the step that hands it to a Worker to its release, and these and the attempt never exceed the maximum concurrency |
| `Progress.CanMove` | crates/snaplace/src/admission/controller.rs:307-415 | an armed timer that is due can fire, and with requests queued a reply, a slot, a release or a due fallback tick can come |
| `Capacity.ArrivalIsSweptDecision` | crates/snaplace/src/admission/controller.rs:721-790 | in any state, the conditional single sweep decides an arrival as one unconditional check for a due sweep would |
| `Capacity.FalseRefusalIff` | crates/snaplace/src/admission/controller.rs:721-790 | an arrival's fate differs from the one the unexpired requests decide exactly when expired requests that the sweep cannot reach fill the whole admission queue or the Function's |
| `Capacity.FalseRefusalRunIff` | crates/snaplace/src/admission/controller.rs:721-790 | the same for every arrival of every run |
| `Capacity.AdmissionDecision` | crates/snaplace/src/admission/controller.rs:721-790 | with sorted queues and a conservative cache, an arrival meets the fate decided by the numbers of unexpired requests |
| `Capacity.CapacityBound` | crates/snaplace/src/admission/controller.rs:729-789 | queued plus outstanding is at most the global cap plus one, per Function at most a fixed cap plus one, and only a WouldBlock requeue goes over a cap |
| `Tightness.CapacityIsTight` | crates/snaplace/src/admission/controller.rs:871-884 | for any positive caps some run ends, after a WouldBlock requeue, with one request more than the smaller cap queued |
| `Wakeups.EventsCommute` | crates/snaplace/src/admission/controller.rs:799-830 | any two Pool events commute |
| `Wakeups.EventsMoveNothing` | crates/snaplace/src/admission/controller.rs:793-798 | no sequence of Pool events moves a request, permit, timer or statistic |
| `Wakeups.LossyWakeupsAreHarmless` | crates/snaplace/src/admission/controller.rs:1084-1112 | any Pool events followed by one fallback sweep leave what the sweep alone leaves |
| `Wakeups.StepBlocked` | crates/snaplace/src/admission/controller.rs:1006-1112 | a step leaves a blocked Function blocked on the same request, or makes it runnable for a matching event, a fallback tick or the expiry of that request |
| `Wakeups.NoRetryWithoutCause` | crates/snaplace/src/admission/controller.rs:799-830 | between a WouldBlock reply and the next attempt for the Function one of those causes occurs |
| `Overtaking.StepLevel` | crates/snaplace/src/admission/controller.rs:476-565 | without wakeups, no step raises the lexicographic measure (unresolved older requests, those in runnable queues) of a waiting request, and each attempt lowers it, also across sweeps that unblock |
| `Overtaking.StepActive` | crates/snaplace/src/admission/controller.rs:618-671 | without wakeups, no step adds to the older queued requests that are not the head of a blocked queue, and each attempt that passes over a waiting request removes one |
| `Overtaking.BoundedOvertaking` | crates/snaplace/src/admission/controller.rs:659-671 | without wakeups, at most n - 1 attempts pass over a request in a runnable queue, n being the unresolved requests no newer than it |
| `Controller.RunningSlot.constructor` | crates/snaplace/src/admission/running_slot.rs:49-58 | a permit that left the semaphore is held by the slot; no permit is made or lost |
| `Controller.RunningSlot.Release` | crates/snaplace/src/admission/running_slot.rs:43-46 | releasing returns the permit once; a second release does nothing; it is a step of the controller's run |
| `Controller.AdmissionController.constructor` | crates/snaplace/src/admission/controller.rs:256-291 | a new controller is in the initial state, which satisfies the invariant |
| `Controller.AdmissionController.SetDeadlineTimerTo` | crates/snaplace/src/admission/controller.rs:581-592 | cache and timer are both set, and nothing else changes |
| `Controller.AdmissionController.UpdateDeadlineTimer` | crates/snaplace/src/admission/controller.rs:692-696 | the cache only moves earlier |
| `Controller.AdmissionController.FailAdmission` | crates/snaplace/src/admission/controller.rs:910-914 | one more failure, recorded as the fate of this request |
| `Controller.AdmissionController.Drain` | crates/snaplace/src/admission/controller.rs:626-629 | the popped requests are the longest expired prefix, and the rest is left in order |
| `Controller.AdmissionController.SweepOne` | crates/snaplace/src/admission/controller.rs:624-641 | one queue loses its expired prefix, is unblocked if that took its head, and lowers the running minimum |
| `Controller.AdmissionController.SweepQueues` | crates/snaplace/src/admission/controller.rs:619-642 | the loop over all queues, in any order, collects exactly the expired prefixes, the number of Functions unblocked and the earliest remaining head |
| `Controller.AdmissionController.ExpireQueuedRequests` | crates/snaplace/src/admission/controller.rs:618-657 | the in-place sweep computes the sweep of the machine; no subtraction underflows |
| `Controller.AdmissionController.PickNextFunction` | crates/snaplace/src/admission/controller.rs:665-671 | a runnable Function with the oldest head, or none if none is runnable |
| `Controller.AdmissionController.Record` | crates/snaplace/src/admission/controller.rs:294-417 | a step from the end of a run makes a longer run, and the controller valid again |
| `Controller.AdmissionController.HandleNewRequest` | crates/snaplace/src/admission/controller.rs:709-791 | the handler computes the arrival of the machine |
| `Controller.AdmissionController.HandleAcquiredSlot` | crates/snaplace/src/admission/controller.rs:476-565 | the handler sweeps if due, picks, and computes the attempt of the machine; it fails exactly when the send fails |
| `Controller.AdmissionController.Forward` | crates/snaplace/src/admission/controller.rs:862-869 | a forwarded request takes its permit along as a valid slot; a failed forward drops both and halts |
| `Controller.AdmissionController.HandleDispatchReply` | crates/snaplace/src/admission/controller.rs:851-897 | the handler computes the reply of the machine; it fails exactly on a failed forward |
| `Controller.AdmissionController.MarkFunctionBlocked` | crates/snaplace/src/admission/controller.rs:1006-1032 | one Function becomes Blocked; the fallback interval is reset exactly when the blocked count becomes one |
| `Controller.AdmissionController.MarkFunctionRunnable` | crates/snaplace/src/admission/controller.rs:1040-1054 | the Function becomes runnable and the count drops, only if it was blocked; unknown Functions are ignored |
| `Controller.AdmissionController.UnblockResourceBlockedFunctions` | crates/snaplace/src/admission/controller.rs:1062-1082 | the loop wakes exactly the Functions blocked on memory |
| `Controller.AdmissionController.UnblockAllFunctions` | crates/snaplace/src/admission/controller.rs:1100-1112 | every blocked Function becomes runnable, with the early return on a zero count |
| `Controller.AdmissionController.HandlePoolEvent` | crates/snaplace/src/admission/controller.rs:799-830 | each event wakes exactly the Functions whose block it clears |
| `Controller.AdmissionController.LosePool` | crates/snaplace/src/admission/controller.rs:385-401 | the outstanding request is failed once, its permit returns, and the controller stops |
| `Controller.AdmissionController.Iterate` | crates/snaplace/src/admission/controller.rs:294-417 | one iteration of the loop is one step of the machine, added to the run that led to the present state |
| `CpuSet.AllocKeepsIff` | crates/snaplace/src/sbpool/cpuset.rs:85-98 | after an allocation each CPU's count is still the number of its Workers, exactly when the counter had room |
| `CpuSet.ReleaseKeeps` | crates/snaplace/src/sbpool/cpuset.rs:114-128 | a release keeps the counts right and never underflows |
| `CpuSet.ReleaseUndoesAlloc` | crates/snaplace/src/sbpool/cpuset.rs:85-128 | releasing what was just allocated restores the pool |
| `CpuSet.AllReleased` | crates/snaplace/src/sbpool/cpuset.rs:243-251 | when all Workers have released, all counts are zero |
| `CpuSet.RunConsistent` | crates/snaplace/src/sbpool/cpuset.rs:85-128 | in every run with no more live allocations than the counters can hold, counts and the Worker map agree |
| `CpuSet.ConsistentRunIff` | crates/snaplace/src/sbpool/cpuset.rs:85-128 | counts and the Worker map agree in every state of a run exactly when the live allocations never exceed 65535 per CPU in all |
| `CpuSet.OverflowIsReachable` | crates/snaplace/src/sbpool/cpuset.rs:86-88 | from any idle pool, allocating to one Worker more than that is a run whose last state has wrong counts |
| `CpuSet.LoadBound` | crates/snaplace/src/sbpool/cpuset.rs:85-128 | if at most n allocations are ever live over m CPUs, no CPU ever has more than ceil(n/m) Workers |
| `CpuSet.NewManager` | crates/snaplace/src/sbpool/cpuset.rs:38-70 | the CPUs of the configured list or, if it names none, of the allowed list, each once and idle; an error in the list that decides is returned |
| `CpuSet.CpuSetManager.constructor` | crates/snaplace/src/sbpool/cpuset.rs:50-69 | the CPUs of the list, each once and idle |
| `CpuSet.CpuSetManager.Peek` | crates/snaplace/src/sbpool/cpuset.rs:86 | a CPU with the fewest occupants |
| `CpuSet.CpuSetManager.AllocateCpu` | crates/snaplace/src/sbpool/cpuset.rs:85-98 | the Worker gets, and is recorded with, a least loaded CPU; the manager stays valid exactly when some counter had room |
| `CpuSet.CpuSetManager.ReleaseCpu` | crates/snaplace/src/sbpool/cpuset.rs:114-128 | the Worker's CPU is released and the manager stays valid; an unknown Worker is an error that changes nothing |
| `CpuList.ParseCpuset` | crates/snaplace/src/sbpool/cpuset.rs:160-200 | the loop with its early return computes the item-by-item meaning of the list |
| `CpuList.FirstError` | crates/snaplace/src/sbpool/cpuset.rs:171-194 | a list is refused exactly when an item is, with the error of the first such item |
| `CpuList.ParseInRange` | crates/snaplace/src/sbpool/cpuset.rs:160-200 | every number read fits 16 bits |
| `CpuList.ParseAlone` | crates/snaplace/src/sbpool/cpuset.rs:164-176 | an item without a dash is read as its trimmed number, or as nothing if it is blank |
| `CpuList.ParsePair` | crates/snaplace/src/sbpool/cpuset.rs:169-196 | an item with a dash is read by its first two trimmed parts, whatever follows |
| `CpuList.NumberErrors` | crates/snaplace/src/sbpool/cpuset.rs:170-175 | an item without a dash that is no number is named, trimmed, in the error |
| `CpuList.RangeErrors` | crates/snaplace/src/sbpool/cpuset.rs:176-196 | of a range, the first part that is no number is named in the error; numbers in the wrong order are both named, start first |
| `CpuList.LargestNumber` | crates/snaplace/src/sbpool/cpuset.rs:177-188 | 65535 is a number and 65536 is not |
| `CpuList.BlanksAreSkipped` | crates/snaplace/src/sbpool/cpuset.rs:169 | spaces and tabs around the numbers of a range are skipped |
| `CpuList.SecondDashIsIgnored` | crates/snaplace/src/sbpool/cpuset.rs:169-196 | text after a second dash changes neither the CPUs read nor the error |
| `CpuList.ExtraDashes` | crates/snaplace/src/sbpool/cpuset.rs:169-196 | every item with two dashes or more is read exactly as the text before its second dash |
| `CpuList.ThreeNumbersAreRead` | crates/snaplace/src/sbpool/cpuset.rs:169-196 | `1-2-3` is read as CPUs 1 and 2 |
| `CpuFormat.NumberIff` | crates/snaplace/src/sbpool/cpuset.rs:171-188 | a text is a number exactly when it is digits, perhaps behind a plus sign, with a value of 16 bits |
| `CpuFormat.ReadItem` | crates/snaplace/src/sbpool/cpuset.rs:164-196 | what a written item is read as, with signs, leading zeros, blanks anywhere around its numbers and text after a second dash |
| `CpuFormat.FindItem` | crates/snaplace/src/sbpool/cpuset.rs:164-196 | whatever is accepted as an item is the text of such an item |
| `CpuFormat.ReadBack` | crates/snaplace/src/sbpool/cpuset.rs:160-200 | parsing a printed list returns what each item is read as, in order |
| `CpuFormat.AcceptedIff` | crates/snaplace/src/sbpool/cpuset.rs:160-200 | a text is accepted exactly when it is the print of such items, and they determine what is read |
| `CpuFormat.FormatIff` | crates/snaplace/src/sbpool/cpuset.rs:160-200 | an accepted text is a list of the format exactly when no piece between commas has a plus sign or two dashes |
| `CpuFormat.PlusIsRead` | crates/snaplace/src/sbpool/cpuset.rs:171-176 | `+1` is read as CPU 1 |
| `CpuFormat.RangeIsReadIff` | crates/snaplace/src/sbpool/cpuset.rs:195 | a range is read in full exactly when it ends below 65535; one that ends there is read as nothing |
| `CpuFormat.RoundTrip` | crates/snaplace/src/sbpool/cpuset.rs:160-200 | parsing a printed list of numbers, ranges that end below 65535, blanks and empty items returns their expansion in order |
| `CpuFormat.SortedRoundTrip` | crates/snaplace/src/sbpool/cpuset.rs:160-200 | for ascending disjoint items the parsed CPUs are strictly increasing |
| `Network.HandleConserves` | crates/snaplace/src/network/manager.rs:76-130 | handling one message, in either phase, keeps live + returned = delivered + stuck |
| `Network.RepliesAndAllocations` | crates/snaplace/src/network/manager.rs:138-170 | each allocation message gets exactly one reply attempt, and a draining manager allocates and delivers nothing |
| `Network.Ledger` | crates/snaplace/src/network/manager.rs:101-130 | what was delivered is what the served messages grant to callers that listen, what came back is what they return, and what is stuck is what fails to be deallocated |
| `Network.NothingStuck` | crates/snaplace/src/network/manager.rs:120-128 | nothing is left behind when deallocations succeed |
| `Network.QuitPathConserves` | crates/snaplace/src/network/manager.rs:59-193 | on the quit path, whenever the notice comes, every allocation message is answered once, none is granted after the notice, and when the provider is down the live resources are those granted before the notice to callers that listened, less those the messages return, plus failed deallocations |
| `Network.NetworkManager.AllocAndReply` | crates/snaplace/src/network/manager.rs:101-130 | allocates and replies once; a listening caller gets the resource, and one for a caller that is gone is deallocated |
| `Network.NetworkManager.Serve` | crates/snaplace/src/network/manager.rs:76-90 | one message in the running phase |
| `Network.NetworkManager.Shutdown` | crates/snaplace/src/network/manager.rs:138-193 | drains the mailbox, refusing allocations and taking resources back, then shuts the provider down |
| `Network.NetworkManager.Run` | crates/snaplace/src/network/manager.rs:59-96 | ends with the quit path, or with an error and no provider shutdown when all senders are gone first |

## Left out

- Building the failure response and the best-effort send to the response sink: the model records a failure as the fate of the request; delivery is not promised.
- Tokio: the semaphore is a permit counter (a permit granted to a pending wait still counts as free until the slot branch runs), a timer is its due time, the next due time after a fallback tick is any instant between one period after the previous due time and one period after the tick, and a closed semaphore is not modelled.
- Slot releases by Workers that fall inside the handling of one event are modelled between events.
- Pool, Workers, placement, keep-alive, the metadata store and the request source: arbitrary replies, events, slot releases and lookups. The dispatch mode and the worker and CPU payload of a positive reply are not carried.
- `LoadBound`: assumes no more live allocations than the 16-bit counters of all CPUs can hold; past that the counters wrap (`ConsistentRunIff`, `OverflowIsReachable`).
- `AllocateCpu`: a reused Worker id is excluded, because the code aborts on it.
- `BoundedOvertaking`: stated for a request whose Function stays runnable; while a Function is blocked its requests are skipped by design.
- `QuitPathConserves`: assumes that callers return only resources they were given before, each once, which the source enforces by moving them.
- The store is asked twice for an arriving request (controller.rs, lines 714 and 745) and the code aborts if the Function is deregistered in between; the model asks once.
- The heap inside the CPU allocator: a map from CPU to count with an arbitrary choice among minima.
- Reading the operating system's allowed-CPU list: its text is an input of `NewManager`.
- Statistics and queue counts are unbounded numbers; logging, metrics, capacity hints of collections and the tick that logs while draining are not modelled.
- gRPC, containerd and Firecracker clients, snapshots, subnet pools and configuration parsing are not part of this model.
