# Protocols of the APUE exercises, in Dafny

This project models the parts of the repository that are protocols or step-by-step machines,
and proves what they promise over whole runs.

| modules | model of |
|---|---|
| `Common` | notions shared below |
| `PoolMachine`, `PoolInvariant`, `PoolWorkerSteps`, `PoolClientSteps`, `PoolSafety`, `PoolProgress`, `PoolRequests`, `PoolWakeup`, `TaskTable` | the thread pool, `thread/thread_pool.c` |
| `Slots`, `TimerSpec`, `TimerDeadlines`, `TimerTheorems`, `TimerBoard`, `TimerRace`, `TimerHarm`, `TimerRequests`, `TimerRuns`, `TimerWait`, `AnyTimer` | the countdown timers, `signal/anytimer.c` |
| `BucketTable`, `TokenBuckets`, `BucketRaces`, `SlowCat` | the token buckets and their client, `signal/mytbf.c`, `signal/slow_cat.c` |
| `TokenCat` | the throttled copy, `signal/token.c` |
| `CopyPipes`, `SelectCopy` | the multiplexed copy, `adio/select.c` |
| `Decimal`, `FileCounter` | the locked file counter, `adio/flock.c` |
| `HttpBody` | the header splitter, `socket/http_client.c` |
| `SignalWait` | the two ways to wait for a signal, `signal/suspend1.c`, `signal/suspend.c` |

Concurrent programs are transition systems: one step for each lock operation, system call, or
load and store of a shared variable, taken in any order by any number of threads, with alarms
between any two.  Routines that run loops over a table are methods on arrays, proved against the
functions the lemmas are about.  Extra state that only records history (tickets, ledgers, logs,
counters of ticks) never enables or disables a step.

## What comes out

* **Thread pool.** Every task passed to `tp_add_task` is called exactly once with the argument passed
  with it; waiting is sound even when the slot has been reused.  The pool never deadlocks on its locks.  Without any
  fairness assumption every new call and every spurious wake-up buys a bounded number of steps, and
  where a pool of at least two workers comes to rest everything is done.  With one worker it is not:
  the broadcast is sent without `mtx`, and can fall between the worker's empty scan and its sleep.
  "Never strands a task" holds if and only if there are two workers or more.
* **Timers.** Countdowns keep absolute deadlines at every point of a pass over the table, also when
  callbacks add jobs and cancel others in the middle of it.  The jobs are exactly the additions that met
  a free slot, the cancelled ones exactly those that a cancellation met.  A job that a callback puts into a slot
  after its own fires one tick earlier than the same job put before it.  A tick inside `at_add_job`
  can have a live job overwritten, which is then lost: over whole runs every job is accounted for if
  and only if that never happens.  A callback can do this if and only if on some table it leaves, in a
  slot it found empty, a job that the running pass does not see off at once.  `at_wait` sleeps on after
  its job is gone if and only if a tick takes the job away between the test and the `pause`.
* **Token buckets.** The ledger is exact, also at the granularity of loads and stores, less the
  credits of ticks that fall between a load and its store.  `MIN` evaluates its argument twice, so a
  fetch can return more than it was asked for; it does exactly when the count has grown past the
  request between the two evaluations.  For `slow_cat` this means a `read` of 1030 bytes into a buffer
  of 1024; the exact condition is the same.  A fetch pauses at most once, and on a bucket that has
  tokens if and only if a tick fell between its test and its `pause`.
* **Copies.** The throttled copy is exact and rate-bounded in every window.  The multiplexed copy is
  faithful and ends; it needs whole writes, since the code resends from the start of the buffer, and a
  series of writes is correct for every content if and only if one of them takes everything.  A copy
  ends early only through an exception that `select` reported.
* **Counter.** The file ends with the canonical numeral of `v + n`; the unlock leaves byte 0 locked
  until the close, and the new numeral is never shorter than the old one.  Every run is finite, and every
  one that cannot be extended ends like this.
* **HTTP.** The output is characterised for every input, down to the response whose body is one line
  feed and of which nothing arrives.  The client drops line feeds that follow
  CR, LF, CR in one run of CR and LF bytes, so the body arrives intact if and only if it has none.
* **Signals.** With `sigsuspend` every handled signal releases a line.  With unblock and `pause` this
  holds if and only if SIGINT arrives only while `pause` is waiting and its handler is not running.  Both
  end with all lines printed and the mask they began with.

## Model

| member | source | states |
|---|---|---|
| `PoolClientSteps.ReachableInv` | thread/thread_pool.c:27-198 | the whole invariant holds in every state of every interleaving of any number of workers and clients |
| `PoolInvariant.NoNullTask` | thread/thread_pool.c:44-53 | a worker that has emptied a slot holds a task, so the early return with `mtx` held is unreachable |
| `PoolSafety.ExactlyOnce` | thread/thread_pool.c:42-61 | stored tasks are partitioned into pending, running and done; none is called twice; every call has the stored task and argument; no two workers share a slot |
| `PoolSafety.WaitSafety` | thread/thread_pool.c:190-198 | when `tp_wait_task(id)` gets `waits[id]`, every task ever put into that slot has completed |
| `PoolSafety.MainDone` | thread/thread_pool.c:250-262 | once every stored task has been waited for, nothing is pending or running and the calls made are a permutation of what was stored |
| `PoolRequests.RequestsAreKept` | thread/thread_pool.c:150-187 | over every run the pairs of task and argument passed to `tp_add_task` are, as a multiset, those stored and those of calls still before their store; only a process that exited has lost one |
| `PoolRequests.EveryRequestServed` | thread/thread_pool.c:250-262 | once everything has been waited for and no call is in progress, the calls made by workers are exactly the pairs passed to `tp_add_task`, each once |
| `PoolRequests.RestHasServedAll` | thread/thread_pool.c:63-187 | the same wherever a pool of two workers or more comes to rest |
| `PoolRequests.AddReturnsStored` | thread/thread_pool.c:150-183 | a call of `tp_add_task` that returns has stored the task and the argument it was called with |
| `PoolRequests.WaitReturnsDone` | thread/thread_pool.c:190-198 | a call of `tp_wait_task` that returns finds the task it was called for executed |
| `PoolSafety.EveryTicketOnce` | thread/thread_pool.c:158-171 | calls that carry each ticket once are, as task and argument pairs, exactly the submissions |
| `PoolSafety.TableOnlyUnderLock` | thread/thread_pool.c:44-50 | the task table changes only in a step of the thread that holds `task_mtx` |
| `PoolSafety.ExitsOnlyWhenFull` | thread/thread_pool.c:159-187 | over every run that ends in "too much tasks": the exiting client found all 1024 slots filled at one moment, holding `task_mtx`, and after that only unlocked and exited; nothing is claimed of the table at the exit itself |
| `PoolSafety.HistoryGrows` | thread/thread_pool.c:42-61 | what is submitted, called, done or waited for stays so in every later state of every run |
| `PoolProgress.NoLockDeadlock` | thread/thread_pool.c:68-92 | where no thread can step, both mutexes are free, all workers sleep, and an unreturned client waits for a pending task |
| `PoolProgress.LocksAreGranted` | thread/thread_pool.c:29-68 | in every reachable state in which a thread wants a lock, some thread can step |
| `PoolProgress.SubmitterWaitsFor` | thread/thread_pool.c:158-171 | a submitter holding `task_mtx` waits only for a running task or a passing waiter, never for a pending slot |
| `PoolProgress.StuckIsComplete` | thread/thread_pool.c:63-94 | with two workers or more, a pool that cannot step has returned from every call and finished every task |
| `PoolProgress.WorkerStepDecreases` | thread/thread_pool.c:63-94 | every worker step lowers the bound on the steps the pool can take by itself |
| `PoolProgress.ClientStepDecreases` | thread/thread_pool.c:150-198 | every client step lowers it too, a broadcast paying for the passes it causes |
| `PoolProgress.PoolProgresses` | thread/thread_pool.c:63-198 | from every reachable state the length of any run is at most the measure plus a fixed allowance for each new call and each spurious wake-up in it; where a pool of two workers or more comes to rest, the process has exited or everything is done |
| `PoolWakeup.NoLostWakeup` | thread/thread_pool.c:77-88 | with two workers or more, while a task is pending after its broadcast at most one worker sleeps un-notified and some worker is awake |
| `PoolWakeup.NeverStrandsIff` | thread/thread_pool.c:150-182 | a pool of `n` workers never strands a task if and only if `n >= 2` |
| `PoolWakeup.StrandedState` | thread/thread_pool.c:77-88 | a run with one worker (or none) that ends with the task pending, announced, and nobody able to step |
| `TaskTable.Table.Find` | thread/thread_pool.c:30-39 | the scan returns the first filled slot, or -1 when there is none |
| `TaskTable.Table.Take` | thread/thread_pool.c:46-49 | hands over the slot's task and argument and clears both |
| `TaskTable.Table.Put` | thread/thread_pool.c:159-183 | stores task and argument in the first empty slot and nowhere else, or changes nothing when the table is full |
| `TaskTable.ScanFinds` | thread/thread_pool.c:27-40 | the interleaved scan of a worker finds what the loop finds |
| `TimerTheorems.EveryJobOnTime` | signal/anytimer.c:24-42 | over every run, with callbacks that add and cancel: each job is live, fired or cancelled; it fires at most once, on the tick it is due; none is overdue; a job with no positive delay never fires |
| `TimerRuns.OnTimeIffNoOverwrite` | signal/anytimer.c:24-83 | over every run in which ticks interrupt additions anywhere: each job is live, fired or cancelled if and only if no store hit a live job, and then every job is on time, counted from its store |
| `TimerRuns.InterruptedOnTime` | signal/anytimer.c:24-83 | with callbacks that add nothing every job is on time, however the additions are interrupted |
| `TimerRuns.InterruptedFiresAfterSecTicks` | signal/anytimer.c:24-73 | where no store hits a live job: a job asked for with `sec >= 1` has fired after exactly `sec` ticks from its store and not before, unless cancelled, once, with the function and argument asked for |
| `TimerRuns.InterruptedCancelIsFinal` | signal/anytimer.c:76-83 | a job cancelled between interrupted additions is cancelled for good and never fires |
| `TimerRuns.AdditionEnds` | signal/anytimer.c:54-74 | an interrupted addition that returns has stored its job or has searched the whole table |
| `TimerHarm.UninterruptedAdd` | signal/anytimer.c:54-74 | the steps of an addition that no tick interrupts amount to the atomic addition, answer included |
| `TimerTheorems.FiresAfterSecTicks` | signal/anytimer.c:54-74 | a job added with `sec >= 1` has fired after exactly `sec` later ticks and not before, unless cancelled |
| `TimerTheorems.CallbackJobsOnTime` | signal/anytimer.c:24-73 | every job added during a tick was asked for by the callback of a job firing in it and got another slot; unless cancelled it has fired after exactly `sec` later ticks when its slot precedes the firing one, and after `sec - 1` when it follows, once, on that tick, with its function and argument |
| `TimerRequests.RunIsServed` | signal/anytimer.c:24-83 | over every run the jobs are, in order and with delay, function and argument, exactly the additions that met a free slot, by the main flow and by callbacks; the cancelled jobs are exactly those a cancellation met; a job is freed twice exactly if a callback cancels its own |
| `TimerRequests.CancelIsFinal` | signal/anytimer.c:37-83 | the job that a callback's cancellation finds in its slot is cancelled, not live and not fired in every later state |
| `TimerRequests.MainCancelIsFinal` | signal/anytimer.c:76-83 | the same for a cancellation by the main flow |
| `TimerDeadlines.OpsKeepInv` | signal/anytimer.c:37 | a callback's additions and cancellations keep the firing slot and every deadline |
| `TimerDeadlines.ScanKeepsInv` | signal/anytimer.c:28-41 | the rest of the pass keeps countdowns and deadlines together, from any slot on |
| `TimerBoard.TableRefinesBoard` | signal/anytimer.c:24-83 | with callbacks that leave the table alone, the table behaves as a board of absolute deadlines, firing by firing |
| `TimerBoard.TickRefines` | signal/anytimer.c:24-42 | one tick fires and removes exactly the entries due on it, in slot order |
| `TimerRace.StoreIsSafe` | signal/anytimer.c:63-73 | however ticks fall into `at_add_job`, the slot it stores into is empty if their callbacks add nothing |
| `TimerRace.SafeIffNothingAdded` | signal/anytimer.c:63-73 | for callbacks that cancel nothing: whatever the table, the interleaving and the job added, the store never hits a live job, if and only if no callback adds a job |
| `TimerRace.HarmlessIffNothingAdded` | signal/anytimer.c:24-73 | the same on the tables that runs from the empty one reach, for every list of additions that one job's callback makes |
| `TimerRace.StoreCanOverwrite` | signal/anytimer.c:63-73 | with a job due in slot 1 and slot 0 free, a tick between search and store leaves the first job its callback adds in the slot about to be overwritten |
| `TimerRace.GapIsReachable` | signal/anytimer.c:54-83 | two additions and a cancellation lead to such a table |
| `TimerRace.CancellingUndoes` | signal/anytimer.c:35-40 | a callback that cancels the job it has added leaves that slot empty |
| `TimerHarm.HarmlessIff` | signal/anytimer.c:24-83 | one job's callback, adding and cancelling as it likes, never has an interrupted `at_add_job` overwrite a live job in any run, if and only if on no table it leaves in a slot it found empty a job that the same pass does not fire |
| `Slots.FreePos` | signal/anytimer.c:44-52 | the first empty slot, or -1 when none is left; `get_pos` of the buckets is the same search |
| `AnyTimer.Timer.constructor` | signal/anytimer.c:13 | the table starts empty |
| `AnyTimer.Timer.GetFreePos` | signal/anytimer.c:44-52 | returns the first empty slot, or -1 |
| `AnyTimer.Timer.AddJob` | signal/anytimer.c:63-73 | fills the first empty slot, or changes nothing when there is none |
| `AnyTimer.Timer.CancelJob` | signal/anytimer.c:76-83 | empties the slot, or changes nothing when it is empty |
| `AnyTimer.Timer.Callback` | signal/anytimer.c:37 | performs the callback's operations in order on the array, as the function whose effect `TimerRequests.RunIsServed` states |
| `AnyTimer.Timer.HandleSlot` | signal/anytimer.c:30-40 | one slot's turn: count down, and at zero call back and release |
| `AnyTimer.Timer.Handle` | signal/anytimer.c:24-42 | the in-place pass is the tick the theorems are about |
| `AnyTimer.Timer.Wait` | signal/anytimer.c:86-90 | with any number of ticks before each test and between each test and its pause: returns with the first test after the tick that empties the slot for good; its last pause was begun in vain if and only if that tick fell between the last test and that pause |
| `TimerWait.JobLeaves` | signal/anytimer.c:24-42 | with callbacks that may cancel other jobs, a job with `sec >= 1` left leaves its slot for good within `sec` ticks; from then on it has fired, on exactly the `sec`-th tick, or been cancelled; with callbacks that do nothing it has fired |
| `TimerWait.PausesInVainIff` | signal/anytimer.c:86-90 | with ticks anywhere and callbacks that add nothing: at the return exactly one pause was begun with the job already gone if a tick took it away between test and pause, none otherwise |
| `TimerWait.WaitSleepsOn` | signal/anytimer.c:88-89 | a run that ends paused with the slot empty and the job fired, unable to go on without a further tick |
| `BucketTable.LedgerHolds` | signal/mytbf.c:25-113 | over every sequence of operations each live bucket satisfies token + fetched + clipped = cps × ticks + returned and sits in the slot it names; hence each operation has its effect on the given id and on no other: a fetch takes all asked for or all there is, a return leaves at most `burst` and clips exactly the excess, a destroy frees the id, a tick credits all |
| `BucketTable.OwnLedger` | signal/mytbf.c:70-113 | over every sequence of operations a live bucket was created by one `mytbf_init`, keeps the rate and the limit given there, and balances with that rate, the ticks since and the amounts returned to it since |
| `BucketTable.CreateReturns` | signal/mytbf.c:70-88 | `mytbf_init` returns the id of a new empty bucket with the given rate and limit and changes no other, or -1 exactly when the table is full |
| `BucketTable.NeverOverdrawn` | signal/mytbf.c:90-106 | with sensible parameters counts stay non-negative and fetches are covered by credits and returns |
| `TokenBuckets.Buckets.Handle` | signal/mytbf.c:25-32 | credits every live bucket once and no other |
| `TokenBuckets.Buckets.GetPos` | signal/mytbf.c:62-68 | returns the first free id, or -1 |
| `TokenBuckets.Buckets.Init` | signal/mytbf.c:70-88 | a new empty bucket with the given rate and limit under the first free id, or -1 and no change exactly when there is none |
| `TokenBuckets.Buckets.ReturnToken` | signal/mytbf.c:90-95 | adds the tokens and cuts the count to `burst` |
| `TokenBuckets.Buckets.FetchToken` | signal/mytbf.c:97-106 | does not wait for a filled bucket; waits for an empty one through the ticks between test and pause and the one that ends the pause; then takes between 1 and the requested number of tokens |
| `TokenBuckets.Buckets.Destroy` | signal/mytbf.c:108-113 | frees exactly the given id |
| `BucketRaces.BucketSafe` | signal/mytbf.c:25-106 | with ticks between any two accesses: the count is never negative, fetches never exceed cps × ticks plus returns, and the ledger is exact less the credits of ticks between a load and the store based on it (line 92; line 104; line 93 from the second load to its store, or from the comparison to the store of `burst`) |
| `BucketRaces.AtomicLedgerIff` | signal/mytbf.c:90-106 | wherever no such window is open, the atomic ledger holds if and only if no tick of the schedule fell into one of these four windows, or the rate is zero |
| `BucketRaces.PausesOnCreditIff` | signal/mytbf.c:99-100 | the pause begins on a bucket that has tokens if and only if a tick fell between the test and the call |
| `BucketRaces.PausesOnce` | signal/mytbf.c:99-101 | with a positive rate a fetch pauses at most once |
| `BucketRaces.CanPauseOnCredit` | signal/mytbf.c:99-100 | a run that pauses on a bucket of 10 tokens |
| `BucketRaces.FetchReturns` | signal/mytbf.c:58-106 | a fetch returns at least one token; it returns no more than asked exactly when the count did not grow past the request between the two evaluations in `MIN` |
| `BucketRaces.FetchCanExceed` | signal/mytbf.c:103 | a run in which a fetch of 15 returns 20 |
| `BucketRaces.CreditCanBeLost` | signal/mytbf.c:104 | a run in which a tick's credit is overwritten |
| `BucketRaces.UninterruptedReturn` | signal/mytbf.c:90-95 | without interruption the accesses of a return amount to the atomic return |
| `BucketRaces.UninterruptedFetch` | signal/mytbf.c:97-106 | without interruption the accesses of a fetch amount to the atomic fetch |
| `BucketRaces.UninterruptedWait` | signal/mytbf.c:97-106 | a fetch from an empty bucket with one tick, in its pause, amounts to that tick and the atomic fetch |
| `BucketRaces.ReturnsAreBooked` | signal/mytbf.c:90-95 | over every run what was given back is what callers passed in, but for the return in progress |
| `BucketRaces.FetchIsOfAsked` | signal/mytbf.c:97-106 | a fetch stays, until it returns, a fetch of the amount passed in |
| `SlowCat.Throttled` | signal/slow_cat.c:39-64 | bytes read never exceed CPS times the ticks; read, forfeited, held, stored and clipped tokens add up to the credits that were not lost |
| `SlowCat.ExitsIff` | signal/slow_cat.c:47-61 | the program has exited if and only if some read found the end of the file or failed; EINTR is neither |
| `SlowCat.KeepsGoing` | signal/slow_cat.c:39-64 | until then the main flow can go on unless it is paused |
| `SlowCat.ReadFits` | signal/slow_cat.c:42-47 | the `read` stays within `buf` if and only if the fetch saw a buffer's worth at once, or the ticks before its second evaluation did not take the count past that |
| `SlowCat.ReadCanOverrun` | signal/slow_cat.c:42-47 | a run that reaches a `read` of 1030 bytes into the buffer of 1024 |
| `TokenCat.WindowedRate` | signal/token.c:12-49 | between any two points reads are at most the ticks plus TOKEN_MAX and bytes at most CPS times that; the unsigned count stays in range |
| `TokenCat.EveryTickAccounted` | signal/token.c:12-49 | every tick has paid for a read, is unspent, was refused by the full count, or was erased by `token--` |
| `TokenCat.CopyIsExact` | signal/token.c:36-73 | for every schedule the output is a prefix of the file, and the whole file on a normal exit |
| `TokenCat.RunBounded` | signal/token.c:36-74 | any run has at most 16 steps for each byte, and 5, and a fixed number for each alarm, interrupted call and empty write |
| `TokenCat.RestsOnlyPaused` | signal/token.c:36-74 | wherever only an alarm can happen, the program has exited or is paused |
| `TokenCat.AlarmLeadsToRead` | signal/token.c:12-40 | an alarm ends a pause and the next step leads to a read |
| `TokenCat.PausesWithTokenIff` | signal/token.c:37-38 | a pause begins with tokens to spend if and only if an alarm fell between the test and the call |
| `TokenCat.EndOfFileExits` | signal/token.c:40-54 | a read that finds the end of the file is the last one and leads to a normal exit |
| `TokenCat.ExitsIff` | signal/token.c:42-73 | the program exits with an error if and only if a call failed otherwise than by EINTR, and normally only after the end of the file was read |
| `CopyPipes.PushKeepsFaithful` | adio/select.c:120-172 | with whole writes, written plus unwritten buffer stays the consumed prefix of the source |
| `CopyPipes.FaithfulIsPrefix` | adio/select.c:123-171 | a destination is always a prefix of its source, and equals it at EOF |
| `CopyPipes.ErrIff` | adio/select.c:126-155 | a push leaves a pipe in error exactly if it was, or its registered descriptor is reported with an exception |
| `CopyPipes.OnlyReportsMove` | adio/select.c:132-161 | a pipe that is not reported is left alone |
| `CopyPipes.PushAllProgress` | adio/select.c:64-174 | a push whose `select` reports a registered descriptor lowers the total work and keeps every copy faithful |
| `CopyPipes.LiveIsRegistered` | adio/select.c:76-99 | something is registered exactly when some pipe is live |
| `CopyPipes.WholeWritesIff` | adio/select.c:163-167 | writes that add up to the buffer copy every content if and only if one of them takes it all at once |
| `CopyPipes.WritesSend` | adio/select.c:163-167 | a series of short writes sends the head of the buffer again each time, and goes back to reading when the counts add up |
| `CopyPipes.OvershootIsFinal` | adio/select.c:163-167 | once the counts have overshot, over any series of pushes the pipe reads nothing more: it goes on writing or ends in the error state |
| `SelectCopy.Register` | adio/select.c:71-99 | builds exactly the sets of live descriptors, and finds the highest one |
| `SelectCopy.Switch` | adio/select.c:123-171 | the branches on one pipe compute the push of the lemmas |
| `SelectCopy.Advance` | adio/select.c:120-172 | the in-place loop pushes every pipe once by what was reported |
| `SelectCopy.Push` | adio/select.c:64-174 | with a live pipe `select` has something to report; every copy stays faithful, the total work falls, and only exceptions put a pipe in error |
| `SelectCopy.Finished` | adio/select.c:224-231 | true exactly when no pipe is live |
| `SelectCopy.Copy` | adio/select.c:215-235 | for any pipes and any schedule: `select` is only called with a live pipe, the loop ends within the bound, and every pipe that reached EOF has copied its whole source; a pipe ends in error only if a report had an exception on one of its descriptors, so without exceptions every source is copied whole |
| `SelectCopy.FreshWork` | adio/select.c:51-59 | the bound is 2·\|source\| + 1 pushes for each pipe |
| `FileCounter.CounterExact` | adio/flock.c:15-73 | for any number of children and every interleaving the file ends as the canonical numeral of v + n |
| `FileCounter.MutualExclusion` | adio/flock.c:37-64 | at most one child is between its lock and its close, and its lock covers byte 0 all the time |
| `FileCounter.LockExcludes` | adio/flock.c:37-40 | when the lock is granted no other child is inside |
| `FileCounter.NoStaleDigits` | adio/flock.c:52-55 | overwriting the numeral of x with that of x + 1 leaves no old digit |
| `FileCounter.ReadBack` | adio/flock.c:44-49 | what is read into the zeroed buffer is read back by `atoi` as the number in the file |
| `FileCounter.SomebodySteps` | adio/flock.c:37-73 | until the parent is done some process can step |
| `FileCounter.StepsRunOut` | adio/flock.c:15-73 | every step uses up a finite measure |
| `FileCounter.CountsInTheEnd` | adio/flock.c:15-73 | every run has at most 12·n + 2 steps, and every run that cannot be extended ends with the parent done and the numeral of v + n in the file |
| `Decimal.AtoiOfPrint` | adio/flock.c:49-52 | `atoi` undoes the printed numeral, whatever follows it |
| `Decimal.PrintLengthMonotone` | adio/flock.c:52 | a larger number never has the shorter numeral |
| `HttpBody.Download` | socket/http_client.c:67-97 | the byte loop emits what the automaton of the lemmas emits |
| `HttpBody.StatusIsMatch` | socket/http_client.c:75-93 | `status` is the longest prefix of CR, LF, CR found as a subsequence of the current run of CR and LF bytes |
| `HttpBody.BodyFlag` | socket/http_client.c:87-91 | the flag is set exactly from the first byte on at which that run contains CR, LF, CR, LF |
| `HttpBody.Emitted` | socket/http_client.c:73-97 | the output is what follows the header less the swallowed line feeds, for every input |
| `HttpBody.NothingEmitted` | socket/http_client.c:95-96 | without the end of a header nothing is emitted |
| `HttpBody.PassedOnIff` | socket/http_client.c:73-97 | the output is exactly the remaining bytes if and only if the body has no swallowed line feed |
| `HttpBody.WellFormedHeader` | socket/http_client.c:67-91 | for headers without bare CR or LF (section 6 of RFC 1945) the flag is set exactly at the end of the first CRLFCRLF |
| `HttpBody.DownloadIff` | socket/http_client.c:67-97 | a well-formed response is downloaded exactly if and only if its body is clean |
| `HttpBody.LineFeedIsLost` | socket/http_client.c:87-91 | of a response whose body is a single line feed nothing arrives, whatever its header |
| `SignalWait.EverySignalReleases` | signal/suspend1.c:35-48 | once SIGINT is blocked the handler starts only inside `sigsuspend`; handler runs, released and printed lines agree up to the one in progress; a pending signal releases its line |
| `SignalWait.EndsAsItBegan` | signal/suspend1.c:38-53 | either program, when it leaves its loop, has printed and released 1000 lines of 5 stars and ends with the mask it began with |
| `SignalWait.EndsIff` | signal/suspend.c:8-52 | a program has ended if and only if it left its loop or SIGTSTP came |
| `SignalWait.ReleasesIff` | signal/suspend.c:35-47 | in every run, at every point before the end: all handler runs since SIGINT was first blocked were inside a `pause` and none is bound to run elsewhere, if and only if SIGINT arrived only while `pause` was waiting with no handler running and none was left over from before |
| `SignalWait.SignalCanMiss` | signal/suspend.c:43-46 | a reachable state with the SIGINT handled, none pending, and the line still waiting |

## Assumptions

* Task bodies return and do not call the pool; clients submit a non-`NULL` task and wait for ids the
  pool has returned to them.  `pthread_cond_wait` may return spuriously.
* A signal handler runs to completion before the interrupted flow goes on.  Real time is left out: an
  alarm is a step that can happen at any moment.
* A `read` that `select` reports ready brings at least one byte unless the source is at its end, and a
  `write` takes all it is offered; the lemmas on short writes say what happens otherwise.
* In the file counter no system call fails, the number stays within `int`, and the buffer the children
  inherit holds zeros, as the program needs for its `atoi`.
* Integers are unbounded except where stated: the unsigned counter of `signal/token.c` wraps at 2^32,
  the numbers of `adio/flock.c` stay below 2^31.

## Left out

- `tp_init` and `tp_close`: creating, cancelling and destroying threads and locks.
- Submitting a `NULL` task to the pool: the slot would stay empty with its semaphore taken for ever.
- A callback that cancels its own job, and `at_cancel_job` interrupted by the handler: both free a job twice; the first is recorded in `doubleFree` and excluded from the theorems.
- TimerRace.SafeIffNothingAdded: about the callbacks of all jobs at once, and only if none cancels; `TimerHarm.HarmlessIff` takes any callback of one job.
- TimerRace.HarmlessIffNothingAdded: the special case of `TimerHarm.HarmlessIff` in which nothing is cancelled and the condition is plain.
- AnyTimer.Timer.Wait: the slot must become empty for good on some tick; callbacks that put new jobs into it can prolong the wait without bound.
- SlowCat.Throttled: the write loop of `signal/slow_cat.c` (lines 67-81) is not modelled, only the token accounting.
- Overflow of the `int` counters in `signal/anytimer.c` and `signal/mytbf.c`.
- `mytbf_load` and `mytbf_unload`, saving and restoring signal handlers, and failing allocations.
- adio/poll.c and adio/epoll.c: the same copy machine driven by other calls.
- Failing system calls in adio/flock.c and adio/select.c, which end the process.
- Sockets, option parsing, file system, terminal and process demos, and the single-lock counters: thin wrappers over system calls.
