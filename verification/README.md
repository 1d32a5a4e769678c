# Verification of kiruna's executors

This project models the concurrent core of kiruna and proves what it promises under every
schedule: the thread-per-core executor `tpc` (its two-tier channel, its worker loop, its lockable
futures, its thread counter, its sets and the parallel vec builder), the `block_party` pool, the
single-threaded `sync` executor, and the `join` combinators.

Run `dafny verify dfyconfig.toml` in this directory.

## How the model is built

Concurrent code is a step system: a `State`, a total function that performs one atomic action of
one thread (an action that is not possible leaves the state alone), and runs over arbitrary
sequences of actions. A theorem about a run is a statement about every interleaving. One atomic
action is one queue push or pop, one semaphore signal or decrement, one atomic read-modify-write,
one waker registration or wake, one write of an element.

Code that one caller runs step by step is a class with the source's fields and a method with the
source's branches and loops. Where other threads run meanwhile, such a method takes a *script*:
what the others do between two of its own atomic actions. Its contract holds for every script.

Memory is sequentially consistent. Semaphores are counters, crossbeam's queues are bounded FIFO
sequences, and `AtomicWaker` is a slot with an atomic register and an atomic take.

| file | content |
|---|---|
| `counting.dfy`, `words.dfy` | sums over threads, and how one step moves them; machine words |
| `channel.dfy`, `channel_safety.dfy`, `channel_theorems.dfy` | the hierarchical channel as a step system, its invariant, its theorems |
| `channel_calls.dfy` | `send`, `recv_immediate`, `recv_all` in the source's form, under interference |
| `set_sync.dfy` | the composed system: future, spawning loop, channel, workers, individual writes, countdown, waker, thread counter, and everybody else's traffic |
| `set_sync_safety.dfy`, `set_sync_progress.dfy` | its invariant and its measure |
| `set_sync_theorems.dfy`, `set_sync_capacity.dfy`, `set_sync_pool.dfy`, `set_sync_result.dfy` | its theorems |
| `planner.dfy` | the chunk planner and a job's write loop |
| `children.dfy`, `guards.dfy`, `guard_theorems.dfy` | a set's children, `InternalGuard` and `SimpleGuard`, and the rules about their whole lives |
| `our_future.dfy`, `future_wakes.dfy`, `future_repolls.dfy` | the lock, the wakers and the reference count of a pooled future; which wakes are served; when it is polled after Ready |
| `thread_policy.dfy` | the thread counter |
| `party_worker.dfy`, `party_launch.dfy`, `party_future.dfy` | `block_party` |
| `sync_executor.dfy` | the `sync` executor |
| `joiners.dfy` | `join2` and `try_join2` |

The main argument about the channel is a suffix count: for every level p, the receivers that have
already passed the levels below p are no more than the local tokens left at the levels from p on.
Every step keeps it as long as `recv_immediate` takes only from level 0, where the balance of all
tokens gives the bound for free; at the end of the levels it leaves no receiver, so `recv_all`
never reaches its panic. The composed system inherits that invariant, since each of its steps
performs at most one step of the channel.

## What the code does not promise

Each of these is the code's behaviour, with the exact condition under which the promise holds.

- `recv_all` can panic with "No element found" if `recv_immediate` is also called at a level other
  than 0. The safe levels are exactly 0 and the levels that do not exist (`ImmediateLevelRule`).
- A `recv_immediate` at a level that does not exist loses a token, and so does a `recv_all` that
  panics; exactly as many messages are then stranded (`StrandedIsLost`).
- A set whose jobs, with what others send to their level, are more than the queue holds can panic while
  it is spawned; one that fits cannot (`CapacityRule`, `SetCapacityRule`, `SimpleCapacityRule`; the
  bound is 1,000,000).
- A pooled future can be polled again after it was ready: exactly while a thread and a waker, wake call,
  message or worker holding one are left, and somebody can still receive (`RepollRule`); in some schedule
  exactly if it clones or wakes its waker in a poll (`RepollNeedsWaker`).
- A child of `set_scoped` that is polled again counts down again, since `Child::poll` counts before it
  asserts, and its thread is lost. The guard can then be ready while another child has not run: exactly if
  a child other than the last clones or wakes its waker, or the last does and there are two children and
  two threads (`EarlyReadyRule`; the guard asks for as many threads as children, up to the cpus). The
  inner future has to answer Ready a second time for it, as `poll_fn` closures do.
- The documentation of `set_scoped` says that leaving scope panics if tasks are active. The code panics
  if the latest poll was not Ready, even with every child done since (`InternalGuard.Drop`,
  `IdleDropRule`); `SimpleGuard` panics also if it was never polled (`SimpleGuard.Drop`).
- `set_sync` with length 0 or with no jobs asked for divides by zero, although the documentation
  offers a vec of any length; these and a checked overflow of the product are the only ways the
  planner fails (`NewPlanner`).
- A wake of a pooled future that finds the queue of level 0 full is refused. It goes unserved only if none
  of the future's own messages is left: this can happen in some run exactly if the others can fill that
  queue by themselves (`LostWakeRule`, `LoseWake`), and only another wake repairs it (`LostForGood`).
- A pooled future whose poll has panicked is never polled again, as its lock stays taken; its messages are
  passed on for ever, exactly while a thread and something that leads to an attempt to poll are left and
  no send is refused (`PanickedIsNeverPolled`, `PanickedRestRule`).
- A thread whose job has panicked stays in the thread count. A pool that has lost a thread for every cpu
  never gets another, and only then (`RecoveryRule`, `LoseEveryThread`).
- A `block_party` task can stay in the channel with no worker, and the next sender stays blocked in its
  send: exactly when the submission's swap falls between the worker's decision to stop and its store
  (`StrandRule`, `StrandSecond`, `LuckyRunsServeAll`).
- The `sync` executor keeps its promises on a spawn exactly while the new handle fits in 16 bits
  and fewer than 65535 tasks are unfinished (`SpawnRule`); tasks past the 65536th are never polled
  (`AllPolledRule`). A waker that outlives it panics when it is
  called (`Executor.Wake`).
- `TryJoin2` is left as it was when it returns an error: polled again it polls the failed child
  again, instead of panicking (`TryJoin2.Poll`).

## Model

| member | source | states |
|---|---|---|
| ChannelSafety.ApplyKeeps | tpc/src/channel.rs:50-123 | every atomic action of every thread, with calls at any level, keeps per-level FIFO order, queue length = local count + receivers about to pop + senders about to signal, and total of local counts = global count + tokens in hand or lost in a panic; one that keeps recv_immediate to its safe levels keeps the suffix bound too |
| ChannelSafety.TakenIsCounted | tpc/src/channel.rs:55-63 | a scanning receiver always has a level left to try, and a receiver that decremented a local semaphore finds its queue nonempty |
| ChannelSafety.SuffixKeptAt | tpc/src/channel.rs:116-121 | passing an empty level keeps the number of receivers past level p at most the local tokens from p on |
| ChannelTheorems.NoReceiverPanics | tpc/src/channel.rs:114-123 | with recv_immediate at level 0, no interleaving of any number of threads over any number of levels reaches "No element found" |
| ChannelTheorems.EachMessageInOnePlace | tpc/src/channel.rs:50-64 | with calls at any levels: a pop never finds its queue empty; every pushed message, with multiplicity, is in exactly one receiver's hands or still queued; each level is first in first out |
| ChannelTheorems.StrandedIsLost | tpc/src/channel.rs:89-123 | with senders finished and a receiver blocked in recv_all, the messages left are exactly the tokens lost in panics of recv_immediate at a missing level or of recv_all; without one all queues are empty |
| ChannelTheorems.ImmediateLevelRule | tpc/src/channel.rs:93-123 | using recv_immediate at a level beside recv_all is safe under every schedule if and only if that level is 0 or does not exist |
| ChannelTheorems.OvertakeScanner | tpc/src/channel.rs:93-123 | the run in which a recv_immediate at a later level takes the element a scanning recv_all was entitled to, and recv_all panics |
| ChannelCalls.QuietCounts | tpc/src/channel.rs:114-121 | with no call in progress the global count is zero exactly if all queues are empty, and the first stocked level is the first nonempty one |
| ChannelCalls.SharedChannel.constructor | tpc/src/channel.rs:74-88 | a new channel has empty queues and zero semaphores at every level |
| ChannelCalls.SharedChannel.Push | tpc/src/channel.rs:51-52 | appends to the level's queue, or panics because it is full or does not exist |
| ChannelCalls.SharedChannel.RecvNonblock | tpc/src/channel.rs:55-64 | under any interference returns an element and records it for the caller, or leaves the caller to go on; undisturbed it takes the oldest element exactly if the local count is not zero |
| ChannelCalls.SharedChannel.Send | tpc/src/channel.rs:89-92 | undisturbed appends the message and raises both counts by one, or panics exactly if the queue is full or the level does not exist; under interference keeps the invariant, and if it returns its message has been pushed on its level |
| ChannelCalls.SharedChannel.RecvImmediate | tpc/src/channel.rs:93-113 | at any level: returns one message and hands it to the caller, or nothing with the token restored; panics only at a level that does not exist, and undisturbed there exactly if the global count is not zero; undisturbed at another, nothing exactly if the global count or the level's count is zero; at a safe level it leaves recv_all safe |
| ChannelCalls.SharedChannel.RecvAll | tpc/src/channel.rs:114-123 | under any interference it receives exactly one message, is still blocked, or panics, the last only if recv_immediate was called where it is not safe; undisturbed it takes the oldest message of the first stocked level, and never panics |
| SetSyncSafety.NextKeeps | tpc/src/bin.rs:180-247 | every step of the composed system, with Idle messages, other tasks, departing and starting threads, keeps: each popped job is held by the worker that popped it until it counts down, the counter is the number of jobs outstanding, each chunk holds a written prefix, no final wake is lost, the thread count is right and does not fall back to 0 |
| SetSyncSafety.ReceiveEffect | tpc/src/bin.rs:183-189 | the worker's receive steps are the channel's steps, and bring out the next job in line, a message that is no job of the set, or none |
| SetSyncSafety.WriteKeeps | tpc/src/set/vec.rs:155-162 | a job's write goes to its next slot, inside its own chunk, which was empty, and stores f of that slot |
| SetSyncSafety.CountKeeps | tpc/src/set.rs:271-277 | each job counts down once and the counter does not underflow |
| SetSyncSafety.WakeKeeps | tpc/src/set.rs:274-276 | the wake of the last job reaches a future that parked with the counter at zero |
| SetSyncSafety.SendKeeps | tpc/src/set.rs:268-286 | the spawning loop sends the jobs in order, and a push of it panics only if the level's queue is full |
| SetSyncSafety.OutKeeps | tpc/src/bin.rs:292-320 | a step of anybody else's send, on either level, at any moment, disturbs none of this |
| SetSyncSafety.StaffKeeps | tpc/src/bin.rs:193-214 | a departure, a start or a loss of a thread keeps the thread count equal to the threads living, lost and owed, and a departure never takes it to 0 |
| SetSyncProgress.NextFalls | tpc/src/bin.rs:180-247 | every effective step of a worker, of the future, of a starting or leaving thread, or of a send already begun lowers one measure |
| SetSyncTheorems.FinishedIsMap | tpc/src/set/vec.rs:170-173 | when the future is ready the output is f(0)..f(len-1), each slot written exactly once, all jobs have counted down and exactly one saw the counter at 1 |
| SetSyncTheorems.ReadyIsFinal | tpc/src/set.rs:290-297 | after Ready no job touches the output or the counter, and the future stays ready |
| SetSyncTheorems.WakeRule | tpc/src/set.rs:274-297 | a poll begins only if the future has not been polled or has been woken since, and forgets that wake; it is woken only from outside or by the worker with the last job, and by that one exactly if the waker of the latest poll is registered |
| SetSyncTheorems.PolledAtMostTwice | tpc/src/set.rs:263-297 | in no run without a wake from outside is the future polled more than twice, and a second time only with every job counted down |
| SetSyncTheorems.WritesStayInChunk | tpc/src/set/vec.rs:147-166 | every change of the output is one running job's next slot, inside its chunk and empty before |
| SetSyncTheorems.SettledWorker | tpc/src/bin.rs:183-189 | a worker that can do nothing more has left or is lost, or is blocked in recv_all on a zero global count |
| SetSyncTheorems.SettledStaff | tpc/src/bin.rs:322-358 | at rest no thread is owed, and with a count of 1 or more a counted worker is there or lost |
| SetSyncTheorems.SettledHasThread | tpc/src/bin.rs:193-214 | at rest, with jobs, a cpu and no panic of other tasks, a worker is waiting |
| SetSyncTheorems.SettledIsFinished | tpc/src/set.rs:263-297 | a system that can do nothing more has a ready future unless its spawning found the queue full or no thread is there: no stranded job, no missed wake |
| SetSyncTheorems.SettledRanEachOnce | tpc/src/bin.rs:237-242 | at rest every job was popped exactly once and has counted down, and both queues are empty, of other messages too |
| SetSyncTheorems.NoReceiveFails | tpc/src/channel.rs:50-123 | in no run of the composed system, whatever others send, does a worker panic in a receive; the future panics only on a full queue |
| SetSyncTheorems.EveryRunIsFinite | tpc/src/bin.rs:180-247 | the number of effective steps of any run is bounded by the measure of its start, plus a fixed amount for each wake-up, send or call for threads from outside |
| SetSyncTheorems.SetSyncIsMap | tpc/src/set/vec.rs:132-174 | total correctness of the composed system for any chunks that tile the output, starting with an empty pool, under any schedule, with other traffic on both levels and threads coming, going and lost to panics of other tasks |
| SetSyncCapacity.CapacityRule | tpc/src/channel.rs:51-52 | spawning never panics on a full queue if and only if there is no job, or the jobs and what others may send to their level together are no more than its capacity |
| SetSyncPool.LeavesOnIdle | tpc/src/bin.rs:193-214 | in every run a thread leaves only if the message it received last is Idle, with a count above the minimum and one lower afterwards, and is lost to a panic only on a foreign task |
| SetSyncPool.MessageRule | tpc/src/bin.rs:193-242 | what comes of each kind of received message: a job of the set and a foreign task are run, the latter perhaps taking its thread along; an Idle message lets the thread leave or go back to its loop, and runs nothing |
| SetSyncPool.ForeignRunOnce | tpc/src/bin.rs:180-247 | in every run the foreign messages popped are those run and those in a worker's hands; at rest, with a thread left, every foreign message pushed on either level has been run, once |
| SetSyncPool.RaiseAnswers | tpc/src/bin.rs:326-342 | a call for n jobs leaves a count of at least n or the cpus, whichever is less; if it changes the count, to exactly that, and it owes the difference |
| SetSyncPool.PollAnswers | tpc/src/set.rs:263-286 | the future calls for as many threads as it has jobs at the start of its first poll, and at no other time |
| SetSyncPool.PoolSize | tpc/src/bin.rs:322-342 | in no run does the count exceed the largest number of jobs announced by anybody, or the cpus |
| SetSyncResult.SetSyncResult | tpc/src/set/vec.rs:132-174 | from the arguments of set_sync on a machine with a cpu: at most 26 jobs + len + 13 cpus + 6 effective steps plus what comes from outside; no panic while jobs and other sends fit; ready at rest; the sequential map as the result, under every schedule |
| Planner.NewPlanner | tpc/src/set/vec.rs:68-89 | in terms of its arguments: Jobs(n) plans min(n, len), JobsPerCore(n) plans min(n * cpus, len) without truncation; it fails exactly if the product does not fit in 32 bits in a checked build, or the length or the number of jobs asked for is zero |
| Planner.ChildPlanner.Next | tpc/src/set/vec.rs:97-113 | yields the i-th chunk without overflow, and nothing after target_jobs chunks |
| Planner.ChildPlanner.Collect | tpc/src/set/vec.rs:137-145 | the loop over the planner ends with exactly target_jobs chunks in order |
| Planner.PlansPartition | tpc/src/set/vec.rs:97-113 | the chunks are contiguous from 0 to len, disjoint, covering, nonempty when there are no more jobs than slots, and differ by at most one |
| Planner.PlanIsUnique | tpc/src/set/vec.rs:97-113 | the plan is the only contiguous cut into that many chunks whose lengths differ by at most one, longer ones first |
| Planner.RunJob | tpc/src/set/vec.rs:147-166 | a job fills exactly its chunk of the buffer with f |
| Children.ActKeeps | tpc/src/set.rs:57-77 | every action of a child, a second poll after Ready and the assertion that takes its thread included, keeps the counter equal modulo 2^32 to the children unfinished less the second countdowns, every thread free, holding a child or lost, and a pending guard sure to be woken |
| Children.ZeroRule | tpc/src/set.rs:104-112 | the counter is at zero exactly if as many children have counted down again as are unfinished; with none that can be polled again, exactly if all are done |
| Children.ActFalls | tpc/src/set.rs:57-77 | the children come to rest: every action that has an effect leaves them fewer |
| Children.WakeRule | tpc/src/set.rs:68-75 | the child that takes the last count calls the waker of the latest poll exactly if it is registered, and takes it out |
| Children.RestIsWoken | tpc/src/set.rs:57-77 | at rest no child is in the middle of anything; with all sent, a thread and none that can be polled again, all have finished, and a pending guard has been woken |
| Children.QuietIsWoken | tpc/src/set.rs:160-185 | when every child has finished and none was polled again, a pending guard has been woken |
| Guards.InternalGuard.constructor | tpc/src/set.rs:203-209 | a new guard has its tasks and has spawned nothing |
| Guards.InternalGuard.Poll | tpc/src/set.rs:103-190 | in any state, with the children running meanwhile and a bounded queue: what it returns and leaves is PollOf; ready exactly by the rule above; no panic for a new guard whose tasks fit in the queue and in 32 bits; left pending only if it will be woken; Ready at most once |
| Guards.PollKeeps | tpc/src/set.rs:113-189 | a poll panics exactly if it leaves the state Invalid, and otherwise is ready by that rule, with all children sent |
| Guards.UndisturbedPoll | tpc/src/set.rs:113-189 | a guard left pending by a poll nobody disturbs has registered that poll's own waker, and nothing that woke it before counts |
| GuardTheorems.SetCapacityRule | tpc/src/set.rs:145-147 | over all polls and every behaviour of the pool, a guard never panics if and only if its tasks fit in the queue and in 32 bits |
| GuardTheorems.EarlyReadyRule | tpc/src/set.rs:68-75 | on a pool with a thread, some behaviour of the pool makes the guard ready with a child unfinished if and only if a child other than the last clones or wakes its waker, or the last does and there are two children and two threads |
| Guards.InternalGuard.Drop | tpc/src/set.rs:210-224 | panics exactly if the guard has been polled and its latest poll was not Ready; when it does not, no child is active, unless one can be polled again |
| GuardTheorems.IdleDropRule | tpc/src/set.rs:216-218 | a guard can be dropped with nothing active and still panic: for every set with children, that is |
| Guards.PollToEnd | tpc/src/set.rs:103-224 | over any number of polls, with the children running also before the drop: Ready at most once, the drop panics exactly if the end was not Ready, and no poll panics if the tasks fit |
| Guards.SimpleGuard.constructor | tpc/src/set.rs:240-253 | the count is the number of jobs before anything is spawned |
| Guards.SimpleGuard.Poll | tpc/src/set.rs:263-298 | with the jobs running meanwhile and a bounded queue: ready exactly if every job has counted down; left pending only if it will be woken; a panic leaves a job unsent, and does not happen if the jobs fit |
| Guards.UndisturbedSimplePoll | tpc/src/set.rs:289-297 | likewise for the guard of plain jobs, at every poll |
| GuardTheorems.SimpleCapacityRule | tpc/src/set.rs:268-286 | spawning never panics, whatever the pool does, if and only if the jobs fit in the queue |
| Guards.SimpleGuard.Drop | tpc/src/set.rs:254-260 | panics exactly if some job has not counted down, so also for a guard with jobs that was never polled or whose poll panicked |
| OurFuture.ApplyInv | tpc/src/bin.rs:105-158 | every step of a worker or of a waker, panicking ones included, keeps the reference count equal to its owners, the lock equal to the workers inside it or lost there, and every wake covered |
| OurFuture.OnePoller | tpc/src/bin.rs:105-121 | in every run at most one worker is inside the underlying poll, and only under the lock |
| OurFuture.ReleasedIsUnreachable | tpc/src/bin.rs:135-158 | the strong count is zero exactly when no waker, message, wake call or worker can reach the future |
| OurFuture.CloneIsDropped | tpc/src/bin.rs:141-158 | a clone of a waker is one more owner and dropping it undoes it, with the future never released in between |
| OurFuture.DroppingReleases | tpc/src/bin.rs:156-158 | when only wakers reach the future, dropping them releases it: nothing leaks |
| FutureWakes.NoLostWake | tpc/src/bin.rs:145-155 | after a wake that no poll began after, a message is queued or on its way, or a worker holds one that it will try to poll with or send again, or a full queue has refused a message since; without a refusal nothing is lost |
| FutureWakes.LostWakeRule | tpc/src/channel.rs:50-53 | in no run is a wake left with nothing to serve it, if and only if the other messages on level 0 are never enough to fill its queue |
| FutureWakes.LoseWake | tpc/src/bin.rs:145-149 | otherwise there is a run that ends at rest with a thread waiting, nothing queued, and a wake unserved |
| FutureWakes.LostForGood | tpc/src/bin.rs:145-155 | a wake lost like that is served in no continuation without a further wake |
| FutureWakes.RestIsPolled | tpc/src/bin.rs:215-236 | in every run, once no worker and no wake call can do anything more and a thread is left, no message is left, no worker holds the future, and the latest poll began after the latest wake, unless a full queue refused a message |
| FutureWakes.PanickedIsNeverPolled | tpc/src/bin.rs:107-118 | when a poll of the future panics, with the lock held, its thread is gone for good and no poll of the future ever begins again |
| FutureWakes.PanickedRestRule | tpc/src/bin.rs:114-118 | after such a panic, as long as no send is refused, the threads left can come to rest if and only if nothing leads to an attempt to poll; otherwise they pass the message on for ever |
| FutureRepolls.RepollRule | tpc/src/bin.rs:105-121 | in every run, a future that was ready can be polled again if and only if a thread is left, with a waker, a wake call, a message, or a worker that holds or will resend one, and not every thread left is caught sending to a queue full of the future's own messages |
| FutureRepolls.RepollNeedsWaker | tpc/src/bin.rs:141-155 | some schedule polls a future after it was ready if and only if it clones or wakes its waker while it is polled |
| ThreadPolicy.EncodingRoundTrips | tpc/src/global.rs:15-26 | decoding an encoded count gives it back; decoding a word gives its low 16 bits; encoding that gives the word back exactly if it fits in 16 bits |
| ThreadPolicy.ApplyKeeps | tpc/src/bin.rs:193-214 | every step of callers, idle workers and panicking jobs keeps the stored count equal to living and lost workers plus launches owed, at most the cpus, and never takes it from 1 or more to 0 |
| ThreadPolicy.CountIsThreads | tpc/src/bin.rs:322-358 | the count in every run, including spurious failures of the weak compare-exchange and threads lost to panics |
| ThreadPolicy.LastThreadStays | tpc/src/bin.rs:193-214 | once the count has been 1 or more it stays so in every continuation, and with all calls returned a worker lives if and only if the count is more than the threads lost |
| ThreadPolicy.RecoveryRule | tpc/src/bin.rs:326-356 | with all calls returned, some continuation has a living worker if and only if there is one or a cpu is without a counted thread: when panics have taken a thread for every cpu no call launches another |
| ThreadPolicy.PanicLoses | tpc/src/bin.rs:215-236 | a job that panics takes its thread away and leaves the count as it is |
| ThreadPolicy.LoseEveryThread | tpc/src/bin.rs:326-356 | on every machine there is a run that ends with every call returned, the count at the cpus, and no thread now or in any continuation |
| ThreadPolicy.RaiseKeeps | tpc/src/bin.rs:328-342 | the launch amount does not underflow and is what the swap added |
| ThreadPolicy.EnforceProvides | tpc/src/bin.rs:322-358 | a call for one job or more, on a machine with a cpu, leaves on its return a positive count, whatever others do meanwhile and afterwards; with all calls returned a worker lives unless all counted are lost |
| ThreadPolicy.CountAsked | tpc/src/bin.rs:326-337 | in no run does the count exceed the largest number of jobs any call begun so far has announced, or the cpus |
| ThreadPolicy.CallAnswered | tpc/src/bin.rs:326-342 | a call for n jobs leaves its loop, after any run of the others, with a count of at least n or the cpus, whichever is less: nothing changed, or its swap raised the count to exactly that and it will launch what it added |
| ThreadPolicy.LoopEnds | tpc/src/bin.rs:328-337 | whatever it had read before, a caller that nobody disturbs leaves its loop at its second attempt, with the count at its proposal or above as it was |
| ThreadPolicy.OwedIsLaunched | tpc/src/bin.rs:342-356 | a call then launches as many threads as it owes, and changes nothing else |
| ThreadPolicy.IdleLeaves | tpc/src/bin.rs:193-214 | in every run, an idle worker that nobody disturbs is gone with the count one lower if the count was above the minimum, and otherwise is back with nothing changed |
| ThreadPolicy.ShrinksToOne | tpc/src/bin.rs:193-214 | a pool with threads, none of them lost, whose calls have returned, can shrink to exactly one living worker |
| ThreadPolicy.GlobalState.RaiseTo | tpc/src/bin.rs:328-337 | the compare-and-swap loop goes in one step from a lower count, which the counter had, to the proposal, or finds the count high enough |
| ThreadPolicy.GlobalState.TryLeave | tpc/src/global.rs:37-49 | the loop of an idle worker takes one from a count above the minimum, or changes nothing |
| PartyWorker.RemovePairs | block_party/src/pool.rs:104-105 | removing the same index from both vectors removes that pair and no other |
| PartyWorker.Worker.TakeOne | block_party/src/pool.rs:121-124 | the oldest message's task and mailbox go to the ends of the two vectors |
| PartyWorker.Worker.ReadGreedy | block_party/src/pool.rs:120-125 | empties the channel of one place into the two vectors in order, with what is sent meanwhile |
| PartyWorker.Worker.NotYetPosted | block_party/src/future.rs:54-63 | a waiting task's mailbox is empty, so the assertions of send_mail hold |
| PartyWorker.Worker.WaitAnyOne | block_party/src/pool.rs:100-119 | the output goes to the mailbox of the task that produced it and to no other, and both vectors lose that pair |
| PartyWorker.Worker.WaitAll | block_party/src/pool.rs:130-133 | a wait with the channel emptied is on every task submitted and not answered, and answers the one that completes |
| PartyWorker.Worker.WorkerFn | block_party/src/pool.rs:126-149 | with senders getting through before any receive: every wait is made with an empty channel on all tasks submitted and unanswered; the answers are exactly, in order, the outputs of the waits that complete, each for the task chosen; a worker stops only when a receive after its first reading finds nothing, and has then answered all, once |
| PartyLaunch.ApplyInv | block_party/src/pool.rs:50-62 | every step keeps the flag equal to the number of workers claimed for launch or not yet cleared |
| PartyLaunch.OneWorker | block_party/src/pool.rs:126-151 | two workers never serve a pool at once, and none while the flag is clear |
| PartyLaunch.PlacedKept | block_party/src/pool.rs:100-125 | every step keeps each task sent in exactly one place: channel, worker or answered |
| PartyLaunch.LuckyRunsServeAll | block_party/src/pool.rs:139-151 | if no swap falls between a worker's decision to stop and its store, then once nothing more can happen every submitted task is answered, once, the channel is empty and no sender is blocked |
| PartyLaunch.StrandRule | block_party/src/pool.rs:50-62 | a task in the channel whose future is about to swap can be left there for good if and only if the swap falls there, whatever the other futures are doing and will do |
| PartyLaunch.StrandSecond | block_party/src/pool.rs:139-151 | with two futures or more there is a run that ends with nobody left and the second task in the channel |
| PartyLaunch.SubmissionsReport | block_party/src/pool.rs:50-62 | in every run the submissions completed are the workers launched and the wakes of the side channel, one each |
| PartyFuture.SenderStepKeeps | block_party/src/future.rs:53-65 | the cell is written once, before the flag, and a pending future stays sure to be woken |
| PartyFuture.SenderDelivers | block_party/src/future.rs:53-65 | the output of the task is in the cell before the flag is set, the flag is set before the waker is taken and called, and the waker called is that of the latest poll if it is registered |
| PartyFuture.AnsweredIsWoken | block_party/src/future.rs:53-65 | when the worker is done with the mailbox, a pending future has been woken |
| PartyFuture.Future.RecvMail | block_party/src/future.rs:67-80 | returns the answer exactly if the flag is set, and panics exactly if it was taken before |
| PartyFuture.Future.Poll | block_party/src/future.rs:114-146 | with the worker acting meanwhile: panics exactly if the output was taken already, is ready with the worker's answer, and left pending will be woken; undisturbed, by the waker of this very poll |
| SyncExecutor.SpawnRule | src/sync/executor.rs:36-42 | a spawn keeps handles valid, the count exact and the new task queued if and only if handle and count fit in 16 bits |
| SyncExecutor.AllPolledRule | src/sync/executor.rs:36-67 | in every life of an executor that has emptied its channel, every task spawned has been polled if and only if there were at most 65536; those after never are |
| SyncExecutor.LifeRule | src/sync/executor.rs:36-80 | in every life with fewer than 65536 spawns, whatever the futures do: a task is gone if and only if its latest poll was ready, no task is polled after it was ready, and with the channel empty each task still there was polled exactly once for its spawn and once for each of its wakes |
| SyncExecutor.WokenIsPolled | src/sync/executor.rs:47-67 | with the channel empty, a task still there has been polled after each time its handle was sent, and after each poll of any task that woke it |
| SyncExecutor.SendsArePolls | src/sync/executor.rs:53-67 | at any time, the handles sent for a task still there are those in the channel and its polls, one for one |
| SyncExecutor.WokenKeeps | src/sync/task.rs:65-69 | a wake queues the task's handle and changes nothing else |
| SyncExecutor.WokenAllKeeps | src/sync/task.rs:65-69 | after any wakes the handle of each task woken that has a waker is in the channel and newly sent |
| SyncExecutor.WokenInOrder | src/sync/task.rs:65-69 | the handles are queued in the order of the wakes, each as often as its task was woken |
| SyncExecutor.Executor.Wake | src/sync/task.rs:65-69 | a wake panics exactly if the executor is gone, and else queues the handle |
| SyncExecutor.PolledKeeps | src/sync/executor.rs:53-67 | polling a task keeps all promises: the task leaves its slot exactly if this poll is ready, and the handles of those it wakes are sent after it |
| SyncExecutor.TurnKeeps | src/sync/executor.rs:53-67 | one wakeup takes the handle at the head of the channel and polls its task, or drops it if the task is gone |
| SyncExecutor.Executor.Spawn | src/sync/executor.rs:36-42 | the new slot, count and queued handle, with the condition above |
| SyncExecutor.Executor.DoAWakeup | src/sync/executor.rs:53-67 | the method does that |
| SyncExecutor.Executor.DoSome | src/sync/executor.rs:47-51 | every wake before a receive is sent before it, each receive takes one handle, and it returns with an empty channel and every task still there polled after its latest wake |
| SyncExecutor.Executor.Drain | src/sync/executor.rs:72-80 | likewise; returns, and is then gone, exactly when no task is left, so every latest poll was ready; blocks only with an empty channel and every task still there polled after its latest wake |
| Joiners.JoinEndsOnce | join/src/lib.rs:32-64 | there is at most one poll at which a joiner of two given children is ready, with one pair of outputs |
| Joiners.Join2.Poll | join/src/lib.rs:32-64 | ready exactly at the later of the children's first ready polls, with both outputs; panics exactly afterwards; never polls a child that was ready |
| Joiners.PollJoin | join/src/lib.rs:32-64 | over any number of polls: ready at that poll and at no earlier one |
| Joiners.TryJoin2.Poll | join/src/lib.rs:120-163 | ends exactly at the first failure of a child or the second output; the first child's error wins and the second child is then not polled; an error leaves the failed child in place |
| Joiners.PollTryJoin | join/src/lib.rs:120-163 | over any number of polls: ends at the first such poll and at no earlier one |

## Left out

- Guards.InternalGuard.Poll: children are ready at their first poll, because the pending branch of Child::poll is a todo; a child polled again answers Ready again; the queue holds this set's messages only.
- Guards.SimpleGuard.Poll: a guard whose poll panicked is not polled again; the queue holds this set's messages only, other traffic being in CapacityRule.
- SetSyncTheorems.SetSyncIsMap: a foreign task, once received, returns to the worker loop or panics; its own sends are those of the other senders.
- GuardTheorems.EarlyReadyRule: a child's second poll may come at any time after its first, as it does when the waker was given away; a child that only wakes itself inside its poll is received before anything on level 1.
- SetSyncSafety.StaffKeeps: raising and lowering the thread counter are one step each here; ThreadPolicy has the compare-and-swap loops.
- A job of the set itself that panics: it never counts down, and its guard is never ready.
- FutureWakes.NoLostWake: the channel is a count of this future's messages and one of the others' on level 0; that it delivers each message once is proved in ChannelTheorems.
- PartyWorker.Worker.WorkerFn: a sender that waits for room is not submitted until it gets through; PartyLaunch has the waiting senders.
- SyncExecutor.Executor.Spawn: 16-bit arithmetic wraps; a build with overflow checks panics instead.
- SyncExecutor.Executor.DoSome: futures that wake themselves for ever keep it busy for ever, so it is given a number of receives to make.
- The worker loop of bin.rs, spawning in set.rs, OurFuture and the launch protocol of block_party are modelled on values, as step functions; their order of updates is kept, aliasing is not modelled.
- The upper limit of the operating system's semaphores, and a channel built with capacity 0, which crossbeam refuses.
- Weak memory orderings.
- The timer that sends Idle messages, and elapsed times: whether an idle worker tries to leave is a free choice.
- Pinning, lifetimes, transmute and UnsafeCell; only the claims they rest on are proved.
- Re-creation of side channels and the blocking inside wait_any: the environment chooses a waiting task or a side wake.
- Priorities other than UserWaiting and Testing, which end in a todo.
- `stream`, `seek`, `spawn`, the platform files, `futures`, `priority` and `src/test.rs`: system calls and thin wrappers.
- Logging and thread names.
