# bpromise core, modelled in Dafny

bpromise is a small C++ promise/future library with its own event loops. This
project models its four sequential pieces, without threads:

- **States, promises and futures** (`Futures`, future.dfy).
  - A `State` is a single-assignment slot: a ready flag, a value and an optional
    callback. `Set` and `SetCallback` may come in either order.
  - A `Promise` and its `Future` hold raw back-pointers to each other. The model
    keeps them as an arena of handles, `map<HandleId, Handle>`. Each handle has an
    optional partner id and its own local `State`.
  - Every move, move-assignment and destructor is a pure function on the arena
    with a lemma about it. The class `Engine` calls that function and keeps the
    link invariant `LinksOk` as its class invariant.
  - `then`, `make_ready_future` and the three-way result normalisation of
    `Futurize::get_result` are methods of `Engine`. `repeat` is a function over
    the answers its calls return.
  - Callbacks are opaque ids, and every invocation is appended to the log
    `delivered`. The main thread's immediate queue is the sequence `mainQueue`,
    so a completion that was only enqueued can be told apart from one that was
    delivered.
- **The worker's task list** (`Workers`, worker.dfy).
  - A task is a value: an identity, a kind (one-shot or periodic), an interval, a
    callback id and a deadline.
  - The class `Worker` holds the tasks, the running flag and a log of fired tasks.
  - `Step(now)` is one turn of the run loop, with the clock passed in. It is
    specified by the pure `StepTasks`. `Run(clock)` runs the loop once per clock
    reading and is specified by `RunTasks`.
- **The thread pool** (`Pool`, threadpool.dfy).
  - `find_thread` prefers the first idle worker; otherwise it advances a
    round-robin cursor. This is the pure function `Choose`, and the lemmas about
    it include round-robin fairness.
  - `ThreadPool` and `MainThread` are classes over `Worker` objects.
- `Wrappers` (wrappers.dfy) holds the `Option` type.

Time is an integer number of ticks. A duration is an integer interval.

## Model

| member | source | states |
|---|---|---|
| Futures.Set | include/bpromise/future.h:46-55 | the state becomes ready and keeps its callback; with a registered callback the value goes to that callback exactly once and is not stored; with none, the value is stored and nothing is delivered |
| Futures.SetCallback | include/bpromise/future.h:68-76 | on a ready state the callback gets the stored value at once and the state is unchanged; on a state that is not ready the callback is stored and nothing is delivered |
| Futures.SingleFire | include/bpromise/future.h:47-76 | on a fresh state, one set and one set_callback, in either order, deliver exactly one `Delivery(f, v)` and leave the state ready |
| Futures.MovedFrom | include/bpromise/future.h:24-29 | a moved state keeps its ready flag and value, and the callback moves away |
| Futures.LinkSymmetric | include/bpromise/future.h:145 | under the link invariant, `p._future == f` exactly when `f._promise == p` |
| Futures.Deferred | include/bpromise/future.h:210 | a deferred handle is a future that still has a promise, and under the link invariant that promise points back at it |
| Futures.Slot | include/bpromise/future.h:210-211 | the state a handle reads: its own for a promise or an unlinked future, its partner promise's for a linked future |
| Futures.StateIn | include/bpromise/future.h:211 | a promise and a future that is not deferred read their own local state; a deferred future reads its promise's state |
| Futures.GetFutureIn | include/bpromise/future.h:247-251 | the arena after get_future: the promise points at the new future, which points back and has a default local state; its properties are stated by `GetFutureSpec` |
| Futures.GetFutureSpec | include/bpromise/future.h:247-251 | get_future links a new future and the promise to each other and keeps the link invariant; the future is deferred and reads the promise's state; every other future and every promise state is kept |
| Futures.TransferPromise | include/bpromise/future.h:125-139 | the arena after Promise::construct_move: the destination takes over the source's link and state, the future is re-pointed, and the source is unlinked with a moved-from state; its properties are stated by `TransferPromiseSpec` |
| Futures.TransferPromiseSpec | include/bpromise/future.h:125-139 | a promise move keeps the link invariant, re-points the partner future at the new handle, leaves the source unlinked, and moves the source state into the destination |
| Futures.ReleasePromise | include/bpromise/future.h:117-123 | the arena after Promise::destroy: a linked future receives the promise's whole state and loses its promise, and the promise keeps a moved-from state; its properties are stated by `ReleasePromiseSpec` |
| Futures.ReleasePromiseSpec | include/bpromise/future.h:117-123 | when a linked promise is released its state moves into the future's local state and the future is no longer deferred; the promise is left with the moved-from state, without its callback; every future observes the same state before and after |
| Futures.DestroyPromiseSpec | include/bpromise/future.h:90 | ~Promise removes the promise, keeps the link invariant, and leaves every remaining future observing the same state |
| Futures.AssignPromiseSpec | include/bpromise/future.h:94-101 | self-assignment changes nothing; otherwise the old destination is released into its future and the destination takes over the source's link and state |
| Futures.TransferFuture | include/bpromise/future.h:260-270 | the arena after Future::construct_move: a linked destination takes over the source's promise, an unlinked source's local state moves across, and the source is left unlinked; its properties are stated by `TransferFutureSpec` |
| Futures.TransferFutureSpec | include/bpromise/future.h:260-270 | a future move keeps the link invariant, re-points the partner promise, leaves the source unlinked; an unlinked source's local state moves across; every promise other than the source's partner is unchanged |
| Futures.ReleaseFuture | include/bpromise/future.h:253-258 | the arena after Future::destroy: a linked promise loses its future pointer; its properties are stated by `ReleaseFutureSpec` |
| Futures.ReleaseFutureSpec | include/bpromise/future.h:253-258 | releasing a linked future clears the promise's future pointer and changes no promise state |
| Futures.DestroyFutureSpec | include/bpromise/future.h:197 | ~Future removes the future, keeps the link invariant, and leaves every promise and every other future as it was |
| Futures.AssignFutureSpec | include/bpromise/future.h:201-208 | self-assignment changes nothing; otherwise the old destination is released and it takes over the source's link, or its local state when unlinked; every promise other than the two partners is unchanged |
| Futures.SetValueSpec | include/bpromise/future.h:113-114 | set_value writes the promise's own state; a linked future observes the new state and the link invariant is kept |
| Futures.OrphanSafety | include/bpromise/future.h:253-258 | after a linked future is destroyed, set_value on its promise changes the state of no future |
| Futures.ThenIn | include/bpromise/future.h:213-236 | the arena after `then`: the continuation is registered, by `SetCallback`, on the state `f` reads, and a new promise and future are linked, both with a default state; its properties are stated by `ThenSpec` |
| Futures.ThenSpec | include/bpromise/future.h:213-236 | `then` keeps the link invariant and adds exactly the pair `captured`/`outer`; `outer` is deferred on `captured` with a default state; `f` stays a future with the same deferredness and observes its state with the continuation registered; every other future and every promise except `f`'s slot are kept |
| Futures.ResultValue | include/bpromise/future.h:332-351 | the value a normalised result carries: a plain value as a one-element tuple, void as the empty tuple, a returned future's observed value |
| Futures.HandlerIn | include/bpromise/future.h:219-232 | the arena after the continuation: a deferred result gets a relay for `p` on its promise's state; any other result sets `p` to its value; a returned future is destroyed; its properties are stated by `HandlerResolvedSpec` and `HandlerPendingSpec` |
| Futures.HandlerResolvedSpec | include/bpromise/future.h:229-231 | with a result that is not deferred, `p` is set to the result's value and keeps its future, which stays deferred and observes the new state; a returned future is removed; every other future and every other promise are kept; the link invariant holds |
| Futures.HandlerPendingSpec | include/bpromise/future.h:221-228 | with a deferred result, the relay for `p` is registered on the state of the result's promise `q`, which the returned future observed; `q` loses that future, which is removed; every other future and every promise other than `q` are kept; the link invariant holds |
| Futures.Relays | include/bpromise/future.h:222-228 | never more completions than deliveries, and every completion comes from a relay delivery for that promise with that value; a single delivery posts a completion exactly when its callback is a relay, and then exactly one, with the delivered value |
| Futures.RelaysAppend | include/bpromise/future.h:222-228 | completions are posted per delivery, in delivery order: the completions of two runs of deliveries are those of the first followed by those of the second |
| Futures.Repeat | include/bpromise/future.h:313-323 | repeat calls `f` at least once |
| Futures.RepeatAgainIffTrue | include/bpromise/future.h:313-323 | `f` is called again exactly after each `true`; the calls are the leading `true`s plus one |
| Futures.RepeatCompletesIffFalse | include/bpromise/future.h:301-311 | the promise of repeat is set exactly when some answer is `false` |
| Futures.RepeatFiveCalls | include/bpromise/future.h:313-323 | four `true`s and a `false` give five calls and a completed promise |
| Futures.Engine.SetSlot | include/bpromise/future.h:47-55 | State::set on one slot; the delivery is logged and a relay delivery posts its completion |
| Futures.Engine.SetCallbackSlot | include/bpromise/future.h:68-76 | State::set_callback on one slot; an immediate delivery is logged and a relay delivery posts its completion |
| Futures.Engine.NewPromise | include/bpromise/future.h:89 | a new unlinked promise with a default state; nothing else changes |
| Futures.Engine.GetFuture | include/bpromise/future.h:111 | the arena after get_future is `GetFutureIn` with a fresh id |
| Futures.Engine.MovePromise | include/bpromise/future.h:92 | the arena after the promise move constructor is `MovePromiseIn` into a fresh id |
| Futures.Engine.AssignPromise | include/bpromise/future.h:94-101 | the arena after promise move-assignment is `AssignPromiseIn` |
| Futures.Engine.DestroyPromise | include/bpromise/future.h:90 | the arena after ~Promise is `DestroyPromiseIn` |
| Futures.Engine.MoveFuture | include/bpromise/future.h:199 | the arena after the future move constructor is `MoveFutureIn` into a fresh id |
| Futures.Engine.AssignFuture | include/bpromise/future.h:201-208 | the arena after future move-assignment is `AssignFutureIn` |
| Futures.Engine.DestroyFuture | include/bpromise/future.h:197 | the arena after ~Future is `DestroyFutureIn` |
| Futures.Engine.SetValue | include/bpromise/future.h:113-114 | Promise::set_value applies `Set` to the promise's state and logs what it delivers |
| Futures.Engine.MakeReadyFuture | include/bpromise/future.h:153-157 | a new future that is not deferred and is ready with the given value; no other handle changes |
| Futures.Engine.GetResult | include/bpromise/future.h:332-351 | a plain value becomes a ready, non-deferred future holding it; void becomes a ready future with the empty tuple; in both cases exactly that one fresh handle is added, holding `ResultValue`; a returned future passes through and nothing changes |
| Futures.Engine.ThenSteps | include/bpromise/future.h:213-236 | the steps of `then` (a promise, its future, the move into the continuation, set_callback on `f`'s state, the moved-from promise's destructor) leave the arena `ThenIn`, and log the deliveries of that set_callback |
| Futures.Engine.Then | include/bpromise/future.h:213-236 | returns a new deferred future `outer` linked to the fresh promise `captured` that a then-handler owns, and adds exactly those two handles; the handler is registered on `f`'s state, or invoked with its value if that is ready; every other future and every promise except `f`'s slot are kept; `f`'s deferredness and the main queue are untouched |
| Futures.Engine.HandlerSteps | include/bpromise/future.h:219-232 | the steps of the continuation (get_result, set_callback or set_value, the result's destructor) leave the arena `HandlerIn` and log exactly the deliveries of the set_callback or set_value |
| Futures.Engine.RunThenHandler | include/bpromise/future.h:219-232 | with a resolved result the captured promise is set synchronously with its value and keeps its link to its future; with a pending result the promise is left as it was and only a relay callback is registered on the state of the result's promise, which loses its future; a returned future is destroyed; every other future and every other promise are kept |
| Futures.Engine.RunMainImmediate | include/bpromise/future.h:225-227 | the head of the main queue is removed and sets its promise to its value |
| Futures.ThenOnReadyValue | include/bpromise/future.h:213-236 | `make_ready_future(42).then(v + 1)`: the continuation receives 42 at once, and the future `then` returned becomes ready with 43 |
| Futures.ThenOnPendingFuture | include/bpromise/future.h:213-236 | `make_ready_future(1).then(...)` returning a pending future: the outer future stays pending until the inner promise is set to 7, which posts one completion with 7 to the main queue; running it makes the outer future ready with 7 |
| Futures.RelayCompletes | include/bpromise/future.h:221-228 | for any value `v`: with only the relay for `captured` registered on promise `q`, set_value(v) posts exactly one completion, of `captured` with `v`, and running that immediate makes `captured`'s future ready with `v` |
| Workers.TaskCallback.Reschedule | include/bpromise/worker.h:52 | the deadline becomes `now + interval`, and nothing else about the task changes |
| Workers.NewTask | include/bpromise/worker.h:39-45 | a new task's deadline is its creation time plus its interval, with the given kind and callback |
| Workers.RescheduleForgetsDeadline | include/bpromise/worker.h:52 | rescheduling gives the same task whatever the previous deadline was |
| Workers.SelectIndex | src/worker.cpp:55-62 | the selected index holds a minimal deadline, and no earlier task has the same deadline |
| Workers.FirstMinUnique | src/worker.cpp:55-58 | only one index can be the first minimum |
| Workers.StepTasks | src/worker.cpp:55-80 | one loop turn on the task list at time `now`: the first task with the least deadline fires when it is due, and is then removed or rescheduled; its properties are stated by `StepTasksSpec` |
| Workers.StepTasksSpec | src/worker.cpp:51-80 | one loop turn fires exactly when some task exists and the one selected is due; a task that is not due leaves the list unchanged; a fired one-shot task is removed and the others keep their order; a fired periodic task stays in place with deadline `now + interval` |
| Workers.RunTasks | src/worker.cpp:50-81 | the loop run once per clock reading fires at most one task per reading |
| Workers.RunFromIsRun | src/worker.cpp:50-81 | the accumulating run equals the run followed by appending its log |
| Workers.StepRaisesFloor | src/worker.cpp:68-75 | with non-negative intervals, a turn that fires leaves every pending deadline at or above the deadline that fired, which lies between the old floor and `now`; a turn that fires nothing keeps the floor |
| Workers.RunFloor | src/worker.cpp:50-81 | with non-negative intervals and no tasks added, the fired deadlines never decrease, each is at least the starting floor, and each task fires no earlier than its deadline |
| Workers.FiredDeadlinesNondecreasing | src/worker.cpp:55-75 | with non-negative intervals and no tasks added, the successive fired deadlines never decrease and no task fires before its deadline |
| Workers.StepKeepsIdentity | include/bpromise/worker.h:35-60 | every task after a turn is an earlier task with only its deadline changed, so the kind never changes |
| Workers.FirstIndex | src/worker.cpp:95 | the first position holding the task with the given identity |
| Workers.Worker.constructor | include/bpromise/worker.h:103-105 | a worker starts with no tasks, not running |
| Workers.Worker.Schedule | include/bpromise/worker.h:91-98 | exactly one new task is appended at the end; the earlier tasks and their order are unchanged |
| Workers.Worker.SetImmediate | include/bpromise/worker.h:67-71 | appends a one-shot task with interval 0 whose deadline is the scheduling time |
| Workers.Worker.SetTimeout | include/bpromise/worker.h:73-77 | appends a one-shot task with the given interval |
| Workers.Worker.SetInterval | include/bpromise/worker.h:79-83 | appends a periodic task with the given interval |
| Workers.Worker.Count | src/worker.cpp:39-43 | the number of pending tasks |
| Workers.Worker.SelectTask | src/worker.cpp:55-62 | none when there are no tasks; otherwise the first task with the minimal deadline |
| Workers.Worker.Execute | src/worker.cpp:101-107 | the task's callback is logged as fired, once, at time `now` |
| Workers.Worker.CancelTask | src/worker.cpp:92-99 | only the first task with that identity is removed, the others keep their order; nothing changes when it is absent |
| Workers.Worker.Step | src/worker.cpp:51-80 | while running, the tasks and the log become what `StepTasks` gives; a stopped worker changes nothing |
| Workers.Worker.Stop | src/worker.cpp:86-90 | the running flag is false, so a following `Step` fires nothing |
| Workers.Worker.Run | src/worker.cpp:45-84 | after one turn per clock reading, the tasks and the log are what `RunTasks` gives |
| Pool.FirstIdle | include/bpromise/threadpool.h:90-95 | the lowest index with count 0, and none exactly when every worker has a task |
| Pool.Advance | include/bpromise/threadpool.h:101-103 | the cursor wraps to 0 when it was at least `size - 1`, and otherwise goes up by one; it stays below size |
| Pool.AdvanceAsWritten | include/bpromise/threadpool.h:101-103 | the cursor step with `size_t` wrap-around of `size - 1` |
| Pool.AdvanceAsWrittenAgrees | include/bpromise/threadpool.h:101-103 | on a non-empty pool the step as written is `Advance` |
| Pool.EmptyPoolOutOfRange | include/bpromise/threadpool.h:101-105 | on an empty pool the step as written selects position 1, past the end |
| Pool.Choose | include/bpromise/threadpool.h:88-106 | an idle worker, the lowest-index one, is chosen with the cursor unchanged; otherwise the new cursor is the worker chosen; the index is below size |
| Pool.BusyPicksAt | include/bpromise/threadpool.h:101-105 | with every worker busy, the `i`-th dispatch picks the worker `i + 1` places after the cursor, cyclically |
| Pool.StaleCursor | include/bpromise/threadpool.h:101-103 | a cursor at or past the end dispatches exactly like a cursor on the last worker, so the next pick wraps to 0 |
| Pool.RoundRobinFair | include/bpromise/threadpool.h:101-105 | from any cursor, including one at or past the end that `start` after `stop` leaves, `size` all-busy dispatches pick each worker exactly once |
| Pool.PicksAreBusyPicks | include/bpromise/threadpool.h:88-106 | when every worker has a task, the pool's real dispatches, each adding a task, pick the same workers as the all-busy round robin |
| Pool.PoolRoundRobinFair | include/bpromise/threadpool.h:88-106 | with every worker busy, `size` successive dispatches of the pool itself give each worker exactly one task, from any cursor |
| Pool.IdleFirst | include/bpromise/threadpool.h:90-95 | idle workers are filled first, in index order |
| Pool.ThreadPool.constructor | src/threadpool.cpp:8-9 | no workers, and the cursor starts at 0 |
| Pool.ThreadPool.Counts | include/bpromise/threadpool.h:92 | the pending task count of each worker |
| Pool.ThreadPool.Start | include/bpromise/threadpool.h:45-50 | the pool grows by exactly `count` fresh running workers, and the existing ones stay |
| Pool.ThreadPool.Stop | include/bpromise/threadpool.h:52-63 | every worker is stopped and the pool is left empty |
| Pool.ThreadPool.FindThread | include/bpromise/threadpool.h:88-106 | the worker and the new cursor are what `Choose` gives on the task counts |
| Pool.ThreadPool.AddImmediate | include/bpromise/threadpool.h:72 | worker `k` gets exactly one new one-shot task with interval 0, its running flag and fired log stay, no other worker changes, and only `k`'s count goes up by one |
| Pool.ThreadPool.SetImmediate | include/bpromise/threadpool.h:65-74 | the worker and cursor are what `Choose` gives; the chosen worker gets exactly one new one-shot task, keeps its running flag and fired log, and no other worker changes |
| Pool.MainThread.SetImmediate | include/bpromise/threadpool.h:17-21 | forwards to the main scheduler's `SetImmediate`: one one-shot task with interval 0 is appended, and the running flag and fired log stay |
| Pool.MainThread.SetTimeout | include/bpromise/threadpool.h:23-27 | forwards to the main scheduler's `SetTimeout`: one one-shot task due at `now + interval` is appended, and the running flag and fired log stay |
| Pool.MainThread.SetInterval | include/bpromise/threadpool.h:29-33 | forwards to the main scheduler's `SetInterval`: one periodic task due at `now + interval` is appended, and the running flag and fired log stay |
| Pool.MainThread.Run | include/bpromise/threadpool.h:35 | runs the main scheduler's loop, which is left running: the tasks and the log are what `RunTasks` gives |

## Left out

- Threads, `std::atomic`, `std::mutex` and `WaitEvent` are not modelled: their point is cross-thread wakeup. This also covers the `_finish_wait` handshake in the worker's destructor and the per-task `_wait` signals. The run loop is a step function driven by an explicit `now`.
- `steady_clock::now()` and `std::chrono` durations are not modelled: time is an integer parameter, and `Run` takes the sequence of clock readings the loop would make. The real loop never ends by itself; `Run` ends when the readings run out.
- Callback bodies are not modelled: callbacks are ids, and their invocations are logged. The body of a `then` continuation runs as a separate `Futures.Engine.RunThenHandler` call, which is given the result the body returned.
- Closure storage is not modelled. That covers the promise moves into `std::function` captures and the nested lambdas, and the destruction of captured promises when a closure dies.
- A callback that schedules tasks while the loop is running is not modelled, because the task list is a value and a callback has no body.
- Workers.TaskCallback: a task is a value with an identity standing for its `shared_ptr`. Rescheduling updates the list element instead of the shared object, so aliasing of a task held by the loop and by the list is not captured.
- Futures.Relays: a relay posts to `mainQueue`, a first-in-first-out queue kept beside the arena. It is not a `Worker`, because main-thread immediates have interval 0 and fire in order.
- The copy constructors that `assert(false)`, `do_with` and `sleep` are not modelled: they are memory-management details and thin wrappers.
- Pool.MainThread.SetTimeout, Pool.MainThread.SetInterval: the source forwards `(f, interval)` to worker methods that take `(interval, f)`. That instantiation cannot compile, so the intended `(interval, callback)` order is modelled; `sleep` has the same mismatch.
- Pool.ThreadPool.FindThread: requires a non-empty pool. On an empty pool the code as written reads past the end (see Findings).
- Pool.ThreadPool.SetImmediate: requires a non-empty pool, for the same reason.
- Futures.Engine.GetFuture: requires that the promise has no future yet. A second `get_future` would leave the first future pointing at a promise that no longer points back, breaking the link invariant.
- Futures.Set, Futures.SetCallback: a second `set` or `set_callback` is modelled as written, with no precondition; `SingleFire` states the single-assignment promise for a fresh state.
- Futures.MovedFrom: a moved-from tuple keeps its value, and a moved-from `std::function` is empty. Moves of the contained values are not modelled beyond that.
- Workers.FiredDeadlinesNondecreasing: requires non-negative intervals, since a negative duration would let a periodic task fire earlier than the last one.
- Pool.Advance: apart from the empty-pool case, the model does not wrap the `size_t` cursor; it stays below the pool size.
- Futures.Repeat: modelled as a pure function over the answers `f`'s futures yield, not through `Engine`, because the recursion runs inside callbacks whose bodies are not modelled.
- The socket layer and the example server are not part of this model.

## Findings

| source | as written | input that shows it | evidently intended | confidence | as-written member | corrected member |
|---|---|---|---|---|---|---|
| include/bpromise/threadpool.h:101-105 | `_threads.size() - 1` is computed in `size_t`, so it wraps to the largest value on an empty pool; the cursor then becomes 1 and `begin() + 1` is past the end, which `set_immediate` dereferences | `ThreadPool::set_immediate` before `start`, with cursor 0 | an empty pool selects no worker, and a selected index is always below the pool size | not executed | Pool.EmptyPoolOutOfRange | Pool.Choose |
