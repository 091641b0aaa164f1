# ngx-tickle, modelled in Dafny

ngx-tickle runs Rust async tasks on the nginx event-loop thread. Any thread may
wake a task. The scheduler either runs the task's runnable at once (on the
event-loop thread) or pushes it onto a channel and "tickles" an eventfd. The
eventfd's read handler, `async_handler`, then runs the queued runnables on the
event-loop thread. A finished task finalizes its HTTP request by posting a
one-shot nginx event instead of finalizing inline. The example module `sidecar`
switches this on per location and spawns one task per request.

The model is sequential, and the caller's thread id is an explicit parameter.

- `wrappers.dfy`: the `Option` type shared by the other modules.
- `spawn.dfy`, module `Spawn` (src/spawn.rs). It has two parts.
  - A value `Sched` holds MAIN_TID, the channel contents, the eventfd counter, a
    log of runs (task and thread), and each task's self-wake budget.
  - Pure functions give one step each: `Scheduled`, `Ran`, `Step`, `Drained`,
    `Handled`, `Spawned`. The lemmas state the source's promises about them.
  - The class `Scheduler` holds the same state in fields. Its methods (`Schedule`,
    `RunTask`, `AsyncHandler` with its `while let` loop over `TryRecv`, `Spawn`)
    are proved to move the state exactly as the pure functions say.
  - A task's future is abstracted to the number of times a run of it wakes the
    task itself (`woken_while_running`) before it completes. Such a run goes
    back through `schedule`, so the task is queued and tickled again. This is how
    one drain can run a task more than once: `cnt` counts the requeued runs too.
- `finalize.dfy`, module `Finalize` (src/finalize.rs).
  - The class `Finalization` holds the record: the embedded event's `posted` flag
    and `data` pointer, the request and the code.
  - The class `EventLoop` holds nginx's posted-events queue and the log of
    `ngx_http_finalize_request` calls. Two ghost fields track the records alive in
    request pools and the records whose handler has run.
  - The invariant `Valid` says three things:
    - a live record is posted iff it is in the queue, and its `data` points at itself;
    - no record is queued twice or after it has fired;
    - the finalize log holds exactly one call per fired record, with that record's
      request and code.
- `sidecar.dfy`, module `Sidecar` (examples/sidecar.rs).
  - The directive argument is modelled as bytes, with full UTF-8 well-formedness
    checking (what `str::from_utf8` checks) and `eq_ignore_ascii_case`.
  - The location configuration is a class whose `SetEnable` and `Merge` write
    `enable` in place.
  - The handler, whose status comes from `HandlerStatus`, calls `Spawn.Scheduler.Spawn`.
  - `PostConfiguration` pushes a slot onto the precontent phase's handler array,
    then writes the handler into it.

Notes on what the source does:

- Each enqueue tickles the eventfd once for the runnable it sends
  (src/spawn.rs:63-65), so one drain can follow several tickles.
- `Drop` unlinks an event that is already posted (src/finalize.rs:19-20), so a
  record freed with its pool never fires.
- A runnable run inline on the main thread can queue itself again at once, if its
  future wakes itself during that run. `ScheduleInline` therefore promises an
  unchanged queue and notifier only for a future that does not wake itself.

## Model

| member | source | states |
|---|---|---|
| `Spawn.IsMainThread` | src/spawn.rs:13-20 | Before MAIN_TID is latched (still -1), no real thread id is the main thread; a thread is the main thread only if its id is the latched one |
| `Spawn.ScheduleInline` | src/spawn.rs:53-61 | On the main thread, a wake that is not a self-wake runs the runnable right away on the caller's thread. If the future does not wake itself, the queue and the eventfd counter are unchanged |
| `Spawn.ScheduleQueues` | src/spawn.rs:60-66 | Off the main thread, or on a self-wake, the runnable is appended to the back of the queue and the eventfd is signalled exactly once. Nothing runs, and no other state changes |
| `Spawn.SelfWakeQueued` | src/spawn.rs:58-66 | A self-wake (`woken_while_running`) is enqueued and tickled from every thread, the main thread included |
| `Spawn.DrainedFrame` | src/spawn.rs:34-38 | After the drain loop, the queue is empty, MAIN_TID and the earlier log are kept, and every new run is on the draining thread. There is one eventfd signal per runnable requeued during the loop |
| `Spawn.DrainedInOrder` | src/spawn.rs:34-38 | The runnables queued when the loop starts run first, one run per entry, in enqueue order |
| `Spawn.DrainedCounts` | src/spawn.rs:34-38 | Each task runs as many times as it was queued, plus once for every self-wake it still had, if it was queued. No queued entry is skipped or run twice |
| `Spawn.DrainedExhaustsWakes` | src/spawn.rs:34-38 | After the loop, no task that was queued has a self-wake left. Tasks that were not queued are untouched |
| `Spawn.HandlerLatches` | src/spawn.rs:22-25 | The first `async_handler` call sets MAIN_TID to its thread (compare-and-swap from -1, the function `Latched`). Every later call leaves it unchanged |
| `Spawn.HandlerEmptyQueue` | src/spawn.rs:27-33 | With an empty queue, the handler clears the eventfd counter and returns without running anything |
| `Spawn.HandlerDrains` | src/spawn.rs:22-40 | One handler call leaves the queue empty and runs the old queue first, in order, on its own thread. Its run count per task is queue entries plus requeues, and the eventfd afterwards holds one signal per requeue |
| `Spawn.SpawnSchedulesOnce` | src/spawn.rs:84-93 | `spawn` creates one task and schedules its runnable exactly once, as a wake that is not a self-wake. Off the main thread (or before the latch) it is queued with one tickle; on the main thread it runs inline |
| `Spawn.QueuedRunsAtNextHandler` | src/spawn.rs:34-66 | A runnable queued from any thread runs in the next handler call, on the handler's thread, right after the runnables queued before it |
| `Spawn.FirstRequestScenario` | src/spawn.rs:13-40 | In a fresh process, the first spawn (before any handler call) is only queued, with one tickle. The first handler call latches its thread and runs the task exactly once, leaving no queue and no pending signal |
| `Spawn.ScheduledOnReactor` | src/spawn.rs:81-83 | Runnables always run on the event-loop thread: if every run so far was on thread `r` and MAIN_TID is unset or `r`, a schedule from any thread keeps it so |
| `Spawn.SpawnedOnReactor` | src/spawn.rs:81-92 | `spawn`, called from any thread, keeps every run on the event-loop thread |
| `Spawn.HandledOnReactor` | src/spawn.rs:22-38 | A handler call on the event-loop thread `r` keeps MAIN_TID unset-or-`r` (it latches `r`) and runs everything it drains on `r` |
| `Spawn.Scheduler.constructor` | src/spawn.rs:13 | Process start: MAIN_TID is -1, the channel is empty, no signal is pending, and nothing has run |
| `Spawn.Scheduler.OnMainThread` | src/spawn.rs:16-20 | `on_main_thread` answers as `IsMainThread` for the current MAIN_TID |
| `Spawn.Scheduler.Tickle` | src/notify/eventfd.rs:72-83 | `tickle` adds one to the eventfd counter |
| `Spawn.Scheduler.OnTickled` | src/notify/eventfd.rs:86-90 | `on_tickled` reads the eventfd and resets its counter to zero |
| `Spawn.Scheduler.Send` | src/spawn.rs:63 | `tx.send` appends the runnable to the back of the channel |
| `Spawn.Scheduler.TryRecv` | src/spawn.rs:35 | `try_recv` yields the oldest runnable and removes it, or yields nothing on an empty channel |
| `Spawn.Scheduler.RunTask` | src/spawn.rs:36 | `run` changes the state as the function `Ran` says: it logs one run of the task on the calling thread, and a future that still wakes itself goes back through `schedule` as a self-wake |
| `Spawn.Scheduler.Schedule` | src/spawn.rs:53-67 | `Scheduler::schedule` changes the state exactly as `Scheduled` does: inline run iff main thread and not a self-wake, otherwise send and tickle |
| `Spawn.Scheduler.AsyncHandler` | src/spawn.rs:22-40 | The handler latches MAIN_TID (as `Latched` says), resets the eventfd, and returns early on an empty queue. Otherwise it runs `RunQueued`. The new state is `Handled`, and `cnt` is the number of runs it made |
| `Spawn.Scheduler.RunQueued` | src/spawn.rs:34-38 | The `while let Ok(r) = rx.try_recv()` loop runs popped runnables until the channel reports empty. The new state is `Drained`, and the count is the number of runs made, requeued ones included |
| `Spawn.Scheduler.Spawn` | src/spawn.rs:84-93 | `spawn` registers a new task and performs its first schedule; the new state is `Spawned` |
| `Finalize.Remove` | src/finalize.rs:20 | Unlinking an event from the posted queue removes it and keeps every other event. It changes nothing if the event is not queued, and keeps a queue free of duplicates |
| `Finalize.RemoveConcat` | src/finalize.rs:20 | Unlinking works piecewise over a queue, so the events left keep their order |
| `Finalize.RemoveHead` | src/finalize.rs:20 | Unlinking the head of a duplicate-free posted queue leaves the rest of the queue in order |
| `Finalize.Finalization.constructor` | src/finalize.rs:33-38 | A new record stores exactly the request and code passed in; its event is zeroed (not posted, no data) |
| `Finalize.EventLoop.PostEvent` | src/finalize.rs:41 | `ngx_post_event` marks the event posted and appends it to the posted queue, unless it was already posted |
| `Finalize.EventLoop.DeletePostedEvent` | src/finalize.rs:20 | `ngx_delete_posted_event` clears the posted flag and unlinks the event |
| `Finalize.EventLoop.FinalizeRequest` | src/finalize.rs:29-43 | `finalize_request` allocates one fresh record holding the given request and code, and sets its `data` to the record itself. It appends exactly that one event to the posted queue and never calls the finalize primitive itself |
| `Finalize.EventLoop.Fini` | src/finalize.rs:45-50 | `fini` follows the event's `data` back to its record and calls host finalize once, with the stored request and code |
| `Finalize.EventLoop.RunNextPosted` | src/finalize.rs:45-50 | Running the oldest posted event unlinks it and finalizes its record's request with its code, exactly once. A record that has fired is never queued again. On an empty queue the turn is idle and nothing changes |
| `Finalize.Completions` | src/finalize.rs:45-50 | Firing a sequence of records makes one finalize call per record, in the same order, each with that record's request and code |
| `Finalize.EventLoop.ProcessPosted` | src/finalize.rs:41-50 | Running the posted-events loop until the queue is empty fires every posted event once, in posting order, and logs one finalize call per event with its record's request and code |
| `Finalize.EventLoop.Drop` | src/finalize.rs:17-23 | Dropping a record whose event is still posted removes the event from the queue, so its handler never runs. Dropping one that is not posted leaves the queue unchanged |
| `Finalize.FinalizeThenRun` | src/finalize.rs:29-50 | On the normal path, with any events already posted: those fire first, in order, then the new record fires exactly once and the request is finalized with the given code; the record stays live until its pool is destroyed |
| `Finalize.FinalizeThenDrop` | src/finalize.rs:17-50 | If the pool is destroyed before the event loop runs the event, the record never fires, however many turns the loop runs, idle ones included; the events posted before it fire as usual and the set of live records is as before |
| `Sidecar.AsciiIsUtf8` | examples/sidecar.rs:89-95 | Every ASCII argument passes the UTF-8 check |
| `Sidecar.OnSpellings` | examples/sidecar.rs:89-98 | `ParseSwitch`, the reading of the argument: it counts as `on` exactly when it is one of the four ASCII-case spellings of "on" |
| `Sidecar.OffSpellings` | examples/sidecar.rs:89-100 | `ParseSwitch`: the argument counts as `off` exactly when it is one of the eight ASCII-case spellings of "off" |
| `Sidecar.SwitchedTo` | examples/sidecar.rs:97-101 | `on` sets `Some(true)` and `off` sets `Some(false)`. An unrecognised or non-UTF-8 argument leaves `enable` as it was |
| `Sidecar.ModuleConfig.constructor` | examples/sidecar.rs:39-42 | A default location configuration has `enable` unset |
| `Sidecar.ModuleConfig.SetEnable` | examples/sidecar.rs:81-105 | `set_enable` returns `NGX_CONF_ERROR` iff the argument is not UTF-8, and then leaves `enable` unchanged. Otherwise it returns `NGX_CONF_OK`, having set `enable` from `ParseSwitch`'s reading (`on`/`off`) or left it unchanged |
| `Sidecar.Merged` | examples/sidecar.rs:108-113 | A child that is unset takes the parent's value; a child that is set keeps its own |
| `Sidecar.MergeIdempotent` | examples/sidecar.rs:108-113 | Merging twice with the same parent gives the same value as merging once |
| `Sidecar.MergeNearestWins` | examples/sidecar.rs:107-114 | Merging down several levels gives the value of the nearest level that is set, whatever order the merges are grouped in |
| `Sidecar.ModuleConfig.Merge` | examples/sidecar.rs:107-114 | `merge` always returns `Ok` and sets `enable` to the merged value |
| `Sidecar.Enabled` | examples/sidecar.rs:131 | `enable.unwrap_or(false)` is true exactly for `Some(true)` |
| `Sidecar.HandlerDecision` | examples/sidecar.rs:131-138 | The handler declines exactly when the module is not switched on. It returns `NGX_ERROR` exactly when it is on and the allocation fails, and `NGX_AGAIN` exactly when it is on and the allocation succeeds |
| `Sidecar.RequestCtx.constructor` | examples/sidecar.rs:123-126 | A new request context holds no task |
| `Sidecar.Handler` | examples/sidecar.rs:128-153 | The handler's status is `HandlerStatus`. On `DECLINED` or `ERROR` nothing is spawned and the request is untouched. On `AGAIN`, a fresh context is set on the request and holds the task that one `spawn` on the calling thread created |
| `Sidecar.PhaseHandlers.Push` | examples/sidecar.rs:26-30 | `ngx_array_push` appends one unwritten slot and yields its index, or yields null and leaves the array unchanged |
| `Sidecar.PostConfiguration` | examples/sidecar.rs:22-36 | `postconfiguration` returns `NGX_ERROR` (-1) with the phase array unchanged when the push yields null. Otherwise it installs exactly the sidecar handler at the end and returns `NGX_OK` (0) |

## Left out

- Real concurrency is left out: atomics with `Relaxed` ordering, the channel's internals, and the guarantee that no runnable runs on two threads at once. Thread ids are plain parameters, and every operation is one atomic step.
- The eventfd notifier's I/O is left out: `eventfd`, the epoll registration through `ngx_event_actions.add`, the dummy write handler, and the raw `read`/`write`. The notifier is a counter that `tickle` increments and `on_tickled` resets.
- The notifier's one-time initialization (`OnceLock`) is left out, and so are the panics on a failed setup or a failed eventfd write. They abort the process.
- `tx.send(...).expect("send")` is always modelled as succeeding. The channel is unbounded and is never closed while the process runs.
- The internals of `async_task` are left out: how `Runnable`/`Task` and `woken_while_running` are computed, a task's completion state, and cancellation when a `Task` is dropped. A future is reduced to how many of its runs end with it waking itself.
- A wake from another thread is a call of `Schedule` by the model's client.
- `Spawn.Scheduler.AsyncHandler` does not model a future that wakes itself forever. The source's drain loop would then never end, so the model gives each task a finite self-wake budget.
- All logging is left out: the debug line `tickle: processed {cnt} items` (`cnt` is returned instead), the other debug lines, and the EMERG-level message that `set_enable` logs for an argument that is not UTF-8 (examples/sidecar.rs:92; the `NGX_CONF_ERROR` result is modelled).
- The host's posted-events loop (`ngx_event_process_posted`) is modelled only on the records of this module, by `RunNextPosted` and `ProcessPosted`; events posted while the loop runs are left out. The event's `handler` and `log` fields are left out, because `fini` is the only handler these records ever get.
- A failed pool allocation in `finalize_request` is not modelled. The source dereferences the allocation without a null check (src/finalize.rs:38-39).
- How `Drop` comes to run (pool cleanup when the request's pool is destroyed) is not modelled. `Drop` is called by the model's client.
- `Sidecar.Handler` does not connect the spawned future's body to the run log. That body prints the request headers and then calls `finalize_request` with 204.
- The `expect` panics in `Module::location_conf(request)` and `NgxHttpCoreModule::main_conf_mut(cf)` are left out. The model is given the configuration and the phase array.
- The module registration statics are left out (`sidecar_runtime`, `COMMANDS`, `MODULE_CTX`, `ngx_modules!`), and so is the build script examples/build.rs. They are declarations and subprocess I/O.
