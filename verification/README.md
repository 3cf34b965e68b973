# Asynchronous command executor — a Dafny model

This project models Robotlegs' `AsyncCommandExecutor`, the sequencer behind direct
asynchronous commands. It is given an ordered list of command mappings and a shared
payload. It copies the list into a FIFO queue and hands the mappings one at a time to
the single-command executor. After each hand-off it returns. It resumes only when the
running command calls the completion callback bound for it in the injector.

The executor keeps:
- an aborted flag that is only ever raised;
- the current asynchronous command;
- a detain/release discipline against the context;
- three optional observers: "all aborted", "all executed", and per-step progress
  `(type, current, total)`.

## How the model is built

- `ExecutorState` holds the data.
  - The executor's fields form one immutable `State` record.
  - Everything the executor does to the outside world is appended to an event log:
    handing a mapping over, detaining, releasing, cancelling the current command,
    invoking a callback, relaying a result.
  - The views `ExecutedMappings`, `Notices`, `DetainedBag` and `ReleasedBag` read
    that log.
- `AsyncCommandExecutor` has one pure transition per entry point of the class.
  - The drain step's promise is stated once, as `DrainOutcome`. Either it started
    exactly the first non-null queued mapping (`StartedFirst`), or it started
    nothing and invoked exactly one terminal callback (`Ended`).
  - The single-command executor is abstract. It hands the mapping over with the
    run's payload and builds a fresh command, identified by a serial number. It
    then runs the pre-execution hook on that command and returns.
- `ExecutorSteps` turns the entry points into inputs an environment chooses.
  - `Step` applies one input and `Run` applies a sequence of them.
  - A command's completion, with or without `stop`, is such an input, so
    completions, aborts, new runs and setter calls can interleave in any order.
- `ExecutorTraces` proves properties over arbitrary input sequences: monotonicity,
  order, progress, callback routing and the detain/release ledger.
- `ExecutorScenarios` proves what whole runs do when every command completes in
  turn. `CompleteInTurn` completes the current command `n` times.

### Behaviour worth noting

- `_currentAsyncCommand` is set when a command is handed over
  (AsyncCommandExecutor.cs:150-154). It is never cleared after that command's
  release (AsyncCommandExecutor.cs:107-120).
  - After a run has ended, `Abort()` with `abortCurrentCommand` still invokes
    `Abort()` on the last command, which has already completed and been released.
  - `ExecutorScenarios.AbortAfterRunCancelsFinishedCommand` states this.
- A new run does not reset the aborted flag (AsyncCommandExecutor.cs:80-86). A run
  on an aborted executor immediately clears its queue and invokes "all aborted".
- The progress callback is invoked (AsyncCommandExecutor.cs:112) before the `stop`
  check and before the next drain step (AsyncCommandExecutor.cs:114-119).
  - If that callback aborts the executor, nothing more is started.
  - The cancellation then goes to the command that has just finished, and
    "all aborted" is invoked.
  - `AsyncCommandExecutor.CommandExecutedCallbackWithObserverAbort` models this
    completion and `ExecutorScenarios.ObserverAbortStartsNothing` states it.
  - An abort made only after the completion has returned is too late: it cancels
    the command for the next mapping, as
    `ExecutorScenarios.AbortAfterCompletionCancelsNextCommand` states.

## Model

| member | source | states |
|---|---|---|
| AsyncCommandExecutor.NewExecutor | src/Robotlegs/Bender/Extensions/DirectAsyncCommand/Impl/AsyncCommandExecutor.cs:42-50 | A new executor is not aborted, queues and holds nothing, has no callbacks and no completion binding, and keeps the given result handler. |
| AsyncCommandExecutor.Abort | src/Robotlegs/Bender/Extensions/DirectAsyncCommand/Impl/AsyncCommandExecutor.cs:70-78 | The aborted flag is raised and nothing else changes. The current command is cancelled if and only if cancelling was asked for and a current command exists. The cancellation is then the only event. |
| AsyncCommandExecutor.ExecuteAsyncCommands | src/Robotlegs/Bender/Extensions/DirectAsyncCommand/Impl/AsyncCommandExecutor.cs:80-86 | The queue becomes the given mappings in order and the total their count. The payload is recorded and the aborted flag is kept. One drain step then follows. On an aborted executor, the queue is cleared and only "all aborted" is invoked. With no non-null mapping, only "all executed" is invoked. |
| AsyncCommandExecutor.SetCommandsAbortedCallback | src/Robotlegs/Bender/Extensions/DirectAsyncCommand/Impl/AsyncCommandExecutor.cs:88-91 | Replaces the "all aborted" callback, possibly with none, and changes nothing else. |
| AsyncCommandExecutor.SetCommandsExecutedCallback | src/Robotlegs/Bender/Extensions/DirectAsyncCommand/Impl/AsyncCommandExecutor.cs:93-96 | Replaces the "all executed" callback and changes nothing else. |
| AsyncCommandExecutor.SetCommandExecutedCallback | src/Robotlegs/Bender/Extensions/DirectAsyncCommand/Impl/AsyncCommandExecutor.cs:98-101 | Replaces the per-step progress callback and changes nothing else. |
| AsyncCommandExecutor.CommandExecutedCallback | src/Robotlegs/Bender/Extensions/DirectAsyncCommand/Impl/AsyncCommandExecutor.cs:107-120 | The command is released first. Progress is then reported as (type, total minus still queued, total) to the registered callback. `stop` raises the flag without cancelling anything. A drain step follows, in which the raised flag stops sequencing. |
| AsyncCommandExecutor.CommandExecutedCallbackWithObserverAbort | src/Robotlegs/Bender/Extensions/DirectAsyncCommand/Impl/AsyncCommandExecutor.cs:107-120 | The progress callback calls `Abort` during the completion. The command is released and progress is reported. The abort then cancels the still-current finished command if asked, and the drain step starts nothing and invokes only "all aborted". The queue is left empty and the binding removed. The finished command leaves the detained set, and every other field (callbacks, total, payload, handler, serial counter) is unchanged. |
| AsyncCommandExecutor.ExecuteNextCommand | src/Robotlegs/Bender/Extensions/DirectAsyncCommand/Impl/AsyncCommandExecutor.cs:122-148 | The completion binding is removed. Then one of two things happens. Either the first non-null queued mapping is started alone, with the null mappings before it skipped. Or the queue is emptied and exactly one terminal callback fires: "all aborted" if aborted, otherwise "all executed", and then only when no non-null mapping was left. A binding remains afterwards if and only if a command was started. |
| AsyncCommandExecutor.DrainLoop | src/Robotlegs/Bender/Extensions/DirectAsyncCommand/Impl/AsyncCommandExecutor.cs:127-147 | The dequeue loop with the code after it meets the drain-step promise for every queue, including queues of null mappings. |
| AsyncCommandExecutor.ExecuteCommand | src/Robotlegs/Bender/Extensions/DirectAsyncCommand/Impl/AsyncCommandExecutor.cs:134 | The hand-off passes the mapping with the run's payload. It builds a command of the mapping's type with a serial never used before. That command becomes current and is detained once. |
| AsyncCommandExecutor.PreprocessAsyncCommandExecuting | src/Robotlegs/Bender/Extensions/DirectAsyncCommand/Impl/AsyncCommandExecutor.cs:150-154 | The new command becomes current and is detained exactly once, and nothing else changes. |
| AsyncCommandExecutor.HandleCommandExecuteResult | src/Robotlegs/Bender/Extensions/DirectAsyncCommand/Impl/AsyncCommandExecutor.cs:156-160 | Forwards (result, command, mapping) unchanged if and only if a handler was given. No field of the executor changes. |
| ExecutorSteps.DrainFacts | src/Robotlegs/Bender/Extensions/DirectAsyncCommand/Impl/AsyncCommandExecutor.cs:122-148 | A drain step never cancels anything and never reports progress. It keeps the flag, the total and the payload, and leaves a suffix of the queue. The mappings it starts, followed by the non-null mappings still queued, form a prefix of the queued non-null mappings: all of them unless aborted, and none started if aborted. |
| ExecutorSteps.CompletionFacts | src/Robotlegs/Bender/Extensions/DirectAsyncCommand/Impl/AsyncCommandExecutor.cs:107-120 | A completion raises the flag exactly when `stop` is set or it was already raised. It never cancels a command. Every progress report it makes carries the number of steps dequeued before it and the run's total. Once the flag is raised, nothing more is started and "all executed" is not invoked. |
| ExecutorTraces.AbortedFlagIsMonotonic | src/Robotlegs/Bender/Extensions/DirectAsyncCommand/Impl/AsyncCommandExecutor.cs:56-78 | Over any sequence of inputs, a raised aborted flag stays raised. The flag is raised only by an abort request or by a completion asking to stop. |
| ExecutorTraces.NothingStartsAfterAbort | src/Robotlegs/Bender/Extensions/DirectAsyncCommand/Impl/AsyncCommandExecutor.cs:127-143 | Once aborted, no mapping is ever handed over again and "all executed" is never invoked, whatever inputs follow, new runs included. |
| ExecutorTraces.ProgressStaysInRange | src/Robotlegs/Bender/Extensions/DirectAsyncCommand/Impl/AsyncCommandExecutor.cs:111-112 | The queue never outgrows the total, so every progress report ever made satisfies 0 <= current <= total. |
| ExecutorTraces.ProgressNeverDecreases | src/Robotlegs/Bender/Extensions/DirectAsyncCommand/Impl/AsyncCommandExecutor.cs:109-112 | Within one run, the total is fixed and the queue only shrinks. The reported step numbers never go backwards and lie between the count dequeued at the start and the count dequeued at the end. |
| ExecutorTraces.StartsFollowQueueOrder | src/Robotlegs/Bender/Extensions/DirectAsyncCommand/Impl/AsyncCommandExecutor.cs:127-136 | Within one run, under any interleaving of completions and aborts, the mappings handed over and then the non-null mappings still queued form a prefix of the originally queued non-null mappings. They are all of them while not aborted, and every hand-off carries the run's payload. |
| ExecutorTraces.RunStartsEachMappingAtMostOnce | src/Robotlegs/Bender/Extensions/DirectAsyncCommand/Impl/AsyncCommandExecutor.cs:80-86 | A run started with some mappings hands over a prefix of their non-null entries, in order, none twice, each with the run's payload. Unless aborted, the handed-over mappings plus those still queued are exactly the non-null entries. |
| ExecutorTraces.OnlyRegisteredCallbacksAreInvoked | src/Robotlegs/Bender/Extensions/DirectAsyncCommand/Impl/AsyncCommandExecutor.cs:112-146 | While no setter is called, every progress, "all aborted" and "all executed" invocation goes to the callback registered at the outset. An absent callback is never invoked. |
| ExecutorTraces.AbortedCallbackReplaced | src/Robotlegs/Bender/Extensions/DirectAsyncCommand/Impl/AsyncCommandExecutor.cs:88-91 | After the setter, a run on an aborted executor notifies exactly the newly set "all aborted" callback, or nobody when it was set to null. |
| ExecutorTraces.ExecutedCallbackReplaced | src/Robotlegs/Bender/Extensions/DirectAsyncCommand/Impl/AsyncCommandExecutor.cs:93-96 | After the setter, a run of only null mappings on a live executor notifies exactly the newly set "all executed" callback and does nothing else visible. |
| ExecutorTraces.ProgressCallbackReplaced | src/Robotlegs/Bender/Extensions/DirectAsyncCommand/Impl/AsyncCommandExecutor.cs:98-101 | After the setter, the next completion releases its command and then reports to the newly set progress callback, before anything else. |
| ExecutorTraces.ObedientRunStaysTracked | src/Robotlegs/Bender/Extensions/DirectAsyncCommand/Impl/AsyncCommandExecutor.cs:150-154 | If only the awaited command reports completion and runs start only when none is awaited, the ledger holds after any number of steps. Everything detained was released or is still held, at most the current command is held, no command is detained twice, and the completion binding exists only while a command is awaited. |
| ExecutorTraces.DetainReleaseBalance | src/Robotlegs/Bender/Extensions/DirectAsyncCommand/Impl/AsyncCommandExecutor.cs:107-109 | From a new executor under such an environment, at most one command is ever held. Once none is awaited, detains and releases balance exactly, with each command detained at most once. |
| ExecutorScenarios.InTurnStep | src/Robotlegs/Bender/Extensions/DirectAsyncCommand/Impl/AsyncCommandExecutor.cs:109-134 | Suppose step k of a run without nulls or abort is in flight and is not the last. Its completion reports (type of mapping k, k, N), starts mapping k+1 alone and leaves step k+1 in flight. |
| ExecutorScenarios.UninterruptedRun | src/Robotlegs/Bender/Extensions/DirectAsyncCommand/Impl/AsyncCommandExecutor.cs:80-147 | A run over N mappings without nulls, with every command completing in turn, reports steps 1..N in order with total N. It then invokes "all executed" once and "all aborted" never. It starts every mapping once, in order, and ends with an empty queue and the flag down. |
| ExecutorScenarios.StoppedRun | src/Robotlegs/Bender/Extensions/DirectAsyncCommand/Impl/AsyncCommandExecutor.cs:114-143 | Suppose the command of step j+1 completes with `stop`. Steps 1..j+1 are still reported, then "all aborted" is invoked once and "all executed" never. Only the first j+1 mappings are ever started, and the queue is cleared. |
| ExecutorScenarios.AbortAfterRunCancelsFinishedCommand | src/Robotlegs/Bender/Extensions/DirectAsyncCommand/Impl/AsyncCommandExecutor.cs:70-78 | After a complete run, the current command is still set, although it was already released. Aborting with `abortCurrentCommand` then cancels that finished command. |
| ExecutorScenarios.ObserverAbortStartsNothing | src/Robotlegs/Bender/Extensions/DirectAsyncCommand/Impl/AsyncCommandExecutor.cs:70-78 | Suppose the progress callback of step k aborts with `abortCurrentCommand`. Step k is still reported as (type of mapping k, k, N). Then "all aborted" is the only other notice and no later mapping is started. The command that just finished is cancelled. |
| ExecutorScenarios.AbortAfterCompletionCancelsNextCommand | src/Robotlegs/Bender/Extensions/DirectAsyncCommand/Impl/AsyncCommandExecutor.cs:70-78 | Suppose step k is in flight and is not the last, and an abort comes only after its completion returns. Mapping k+1 has then already been started, and the cancellation goes to the new command of that mapping's type. |

## Left out

- The injector is not modelled as a container. The named completion binding
  (`HasMapping`/`Unmap`/`Map`/`ToValue`) is the boolean `bindingPresent`.
- The real `CommandExecutor` is not part of this model. That covers reflection,
  instantiation, the remove-mapping delegate and `command.GetType()`. A command is
  a fresh serial number plus its mapping's type tag.
- The `as IAsyncCommand` cast is left out: every command is treated as asynchronous.
  With a non-asynchronous command, the code would set the current command to null
  and detain null.
- Exceptions thrown by commands or by the single-command executor are left out.
  They propagate to the caller and the class does not handle them.
- A command completing synchronously inside the hand-off, before `ExecuteCommand`
  returns, is left out. The model makes every completion a separate input.
- The queue being null before the first run is modelled as the empty queue.
  - In the code, a completion arriving before any run would throw on
    `_commandMappingQueue.Count`.
  - The completion callback is bound only during a run.
- The context's retention registry is reduced to a multiset of detained commands
  and the log. Its own idempotency rules are left out.
- The payload and result values are opaque identities.
- The context and the injector object references from the constructor are not
  modelled.
- ExecutorTraces.DetainReleaseBalance: assumes an obedient environment
  (`Obedient`). Only the awaited command reports completion, and a new run starts
  only when no command is awaited. The code accepts a completion from any command
  that received the binding, and any number of completions. The balance holds only
  for commands that complete exactly once.
- ExecutorTraces.ObedientRunStaysTracked: assumes the same obedient environment,
  for the same reason.
- ExecutorScenarios.UninterruptedRun: stated for mapping lists without nulls.
  Null mappings are covered by the order lemmas, which allow any queue.
- Calls back into the executor from a callback are modelled only for the one
  case above: `Abort` from the progress callback.
  - That case is a separate transition, not an input of `Step`, so the trace
    lemmas in `ExecutorTraces` do not cover it.
  - A progress callback that starts a run or completes a command re-enters the
    drain while a completion is half done. That is not modelled.
  - A progress callback that calls a setter does not re-enter the drain
    (AsyncCommandExecutor.cs:88-101 only assign a field). It does change which
    terminal callback the same completion's drain step then invokes
    (AsyncCommandExecutor.cs:142, 146). That is not modelled either.
  - The terminal callbacks are invoked last in their step, so a call made from one
    of them is modelled by the input that follows.
